/** `runClaim` (src/components/BookPanel.tsx, lines 90-255) against the claim ticket: any number
    of runs, cut where they await, mixed with wallet switches, edits and late replies.

    A wallet switch renders at once, which resets the ticket; `walletRef` catches up later, in
    an effect (`Flush`). A run may outlive its ticket, and `fill` may let a second run of the
    same wallet start beside it. */
module ClaimRuns {
  import opened Wrappers
  import opened Logs
  import opened ClaimTicket

  /** Where a run waits: for the build and its checks, the wallet, the RPC to take the
      transaction, its confirmation, Panta to take the report, the ledger to list it. */
  datatype Await = Checking | Signing | Sending | Waiting | Filing | Listing

  datatype Claim = Claim(owner: string, mode: Kind, await: Await, sig: string)

  /** A prompt of the wallet notes what `walletRef` said and which wallet was rendered. */
  datatype Entry =
    | Prompt(run: nat, owner: string, latest: Option<string>, rendered: Option<string>)
    | Landed(run: nat, sig: string)
    | Report(run: nat, owner: string, mode: Kind, sig: string)

  /** What has reached the wallet, the chain and Panta so far. */
  type Trace = Log<Entry>

  datatype Page = Page(
    wallet: Option<string>, ref: Option<string>, ticket: Ticket,
    first: Option<string>, history: seq<Action>, runs: map<nat, Claim>, next: nat, trace: Trace)

  datatype Reply = Fails(why: string) | Passes | Sent(sig: string) | Settled(phase: Phase) | Filed(attr: Attr)

  datatype Event =
    | Connect(wallet: Option<string>)
    | Flush
    | Edit(action: Action)
    | Click(ready: bool)
    | Answer(run: nat, reply: Reply)

  ghost predicate Possible(p: Page, e: Event) {
    match e
    case Connect(_) => true
    case Flush => true
    case Edit(a) => a.Fill? || a.SetMarket? || a.SetMode?
    case Click(_) => !p.ticket.busy && p.wallet.Some?
    case Answer(run, r) =>
      run in p.runs
      && match p.runs[run].await {
           case Checking => r.Fails? || r.Passes?
           case Signing => r.Fails? || r.Passes?
           case Sending => r.Fails? || r.Sent?
           case Waiting => r.Fails? || (r.Settled? && r.phase in {Pending, Confirmed, Failed})
           case Filing => r.Fails? || (r.Filed? && r.attr in {Reported, Attributed})
           case Listing => r.Fails? || r.Passes?
         }
  }

  function Dispatch(p: Page, a: Action): Page {
    p.(ticket := Reduce(p.ticket, a), history := p.history + [a])
  }

  /** Lines 250 to 254: the `catch`, if it is reached, and the `finally`. */
  function Finish(p: Page, owner: string, error: Option<string>): Page {
    var q := if error.Some? then Dispatch(p, Update(owner, NOTHING.(error := Some(error)))) else p;
    Dispatch(q, Update(owner, NOTHING.(busy := Some(false))))
  }

  function Drop(p: Page, run: nat): Page {
    p.(runs := p.runs - {run})
  }

  function Move(p: Page, run: nat, c: Claim): Page {
    p.(runs := p.runs[run := c])
  }

  function Log(p: Page, entry: Entry): Page {
    p.(trace := Then(p.trace, entry))
  }

  /** Lines 223 to 251: the transaction has been reported on. */
  function AfterSettling(p: Page, run: nat, c: Claim, phase: Phase, attributable: Kind -> bool): Page {
    if phase != Confirmed then
      var q := Dispatch(p, Update(c.owner, NOTHING.(phase := Some(phase), msg := Some(Some("broadcast")))));
      Finish(Drop(q, run), c.owner, Some("not confirmed"))
    else
      var q := Dispatch(Log(p, Landed(run, c.sig)),
                        Update(c.owner, NOTHING.(phase := Some(Confirmed), msg := Some(Some("confirmed")))));
      if attributable(c.mode) then
        var r := Dispatch(q, Update(c.owner, NOTHING.(attr := Some(Reporting))));
        Move(Log(r, Report(run, c.owner, c.mode, c.sig)), run, c.(await := Filing))
      else
        Finish(Drop(Dispatch(q, Update(c.owner, NOTHING.(attr := Some(NotAttributable)))), run), c.owner, None)
  }

  function AfterReply(p: Page, run: nat, r: Reply, attributable: Kind -> bool): Page
    requires Possible(p, Answer(run, r))
  {
    var c := p.runs[run];
    match c.await
    case Checking =>
      if r.Fails? then Finish(Drop(p, run), c.owner, Some(r.why))
      else if p.ref != Some(c.owner) then Finish(Drop(p, run), c.owner, Some("Signing blocked."))
      else Move(Log(p, Prompt(run, c.owner, p.ref, p.wallet)), run, c.(await := Signing))
    case Signing =>
      if r.Fails? then Finish(Drop(p, run), c.owner, Some(r.why)) else Move(p, run, c.(await := Sending))
    case Sending =>
      if r.Fails? then Finish(Drop(p, run), c.owner, Some(r.why))
      else
        var patch := NOTHING.(sig := Some(Some(r.sig)), phase := Some(Confirming), msg := Some(Some("confirming")));
        Move(Dispatch(p, Update(c.owner, patch)), run, c.(await := Waiting, sig := r.sig))
    case Waiting =>
      if r.Fails? then Finish(Drop(p, run), c.owner, Some(r.why))
      else AfterSettling(p, run, c, r.phase, attributable)
    case Filing =>
      if r.Fails? then
        Finish(Drop(Dispatch(p, Update(c.owner, NOTHING.(attr := Some(ReportFailed)))), run), c.owner, None)
      else
        var q := Finish(Dispatch(p, Update(c.owner, NOTHING.(attr := Some(r.attr)))), c.owner, None);
        if r.attr == Attributed then Drop(q, run) else Move(q, run, c.(await := Listing))
    case Listing =>
      if r.Fails? then Drop(p, run)
      else Drop(Dispatch(p, Update(c.owner, NOTHING.(attr := Some(Attributed)))), run)
  }

  function Step(p: Page, e: Event, attributable: Kind -> bool): Page
    requires Possible(p, e)
  {
    match e
    case Connect(wallet) =>
      var q := p.(wallet := wallet);
      if p.ticket.owner != wallet then Dispatch(q, Wallet(wallet)) else q
    case Flush => p.(ref := p.wallet)
    case Edit(a) => Dispatch(p, a)
    case Click(ready) =>
      var owner := p.wallet.value;
      var q := Dispatch(p, Start(owner)).(next := p.next + 1);
      if ready then Move(q, p.next, Claim(owner, p.ticket.mode, Checking, ""))
      else Finish(q, owner, Some("not ready"))
    case Answer(run, r) => AfterReply(p, run, r, attributable)
  }

  function Opened(wallet: Option<string>): Page {
    Page(wallet, wallet, EmptyTicket(wallet), wallet, [], map[], 0, Begin)
  }

  predicate WasPrompted(t: Trace, run: nat) {
    t.Then? && ((t.entry.Prompt? && t.entry.run == run) || WasPrompted(t.before, run))
  }

  predicate WasReported(t: Trace, run: nat) {
    t.Then? && ((t.entry.Report? && t.entry.run == run) || WasReported(t.before, run))
  }

  predicate HasLanded(t: Trace, run: nat, sig: string) {
    t.Then? && (t.entry == Landed(run, sig) || HasLanded(t.before, run, sig))
  }

  /** The wallet is asked at most once a run, and only while `walletRef` names the run's own; a
      report is sent at most once a run, for a signature seen confirmed, of a kind that may be
      attributed. */
  predicate Safe(t: Trace, attributable: Kind -> bool) {
    t.Then? ==>
      && Safe(t.before, attributable)
      && match t.entry {
           case Prompt(run, owner, latest, _) => latest == Some(owner) && !WasPrompted(t.before, run)
           case Landed(_, _) => true
           case Report(run, _, mode, sig) =>
             && attributable(mode) && !WasReported(t.before, run)
             && HasLanded(t.before, run, sig) && WasPrompted(t.before, run)
         }
  }

  /** One more than the highest number of a run in the trace. */
  function RunsIn(t: Trace): nat {
    if t.Begin? then 0
    else if t.entry.run >= RunsIn(t.before) then t.entry.run + 1
    else RunsIn(t.before)
  }

  /** What the trace knows of a run, by where it waits. */
  predicate RunFits(t: Trace, run: nat, c: Claim) {
    && (WasPrompted(t, run) <==> c.await != Checking)
    && (c.await in {Checking, Signing, Sending, Waiting} ==> !WasReported(t, run))
  }

  ghost predicate RunsFit(p: Page) {
    forall run :: run in p.runs ==> run < p.next && RunFits(p.trace, run, p.runs[run])
  }

  /** The ticket is what the reducer makes of the actions so far, and it belongs to the wallet
      being rendered. */
  ghost predicate TicketFits(p: Page) {
    p.ticket == After(EmptyTicket(p.first), p.history) && p.ticket.owner == p.wallet
  }

  ghost predicate Invariant(p: Page, attributable: Kind -> bool) {
    TicketFits(p) && RunsFit(p) && Safe(p.trace, attributable) && RunsIn(p.trace) <= p.next
  }

  lemma DispatchFits(p: Page, a: Action)
    requires TicketFits(p) && !a.Wallet?
    ensures TicketFits(Dispatch(p, a))
  {
    assert (p.history + [a])[..|p.history|] == p.history;
  }

  lemma FinishFits(p: Page, owner: string, error: Option<string>)
    requires TicketFits(p)
    ensures TicketFits(Finish(p, owner, error))
  {
    var a := Update(owner, NOTHING.(error := Some(error)));
    DispatchFits(p, a);
    var q := if error.Some? then Dispatch(p, a) else p;
    DispatchFits(q, Update(owner, NOTHING.(busy := Some(false))));
  }

  lemma ConnectFits(p: Page, wallet: Option<string>)
    requires TicketFits(p)
    ensures var q := p.(wallet := wallet);
            TicketFits(if p.ticket.owner != wallet then Dispatch(q, Wallet(wallet)) else q)
  {
    assert (p.history + [Wallet(wallet)])[..|p.history|] == p.history;
  }

  lemma SettlingFits(p: Page, run: nat, c: Claim, phase: Phase, attributable: Kind -> bool)
    requires TicketFits(p)
    ensures TicketFits(AfterSettling(p, run, c, phase, attributable))
  {
    hide TicketFits, Reduce, After, Dispatch, Finish;
    if phase != Confirmed {
      var a := Update(c.owner, NOTHING.(phase := Some(phase), msg := Some(Some("broadcast"))));
      DispatchFits(p, a);
      Detached(Dispatch(p, a), Drop(Dispatch(p, a), run));
      FinishFits(Drop(Dispatch(p, a), run), c.owner, Some("not confirmed"));
    } else {
      var a := Update(c.owner, NOTHING.(phase := Some(Confirmed), msg := Some(Some("confirmed"))));
      var logged := Log(p, Landed(run, c.sig));
      Detached(p, logged);
      DispatchFits(logged, a);
      var q := Dispatch(logged, a);
      var b := Update(c.owner, NOTHING.(attr := Some(if attributable(c.mode) then Reporting else NotAttributable)));
      DispatchFits(q, b);
      var r := Dispatch(q, b);
      if attributable(c.mode) {
        Detached(r, AfterSettling(p, run, c, phase, attributable));
      } else {
        Detached(r, Drop(r, run));
        FinishFits(Drop(r, run), c.owner, None);
      }
    }
  }

  /** The ticket does not depend on the runs or the trace. */
  lemma Detached(p: Page, q: Page)
    requires TicketFits(p) && q == p.(runs := q.runs, next := q.next, trace := q.trace, ref := q.ref)
    ensures TicketFits(q)
  {
  }

  lemma ReplyFits(p: Page, run: nat, r: Reply, attributable: Kind -> bool)
    requires TicketFits(p) && Possible(p, Answer(run, r))
    ensures TicketFits(AfterReply(p, run, r, attributable))
  {
    hide TicketFits, Reduce, After, Dispatch, Finish, AfterSettling;
    var c := p.runs[run];
    Detached(p, Drop(p, run));
    if c.await == Waiting && !r.Fails? {
      SettlingFits(p, run, c, r.phase, attributable);
    } else if c.await == Sending && r.Sent? {
      var patch := NOTHING.(sig := Some(Some(r.sig)), phase := Some(Confirming), msg := Some(Some("confirming")));
      var a := Update(c.owner, patch);
      DispatchFits(p, a);
      Detached(Dispatch(p, a), AfterReply(p, run, r, attributable));
    } else if c.await == Filing {
      var a := Update(c.owner, NOTHING.(attr := Some(if r.Fails? then ReportFailed else r.attr)));
      DispatchFits(p, a);
      var q := Dispatch(p, a);
      Detached(q, Drop(q, run));
      FinishFits(Drop(q, run), c.owner, None);
      FinishFits(q, c.owner, None);
      if !r.Fails? {
        Detached(Finish(q, c.owner, None), AfterReply(p, run, r, attributable));
      }
    } else if c.await == Listing {
      var a := Update(c.owner, NOTHING.(attr := Some(Attributed)));
      DispatchFits(p, a);
      Detached(Dispatch(p, a), Drop(Dispatch(p, a), run));
    } else if r.Fails? {
      FinishFits(Drop(p, run), c.owner, Some(r.why));
    } else {
      FinishFits(Drop(p, run), c.owner, Some("Signing blocked."));
      if c.await != Checking || p.ref == Some(c.owner) {
        Detached(p, AfterReply(p, run, r, attributable));
      }
    }
  }

  lemma {:induction false} NotYet(t: Trace, run: nat)
    requires run >= RunsIn(t)
    ensures !WasPrompted(t, run) && !WasReported(t, run)
  {
    if t.Then? {
      NotYet(t.before, run);
    }
  }

  /** The part of a page that the protocol proof is about. */
  ghost predicate ProtocolFits(p: Page, attributable: Kind -> bool) {
    RunsFit(p) && Safe(p.trace, attributable) && RunsIn(p.trace) <= p.next
  }

  /** A run that only moves on or ends, with nothing logged. */
  lemma MoveFits(p: Page, q: Page, run: nat, attributable: Kind -> bool)
    requires ProtocolFits(p, attributable) && run in p.runs && q.trace == p.trace && q.next == p.next
    requires q.runs == p.runs - {run} || (exists c :: q.runs == p.runs[run := c] && RunFits(p.trace, run, c))
    ensures ProtocolFits(q, attributable)
  {
    hide Safe, RunsIn, RunFits;
  }

  /** A run that logs one entry of its own as it moves on or ends. */
  lemma LogFits(p: Page, q: Page, run: nat, attributable: Kind -> bool)
    requires ProtocolFits(p, attributable) && run in p.runs && q.next == p.next
    requires q.trace.Then? && q.trace.before == p.trace && q.trace.entry.run == run && Safe(q.trace, attributable)
    requires q.runs == p.runs - {run} || (exists c :: q.runs == p.runs[run := c] && RunFits(q.trace, run, c))
    ensures ProtocolFits(q, attributable)
  {
    hide Safe;
    forall other | other in q.runs ensures other < q.next && RunFits(q.trace, other, q.runs[other]) {
      if other != run {
        assert RunFits(p.trace, other, p.runs[other]);
      }
    }
  }

  lemma FinishLeavesProtocol()
    ensures forall p: Page, owner: string, error: Option<string> ::
              var q := Finish(p, owner, error);
              q.runs == p.runs && q.trace == p.trace && q.next == p.next && q.ref == p.ref && q.wallet == p.wallet
  {
  }

  lemma SettlingKeepsProtocol(p: Page, run: nat, phase: Phase, attributable: Kind -> bool)
    requires ProtocolFits(p, attributable) && run in p.runs && p.runs[run].await == Waiting
    ensures ProtocolFits(AfterSettling(p, run, p.runs[run], phase, attributable), attributable)
  {
    hide Finish, Reduce;
    var c := p.runs[run];
    var q := AfterSettling(p, run, c, phase, attributable);
    FinishLeavesProtocol();
    if phase != Confirmed {
      assert q.runs == p.runs - {run} && q.trace == p.trace;
      MoveFits(p, q, run, attributable);
    } else {
      var landed := Log(p, Landed(run, c.sig));
      var mid := Move(landed, run, c);
      assert RunFits(p.trace, run, c);
      assert mid.runs == p.runs[run := c] && RunFits(mid.trace, run, c);
      LogFits(p, mid, run, attributable);
      if attributable(c.mode) {
        var done := c.(await := Filing);
        assert q.trace == Then(mid.trace, Report(run, c.owner, c.mode, c.sig));
        assert q.runs == mid.runs[run := done] && RunFits(q.trace, run, done);
        LogFits(mid, q, run, attributable);
      } else {
        assert q.runs == mid.runs - {run} && q.trace == mid.trace;
        MoveFits(mid, q, run, attributable);
      }
    }
  }

  lemma ReplyKeepsProtocol(p: Page, run: nat, r: Reply, attributable: Kind -> bool)
    requires ProtocolFits(p, attributable) && Possible(p, Answer(run, r))
    ensures ProtocolFits(AfterReply(p, run, r, attributable), attributable)
  {
    hide Finish, Reduce, AfterSettling, Safe, RunsIn;
    var c := p.runs[run];
    var q := AfterReply(p, run, r, attributable);
    FinishLeavesProtocol();
    assert RunFits(p.trace, run, c);
    if c.await == Waiting && !r.Fails? {
      SettlingKeepsProtocol(p, run, r.phase, attributable);
    } else if c.await == Checking && r.Passes? && p.ref == Some(c.owner) {
      PromptFits(p, q, run, attributable);
    } else {
      assert q.trace == p.trace && q.next == p.next;
      if run in q.runs {
        assert q.runs == p.runs[run := q.runs[run]] && RunFits(p.trace, run, q.runs[run]);
      } else {
        assert q.runs == p.runs - {run};
      }
      MoveFits(p, q, run, attributable);
    }
  }

  lemma PromptFits(p: Page, q: Page, run: nat, attributable: Kind -> bool)
    requires ProtocolFits(p, attributable) && run in p.runs && p.runs[run].await == Checking
    requires p.ref == Some(p.runs[run].owner)
    requires var c := p.runs[run]; q == Move(Log(p, Prompt(run, c.owner, p.ref, p.wallet)), run, c.(await := Signing))
    ensures ProtocolFits(q, attributable)
  {
    var c := p.runs[run];
    var next := c.(await := Signing);
    assert RunFits(p.trace, run, c);
    assert q.runs == p.runs[run := next] && RunFits(q.trace, run, next);
    LogFits(p, q, run, attributable);
  }

  lemma ClickKeepsProtocol(p: Page, ready: bool, attributable: Kind -> bool)
    requires ProtocolFits(p, attributable) && Possible(p, Click(ready))
    ensures ProtocolFits(Step(p, Click(ready), attributable), attributable)
  {
    NotYet(p.trace, p.next);
    FinishLeavesProtocol();
    hide Finish, Reduce, Safe, RunsIn, WasPrompted, WasReported;
  }

  lemma ClickFits(p: Page, ready: bool, attributable: Kind -> bool)
    requires TicketFits(p) && Possible(p, Click(ready))
    ensures TicketFits(Step(p, Click(ready), attributable))
  {
    var owner := p.wallet.value;
    DispatchFits(p, Start(owner));
    hide TicketFits, Dispatch, Finish, Reduce;
    var q := Dispatch(p, Start(owner));
    Detached(q, q.(next := p.next + 1));
    if ready {
      Detached(q, Step(p, Click(ready), attributable));
    } else {
      FinishFits(q.(next := p.next + 1), owner, Some("not ready"));
    }
  }

  lemma StepKeepsInvariant(p: Page, e: Event, attributable: Kind -> bool)
    requires Invariant(p, attributable) && Possible(p, e)
    ensures Invariant(Step(p, e, attributable), attributable)
  {
    hide Safe, RunsIn, RunFits, Reduce, After, Finish;
    match e
    case Connect(wallet) => ConnectFits(p, wallet);
    case Flush =>
    case Edit(a) => DispatchFits(p, a);
    case Click(ready) =>
      ClickFits(p, ready, attributable);
      ClickKeepsProtocol(p, ready, attributable);
    case Answer(run, r) =>
      ReplyFits(p, run, r, attributable);
      ReplyKeepsProtocol(p, run, r, attributable);
  }

  ghost predicate PossibleRun(p: Page, run: seq<Event>, attributable: Kind -> bool)
    decreases |run|
  {
    run == [] || (Possible(p, run[0]) && PossibleRun(Step(p, run[0], attributable), run[1..], attributable))
  }

  ghost function PageAfter(p: Page, run: seq<Event>, attributable: Kind -> bool): Page
    requires PossibleRun(p, run, attributable)
    decreases |run|
  {
    if run == [] then p else PageAfter(Step(p, run[0], attributable), run[1..], attributable)
  }

  lemma {:induction false} RunsKeepInvariant(p: Page, run: seq<Event>, attributable: Kind -> bool)
    requires Invariant(p, attributable) && PossibleRun(p, run, attributable)
    ensures Invariant(PageAfter(p, run, attributable), attributable)
    decreases |run|
  {
    if run != [] {
      StepKeepsInvariant(p, run[0], attributable);
      hide Invariant, Step;
      RunsKeepInvariant(Step(p, run[0], attributable), run[1..], attributable);
    }
  }

  /** What the invariant is worth to a reader of the page. */
  lemma InvariantMeans(p: Page, attributable: Kind -> bool)
    requires Invariant(p, attributable)
    ensures Safe(p.trace, attributable) && p.ticket.owner == p.wallet
    ensures forall f: Field :: Blank(p.ticket, f) || exists i: nat :: Wrote(p.history, i, p.ticket, f)
  {
    hide Safe, After, Blank, RunsFit, RunsIn, Writes;
    forall f: Field ensures Blank(p.ticket, f) || exists i: nat :: Wrote(p.history, i, p.ticket, f) {
      Provenance(p.first, p.history, f);
    }
  }

  /** A started run clears what an earlier one left, and has asked nothing of anyone. */
  lemma ClickClears(p: Page, ready: bool, attributable: Kind -> bool)
    requires TicketFits(p) && Possible(p, Click(ready))
    ensures var q := Step(p, Click(ready), attributable);
            q.trace == p.trace && q.ticket.sig == None && q.ticket.attr == NoReport && q.ticket.busy == ready
  {
    hide After;
  }

  /** What a reply may add to the trace. */
  lemma AnswerLogs(p: Page, run: nat, r: Reply, attributable: Kind -> bool)
    requires Invariant(p, attributable) && Possible(p, Answer(run, r))
    ensures var q := Step(p, Answer(run, r), attributable);
            var c := p.runs[run];
            && (WasPrompted(q.trace, run) && !WasPrompted(p.trace, run) ==>
                  p.ref == Some(c.owner) && q.trace == Then(p.trace, Prompt(run, c.owner, p.ref, p.wallet)))
            && (WasReported(q.trace, run) && !WasReported(p.trace, run) ==>
                  attributable(c.mode) && HasLanded(q.trace, run, c.sig))
  {
    assert RunFits(p.trace, run, p.runs[run]);
    FinishLeavesProtocol();
    hide Finish, Reduce, Safe, RunsIn, TicketFits;
  }

  // ---- which wallet a prompt is for

  /** The wallet rendered after the events, and the one that the effect noted last. */
  function Rendered(wallet: Option<string>, run: seq<Event>): Option<string>
    decreases |run|
  {
    if run == [] then wallet else Rendered(if run[0].Connect? then run[0].wallet else wallet, run[1..])
  }

  function Noted(wallet: Option<string>, ref: Option<string>, run: seq<Event>): Option<string>
    decreases |run|
  {
    if run == [] then ref
    else Noted(if run[0].Connect? then run[0].wallet else wallet, if run[0].Flush? then wallet else ref, run[1..])
  }

  lemma StepMovesWallets(p: Page, e: Event, attributable: Kind -> bool)
    requires Possible(p, e)
    ensures Step(p, e, attributable).wallet == if e.Connect? then e.wallet else p.wallet
    ensures Step(p, e, attributable).ref == if e.Flush? then p.wallet else p.ref
  {
    FinishLeavesProtocol();
    hide Reduce, Finish;
    if e.Answer? {
      SettlingMovesNoWallet(p, e.run, p.runs[e.run], if e.reply.Settled? then e.reply.phase else Failed, attributable);
      hide AfterSettling;
    }
  }

  lemma SettlingMovesNoWallet(p: Page, run: nat, c: Claim, phase: Phase, attributable: Kind -> bool)
    ensures var q := AfterSettling(p, run, c, phase, attributable); q.wallet == p.wallet && q.ref == p.ref
  {
    FinishLeavesProtocol();
    hide Reduce, Finish;
  }

  lemma {:induction false} WalletsFollow(p: Page, run: seq<Event>, attributable: Kind -> bool)
    requires PossibleRun(p, run, attributable)
    ensures PageAfter(p, run, attributable).wallet == Rendered(p.wallet, run)
    ensures PageAfter(p, run, attributable).ref == Noted(p.wallet, p.ref, run)
    decreases |run|
  {
    if run != [] {
      StepMovesWallets(p, run[0], attributable);
      hide Step, Possible;
      WalletsFollow(Step(p, run[0], attributable), run[1..], attributable);
    }
  }

  /** With no switch since the last effect, the two are the same. */
  lemma {:induction false} NotedIsRendered(wallet: Option<string>, ref: Option<string>,
                                           before: seq<Event>, after: seq<Event>)
    requires forall e :: e in after ==> !e.Connect?
    ensures Noted(wallet, ref, before + [Flush] + after) == Rendered(wallet, before + [Flush] + after)
    decreases |before|
  {
    var all := before + [Flush] + after;
    if before == [] {
      assert all[1..] == after;
      NothingMoves(wallet, after);
    } else {
      assert all[1..] == before[1..] + [Flush] + after;
      var noted := if all[0].Flush? then wallet else ref;
      NotedIsRendered(if all[0].Connect? then all[0].wallet else wallet, noted, before[1..], after);
    }
  }

  lemma {:induction false} NothingMoves(wallet: Option<string>, run: seq<Event>)
    requires forall e :: e in run ==> !e.Connect?
    ensures Noted(wallet, wallet, run) == wallet == Rendered(wallet, run)
  {
    if run != [] {
      NothingMoves(wallet, run[1..]);
    }
  }

  /** Only a step that passes the checks logs a prompt, with the two wallets of its moment. */
  lemma PromptIsOfTheMoment(p: Page, e: Event, attributable: Kind -> bool, entry: Entry)
    requires Possible(p, e) && entry.Prompt? && Has(Step(p, e, attributable).trace, entry) && !Has(p.trace, entry)
    ensures e == Answer(entry.run, Passes) && entry.latest == p.ref && entry.rendered == p.wallet
  {
    hide Reduce;
    FinishLeavesProtocol();
    hide Finish;
  }

  /** The prompt was logged when the wallets were those that some first part of the run leaves. */
  ghost predicate PromptedAfter(entry: Entry, wallet: Option<string>, ref: Option<string>, run: seq<Event>, n: nat) {
    && n < |run| && entry.Prompt? && run[n] == Answer(entry.run, Passes)
    && entry.latest == Noted(wallet, ref, run[..n]) && entry.rendered == Rendered(wallet, run[..n])
  }

  lemma {:induction false} PromptHasItsMoment(p: Page, run: seq<Event>, attributable: Kind -> bool, entry: Entry)
    requires PossibleRun(p, run, attributable) && entry.Prompt?
    requires Has(PageAfter(p, run, attributable).trace, entry) && !Has(p.trace, entry)
    ensures exists n: nat :: PromptedAfter(entry, p.wallet, p.ref, run, n)
    decreases |run|
  {
    if run != [] {
      var next := Step(p, run[0], attributable);
      StepMovesWallets(p, run[0], attributable);
      hide Step, Possible;
      if Has(next.trace, entry) {
        PromptIsOfTheMoment(p, run[0], attributable, entry);
        assert PromptedAfter(entry, p.wallet, p.ref, run, 0);
      } else {
        PromptHasItsMoment(next, run[1..], attributable, entry);
        var n: nat :| PromptedAfter(entry, next.wallet, next.ref, run[1..], n);
        assert run[..n + 1][1..] == run[1..][..n] && run[..n + 1][0] == run[0];
        assert PromptedAfter(entry, p.wallet, p.ref, run, n + 1);
      }
    }
  }

  lemma {:induction false} SafePromptIsOwn(t: Trace, attributable: Kind -> bool, entry: Entry)
    requires Safe(t, attributable) && Has(t, entry) && entry.Prompt?
    ensures entry.latest == Some(entry.owner)
  {
    if t.entry != entry {
      SafePromptIsOwn(t.before, attributable, entry);
    }
  }

  /** Over every run: a prompt is for the rendered wallet exactly when, at that moment, the last
      effect had noted the wallet then rendered. */
  lemma PromptIsForRenderedIff(wallet: Option<string>, run: seq<Event>, attributable: Kind -> bool, entry: Entry)
    requires PossibleRun(Opened(wallet), run, attributable) && entry.Prompt?
    requires Has(PageAfter(Opened(wallet), run, attributable).trace, entry)
    ensures exists n: nat ::
              && PromptedAfter(entry, wallet, wallet, run, n)
              && (entry.rendered == Some(entry.owner)
                  <==> Noted(wallet, wallet, run[..n]) == Rendered(wallet, run[..n]))
  {
    var p := PageAfter(Opened(wallet), run, attributable);
    RunsKeepInvariant(Opened(wallet), run, attributable);
    hide Safe, TicketFits, RunsFit, PageAfter, PossibleRun, RunsIn;
    SafePromptIsOwn(p.trace, attributable, entry);
    PromptHasItsMoment(Opened(wallet), run, attributable, entry);
    var n: nat :| PromptedAfter(entry, wallet, wallet, run, n);
  }

  lemma LastEvent(p: Page, e: Event, attributable: Kind -> bool)
    requires Possible(p, e)
    ensures PossibleRun(p, [e], attributable) && PageAfter(p, [e], attributable) == Step(p, e, attributable)
  {
    assert [e][1..] == [];
  }

  /** Between a switch and its effect the wallet of the run before is still asked. */
  lemma PromptAfterSwitch(a: string, b: string, attributable: Kind -> bool)
    ensures var run := [Click(true), Connect(Some(b)), Answer(0, Passes)];
            && PossibleRun(Opened(Some(a)), run, attributable)
            && PageAfter(Opened(Some(a)), run, attributable).trace == Then(Begin, Prompt(0, a, Some(a), Some(b)))
            && PageAfter(Opened(Some(a)), run, attributable).wallet == Some(b)
  {
    var run := [Click(true), Connect(Some(b)), Answer(0, Passes)];
    var p0 := Opened(Some(a));
    var p1 := Step(p0, run[0], attributable);
    var p2 := Step(p1, run[1], attributable);
    assert p1.runs == map[0 := Claim(a, Win, Checking, "")] && p1.ref == Some(a) && p2.runs == p1.runs;
    assert Possible(p2, run[2]);
    var p3 := Step(p2, run[2], attributable);
    hide Step, Possible;
    assert run[1..] == [run[1], run[2]] && run[1..][1..] == [run[2]] && run[1..][1..][1..] == [];
    LastEvent(p2, run[2], attributable);
    assert PossibleRun(p1, [run[1], run[2]], attributable);
    assert PageAfter(p1, [run[1], run[2]], attributable) == p3;
  }

  /** Over every interleaving: a run asked the wallet once at most, and only while `walletRef`
      named its own; only confirmed signatures were reported; and each result the page shows is blank or was
      written in the name of the wallet now rendered, connected without a break since. */
  lemma EveryRunIsSafe(wallet: Option<string>, run: seq<Event>, attributable: Kind -> bool, f: Field)
    requires PossibleRun(Opened(wallet), run, attributable)
    ensures var p := PageAfter(Opened(wallet), run, attributable);
            && Safe(p.trace, attributable)
            && p.ticket.owner == p.wallet
            && VisibleTicket(p.ticket, p.wallet) == p.ticket
            && (Blank(p.ticket, f) || exists i: nat :: Wrote(p.history, i, p.ticket, f))
            && (p.wallet == None ==> Blank(p.ticket, f))
  {
    RunsKeepInvariant(Opened(wallet), run, attributable);
    var p := PageAfter(Opened(wallet), run, attributable);
    hide Safe, After, Blank, RunsFit, RunsIn, PageAfter, Writes;
    assert TicketFits(p);
    Provenance(p.first, p.history, f);
    if p.wallet == None {
      DisconnectedIsBlank(p.first, p.history, f);
    }
  }
}
