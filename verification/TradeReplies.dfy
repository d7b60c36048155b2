/** What the trade ticket shows and what its log holds, told by what its runs heard and waited for
    alone, in order: the answers of Panta, the wallet, the chain and the ledger. */
module TradeReplies {
  import opened Wrappers
  import opened Logs
  import opened TradeState
  import opened TradeTicket

  /** A run gets an answer; it stores a build, made of the answer, as number `no`; it goes on to
      wait; the ledger lists the trade. */
  datatype Word =
    | Heard(run: Run, reply: Reply, at: int)
    | Built(no: nat, run: Run, reply: Reply, at: int)
    | Waits(run: Run)
    | Listed

  /** Newest first. */
  type Story = Logs.Log<Word>

  function WithWait(t: Story, next: System): Story {
    if next.run.Some? then Then(t, Waits(next.run.value)) else t
  }

  /** What an event adds: an observer sees the run that is answered, whether a build was stored,
      and the run that waits now. */
  function Observe(t: Story, s: System, e: Event, next: System): Story {
    match e
    case LedgerListed => Then(t, Listed)
    case Click(_, _) => WithWait(t, next)
    case Answer(reply, at) =>
      if s.run.None? then t
      else
        var heard := Then(t, Heard(s.run.value, reply, at));
        WithWait(if next.builds > s.builds then Then(heard, Built(s.builds, s.run.value, reply, at)) else heard, next)
    case _ => t
  }

  // ---- what the words say

  /** The part of the view that is about the order. */
  datatype Order = Order(
    quote: Option<Quote>, quoteWallet: Option<string>, receivedAt: int,
    build: Option<Build>, binding: Option<BuildBinding>, check: Option<bool>, signature: Option<string>,
    tx: TxPhase, verify: VerifyPhase, attr: AttrPhase)

  const NO_ORDER := Order(None, None, 0, None, None, None, None, Unsent, Unverified, Unreported)

  function OrderOf(v: View): Order {
    Order(v.quote, v.quoteWallet, v.receivedAt, v.build, v.binding, v.check, v.signature, v.tx, v.verify, v.attr)
  }

  function AfterHearing(o: Order, r: Run, reply: Reply, at: int): Order {
    match reply
    case GotQuote(q) => NO_ORDER.(quote := Some(q), quoteWallet := r.seen.inputs.wallet, receivedAt := at)
    case Net(ok, checkOk) => if r.await == SignNet && ok then o.(check := Some(checkOk)) else o
    case Sent(sig) => o.(signature := Some(sig), tx := Confirming)
    case Settled(tx) => o.(tx := tx)
    case Verdict(phase) => o.(verify := phase)
    case Filed(attr) => o.(attr := attr)
    case Threw(_) => if r.await == Polls then o.(verify := Refused) else o
    case _ => o
  }

  /** A build is bound to the wallet and the slippage it was asked for with, and to the wallet that
      Panta says it is for. */
  function AfterBuilding(o: Order, no: nat, r: Run, reply: Reply): Order {
    if reply.GotBuild? then
      NO_ORDER.(quote := o.quote, quoteWallet := o.quoteWallet, receivedAt := o.receivedAt,
                build := Some(Build(no, reply.signable, reply.hasOrder)),
                binding := Some(BuildBinding(r.seen.inputs.wallet.GetOr(""), r.seen.inputs.slippage.GetOr(0),
                                             reply.wallet)),
                check := Some(reply.checkOk))
    else o
  }

  function WhileWaiting(o: Order, r: Run): Order {
    match r.await
    case Checking => o.(tx := Confirming)
    case Polls => o.(verify := Polling)
    case Filing => o.(attr := Reporting)
    case _ => o
  }

  /** The order as the words leave it. */
  function OrderTold(t: Story): Order {
    match t
    case Begin => NO_ORDER
    case Then(before, Heard(r, reply, at)) => AfterHearing(OrderTold(before), r, reply, at)
    case Then(before, Built(no, r, reply, _)) => AfterBuilding(OrderTold(before), no, r, reply)
    case Then(before, Waits(r)) => WhileWaiting(OrderTold(before), r)
    case Then(before, Listed) => OrderTold(before).(attr := Attributed)
  }

  /** What the words put on record. */
  function Record(t: Story): TradeTicket.Log {
    match t
    case Begin => Begin
    case Then(before, Heard(r, reply, at)) => RecordHeard(Record(before), r, reply, at)
    case Then(before, Built(no, r, _, at)) => Then(Record(before), Stored(no, r.seen, r.guardedAt, at))
    case Then(before, Waits(r)) => RecordWait(Record(before), r)
    case Then(before, Listed) => Record(before)
  }

  function RecordHeard(log: TradeTicket.Log, r: Run, reply: Reply, at: int): TradeTicket.Log {
    match reply
    case GotQuote(q) => Then(log, Quoted(q, r.seen.inputs.wallet.GetOr(""), at))
    case Sent(sig) => if r.seen.build.Some? then Then(log, Recorded(r.seen.build.value.no, sig)) else log
    case Settled(tx) => if tx == Confirmed then Then(log, Observed(r.sig.GetOr(""))) else log
    case _ => log
  }

  function RecordWait(log: TradeTicket.Log, r: Run): TradeTicket.Log {
    match r.await
    case ForWallet =>
      if r.seen.build.Some? then Then(log, WalletAsked(r.seen.build.value.no, r.seen, r.guardedAt)) else log
    case Submitting => Then(log, Submitted(r.sig.GetOr("")))
    case _ => log
  }

  /** Every answer was heard by a run of the build that was current then. */
  predicate Current(t: Story) {
    t.Then? ==>
      && Current(t.before)
      && (t.entry.Heard? ==> t.entry.run.seen.build == OrderTold(t.before).build)
  }

  // ---- the ticket follows them

  /** A run works on the current build, and from its signature on with the signature shown. */
  predicate RunIsCurrent(v: View, r: Run) {
    && r.seen.build == v.build
    && (r.await !in {ForQuote, BuildNet, ForBuild} ==> r.sig == v.signature)
  }

  predicate Follows(s: System, t: Story) {
    && OrderOf(s.view) == OrderTold(t) && s.log == Record(t) && Current(t)
    && (s.run.Some? ==> RunIsCurrent(s.view, s.run.value))
    && (s.view.failure.Some? ==> s.view.failure.value in FAILURES)
  }

  /** A handler that starts or goes on from the order `o`, with `log` on record: it waits, or it
      has ended. */
  predicate GoesOn(o: Order, log: TradeTicket.Log, t: System, seen: View, sig: Option<string>) {
    && OrderOf(t.view) == (if t.run.Some? then WhileWaiting(o, t.run.value) else o)
    && t.log == (if t.run.Some? then RecordWait(log, t.run.value) else log)
    && (t.run.Some? ==>
          && t.run.value.seen == seen
          && (t.run.value.await !in {ForQuote, BuildNet, ForBuild} ==> t.run.value.sig == sig))
    && (t.view.failure.Some? ==> t.view.failure.value in FAILURES)
  }

  lemma ThrowGoesOn(s: System, e: Error, presign: bool, seen: View, sig: Option<string>)
    ensures GoesOn(OrderOf(s.view), s.log, Throw(s, e, presign), seen, sig)
  {
    ClassifyIsFailure(s.view.stage, e, presign);
    hide Classify, FAILURES;
  }

  lemma RefuseGoesOn(s: System, reason: Reason, at: int, seen: View, sig: Option<string>)
    ensures GoesOn(OrderOf(s.view), s.log, Refuse(s, reason, at), seen, sig)
  {
    var t := s.(view := s.view.(shown := at));
    ThrowGoesOn(t, PLAIN, true, seen, sig);
    hide Throw;
  }

  lemma StartQuoteGoesOn(s: System, seen: View)
    requires s.view.failure.None?
    ensures GoesOn(OrderOf(s.view), s.log, StartQuote(s, seen), seen, seen.signature)
  {
    var t := At(s.(view := s.view.(reviewOpen := false)), Quoting);
    ThrowGoesOn(t, PLAIN, false, seen, seen.signature);
    hide Throw;
  }

  lemma StartBuildGoesOn(s: System, kind: Kind, seen: View)
    requires s.view.failure.None?
    ensures GoesOn(OrderOf(s.view), s.log, StartBuild(s, kind, seen), seen, seen.signature)
  {
    var t := At(s, Building);
    ThrowGoesOn(t, PLAIN, false, seen, seen.signature);
    var g := GuardAt(seen, s.clock, None);
    if g.Stale? {
      RefuseGoesOn(t, g.reason, s.clock, seen, seen.signature);
    }
    hide Throw, Refuse, GuardAt;
  }

  lemma StartSignGoesOn(s: System, kind: Kind, seen: View)
    requires s.view.failure.None?
    requires seen.signature.None?
    ensures GoesOn(OrderOf(s.view), s.log, StartSign(s, kind, seen), seen, seen.signature)
  {
    var t := At(s, Sign);
    ThrowGoesOn(t, PLAIN, false, seen, seen.signature);
    ThrowGoesOn(t, PLAIN, true, seen, seen.signature);
    var g := GuardAt(seen, s.clock, seen.binding);
    if g.Stale? {
      RefuseGoesOn(t, g.reason, s.clock, seen, seen.signature);
    }
    hide Throw, Refuse, GuardAt;
  }

  lemma StartApproveGoesOn(s: System, seen: View)
    requires s.view.failure.None?
    requires seen.signature.None?
    ensures GoesOn(OrderOf(s.view), s.log, StartApprove(s, seen), seen, seen.signature)
  {
    var t := At(s, Sign);
    ThrowGoesOn(t, PLAIN, true, seen, seen.signature);
    var g := GuardAt(seen, s.clock, seen.binding);
    if g.Stale? {
      RefuseGoesOn(t, g.reason, s.clock, seen, seen.signature);
    }
    StartSignGoesOn(t.(view := t.view.(reviewOpen := false)), ApproveAll, seen);
    hide Throw, Refuse, GuardAt, StartSign;
  }

  lemma StartCheckGoesOn(s: System, kind: Kind, seen: View)
    requires s.view.failure.None?
    ensures GoesOn(OrderOf(s.view), s.log, StartCheck(s, kind, seen), seen, seen.signature)
  {
    ThrowGoesOn(s, PLAIN, false, seen, seen.signature);
    hide Throw;
  }

  lemma StartSubmitGoesOn(s: System, kind: Kind, seen: View, sig: Option<string>, confirmed: bool)
    requires s.view.failure.None?
    ensures GoesOn(OrderOf(s.view), s.log, StartSubmit(s, kind, seen, sig, confirmed), seen, sig)
  {
    ThrowGoesOn(At(s, Submit), PLAIN, false, seen, sig);
    hide Throw;
  }

  lemma StartVerifyGoesOn(s: System, kind: Kind, seen: View, sig: Option<string>)
    requires s.view.failure.None?
    ensures GoesOn(OrderOf(s.view), s.log, StartVerify(s, kind, seen, sig), seen, sig)
  {
    ThrowGoesOn(At(s, Verify), PLAIN, false, seen, sig);
    hide Throw;
  }

  lemma StartReportGoesOn(s: System, kind: Kind, seen: View, sig: Option<string>)
    requires s.view.failure.None?
    ensures GoesOn(OrderOf(s.view), s.log, StartReport(s, kind, seen, sig), seen, sig)
  {
    ThrowGoesOn(At(s, Attribute), PLAIN, false, seen, sig);
    hide Throw;
  }

  lemma StartRetryGoesOn(s: System, seen: View)
    requires s.view.failure.None?
    ensures GoesOn(OrderOf(s.view), s.log, StartRetry(s, seen), seen, seen.signature)
  {
    ThrowGoesOn(s, PLAIN, false, seen, seen.signature);
    hide Throw;
  }

  lemma StartGoesOn(s: System, kind: Kind, seen: View)
    requires s.view.failure.None?
    requires kind in {ApproveAll, SignOnly} ==> seen.signature.None?
    ensures GoesOn(OrderOf(s.view), s.log, Start(s, kind, seen), seen, seen.signature)
  {
    hide GoesOn, StartQuote, StartBuild, StartSign, StartApprove, StartCheck, StartSubmit, StartVerify, SendReport,
         StartReport, StartRetry;
    match kind
    case AskForQuote => StartQuoteGoesOn(s, seen);
    case BuildAndReview => StartBuildGoesOn(s, kind, seen);
    case BuildOnly => StartBuildGoesOn(s, kind, seen);
    case ApproveAll => StartApproveGoesOn(s, seen);
    case SignOnly => StartSignGoesOn(s, kind, seen);
    case CheckOnly => StartCheckGoesOn(s, kind, seen);
    case SubmitOnly => StartSubmitGoesOn(s, kind, seen, seen.signature, false);
    case VerifyOnly => StartVerifyGoesOn(s, kind, seen, seen.signature);
    case ReportOnly => StartReportGoesOn(s, kind, seen, seen.signature);
    case FinishAll =>
      StartCheckGoesOn(s, kind, seen);
      StartSubmitGoesOn(s, kind, seen, seen.signature, true);
    case Recheck => StartVerifyGoesOn(s, kind, seen, seen.signature);
    case RetryReport => StartRetryGoesOn(s, seen);
  }

  /** A handler that goes on from what the words say leaves a state that follows them. */
  lemma GoesOnFollows(t: Story, next: System, seen: View)
    requires GoesOn(OrderTold(t), Record(t), next, seen, OrderTold(t).signature) && Current(t)
    requires next.run.Some? ==> seen.build == OrderTold(t).build
    ensures Follows(next, WithWait(t, next))
  {
    hide FAILURES;
  }

  lemma ClickFollows(s: System, t: Story, e: Event)
    requires Invariant(s) && Follows(s, t) && Possible(s, e) && e.Click?
    ensures Follows(Step(s, e), Observe(t, s, e, Step(s, e)))
  {
    if e.kind in {ApproveAll, SignOnly} {
      SigningNeedsNoSignature(s.view, e.kind);
    }
    hide Enabled, Settles, RunFits, Start, FAILURES;
    if e.kind == ApproveAll && (s.view.build.None? || s.view.quote.None?) {
      assert s.run.None?;
    } else {
      StartGoesOn(Begun(s, e.at), e.kind, s.view);
      hide GoesOn;
      GoesOnFollows(t, Step(s, e), s.view);
    }
  }

  // ---- an answer

  /** An answer is heard, and the run goes on. */
  predicate Answered(s: System, t: System, r: Run, reply: Reply) {
    var o := AfterHearing(OrderOf(s.view), r, reply, s.clock);
    && GoesOn(o, RecordHeard(s.log, r, reply, s.clock), t, r.seen, o.signature) && t.builds == s.builds
    && (reply.GotQuote? ==> t.run.None?)
  }

  lemma SettlingAnswered(s: System, r: Run, reply: Reply)
    requires s.view.failure.None? && RunIsCurrent(s.view, r) && r.await in {Settling, Checking}
    requires Fits(r, reply) && !reply.Threw?
    ensures Answered(s, Resume(s, r, reply), r, reply)
  {
    var t := s.(view := s.view.(tx := reply.tx));
    ThrowGoesOn(t, PLAIN, false, r.seen, r.sig);
    var u := Note(t, Observed(r.sig.value));
    StartSubmitGoesOn(u, r.kind, r.seen, r.sig, true);
    hide Throw, StartSubmit, FAILURES;
  }

  lemma VerdictAnswered(s: System, r: Run, reply: Reply)
    requires s.view.failure.None? && RunIsCurrent(s.view, r) && r.await == Polls && reply.Verdict?
    ensures Answered(s, AfterVerdict(s, r, reply.phase), r, reply)
  {
    var t := s.(view := s.view.(verify := reply.phase));
    ThrowGoesOn(t, PLAIN, false, r.seen, r.sig);
    StartReportGoesOn(t, r.kind, r.seen, r.sig);
    hide Throw, StartReport, FAILURES;
  }

  lemma SubmittedAnswered(s: System, r: Run, reply: Reply)
    requires s.view.failure.None? && RunIsCurrent(s.view, r) && r.await == Submitting && reply.Accepted?
    ensures Answered(s, Resume(s, r, reply), r, reply)
  {
    StartVerifyGoesOn(s, r.kind, r.seen, r.sig);
    hide Throw, StartVerify, FAILURES;
  }

  lemma SigningAnswered(s: System, r: Run, reply: Reply)
    requires s.view.failure.None? && RunIsCurrent(s.view, r)
    requires Fits(r, reply) && !reply.Threw? && r.await in {BuildNet, SignNet, Preflight, ForWallet, Sending}
    ensures Answered(s, Resume(s, r, reply), r, reply)
  {
    ThrowGoesOn(s, PLAIN, true, r.seen, r.sig);
    if r.await == SignNet {
      ThrowGoesOn(s.(view := s.view.(check := Some(reply.checkOk))), PLAIN, true, r.seen, r.sig);
    }
    hide Throw, FAILURES;
  }

  lemma ThrewAnswered(s: System, r: Run, reply: Reply)
    requires reply.Threw?
    ensures Answered(s, Resume(s, r, reply), r, reply)
  {
    ThrowGoesOn(s, reply.error, false, r.seen, r.sig);
    ThrowGoesOn(s.(view := s.view.(verify := Refused)), reply.error, false, r.seen, r.sig);
    hide FAILURES, Classify;
  }

  lemma EndAnswered(s: System, r: Run, reply: Reply)
    requires s.view.failure.None? && Fits(r, reply) && !reply.Threw? && r.await in {ForQuote, Filing}
    ensures Answered(s, Resume(s, r, reply), r, reply)
  {
    hide FAILURES;
  }

  /** The build is stored, and the run ends. */
  predicate HasBuilt(s: System, t: System, r: Run, reply: Reply) {
    && t.run.None? && t.builds == s.builds + 1
    && OrderOf(t.view) == AfterBuilding(OrderOf(s.view), s.builds, r, reply)
    && t.log == Then(s.log, Stored(s.builds, r.seen, r.guardedAt, s.clock))
    && (t.view.failure.Some? ==> t.view.failure.value in FAILURES)
  }

  /** A build that is refused leaves the order as it was. */
  lemma BuildAnswered(s: System, r: Run, reply: Reply)
    requires s.view.failure.None? && Fits(r, reply) && reply.GotBuild? && r.await == ForBuild
    ensures var t := AfterBuild(s, r, reply);
            if GuardAt(r.seen, s.clock, None).Pass? then HasBuilt(s, t, r, reply) else Answered(s, t, r, reply)
  {
    var g := GuardAt(r.seen, s.clock, None);
    hide GuardAt, FAILURES, Classify;
    if g.Stale? {
      RefuseGoesOn(s, g.reason, s.clock, r.seen, s.view.signature);
      hide Store, Refuse;
    } else {
      StoreBuilds(s, r, reply);
      hide Store;
      ClassifyIsFailure(Store(s, r, reply).view.stage, PLAIN, true);
    }
  }

  lemma StoreBuilds(s: System, r: Run, reply: Reply)
    requires reply.GotBuild? && r.seen.inputs.wallet.Some? && r.seen.inputs.slippage.Some?
    ensures var t := Store(s, r, reply);
            && t.builds == s.builds + 1 && t.view.failure == s.view.failure
            && OrderOf(t.view) == AfterBuilding(OrderOf(s.view), s.builds, r, reply)
            && t.log == Then(s.log, Stored(s.builds, r.seen, r.guardedAt, s.clock))
  {
  }

  lemma ResumeAnswered(s: System, r: Run, reply: Reply)
    requires s.view.failure.None? && RunIsCurrent(s.view, r) && Fits(r, reply)
    requires !(r.await == ForBuild && !reply.Threw?)
    ensures Answered(s, Resume(s, r, reply), r, reply)
  {
    hide Answered, RunIsCurrent, AfterVerdict, Resume;
    if reply.Threw? {
      ThrewAnswered(s, r, reply);
    } else {
      match r.await
      case Settling => SettlingAnswered(s, r, reply);
      case Checking => SettlingAnswered(s, r, reply);
      case Polls => VerdictResumes(s, r, reply);
        VerdictAnswered(s, r, reply);
      case Submitting => SubmittedAnswered(s, r, reply);
      case ForQuote => EndAnswered(s, r, reply);
      case Filing => EndAnswered(s, r, reply);
      case _ => SigningAnswered(s, r, reply);
    }
  }

  lemma VerdictResumes(s: System, r: Run, reply: Reply)
    requires Fits(r, reply) && r.await == Polls && !reply.Threw?
    ensures Resume(s, r, reply) == AfterVerdict(s, r, reply.phase)
  {
  }

  lemma AnswerFollows(s: System, t: Story, e: Event)
    requires Invariant(s) && Follows(s, t) && Possible(s, e) && e.Answer?
    requires !(s.run.value.await == ForBuild && !e.reply.Threw?)
    ensures Follows(Step(s, e), Observe(t, s, e, Step(s, e)))
  {
    var r := s.run.value;
    var heard := Then(t, Heard(r, e.reply, e.at));
    ResumeAnswered(s.(clock := e.at), r, e.reply);
    HeardFollows(s, t, r, e.reply, e.at);
    hide Resume, Settles, RunFits, FAILURES, GoesOn, OrderTold, Record, Current;
    GoesOnFollows(heard, Step(s, e), r.seen);
  }

  lemma HeardFollows(s: System, t: Story, r: Run, reply: Reply, at: int)
    requires Follows(s, t) && s.run == Some(r)
    ensures var heard := Then(t, Heard(r, reply, at));
            && OrderTold(heard) == AfterHearing(OrderOf(s.view), r, reply, at)
            && Record(heard) == RecordHeard(s.log, r, reply, at) && Current(heard)
            && (!reply.GotQuote? ==> OrderTold(heard).build == r.seen.build)
  {
  }

  lemma BuildFollows(s: System, t: Story, e: Event)
    requires Invariant(s) && Follows(s, t) && Possible(s, e) && e.Answer?
    requires s.run.value.await == ForBuild && !e.reply.Threw?
    ensures Follows(Step(s, e), Observe(t, s, e, Step(s, e)))
  {
    var u, r := s.(clock := e.at), s.run.value;
    var heard := Then(t, Heard(r, e.reply, e.at));
    HeardFollows(s, t, r, e.reply, e.at);
    BuildAnswered(u, r, e.reply);
    assert Step(s, e) == AfterBuild(u, r, e.reply) by {
      hide AfterBuild, Settles, RunFits;
    }
    hide AfterBuild, Resume, Settles, RunFits, FAILURES, Step, GoesOn, Current;
    if GuardAt(r.seen, e.at, None).Stale? {
      GoesOnFollows(heard, Step(s, e), r.seen);
    } else {
      BuiltFollows(heard, Step(s, e), Built(s.builds, r, e.reply, e.at));
    }
  }

  lemma BuiltFollows(t: Story, next: System, built: Word)
    requires built.Built? && Current(t) && next.run.None?
    requires OrderOf(next.view) == AfterBuilding(OrderTold(t), built.no, built.run, built.reply)
    requires next.log == Then(Record(t), Stored(built.no, built.run.seen, built.run.guardedAt, built.at))
    requires next.view.failure.Some? ==> next.view.failure.value in FAILURES
    ensures Follows(next, Then(t, built))
  {
    hide FAILURES;
  }

  lemma StepFollows(s: System, t: Story, e: Event)
    requires Invariant(s) && Follows(s, t) && Possible(s, e)
    ensures Follows(Step(s, e), Observe(t, s, e, Step(s, e)))
  {
    hide Invariant, Enabled, PanelShown, FAILURES;
    match e
    case Click(_, _) => ClickFollows(s, t, e);
    case Answer(reply, _) =>
      if s.run.value.await == ForBuild && !reply.Threw? {
        BuildFollows(s, t, e);
      } else {
        AnswerFollows(s, t, e);
      }
    case LedgerListed =>
    case _ =>
  }

  /** The words of a whole run. */
  ghost function StoryOf(s: System, t: Story, run: seq<Event>): Story
    requires PossibleRun(s, run)
    decreases |run|
  {
    if run == [] then t else StoryOf(Step(s, run[0]), Observe(t, s, run[0], Step(s, run[0])), run[1..])
  }

  lemma {:induction false} RunsFollow(s: System, t: Story, run: seq<Event>)
    requires Invariant(s) && Follows(s, t) && PossibleRun(s, run)
    ensures Invariant(After(s, run)) && Follows(After(s, run), StoryOf(s, t, run))
    decreases |run|
  {
    if run != [] {
      StepKeepsInvariant(s, run[0]);
      StepFollows(s, t, run[0]);
      hide Invariant, Follows, Step, Possible, Observe;
      RunsFollow(Step(s, run[0]), Observe(t, s, run[0], Step(s, run[0])), run[1..]);
    }
  }

  // ---- what is shown was heard

  /** A run of the given build heard the reply. */
  ghost predicate HeardOf(t: Story, build: Option<Build>, reply: Reply) {
    exists w: Word :: Has(t, w) && w.Heard? && w.run.seen.build == build && w.reply == reply
  }

  /** A run that polled for the given build's verification met an error. */
  ghost predicate PollThrew(t: Story, build: Option<Build>) {
    exists w: Word :: Has(t, w) && w.Heard? && w.run.seen.build == build && w.run.await == Polls && w.reply.Threw?
  }

  /** Every outcome in the order was heard for its build. */
  ghost predicate WasHeard(o: Order, t: Story) {
    && (o.verify in {Verified, TimedOut} ==> HeardOf(t, o.build, Verdict(o.verify)))
    && (o.verify == Refused ==> HeardOf(t, o.build, Verdict(Refused)) || PollThrew(t, o.build))
    && (o.tx in {Confirmed, Pending, Failed, Lapsed} ==> HeardOf(t, o.build, Settled(o.tx)))
    && (o.signature.Some? ==> HeardOf(t, o.build, Sent(o.signature.value)))
    && (o.attr in {Reported, NeedsAttention} ==> HeardOf(t, o.build, Filed(o.attr)))
    && (o.attr == Attributed ==> HeardOf(t, o.build, Filed(Attributed)) || Has(t, Listed))
  }

  lemma HeardOnce(t: Story, w: Word)
    ensures forall build, reply :: HeardOf(t, build, reply) ==> HeardOf(Then(t, w), build, reply)
    ensures forall build :: PollThrew(t, build) ==> PollThrew(Then(t, w), build)
    ensures w.Heard? ==> HeardOf(Then(t, w), w.run.seen.build, w.reply)
    ensures w.Heard? && w.run.await == Polls && w.reply.Threw? ==> PollThrew(Then(t, w), w.run.seen.build)
  {
    var u := Then(t, w);
    assert Has(u, w);
    forall build, reply | HeardOf(t, build, reply) ensures HeardOf(u, build, reply) {
      var x: Word :| Has(t, x) && x.Heard? && x.run.seen.build == build && x.reply == reply;
      assert Has(u, x);
    }
    forall build | PollThrew(t, build) ensures PollThrew(u, build) {
      var x: Word :|
        Has(t, x) && x.Heard? && x.run.seen.build == build && x.run.await == Polls && x.reply.Threw?;
      assert Has(u, x);
    }
  }

  lemma OneMoreWord(o: Order, t: Story, w: Word)
    requires WasHeard(o, t) && w.Heard? && w.run.seen.build == o.build
    ensures WasHeard(AfterHearing(o, w.run, w.reply, w.at), Then(t, w))
  {
    HeardOnce(t, w);
    hide HeardOf, PollThrew;
  }

  lemma OtherWord(o: Order, p: Order, t: Story, w: Word)
    requires WasHeard(o, t)
    requires || p == NO_ORDER.(quote := p.quote, quoteWallet := p.quoteWallet, receivedAt := p.receivedAt,
                               build := p.build, binding := p.binding, check := p.check)
             || (w == Listed && p == o.(attr := Attributed))
             || p == o.(tx := Confirming) || p == o.(verify := Polling) || p == o.(attr := Reporting) || p == o
    ensures WasHeard(p, Then(t, w))
  {
    HeardOnce(t, w);
    hide HeardOf, PollThrew;
  }

  lemma {:induction false} ToldWasHeard(t: Story)
    requires Current(t)
    ensures WasHeard(OrderTold(t), t)
  {
    if t.Then? {
      ToldWasHeard(t.before);
      hide WasHeard;
      if t.entry.Heard? {
        OneMoreWord(OrderTold(t.before), t.before, t.entry);
      } else {
        OtherWord(OrderTold(t.before), OrderTold(t), t.before, t.entry);
      }
    }
  }

  lemma {:induction false} ObservedWasHeard(t: Story, sig: string)
    requires Has(Record(t), Observed(sig))
    ensures exists w: Word :: Has(t, w) && w.Heard? && w.reply == Settled(Confirmed) && w.run.sig.GetOr("") == sig
  {
    var w := t.entry;
    assert Has(t, w);
    if !(w.Heard? && w.reply == Settled(Confirmed) && w.run.sig.GetOr("") == sig) {
      ObservedWasHeard(t.before, sig);
      var x: Word :| Has(t.before, x) && x.Heard? && x.reply == Settled(Confirmed) && x.run.sig.GetOr("") == sig;
      assert Has(t, x);
    }
  }

  /** What the ticket says of the order rests on what was heard for the build it shows: verified, on
      Panta's verdict; attributed, on that and on the report's answer or the ledger. */
  lemma ShownWasHeard(s: System, t: Story)
    requires Follows(s, t)
    ensures OrderOf(s.view) == OrderTold(t) && s.log == Record(t)
    ensures WasHeard(OrderOf(s.view), t)
    ensures Shown(s.view) in {VerifiedState, AttributedState} ==> HeardOf(t, s.view.build, Verdict(Verified))
    ensures Shown(s.view) == AttributedState ==>
              HeardOf(t, s.view.build, Filed(Attributed)) || Has(t, Listed)
    ensures forall sig :: Has(s.log, Observed(sig)) ==>
              exists w: Word :: Has(t, w) && w.Heard? && w.reply == Settled(Confirmed) && w.run.sig.GetOr("") == sig
  {
    ToldWasHeard(t);
    VerifiedMeansVerified(Facts(s.view));
    hide HeardOf, Derive, QuoteRanOut, QuoteIsStale, BuildIsStale, Current, OrderTold, Record;
    forall sig | Has(s.log, Observed(sig))
      ensures exists w: Word :: Has(t, w) && w.Heard? && w.reply == Settled(Confirmed) && w.run.sig.GetOr("") == sig
    {
      ObservedWasHeard(t, sig);
    }
  }

  lemma ContinuingKeeps(s: System, kind: Kind, seen: View, sig: Option<string>)
    ensures StartSubmit(s, kind, seen, sig, true).view.tx == s.view.tx
    ensures StartReport(s, kind, seen, sig).view.verify == s.view.verify
  {
    ThrowKeeps(At(s, Submit));
    ThrowKeeps(At(s, Attribute));
    hide IsReady, Throw;
  }

  lemma ThrowKeeps(s: System)
    ensures var t := Throw(s, PLAIN, false); t.view.tx == s.view.tx && t.view.verify == s.view.verify
  {
    hide Classify;
  }

  lemma SettlingIsShown(s: System, r: Run, tx: TxPhase)
    requires r.sig.Some?
    ensures AfterSettling(s, r, tx).view.tx == tx
  {
    var t := s.(view := s.view.(tx := tx));
    ThrowKeeps(t);
    ContinuingKeeps(Note(t, Observed(r.sig.value)), r.kind, r.seen, r.sig);
    hide StartSubmit, Throw;
  }

  lemma VerdictIsShown(s: System, r: Run, phase: VerifyPhase)
    ensures AfterVerdict(s, r, phase).view.verify == phase
  {
    var t := s.(view := s.view.(verify := phase));
    ThrowKeeps(t);
    ContinuingKeeps(t, r.kind, r.seen, r.sig);
    hide StartReport, Throw;
  }

  /** One answer, read at once: what was heard is shown. */
  lemma AnswerIsShown(s: System, reply: Reply, at: int)
    requires Possible(s, Answer(reply, at))
    ensures var v := Step(s, Answer(reply, at)).view;
            && (reply.Sent? ==> v.signature == Some(reply.sig) && v.tx == Confirming)
            && (reply.Settled? ==> v.tx == reply.tx && v.signature == s.view.signature)
            && (reply.Verdict? ==> v.verify == reply.phase)
            && (reply.Filed? ==> v.attr == reply.attr)
            && (reply.GotQuote? ==> v.quote == Some(reply.quote) && v.build.None? && v.signature.None?)
  {
    var u, r := s.(clock := at), s.run.value;
    match reply
    case Settled(tx) =>
      SettlingIsShown(u, r, tx);
      hide AfterBuild, AfterSettling, AfterVerdict, StartVerify, Throw;
    case Verdict(phase) =>
      VerdictIsShown(u, r, phase);
      hide AfterBuild, AfterSettling, AfterVerdict, StartVerify, Throw;
    case _ =>
      hide AfterBuild, AfterSettling, AfterVerdict, StartVerify, Throw;
  }

  lemma OpenedFollows(s: System)
    requires Opened(s)
    ensures Invariant(s) && Follows(s, Begin)
  {
  }

  /** Over every run: the order on the ticket and the log are what the words make of them, the last
      word on each field deciding, and every outcome shown was heard for the build shown. */
  lemma EveryTicketIsTold(s: System, run: seq<Event>)
    requires Opened(s) && PossibleRun(s, run)
    ensures var last, t := After(s, run), StoryOf(s, Begin, run);
            && OrderOf(last.view) == OrderTold(t) && last.log == Record(t) && Current(t)
            && WasHeard(OrderOf(last.view), t)
            && (Shown(last.view) in {VerifiedState, AttributedState} ==> HeardOf(t, last.view.build, Verdict(Verified)))
  {
    OpenedFollows(s);
    RunsFollow(s, Begin, run);
    hide Opened, Invariant, PossibleRun, After, StoryOf, WasHeard, HeardOf, Shown;
    ShownWasHeard(After(s, run), StoryOf(s, Begin, run));
  }
}
