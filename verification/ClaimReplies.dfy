/** What the claim ticket shows and what reaches the wallet, the chain and Panta, told by the
    events alone: what was connected, edited, clicked and answered, in order. */
module ClaimReplies {
  import opened Wrappers
  import opened Logs
  import opened ClaimTicket
  import opened ClaimRuns

  /** The result fields of a ticket. */
  datatype Told = Told(
    phase: Phase, sig: Option<string>, attr: Attr, error: Option<string>, msg: Option<string>, busy: bool)

  const NOTHING_TOLD := Told(NotSent, None, NoReport, None, None, false)

  /** How many runs were started. */
  function Clicks(es: seq<Event>): nat {
    if es == [] then 0 else Clicks(es[..|es| - 1]) + if es[|es| - 1].Click? then 1 else 0
  }

  /** Another wallet is rendered, or a position is picked: either empties the form. */
  predicate Empties(first: Option<string>, before: seq<Event>, e: Event) {
    (e.Connect? && e.wallet != Rendered(first, before)) || (e.Edit? && e.action.Fill?)
  }

  /** The kind of claim the form asks for. */
  function ModeShown(first: Option<string>, es: seq<Event>): Kind {
    if es == [] then Win
    else
      var e, before := es[|es| - 1], es[..|es| - 1];
      if e.Edit? && e.action.SetMode? then e.action.mode
      else if Empties(first, before, e) then Win
      else ModeShown(first, before)
  }

  /** The market that the form names. */
  function MarketShown(first: Option<string>, es: seq<Event>): string {
    if es == [] then ""
    else
      var e, before := es[|es| - 1], es[..|es| - 1];
      if e.Edit? && e.action.SetMarket? then e.action.marketId
      else if e.Edit? && e.action.Fill? then e.action.marketId
      else if Empties(first, before, e) then ""
      else MarketShown(first, before)
  }

  /** The wallet that was rendered when a run was started. */
  function OwnerOf(first: Option<string>, es: seq<Event>, run: nat): Option<string> {
    if es == [] then None
    else
      var e, before := es[|es| - 1], es[..|es| - 1];
      if e.Click? && Clicks(before) == run then Rendered(first, before) else OwnerOf(first, before, run)
  }

  /** The kind of claim that was asked for when it was. */
  function ModeOf(first: Option<string>, es: seq<Event>, run: nat): Kind {
    if es == [] then Win
    else
      var e, before := es[|es| - 1], es[..|es| - 1];
      if e.Click? && Clicks(before) == run then ModeShown(first, before) else ModeOf(first, before, run)
  }

  /** What a run was answered last. */
  function LastReply(es: seq<Event>, run: nat): Option<Reply> {
    if es == [] then None
    else
      var e := es[|es| - 1];
      if e.Answer? && e.run == run then Some(e.reply) else LastReply(es[..|es| - 1], run)
  }

  /** The signature the RPC gave it. */
  function SigOf(es: seq<Event>, run: nat): string {
    if es == [] then ""
    else
      var e := es[|es| - 1];
      if e.Answer? && e.run == run && e.reply.Sent? then e.reply.sig else SigOf(es[..|es| - 1], run)
  }

  /** The checks of a run are through, with `walletRef` naming its wallet. */
  predicate MaySign(first: Option<string>, before: seq<Event>, run: nat) {
    LastReply(before, run) == None && Noted(first, first, before) == OwnerOf(first, before, run)
  }

  /** What an answer says to the ticket of the run's own wallet. */
  function Hear(first: Option<string>, before: seq<Event>, run: nat, reply: Reply, t: Told,
                attributable: Kind -> bool): Told {
    var last := LastReply(before, run);
    match reply
    case Passes =>
      if last == None && !MaySign(first, before, run) then t.(error := Some("Signing blocked."), busy := false)
      else if last.Some? && last.value.Filed? then t.(attr := Attributed)
      else t
    case Sent(sig) => t.(sig := Some(sig), phase := Confirming, msg := Some("confirming"))
    case Settled(phase) =>
      if phase != Confirmed then
        t.(phase := phase, msg := Some("broadcast"), error := Some("not confirmed"), busy := false)
      else
        var told := t.(phase := Confirmed, msg := Some("confirmed"));
        if attributable(ModeOf(first, before, run)) then told.(attr := Reporting)
        else told.(attr := NotAttributable, busy := false)
    case Filed(attr) => t.(attr := attr, busy := false)
    case Fails(why) =>
      if last.Some? && last.value.Filed? then t
      else if last.Some? && last.value.Settled? then t.(attr := ReportFailed, busy := false)
      else t.(error := Some(why), busy := false)
  }

  /** What the ticket was told last, for the wallet now rendered and the form now shown. */
  function ToldBy(first: Option<string>, es: seq<Event>, attributable: Kind -> bool): Told {
    if es == [] then NOTHING_TOLD
    else
      var e, before := es[|es| - 1], es[..|es| - 1];
      var t := ToldBy(first, before, attributable);
      if e.Click? then NOTHING_TOLD.(error := if e.ready then None else Some("not ready"), busy := e.ready)
      else if Empties(first, before, e) then NOTHING_TOLD
      else if e.Answer? && OwnerOf(first, before, e.run) == Rendered(first, before) then
        Hear(first, before, e.run, e.reply, t, attributable)
      else t
  }

  /** What an answer makes a run send. */
  function Send(first: Option<string>, before: seq<Event>, run: nat, reply: Reply, t: Trace,
                attributable: Kind -> bool): Trace {
    var owner, mode, sig := OwnerOf(first, before, run).GetOr(""), ModeOf(first, before, run), SigOf(before, run);
    if reply.Passes? && MaySign(first, before, run) then
      Then(t, Prompt(run, owner, Noted(first, first, before), Rendered(first, before)))
    else if reply == Settled(Confirmed) then
      var landed := Then(t, Landed(run, sig));
      if attributable(mode) then Then(landed, Report(run, owner, mode, sig)) else landed
    else t
  }

  function TraceOf(first: Option<string>, es: seq<Event>, attributable: Kind -> bool): Trace {
    if es == [] then Begin
    else
      var e, before := es[|es| - 1], es[..|es| - 1];
      var t := TraceOf(first, before, attributable);
      if e.Answer? then Send(first, before, e.run, e.reply, t, attributable) else t
  }

  // ---- the page follows them

  function Shows(t: Ticket): Told {
    Told(t.phase, t.sig, t.attr, t.error, t.msg, t.busy)
  }

  ghost predicate RunFollows(c: Claim, first: Option<string>, es: seq<Event>, run: nat) {
    var last := LastReply(es, run);
    && OwnerOf(first, es, run) == Some(c.owner) && ModeOf(first, es, run) == c.mode
    && match c.await
       case Checking => last == None
       case Signing => last == Some(Passes)
       case Sending => last == Some(Passes)
       case Waiting => last == Some(Sent(c.sig)) && SigOf(es, run) == c.sig
       case Filing => last == Some(Settled(Confirmed))
       case Listing => last.Some? && last.value.Filed?
  }

  ghost predicate FormFollows(p: Page, first: Option<string>, es: seq<Event>) {
    && p.wallet == p.ticket.owner == Rendered(first, es) && p.ref == Noted(first, first, es)
    && p.next == Clicks(es) && p.ticket.mode == ModeShown(first, es)
    && p.ticket.marketId == MarketShown(first, es)
  }

  ghost predicate RunsFollow(p: Page, first: Option<string>, es: seq<Event>) {
    && (forall run :: run in p.runs ==> run < Clicks(es) && RunFollows(p.runs[run], first, es, run))
    && (forall run :: run >= Clicks(es) ==> LastReply(es, run) == None)
  }

  ghost predicate Follows(p: Page, first: Option<string>, es: seq<Event>, attributable: Kind -> bool) {
    && FormFollows(p, first, es) && RunsFollow(p, first, es)
    && Shows(p.ticket) == ToldBy(first, es, attributable) && p.trace == TraceOf(first, es, attributable)
  }

  lemma {:induction false} WalletsSnoc(wallet: Option<string>, ref: Option<string>, es: seq<Event>, e: Event)
    ensures Rendered(wallet, es + [e]) == if e.Connect? then e.wallet else Rendered(wallet, es)
    ensures Noted(wallet, ref, es + [e]) == if e.Flush? then Rendered(wallet, es) else Noted(wallet, ref, es)
    decreases |es|
  {
    if es == [] {
      assert (es + [e])[1..] == [];
    } else {
      assert (es + [e])[1..] == es[1..] + [e];
      WalletsSnoc(if es[0].Connect? then es[0].wallet else wallet, if es[0].Flush? then wallet else ref, es[1..], e);
    }
  }

  lemma FormSnoc(first: Option<string>, es: seq<Event>, e: Event)
    ensures Clicks(es + [e]) == Clicks(es) + if e.Click? then 1 else 0
    ensures ModeShown(first, es + [e])
         == if e.Edit? && e.action.SetMode? then e.action.mode
            else if Empties(first, es, e) then Win
            else ModeShown(first, es)
    ensures MarketShown(first, es + [e])
         == if e.Edit? && e.action.SetMarket? then e.action.marketId
            else if e.Edit? && e.action.Fill? then e.action.marketId
            else if Empties(first, es, e) then ""
            else MarketShown(first, es)
  {
    assert (es + [e])[..|es|] == es;
    hide Empties, Rendered;
  }

  lemma RunSnoc(first: Option<string>, es: seq<Event>, e: Event, run: nat)
    ensures OwnerOf(first, es + [e], run)
         == if e.Click? && Clicks(es) == run then Rendered(first, es) else OwnerOf(first, es, run)
    ensures ModeOf(first, es + [e], run)
         == if e.Click? && Clicks(es) == run then ModeShown(first, es) else ModeOf(first, es, run)
    ensures LastReply(es + [e], run) == if e.Answer? && e.run == run then Some(e.reply) else LastReply(es, run)
    ensures SigOf(es + [e], run)
         == if e.Answer? && e.run == run && e.reply.Sent? then e.reply.sig else SigOf(es, run)
  {
    assert (es + [e])[..|es|] == es;
    hide Clicks, ModeShown, Rendered;
  }

  lemma ToldSnoc(first: Option<string>, es: seq<Event>, e: Event, attributable: Kind -> bool)
    ensures ToldBy(first, es + [e], attributable)
         == if e.Click? then NOTHING_TOLD.(error := if e.ready then None else Some("not ready"), busy := e.ready)
            else if Empties(first, es, e) then NOTHING_TOLD
            else if e.Answer? && OwnerOf(first, es, e.run) == Rendered(first, es) then
              Hear(first, es, e.run, e.reply, ToldBy(first, es, attributable), attributable)
            else ToldBy(first, es, attributable)
    ensures TraceOf(first, es + [e], attributable)
         == if e.Answer? then Send(first, es, e.run, e.reply, TraceOf(first, es, attributable), attributable)
            else TraceOf(first, es, attributable)
  {
    assert (es + [e])[..|es|] == es;
    hide Empties, Rendered, OwnerOf, Hear, Send;
  }

  /** The answered run alone changes, and what it is at next fits its answer. */
  ghost predicate RunMoves(p: Page, q: Page, run: nat, r: Reply) {
    && run in p.runs && q.next == p.next && q.wallet == p.wallet && q.ref == p.ref
    && q.ticket.owner == p.ticket.owner && q.ticket.mode == p.ticket.mode
    && q.ticket.marketId == p.ticket.marketId
    && q.runs - {run} == p.runs - {run}
    && (run in q.runs ==>
          var c, d := p.runs[run], q.runs[run];
          && d.owner == c.owner && d.mode == c.mode
          && match d.await
             case Checking => false
             case Signing => r == Passes
             case Sending => r == Passes
             case Waiting => r == Sent(d.sig)
             case Filing => r == Settled(Confirmed)
             case Listing => r.Filed?)
  }

  /** What the ticket shows and what was sent after an answer, given as the events tell it. */
  ghost predicate AnswerTold(p: Page, q: Page, first: Option<string>, es: seq<Event>, run: nat, r: Reply,
                             attributable: Kind -> bool)
    requires run in p.runs
  {
    && Shows(q.ticket) == (if p.ticket.owner == Some(p.runs[run].owner)
                           then Hear(first, es, run, r, Shows(p.ticket), attributable) else Shows(p.ticket))
    && q.trace == Send(first, es, run, r, p.trace, attributable)
  }

  lemma SettlingTold(p: Page, first: Option<string>, es: seq<Event>, run: nat, phase: Phase, attributable: Kind -> bool)
    requires run in p.runs && RunFollows(p.runs[run], first, es, run) && p.runs[run].await == Waiting
    ensures var q := AfterSettling(p, run, p.runs[run], phase, attributable);
            && RunMoves(p, q, run, Settled(phase))
            && AnswerTold(p, q, first, es, run, Settled(phase), attributable)
  {
    hide OwnerOf, ModeOf, SigOf, LastReply, Rendered, Noted, MaySign;
    if phase != Confirmed {
    } else if attributable(p.runs[run].mode) {
      hide Finish;
    }
  }

  lemma FailureTold(p: Page, first: Option<string>, es: seq<Event>, run: nat, r: Reply, attributable: Kind -> bool)
    requires Possible(p, Answer(run, r)) && RunFollows(p.runs[run], first, es, run) && r.Fails?
    requires p.runs[run].await in {Checking, Signing, Sending, Waiting}
    ensures var q := AfterReply(p, run, r, attributable);
            RunMoves(p, q, run, r) && AnswerTold(p, q, first, es, run, r, attributable)
  {
    hide OwnerOf, ModeOf, SigOf, LastReply, Rendered, Noted, AfterSettling, MaySign;
  }

  lemma ChecksTold(p: Page, first: Option<string>, es: seq<Event>, run: nat, attributable: Kind -> bool)
    requires run in p.runs && RunFollows(p.runs[run], first, es, run) && p.runs[run].await == Checking
    requires p.wallet == Rendered(first, es) && p.ref == Noted(first, first, es)
    ensures var q := AfterReply(p, run, Passes, attributable);
            RunMoves(p, q, run, Passes) && AnswerTold(p, q, first, es, run, Passes, attributable)
  {
    hide OwnerOf, ModeOf, SigOf, LastReply, Rendered, Noted, AfterSettling;
  }

  lemma SigningTold(p: Page, first: Option<string>, es: seq<Event>, run: nat, r: Reply, attributable: Kind -> bool)
    requires Possible(p, Answer(run, r)) && RunFollows(p.runs[run], first, es, run)
    requires p.runs[run].await in {Signing, Sending} && !r.Fails?
    ensures var q := AfterReply(p, run, r, attributable);
            RunMoves(p, q, run, r) && AnswerTold(p, q, first, es, run, r, attributable)
  {
    hide OwnerOf, ModeOf, SigOf, LastReply, Rendered, Noted, AfterSettling, Finish;
  }

  lemma ReportingTold(p: Page, first: Option<string>, es: seq<Event>, run: nat, r: Reply, attributable: Kind -> bool)
    requires Possible(p, Answer(run, r)) && RunFollows(p.runs[run], first, es, run)
    requires p.runs[run].await in {Filing, Listing}
    ensures var q := AfterReply(p, run, r, attributable);
            RunMoves(p, q, run, r) && AnswerTold(p, q, first, es, run, r, attributable)
  {
    hide OwnerOf, ModeOf, SigOf, LastReply, Rendered, Noted, AfterSettling;
  }

  lemma ReplyTold(p: Page, first: Option<string>, es: seq<Event>, run: nat, r: Reply, attributable: Kind -> bool)
    requires Possible(p, Answer(run, r)) && FormFollows(p, first, es) && RunsFollow(p, first, es)
    ensures var q := AfterReply(p, run, r, attributable);
            RunMoves(p, q, run, r) && AnswerTold(p, q, first, es, run, r, attributable)
  {
    var c := p.runs[run];
    assert RunFollows(c, first, es, run);
    hide RunFollows, RunMoves, AnswerTold, RunsFollow, AfterSettling;
    if c.await in {Filing, Listing} {
      ReportingTold(p, first, es, run, r, attributable);
    } else if r.Fails? {
      FailureTold(p, first, es, run, r, attributable);
    } else if c.await == Checking {
      ChecksTold(p, first, es, run, attributable);
    } else if c.await == Waiting {
      SettlingTold(p, first, es, run, r.phase, attributable);
    } else {
      SigningTold(p, first, es, run, r, attributable);
    }
  }

  lemma AnswerFollows(p: Page, first: Option<string>, es: seq<Event>, e: Event, attributable: Kind -> bool)
    requires Follows(p, first, es, attributable) && Possible(p, e) && e.Answer?
    ensures Follows(Step(p, e, attributable), first, es + [e], attributable)
  {
    var run, r := e.run, e.reply;
    var q := AfterReply(p, run, r, attributable);
    ReplyTold(p, first, es, run, r, attributable);
    WalletsSnoc(first, first, es, e);
    FormSnoc(first, es, e);
    ToldSnoc(first, es, e, attributable);
    assert RunFollows(p.runs[run], first, es, run);
    hide AfterReply, Hear, Send, Rendered, Noted, Clicks, ModeShown, MarketShown, OwnerOf, ModeOf, SigOf, LastReply,
         ToldBy, TraceOf;
    assert RunsFollow(q, first, es + [e]) by {
      forall other: nat
        ensures other in q.runs ==> other < Clicks(es) && RunFollows(q.runs[other], first, es + [e], other)
        ensures other >= Clicks(es) ==> LastReply(es + [e], other) == None {
        RunSnoc(first, es, e, other);
        if other in q.runs && other != run {
          assert other in q.runs - {run};
          assert RunFollows(p.runs[other], first, es, other);
        }
      }
    }
  }

  lemma OtherFollows(p: Page, first: Option<string>, es: seq<Event>, e: Event, attributable: Kind -> bool)
    requires Follows(p, first, es, attributable) && Possible(p, e) && !e.Answer? && !e.Click?
    ensures Follows(Step(p, e, attributable), first, es + [e], attributable)
  {
    var q := Step(p, e, attributable);
    WalletsSnoc(first, first, es, e);
    FormSnoc(first, es, e);
    ToldSnoc(first, es, e, attributable);
    hide Hear, Send, Rendered, Noted, Clicks, ModeShown, MarketShown, OwnerOf, ModeOf, SigOf, LastReply, ToldBy,
         TraceOf;
    assert RunsFollow(q, first, es + [e]) by {
      forall other: nat
        ensures other in q.runs ==> other < Clicks(es) && RunFollows(q.runs[other], first, es + [e], other)
        ensures other >= Clicks(es) ==> LastReply(es + [e], other) == None {
        RunSnoc(first, es, e, other);
        if other in q.runs {
          assert RunFollows(p.runs[other], first, es, other);
        }
      }
    }
  }

  lemma ClickFollows(p: Page, first: Option<string>, es: seq<Event>, e: Event, attributable: Kind -> bool)
    requires Follows(p, first, es, attributable) && Possible(p, e) && e.Click?
    ensures Follows(Step(p, e, attributable), first, es + [e], attributable)
  {
    var q := Step(p, e, attributable);
    WalletsSnoc(first, first, es, e);
    FormSnoc(first, es, e);
    ToldSnoc(first, es, e, attributable);
    hide Hear, Send, Rendered, Noted, Clicks, ModeShown, MarketShown, OwnerOf, ModeOf, SigOf, LastReply, ToldBy,
         TraceOf;
    assert RunsFollow(q, first, es + [e]) by {
      forall other: nat
        ensures other in q.runs ==> other < Clicks(es + [e]) && RunFollows(q.runs[other], first, es + [e], other)
        ensures other >= Clicks(es + [e]) ==> LastReply(es + [e], other) == None {
        RunSnoc(first, es, e, other);
        if other in p.runs {
          assert RunFollows(p.runs[other], first, es, other);
        }
      }
    }
  }

  lemma StepFollows(p: Page, first: Option<string>, es: seq<Event>, e: Event, attributable: Kind -> bool)
    requires Follows(p, first, es, attributable) && Possible(p, e)
    ensures Follows(Step(p, e, attributable), first, es + [e], attributable)
  {
    hide Follows, Step;
    if e.Answer? {
      AnswerFollows(p, first, es, e, attributable);
    } else if e.Click? {
      ClickFollows(p, first, es, e, attributable);
    } else {
      OtherFollows(p, first, es, e, attributable);
    }
  }

  lemma {:induction false} RunsFollowOn(p: Page, first: Option<string>, before: seq<Event>, run: seq<Event>,
                                        attributable: Kind -> bool)
    requires Follows(p, first, before, attributable) && PossibleRun(p, run, attributable)
    ensures Follows(PageAfter(p, run, attributable), first, before + run, attributable)
    decreases |run|
  {
    if run == [] {
      assert before + run == before;
    } else {
      StepFollows(p, first, before, run[0], attributable);
      hide Follows, Step, Possible;
      RunsFollowOn(Step(p, run[0], attributable), first, before + [run[0]], run[1..], attributable);
      assert before + [run[0]] + run[1..] == before + run;
    }
  }

  lemma OpenedFollows(first: Option<string>, attributable: Kind -> bool)
    ensures Follows(Opened(first), first, [], attributable)
  {
  }

  // ---- what is shown was answered

  /** Event `i` answered `r` to a run of the wallet that was rendered then and has been since, and
      nothing has emptied its ticket in between. */
  ghost predicate Answered(first: Option<string>, es: seq<Event>, i: nat, r: Reply) {
    && i < |es| && es[i].Answer? && es[i].reply == r
    && OwnerOf(first, es[..i], es[i].run) == Rendered(first, es[..i]) == Rendered(first, es)
    && forall j :: i < j < |es| ==> !es[j].Click? && !Empties(first, es[..j], es[j])
  }

  lemma StillAnswered(first: Option<string>, es: seq<Event>, e: Event, i: nat, r: Reply)
    requires Answered(first, es, i, r) && !e.Click? && !Empties(first, es, e)
    ensures Answered(first, es + [e], i, r)
  {
    var all := es + [e];
    WalletsSnoc(first, first, es, e);
    assert all[..i] == es[..i] && all[i] == es[i];
    hide Rendered, OwnerOf;
    forall j | i < j < |all| ensures !all[j].Click? && !Empties(first, all[..j], all[j]) {
      if j < |es| {
        assert all[..j] == es[..j] && all[j] == es[j];
      } else {
        assert all[..j] == es && all[j] == e;
      }
    }
  }

  lemma JustAnswered(first: Option<string>, es: seq<Event>, e: Event)
    requires e.Answer? && OwnerOf(first, es, e.run) == Rendered(first, es)
    ensures Answered(first, es + [e], |es|, e.reply)
  {
    WalletsSnoc(first, first, es, e);
    assert (es + [e])[..|es|] == es;
  }

  /** The ledger listed the claim of a run whose report Panta had filed. */
  ghost predicate Listed(first: Option<string>, es: seq<Event>, i: nat) {
    Answered(first, es, i, Passes) && var last := LastReply(es[..i], es[i].run); last.Some? && last.value.Filed?
  }

  lemma HearTells(first: Option<string>, before: seq<Event>, run: nat, reply: Reply, t: Told,
                  attributable: Kind -> bool)
    ensures var u := Hear(first, before, run, reply, t, attributable);
            && (u.phase == t.phase || (reply.Sent? && u.phase == Confirming) || reply == Settled(u.phase))
            && (u.sig == t.sig || (u.sig.Some? && reply == Sent(u.sig.value)))
  {
  }

  lemma {:induction false} ToldWasAnswered(first: Option<string>, es: seq<Event>, attributable: Kind -> bool)
    ensures var t := ToldBy(first, es, attributable);
            && (t.phase in {Pending, Confirmed, Failed} ==> exists i: nat :: Answered(first, es, i, Settled(t.phase)))
            && (t.sig.Some? ==> exists i: nat :: Answered(first, es, i, Sent(t.sig.value)))
    decreases |es|
  {
    if es != [] {
      var e, before := es[|es| - 1], es[..|es| - 1];
      assert es == before + [e];
      ToldWasAnswered(first, before, attributable);
      ToldSnoc(first, before, e, attributable);
      if e.Answer? && OwnerOf(first, before, e.run) == Rendered(first, before) {
        JustAnswered(first, before, e);
        HearTells(first, before, e.run, e.reply, ToldBy(first, before, attributable), attributable);
      }
      hide Hear, ToldBy, Answered, Rendered, OwnerOf, LastReply, MaySign, ModeOf;
      if !e.Click? && !Empties(first, before, e) {
        hide Empties;
        forall i: nat, r | Answered(first, before, i, r) ensures Answered(first, es, i, r) {
          StillAnswered(first, before, e, i, r);
        }
      }
    }
  }

  lemma {:induction false} AttrWasAnswered(first: Option<string>, es: seq<Event>, attributable: Kind -> bool)
    ensures var t := ToldBy(first, es, attributable);
            t.attr in {Reported, Attributed} ==>
              (exists i: nat :: Answered(first, es, i, Filed(t.attr)))
              || (t.attr == Attributed && exists i: nat :: Listed(first, es, i))
    decreases |es|
  {
    if es != [] {
      var e, before := es[|es| - 1], es[..|es| - 1];
      assert es == before + [e];
      AttrWasAnswered(first, before, attributable);
      ToldSnoc(first, before, e, attributable);
      if e.Answer? && OwnerOf(first, before, e.run) == Rendered(first, before) {
        JustAnswered(first, before, e);
        assert es[..|before|] == before;
        assert e.reply.Passes? && LastReply(before, e.run).Some? && LastReply(before, e.run).value.Filed? ==>
            Listed(first, es, |before|);
      }
      hide ToldBy, Answered, Rendered, OwnerOf, LastReply, MaySign, ModeOf;
      if !e.Click? && !Empties(first, before, e) {
        hide Empties;
        forall i: nat, r | Answered(first, before, i, r) ensures Answered(first, es, i, r) {
          StillAnswered(first, before, e, i, r);
        }
        forall i: nat | Listed(first, before, i) ensures Listed(first, es, i) {
          AnsweredPlace(first, before, i, Passes);
          assert es[..i] == before[..i] && es[i] == before[i];
        }
      }
    }
  }

  lemma AnsweredPlace(first: Option<string>, es: seq<Event>, i: nat, r: Reply)
    requires Answered(first, es, i, r)
    ensures i < |es|
  {
  }

  lemma {:induction false} LandedWhenAnswered(first: Option<string>, es: seq<Event>, i: nat, attributable: Kind -> bool)
    requires i < |es| && es[i].Answer? && es[i].reply == Settled(Confirmed)
    ensures HasLanded(TraceOf(first, es, attributable), es[i].run, SigOf(es[..i], es[i].run))
    decreases |es|
  {
    var e, before := es[|es| - 1], es[..|es| - 1];
    assert es == before + [e];
    ToldSnoc(first, before, e, attributable);
    hide TraceOf, SigOf, OwnerOf, ModeOf, MaySign, Rendered, Noted;
    if i < |before| {
      LandedWhenAnswered(first, before, i, attributable);
      assert es[..i] == before[..i];
    } else {
      assert es[..i] == before;
    }
  }

  /** Each result shown was answered: a phase by the chain, which for a confirmed one has landed; a
      signature by the RPC; an attribution by Panta or its ledger. */
  ghost predicate AllAnswered(t: Ticket, trace: Trace, first: Option<string>, es: seq<Event>) {
    && (t.phase in {Pending, Confirmed, Failed} ==>
          exists i: nat ::
            && Answered(first, es, i, Settled(t.phase))
            && (t.phase == Confirmed ==> HasLanded(trace, es[i].run, SigOf(es[..i], es[i].run))))
    && (t.sig.Some? ==> exists i: nat :: Answered(first, es, i, Sent(t.sig.value)))
    && (t.attr in {Reported, Attributed} ==>
          (exists i: nat :: Answered(first, es, i, Filed(t.attr)))
          || (t.attr == Attributed && exists i: nat :: Listed(first, es, i)))
  }

  lemma FollowsMeans(p: Page, first: Option<string>, es: seq<Event>, attributable: Kind -> bool)
    requires Follows(p, first, es, attributable)
    ensures Shows(p.ticket) == ToldBy(first, es, attributable) && p.trace == TraceOf(first, es, attributable)
    ensures AllAnswered(p.ticket, p.trace, first, es)
  {
    ToldWasAnswered(first, es, attributable);
    AttrWasAnswered(first, es, attributable);
    hide ToldBy, TraceOf, SigOf, HasLanded, RunsFollow, FormFollows;
    if p.ticket.phase in {Pending, Confirmed, Failed} {
      var i: nat :| Answered(first, es, i, Settled(p.ticket.phase));
      if p.ticket.phase == Confirmed {
        LandedWhenAnswered(first, es, i, attributable);
      }
    }
  }

  /** Over every run: the ticket and the trace are what the events tell, so each result shown was
      answered to a run of the wallet rendered, on a ticket not emptied since. */
  lemma ShownWasAnswered(first: Option<string>, run: seq<Event>, attributable: Kind -> bool)
    requires PossibleRun(Opened(first), run, attributable)
    ensures var p := PageAfter(Opened(first), run, attributable);
            && Shows(p.ticket) == ToldBy(first, run, attributable)
            && p.trace == TraceOf(first, run, attributable)
            && AllAnswered(p.ticket, p.trace, first, run)
  {
    OpenedFollows(first, attributable);
    RunsFollowOn(Opened(first), first, [], run, attributable);
    assert [] + run == run;
    FollowsMeans(PageAfter(Opened(first), run, attributable), first, run, attributable);
  }

  /** One answer, read at once: on the ticket of the run's own wallet it shows what was answered,
      and on any other it changes nothing. */
  lemma AnswerShows(p: Page, first: Option<string>, es: seq<Event>, run: nat, r: Reply, attributable: Kind -> bool)
    requires Follows(p, first, es, attributable) && Possible(p, Answer(run, r))
    ensures var q := Step(p, Answer(run, r), attributable);
            if p.wallet != Some(p.runs[run].owner) then Shows(q.ticket) == Shows(p.ticket)
            else
              && (r.Sent? ==> q.ticket.sig == Some(r.sig) && q.ticket.phase == Confirming)
              && (r.Settled? ==> q.ticket.phase == r.phase && q.ticket.sig == p.ticket.sig)
              && (r.Filed? ==> q.ticket.attr == r.attr && q.ticket.phase == p.ticket.phase)
  {
    ReplyTold(p, first, es, run, r, attributable);
    hide AfterReply, Send, RunMoves, RunsFollow, MaySign, ModeOf, LastReply;
  }
}
