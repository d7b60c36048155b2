/** What a guided ticket offers next (src/lib/trade-state.ts, lines 840-897, with
    src/components/PrimaryBuyPanel.tsx, lines 668-784), over every run in guided mode. */
module TradeGuided {
  import opened Wrappers
  import opened Logs
  import opened TradeState
  import opened TradeTicket
  import opened TradeFlow
  import F = TradeFailures

  const GUIDED: set<Kind> := {AskForQuote, BuildAndReview, ApproveAll, FinishAll, Recheck, RetryReport}

  /** What the events of a ticket kept in guided mode are. */
  predicate StaysGuided(e: Event) {
    match e
    case Edit(_, _, _, _, _, guided) => guided
    case Click(kind, _) => kind in GUIDED
    case _ => true
  }

  /** The awaits of each guided run. */
  predicate KindFits(r: Run) {
    match r.await
    case ForQuote => r.kind == AskForQuote
    case BuildNet | ForBuild => r.kind == BuildAndReview
    case SignNet | Preflight | ForWallet | Sending | Settling => r.kind == ApproveAll
    case Checking => r.kind == FinishAll
    case Submitting => r.kind in {ApproveAll, FinishAll}
    case Polls => r.kind in {ApproveAll, FinishAll, Recheck}
    case Filing => r.kind in {ApproveAll, FinishAll, Recheck, RetryReport}
  }

  /** A confirmed trade whose verification has come to an end other than a refusal. */
  predicate IsSettled(v: View) {
    v.tx == Confirmed && v.verify in {Verified, TimedOut}
  }

  /** What a run rests on when it may yet end well. */
  predicate RunStands(v: View, r: Run) {
    && KindFits(r)
    && (r.await in {Submitting, Polls} && r.kind != Recheck ==> v.tx == Confirmed)
    && (r.await == Polls && r.kind == Recheck ==>
          && (v.tx == Confirmed || r.seen.attr == Attributed || v.signature.None?)
          && v.attr in {r.seen.attr, Attributed} && r.sig == v.signature)
    && (r.await == Filing ==> IsSettled(v))
  }

  predicate IdleStands(v: View) {
    && (v.signature.Some? && v.failure.None? && v.attr != Attributed ==> IsSettled(v) && v.attr != Unreported)
    && (v.signature.Some? && v.failure == Some(VerifyFailed) && v.attr != Attributed ==> v.tx == Confirmed)
  }

  /** A ticket that has been guided throughout. */
  predicate Stands(s: System) {
    && s.view.guided
    && (s.view.failure.Some? ==> s.view.failure.value in FAILURES)
    && (s.run.Some? ==> s.view.failure.None? && RunStands(s.view, s.run.value))
    && (s.run.None? ==> IdleStands(s.view))
  }

  lemma ClassifyStands(stage: Option<Stage>, e: Error, presign: bool)
    ensures Classify(stage, e, presign) in FAILURES
    ensures Classify(stage, e, presign) == VerifyFailed ==> stage == Some(Verify)
  {
  }

  lemma ThrowStands(s: System, e: Error, presign: bool)
    requires s.view.guided
    requires s.view.stage == Some(Verify) ==>
               s.view.tx == Confirmed || s.view.attr == Attributed || s.view.signature.None?
    ensures Stands(Throw(s, e, presign))
  {
    ClassifyStands(s.view.stage, e, presign);
    hide Classify, FAILURES;
  }

  lemma RefuseStands(s: System, reason: Reason, at: int)
    requires s.view.guided && s.view.stage != Some(Verify)
    ensures Stands(Refuse(s, reason, at))
  {
    ThrowStands(s.(view := s.view.(shown := at)), PLAIN, true);
    hide Throw;
  }

  predicate Fresh(s: System, seen: View) {
    && s.view.guided && s.view.failure.None? && s.run.None?
    && s.view.tx == seen.tx && s.view.attr == seen.attr && s.view.signature == seen.signature
    && s.view.verify == seen.verify
  }

  lemma StartQuoteStands(s: System, seen: View)
    requires Fresh(s, seen)
    ensures Stands(StartQuote(s, seen))
  {
    ThrowStands(At(s.(view := s.view.(reviewOpen := false)), Quoting), PLAIN, false);
    hide Throw;
  }

  lemma StartBuildStands(s: System, seen: View)
    requires Fresh(s, seen)
    ensures Stands(StartBuild(s, BuildAndReview, seen))
  {
    var t := At(s, Building);
    ThrowStands(t, PLAIN, false);
    var g := GuardAt(seen, s.clock, None);
    if g.Stale? {
      RefuseStands(t, g.reason, s.clock);
    }
    hide Throw, Refuse, GuardAt;
  }

  lemma StartSignStands(s: System, seen: View)
    requires Fresh(s, seen)
    ensures Stands(StartSign(s, ApproveAll, seen))
  {
    var t := At(s, Sign);
    ThrowStands(t, PLAIN, false);
    ThrowStands(t, PLAIN, true);
    var g := GuardAt(seen, s.clock, seen.binding);
    if g.Stale? {
      RefuseStands(t, g.reason, s.clock);
    }
    hide Throw, Refuse, GuardAt;
  }

  lemma StartApproveStands(s: System, seen: View)
    requires Fresh(s, seen)
    ensures Stands(StartApprove(s, seen))
  {
    var t := At(s, Sign);
    ThrowStands(t, PLAIN, true);
    var g := GuardAt(seen, s.clock, seen.binding);
    if g.Stale? {
      RefuseStands(t, g.reason, s.clock);
    }
    StartSignStands(t.(view := t.view.(reviewOpen := false)), seen);
    hide Throw, Refuse, GuardAt, StartSign;
  }

  lemma StartCheckStands(s: System, seen: View)
    requires Fresh(s, seen)
    ensures Stands(StartCheck(s, FinishAll, seen))
  {
    if seen.signature.None? {
      ThrowStands(s, PLAIN, false);
    }
    hide Throw;
  }

  lemma StartSubmitStands(s: System, kind: Kind, seen: View, sig: Option<string>)
    requires s.view.guided && s.view.failure.None? && kind in {ApproveAll, FinishAll} && s.view.tx == Confirmed
    ensures Stands(StartSubmit(s, kind, seen, sig, true))
  {
    ThrowStands(At(s, Submit), PLAIN, false);
    hide Throw;
  }

  lemma StartVerifyStands(s: System, kind: Kind, seen: View, sig: Option<string>)
    requires s.view.guided && s.view.failure.None? && kind in {ApproveAll, FinishAll, Recheck}
    requires kind != Recheck ==> s.view.tx == Confirmed
    requires kind == Recheck ==> Fresh(s, seen) && sig == seen.signature
    requires s.view.tx == Confirmed || s.view.attr == Attributed || s.view.signature.None?
    ensures Stands(StartVerify(s, kind, seen, sig))
  {
    ThrowStands(At(s, Verify), PLAIN, false);
    hide Throw, FAILURES;
  }

  lemma StartReportStands(s: System, kind: Kind, seen: View, sig: Option<string>)
    requires s.view.guided && s.view.failure.None? && kind in {ApproveAll, FinishAll, Recheck}
    requires sig.Some? ==> IsSettled(s.view)
    ensures Stands(StartReport(s, kind, seen, sig))
  {
    ThrowStands(At(s, Attribute), PLAIN, false);
    hide Throw;
  }

  lemma StartRetryStands(s: System, seen: View)
    requires Fresh(s, seen) && IsSettled(s.view)
    ensures Stands(StartRetry(s, seen))
  {
    ThrowStands(s, PLAIN, false);
    hide Throw;
  }

  /** What the offer of an idle ticket rests on. */
  lemma OfferRests(v: View)
    requires v.guided && !v.busy && IdleStands(v) && (v.failure.Some? ==> v.failure.value in FAILURES)
    ensures Enabled(v, Recheck) ==> v.tx == Confirmed || v.attr == Attributed || v.signature.None?
    ensures Enabled(v, RetryReport) ==> IsSettled(v)
  {
    hide QuoteRanOut, QuoteIsStale, BuildIsStale;
  }

  lemma StartStands(s: System, kind: Kind, seen: View)
    requires Fresh(s, seen) && kind in GUIDED
    requires kind == Recheck ==> seen.tx == Confirmed || seen.attr == Attributed || seen.signature.None?
    requires kind == RetryReport ==> IsSettled(seen)
    ensures Stands(Start(s, kind, seen))
  {
    hide Stands, StartQuote, StartBuild, StartApprove, StartCheck, StartSubmit, StartVerify, StartRetry;
    match kind
    case AskForQuote => StartQuoteStands(s, seen);
    case BuildAndReview => StartBuildStands(s, seen);
    case ApproveAll => StartApproveStands(s, seen);
    case FinishAll =>
      if seen.tx != Confirmed {
        StartCheckStands(s, seen);
      } else {
        StartSubmitStands(s, kind, seen, seen.signature);
      }
    case Recheck => StartVerifyStands(s, kind, seen, seen.signature);
    case RetryReport => StartRetryStands(s, seen);
  }

  lemma ClickStands(s: System, kind: Kind, at: int)
    requires Stands(s) && Possible(s, Click(kind, at)) && kind in GUIDED && s.run.None?
    ensures Stands(Step(s, Click(kind, at)))
  {
    OfferRests(s.view);
    hide Enabled, Start, IdleStands, FAILURES;
    if !(kind == ApproveAll && (s.view.build.None? || s.view.quote.None?)) {
      StartStands(Begun(s, at), kind, s.view);
    }
  }

  lemma SettlingStands(s: System, r: Run, reply: Reply)
    requires s.view.guided && s.view.failure.None? && RunStands(s.view, r) && s.view.stage == Some(Confirm)
    requires r.await in {Settling, Checking} && Fits(r, reply) && !reply.Threw?
    ensures Stands(Resume(s, r, reply))
  {
    var t := s.(view := s.view.(tx := reply.tx));
    ThrowStands(t, PLAIN, false);
    if reply.tx == Confirmed {
      StartSubmitStands(Note(t, Observed(r.sig.value)), r.kind, r.seen, r.sig);
    }
    hide Throw, StartSubmit, Stands;
  }

  lemma VerdictStands(s: System, r: Run, phase: VerifyPhase)
    requires s.view.guided && s.view.failure.None? && RunStands(s.view, r) && r.await == Polls
    requires phase in {Verified, Refused, TimedOut}
    ensures Stands(AfterVerdict(s, r, phase))
  {
    var t := s.(view := s.view.(verify := phase));
    if phase == Refused {
      ThrowStands(t, PLAIN, false);
    } else if r.kind != Recheck || r.seen.attr == Unreported {
      StartReportStands(t, r.kind, r.seen, r.sig);
    }
    hide Throw, StartReport, FAILURES;
  }

  lemma ThrewStands(s: System, r: Run, reply: Reply)
    requires s.view.guided && s.view.failure.None? && RunStands(s.view, r) && RunFits(s, r) && reply.Threw?
    ensures Stands(Resume(s, r, reply))
  {
    var t := s.(view := s.view.(verify := Refused));
    hide FAILURES, Classify, SignRunFits, BuildRunFits;
    if r.await == Polls {
      ThrowStands(t, reply.error, false);
    } else {
      F.StageOfRun(s, r);
      ThrowStands(s, reply.error, false);
    }
    hide Throw, Stands, RunFits;
  }

  lemma SigningStands(s: System, r: Run, reply: Reply)
    requires s.view.guided && s.view.failure.None? && RunStands(s.view, r) && RunFits(s, r) && Fits(r, reply)
    requires !reply.Threw? && r.await in {BuildNet, SignNet, Preflight, ForWallet, Sending}
    ensures Stands(Resume(s, r, reply))
  {
    hide FAILURES, SignRunFits, BuildRunFits;
    assert s.view.stage != Some(Verify) by {
      F.StageOfRun(s, r);
    }
    ThrowStands(s, PLAIN, true);
    if r.await == SignNet {
      ThrowStands(s.(view := s.view.(check := Some(reply.checkOk))), PLAIN, true);
    }
    hide Throw, RunFits;
  }

  /** The ends that need no stage: a quote, a report, an accepted order, a build. */
  lemma EndStands(s: System, r: Run, reply: Reply)
    requires s.view.guided && s.view.failure.None? && RunStands(s.view, r) && Fits(r, reply) && !reply.Threw?
    requires r.await in {ForQuote, Submitting, Filing}
    ensures Stands(Resume(s, r, reply))
  {
    if r.await == Submitting {
      StartVerifyStands(s, r.kind, r.seen, r.sig);
    }
    hide FAILURES, StartVerify;
  }

  lemma BuildStands(s: System, r: Run, b: Reply)
    requires s.view.guided && s.view.failure.None? && s.view.stage.Some? && s.view.stage != Some(Verify)
    requires b.GotBuild? && r.seen.inputs.wallet.Some? && r.seen.inputs.slippage.Some?
    ensures Stands(AfterBuild(s, r, b))
  {
    var g := GuardAt(r.seen, s.clock, None);
    if g.Stale? {
      RefuseStands(s, g.reason, s.clock);
    } else {
      ThrowStands(Store(s, r, b), PLAIN, true);
    }
    hide Throw, Refuse, GuardAt, FAILURES;
  }

  lemma ResumeStands(s: System, r: Run, reply: Reply)
    requires s.view.guided && s.view.failure.None? && RunStands(s.view, r) && RunFits(s, r) && Fits(r, reply)
    ensures Stands(Resume(s, r, reply))
  {
    hide Stands, RunStands, RunFits, AfterBuild, AfterVerdict, AfterSettling, AfterQuote, AfterSend, StartVerify, Throw;
    if reply.Threw? {
      ThrewStands(s, r, reply);
    } else {
      match r.await
      case Settling =>
        F.StageOfRun(s, r);
        SettlingStands(s, r, reply);
      case Checking =>
        F.StageOfRun(s, r);
        SettlingStands(s, r, reply);
      case Polls => VerdictStands(s, r, reply.phase);
      case ForBuild =>
        F.StageOfRun(s, r);
        BuildStands(s, r, reply);
      case ForQuote | Submitting | Filing => EndStands(s, r, reply);
      case _ => SigningStands(s, r, reply);
    }
  }

  lemma StepStands(s: System, e: Event)
    requires Invariant(s) && Stands(s) && Possible(s, e) && StaysGuided(e)
    ensures Stands(Step(s, e))
  {
    match e
    case Answer(reply, at) =>
      WaitingFacts(s, at);
      hide Resume, Settles, FAILURES, Stands;
      GuidedRun(s);
      ResumeStands(s.(clock := at), s.run.value, reply);
    case Click(kind, at) =>
      hide Settles, FAILURES, Start, Stands;
      ClickStands(s, kind, at);
    case _ => hide Settles, FAILURES, PanelShown;
  }

  lemma GuidedRun(s: System)
    requires Stands(s) && s.run.Some?
    ensures s.view.guided && s.view.failure.None? && RunStands(s.view, s.run.value)
  {
  }

  lemma {:induction false} RunsStand(s: System, run: seq<Event>)
    requires Invariant(s) && Stands(s) && PossibleRun(s, run) && forall e :: e in run ==> StaysGuided(e)
    ensures Invariant(After(s, run)) && Stands(After(s, run))
    decreases |run|
  {
    if run != [] {
      StepKeepsInvariant(s, run[0]);
      StepStands(s, run[0]);
      hide Invariant, Stands, Step, Possible, StaysGuided;
      RunsStand(Step(s, run[0]), run[1..]);
    }
  }

  /** Over every run in guided mode: an idle ticket offers a next action, unless its trade is
      verified and either attributed or, with no failure shown, reported or still "reporting". */
  lemma NothingLeftIff(s: System, run: seq<Event>)
    requires Opened(s) && s.view.guided && PossibleRun(s, run) && forall e :: e in run ==> StaysGuided(e)
    ensures var v := After(s, run).view;
            !v.busy && v.closed.None? ==>
              && (OfferOf(Shown(v)) == Nothing <==>
                    v.verify == Verified
                    && (v.attr == Attributed
                        || (v.signature.Some? && v.failure.None? && v.attr in {Reported, Reporting})))
              && (Shown(v) == ReportingState <==>
                    v.verify == Verified && v.signature.Some? && v.failure.None? && v.attr == Reporting)
  {
    OpenedStands(s);
    RunsStand(s, run);
    var last := After(s, run);
    hide After, PossibleRun, Settles, Opened, StaysGuided;
    if !last.view.busy && last.view.closed.None? {
      OfferLeft(last.view);
    }
  }

  /** And over every such run an order is verified and reported only after its signature was seen
      confirmed, and reported only once its verification ended other than in a refusal. */
  lemma GuidedReportsAreSettled(s: System, run: seq<Event>)
    requires Opened(s) && s.view.guided && PossibleRun(s, run) && forall e :: e in run ==> StaysGuided(e)
    ensures var t := After(s, run);
            t.run.Some? ==>
              && (t.run.value.await == Filing ==> t.view.tx == Confirmed && t.view.verify in {Verified, TimedOut})
              && (t.run.value.await in {Submitting, Polls} && t.run.value.kind != Recheck ==> t.view.tx == Confirmed)
  {
    OpenedStands(s);
    RunsStand(s, run);
    hide After, PossibleRun, Settles, Opened, StaysGuided;
  }

  lemma OpenedStands(s: System)
    requires Opened(s) && s.view.guided
    ensures Invariant(s) && Stands(s)
  {
  }

  lemma OfferLeft(v: View)
    requires !v.busy && v.closed.None? && IdleStands(v) && (v.failure.Some? ==> v.failure.value in FAILURES)
    ensures OfferOf(Shown(v)) == Nothing <==>
              v.verify == Verified
              && (v.attr == Attributed
                  || (v.signature.Some? && v.failure.None? && v.attr in {Reported, Reporting}))
    ensures Shown(v) == ReportingState <==>
              v.verify == Verified && v.signature.Some? && v.failure.None? && v.attr == Reporting
  {
    hide QuoteRanOut, QuoteIsStale, BuildIsStale;
  }

  // ---- "reporting" with no report under way

  /** A guided run that reports a verified trade, on a ticket that is still as it was. */
  predicate Reports(s: System, r: Run) {
    var v := s.view;
    && s.run == Some(r) && r.await == Filing && v.guided && v.closed.None? && IsReady(v)
    && v.build.Some? && v.build.value.hasOrder && v.signature.Some?
    && v.tx == Confirmed && v.verify == Verified && v.attr == Reporting && v.stage == Some(Attribute)
  }

  /** Its report fails, and the trade is submitted again and refused. */
  function Refusal(at: seq<int>): seq<Event>
    requires |at| == 6
  {
    [Answer(Threw(PLAIN), at[0]), Click(FinishAll, at[1]), Answer(Accepted, at[2]), Answer(Verdict(Refused), at[3])]
  }

  /** And the recheck verifies it. */
  function Rechecking(at: seq<int>): seq<Event>
    requires |at| == 6
  {
    [Click(Recheck, at[4]), Answer(Verdict(Verified), at[5])]
  }

  /** The report is given up: the ticket offers to submit the order again. */
  lemma GiveUpStep(s: System, r: Run, at: int)
    requires Reports(s, r) && s.clock <= at
    ensures var e := Answer(Threw(PLAIN), at);
            && Possible(s, e)
            && Step(s, e) == System(s.view.(failure := Some(SubmitFailed), busy := false), None, s.payload, s.builds,
                                    at, s.log)
            && Enabled(Step(s, e).view, FinishAll)
  {
    hide QuoteRanOut, QuoteIsStale, BuildIsStale;
  }

  lemma RefusedOffers(v: View)
    requires v.guided && v.closed.None? && !v.busy && v.signature.Some? && v.tx == Confirmed
    requires v.attr == Reporting && v.failure == Some(VerifyFailed)
    ensures Enabled(v, Recheck)
  {
    hide QuoteRanOut, QuoteIsStale, BuildIsStale;
  }

  lemma RefusedStep(s: System, r: Run, at: int)
    requires s.run == Some(r) && r.await == Polls && s.view.stage == Some(Verify) && s.clock <= at
    requires s.view.guided && s.view.closed.None? && s.view.signature.Some? && s.view.tx == Confirmed
    requires s.view.attr == Reporting
    ensures var e := Answer(Verdict(Refused), at);
            && Possible(s, e)
            && Step(s, e) == System(s.view.(verify := Refused, failure := Some(VerifyFailed), busy := false), None,
                                    s.payload, s.builds, at, s.log)
            && Enabled(Step(s, e).view, Recheck)
  {
    hide Enabled, StartReport;
    RefusedOffers(s.view.(verify := Refused, failure := Some(VerifyFailed), busy := false));
  }

  lemma RecheckStep(s: System, at: int)
    requires Possible(s, Click(Recheck, at)) && IsReady(s.view) && s.view.build.Some? && s.view.build.value.hasOrder
    ensures Step(s, Click(Recheck, at)) == System(
              s.view.(busy := true, failure := None, stage := Some(Verify), verify := Polling),
              Some(Run(Recheck, s.view, Polls, at, s.view.signature)), s.payload, s.builds, at, s.log)
  {
    hide Enabled, Throw;
  }

  lemma RecheckedStep(s: System, r: Run, at: int)
    requires s.run == Some(r) && r.await == Polls && r.kind == Recheck && r.seen.attr == Reporting && s.clock <= at
    ensures var e := Answer(Verdict(Verified), at);
            && Possible(s, e)
            && Step(s, e) == System(s.view.(verify := Verified, busy := false), None, s.payload, s.builds, at, s.log)
  {
  }

  function AfterRefusal(v: View): View {
    v.(verify := Refused, failure := Some(VerifyFailed), stage := Some(Verify), busy := false)
  }

  function AfterRecheck(v: View): View {
    v.(verify := Verified, failure := None, stage := Some(Verify), busy := false)
  }

  lemma RefusalSteps(s: System, r: Run, at: seq<int>)
    requires Reports(s, r) && |at| == 6 && Rising(at) && s.clock <= at[0]
    ensures PossibleRun(s, Refusal(at))
    ensures After(s, Refusal(at)) == System(
              AfterRefusal(s.view), None, s.payload, s.builds, at[3], Then(s.log, Submitted(s.view.signature.value)))
    ensures Enabled(AfterRefusal(s.view), Recheck)
  {
    var e := Refusal(at);
    GiveUpStep(s, r, at[0]);
    var s1 := Step(s, e[0]);
    assert Possible(s1, e[1]);
    FinishStep(s1, at[1]);
    var s2 := Step(s1, e[1]);
    AcceptedStep(s2, s2.run.value, at[2]);
    var s3 := Step(s2, e[2]);
    RefusedStep(s3, s3.run.value, at[3]);
    hide Step, PossibleRun, After, Enabled, Possible;
    OneStep(s3, e[3]);
    Prepend(s2, e[2], [e[3]]);
    Prepend(s1, e[1], [e[2]] + [e[3]]);
    Prepend(s, e[0], [e[1]] + ([e[2]] + [e[3]]));
    assert e == [e[0]] + ([e[1]] + ([e[2]] + [e[3]]));
  }

  lemma RecheckingSteps(s: System, at: seq<int>)
    requires |at| == 6 && Rising(at) && s.clock <= at[4] && Possible(s, Click(Recheck, at[4]))
    requires IsReady(s.view) && s.view.build.Some? && s.view.build.value.hasOrder && s.view.attr == Reporting
    ensures PossibleRun(s, Rechecking(at))
    ensures After(s, Rechecking(at)) == System(AfterRecheck(s.view), None, s.payload, s.builds, at[5], s.log)
  {
    var e := Rechecking(at);
    RecheckStep(s, at[4]);
    var s1 := Step(s, e[0]);
    RecheckedStep(s1, s1.run.value, at[5]);
    hide Step, PossibleRun, After, Possible;
    OneStep(s1, e[1]);
    Prepend(s, e[0], [e[1]]);
    assert e == [e[0]] + [e[1]];
  }

  lemma StillReporting(v: View)
    requires v.closed.None? && IsReady(v) && v.build.Some? && v.build.value.hasOrder && v.signature.Some?
    requires v.tx == Confirmed && v.attr == Reporting
    ensures var w := AfterRefusal(v);
            && IsReady(w) && w.build.Some? && w.build.value.hasOrder && w.attr == Reporting
    ensures var w := AfterRecheck(AfterRefusal(v));
            && !w.busy && w.attr == Reporting && Shown(w) == ReportingState && OfferOf(Shown(w)) == Nothing
  {
    OfferLeft(AfterRecheck(AfterRefusal(v)));
    hide OfferOf, Derive;
  }

  /** The ticket then says that it is reporting the trade, while nothing is under way and nothing
      is offered. */
  lemma ReportingWithoutReport(s: System, r: Run, at: seq<int>)
    requires Reports(s, r) && |at| == 6 && Rising(at) && s.clock <= at[0]
    ensures var run := Refusal(at) + Rechecking(at);
            && PossibleRun(s, run) && (forall e :: e in run ==> StaysGuided(e))
            && var t := After(s, run);
               && t.run.None? && !t.view.busy && t.view.attr == Reporting
               && Shown(t.view) == ReportingState && OfferOf(Shown(t.view)) == Nothing
  {
    assert forall e :: e in Refusal(at) + Rechecking(at) ==> StaysGuided(e);
    StillReporting(s.view);
    RefusalSteps(s, r, at);
    hide *;
    var s1 := After(s, Refusal(at));
    RecheckIsPossible(s1, at[4]);
    RecheckingSteps(s1, at);
    Append(s, Refusal(at), Rechecking(at));
  }

  lemma RecheckIsPossible(s: System, at: int)
    requires Enabled(s.view, Recheck) && s.clock <= at
    ensures Possible(s, Click(Recheck, at))
  {
  }
}
