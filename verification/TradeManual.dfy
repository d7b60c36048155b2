/** A trade made step by step, with the ticket out of guided mode (src/components/PrimaryBuyPanel.tsx,
    lines 1282-1302): one button for each step, and in the end the same trade. */
module TradeManual {
  import opened Wrappers
  import opened Logs
  import opened TradeState
  import opened TradeTicket
  import opened TradeFlow
  import F = TradeFailures

  /** The view once the signature is seen confirmed. */
  function WithSignature(v: View, sig: string): View {
    v.(failure := None, check := Some(true), signature := Some(sig), tx := Confirmed, stage := Some(Confirm),
       busy := false)
  }

  // ---- sign, submit, verify, report

  function Signs(sig: string, at: seq<int>): seq<Event>
    requires |at| == 6
  {
    [Click(SignOnly, at[0])] + Signing(sig, at[..5])[1..] + [Answer(Settled(Confirmed), at[5])]
  }

  lemma SignClick(s: System, at: int)
    requires Possible(s, Click(SignOnly, at)) && MayApprove(s.view, at)
    ensures Step(s, Click(SignOnly, at)) == System(
              s.view.(busy := true, failure := None, stage := Some(Sign)),
              Some(Run(SignOnly, s.view, SignNet, at, None)), s.payload, s.builds, at, s.log)
  {
    hide Enabled, GuardAt, Throw, Refuse;
  }

  lemma SettledByHand(s: System, r: Run, at: int)
    requires s.run == Some(r) && r.kind == SignOnly && r.await == Settling && r.sig.Some? && s.clock <= at
    ensures var e := Answer(Settled(Confirmed), at);
            && Possible(s, e)
            && Step(s, e) == System(s.view.(tx := Confirmed, busy := false), None, s.payload, s.builds, at,
                                    Then(s.log, Observed(r.sig.value)))
  {
  }

  lemma SignByHand(s: System, sig: string, at: seq<int>)
    requires |at| == 6 && Rising(at) && Possible(s, Click(SignOnly, at[0])) && MayApprove(s.view, at[0])
    ensures var no := s.view.build.value.no;
            && PossibleRun(s, Signs(sig, at))
            && After(s, Signs(sig, at)) == System(
                 WithSignature(s.view, sig), None, s.payload, s.builds, at[5],
                 Then(Then(Then(s.log, WalletAsked(no, s.view, at[0])), Recorded(no, sig)), Observed(sig)))
  {
    SignClick(s, at[0]);
    var s1 := Step(s, Click(SignOnly, at[0]));
    SignSteps(s1, s1.run.value, sig, at[..5]);
    var signing := Signing(sig, at[..5])[1..];
    var s2 := After(s1, signing);
    SettledByHand(s2, s2.run.value, at[5]);
    var last := Answer(Settled(Confirmed), at[5]);
    hide Step, Possible, PossibleRun, After, Signing;
    OneStep(s2, last);
    Append(s1, signing, [last]);
    Prepend(s, Click(SignOnly, at[0]), signing + [last]);
    assert Signs(sig, at) == [Click(SignOnly, at[0])] + (signing + [last]);
  }

  lemma SubmitByHand(s: System, at0: int, at1: int)
    requires Possible(s, Click(SubmitOnly, at0)) && at0 <= at1 && F.HasOrder(s.view) && s.view.signature.Some?
    requires s.view.tx == Confirmed
    ensures var run := [Click(SubmitOnly, at0), Answer(Accepted, at1)];
            && PossibleRun(s, run)
            && After(s, run) == System(s.view.(failure := None, stage := Some(Submit), busy := false), None, s.payload,
                                       s.builds, at1, Then(s.log, Submitted(s.view.signature.value)))
  {
    hide Enabled, Throw, PossibleRun, After;
    var e, f := Click(SubmitOnly, at0), Answer(Accepted, at1);
    var s1 := Step(s, e);
    assert s1 == System(s.view.(busy := true, failure := None, stage := Some(Submit)),
                        Some(Run(SubmitOnly, s.view, Submitting, at0, s.view.signature)), s.payload, s.builds, at0,
                        Then(s.log, Submitted(s.view.signature.value)));
    assert Possible(s1, f);
    OneStep(s1, f);
    hide Possible;
    Prepend(s, e, [f]);
    assert [e] + [f] == [e, f];
  }

  lemma VerifyByHand(s: System, p: VerifyPhase, at0: int, at1: int)
    requires Possible(s, Click(VerifyOnly, at0)) && at0 <= at1 && F.HasOrder(s.view) && p in {Verified, TimedOut}
    ensures var run := [Click(VerifyOnly, at0), Answer(Verdict(p), at1)];
            && PossibleRun(s, run)
            && After(s, run) == System(s.view.(failure := None, stage := Some(Verify), verify := p, busy := false),
                                       None, s.payload, s.builds, at1, s.log)
  {
    hide Enabled, Throw, PossibleRun, After;
    var e, f := Click(VerifyOnly, at0), Answer(Verdict(p), at1);
    var s1 := Step(s, e);
    assert s1 == System(s.view.(busy := true, failure := None, stage := Some(Verify), verify := Polling),
                        Some(Run(VerifyOnly, s.view, Polls, at0, s.view.signature)), s.payload, s.builds, at0, s.log);
    assert Possible(s1, f);
    OneStep(s1, f);
    hide Possible;
    Prepend(s, e, [f]);
    assert [e] + [f] == [e, f];
  }

  lemma ReportByHand(s: System, a: AttrPhase, at0: int, at1: int)
    requires Possible(s, Click(ReportOnly, at0)) && at0 <= at1 && F.HasOrder(s.view) && s.view.signature.Some?
    requires a in {Reported, Attributed, NeedsAttention}
    ensures var run := [Click(ReportOnly, at0), Answer(Filed(a), at1)];
            && PossibleRun(s, run)
            && After(s, run) == System(s.view.(failure := None, stage := Some(Attribute), attr := a, busy := false),
                                       None, s.view.signature, s.builds, at1, s.log)
  {
    hide Enabled, Throw, PossibleRun, After;
    var e, f := Click(ReportOnly, at0), Answer(Filed(a), at1);
    var s1 := Step(s, e);
    assert s1 == System(s.view.(busy := true, failure := None, stage := Some(Attribute), attr := Reporting),
                        Some(Run(ReportOnly, s.view, Filing, at0, s.view.signature)), s.view.signature, s.builds, at0,
                        s.log);
    assert Possible(s1, f);
    OneStep(s1, f);
    hide Possible;
    Prepend(s, e, [f]);
    assert [e] + [f] == [e, f];
  }

  // ---- the whole trade

  function EndingOf(p: VerifyPhase, a: AttrPhase, at: seq<int>): seq<Event>
    requires |at| == 6
  {
    [Click(SubmitOnly, at[0]), Answer(Accepted, at[1])]
    + ([Click(VerifyOnly, at[2]), Answer(Verdict(p), at[3])] + [Click(ReportOnly, at[4]), Answer(Filed(a), at[5])])
  }

  /** The buttons after the signature are those of a ticket that shows its trade. */
  predicate MayGoOn(v: View) {
    && IsFilled(v) && !v.guided && !v.busy && v.signature.Some? && v.tx == Confirmed && F.HasOrder(v)
  }

  lemma NextIsOffered(v: View)
    requires MayGoOn(v)
    ensures Enabled(v, SubmitOnly) && Enabled(v, VerifyOnly) && Enabled(v, ReportOnly)
  {
    hide Shown, Flagged;
  }

  lemma EndingByHand(s: System, p: VerifyPhase, a: AttrPhase, at: seq<int>)
    requires |at| == 6 && Rising(at) && s.clock <= at[0] && MayGoOn(s.view)
    requires p in {Verified, TimedOut} && a in {Reported, Attributed, NeedsAttention}
    ensures PossibleRun(s, EndingOf(p, a, at))
    ensures After(s, EndingOf(p, a, at)) == System(
              s.view.(failure := None, stage := Some(Attribute), verify := p, attr := a), None, s.view.signature,
              s.builds, at[5], Then(s.log, Submitted(s.view.signature.value)))
  {
    var r1 := [Click(SubmitOnly, at[0]), Answer(Accepted, at[1])];
    var r2 := [Click(VerifyOnly, at[2]), Answer(Verdict(p), at[3])];
    var r3 := [Click(ReportOnly, at[4]), Answer(Filed(a), at[5])];
    hide Enabled, PossibleRun, After;
    NextIsOffered(s.view);
    SubmitByHand(s, at[0], at[1]);
    var s1 := After(s, r1);
    NextIsOffered(s1.view);
    VerifyByHand(s1, p, at[2], at[3]);
    var s2 := After(s1, r2);
    NextIsOffered(s2.view);
    ReportByHand(s2, a, at[4], at[5]);
    hide Possible;
    Append(s1, r2, r3);
    Append(s, r1, r2 + r3);
  }

  lemma CheckStep(s: System, at: int)
    requires s.view.signature.Some? && Possible(s, Click(CheckOnly, at))
    ensures Step(s, Click(CheckOnly, at)) == System(
              s.view.(busy := true, failure := None, stage := Some(Confirm), tx := Confirming),
              Some(Run(CheckOnly, s.view, Checking, at, s.view.signature)), s.payload, s.builds, at, s.log)
  {
    hide Enabled, Throw;
  }

  lemma CheckedStep(s: System, r: Run, tx: TxPhase, at: int)
    requires s.run == Some(r) && r.kind == CheckOnly && r.await == Checking && r.sig.Some? && s.clock <= at
    requires s.view.failure.None? && s.view.stage == Some(Confirm) && tx in {Confirmed, Pending, Failed, Lapsed}
    ensures var e := Answer(Settled(tx), at);
            && Possible(s, e)
            && Step(s, e).view == s.view.(tx := tx, busy := false,
                                          failure := if tx == Confirmed then None else Some(ConfirmTimeout))
            && Step(s, e).log == if tx == Confirmed then Then(s.log, Observed(r.sig.value)) else s.log
  {
  }

  /** A pending confirmation may be checked again. */
  lemma CheckByHand(s: System, tx: TxPhase, at0: int, at1: int)
    requires IsFilled(s.view) && !s.view.guided && !s.view.busy && s.view.signature.Some? && s.view.tx == Pending
    requires s.clock <= at0 <= at1 && tx in {Confirmed, Pending, Failed, Lapsed}
    ensures var run := [Click(CheckOnly, at0), Answer(Settled(tx), at1)];
            && PossibleRun(s, run)
            && After(s, run).view == s.view.(tx := tx, stage := Some(Confirm), busy := false,
                                             failure := if tx == Confirmed then None else Some(ConfirmTimeout))
            && After(s, run).log == (if tx == Confirmed then Then(s.log, Observed(s.view.signature.value)) else s.log)
  {
    var e, f := Click(CheckOnly, at0), Answer(Settled(tx), at1);
    assert Enabled(s.view, CheckOnly) by {
      hide Shown, Flagged;
    }
    hide Enabled, PossibleRun, After, Step, Possible;
    ClickIsPossible(s, CheckOnly, at0);
    CheckStep(s, at0);
    var s1 := Step(s, e);
    CheckedStep(s1, s1.run.value, tx, at1);
    OneStep(s1, f);
    Prepend(s, e, [f]);
    assert [e] + [f] == [e, f];
  }

  /** Six clicks by hand, each enabled when its turn comes, leave the ticket and the log that three
      guided ones do. */
  lemma TradeByHand(s: System, q: Quote, wallet: Option<string>, sig: string, p: VerifyPhase, a: AttrPhase,
                    at: seq<int>)
    requires |at| == 17 && IsOrderly(s, q, wallet, at, at[5]) && !s.view.guided && !s.view.reviewOpen
    requires p in {Verified, TimedOut} && a in {Reported, Attributed, NeedsAttention}
    ensures var run := Preparing(BuildOnly, q, wallet, at) + (Signs(sig, at[5..11]) + EndingOf(p, a, at[11..]));
            var built := WithBuild(WithQuote(s.view, q, at[1]), 0, wallet);
            && PossibleRun(s, run)
            && After(s, run) == System(WithTrade(built, sig, p, a), None, Some(sig), 1, at[16],
                                       LogOfTrade(LogOfBuild(s.view, q, at), built, at[5], sig))
  {
    var built := WithBuild(WithQuote(s.view, q, at[1]), 0, wallet);
    var first, second, third := Preparing(BuildOnly, q, wallet, at), Signs(sig, at[5..11]), EndingOf(p, a, at[11..]);
    BuildIsReached(s, q, wallet, at, at[5]);
    BuiltGoesOn(s.view, q, at[1], wallet, sig);
    var s1 := After(s, first);
    hide WithBuild, WithQuote, Preparing, Signs, EndingOf, Enabled, MayApprove, After, PossibleRun, IsOrderly, MayGoOn,
         LogOfBuild;
    ClickIsPossible(s1, SignOnly, at[5]);
    assert Rising(at);
    SignByHand(s1, sig, at[5..11]);
    var s2 := After(s1, second);
    EndingByHand(s2, p, a, at[11..]);
    Append(s1, second, third);
    Append(s, first, second + third);
  }

  lemma BuiltGoesOn(v: View, q: Quote, at: int, wallet: Option<string>, sig: string)
    requires IsFilled(v) && !v.guided
    ensures MayGoOn(WithSignature(WithBuild(WithQuote(v, q, at), 0, wallet), sig))
  {
  }
}
