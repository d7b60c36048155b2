/** A guided run from end to end (`runApproveFlow` and `runFinish` of
    src/components/PrimaryBuyPanel.tsx): approved in time, with every answer favourable, an order
    is signed, confirmed, submitted, verified and reported, once each and in that order. */
module TradeFlow {
  import opened Wrappers
  import opened Logs
  import opened TradeState
  import opened TradeTicket

  /** A ticket whose order may be approved, signed and submitted at `at`. */
  predicate MayApprove(v: View, at: int) {
    && IsReady(v) && v.build.Some? && v.build.value.signable && v.build.value.hasOrder
    && v.quote.Some? && v.binding.Some? && GuardAt(v, at, v.binding).Pass?
  }

  /** What a run hears from the confirmation on. */
  function Ending(p: VerifyPhase, a: AttrPhase, at: seq<int>): seq<Event>
    requires |at| == 4
  {
    [Answer(Settled(Confirmed), at[0]), Answer(Accepted, at[1]), Answer(Verdict(p), at[2]), Answer(Filed(a), at[3])]
  }

  /** And before that, from the click on. */
  function Signing(sig: string, at: seq<int>): seq<Event>
    requires |at| == 5
  {
    [Click(ApproveAll, at[0]), Answer(Net(true, true), at[1]), Answer(Cleared, at[2]), Answer(Signed, at[3]),
     Answer(Sent(sig), at[4])]
  }

  predicate Rising(at: seq<int>) {
    forall i, j :: 0 <= i < j < |at| ==> at[i] <= at[j]
  }

  lemma Prepend(s: System, e: Event, rest: seq<Event>)
    requires Possible(s, e) && PossibleRun(Step(s, e), rest)
    ensures PossibleRun(s, [e] + rest) && After(s, [e] + rest) == After(Step(s, e), rest)
  {
    assert ([e] + rest)[1..] == rest;
  }

  lemma {:induction false} Append(s: System, run: seq<Event>, rest: seq<Event>)
    requires PossibleRun(s, run) && PossibleRun(After(s, run), rest)
    ensures PossibleRun(s, run + rest) && After(s, run + rest) == After(After(s, run), rest)
    decreases |run|
  {
    if run == [] {
      assert run + rest == rest;
    } else {
      Append(Step(s, run[0]), run[1..], rest);
      assert (run + rest)[1..] == run[1..] + rest && (run + rest)[0] == run[0];
    }
  }

  lemma OneStep(s: System, e: Event)
    requires Possible(s, e)
    ensures PossibleRun(s, [e]) && After(s, [e]) == Step(s, e)
  {
    assert [e][1..] == [];
  }

  /** A run that waits for its confirmation. */
  predicate Confirming(s: System, r: Run) {
    && s.run == Some(r) && r.kind in {ApproveAll, FinishAll} && r.await in {Settling, Checking}
    && r.sig.Some? && IsReady(r.seen) && r.seen.build.Some? && r.seen.build.value.hasOrder
  }

  lemma SettledStep(s: System, r: Run, at: int)
    requires Confirming(s, r) && s.clock <= at
    ensures var e := Answer(Settled(Confirmed), at);
            Possible(s, e) &&
            Step(s, e) == System(
              s.view.(tx := Confirmed, stage := Some(Submit)),
              Some(Run(r.kind, r.seen, Submitting, at, r.sig)), s.payload, s.builds, at,
              Then(Then(s.log, Observed(r.sig.value)), Submitted(r.sig.value)))
  {
    hide Throw;
  }

  lemma AcceptedStep(s: System, r: Run, at: int)
    requires s.run == Some(r) && r.await == Submitting && r.kind in {ApproveAll, FinishAll} && s.clock <= at
    requires IsReady(r.seen) && r.seen.build.Some? && r.seen.build.value.hasOrder
    ensures var e := Answer(Accepted, at);
            Possible(s, e) &&
            Step(s, e) == System(
              s.view.(verify := Polling, stage := Some(Verify)),
              Some(Run(r.kind, r.seen, Polls, at, r.sig)), s.payload, s.builds, at, s.log)
  {
    hide Throw;
  }

  lemma VerdictStep(s: System, r: Run, p: VerifyPhase, at: int)
    requires s.run == Some(r) && r.await == Polls && r.kind in {ApproveAll, FinishAll} && s.clock <= at
    requires IsReady(r.seen) && r.seen.build.Some? && r.sig.Some? && p in {Verified, TimedOut}
    ensures var e := Answer(Verdict(p), at);
            Possible(s, e) &&
            Step(s, e) == System(
              s.view.(verify := p, attr := Reporting, stage := Some(Attribute)),
              Some(Run(r.kind, r.seen, Filing, at, r.sig)), r.sig, s.builds, at, s.log)
  {
    hide Throw;
  }

  lemma FiledStep(s: System, r: Run, a: AttrPhase, at: int)
    requires s.run == Some(r) && r.await == Filing && s.clock <= at && a in {Reported, Attributed, NeedsAttention}
    ensures var e := Answer(Filed(a), at);
            Possible(s, e) &&
            Step(s, e) == System(s.view.(attr := a, busy := false), None, s.payload, s.builds, at, s.log)
  {
  }

  /** A submitted order is verified and reported. */
  lemma SubmittedCarriesThrough(s: System, r: Run, p: VerifyPhase, a: AttrPhase, at: seq<int>)
    requires s.run == Some(r) && r.await == Submitting && r.kind in {ApproveAll, FinishAll} && r.sig.Some?
    requires IsReady(r.seen) && r.seen.build.Some? && r.seen.build.value.hasOrder
    requires |at| == 4 && s.clock <= at[1] && Rising(at)
    requires p in {Verified, TimedOut} && a in {Reported, Attributed, NeedsAttention}
    ensures PossibleRun(s, Ending(p, a, at)[1..])
    ensures After(s, Ending(p, a, at)[1..]) == System(
              s.view.(verify := p, attr := a, stage := Some(Attribute), busy := false),
              None, r.sig, s.builds, at[3], s.log)
  {
    var e := Ending(p, a, at);
    AcceptedStep(s, r, at[1]);
    var s2 := Step(s, e[1]);
    VerdictStep(s2, s2.run.value, p, at[2]);
    var s3 := Step(s2, e[2]);
    FiledStep(s3, s3.run.value, a, at[3]);
    hide Step, Possible, PossibleRun, After;
    OneStep(s3, e[3]);
    Prepend(s2, e[2], [e[3]]);
    Prepend(s, e[1], [e[2]] + [e[3]]);
    assert e[1..] == [e[1]] + ([e[2]] + [e[3]]);
  }

  /** A confirmed signature is submitted, verified and reported. */
  lemma EndingCarriesThrough(s: System, r: Run, p: VerifyPhase, a: AttrPhase, at: seq<int>)
    requires Confirming(s, r) && |at| == 4 && s.clock <= at[0] && Rising(at)
    requires p in {Verified, TimedOut} && a in {Reported, Attributed, NeedsAttention}
    ensures PossibleRun(s, Ending(p, a, at))
    ensures After(s, Ending(p, a, at)) == System(
              s.view.(tx := Confirmed, verify := p, attr := a, stage := Some(Attribute), busy := false),
              None, r.sig, s.builds, at[3],
              Then(Then(s.log, Observed(r.sig.value)), Submitted(r.sig.value)))
  {
    var e := Ending(p, a, at);
    SettledStep(s, r, at[0]);
    var s1 := Step(s, e[0]);
    SubmittedCarriesThrough(s1, s1.run.value, p, a, at);
    hide Step, Possible, PossibleRun, After;
    Prepend(s, e[0], e[1..]);
    assert e == [e[0]] + e[1..];
  }

  /** A later run finishes a trade that has its signature: it checks the confirmation, if that is
      still open, and goes on as above. */
  lemma FinishCarriesThrough(s: System, p: VerifyPhase, a: AttrPhase, at: seq<int>)
    requires |at| == 5 && Rising(at) && Possible(s, Click(FinishAll, at[0]))
    requires IsReady(s.view) && s.view.build.Some? && s.view.build.value.hasOrder && s.view.signature.Some?
    requires p in {Verified, TimedOut} && a in {Reported, Attributed, NeedsAttention}
    ensures var sig, open := s.view.signature.value, s.view.tx != Confirmed;
            var ending := Ending(p, a, at[1..]);
            var run := [Click(FinishAll, at[0])] + if open then ending else ending[1..];
            && PossibleRun(s, run)
            && After(s, run) == System(
                 s.view.(failure := None, tx := Confirmed, verify := p, attr := a, stage := Some(Attribute),
                         busy := false),
                 None, s.view.signature, s.builds, at[4],
                 Then(if open then Then(s.log, Observed(sig)) else s.log, Submitted(sig)))
  {
    FinishStep(s, at[0]);
    var s1 := Step(s, Click(FinishAll, at[0]));
    var ending := Ending(p, a, at[1..]);
    if s.view.tx != Confirmed {
      EndingCarriesThrough(s1, s1.run.value, p, a, at[1..]);
    } else {
      SubmittedCarriesThrough(s1, s1.run.value, p, a, at[1..]);
    }
    hide Step, Possible, PossibleRun, After, Ending;
    Prepend(s, Click(FinishAll, at[0]), if s.view.tx != Confirmed then ending else ending[1..]);
  }

  lemma FinishStep(s: System, at: int)
    requires Possible(s, Click(FinishAll, at)) && s.view.signature.Some?
    requires IsReady(s.view) && s.view.build.Some? && s.view.build.value.hasOrder
    ensures var open := s.view.tx != Confirmed;
            Step(s, Click(FinishAll, at)) == System(
              s.view.(busy := true, failure := None, stage := Some(if open then Confirm else Submit),
                      tx := if open then TxPhase.Confirming else Confirmed),
              Some(Run(FinishAll, s.view, if open then Checking else Submitting, at, s.view.signature)),
              s.payload, s.builds, at, if open then s.log else Then(s.log, Submitted(s.view.signature.value)))
  {
    hide Enabled, Throw;
  }

  lemma ApproveStep(s: System, at: int)
    requires Possible(s, Click(ApproveAll, at)) && MayApprove(s.view, at)
    ensures Step(s, Click(ApproveAll, at)) == System(
              s.view.(busy := true, failure := None, stage := Some(Sign), reviewOpen := false),
              Some(Run(ApproveAll, s.view, SignNet, at, None)), s.payload, s.builds, at, s.log)
  {
    hide Enabled, GuardAt, Throw, Refuse;
  }

  lemma NetStep(s: System, r: Run, at: int)
    requires s.run == Some(r) && r.await == SignNet && s.clock <= at
    ensures var e := Answer(Net(true, true), at);
            Possible(s, e) &&
            Step(s, e) == System(s.view.(check := Some(true)), Some(r.(await := Preflight)), s.payload, s.builds, at,
                                 s.log)
  {
  }

  lemma ClearedStep(s: System, r: Run, at: int)
    requires s.run == Some(r) && r.await == Preflight && r.seen.build.Some? && s.clock <= at
    ensures var e := Answer(Cleared, at);
            Possible(s, e) &&
            Step(s, e) == System(s.view, Some(r.(await := ForWallet)), s.payload, s.builds, at,
                                 Then(s.log, WalletAsked(r.seen.build.value.no, r.seen, r.guardedAt)))
  {
  }

  lemma SentSteps(s: System, r: Run, sig: string, at3: int, at4: int)
    requires s.run == Some(r) && r.await == ForWallet && r.seen.build.Some? && s.clock <= at3 <= at4
    ensures var e, f := Answer(Signed, at3), Answer(Sent(sig), at4);
            Possible(s, e) && Possible(Step(s, e), f) &&
            Step(Step(s, e), f) == System(
              s.view.(signature := Some(sig), tx := TxPhase.Confirming, stage := Some(Confirm)),
              Some(r.(await := Settling, sig := Some(sig))), s.payload, s.builds, at4,
              Then(s.log, Recorded(r.seen.build.value.no, sig)))
  {
  }

  lemma SignSteps(s: System, r: Run, sig: string, at: seq<int>)
    requires s.run == Some(r) && r.await == SignNet && r.seen.build.Some? && |at| == 5 && s.clock <= at[1] && Rising(at)
    ensures PossibleRun(s, Signing(sig, at)[1..])
    ensures After(s, Signing(sig, at)[1..]) == System(
              s.view.(check := Some(true), signature := Some(sig), tx := TxPhase.Confirming, stage := Some(Confirm)),
              Some(r.(await := Settling, sig := Some(sig))), s.payload, s.builds, at[4],
              Then(Then(s.log, WalletAsked(r.seen.build.value.no, r.seen, r.guardedAt)),
                   Recorded(r.seen.build.value.no, sig)))
  {
    hide Step, Possible, PossibleRun, After;
    var e := Signing(sig, at);
    NetStep(s, r, at[1]);
    var s2 := Step(s, e[1]);
    ClearedStep(s2, s2.run.value, at[2]);
    var s3 := Step(s2, e[2]);
    SentSteps(s3, s3.run.value, sig, at[3], at[4]);
    var s4 := Step(s3, e[3]);
    OneStep(s4, e[4]);
    Prepend(s3, e[3], [e[4]]);
    Prepend(s2, e[2], [e[3]] + [e[4]]);
    Prepend(s, e[1], [e[2]] + ([e[3]] + [e[4]]));
    assert e[1..] == [e[1]] + ([e[2]] + ([e[3]] + [e[4]]));
  }

  /** The view once the trade is reported. */
  function WithTrade(v: View, sig: string, p: VerifyPhase, a: AttrPhase): View {
    v.(failure := None, reviewOpen := false, check := Some(true), signature := Some(sig), tx := Confirmed, verify := p,
       attr := a, stage := Some(Attribute), busy := false)
  }

  /** The prompt, the signature, its confirmation and its order. */
  function LogOfTrade(log: TradeTicket.Log, v: View, at: int, sig: string): TradeTicket.Log
    requires v.build.Some?
  {
    var no := v.build.value.no;
    Then(Then(Then(Then(log, WalletAsked(no, v, at)), Recorded(no, sig)), Observed(sig)), Submitted(sig))
  }

  /** An order approved in time, in a view that is ready for it, is signed, confirmed, submitted,
      verified and reported; the ticket shows each outcome as it was answered and is free again. */
  lemma ApprovalCarriesThrough(s: System, sig: string, p: VerifyPhase, a: AttrPhase, at: seq<int>)
    requires |at| == 9 && Rising(at)
    requires Possible(s, Click(ApproveAll, at[0])) && MayApprove(s.view, at[0])
    requires p in {Verified, TimedOut} && a in {Reported, Attributed, NeedsAttention}
    ensures var run := Signing(sig, at[..5]) + Ending(p, a, at[5..]);
            && PossibleRun(s, run)
            && After(s, run) == System(WithTrade(s.view, sig, p, a), None, Some(sig), s.builds, at[8],
                                       LogOfTrade(s.log, s.view, at[0], sig))
  {
    var first, second := Signing(sig, at[..5]), Ending(p, a, at[5..]);
    ApproveStep(s, at[0]);
    var s1 := Step(s, first[0]);
    var r := s1.run.value;
    SignSteps(s1, r, sig, at[..5]);
    var s2 := After(s1, first[1..]);
    EndingCarriesThrough(s2, s2.run.value, p, a, at[5..]);
    hide Step, Possible, PossibleRun, After, Signing, Ending;
    Prepend(s, first[0], first[1..]);
    assert first == [first[0]] + first[1..];
    Append(s, first, second);
  }

  // ---- from the opened ticket on

  /** Inputs with which a quote may be asked for and an order built. */
  predicate IsFilled(v: View) {
    && IsReady(v) && v.formed && v.closed.None?
    && v.inputs.amount.Some? && v.inputs.slippage.Some? && v.inputs.wallet.value != ""
  }

  /** An idle ticket right after its quote. */
  function WithQuote(v: View, q: Quote, at: int): View
    requires v.inputs.wallet.Some?
  {
    Reset(v.(quote := Some(q), quoteWallet := v.inputs.wallet, receivedAt := at, shown := at, failure := None,
             stage := Some(Quoting), reviewOpen := false, busy := false))
  }

  /** How a build is asked for, guided or by hand. */
  function BuildKind(v: View): Kind {
    if v.guided then BuildAndReview else BuildOnly
  }

  /** And right after its build, which opens the review of a guided ticket. */
  function WithBuild(v: View, no: nat, wallet: Option<string>): View
    requires v.inputs.wallet.Some? && v.inputs.slippage.Some?
  {
    v.(build := Some(Build(no, true, true)),
       binding := Some(BuildBinding(v.inputs.wallet.value, v.inputs.slippage.value, wallet)), check := Some(true),
       signature := None, tx := Unsent, verify := Unverified, attr := Unreported, failure := None,
       stage := Some(Building), reviewOpen := v.guided || v.reviewOpen, busy := false)
  }

  lemma QuoteSteps(s: System, q: Quote, at0: int, at1: int)
    requires IsFilled(s.view) && !s.view.busy && s.run.None? && s.clock <= at0 <= at1
    ensures var run := [Click(AskForQuote, at0), Answer(GotQuote(q), at1)];
            && PossibleRun(s, run)
            && After(s, run) == System(WithQuote(s.view, q, at1), None, s.payload, s.builds, at1,
                                       Then(s.log, Quoted(q, s.view.inputs.wallet.value, at1)))
  {
    var run := [Click(AskForQuote, at0), Answer(GotQuote(q), at1)];
    assert Possible(s, run[0]) by {
      hide Shown, Flagged;
    }
    var s1 := Step(s, run[0]);
    assert s1 == System(
        s.view.(busy := true, failure := None, stage := Some(Quoting), reviewOpen := false),
        Some(Run(AskForQuote, s.view, ForQuote, at0, None)), s.payload, s.builds, at0, s.log) by {
      hide Enabled, Throw;
    }
    assert Possible(s1, run[1]);
    hide Enabled, PossibleRun, After;
    OneStep(s1, run[1]);
    hide Step, Possible;
    Prepend(s, run[0], [run[1]]);
    assert run == [run[0]] + [run[1]];
  }

  /** A fresh quote of what the inputs ask for passes the guard until its deadline, and it may be
      built. */
  lemma QuoteIsOffered(v: View, q: Quote, at: int, now: int)
    requires IsFilled(v) && IsQuoted(q, v.inputs.wallet.value, v.inputs)
    requires 0 < at < Deadline(q.expiry, at) && now < Deadline(q.expiry, at)
    ensures var w := WithQuote(v, q, at); GuardAt(w, now, None).Pass? && Enabled(w, BuildKind(w))
  {
    var w := WithQuote(v, q, at);
    PassIff(w.quote, BindingAt(w, now), w.inputs, now, None);
    PassIff(w.quote, BindingAt(w, at), w.inputs, at, None);
    FlagsAreTheGuard(w);
    hide QuoteGuard, QuoteRanOut, QuoteIsStale, BuildIsStale;
    assert LiveGuard(w).Pass?;
    assert !Flagged(w);
  }

  lemma BuildSteps(s: System, wallet: Option<string>, at: seq<int>)
    requires |at| == 3 && Rising(at) && s.clock <= at[0] && s.run.None?
    requires IsFilled(s.view) && Enabled(s.view, BuildKind(s.view)) && s.view.quote.Some?
    requires GuardAt(s.view, at[0], None).Pass? && GuardAt(s.view, at[2], None).Pass?
    ensures var run := [Click(BuildKind(s.view), at[0]), Answer(Net(true, true), at[1]),
                        Answer(GotBuild(true, true, wallet, true), at[2])];
            && PossibleRun(s, run)
            && After(s, run) == System(WithBuild(s.view, s.builds, wallet), None, s.payload, s.builds + 1, at[2],
                                       Then(s.log, Stored(s.builds, s.view, at[0], at[2])))
  {
    hide Enabled, GuardAt, Throw, Refuse, PossibleRun, After;
    var kind := BuildKind(s.view);
    var run := [Click(kind, at[0]), Answer(Net(true, true), at[1]), Answer(GotBuild(true, true, wallet, true), at[2])];
    var s1 := Step(s, run[0]);
    var v1 := s.view.(busy := true, failure := None, stage := Some(Building));
    var r := Run(kind, s.view, BuildNet, at[0], None);
    assert s1 == System(v1, Some(r), s.payload, s.builds, at[0], s.log);
    var s2 := Step(s1, run[1]);
    assert s2 == System(v1, Some(r.(await := ForBuild)), s.payload, s.builds, at[1], s.log);
    StoreStep(s2, s2.run.value, wallet, at[2]);
    hide Step;
    OneStep(s2, run[2]);
    hide Possible;
    Prepend(s1, run[1], [run[2]]);
    Prepend(s, run[0], [run[1]] + [run[2]]);
    assert run == [run[0]] + ([run[1]] + [run[2]]);
  }

  lemma StoreStep(s: System, r: Run, wallet: Option<string>, at: int)
    requires s.run == Some(r) && r.kind == BuildKind(s.view) && r.await == ForBuild && s.clock <= at
    requires r.seen.inputs.wallet.Some? && r.seen.inputs.slippage.Some? && r.seen.inputs == s.view.inputs
    requires GuardAt(r.seen, at, None).Pass? && s.view.failure.None? && s.view.stage == Some(Building)
    ensures var e := Answer(GotBuild(true, true, wallet, true), at);
            && Possible(s, e)
            && Step(s, e) == System(WithBuild(s.view, s.builds, wallet), None, s.payload, s.builds + 1, at,
                                    Then(s.log, Stored(s.builds, r.seen, r.guardedAt, at)))
  {
    hide GuardAt, Throw, Refuse;
  }

  /** A build made for the inputs may be approved from its review, or signed by hand. */
  lemma BuildIsOffered(v: View, q: Quote, at: int, no: nat, wallet: Option<string>, now: int)
    requires IsFilled(v) && IsQuoted(q, v.inputs.wallet.value, v.inputs) && wallet in {None, v.inputs.wallet}
    requires 0 < at < Deadline(q.expiry, at) && now < Deadline(q.expiry, at)
    ensures var w := WithBuild(WithQuote(v, q, at), no, wallet);
            MayApprove(w, now) && Enabled(w, if v.guided then ApproveAll else SignOnly)
  {
    var w := WithBuild(WithQuote(v, q, at), no, wallet);
    PassIff(w.quote, BindingAt(w, now), w.inputs, now, w.binding);
    PassIff(w.quote, BindingAt(w, at), w.inputs, at, w.binding);
    FlagsAreTheGuard(w);
    hide QuoteGuard, QuoteRanOut, QuoteIsStale, BuildIsStale, Derive, OfferOf;
    assert LiveGuard(w).Pass?;
    assert !Flagged(w);
  }

  /** A quote and a build of it. */
  function Preparing(kind: Kind, q: Quote, wallet: Option<string>, at: seq<int>): seq<Event>
    requires |at| >= 5
  {
    [Click(AskForQuote, at[0]), Answer(GotQuote(q), at[1])]
    + [Click(kind, at[2]), Answer(Net(true, true), at[3]), Answer(GotBuild(true, true, wallet, true), at[4])]
  }

  function LogOfBuild(v: View, q: Quote, at: seq<int>): TradeTicket.Log
    requires |at| >= 5 && v.inputs.wallet.Some?
  {
    Then(Then(Begin, Quoted(q, v.inputs.wallet.value, at[1])),
         Stored(0, WithQuote(v, q, at[1]), at[2], at[4]))
  }

  /** What a trade asks of the opened ticket, the quote and the build, with the last click before the
      deadline at `last`. */
  predicate IsOrderly(s: System, q: Quote, wallet: Option<string>, at: seq<int>, last: int)
    requires |at| >= 5
  {
    && Opened(s) && IsFilled(s.view) && IsQuoted(q, s.view.inputs.wallet.value, s.view.inputs)
    && wallet in {None, s.view.inputs.wallet}
    && Rising(at) && s.clock <= at[0] && at[4] <= last < Deadline(q.expiry, at[1])
  }

  lemma BuildIsReached(s: System, q: Quote, wallet: Option<string>, at: seq<int>, last: int)
    requires |at| >= 5 && IsOrderly(s, q, wallet, at, last)
    ensures var run := Preparing(BuildKind(s.view), q, wallet, at);
            var built := WithBuild(WithQuote(s.view, q, at[1]), 0, wallet);
            && PossibleRun(s, run)
            && After(s, run) == System(built, None, s.payload, 1, at[4], LogOfBuild(s.view, q, at))
            && MayApprove(built, last) && Enabled(built, if s.view.guided then ApproveAll else SignOnly)
  {
    var r1 := [Click(AskForQuote, at[0]), Answer(GotQuote(q), at[1])];
    var r2 := [Click(BuildKind(s.view), at[2]), Answer(Net(true, true), at[3]),
               Answer(GotBuild(true, true, wallet, true), at[4])];
    QuoteSteps(s, q, at[0], at[1]);
    var s1 := After(s, r1);
    QuoteIsOffered(s.view, q, at[1], at[2]);
    QuoteIsOffered(s.view, q, at[1], at[4]);
    BuildIsOffered(s.view, q, at[1], 0, wallet, last);
    hide PossibleRun, After, Enabled, GuardAt, Reset, MayApprove;
    BuildSteps(s1, wallet, at[2..5]);
    Append(s, r1, r2);
  }

  /** Three clicks on a ticket just opened and filled in, with favourable answers, a quote of what
      was asked for and the last click before its deadline: every button is enabled when its
      turn comes, and the trade ends signed, confirmed, verified and reported as answered. */
  lemma TradeCarriesThrough(s: System, q: Quote, wallet: Option<string>, sig: string, p: VerifyPhase, a: AttrPhase,
                            at: seq<int>)
    requires |at| == 14 && IsOrderly(s, q, wallet, at, at[5]) && s.view.guided
    requires p in {Verified, TimedOut} && a in {Reported, Attributed, NeedsAttention}
    ensures var run := Preparing(BuildAndReview, q, wallet, at) + (Signing(sig, at[5..10]) + Ending(p, a, at[10..]));
            var review := WithBuild(WithQuote(s.view, q, at[1]), 0, wallet);
            && PossibleRun(s, run)
            && After(s, run) == System(WithTrade(review, sig, p, a), None, Some(sig), 1, at[13],
                                       LogOfTrade(LogOfBuild(s.view, q, at), review, at[5], sig))
  {
    var review := WithBuild(WithQuote(s.view, q, at[1]), 0, wallet);
    var first, rest := Preparing(BuildAndReview, q, wallet, at), Signing(sig, at[5..10]) + Ending(p, a, at[10..]);
    BuildIsReached(s, q, wallet, at, at[5]);
    var s1 := After(s, first);
    hide *;
    ReviewCarriesThrough(s1, review, sig, p, a, at);
    Append(s, first, rest);
  }

  lemma ReviewCarriesThrough(s: System, review: View, sig: string, p: VerifyPhase, a: AttrPhase, at: seq<int>)
    requires |at| == 14 && Rising(at) && s.clock <= at[5] && s.view == review && s.run.None?
    requires MayApprove(review, at[5]) && Enabled(review, ApproveAll)
    requires p in {Verified, TimedOut} && a in {Reported, Attributed, NeedsAttention}
    ensures var run := Signing(sig, at[5..10]) + Ending(p, a, at[10..]);
            && PossibleRun(s, run)
            && After(s, run) == System(WithTrade(review, sig, p, a), None, Some(sig), s.builds, at[13],
                                       LogOfTrade(s.log, review, at[5], sig))
  {
    hide PossibleRun, After, Enabled, MayApprove, Signing, Ending, Possible, WithTrade, LogOfTrade;
    ClickIsPossible(s, ApproveAll, at[5]);
    ApprovalCarriesThrough(s, sig, p, a, at[5..]);
    assert at[5..][..5] == at[5..10] && at[5..][5..] == at[10..];
  }

  lemma ClickIsPossible(s: System, kind: Kind, at: int)
    requires Enabled(s.view, kind) && s.clock <= at
    ensures Possible(s, Click(kind, at))
  {
  }

  lemma RetryIsOffered(v: View)
    requires v.signature.Some? && v.tx == Confirmed && v.attr == NeedsAttention && v.failure.None?
    requires v.closed.None? && !v.busy
    ensures Enabled(v, RetryReport)
  {
    OfferedIff(Facts(v));
    hide Derive, OfferOf, QuoteRanOut, QuoteIsStale, BuildIsStale;
  }

  lemma RetryStep(s: System, at: int)
    requires s.view.signature.Some? && s.payload == s.view.signature && s.view.tx == Confirmed
    requires Possible(s, Click(RetryReport, at))
    ensures Step(s, Click(RetryReport, at)) == System(
              s.view.(busy := true, failure := None, attr := Reporting, stage := Some(Attribute)),
              Some(Run(RetryReport, s.view, Filing, at, s.payload)), s.payload, s.builds, at, s.log)
  {
    hide Enabled, Throw;
  }

  /** A report that Panta kept refusing may be sent again, as it was, and its answer is shown. */
  lemma RetryCarriesThrough(s: System, a: AttrPhase, at0: int, at1: int)
    requires s.view.signature.Some? && s.payload == s.view.signature && s.view.tx == Confirmed && !s.view.busy
    requires s.view.attr == NeedsAttention && s.view.failure.None? && s.view.closed.None?
    requires s.clock <= at0 <= at1 && a in {Reported, Attributed, NeedsAttention}
    ensures var run := [Click(RetryReport, at0), Answer(Filed(a), at1)];
            && PossibleRun(s, run)
            && After(s, run) == System(s.view.(attr := a, stage := Some(Attribute)), None, s.payload, s.builds, at1,
                                       s.log)
  {
    var e, f := Click(RetryReport, at0), Answer(Filed(a), at1);
    hide Enabled, PossibleRun, After, Step, Possible;
    RetryIsOffered(s.view);
    ClickIsPossible(s, RetryReport, at0);
    RetryStep(s, at0);
    var s1 := Step(s, e);
    FiledStep(s1, s1.run.value, a, at1);
    OneStep(s1, f);
    Prepend(s, e, [f]);
    assert [e] + [f] == [e, f];
  }
}
