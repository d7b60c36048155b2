/** How a run of the trade ticket fails (src/components/PrimaryBuyPanel.tsx), told by what it
    waited for: the source decides by the stage it last set. */
module TradeFailures {
  import opened Wrappers
  import opened TradeState
  import opened TradeTicket

  /** An error while waiting for each thing. */
  function ThrownAt(await: Await, e: Error): State {
    match await
    case ForQuote => if e.pricing then QuoteUnavailable else QuoteFailed
    case BuildNet | ForBuild => if e.pricing then BuildUnavailable else BuildFailed
    case SignNet | Preflight | ForWallet => if e.rejection then SignatureRejected else SignFailed
    case Sending => if e.rejection then SignatureRejected else BroadcastFailed
    case Settling | Checking => ConfirmTimeout
    case Submitting | Filing => SubmitFailed
    case Polls => VerifyFailed
  }

  /** An order can be submitted and verified: the wallet is ready, and the build has an order. */
  predicate HasOrder(v: View) {
    IsReady(v) && v.build.Some? && v.build.value.hasOrder
  }

  predicate IsGuided(kind: Kind) {
    kind in {ApproveAll, FinishAll}
  }

  /** The failure that an answer leaves on the ticket, if any. */
  function FailureOf(r: Run, reply: Reply, at: int): Option<State> {
    match reply
    case Threw(e) => Some(ThrownAt(r.await, e))
    case Net(ok, checkOk) => if !ok || (r.await == SignNet && !checkOk) then Some(PresignFailed) else None
    case Stopped => Some(PresignFailed)
    case GotBuild(_, _, _, checkOk) =>
      var guard := GuardAt(r.seen, at, None);
      if guard == Stale(Expired) then Some(QuoteExpired)
      else if guard.Stale? || !checkOk then Some(PresignFailed)
      else None
    case Settled(tx) =>
      if tx != Confirmed then Some(ConfirmTimeout)
      else if IsGuided(r.kind) && !HasOrder(r.seen) then Some(SubmitFailed)
      else None
    case Accepted => if IsGuided(r.kind) && !HasOrder(r.seen) then Some(VerifyFailed) else None
    case Verdict(phase) =>
      var goesOn := IsGuided(r.kind) || (r.kind == Recheck && r.seen.attr == Unreported);
      if phase == Refused then Some(VerifyFailed)
      else if goesOn && (!IsReady(r.seen) || r.sig.None? || r.seen.build.None?) then Some(SubmitFailed)
      else None
    case _ => None
  }

  lemma StageOfRun(s: System, r: Run)
    requires RunFits(s, r)
    ensures s.view.stage == Some(match r.await
                                 case ForQuote => Quoting
                                 case BuildNet | ForBuild => Building
                                 case SignNet | Preflight | ForWallet => Sign
                                 case Sending => Broadcast
                                 case Settling | Checking => Confirm
                                 case Submitting => Submit
                                 case Polls => Verify
                                 case Filing => Attribute)
  {
    hide GuardAt, Arrived;
  }

  lemma ThrowLeaves(s: System, e: Error, presign: bool)
    ensures Throw(s, e, presign).view.failure == Some(Classify(s.view.stage, e, presign))
  {
    hide Classify;
  }

  lemma RefuseLeaves(s: System, reason: Reason, at: int)
    requires s.view.stage == Some(Building)
    ensures Refuse(s, reason, at).view.failure == Some(if reason == Expired then QuoteExpired else PresignFailed)
  {
    ThrowLeaves(s.(view := s.view.(shown := at)), PLAIN, true);
    hide Throw;
  }

  lemma SubmitLeaves(s: System, kind: Kind, seen: View, sig: Option<string>)
    requires s.view.failure.None? && sig.Some?
    ensures StartSubmit(s, kind, seen, sig, true).view.failure == if HasOrder(seen) then None else Some(SubmitFailed)
  {
    ThrowLeaves(At(s, Submit), PLAIN, false);
    hide Throw, IsReady;
  }

  lemma VerifyLeaves(s: System, kind: Kind, seen: View, sig: Option<string>)
    requires s.view.failure.None?
    ensures StartVerify(s, kind, seen, sig).view.failure == if HasOrder(seen) then None else Some(VerifyFailed)
  {
    ThrowLeaves(At(s, Verify), PLAIN, false);
    hide Throw, IsReady;
  }

  lemma ReportLeaves(s: System, kind: Kind, seen: View, sig: Option<string>)
    requires s.view.failure.None?
    ensures StartReport(s, kind, seen, sig).view.failure
         == if IsReady(seen) && sig.Some? && seen.build.Some? then None else Some(SubmitFailed)
  {
    ThrowLeaves(At(s, Attribute), PLAIN, false);
    hide Throw, IsReady;
  }

  lemma ThrewFails(s: System, r: Run, reply: Reply)
    requires RunFits(s, r) && reply.Threw?
    ensures Resume(s, r, reply).view.failure == FailureOf(r, reply, s.clock)
  {
    StageOfRun(s, r);
    hide RunFits;
  }

  lemma BuildFails(s: System, r: Run, b: Reply)
    requires s.view.stage == Some(Building) && s.view.failure.None?
    requires b.GotBuild? && r.seen.inputs.wallet.Some? && r.seen.inputs.slippage.Some?
    ensures AfterBuild(s, r, b).view.failure == FailureOf(r, b, s.clock)
  {
    var g := GuardAt(r.seen, s.clock, None);
    hide GuardAt, Throw, Refuse;
    if g.Stale? {
      RefuseLeaves(s, g.reason, s.clock);
    } else {
      ThrowLeaves(Store(s, r, b), PLAIN, true);
    }
  }

  lemma SigningFails(s: System, r: Run, reply: Reply)
    requires RunFits(s, r) && Fits(r, reply) && !reply.Threw? && s.view.failure.None?
    requires r.await in {BuildNet, SignNet, Preflight}
    ensures Resume(s, r, reply).view.failure == FailureOf(r, reply, s.clock)
  {
    StageOfRun(s, r);
    ThrowLeaves(s, PLAIN, true);
    if r.await == SignNet {
      ThrowLeaves(s.(view := s.view.(check := Some(reply.checkOk))), PLAIN, true);
    }
    hide RunFits, GuardAt, Throw;
  }

  lemma NothingFails(s: System, r: Run, reply: Reply)
    requires Fits(r, reply) && !reply.Threw? && s.view.failure.None?
    requires r.await in {ForQuote, ForWallet, Sending, Filing}
    ensures Resume(s, r, reply).view.failure == FailureOf(r, reply, s.clock)
  {
  }

  lemma SettlingFails(s: System, r: Run, tx: TxPhase)
    requires s.view.stage == Some(Confirm) && s.view.failure.None? && r.sig.Some?
    ensures AfterSettling(s, r, tx).view.failure == FailureOf(r, Settled(tx), s.clock)
  {
    hide GuardAt, ThrownAt, Throw, StartSubmit, HasOrder;
    var t := s.(view := s.view.(tx := tx));
    ThrowLeaves(t, PLAIN, false);
    SubmitLeaves(Note(t, Observed(r.sig.value)), r.kind, r.seen, r.sig);
  }

  lemma VerdictFails(s: System, r: Run, phase: VerifyPhase)
    requires s.view.stage == Some(Verify) && s.view.failure.None?
    ensures AfterVerdict(s, r, phase).view.failure == FailureOf(r, Verdict(phase), s.clock)
  {
    hide GuardAt, ThrownAt, Throw, StartReport, IsReady;
    var t := s.(view := s.view.(verify := phase));
    if phase == Refused {
      ThrowLeaves(t, PLAIN, false);
      assert AfterVerdict(s, r, phase) == Throw(t, PLAIN, false);
    } else {
      ReportLeaves(t, r.kind, r.seen, r.sig);
      assert AfterVerdict(s, r, phase) in {StartReport(t, r.kind, r.seen, r.sig), Done(t)};
    }
  }

  lemma ResumeFails(s: System, r: Run, reply: Reply)
    requires RunFits(s, r) && Fits(r, reply) && s.view.failure.None?
    ensures Resume(s, r, reply).view.failure == FailureOf(r, reply, s.clock)
  {
    hide RunFits, FailureOf, AfterBuild, AfterSettling, AfterVerdict, AfterQuote, AfterSend, StartVerify, Throw;
    if reply.Threw? {
      ThrewFails(s, r, reply);
    } else {
      StageOfRun(s, r);
      match r.await
      case ForBuild => BuildFails(s, r, reply);
      case Settling | Checking => SettlingFails(s, r, reply.tx);
      case Submitting => AcceptedFails(s, r);
      case Polls => VerdictFails(s, r, reply.phase);
      case BuildNet | SignNet | Preflight => SigningFails(s, r, reply);
      case _ => NothingFails(s, r, reply);
    }
  }

  lemma AcceptedFails(s: System, r: Run)
    requires r.await == Submitting && s.view.failure.None?
    ensures Resume(s, r, Accepted).view.failure == FailureOf(r, Accepted, s.clock)
  {
    VerifyLeaves(s, r.kind, r.seen, r.sig);
    hide StartVerify, HasOrder, Throw;
  }

  /** Every answer leaves the failure of the step it answers, and none if that went well. */
  lemma AnswerFails(s: System, reply: Reply, at: int)
    requires Invariant(s) && Possible(s, Answer(reply, at))
    ensures Step(s, Answer(reply, at)).view.failure == FailureOf(s.run.value, reply, at)
  {
    var u, r := s.(clock := at), s.run.value;
    WaitingFacts(s, at);
    assert u.view.failure.None? && Fits(r, reply) && Step(s, Answer(reply, at)) == Resume(u, r, reply) by {
      hide Settles, RunFits, Resume, FailureOf;
    }
    ResumeFails(u, r, reply);
  }

  /** How the guard refuses. */
  function RefusalOf(guard: Guard): Option<State> {
    match guard
    case Pass => None
    case Stale(reason) => Some(if reason == Expired then QuoteExpired else PresignFailed)
  }

  /** The failure of a click that does not get to its first await. */
  function ClickFailure(v: View, kind: Kind, at: int): Option<State> {
    match kind
    case AskForQuote => if IsReady(v) && v.formed && v.inputs.amount.Some? then None else Some(QuoteFailed)
    case BuildAndReview | BuildOnly =>
      if !IsReady(v) || v.quote.None? || v.inputs.slippage.None? then Some(BuildFailed)
      else RefusalOf(GuardAt(v, at, None))
    case ApproveAll =>
      if v.binding.None? then Some(PresignFailed)
      else if GuardAt(v, at, v.binding).Stale? then RefusalOf(GuardAt(v, at, v.binding))
      else if !IsReady(v) || v.build.None? || !v.build.value.signable then Some(SignFailed)
      else None
    case SignOnly =>
      if !IsReady(v) || v.build.None? || !v.build.value.signable then Some(SignFailed)
      else if v.binding.None? then Some(PresignFailed)
      else RefusalOf(GuardAt(v, at, v.binding))
    case CheckOnly => None
    case SubmitOnly => if HasOrder(v) then None else Some(SubmitFailed)
    case VerifyOnly | Recheck => if HasOrder(v) then None else Some(VerifyFailed)
    case ReportOnly => if IsReady(v) && v.build.Some? then None else Some(SubmitFailed)
    case FinishAll => if v.tx != Confirmed || HasOrder(v) then None else Some(SubmitFailed)
    case RetryReport => None
  }

  lemma RefusedClick(s: System, guard: Guard)
    requires s.view.stage in {Some(Building), Some(Sign)} && guard.Stale?
    ensures Refuse(s, guard.reason, s.clock).view.failure == RefusalOf(guard)
  {
    ThrowLeaves(s.(view := s.view.(shown := s.clock)), PLAIN, true);
    hide Throw;
  }

  lemma StartQuoteFails(s: System, seen: View)
    requires s.view.failure.None?
    ensures StartQuote(s, seen).view.failure == ClickFailure(seen, AskForQuote, s.clock)
  {
    ThrowLeaves(At(s.(view := s.view.(reviewOpen := false)), Quoting), PLAIN, false);
    hide Throw, IsReady;
  }

  lemma StartBuildFails(s: System, kind: Kind, seen: View)
    requires s.view.failure.None? && kind in {BuildAndReview, BuildOnly}
    ensures StartBuild(s, kind, seen).view.failure == ClickFailure(seen, kind, s.clock)
  {
    var t := At(s, Building);
    ThrowLeaves(t, PLAIN, false);
    var g := GuardAt(seen, s.clock, None);
    if g.Stale? {
      RefusedClick(t, g);
    }
    hide Throw, Refuse, IsReady, GuardAt;
  }

  lemma StartSignFails(s: System, kind: Kind, seen: View)
    requires s.view.failure.None?
    ensures StartSign(s, kind, seen).view.failure == ClickFailure(seen, SignOnly, s.clock)
  {
    var t := At(s, Sign);
    ThrowLeaves(t, PLAIN, false);
    ThrowLeaves(t, PLAIN, true);
    var g := GuardAt(seen, s.clock, seen.binding);
    if g.Stale? {
      RefusedClick(t, g);
    }
    hide Throw, Refuse, IsReady, GuardAt;
  }

  lemma StartApproveFails(s: System, seen: View)
    requires s.view.failure.None?
    ensures StartApprove(s, seen).view.failure == ClickFailure(seen, ApproveAll, s.clock)
  {
    var t := At(s, Sign);
    ThrowLeaves(t, PLAIN, true);
    var g := GuardAt(seen, s.clock, seen.binding);
    if g.Stale? {
      RefusedClick(t, g);
    }
    StartSignFails(t.(view := t.view.(reviewOpen := false)), ApproveAll, seen);
    hide Throw, Refuse, IsReady, GuardAt, StartSign;
  }

  /** What the buttons promise of the signature. */
  lemma ButtonsNeedSignature(v: View, kind: Kind)
    requires Enabled(v, kind) && kind in {CheckOnly, SubmitOnly, VerifyOnly, ReportOnly, RetryReport}
    requires v.failure.Some? ==> v.failure.value in FAILURES
    ensures v.signature.Some? && (kind in {SubmitOnly, ReportOnly, RetryReport} ==> v.tx == Confirmed)
  {
    OfferedIff(Facts(v));
    hide Derive, OfferOf, QuoteRanOut, QuoteIsStale, BuildIsStale;
  }

  /** Every click that fails at once leaves exactly the failure of what it found, and any other
      none: a retry while its report is still at hand, and the finishing of a signed trade. */
  lemma ClickFails(s: System, kind: Kind, at: int)
    requires Possible(s, Click(kind, at)) && (s.view.failure.Some? ==> s.view.failure.value in FAILURES)
    requires kind == FinishAll ==> s.view.signature.Some?
    requires kind == RetryReport ==> s.payload == s.view.signature
    requires kind == ApproveAll ==> s.view.build.Some? && s.view.quote.Some?
    ensures Step(s, Click(kind, at)).view.failure == ClickFailure(s.view, kind, at)
  {
    var t, v := Begun(s, at), s.view;
    if kind in {CheckOnly, SubmitOnly, VerifyOnly, ReportOnly, RetryReport} {
      ButtonsNeedSignature(v, kind);
    }
    hide Enabled, FAILURES, StartQuote, StartBuild, StartSign, StartApprove, StartSubmit, StartVerify, StartReport,
         GuardAt, IsReady, Throw;
    match kind
    case AskForQuote => StartQuoteFails(t, v);
    case BuildAndReview | BuildOnly => StartBuildFails(t, kind, v);
    case ApproveAll => StartApproveFails(t, v);
    case SignOnly => StartSignFails(t, kind, v);
    case CheckOnly =>
    case SubmitOnly => ConfirmedSubmit(t, kind, v);
    case VerifyOnly | Recheck => VerifyLeaves(t, kind, v, v.signature);
    case ReportOnly => ReportLeaves(t, kind, v, v.signature);
    case FinishAll =>
      if v.tx == Confirmed {
        SubmitLeaves(t, kind, v, v.signature);
      }
    case RetryReport =>
  }

  lemma ConfirmedSubmit(s: System, kind: Kind, seen: View)
    requires s.view.failure.None? && seen.signature.Some? && seen.tx == Confirmed
    ensures StartSubmit(s, kind, seen, seen.signature, false).view.failure
         == if HasOrder(seen) then None else Some(SubmitFailed)
  {
    ThrowLeaves(At(s, Submit), PLAIN, false);
    hide Throw, IsReady;
  }
}
