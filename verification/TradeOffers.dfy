/** What the steps of the trade ticket (src/components/PrimaryBuyPanel.tsx) leave and offer: the
    signature of an order, and what may be done from a new quote until its build. */
module TradeOffers {
  import opened Wrappers
  import opened Logs
  import opened TradeState
  import opened TradeTicket

  // ---- a recorded signature is not replaced

  lemma ClickKeepsSignature(s: System, kind: Kind, at: int)
    requires Possible(s, Click(kind, at))
    ensures Step(s, Click(kind, at)).view.signature == s.view.signature
  {
    hide Enabled, Start;
  }

  lemma SigningKeepsSignature(s: System, r: Run, reply: Reply)
    requires Fits(r, reply) && !reply.Threw? && r.await in {BuildNet, SignNet, Preflight, ForWallet, Filing}
    ensures Resume(s, r, reply).view.signature == s.view.signature
  {
    hide Throw;
    match r.await
    case BuildNet =>
    case SignNet =>
    case Preflight =>
    case ForWallet =>
    case Filing =>
  }

  lemma AnswerKeepsSignature(s: System, r: Run, reply: Reply)
    requires Fits(r, reply) && (reply.Threw? || r.await !in {ForQuote, ForBuild, Sending})
    ensures Resume(s, r, reply).view.signature == s.view.signature
  {
    if !reply.Threw? && r.await in {BuildNet, SignNet, Preflight, ForWallet, Filing} {
      SigningKeepsSignature(s, r, reply);
    } else {
      hide Throw, AfterQuote, AfterBuild, AfterSend, AfterSettling, AfterVerdict, StartVerify, Wait, At, Note;
    }
  }

  lemma BuildDropsSignature(s: System, r: Run, reply: Reply)
    requires Fits(r, reply) && !reply.Threw? && r.await in {ForQuote, ForBuild}
    ensures Resume(s, r, reply).view.signature in {None, s.view.signature}
  {
    hide GuardAt, Throw, Refuse;
  }

  /** Once recorded, a signature stays until a new quote or build drops it: no step puts another
      in its place. */
  lemma SignatureIsNotReplaced(s: System, e: Event)
    requires Invariant(s) && Possible(s, e) && s.view.signature.Some?
    ensures Step(s, e).view.signature in {None, s.view.signature}
  {
    match e
    case Edit(_, _, _, _, _, _) =>
    case Tick(_) =>
    case Back =>
    case LedgerListed =>
    case Click(kind, at) => ClickKeepsSignature(s, kind, at);
    case Answer(reply, at) =>
      var t, r := s.(clock := at), s.run.value;
      assert r.await != Sending;
      hide Settles, RunFits, Resume;
      if reply.Threw? || r.await !in {ForQuote, ForBuild} {
        AnswerKeepsSignature(t, r, reply);
      } else {
        BuildDropsSignature(t, r, reply);
      }
  }

  /** A click reaches nobody, except that it may submit the order of the signature shown, which
      was seen confirmed. */
  lemma ClickLogs(s: System, kind: Kind, at: int)
    requires Invariant(s) && Possible(s, Click(kind, at))
    ensures var log := Step(s, Click(kind, at)).log;
            log == s.log ||
            (s.view.signature.Some? && log == Then(s.log, Submitted(s.view.signature.value))
             && WasObserved(s.log, s.view.signature.value))
  {
    SeenFacts(s, at);
    assert Enabled(s.view, kind) && kind == SubmitOnly ==> s.view.tx == Confirmed;
    hide Enabled, Invariant, StartQuote, StartBuild, StartSign, StartApprove, StartCheck, StartVerify, SendReport,
         StartReport, StartRetry, Throw, WasObserved, Arrived;
  }

  /** A signature appears only as the first one of the current build, and is recorded as such. */
  lemma AnswerRecords(s: System, reply: Reply, at: int)
    requires Invariant(s) && Possible(s, Answer(reply, at))
    ensures var t := Step(s, Answer(reply, at));
            t.view.signature.Some? && t.view.signature != s.view.signature ==>
              && s.view.build.Some? && !Signature(s.log, s.view.build.value.no)
              && t.log == Then(s.log, Recorded(s.view.build.value.no, t.view.signature.value))
  {
    var u, r := s.(clock := at), s.run.value;
    if !reply.Threw? && r.await == Sending {
      hide Safe, Arrived, WasObserved, Signature, SignedBuilds, GuardAt;
      assert SignRunFits(s, r) && BuildFits(s);
    } else {
      hide Invariant, Resume;
      if !reply.Threw? && r.await in {ForQuote, ForBuild} {
        BuildDropsSignature(u, r, reply);
      } else {
        AnswerKeepsSignature(u, r, reply);
      }
    }
  }

  // ---- from a new quote until a build is stored

  predicate BuildRunning(s: System, r: Run) {
    || (r.await == ForQuote && s.view.stage == Some(Quoting))
    || (r.await in {BuildNet, ForBuild} && s.view.stage == Some(Building))
  }

  /** No build and nothing of one: only a quote or a build may be under way, and a failed check
      of the order (`VerifyFailed`) is only shown while the ledger's word stands. */
  predicate Unbuilt(s: System) {
    var v := s.view;
    && v.build.None? && v.signature.None? && v.tx == Unsent && v.verify == Unverified
    && (s.run.Some? ==> v.busy && v.failure.None? && BuildRunning(s, s.run.value))
    && (v.failure.Some? ==>
          v.failure.value in {QuoteFailed, QuoteUnavailable, BuildFailed, BuildUnavailable, PresignFailed,
                              QuoteExpired, VerifyFailed})
    && (v.failure == Some(VerifyFailed) ==> v.attr == Attributed)
  }

  /** The actions on an order, without the recheck. */
  predicate NeedsOrder(kind: Kind) {
    kind in {ApproveAll, SignOnly, CheckOnly, SubmitOnly, VerifyOnly, ReportOnly, FinishAll, RetryReport}
  }

  /** Of the actions on an order, the recheck alone may be enabled, and exactly while the
      ledger says that the ticket's trade is attributed. */
  lemma UnbuiltOffers(s: System, kind: Kind)
    requires Unbuilt(s)
    ensures NeedsOrder(kind) ==> !Enabled(s.view, kind)
    ensures Enabled(s.view, Recheck)
       <==> !s.view.busy && s.view.closed.None? && s.view.guided && s.view.attr == Attributed
  {
    hide Flagged, QuoteRanOut, QuoteIsStale, BuildIsStale;
  }

  lemma UnbuiltStartQuote(s: System, seen: View)
    requires Unbuilt(s) && s.run.None? && s.view.busy && s.view.failure.None?
    ensures Unbuilt(StartQuote(s, seen))
  {
    hide IsReady;
  }

  lemma UnbuiltRefusal(s: System, reason: Reason, at: int)
    requires Unbuilt(s) && s.view.failure.None? && s.view.stage == Some(Building)
    ensures Unbuilt(Refuse(s, reason, at))
  {
  }

  lemma UnbuiltStartBuild(s: System, kind: Kind, seen: View)
    requires Unbuilt(s) && s.run.None? && s.view.busy && s.view.failure.None?
    ensures Unbuilt(StartBuild(s, kind, seen))
  {
    hide IsReady, GuardAt, Refuse;
    var g := GuardAt(seen, s.clock, None);
    if g.Stale? {
      UnbuiltRefusal(At(s, Building), g.reason, s.clock);
    }
  }

  lemma UnbuiltStartVerify(s: System, kind: Kind, seen: View, sig: Option<string>)
    requires Unbuilt(s) && s.run.None? && s.view.busy && s.view.failure.None?
    requires seen.build.None? && s.view.attr == Attributed
    ensures Unbuilt(StartVerify(s, kind, seen, sig))
  {
    hide IsReady;
  }

  lemma UnbuiltStart(s: System, kind: Kind, seen: View)
    requires Unbuilt(s) && s.run.None? && s.view.busy && s.view.failure.None? && seen.build.None?
    requires kind in {AskForQuote, BuildAndReview, BuildOnly, Recheck}
    requires kind == Recheck ==> s.view.attr == Attributed
    ensures Unbuilt(Start(s, kind, seen))
  {
    hide Unbuilt, StartQuote, StartBuild, StartVerify;
    match kind
    case AskForQuote => UnbuiltStartQuote(s, seen);
    case Recheck => UnbuiltStartVerify(s, kind, seen, seen.signature);
    case _ => UnbuiltStartBuild(s, kind, seen);
  }

  lemma UnbuiltClick(s: System, kind: Kind, at: int)
    requires Unbuilt(s) && Possible(s, Click(kind, at))
    ensures Unbuilt(Step(s, Click(kind, at)))
  {
    UnbuiltOffers(s, kind);
    UnbuiltOffers(s, Recheck);
    hide Enabled, Start;
    UnbuiltStart(Begun(s, at), kind, s.view);
  }

  lemma UnbuiltBuilding(s: System, r: Run, reply: Reply)
    requires Unbuilt(s) && s.run == Some(r) && Fits(r, reply) && !reply.Threw? && r.await in {BuildNet, ForBuild}
    requires Resume(s, r, reply).builds == s.builds
    ensures Unbuilt(Resume(s, r, reply))
  {
    hide GuardAt, Refuse;
    if r.await == ForBuild && GuardAt(r.seen, s.clock, None).Stale? {
      UnbuiltRefusal(s, GuardAt(r.seen, s.clock, None).reason, s.clock);
    }
  }

  lemma UnbuiltResume(s: System, r: Run, reply: Reply)
    requires Unbuilt(s) && s.run == Some(r) && Fits(r, reply) && Resume(s, r, reply).builds == s.builds
    ensures Unbuilt(Resume(s, r, reply))
  {
    if !reply.Threw? && r.await in {BuildNet, ForBuild} {
      UnbuiltBuilding(s, r, reply);
    }
    hide AfterBuild, AfterSend, AfterSettling, AfterVerdict, StartVerify, Note;
  }

  lemma UnbuiltAnswer(s: System, reply: Reply, at: int)
    requires Unbuilt(s) && Possible(s, Answer(reply, at)) && Step(s, Answer(reply, at)).builds == s.builds
    ensures Unbuilt(Step(s, Answer(reply, at)))
  {
    hide Resume;
    UnbuiltResume(s.(clock := at), s.run.value, reply);
  }

  lemma UnbuiltStep(s: System, e: Event)
    requires Unbuilt(s) && Possible(s, e) && Step(s, e).builds == s.builds
    ensures Unbuilt(Step(s, e))
  {
    match e
    case Edit(_, _, _, _, _, _) =>
    case Tick(_) =>
    case Back =>
    case LedgerListed =>
    case Click(kind, at) => UnbuiltClick(s, kind, at);
    case Answer(reply, at) => UnbuiltAnswer(s, reply, at);
  }

  /** No step of the run stores a build. */
  ghost predicate NeverStores(s: System, run: seq<Event>)
    requires PossibleRun(s, run)
    decreases |run|
  {
    run == [] || (Step(s, run[0]).builds == s.builds && NeverStores(Step(s, run[0]), run[1..]))
  }

  lemma {:induction false} UnbuiltRun(s: System, run: seq<Event>)
    requires Unbuilt(s) && PossibleRun(s, run) && NeverStores(s, run)
    ensures Unbuilt(After(s, run))
    decreases |run|
  {
    if run != [] {
      UnbuiltStep(s, run[0]);
      hide Unbuilt, Step, Possible;
      UnbuiltRun(Step(s, run[0]), run[1..]);
    }
  }

  /** From a new quote until a build is stored, whatever happens in between, nothing may be
      approved, signed, checked, submitted, verified, reported or finished, and the recheck of
      an order is offered exactly while the ledger's word stands. */
  lemma NewQuoteOffersNoSigning(s: System, q: Quote, at: int, run: seq<Event>, kind: Kind)
    requires Invariant(s) && Possible(s, Answer(GotQuote(q), at)) && s.run.value.await == ForQuote
    requires PossibleRun(Step(s, Answer(GotQuote(q), at)), run) && NeverStores(Step(s, Answer(GotQuote(q), at)), run)
    ensures var v := After(Step(s, Answer(GotQuote(q), at)), run).view;
            && (NeedsOrder(kind) ==> !Enabled(v, kind))
            && (Enabled(v, Recheck) <==> !v.busy && v.closed.None? && v.guided && v.attr == Attributed)
  {
    var t := Step(s, Answer(GotQuote(q), at));
    assert Unbuilt(t) by {
      hide Settles;
    }
    hide Unbuilt, Enabled, Step, Possible, Invariant, NeverStores, After;
    UnbuiltRun(t, run);
    UnbuiltOffers(After(t, run), kind);
  }

  /** And it does happen: the late ledger read of an earlier trade, just after the new quote. */
  lemma LedgerOffersRecheck(s: System, q: Quote, at: int)
    requires Invariant(s) && Possible(s, Answer(GotQuote(q), at)) && s.run.value.await == ForQuote
    requires s.view.guided && s.view.closed.None?
    ensures var v := Step(Step(s, Answer(GotQuote(q), at)), LedgerListed).view;
            Enabled(v, Recheck) && v.build.None? && v.signature.None?
  {
    var t := Step(s, Answer(GotQuote(q), at));
    assert Unbuilt(t) && t.view.guided && t.view.closed.None? && !t.view.busy by {
      hide Settles;
    }
    UnbuiltStep(t, LedgerListed);
    UnbuiltOffers(Step(t, LedgerListed), Recheck);
    hide Unbuilt, Enabled, Invariant;
    assert Step(t, LedgerListed).view == t.view.(attr := Attributed);
    assert t.view.build.None? && t.view.signature.None?;
  }

  /** A declined signature may be asked for again, with the same build, exactly while the guard
      holds at the displayed time. */
  lemma DeclinedMaySignAgain(s: System, r: Run, e: Error)
    requires r.await == ForWallet && e.rejection && s.view.stage == Some(Sign)
    requires s.view.guided && s.view.closed.None? && s.view.attr != Attributed
    requires s.view.signature.None? && s.view.quote.Some? && s.view.build.Some? && s.view.binding.Some?
    ensures var v := Resume(s, r, Threw(e)).view;
            v.failure == Some(SignatureRejected) && v.build == s.view.build
            && (Enabled(v, ApproveAll) <==> LiveGuard(v).Pass?)
  {
    var v := Resume(s, r, Threw(e)).view;
    FlagsAreTheGuard(v);
    hide QuoteIsStale, BuildIsStale, LiveGuard, Countdown;
  }
}
