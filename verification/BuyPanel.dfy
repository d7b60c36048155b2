/** The ticket's events as they are written (src/components/PrimaryBuyPanel.tsx): each handler
    sets one state field after another, on the way to its next await or its end. `view` is the
    state React holds; a handler reads the `seen` it was created in, not `view`. Each event
    keeps the invariant of `TradeTicket`, whose step it is proved to take; `Drive` takes any
    number of events. */
module BuyPanel {
  import opened Wrappers
  import opened Logs
  import opened TradeState
  import T = TradeTicket
  import O = TradeOffers
  import L = TradeLog
  import R = TradeReplies

  class Panel {
    var view: T.View
    var run: Option<T.Run>
    var payload: Option<string>
    var builds: nat
    var clock: int
    ghost var log: T.Log
    ghost var story: R.Story

    ghost function Now(): T.System
      reads this
    {
      T.System(view, run, payload, builds, clock, log)
    }

    ghost predicate Valid()
      reads this
    {
      T.Invariant(Now()) && R.Follows(Now(), story)
    }

    constructor (view: T.View, clock: int)
      requires T.Opened(T.System(view, None, None, 0, clock, Begin))
      ensures Valid() && Now() == T.System(view, None, None, 0, clock, Begin) && story == Begin
    {
      R.OpenedFollows(T.System(view, None, None, 0, clock, Begin));
      this.view, this.clock, run, payload, builds, log, story := view, clock, None, None, 0, Begin, Begin;
    }

    // ---- ends

    /** The `finally` of every handler. */
    method Done()
      modifies this
      ensures Now() == T.Done(old(Now())) && story == old(story)
    {
      view := view.(busy := false);
      run := None;
    }

    /** `fail`, on an error thrown as the handler's own class or by what it called. */
    method Throw(e: Error, presign: bool)
      modifies this
      ensures Now() == T.Throw(old(Now()), e, presign) && story == old(story)
    {
      view := view.(failure := Some(Classify(view.stage, e, presign)));
      Done();
    }

    method Refuse(reason: Reason, at: int)
      modifies this
      ensures Now() == T.Refuse(old(Now()), reason, at) && story == old(story)
    {
      view := view.(shown := at);
      if reason == Expired {
        view := view.(failure := Some(QuoteExpired));
        Done();
      } else {
        Throw(T.PLAIN, true);
      }
    }

    // ---- starts

    method StartQuote(seen: T.View)
      modifies this
      ensures Now() == T.StartQuote(old(Now()), seen) && story == old(story)
    {
      view := view.(stage := Some(Quoting));
      view := view.(reviewOpen := false);
      if !T.IsReady(seen) || !seen.formed || seen.inputs.amount.None? {
        Throw(T.PLAIN, false);
        return;
      }
      run := Some(T.Run(T.AskForQuote, seen, T.ForQuote, clock, None));
    }

    method StartBuild(kind: T.Kind, seen: T.View)
      modifies this
      ensures Now() == T.StartBuild(old(Now()), kind, seen) && story == old(story)
    {
      hide T.Throw, T.Refuse, T.GuardAt, T.IsReady;
      ghost var was := Now();
      view := view.(stage := Some(Building));
      assert Now() == T.At(was, Building);
      if !T.IsReady(seen) || seen.quote.None? || seen.inputs.slippage.None? {
        Throw(T.PLAIN, false);
        return;
      }
      var g := T.GuardAt(seen, clock, None);
      if g.Stale? {
        Refuse(g.reason, clock);
        return;
      }
      run := Some(T.Run(kind, seen, T.BuildNet, clock, None));
    }

    method StartSign(kind: T.Kind, seen: T.View)
      modifies this
      ensures Now() == T.StartSign(old(Now()), kind, seen) && story == old(story)
    {
      hide T.Throw, T.Refuse, T.GuardAt, T.IsReady;
      ghost var was := Now();
      view := view.(stage := Some(Sign));
      assert Now() == T.At(was, Sign);
      if !T.IsReady(seen) || seen.build.None? || !seen.build.value.signable {
        Throw(T.PLAIN, false);
        return;
      }
      if seen.binding.None? {
        Throw(T.PLAIN, true);
        return;
      }
      var g := T.GuardAt(seen, clock, seen.binding);
      if g.Stale? {
        Refuse(g.reason, clock);
        return;
      }
      run := Some(T.Run(kind, seen, T.SignNet, clock, None));
    }

    method StartApprove(seen: T.View)
      modifies this
      ensures Now() == T.StartApprove(old(Now()), seen) && story == old(story)
    {
      hide T.Throw, T.Refuse, T.GuardAt, T.StartSign;
      ghost var was := Now();
      view := view.(stage := Some(Sign));
      assert Now() == T.At(was, Sign);
      if seen.binding.None? {
        Throw(T.PLAIN, true);
        return;
      }
      var g := T.GuardAt(seen, clock, seen.binding);
      if g.Stale? {
        Refuse(g.reason, clock);
        return;
      }
      view := view.(reviewOpen := false);
      StartSign(T.ApproveAll, seen);
    }

    method StartCheck(kind: T.Kind, seen: T.View)
      modifies this
      ensures Now() == T.StartCheck(old(Now()), kind, seen) && story == old(story)
    {
      if seen.signature.None? {
        Throw(T.PLAIN, false);
        return;
      }
      view := view.(stage := Some(Confirm));
      view := view.(tx := Confirming);
      run := Some(T.Run(kind, seen, T.Checking, clock, seen.signature));
    }

    method StartSubmit(kind: T.Kind, seen: T.View, sig: Option<string>, confirmed: bool)
      modifies this
      ensures Now() == T.StartSubmit(old(Now()), kind, seen, sig, confirmed) && story == old(story)
    {
      hide T.Throw, T.IsReady;
      ghost var was := Now();
      view := view.(stage := Some(Submit));
      assert Now() == T.At(was, Submit);
      if !T.IsReady(seen) || seen.build.None? || !seen.build.value.hasOrder || sig.None? {
        Throw(T.PLAIN, false);
        return;
      }
      if !confirmed && seen.tx != Confirmed {
        Throw(T.PLAIN, false);
        return;
      }
      log := Then(log, T.Submitted(sig.value));
      run := Some(T.Run(kind, seen, T.Submitting, clock, sig));
    }

    method StartVerify(kind: T.Kind, seen: T.View, sig: Option<string>)
      modifies this
      ensures Now() == T.StartVerify(old(Now()), kind, seen, sig) && story == old(story)
    {
      hide T.Throw, T.IsReady;
      ghost var was := Now();
      view := view.(stage := Some(Verify));
      assert Now() == T.At(was, Verify);
      if !T.IsReady(seen) || seen.build.None? || !seen.build.value.hasOrder {
        Throw(T.PLAIN, false);
        return;
      }
      view := view.(verify := Polling);
      run := Some(T.Run(kind, seen, T.Polls, clock, sig));
    }

    method SendReport(kind: T.Kind, seen: T.View, sig: Option<string>)
      modifies this
      ensures Now() == T.SendReport(old(Now()), kind, seen, sig) && story == old(story)
    {
      view := view.(stage := Some(Attribute));
      view := view.(attr := Reporting);
      run := Some(T.Run(kind, seen, T.Filing, clock, sig));
    }

    method StartReport(kind: T.Kind, seen: T.View, sig: Option<string>)
      modifies this
      ensures Now() == T.StartReport(old(Now()), kind, seen, sig) && story == old(story)
    {
      hide T.Throw, T.IsReady, T.SendReport;
      ghost var was := Now();
      view := view.(stage := Some(Attribute));
      assert Now() == T.At(was, Attribute);
      if !T.IsReady(seen) || sig.None? || seen.build.None? {
        Throw(T.PLAIN, false);
        return;
      }
      payload := sig;
      SendReport(kind, seen, sig);
    }

    method StartRetry(seen: T.View)
      modifies this
      ensures Now() == T.StartRetry(old(Now()), seen) && story == old(story)
    {
      if payload.None? || seen.signature != payload || seen.tx != Confirmed {
        Throw(T.PLAIN, false);
        return;
      }
      SendReport(T.RetryReport, seen, payload);
    }

    method Start(kind: T.Kind, seen: T.View)
      modifies this
      ensures Now() == T.Start(old(Now()), kind, seen) && story == old(story)
    {
      hide T.StartQuote, T.StartBuild, T.StartSign, T.StartApprove, T.StartCheck, T.StartSubmit, T.StartVerify,
           T.StartReport, T.StartRetry;
      match kind {
        case AskForQuote => StartQuote(seen);
        case BuildAndReview => StartBuild(kind, seen);
        case BuildOnly => StartBuild(kind, seen);
        case ApproveAll => StartApprove(seen);
        case SignOnly => StartSign(kind, seen);
        case CheckOnly => StartCheck(kind, seen);
        case SubmitOnly => StartSubmit(kind, seen, seen.signature, false);
        case VerifyOnly => StartVerify(kind, seen, seen.signature);
        case ReportOnly => StartReport(kind, seen, seen.signature);
        case FinishAll =>
          if seen.tx != Confirmed {
            StartCheck(kind, seen);
          } else {
            StartSubmit(kind, seen, seen.signature, true);
          }
        case Recheck => StartVerify(kind, seen, seen.signature);
        case RetryReport => StartRetry(seen);
      }
    }

    /** An enabled action is clicked: `begin`, and its handler up to the first await. It reaches
        nobody, except that it may submit the order of a signature seen confirmed; and it leaves
        the signature as it is. */
    method Click(kind: T.Kind, at: int)
      requires Valid() && T.Possible(Now(), T.Click(kind, at))
      modifies this
      ensures Valid() && Now() == T.Step(old(Now()), T.Click(kind, at))
      ensures story == R.Observe(old(story), old(Now()), T.Click(kind, at), Now())
      ensures view.signature == old(view.signature)
      ensures log == old(log) ||
              (view.signature.Some? && log == Then(old(log), T.Submitted(view.signature.value))
               && old(T.WasObserved(log, view.signature.value)))
    {
      hide T.Enabled, T.Step, T.Invariant, T.WasObserved, R.Follows, R.Observe, T.Possible;
      T.StepKeepsInvariant(Now(), T.Click(kind, at));
      R.StepFollows(Now(), story, T.Click(kind, at));
      O.ClickLogs(Now(), kind, at);
      O.ClickKeepsSignature(Now(), kind, at);
      story := R.Observe(story, Now(), T.Click(kind, at), T.Step(Now(), T.Click(kind, at)));
      TakeClick(kind, at);
    }

    method TakeClick(kind: T.Kind, at: int)
      requires T.Possible(Now(), T.Click(kind, at))
      modifies this
      ensures Now() == T.Step(old(Now()), T.Click(kind, at)) && story == old(story)
    {
      hide T.Enabled, T.Start;
      var seen := view;
      if kind == T.ApproveAll && (view.build.None? || view.quote.None?) {
        return;
      }
      clock := at;
      view := view.(busy := true);
      view := view.(failure := None);
      assert Now() == T.Begun(old(Now()), at);
      Start(kind, seen);
    }

    /** The inputs, the wallet or the mode change, also while a run is under way. */
    method Edit(inputs: Inputs, formed: bool, connected: bool, canSign: bool, closed: Option<Closing>, guided: bool)
      requires Valid()
      modifies this
      ensures Valid() && Now() == T.Step(old(Now()), T.Edit(inputs, formed, connected, canSign, closed, guided))
      ensures story == old(story)
      ensures log == old(log) && run == old(run) && view.signature == old(view.signature)
    {
      ghost var e := T.Edit(inputs, formed, connected, canSign, closed, guided);
      T.StepKeepsInvariant(Now(), e);
      R.StepFollows(Now(), story, e);
      story := R.Observe(story, Now(), e, T.Step(Now(), e));
      hide T.Invariant, R.Follows, R.Observe;
      view := view.(inputs := inputs, formed := formed, connected := connected, canSign := canSign, closed := closed,
                    guided := guided);
    }

    method Tick(at: int)
      requires Valid() && clock <= at
      modifies this
      ensures Valid() && Now() == T.Step(old(Now()), T.Tick(at))
      ensures story == R.Observe(old(story), old(Now()), T.Tick(at), Now())
      ensures view.shown == at && log == old(log)
    {
      T.StepKeepsInvariant(Now(), T.Tick(at));
      R.StepFollows(Now(), story, T.Tick(at));
      story := R.Observe(story, Now(), T.Tick(at), T.Step(Now(), T.Tick(at)));
      hide T.Invariant, R.Follows, R.Observe;
      clock := at;
      view := view.(shown := at);
    }

    /** Back from the review: without it, the panel's own button is gone. */
    method Back()
      requires Valid() && T.Possible(Now(), T.Back)
      modifies this
      ensures Valid() && Now() == T.Step(old(Now()), T.Back) && !T.PanelShown(view)
      ensures story == R.Observe(old(story), old(Now()), T.Back, Now())
    {
      T.StepKeepsInvariant(Now(), T.Back);
      R.StepFollows(Now(), story, T.Back);
      story := R.Observe(story, Now(), T.Back, T.Step(Now(), T.Back));
      hide T.Invariant, R.Follows, R.Observe;
      view := view.(reviewOpen := false);
    }

    /** A late ledger read: it touches no order. */
    method LedgerListed()
      requires Valid()
      modifies this
      ensures Valid() && Now() == T.Step(old(Now()), T.LedgerListed)
      ensures story == R.Observe(old(story), old(Now()), T.LedgerListed, Now())
      ensures T.SameOrder(old(Now()), Now()) && log == old(log) && run == old(run)
    {
      T.StepKeepsInvariant(Now(), T.LedgerListed);
      R.StepFollows(Now(), story, T.LedgerListed);
      story := R.Observe(story, Now(), T.LedgerListed, T.Step(Now(), T.LedgerListed));
      hide T.Invariant, R.Follows, R.Observe;
      view := view.(attr := Attributed);
    }

    // ---- replies

    method ResetAfterQuote()
      modifies this
      ensures Now() == old(Now()).(view := T.Reset(old(view))) && story == old(story)
    {
      view := view.(build := None);
      view := view.(binding := None);
      view := view.(check := None);
      view := view.(signature := None);
      view := view.(tx := Unsent);
      view := view.(verify := Unverified);
      view := view.(attr := Unreported);
    }

    method AfterQuote(r: T.Run, q: Quote)
      requires r.seen.inputs.wallet.Some?
      modifies this
      ensures Now() == T.AfterQuote(old(Now()), r, q) && story == old(story)
    {
      hide T.Reset;
      var w := r.seen.inputs.wallet.value;
      view := view.(quote := Some(q));
      view := view.(quoteWallet := Some(w));
      view := view.(receivedAt := clock);
      view := view.(shown := clock);
      assert view == old(view).(quote := Some(q), quoteWallet := Some(w), receivedAt := clock, shown := clock);
      ResetAfterQuote();
      log := Then(log, T.Quoted(q, w, clock));
      Done();
    }

    /** Lines 326 to 338. */
    method Store(r: T.Run, b: T.Reply)
      requires b.GotBuild? && r.seen.inputs.wallet.Some? && r.seen.inputs.slippage.Some?
      modifies this
      ensures Now() == T.Store(old(Now()), r, b) && story == old(story)
    {
      view := view.(build := Some(T.Build(builds, b.signable, b.hasOrder)));
      view := view.(binding := Some(BuildBinding(r.seen.inputs.wallet.value, r.seen.inputs.slippage.value, b.wallet)));
      view := view.(check := Some(b.checkOk));
      view := view.(signature := None);
      view := view.(tx := Unsent);
      view := view.(verify := Unverified);
      view := view.(attr := Unreported);
      log := Then(log, T.Stored(builds, r.seen, r.guardedAt, clock));
      builds := builds + 1;
    }

    method AfterBuild(r: T.Run, b: T.Reply)
      requires b.GotBuild? && r.seen.inputs.wallet.Some? && r.seen.inputs.slippage.Some?
      modifies this
      ensures Now() == T.AfterBuild(old(Now()), r, b) && story == old(story)
    {
      hide T.Store, T.Throw, T.Refuse, T.GuardAt;
      var g := T.GuardAt(r.seen, clock, None);
      if g.Stale? {
        Refuse(g.reason, clock);
        return;
      }
      Store(r, b);
      if !b.checkOk {
        Throw(T.PLAIN, true);
        return;
      }
      if r.kind == T.BuildAndReview {
        view := view.(reviewOpen := true);
      }
      Done();
    }

    method AfterSend(r: T.Run, sig: string)
      requires r.seen.build.Some?
      modifies this
      ensures Now() == T.AfterSend(old(Now()), r, sig) && story == old(story)
    {
      view := view.(signature := Some(sig));
      view := view.(stage := Some(Confirm));
      view := view.(tx := Confirming);
      assert view == old(view).(signature := Some(sig), stage := Some(Confirm), tx := Confirming);
      log := Then(log, T.Recorded(r.seen.build.value.no, sig));
      run := Some(r.(await := T.Settling, sig := Some(sig)));
    }

    method AfterSettling(r: T.Run, status: TxPhase)
      requires r.sig.Some?
      modifies this
      ensures Now() == T.AfterSettling(old(Now()), r, status) && story == old(story)
    {
      hide T.StartSubmit;
      view := view.(tx := status);
      if status != Confirmed {
        Throw(T.PLAIN, false);
        return;
      }
      log := Then(log, T.Observed(r.sig.value));
      if r.kind == T.ApproveAll || r.kind == T.FinishAll {
        StartSubmit(r.kind, r.seen, r.sig, true);
      } else {
        Done();
      }
    }

    method AfterVerdict(r: T.Run, phase: VerifyPhase)
      modifies this
      ensures Now() == T.AfterVerdict(old(Now()), r, phase) && story == old(story)
    {
      hide T.StartReport;
      view := view.(verify := phase);
      if phase == Refused {
        Throw(T.PLAIN, false);
        return;
      }
      if r.kind == T.ApproveAll || r.kind == T.FinishAll || (r.kind == T.Recheck && r.seen.attr == Unreported) {
        StartReport(r.kind, r.seen, r.sig);
      } else {
        Done();
      }
    }

    /** The awaits of a run that signs, up to the wallet's answer. */
    method SignStep(r: T.Run, reply: T.Reply)
      requires T.Fits(r, reply) && !reply.Threw? && r.await in {T.SignNet, T.Preflight, T.ForWallet, T.Sending}
      modifies this
      ensures Now() == T.Resume(old(Now()), r, reply) && story == old(story)
    {
      hide T.AfterSend;
      match r.await {
        case SignNet =>
          if !reply.ok {
            Throw(T.PLAIN, true);
            return;
          }
          view := view.(check := Some(reply.checkOk));
          if !reply.checkOk {
            Throw(T.PLAIN, true);
            return;
          }
          run := Some(r.(await := T.Preflight));
        case Preflight =>
          if reply.Stopped? {
            Throw(T.PLAIN, true);
            return;
          }
          log := Then(log, T.WalletAsked(r.seen.build.value.no, r.seen, r.guardedAt));
          run := Some(r.(await := T.ForWallet));
        case ForWallet =>
          view := view.(stage := Some(Broadcast));
          run := Some(r.(await := T.Sending));
        case Sending =>
          AfterSend(r, reply.sig);
      }
    }

    /** What the run waits for has come. A signature that appears is the first of the current
        build and recorded as such; one that was there is dropped or stays, never replaced. */
    method Answer(reply: T.Reply, at: int)
      requires Valid() && T.Possible(Now(), T.Answer(reply, at))
      modifies this
      ensures Valid() && Now() == T.Step(old(Now()), T.Answer(reply, at))
      ensures story == R.Observe(old(story), old(Now()), T.Answer(reply, at), Now())
      ensures old(view.signature).Some? ==> view.signature in {None, old(view.signature)}
      ensures view.signature.Some? && view.signature != old(view.signature) ==>
                && old(view.build.Some? && !T.Signature(log, view.build.value.no))
                && log == Then(old(log), T.Recorded(old(view.build).value.no, view.signature.value))
      ensures reply.Sent? ==> view.signature == Some(reply.sig) && view.tx == Confirming
      ensures reply.Settled? ==> view.tx == reply.tx && view.signature == old(view.signature)
      ensures reply.Verdict? ==> view.verify == reply.phase
      ensures reply.Filed? ==> view.attr == reply.attr
      ensures reply.GotQuote? ==> view.quote == Some(reply.quote) && view.build.None? && view.signature.None?
    {
      R.AnswerIsShown(Now(), reply, at);
      T.StepKeepsInvariant(Now(), T.Answer(reply, at));
      R.StepFollows(Now(), story, T.Answer(reply, at));
      story := R.Observe(story, Now(), T.Answer(reply, at), T.Step(Now(), T.Answer(reply, at)));
      O.AnswerRecords(Now(), reply, at);
      if view.signature.Some? {
        O.SignatureIsNotReplaced(Now(), T.Answer(reply, at));
      }
      hide T.Invariant, R.Follows, R.Observe, T.Resume, T.Signature;
      TakeAnswer(reply, at);
    }

    method TakeAnswer(reply: T.Reply, at: int)
      requires run.Some? && T.Fits(run.value, reply)
      modifies this
      ensures Now() == T.Resume(old(Now()).(clock := at), old(run).value, reply) && story == old(story)
    {
      hide T.AfterQuote, T.AfterBuild, T.AfterSend, T.AfterSettling, T.AfterVerdict, T.StartVerify, T.Throw;
      var r := run.value;
      clock := at;
      if reply.Threw? {
        if r.await == T.Polls {
          view := view.(verify := Refused);
        }
        Throw(reply.error, false);
        return;
      }
      match r.await {
        case ForQuote => AfterQuote(r, reply.quote);
        case BuildNet =>
          if !reply.ok {
            Throw(T.PLAIN, true);
            return;
          }
          run := Some(r.(await := T.ForBuild));
        case ForBuild => AfterBuild(r, reply);
        case SignNet => SignStep(r, reply);
        case Preflight => SignStep(r, reply);
        case ForWallet => SignStep(r, reply);
        case Sending => SignStep(r, reply);
        case Settling => AfterSettling(r, reply.tx);
        case Checking => AfterSettling(r, reply.tx);
        case Submitting =>
          if r.kind == T.ApproveAll || r.kind == T.FinishAll {
            StartVerify(r.kind, r.seen, r.sig);
          } else {
            Done();
          }
        case Polls => AfterVerdict(r, reply.phase);
        case Filing =>
          view := view.(attr := reply.attr);
          Done();
      }
    }

    // ---- any run

    method Take(e: T.Event)
      requires Valid() && T.Possible(Now(), e)
      modifies this
      ensures Valid() && Now() == T.Step(old(Now()), e)
      ensures story == R.Observe(old(story), old(Now()), e, Now())
    {
      hide T.Invariant, R.Follows, T.Step;
      match e {
        case Edit(inputs, formed, connected, canSign, closed, guided) =>
          Edit(inputs, formed, connected, canSign, closed, guided);
        case Tick(at) => Tick(at);
        case Back => Back();
        case LedgerListed => LedgerListed();
        case Click(kind, at) => Click(kind, at);
        case Answer(reply, at) => Answer(reply, at);
      }
    }

    /** Any sequence of events: every build has yielded at most one signature, was stored and
        signed for on a quote in time, the one it was stored from; only signatures seen confirmed
        were submitted; and the ticket shows of the order what was heard last for its build. */
    method Drive(events: seq<T.Event>)
      requires Valid() && T.PossibleRun(Now(), events)
      modifies this
      ensures Valid() && Now() == T.After(old(Now()), events)
      ensures forall no: nat :: L.Signatures(log, no) <= 1
      ensures forall entry: T.Entry :: Has(log, entry) ==>
                && (entry.Stored? ==> L.InTime(entry.seen, entry.askedAt) && L.InTime(entry.seen, entry.storedAt))
                && (entry.WalletAsked? ==> L.InTime(entry.seen, entry.guardedAt) && L.OfItsBuild(log, entry.seen))
                && (entry.Submitted? ==> Has(log, T.Observed(entry.sig)))
      ensures story == R.StoryOf(old(Now()), old(story), events)
      ensures R.OrderOf(view) == R.OrderTold(story) && log == R.Record(story) && R.WasHeard(R.OrderOf(view), story)
      ensures T.Shown(view) in {VerifiedState, AttributedState} ==> R.HeardOf(story, view.build, T.Verdict(Verified))
    {
      hide T.Shown, R.HeardOf, R.WasHeard, R.OrderTold, R.Record;
      hide T.Invariant, R.Follows, R.Observe, T.Step, T.Possible, L.InTime, L.Signatures, L.OfItsBuild;
      var i := 0;
      while i < |events|
        invariant 0 <= i <= |events| && Valid()
        invariant T.PossibleRun(Now(), events[i..])
        invariant T.After(Now(), events[i..]) == T.After(old(Now()), events)
        invariant R.StoryOf(Now(), story, events[i..]) == R.StoryOf(old(Now()), old(story), events)
      {
        assert events[i..][0] == events[i] && events[i..][1..] == events[i + 1..];
        Take(events[i]);
        i := i + 1;
      }
      L.InvariantMeans(Now());
      R.ShownWasHeard(Now(), story);
    }
  }
}
