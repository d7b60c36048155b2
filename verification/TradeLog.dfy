/** What a reader of the trade ticket's log may conclude: one signature for each build, quotes in
    time, orders of confirmed signatures, and no second prompt without a failure. */
module TradeLog {
  import opened Wrappers
  import opened Logs
  import opened TradeState
  import opened TradeTicket
  import O = TradeOffers

  // ---- what a reader of the log may conclude

  /** How many signatures build number `no` has yielded. */
  function Signatures(log: TradeTicket.Log, no: nat): nat {
    if log.Begin? then 0
    else Signatures(log.before, no) + if log.entry.Recorded? && log.entry.no == no then 1 else 0
  }

  lemma {:induction false} NoneCounted(log: TradeTicket.Log, no: nat)
    ensures Signatures(log, no) == 0 <==> !Signature(log, no)
  {
    if log.Then? {
      NoneCounted(log.before, no);
    }
  }

  lemma {:induction false} OneSignaturePerBuild(log: TradeTicket.Log, no: nat)
    requires Safe(log)
    ensures Signatures(log, no) <= 1
  {
    if log.Then? {
      OneSignaturePerBuild(log.before, no);
      NoneCounted(log.before, no);
      hide GuardAt, Arrived, Safe;
    }
  }

  /** The log as it was when `entry` was written justified it. */
  lemma {:induction false} EntryWasJustified(log: TradeTicket.Log, entry: Entry) returns (before: TradeTicket.Log)
    requires Safe(log) && Has(log, entry)
    ensures Justified(before, entry) && StageOf(Then(before, entry), log)
  {
    if log.entry == entry {
      before := log.before;
    } else {
      before := EntryWasJustified(log.before, entry);
    }
  }

  /** Before Panta's own expiry by more than five seconds, or within a minute of receipt. */
  predicate InTime(seen: View, at: int) {
    seen.quote.Some? &&
    match seen.quote.value.expiry
    case Some(t) => at + 5000 < t
    case None => at < seen.receivedAt + 60000
  }

  lemma StoredInTime(before: TradeTicket.Log, no: nat, seen: View, askedAt: int, storedAt: int)
    requires Justified(before, Stored(no, seen, askedAt, storedAt))
    ensures askedAt <= storedAt && InTime(seen, askedAt) && InTime(seen, storedAt) && Arrived(before, seen)
    ensures seen.inputs.wallet == seen.quoteWallet && seen.inputs.amount == seen.quote.value.amount
  {
    PassMeans(seen.quote, BindingAt(seen, storedAt), seen.inputs, storedAt, None);
    PassMeans(seen.quote, BindingAt(seen, askedAt), seen.inputs, askedAt, None);
    hide QuoteGuard, Arrived;
  }

  lemma WalletAskedInTime(before: TradeTicket.Log, no: nat, seen: View, guardedAt: int)
    requires Justified(before, WalletAsked(no, seen, guardedAt))
    ensures InTime(seen, guardedAt) && !Signature(before, no)
    ensures seen.binding.Some? && seen.inputs.wallet == Some(seen.binding.value.wallet)
    ensures seen.inputs.slippage == Some(seen.binding.value.slippage)
    ensures seen.binding.value.buildWallet.Some? ==> seen.binding.value.buildWallet == seen.inputs.wallet
    ensures seen.quote.value.side.Some? ==> seen.quote.value.side.value == seen.inputs.side
    ensures seen.build.Some? && seen.build.value.no == no && OfItsBuild(before, seen)
  {
    PassMeans(seen.quote, BindingAt(seen, guardedAt), seen.inputs, guardedAt, seen.binding);
    hide QuoteGuard;
    StoredFromMeans(before, seen);
  }

  /** The log has the entry that stored the build of `v`: from the quote of `v`, for its wallet and
      with its slippage. */
  ghost predicate OfItsBuild(log: TradeTicket.Log, v: View) {
    exists made: Entry :: Has(log, made) && Made(made, v)
  }

  lemma {:induction false} StoredFromMeans(log: TradeTicket.Log, v: View)
    requires StoredFrom(log, v)
    ensures OfItsBuild(log, v)
  {
    if Made(log.entry, v) {
      assert Has(log, log.entry);
    } else {
      StoredFromMeans(log.before, v);
      var made: Entry :| Has(log.before, made) && Made(made, v);
      assert Has(log, made);
    }
  }

  lemma {:induction false} StoredNumbersAreCounted(log: TradeTicket.Log, entry: Entry)
    requires Safe(log) && Has(log, entry) && entry.Stored?
    ensures entry.no < StoredCount(log)
  {
    if log.entry != entry {
      StoredNumbersAreCounted(log.before, entry);
    }
    hide GuardAt, Arrived;
  }

  /** A build is stored once, so the entry of a build is unique. */
  lemma {:induction false} StoredOnce(log: TradeTicket.Log, a: Entry, b: Entry)
    requires Safe(log) && Has(log, a) && Has(log, b) && a.Stored? && b.Stored? && a.no == b.no
    ensures a == b
  {
    if log.entry == a {
      if a != b {
        StoredNumbersAreCounted(log.before, b);
      }
    } else if log.entry == b {
      StoredNumbersAreCounted(log.before, a);
    } else {
      StoredOnce(log.before, a, b);
    }
    hide GuardAt, Arrived;
  }

  /** What the invariant is worth to a reader of the log. */
  lemma InvariantMeans(s: System)
    requires Invariant(s)
    ensures Safe(s.log)
    ensures forall no: nat :: Signatures(s.log, no) <= 1
    ensures forall entry: Entry :: Has(s.log, entry) ==>
              && (entry.Stored? ==> InTime(entry.seen, entry.askedAt) && InTime(entry.seen, entry.storedAt))
              && (entry.WalletAsked? ==> InTime(entry.seen, entry.guardedAt) && OfItsBuild(s.log, entry.seen))
              && (entry.Submitted? ==> Has(s.log, Observed(entry.sig)))
  {
    assert Safe(s.log);
    hide Safe, Invariant, InTime, Justified, OfItsBuild;
    forall no: nat ensures Signatures(s.log, no) <= 1 {
      OneSignaturePerBuild(s.log, no);
    }
    forall entry: Entry | Has(s.log, entry)
      ensures (entry.Stored? ==> InTime(entry.seen, entry.askedAt) && InTime(entry.seen, entry.storedAt))
              && (entry.WalletAsked? ==> InTime(entry.seen, entry.guardedAt) && OfItsBuild(s.log, entry.seen))
              && (entry.Submitted? ==> Has(s.log, Observed(entry.sig)))
    {
      EntryInTime(s.log, entry);
    }
  }

  lemma EntryInTime(log: TradeTicket.Log, entry: Entry)
    requires Safe(log) && Has(log, entry)
    ensures entry.Stored? ==> InTime(entry.seen, entry.askedAt) && InTime(entry.seen, entry.storedAt)
    ensures entry.WalletAsked? ==> InTime(entry.seen, entry.guardedAt) && OfItsBuild(log, entry.seen)
    ensures entry.Submitted? ==> Has(log, Observed(entry.sig))
  {
    var before := EntryWasJustified(log, entry);
    hide Safe, InTime, Arrived;
    match entry
    case Stored(no, seen, askedAt, storedAt) => StoredInTime(before, no, seen, askedAt, storedAt);
    case WalletAsked(no, seen, guardedAt) =>
      WalletAskedInTime(before, no, seen, guardedAt);
      var made: Entry :| Has(before, made) && Made(made, seen);
      HasStays(before, entry, log, made);
    case Submitted(sig) => ObservedStays(before, entry, log, sig);
    case _ =>
  }

  lemma {:induction false} HasStays(before: TradeTicket.Log, entry: Entry, log: TradeTicket.Log, made: Entry)
    requires StageOf(Then(before, entry), log) && Has(before, made)
    ensures Has(log, made)
  {
    if log != Then(before, entry) {
      HasStays(before, entry, log.before, made);
    }
  }

  lemma {:induction false} ObservedStays(before: TradeTicket.Log, entry: Entry, log: TradeTicket.Log, sig: string)
    requires StageOf(Then(before, entry), log) && WasObserved(before, sig)
    ensures Has(log, Observed(sig))
  {
    if log == Then(before, entry) {
      ObservedIsThere(before, sig);
    } else {
      ObservedStays(before, entry, log.before, sig);
    }
  }

  lemma {:induction false} ObservedIsThere(log: TradeTicket.Log, sig: string)
    requires WasObserved(log, sig)
    ensures Has(log, Observed(sig))
  {
    if log.entry != Observed(sig) {
      ObservedIsThere(log.before, sig);
    }
  }

  /** In every run of the ticket, with only what the interface enables, guided, step by step or
      both: each stored build yields at most one signature; each was stored on a quote that was
      in time before it was asked for and when it came; the wallet was asked with the quote in
      time, for a build stored earlier from that quote, for that wallet and slippage; each order
      submitted was for a signature already observed confirmed. */
  lemma EveryRunIsSafe(s: System, run: seq<Event>, no: nat, entry: Entry)
    requires Opened(s) && PossibleRun(s, run)
    ensures var log := After(s, run).log;
            && Safe(log)
            && Signatures(log, no) <= 1
            && (Has(log, entry) ==> exists before :: StageOf(Then(before, entry), log) && Justified(before, entry))
            && (Has(log, entry) && entry.Stored? ==>
                  InTime(entry.seen, entry.askedAt) && InTime(entry.seen, entry.storedAt))
            && (Has(log, entry) && entry.WalletAsked? ==>
                  InTime(entry.seen, entry.guardedAt)
                  && exists before :: StageOf(Then(before, entry), log) && OfItsBuild(before, entry.seen))
            && (Has(log, entry) && entry.Submitted? ==>
                  exists before :: StageOf(Then(before, entry), log) && WasObserved(before, entry.sig))
  {
    assert Invariant(s);
    RunsKeepInvariant(s, run);
    var log := After(s, run).log;
    assert Safe(log);
    hide Safe, Invariant, After, PossibleRun, InTime, Arrived, WasObserved, OfItsBuild;
    OneSignaturePerBuild(log, no);
    if Has(log, entry) {
      var before := EntryWasJustified(log, entry);
      if entry.Stored? {
        StoredInTime(before, entry.no, entry.seen, entry.askedAt, entry.storedAt);
      }
      if entry.WalletAsked? {
        WalletAskedInTime(before, entry.no, entry.seen, entry.guardedAt);
      }
      assert entry.Submitted? ==> WasObserved(before, entry.sig);
    }
  }

  // ---- when the wallet is asked again for a build

  function Prompts(log: TradeTicket.Log, no: nat): nat {
    if log.Begin? then 0
    else Prompts(log.before, no) + if log.entry.WalletAsked? && log.entry.no == no then 1 else 0
  }

  /** After a signature of the build nothing that is justified asks for it again. */
  lemma {:induction false} NoPromptAfterSignature(log: TradeTicket.Log, later: TradeTicket.Log, no: nat)
    requires StageOf(log, later) && Safe(later) && Signature(log, no)
    ensures Signature(later, no) && Prompts(later, no) == Prompts(log, no)
  {
    if log != later {
      NoPromptAfterSignature(log, later.before, no);
      hide GuardAt, Arrived, WasObserved, StoredFrom;
    }
  }

  lemma AnswerGrowsLog(s: System, r: Run, reply: Reply)
    requires Fits(r, reply)
    ensures StageOf(s.log, Resume(s, r, reply).log)
  {
    if !reply.Threw? && r.await in {Settling, Checking} {
      SettlingGrowsLog(s, r, reply.tx);
      hide AfterSettling;
    } else if !reply.Threw? && r.await == Polls {
      VerdictGrowsLog(s, r, reply.phase);
      hide AfterVerdict;
    } else if !reply.Threw? && r.await == ForBuild {
      BuildGrowsLog(s, r, reply);
      hide AfterBuild;
    } else {
      hide AfterSettling, AfterBuild, AfterVerdict, Throw, StartVerify;
    }
  }

  lemma BuildGrowsLog(s: System, r: Run, b: Reply)
    requires b.GotBuild? && r.seen.inputs.wallet.Some? && r.seen.inputs.slippage.Some?
    ensures StageOf(s.log, AfterBuild(s, r, b).log)
  {
    assert Store(s, r, b).log == Then(s.log, Stored(s.builds, r.seen, r.guardedAt, s.clock));
    assert StageOf(s.log, s.log);
    hide GuardAt, Throw, Refuse, Store;
  }

  lemma SettlingGrowsLog(s: System, r: Run, tx: TxPhase)
    requires r.sig.Some?
    ensures StageOf(s.log, AfterSettling(s, r, tx).log)
  {
    var u := Then(s.log, Observed(r.sig.value));
    assert StageOf(s.log, s.log);
    assert StageOf(s.log, u);
    assert StageOf(s.log, Then(u, Submitted(r.sig.value)));
    hide Throw, IsReady, StageOf;
  }

  lemma VerdictGrowsLog(s: System, r: Run, phase: VerifyPhase)
    ensures StageOf(s.log, AfterVerdict(s, r, phase).log)
  {
    hide Throw, StartReport;
  }

  lemma StepGrowsLog(s: System, e: Event)
    requires Invariant(s) && Possible(s, e)
    ensures StageOf(s.log, Step(s, e).log)
  {
    match e
    case Edit(_, _, _, _, _, _) =>
    case Tick(_) =>
    case Back =>
    case LedgerListed =>
    case Click(kind, at) =>
      O.ClickLogs(s, kind, at);
      hide Step;
    case Answer(reply, at) =>
      AnswerGrowsLog(s.(clock := at), s.run.value, reply);
      hide Invariant, Resume;
  }

  predicate Prompting(s: System) {
    s.run.Some? && s.run.value.await in {ForWallet, Sending}
  }

  /** The wallet's or the send's error, which ends the run that asked. */
  predicate PromptFails(s: System, e: Event) {
    Prompting(s) && e.Answer? && e.reply.Threw?
  }

  /** The wallet has been asked for the build, and neither has it failed nor can it be asked again. */
  predicate Taken(s: System, no: nat) {
    (Prompting(s) && s.view.build.Some? && s.view.build.value.no == no) || Signature(s.log, no)
  }

  lemma TakenStep(s: System, e: Event, no: nat)
    requires Invariant(s) && Possible(s, e) && Taken(s, no) && !PromptFails(s, e)
    ensures Taken(Step(s, e), no) && Prompts(Step(s, e).log, no) == Prompts(s.log, no)
  {
    if Signature(s.log, no) {
      StepGrowsLog(s, e);
      StepKeepsInvariant(s, e);
      hide Step, Safe, BuildFits, SignatureFits, QuoteFits, RunFits, StoredCount, SignedBuilds, StageOf, Signature,
           Prompts;
      NoPromptAfterSignature(s.log, Step(s, e).log, no);
    } else {
      PromptHolds(s, e, no);
    }
  }

  lemma PromptHolds(s: System, e: Event, no: nat)
    requires Invariant(s) && Possible(s, e) && !PromptFails(s, e)
    requires Prompting(s) && s.view.build.Some? && s.view.build.value.no == no
    ensures Taken(Step(s, e), no) && Prompts(Step(s, e).log, no) == Prompts(s.log, no)
  {
    assert s.view.busy && SameOffer(s.view, s.run.value.seen);
    hide Invariant, Enabled, GuardAt;
  }

  ghost predicate NoPromptFails(s: System, run: seq<Event>)
    requires PossibleRun(s, run)
    decreases |run|
  {
    run == [] || (!PromptFails(s, run[0]) && NoPromptFails(Step(s, run[0]), run[1..]))
  }

  /** Once the wallet has been asked for a build, it is asked for it again only after the wallet
      or the send has failed in a run that asked: over every run without such a failure, never. */
  lemma {:induction false} AskedAgainOnlyAfterFailure(s: System, run: seq<Event>, no: nat)
    requires Invariant(s) && Taken(s, no) && PossibleRun(s, run) && NoPromptFails(s, run)
    ensures Prompts(After(s, run).log, no) == Prompts(s.log, no)
    decreases |run|
  {
    if run != [] {
      TakenStep(s, run[0], no);
      StepKeepsInvariant(s, run[0]);
      hide Invariant, Step, Possible, Taken, PromptFails, Prompts;
      AskedAgainOnlyAfterFailure(Step(s, run[0]), run[1..], no);
    }
  }
}
