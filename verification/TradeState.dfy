/** The pure rules of the trade ticket (src/lib/trade-state.ts, lines 551-897).

    A clock reading, an expiry and a deadline are whole milliseconds, as `Date.now` and
    `Date.parse` give them; `expiry` is `None` where the quote carries no time that parses, and
    a quoted amount is `None` where `Number` makes it NaN. `marketId` in the inputs is trimmed. */
module TradeState {
  import opened Wrappers

  const FALLBACK_TTL_MS: int := 60000
  const EXPIRY_MARGIN_MS: int := 5000

  datatype Stage = Quoting | Building | Sign | Broadcast | Confirm | Submit | Verify | Attribute

  datatype State =
    | Disconnected | Ready | QuotingState | QuoteFailed | QuoteUnavailable | QuoteReady | QuoteStale | QuoteExpired
    | BuildingState | BuildFailed | BuildUnavailable | PresignFailed | Review
    | AwaitingSignature | SignatureRejected | SignFailed | BroadcastFailed
    | ConfirmingState | ConfirmTimeout | TxFailed | ConfirmedState
    | SubmitFailed | Verifying | VerifySlow | VerifyFailed | VerifiedState
    | ReportingState | NeedsAttentionState | ReportedState | AttributedUnverified | AttributedState
    | ClosedResolved | ClosedCancelled | ClosedSecondary

  /** What is known of a thrown error: whether the wallet says the user declined, and whether
      it is Panta's "no price right now". */
  datatype Error = Error(rejection: bool, pricing: bool)

  function Classify(stage: Option<Stage>, e: Error, presign: bool): State {
    match stage
    case Some(Quoting) => if e.pricing then QuoteUnavailable else QuoteFailed
    case Some(Building) => if presign then PresignFailed else if e.pricing then BuildUnavailable else BuildFailed
    case Some(Sign) => if presign then PresignFailed else if e.rejection then SignatureRejected else SignFailed
    case Some(Broadcast) => if e.rejection then SignatureRejected else BroadcastFailed
    case Some(Confirm) => ConfirmTimeout
    case Some(Submit) => SubmitFailed
    case Some(Verify) => VerifyFailed
    case Some(Attribute) => SubmitFailed
    case None => if e.rejection then SignatureRejected else QuoteFailed
  }

  /** What a handler may fail with. */
  const FAILURES: set<State> := {
    QuoteFailed, QuoteUnavailable, QuoteExpired, BuildFailed, BuildUnavailable, PresignFailed, SignatureRejected,
    SignFailed, BroadcastFailed, ConfirmTimeout, SubmitFailed, VerifyFailed}

  lemma ClassifyIsFailure(stage: Option<Stage>, e: Error, presign: bool)
    ensures Classify(stage, e, presign) in FAILURES
  {
  }

  /** The two failures after which the ticket offers to sign again. */
  predicate MaySignAgain(f: State) {
    f == SignatureRejected || f == SignFailed
  }

  /** They only come from before a signature can exist. */
  lemma SignAgainStages(stage: Option<Stage>, e: Error, presign: bool)
    requires MaySignAgain(Classify(stage, e, presign))
    ensures stage in {None, Some(Sign), Some(Broadcast)}
  {
    match stage
    case None =>
    case Some(_) =>
  }

  function Deadline(expiry: Option<int>, receivedAt: int): int {
    match expiry
    case Some(t) => t - EXPIRY_MARGIN_MS
    case None => receivedAt + FALLBACK_TTL_MS
  }

  /** `Math.ceil(x / 1000)`: the quotient rounded up. */
  function CeilSeconds(ms: int): int {
    -((-ms) / 1000)
  }

  function SecondsLeft(deadline: int, now: int): int {
    var s := CeilSeconds(deadline - now);
    if s > 0 then s else 0
  }

  /** The countdown is the fewest whole seconds that reach the deadline, so it reads 0 exactly
      when the deadline has come. */
  lemma CountdownIsExact(deadline: int, now: int)
    ensures var s := SecondsLeft(deadline, now);
            && s >= 0
            && now + 1000 * s >= deadline
            && (s > 0 ==> now + 1000 * (s - 1) < deadline)
            && (s == 0 <==> now >= deadline)
  {
    var ms := deadline - now;
    assert -ms == 1000 * ((-ms) / 1000) + (-ms) % 1000;
  }

  datatype Quote = Quote(marketId: string, side: Option<string>, amount: Option<real>, expiry: Option<int>)

  datatype Inputs = Inputs(
    marketId: string, side: string, amount: Option<real>, wallet: Option<string>, slippage: Option<int>)

  datatype Binding = Binding(wallet: string, receivedAt: int)

  datatype BuildBinding = BuildBinding(wallet: string, slippage: int, buildWallet: Option<string>)

  datatype Reason =
    | NoQuote | Expired | MarketChanged | SideChanged | AmountChanged | AmountInvalid
    | WalletChanged | SlippageChanged | SlippageInvalid | BuildWalletMismatch

  datatype Guard = Pass | Stale(reason: Reason)

  function QuoteGuard(quote: Option<Quote>, binding: Option<Binding>, inputs: Inputs, now: int,
                      build: Option<BuildBinding>): Guard
  {
    if quote.None? || binding.None? then Stale(NoQuote)
    else
      var q := quote.value;
      var b := binding.value;
      if q.marketId != inputs.marketId then Stale(MarketChanged)
      else if q.side.Some? && q.side.value != inputs.side then Stale(SideChanged)
      else if inputs.amount.None? then Stale(AmountInvalid)
      else if q.amount != inputs.amount then Stale(AmountChanged)
      else if inputs.wallet.None? || inputs.wallet.value == "" || inputs.wallet.value != b.wallet then
        Stale(WalletChanged)
      else if now >= Deadline(q.expiry, b.receivedAt) then Stale(Expired)
      else if build.Some? then
        var w := build.value;
        if w.wallet != inputs.wallet.value || (w.buildWallet.Some? && w.buildWallet.value != inputs.wallet.value) then
          Stale(BuildWalletMismatch)
        else if inputs.slippage.None? then Stale(SlippageInvalid)
        else if inputs.slippage.value != w.slippage then Stale(SlippageChanged)
        else Pass
      else Pass
  }

  predicate InputStale(r: Reason) {
    r in {MarketChanged, SideChanged, AmountChanged, AmountInvalid, WalletChanged}
  }

  /** Without both wallets the comparison of wallets is skipped. */
  function IsQuoteStale(quote: Option<Quote>, inputs: Inputs, quoteWallet: Option<Option<string>>): bool {
    if quote.None? then false
    else
      var w := if quoteWallet.Some? then inputs.wallet else Some("-");
      var b := if quoteWallet.Some? then quoteWallet.value.GetOr("") else "-";
      var g := QuoteGuard(Some(quote.value.(expiry := None)), Some(Binding(b, 0)), inputs.(wallet := w), 0, None);
      g.Stale? && InputStale(g.reason)
  }

  /** What a passed guard is worth: the order is the one quoted, for the wallet it was quoted
      for, and the deadline has not come: more than five seconds before Panta's own expiry, or
      within a minute of receipt where Panta gave none. */
  lemma PassMeans(quote: Option<Quote>, binding: Option<Binding>, inputs: Inputs, now: int, build: Option<BuildBinding>)
    requires QuoteGuard(quote, binding, inputs, now, build).Pass?
    ensures quote.Some? && binding.Some?
    ensures quote.value.marketId == inputs.marketId && inputs.amount.Some? && quote.value.amount == inputs.amount
    ensures quote.value.side.Some? ==> quote.value.side.value == inputs.side
    ensures inputs.wallet == Some(binding.value.wallet)
    ensures match quote.value.expiry
            case Some(t) => now + 5000 < t
            case None => now < binding.value.receivedAt + 60000
    ensures build.Some? ==>
              && Some(build.value.wallet) == inputs.wallet && Some(build.value.slippage) == inputs.slippage
              && (build.value.buildWallet.Some? ==> build.value.buildWallet == inputs.wallet)
  {
  }

  /** The order is the one quoted, for the wallet it was quoted for. */
  predicate IsQuoted(q: Quote, wallet: string, inputs: Inputs) {
    && q.marketId == inputs.marketId && (q.side.Some? ==> q.side == Some(inputs.side))
    && inputs.amount.Some? && q.amount == inputs.amount
    && wallet != "" && inputs.wallet == Some(wallet)
  }

  /** The build was made for the wallet and the slippage in the inputs. */
  predicate IsBuiltFor(b: BuildBinding, inputs: Inputs) {
    && inputs.wallet == Some(b.wallet) && inputs.slippage == Some(b.slippage)
    && (b.buildWallet.Some? ==> b.buildWallet == inputs.wallet)
  }

  /** The guard passes exactly then; and it says that the quote has run out exactly when that is the
      first thing wrong with it. */
  lemma PassIff(quote: Option<Quote>, binding: Option<Binding>, inputs: Inputs, now: int, build: Option<BuildBinding>)
    ensures var guard := QuoteGuard(quote, binding, inputs, now, build);
            && (guard.Pass? <==>
                  && quote.Some? && binding.Some? && IsQuoted(quote.value, binding.value.wallet, inputs)
                  && now < Deadline(quote.value.expiry, binding.value.receivedAt)
                  && (build.Some? ==> IsBuiltFor(build.value, inputs)))
            && (guard == Stale(Expired) <==>
                  && quote.Some? && binding.Some? && IsQuoted(quote.value, binding.value.wallet, inputs)
                  && now >= Deadline(quote.value.expiry, binding.value.receivedAt))
  {
  }

  /** Waiting never helps: what passes later passed earlier, for the same inputs. */
  lemma PassedBefore(quote: Option<Quote>, binding: Option<Binding>, inputs: Inputs, early: int, late: int,
                     build: Option<BuildBinding>)
    requires early <= late && QuoteGuard(quote, binding, inputs, late, build).Pass?
    ensures QuoteGuard(quote, binding, inputs, early, build).Pass?
  {
  }

  /** The stale flag and the deadline together are the guard: at any time before the deadline,
      the flag is set exactly when the guard refuses. */
  lemma StaleFlagIsGuard(quote: Quote, inputs: Inputs, wallet: string, receivedAt: int, now: int)
    requires now < Deadline(quote.expiry, receivedAt)
    ensures IsQuoteStale(Some(quote), inputs, Some(Some(wallet)))
       <==> !QuoteGuard(Some(quote), Some(Binding(wallet, receivedAt)), inputs, now, None).Pass?
  {
  }

  datatype TxPhase = Unsent | Confirming | Confirmed | Pending | Failed | Lapsed

  datatype VerifyPhase = Unverified | Polling | Verified | Refused | TimedOut

  datatype AttrPhase = Unreported | Reporting | Reported | Attributed | NeedsAttention

  datatype Closing = Resolved | Cancelled | Secondary

  datatype Snapshot = Snapshot(
    connected: bool, closed: Option<Closing>, running: Option<Stage>, failure: Option<State>,
    hasQuote: bool, quoteExpired: bool, quoteStale: bool, hasBuild: bool, presignOk: bool, reviewOpen: bool,
    hasSignature: bool, tx: TxPhase, verify: VerifyPhase, attr: AttrPhase)

  function RunningState(stage: Stage): State {
    match stage
    case Quoting => QuotingState
    case Building => BuildingState
    case Sign => AwaitingSignature
    case Broadcast => ConfirmingState
    case Confirm => ConfirmingState
    case Submit => Verifying
    case Verify => Verifying
    case Attribute => Verifying
  }

  predicate RetryAtQuote(f: State) {
    f in {SignatureRejected, SignFailed, BuildFailed, BuildUnavailable}
  }

  /** Lines 889 to 896: nothing is running, nothing failed, nothing is on-chain to track. */
  function BeforeSigning(s: Snapshot): State {
    if !s.connected then Disconnected
    else if !s.hasQuote then Ready
    else if s.quoteStale then QuoteStale
    else if s.quoteExpired then QuoteExpired
    else if s.reviewOpen || (s.hasBuild && s.presignOk) then Review
    else QuoteReady
  }

  function Derive(s: Snapshot): State {
    if s.closed.Some? then
      (match s.closed.value
       case Resolved => ClosedResolved
       case Cancelled => ClosedCancelled
       case Secondary => ClosedSecondary)
    else if s.attr == Attributed then
      if s.verify == Verified then AttributedState
      else if s.verify == Refused then VerifyFailed
      else if s.running == Some(Verify) then Verifying
      else AttributedUnverified
    else if s.running == Some(Attribute) && s.verify == Verified then ReportingState
    else if s.running.Some? then RunningState(s.running.value)
    else if s.hasSignature && (s.tx == Failed || s.tx == Lapsed) then TxFailed
    else if s.failure.Some? && !s.hasSignature && s.hasQuote && s.quoteExpired && RetryAtQuote(s.failure.value) then
      QuoteExpired
    else if s.failure.Some? then s.failure.value
    else if s.hasSignature && s.attr == NeedsAttention && s.tx == Confirmed then NeedsAttentionState
    else if s.hasSignature && s.attr == Reporting && s.verify == Verified then ReportingState
    else if s.hasSignature && s.tx == Pending then ConfirmTimeout
    else if s.hasSignature && s.tx == Confirming then ConfirmingState
    else if s.hasSignature && s.verify == TimedOut then VerifySlow
    else if s.hasSignature && s.verify == Verified then VerifiedState
    else if s.hasSignature && (s.verify == Polling || s.attr == Reporting) then Verifying
    else if s.hasSignature && s.attr == Reported then ReportedState
    else if s.hasSignature && s.tx == Confirmed then ConfirmedState
    else BeforeSigning(s)
  }

  datatype Offer =
    | Connect | GetQuote | RefreshQuote | NewQuote | OpenReview | Approve | RetrySign
    | CheckConfirmation | SubmitOrder | RecheckVerify | RetryAttribution | Nothing

  /** The `action` column of the table of states (lines 104-500). */
  function OfferOf(s: State): Offer {
    match s
    case Disconnected => Connect
    case Ready | QuoteFailed | QuoteUnavailable => GetQuote
    case QuoteStale | QuoteExpired | BuildFailed => RefreshQuote
    case PresignFailed | BroadcastFailed | TxFailed => NewQuote
    case QuoteReady | BuildUnavailable => OpenReview
    case Review => Approve
    case SignatureRejected | SignFailed => RetrySign
    case ConfirmTimeout => CheckConfirmation
    case ConfirmedState | SubmitFailed => SubmitOrder
    case VerifySlow | VerifyFailed | ReportedState | AttributedUnverified => RecheckVerify
    case NeedsAttentionState => RetryAttribution
    case _ => Nothing
  }

  /** The ticket says "attributed" only when Panta has verified the order too, and "verified"
      only then. */
  lemma VerifiedMeansVerified(s: Snapshot)
    requires s.failure.Some? ==> s.failure.value !in {AttributedState, VerifiedState}
    ensures Derive(s) == AttributedState <==> s.closed.None? && s.attr == Attributed && s.verify == Verified
    ensures Derive(s) == VerifiedState ==> s.verify == Verified && s.hasSignature
  {
  }

  /** Nothing runs, the market is open, the ledger has not listed the trade, and the chain has not
      thrown it out: what was last done decides. */
  predicate IsIdle(s: Snapshot) {
    && s.closed.None? && s.attr != Attributed && s.running.None?
    && !(s.hasSignature && s.tx in {Failed, Lapsed})
  }

  /** The trade has gone as far as `tx` says, with no failure since. */
  predicate IsAt(s: Snapshot, tx: TxPhase) {
    s.failure.None? && s.hasSignature && s.tx == tx
  }

  predicate IsReporting(s: Snapshot) {
    s.attr == Reporting && s.verify == Verified
  }

  /** When each step of a trade that is on its way is offered. */
  lemma OfferedIff(s: Snapshot)
    requires s.failure.Some? ==> s.failure.value in FAILURES
    ensures var offer := OfferOf(Derive(s));
            && (offer == CheckConfirmation <==>
                  IsIdle(s) && (s.failure == Some(ConfirmTimeout) || (IsAt(s, Pending) && !IsReporting(s))))
            && (offer == SubmitOrder <==>
                  IsIdle(s)
                  && (s.failure == Some(SubmitFailed)
                      || (IsAt(s, Confirmed) && s.verify in {Unverified, Refused} && s.attr == Unreported)))
            && (offer == RetryAttribution <==> IsIdle(s) && IsAt(s, Confirmed) && s.attr == NeedsAttention)
            && (offer == RecheckVerify <==>
                  || (s.closed.None? && s.attr == Attributed && s.verify != Verified && !IsVerifying(s))
                  || (IsIdle(s)
                      && (s.failure == Some(VerifyFailed)
                          || (s.failure.None? && s.hasSignature && s.tx in {Unsent, Confirmed}
                              && !(s.attr == NeedsAttention && s.tx == Confirmed)
                              && (s.verify == TimedOut || (s.verify in {Unverified, Refused} && s.attr == Reported))))))
            && (offer == RetrySign <==>
                  IsIdle(s) && s.failure.Some? && MaySignAgain(s.failure.value)
                  && !(!s.hasSignature && s.hasQuote && s.quoteExpired))
  {
  }

  /** When each stage that a trade has reached is shown. */
  lemma ProgressIff(s: Snapshot)
    requires s.failure.Some? ==> s.failure.value in FAILURES
    ensures var shown := Derive(s);
            var past := IsIdle(s) && s.failure.None? && s.hasSignature && s.tx in {Unsent, Confirmed}
                        && !(s.attr == NeedsAttention && s.tx == Confirmed) && !IsReporting(s);
            && (shown == TxFailed <==>
                  && s.closed.None? && s.attr != Attributed && s.running.None?
                  && s.hasSignature && s.tx in {Failed, Lapsed})
            && (shown == ConfirmingState <==>
                  || (s.closed.None? && s.attr != Attributed && s.running in {Some(Broadcast), Some(Confirm)})
                  || (IsIdle(s) && IsAt(s, Confirming) && !IsReporting(s)))
            && (shown == VerifySlow <==> past && s.verify == TimedOut)
            && (shown == VerifiedState <==> past && s.verify == Verified)
            && (shown == ReportedState <==> past && s.verify in {Unverified, Refused} && s.attr == Reported)
            && (shown == ConfirmedState <==>
                  past && s.verify in {Unverified, Refused} && s.attr !in {Reported, Reporting} && s.tx == Confirmed)
  {
  }

  /** Panta is being asked again. */
  predicate IsVerifying(s: Snapshot) {
    s.running == Some(Verify) && s.verify != Refused
  }

  /** What a listed trade is said to be. */
  lemma ListedMeans(s: Snapshot)
    requires s.closed.None? && s.attr == Attributed
    ensures Derive(s) == match s.verify
                         case Verified => AttributedState
                         case Refused => VerifyFailed
                         case _ => if s.running == Some(Verify) then Verifying else AttributedUnverified
  {
  }

  /** Signing again is offered for the two failures before a signature, on a quote that has not
      run out, and for nothing else. */
  lemma SigningAgainIsOffered(s: Snapshot)
    ensures OfferOf(Derive(s)) == RetrySign ==>
              && s.failure.Some? && MaySignAgain(s.failure.value)
              && s.running.None?
              && !(s.hasSignature && s.tx in {Failed, Lapsed})
              && !(!s.hasSignature && s.hasQuote && s.quoteExpired)
  {
  }
}
