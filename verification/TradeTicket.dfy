/** The trade ticket (src/components/PrimaryBuyPanel.tsx) as a step system.

    A `View` is the state one render sees. A click starts a run, which keeps the view it was
    clicked in (`seen`) for as long as it lasts: a handler reads the inputs, the quote and the
    build of its own render, and writes to whatever the state is by then. A run is cut where it
    awaits; between two of its steps the inputs, the wallet, the clock and the attribution
    phase may change in any way. A run disables every action until it ends, so there is at
    most one. */
module TradeTicket {
  import opened Wrappers
  import opened Logs
  import opened TradeState

  /** A stored build: how many were stored before it, and whether it has instructions and a
      blockhash, and an order id. */
  datatype Build = Build(no: nat, signable: bool, hasOrder: bool)

  /** `formed` says that the market id and the attribution reference are well-formed, `shown` is
      the time on the ticket's own clock, and `guided` is its mode. */
  datatype View = View(
    inputs: Inputs, formed: bool, connected: bool, canSign: bool, closed: Option<Closing>, guided: bool,
    shown: int, quote: Option<Quote>, quoteWallet: Option<string>, receivedAt: int,
    build: Option<Build>, binding: Option<BuildBinding>, check: Option<bool>,
    signature: Option<string>, tx: TxPhase, verify: VerifyPhase, attr: AttrPhase,
    failure: Option<State>, stage: Option<Stage>, busy: bool, reviewOpen: bool)

  datatype Kind =
    | AskForQuote | BuildAndReview | BuildOnly | ApproveAll | SignOnly | CheckOnly
    | SubmitOnly | VerifyOnly | ReportOnly | FinishAll | Recheck | RetryReport

  /** What a run waits for. `Preflight` stands for three awaits in a row that change nothing. */
  datatype Await =
    | ForQuote | BuildNet | ForBuild | SignNet | Preflight | ForWallet | Sending
    | Settling | Checking | Submitting | Polls | Filing

  datatype Run = Run(kind: Kind, seen: View, await: Await, guardedAt: int, sig: Option<string>)

  datatype Entry =
    | Quoted(quote: Quote, wallet: string, at: int)
    | Stored(no: nat, seen: View, askedAt: int, storedAt: int)
    | WalletAsked(no: nat, seen: View, guardedAt: int)
    | Recorded(no: nat, sig: string)
    | Observed(sig: string)
    | Submitted(sig: string)

  /** Everything that mattered so far, newest first. */
  type Log = Logs.Log<Entry>

  datatype System = System(view: View, run: Option<Run>, payload: Option<string>, builds: nat, clock: int, log: Log)

  datatype Reply =
    | Threw(error: Error)
    | GotQuote(quote: Quote)
    | Net(ok: bool, checkOk: bool)
    | GotBuild(signable: bool, hasOrder: bool, wallet: Option<string>, checkOk: bool)
    | Cleared | Stopped
    | Signed | Sent(sig: string)
    | Settled(tx: TxPhase)
    | Accepted
    | Verdict(phase: VerifyPhase)
    | Filed(attr: AttrPhase)

  datatype Event =
    | Edit(inputs: Inputs, formed: bool, connected: bool, canSign: bool, closed: Option<Closing>, guided: bool)
    | Tick(at: int)
    | Back
    | LedgerListed
    | Click(kind: Kind, at: int)
    | Answer(reply: Reply, at: int)

  const PLAIN := Error(false, false)

  // ---- what a render shows

  function BindingAt(v: View, now: int): Option<Binding> {
    if v.quoteWallet.Some? && v.quoteWallet.value != "" then
      Some(Binding(v.quoteWallet.value, if v.receivedAt == 0 then now else v.receivedAt))
    else None
  }

  function GuardAt(v: View, now: int, build: Option<BuildBinding>): Guard {
    QuoteGuard(v.quote, BindingAt(v, now), v.inputs, now, build)
  }

  function Countdown(v: View): Option<int> {
    if v.quote.None? then None
    else Some(SecondsLeft(Deadline(v.quote.value.expiry, if v.receivedAt == 0 then v.shown else v.receivedAt), v.shown))
  }

  predicate QuoteRanOut(v: View) {
    Countdown(v) == Some(0)
  }

  function LiveGuard(v: View): Guard {
    GuardAt(v, v.shown, if v.build.Some? then v.binding else None)
  }

  predicate QuoteIsStale(v: View) {
    v.quote.Some? && LiveGuard(v).Stale? && (InputStale(LiveGuard(v).reason) || LiveGuard(v).reason == NoQuote)
  }

  predicate BuildIsStale(v: View) {
    && v.build.Some? && v.quote.Some? && LiveGuard(v).Stale?
    && (LiveGuard(v).reason in {SlippageChanged, SlippageInvalid, BuildWalletMismatch} || v.binding.None?)
  }

  /** What the derivation of the ticket's state is given. */
  function Facts(v: View): Snapshot {
    var stale := BuildIsStale(v);
    Snapshot(
      v.connected && v.inputs.wallet.Some?, v.closed, if v.busy then v.stage else None, v.failure,
      v.quote.Some?, QuoteRanOut(v), QuoteIsStale(v),
      v.build.Some? && !stale, v.check == Some(true) && !stale, v.reviewOpen && !stale,
      v.signature.Some?, v.tx, v.verify, v.attr)
  }

  function Shown(v: View): State {
    Derive(Facts(v))
  }

  predicate Flagged(v: View) {
    QuoteRanOut(v) || QuoteIsStale(v) || BuildIsStale(v)
  }

  /** The three flags that disable signing are the guard at the displayed time. */
  lemma FlagsAreTheGuard(v: View)
    requires v.quote.Some? && (v.build.Some? ==> v.binding.Some?)
    ensures Flagged(v) <==> !LiveGuard(v).Pass?
  {
    var at := if v.receivedAt == 0 then v.shown else v.receivedAt;
    CountdownIsExact(Deadline(v.quote.value.expiry, at), v.shown);
    hide SecondsLeft;
  }

  /** The countdown on screen reads 0 exactly when the guard's own time check fails. */
  lemma CountdownIsTheTimeCheck(v: View)
    requires v.quote.Some? && BindingAt(v, v.shown).Some?
    ensures QuoteRanOut(v) <==> v.shown >= Deadline(v.quote.value.expiry, BindingAt(v, v.shown).value.receivedAt)
  {
    CountdownIsExact(Deadline(v.quote.value.expiry, BindingAt(v, v.shown).value.receivedAt), v.shown);
    hide SecondsLeft;
  }

  /** What an idle ticket shows before anything is signed, by the guard at the displayed time: the
      review only where the order it would sign passes. */
  lemma ShownBeforeSigning(v: View)
    requires !v.busy && v.closed.None? && v.failure.None? && v.signature.None? && v.attr != Attributed
    requires v.build.Some? ==> v.quote.Some? && v.binding.Some?
    requires v.quote.Some? ==> BindingAt(v, v.shown).Some?
    ensures var guard := GuardAt(v, v.shown, None);
            var reviewable := v.reviewOpen || (v.build.Some? && v.check == Some(true));
            Shown(v) == if !v.connected || v.inputs.wallet.None? then Disconnected
                        else if v.quote.None? then Ready
                        else if guard == Stale(Expired) then QuoteExpired
                        else if guard.Stale? then QuoteStale
                        else if LiveGuard(v).Pass? && reviewable then Review
                        else QuoteReady
  {
    if v.quote.Some? {
      var binding := BindingAt(v, v.shown);
      CountdownIsTheTimeCheck(v);
      PassIff(v.quote, binding, v.inputs, v.shown, None);
      PassIff(v.quote, binding, v.inputs, v.shown, if v.build.Some? then v.binding else None);
      hide SecondsLeft, QuoteRanOut;
    }
  }

  /** The review panel, which carries Back and Approve. */
  predicate PanelShown(v: View) {
    v.reviewOpen && v.build.Some? && v.quote.Some? && v.signature.None? && !Flagged(v)
  }

  /** The conditions on the buttons (lines 953 to 979, 1177, 1247 and 1282 to 1302). Asking for a
      quote is allowed at any idle moment, which is more than the three buttons that do it. */
  predicate Enabled(v: View, kind: Kind) {
    && !v.busy && v.closed.None?
    && var offer := OfferOf(Shown(v));
       var manual := v.connected && !v.guided;
       match kind
       case AskForQuote => true
       case BuildAndReview =>
         v.guided && offer == OpenReview && v.inputs.slippage.Some? && !QuoteRanOut(v) && !QuoteIsStale(v)
       case BuildOnly => manual && v.quote.Some? && v.inputs.slippage.Some? && !QuoteRanOut(v) && !QuoteIsStale(v)
       case ApproveAll => v.guided && ((offer == RetrySign && v.build.Some? && !Flagged(v)) || PanelShown(v))
       case SignOnly => manual && v.build.Some? && v.check == Some(true) && !Flagged(v) && v.signature.None?
       case CheckOnly => manual && v.signature.Some? && v.tx == Pending
       case SubmitOnly => manual && v.signature.Some? && v.tx == Confirmed
       case VerifyOnly => manual && v.build.Some? && v.signature.Some?
       case ReportOnly => manual && v.signature.Some? && v.tx == Confirmed
       case FinishAll => v.guided && offer in {CheckConfirmation, SubmitOrder}
       case Recheck => v.guided && offer == RecheckVerify
       case RetryReport => offer == RetryAttribution
  }

  // ---- how a run starts, stops and waits

  predicate IsReady(seen: View) {
    seen.connected && seen.inputs.wallet.Some? && seen.canSign
  }

  /** The build and the signature are as they were. */
  predicate SameOrder(s: System, t: System) {
    t.view.build == s.view.build && t.view.signature == s.view.signature && t.builds == s.builds
  }

  function Note(s: System, entry: Entry): System {
    s.(log := Then(s.log, entry))
  }

  function At(s: System, stage: Stage): System {
    s.(view := s.view.(stage := Some(stage)))
  }

  function Wait(s: System, run: Run): System {
    s.(run := Some(run))
  }

  function Done(s: System): System {
    s.(view := s.view.(busy := false), run := None)
  }

  function Stop(s: System, why: State): System {
    Done(s.(view := s.view.(failure := Some(why))))
  }

  function Throw(s: System, e: Error, presign: bool): (t: System)
    ensures SameOrder(s, t) && t.log == s.log
  {
    Stop(s, Classify(s.view.stage, e, presign))
  }

  /** `enforceQuoteGuard` has refused (lines 251 to 254). */
  function Refuse(s: System, reason: Reason, at: int): (t: System)
    ensures SameOrder(s, t) && t.log == s.log
  {
    var t := s.(view := s.view.(shown := at));
    if reason == Expired then Stop(t, QuoteExpired) else Throw(t, PLAIN, true)
  }

  // ---- the handlers, up to their first await

  function StartQuote(s: System, seen: View): (t: System)
    ensures SameOrder(s, t) && t.log == s.log
  {
    var t := At(s.(view := s.view.(reviewOpen := false)), Quoting);
    if !IsReady(seen) || !seen.formed || seen.inputs.amount.None? then Throw(t, PLAIN, false)
    else Wait(t, Run(AskForQuote, seen, ForQuote, s.clock, None))
  }

  function StartBuild(s: System, kind: Kind, seen: View): (t: System)
    ensures SameOrder(s, t) && t.log == s.log
  {
    var t := At(s, Building);
    if !IsReady(seen) || seen.quote.None? || seen.inputs.slippage.None? then Throw(t, PLAIN, false)
    else
      match GuardAt(seen, s.clock, None)
      case Stale(reason) => Refuse(t, reason, s.clock)
      case Pass => Wait(t, Run(kind, seen, BuildNet, s.clock, None))
  }

  function StartSign(s: System, kind: Kind, seen: View): (t: System)
    ensures SameOrder(s, t) && t.log == s.log
  {
    var t := At(s, Sign);
    if !IsReady(seen) || seen.build.None? || !seen.build.value.signable then Throw(t, PLAIN, false)
    else if seen.binding.None? then Throw(t, PLAIN, true)
    else
      match GuardAt(seen, s.clock, seen.binding)
      case Stale(reason) => Refuse(t, reason, s.clock)
      case Pass => Wait(t, Run(kind, seen, SignNet, s.clock, None))
  }

  /** `runApprove`, before `runSignBroadcast`. */
  function StartApprove(s: System, seen: View): (t: System)
    ensures SameOrder(s, t) && t.log == s.log
  {
    var t := At(s, Sign);
    if seen.binding.None? then Throw(t, PLAIN, true)
    else
      match GuardAt(seen, s.clock, seen.binding)
      case Stale(reason) => Refuse(t, reason, s.clock)
      case Pass => StartSign(t.(view := t.view.(reviewOpen := false)), ApproveAll, seen)
  }

  function StartCheck(s: System, kind: Kind, seen: View): (t: System)
    ensures SameOrder(s, t) && t.log == s.log
  {
    if seen.signature.None? then Throw(s, PLAIN, false)
    else
      var t := At(s.(view := s.view.(tx := Confirming)), Confirm);
      Wait(t, Run(kind, seen, Checking, s.clock, seen.signature))
  }

  /** `confirmed` is the caller's word that the signature is confirmed. */
  function StartSubmit(s: System, kind: Kind, seen: View, sig: Option<string>, confirmed: bool): (t: System)
    ensures SameOrder(s, t)
  {
    var t := At(s, Submit);
    if !IsReady(seen) || seen.build.None? || !seen.build.value.hasOrder || sig.None? then Throw(t, PLAIN, false)
    else if !confirmed && seen.tx != Confirmed then Throw(t, PLAIN, false)
    else Wait(Note(t, Submitted(sig.value)), Run(kind, seen, Submitting, s.clock, sig))
  }

  function StartVerify(s: System, kind: Kind, seen: View, sig: Option<string>): (t: System)
    ensures SameOrder(s, t) && t.log == s.log
  {
    var t := At(s, Verify);
    if !IsReady(seen) || seen.build.None? || !seen.build.value.hasOrder then Throw(t, PLAIN, false)
    else Wait(t.(view := t.view.(verify := Polling)), Run(kind, seen, Polls, s.clock, sig))
  }

  function SendReport(s: System, kind: Kind, seen: View, sig: Option<string>): (t: System)
    ensures SameOrder(s, t) && t.log == s.log
  {
    var t := At(s.(view := s.view.(attr := Reporting)), Attribute);
    Wait(t, Run(kind, seen, Filing, s.clock, sig))
  }

  function StartReport(s: System, kind: Kind, seen: View, sig: Option<string>): (t: System)
    ensures SameOrder(s, t) && t.log == s.log
  {
    var t := At(s, Attribute);
    if !IsReady(seen) || sig.None? || seen.build.None? then Throw(t, PLAIN, false)
    else SendReport(t.(payload := sig), kind, seen, sig)
  }

  function StartRetry(s: System, seen: View): (t: System)
    ensures SameOrder(s, t) && t.log == s.log
  {
    if s.payload.None? || seen.signature != s.payload || seen.tx != Confirmed then Throw(s, PLAIN, false)
    else SendReport(s, RetryReport, seen, s.payload)
  }

  function Start(s: System, kind: Kind, seen: View): (t: System)
    ensures SameOrder(s, t)
  {
    match kind
    case AskForQuote => StartQuote(s, seen)
    case BuildAndReview => StartBuild(s, kind, seen)
    case BuildOnly => StartBuild(s, kind, seen)
    case ApproveAll => StartApprove(s, seen)
    case SignOnly => StartSign(s, kind, seen)
    case CheckOnly => StartCheck(s, kind, seen)
    case SubmitOnly => StartSubmit(s, kind, seen, seen.signature, false)
    case VerifyOnly => StartVerify(s, kind, seen, seen.signature)
    case ReportOnly => StartReport(s, kind, seen, seen.signature)
    case FinishAll =>
      if seen.tx != Confirmed then StartCheck(s, kind, seen) else StartSubmit(s, kind, seen, seen.signature, true)
    case Recheck => StartVerify(s, kind, seen, seen.signature)
    case RetryReport => StartRetry(s, seen)
  }

  // ---- and from one await to the next

  /** `resetAfterQuote`. */
  function Reset(v: View): View {
    v.(build := None, binding := None, check := None, signature := None,
       tx := Unsent, verify := Unverified, attr := Unreported)
  }

  function AfterQuote(s: System, r: Run, q: Quote): System
    requires r.seen.inputs.wallet.Some?
  {
    var w := r.seen.inputs.wallet.value;
    var v := s.view.(quote := Some(q), quoteWallet := Some(w), receivedAt := s.clock, shown := s.clock);
    Done(Note(s.(view := Reset(v)), Quoted(q, w, s.clock)))
  }

  /** Lines 326 to 338. */
  function Store(s: System, r: Run, b: Reply): System
    requires b.GotBuild? && r.seen.inputs.wallet.Some? && r.seen.inputs.slippage.Some?
  {
    var bound := BuildBinding(r.seen.inputs.wallet.value, r.seen.inputs.slippage.value, b.wallet);
    var v := s.view.(
      build := Some(Build(s.builds, b.signable, b.hasOrder)), binding := Some(bound), check := Some(b.checkOk),
      signature := None, tx := Unsent, verify := Unverified, attr := Unreported);
    Note(s.(view := v, builds := s.builds + 1), Stored(s.builds, r.seen, r.guardedAt, s.clock))
  }

  function AfterBuild(s: System, r: Run, b: Reply): System
    requires b.GotBuild? && r.seen.inputs.wallet.Some? && r.seen.inputs.slippage.Some?
  {
    match GuardAt(r.seen, s.clock, None)
    case Stale(reason) => Refuse(s, reason, s.clock)
    case Pass =>
      var t := Store(s, r, b);
      if !b.checkOk then Throw(t, PLAIN, true)
      else if r.kind == BuildAndReview then Done(t.(view := t.view.(reviewOpen := true)))
      else Done(t)
  }

  /** The transaction has been broadcast (lines 409 to 417). */
  function AfterSend(s: System, r: Run, sig: string): System
    requires r.seen.build.Some?
  {
    var t := At(s.(view := s.view.(signature := Some(sig), tx := Confirming)), Confirm);
    Wait(Note(t, Recorded(r.seen.build.value.no, sig)), r.(await := Settling, sig := Some(sig)))
  }

  /** `applyConfirm` and what its caller does next. */
  function AfterSettling(s: System, r: Run, tx: TxPhase): (t: System)
    requires r.sig.Some?
    ensures SameOrder(s, t)
  {
    var t := s.(view := s.view.(tx := tx));
    if tx != Confirmed then Throw(t, PLAIN, false)
    else
      var u := Note(t, Observed(r.sig.value));
      if r.kind == ApproveAll || r.kind == FinishAll then StartSubmit(u, r.kind, r.seen, r.sig, true) else Done(u)
  }

  function AfterVerdict(s: System, r: Run, phase: VerifyPhase): (t: System)
    ensures SameOrder(s, t)
  {
    var t := s.(view := s.view.(verify := phase));
    if phase == Refused then Throw(t, PLAIN, false)
    else if r.kind == ApproveAll || r.kind == FinishAll then StartReport(t, r.kind, r.seen, r.sig)
    else if r.kind == Recheck && r.seen.attr == Unreported then StartReport(t, r.kind, r.seen, r.sig)
    else Done(t)
  }

  function Resume(s: System, r: Run, reply: Reply): System
    requires Fits(r, reply)
  {
    if reply.Threw? then
      Throw(if r.await == Polls then s.(view := s.view.(verify := Refused)) else s, reply.error, false)
    else
      match r.await
      case ForQuote => AfterQuote(s, r, reply.quote)
      case BuildNet => if reply.ok then Wait(s, r.(await := ForBuild)) else Throw(s, PLAIN, true)
      case ForBuild => AfterBuild(s, r, reply)
      case SignNet =>
        if !reply.ok then Throw(s, PLAIN, true)
        else
          var t := s.(view := s.view.(check := Some(reply.checkOk)));
          if reply.checkOk then Wait(t, r.(await := Preflight)) else Throw(t, PLAIN, true)
      case Preflight =>
        if reply.Stopped? then Throw(s, PLAIN, true)
        else Wait(Note(s, WalletAsked(r.seen.build.value.no, r.seen, r.guardedAt)), r.(await := ForWallet))
      case ForWallet => Wait(At(s, Broadcast), r.(await := Sending))
      case Sending => AfterSend(s, r, reply.sig)
      case Settling => AfterSettling(s, r, reply.tx)
      case Checking => AfterSettling(s, r, reply.tx)
      case Submitting =>
        if r.kind == ApproveAll || r.kind == FinishAll then StartVerify(s, r.kind, r.seen, r.sig) else Done(s)
      case Polls => AfterVerdict(s, r, reply.phase)
      case Filing => Done(s.(view := s.view.(attr := reply.attr)))
  }

  /** The replies an await can get, and what the run has established by then. */
  predicate Fits(r: Run, reply: Reply) {
    reply.Threw? ||
    match r.await
    case ForQuote => reply.GotQuote? && r.seen.inputs.wallet.Some?
    case BuildNet => reply.Net?
    case ForBuild => reply.GotBuild? && r.seen.inputs.wallet.Some? && r.seen.inputs.slippage.Some?
    case SignNet => reply.Net?
    case Preflight => (reply.Cleared? || reply.Stopped?) && r.seen.build.Some?
    case ForWallet => reply.Signed?
    case Sending => reply.Sent? && r.seen.build.Some?
    case Settling => reply.Settled? && reply.tx in {Confirmed, Pending, Failed, Lapsed} && r.sig.Some?
    case Checking => reply.Settled? && reply.tx in {Confirmed, Pending, Failed, Lapsed} && r.sig.Some?
    case Submitting => reply.Accepted?
    case Polls => reply.Verdict? && reply.phase in {Verified, Refused, TimedOut}
    case Filing => reply.Filed? && reply.attr in {Reported, Attributed, NeedsAttention}
  }

  // ---- steps

  function Begun(s: System, at: int): System {
    s.(clock := at, view := s.view.(busy := true, failure := None))
  }

  ghost predicate Possible(s: System, e: Event) {
    match e
    case Edit(_, _, _, _, _, _) => true
    case Tick(at) => s.clock <= at
    case Back => PanelShown(s.view) && !s.view.busy
    case LedgerListed => true
    case Click(kind, at) => s.clock <= at && Enabled(s.view, kind)
    case Answer(reply, at) => s.clock <= at && s.run.Some? && Fits(s.run.value, reply)
  }

  function Step(s: System, e: Event): System
    requires Possible(s, e)
  {
    match e
    case Edit(inputs, formed, connected, canSign, closed, guided) =>
      s.(view := s.view.(inputs := inputs, formed := formed, connected := connected, canSign := canSign,
                         closed := closed, guided := guided))
    case Tick(at) => s.(clock := at, view := s.view.(shown := at))
    case Back => s.(view := s.view.(reviewOpen := false))
    case LedgerListed => s.(view := s.view.(attr := Attributed))
    case Click(kind, at) =>
      if kind == ApproveAll && (s.view.build.None? || s.view.quote.None?) then s
      else Start(Begun(s, at), kind, s.view)
    case Answer(reply, at) => Resume(s.(clock := at), s.run.value, reply)
  }

  // ---- what every run keeps

  /** Build number `no` has yielded a signature. */
  predicate Signature(log: Log, no: nat) {
    log.Then? && ((log.entry.Recorded? && log.entry.no == no) || Signature(log.before, no))
  }

  predicate WasObserved(log: Log, sig: string) {
    log.Then? && (log.entry == Observed(sig) || WasObserved(log.before, sig))
  }

  /** The quote that `v` holds arrived when `v` says, for the wallet `v` says. */
  predicate Arrived(log: Log, v: View) {
    log.Then? &&
    (Arrived(log.before, v)
     || (v.quote.Some? && v.quoteWallet.Some? && log.entry == Quoted(v.quote.value, v.quoteWallet.value, v.receivedAt)))
  }

  function StoredCount(log: Log): nat {
    if log.Begin? then 0 else StoredCount(log.before) + if log.entry.Stored? then 1 else 0
  }

  /** The entry stored the build that `v` holds, from the quote that `v` holds and with the wallet
      and the slippage that `v` has noted of it. */
  predicate Made(entry: Entry, v: View) {
    && entry.Stored? && v.build.Some? && v.binding.Some? && entry.no == v.build.value.no
    && SameQuote(entry.seen, v)
    && entry.seen.inputs.wallet == Some(v.binding.value.wallet)
    && entry.seen.inputs.slippage == Some(v.binding.value.slippage)
  }

  predicate StoredFrom(log: Log, v: View) {
    log.Then? && (Made(log.entry, v) || StoredFrom(log.before, v))
  }

  predicate SameQuote(v: View, w: View) {
    v.quote == w.quote && v.quoteWallet == w.quoteWallet && v.receivedAt == w.receivedAt
  }

  /** What may be true of one new entry: a build is stored only when the guard passed before it
      was asked for and again when it came; the wallet is asked only after the guard passed in
      that run, on the quote that the build was stored from, for the wallet and the slippage it
      was stored with, and never for a build that already has a signature; builds are numbered
      in order; a build yields one signature; an order is submitted only for a signature
      seen confirmed. */
  predicate Justified(before: Log, entry: Entry) {
    match entry
    case Quoted(_, _, at) => at > 0
    case Stored(no, seen, askedAt, storedAt) =>
      && no == StoredCount(before) && askedAt <= storedAt && Arrived(before, seen) && seen.receivedAt > 0
      && GuardAt(seen, askedAt, None).Pass? && GuardAt(seen, storedAt, None).Pass?
    case WalletAsked(no, seen, guardedAt) =>
      && seen.receivedAt > 0 && seen.build.Some? && seen.build.value.no == no && seen.binding.Some?
      && GuardAt(seen, guardedAt, seen.binding).Pass? && !Signature(before, no) && StoredFrom(before, seen)
    case Recorded(no, _) => !Signature(before, no)
    case Observed(_) => true
    case Submitted(sig) => WasObserved(before, sig)
  }

  predicate Safe(log: Log) {
    log.Then? ==> Justified(log.before, log.entry) && Safe(log.before)
  }

  /** One more than the highest number of a build that has yielded a signature. */
  function SignedBuilds(log: Log): nat {
    if log.Begin? then 0
    else if log.entry.Recorded? && log.entry.no >= SignedBuilds(log.before) then log.entry.no + 1
    else SignedBuilds(log.before)
  }

  predicate EarlyStage(stage: Option<Stage>) {
    stage in {None, Some(Sign), Some(Broadcast)}
  }

  /** The current build is the last one stored, from the current quote, and without a signature
      it has not yielded one. */
  predicate BuildFits(s: System) {
    s.view.build.Some? ==>
      && s.view.build.value.no + 1 == s.builds
      && StoredFrom(s.log, s.view)
      && (s.view.signature.None? ==> !Signature(s.log, s.view.build.value.no))
  }

  predicate SignatureFits(s: System) {
    && (EarlyStage(s.view.stage) ==> s.view.signature.None?)
    && (s.view.tx == Confirmed ==> s.view.signature.Some? && WasObserved(s.log, s.view.signature.value))
  }

  predicate QuoteFits(s: System) {
    s.view.quote.Some? ==> s.view.receivedAt > 0 && Arrived(s.log, s.view)
  }

  predicate Settles(s: System) {
    && Safe(s.log) && SignedBuilds(s.log) <= s.builds == StoredCount(s.log)
    && BuildFits(s) && SignatureFits(s) && QuoteFits(s) && s.clock > 0
  }

  /** What a run has established by the time it waits. */
  predicate RunFits(s: System, r: Run) {
    var v := s.view;
    match r.await
    case ForQuote => v.stage == Some(Quoting)
    case BuildNet => BuildRunFits(s, r)
    case ForBuild => BuildRunFits(s, r)
    case SignNet => v.stage == Some(Sign) && SignRunFits(s, r)
    case Preflight => v.stage == Some(Sign) && SignRunFits(s, r)
    case ForWallet => v.stage == Some(Sign) && SignRunFits(s, r)
    case Sending => v.stage == Some(Broadcast) && SignRunFits(s, r)
    case Settling => v.stage == Some(Confirm) && v.signature == r.sig
    case Checking => v.stage == Some(Confirm) && v.signature == r.sig
    case Submitting => v.stage == Some(Submit)
    case Polls => v.stage == Some(Verify)
    case Filing => v.stage == Some(Attribute)
  }

  predicate BuildRunFits(s: System, r: Run) {
    && s.view.stage == Some(Building) && SameQuote(s.view, r.seen)
    && Arrived(s.log, r.seen) && r.seen.receivedAt > 0
    && r.guardedAt <= s.clock && GuardAt(r.seen, r.guardedAt, None).Pass?
  }

  predicate SignRunFits(s: System, r: Run) {
    && s.view.signature.None? && s.view.build.Some? && SameOffer(s.view, r.seen)
    && r.seen.receivedAt > 0 && r.seen.binding.Some? && GuardAt(r.seen, r.guardedAt, r.seen.binding).Pass?
  }

  /** The same quote, and the same build made of it. */
  predicate SameOffer(v: View, w: View) {
    SameQuote(v, w) && v.build == w.build && v.binding == w.binding
  }

  predicate Invariant(s: System) {
    && Settles(s)
    && (s.view.busy <==> s.run.Some?)
    && (s.run.Some? ==> s.view.failure.None? && RunFits(s, s.run.value))
    && (s.view.failure.Some? && MaySignAgain(s.view.failure.value) ==> s.view.signature.None?)
  }

  // ---- ends of a step

  lemma StopFits(s: System, why: State)
    requires Settles(s) && !MaySignAgain(why)
    ensures Invariant(Stop(s, why))
  {
    hide Safe, SignedBuilds, StoredCount, StoredFrom, Signature, WasObserved, Arrived;
    SameArrival(s.log, s.view, Stop(s, why).view);
  }

  lemma {:induction false} SameArrival(log: Log, v: View, w: View)
    requires SameQuote(v, w)
    ensures Arrived(log, v) == Arrived(log, w)
    ensures SameOffer(v, w) ==> StoredFrom(log, v) == StoredFrom(log, w)
  {
    if log.Then? {
      SameArrival(log.before, v, w);
    }
  }

  lemma ThrowFits(s: System, e: Error, presign: bool)
    requires Settles(s)
    ensures Invariant(Throw(s, e, presign))
  {
    hide Safe, SignedBuilds, StoredCount, StoredFrom, Signature, WasObserved, Arrived, Classify;
    SameArrival(s.log, s.view, Throw(s, e, presign).view);
    if MaySignAgain(Classify(s.view.stage, e, presign)) {
      SignAgainStages(s.view.stage, e, presign);
    }
  }

  lemma DoneFits(s: System)
    requires Settles(s) && s.view.failure.None?
    ensures Invariant(Done(s))
  {
    hide Safe, SignedBuilds, StoredCount, StoredFrom, Signature, WasObserved, Arrived;
    SameArrival(s.log, s.view, Done(s).view);
  }

  lemma WaitFits(s: System, r: Run)
    requires Settles(s) && s.view.failure.None? && s.view.busy && RunFits(s, r)
    ensures Invariant(Wait(s, r))
  {
    hide Safe, SignedBuilds, StoredCount, StoredFrom, Signature, WasObserved, Arrived, GuardAt;
  }

  /** The parts of the view that the protocol does not rest on may change freely. */
  lemma ViewFits(s: System, t: System)
    requires Settles(s) && t.log == s.log && t.builds == s.builds && t.clock >= s.clock
    requires SameOffer(s.view, t.view) && t.view.signature == s.view.signature
    requires t.view.tx == s.view.tx || t.view.tx != Confirmed
    requires EarlyStage(t.view.stage) ==> t.view.signature.None?
    ensures Settles(t)
  {
    hide Safe, SignedBuilds, StoredCount, StoredFrom, Signature, WasObserved, Arrived;
    SameArrival(s.log, s.view, t.view);
  }

  lemma RefuseFits(s: System, reason: Reason, at: int)
    requires Settles(s)
    ensures Invariant(Refuse(s, reason, at))
  {
    hide Settles, Throw, Stop, Invariant;
    var t := s.(view := s.view.(shown := at));
    assert Settles(t) by {
      SettlesFacts(s);
      ViewFits(s, t);
    }
    if reason == Expired {
      StopFits(t, QuoteExpired);
    } else {
      ThrowFits(t, PLAIN, true);
    }
  }

  lemma SettlesFacts(s: System)
    requires Settles(s)
    ensures EarlyStage(s.view.stage) ==> s.view.signature.None?
    ensures s.clock > 0
  {
  }

  lemma NoteFits(s: System, entry: Entry)
    requires Settles(s) && Justified(s.log, entry) && !entry.Recorded? && !entry.Stored?
    ensures Settles(Note(s, entry))
  {
    hide Justified;
  }

  // ---- the starts

  predicate Underway(s: System) {
    Settles(s) && s.view.busy && s.view.failure.None?
  }

  /** Moving on to a stage that is past signing, or changing what the protocol does not rest on. */
  lemma StageFits(s: System, t: System, stage: Stage)
    requires Underway(s) && (stage in {Sign, Broadcast} ==> s.view.signature.None?)
    requires t.log == s.log && t.builds == s.builds && t.clock == s.clock
    requires t.view == s.view.(stage := Some(stage), reviewOpen := t.view.reviewOpen, tx := t.view.tx,
                               verify := t.view.verify, attr := t.view.attr, check := t.view.check)
    requires t.view.tx == s.view.tx || t.view.tx != Confirmed
    ensures Underway(t)
  {
    hide Settles;
    ViewFits(s, t);
  }

  lemma StartQuoteFits(s: System, seen: View)
    requires Underway(s)
    ensures Invariant(StartQuote(s, seen))
  {
    var t := At(s.(view := s.view.(reviewOpen := false)), Quoting);
    StageFits(s, t, Quoting);
    ThrowFits(t, PLAIN, false);
    var r := Run(AskForQuote, seen, ForQuote, s.clock, None);
    hide Settles, Invariant, Throw;
    WaitFits(t, r);
  }

  lemma StartBuildFits(s: System, kind: Kind, seen: View)
    requires Underway(s) && SameQuote(s.view, seen)
    requires seen.quote.Some? ==> seen.receivedAt > 0 && Arrived(s.log, seen)
    ensures Invariant(StartBuild(s, kind, seen))
  {
    var t := At(s, Building);
    StageFits(s, t, Building);
    var r := Run(kind, seen, BuildNet, s.clock, None);
    hide Settles, Invariant, Throw, Refuse, Arrived, QuoteGuard, BindingAt;
    ThrowFits(t, PLAIN, false);
    var g := GuardAt(seen, s.clock, None);
    if g.Stale? {
      RefuseFits(t, g.reason, s.clock);
    } else if seen.quote.Some? {
      assert RunFits(t, r);
      WaitFits(t, r);
    }
  }

  lemma PassedHasQuote(seen: View, at: int, build: Option<BuildBinding>)
    ensures GuardAt(seen, at, build).Pass? ==> seen.quote.Some?
  {
  }

  lemma StartSignFits(s: System, kind: Kind, seen: View)
    requires Underway(s) && s.view.signature.None? && SameOffer(s.view, seen)
    requires seen.quote.Some? ==> seen.receivedAt > 0
    ensures Invariant(StartSign(s, kind, seen))
  {
    var t := At(s, Sign);
    StageFits(s, t, Sign);
    var r := Run(kind, seen, SignNet, s.clock, None);
    hide Settles, Invariant, Throw, Refuse, QuoteGuard, BindingAt;
    ThrowFits(t, PLAIN, false);
    ThrowFits(t, PLAIN, true);
    var g := GuardAt(seen, s.clock, seen.binding);
    PassedHasQuote(seen, s.clock, seen.binding);
    if g.Stale? {
      RefuseFits(t, g.reason, s.clock);
    } else if seen.build.Some? && seen.binding.Some? {
      assert RunFits(t, r);
      WaitFits(t, r);
    }
  }

  lemma StartApproveFits(s: System, seen: View)
    requires Underway(s) && s.view.signature.None? && SameOffer(s.view, seen)
    requires seen.quote.Some? ==> seen.receivedAt > 0
    ensures Invariant(StartApprove(s, seen))
  {
    var t := At(s, Sign);
    StageFits(s, t, Sign);
    var u := t.(view := t.view.(reviewOpen := false));
    StageFits(t, u, Sign);
    hide Settles, Invariant, Throw, Refuse, QuoteGuard, BindingAt, StartSign;
    ThrowFits(t, PLAIN, true);
    var g := GuardAt(seen, s.clock, seen.binding);
    if g.Stale? {
      RefuseFits(t, g.reason, s.clock);
    } else {
      StartSignFits(u, ApproveAll, seen);
    }
  }

  lemma StartCheckFits(s: System, kind: Kind, seen: View)
    requires Underway(s) && s.view.signature == seen.signature
    ensures Invariant(StartCheck(s, kind, seen))
  {
    var t := At(s.(view := s.view.(tx := Confirming)), Confirm);
    StageFits(s, t, Confirm);
    var r := Run(kind, seen, Checking, s.clock, seen.signature);
    hide Settles, Invariant, Throw;
    ThrowFits(s, PLAIN, false);
    WaitFits(t, r);
  }

  lemma StartSubmitFits(s: System, kind: Kind, seen: View, sig: Option<string>, confirmed: bool)
    requires Underway(s) && (sig.Some? && (confirmed || seen.tx == Confirmed) ==> WasObserved(s.log, sig.value))
    ensures Invariant(StartSubmit(s, kind, seen, sig, confirmed))
  {
    var t := At(s, Submit);
    StageFits(s, t, Submit);
    hide Settles, Invariant, Throw, WasObserved;
    ThrowFits(t, PLAIN, false);
    if sig.Some? && (confirmed || seen.tx == Confirmed) {
      NoteFits(t, Submitted(sig.value));
      WaitFits(Note(t, Submitted(sig.value)), Run(kind, seen, Submitting, s.clock, sig));
    }
  }

  lemma StartVerifyFits(s: System, kind: Kind, seen: View, sig: Option<string>)
    requires Underway(s)
    ensures Invariant(StartVerify(s, kind, seen, sig))
  {
    hide Settles, Invariant, Throw, IsReady, SignRunFits, BuildRunFits;
    var t := At(s, Verify);
    StageFits(s, t, Verify);
    ThrowFits(t, PLAIN, false);
    PollsFits(t, Run(kind, seen, Polls, s.clock, sig));
  }

  lemma PollsFits(s: System, r: Run)
    requires Underway(s) && s.view.stage == Some(Verify) && r.await == Polls
    ensures Invariant(Wait(s.(view := s.view.(verify := Polling)), r))
  {
    hide Settles, Invariant, SignRunFits, BuildRunFits;
    var u := s.(view := s.view.(verify := Polling));
    StageFits(s, u, Verify);
    WaitFits(u, r);
  }

  lemma SendReportFits(s: System, kind: Kind, seen: View, sig: Option<string>)
    requires Underway(s)
    ensures Invariant(SendReport(s, kind, seen, sig))
  {
    var t := At(s.(view := s.view.(attr := Reporting)), Attribute);
    StageFits(s, t, Attribute);
    hide Settles, Invariant;
    WaitFits(t, Run(kind, seen, Filing, s.clock, sig));
  }

  lemma StartReportFits(s: System, kind: Kind, seen: View, sig: Option<string>)
    requires Underway(s)
    ensures Invariant(StartReport(s, kind, seen, sig))
  {
    var t := At(s, Attribute);
    StageFits(s, t, Attribute);
    StageFits(s, t.(payload := sig), Attribute);
    hide Settles, Invariant, Throw, SendReport;
    ThrowFits(t, PLAIN, false);
    SendReportFits(t.(payload := sig), kind, seen, sig);
  }

  /** A click that may open the wallet finds no signature. */
  lemma SigningNeedsNoSignature(v: View, kind: Kind)
    requires Enabled(v, kind) && kind in {ApproveAll, SignOnly}
    requires v.failure.Some? && MaySignAgain(v.failure.value) ==> v.signature.None?
    ensures v.signature.None?
  {
    hide Derive, OfferOf, Flagged, QuoteRanOut, QuoteIsStale, BuildIsStale;
    SigningAgainIsOffered(Facts(v));
  }

  lemma BegunFits(s: System, at: int)
    requires Settles(s) && s.clock <= at
    ensures Underway(Begun(s, at))
  {
    SettlesFacts(s);
    hide Settles;
    ViewFits(s, Begun(s, at));
  }

  /** What a view that settles says about itself. */
  lemma SeenFacts(s: System, at: int)
    requires Settles(s)
    ensures var v := s.view; var t := Begun(s, at);
            && t.log == s.log && SameOffer(t.view, v) && t.view.signature == v.signature
            && (v.quote.Some? ==> v.receivedAt > 0 && Arrived(s.log, v))
            && (v.tx == Confirmed ==> v.signature.Some? && WasObserved(s.log, v.signature.value))
  {
    hide Safe, SignedBuilds, Arrived, WasObserved, Signature;
  }

  /** Any start keeps the invariant, given what the clicked view says about itself. */
  lemma StartFits(s: System, kind: Kind, seen: View)
    requires Underway(s) && SameOffer(s.view, seen) && s.view.signature == seen.signature
    requires kind in {ApproveAll, SignOnly} ==> seen.signature.None?
    requires seen.quote.Some? ==> seen.receivedAt > 0 && Arrived(s.log, seen)
    requires seen.tx == Confirmed ==> seen.signature.Some? && WasObserved(s.log, seen.signature.value)
    ensures Invariant(Start(s, kind, seen))
  {
    hide Underway, Invariant, Arrived, WasObserved, StartQuote, StartBuild, StartSign, StartApprove, StartCheck,
         StartSubmit, StartVerify, SendReport, StartReport, Throw;
    match kind
    case AskForQuote => StartQuoteFits(s, seen);
    case BuildAndReview => StartBuildFits(s, kind, seen);
    case BuildOnly => StartBuildFits(s, kind, seen);
    case ApproveAll => StartApproveFits(s, seen);
    case SignOnly => StartSignFits(s, kind, seen);
    case CheckOnly => StartCheckFits(s, kind, seen);
    case SubmitOnly => StartSubmitFits(s, kind, seen, seen.signature, false);
    case VerifyOnly => StartVerifyFits(s, kind, seen, seen.signature);
    case ReportOnly => StartReportFits(s, kind, seen, seen.signature);
    case FinishAll =>
      StartCheckFits(s, kind, seen);
      if seen.tx == Confirmed {
        StartSubmitFits(s, kind, seen, seen.signature, true);
      }
    case Recheck => StartVerifyFits(s, kind, seen, seen.signature);
    case RetryReport => StartRetryFits(s, seen);
  }

  lemma StartRetryFits(s: System, seen: View)
    requires Underway(s)
    ensures Invariant(StartRetry(s, seen))
  {
    hide Settles, Invariant, Throw, SendReport;
    ThrowFits(s, PLAIN, false);
    SendReportFits(s, RetryReport, seen, s.payload);
  }

  lemma ClickKeepsInvariant(s: System, kind: Kind, at: int)
    requires Invariant(s) && Possible(s, Click(kind, at))
    ensures Invariant(Step(s, Click(kind, at)))
  {
    if kind in {ApproveAll, SignOnly} {
      SigningNeedsNoSignature(s.view, kind);
    }
    hide Settles, Enabled, RunFits, Start, Begun;
    BegunFits(s, at);
    SeenFacts(s, at);
    if !(kind == ApproveAll && (s.view.build.None? || s.view.quote.None?)) {
      StartFits(Begun(s, at), kind, s.view);
    }
  }

  // ---- the replies

  /** What a waiting run may rely on, once the clock has moved. */
  lemma WaitingFacts(s: System, at: int)
    requires Invariant(s) && s.run.Some? && s.clock <= at
    ensures Underway(s.(clock := at)) && RunFits(s.(clock := at), s.run.value)
  {
    hide Safe, SignedBuilds, StoredCount, StoredFrom, Signature, WasObserved, Arrived, GuardAt;
  }

  lemma AfterQuoteFits(s: System, r: Run, q: Quote)
    requires Underway(s) && r.seen.inputs.wallet.Some? && s.view.stage == Some(Quoting)
    ensures Invariant(AfterQuote(s, r, q))
  {
    hide Signature, WasObserved, Classify;
  }

  lemma {:induction false} NoLaterSignature(log: Log, no: nat)
    requires no >= SignedBuilds(log)
    ensures !Signature(log, no)
  {
    if log.Then? {
      NoLaterSignature(log.before, no);
    }
  }

  /** A stored build starts without a signature. */
  lemma StoreFits(s: System, r: Run, t: System)
    requires Underway(s) && BuildRunFits(s, r) && GuardAt(r.seen, s.clock, None).Pass?
    requires t.log == Then(s.log, Stored(s.builds, r.seen, r.guardedAt, s.clock))
    requires t.builds == s.builds + 1 && t.clock == s.clock
    requires t.view.build.Some? && t.view.build.value.no == s.builds && t.view.signature.None? && t.view.tx == Unsent
    requires SameQuote(s.view, t.view) && Made(t.log.entry, t.view)
    ensures Settles(t)
  {
    NoLaterSignature(s.log, s.builds);
    SameArrival(s.log, s.view, t.view);
    assert StoredFrom(t.log, t.view);
    hide Safe, SignedBuilds, StoredCount, StoredFrom, Signature, WasObserved, Arrived, GuardAt, Made;
    StoreLog(s, r, t.log);
  }

  lemma StoreLog(s: System, r: Run, log: Log)
    requires Settles(s) && BuildRunFits(s, r) && GuardAt(r.seen, s.clock, None).Pass?
    requires SignedBuilds(s.log) <= s.builds + 1 && !Signature(s.log, s.builds)
    requires log == Then(s.log, Stored(s.builds, r.seen, r.guardedAt, s.clock))
    ensures Safe(log) && SignedBuilds(log) <= s.builds + 1 == StoredCount(log) && !Signature(log, s.builds)
    ensures forall v: View :: Arrived(s.log, v) ==> Arrived(log, v)
  {
    hide GuardAt, WasObserved;
  }

  lemma AfterBuildFits(s: System, r: Run, b: Reply)
    requires Underway(s) && BuildRunFits(s, r)
    requires b.GotBuild? && r.seen.inputs.wallet.Some? && r.seen.inputs.slippage.Some?
    ensures Invariant(AfterBuild(s, r, b))
  {
    hide Settles, Invariant, Throw, Refuse, Done, Arrived, GuardAt;
    match GuardAt(r.seen, s.clock, None)
    case Stale(reason) => RefuseFits(s, reason, s.clock);
    case Pass =>
      var t := Store(s, r, b);
      StoreFits(s, r, t);
      ThrowFits(t, PLAIN, true);
      var u := t.(view := t.view.(reviewOpen := true));
      StoreFits(s, r, u);
      DoneFits(t);
      DoneFits(u);
  }

  /** A recorded signature is the first of its build. */
  lemma RecordFits(s: System, no: nat, sig: string, t: System)
    requires Underway(s) && s.view.signature.None? && s.view.build.Some? && s.view.build.value.no == no
    requires t.log == Then(s.log, Recorded(no, sig)) && t.builds == s.builds && t.clock == s.clock
    requires t.view == s.view.(signature := Some(sig), tx := Confirming, stage := Some(Confirm))
    ensures Settles(t)
  {
    SameArrival(s.log, s.view, t.view);
  }

  lemma AfterSendFits(s: System, r: Run, sig: string)
    requires Underway(s) && SignRunFits(s, r)
    ensures Invariant(AfterSend(s, r, sig))
  {
    var no := r.seen.build.value.no;
    var t := At(s.(view := s.view.(signature := Some(sig), tx := Confirming)), Confirm);
    var u := Note(t, Recorded(no, sig));
    hide Settles, Invariant, GuardAt, BuildRunFits;
    RecordFits(s, no, sig, u);
    WaitFits(u, r.(await := Settling, sig := Some(sig)));
  }

  lemma ObservedFits(s: System, sig: string, t: System)
    requires Underway(s) && s.view.stage == Some(Confirm) && s.view.signature == Some(sig)
    requires t == Note(s.(view := s.view.(tx := Confirmed)), Observed(sig))
    ensures Underway(t) && WasObserved(t.log, sig)
  {
    SameArrival(s.log, s.view, t.view);
    hide Justified;
  }

  lemma AfterSettlingFits(s: System, r: Run, tx: TxPhase)
    requires Underway(s) && s.view.stage == Some(Confirm) && s.view.signature == r.sig && r.sig.Some?
    ensures Invariant(AfterSettling(s, r, tx))
  {
    var t := s.(view := s.view.(tx := tx));
    if tx != Confirmed {
      StageFits(s, t, Confirm);
      hide Settles, Invariant;
      ThrowFits(t, PLAIN, false);
    } else {
      var u := Note(t, Observed(r.sig.value));
      ObservedFits(s, r.sig.value, u);
      hide Settles, Invariant, WasObserved, StartSubmit, Done;
      DoneFits(u);
      StartSubmitFits(u, r.kind, r.seen, r.sig, true);
    }
  }

  lemma AfterVerdictFits(s: System, r: Run, phase: VerifyPhase)
    requires Underway(s) && s.view.stage == Some(Verify)
    ensures Invariant(AfterVerdict(s, r, phase))
  {
    var t := s.(view := s.view.(verify := phase));
    StageFits(s, t, Verify);
    hide Settles, Invariant, Throw, StartReport, Done;
    ThrowFits(t, PLAIN, false);
    StartReportFits(t, r.kind, r.seen, r.sig);
    DoneFits(t);
  }

  lemma SignNetFits(s: System, r: Run, reply: Reply)
    requires Underway(s) && RunFits(s, r) && r.await == SignNet && reply.Net?
    ensures Invariant(Resume(s, r, reply))
  {
    var t := s.(view := s.view.(check := Some(reply.checkOk)));
    StageFits(s, t, Sign);
    hide Settles, Invariant, Throw, GuardAt;
    ThrowFits(s, PLAIN, true);
    ThrowFits(t, PLAIN, true);
    WaitFits(t, r.(await := Preflight));
  }

  lemma PreflightFits(s: System, r: Run, reply: Reply)
    requires Underway(s) && RunFits(s, r) && r.await == Preflight && Fits(r, reply) && !reply.Threw?
    ensures Invariant(Resume(s, r, reply))
  {
    var entry := WalletAsked(r.seen.build.value.no, r.seen, r.guardedAt);
    SigningIsJustified(s, r);
    NoteFits(s, entry);
    hide Settles, Invariant, Throw, GuardAt, Justified;
    ThrowFits(s, PLAIN, true);
    WaitFits(Note(s, entry), r.(await := ForWallet));
  }

  lemma SigningIsJustified(s: System, r: Run)
    requires Settles(s) && SignRunFits(s, r)
    ensures Justified(s.log, WalletAsked(r.seen.build.value.no, r.seen, r.guardedAt))
  {
    SameArrival(s.log, s.view, r.seen);
    hide GuardAt, Arrived, Safe, SignedBuilds, WasObserved;
  }

  lemma ForWalletFits(s: System, r: Run, reply: Reply)
    requires Underway(s) && RunFits(s, r) && r.await == ForWallet && reply.Signed?
    ensures Invariant(Resume(s, r, reply))
  {
    var t := At(s, Broadcast);
    StageFits(s, t, Broadcast);
    hide Settles, Invariant, GuardAt;
    WaitFits(t, r.(await := Sending));
  }

  lemma BuildNetFits(s: System, r: Run, reply: Reply)
    requires Underway(s) && RunFits(s, r) && r.await == BuildNet && reply.Net?
    ensures Invariant(Resume(s, r, reply))
  {
    hide Settles, Invariant, Throw, GuardAt, Arrived;
    ThrowFits(s, PLAIN, true);
    WaitFits(s, r.(await := ForBuild));
  }

  lemma ThrewFits(s: System, r: Run, reply: Reply)
    requires Underway(s) && RunFits(s, r) && reply.Threw?
    ensures Invariant(Resume(s, r, reply))
  {
    hide Settles, Invariant, Throw, GuardAt, Arrived, SignRunFits, BuildRunFits;
    ThrowFits(s, reply.error, false);
    if r.await == Polls {
      var t := s.(view := s.view.(verify := Refused));
      StageFits(s, t, Verify);
      ThrowFits(t, reply.error, false);
    }
  }

  lemma FilingFits(s: System, r: Run, reply: Reply)
    requires Underway(s) && RunFits(s, r) && r.await == Filing && Fits(r, reply) && !reply.Threw?
    ensures Invariant(Resume(s, r, reply))
  {
    var t := s.(view := s.view.(attr := reply.attr));
    StageFits(s, t, Attribute);
    hide Settles, Invariant, Done;
    DoneFits(t);
  }

  lemma SubmittedFits(s: System, r: Run, reply: Reply)
    requires Underway(s) && r.await == Submitting && reply.Accepted?
    ensures Invariant(Resume(s, r, reply))
  {
    hide Settles, Invariant, Done, StartVerify;
    DoneFits(s);
    StartVerifyFits(s, r.kind, r.seen, r.sig);
  }

  lemma ResumeFits(s: System, r: Run, reply: Reply)
    requires Underway(s) && RunFits(s, r) && Fits(r, reply)
    ensures Invariant(Resume(s, r, reply))
  {
    hide Underway, Invariant, AfterQuote, AfterBuild, AfterSend, AfterSettling, AfterVerdict, BuildRunFits, SignRunFits,
         Throw, Wait, Done, StartVerify;
    if reply.Threw? {
      ThrewFits(s, r, reply);
    } else {
      match r.await
      case ForQuote => AfterQuoteFits(s, r, reply.quote);
      case BuildNet => BuildNetFits(s, r, reply);
      case ForBuild => AfterBuildFits(s, r, reply);
      case SignNet => SignNetFits(s, r, reply);
      case Preflight => PreflightFits(s, r, reply);
      case ForWallet => ForWalletFits(s, r, reply);
      case Sending => AfterSendFits(s, r, reply.sig);
      case Settling => AfterSettlingFits(s, r, reply.tx);
      case Checking => AfterSettlingFits(s, r, reply.tx);
      case Submitting => SubmittedFits(s, r, reply);
      case Polls => AfterVerdictFits(s, r, reply.phase);
      case Filing => FilingFits(s, r, reply);
    }
  }

  /** Nothing the user or the world does outside a run touches what the protocol rests on. */
  lemma OutsideKeepsInvariant(s: System, e: Event)
    requires Invariant(s) && Possible(s, e) && !e.Click? && !e.Answer?
    ensures Invariant(Step(s, e))
  {
    var t := Step(s, e);
    SettlesFacts(s);
    ViewFits(s, t);
    hide Settles, GuardAt, Arrived, PanelShown;
  }

  lemma StepKeepsInvariant(s: System, e: Event)
    requires Invariant(s) && Possible(s, e)
    ensures Invariant(Step(s, e))
  {
    hide Invariant, Underway, RunFits, Resume, Start;
    match e
    case Edit(_, _, _, _, _, _) => OutsideKeepsInvariant(s, e);
    case Tick(_) => OutsideKeepsInvariant(s, e);
    case Back => OutsideKeepsInvariant(s, e);
    case LedgerListed => OutsideKeepsInvariant(s, e);
    case Click(kind, at) => ClickKeepsInvariant(s, kind, at);
    case Answer(reply, at) =>
      WaitingFacts(s, at);
      ResumeFits(s.(clock := at), s.run.value, reply);
  }

  /** A ticket just opened: nothing asked for yet. */
  predicate Opened(s: System) {
    var v := s.view;
    && v.quote.None? && v.quoteWallet.None? && v.receivedAt == 0
    && v.build.None? && v.binding.None? && v.check.None? && v.signature.None?
    && v.tx == Unsent && v.verify == Unverified && v.attr == Unreported
    && v.failure.None? && v.stage.None? && !v.busy
    && s.run.None? && s.builds == 0 && s.log == Begin && s.clock > 0
  }

  ghost predicate PossibleRun(s: System, run: seq<Event>)
    decreases |run|
  {
    run == [] || (Possible(s, run[0]) && PossibleRun(Step(s, run[0]), run[1..]))
  }

  ghost function After(s: System, run: seq<Event>): System
    requires PossibleRun(s, run)
    decreases |run|
  {
    if run == [] then s else After(Step(s, run[0]), run[1..])
  }

  lemma {:induction false} RunsKeepInvariant(s: System, run: seq<Event>)
    requires Invariant(s) && PossibleRun(s, run)
    ensures Invariant(After(s, run))
    decreases |run|
  {
    if run != [] {
      StepKeepsInvariant(s, run[0]);
      hide Invariant, Step, Possible;
      RunsKeepInvariant(Step(s, run[0]), run[1..]);
    }
  }
}
