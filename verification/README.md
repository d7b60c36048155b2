# Verification of the trading desk's core logic

This project models the algorithms and protocols of the desk in Dafny and proves what they keep, on every input, in
every interleaving and over every run. `dafny verify dfyconfig.toml` checks all of it.

## What is modelled

* **SHA-256** (`Words`, `JsNumbers`, `Fips180`, `FipsConstants`, `Sha256`). The browser's hash works in place on typed
  arrays with JavaScript's signed and unsigned 32-bit operators. `Fips180` is an independent definition, written from
  FIPS 180-4, sections 4.1.2, 4.2.2, 5.1.1, 5.3.3 and 6.2.2. The code is proved to return its digest for every message
  with `len + 72 < 2^32`. For every longer message the 32-bit shifts give a buffer shorter than the message, so copying
  the message throws. Every intermediate sum is proved to stay within the integers a double holds exactly: that is the
  precondition of `JsNumbers.Add`.
* **Limiter** (`FixedWindow`, `RateLimit`, `MapRuns`, `SharedLimit`, `Fleet`). One key's window in an instance's memory
  and in the Redis script; the per-instance map with its purge; requests that bring a counter on the map to any course
  of events; `limitShared`; and a fleet of instances that fall back from the store to their own maps.
* **Circuit breaker, caches, single flight** (`Circuit`, `TtlCache`, `Dedupe`, `SingleFlight`). Classes for the
  objects, each proved equal to a step function; the interleavings of any number of calls are sequences of such steps,
  cut where the source awaits.
* **Confirmation** (`Confirmation`). The poller against any chain history in which the height never goes back, the
  transaction lands no later than its last valid height, and a landing the confirmed height has passed shows in every
  status read that gets a reply.
* **Trade ticket** (`TradeState`, `TradeTicket`, `TradeOffers`, `TradeLog`, `TradeReplies`, `TradeFailures`,
  `TradeFlow`, `TradeManual`, `TradeGuided`, `BuyPanel`, `VerifyPolling`). `TradeState` has the pure rules,
  `TradeTicket` the ticket as a step system whose runs keep the view they were clicked in, and `BuyPanel` the panel as
  an object whose handlers set one field after another and keep the ticket's invariant. `TradeOffers` says what its
  steps leave and offer, `TradeLog` what its log is worth. `TradeReplies` tells the order and the log by what the runs
  heard, `TradeFailures` the failures, `TradeFlow` and `TradeManual` follow a trade from end to end, and `TradeGuided`
  says what a guided ticket offers next. `VerifyPolling` is the polling loop of the verify step.
* **Claim ticket** (`ClaimTicket`, `ClaimRuns`, `ClaimReplies`, `ClaimFlow`, `BookPanel`). The reducer, any number of
  claim runs interleaved with wallet switches and late replies, and `BookPanel` the page as an object that keeps their
  invariant. `ClaimReplies` tells the ticket and what is sent by the events alone; `ClaimFlow` follows one claim.
* **Evidence guard** (`EvidenceGuard`). The JSON walk, the rounding forms and the number and likelihood checks on a
  generated brief.
* **Smaller cores** (`TapeSeries`, `Base64`, `RpcRelay`, `StoredLists`, `Navigation`).

`Wrappers`, `Lists` and `Logs` hold shared definitions.

## What came out false, and exactly when it holds

* **Twice the limit in one window length.** `limitShared` reads the clock before it asks the store, so `rateLimit` may
  be given a stamp up to the store's timeout old. `MapRuns.TwiceTheLimitIff` proves over all runs of requests on the map
  that the bound holds exactly when stamps are fresh, or when the limit is 1 and the window at least twice the delay.
  `MostAdmittedIff` gives the exact maximum for every setting, reached by requests that `RealisedAdmits` constructs; for
  limits above 1 and stamps two milliseconds late one key is enough (`OneKeyExceeds`). For a whole fleet the same is
  `Fleet.FleetTwiceIff` and `Fleet.FleetMostIff`.
* **The purge cannot be observed.** It can: a stamp one millisecond late may fall into a window that a purge has dropped
  (`ShownRun`). `PurgeUnobservableIff` proves that over all runs it cannot exactly when stamps are fresh.
* **`resetAt` never before the real reset.** On the memory path `AdvertisedReset` gives the exact condition on the state
  before the call, `EarlyResetIsReachable` a run that gets there, and `EarlyResetOverRuns` the condition over all runs:
  the key's window, live and not full, was opened by a later stamp, which fresh stamps exclude. On the store path
  `StoreAdvertisedReset` shows that it is early by exactly the time from the clock reading to the script's run.
* **"Expired" means never landed.** For `confirmSignature` this holds exactly when the height it was given is at or above
  the true one (`ExpiryIsSoundIff`); for `checkSignatureOnce` exactly when the confirmed height had passed the true one
  at the status read (`CheckOnceIsSoundIff`).
* **A claim is signed only for the connected wallet.** The guard reads `walletRef`, which an effect updates after the
  render. `PromptAfterSwitch` is a run that asks the wallet of the run before a switch; `PromptIsForRenderedIff` proves
  over all runs that a prompt is for the rendered wallet exactly when the last effect had noted that wallet.
* **A claim ticket ignores late results of old runs.** It does so by wallet and not by run: after any actions, all late
  results of a run are dropped exactly when the wallet last connected is not the run's (`LateUpdatesAreDroppedIff`,
  with `OldRunOfSameWalletIsAccepted`).
* **After a new quote nothing of the old order is offered.** A late ledger read sets the attribution phase of the new
  quote, and the recheck of an order is then offered without a build. `NewQuoteOffersNoSigning` proves over all runs,
  until a build is stored, that this is the only such action and when exactly it is enabled; `LedgerOffersRecheck` is a
  run that gets there.
* **A ticket that says "reporting" is reporting, and an unfinished trade has a next action.** A report that fails leaves
  the attribution phase at "reporting". If the trade is then submitted again and refused, and the recheck verifies it,
  the ticket says "reporting" with nothing under way and offers nothing (`TradeGuided.ReportingWithoutReport`).
  `NothingLeftIff` proves over all guided runs that an idle ticket offers nothing exactly when its trade is verified and
  either attributed or, with no failure shown, reported or left at "reporting", which is when it says so.

## Model

| member | source | states |
|---|---|---|
| Words.BigEndianRoundTrip | src/lib/sha256.ts:27-28 | a number that fits in k bytes is read back unchanged from its big-endian bytes |
| Words.HalvesOfBigEndian | src/lib/sha256.ts:27-28 | writing a number's high and low 32-bit halves one after the other writes its eight big-endian bytes |
| Fips180.PaddedLength | src/lib/sha256.ts:20-22 | the padded length is the smallest multiple of 64 that holds the message and nine more bytes |
| Fips180.PadInjective | src/lib/sha256.ts:20-28 | two different messages never pad to the same bytes |
| Fips180.LengthField | src/lib/sha256.ts:26-28 | the last eight bytes of the padding, read big-endian, are the bit length of the message |
| FipsConstants.KIsCubeRoot | src/lib/sha256.ts:7-15 | each K is the first 32 bits of the fractional part of the cube root of its prime, as section 4.2.2 defines it |
| FipsConstants.InitialIsSquareRoot | src/lib/sha256.ts:29 | each word of the initial value is the first 32 bits of the fractional part of the square root of its prime, as section 5.3.3 defines it |
| JsNumbers.SignedThenUnsigned | src/lib/sha256.ts:17 | taking a signed 32-bit result and reading it as unsigned loses nothing |
| JsNumbers.SumModulo | src/lib/sha256.ts:36 | the unsigned reading of a sum is the sum modulo 2^32 of the unsigned readings |
| Sha256.RotrIsRotr | src/lib/sha256.ts:17 | the two signed shifts joined with or are the rotation of section 3.2 |
| Sha256.RotrChain | src/lib/sha256.ts:40-43 | three rotations exclusive-ored in signed arithmetic are the capital sigma functions |
| Sha256.RotrShiftChain | src/lib/sha256.ts:34-35 | two rotations and an unsigned shift exclusive-ored are the small sigma functions |
| Sha256.ChOfSigned | src/lib/sha256.ts:41 | the choice of section 4.1.2, though complement and exclusive or give signed results |
| Sha256.MajOfSigned | src/lib/sha256.ts:44 | the majority of section 4.1.2, likewise |
| Sha256.CongruentAdd | src/lib/sha256.ts:42 | a signed term of a sum may be replaced by its unsigned reading |
| Sha256.RoundDownTo64 | src/lib/sha256.ts:21 | shifting right and left by 6 rounds down to a multiple of 64, modulo 2^32, also where the shifted value is negative |
| Sha256.TotalIsPaddedLength | src/lib/sha256.ts:21 | the buffer length is that of section 5.1.1 while len + 72 is below 2^32, and less than the message length ever after |
| Sha256.SetUint32 | src/lib/sha256.ts:27-28 | four big-endian bytes of the unsigned reading at the given place, and no other byte changes |
| Sha256.CopyMessage | src/lib/sha256.ts:20-24 | a fresh buffer that holds the message, the byte 0x80 and zeros up to its last eight bytes |
| Sha256.WriteLength | src/lib/sha256.ts:26-28 | the two 32-bit writes fill the last eight bytes with the 64-bit length and leave the front alone |
| Sha256.FillBuffer | src/lib/sha256.ts:20-28 | the buffer is the padding of section 5.1.1 |
| Sha256.NextWIsSchedule | src/lib/sha256.ts:34-36 | one schedule word computed in signed arithmetic is the recurrence of section 6.2.2 |
| Sha256.ScheduleStep | src/lib/sha256.ts:33-37 | with the earlier words right, the next word is the schedule's |
| Sha256.Schedule | src/lib/sha256.ts:31-37 | the in-place loops leave all sixty-four schedule words of the block |
| Sha256.JsRoundIsRound | src/lib/sha256.ts:40-53 | one pass of the compression loop is one round of section 6.2.2 |
| Sha256.Compress | src/lib/sha256.ts:38-54 | the loop leaves the working variables of sixty-four rounds |
| Sha256.AddInto | src/lib/sha256.ts:55-62 | the in-place additions leave the next hash value |
| Sha256.HashBlocks | src/lib/sha256.ts:29-63 | after all blocks the array holds the final hash value |
| Sha256.Output | src/lib/sha256.ts:64-67 | the digest is the hash value in big-endian bytes |
| Sha256.Sha256 | src/lib/sha256.ts:19-68 | a digest exactly when len + 72 is below 2^32, and then the digest of FIPS 180-4; a RangeError otherwise |
| FixedWindow.OpeningsBound | src/lib/rate-limit.ts:23-32 | windows open at least windowMs minus the staleness apart, so k such gaps allow at most k further windows |
| FixedWindow.SpanBound | src/lib/rate-limit.ts:23-32 | fewer than (k+1) * limit admissions in any span of k times windowMs minus the staleness, whatever purges happen |
| FixedWindow.CrowdAdmits | src/lib/rate-limit.ts:23-32 | for every limit, window and delay, late stamps and purges let (k + 1) * limit - 1 requests through in one window length, which is what SpanBound allows |
| FixedWindow.LateCallsAdmit | src/lib/rate-limit.ts:23-32 | without any purge, stamps two milliseconds late let 3 * limit - 1 through |
| FixedWindow.StoreOpeningsBound | src/lib/shared-store.ts:112-118 | at most k further windows of the script open in k window lengths |
| FixedWindow.StoreSpanBound | src/lib/shared-store.ts:112-118 | the script lets a key through fewer than (k+1) * limit times in any k window lengths, from any key state and with any replies lost |
| FixedWindow.StoreRetryIsAdmitted | src/lib/shared-store.ts:388-391 | after a denial by the script, a call once the advertised seconds have passed is let through, whatever calls came before the window's end |
| RateLimit.Limiter.RateLimit | src/lib/rate-limit.ts:13-33 | the map and the answer after one call, purge and clearing included |
| RateLimit.Limiter.PurgeExpired | src/lib/rate-limit.ts:20 | the loop leaves exactly the windows that have not expired |
| RateLimit.SizeBound | src/lib/rate-limit.ts:19-22 | the map never exceeds MAX_KEYS + 1 windows, over any run |
| RateLimit.PurgeKeepsAgreement | src/lib/rate-limit.ts:19-32 | one call answers as a limiter that never deletes, and stays in step with it |
| MapRuns.RealisedAdmits | src/lib/rate-limit.ts:19-32 | any events of one key's counter, fresh purges at any moments included, are made by requests on the map, with the same admissions and without clearing it |
| MapRuns.MostAdmittedIff | src/lib/shared-store.ts:381-400 | with late stamps, over every run of requests on the map, (k + 1) * limit - 1 is the least bound for one window length, and there is none if the window is no longer than the delay |
| MapRuns.TwiceTheLimitIff | src/lib/shared-store.ts:381-400 | over every run of requests on the map, twice the limit bounds every window length exactly when stamps are fresh or the limit is 1 and the window at least twice the delay |
| MapRuns.OneKeyExceeds | src/lib/shared-store.ts:383-400 | requests of a single key, with stamps two milliseconds late, get 3 * limit - 1 through for every limit above 1 |
| MapRuns.PurgeUnobservableIff | src/lib/rate-limit.ts:19-32 | every ordered run that is not made to clear the map gets the answers of a limiter that never deletes, exactly when stamps are fresh |
| MapRuns.ShownRun | src/lib/rate-limit.ts:19-25 | a run with a stamp one millisecond late that is answered otherwise after a purge |
| RateLimit.ProjectionCounts | src/lib/rate-limit.ts:13-33 | what the map lets through for a key is what that key's own window lets through on its own events |
| RateLimit.KeySpanBound | src/lib/rate-limit.ts:13-33 | the span bound, for one key among all requests of an instance, from any map in which its window is within the limit |
| RateLimit.WindowStays | src/lib/rate-limit.ts:23-32 | unless a request of the key is let through, its window stays as it is or disappears |
| RateLimit.RetryIsAdmitted | src/lib/rate-limit.ts:28-30 | a retry after the advertised seconds is let through unless another request of the key was in between |
| RateLimit.AdvertisedReset | src/lib/shared-store.ts:400-403 | resetAt is before the real reset exactly when, before the call, the key has a live window that is not full and ends later than one this request would open |
| RateLimit.EarlyResetIsReachable | src/lib/shared-store.ts:383-400 | an ordered run of two requests that advertises 100 for a window that resets at 105 |
| RateLimit.EarlyResetOverRuns | src/lib/rate-limit.ts:23-32 | over every run, early exactly when the key's window, live and not full, was opened by a later stamp than the request's; never with fresh stamps |
| SharedLimit.StoreAdvertisedReset | src/lib/shared-store.ts:386-391 | on the store path resetAt is early by exactly the time from the clock reading to the script's run |
| SharedLimit.LimitShared | src/lib/shared-store.ts:381-404 | every field of the answer, from the store's reply if there is one and from the instance's limiter otherwise, which the store path leaves untouched; used and remaining requests add up to the limit |
| Fleet.CountersAreOrdered | src/lib/shared-store.ts:381-404 | the store and each instance of a fleet see their own calls in order, with stamps as old as the store's timeout at most |
| Fleet.FleetIsSum | src/lib/shared-store.ts:381-404 | what the fleet lets through for a key, among requests for others, is the sum of what the store and each instance let through on their own |
| Fleet.FleetBound | src/lib/shared-store.ts:381-404 | store and N instances together stay within (2 * limit - 1) + N * ((k + 1) * limit - 1) in one window length, however calls fall back |
| Fleet.FleetMostIff | src/lib/shared-store.ts:381-404 | with late stamps that sum is the least bound over every run of the fleet, for windows longer than the delay |
| Fleet.FleetTwiceIff | src/lib/shared-store.ts:381-404 | a fleet keeps to 2 * limit * (N + 1) in every run exactly when stamps are fresh, it has no instance, or that sum stays within it |
| Circuit.GuardedStore.BeginCall | src/lib/shared-store.ts:257-265 | a call starts while nothing has failed, is skipped before openUntil, and as a probe finds no other under way |
| Circuit.GuardedStore.EndCall | src/lib/shared-store.ts:274-288 | a success closes the circuit at any later time; a failure opens it for the backoff of one more failure; a probe that ends makes room for the next, and a straggler does not |
| Circuit.BackoffIsGap | src/lib/shared-store.ts:283 | the capped exponent never shows: after i+1 failures the backoff is min(60000, 5000 * 2^i) |
| Circuit.BeginKeepsInvariant | src/lib/shared-store.ts:257-265 | starting a call keeps the invariant of the breaker |
| Circuit.EndKeepsInvariant | src/lib/shared-store.ts:274-288 | so does the end of any call in flight |
| Circuit.NothingStartsWhileOpen | src/lib/shared-store.ts:212-219 | a started call is not before openUntil, and a started probe finds no other under way |
| Circuit.ProbeGap | src/lib/shared-store.ts:280-287 | with no success in between, the probe after the i-th starts at least min(60000, 5000 * 2^i) ms later |
| Circuit.EveryRunIsSafe | src/lib/shared-store.ts:256-290 | at every step of every interleaving: one probe at most, no failures exactly when not open, nothing starts while open, probes spaced |
| Circuit.RunsAreSafe | src/lib/shared-store.ts:209-290 | the same from the initial state on |
| Circuit.EveryCallGetsItsDue | src/lib/shared-store.ts:256-290 | after every interleaving, counting failures from the events: a call starts with no failure since the last success, is skipped until min(60000, 5000 * 2^i) ms after the last, and then is the probe unless one is out; the skipped ones are counted |
| Circuit.SuccessCloses | src/lib/shared-store.ts:275-276 | after a success every call starts, and none as a probe, until a call fails again |
| Circuit.FailureOpens | src/lib/shared-store.ts:280-284 | after a failure every call before the end of its backoff is skipped, until another call ends |
| TtlCache.TtlCache.Get | src/lib/rate-limit.ts:69-77 | the live value, or none and the expired entry gone |
| TtlCache.TtlCache.Purge | src/lib/rate-limit.ts:81 | deleting while iterating leaves exactly the live entries, in insertion order |
| TtlCache.TtlCache.Set | src/lib/rate-limit.ts:79-88 | purge, eviction of the oldest key and insertion, an overwritten key keeping its place |
| TtlCache.GetIsRemembered | src/lib/rate-limit.ts:69-77 | get returns the last value set exactly when it has not expired and was not evicted since |
| TtlCache.SetKeepsAgreement | src/lib/rate-limit.ts:79-88 | set keeps the cache in agreement with one that forgets nothing, within maxEntries |
| TtlCache.EvictionNeedsFullCache | src/lib/rate-limit.ts:80-86 | a live entry is evicted only from a cache of maxEntries live entries, and it is the one inserted first |
| TtlCache.RunsAgree | src/lib/rate-limit.ts:69-88 | the agreement and the size bound over every run of gets and sets |
| TtlCache.GetAnswersLastSet | src/lib/rate-limit.ts:69-88 | after any run of gets and sets, get answers the value that the last set of the key was given, exactly while it lives and was not evicted |
| TtlCache.OnlyVictimsAreEvicted | src/lib/rate-limit.ts:79-88 | only the victim of a set counts as evicted, and a key that is set does not |
| Dedupe.Inflight.Lookup | src/lib/rate-limit.ts:92-97 | a cached value, a computation to join, or a computation registered for the key |
| Dedupe.Inflight.Release | src/lib/rate-limit.ts:102-104 | the key is free again and no other is touched |
| Dedupe.StepKeepsRegistered | src/lib/rate-limit.ts:91-105 | every unreleased computation is the registered one of its key, at every step |
| Dedupe.OneComputationPerKey | src/lib/rate-limit.ts:94-97 | two unreleased computations of one key are the same |
| Dedupe.JoinerGetsItsKey | src/lib/rate-limit.ts:94-95 | a joiner gets a computation of its own key |
| Dedupe.StartNeedsExpiry | src/lib/shared-store.ts:432-438 | a computation starts only if none is registered and the key's last value has expired or was evicted |
| Dedupe.FailureCachesNothing | src/lib/rate-limit.ts:98-104 | a failed computation leaves the cache as it was |
| Dedupe.ReleaseFreesKey | src/lib/rate-limit.ts:102-104 | after the release the next call that finds nothing cached starts afresh |
| Dedupe.RunsKeepInvariant | src/lib/rate-limit.ts:91-105 | over every interleaving, and outcomes and joins never change once made, so a joiner gets that value or error |
| Dedupe.NoStartWithinTtl | src/lib/shared-store.ts:421-455 | after a success no computation of the key starts within ttlMs, unless the value was evicted |
| Dedupe.CacheAnswersLastValue | src/lib/rate-limit.ts:91-105 | over every run: a lookup is answered from the cache exactly while the value of the last computation of its key to finish lives and was not evicted, and then with what that computation settled to |
| Dedupe.JoinersGetTheOutcome | src/lib/shared-store.ts:432-454 | over every run: a call that joined gets what the computation of its own key settled to |
| SingleFlight.SingleFlight.Run | src/lib/single-flight.ts:15-28 | the promise in flight, or that of the run started now, which becomes the current one |
| SingleFlight.SingleFlight.Clear | src/lib/single-flight.ts:23-25 | only the run that is still current clears the field |
| SingleFlight.StepKeepsInvariant | src/lib/single-flight.ts:15-28 | at most one run unsettled; calls meanwhile get its promise, and with none in flight a call starts its own; the test in the callback never fails |
| SingleFlight.RunsKeepInvariant | src/lib/single-flight.ts:8-29 | over every interleaving |
| Confirmation.ConfirmSignature | src/lib/solana.ts:99-156 | confirmed or failed exactly when the last of its own status reads said so; pending or expired only if none of them did, pending only out of time; expired only if the transaction has not landed and never will; within the deadline |
| Confirmation.RunPolls | src/lib/solana.ts:124-155 | the loop with its counter and lastError is the recursive definition the proofs use |
| Confirmation.AttemptIsSound | src/lib/solana.ts:112-141 | one pass, with its second status read after the height has passed; confirmed and failed are what the last of its own reads said |
| Confirmation.AttemptAnswers | src/lib/solana.ts:112-141 | one pass answers confirmed, failed or expired, or goes on, exactly as its reads say: one read, or a second one where the height has passed |
| Confirmation.OutcomeIsSound | src/lib/solana.ts:112-155 | the same for every interleaving of polls, RPC errors and chain steps |
| Confirmation.OutcomeIsWhatWasRead | src/lib/solana.ts:124-155 | the loop answers confirmed or failed exactly when its last status read said so, and pending or expired exactly when no read of the run was settled |
| Confirmation.PastHeightExpires | src/lib/solana.ts:128-137 | a pass that reads a height past the last valid one, with its two status reads silent, ends the loop with expired |
| Confirmation.PassBound | src/lib/solana.ts:144-154 | every pass but the last is followed by a sleep that ends before the deadline |
| Confirmation.DefaultPasses | src/lib/solana.ts:99-109 | at most 45 passes with the default timings |
| Confirmation.ExpiryIsSoundIff | src/lib/solana.ts:124-141 | over all chains, expired can be trusted exactly when the given height is at or above the true one |
| Confirmation.ResolvedExpiryIsSound | src/lib/solana.ts:65-74 | the resolved height is such a height: the build's own if it is the true one, or else the latest blockhash's if that is no older |
| Confirmation.CheckOnceIsSoundIff | src/lib/solana.ts:159-190 | whatever height it was given, a single check's expired can be trusted exactly when the confirmed height had passed the true one at its status read |
| Confirmation.CheckOnceAnswers | src/lib/solana.ts:159-190 | each answer of the single check, exactly by its status read and, where that is silent, its height read |
| VerifyPolling.RunVerify | src/components/PrimaryBuyPanel.tsx:485-530 | confirmed, failed or an error exactly by the status of the last reply, all earlier ones having left the order open; at most 8 requests, no sleep due past 30 s, timeout only after more than 22 s, the backoff respected, for any latencies |
| VerifyPolling.SleptGrows | src/components/PrimaryBuyPanel.tsx:521-524 | at most seven sleeps fit in the budget |
| TapeSeries.DeriveTapeSeries | src/components/TapeSparkline.tsx:21-40 | with trades at two times or more, one point for each time at which there is a sided trade, strictly increasing, each the YES part of all that was traded by then, by size if every size is known and by number otherwise; else nothing |
| TapeSeries.DerivedCharts | src/components/TapeSparkline.tsx:21-40 | the series of the usable rows is the chart of the trades: which trades count, on which side and with which weight |
| TapeSeries.Accumulate | src/components/TapeSparkline.tsx:27-38 | the loop that overwrites its last point computes that series from sorted rows |
| TapeSeries.SeriesGrows | src/components/TapeSparkline.tsx:30-38 | one more row, at the last time or later, extends the series |
| TapeSeries.WeightPermutes | src/components/TapeSparkline.tsx:30-33 | the weight up to a time does not depend on the order of the rows |
| TapeSeries.SeriesIsUnique | src/components/TapeSparkline.tsx:29-38 | rows have only one series |
| TapeSeries.OrderDoesNotMatter | src/components/TapeSparkline.tsx:21-40 | any reordering of the tape gives the same series |
| TapeSeries.ShareIsFraction | src/components/TapeSparkline.tsx:34 | with sizes that are not negative, every share is between 0 and 1 |
| TradeState.SignAgainStages | src/lib/trade-state.ts:571-596 | the two failures that let one sign again come only from stages before a signature |
| TradeState.CountdownIsExact | src/lib/trade-state.ts:671-673 | the countdown is the fewest whole seconds that reach the deadline, hence 0 exactly when it has come |
| TradeState.PassMeans | src/lib/trade-state.ts:754-776 | a passed guard means the quoted market, side and amount, the quoted wallet, the build's wallets and slippage, and more than 5 s before Panta's expiry or less than 60 s after receipt |
| TradeState.PassIff | src/lib/trade-state.ts:754-776 | the guard passes exactly when the order is the one quoted, for its wallet, in time, and built for the inputs; it says expired exactly when time is the first thing wrong |
| TradeState.PassedBefore | src/lib/trade-state.ts:767 | what passes later passed earlier: waiting never helps |
| TradeState.StaleFlagIsGuard | src/lib/trade-state.ts:792-808 | before the deadline the stale flag is set exactly when the guard refuses |
| TradeState.VerifiedMeansVerified | src/lib/trade-state.ts:848-857 | attributed is shown exactly when Panta has verified and attributed, verified only when verified |
| TradeState.SigningAgainIsOffered | src/lib/trade-state.ts:862-877 | signing again is offered only for a failure before a signature, on a quote that has not run out |
| TradeState.OfferedIff | src/lib/trade-state.ts:848-897 | exactly when checking, submitting, rechecking, reporting again and signing again are each offered |
| TradeState.ProgressIff | src/lib/trade-state.ts:848-897 | exactly when a trade is shown as thrown out, confirming, confirmed, slow to verify, verified or reported |
| TradeState.ListedMeans | src/lib/trade-state.ts:851-856 | what a listed trade is said to be, by its verification |
| TradeTicket.FlagsAreTheGuard | src/components/PrimaryBuyPanel.tsx:836-862 | expired, stale and stale build together are set exactly when the guard refuses at the displayed time |
| TradeTicket.CountdownIsTheTimeCheck | src/components/PrimaryBuyPanel.tsx:836-839 | the displayed countdown reads 0 exactly when the guard's time check fails |
| TradeTicket.ShownBeforeSigning | src/lib/trade-state.ts:889-896 | what an idle ticket shows before anything is signed, by the guard at the displayed time: the review only where the order it would sign passes |
| TradeTicket.SigningNeedsNoSignature | src/components/PrimaryBuyPanel.tsx:953-979 | any enabled action that may open the wallet finds no signature, guided or step by step |
| TradeTicket.ThrowFits | src/components/PrimaryBuyPanel.tsx:645-663 | after any error the ticket's invariant holds: a failure that lets one sign again leaves no signature |
| TradeTicket.RefuseFits | src/components/PrimaryBuyPanel.tsx:243-255 | so it does after the guard refuses |
| TradeTicket.StartBuildFits | src/components/PrimaryBuyPanel.tsx:304-316 | a build run that waits has passed the guard, on a quote that had arrived |
| TradeTicket.StartSignFits | src/components/PrimaryBuyPanel.tsx:367-382 | a signing run that waits has passed the guard with its build's binding, for the current build, without a signature |
| TradeTicket.StartApproveFits | src/components/PrimaryBuyPanel.tsx:701-712 | so has one that starts from the review panel or the retry button |
| TradeTicket.StartSubmitFits | src/components/PrimaryBuyPanel.tsx:456-469 | an order is submitted only for a signature observed confirmed, whoever vouches for it |
| TradeTicket.StartFits | src/components/PrimaryBuyPanel.tsx:671-779 | every handler keeps the invariant up to its first await, given what the clicked view says about itself |
| TradeTicket.AfterQuoteFits | src/components/PrimaryBuyPanel.tsx:291-301 | a new quote keeps the invariant, dropping the old build and signature |
| TradeTicket.StoreFits | src/components/PrimaryBuyPanel.tsx:326-338 | a build is stored with both guards passed, from the quote of its run, and starts without a signature |
| TradeTicket.AfterBuildFits | src/components/PrimaryBuyPanel.tsx:322-346 | the second guard, the storing and the failed check all keep the invariant |
| TradeTicket.PreflightFits | src/components/PrimaryBuyPanel.tsx:388-402 | the wallet is asked only with a guard passed in this run, on the quote that the build was stored from, and never for a build that has a signature |
| TradeTicket.AfterSendFits | src/components/PrimaryBuyPanel.tsx:405-417 | the recorded signature is the first of its build |
| TradeTicket.AfterSettlingFits | src/components/PrimaryBuyPanel.tsx:348-365 | whatever the confirmation says, the invariant holds and a submit that follows is for the observed signature |
| TradeTicket.ClickKeepsInvariant | src/components/PrimaryBuyPanel.tsx:953-979 | every enabled click keeps the invariant |
| TradeTicket.ResumeFits | src/components/PrimaryBuyPanel.tsx:275-618 | every reply, and every error, at every await keeps the invariant |
| TradeTicket.StepKeepsInvariant | src/components/PrimaryBuyPanel.tsx:95-979 | every step does, edits, wallet changes and late ledger reads included |
| TradeTicket.RunsKeepInvariant | src/components/PrimaryBuyPanel.tsx:95-979 | over every run |
| TradeOffers.SignatureIsNotReplaced | src/components/PrimaryBuyPanel.tsx:211-433 | no step puts another signature in the place of a recorded one; only a new quote or build drops it |
| TradeOffers.ClickLogs | src/components/PrimaryBuyPanel.tsx:671-779 | a click reaches nobody, except that it may submit the order of the signature shown, which was observed confirmed |
| TradeOffers.AnswerRecords | src/components/PrimaryBuyPanel.tsx:402-410 | a signature that appears is the first of the current build and is recorded as such |
| TradeOffers.UnbuiltOffers | src/components/PrimaryBuyPanel.tsx:953-979 | without a build no action on an order is enabled, except the recheck, exactly while the attribution phase says attributed |
| TradeOffers.NewQuoteOffersNoSigning | src/components/PrimaryBuyPanel.tsx:211-227 | so over every run from a new quote until a build is stored |
| TradeOffers.LedgerOffersRecheck | src/components/PrimaryBuyPanel.tsx:533-553 | one late ledger read after a new quote enables the recheck, with neither build nor signature |
| TradeOffers.DeclinedMaySignAgain | src/components/PrimaryBuyPanel.tsx:966-967 | after the user declines, signing the same build again is offered exactly while the guard holds at the displayed time |
| TradeLog.OneSignaturePerBuild | src/components/PrimaryBuyPanel.tsx:402-410 | a log of justified entries counts at most one signature for each build |
| TradeLog.StoredInTime | src/components/PrimaryBuyPanel.tsx:311-326 | a stored build's quote had arrived, was for the run's wallet and amount, and was in time before the request and after the response |
| TradeLog.StoredOnce | src/components/PrimaryBuyPanel.tsx:326-328 | a build is stored once, so what is said of its storing is said of one entry |
| TradeLog.AskedAgainOnlyAfterFailure | src/components/PrimaryBuyPanel.tsx:396-417 | once the wallet has been asked for a build, over every run without an error of the wallet or the send in a run that asked, it is not asked for it again |
| TradeLog.WalletAskedInTime | src/components/PrimaryBuyPanel.tsx:377-384 | when the wallet is asked, the run's quote was in time at its guard and matches the inputs, side included; the build was stored earlier from that same quote, for that wallet and with that slippage; and it has no signature |
| TradeLog.EveryRunIsSafe | src/components/PrimaryBuyPanel.tsx:95-979 | in every run of enabled actions: one signature at most per stored build, builds stored and wallets asked on quotes in time, each wallet asked for a build stored earlier from the very quote that passed the guard, each order submitted for a signature observed confirmed earlier |
| TradeReplies.StepFollows | src/components/PrimaryBuyPanel.tsx:211-618 | every step leaves the order on the ticket and its log as the answers heard and the waits begun make them |
| TradeReplies.ToldWasHeard | src/components/PrimaryBuyPanel.tsx:348-618 | each outcome that the answers leave on an order was heard by a run of that order's build |
| TradeReplies.ObservedWasHeard | src/components/PrimaryBuyPanel.tsx:348-353 | a signature is on record as confirmed only if a run with that signature heard that it is |
| TradeReplies.ShownWasHeard | src/components/PrimaryBuyPanel.tsx:348-618 | verified or attributed is shown only if Panta's verdict for the build shown said verified, and attributed only if the report's answer or the ledger said so too |
| TradeReplies.EveryTicketIsTold | src/components/PrimaryBuyPanel.tsx:95-979 | so over every run from an opened ticket: quote, build, binding, check, signature, confirmation, verification and attribution are each what was heard last |
| TradeReplies.AnswerIsShown | src/components/PrimaryBuyPanel.tsx:348-618 | one answer, read at once, is what the ticket shows |
| TradeFailures.AnswerFails | src/components/PrimaryBuyPanel.tsx:645-663 | every answer leaves exactly the failure of the step it answers, or none |
| TradeFailures.ClickFails | src/components/PrimaryBuyPanel.tsx:243-255 | a click that gets to no await leaves exactly the failure of what it found: not ready, nothing to build or sign, or the guard's refusal |
| TradeFlow.ApprovalCarriesThrough | src/components/PrimaryBuyPanel.tsx:701-727 | an order approved in time, with favourable answers, is signed, confirmed, submitted, verified and reported, once each; the exact final ticket and log |
| TradeFlow.FinishCarriesThrough | src/components/PrimaryBuyPanel.tsx:749-769 | a later run finishes a trade that has its signature, checking the confirmation first exactly if that is open |
| TradeFlow.TradeCarriesThrough | src/components/PrimaryBuyPanel.tsx:668-727 | on a ticket just opened and filled in, three clicks, each enabled when its turn comes, make the whole trade |
| TradeFlow.RetryCarriesThrough | src/components/PrimaryBuyPanel.tsx:628-643 | a report that Panta kept refusing may be sent again as it was, and its answer is shown |
| TradeManual.CheckByHand | src/components/PrimaryBuyPanel.tsx:435-454 | a pending confirmation may be checked again by hand: the exact ticket after each answer |
| TradeManual.TradeByHand | src/components/PrimaryBuyPanel.tsx:771-779 | six clicks by hand, each enabled when its turn comes, leave the very ticket and log that three guided ones do |
| TradeGuided.RunsStand | src/components/PrimaryBuyPanel.tsx:668-769 | over every run in guided mode, an idle trade without a failure is confirmed, and verified or given up on |
| TradeGuided.NothingLeftIff | src/lib/trade-state.ts:848-897 | over every run in guided mode, an idle ticket offers no next action exactly when its trade is verified and either attributed or, with no failure shown, reported or still reporting |
| TradeGuided.GuidedReportsAreSettled | src/components/PrimaryBuyPanel.tsx:701-769 | over every such run an order is verified and reported only after it was seen confirmed, and reported only once its verification ended other than in a refusal |
| TradeGuided.ReportingWithoutReport | src/components/PrimaryBuyPanel.tsx:563-588 | a run after which the ticket says that it is reporting, with nothing under way and nothing offered |
| BuyPanel.Panel.Click | src/components/PrimaryBuyPanel.tsx:671-779 | any enabled click keeps the ticket's invariant and the signature, and reaches nobody, except that it may submit the order of a signature observed confirmed |
| BuyPanel.Panel.Answer | src/components/PrimaryBuyPanel.tsx:285-618 | any reply keeps the invariant; what was answered is what is shown of the signature, the confirmation, the verification, the report and the quote; a signature that appears is its build's first and is recorded, and none is replaced by another |
| BuyPanel.Panel.LedgerListed | src/components/PrimaryBuyPanel.tsx:533-553 | a late ledger read keeps the invariant and touches no build, signature or run |
| BuyPanel.Panel.Drive | src/components/PrimaryBuyPanel.tsx:95-979 | after any events: one signature at most per build, builds stored and wallets asked on quotes in time and of the same build, only signatures observed confirmed submitted; the order shown is what was heard last for its build, and verified is shown only on Panta's verdict for it |
| ClaimTicket.FieldStep | src/lib/claim-ticket.ts:49-66 | one action blanks a result field, writes it for the ticket's owner, or leaves it on a ticket that keeps its owner |
| ClaimTicket.Provenance | src/lib/claim-ticket.ts:49-66 | after any actions each result field is blank or was written, as it stands, in the name of the ticket's owner, connected without a break since |
| ClaimTicket.DisconnectedIsBlank | src/lib/claim-ticket.ts:14-36 | a disconnected ticket has no results |
| ClaimTicket.VisibleIsOwn | src/lib/claim-ticket.ts:69-71 | what is shown to a wallet is its own, or nothing |
| ClaimTicket.LateResultsAreDropped | src/lib/claim-ticket.ts:59-64 | any number of late results of other wallets change nothing |
| ClaimTicket.OldRunOfSameWalletIsAccepted | src/lib/claim-ticket.ts:62-64 | after a switch away and back, a late result of the first run is shown |
| ClaimTicket.OwnerIsLastWallet | src/lib/claim-ticket.ts:51-52 | after any actions the ticket belongs to the wallet last connected |
| ClaimTicket.LateUpdatesAreDroppedIff | src/lib/claim-ticket.ts:62-64 | after any actions, all late results of a run are dropped exactly when that wallet is not the one the run started under |
| ClaimRuns.DispatchFits | src/lib/claim-ticket.ts:49-66 | an action other than a wallet change leaves the ticket with the rendered wallet |
| ClaimRuns.ConnectFits | src/lib/claim-ticket.ts:74-79 | a render for another wallet hands the ticket over |
| ClaimRuns.PromptFits | src/components/BookPanel.tsx:215-217 | asking the wallet, while walletRef names the run's own, is the run's first prompt |
| ClaimRuns.SettlingKeepsProtocol | src/components/BookPanel.tsx:223-248 | a report follows a confirmed signature of an attributable kind, once a run |
| ClaimRuns.ReplyKeepsProtocol | src/components/BookPanel.tsx:186-255 | so after every reply at every await |
| ClaimRuns.StepKeepsInvariant | src/components/BookPanel.tsx:95-255 | and after every step |
| ClaimRuns.RunsKeepInvariant | src/components/BookPanel.tsx:95-255 | and over every interleaving |
| ClaimRuns.AnswerLogs | src/components/BookPanel.tsx:215-239 | a reply that makes a run prompt or report does so for the run's own wallet in walletRef, or for its signature seen confirmed |
| ClaimRuns.WalletsFollow | src/components/BookPanel.tsx:95-101 | over every run, the rendered wallet is the last one connected and walletRef the one rendered at the last effect |
| ClaimRuns.NotedIsRendered | src/components/BookPanel.tsx:98-101 | with no switch since the last effect the two are the same |
| ClaimRuns.PromptIsForRenderedIff | src/components/BookPanel.tsx:215-217 | over every run, each prompt has its moment, and it is for the rendered wallet exactly when the last effect had noted the wallet then rendered |
| ClaimRuns.PromptAfterSwitch | src/components/BookPanel.tsx:215-217 | a run that asks wallet a while b is rendered |
| ClaimRuns.EveryRunIsSafe | src/components/BookPanel.tsx:180-255 | over all runs: the wallet is asked once a run and only while walletRef names the run's own, only confirmed attributable claims are reported, and each result shown belongs to the rendered wallet |
| ClaimReplies.StepFollows | src/components/BookPanel.tsx:143-255 | every step leaves the ticket, the form and what was sent as the events so far tell them |
| ClaimReplies.ToldWasAnswered | src/components/BookPanel.tsx:218-225 | a phase or a signature that the events leave on a ticket was answered to a run of the wallet rendered since, on a ticket not emptied since |
| ClaimReplies.AttrWasAnswered | src/components/BookPanel.tsx:229-246 | so was an attribution, by Panta or by its ledger |
| ClaimReplies.ShownWasAnswered | src/components/BookPanel.tsx:95-255 | over every run: phase, signature, attribution, error, message and busy flag, and every prompt, landing and report, are what the events tell; a confirmed phase has landed |
| ClaimReplies.AnswerShows | src/components/BookPanel.tsx:180-255 | one answer, read at once: the ticket of the run's wallet shows it, any other ticket is left as it was |
| ClaimFlow.ClaimCarriesThrough | src/components/BookPanel.tsx:180-248 | a claim with favourable answers is prompted for, landed and, if it may be, reported; any other ends unreported with its ticket free |
| ClaimFlow.ReportIsAnswered | src/components/BookPanel.tsx:232-246 | Panta's answer to the report is shown and frees the ticket |
| BookPanel.Book.Connect | src/lib/claim-ticket.ts:74-79 | a render for another wallet keeps the invariant, hands the ticket over and leaves no result on it |
| BookPanel.Book.Click | src/components/BookPanel.tsx:180-192 | a started run keeps the invariant, clears what an earlier one left and has reached nobody |
| BookPanel.Book.Answer | src/components/BookPanel.tsx:186-255 | any reply keeps the invariant; on the ticket of the run's own wallet it shows what was answered, and on another it changes nothing; a prompt is the run's first, with its own wallet in walletRef, and a report its first, for a signature seen confirmed |
| BookPanel.Book.Drive | src/components/BookPanel.tsx:95-255 | after any events what was prompted and reported is safe and, like the ticket, what the events tell; each result shown was answered, and is blank or was written in the name of the rendered wallet |
| EvidenceGuard.Evidence.constructor | src/lib/brief-guard.ts:84-99 | the strict set is 0, 1, 100 and the forms of every number in signals and templates; the plain set is the plain numbers of the catalog |
| EvidenceGuard.Evidence.AddForms | src/lib/brief-guard.ts:59-64 | exactly the forms of the number are added, to the strict set only |
| EvidenceGuard.Evidence.Walk | src/lib/brief-guard.ts:88-93 | the recursive walk adds the forms of every number anywhere in the value |
| EvidenceGuard.NumbersAreInside | src/lib/brief-guard.ts:88-93 | the numbers of a value are exactly those that some path through it leads to |
| EvidenceGuard.ToFixedIsNearest | src/lib/brief-guard.ts:54-63 | the rounding is the number with that many decimals nearest to x, ties away from zero, and the only one |
| EvidenceGuard.CanonKeepsRoundings | src/lib/brief-guard.ts:54-63 | the six-decimal canonical form does not change a rounding to fewer decimals |
| EvidenceGuard.FormsAreQuotes | src/lib/brief-guard.ts:59-64 | a value is a form of x exactly when it rounds x, its absolute value, or 100 times either if x is at most 1 in size, to 0-4 decimals |
| EvidenceGuard.SupportedIsJustified | src/lib/brief-guard.ts:165-171 | a number passes exactly when it is 0, 1, 100, a form of a signals or template number, or a plain number of the catalog that is no percentage |
| EvidenceGuard.PercentagesIgnoreCatalog | src/lib/brief-guard.ts:79-83 | a percentage never rests on the catalog text |
| EvidenceGuard.MarketOdds | src/lib/brief-guard.ts:119-123 | a stated likelihood is a form of the market's YES or NO probability |
| EvidenceGuard.CheckNumbers | src/lib/brief-guard.ts:165-192 | accepted exactly when every number is supported and every likelihood claim is allowed; a rejected number is the first unsupported one |
| EvidenceGuard.CheckClaims | src/lib/brief-guard.ts:173-191 | the two loops over the sentences accept exactly the allowed likelihood claims |
| EvidenceGuard.GuardBrief | src/lib/brief.ts:301-319 | a brief passes exactly when every number rests on the evidence, every stated likelihood on the market's own probability, and none is stated where there is none |
| Base64.EncodedShape | src/lib/rpc-relay.ts:42 | an encoding has the accepted shape, with the padding its length calls for |
| Base64.BytesLength | src/lib/rpc-relay.ts:59-61 | four digits are three bytes, padding counted as zeros |
| Base64.RoundTrip | src/lib/rpc-relay.ts:42-61 | decoding the encoding of section 4 of RFC 4648 gives back the bytes |
| RpcRelay.AcceptsIff | src/lib/rpc-relay.ts:58-61 | the length formula is the decoded size, and a string is accepted exactly when it is padded base 64 of 73 to 1232 bytes |
| RpcRelay.AcceptsEncodingIff | src/lib/rpc-relay.ts:55-61 | the encoding of a byte sequence is accepted exactly when it has 73 to 1232 bytes |
| RpcRelay.ParseRpcBody | src/lib/rpc-relay.ts:125-148 | empty or too large exactly with no calls or more than 10; accepted exactly with 1 to 10 acceptable calls; otherwise the first unacceptable call decides, with exactly its reason |
| StoredLists.Storage.PushRecent | src/lib/storage.ts:71-77 | the returned list and the stored one, whether or not the write succeeds |
| StoredLists.Storage.ToggleWatch | src/lib/storage.ts:58-65 | likewise |
| StoredLists.PushKeepsMostRecent | src/lib/storage.ts:74 | one push keeps the list the most recently used ids in order, dropping the right one |
| StoredLists.RecentsAreMostRecent | src/lib/storage.ts:71-77 | any run of pushes leaves exactly the twelve most recently used ids, each once, in order |
| StoredLists.WatchedIsParity | src/lib/storage.ts:58-65 | an id is watched exactly when toggled an odd number of times, and then once |
| StoredLists.WatchedIsOrdered | src/lib/storage.ts:58-65 | the watched ids are in the order in which they were put on the list, the latest first |
| Navigation.StepShows | src/lib/navigation.ts:87-98 | one pass of the loop shows what the items so far call for |
| Navigation.DesktopEntries | src/lib/navigation.ts:83-101 | every item shows as often as it is listed, at the xl breakpoint and below it; entries stand at the places of the items, a menu at its first, active exactly when one of its items is; the More menu comes last |

## Left out

- React rendering, effects other than the one that updates `walletRef`, copy, styles and charts.
- The network, wallets, Upstash, OpenAI and Panta: their replies, errors and timeouts are parameters. `src/lib/panta`, with `checkBuild`, `submitOrder`, `verifyOrder`, `reportTrade` and `isAttributableClaim`, is not part of this model.
- Regular expressions, trimming, Unicode and date parsing: tokens, trimmed ids and parsed times are inputs.
- Floating-point rounding outside SHA-256: shares and evidence numbers are real numbers, amounts are the numbers they spell.
- Sha256.Sha256: messages are at most 2^53 - 73 bytes long, so that `len + 72` is an exact integer; no array is longer.
- FipsConstants.KIsCubeRoot: the prime numbers are a list; that it is the first sixty-four of them is not proved.
- MapRuns.PurgeUnobservableIff: runs in which line 21 clears every counter are excluded, here and in the bounds, because that line drops counters on purpose.
- RateLimit.KeySpanBound: a key is used with one limit and one window, as every caller does.
- FixedWindow.SpanBound: admissions are counted by one real-time clock; an instance's clock may lag it only by the age of its stamp.
- The store call that timed out keeps running, and its effect on the store's counter is counted as an admission not delivered.
- Dedupe.NoStartWithinTtl: a value is never `undefined`, and a computation does not call the cache again before its first await; the shared layer, read before the local cache, can only answer sooner.
- Dedupe.StepKeepsRegistered: `SharedCache` removes an entry after its store write, `TtlCache` at once; the step `Release` stands for both.
- Confirmation.OutcomeIsSound: RPC replies are assumed truthful about confirmed transactions, and one read never shows less than the confirmed height implies.
- TradeLog.EveryRunIsSafe: a guard passed earlier in the run, not at the moment the wallet opens, because there are awaits in between; and nothing is said about which signature the attribution phase is about, because `checkLedger` may outlive a quote.
- TradeLog.OneSignaturePerBuild: counts signatures the ticket recorded. A transaction that was sent although its send reported an error leaves none, and the same build may then be signed again step by step; `AskedAgainOnlyAfterFailure` says that only such an error allows it.
- TradeTicket.ResumeFits: the three awaits between the mainnet check and the wallet change no state and are one; so are the requests of the verify loop, which `VerifyPolling` treats.
- TradeTicket.ClickKeepsInvariant: asking for a quote is allowed at any idle moment, which is more than its three buttons allow. Unmounting, the log, the toast, the step counter and the session reconciler are not modelled.
- BuyPanel.Panel.Drive: React keeps the state and hands handlers a copy, so the state is one record that each statement replaces a field of.
- ClaimRuns.EveryRunIsSafe: prompts are matched with `walletRef`; `PromptIsForRenderedIff` says when that is the rendered wallet. The ledger's several reads are one await, and the texts of messages and errors are shortened.
- EvidenceGuard.GuardBrief: the structure, advice and injection checks before it (lines 135 to 163) are string matching and are not modelled.
- RpcRelay.ParseRpcBody: the shape of a call and the configuration of a simulation are flags; statuses and messages of the errors are left out.
- StoredLists.RecentsAreMostRecent: every write is accepted; with a refused write the stored list stays as it was, as `PushRecent` says. Another tab's writes are not modelled.
- TapeSeries.DeriveTapeSeries: the sort is a stable insertion sort; only its result is used.
- Navigation.DesktopEntries: the labels of the menus are not modelled.
- `stepMarksFor`, the table of texts for each state, `deploymentMode`, `redactUpstream`, IP headers and the error tables: finite tables or string matching.
- `CreateMarketWorkspace.tsx`, `ForecastPanel.tsx`, rooms, arena and debate: their protocols are elsewhere.
