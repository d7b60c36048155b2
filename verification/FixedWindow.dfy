/** One key of a fixed-window limiter, in an instance's memory (src/lib/rate-limit.ts) and
    in the shared store (WINDOW_SCRIPT of src/lib/shared-store.ts), and how many requests
    either of them lets through in a span of time.

    A request carries two times: `at`, when the counter is touched, and `stamp`, the
    clock value handed to the counter. `limitShared` reads the clock before it awaits the
    store, so on the fallback path the stamp is up to `delay` milliseconds old. */
module FixedWindow {
  import opened Wrappers

  datatype Window = Window(count: nat, resetAt: int)

  datatype Verdict = Admit(remaining: int) | Deny(retryAfterSec: nat)

  /** What `rateLimit` does with the window of its key. */
  function Hit(slot: Option<Window>, limit: int, windowMs: int, now: int): (Option<Window>, Verdict) {
    if slot.None? || slot.value.resetAt <= now then
      (Some(Window(1, now + windowMs)), Admit(limit - 1))
    else if slot.value.count >= limit then
      (slot, Deny(SecondsUp(slot.value.resetAt - now)))
    else
      (Some(slot.value.(count := slot.value.count + 1)), Admit(limit - (slot.value.count + 1)))
  }

  /** `Math.max(1, Math.ceil(ms / 1000))`. */
  function SecondsUp(ms: int): (s: nat)
    ensures s >= 1 && 1000 * s >= ms
    ensures forall other: nat :: other >= 1 && 1000 * other >= ms ==> s <= other
  {
    var up := (ms + 999) / 1000;
    if up < 1 then 1 else up
  }

  /** A request for the key, or a purge started by some request that found too many keys. */
  datatype Event = Call(at: int, stamp: int) | Purge(at: int, stamp: int)

  function Step(slot: Option<Window>, e: Event, limit: int, windowMs: int): Option<Window> {
    match e
    case Call(_, stamp) => Hit(slot, limit, windowMs, stamp).0
    case Purge(_, stamp) => if slot.Some? && slot.value.resetAt <= stamp then None else slot
  }

  predicate Admitted(slot: Option<Window>, e: Event, limit: int, windowMs: int) {
    e.Call? && Hit(slot, limit, windowMs, e.stamp).1.Admit?
  }

  /** Events in the order they reach the counter, with stamps at most `delay` old. */
  ghost predicate Run(events: seq<Event>, delay: nat) {
    events == [] ||
    (&& events[0].stamp <= events[0].at <= events[0].stamp + delay
     && (|events| > 1 ==> events[0].at <= events[1].at)
     && Run(events[1..], delay))
  }

  /** Requests let through at a real time in [from, to). */
  function AdmittedIn(slot: Option<Window>, events: seq<Event>, limit: int, windowMs: int, from: int, to: int): nat
    decreases |events|
  {
    if events == [] then 0
    else
      var e := events[0];
      (if from <= e.at < to && Admitted(slot, e, limit, windowMs) then 1 else 0)
      + AdmittedIn(Step(slot, e, limit, windowMs), events[1..], limit, windowMs, from, to)
  }

  lemma Prepend(slot: Option<Window>, e: Event, tail: seq<Event>, limit: int, windowMs: int, from: int, to: int)
    ensures AdmittedIn(slot, [e] + tail, limit, windowMs, from, to)
         == (if from <= e.at < to && Admitted(slot, e, limit, windowMs) then 1 else 0)
          + AdmittedIn(Step(slot, e, limit, windowMs), tail, limit, windowMs, from, to)
  {
    assert ([e] + tail)[1..] == tail;
  }

  /** A window's count never leaves 1..limit. */
  predicate Counted(slot: Option<Window>, limit: int) {
    slot.Some? ==> 1 <= slot.value.count <= limit
  }

  function Left(slot: Option<Window>, limit: int): (n: nat)
    requires Counted(slot, limit)
  {
    if slot.None? then 0 else limit - slot.value.count
  }

  /** No window can open before `g` in real time. */
  predicate OpensFrom(slot: Option<Window>, events: seq<Event>, g: int) {
    (slot.Some? && slot.value.resetAt >= g) || events == [] || events[0].at >= g
  }

  /** From a state in which no window opens before `g`, at most `k` more windows open
      before `to`, because openings are at least `windowMs - delay` apart. */
  lemma {:induction false} OpeningsBound(slot: Option<Window>, events: seq<Event>, delay: nat, limit: int,
                                         windowMs: int, from: int, to: int, g: int, k: nat)
    requires Run(events, delay) && limit >= 1 && windowMs > delay
    requires Counted(slot, limit) && OpensFrom(slot, events, g) && to - g <= k * (windowMs - delay)
    ensures AdmittedIn(slot, events, limit, windowMs, from, to) <= Left(slot, limit) + limit * k
    decreases |events|
  {
    if events != [] {
      var e, rest := events[0], events[1..];
      var next := Step(slot, e, limit, windowMs);
      if next == None || (slot.Some? && next.value.resetAt == slot.value.resetAt) {
        OpeningsBound(next, rest, delay, limit, windowMs, from, to, g, k);
      } else if e.at >= to {
        NothingAfter(next, rest, delay, limit, windowMs, from, to);
      } else {
        OneFewer(k, windowMs - delay, to - g);
        OpeningsBound(next, rest, delay, limit, windowMs, from, to, g + (windowMs - delay), k - 1);
        assert limit * k == limit * (k - 1) + limit;
      }
    }
  }

  lemma OneFewer(k: nat, gap: int, length: int)
    requires 0 < length <= k * gap && gap > 0
    ensures k >= 1 && length - gap <= (k - 1) * gap
  {
    assert k * gap == (k - 1) * gap + gap;
  }

  lemma {:induction false} NothingAfter(slot: Option<Window>, events: seq<Event>, delay: nat, limit: int,
                                        windowMs: int, from: int, to: int)
    requires Run(events, delay)
    requires events == [] || events[0].at >= to
    ensures AdmittedIn(slot, events, limit, windowMs, from, to) == 0
    decreases |events|
  {
    if events != [] {
      NothingAfter(Step(slot, events[0], limit, windowMs), events[1..], delay, limit, windowMs, from, to);
    }
  }

  /** In any span no longer than `k` times (windowMs - delay) a key is let through fewer than
      (k + 1) * limit times, whatever purges happen in between. */
  lemma {:induction false} SpanBound(slot: Option<Window>, events: seq<Event>, delay: nat, limit: int,
                                     windowMs: int, from: int, to: int, k: nat)
    requires Run(events, delay) && limit >= 1 && windowMs > delay && Counted(slot, limit)
    requires to - from <= k * (windowMs - delay)
    ensures AdmittedIn(slot, events, limit, windowMs, from, to) <= (k + 1) * limit - 1
    decreases |events|
  {
    if events == [] || events[0].at >= from {
      OpeningsBound(slot, events, delay, limit, windowMs, from, to, from, k);
    } else {
      SpanBound(Step(slot, events[0], limit, windowMs), events[1..], delay, limit, windowMs, from, to, k);
    }
    assert (k + 1) * limit == k * limit + limit;
  }

  // The most that one window length can let through.

  /** The least number of gaps of `windowMs - delay` that cover a window length. */
  function Openings(delay: nat, windowMs: int): (k: nat)
    requires windowMs > delay
    ensures k >= 1 && (k - 1) * (windowMs - delay) < windowMs <= k * (windowMs - delay)
  {
    var gap := windowMs - delay;
    var k := (windowMs + gap - 1) / gap;
    assert gap * k <= windowMs + gap - 1 < gap * (k + 1);
    k
  }

  /** What `SpanBound` allows in one window length. */
  function MostAdmitted(delay: nat, limit: int, windowMs: int): int
    requires windowMs > delay
  {
    (Openings(delay, windowMs) + 1) * limit - 1
  }

  /** Every purge is started by a request with a fresh stamp. */
  ghost predicate FreshPurges(events: seq<Event>) {
    events == [] || ((events[0].Purge? ==> events[0].stamp == events[0].at) && FreshPurges(events[1..]))
  }

  predicate NoPurges(events: seq<Event>) {
    events == [] || (events[0].Call? && NoPurges(events[1..]))
  }

  function Burst(e: Event, n: nat): seq<Event> {
    if n == 0 then [] else [e] + Burst(e, n - 1)
  }

  lemma BurstSplits(e: Event, n: nat, tail: seq<Event>)
    ensures Burst(e, n) + tail == if n == 0 then tail else [e] + (Burst(e, n - 1) + tail)
  {
  }

  /** Calls at one moment are let through while the live window has room. */
  lemma {:induction false} BurstFills(w: Window, e: Event, n: nat, tail: seq<Event>, limit: int, windowMs: int,
                                      from: int, to: int)
    requires e.Call? && w.resetAt > e.stamp && w.count + n <= limit && from <= e.at < to
    ensures AdmittedIn(Some(w), Burst(e, n) + tail, limit, windowMs, from, to)
         == n + AdmittedIn(Some(Window(w.count + n, w.resetAt)), tail, limit, windowMs, from, to)
    decreases n
  {
    hide AdmittedIn, Burst;
    BurstSplits(e, n, tail);
    if n > 0 {
      Prepend(Some(w), e, Burst(e, n - 1) + tail, limit, windowMs, from, to);
      BurstFills(Window(w.count + 1, w.resetAt), e, n - 1, tail, limit, windowMs, from, to);
    }
  }

  /** The first of them may open the window. */
  lemma BurstOpens(slot: Option<Window>, e: Event, n: nat, tail: seq<Event>, limit: int, windowMs: int,
                   from: int, to: int)
    requires slot.Some? ==> slot.value.resetAt <= e.stamp
    requires e.Call? && 1 <= n <= limit && windowMs > 0 && from <= e.at < to
    ensures AdmittedIn(slot, Burst(e, n) + tail, limit, windowMs, from, to)
         == n + AdmittedIn(Some(Window(n, e.stamp + windowMs)), tail, limit, windowMs, from, to)
  {
    hide AdmittedIn, Burst;
    BurstSplits(e, n, tail);
    Prepend(slot, e, Burst(e, n - 1) + tail, limit, windowMs, from, to);
    BurstFills(Window(1, e.stamp + windowMs), e, n - 1, tail, limit, windowMs, from, to);
  }

  lemma {:induction false} BurstRuns(e: Event, n: nat, tail: seq<Event>, delay: nat)
    requires e.Call? && e.stamp <= e.at <= e.stamp + delay
    requires Run(tail, delay) && FreshPurges(tail) && (tail != [] ==> e.at <= tail[0].at)
    ensures var all := Burst(e, n) + tail;
            && Run(all, delay) && FreshPurges(all) && (NoPurges(tail) ==> NoPurges(all))
            && (all != [] ==> all[0].at >= e.at)
  {
    if n == 0 {
      assert Burst(e, n) + tail == tail;
    } else {
      BurstRuns(e, n - 1, tail, delay);
      assert (Burst(e, n) + tail)[1..] == Burst(e, n - 1) + tail;
    }
  }

  /** A purge that finds the window over, and then `n` late calls at the same moment. */
  function Wave(t: int, delay: nat, n: nat): seq<Event> {
    [Purge(t, t)] + Burst(Call(t, t - delay), n)
  }

  lemma WaveAdmits(slot: Option<Window>, t: int, delay: nat, limit: int, windowMs: int, tail: seq<Event>,
                   from: int, to: int)
    requires slot.Some? ==> slot.value.resetAt <= t
    requires limit >= 1 && windowMs > 0 && from <= t < to
    ensures AdmittedIn(slot, Wave(t, delay, limit) + tail, limit, windowMs, from, to)
         == limit + AdmittedIn(Some(Window(limit, t - delay + windowMs)), tail, limit, windowMs, from, to)
  {
    var calls := Burst(Call(t, t - delay), limit) + tail;
    assert Wave(t, delay, limit) + tail == [Purge(t, t)] + calls;
    hide AdmittedIn, Burst, Wave;
    Prepend(slot, Purge(t, t), calls, limit, windowMs, from, to);
    BurstOpens(None, Call(t, t - delay), limit, tail, limit, windowMs, from, to);
  }

  lemma WaveRuns(t: int, delay: nat, n: nat, tail: seq<Event>)
    requires Run(tail, delay) && FreshPurges(tail) && (tail != [] ==> t <= tail[0].at)
    ensures var all := Wave(t, delay, n) + tail; Run(all, delay) && FreshPurges(all) && all[0].at == t
  {
    assert (Wave(t, delay, n) + tail)[1..] == Burst(Call(t, t - delay), n) + tail;
    BurstRuns(Call(t, t - delay), n, tail, delay);
  }

  /** The least distance at which one wave may follow another. */
  function WaveGap(delay: nat, windowMs: int): nat {
    if windowMs > delay then windowMs - delay else 0
  }

  /** `k` waves from `t` on, each as soon as the window of the one before is over. */
  function Waves(t: int, k: nat, delay: nat, limit: nat, windowMs: int): seq<Event>
    decreases k
  {
    if k == 0 then []
    else Wave(t, delay, limit) + Waves(t + WaveGap(delay, windowMs), k - 1, delay, limit, windowMs)
  }

  lemma {:induction false} WavesRun(t: int, k: nat, delay: nat, limit: nat, windowMs: int)
    ensures var all := Waves(t, k, delay, limit, windowMs);
            Run(all, delay) && FreshPurges(all) && (all != [] ==> all[0].at == t)
    decreases k
  {
    if k > 0 {
      var later := t + WaveGap(delay, windowMs);
      WavesRun(later, k - 1, delay, limit, windowMs);
      WaveRuns(t, delay, limit, Waves(later, k - 1, delay, limit, windowMs));
    }
  }

  lemma {:induction false} WavesAdmit(slot: Option<Window>, t: int, k: nat, delay: nat, limit: int, windowMs: int,
                                      from: int, to: int)
    requires slot.Some? ==> slot.value.resetAt <= t
    requires limit >= 1 && windowMs > 0 && from <= t && (k > 0 ==> t + (k - 1) * WaveGap(delay, windowMs) < to)
    ensures AdmittedIn(slot, Waves(t, k, delay, limit, windowMs), limit, windowMs, from, to) == k * limit
    decreases k
  {
    var gap := WaveGap(delay, windowMs);
    if k > 0 {
      assert (k - 1) * gap >= 0;
      assert k > 1 ==> (k - 1) * gap == (k - 2) * gap + gap;
      assert k * limit == (k - 1) * limit + limit;
      WaveAdmits(slot, t, delay, limit, windowMs, Waves(t + gap, k - 1, delay, limit, windowMs), from, to);
      hide AdmittedIn, Wave;
      WavesAdmit(Some(Window(limit, t - delay + windowMs)), t + gap, k - 1, delay, limit, windowMs, from, to);
    } else {
      NoEvents(slot, limit, windowMs, from, to);
    }
  }

  lemma NoEvents(slot: Option<Window>, limit: int, windowMs: int, from: int, to: int)
    ensures AdmittedIn(slot, [], limit, windowMs, from, to) == 0
  {
  }

  /** When the crowd of `Crowd` comes. */
  function CrowdStart(delay: nat, windowMs: int): int {
    if windowMs > delay then windowMs else delay
  }

  /** A window is opened at 0 and filled only by late stamps, when it is over; then come `k` waves. */
  function Crowd(k: nat, delay: nat, limit: int, windowMs: int): seq<Event>
    requires limit >= 1
  {
    var t := CrowdStart(delay, windowMs);
    [Call(0, 0)] + (Burst(Call(t, t - delay), limit - 1) + Waves(t, k, delay, limit, windowMs))
  }

  lemma CrowdRuns(k: nat, delay: nat, limit: int, windowMs: int)
    requires limit >= 1 && windowMs > 0
    ensures var all := Crowd(k, delay, limit, windowMs); Run(all, delay) && FreshPurges(all) && all[0].at == 0
  {
    var t := CrowdStart(delay, windowMs);
    var waves := Waves(t, k, delay, limit, windowMs);
    var late := Burst(Call(t, t - delay), limit - 1) + waves;
    WavesRun(t, k, delay, limit, windowMs);
    BurstRuns(Call(t, t - delay), limit - 1, waves, delay);
    hide Burst, Waves;
    assert Crowd(k, delay, limit, windowMs)[1..] == late;
  }

  /** It lets (k + 1) * limit - 1 requests through in one window length, if that has room for the
      waves: the bound of `SpanBound` is met, for every delay, limit and window length. */
  lemma CrowdAdmits(k: nat, delay: nat, limit: int, windowMs: int)
    requires limit >= 1 && windowMs > 0 && delay >= 1 && k >= 1 && (k - 1) * WaveGap(delay, windowMs) < windowMs
    ensures var from := CrowdStart(delay, windowMs);
            AdmittedIn(None, Crowd(k, delay, limit, windowMs), limit, windowMs, from, from + windowMs)
            == (k + 1) * limit - 1
  {
    var t := CrowdStart(delay, windowMs);
    var to := t + windowMs;
    var waves := Waves(t, k, delay, limit, windowMs);
    var late := Call(t, t - delay);
    WavesAdmit(Some(Window(limit, windowMs)), t, k, delay, limit, windowMs, t, to);
    hide AdmittedIn, Burst, Waves, WaveGap;
    Prepend(None, Call(0, 0), Burst(late, limit - 1) + waves, limit, windowMs, t, to);
    BurstFills(Window(1, windowMs), late, limit - 1, waves, limit, windowMs, t, to);
    assert (k + 1) * limit == k * limit + limit;
  }

  /** Late stamps alone, without any purge: the old window, the one after it and the next one. */
  function LateCalls(limit: int, windowMs: int): seq<Event>
    requires limit >= 1
  {
    var w := windowMs;
    [Call(0, 0)] + (Burst(Call(w + 1, w - 1), limit - 1)
                    + (Burst(Call(w + 1, w), limit) + (Burst(Call(2 * w, 2 * w), limit) + [])))
  }

  lemma LateCallsRun(limit: int, windowMs: int, delay: nat)
    requires limit >= 1 && windowMs > 0 && delay >= 2
    ensures var all := LateCalls(limit, windowMs);
            Run(all, delay) && FreshPurges(all) && NoPurges(all) && all[0].at == 0
  {
    var w := windowMs;
    var third := Burst(Call(2 * w, 2 * w), limit) + [];
    var second := Burst(Call(w + 1, w), limit) + third;
    var first := Burst(Call(w + 1, w - 1), limit - 1) + second;
    BurstRuns(Call(2 * w, 2 * w), limit, [], delay);
    BurstRuns(Call(w + 1, w), limit, third, delay);
    BurstRuns(Call(w + 1, w - 1), limit - 1, second, delay);
    hide Burst;
    assert LateCalls(limit, windowMs)[1..] == first;
  }

  /** With stamps two milliseconds late they exceed twice the limit, for every limit above 1. */
  lemma LateCallsAdmit(limit: int, windowMs: int)
    requires limit >= 1 && windowMs > 0
    ensures AdmittedIn(None, LateCalls(limit, windowMs), limit, windowMs, windowMs + 1, 2 * windowMs + 1)
         == 3 * limit - 1
  {
    var w, from, to := windowMs, windowMs + 1, 2 * windowMs + 1;
    var third := Burst(Call(2 * w, 2 * w), limit) + [];
    var second := Burst(Call(w + 1, w), limit) + third;
    var first := Burst(Call(w + 1, w - 1), limit - 1) + second;
    hide AdmittedIn, Burst;
    Prepend(None, Call(0, 0), first, limit, w, from, to);
    BurstFills(Window(1, w), Call(w + 1, w - 1), limit - 1, second, limit, w, from, to);
    BurstOpens(Some(Window(limit, w)), Call(w + 1, w), limit, third, limit, w, from, to);
    BurstOpens(Some(Window(limit, 2 * w)), Call(2 * w, 2 * w), limit, [], limit, w, from, to);
    NoEvents(Some(Window(limit, 3 * w)), limit, w, from, to);
  }

  // The shared store.

  /** A counter key of the store; `expireAt` is missing while the key has no expiry. */
  datatype StoreKey = Absent | Key(count: nat, expireAt: Option<int>)

  /** One atomic run of WINDOW_SCRIPT at store time `now`: the new key, the count and the
      milliseconds left. */
  function Script(key: StoreKey, windowMs: nat, now: int): (StoreKey, nat, nat) {
    var live := key.Key? && (key.expireAt.None? || key.expireAt.value > now);
    var c := if live then key.count + 1 else 1;
    var expiry := if c == 1 then Some(now + windowMs) else if live then key.expireAt else None;
    if expiry.None? || expiry.value < now then (Key(c, Some(now + windowMs)), c, windowMs)
    else (Key(c, expiry), c, expiry.value - now)
  }

  /** A script run; `delivered` tells whether the caller got the reply in time. */
  datatype StoreCall = StoreCall(at: int, delivered: bool)

  ghost predicate StoreRun(calls: seq<StoreCall>) {
    calls == [] || ((|calls| > 1 ==> calls[0].at <= calls[1].at) && StoreRun(calls[1..]))
  }

  function StoreAdmittedIn(key: StoreKey, calls: seq<StoreCall>, limit: int, windowMs: nat, from: int, to: int): nat
    decreases |calls|
  {
    if calls == [] then 0
    else
      var c := calls[0];
      var r := Script(key, windowMs, c.at);
      (if from <= c.at < to && c.delivered && r.1 <= limit then 1 else 0)
      + StoreAdmittedIn(r.0, calls[1..], limit, windowMs, from, to)
  }

  function StoreLeft(key: StoreKey, limit: int): nat {
    if key.Key? && key.count <= limit then limit - key.count else 0
  }

  predicate StoreOpensFrom(key: StoreKey, calls: seq<StoreCall>, g: int) {
    || calls == [] || calls[0].at >= g
    || (key.Key? && key.expireAt.Some? && key.expireAt.value >= g)
  }

  lemma {:induction false} StoreOpeningsBound(key: StoreKey, calls: seq<StoreCall>, limit: int, windowMs: nat,
                                              from: int, to: int, g: int, k: nat)
    requires StoreRun(calls) && limit >= 1 && windowMs > 0 && StoreOpensFrom(key, calls, g)
    requires key.Key? ==> key.count >= 1
    requires to - g <= k * windowMs
    ensures StoreAdmittedIn(key, calls, limit, windowMs, from, to) <= StoreLeft(key, limit) + limit * k
    decreases |calls|
  {
    if calls != [] {
      var c, rest := calls[0], calls[1..];
      var next := Script(key, windowMs, c.at).0;
      if key.Key? && (key.expireAt.None? || key.expireAt.value > c.at) {
        StoreOpeningsBound(next, rest, limit, windowMs, from, to, g, k);
      } else if c.at >= to {
        StoreNothingAfter(next, rest, limit, windowMs, from, to);
      } else {
        OneFewer(k, windowMs, to - g);
        StoreOpeningsBound(next, rest, limit, windowMs, from, to, g + windowMs, k - 1);
        assert limit * k == limit * (k - 1) + limit;
      }
    }
  }

  lemma {:induction false} StoreNothingAfter(key: StoreKey, calls: seq<StoreCall>, limit: int, windowMs: nat,
                                             from: int, to: int)
    requires StoreRun(calls) && (calls == [] || calls[0].at >= to)
    ensures StoreAdmittedIn(key, calls, limit, windowMs, from, to) == 0
    decreases |calls|
  {
    if calls != [] {
      StoreNothingAfter(Script(key, windowMs, calls[0].at).0, calls[1..], limit, windowMs, from, to);
    }
  }

  /** The store lets a key through fewer than (k + 1) * limit times in any span of `k`
      windows, from any starting key and however many replies are lost. */
  lemma {:induction false} StoreSpanBound(key: StoreKey, calls: seq<StoreCall>, limit: int, windowMs: nat,
                                          from: int, to: int, k: nat)
    requires StoreRun(calls) && limit >= 1 && windowMs > 0 && (key.Key? ==> key.count >= 1)
    requires to - from <= k * windowMs
    ensures StoreAdmittedIn(key, calls, limit, windowMs, from, to) <= (k + 1) * limit - 1
    decreases |calls|
  {
    if calls == [] || calls[0].at >= from {
      StoreOpeningsBound(key, calls, limit, windowMs, from, to, from, k);
    } else {
      StoreSpanBound(Script(key, windowMs, calls[0].at).0, calls[1..], limit, windowMs, from, to, k);
    }
    assert (k + 1) * limit == k * limit + limit;
  }

  /** The key after some runs of the script. */
  function AfterCalls(key: StoreKey, calls: seq<StoreCall>, windowMs: nat): StoreKey
    decreases |calls|
  {
    if calls == [] then key else AfterCalls(Script(key, windowMs, calls[0].at).0, calls[1..], windowMs)
  }

  /** Calls before a counter's end leave the end where it is. */
  lemma {:induction false} EndStays(key: StoreKey, calls: seq<StoreCall>, windowMs: nat, end: int)
    requires key.Key? && key.count >= 1 && key.expireAt == Some(end) && forall c :: c in calls ==> c.at < end
    ensures var last := AfterCalls(key, calls, windowMs); last.Key? && last.count >= 1 && last.expireAt == Some(end)
    decreases |calls|
  {
    if calls != [] {
      assert calls[0] in calls;
      EndStays(Script(key, windowMs, calls[0].at).0, calls[1..], windowMs, end);
    }
  }

  /** After a denial at time `at`, a call once the advertised seconds have passed opens a new
      window and is let through, unless another call of the key came first after the window's
      end: calls before its end, however many, do not matter. */
  lemma StoreRetryIsAdmitted(key: StoreKey, windowMs: nat, limit: int, at: int, between: seq<StoreCall>, retryAt: int)
    requires limit >= 1 && Script(key, windowMs, at).1 > limit
    requires retryAt >= at + 1000 * SecondsUp(Script(key, windowMs, at).2)
    requires forall c :: c in between ==> c.at < at + Script(key, windowMs, at).2
    ensures Script(AfterCalls(Script(key, windowMs, at).0, between, windowMs), windowMs, retryAt).1 == 1 <= limit
  {
    var (next, count, ttlMs) := Script(key, windowMs, at);
    assert next.Key? && next.expireAt == Some(at + ttlMs);
    EndStays(next, between, windowMs, at + ttlMs);
  }
}
