/** The per-instance limiter (src/lib/rate-limit.ts, lines 8-33): a map of windows that is
    purged, and if need be cleared, once it holds more than MAX_KEYS keys. */
module RateLimit {
  import opened Wrappers
  import opened FixedWindow

  const MAX_KEYS: nat := 5000

  type Windows = map<string, Window>

  function Slot(ws: Windows, key: string): Option<Window> {
    if key in ws then Some(ws[key]) else None
  }

  function Live(ws: Windows, now: int): (r: Windows)
    ensures forall k :: k in r <==> k in ws && ws[k].resetAt > now
    ensures forall k :: k in r ==> r[k] == ws[k]
    ensures |r| <= |ws|
  {
    var r := map k | k in ws && ws[k].resetAt > now :: ws[k];
    Fewer(r.Keys, ws.Keys);
    r
  }

  lemma Fewer<T>(small: set<T>, large: set<T>)
    requires small <= large
    ensures |small| <= |large|
  {
    assert large == small + (large - small);
  }

  /** The map after lines 19 to 22. */
  function Trimmed(ws: Windows, now: int): Windows {
    if |ws| <= MAX_KEYS then ws
    else if |Live(ws, now)| > MAX_KEYS then map[]
    else Live(ws, now)
  }

  /** Line 21 drops every counter. */
  predicate Clears(ws: Windows, now: int) {
    |ws| > MAX_KEYS && |Live(ws, now)| > MAX_KEYS
  }

  datatype Request = Request(key: string, limit: int, windowMs: int, stamp: int, at: int)

  function Handle(ws: Windows, r: Request): (Windows, Verdict) {
    var trimmed := Trimmed(ws, r.stamp);
    var (slot, verdict) := Hit(Slot(trimmed, r.key), r.limit, r.windowMs, r.stamp);
    (trimmed[r.key := slot.GetOr(Window(0, 0))], verdict)
  }

  /** The module-level map and its one operation. */
  class Limiter {
    var windows: Windows

    constructor ()
      ensures windows == map[]
    {
      windows := map[];
    }

    method RateLimit(key: string, limit: int, windowMs: int, now: int) returns (v: Verdict)
      modifies this
      ensures (windows, v) == Handle(old(windows), Request(key, limit, windowMs, now, now))
    {
      if |windows| > MAX_KEYS {
        PurgeExpired(now);
        if |windows| > MAX_KEYS {
          windows := map[];
        }
      }
      if key !in windows || windows[key].resetAt <= now {
        windows := windows[key := Window(1, now + windowMs)];
        return Admit(limit - 1);
      }
      var w := windows[key];
      if w.count >= limit {
        assert windows == windows[key := w];
        return Deny(SecondsUp(w.resetAt - now));
      }
      windows := windows[key := w.(count := w.count + 1)];
      return Admit(limit - (w.count + 1));
    }

    /** Line 20; the visiting order does not matter. */
    method PurgeExpired(now: int)
      modifies this
      ensures windows == Live(old(windows), now)
    {
      var todo := windows.Keys;
      while todo != {}
        invariant todo <= windows.Keys <= old(windows).Keys
        invariant forall k :: k in windows ==> windows[k] == old(windows)[k] && (k in todo || windows[k].resetAt > now)
        invariant forall k :: k in old(windows) && old(windows)[k].resetAt > now ==> k in windows
      {
        var k :| k in todo;
        if windows[k].resetAt <= now {
          windows := windows - {k};
        }
        todo := todo - {k};
      }
    }
  }

  /** The map after the requests, in order. */
  function AfterAll(ws: Windows, rs: seq<Request>): Windows
    decreases |rs|
  {
    if rs == [] then ws else AfterAll(Handle(ws, rs[0]).0, rs[1..])
  }

  /** The map never holds more than MAX_KEYS + 1 windows. */
  lemma {:induction false} SizeBound(ws: Windows, rs: seq<Request>)
    requires |ws| <= MAX_KEYS + 1
    ensures |AfterAll(ws, rs)| <= MAX_KEYS + 1
    decreases |rs|
  {
    if rs != [] {
      HandleSize(ws, rs[0]);
      SizeBound(Handle(ws, rs[0]).0, rs[1..]);
    }
  }

  lemma HandleSize(ws: Windows, r: Request)
    ensures |Handle(ws, r).0| <= MAX_KEYS + 1
  {
    var t := Trimmed(ws, r.stamp);
    assert |t| <= MAX_KEYS;
    assert Handle(ws, r).0.Keys == t.Keys + {r.key};
  }

  // The purge cannot be observed.

  /** A limiter that never deletes a window. */
  function KeepAll(ws: Windows, r: Request): (Windows, Verdict) {
    var (slot, verdict) := Hit(Slot(ws, r.key), r.limit, r.windowMs, r.stamp);
    (ws[r.key := slot.GetOr(Window(0, 0))], verdict)
  }

  /** The two limiters agree on every window that is live at `now`. */
  ghost predicate Agree(ws: Windows, all: Windows, now: int) {
    forall k :: LiveSlot(ws, k, now) == LiveSlot(all, k, now)
  }

  function LiveSlot(ws: Windows, key: string, now: int): Option<Window> {
    if key in ws && ws[key].resetAt > now then Some(ws[key]) else None
  }

  lemma AgreeLater(ws: Windows, all: Windows, now: int, later: int)
    requires Agree(ws, all, now) && now <= later
    ensures Agree(ws, all, later)
  {
    forall k ensures LiveSlot(ws, k, later) == LiveSlot(all, k, later) {
      assert LiveSlot(ws, k, now) == LiveSlot(all, k, now);
    }
  }

  lemma PurgeKeepsAgreement(ws: Windows, all: Windows, r: Request)
    requires Agree(ws, all, r.stamp) && !Clears(ws, r.stamp)
    ensures Handle(ws, r).1 == KeepAll(all, r).1
    ensures Agree(Handle(ws, r).0, KeepAll(all, r).0, r.stamp)
  {
    var t := Trimmed(ws, r.stamp);
    assert forall k :: LiveSlot(t, k, r.stamp) == LiveSlot(ws, k, r.stamp);
    assert LiveSlot(t, r.key, r.stamp) == LiveSlot(all, r.key, r.stamp);
    var next, nextAll := Handle(ws, r).0, KeepAll(all, r).0;
    forall k ensures LiveSlot(next, k, r.stamp) == LiveSlot(nextAll, k, r.stamp) {
      if k != r.key {
        assert LiveSlot(next, k, r.stamp) == LiveSlot(t, k, r.stamp);
      }
    }
  }

  function Verdicts(ws: Windows, rs: seq<Request>): seq<Verdict>
    decreases |rs|
  {
    if rs == [] then [] else var h := Handle(ws, rs[0]); [h.1] + Verdicts(h.0, rs[1..])
  }

  function VerdictsKeepingAll(ws: Windows, rs: seq<Request>): seq<Verdict>
    decreases |rs|
  {
    if rs == [] then [] else var h := KeepAll(ws, rs[0]); [h.1] + VerdictsKeepingAll(h.0, rs[1..])
  }

  /** Line 21 does not fire during the run. */
  predicate NeverClears(ws: Windows, rs: seq<Request>)
    decreases |rs|
  {
    rs == [] || (!Clears(ws, rs[0].stamp) && NeverClears(Handle(ws, rs[0]).0, rs[1..]))
  }

  ghost predicate StampsFrom(rs: seq<Request>, now: int) {
    rs == [] || (now <= rs[0].stamp && StampsFrom(rs[1..], rs[0].stamp))
  }

  /** Every run of requests with non-decreasing stamps gets the same answers from the limiter
      that purges as from one that never deletes. */
  lemma {:induction false} PurgeIsUnobservable(ws: Windows, all: Windows, rs: seq<Request>, now: int)
    requires Agree(ws, all, now) && StampsFrom(rs, now) && NeverClears(ws, rs)
    ensures Verdicts(ws, rs) == VerdictsKeepingAll(all, rs)
    decreases |rs|
  {
    if rs != [] {
      AgreeLater(ws, all, now, rs[0].stamp);
      PurgeKeepsAgreement(ws, all, rs[0]);
      PurgeIsUnobservable(Handle(ws, rs[0]).0, KeepAll(all, rs[0]).0, rs[1..], rs[0].stamp);
    }
  }

  // One key's requests, taken out of a run over all keys.

  /** The events of `key` in a run: a purge for each request that finds the map too large,
      and a call for each request for that key. */
  function Projection(ws: Windows, rs: seq<Request>, key: string): seq<Event>
    decreases |rs|
  {
    if rs == [] then []
    else
      var r := rs[0];
      var tail := Projection(Handle(ws, r).0, rs[1..], key);
      var called := if r.key == key then [Call(r.at, r.stamp)] + tail else tail;
      if |ws| > MAX_KEYS then [Purge(r.at, r.stamp)] + called else called
  }

  /** Requests for `key` let through at a time in [from, to). */
  function AdmittedForKey(ws: Windows, rs: seq<Request>, key: string, from: int, to: int): nat
    decreases |rs|
  {
    if rs == [] then 0
    else
      var h := Handle(ws, rs[0]);
      (if rs[0].key == key && from <= rs[0].at < to && h.1.Admit? then 1 else 0)
      + AdmittedForKey(h.0, rs[1..], key, from, to)
  }

  /** Every request for `key` in the run uses this limit and window. */
  predicate Uses(rs: seq<Request>, key: string, limit: int, windowMs: int) {
    rs == [] ||
    ((rs[0].key == key ==> rs[0].limit == limit && rs[0].windowMs == windowMs)
     && Uses(rs[1..], key, limit, windowMs))
  }

  ghost predicate Ordered(rs: seq<Request>, delay: nat) {
    rs == [] ||
    (&& rs[0].stamp <= rs[0].at <= rs[0].stamp + delay
     && (|rs| > 1 ==> rs[0].at <= rs[1].at)
     && Ordered(rs[1..], delay))
  }

  lemma {:induction false} ProjectionStarts(ws: Windows, rs: seq<Request>, key: string, delay: nat)
    requires Ordered(rs, delay)
    ensures Run(Projection(ws, rs, key), delay)
    ensures rs != [] && Projection(ws, rs, key) != [] ==> Projection(ws, rs, key)[0].at >= rs[0].at
    decreases |rs|
  {
    if rs != [] {
      var tail := Projection(Handle(ws, rs[0]).0, rs[1..], key);
      ProjectionStarts(Handle(ws, rs[0]).0, rs[1..], key, delay);
      var called := [Call(rs[0].at, rs[0].stamp)] + tail;
      assert called[1..] == tail;
      assert ([Purge(rs[0].at, rs[0].stamp)] + tail)[1..] == tail;
      assert ([Purge(rs[0].at, rs[0].stamp)] + called)[1..] == called;
    }
  }

  /** One request moves the window of `key` as its own events say. */
  lemma SlotStep(ws: Windows, r: Request, key: string)
    requires !Clears(ws, r.stamp)
    ensures var purged := if |ws| > MAX_KEYS then Step(Slot(ws, key), Purge(r.at, r.stamp), r.limit, r.windowMs)
                          else Slot(ws, key);
            var next := if r.key == key then Hit(purged, r.limit, r.windowMs, r.stamp) else (purged, Admit(0));
            Slot(Handle(ws, r).0, key) == next.0 && (r.key == key ==> Handle(ws, r).1 == next.1)
  {
  }

  lemma {:induction false} ProjectionCounts(ws: Windows, rs: seq<Request>, key: string, limit: int, windowMs: int,
                                            from: int, to: int)
    requires NeverClears(ws, rs) && Uses(rs, key, limit, windowMs)
    ensures AdmittedForKey(ws, rs, key, from, to)
         == AdmittedIn(Slot(ws, key), Projection(ws, rs, key), limit, windowMs, from, to)
    decreases |rs|
  {
    if rs != [] {
      var r, next := rs[0], Handle(ws, rs[0]).0;
      var tail := Projection(next, rs[1..], key);
      ProjectionCounts(next, rs[1..], key, limit, windowMs, from, to);
      SlotStep(ws, r, key);
      var call, purge := Call(r.at, r.stamp), Purge(r.at, r.stamp);
      var called := if r.key == key then [call] + tail else tail;
      var purged := if |ws| > MAX_KEYS then Step(Slot(ws, key), purge, limit, windowMs) else Slot(ws, key);
      Prepend(purged, call, tail, limit, windowMs, from, to);
      Prepend(Slot(ws, key), purge, called, limit, windowMs, from, to);
      hide Handle, Hit;
    }
  }

  /** The limiter lets a key through fewer than (k + 1) * limit times in any span no longer
      than `k` times (windowMs - delay), among any other requests, as long as it never
      has to drop all its counters. */
  lemma KeySpanBound(ws: Windows, rs: seq<Request>, key: string, delay: nat, limit: int, windowMs: int,
                     from: int, to: int, k: nat)
    requires Ordered(rs, delay) && NeverClears(ws, rs) && Uses(rs, key, limit, windowMs)
    requires limit >= 1 && Counted(Slot(ws, key), limit)
    requires windowMs > delay && to - from <= k * (windowMs - delay)
    ensures AdmittedForKey(ws, rs, key, from, to) <= (k + 1) * limit - 1
  {
    ProjectionStarts(ws, rs, key, delay);
    ProjectionCounts(ws, rs, key, limit, windowMs, from, to);
    SpanBound(Slot(ws, key), Projection(ws, rs, key), delay, limit, windowMs, from, to, k);
  }

  // Denials and advertised resets.

  /** A request for `key` was let through during the run. */
  predicate SomeAdmitted(ws: Windows, rs: seq<Request>, key: string)
    decreases |rs|
  {
    rs != [] &&
    var h := Handle(ws, rs[0]);
    (rs[0].key == key && h.1.Admit?) || SomeAdmitted(h.0, rs[1..], key)
  }

  /** Unless a request for the key is let through, its window stays or disappears. */
  lemma {:induction false} WindowStays(ws: Windows, rs: seq<Request>, key: string)
    requires !SomeAdmitted(ws, rs, key)
    ensures var last := Slot(AfterAll(ws, rs), key); last == None || last == Slot(ws, key)
    decreases |rs|
  {
    if rs != [] {
      WindowStays(Handle(ws, rs[0]).0, rs[1..], key);
    }
  }

  /** After a denial, a retry once the advertised seconds have passed is let through, unless
      another request for the key was let through in between. */
  lemma RetryIsAdmitted(ws: Windows, denied: Request, between: seq<Request>, retry: Request)
    requires Handle(ws, denied).1.Deny? && retry.key == denied.key
    requires retry.stamp >= denied.stamp + 1000 * Handle(ws, denied).1.retryAfterSec
    requires !SomeAdmitted(Handle(ws, denied).0, between, denied.key)
    ensures Handle(AfterAll(Handle(ws, denied).0, between), retry).1.Admit?
  {
    WindowStays(Handle(ws, denied).0, between, denied.key);
    var last := AfterAll(Handle(ws, denied).0, between);
    assert Slot(Trimmed(last, retry.stamp), retry.key) in {None, Slot(last, retry.key)};
  }

  /** `resetAt` of the answer that `limitShared` gives from memory. */
  function Advertised(r: Request, v: Verdict): int {
    match v
    case Admit(_) => r.stamp + r.windowMs
    case Deny(sec) => r.stamp + sec * 1000
  }

  predicate AdvertisedEarly(ws: Windows, r: Request) {
    var (next, v) := Handle(ws, r);
    Advertised(r, v) < next[r.key].resetAt
  }

  /** The advertised reset is before the real one exactly when the key has a window that is live
      and not full and that ends later than one opened by this request would. */
  lemma AdvertisedReset(ws: Windows, r: Request)
    ensures var slot := Slot(Trimmed(ws, r.stamp), r.key);
            AdvertisedEarly(ws, r)
            <==> slot.Some? && slot.value.resetAt > r.stamp + r.windowMs && slot.value.resetAt > r.stamp
                 && slot.value.count < r.limit
  {
  }

  /** That can happen: a request whose clock was read at 0 waits for the store until 5, when
      another has just opened a window. */
  lemma EarlyResetIsReachable()
    ensures var first, second := Request("k", 2, 100, 5, 5), Request("k", 2, 100, 0, 5);
            var ws := AfterAll(map[], [first]);
            && Ordered([first, second], 5)
            && Advertised(second, Handle(ws, second).1) == 100
            && Handle(ws, second).0["k"].resetAt == 105
  {
    var first, second := Request("k", 2, 100, 5, 5), Request("k", 2, 100, 0, 5);
    assert [first, second][1..] == [second] && [second][1..] == [];
    assert AfterAll(map[], [first]) == Handle(map[], first).0;
  }

  /** The request opens a window for its key. */
  predicate Opens(ws: Windows, r: Request) {
    var slot := Slot(Trimmed(ws, r.stamp), r.key);
    slot.None? || slot.value.resetAt <= r.stamp
  }

  /** The stamp of the last request of a run that opened a window for `key`; `before` if none did. */
  function LastOpening(ws: Windows, rs: seq<Request>, key: string, before: Option<int>): Option<int>
    decreases |rs|
  {
    if rs == [] then before
    else
      var starts := rs[0].key == key && Opens(ws, rs[0]);
      LastOpening(Handle(ws, rs[0]).0, rs[1..], key, if starts then Some(rs[0].stamp) else before)
  }

  /** A window ends `windowMs` after the stamp of the request that opened it. */
  predicate EndsAfter(slot: Option<Window>, opening: Option<int>, windowMs: int) {
    slot.Some? ==> opening.Some? && slot.value.resetAt == opening.value + windowMs
  }

  lemma {:induction false} WindowsEndAfterOpening(ws: Windows, rs: seq<Request>, key: string, limit: int, windowMs: int,
                                                  before: Option<int>)
    requires Uses(rs, key, limit, windowMs) && EndsAfter(Slot(ws, key), before, windowMs)
    ensures EndsAfter(Slot(AfterAll(ws, rs), key), LastOpening(ws, rs, key, before), windowMs)
    decreases |rs|
  {
    if rs != [] {
      var starts := rs[0].key == key && Opens(ws, rs[0]);
      var next := if starts then Some(rs[0].stamp) else before;
      assert EndsAfter(Slot(Handle(ws, rs[0]).0, key), next, windowMs);
      WindowsEndAfterOpening(Handle(ws, rs[0]).0, rs[1..], key, limit, windowMs, next);
    }
  }

  /** With fresh stamps no opening is later than the request that follows the run. */
  lemma {:induction false} OpeningsArePast(ws: Windows, rs: seq<Request>, r: Request, key: string, before: Option<int>)
    requires Ordered(rs + [r], 0) && (before.Some? ==> before.value <= (rs + [r])[0].at)
    ensures var last := LastOpening(ws, rs, key, before); last.Some? ==> last.value <= r.at
    decreases |rs|
  {
    if rs != [] {
      var starts := rs[0].key == key && Opens(ws, rs[0]);
      assert (rs + [r])[1..] == rs[1..] + [r];
      OpeningsArePast(Handle(ws, rs[0]).0, rs[1..], r, key, if starts then Some(rs[0].stamp) else before);
    }
  }

  /** Over every run: the reset advertised to the request that follows it is early exactly when
      its key's window, live and not full, was opened by a later stamp; with fresh stamps never. */
  lemma EarlyResetOverRuns(rs: seq<Request>, r: Request, delay: nat, limit: int, windowMs: int)
    requires Ordered(rs + [r], delay) && windowMs > 0
    requires Uses(rs, r.key, limit, windowMs) && r.limit == limit && r.windowMs == windowMs
    ensures var ws := AfterAll(map[], rs);
            var slot := Slot(Trimmed(ws, r.stamp), r.key);
            var opening := LastOpening(map[], rs, r.key, None);
            AdvertisedEarly(ws, r)
            <==> slot.Some? && slot.value.count < limit && opening.Some? && opening.value > r.stamp
    ensures delay == 0 ==> !AdvertisedEarly(AfterAll(map[], rs), r)
  {
    var ws := AfterAll(map[], rs);
    WindowsEndAfterOpening(map[], rs, r.key, limit, windowMs, None);
    AdvertisedReset(ws, r);
    assert Slot(Trimmed(ws, r.stamp), r.key) in {None, Slot(ws, r.key)};
    hide Handle, AdvertisedEarly, AfterAll, LastOpening, Trimmed;
    if delay == 0 {
      OpeningsArePast(map[], rs, r, r.key, None);
      LastIsOrdered(rs, r, delay);
    }
  }

  lemma {:induction false} LastIsOrdered(rs: seq<Request>, r: Request, delay: nat)
    requires Ordered(rs + [r], delay)
    ensures r.stamp <= r.at <= r.stamp + delay
  {
    if rs == [] {
      assert rs + [r] == [r];
    } else {
      assert (rs + [r])[1..] == rs[1..] + [r];
      LastIsOrdered(rs[1..], r, delay);
    }
  }
}
