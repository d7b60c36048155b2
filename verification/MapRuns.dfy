/** Runs of requests on the limiter's map (src/lib/rate-limit.ts, lines 8-33) that make one key's
    counter go through any given events, purges included, and what they show of the limiter.

    A purge needs more than MAX_KEYS keys and must not clear the map. Long-lived windows of other
    keys fill it up to one less; then the key's own window and a spare one that is just over make
    a purge that drops exactly the windows that have ended. */
module MapRuns {
  import opened Wrappers
  import opened FixedWindow
  import opened RateLimit

  const FILL: nat := MAX_KEYS - 1

  /** Names that are longer than `key`, each of its own length. */
  function Name(key: string, i: nat): (name: string)
    ensures |name| == |key| + 1 + i
  {
    key + seq(i + 1, _ => '-')
  }

  /** The key whose window is over when the purge comes. */
  function Spare(key: string): string {
    Name(key, MAX_KEYS)
  }

  /** `n` other keys with windows that end at `reset`. */
  function Filled(key: string, n: nat, reset: int): (ws: Windows)
    ensures |ws| == n
    ensures forall k :: k in ws ==> |key| < |k| <= |key| + n && ws[k] == Window(1, reset)
    ensures n > 0 ==> Name(key, 0) in ws
  {
    if n == 0 then map[]
    else
      var ws := Filled(key, n - 1, reset);
      assert Name(key, n - 1) !in ws;
      var all := ws[Name(key, n - 1) := Window(1, reset)];
      assert all.Keys == ws.Keys + {Name(key, n - 1)};
      all
  }

  function FillRun(key: string, i: nat, n: nat, at: int, reset: int): seq<Request>
    decreases n - i
  {
    if i >= n then [] else [Request(Name(key, i), 1, reset - at, at, at)] + FillRun(key, i + 1, n, at, reset)
  }

  /** What a run is worth for the statements about it. */
  ghost predicate Fits(ws: Windows, rs: seq<Request>, key: string, delay: nat, limit: int, windowMs: int) {
    Ordered(rs, delay) && NeverClears(ws, rs) && Uses(rs, key, limit, windowMs)
  }

  /** One request that is let be by the purge and is not for the key. */
  lemma OtherLeads(ws: Windows, r: Request, next: Windows, rest: seq<Request>, key: string, delay: nat,
                   limit: int, windowMs: int, from: int, to: int)
    requires Handle(ws, r).0 == next && !Clears(ws, r.stamp) && r.key != key
    requires r.stamp <= r.at <= r.stamp + delay && (rest != [] ==> r.at <= rest[0].at)
    requires Fits(next, rest, key, delay, limit, windowMs)
    ensures Fits(ws, [r] + rest, key, delay, limit, windowMs)
    ensures AdmittedForKey(ws, [r] + rest, key, from, to) == AdmittedForKey(next, rest, key, from, to)
  {
    hide Handle, Clears;
    assert ([r] + rest)[1..] == rest;
  }

  lemma FillStep(key: string, i: nat, at: int, reset: int)
    requires i < MAX_KEYS && reset > at
    ensures var r := Request(Name(key, i), 1, reset - at, at, at);
            Handle(Filled(key, i, reset), r).0 == Filled(key, i + 1, reset) && !Clears(Filled(key, i, reset), at)
  {
  }

  /** The other keys come first, and then any run that starts no earlier. */
  lemma {:induction false} FillLeads(key: string, i: nat, n: nat, at: int, reset: int, rest: seq<Request>, delay: nat,
                                     limit: int, windowMs: int, from: int, to: int)
    requires i <= n < MAX_KEYS && reset > at && (rest != [] ==> at <= rest[0].at)
    requires Fits(Filled(key, n, reset), rest, key, delay, limit, windowMs)
    ensures var rs := FillRun(key, i, n, at, reset) + rest;
            && Fits(Filled(key, i, reset), rs, key, delay, limit, windowMs)
            && AdmittedForKey(Filled(key, i, reset), rs, key, from, to)
               == AdmittedForKey(Filled(key, n, reset), rest, key, from, to)
            && (rs != [] ==> at <= rs[0].at)
    decreases n - i
  {
    hide Handle, Clears, Filled, Fits, AdmittedForKey, FillRun, Name;
    FillSplits(key, i, n, at, reset, rest);
    if i < n {
      var r := Request(Name(key, i), 1, reset - at, at, at);
      var later := FillRun(key, i + 1, n, at, reset) + rest;
      FillLeads(key, i + 1, n, at, reset, rest, delay, limit, windowMs, from, to);
      FillStep(key, i, at, reset);
      assert |r.key| != |key|;
      OtherLeads(Filled(key, i, reset), r, Filled(key, i + 1, reset), later, key, delay, limit, windowMs, from, to);
    }
  }

  lemma FillSplits(key: string, i: nat, n: nat, at: int, reset: int, rest: seq<Request>)
    ensures FillRun(key, i, n, at, reset) + rest
         == if i >= n then rest
            else [Request(Name(key, i), 1, reset - at, at, at)] + (FillRun(key, i + 1, n, at, reset) + rest)
  {
  }

  /** The other keys and the key's own window. */
  function Held(key: string, n: nat, reset: int, slot: Option<Window>): Windows {
    if slot.None? then Filled(key, n, reset) else Filled(key, n, reset)[key := slot.value]
  }

  lemma HeldSize(key: string, n: nat, reset: int, slot: Option<Window>)
    ensures |Held(key, n, reset, slot)| == n + (if slot.Some? then 1 else 0)
    ensures Slot(Held(key, n, reset, slot), key) == slot
    ensures n <= MAX_KEYS ==> Spare(key) !in Held(key, n, reset, slot)
  {
    var ws := Filled(key, n, reset);
    assert key !in ws;
    if slot.Some? {
      assert Held(key, n, reset, slot).Keys == ws.Keys + {key};
    }
  }

  /** The two requests that purge at time `t`: a window that is just over, and any other key. */
  function PurgeRun(key: string, t: int): seq<Request> {
    [Request(Spare(key), 1, 1, t - 1, t), Request(Name(key, 0), 1, 1, t, t)]
  }

  lemma SpareIsAdded(key: string, reset: int, w: Window, t: int)
    ensures var ws := Held(key, FILL, reset, Some(w));
            var r := Request(Spare(key), 1, 1, t - 1, t);
            && Handle(ws, r).0 == ws[Spare(key) := Window(1, t)] && !Clears(ws, t - 1)
            && |ws[Spare(key) := Window(1, t)]| == MAX_KEYS + 1
  {
    var ws := Held(key, FILL, reset, Some(w));
    HeldSize(key, FILL, reset, Some(w));
    assert ws[Spare(key) := Window(1, t)].Keys == ws.Keys + {Spare(key)};
  }

  /** The windows that a purge at time `t` leaves of them. */
  lemma PurgeLeaves(key: string, reset: int, w: Window, t: int)
    requires t < reset
    ensures var left := if w.resetAt <= t then None else Some(w);
            Live(Held(key, FILL, reset, Some(w))[Spare(key) := Window(1, t)], t) == Held(key, FILL, reset, left)
  {
    var left := if w.resetAt <= t then None else Some(w);
    var ws := Held(key, FILL, reset, Some(w))[Spare(key) := Window(1, t)];
    HeldSize(key, FILL, reset, Some(w));
    assert Live(ws, t).Keys == Held(key, FILL, reset, left).Keys;
  }

  lemma PurgeHappens(key: string, reset: int, w: Window, t: int)
    requires t < reset
    ensures var left := if w.resetAt <= t then None else Some(w);
            var ws := Held(key, FILL, reset, Some(w))[Spare(key) := Window(1, t)];
            Handle(ws, Request(Name(key, 0), 1, 1, t, t)).0 == Held(key, FILL, reset, left) && !Clears(ws, t)
  {
    var left := if w.resetAt <= t then None else Some(w);
    var ws := Held(key, FILL, reset, Some(w))[Spare(key) := Window(1, t)];
    var after := Held(key, FILL, reset, left);
    SpareIsAdded(key, reset, w, t);
    PurgeLeaves(key, reset, w, t);
    HeldSize(key, FILL, reset, left);
    assert Name(key, 0) in Filled(key, FILL, reset) && after[Name(key, 0)] == Window(1, reset);
    hide Held, Live, Filled;
    assert Trimmed(ws, t) == after;
    assert after[Name(key, 0) := Window(1, reset)] == after;
  }

  lemma PurgeLeads(key: string, reset: int, w: Window, t: int, rest: seq<Request>, delay: nat,
                   limit: int, windowMs: int, from: int, to: int)
    requires t < reset && delay >= 1 && (rest != [] ==> t <= rest[0].at)
    requires Fits(Held(key, FILL, reset, if w.resetAt <= t then None else Some(w)), rest, key, delay, limit, windowMs)
    ensures var ws := Held(key, FILL, reset, Some(w));
            && Fits(ws, PurgeRun(key, t) + rest, key, delay, limit, windowMs)
            && AdmittedForKey(ws, PurgeRun(key, t) + rest, key, from, to)
               == AdmittedForKey(Held(key, FILL, reset, if w.resetAt <= t then None else Some(w)), rest, key, from, to)
  {
    var ws := Held(key, FILL, reset, Some(w));
    var left := Held(key, FILL, reset, if w.resetAt <= t then None else Some(w));
    var mid := ws[Spare(key) := Window(1, t)];
    var spare, other := PurgeRun(key, t)[0], PurgeRun(key, t)[1];
    SpareIsAdded(key, reset, w, t);
    PurgeHappens(key, reset, w, t);
    hide Handle, Clears, Held, Fits, AdmittedForKey;
    OtherLeads(mid, other, left, rest, key, delay, limit, windowMs, from, to);
    OtherLeads(ws, spare, mid, [other] + rest, key, delay, limit, windowMs, from, to);
    assert PurgeRun(key, t) + rest == [spare] + ([other] + rest);
  }

  lemma CallHappens(key: string, n: nat, reset: int, slot: Option<Window>, e: Event, limit: int, windowMs: int)
    requires n < MAX_KEYS && e.Call?
    ensures var ws := Held(key, n, reset, slot);
            var r := Request(key, limit, windowMs, e.stamp, e.at);
            && Handle(ws, r).0 == Held(key, n, reset, Step(slot, e, limit, windowMs)) && !Clears(ws, e.stamp)
            && (Handle(ws, r).1.Admit? <==> Admitted(slot, e, limit, windowMs))
  {
    HeldSize(key, n, reset, slot);
  }

  lemma CallLeads(key: string, n: nat, reset: int, slot: Option<Window>, e: Event, rest: seq<Request>, delay: nat,
                  limit: int, windowMs: int, from: int, to: int)
    requires n < MAX_KEYS && e.Call? && e.stamp <= e.at <= e.stamp + delay && (rest != [] ==> e.at <= rest[0].at)
    requires Fits(Held(key, n, reset, Step(slot, e, limit, windowMs)), rest, key, delay, limit, windowMs)
    ensures var ws := Held(key, n, reset, slot);
            var rs := [Request(key, limit, windowMs, e.stamp, e.at)] + rest;
            && Fits(ws, rs, key, delay, limit, windowMs)
            && AdmittedForKey(ws, rs, key, from, to)
               == (if from <= e.at < to && Admitted(slot, e, limit, windowMs) then 1 else 0)
                + AdmittedForKey(Held(key, n, reset, Step(slot, e, limit, windowMs)), rest, key, from, to)
  {
    CallHappens(key, n, reset, slot, e, limit, windowMs);
    hide Handle, Clears, Held, Step, Admitted;
    assert ([Request(key, limit, windowMs, e.stamp, e.at)] + rest)[1..] == rest;
  }

  /** Requests that take the key's counter through the events; a purge that finds no window needs none. */
  function Realised(key: string, slot: Option<Window>, events: seq<Event>, limit: int, windowMs: int): seq<Request>
    decreases |events|
  {
    if events == [] then []
    else
      var e := events[0];
      var rest := Realised(key, Step(slot, e, limit, windowMs), events[1..], limit, windowMs);
      if e.Call? then [Request(key, limit, windowMs, e.stamp, e.at)] + rest
      else if slot.None? then rest
      else PurgeRun(key, e.at) + rest
  }

  ghost predicate Before(events: seq<Event>, reset: int) {
    events == [] || (events[0].at < reset && Before(events[1..], reset))
  }

  lemma {:induction false} RealisedStarts(key: string, slot: Option<Window>, events: seq<Event>,
                                          limit: int, windowMs: int, delay: nat)
    requires Run(events, delay)
    ensures var rs := Realised(key, slot, events, limit, windowMs);
            rs != [] ==> events != [] && events[0].at <= rs[0].at
    decreases |events|
  {
    if events != [] {
      RealisedStarts(key, Step(slot, events[0], limit, windowMs), events[1..], limit, windowMs, delay);
      hide Step;
    }
  }

  /** They do: the map lets the key through as the counter does. */
  lemma {:induction false} RealisedAdmits(key: string, n: nat, reset: int, slot: Option<Window>, events: seq<Event>,
                                          delay: nat, limit: int, windowMs: int, from: int, to: int)
    requires Run(events, delay) && FreshPurges(events) && Before(events, reset) && delay >= 1
    requires n == FILL || (n < MAX_KEYS && NoPurges(events))
    ensures var rs := Realised(key, slot, events, limit, windowMs);
            && Fits(Held(key, n, reset, slot), rs, key, delay, limit, windowMs)
            && AdmittedForKey(Held(key, n, reset, slot), rs, key, from, to)
               == AdmittedIn(slot, events, limit, windowMs, from, to)
    decreases |events|
  {
    if events != [] {
      var e := events[0];
      var next := Step(slot, e, limit, windowMs);
      var rest := Realised(key, next, events[1..], limit, windowMs);
      RealisedStarts(key, next, events[1..], limit, windowMs, delay);
      RealisedAdmits(key, n, reset, next, events[1..], delay, limit, windowMs, from, to);
      hide Handle, Held, Fits, Hit, AdmittedForKey;
      if e.Call? {
        CallLeads(key, n, reset, slot, e, rest, delay, limit, windowMs, from, to);
      } else if slot.Some? {
        PurgeLeads(key, reset, slot.value, e.at, rest, delay, limit, windowMs, from, to);
      }
    }
  }

  // What the runs show.

  /** A time after all the events. */
  function After(events: seq<Event>): int {
    if events == [] then 1
    else
      var later := After(events[1..]);
      if events[0].at < later then later else events[0].at + 1
  }

  lemma {:induction false} AfterIsAfter(events: seq<Event>, reset: int)
    requires reset >= After(events)
    ensures Before(events, reset)
  {
    if events != [] {
      AfterIsAfter(events[1..], reset);
    }
  }

  /** Requests on an empty map that take the key's counter through events that start at 0. */
  function RunOf(key: string, events: seq<Event>, limit: int, windowMs: int): seq<Request> {
    var n := if NoPurges(events) then 0 else FILL;
    FillRun(key, 0, n, 0, After(events)) + Realised(key, None, events, limit, windowMs)
  }

  lemma RunOfAdmits(key: string, events: seq<Event>, delay: nat, limit: int, windowMs: int, from: int, to: int)
    requires Run(events, delay) && FreshPurges(events) && delay >= 1 && (events != [] ==> events[0].at >= 0)
    ensures var rs := RunOf(key, events, limit, windowMs);
            && Fits(map[], rs, key, delay, limit, windowMs)
            && AdmittedForKey(map[], rs, key, from, to) == AdmittedIn(None, events, limit, windowMs, from, to)
            && (rs != [] ==> rs[0].at >= 0)
  {
    var n := if NoPurges(events) then 0 else FILL;
    var reset := After(events);
    AfterIsAfter(events, reset);
    AfterIsPositive(events);
    assert Filled(key, 0, reset) == map[];
    hide Filled, Fits, AdmittedForKey, AdmittedIn, FillRun, Realised, Run, FreshPurges, NoPurges, Before, After;
    RealisedAdmits(key, n, reset, None, events, delay, limit, windowMs, from, to);
    RealisedStarts(key, None, events, limit, windowMs, delay);
    FillLeads(key, 0, n, 0, reset, Realised(key, None, events, limit, windowMs), delay, limit, windowMs, from, to);
  }

  lemma {:induction false} AfterIsPositive(events: seq<Event>)
    ensures After(events) >= 1
  {
    if events != [] {
      AfterIsPositive(events[1..]);
    }
  }

  /** At most `bound` requests in any span of one window length, for every run of an empty limiter
      that is not made to drop all its counters. */
  ghost predicate Bounded(key: string, delay: nat, limit: int, windowMs: int, bound: int) {
    forall rs: seq<Request>, from: int, to: int ::
      Fits(map[], rs, key, delay, limit, windowMs) && to <= from + windowMs ==>
        AdmittedForKey(map[], rs, key, from, to) <= bound
  }

  /** A run that shows that nothing less is a bound. */
  lemma CrowdOnMap(key: string, k: nat, delay: nat, limit: int, windowMs: int) returns (rs: seq<Request>, from: int)
    requires limit >= 1 && windowMs > 0 && delay >= 1 && k >= 1 && (k - 1) * WaveGap(delay, windowMs) < windowMs
    ensures Fits(map[], rs, key, delay, limit, windowMs) && from >= 1 && (rs != [] ==> rs[0].at >= 0)
    ensures from == CrowdStart(delay, windowMs)
    ensures AdmittedForKey(map[], rs, key, from, from + windowMs) == (k + 1) * limit - 1
  {
    var events := Crowd(k, delay, limit, windowMs);
    from := CrowdStart(delay, windowMs);
    CrowdRuns(k, delay, limit, windowMs);
    CrowdAdmits(k, delay, limit, windowMs);
    RunOfAdmits(key, events, delay, limit, windowMs, from, from + windowMs);
    rs := RunOf(key, events, limit, windowMs);
  }

  /** With late stamps the most that a window length can let through is known exactly: no bound
      holds if the window is no longer than the delay, and otherwise (k + 1) * limit - 1 is the
      least one, where k gaps of windowMs - delay cover the window. */
  lemma MostAdmittedIff(key: string, delay: nat, limit: int, windowMs: int, bound: int)
    requires limit >= 1 && windowMs > 0 && delay >= 1
    ensures Bounded(key, delay, limit, windowMs, bound)
       <==> windowMs > delay && bound >= MostAdmitted(delay, limit, windowMs)
  {
    hide Bounded, Fits, Openings, WaveGap;
    if windowMs > delay {
      var k := Openings(delay, windowMs);
      KeySpanBoundEverywhere(key, delay, limit, windowMs, k, bound);
      if bound < (k + 1) * limit - 1 {
        CrowdExceeds(key, k, delay, limit, windowMs, bound);
      }
    } else {
      var k := if bound > 0 then bound + 1 else 1;
      assert (k + 1) * limit - 1 >= k by {
        assert (k + 1) * limit == (k + 1) * (limit - 1) + (k + 1);
      }
      CrowdExceeds(key, k, delay, limit, windowMs, bound);
    }
  }

  lemma CrowdExceeds(key: string, k: nat, delay: nat, limit: int, windowMs: int, bound: int)
    requires limit >= 1 && windowMs > 0 && delay >= 1 && k >= 1 && bound < (k + 1) * limit - 1
    requires windowMs > delay ==> (k - 1) * (windowMs - delay) < windowMs
    ensures !Bounded(key, delay, limit, windowMs, bound)
  {
    assert (k - 1) * WaveGap(delay, windowMs) < windowMs by {
      assert (k - 1) * 0 == 0;
    }
    hide Fits, WaveGap;
    var rs, from := CrowdOnMap(key, k, delay, limit, windowMs);
  }

  lemma KeySpanBoundEverywhere(key: string, delay: nat, limit: int, windowMs: int, k: nat, bound: int)
    requires limit >= 1 && windowMs > delay && windowMs <= k * (windowMs - delay)
    ensures bound >= (k + 1) * limit - 1 ==> Bounded(key, delay, limit, windowMs, bound)
  {
    forall rs: seq<Request>, from: int, to: int
      | Fits(map[], rs, key, delay, limit, windowMs) && to <= from + windowMs
      ensures AdmittedForKey(map[], rs, key, from, to) <= (k + 1) * limit - 1
    {
      KeySpanBound(map[], rs, key, delay, limit, windowMs, from, to, k);
    }
  }

  /** For each limit, window length and delay, twice the limit bounds every window length of every
      run exactly when every stamp is fresh, or when one request fills a window that is at least
      twice the delay. */
  lemma TwiceTheLimitIff(key: string, delay: nat, limit: int, windowMs: int)
    requires limit >= 1 && windowMs > 0
    ensures Bounded(key, delay, limit, windowMs, 2 * limit)
       <==> delay == 0 || (limit == 1 && windowMs >= 2 * delay)
  {
    if delay == 0 {
      KeySpanBoundEverywhere(key, delay, limit, windowMs, 1, 2 * limit);
    } else {
      MostAdmittedIff(key, delay, limit, windowMs, 2 * limit);
      hide Bounded;
      if windowMs > delay {
        OpeningsOfTwo(delay, windowMs);
        TwiceCovers(Openings(delay, windowMs), limit);
        hide Openings;
      }
    }
  }

  lemma TwiceCovers(k: nat, limit: int)
    requires k >= 2 && limit >= 1
    ensures 2 * limit >= (k + 1) * limit - 1 <==> k == 2 && limit == 1
  {
    assert (k + 1) * limit == (k - 2) * limit + 3 * limit;
    assert k > 2 ==> (k - 2) * limit == (k - 3) * limit + limit && (k - 3) * limit >= 0;
  }

  /** A late stamp needs two gaps, and two are enough exactly from twice the delay on. */
  lemma OpeningsOfTwo(delay: nat, windowMs: int)
    requires windowMs > delay >= 1
    ensures Openings(delay, windowMs) >= 2
    ensures Openings(delay, windowMs) == 2 <==> windowMs >= 2 * delay
  {
    var gap, k := windowMs - delay, Openings(delay, windowMs);
    if k >= 3 {
      assert (k - 1) * gap == 2 * gap + (k - 3) * gap && (k - 3) * gap >= 0;
    }
  }

  predicate OnlyFor(rs: seq<Request>, key: string) {
    forall r :: r in rs ==> r.key == key
  }

  lemma {:induction false} RealisedIsOwn(key: string, slot: Option<Window>, events: seq<Event>,
                                         limit: int, windowMs: int)
    requires NoPurges(events)
    ensures OnlyFor(Realised(key, slot, events, limit, windowMs), key)
    decreases |events|
  {
    if events != [] {
      RealisedIsOwn(key, Step(slot, events[0], limit, windowMs), events[1..], limit, windowMs);
      hide Step;
    }
  }

  /** With stamps two milliseconds late a single key is enough to get more than twice the limit. */
  lemma OneKeyExceeds(key: string, delay: nat, limit: int, windowMs: int)
    requires limit >= 2 && windowMs > 0 && delay >= 2
    ensures var rs := RunOf(key, LateCalls(limit, windowMs), limit, windowMs);
            && OnlyFor(rs, key) && Fits(map[], rs, key, delay, limit, windowMs)
            && AdmittedForKey(map[], rs, key, windowMs + 1, 2 * windowMs + 1) == 3 * limit - 1 > 2 * limit
  {
    var events := LateCalls(limit, windowMs);
    LateCallsRun(limit, windowMs, delay);
    LateCallsAdmit(limit, windowMs);
    hide LateCalls, AdmittedIn, Run;
    RunOfAdmits(key, events, delay, limit, windowMs, windowMs + 1, 2 * windowMs + 1);
    RealisedIsOwn(key, None, events, limit, windowMs);
    assert FillRun(key, 0, 0, 0, After(events)) == [];
  }

  // When the purge can be observed.

  /** Every run that is not made to drop all its counters gets the answers of a limiter that
      never deletes a window. */
  ghost predicate PurgeUnobservable(delay: nat) {
    forall rs: seq<Request> :: Ordered(rs, delay) && NeverClears(map[], rs) ==>
      Verdicts(map[], rs) == VerdictsKeepingAll(map[], rs)
  }

  lemma {:induction false} FreshStampsRise(rs: seq<Request>, now: int)
    requires Ordered(rs, 0) && (rs != [] ==> now <= rs[0].stamp)
    ensures StampsFrom(rs, now)
  {
    if rs != [] {
      FreshStampsRise(rs[1..], rs[0].stamp);
    }
  }

  /** What the never-deleting limiter lets through for a key. */
  function KeptForKey(ws: Windows, rs: seq<Request>, key: string, from: int, to: int): nat
    decreases |rs|
  {
    if rs == [] then 0
    else
      var h := KeepAll(ws, rs[0]);
      (if rs[0].key == key && from <= rs[0].at < to && h.1.Admit? then 1 else 0)
      + KeptForKey(h.0, rs[1..], key, from, to)
  }

  lemma {:induction false} SameVerdictsSameCount(ws: Windows, all: Windows, rs: seq<Request>, key: string,
                                                 from: int, to: int)
    requires Verdicts(ws, rs) == VerdictsKeepingAll(all, rs)
    ensures AdmittedForKey(ws, rs, key, from, to) == KeptForKey(all, rs, key, from, to)
    decreases |rs|
  {
    if rs != [] {
      var h, g := Handle(ws, rs[0]), KeepAll(all, rs[0]);
      hide Handle, KeepAll;
      assert Verdicts(ws, rs)[0] == h.1 && Verdicts(ws, rs)[1..] == Verdicts(h.0, rs[1..]);
      assert VerdictsKeepingAll(all, rs)[0] == g.1;
      assert VerdictsKeepingAll(all, rs)[1..] == VerdictsKeepingAll(g.0, rs[1..]);
      SameVerdictsSameCount(h.0, g.0, rs[1..], key, from, to);
    }
  }

  /** The requests for a key, and nothing of the others. */
  function CallsOf(rs: seq<Request>, key: string): seq<Event> {
    if rs == [] then []
    else if rs[0].key == key then [Call(rs[0].at, rs[0].stamp)] + CallsOf(rs[1..], key)
    else CallsOf(rs[1..], key)
  }

  lemma KeepStep(ws: Windows, r: Request, key: string)
    ensures var (next, v) := KeepAll(ws, r);
            if r.key == key then Hit(Slot(ws, key), r.limit, r.windowMs, r.stamp) == (Slot(next, key), v)
            else Slot(next, key) == Slot(ws, key)
  {
  }

  /** It goes by the key's own calls alone. */
  lemma {:induction false} KeptCounts(ws: Windows, rs: seq<Request>, key: string, limit: int, windowMs: int,
                                      from: int, to: int)
    requires Uses(rs, key, limit, windowMs)
    ensures KeptForKey(ws, rs, key, from, to) == AdmittedIn(Slot(ws, key), CallsOf(rs, key), limit, windowMs, from, to)
    decreases |rs|
  {
    if rs != [] {
      var r, next := rs[0], KeepAll(ws, rs[0]).0;
      KeptCounts(next, rs[1..], key, limit, windowMs, from, to);
      KeepStep(ws, r, key);
      Prepend(Slot(ws, key), Call(r.at, r.stamp), CallsOf(rs[1..], key), limit, windowMs, from, to);
      hide KeepAll, Hit, AdmittedIn;
    }
  }

  lemma {:induction false} CallsOfFill(key: string, i: nat, n: nat, at: int, reset: int, rest: seq<Request>)
    ensures CallsOf(FillRun(key, i, n, at, reset) + rest, key) == CallsOf(rest, key)
    decreases n - i
  {
    FillSplits(key, i, n, at, reset, rest);
    if i < n {
      var r := Request(Name(key, i), 1, reset - at, at, at);
      assert |r.key| != |key|;
      CallsOfFill(key, i + 1, n, at, reset, rest);
      hide FillRun, Name;
      assert ([r] + (FillRun(key, i + 1, n, at, reset) + rest))[1..] == FillRun(key, i + 1, n, at, reset) + rest;
    }
  }

  /** A window of 10 ms opened at 0 and purged at 10; then a request whose clock was read at 9. */
  const SHOWN: seq<Event> := [Call(0, 0), Purge(10, 10), Call(10, 9)]

  lemma ShownCalls(key: string)
    ensures CallsOf(Realised(key, None, SHOWN, 1, 10), key) == [Call(0, 0), Call(10, 9)]
  {
    var first, last := Request(key, 1, 10, 0, 0), Request(key, 1, 10, 9, 10);
    var spare, other := PurgeRun(key, 10)[0], PurgeRun(key, 10)[1];
    assert SHOWN[1..] == [Purge(10, 10), Call(10, 9)] && SHOWN[1..][1..] == [Call(10, 9)] && SHOWN[1..][1..][1..] == [];
    assert Realised(key, None, [Call(10, 9)], 1, 10) == [last];
    assert Realised(key, Some(Window(1, 10)), SHOWN[1..], 1, 10) == [spare, other, last];
    var all := [first, spare, other, last];
    assert Realised(key, None, SHOWN, 1, 10) == all;
    assert |spare.key| != |key| && |other.key| != |key|;
    assert all[1..] == [spare, other, last] && all[1..][1..] == [other, last] && all[1..][1..][1..] == [last];
    assert [last][1..] == [];
    assert CallsOf([last], key) == [Call(10, 9)];
    assert CallsOf([other, last], key) == [Call(10, 9)];
    assert CallsOf([spare, other, last], key) == [Call(10, 9)];
  }

  /** The purging limiter lets it through and the other one does not. */
  lemma ShownVerdicts()
    ensures AdmittedIn(None, SHOWN, 1, 10, 10, 11) == 1
    ensures AdmittedIn(None, [Call(0, 0), Call(10, 9)], 1, 10, 10, 11) == 0
    ensures Run(SHOWN, 1) && FreshPurges(SHOWN)
  {
    assert SHOWN[1..] == [Purge(10, 10), Call(10, 9)] && SHOWN[1..][1..] == [Call(10, 9)] && SHOWN[1..][1..][1..] == [];
    assert [Call(0, 0), Call(10, 9)][1..] == [Call(10, 9)] && [Call(10, 9)][1..] == [];
    assert AdmittedIn(None, [Call(10, 9)], 1, 10, 10, 11) == 1;
    assert AdmittedIn(Some(Window(1, 10)), SHOWN[1..], 1, 10, 10, 11) == 1;
    assert AdmittedIn(Some(Window(1, 10)), [Call(10, 9)], 1, 10, 10, 11) == 0;
    assert Run([Call(10, 9)], 1) && Run(SHOWN[1..], 1);
    assert FreshPurges([Call(10, 9)]) && FreshPurges(SHOWN[1..]);
  }

  lemma ShownRun(key: string)
    ensures var rs := RunOf(key, SHOWN, 1, 10);
            && Ordered(rs, 1) && NeverClears(map[], rs)
            && Verdicts(map[], rs) != VerdictsKeepingAll(map[], rs)
  {
    var rs := RunOf(key, SHOWN, 1, 10);
    ShownVerdicts();
    RunOfAdmits(key, SHOWN, 1, 1, 10, 10, 11);
    var n := if NoPurges(SHOWN) then 0 else FILL;
    CallsOfFill(key, 0, n, 0, After(SHOWN), Realised(key, None, SHOWN, 1, 10));
    ShownCalls(key);
    assert CallsOf(rs, key) == [Call(0, 0), Call(10, 9)];
    KeptCounts(map[], rs, key, 1, 10, 10, 11);
    hide Verdicts, VerdictsKeepingAll, AdmittedForKey, KeptForKey, RunOf, AdmittedIn, Ordered, NeverClears;
    if Verdicts(map[], rs) == VerdictsKeepingAll(map[], rs) {
      SameVerdictsSameCount(map[], map[], rs, key, 10, 11);
      assert false;
    }
  }

  lemma {:induction false} OrderedLater(rs: seq<Request>, delay: nat, more: nat)
    requires Ordered(rs, delay) && delay <= more
    ensures Ordered(rs, more)
  {
    if rs != [] {
      OrderedLater(rs[1..], delay, more);
    }
  }

  /** The purge is unobservable exactly when every stamp is fresh: a stamp one millisecond late can
      fall into a window that a purge has already dropped. */
  lemma PurgeUnobservableIff(delay: nat)
    ensures PurgeUnobservable(delay) <==> delay == 0
  {
    if delay == 0 {
      forall rs: seq<Request> | Ordered(rs, 0) && NeverClears(map[], rs)
        ensures Verdicts(map[], rs) == VerdictsKeepingAll(map[], rs)
      {
        var now := if rs == [] then 0 else rs[0].stamp;
        FreshStampsRise(rs, now);
        PurgeIsUnobservable(map[], map[], rs, now);
      }
    } else {
      ShownRun("key");
      var rs := RunOf("key", SHOWN, 1, 10);
      OrderedLater(rs, 1, delay);
    }
  }
}
