/** A fleet of instances around one store (src/lib/shared-store.ts, lines 380-404): each call of
    `limitShared` runs the script at the store or, on the fallback path, the limiter of its own
    instance, which serves requests for other keys as well. */
module Fleet {
  import opened Wrappers
  import opened FixedWindow
  import opened RateLimit
  import opened MapRuns

  datatype FleetEvent = AtStore(call: StoreCall) | AtInstance(i: nat, request: Request)

  function Time(e: FleetEvent): int {
    if e.AtStore? then e.call.at else e.request.at
  }

  ghost predicate FleetRun(run: seq<FleetEvent>, delay: nat) {
    run == [] ||
    (&& (run[0].AtInstance? ==> run[0].request.stamp <= run[0].request.at <= run[0].request.stamp + delay)
     && (|run| > 1 ==> Time(run[0]) <= Time(run[1]))
     && FleetRun(run[1..], delay))
  }

  /** Requests for `name` let through anywhere in the fleet at a time in [from, to). */
  function FleetAdmitted(name: string, key: StoreKey, maps: seq<Windows>, run: seq<FleetEvent>,
                         limit: int, windowMs: nat, from: int, to: int): nat
    decreases |run|
  {
    if run == [] then 0
    else match run[0]
      case AtStore(c) =>
        var (next, count, _) := Script(key, windowMs, c.at);
        (if from <= c.at < to && c.delivered && count <= limit then 1 else 0)
        + FleetAdmitted(name, next, maps, run[1..], limit, windowMs, from, to)
      case AtInstance(i, r) =>
        if i >= |maps| then FleetAdmitted(name, key, maps, run[1..], limit, windowMs, from, to)
        else
          (if Counts(r, name, maps[i], from, to) then 1 else 0)
          + FleetAdmitted(name, key, maps[i := Handle(maps[i], r).0], run[1..], limit, windowMs, from, to)
  }

  predicate Counts(r: Request, name: string, ws: Windows, from: int, to: int) {
    r.key == name && from <= r.at < to && Handle(ws, r).1.Admit?
  }

  function StoreCalls(run: seq<FleetEvent>): seq<StoreCall> {
    if run == [] then []
    else if run[0].AtStore? then [run[0].call] + StoreCalls(run[1..])
    else StoreCalls(run[1..])
  }

  function InstanceRequests(run: seq<FleetEvent>, i: nat): seq<Request>
    decreases |run|
  {
    if run == [] then []
    else if run[0].AtInstance? && run[0].i == i then [run[0].request] + InstanceRequests(run[1..], i)
    else InstanceRequests(run[1..], i)
  }

  /** Admissions of the first `n` instances, each taken on its own. */
  function InstancesAdmitted(name: string, maps: seq<Windows>, run: seq<FleetEvent>, n: nat, from: int, to: int): nat
    requires n <= |maps|
    decreases n
  {
    if n == 0 then 0
    else
      InstancesAdmitted(name, maps, run, n - 1, from, to)
      + AdmittedForKey(maps[n - 1], InstanceRequests(run, n - 1), name, from, to)
  }

  lemma FirstRequest(ws: Windows, r: Request, rest: seq<Request>, name: string, from: int, to: int)
    ensures AdmittedForKey(ws, [r] + rest, name, from, to)
         == (if Counts(r, name, ws, from, to) then 1 else 0) + AdmittedForKey(Handle(ws, r).0, rest, name, from, to)
  {
    assert ([r] + rest)[1..] == rest;
  }

  /** A request at instance `j` changes only that instance's share. */
  lemma {:induction false} OneInstanceMoves(name: string, maps: seq<Windows>, run: seq<FleetEvent>, n: nat,
                                            from: int, to: int)
    requires run != [] && run[0].AtInstance? && run[0].i < |maps| && n <= |maps|
    ensures var (j, r) := (run[0].i, run[0].request);
            InstancesAdmitted(name, maps, run, n, from, to)
            == (if j < n && Counts(r, name, maps[j], from, to) then 1 else 0)
             + InstancesAdmitted(name, maps[j := Handle(maps[j], r).0], run[1..], n, from, to)
    decreases n
  {
    hide Counts, Handle, AdmittedForKey;
    if n > 0 {
      OneInstanceMoves(name, maps, run, n - 1, from, to);
      FirstRequest(maps[n - 1], run[0].request, InstanceRequests(run[1..], n - 1), name, from, to);
    }
  }

  lemma {:induction false} NoInstanceMoves(name: string, maps: seq<Windows>, run: seq<FleetEvent>, n: nat,
                                           from: int, to: int)
    requires run != [] && n <= |maps| && (run[0].AtStore? || run[0].i >= |maps|)
    ensures InstancesAdmitted(name, maps, run, n, from, to) == InstancesAdmitted(name, maps, run[1..], n, from, to)
    decreases n
  {
    if n > 0 {
      NoInstanceMoves(name, maps, run, n - 1, from, to);
    }
  }

  /** What the fleet lets through is what the store and each instance let through on their own. */
  lemma {:induction false} FleetIsSum(name: string, key: StoreKey, maps: seq<Windows>, run: seq<FleetEvent>,
                                      limit: int, windowMs: nat, from: int, to: int)
    ensures FleetAdmitted(name, key, maps, run, limit, windowMs, from, to)
         == StoreAdmittedIn(key, StoreCalls(run), limit, windowMs, from, to)
          + InstancesAdmitted(name, maps, run, |maps|, from, to)
    decreases |run|
  {
    hide Counts, Handle;
    if run == [] {
      NothingAdmitted(name, maps, |maps|, from, to);
    } else if run[0].AtStore? {
      NoInstanceMoves(name, maps, run, |maps|, from, to);
      FleetIsSum(name, Script(key, windowMs, run[0].call.at).0, maps, run[1..], limit, windowMs, from, to);
      assert StoreCalls(run)[1..] == StoreCalls(run[1..]);
    } else if run[0].i >= |maps| {
      NoInstanceMoves(name, maps, run, |maps|, from, to);
      FleetIsSum(name, key, maps, run[1..], limit, windowMs, from, to);
    } else {
      var (j, r) := (run[0].i, run[0].request);
      OneInstanceMoves(name, maps, run, |maps|, from, to);
      FleetIsSum(name, key, maps[j := Handle(maps[j], r).0], run[1..], limit, windowMs, from, to);
    }
  }

  lemma {:induction false} NothingAdmitted(name: string, maps: seq<Windows>, n: nat, from: int, to: int)
    requires n <= |maps|
    ensures InstancesAdmitted(name, maps, [], n, from, to) == 0
    decreases n
  {
    if n > 0 {
      NothingAdmitted(name, maps, n - 1, from, to);
    }
  }

  /** The store and each instance see their own calls in order. */
  lemma {:induction false} CountersAreOrdered(run: seq<FleetEvent>, delay: nat, i: nat)
    requires FleetRun(run, delay)
    ensures Ordered(InstanceRequests(run, i), delay) && StoreRun(StoreCalls(run))
    ensures InstanceRequests(run, i) != [] ==> InstanceRequests(run, i)[0].at >= Time(run[0])
    ensures StoreCalls(run) != [] ==> StoreCalls(run)[0].at >= Time(run[0])
    decreases |run|
  {
    if run != [] {
      CountersAreOrdered(run[1..], delay, i);
      var requests, calls := InstanceRequests(run[1..], i), StoreCalls(run[1..]);
      if run[0].AtInstance? {
        assert ([run[0].request] + requests)[1..] == requests;
      } else {
        assert ([run[0].call] + calls)[1..] == calls;
      }
    }
  }

  /** No instance is made to drop all its counters, and `name` has one limit and one window. */
  ghost predicate FleetFits(name: string, maps: seq<Windows>, run: seq<FleetEvent>, delay: nat,
                            limit: int, windowMs: int)
  {
    && FleetRun(run, delay)
    && (forall i :: 0 <= i < |maps| ==> Fits(maps[i], InstanceRequests(run, i), name, delay, limit, windowMs))
  }

  lemma {:induction false} InstancesBound(name: string, maps: seq<Windows>, run: seq<FleetEvent>, n: nat, delay: nat,
                                          limit: int, windowMs: nat, from: int, to: int, k: nat)
    requires n <= |maps| && FleetFits(name, maps, run, delay, limit, windowMs) && limit >= 1 && windowMs > delay
    requires forall i :: 0 <= i < n ==> Counted(Slot(maps[i], name), limit)
    requires to - from <= k * (windowMs - delay)
    ensures InstancesAdmitted(name, maps, run, n, from, to) <= n * ((k + 1) * limit - 1)
    decreases n
  {
    if n > 0 {
      InstancesBound(name, maps, run, n - 1, delay, limit, windowMs, from, to, k);
      KeySpanBound(maps[n - 1], InstanceRequests(run, n - 1), name, delay, limit, windowMs, from, to, k);
      OneMore(n, (k + 1) * limit - 1);
    }
  }

  lemma OneMore(n: nat, x: int)
    requires n > 0
    ensures n * x == (n - 1) * x + x
  {
  }

  /** In any span of one window length, the store and N instances together let a key through at
      most 2 * limit - 1 times through the store and (k + 1) * limit - 1 times at each instance,
      however its calls fall back between them. */
  lemma FleetBound(name: string, key: StoreKey, maps: seq<Windows>, run: seq<FleetEvent>, delay: nat,
                   limit: int, windowMs: nat, from: int, to: int, k: nat)
    requires FleetFits(name, maps, run, delay, limit, windowMs)
    requires limit >= 1 && windowMs > delay && (key.Key? ==> key.count >= 1)
    requires forall i :: 0 <= i < |maps| ==> Counted(Slot(maps[i], name), limit)
    requires to - from <= windowMs && to - from <= k * (windowMs - delay)
    ensures FleetAdmitted(name, key, maps, run, limit, windowMs, from, to)
         <= (2 * limit - 1) + |maps| * ((k + 1) * limit - 1)
  {
    FleetIsSum(name, key, maps, run, limit, windowMs, from, to);
    CountersAreOrdered(run, delay, 0);
    StoreSpanBound(key, StoreCalls(run), limit, windowMs, from, to, 1);
    InstancesBound(name, maps, run, |maps|, delay, limit, windowMs, from, to, k);
  }

  // Exactly when the fleet keeps to twice the limit for each of its counters.

  function Fresh(n: nat): (maps: seq<Windows>)
    ensures |maps| == n && forall i :: 0 <= i < n ==> maps[i] == map[]
  {
    seq(n, _ => map[])
  }

  ghost predicate FleetBounded(name: string, n: nat, delay: nat, limit: int, windowMs: nat, bound: int) {
    forall run: seq<FleetEvent>, from: int, to: int ::
      FleetFits(name, Fresh(n), run, delay, limit, windowMs) && to <= from + windowMs ==>
        FleetAdmitted(name, Absent, Fresh(n), run, limit, windowMs, from, to) <= bound
  }

  /** The same request at each of the first `n` instances, and then the rest of the run. */
  function AtEach(r: Request, n: nat, rest: seq<FleetEvent>): seq<FleetEvent> {
    if n == 0 then rest else [AtInstance(n - 1, r)] + AtEach(r, n - 1, rest)
  }

  /** The calls of the store and, at every instance, the same requests, in order of time. */
  function Merged(calls: seq<StoreCall>, rs: seq<Request>, n: nat): seq<FleetEvent>
    decreases |calls| + |rs|
  {
    if calls == [] && rs == [] then []
    else if calls != [] && (rs == [] || calls[0].at <= rs[0].at) then [AtStore(calls[0])] + Merged(calls[1..], rs, n)
    else AtEach(rs[0], n, Merged(calls, rs[1..], n))
  }

  lemma {:induction false} AtEachFacts(r: Request, n: nat, rest: seq<FleetEvent>, delay: nat)
    requires FleetRun(rest, delay) && r.stamp <= r.at <= r.stamp + delay && (rest != [] ==> r.at <= Time(rest[0]))
    ensures var all := AtEach(r, n, rest);
            && FleetRun(all, delay) && (all != [] ==> r.at <= Time(all[0]))
            && StoreCalls(all) == StoreCalls(rest)
            && (forall i: nat :: InstanceRequests(all, i)
                              == if i < n then [r] + InstanceRequests(rest, i) else InstanceRequests(rest, i))
  {
    if n > 0 {
      AtEachFacts(r, n - 1, rest, delay);
      assert AtEach(r, n, rest)[1..] == AtEach(r, n - 1, rest);
    }
  }

  /** Every counter gets what it should. */
  lemma {:induction false} MergedFacts(calls: seq<StoreCall>, rs: seq<Request>, n: nat, delay: nat, now: int)
    requires StoreRun(calls) && Ordered(rs, delay)
    requires (calls != [] ==> now <= calls[0].at) && (rs != [] ==> now <= rs[0].at)
    ensures var all := Merged(calls, rs, n);
            && FleetRun(all, delay) && (all != [] ==> now <= Time(all[0]))
            && StoreCalls(all) == calls
            && (forall i: nat :: i < n ==> InstanceRequests(all, i) == rs)
    decreases |calls| + |rs|
  {
    if calls == [] && rs == [] {
    } else if calls != [] && (rs == [] || calls[0].at <= rs[0].at) {
      MergedFacts(calls[1..], rs, n, delay, calls[0].at);
      assert Merged(calls, rs, n)[1..] == Merged(calls[1..], rs, n);
    } else {
      MergedFacts(calls, rs[1..], n, delay, rs[0].at);
      AtEachFacts(rs[0], n, Merged(calls, rs[1..], n), delay);
    }
  }

  lemma {:induction false} SameAtEach(name: string, run: seq<FleetEvent>, rs: seq<Request>, total: nat, n: nat,
                                      from: int, to: int)
    requires n <= total && forall i: nat :: i < n ==> InstanceRequests(run, i) == rs
    ensures InstancesAdmitted(name, Fresh(total), run, n, from, to) == n * AdmittedForKey(map[], rs, name, from, to)
    decreases n
  {
    if n > 0 {
      SameAtEach(name, run, rs, total, n - 1, from, to);
      OneMore(n, AdmittedForKey(map[], rs, name, from, to));
    }
  }

  /** Store and instances at their worst together. */
  lemma WorstFleet(name: string, n: nat, calls: seq<StoreCall>, rs: seq<Request>, delay: nat, limit: int, windowMs: nat,
                   from: int, bound: int)
    requires StoreRun(calls) && Fits(map[], rs, name, delay, limit, windowMs)
    requires StoreAdmittedIn(Absent, calls, limit, windowMs, from, from + windowMs)
             + n * AdmittedForKey(map[], rs, name, from, from + windowMs) > bound
    ensures !FleetBounded(name, n, delay, limit, windowMs, bound)
  {
    hide Fits, FleetAdmitted, StoreAdmittedIn, AdmittedForKey, InstancesAdmitted, Merged;
    var run := Merged(calls, rs, n);
    MergedFits(name, calls, rs, n, delay, limit, windowMs);
    FleetIsSum(name, Absent, Fresh(n), run, limit, windowMs, from, from + windowMs);
    SameAtEach(name, run, rs, n, n, from, from + windowMs);
    hide FleetFits;
    assert FleetAdmitted(name, Absent, Fresh(n), run, limit, windowMs, from, from + windowMs) > bound;
  }

  lemma MergedFits(name: string, calls: seq<StoreCall>, rs: seq<Request>, n: nat, delay: nat, limit: int, windowMs: nat)
    requires StoreRun(calls) && Fits(map[], rs, name, delay, limit, windowMs)
    ensures var run := Merged(calls, rs, n);
            && FleetFits(name, Fresh(n), run, delay, limit, windowMs) && StoreCalls(run) == calls
            && (forall i: nat :: i < n ==> InstanceRequests(run, i) == rs)
  {
    var now := if calls == [] then (if rs == [] then 0 else rs[0].at)
               else if rs == [] || calls[0].at <= rs[0].at then calls[0].at else rs[0].at;
    MergedFacts(calls, rs, n, delay, now);
    hide Merged;
  }

  function StoreBurst(at: int, n: nat): seq<StoreCall> {
    if n == 0 then [] else [StoreCall(at, true)] + StoreBurst(at, n - 1)
  }

  lemma {:induction false} StoreBurstRuns(at: int, n: nat, tail: seq<StoreCall>)
    requires StoreRun(tail) && (tail != [] ==> at <= tail[0].at)
    ensures var all := StoreBurst(at, n) + tail; StoreRun(all) && (all != [] ==> at <= all[0].at)
  {
    if n == 0 {
      assert StoreBurst(at, n) + tail == tail;
    } else {
      StoreBurstRuns(at, n - 1, tail);
      assert (StoreBurst(at, n) + tail)[1..] == StoreBurst(at, n - 1) + tail;
    }
  }

  lemma FirstCall(key: StoreKey, c: StoreCall, tail: seq<StoreCall>, limit: int, windowMs: nat, from: int, to: int)
    ensures StoreAdmittedIn(key, [c] + tail, limit, windowMs, from, to)
         == (if from <= c.at < to && c.delivered && Script(key, windowMs, c.at).1 <= limit then 1 else 0)
          + StoreAdmittedIn(Script(key, windowMs, c.at).0, tail, limit, windowMs, from, to)
  {
    assert ([c] + tail)[1..] == tail;
  }

  lemma {:induction false} StoreBurstFills(count: nat, end: int, at: int, n: nat, tail: seq<StoreCall>,
                                           limit: int, windowMs: nat, from: int, to: int)
    requires count >= 1 && count + n <= limit && from <= at < to && at < end
    ensures StoreAdmittedIn(Key(count, Some(end)), StoreBurst(at, n) + tail, limit, windowMs, from, to)
         == n + StoreAdmittedIn(Key(count + n, Some(end)), tail, limit, windowMs, from, to)
    decreases n
  {
    if n == 0 {
      assert StoreBurst(at, n) + tail == tail;
    } else {
      var c := StoreCall(at, true);
      assert StoreBurst(at, n) + tail == [c] + (StoreBurst(at, n - 1) + tail);
      FirstCall(Key(count, Some(end)), c, StoreBurst(at, n - 1) + tail, limit, windowMs, from, to);
      assert Script(Key(count, Some(end)), windowMs, at).0 == Key(count + 1, Some(end));
      hide StoreAdmittedIn, StoreBurst;
      StoreBurstFills(count + 1, end, at, n - 1, tail, limit, windowMs, from, to);
    }
  }

  /** A window opened just before the span and filled in it, and the next one. */
  function StoreCrowd(from: int, limit: int, windowMs: nat): seq<StoreCall>
    requires limit >= 1
  {
    [StoreCall(from - 1, true)] + (StoreBurst(from, limit - 1) + (StoreBurst(from - 1 + windowMs, limit) + []))
  }

  lemma StoreCrowdRuns(from: int, limit: int, windowMs: nat)
    requires limit >= 1 && windowMs >= 1
    ensures StoreRun(StoreCrowd(from, limit, windowMs))
  {
    var last := StoreBurst(from - 1 + windowMs, limit) + [];
    StoreBurstRuns(from - 1 + windowMs, limit, []);
    StoreBurstRuns(from, limit - 1, last);
    hide StoreBurst;
    assert StoreCrowd(from, limit, windowMs)[1..] == StoreBurst(from, limit - 1) + last;
  }

  /** A burst of calls on a key that is absent, or whose window is over, opens the next one. */
  lemma StoreBurstOpens(key: StoreKey, at: int, n: nat, limit: int, windowMs: nat, from: int, to: int)
    requires key.Key? ==> key.expireAt.Some? && key.expireAt.value <= at
    requires 1 <= n <= limit && windowMs > 0 && from <= at < to
    ensures StoreAdmittedIn(key, StoreBurst(at, n) + [], limit, windowMs, from, to) == n
  {
    var c := StoreCall(at, true);
    assert StoreBurst(at, n) + [] == [c] + (StoreBurst(at, n - 1) + []);
    var (next, count, _) := Script(key, windowMs, at);
    assert next == Key(1, Some(at + windowMs)) && count == 1;
    assert StoreAdmittedIn(Key(n, Some(at + windowMs)), [], limit, windowMs, from, to) == 0;
    hide StoreAdmittedIn, StoreBurst, Script;
    FirstCall(key, c, StoreBurst(at, n - 1) + [], limit, windowMs, from, to);
    StoreBurstFills(1, at + windowMs, at, n - 1, [], limit, windowMs, from, to);
  }

  lemma StoreCrowdAdmits(from: int, limit: int, windowMs: nat)
    requires limit >= 1 && windowMs >= 2
    ensures StoreAdmittedIn(Absent, StoreCrowd(from, limit, windowMs), limit, windowMs, from, from + windowMs)
         == 2 * limit - 1
  {
    var end, to := from - 1 + windowMs, from + windowMs;
    var last := StoreBurst(end, limit) + [];
    assert Script(Absent, windowMs, from - 1).0 == Key(1, Some(end));
    hide StoreAdmittedIn, StoreBurst, Script;
    FirstCall(Absent, StoreCall(from - 1, true), StoreBurst(from, limit - 1) + last, limit, windowMs, from, to);
    StoreBurstFills(1, end, from, limit - 1, last, limit, windowMs, from, to);
    StoreBurstOpens(Key(limit, Some(end)), end, limit, limit, windowMs, from, to);
  }

  /** With late stamps the most that a fleet lets through in one window length is known exactly:
      2 * limit - 1 at the store and (k + 1) * limit - 1 at each instance, all at once. */
  lemma FleetMostIff(name: string, n: nat, delay: nat, limit: int, windowMs: nat, bound: int)
    requires limit >= 1 && windowMs > delay >= 1
    ensures FleetBounded(name, n, delay, limit, windowMs, bound)
       <==> bound >= (2 * limit - 1) + n * MostAdmitted(delay, limit, windowMs)
  {
    var k := Openings(delay, windowMs);
    hide Openings, Fits, FleetFits;
    if bound >= (2 * limit - 1) + n * MostAdmitted(delay, limit, windowMs) {
      FleetBoundEverywhere(name, n, delay, limit, windowMs, k, bound);
    } else {
      assert WaveGap(delay, windowMs) == windowMs - delay;
      var rs, from := CrowdOnMap(name, k, delay, limit, windowMs);
      StoreCrowdAdmits(from, limit, windowMs);
      StoreCrowdRuns(from, limit, windowMs);
      hide FleetBounded, StoreCrowd;
      WorstFleet(name, n, StoreCrowd(from, limit, windowMs), rs, delay, limit, windowMs, from, bound);
    }
  }

  lemma FleetBoundEverywhere(name: string, n: nat, delay: nat, limit: int, windowMs: nat, k: nat, bound: int)
    requires limit >= 1 && windowMs > delay && windowMs <= k * (windowMs - delay)
    requires bound >= (2 * limit - 1) + n * ((k + 1) * limit - 1)
    ensures FleetBounded(name, n, delay, limit, windowMs, bound)
  {
    forall run: seq<FleetEvent>, from: int, to: int
      | FleetFits(name, Fresh(n), run, delay, limit, windowMs) && to <= from + windowMs
      ensures FleetAdmitted(name, Absent, Fresh(n), run, limit, windowMs, from, to) <= bound
    {
      hide FleetAdmitted, FleetFits;
      FleetBound(name, Absent, Fresh(n), run, delay, limit, windowMs, from, to, k);
    }
  }

  /** A fleet keeps to twice the limit for each of its N + 1 counters, in every run, exactly when
      every stamp is fresh, there is no instance, or its known worst case stays within that. */
  lemma FleetTwiceIff(name: string, n: nat, delay: nat, limit: int, windowMs: nat)
    requires limit >= 1 && windowMs > 0
    ensures FleetBounded(name, n, delay, limit, windowMs, 2 * limit * (n + 1))
       <==> delay == 0 || n == 0
            || (windowMs > delay && (2 * limit - 1) + n * MostAdmitted(delay, limit, windowMs) <= 2 * limit * (n + 1))
  {
    hide FleetBounded;
    if delay == 0 {
      assert 2 * limit * (n + 1) == 2 * limit + n * (2 * limit);
      assert n * (2 * limit - 1) == n * (2 * limit) - n;
      FleetBoundEverywhere(name, n, 0, limit, windowMs, 1, 2 * limit * (n + 1));
    } else if windowMs > delay {
      FleetMostIff(name, n, delay, limit, windowMs, 2 * limit * (n + 1));
      assert n == 0 ==> n * MostAdmitted(delay, limit, windowMs) == 0;
      hide MostAdmitted;
    } else if n == 0 {
      StoreAlone(name, delay, limit, windowMs);
    } else {
      ShortWindows(name, n, delay, limit, windowMs);
    }
  }

  lemma StoreAlone(name: string, delay: nat, limit: int, windowMs: nat)
    requires limit >= 1 && windowMs > 0
    ensures FleetBounded(name, 0, delay, limit, windowMs, 2 * limit)
  {
    forall run: seq<FleetEvent>, from: int, to: int
      | FleetFits(name, Fresh(0), run, delay, limit, windowMs) && to <= from + windowMs
      ensures FleetAdmitted(name, Absent, Fresh(0), run, limit, windowMs, from, to) <= 2 * limit
    {
      FleetIsSum(name, Absent, Fresh(0), run, limit, windowMs, from, to);
      CountersAreOrdered(run, delay, 0);
      StoreSpanBound(Absent, StoreCalls(run), limit, windowMs, from, to, 1);
    }
  }

  /** In windows no longer than the delay an instance alone can go past any bound. */
  lemma ShortWindows(name: string, n: nat, delay: nat, limit: int, windowMs: nat)
    requires limit >= 1 && 0 < windowMs <= delay && n >= 1
    ensures !FleetBounded(name, n, delay, limit, windowMs, 2 * limit * (n + 1))
  {
    assert (5 - 1) * WaveGap(delay, windowMs) == 0;
    hide FleetBounded, Fits;
    var rs, from := CrowdOnMap(name, 5, delay, limit, windowMs);
    FiveWavesExceed(n, limit);
    assert StoreAdmittedIn(Absent, [], limit, windowMs, from, from + windowMs) == 0;
    hide AdmittedForKey, StoreAdmittedIn;
    WorstFleet(name, n, [], rs, delay, limit, windowMs, from, 2 * limit * (n + 1));
  }

  lemma FiveWavesExceed(n: nat, limit: int)
    requires n >= 1 && limit >= 1
    ensures n * (6 * limit - 1) > 2 * limit * (n + 1)
  {
    assert 2 * limit * (n + 1) == n * (2 * limit) + 2 * limit;
    assert n * (6 * limit - 1) == n * (2 * limit) + n * (4 * limit - 1);
    assert n * (4 * limit - 1) == (n - 1) * (4 * limit - 1) + 4 * limit - 1 && (n - 1) * (4 * limit - 1) >= 0;
  }
}
