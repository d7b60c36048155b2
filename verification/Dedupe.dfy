/** In-flight dedupe: `TtlCache.getOrCompute` (src/lib/rate-limit.ts) and the local half of
    `SharedCache.getOrCompute` (src/lib/shared-store.ts).

    A call is cut where it awaits. `Lookup` is the stretch from reading the local cache to
    registering the computation, `Settle` is the computation's promise settling, `Finish` is
    the starter resuming, and `Release` is its `finally`. `TtlCache` releases right after it
    finishes; `SharedCache` writes to the store in between. Any number of calls may be
    anywhere in this. */
module Dedupe {
  import opened Wrappers
  import opened TtlCache

  datatype Outcome<V> = Value(value: V) | Error(reason: string)

  datatype Phase = Computing | Settled | Finished

  /** A computation that has not been released: its key and what it settled to. */
  datatype Task<V> = Task(key: string, phase: Phase, outcome: Option<Outcome<V>>)

  datatype Answer<V> = Hit(value: V) | Join(task: nat) | Start(task: nat)

  /** `inflight` names the computation of each key; `joined` records which one a call joined;
      `done` keeps the outcome of every settled computation, released or not. */
  datatype System<V> = System(
    pair: Pair<V>, inflight: map<string, nat>, tasks: map<nat, Task<V>>,
    joined: map<nat, nat>, done: map<nat, Outcome<V>>, now: int)

  datatype Event<V> =
    | Lookup(call: nat, key: string, at: int)
    | Settle(task: nat, outcome: Outcome<V>)
    | Finish(task: nat, at: int)
    | Release(task: nat)

  /** What a call finds: a cached value, a computation to join, or none, so it starts one
      (named after the call). */
  function Ask<V>(s: System<V>, call: nat, key: string, at: int): Answer<V> {
    var hit := GetFrom(s.pair.s, key, at).1;
    if hit.Some? then Hit(hit.value)
    else if key in s.inflight then Join(s.inflight[key])
    else Start(call)
  }

  ghost predicate Possible<V>(s: System<V>, e: Event<V>) {
    match e
    case Lookup(call, key, at) => s.now <= at && call !in s.tasks && call !in s.joined && call !in s.done
    case Settle(task, _) => task in s.tasks && s.tasks[task].phase == Computing
    case Finish(task, at) => s.now <= at && task in s.tasks && s.tasks[task].phase == Settled
    case Release(task) => task in s.tasks && s.tasks[task].phase == Finished
  }

  function Step<V>(s: System<V>, e: Event<V>, ttlMs: nat, maxEntries: nat): System<V>
    requires Possible(s, e)
  {
    match e
    case Lookup(call, key, at) =>
      var t := s.(pair := AfterGet(s.pair, key, at), now := at);
      (match Ask(s, call, key, at)
       case Hit(_) => t
       case Join(task) => t.(joined := s.joined[call := task])
       case Start(_) => t.(inflight := s.inflight[key := call], tasks := s.tasks[call := Task(key, Computing, None)]))
    case Settle(task, outcome) =>
      s.(tasks := s.tasks[task := Task(s.tasks[task].key, Settled, Some(outcome))], done := s.done[task := outcome])
    case Finish(task, at) =>
      var t := s.tasks[task];
      var finished := s.(tasks := s.tasks[task := t.(phase := Finished)], now := at);
      if t.outcome.Some? && t.outcome.value.Value?
      then finished.(pair := AfterSet(s.pair, t.key, t.outcome.value.value, at, ttlMs, maxEntries))
      else finished
    case Release(task) =>
      s.(inflight := s.inflight - {s.tasks[task].key}, tasks := s.tasks - {task})
  }

  /** The fields of one cache that dedupe uses: line 62 (or 412) and the two statements that
      touch it. */
  class Inflight<V> {
    var current: map<string, nat>

    constructor ()
      ensures current == map[]
    {
      current := map[];
    }

    /** Lines 92 to 97 (or 432 to 438). */
    method Lookup(cache: TtlCache<V>, call: nat, key: string, at: int, ghost s: System<V>) returns (answer: Answer<V>)
      requires s.pair.s == cache.View() && s.inflight == current
      modifies this, cache
      ensures answer == Ask(s, call, key, at)
      ensures cache.View() == GetFrom(old(cache.View()), key, at).0
      ensures current == if answer.Start? then old(current)[key := call] else old(current)
    {
      var hit := cache.Get(key, at);
      if hit.Some? {
        return Hit(hit.value);
      }
      if key in current {
        return Join(current[key]);
      }
      current := current[key := call];
      return Start(call);
    }

    /** Line 103 (or 453). */
    method Release(key: string)
      modifies this
      ensures current == old(current) - {key}
    {
      current := current - {key};
    }
  }

  /** Every computation that has not been released is the registered one of its key, and the
      records match what has settled. */
  ghost predicate Registered<V>(s: System<V>) {
    && (forall t :: t in s.tasks ==> s.tasks[t].key in s.inflight && s.inflight[s.tasks[t].key] == t)
    && (forall k :: k in s.inflight ==> s.inflight[k] in s.tasks && s.tasks[s.inflight[k]].key == k)
    && (forall t :: t in s.tasks ==> (s.tasks[t].phase == Computing <==> t !in s.done))
    && (forall t :: t in s.tasks && t in s.done ==> s.tasks[t].outcome == Some(s.done[t]))
    && (forall c :: c in s.joined ==> s.joined[c] in s.tasks || s.joined[c] in s.done)
  }

  ghost predicate Cached<V>(s: System<V>, ttlMs: nat, maxEntries: nat) {
    && Agrees(s.pair, s.now, maxEntries)
    && (forall k :: k in s.pair.last ==> s.pair.last[k].expiresAt <= s.now + ttlMs)
  }

  ghost predicate Invariant<V>(s: System<V>, ttlMs: nat, maxEntries: nat) {
    Registered(s) && Cached(s, ttlMs, maxEntries)
  }

  lemma LookupKeepsRegistered<V>(s: System<V>, e: Event<V>, ttlMs: nat, maxEntries: nat)
    requires Registered(s) && Possible(s, e) && e.Lookup?
    ensures Registered(Step(s, e, ttlMs, maxEntries))
  {
    AskFacts(s, e.call, e.key, e.at);
    hide AfterGet, Ask;
  }

  lemma AskFacts<V>(s: System<V>, call: nat, key: string, at: int)
    ensures var a := Ask(s, call, key, at);
            && (a.Join? ==> key in s.inflight && a.task == s.inflight[key])
            && (a.Start? ==> a.task == call && key !in s.inflight)
  {
  }

  lemma SettleKeepsRegistered<V>(s: System<V>, e: Event<V>, ttlMs: nat, maxEntries: nat)
    requires Registered(s) && Possible(s, e) && e.Settle?
    ensures Registered(Step(s, e, ttlMs, maxEntries))
  {
    var next := Step(s, e, ttlMs, maxEntries);
    assert forall t :: t in next.tasks ==> t in s.tasks && next.tasks[t].key == s.tasks[t].key;
  }

  lemma FinishKeepsRegistered<V>(s: System<V>, e: Event<V>, ttlMs: nat, maxEntries: nat)
    requires Registered(s) && Possible(s, e) && e.Finish?
    ensures Registered(Step(s, e, ttlMs, maxEntries))
  {
    hide AfterSet;
    var next := Step(s, e, ttlMs, maxEntries);
    assert forall t :: t in next.tasks ==> t in s.tasks && next.tasks[t].key == s.tasks[t].key;
  }

  lemma ReleaseKeepsRegistered<V>(s: System<V>, e: Event<V>, ttlMs: nat, maxEntries: nat)
    requires Registered(s) && Possible(s, e) && e.Release?
    ensures Registered(Step(s, e, ttlMs, maxEntries))
  {
    var next := Step(s, e, ttlMs, maxEntries);
    assert forall t :: t in next.tasks ==> t in s.tasks && t != e.task;
    assert forall k :: k in next.inflight ==> k in s.inflight && s.inflight[k] != e.task;
  }

  lemma StepKeepsRegistered<V>(s: System<V>, e: Event<V>, ttlMs: nat, maxEntries: nat)
    requires Registered(s) && Possible(s, e)
    ensures Registered(Step(s, e, ttlMs, maxEntries))
  {
    hide Step, Registered;
    match e
    case Lookup(_, _, _) => LookupKeepsRegistered(s, e, ttlMs, maxEntries);
    case Settle(_, _) => SettleKeepsRegistered(s, e, ttlMs, maxEntries);
    case Finish(_, _) => FinishKeepsRegistered(s, e, ttlMs, maxEntries);
    case Release(_) => ReleaseKeepsRegistered(s, e, ttlMs, maxEntries);
  }

  lemma StepKeepsCached<V>(s: System<V>, e: Event<V>, ttlMs: nat, maxEntries: nat)
    requires Cached(s, ttlMs, maxEntries) && Possible(s, e) && maxEntries >= 1
    ensures Cached(Step(s, e, ttlMs, maxEntries), ttlMs, maxEntries)
  {
    match e
    case Lookup(_, key, at) => GetIsRemembered(s.pair, key, at, maxEntries);
    case Settle(_, _) =>
    case Release(_) =>
    case Finish(task, at) =>
      var t := s.tasks[task];
      if t.outcome.Some? && t.outcome.value.Value? {
        SetKeepsAgreement(s.pair, t.key, t.outcome.value.value, at, ttlMs, maxEntries);
      }
  }

  /** What a step never takes back: outcomes, who joined what, and how long a key's last value
      lives. */
  ghost predicate Extends<V>(s: System<V>, next: System<V>) {
    && (forall t :: t in s.done ==> t in next.done && next.done[t] == s.done[t])
    && (forall c :: c in s.joined ==> c in next.joined && next.joined[c] == s.joined[c])
    && (forall k :: k in s.pair.last ==> k in next.pair.last && next.pair.last[k].expiresAt >= s.pair.last[k].expiresAt)
  }

  lemma StepExtends<V>(s: System<V>, e: Event<V>, ttlMs: nat, maxEntries: nat)
    requires Invariant(s, ttlMs, maxEntries) && Possible(s, e)
    ensures Extends(s, Step(s, e, ttlMs, maxEntries))
  {
    hide Agrees, SetIn, GetFrom;
    if e.Lookup? {
      AskFacts(s, e.call, e.key, e.at);
      hide Ask;
    }
  }

  /** Two computations of one key are never unsettled together: they are the same. */
  lemma OneComputationPerKey<V>(s: System<V>, t1: nat, t2: nat)
    requires Registered(s) && t1 in s.tasks && t2 in s.tasks && s.tasks[t1].key == s.tasks[t2].key
    ensures t1 == t2
  {
    assert s.inflight[s.tasks[t1].key] == t1;
  }

  /** A call that joins gets a computation of its own key, and whatever that settles to. */
  lemma JoinerGetsItsKey<V>(s: System<V>, e: Event<V>)
    requires Registered(s) && Possible(s, e) && e.Lookup? && Ask(s, e.call, e.key, e.at).Join?
    ensures var t := Ask(s, e.call, e.key, e.at).task; t in s.tasks && s.tasks[t].key == e.key
  {
  }

  /** A computation starts only when no other is registered for the key and the key's last
      value has expired or was evicted. */
  lemma StartNeedsExpiry<V>(s: System<V>, e: Event<V>, ttlMs: nat, maxEntries: nat)
    requires Invariant(s, ttlMs, maxEntries) && Possible(s, e) && e.Lookup? && Ask(s, e.call, e.key, e.at).Start?
    ensures e.key !in s.inflight
    ensures e.key in s.pair.last ==> s.pair.last[e.key].expiresAt <= e.at || e.key in s.pair.evicted
  {
    GetIsRemembered(s.pair, e.key, e.at, maxEntries);
  }

  /** A failed computation leaves the cache as it was. */
  lemma FailureCachesNothing<V>(s: System<V>, e: Event<V>, ttlMs: nat, maxEntries: nat)
    requires Registered(s) && Possible(s, e) && e.Finish? && s.done[e.task].Error?
    ensures Step(s, e, ttlMs, maxEntries).pair == s.pair
  {
  }

  /** Releasing frees the key: a later call that finds nothing cached starts afresh. */
  lemma ReleaseFreesKey<V>(s: System<V>, e: Event<V>, later: Event<V>, ttlMs: nat, maxEntries: nat)
    requires Possible(s, e) && e.Release? && later.Lookup? && later.key == s.tasks[e.task].key
    ensures var next := Step(s, e, ttlMs, maxEntries);
            GetFrom(next.pair.s, later.key, later.at).1 == None ==> Ask(next, later.call, later.key, later.at).Start?
  {
  }

  ghost predicate PossibleRun<V>(s: System<V>, run: seq<Event<V>>, ttlMs: nat, maxEntries: nat)
    decreases |run|
  {
    run == [] || (Possible(s, run[0]) && PossibleRun(Step(s, run[0], ttlMs, maxEntries), run[1..], ttlMs, maxEntries))
  }

  ghost function After<V>(s: System<V>, run: seq<Event<V>>, ttlMs: nat, maxEntries: nat): System<V>
    requires PossibleRun(s, run, ttlMs, maxEntries)
    decreases |run|
  {
    if run == [] then s else After(Step(s, run[0], ttlMs, maxEntries), run[1..], ttlMs, maxEntries)
  }

  /** Whatever the interleaving, the invariant holds throughout, and neither an outcome nor the
      computation a call joined ever changes: a joiner gets that computation's value or error. */
  lemma {:induction false} RunsKeepInvariant<V>(s: System<V>, run: seq<Event<V>>, ttlMs: nat, maxEntries: nat)
    requires Invariant(s, ttlMs, maxEntries) && PossibleRun(s, run, ttlMs, maxEntries) && maxEntries >= 1
    ensures Invariant(After(s, run, ttlMs, maxEntries), ttlMs, maxEntries)
    ensures Extends(s, After(s, run, ttlMs, maxEntries))
    decreases |run|
  {
    if run != [] {
      StepKeepsRegistered(s, run[0], ttlMs, maxEntries);
      StepKeepsCached(s, run[0], ttlMs, maxEntries);
      StepExtends(s, run[0], ttlMs, maxEntries);
      hide Registered, Cached, Step;
      RunsKeepInvariant(Step(s, run[0], ttlMs, maxEntries), run[1..], ttlMs, maxEntries);
    }
  }

  /** After a computation finished with a value at time T, whatever happens in between, the
      key's next computation starts at T + ttlMs or later, unless the value was evicted. */
  lemma NoStartWithinTtl<V>(s: System<V>, finish: Event<V>, run: seq<Event<V>>, lookup: Event<V>,
                            ttlMs: nat, maxEntries: nat)
    requires Invariant(s, ttlMs, maxEntries) && maxEntries >= 1
    requires Possible(s, finish) && finish.Finish?
    requires s.tasks[finish.task].outcome.Some? && s.tasks[finish.task].outcome.value.Value?
    requires PossibleRun(Step(s, finish, ttlMs, maxEntries), run, ttlMs, maxEntries)
    requires var last := After(Step(s, finish, ttlMs, maxEntries), run, ttlMs, maxEntries);
             && Possible(last, lookup) && lookup.Lookup? && lookup.key == s.tasks[finish.task].key
             && Ask(last, lookup.call, lookup.key, lookup.at).Start?
             && lookup.key !in last.pair.evicted
    ensures lookup.at >= finish.at + ttlMs
  {
    var next := Step(s, finish, ttlMs, maxEntries);
    StepKeepsRegistered(s, finish, ttlMs, maxEntries);
    StepKeepsCached(s, finish, ttlMs, maxEntries);
    assert next.pair.last[lookup.key].expiresAt == finish.at + ttlMs;
    RunsKeepInvariant(next, run, ttlMs, maxEntries);
    StartNeedsExpiry(After(next, run, ttlMs, maxEntries), lookup, ttlMs, maxEntries);
  }

  // What every call gets, read off the events alone.

  /** The key of a call, and so of the computation named after it. */
  function KeyOf<V>(run: seq<Event<V>>, call: nat): Option<string> {
    if run == [] then None
    else
      var e := run[|run| - 1];
      if e.Lookup? && e.call == call then Some(e.key) else KeyOf(run[..|run| - 1], call)
  }

  /** What a computation settled to. */
  function SettledTo<V>(run: seq<Event<V>>, task: nat): Option<Outcome<V>> {
    if run == [] then None
    else
      var e := run[|run| - 1];
      if e.Settle? && e.task == task then Some(e.outcome) else SettledTo(run[..|run| - 1], task)
  }

  /** What the last computation of the key to finish with a value settled to, with the end of the
      value's life. */
  function LastValue<V>(run: seq<Event<V>>, key: string, ttlMs: nat): Option<Entry<V>> {
    if run == [] then None
    else
      var e, before := run[|run| - 1], run[..|run| - 1];
      if e.Finish? && KeyOf(before, e.task) == Some(key) && GaveValue(SettledTo(before, e.task)) then
        Some(Entry(SettledTo(before, e.task).value.value, e.at + ttlMs))
      else LastValue(before, key, ttlMs)
  }

  predicate GaveValue<V>(outcome: Option<Outcome<V>>) {
    outcome.Some? && outcome.value.Value?
  }

  function DoneAs<V>(s: System<V>, task: nat): Option<Outcome<V>> {
    if task in s.done then Some(s.done[task]) else None
  }

  ghost predicate TasksFit<V>(s: System<V>, run: seq<Event<V>>) {
    forall t :: t in s.tasks ==> KeyOf(run, t) == Some(s.tasks[t].key) && s.tasks[t].outcome == SettledTo(run, t)
  }

  ghost predicate DoneFits<V>(s: System<V>, run: seq<Event<V>>) {
    forall t :: DoneAs(s, t) == SettledTo(run, t)
  }

  ghost predicate JoinedFits<V>(s: System<V>, run: seq<Event<V>>) {
    forall c :: c in s.joined ==> KeyOf(run, c).Some? && KeyOf(run, s.joined[c]) == KeyOf(run, c)
  }

  ghost predicate Tasked<V>(s: System<V>, run: seq<Event<V>>) {
    TasksFit(s, run) && DoneFits(s, run) && JoinedFits(s, run)
  }

  ghost predicate Valued<V>(s: System<V>, run: seq<Event<V>>, ttlMs: nat) {
    forall key :: Noted(s.pair, key) == LastValue(run, key, ttlMs)
  }

  lemma KeySnoc<V>(run: seq<Event<V>>, e: Event<V>, call: nat)
    ensures KeyOf(run + [e], call) == if e.Lookup? && e.call == call then Some(e.key) else KeyOf(run, call)
    ensures SettledTo(run + [e], call) == if e.Settle? && e.task == call then Some(e.outcome) else SettledTo(run, call)
  {
    assert (run + [e])[..|run|] == run;
  }

  lemma ValueSnoc<V>(run: seq<Event<V>>, e: Event<V>, key: string, ttlMs: nat)
    ensures LastValue(run + [e], key, ttlMs)
         == if e.Finish? && KeyOf(run, e.task) == Some(key) && GaveValue(SettledTo(run, e.task)) then
              Some(Entry(SettledTo(run, e.task).value.value, e.at + ttlMs))
            else LastValue(run, key, ttlMs)
  {
    assert (run + [e])[..|run|] == run;
  }

  lemma StepDone<V>(s: System<V>, run: seq<Event<V>>, e: Event<V>, ttlMs: nat, maxEntries: nat)
    requires DoneFits(s, run) && Possible(s, e)
    ensures DoneFits(Step(s, e, ttlMs, maxEntries), run + [e])
  {
    var next := Step(s, e, ttlMs, maxEntries);
    assert next.done == if e.Settle? then s.done[e.task := e.outcome] else s.done by {
      hide AfterGet, AfterSet, SettledTo;
    }
    hide Step, Possible;
    forall t ensures DoneAs(next, t) == SettledTo(run + [e], t) {
      KeySnoc(run, e, t);
      assert DoneAs(s, t) == SettledTo(run, t);
    }
  }

  /** The tasks and the joins of the next state are the old ones, but for the call a lookup adds. */
  lemma StepTables<V>(s: System<V>, e: Event<V>, ttlMs: nat, maxEntries: nat)
    requires Registered(s) && Possible(s, e)
    ensures var next := Step(s, e, ttlMs, maxEntries);
            && (forall t :: t in next.tasks ==>
                  (t in s.tasks && next.tasks[t].key == s.tasks[t].key)
                  || (e.Lookup? && t == e.call && next.tasks[t] == Task(e.key, Computing, None)))
            && (forall t :: t in next.tasks && t in s.tasks ==>
                  next.tasks[t].outcome == if e.Settle? && e.task == t then Some(e.outcome) else s.tasks[t].outcome)
            && (forall c :: c in next.joined ==>
                  (c in s.joined && next.joined[c] == s.joined[c])
                  || (e.Lookup? && c == e.call && next.joined[c] in s.tasks && s.tasks[next.joined[c]].key == e.key))
  {
    hide AfterGet, AfterSet;
    match e
    case Lookup(call, key, at) =>
      AskFacts(s, call, key, at);
      hide Ask;
    case Settle(_, _) => hide Registered;
    case Finish(_, _) => hide Registered;
    case Release(_) => hide Registered;
  }

  lemma StepTasks<V>(s: System<V>, run: seq<Event<V>>, e: Event<V>, ttlMs: nat, maxEntries: nat)
    requires Registered(s) && TasksFit(s, run) && DoneFits(s, run) && Possible(s, e)
    ensures TasksFit(Step(s, e, ttlMs, maxEntries), run + [e])
  {
    StepTables(s, e, ttlMs, maxEntries);
    var next := Step(s, e, ttlMs, maxEntries);
    hide Step, Registered, KeyOf, SettledTo;
    forall t | t in next.tasks
      ensures KeyOf(run + [e], t) == Some(next.tasks[t].key) && next.tasks[t].outcome == SettledTo(run + [e], t)
    {
      KeySnoc(run, e, t);
      assert DoneAs(s, t) == SettledTo(run, t);
    }
  }

  lemma StepJoined<V>(s: System<V>, run: seq<Event<V>>, e: Event<V>, ttlMs: nat, maxEntries: nat)
    requires Registered(s) && TasksFit(s, run) && JoinedFits(s, run) && Possible(s, e)
    ensures JoinedFits(Step(s, e, ttlMs, maxEntries), run + [e])
  {
    StepTables(s, e, ttlMs, maxEntries);
    var next := Step(s, e, ttlMs, maxEntries);
    hide Step, KeyOf, SettledTo;
    forall c | c in next.joined
      ensures KeyOf(run + [e], c).Some? && KeyOf(run + [e], next.joined[c]) == KeyOf(run + [e], c)
    {
      KeySnoc(run, e, c);
      KeySnoc(run, e, next.joined[c]);
      if c in s.joined {
        assert s.joined[c] in s.tasks || s.joined[c] in s.done;
      }
    }
  }

  lemma StepTasked<V>(s: System<V>, run: seq<Event<V>>, e: Event<V>, ttlMs: nat, maxEntries: nat)
    requires Registered(s) && Tasked(s, run) && Possible(s, e)
    ensures Tasked(Step(s, e, ttlMs, maxEntries), run + [e])
  {
    hide Registered, Possible, Step, TasksFit, DoneFits, JoinedFits;
    StepDone(s, run, e, ttlMs, maxEntries);
    StepTasks(s, run, e, ttlMs, maxEntries);
    StepJoined(s, run, e, ttlMs, maxEntries);
  }

  lemma StepValued<V>(s: System<V>, run: seq<Event<V>>, e: Event<V>, ttlMs: nat, maxEntries: nat)
    requires TasksFit(s, run) && Valued(s, run, ttlMs) && Possible(s, e)
    ensures Valued(Step(s, e, ttlMs, maxEntries), run + [e], ttlMs)
  {
    var next := Step(s, e, ttlMs, maxEntries);
    forall key ensures Noted(next.pair, key) == LastValue(run + [e], key, ttlMs) {
      ValueSnoc(run, e, key, ttlMs);
      assert Noted(s.pair, key) == LastValue(run, key, ttlMs);
      hide KeyOf, SettledTo, LastValue, Ask, SetIn, GetFrom, Victim;
    }
  }

  /** A cache with nothing in it, and no call yet. */
  function Idle<V>(now: int): System<V> {
    System(Pair(Store([], map[]), map[], {}), map[], map[], map[], map[], now)
  }

  lemma {:induction false} RunsFollow<V>(s: System<V>, before: seq<Event<V>>, run: seq<Event<V>>, ttlMs: nat,
                                         maxEntries: nat)
    requires Registered(s) && Tasked(s, before) && Valued(s, before, ttlMs) && PossibleRun(s, run, ttlMs, maxEntries)
    ensures var last := After(s, run, ttlMs, maxEntries);
            Tasked(last, before + run) && Valued(last, before + run, ttlMs)
    decreases |run|
  {
    if run == [] {
      assert before + run == before;
    } else {
      var e := run[0];
      StepKeepsRegistered(s, e, ttlMs, maxEntries);
      StepValued(s, before, e, ttlMs, maxEntries);
      StepTasked(s, before, e, ttlMs, maxEntries);
      hide Registered, Tasked, Valued, Step, Possible;
      RunsFollow(Step(s, e, ttlMs, maxEntries), before + [e], run[1..], ttlMs, maxEntries);
      assert before + [e] + run[1..] == before + run;
    }
  }

  lemma IdleFits<V>(now: int, ttlMs: nat, maxEntries: nat)
    ensures var s: System<V> := Idle(now);
            Invariant(s, ttlMs, maxEntries) && Tasked(s, []) && Valued(s, [], ttlMs)
  {
  }

  /** Over every run of an idle cache: a lookup is answered from the cache exactly while the value
      that the key's last computation to finish settled to lives and was not evicted, and then
      with that value. */
  lemma CacheAnswersLastValue<V>(start: int, run: seq<Event<V>>, lookup: Event<V>, ttlMs: nat, maxEntries: nat)
    requires maxEntries >= 1 && PossibleRun(Idle(start), run, ttlMs, maxEntries)
    requires Possible(After(Idle(start), run, ttlMs, maxEntries), lookup) && lookup.Lookup?
    ensures var s := After(Idle(start), run, ttlMs, maxEntries);
            var answer := Ask(s, lookup.call, lookup.key, lookup.at);
            var latest := LastValue(run, lookup.key, ttlMs);
            && (answer.Hit? <==> latest.Some? && latest.value.expiresAt > lookup.at && lookup.key !in s.pair.evicted)
            && (answer.Hit? ==> answer.value == latest.value.value)
  {
    var s := After(Idle(start), run, ttlMs, maxEntries);
    IdleFits<V>(start, ttlMs, maxEntries);
    RunsKeepInvariant(Idle(start), run, ttlMs, maxEntries);
    RunsFollow(Idle(start), [], run, ttlMs, maxEntries);
    assert [] + run == run;
    assert Noted(s.pair, lookup.key) == LastValue(run, lookup.key, ttlMs);
    hide Registered, After, GetFrom, LastValue, PossibleRun, Agrees;
    AgreesLater(s.pair, s.now, lookup.at, maxEntries);
    GetIsRemembered(s.pair, lookup.key, lookup.at, maxEntries);
  }

  /** Over every run: a call that joined gets what the computation of its own key settled to, as
      the settling said, once it has. */
  lemma JoinersGetTheOutcome<V>(start: int, run: seq<Event<V>>, call: nat, ttlMs: nat, maxEntries: nat)
    requires maxEntries >= 1 && PossibleRun(Idle(start), run, ttlMs, maxEntries)
    ensures var s := After(Idle(start), run, ttlMs, maxEntries);
            call in s.joined ==>
              && KeyOf(run, s.joined[call]) == KeyOf(run, call) && KeyOf(run, call).Some?
              && DoneAs(s, s.joined[call]) == SettledTo(run, s.joined[call])
  {
    var s := After(Idle(start), run, ttlMs, maxEntries);
    IdleFits<V>(start, ttlMs, maxEntries);
    RunsFollow(Idle(start), [], run, ttlMs, maxEntries);
    assert [] + run == run;
    hide After, KeyOf, SettledTo, PossibleRun;
  }
}
