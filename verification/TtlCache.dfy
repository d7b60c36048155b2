/** The bounded cache with expiry (`TtlCache.get` and `set` of src/lib/rate-limit.ts) against a
    cache that never forgets what was last set. */
module TtlCache {
  import opened Wrappers
  import opened Lists

  datatype Entry<V> = Entry(value: V, expiresAt: int)

  /** A JavaScript Map: its entries, and its keys in the order they were first inserted. */
  datatype Store<V> = Store(keys: seq<string>, entries: map<string, Entry<V>>)

  ghost predicate WellFormed<V>(s: Store<V>) {
    Distinct(s.keys) && forall k :: k in s.keys <==> k in s.entries
  }

  function Delete<V>(s: Store<V>, key: string): Store<V> {
    Store(Without(s.keys, key), s.entries - {key})
  }

  /** `Map.set`: an overwritten key keeps its place. */
  function Put<V>(s: Store<V>, key: string, e: Entry<V>): Store<V> {
    Store(if key in s.entries then s.keys else s.keys + [key], s.entries[key := e])
  }

  predicate IsLive<V>(entries: map<string, Entry<V>>, key: string, now: int) {
    key in entries && entries[key].expiresAt > now
  }

  /** The keys whose entries are live, in order. */
  function LiveKeys<V>(keys: seq<string>, entries: map<string, Entry<V>>, now: int): seq<string> {
    if keys == [] then []
    else if IsLive(entries, keys[0], now) then [keys[0]] + LiveKeys(keys[1..], entries, now)
    else LiveKeys(keys[1..], entries, now)
  }

  lemma {:induction false} LiveKeysMembers<V>(keys: seq<string>, entries: map<string, Entry<V>>, now: int)
    ensures forall k :: k in LiveKeys(keys, entries, now) <==> k in keys && IsLive(entries, k, now)
    ensures |LiveKeys(keys, entries, now)| <= |keys|
  {
    if keys != [] {
      LiveKeysMembers(keys[1..], entries, now);
      assert forall k :: k in keys <==> k == keys[0] || k in keys[1..];
      var rest := LiveKeys(keys[1..], entries, now);
      assert forall k :: k in [keys[0]] + rest <==> k == keys[0] || k in rest;
    }
  }

  lemma {:induction false} LiveKeysDistinct<V>(keys: seq<string>, entries: map<string, Entry<V>>, now: int)
    requires Distinct(keys)
    ensures Distinct(LiveKeys(keys, entries, now))
  {
    if keys != [] {
      LiveKeysDistinct(keys[1..], entries, now);
      LiveKeysMembers(keys[1..], entries, now);
      assert ([keys[0]] + LiveKeys(keys[1..], entries, now))[1..] == LiveKeys(keys[1..], entries, now);
    }
  }

  /** Line 81. */
  function Purged<V>(s: Store<V>, now: int): Store<V> {
    Store(LiveKeys(s.keys, s.entries, now), map k | k in s.entries && s.entries[k].expiresAt > now :: s.entries[k])
  }

  /** The key that line 84 evicts: the oldest one, if the purge left no room. */
  function Victim<V>(s: Store<V>, now: int, maxEntries: nat): Option<string> {
    if |s.keys| < maxEntries then None
    else
      var p := Purged(s, now);
      if |p.keys| >= maxEntries && p.keys != [] then Some(p.keys[0]) else None
  }

  function GetFrom<V>(s: Store<V>, key: string, now: int): (Store<V>, Option<V>) {
    if key !in s.entries then (s, None)
    else if s.entries[key].expiresAt <= now then (Delete(s, key), None)
    else (s, Some(s.entries[key].value))
  }

  /** The store after lines 80 to 86: what the purge and the eviction leave. */
  function Trimmed<V>(s: Store<V>, now: int, maxEntries: nat): Store<V> {
    var purged := if |s.keys| >= maxEntries then Purged(s, now) else s;
    match Victim(s, now, maxEntries) case Some(k) => Delete(purged, k) case None => purged
  }

  function SetIn<V>(s: Store<V>, key: string, value: V, now: int, ttlMs: nat, maxEntries: nat): Store<V> {
    Put(Trimmed(s, now, maxEntries), key, Entry(value, now + ttlMs))
  }

  /** The fields of one cache. */
  class TtlCache<V> {
    var keys: seq<string>
    var entries: map<string, Entry<V>>
    const ttlMs: nat
    const maxEntries: nat

    ghost function View(): Store<V>
      reads this
    {
      Store(keys, entries)
    }

    constructor (ttlMs: nat, maxEntries: nat)
      ensures View() == Store([], map[]) && this.ttlMs == ttlMs && this.maxEntries == maxEntries
    {
      keys, entries, this.ttlMs, this.maxEntries := [], map[], ttlMs, maxEntries;
    }

    method Get(key: string, now: int) returns (r: Option<V>)
      modifies this
      ensures (View(), r) == GetFrom(old(View()), key, now)
    {
      if key !in entries {
        return None;
      }
      if entries[key].expiresAt <= now {
        Remove(key);
        return None;
      }
      return Some(entries[key].value);
    }

    method Remove(key: string)
      modifies this
      ensures View() == Delete(old(View()), key)
    {
      keys, entries := Without(keys, key), entries - {key};
    }

    method Set(key: string, value: V, now: int)
      requires WellFormed(View())
      modifies this
      ensures View() == SetIn(old(View()), key, value, now, ttlMs, maxEntries)
    {
      if |keys| >= maxEntries {
        Purge(now);
        if |keys| >= maxEntries && keys != [] {
          Remove(keys[0]);
        }
      }
      if key !in entries {
        keys := keys + [key];
      }
      entries := entries[key := Entry(value, now + ttlMs)];
    }

    /** The loop of line 81, over the keys in insertion order. */
    method Purge(now: int)
      requires WellFormed(View())
      modifies this
      ensures View() == Purged(old(View()), now)
    {
      var all := keys;
      var live := [];
      ghost var before := entries;
      var i := 0;
      hide LiveKeys;
      while i < |all|
        invariant 0 <= i <= |all|
        invariant live + LiveKeys(all[i..], before, now) == LiveKeys(all, before, now)
        invariant entries == Pending(before, all[i..], now)
      {
        DistinctDrop(all, i);
        PurgeStep(all, before, now, i);
        if entries[all[i]].expiresAt <= now {
          entries := entries - {all[i]};
        } else {
          assert live + [all[i]] + LiveKeys(all[i + 1..], before, now)
              == live + ([all[i]] + LiveKeys(all[i + 1..], before, now));
          live := live + [all[i]];
        }
        i := i + 1;
      }
      keys := live;
      PurgeEnds(all, before, now);
      assert all[i..] == [];
    }
  }

  /** The entries left while the keys `todo` have not been looked at. */
  ghost function Pending<V>(before: map<string, Entry<V>>, todo: seq<string>, now: int): map<string, Entry<V>> {
    map k | k in before && (k in todo || before[k].expiresAt > now) :: before[k]
  }

  lemma PurgeStep<V>(all: seq<string>, before: map<string, Entry<V>>, now: int, i: nat)
    requires i < |all| && all[i] !in all[i + 1..] && all[i] in before
    ensures LiveKeys(all[i..], before, now)
         == (if IsLive(before, all[i], now) then [all[i]] else []) + LiveKeys(all[i + 1..], before, now)
    ensures all[i] in Pending(before, all[i..], now)
    ensures Pending(before, all[i + 1..], now)
         == if IsLive(before, all[i], now) then Pending(before, all[i..], now)
            else Pending(before, all[i..], now) - {all[i]}
  {
    var tail := all[i..];
    assert tail[1..] == all[i + 1..] && tail == [all[i]] + all[i + 1..];
    assert forall k :: k in tail <==> k == all[i] || k in all[i + 1..];
  }

  lemma PurgeEnds<V>(all: seq<string>, before: map<string, Entry<V>>, now: int)
    ensures Store(LiveKeys(all, before, now), Pending(before, [], now)) == Purged(Store(all, before), now)
    ensures LiveKeys([], before, now) == []
    ensures all[0..] == all && ((forall k :: k in all <==> k in before) ==> Pending(before, all, now) == before)
  {
  }

  // Agreement with an unbounded cache.

  /** The cache beside the last entry ever set for each key, and the keys evicted since they
      were last set. */
  datatype Pair<V> = Pair(s: Store<V>, last: map<string, Entry<V>>, evicted: set<string>)

  /** What a cache that forgets nothing would say. */
  function Remembered<V>(p: Pair<V>, key: string, now: int): Option<V> {
    if key in p.last && p.last[key].expiresAt > now then Some(p.last[key].value) else None
  }

  function AfterGet<V>(p: Pair<V>, key: string, now: int): Pair<V> {
    p.(s := GetFrom(p.s, key, now).0)
  }

  function AfterSet<V>(p: Pair<V>, key: string, value: V, now: int, ttlMs: nat, maxEntries: nat): Pair<V> {
    var gone := match Victim(p.s, now, maxEntries) case Some(k) => {k} case None => {};
    Pair(SetIn(p.s, key, value, now, ttlMs, maxEntries), p.last[key := Entry(value, now + ttlMs)],
         (p.evicted + gone) - {key})
  }

  ghost predicate Agrees<V>(p: Pair<V>, now: int, maxEntries: nat) {
    && WellFormed(p.s) && |p.s.keys| <= maxEntries && Faithful(p, now)
  }

  /** Every entry is the last one set, and every live one that was not evicted is there. */
  ghost predicate Faithful<V>(p: Pair<V>, now: int) {
    && (forall k :: k in p.s.entries ==> k in p.last && p.last[k] == p.s.entries[k] && k !in p.evicted)
    && (forall k :: k in p.last && p.last[k].expiresAt > now && k !in p.evicted ==> k in p.s.entries)
  }

  /** `get` returns the last value set for the key exactly when it has not expired and was not
      evicted since. */
  lemma GetIsRemembered<V>(p: Pair<V>, key: string, now: int, maxEntries: nat)
    requires Agrees(p, now, maxEntries)
    ensures GetFrom(p.s, key, now).1 == if key in p.evicted then None else Remembered(p, key, now)
    ensures Agrees(AfterGet(p, key, now), now, maxEntries)
  {
    DeleteKeepsShape(p.s, key);
  }

  lemma PurgeKeepsShape<V>(s: Store<V>, now: int)
    requires WellFormed(s)
    ensures WellFormed(Purged(s, now)) && |Purged(s, now).keys| <= |s.keys|
  {
    LiveKeysMembers(s.keys, s.entries, now);
    LiveKeysDistinct(s.keys, s.entries, now);
  }

  lemma DeleteKeepsShape<V>(s: Store<V>, key: string)
    requires WellFormed(s)
    ensures WellFormed(Delete(s, key)) && |Delete(s, key).keys| == |s.keys| - (if key in s.entries then 1 else 0)
  {
    WithoutMembers(s.keys, key);
    WithoutDistinct(s.keys, key);
  }

  lemma PutKeepsShape<V>(s: Store<V>, key: string, e: Entry<V>)
    requires WellFormed(s)
    ensures WellFormed(Put(s, key, e)) && |Put(s, key, e).keys| == |s.keys| + (if key in s.entries then 0 else 1)
  {
    if key !in s.entries {
      AppendDistinct(s.keys, key);
      assert forall k :: k in s.keys + [key] <==> k in s.keys || k == key;
    }
  }

  lemma TrimKeepsShape<V>(s: Store<V>, now: int, maxEntries: nat)
    requires WellFormed(s) && |s.keys| <= maxEntries && maxEntries >= 1
    ensures WellFormed(Trimmed(s, now, maxEntries)) && |Trimmed(s, now, maxEntries).keys| < maxEntries
  {
    PurgeKeepsShape(s, now);
    var p := Purged(s, now);
    if Victim(s, now, maxEntries).Some? {
      assert p.keys[0] in p.keys;
      DeleteKeepsShape(p, p.keys[0]);
    }
  }

  /** Making room loses expired entries and the victim, and nothing else. */
  lemma TrimKeepsEntries<V>(s: Store<V>, now: int, maxEntries: nat)
    ensures var t := Trimmed(s, now, maxEntries);
            && (forall k :: k in t.entries ==> k in s.entries && t.entries[k] == s.entries[k])
            && (forall k :: k in s.entries && s.entries[k].expiresAt > now && k !in t.entries
                            ==> Victim(s, now, maxEntries) == Some(k))
            && (forall k :: Victim(s, now, maxEntries) == Some(k) ==> k !in t.entries)
  {
  }

  lemma SetKeepsFaith<V>(p: Pair<V>, key: string, value: V, now: int, ttlMs: nat, maxEntries: nat)
    requires Faithful(p, now)
    ensures Faithful(AfterSet(p, key, value, now, ttlMs, maxEntries), now)
  {
    TrimKeepsEntries(p.s, now, maxEntries);
    hide Trimmed, Victim;
  }

  lemma SetKeepsAgreement<V>(p: Pair<V>, key: string, value: V, now: int, ttlMs: nat, maxEntries: nat)
    requires Agrees(p, now, maxEntries) && maxEntries >= 1
    ensures Agrees(AfterSet(p, key, value, now, ttlMs, maxEntries), now, maxEntries)
  {
    SetKeepsFaith(p, key, value, now, ttlMs, maxEntries);
    TrimKeepsShape(p.s, now, maxEntries);
    PutKeepsShape(Trimmed(p.s, now, maxEntries), key, Entry(value, now + ttlMs));
    hide Trimmed, Victim, Distinct, Faithful, Put;
  }

  /** A live entry is evicted only if all of `maxEntries` live entries are still there after
      the purge, and then it is the one inserted first. */
  lemma EvictionNeedsFullCache<V>(s: Store<V>, now: int, maxEntries: nat)
    requires WellFormed(s) && |s.keys| <= maxEntries && maxEntries >= 1 && Victim(s, now, maxEntries).Some?
    ensures |s.keys| == maxEntries && (forall k :: k in s.entries ==> s.entries[k].expiresAt > now)
    ensures Victim(s, now, maxEntries).value == s.keys[0]
  {
    LiveKeysMembers(s.keys, s.entries, now);
    AllLive(s.keys, s.entries, now);
  }

  /** Dropping no key means every key was live. */
  lemma {:induction false} AllLive<V>(keys: seq<string>, entries: map<string, Entry<V>>, now: int)
    requires |LiveKeys(keys, entries, now)| == |keys|
    ensures LiveKeys(keys, entries, now) == keys
    ensures forall k :: k in keys ==> k in entries && entries[k].expiresAt > now
  {
    if keys != [] {
      LiveKeysMembers(keys[1..], entries, now);
      AllLive(keys[1..], entries, now);
    }
  }

  datatype Op<V> = GetOp(key: string, now: int) | SetOp(key: string, value: V, now: int)

  function Apply<V>(p: Pair<V>, op: Op<V>, ttlMs: nat, maxEntries: nat): Pair<V> {
    match op
    case GetOp(key, now) => AfterGet(p, key, now)
    case SetOp(key, value, now) => AfterSet(p, key, value, now, ttlMs, maxEntries)
  }

  function ApplyAll<V>(p: Pair<V>, ops: seq<Op<V>>, ttlMs: nat, maxEntries: nat): Pair<V>
    decreases |ops|
  {
    if ops == [] then p else ApplyAll(Apply(p, ops[0], ttlMs, maxEntries), ops[1..], ttlMs, maxEntries)
  }

  ghost predicate Clock<V>(ops: seq<Op<V>>, now: int) {
    ops == [] || (now <= ops[0].now && Clock(ops[1..], ops[0].now))
  }

  function Latest<V>(ops: seq<Op<V>>, now: int): int {
    if ops == [] then now else ops[|ops| - 1].now
  }

  /** After any run of gets and sets, from an empty cache on, the cache still agrees with the
      unbounded one, and never holds more than `maxEntries` entries. */
  lemma {:induction false} RunsAgree<V>(p: Pair<V>, ops: seq<Op<V>>, ttlMs: nat, maxEntries: nat, now: int)
    requires Agrees(p, now, maxEntries) && maxEntries >= 1 && Clock(ops, now)
    ensures Agrees(ApplyAll(p, ops, ttlMs, maxEntries), Latest(ops, now), maxEntries)
    decreases |ops|
  {
    if ops != [] {
      var op := ops[0];
      match op {
        case GetOp(key, at) => GetIsRemembered(p, key, at, maxEntries);
        case SetOp(key, value, at) => SetKeepsAgreement(p, key, value, at, ttlMs, maxEntries);
      }
      RunsAgree(Apply(p, op, ttlMs, maxEntries), ops[1..], ttlMs, maxEntries, op.now);
    }
  }

  // What a get answers, read off the operations alone.

  /** The last set of the key, with the end of its life. */
  function LastSet<V>(ops: seq<Op<V>>, key: string, ttlMs: nat): Option<Entry<V>> {
    if ops == [] then None
    else
      var op := ops[|ops| - 1];
      if op.SetOp? && op.key == key then Some(Entry(op.value, op.now + ttlMs))
      else LastSet(ops[..|ops| - 1], key, ttlMs)
  }

  function Noted<V>(p: Pair<V>, key: string): Option<Entry<V>> {
    if key in p.last then Some(p.last[key]) else None
  }

  ghost predicate Follows<V>(p: Pair<V>, ops: seq<Op<V>>, ttlMs: nat) {
    forall key :: Noted(p, key) == LastSet(ops, key, ttlMs)
  }

  lemma {:induction false} RunsFollow<V>(p: Pair<V>, before: seq<Op<V>>, ops: seq<Op<V>>, ttlMs: nat, maxEntries: nat)
    requires Follows(p, before, ttlMs)
    ensures Follows(ApplyAll(p, ops, ttlMs, maxEntries), before + ops, ttlMs)
    decreases |ops|
  {
    if ops == [] {
      assert before + ops == before;
    } else {
      var next := Apply(p, ops[0], ttlMs, maxEntries);
      hide SetIn, GetFrom, Victim;
      forall key ensures Noted(next, key) == LastSet(before + [ops[0]], key, ttlMs) {
        assert (before + [ops[0]])[..|before|] == before;
        assert Noted(p, key) == LastSet(before, key, ttlMs);
      }
      hide Apply, LastSet, Noted;
      RunsFollow(next, before + [ops[0]], ops[1..], ttlMs, maxEntries);
      assert before + [ops[0]] + ops[1..] == before + ops;
    }
  }

  /** After any run of gets and sets of an empty cache, a get answers the last value set for the
      key exactly while that lives, unless the key was evicted since. */
  lemma GetAnswersLastSet<V>(ops: seq<Op<V>>, key: string, ttlMs: nat, maxEntries: nat, start: int, now: int)
    requires maxEntries >= 1 && Clock(ops, start) && now >= Latest(ops, start)
    ensures var p := ApplyAll(Pair(Store([], map[]), map[], {}), ops, ttlMs, maxEntries);
            var latest := LastSet(ops, key, ttlMs);
            GetFrom(p.s, key, now).1
            == if latest.Some? && latest.value.expiresAt > now && key !in p.evicted then Some(latest.value.value)
               else None
  {
    var empty: Pair<V> := Pair(Store([], map[]), map[], {});
    var p := ApplyAll(empty, ops, ttlMs, maxEntries);
    assert Agrees(empty, start, maxEntries);
    RunsAgree(empty, ops, ttlMs, maxEntries, start);
    AgreesLater(p, Latest(ops, start), now, maxEntries);
    RunsFollow(empty, [], ops, ttlMs, maxEntries);
    assert [] + ops == ops;
    hide Agrees, ApplyAll, GetFrom, LastSet;
    GetIsRemembered(p, key, now, maxEntries);
    assert Noted(p, key) == LastSet(ops, key, ttlMs);
  }

  lemma AgreesLater<V>(p: Pair<V>, now: int, later: int, maxEntries: nat)
    requires Agrees(p, now, maxEntries) && now <= later
    ensures Agrees(p, later, maxEntries)
  {
  }

  /** Only the victim of a set becomes evicted, and a key that is set is not. */
  lemma OnlyVictimsAreEvicted<V>(p: Pair<V>, op: Op<V>, ttlMs: nat, maxEntries: nat, key: string)
    ensures key in Apply(p, op, ttlMs, maxEntries).evicted && key !in p.evicted ==>
              op.SetOp? && Victim(p.s, op.now, maxEntries) == Some(key)
    ensures op.SetOp? && op.key == key ==> key !in Apply(p, op, ttlMs, maxEntries).evicted
  {
    hide SetIn, GetFrom, Victim;
  }
}
