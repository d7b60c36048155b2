/** The lists kept in the browser (src/lib/storage.ts, lines 58-77): recently used markets and
    the watchlist. Ids are already trimmed; an id of only blanks is the empty string. */
module StoredLists {
  import opened Lists

  const MAX_RECENTS: nat := 12

  function Take<T>(s: seq<T>, n: nat): seq<T> {
    if |s| <= n then s else s[..n]
  }

  function Pushed(recents: seq<string>, id: string): seq<string> {
    if id == "" then recents else Take([id] + Without(recents, id), MAX_RECENTS)
  }

  function Toggled(watched: seq<string>, id: string): seq<string> {
    if id == "" then watched else if id in watched then Without(watched, id) else [id] + watched
  }

  /** The two stored lists. `written` tells whether the browser accepted the write. */
  class Storage {
    var recents: seq<string>
    var watched: seq<string>

    constructor ()
      ensures recents == [] && watched == []
    {
      recents, watched := [], [];
    }

    method PushRecent(id: string, written: bool) returns (next: seq<string>)
      modifies this`recents
      ensures next == Pushed(old(recents), id) && recents == if written then next else old(recents)
    {
      if id == "" {
        return recents;
      }
      next := Take([id] + Without(recents, id), MAX_RECENTS);
      if written {
        recents := next;
      }
    }

    method ToggleWatch(id: string, written: bool) returns (next: seq<string>)
      modifies this`watched
      ensures next == Toggled(old(watched), id) && watched == if written then next else old(watched)
    {
      if id == "" {
        return watched;
      }
      next := if id in watched then Without(watched, id) else [id] + watched;
      if written {
        watched := next;
      }
    }
  }

  function Recents(history: seq<string>): seq<string> {
    if history == [] then [] else Pushed(Recents(history[..|history| - 1]), history[|history| - 1])
  }

  function Watched(history: seq<string>): seq<string> {
    if history == [] then [] else Toggled(Watched(history[..|history| - 1]), history[|history| - 1])
  }

  /** When an id was last used; -1 if never. */
  function LastUse(history: seq<string>, id: string): (n: int)
    ensures -1 <= n < |history| && (n >= 0 ==> history[n] == id)
  {
    if history == [] then -1
    else if history[|history| - 1] == id then |history| - 1
    else LastUse(history[..|history| - 1], id)
  }

  /** Most recently used first. */
  ghost predicate Descending(history: seq<string>, ids: seq<string>) {
    ids == [] ||
    ((forall x :: x in ids[1..] ==> LastUse(history, ids[0]) > LastUse(history, x)) && Descending(history, ids[1..]))
  }

  /** `ids` are the MAX_RECENTS most recently used ids of the history, in order. */
  ghost predicate MostRecent(history: seq<string>, ids: seq<string>) {
    && |ids| <= MAX_RECENTS && Distinct(ids) && Descending(history, ids)
    && (forall x :: x in ids ==> x != "" && LastUse(history, x) >= 0)
    && (forall y :: y != "" && LastUse(history, y) >= 0 && y !in ids ==>
          |ids| == MAX_RECENTS && forall x :: x in ids ==> LastUse(history, x) > LastUse(history, y))
  }

  lemma {:induction false} DescendingWithout(history: seq<string>, ids: seq<string>, id: string)
    requires Descending(history, ids)
    ensures Descending(history, Without(ids, id))
  {
    if ids != [] {
      DescendingWithout(history, ids[1..], id);
      WithoutMembers(ids[1..], id);
      assert ([ids[0]] + Without(ids[1..], id))[1..] == Without(ids[1..], id);
    }
  }

  lemma {:induction false} DescendingTake(history: seq<string>, ids: seq<string>, n: nat)
    requires Descending(history, ids) && Distinct(ids)
    ensures Descending(history, Take(ids, n)) && Distinct(Take(ids, n))
    ensures forall x, y :: x in Take(ids, n) && y in ids && y !in Take(ids, n) ==>
                             LastUse(history, x) > LastUse(history, y)
    ensures forall x :: x in Take(ids, n) ==> x in ids
    decreases n
  {
    if ids != [] && n > 0 {
      DescendingTake(history, ids[1..], n - 1);
      assert Take(ids, n) == [ids[0]] + Take(ids[1..], n - 1);
      assert Take(ids, n)[1..] == Take(ids[1..], n - 1);
      assert forall y :: y in ids <==> y == ids[0] || y in ids[1..];
    }
  }

  /** Using another id does not change the order of the rest. */
  lemma {:induction false} DescendingLater(history: seq<string>, id: string, ids: seq<string>)
    requires Descending(history, ids) && id !in ids
    ensures Descending(history + [id], ids)
  {
    if ids != [] {
      LastUseLater(history, id);
      DescendingLater(history, id, ids[1..]);
    }
  }

  lemma LastUseLater(history: seq<string>, id: string)
    ensures forall x :: LastUse(history + [id], x) == if x == id then |history| else LastUse(history, x)
  {
    assert (history + [id])[..|history|] == history;
  }

  lemma PushKeepsMostRecent(history: seq<string>, ids: seq<string>, id: string)
    requires MostRecent(history, ids) && id != ""
    ensures MostRecent(history + [id], Pushed(ids, id))
  {
    var all := [id] + Without(ids, id);
    PushedOrder(history, ids, id);
    LastUseLater(history, id);
    StillRanked(history, ids, id);
    hide Descending, Distinct, Without, LastUse, Take;
    DescendingTake(history + [id], all, MAX_RECENTS);
  }

  /** Before the cut, the pushed list is in order and has every id it had. */
  lemma PushedOrder(history: seq<string>, ids: seq<string>, id: string)
    requires MostRecent(history, ids)
    ensures var all := [id] + Without(ids, id);
            && Descending(history + [id], all) && Distinct(all)
            && (forall x :: x in all <==> x == id || x in ids)
            && (|all| > MAX_RECENTS ==> |ids| == MAX_RECENTS)
  {
    var rest := Without(ids, id);
    WithoutMembers(ids, id);
    WithoutDistinct(ids, id);
    DescendingWithout(history, ids, id);
    DescendingLater(history, id, rest);
    LastUseLater(history, id);
    assert ([id] + rest)[1..] == rest;
    hide Without, LastUse;
  }

  /** An id dropped earlier stays behind everything that is kept. */
  lemma StillRanked(history: seq<string>, ids: seq<string>, id: string)
    requires MostRecent(history, ids) && id != ""
    ensures var next := Pushed(ids, id);
            forall y :: y != "" && y != id && LastUse(history, y) >= 0 && y !in ids ==>
              |next| == MAX_RECENTS && forall x :: x in next && x != id ==> LastUse(history, x) > LastUse(history, y)
  {
    var rest := Without(ids, id);
    WithoutMembers(ids, id);
    WithoutDistinct(ids, id);
    var all := [id] + rest;
    assert forall x :: x in Pushed(ids, id) ==> x in all;
    assert forall x :: x in all ==> x == id || x in rest;
    hide Descending, Distinct, Without, LastUse;
  }

  /** Any run of pushes, from an empty store on, leaves exactly the twelve most recently used
      ids, each once, in order. */
  lemma {:induction false} RecentsAreMostRecent(history: seq<string>)
    ensures MostRecent(history, Recents(history))
  {
    if history != [] {
      var n := |history| - 1;
      RecentsAreMostRecent(history[..n]);
      assert history == history[..n] + [history[n]];
      if history[n] != "" {
        PushKeepsMostRecent(history[..n], Recents(history[..n]), history[n]);
      } else {
        LastUseLater(history[..n], "");
        SameOrder(history[..n], "", Recents(history[..n]));
      }
    }
  }

  lemma SameOrder(history: seq<string>, id: string, ids: seq<string>)
    requires MostRecent(history, ids) && id == ""
    ensures MostRecent(history + [id], ids)
  {
    DescendingLater(history, id, ids);
    LastUseLater(history, id);
    hide Descending, Distinct, LastUse;
  }

  function Uses(history: seq<string>, id: string): nat {
    if history == [] then 0
    else Uses(history[..|history| - 1], id) + (if history[|history| - 1] == id then 1 else 0)
  }

  /** An id is watched exactly when it was toggled an odd number of times, and then once. */
  lemma {:induction false} WatchedIsParity(history: seq<string>, id: string)
    requires id != ""
    ensures Distinct(Watched(history))
    ensures id in Watched(history) <==> Uses(history, id) % 2 == 1
  {
    if history != [] {
      var n := |history| - 1;
      var before, last := Watched(history[..n]), history[n];
      WatchedIsParity(history[..n], id);
      WithoutMembers(before, last);
      WithoutDistinct(before, last);
      assert ([last] + before)[1..] == before;
      assert id in [last] + before <==> id == last || id in before;
      hide Without, Distinct;
    }
  }

  /** The watched ids are in the order in which they were put on the list, the latest first. */
  lemma {:induction false} WatchedIsOrdered(history: seq<string>)
    ensures Descending(history, Watched(history))
  {
    if history != [] {
      var n := |history| - 1;
      var before, id := history[..n], history[n];
      var watched := Watched(before);
      assert history == before + [id];
      WatchedIsOrdered(before);
      if id in watched {
        DescendingWithout(before, watched, id);
      }
      WithoutMembers(watched, id);
      LastUseLater(before, id);
      if id == "" {
        BlankIsNotWatched(before);
        DescendingLater(before, id, watched);
      } else {
        DescendingLater(before, id, if id in watched then Without(watched, id) else watched);
        assert ([id] + watched)[1..] == watched;
      }
    }
  }

  lemma {:induction false} BlankIsNotWatched(history: seq<string>)
    ensures "" !in Watched(history)
  {
    if history != [] {
      BlankIsNotWatched(history[..|history| - 1]);
      WithoutMembers(Watched(history[..|history| - 1]), history[|history| - 1]);
    }
  }
}
