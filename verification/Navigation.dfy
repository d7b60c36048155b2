/** The desktop navigation bar (`desktopEntries` of src/lib/navigation.ts, lines 83-101). */
module Navigation {

  datatype Group = Community | More | Trade | Ungrouped

  datatype Item = Item(href: string, name: string, active: bool, group: Group)

  datatype Entry =
    | Link(item: Item, xlOnly: bool)
    | Menu(group: Group, items: seq<Item>, active: bool, belowXl: bool)

  /** `items.filter((i) => i.group === g)`. */
  function Members(items: seq<Item>, g: Group): seq<Item> {
    if items == [] then []
    else if items[0].group == g then [items[0]] + Members(items[1..], g)
    else Members(items[1..], g)
  }

  predicate AnyActive(items: seq<Item>) {
    items != [] && (items[0].active || AnyActive(items[1..]))
  }

  /** How often an item is in a list. */
  function Count(items: seq<Item>, x: Item): nat {
    if items == [] then 0 else Count(items[..|items| - 1], x) + (if items[|items| - 1] == x then 1 else 0)
  }

  /** How often one can reach an item at the xl breakpoint, or below it: some links and menus
      show on one side of it only. */
  function Shown(entries: seq<Entry>, xl: bool, x: Item): nat {
    if entries == [] then 0
    else Shown(entries[..|entries| - 1], xl, x) + ShownBy(entries[|entries| - 1], xl, x)
  }

  function ShownBy(e: Entry, xl: bool, x: Item): nat {
    match e
    case Link(item, xlOnly) => if item == x && (xlOnly ==> xl) then 1 else 0
    case Menu(_, items, _, belowXl) => if belowXl && xl then 0 else Count(items, x)
  }

  lemma ShownSnoc(entries: seq<Entry>, e: Entry, xl: bool, x: Item)
    ensures Shown(entries + [e], xl, x) == Shown(entries, xl, x) + ShownBy(e, xl, x)
  {
    assert (entries + [e])[..|entries|] == entries;
  }

  lemma {:induction false} CountCons(items: seq<Item>, y: Item, x: Item)
    ensures Count([y] + items, x) == Count(items, x) + (if y == x then 1 else 0)
  {
    if items == [] {
      assert [y] + items == [y];
    } else {
      var n := |items| - 1;
      assert ([y] + items)[..n + 1] == [y] + items[..n];
      CountCons(items[..n], y, x);
    }
  }

  /** A group's members include every occurrence of an item of that group. */
  lemma {:induction false} MembersCount(items: seq<Item>, g: Group, x: Item)
    ensures Count(Members(items, g), x) == if x.group == g then Count(items, x) else 0
  {
    if items != [] {
      MembersCount(items[1..], g, x);
      CountCons(items[1..], items[0], x);
      CountCons(Members(items[1..], g), items[0], x);
      assert items == [items[0]] + items[1..];
    }
  }

  predicate HasGroup(items: seq<Item>, g: Group) {
    exists i :: 0 <= i < |items| && items[i].group == g
  }

  predicate IsMenuGroup(g: Group) {
    g == Community || g == Trade
  }

  /** How often the entries for the first `n` items show `x`: all of its occurrences once the
      menu of its group is placed, or else those so far that show as links. */
  ghost function Expected(items: seq<Item>, n: nat, xl: bool, x: Item): nat
    requires n <= |items|
  {
    if IsMenuGroup(x.group) then (if HasGroup(items[..n], x.group) then Count(items, x) else 0)
    else if x.group == More && !xl then 0
    else Count(items[..n], x)
  }

  /** Which of the two always-grouped menus have been placed after `n` items. */
  ghost predicate IsPlaced(items: seq<Item>, n: nat, placed: set<Group>)
    requires n <= |items|
  {
    forall g :: g in placed <==> IsMenuGroup(g) && HasGroup(items[..n], g)
  }

  /** The entry that an item adds, if any. */
  function EntryFor(items: seq<Item>, item: Item): Entry {
    if IsMenuGroup(item.group)
    then Menu(item.group, Members(items, item.group), AnyActive(Members(items, item.group)), false)
    else Link(item, item.group == More)
  }

  /** The items at whose place the bar has an entry: all but the later ones of a menu. */
  ghost function Leaders(items: seq<Item>, n: nat): seq<Item>
    requires n <= |items|
  {
    if n == 0 then []
    else
      var x := items[n - 1];
      Leaders(items, n - 1) + if IsMenuGroup(x.group) && HasGroup(items[..n - 1], x.group) then [] else [x]
  }

  /** An entry at the place of `x`: its link, or the menu of its group, which is active exactly when
      an item of the group is. */
  ghost predicate IsEntryOf(e: Entry, items: seq<Item>, x: Item) {
    match e
    case Link(item, xlOnly) => item == x && !IsMenuGroup(x.group) && (xlOnly <==> x.group == More)
    case Menu(g, members, active, belowXl) =>
      && IsMenuGroup(g) && g == x.group && !belowXl && members == Members(items, g)
      && (active <==> HasActive(items, g))
  }

  ghost predicate HasActive(items: seq<Item>, g: Group) {
    exists x :: x in items && x.group == g && x.active
  }

  ghost predicate AreEntriesOf(out: seq<Entry>, items: seq<Item>, places: seq<Item>) {
    |out| == |places| && forall k :: 0 <= k < |out| ==> IsEntryOf(out[k], items, places[k])
  }

  lemma {:induction false} ActiveMembers(items: seq<Item>, g: Group)
    ensures AnyActive(Members(items, g)) <==> HasActive(items, g)
  {
    if items != [] {
      ActiveMembers(items[1..], g);
      assert forall x :: x in items <==> x == items[0] || x in items[1..];
    }
  }

  lemma EntryIsEntryOf(items: seq<Item>, x: Item)
    ensures IsEntryOf(EntryFor(items, x), items, x)
  {
    ActiveMembers(items, x.group);
  }

  /** Every item shows as often as it is listed, once for each time, at the xl breakpoint and
      below it; the entries stand in the order of the items, and below it the rest is in one more
      menu at the end. */
  method DesktopEntries(items: seq<Item>) returns (out: seq<Entry>)
    ensures forall xl: bool, x: Item :: Shown(out, xl, x) == Count(items, x)
    ensures var more := Members(items, More);
            if more == [] then AreEntriesOf(out, items, Leaders(items, |items|))
            else
              && out != [] && AreEntriesOf(out[..|out| - 1], items, Leaders(items, |items|))
              && out[|out| - 1] == Menu(More, more, HasActive(items, More), true)
  {
    out := [];
    var more := Members(items, More);
    var placed: set<Group> := {};
    for n := 0 to |items|
      invariant forall xl: bool, x: Item :: Shown(out, xl, x) == Expected(items, n, xl, x)
      invariant IsPlaced(items, n, placed)
      invariant AreEntriesOf(out, items, Leaders(items, n))
    {
      var entry := EntryFor(items, items[n]);
      ghost var next := if entry.Link? || entry.group !in placed then out + [entry] else out;
      forall xl: bool, x: Item ensures Shown(next, xl, x) == Expected(items, n + 1, xl, x) {
        StepShows(items, n, placed, out, xl, x);
      }
      StepPlaces(items, n, placed);
      EntryIsEntryOf(items, items[n]);
      assert entry.Menu? ==> (entry.group in placed <==> HasGroup(items[..n], items[n].group));
      hide IsEntryOf, HasGroup, Members, Shown, Expected, IsPlaced, EntryFor;
      if entry.Link? || entry.group !in placed {
        out := out + [entry];
      }
      if entry.Menu? {
        placed := placed + {entry.group};
      }
    }
    var menu := Menu(More, more, AnyActive(more), true);
    ghost var all := if more == [] then out else out + [menu];
    forall xl: bool, x: Item ensures Shown(all, xl, x) == Count(items, x) {
      LastMenu(items, out, xl, x);
    }
    ActiveMembers(items, More);
    hide AnyActive, Members, Shown, IsEntryOf;
    if more != [] {
      out := out + [menu];
    }
  }

  lemma LastMenu(items: seq<Item>, out: seq<Entry>, xl: bool, x: Item)
    requires Shown(out, xl, x) == Expected(items, |items|, xl, x)
    ensures var more := Members(items, More);
            Shown(if more == [] then out else out + [Menu(More, more, AnyActive(more), true)], xl, x) == Count(items, x)
  {
    var more := Members(items, More);
    assert items[..|items|] == items;
    ShownSnoc(out, Menu(More, more, AnyActive(more), true), xl, x);
    MembersCount(items, More, x);
    if !HasGroup(items, x.group) {
      AbsentGroup(items, x);
    }
    hide Members, Shown;
  }

  lemma {:induction false} AbsentGroup(items: seq<Item>, x: Item)
    requires !HasGroup(items, x.group)
    ensures Count(items, x) == 0
  {
    if items != [] {
      AbsentGroup(items[..|items| - 1], x);
    }
  }

  lemma StepShows(items: seq<Item>, n: nat, placed: set<Group>, out: seq<Entry>, xl: bool, x: Item)
    requires n < |items| && IsPlaced(items, n, placed) && Shown(out, xl, x) == Expected(items, n, xl, x)
    ensures var e := EntryFor(items, items[n]);
            Shown(if e.Link? || e.group !in placed then out + [e] else out, xl, x) == Expected(items, n + 1, xl, x)
  {
    var y := items[n];
    ShownSnoc(out, EntryFor(items, y), xl, x);
    GroupsStep(items, n, x.group);
    assert items[..n + 1][..n] == items[..n];
    assert Count(items[..n + 1], x) == Count(items[..n], x) + (if y == x then 1 else 0);
    MembersCount(items, y.group, x);
    hide Members, Shown, HasGroup, Count;
  }

  lemma GroupsStep(items: seq<Item>, n: nat, g: Group)
    requires n < |items|
    ensures HasGroup(items[..n + 1], g) <==> HasGroup(items[..n], g) || items[n].group == g
  {
    if HasGroup(items[..n], g) {
      var i :| 0 <= i < n && items[..n][i].group == g;
      assert items[..n + 1][i].group == g;
    }
    if items[n].group == g {
      assert items[..n + 1][n].group == g;
    }
    if HasGroup(items[..n + 1], g) && items[n].group != g {
      var i :| 0 <= i < n + 1 && items[..n + 1][i].group == g;
      assert items[..n][i].group == g;
    }
  }

  lemma StepPlaces(items: seq<Item>, n: nat, placed: set<Group>)
    requires n < |items| && IsPlaced(items, n, placed)
    ensures var e := EntryFor(items, items[n]);
            IsPlaced(items, n + 1, if e.Menu? then placed + {e.group} else placed)
  {
    forall g ensures HasGroup(items[..n + 1], g) <==> HasGroup(items[..n], g) || items[n].group == g {
      GroupsStep(items, n, g);
    }
  }
}
