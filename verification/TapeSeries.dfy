/** The cumulative YES share of the trade tape (`deriveTapeSeries` of
    src/components/TapeSparkline.tsx), over the reals. */
module TapeSeries {
  import opened Wrappers
  import opened Lists

  datatype Side = Yes | No

  /** A tape row; time and size may be missing (a time that is not finite counts as missing). */
  datatype Trade = Trade(side: Option<Side>, blockTime: Option<real>, shares: Option<real>)

  /** A row that has a side and a time. */
  datatype Row = Row(yes: bool, time: real, shares: Option<real>)

  datatype Basis = ByShares | ByPrints

  datatype Point = Point(t: real, yesProb: real, basis: Basis)

  predicate IsUsable(t: Trade) {
    t.side.Some? && t.blockTime.Some?
  }

  /** Line 23. */
  function Usable(items: seq<Trade>): seq<Row> {
    if items == [] then []
    else if IsUsable(items[0]) then
      [Row(items[0].side.value == Yes, items[0].blockTime.value, items[0].shares)] + Usable(items[1..])
    else Usable(items[1..])
  }

  /** Line 26. */
  function BasisOf(rows: seq<Row>): Basis {
    if forall r :: r in rows ==> r.shares.Some? then ByShares else ByPrints
  }

  function Weight(r: Row, basis: Basis): real {
    if basis == ByShares then r.shares.GetOr(0.0) else 1.0
  }

  /** The weight of the rows at or before `t`, all of them or only the YES ones. */
  function WeightUpTo(rows: seq<Row>, basis: Basis, t: real, onlyYes: bool): real {
    if rows == [] then 0.0
    else
      (if rows[0].time <= t && (onlyYes ==> rows[0].yes) then Weight(rows[0], basis) else 0.0)
      + WeightUpTo(rows[1..], basis, t, onlyYes)
  }

  function Ratio(yes: real, total: real): real {
    if total > 0.0 then yes / total else 0.5
  }

  /** The YES share of the flow at or before `t`. */
  function ShareAt(rows: seq<Row>, basis: Basis, t: real): real {
    Ratio(WeightUpTo(rows, basis, t, true), WeightUpTo(rows, basis, t, false))
  }

  ghost predicate Increasing(out: seq<Point>) {
    forall i, j :: 0 <= i < j < |out| ==> out[i].t < out[j].t
  }

  ghost predicate HasPoint(out: seq<Point>, t: real) {
    exists i :: 0 <= i < |out| && out[i].t == t
  }

  ghost predicate HasRow(rows: seq<Row>, t: real) {
    exists r :: r in rows && r.time == t
  }

  /** One point for each time at which there is a row, in order of time, each with the share of
      the flow up to then. */
  ghost predicate IsSeries(out: seq<Point>, rows: seq<Row>, basis: Basis) {
    && Increasing(out)
    && (forall t :: HasPoint(out, t) <==> HasRow(rows, t))
    && (forall i :: 0 <= i < |out| ==> out[i].basis == basis && out[i].yesProb == ShareAt(rows, basis, out[i].t))
  }

  ghost predicate TwoTimes(rows: seq<Row>) {
    exists r, s :: r in rows && s in rows && r.time != s.time
  }

  /** What the tape should yield. */
  ghost predicate Derived(items: seq<Trade>, out: seq<Point>) {
    var rows := Usable(items);
    if TwoTimes(rows) then IsSeries(out, rows, BasisOf(rows)) else out == []
  }

  // The same, told by the trades.

  /** A trade with a side, at a known time. */
  predicate TradedAt(x: Trade, t: real) {
    x.side.Some? && x.blockTime == Some(t)
  }

  ghost predicate HasTrade(items: seq<Trade>, t: real) {
    exists x :: x in items && TradedAt(x, t)
  }

  ghost predicate AllSized(items: seq<Trade>) {
    forall x :: x in items && x.side.Some? && x.blockTime.Some? ==> x.shares.Some?
  }

  /** What was traded at or before `t`, on one side: by size, or by number of trades. */
  function Traded(items: seq<Trade>, side: Side, t: real, bySize: bool): real {
    if items == [] then 0.0
    else
      var x := items[0];
      var w := if bySize then x.shares.GetOr(0.0) else 1.0;
      (if x.side == Some(side) && x.blockTime.Some? && x.blockTime.value <= t then w else 0.0)
      + Traded(items[1..], side, t, bySize)
  }

  /** Trades at two times or more: a point for each, with the YES part of all that was traded by
      then, sizes counting if every one is known. Otherwise nothing. */
  ghost predicate Charts(items: seq<Trade>, out: seq<Point>) {
    if exists t1, t2 :: HasTrade(items, t1) && HasTrade(items, t2) && t1 != t2 then
      && Increasing(out)
      && (forall t :: HasPoint(out, t) <==> HasTrade(items, t))
      && (forall p :: p in out ==>
            var yes, no := Traded(items, Yes, p.t, AllSized(items)), Traded(items, No, p.t, AllSized(items));
            && (p.basis == ByShares <==> AllSized(items))
            && p.yesProb == if yes + no > 0.0 then yes / (yes + no) else 0.5)
    else out == []
  }

  lemma {:induction false} UsableMembers(items: seq<Trade>, r: Row)
    ensures r in Usable(items) <==>
              exists x :: x in items && TradedAt(x, r.time) && r.yes == (x.side == Some(Yes)) && r.shares == x.shares
  {
    if items != [] {
      UsableMembers(items[1..], r);
      assert forall x :: x in items <==> x == items[0] || x in items[1..];
    }
  }

  lemma RowsAreTrades(items: seq<Trade>, t: real)
    ensures HasRow(Usable(items), t) <==> HasTrade(items, t)
  {
    if HasRow(Usable(items), t) {
      var r :| r in Usable(items) && r.time == t;
      UsableMembers(items, r);
    }
    if HasTrade(items, t) {
      var x :| x in items && TradedAt(x, t);
      UsableMembers(items, Row(x.side == Some(Yes), t, x.shares));
    }
  }

  lemma BasisBySize(items: seq<Trade>)
    ensures BasisOf(Usable(items)) == ByShares <==> AllSized(items)
  {
    forall x | x in items && x.side.Some? && x.blockTime.Some?
      ensures Row(x.side == Some(Yes), x.blockTime.value, x.shares) in Usable(items)
    {
      UsableMembers(items, Row(x.side == Some(Yes), x.blockTime.value, x.shares));
    }
    forall r | r in Usable(items)
      ensures exists x :: x in items && TradedAt(x, r.time) && r.shares == x.shares
    {
      UsableMembers(items, r);
    }
  }

  lemma {:induction false} WeightsAreTraded(items: seq<Trade>, basis: Basis, t: real)
    ensures WeightUpTo(Usable(items), basis, t, true) == Traded(items, Yes, t, basis == ByShares)
    ensures WeightUpTo(Usable(items), basis, t, false)
         == Traded(items, Yes, t, basis == ByShares) + Traded(items, No, t, basis == ByShares)
  {
    if items != [] {
      WeightsAreTraded(items[1..], basis, t);
      if IsUsable(items[0]) {
        assert Usable(items)[1..] == Usable(items[1..]);
      }
    }
  }

  lemma DerivedCharts(items: seq<Trade>, out: seq<Point>)
    ensures Derived(items, out) <==> Charts(items, out)
  {
    var rows := Usable(items);
    forall t ensures HasRow(rows, t) <==> HasTrade(items, t) {
      RowsAreTrades(items, t);
    }
    BasisBySize(items);
    forall t ensures WeightUpTo(rows, BasisOf(rows), t, true) == Traded(items, Yes, t, AllSized(items))
                  && WeightUpTo(rows, BasisOf(rows), t, false)
                     == Traded(items, Yes, t, AllSized(items)) + Traded(items, No, t, AllSized(items)) {
      WeightsAreTraded(items, BasisOf(rows), t);
    }
    assert TwoTimes(rows) <==> exists t1, t2 :: HasTrade(items, t1) && HasTrade(items, t2) && t1 != t2 by {
      if TwoTimes(rows) {
        var r, s :| r in rows && s in rows && r.time != s.time;
        assert HasRow(rows, r.time) && HasRow(rows, s.time);
      }
    }
    hide Usable, WeightUpTo, Traded, HasRow, HasTrade, HasPoint, AllSized, BasisOf, TwoTimes;
  }

  // Sorting by time, which keeps rows of equal time in order.

  ghost predicate Sorted(rows: seq<Row>) {
    rows == [] || ((forall r :: r in rows[1..] ==> rows[0].time <= r.time) && Sorted(rows[1..]))
  }

  lemma {:induction false} SortedBefore(rows: seq<Row>, n: nat)
    requires Sorted(rows) && n < |rows|
    ensures forall i :: 0 <= i < n ==> rows[i].time <= rows[n].time
  {
    if n > 0 {
      SortedBefore(rows[1..], n - 1);
      assert rows[n] == rows[1..][n - 1];
      assert forall i :: 1 <= i < n ==> rows[i] == rows[1..][i - 1];
    }
  }

  function Insert(r: Row, rows: seq<Row>): seq<Row> {
    if rows == [] || r.time <= rows[0].time then [r] + rows else [rows[0]] + Insert(r, rows[1..])
  }

  function SortByTime(rows: seq<Row>): seq<Row> {
    if rows == [] then [] else Insert(rows[0], SortByTime(rows[1..]))
  }

  lemma {:induction false} InsertMembers(r: Row, rows: seq<Row>)
    ensures multiset(Insert(r, rows)) == multiset(rows) + multiset{r}
    ensures forall x :: x in Insert(r, rows) <==> x in rows || x == r
  {
    if rows != [] {
      var rest := Insert(r, rows[1..]);
      InsertMembers(r, rows[1..]);
      assert rows == [rows[0]] + rows[1..];
      assert forall x :: x in rows <==> x == rows[0] || x in rows[1..];
      assert forall x :: x in [rows[0]] + rest <==> x == rows[0] || x in rest;
    }
  }

  lemma {:induction false} InsertSorts(r: Row, rows: seq<Row>)
    requires Sorted(rows)
    ensures Sorted(Insert(r, rows))
  {
    if rows != [] {
      if r.time <= rows[0].time {
        assert ([r] + rows)[1..] == rows;
        assert forall x :: x in rows ==> x == rows[0] || x in rows[1..];
      } else {
        InsertSorts(r, rows[1..]);
        InsertMembers(r, rows[1..]);
        assert ([rows[0]] + Insert(r, rows[1..]))[1..] == Insert(r, rows[1..]);
      }
    }
  }

  lemma {:induction false} SortByTimeSorts(rows: seq<Row>)
    ensures Sorted(SortByTime(rows)) && multiset(SortByTime(rows)) == multiset(rows)
  {
    if rows != [] {
      SortByTimeSorts(rows[1..]);
      InsertSorts(rows[0], SortByTime(rows[1..]));
      InsertMembers(rows[0], SortByTime(rows[1..]));
      assert rows == [rows[0]] + rows[1..];
    }
  }

  // The sums.

  lemma {:induction false} WeightSnoc(rows: seq<Row>, r: Row, basis: Basis, t: real, onlyYes: bool)
    ensures WeightUpTo(rows + [r], basis, t, onlyYes)
         == WeightUpTo(rows, basis, t, onlyYes)
          + (if r.time <= t && (onlyYes ==> r.yes) then Weight(r, basis) else 0.0)
  {
    if rows == [] {
      assert rows + [r] == [r];
    } else {
      assert (rows + [r])[1..] == rows[1..] + [r];
      WeightSnoc(rows[1..], r, basis, t, onlyYes);
    }
  }

  /** Past the last row the sums stay the same. */
  lemma {:induction false} WeightSaturates(rows: seq<Row>, basis: Basis, t: real, later: real, onlyYes: bool)
    requires t <= later && forall i :: 0 <= i < |rows| ==> rows[i].time <= t
    ensures WeightUpTo(rows, basis, t, onlyYes) == WeightUpTo(rows, basis, later, onlyYes)
  {
    if rows != [] {
      WeightSaturates(rows[1..], basis, t, later, onlyYes);
    }
  }

  /** The sums do not depend on the order of the rows. */
  lemma {:induction false} WeightPermutes(a: seq<Row>, b: seq<Row>, basis: Basis, t: real, onlyYes: bool)
    requires multiset(a) == multiset(b)
    ensures WeightUpTo(a, basis, t, onlyYes) == WeightUpTo(b, basis, t, onlyYes)
  {
    if a == [] {
      assert |multiset(b)| == 0;
    } else {
      var before, after := FindHead(a, b);
      WeightPermutes(a[1..], before + after, basis, t, onlyYes);
      WeightMoves(before, a[0], after, basis, t, onlyYes);
      assert ([a[0]] + (before + after))[1..] == before + after;
    }
  }

  lemma {:induction false} WeightMoves(before: seq<Row>, r: Row, after: seq<Row>, basis: Basis, t: real, onlyYes: bool)
    ensures WeightUpTo(before + [r] + after, basis, t, onlyYes) == WeightUpTo([r] + (before + after), basis, t, onlyYes)
  {
    if before == [] {
      assert before + [r] + after == [r] + (before + after);
    } else {
      WeightMoves(before[1..], r, after, basis, t, onlyYes);
      assert (before + [r] + after)[1..] == before[1..] + [r] + after;
      assert ([r] + (before + after))[1..] == before + after;
      assert (before + after)[1..] == before[1..] + after;
      assert ([r] + (before[1..] + after))[1..] == before[1..] + after;
    }
  }

  // The loop.

  /** Lines 30 to 38 on one more row `r`, no earlier than the others. */
  lemma SeriesGrows(out: seq<Point>, rows: seq<Row>, r: Row, basis: Basis)
    requires IsSeries(out, rows, basis) && (forall i :: 0 <= i < |rows| ==> rows[i].time <= r.time)
    ensures IsSeries(WithPoint(out, Point(r.time, ShareAt(rows + [r], basis, r.time), basis)), rows + [r], basis)
  {
    var p := Point(r.time, ShareAt(rows + [r], basis, r.time), basis);
    var kept := if out != [] && out[|out| - 1].t == p.t then out[..|out| - 1] else out;
    var next, all := kept + [p], rows + [r];
    forall i | 0 <= i < |kept| ensures kept[i].t < r.time && kept[i].yesProb == ShareAt(all, basis, kept[i].t) {
      assert kept[i] == out[i] && HasPoint(out, out[i].t);
      var s :| s in rows && s.time == out[i].t;
      assert out != [] ==> HasPoint(out, out[|out| - 1].t);
      WeightSnoc(rows, r, basis, out[i].t, true);
      WeightSnoc(rows, r, basis, out[i].t, false);
    }
    forall t ensures HasPoint(next, t) <==> HasRow(all, t) {
      SameTimes(out, kept, p, rows, r, t);
    }
  }

  lemma SameTimes(out: seq<Point>, kept: seq<Point>, p: Point, rows: seq<Row>, r: Row, t: real)
    requires p.t == r.time && (HasPoint(out, t) <==> HasRow(rows, t))
    requires kept == (if out != [] && out[|out| - 1].t == p.t then out[..|out| - 1] else out)
    ensures HasPoint(kept + [p], t) <==> HasRow(rows + [r], t)
  {
    var next, all := kept + [p], rows + [r];
    assert next[|kept|] == p && all[|rows|] == r;
    if t != r.time {
      if HasPoint(next, t) {
        var i :| 0 <= i < |next| && next[i].t == t;
        assert out[i].t == t;
      }
      if HasPoint(out, t) {
        var i :| 0 <= i < |out| && out[i].t == t;
        assert next[i].t == t;
      }
      assert forall x :: x in all && x != r ==> x in rows;
      assert forall x :: x in rows ==> x in all;
    }
  }

  /** Lines 35 to 37. */
  function WithPoint(out: seq<Point>, p: Point): seq<Point> {
    if out != [] && out[|out| - 1].t == p.t then out[..|out| - 1] + [p] else out + [p]
  }

  method DeriveTapeSeries(items: seq<Trade>) returns (result: seq<Point>)
    ensures Derived(items, result) && Charts(items, result)
  {
    var rows := SortByTime(Usable(items));
    SortByTimeSorts(Usable(items));
    SameSize(rows, Usable(items));
    if |rows| < 2 {
      assert forall r :: r in rows ==> r == rows[0];
      DerivedCharts(items, []);
      return [];
    }
    hide IsSeries, Sorted, SortByTime, Usable, Charts;
    var out := Accumulate(rows, BasisOf(rows));
    SeriesPermutes(out, rows, Usable(items), BasisOf(rows));
    TwoPoints(out, Usable(items), BasisOf(rows));
    result := if |out| >= 2 then out else [];
    DerivedCharts(items, result);
  }

  /** Lines 27 to 38. */
  method Accumulate(rows: seq<Row>, basis: Basis) returns (out: seq<Point>)
    requires Sorted(rows)
    ensures IsSeries(out, rows, basis)
  {
    hide IsSeries, WeightUpTo, Sorted;
    var yes, total := 0.0, 0.0;
    out := [];
    NoSeries(basis);
    for n := 0 to |rows|
      invariant IsSeries(out, rows[..n], basis)
      invariant yes == RunningTotal(rows, n, basis, true) && total == RunningTotal(rows, n, basis, false)
    {
      RunningSum(rows, n, basis, true);
      RunningSum(rows, n, basis, false);
      SortedBefore(rows, n);
      SeriesGrows(out, rows[..n], rows[n], basis);
      assert rows[..n + 1] == rows[..n] + [rows[n]];
      hide WithPoint;
      var w := Weight(rows[n], basis);
      total := total + w;
      if rows[n].yes {
        yes := yes + w;
      }
      out := WithPoint(out, Point(rows[n].time, Ratio(yes, total), basis));
    }
    assert rows[..|rows|] == rows;
  }

  /** The weight of the first `n` rows. */
  ghost function RunningTotal(rows: seq<Row>, n: nat, basis: Basis, onlyYes: bool): real
    requires n <= |rows|
  {
    if n == 0 then 0.0 else WeightUpTo(rows[..n], basis, rows[n - 1].time, onlyYes)
  }

  lemma NoSeries(basis: Basis)
    ensures IsSeries([], [], basis)
  {
  }

  /** What a running sum is after row `n`. */
  lemma RunningSum(rows: seq<Row>, n: nat, basis: Basis, onlyYes: bool)
    requires Sorted(rows) && n < |rows|
    ensures WeightUpTo(rows[..n] + [rows[n]], basis, rows[n].time, onlyYes)
         == RunningTotal(rows, n, basis, onlyYes) + (if onlyYes ==> rows[n].yes then Weight(rows[n], basis) else 0.0)
    ensures RunningTotal(rows, n + 1, basis, onlyYes) == WeightUpTo(rows[..n] + [rows[n]], basis, rows[n].time, onlyYes)
  {
    assert rows[..n + 1] == rows[..n] + [rows[n]];
    WeightSnoc(rows[..n], rows[n], basis, rows[n].time, onlyYes);
    if n > 0 {
      SortedBefore(rows, n);
      SortedBefore(rows, n - 1);
      WeightSaturates(rows[..n], basis, rows[n - 1].time, rows[n].time, onlyYes);
    }
  }

  /** A series of some rows is a series of the same rows in any order. */
  lemma SeriesPermutes(out: seq<Point>, a: seq<Row>, b: seq<Row>, basis: Basis)
    requires IsSeries(out, a, basis) && multiset(a) == multiset(b)
    ensures IsSeries(out, b, basis)
  {
    SameSize(a, b);
    forall i | 0 <= i < |out| ensures out[i].yesProb == ShareAt(b, basis, out[i].t) {
      WeightPermutes(a, b, basis, out[i].t, true);
      WeightPermutes(a, b, basis, out[i].t, false);
    }
    assert forall t :: HasRow(a, t) <==> HasRow(b, t);
  }

  /** A series has two points exactly when its rows have two times. */
  lemma TwoPoints(out: seq<Point>, rows: seq<Row>, basis: Basis)
    requires IsSeries(out, rows, basis)
    ensures |out| >= 2 <==> TwoTimes(rows)
  {
    if |out| >= 2 {
      assert HasPoint(out, out[0].t) && HasPoint(out, out[1].t);
      assert HasRow(rows, out[0].t) && HasRow(rows, out[1].t);
    }
    if TwoTimes(rows) {
      var r, s :| r in rows && s in rows && r.time != s.time;
      assert HasRow(rows, r.time) && HasRow(rows, s.time);
      assert HasPoint(out, r.time) && HasPoint(out, s.time);
    }
  }

  // The result depends on the rows only as a collection.

  /** Two series of the same rows are equal. */
  lemma {:induction false} SeriesIsUnique(a: seq<Point>, b: seq<Point>, rows: seq<Row>, basis: Basis)
    requires IsSeries(a, rows, basis) && IsSeries(b, rows, basis)
    ensures a == b
  {
    TimesAgree(a, b);
    forall i | 0 <= i < |a| ensures a[i] == b[i] {
      assert a[i].t == b[i].t;
    }
  }

  /** Increasing sequences with the same times have them at the same places. */
  lemma {:induction false} TimesAgree(a: seq<Point>, b: seq<Point>)
    requires Increasing(a) && Increasing(b) && forall t :: HasPoint(a, t) <==> HasPoint(b, t)
    ensures |a| == |b| && forall i :: 0 <= i < |a| ==> a[i].t == b[i].t
  {
    assert b != [] ==> HasPoint(b, b[0].t);
    if a != [] {
      assert HasPoint(a, a[0].t) && HasPoint(b, a[0].t);
      assert b != [] && HasPoint(b, b[0].t) && HasPoint(a, b[0].t);
      assert a[0].t == b[0].t;
      forall t ensures HasPoint(a[1..], t) <==> HasPoint(b[1..], t) {
        RestHasPoint(a, t);
        RestHasPoint(b, t);
      }
      TimesAgree(a[1..], b[1..]);
      forall i | 0 <= i < |a| ensures a[i].t == b[i].t {
        assert i > 0 ==> a[i] == a[1..][i - 1] && b[i] == b[1..][i - 1];
      }
    }
  }

  lemma RestHasPoint(a: seq<Point>, t: real)
    requires a != [] && Increasing(a)
    ensures HasPoint(a[1..], t) <==> HasPoint(a, t) && t != a[0].t
  {
    if HasPoint(a, t) && t != a[0].t {
      var i :| 0 <= i < |a| && a[i].t == t;
      assert a[1..][i - 1].t == t;
    }
    if HasPoint(a[1..], t) {
      var i :| 0 <= i < |a[1..]| && a[1..][i].t == t;
      assert a[i + 1].t == t;
    }
  }

  lemma {:induction false} UsablePermutes(a: seq<Trade>, b: seq<Trade>)
    requires multiset(a) == multiset(b)
    ensures multiset(Usable(a)) == multiset(Usable(b))
  {
    if a == [] {
      assert |multiset(b)| == 0;
    } else {
      var before, after := FindHead(a, b);
      UsablePermutes(a[1..], before + after);
      UsableSplits(before, after);
      UsableSplits(before + [a[0]], after);
      UsableSplits(before, [a[0]]);
      UsableSplits([a[0]], a[1..]);
      assert a == [a[0]] + a[1..];
    }
  }

  lemma {:induction false} UsableSplits(a: seq<Trade>, b: seq<Trade>)
    ensures Usable(a + b) == Usable(a) + Usable(b)
  {
    if a == [] {
      assert a + b == b;
    } else {
      assert (a + b)[1..] == a[1..] + b;
      UsableSplits(a[1..], b);
    }
  }

  /** Any reordering of the tape gives the same series. */
  lemma OrderDoesNotMatter(items1: seq<Trade>, items2: seq<Trade>, out1: seq<Point>, out2: seq<Point>)
    requires multiset(items1) == multiset(items2) && Derived(items1, out1) && Derived(items2, out2)
    ensures out1 == out2
  {
    var rows1, rows2 := Usable(items1), Usable(items2);
    UsablePermutes(items1, items2);
    SameSize(rows1, rows2);
    if TwoTimes(rows1) {
      SeriesPermutes(out2, rows2, rows1, BasisOf(rows2));
      SeriesIsUnique(out1, out2, rows1, BasisOf(rows1));
    }
  }

  /** With sizes that are not negative every share is between 0 and 1. */
  lemma ShareIsFraction(rows: seq<Row>, basis: Basis, t: real)
    requires forall r :: r in rows ==> r.shares.GetOr(0.0) >= 0.0
    ensures 0.0 <= ShareAt(rows, basis, t) <= 1.0
  {
    WeightsOrdered(rows, basis, t);
    var yes, total := WeightUpTo(rows, basis, t, true), WeightUpTo(rows, basis, t, false);
    if total > 0.0 {
      QuotientAtMostOne(yes, total, yes / total);
    }
  }

  lemma QuotientAtMostOne(x: real, y: real, q: real)
    requires 0.0 <= x <= y && y > 0.0 && q * y == x
    ensures 0.0 <= q <= 1.0
  {
    assert q > 1.0 ==> q * y > y;
    assert q < 0.0 ==> q * y < 0.0;
  }

  lemma {:induction false} WeightsOrdered(rows: seq<Row>, basis: Basis, t: real)
    requires forall r :: r in rows ==> r.shares.GetOr(0.0) >= 0.0
    ensures 0.0 <= WeightUpTo(rows, basis, t, true) <= WeightUpTo(rows, basis, t, false)
  {
    if rows != [] {
      WeightsOrdered(rows[1..], basis, t);
      assert rows[0] in rows;
    }
  }
}
