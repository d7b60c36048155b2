/** Lists of ids without repetitions. */
module Lists {
  ghost predicate Distinct<T>(s: seq<T>) {
    s == [] || (s[0] !in s[1..] && Distinct(s[1..]))
  }

  /** `s.filter((x) => x !== id)`. */
  function Without<T(==)>(s: seq<T>, id: T): seq<T> {
    if s == [] then []
    else if s[0] == id then Without(s[1..], id)
    else [s[0]] + Without(s[1..], id)
  }

  lemma {:induction false} WithoutMembers<T>(s: seq<T>, id: T)
    ensures forall x :: x in Without(s, id) <==> x in s && x != id
  {
    if s != [] {
      WithoutMembers(s[1..], id);
      assert forall x :: x in s <==> x == s[0] || x in s[1..];
      var rest := Without(s[1..], id);
      assert forall x :: x in [s[0]] + rest <==> x == s[0] || x in rest;
    }
  }

  lemma {:induction false} WithoutDistinct<T>(s: seq<T>, id: T)
    requires Distinct(s)
    ensures Distinct(Without(s, id))
    ensures |Without(s, id)| == |s| - (if id in s then 1 else 0)
  {
    if s != [] {
      WithoutDistinct(s[1..], id);
      WithoutMembers(s[1..], id);
      assert id in s <==> id == s[0] || id in s[1..];
      assert ([s[0]] + Without(s[1..], id))[1..] == Without(s[1..], id);
    }
  }

  lemma {:induction false} WithoutAbsent<T>(s: seq<T>, id: T)
    requires id !in s
    ensures Without(s, id) == s
  {
    if s != [] {
      WithoutAbsent(s[1..], id);
    }
  }

  lemma {:induction false} AppendDistinct<T>(s: seq<T>, id: T)
    requires Distinct(s) && id !in s
    ensures Distinct(s + [id])
  {
    if s != [] {
      AppendDistinct(s[1..], id);
      assert (s + [id])[1..] == s[1..] + [id];
    }
  }

  lemma {:induction false} DistinctDrop<T>(s: seq<T>, n: nat)
    requires Distinct(s) && n < |s|
    ensures Distinct(s[n..]) && s[n] !in s[n + 1..]
  {
    if n > 0 {
      DistinctDrop(s[1..], n - 1);
      assert s[1..][n - 1..] == s[n..] && s[1..][n..] == s[n + 1..];
    } else {
      assert s[0..] == s;
    }
  }

  /** The head of a list, found in a rearrangement of the list. */
  lemma FindHead<T>(a: seq<T>, b: seq<T>) returns (before: seq<T>, after: seq<T>)
    requires a != [] && multiset(a) == multiset(b)
    ensures b == before + [a[0]] + after && multiset(before + after) == multiset(a[1..])
  {
    var x := a[0];
    assert a == [x] + a[1..];
    assert x in multiset(b);
    var i :| 0 <= i < |b| && b[i] == x;
    before, after := b[..i], b[i + 1..];
    assert b == before + [x] + after;
    MultisetParts(before, x, after);
    assert multiset(a) == multiset{x} + multiset(a[1..]);
    assert multiset(before + after) == multiset(b) - multiset{x};
  }

  lemma MultisetParts<T>(before: seq<T>, x: T, after: seq<T>)
    ensures multiset(before + [x] + after) == multiset(before + after) + multiset{x}
  {
  }

  lemma SameSize<T>(a: seq<T>, b: seq<T>)
    requires multiset(a) == multiset(b)
    ensures |a| == |b| && forall x :: x in a <==> x in b
  {
    assert |multiset(a)| == |a| && |multiset(b)| == |b|;
    forall x ensures x in a <==> x in b {
      assert x in a <==> x in multiset(a);
      assert x in b <==> x in multiset(b);
    }
  }
}
