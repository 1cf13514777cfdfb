/**
 * Sequence shapes shared by the routers: the `filter` of a query or a list
 * comprehension, the `desc` of an `order_by`, and occurrence counts.
 */
module SeqUtil {
  /** The smaller of two integers. */
  function Min(a: int, b: int): int {
    if a <= b then a else b
  }

  /** The elements of `s` satisfying `p`, in the order of `s`. */
  function Filter<T>(s: seq<T>, p: T -> bool): (r: seq<T>)
    ensures |r| <= |s|
    ensures forall i :: 0 <= i < |r| ==> r[i] in s && p(r[i])
    ensures forall i :: 0 <= i < |s| && p(s[i]) ==> s[i] in r
  {
    if s == [] then []
    else Filter(s[..|s| - 1], p) + (if p(s[|s| - 1]) then [s[|s| - 1]] else [])
  }

  /** The pieces `f` gives for each element, joined in order. */
  function ConcatMap<T, U>(s: seq<T>, f: T -> seq<U>): seq<U> {
    if s == [] then [] else ConcatMap(s[..|s| - 1], f) + f(s[|s| - 1])
  }

  /** Joining the pieces of two lists one after the other is joining the pieces of each. */
  lemma {:induction false} ConcatMapAppend<T, U>(a: seq<T>, b: seq<T>, f: T -> seq<U>)
    ensures ConcatMap(a + b, f) == ConcatMap(a, f) + ConcatMap(b, f)
    decreases |b|
  {
    if b == [] {
      assert a + b == a;
    } else {
      var b' := b[..|b| - 1];
      assert (a + b)[..|a + b| - 1] == a + b';
      assert (a + b)[|a + b| - 1] == b[|b| - 1];
      ConcatMapAppend(a, b', f);
      var x, y, piece := ConcatMap(a, f), ConcatMap(b', f), f(b[|b| - 1]);
      assert (x + y) + piece == x + (y + piece);
    }
  }

  /** `f(last) + f(last - 1) + ... + f(last - (n - 1))`: what a loop over the `n` days
      ending at `last`, newest first, collects. */
  function DaysBack<U>(f: int -> seq<U>, last: int, n: nat): seq<U> {
    if n == 0 then [] else DaysBack(f, last, n - 1) + f(last - (n - 1))
  }

  /** A day of the window with a non-empty piece has that piece's first element in the
      collection. */
  lemma {:induction false} DaysBackComplete<U>(f: int -> seq<U>, last: int, n: nat, d: int) returns (k: nat)
    requires last - n < d <= last && |f(d)| > 0
    ensures k < |DaysBack(f, last, n)| && DaysBack(f, last, n)[k] == f(d)[0]
    decreases n
  {
    var prev := DaysBack(f, last, n - 1);
    var piece := f(last - (n - 1));
    assert DaysBack(f, last, n) == prev + piece;
    if d == last - (n - 1) {
      k := |prev|;
    } else {
      k := DaysBackComplete(f, last, n - 1, d);
      assert (prev + piece)[k] == prev[k];
    }
  }

  /** With pieces of at most one element, the collection has at most one per day. */
  lemma {:induction false} DaysBackLength<U>(f: int -> seq<U>, last: int, n: nat)
    requires forall e :: |f(e)| <= 1
    ensures |DaysBack(f, last, n)| <= n
    decreases n
  {
    if n > 0 {
      DaysBackLength(f, last, n - 1);
    }
  }

  /** With pieces of at most one element, each element of the collection is the piece of a
      day of the window. */
  lemma {:induction false} DaysBackSource<U>(f: int -> seq<U>, last: int, n: nat, k: nat) returns (d: int)
    requires forall e :: |f(e)| <= 1
    requires k < |DaysBack(f, last, n)|
    ensures last - n < d <= last && |f(d)| == 1 && DaysBack(f, last, n)[k] == f(d)[0]
    decreases n
  {
    var prev := DaysBack(f, last, n - 1);
    var piece := f(last - (n - 1));
    assert DaysBack(f, last, n) == prev + piece;
    if k < |prev| {
      d := DaysBackSource(f, last, n - 1, k);
      assert (prev + piece)[k] == prev[k];
    } else {
      d := last - (n - 1);
    }
  }

  /** Python's `list(s)` for a set: each element once, in an order the set decides. */
  method ListOfSet<T>(s: set<T>) returns (xs: seq<T>)
    ensures forall i, j :: 0 <= i < j < |xs| ==> xs[i] != xs[j]
    ensures forall x :: x in xs <==> x in s
    ensures |xs| == |s|
  {
    var remaining := s;
    xs := [];
    while remaining != {}
      invariant forall i, j :: 0 <= i < j < |xs| ==> xs[i] != xs[j]
      invariant forall x :: x in xs ==> x !in remaining
      invariant forall x :: x in s <==> x in xs || x in remaining
      invariant |xs| + |remaining| == |s|
      decreases |remaining|
    {
      var x :| x in remaining;
      xs := xs + [x];
      remaining := remaining - {x};
    }
  }

  /** `[x]` when `x` passes the test, else nothing: what the filter keeps of one element. */
  function Kept<T>(x: T, p: T -> bool): seq<T> {
    if p(x) then [x] else []
  }

  /** The filter of a five-element list, element by element in order. */
  lemma FilterOfFive<T>(s: seq<T>, p: T -> bool)
    requires |s| == 5
    ensures Filter(s, p) == Kept(s[0], p) + Kept(s[1], p) + Kept(s[2], p) + Kept(s[3], p) + Kept(s[4], p)
  {
    assert s[..1][..0] == [] && s[..2][..1] == s[..1] && s[..3][..2] == s[..2];
    assert s[..4][..3] == s[..3] && s[..4] == s[..|s| - 1];
    assert Filter(s[..1], p) == Kept(s[0], p);
    assert Filter(s[..2], p) == Filter(s[..1], p) + Kept(s[1], p);
    assert Filter(s[..3], p) == Filter(s[..2], p) + Kept(s[2], p);
    assert Filter(s[..4], p) == Filter(s[..3], p) + Kept(s[3], p);
  }

  /** Filtering distributes over concatenation, so the filter keeps the original order. */
  lemma {:induction false} FilterConcat<T>(a: seq<T>, b: seq<T>, p: T -> bool)
    ensures Filter(a + b, p) == Filter(a, p) + Filter(b, p)
    decreases |b|
  {
    if b == [] {
      assert a + b == a;
    } else {
      var b' := b[..|b| - 1];
      var x := b[|b| - 1];
      assert (a + b)[..|a + b| - 1] == a + b';
      assert (a + b)[|a + b| - 1] == x;
      FilterConcat(a, b', p);
      var tail := if p(x) then [x] else [];
      calc {
        Filter(a + b, p);
        Filter(a + b', p) + tail;
        (Filter(a, p) + Filter(b', p)) + tail;
        Filter(a, p) + (Filter(b', p) + tail);
        Filter(a, p) + Filter(b, p);
      }
    }
  }

  /** A filter every element passes changes nothing. */
  lemma {:induction false} FilterAll<T>(s: seq<T>, p: T -> bool)
    requires forall x :: x in s ==> p(x)
    ensures Filter(s, p) == s
    decreases |s|
  {
    if s != [] {
      FilterAll(s[..|s| - 1], p);
      assert s[..|s| - 1] + [s[|s| - 1]] == s;
    }
  }

  /** Appending one element and then another leaves both earlier prefixes in place. */
  lemma AppendPrefixes<T>(s: seq<T>, x: T, y: T)
    ensures (s + [x])[..|s|] == s
    ensures (s + [x] + [y])[..|s|] == s && (s + [x] + [y])[..|s| + 1] == s + [x]
  {
    assert (s + [x] + [y])[..|s| + 1] == s + [x];
  }

  /** Listed by `key` in strictly ascending order (insertion order under a ticking clock). */
  predicate IncreasingBy<T>(s: seq<T>, key: T -> int) {
    forall i, j :: 0 <= i < j < |s| ==> key(s[i]) < key(s[j])
  }

  /** Listed by `key` in strictly descending order: an `order_by(... .desc())`. */
  predicate DecreasingBy<T>(s: seq<T>, key: T -> int) {
    forall i, j :: 0 <= i < j < |s| ==> key(s[i]) > key(s[j])
  }

  /** A filter of an ascending list is ascending. */
  lemma {:induction false} FilterIncreasing<T>(s: seq<T>, p: T -> bool, key: T -> int)
    requires IncreasingBy(s, key)
    ensures IncreasingBy(Filter(s, p), key)
    decreases |s|
  {
    if s != [] {
      var init := s[..|s| - 1];
      var x := s[|s| - 1];
      assert IncreasingBy(init, key);
      FilterIncreasing(init, p, key);
      var r := Filter(s, p);
      if p(x) {
        var f := Filter(init, p);
        forall i | 0 <= i < |f|
          ensures key(f[i]) < key(x)
        {
          assert f[i] in init;
          var k :| 0 <= k < |init| && init[k] == f[i];
          assert s[k] == f[i];
        }
        assert r == f + [x];
      }
    }
  }

  function Reverse<T>(s: seq<T>): (r: seq<T>)
    ensures |r| == |s|
    ensures forall i :: 0 <= i < |s| ==> r[i] == s[|s| - 1 - i]
  {
    if s == [] then [] else [s[|s| - 1]] + Reverse(s[..|s| - 1])
  }

  /** Reversing an ascending list lists it newest first, with the same elements. */
  lemma ReverseDecreasing<T>(s: seq<T>, key: T -> int)
    requires IncreasingBy(s, key)
    ensures DecreasingBy(Reverse(s), key)
  {
  }

  /** Reversal keeps the elements. */
  lemma ReverseSameElements<T>(s: seq<T>)
    ensures forall i :: 0 <= i < |s| ==> s[i] in Reverse(s)
    ensures forall i :: 0 <= i < |s| ==> Reverse(s)[i] in s
  {
    var r := Reverse(s);
    forall i | 0 <= i < |s|
      ensures s[i] in r
    {
      assert r[|s| - 1 - i] == s[i];
    }
  }

  /** Occurrences of `x` in `s`. */
  function Count<T(==)>(s: seq<T>, x: T): (n: nat)
    ensures n <= |s|
    ensures n > 0 <==> x in s
  {
    if s == [] then 0
    else Count(s[..|s| - 1], x) + (if s[|s| - 1] == x then 1 else 0)
  }

  /** The listing shape `filter(...).order_by(created.desc())` over a table kept in ascending
      order: newest first, only the rows `p` selects, and all of them. */
  lemma NewestFirstSpec<T>(s: seq<T>, p: T -> bool, key: T -> int)
    requires IncreasingBy(s, key)
    ensures var r := Reverse(Filter(s, p));
      && DecreasingBy(r, key)
      && (forall i :: 0 <= i < |r| ==> r[i] in s && p(r[i]))
      && (forall i :: 0 <= i < |s| && p(s[i]) ==> s[i] in r)
  {
    FilterIncreasing(s, p, key);
    ReverseDecreasing(Filter(s, p), key);
    ReverseSameElements(Filter(s, p));
  }

  /** Every occurrence of `y` in `s` comes after an occurrence of `x`: `x` is seen first. */
  ghost predicate SeenBefore<T>(s: seq<T>, x: T, y: T) {
    forall j :: 0 <= j < |s| && s[j] == y ==> x in s[..j]
  }

  /** The distinct elements of `s` in order of first appearance: the key order of a
      dictionary filled from `s`. */
  function Distinct<T(==, !new)>(s: seq<T>): (d: seq<T>)
    ensures forall x :: x in d <==> x in s
  {
    if s == [] then []
    else
      var init := s[..|s| - 1];
      var last := s[|s| - 1];
      assert s == init + [last];
      Distinct(init) + (if last in init then [] else [last])
  }

  /** Appending keeps `x` seen before `y` once `x` has been seen. */
  lemma SeenBeforeExtend<T>(s: seq<T>, last: T, x: T, y: T)
    requires SeenBefore(s, x, y) && x in s
    ensures SeenBefore(s + [last], x, y)
  {
    var t := s + [last];
    forall j | 0 <= j < |t| && t[j] == y
      ensures x in t[..j]
    {
      if j < |s| {
        assert t[..j] == s[..j];
      } else {
        assert t[..j] == s;
      }
    }
  }

  /** A value seen for the first time at the end comes after everything seen earlier. */
  lemma SeenBeforeNew<T>(s: seq<T>, last: T, x: T)
    requires x in s && last !in s
    ensures SeenBefore(s + [last], x, last)
  {
    var t := s + [last];
    forall j | 0 <= j < |t| && t[j] == last
      ensures x in t[..j]
    {
      if j == |s| {
        assert t[..j] == s;
      }
    }
  }

  /** `Distinct(s)` lists the elements in the order they are first seen in `s`. */
  lemma {:induction false} DistinctOrder<T(!new)>(s: seq<T>)
    ensures forall a, b :: 0 <= a < b < |Distinct(s)| ==> SeenBefore(s, Distinct(s)[a], Distinct(s)[b])
    decreases |s|
  {
    if s != [] {
      var init := s[..|s| - 1];
      var last := s[|s| - 1];
      assert s == init + [last];
      var d := Distinct(s);
      var di := Distinct(init);
      DistinctOrder(init);
      forall a, b | 0 <= a < b < |d|
        ensures SeenBefore(s, d[a], d[b])
      {
        assert d[a] == di[a] && di[a] in init;
        if b < |di| {
          assert d[b] == di[b];
          SeenBeforeExtend(init, last, di[a], di[b]);
        } else {
          assert d[b] == last && last !in init;
          SeenBeforeNew(init, last, di[a]);
        }
      }
    }
  }

  /** No element appears twice in `Distinct(s)`. */
  lemma {:induction false} DistinctNoDuplicates<T(!new)>(s: seq<T>)
    ensures forall a, b :: 0 <= a < b < |Distinct(s)| ==> Distinct(s)[a] != Distinct(s)[b]
    decreases |s|
  {
    if s != [] {
      var init := s[..|s| - 1];
      DistinctNoDuplicates(init);
    }
  }

  /** The first position holding `x` or `y`. */
  function FirstOfEither<T(==)>(s: seq<T>, x: T, y: T): (i: nat)
    requires x in s || y in s
    ensures i < |s| && (s[i] == x || s[i] == y)
    ensures forall k :: 0 <= k < i ==> s[k] != x && s[k] != y
  {
    if s[0] == x || s[0] == y then 0 else 1 + FirstOfEither(s[1..], x, y)
  }

  /** Two different values cannot each be seen before the other. */
  lemma SeenBeforeAntisymmetric<T>(s: seq<T>, x: T, y: T)
    requires x != y && x in s && y in s
    ensures !(SeenBefore(s, x, y) && SeenBefore(s, y, x))
  {
    var i := FirstOfEither(s, x, y);
    if s[i] == x {
      assert y !in s[..i];
    } else {
      assert x !in s[..i];
    }
  }
}
