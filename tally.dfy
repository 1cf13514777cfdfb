/**
 * Counting into a dictionary and taking the key with the largest count, as
 * `get_wellness_stats` does with emotions and `get_user_insights` with week
 * days: `counts[k] = counts.get(k, 0) + 1` over a list, then
 * `max(counts.items(), key=lambda x: x[1])[0]`. A Python dictionary keeps its
 * keys in insertion order and `max` keeps the first of equal maxima, so on a
 * tie the key seen first wins.
 */
module Tally {
  import opened Wrappers
  import opened SeqUtil

  /** `k` has the highest count in `keys`, and among the keys sharing that count it
      was seen first. */
  ghost predicate IsMostCommon(keys: seq<string>, k: string) {
    && k in keys
    && (forall x :: x in keys ==> Count(keys, x) <= Count(keys, k))
    && (forall x :: x in keys && x != k && Count(keys, x) == Count(keys, k) ==> SeenBefore(keys, k, x))
  }

  /** At most one key is the most common one: the statistic is well defined. */
  lemma MostCommonUnique(keys: seq<string>, k1: string, k2: string)
    requires IsMostCommon(keys, k1) && IsMostCommon(keys, k2)
    ensures k1 == k2
  {
    if k1 != k2 {
      SeenBeforeAntisymmetric(keys, k1, k2);
    }
  }

  /** The position `best` in first-seen order that the scan settles on is the most
      common key. */
  lemma ScanFindsMostCommon(keys: seq<string>, best: nat)
    requires best < |Distinct(keys)|
    requires var d := Distinct(keys);
      forall j :: 0 <= j < |d| ==> Count(keys, d[j]) <= Count(keys, d[best])
    requires var d := Distinct(keys);
      forall j :: 0 <= j < best ==> Count(keys, d[j]) < Count(keys, d[best])
    ensures IsMostCommon(keys, Distinct(keys)[best])
  {
    var d := Distinct(keys);
    var k := d[best];
    DistinctOrder(keys);
    forall x | x in keys
      ensures Count(keys, x) <= Count(keys, k)
      ensures x != k && Count(keys, x) == Count(keys, k) ==> SeenBefore(keys, k, x)
    {
      var t :| 0 <= t < |keys| && keys[t] == x;
      var j :| 0 <= j < |d| && d[j] == x;
      if x != k && Count(keys, x) == Count(keys, k) {
        assert j != best;
        assert !(j < best);
        assert SeenBefore(keys, d[best], d[j]);
      }
    }
  }

  /** The counting loop: a dictionary from key to count whose keys keep their
      insertion order, `order` being that order. */
  method CountKeys(keys: seq<string>) returns (counts: map<string, nat>, order: seq<string>)
    ensures order == Distinct(keys)
    ensures forall k :: k in counts <==> k in keys
    ensures forall k :: k in counts ==> counts[k] == Count(keys, k)
  {
    counts, order := map[], [];
    var i := 0;
    while i < |keys|
      invariant 0 <= i <= |keys|
      invariant order == Distinct(keys[..i])
      invariant forall k :: k in counts <==> k in keys[..i]
      invariant forall k :: k in counts ==> counts[k] == Count(keys[..i], k)
    {
      var k := keys[i];
      assert keys[..i + 1][..i] == keys[..i] && keys[..i + 1][i] == k;
      if k !in counts {
        order := order + [k];
      }
      counts := counts[k := (if k in counts then counts[k] else 0) + 1];
      i := i + 1;
    }
    assert keys[..i] == keys;
  }

  /** `max(counts.items(), key=lambda x: x[1])[0] if counts else None` after the counting
      loop: the scan keeps the earlier key on a tie. */
  method MostCommon(keys: seq<string>) returns (r: Option<string>)
    ensures r.None? <==> keys == []
    ensures r.Some? ==> IsMostCommon(keys, r.value)
  {
    var counts, order := CountKeys(keys);
    if order == [] {
      return None;
    }
    var best := 0;
    var k := 1;
    while k < |order|
      invariant 1 <= k <= |order| && best < k
      invariant forall j :: 0 <= j < k ==> counts[order[j]] <= counts[order[best]]
      invariant forall j :: 0 <= j < best ==> counts[order[j]] < counts[order[best]]
    {
      if counts[order[k]] > counts[order[best]] {
        best := k;
      }
      k := k + 1;
    }
    ScanFindsMostCommon(keys, best);
    r := Some(order[best]);
  }

  // ------------------------------------------------------- counts add up

  /** The counts in `s` of the keys listed in `d`, added up. */
  function SumCounts(d: seq<string>, s: seq<string>): nat {
    if d == [] then 0 else SumCounts(d[..|d| - 1], s) + Count(s, d[|d| - 1])
  }

  /** One more element adds one to the count of each listed key equal to it. */
  lemma {:induction false} SumCountsAppend(d: seq<string>, s: seq<string>, y: string)
    ensures SumCounts(d, s + [y]) == SumCounts(d, s) + Count(d, y)
    decreases |d|
  {
    if d != [] {
      var t := s + [y];
      assert t[..|t| - 1] == s;
      SumCountsAppend(d[..|d| - 1], s, y);
    }
  }

  /** In a list without repetitions a key occurs at most once. */
  lemma {:induction false} CountWithoutRepeats(d: seq<string>, y: string)
    requires forall a, b :: 0 <= a < b < |d| ==> d[a] != d[b]
    ensures Count(d, y) == if y in d then 1 else 0
    decreases |d|
  {
    if d != [] {
      var init := d[..|d| - 1];
      CountWithoutRepeats(init, y);
      if d[|d| - 1] == y {
        assert y !in init;
      }
    }
  }

  /** The counts of the distinct keys add up to the number of keys: grouping loses
      nothing and counts nothing twice. */
  lemma {:induction false} CountsAddUp(s: seq<string>)
    ensures SumCounts(Distinct(s), s) == |s|
    decreases |s|
  {
    if s != [] {
      var init := s[..|s| - 1];
      var last := s[|s| - 1];
      assert s == init + [last];
      var di := Distinct(init);
      CountsAddUp(init);
      SumCountsAppend(di, init, last);
      DistinctNoDuplicates(init);
      CountWithoutRepeats(di, last);
      if last in init {
        assert Distinct(s) == di;
        assert SumCounts(di, s) == |init| + 1;
      } else {
        var d := di + [last];
        assert Distinct(s) == d && d[..|d| - 1] == di;
        assert Count(s, last) == Count(init, last) + 1 == 1;
        assert SumCounts(d, s) == SumCounts(di, s) + Count(s, last);
      }
    }
  }
}
