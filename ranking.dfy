/**
 * Descending sorts and the top rows of a sorted table.
 *
 * A pandas `sort_values(ascending=False)` is modelled as an ordering: a
 * permutation of the row positions that lists them by non-increasing key.
 * pandas' default sort is not stable, so nothing below promises an order
 * among equal keys beyond what `SortedBy` and `IsPermutation` say; the
 * insertion sort that builds the ordering is one admissible choice.
 */
module Ranking {
  import opened Tables

  predicate InRange(order: seq<nat>, n: nat) {
    forall k :: 0 <= k < |order| ==> order[k] < n
  }

  /** `order` lists positions of `keys` by non-increasing key. */
  predicate SortedBy(order: seq<nat>, keys: seq<real>) {
    && InRange(order, |keys|)
    && forall a, b :: 0 <= a < b < |order| ==> keys[order[a]] >= keys[order[b]]
  }

  /** `order` lists each of the positions 0 .. n-1 exactly once. */
  predicate IsPermutation(order: seq<nat>, n: nat) {
    && |order| == n
    && InRange(order, n)
    && Distinct(order)
    && forall i :: 0 <= i < n ==> i in order
  }

  /** Inserts position `i` into an ordering, before the first entry whose key is not above its own. */
  function Insert(i: nat, order: seq<nat>, keys: seq<real>): (r: seq<nat>)
    requires i < |keys| && InRange(order, |keys|)
    ensures |r| == |order| + 1 && InRange(r, |keys|)
    ensures multiset(r) == multiset(order) + multiset{i}
    ensures r[0] == i || (|order| > 0 && r[0] == order[0])
  {
    if |order| == 0 || keys[i] >= keys[order[0]] then
      [i] + order
    else
      assert order == [order[0]] + order[1..];
      [order[0]] + Insert(i, order[1..], keys)
  }

  /** A key no smaller than every key of a sorted ordering can go in front of it. */
  lemma ConsSorted(x: nat, rest: seq<nat>, keys: seq<real>)
    requires x < |keys| && SortedBy(rest, keys)
    requires forall b :: 0 <= b < |rest| ==> keys[rest[b]] <= keys[x]
    ensures SortedBy([x] + rest, keys)
  {
    var r := [x] + rest;
    forall a, b | 0 <= a < b < |r| ensures keys[r[a]] >= keys[r[b]] {
      assert r[b] == rest[b - 1];
      if a > 0 {
        assert r[a] == rest[a - 1];
      }
    }
  }

  /** Inserting a key below a bound into an ordering below that bound stays below it. */
  lemma {:induction false} InsertBounded(i: nat, order: seq<nat>, keys: seq<real>, m: real)
    requires i < |keys| && InRange(order, |keys|)
    requires keys[i] <= m && forall b :: 0 <= b < |order| ==> keys[order[b]] <= m
    ensures forall b :: 0 <= b < |Insert(i, order, keys)| ==> keys[Insert(i, order, keys)[b]] <= m
  {
    if |order| > 0 && keys[i] < keys[order[0]] {
      InsertBounded(i, order[1..], keys, m);
      var rest := Insert(i, order[1..], keys);
      assert Insert(i, order, keys) == [order[0]] + rest;
      forall b | 0 <= b < 1 + |rest| ensures keys[([order[0]] + rest)[b]] <= m {
        if b > 0 {
          assert ([order[0]] + rest)[b] == rest[b - 1];
        }
      }
    } else {
      var r := Insert(i, order, keys);
      assert r == [i] + order;
      forall b | 0 <= b < |r| ensures keys[r[b]] <= m {
        if b > 0 {
          assert r[b] == order[b - 1];
        }
      }
    }
  }

  lemma {:induction false} InsertSorted(i: nat, order: seq<nat>, keys: seq<real>)
    requires i < |keys| && SortedBy(order, keys)
    ensures SortedBy(Insert(i, order, keys), keys)
  {
    if |order| > 0 && keys[i] < keys[order[0]] {
      var tail := order[1..];
      assert forall b :: 0 <= b < |tail| ==> tail[b] == order[b + 1];
      InsertSorted(i, tail, keys);
      InsertBounded(i, tail, keys, keys[order[0]]);
      ConsSorted(order[0], Insert(i, tail, keys), keys);
    } else {
      forall b | 0 <= b < |order| ensures keys[order[b]] <= keys[i] {
        if b > 0 {
          assert keys[order[0]] >= keys[order[b]];
        }
      }
      ConsSorted(i, order, keys);
    }
  }

  /** The positions lo, lo+1, .., hi-1. */
  function Range(lo: nat, hi: nat): (r: seq<nat>)
    requires lo <= hi
    decreases hi - lo
    ensures |r| == hi - lo
  {
    if lo == hi then [] else [lo] + Range(lo + 1, hi)
  }

  lemma {:induction false} RangeMultiplicity(lo: nat, hi: nat, x: nat)
    requires lo <= hi
    decreases hi - lo
    ensures multiset(Range(lo, hi))[x] == if lo <= x < hi then 1 else 0
  {
    if lo < hi {
      RangeMultiplicity(lo + 1, hi, x);
    }
  }

  lemma RepeatedTwice(s: seq<nat>, a: nat, b: nat)
    requires a < b < |s| && s[a] == s[b]
    ensures multiset(s)[s[a]] >= 2
  {
    assert s == s[..b] + s[b..];
    assert s[a] in multiset(s[..b]);
  }

  lemma DistinctIfMultiplicitiesOne(s: seq<nat>)
    requires forall x :: multiset(s)[x] <= 1
    ensures Distinct(s)
  {
    forall a, b | 0 <= a < b < |s| ensures s[a] != s[b] {
      if s[a] == s[b] {
        RepeatedTwice(s, a, b);
      }
    }
  }

  /** The positions lo .. |keys|-1 sorted by non-increasing key. */
  function OrderFrom(keys: seq<real>, lo: nat): (r: seq<nat>)
    requires lo <= |keys|
    decreases |keys| - lo
    ensures |r| == |keys| - lo
    ensures multiset(r) == multiset(Range(lo, |keys|))
    ensures SortedBy(r, keys)
  {
    if lo == |keys| then []
    else
      var rest := OrderFrom(keys, lo + 1);
      assert InRange(rest, |keys|) by {
        forall k | 0 <= k < |rest| ensures rest[k] < |keys| {
          assert rest[k] in multiset(Range(lo + 1, |keys|));
          RangeMultiplicity(lo + 1, |keys|, rest[k]);
        }
      }
      InsertSorted(lo, rest, keys);
      Insert(lo, rest, keys)
  }

  /** A descending sort of all positions of `keys`. */
  function Order(keys: seq<real>): (r: seq<nat>)
    ensures IsPermutation(r, |keys|) && SortedBy(r, keys)
  {
    var r := OrderFrom(keys, 0);
    assert forall x :: multiset(r)[x] <= 1 by {
      forall x ensures multiset(r)[x] <= 1 {
        RangeMultiplicity(0, |keys|, x);
      }
    }
    DistinctIfMultiplicitiesOne(r);
    assert forall i :: 0 <= i < |keys| ==> i in r by {
      forall i | 0 <= i < |keys| ensures i in r {
        RangeMultiplicity(0, |keys|, i);
        assert i in multiset(r);
      }
    }
    r
  }

  /** Where `i` stands in `order` (|order| when it is absent). */
  function PositionOf(order: seq<nat>, i: nat): (m: nat)
    ensures m <= |order|
    ensures m < |order| <==> i in order
    ensures m < |order| ==> order[m] == i
  {
    if |order| == 0 then 0
    else if order[0] == i then 0
    else 1 + PositionOf(order[1..], i)
  }

  /**
   * How many rows pandas' `head(n)` keeps out of `len`: the first n, or for
   * a negative n all but the last -n.
   */
  function HeadCount(len: nat, n: int): (h: nat)
    ensures h <= len
    ensures 0 <= n <= len ==> h == n
    ensures n >= len ==> h == len
    ensures n < 0 ==> h == (if len + n >= 0 then len + n else 0)
  {
    if n >= 0 then (if n <= len then n else len)
    else if len + n >= 0 then len + n else 0
  }

  /** In a sorted ordering, every position past the first h ranks no higher than the h-th. */
  lemma OmittedRankLower(order: seq<nat>, keys: seq<real>, h: nat)
    requires IsPermutation(order, |keys|) && SortedBy(order, keys)
    requires 0 < h <= |keys|
    ensures forall i :: 0 <= i < |keys| && i !in order[..h] ==> keys[i] <= keys[order[h - 1]]
  {
    forall i | 0 <= i < |keys| && i !in order[..h]
      ensures keys[i] <= keys[order[h - 1]]
    {
      var m := PositionOf(order, i);
      assert m >= h;
    }
  }

  /**
   * Position j comes before position k in a descending sort that keeps
   * equal keys in their original order.
   */
  predicate Before(keys: seq<real>, j: nat, k: nat)
    requires j < |keys| && k < |keys|
  {
    keys[j] > keys[k] || (keys[j] == keys[k] && j < k)
  }

  /** How many of the positions below n come before k. */
  function CountBefore(keys: seq<real>, k: nat, n: nat): (c: nat)
    requires k < |keys| && n <= |keys|
    ensures c <= n
  {
    if n == 0 then 0
    else CountBefore(keys, k, n - 1) + (if Before(keys, n - 1, k) then 1 else 0)
  }

  /**
   * The position of k once the keys are sorted in descending order, equal
   * keys keeping their original order.
   */
  function RankOf(keys: seq<real>, k: nat): (p: nat)
    requires k < |keys|
  {
    CountBefore(keys, k, |keys|)
  }

  lemma {:induction false} CountBeforeSkipsSelf(keys: seq<real>, k: nat, n: nat)
    requires k < |keys| && n <= |keys|
    ensures k < n ==> CountBefore(keys, k, n) < n
  {
    if n > 0 && k < n - 1 {
      CountBeforeSkipsSelf(keys, k, n - 1);
    }
  }

  /** If k comes before m, every position before k is before m, and k is before m but not before itself. */
  lemma {:induction false} CountBeforeMonotone(keys: seq<real>, k: nat, m: nat, n: nat)
    requires k < |keys| && m < |keys| && n <= |keys| && Before(keys, k, m)
    ensures CountBefore(keys, k, n) <= CountBefore(keys, m, n)
    ensures k < n ==> CountBefore(keys, k, n) < CountBefore(keys, m, n)
  {
    if n > 0 {
      CountBeforeMonotone(keys, k, m, n - 1);
    }
  }

  /**
   * The ranks are the positions 0 .. |keys|-1, each taken once, and a
   * strictly larger key gets a strictly smaller rank.
   */
  lemma RankOrder(keys: seq<real>, a: nat, b: nat)
    requires a < |keys| && b < |keys|
    ensures RankOf(keys, a) < |keys|
    ensures a != b ==> RankOf(keys, a) != RankOf(keys, b)
    ensures keys[a] > keys[b] ==> RankOf(keys, a) < RankOf(keys, b)
  {
    CountBeforeSkipsSelf(keys, a, |keys|);
    if a != b {
      if Before(keys, a, b) {
        CountBeforeMonotone(keys, a, b, |keys|);
      } else {
        CountBeforeMonotone(keys, b, a, |keys|);
      }
    }
  }

  lemma {:induction false} CountBeforeNone(keys: seq<real>, k: nat, n: nat)
    requires k < |keys| && n <= |keys|
    requires forall j :: 0 <= j < n ==> !Before(keys, j, k)
    ensures CountBefore(keys, k, n) == 0
  {
    if n > 0 {
      CountBeforeNone(keys, k, n - 1);
    }
  }

  lemma {:induction false} CountBeforeAll(keys: seq<real>, k: nat, n: nat)
    requires k < |keys| && n <= |keys|
    requires forall j :: 0 <= j < n && j != k ==> Before(keys, j, k)
    ensures CountBefore(keys, k, n) == if k < n then n - 1 else n
  {
    if n > 0 {
      CountBeforeAll(keys, k, n - 1);
    }
  }

  /** The first occurrence of the largest key is sorted first. */
  lemma RankOfFirstMaximum(keys: seq<real>, k: nat)
    requires k < |keys|
    requires forall j :: 0 <= j < |keys| ==> keys[j] <= keys[k]
    requires forall j :: 0 <= j < k ==> keys[j] != keys[k]
    ensures RankOf(keys, k) == 0
  {
    CountBeforeNone(keys, k, |keys|);
  }

  /** The last occurrence of the smallest key is sorted last. */
  lemma RankOfLastMinimum(keys: seq<real>, k: nat)
    requires k < |keys|
    requires forall j :: 0 <= j < |keys| ==> keys[k] <= keys[j]
    requires forall j :: k < j < |keys| ==> keys[j] != keys[k]
    ensures RankOf(keys, k) == |keys| - 1
  {
    CountBeforeAll(keys, k, |keys|);
  }

  /**
   * The first h entries of a sorted ordering: distinct positions with
   * non-increasing keys, none of them ranked below a position left out.
   */
  lemma HeadOfOrder(order: seq<nat>, keys: seq<real>, h: nat)
    requires IsPermutation(order, |keys|) && SortedBy(order, keys) && h <= |keys|
    ensures forall a, b :: 0 <= a < b < h ==> order[a] != order[b] && keys[order[a]] >= keys[order[b]]
    ensures h > 0 ==> forall i :: 0 <= i < |keys| && i !in order[..h] ==> keys[i] <= keys[order[h - 1]]
  {
    if h > 0 {
      OmittedRankLower(order, keys, h);
    }
  }

  /**
   * One row of a recommendation list: the catalogue row position it came
   * from (pandas keeps it as the frame's index), the spot and its score.
   */
  datatype Recommendation = Recommendation(row: nat, spot: string, score: real)

  function RowsOf(r: seq<Recommendation>): (rows: seq<nat>)
    ensures |rows| == |r|
    ensures forall k :: 0 <= k < |r| ==> rows[k] == r[k].row
  {
    seq(|r|, k requires 0 <= k < |r| => r[k].row)
  }

  /** The rows at the first h positions of an ordering, with their names and scores. */
  function Listing(names: seq<string>, scores: seq<real>, order: seq<nat>, h: nat): (r: seq<Recommendation>)
    requires |names| == |scores| && InRange(order, |scores|) && h <= |order|
    ensures |r| == h && RowsOf(r) == order[..h]
    ensures forall k :: 0 <= k < h ==> r[k] == Recommendation(order[k], names[order[k]], scores[order[k]])
  {
    var r := seq(h, k requires 0 <= k < h => Recommendation(order[k], names[order[k]], scores[order[k]]));
    assert RowsOf(r) == order[..h];
    r
  }

  /**
   * `r` lists the best-scoring rows: each entry is a distinct row with its
   * own name and score, in non-increasing score order, and no row left out
   * scores above the last one listed.
   */
  predicate ListsBest(r: seq<Recommendation>, names: seq<string>, scores: seq<real>)
    requires |names| == |scores|
  {
    && (forall k :: 0 <= k < |r| ==> r[k].row < |scores| && r[k].spot == names[r[k].row] && r[k].score == scores[r[k].row])
    && (forall a, b :: 0 <= a < b < |r| ==> r[a].row != r[b].row && r[a].score >= r[b].score)
    && (|r| > 0 ==> forall i :: 0 <= i < |scores| && i !in RowsOf(r) ==> scores[i] <= r[|r| - 1].score)
  }

  /** The head of a sorted ordering, listed, lists the best rows. */
  lemma ListingOfSorted(names: seq<string>, scores: seq<real>, order: seq<nat>, h: nat)
    requires |names| == |scores| && IsPermutation(order, |scores|) && SortedBy(order, scores) && h <= |scores|
    ensures ListsBest(Listing(names, scores, order, h), names, scores)
  {
    HeadOfOrder(order, scores, h);
  }

  /**
   * `sort_values("スコア", ascending=False).head(10)` over one score per
   * catalogue row: the ten best rows, or all of them when there are fewer.
   */
  function TopTen(names: seq<string>, scores: seq<real>): (r: seq<Recommendation>)
    requires |names| == |scores|
    ensures |r| == (if |scores| < 10 then |scores| else 10)
    ensures ListsBest(r, names, scores)
  {
    var order := Order(scores);
    var h := HeadCount(|scores|, 10);
    ListingOfSorted(names, scores, order, h);
    Listing(names, scores, order, h)
  }

  /** Scores within [lo, hi] are listed within [lo, hi]. */
  lemma TopTenWithin(names: seq<string>, scores: seq<real>, lo: real, hi: real)
    requires |names| == |scores|
    requires forall i :: 0 <= i < |scores| ==> lo <= scores[i] <= hi
    ensures forall k :: 0 <= k < |TopTen(names, scores)| ==> lo <= TopTen(names, scores)[k].score <= hi
  {
  }
}
