/**
 * The current scoring engine (utils/scoring.py).
 *
 * `ComputeUserPreference` turns five visited spots and a set of interest
 * aspects into a softmax weight per aspect, a profile sorted by weight and
 * the names of the top-k aspects.  `RecommendSpots` scores every catalogue
 * spot over those top-k aspects, with a linear rank decay on both the user
 * side and the spot side, and keeps the ten best.
 *
 * `np.exp` is a parameter: any function that is positive everywhere (and,
 * where order matters, strictly increasing).
 */
module Scoring {
  import opened Tables
  import opened Ranking
  import MinMax

  // ---------------------------------------------------------------------
  // Column normalisation (shared by both operations)
  // ---------------------------------------------------------------------

  /**
   * The per-column normalisation both operations apply: min-max, with a
   * constant column set to 0.5.  It differs from `minmax` only on a
   * constant column.
   */
  function NormalizeColumn(col: seq<real>): (r: seq<real>)
    ensures |r| == |col|
    ensures MinMax.Constant(col) ==> forall i :: 0 <= i < |col| ==> r[i] == 0.5
    ensures !MinMax.Constant(col) ==> r == MinMax.MinMax(col)
    ensures forall i :: 0 <= i < |col| ==> 0.0 <= r[i] <= 1.0
  {
    MinMax.Rescale(col, 0.5)
  }

  /** The normalised copy of a catalogue: every aspect column normalised on its own. */
  function NormalizedCatalogue(c: Catalogue): (n: Catalogue)
    requires WellFormed(c)
    ensures WellFormed(n)
    ensures n.aspects == c.aspects && Names(n.rows) == Names(c.rows)
    ensures forall j :: 0 <= j < |c.aspects| ==> Column(n.rows, j) == NormalizeColumn(Column(c.rows, j))
  {
    var k := |c.aspects|;
    var cols := seq(k, j requires 0 <= j < k => NormalizeColumn(Column(c.rows, j)));
    var n := Catalogue(c.aspects, seq(|c.rows|, i requires 0 <= i < |c.rows| =>
      Row(c.rows[i].name, seq(k, j requires 0 <= j < k => cols[j][i]))));
    assert forall j :: 0 <= j < k ==> Column(n.rows, j) == cols[j];
    n
  }

  /** Every normalised value lies in [0, 1]. */
  lemma NormalizedInUnit(c: Catalogue, i: nat, j: nat)
    requires WellFormed(c) && i < |c.rows| && j < |c.aspects|
    ensures 0.0 <= NormalizedCatalogue(c).rows[i].scores[j] <= 1.0
  {
    var n := NormalizedCatalogue(c);
    assert Column(n.rows, j)[i] == n.rows[i].scores[j];
  }

  /** Column j of the normalised table depends on column j of the input only. */
  lemma NormalizationIsColumnwise(c1: Catalogue, c2: Catalogue, j: nat)
    requires WellFormed(c1) && WellFormed(c2) && |c1.aspects| == |c2.aspects|
    requires j < |c1.aspects| && Column(c1.rows, j) == Column(c2.rows, j)
    ensures Column(NormalizedCatalogue(c1).rows, j) == Column(NormalizedCatalogue(c2).rows, j)
  {
  }

  /**
   * The normalisation loop: `df_norm` starts as a copy of the table and each
   * aspect column is overwritten in turn by the normalised original column.
   */
  method NormalizeCatalogue(c: Catalogue) returns (n: Catalogue)
    requires WellFormed(c)
    ensures n == NormalizedCatalogue(c)
  {
    var k := |c.aspects|;
    var rows := c.rows;
    for j := 0 to k
      invariant |rows| == |c.rows| && Names(rows) == Names(c.rows)
      invariant forall i :: 0 <= i < |rows| ==> |rows[i].scores| == k
      invariant forall jj :: 0 <= jj < j ==> Column(rows, jj) == NormalizeColumn(Column(c.rows, jj))
      invariant forall jj :: j <= jj < k ==> Column(rows, jj) == Column(c.rows, jj)
    {
      var normalized := NormalizeColumn(Column(c.rows, j));
      rows := SetColumn(rows, k, j, normalized);
    }
    n := Catalogue(c.aspects, rows);
    SameColumnsSameTable(rows, NormalizedCatalogue(c).rows, k);
  }

  // ---------------------------------------------------------------------
  // compute_user_preference
  // ---------------------------------------------------------------------

  /** The bonus loop: 1.0 per occurrence of an aspect among the interest viewpoints. */
  method InterestBonus(aspects: seq<string>, selected: seq<string>) returns (bonus: seq<real>)
    ensures |bonus| == |aspects|
    ensures forall j :: 0 <= j < |aspects| ==> bonus[j] == Occurrences(selected, aspects[j]) as real
  {
    bonus := seq(|aspects|, _ => 0.0);
    for i := 0 to |selected|
      invariant |bonus| == |aspects|
      invariant forall j :: 0 <= j < |aspects| ==> bonus[j] == Occurrences(selected[..i], aspects[j]) as real
    {
      var vp := selected[i];
      if vp in aspects {
        bonus := seq(|bonus|, j requires 0 <= j < |bonus| => if aspects[j] == vp then bonus[j] + 1.0 else bonus[j]);
      }
      assert selected[..i + 1][..i] == selected[..i];
    }
    assert selected[..|selected|] == selected;
  }

  /** Per aspect: the visited spots' normalised scores plus the interest bonus. */
  function Totals(n: Catalogue, visited: seq<string>, selected: seq<string>): (t: seq<real>)
    requires WellFormed(n)
    ensures |t| == |n.aspects|
  {
    seq(|n.aspects|, j requires 0 <= j < |n.aspects| =>
      VisitedSum(n.rows, visited, j) + Occurrences(selected, n.aspects[j]) as real)
  }

  ghost predicate Positive(exp: real -> real) {
    forall x :: exp(x) > 0.0
  }

  ghost predicate StrictlyIncreasing(exp: real -> real) {
    forall x, y :: x < y ==> exp(x) < exp(y)
  }

  lemma PositiveAt(exp: real -> real, x: real)
    requires Positive(exp)
    ensures exp(x) > 0.0
  {
  }

  lemma IncreasingAt(exp: real -> real, x: real, y: real)
    requires StrictlyIncreasing(exp)
    ensures x < y ==> exp(x) < exp(y)
  {
  }

  /** `np.exp(total)`, elementwise. */
  function Exps(exp: real -> real, t: seq<real>): (e: seq<real>)
    requires Positive(exp)
    ensures |e| == |t|
    ensures forall i :: 0 <= i < |t| ==> e[i] == exp(t[i]) && e[i] > 0.0
  {
    if |t| == 0 then []
    else
      PositiveAt(exp, t[|t| - 1]);
      Exps(exp, t[..|t| - 1]) + [exp(t[|t| - 1])]
  }

  /** `exp / exp.sum()`: positive weights that sum to 1. */
  function Softmax(exp: real -> real, t: seq<real>): (w: seq<real>)
    requires Positive(exp)
    ensures |w| == |t|
    ensures forall i :: 0 <= i < |w| ==> w[i] > 0.0
    ensures |t| > 0 ==> Sum(w) == 1.0
  {
    var e := Exps(exp, t);
    if |t| == 0 then []
    else
      SumPositive(e);
      SumDivideAll(e, Sum(e));
      assert Sum(e) / Sum(e) == 1.0;
      assert forall i :: 0 <= i < |t| ==> e[i] / Sum(e) > 0.0;
      DivideAll(e, Sum(e))
  }

  /**
   * With a strictly increasing exp, softmax keeps the order of the totals:
   * a larger total gets a larger weight, equal totals equal weights, and
   * conversely.
   */
  lemma SoftmaxPreservesOrder(exp: real -> real, t: seq<real>, i: nat, j: nat)
    requires Positive(exp) && StrictlyIncreasing(exp)
    requires i < |t| && j < |t|
    ensures t[i] < t[j] <==> Softmax(exp, t)[i] < Softmax(exp, t)[j]
    ensures t[i] == t[j] <==> Softmax(exp, t)[i] == Softmax(exp, t)[j]
  {
    var e := Exps(exp, t);
    SumPositive(e);
    var z := Sum(e);
    assert Softmax(exp, t)[i] == e[i] / z && Softmax(exp, t)[j] == e[j] / z;
    IncreasingAt(exp, t[i], t[j]);
    IncreasingAt(exp, t[j], t[i]);
    MinMax.DivideKeepsOrder(e[i], e[j], z);
    MinMax.DivideKeepsOrder(e[j], e[i], z);
  }

  /** One profile row: the aspect, its weight and whether it was an interest (1) or not (0). */
  datatype Preference = Preference(aspect: string, weight: real, interested: int)

  function AspectsOf(p: seq<Preference>): (r: seq<string>)
    ensures |r| == |p|
    ensures forall k :: 0 <= k < |p| ==> r[k] == p[k].aspect
  {
    seq(|p|, k requires 0 <= k < |p| => p[k].aspect)
  }

  /**
   * The profile frame sorted by descending weight: one row per aspect
   * column, each carrying a column's weight and its interest flag.
   */
  function Profile(aspects: seq<string>, w: seq<real>, selected: seq<string>): (p: seq<Preference>)
    requires |w| == |aspects|
    ensures |p| == |aspects|
    ensures forall a, b :: 0 <= a < b < |p| ==> p[a].weight >= p[b].weight
    ensures forall k :: 0 <= k < |p| ==> p[k].aspect in aspects
    ensures forall k :: 0 <= k < |p| ==> p[k].interested == (if p[k].aspect in selected then 1 else 0)
  {
    var order := Order(w);
    seq(|aspects|, k requires 0 <= k < |aspects| =>
      Preference(aspects[order[k]], w[order[k]], Flag(aspects[order[k]], selected)))
  }

  /**
   * With distinct aspect names the profile lists every aspect exactly once,
   * each next to its own weight.
   */
  lemma ProfileMatchesWeights(aspects: seq<string>, w: seq<real>, selected: seq<string>)
    requires |w| == |aspects| && Distinct(aspects)
    ensures var p := Profile(aspects, w, selected);
            && Distinct(AspectsOf(p))
            && (forall j :: 0 <= j < |aspects| ==> aspects[j] in AspectsOf(p))
            && (forall k :: 0 <= k < |p| ==> p[k].weight == w[IndexOf(aspects, p[k].aspect)])
  {
    var order := Order(w);
    var p := Profile(aspects, w, selected);
    assert forall k :: 0 <= k < |p| ==> p[k].aspect == aspects[order[k]] && p[k].weight == w[order[k]];
    forall k | 0 <= k < |p| ensures IndexOf(aspects, p[k].aspect) == order[k] {
      var i := IndexOf(aspects, p[k].aspect);
      assert aspects[i] == aspects[order[k]];
    }
    forall j | 0 <= j < |aspects| ensures aspects[j] in AspectsOf(p) {
      var m := PositionOf(order, j);
      assert AspectsOf(p)[m] == aspects[j];
    }
  }

  datatype PreferenceResult = PreferenceResult(profile: seq<Preference>, topk: seq<string>)

  /** `weights.sort_values(ascending=False).head(top_k).index`. */
  function TopKViewpoints(p: seq<Preference>, topK: int): (r: seq<string>)
    ensures |r| == HeadCount(|p|, topK)
    ensures forall k :: 0 <= k < |r| ==> r[k] == p[k].aspect
  {
    AspectsOf(p[..HeadCount(|p|, topK)])
  }

  /**
   * Over a profile sorted by weight with distinct aspects, the top-k list is
   * distinct, and each of its aspects weighs at least as much as every
   * aspect left out of it.
   */
  lemma TopKDominates(p: seq<Preference>, topK: int)
    requires forall a, b :: 0 <= a < b < |p| ==> p[a].weight >= p[b].weight
    requires Distinct(AspectsOf(p))
    ensures var t := TopKViewpoints(p, topK);
            && Distinct(t)
            && (forall m, k :: 0 <= m < |p| && 0 <= k < |t| && p[m].aspect !in t ==> p[m].weight <= p[k].weight)
  {
    var t := TopKViewpoints(p, topK);
    forall a, b | 0 <= a < b < |t| ensures t[a] != t[b] {
      assert AspectsOf(p)[a] == t[a] && AspectsOf(p)[b] == t[b];
    }
    forall m, k | 0 <= m < |p| && 0 <= k < |t| && p[m].aspect !in t
      ensures p[m].weight <= p[k].weight
    {
      assert m >= |t|;
    }
  }

  /**
   * For any weights over distinct aspects, the top-k list of the sorted
   * profile holds HeadCount(K, top_k) distinct aspects, the first ones of
   * the profile, and each weighs at least as much as every aspect left out.
   */
  lemma ProfileTopK(aspects: seq<string>, w: seq<real>, selected: seq<string>, topK: int)
    requires |w| == |aspects| && Distinct(aspects)
    ensures var p := Profile(aspects, w, selected);
            var t := TopKViewpoints(p, topK);
            && |t| == HeadCount(|aspects|, topK)
            && Distinct(t)
            && (forall k :: 0 <= k < |t| ==> t[k] == p[k].aspect && t[k] in aspects)
            && (forall j, k :: 0 <= j < |aspects| && 0 <= k < |t| && aspects[j] !in t ==> w[j] <= p[k].weight)
  {
    var p := Profile(aspects, w, selected);
    var t := TopKViewpoints(p, topK);
    ProfileMatchesWeights(aspects, w, selected);
    TopKDominates(p, topK);
    forall j, k | 0 <= j < |aspects| && 0 <= k < |t| && aspects[j] !in t
      ensures w[j] <= p[k].weight
    {
      var m :| 0 <= m < |p| && AspectsOf(p)[m] == aspects[j];
      assert IndexOf(aspects, p[m].aspect) == j;
    }
  }

  /** The normalised visited-spot sums plus bonus, softmaxed, per aspect column. */
  function PreferenceWeights(exp: real -> real, c: Catalogue, visited: seq<string>, selected: seq<string>): (w: seq<real>)
    requires WellFormed(c) && Positive(exp)
    ensures |w| == |c.aspects|
  {
    Softmax(exp, Totals(NormalizedCatalogue(c), visited, selected))
  }

  /** What `compute_user_preference` returns. `feedback` is accepted and not read. */
  function UserPreference(exp: real -> real, visited: seq<string>, feedback: map<string, seq<string>>,
                          c: Catalogue, selected: seq<string>, topK: int): (r: PreferenceResult)
    requires WellFormed(c) && Positive(exp)
    ensures |r.profile| == |c.aspects| && |r.topk| == HeadCount(|c.aspects|, topK)
  {
    var profile := Profile(c.aspects, PreferenceWeights(exp, c, visited, selected), selected);
    PreferenceResult(profile, TopKViewpoints(profile, topK))
  }

  /**
   * `p` is a profile of the weights `w` of `aspects`: one row per aspect
   * column, every column listed once, sorted by non-increasing weight, each
   * row carrying its own column's weight and the interest flag 1 exactly
   * for the selected viewpoints.
   */
  predicate IsProfileOf(p: seq<Preference>, aspects: seq<string>, w: seq<real>, selected: seq<string>)
    requires |w| == |aspects|
  {
    && |p| == |aspects|
    && Distinct(AspectsOf(p))
    && (forall j :: 0 <= j < |aspects| ==> aspects[j] in AspectsOf(p))
    && (forall a, b :: 0 <= a < b < |p| ==> p[a].weight >= p[b].weight)
    && (forall k :: 0 <= k < |p| ==> p[k].aspect in aspects && p[k].weight == w[IndexOf(aspects, p[k].aspect)])
    && (forall k :: 0 <= k < |p| ==> (p[k].interested == 1 <==> p[k].aspect in selected))
  }

  /**
   * The profile is a profile of the softmax weights of the aspects, which
   * are positive and sum to 1.
   */
  lemma UserPreferenceProfile(exp: real -> real, visited: seq<string>, feedback: map<string, seq<string>>,
                              c: Catalogue, selected: seq<string>, topK: int)
    requires WellFormed(c) && Positive(exp)
    ensures var w := PreferenceWeights(exp, c, visited, selected);
            && IsProfileOf(UserPreference(exp, visited, feedback, c, selected, topK).profile, c.aspects, w, selected)
            && (forall j :: 0 <= j < |w| ==> w[j] > 0.0)
            && (|w| > 0 ==> Sum(w) == 1.0)
  {
    var w := PreferenceWeights(exp, c, visited, selected);
    ProfileMatchesWeights(c.aspects, w, selected);
  }

  /**
   * The top-k list holds HeadCount(K, top_k) distinct aspects (min(top_k, K)
   * for a non-negative top_k), the first ones of the profile, and each
   * weighs at least as much as every aspect left out of it.
   */
  lemma UserPreferenceTopK(exp: real -> real, visited: seq<string>, feedback: map<string, seq<string>>,
                           c: Catalogue, selected: seq<string>, topK: int)
    requires WellFormed(c) && Positive(exp)
    ensures var r := UserPreference(exp, visited, feedback, c, selected, topK);
            var w := PreferenceWeights(exp, c, visited, selected);
            && |r.topk| == HeadCount(|c.aspects|, topK)
            && (0 <= topK ==> |r.topk| == if topK <= |c.aspects| then topK else |c.aspects|)
            && Distinct(r.topk)
            && (forall k :: 0 <= k < |r.topk| ==> r.topk[k] == r.profile[k].aspect && r.topk[k] in c.aspects)
            && (forall j, k :: 0 <= j < |c.aspects| && 0 <= k < |r.topk| && c.aspects[j] !in r.topk ==>
                  w[j] <= r.profile[k].weight)
  {
    var w := PreferenceWeights(exp, c, visited, selected);
    ProfileTopK(c.aspects, w, selected, topK);
  }

  /**
   * `compute_user_preference`: normalise, sum the visited rows, add the
   * interest bonus, softmax, then build the sorted profile and the top-k list.
   */
  method ComputeUserPreference(exp: real -> real, visited: seq<string>, feedback: map<string, seq<string>>,
                               c: Catalogue, selected: seq<string>, topK: int) returns (r: PreferenceResult)
    requires WellFormed(c) && Positive(exp)
    ensures r == UserPreference(exp, visited, feedback, c, selected, topK)
  {
    var k := |c.aspects|;
    var n := NormalizeCatalogue(c);
    var base := seq(k, j requires 0 <= j < k => VisitedSum(n.rows, visited, j));
    var bonus := InterestBonus(c.aspects, selected);
    var total := seq(k, j requires 0 <= j < k => base[j] + bonus[j]);
    assert total == Totals(n, visited, selected);
    var weights := Softmax(exp, total);
    var profile := Profile(c.aspects, weights, selected);
    r := PreferenceResult(profile, TopKViewpoints(profile, topK));
  }

  // ---------------------------------------------------------------------
  // recommend_spots
  // ---------------------------------------------------------------------

  /** `1 - i / (n - 1)`, the weight of position i out of n >= 2. */
  function RankWeight(i: nat, n: nat): (w: real)
    requires i < n && n >= 2
    ensures 0.0 <= w <= 1.0
    ensures i == 0 ==> w == 1.0
    ensures i == n - 1 ==> w == 0.0
  {
    var d := (n - 1) as real;
    MinMax.DivideKeepsOrder(0.0, i as real, d);
    MinMax.DivideKeepsOrder(i as real, d, d);
    assert d / d == 1.0;
    1.0 - (i as real) / d
  }

  lemma RankWeightDecreasing(i: nat, j: nat, n: nat)
    requires i < j < n && n >= 2
    ensures RankWeight(i, n) > RankWeight(j, n)
  {
    var d := (n - 1) as real;
    MinMax.DivideKeepsOrder(j as real, i as real, d);
  }

  /**
   * `[1 - i / (n - 1) for i in range(n)]`: 1 at the first position, 0 at
   * the last, strictly decreasing in between; n = 1 divides by zero.
   */
  function LinearRankWeights(n: nat): (r: Result<seq<real>>)
    ensures r.Err? <==> n == 1
    ensures r.Err? ==> r.error == ZeroDivisionError
    ensures r.Ok? ==> |r.value| == n
    ensures r.Ok? && n >= 2 ==> r.value[0] == 1.0 && r.value[n - 1] == 0.0
    ensures r.Ok? ==> forall i :: 0 <= i < n ==> 0.0 <= r.value[i] <= 1.0
    ensures r.Ok? ==> forall i, j :: 0 <= i < j < n ==> r.value[i] > r.value[j]
  {
    if n == 1 then Err(ZeroDivisionError)
    else if n == 0 then Ok([])
    else
      var ws := seq(n, i requires 0 <= i < n => RankWeight(i, n));
      assert forall i, j :: 0 <= i < j < n ==> ws[i] > ws[j] by {
        forall i, j | 0 <= i < j < n ensures ws[i] > ws[j] {
          RankWeightDecreasing(i, j, n);
        }
      }
      Ok(ws)
  }

  /** `row[topk_viewpoints]`: the row's values of the top-k aspects, in top-k order. */
  function TopkValues(aspects: seq<string>, scores: seq<real>, topk: seq<string>): (v: seq<real>)
    requires |scores| == |aspects|
    requires forall k :: 0 <= k < |topk| ==> topk[k] in aspects
    ensures |v| == |topk|
    ensures forall k :: 0 <= k < |topk| ==> v[k] == scores[IndexOf(aspects, topk[k])]
  {
    seq(|topk|, k requires 0 <= k < |topk| => scores[IndexOf(aspects, topk[k])])
  }

  /**
   * `row[topk].sort_values(ascending=False)` followed by the linear weights:
   * each top-k aspect gets the weight of its position in the row's
   * descending sort.
   */
  function SpotRankWeights(values: seq<real>): (w: seq<real>)
    requires |values| != 1
    ensures |w| == |values|
    ensures forall k :: 0 <= k < |values| ==>
      RankOf(values, k) < |values| && w[k] == LinearRankWeights(|values|).value[RankOf(values, k)]
    ensures forall k :: 0 <= k < |values| ==> 0.0 <= w[k] <= 1.0
  {
    var lin := LinearRankWeights(|values|).value;
    var w := seq(|values|, k requires 0 <= k < |values| => RankOrder(values, k, k); lin[RankOf(values, k)]);
    assert forall k :: 0 <= k < |values| ==> RankOf(values, k) < |values| && w[k] == lin[RankOf(values, k)] by {
      forall k | 0 <= k < |values| ensures RankOf(values, k) < |values| && w[k] == lin[RankOf(values, k)] {
        RankOrder(values, k, k);
      }
    }
    w
  }

  /**
   * The row's top value (its first occurrence) gets weight 1.0 and its
   * bottom value (its last occurrence) weight 0.0, as the first and last
   * positions of the user-side rule do.
   */
  lemma SpotRankWeightsEndpoints(values: seq<real>, a: nat)
    requires 2 <= |values| && a < |values|
    ensures (forall j :: 0 <= j < |values| ==> values[j] <= values[a]) && (forall j :: 0 <= j < a ==> values[j] != values[a])
            ==> SpotRankWeights(values)[a] == 1.0
    ensures (forall j :: 0 <= j < |values| ==> values[a] <= values[j]) && (forall j :: a < j < |values| ==> values[j] != values[a])
            ==> SpotRankWeights(values)[a] == 0.0
  {
    if (forall j :: 0 <= j < |values| ==> values[j] <= values[a]) && (forall j :: 0 <= j < a ==> values[j] != values[a]) {
      RankOfFirstMaximum(values, a);
    }
    if (forall j :: 0 <= j < |values| ==> values[a] <= values[j]) && (forall j :: a < j < |values| ==> values[j] != values[a]) {
      RankOfLastMinimum(values, a);
    }
  }

  /**
   * The spot-side weights: a strictly larger value gets a strictly larger
   * weight, and no two aspects share a position.
   */
  lemma SpotRankWeightsMonotone(values: seq<real>, a: nat, b: nat)
    requires a < |values| && b < |values| && |values| != 1
    ensures values[a] > values[b] ==> SpotRankWeights(values)[a] > SpotRankWeights(values)[b]
    ensures a != b ==> SpotRankWeights(values)[a] != SpotRankWeights(values)[b]
  {
    RankOrder(values, a, b);
    RankOrder(values, b, b);
    var lin := LinearRankWeights(|values|).value;
    var ra, rb := RankOf(values, a), RankOf(values, b);
    assert SpotRankWeights(values)[a] == lin[ra] && SpotRankWeights(values)[b] == lin[rb];
  }

  /** The user-side weight of an aspect: the linear rank weight of its profile position. */
  function UserWeight(profile: seq<Preference>, userW: seq<real>, vp: string): real
    requires |userW| == |profile| && vp in AspectsOf(profile)
  {
    userW[IndexOf(AspectsOf(profile), vp)]
  }

  /** Every top-k name is among the given aspects. */
  predicate TopkInColumns(aspects: seq<string>, topk: seq<string>) {
    forall k :: 0 <= k < |topk| ==> topk[k] in aspects
  }

  /** One aspect's contribution to a spot's score. */
  function Term(value: real, userWeight: real, spotWeight: real): real {
    value * userWeight * spotWeight
  }

  /** One term per top-k aspect: value × user weight × spot weight. */
  function SpotTerms(aspects: seq<string>, scores: seq<real>, profile: seq<Preference>,
                     userW: seq<real>, topk: seq<string>): (t: seq<real>)
    requires |scores| == |aspects| && |userW| == |profile| && |topk| != 1
    requires TopkInColumns(aspects, topk) && TopkInColumns(AspectsOf(profile), topk)
    ensures |t| == |topk|
  {
    var values := TopkValues(aspects, scores, topk);
    var spotW := SpotRankWeights(values);
    seq(|topk|, k requires 0 <= k < |topk| =>
      Term(values[k], UserWeight(profile, userW, topk[k]), spotW[k]))
  }

  function SpotScore(aspects: seq<string>, scores: seq<real>, profile: seq<Preference>,
                     userW: seq<real>, topk: seq<string>): real
    requires |scores| == |aspects| && |userW| == |profile| && |topk| != 1
    requires TopkInColumns(aspects, topk) && TopkInColumns(AspectsOf(profile), topk)
  {
    Sum(SpotTerms(aspects, scores, profile, userW, topk))
  }

  lemma TermInUnit(x: real, y: real, z: real)
    requires 0.0 <= x <= 1.0 && 0.0 <= y <= 1.0 && 0.0 <= z <= 1.0
    ensures 0.0 <= Term(x, y, z) <= 1.0
  {
    assert 0.0 <= x * y <= x;
    assert 0.0 <= (x * y) * z <= x * y;
  }

  lemma SpotTermInUnit(aspects: seq<string>, scores: seq<real>, profile: seq<Preference>,
                       userW: seq<real>, topk: seq<string>, k: nat)
    requires |scores| == |aspects| && |userW| == |profile| && |topk| != 1 && k < |topk|
    requires TopkInColumns(aspects, topk) && TopkInColumns(AspectsOf(profile), topk)
    requires forall j :: 0 <= j < |scores| ==> 0.0 <= scores[j] <= 1.0
    requires forall i :: 0 <= i < |userW| ==> 0.0 <= userW[i] <= 1.0
    ensures 0.0 <= SpotTerms(aspects, scores, profile, userW, topk)[k] <= 1.0
  {
    var values := TopkValues(aspects, scores, topk);
    var x, y, z := values[k], UserWeight(profile, userW, topk[k]), SpotRankWeights(values)[k];
    assert 0.0 <= x <= 1.0;
    assert 0.0 <= y <= 1.0;
    TermInUnit(x, y, z);
  }

  /**
   * With values and user weights in [0, 1], a spot's score lies in
   * [0, |topk|]; an empty top-k list scores 0.
   */
  lemma SpotScoreBounds(aspects: seq<string>, scores: seq<real>, profile: seq<Preference>,
                        userW: seq<real>, topk: seq<string>)
    requires |scores| == |aspects| && |userW| == |profile| && |topk| != 1
    requires TopkInColumns(aspects, topk) && TopkInColumns(AspectsOf(profile), topk)
    requires forall j :: 0 <= j < |scores| ==> 0.0 <= scores[j] <= 1.0
    requires forall i :: 0 <= i < |userW| ==> 0.0 <= userW[i] <= 1.0
    ensures 0.0 <= SpotScore(aspects, scores, profile, userW, topk) <= |topk| as real
    ensures topk == [] ==> SpotScore(aspects, scores, profile, userW, topk) == 0.0
  {
    var t := SpotTerms(aspects, scores, profile, userW, topk);
    forall k | 0 <= k < |topk| ensures 0.0 <= t[k] <= 1.0 {
      SpotTermInUnit(aspects, scores, profile, userW, topk, k);
    }
    SumInUnit(t);
  }

  lemma SpotTermAt(aspects: seq<string>, scores: seq<real>, profile: seq<Preference>,
                   userW: seq<real>, topk: seq<string>, k: nat)
    requires |scores| == |aspects| && |userW| == |profile| && |topk| != 1 && k < |topk|
    requires TopkInColumns(aspects, topk) && TopkInColumns(AspectsOf(profile), topk)
    ensures SpotTerms(aspects, scores, profile, userW, topk)[k]
         == Term(scores[IndexOf(aspects, topk[k])], UserWeight(profile, userW, topk[k]),
                 SpotRankWeights(TopkValues(aspects, scores, topk))[k])
  {
  }

  /** The `score +=` loop over the top-k aspects of one row. */
  method ScoreSpot(aspects: seq<string>, row: Row, profile: seq<Preference>,
                   userW: seq<real>, topk: seq<string>) returns (score: real)
    requires |row.scores| == |aspects| && |userW| == |profile| && |topk| != 1
    requires TopkInColumns(aspects, topk) && TopkInColumns(AspectsOf(profile), topk)
    ensures score == SpotScore(aspects, row.scores, profile, userW, topk)
  {
    var spotW := SpotRankWeights(TopkValues(aspects, row.scores, topk));
    ghost var terms := SpotTerms(aspects, row.scores, profile, userW, topk);
    score := 0.0;
    for k := 0 to |topk|
      invariant score == Sum(terms[..k])
    {
      var vp := topk[k];
      SpotTermAt(aspects, row.scores, profile, userW, topk, k);
      SumStep(terms, k);
      score := score + Term(row.scores[IndexOf(aspects, vp)], UserWeight(profile, userW, vp), spotW[k]);
    }
    assert terms[..|topk|] == terms;
  }

  /**
   * The checks the scoring loop makes on every row, and that fail already on
   * the first: no KeyError and no division by zero in the row loop.
   */
  predicate Scorable(c: Catalogue, profile: seq<Preference>, topk: seq<string>) {
    TopkInColumns(c.aspects, topk) && |topk| != 1 && TopkInColumns(AspectsOf(profile), topk)
  }

  /** One score per row of a table, top to bottom. */
  function RowScores(aspects: seq<string>, rows: seq<Row>, profile: seq<Preference>, userW: seq<real>, topk: seq<string>)
    : (s: seq<real>)
    requires forall i :: 0 <= i < |rows| ==> |rows[i].scores| == |aspects|
    requires |userW| == |profile| && |topk| != 1
    requires TopkInColumns(aspects, topk) && TopkInColumns(AspectsOf(profile), topk)
    ensures |s| == |rows|
    ensures forall i :: 0 <= i < |rows| ==> s[i] == SpotScore(aspects, rows[i].scores, profile, userW, topk)
  {
    seq(|rows|, i requires 0 <= i < |rows| => SpotScore(aspects, rows[i].scores, profile, userW, topk))
  }

  /** One score per catalogue row, computed on the normalised catalogue. */
  function SpotScores(profile: seq<Preference>, c: Catalogue, topk: seq<string>): (s: seq<real>)
    requires WellFormed(c) && |profile| != 1 && Scorable(c, profile, topk)
    ensures |s| == |c.rows|
  {
    RowScores(c.aspects, NormalizedCatalogue(c).rows, profile, LinearRankWeights(|profile|).value, topk)
  }

  /**
   * Every top-k name is a label of an `iterrows` row: an aspect column or
   * the name column.
   */
  predicate TopkInRow(aspects: seq<string>, topk: seq<string>) {
    forall k :: 0 <= k < |topk| ==> topk[k] in aspects || topk[k] == NameColumn
  }

  /**
   * What `recommend_spots` returns, errors included: a one-row profile
   * divides by zero; an empty catalogue leaves nothing to sort by score; a
   * top-k name that is not a label of the row is a KeyError; a single
   * top-k name divides by zero; the name column among two or more top-k
   * names makes the row's sort compare a string with numbers, a TypeError;
   * a top-k aspect not in the profile is a KeyError.  The unused `top_k`
   * argument is kept.
   */
  function Recommend(profile: seq<Preference>, c: Catalogue, topK: int, topk: seq<string>): (r: Result<seq<Recommendation>>)
    requires WellFormed(c) && Distinct(AspectsOf(profile)) && Distinct(topk)
    ensures |profile| == 1 ==> r == Err(ZeroDivisionError)
    ensures |profile| != 1 && |c.rows| == 0 ==> r == Err(KeyError)
    ensures r.Ok? <==> |profile| != 1 && |c.rows| > 0 && Scorable(c, profile, topk)
    ensures r.Err? && |profile| != 1 && |c.rows| > 0 ==>
      (r.error == ZeroDivisionError <==> TopkInRow(c.aspects, topk) && |topk| == 1)
    ensures r.Err? && |profile| != 1 && |c.rows| > 0 ==>
      (r.error == TypeError <==> TopkInRow(c.aspects, topk) && |topk| >= 2 && NameColumn in topk)
  {
    if |profile| == 1 then Err(ZeroDivisionError)
    else if |c.rows| == 0 then Err(KeyError)
    else if !TopkInRow(c.aspects, topk) then Err(KeyError)
    else if |topk| == 1 then Err(ZeroDivisionError)
    else if NameColumn in topk then Err(TypeError)
    else if !TopkInColumns(AspectsOf(profile), topk) then Err(KeyError)
    else Ok(TopTen(Names(c.rows), SpotScores(profile, c, topk)))
  }

  /** Every spot's score lies in [0, |topk|]. */
  lemma SpotScoresBounds(profile: seq<Preference>, c: Catalogue, topk: seq<string>)
    requires WellFormed(c) && |profile| != 1 && Scorable(c, profile, topk)
    ensures forall i :: 0 <= i < |c.rows| ==> 0.0 <= SpotScores(profile, c, topk)[i] <= |topk| as real
  {
    var userW := LinearRankWeights(|profile|).value;
    var n := NormalizedCatalogue(c);
    forall i | 0 <= i < |c.rows| ensures 0.0 <= SpotScores(profile, c, topk)[i] <= |topk| as real {
      forall j | 0 <= j < |c.aspects| ensures 0.0 <= n.rows[i].scores[j] <= 1.0 {
        NormalizedInUnit(c, i, j);
      }
      SpotScoreBounds(c.aspects, n.rows[i].scores, profile, userW, topk);
    }
  }

  /**
   * A successful recommendation lists at most ten distinct catalogue spots
   * with their own scores, each in [0, |topk|], sorted non-increasing, and
   * every spot left out scores no more than the last one listed.  Visited
   * spots are not excluded: every row competes.
   */
  lemma RecommendResult(profile: seq<Preference>, c: Catalogue, topK: int, topk: seq<string>)
    requires WellFormed(c) && Distinct(AspectsOf(profile)) && Distinct(topk)
    requires Recommend(profile, c, topK, topk).Ok?
    ensures var r := Recommend(profile, c, topK, topk).value;
            && |r| == (if |c.rows| < 10 then |c.rows| else 10)
            && ListsBest(r, Names(c.rows), SpotScores(profile, c, topk))
            && (forall k :: 0 <= k < |r| ==> 0.0 <= r[k].score <= |topk| as real)
  {
    var s := SpotScores(profile, c, topk);
    assert Recommend(profile, c, topK, topk).value == TopTen(Names(c.rows), s);
    SpotScoresBounds(profile, c, topk);
    TopTenWithin(Names(c.rows), s, 0.0, |topk| as real);
  }

  /** An empty top-k list scores every spot 0. */
  lemma RecommendEmptyTopk(profile: seq<Preference>, c: Catalogue, topK: int)
    requires WellFormed(c) && Distinct(AspectsOf(profile))
    requires Recommend(profile, c, topK, []).Ok?
    ensures forall k :: 0 <= k < |Recommend(profile, c, topK, []).value| ==> Recommend(profile, c, topK, []).value[k].score == 0.0
  {
    var userW := LinearRankWeights(|profile|).value;
    var n := NormalizedCatalogue(c);
    forall i | 0 <= i < |c.rows| ensures SpotScores(profile, c, [])[i] == 0.0 {
      assert SpotTerms(c.aspects, n.rows[i].scores, profile, userW, []) == [];
    }
  }

  /** A spot's score reads its row only through the values of the top-k aspects. */
  lemma SpotScoreReadsTopkValues(aspects: seq<string>, s1: seq<real>, s2: seq<real>, profile: seq<Preference>,
                                 userW: seq<real>, topk: seq<string>)
    requires |s1| == |aspects| && |s2| == |aspects| && |userW| == |profile| && |topk| != 1
    requires TopkInColumns(aspects, topk) && TopkInColumns(AspectsOf(profile), topk)
    requires forall k :: 0 <= k < |topk| ==> s1[IndexOf(aspects, topk[k])] == s2[IndexOf(aspects, topk[k])]
    ensures SpotScore(aspects, s1, profile, userW, topk) == SpotScore(aspects, s2, profile, userW, topk)
  {
    assert TopkValues(aspects, s1, topk) == TopkValues(aspects, s2, topk);
  }

  /** Two tables of the same height and width that agree on every top-k column. */
  predicate AgreeOnTopk(aspects: seq<string>, rows1: seq<Row>, rows2: seq<Row>, topk: seq<string>) {
    && |rows1| == |rows2|
    && (forall i :: 0 <= i < |rows1| ==> |rows1[i].scores| == |aspects| && |rows2[i].scores| == |aspects|)
    && forall j :: 0 <= j < |aspects| && aspects[j] in topk ==> Column(rows1, j) == Column(rows2, j)
  }

  /** Two tables that agree on the top-k columns get the same scores, row by row. */
  lemma RowScoresReadTopkColumns(aspects: seq<string>, rows1: seq<Row>, rows2: seq<Row>, profile: seq<Preference>,
                                 userW: seq<real>, topk: seq<string>)
    requires AgreeOnTopk(aspects, rows1, rows2, topk)
    requires |userW| == |profile| && |topk| != 1
    requires TopkInColumns(aspects, topk) && TopkInColumns(AspectsOf(profile), topk)
    ensures RowScores(aspects, rows1, profile, userW, topk) == RowScores(aspects, rows2, profile, userW, topk)
  {
    forall i | 0 <= i < |rows1|
      ensures SpotScore(aspects, rows1[i].scores, profile, userW, topk) == SpotScore(aspects, rows2[i].scores, profile, userW, topk)
    {
      forall k | 0 <= k < |topk|
        ensures rows1[i].scores[IndexOf(aspects, topk[k])] == rows2[i].scores[IndexOf(aspects, topk[k])]
      {
        var j := IndexOf(aspects, topk[k]);
        assert Column(rows1, j)[i] == Column(rows2, j)[i];
      }
      SpotScoreReadsTopkValues(aspects, rows1[i].scores, rows2[i].scores, profile, userW, topk);
    }
  }

  /** Normalisation keeps two catalogues' agreement on the top-k columns. */
  lemma NormalizationKeepsAgreement(c1: Catalogue, c2: Catalogue, topk: seq<string>)
    requires WellFormed(c1) && WellFormed(c2) && c1.aspects == c2.aspects
    requires AgreeOnTopk(c1.aspects, c1.rows, c2.rows, topk)
    ensures AgreeOnTopk(c1.aspects, NormalizedCatalogue(c1).rows, NormalizedCatalogue(c2).rows, topk)
  {
    forall j | 0 <= j < |c1.aspects| && c1.aspects[j] in topk
      ensures Column(NormalizedCatalogue(c1).rows, j) == Column(NormalizedCatalogue(c2).rows, j)
    {
      NormalizationIsColumnwise(c1, c2, j);
    }
  }

  /**
   * Columns outside the top-k list have no influence: two catalogues with
   * the same spots that agree on every top-k column get the same scores.
   */
  lemma SpotScoresIgnoreOtherColumns(profile: seq<Preference>, c1: Catalogue, c2: Catalogue, topk: seq<string>)
    requires WellFormed(c1) && WellFormed(c2) && |profile| != 1 && Scorable(c1, profile, topk)
    requires c1.aspects == c2.aspects && AgreeOnTopk(c1.aspects, c1.rows, c2.rows, topk)
    ensures SpotScores(profile, c1, topk) == SpotScores(profile, c2, topk)
  {
    NormalizationKeepsAgreement(c1, c2, topk);
    RowScoresReadTopkColumns(c1.aspects, NormalizedCatalogue(c1).rows, NormalizedCatalogue(c2).rows,
                             profile, LinearRankWeights(|profile|).value, topk);
  }

  /** Hence the recommendation itself ignores the columns outside the top-k list. */
  lemma RecommendIgnoresOtherColumns(profile: seq<Preference>, c1: Catalogue, c2: Catalogue, topK: int, topk: seq<string>)
    requires WellFormed(c1) && WellFormed(c2) && Distinct(AspectsOf(profile)) && Distinct(topk)
    requires c1.aspects == c2.aspects && Names(c1.rows) == Names(c2.rows)
    requires AgreeOnTopk(c1.aspects, c1.rows, c2.rows, topk)
    ensures Recommend(profile, c1, topK, topk) == Recommend(profile, c2, topK, topk)
  {
    if |profile| != 1 && |c1.rows| > 0 && Scorable(c1, profile, topk) {
      SpotScoresIgnoreOtherColumns(profile, c1, c2, topk);
    }
  }

  /** The `top_k` argument is never read. */
  lemma RecommendIgnoresTopK(profile: seq<Preference>, c: Catalogue, k1: int, k2: int, topk: seq<string>)
    requires WellFormed(c) && Distinct(AspectsOf(profile)) && Distinct(topk)
    ensures Recommend(profile, c, k1, topk) == Recommend(profile, c, k2, topk)
  {
  }

  /** The `iterrows` loop: one score per catalogue row, appended in row order. */
  method ScoreRows(aspects: seq<string>, rows: seq<Row>, profile: seq<Preference>, userW: seq<real>, topk: seq<string>)
    returns (scores: seq<real>)
    requires forall i :: 0 <= i < |rows| ==> |rows[i].scores| == |aspects|
    requires |userW| == |profile| && |topk| != 1
    requires TopkInColumns(aspects, topk) && TopkInColumns(AspectsOf(profile), topk)
    ensures scores == RowScores(aspects, rows, profile, userW, topk)
  {
    scores := [];
    for i := 0 to |rows|
      invariant |scores| == i
      invariant forall t :: 0 <= t < i ==> scores[t] == SpotScore(aspects, rows[t].scores, profile, userW, topk)
    {
      var s := ScoreSpot(aspects, rows[i], profile, userW, topk);
      scores := scores + [s];
    }
  }

  /**
   * `recommend_spots`: user rank weights, a normalised copy of the
   * catalogue, one score per row, then the ten best.  The source makes its
   * top-k checks inside the row loop; they do not depend on the row, so
   * they fail on the first row or never, and are made once before the loop
   * here when there is a row.
   */
  method RecommendSpots(profile: seq<Preference>, c: Catalogue, topK: int, topk: seq<string>)
    returns (r: Result<seq<Recommendation>>)
    requires WellFormed(c) && Distinct(AspectsOf(profile)) && Distinct(topk)
    ensures r == Recommend(profile, c, topK, topk)
  {
    var userWeights := LinearRankWeights(|profile|);
    if userWeights.Err? {
      return Err(ZeroDivisionError);
    }
    var userW := userWeights.value;
    var n := NormalizeCatalogue(c);
    if |n.rows| == 0 {
      // `pd.DataFrame([])` has no score column to sort by
      return Err(KeyError);
    }
    if !TopkInRow(c.aspects, topk) {
      return Err(KeyError);
    }
    if |topk| == 1 {
      return Err(ZeroDivisionError);
    }
    if NameColumn in topk {
      // `sort_values` would compare the spot's name with its scores
      return Err(TypeError);
    }
    if !TopkInColumns(AspectsOf(profile), topk) {
      return Err(KeyError);
    }
    var scores := ScoreRows(c.aspects, n.rows, profile, userW, topk);
    assert scores == SpotScores(profile, c, topk);
    r := Ok(TopTen(Names(n.rows), scores));
  }
}
