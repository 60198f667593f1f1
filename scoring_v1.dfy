/**
 * The earlier scoring engine (the ver1.0 experiment).
 *
 * `compute_user_preference` scores each aspect column twice: 0.05 per time a
 * visited spot's feedback names it (method 1), and the raw column sum over
 * the visited rows, min-max rescaled (method 2); the profile is sorted by
 * their sum.  `recommend_spots` gives profile position i the weight
 * max(1 - 0.1 i, 0) and scores each spot by the dot product of those
 * weights with its raw aspect scores.
 *
 * A spot's feedback is modelled as the list of viewpoints it was reported
 * good for.
 */
module ScoringV1 {
  import opened Tables
  import opened Ranking
  import MinMax

  // ---------------------------------------------------------------------
  // compute_user_preference
  // ---------------------------------------------------------------------

  /** What one mention of a viewpoint in the feedback adds to method 1. */
  const SmallBonus: real := 0.05

  /** Every visited spot has a feedback entry. */
  predicate AllKnown(visited: seq<string>, feedback: map<string, seq<string>>) {
    forall k :: 0 <= k < |visited| ==> visited[k] in feedback
  }

  /**
   * How many times `vp` is among the feedback viewpoints of the visited
   * spots, in visiting order; a spot visited twice counts twice.
   */
  function FeedbackCount(visited: seq<string>, feedback: map<string, seq<string>>, vp: string): (n: nat)
    requires AllKnown(visited, feedback)
  {
    if |visited| == 0 then 0
    else FeedbackCount(visited[..|visited| - 1], feedback, vp) + Occurrences(feedback[visited[|visited| - 1]], vp)
  }

  /** An aspect is counted exactly when some visited spot's feedback names it. */
  lemma {:induction false} FeedbackCountPositive(visited: seq<string>, feedback: map<string, seq<string>>, vp: string)
    requires AllKnown(visited, feedback)
    ensures FeedbackCount(visited, feedback, vp) > 0 <==> exists k :: 0 <= k < |visited| && vp in feedback[visited[k]]
  {
    if |visited| > 0 {
      var n := |visited| - 1;
      assert AllKnown(visited[..n], feedback) by {
        forall k | 0 <= k < n ensures visited[..n][k] in feedback {
          assert visited[..n][k] == visited[k];
        }
      }
      FeedbackCountPositive(visited[..n], feedback, vp);
      if exists k :: 0 <= k < n && vp in feedback[visited[..n][k]] {
        var k :| 0 <= k < n && vp in feedback[visited[..n][k]];
        assert visited[..n][k] == visited[k];
      }
      if exists k :: 0 <= k < |visited| && vp in feedback[visited[k]] {
        var k :| 0 <= k < |visited| && vp in feedback[visited[k]];
        if k < n {
          assert visited[..n][k] == visited[k];
        }
      }
    }
  }

  /** Counting over two visit lists one after the other adds their counts. */
  lemma {:induction false} FeedbackCountConcat(v1: seq<string>, v2: seq<string>, feedback: map<string, seq<string>>, vp: string)
    requires AllKnown(v1, feedback) && AllKnown(v2, feedback)
    ensures AllKnown(v1 + v2, feedback)
    ensures FeedbackCount(v1 + v2, feedback, vp) == FeedbackCount(v1, feedback, vp) + FeedbackCount(v2, feedback, vp)
  {
    var v := v1 + v2;
    assert AllKnown(v, feedback) by {
      forall k | 0 <= k < |v| ensures v[k] in feedback {
        if k < |v1| { assert v[k] == v1[k]; } else { assert v[k] == v2[k - |v1|]; }
      }
    }
    if |v2| == 0 {
      assert v == v1;
    } else {
      var n := |v2| - 1;
      assert v[..|v| - 1] == v1 + v2[..n];
      assert v[|v| - 1] == v2[n];
      assert AllKnown(v2[..n], feedback) by {
        forall k | 0 <= k < n ensures v2[..n][k] in feedback {
          assert v2[..n][k] == v2[k];
        }
      }
      FeedbackCountConcat(v1, v2[..n], feedback, vp);
    }
  }

  /** Unlike the visited-row sum, a repeated visit list counts every mention again. */
  lemma RepeatedVisitsCountTwice(visited: seq<string>, feedback: map<string, seq<string>>, vp: string)
    requires AllKnown(visited, feedback)
    ensures AllKnown(visited + visited, feedback)
    ensures FeedbackCount(visited + visited, feedback, vp) == 2 * FeedbackCount(visited, feedback, vp)
  {
    FeedbackCountConcat(visited, visited, feedback, vp);
  }

  /** `dict.get(key, 0)`. */
  function Get(m: map<string, nat>, key: string): nat {
    if key in m then m[key] else 0
  }

  lemma OccurrencesStep(s: seq<string>, t: nat, x: string)
    requires t < |s|
    ensures Occurrences(s[..t + 1], x) == Occurrences(s[..t], x) + (if s[t] == x then 1 else 0)
  {
    assert s[..t + 1][..t] == s[..t];
  }

  lemma FeedbackCountStep(visited: seq<string>, i: nat, feedback: map<string, seq<string>>, vp: string)
    requires i < |visited| && AllKnown(visited[..i + 1], feedback)
    ensures AllKnown(visited[..i], feedback)
    ensures FeedbackCount(visited[..i + 1], feedback, vp) == FeedbackCount(visited[..i], feedback, vp) + Occurrences(feedback[visited[i]], vp)
  {
    assert visited[..i + 1][..i] == visited[..i];
    assert forall k :: 0 <= k < i ==> visited[..i][k] == visited[..i + 1][k];
  }

  /**
   * The counting loop: one increment per viewpoint in the feedback of each
   * visited spot.  A visited spot with no feedback entry is a KeyError.
   */
  method ViewpointCount(visited: seq<string>, feedback: map<string, seq<string>>) returns (r: Result<map<string, nat>>)
    ensures r.Ok? <==> AllKnown(visited, feedback)
    ensures r.Err? ==> r.error == KeyError
    ensures r.Ok? ==> forall vp :: Get(r.value, vp) == FeedbackCount(visited, feedback, vp)
  {
    var count: map<string, nat> := map[];
    for i := 0 to |visited|
      invariant AllKnown(visited[..i], feedback)
      invariant forall vp :: Get(count, vp) == FeedbackCount(visited[..i], feedback, vp)
    {
      var spot := visited[i];
      if spot !in feedback {
        return Err(KeyError);
      }
      var known := visited[..i + 1];
      assert AllKnown(known, feedback) by {
        forall k | 0 <= k < |known| ensures known[k] in feedback {
          if k < i { assert known[k] == visited[..i][k]; }
        }
      }
      var vps := feedback[spot];
      for t := 0 to |vps|
        invariant forall vp :: Get(count, vp) == FeedbackCount(visited[..i], feedback, vp) + Occurrences(vps[..t], vp)
      {
        forall vp ensures Occurrences(vps[..t + 1], vp) == Occurrences(vps[..t], vp) + (if vps[t] == vp then 1 else 0) {
          OccurrencesStep(vps, t, vp);
        }
        count := count[vps[t] := Get(count, vps[t]) + 1];
      }
      assert vps[..|vps|] == vps;
      forall vp ensures FeedbackCount(visited[..i + 1], feedback, vp) == FeedbackCount(visited[..i], feedback, vp) + Occurrences(vps, vp) {
        FeedbackCountStep(visited, i, feedback, vp);
      }
    }
    assert visited[..|visited|] == visited;
    return Ok(count);
  }

  /** Method 1 per aspect column: 0.05 per mention; mentions of non-columns are dropped. */
  function Method1(aspects: seq<string>, visited: seq<string>, feedback: map<string, seq<string>>): (m: seq<real>)
    requires AllKnown(visited, feedback)
    ensures |m| == |aspects|
    ensures forall j :: 0 <= j < |aspects| ==> m[j] == (FeedbackCount(visited, feedback, aspects[j]) as real) * SmallBonus
    ensures forall j :: 0 <= j < |aspects| ==> m[j] >= 0.0
  {
    seq(|aspects|, j requires 0 <= j < |aspects| => (FeedbackCount(visited, feedback, aspects[j]) as real) * SmallBonus)
  }

  /** The `dup_scores` loop: one entry per aspect column, its count times 0.05. */
  method Method1Scores(aspects: seq<string>, count: map<string, nat>) returns (m: seq<real>)
    ensures |m| == |aspects|
    ensures forall j :: 0 <= j < |aspects| ==> m[j] == (Get(count, aspects[j]) as real) * SmallBonus
  {
    m := [];
    for j := 0 to |aspects|
      invariant |m| == j
      invariant forall t :: 0 <= t < j ==> m[t] == (Get(count, aspects[t]) as real) * SmallBonus
    {
      m := m + [(Get(count, aspects[j]) as real) * SmallBonus];
    }
  }

  /** Method 2 per aspect column: the raw column sum over the visited rows. */
  function Method2(c: Catalogue, visited: seq<string>): (m: seq<real>)
    requires WellFormed(c)
    ensures |m| == |c.aspects|
    ensures forall j :: 0 <= j < |c.aspects| ==> m[j] == VisitedSum(c.rows, visited, j)
  {
    seq(|c.aspects|, j requires 0 <= j < |c.aspects| => VisitedSum(c.rows, visited, j))
  }

  /** The `weighted_scores` loop: one visited-row column sum per aspect column. */
  method Method2Scores(c: Catalogue, visited: seq<string>) returns (m: seq<real>)
    requires WellFormed(c)
    ensures m == Method2(c, visited)
  {
    m := [];
    for j := 0 to |c.aspects|
      invariant |m| == j
      invariant forall t :: 0 <= t < j ==> m[t] == VisitedSum(c.rows, visited, t)
    {
      m := m + [VisitedSum(c.rows, visited, j)];
    }
  }

  /** One summary row: both method scores, the rescaled method 2, their total and the interest flag. */
  datatype SummaryRow = SummaryRow(aspect: string, method1: real, method2: real, method2Norm: real, total: real, interested: int)

  function SummaryAspects(s: seq<SummaryRow>): (r: seq<string>)
    ensures |r| == |s|
    ensures forall k :: 0 <= k < |s| ==> r[k] == s[k].aspect
  {
    seq(|s|, k requires 0 <= k < |s| => s[k].aspect)
  }

  /** The `総合スコア` column of a summary. */
  function SummaryTotals(s: seq<SummaryRow>): (t: seq<real>)
    ensures |t| == |s|
    ensures forall k :: 0 <= k < |s| ==> t[k] == s[k].total
  {
    seq(|s|, k requires 0 <= k < |s| => s[k].total)
  }

  /** Method 1 plus min-max of method 2, per aspect column. */
  function Combined(m1: seq<real>, m2: seq<real>): (t: seq<real>)
    requires |m1| == |m2|
    ensures |t| == |m1|
    ensures forall j :: 0 <= j < |m1| ==> t[j] == m1[j] + MinMax.MinMax(m2)[j]
  {
    var norm := MinMax.MinMax(m2);
    seq(|m1|, j requires 0 <= j < |m1| => m1[j] + norm[j])
  }

  /**
   * The merged summary sorted by descending total: every row carries one
   * aspect column's scores, and the totals are non-increasing.
   */
  function Summary(aspects: seq<string>, m1: seq<real>, m2: seq<real>, selected: seq<string>): (s: seq<SummaryRow>)
    requires |m1| == |aspects| && |m2| == |aspects|
    ensures |s| == |aspects|
    ensures forall a, b :: 0 <= a < b < |s| ==> s[a].total >= s[b].total
    ensures forall k :: 0 <= k < |s| ==> s[k].total == s[k].method1 + s[k].method2Norm
    ensures forall k :: 0 <= k < |s| ==> 0.0 <= s[k].method2Norm <= 1.0
    ensures forall k :: 0 <= k < |s| ==> s[k].interested == Flag(s[k].aspect, selected)
    ensures (forall j :: 0 <= j < |m1| ==> m1[j] >= 0.0) ==> forall k :: 0 <= k < |s| ==> s[k].method1 >= 0.0
  {
    var norm := MinMax.MinMax(m2);
    var total := Combined(m1, m2);
    var order := Order(total);
    seq(|aspects|, k requires 0 <= k < |aspects| =>
      var j := order[k];
      SummaryRow(aspects[j], m1[j], m2[j], norm[j], total[j], Flag(aspects[j], selected)))
  }

  /**
   * With distinct aspect names the summary lists every aspect column exactly
   * once, each row with that column's own method scores.
   */
  lemma SummaryMatchesColumns(aspects: seq<string>, m1: seq<real>, m2: seq<real>, selected: seq<string>)
    requires |m1| == |aspects| && |m2| == |aspects| && Distinct(aspects)
    ensures var s := Summary(aspects, m1, m2, selected);
            && Distinct(SummaryAspects(s))
            && (forall j :: 0 <= j < |aspects| ==> aspects[j] in SummaryAspects(s))
            && (forall k :: 0 <= k < |s| ==>
                  && s[k].aspect in aspects
                  && var j := IndexOf(aspects, s[k].aspect);
                     s[k].method1 == m1[j] && s[k].method2 == m2[j] && s[k].method2Norm == MinMax.MinMax(m2)[j])
            && (MinMax.Constant(m2) ==> forall k :: 0 <= k < |s| ==> s[k].method2Norm == 1.0)
  {
    var order := Order(Combined(m1, m2));
    var s := Summary(aspects, m1, m2, selected);
    forall k | 0 <= k < |s| ensures IndexOf(aspects, s[k].aspect) == order[k] {
      var i := IndexOf(aspects, s[k].aspect);
      assert aspects[i] == aspects[order[k]];
    }
    forall a, b | 0 <= a < b < |s| ensures SummaryAspects(s)[a] != SummaryAspects(s)[b] {
      assert order[a] != order[b];
    }
    forall j | 0 <= j < |aspects| ensures aspects[j] in SummaryAspects(s) {
      var m := PositionOf(order, j);
      assert SummaryAspects(s)[m] == aspects[j];
    }
  }

  /**
   * What `compute_user_preference` returns.  A visited spot without
   * feedback is a KeyError, and so is a catalogue without aspect columns
   * (the empty method-1 frame has no column to merge on).
   */
  function UserPreferenceV1(visited: seq<string>, feedback: map<string, seq<string>>, c: Catalogue, selected: seq<string>)
    : (r: Result<seq<SummaryRow>>)
    requires WellFormed(c)
    ensures r.Err? <==> !AllKnown(visited, feedback) || |c.aspects| == 0
    ensures r.Err? ==> r.error == KeyError
  {
    if !AllKnown(visited, feedback) then Err(KeyError)
    else if |c.aspects| == 0 then Err(KeyError)
    else Ok(Summary(c.aspects, Method1(c.aspects, visited, feedback), Method2(c, visited), selected))
  }

  /**
   * The summary has one row per aspect column; a row's method 1 is 0.05
   * times the aspect's feedback count, its method 2 is the raw visited-row
   * sum of its column, and its rescaled method 2 is that column's `minmax`
   * value (1.0 throughout when method 2 is the same for every column).
   */
  lemma UserPreferenceV1Columns(visited: seq<string>, feedback: map<string, seq<string>>, c: Catalogue, selected: seq<string>,
                                s: seq<SummaryRow>)
    requires WellFormed(c) && UserPreferenceV1(visited, feedback, c, selected) == Ok(s)
    ensures var m2 := Method2(c, visited);
            && |s| == |c.aspects|
            && Distinct(SummaryAspects(s))
            && (forall j :: 0 <= j < |c.aspects| ==> c.aspects[j] in SummaryAspects(s))
            && (forall k :: 0 <= k < |s| ==>
                  && s[k].aspect in c.aspects
                  && var j := IndexOf(c.aspects, s[k].aspect);
                     && s[k].method1 == (FeedbackCount(visited, feedback, s[k].aspect) as real) * SmallBonus
                     && s[k].method2 == VisitedSum(c.rows, visited, j)
                     && s[k].method2Norm == MinMax.MinMax(m2)[j])
            && (MinMax.Constant(m2) ==> forall k :: 0 <= k < |s| ==> s[k].method2Norm == 1.0)
  {
    var m1 := Method1(c.aspects, visited, feedback);
    var m2 := Method2(c, visited);
    assert s == Summary(c.aspects, m1, m2, selected);
    SummaryMatchesColumns(c.aspects, m1, m2, selected);
  }

  /**
   * A summary sorted by non-increasing total, each total being method 1
   * plus the rescaled method 2, which lies in [0, 1], with the total at
   * least the rescaled part, and the flag 1 exactly for the interest
   * viewpoints.
   */
  predicate RankedSummary(s: seq<SummaryRow>, selected: seq<string>) {
    && (forall a, b :: 0 <= a < b < |s| ==> s[a].total >= s[b].total)
    && (forall k :: 0 <= k < |s| ==>
          && s[k].total == s[k].method1 + s[k].method2Norm
          && 0.0 <= s[k].method2Norm <= 1.0
          && s[k].total >= s[k].method2Norm)
    && (forall k :: 0 <= k < |s| ==> (s[k].interested == 1 <==> s[k].aspect in selected))
  }

  /** The summary is ranked; in particular every total is non-negative. */
  lemma UserPreferenceV1Totals(visited: seq<string>, feedback: map<string, seq<string>>, c: Catalogue, selected: seq<string>,
                               s: seq<SummaryRow>)
    requires WellFormed(c) && UserPreferenceV1(visited, feedback, c, selected) == Ok(s)
    ensures RankedSummary(s, selected)
  {
    var m1 := Method1(c.aspects, visited, feedback);
    var m2 := Method2(c, visited);
    assert s == Summary(c.aspects, m1, m2, selected);
  }

  /**
   * `compute_user_preference`: count the feedback viewpoints, score both
   * methods per aspect column, merge, rescale method 2, add, sort and flag.
   */
  method ComputeUserPreferenceV1(visited: seq<string>, feedback: map<string, seq<string>>, c: Catalogue, selected: seq<string>)
    returns (r: Result<seq<SummaryRow>>)
    requires WellFormed(c)
    ensures r == UserPreferenceV1(visited, feedback, c, selected)
  {
    var count := ViewpointCount(visited, feedback);
    if count.Err? {
      return Err(KeyError);
    }
    var m1 := Method1Scores(c.aspects, count.value);
    assert m1 == Method1(c.aspects, visited, feedback);
    var m2 := Method2Scores(c, visited);
    if |c.aspects| == 0 {
      return Err(KeyError);
    }
    r := Ok(Summary(c.aspects, m1, m2, selected));
  }

  // ---------------------------------------------------------------------
  // recommend_spots
  // ---------------------------------------------------------------------

  /** `max(1.0 - 0.1 * i, 0)`: 1.0 at the top, positive for the first ten positions, 0 from the eleventh on. */
  function DecayWeight(i: nat): (w: real)
    ensures 0.0 <= w <= 1.0
    ensures i == 0 ==> w == 1.0
    ensures w == 0.0 <==> i >= 10
  {
    var x := 1.0 - 0.1 * (i as real);
    if x >= 0.0 then x else 0.0
  }

  lemma DecayWeightNonIncreasing(i: nat, j: nat)
    requires i <= j
    ensures DecayWeight(i) >= DecayWeight(j)
    ensures i < j < 10 ==> DecayWeight(i) > DecayWeight(j)
  {
  }

  /** The weights of the first n profile positions. */
  function DecayWeightsOf(n: nat): (w: seq<real>)
    ensures |w| == n
    ensures forall i :: 0 <= i < n ==> w[i] == DecayWeight(i)
  {
    seq(n, i requires 0 <= i < n => DecayWeight(i))
  }

  /** The weights loop over the re-sorted profile. */
  method DecayWeights(n: nat) returns (w: seq<real>)
    ensures w == DecayWeightsOf(n)
  {
    w := [];
    for i := 0 to n
      invariant |w| == i
      invariant forall t :: 0 <= t < i ==> w[t] == DecayWeight(t)
    {
      var x := 1.0 - 0.1 * (i as real);
      var weight := if x >= 0.0 then x else 0.0;
      w := w + [weight];
    }
  }

  /** The aspect names of the profile rows, in a given order. */
  function AspectsInOrder(prefs: seq<SummaryRow>, order: seq<nat>): (r: seq<string>)
    requires IsPermutation(order, |prefs|)
    ensures |r| == |prefs|
    ensures forall k :: 0 <= k < |r| ==> r[k] in SummaryAspects(prefs)
    ensures forall j :: 0 <= j < |prefs| ==> prefs[j].aspect in r
    ensures forall k :: 0 <= k < |r| ==> r[k] == prefs[order[k]].aspect
  {
    var r := seq(|prefs|, k requires 0 <= k < |prefs| => prefs[order[k]].aspect);
    assert forall k :: 0 <= k < |r| ==> r[k] == SummaryAspects(prefs)[order[k]];
    assert forall j :: 0 <= j < |prefs| ==> prefs[j].aspect in r by {
      forall j | 0 <= j < |prefs| ensures prefs[j].aspect in r {
        var m := PositionOf(order, j);
        assert r[m] == prefs[j].aspect;
      }
    }
    r
  }

  /**
   * The profile's aspect names in order of non-increasing total, the order
   * `sort_values` followed by `reset_index` gives them.
   */
  function Ranked(prefs: seq<SummaryRow>): (r: seq<string>)
    ensures |r| == |prefs|
    ensures forall k :: 0 <= k < |r| ==> r[k] in SummaryAspects(prefs)
    ensures forall j :: 0 <= j < |prefs| ==> prefs[j].aspect in r
    ensures exists order :: IsPermutation(order, |prefs|) && SortedBy(order, SummaryTotals(prefs))
                            && forall k :: 0 <= k < |r| ==> r[k] == prefs[order[k]].aspect
  {
    AspectsInOrder(prefs, Order(SummaryTotals(prefs)))
  }

  /**
   * A profile row with a strictly higher total than another is placed
   * earlier, so its decay weight is at least as large.
   */
  lemma HigherTotalWeighsMore(prefs: seq<SummaryRow>, i: nat, j: nat)
    requires i < |prefs| && j < |prefs| && prefs[i].total > prefs[j].total
    ensures var order := Order(SummaryTotals(prefs));
            && PositionOf(order, i) < PositionOf(order, j) < |prefs|
            && Ranked(prefs)[PositionOf(order, i)] == prefs[i].aspect
            && Ranked(prefs)[PositionOf(order, j)] == prefs[j].aspect
            && DecayWeight(PositionOf(order, i)) >= DecayWeight(PositionOf(order, j))
  {
    var order := Order(SummaryTotals(prefs));
    var p, q := PositionOf(order, i), PositionOf(order, j);
    assert order[p] == i && order[q] == j;
    DecayWeightNonIncreasing(p, q);
  }

  /**
   * A catalogue row read at a label: a label that is not one of its columns
   * gives NaN, which the sum then skips, so it counts as nothing.
   */
  function ValueAt(aspects: seq<string>, scores: seq<real>, a: string): real
    requires |scores| == |aspects|
  {
    if a in aspects then scores[IndexOf(aspects, a)] else 0.0
  }

  function Weighted(w: real, x: real): real {
    w * x
  }

  /** `weight_vec * row`: one product per profile aspect, aligned on its label. */
  function Products(weights: seq<real>, ranked: seq<string>, aspects: seq<string>, scores: seq<real>): (p: seq<real>)
    requires |weights| == |ranked| && |scores| == |aspects|
    ensures |p| == |ranked|
    ensures forall i :: 0 <= i < |ranked| ==> p[i] == Weighted(weights[i], ValueAt(aspects, scores, ranked[i]))
  {
    seq(|ranked|, i requires 0 <= i < |ranked| => Weighted(weights[i], ValueAt(aspects, scores, ranked[i])))
  }

  /** `(weight_vec * row).sum()`. */
  function Dot(weights: seq<real>, ranked: seq<string>, aspects: seq<string>, scores: seq<real>): real
    requires |weights| == |ranked| && |scores| == |aspects|
  {
    Sum(Products(weights, ranked, aspects, scores))
  }

  /** A spot's score under the decay weights of the ranked profile. */
  function SpotScoreV1(aspects: seq<string>, scores: seq<real>, ranked: seq<string>): real
    requires |scores| == |aspects|
  {
    Dot(DecayWeightsOf(|ranked|), ranked, aspects, scores)
  }

  /** Profile positions from the eleventh on weigh 0: cutting the profile to its first ten aspects changes no score. */
  lemma TailHasNoEffect(aspects: seq<string>, scores: seq<real>, ranked: seq<string>)
    requires |scores| == |aspects|
    ensures SpotScoreV1(aspects, scores, ranked) == SpotScoreV1(aspects, scores, ranked[..HeadCount(|ranked|, 10)])
  {
    var h := HeadCount(|ranked|, 10);
    var p := Products(DecayWeightsOf(|ranked|), ranked, aspects, scores);
    forall i | h <= i < |p| ensures p[i] == 0.0 {
      assert DecayWeight(i) == 0.0;
    }
    SumZeroTail(p, h);
    assert p[..h] == Products(DecayWeightsOf(h), ranked[..h], aspects, scores);
  }

  /** Hence two profiles that share their first ten aspects (or all, when shorter) give every spot the same score. */
  lemma OnlyFirstTenMatter(aspects: seq<string>, scores: seq<real>, r1: seq<string>, r2: seq<string>)
    requires |scores| == |aspects|
    requires r1[..HeadCount(|r1|, 10)] == r2[..HeadCount(|r2|, 10)]
    ensures SpotScoreV1(aspects, scores, r1) == SpotScoreV1(aspects, scores, r2)
  {
    TailHasNoEffect(aspects, scores, r1);
    TailHasNoEffect(aspects, scores, r2);
  }

  /** Non-negative catalogue scores give a non-negative spot score. */
  lemma SpotScoreV1NonNegative(aspects: seq<string>, scores: seq<real>, ranked: seq<string>)
    requires |scores| == |aspects| && forall j :: 0 <= j < |scores| ==> scores[j] >= 0.0
    ensures SpotScoreV1(aspects, scores, ranked) >= 0.0
  {
    var p := Products(DecayWeightsOf(|ranked|), ranked, aspects, scores);
    forall i | 0 <= i < |p| ensures p[i] >= 0.0 {
      var x := ValueAt(aspects, scores, ranked[i]);
      assert x >= 0.0;
      assert DecayWeight(i) * x >= 0.0;
    }
    SumNonNegative(p);
  }

  /** One score per catalogue row, on the raw catalogue. */
  function ScoresV1(c: Catalogue, ranked: seq<string>): (s: seq<real>)
    requires WellFormed(c)
    ensures |s| == |c.rows|
    ensures forall i :: 0 <= i < |c.rows| ==> s[i] == SpotScoreV1(c.aspects, c.rows[i].scores, ranked)
  {
    seq(|c.rows|, i requires 0 <= i < |c.rows| => SpotScoreV1(c.aspects, c.rows[i].scores, ranked))
  }

  /** Non-negative catalogue scores give every spot a non-negative score. */
  lemma ScoresV1NonNegative(c: Catalogue, ranked: seq<string>)
    requires WellFormed(c)
    requires forall i, j :: 0 <= i < |c.rows| && 0 <= j < |c.aspects| ==> c.rows[i].scores[j] >= 0.0
    ensures forall i :: 0 <= i < |c.rows| ==> ScoresV1(c, ranked)[i] >= 0.0
  {
    forall i | 0 <= i < |c.rows| ensures ScoresV1(c, ranked)[i] >= 0.0 {
      SpotScoreV1NonNegative(c.aspects, c.rows[i].scores, ranked);
    }
  }

  /**
   * What `recommend_spots` returns: the ten best spots by score, or a
   * KeyError for an empty catalogue (an empty frame has no score column to
   * sort by).  The `top_k` argument is accepted and never read.
   */
  function RecommendV1(prefs: seq<SummaryRow>, c: Catalogue, topK: int): (r: Result<seq<Recommendation>>)
    requires WellFormed(c)
    ensures r.Err? <==> |c.rows| == 0
    ensures r.Err? ==> r.error == KeyError
  {
    if |c.rows| == 0 then Err(KeyError)
    else Ok(TopTen(Names(c.rows), ScoresV1(c, Ranked(prefs))))
  }

  /**
   * A successful recommendation lists min(10, number of spots) distinct
   * catalogue spots with their own scores, non-increasing, no omitted spot
   * above the last one listed; with non-negative catalogue scores every
   * listed score is non-negative.
   */
  lemma RecommendV1Result(prefs: seq<SummaryRow>, c: Catalogue, topK: int, r: seq<Recommendation>)
    requires WellFormed(c) && RecommendV1(prefs, c, topK) == Ok(r)
    ensures |r| == (if |c.rows| < 10 then |c.rows| else 10)
    ensures ListsBest(r, Names(c.rows), ScoresV1(c, Ranked(prefs)))
    ensures (forall i, j :: 0 <= i < |c.rows| && 0 <= j < |c.aspects| ==> c.rows[i].scores[j] >= 0.0) ==>
              forall k :: 0 <= k < |r| ==> r[k].score >= 0.0
  {
    var s := ScoresV1(c, Ranked(prefs));
    assert r == TopTen(Names(c.rows), s);
    if forall i, j :: 0 <= i < |c.rows| && 0 <= j < |c.aspects| ==> c.rows[i].scores[j] >= 0.0 {
      ScoresV1NonNegative(c, Ranked(prefs));
    }
  }

  /** The `top_k` argument is never read. */
  lemma RecommendV1IgnoresTopK(prefs: seq<SummaryRow>, c: Catalogue, k1: int, k2: int)
    requires WellFormed(c)
    ensures RecommendV1(prefs, c, k1) == RecommendV1(prefs, c, k2)
  {
  }

  /** The `iterrows` loop: one dot product per catalogue row, appended in row order. */
  method ScoreRowsV1(c: Catalogue, ranked: seq<string>, weights: seq<real>) returns (scores: seq<real>)
    requires WellFormed(c) && weights == DecayWeightsOf(|ranked|)
    ensures scores == ScoresV1(c, ranked)
  {
    scores := [];
    for i := 0 to |c.rows|
      invariant |scores| == i
      invariant forall t :: 0 <= t < i ==> scores[t] == SpotScoreV1(c.aspects, c.rows[t].scores, ranked)
    {
      var score := Dot(weights, ranked, c.aspects, c.rows[i].scores);
      scores := scores + [score];
    }
  }

  /** `recommend_spots`: re-sort the profile, weigh its positions, score every spot, keep the ten best. */
  method RecommendSpotsV1(prefs: seq<SummaryRow>, c: Catalogue, topK: int) returns (r: Result<seq<Recommendation>>)
    requires WellFormed(c)
    ensures r == RecommendV1(prefs, c, topK)
  {
    var ranked := Ranked(prefs);
    var weights := DecayWeights(|ranked|);
    var scores := ScoreRowsV1(c, ranked, weights);
    if |scores| == 0 {
      return Err(KeyError);
    }
    r := Ok(TopTen(Names(c.rows), scores));
  }
}
