/**
 * Min-max rescaling of one numeric column, `(x - min) / (max - min)`.
 *
 * Both engines define `minmax`, which sends a constant column to all 1.0;
 * the current engine's column normalisation sends it to 0.5 instead.  Both
 * are `Rescale` with a different value for the degenerate column.
 */
module MinMax {

  /** Every value equals the first one (true of the empty column). */
  predicate Constant(s: seq<real>) {
    forall i :: 0 <= i < |s| ==> s[i] == s[0]
  }

  function SeqMin(s: seq<real>): (m: real)
    requires |s| > 0
    ensures m in s
    ensures forall i :: 0 <= i < |s| ==> m <= s[i]
  {
    if |s| == 1 then s[0]
    else
      var rest := SeqMin(s[1..]);
      assert forall i :: 1 <= i < |s| ==> s[i] == s[1..][i - 1];
      if s[0] <= rest then s[0] else rest
  }

  function SeqMax(s: seq<real>): (m: real)
    requires |s| > 0
    ensures m in s
    ensures forall i :: 0 <= i < |s| ==> s[i] <= m
  {
    if |s| == 1 then s[0]
    else
      var rest := SeqMax(s[1..]);
      assert forall i :: 1 <= i < |s| ==> s[i] == s[1..][i - 1];
      if s[0] >= rest then s[0] else rest
  }

  /** The `max == min` test the source makes is exactly constancy. */
  lemma DegenerateIffConstant(s: seq<real>)
    requires |s| > 0
    ensures SeqMax(s) == SeqMin(s) <==> Constant(s)
  {
    if Constant(s) {
      var hi, lo := SeqMax(s), SeqMin(s);
      assert hi == s[0] && lo == s[0];
    }
  }

  /** For d > 0, dividing by d keeps the order of two values, in both directions. */
  lemma DivideKeepsOrder(x: real, y: real, d: real)
    requires d > 0.0
    ensures x <= y <==> x / d <= y / d
  {
    assert x == (x / d) * d && y == (y / d) * d;
    if x / d <= y / d {
      assert (x / d) * d <= (y / d) * d;
    }
  }

  /** `(x - lo) / (hi - lo)`. */
  function Scaled(x: real, lo: real, hi: real): real
    requires lo < hi
  {
    (x - lo) / (hi - lo)
  }

  lemma RescaledValue(x: real, lo: real, hi: real)
    requires lo <= x <= hi && lo < hi
    ensures 0.0 <= Scaled(x, lo, hi) <= 1.0
    ensures Scaled(x, lo, hi) == 0.0 <==> x == lo
    ensures Scaled(x, lo, hi) == 1.0 <==> x == hi
  {
    var d := hi - lo;
    assert d / d == 1.0;
    DivideKeepsOrder(x - lo, d, d);
    DivideKeepsOrder(0.0, x - lo, d);
    assert (x - lo) == ((x - lo) / d) * d;
  }

  lemma ScaledKeepsOrder(x: real, y: real, lo: real, hi: real)
    requires lo < hi
    ensures x <= y <==> Scaled(x, lo, hi) <= Scaled(y, lo, hi)
  {
    DivideKeepsOrder(x - lo, y - lo, hi - lo);
  }

  /** `(s - lo) / (hi - lo)`, elementwise. */
  function Affine(s: seq<real>, lo: real, hi: real): (r: seq<real>)
    requires lo < hi
    ensures |r| == |s|
    ensures forall i :: 0 <= i < |s| ==> r[i] == Scaled(s[i], lo, hi)
  {
    seq(|s|, i requires 0 <= i < |s| => Scaled(s[i], lo, hi))
  }

  /** A series within [lo, hi] lands in [0, 1], with lo exactly at 0 and hi exactly at 1. */
  lemma AffineInUnit(s: seq<real>, lo: real, hi: real)
    requires lo < hi && forall i :: 0 <= i < |s| ==> lo <= s[i] <= hi
    ensures var r := Affine(s, lo, hi);
            forall i :: 0 <= i < |s| ==> 0.0 <= r[i] <= 1.0 && (r[i] == 0.0 <==> s[i] == lo) && (r[i] == 1.0 <==> s[i] == hi)
  {
    var r := Affine(s, lo, hi);
    forall i | 0 <= i < |s| ensures 0.0 <= r[i] <= 1.0 && (r[i] == 0.0 <==> s[i] == lo) && (r[i] == 1.0 <==> s[i] == hi) {
      RescaledValue(s[i], lo, hi);
    }
  }

  /**
   * Min-max rescaling that sends a degenerate (constant) column to
   * `degenerate`.  An empty column stays empty.
   */
  function Rescale(s: seq<real>, degenerate: real): (r: seq<real>)
    ensures |r| == |s|
    ensures Constant(s) ==> forall i :: 0 <= i < |s| ==> r[i] == degenerate
    ensures !Constant(s) ==> forall i :: 0 <= i < |s| ==>
      && 0.0 <= r[i] <= 1.0
      && (r[i] == 0.0 <==> s[i] == SeqMin(s))
      && (r[i] == 1.0 <==> s[i] == SeqMax(s))
  {
    if |s| == 0 then []
    else
      var lo, hi := SeqMin(s), SeqMax(s);
      DegenerateIffConstant(s);
      if hi == lo then seq(|s|, _ => degenerate)
      else
        AffineInUnit(s, lo, hi);
        Affine(s, lo, hi)
  }

  /** Rescaling a non-constant series keeps the order of any two of its values, in both directions. */
  lemma RescaleKeepsOrder(s: seq<real>, degenerate: real, i: nat, j: nat)
    requires i < |s| && j < |s| && !Constant(s)
    ensures s[i] <= s[j] <==> Rescale(s, degenerate)[i] <= Rescale(s, degenerate)[j]
  {
    var lo, hi := SeqMin(s), SeqMax(s);
    DegenerateIffConstant(s);
    assert Rescale(s, degenerate) == Affine(s, lo, hi);
    ScaledKeepsOrder(s[i], s[j], lo, hi);
  }

  /**
   * `minmax`: a constant series becomes all 1.0; any other series lies in
   * [0, 1] with its minimum at 0 and its maximum at 1.
   */
  function MinMax(s: seq<real>): (r: seq<real>)
    ensures |r| == |s|
    ensures Constant(s) ==> forall i :: 0 <= i < |s| ==> r[i] == 1.0
    ensures forall i :: 0 <= i < |s| ==> 0.0 <= r[i] <= 1.0
    ensures !Constant(s) ==> forall i :: 0 <= i < |s| ==>
      (r[i] == 0.0 <==> s[i] == SeqMin(s)) && (r[i] == 1.0 <==> s[i] == SeqMax(s))
  {
    Rescale(s, 1.0)
  }

  /**
   * A non-empty series comes back all 1.0 exactly when it is constant: any
   * other series has its minimum, which goes to 0.
   */
  lemma MinMaxAllOnesIffConstant(s: seq<real>)
    requires |s| > 0
    ensures (forall i :: 0 <= i < |s| ==> MinMax(s)[i] == 1.0) <==> Constant(s)
  {
    if !Constant(s) {
      var lo := SeqMin(s);
      var k :| 0 <= k < |s| && s[k] == lo;
      assert MinMax(s)[k] == 0.0;
    }
  }
}
