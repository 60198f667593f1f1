/**
 * The in-memory tables both scoring engines work on.
 *
 * A catalogue is a spot-by-aspect table: a sequence of rows, each a spot
 * name plus one score per aspect column, with the aspect columns in a
 * fixed order.  All arithmetic is on `real`.
 */
module Tables {

  /** One catalogue row: the spot's name and its aspect scores in column order. */
  datatype Row = Row(name: string, scores: seq<real>)

  /** The aspect column names and the rows of a spot-by-aspect table. */
  datatype Catalogue = Catalogue(aspects: seq<string>, rows: seq<Row>)

  /** The Python exceptions the scoring code can raise. */
  datatype Error = ZeroDivisionError | KeyError | TypeError

  datatype Result<T> = Ok(value: T) | Err(error: Error)

  predicate Distinct<T(==)>(s: seq<T>) {
    forall i, j :: 0 <= i < j < |s| ==> s[i] != s[j]
  }

  /** The label of the spot-name column, which is not an aspect column. */
  const NameColumn: string := "スポット"

  /**
   * Aspect names are unique, none of them is the name column, and every
   * row has one score per aspect.
   */
  predicate WellFormed(c: Catalogue) {
    && Distinct(c.aspects)
    && NameColumn !in c.aspects
    && forall i :: 0 <= i < |c.rows| ==> |c.rows[i].scores| == |c.aspects|
  }

  function Names(rows: seq<Row>): (r: seq<string>)
    ensures |r| == |rows|
    ensures forall i :: 0 <= i < |rows| ==> r[i] == rows[i].name
  {
    seq(|rows|, i requires 0 <= i < |rows| => rows[i].name)
  }

  /** Column `j` of a table, top to bottom. */
  function Column(rows: seq<Row>, j: nat): (col: seq<real>)
    requires forall i :: 0 <= i < |rows| ==> j < |rows[i].scores|
    ensures |col| == |rows|
    ensures forall i :: 0 <= i < |rows| ==> col[i] == rows[i].scores[j]
  {
    seq(|rows|, i requires 0 <= i < |rows| => rows[i].scores[j])
  }

  /** `df[col] = values` on a table of width k: column `j` replaced, every other column and every name kept. */
  function SetColumn(rows: seq<Row>, k: nat, j: nat, col: seq<real>): (r: seq<Row>)
    requires |col| == |rows| && j < k && forall i :: 0 <= i < |rows| ==> |rows[i].scores| == k
    ensures |r| == |rows| && Names(r) == Names(rows)
    ensures forall i :: 0 <= i < |rows| ==> |r[i].scores| == k
    ensures Column(r, j) == col
    ensures forall jj :: 0 <= jj < k && jj != j ==> Column(r, jj) == Column(rows, jj)
  {
    var r := seq(|rows|, i requires 0 <= i < |rows| => Row(rows[i].name, rows[i].scores[j := col[i]]));
    assert Names(r) == Names(rows);
    assert Column(r, j) == col;
    r
  }

  /** Two tables with the same names and the same columns are equal. */
  lemma SameColumnsSameTable(a: seq<Row>, b: seq<Row>, k: nat)
    requires |a| == |b| && Names(a) == Names(b)
    requires forall i :: 0 <= i < |a| ==> |a[i].scores| == k && |b[i].scores| == k
    requires forall j :: 0 <= j < k ==> Column(a, j) == Column(b, j)
    ensures a == b
  {
    forall i | 0 <= i < |a| ensures a[i] == b[i] {
      assert Names(a)[i] == Names(b)[i];
      forall j | 0 <= j < k ensures a[i].scores[j] == b[i].scores[j] {
        assert Column(a, j)[i] == Column(b, j)[i];
      }
    }
  }

  /** The position of the first occurrence of a label (a pandas index lookup). */
  function IndexOf(s: seq<string>, x: string): (i: nat)
    requires x in s
    ensures i < |s| && s[i] == x
    ensures forall k :: 0 <= k < i ==> s[k] != x
  {
    if s[0] == x then 0 else 1 + IndexOf(s[1..], x)
  }

  /** The `興味あり` flag: 1 for an aspect among the interest viewpoints, else 0. */
  function Flag(aspect: string, selected: seq<string>): int {
    if aspect in selected then 1 else 0
  }

  /** How many times `x` occurs in `s`. */
  function Occurrences(s: seq<string>, x: string): (n: nat)
    ensures n <= |s|
    ensures n > 0 <==> x in s
  {
    if |s| == 0 then 0
    else Occurrences(s[..|s| - 1], x) + (if s[|s| - 1] == x then 1 else 0)
  }

  /** Sum from left to right, the order in which a running total accumulates. */
  function Sum(s: seq<real>): real {
    if |s| == 0 then 0.0 else Sum(s[..|s| - 1]) + s[|s| - 1]
  }

  lemma {:induction false} SumBounds(s: seq<real>, lo: real, hi: real)
    requires forall i :: 0 <= i < |s| ==> lo <= s[i] <= hi
    ensures (|s| as real) * lo <= Sum(s) <= (|s| as real) * hi
  {
    if |s| > 0 {
      SumBounds(s[..|s| - 1], lo, hi);
    }
  }

  /** One step of a running total. */
  lemma SumStep(s: seq<real>, k: nat)
    requires k < |s|
    ensures Sum(s[..k + 1]) == Sum(s[..k]) + s[k]
  {
    assert s[..k + 1][..k] == s[..k];
  }

  /** A sum of values in [0, 1] lies in [0, |s|]. */
  lemma SumInUnit(s: seq<real>)
    requires forall i :: 0 <= i < |s| ==> 0.0 <= s[i] <= 1.0
    ensures 0.0 <= Sum(s) <= |s| as real
  {
    SumBounds(s, 0.0, 1.0);
  }

  lemma {:induction false} SumNonNegative(s: seq<real>)
    requires forall i :: 0 <= i < |s| ==> s[i] >= 0.0
    ensures Sum(s) >= 0.0
  {
    if |s| > 0 {
      SumNonNegative(s[..|s| - 1]);
    }
  }

  /** Zeros after position h add nothing to a sum. */
  lemma {:induction false} SumZeroTail(s: seq<real>, h: nat)
    requires h <= |s| && forall i :: h <= i < |s| ==> s[i] == 0.0
    ensures Sum(s) == Sum(s[..h])
  {
    if |s| > h {
      var n := |s| - 1;
      assert s[..n][..h] == s[..h];
      SumZeroTail(s[..n], h);
    } else {
      assert s[..h] == s;
    }
  }

  lemma {:induction false} SumPositive(s: seq<real>)
    requires |s| > 0
    requires forall i :: 0 <= i < |s| ==> s[i] > 0.0
    ensures Sum(s) > 0.0
  {
    if |s| > 1 {
      SumPositive(s[..|s| - 1]);
    }
  }

  /** Every element divided by `z`. */
  function DivideAll(s: seq<real>, z: real): (r: seq<real>)
    requires z != 0.0
    ensures |r| == |s|
    ensures forall i :: 0 <= i < |s| ==> r[i] == s[i] / z
  {
    seq(|s|, i requires 0 <= i < |s| => s[i] / z)
  }

  lemma {:induction false} SumDivideAll(s: seq<real>, z: real)
    requires z != 0.0
    ensures Sum(DivideAll(s, z)) == Sum(s) / z
  {
    if |s| > 0 {
      var n := |s| - 1;
      SumDivideAll(s[..n], z);
      assert DivideAll(s, z)[..n] == DivideAll(s[..n], z);
      assert Sum(s[..n]) / z + s[n] / z == (Sum(s[..n]) + s[n]) / z;
    }
  }

  /**
   * The sum of column `j` over the rows whose name is in `visited`: the
   * `isin` filter followed by a column sum.
   */
  function VisitedSum(rows: seq<Row>, visited: seq<string>, j: nat): (s: real)
    requires forall i :: 0 <= i < |rows| ==> j < |rows[i].scores|
  {
    if |rows| == 0 then 0.0
    else
      var last := rows[|rows| - 1];
      VisitedSum(rows[..|rows| - 1], visited, j) + (if last.name in visited then last.scores[j] else 0.0)
  }

  /**
   * The filter is a membership test: only which catalogue names are in
   * `visited` matters, so a repeated visited name counts once and a visited
   * name missing from the catalogue contributes nothing.
   */
  lemma {:induction false} VisitedSumByMembership(rows: seq<Row>, v1: seq<string>, v2: seq<string>, j: nat)
    requires forall i :: 0 <= i < |rows| ==> j < |rows[i].scores|
    requires forall i :: 0 <= i < |rows| ==> (rows[i].name in v1 <==> rows[i].name in v2)
    ensures VisitedSum(rows, v1, j) == VisitedSum(rows, v2, j)
  {
    if |rows| > 0 {
      VisitedSumByMembership(rows[..|rows| - 1], v1, v2, j);
    }
  }

  /** No catalogue name among the visited spots: every column sums to 0. */
  lemma {:induction false} VisitedSumNoneVisited(rows: seq<Row>, visited: seq<string>, j: nat)
    requires forall i :: 0 <= i < |rows| ==> j < |rows[i].scores|
    requires forall i :: 0 <= i < |rows| ==> rows[i].name !in visited
    ensures VisitedSum(rows, visited, j) == 0.0
  {
    if |rows| > 0 {
      VisitedSumNoneVisited(rows[..|rows| - 1], visited, j);
    }
  }

  /** With column values in [0, hi], the visited sum lies in [0, hi * number of rows]. */
  lemma {:induction false} VisitedSumBounds(rows: seq<Row>, visited: seq<string>, j: nat, hi: real)
    requires forall i :: 0 <= i < |rows| ==> j < |rows[i].scores|
    requires forall i :: 0 <= i < |rows| ==> 0.0 <= rows[i].scores[j] <= hi
    ensures 0.0 <= VisitedSum(rows, visited, j) <= (|rows| as real) * hi
  {
    if |rows| > 0 {
      VisitedSumBounds(rows[..|rows| - 1], visited, j, hi);
    }
  }
}
