/** Lowe's ratio test as applied by `MatchEngine::match` to the rows returned
    by a k = 2 nearest-neighbour search: the nearest neighbour of a row is kept
    when its distance divided by the second neighbour's distance is below 0.75.
 */
module RatioTest {
  import opened CvTypes

  /** The threshold `thr_dl` of the ratio test. */
  const LoweRatio: real := 0.75

  /** A single-precision value as far as the ratio test can observe it:
      division by zero gives an infinity or NaN instead of failing. */
  datatype FloatValue = Finite(value: real) | PosInf | NegInf | NaN

  /** IEEE 754 division, without rounding and with zero read as +0. */
  function FloatDiv(a: real, b: real): (q: FloatValue)
    ensures q.Finite? <==> b != 0.0
    ensures q.Finite? ==> q.value * b == a
    ensures q == NaN <==> a == 0.0 && b == 0.0
    ensures b == 0.0 && a > 0.0 ==> q == PosInf
    ensures b == 0.0 && a < 0.0 ==> q == NegInf
  {
    if b != 0.0 then Finite(a / b)
    else if a > 0.0 then PosInf
    else if a < 0.0 then NegInf
    else NaN
  }

  /** IEEE 754 `<` against a finite bound: NaN compares false. */
  predicate FloatLess(x: FloatValue, bound: real)
  {
    match x
    case Finite(v) => v < bound
    case PosInf => false
    case NegInf => true
    case NaN => false
  }

  /** Every row of a knn result holds at least the two neighbours the test reads. */
  predicate KnnRows(rows: seq<seq<DMatch>>)
  {
    forall i :: 0 <= i < |rows| ==> |rows[i]| >= 2
  }

  /** `d0 / d1 < 0.75` as the single-precision comparison decides it,
      written without division: the sign of `d1` fixes the direction of the
      scaled comparison, and a zero `d1` gives an infinity or NaN. */
  predicate BelowLoweRatio(d0: real, d1: real)
  {
    if d1 > 0.0 then d0 < LoweRatio * d1
    else if d1 < 0.0 then d0 > LoweRatio * d1
    else d0 < 0.0
  }

  /** The division-free form agrees with dividing and then comparing, on
      every pair of distances; for non-negative distances it is the plain
      scaled comparison `d0 < 0.75 * d1`. */
  lemma BelowLoweRatioIsFloatComparison(d0: real, d1: real)
    ensures BelowLoweRatio(d0, d1) <==> FloatLess(FloatDiv(d0, d1), LoweRatio)
    ensures d0 >= 0.0 && d1 >= 0.0 ==> (BelowLoweRatio(d0, d1) <==> d0 < LoweRatio * d1)
  {
    if d1 != 0.0 {
      var q := d0 / d1;
      assert FloatDiv(d0, d1) == Finite(q);
      // d0 - 0.75 * d1 = (q - 0.75) * d1, whose sign decides both sides
      var gap := q - LoweRatio;
      assert d0 - LoweRatio * d1 == gap * d1;
      if d1 > 0.0 {
        assert gap < 0.0 <==> gap * d1 < 0.0;
      } else {
        assert gap < 0.0 <==> gap * d1 > 0.0;
      }
    }
  }

  /** The test applied to one row: `row[0].distance / row[1].distance < 0.75`. */
  predicate RowAccepted(row: seq<DMatch>)
    requires |row| >= 2
  {
    BelowLoweRatio(row[0].distance, row[1].distance)
  }

  /** The nearest neighbours of the accepted rows, in row order. */
  function RatioFilter(rows: seq<seq<DMatch>>): (kept: seq<DMatch>)
    requires KnnRows(rows)
    ensures |kept| <= |rows|
    ensures forall k :: 0 <= k < |kept| ==>
              exists i :: 0 <= i < |rows| && RowAccepted(rows[i]) && kept[k] == rows[i][0]
  {
    if |rows| == 0 then []
    else
      var last := rows[|rows| - 1];
      var init := RatioFilter(rows[..|rows| - 1]);
      if RowAccepted(last) then init + [last[0]] else init
  }

  /** Indices of the rows the test accepts, ascending. */
  function AcceptedRows(rows: seq<seq<DMatch>>): (idx: seq<int>)
    requires KnnRows(rows)
    ensures forall k :: 0 <= k < |idx| ==> 0 <= idx[k] < |rows| && RowAccepted(rows[idx[k]])
    ensures forall i :: 0 <= i < |rows| && RowAccepted(rows[i]) ==> i in idx
    ensures forall j, k :: 0 <= j < k < |idx| ==> idx[j] < idx[k]
  {
    if |rows| == 0 then []
    else
      var init := AcceptedRows(rows[..|rows| - 1]);
      if RowAccepted(rows[|rows| - 1]) then init + [|rows| - 1] else init
  }

  /** The nearest neighbours of the rows at the given indices, in the order
      the indices are listed. */
  function Firsts(rows: seq<seq<DMatch>>, idx: seq<int>): (firsts: seq<DMatch>)
    requires KnnRows(rows)
    requires forall k :: 0 <= k < |idx| ==> 0 <= idx[k] < |rows|
    ensures |firsts| == |idx|
    ensures forall k :: 0 <= k < |idx| ==> firsts[k] == rows[idx[k]][0]
  {
    if |idx| == 0 then []
    else Firsts(rows, idx[..|idx| - 1]) + [rows[idx[|idx| - 1]][0]]
  }

  /** Appending a row does not change the neighbours picked at indices that
      lie before it. */
  lemma FirstsIgnoresLaterRows(rows: seq<seq<DMatch>>, r: seq<DMatch>, idx: seq<int>)
    requires KnnRows(rows) && |r| >= 2
    requires forall k :: 0 <= k < |idx| ==> 0 <= idx[k] < |rows|
    ensures KnnRows(rows + [r])
    ensures Firsts(rows + [r], idx) == Firsts(rows, idx)
  {
  }

  /** The filter is the nearest neighbours of exactly the accepted rows. */
  lemma {:induction false} RatioFilterIsFirstsOfAccepted(rows: seq<seq<DMatch>>)
    requires KnnRows(rows)
    ensures RatioFilter(rows) == Firsts(rows, AcceptedRows(rows))
  {
    if |rows| > 0 {
      var init := rows[..|rows| - 1];
      var last := rows[|rows| - 1];
      assert rows == init + [last];
      RatioFilterIsFirstsOfAccepted(init);
      var idx := AcceptedRows(init);
      FirstsIgnoresLaterRows(init, last, idx);
      if RowAccepted(last) {
        var idx' := idx + [|rows| - 1];
        assert idx'[..|idx'| - 1] == idx;
        assert Firsts(rows, idx') == Firsts(rows, idx) + [last[0]];
      }
    }
  }

  /** The filter's output is exactly the first neighbours of the accepted rows,
      taken in ascending row order: a subsequence of the rows' nearest
      neighbours that never contains a second neighbour in place of a first. */
  lemma RatioFilterSelectsAcceptedRows(rows: seq<seq<DMatch>>)
    requires KnnRows(rows)
    ensures && |RatioFilter(rows)| == |AcceptedRows(rows)|
            && forall k :: 0 <= k < |RatioFilter(rows)| ==>
                 RatioFilter(rows)[k] == rows[AcceptedRows(rows)[k]][0]
  {
    RatioFilterIsFirstsOfAccepted(rows);
  }

  /** A row's nearest neighbour is emitted iff the row passes the test. */
  lemma {:induction false} RatioFilterKeepsExactlyAccepted(rows: seq<seq<DMatch>>, i: int)
    requires KnnRows(rows)
    requires 0 <= i < |rows|
    ensures RowAccepted(rows[i]) <==> i in AcceptedRows(rows)
    ensures RowAccepted(rows[i]) ==> rows[i][0] in RatioFilter(rows)
  {
    RatioFilterSelectsAcceptedRows(rows);
    if RowAccepted(rows[i]) {
      var idx := AcceptedRows(rows);
      var k :| 0 <= k < |idx| && idx[k] == i;
      assert RatioFilter(rows)[k] == rows[i][0];
    }
  }

  /** Filtering rows one after the other appends: the filter of a
      concatenation is the concatenation of the filters. */
  lemma {:induction false} RatioFilterDistributes(a: seq<seq<DMatch>>, b: seq<seq<DMatch>>)
    requires KnnRows(a) && KnnRows(b)
    ensures KnnRows(a + b)
    ensures RatioFilter(a + b) == RatioFilter(a) + RatioFilter(b)
  {
    if |b| > 0 {
      var b' := b[..|b| - 1];
      assert (a + b)[..|a + b| - 1] == a + b';
      RatioFilterDistributes(a, b');
    } else {
      assert a + b == a;
    }
  }

  /** The boundary cases of the test: a ratio of exactly 0.75 and a zero
      second distance (0/0 is NaN, d/0 is +inf) both reject the row. */
  lemma BoundaryRowsRejected(row: seq<DMatch>)
    requires |row| >= 2
    requires row[0].distance >= 0.0
    requires row[0].distance == LoweRatio * row[1].distance || row[1].distance == 0.0
    ensures !RowAccepted(row)
    ensures RatioFilter([row]) == []
  {
  }

  /** The loop of `MatchEngine::match` that pushes the accepted nearest
      neighbours onto the existing match vector. */
  method RatioTestLoop(rows: seq<seq<DMatch>>, matches: seq<DMatch>) returns (out: seq<DMatch>)
    requires KnnRows(rows)
    ensures out == matches + RatioFilter(rows)
  {
    out := matches;
    var i := 0;
    while i < |rows|
      invariant 0 <= i <= |rows|
      invariant out == matches + RatioFilter(rows[..i])
    {
      assert rows[..i + 1][..i] == rows[..i];
      if RowAccepted(rows[i]) {
        out := out + [rows[i][0]];
      }
      i := i + 1;
    }
    assert rows[..|rows|] == rows;
  }
}
