/** The least-squares slope both forecasting utilities fit through a series of
    totals, with x = 0, 1, ..., n - 1:
    slope = (n·Σxy − Σx·Σy) / (n·Σx² − (Σx)²). */
module LeastSquares {
  import opened Util

  /** `Σx` for x = 0 .. n - 1. */
  function IndexSum(n: nat): real {
    if n == 0 then 0.0 else IndexSum(n - 1) + (n - 1) as real
  }

  /** `Σx²` for x = 0 .. n - 1. */
  function IndexSquareSum(n: nat): real {
    if n == 0 then 0.0 else IndexSquareSum(n - 1) + (n - 1) as real * (n - 1) as real
  }

  /** `Σ x·values[x]`. */
  function WeightedSum(values: seq<real>): real {
    if |values| == 0 then 0.0
    else WeightedSum(values[..|values| - 1]) + (|values| - 1) as real * values[|values| - 1]
  }

  lemma {:induction false} IndexSumClosed(n: nat)
    ensures 2.0 * IndexSum(n) == n as real * (n as real - 1.0)
  {
    if n > 0 {
      IndexSumClosed(n - 1);
      var m := (n - 1) as real;
      assert 2.0 * IndexSum(n - 1) == m * (m - 1.0);
      assert m * (m - 1.0) + 2.0 * m == (m + 1.0) * m;
    }
  }

  lemma {:induction false} IndexSquareSumClosed(n: nat)
    ensures 6.0 * IndexSquareSum(n) == n as real * (n as real - 1.0) * (2.0 * n as real - 1.0)
  {
    if n > 0 {
      IndexSquareSumClosed(n - 1);
      var m := (n - 1) as real;
      assert 6.0 * IndexSquareSum(n - 1) == m * (m - 1.0) * (2.0 * m - 1.0);
      assert m * (m - 1.0) * (2.0 * m - 1.0) + 6.0 * (m * m) == (m + 1.0) * m * (2.0 * m + 1.0);
    }
  }

  /** The slope's denominator: `n·Σx² − (Σx)²`. */
  function Denominator(n: nat): real {
    n as real * IndexSquareSum(n) - IndexSum(n) * IndexSum(n)
  }

  /** `n·Σx² − (Σx)² = n²(n² − 1)/12`, which is positive from two points on. */
  lemma DenominatorClosed(n: nat)
    ensures 12.0 * Denominator(n) == n as real * n as real * (n as real * n as real - 1.0)
    ensures n >= 2 ==> Denominator(n) > 0.0
  {
    var r := n as real;
    var a := IndexSum(n);
    var q := IndexSquareSum(n);
    IndexSumClosed(n);
    IndexSquareSumClosed(n);
    assert 12.0 * (r * q) == 2.0 * r * (6.0 * q);
    assert 12.0 * (a * a) == 3.0 * (2.0 * a) * (2.0 * a);
    assert 2.0 * r * (r * (r - 1.0) * (2.0 * r - 1.0)) - 3.0 * (r * (r - 1.0)) * (r * (r - 1.0))
      == r * r * (r * r - 1.0);
    if n >= 2 {
      assert r * r >= 4.0;
      assert r * r * (r * r - 1.0) >= 4.0 * 3.0;
    }
  }

  /** The slope's numerator: `n·Σxy − Σx·Σy`. */
  function Numerator(values: seq<real>): real {
    |values| as real * WeightedSum(values) - IndexSum(|values|) * Sum(values)
  }

  /** The least-squares slope of `values` against their indices. */
  function Slope(values: seq<real>): (m: real)
    requires |values| >= 2
  {
    DenominatorClosed(|values|);
    Numerator(values) / Denominator(|values|)
  }

  /** The series lies on the line `a + b·x`. */
  predicate OnLine(v: seq<real>, a: real, b: real) {
    forall i :: 0 <= i < |v| ==> v[i] == a + b * i as real
  }

  lemma RegroupSum(a: real, b: real, m: real, x: real, p: real, s: real, r: real, x': real)
    requires p == a + b * m
    requires s == a * m + b * x + p
    requires r == m + 1.0 && x' == x + m
    ensures s == a * r + b * x'
  {}

  lemma RegroupWeighted(a: real, b: real, m: real, x: real, q: real, p: real, w: real, x': real, q': real)
    requires p == a + b * m
    requires w == a * x + b * q + m * p
    requires x' == x + m && q' == q + m * m
    ensures w == a * x' + b * q'
  {}

  lemma LineNumeratorClosed(v: seq<real>, a: real, b: real)
    requires OnLine(v, a, b)
    ensures Numerator(v) == b * Denominator(|v|)
  {
    LineSum(v, a, b);
    LineWeightedSum(v, a, b);
    assert Affine(Sum(v), a, |v| as real, b, IndexSum(|v|));
    assert Affine(WeightedSum(v), a, IndexSum(|v|), b, IndexSquareSum(|v|));
    NumeratorOfSums(v, a, b);
  }

  lemma {:induction false} LineSum(v: seq<real>, a: real, b: real)
    requires OnLine(v, a, b)
    ensures Sum(v) == a * |v| as real + b * IndexSum(|v|)
    decreases |v|
  {
    if |v| > 0 {
      var n := |v|;
      var prev := v[..n - 1];
      LineSum(prev, a, b);
      var m := (n - 1) as real;
      RegroupSum(a, b, m, IndexSum(n - 1), v[n - 1], Sum(v), n as real, IndexSum(n));
    }
  }

  lemma {:induction false} LineWeightedSum(v: seq<real>, a: real, b: real)
    requires OnLine(v, a, b)
    ensures WeightedSum(v) == a * IndexSum(|v|) + b * IndexSquareSum(|v|)
    decreases |v|
  {
    if |v| > 0 {
      var n := |v|;
      var prev := v[..n - 1];
      LineWeightedSum(prev, a, b);
      var m := (n - 1) as real;
      RegroupWeighted(a, b, m, IndexSum(n - 1), IndexSquareSum(n - 1), v[n - 1],
        WeightedSum(v), IndexSum(n), IndexSquareSum(n));
    }
  }

  /** `y = a·x + b·z`, kept behind a name so that the algebra below sees it as one fact. */
  predicate Affine(y: real, a: real, x: real, b: real, z: real) {
    y == a * x + b * z
  }

  lemma LineNumerator(a: real, b: real, r: real, x: real, q: real, w: real, s: real)
    requires Affine(w, a, x, b, q) && Affine(s, a, r, b, x)
    ensures r * w - x * s == b * (r * q - x * x)
  {}

  lemma DivCancel(b: real, d: real)
    requires d != 0.0
    ensures (b * d) / d == b
  {}

  lemma NumeratorOfSums(v: seq<real>, a: real, b: real)
    requires Affine(Sum(v), a, |v| as real, b, IndexSum(|v|))
    requires Affine(WeightedSum(v), a, IndexSum(|v|), b, IndexSquareSum(|v|))
    ensures Numerator(v) == b * Denominator(|v|)
  {
    LineNumerator(a, b, |v| as real, IndexSum(|v|), IndexSquareSum(|v|), WeightedSum(v), Sum(v));
  }

  /** Points on a line have exactly that line's slope. */
  lemma SlopeOfLine(v: seq<real>, a: real, b: real)
    requires |v| >= 2 && OnLine(v, a, b)
    ensures Slope(v) == b
  {
    LineNumeratorClosed(v, a, b);
    DenominatorClosed(|v|);
    DivCancel(b, Denominator(|v|));
  }

  /** A constant series has slope 0. */
  lemma SlopeOfConstant(v: seq<real>, c: real)
    requires |v| >= 2 && forall i :: 0 <= i < |v| ==> v[i] == c
    ensures Slope(v) == 0.0
  {
    SlopeOfLine(v, c, 0.0);
  }

  /** Over three points the slope is half the rise from the first to the last. */
  lemma SlopeOfThree(values: seq<real>)
    requires |values| == 3
    ensures Slope(values) == (values[2] - values[0]) / 2.0
  {
    var p2 := values[..2];
    var p1 := values[..1];
    assert p2[..1] == p1;
    assert p1[..0] == [];
    assert Sum(p1) == values[0];
    assert Sum(p2) == values[0] + values[1];
    assert WeightedSum(p1) == 0.0;
    assert WeightedSum(p2) == values[1];
    assert IndexSum(3) == 3.0;
    assert IndexSquareSum(3) == 5.0;
    assert Sum(values) == values[0] + values[1] + values[2];
    assert WeightedSum(values) == values[1] + 2.0 * values[2];
    assert Denominator(3) == 6.0;
  }
}
