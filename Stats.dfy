/** Exact-real counterparts of the numpy and pandas statistics the rules use:
    `np.mean`, `np.std` (population, compared through its square), `Series.std`
    (sample, ddof 1) and the slope of `np.polyfit(range(n), values, 1)` in closed form. */
module Stats {
  import opened Common

  function Sum(s: seq<real>): real
  {
    if s == [] then 0.0 else Sum(s[..|s| - 1]) + s[|s| - 1]
  }

  function Mean(s: seq<real>): real
    requires |s| > 0
  {
    Sum(s) / |s| as real
  }

  /** Sum of squared deviations from m. */
  function SquaredDeviation(s: seq<real>, m: real): (r: real)
    ensures r >= 0.0
  {
    if s == [] then 0.0
    else
      var d := s[|s| - 1] - m;
      SquareNonNegative(d);
      SquaredDeviation(s[..|s| - 1], m) + d * d
  }

  lemma SquareNonNegative(d: real)
    ensures d * d >= 0.0
  {
    if d < 0.0 {
      assert d * d == (-d) * (-d);
    }
  }

  /** Square of `np.std(s)` (divides by n). */
  function Variance(s: seq<real>): (r: real)
    requires |s| > 0
    ensures r >= 0.0
  {
    SquaredDeviation(s, Mean(s)) / |s| as real
  }

  /** Square of pandas `Series.std()` (divides by n - 1). */
  function SampleVariance(s: seq<real>): (r: real)
    requires |s| >= 2
    ensures r >= 0.0
  {
    SquaredDeviation(s, Mean(s)) / (|s| - 1) as real
  }

  /** Sum of i * s[i]. */
  function WeightedSum(s: seq<real>): real
  {
    if s == [] then 0.0 else WeightedSum(s[..|s| - 1]) + (|s| - 1) as real * s[|s| - 1]
  }

  /** Sum of the indices 0 .. n-1. */
  function IndexSum(n: nat): real
  {
    n as real * (n as real - 1.0) / 2.0
  }

  /** Sum of the squared indices 0 .. n-1. */
  function SquareIndexSum(n: nat): real
  {
    (n as real - 1.0) * n as real * (2.0 * n as real - 1.0) / 6.0
  }


  /** n * sum(i^2) - (sum i)^2 over the indices 0 .. n-1. */
  function SlopeDenominator(n: nat): (r: real)
    requires n >= 2
    ensures r > 0.0
  {
    var m := n as real;
    DenominatorPositive(m);
    m * m * (m * m - 1.0) / 12.0
  }

  lemma DenominatorPositive(m: real)
    requires m >= 2.0
    ensures m * m * (m * m - 1.0) > 0.0
  {
    assert m * m >= 2.0 * m >= 4.0;
  }

  /** n * sum(i * s[i]) - sum(i) * sum(s[i]) over the indices 0 .. n-1. */
  function SlopeNumerator(s: seq<real>): real
  {
    |s| as real * WeightedSum(s) - IndexSum(|s|) * Sum(s)
  }

  /** Slope of the least-squares line through the points (i, s[i]). */
  function Slope(s: seq<real>): real
    requires |s| >= 2
  {
    SlopeNumerator(s) / SlopeDenominator(|s|)
  }

  lemma {:induction false} SumPrepend(x: real, t: seq<real>)
    ensures Sum([x] + t) == x + Sum(t)
    decreases |t|
  {
    if t != [] {
      assert ([x] + t)[..|t|] == [x] + t[..|t| - 1];
      SumPrepend(x, t[..|t| - 1]);
    }
  }

  /** Prepending shifts every index by one. */
  lemma {:induction false} WeightedSumPrepend(x: real, t: seq<real>)
    ensures WeightedSum([x] + t) == WeightedSum(t) + Sum(t)
    decreases |t|
  {
    if t != [] {
      assert ([x] + t)[..|t|] == [x] + t[..|t| - 1];
      WeightedSumPrepend(x, t[..|t| - 1]);
    }
  }

  lemma {:induction false} SumReverse(s: seq<real>)
    ensures Sum(Reverse(s)) == Sum(s)
    decreases |s|
  {
    if s != [] {
      var init := s[..|s| - 1];
      assert Reverse(s) == [s[|s| - 1]] + Reverse(init);
      SumReverse(init);
      SumPrepend(s[|s| - 1], Reverse(init));
    }
  }

  lemma {:induction false} WeightedSumReverse(s: seq<real>)
    ensures WeightedSum(Reverse(s)) == (|s| - 1) as real * Sum(s) - WeightedSum(s)
    decreases |s|
  {
    if s != [] {
      var init := s[..|s| - 1];
      var x := s[|s| - 1];
      assert Reverse(s) == [x] + Reverse(init);
      WeightedSumReverse(init);
      WeightedSumPrepend(x, Reverse(init));
      SumReverse(init);
    }
  }

  /** Reading a series backwards negates its least-squares slope. */
  lemma SlopeReverse(s: seq<real>)
    requires |s| >= 2
    ensures Slope(Reverse(s)) == -Slope(s)
  {
    var n, S, W, C := |s| as real, Sum(s), WeightedSum(s), IndexSum(|s|);
    WeightedSumReverse(s);
    SumReverse(s);
    assert SlopeNumerator(Reverse(s)) == n * ((n - 1.0) * S - W) - C * S;
    ReverseAlgebra(n, S, W, C);
    NegateQuotient(SlopeNumerator(s), SlopeDenominator(|s|));
  }

  lemma NegateQuotient(x: real, d: real)
    requires d != 0.0
    ensures (-x) / d == -(x / d)
  {
  }

  lemma ReverseAlgebra(n: real, S: real, W: real, C: real)
    requires C == n * (n - 1.0) / 2.0
    ensures n * ((n - 1.0) * S - W) - C * S == -(n * W - C * S)
  {
  }

  lemma {:induction false} SquaredDeviationOfConstant(s: seq<real>, c: real)
    requires forall i :: 0 <= i < |s| ==> s[i] == c
    ensures Sum(s) == |s| as real * c
    ensures SquaredDeviation(s, c) == 0.0
    decreases |s|
  {
    if s != [] {
      SquaredDeviationOfConstant(s[..|s| - 1], c);
    }
  }

  /** A constant column has that constant as its mean and no spread. */
  lemma MeanOfConstant(s: seq<real>, c: real)
    requires |s| > 0 && forall i :: 0 <= i < |s| ==> s[i] == c
    ensures Mean(s) == c && Variance(s) == 0.0
    ensures |s| >= 2 ==> SampleVariance(s) == 0.0
  {
    SquaredDeviationOfConstant(s, c);
  }

  /** The value at index i of the line with intercept a and gradient b. */
  function Line(a: real, b: real, i: nat): real
  {
    a + b * i as real
  }

  lemma {:induction false} SumOfLine(s: seq<real>, a: real, b: real)
    requires forall i :: 0 <= i < |s| ==> s[i] == Line(a, b, i)
    ensures Sum(s) == |s| as real * a + b * IndexSum(|s|)
    decreases |s|
  {
    if s != [] {
      var n := |s|;
      var init := s[..n - 1];
      SumOfLine(init, a, b);
      IndexSumStep(n);
      SumStep(a, b, (n - 1) as real, IndexSum(n - 1));
    }
  }

  lemma {:induction false} WeightedSumOfLine(s: seq<real>, a: real, b: real)
    requires forall i :: 0 <= i < |s| ==> s[i] == Line(a, b, i)
    ensures WeightedSum(s) == a * IndexSum(|s|) + b * SquareIndexSum(|s|)
    decreases |s|
  {
    if s != [] {
      var n := |s|;
      var init := s[..n - 1];
      WeightedSumOfLine(init, a, b);
      IndexSumStep(n);
      WeightedSumStep(a, b, (n - 1) as real, IndexSum(n - 1), SquareIndexSum(n - 1));
    }
  }

  lemma IndexSumStep(n: nat)
    requires n >= 1
    ensures IndexSum(n) == IndexSum(n - 1) + (n - 1) as real
    ensures SquareIndexSum(n) == SquareIndexSum(n - 1) + (n - 1) as real * (n - 1) as real
  {
    var m := (n - 1) as real;
    assert n as real == m + 1.0;
    IndexSumAlgebra(m);
  }

  lemma IndexSumAlgebra(m: real)
    ensures (m + 1.0) * (m + 1.0 - 1.0) / 2.0 == m * (m - 1.0) / 2.0 + m
    ensures (m + 1.0 - 1.0) * (m + 1.0) * (2.0 * (m + 1.0) - 1.0) / 6.0 == (m - 1.0) * m * (2.0 * m - 1.0) / 6.0 + m * m
  {
  }

  lemma SumStep(a: real, b: real, m: real, C: real)
    ensures (m * a + b * C) + (a + b * m) == (m + 1.0) * a + b * (C + m)
  {
  }

  lemma WeightedSumStep(a: real, b: real, m: real, C: real, Q: real)
    ensures (a * C + b * Q) + m * (a + b * m) == a * (C + m) + b * (Q + m * m)
  {
  }

  /** The slope recovers the gradient of values lying exactly on a line. */
  lemma SlopeOfLine(s: seq<real>, a: real, b: real)
    requires |s| >= 2
    requires forall i :: 0 <= i < |s| ==> s[i] == Line(a, b, i)
    ensures Slope(s) == b
  {
    SumOfLine(s, a, b);
    WeightedSumOfLine(s, a, b);
    LineNumerator(|s|, a, b, Sum(s), WeightedSum(s));
    Cancel(b, SlopeDenominator(|s|));
  }

  lemma LineNumerator(n: nat, a: real, b: real, S: real, W: real)
    requires n >= 2
    requires S == n as real * a + b * IndexSum(n)
    requires W == a * IndexSum(n) + b * SquareIndexSum(n)
    ensures n as real * W - IndexSum(n) * S == b * SlopeDenominator(n)
  {
    var m := n as real;
    LineAlgebra(m, a, b, IndexSum(n), SquareIndexSum(n), SlopeDenominator(n));
  }

  lemma LineAlgebra(n: real, a: real, b: real, C: real, Q: real, D: real)
    requires C == n * (n - 1.0) / 2.0
    requires Q == (n - 1.0) * n * (2.0 * n - 1.0) / 6.0
    requires D == n * n * (n * n - 1.0) / 12.0
    ensures n * (a * C + b * Q) - C * (n * a + b * C) == b * D
  {
  }

  lemma Cancel(b: real, d: real)
    requires d != 0.0
    ensures b * d / d == b
  {
  }
}
