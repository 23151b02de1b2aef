/** Statistics over a series of readings, as the analysis kernel and both
    monitors compute them with `sum`, `statistics.mean`, `statistics.stdev`,
    `min`, `max` and a least-squares slope over the sample indices
    0, 1, ..., n-1. All arithmetic is exact; square roots are left to the
    caller. */
module Series {

  /** The sum of a series (Python's `sum`). */
  function Sum(s: seq<real>): real
  {
    if |s| == 0 then 0.0 else Sum(s[..|s| - 1]) + s[|s| - 1]
  }

  /** `statistics.mean` on a non-empty series. */
  function Mean(s: seq<real>): real
    requires |s| > 0
  {
    Sum(s) / |s| as real
  }

  /** `min` on a non-empty series. */
  function MinOf(s: seq<real>): (r: real)
    requires |s| > 0
    ensures r in s
    ensures forall i :: 0 <= i < |s| ==> r <= s[i]
  {
    if |s| == 1 then s[0]
    else
      var m := MinOf(s[..|s| - 1]);
      if s[|s| - 1] < m then s[|s| - 1] else m
  }

  /** `max` on a non-empty series. */
  function MaxOf(s: seq<real>): (r: real)
    requires |s| > 0
    ensures r in s
    ensures forall i :: 0 <= i < |s| ==> s[i] <= r
  {
    if |s| == 1 then s[0]
    else
      var m := MaxOf(s[..|s| - 1]);
      if s[|s| - 1] > m then s[|s| - 1] else m
  }

  /** The sum of squared deviations from `c`. */
  function SumSqDev(s: seq<real>, c: real): (r: real)
    ensures r >= 0.0
  {
    if |s| == 0 then 0.0
    else
      SquareNonNegative(s[|s| - 1] - c);
      SumSqDev(s[..|s| - 1], c) + (s[|s| - 1] - c) * (s[|s| - 1] - c)
  }

  /** The sample variance (divisor n - 1) that `statistics.stdev` takes the
      square root of. */
  function SampleVariance(s: seq<real>): (r: real)
    requires |s| >= 2
    ensures r >= 0.0
  {
    SumSqDev(s, Mean(s)) / (|s| - 1) as real
  }

  /** The population variance (divisor n). */
  function PopulationVariance(s: seq<real>): (r: real)
    requires |s| > 0
    ensures r >= 0.0
  {
    SumSqDev(s, Mean(s)) / |s| as real
  }

  /** `sum(range(n))` and `sum(i * i for i in range(n))`. */
  function SumIdx(n: nat): real
  {
    if n == 0 then 0.0 else SumIdx(n - 1) + (n - 1) as real
  }

  function SumIdx2(n: nat): real
  {
    if n == 0 then 0.0 else SumIdx2(n - 1) + (n - 1) as real * (n - 1) as real
  }

  /** `sum(i * s[i] for i in range(n))`. */
  function SumIdxY(s: seq<real>): real
  {
    if |s| == 0 then 0.0
    else SumIdxY(s[..|s| - 1]) + (|s| - 1) as real * s[|s| - 1]
  }

  /** The denominator `n * sum_x2 - sum_x * sum_x` of the slope. */
  function SlopeDenominator(n: nat): real
  {
    n as real * SumIdx2(n) - SumIdx(n) * SumIdx(n)
  }

  /** The least-squares slope of `y` against its indices, with the value 0
      the callers keep when the denominator vanishes. */
  function Slope(y: seq<real>): real
  {
    var n := |y|;
    var den := SlopeDenominator(n);
    if den != 0.0 then (n as real * SumIdxY(y) - SumIdx(n) * Sum(y)) / den else 0.0
  }

  /** `y` lies on the line `a + b * i`. */
  predicate OnLine(y: seq<real>, a: real, b: real)
  {
    forall i :: 0 <= i < |y| ==> y[i] == a + b * i as real
  }

  /** The sums of points on a line, in closed form over the index sums. */
  lemma SumOnLine(y: seq<real>, a: real, b: real)
    requires OnLine(y, a, b)
    ensures Sum(y) == |y| as real * a + b * SumIdx(|y|)
    ensures SumIdxY(y) == a * SumIdx(|y|) + b * SumIdx2(|y|)
  {
    SumOfLine(y, a, b);
    SumIdxYOfLine(y, a, b);
  }

  lemma {:induction false} SumOfLine(y: seq<real>, a: real, b: real)
    requires OnLine(y, a, b)
    ensures Sum(y) == |y| as real * a + b * SumIdx(|y|)
    decreases |y|
  {
    if |y| > 0 {
      var n := |y| - 1;
      var p := y[..n];
      assert OnLine(p, a, b);
      SumOfLine(p, a, b);
      var k := n as real;
      assert Sum(y) == Sum(p) + (a + b * k);
      assert (k + 1.0) * a == k * a + a;
      assert b * (SumIdx(n) + k) == b * SumIdx(n) + b * k;
    }
  }

  lemma {:induction false} SumIdxYOfLine(y: seq<real>, a: real, b: real)
    requires OnLine(y, a, b)
    ensures SumIdxY(y) == a * SumIdx(|y|) + b * SumIdx2(|y|)
    decreases |y|
  {
    if |y| > 0 {
      var n := |y| - 1;
      var p := y[..n];
      assert OnLine(p, a, b);
      SumIdxYOfLine(p, a, b);
      var k := n as real;
      assert SumIdxY(y) == SumIdxY(p) + k * (a + b * k);
      assert k * (a + b * k) == a * k + b * (k * k);
      assert a * (SumIdx(n) + k) == a * SumIdx(n) + a * k;
      assert b * (SumIdx2(n) + k * k) == b * SumIdx2(n) + b * (k * k);
    }
  }

  /** The least-squares slope recovers the gradient of points on a line,
      for the two window lengths the callers use (10 and 20 points). */
  lemma LinearSlope(y: seq<real>, a: real, b: real)
    requires |y| == 10 || |y| == 20
    requires OnLine(y, a, b)
    ensures Slope(y) == b
  {
    if |y| == 10 {
      LinearSlopeOfSize(y, a, b, 45.0, 285.0);
    } else {
      LinearSlopeOfSize(y, a, b, 190.0, 2470.0);
    }
  }

  /** The slope of points on a line, once the index sums of the window's
      size are known numbers. */
  lemma LinearSlopeOfSize(y: seq<real>, a: real, b: real, s1: real, s2: real)
    requires (|y| == 10 && s1 == 45.0 && s2 == 285.0) || (|y| == 20 && s1 == 190.0 && s2 == 2470.0)
    requires OnLine(y, a, b)
    ensures Slope(y) == b
  {
    SumOnLine(y, a, b);
    assert SumIdx(|y|) == s1 && SumIdx2(|y|) == s2;
  }

  /** A constant series has slope zero. */
  lemma ConstantSlope(y: seq<real>, c: real)
    requires |y| == 10 || |y| == 20
    requires forall i :: 0 <= i < |y| ==> y[i] == c
    ensures Slope(y) == 0.0
  {
    assert OnLine(y, c, 0.0);
    LinearSlope(y, c, 0.0);
  }

  /** The sum of a series lies between `n` times its minimum and `n` times
      its maximum. */
  lemma {:induction false} SumBetween(s: seq<real>, lo: real, hi: real)
    requires forall i :: 0 <= i < |s| ==> lo <= s[i] <= hi
    ensures |s| as real * lo <= Sum(s) <= |s| as real * hi
    decreases |s|
  {
    if |s| > 0 {
      SumBetween(s[..|s| - 1], lo, hi);
      var k := (|s| - 1) as real;
      assert |s| as real == k + 1.0;
      AddOneTimes(k, lo);
      AddOneTimes(k, hi);
    }
  }

  /** The mean lies between the minimum and the maximum. */
  lemma MeanBetween(s: seq<real>)
    requires |s| > 0
    ensures MinOf(s) <= Mean(s) <= MaxOf(s)
  {
    MeanWithin(s, MinOf(s), MaxOf(s));
  }

  /** Bounds on every entry bound the mean. */
  lemma MeanWithin(s: seq<real>, lo: real, hi: real)
    requires |s| > 0
    requires forall i :: 0 <= i < |s| ==> lo <= s[i] <= hi
    ensures lo <= Mean(s) <= hi
  {
    SumBetween(s, lo, hi);
    DivideBounds(|s| as real, lo, Sum(s), hi);
  }

  /** The sum of a series with all entries equal to `c`. */
  lemma {:induction false} SumConstant(s: seq<real>, c: real)
    requires forall i :: 0 <= i < |s| ==> s[i] == c
    ensures Sum(s) == |s| as real * c
    decreases |s|
  {
    if |s| > 0 {
      SumConstant(s[..|s| - 1], c);
    }
  }

  // Arithmetic facts the solver needs spelled out.

  lemma SquareNonNegative(x: real)
    ensures x * x >= 0.0
  {
  }

  lemma AddOneTimes(k: real, c: real)
    ensures (k + 1.0) * c == k * c + c
  {
  }

  lemma DivideBounds(n: real, lo: real, s: real, hi: real)
    requires n > 0.0 && n * lo <= s <= n * hi
    ensures lo <= s / n <= hi
  {
  }
}
