/**
 * Descriptive statistics shared by the two dashboard clients: sums, mean,
 * population variance and an ordinary-least-squares line through the points
 * (0, y0), (1, y1), ..., (n-1, y(n-1)). Everything is over `real`; square
 * roots never appear, because every use of a standard deviation in the
 * clients is compared, and comparisons are stated on squares.
 */
module Stats {

  function Max(a: real, b: real): real { if a >= b then a else b }

  function Min(a: real, b: real): real { if a <= b then a else b }

  function Abs(x: real): real { if x < 0.0 then -x else x }

  /** A quotient above `t` over a positive divisor means the dividend is above `t` times it. */
  lemma DivAbove(x: real, y: real, t: real)
    requires y > 0.0 && x / y > t
    ensures x > t * y
  {
    var r := x / y;
    assert r * y == x;
    assert (r - t) * y > 0.0;
  }

  /** JavaScript `Math.round`: halves go up. */
  function Round(x: real): int { (x + 0.5).Floor }

  /** Sum of a sequence, folding from the left as `reduce((a, b) => a + b, 0)` does. */
  function Sum(s: seq<real>): real
  {
    if |s| == 0 then 0.0 else Sum(s[..|s| - 1]) + s[|s| - 1]
  }

  /** Sum of squares. */
  function SumSq(s: seq<real>): real
  {
    if |s| == 0 then 0.0 else SumSq(s[..|s| - 1]) + s[|s| - 1] * s[|s| - 1]
  }

  /** Deviations of every element from `c`. */
  function Dev(s: seq<real>, c: real): (r: seq<real>)
    ensures |r| == |s| && forall i {:trigger r[i]} :: 0 <= i < |s| ==> r[i] == s[i] - c
  {
    seq(|s|, i requires 0 <= i < |s| => s[i] - c)
  }

  function Mean(s: seq<real>): real
    requires |s| > 0
  {
    Sum(s) / (|s| as real)
  }

  /** Population variance: mean squared deviation from the mean. */
  function Variance(s: seq<real>): real
    requires |s| > 0
  {
    SumSq(Dev(s, Mean(s))) / (|s| as real)
  }

  lemma {:induction false} SumSqNonNegative(s: seq<real>)
    ensures SumSq(s) >= 0.0
  {
    if |s| > 0 {
      SumSqNonNegative(s[..|s| - 1]);
      SquareNonNegative(s[|s| - 1]);
    }
  }

  lemma VarianceNonNegative(s: seq<real>)
    requires |s| > 0
    ensures Variance(s) >= 0.0
  {
    SumSqNonNegative(Dev(s, Mean(s)));
  }

  lemma {:induction false} SumDev(s: seq<real>, c: real)
    ensures Sum(Dev(s, c)) == Sum(s) - (|s| as real) * c
  {
    if |s| > 0 {
      var init := s[..|s| - 1];
      assert Dev(s, c)[..|s| - 1] == Dev(init, c);
      SumDev(init, c);
    }
  }

  /** The deviations of the mean sum to zero. */
  lemma SumDevMean(s: seq<real>)
    requires |s| > 0
    ensures Sum(Dev(s, Mean(s))) == 0.0
  {
    SumDev(s, Mean(s));
  }

  lemma SquareNonNegative(x: real)
    ensures x * x >= 0.0
  {
    if x < 0.0 { assert x * x == (-x) * (-x); }
  }

  /** One induction step of the bound below, on plain numbers. */
  lemma SquaredSumStep(m: real, q: real, s: real, a: real)
    requires m >= 0.0 && q >= 0.0 && s * s <= m * q
    requires m == 0.0 ==> s == 0.0
    ensures (s + a) * (s + a) <= (m + 1.0) * (q + a * a)
  {
    // 2*s*a <= q + m*a*a, because m*(q + m*a*a - 2*s*a) >= (s - m*a)^2 >= 0
    if m > 0.0 {
      SquareNonNegative(s - m * a);
      assert m * (q + m * a * a - 2.0 * s * a) >= 0.0;
      assert q + m * a * a - 2.0 * s * a >= 0.0;
    }
    assert (s + a) * (s + a) == s * s + 2.0 * s * a + a * a;
    assert (m + 1.0) * (q + a * a) == m * q + q + m * a * a + a * a;
  }

  /** Cauchy-Schwarz for the all-ones vector: (sum e)^2 <= |e| * (sum of squares). */
  lemma {:induction false} SquaredSumBound(e: seq<real>)
    ensures Sum(e) * Sum(e) <= (|e| as real) * SumSq(e)
  {
    if |e| > 0 {
      var f := e[..|e| - 1];
      SquaredSumBound(f);
      SumSqNonNegative(f);
      if |f| == 0 { assert Sum(f) == 0.0; }
      SquaredSumStep(|f| as real, SumSq(f), Sum(f), e[|e| - 1]);
    }
  }

  /**
   * The newest value of a window (its last element) lies within sqrt(n-1)
   * population standard deviations of the window's mean, stated on squares:
   * (v - mean)^2 <= (n-1) * variance.
   */
  lemma LastValueDeviationBound(w: seq<real>)
    requires |w| > 0
    ensures var d := w[|w| - 1] - Mean(w);
            d * d <= ((|w| - 1) as real) * Variance(w)
  {
    var dv := Dev(w, Mean(w));
    var e := dv[..|w| - 1];
    var d := w[|w| - 1] - Mean(w);
    LastDeviation(w);
    SquaredSumBound(e);
    DeviationStep(|w| as real, d, Sum(e), SumSq(e), SumSq(dv), Variance(w));
  }

  /** Splitting the newest deviation `d` off: the others sum to -d, and the squares add up. */
  lemma LastDeviation(w: seq<real>)
    requires |w| > 0
    ensures var dv := Dev(w, Mean(w));
            var d := w[|w| - 1] - Mean(w);
            Sum(dv[..|w| - 1]) == -d && SumSq(dv) == SumSq(dv[..|w| - 1]) + d * d
  {
    var dv := Dev(w, Mean(w));
    assert Sum(dv) == Sum(dv[..|w| - 1]) + dv[|w| - 1];
    SumDevMean(w);
  }

  /** The arithmetic of the bound above: with s = Sum(e) = -d, q = SumSq(e) and v = (q + d^2) / n. */
  lemma DeviationStep(n: real, d: real, s: real, q: real, qd: real, v: real)
    requires n >= 1.0 && s == -d && s * s <= (n - 1.0) * q && qd == q + d * d && v == qd / n
    ensures d * d <= (n - 1.0) * v
  {
    assert n * v == q + d * d;
    assert d * d <= (n - 1.0) * q;
    assert n * (d * d) <= (n - 1.0) * (n * v);
  }

  // ---------------------------------------------------------------------
  // Ordinary least squares over x = 0 .. n-1

  /** Sum of the indices 0 .. n-1. */
  function SumX(n: nat): real
  {
    if n == 0 then 0.0 else SumX(n - 1) + ((n - 1) as real)
  }

  /** Sum of the squared indices 0 .. n-1. */
  function SumXX(n: nat): real
  {
    if n == 0 then 0.0 else SumXX(n - 1) + ((n - 1) as real) * ((n - 1) as real)
  }

  /** Sum of index times value. */
  function SumXY(ys: seq<real>): real
  {
    if |ys| == 0 then 0.0 else SumXY(ys[..|ys| - 1]) + ((|ys| - 1) as real) * ys[|ys| - 1]
  }

  lemma {:induction false} SumXClosed(n: nat)
    ensures 2.0 * SumX(n) == (n as real) * ((n as real) - 1.0)
  {
    if n > 0 { SumXClosed(n - 1); }
  }

  lemma {:induction false} SumXXClosed(n: nat)
    ensures 6.0 * SumXX(n) == (n as real) * ((n as real) - 1.0) * (2.0 * (n as real) - 1.0)
  {
    if n > 0 {
      SumXXClosed(n - 1);
      var k := (n - 1) as real;
      assert 6.0 * SumXX(n) == k * (k - 1.0) * (2.0 * k - 1.0) + 6.0 * k * k;
    }
  }

  /** The OLS denominator n*sum(x^2) - (sum x)^2. */
  function Denominator(n: nat): real
  {
    (n as real) * SumXX(n) - SumX(n) * SumX(n)
  }

  /** For x = 0 .. n-1 the denominator is n^2 (n^2 - 1) / 12, so it is positive once n >= 2. */
  lemma DenominatorClosed(n: nat)
    ensures 12.0 * Denominator(n) == (n as real) * (n as real) * ((n as real) * (n as real) - 1.0)
    ensures n >= 2 ==> Denominator(n) > 0.0
  {
    SumXClosed(n);
    SumXXClosed(n);
    var r := n as real;
    var sx := SumX(n);
    var sxx := SumXX(n);
    assert 12.0 * (r * sxx) == 2.0 * r * (6.0 * sxx);
    assert 12.0 * (sx * sx) == 3.0 * (2.0 * sx) * (2.0 * sx);
    assert 12.0 * Denominator(n) == 2.0 * r * (r * (r - 1.0) * (2.0 * r - 1.0)) - 3.0 * (r * (r - 1.0)) * (r * (r - 1.0));
    if n >= 2 {
      assert r * r - 1.0 > 0.0;
      assert r * r > 0.0;
      assert (r * r) * (r * r - 1.0) > 0.0;
    }
  }

  /** A fitted line y = intercept + slope * x. */
  datatype Line = Line(intercept: real, slope: real)

  /**
   * The least-squares line from the sums over n points, given the denominator
   * n*sum(x^2) - (sum x)^2.
   */
  function LineFromSums(n: real, sx: real, sy: real, sxy: real, den: real): Line
    requires n > 0.0 && den != 0.0
  {
    var slope := (n * sxy - sx * sy) / den;
    Line((sy - slope * sx) / n, slope)
  }

  /** Least-squares line through (i, ys[i]), as both clients compute it. */
  function FitLine(ys: seq<real>): Line
    requires |ys| >= 2
  {
    assert Denominator(|ys|) > 0.0 by { DenominatorClosed(|ys|); }
    LineFromSums(|ys| as real, SumX(|ys|), Sum(ys), SumXY(ys), Denominator(|ys|))
  }

  /** The points lie exactly on y = a*x + b. */
  ghost predicate OnLine(ys: seq<real>, a: real, b: real)
  {
    forall i :: 0 <= i < |ys| ==> ys[i] == a * (i as real) + b
  }

  /** Dropping the newest point keeps the rest on the line; the newest point is on it too. */
  lemma OnLineInit(ys: seq<real>, a: real, b: real)
    requires |ys| > 0 && OnLine(ys, a, b)
    ensures OnLine(ys[..|ys| - 1], a, b)
    ensures ys[|ys| - 1] == a * ((|ys| - 1) as real) + b
  {
  }

  lemma {:induction false} SumOnLine(ys: seq<real>, a: real, b: real)
    requires OnLine(ys, a, b)
    ensures Sum(ys) == a * SumX(|ys|) + (|ys| as real) * b
  {
    if |ys| > 0 {
      var init := ys[..|ys| - 1];
      OnLineInit(ys, a, b);
      SumOnLine(init, a, b);
      var k := (|ys| - 1) as real;
      SumStep(a, b, k, ys[|ys| - 1], Sum(init), SumX(|ys| - 1), |ys| as real, SumX(|ys|));
    }
  }

  /** The arithmetic of one step of `SumOnLine`; `n` and `nx` are the count and index sum after it. */
  lemma SumStep(a: real, b: real, k: real, y: real, s: real, sx: real, n: real, nx: real)
    requires y == a * k + b && n == k + 1.0 && nx == sx + k && s == a * sx + k * b
    ensures s + y == a * nx + n * b
  {
  }

  lemma {:induction false} SumXYOnLine(ys: seq<real>, a: real, b: real)
    requires OnLine(ys, a, b)
    ensures SumXY(ys) == a * SumXX(|ys|) + b * SumX(|ys|)
  {
    if |ys| > 0 {
      var init := ys[..|ys| - 1];
      OnLineInit(ys, a, b);
      SumXYOnLine(init, a, b);
      var k := (|ys| - 1) as real;
      SumXYStep(a, b, k, ys[|ys| - 1], SumX(|ys| - 1), SumXX(|ys| - 1), SumXY(init), SumX(|ys|), SumXX(|ys|));
    }
  }

  /** The arithmetic of one step of `SumXYOnLine`; `nx` and `nxx` are the index sums after it. */
  lemma SumXYStep(a: real, b: real, k: real, y: real, sx: real, sxx: real, sxy: real, nx: real, nxx: real)
    requires y == a * k + b && nx == sx + k && nxx == sxx + k * k && sxy == a * sxx + b * sx
    ensures sxy + k * y == a * nxx + b * nx
  {
    assert k * y == a * (k * k) + b * k;
  }

  lemma LineFromExactSums(n: real, sx: real, sxx: real, sy: real, sxy: real, den: real, a: real, b: real)
    requires n > 0.0 && den == n * sxx - sx * sx && den != 0.0
    requires sy == a * sx + n * b && sxy == a * sxx + b * sx
    ensures LineFromSums(n, sx, sy, sxy, den) == Line(b, a)
  {
    assert n * sxy - sx * sy == a * den;
    assert (sy - a * sx) / n == b;
  }

  /** Noiseless points are fitted exactly: slope a and intercept b. */
  lemma FitExactLine(ys: seq<real>, a: real, b: real)
    requires |ys| >= 2 && OnLine(ys, a, b)
    ensures FitLine(ys) == Line(b, a)
  {
    SumOnLine(ys, a, b);
    SumXYOnLine(ys, a, b);
    assert Denominator(|ys|) > 0.0 by { DenominatorClosed(|ys|); }
    LineFromExactSums(|ys| as real, SumX(|ys|), SumXX(|ys|), Sum(ys), SumXY(ys), Denominator(|ys|), a, b);
  }

  /** Sum of squared residuals of a line over the points. */
  function SquaredError(ys: seq<real>, l: Line): real
  {
    if |ys| == 0 then 0.0
    else
      var k := (|ys| - 1) as real;
      var res := ys[|ys| - 1] - (l.intercept + l.slope * k);
      SquaredError(ys[..|ys| - 1], l) + res * res
  }

  lemma {:induction false} SquaredErrorNonNegative(ys: seq<real>, l: Line)
    ensures SquaredError(ys, l) >= 0.0
  {
    if |ys| > 0 {
      SquaredErrorNonNegative(ys[..|ys| - 1], l);
      var res := ys[|ys| - 1] - (l.intercept + l.slope * ((|ys| - 1) as real));
      SquareNonNegative(res);
    }
  }

  lemma {:induction false} SquaredErrorOnLine(ys: seq<real>, a: real, b: real)
    requires OnLine(ys, a, b)
    ensures SquaredError(ys, Line(b, a)) == 0.0
  {
    if |ys| > 0 {
      assert OnLine(ys[..|ys| - 1], a, b);
      SquaredErrorOnLine(ys[..|ys| - 1], a, b);
    }
  }
}
