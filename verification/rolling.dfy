/**
 * The per-source rolling price window of internal/detection/rolling.go:
 * a bounded FIFO history of prices, its arithmetic mean, its population
 * standard deviation, and the z-score and Bollinger-band anomaly tests.
 *
 * Prices are reals. The square root taken by GetStandardDeviation is not
 * computed: the model keeps the variance and calls `sd` a standard deviation
 * of a window when `sd >= 0` and `sd * sd` is the window's variance.
 */
module Detection {

  // ---------------------------------------------------------------------
  // Window contents
  // ---------------------------------------------------------------------

  /** AddPrice does not slice an empty slice: whenever the window is at or
      above its capacity, there is an oldest price to drop. */
  predicate CanSlide(prices: seq<real>, windowSize: int) {
    |prices| >= windowSize ==> prices != []
  }

  /** The window's prices after AddPrice(price): the latest of the old
      prices, in order, followed by the new one. The oldest is dropped
      exactly when the window is at or above its capacity. */
  function Slide(prices: seq<real>, windowSize: int, price: real): (r: seq<real>)
    requires CanSlide(prices, windowSize)
    ensures 1 <= |r| && |prices| <= |r| <= |prices| + 1
    ensures r == prices[|prices| + 1 - |r|..] + [price]
    ensures |r| == |prices| + 1 <==> |prices| < windowSize
  {
    (if |prices| >= windowSize then prices[1..] else prices) + [price]
  }

  function Min(a: int, b: int): int {
    if a <= b then a else b
  }

  /** The prices held by a window of capacity `windowSize` that was created
      empty and then given each of `arrivals`, in order, through AddPrice. */
  function Fill(windowSize: int, arrivals: seq<real>): (r: seq<real>)
    requires windowSize >= 1
    ensures |r| == Min(|arrivals|, windowSize)
  {
    if arrivals == [] then []
    else Slide(Fill(windowSize, arrivals[..|arrivals| - 1]), windowSize, arrivals[|arrivals| - 1])
  }

  /** A window created with a non-positive capacity panics on its first
      AddPrice, and one with a positive capacity does not. */
  lemma FreshWindowNeedsPositiveSize(size: int)
    ensures CanSlide([], size) <==> size >= 1
  {
  }

  /** AddPrice keeps a window within its capacity, appends the new price
      last, and keeps the surviving prices in their order: it drops the
      oldest price exactly when the window was full. */
  lemma SlideKeepsCapacity(prices: seq<real>, windowSize: int, price: real)
    requires 1 <= windowSize && |prices| <= windowSize
    ensures CanSlide(prices, windowSize)
    ensures var r := Slide(prices, windowSize, price);
      && |r| <= windowSize
      && r[|r| - 1] == price
      && (|prices| < windowSize ==> r == prices + [price])
      && (|prices| == windowSize ==> r == prices[1..] + [price])
  {
  }

  /** Adding one more arrival to a filled window is the same as filling it
      with the longer arrival sequence. */
  lemma FillStep(windowSize: int, arrivals: seq<real>, price: real)
    requires windowSize >= 1
    ensures CanSlide(Fill(windowSize, arrivals), windowSize)
    ensures Slide(Fill(windowSize, arrivals), windowSize, price) == Fill(windowSize, arrivals + [price])
  {
    assert (arrivals + [price])[..|arrivals|] == arrivals;
  }

  /** After M insertions into a fresh window of capacity N, the window holds
      exactly the last min(M, N) prices, in arrival order. */
  lemma {:induction false} FillKeepsLatest(windowSize: int, arrivals: seq<real>)
    requires windowSize >= 1
    ensures Fill(windowSize, arrivals) == arrivals[|arrivals| - Min(|arrivals|, windowSize)..]
  {
    if arrivals != [] {
      var init := arrivals[..|arrivals| - 1];
      var last := arrivals[|arrivals| - 1];
      assert init + [last] == arrivals;
      FillKeepsLatest(windowSize, init);
      FillStep(windowSize, init, last);
      SlideOfLatest(init, windowSize, last);
    }
  }

  /** Sliding a price into the latest min(M, N) of M arrivals gives the
      latest min(M + 1, N) of the M + 1 arrivals. */
  lemma SlideOfLatest(arrivals: seq<real>, windowSize: int, price: real)
    requires windowSize >= 1
    ensures var n := |arrivals|;
      Slide(arrivals[n - Min(n, windowSize)..], windowSize, price)
        == (arrivals + [price])[n + 1 - Min(n + 1, windowSize)..]
  {
    var n := |arrivals|;
    var all := arrivals + [price];
    if n < windowSize {
      assert arrivals[0..] == arrivals && all[0..] == all;
    } else {
      var lo := n + 1 - windowSize;
      calc {
        Slide(arrivals[lo - 1..], windowSize, price);
        arrivals[lo - 1..][1..] + [price];
        { assert arrivals[lo - 1..][1..] == arrivals[lo..] == all[lo..n]; }
        all[lo..n] + [price];
        all[lo..];
      }
    }
  }

  // ---------------------------------------------------------------------
  // Statistics
  // ---------------------------------------------------------------------

  function Sq(x: real): real {
    x * x
  }

  // Facts about squares and products, each proved in a context of its own.

  lemma SqNonNegative(x: real)
    ensures Sq(x) >= 0.0
  {
  }

  lemma SqPositive(x: real)
    requires x != 0.0
    ensures Sq(x) > 0.0
  {
    assert Sq(x) / x == x;
  }

  lemma SqDouble(x: real)
    ensures Sq(2.0 * x) == 4.0 * Sq(x)
  {
  }

  lemma ProductPositive(x: real, y: real)
    requires x > 0.0 && y > 0.0
    ensures x * y > 0.0
  {
  }

  lemma ProductNonNegative(x: real, y: real)
    requires x >= 0.0 && y >= 0.0
    ensures x * y >= 0.0
  {
  }

  /** Squaring is strictly increasing on the non-negative reals. */
  lemma SqMonotone(a: real, b: real)
    requires 0.0 <= a < b
    ensures Sq(a) < Sq(b)
  {
    ProductNonNegative(a, b - a);
    ProductPositive(b, b - a);
  }

  /** Sum of the prices, accumulated from the oldest to the newest. */
  function Sum(s: seq<real>): real {
    if s == [] then 0.0 else Sum(s[..|s| - 1]) + s[|s| - 1]
  }

  /** Arithmetic mean, 0 for an empty window. */
  function Mean(s: seq<real>): real {
    if |s| == 0 then 0.0 else Sum(s) / (|s| as real)
  }

  /** Sum of the signed deviations from `m`. */
  function SumDeviations(s: seq<real>, m: real): real {
    if s == [] then 0.0 else SumDeviations(s[..|s| - 1], m) + (s[|s| - 1] - m)
  }

  /** Sum of the squared deviations from `m`. */
  function SumSquaredDeviations(s: seq<real>, m: real): real {
    if s == [] then 0.0 else SumSquaredDeviations(s[..|s| - 1], m) + Sq(s[|s| - 1] - m)
  }

  /** Population variance (dividing by the number of prices, not one less),
      0 when fewer than two prices are held. */
  function Variance(s: seq<real>): real {
    if |s| < 2 then 0.0 else SumSquaredDeviations(s, Mean(s)) / (|s| as real)
  }

  /** `sd` is the population standard deviation of `s`: the non-negative
      square root of its variance. */
  predicate IsStdDev(sd: real, s: seq<real>) {
    sd >= 0.0 && Sq(sd) == Variance(s)
  }

  predicate Constant(s: seq<real>) {
    forall i, j :: 0 <= i < |s| && 0 <= j < |s| ==> s[i] == s[j]
  }

  lemma {:induction false} SumDeviationsShift(s: seq<real>, m: real)
    ensures SumDeviations(s, m) == Sum(s) - (|s| as real) * m
  {
    if s != [] {
      SumDeviationsShift(s[..|s| - 1], m);
    }
  }

  /** The mean is the point the deviations cancel around. */
  lemma DeviationsFromMeanCancel(s: seq<real>)
    requires s != []
    ensures SumDeviations(s, Mean(s)) == 0.0
  {
    SumDeviationsShift(s, Mean(s));
  }

  lemma {:induction false} SumWithin(s: seq<real>, lo: real, hi: real)
    requires forall i :: 0 <= i < |s| ==> lo <= s[i] <= hi
    ensures (|s| as real) * lo <= Sum(s) <= (|s| as real) * hi
  {
    if s != [] {
      SumWithin(s[..|s| - 1], lo, hi);
      assert (|s| as real) * lo == ((|s| - 1) as real) * lo + lo;
      assert (|s| as real) * hi == ((|s| - 1) as real) * hi + hi;
    }
  }

  lemma DivideWithin(total: real, n: real, lo: real, hi: real)
    requires n > 0.0 && n * lo <= total <= n * hi
    ensures lo <= total / n <= hi
  {
  }

  /** The mean of a non-empty window lies between any bounds of its prices. */
  lemma MeanWithin(s: seq<real>, lo: real, hi: real)
    requires s != []
    requires forall i :: 0 <= i < |s| ==> lo <= s[i] <= hi
    ensures lo <= Mean(s) <= hi
  {
    SumWithin(s, lo, hi);
    DivideWithin(Sum(s), |s| as real, lo, hi);
  }

  lemma {:induction false} SumSquaredDeviationsNonNegative(s: seq<real>, m: real)
    ensures SumSquaredDeviations(s, m) >= 0.0
  {
    if s != [] {
      SumSquaredDeviationsNonNegative(s[..|s| - 1], m);
      SqNonNegative(s[|s| - 1] - m);
    }
  }

  /** The variance, and so the square of the standard deviation, is never negative. */
  lemma VarianceNonNegative(s: seq<real>)
    ensures Variance(s) >= 0.0
  {
    SumSquaredDeviationsNonNegative(s, Mean(s));
  }

  /** The standard deviation is unique. */
  lemma StdDevUnique(a: real, b: real, s: seq<real>)
    requires IsStdDev(a, s) && IsStdDev(b, s)
    ensures a == b
  {
    if a < b {
      SqMonotone(a, b);
    } else if b < a {
      SqMonotone(b, a);
    }
  }

  /** Fewer than two prices: the standard deviation is 0. */
  lemma StdDevOfShortWindow(sd: real, s: seq<real>)
    requires |s| < 2
    ensures IsStdDev(sd, s) <==> sd == 0.0
  {
    if sd > 0.0 {
      SqPositive(sd);
    }
  }

  lemma {:induction false} SquaredDeviationsZero(s: seq<real>, m: real)
    ensures SumSquaredDeviations(s, m) == 0.0 <==> forall i :: 0 <= i < |s| ==> s[i] == m
  {
    if s != [] {
      var init := s[..|s| - 1];
      SquaredDeviationsZero(init, m);
      SumSquaredDeviationsNonNegative(init, m);
      var d := s[|s| - 1] - m;
      SqNonNegative(d);
      if d != 0.0 {
        SqPositive(d);
      }
      if forall i :: 0 <= i < |init| ==> init[i] == m {
        if d == 0.0 {
          forall i | 0 <= i < |s| ensures s[i] == m {
            if i < |init| { assert s[i] == init[i]; }
          }
        }
      }
    }
  }

  lemma {:induction false} SumOfConstant(s: seq<real>, c: real)
    requires forall i :: 0 <= i < |s| ==> s[i] == c
    ensures Sum(s) == (|s| as real) * c
  {
    if s != [] {
      SumOfConstant(s[..|s| - 1], c);
    }
  }

  /** A window of two or more prices has zero spread exactly when all its
      prices are equal. */
  lemma VarianceZeroIffConstant(s: seq<real>)
    requires |s| >= 2
    ensures Variance(s) == 0.0 <==> Constant(s)
  {
    var n := |s| as real;
    var m := Mean(s);
    assert Variance(s) * n == SumSquaredDeviations(s, m);
    SquaredDeviationsZero(s, m);
    if Constant(s) {
      SumOfConstant(s, s[0]);
      assert m == s[0];
    }
    if forall i :: 0 <= i < |s| ==> s[i] == m {
      assert Constant(s);
    }
  }

  // ---------------------------------------------------------------------
  // Anomaly tests
  // ---------------------------------------------------------------------

  function Abs(x: real): real {
    if x < 0.0 then -x else x
  }

  lemma SqOfAbs(x: real)
    ensures Sq(Abs(x)) == Sq(x)
  {
  }

  /** |price - mean| / sd > 2. With sd == 0 the source divides by zero; the
      model takes the outcome of IEEE-754 division: a price away from the
      mean gives an infinite z-score (flagged), a price at the mean gives
      NaN (not flagged). */
  function ZScoreAnomaly(price: real, mean: real, sd: real): (flagged: bool)
    ensures flagged ==> price != mean
    ensures sd != 0.0 ==> (flagged <==> Abs(price - mean) > 2.0 * Abs(sd))
  {
    if sd == 0.0 then price != mean
    else
      QuotientAbove(price - mean, sd);
      Abs((price - mean) / sd) > 2.0
  }

  /** |d / k| > 2 exactly when |d| > 2·|k|, for a non-zero k. */
  lemma QuotientAbove(d: real, k: real)
    requires k != 0.0
    ensures Abs(d / k) > 2.0 <==> Abs(d) > 2.0 * Abs(k)
  {
    var z := d / k;
    assert d == z * k;
    assert Abs(d) == Abs(z) * Abs(k);
    if Abs(z) > 2.0 {
      ProductPositive(Abs(z) - 2.0, Abs(k));
    } else {
      ProductNonNegative(2.0 - Abs(z), Abs(k));
    }
  }

  /** The price lies above mean + 2·sd or below mean − 2·sd. */
  function BandAnomaly(price: real, mean: real, sd: real): (flagged: bool)
    ensures sd >= 0.0 ==> (flagged <==> Abs(price - mean) > 2.0 * sd)
  {
    price > mean + 2.0 * sd || price < mean - 2.0 * sd
  }

  /** CheckAnomalies as a function of the window contents: no verdict on
      fewer than two prices; otherwise, for a true standard deviation, both
      flags say that the price is more than two deviations from the mean. */
  function Anomalies(s: seq<real>, price: real, sd: real): (r: (bool, bool))
    ensures |s| < 2 ==> r == (false, false)
    ensures IsStdDev(sd, s) ==>
      r.0 == r.1 && (r.0 <==> |s| >= 2 && Sq(price - Mean(s)) > 4.0 * Variance(s))
  {
    if |s| < 2 then (false, false)
    else if sd < 0.0 then (ZScoreAnomaly(price, Mean(s), sd), BandAnomaly(price, Mean(s), sd))
    else
      ZScoreIffSquare(price, Mean(s), sd);
      BandIffSquare(price, Mean(s), sd);
      (ZScoreAnomaly(price, Mean(s), sd), BandAnomaly(price, Mean(s), sd))
  }

  /** |d| > 2·sd exactly when d² > 4·sd², for a non-negative sd. */
  lemma FarIffSquareFar(d: real, sd: real)
    requires sd >= 0.0
    ensures Abs(d) > 2.0 * sd <==> Sq(d) > 4.0 * Sq(sd)
  {
    SqOfAbs(d);
    SqDouble(sd);
    if Abs(d) > 2.0 * sd {
      SqMonotone(2.0 * sd, Abs(d));
    } else if Abs(d) < 2.0 * sd {
      SqMonotone(Abs(d), 2.0 * sd);
    }
  }

  /** |price - mean| / sd > 2 exactly when |price - mean| > 2·sd. */
  lemma ZScoreIffFar(price: real, mean: real, sd: real)
    requires sd >= 0.0
    ensures ZScoreAnomaly(price, mean, sd) <==> Abs(price - mean) > 2.0 * sd
  {
  }

  /** The band test is the squared comparison (price − mean)² > 4·sd². */
  lemma BandIffSquare(price: real, mean: real, sd: real)
    requires sd >= 0.0
    ensures BandAnomaly(price, mean, sd) <==> Sq(price - mean) > 4.0 * Sq(sd)
  {
    FarIffSquareFar(price - mean, sd);
  }

  /** The z-score test is the same squared comparison. */
  lemma ZScoreIffSquare(price: real, mean: real, sd: real)
    requires sd >= 0.0
    ensures ZScoreAnomaly(price, mean, sd) <==> Sq(price - mean) > 4.0 * Sq(sd)
  {
    ZScoreIffFar(price, mean, sd);
    FarIffSquareFar(price - mean, sd);
  }

  /** Both tests use the multiplier 2 and the same statistics, so for any
      standard deviation they flag the same prices. */
  lemma FlagsAgree(s: seq<real>, price: real, sd: real)
    requires IsStdDev(sd, s)
    ensures Anomalies(s, price, sd).0 == Anomalies(s, price, sd).1
  {
    ZScoreIffSquare(price, Mean(s), sd);
    BandIffSquare(price, Mean(s), sd);
  }

  /** In a window of equal prices the spread is zero, and every other price
      is flagged by both tests (the z-score by the division-by-zero outcome
      described at ZScoreAnomaly). */
  lemma FlatWindowFlagsAnyChange(s: seq<real>, price: real, sd: real)
    requires |s| >= 2 && Constant(s)
    requires IsStdDev(sd, s)
    ensures sd == 0.0
    ensures Anomalies(s, price, sd) == (price != s[0], price != s[0])
  {
    VarianceZeroIffConstant(s);
    if sd != 0.0 {
      SqPositive(sd);
    }
    SumOfConstant(s, s[0]);
    MulDiv(s[0], |s| as real);
  }

  /** The threshold is strict: a price exactly two standard deviations from
      the mean is flagged by neither test. */
  lemma BoundaryNotFlagged(s: seq<real>, price: real, sd: real)
    requires IsStdDev(sd, s)
    requires Abs(price - Mean(s)) == 2.0 * sd
    ensures Anomalies(s, price, sd) == (false, false)
  {
    ZScoreIffFar(price, Mean(s), sd);
  }

  /** The window [100, 100, 100, 100, 200] has mean 120 and standard
      deviation 40; the price 200 is at z-score 2 and not flagged, the price
      201 is flagged by both tests. */
  lemma WorkedExample()
    ensures var s := [100.0, 100.0, 100.0, 100.0, 200.0];
      && Mean(s) == 120.0
      && Variance(s) == 1600.0
      && IsStdDev(40.0, s)
      && Anomalies(s, 200.0, 40.0) == (false, false)
      && Anomalies(s, 201.0, 40.0) == (true, true)
  {
    var s1 := [100.0];
    var s2 := s1 + [100.0];
    var s3 := s2 + [100.0];
    var s4 := s3 + [100.0];
    var s := s4 + [200.0];
    assert s1[..0] == [] && s2[..1] == s1 && s3[..2] == s2 && s4[..3] == s3 && s[..4] == s4;
    assert Sum(s1) == 100.0;
    assert Sum(s2) == 200.0;
    assert Sum(s3) == 300.0;
    assert Sum(s4) == 400.0;
    assert Sum(s) == 600.0;
    assert SumSquaredDeviations(s1, 120.0) == 400.0;
    assert SumSquaredDeviations(s2, 120.0) == 800.0;
    assert SumSquaredDeviations(s3, 120.0) == 1200.0;
    assert SumSquaredDeviations(s4, 120.0) == 1600.0;
    assert Mean(s) == 600.0 / 5.0 == 120.0;
    assert SumSquaredDeviations(s, 120.0) == 8000.0;
    assert Variance(s) == 8000.0 / 5.0 == 1600.0;
    assert Abs((201.0 - 120.0) / 40.0) > 2.0;
    assert s == [100.0, 100.0, 100.0, 100.0, 200.0];
  }

  // ---------------------------------------------------------------------
  // A single spike after a flat run
  // ---------------------------------------------------------------------

  /** `n` copies of `c`. */
  function Repeat(c: real, n: nat): (r: seq<real>)
    ensures |r| == n && forall i :: 0 <= i < n ==> r[i] == c
  {
    if n == 0 then [] else Repeat(c, n - 1) + [c]
  }

  lemma {:induction false} SquaredDeviationsOfConstant(s: seq<real>, c: real, m: real)
    requires forall i :: 0 <= i < |s| ==> s[i] == c
    ensures SumSquaredDeviations(s, m) == (|s| as real) * Sq(c - m)
  {
    if s != [] {
      SquaredDeviationsOfConstant(s[..|s| - 1], c, m);
    }
  }

  lemma MulDiv(a: real, k: real)
    requires k != 0.0
    ensures (a * k) / k == a
  {
  }

  lemma ScaledAbove(a: real, k: real)
    requires a > 0.0
    ensures a * k > 4.0 * a <==> k > 4.0
  {
    if k > 4.0 {
      ProductPositive(a, k - 4.0);
    } else {
      ProductNonNegative(a, 4.0 - k);
    }
  }

  lemma MeanAlgebra(k: real, c: real, x: real, q: real)
    requires k >= 0.0 && q == (x - c) / (k + 1.0)
    ensures k * c + x == (c + q) * (k + 1.0)
  {
    assert x - c == q * (k + 1.0);
  }

  lemma VarianceAlgebra(k: real, c: real, x: real, q: real)
    requires k >= 0.0 && q == (x - c) / (k + 1.0)
    ensures k * Sq(c - (c + q)) + Sq(x - (c + q)) == (k * Sq(q)) * (k + 1.0)
  {
    assert x - c == q * (k + 1.0);
    assert x - (c + q) == k * q;
    assert Sq(c - (c + q)) == Sq(q);
    assert Sq(k * q) == (k * k) * Sq(q);
  }

  lemma SqScale(k: real, q: real)
    ensures Sq(k * q) == (k * Sq(q)) * k
  {
  }

  /** (k·q)² > 4·(k·q²) exactly when q ≠ 0 and k > 4, for k > 0. */
  lemma SpikeThreshold(k: real, q: real)
    requires k > 0.0
    ensures Sq(k * q) > 4.0 * (k * Sq(q)) <==> q != 0.0 && k > 4.0
  {
    SqScale(k, q);
    if q != 0.0 {
      SqPositive(q);
      var p := Sq(q);
      ProductPositive(k, p);
      ScaledAbove(k * p, k);
    } else {
      assert Sq(q) == 0.0;
      assert Sq(k * q) == 0.0;
    }
  }

  lemma SumsOfSnoc(t: seq<real>, x: real, m: real)
    ensures Sum(t + [x]) == Sum(t) + x
    ensures SumSquaredDeviations(t + [x], m) == SumSquaredDeviations(t, m) + Sq(x - m)
  {
    assert (t + [x])[..|t|] == t;
  }

  lemma SpikeSum(c: real, n: nat, x: real)
    ensures Sum(Repeat(c, n) + [x]) == (n as real) * c + x
  {
    SumsOfSnoc(Repeat(c, n), x, 0.0);
    SumOfConstant(Repeat(c, n), c);
  }

  lemma SpikeSquaredDeviations(c: real, n: nat, x: real, m: real)
    ensures SumSquaredDeviations(Repeat(c, n) + [x], m) == (n as real) * Sq(c - m) + Sq(x - m)
  {
    SumsOfSnoc(Repeat(c, n), x, m);
    SquaredDeviationsOfConstant(Repeat(c, n), c, m);
  }

  lemma SpikeMean(c: real, n: nat, x: real, q: real)
    requires q == (x - c) / ((n as real) + 1.0)
    ensures Mean(Repeat(c, n) + [x]) == c + q
  {
    var s := Repeat(c, n) + [x];
    var k := n as real;
    assert Sum(s) == k * c + x by {
      SpikeSum(c, n, x);
    }
    assert k * c + x == (c + q) * (k + 1.0) by {
      MeanAlgebra(k, c, x, q);
    }
    MeanFromParts(s, c + q, k + 1.0);
  }

  /** The mean of a non-empty window, given its sum as a multiple of its
      length. */
  lemma MeanFromParts(s: seq<real>, v: real, len: real)
    requires s != [] && len == |s| as real && Sum(s) == v * len
    ensures Mean(s) == v
  {
    MulDiv(v, len);
  }

  /** Mean and variance of `n` copies of `c` followed by `x`: with
      q = (x − c)/(n + 1), the mean is c + q and the variance n·q². */
  lemma SpikeStatistics(c: real, n: nat, x: real, q: real)
    requires n >= 1 && q == (x - c) / ((n as real) + 1.0)
    ensures Mean(Repeat(c, n) + [x]) == c + q
    ensures Variance(Repeat(c, n) + [x]) == (n as real) * Sq(q)
  {
    var s := Repeat(c, n) + [x];
    var k := n as real;
    var m := c + q;
    var ssd := k * Sq(c - m) + Sq(x - m);
    assert Mean(s) == m by {
      SpikeMean(c, n, x, q);
    }
    assert SumSquaredDeviations(s, m) == ssd by {
      SpikeSquaredDeviations(c, n, x, m);
    }
    assert ssd == (k * Sq(q)) * (k + 1.0) by {
      VarianceAlgebra(k, c, x, q);
    }
    VarianceFromParts(s, m, k * Sq(q));
  }

  /** The variance of a window of two or more prices, given its mean and
      its sum of squared deviations as a multiple of its length. */
  lemma VarianceFromParts(s: seq<real>, m: real, v: real)
    requires |s| >= 2 && Mean(s) == m
    requires SumSquaredDeviations(s, m) == v * (|s| as real)
    ensures Variance(s) == v
  {
    MulDiv(v, |s| as real);
  }

  /** After `n` equal prices `c`, a new price `x` that joins the window is
      flagged, by both tests, exactly when it differs from `c` and at least
      five equal prices came before it, however large the jump. With four,
      the spike sits exactly at z-score 2. */
  lemma SpikeAfterFlatRun(c: real, n: nat, x: real, sd: real)
    requires n >= 1
    requires IsStdDev(sd, Repeat(c, n) + [x])
    ensures var flagged := x != c && n > 4;
      Anomalies(Repeat(c, n) + [x], x, sd) == (flagged, flagged)
  {
    var s := Repeat(c, n) + [x];
    var k := n as real;
    var q := (x - c) / (k + 1.0);
    SpikeStatistics(c, n, x, q);
    ZScoreIffSquare(x, Mean(s), sd);
    BandIffSquare(x, Mean(s), sd);
    assert x - c == q * (k + 1.0);
    assert x - Mean(s) == k * q;
    SpikeThreshold(k, q);
  }

  // ---------------------------------------------------------------------
  // The window object
  // ---------------------------------------------------------------------

  class RollingWindow {
    var Prices: seq<real>
    var WindowSize: int

    /** The capacity is positive and is never exceeded. */
    ghost predicate Valid()
      reads this
    {
      1 <= WindowSize && |Prices| <= WindowSize
    }

    /** NewRollingWindow(size): an empty window of the given capacity. */
    constructor (size: int)
      ensures Prices == [] && WindowSize == size
      ensures size >= 1 ==> Valid()
    {
      Prices := [];
      WindowSize := size;
    }

    /** Drops the oldest price when the window is full, then appends. */
    method AddPrice(price: real)
      requires CanSlide(Prices, WindowSize)
      modifies this
      ensures WindowSize == old(WindowSize)
      ensures Prices == Slide(old(Prices), WindowSize, price)
      ensures old(Valid()) ==> Valid()
    {
      if |Prices| >= WindowSize {
        Prices := Prices[1..];
      }
      Prices := Prices + [price];
    }

    method GetMean() returns (mean: real)
      ensures mean == Mean(Prices)
    {
      if |Prices| == 0 {
        return 0.0;
      }
      var sum := 0.0;
      var i := 0;
      while i < |Prices|
        invariant 0 <= i <= |Prices|
        invariant sum == Sum(Prices[..i])
      {
        assert Prices[..i + 1][..i] == Prices[..i];
        sum := sum + Prices[i];
        i := i + 1;
      }
      assert Prices[..i] == Prices;
      mean := sum / (|Prices| as real);
    }

    /** The loop of GetStandardDeviation: the population variance, whose
        square root the source returns. */
    method GetVariance() returns (variance: real)
      ensures variance == Variance(Prices)
      ensures variance >= 0.0
    {
      if |Prices| < 2 {
        return 0.0;
      }
      var mean := GetMean();
      var acc := 0.0;
      var i := 0;
      while i < |Prices|
        invariant 0 <= i <= |Prices|
        invariant acc == SumSquaredDeviations(Prices[..i], mean)
      {
        assert Prices[..i + 1][..i] == Prices[..i];
        acc := acc + Sq(Prices[i] - mean);
        i := i + 1;
      }
      assert Prices[..i] == Prices;
      variance := acc / (|Prices| as real);
      VarianceNonNegative(Prices);
    }

    /** The z-score and Bollinger-band verdicts for `currentPrice` against
        the window's own mean and standard deviation. The comparisons are
        made on squares, so no square root is needed. */
    method CheckAnomalies(currentPrice: real) returns (isZAnomaly: bool, isBollingerAnomaly: bool)
      ensures |Prices| < 2 ==> !isZAnomaly && !isBollingerAnomaly
      ensures |Prices| >= 2 ==>
        (isZAnomaly <==> Sq(currentPrice - Mean(Prices)) > 4.0 * Variance(Prices))
      ensures isZAnomaly == isBollingerAnomaly
      ensures forall sd :: IsStdDev(sd, Prices) ==>
        (isZAnomaly, isBollingerAnomaly) == Anomalies(Prices, currentPrice, sd)
    {
      if |Prices| < 2 {
        return false, false;
      }
      var mean := GetMean();
      var variance := GetVariance();
      // |currentPrice - mean| / sd > 2, with sd * sd == variance
      isZAnomaly := Sq(currentPrice - mean) > 4.0 * variance;
      // above the upper band or below the lower band
      isBollingerAnomaly :=
        (currentPrice > mean && Sq(currentPrice - mean) > 4.0 * variance) ||
        (currentPrice < mean && Sq(mean - currentPrice) > 4.0 * variance);
      forall sd | IsStdDev(sd, Prices)
        ensures (isZAnomaly, isBollingerAnomaly) == Anomalies(Prices, currentPrice, sd)
      {
        ZScoreIffSquare(currentPrice, mean, sd);
        BandIffSquare(currentPrice, mean, sd);
        assert Sq(mean - currentPrice) == Sq(currentPrice - mean);
      }
    }
  }
}
