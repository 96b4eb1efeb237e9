/** Reference definitions of the statistics the detector keeps incrementally:
    the arithmetic mean, the sum of squared deviations from the mean, the
    variances derived from it, the exponentially weighted moving average used
    as the trend, and square roots. The lemmas here are the laws that make the
    detector's O(1) updates (Welford's method) agree with these definitions. */
module Statistics {

  // ---------------------------------------------------------------------------
  // Sums, mean and squared deviations
  // ---------------------------------------------------------------------------

  /** The sum of the values. It peels off the last value, the one a push adds. */
  function Sum(xs: seq<real>): real
  {
    if xs == [] then 0.0 else Sum(xs[..|xs| - 1]) + xs[|xs| - 1]
  }

  /** The sum of the squares of the values. */
  function SumOfSquares(xs: seq<real>): real
  {
    if xs == [] then 0.0 else SumOfSquares(xs[..|xs| - 1]) + xs[|xs| - 1] * xs[|xs| - 1]
  }

  /** The arithmetic mean of a non-empty stream. */
  function Average(xs: seq<real>): real
    requires |xs| > 0
  {
    Sum(xs) / |xs| as real
  }

  /** The sum of the squared distances of the values from the point `c`. */
  function SquaredDistances(xs: seq<real>, c: real): real
  {
    if xs == [] then 0.0
    else SquaredDistances(xs[..|xs| - 1], c) + (xs[|xs| - 1] - c) * (xs[|xs| - 1] - c)
  }

  /** The sum of squared deviations of the values from their own mean
      (Welford's `S`); 0 for the empty stream. */
  function SumSqDev(xs: seq<real>): real
  {
    if xs == [] then 0.0 else SquaredDistances(xs, Average(xs))
  }

  /** The Bessel-corrected (sample) variance. */
  function SampleVariance(xs: seq<real>): real
    requires |xs| >= 2
  {
    SumSqDev(xs) / (|xs| - 1) as real
  }

  /** The population variance: squared deviations divided by the count. */
  function PopulationVariance(xs: seq<real>): real
    requires |xs| >= 1
  {
    SumSqDev(xs) / |xs| as real
  }

  lemma SumAppend(xs: seq<real>, v: real)
    ensures Sum(xs + [v]) == Sum(xs) + v
  {
    assert (xs + [v])[..|xs|] == xs;
  }

  lemma SumOfSquaresAppend(xs: seq<real>, v: real)
    ensures SumOfSquares(xs + [v]) == SumOfSquares(xs) + v * v
  {
    assert (xs + [v])[..|xs|] == xs;
  }

  lemma SquaredDistancesAppend(xs: seq<real>, c: real, v: real)
    ensures SquaredDistances(xs + [v], c) == SquaredDistances(xs, c) + (v - c) * (v - c)
  {
    assert (xs + [v])[..|xs|] == xs;
  }

  /** Expanding the square: sum (x - c)^2 = sum x^2 - 2 c sum x + n c^2. */
  lemma {:induction false} SquaredDistancesExpand(xs: seq<real>, c: real)
    ensures SquaredDistances(xs, c)
         == SumOfSquares(xs) - 2.0 * c * Sum(xs) + |xs| as real * c * c
  {
    if xs != [] {
      SquaredDistancesExpand(xs[..|xs| - 1], c);
      SquaredDistancesExpandLast(xs, c);
    }
  }

  /** The expansion carries over from all but the last value to all. */
  lemma SquaredDistancesExpandLast(xs: seq<real>, c: real)
    requires xs != []
    requires var init := xs[..|xs| - 1];
      SquaredDistances(init, c) == SumOfSquares(init) - 2.0 * c * Sum(init) + |init| as real * c * c
    ensures SquaredDistances(xs, c)
         == SumOfSquares(xs) - 2.0 * c * Sum(xs) + |xs| as real * c * c
  {
    var init, x := xs[..|xs| - 1], xs[|xs| - 1];
    assert xs == init + [x];
    SquaredDistancesAppend(init, c, x);
    SumOfSquaresAppend(init, x);
    SumAppend(init, x);
    ExpandStep(SquaredDistances(init, c), SumOfSquares(init), Sum(init), |init| as real, x, c,
               SquaredDistances(xs, c), SumOfSquares(xs), Sum(xs), |xs| as real);
  }

  /** One more value keeps the expanded square in step: adding (x - c)^2 on
      the left matches adding x^2, x and one more c^2 on the right. */
  lemma ExpandStep(d: real, squares: real, sum: real, n: real, x: real, c: real,
                   d': real, squares': real, sum': real, n': real)
    requires d == squares - 2.0 * c * sum + n * c * c
    requires d' == d + (x - c) * (x - c) && squares' == squares + x * x
    requires sum' == sum + x && n' == n + 1.0
    ensures d' == squares' - 2.0 * c * sum' + n' * c * c
  {
    assert 2.0 * c * (sum + x) == 2.0 * c * sum + 2.0 * c * x;
    assert (n + 1.0) * c * c == n * c * c + c * c;
    assert (x - c) * (x - c) == x * x - 2.0 * c * x + c * c;
  }

  /** With the mean `m` of n values and their sum `n m`, the squared
      deviations are sum x^2 - n m^2. */
  lemma SumSqDevByMoments(xs: seq<real>)
    requires |xs| > 0
    ensures SumSqDev(xs) == SumOfSquares(xs) - |xs| as real * Average(xs) * Average(xs)
  {
    SumSqDevFromAverage(xs);
    SumIsCountTimesAverage(xs);
    SquaredDistancesAtMean(xs, Average(xs));
  }

  /** A non-empty stream's squared deviations are its squared distances
      from its average. */
  lemma SumSqDevFromAverage(xs: seq<real>)
    requires |xs| > 0
    ensures SumSqDev(xs) == SquaredDistances(xs, Average(xs))
  {
  }

  /** The squared distances from a point `m` with n m = sum x are
      sum x^2 - n m^2. */
  lemma SquaredDistancesAtMean(xs: seq<real>, m: real)
    requires Sum(xs) == |xs| as real * m
    ensures SquaredDistances(xs, m) == SumOfSquares(xs) - |xs| as real * m * m
  {
    SquaredDistancesExpand(xs, m);
    MomentsStep(SquaredDistances(xs, m), SumOfSquares(xs), Sum(xs), |xs| as real, m);
  }

  /** The sum of a non-empty stream is its length times its mean. */
  lemma SumIsCountTimesAverage(xs: seq<real>)
    requires |xs| > 0
    ensures Sum(xs) == |xs| as real * Average(xs)
  {
  }

  /** With `sum` = n m, the expanded square sum x^2 - 2 m sum + n m^2
      collapses to sum x^2 - n m^2. */
  lemma MomentsStep(d: real, squares: real, sum: real, n: real, m: real)
    requires sum == n * m
    requires d == squares - 2.0 * m * sum + n * m * m
    ensures d == squares - n * m * m
  {
    assert 2.0 * m * sum == 2.0 * n * m * m;
  }

  lemma SquaredDistancesNonNegative(xs: seq<real>, c: real)
    ensures SquaredDistances(xs, c) >= 0.0
  {
    if xs != [] {
      var d := xs[|xs| - 1] - c;
      assert d * d >= 0.0;
    }
  }

  // ---------------------------------------------------------------------------
  // Welford's incremental update
  // ---------------------------------------------------------------------------

  /** Welford's mean update: adding `v` to n values moves the mean by
      (v - mean) / (n + 1), which is the arithmetic mean of all n + 1 values. */
  lemma WelfordMean(xs: seq<real>, v: real)
    requires |xs| > 0
    ensures Average(xs + [v]) == Average(xs) + (v - Average(xs)) / (|xs| + 1) as real
  {
    SumAppend(xs, v);
    assert |xs + [v]| == |xs| + 1;
    MeanStep(Sum(xs), |xs| as real, v, Average(xs), Average(xs + [v]));
  }

  /** The mean update over plain reals: the mean m of n values summing to
      `sum`, moved by (v - m) / (n + 1), is the mean of those values and v. */
  lemma MeanStep(sum: real, n: real, v: real, m: real, m': real)
    requires n > 0.0 && m == sum / n && m' == (sum + v) / (n + 1.0)
    ensures m' == m + (v - m) / (n + 1.0)
  {
    var k := n + 1.0;
    assert sum == n * m;
    calc {
      m';
      (n * m + v) / k;
      (k * m + (v - m)) / k;
      m + (v - m) / k;
    }
  }

  /** Welford's update of `S`: adding `v` adds (v - old mean) * (v - new mean)
      to the sum of squared deviations from the mean. */
  lemma WelfordSumSqDev(xs: seq<real>, v: real)
    requires |xs| > 0
    ensures SumSqDev(xs + [v])
         == SumSqDev(xs) + (v - Average(xs)) * (v - Average(xs + [v]))
  {
    WelfordMean(xs, v);
    SumSqDevByMoments(xs);
    SumSqDevByMoments(xs + [v]);
    SumOfSquaresAppend(xs, v);
    assert |xs + [v]| == |xs| + 1;
    SumSqStep(|xs| as real, v, Average(xs), Average(xs + [v]),
              SumOfSquares(xs), SumSqDev(xs), SumSqDev(xs + [v]));
  }

  /** The update of `S` over plain reals, from the moments form
      S = sum x^2 - n m^2 before and after adding v. */
  lemma SumSqStep(n: real, v: real, m: real, m': real, squares: real, s: real, s': real)
    requires n > 0.0 && m' == m + (v - m) / (n + 1.0)
    requires s == squares - n * m * m
    requires s' == squares + v * v - (n + 1.0) * m' * m'
    ensures s' == s + (v - m) * (v - m')
  {
    // (n + 1) m' = n m + v, so v = (n + 1) m' - n m
    assert (n + 1.0) * m' == n * m + v by {
      assert (n + 1.0) * ((v - m) / (n + 1.0)) == v - m;
    }
    assert (v - m) * (v - m') == v * v - v * m' - m * v + m * m';
    assert v * m' == (n + 1.0) * m' * m' - n * m * m';
    assert m * v == (n + 1.0) * m * m' - n * m * m;
  }

  /** The sum of squared deviations is never negative. */
  lemma SumSqDevNonNegative(xs: seq<real>)
    ensures SumSqDev(xs) >= 0.0
  {
    if xs != [] {
      SquaredDistancesNonNegative(xs, Average(xs));
    }
  }

  /** A single value has no spread. */
  lemma SumSqDevSingleton(x: real)
    ensures Average([x]) == x && SumSqDev([x]) == 0.0
  {
    assert [x][..0] == [];
    assert Sum([x]) == x;
    assert Average([x]) == x;
    assert SquaredDistances([x], x) == SquaredDistances([], x) + (x - x) * (x - x);
  }

  lemma {:induction false} SquaredDistancesZero(xs: seq<real>, c: real)
    ensures SquaredDistances(xs, c) == 0.0 <==> forall i :: 0 <= i < |xs| ==> xs[i] == c
  {
    if xs != [] {
      var init, x := xs[..|xs| - 1], xs[|xs| - 1];
      SquaredDistancesZero(init, c);
      SquaredDistancesNonNegative(init, c);
      assert (x - c) * (x - c) >= 0.0;
      assert (x - c) * (x - c) == 0.0 <==> x == c by {
        if x != c {
          var e := if x < c then c - x else x - c;
          assert e * e == (x - c) * (x - c);
          SquareMonotone(0.0, e);
        }
      }
      if forall i :: 0 <= i < |xs| ==> xs[i] == c {
        assert forall i :: 0 <= i < |init| ==> init[i] == c by {
          forall i | 0 <= i < |init| ensures init[i] == c { assert init[i] == xs[i]; }
        }
      }
      if SquaredDistances(xs, c) == 0.0 {
        forall i | 0 <= i < |xs| ensures xs[i] == c {
          if i < |init| { assert xs[i] == init[i]; }
        }
      }
    }
  }

  lemma {:induction false} SumOfConstant(xs: seq<real>, v: real)
    requires forall i :: 0 <= i < |xs| ==> xs[i] == v
    ensures Sum(xs) == |xs| as real * v
  {
    if xs != [] {
      var init := xs[..|xs| - 1];
      assert forall i :: 0 <= i < |init| ==> init[i] == xs[i];
      SumOfConstant(init, v);
    }
  }

  /** The squared deviations vanish exactly when every value is the same; the
      mean of such a stream is that value. */
  lemma SumSqDevZeroIffConstant(xs: seq<real>)
    requires |xs| > 0
    ensures SumSqDev(xs) == 0.0 <==> forall i, j :: 0 <= i < |xs| && 0 <= j < |xs| ==> xs[i] == xs[j]
    ensures (forall i :: 0 <= i < |xs| ==> xs[i] == xs[0]) ==> Average(xs) == xs[0]
  {
    var m := Average(xs);
    SquaredDistancesZero(xs, m);
    if forall i :: 0 <= i < |xs| ==> xs[i] == xs[0] {
      SumOfConstant(xs, xs[0]);
      assert m == xs[0];
    }
  }

  // ---------------------------------------------------------------------------
  // Trend: exponentially weighted moving average
  // ---------------------------------------------------------------------------

  /** The trend's smoothing factor, fixed at 0.1. */
  const TrendingFactor: real := 0.1

  function Min(a: real, b: real): real { if a <= b then a else b }
  function Max(a: real, b: real): real { if a <= b then b else a }

  /** One smoothing step: t[n] = t[n-1] * (1 - factor) + factor * x[n]. The
      new trend is a convex combination, so it lies between the previous
      trend and the new value. */
  function TrendStep(last: real, value: real): (t: real)
    ensures Min(last, value) <= t <= Max(last, value)
    ensures t - value == (1.0 - TrendingFactor) * (last - value)
  {
    last * (1.0 - TrendingFactor) + TrendingFactor * value
  }

  /** The trend of a non-empty stream: the first value, then one smoothing
      step per later value. */
  function Ewma(xs: seq<real>): real
    requires |xs| > 0
  {
    if |xs| == 1 then xs[0] else TrendStep(Ewma(xs[..|xs| - 1]), xs[|xs| - 1])
  }

  /** The trend never leaves the range of the values it has seen. */
  lemma {:induction false} EwmaWithinBounds(xs: seq<real>, lo: real, hi: real)
    requires |xs| > 0
    requires forall i :: 0 <= i < |xs| ==> lo <= xs[i] <= hi
    ensures lo <= Ewma(xs) <= hi
  {
    if |xs| > 1 {
      var init := xs[..|xs| - 1];
      assert forall i :: 0 <= i < |init| ==> init[i] == xs[i];
      EwmaWithinBounds(init, lo, hi);
    }
  }

  // ---------------------------------------------------------------------------
  // Square roots
  // ---------------------------------------------------------------------------

  /** `sqrt` gives the non-negative square root of every non-negative real. */
  ghost predicate IsSqrt(sqrt: real -> real)
  {
    forall x :: 0.0 <= x ==> IsRootOf(sqrt(x), x)
  }

  /** `r` is the non-negative square root of `x`. */
  ghost predicate IsRootOf(r: real, x: real)
  {
    0.0 <= r && r * r == x
  }

  /** Squaring is strictly increasing on the non-negative reals. */
  lemma SquareMonotone(a: real, b: real)
    requires 0.0 <= a < b
    ensures a * a < b * b
  {
    assert a * (b - a) >= 0.0;
    assert b * (b - a) > 0.0;
  }

  /** A square root is compared with a non-negative bound by comparing squares. */
  lemma SqrtCompare(sqrt: real -> real, x: real, c: real)
    requires IsSqrt(sqrt) && 0.0 <= x && 0.0 <= c
    ensures c * c < x <==> c < sqrt(x)
    ensures x < c * c <==> sqrt(x) < c
    ensures sqrt(x) == 0.0 <==> x == 0.0
  {
    var s := sqrt(x);
    assert 0.0 <= s && s * s == x;
    if c < s {
      SquareMonotone(c, s);
    } else if s < c {
      SquareMonotone(s, c);
    }
    if 0.0 < s {
      SquareMonotone(0.0, s);
    }
  }
}
