/** The streaming anomaly detector: one object holding a counter, Welford's
    running mean and sum of squared deviations, and an exponentially weighted
    trend, all updated in place by each push. The detector judges each new
    value against the mean and standard deviation of the values before it. */
module Anomaly {
  import opened Statistics

  datatype Option<T> = None | Some(value: T)

  /** The options object given to the constructor; an absent field is None. */
  datatype Options = Options(confidenceInterval: Option<real>, returnType: Option<int>)

  /** What a push returns. Return type 1 gives `Bool`; any other return type
      gives the anomaly ratio, or `NoBoundary` where the boundary
      (confidence interval times standard deviation) is 0 and the division
      would yield Infinity or NaN. */
  datatype Verdict = Bool(anomalous: bool) | Ratio(ratio: real) | NoBoundary

  /** What pushMeta returns: the verdict with the statistics after the push. */
  datatype Meta = Meta(anomaly: Verdict, mean: real, stddev: real, trend: real)

  function Abs(x: real): (r: real)
    ensures 0.0 <= r && (r == x || r == -x)
  {
    if x < 0.0 then -x else x
  }

  /** The confidence interval: the configured one, unless it is absent or 0
      (falsy), in which case 3 standard deviations. It is never 0. */
  function ConfidenceIntervalOf(opts: Options): (ci: real)
    ensures ci != 0.0
    ensures opts.confidenceInterval.Some? && opts.confidenceInterval.value != 0.0
            ==> ci == opts.confidenceInterval.value
    ensures opts.confidenceInterval.None? || opts.confidenceInterval.value == 0.0 ==> ci == 3.0
  {
    match opts.confidenceInterval
    case Some(c) => if c != 0.0 then c else 3.0
    case None => 3.0
  }

  /** The return type: the configured one, unless it is absent or 0 (falsy),
      in which case 1 (true / false). It is never 0. */
  function ReturnTypeOf(opts: Options): (rt: int)
    ensures rt != 0
    ensures opts.returnType.Some? && opts.returnType.value != 0 ==> rt == opts.returnType.value
    ensures opts.returnType.None? || opts.returnType.value == 0 ==> rt == 1
  {
    match opts.returnType
    case Some(t) => if t != 0 then t else 1
    case None => 1
  }

  /** The verdict on `value` given the mean and standard deviation it is
      judged against. The boolean verdict says whether the deviation exceeds
      the boundary; the ratio, multiplied by the boundary, gives back the
      deviation. */
  function Assess(confidenceInterval: real, returnType: int, value: real, mean: real, stddev: real)
    : (v: Verdict)
    ensures v.Bool? <==> returnType == 1
    ensures v.Bool? ==> (v.anomalous <==> Abs(value - mean) > confidenceInterval * stddev)
    ensures v.Ratio? ==> v.ratio * (confidenceInterval * stddev) == Abs(value - mean)
    ensures v.NoBoundary? <==> returnType != 1 && confidenceInterval * stddev == 0.0
  {
    var cisd := confidenceInterval * stddev;
    var preamble := Abs(value - mean);
    if returnType == 1 then Bool(preamble > cisd)
    else if cisd == 0.0 then NoBoundary
    else Ratio(preamble / cisd)
  }

  /** With a positive boundary the two return types agree: the ratio exceeds 1
      exactly when the boolean verdict reports an anomaly. */
  lemma RatioAboveOneIffAnomalous(confidenceInterval: real, returnType: int, value: real, mean: real, stddev: real)
    requires returnType != 1 && confidenceInterval * stddev > 0.0
    ensures Assess(confidenceInterval, returnType, value, mean, stddev).Ratio?
    ensures Assess(confidenceInterval, returnType, value, mean, stddev).ratio > 1.0
        <==> Assess(confidenceInterval, 1, value, mean, stddev).anomalous
  {
    var b := confidenceInterval * stddev;
    var r := Assess(confidenceInterval, returnType, value, mean, stddev).ratio;
    assert r * b == Abs(value - mean);
    assert Assess(confidenceInterval, 1, value, mean, stddev).anomalous <==> r * b > b;
    if r > 1.0 {
      assert r * b - b == (r - 1.0) * b;
      MulPositive(r - 1.0, b);
    } else {
      assert b - r * b == (1.0 - r) * b;
      if r < 1.0 { MulPositive(1.0 - r, b); }
    }
  }

  lemma MulPositive(a: real, b: real)
    requires 0.0 < a && 0.0 < b
    ensures 0.0 < a * b
  {
  }

  /** With a positive confidence interval the boolean verdict needs no square
      root: the value is anomalous exactly when its squared deviation exceeds
      the squared confidence interval times the variance. */
  lemma AnomalousIffSquaredDeviation(sqrt: real -> real, confidenceInterval: real, value: real, mean: real, variance: real)
    requires IsSqrt(sqrt) && confidenceInterval > 0.0 && variance >= 0.0
    ensures Assess(confidenceInterval, 1, value, mean, sqrt(variance)).anomalous
        <==> (value - mean) * (value - mean) > confidenceInterval * confidenceInterval * variance
  {
    var d := Abs(value - mean);
    var ci := confidenceInterval;
    var s := sqrt(variance);
    var c := d / ci;
    assert d == ci * c;
    assert d * d == (value - mean) * (value - mean);
    SqrtCompare(sqrt, variance, c);
    // d > ci * s  <==>  c > s  <==>  c * c > variance  <==>  d * d > ci * ci * variance
    assert d > ci * s <==> c > s by {
      assert d - ci * s == ci * (c - s);
      if c > s { assert ci * (c - s) > 0.0; }
      if c <= s { assert ci * (s - c) >= 0.0; }
    }
    assert d * d - ci * ci * variance == ci * ci * (c * c - variance);
    assert ci * ci > 0.0;
    if c * c > variance { assert ci * ci * (c * c - variance) > 0.0; }
    if c * c <= variance { assert ci * ci * (variance - c * c) >= 0.0; }
  }

  /** The detector's update, stated on the aggregates of a window: Welford's
      formulas yield the mean and squared deviations of the extended window. */
  lemma WelfordStep(window: seq<real>, value: real, mean: real, sumSq: real, n: nat, mean': real, sumSq': real)
    requires |window| >= 1 && n == |window| + 1
    requires mean == Average(window) && sumSq == SumSqDev(window)
    requires mean' == mean + (value - mean) / n as real
    requires sumSq' == sumSq + (value - mean) * (value - mean')
    ensures mean' == Average(window + [value])
    ensures sumSq' == SumSqDev(window + [value])
    ensures 0.0 <= sumSq'
  {
    WelfordMean(window, value);
    WelfordSumSqDev(window, value);
    SumSqDevNonNegative(window + [value]);
  }

  /** One detector instance. The fields mirror the source object's:
      `count` is m_n, `oldMean`/`newMean` are m_oldM/m_newM,
      `oldSumSq`/`newSumSq` are m_oldS/m_newS and `trendValue` is t_old
      (None for null). `sqrt` is the square root the host provides. */
  class AnomalyDetection {
    const confidenceInterval: real
    const returnType: int
    const sqrt: real -> real

    var count: nat
    var oldMean: real
    var newMean: real
    var oldSumSq: real
    var newSumSq: real
    var trendValue: Option<real>

    /** The values pushed since construction or the last clear. */
    ghost var window: seq<real>
    /** Every value the trend has absorbed; clear does not reset it. */
    ghost var trendInputs: seq<real>

    /** The object invariant: the statistics and the trend describe what was
        pushed. (That `sqrt` is a square root is required separately, by the
        constructor and by the members whose statements need it.) */
    ghost predicate Valid()
      reads this
    {
      StatsValid() && TrendValid()
    }

    /** The running aggregates describe the window: the mean is its average,
        `oldSumSq` its sum of squared deviations, and once two values are in,
        `newSumSq` too. Between a clear and the second push after it,
        `newSumSq` is left over from before the clear. */
    ghost predicate StatsValid()
      reads this`count, this`oldMean, this`newMean, this`oldSumSq, this`newSumSq, this`window
    {
      Summarizes(count)
    }

    /** The aggregates describe a window of `n` values. */
    ghost predicate Summarizes(n: nat)
      reads this`oldMean, this`newMean, this`oldSumSq, this`newSumSq, this`window
    {
      && |window| == n
      && oldMean == newMean
      && 0.0 <= oldSumSq && 0.0 <= newSumSq
      && (n >= 1 ==> newMean == Average(window) && oldSumSq == SumSqDev(window))
      && (n >= 2 ==> newSumSq == oldSumSq)
    }

    /** The trend is absent until the first value and is then the moving
        average of every value it absorbed. */
    ghost predicate TrendValid()
      reads this`trendValue, this`trendInputs
    {
      && (trendValue.None? <==> trendInputs == [])
      && (trendValue.Some? ==> trendValue.value == Ewma(trendInputs))
    }

    constructor (opts: Options, sqrt: real -> real)
      requires IsSqrt(sqrt)
      ensures Valid()
      ensures confidenceInterval == ConfidenceIntervalOf(opts)
      ensures returnType == ReturnTypeOf(opts)
      ensures this.sqrt == sqrt
      ensures count == 0 && window == []
      ensures oldMean == 0.0 && newMean == 0.0 && oldSumSq == 0.0 && newSumSq == 0.0
      ensures trendValue == None && trendInputs == []
    {
      confidenceInterval := ConfidenceIntervalOf(opts);
      returnType := ReturnTypeOf(opts);
      this.sqrt := sqrt;
      count := 0;
      oldMean, newMean := 0.0, 0.0;
      oldSumSq, newSumSq := 0.0, 0.0;
      trendValue := None;
      window, trendInputs := [], [];
    }

    /** Logically resets the stream: only the counter goes back to 0. */
    method Clear()
      requires Valid()
      modifies this`count, this`window
      ensures Valid()
      ensures count == 0 && window == []
      ensures oldMean == old(oldMean) && newMean == old(newMean)
      ensures oldSumSq == old(oldSumSq) && newSumSq == old(newSumSq)
      ensures trendValue == old(trendValue) && trendInputs == old(trendInputs)
    {
      count := 0;
      window := [];
    }

    /** The mean of the current window, 0 when it is empty. */
    function Mean(): real
      reads this
    {
      if count > 0 then newMean else 0.0
    }

    /** The sample variance of the current window, 0 when it holds fewer than
        two values, whatever the stale fields hold. */
    function Variance(): real
      reads this
    {
      if count > 1 then newSumSq / (count - 1) as real else 0.0
    }

    /** The square root of the variance. */
    function StandardDeviation(): real
      reads this
    {
      sqrt(Variance())
    }

    /** The mean reads 0 on an empty window and the window's average otherwise. */
    lemma MeanIsAverage()
      requires Valid()
      ensures count == 0 ==> Mean() == 0.0
      ensures count > 0 ==> Mean() == Average(window)
    {
    }

    /** The variance is never negative; it reads 0 below two values, however
        stale the sum of squares is, and the window's sample variance from
        two values on. */
    lemma VarianceIsSampleVariance()
      requires Valid()
      ensures 0.0 <= Variance()
      ensures count <= 1 ==> Variance() == 0.0
      ensures count >= 2 ==> Variance() == SampleVariance(window)
    {
      if count >= 2 {
        assert newSumSq / (count - 1) as real >= 0.0;
      }
    }

    /** From two values on, the variance is 0 exactly when every value in
        the window is the same. */
    lemma VarianceZeroIffConstant()
      requires Valid() && count >= 2
      ensures Variance() == 0.0 <==> forall i, j :: 0 <= i < |window| && 0 <= j < |window| ==> window[i] == window[j]
    {
      SumSqDevZeroIffConstant(window);
      assert Variance() == SumSqDev(window) / (count - 1) as real;
    }

    /** The standard deviation is the non-negative root of the variance, 0
        below two values. */
    lemma StandardDeviationIsRoot()
      requires Valid() && IsSqrt(sqrt)
      ensures 0.0 <= StandardDeviation()
      ensures StandardDeviation() * StandardDeviation() == Variance()
      ensures count <= 1 ==> StandardDeviation() == 0.0
    {
      VarianceIsSampleVariance();
      SqrtCompare(sqrt, Variance(), 0.0);
    }

    /** The verdict the next push gives on `value`, read from the state the
        push starts from: after the counter is incremented but before
        Welford's update, the mean is the previous one (left over from before
        a clear on the first push after it) and the variance is the previous
        sum of squared deviations over the previous count: the window's
        population variance from two values on, but on one value the stale
        `newSumSq`, which the first push after a clear does not reset. */
    function NextVerdict(value: real): (v: Verdict)
      reads this
      requires Valid()
      ensures IsSqrt(sqrt) && count == 0 ==> v == Assess(confidenceInterval, returnType, value, newMean, 0.0)
      ensures count == 1 ==> v == Assess(confidenceInterval, returnType, value, Average(window), sqrt(newSumSq))
      ensures count >= 2 ==>
        v == Assess(confidenceInterval, returnType, value, Average(window), sqrt(PopulationVariance(window)))
    {
      var variance := if count == 0 then 0.0 else newSumSq / count as real;
      assert IsSqrt(sqrt) && count == 0 ==> sqrt(variance) == 0.0 by {
        if IsSqrt(sqrt) && count == 0 { SqrtCompare(sqrt, 0.0, 0.0); }
      }
      Assess(confidenceInterval, returnType, value, newMean, sqrt(variance))
    }

    /** The state change of one push of `value`: the value joins the window
        and the trend's inputs. With Valid() this fixes every field: the means
        and `oldSumSq` describe the longer window, and `newSumSq` follows them
        from the second value on but is left alone by the first. */
    twostate predicate Pushed(value: real)
      reads this
    {
      && count == old(count) + 1
      && window == old(window) + [value]
      && (old(count) == 0 ==>
            oldMean == value && newMean == value && oldSumSq == 0.0 && newSumSq == old(newSumSq))
      && trendInputs == old(trendInputs) + [value]
      && trendValue.Some?
    }

    /** Absorbs `value` into the statistics and the trend and judges it
        against the statistics of the values before it. */
    method Push(value: real) returns (verdict: Verdict)
      requires Valid()
      modifies this`count, this`oldMean, this`newMean, this`oldSumSq, this`newSumSq,
               this`trendValue, this`window, this`trendInputs
      ensures Valid() && Pushed(value)
      ensures verdict == old(NextVerdict(value))
    {
      ghost var before := window;
      ghost var priorVariance := if count == 0 then 0.0 else newSumSq / count as real;
      count := count + 1;

      var mean := Mean();
      var standardDeviation := StandardDeviation();
      assert Variance() == priorVariance;

      UpdateMoments(value);
      var _ := Trend(value);

      verdict := Assess(confidenceInterval, returnType, value, mean, standardDeviation);
    }

    /** Welford's update of the mean and the sum of squared deviations for
        `value`, run once the counter already counts it. The first value after
        construction or a clear seeds the mean and `oldSumSq` only. */
    method UpdateMoments(value: real)
      requires count >= 1 && Summarizes(count - 1)
      modifies this`oldMean, this`newMean, this`oldSumSq, this`newSumSq, this`window
      ensures StatsValid()
      ensures window == old(window) + [value]
      ensures count == 1 ==> oldMean == value && newMean == value && oldSumSq == 0.0 && newSumSq == old(newSumSq)
    {
      ghost var before := window;
      if count == 1 {
        oldMean := value;
        newMean := value;
        oldSumSq := 0.0;
        assert before + [value] == [value];
        SumSqDevSingleton(value);
      } else {
        var mean' := oldMean + (value - oldMean) / count as real;
        var sumSq' := oldSumSq + (value - oldMean) * (value - mean');
        WelfordStep(before, value, oldMean, oldSumSq, count, mean', sumSq');
        newMean, newSumSq := mean', sumSq';
        oldMean, oldSumSq := newMean, newSumSq;
      }
      window := before + [value];
    }

    /** What pushMeta reads once at least one value is in: the window's
        average, a standard deviation whose square is the window's sample
        variance (0 on one value), and the trend over all its inputs. */
    lemma Readings()
      requires Valid() && IsSqrt(sqrt) && count >= 1
      ensures Mean() == Average(window)
      ensures IsRootOf(StandardDeviation(), if count >= 2 then SampleVariance(window) else 0.0)
    {
      MeanIsAverage();
      VarianceIsSampleVariance();
      StandardDeviationIsRoot();
    }

    /** Pushes `value` and reports the verdict with the mean, standard
        deviation and trend after the push. */
    method PushMeta(value: real) returns (meta: Meta)
      requires Valid() && IsSqrt(sqrt)
      modifies this`count, this`oldMean, this`newMean, this`oldSumSq, this`newSumSq,
               this`trendValue, this`window, this`trendInputs
      ensures Valid() && Pushed(value)
      ensures meta.anomaly == old(NextVerdict(value))
      ensures meta.mean == Average(window)
      ensures meta.stddev == StandardDeviation()
      ensures IsRootOf(meta.stddev, if count >= 2 then SampleVariance(window) else 0.0)
      ensures meta.trend == Ewma(trendInputs)
    {
      var anomaly := Push(value);
      Readings();
      var mean := Mean();
      var stddev := StandardDeviation();
      var trend := trendValue.value;
      meta := Meta(anomaly, mean, stddev, trend);
    }

    /** Feeds `value` to the trend: the first value seeds it, every later one
        moves it a tenth of the way towards the value. */
    method Trend(value: real) returns (t: real)
      requires TrendValid()
      modifies this`trendValue, this`trendInputs
      ensures TrendValid()
      ensures trendInputs == old(trendInputs) + [value]
      ensures trendValue == Some(t)
      ensures old(trendValue).None? ==> t == value
      ensures old(trendValue).Some? ==> t == TrendStep(old(trendValue).value, value)
      ensures t == Ewma(trendInputs)
    {
      if trendValue.None? {
        trendValue := Some(value);
      }
      var last := trendValue.value;
      var factor := TrendingFactor;
      trendValue := Some(last * (1.0 - factor) + factor * value);
      ghost var before := trendInputs;
      trendInputs := trendInputs + [value];
      assert trendInputs[..|trendInputs| - 1] == before;
      t := trendValue.value;
    }
  }
}
