/** Concrete push sequences on detectors, with the verdicts and statistics
    they must produce. */
module Scenarios {
  import opened Statistics
  import opened Anomaly

  /** The aggregates of the window 1, 2, 3. */
  lemma OneTwoThree()
    ensures Average([1.0, 2.0, 3.0]) == 2.0
    ensures SumSqDev([1.0, 2.0, 3.0]) == 2.0
    ensures PopulationVariance([1.0, 2.0, 3.0]) == 2.0 / 3.0
  {
    assert [1.0, 2.0, 3.0][..2] == [1.0, 2.0];
    assert [1.0, 2.0][..1] == [1.0];
    assert [1.0][..0] == [];
  }

  /** The aggregates of the window 0, 10. */
  lemma ZeroTen()
    ensures Average([0.0, 10.0]) == 5.0
    ensures SumSqDev([0.0, 10.0]) == 50.0
  {
    assert [0.0, 10.0][..1] == [0.0];
    assert [0.0][..0] == [];
  }

  /** The verdict on `value` of a new detector with the options `opts`
      after 1, 2 and 3: it is judged against their mean 2 and their
      population standard deviation, the root of 2/3. */
  method AfterOneTwoThree(opts: Options, sqrt: real -> real, value: real) returns (v: Verdict)
    requires IsSqrt(sqrt)
    ensures v == Assess(ConfidenceIntervalOf(opts), ReturnTypeOf(opts), value, 2.0, sqrt(2.0 / 3.0))
  {
    var d := new AnomalyDetection(opts, sqrt);
    var _ := d.Push(1.0);
    var _ := d.Push(2.0);
    var _ := d.Push(3.0);
    assert d.window == [1.0, 2.0, 3.0];
    OneTwoThree();
    v := d.Push(value);
  }

  /** Far outside three standard deviations of 1, 2, 3, the value 100 is an
      anomaly; 2.5, inside them, is not. */
  method BooleanVerdicts(sqrt: real -> real) returns (far: Verdict, near: Verdict)
    requires IsSqrt(sqrt)
    ensures far == Bool(true)
    ensures near == Bool(false)
  {
    far := AfterOneTwoThree(Options(None, None), sqrt, 100.0);
    near := AfterOneTwoThree(Options(Some(0.0), Some(0)), sqrt, 2.5);
    SqrtCompare(sqrt, 2.0 / 3.0, 1.0);
    SqrtCompare(sqrt, 2.0 / 3.0, 0.8);
    assert 3.0 * sqrt(2.0 / 3.0) < 3.0;
    assert 3.0 * sqrt(2.0 / 3.0) > 2.4;
  }

  /** With return type 2 the same pushes give ratios on either side of 1. */
  method RatioVerdicts(sqrt: real -> real) returns (far: Verdict, near: Verdict)
    requires IsSqrt(sqrt)
    ensures far.Ratio? && far.ratio > 1.0
    ensures near.Ratio? && near.ratio < 1.0
  {
    far := AfterOneTwoThree(Options(None, Some(2)), sqrt, 100.0);
    near := AfterOneTwoThree(Options(None, Some(2)), sqrt, 2.5);
    SqrtCompare(sqrt, 2.0 / 3.0, 1.0);
    SqrtCompare(sqrt, 2.0 / 3.0, 0.8);
    assert 3.0 * sqrt(2.0 / 3.0) < 3.0;
    assert 3.0 * sqrt(2.0 / 3.0) > 2.4;
    RatioAboveOneIffAnomalous(3.0, 2, 100.0, 2.0, sqrt(2.0 / 3.0));
    RatioAboveOneIffAnomalous(3.0, 2, 2.5, 2.0, sqrt(2.0 / 3.0));
  }

  /** The first value has no standard deviation to be judged against: it is
      anomalous unless it equals the initial mean 0, and in ratio mode has no
      boundary. */
  method FirstPush(sqrt: real -> real) returns (b: Verdict, r: Verdict)
    requires IsSqrt(sqrt)
    ensures b == Bool(true)
    ensures r == NoBoundary
  {
    var d := new AnomalyDetection(Options(Some(2.0), None), sqrt);
    b := d.Push(5.0);
    var e := new AnomalyDetection(Options(None, Some(2)), sqrt);
    r := e.Push(5.0);
  }

  /** The aggregates and trends of the inputs 10 and 20. */
  lemma TenTwenty()
    ensures Average([10.0]) == 10.0 && Ewma([10.0]) == 10.0
    ensures Average([10.0, 20.0]) == 15.0 && Ewma([10.0, 20.0]) == 11.0
  {
    assert [10.0, 20.0][..1] == [10.0];
    assert [10.0][..0] == [];
  }

  /** The trend of the inputs 0, 10 and 7. */
  lemma ZeroTenSeven()
    ensures Ewma([0.0, 10.0, 7.0]) == 1.6
  {
    assert [0.0, 10.0, 7.0][..2] == [0.0, 10.0];
    assert [0.0, 10.0][..1] == [0.0];
  }

  /** The trend starts at the first value and moves a tenth of the way to
      each later one: 10 then 20 give 10 then 11. */
  method TrendMoves(sqrt: real -> real) returns (first: Meta, second: Meta)
    requires IsSqrt(sqrt)
    ensures first.trend == 10.0 && first.mean == 10.0 && first.stddev == 0.0
    ensures second.trend == 11.0 && second.mean == 15.0
  {
    TenTwenty();
    var d := new AnomalyDetection(Options(None, None), sqrt);
    first := d.PushMeta(10.0);
    assert d.trendInputs == [10.0] && d.window == [10.0];
    assert first.stddev * first.stddev == 0.0;
    second := d.PushMeta(20.0);
    assert d.trendInputs == [10.0, 20.0] && d.window == [10.0, 20.0];
  }

  /** A detector with the default options that saw 0 and 10 and was then
      cleared: the counter is back at 0, the rest is left over. */
  method ClearedDetector(sqrt: real -> real) returns (d: AnomalyDetection)
    requires IsSqrt(sqrt)
    ensures fresh(d) && d.Valid() && d.sqrt == sqrt
    ensures d.confidenceInterval == 3.0 && d.returnType == 1
    ensures d.count == 0 && d.window == []
    ensures d.newMean == 5.0 && d.newSumSq == 50.0
    ensures d.trendInputs == [0.0, 10.0]
  {
    d := new AnomalyDetection(Options(None, None), sqrt);
    var _ := d.Push(0.0);
    var _ := d.Push(10.0);
    assert d.window == [0.0, 10.0];
    ZeroTen();
    d.Clear();
  }

  /** A clear restarts the mean and the variance but not the trend: after
      0 and 10, a clear and 7, the mean is 7 and the deviation 0, but the
      trend goes on from 1 (after 0 and 10) to 1.6. */
  method ClearKeepsTrend(sqrt: real -> real) returns (meta: Meta)
    requires IsSqrt(sqrt)
    ensures meta.mean == 7.0 && meta.stddev == 0.0
    ensures meta.trend == 1.6
  {
    var d := ClearedDetector(sqrt);
    meta := d.PushMeta(7.0);
    assert d.window == [7.0];
    assert meta.stddev * meta.stddev == 0.0;
    assert d.trendInputs == [0.0, 10.0, 7.0];
    ZeroTenSeven();
  }

  /** The first push after a clear is judged against the mean from before
      the clear, with no deviation: 5 is not an anomaly, 7 is. */
  method StaleMeanAfterClear(sqrt: real -> real) returns (same: Verdict, other: Verdict)
    requires IsSqrt(sqrt)
    ensures same == Bool(false)
    ensures other == Bool(true)
  {
    var d := ClearedDetector(sqrt);
    same := d.Push(5.0);
    var e := ClearedDetector(sqrt);
    other := e.Push(7.0);
  }

  /** Pushes 7 then 8 into a detector with the default options and no
      values in its window: 8 is judged against the mean 7 and the root of
      whatever `newSumSq` held before the two pushes. */
  method SevenThenEight(d: AnomalyDetection) returns (v: Verdict)
    requires d.Valid() && IsSqrt(d.sqrt) && d.count == 0
    requires d.confidenceInterval == 3.0 && d.returnType == 1
    modifies d
    ensures v == Assess(3.0, 1, 8.0, 7.0, d.sqrt(old(d.newSumSq)))
  {
    var _ := d.Push(7.0);
    assert d.window == [7.0];
    SumSqDevSingleton(7.0);
    v := d.Push(8.0);
  }

  /** The second push after a clear is judged against the sum of squared
      deviations from before the clear: 7 then 8 is an anomaly on a new
      detector, but not on one that saw 0 and 10 and was cleared. */
  method StaleSpreadAfterClear(sqrt: real -> real) returns (newDetector: Verdict, cleared: Verdict)
    requires IsSqrt(sqrt)
    ensures newDetector == Bool(true)
    ensures cleared == Bool(false)
  {
    var d := new AnomalyDetection(Options(None, None), sqrt);
    newDetector := SevenThenEight(d);
    SqrtCompare(sqrt, 0.0, 0.0);

    var e := ClearedDetector(sqrt);
    cleared := SevenThenEight(e);
    SqrtCompare(sqrt, 50.0, 7.0);
    assert 3.0 * sqrt(50.0) > 21.0;
  }
}
