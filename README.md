# anomaly: a streaming anomaly detector, modelled in Dafny

`AnomalyDetection` judges each value of a numeric stream against the values
pushed before it. It keeps O(1) state, all of it updated in place by `push`:

- a counter;
- Welford's running mean and running sum of squared deviations, each held in
  an "old" and a "new" field;
- an exponentially weighted trend with factor 0.1.

A value is anomalous when its distance from the mean exceeds the confidence
interval (3 by default) times the standard deviation. With a return type
other than 1, `push` returns the ratio of that distance to that boundary
instead of a boolean.

The model has three modules.

- `Statistics` (statistics.dfy) holds the mathematics the detector
  approximates:
  - the average, the sum of squared deviations, and the sample and
    population variances of a window of values;
  - the trend step and the moving average it builds;
  - square roots, given as any function satisfying `IsSqrt`.
  Its lemmas prove Welford's recurrences for the mean and the sum of squared
  deviations, non-negativity, the zero-spread case, the bounds of the trend,
  and how comparisons carry through a square root.
- `Anomaly` (anomaly.dfy) is the detector itself. The class
  `AnomalyDetection` has the source's fields (`count`, `oldMean`, `newMean`,
  `oldSumSq`, `newSumSq`, `trendValue`). It also has two ghost fields:
  - `window`: the values pushed since construction or the last clear;
  - `trendInputs`: every value the trend has absorbed.
  The invariant `Valid()` ties the fields to those sequences. `Push`,
  `PushMeta`, `Clear` and `Trend` are methods that keep it. `Mean`,
  `Variance` and `StandardDeviation` are functions on the state, with lemmas
  that relate them to the window.
- `Scenarios` (scenarios.dfy) proves the verdicts and statistics of
  concrete push sequences.

Arithmetic is over `real`, so Welford's formulas hold exactly. `Math.sqrt`
becomes a function the detector is constructed with. The constructor, and
every statement that needs the root, requires that this function is a
square root (`IsSqrt`).

Behaviour of the code that a reader may not expect. The model keeps all of
it:

- `variance()` divides the sum of squared deviations by the count minus 1,
  but `push` calls it after incrementing the counter and before Welford's
  update (index.js:52-55). The division is therefore by the count of the
  earlier values: from two earlier values on, a value is judged against the
  population variance of the values before it, not their sample variance.
- Any return type other than 1 gives the ratio, not only 2.
- `clear` resets only the counter and leaves the rest to be reset on the
  next push, as its comment says (index.js:46). That next push re-seeds less
  than a new detector holds, so a cleared detector does not behave like a
  new one:
  - the first push after a clear is judged against the mean left over from
    before the clear;
  - the second push after a clear is judged against the sum of squared
    deviations left over from before the clear, because the first push
    re-seeds `oldSumSq` but not `newSumSq`;
  - the trend is never reset.
  `Scenarios.StaleMeanAfterClear`, `Scenarios.StaleSpreadAfterClear` and
  `Scenarios.ClearKeepsTrend` show each of these on concrete values.

## Model

The accessors `Mean`, `Variance` and `StandardDeviation` (index.js:98-116)
are functions on the detector's state without contracts of their own. Their
contracts are the lemmas `MeanIsAverage`, `VarianceIsSampleVariance`,
`VarianceZeroIffConstant` and `StandardDeviationIsRoot` in the rows below.
`Abs` (index.js:76) carries its own small contract. The trending factor 0.1
(index.js:34) is the constant `Statistics.TrendingFactor`, used by
`TrendStep`.

| member | source | states |
|---|---|---|
| Statistics.WelfordMean | index.js:64 | Welford's mean update of a window's average by a new value gives the average of the extended window |
| Statistics.WelfordSumSqDev | index.js:65 | Welford's update of the sum of squared deviations gives the sum of squared deviations of the extended window from its new average |
| Statistics.SumSqDevNonNegative | index.js:106-112 | a window's sum of squared deviations is never negative, so the variance never is |
| Statistics.SumSqDevZeroIffConstant | index.js:106-112 | a window's sum of squared deviations is 0 exactly when all its values are equal, and then its average is that value |
| Statistics.SumSqDevSingleton | index.js:58-62 | a single value is its own average and has no spread, which justifies the first push seeding mean = value and sum = 0 |
| Statistics.TrendStep | index.js:130 | one trend step lands between the previous trend and the value, and shrinks their distance by the factor 0.9 |
| Statistics.EwmaWithinBounds | index.js:122-133 | the trend over any inputs stays within every bound that holds for all of them |
| Statistics.SqrtCompare | index.js:115 | for a square root, c < sqrt(x) iff c² < x, sqrt(x) < c iff x < c², and sqrt(x) = 0 iff x = 0 |
| Anomaly.ConfidenceIntervalOf | index.js:18 | the configured confidence interval if present and non-zero, otherwise 3; never 0 |
| Anomaly.ReturnTypeOf | index.js:26 | the configured return type if present and non-zero, otherwise 1; never 0 |
| Anomaly.Assess | index.js:75-82 | return type 1 gives exactly the boolean "deviation exceeds confidence interval times stddev"; any other gives a ratio that times the boundary equals the deviation, or NoBoundary exactly when the boundary is 0 |
| Anomaly.RatioAboveOneIffAnomalous | index.js:75-82 | with a positive boundary the ratio exceeds 1 exactly when the boolean verdict reports an anomaly |
| Anomaly.AnomalousIffSquaredDeviation | index.js:75-79 | with a positive confidence interval, the boolean verdict holds iff (value − mean)² > ci² · variance, with no square root |
| Anomaly.WelfordStep | index.js:63-70 | the else-branch's new mean and new sum are the average and the sum of squared deviations of the extended window, and the sum is non-negative |
| Anomaly.AnomalyDetection.constructor | index.js:4-44 | the defaults of the options, count 0, all aggregates 0, no trend, and the invariant |
| Anomaly.AnomalyDetection.Clear | index.js:47-49 | count and window go to empty, every other field is unchanged, and the invariant still holds |
| Anomaly.AnomalyDetection.MeanIsAverage | index.js:98-104 | the mean is 0 with no values and otherwise the average of exactly the values since construction or the last clear |
| Anomaly.AnomalyDetection.VarianceIsSampleVariance | index.js:106-112 | the variance is non-negative, 0 below two values whatever the stale fields hold, and the window's sample variance from two values on |
| Anomaly.AnomalyDetection.VarianceZeroIffConstant | index.js:106-112 | from two values on, the variance is 0 exactly when all values in the window are equal |
| Anomaly.AnomalyDetection.StandardDeviationIsRoot | index.js:114-116 | the standard deviation is non-negative, squares to the variance, and is 0 below two values |
| Anomaly.AnomalyDetection.Readings | index.js:88-91 | once a value is in, the mean is the window's average, the standard deviation is the non-negative root of the window's sample variance, or of 0 on one value |
| Anomaly.AnomalyDetection.NextVerdict | index.js:51-82 | the verdict of the next push: against the stale mean and no deviation on an empty window, against the stale sum on one value, and against the window's average and population standard deviation from two values on |
| Anomaly.AnomalyDetection.UpdateMoments | index.js:57-70 | after the counter counts the value, the first value re-seeds the means and oldSumSq and leaves newSumSq alone; later values make the aggregates describe the extended window |
| Anomaly.AnomalyDetection.Push | index.js:51-83 | the value joins the window and the trend's inputs, the invariant is kept, the first push after construction or clear re-seeds and keeps newSumSq, and the verdict is NextVerdict of the state before |
| Anomaly.AnomalyDetection.PushMeta | index.js:85-96 | the same state change and verdict as Push; the mean is the new window's average, the stddev is non-negative and squares to its sample variance (0 below two values), and the trend is the moving average of all inputs |
| Anomaly.AnomalyDetection.Trend | index.js:122-133 | the first value sets the trend to itself, later ones apply one trend step, and the trend equals the moving average of every value it absorbed |
| Scenarios.AfterOneTwoThree | index.js:51-55 | after 1, 2 and 3, any value is judged against the mean 2 and the population standard deviation, the root of 2/3 |
| Scenarios.BooleanVerdicts | index.js:75-79 | after 1, 2, 3 the value 100 is an anomaly and 2.5 is not, with default and with falsy options |
| Scenarios.RatioVerdicts | index.js:78-82 | with return type 2, after 1, 2, 3 the ratio of 100 exceeds 1 and that of 2.5 is below 1 |
| Scenarios.FirstPush | index.js:52-62 | the first value of a new detector is judged against mean 0 and deviation 0: 5 is anomalous, and in ratio mode it has no boundary |
| Scenarios.TrendMoves | index.js:122-133 | pushing 10 then 20 gives trends 10 then 11, and means 10 then 15 |
| Scenarios.ClearKeepsTrend | index.js:47-49 | after 0, 10, a clear and 7, the mean is 7 and the stddev 0, but the trend continues from 1 to 1.6 |
| Scenarios.StaleMeanAfterClear | index.js:52-55 | after 0, 10 and a clear, the next value is judged against the old mean 5: 5 is not anomalous, 7 is |
| Scenarios.SevenThenEight | index.js:58-62 | on a detector with an empty window, pushing 7 then 8 judges 8 against the mean 7 and the root of the `newSumSq` held before either push |
| Scenarios.StaleSpreadAfterClear | index.js:62 | 7 then 8 is an anomaly on a new detector, but not on one that saw 0, 10 and was cleared, whose second push reads the old sum 50 |

## Left out

- example/streaming.js, the demo driver, is not part of this model: it only feeds random values to `pushMeta` and writes to the console.
- Floating point: the model computes over exact reals. It leaves out rounding, and NaN or Infinity among the inputs.
- Anomaly.Assess: where the source divides by a zero boundary and returns Infinity or NaN, the model returns `NoBoundary`.
- `Math.sqrt` is not modelled as an algorithm. It is a parameter of the constructor, and the statements that need it require it to be a square root.
- JavaScript's dynamic typing of the options is left out. Only a missing field or the falsy number 0 selects the default; other falsy values such as NaN, "" or false are not modelled.
- The verdict is a datatype rather than a JavaScript boolean or number.
- Anomaly.AnomalyDetection.Push: its contract states the new window and the re-seeding. With Valid(), that fixes every field: the means equal the window's average; `oldSumSq` equals the window's sum of squared deviations; `newSumSq` does too from two values on, and after the first push it keeps its previous value. The raw Welford formulas of the else-branch are connected to those by Anomaly.WelfordStep rather than restated in Push.
