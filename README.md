# Orleans balanced resource placement, modelled in Dafny

Orleans.BalancedResourcePlacement is a placement strategy for Orleans grains. It chooses the silo
for a new activation from the silos' runtime statistics: CPU usage, available memory, used memory,
total physical memory and an overload flag. This project models its core:

- **The scalar Kalman filters that smooth the statistics.** These are the dual-regime
  `DualModeKalmanFilter<T>`, the older copy-state `StatisticsFilter<T>` (with `T = float` and
  `T = long`), and the bare `DKalmanFilter<T>` of the KalmanTest program.
- **The 4×4 matrix `KalmanFilter`** and its hand-written array helpers.
- **The placement director.** This covers its weighted score (with C#'s truncating `long`
  division and the infinities and NaN a `float` division by 0 yields), the choice of the highest-scoring compatible silo, and its store of statistics.
- **The adaptive director's add-or-update**, which sends every later report through three filters
  that all silos share.
- **One round of the statistics collector.** It compares the fetched statistics with its
  dictionary, then notifies the listener of changes and removals.
- **The option defaults and the weight check** of `AddBalancedResourcePlacement`.

Classes whose fields the C# code updates are Dafny classes, with `modifies` clauses for their
methods. Each such method has a pure function of the old state as its specification
(`DualFilter`, `StatFilter`, `LongStatFilter`, `Step`, `ChangePass`, `UpdatedStore`,
`AdaptiveUpdate`, `Place`, `Run`). The properties are proved as lemmas about those functions.

Modelling choices:

- `float` is modelled as `real` and `long` as an unbounded `int`. The score is a `Numerics.Float`
  (a finite real, either infinity, or NaN), because a total memory of 0 makes it non-finite.
- Integer division is `Numerics.TruncDiv`, which truncates toward zero like C#.
- A cast `(long)x` is `Numerics.TruncateToInt`.
- A nullable value is `Wrappers.Option` and an exception is the `Failure` case of `Wrappers.Result`.
- `Random.Shared.Next(n)` becomes a parameter `pick < n`.
- The compatible silos and the fetched batch are inputs.
- The listener is the `notifications` log of the collector.

What the code does, in a few points a reader might not expect:

- **Process noise.** In both dual-regime filters the slow filter has process noise 0 and the fast
  filter 0.01.
- **Score and selection.** The score adds the CPU usage to the memory terms. The used-memory
  fraction and the capacity are integer quotients; only the available-memory fraction, a `float`
  division, keeps its fractional part. Every compatible silo that has statistics is ranked:
  overloaded silos are not excluded and no random subset is drawn.
  - `Placement.BusierSiloScoresHigher` takes two silos with 16e9 bytes each, one at 20% CPU with
    half its memory free and one at 80% CPU with an eighth free. Under the default weights the
    busier silo scores higher.
- **Weight check.** The registration compares the weight sum with exactly 100.
- **Collector equality.** The comparison of two reports ignores the overload flag.
- **Collection period.** The default is 5 s. The options' doc comment says 1 s.

## Model

| member | source | states |
|---|---|---|
| Numerics.TruncDivRemainder | Orleans.BalancedResourcePlacement/BalancedResourcePlacementDirector.cs:56-58 | the `long` quotient leaves a remainder smaller than the divisor in magnitude, with the sign of the dividend (C# division semantics) |
| Numerics.TruncDivSmall | Orleans.BalancedResourcePlacement/BalancedResourcePlacementDirector.cs:56-57 | a non-negative memory figure below the total divides to 0 |
| Numerics.TruncDivMonotone | Orleans.BalancedResourcePlacement/BalancedResourcePlacementDirector.cs:56-57 | `long` division by a positive total is monotone in the dividend, negative dividends included |
| Numerics.QuotientMonotone | Orleans.BalancedResourcePlacement/BalancedResourcePlacementDirector.cs:56 | a `float` division by a positive total keeps the order of the dividends |
| Numerics.FloatDiv | Orleans.BalancedResourcePlacement/BalancedResourcePlacementDirector.cs:56 | a `float` quotient is finite exactly when the divisor is not 0, and then times the divisor gives the dividend; it is NaN exactly when both are 0 |
| Numerics.Times | Orleans.BalancedResourcePlacement/BalancedResourcePlacementDirector.cs:60-63 | a weight times a `float` is finite exactly when the factor is, and NaN exactly when the factor is NaN or a weight of 0 meets an infinity |
| Numerics.Plus | Orleans.BalancedResourcePlacement/BalancedResourcePlacementDirector.cs:60-63 | a `float` sum is finite exactly when both terms are, and NaN exactly when a term is NaN or the terms are opposite infinities |
| Numerics.BelowIsStrictTotalOrder | Orleans.BalancedResourcePlacement/BalancedResourcePlacementDirector.cs:45 | the `float` comparison the sort uses (NaN lowest, then the negative infinity, the finite values and the positive infinity) is irreflexive, transitive and total |
| Numerics.PositiveInfinityIsTop | Orleans.BalancedResourcePlacement/BalancedResourcePlacementDirector.cs:45 | nothing compares above the positive infinity, and only it compares at least as high as it |
| Numerics.TruncateToInt | Orleans.BalancedResourcePlacement/KalmanFilter.cs:72-73 | the cast `(long)x` truncates toward zero: the result is within one of `x`, on the side of zero |
| Statistics.ToReal | Orleans.BalancedResourcePlacement/KalmanFilter.cs:64-65 | `long?` to `float?` keeps null as null and converts a present value |
| ScalarKalman.Gain | Orleans.BalancedResourcePlacement/DualModeKalmanFilter.cs:109 | the gain K solves K·(P+1) = P; for P ≥ 0 it lies in [0, 1), and it is positive for P > 0 |
| ScalarKalman.Step | Orleans.BalancedResourcePlacement/DualModeKalmanFilter.cs:90-126 | the new covariance equals the gain; the distance to the measurement shrinks by the factor 1 − K; from a non-negative predicted covariance the covariance stays in [0, 1), never grows, and the estimate lands between the old estimate and the measurement |
| ScalarKalman.LongStep | Orleans.BalancedResourcePlacement/StatisticsFilter.cs:86-113 | with `long` arithmetic and a non-negative predicted covariance, the gain is 0: the estimate does not move and the covariance becomes P + Q |
| DualMode.DualFilter | Orleans.BalancedResourcePlacement/DualModeKalmanFilter.cs:12-54 | covariances stay non-negative. The regime becomes Fast exactly when the measurement exceeds the slow filter's new estimate. The output is the estimate of the new regime's filter. With no change of regime, both filters step once on the same value. Slow to Fast resets the fast filter to (z, 0), re-runs it and returns z. Fast to Slow re-runs the slow filter from the fast filter's updated state |
| DualMode.MissingMeasurementIsZero | Orleans.BalancedResourcePlacement/DualModeKalmanFilter.cs:14 | a null measurement is filtered exactly like 0 |
| DualMode.SettledSignalIsFixedPoint | Orleans.BalancedResourcePlacement/DualModeKalmanFilter.cs:12-54 | in the slow regime, a measurement equal to both estimates is returned unchanged, and the regime and both estimates stay put |
| DualMode.KalmanFilter.constructor | Orleans.BalancedResourcePlacement/DualModeKalmanFilter.cs:64-72 | a new inner filter holds estimate 0 and covariance 1 with the given process noise |
| DualMode.KalmanFilter.SetState | Orleans.BalancedResourcePlacement/DualModeKalmanFilter.cs:74-78 | both prior fields are overwritten with the given values |
| DualMode.KalmanFilter.Filter | Orleans.BalancedResourcePlacement/DualModeKalmanFilter.cs:80-127 | the new state is one `Step` from the old one with the filter's process noise; the return value is the new prior estimate |
| DualMode.DualModeKalmanFilter.constructor | Orleans.BalancedResourcePlacement/DualModeKalmanFilter.cs:7-10 | two distinct fresh inner filters with process noise 0 and 0.01, both at (0, 1), in the slow regime |
| DualMode.DualModeKalmanFilter.Filter | Orleans.BalancedResourcePlacement/DualModeKalmanFilter.cs:12-54 | the new inner states, the new regime and the return value are those of `DualFilter` on the old state |
| StatisticsFilters.StatFilter | Orleans.BalancedResourcePlacement/StatisticsFilter.cs:12-40 | the flag is set exactly when the measurement exceeds the slow filter's new estimate, and the output is then the fast estimate, else the slow one. Switching on, the fast filter copies the updated slow one but the pre-copy fast estimate is returned. Switching off, the slow filter copies the fast one. Without a switch both filters step once |
| StatisticsFilters.LongStatFilter | Orleans.BalancedResourcePlacement/StatisticsFilter.cs:12-40 | for `long`, the output is one of the prior estimates; inner filters at (0, 1) stay at (0, 1) and return 0 |
| StatisticsFilters.LongFilterAlwaysReturnsZero | Orleans.BalancedResourcePlacement/StatisticsFilter.cs:105-113 | over any sequence of measurements `StatisticsFilter<long>` keeps both inner filters at (0, 1) and returns 0 every time |
| StatisticsFilters.MissingMeasurementIsZero | Orleans.BalancedResourcePlacement/StatisticsFilter.cs:14 | a null measurement is filtered exactly like 0 |
| StatisticsFilters.KalmanFilter.constructor | Orleans.BalancedResourcePlacement/StatisticsFilter.cs:44-53 | measurement noise 1, the given process noise, state (0, 1) |
| StatisticsFilters.KalmanFilter.CopyState | Orleans.BalancedResourcePlacement/StatisticsFilter.cs:65-69 | this filter takes the other filter's (estimate, covariance); the other filter is unchanged |
| StatisticsFilters.KalmanFilter.BeginReset | Orleans.BalancedResourcePlacement/StatisticsFilter.cs:71-74 | changes nothing |
| StatisticsFilters.KalmanFilter.Filter | Orleans.BalancedResourcePlacement/StatisticsFilter.cs:76-114 | the new state is one `Step` with the filter's process noise; returns the new prior estimate |
| StatisticsFilters.StatisticsFilter.constructor | Orleans.BalancedResourcePlacement/StatisticsFilter.cs:7-10 | two distinct fresh inner filters with process noise 0 and 0.01 at (0, 1), flag off |
| StatisticsFilters.StatisticsFilter.Filter | Orleans.BalancedResourcePlacement/StatisticsFilter.cs:12-40 | the new state and the return value are those of `StatFilter` |
| StatisticsFilters.LongKalmanFilter.constructor | Orleans.BalancedResourcePlacement/StatisticsFilter.cs:44-53 | the `long` inner filter: measurement noise 1, the given process noise, state (0, 1) |
| StatisticsFilters.LongKalmanFilter.CopyState | Orleans.BalancedResourcePlacement/StatisticsFilter.cs:65-69 | this filter takes the other filter's state; the other filter is unchanged |
| StatisticsFilters.LongKalmanFilter.BeginReset | Orleans.BalancedResourcePlacement/StatisticsFilter.cs:71-74 | changes nothing |
| StatisticsFilters.LongKalmanFilter.Filter | Orleans.BalancedResourcePlacement/StatisticsFilter.cs:76-114 | the new state is one `LongStep` (truncating gain); returns the new prior estimate |
| StatisticsFilters.LongStatisticsFilter.constructor | Orleans.BalancedResourcePlacement/StatisticsFilter.cs:7-10 | two distinct inner filters whose process noises 0 and `(long)0.01` are both 0, at (0, 1), flag off |
| StatisticsFilters.LongStatisticsFilter.Filter | Orleans.BalancedResourcePlacement/StatisticsFilter.cs:12-40 | the new state and the return value are those of `LongStatFilter` |
| DKalman.Run | KalmanTest/A.cs:17-30 | the covariance after any number of calls stays positive |
| DKalman.RunningMean | KalmanTest/A.cs:24-26 | after measurements z1..zn the estimate is (z1+…+zn)/(n+1), the mean with the initial 0, and the covariance is 1/(n+1) |
| DKalman.StepFromMean | KalmanTest/A.cs:24-26 | one call from the mean of m values with covariance 1/m gives the mean of m+1 values with covariance 1/(m+1) |
| DKalman.GainStrictlyInsideUnitInterval | KalmanTest/A.cs:24 | the gain of the next call is 1/(n+2), strictly between 0 and 1 |
| DKalman.StepWithoutProcessNoise | KalmanTest/A.cs:20-26 | without process noise the step is x + K(z − x) and (1 − K)P with K = P/(P+1) |
| DKalman.RunOneMore | KalmanTest/A.cs:17-30 | filtering one more measurement is one more step from the current state |
| DKalman.DKalmanFilter.constructor | KalmanTest/A.cs:11-15 | estimate 0, covariance 1, no measurements yet |
| DKalman.DKalmanFilter.Filter | KalmanTest/A.cs:17-30 | the state moves by one step without process noise and stays `Run` of all measurements so far (so `RunningMean` gives its closed form); returns the new prior estimate |
| MatrixKalman.Identity | Orleans.BalancedResourcePlacement/KalmanFilter.cs:78-86 | a 4×4 array with 1 on the diagonal and 0 elsewhere |
| MatrixKalman.Transpose | Orleans.BalancedResourcePlacement/KalmanFilter.cs:88-102 | the result has the transposed shape; entry (j, i) is `matrix[i, j]` inside the fixed 4×4 block and 0 outside it |
| MatrixKalman.Multiply | Orleans.BalancedResourcePlacement/KalmanFilter.cs:104-125 | rowsA×colsB, each entry the sum over k < colsA of a[i,k]·b[k,j] |
| MatrixKalman.Add | Orleans.BalancedResourcePlacement/KalmanFilter.cs:127-142 | shaped like `a`, the elementwise sum |
| MatrixKalman.Subtract | Orleans.BalancedResourcePlacement/KalmanFilter.cs:144-159 | shaped like `a`, the elementwise difference |
| MatrixKalman.Inverse | Orleans.BalancedResourcePlacement/KalmanFilter.cs:161-166 | returns the very same array |
| MatrixKalman.SumProdScaled | Orleans.BalancedResourcePlacement/KalmanFilter.cs:115-119 | the running sum of a row of c·I against a column picks up c·b[i,j] once it passes i |
| MatrixKalman.ScaledProduct | Orleans.BalancedResourcePlacement/KalmanFilter.cs:104-125 | multiplying by c·I scales every entry by c |
| MatrixKalman.IdentityProduct | Orleans.BalancedResourcePlacement/KalmanFilter.cs:45 | `Multiply(Identity(), m)` equals `m` for any `m` with four rows, so the prediction leaves x unchanged |
| MatrixKalman.ScaledTimesScaled | Orleans.BalancedResourcePlacement/KalmanFilter.cs:104-125 | c·I times d·I is cd·I |
| MatrixKalman.ScaledElementwise | Orleans.BalancedResourcePlacement/KalmanFilter.cs:127-159 | c·I plus or minus d·I is (c ± d)·I |
| MatrixKalman.ScaledTranspose | Orleans.BalancedResourcePlacement/KalmanFilter.cs:88-102 | the transpose of c·I is c·I |
| MatrixKalman.Corrected | Orleans.BalancedResourcePlacement/KalmanFilter.cs:49-53 | x + K·(z − H·x) with H·x = x and K = g·I moves each entry the fraction g towards z |
| MatrixKalman.ConvertToVector | Orleans.BalancedResourcePlacement/KalmanFilter.cs:59-66 | a 4×1 column of the four statistics, a missing one as 0 |
| MatrixKalman.ConvertToStatistics | Orleans.BalancedResourcePlacement/KalmanFilter.cs:68-74 | every field is present; the two `float` rows are copied; the two `long` fields are the rows cast with truncation toward zero, so no larger in magnitude than the rows; the overload flag is the one passed in |
| MatrixKalman.KalmanFilter.constructor | Orleans.BalancedResourcePlacement/KalmanFilter.cs:17-38 | H, F, Q, R and P are the identity and x is the zero vector |
| MatrixKalman.KalmanFilter.Update | Orleans.BalancedResourcePlacement/KalmanFilter.cs:40-57 | P stays p·I; with P' = p+1 the gain is P'·(P'+1) because of the stub inverse; each entry of x moves that fraction towards the measurement; p becomes (1 − gain)·P'; the result is `ConvertToStatistics` of x with the measurement's overload flag |
| MatrixKalman.KalmanFilter.Predict | Orleans.BalancedResourcePlacement/KalmanFilter.cs:44-46 | x = F·x leaves x as it was; F·P·F' + Q turns p·I into (p+1)·I |
| MatrixKalman.KalmanFilter.Correct | Orleans.BalancedResourcePlacement/KalmanFilter.cs:48-54 | the estimate moves the stub gain's fraction towards z, and the covariance becomes (1 − gain)·p·I |
| MatrixKalman.KalmanFilter.CorrectedEstimate | Orleans.BalancedResourcePlacement/KalmanFilter.cs:49-53 | x + K·(z − H·x) for K = g·I moves each entry the fraction g towards z |
| MatrixKalman.KalmanFilter.CorrectedCovariance | Orleans.BalancedResourcePlacement/KalmanFilter.cs:54 | (I − K·H)·P for K = g·I and P = p·I is (1 − g)·p·I |
| MatrixKalman.KalmanFilter.IdentityMinusGain | Orleans.BalancedResourcePlacement/KalmanFilter.cs:54 | I − K·H for K = g·I is (1 − g)·I |
| MatrixKalman.KalmanFilter.Gain | Orleans.BalancedResourcePlacement/KalmanFilter.cs:50-51 | with P = p·I, S = (p+1)·I and the unchanged "inverse" give K = p(p+1)·I rather than p/(p+1)·I |
| MatrixKalman.UpdateRepeatedly | Orleans.BalancedResourcePlacement/KalmanFilter.cs:40-57 | any number of updates of a new filter keeps P a multiple of the identity, with the factor `CovarianceAfter(n)` |
| MatrixKalman.CovarianceDiverges | Orleans.BalancedResourcePlacement/KalmanFilter.cs:40-57 | the covariance factor after 1 to 4 updates is −10, 639, −262552960 and above 10^25, and the fifth update's gain exceeds the largest finite `float` |
| MatrixKalman.FirstUpdateScalesMeasurement | Orleans.BalancedResourcePlacement/KalmanFilter.cs:40-57 | the first update of a new filter returns six times the measurement in every field, and keeps the overload flag |
| Placement.CalculateScore | Orleans.BalancedResourcePlacement/BalancedResourcePlacementDirector.cs:50-67 | the score throws a division by zero exactly when the total memory is 0 and the used memory is present; without a total it is the finite weighted CPU fraction alone; it is non-finite only for a total of 0 with available memory and no used memory |
| Placement.ScoreIgnoresMemoryWithoutTotal | Orleans.BalancedResourcePlacement/BalancedResourcePlacementDirector.cs:54-66 | without a total memory, the available and used memory do not affect the score |
| Placement.ScoreWithTotal | Orleans.BalancedResourcePlacement/BalancedResourcePlacementDirector.cs:54-63 | with a non-zero total, the score is finite: the sum of the weighted CPU fraction, the exact available-memory fraction, the truncated used-memory fraction and the whole GiB of the total |
| Placement.ScoreMonotoneInAvailableMemory | Orleans.BalancedResourcePlacement/BalancedResourcePlacementDirector.cs:56-63 | with a non-negative weight and a positive total, more available memory never lowers the score |
| Placement.ZeroTotalScore | Orleans.BalancedResourcePlacement/BalancedResourcePlacementDirector.cs:54-63 | with a total of 0 and no used memory nothing throws: positive (negative) available memory under a positive weight scores positive (negative) infinity, available memory of 0 or a weight of 0 scores NaN, and no available memory leaves the CPU term |
| Placement.BusierSiloScoresHigher | Orleans.BalancedResourcePlacement/BalancedResourcePlacementDirector.cs:50-67 | with the default weights and equal totals, a silo at 80% CPU with an eighth of its memory free scores 1.69 and one at 20% CPU with half free scores 1.66 |
| Placement.PutKeepsWellFormed | Orleans.BalancedResourcePlacement/BalancedResourcePlacementDirector.cs:40 | a dictionary assignment keeps every key listed once and adds its key |
| Placement.ScoreAll | Orleans.BalancedResourcePlacement/BalancedResourcePlacementDirector.cs:34-42 | the loop either throws a division by zero or builds a well-formed table whose every score is `CalculateScore` of a stored silo |
| Placement.ScoreAllFaults | Orleans.BalancedResourcePlacement/BalancedResourcePlacementDirector.cs:34-42 | the loop throws exactly when some compatible silo with statistics has a faulting score |
| Placement.ScoreAllKeys | Orleans.BalancedResourcePlacement/BalancedResourcePlacementDirector.cs:34-42 | the table holds exactly the compatible silos that have statistics |
| Placement.ScoreAllOrderExtends | Orleans.BalancedResourcePlacement/BalancedResourcePlacementDirector.cs:34-42 | the table over a prefix of the silos lists its keys as a prefix of the full table's order |
| Placement.EarlierInTable | Orleans.BalancedResourcePlacement/BalancedResourcePlacementDirector.cs:34-42 | a scored silo is enumerated before any silo that first appears later among the compatible silos |
| Placement.FirstMaximum | Orleans.BalancedResourcePlacement/BalancedResourcePlacementDirector.cs:45 | the stable descending sort's first entry under the `float` comparison: no entry compares above it, and every earlier entry compares strictly below it |
| Placement.FirstHighest | Orleans.BalancedResourcePlacement/BalancedResourcePlacementDirector.cs:45 | one pass over the table finds the position `FirstMaximum` names |
| Placement.RandomSilo | Orleans.BalancedResourcePlacement/BalancedResourcePlacementDirector.cs:75-76 | the random index yields one of the compatible silos |
| Placement.Place | Orleans.BalancedResourcePlacement/BalancedResourcePlacementDirector.cs:24-47 | no compatible silo throws. An empty store gives the random pick. A faulting score throws a division by zero, exactly when one exists. With no compatible silo in the store, `First()` throws. Otherwise the result is a compatible silo with statistics and a non-faulting score |
| Placement.PlaceSelectsHighestScore | Orleans.BalancedResourcePlacement/BalancedResourcePlacementDirector.cs:34-45 | no compatible silo with statistics has a score that compares above the chosen silo's |
| Placement.PlaceTieGoesToEarliest | Orleans.BalancedResourcePlacement/BalancedResourcePlacementDirector.cs:45 | every scored compatible silo listed before the chosen one's first occurrence has a score that compares strictly below the chosen silo's |
| Placement.ZeroTotalSiloWins | Orleans.BalancedResourcePlacement/BalancedResourcePlacementDirector.cs:34-63 | a compatible silo reporting a total of 0, positive available memory and no used memory (positive weight) makes any successful placement pick a silo scoring positive infinity, listed no later than that silo |
| Placement.PlaceWithFallback | Orleans.BalancedResourcePlacement/BalancedResourcePlacementDirector.cs:47 | the corrected choice never throws for lack of a scored silo and falls back to the random compatible silo; otherwise it agrees with `Place` |
| Placement.UnscoredCandidateThrows | Orleans.BalancedResourcePlacement/BalancedResourcePlacementDirector.cs:45-47 | if the store knows only another silo, the code throws, while the fallback places on the compatible silo |
| Placement.BalancedResourcePlacementDirector.constructor | Orleans.BalancedResourcePlacement/BalancedResourcePlacementDirector.cs:9-13 | the given options and an empty store |
| Placement.BalancedResourcePlacementDirector.OnAddActivation | Orleans.BalancedResourcePlacement/BalancedResourcePlacementDirector.cs:15-48 | the outcome of the `foreach` scoring loop and the selection is `Place` on the current store |
| Placement.BalancedResourcePlacementDirector.OnSiloStatisticsChanged | Orleans.BalancedResourcePlacement/BalancedResourcePlacementDirector.cs:69-70 | the silo's entry becomes the new statistics, and no other entry changes |
| Placement.BalancedResourcePlacementDirector.OnSiloRemoved | Orleans.BalancedResourcePlacement/BalancedResourcePlacementDirector.cs:72-73 | the silo's entry is removed if present, and nothing else changes |
| Placement.RemovedSiloNotPlaced | Orleans.BalancedResourcePlacement/BalancedResourcePlacementDirector.cs:72-73 | after a removal, while other statistics remain, the removed silo is never chosen |
| AdaptivePlacement.Raw | Orleans.BalancedResourcePlacement/AdaptiveBalancedResourcePlacementDirector.cs:17-22 | a first report is kept with all five fields as given |
| AdaptivePlacement.AdaptiveUpdate | Orleans.BalancedResourcePlacement/AdaptiveBalancedResourcePlacementDirector.cs:14-35 | only the given address's entry changes. A first report is stored raw and leaves the filters alone. A later one advances the three shared filters, with nulls as 0, and stores their outputs with memory usage 0 and the raw total and flag |
| AdaptivePlacement.UpdateKeepsEntriesFilteredOrRaw | Orleans.BalancedResourcePlacement/AdaptiveBalancedResourcePlacementDirector.cs:23-34 | every stored entry is either a raw first report or has all three smoothed fields present with memory usage 0, and every update keeps that true |
| AdaptivePlacement.AdaptiveBalancedResourcePlacementDirector.constructor | Orleans.BalancedResourcePlacement/AdaptiveBalancedResourcePlacementDirector.cs:7-12 | three separate new filters in their initial state and an empty store |
| AdaptivePlacement.AdaptiveBalancedResourcePlacementDirector.OnSiloStatisticsChanged | Orleans.BalancedResourcePlacement/AdaptiveBalancedResourcePlacementDirector.cs:14-35 | the new store and filter states are `AdaptiveUpdate` of the old ones |
| Collector.Step | Orleans.BalancedResourcePlacement/SiloRuntimeStatisticsCollector.cs:50-62 | a known silo with equal statistics changes nothing; any other report is stored and announced once; other silos are untouched |
| Collector.ChangePassSnoc | Orleans.BalancedResourcePlacement/SiloRuntimeStatisticsCollector.cs:48-63 | the first loop over one more report is one more step |
| Collector.ChangePassShape | Orleans.BalancedResourcePlacement/SiloRuntimeStatisticsCollector.cs:48-63 | after the first loop the dictionary holds the old and the reported silos; it sent only change notifications, at most one per report |
| Collector.ChangePassUntouched | Orleans.BalancedResourcePlacement/SiloRuntimeStatisticsCollector.cs:48-63 | a silo the batch does not mention keeps its entry, or its absence, and gets no notification |
| Collector.ChangePassReported | Orleans.BalancedResourcePlacement/SiloRuntimeStatisticsCollector.cs:48-63 | with distinct silos, a reported silo ends up stored; if it was known with equal statistics it is untouched and silent, otherwise it holds the report and was announced exactly once |
| Collector.StepOther | Orleans.BalancedResourcePlacement/SiloRuntimeStatisticsCollector.cs:50-62 | a step for another silo leaves a silo's entry and notification count as they were |
| Collector.StepReported | Orleans.BalancedResourcePlacement/SiloRuntimeStatisticsCollector.cs:50-62 | the step for a silo that is still as originally stored decides its final entry and its single notification |
| Collector.UnknownSiloInserted | Orleans.BalancedResourcePlacement/SiloRuntimeStatisticsCollector.cs:58-62 | an unknown silo is inserted with its report and announced exactly once |
| Collector.ChangedSiloOverwritten | Orleans.BalancedResourcePlacement/SiloRuntimeStatisticsCollector.cs:50-56 | a known silo with different figures is overwritten and announced exactly once |
| Collector.EqualSiloUntouched | Orleans.BalancedResourcePlacement/SiloRuntimeStatisticsCollector.cs:52 | a known silo with equal figures keeps its entry and gets no notification |
| Collector.OverloadFlagIgnored | Orleans.BalancedResourcePlacement/SiloRuntimeStatisticsCollector.cs:73-77 | statistics that differ only in the overload flag compare equal |
| Collector.RemovesOneMore | Orleans.BalancedResourcePlacement/SiloRuntimeStatisticsCollector.cs:66-70 | removing one more silo keeps the removals a one-to-one enumeration of the removed set |
| Collector.Removals | Orleans.BalancedResourcePlacement/SiloRuntimeStatisticsCollector.cs:65 | the silos dropped are the previously known ones missing from the batch |
| Collector.UpdatedStore | Orleans.BalancedResourcePlacement/SiloRuntimeStatisticsCollector.cs:46-71 | after a round, the dictionary's keys are exactly the silos of the batch |
| Collector.RepeatedBatchIsSilent | Orleans.BalancedResourcePlacement/SiloRuntimeStatisticsCollector.cs:46-71 | the same batch a second time changes nothing and notifies nothing |
| Collector.RepeatSilentPrefix | Orleans.BalancedResourcePlacement/SiloRuntimeStatisticsCollector.cs:48-63 | if every silo of the batch is already stored with equal figures, the first loop is silent |
| Collector.SiloRuntimeStatisticsCollector.constructor | Orleans.BalancedResourcePlacement/SiloRuntimeStatisticsCollector.cs:12 | an empty dictionary and no notifications |
| Collector.SiloRuntimeStatisticsCollector.UpdateSiloStatistics | Orleans.BalancedResourcePlacement/SiloRuntimeStatisticsCollector.cs:46-71 | the dictionary becomes `UpdatedStore`. The listener hears the change notifications of the first loop, then one removal for each missing silo and nothing else. All removals come after all changes |
| Collector.SiloRuntimeStatisticsCollector.ApplyReports | Orleans.BalancedResourcePlacement/SiloRuntimeStatisticsCollector.cs:48-63 | the first loop leaves the dictionary and the notifications that `ChangePass` describes |
| Collector.SiloRuntimeStatisticsCollector.RemoveSilos | Orleans.BalancedResourcePlacement/SiloRuntimeStatisticsCollector.cs:65-70 | the given silos are removed, each announced once, and nothing else is sent |
| Configuration.BuildOptions | Orleans.BalancedResourcePlacement/BalancedResourcePlacementExtensions.cs:17-26 | the defaults (5 s, 0.3, 0.4, 0.2, 0.1), then the builder's changes if there is a builder |
| Configuration.AddBalancedResourcePlacement | Orleans.BalancedResourcePlacement/BalancedResourcePlacementExtensions.cs:15-51 | throws `InvalidOperationException` exactly when the four weights do not sum to 100. Otherwise it registers the built options, and registers the global strategy exactly when `isGlobal` is set |
| Configuration.DefaultWeightsRejected | Orleans.BalancedResourcePlacement/BalancedResourcePlacementExtensions.cs:17-34 | the default weights sum to 1, so a registration that keeps them always throws |
| Configuration.PercentWeightsAccepted | Orleans.BalancedResourcePlacement/BalancedResourcePlacementExtensions.cs:26-41 | a builder that sets the weights to 30, 40, 20 and 10 passes the check and is registered |
| Configuration.AddBalancedResourcePlacementUnitSum | Orleans.BalancedResourcePlacement/BalancedResourcePlacementExtensions.cs:28-34 | the corrected check: it accepts exactly when the weights sum to 1 |
| Configuration.DefaultWeightsAcceptedByUnitSum | Orleans.BalancedResourcePlacement/BalancedResourcePlacementExtensions.cs:17-34 | the corrected check accepts the defaults |
| Configuration.ChecksDisagree | Orleans.BalancedResourcePlacement/BalancedResourcePlacementExtensions.cs:28-34 | no options pass both the written check and the corrected one |

## Left out

- **The background loops are not modelled:** `ExecuteAsync`, `FetchStatisticsForSiloAsync` and `TaskUtility.RepeatEvery`. They are cancellation, delays and cluster calls. One collection round takes the fetched batch as an input.
- **The placement hint is skipped.** `OnAddActivation` starts after the `GetPlacementHint` and `GetCompatibleSilos` calls, because they call into Orleans. The compatible silos are an input sequence.
- **`Random.Shared.Next` is a parameter** `pick` with `pick < |silos|`. The model does not say that it is uniform.
- **Floating-point rounding is not modelled.** `float` is an exact `real`, so rounding is absent. The infinities and NaN are modelled only in the score, where a total memory of 0 produces them; the signed zero is not kept. Elsewhere a result that would overflow `float` stays a finite real. Likewise `long` is unbounded, so 64-bit overflow is absent.
- **Concurrency is not modelled.** The `ConcurrentDictionary` of the directors is a plain map. A factory of `AddOrUpdate` that runs twice is not modelled.
- **The dependency-injection registrations are reduced to a flag.** The registrations of `AddBalancedResourcePlacement` become the `globalStrategyRegistered` flag and the registered options.
- **Some files are not part of this model:** WindowsEnvironmentStatistics.cs (operating-system counters), SiloRuntimeStatisticsFilter.cs (it wraps a third-party filter) and the KalmanTest, StatisticsFiltering and Sample programs.
- **The adaptive director's `OnAddActivation` is not modelled.** It inherits this from the base class, whose store holds another type.
- Configuration.BuildOptions: the caller's builder mutates the options object in place; here it is a function from the options record to the new one, so a builder that keeps a reference to the options object is not modelled.
- Collector.SiloRuntimeStatisticsCollector.RemoveSilos: `Dictionary` enumeration order is not modelled, so the removal notifications are proved to name each removed silo once, in an order left unspecified.
- Collector.SiloRuntimeStatisticsCollector.UpdateSiloStatistics: the removal order is left unspecified, as for `RemoveSilos`, and `ChangePassReported` requires a batch without repeated silos (the fetch yields one entry per host).
- MatrixKalman.Transpose: requires at least a 4×4 input; a smaller one throws an index exception in the code, and that error path is not modelled.
- MatrixKalman.Multiply: requires `b` to have at least as many rows as `a` has columns; otherwise the code throws an index exception, which is not modelled.
- MatrixKalman.Add: requires `b` to be at least as large as `a`; the index exception otherwise is not modelled.
- MatrixKalman.Subtract: requires `b` to be at least as large as `a`; the index exception otherwise is not modelled.
- MatrixKalman.KalmanFilter.Update: the matrix steps are split into `Predict`, `Correct`, `Gain`, `CorrectedEstimate`, `CorrectedCovariance` and `IdentityMinusGain`, each proved on its own; each takes its arrays as proved to be multiples of the identity.
- MatrixKalman.ConvertToStatistics: out-of-range casts to `long` are not modelled.
- MatrixKalman.KalmanFilter.Update: the covariance recursion diverges (`MatrixKalman.CovarianceDiverges`: 1, −10, 639, −262552960, then above 10^25). In `float` the fifth update's gain overflows to infinity, so the estimate becomes infinite or NaN and the covariance stops being a multiple of the identity; the model keeps exact reals, so that overflow is not captured. The estimate leaves the `long` range even earlier, which `ConvertToStatistics` does not capture either.
- Collector.SiloRuntimeStatisticsCollector.UpdateSiloStatistics: a null report is not modelled; every batch entry carries statistics. In the code, `FirstOrDefault()` of an empty answer yields null: a new silo is then stored and announced with null, and a known silo makes `AreStatisticsEqual` throw a `NullReferenceException` mid-loop, which leaves the round half-applied and sends no removals.
- DKalman.DKalmanFilter.Filter: the running-mean closed form is stated through its invariant (the state is `Run` of the measurements) and the `RunningMean` lemma, not as an ensures of the method.
- DualMode.KalmanFilter.Filter: requires P + Q + 1 ≠ 0; a zero there would be a floating-point division by zero, and every state the dual filter reaches satisfies the requirement.
- StatisticsFilters.KalmanFilter.Filter: requires P + Q + 1 ≠ 0 as above.
- StatisticsFilters.LongKalmanFilter.Filter: requires P + Q + 1 ≠ 0; that would be an integer division by zero, which no reachable state causes.
- Placement.Place: requires `pick < |silos|`, which the random source guarantees.
- Placement.BalancedResourcePlacementDirector.OnAddActivation: requires `pick < |silos|` as `Place` does.

## Findings

| source | as written | input that shows it | evidently intended | confidence | as-written member | corrected member |
|---|---|---|---|---|---|---|
| Orleans.BalancedResourcePlacement/BalancedResourcePlacementExtensions.cs:17-34 | the weights must sum to exactly 100, but the defaults are fractions 0.3, 0.4, 0.2 and 0.1 | `AddBalancedResourcePlacement` with no builder: the sum is 1, so it throws | the weights sum to 1, as the defaults do | high, not executed | Configuration.AddBalancedResourcePlacement, Configuration.DefaultWeightsRejected | Configuration.AddBalancedResourcePlacementUnitSum, Configuration.DefaultWeightsAcceptedByUnitSum |
| Orleans.BalancedResourcePlacement/BalancedResourcePlacementDirector.cs:45-47 | `First()` on an empty score table throws before `?? RandomSilo` can apply | a store holding only silo 1 and the compatible silos [silo 2] | a random compatible silo when none has statistics | high, not executed | Placement.Place, Placement.UnscoredCandidateThrows | Placement.PlaceWithFallback |
