# Aura core, modelled in Dafny

Aura is an iPad drawing app that guesses a mood from how you draw and then
shows that mood as a field of particles drifting towards a mood-specific
pattern of anchor points. This project models the logic behind that and
proves properties of it:

- **Stroke analysis** (`StrokeAnalyzer`):
  - a five-second sliding window of touch points tagged with stroke IDs;
  - a dirty-bit metrics cache;
  - two counting passes over adjacent pairs and triplets of points;
  - six Welford accumulators fed on each recomputation, plus two fed per point;
  - z-score clamping onto Russell's valence/arousal circumplex and Gaussian mood scores;
  - softmax followed by exponential smoothing;
  - the 0.6-second debounce that decides when the displayed mood may change.
- **Running statistics** (`RunningStatistics`): Welford's online mean and
  sum of squared deviations, proved equal to the batch mean and batch `m2`.
- **Particles** (`ParticleSystem`, `PatternTransitioner`):
  - the particle population with its FIFO cap of 1200;
  - the per-frame spring step and life decay, with removal of expired particles;
  - retargeting to the nearest anchor, with life boosts.
- **Anchor patterns** (`PatternGenerator`): the six deterministic layouts
  (joy petals, calm rings, anxiety nodes and midpoints, sadness streams,
  anger spikes, and the breathing rings).
- **Moods** (`Mood`): the five-case enumeration, its palettes and labels, and
  `dominant`.
- **Canvas control logic** (the logic extension of `CanvasView`):
  - the anchor-refresh throttle;
  - the breath-factor curve and the breathing prompts;
  - the phase-1 draw-time accumulator;
  - mood inference after each drag event;
  - resetting the canvas.
- **Vector helpers** (`CGPoint+Math`).

Swift classes whose fields change in place (`StrokeAnalyzer`,
`ParticleSystem`, the canvas runtime and the view state) are Dafny classes.
Their methods carry `modifies` clauses and state the new state. Swift value
types (`RunningStatistics`, `TouchPoint`, `StrokeMetrics`, `AuraParticle`,
`CGPoint`, `CGVector`) are datatypes. Each loop of the source is a method
with invariants, proved equal to a specification function, and the
properties are proved about those functions.

Things the model takes as parameters:

- **Elementary functions.** `sin`, `cos`, `exp`, `sqrt` and `pi` are carried
  in an `Elementary` value, and `hypot(dx, dy)` is `sqrt(dx*dx + dy*dy)`.
  A proof that needs an axiom about them takes it as a precondition:
  `exp` is positive (`ExpPositive`), `exp` is increasing (`ExpMonotone`), and
  `sqrt` is the exact non-negative root (`SqrtExact`).
- **Time.** `Date()` is a `now` or `timestamp: real` parameter in seconds.
- **Randomness.** Random draws (jitter, opacity, size, phase, colour index)
  are parameters.
- **Dictionary order.** The iteration order of a Swift dictionary, which
  decides ties in `Mood.dominant`, is a parameter `order`.

The modules follow the source files:

| file | module | models |
|---|---|---|
| foundation.dfy | `Foundation` | the elementary-function record, Swift `min`/`max`/`abs`, `Int %`, `truncatingRemainder`/`fmod`, sums and means, `removeAll(where:)` |
| geometry.dfy | `Geometry` | Aura/Utilities/CGPoint+Math.swift |
| metrics.dfy | `Metrics` | Aura/Models/StrokeMetrics.swift |
| mood.dfy | `Moods` | Aura/Models/Mood.swift |
| stroke_analysis.dfy | `StrokeAnalysis` | window pruning, the two passes and the derived metrics of Aura/Engine/StrokeAnalyzer.swift |
| mood_scoring.dfy | `MoodScoring` | scoring, smoothing and the switch gate of Aura/Engine/StrokeAnalyzer.swift |
| stroke_analyzer.dfy | `Analyzer` | the `StrokeAnalyzer` class itself |
| particle_system.dfy | `Particles` | Aura/Engine/ParticleSystem.swift |
| pattern_transitioner.dfy | `Transitioner` | Aura/Engine/PatternTransitioner.swift |
| pattern_generator.dfy | `Patterns` | Aura/Engine/PatternGenerator.swift |
| canvas_view.dfy | `Canvas` | the logic extension of Aura/Views/CanvasView.swift |

## Model

| member | source | states |
|---|---|---|
| Foundation.Min | Aura/Views/CanvasView.swift:114 | Swift `min`: a lower bound of both arguments, and equal to one of them |
| Foundation.Max | Aura/Engine/ParticleSystem.swift:74 | Swift `max`: an upper bound of both arguments, and equal to one of them |
| Foundation.Abs | Aura/Views/CanvasView.swift:429 | `abs`: non-negative, and equal to the argument or its negation |
| Foundation.Trunc | Aura/Engine/PatternGenerator.swift:62 | conversion of a `Double` to `Int` rounds towards zero; the result is within one of the argument, on the same side of zero |
| Foundation.Rem | Aura/Engine/PatternGenerator.swift:65-66 | Swift `Int %` truncates: the remainder lies in [0, b) for a non-negative dividend and in (−b, 0] for a negative one |
| Foundation.TruncatingRemainder | Aura/Views/CanvasView.swift:550 | `truncatingRemainder`/`fmod`: the result lies in [0, d) for non-negative x and in (−d, 0] for negative x |
| Foundation.RemainderBounds | Aura/Views/CanvasView.swift:550 | x minus the truncated quotient times d lies within d of zero, on the side of x |
| Foundation.SumNonNegative | Aura/Engine/StrokeAnalyzer.swift:180 | a sum of non-negative values is non-negative |
| Foundation.MeanNonNegative | Aura/Engine/StrokeAnalyzer.swift:180 | the mean of non-negative speeds is non-negative |
| Foundation.MeanTimesCount | Aura/Engine/StrokeAnalyzer.swift:180 | the mean times the count is the sum |
| Foundation.SumSqDevNonNegative | Aura/Engine/StrokeAnalyzer.swift:181-182 | the sum of squared deviations from any centre is non-negative |
| Foundation.SumSqDevExpanded | Aura/Models/StrokeMetrics.swift:10-16 | Σ(x−c)² = Σx² − 2cΣx + nc², which links the batch definition of `m2` to the online one |
| Foundation.RemoveAll | Aura/Engine/ParticleSystem.swift:64 | `removeAll(where:)`: it never lengthens, and an element survives exactly when it was present and the predicate rejects it |
| Foundation.RemoveAllAppend | Aura/Engine/ParticleSystem.swift:64 | removal distributes over concatenation, so survivors keep their relative order |
| Foundation.RemoveAllNothingDropped | Aura/Engine/StrokeAnalyzer.swift:96 | when no element matches, the sequence is unchanged |
| Foundation.RemoveAllIdempotent | Aura/Engine/StrokeAnalyzer.swift:96 | removing twice is removing once |
| Geometry.Vector.Normalized | Aura/Utilities/CGPoint+Math.swift:33-37 | the zero vector when the magnitude is not positive; otherwise a vector that scales back to the original by the magnitude |
| Geometry.Point.Lerp | Aura/Utilities/CGPoint+Math.swift:20-25 | `lerp` gives this point at t = 0 and the target at t = 1 |
| Geometry.PlusMinus | Aura/Utilities/CGPoint+Math.swift:12-18 | q + (p − q) = p |
| Geometry.LerpAlongDisplacement | Aura/Utilities/CGPoint+Math.swift:20-25 | `lerp(p, q, t)` is p moved by t times the displacement q − p |
| Geometry.LerpMidpointSymmetric | Aura/Utilities/CGPoint+Math.swift:20-25 | the t = 0.5 interpolation is symmetric in its two points, which makes it the midpoint used by the anxiety layout |
| Geometry.DistanceIsMagnitude | Aura/Utilities/CGPoint+Math.swift:4-6 | `distance(to:)` is the magnitude of the difference, and it is symmetric |
| Geometry.HypotNonNegative | Aura/Utilities/CGPoint+Math.swift:4-6 | `hypot` is non-negative, and it is zero at the origin |
| Geometry.DistanceNonNegative | Aura/Utilities/CGPoint+Math.swift:4-6 | distances are non-negative, and distance(p, p) = 0 |
| Geometry.TimesDistributes | Aura/Utilities/CGPoint+Math.swift:39-45 | vector `*` distributes over vector `+`, and `+` commutes |
| Metrics.RunningStatistics.Push | Aura/Models/StrokeMetrics.swift:10-16 | `push` increases the count by exactly one; the first value becomes the mean and leaves `m2` unchanged |
| Metrics.RunningStatistics.Stddev | Aura/Models/StrokeMetrics.swift:18-20 | exactly 1.0 while the count is below 2, otherwise √(m2/(count−1)) |
| Metrics.RunningStatistics.ZScore | Aura/Models/StrokeMetrics.swift:22-26 | 0 when the deviation is at most 1e-9, otherwise the z-score times the deviation is v − mean; the mean itself scores 0 |
| Metrics.RunningStatistics.Reset | Aura/Models/StrokeMetrics.swift:28-30 | `reset` gives a freshly constructed accumulator, which is an empty push sequence |
| Metrics.WelfordMean | Aura/Models/StrokeMetrics.swift:12-13 | the incremental mean update equals the batch mean of the extended sequence |
| Metrics.WelfordM2 | Aura/Models/StrokeMetrics.swift:14-15 | the incremental `m2` update equals the batch sum of squared deviations of the extended sequence |
| Metrics.M2BySquares | Aura/Models/StrokeMetrics.swift:10-16 | batch `m2` is Σx² − mean·Σx |
| Metrics.WelfordExact | Aura/Models/StrokeMetrics.swift:10-16 | pushing x₁..xₙ into a fresh accumulator gives count n, the batch mean (Σxᵢ)/n and the batch `m2` Σ(xᵢ − mean)² |
| Metrics.PushExact | Aura/Models/StrokeMetrics.swift:10-16 | one push maps the batch statistics of a sequence to those of the sequence extended by the pushed value |
| Metrics.PushAllAppend | Aura/Models/StrokeMetrics.swift:10-16 | pushing a sequence and then one value is one push after the sequence |
| Metrics.M2NonNegative | Aura/Models/StrokeMetrics.swift:10-16 | after any pushes from fresh, `m2` ≥ 0 |
| Metrics.StddevIsSampleDeviation | Aura/Models/StrokeMetrics.swift:18-20 | for the accumulator after two or more pushes from fresh, `stddev` is a non-negative root of the values' squared deviations over n − 1: the sample standard deviation |
| Metrics.MeanOfTwo | Aura/Models/StrokeMetrics.swift:10-16 | the mean of one value is that value, and the mean of two is their average |
| Metrics.DefaultMetrics | Aura/Models/StrokeMetrics.swift:42-62 | the default `StrokeMetrics` has pressure 0.5, downward ratio 0.5, no pencil, and every other field 0 |
| Moods.AllCases | Aura/Models/Mood.swift:3-4 | `allCases` lists five moods, without repetition |
| Moods.AllCasesComplete | Aura/Models/Mood.swift:3-4 | every mood is in `allCases`, so the enumeration is closed |
| Moods.FromRawValue | Aura/Models/Mood.swift:3-6 | a string parses to a mood only when it is that mood's raw value |
| Moods.RawValueRoundTrip | Aura/Models/Mood.swift:3-6 | a mood's raw value parses back to the mood |
| Moods.RawValueInjective | Aura/Models/Mood.swift:3-6 | distinct moods have distinct raw values, so `id` identifies a mood |
| Moods.LabelsAndIconsDistinct | Aura/Models/Mood.swift:8-16 | the labels and the icons of two different moods differ |
| Moods.Colors | Aura/Models/Mood.swift:18-26 | every palette has exactly three colours, each a six-digit hex code |
| Moods.PrimaryColor | Aura/Models/Mood.swift:28 | `color` is one of the mood's colours (the first) |
| Moods.PalettesDisjoint | Aura/Models/Mood.swift:18-26 | no colour appears in the palettes of two different moods |
| Moods.MaxIndex | Aura/Models/Mood.swift:40-42 | the position in iteration order of the first maximal score |
| Moods.Dominant | Aura/Models/Mood.swift:40-42 | `.calm` for an empty map; otherwise a key of the map whose score is ≥ every score, and the first such key in iteration order |
| MoodScoring.ClampZ | Aura/Engine/StrokeAnalyzer.swift:356-358 | always in [−1, 1]; z/2 inside [−2, 2], and ±1 beyond |
| MoodScoring.Clamp1 | Aura/Engine/StrokeAnalyzer.swift:273-274 | the clamp into [−1, 1], which is the identity inside it |
| MoodScoring.ArousalInRange | Aura/Engine/StrokeAnalyzer.swift:260-267 | with clamped feature z-scores, arousal is already in [−1, 1] |
| MoodScoring.ValenceCanExceedRange | Aura/Engine/StrokeAnalyzer.swift:269-274 | clamped feature z-scores can still give a valence above 1, so the second clamp on valence does real work |
| MoodScoring.CircumplexPoint | Aura/Engine/StrokeAnalyzer.swift:260-274 | valence and arousal are clamped into [−1, 1] before Gaussian scoring; the arousal clamp changes nothing |
| MoodScoring.DistanceSquared | Aura/Engine/StrokeAnalyzer.swift:282-284 | the squared distance to a mood centre is non-negative |
| MoodScoring.ScoreTableLookup | Aura/Engine/StrokeAnalyzer.swift:278-286 | after the moods of a list, the loop's table has exactly those moods as keys, each under its own Gaussian score |
| MoodScoring.GaussianScores | Aura/Engine/StrokeAnalyzer.swift:277-288 | the table after all of `Mood.allCases` has every mood as a key |
| MoodScoring.AllMoodsScored | Aura/Engine/StrokeAnalyzer.swift:280-286 | every mood is in the finished table, under its own Gaussian score |
| MoodScoring.GaussianScoresSpec | Aura/Engine/StrokeAnalyzer.swift:277-286 | every mood gets a positive score, and a mood whose centre is nearer scores strictly higher |
| MoodScoring.CentresDistinct | Aura/Engine/StrokeAnalyzer.swift:34-40 | the five mood centres are pairwise distinct |
| MoodScoring.GaussianPeaksAtCentre | Aura/Engine/StrokeAnalyzer.swift:34-41 | with the Gaussian scoring of lines 277-286, at a mood's own centre, that mood strictly outscores every other |
| MoodScoring.Get | Aura/Engine/StrokeAnalyzer.swift:312 | dictionary lookup with a default |
| MoodScoring.MaxOver | Aura/Engine/StrokeAnalyzer.swift:295 | none exactly when no listed key is present; otherwise a present score that bounds every present score |
| MoodScoring.MaxScoreSpec | Aura/Engine/StrokeAnalyzer.swift:295 | `raw.values.max() ?? 0`: 0 for an empty map, otherwise one of the values, and never below any value |
| MoodScoring.SmoothedScoresKeyOrder | Aura/Engine/StrokeAnalyzer.swift:309-317 | the smoothed map has exactly the five moods as keys |
| MoodScoring.ExpSumBounds | Aura/Engine/StrokeAnalyzer.swift:298-302 | the sum of exponentials is positive, and each term is positive and at most the sum |
| MoodScoring.NormalizedInUnit | Aura/Engine/StrokeAnalyzer.swift:304-306 | every softmax entry lies in [0, 1] |
| MoodScoring.SmoothedBetween | Aura/Engine/StrokeAnalyzer.swift:309-317 | 0.35·normalized + 0.65·prev lies between `normalized` and `prev`, where prev defaults to 1/5 |
| MoodScoring.SmoothedScoresInUnit | Aura/Engine/StrokeAnalyzer.swift:309-317 | with priors in [0, 1], every mood has a smoothed score in [0, 1] |
| MoodScoring.WeightSumScaled | Aura/Engine/StrokeAnalyzer.swift:304-306 | the normalized weights of a list of moods sum to their exponentials over the guarded total |
| MoodScoring.WeightsSumToOne | Aura/Engine/StrokeAnalyzer.swift:304-306 | when the exponential sum is at least 1e-9, the softmax weights of the five moods sum to exactly 1 |
| MoodScoring.RawKeyed | Aura/Engine/StrokeAnalyzer.swift:344-351 | the keys are the raw values of the scored moods, and each carries its mood's score |
| MoodScoring.RawKeyedRoundTrip | Aura/Engine/StrokeAnalyzer.swift:344-351 | every key of the scores dictionary parses back to a scored mood, with that mood's score |
| MoodScoring.RawKeyedUnique | Aura/Engine/StrokeAnalyzer.swift:344-351 | any dictionary with exactly those entries is the keyed map, so the result does not depend on iteration order |
| MoodScoring.SwitchGate | Aura/Engine/StrokeAnalyzer.swift:320-332 | an accepted switch records `now`; a rejected one leaves the recorded time unchanged |
| MoodScoring.SwitchGateSpec | Aura/Engine/StrokeAnalyzer.swift:320-332 | the same mood is rejected and changes nothing; the first differing mood is accepted; afterwards a differing mood is accepted iff now − last ≥ 0.6 |
| MoodScoring.AcceptedTimesSpaced | Aura/Engine/StrokeAnalyzer.swift:320-332 | over any sequence of requests, the accepted times are at least 0.6 s apart, and at least 0.6 s after the initial record |
| StrokeAnalysis.KeepRecentSpec | Aura/Engine/StrokeAnalyzer.swift:93-97 | an empty window stays empty; otherwise exactly the points with timestamp ≥ last − 5.0 remain, and the last point survives as the last |
| StrokeAnalysis.KeepRecentLast | Aura/Engine/StrokeAnalyzer.swift:93-97 | pruning filters everything before the last point against the cutoff and keeps the last point |
| StrokeAnalysis.DropBeforeIdempotent | Aura/Engine/StrokeAnalyzer.swift:95-96 | filtering against a fixed cutoff twice is filtering once |
| StrokeAnalysis.KeepRecentPreservesOrder | Aura/Engine/StrokeAnalyzer.swift:93-97 | pruning respects concatenation, so the kept points stay in their original order |
| StrokeAnalysis.KeepRecentIdempotent | Aura/Engine/StrokeAnalyzer.swift:93-97 | pruning a pruned window changes nothing |
| StrokeAnalysis.MovementStepCounts | Aura/Engine/StrokeAnalyzer.swift:130-153 | one pass-1 step counts a movement, and a speed sample, only for a same-stroke pair with dt > 0; the downward and pause counts grow by at most that |
| StrokeAnalysis.MovementCounts | Aura/Engine/StrokeAnalyzer.swift:130-153 | pass 1 counts exactly the same-stroke pairs with dt > 0; `totalMovements` = number of speed samples ≤ n − 1; downward and pause counts ≤ `totalMovements` |
| StrokeAnalysis.SpeedsNonNegative | Aura/Engine/StrokeAnalyzer.swift:137-141 | every speed sample is non-negative |
| StrokeAnalysis.BoundsOrdered | Aura/Engine/StrokeAnalyzer.swift:118-152 | the tracked bounding box has minX ≤ maxX and minY ≤ maxY |
| StrokeAnalysis.TurnStepCounts | Aura/Engine/StrokeAnalyzer.swift:156-178 | one pass-2 step counts a triplet only when all three points share a stroke and both segments have positive length; it keeps angular ≤ direction changes ≤ triplets and a non-negative curvature sum |
| StrokeAnalysis.CurvatureTermNonNegative | Aura/Engine/StrokeAnalyzer.swift:175-176 | each curvature term \|cross\|/(m1·m2) is non-negative |
| StrokeAnalysis.TurnCounts | Aura/Engine/StrokeAnalyzer.swift:156-178 | pass 2 counts exactly the qualifying triplets; angularCount ≤ dirChanges ≤ totalTriplets ≤ n − 2; one curvature term per triplet, with a non-negative sum |
| StrokeAnalysis.SpeedDiffs | Aura/Engine/StrokeAnalyzer.swift:185-193 | the absolute differences of consecutive speeds: one fewer than the speeds (none for fewer than two) |
| StrokeAnalysis.Forces | Aura/Engine/StrokeAnalyzer.swift:205 | the forces of the window's points, in order |
| StrokeAnalysis.StrokeIDs | Aura/Engine/StrokeAnalyzer.swift:212 | exactly the stroke IDs that occur in the window |
| StrokeAnalysis.StrokeIDsCount | Aura/Engine/StrokeAnalyzer.swift:212-227 | a window has at most as many strokes as points, and a non-empty window has at least one |
| StrokeAnalysis.Variance | Aura/Engine/StrokeAnalyzer.swift:181-182 | the population variance (of the speeds here, and of the forces at line 207) is non-negative |
| StrokeAnalysis.Ratio | Aura/Engine/StrokeAnalyzer.swift:222-226 | the fallback when the total is 0; a ratio in [0, 1] when part ≤ total |
| StrokeAnalysis.MeanCurvature | Aura/Engine/StrokeAnalyzer.swift:223 | the average curvature is non-negative when the summed curvature is |
| StrokeAnalysis.PauseFrequency | Aura/Engine/StrokeAnalyzer.swift:220 | pauses per second is non-negative |
| StrokeAnalysis.CoveredArea | Aura/Engine/StrokeAnalyzer.swift:211 | the bounding-box area is non-negative |
| StrokeAnalysis.TouchArea | Aura/Engine/StrokeAnalyzer.swift:210-221 | the covered fraction of the canvas is non-negative, and at most 1 when the box fits the canvas |
| StrokeAnalysis.WindowMetricsRanges | Aura/Engine/StrokeAnalyzer.swift:209-230 | downwardRatio and angularity lie in [0, 1]; downwardRatio is 0.5 without movements; direction changes ≤ n − 2; 1 ≤ strokeCount ≤ n; the variances, curvature, pause frequency and touch area are non-negative |
| StrokeAnalysis.WindowMetricsSpeeds | Aura/Engine/StrokeAnalyzer.swift:180-193 | instant speed, average speed and jitter are non-negative |
| StrokeAnalysis.ScanMovements | Aura/Engine/StrokeAnalyzer.swift:118-153 | the pass-1 loop computes the pass-1 specification over the whole window |
| StrokeAnalysis.ScanTurns | Aura/Engine/StrokeAnalyzer.swift:156-178 | the pass-2 loop computes the pass-2 specification over the whole window |
| StrokeAnalysis.ComputeJitter | Aura/Engine/StrokeAnalyzer.swift:185-193 | the jitter loop computes the RMS of consecutive speed differences |
| Analyzer.SpeedSample | Aura/Engine/StrokeAnalyzer.swift:58-65 | one speed sample exactly when a previous point exists with the same stroke ID and dt > 0, otherwise none |
| Analyzer.FeatureValues | Aura/Engine/StrokeAnalyzer.swift:233-238 | the six features pushed after each recomputation |
| Analyzer.PushEach | Aura/Engine/StrokeAnalyzer.swift:233-238 | one push per accumulator |
| Analyzer.SoftmaxExponentials | Aura/Engine/StrokeAnalyzer.swift:298-302 | the exponential loop gives every mood exp(raw − max), and their sum |
| Analyzer.ExponentialsOver | Aura/Engine/StrokeAnalyzer.swift:298-302 | the same loop over any list of moods gives the table and the sum of their exponentials |
| Analyzer.SoftmaxWeights | Aura/Engine/StrokeAnalyzer.swift:304-306 | every mood is mapped to its exponential over the guarded sum |
| Analyzer.EmaBlend | Aura/Engine/StrokeAnalyzer.swift:309-317 | the blending loop yields the specified smoothed map |
| Analyzer.StrokeAnalyzer.constructor | Aura/Engine/StrokeAnalyzer.swift:7-31 | an empty window, stroke ID 0, no cache and dirty, no scores, no switch time, a 400×800 canvas, and eight fresh accumulators |
| Analyzer.StrokeAnalyzer.SetCanvasSize | Aura/Engine/StrokeAnalyzer.swift:45-47 | only the canvas size changes |
| Analyzer.StrokeAnalyzer.AddPoint | Aura/Engine/StrokeAnalyzer.swift:49-67 | appends exactly one point tagged with the current stroke ID and sets dirty; pushes the force once; pushes a speed only for a same-stroke predecessor with dt > 0 |
| Analyzer.StrokeAnalyzer.EndStroke | Aura/Engine/StrokeAnalyzer.swift:69-72 | increments the stroke ID and sets dirty; no point is removed |
| Analyzer.StrokeAnalyzer.Reset | Aura/Engine/StrokeAnalyzer.swift:74-89 | empty window, stroke ID 0, empty scores, no switch time, no cache and dirty, all eight accumulators fresh |
| Analyzer.StrokeAnalyzer.ResetStats | Aura/Engine/StrokeAnalyzer.swift:81-88 | all eight accumulators back at count 0 |
| Analyzer.StrokeAnalyzer.PruneWindow | Aura/Engine/StrokeAnalyzer.swift:93-97 | the window becomes its pruned form |
| Analyzer.StrokeAnalyzer.ComputeMetrics | Aura/Engine/StrokeAnalyzer.swift:101-243 | a clean present cache is returned with nothing changed; otherwise the window is pruned; with fewer than 2 points the default metrics come back with the cache and accumulators untouched; with 2 or more the window's metrics are cached, the cache is clean and each of the six accumulators gets exactly one push |
| Analyzer.StrokeAnalyzer.Refresh | Aura/Engine/StrokeAnalyzer.swift:105-242 | a recomputation caches the metrics, clears dirty, records the canvas size used, and pushes each feature once |
| Analyzer.StrokeAnalyzer.Store | Aura/Engine/StrokeAnalyzer.swift:240-242 | the cache holds the given metrics for the current window and canvas, and is clean |
| Analyzer.StrokeAnalyzer.Measure | Aura/Engine/StrokeAnalyzer.swift:106-230 | the two passes and the derived features give the window's metrics |
| Analyzer.StrokeAnalyzer.FeedAccumulators | Aura/Engine/StrokeAnalyzer.swift:233-238 | each of the six feature accumulators gets exactly one push |
| Analyzer.ZFeatures | Aura/Engine/StrokeAnalyzer.swift:251-258 | the eight z-scores against the eight accumulators, each clamped into [−1, 1] |
| Analyzer.StrokeAnalyzer.FeaturesOf | Aura/Engine/StrokeAnalyzer.swift:251-258 | the eight feature z-scores against the analyzer's own accumulators, each clamped into [−1, 1] |
| Analyzer.StrokeAnalyzer.ComputeMoodScores | Aura/Engine/StrokeAnalyzer.swift:247-289 | the window is pruned; the metrics are the cached ones on a cache hit, the defaults below two points and otherwise the window's metrics; the features are their clamped z-scores against the accumulators as `computeMetrics` left them; the scores are the Gaussian table of the clamped circumplex point of those features |
| Analyzer.StrokeAnalyzer.GaussianTable | Aura/Engine/StrokeAnalyzer.swift:277-286 | after each pass the loop's table is the table of the moods seen so far, so it ends with every mood's Gaussian score |
| Analyzer.StrokeAnalyzer.SmoothScores | Aura/Engine/StrokeAnalyzer.swift:293-318 | returns the smoothed scores against the previous ones, and they replace `smoothedScores` |
| Analyzer.StrokeAnalyzer.ShouldSwitchMood | Aura/Engine/StrokeAnalyzer.swift:320-332 | the answer and the new switch time are those of the switch gate |
| Analyzer.StrokeAnalyzer.MakeSummary | Aura/Engine/StrokeAnalyzer.swift:334-342 | point count, average speed, pressure and coverage of the current metrics |
| Analyzer.StrokeAnalyzer.MakeScoresDict | Aura/Engine/StrokeAnalyzer.swift:344-351 | the smoothed scores keyed by raw value, with nothing changed; or, when there are none yet, the fresh mood scores keyed by raw value |
| Analyzer.StrokeAnalyzer.KeyByRawValue | Aura/Engine/StrokeAnalyzer.swift:346-349 | the keying loop, in any order, yields the raw-keyed map |
| Particles.PaletteColor | Aura/Engine/ParticleSystem.swift:26-27 | a colour drawn from the mood's palette |
| Particles.NearestIndex | Aura/Engine/ParticleSystem.swift:114-117 | `min(by:)` on distances: an index of minimal distance, the first such |
| Particles.NearestAnchor | Aura/Engine/ParticleSystem.swift:114-117 | the point itself for no anchors; otherwise an anchor whose distance is ≤ that of every anchor |
| Particles.Spawned | Aura/Engine/ParticleSystem.swift:26-40 | a new particle targets the anchor nearest to the un-jittered point, sits at the jittered point, at rest, with full life and a palette colour |
| Particles.SpawnBatch | Aura/Engine/ParticleSystem.swift:25-41 | one particle per draw, in order |
| Particles.Capped | Aura/Engine/ParticleSystem.swift:108-112 | at most 1200 particles, the newest, in order, taken from the back |
| Particles.Stepped | Aura/Engine/ParticleSystem.swift:47-62 | life drops by exactly 0.0008; the position advances by the new velocity; target, colour, opacity, size, phase and birth time are unchanged |
| Particles.Transitioned | Aura/Engine/ParticleSystem.swift:69-75 | the target becomes the nearest new anchor, opacity 0.5, life max(old, 0.7) and a palette colour; position and motion are unchanged |
| Particles.Reassigned | Aura/Engine/ParticleSystem.swift:88-92 | the target becomes the nearest anchor and life max(old, 0.8); nothing else changes |
| Particles.Recolored | Aura/Engine/ParticleSystem.swift:101-105 | a calm colour, the drawn opacity and life max(old, 0.5); nothing else changes |
| Particles.UpdateSurvivors | Aura/Engine/ParticleSystem.swift:45-65 | the count never grows, and every survivor is a stepped particle with positive life, exactly 0.0008 lower |
| Particles.UpdateOrder | Aura/Engine/ParticleSystem.swift:45-65 | updating respects concatenation, so survivors keep their relative order |
| Particles.SpawnCount | Aura/Engine/ParticleSystem.swift:24-43 | from at most 1200, k spawns give min(old + k, 1200) particles: all of them when they fit, the newest 1200 of the batch when it alone overflows |
| Particles.ParticleSystem.constructor | Aura/Engine/ParticleSystem.swift:17-18 | an empty population |
| Particles.ParticleSystem.SpawnParticles | Aura/Engine/ParticleSystem.swift:24-43 | append one spawned particle per draw, then cap |
| Particles.ParticleSystem.Update | Aura/Engine/ParticleSystem.swift:45-65 | step every particle, then remove the expired ones |
| Particles.ParticleSystem.StepParticle | Aura/Engine/ParticleSystem.swift:47-62 | the loop body computes the step |
| Particles.ParticleSystem.TransitionToAnchors | Aura/Engine/ParticleSystem.swift:67-76 | the count is kept, and every particle is transitioned to the new anchors |
| Particles.ParticleSystem.ReassignTargets | Aura/Engine/ParticleSystem.swift:86-93 | nothing changes for no anchors; otherwise the count is kept and every particle is retargeted |
| Particles.ParticleSystem.Clear | Aura/Engine/ParticleSystem.swift:95-97 | the population becomes empty |
| Particles.ParticleSystem.RecolorToCalm | Aura/Engine/ParticleSystem.swift:99-106 | the count is kept, and every particle is recoloured calm |
| Particles.ParticleSystem.EnforceLimit | Aura/Engine/ParticleSystem.swift:108-112 | only the oldest are dropped, from the front, down to 1200; no-op at or below 1200 |
| Transitioner.Transition | Aura/Engine/PatternTransitioner.swift:6-25 | no change for no anchors; otherwise the count is kept and each particle gets the nearest anchor, opacity 0.5, life max(old, 0.7) and a palette colour, at the same position |
| Patterns.JoyShape | Aura/Engine/PatternGenerator.swift:15-34 | 10×10 = 100 points in petal-major order, and the first point of every petal is the centre |
| Patterns.JoyAnchors | Aura/Engine/PatternGenerator.swift:15-34 | the nested loops build the joy layout |
| Patterns.CalmShape | Aura/Engine/PatternGenerator.swift:37-56 | 4×24 = 96 points in ring-major order: index ring·24 + p is point p of that ring |
| Patterns.CalmAnchors | Aura/Engine/PatternGenerator.swift:37-56 | the nested loops build the calm layout |
| Patterns.BreathingShape | Aura/Engine/PatternGenerator.swift:107-123 | 96 points in ring-major order, all exactly at the centre when the breath factor is 0 |
| Patterns.BreathingAnchors | Aura/Engine/PatternGenerator.swift:107-123 | the nested loops build the breathing layout |
| Patterns.FallOffset | Aura/Engine/PatternGenerator.swift:97 | the fall offset lies in [0, 1) for non-negative time |
| Patterns.SadnessShape | Aura/Engine/PatternGenerator.swift:86-104 | 6×15 = 90 points in stream-major order; point p of stream s has x = cx + (s−3)·0.4·r + 8·sin(0.5·s)·p/15, and for non-negative time y lies in [y₀, y₀ + 20) |
| Patterns.SadnessPointPlace | Aura/Engine/PatternGenerator.swift:92-101 | the x formula of one sadness point, and its y band for non-negative time |
| Patterns.SadnessAnchors | Aura/Engine/PatternGenerator.swift:86-104 | the nested loops build the sadness layout |
| Patterns.SpikeLength | Aura/Engine/PatternGenerator.swift:133 | a spike is between 0.6 and 1.0 radii long |
| Patterns.AngerShape | Aura/Engine/PatternGenerator.swift:126-148 | 6×12 = 72 points in spike-major order; point 0 of every spike is the centre; the fork is 0 for p ≤ 9 |
| Patterns.AngerAnchors | Aura/Engine/PatternGenerator.swift:126-148 | the nested loops build the anger layout |
| Patterns.NodeHash | Aura/Engine/PatternGenerator.swift:62-65 | the first node hash lies in [0, 1) for non-negative time |
| Patterns.NodeHash2 | Aura/Engine/PatternGenerator.swift:62-66 | the second node hash lies in [0, 1) for non-negative time |
| Patterns.Nodes | Aura/Engine/PatternGenerator.swift:61-72 | the hashed nodes, one per index, in order |
| Patterns.PairRowMembers | Aura/Engine/PatternGenerator.swift:75-80 | the inner pair loop appends the midpoints of exactly the close later nodes, at most one per node |
| Patterns.PairsCount | Aura/Engine/PatternGenerator.swift:74-81 | the pair loops append at most one midpoint per pair i < j |
| Patterns.PairsMembers | Aura/Engine/PatternGenerator.swift:74-81 | the pair loops append exactly the midpoints of the close pairs |
| Patterns.AnxietyShape | Aura/Engine/PatternGenerator.swift:59-83 | the 20 hashed nodes come first, then only and all midpoints of pairs i < j closer than 0.8·radius, so 20 to 210 points |
| Patterns.AnxietyAnchors | Aura/Engine/PatternGenerator.swift:59-83 | the loops build the anxiety layout |
| Patterns.HashedNodes | Aura/Engine/PatternGenerator.swift:61-72 | the node loop builds the 20 nodes |
| Patterns.AppendMidpoints | Aura/Engine/PatternGenerator.swift:74-81 | the pair loops append the pair midpoints after the nodes |
| Patterns.LayoutCounts | Aura/Engine/PatternGenerator.swift:4-12 | the dispatch is exhaustive, with 100, 96, 20 to 210, 90 and 72 points for joy, calm, anxiety, sadness and anger |
| Patterns.GenerateAnchors | Aura/Engine/PatternGenerator.swift:4-12 | dispatches to the layout of the mood, a deterministic function of the inputs |
| Canvas.AnchorRefreshInterval | Aura/Views/CanvasView.swift:447-454 | 1/12 s for normal mode and 1/24 s for both breathing phases |
| Canvas.CanvasRadius | Aura/Views/CanvasView.swift:325 | 0.35 of the shorter canvas side |
| Canvas.CurrentBreathFactor | Aura/Views/CanvasView.swift:549-561 | the breath factor always lies in [0, 1] |
| Canvas.BreathFactorShape | Aura/Views/CanvasView.swift:549-561 | within a cycle it rises as x/4 on [0, 4), holds at 1 on [4, 8), and falls as 1 − (x−8)/6 on [8, 14), staying positive |
| Canvas.RemainderInCycle | Aura/Views/CanvasView.swift:550 | the remainder of a value already inside the cycle is the value |
| Canvas.BreathFactorPeriodic | Aura/Views/CanvasView.swift:549-561 | periodic with period 14 for non-negative time |
| Canvas.RemainderPeriodic | Aura/Views/CanvasView.swift:550 | the cycle remainder is periodic with period 14 for non-negative time |
| Canvas.BreathFactorBeforeStart | Aura/Views/CanvasView.swift:550 | negative elapsed time counts as 0, which gives factor 0 |
| Canvas.Smoothstep | Aura/Views/CanvasView.swift:234-235 | t²(3 − 2t) stays in [0, 1] on [0, 1] |
| Canvas.SmoothstepMonotone | Aura/Views/CanvasView.swift:234-235 | smoothstep is non-decreasing on [0, 1] |
| Canvas.EffectiveBreathFactor | Aura/Views/CanvasView.swift:230-243 | the phase-2 factor starts at 1.0 and stays in [0.4, 1] for non-negative elapsed time |
| Canvas.EffectiveBreathFactorEase | Aura/Views/CanvasView.swift:232-236 | over the first 1.5 s it eases down monotonically, reaching 0.4 at 1.5 s |
| Canvas.BreathingText | Aura/Views/CanvasView.swift:478-491 | phase 1, and only phase 1, shows "Follow the light..."; the first 1.5 s of phase 2 show "Breathe in..."; the text is always one of the five prompts |
| Canvas.BreathingTextFollowsFactor | Aura/Views/CanvasView.swift:478-491 | in phase 2 the closing line appears exactly once 56 s of cycles have passed; before that "Breathe in..." shows exactly when the cycle phase is below 4, and each prompt matches the rising, holding or falling part of the breath factor |
| Canvas.BreathingTextPeriodic | Aura/Views/CanvasView.swift:478-491 | within the four cycles the phase-2 prompt repeats every 14 s |
| Canvas.DrawTimeIncrement | Aura/Views/CanvasView.swift:112-116 | the increment lies in [0, 0.1]; it is positive only when a previous draw time exists and time moved forward; it is the elapsed time capped at 0.1 |
| Canvas.DrawTimeBounds | Aura/Views/CanvasView.swift:110-121 | over any sequence of drag events the draw time never decreases, and grows by at most 0.1 per event |
| Canvas.CanvasRuntime.constructor | Aura/Views/CanvasView.swift:582-594 | a fresh particle system and analyzer, a zero canvas, no anchors and no refresh bookkeeping |
| Canvas.CanvasRuntime.RefreshThrottle | Aura/Views/CanvasView.swift:420-433 | with anchors made for this mode, centre and radius, a refresh is due iff the mode's interval has passed; so it is not due at the moment the anchors were marked refreshed |
| Canvas.CanvasRuntime.RefreshForced | Aura/Views/CanvasView.swift:426-429 | no anchors, another mode, a centre moved by more than 1.0 or a radius changed by more than 1.0 each force a refresh |
| Canvas.CanvasRuntime.MarkAnchorsRefreshed | Aura/Views/CanvasView.swift:435-445 | records mode, centre, radius and time |
| Canvas.CanvasRuntime.ResetAnchorBookkeeping | Aura/Views/CanvasView.swift:405-417 | no anchors, and all refresh bookkeeping back at zero |
| Canvas.CanvasView.constructor | Aura/Views/CanvasView.swift:6-16 | calm, nothing drawn, not breathing or saving, zero timers |
| Canvas.CanvasView.ResetCanvas | Aura/Views/CanvasView.swift:402-418 | clears the particles, resets the analyzer, sets calm, empties the anchors, zeroes the refresh bookkeeping and ends the breathing exercise, leaving the canvas size and clock alone |
| Canvas.CanvasView.StartBreathing | Aura/Views/CanvasView.swift:493-503 | breathing phase 1 starts now, with no draw time and a calm mood |
| Canvas.CanvasView.TrackBreathingDrawTime | Aura/Views/CanvasView.swift:109-122 | only in phase 1: the draw time grows by the capped increment, the timestamp is recorded, and phase 2 is entered exactly when the total reaches 5 |
| Canvas.CanvasView.EnterBreathingPhase2 | Aura/Views/CanvasView.swift:505-521 | phase 2 starts now with full-size breathing rings, every particle retargeted to them, and the anchors marked refreshed for phase 2 |
| Canvas.CanvasView.EndDrag | Aura/Views/CanvasView.swift:130-137 | in phase 1 the draw timestamp resets to 0; outside breathing the stroke ends |
| Canvas.CanvasView.UpdateMoodInference | Aura/Views/CanvasView.swift:318-339 | the window is pruned; `raw` is the Gaussian table of the clamped circumplex point of the metrics' z-scores against the updated accumulators; the new smoothed scores are `raw` blended into the old ones; the proposal is their dominant mood; the switch gate decides; on rejection the mood, anchors, bookkeeping and particles are unchanged; on acceptance the new mood's layout is installed, marked refreshed, and every particle transitions to it |
| Canvas.CanvasView.ApplyProposal | Aura/Views/CanvasView.swift:323-338 | the switch gate decides on the proposal; on rejection the mood, anchors, bookkeeping and particles are unchanged; on acceptance the state is the switch to the proposal; the analyzer's window, cache, accumulators and smoothed scores are untouched |
| Canvas.CanvasView.ProposeMood | Aura/Views/CanvasView.swift:319-321 | the window is pruned; `raw` is the Gaussian table of the clamped z-scores of the metrics; the smoothed scores become `raw` blended into the previous ones; the dominant mood of the result is returned; the canvas state and the debounce clock are untouched |
| Canvas.CanvasView.RawScores | Aura/Views/CanvasView.swift:319 | `raw` is the Gaussian table of the clamped z-scores of the metrics against the updated accumulators; the window is pruned; nothing outside the analyzer's window, cache and accumulators changes |
| Canvas.CanvasView.SmoothAndPick | Aura/Views/CanvasView.swift:320-321 | smoothed scores replace the old ones, and their dominant mood is picked |
| Canvas.CanvasView.SwitchMood | Aura/Views/CanvasView.swift:323-337 | the accepted branch: the new layout, the particle transition, the refresh mark and the new mood |

## Left out

- Rendering, gestures as UI, navigation and every view `body`: these are presentation.
  - The drag handler's non-breathing branch is not one method. It is `hasDrawn`, `creationStartTime`, then `addPoint`, the particle spawn and mood inference. Its parts are modelled separately: `AddPoint`, `SpawnParticles` and `UpdateMoodInference`.
- `spawnParticles(at:)` and `spawnBreathingParticles(at:)` in the view only pick a count and random draws, then call `ParticleSystem.spawnParticles`. They are not modelled.
- The rest of `updateParticles`, including the anchor regeneration it schedules per frame, is not modelled. `gradualCalmTransition` is called there but defined in no file of the repository, so its behaviour is unknown.
- `breathingGuidePosition` is not modelled: it is trigonometry for drawing.
- Deferred work and timers are concurrency, not sequential logic:
  - the opacity fade that `transitionToAnchors` schedules after 1.5 s (Aura/Engine/ParticleSystem.swift:77-83);
  - the breathing-end dispatch (Aura/Views/CanvasView.swift:265-274);
  - the save confirmation.
- `saveAura` and `renderSnapshot` are not modelled: they persist data and render images through foreign frameworks.
- `angle(to:)` in CGPoint+Math.swift is not used by the core and is not modelled.
- Randomness is a parameter:
  - `randomElement`, `CGFloat.random` and `Double.random` are draws passed in (`SpawnDraw`, `pick`, `opacity`);
  - `UUID()` particle identities are not modelled.
- Analyzer.StrokeAnalyzer.AddPoint: `addPoint` defaults `force` to 0.5, and the drag handler (Aura/Views/CanvasView.swift:125) passes no force, so every pressure sample in the app is 0.5. The model takes `force` as an explicit parameter and does not fix it at 0.5.
- Time is a parameter: `Date()` and `Date.now` are `now`/`timestamp` parameters in seconds.
- Elementary functions are parameters, with only the axioms each proof needs:
  - `sin`, `cos`, `exp` and `sqrt` are uninterpreted;
  - floating-point rounding and `CGFloat`/`Double` precision are not modelled, and reals are exact.
- Geometry.Vector.Normalized: the model proves that the result scales back to the input, not that it has unit length, because √ is uninterpreted.
- Moods.Dominant: the winner among equal scores depends on the dictionary's iteration order, which Swift leaves unspecified. The model takes that order as a parameter.
- Patterns.NodeHash: the anxiety seed `Int(time * 0.5)` is an unbounded integer here. Swift traps on a `Double` to `Int` overflow, which the model ignores.
- Analyzer.StrokeAnalyzer.SetCanvasSize: `setCanvasSize` does not mark the metrics cache dirty. A cached result can therefore describe an older canvas size, and the model keeps that behaviour: the cache records the size it was computed for.
- Analyzer.StrokeAnalyzer.ComputeMoodScores and MakeSummary return the metrics they used as a ghost value, which exists only for the contract. ComputeMoodScores, and the canvas methods that call it, also return the clamped features and the smoothed table as ghost values.
- Canvas.CanvasView.UpdateMoodInference: the contract does not say that the ghost `metrics` are the metrics of the pruned window (the defaults below two points). Analyzer.StrokeAnalyzer.ComputeMoodScores states that link; this contract carries the pruning, the features, the raw scores and the smoothing, but not that link.
- Canvas.CanvasView.ProposeMood: for the same reason, the contract does not restate that the ghost `metrics` are the window's metrics; Analyzer.StrokeAnalyzer.ComputeMoodScores states it.
- Canvas.CanvasView.RawScores: the contract does not say that the ghost `metrics` are the metrics of the pruned window (the defaults below two points); Analyzer.StrokeAnalyzer.ComputeMoodScores, which it calls, states that link. Stating it here as well makes the proof of ProposeMood, its caller, exceed the verifier's resource limit.
- Data records with no behaviour (`ValenceArousal`, `StrokeMetricsSummary`, `TouchPoint`, `AuraParticle`) are datatypes without members.
