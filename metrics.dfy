/** The records the stroke analyzer produces and consumes, and the Welford
    accumulator it normalizes features with. */
module Metrics {
  import opened Foundation
  import opened Geometry

  /** The sum of squared deviations from the mean: the `M2` that Welford's
      method maintains. */
  ghost function M2(xs: seq<real>): real
  {
    SumSqDev(xs, Mean(xs))
  }

  /** One Welford step for the mean: from the mean of `xs`, the update rule
      gives the mean of `xs + [x]` (`n` is the new count). */
  lemma WelfordMean(xs: seq<real>, x: real, n: real)
    requires n == |xs| as real + 1.0
    ensures Mean(xs + [x]) == Mean(xs) + (x - Mean(xs)) / n
  {
    SumAppend(xs, x);
    MeanTimesCount(xs);
    MeanTimesCount(xs + [x]);
    MeanStepAlgebra(|xs| as real, n, Sum(xs), Sum(xs + [x]), Mean(xs), Mean(xs + [x]), x);
  }

  lemma MeanStepAlgebra(n: real, n': real, s: real, s': real, mu: real, mu': real, x: real)
    requires n >= 0.0 && n' == n + 1.0 && s' == s + x
    requires mu * n == s && mu' * n' == s'
    ensures mu' == mu + (x - mu) / n'
  {
    var q := (x - mu) / n';
    assert q * n' == x - mu;
    assert (mu + q) * n' == mu * n + mu + q * n';
    CancelPositive(mu', mu + q, n');
  }

  /** One Welford step for M2: adding `x` adds the product of its deviations
      from the old and the new mean. */
  lemma WelfordM2(xs: seq<real>, x: real)
    ensures M2(xs + [x]) == M2(xs) + (x - Mean(xs)) * (x - Mean(xs + [x]))
  {
    M2Difference(xs, x);
    MeanProducts(xs, x);
  }

  /** The change in M2 written with sums and means only. */
  lemma M2Difference(xs: seq<real>, x: real)
    ensures M2(xs + [x]) - M2(xs) == x * x - Mean(xs + [x]) * Sum(xs + [x]) + Mean(xs) * Sum(xs)
  {
    M2BySquares(xs);
    M2BySquares(xs + [x]);
    SumAppend(xs, x);
  }

  lemma MeanProducts(xs: seq<real>, x: real)
    ensures x * x - Mean(xs + [x]) * Sum(xs + [x]) + Mean(xs) * Sum(xs) == (x - Mean(xs)) * (x - Mean(xs + [x]))
  {
    SumAppend(xs, x);
    MeanTimesCount(xs);
    MeanTimesCount(xs + [x]);
    MeanProductAlgebra(|xs| as real, |xs + [x]| as real, Sum(xs), Sum(xs + [x]), Mean(xs), Mean(xs + [x]), x);
  }

  /** M2 is the sum of squares less mean times sum. */
  lemma M2BySquares(xs: seq<real>)
    ensures M2(xs) == SumSquares(xs) - Mean(xs) * Sum(xs)
  {
    SumSqDevExpanded(xs, Mean(xs));
    MeanTimesCount(xs);
    DeviationFromSquares(SumSquares(xs), Sum(xs), |xs| as real, Mean(xs));
  }

  lemma MeanProductAlgebra(n: real, n': real, s: real, s': real, mu: real, mu': real, x: real)
    ensures mu * n == s && mu' * n' == s' && n' == n + 1.0 && s' == s + x ==>
            x * x - mu' * s' + mu * s == (x - mu) * (x - mu')
  {
    if mu * n == s && mu' * n' == s' && n' == n + 1.0 && s' == s + x {
      M2Algebra(n, s, mu, mu', x);
    }
  }

  lemma DeviationFromSquares(q: real, s: real, n: real, mu: real)
    requires mu * n == s
    ensures q - 2.0 * mu * s + n * mu * mu == q - mu * s
  {
    assert n * mu * mu == (mu * n) * mu;
  }

  lemma M2Algebra(n: real, s: real, mu: real, mu2: real, x: real)
    requires mu * n == s && mu2 * (n + 1.0) == s + x
    ensures x * x - mu2 * (s + x) == -(mu * s) + (x - mu) * (x - mu2)
  {
    assert (x - mu) * (x - mu2) == x * x - x * mu2 - mu * x + mu * mu2;
    assert mu2 * (s + x) == mu2 * s + mu2 * x;
    assert mu2 * s == mu * (mu2 * n) by { assert mu2 * s == mu2 * (mu * n); }
    assert mu * s == mu * (mu * n);
    assert mu * (mu2 * (n + 1.0)) == mu * (s + x);
    assert mu * (mu2 * (n + 1.0)) == mu * (mu2 * n) + mu * mu2;
  }

  /** `RunningStatistics`, a value type: Welford's online count, sum of
      squared deviations (`m2`) and mean. `push` and `reset` are mutating
      methods of the struct, so they return the updated value here. */
  datatype RunningStatistics = RunningStatistics(count: nat := 0, m2: real := 0.0, mean: real := 0.0)
  {
    /** `push(_:)`: one Welford update. The count grows by one; the first value
        becomes the mean and adds nothing to `m2`. */
    function Push(value: real): (r: RunningStatistics)
      ensures r.count == count + 1
      ensures count == 0 ==> r.mean == value && r.m2 == m2
    {
      var n := count + 1;
      var delta := value - mean;
      var mean' := mean + delta / (n as real);
      var delta2 := value - mean';
      RunningStatistics(n, m2 + delta * delta2, mean')
    }

    /** `stddev`: the sample standard deviation, or 1 while fewer than two
        values have been seen. */
    function Stddev(e: Elementary): (r: real)
      ensures count < 2 ==> r == 1.0
      ensures count >= 2 ==> r == e.sqrt(m2 / ((count - 1) as real))
    {
      if count < 2 then 1.0 else e.sqrt(m2 / ((count - 1) as real))
    }

    /** `zScore(for:)`: how many standard deviations `v` lies from the mean;
        0 when the deviation is too small to divide by. */
    function ZScore(e: Elementary, v: real): (r: real)
      ensures Stddev(e) <= 1e-9 ==> r == 0.0
      ensures Stddev(e) > 1e-9 ==> r * Stddev(e) == v - mean
      ensures v == mean ==> r == 0.0
    {
      var s := Stddev(e);
      if s > 1e-9 then (v - mean) / s else 0.0
    }

    /** `reset()`: the state of an accumulator nothing was pushed into. */
    function Reset(): (r: RunningStatistics)
      ensures r == PushAll(RunningStatistics(), [])
    {
      RunningStatistics(0, 0.0, 0.0)
    }
  }

  /** The accumulator after pushing `xs` into `s`, one value at a time. */
  function PushAll(s: RunningStatistics, xs: seq<real>): RunningStatistics
  {
    if xs == [] then s else PushAll(s, xs[..|xs| - 1]).Push(xs[|xs| - 1])
  }

  /** Welford's method is exact: pushing `xs` into a fresh accumulator gives
      their count, the sum of their squared deviations from the mean, and
      their mean. */
  lemma {:induction false} WelfordExact(xs: seq<real>)
    ensures PushAll(RunningStatistics(), xs) == RunningStatistics(|xs|, M2(xs), Mean(xs))
  {
    if xs != [] {
      var init, x := xs[..|xs| - 1], xs[|xs| - 1];
      WelfordExact(init);
      assert xs == init + [x];
      PushExact(init, x);
    }
  }

  /** One push from the exact statistics of `xs` gives those of `xs + [x]`. */
  lemma PushExact(xs: seq<real>, x: real)
    ensures RunningStatistics(|xs|, M2(xs), Mean(xs)).Push(x) == RunningStatistics(|xs + [x]|, M2(xs + [x]), Mean(xs + [x]))
  {
    WelfordMean(xs, x, |xs| as real + 1.0);
    WelfordM2(xs, x);
  }

  /** Pushing one more value is one more step of the fold. */
  lemma PushAllAppend(s: RunningStatistics, xs: seq<real>, x: real)
    ensures PushAll(s, xs + [x]) == PushAll(s, xs).Push(x)
  {
    assert (xs + [x])[..|xs|] == xs;
  }

  /** The accumulated M2 is a sum of squares, so it is never negative and the
      standard deviation is the square root of a non-negative number. */
  lemma M2NonNegative(xs: seq<real>)
    ensures PushAll(RunningStatistics(), xs).m2 >= 0.0
  {
    WelfordExact(xs);
    SumSqDevNonNegative(xs, Mean(xs));
  }

  /** When `r` is a fresh accumulator after two or more pushes, its `stddev`
      is the sample standard deviation of the values pushed: a non-negative
      root of their squared deviations over n − 1. */
  lemma StddevIsSampleDeviation(e: Elementary, xs: seq<real>, r: RunningStatistics)
    requires SqrtExact(e) && |xs| >= 2 && r == PushAll(RunningStatistics(), xs)
    ensures r.Stddev(e) >= 0.0 && r.Stddev(e) * r.Stddev(e) == M2(xs) / ((|xs| - 1) as real)
  {
    FreshFold(xs);
    DeviationOf(e, r, M2(xs), |xs|);
  }

  /** The count and m2 of the fold are the batch count and squared deviations,
      and m2 is non-negative. */
  lemma FreshFold(xs: seq<real>)
    ensures PushAll(RunningStatistics(), xs).count == |xs|
    ensures PushAll(RunningStatistics(), xs).m2 == M2(xs) >= 0.0
  {
    WelfordExact(xs);
    SumSqDevNonNegative(xs, Mean(xs));
  }

  /** An accumulator holding `n` >= 2 values whose squared deviations sum to
      `m` >= 0 has as `stddev` a non-negative root of m / (n − 1). */
  lemma DeviationOf(e: Elementary, r: RunningStatistics, m: real, n: nat)
    requires SqrtExact(e) && r.count == n >= 2 && r.m2 == m >= 0.0
    ensures r.Stddev(e) >= 0.0 && r.Stddev(e) * r.Stddev(e) == m / ((n - 1) as real)
  {
    var q := m / ((n - 1) as real);
    assert r.Stddev(e) == e.sqrt(q);
  }

  /** The mean after the first value is that value; after a second it is the
      midpoint of the two. */
  lemma MeanOfTwo(a: real, b: real)
    ensures Mean([a]) == a
    ensures Mean([a, b]) == (a + b) / 2.0
  {
    assert [a, b][..1] == [a];
    assert Sum([a]) == a;
  }

  /** One circumplex coordinate pair; both range over [-1, 1]. */
  datatype ValenceArousal = ValenceArousal(valence: real := 0.0, arousal: real := 0.0)

  /** The features computed over the sliding window of touch points. */
  datatype StrokeMetrics = StrokeMetrics(
    instantSpeed: real := 0.0,
    averageSpeed: real := 0.0,
    speedVariance: real := 0.0,
    pressure: real := 0.5,
    curvature: real := 0.0,
    strokeDensity: real := 0.0,
    directionChanges: int := 0,
    pauseFrequency: real := 0.0,
    touchArea: real := 0.0,
    downwardRatio: real := 0.5,
    jitter: real := 0.0,
    averageCurvature: real := 0.0,
    angularity: real := 0.0,
    strokeCount: int := 0,
    speedTrend: real := 0.0,
    pressureVariance: real := 0.0,
    hasPencil: bool := false)

  /** The summary stored with a saved aura. */
  datatype StrokeMetricsSummary = StrokeMetricsSummary(
    totalPoints: int := 0,
    averageSpeed: real := 0.0,
    averagePressure: real := 0.5,
    coveragePercent: real := 0.0)

  /** One sampled touch. Timestamps are seconds on one clock. */
  datatype TouchPoint = TouchPoint(location: Point, timestamp: real, force: real, strokeID: int := 0)

  /** The metrics of an empty window: neutral pressure and direction, every
      other number zero, no pencil. */
  lemma DefaultMetrics()
    ensures var m := StrokeMetrics();
      m.pressure == 0.5 && m.downwardRatio == 0.5 && !m.hasPencil &&
      m.instantSpeed == m.averageSpeed == m.speedVariance == m.curvature == 0.0 &&
      m.strokeDensity == m.pauseFrequency == m.touchArea == m.jitter == 0.0 &&
      m.averageCurvature == m.angularity == m.speedTrend == m.pressureVariance == 0.0 &&
      m.directionChanges == m.strokeCount == 0
  {
  }
}
