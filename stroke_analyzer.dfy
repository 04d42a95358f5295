/** `StrokeAnalyzer`: the object that owns the sliding window, the metrics
    cache, the eight feature accumulators, the smoothed scores and the time of
    the last mood switch. */
module Analyzer {
  import opened Foundation
  import opened Geometry
  import opened Moods
  import opened Metrics
  import opened StrokeAnalysis
  import opened MoodScoring

  /** The speed sample `addPoint` feeds to the speed accumulator: one when the
      previous point exists, belongs to the current stroke and is strictly
      older. */
  function SpeedSample(e: Elementary, ps: seq<TouchPoint>, location: Point, timestamp: real, strokeID: int): (s: seq<real>)
    ensures |s| <= 1
    ensures |s| == 1 <==> ps != [] && timestamp - ps[|ps| - 1].timestamp > 0.0 && ps[|ps| - 1].strokeID == strokeID
  {
    if ps == [] then []
    else
      var prev := ps[|ps| - 1];
      var dt := timestamp - prev.timestamp;
      if dt > 0.0 && prev.strokeID == strokeID then [prev.location.Distance(e, location) / dt] else []
  }

  /** The six features `computeMetrics` feeds to their accumulators, in the
      order it feeds them. */
  function FeatureValues(m: StrokeMetrics): (xs: seq<real>)
    ensures |xs| == 6
  {
    [m.curvature, m.jitter, m.angularity, m.directionChanges as real, m.touchArea, m.speedVariance]
  }

  /** Each accumulator of `stats` after one push of the matching value of `xs`. */
  function PushEach(stats: seq<RunningStatistics>, xs: seq<real>): (r: seq<RunningStatistics>)
    requires |stats| == |xs|
    ensures |r| == |stats|
  {
    seq(|stats|, i requires 0 <= i < |stats| => stats[i].Push(xs[i]))
  }

  /** The clamped z-scores of `m` against eight accumulators given in
      declaration order: speed, pressure, curvature, jitter, angularity,
      direction changes, area and speed variance. */
  function ZFeatures(e: Elementary, st: seq<RunningStatistics>, m: StrokeMetrics): (f: Features)
    requires |st| == 8
    ensures InUnitRange(f)
  {
    Features(
      ClampZ(st[0].ZScore(e, m.averageSpeed)),
      ClampZ(st[1].ZScore(e, m.pressure)),
      ClampZ(st[7].ZScore(e, m.speedVariance)),
      ClampZ(st[3].ZScore(e, m.jitter)),
      ClampZ(st[2].ZScore(e, m.curvature)),
      ClampZ(st[4].ZScore(e, m.angularity)),
      ClampZ(st[5].ZScore(e, m.directionChanges as real)),
      ClampZ(st[6].ZScore(e, m.touchArea)))
  }

  /** The first loop of `smoothScores`: the shifted exponential of every
      mood's score and their running sum. */
  method SoftmaxExponentials(e: Elementary, raw: map<Mood, real>) returns (expScores: map<Mood, real>, expSum: real)
    ensures forall n :: n in expScores && expScores[n] == ExpScore(e, raw, n)
    ensures expSum == ExpSum(e, raw, AllCases())
  {
    expScores, expSum := ExponentialsOver(e, raw, AllCases());
    forall n ensures n in expScores {
      AllCasesComplete(n);
    }
  }

  /** The exponentials of the moods of `ms`, keyed by mood. */
  function ExpTable(e: Elementary, raw: map<Mood, real>, ms: seq<Mood>): map<Mood, real>
  {
    map n | n in ms :: ExpScore(e, raw, n)
  }

  lemma ExpTableStep(e: Elementary, raw: map<Mood, real>, ms: seq<Mood>, i: nat)
    requires i < |ms|
    ensures ExpTable(e, raw, ms[..i + 1]) == ExpTable(e, raw, ms[..i])[ms[i] := ExpScore(e, raw, ms[i])]
  {
    assert ms[..i + 1] == ms[..i] + [ms[i]];
  }

  /** That loop over the moods of `ms`, in order. */
  method ExponentialsOver(e: Elementary, raw: map<Mood, real>, ms: seq<Mood>)
    returns (expScores: map<Mood, real>, expSum: real)
    ensures expScores == ExpTable(e, raw, ms)
    ensures expSum == ExpSum(e, raw, ms)
  {
    var maxScore := MaxScore(raw);
    expScores := map[];
    expSum := 0.0;
    for i := 0 to |ms|
      invariant expScores == ExpTable(e, raw, ms[..i])
      invariant expSum == ExpSum(e, raw, ms[..i])
    {
      var mood := ms[i];
      var x := e.exp(Get(raw, mood, 0.0) - maxScore);
      assert x == ExpScore(e, raw, mood);
      ExpSumStep(e, raw, ms, i);
      ExpTableStep(e, raw, ms, i);
      expScores := expScores[mood := x];
      expSum := expSum + x;
    }
    assert ms[..|ms|] == ms;
  }

  /** The second loop of `smoothScores`: every exponential over the sum. */
  method SoftmaxWeights(e: Elementary, raw: map<Mood, real>, expScores: map<Mood, real>, expSum: real)
    returns (normalized: map<Mood, real>)
    requires forall n :: n in expScores && expScores[n] == ExpScore(e, raw, n)
    requires expSum == ExpSum(e, raw, AllCases())
    ensures forall n :: n in normalized && normalized[n] == Normalized(e, raw, n)
  {
    var all := AllCases();
    normalized := map[];
    for i := 0 to |all|
      invariant forall n :: n in normalized <==> n in all[..i]
      invariant forall n :: n in normalized ==> normalized[n] == Normalized(e, raw, n)
    {
      var mood := all[i];
      normalized := normalized[mood := Share(Get(expScores, mood, 0.0), expSum)];
      assert all[..i + 1] == all[..i] + [mood];
    }
    assert all[..|all|] == all;
    forall n ensures n in normalized {
      AllCasesComplete(n);
    }
  }

  /** The third loop of `smoothScores`: the EMA of every weight with the
      previous score, or with the uniform prior for a mood not scored yet. */
  method EmaBlend(e: Elementary, raw: map<Mood, real>, normalized: map<Mood, real>, prior: map<Mood, real>)
    returns (result: map<Mood, real>)
    requires forall n :: n in normalized && normalized[n] == Normalized(e, raw, n)
    ensures result == SmoothedScores(e, raw, prior)
  {
    var all := AllCases();
    result := map[];
    for i := 0 to |all|
      invariant forall n :: n in result <==> n in all[..i]
      invariant forall n :: n in result ==> result[n] == Smoothed(e, raw, prior, n)
    {
      var mood := all[i];
      var prev := Get(prior, mood, DefaultPrior);
      var incoming := Get(normalized, mood, 0.0);
      result := result[mood := EmaAlpha * incoming + (1.0 - EmaAlpha) * prev];
      assert all[..i + 1] == all[..i] + [mood];
    }
    assert all[..|all|] == all;
  }

  class StrokeAnalyzer {
    const e: Elementary
    var window: seq<TouchPoint>
    var currentStrokeID: int

    var speedStats: RunningStatistics
    var pressureStats: RunningStatistics
    var curvatureStats: RunningStatistics
    var jitterStats: RunningStatistics
    var angularityStats: RunningStatistics
    var dirChangeStats: RunningStatistics
    var areaStats: RunningStatistics
    var speedVarianceStats: RunningStatistics

    var cachedMetrics: Option<StrokeMetrics>
    var metricsDirty: bool
    var smoothedScores: map<Mood, real>
    var lastMoodChangeTime: Option<real>
    var canvasWidth: real
    var canvasHeight: real
    /** The canvas size the cached metrics were computed for. */
    ghost var cachedWidth: real
    ghost var cachedHeight: real

    /** A clean cache holds the metrics of the current window, which is
        already pruned and has at least two points. */
    ghost predicate Valid()
      reads this`metricsDirty, this`cachedMetrics, this`window, this`cachedWidth, this`cachedHeight
    {
      !metricsDirty ==>
        cachedMetrics.Some? && |window| >= 2 && KeepRecent(window) == window &&
        cachedMetrics.value == WindowMetrics(e, window, cachedWidth, cachedHeight)
    }

    constructor (e: Elementary)
      ensures Valid()
      ensures this.e == e && window == [] && currentStrokeID == 0
      ensures cachedMetrics.None? && metricsDirty && smoothedScores == map[] && lastMoodChangeTime.None?
      ensures canvasWidth == 400.0 && canvasHeight == 800.0
      ensures AllStats() == seq(8, _ => RunningStatistics())
    {
      this.e := e;
      window := [];
      currentStrokeID := 0;
      speedStats, pressureStats := RunningStatistics(), RunningStatistics();
      curvatureStats, jitterStats := RunningStatistics(), RunningStatistics();
      angularityStats, dirChangeStats := RunningStatistics(), RunningStatistics();
      areaStats, speedVarianceStats := RunningStatistics(), RunningStatistics();
      cachedMetrics := None;
      metricsDirty := true;
      smoothedScores := map[];
      lastMoodChangeTime := None;
      canvasWidth, canvasHeight := 400.0, 800.0;
      cachedWidth, cachedHeight := 400.0, 800.0;
    }

    /** `setCanvasSize`: the cache is not invalidated, so a clean cache keeps
        the metrics of the previous size. */
    method SetCanvasSize(width: real, height: real)
      requires Valid()
      modifies this`canvasWidth, this`canvasHeight
      ensures Valid() && canvasWidth == width && canvasHeight == height
    {
      canvasWidth, canvasHeight := width, height;
    }

    /** `addPoint`: appends one point of the current stroke, dirties the cache,
        always feeds the pressure accumulator and feeds the speed accumulator
        when the previous point allows a speed. */
    method AddPoint(location: Point, timestamp: real, force: real)
      modifies this`window, this`metricsDirty, this`speedStats, this`pressureStats
      ensures Valid() && metricsDirty
      ensures window == old(window) + [TouchPoint(location, timestamp, force, currentStrokeID)]
      ensures pressureStats == old(pressureStats).Push(force)
      ensures speedStats == PushAll(old(speedStats), SpeedSample(e, old(window), location, timestamp, currentStrokeID))
    {
      var point := TouchPoint(location, timestamp, force, currentStrokeID);
      window := window + [point];
      metricsDirty := true;
      if |window| >= 2 {
        var prev := window[|window| - 2];
        var dist := prev.location.Distance(e, location);
        var dt := timestamp - prev.timestamp;
        if dt > 0.0 && prev.strokeID == currentStrokeID {
          assert [dist / dt][..0] == [];
          speedStats := speedStats.Push(dist / dt);
        }
      }
      pressureStats := pressureStats.Push(force);
    }

    /** `endStroke`: later points belong to a new stroke; no point is removed. */
    method EndStroke()
      modifies this`currentStrokeID, this`metricsDirty
      ensures Valid() && metricsDirty && currentStrokeID == old(currentStrokeID) + 1
    {
      currentStrokeID := currentStrokeID + 1;
      metricsDirty := true;
    }

    /** `reset`: back to the state of a fresh analyzer, canvas size aside. */
    method Reset()
      modifies this`window, this`currentStrokeID, this`smoothedScores, this`lastMoodChangeTime,
               this`cachedMetrics, this`metricsDirty, this`speedStats, this`pressureStats,
               this`curvatureStats, this`jitterStats, this`angularityStats, this`dirChangeStats,
               this`areaStats, this`speedVarianceStats
      ensures Valid()
      ensures window == [] && currentStrokeID == 0 && smoothedScores == map[] && lastMoodChangeTime.None?
      ensures cachedMetrics.None? && metricsDirty
      ensures AllStats() == seq(8, _ => RunningStatistics())
    {
      window := [];
      currentStrokeID := 0;
      smoothedScores := map[];
      lastMoodChangeTime := None;
      cachedMetrics := None;
      metricsDirty := true;
      ResetStats();
    }

    /** The eight accumulators, in declaration order. */
    ghost function AllStats(): (st: seq<RunningStatistics>)
      reads this`speedStats, this`pressureStats, this`speedVarianceStats, this`jitterStats,
            this`curvatureStats, this`angularityStats, this`dirChangeStats, this`areaStats
      ensures |st| == 8
    {
      [speedStats, pressureStats, curvatureStats, jitterStats, angularityStats, dirChangeStats, areaStats, speedVarianceStats]
    }

    /** The eight `reset()` calls of `reset`. */
    method ResetStats()
      modifies this`speedStats, this`pressureStats, this`curvatureStats, this`jitterStats,
               this`angularityStats, this`dirChangeStats, this`areaStats, this`speedVarianceStats
      ensures AllStats() == seq(8, _ => RunningStatistics())
    {
      speedStats := speedStats.Reset();
      pressureStats := pressureStats.Reset();
      curvatureStats := curvatureStats.Reset();
      jitterStats := jitterStats.Reset();
      angularityStats := angularityStats.Reset();
      dirChangeStats := dirChangeStats.Reset();
      areaStats := areaStats.Reset();
      speedVarianceStats := speedVarianceStats.Reset();
    }

    /** `pruneWindow`: drops the points more than five seconds older than the
        newest. */
    method PruneWindow()
      requires Valid()
      modifies this`window
      ensures Valid() && window == KeepRecent(old(window))
    {
      if window == [] {
        return;
      }
      var cutoff := window[|window| - 1].timestamp - WindowDuration;
      window := RemoveAll(window, Stale(cutoff));
    }

    /** Whether `computeMetrics` can answer from the cache. */
    ghost predicate CacheHit()
      reads this
    {
      !metricsDirty && cachedMetrics.Some?
    }

    /** `computeMetrics`: a clean cache is returned as it is; otherwise the
        window is pruned, a window of fewer than two points gives the default
        metrics and leaves cache and accumulators alone, and a longer one is
        measured, fed to six accumulators and cached for the current canvas
        size. Either way a window of two points or more ends with a clean
        cache holding the result, so by `Valid` the result is the metrics of
        the window at the cached size. */
    method ComputeMetrics() returns (m: StrokeMetrics)
      requires Valid()
      modifies this`window, this`cachedMetrics, this`metricsDirty, this`cachedWidth, this`cachedHeight,
               this`curvatureStats, this`jitterStats, this`angularityStats, this`dirChangeStats,
               this`areaStats, this`speedVarianceStats
      ensures Valid() && window == KeepRecent(old(window))
      ensures |window| >= 2 ==> cachedMetrics == Some(m) && !metricsDirty && m == WindowMetrics(e, window, cachedWidth, cachedHeight)
      ensures |window| < 2 ==> m == StrokeMetrics() && metricsDirty
      ensures old(CacheHit()) ==> m == old(cachedMetrics.value) && unchanged(this)
      ensures !old(CacheHit()) && |window| < 2 ==>
        unchanged(this`cachedMetrics, this`cachedWidth, this`cachedHeight) && FeatureStats() == old(FeatureStats())
      ensures !old(CacheHit()) && |window| >= 2 ==>
        cachedWidth == canvasWidth && cachedHeight == canvasHeight &&
        FeatureStats() == PushEach(old(FeatureStats()), FeatureValues(m))
    {
      if !metricsDirty && cachedMetrics.Some? {
        return cachedMetrics.value;
      }
      PruneWindow();
      if |window| < 2 {
        return StrokeMetrics();
      }
      KeepRecentIdempotent(old(window));
      m := Refresh();
    }

    /** The last part of `computeMetrics`, on a pruned window of at least two
        points: measure it, cache the result for the current canvas size and
        feed the accumulators. */
    method Refresh() returns (m: StrokeMetrics)
      requires |window| >= 2 && KeepRecent(window) == window
      modifies this`cachedMetrics, this`metricsDirty, this`cachedWidth, this`cachedHeight,
               this`curvatureStats, this`jitterStats, this`angularityStats, this`dirChangeStats,
               this`areaStats, this`speedVarianceStats
      ensures Valid() && cachedMetrics == Some(m) && !metricsDirty
      ensures cachedWidth == canvasWidth && cachedHeight == canvasHeight
      ensures FeatureStats() == PushEach(old(FeatureStats()), FeatureValues(m))
    {
      m := Measure();
      FeedAccumulators(m);
      Store(m);
    }

    /** Caches the metrics just measured, with the canvas size they were
        measured for. */
    method Store(m: StrokeMetrics)
      requires |window| >= 2 && KeepRecent(window) == window
      requires m == WindowMetrics(e, window, canvasWidth, canvasHeight)
      modifies this`cachedMetrics, this`metricsDirty, this`cachedWidth, this`cachedHeight
      ensures Valid() && cachedMetrics == Some(m) && !metricsDirty
      ensures cachedWidth == canvasWidth && cachedHeight == canvasHeight
    {
      cachedMetrics := Some(m);
      metricsDirty := false;
      cachedWidth, cachedHeight := canvasWidth, canvasHeight;
    }

    /** The six accumulators `computeMetrics` feeds, in the order it feeds them. */
    ghost function FeatureStats(): seq<RunningStatistics>
      reads this
    {
      [curvatureStats, jitterStats, angularityStats, dirChangeStats, areaStats, speedVarianceStats]
    }

    /** The two passes, the jitter loop and the derived features of
        `computeMetrics` over the current window. */
    method Measure() returns (m: StrokeMetrics)
      requires |window| >= 2
      ensures m == WindowMetrics(e, window, canvasWidth, canvasHeight)
    {
      var mv := ScanMovements(e, window);
      var tr := ScanTurns(e, window);
      var jitter := ComputeJitter(e, mv.speeds);
      m := Derived(window, mv, tr, jitter, canvasWidth, canvasHeight);
    }

    /** The six accumulator pushes at the end of `computeMetrics`. */
    method FeedAccumulators(m: StrokeMetrics)
      modifies this`curvatureStats, this`jitterStats, this`angularityStats, this`dirChangeStats,
               this`areaStats, this`speedVarianceStats
      ensures FeatureStats() == PushEach(old(FeatureStats()), FeatureValues(m))
    {
      curvatureStats := curvatureStats.Push(m.curvature);
      jitterStats := jitterStats.Push(m.jitter);
      angularityStats := angularityStats.Push(m.angularity);
      dirChangeStats := dirChangeStats.Push(m.directionChanges as real);
      areaStats := areaStats.Push(m.touchArea);
      speedVarianceStats := speedVarianceStats.Push(m.speedVariance);
    }

    /** The clamped z-scores of `m` against the accumulators. */
    function FeaturesOf(m: StrokeMetrics): (f: Features)
      reads this`speedStats, this`pressureStats, this`speedVarianceStats, this`jitterStats,
            this`curvatureStats, this`angularityStats, this`dirChangeStats, this`areaStats
      ensures InUnitRange(f)
    {
      ZFeatures(e, [speedStats, pressureStats, curvatureStats, jitterStats, angularityStats, dirChangeStats, areaStats, speedVarianceStats], m)
    }

    /** `computeMoodScores`: the metrics, their clamped z-scores, the clamped
        circumplex point and one Gaussian score per mood. `metrics` is what
        the call to `computeMetrics` returned and `features` their clamped
        z-scores against the accumulators it fed. */
    method ComputeMoodScores() returns (scores: map<Mood, real>, ghost metrics: StrokeMetrics, ghost features: Features)
      requires Valid()
      modifies this`window, this`cachedMetrics, this`metricsDirty, this`cachedWidth, this`cachedHeight,
               this`curvatureStats, this`jitterStats, this`angularityStats, this`dirChangeStats,
               this`areaStats, this`speedVarianceStats
      ensures Valid() && window == KeepRecent(old(window))
      ensures old(CacheHit()) ==> metrics == old(cachedMetrics.value)
      ensures |window| < 2 ==> metrics == StrokeMetrics()
      ensures |window| >= 2 ==> metrics == WindowMetrics(e, window, cachedWidth, cachedHeight)
      ensures !old(CacheHit()) && |window| >= 2 ==> cachedWidth == canvasWidth && cachedHeight == canvasHeight
      ensures features == FeaturesOf(metrics)
      ensures scores == GaussianScores(e, CircumplexPoint(metrics.hasPencil, features))
    {
      var m := ComputeMetrics();
      metrics := m;
      features := FeaturesOf(m);
      scores := GaussianTable(CircumplexPoint(m.hasPencil, FeaturesOf(m)));
    }

    /** The loop of `computeMoodScores` over `Mood.allCases`. */
    method GaussianTable(va: ValenceArousal) returns (scores: map<Mood, real>)
      ensures scores == GaussianScores(e, va)
    {
      var all := AllCases();
      scores := map[];
      for i := 0 to |all|
        invariant scores == ScoreTable(e, va, all[..i])
      {
        var mood := all[i];
        var distSq := DistanceSquared(va, mood);
        scores := scores[mood := Gaussian(e, distSq)];
        assert all[..i + 1][..i] == all[..i];
      }
      assert all[..|all|] == all;
    }

    /** `smoothScores`: softmax of `raw` blended into the previous smoothed
        scores, which the result replaces. */
    method SmoothScores(raw: map<Mood, real>) returns (result: map<Mood, real>)
      modifies this`smoothedScores
      ensures result == SmoothedScores(e, raw, old(smoothedScores)) && smoothedScores == result
    {
      var expScores, expSum := SoftmaxExponentials(e, raw);
      var normalized := SoftmaxWeights(e, raw, expScores, expSum);
      result := EmaBlend(e, raw, normalized, smoothedScores);
      smoothedScores := result;
    }

    /** `shouldSwitchMood(to:current:)` at time `now`. */
    method ShouldSwitchMood(newMood: Mood, current: Mood, now: real) returns (accept: bool)
      modifies this`lastMoodChangeTime
      ensures Gate(accept, lastMoodChangeTime) == SwitchGate(old(lastMoodChangeTime), newMood, current, now)
    {
      if newMood == current {
        return false;
      }
      if lastMoodChangeTime.Some? {
        if now - lastMoodChangeTime.value >= MoodSwitchDelay {
          lastMoodChangeTime := Some(now);
          return true;
        }
        return false;
      }
      lastMoodChangeTime := Some(now);
      return true;
    }

    /** `makeSummary`: point count of the pruned window and three of the
        current metrics. */
    method MakeSummary() returns (summary: StrokeMetricsSummary, ghost metrics: StrokeMetrics)
      requires Valid()
      modifies this`window, this`cachedMetrics, this`metricsDirty, this`cachedWidth, this`cachedHeight,
               this`curvatureStats, this`jitterStats, this`angularityStats, this`dirChangeStats,
               this`areaStats, this`speedVarianceStats
      ensures Valid() && window == KeepRecent(old(window))
      ensures old(CacheHit()) ==> metrics == old(cachedMetrics.value)
      ensures |window| < 2 ==> metrics == StrokeMetrics()
      ensures |window| >= 2 ==> metrics == WindowMetrics(e, window, cachedWidth, cachedHeight)
      ensures !old(CacheHit()) && |window| >= 2 ==> cachedWidth == canvasWidth && cachedHeight == canvasHeight
      ensures summary == StrokeMetricsSummary(|window|, metrics.averageSpeed, metrics.pressure, metrics.touchArea)
    {
      var m := ComputeMetrics();
      metrics := m;
      summary := StrokeMetricsSummary(
        totalPoints := |window|,
        averageSpeed := m.averageSpeed,
        averagePressure := m.pressure,
        coveragePercent := m.touchArea);
    }

    /** `makeScoresDict`: the smoothed scores, or fresh scores when there are
        none yet, keyed by raw value. */
    method MakeScoresDict() returns (dict: map<string, real>, ghost scores: map<Mood, real>, ghost metrics: StrokeMetrics)
      requires Valid()
      modifies this`window, this`cachedMetrics, this`metricsDirty, this`cachedWidth, this`cachedHeight,
               this`curvatureStats, this`jitterStats, this`angularityStats, this`dirChangeStats,
               this`areaStats, this`speedVarianceStats
      ensures Valid()
      ensures old(smoothedScores) != map[] ==> scores == old(smoothedScores) && unchanged(this)
      ensures old(smoothedScores) == map[] ==>
        window == KeepRecent(old(window)) &&
        (|window| < 2 ==> metrics == StrokeMetrics()) &&
        (|window| >= 2 ==> metrics == WindowMetrics(e, window, cachedWidth, cachedHeight)) &&
        scores == GaussianScores(e, CircumplexPoint(metrics.hasPencil, FeaturesOf(metrics)))
      ensures dict == RawKeyed(scores)
    {
      var source: map<Mood, real>;
      if smoothedScores == map[] {
        ghost var features;
        source, metrics, features := ComputeMoodScores();
      } else {
        source, metrics := smoothedScores, StrokeMetrics();
      }
      scores := source;
      dict := KeyByRawValue(source);
    }

    /** The loop of `makeScoresDict` over the entries of `source`, in any order. */
    method KeyByRawValue(source: map<Mood, real>) returns (dict: map<string, real>)
      ensures dict == RawKeyed(source)
    {
      dict := map[];
      var todo := source.Keys;
      while todo != {}
        invariant todo <= source.Keys
        invariant forall n :: n in source && n !in todo ==> RawValue(n) in dict && dict[RawValue(n)] == source[n]
        invariant forall k :: k in dict ==> FromRawValue(k).Some? && FromRawValue(k).value in source && FromRawValue(k).value !in todo
        decreases |todo|
      {
        var mood :| mood in todo;
        RawValueRoundTrip(mood);
        dict := dict[RawValue(mood) := source[mood]];
        todo := todo - {mood};
      }
      RawKeyedUnique(dict, source);
    }
  }
}
