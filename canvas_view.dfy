/** The control logic of the drawing canvas: the anchor-refresh throttle,
    the guided-breathing clock and prompts, the phase-1 draw-time
    accumulation, the reset, and the mood inference that retargets the
    particles. Rendering and gestures as UI are not modelled. */
module Canvas {
  import opened Foundation
  import opened Geometry
  import opened Moods
  import opened MoodScoring
  import opened Particles
  import opened Patterns
  import opened Metrics
  import opened Analyzer
  import opened StrokeAnalysis

  const NormalAnchorRefreshInterval: real := 1.0 / 12.0
  const BreathingAnchorRefreshInterval: real := 1.0 / 24.0

  /** A breath of 4 s in, 4 s held and 6 s out. */
  const BreathCycleDuration: real := 14.0
  const TotalCycles: nat := 4
  const Phase2TransitionDuration: real := 1.5
  /** The transition, the cycles and a 2 s outro. */
  const TotalBreathingDuration: real := Phase2TransitionDuration + BreathCycleDuration * (TotalCycles as real) + 2.0

  /** What a set of anchors was generated for. */
  datatype AnchorRefreshMode = Normal(mood: Mood) | BreathingPhase1 | BreathingPhase2

  /** `anchorRefreshInterval(for:)`: twelve refreshes a second in normal
      drawing, twenty-four in either breathing phase. */
  function AnchorRefreshInterval(mode: AnchorRefreshMode): (r: real)
    ensures r > 0.0
    ensures mode.Normal? ==> r == 1.0 / 12.0
    ensures !mode.Normal? ==> r == 1.0 / 24.0
  {
    match mode
    case Normal(_) => NormalAnchorRefreshInterval
    case BreathingPhase1 => BreathingAnchorRefreshInterval
    case BreathingPhase2 => BreathingAnchorRefreshInterval
  }

  /** The centre of a canvas of the given size. */
  function CanvasCenter(width: real, height: real): Point
  {
    Point(width / 2.0, height / 2.0)
  }

  /** The pattern radius of a canvas of the given size. */
  function CanvasRadius(width: real, height: real): (r: real)
    ensures width >= 0.0 && height >= 0.0 ==> 0.0 <= r <= width * 0.35 && r <= height * 0.35
  {
    Min(width, height) * 0.35
  }

  // ---------------------------------------------------------------------
  // The breathing clock

  /** `currentBreathFactor(elapsed:)`: the breath's depth in [0, 1] within
      the 14 s cycle; a negative time counts as 0. */
  function CurrentBreathFactor(elapsed: real): (r: real)
    ensures 0.0 <= r <= 1.0
  {
    var phase := TruncatingRemainder(Max(elapsed, 0.0), BreathCycleDuration);
    if phase < 4.0 then phase / 4.0
    else if phase < 8.0 then 1.0
    else 1.0 - (phase - 8.0) / 6.0
  }

  /** Within one cycle the factor rises linearly from 0 over the first 4 s,
      holds at 1 for 4 s and falls linearly over the last 6 s, towards 0. */
  lemma BreathFactorShape(x: real)
    requires 0.0 <= x < BreathCycleDuration
    ensures x < 4.0 ==> CurrentBreathFactor(x) == x / 4.0
    ensures 4.0 <= x < 8.0 ==> CurrentBreathFactor(x) == 1.0
    ensures 8.0 <= x ==> CurrentBreathFactor(x) == 1.0 - (x - 8.0) / 6.0 && CurrentBreathFactor(x) > 0.0
  {
    RemainderInCycle(x);
  }

  lemma RemainderInCycle(x: real)
    requires 0.0 <= x < BreathCycleDuration
    ensures TruncatingRemainder(x, BreathCycleDuration) == x
  {
    assert 0.0 <= x / BreathCycleDuration < 1.0;
    assert Trunc(x / BreathCycleDuration) == 0;
  }

  /** The factor repeats every cycle. */
  lemma BreathFactorPeriodic(x: real)
    requires x >= 0.0
    ensures CurrentBreathFactor(x + BreathCycleDuration) == CurrentBreathFactor(x)
  {
    RemainderPeriodic(x);
  }

  lemma RemainderPeriodic(x: real)
    requires x >= 0.0
    ensures TruncatingRemainder(x + BreathCycleDuration, BreathCycleDuration) == TruncatingRemainder(x, BreathCycleDuration)
  {
    var d := BreathCycleDuration;
    assert (x + d) / d == x / d + 1.0;
    assert Trunc((x + d) / d) == Trunc(x / d) + 1;
  }

  /** A time before the start of the cycles reads as its start. */
  lemma BreathFactorBeforeStart(x: real)
    requires x < 0.0
    ensures CurrentBreathFactor(x) == CurrentBreathFactor(0.0) == 0.0
  {
    RemainderInCycle(0.0);
  }

  /** `t * t * (3 - 2 * t)`. */
  function Smoothstep(t: real): (r: real)
    ensures 0.0 <= t <= 1.0 ==> 0.0 <= r <= 1.0
  {
    SmoothstepBounds(t);
    t * t * (3.0 - 2.0 * t)
  }

  lemma SmoothstepBounds(t: real)
    ensures 0.0 <= t <= 1.0 ==> 0.0 <= t * t * (3.0 - 2.0 * t) <= 1.0
  {
    if 0.0 <= t <= 1.0 {
      ProductNonNegative(t, t);
      ProductNonNegative(t * t, 3.0 - 2.0 * t);
      ProductNonNegative(1.0 - t, 1.0 - t);
      ProductNonNegative((1.0 - t) * (1.0 - t), 1.0 + 2.0 * t);
      assert 1.0 - t * t * (3.0 - 2.0 * t) == (1.0 - t) * (1.0 - t) * (1.0 + 2.0 * t);
    }
  }

  lemma ProductNonNegative(a: real, b: real)
    requires a >= 0.0 && b >= 0.0
    ensures a * b >= 0.0
  {
  }

  /** The smoothstep never decreases on [0, 1]. */
  lemma SmoothstepMonotone(a: real, b: real)
    requires 0.0 <= a <= b <= 1.0
    ensures Smoothstep(a) <= Smoothstep(b)
  {
    var s := 3.0 * (a + b) - 2.0 * (a * a + a * b + b * b);
    assert Smoothstep(b) - Smoothstep(a) == (b - a) * s;
    ProductNonNegative(a, 1.0 - a);
    ProductNonNegative(b, 1.0 - b);
    ProductNonNegative(a, 1.0 - b);
    ProductNonNegative(b, 1.0 - a);
    assert s >= 0.0;
    ProductNonNegative(b - a, s);
  }

  /** The breath factor of phase 2, `effectiveBreathFactor` in `updateParticles`:
      first an ease from 1 down to 0.4, then `0.4 + 0.6 * factor`. */
  function EffectiveBreathFactor(elapsed: real): (r: real)
    ensures 0.0 <= elapsed ==> 0.4 <= r <= 1.0
    ensures elapsed == 0.0 ==> r == 1.0
  {
    if elapsed < Phase2TransitionDuration then
      var t := elapsed / Phase2TransitionDuration;
      var eased := Smoothstep(t);
      1.0 - eased * 0.6
    else
      var cycleElapsed := elapsed - Phase2TransitionDuration;
      0.4 + 0.6 * CurrentBreathFactor(cycleElapsed)
  }

  /** The ease never rises, and it meets the cycles at 0.4 exactly: the
      first cycle starts from an empty breath. */
  lemma EffectiveBreathFactorEase(a: real, b: real)
    requires 0.0 <= a <= b < Phase2TransitionDuration
    ensures EffectiveBreathFactor(b) <= EffectiveBreathFactor(a)
    ensures EffectiveBreathFactor(Phase2TransitionDuration) == 0.4
  {
    SmoothstepMonotone(a / Phase2TransitionDuration, b / Phase2TransitionDuration);
    BreathFactorShape(0.0);
  }

  const FollowTheLight: string := "Follow the light..."
  const BreatheIn: string := "Breathe in..."
  const HoldGently: string := "Hold gently..."
  const LetItGo: string := "Let it go..."
  const Closing: string := "You're here. You're okay."

  /** `breathingText`, for the phase flag and the time since the breathing
      clock was last started. */
  function BreathingText(breathingPhase2: bool, elapsed: real): (r: string)
    ensures r == FollowTheLight <==> !breathingPhase2
    ensures breathingPhase2 && elapsed < Phase2TransitionDuration ==> r == BreatheIn
    ensures r in {FollowTheLight, BreatheIn, HoldGently, LetItGo, Closing}
  {
    if !breathingPhase2 then FollowTheLight
    else if elapsed < Phase2TransitionDuration then BreatheIn
    else
      var cycleElapsed := elapsed - Phase2TransitionDuration;
      var totalActive := BreathCycleDuration * (TotalCycles as real);
      if cycleElapsed >= totalActive then Closing
      else
        var phase := TruncatingRemainder(cycleElapsed, BreathCycleDuration);
        if phase < 4.0 then BreatheIn
        else if phase < 8.0 then HoldGently
        else LetItGo
  }

  /** During the cycles the prompt follows the breath factor: "Breathe in"
      while it rises, "Hold gently" while it holds at 1, "Let it go" while it
      falls; after the four cycles the closing line stays. */
  lemma BreathingTextFollowsFactor(elapsed: real)
    requires elapsed >= Phase2TransitionDuration
    ensures var c := elapsed - Phase2TransitionDuration;
      var f := CurrentBreathFactor(c);
      var phase := TruncatingRemainder(c, BreathCycleDuration);
      (c >= 56.0 <==> BreathingText(true, elapsed) == Closing) &&
      (c < 56.0 ==>
        (BreathingText(true, elapsed) == BreatheIn <==> phase < 4.0) &&
        (BreathingText(true, elapsed) == HoldGently <==> 4.0 <= phase < 8.0) &&
        (BreathingText(true, elapsed) == LetItGo <==> 8.0 <= phase) &&
        (BreathingText(true, elapsed) == BreatheIn ==> f == phase / 4.0) &&
        (BreathingText(true, elapsed) == HoldGently ==> f == 1.0) &&
        (BreathingText(true, elapsed) == LetItGo ==> f == 1.0 - (phase - 8.0) / 6.0))
  {
    var c := elapsed - Phase2TransitionDuration;
    assert Max(c, 0.0) == c;
  }

  /** The prompt repeats with the breath cycle while the cycles last. */
  lemma BreathingTextPeriodic(elapsed: real)
    requires elapsed >= Phase2TransitionDuration
    requires elapsed + BreathCycleDuration - Phase2TransitionDuration < BreathCycleDuration * (TotalCycles as real)
    ensures BreathingText(true, elapsed + BreathCycleDuration) == BreathingText(true, elapsed)
  {
    RemainderPeriodic(elapsed - Phase2TransitionDuration);
    assert elapsed + BreathCycleDuration - Phase2TransitionDuration == elapsed - Phase2TransitionDuration + BreathCycleDuration;
  }

  // ---------------------------------------------------------------------
  // Phase-1 draw time

  /** What one drag event adds to the phase-1 draw time: the time since the
      previous event, capped at 0.1 s, and nothing for the first event of a
      gesture or a clock that did not advance. */
  function DrawTimeIncrement(lastDrawTimestamp: real, now: real): (d: real)
    ensures 0.0 <= d <= 0.1
    ensures d > 0.0 ==> lastDrawTimestamp > 0.0 && now > lastDrawTimestamp
    ensures lastDrawTimestamp > 0.0 && 0.0 < now - lastDrawTimestamp <= 0.1 ==> d == now - lastDrawTimestamp
    ensures lastDrawTimestamp > 0.0 && now - lastDrawTimestamp > 0.1 ==> d == 0.1
  {
    if lastDrawTimestamp > 0.0 then
      var delta := Min(now - lastDrawTimestamp, 0.1);
      if delta > 0.0 then delta else 0.0
    else 0.0
  }

  /** The draw time after a run of drag events at the times `ts`, starting
      from `drawTime` with previous timestamp `last`. */
  function DrawTimeAfter(drawTime: real, last: real, ts: seq<real>): real
    decreases |ts|
  {
    if ts == [] then drawTime
    else DrawTimeAfter(drawTime + DrawTimeIncrement(last, ts[0]), ts[0], ts[1..])
  }

  /** Over a run of events the draw time never falls and grows by at most
      0.1 s per event, so at least 50 events are needed to reach 5 s from 0. */
  lemma {:induction false} DrawTimeBounds(drawTime: real, last: real, ts: seq<real>)
    ensures drawTime <= DrawTimeAfter(drawTime, last, ts) <= drawTime + 0.1 * (|ts| as real)
    decreases |ts|
  {
    if ts != [] {
      DrawTimeBounds(drawTime + DrawTimeIncrement(last, ts[0]), ts[0], ts[1..]);
    }
  }

  /** The scoring half of `updateMoodInference` on values: `raw` are the
      Gaussian scores of the circumplex point of `metrics` with the clamped
      z-scores `features`, `smoothed` is `raw` blended into the previous
      smoothed scores `s0`, keyed by the moods of the dictionary order
      `order`, and `proposed` is its dominant mood. */
  ghost predicate Inferred(e: Elementary, s0: map<Mood, real>, features: Features,
                           raw: map<Mood, real>, metrics: StrokeMetrics, smoothed: map<Mood, real>,
                           order: seq<Mood>, proposed: Mood)
  {
    raw == GaussianScores(e, CircumplexPoint(metrics.hasPencil, features)) &&
    smoothed == SmoothedScores(e, raw, s0) &&
    IsKeyOrder(smoothed, order) && proposed == Dominant(smoothed, order)
  }

  // ---------------------------------------------------------------------
  // The canvas runtime

  /** `CanvasRuntime`: the engine objects and the anchor bookkeeping. The
      engine objects are never replaced, so they are constant fields here. */
  class CanvasRuntime {
    const e: Elementary
    const particleSystem: ParticleSystem
    const strokeAnalyzer: StrokeAnalyzer
    var canvasWidth: real
    var canvasHeight: real
    var animationTime: real
    var currentAnchors: seq<Point>
    var didScheduleBreathingEnd: bool
    var lastAnchorRefreshTime: real
    var lastAnchorMode: Option<AnchorRefreshMode>
    var lastAnchorCenter: Point
    var lastAnchorRadius: real

    constructor (e: Elementary)
      ensures this.e == e && fresh(particleSystem) && fresh(strokeAnalyzer)
      ensures particleSystem.particles == [] && strokeAnalyzer.Valid()
      ensures canvasWidth == 0.0 && canvasHeight == 0.0 && animationTime == 0.0
      ensures currentAnchors == [] && !didScheduleBreathingEnd
      ensures lastAnchorRefreshTime == 0.0 && lastAnchorMode.None? && lastAnchorCenter == Point(0.0, 0.0) && lastAnchorRadius == 0.0
    {
      this.e := e;
      particleSystem := new ParticleSystem(e);
      strokeAnalyzer := new StrokeAnalyzer(e);
      canvasWidth, canvasHeight, animationTime := 0.0, 0.0, 0.0;
      currentAnchors := [];
      didScheduleBreathingEnd := false;
      lastAnchorRefreshTime := 0.0;
      lastAnchorMode := None;
      lastAnchorCenter := Point(0.0, 0.0);
      lastAnchorRadius := 0.0;
    }

    /** `shouldRefreshAnchors(mode:center:radius:time:)`: regenerate when
        there are no anchors, when they were made for another mode, centre or
        radius (beyond 1 point), or when the mode's interval has passed. */
    predicate ShouldRefreshAnchors(mode: AnchorRefreshMode, center: Point, radius: real, time: real)
      reads this`currentAnchors, this`lastAnchorMode, this`lastAnchorCenter, this`lastAnchorRadius, this`lastAnchorRefreshTime
    {
      if currentAnchors == [] then true
      else if lastAnchorMode != Some(mode) then true
      else if lastAnchorCenter.Distance(e, center) > 1.0 then true
      else if Abs(lastAnchorRadius - radius) > 1.0 then true
      else time - lastAnchorRefreshTime >= AnchorRefreshInterval(mode)
    }

    /** The throttle: with anchors made for this very mode, centre and radius,
        a refresh is due exactly when the mode's interval has passed since
        they were made, so never at the moment they were made. */
    lemma RefreshThrottle(mode: AnchorRefreshMode, time: real)
      requires SqrtExact(e)
      requires currentAnchors != [] && lastAnchorMode == Some(mode)
      ensures ShouldRefreshAnchors(mode, lastAnchorCenter, lastAnchorRadius, time) <==>
        time - lastAnchorRefreshTime >= AnchorRefreshInterval(mode)
      ensures !ShouldRefreshAnchors(mode, lastAnchorCenter, lastAnchorRadius, lastAnchorRefreshTime)
    {
      DistanceNonNegative(e, lastAnchorCenter, lastAnchorCenter);
    }

    /** No anchors, another mode, a centre moved by more than 1 point or a
        radius changed by more than 1 point each force a refresh, whatever
        the time. */
    lemma RefreshForced(mode: AnchorRefreshMode, center: Point, radius: real, time: real)
      requires currentAnchors == [] || lastAnchorMode != Some(mode) ||
               lastAnchorCenter.Distance(e, center) > 1.0 || Abs(lastAnchorRadius - radius) > 1.0
      ensures ShouldRefreshAnchors(mode, center, radius, time)
    {
    }

    /** `markAnchorsRefreshed(mode:center:radius:time:)`. */
    method MarkAnchorsRefreshed(mode: AnchorRefreshMode, center: Point, radius: real, time: real)
      modifies this`lastAnchorMode, this`lastAnchorCenter, this`lastAnchorRadius, this`lastAnchorRefreshTime
      ensures lastAnchorMode == Some(mode) && lastAnchorCenter == center
      ensures lastAnchorRadius == radius && lastAnchorRefreshTime == time
    {
      lastAnchorMode := Some(mode);
      lastAnchorCenter := center;
      lastAnchorRadius := radius;
      lastAnchorRefreshTime := time;
    }

    /** The runtime half of `resetCanvas`: no anchors, no refresh recorded
        and no breathing end scheduled. */
    method ResetAnchorBookkeeping()
      modifies this`currentAnchors, this`lastAnchorRefreshTime, this`lastAnchorMode, this`lastAnchorCenter,
               this`lastAnchorRadius, this`didScheduleBreathingEnd
      ensures currentAnchors == [] && lastAnchorRefreshTime == 0.0 && lastAnchorMode.None?
      ensures lastAnchorCenter == Point(0.0, 0.0) && lastAnchorRadius == 0.0 && !didScheduleBreathingEnd
    {
      currentAnchors := [];
      lastAnchorRefreshTime := 0.0;
      lastAnchorMode := None;
      lastAnchorCenter := Point(0.0, 0.0);
      lastAnchorRadius := 0.0;
      didScheduleBreathingEnd := false;
    }

    function Center(): Point
      reads this`canvasWidth, this`canvasHeight
    {
      CanvasCenter(canvasWidth, canvasHeight)
    }

    function Radius(): real
      reads this`canvasWidth, this`canvasHeight
    {
      CanvasRadius(canvasWidth, canvasHeight)
    }
  }

  // ---------------------------------------------------------------------
  // The view state

  /** The `@State` of `CanvasView` that its logic reads and writes. */
  class CanvasView {
    const runtime: CanvasRuntime
    var currentMood: Mood
    var hasDrawn: bool
    var isBreathing: bool
    var isSaving: bool
    var breathingStart: real
    var breathingDrawTime: real
    var breathingPhase2: bool
    var lastDrawTimestamp: real

    constructor (e: Elementary)
      ensures fresh(runtime) && runtime.e == e
      ensures fresh(runtime.particleSystem) && fresh(runtime.strokeAnalyzer)
      ensures runtime.strokeAnalyzer.Valid() && runtime.currentAnchors == []
      ensures currentMood == Calm && !hasDrawn && !isBreathing && !isSaving
      ensures breathingStart == 0.0 && breathingDrawTime == 0.0 && !breathingPhase2 && lastDrawTimestamp == 0.0
    {
      runtime := new CanvasRuntime(e);
      currentMood := Calm;
      hasDrawn, isBreathing, isSaving := false, false, false;
      breathingStart, breathingDrawTime := 0.0, 0.0;
      breathingPhase2 := false;
      lastDrawTimestamp := 0.0;
    }

    /** `resetCanvas()`: no particles, a fresh analyzer, calm, no anchors and
        no refresh bookkeeping, and the breathing exercise off. */
    method ResetCanvas()
      modifies this`currentMood, this`hasDrawn, this`isBreathing, this`isSaving, this`breathingDrawTime,
               this`breathingPhase2, this`lastDrawTimestamp,
               runtime`currentAnchors, runtime`lastAnchorRefreshTime, runtime`lastAnchorMode,
               runtime`lastAnchorCenter, runtime`lastAnchorRadius, runtime`didScheduleBreathingEnd,
               runtime.particleSystem`particles,
               runtime.strokeAnalyzer`window, runtime.strokeAnalyzer`currentStrokeID,
               runtime.strokeAnalyzer`smoothedScores, runtime.strokeAnalyzer`lastMoodChangeTime,
               runtime.strokeAnalyzer`cachedMetrics, runtime.strokeAnalyzer`metricsDirty,
               runtime.strokeAnalyzer`speedStats, runtime.strokeAnalyzer`pressureStats,
               runtime.strokeAnalyzer`curvatureStats, runtime.strokeAnalyzer`jitterStats,
               runtime.strokeAnalyzer`angularityStats, runtime.strokeAnalyzer`dirChangeStats,
               runtime.strokeAnalyzer`areaStats, runtime.strokeAnalyzer`speedVarianceStats
      ensures runtime.particleSystem.particles == []
      ensures runtime.strokeAnalyzer.Valid() && runtime.strokeAnalyzer.window == []
      ensures runtime.strokeAnalyzer.smoothedScores == map[] && runtime.strokeAnalyzer.lastMoodChangeTime.None?
      ensures runtime.strokeAnalyzer.cachedMetrics.None? && runtime.strokeAnalyzer.currentStrokeID == 0
      ensures runtime.strokeAnalyzer.AllStats() == seq(8, _ => RunningStatistics())
      ensures currentMood == Calm && runtime.currentAnchors == []
      ensures runtime.lastAnchorRefreshTime == 0.0 && runtime.lastAnchorMode.None?
      ensures runtime.lastAnchorCenter == Point(0.0, 0.0) && runtime.lastAnchorRadius == 0.0
      ensures !hasDrawn && !isBreathing && !isSaving && !breathingPhase2 && !runtime.didScheduleBreathingEnd
      ensures breathingDrawTime == 0.0 && lastDrawTimestamp == 0.0
      ensures breathingStart == old(breathingStart)
      ensures runtime.canvasWidth == old(runtime.canvasWidth) && runtime.canvasHeight == old(runtime.canvasHeight)
      ensures runtime.animationTime == old(runtime.animationTime)
    {
      runtime.particleSystem.Clear();
      runtime.strokeAnalyzer.Reset();
      currentMood := Calm;
      runtime.ResetAnchorBookkeeping();
      hasDrawn := false;
      isBreathing := false;
      isSaving := false;
      breathingDrawTime := 0.0;
      breathingPhase2 := false;
      lastDrawTimestamp := 0.0;
    }

    /** `startBreathing()`: the exercise starts in phase 1 with no draw time
        and a calm mood; nothing else changes. */
    method StartBreathing()
      modifies this`isBreathing, this`breathingStart, this`breathingDrawTime, this`breathingPhase2,
               this`lastDrawTimestamp, this`currentMood, runtime`didScheduleBreathingEnd
      ensures isBreathing && breathingStart == runtime.animationTime && breathingDrawTime == 0.0
      ensures !breathingPhase2 && lastDrawTimestamp == 0.0 && !runtime.didScheduleBreathingEnd
      ensures currentMood == Calm
    {
      isBreathing := true;
      breathingStart := runtime.animationTime;
      breathingDrawTime := 0.0;
      breathingPhase2 := false;
      lastDrawTimestamp := 0.0;
      runtime.didScheduleBreathingEnd := false;
      currentMood := Calm;
    }

    /** The phase-1 part of a drag event: the capped draw time accumulates,
        and once it reaches 5 s phase 2 begins. Nothing happens outside
        phase 1. */
    method TrackBreathingDrawTime()
      modifies this`breathingDrawTime, this`lastDrawTimestamp, this`breathingPhase2, this`breathingStart,
               runtime`currentAnchors, runtime`lastAnchorMode, runtime`lastAnchorCenter,
               runtime`lastAnchorRadius, runtime`lastAnchorRefreshTime, runtime.particleSystem`particles
      ensures !(old(isBreathing) && !old(breathingPhase2)) ==>
        breathingDrawTime == old(breathingDrawTime) && lastDrawTimestamp == old(lastDrawTimestamp) &&
        breathingPhase2 == old(breathingPhase2) && breathingStart == old(breathingStart) &&
        runtime.currentAnchors == old(runtime.currentAnchors) &&
        runtime.lastAnchorMode == old(runtime.lastAnchorMode) &&
        runtime.lastAnchorCenter == old(runtime.lastAnchorCenter) &&
        runtime.lastAnchorRadius == old(runtime.lastAnchorRadius) &&
        runtime.lastAnchorRefreshTime == old(runtime.lastAnchorRefreshTime) &&
        runtime.particleSystem.particles == old(runtime.particleSystem.particles)
      ensures old(isBreathing) && !old(breathingPhase2) ==>
        breathingDrawTime == old(breathingDrawTime) + DrawTimeIncrement(old(lastDrawTimestamp), runtime.animationTime) &&
        lastDrawTimestamp == runtime.animationTime &&
        (breathingPhase2 <==> breathingDrawTime >= 5.0)
      ensures old(isBreathing) && !old(breathingPhase2) && breathingDrawTime < 5.0 ==>
        breathingStart == old(breathingStart) &&
        runtime.currentAnchors == old(runtime.currentAnchors) &&
        runtime.lastAnchorMode == old(runtime.lastAnchorMode) &&
        runtime.lastAnchorCenter == old(runtime.lastAnchorCenter) &&
        runtime.lastAnchorRadius == old(runtime.lastAnchorRadius) &&
        runtime.lastAnchorRefreshTime == old(runtime.lastAnchorRefreshTime) &&
        runtime.particleSystem.particles == old(runtime.particleSystem.particles)
      ensures old(isBreathing) && !old(breathingPhase2) && breathingDrawTime >= 5.0 ==>
        breathingStart == runtime.animationTime &&
        runtime.currentAnchors == BreathingLayout(runtime.e, runtime.Center(), runtime.Radius(), 1.0) &&
        |runtime.particleSystem.particles| == |old(runtime.particleSystem.particles)| &&
        (forall i :: 0 <= i < |runtime.particleSystem.particles| ==>
          runtime.particleSystem.particles[i] ==
            Reassigned(runtime.particleSystem.e, old(runtime.particleSystem.particles)[i], runtime.currentAnchors)) &&
        runtime.lastAnchorMode == Some(BreathingPhase2) && runtime.lastAnchorCenter == runtime.Center() &&
        runtime.lastAnchorRadius == runtime.Radius() && runtime.lastAnchorRefreshTime == runtime.animationTime
    {
      if isBreathing && !breathingPhase2 {
        var now := runtime.animationTime;
        if lastDrawTimestamp > 0.0 {
          var delta := Min(now - lastDrawTimestamp, 0.1);
          if delta > 0.0 {
            breathingDrawTime := breathingDrawTime + delta;
          }
        }
        lastDrawTimestamp := now;
        if breathingDrawTime >= 5.0 {
          EnterBreathingPhase2();
        }
      }
    }

    /** `enterBreathingPhase2()`: the phase-2 clock starts, and the particles
        are retargeted onto the full-breath circles. */
    method EnterBreathingPhase2()
      modifies this`breathingPhase2, this`breathingStart,
               runtime`currentAnchors, runtime`lastAnchorMode, runtime`lastAnchorCenter,
               runtime`lastAnchorRadius, runtime`lastAnchorRefreshTime, runtime.particleSystem`particles
      ensures breathingPhase2 && breathingStart == runtime.animationTime
      ensures runtime.currentAnchors == BreathingLayout(runtime.e, runtime.Center(), runtime.Radius(), 1.0)
      ensures |runtime.particleSystem.particles| == |old(runtime.particleSystem.particles)|
      ensures forall i :: 0 <= i < |runtime.particleSystem.particles| ==>
        runtime.particleSystem.particles[i] ==
          Reassigned(runtime.particleSystem.e, old(runtime.particleSystem.particles)[i], runtime.currentAnchors)
      ensures runtime.lastAnchorMode == Some(BreathingPhase2) && runtime.lastAnchorCenter == runtime.Center()
      ensures runtime.lastAnchorRadius == runtime.Radius() && runtime.lastAnchorRefreshTime == runtime.animationTime
    {
      breathingPhase2 := true;
      breathingStart := runtime.animationTime;
      var center := CanvasCenter(runtime.canvasWidth, runtime.canvasHeight);
      var radius := CanvasRadius(runtime.canvasWidth, runtime.canvasHeight);
      var anchors := BreathingAnchors(runtime.e, center, radius, 1.0);
      BreathingShape(runtime.e, center, radius, 1.0);
      runtime.particleSystem.ReassignTargets(anchors);
      runtime.currentAnchors := anchors;
      runtime.MarkAnchorsRefreshed(BreathingPhase2, center, radius, runtime.animationTime);
    }

    /** The end of a drag: in phase 1 the next event starts a fresh interval;
        outside the exercise the stroke ends. */
    method EndDrag()
      modifies this`lastDrawTimestamp, runtime.strokeAnalyzer`currentStrokeID, runtime.strokeAnalyzer`metricsDirty
      ensures isBreathing && !breathingPhase2 ==> lastDrawTimestamp == 0.0
      ensures !(isBreathing && !breathingPhase2) ==> lastDrawTimestamp == old(lastDrawTimestamp)
      ensures !isBreathing ==>
        runtime.strokeAnalyzer.currentStrokeID == old(runtime.strokeAnalyzer.currentStrokeID) + 1 &&
        runtime.strokeAnalyzer.metricsDirty
      ensures isBreathing ==>
        runtime.strokeAnalyzer.currentStrokeID == old(runtime.strokeAnalyzer.currentStrokeID) &&
        runtime.strokeAnalyzer.metricsDirty == old(runtime.strokeAnalyzer.metricsDirty)
    {
      if isBreathing && !breathingPhase2 {
        lastDrawTimestamp := 0.0;
      }
      if !isBreathing {
        runtime.strokeAnalyzer.EndStroke();
      }
    }

    /** `updateMoodInference()`, with the clock of `shouldSwitchMood` as `now`,
        the dictionary order `Mood.dominant` sees as `order`, and the palette
        choices of the retargeting as `pick`. The smoothed scores always move;
        the mood, the anchors, their bookkeeping and the particles change only
        when the debounce accepts the dominant mood, and then to its layout. */
    method UpdateMoodInference(now: real, order: seq<Mood>, pick: nat -> nat)
      returns (proposed: Mood, accepted: bool, raw: map<Mood, real>, ghost metrics: StrokeMetrics,
               ghost features: Features, ghost smoothed: map<Mood, real>)
      requires runtime.strokeAnalyzer.Valid()
      requires (forall m: Mood :: m in order) && forall i, j :: 0 <= i < j < |order| ==> order[i] != order[j]
      modifies this`currentMood, runtime`currentAnchors, runtime`lastAnchorMode, runtime`lastAnchorCenter,
               runtime`lastAnchorRadius, runtime`lastAnchorRefreshTime, runtime.particleSystem`particles,
               runtime.strokeAnalyzer`window, runtime.strokeAnalyzer`cachedMetrics, runtime.strokeAnalyzer`metricsDirty,
               runtime.strokeAnalyzer`cachedWidth, runtime.strokeAnalyzer`cachedHeight,
               runtime.strokeAnalyzer`curvatureStats, runtime.strokeAnalyzer`jitterStats,
               runtime.strokeAnalyzer`angularityStats, runtime.strokeAnalyzer`dirChangeStats,
               runtime.strokeAnalyzer`areaStats, runtime.strokeAnalyzer`speedVarianceStats,
               runtime.strokeAnalyzer`smoothedScores, runtime.strokeAnalyzer`lastMoodChangeTime
      ensures runtime.strokeAnalyzer.Valid() && runtime.strokeAnalyzer.FeaturesOf(metrics) == features
      ensures runtime.strokeAnalyzer.smoothedScores == smoothed
      ensures Inferred(runtime.strokeAnalyzer.e, old(runtime.strokeAnalyzer.smoothedScores), features, raw, metrics,
                       smoothed, order, proposed)
      ensures runtime.strokeAnalyzer.window == KeepRecent(old(runtime.strokeAnalyzer.window))
      ensures Gate(accepted, runtime.strokeAnalyzer.lastMoodChangeTime) ==
        SwitchGate(old(runtime.strokeAnalyzer.lastMoodChangeTime), proposed, old(currentMood), now)
      ensures !accepted ==>
        unchanged(this`currentMood, runtime`currentAnchors, runtime`lastAnchorMode, runtime`lastAnchorCenter,
                  runtime`lastAnchorRadius, runtime`lastAnchorRefreshTime, runtime.particleSystem`particles)
      ensures accepted ==> SwitchedTo(proposed, pick, old(runtime.particleSystem.particles))
    {
      proposed, raw, metrics, features, smoothed := ProposeMood(order);
      accepted := ApplyProposal(proposed, now, pick);
    }

    /** The debounce half of `updateMoodInference`: `shouldSwitchMood` on the
        proposed mood, and the switch when it accepts. */
    method ApplyProposal(proposed: Mood, now: real, pick: nat -> nat) returns (accepted: bool)
      modifies this`currentMood, runtime`currentAnchors, runtime`lastAnchorMode, runtime`lastAnchorCenter,
               runtime`lastAnchorRadius, runtime`lastAnchorRefreshTime, runtime.particleSystem`particles,
               runtime.strokeAnalyzer`lastMoodChangeTime
      ensures Gate(accepted, runtime.strokeAnalyzer.lastMoodChangeTime) ==
        SwitchGate(old(runtime.strokeAnalyzer.lastMoodChangeTime), proposed, old(currentMood), now)
      ensures !accepted ==>
        unchanged(this`currentMood, runtime`currentAnchors, runtime`lastAnchorMode, runtime`lastAnchorCenter,
                  runtime`lastAnchorRadius, runtime`lastAnchorRefreshTime, runtime.particleSystem`particles)
      ensures accepted ==> SwitchedTo(proposed, pick, old(runtime.particleSystem.particles))
      ensures unchanged(runtime.strokeAnalyzer`window, runtime.strokeAnalyzer`cachedMetrics, runtime.strokeAnalyzer`metricsDirty,
                        runtime.strokeAnalyzer`cachedWidth, runtime.strokeAnalyzer`cachedHeight, runtime.strokeAnalyzer`smoothedScores,
                        runtime.strokeAnalyzer`speedStats, runtime.strokeAnalyzer`pressureStats, runtime.strokeAnalyzer`curvatureStats,
                        runtime.strokeAnalyzer`jitterStats, runtime.strokeAnalyzer`angularityStats, runtime.strokeAnalyzer`dirChangeStats,
                        runtime.strokeAnalyzer`areaStats, runtime.strokeAnalyzer`speedVarianceStats)
    {
      accepted := runtime.strokeAnalyzer.ShouldSwitchMood(proposed, currentMood, now);
      if accepted {
        SwitchMood(proposed, pick);
      }
    }

    /** The scoring half of `updateMoodInference`: the Gaussian scores of the
        current metrics, smoothed into the previous scores, and the dominant
        mood of the result; the canvas state and the debounce clock are left
        alone. */
    method ProposeMood(order: seq<Mood>)
      returns (newMood: Mood, raw: map<Mood, real>, ghost metrics: StrokeMetrics,
               ghost features: Features, ghost smoothed: map<Mood, real>)
      requires runtime.strokeAnalyzer.Valid()
      requires (forall m: Mood :: m in order) && forall i, j :: 0 <= i < j < |order| ==> order[i] != order[j]
      modifies runtime.strokeAnalyzer`window, runtime.strokeAnalyzer`cachedMetrics, runtime.strokeAnalyzer`metricsDirty,
               runtime.strokeAnalyzer`cachedWidth, runtime.strokeAnalyzer`cachedHeight,
               runtime.strokeAnalyzer`curvatureStats, runtime.strokeAnalyzer`jitterStats,
               runtime.strokeAnalyzer`angularityStats, runtime.strokeAnalyzer`dirChangeStats,
               runtime.strokeAnalyzer`areaStats, runtime.strokeAnalyzer`speedVarianceStats,
               runtime.strokeAnalyzer`smoothedScores
      ensures runtime.strokeAnalyzer.Valid() && runtime.strokeAnalyzer.FeaturesOf(metrics) == features
      ensures runtime.strokeAnalyzer.smoothedScores == smoothed
      ensures Inferred(runtime.strokeAnalyzer.e, old(runtime.strokeAnalyzer.smoothedScores), features, raw, metrics,
                       smoothed, order, newMood)
      ensures runtime.strokeAnalyzer.window == KeepRecent(old(runtime.strokeAnalyzer.window))
      ensures unchanged(this, runtime, runtime.particleSystem) && unchanged(runtime.strokeAnalyzer`lastMoodChangeTime)
    {
      raw, metrics, features := RawScores();
      newMood, smoothed := SmoothAndPick(raw, order);
    }

    /** The call to `computeMoodScores` that opens `updateMoodInference`; it
        touches nothing outside the analyzer's window, cache and accumulators. */
    method RawScores() returns (raw: map<Mood, real>, ghost metrics: StrokeMetrics, ghost features: Features)
      requires runtime.strokeAnalyzer.Valid()
      modifies runtime.strokeAnalyzer`window, runtime.strokeAnalyzer`cachedMetrics, runtime.strokeAnalyzer`metricsDirty,
               runtime.strokeAnalyzer`cachedWidth, runtime.strokeAnalyzer`cachedHeight,
               runtime.strokeAnalyzer`curvatureStats, runtime.strokeAnalyzer`jitterStats,
               runtime.strokeAnalyzer`angularityStats, runtime.strokeAnalyzer`dirChangeStats,
               runtime.strokeAnalyzer`areaStats, runtime.strokeAnalyzer`speedVarianceStats
      ensures runtime.strokeAnalyzer.Valid() && runtime.strokeAnalyzer.FeaturesOf(metrics) == features
      ensures raw == GaussianScores(runtime.strokeAnalyzer.e, CircumplexPoint(metrics.hasPencil, features))
      ensures runtime.strokeAnalyzer.window == KeepRecent(old(runtime.strokeAnalyzer.window))
      ensures unchanged(this, runtime, runtime.particleSystem) && unchanged(runtime.strokeAnalyzer`lastMoodChangeTime)
    {
      raw, metrics, features := runtime.strokeAnalyzer.ComputeMoodScores();
    }

    /** Smoothing the raw table and picking its dominant mood. */
    method SmoothAndPick(raw: map<Mood, real>, order: seq<Mood>) returns (newMood: Mood, smoothed: map<Mood, real>)
      requires (forall m: Mood :: m in order) && forall i, j :: 0 <= i < j < |order| ==> order[i] != order[j]
      requires runtime.strokeAnalyzer.Valid()
      modifies runtime.strokeAnalyzer`smoothedScores
      ensures runtime.strokeAnalyzer.Valid()
      ensures smoothed == SmoothedScores(runtime.strokeAnalyzer.e, raw, old(runtime.strokeAnalyzer.smoothedScores))
      ensures runtime.strokeAnalyzer.smoothedScores == smoothed
      ensures IsKeyOrder(smoothed, order) && newMood == Dominant(smoothed, order)
      ensures unchanged(this, runtime, runtime.particleSystem) && unchanged(runtime.strokeAnalyzer`lastMoodChangeTime)
    {
      var analyzer := runtime.strokeAnalyzer;
      SmoothedScoresKeyOrder(analyzer.e, raw, analyzer.smoothedScores, order);
      smoothed := analyzer.SmoothScores(raw);
      newMood := Dominant(smoothed, order);
    }

    /** The state after a switch to `m` from the particles `before`: the
        mood is `m`, the anchors are its layout at the current centre,
        radius and time and are marked refreshed for it, and each particle
        is `before`'s particle at that index `Transitioned` onto them in a
        colour of `m`'s palette. */
    ghost predicate SwitchedTo(m: Mood, pick: nat -> nat, before: seq<Particle>)
      reads this`currentMood, runtime`currentAnchors, runtime`lastAnchorMode, runtime`lastAnchorCenter,
            runtime`lastAnchorRadius, runtime`lastAnchorRefreshTime, runtime`canvasWidth, runtime`canvasHeight,
            runtime`animationTime, runtime.particleSystem`particles
    {
      currentMood == m &&
      runtime.currentAnchors == Layout(runtime.e, m, runtime.Center(), runtime.Radius(), runtime.animationTime) &&
      runtime.lastAnchorMode == Some(Normal(m)) && runtime.lastAnchorCenter == runtime.Center() &&
      runtime.lastAnchorRadius == runtime.Radius() && runtime.lastAnchorRefreshTime == runtime.animationTime &&
      |runtime.particleSystem.particles| == |before| &&
      forall i :: 0 <= i < |runtime.particleSystem.particles| ==>
        runtime.particleSystem.particles[i] ==
          Transitioned(runtime.particleSystem.e, before[i], runtime.currentAnchors, PaletteColor(m, pick(i)))
    }

    /** The accepted branch of `updateMoodInference`: the new mood's layout,
        the particles moved onto it, the bookkeeping and the mood. */
    method SwitchMood(newMood: Mood, pick: nat -> nat)
      modifies this`currentMood, runtime`currentAnchors, runtime`lastAnchorMode, runtime`lastAnchorCenter,
               runtime`lastAnchorRadius, runtime`lastAnchorRefreshTime, runtime.particleSystem`particles
      ensures SwitchedTo(newMood, pick, old(runtime.particleSystem.particles))
    {
      var center := CanvasCenter(runtime.canvasWidth, runtime.canvasHeight);
      var radius := CanvasRadius(runtime.canvasWidth, runtime.canvasHeight);
      var newAnchors := GenerateAnchors(runtime.e, newMood, center, radius, runtime.animationTime);
      runtime.particleSystem.TransitionToAnchors(newAnchors, newMood, pick);
      runtime.currentAnchors := newAnchors;
      runtime.MarkAnchorsRefreshed(Normal(newMood), center, radius, runtime.animationTime);
      currentMood := newMood;
    }
  }
}
