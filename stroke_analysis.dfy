/** The stroke analyzer: a five-second sliding window of touch points, the
    metrics computed over it, their mapping onto the valence/arousal plane,
    mood scores, softmax-and-EMA smoothing and the mood-switch debounce. */
module StrokeAnalysis {
  import opened Foundation
  import opened Geometry
  import opened Moods
  import opened Metrics

  const WindowDuration: real := 5.0
  /** A pair of samples further apart than this counts as a pause. */
  const PauseThreshold: real := 0.3
  /** `CGFloat.greatestFiniteMagnitude`, the starting value of the bounds. */
  const GreatestFiniteMagnitude: real := 1.7976931348623157e308

  // ---------------------------------------------------------------------
  // The sliding window

  /** The pruning predicate `{ $0.timestamp < cutoff }`. */
  function Stale(cutoff: real): TouchPoint -> bool
  {
    (p: TouchPoint) => p.timestamp < cutoff
  }

  /** `removeAll { $0.timestamp < cutoff }`. */
  function DropBefore(ps: seq<TouchPoint>, cutoff: real): seq<TouchPoint>
  {
    RemoveAll(ps, Stale(cutoff))
  }

  /** The points that survive pruning: those no more than five seconds older
      than the newest. */
  function KeepRecent(ps: seq<TouchPoint>): seq<TouchPoint>
  {
    if ps == [] then [] else DropBefore(ps, ps[|ps| - 1].timestamp - WindowDuration)
  }

  /** Pruning keeps exactly the recent points, keeps the newest point and
      changes nothing in an empty window. */
  lemma KeepRecentSpec(ps: seq<TouchPoint>)
    ensures ps == [] ==> KeepRecent(ps) == []
    ensures ps != [] ==> forall p :: p in KeepRecent(ps) <==>
      p in ps && p.timestamp >= ps[|ps| - 1].timestamp - WindowDuration
    ensures ps != [] ==> KeepRecent(ps) != [] && KeepRecent(ps)[|KeepRecent(ps)| - 1] == ps[|ps| - 1]
  {
    if ps != [] {
      var cutoff := ps[|ps| - 1].timestamp - WindowDuration;
      assert ps == ps[..|ps| - 1] + [ps[|ps| - 1]];
      assert DropBefore(ps, cutoff) == DropBefore(ps[..|ps| - 1], cutoff) + [ps[|ps| - 1]];
    }
  }

  /** Pruning never drops the newest point: the pruned window ends with it. */
  lemma KeepRecentLast(ps: seq<TouchPoint>)
    requires ps != []
    ensures KeepRecent(ps) == DropBefore(ps[..|ps| - 1], ps[|ps| - 1].timestamp - WindowDuration) + [ps[|ps| - 1]]
  {
    assert ps[..|ps| - 1] + [ps[|ps| - 1]] == ps;
  }

  /** Pruning with a fixed cutoff twice is pruning once. */
  lemma DropBeforeIdempotent(ps: seq<TouchPoint>, cutoff: real)
    ensures DropBefore(DropBefore(ps, cutoff), cutoff) == DropBefore(ps, cutoff)
  {
    RemoveAllIdempotent(ps, Stale(cutoff));
  }

  /** Points are dropped without reordering the others: pruning the
      concatenation of two windows prunes each part with the common cutoff. */
  lemma KeepRecentPreservesOrder(ps: seq<TouchPoint>, qs: seq<TouchPoint>)
    requires qs != []
    ensures KeepRecent(ps + qs) == DropBefore(ps, qs[|qs| - 1].timestamp - WindowDuration) + KeepRecent(qs)
  {
    var cutoff := qs[|qs| - 1].timestamp - WindowDuration;
    assert (ps + qs)[|ps + qs| - 1] == qs[|qs| - 1];
    assert KeepRecent(ps + qs) == DropBefore(ps + qs, cutoff);
    RemoveAllAppend(ps, qs, Stale(cutoff));
  }

  /** Pruning twice is pruning once. */
  lemma KeepRecentIdempotent(ps: seq<TouchPoint>)
    ensures KeepRecent(KeepRecent(ps)) == KeepRecent(ps)
  {
    if ps != [] {
      var cutoff := ps[|ps| - 1].timestamp - WindowDuration;
      KeepRecentLast(ps);
      var kept := KeepRecent(ps);
      assert kept[|kept| - 1] == ps[|ps| - 1];
      assert KeepRecent(kept) == DropBefore(kept, cutoff);
      DropBeforeIdempotent(ps, cutoff);
    }
  }

  // ---------------------------------------------------------------------
  // Pass 1: adjacent pairs

  /** A pair of consecutive samples is a movement when both belong to the
      same stroke and time moved forward between them. */
  predicate IsMovement(prev: TouchPoint, curr: TouchPoint)
  {
    prev.strokeID == curr.strokeID && curr.timestamp - prev.timestamp > 0.0
  }

  /** The variables that pass 1 updates. */
  datatype MovementTally = MovementTally(
    speeds: seq<real>,
    downward: nat,
    movements: nat,
    pauses: nat,
    pencil: bool,
    minX: real, maxX: real, minY: real, maxY: real)

  /** The state before the first pair: the bounds hold the first point. */
  function FirstTally(p0: TouchPoint): MovementTally
  {
    MovementTally([], 0, 0, 0, false,
      Min(GreatestFiniteMagnitude, p0.location.x), Max(-GreatestFiniteMagnitude, p0.location.x),
      Min(GreatestFiniteMagnitude, p0.location.y), Max(-GreatestFiniteMagnitude, p0.location.y))
  }

  /** One iteration of pass 1 on the pair (`prev`, `curr`). */
  function MovementStep(e: Elementary, t: MovementTally, prev: TouchPoint, curr: TouchPoint): MovementTally
  {
    if !IsMovement(prev, curr) then t
    else
      var dt := curr.timestamp - prev.timestamp;
      var speed := prev.location.Distance(e, curr.location) / dt;
      MovementTally(
        t.speeds + [speed],
        t.downward + (if curr.location.y > prev.location.y then 1 else 0),
        t.movements + 1,
        t.pauses + (if dt > PauseThreshold then 1 else 0),
        t.pencil || Abs(curr.force - 0.5) > 0.01,
        Min(t.minX, curr.location.x), Max(t.maxX, curr.location.x),
        Min(t.minY, curr.location.y), Max(t.maxY, curr.location.y))
  }

  /** Pass 1 after the pairs ending at indices 1 .. k-1. */
  function Movements(e: Elementary, ps: seq<TouchPoint>, k: nat): MovementTally
    requires 1 <= k <= |ps|
  {
    if k == 1 then FirstTally(ps[0])
    else MovementStep(e, Movements(e, ps, k - 1), ps[k - 2], ps[k - 1])
  }

  /** "The pair ending at index i is a movement", as an index predicate. */
  function MovementAt(ps: seq<TouchPoint>): nat -> bool
  {
    (i: nat) => 1 <= i < |ps| && IsMovement(ps[i - 1], ps[i])
  }

  /** The indices of the pairs pass 1 counts. */
  function MovingPairs(ps: seq<TouchPoint>, k: nat): set<nat>
  {
    Indices(MovementAt(ps), 1, k)
  }

  /** How one iteration of pass 1 changes the counters. */
  lemma MovementStepCounts(e: Elementary, t: MovementTally, prev: TouchPoint, curr: TouchPoint)
    ensures var t' := MovementStep(e, t, prev, curr);
      var d := if IsMovement(prev, curr) then 1 else 0;
      t'.movements == t.movements + d && |t'.speeds| == |t.speeds| + d &&
      t.downward <= t'.downward <= t.downward + d && t.pauses <= t'.pauses <= t.pauses + d
  {
  }

  /** Pass 1 counts exactly the movement pairs, records one speed per
      movement, and its downward and pause counts are among the movements. */
  lemma {:induction false} MovementCounts(e: Elementary, ps: seq<TouchPoint>, k: nat)
    requires 1 <= k <= |ps|
    ensures var t := Movements(e, ps, k);
      t.movements == |MovingPairs(ps, k)| && |t.speeds| == t.movements &&
      t.downward <= t.movements && t.pauses <= t.movements && t.movements <= k - 1
  {
    if k == 1 {
      IndicesEmpty(MovementAt(ps), 1);
    } else {
      MovementCounts(e, ps, k - 1);
      IndicesStep(MovementAt(ps), 1, k - 1);
      MovementStepCounts(e, Movements(e, ps, k - 1), ps[k - 2], ps[k - 1]);
    }
  }

  /** With exact square roots every recorded speed is non-negative. */
  lemma {:induction false} SpeedsNonNegative(e: Elementary, ps: seq<TouchPoint>, k: nat)
    requires SqrtExact(e) && 1 <= k <= |ps|
    ensures forall i :: 0 <= i < |Movements(e, ps, k).speeds| ==> Movements(e, ps, k).speeds[i] >= 0.0
  {
    if k > 1 {
      SpeedsNonNegative(e, ps, k - 1);
      var prev, curr := ps[k - 2], ps[k - 1];
      if IsMovement(prev, curr) {
        DistanceNonNegative(e, prev.location, curr.location);
        RatioNonNegative(prev.location.Distance(e, curr.location), curr.timestamp - prev.timestamp);
      }
    }
  }

  /** The bounds never cross: pass 1 keeps min <= max on both axes. */
  lemma {:induction false} BoundsOrdered(e: Elementary, ps: seq<TouchPoint>, k: nat)
    requires 1 <= k <= |ps| && Abs(ps[0].location.x) <= GreatestFiniteMagnitude &&
             Abs(ps[0].location.y) <= GreatestFiniteMagnitude
    ensures Movements(e, ps, k).minX <= Movements(e, ps, k).maxX
    ensures Movements(e, ps, k).minY <= Movements(e, ps, k).maxY
  {
    if k > 1 {
      BoundsOrdered(e, ps, k - 1);
    }
  }

  // ---------------------------------------------------------------------
  // Pass 2: triplets

  /** The variables that pass 2 updates. */
  datatype TurnTally = TurnTally(dirChanges: nat, angular: nat, triplets: nat, curvatureSum: real, curvatureCount: nat)

  /** Three consecutive samples of one stroke with two non-zero steps. */
  predicate IsTurn(e: Elementary, p0: TouchPoint, p1: TouchPoint, p2: TouchPoint)
  {
    p0.strokeID == p1.strokeID && p1.strokeID == p2.strokeID &&
    p1.location.Minus(p0.location).Magnitude(e) > 0.0 &&
    p2.location.Minus(p1.location).Magnitude(e) > 0.0
  }

  /** One iteration of pass 2 on the triplet (`p0`, `p1`, `p2`). */
  function TurnStep(e: Elementary, t: TurnTally, p0: TouchPoint, p1: TouchPoint, p2: TouchPoint): TurnTally
  {
    if !IsTurn(e, p0, p1, p2) then t
    else
      var v1, v2 := p1.location.Minus(p0.location), p2.location.Minus(p1.location);
      var mag1, mag2 := v1.Magnitude(e), v2.Magnitude(e);
      Accumulate(t, Quotient(v1.Dot(v2), mag1, mag2), Quotient(Abs(v1.Cross(v2)), mag1, mag2))
  }

  /** The counter updates for a qualifying triplet whose turning angle has
      cosine `cosAngle` and whose curvature term is `term`. */
  function Accumulate(t: TurnTally, cosAngle: real, term: real): TurnTally
  {
    TurnTally(
      t.dirChanges + (if cosAngle < 0.0 then 1 else 0),
      t.angular + (if cosAngle < -0.5 then 1 else 0),
      t.triplets + 1,
      t.curvatureSum + term,
      t.curvatureCount + 1)
  }

  /** `num / (mag1 * mag2)`, as the cosine `dot / (mag1 * mag2)` and the
      curvature term `cross / (mag1 * mag2)` are computed; pass 2 divides
      only by a positive product. */
  function Quotient(num: real, mag1: real, mag2: real): real
  {
    if mag1 * mag2 == 0.0 then 0.0 else num / (mag1 * mag2)
  }

  /** Pass 2 after the triplets ending at indices 2 .. k-1. */
  function Turns(e: Elementary, ps: seq<TouchPoint>, k: nat): TurnTally
    requires 2 <= k <= |ps|
  {
    if k == 2 then TurnTally(0, 0, 0, 0.0, 0)
    else TurnStep(e, Turns(e, ps, k - 1), ps[k - 3], ps[k - 2], ps[k - 1])
  }

  /** "The triplet ending at index i qualifies", as an index predicate. */
  function TurnAt(e: Elementary, ps: seq<TouchPoint>): nat -> bool
  {
    (i: nat) => 2 <= i < |ps| && IsTurn(e, ps[i - 2], ps[i - 1], ps[i])
  }

  /** The indices of the triplets pass 2 counts. */
  function TurnTriplets(e: Elementary, ps: seq<TouchPoint>, k: nat): set<nat>
  {
    Indices(TurnAt(e, ps), 2, k)
  }

  /** How one iteration of pass 2 changes the counters. */
  lemma TurnStepCounts(e: Elementary, t: TurnTally, p0: TouchPoint, p1: TouchPoint, p2: TouchPoint)
    requires t.angular <= t.dirChanges <= t.triplets && t.curvatureSum >= 0.0
    ensures var t' := TurnStep(e, t, p0, p1, p2);
      var d := if IsTurn(e, p0, p1, p2) then 1 else 0;
      t'.triplets == t.triplets + d && t'.curvatureCount == t.curvatureCount + d &&
      t'.angular <= t'.dirChanges <= t'.triplets && t'.curvatureSum >= 0.0
  {
    if IsTurn(e, p0, p1, p2) {
      var v1, v2 := p1.location.Minus(p0.location), p2.location.Minus(p1.location);
      CurvatureTermNonNegative(v1.Cross(v2), v1.Magnitude(e), v2.Magnitude(e));
    }
  }

  lemma CurvatureTermNonNegative(cross: real, m1: real, m2: real)
    requires m1 > 0.0 && m2 > 0.0
    ensures Quotient(Abs(cross), m1, m2) >= 0.0
  {
    ProductPositive(m1, m2);
    RatioNonNegative(Abs(cross), m1 * m2);
  }

  /** Pass 2 counts exactly the qualifying triplets; a sharp turn is also a
      direction change; the curvature is summed once per triplet and is never
      negative. */
  lemma {:induction false} TurnCounts(e: Elementary, ps: seq<TouchPoint>, k: nat)
    requires 2 <= k <= |ps|
    ensures var t := Turns(e, ps, k);
      t.triplets == |TurnTriplets(e, ps, k)| &&
      t.angular <= t.dirChanges <= t.triplets <= k - 2 &&
      t.curvatureCount == t.triplets && t.curvatureSum >= 0.0
  {
    if k == 2 {
      IndicesEmpty(TurnAt(e, ps), 2);
    } else {
      TurnCounts(e, ps, k - 1);
      IndicesStep(TurnAt(e, ps), 2, k - 1);
      TurnStepCounts(e, Turns(e, ps, k - 1), ps[k - 3], ps[k - 2], ps[k - 1]);
    }
  }

  lemma ProductPositive(a: real, b: real)
    requires a > 0.0 && b > 0.0
    ensures a * b > 0.0
  {
  }

  // ---------------------------------------------------------------------
  // The derived features

  /** `abs(speedValues[i] - speedValues[i - 1])` for i in 1 ..< count. */
  function SpeedDiffs(s: seq<real>): (d: seq<real>)
    ensures |d| == if |s| < 2 then 0 else |s| - 1
    ensures forall i :: 0 <= i < |d| ==> d[i] == Abs(s[i + 1] - s[i])
  {
    if |s| < 2 then [] else SpeedDiffs(s[..|s| - 1]) + [Abs(s[|s| - 1] - s[|s| - 2])]
  }

  /** The jitter: the population standard deviation of the speed
      differences, computed only from three speeds on. */
  function Jitter(e: Elementary, s: seq<real>): real
  {
    if |s| >= 3 then
      var d := SpeedDiffs(s);
      e.sqrt(SumSqDev(d, Sum(d) / (|d| as real)) / (|d| as real))
    else 0.0
  }

  /** Mean of the second half of the speeds minus mean of the first half,
      computed only from four speeds on. */
  function SpeedTrend(s: seq<real>): real
  {
    if |s| >= 4 then
      var mid := |s| / 2;
      Sum(s[mid..]) / ((|s| - mid) as real) - Sum(s[..mid]) / (mid as real)
    else 0.0
  }

  /** `windowPoints.map(\.force)`. */
  function Forces(ps: seq<TouchPoint>): (fs: seq<real>)
    ensures |fs| == |ps| && forall i :: 0 <= i < |ps| ==> fs[i] == ps[i].force
  {
    if ps == [] then [] else Forces(ps[..|ps| - 1]) + [ps[|ps| - 1].force]
  }

  /** `Set(windowPoints.map(\.strokeID))`. */
  function StrokeIDs(ps: seq<TouchPoint>): (ids: set<int>)
    ensures forall id :: id in ids <==> exists p :: p in ps && p.strokeID == id
  {
    if ps == [] then {}
    else
      assert forall p :: p in ps <==> p in ps[..|ps| - 1] || p == ps[|ps| - 1] by {
        assert ps == ps[..|ps| - 1] + [ps[|ps| - 1]];
      }
      StrokeIDs(ps[..|ps| - 1]) + {ps[|ps| - 1].strokeID}
  }

  /** A window of n points holds between 1 and n distinct stroke IDs. */
  lemma {:induction false} StrokeIDsCount(ps: seq<TouchPoint>)
    ensures |StrokeIDs(ps)| <= |ps|
    ensures ps != [] ==> |StrokeIDs(ps)| >= 1
  {
    if ps != [] {
      StrokeIDsCount(ps[..|ps| - 1]);
      assert ps[|ps| - 1].strokeID in StrokeIDs(ps);
    }
  }

  /** The population variance `xs.reduce(0) { $0 + pow($1 - mean, 2) } / count`,
      0 for no values. */
  function Variance(xs: seq<real>): (v: real)
    ensures v >= 0.0
  {
    SumSqDevNonNegative(xs, Mean(xs));
    if xs == [] then 0.0
    else
      RatioNonNegative(SumSqDev(xs, Mean(xs)), |xs| as real);
      SumSqDev(xs, Mean(xs)) / (|xs| as real)
  }

  /** `total > 0 ? CGFloat(part) / CGFloat(total) : fallback`. */
  function Ratio(part: nat, total: nat, fallback: real): (r: real)
    ensures total == 0 ==> r == fallback
    ensures part <= total && 0.0 <= fallback <= 1.0 ==> 0.0 <= r <= 1.0
  {
    if total > 0 then
      if part <= total then RatioInUnit(part as real, total as real); (part as real) / (total as real)
      else (part as real) / (total as real)
    else fallback
  }

  /** The mean curvature term, 0 when no triplet qualified. */
  function MeanCurvature(tr: TurnTally): (c: real)
    ensures tr.curvatureSum >= 0.0 ==> c >= 0.0
  {
    if tr.curvatureCount > 0 then
      if tr.curvatureSum >= 0.0 then RatioNonNegative(tr.curvatureSum, tr.curvatureCount as real); tr.curvatureSum / (tr.curvatureCount as real)
      else tr.curvatureSum / (tr.curvatureCount as real)
    else 0.0
  }

  /** Pauses per second over the window's time span, 0 for a span that is not positive. */
  function PauseFrequency(pauses: nat, totalTime: real): (f: real)
    ensures f >= 0.0
  {
    if totalTime > 0.0 then RatioNonNegative(pauses as real, totalTime); (pauses as real) / totalTime else 0.0
  }

  /** The bounding-box area of the moving samples, never negative. */
  function CoveredArea(mv: MovementTally): (a: real)
    ensures a >= 0.0
  {
    Max((mv.maxX - mv.minX) * (mv.maxY - mv.minY), 0.0)
  }

  /** The covered area as a fraction of the canvas area (at least 1). */
  function TouchArea(covered: real, width: real, height: real): (t: real)
    ensures covered >= 0.0 ==> t >= 0.0
    ensures 0.0 <= covered <= Max(width * height, 1.0) ==> t <= 1.0
  {
    var canvasArea := Max(width * height, 1.0);
    if covered >= 0.0 then RatioNonNegative(covered, canvasArea); covered / canvasArea
    else covered / canvasArea
  }

  /** Assembles `StrokeMetrics` from the two passes, the jitter and the
      canvas size, as the end of `computeMetrics` does. */
  function Derived(ps: seq<TouchPoint>, mv: MovementTally, tr: TurnTally, jitter: real, width: real, height: real): StrokeMetrics
    requires |ps| >= 2
  {
    var speeds := mv.speeds;
    var forces := Forces(ps);
    var coveredArea := CoveredArea(mv);
    StrokeMetrics(
      instantSpeed := if speeds == [] then 0.0 else speeds[|speeds| - 1],
      averageSpeed := Mean(speeds),
      speedVariance := Variance(speeds),
      pressure := Mean(forces),
      curvature := MeanCurvature(tr),
      strokeDensity := (|ps| as real) / Max(coveredArea, 1.0) * 1000.0,
      directionChanges := tr.dirChanges,
      pauseFrequency := PauseFrequency(mv.pauses, ps[|ps| - 1].timestamp - ps[0].timestamp),
      touchArea := TouchArea(coveredArea, width, height),
      downwardRatio := Ratio(mv.downward, mv.movements, 0.5),
      jitter := jitter,
      averageCurvature := MeanCurvature(tr),
      angularity := Ratio(tr.angular, tr.triplets, 0.0),
      strokeCount := |StrokeIDs(ps)|,
      speedTrend := SpeedTrend(speeds),
      pressureVariance := Variance(forces),
      hasPencil := mv.pencil)
  }

  /** The metrics `computeMetrics` computes for a window of at least two
      points on a canvas of the given size. */
  function WindowMetrics(e: Elementary, ps: seq<TouchPoint>, width: real, height: real): StrokeMetrics
    requires |ps| >= 2
  {
    var mv := Movements(e, ps, |ps|);
    Derived(ps, mv, Turns(e, ps, |ps|), Jitter(e, mv.speeds), width, height)
  }

  /** The ratio features lie in [0, 1]; with no movement the downward ratio
      is the neutral 0.5; the counts lie within the window's bounds; the
      variances, the curvature, the pause rate and the covered fraction are
      never negative, and the average curvature repeats the curvature. */
  lemma WindowMetricsRanges(e: Elementary, ps: seq<TouchPoint>, width: real, height: real)
    requires |ps| >= 2
    ensures var m := WindowMetrics(e, ps, width, height);
      0.0 <= m.downwardRatio <= 1.0 && 0.0 <= m.angularity <= 1.0 &&
      (MovingPairs(ps, |ps|) == {} ==> m.downwardRatio == 0.5) &&
      0 <= m.directionChanges <= |ps| - 2 && 1 <= m.strokeCount <= |ps| &&
      m.speedVariance >= 0.0 && m.pressureVariance >= 0.0 && m.curvature >= 0.0 &&
      m.averageCurvature == m.curvature && m.pauseFrequency >= 0.0 && m.touchArea >= 0.0
  {
    MovementCounts(e, ps, |ps|);
    TurnCounts(e, ps, |ps|);
    StrokeIDsCount(ps);
  }

  /** With exact square roots the speed features are never negative. */
  lemma WindowMetricsSpeeds(e: Elementary, ps: seq<TouchPoint>, width: real, height: real)
    requires |ps| >= 2 && SqrtExact(e)
    ensures var m := WindowMetrics(e, ps, width, height);
      m.instantSpeed >= 0.0 && m.averageSpeed >= 0.0 && m.jitter >= 0.0
  {
    SpeedsNonNegative(e, ps, |ps|);
    var speeds := Movements(e, ps, |ps|).speeds;
    MeanNonNegative(speeds);
    if |speeds| >= 3 {
      var d := SpeedDiffs(speeds);
      SumSqDevNonNegative(d, Sum(d) / (|d| as real));
      RatioNonNegative(SumSqDev(d, Sum(d) / (|d| as real)), |d| as real);
    }
  }

  // ---------------------------------------------------------------------
  // The loops of `computeMetrics`

  /** Pass 1 of `computeMetrics`: the loop over adjacent pairs. */
  method ScanMovements(e: Elementary, ps: seq<TouchPoint>) returns (t: MovementTally)
    requires |ps| >= 1
    ensures t == Movements(e, ps, |ps|)
  {
    var minX, maxX := GreatestFiniteMagnitude, -GreatestFiniteMagnitude;
    var minY, maxY := GreatestFiniteMagnitude, -GreatestFiniteMagnitude;
    minX := Min(minX, ps[0].location.x);
    maxX := Max(maxX, ps[0].location.x);
    minY := Min(minY, ps[0].location.y);
    maxY := Max(maxY, ps[0].location.y);
    var speeds: seq<real> := [];
    var downward, movements, pauses: nat := 0, 0, 0;
    var pencil := false;
    for i := 1 to |ps|
      invariant MovementTally(speeds, downward, movements, pauses, pencil, minX, maxX, minY, maxY) == Movements(e, ps, i)
    {
      var prev, curr := ps[i - 1], ps[i];
      if prev.strokeID != curr.strokeID {
        continue;
      }
      var dist := prev.location.Distance(e, curr.location);
      var dt := curr.timestamp - prev.timestamp;
      if !(dt > 0.0) {
        continue;
      }
      speeds := speeds + [dist / dt];
      if curr.location.y > prev.location.y {
        downward := downward + 1;
      }
      movements := movements + 1;
      if dt > PauseThreshold {
        pauses := pauses + 1;
      }
      if Abs(curr.force - 0.5) > 0.01 {
        pencil := true;
      }
      minX := Min(minX, curr.location.x);
      maxX := Max(maxX, curr.location.x);
      minY := Min(minY, curr.location.y);
      maxY := Max(maxY, curr.location.y);
    }
    t := MovementTally(speeds, downward, movements, pauses, pencil, minX, maxX, minY, maxY);
  }

  /** Pass 2 of `computeMetrics`: the loop over triplets. */
  method ScanTurns(e: Elementary, ps: seq<TouchPoint>) returns (t: TurnTally)
    requires |ps| >= 2
    ensures t == Turns(e, ps, |ps|)
  {
    var dirChanges, angular, triplets, curvatureCount: nat := 0, 0, 0, 0;
    var curvatureSum := 0.0;
    for i := 2 to |ps|
      invariant TurnTally(dirChanges, angular, triplets, curvatureSum, curvatureCount) == Turns(e, ps, i)
    {
      var p0, p1, p2 := ps[i - 2], ps[i - 1], ps[i];
      if !(p0.strokeID == p1.strokeID && p1.strokeID == p2.strokeID) {
        continue;
      }
      var v1, v2 := p1.location.Minus(p0.location), p2.location.Minus(p1.location);
      var mag1, mag2 := v1.Magnitude(e), v2.Magnitude(e);
      if !(mag1 > 0.0 && mag2 > 0.0) {
        continue;
      }
      var dot := v1.Dot(v2);
      var cosAngle := Quotient(dot, mag1, mag2);
      var cross := Abs(v1.Cross(v2));
      if cosAngle < 0.0 {
        dirChanges := dirChanges + 1;
      }
      if cosAngle < -0.5 {
        angular := angular + 1;
      }
      triplets := triplets + 1;
      curvatureSum := curvatureSum + Quotient(cross, mag1, mag2);
      curvatureCount := curvatureCount + 1;
    }
    t := TurnTally(dirChanges, angular, triplets, curvatureSum, curvatureCount);
  }

  /** The jitter block of `computeMetrics`, with its loop over the speeds. */
  method ComputeJitter(e: Elementary, speeds: seq<real>) returns (jitter: real)
    ensures jitter == Jitter(e, speeds)
  {
    jitter := 0.0;
    if |speeds| >= 3 {
      var diffs: seq<real> := [];
      for i := 1 to |speeds|
        invariant diffs == SpeedDiffs(speeds[..i])
      {
        assert speeds[..i + 1][..i] == speeds[..i];
        diffs := diffs + [Abs(speeds[i] - speeds[i - 1])];
      }
      assert speeds[..|speeds|] == speeds;
      var meanDiff := Sum(diffs) / (|diffs| as real);
      jitter := e.sqrt(SumSqDev(diffs, meanDiff) / (|diffs| as real));
    }
  }
}
