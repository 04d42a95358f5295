/** The scoring half of the stroke analyzer: z-score clamping, the mapping of
    the features onto Russell's valence/arousal circumplex, the Gaussian mood
    scores, softmax-and-EMA smoothing and the mood-switch debounce. */
module MoodScoring {
  import opened Foundation
  import opened Moods
  import opened Metrics

  const EmaAlpha: real := 0.35
  const MoodSwitchDelay: real := 0.6
  const GaussianSigma: real := 0.6
  /** The smoothed score a mood starts from: `1 / Mood.allCases.count`. */
  const DefaultPrior: real := 1.0 / 5.0

  // ---------------------------------------------------------------------
  // Circumplex coordinates

  /** `clampZ`: a z-score limited to [-2, 2] and halved. */
  function ClampZ(z: real): (r: real)
    ensures -1.0 <= r <= 1.0
    ensures -2.0 <= z <= 2.0 ==> r * 2.0 == z
    ensures z >= 2.0 ==> r == 1.0
    ensures z <= -2.0 ==> r == -1.0
  {
    Max(-2.0, Min(2.0, z)) / 2.0
  }

  /** `max(-1, min(1, x))`. */
  function Clamp1(x: real): (r: real)
    ensures -1.0 <= r <= 1.0
    ensures -1.0 <= x <= 1.0 ==> r == x
  {
    Max(-1.0, Min(1.0, x))
  }

  /** The eight clamped z-scores of the current metrics. */
  datatype Features = Features(
    speed: real, pressure: real, speedVariance: real, jitter: real,
    curvature: real, angularity: real, dirChanges: real, area: real)

  predicate InUnitRange(f: Features)
  {
    -1.0 <= f.speed <= 1.0 && -1.0 <= f.pressure <= 1.0 && -1.0 <= f.speedVariance <= 1.0 &&
    -1.0 <= f.jitter <= 1.0 && -1.0 <= f.curvature <= 1.0 && -1.0 <= f.angularity <= 1.0 &&
    -1.0 <= f.dirChanges <= 1.0 && -1.0 <= f.area <= 1.0
  }

  /** Arousal: with a pencil, pressure takes part; without, its weight goes
      to speed, speed variance and jitter. */
  function Arousal(hasPencil: bool, f: Features): real
  {
    if hasPencil then 0.4 * f.speed + 0.3 * f.pressure + 0.2 * f.speedVariance + 0.1 * f.jitter
    else 0.55 * f.speed + 0.3 * f.speedVariance + 0.15 * f.jitter
  }

  function Valence(f: Features): real
  {
    0.4 * f.curvature - 0.3 * f.angularity + 0.2 * (1.0 - f.dirChanges) + 0.1 * f.area
  }

  /** Both weightings of arousal are convex combinations, so clamped
      features never need a second clamp on arousal. */
  lemma ArousalInRange(hasPencil: bool, f: Features)
    ensures InUnitRange(f) ==> -1.0 <= Arousal(hasPencil, f) <= 1.0
  {
  }

  /** Valence can leave [-1, 1] even for clamped features, so its clamp is
      needed: the extreme features give 1.2. */
  lemma ValenceCanExceedRange()
    ensures var f := Features(0.0, 0.0, 0.0, 0.0, 1.0, -1.0, -1.0, 1.0);
      InUnitRange(f) && Valence(f) > 1.0
  {
  }

  /** The point on the circumplex, both coordinates clamped to [-1, 1]. */
  function CircumplexPoint(hasPencil: bool, f: Features): (va: ValenceArousal)
    ensures -1.0 <= va.valence <= 1.0 && -1.0 <= va.arousal <= 1.0
    ensures InUnitRange(f) ==> va.arousal == Arousal(hasPencil, f)
  {
    ArousalInRange(hasPencil, f);
    ValenceArousal(Clamp1(Valence(f)), Clamp1(Arousal(hasPencil, f)))
  }

  // ---------------------------------------------------------------------
  // Gaussian mood scores

  /** The mood centres on the circumplex. */
  function MoodCenter(m: Mood): ValenceArousal
  {
    match m
    case Joy => ValenceArousal(0.7, 0.4)
    case Calm => ValenceArousal(0.4, -0.6)
    case Anxiety => ValenceArousal(-0.4, 0.6)
    case Sadness => ValenceArousal(-0.5, -0.7)
    case Anger => ValenceArousal(-0.8, 0.9)
  }

  /** The squared distance from `va` to the centre of `m`. */
  function DistanceSquared(va: ValenceArousal, m: Mood): (d: real)
    ensures d >= 0.0
  {
    var dv, da := va.valence - MoodCenter(m).valence, va.arousal - MoodCenter(m).arousal;
    SquaresNonNegative(dv, da);
    dv * dv + da * da
  }

  lemma SquaresNonNegative(a: real, b: real)
    ensures a * a + b * b >= 0.0
  {
  }

  /** `exp(-distSq / (2 sigma^2))`. */
  function Gaussian(e: Elementary, distSq: real): real
  {
    e.exp(-distSq / (2.0 * (GaussianSigma * GaussianSigma)))
  }

  /** The score of `m` at the point `va`. */
  function GaussianScore(e: Elementary, va: ValenceArousal, m: Mood): real
  {
    Gaussian(e, DistanceSquared(va, m))
  }

  /** The table the loop of `computeMoodScores` has built after the moods of
      `ms`. */
  function ScoreTable(e: Elementary, va: ValenceArousal, ms: seq<Mood>): map<Mood, real>
  {
    if ms == [] then map[]
    else ScoreTable(e, va, ms[..|ms| - 1])[ms[|ms| - 1] := GaussianScore(e, va, ms[|ms| - 1])]
  }

  /** The table has exactly the moods of `ms` as keys, each with its own score. */
  lemma {:induction false} ScoreTableLookup(e: Elementary, va: ValenceArousal, ms: seq<Mood>, m: Mood)
    ensures m in ScoreTable(e, va, ms) <==> m in ms
    ensures m in ms ==> ScoreTable(e, va, ms)[m] == GaussianScore(e, va, m)
  {
    if ms != [] {
      ScoreTableLookup(e, va, ms[..|ms| - 1], m);
      assert ms == ms[..|ms| - 1] + [ms[|ms| - 1]];
    }
  }

  /** The scores that `computeMoodScores` returns for the point `va`: one
      for every mood. */
  function GaussianScores(e: Elementary, va: ValenceArousal): (s: map<Mood, real>)
    ensures forall m: Mood :: m in s
  {
    AllMoodsScored(e, va);
    ScoreTable(e, va, AllCases())
  }

  /** Each mood is scored, under its own score. */
  lemma AllMoodsScored(e: Elementary, va: ValenceArousal)
    ensures forall m: Mood ::
      m in ScoreTable(e, va, AllCases()) && ScoreTable(e, va, AllCases())[m] == GaussianScore(e, va, m)
  {
    forall m: Mood ensures m in ScoreTable(e, va, AllCases()) &&
      ScoreTable(e, va, AllCases())[m] == GaussianScore(e, va, m) {
      AllCasesComplete(m);
      ScoreTableLookup(e, va, AllCases(), m);
    }
  }

  /** `exp` is strictly increasing. */
  ghost predicate ExpMonotone(e: Elementary) {
    forall x, y :: x < y ==> e.exp(x) < e.exp(y)
  }

  /** Every mood is scored, every score is positive, and a mood whose centre is
      nearer to the point scores strictly higher. */
  lemma GaussianScoresSpec(e: Elementary, va: ValenceArousal, m: Mood, n: Mood)
    requires ExpPositive(e) && ExpMonotone(e)
    ensures var s := GaussianScores(e, va);
      m in s && s[m] > 0.0 &&
      (DistanceSquared(va, m) < DistanceSquared(va, n) ==> s[m] > s[n])
  {
    AllMoodsScored(e, va);
    var dm, dn := DistanceSquared(va, m), DistanceSquared(va, n);
    if dm < dn {
      NegatedRatioOrder(dm, dn, 2.0 * (GaussianSigma * GaussianSigma));
    }
  }

  lemma NegatedRatioOrder(a: real, b: real, c: real)
    requires a < b && c > 0.0
    ensures -b / c < -a / c
  {
    assert -b / c * c == -b;
    assert -a / c * c == -a;
  }

  /** Distinct moods have distinct centres. */
  lemma CentresDistinct(m: Mood, n: Mood)
    requires m != n
    ensures DistanceSquared(MoodCenter(m), n) > 0.0
  {
  }

  /** At a mood's centre that mood scores strictly highest. */
  lemma GaussianPeaksAtCentre(e: Elementary, m: Mood, n: Mood)
    requires ExpPositive(e) && ExpMonotone(e) && m != n
    ensures GaussianScores(e, MoodCenter(m))[m] > GaussianScores(e, MoodCenter(m))[n]
  {
    CentresDistinct(m, n);
    assert DistanceSquared(MoodCenter(m), m) == 0.0;
    GaussianScoresSpec(e, MoodCenter(m), m, n);
  }

  // ---------------------------------------------------------------------
  // Softmax and EMA

  /** `dict[key] ?? fallback`. */
  function Get(d: map<Mood, real>, key: Mood, fallback: real): (r: real)
    ensures key in d ==> r == d[key]
    ensures key !in d ==> r == fallback
  {
    if key in d then d[key] else fallback
  }

  /** The largest value `scores` holds for a mood of `ms`, if any. */
  function MaxOver(scores: map<Mood, real>, ms: seq<Mood>): (r: Option<real>)
    ensures r.None? <==> forall i :: 0 <= i < |ms| ==> ms[i] !in scores
    ensures r.Some? ==> exists i :: 0 <= i < |ms| && ms[i] in scores && scores[ms[i]] == r.value
    ensures r.Some? ==> forall i :: 0 <= i < |ms| && ms[i] in scores ==> scores[ms[i]] <= r.value
  {
    if ms == [] then None
    else
      var rest, m := MaxOver(scores, ms[..|ms| - 1]), ms[|ms| - 1];
      if m !in scores then rest
      else if rest.None? then Some(scores[m])
      else Some(Max(rest.value, scores[m]))
  }

  /** `raw.values.max() ?? 0`. */
  function MaxScore(raw: map<Mood, real>): real
  {
    match MaxOver(raw, AllCases())
    case None => 0.0
    case Some(v) => v
  }

  /** The maximum of a non-empty score table is one of its scores and no score
      exceeds it; an empty table gives 0. */
  lemma MaxScoreSpec(raw: map<Mood, real>)
    ensures raw == map[] ==> MaxScore(raw) == 0.0
    ensures raw != map[] ==> MaxScore(raw) in raw.Values
    ensures forall m :: m in raw ==> raw[m] <= MaxScore(raw)
  {
    var all := AllCases();
    forall m | m in raw ensures exists i :: 0 <= i < |all| && all[i] == m {
      AllCasesComplete(m);
    }
    if raw != map[] {
      var m :| m in raw;
      AllCasesComplete(m);
    }
  }

  /** `exp((raw[mood] ?? 0) - maxScore)`. */
  function ExpScore(e: Elementary, raw: map<Mood, real>, m: Mood): real
  {
    e.exp(Get(raw, m, 0.0) - MaxScore(raw))
  }

  /** `expSum` after the moods of `ms`. */
  function ExpSum(e: Elementary, raw: map<Mood, real>, ms: seq<Mood>): real
  {
    if ms == [] then 0.0 else ExpSum(e, raw, ms[..|ms| - 1]) + ExpScore(e, raw, ms[|ms| - 1])
  }

  /** One more mood of `ms` adds its exponential to the running sum. */
  lemma ExpSumStep(e: Elementary, raw: map<Mood, real>, ms: seq<Mood>, i: nat)
    requires i < |ms|
    ensures ms[..i + 1] == ms[..i] + [ms[i]]
    ensures ExpSum(e, raw, ms[..i + 1]) == ExpSum(e, raw, ms[..i]) + ExpScore(e, raw, ms[i])
  {
    assert ms[..i + 1] == ms[..i] + [ms[i]];
    assert ms[..i + 1][..i] == ms[..i];
  }

  /** `x / max(total, 1e-9)`. */
  function Share(x: real, total: real): real
  {
    x / Max(total, 1e-9)
  }

  /** The softmax weight of `m`. */
  function Normalized(e: Elementary, raw: map<Mood, real>, m: Mood): real
  {
    Share(ExpScore(e, raw, m), ExpSum(e, raw, AllCases()))
  }

  /** The smoothed score of `m` given the previous table `prior`. */
  function Smoothed(e: Elementary, raw: map<Mood, real>, prior: map<Mood, real>, m: Mood): real
  {
    EmaAlpha * Normalized(e, raw, m) + (1.0 - EmaAlpha) * Get(prior, m, DefaultPrior)
  }

  /** The table `smoothScores` returns and stores. */
  function SmoothedScores(e: Elementary, raw: map<Mood, real>, prior: map<Mood, real>): map<Mood, real>
  {
    map m | m in AllCases() :: Smoothed(e, raw, prior, m)
  }

  /** The smoothed table has a score for every mood, so any listing of all
      moods without repeats orders its keys. */
  lemma SmoothedScoresKeyOrder(e: Elementary, raw: map<Mood, real>, prior: map<Mood, real>, order: seq<Mood>)
    requires (forall m: Mood :: m in order) && forall i, j :: 0 <= i < j < |order| ==> order[i] != order[j]
    ensures IsKeyOrder(SmoothedScores(e, raw, prior), order)
  {
    forall m: Mood ensures m in SmoothedScores(e, raw, prior) {
      AllCasesComplete(m);
    }
  }

  /** With positive exponentials the sum bounds each of its terms. */
  lemma {:induction false} ExpSumBounds(e: Elementary, raw: map<Mood, real>, ms: seq<Mood>)
    requires ExpPositive(e)
    ensures ms != [] ==> ExpSum(e, raw, ms) > 0.0
    ensures forall i :: 0 <= i < |ms| ==> 0.0 < ExpScore(e, raw, ms[i]) <= ExpSum(e, raw, ms)
  {
    if ms != [] {
      var init := ms[..|ms| - 1];
      ExpSumBounds(e, raw, init);
      forall i | 0 <= i < |ms| ensures 0.0 < ExpScore(e, raw, ms[i]) <= ExpSum(e, raw, ms) {
        if i < |ms| - 1 {
          assert ms[i] == init[i];
        }
      }
    }
  }

  /** Every softmax weight lies in [0, 1]. */
  lemma NormalizedInUnit(e: Elementary, raw: map<Mood, real>, m: Mood)
    requires ExpPositive(e)
    ensures 0.0 <= Normalized(e, raw, m) <= 1.0
  {
    AllCasesComplete(m);
    var all := AllCases();
    var i :| 0 <= i < |all| && all[i] == m;
    ExpSumBounds(e, raw, all);
    RatioInUnit(ExpScore(e, raw, m), Max(ExpSum(e, raw, all), 1e-9));
  }

  /** The EMA blend lies between the new weight and the previous score. */
  lemma SmoothedBetween(e: Elementary, raw: map<Mood, real>, prior: map<Mood, real>, m: Mood)
    ensures var n, p := Normalized(e, raw, m), Get(prior, m, DefaultPrior);
      Min(n, p) <= Smoothed(e, raw, prior, m) <= Max(n, p)
  {
  }

  /** If the previous scores lie in [0, 1], so do the smoothed ones, for every
      mood. */
  lemma SmoothedScoresInUnit(e: Elementary, raw: map<Mood, real>, prior: map<Mood, real>)
    requires ExpPositive(e)
    requires forall m :: m in prior ==> 0.0 <= prior[m] <= 1.0
    ensures var s := SmoothedScores(e, raw, prior);
      forall m :: m in s && 0.0 <= s[m] <= 1.0
  {
    forall m ensures m in SmoothedScores(e, raw, prior) && 0.0 <= Smoothed(e, raw, prior, m) <= 1.0 {
      AllCasesComplete(m);
      NormalizedInUnit(e, raw, m);
      SmoothedBetween(e, raw, prior, m);
    }
  }

  /** The sum of the softmax weights of `ms`. */
  function WeightSum(e: Elementary, raw: map<Mood, real>, ms: seq<Mood>): real
  {
    if ms == [] then 0.0 else WeightSum(e, raw, ms[..|ms| - 1]) + Normalized(e, raw, ms[|ms| - 1])
  }

  /** Scaled by the softmax denominator, the weights of `ms` add up to the
      exponentials of `ms`. */
  lemma {:induction false} WeightSumScaled(e: Elementary, raw: map<Mood, real>, ms: seq<Mood>)
    ensures WeightSum(e, raw, ms) * Max(ExpSum(e, raw, AllCases()), 1e-9) == ExpSum(e, raw, ms)
  {
    if ms != [] {
      var init, m := ms[..|ms| - 1], ms[|ms| - 1];
      var total := ExpSum(e, raw, AllCases());
      WeightSumScaled(e, raw, init);
      ShareScaled(ExpScore(e, raw, m), total);
      ScaledStep(WeightSum(e, raw, init), Normalized(e, raw, m), ExpScore(e, raw, m),
                 ExpSum(e, raw, init), Max(total, 1e-9));
    }
  }

  /** A share times the denominator it was taken of gives the part back. */
  lemma ShareScaled(x: real, total: real)
    ensures Share(x, total) * Max(total, 1e-9) == x
  {
  }

  lemma ScaledStep(w: real, n: real, x: real, s: real, d: real)
    ensures w * d == s && n * d == x ==> (w + n) * d == s + x
  {
  }

  /** Once the exponentials are not vanishingly small the softmax weights add
      up to 1. */
  lemma WeightsSumToOne(e: Elementary, raw: map<Mood, real>)
    requires ExpSum(e, raw, AllCases()) >= 1e-9
    ensures WeightSum(e, raw, AllCases()) == 1.0
  {
    var d := ExpSum(e, raw, AllCases());
    WeightSumScaled(e, raw, AllCases());
    CancelPositive(WeightSum(e, raw, AllCases()), 1.0, d);
  }

  /** `makeScoresDict`: the score table keyed by raw values. */
  function RawKeyed(scores: map<Mood, real>): (d: map<string, real>)
    ensures d.Keys == set m | m in scores :: RawValue(m)
    ensures forall m :: m in scores ==> d[RawValue(m)] == scores[m]
  {
    forall m, n | RawValue(m) == RawValue(n) ensures m == n {
      RawValueInjective(m, n);
    }
    map m | m in scores :: RawValue(m) := scores[m]
  }

  /** The raw-keyed table decodes back to the mood table. */
  lemma RawKeyedRoundTrip(scores: map<Mood, real>, k: string)
    requires k in RawKeyed(scores)
    ensures FromRawValue(k).Some? && FromRawValue(k).value in scores
    ensures RawKeyed(scores)[k] == scores[FromRawValue(k).value]
  {
    var m :| m in scores && RawValue(m) == k;
    RawValueRoundTrip(m);
  }

  /** A table that holds every mood's score under its raw value and only
      raw values of scored moods is the raw-keyed table. */
  lemma RawKeyedUnique(d: map<string, real>, scores: map<Mood, real>)
    requires forall m :: m in scores ==> RawValue(m) in d && d[RawValue(m)] == scores[m]
    requires forall k :: k in d ==> FromRawValue(k).Some? && FromRawValue(k).value in scores
    ensures d == RawKeyed(scores)
  {
    var r := RawKeyed(scores);
    forall k | k in d ensures k in r && d[k] == r[k] {
      var m := FromRawValue(k).value;
      assert RawValue(m) == k;
    }
    assert d.Keys == r.Keys;
  }

  // ---------------------------------------------------------------------
  // The mood-switch debounce

  /** The answer of `shouldSwitchMood` and the switch time it leaves behind. */
  datatype Gate = Gate(accept: bool, last: Option<real>)

  /** `shouldSwitchMood(to:current:)` at time `now`, given the time of the
      previous accepted switch. */
  function SwitchGate(last: Option<real>, newMood: Mood, current: Mood, now: real): (g: Gate)
    ensures g.accept ==> g.last == Some(now)
    ensures !g.accept ==> g.last == last
  {
    if newMood == current then Gate(false, last)
    else match last
      case None => Gate(true, Some(now))
      case Some(t) => if now - t >= MoodSwitchDelay then Gate(true, Some(now)) else Gate(false, last)
  }

  /** The debounce: staying in the same mood is never a switch; the first
      change is always accepted; a later change is accepted exactly when at
      least 0.6 s have passed since the last accepted one. */
  lemma SwitchGateSpec(last: Option<real>, newMood: Mood, current: Mood, now: real)
    ensures newMood == current ==> SwitchGate(last, newMood, current, now) == Gate(false, last)
    ensures newMood != current && last.None? ==> SwitchGate(last, newMood, current, now).accept
    ensures newMood != current && last.Some? ==>
      (SwitchGate(last, newMood, current, now).accept <==> now - last.value >= MoodSwitchDelay)
  {
  }

  /** One call of `shouldSwitchMood`: the candidate, the current mood, the clock. */
  datatype SwitchRequest = SwitchRequest(newMood: Mood, current: Mood, now: real)

  /** The times at which a run of requests is accepted. */
  function AcceptedTimes(last: Option<real>, rs: seq<SwitchRequest>): seq<real>
    decreases |rs|
  {
    if rs == [] then []
    else
      var g := SwitchGate(last, rs[0].newMood, rs[0].current, rs[0].now);
      (if g.accept then [rs[0].now] else []) + AcceptedTimes(g.last, rs[1..])
  }

  /** `ts` starts at least the switch delay after `last` and its consecutive
      entries are at least the switch delay apart. */
  predicate Spaced(last: Option<real>, ts: seq<real>)
  {
    (last.Some? && ts != [] ==> ts[0] - last.value >= MoodSwitchDelay) &&
    forall i :: 0 <= i < |ts| - 1 ==> ts[i + 1] - ts[i] >= MoodSwitchDelay
  }

  /** Whatever the clock does, two accepted switches are never closer than
      the switch delay. */
  lemma {:induction false} AcceptedTimesSpaced(last: Option<real>, rs: seq<SwitchRequest>)
    ensures Spaced(last, AcceptedTimes(last, rs))
    decreases |rs|
  {
    if rs != [] {
      var g := SwitchGate(last, rs[0].newMood, rs[0].current, rs[0].now);
      AcceptedTimesSpaced(g.last, rs[1..]);
      var rest := AcceptedTimes(g.last, rs[1..]);
      if g.accept {
        var ts := [rs[0].now] + rest;
        forall i | 0 <= i < |ts| - 1 ensures ts[i + 1] - ts[i] >= MoodSwitchDelay {
          if i > 0 {
            assert ts[i] == rest[i - 1] && ts[i + 1] == rest[i];
          }
        }
      }
    }
  }
}
