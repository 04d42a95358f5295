/** `ParticleSystem`: the particle population drawn on the canvas, with its
    spawn cap, per-frame spring motion and life decay, and the retargeting
    operations that move particles onto a new anchor layout. */
module Particles {
  import opened Foundation
  import opened Geometry
  import opened Moods

  const MaxParticles: nat := 1200
  const DampingFactor: real := 0.92
  const SpringStiffness: real := 0.03
  const MicroMotionScale: real := 1.5
  /** The life every particle loses per `update`. */
  const LifeDecay: real := 0.0008

  /** `AuraParticle`. Its `id` (a fresh UUID) is identity only and is not modelled. */
  datatype Particle = Particle(
    position: Point,
    targetPosition: Point,
    velocity: Vector,
    color: Color,
    opacity: real,
    size: real,
    life: real,
    phase: real,
    birthTime: real)

  /** The random values one spawned particle draws: which colour of the
      palette, the jitter around the spawn point, opacity, size and phase. */
  datatype SpawnDraw = SpawnDraw(colorPick: nat, jitterX: real, jitterY: real, opacity: real, size: real, phase: real)

  /** `colorSet.randomElement() ?? mood.color`, with the random choice given as `pick`. */
  function PaletteColor(mood: Mood, pick: nat): (c: Color)
    ensures c in Colors(mood)
  {
    var colorSet := Colors(mood);
    colorSet[pick % |colorSet|]
  }

  // ---------------------------------------------------------------------
  // The nearest anchor

  /** Where `anchors.min(by:)` on the distance to `point` stops: a later
      anchor replaces the running best only when it is strictly closer, so
      the first of several equally near anchors wins. */
  function NearestIndex(e: Elementary, point: Point, anchors: seq<Point>): (k: nat)
    requires |anchors| > 0
    ensures k < |anchors|
    ensures forall j :: 0 <= j < |anchors| ==> point.Distance(e, anchors[k]) <= point.Distance(e, anchors[j])
    ensures forall j :: 0 <= j < k ==> point.Distance(e, anchors[k]) < point.Distance(e, anchors[j])
  {
    if |anchors| == 1 then 0
    else
      var best := NearestIndex(e, point, anchors[..|anchors| - 1]);
      if point.Distance(e, anchors[|anchors| - 1]) < point.Distance(e, anchors[best]) then |anchors| - 1 else best
  }

  /** `nearestAnchor(to:in:)`: the point itself when there are no anchors,
      otherwise an anchor no farther from the point than any other. */
  function NearestAnchor(e: Elementary, point: Point, anchors: seq<Point>): (r: Point)
    ensures anchors == [] ==> r == point
    ensures anchors != [] ==> r in anchors && forall a :: a in anchors ==> point.Distance(e, r) <= point.Distance(e, a)
  {
    if anchors == [] then point else anchors[NearestIndex(e, point, anchors)]
  }

  // ---------------------------------------------------------------------
  // The per-particle updates

  /** One particle of `spawnParticles`: jittered around the spawn point,
      aimed at the anchor nearest the un-jittered point, at rest and at full
      life. */
  function Spawned(e: Elementary, point: Point, mood: Mood, anchors: seq<Point>, d: SpawnDraw, now: real): (p: Particle)
    ensures p.targetPosition == NearestAnchor(e, point, anchors)
    ensures p.position == point.Plus(Vector(d.jitterX, d.jitterY))
    ensures p.life == 1.0 && p.velocity == Vector(0.0, 0.0) && p.color in Colors(mood)
  {
    Particle(
      position := point.Plus(Vector(d.jitterX, d.jitterY)),
      targetPosition := NearestAnchor(e, point, anchors),
      velocity := Vector(0.0, 0.0),
      color := PaletteColor(mood, d.colorPick),
      opacity := d.opacity,
      size := d.size,
      life := 1.0,
      phase := d.phase,
      birthTime := now)
  }

  /** The particles one `spawnParticles` call creates, in order. */
  function SpawnBatch(e: Elementary, point: Point, mood: Mood, anchors: seq<Point>, draws: seq<SpawnDraw>, now: real): (ps: seq<Particle>)
    ensures |ps| == |draws|
    ensures forall i :: 0 <= i < |draws| ==> ps[i] == Spawned(e, point, mood, anchors, draws[i], now)
  {
    seq(|draws|, i requires 0 <= i < |draws| => Spawned(e, point, mood, anchors, draws[i], now))
  }

  /** `enforceLimit` on a population: the newest `maxParticles`, in order. */
  function Capped(ps: seq<Particle>): (r: seq<Particle>)
    ensures |r| == if |ps| > MaxParticles then MaxParticles else |ps|
    ensures r == ps[|ps| - |r|..]
  {
    if |ps| > MaxParticles then ps[|ps| - MaxParticles..] else ps
  }

  /** One particle after one `update` at time `time`: the velocity is damped
      towards the target by the spring, nudged by the phase-dependent micro
      motion, the position advances by the new velocity and life decays. */
  function Stepped(e: Elementary, p: Particle, time: real): (r: Particle)
    ensures r.life == p.life - LifeDecay
    ensures r.position == p.position.Plus(r.velocity)
    ensures r.targetPosition == p.targetPosition && r.color == p.color && r.opacity == p.opacity
    ensures r.size == p.size && r.phase == p.phase && r.birthTime == p.birthTime
  {
    var spring := p.targetPosition.Minus(p.position).Times(SpringStiffness);
    var microX := e.sin(time * 1.5 + p.phase) * MicroMotionScale;
    var microY := e.cos(time * 1.2 + p.phase * 0.7) * MicroMotionScale;
    var velocity := p.velocity.Plus(spring).Times(DampingFactor).Plus(Vector(microX * 0.05, microY * 0.05));
    p.(velocity := velocity, position := p.position.Plus(velocity), life := p.life - LifeDecay)
  }

  /** Whether `removeAll { $0.life <= 0 }` drops the particle. */
  predicate Expired(p: Particle)
  {
    p.life <= 0.0
  }

  /** The population after `update`: every particle stepped, then the
      expired ones removed. */
  function Updated(e: Elementary, ps: seq<Particle>, time: real): seq<Particle>
  {
    RemoveAll(seq(|ps|, i requires 0 <= i < |ps| => Stepped(e, ps[i], time)), Expired)
  }

  /** One particle of `transitionToAnchors` (and of the pattern transitioner):
      aimed at the nearest new anchor, recoloured, brightened to 0.5 and kept
      alive for at least 0.7; it does not move. */
  function Transitioned(e: Elementary, p: Particle, anchors: seq<Point>, color: Color): (r: Particle)
    ensures r.targetPosition == NearestAnchor(e, p.position, anchors)
    ensures r.opacity == 0.5 && r.color == color
    ensures r.life >= p.life && r.life >= 0.7 && (r.life == p.life || r.life == 0.7)
    ensures r.position == p.position && r.velocity == p.velocity && r.size == p.size && r.phase == p.phase
    ensures r.birthTime == p.birthTime
  {
    p.(targetPosition := NearestAnchor(e, p.position, anchors), color := color, opacity := 0.5, life := Max(p.life, 0.7))
  }

  /** One particle of `reassignTargets`: only the target and the life change. */
  function Reassigned(e: Elementary, p: Particle, anchors: seq<Point>): (r: Particle)
    ensures r.targetPosition == NearestAnchor(e, p.position, anchors)
    ensures r.life >= p.life && r.life >= 0.8 && (r.life == p.life || r.life == 0.8)
    ensures r == p.(targetPosition := r.targetPosition, life := r.life)
  {
    p.(targetPosition := NearestAnchor(e, p.position, anchors), life := Max(p.life, 0.8))
  }

  /** One particle of `recolorToCalm`: a calm colour, life at least 0.5 and a
      new opacity. */
  function Recolored(p: Particle, pick: nat, opacity: real): (r: Particle)
    ensures r.color in Colors(Calm) && r.opacity == opacity
    ensures r.life >= p.life && r.life >= 0.5 && (r.life == p.life || r.life == 0.5)
    ensures r == p.(color := r.color, life := r.life, opacity := opacity)
  {
    p.(color := PaletteColor(Calm, pick), life := Max(p.life, 0.5), opacity := opacity)
  }

  // ---------------------------------------------------------------------
  // Lemmas about the population

  /** `update` never grows the population, keeps only live particles, and each
      keeps the order and is one of the old particles stepped, with exactly
      `LifeDecay` less life. */
  lemma UpdateSurvivors(e: Elementary, ps: seq<Particle>, time: real)
    ensures |Updated(e, ps, time)| <= |ps|
    ensures forall q :: q in Updated(e, ps, time) ==>
      q.life > 0.0 && exists i :: 0 <= i < |ps| && q == Stepped(e, ps[i], time) && q.life == ps[i].life - LifeDecay
  {
    var stepped := seq(|ps|, i requires 0 <= i < |ps| => Stepped(e, ps[i], time));
    forall q | q in Updated(e, ps, time)
      ensures q.life > 0.0 && exists i :: 0 <= i < |ps| && q == Stepped(e, ps[i], time) && q.life == ps[i].life - LifeDecay
    {
      assert q in stepped && !Expired(q);
      var i :| 0 <= i < |stepped| && stepped[i] == q;
      assert q == Stepped(e, ps[i], time);
    }
  }

  /** Updating a population made of an older and a newer part updates each part
      on its own: survivors keep their relative order. */
  lemma UpdateOrder(e: Elementary, ps: seq<Particle>, qs: seq<Particle>, time: real)
    ensures Updated(e, ps + qs, time) == Updated(e, ps, time) + Updated(e, qs, time)
  {
    var all := seq(|ps + qs|, i requires 0 <= i < |ps + qs| => Stepped(e, (ps + qs)[i], time));
    var first := seq(|ps|, i requires 0 <= i < |ps| => Stepped(e, ps[i], time));
    var second := seq(|qs|, i requires 0 <= i < |qs| => Stepped(e, qs[i], time));
    assert all == first + second;
    RemoveAllAppend(first, second, Expired);
  }

  /** After a spawn of `k` particles into a population within the cap, the
      population is the smaller of the sum and the cap, made of the newest
      particles in order. */
  lemma SpawnCount(old_: seq<Particle>, batch: seq<Particle>)
    requires |old_| <= MaxParticles
    ensures |Capped(old_ + batch)| == if |old_| + |batch| > MaxParticles then MaxParticles else |old_| + |batch|
    ensures |old_| + |batch| <= MaxParticles ==> Capped(old_ + batch) == old_ + batch
    ensures |batch| >= MaxParticles ==> Capped(old_ + batch) == batch[|batch| - MaxParticles..]
  {
    var s := old_ + batch;
    if |batch| >= MaxParticles {
      assert s[|s| - MaxParticles..] == batch[|batch| - MaxParticles..];
    }
  }

  /** `ParticleSystem`. */
  class ParticleSystem {
    const e: Elementary
    var particles: seq<Particle>

    constructor (e: Elementary)
      ensures this.e == e && particles == []
    {
      this.e := e;
      particles := [];
    }

    /** `spawnParticles(at:count:mood:anchors:)`: one particle per draw is
        appended, then the cap drops the oldest. */
    method SpawnParticles(point: Point, mood: Mood, anchors: seq<Point>, draws: seq<SpawnDraw>, now: real)
      modifies this`particles
      ensures particles == Capped(old(particles) + SpawnBatch(e, point, mood, anchors, draws, now))
    {
      ghost var before := particles;
      for i := 0 to |draws|
        invariant |particles| == |before| + i
        invariant particles[..|before|] == before
        invariant forall j :: 0 <= j < i ==> particles[|before| + j] == Spawned(e, point, mood, anchors, draws[j], now)
      {
        var colorSet := Colors(mood);
        var color := colorSet[draws[i].colorPick % |colorSet|];
        var nearest := NearestAnchor(e, point, anchors);
        var particle := Particle(
          position := point.Plus(Vector(draws[i].jitterX, draws[i].jitterY)),
          targetPosition := nearest,
          velocity := Vector(0.0, 0.0),
          color := color,
          opacity := draws[i].opacity,
          size := draws[i].size,
          life := 1.0,
          phase := draws[i].phase,
          birthTime := now);
        particles := particles + [particle];
      }
      assert particles == before + SpawnBatch(e, point, mood, anchors, draws, now);
      EnforceLimit();
    }

    /** `update(time:mood:)`: every particle moves one step, then the expired
        ones are removed. */
    method Update(time: real)
      modifies this`particles
      ensures particles == Updated(e, old(particles), time)
    {
      ghost var before := particles;
      for i := 0 to |particles|
        invariant |particles| == |before|
        invariant forall j :: 0 <= j < i ==> particles[j] == Stepped(e, before[j], time)
        invariant forall j :: i <= j < |particles| ==> particles[j] == before[j]
      {
        var p := StepParticle(particles[i], time);
        particles := particles[i := p];
      }
      assert particles == seq(|before|, i requires 0 <= i < |before| => Stepped(e, before[i], time));
      particles := RemoveAll(particles, Expired);
    }

    /** The body of `update`'s loop for one particle. */
    method StepParticle(p: Particle, time: real) returns (r: Particle)
      ensures r == Stepped(e, p, time)
    {
      var dx := p.targetPosition.x - p.position.x;
      var dy := p.targetPosition.y - p.position.y;
      var springForce := Vector(dx * SpringStiffness, dy * SpringStiffness);
      var phase := p.phase;
      var microX := e.sin(time * 1.5 + phase) * MicroMotionScale;
      var microY := e.cos(time * 1.2 + phase * 0.7) * MicroMotionScale;
      var velocity := p.velocity.Plus(springForce).Times(DampingFactor);
      velocity := velocity.Plus(Vector(microX * 0.05, microY * 0.05));
      r := p.(velocity := velocity, position := p.position.Plus(velocity), life := p.life - LifeDecay);
    }

    /** `transitionToAnchors(_:mood:)` up to the scheduled fade-back: every
        particle retargeted to the nearest new anchor, recoloured with the
        palette colour `pick` chooses for it, brightened and kept alive. */
    method TransitionToAnchors(newAnchors: seq<Point>, mood: Mood, pick: nat -> nat)
      modifies this`particles
      ensures |particles| == |old(particles)|
      ensures forall i :: 0 <= i < |particles| ==>
        particles[i] == Transitioned(e, old(particles)[i], newAnchors, PaletteColor(mood, pick(i)))
    {
      ghost var before := particles;
      var colors := Colors(mood);
      for i := 0 to |particles|
        invariant |particles| == |before|
        invariant forall j :: 0 <= j < i ==> particles[j] == Transitioned(e, before[j], newAnchors, PaletteColor(mood, pick(j)))
        invariant forall j :: i <= j < |particles| ==> particles[j] == before[j]
      {
        var nearest := NearestAnchor(e, particles[i].position, newAnchors);
        var p := particles[i];
        particles := particles[i := p.(targetPosition := nearest, color := colors[pick(i) % |colors|],
                                       opacity := 0.5, life := Max(p.life, 0.7))];
      }
    }

    /** `reassignTargets(_:)`: nothing changes without anchors; otherwise
        every particle is retargeted to its nearest anchor and kept alive. */
    method ReassignTargets(anchors: seq<Point>)
      modifies this`particles
      ensures anchors == [] ==> particles == old(particles)
      ensures |particles| == |old(particles)|
      ensures anchors != [] ==> forall i :: 0 <= i < |particles| ==> particles[i] == Reassigned(e, old(particles)[i], anchors)
    {
      if anchors == [] {
        return;
      }
      ghost var before := particles;
      for i := 0 to |particles|
        invariant |particles| == |before|
        invariant forall j :: 0 <= j < i ==> particles[j] == Reassigned(e, before[j], anchors)
        invariant forall j :: i <= j < |particles| ==> particles[j] == before[j]
      {
        var nearest := NearestAnchor(e, particles[i].position, anchors);
        var p := particles[i];
        particles := particles[i := p.(targetPosition := nearest, life := Max(p.life, 0.8))];
      }
    }

    /** `clear()`. */
    method Clear()
      modifies this`particles
      ensures particles == []
    {
      particles := [];
    }

    /** `recolorToCalm()`: every particle takes a calm colour and the opacity
        drawn for it and is kept alive for at least 0.5. */
    method RecolorToCalm(pick: nat -> nat, opacity: nat -> real)
      modifies this`particles
      ensures |particles| == |old(particles)|
      ensures forall i :: 0 <= i < |particles| ==> particles[i] == Recolored(old(particles)[i], pick(i), opacity(i))
    {
      ghost var before := particles;
      var colors := Colors(Calm);
      for i := 0 to |particles|
        invariant |particles| == |before|
        invariant forall j :: 0 <= j < i ==> particles[j] == Recolored(before[j], pick(j), opacity(j))
        invariant forall j :: i <= j < |particles| ==> particles[j] == before[j]
      {
        var p := particles[i];
        particles := particles[i := p.(color := colors[pick(i) % |colors|], life := Max(p.life, 0.5), opacity := opacity(i))];
      }
    }

    /** `enforceLimit()`: above the cap, the oldest particles are dropped from
        the front. */
    method EnforceLimit()
      modifies this`particles
      ensures particles == Capped(old(particles))
    {
      if |particles| > MaxParticles {
        particles := particles[|particles| - MaxParticles..];
      }
    }
  }
}
