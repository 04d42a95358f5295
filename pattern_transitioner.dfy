/** `PatternTransitioner`: retargets a particle array, passed `inout`, onto
    a new anchor layout. Its `findNearest` is the same first-nearest search
    as the particle system's `nearestAnchor`, `Particles.NearestAnchor`. */
module Transitioner {
  import opened Foundation
  import opened Geometry
  import opened Moods
  import opened Particles

  /** `transition(particles:to:mood:)`, with the `inout` array as argument
      and result and the random palette choice for particle `i` as `pick(i)`.
      Without anchors nothing changes; otherwise every particle stays where
      it is and is aimed at its nearest new anchor. */
  method Transition(e: Elementary, particles: seq<Particle>, newAnchors: seq<Point>, mood: Mood, pick: nat -> nat)
    returns (result: seq<Particle>)
    ensures newAnchors == [] ==> result == particles
    ensures |result| == |particles|
    ensures newAnchors != [] ==> forall i :: 0 <= i < |result| ==>
      result[i] == Transitioned(e, particles[i], newAnchors, PaletteColor(mood, pick(i)))
  {
    result := particles;
    if newAnchors == [] {
      return;
    }
    var colors := Colors(mood);
    for i := 0 to |result|
      invariant |result| == |particles|
      invariant forall j :: 0 <= j < i ==> result[j] == Transitioned(e, particles[j], newAnchors, PaletteColor(mood, pick(j)))
      invariant forall j :: i <= j < |result| ==> result[j] == particles[j]
    {
      var nearest := NearestAnchor(e, result[i].position, newAnchors);
      var p := result[i];
      result := result[i := p.(targetPosition := nearest, color := colors[pick(i) % |colors|],
                               opacity := 0.5, life := Max(p.life, 0.7))];
    }
  }
}
