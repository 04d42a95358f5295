/** `PatternGenerator`: the per-mood anchor layouts the particles settle on.
    Every generator builds its array with nested loops that append one point
    per (row, column) pair; each is specified here by the point formula of
    one cell and the row-major order of the cells. */
module Patterns {
  import opened Foundation
  import opened Geometry
  import opened Moods

  // ---------------------------------------------------------------------
  // Joy: ten radiating petals of ten points

  /** Point `j` of petal `i`. */
  function JoyPoint(e: Elementary, center: Point, radius: real, time: real, i: nat, j: nat): Point
  {
    var rotation := time * 0.008;
    var baseAngle := (i as real) / 10.0 * e.pi * 2.0 + rotation;
    var t := (j as real) / 10.0;
    var breathe := 1.0 + 0.05 * e.sin(time * 2.0 + i as real);
    var r := radius * t * (0.5 + 0.5 * e.sin(t * e.pi)) * breathe;
    var angle := baseAngle + e.sin(t * e.pi) * 0.3;
    Point(center.x + e.cos(angle) * r, center.y + e.sin(angle) * r)
  }

  /** The layout `joyAnchors` builds: petal after petal. */
  function JoyLayout(e: Elementary, center: Point, radius: real, time: real): seq<Point>
  {
    seq(100, k requires 0 <= k < 100 => JoyPoint(e, center, radius, time, k / 10, k % 10))
  }

  /** 100 points in petal-major order, and the first point of every petal is
      the centre. */
  lemma JoyShape(e: Elementary, center: Point, radius: real, time: real)
    ensures |JoyLayout(e, center, radius, time)| == 100
    ensures forall i, j :: 0 <= i < 10 && 0 <= j < 10 ==>
      JoyLayout(e, center, radius, time)[i * 10 + j] == JoyPoint(e, center, radius, time, i, j)
    ensures forall i :: 0 <= i < 10 ==> JoyPoint(e, center, radius, time, i, 0) == center
  {
    forall i, j | 0 <= i < 10 && 0 <= j < 10
      ensures JoyLayout(e, center, radius, time)[i * 10 + j] == JoyPoint(e, center, radius, time, i, j)
    {
      assert (i * 10 + j) / 10 == i && (i * 10 + j) % 10 == j;
    }
    forall i | 0 <= i < 10
      ensures JoyPoint(e, center, radius, time, i, 0) == center
    {
      var breathe := 1.0 + 0.05 * e.sin(time * 2.0 + i as real);
      assert radius * 0.0 * (0.5 + 0.5 * e.sin(0.0 * e.pi)) * breathe == 0.0;
    }
  }

  /** `joyAnchors(center:radius:time:)`. */
  method JoyAnchors(e: Elementary, center: Point, radius: real, time: real) returns (anchors: seq<Point>)
    ensures anchors == JoyLayout(e, center, radius, time)
  {
    anchors := [];
    var petalCount := 10;
    for i := 0 to petalCount
      invariant |anchors| == i * 10
      invariant forall k :: 0 <= k < |anchors| ==> anchors[k] == JoyPoint(e, center, radius, time, k / 10, k % 10)
    {
      for j := 0 to 10
        invariant |anchors| == i * 10 + j
        invariant forall k :: 0 <= k < |anchors| ==> anchors[k] == JoyPoint(e, center, radius, time, k / 10, k % 10)
      {
        assert (i * 10 + j) / 10 == i && (i * 10 + j) % 10 == j;
        anchors := anchors + [JoyPoint(e, center, radius, time, i, j)];
      }
    }
    assert anchors == JoyLayout(e, center, radius, time);
  }

  // ---------------------------------------------------------------------
  // Calm: four rippling rings of 24 points

  /** Point `p` of ring `ring`. */
  function CalmPoint(e: Elementary, center: Point, radius: real, time: real, ring: nat, p: nat): Point
  {
    var baseR := ((ring + 1) as real) / 4.0 * radius;
    var ripple := 3.0 * e.sin(time * 1.5 + (ring as real) * 1.2);
    var r := baseR + ripple;
    var angle := (p as real) / 24.0 * e.pi * 2.0;
    Point(center.x + e.cos(angle) * r, center.y + e.sin(angle) * r)
  }

  /** The layout `calmAnchors` builds: ring after ring. */
  function CalmLayout(e: Elementary, center: Point, radius: real, time: real): seq<Point>
  {
    seq(96, k requires 0 <= k < 96 => CalmPoint(e, center, radius, time, k / 24, k % 24))
  }

  /** 96 points in ring-major order: point `p` of ring `ring` is at index
      `ring * 24 + p`. */
  lemma CalmShape(e: Elementary, center: Point, radius: real, time: real)
    ensures |CalmLayout(e, center, radius, time)| == 96
    ensures forall ring, p :: 0 <= ring < 4 && 0 <= p < 24 ==>
      CalmLayout(e, center, radius, time)[ring * 24 + p] == CalmPoint(e, center, radius, time, ring, p)
  {
    forall ring, p | 0 <= ring < 4 && 0 <= p < 24
      ensures CalmLayout(e, center, radius, time)[ring * 24 + p] == CalmPoint(e, center, radius, time, ring, p)
    {
      assert (ring * 24 + p) / 24 == ring && (ring * 24 + p) % 24 == p;
    }
  }

  /** `calmAnchors(center:radius:time:)`. */
  method CalmAnchors(e: Elementary, center: Point, radius: real, time: real) returns (anchors: seq<Point>)
    ensures anchors == CalmLayout(e, center, radius, time)
  {
    anchors := [];
    var ringCount := 4;
    var pointsPerRing := 24;
    for ring := 0 to ringCount
      invariant |anchors| == ring * 24
      invariant forall k :: 0 <= k < |anchors| ==> anchors[k] == CalmPoint(e, center, radius, time, k / 24, k % 24)
    {
      for p := 0 to pointsPerRing
        invariant |anchors| == ring * 24 + p
        invariant forall k :: 0 <= k < |anchors| ==> anchors[k] == CalmPoint(e, center, radius, time, k / 24, k % 24)
      {
        assert (ring * 24 + p) / 24 == ring && (ring * 24 + p) % 24 == p;
        anchors := anchors + [CalmPoint(e, center, radius, time, ring, p)];
      }
    }
    assert anchors == CalmLayout(e, center, radius, time);
  }

  // ---------------------------------------------------------------------
  // Breathing: four static rings scaled by the breath factor

  /** Point `p` of ring `ring`. */
  function BreathingPoint(e: Elementary, center: Point, baseRadius: real, breathFactor: real, ring: nat, p: nat): Point
  {
    var r := ((ring + 1) as real) / 4.0 * baseRadius * breathFactor;
    var angle := (p as real) / 24.0 * e.pi * 2.0;
    Point(center.x + e.cos(angle) * r, center.y + e.sin(angle) * r)
  }

  /** The layout `breathingAnchors` builds: ring after ring. */
  function BreathingLayout(e: Elementary, center: Point, baseRadius: real, breathFactor: real): seq<Point>
  {
    seq(96, k requires 0 <= k < 96 => BreathingPoint(e, center, baseRadius, breathFactor, k / 24, k % 24))
  }

  /** 96 points in ring-major order, all of them at the centre when the breath
      factor is 0. */
  lemma BreathingShape(e: Elementary, center: Point, baseRadius: real, breathFactor: real)
    ensures |BreathingLayout(e, center, baseRadius, breathFactor)| == 96
    ensures forall ring, p :: 0 <= ring < 4 && 0 <= p < 24 ==>
      BreathingLayout(e, center, baseRadius, breathFactor)[ring * 24 + p] == BreathingPoint(e, center, baseRadius, breathFactor, ring, p)
    ensures breathFactor == 0.0 ==> forall k :: 0 <= k < 96 ==> BreathingLayout(e, center, baseRadius, breathFactor)[k] == center
  {
    forall ring, p | 0 <= ring < 4 && 0 <= p < 24
      ensures BreathingLayout(e, center, baseRadius, breathFactor)[ring * 24 + p] == BreathingPoint(e, center, baseRadius, breathFactor, ring, p)
    {
      assert (ring * 24 + p) / 24 == ring && (ring * 24 + p) % 24 == p;
    }
    if breathFactor == 0.0 {
      forall k | 0 <= k < 96
        ensures BreathingLayout(e, center, baseRadius, breathFactor)[k] == center
      {
        assert ((k / 24 + 1) as real) / 4.0 * baseRadius * breathFactor == 0.0;
      }
    }
  }

  /** `breathingAnchors(center:baseRadius:breathFactor:)`. */
  method BreathingAnchors(e: Elementary, center: Point, baseRadius: real, breathFactor: real) returns (anchors: seq<Point>)
    ensures anchors == BreathingLayout(e, center, baseRadius, breathFactor)
  {
    anchors := [];
    var ringCount := 4;
    var pointsPerRing := 24;
    for ring := 0 to ringCount
      invariant |anchors| == ring * 24
      invariant forall k :: 0 <= k < |anchors| ==> anchors[k] == BreathingPoint(e, center, baseRadius, breathFactor, k / 24, k % 24)
    {
      for p := 0 to pointsPerRing
        invariant |anchors| == ring * 24 + p
        invariant forall k :: 0 <= k < |anchors| ==> anchors[k] == BreathingPoint(e, center, baseRadius, breathFactor, k / 24, k % 24)
      {
        assert (ring * 24 + p) / 24 == ring && (ring * 24 + p) % 24 == p;
        anchors := anchors + [BreathingPoint(e, center, baseRadius, breathFactor, ring, p)];
      }
    }
    assert anchors == BreathingLayout(e, center, baseRadius, breathFactor);
  }

  // ---------------------------------------------------------------------
  // Sadness: six falling streams of 15 points

  /** The streams' shared downward drift, `fmod(time * 0.3 + s * 0.2, 1)`. */
  function FallOffset(time: real, s: nat): (f: real)
    ensures time >= 0.0 ==> 0.0 <= f < 1.0
  {
    TruncatingRemainder(time * 0.3 + (s as real) * 0.2, 1.0)
  }

  /** Point `p` of stream `s`; the stream's offset `s - streamCount / 2` is
      taken in integers. */
  function SadnessPoint(e: Elementary, center: Point, radius: real, time: real, s: nat, p: nat): Point
  {
    var baseX := center.x + ((s - 6 / 2) as real) * (radius * 0.4);
    var curve := 8.0 * e.sin((s as real) * 0.5);
    var t := (p as real) / 15.0;
    var y := center.y - radius + t * radius * 2.0 + FallOffset(time, s) * 20.0;
    var x := baseX + curve * t;
    Point(x, y)
  }

  /** The layout `sadnessAnchors` builds: stream after stream. */
  function SadnessLayout(e: Elementary, center: Point, radius: real, time: real): seq<Point>
  {
    seq(90, k requires 0 <= k < 90 => SadnessPoint(e, center, radius, time, k / 15, k % 15))
  }

  /** 90 points in stream-major order; point `p` of stream `s` sits
      `(s - 3) * 0.4 * radius` beside the centre and drifts sideways by
      `8 sin(0.5 s) * p / 15`, and for a non-negative time it lies less than
      20 below its undrifted height. */
  lemma SadnessShape(e: Elementary, center: Point, radius: real, time: real)
    ensures |SadnessLayout(e, center, radius, time)| == 90
    ensures forall s, p :: 0 <= s < 6 && 0 <= p < 15 ==>
      SadnessLayout(e, center, radius, time)[s * 15 + p] == SadnessPoint(e, center, radius, time, s, p)
    ensures forall s, p :: 0 <= s < 6 && 0 <= p < 15 ==>
      SadnessPoint(e, center, radius, time, s, p).x ==
        center.x + ((s - 3) as real) * (radius * 0.4) + 8.0 * e.sin((s as real) * 0.5) * ((p as real) / 15.0)
    ensures time >= 0.0 ==> forall s, p :: 0 <= s < 6 && 0 <= p < 15 ==>
      var y0 := center.y - radius + (p as real) / 15.0 * radius * 2.0;
      y0 <= SadnessPoint(e, center, radius, time, s, p).y < y0 + 20.0
  {
    forall s, p | 0 <= s < 6 && 0 <= p < 15
      ensures SadnessLayout(e, center, radius, time)[s * 15 + p] == SadnessPoint(e, center, radius, time, s, p)
    {
      assert (s * 15 + p) / 15 == s && (s * 15 + p) % 15 == p;
    }
    forall s: nat, p: nat | s < 6 && p < 15 {
      SadnessPointPlace(e, center, radius, time, s, p);
    }
  }

  /** Where one stream point lies: the sideways formula and the drift band. */
  lemma SadnessPointPlace(e: Elementary, center: Point, radius: real, time: real, s: nat, p: nat)
    ensures SadnessPoint(e, center, radius, time, s, p).x ==
      center.x + ((s - 3) as real) * (radius * 0.4) + 8.0 * e.sin((s as real) * 0.5) * ((p as real) / 15.0)
    ensures time >= 0.0 ==>
      var y0 := center.y - radius + (p as real) / 15.0 * radius * 2.0;
      y0 <= SadnessPoint(e, center, radius, time, s, p).y < y0 + 20.0
  {
    var f := FallOffset(time, s);
    assert SadnessPoint(e, center, radius, time, s, p).y ==
      center.y - radius + (p as real) / 15.0 * radius * 2.0 + f * 20.0;
  }

  /** `sadnessAnchors(center:radius:time:)`. */
  method SadnessAnchors(e: Elementary, center: Point, radius: real, time: real) returns (anchors: seq<Point>)
    ensures anchors == SadnessLayout(e, center, radius, time)
  {
    anchors := [];
    var streamCount := 6;
    var pointsPerStream := 15;
    for s := 0 to streamCount
      invariant |anchors| == s * 15
      invariant forall k :: 0 <= k < |anchors| ==> anchors[k] == SadnessPoint(e, center, radius, time, k / 15, k % 15)
    {
      for p := 0 to pointsPerStream
        invariant |anchors| == s * 15 + p
        invariant forall k :: 0 <= k < |anchors| ==> anchors[k] == SadnessPoint(e, center, radius, time, k / 15, k % 15)
      {
        assert (s * 15 + p) / 15 == s && (s * 15 + p) % 15 == p;
        anchors := anchors + [SadnessPoint(e, center, radius, time, s, p)];
      }
    }
    assert anchors == SadnessLayout(e, center, radius, time);
  }

  // ---------------------------------------------------------------------
  // Anger: six pulsing spikes of 12 points, forked at the tip

  function SpikeAngle(e: Elementary, s: nat): real
  {
    (s as real) / 6.0 * e.pi * 2.0
  }

  /** The spike's length, fixed per spike by `(s * 3 + 7) % 11`: between 0.6
      and 1 times the radius. */
  function SpikeLength(radius: real, s: nat): (len: real)
    ensures radius >= 0.0 ==> radius * 0.6 <= len <= radius
  {
    var k := (s * 3 + 7) % 11;
    var factor := 0.6 + 0.4 * (k as real) / 11.0;
    assert 0.6 <= factor <= 1.0;
    assert radius >= 0.0 ==> radius * 0.6 <= radius * factor <= radius * 1.0;
    radius * factor
  }

  /** The fork: zero up to 80% of the spike, then alternating sides. */
  function ForkOffset(p: nat): real
  {
    var t := (p as real) / 12.0;
    var fork := if t > 0.8 then (t - 0.8) * 0.4 else 0.0;
    fork * (if p % 2 == 0 then 1.0 else -1.0)
  }

  /** Point `p` of spike `s`. */
  function AngerPoint(e: Elementary, center: Point, radius: real, time: real, s: nat, p: nat): Point
  {
    var pulse := 1.0 + 0.2 * e.sin(time * 5.0 + s as real);
    var t := (p as real) / 12.0;
    var r := SpikeLength(radius, s) * t * pulse;
    var angle := SpikeAngle(e, s) + ForkOffset(p);
    Point(center.x + e.cos(angle) * r, center.y + e.sin(angle) * r)
  }

  /** The layout `angerAnchors` builds: spike after spike. */
  function AngerLayout(e: Elementary, center: Point, radius: real, time: real): seq<Point>
  {
    seq(72, k requires 0 <= k < 72 => AngerPoint(e, center, radius, time, k / 12, k % 12))
  }

  /** 72 points in spike-major order; the first point of every spike is the
      centre, and the first ten points of a spike are unforked. */
  lemma AngerShape(e: Elementary, center: Point, radius: real, time: real)
    ensures |AngerLayout(e, center, radius, time)| == 72
    ensures forall s, p :: 0 <= s < 6 && 0 <= p < 12 ==>
      AngerLayout(e, center, radius, time)[s * 12 + p] == AngerPoint(e, center, radius, time, s, p)
    ensures forall s :: 0 <= s < 6 ==> AngerPoint(e, center, radius, time, s, 0) == center
    ensures forall p :: 0 <= p <= 9 ==> ForkOffset(p) == 0.0
  {
    forall s, p | 0 <= s < 6 && 0 <= p < 12
      ensures AngerLayout(e, center, radius, time)[s * 12 + p] == AngerPoint(e, center, radius, time, s, p)
    {
      assert (s * 12 + p) / 12 == s && (s * 12 + p) % 12 == p;
    }
    forall s | 0 <= s < 6
      ensures AngerPoint(e, center, radius, time, s, 0) == center
    {
      var pulse := 1.0 + 0.2 * e.sin(time * 5.0 + s as real);
      assert SpikeLength(radius, s) * 0.0 * pulse == 0.0;
    }
    forall p | 0 <= p <= 9
      ensures ForkOffset(p) == 0.0
    {
      assert (p as real) / 12.0 <= 0.8;
    }
  }

  /** `angerAnchors(center:radius:time:)`. */
  method AngerAnchors(e: Elementary, center: Point, radius: real, time: real) returns (anchors: seq<Point>)
    ensures anchors == AngerLayout(e, center, radius, time)
  {
    anchors := [];
    var spikeCount := 6;
    var pointsPerSpike := 12;
    for s := 0 to spikeCount
      invariant |anchors| == s * 12
      invariant forall k :: 0 <= k < |anchors| ==> anchors[k] == AngerPoint(e, center, radius, time, k / 12, k % 12)
    {
      for p := 0 to pointsPerSpike
        invariant |anchors| == s * 12 + p
        invariant forall k :: 0 <= k < |anchors| ==> anchors[k] == AngerPoint(e, center, radius, time, k / 12, k % 12)
      {
        assert (s * 12 + p) / 12 == s && (s * 12 + p) % 12 == p;
        anchors := anchors + [AngerPoint(e, center, radius, time, s, p)];
      }
    }
    assert anchors == AngerLayout(e, center, radius, time);
  }

  // ---------------------------------------------------------------------
  // Anxiety: 20 hashed nodes and the midpoints of their close pairs

  const NodeCount: nat := 20

  /** The two pseudo-random coordinates of node `i`, from the seed `Int(time * 0.5)`
      and Swift's sign-keeping `%`. */
  function NodeHash(time: real, i: nat): (h: real)
    ensures time >= 0.0 ==> 0.0 <= h < 1.0
  {
    Rem(i * 7 + Trunc(time * 0.5) * 13, 997) as real / 997.0
  }

  function NodeHash2(time: real, i: nat): (h: real)
    ensures time >= 0.0 ==> 0.0 <= h < 1.0
  {
    Rem(i * 11 + Trunc(time * 0.5) * 17, 991) as real / 991.0
  }

  function AnxietyNode(e: Elementary, center: Point, radius: real, time: real, i: nat): Point
  {
    var jitter := 2.0 * e.sin(time * 3.0 + i as real);
    var x := center.x + (NodeHash(time, i) - 0.5) * radius * 2.0 + jitter;
    var y := center.y + (NodeHash2(time, i) - 0.5) * radius * 2.0 + jitter * 0.7;
    Point(x, y)
  }

  /** The first `k` nodes, in order. */
  function Nodes(e: Elementary, center: Point, radius: real, time: real, k: nat): (ns: seq<Point>)
    ensures |ns| == k
    ensures forall i :: 0 <= i < k ==> ns[i] == AnxietyNode(e, center, radius, time, i)
  {
    if k == 0 then [] else Nodes(e, center, radius, time, k - 1) + [AnxietyNode(e, center, radius, time, k - 1)]
  }

  /** Whether nodes `i` and `j` are closer than `0.8 * radius`. */
  predicate Close(e: Elementary, nodes: seq<Point>, radius: real, i: nat, j: nat)
    requires i < |nodes| && j < |nodes|
  {
    nodes[i].Distance(e, nodes[j]) < radius * 0.8
  }

  function Midpoint(nodes: seq<Point>, i: nat, j: nat): Point
    requires i < |nodes| && j < |nodes|
  {
    nodes[i].Lerp(nodes[j], 0.5)
  }

  /** The midpoints the inner loop appends for node `i` and the partners
      `i + 1 .. j - 1`. */
  function PairRow(e: Elementary, nodes: seq<Point>, radius: real, i: nat, j: nat): seq<Point>
    requires i < j <= |nodes|
    decreases j
  {
    if j == i + 1 then []
    else PairRow(e, nodes, radius, i, j - 1)
         + (if Close(e, nodes, radius, i, j - 1) then [Midpoint(nodes, i, j - 1)] else [])
  }

  /** The midpoints appended for the first `i` nodes and all their later partners. */
  function Pairs(e: Elementary, nodes: seq<Point>, radius: real, i: nat): seq<Point>
    requires i <= |nodes|
  {
    if i == 0 then [] else Pairs(e, nodes, radius, i - 1) + PairRow(e, nodes, radius, i - 1, |nodes|)
  }

  function AnxietyLayout(e: Elementary, center: Point, radius: real, time: real): seq<Point>
  {
    var nodes := Nodes(e, center, radius, time, NodeCount);
    nodes + Pairs(e, nodes, radius, |nodes|)
  }

  /** Every appended point of a row is the midpoint of a close pair, and every
      close pair in the row's range contributes its midpoint. */
  lemma {:induction false} PairRowMembers(e: Elementary, nodes: seq<Point>, radius: real, i: nat, j: nat)
    requires i < j <= |nodes|
    ensures |PairRow(e, nodes, radius, i, j)| <= j - i - 1
    ensures forall q :: q in PairRow(e, nodes, radius, i, j) <==>
      exists k :: i < k < j && Close(e, nodes, radius, i, k) && q == Midpoint(nodes, i, k)
    decreases j
  {
    if j > i + 1 {
      PairRowMembers(e, nodes, radius, i, j - 1);
      var k := j - 1;
      forall q | q in PairRow(e, nodes, radius, i, j)
        ensures exists k :: i < k < j && Close(e, nodes, radius, i, k) && q == Midpoint(nodes, i, k)
      {
        if q !in PairRow(e, nodes, radius, i, j - 1) {
          assert Close(e, nodes, radius, i, k) && q == Midpoint(nodes, i, k);
        }
      }
    }
  }

  /** The pair loop appends at most one midpoint per pair `i < j` ... */
  lemma {:induction false} PairsCount(e: Elementary, nodes: seq<Point>, radius: real, i: nat)
    requires i <= |nodes|
    ensures 2 * |Pairs(e, nodes, radius, i)| <= i * (2 * |nodes| - i - 1)
  {
    if i > 0 {
      var n := |nodes|;
      PairsCount(e, nodes, radius, i - 1);
      PairRowMembers(e, nodes, radius, i - 1, n);
      assert (i - 1) * (2 * n - (i - 1) - 1) + 2 * (n - i) == i * (2 * n - i - 1);
    }
  }

  /** ... and exactly the midpoints of the close pairs. */
  lemma {:induction false} PairsMembers(e: Elementary, nodes: seq<Point>, radius: real, i: nat)
    requires i <= |nodes|
    ensures forall q :: q in Pairs(e, nodes, radius, i) <==>
      exists a, b :: 0 <= a < i && a < b < |nodes| && Close(e, nodes, radius, a, b) && q == Midpoint(nodes, a, b)
  {
    if i > 0 {
      var n := |nodes|;
      PairsMembers(e, nodes, radius, i - 1);
      PairRowMembers(e, nodes, radius, i - 1, n);
      var prev, row := Pairs(e, nodes, radius, i - 1), PairRow(e, nodes, radius, i - 1, n);
      assert Pairs(e, nodes, radius, i) == prev + row;
      forall q | q in prev + row
        ensures exists a, b :: 0 <= a < i && a < b < n && Close(e, nodes, radius, a, b) && q == Midpoint(nodes, a, b)
      {
        if q in prev {
          var a, b :| 0 <= a < i - 1 && a < b < n && Close(e, nodes, radius, a, b) && q == Midpoint(nodes, a, b);
        } else {
          var b :| i - 1 < b < n && Close(e, nodes, radius, i - 1, b) && q == Midpoint(nodes, i - 1, b);
        }
      }
      forall a, b | 0 <= a < i && a < b < n && Close(e, nodes, radius, a, b)
        ensures Midpoint(nodes, a, b) in prev + row
      {
        if a == i - 1 {
          assert Midpoint(nodes, a, b) in row;
        } else {
          assert Midpoint(nodes, a, b) in prev;
        }
      }
    }
  }

  /** `anxietyAnchors`: the 20 nodes come first, then one midpoint for every
      pair `i < j` of nodes closer than `0.8 * radius`, so there are between 20
      and 20 + 190 points. */
  lemma AnxietyShape(e: Elementary, center: Point, radius: real, time: real)
    ensures var layout := AnxietyLayout(e, center, radius, time);
      NodeCount <= |layout| <= NodeCount + 190 &&
      layout[..NodeCount] == Nodes(e, center, radius, time, NodeCount) &&
      forall q :: q in layout[NodeCount..] <==>
        var nodes := Nodes(e, center, radius, time, NodeCount);
        exists a, b :: 0 <= a < b < NodeCount && Close(e, nodes, radius, a, b) && q == Midpoint(nodes, a, b)
  {
    var nodes := Nodes(e, center, radius, time, NodeCount);
    PairsCount(e, nodes, radius, |nodes|);
    PairsMembers(e, nodes, radius, |nodes|);
    var layout := AnxietyLayout(e, center, radius, time);
    assert layout[NodeCount..] == Pairs(e, nodes, radius, |nodes|);
  }

  /** `anxietyAnchors(center:radius:time:)`: the nodes, then their close
      pairs' midpoints. */
  method AnxietyAnchors(e: Elementary, center: Point, radius: real, time: real) returns (anchors: seq<Point>)
    ensures anchors == AnxietyLayout(e, center, radius, time)
  {
    var nodes := HashedNodes(e, center, radius, time);
    anchors := AppendMidpoints(e, nodes, radius);
  }

  /** The first loop of `anxietyAnchors`: the 20 hashed nodes. */
  method HashedNodes(e: Elementary, center: Point, radius: real, time: real) returns (anchors: seq<Point>)
    ensures anchors == Nodes(e, center, radius, time, NodeCount)
  {
    anchors := [];
    var nodeCount := 20;
    for i := 0 to nodeCount
      invariant anchors == Nodes(e, center, radius, time, i)
    {
      anchors := anchors + [AnxietyNode(e, center, radius, time, i)];
    }
  }

  /** The pair loop of `anxietyAnchors`: after the nodes, the midpoint of
      every pair `i < j` closer than `0.8 * radius`, in loop order. */
  method AppendMidpoints(e: Elementary, nodes: seq<Point>, radius: real) returns (anchors: seq<Point>)
    ensures anchors == nodes + Pairs(e, nodes, radius, |nodes|)
  {
    anchors := nodes;
    for i := 0 to |nodes|
      invariant anchors == nodes + Pairs(e, nodes, radius, i)
    {
      for j := i + 1 to |nodes|
        invariant anchors == nodes + Pairs(e, nodes, radius, i) + PairRow(e, nodes, radius, i, j)
      {
        if nodes[i].Distance(e, nodes[j]) < radius * 0.8 {
          anchors := anchors + [nodes[i].Lerp(nodes[j], 0.5)];
        }
      }
    }
  }

  // ---------------------------------------------------------------------
  // The dispatch

  /** `generateAnchors(for:center:radius:time:)`: the layout of the mood. */
  function Layout(e: Elementary, mood: Mood, center: Point, radius: real, time: real): seq<Point>
  {
    match mood
    case Joy => JoyLayout(e, center, radius, time)
    case Calm => CalmLayout(e, center, radius, time)
    case Anxiety => AnxietyLayout(e, center, radius, time)
    case Sadness => SadnessLayout(e, center, radius, time)
    case Anger => AngerLayout(e, center, radius, time)
  }

  /** How many anchors each mood's layout has. */
  lemma LayoutCounts(e: Elementary, mood: Mood, center: Point, radius: real, time: real)
    ensures var n := |Layout(e, mood, center, radius, time)|;
      match mood
      case Joy => n == 100
      case Calm => n == 96
      case Anxiety => 20 <= n <= 210
      case Sadness => n == 90
      case Anger => n == 72
  {
    match mood
    case Joy => JoyShape(e, center, radius, time);
    case Calm => CalmShape(e, center, radius, time);
    case Anxiety => AnxietyShape(e, center, radius, time);
    case Sadness => SadnessShape(e, center, radius, time);
    case Anger => AngerShape(e, center, radius, time);
  }

  method GenerateAnchors(e: Elementary, mood: Mood, center: Point, radius: real, time: real) returns (anchors: seq<Point>)
    ensures anchors == Layout(e, mood, center, radius, time)
  {
    match mood
    case Joy => anchors := JoyAnchors(e, center, radius, time);
    case Calm => anchors := CalmAnchors(e, center, radius, time);
    case Anxiety => anchors := AnxietyAnchors(e, center, radius, time);
    case Sadness => anchors := SadnessAnchors(e, center, radius, time);
    case Anger => anchors := AngerAnchors(e, center, radius, time);
  }
}
