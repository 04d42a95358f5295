/** The `CGPoint` and `CGVector` arithmetic that the particle engine and the
    pattern generator are written in. */
module Geometry {
  import opened Foundation

  /** `hypot(dx, dy)`. */
  function Hypot(e: Elementary, dx: real, dy: real): real
  {
    e.sqrt(dx * dx + dy * dy)
  }

  datatype Vector = Vector(dx: real, dy: real) {
    /** `lhs + rhs` on vectors. */
    function Plus(other: Vector): Vector
    {
      Vector(dx + other.dx, dy + other.dy)
    }

    /** `lhs * rhs` for a vector and a scalar. */
    function Times(k: real): Vector
    {
      Vector(dx * k, dy * k)
    }

    /** `dx * w.dx + dy * w.dy`. */
    function Dot(w: Vector): real
    {
      dx * w.dx + dy * w.dy
    }

    /** `dx * w.dy - dy * w.dx`, the z component of the cross product. */
    function Cross(w: Vector): real
    {
      dx * w.dy - dy * w.dx
    }

    function Magnitude(e: Elementary): real
    {
      Hypot(e, dx, dy)
    }

    /** The unit vector in this direction, or the zero vector when the
        magnitude is not positive. */
    function Normalized(e: Elementary): (r: Vector)
      ensures Magnitude(e) <= 0.0 ==> r == Vector(0.0, 0.0)
      ensures Magnitude(e) > 0.0 ==> r.Times(Magnitude(e)) == this
    {
      var m := Magnitude(e);
      if m > 0.0 then Vector(dx / m, dy / m) else Vector(0.0, 0.0)
    }
  }

  datatype Point = Point(x: real, y: real) {
    /** `lhs + rhs` for a point and a vector. */
    function Plus(v: Vector): Point
    {
      Point(x + v.dx, y + v.dy)
    }

    /** `lhs - rhs` for two points: the vector from `other` to this point. */
    function Minus(other: Point): Vector
    {
      Vector(x - other.x, y - other.y)
    }

    function Distance(e: Elementary, other: Point): real
    {
      Hypot(e, other.x - x, other.y - y)
    }

    /** Linear interpolation towards `target`. */
    function Lerp(target: Point, t: real): (r: Point)
      ensures t == 0.0 ==> r == this
      ensures t == 1.0 ==> r == target
    {
      Point(x + (target.x - x) * t, y + (target.y - y) * t)
    }
  }

  /** Adding the difference of two points to the second gives the first back. */
  lemma PlusMinus(p: Point, q: Point)
    ensures q.Plus(p.Minus(q)) == p
  {
  }

  /** Interpolating moves along the displacement vector, scaled by `t`. */
  lemma LerpAlongDisplacement(p: Point, target: Point, t: real)
    ensures p.Lerp(target, t) == p.Plus(target.Minus(p).Times(t))
  {
  }

  /** Interpolating halfway from either end reaches the same point. */
  lemma LerpMidpointSymmetric(p: Point, q: Point)
    ensures p.Lerp(q, 0.5) == q.Lerp(p, 0.5)
  {
  }

  /** A distance is the magnitude of the difference vector, and so it is the
      same measured from either end. */
  lemma DistanceIsMagnitude(e: Elementary, p: Point, q: Point)
    ensures p.Distance(e, q) == q.Minus(p).Magnitude(e)
    ensures p.Distance(e, q) == q.Distance(e, p)
  {
    assert (q.x - p.x) * (q.x - p.x) == (p.x - q.x) * (p.x - q.x);
    assert (q.y - p.y) * (q.y - p.y) == (p.y - q.y) * (p.y - q.y);
  }

  lemma HypotNonNegative(e: Elementary, dx: real, dy: real)
    requires SqrtExact(e)
    ensures Hypot(e, dx, dy) >= 0.0
    ensures dx == 0.0 && dy == 0.0 ==> Hypot(e, dx, dy) == 0.0
  {
    assert dx * dx >= 0.0 && dy * dy >= 0.0;
    SqrtUnique(e, 0.0, 0.0);
  }

  lemma DistanceNonNegative(e: Elementary, p: Point, q: Point)
    requires SqrtExact(e)
    ensures p.Distance(e, q) >= 0.0
    ensures p.Distance(e, p) == 0.0
  {
    HypotNonNegative(e, q.x - p.x, q.y - p.y);
    HypotNonNegative(e, p.x - p.x, p.y - p.y);
  }

  /** Scaling distributes over vector addition, componentwise. */
  lemma TimesDistributes(v: Vector, w: Vector, k: real)
    ensures v.Plus(w).Times(k) == v.Times(k).Plus(w.Times(k))
    ensures v.Plus(w) == w.Plus(v)
  {
  }
}
