/**
 * Axis-aligned boxes (rae/visual/Box.cpp): growing a box to take in a point or another box,
 * initialising it from two boxes, and the 2D point test. Only comparisons and copies occur,
 * so coordinates are reals.
 */
module Boxes {
  import opened Types

  /** The largest finite single-precision float (FLT_MAX). */
  const FloatMax: real := 340282346638528859811704183484516925440.0

  /** The value of a box: its minimum and maximum corners. */
  datatype BoxValue = BoxValue(lo: Vec3, hi: Vec3)

  /**
   * The value `Box::clear()` leaves behind. Box.hpp is not part of this model; this is the usual
   * empty-box convention (minimum at +FLT_MAX, maximum at -FLT_MAX), so that the first `grow`
   * of a finite point makes the box exactly that point.
   */
  const Cleared: BoxValue :=
    BoxValue(Vec3(FloatMax, FloatMax, FloatMax), Vec3(-FloatMax, -FloatMax, -FloatMax))

  /** A point whose coordinates are all finite floats. */
  predicate Finite(p: Vec3) {
    -FloatMax <= p.x <= FloatMax && -FloatMax <= p.y <= FloatMax && -FloatMax <= p.z <= FloatMax
  }

  /** Inclusive 3D containment. */
  predicate Contains(b: BoxValue, p: Vec3) {
    b.lo.x <= p.x <= b.hi.x && b.lo.y <= p.y <= b.hi.y && b.lo.z <= p.z <= b.hi.z
  }

  /** `outer` has no larger minimum and no smaller maximum than `inner`, on every axis. */
  predicate Encloses(outer: BoxValue, inner: BoxValue) {
    && outer.lo.x <= inner.lo.x && outer.lo.y <= inner.lo.y && outer.lo.z <= inner.lo.z
    && inner.hi.x <= outer.hi.x && inner.hi.y <= outer.hi.y && inner.hi.z <= outer.hi.z
  }

  /** What `Box::grow(vec3)` makes of the box value `b`. */
  function Grown(b: BoxValue, p: Vec3): (r: BoxValue)
    ensures Contains(r, p)
    ensures Encloses(r, b)
    ensures Contains(b, p) ==> r == b
  {
    BoxValue(
      Vec3(if b.lo.x > p.x then p.x else b.lo.x,
           if b.lo.y > p.y then p.y else b.lo.y,
           if b.lo.z > p.z then p.z else b.lo.z),
      Vec3(if b.hi.x < p.x then p.x else b.hi.x,
           if b.hi.y < p.y then p.y else b.hi.y,
           if b.hi.z < p.z then p.z else b.hi.z))
  }

  /** What `Box::init(left, right)` makes: clear, then grow by both corners of each box. */
  function InitValue(left: BoxValue, right: BoxValue): BoxValue {
    Grown(Grown(Grown(Grown(Cleared, left.lo), left.hi), right.lo), right.hi)
  }

  /** `Box::hit(vec2)`: the point lies within the box's x and y ranges, bounds included. */
  predicate Hit(b: BoxValue, p: Vec2) {
    p.x <= b.hi.x && p.x >= b.lo.x && p.y <= b.hi.y && p.y >= b.lo.y
  }

  /** Points inside a box stay inside every box that encloses it; so growing loses no point. */
  lemma EnclosedPointsStay(outer: BoxValue, inner: BoxValue, q: Vec3)
    requires Encloses(outer, inner) && Contains(inner, q)
    ensures Contains(outer, q)
  {
  }

  /** Growing twice by the same point is growing once. */
  lemma GrowIdempotent(b: BoxValue, p: Vec3)
    ensures Grown(Grown(b, p), p) == Grown(b, p)
  {
  }

  /** `grow` adds no more than it has to: every box enclosing `b` and holding `p` encloses the result. */
  lemma GrowIsLeast(b: BoxValue, p: Vec3, c: BoxValue)
    requires Encloses(c, b) && Contains(c, p)
    ensures Encloses(c, Grown(b, p))
  {
  }

  /** Growing the cleared box by a finite point gives the degenerate box at that point. */
  lemma GrowClearedIsPoint(p: Vec3)
    requires Finite(p)
    ensures Grown(Cleared, p) == BoxValue(p, p)
  {
  }

  /** `init(left, right)` contains the four corners, and is the smallest box that does. */
  lemma {:induction false} InitIsTightHull(left: BoxValue, right: BoxValue, c: BoxValue)
    requires Finite(left.lo)
    requires Contains(c, left.lo) && Contains(c, left.hi) && Contains(c, right.lo) && Contains(c, right.hi)
    ensures Contains(InitValue(left, right), left.lo) && Contains(InitValue(left, right), left.hi)
    ensures Contains(InitValue(left, right), right.lo) && Contains(InitValue(left, right), right.hi)
    ensures Encloses(c, InitValue(left, right))
  {
    var b1 := Grown(Cleared, left.lo);
    GrowClearedIsPoint(left.lo);
    assert Encloses(c, b1);
    var b2 := Grown(b1, left.hi);
    GrowIsLeast(b1, left.hi, c);
    var b3 := Grown(b2, right.lo);
    GrowIsLeast(b2, right.lo, c);
    GrowIsLeast(b3, right.hi, c);
    EnclosedPointsStay(Grown(b3, right.hi), b3, right.lo);
    EnclosedPointsStay(b3, b2, left.hi);
    EnclosedPointsStay(Grown(b3, right.hi), b3, left.hi);
    EnclosedPointsStay(b2, b1, left.lo);
    EnclosedPointsStay(b3, b2, left.lo);
    EnclosedPointsStay(Grown(b3, right.hi), b3, left.lo);
  }

  /** `hit(vec2)` ignores z: within the box's z range it is 3D containment of the lifted point. */
  lemma HitIgnoresZ(b: BoxValue, p: Vec2, z: real)
    requires b.lo.z <= z <= b.hi.z
    ensures Hit(b, p) <==> Contains(b, Vec3(p.x, p.y, z))
  {
  }

  /** After growing by a point, the box hits that point's projection. */
  lemma HitAfterGrow(b: BoxValue, q: Vec3)
    ensures Hit(Grown(b, q), Vec2(q.x, q.y))
  {
  }

  /** A box whose corners `Box::grow` and `Box::init` update in place. */
  class Box {
    var lo: Vec3
    var hi: Vec3

    /** Box.hpp is not part of this model, so the box starts from given corners. */
    constructor (lo0: Vec3, hi0: Vec3)
      ensures Value() == BoxValue(lo0, hi0)
    {
      lo, hi := lo0, hi0;
    }

    function Value(): BoxValue
      reads this
    {
      BoxValue(lo, hi)
    }

    method Clear()
      modifies this
      ensures Value() == Cleared
    {
      lo, hi := Cleared.lo, Cleared.hi;
    }

    /** `Box::grow(vec3)`: widen each bound that the point lies beyond. */
    method Grow(p: Vec3)
      modifies this
      ensures Value() == Grown(old(Value()), p)
      ensures Contains(Value(), p) && Encloses(Value(), old(Value()))
    {
      if lo.x > p.x { lo := lo.(x := p.x); }
      if lo.y > p.y { lo := lo.(y := p.y); }
      if lo.z > p.z { lo := lo.(z := p.z); }
      if hi.x < p.x { hi := hi.(x := p.x); }
      if hi.y < p.y { hi := hi.(y := p.y); }
      if hi.z < p.z { hi := hi.(z := p.z); }
    }

    /** `Box::grow(const Box&)`: grow by the other box's minimum, then by its maximum. */
    method GrowBox(other: BoxValue)
      modifies this
      ensures Value() == Grown(Grown(old(Value()), other.lo), other.hi)
      ensures Contains(Value(), other.lo) && Contains(Value(), other.hi)
      ensures Encloses(Value(), old(Value()))
    {
      Grow(other.lo);
      Grow(other.hi);
      EnclosedPointsStay(Value(), Grown(old(Value()), other.lo), other.lo);
    }

    /** `Box::init(left, right)`: clear, then grow by `left` and by `right`. */
    method Init(left: BoxValue, right: BoxValue)
      modifies this
      ensures Value() == InitValue(left, right)
      ensures Contains(Value(), left.lo) && Contains(Value(), left.hi)
      ensures Contains(Value(), right.lo) && Contains(Value(), right.hi)
    {
      Clear();
      GrowBox(left);
      ghost var afterLeft := Value();
      GrowBox(right);
      EnclosedPointsStay(Value(), afterLeft, left.lo);
      EnclosedPointsStay(Value(), afterLeft, left.hi);
    }
  }
}
