/**
 * Plane geometry used by the game layer: the engine's two-component vector,
 * its per-axis clamp and its axis-aligned rectangle. Coordinates are reals.
 */
module Geometry {

  datatype Vec2 = Vec2(x: real, y: real) {

    function Plus(o: Vec2): Vec2 { Vec2(x + o.x, y + o.y) }

    function Minus(o: Vec2): Vec2 { Vec2(x - o.x, y - o.y) }

    function Scale(k: real): Vec2 { Vec2(k * x, k * y) }

    /** Squared Euclidean length; never negative. */
    function LengthSquared(): (r: real)
      ensures r >= 0.0
    {
      x * x + y * y
    }
  }

  const Zero: Vec2 := Vec2(0.0, 0.0)

  function Abs(v: real): real { if v < 0.0 then -v else v }

  /**
   * The engine's scalar clamp: reversed bounds are first swapped; then below
   * the lower bound gives it, below the upper bound gives the value itself,
   * anything else gives the upper bound.
   */
  function Clampf(v: real, lo: real, hi: real): (r: real)
    ensures lo <= hi ==> lo <= r <= hi
    ensures hi < lo ==> hi <= r <= lo
    ensures lo <= v <= hi ==> r == v
    ensures hi <= v <= lo ==> r == v
    ensures r == v || r == lo || r == hi
  {
    var (min, max) := if lo > hi then (hi, lo) else (lo, hi);
    if v < min then min else if v < max then v else max
  }

  /** On a non-empty interval the clamp is the point of the interval nearest to `v`. */
  lemma ClampfNearest(v: real, lo: real, hi: real, z: real)
    requires lo <= z <= hi
    ensures Abs(Clampf(v, lo, hi) - v) <= Abs(z - v)
  {
  }

  /** `Vec2::getClampPoint`: each axis clamped on its own between `min` and `max`. */
  function ClampPoint(p: Vec2, min: Vec2, max: Vec2): (q: Vec2)
    ensures min.x <= max.x && min.y <= max.y ==>
              min.x <= q.x <= max.x && min.y <= q.y <= max.y
    ensures min.x <= p.x <= max.x && min.y <= p.y <= max.y ==> q == p
  {
    Vec2(Clampf(p.x, min.x, max.x), Clampf(p.y, min.y, max.y))
  }

  /** An axis-aligned rectangle given by its lower-left corner and its size. */
  datatype Rect = Rect(origin: Vec2, size: Vec2) {

    /** Inclusive on all four edges, as `Rect::containsPoint`. */
    predicate ContainsPoint(p: Vec2)
    {
      origin.x <= p.x <= origin.x + size.x && origin.y <= p.y <= origin.y + size.y
    }
  }
}
