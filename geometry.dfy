/** Positions in the plane, replacing the engine's `Vector3` arithmetic. */
module Geometry {

  datatype Point = Point(x: real, y: real)

  /** `(a - b).sqrMagnitude` for two points in the plane. */
  function SqrDistance(a: Point, b: Point): (d: real)
    ensures d >= 0.0
    ensures a == b ==> d == 0.0
  {
    var dx, dy := a.x - b.x, a.y - b.y;
    SquareNonNegative(dx);
    SquareNonNegative(dy);
    dx * dx + dy * dy
  }

  lemma SquareNonNegative(v: real)
    ensures v * v >= 0.0
  {
  }

  /**
   * A point strictly inside the circle of radius `radius` around `b` is less
   * than `radius` away from it on each axis.
   */
  lemma {:induction false} AxisOffsetsWithinRadius(a: Point, b: Point, radius: real)
    requires radius > 0.0
    requires SqrDistance(a, b) < radius * radius
    ensures -radius < a.x - b.x < radius
    ensures -radius < a.y - b.y < radius
  {
    var dx, dy := a.x - b.x, a.y - b.y;
    SquareNonNegative(dx);
    SquareNonNegative(dy);
    SquareBound(dx, radius);
    SquareBound(dy, radius);
  }

  lemma SquareBound(v: real, radius: real)
    requires radius > 0.0 && v * v < radius * radius
    ensures -radius < v < radius
  {
  }
}
