/** Points, their arithmetic, and the axis-aligned workspace box
    (`Point2D`, `Point3D` in IgemArm_Optimized_v2.0/coordinate_transformer.py and the
    `workspace_bounds` dictionary of the robot configuration). */
module Geometry {
  import opened Numerics

  datatype Point2D = Point2D(x: real, y: real)

  datatype Point3D = Point3D(x: real, y: real, z: real)

  /** `Point2D.__add__` */
  function Add(p: Point2D, q: Point2D): Point2D {
    Point2D(p.x + q.x, p.y + q.y)
  }

  /** `Point2D.__sub__` */
  function Sub(p: Point2D, q: Point2D): Point2D {
    Point2D(p.x - q.x, p.y - q.y)
  }

  /** `Point2D.__mul__` (by a scalar) */
  function Scale(p: Point2D, s: real): Point2D {
    Point2D(p.x * s, p.y * s)
  }

  /** `Point2D.__truediv__`; Python raises ZeroDivisionError on a zero divisor. */
  function Div(p: Point2D, s: real): Point2D
    requires s != 0.0
  {
    Point2D(p.x / s, p.y / s)
  }

  function SquaredNorm2(p: Point2D): real {
    p.x * p.x + p.y * p.y
  }

  lemma SquaredNormNonNeg(p: Point2D)
    ensures SquaredNorm2(p) >= 0.0
  {
    SumSquaresNonNeg(p.x, p.y);
  }

  /** `Point2D.distance_to` */
  function Distance2(m: Oracle, p: Point2D, q: Point2D): real {
    m.sqrt(SquaredNorm2(Sub(p, q)))
  }

  function SquaredDistance3(p: Point3D, q: Point3D): real {
    (p.x - q.x) * (p.x - q.x) + (p.y - q.y) * (p.y - q.y) + (p.z - q.z) * (p.z - q.z)
  }

  /** `Point3D.distance_to` */
  function Distance3(m: Oracle, p: Point3D, q: Point3D): real {
    m.sqrt(SquaredDistance3(p, q))
  }

  /** The point at parameter `t` on the segment from `p` to `q`, written as the source
      writes it: `p + t * (q - p)` per coordinate. */
  function Lerp3(p: Point3D, q: Point3D, t: real): Point3D {
    Point3D(Lerp(p.x, q.x, t), Lerp(p.y, q.y, t), Lerp(p.z, q.z, t))
  }

  lemma AddSubInverse(p: Point2D, q: Point2D)
    ensures Sub(Add(p, q), q) == p && Add(Sub(p, q), q) == p
  {
  }

  lemma ScaleDivInverse(p: Point2D, s: real)
    requires s != 0.0
    ensures Div(Scale(p, s), s) == p && Scale(Div(p, s), s) == p
  {
  }

  lemma LerpEnds(p: Point3D, q: Point3D)
    ensures Lerp3(p, q, 0.0) == p && Lerp3(p, q, 1.0) == q
  {
  }

  // ---- the workspace box ----

  /** A `(min, max)` pair of the bounds dictionary. */
  datatype Interval = Interval(lo: real, hi: real) {
    /** The source's chained comparison `lo <= v <= hi`. */
    predicate Contains(v: real) {
      lo <= v <= hi
    }
  }

  /** `workspace_bounds` with its three keys 'x', 'y' and 'z'. */
  datatype Bounds = Bounds(x: Interval, y: Interval, z: Interval)

  /** Every coordinate within its inclusive interval. */
  predicate InBox(b: Bounds, p: Point3D) {
    b.x.Contains(p.x) && b.y.Contains(p.y) && b.z.Contains(p.z)
  }

  /** A value between two values of an interval stays in the interval. */
  lemma IntervalConvex(i: Interval, u: real, v: real, t: real)
    requires i.Contains(u) && i.Contains(v) && 0.0 <= t <= 1.0
    ensures i.Contains(Lerp(u, v, t))
  {
    LerpAbove(u, v, t);
    LerpBelow(u, v, t);
  }

  /** The box is convex: every point of a segment between two points of the box is in
      the box. */
  lemma {:induction false} BoxConvex(b: Bounds, p: Point3D, q: Point3D, t: real)
    requires InBox(b, p) && InBox(b, q) && 0.0 <= t <= 1.0
    ensures InBox(b, Lerp3(p, q, t))
  {
    IntervalConvex(b.x, p.x, q.x, t);
    IntervalConvex(b.y, p.y, q.y, t);
    IntervalConvex(b.z, p.z, q.z, t);
  }
}
