/** The circle-sweep path planner of WenxingCircle.py: a closed polygon is cut by
    concentric circles around the origin at evenly spaced radii, and the cut points of
    each circle are listed by distance from the origin. */
module CirclePlanner {
  import opened Wrappers
  import opened Numerics
  import opened Geometry
  import opened Sorting

  // ---- one edge against one circle ----

  /** The point `p0 + t * (p1 - p0)` of the segment's parametric form. */
  function PointAt(p0: Point2D, p1: Point2D, t: real): Point2D {
    Point2D(Lerp(p0.x, p1.x, t), Lerp(p0.y, p1.y, t))
  }

  /** Coefficients of `a t^2 + b t + c = 0`, the segment's line substituted into
      `x^2 + y^2 = radius^2`. */
  function QuadA(p0: Point2D, p1: Point2D): real {
    (p1.x - p0.x) * (p1.x - p0.x) + (p1.y - p0.y) * (p1.y - p0.y)
  }

  function QuadB(p0: Point2D, p1: Point2D): real {
    2.0 * (p0.x * (p1.x - p0.x) + p0.y * (p1.y - p0.y))
  }

  function QuadC(p0: Point2D, radius: real): real {
    p0.x * p0.x + p0.y * p0.y - radius * radius
  }

  function Discriminant(p0: Point2D, p1: Point2D, radius: real): real {
    QuadB(p0, p1) * QuadB(p0, p1) - 4.0 * QuadA(p0, p1) * QuadC(p0, radius)
  }

  /** Why planning stopped: `read_coordinates` raises when no row of the file holds a
      coordinate pair; `find_circle_intersections` divides by `2 * a`, and Python raises
      ZeroDivisionError when the edge has zero length. */
  datatype PlanError = NoCoordinates | ZeroLengthEdge

  /** The two candidate parameters `(-b + sqrt(disc)) / (2a)` and `(-b - sqrt(disc)) / (2a)`. */
  function Root1(m: Oracle, p0: Point2D, p1: Point2D, radius: real): real
    requires QuadA(p0, p1) != 0.0
  {
    (-QuadB(p0, p1) + m.sqrt(Discriminant(p0, p1, radius))) / (2.0 * QuadA(p0, p1))
  }

  function Root2(m: Oracle, p0: Point2D, p1: Point2D, radius: real): real
    requires QuadA(p0, p1) != 0.0
  {
    (-QuadB(p0, p1) - m.sqrt(Discriminant(p0, p1, radius))) / (2.0 * QuadA(p0, p1))
  }

  /** The points for those parameters `t` with `0 <= t <= 1`, in order. */
  function KeepOnSegment(p0: Point2D, p1: Point2D, ts: seq<real>): (r: seq<Point2D>)
    ensures |r| <= |ts|
    ensures forall q :: q in r ==> exists t :: t in ts && 0.0 <= t <= 1.0 && q == PointAt(p0, p1, t)
  {
    if ts == [] then []
    else
      var t := ts[|ts| - 1];
      KeepOnSegment(p0, p1, ts[..|ts| - 1]) + (if 0.0 <= t <= 1.0 then [PointAt(p0, p1, t)] else [])
  }

  /** The list `find_circle_intersections` returns: nothing for a negative
      discriminant; otherwise, unless the division by `2a` fails, the points of the two
      roots (first `t1`, then `t2`) that lie on the segment. */
  function CircleHits(m: Oracle, p0: Point2D, p1: Point2D, radius: real): (r: Result<seq<Point2D>, PlanError>)
    ensures Discriminant(p0, p1, radius) < 0.0 ==> r == Ok([])
    ensures r.Err? <==> Discriminant(p0, p1, radius) >= 0.0 && QuadA(p0, p1) == 0.0
    ensures r.Err? ==> r.error == ZeroLengthEdge
    ensures r.Ok? ==> |r.value| <= 2
    ensures r.Ok? ==> forall q :: q in r.value ==>
      exists t :: 0.0 <= t <= 1.0 && q == PointAt(p0, p1, t)
  {
    if Discriminant(p0, p1, radius) < 0.0 then Ok([])
    else if QuadA(p0, p1) == 0.0 then Err(ZeroLengthEdge)
    else Ok(KeepOnSegment(p0, p1, [Root1(m, p0, p1, radius), Root2(m, p0, p1, radius)]))
  }

  /** An edge whose two ends coincide makes `find_circle_intersections` fail for
      every radius. */
  lemma ZeroLengthEdgeFails(m: Oracle, p: Point2D, radius: real)
    ensures CircleHits(m, p, p, radius) == Err(ZeroLengthEdge)
  {
    assert QuadA(p, p) == 0.0 && QuadB(p, p) == 0.0;
  }

  /** `find_circle_intersections`. */
  method FindCircleIntersections(m: Oracle, lineStart: Point2D, lineEnd: Point2D, radius: real)
    returns (r: Result<seq<Point2D>, PlanError>)
    ensures r == CircleHits(m, lineStart, lineEnd, radius)
  {
    var a := QuadA(lineStart, lineEnd);
    var b := QuadB(lineStart, lineEnd);
    var discriminant := Discriminant(lineStart, lineEnd, radius);
    var intersections: seq<Point2D> := [];
    if discriminant >= 0.0 {
      if a == 0.0 {
        return Err(ZeroLengthEdge);
      }
      var t1 := (-b + m.sqrt(discriminant)) / (2.0 * a);
      var t2 := (-b - m.sqrt(discriminant)) / (2.0 * a);
      var ts := [t1, t2];
      for k := 0 to 2
        invariant intersections == KeepOnSegment(lineStart, lineEnd, ts[..k])
      {
        var t := ts[k];
        assert ts[..k + 1][..k] == ts[..k] && ts[..k + 1][k] == t;
        if 0.0 <= t <= 1.0 {
          intersections := intersections + [PointAt(lineStart, lineEnd, t)];
        }
      }
      assert ts[..2] == ts;
    }
    return Ok(intersections);
  }

  /** The root of a quadratic given by the usual formula is a root. */
  lemma {:induction false} QuadraticFormula(a: real, b: real, c: real, s: real, t: real)
    requires a != 0.0 && s * s == b * b - 4.0 * a * c
    requires t == (-b + s) / (2.0 * a) || t == (-b - s) / (2.0 * a)
    ensures a * t * t + b * t + c == 0.0
  {
    var u := 2.0 * a * t + b;
    assert t * (2.0 * a) == -b + s || t * (2.0 * a) == -b - s;
    assert u == s || u == -s;
    assert u * u == s * s;
    var q := a * t * t + b * t + c;
    assert u * u == 4.0 * a * q + b * b - 4.0 * a * c;
    assert (4.0 * a) * q == 0.0;
    assert q == ((4.0 * a) * q) / (4.0 * a);
  }

  /** Substituting the segment's point into the circle's equation gives the quadratic. */
  lemma CircleEquation(p0: Point2D, p1: Point2D, radius: real, t: real)
    ensures var q := PointAt(p0, p1, t);
      q.x * q.x + q.y * q.y - radius * radius
        == QuadA(p0, p1) * t * t + QuadB(p0, p1) * t + QuadC(p0, radius)
  {
    var dx, dy := p1.x - p0.x, p1.y - p0.y;
    assert (p0.x + t * dx) * (p0.x + t * dx) == p0.x * p0.x + 2.0 * p0.x * dx * t + dx * dx * t * t;
    assert (p0.y + t * dy) * (p0.y + t * dy) == p0.y * p0.y + 2.0 * p0.y * dy * t + dy * dy * t * t;
  }

  /** Each of the two roots, when exact, puts its point on the circle. */
  lemma {:induction false} RootOnCircle(m: Oracle, p0: Point2D, p1: Point2D, radius: real, t: real)
    requires QuadA(p0, p1) != 0.0 && Discriminant(p0, p1, radius) >= 0.0
    requires ExactSqrtAt(m, Discriminant(p0, p1, radius))
    requires t == Root1(m, p0, p1, radius) || t == Root2(m, p0, p1, radius)
    ensures PointAt(p0, p1, t).x * PointAt(p0, p1, t).x + PointAt(p0, p1, t).y * PointAt(p0, p1, t).y
      == radius * radius
  {
    var a, b, c := QuadA(p0, p1), QuadB(p0, p1), QuadC(p0, radius);
    var s := m.sqrt(Discriminant(p0, p1, radius));
    assert s * s == b * b - 4.0 * a * c;
    QuadraticFormula(a, b, c, s, t);
    CircleEquation(p0, p1, radius, t);
  }

  /** With an exact square root every reported point lies on the circle. */
  lemma {:induction false} HitsOnCircle(m: Oracle, p0: Point2D, p1: Point2D, radius: real)
    requires ExactSqrtAt(m, Discriminant(p0, p1, radius))
    requires CircleHits(m, p0, p1, radius).Ok?
    ensures forall q :: q in CircleHits(m, p0, p1, radius).value ==>
      q.x * q.x + q.y * q.y == radius * radius
  {
    if QuadA(p0, p1) != 0.0 && Discriminant(p0, p1, radius) >= 0.0 {
      var ts := [Root1(m, p0, p1, radius), Root2(m, p0, p1, radius)];
      forall q | q in CircleHits(m, p0, p1, radius).value
        ensures q.x * q.x + q.y * q.y == radius * radius
      {
        var t :| t in ts && 0.0 <= t <= 1.0 && q == PointAt(p0, p1, t);
        RootOnCircle(m, p0, p1, radius, t);
      }
    }
  }

  /** A tangent circle (discriminant 0) touching the segment yields the same point
      twice. */
  lemma TangentTwice(m: Oracle, p0: Point2D, p1: Point2D, radius: real)
    requires QuadA(p0, p1) != 0.0 && Discriminant(p0, p1, radius) == 0.0 && m.sqrt(0.0) == 0.0
    requires 0.0 <= Root1(m, p0, p1, radius) <= 1.0
    ensures var hits := CircleHits(m, p0, p1, radius).value;
      |hits| == 2 && hits[0] == hits[1]
  {
    var t := Root1(m, p0, p1, radius);
    assert Root2(m, p0, p1, radius) == t;
    var ts := [t, t];
    assert ts[..1] == [t] && [t][..0] == [];
    assert KeepOnSegment(p0, p1, ts) == [PointAt(p0, p1, t), PointAt(p0, p1, t)];
  }

  /** Mirrored radii cut the same points: the sweep starts two steps below the smallest
      vertex distance, so it can visit negative radii, which repeat bands of positive
      ones. */
  lemma MirroredRadius(m: Oracle, p0: Point2D, p1: Point2D, radius: real)
    ensures CircleHits(m, p0, p1, -radius) == CircleHits(m, p0, p1, radius)
  {
    assert QuadC(p0, -radius) == QuadC(p0, radius) by {
      assert (-radius) * (-radius) == radius * radius;
    }
    assert Discriminant(p0, p1, -radius) == Discriminant(p0, p1, radius);
    if QuadA(p0, p1) != 0.0 {
      assert Root1(m, p0, p1, -radius) == Root1(m, p0, p1, radius);
      assert Root2(m, p0, p1, -radius) == Root2(m, p0, p1, radius);
    }
  }

  /** The hits list the point of `t1` first and that of `t2` second, each only when its
      parameter lies in `[0, 1]`. */
  lemma CircleHitsInRootOrder(m: Oracle, p0: Point2D, p1: Point2D, radius: real)
    requires QuadA(p0, p1) != 0.0 && Discriminant(p0, p1, radius) >= 0.0
    ensures var t1, t2 := Root1(m, p0, p1, radius), Root2(m, p0, p1, radius);
      var hits := CircleHits(m, p0, p1, radius).value;
      CircleHits(m, p0, p1, radius).Ok?
      && (0.0 <= t1 <= 1.0 && 0.0 <= t2 <= 1.0 ==> hits == [PointAt(p0, p1, t1), PointAt(p0, p1, t2)])
      && (0.0 <= t1 <= 1.0 && !(0.0 <= t2 <= 1.0) ==> hits == [PointAt(p0, p1, t1)])
      && (!(0.0 <= t1 <= 1.0) && 0.0 <= t2 <= 1.0 ==> hits == [PointAt(p0, p1, t2)])
      && (!(0.0 <= t1 <= 1.0) && !(0.0 <= t2 <= 1.0) ==> hits == [])
  {
    var t1, t2 := Root1(m, p0, p1, radius), Root2(m, p0, p1, radius);
    var ts := [t1, t2];
    assert ts[..1] == [t1] && [t1][..0] == [];
    var first := if 0.0 <= t1 <= 1.0 then [PointAt(p0, p1, t1)] else [];
    var second := if 0.0 <= t2 <= 1.0 then [PointAt(p0, p1, t2)] else [];
    assert KeepOnSegment(p0, p1, [t1]) == first;
    assert KeepOnSegment(p0, p1, ts) == first + second;
  }

  /** Completing the square: a root `t` of `a t^2 + b t + c` has
      `(2 a t + b)^2 == b^2 - 4 a c`. */
  lemma CompleteSquare(a: real, b: real, c: real, t: real)
    requires a * t * t + b * t + c == 0.0
    ensures (2.0 * a * t + b) * (2.0 * a * t + b) == b * b - 4.0 * a * c
  {
    assert (2.0 * a * t + b) * (2.0 * a * t + b) == 4.0 * a * (a * t * t + b * t + c) + b * b - 4.0 * a * c;
  }

  /** Solving `2 a t + b == u` for `t`. */
  lemma SolveLinear(a: real, b: real, t: real, u: real)
    requires a != 0.0 && 2.0 * a * t + b == u
    ensures t == (-b + u) / (2.0 * a)
  {
  }

  /** A root of `a t^2 + b t + c` is one of the two given by the formula, for any
      non-negative square root `s` of the discriminant. */
  lemma {:induction false} RootIsFormula(a: real, b: real, c: real, t: real, s: real)
    requires a != 0.0 && a * t * t + b * t + c == 0.0
    requires s >= 0.0 && s * s == b * b - 4.0 * a * c
    ensures t == (-b + s) / (2.0 * a) || t == (-b - s) / (2.0 * a)
  {
    CompleteSquare(a, b, c, t);
    var u := 2.0 * a * t + b;
    RootOfSquare(s, u);
    if u >= 0.0 {
      SolveLinear(a, b, t, s);
    } else {
      SolveLinear(a, b, t, -s);
    }
  }

  /** A segment point on the circle makes the discriminant non-negative. */
  lemma {:induction false} OnCircleDiscriminant(a: real, b: real, c: real, t: real)
    requires a * t * t + b * t + c == 0.0
    ensures b * b - 4.0 * a * c >= 0.0
  {
    CompleteSquare(a, b, c, t);
    SquareNonNeg(2.0 * a * t + b);
  }

  /** Every point of the segment that lies on the circle is reported, when the square
      root is exact and the edge has positive length. */
  lemma {:induction false} CircleHitsComplete(m: Oracle, p0: Point2D, p1: Point2D, radius: real, t: real)
    requires ExactSqrtAt(m, Discriminant(p0, p1, radius))
    requires QuadA(p0, p1) != 0.0 && 0.0 <= t <= 1.0
    requires SquaredNorm2(PointAt(p0, p1, t)) == radius * radius
    ensures CircleHits(m, p0, p1, radius).Ok?
    ensures PointAt(p0, p1, t) in CircleHits(m, p0, p1, radius).value
  {
    CircleEquation(p0, p1, radius, t);
    QuadraticRootReported(m, p0, p1, radius, t);
  }

  /** A root in `[0, 1]` of the edge's quadratic is reported, when the square root is
      exact. */
  lemma QuadraticRootReported(m: Oracle, p0: Point2D, p1: Point2D, radius: real, t: real)
    requires ExactSqrtAt(m, Discriminant(p0, p1, radius))
    requires QuadA(p0, p1) != 0.0 && 0.0 <= t <= 1.0
    requires QuadA(p0, p1) * t * t + QuadB(p0, p1) * t + QuadC(p0, radius) == 0.0
    ensures CircleHits(m, p0, p1, radius).Ok?
    ensures PointAt(p0, p1, t) in CircleHits(m, p0, p1, radius).value
  {
    var a, b, c := QuadA(p0, p1), QuadB(p0, p1), QuadC(p0, radius);
    OnCircleDiscriminant(a, b, c, t);
    ExactDiscriminantRoot(m, p0, p1, radius);
    RootIsFormula(a, b, c, t, m.sqrt(Discriminant(p0, p1, radius)));
    RootReported(m, p0, p1, radius, t);
  }

  /** The exact square root of the discriminant, squared, is `b * b - 4 * a * c`. */
  lemma ExactDiscriminantRoot(m: Oracle, p0: Point2D, p1: Point2D, radius: real)
    requires ExactSqrtAt(m, Discriminant(p0, p1, radius)) && Discriminant(p0, p1, radius) >= 0.0
    ensures var s := m.sqrt(Discriminant(p0, p1, radius));
      s >= 0.0 && s * s == QuadB(p0, p1) * QuadB(p0, p1) - 4.0 * QuadA(p0, p1) * QuadC(p0, radius)
  {
  }

  /** A root of the quadratic that lies in `[0, 1]` is reported. */
  lemma RootReported(m: Oracle, p0: Point2D, p1: Point2D, radius: real, t: real)
    requires QuadA(p0, p1) != 0.0 && Discriminant(p0, p1, radius) >= 0.0 && 0.0 <= t <= 1.0
    requires t == Root1(m, p0, p1, radius) || t == Root2(m, p0, p1, radius)
    ensures CircleHits(m, p0, p1, radius).Ok?
    ensures PointAt(p0, p1, t) in CircleHits(m, p0, p1, radius).value
  {
    CircleHitsInRootOrder(m, p0, p1, radius);
  }

  // ---- the radius sweep ----

  /** The values `frange(start, stop, step)` yields. */
  function Range(start: real, stop: real, step: real): (r: seq<real>)
    requires step > 0.0
    ensures forall i :: 0 <= i < |r| ==> r[i] == start + (i as real) * step && r[i] < stop
    ensures start + (|r| as real) * step >= stop
    ensures forall i, j :: 0 <= i < j < |r| ==> r[i] < r[j]
    decreases if start < stop then ((stop - start) / step).Floor + 1 else 0
  {
    if start < stop then
      DivSubOne(stop - start, step);
      [start] + Range(start + step, stop, step)
    else []
  }

  /** `frange`: a generator that yields `start` and adds `step` until `stop` is
      reached. It runs forever when `step <= 0` and `start < stop`, so a positive step is
      required. */
  method Frange(start: real, stop: real, step: real) returns (r: seq<real>)
    requires step > 0.0
    ensures r == Range(start, stop, step)
  {
    r := [];
    var cur := start;
    while cur < stop
      invariant r + Range(cur, stop, step) == Range(start, stop, step)
      decreases if cur < stop then ((stop - cur) / step).Floor + 1 else 0
    {
      DivSubOne(stop - cur, step);
      r := r + [cur];
      cur := cur + step;
    }
  }

  // ---- the polygon ----

  /** The edges `(closed_shape[i], closed_shape[i + 1])` of `closed_shape = points +
      [points[0]]`: one per vertex, the last one closing the polygon. */
  function Edges(points: seq<Point2D>): (r: seq<(Point2D, Point2D)>)
    requires |points| > 0
    ensures |r| == |points|
    ensures forall i :: 0 <= i < |points| - 1 ==> r[i] == (points[i], points[i + 1])
    ensures r[|points| - 1] == (points[|points| - 1], points[0])
  {
    var closed := points + [points[0]];
    seq(|points|, i requires 0 <= i < |points| => (closed[i], closed[i + 1]))
  }

  // ---- one band: all edges against one circle ----

  ghost predicate EdgeFails(m: Oracle, e: (Point2D, Point2D), radius: real) {
    CircleHits(m, e.0, e.1, radius).Err?
  }

  ghost predicate HitOf(m: Oracle, e: (Point2D, Point2D), radius: real, q: Point2D) {
    CircleHits(m, e.0, e.1, radius).Ok? && q in CircleHits(m, e.0, e.1, radius).value
  }

  /** The `intersections` list of one radius: the hits of every edge, in edge order;
      the first edge whose computation raises ends the whole run. */
  function EdgeHits(m: Oracle, edges: seq<(Point2D, Point2D)>, radius: real): (r: Result<seq<Point2D>, PlanError>)
    ensures r.Err? ==> r.error == ZeroLengthEdge
  {
    if edges == [] then Ok([])
    else
      var init, e := edges[..|edges| - 1], edges[|edges| - 1];
      assert edges == init + [e];
      match EdgeHits(m, init, radius)
      case Err(x) => Err(x)
      case Ok(pts) =>
        match CircleHits(m, e.0, e.1, radius)
        case Err(x) => Err(x)
        case Ok(more) => Ok(pts + more)
  }

  /** The run fails exactly when the computation for some edge fails. */
  lemma {:induction false} EdgeHitsFailIff(m: Oracle, edges: seq<(Point2D, Point2D)>, radius: real)
    ensures EdgeHits(m, edges, radius).Err? <==> exists e :: e in edges && EdgeFails(m, e, radius)
  {
    if edges != [] {
      var init, e := edges[..|edges| - 1], edges[|edges| - 1];
      assert edges == init + [e];
      EdgeHitsFailIff(m, init, radius);
      if EdgeHits(m, init, radius).Err? {
        var e' :| e' in init && EdgeFails(m, e', radius);
        assert e' in edges;
      } else if EdgeFails(m, e, radius) {
        assert e in edges;
      } else {
        forall e' | e' in edges
          ensures !EdgeFails(m, e', radius)
        {
          assert e' in init || e' == e;
        }
      }
    }
  }

  /** Every collected point is a hit of one of the edges. */
  lemma {:induction false} EdgeHitsSound(m: Oracle, edges: seq<(Point2D, Point2D)>, radius: real)
    requires EdgeHits(m, edges, radius).Ok?
    ensures forall q :: q in EdgeHits(m, edges, radius).value ==> exists e :: e in edges && HitOf(m, e, radius, q)
  {
    if edges != [] {
      var init, e := edges[..|edges| - 1], edges[|edges| - 1];
      assert edges == init + [e];
      EdgeHitsSound(m, init, radius);
      var pts, more := EdgeHits(m, init, radius).value, CircleHits(m, e.0, e.1, radius).value;
      forall q | q in EdgeHits(m, edges, radius).value
        ensures exists e :: e in edges && HitOf(m, e, radius, q)
      {
        if q in pts {
          var e' :| e' in init && HitOf(m, e', radius, q);
          assert e' in edges;
        } else {
          assert q in more && HitOf(m, e, radius, q);
        }
      }
    }
  }

  /** Every hit of every edge is collected. */
  lemma {:induction false} EdgeHitsComplete(m: Oracle, edges: seq<(Point2D, Point2D)>, radius: real)
    requires EdgeHits(m, edges, radius).Ok?
    ensures forall e, q :: e in edges && HitOf(m, e, radius, q) ==> q in EdgeHits(m, edges, radius).value
  {
    if edges != [] {
      var init, e := edges[..|edges| - 1], edges[|edges| - 1];
      assert edges == init + [e];
      EdgeHitsComplete(m, init, radius);
    }
  }

  /** One output row: `radius`, `x`, `y`, `polar_r`, `polar_theta`. */
  datatype Row = Row(radius: real, x: real, y: real, polarR: real, polarTheta: real)

  function PolarR(row: Row): real {
    row.polarR
  }

  function PointOf(row: Row): Point2D {
    Point2D(row.x, row.y)
  }

  /** `cartesian_to_polar`: the distance from the origin and the angle in degrees. */
  function CartesianToPolar(m: Oracle, p: Point2D): (real, real) {
    (PolarRadius(m, p), Degrees(m.atan2(p.y, p.x)))
  }

  function PolarRadius(m: Oracle, p: Point2D): real {
    m.sqrt(SquaredNorm2(p))
  }

  /** The angle is within [-180, 180] degrees. */
  lemma PolarAngleRange(m: Oracle, p: Point2D)
    requires Atan2Range(m)
    ensures -180.0 <= CartesianToPolar(m, p).1 <= 180.0
  {
    var a := m.atan2(p.y, p.x);
    assert -Pi <= a <= Pi;
    assert Degrees(a) == a * (180.0 / Pi);
  }

  /** With an exact square root the distance is the non-negative root of
      `x^2 + y^2`. */
  lemma PolarRadiusExact(m: Oracle, p: Point2D)
    requires ExactSqrtAt(m, SquaredNorm2(p))
    ensures PolarRadius(m, p) * PolarRadius(m, p) == SquaredNorm2(p)
  {
    SquaredNormNonNeg(p);
  }

  function RowOf(m: Oracle, radius: real, p: Point2D): Row {
    var (r, theta) := CartesianToPolar(m, p);
    Row(radius, p.x, p.y, r, theta)
  }

  function PolarRows(m: Oracle, radius: real, pts: seq<Point2D>): (r: seq<Row>)
    ensures |r| == |pts|
    ensures forall i :: 0 <= i < |r| ==> r[i] == RowOf(m, radius, pts[i])
  {
    seq(|pts|, i requires 0 <= i < |pts| => RowOf(m, radius, pts[i]))
  }

  /** The rows of one radius: its intersections without duplicates, converted to
      polar form and sorted by `polar_r`. */
  function Band(m: Oracle, edges: seq<(Point2D, Point2D)>, radius: real): (r: Result<seq<Row>, PlanError>)
    ensures r.Err? <==> EdgeHits(m, edges, radius).Err?
    ensures r.Err? ==> r.error == ZeroLengthEdge
    ensures r.Ok? ==> SortedBy(r.value, PolarR) && Distinct(r.value)
    ensures r.Ok? ==> forall row :: row in r.value ==>
      row == RowOf(m, radius, PointOf(row)) && PointOf(row) in EdgeHits(m, edges, radius).value
    ensures r.Ok? ==> forall q :: q in EdgeHits(m, edges, radius).value ==> RowOf(m, radius, q) in r.value
  {
    match EdgeHits(m, edges, radius)
    case Err(x) => Err(x)
    case Ok(hits) =>
      var rows := PolarRows(m, radius, Dedup(hits));
      var sorted := SortBy(rows, PolarR);
      DistinctRows(m, radius, Dedup(hits));
      PermutationKeepsDistinct(rows, sorted);
      assert forall row :: row in sorted <==> row in rows by {
        forall row ensures row in sorted <==> row in rows {
          assert row in sorted <==> row in multiset(sorted);
          assert row in rows <==> row in multiset(rows);
        }
      }
      Ok(sorted)
  }

  /** Distinct points give distinct rows. */
  lemma DistinctRows(m: Oracle, radius: real, pts: seq<Point2D>)
    requires Distinct(pts)
    ensures Distinct(PolarRows(m, radius, pts))
  {
  }

  /** Distinct rows of one band have distinct points. */
  lemma DistinctPoints(m: Oracle, edges: seq<(Point2D, Point2D)>, radius: real)
    requires Band(m, edges, radius).Ok?
    ensures var rows := Band(m, edges, radius).value;
      forall i, j :: 0 <= i < j < |rows| ==> PointOf(rows[i]) != PointOf(rows[j])
  {
    var rows := Band(m, edges, radius).value;
    forall i, j | 0 <= i < j < |rows|
      ensures PointOf(rows[i]) != PointOf(rows[j])
    {
      assert rows[i] in rows && rows[j] in rows;
    }
  }

  // ---- the sweep over all radii ----

  /** `results`: the bands of the radii, in sweep order. */
  function Sweep(m: Oracle, edges: seq<(Point2D, Point2D)>, radii: seq<real>): (r: Result<seq<Row>, PlanError>)
    ensures r.Err? <==> exists radius :: radius in radii && Band(m, edges, radius).Err?
    ensures r.Err? ==> r.error == ZeroLengthEdge
    ensures r.Ok? ==> forall row :: row in r.value ==> row.radius in radii
  {
    if radii == [] then Ok([])
    else
      var init, radius := radii[..|radii| - 1], radii[|radii| - 1];
      assert radii == init + [radius];
      match Sweep(m, edges, init)
      case Err(x) => Err(x)
      case Ok(rows) =>
        match Band(m, edges, radius)
        case Err(x) => Err(x)
        case Ok(band) => Ok(rows + band)
  }

  /** Sweeping two runs of radii one after the other gives the rows of the first run
      followed by those of the second; it fails when either run fails. */
  lemma {:induction false} SweepAppend(m: Oracle, edges: seq<(Point2D, Point2D)>, a: seq<real>, b: seq<real>)
    ensures Sweep(m, edges, a + b)
      == if Sweep(m, edges, a).Ok? && Sweep(m, edges, b).Ok?
         then Ok(Sweep(m, edges, a).value + Sweep(m, edges, b).value)
         else Err(ZeroLengthEdge)
  {
    if b == [] {
      assert a + b == a;
      assert Sweep(m, edges, b) == Ok([]);
      if Sweep(m, edges, a).Ok? {
        assert Sweep(m, edges, a).value + [] == Sweep(m, edges, a).value;
      }
    } else {
      var init, x := b[..|b| - 1], b[|b| - 1];
      var ab := a + init;
      assert b == init + [x];
      assert (a + b)[..|a + b| - 1] == ab && (a + b)[|a + b| - 1] == x;
      SweepAppend(m, edges, a, init);
      var whole, left, mid, band := Sweep(m, edges, a + b), Sweep(m, edges, a), Sweep(m, edges, init), Band(m, edges, x);
      assert whole == match Sweep(m, edges, ab)
        case Err(e) => Err(e)
        case Ok(rows) => (match band case Err(e) => Err(e) case Ok(bs) => Ok(rows + bs));
      assert Sweep(m, edges, b) == match mid
        case Err(e) => Err(e)
        case Ok(rows) => (match band case Err(e) => Err(e) case Ok(bs) => Ok(rows + bs));
      if left.Ok? && mid.Ok? && band.Ok? {
        ConcatAssoc(left.value, mid.value, band.value);
      }
    }
  }

  lemma ConcatAssoc<T>(x: seq<T>, y: seq<T>, z: seq<T>)
    ensures (x + y) + z == x + (y + z)
  {
  }

  /** The sweep of a single radius is that radius's band. */
  lemma SweepSingle(m: Oracle, edges: seq<(Point2D, Point2D)>, radius: real)
    ensures Sweep(m, edges, [radius]) == Band(m, edges, radius)
  {
    assert [radius][..0] == [];
    if Band(m, edges, radius).Ok? {
      assert [] + Band(m, edges, radius).value == Band(m, edges, radius).value;
    }
  }

  /** Every row of every radius's band appears in a successful sweep. */
  lemma SweepContainsBands(m: Oracle, edges: seq<(Point2D, Point2D)>, radii: seq<real>, k: nat)
    requires k < |radii| && Sweep(m, edges, radii).Ok?
    ensures Band(m, edges, radii[k]).Ok?
    ensures forall row :: row in Band(m, edges, radii[k]).value ==> row in Sweep(m, edges, radii).value
  {
    assert radii == radii[..k] + ([radii[k]] + radii[k + 1..]);
    SweepAppend(m, edges, radii[..k], [radii[k]] + radii[k + 1..]);
    SweepAppend(m, edges, [radii[k]], radii[k + 1..]);
    SweepSingle(m, edges, radii[k]);
  }

  /** The distance of each vertex from the origin. */
  function VertexDistances(m: Oracle, points: seq<Point2D>): (r: seq<real>)
    ensures |r| == |points|
  {
    seq(|points|, i requires 0 <= i < |points| => CartesianToPolar(m, points[i]).0)
  }

  /** The radii `process_shape` sweeps: from two steps inside the nearest vertex to two
      steps beyond the farthest. */
  function SweepRadii(m: Oracle, points: seq<Point2D>, step: real): seq<real>
    requires |points| > 0 && step > 0.0
  {
    var ds := VertexDistances(m, points);
    Range(MinOf(ds) - 2.0 * step, MaxOf(ds) + 2.0 * step, step)
  }

  /** The rows `process_shape` writes for a polygon. */
  function Plan(m: Oracle, points: seq<Point2D>, step: real): Result<seq<Row>, PlanError>
    requires |points| > 0 && step > 0.0
  {
    Sweep(m, Edges(points), SweepRadii(m, points, step))
  }

  /** Every row of a band comes from that band: its point was cut at its radius. */
  lemma {:induction false} SweepRowsFromBands(m: Oracle, edges: seq<(Point2D, Point2D)>, radii: seq<real>)
    requires Sweep(m, edges, radii).Ok?
    ensures forall row :: row in Sweep(m, edges, radii).value ==>
      Band(m, edges, row.radius).Ok? && row in Band(m, edges, row.radius).value
  {
    if radii != [] {
      var init, radius := radii[..|radii| - 1], radii[|radii| - 1];
      SweepRowsFromBands(m, edges, init);
    }
  }

  /** Rows grouped by radius, in increasing order of radius, and sorted by `polar_r`
      within each group. */
  ghost predicate GroupedByRadius(rows: seq<Row>) {
    forall i, j :: 0 <= i < j < |rows| ==>
      rows[i].radius < rows[j].radius
      || (rows[i].radius == rows[j].radius && rows[i].polarR <= rows[j].polarR)
  }

  /** Appending a sorted band of a larger radius keeps the rows grouped. */
  lemma AppendBand(prev: seq<Row>, band: seq<Row>, radius: real)
    requires GroupedByRadius(prev)
    requires forall row :: row in prev ==> row.radius < radius
    requires forall row :: row in band ==> row.radius == radius
    requires SortedBy(band, PolarR)
    ensures GroupedByRadius(prev + band)
  {
    var rows := prev + band;
    forall i, j | 0 <= i < j < |rows|
      ensures rows[i].radius < rows[j].radius
        || (rows[i].radius == rows[j].radius && rows[i].polarR <= rows[j].polarR)
    {
      if j < |prev| {
        assert rows[i] == prev[i] && rows[j] == prev[j];
      } else if i >= |prev| {
        var i', j' := i - |prev|, j - |prev|;
        assert rows[i] == band[i'] && rows[j] == band[j'];
        assert band[i'] in band && band[j'] in band;
        assert PolarR(band[i']) <= PolarR(band[j']);
      } else {
        assert rows[i] == prev[i] && prev[i] in prev;
        assert rows[j] == band[j - |prev|] && band[j - |prev|] in band;
      }
    }
  }

  /** With increasing radii, the rows are grouped by radius in sweep order and sorted by
      `polar_r` within each group. */
  lemma {:induction false} SweepOrdered(m: Oracle, edges: seq<(Point2D, Point2D)>, radii: seq<real>)
    requires forall i, j :: 0 <= i < j < |radii| ==> radii[i] < radii[j]
    requires Sweep(m, edges, radii).Ok?
    ensures GroupedByRadius(Sweep(m, edges, radii).value)
  {
    if radii != [] {
      var init, radius := radii[..|radii| - 1], radii[|radii| - 1];
      assert radii == init + [radius];
      SweepOrdered(m, edges, init);
      forall x | x in init
        ensures x < radius
      {
        var k :| 0 <= k < |init| && init[k] == x;
        assert radii[k] == x;
      }
      AppendBand(Sweep(m, edges, init).value, Band(m, edges, radius).value, radius);
    }
  }

  /** A computation for one edge fails exactly when the edge has length zero, whatever
      the radius. */
  lemma EdgeFailsIff(m: Oracle, e: (Point2D, Point2D), radius: real)
    ensures EdgeFails(m, e, radius) <==> QuadA(e.0, e.1) == 0.0
  {
    if QuadA(e.0, e.1) == 0.0 {
      var b := QuadB(e.0, e.1);
      SquareNonNeg(b);
      assert Discriminant(e.0, e.1, radius) == b * b - 4.0 * 0.0 * QuadC(e.0, radius);
    }
  }

  /** The sweep visits at least one radius. */
  lemma SweepRadiiNonEmpty(m: Oracle, points: seq<Point2D>, step: real)
    requires |points| > 0 && step > 0.0
    ensures |SweepRadii(m, points, step)| > 0
  {
    var ds := VertexDistances(m, points);
    assert MinOf(ds) <= ds[0] <= MaxOf(ds);
  }

  /** `process_shape` fails exactly when the polygon has an edge of length zero (two
      consecutive vertices, or the last and the first, coincide). */
  lemma PlanFailsIff(m: Oracle, points: seq<Point2D>, step: real)
    requires |points| > 0 && step > 0.0
    ensures Plan(m, points, step).Err? <==> exists e :: e in Edges(points) && QuadA(e.0, e.1) == 0.0
  {
    var edges, radii := Edges(points), SweepRadii(m, points, step);
    if Plan(m, points, step).Err? {
      var radius :| radius in radii && Band(m, edges, radius).Err?;
      EdgeHitsFailIff(m, edges, radius);
      var e :| e in edges && EdgeFails(m, e, radius);
      EdgeFailsIff(m, e, radius);
    }
    if e :| e in edges && QuadA(e.0, e.1) == 0.0 {
      SweepRadiiNonEmpty(m, points, step);
      EdgeFailsIff(m, e, radii[0]);
      EdgeHitsFailIff(m, edges, radii[0]);
      assert radii[0] in radii && Band(m, edges, radii[0]).Err?;
    }
  }

  /** With an exact square root, a point cut from an edge lies on the circle. */
  lemma HitOnCircle(m: Oracle, e: (Point2D, Point2D), radius: real, q: Point2D)
    requires ExactSqrt(m) && HitOf(m, e, radius, q)
    ensures SquaredNorm2(q) == radius * radius
  {
    assert ExactSqrtAt(m, Discriminant(e.0, e.1, radius));
    HitsOnCircle(m, e.0, e.1, radius);
  }

  /** The row of a point on the circle of `radius` has `polar_r == |radius|`. */
  lemma RowOnCircle(m: Oracle, radius: real, q: Point2D)
    requires ExactSqrt(m) && SquaredNorm2(q) == radius * radius
    ensures RowOf(m, radius, q).polarR == Abs(radius)
  {
    assert ExactSqrtAt(m, SquaredNorm2(q));
    PolarRadiusExact(m, q);
    RootOfSquare(PolarRadius(m, q), radius);
  }

  /** With an exact square root, every row of a band lies on its circle and its
      `polar_r` is the absolute value of the radius, so the sort by `polar_r` only meets
      ties. */
  lemma BandOnCircle(m: Oracle, edges: seq<(Point2D, Point2D)>, radius: real)
    requires ExactSqrt(m)
    requires Band(m, edges, radius).Ok?
    ensures forall row :: row in Band(m, edges, radius).value ==>
      SquaredNorm2(PointOf(row)) == radius * radius && row.polarR == Abs(radius)
  {
    EdgeHitsSound(m, edges, radius);
    forall row | row in Band(m, edges, radius).value
      ensures SquaredNorm2(PointOf(row)) == radius * radius && row.polarR == Abs(radius)
    {
      var q := PointOf(row);
      var e :| e in edges && HitOf(m, e, radius, q);
      HitOnCircle(m, e, radius, q);
      RowOnCircle(m, radius, q);
    }
  }

  /** A non-negative number whose square is `r * r` is `|r|`. */
  lemma RootOfSquare(s: real, r: real)
    requires s >= 0.0 && s * s == r * r
    ensures s == Abs(r)
  {
    var a := Abs(r);
    assert a * a == r * r;
    SquareMonotone(s, a);
    SquareMonotone(a, s);
  }

  /** One more edge: its hits are appended to those of the edges before it. */
  lemma EdgeStep(m: Oracle, edges: seq<(Point2D, Point2D)>, i: nat, radius: real, hits: seq<Point2D>)
    requires i < |edges|
    requires EdgeHits(m, edges[..i], radius) == Ok(hits)
    requires CircleHits(m, edges[i].0, edges[i].1, radius).Ok?
    ensures EdgeHits(m, edges[..i + 1], radius)
      == Ok(hits + CircleHits(m, edges[i].0, edges[i].1, radius).value)
  {
    assert edges[..i + 1][..i] == edges[..i];
  }

  /** One more radius: its band is appended to the rows of the radii before it. */
  lemma SweepExtends(m: Oracle, edges: seq<(Point2D, Point2D)>, radii: seq<real>, k: nat, rows: seq<Row>)
    requires k < |radii| && Sweep(m, edges, radii[..k]) == Ok(rows)
    requires Band(m, edges, radii[k]).Ok?
    ensures Sweep(m, edges, radii[..k + 1]) == Ok(rows + Band(m, edges, radii[k]).value)
  {
    assert radii[..k + 1][..k] == radii[..k];
  }

  /** A failing band makes the whole sweep fail. */
  lemma BandFailsSweep(m: Oracle, edges: seq<(Point2D, Point2D)>, radii: seq<real>, k: nat)
    requires k < |radii| && Band(m, edges, radii[k]).Err?
    ensures Sweep(m, edges, radii) == Err(ZeroLengthEdge)
  {
    assert radii[k] in radii;
  }

  // ---- reading the polygon ----

  /** A CSV row that yields a vertex: at least two fields, both accepted by `float`. */
  predicate UsableRow(row: seq<string>, parse: string -> Option<real>) {
    |row| >= 2 && parse(row[0]).Some? && parse(row[1]).Some?
  }

  function VertexOf(row: seq<string>, parse: string -> Option<real>): Point2D
    requires UsableRow(row, parse)
  {
    Point2D(parse(row[0]).value, parse(row[1]).value)
  }

  /** The vertices `read_coordinates` collects: one per usable row, in file order. */
  function Vertices(rows: seq<seq<string>>, parse: string -> Option<real>): (r: seq<Point2D>)
    ensures |r| <= |rows|
    ensures r == [] <==> forall i :: 0 <= i < |rows| ==> !UsableRow(rows[i], parse)
    ensures forall i :: 0 <= i < |rows| && UsableRow(rows[i], parse) ==> VertexOf(rows[i], parse) in r
    ensures forall q :: q in r ==> exists i :: 0 <= i < |rows| && UsableRow(rows[i], parse) && q == VertexOf(rows[i], parse)
  {
    if rows == [] then []
    else
      var init, row := rows[..|rows| - 1], rows[|rows| - 1];
      assert rows == init + [row];
      Vertices(init, parse) + (if UsableRow(row, parse) then [VertexOf(row, parse)] else [])
  }

  /** File order is kept: the vertices of two runs of rows are those of the first run
      followed by those of the second. */
  lemma {:induction false} VerticesAppend(a: seq<seq<string>>, b: seq<seq<string>>, parse: string -> Option<real>)
    ensures Vertices(a + b, parse) == Vertices(a, parse) + Vertices(b, parse)
  {
    if b == [] {
      assert a + b == a;
    } else {
      var init, row := b[..|b| - 1], b[|b| - 1];
      var tail := if UsableRow(row, parse) then [VertexOf(row, parse)] else [];
      assert (a + b)[..|a + b| - 1] == a + init && (a + b)[|a + b| - 1] == row;
      assert Vertices(a + b, parse) == Vertices(a + init, parse) + tail;
      assert Vertices(b, parse) == Vertices(init, parse) + tail;
      VerticesAppend(a, init, parse);
      ConcatAssoc(Vertices(a, parse), Vertices(init, parse), tail);
    }
  }

  /** A single row yields its vertex when usable and nothing otherwise. */
  lemma VerticesSingle(row: seq<string>, parse: string -> Option<real>)
    ensures Vertices([row], parse) == if UsableRow(row, parse) then [VertexOf(row, parse)] else []
  {
    assert [row][..0] == [];
  }

  /** One more row read: its vertex, when it has one, comes after the others. */
  lemma VerticesGrow(rows: seq<seq<string>>, k: nat, parse: string -> Option<real>)
    requires k < |rows|
    ensures Vertices(rows[..k + 1], parse)
              == Vertices(rows[..k], parse) + if UsableRow(rows[k], parse) then [VertexOf(rows[k], parse)] else []
  {
    assert rows[..k + 1][..k] == rows[..k];
  }

  /** `read_coordinates`: the rows of the CSV file are given (opening and reading the
      file are not modelled); `parse` is Python's `float` on one field, `None` where it
      raises ValueError. */
  method ReadCoordinates(rows: seq<seq<string>>, parse: string -> Option<real>)
    returns (r: Result<seq<Point2D>, PlanError>)
    ensures Vertices(rows, parse) == [] ==> r == Err(NoCoordinates)
    ensures Vertices(rows, parse) != [] ==> r == Ok(Vertices(rows, parse))
  {
    var points: seq<Point2D> := [];
    for k := 0 to |rows|
      invariant points == Vertices(rows[..k], parse)
    {
      var row := rows[k];
      VerticesGrow(rows, k, parse);
      if |row| >= 2 {
        var x := parse(row[0]);
        var y := parse(row[1]);
        if x.Some? && y.Some? {
          points := points + [Point2D(x.value, y.value)];
        }
      }
    }
    assert rows[..|rows|] == rows;
    if points == [] {
      return Err(NoCoordinates);
    }
    return Ok(points);
  }

  // ---- the whole run ----

  /** The body of the radius loop of `process_shape`: the hits of every edge of the
      closed polygon, deduplicated, converted to polar rows and sorted by `polar_r`. */
  method CutBand(m: Oracle, points: seq<Point2D>, closed: seq<Point2D>, radius: real)
    returns (r: Result<seq<Row>, PlanError>)
    requires |points| > 0 && closed == points + [points[0]]
    ensures r == Band(m, Edges(points), radius)
  {
    ghost var edges := Edges(points);
    var intersections: seq<Point2D> := [];
    for i := 0 to |closed| - 1
      invariant EdgeHits(m, edges[..i], radius) == Ok(intersections)
    {
      assert edges[i] == (closed[i], closed[i + 1]);
      var pts := FindCircleIntersections(m, closed[i], closed[i + 1], radius);
      if pts.Err? {
        assert edges[i] in edges && EdgeFails(m, edges[i], radius);
        EdgeHitsFailIff(m, edges, radius);
        return Err(pts.error);
      }
      EdgeStep(m, edges, i, radius, intersections);
      intersections := intersections + pts.value;
    }
    assert edges[..|closed| - 1] == edges;
    var uniquePts := Dedup(intersections);
    var polarPts: seq<Row> := [];
    for j := 0 to |uniquePts|
      invariant polarPts == PolarRows(m, radius, uniquePts[..j])
    {
      var (polarR, polarTheta) := CartesianToPolar(m, uniquePts[j]);
      polarPts := polarPts + [Row(radius, uniquePts[j].x, uniquePts[j].y, polarR, polarTheta)];
    }
    assert uniquePts[..|uniquePts|] == uniquePts;
    polarPts := SortBy(polarPts, PolarR);
    return Ok(polarPts);
  }

  /** The intersection and sort core of `process_shape` (writing the CSV file and the
      preview plot are not modelled): read the polygon, sweep the radii, and collect each
      radius's deduplicated intersections sorted by `polar_r`. */
  method ProcessShape(m: Oracle, rows: seq<seq<string>>, parse: string -> Option<real>, radiusStep: real)
    returns (r: Result<seq<Row>, PlanError>)
    requires radiusStep > 0.0
    ensures Vertices(rows, parse) == [] ==> r == Err(NoCoordinates)
    ensures Vertices(rows, parse) != [] ==> r == Plan(m, Vertices(rows, parse), radiusStep)
  {
    var read := ReadCoordinates(rows, parse);
    if read.Err? {
      return Err(read.error);
    }
    var points := read.value;
    var closed := points + [points[0]];
    var distances := VertexDistances(m, points);
    var minRadius, maxRadius := MinOf(distances), MaxOf(distances);
    var radii := Frange(minRadius - 2.0 * radiusStep, maxRadius + 2.0 * radiusStep, radiusStep);
    ghost var edges := Edges(points);
    assert radii == SweepRadii(m, points, radiusStep);
    assert Plan(m, points, radiusStep) == Sweep(m, edges, radii);
    var results: seq<Row> := [];
    for k := 0 to |radii|
      invariant Sweep(m, edges, radii[..k]) == Ok(results)
    {
      var band := CutBand(m, points, closed, radii[k]);
      if band.Err? {
        BandFailsSweep(m, edges, radii, k);
        return Err(band.error);
      }
      SweepExtends(m, edges, radii, k, results);
      results := results + band.value;
    }
    assert radii[..|radii|] == radii;
    return Ok(results);
  }
}
