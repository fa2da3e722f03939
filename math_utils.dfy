/**
  The point-in-triangle test of `MathUtils.ptInTriangle`.

  The test is a sign-normalised barycentric check: it computes twice the
  signed area of the triangle, two unnormalised barycentric coordinates of
  the query point, flips all three to the positive orientation, and reports
  the point inside when both coordinates and their complement are strictly
  positive. It uses only `+` and `*`, so it is modelled exactly over `real`.
 */
module MathUtils {

  datatype Point = Point(x: real, y: real)

  /** The triangle's signed area `A`, exactly as the source computes it. */
  function SignedArea(p0: Point, p1: Point, p2: Point): real
  {
    (1.0 / 2.0) * (-p1.y * p2.x + p0.y * (-p1.x + p2.x) + p0.x * (p1.y - p2.y) + p1.x * p2.y)
  }

  /** `sign`: -1 for a clockwise (negative-area) triangle, otherwise 1. */
  function Orientation(area: real): real
  {
    if area < 0.0 then -1.0 else 1.0
  }

  /** The unnormalised coordinate `s` (before the sign flip): 2A times the weight of p1. */
  function RawS(p: Point, p0: Point, p2: Point): real
  {
    p0.y * p2.x - p0.x * p2.y + (p2.y - p0.y) * p.x + (p0.x - p2.x) * p.y
  }

  /** The unnormalised coordinate `t` (before the sign flip): 2A times the weight of p2. */
  function RawT(p: Point, p0: Point, p1: Point): real
  {
    p0.x * p1.y - p0.y * p1.x + (p0.y - p1.y) * p.x + (p1.x - p0.x) * p.y
  }

  /**
    `ptInTriangle(p, p0, p1, p2)`: every comparison is strict, so a point is
    reported inside only when the triangle is not degenerate and both
    orientation-corrected coordinates are strictly positive.
   */
  function PtInTriangle(p: Point, p0: Point, p1: Point, p2: Point): (inside: bool)
    ensures inside ==> SignedArea(p0, p1, p2) != 0.0
    ensures inside ==> RawS(p, p0, p2) * Orientation(SignedArea(p0, p1, p2)) > 0.0
    ensures inside ==> RawT(p, p0, p1) * Orientation(SignedArea(p0, p1, p2)) > 0.0
  {
    var a := SignedArea(p0, p1, p2);
    var sign := Orientation(a);
    var s := RawS(p, p0, p2) * sign;
    var t := RawT(p, p0, p1) * sign;
    s > 0.0 && t > 0.0 && s + t < 2.0 * a * sign
  }

  /** The point `p0 + a * (p1 - p0) + b * (p2 - p0)`. */
  function Affine(p0: Point, p1: Point, p2: Point, a: real, b: real): Point
  {
    Point(p0.x + a * (p1.x - p0.x) + b * (p2.x - p0.x),
          p0.y + a * (p1.y - p0.y) + b * (p2.y - p0.y))
  }

  /** The centroid of a triangle. */
  function Centroid(p0: Point, p1: Point, p2: Point): Point
  {
    Point((p0.x + p1.x + p2.x) / 3.0, (p0.y + p1.y + p2.y) / 3.0)
  }

  // ---------------------------------------------------------------------------
  // Algebraic identities behind the test
  // ---------------------------------------------------------------------------

  /** The raw coordinates of an affine point are its weights scaled by 2A. */
  lemma RawCoordinatesOfAffine(p0: Point, p1: Point, p2: Point, a: real, b: real)
    ensures RawS(Affine(p0, p1, p2, a, b), p0, p2) == 2.0 * SignedArea(p0, p1, p2) * a
    ensures RawT(Affine(p0, p1, p2, a, b), p0, p1) == 2.0 * SignedArea(p0, p1, p2) * b
  {
    var q := Affine(p0, p1, p2, a, b);
    var ux, uy := p1.x - p0.x, p1.y - p0.y;
    var vx, vy := p2.x - p0.x, p2.y - p0.y;
    assert 2.0 * SignedArea(p0, p1, p2) == ux * vy - uy * vx;
    assert RawS(q, p0, p2) == (p2.y - p0.y) * (q.x - p0.x) - (p2.x - p0.x) * (q.y - p0.y);
    assert RawT(q, p0, p1) == (p1.x - p0.x) * (q.y - p0.y) - (p1.y - p0.y) * (q.x - p0.x);
    assert q.x - p0.x == a * ux + b * vx;
    assert q.y - p0.y == a * uy + b * vy;
  }

  /** The sign of `c * v` is the sign of `v` when `c` is positive. */
  lemma PositiveScale(c: real, v: real)
    requires c > 0.0
    ensures v > 0.0 ==> c * v > 0.0
    ensures v <= 0.0 ==> c * v <= 0.0
  {
  }

  /** Scaling barycentric weights by a positive factor keeps the strict inside test. */
  lemma ScaledWeights(c: real, a: real, b: real, s: real, t: real)
    requires c > 0.0 && s == c * a && t == c * b
    ensures (s > 0.0 && t > 0.0 && s + t < c) <==> (a > 0.0 && b > 0.0 && a + b < 1.0)
  {
    PositiveScale(c, a);
    PositiveScale(c, b);
    var excess := a + b - 1.0;
    PositiveScale(c, excess);
    PositiveScale(c, -excess);
    assert c * a + c * b - c == c * excess;
  }

  // ---------------------------------------------------------------------------
  // Properties of the test
  // ---------------------------------------------------------------------------

  /**
    Exact characterisation: a point written in barycentric form relative to
    p0 is reported inside iff the triangle is not degenerate and both weights
    and their complement are strictly positive.
   */
  lemma InsideIffBarycentric(p0: Point, p1: Point, p2: Point, a: real, b: real)
    ensures PtInTriangle(Affine(p0, p1, p2, a, b), p0, p1, p2)
            <==> SignedArea(p0, p1, p2) != 0.0 && a > 0.0 && b > 0.0 && a + b < 1.0
  {
    var area := SignedArea(p0, p1, p2);
    var sign := Orientation(area);
    var q := Affine(p0, p1, p2, a, b);
    RawCoordinatesOfAffine(p0, p1, p2, a, b);
    var c := 2.0 * area * sign;
    var s := RawS(q, p0, p2) * sign;
    var t := RawT(q, p0, p1) * sign;
    assert PtInTriangle(q, p0, p1, p2) <==> s > 0.0 && t > 0.0 && s + t < c;
    assert s == c * a && t == c * b;
    if area == 0.0 {
      assert c == 0.0;
    } else {
      assert c == if area < 0.0 then -2.0 * area else 2.0 * area;
      ScaledWeights(c, a, b, s, t);
    }
  }

  /** A degenerate (collinear) triangle contains no point. */
  lemma DegenerateContainsNothing(p: Point, p0: Point, p1: Point, p2: Point)
    requires SignedArea(p0, p1, p2) == 0.0
    ensures !PtInTriangle(p, p0, p1, p2)
  {
  }

  /** No vertex is ever reported inside. */
  lemma VerticesOutside(p0: Point, p1: Point, p2: Point)
    ensures !PtInTriangle(p0, p0, p1, p2)
    ensures !PtInTriangle(p1, p0, p1, p2)
    ensures !PtInTriangle(p2, p0, p1, p2)
  {
    InsideIffBarycentric(p0, p1, p2, 0.0, 0.0);
    assert Affine(p0, p1, p2, 0.0, 0.0) == p0;
    InsideIffBarycentric(p0, p1, p2, 1.0, 0.0);
    assert Affine(p0, p1, p2, 1.0, 0.0) == p1;
    InsideIffBarycentric(p0, p1, p2, 0.0, 1.0);
    assert Affine(p0, p1, p2, 0.0, 1.0) == p2;
  }

  /**
    Points on an edge are reported outside: the edge p0-p1 (b = 0), the edge
    p0-p2 (a = 0) and the edge p1-p2 (a + b = 1).
   */
  lemma EdgesOutside(p0: Point, p1: Point, p2: Point, k: real)
    ensures !PtInTriangle(Affine(p0, p1, p2, k, 0.0), p0, p1, p2)
    ensures !PtInTriangle(Affine(p0, p1, p2, 0.0, k), p0, p1, p2)
    ensures !PtInTriangle(Affine(p0, p1, p2, 1.0 - k, k), p0, p1, p2)
  {
    InsideIffBarycentric(p0, p1, p2, k, 0.0);
    InsideIffBarycentric(p0, p1, p2, 0.0, k);
    InsideIffBarycentric(p0, p1, p2, 1.0 - k, k);
  }

  /** The centroid of a non-degenerate triangle is inside. */
  lemma CentroidInside(p0: Point, p1: Point, p2: Point)
    requires SignedArea(p0, p1, p2) != 0.0
    ensures PtInTriangle(Centroid(p0, p1, p2), p0, p1, p2)
  {
    InsideIffBarycentric(p0, p1, p2, 1.0 / 3.0, 1.0 / 3.0);
    assert Affine(p0, p1, p2, 1.0 / 3.0, 1.0 / 3.0) == Centroid(p0, p1, p2);
  }

  /** Swapping p1 and p2 (the winding order) does not change the answer. */
  lemma SwapInvariant(p: Point, p0: Point, p1: Point, p2: Point)
    ensures PtInTriangle(p, p0, p1, p2) == PtInTriangle(p, p0, p2, p1)
  {
    assert SignedArea(p0, p2, p1) == -SignedArea(p0, p1, p2);
    assert RawS(p, p0, p1) == -RawT(p, p0, p1);
    assert RawT(p, p0, p2) == -RawS(p, p0, p2);
  }

  /** Rotating the vertices (p0, p1, p2) to (p1, p2, p0) does not change the answer. */
  lemma RotationInvariant(p: Point, p0: Point, p1: Point, p2: Point)
    ensures PtInTriangle(p, p0, p1, p2) == PtInTriangle(p, p1, p2, p0)
  {
    var d := 2.0 * SignedArea(p0, p1, p2);
    assert SignedArea(p1, p2, p0) == SignedArea(p0, p1, p2);
    assert RawS(p, p1, p0) == RawT(p, p0, p1);
    assert RawT(p, p1, p2) == d - RawS(p, p0, p2) - RawT(p, p0, p1);
  }
}
