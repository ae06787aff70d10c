/**
 * src/geometries/Triangle.java: a triangle is hit where its supporting plane
 * is hit, provided the hit lies strictly on the same side of the three planes
 * through the ray's origin and each edge.
 *
 * The supporting plane is built by Polygon, which is not part of this model;
 * it is taken to be the plane through the three vertices, as
 * findGeoIntersections builds it.
 */
module Triangles {
  import opened Wrappers
  import opened Numerics
  import opened Points
  import opened Vectors
  import opened Rays
  import opened Planes

  datatype Triangle = Triangle(first: Point3D, second: Point3D, third: Point3D)

  /** The plane through the three vertices. */
  function SupportingPlane(m: MathLib, tri: Triangle): Result<Plane>
    requires Lawful(m)
  {
    PlaneFromPoints(m, tri.first, tri.second, tri.third)
  }

  /** getNormal(point): the normal of the supporting plane, whatever the
    * point: a unit vector orthogonal to both edges leaving the first vertex. */
  function TriangleNormal(m: MathLib, tri: Triangle, point: Point3D): (r: Result<Vector>)
    requires Lawful(m)
    ensures r.Fail? <==> Collinear(tri.first, tri.second, tri.third)
    ensures r.Ok? ==> LengthSquared(r.value) == 1.0
    ensures r.Ok? ==> Dot(r.value, Diff(tri.second, tri.first)) == 0.0 && Dot(r.value, Diff(tri.third, tri.first)) == 0.0
  {
    var plane :- SupportingPlane(m, tri);
    Ok(plane.normal)
  }

  /** The signed volume spanned, seen from o, by the edge a-b and the point p:
    * which side of the plane through o, a and b the point p lies on. */
  function Side(o: Point3D, a: Point3D, b: Point3D, p: Point3D): real
  {
    Dot(Diff(p, o), CrossHead(Diff(a, o), Diff(b, o)))
  }

  /** Seen from o, p lies strictly inside the triangle: strictly on the same
    * side of all three edge planes. */
  predicate StrictlyInside(tri: Triangle, o: Point3D, p: Point3D)
  {
    var s1, s2, s3 := Side(o, tri.first, tri.second, p), Side(o, tri.second, tri.third, p), Side(o, tri.third, tri.first, p);
    (s1 > 0.0 && s2 > 0.0 && s3 > 0.0) || (s1 < 0.0 && s2 < 0.0 && s3 < 0.0)
  }

  /** findGeoIntersections(ray): the plane's hit (with no bound), kept when the
    * three normalized edge normals seen from the ray's origin all give a
    * projection of the same strict sign. Every step that builds a vector can
    * throw; the exception propagates. */
  function TriangleIntersections(m: MathLib, tri: Triangle, ray: Ray): (r: Result<Option<seq<Point3D>>>)
    requires Lawful(m)
    ensures r.Ok? && r.value.Some? ==>
      && SupportingPlane(m, tri).Ok?
      && r.value == PlaneIntersections(SupportingPlane(m, tri).value, ray, Infinity)
  {
    var plane :- SupportingPlane(m, tri);
    match PlaneIntersections(plane, ray, Infinity)
    case None => Ok(None)
    case Some(hits) =>
      var p := hits[0];
      var v1 :- Subtract(tri.first, ray.origin);
      var v2 :- Subtract(tri.second, ray.origin);
      var v3 :- Subtract(tri.third, ray.origin);
      var c1 :- Cross(v1, v2);
      var c2 :- Cross(v2, v3);
      var c3 :- Cross(v3, v1);
      var n1, n2, n3 := UnitOf(m, c1), UnitOf(m, c2), UnitOf(m, c3);
      var w :- Subtract(p, ray.origin);
      var d1, d2, d3 := Dot(w, n1), Dot(w, n2), Dot(w, n3);
      if (d1 > 0.0 && d2 > 0.0 && d3 > 0.0) || (d1 < 0.0 && d2 < 0.0 && d3 < 0.0) then Ok(Some([p]))
      else Ok(None)
  }

  /** What the intersection means, without normalization or exceptions: the
    * plane's hit when it lies strictly inside the triangle. */
  function TriangleReference(m: MathLib, tri: Triangle, ray: Ray): Option<seq<Point3D>>
    requires Lawful(m) && !Collinear(tri.first, tri.second, tri.third)
  {
    var plane := SupportingPlane(m, tri).value;
    match PlaneIntersections(plane, ray, Infinity)
    case None => None
    case Some(hits) => if StrictlyInside(tri, ray.origin, hits[0]) then Some(hits) else None
  }

  /** For a proper triangle nothing throws, and the result is the reference:
    * once the plane is hit, the ray's origin is off the plane, so no vertex
    * coincides with it and no two vertices are aligned with it. */
  lemma TriangleMatchesReference(m: MathLib, tri: Triangle, ray: Ray)
    requires Lawful(m) && !Collinear(tri.first, tri.second, tri.third)
    ensures TriangleIntersections(m, tri, ray) == Ok(TriangleReference(m, tri, ray))
  {
    var plane := SupportingPlane(m, tri).value;
    var o := ray.origin;
    var hits := PlaneIntersections(plane, ray, Infinity);
    if hits.Some? {
      assert !OnPlane(plane, o) by {
        if OnPlane(plane, o) {
          OriginOnPlaneMisses(plane, ray, Infinity);
        }
      }
      var p := hits.value[0];
      var A, B, C := Diff(tri.first, o), Diff(tri.second, o), Diff(tri.third, o);
      OffPlaneTriple(m, tri, plane, o);
      CrossesNonZero(A, B, C);
      var c1, c2, c3 := CrossHead(A, B), CrossHead(B, C), CrossHead(C, A);
      var W := Diff(p, o);
      SignOfUnit(m, c1, W);
      SignOfUnit(m, c2, W);
      SignOfUnit(m, c3, W);
      DotSymmetric(W, c1);
      DotSymmetric(W, c2);
      DotSymmetric(W, c3);
    }
  }

  /** Seen from a point off the plane, the three vertices span a non-zero
    * volume. */
  lemma OffPlaneTriple(m: MathLib, tri: Triangle, plane: Plane, o: Point3D)
    requires Lawful(m) && SupportingPlane(m, tri) == Ok(plane) && !OnPlane(plane, o)
    ensures Dot(CrossHead(Diff(tri.first, o), Diff(tri.second, o)), Diff(tri.third, o)) != 0.0
  {
    var a, b, c := tri.first, tri.second, tri.third;
    var e := CrossHead(Diff(b, a), Diff(c, a));
    TripleProduct(a, b, c, o);
    var v1 := Subtract(b, a).value;
    var v2 := Subtract(c, a).value;
    var n := plane.normal;
    assert e == Cross(v1, v2).value;
    var len := Length(m, e);
    assert Times(n, len) == e;
    DotScaled(n, len, Diff(a, o));
    assert Dot(n, Diff(o, a)) != 0.0;
    DotDiff(a, o, n);
    DotSymmetric(n, Diff(a, o));
    DotSymmetric(Diff(a, o), n);
    DotSymmetric(n, Diff(o, a));
    NonZeroProduct(len, Dot(n, Diff(a, o)));
  }

  lemma NonZeroProduct(a: real, b: real)
    requires a != 0.0 && b != 0.0
    ensures a * b != 0.0
  {
    if a * b == 0.0 {
      ProductZero(a, b);
    }
  }

  /** A non-zero triple product leaves none of the three pairwise crosses
    * zero. */
  lemma CrossesNonZero(A: Point3D, B: Point3D, C: Point3D)
    requires Dot(CrossHead(A, B), C) != 0.0
    ensures CrossHead(A, B) != ZERO && CrossHead(B, C) != ZERO && CrossHead(C, A) != ZERO
  {
    DetCyclic(A, B, C);
    DetCyclic(B, C, A);
    ZeroDot(C);
    ZeroDot(A);
    ZeroDot(B);
  }

  lemma ZeroDot(p: Point3D)
    ensures Dot(ZERO, p) == 0.0
  {
  }

  /** Normalizing c does not change the sign of a projection onto it. */
  lemma SignOfUnit(m: MathLib, c: Vector, w: Point3D)
    requires Lawful(m)
    ensures Dot(w, UnitOf(m, c)) > 0.0 <==> Dot(c, w) > 0.0
    ensures Dot(w, UnitOf(m, c)) < 0.0 <==> Dot(c, w) < 0.0
  {
    var u, len := UnitOf(m, c), Length(m, c);
    DotScaled(u, len, w);
    DotSymmetric(u, w);
    PositiveFactorSign(Dot(u, w), len);
  }

  lemma PositiveFactorSign(x: real, k: real)
    requires 0.0 < k
    ensures x > 0.0 <==> k * x > 0.0
    ensures x < 0.0 <==> k * x < 0.0
  {
    if x > 0.0 {
      ProductPositive(k, x);
    } else if x < 0.0 {
      ProductPositive(k, -x);
    }
  }

  /** The same triangle with the opposite winding, (first, third, second). */
  function Reversed(tri: Triangle): Triangle
  {
    Triangle(tri.first, tri.third, tri.second)
  }

  /** Both windings are accepted: reversing the vertex order changes neither
    * whether the triangle is proper nor what a ray hits. */
  lemma WindingInvariant(m: MathLib, tri: Triangle, ray: Ray)
    requires Lawful(m) && !Collinear(tri.first, tri.second, tri.third)
    ensures !Collinear(tri.first, tri.third, tri.second)
    ensures TriangleIntersections(m, Reversed(tri), ray) == TriangleIntersections(m, tri, ray)
  {
    var a, b, c := tri.first, tri.second, tri.third;
    CrossSwap(Diff(b, a), Diff(c, a));
    var plane := SupportingPlane(m, tri).value;
    var e := CrossHead(Diff(b, a), Diff(c, a));
    UnitOfNegated(m, e);
    var flipped := SupportingPlane(m, Reversed(tri)).value;
    assert flipped == Plane(a, Times(plane.normal, -1.0));
    NegatedNormalSameHits(plane, ray, Infinity);
    var hits := PlaneIntersections(plane, ray, Infinity);
    if hits.Some? {
      var o, p := ray.origin, hits.value[0];
      SideSwap(o, a, b, p);
      SideSwap(o, b, c, p);
      SideSwap(o, c, a, p);
      assert StrictlyInside(Reversed(tri), o, p) == StrictlyInside(tri, o, p);
    }
    TriangleMatchesReference(m, tri, ray);
    TriangleMatchesReference(m, Reversed(tri), ray);
  }

  /** Reversing an edge flips the side a point lies on. */
  lemma SideSwap(o: Point3D, a: Point3D, b: Point3D, p: Point3D)
    ensures Side(o, b, a, p) == -Side(o, a, b, p)
  {
    var x := CrossHead(Diff(a, o), Diff(b, o));
    CrossSwap(Diff(a, o), Diff(b, o));
    DotScaled(x, -1.0, Diff(p, o));
    DotSymmetric(x, Diff(p, o));
    DotSymmetric(Times(x, -1.0), Diff(p, o));
  }

  /** A plane with the opposite normal is hit at the same points. */
  lemma NegatedNormalSameHits(plane: Plane, ray: Ray, maxDistance: Extended)
    ensures Times(plane.normal, -1.0) != ZERO
    ensures PlaneIntersections(Plane(plane.origin, Times(plane.normal, -1.0)), ray, maxDistance)
         == PlaneIntersections(plane, ray, maxDistance)
  {
    var n := plane.normal;
    DotScaled(n, -1.0, ray.direction);
    DotScaled(n, -1.0, Diff(plane.origin, ray.origin));
    if Dot(n, ray.direction) != 0.0 {
      QuotientBothNegated(Dot(n, Diff(plane.origin, ray.origin)), Dot(n, ray.direction));
    }
  }

  lemma QuotientBothNegated(a: real, b: real)
    requires b != 0.0
    ensures -1.0 * a / (-1.0 * b) == a / b
  {
  }

  /** p lies on the line through a and b, at parameter s from a. */
  predicate OnEdgeLine(a: Point3D, b: Point3D, p: Point3D, s: real)
  {
    p == Shift(a, Times(Diff(b, a), s))
  }

  /** A ray whose plane hit lies on the line of an edge (through the edge or
    * a vertex, or past a corner along it) misses the triangle. */
  lemma EdgeMisses(m: MathLib, tri: Triangle, ray: Ray, s: real)
    requires Lawful(m) && !Collinear(tri.first, tri.second, tri.third)
    requires PlaneIntersections(SupportingPlane(m, tri).value, ray, Infinity).Some?
    requires var p := PlaneIntersections(SupportingPlane(m, tri).value, ray, Infinity).value[0];
      || OnEdgeLine(tri.first, tri.second, p, s)
      || OnEdgeLine(tri.second, tri.third, p, s)
      || OnEdgeLine(tri.third, tri.first, p, s)
    ensures TriangleIntersections(m, tri, ray) == Ok(None)
  {
    var p := PlaneIntersections(SupportingPlane(m, tri).value, ray, Infinity).value[0];
    var o := ray.origin;
    if OnEdgeLine(tri.first, tri.second, p, s) {
      EdgeLineSide(o, tri.first, tri.second, s);
    } else if OnEdgeLine(tri.second, tri.third, p, s) {
      EdgeLineSide(o, tri.second, tri.third, s);
    } else {
      EdgeLineSide(o, tri.third, tri.first, s);
    }
    TriangleMatchesReference(m, tri, ray);
  }

  /** A point on the line through a and b lies in the plane through o, a
    * and b. */
  lemma EdgeLineSide(o: Point3D, a: Point3D, b: Point3D, s: real)
    ensures Side(o, a, b, Shift(a, Times(Diff(b, a), s))) == 0.0
  {
    var A, B := Diff(a, o), Diff(b, o);
    var x := CrossHead(A, B);
    var D := Diff(b, a);
    assert D == Diff(B, A);
    assert Diff(Shift(a, Times(D, s)), o) == Shift(A, Times(D, s));
    DotDistributes(x, A, Times(D, s));
    DotScaled(D, s, x);
    DotDiff(B, A, x);
    CrossOrthogonal(A, B);
    DotSymmetric(x, A);
    DotSymmetric(x, B);
    DotSymmetric(x, Times(D, s));
    DotSymmetric(Shift(A, Times(D, s)), x);
  }
}
