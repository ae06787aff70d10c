/**
 * src/geometries/Sphere.java: a sphere given by its centre and radius.
 */
module Spheres {
  import opened Wrappers
  import opened Numerics
  import opened Points
  import opened Vectors
  import opened Rays

  datatype Sphere = Sphere(center: Point3D, radius: real)

  /** p lies on the sphere: its squared distance from the centre is the
    * squared radius. */
  predicate OnSphere(s: Sphere, p: Point3D)
  {
    DistanceSquared(p, s.center) == s.radius * s.radius
  }

  /** getNormal(point): the normalized offset of the point from the centre.
    * It fails at the centre itself; elsewhere it is the unit vector that,
    * stretched by the point's distance from the centre, leads back to it. */
  function SphereNormal(m: MathLib, s: Sphere, point: Point3D): (r: Result<Vector>)
    requires Lawful(m)
    ensures r.Fail? <==> point == s.center
    ensures r.Ok? ==> LengthSquared(r.value) == 1.0
    ensures r.Ok? ==> Times(r.value, Distance(m, point, s.center)) == Diff(point, s.center)
  {
    var v :- Subtract(point, s.center);
    OffsetLength(m, point, s.center);
    Ok(UnitOf(m, v))
  }

  /** On a sphere of positive radius the normal points outwards: the radius
    * times the normal leads from the centre to the point. */
  lemma NormalOutward(m: MathLib, s: Sphere, p: Point3D)
    requires Lawful(m) && 0.0 < s.radius && OnSphere(s, p)
    ensures SphereNormal(m, s, p).Ok?
    ensures Times(SphereNormal(m, s, p).value, s.radius) == Diff(p, s.center)
  {
    NotCenter(s, p);
    RadiusDistance(m, s, p);
    var n := SphereNormal(m, s, p);
    assert Times(n.value, Distance(m, p, s.center)) == Diff(p, s.center);
  }

  /** No point of a sphere of positive radius is its centre. */
  lemma NotCenter(s: Sphere, p: Point3D)
    requires 0.0 < s.radius && OnSphere(s, p)
    ensures p != s.center
  {
    if p == s.center {
      DistanceSquaredZero(p, s.center);
      SquareZero(s.radius);
    }
  }

  /** Every point of a sphere of non-negative radius is at distance radius
    * from the centre. */
  lemma RadiusDistance(m: MathLib, s: Sphere, p: Point3D)
    requires Lawful(m) && 0.0 <= s.radius && OnSphere(s, p)
    ensures Distance(m, p, s.center) == s.radius
  {
    SqrtOfSquare(m, s.radius);
  }

  /** A parameter at which a point is reported: in front of the ray's origin
    * and not beyond the bound. */
  predicate Reported(t: real, maxDistance: Extended)
  {
    0.0 < t && maxDistance.AtLeast(t)
  }

  /** The two candidate parameters, in order, each kept when reported. */
  function Kept(t1: real, t2: real, maxDistance: Extended): seq<real>
  {
    (if Reported(t1, maxDistance) then [t1] else []) + (if Reported(t2, maxDistance) then [t2] else [])
  }

  /** tM: the parameter of the point of the ray's line nearest the centre,
    * the projection on the direction of u, the offset of the centre from
    * the ray's origin. */
  function Nearest(s: Sphere, ray: Ray): real
  {
    Dot(ray.direction, Diff(s.center, ray.origin))
  }

  /** |u|^2 - tM^2: the squared distance of the ray's line from the centre. */
  function LineDistanceSquared(s: Sphere, ray: Ray): real
  {
    Gap(Dot(Diff(s.center, ray.origin), Diff(s.center, ray.origin)), Nearest(s, ray))
  }

  /** x less the square of b. */
  function Gap(x: real, b: real): real
  {
    x - b * b
  }

  /** d = Math.sqrt(|u|^2 - tM^2), the distance of the ray's line from the
    * centre. */
  function LineDistance(m: MathLib, s: Sphere, ray: Ray): real
  {
    Sqrt(m, LineDistanceSquared(s, ray))
  }

  /** tH = Math.sqrt(radius^2 - d^2), half the chord the line cuts. */
  function HalfChord(m: MathLib, s: Sphere, ray: Ray): real
  {
    Sqrt(m, Gap(s.radius * s.radius, LineDistance(m, s, ray)))
  }

  /** The parameters of the reported points of a ray that does not start at
    * the centre. A line farther from the centre than the radius gives
    * none; otherwise tM - tH and tM + tH are picked. */
  function Crossings(m: MathLib, s: Sphere, ray: Ray, maxDistance: Extended): seq<real>
  {
    if s.radius < LineDistance(m, s, ray) then []
    else Pick(Nearest(s, ray), HalfChord(m, s, ray), maxDistance)
  }

  /** tM - tH and tM + tH, each kept when reported; a zero half chord (a
    * tangent line) gives none. */
  function Pick(tM: real, tH: real, maxDistance: Extended): seq<real>
  {
    if tH == 0.0 then [] else Kept(tM - tH, tM + tH, maxDistance)
  }

  /** getPoint at each of the given parameters, written out without the
    * zero check: every parameter reported is positive, so none fails. */
  function PointsAt(ray: Ray, ts: seq<real>): (r: seq<Point3D>)
    ensures |r| == |ts| && forall i :: 0 <= i < |ts| ==> r[i] == PointAt(ray, ts[i])
  {
    seq(|ts|, i requires 0 <= i < |ts| => PointAt(ray, ts[i]))
  }

  /** findGeoIntersections(ray, maxDistance). A ray starting at the centre
    * raises an exception that is caught, and the point at distance radius is
    * returned without looking at the bound (it fails in turn when the radius
    * is zero). Otherwise the points at the reported crossings are returned,
    * or null when there are none. */
  function SphereIntersections(m: MathLib, s: Sphere, ray: Ray, maxDistance: Extended): (r: Result<Option<seq<Point3D>>>)
    requires Lawful(m)
    ensures r.Fail? <==> ray.origin == s.center && s.radius == 0.0
    ensures ray.origin == s.center && r.Ok? ==> r.value == Some([PointAt(ray, s.radius)])
    ensures r.Ok? && r.value.Some? ==> 1 <= |r.value.value| <= 2
  {
    match Subtract(s.center, ray.origin)
    case Fail(_) =>
      var p :- GetPoint(ray, s.radius);
      Ok(Some([p]))
    case Ok(_) =>
      var ts := Crossings(m, s, ray, maxDistance);
      if |ts| == 0 then Ok(None) else Ok(Some(PointsAt(ray, ts)))
  }

  /** Away from the centre, the points returned are those at the crossings. */
  lemma IntersectionsAtCrossings(m: MathLib, s: Sphere, ray: Ray, maxDistance: Extended)
    requires Lawful(m) && ray.origin != s.center
    ensures SphereIntersections(m, s, ray, maxDistance)
      == Ok(if |Crossings(m, s, ray, maxDistance)| == 0 then None else Some(PointsAt(ray, Crossings(m, s, ray, maxDistance))))
  {
  }

  lemma LineDistanceNonNegative(s: Sphere, ray: Ray)
    ensures 0.0 <= LineDistanceSquared(s, ray)
  {
    CauchySchwarz(ray.direction, Diff(s.center, ray.origin));
  }

  /** What Math.sqrt makes of d and tH: d is a distance whose square is
    * |u|^2 - tM^2 and, when d is within the radius, tH is a distance whose
    * square is radius^2 - d^2. */
  predicate ChordLaws(m: MathLib, s: Sphere, ray: Ray)
  {
    && 0.0 <= LineDistance(m, s, ray)
    && LineDistance(m, s, ray) * LineDistance(m, s, ray) == LineDistanceSquared(s, ray)
    && (LineDistance(m, s, ray) <= s.radius ==>
      && 0.0 <= HalfChord(m, s, ray)
      && HalfChord(m, s, ray) * HalfChord(m, s, ray) == s.radius * s.radius - LineDistance(m, s, ray) * LineDistance(m, s, ray))
  }

  /** A lawful square root gives d and tH their meaning; the argument of the
    * first Math.sqrt is never negative, and that of the second is not when
    * d is within the radius. */
  lemma ChordFacts(m: MathLib, s: Sphere, ray: Ray)
    requires Lawful(m)
    ensures ChordLaws(m, s, ray)
  {
    LineDistanceNonNegative(s, ray);
    SqrtLaw(m, LineDistanceSquared(s, ray));
    if LineDistance(m, s, ray) <= s.radius {
      SquareMonotoneWeak(LineDistance(m, s, ray), s.radius);
      SqrtLaw(m, Gap(s.radius * s.radius, LineDistance(m, s, ray)));
    }
  }

  /** How far along the ray the parameter t lies beyond the point nearest
    * the centre (negative before it). */
  function Along(s: Sphere, ray: Ray, t: real): real
  {
    t - Nearest(s, ray)
  }

  /** The squared distance from the centre of the point at parameter t is
    * (t - tM)^2 + d^2: the squared distance along the ray from the nearest
    * point plus the squared distance of the line from the centre. */
  lemma OnSphereAt(s: Sphere, ray: Ray, t: real)
    ensures DistanceSquared(PointAt(ray, t), s.center)
      == Along(s, ray, t) * Along(s, ray, t) + LineDistanceSquared(s, ray)
  {
    SphereEquation(ray.origin, ray.direction, s.center, t, Nearest(s, ray), Along(s, ray, t));
  }

  /** OnSphereAt on plain triples. */
  lemma SphereEquation(o: Point3D, dir: Point3D, c: Point3D, t: real, tM: real, e: real)
    requires Dot(dir, dir) == 1.0 && tM == Dot(dir, Diff(c, o)) && e == t - tM
    ensures DistanceSquared(Shift(o, Times(dir, t)), c) == e * e + Gap(Dot(Diff(c, o), Diff(c, o)), tM)
  {
    var u := Diff(c, o);
    var a := Times(dir, t);
    assert Diff(Shift(o, a), c) == Diff(a, u);
    DiffSquared(a, u);
    ScaledLengthSquared(dir, t);
    DotScaled(dir, t, u);
    ExpandSquare(t, tM, Dot(u, u));
  }

  lemma DiffSquared(a: Point3D, b: Point3D)
    ensures DistanceSquared(a, b) == Dot(a, a) - 2.0 * Dot(a, b) + Dot(b, b)
  {
  }

  lemma ExpandSquare(t: real, tM: real, uu: real)
    ensures t * t - 2.0 * (t * tM) + uu == (t - tM) * (t - tM) + Gap(uu, tM)
  {
  }

  /** The line's distance from the centre is the radius: it touches the
    * sphere in one point. */
  predicate Tangent(s: Sphere, ray: Ray)
  {
    LineDistanceSquared(s, ray) == s.radius * s.radius
  }

  lemma OffsetLengthSquared(s: Sphere, ray: Ray)
    ensures Dot(Diff(s.center, ray.origin), Diff(s.center, ray.origin)) == DistanceSquared(ray.origin, s.center)
  {
  }

  /** Each picked parameter is tM - tH or tM + tH and is reported, the
    * smaller one first. */
  lemma PickRoots(tM: real, tH: real, maxDistance: Extended)
    requires 0.0 <= tH
    ensures var ts := Pick(tM, tH, maxDistance);
      && (forall i :: 0 <= i < |ts| ==> Reported(ts[i], maxDistance) && (ts[i] - tM == tH || ts[i] - tM == -tH))
      && (|ts| == 2 ==> ts[0] < ts[1])
  {
  }

  /** Every reported one of tM - tH and tM + tH is picked when the half
    * chord is positive. */
  lemma PickComplete(tM: real, tH: real, maxDistance: Extended, t: real)
    requires 0.0 < tH && Reported(t, maxDistance) && (t - tM == tH || t - tM == -tH)
    ensures t in Pick(tM, tH, maxDistance)
  {
  }

  /** A picked parameter is reported and is tM - tH or tM + tH. */
  lemma PickMember(tM: real, tH: real, maxDistance: Extended, t: real)
    requires 0.0 <= tH && t in Pick(tM, tH, maxDistance)
    ensures Reported(t, maxDistance) && (t - tM == tH || t - tM == -tH)
  {
  }

  /** A crossing lies on the sphere, at a reported parameter. */
  lemma CrossingOnSphere(m: MathLib, s: Sphere, ray: Ray, maxDistance: Extended, t: real)
    requires Lawful(m) && t in Crossings(m, s, ray, maxDistance)
    ensures Reported(t, maxDistance) && OnSphere(s, PointAt(ray, t))
  {
    ChordFacts(m, s, ray);
    PickMember(Nearest(s, ray), HalfChord(m, s, ray), maxDistance, t);
    ChordEnd(m, s, ray, t);
  }

  /** The points at plus or minus the half chord from the nearest point lie
    * on the sphere. */
  lemma ChordEnd(m: MathLib, s: Sphere, ray: Ray, t: real)
    requires ChordLaws(m, s, ray) && LineDistance(m, s, ray) <= s.radius
    requires Along(s, ray, t) == HalfChord(m, s, ray) || Along(s, ray, t) == -HalfChord(m, s, ray)
    ensures OnSphere(s, PointAt(ray, t))
  {
    OnSphereAt(s, ray, t);
    SquareOfEither(Along(s, ray, t), HalfChord(m, s, ray));
  }

  /** Every point returned lies on the sphere, at a reported parameter, and
    * of two points the one at the smaller parameter comes first. */
  lemma CrossingsOnSphere(m: MathLib, s: Sphere, ray: Ray, maxDistance: Extended)
    requires Lawful(m)
    ensures var ts := Crossings(m, s, ray, maxDistance);
      && (forall i :: 0 <= i < |ts| ==> Reported(ts[i], maxDistance) && OnSphere(s, PointAt(ray, ts[i])))
      && (|ts| == 2 ==> ts[0] < ts[1])
  {
    var ts := Crossings(m, s, ray, maxDistance);
    forall i | 0 <= i < |ts|
      ensures Reported(ts[i], maxDistance) && OnSphere(s, PointAt(ray, ts[i]))
    {
      CrossingOnSphere(m, s, ray, maxDistance, ts[i]);
    }
    if |ts| == 2 {
      ChordFacts(m, s, ray);
      PickRoots(Nearest(s, ray), HalfChord(m, s, ray), maxDistance);
    }
  }

  /** Conversely, every point of a ray that lies on a sphere of non-negative
    * radius at a reported parameter is among the crossings, unless the
    * ray's line is tangent to the sphere. */
  lemma CrossingsComplete(m: MathLib, s: Sphere, ray: Ray, maxDistance: Extended, t: real)
    requires Lawful(m) && 0.0 <= s.radius
    requires Reported(t, maxDistance) && OnSphere(s, PointAt(ray, t))
    requires !Tangent(s, ray)
    ensures t in Crossings(m, s, ray, maxDistance)
  {
    ChordFacts(m, s, ray);
    CrossingFound(m, s, ray, maxDistance, t);
  }

  lemma CrossingFound(m: MathLib, s: Sphere, ray: Ray, maxDistance: Extended, t: real)
    requires ChordLaws(m, s, ray) && 0.0 <= s.radius
    requires Reported(t, maxDistance) && OnSphere(s, PointAt(ray, t))
    requires !Tangent(s, ray)
    ensures t in Crossings(m, s, ray, maxDistance)
  {
    OnSphereAt(s, ray, t);
    ChordRoot(DistanceSquared(PointAt(ray, t), s.center), Along(s, ray, t),
      LineDistanceSquared(s, ray), LineDistance(m, s, ray), HalfChord(m, s, ray), s.radius);
    PickComplete(Nearest(s, ray), HalfChord(m, s, ray), maxDistance, t);
  }

  /** The arithmetic of CrossingFound: a point on the sphere off a tangent
    * line is within the radius of the centre's projection, with a positive
    * half chord, at plus or minus the half chord from it. */
  lemma ChordRoot(ds: real, e: real, lds: real, ld: real, hc: real, r: real)
    requires 0.0 <= ld && 0.0 <= r && ld * ld == lds && lds != r * r
    requires ds == e * e + lds && ds == r * r
    requires ld <= r ==> 0.0 <= hc && hc * hc == r * r - ld * ld
    ensures ld <= r && 0.0 < hc && (e == hc || e == -hc)
  {
    NotBeyond(ld, r, e);
    SquaresEqual(e, hc);
  }

  lemma NotBeyond(d: real, r: real, e: real)
    requires 0.0 <= d && 0.0 <= r && e * e + d * d == r * r
    ensures d <= r
  {
    SquareNonNegative(e);
    if r < d {
      SquareMonotone(r, d);
    }
  }

  /** Two points come in order of distance from the ray's origin. */
  lemma NearerFirst(m: MathLib, s: Sphere, ray: Ray, maxDistance: Extended)
    requires Lawful(m)
    requires var r := SphereIntersections(m, s, ray, maxDistance); r.Ok? && r.value.Some? && |r.value.value| == 2
    ensures var ps := SphereIntersections(m, s, ray, maxDistance).value.value;
      DistanceSquared(ps[0], ray.origin) < DistanceSquared(ps[1], ray.origin)
  {
    IntersectionsAtCrossings(m, s, ray, maxDistance);
    CrossingsOnSphere(m, s, ray, maxDistance);
    var ts := Crossings(m, s, ray, maxDistance);
    NearerAlong(ray, ts[0], ts[1]);
  }

  /** Farther along a ray is farther from its origin. */
  lemma NearerAlong(ray: Ray, t0: real, t1: real)
    requires 0.0 < t0 < t1
    ensures DistanceSquared(PointAt(ray, t0), ray.origin) < DistanceSquared(PointAt(ray, t1), ray.origin)
  {
    GetPointAt(ray, t0);
    GetPointAt(ray, t1);
    SquareMonotone(t0, t1);
  }

  /** A ray starting strictly inside a sphere meets it exactly once when the
    * query is unbounded, whether or not it starts at the centre. */
  lemma InsideOneHit(m: MathLib, s: Sphere, ray: Ray)
    requires Lawful(m) && 0.0 < s.radius
    requires DistanceSquared(ray.origin, s.center) < s.radius * s.radius
    ensures var r := SphereIntersections(m, s, ray, Infinity);
      r.Ok? && r.value.Some? && |r.value.value| == 1
  {
    if ray.origin != s.center {
      IntersectionsAtCrossings(m, s, ray, Infinity);
      ChordFacts(m, s, ray);
      InsideCrossing(m, s, ray);
    }
  }

  lemma InsideCrossing(m: MathLib, s: Sphere, ray: Ray)
    requires ChordLaws(m, s, ray) && 0.0 < s.radius
    requires DistanceSquared(ray.origin, s.center) < s.radius * s.radius
    ensures Crossings(m, s, ray, Infinity) == [Nearest(s, ray) + HalfChord(m, s, ray)]
  {
    OffsetLengthSquared(s, ray);
    SquareNonNegative(Nearest(s, ray));
    SmallerRoot(LineDistance(m, s, ray), s.radius);
    PickInside(Nearest(s, ray), HalfChord(m, s, ray));
  }

  lemma SmallerRoot(d: real, r: real)
    requires 0.0 <= d && 0.0 <= r && d * d < r * r
    ensures d < r
  {
    if r <= d {
      SquareMonotoneWeak(r, d);
    }
  }

  /** A half chord longer than |tM| leaves exactly one positive parameter. */
  lemma PickInside(tM: real, tH: real)
    requires 0.0 <= tH && tM * tM < tH * tH
    ensures Pick(tM, tH, Infinity) == [tM + tH]
  {
    if tH <= tM {
      SquareMonotoneWeak(tH, tM);
    }
    if tH <= -tM {
      SquareMonotoneWeak(tH, -tM);
    }
  }

  /** A ray starting on or outside the sphere and not heading towards the
    * centre misses it. */
  lemma AwayMisses(m: MathLib, s: Sphere, ray: Ray, maxDistance: Extended)
    requires Lawful(m) && ray.origin != s.center
    requires s.radius * s.radius <= DistanceSquared(ray.origin, s.center)
    requires Nearest(s, ray) <= 0.0
    ensures SphereIntersections(m, s, ray, maxDistance) == Ok(None)
  {
    IntersectionsAtCrossings(m, s, ray, maxDistance);
    ChordFacts(m, s, ray);
    AwayNoCrossing(m, s, ray, maxDistance);
  }

  lemma AwayNoCrossing(m: MathLib, s: Sphere, ray: Ray, maxDistance: Extended)
    requires ChordLaws(m, s, ray)
    requires s.radius * s.radius <= DistanceSquared(ray.origin, s.center)
    requires Nearest(s, ray) <= 0.0
    ensures Crossings(m, s, ray, maxDistance) == []
  {
    if LineDistance(m, s, ray) <= s.radius {
      OffsetLengthSquared(s, ray);
      PickAway(Nearest(s, ray), HalfChord(m, s, ray), maxDistance);
    }
  }

  /** A half chord no longer than -tM leaves no positive parameter. */
  lemma PickAway(tM: real, tH: real, maxDistance: Extended)
    requires 0.0 <= tH && tH * tH <= tM * tM && tM <= 0.0
    ensures Pick(tM, tH, maxDistance) == []
  {
    if -tM < tH {
      SquareMonotone(-tM, tH);
    }
  }

  /** A tangent ray misses: the single touching point is not reported. */
  lemma TangentMisses(m: MathLib, s: Sphere, ray: Ray, maxDistance: Extended)
    requires Lawful(m) && ray.origin != s.center && Tangent(s, ray)
    ensures SphereIntersections(m, s, ray, maxDistance) == Ok(None)
  {
    IntersectionsAtCrossings(m, s, ray, maxDistance);
    ChordFacts(m, s, ray);
    TangentNoCrossing(m, s, ray, maxDistance);
  }

  lemma TangentNoCrossing(m: MathLib, s: Sphere, ray: Ray, maxDistance: Extended)
    requires ChordLaws(m, s, ray) && Tangent(s, ray)
    ensures Crossings(m, s, ray, maxDistance) == []
  {
    if LineDistance(m, s, ray) <= s.radius {
      SquareZero(HalfChord(m, s, ray));
    }
  }
}
