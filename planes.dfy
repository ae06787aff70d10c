/**
 * src/geometries/Plane.java: a plane given by a point on it and a normal.
 */
module Planes {
  import opened Wrappers
  import opened Numerics
  import opened Points
  import opened Vectors
  import opened Rays

  datatype Plane = Plane(origin: Point3D, normal: Vector)

  /** Three points are collinear when the cross product of the two edges
    * leaving the first one is zero (coincident points included). */
  predicate Collinear(a: Point3D, b: Point3D, c: Point3D)
  {
    CrossHead(Diff(b, a), Diff(c, a)) == ZERO
  }

  /** p lies on the plane: its offset from the plane's point is orthogonal to
    * the normal. */
  predicate OnPlane(plane: Plane, p: Point3D)
  {
    Dot(plane.normal, Diff(p, plane.origin)) == 0.0
  }

  /** new Plane(first, second, third): the normal is the normalized cross
    * product of the two edges leaving the first point. It fails exactly when
    * the points are collinear, and otherwise all three points lie on the
    * plane. */
  function PlaneFromPoints(m: MathLib, first: Point3D, second: Point3D, third: Point3D): (r: Result<Plane>)
    requires Lawful(m)
    ensures r.Fail? <==> Collinear(first, second, third)
    ensures r.Ok? ==> r.value.origin == first && LengthSquared(r.value.normal) == 1.0
    ensures r.Ok? ==> OnPlane(r.value, first) && OnPlane(r.value, second) && OnPlane(r.value, third)
  {
    var v1 :- Subtract(second, first);
    var v2 :- Subtract(third, first);
    CrossZero(v1, v2);
    var c :- Cross(v1, v2);
    UnitOrthogonal(m, c, v1);
    UnitOrthogonal(m, c, v2);
    Ok(Plane(first, UnitOf(m, c)))
  }

  /** new Plane(origin, normal): the normal is stored as given, without
    * normalizing it; the origin lies on the plane. */
  function PlaneFromNormal(origin: Point3D, normal: Vector): (r: Plane)
    ensures r.normal == normal && OnPlane(r, origin)
  {
    Plane(origin, normal)
  }

  /** getNormal(point): the stored normal, whatever the point; it is
    * orthogonal to every segment lying in the plane. */
  function GetNormal(plane: Plane, point: Point3D): (r: Vector)
    ensures forall p, q :: OnPlane(plane, p) && OnPlane(plane, q) ==> Dot(r, Diff(p, q)) == 0.0
  {
    InPlaneOrthogonal(plane);
    plane.normal
  }

  lemma InPlaneOrthogonal(plane: Plane)
    ensures forall p, q :: OnPlane(plane, p) && OnPlane(plane, q) ==> Dot(plane.normal, Diff(p, q)) == 0.0
  {
    forall p, q | OnPlane(plane, p) && OnPlane(plane, q)
      ensures Dot(plane.normal, Diff(p, q)) == 0.0
    {
      DotDifference(plane.normal, p, q, plane.origin);
    }
  }

  /** The offset between two points splits through a third one. */
  lemma DotDifference(n: Point3D, p: Point3D, q: Point3D, o: Point3D)
    ensures Dot(n, Diff(p, q)) == Dot(n, Diff(p, o)) - Dot(n, Diff(q, o))
  {
    Distributes(n.x, p.x - o.x, o.x - q.x);
    Distributes(n.y, p.y - o.y, o.y - q.y);
    Distributes(n.z, p.z - o.z, o.z - q.z);
  }

  /** The parameter at which a ray not parallel to the plane meets it. */
  function HitParameter(plane: Plane, ray: Ray): real
    requires Dot(plane.normal, ray.direction) != 0.0
  {
    Dot(plane.normal, Diff(plane.origin, ray.origin)) / Dot(plane.normal, ray.direction)
  }

  /** findGeoIntersections(ray, maxDistance): the one point where the ray
    * meets the plane, kept only at a positive parameter within maxDistance.
    * A zero denominator gives an infinite or undefined parameter in the
    * Java code, and a ray starting at the plane's own point raises an
    * exception that is caught; both yield null. */
  function PlaneIntersections(plane: Plane, ray: Ray, maxDistance: Extended): (r: Option<seq<Point3D>>)
    ensures r.Some? ==> |r.value| == 1 && OnPlane(plane, r.value[0])
    ensures r.Some? ==>
      && Dot(plane.normal, ray.direction) != 0.0
      && 0.0 < HitParameter(plane, ray)
      && maxDistance.AtLeast(HitParameter(plane, ray))
      && r.value[0] == PointAt(ray, HitParameter(plane, ray))
  {
    match Subtract(plane.origin, ray.origin)
    case Fail(_) => None
    case Ok(u) =>
      var denom := Dot(plane.normal, ray.direction);
      if denom == 0.0 then None
      else
        var t := Dot(plane.normal, u) / denom;
        if 0.0 < t && maxDistance.AtLeast(t) then
          GetPointAt(ray, t);
          HitOnPlane(plane, ray);
          Some([GetPoint(ray, t).value])
        else None
  }

  /** The point at the hit parameter lies on the plane. */
  lemma HitOnPlane(plane: Plane, ray: Ray)
    requires Dot(plane.normal, ray.direction) != 0.0
    ensures OnPlane(plane, PointAt(ray, HitParameter(plane, ray)))
  {
    SolvedOnPlane(ray.origin, ray.direction, plane.origin, plane.normal);
  }

  /** The linear equation of the hit, on plain triples. */
  lemma SolvedOnPlane(o: Point3D, d: Point3D, q: Point3D, n: Point3D)
    requires Dot(n, d) != 0.0
    ensures Dot(n, Diff(Shift(o, Times(d, Dot(n, Diff(q, o)) / Dot(n, d))), q)) == 0.0
  {
    var num, denom := Dot(n, Diff(q, o)), Dot(n, d);
    var t := num / denom;
    var a := Dot(n, Diff(o, q));
    DotShift(o, d, t, n, q);
    assert a == -num by {
      DotDifference(n, o, q, q);
      DotSelfOffset(n, q);
    }
    CancelHit(a, num, denom);
  }

  lemma CancelHit(a: real, num: real, denom: real)
    requires denom != 0.0 && a == -num
    ensures a + num / denom * denom == 0.0
  {
    QuotientTimes(num, denom);
  }

  /** No other point of a non-parallel ray lies on the plane. */
  lemma HitUnique(plane: Plane, ray: Ray, t: real)
    requires Dot(plane.normal, ray.direction) != 0.0
    requires OnPlane(plane, PointAt(ray, t))
    ensures t == HitParameter(plane, ray)
  {
    SolvedUnique(ray.origin, ray.direction, plane.origin, plane.normal, t);
  }

  /** The linear equation of the hit has one solution, on plain triples. */
  lemma SolvedUnique(o: Point3D, d: Point3D, q: Point3D, n: Point3D, t: real)
    requires Dot(n, d) != 0.0
    requires Dot(n, Diff(Shift(o, Times(d, t)), q)) == 0.0
    ensures t == Dot(n, Diff(q, o)) / Dot(n, d)
  {
    var num, denom := Dot(n, Diff(q, o)), Dot(n, d);
    var a := Dot(n, Diff(o, q));
    DotShift(o, d, t, n, q);
    assert a == -num by {
      DotDifference(n, o, q, q);
      DotSelfOffset(n, q);
    }
    SolveLinear(a, num, denom, t);
  }

  lemma SolveLinear(a: real, num: real, denom: real, t: real)
    requires denom != 0.0 && a == -num && a + t * denom == 0.0
    ensures t == num / denom
  {
    QuotientOfProduct(t, denom);
  }

  /** Conversely, a point of a non-parallel ray that lies on the plane at a
    * positive parameter within the bound is reported, and it alone. */
  lemma PlaneIntersectionsComplete(plane: Plane, ray: Ray, maxDistance: Extended, t: real)
    requires Dot(plane.normal, ray.direction) != 0.0
    requires 0.0 < t && maxDistance.AtLeast(t) && OnPlane(plane, PointAt(ray, t))
    ensures PlaneIntersections(plane, ray, maxDistance) == Some([PointAt(ray, t)])
  {
    HitUnique(plane, ray, t);
    DotSelfOffset(plane.normal, ray.origin);
    GetPointAt(ray, t);
  }

  lemma DotSelfOffset(n: Point3D, p: Point3D)
    ensures Dot(n, Diff(p, p)) == 0.0
  {
  }

  /** A ray parallel to the plane never meets it. */
  lemma ParallelMisses(plane: Plane, ray: Ray, maxDistance: Extended)
    requires Dot(plane.normal, ray.direction) == 0.0
    ensures PlaneIntersections(plane, ray, maxDistance).None?
  {
  }

  /** A ray starting on the plane never meets it, whether it starts at the
    * plane's own point (the caught exception) or anywhere else on it. */
  lemma OriginOnPlaneMisses(plane: Plane, ray: Ray, maxDistance: Extended)
    requires OnPlane(plane, ray.origin)
    ensures PlaneIntersections(plane, ray, maxDistance).None?
  {
    if plane.origin != ray.origin && Dot(plane.normal, ray.direction) != 0.0 {
      DotDifference(plane.normal, plane.origin, ray.origin, plane.origin);
      DotSelfOffset(plane.normal, plane.origin);
      assert Dot(plane.normal, Diff(plane.origin, ray.origin)) == 0.0;
    }
  }
}
