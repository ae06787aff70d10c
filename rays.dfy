/**
 * src/primitives/Ray.java: a ray is an origin and a unit direction.
 */
module Rays {
  import opened Wrappers
  import opened Numerics
  import opened Points
  import opened Vectors

  datatype Ray = Ray(origin: Point3D, direction: UnitVector)

  /** new Ray(origin, direction): the stored direction is a normalized copy of
    * the argument, i.e. the argument rescaled to length one. */
  function NewRay(m: MathLib, origin: Point3D, direction: Vector): (r: Ray)
    requires Lawful(m)
    ensures r.origin == origin
    ensures Times(r.direction, Length(m, direction)) == direction
  {
    Ray(origin, UnitOf(m, direction))
  }

  /** getPoint(t): the point at parameter t along the ray. It fails for t == 0
    * because scale(0) is rejected. */
  function GetPoint(ray: Ray, t: real): (r: Result<Point3D>)
    ensures r.Fail? <==> t == 0.0
    ensures r.Ok? ==> Subtract(r.value, ray.origin) == Scale(ray.direction, t)
    ensures r.Ok? ==> DistanceSquared(r.value, ray.origin) == t * t
  {
    var v :- Scale(ray.direction, t);
    AddThenSubtract(ray.origin, v);
    DistanceAlong(ray, t);
    Ok(Add(ray.origin, v))
  }

  /** Moving t along a unit direction covers a squared distance of t * t. */
  lemma DistanceAlong(ray: Ray, t: real)
    requires t != 0.0
    ensures Scale(ray.direction, t).Ok?
    ensures DistanceSquared(Add(ray.origin, Scale(ray.direction, t).value), ray.origin) == t * t
  {
    var d := ray.direction;
    var v := Scale(d, t).value;
    ScaleNonZero(d, t);
    calc {
      DistanceSquared(Add(ray.origin, v), ray.origin);
    ==
      Dot(Times(d, t), Times(d, t));
    == { ScaledLengthSquared(d, t); }
      Dot(d, d) * (t * t);
    ==
      t * t;
    }
  }

  /** The point at any parameter t, written out without the zero check. */
  function PointAt(ray: Ray, t: real): Point3D
  {
    Shift(ray.origin, Times(ray.direction, t))
  }

  /** For t != 0, getPoint(t) is PointAt(t). */
  lemma GetPointAt(ray: Ray, t: real)
    requires t != 0.0
    ensures GetPoint(ray, t) == Ok(PointAt(ray, t))
  {
  }

  /** Along the ray, the dot product of any fixed vector n with the offset from
    * a fixed point q changes linearly in the parameter. */
  lemma DotAlong(ray: Ray, t: real, n: Point3D, q: Point3D)
    ensures Dot(n, Diff(PointAt(ray, t), q)) == Dot(n, Diff(ray.origin, q)) + t * Dot(n, ray.direction)
  {
    DotShift(ray.origin, ray.direction, t, n, q);
  }

  lemma DotShift(o: Point3D, d: Point3D, t: real, n: Point3D, q: Point3D)
    ensures Dot(n, Diff(Shift(o, Times(d, t)), q)) == Dot(n, Diff(o, q)) + t * Dot(n, d)
  {
    var a, b := Diff(o, q), Times(d, t);
    assert Diff(Shift(o, b), q) == Shift(a, b);
    DotDistributes(n, a, b);
    DotScaled(d, t, n);
    DotSymmetric(b, n);
    DotSymmetric(d, n);
  }

  /** Ray.equals compares origin and direction. */
  function Equals(a: Ray, b: Ray): (r: bool)
    ensures r <==> a == b
  {
    a.origin == b.origin && a.direction == b.direction
  }

  /** points[i] is the first point of the list that is nearest to the ray's
    * origin, and it is nearer than Double.MAX_VALUE. */
  ghost predicate FirstNearest(m: MathLib, ray: Ray, points: seq<Point3D>, i: int)
    requires Lawful(m)
  {
    && 0 <= i < |points|
    && Distance(m, points[i], ray.origin) < DOUBLE_MAX
    && (forall j :: 0 <= j < |points| ==> Distance(m, points[i], ray.origin) <= Distance(m, points[j], ray.origin))
    && (forall j :: 0 <= j < i ==> Distance(m, points[i], ray.origin) < Distance(m, points[j], ray.origin))
  }

  /** findClosestPoint: null for a null list; otherwise the first point at the
    * least distance from the origin (ties go to the earliest point, because
    * the comparison is strict). The running minimum starts at
    * Double.MAX_VALUE, so null also comes back when no point is nearer than
    * that, in particular for an empty list. */
  method FindClosestPoint(m: MathLib, ray: Ray, points: Option<seq<Point3D>>) returns (result: Option<Point3D>)
    requires Lawful(m)
    ensures points.None? ==> result.None?
    ensures points.Some? && result.None? ==>
      forall j :: 0 <= j < |points.value| ==> Distance(m, points.value[j], ray.origin) >= DOUBLE_MAX
    ensures result.Some? ==>
      points.Some? && exists i :: FirstNearest(m, ray, points.value, i) && points.value[i] == result.value
  {
    result := None;
    var closestDistance := DOUBLE_MAX;
    if points.None? {
      return;
    }
    var ps := points.value;
    ghost var k := 0;
    for i := 0 to |ps|
      invariant result.None? ==> closestDistance == DOUBLE_MAX
      invariant result.None? ==> forall j :: 0 <= j < i ==> Distance(m, ps[j], ray.origin) >= DOUBLE_MAX
      invariant result.Some? ==> 0 <= k < i && ps[k] == result.value
      invariant result.Some? ==> closestDistance == Distance(m, ps[k], ray.origin) < DOUBLE_MAX
      invariant result.Some? ==> forall j :: 0 <= j < i ==> closestDistance <= Distance(m, ps[j], ray.origin)
      invariant result.Some? ==> forall j :: 0 <= j < k ==> closestDistance < Distance(m, ps[j], ray.origin)
    {
      var temp := Distance(m, ps[i], ray.origin);
      if temp < closestDistance {
        closestDistance := temp;
        result := Some(ps[i]);
        k := i;
      }
    }
    if result.Some? {
      assert FirstNearest(m, ray, ps, k);
    }
  }
}
