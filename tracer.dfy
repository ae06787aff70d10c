/**
 * src/renderer/BasicRayTracer.java: the colour seen along a ray. The tracer
 * finds the closest hit, adds the geometry's emission, the direct light of
 * every unshadowed light source (diffuse and specular), and recursively the
 * colour seen along the reflected and the transmitted ray, down to a fixed
 * depth or until the accumulated coefficient becomes negligible; the scene's
 * ambient light is added once, to the colour of the first hit.
 *
 * The queries the tracer makes of the scene's geometries (intersections
 * along a ray, with or without a distance bound, the closest of a list, the
 * normal, emission and material of the geometry that was hit) are fields of
 * a Shading value: the shapes shown here do not all implement them, and
 * GeoPoint and findClosestGeoPoint are not part of this model.
 */
module Tracer {
  import opened Wrappers
  import opened Numerics
  import opened Points
  import opened Vectors
  import opened Rays
  import Colors
  import opened Lights

  /** How far a secondary ray's origin is moved off the surface. */
  const DELTA: real := 0.1
  /** The deepest level of recursion that still contributes. */
  const MAX_CALC_COLOR_LEVEL: int := 10
  /** The smallest accumulated coefficient that still contributes. */
  const MIN_CALC_COLOR_K: real := 0.001

  /** The emission and the material coefficients of a geometry, as the
    * tracer reads them. */
  datatype Surface = Surface(emission: Colors.Color, kD: real, kS: real, nShininess: int, kR: real, kT: real)

  /** A point of a geometry of type G. */
  datatype GeoPoint<G> = GeoPoint(geometry: G, point: Point3D)

  /** What the tracer reads from the scene below its top level: the light
    * sources and the geometry queries. It holds neither the background nor
    * the ambient light. */
  datatype Shading<!G> = Shading(
    lights: seq<LightSource>,
    surface: G -> Surface,
    normal: (G, Point3D) -> Result<Vector>,
    findAll: Ray -> Option<seq<GeoPoint<G>>>,
    findWithin: (Ray, Extended) -> Option<seq<GeoPoint<G>>>,
    closest: (Ray, Option<seq<GeoPoint<G>>>) -> Option<GeoPoint<G>>)

  /** The scene as the tracer sees it. */
  datatype World<!G> = World(background: Colors.Color, ambient: Colors.Color, shading: Shading<G>)

  // ---------------------------------------------------------------------
  // Moving a point off the surface

  /** p moved by DELTA times n, towards the side of the surface that d points
    * to (away from it when n and d are orthogonal or opposed). */
  function Nudge(p: Point3D, n: Vector, d: Point3D): Point3D
  {
    Shift(p, Times(n, if Dot(n, d) > 0.0 then DELTA else -DELTA))
  }

  /** The moved point lies strictly on d's side of the plane through p with
    * normal n when n and d point the same way, and strictly on the other
    * side otherwise. */
  lemma NudgeSide(p: Point3D, n: Vector, d: Point3D)
    ensures Dot(n, d) > 0.0 ==> Dot(n, Diff(Nudge(p, n, d), p)) > 0.0
    ensures Dot(n, d) <= 0.0 ==> Dot(n, Diff(Nudge(p, n, d), p)) < 0.0
  {
    var k := if Dot(n, d) > 0.0 then DELTA else -DELTA;
    assert Diff(Nudge(p, n, d), p) == Times(n, k);
    DotSymmetric(n, Times(n, k));
    DotScaled(n, k, n);
    assert Dot(n, n) == LengthSquared(n);
  }

  // ---------------------------------------------------------------------
  // Reflection

  /** v mirrored in the plane with normal n: v - 2 (v . n) n. */
  function Reflection(v: Point3D, n: Point3D): Point3D
  {
    Diff(v, Times(n, 2.0 * Dot(v, n)))
  }

  /** For a unit normal, reflection flips the normal component of v, keeps
    * its length, and mirroring twice gives v back. */
  lemma {:induction false} ReflectionLaws(v: Point3D, n: Point3D)
    requires Dot(n, n) == 1.0
    ensures Dot(Reflection(v, n), n) == -Dot(v, n)
    ensures Dot(Reflection(v, n), Reflection(v, n)) == Dot(v, v)
    ensures Reflection(Reflection(v, n), n) == v
  {
    var a := Dot(v, n);
    var t := Times(n, 2.0 * a);
    DotDiff(v, t, n);
    DotScaled(n, 2.0 * a, n);
    assert Dot(Reflection(v, n), n) == -a;
    ReflectedLength(v, n, a);
    assert Times(n, 2.0 * -a) == Times(t, -1.0);
  }

  lemma ReflectedLength(v: Point3D, n: Point3D, a: real)
    requires Dot(n, n) == 1.0 && a == Dot(v, n)
    ensures Dot(Reflection(v, n), Reflection(v, n)) == Dot(v, v)
  {
    var t := Times(n, 2.0 * a);
    DotDiff(v, t, Diff(v, t));
    DotSymmetric(v, Diff(v, t));
    DotSymmetric(t, Diff(v, t));
    DotDiff(v, t, v);
    DotDiff(v, t, t);
    DotScaled(n, 2.0 * a, v);
    DotScaled(n, 2.0 * a, t);
    DotSymmetric(n, t);
    DotScaled(n, 2.0 * a, n);
    DotSymmetric(n, v);
  }

  /** A non-zero vector mirrored in a plane with a unit normal is not zero. */
  lemma ReflectionNonZero(v: Vector, n: Point3D)
    ensures Dot(n, n) == 1.0 ==> Reflection(v, n) != ZERO
  {
    if Dot(n, n) == 1.0 {
      ReflectionLaws(v, n);
      assert Dot(v, v) == LengthSquared(v);
    }
  }

  /** The two steps that mirror v in the source: scaling n by 2 (v . n),
    * which fails only when v . n is zero, and subtracting the result from
    * v, which for a unit normal yields the reflection and cannot fail. */
  lemma MirrorSteps(v: Vector, n: Vector)
    ensures Scale(n, 2.0 * Dot(v, n)).Ok? <==> Dot(v, n) != 0.0
    ensures Dot(v, n) != 0.0 ==> Scale(n, 2.0 * Dot(v, n)).value == Times(n, 2.0 * Dot(v, n))
    ensures Dot(v, n) != 0.0 && LengthSquared(n) == 1.0 ==>
      VectorSubtract(v, Scale(n, 2.0 * Dot(v, n)).value).Ok? &&
      VectorSubtract(v, Scale(n, 2.0 * Dot(v, n)).value).value == Reflection(v, n)
  {
    if Dot(v, n) != 0.0 {
      var s := Scale(n, 2.0 * Dot(v, n)).value;
      assert s == Times(n, 2.0 * Dot(v, n));
      if LengthSquared(n) == 1.0 {
        ReflectionNonZero(v, n);
      }
    }
  }

  /** constructReflectedRay(point, ray, n): null when the ray grazes the
    * surface (v . n == 0); otherwise a ray from point along the mirrored
    * direction, normalized by the Ray constructor. Scaling n by 2 (v . n)
    * cannot fail there, and for a unit normal neither can the subtraction,
    * and the mirrored direction is already of length one. */
  function ConstructReflectedRay(m: MathLib, point: Point3D, ray: Ray, n: Vector): (r: Result<Option<Ray>>)
    requires Lawful(m)
    ensures r == Ok(None) <==> Dot(ray.direction, n) == 0.0
    ensures LengthSquared(n) == 1.0 ==> r.Ok?
    ensures LengthSquared(n) == 1.0 && r.Ok? && r.value.Some? ==>
      r.value.value.origin == point && r.value.value.direction == Reflection(ray.direction, n)
  {
    var v := ray.direction;
    var vn := Dot(v, n);
    if vn == 0.0 then Ok(None)
    else
      var s :- Scale(n, 2.0 * vn);
      var rv :- VectorSubtract(v, s);
      ReflectedUnit(m, v, n, s, rv);
      Ok(Some(NewRay(m, point, rv)))
  }

  lemma ReflectedUnit(m: MathLib, v: UnitVector, n: Vector, s: Vector, rv: Vector)
    requires Lawful(m)
    requires Dot(v, n) != 0.0 && Scale(n, 2.0 * Dot(v, n)) == Ok(s) && VectorSubtract(v, s) == Ok(rv)
    ensures rv == Reflection(v, n)
    ensures LengthSquared(n) == 1.0 ==> UnitOf(m, rv) == rv
  {
    assert s == Times(n, 2.0 * Dot(v, n));
    if LengthSquared(n) == 1.0 {
      ReflectionLaws(v, n);
      assert LengthSquared(rv) == LengthSquared(v);
      UnitOfUnit(m, rv);
    }
  }

  /** With a unit normal, a ray that does not graze the surface is
    * reflected: the new ray starts at the given point and its direction
    * makes the same angle with the surface, on the other side of it. */
  lemma ReflectedRayMirrors(m: MathLib, point: Point3D, ray: Ray, n: Vector)
    requires Lawful(m) && LengthSquared(n) == 1.0 && Dot(ray.direction, n) != 0.0
    ensures ConstructReflectedRay(m, point, ray, n).Ok?
    ensures ConstructReflectedRay(m, point, ray, n).value.Some?
    ensures Dot(ConstructReflectedRay(m, point, ray, n).value.value.direction, n) == -Dot(ray.direction, n)
  {
    ReflectionLaws(ray.direction, n);
  }

  // ---------------------------------------------------------------------
  // Diffuse and specular light

  function Abs(x: real): real
  {
    if x < 0.0 then -x else x
  }

  /** calcDiffusive: the light's intensity scaled by kD |l . n|. */
  function Diffusive(kd: real, l: Vector, n: Vector, li: Colors.Color): (r: Colors.Color)
    ensures 0.0 <= kd && 0.0 <= li.r && 0.0 <= li.g && 0.0 <= li.b ==> 0.0 <= r.r && 0.0 <= r.g && 0.0 <= r.b
    ensures kd == 0.0 ==> r == Colors.BLACK
  {
    var k := kd * Abs(Dot(l, n));
    assert 0.0 <= kd ==> 0.0 <= k;
    Colors.Scale(li, k)
  }

  /** For unit l and n and a non-negative kD, the diffuse term is
    * non-negative and never brighter than kD times the light's intensity. */
  lemma DiffusiveBounded(kd: real, l: UnitVector, n: UnitVector, li: Colors.Color)
    requires 0.0 <= kd && 0.0 <= li.r && 0.0 <= li.g && 0.0 <= li.b
    ensures Dimmer(Diffusive(kd, l, n, li), Colors.Scale(li, kd))
    ensures 0.0 <= Diffusive(kd, l, n, li).r && 0.0 <= Diffusive(kd, l, n, li).g && 0.0 <= Diffusive(kd, l, n, li).b
  {
    assert Dot(l, l) == LengthSquared(l) && Dot(n, n) == LengthSquared(n);
    UnitProjection(l, n);
    ScaledDimmer(li, kd, Abs(Dot(l, n)));
  }

  /** The projection of one unit vector on another is at most 1 in size. */
  lemma UnitProjection(l: Point3D, n: Point3D)
    requires Dot(l, l) == 1.0 && Dot(n, n) == 1.0
    ensures Abs(Dot(l, n)) <= 1.0
  {
    var f := Abs(Dot(l, n));
    CauchySchwarz(n, l);
    DotSymmetric(n, l);
    assert f * f == Dot(l, n) * Dot(l, n);
    AtMostOne(f);
  }

  /** Scaling a non-negative colour by kd f, for 0 <= f <= 1, gives a
    * non-negative colour no brighter than the colour scaled by kd. */
  lemma ScaledDimmer(li: Colors.Color, kd: real, f: real)
    requires 0.0 <= kd && 0.0 <= li.r && 0.0 <= li.g && 0.0 <= li.b && 0.0 <= f <= 1.0
    ensures Dimmer(Colors.Scale(li, kd * f), Colors.Scale(li, kd))
    ensures 0.0 <= Colors.Scale(li, kd * f).r && 0.0 <= Colors.Scale(li, kd * f).g && 0.0 <= Colors.Scale(li, kd * f).b
  {
    var base := Colors.Scale(li, kd);
    ProductNonNegative(li.r, kd);
    ProductNonNegative(li.g, kd);
    ProductNonNegative(li.b, kd);
    FactorDims(base, f);
    assert Colors.Scale(base, f) == Colors.Scale(li, kd * f);
    ProductNonNegative(base.r, f);
    ProductNonNegative(base.g, f);
    ProductNonNegative(base.b, f);
  }

  lemma ProductNonNegative(a: real, b: real)
    requires 0.0 <= a && 0.0 <= b
    ensures 0.0 <= a * b
  {
  }

  /** The specular factor kS (-(v . r))^nShininess for a mirrored light
    * direction r. */
  function Shine(m: MathLib, ks: real, v: Point3D, r: Point3D, nShininess: int): real
  {
    ks * Pow(m, -Dot(v, r), nShininess as real)
  }

  /** calcSpecular: the light direction mirrored in the surface,
    * r = l - 2 (l . n) n, then the intensity scaled by
    * kS (-(v . r))^nShininess. The scale by 2 (l . n) fails when l is
    * tangent to the surface; with a unit normal nothing else fails. */
  function Specular(m: MathLib, ks: real, l: Vector, n: Vector, v: Vector, nShininess: int, li: Colors.Color): (r: Result<Colors.Color>)
    ensures Dot(l, n) == 0.0 ==> r.Fail?
    ensures LengthSquared(n) == 1.0 && Dot(l, n) != 0.0 ==>
      r == Ok(Colors.Scale(li, Shine(m, ks, v, Reflection(l, n), nShininess)))
  {
    MirrorSteps(l, n);
    var s :- Scale(n, 2.0 * Dot(l, n));
    var rv :- VectorSubtract(l, s);
    Ok(Colors.Scale(li, Shine(m, ks, v, rv, nShininess)))
  }

  // ---------------------------------------------------------------------
  // Shadows

  /** A hit blocks the light at p when it is no farther from p than the
    * light is; everything blocks a light at infinite distance. */
  predicate Blocks<G>(m: MathLib, hit: GeoPoint<G>, p: Point3D, lightDistance: Extended)
    requires Lawful(m)
  {
    lightDistance.Infinity? || Distance(m, hit.point, p) - lightDistance.value <= 0.0
  }

  /** unshaded(l, n, gp, light): the shadow ray leaves the point, moved
    * DELTA off the surface towards the light, in the direction -l; the
    * point is lit when the query bounded by the light's distance finds
    * nothing, or when no hit it finds blocks the light at the point. */
  predicate IsUnshaded<G>(s: Shading<G>, m: MathLib, l: Vector, n: Vector, gp: GeoPoint<G>, light: LightSource)
    requires Lawful(m)
  {
    var lightDirection := Scale(l, -1.0).value;
    var point := Nudge(gp.point, n, lightDirection);
    var lightRay := NewRay(m, point, lightDirection);
    match s.findWithin(lightRay, GetDistance(m, light, point))
    case None => true
    case Some(hits) =>
      var lightDistance := GetDistance(m, light, gp.point);
      forall i :: 0 <= i < |hits| ==> !Blocks(m, hits[i], gp.point, lightDistance)
  }

  /** The same loop as the source: the shadow ray's hits are examined in
    * order and the first that blocks the light ends it. */
  method Unshaded<G>(s: Shading<G>, m: MathLib, l: Vector, n: Vector, gp: GeoPoint<G>, light: LightSource) returns (b: bool)
    requires Lawful(m)
    ensures b == IsUnshaded(s, m, l, n, gp, light)
  {
    var lightDirection := Scale(l, -1.0).value;
    var point := Nudge(gp.point, n, lightDirection);
    var lightRay := NewRay(m, point, lightDirection);
    var intersections := s.findWithin(lightRay, GetDistance(m, light, point));
    if intersections.None? {
      return true;
    }
    var hits := intersections.value;
    var lightDistance := GetDistance(m, light, gp.point);
    var i := 0;
    while i < |hits|
      invariant 0 <= i <= |hits|
      invariant forall j :: 0 <= j < i ==> !Blocks(m, hits[j], gp.point, lightDistance)
    {
      if lightDistance.Infinity? || Distance(m, hits[i].point, gp.point) - lightDistance.value <= 0.0 {
        assert Blocks(m, hits[i], gp.point, lightDistance);
        return false;
      }
      i := i + 1;
    }
    return true;
  }

  /** A directional light is shadowed by any hit at all along the shadow
    * ray. */
  lemma DirectionalShadowedByAnyHit<G>(s: Shading<G>, m: MathLib, l: Vector, n: Vector, gp: GeoPoint<G>, light: LightSource)
    requires Lawful(m) && light.DirectionalSource?
    ensures IsUnshaded(s, m, l, n, gp, light) <==>
      var d := Scale(l, -1.0).value;
      var point := Nudge(gp.point, n, d);
      var found := s.findWithin(NewRay(m, point, d), Infinity);
      found.None? || |found.value| == 0
  {
    var d := Scale(l, -1.0).value;
    var found := s.findWithin(NewRay(m, Nudge(gp.point, n, d), d), Infinity);
    if found.Some? && |found.value| != 0 {
      assert Blocks(m, found.value[0], gp.point, GetDistance(m, light, gp.point));
    }
  }

  /** For a point or spot light, a hit farther from the point than the light
    * itself does not shadow it. */
  lemma FartherHitDoesNotShadow<G>(m: MathLib, hit: GeoPoint<G>, p: Point3D, light: LightSource)
    requires Lawful(m) && !light.DirectionalSource?
    requires Distance(m, hit.point, p) > Distance(m, light.position, p)
    ensures !Blocks(m, hit, p, GetDistance(m, light, p))
  {
  }

  // ---------------------------------------------------------------------
  // Direct light

  /** One light's term and whether it lights the point: the light and the
    * viewer must be on the same side of the surface (n . l and n . v of the
    * same strict sign) and nothing may shadow the point. */
  predicate Lit<G>(s: Shading<G>, m: MathLib, l: Vector, n: Vector, nv: real, gp: GeoPoint<G>, light: LightSource)
    requires Lawful(m)
  {
    var nl := Dot(n, l);
    ((nl > 0.0 && nv > 0.0) || (nl < 0.0 && nv < 0.0)) && IsUnshaded(s, m, l, n, gp, light)
  }

  /** The colour one light adds at the point: diffuse plus specular when it
    * lights the point, black otherwise. getL is null at a point or spot
    * light's own position, and the dot product with it then fails. */
  function LightTerm<G>(s: Shading<G>, m: MathLib, gp: GeoPoint<G>, n: Vector, v: Vector, nv: real, surf: Surface, light: LightSource): (r: Result<Colors.Color>)
    requires Lawful(m)
    ensures GetL(m, light, gp.point).None? ==> r == Fail(NullPointer)
    ensures GetL(m, light, gp.point).Some? && !Lit(s, m, GetL(m, light, gp.point).value, n, nv, gp, light) ==> r == Ok(Colors.BLACK)
  {
    match GetL(m, light, gp.point)
    case None => Fail(NullPointer)
    case Some(l) =>
      if Lit(s, m, l, n, nv, gp, light) then
        var li :- Intensity(m, light, gp.point);
        var specular :- Specular(m, surf.kS, l, n, v, surf.nShininess, li);
        Ok(Colors.Add(Diffusive(surf.kD, l, n, li), specular))
      else Ok(Colors.BLACK)
  }

  /** A light that lights the point adds, for a unit normal, its diffuse
    * term and the specular term of its direction mirrored in the surface;
    * the term fails only when the light's intensity does. */
  lemma LitTerm<G>(s: Shading<G>, m: MathLib, gp: GeoPoint<G>, n: Vector, v: Vector, nv: real, surf: Surface, light: LightSource, l: Vector)
    requires Lawful(m) && LengthSquared(n) == 1.0
    requires GetL(m, light, gp.point) == Some(l) && Lit(s, m, l, n, nv, gp, light)
    ensures LightTerm(s, m, gp, n, v, nv, surf, light).Ok? <==> Intensity(m, light, gp.point).Ok?
    ensures Intensity(m, light, gp.point).Ok? ==>
      var li := Intensity(m, light, gp.point).value;
      LightTerm(s, m, gp, n, v, nv, surf, light) ==
        Ok(Colors.Add(Diffusive(surf.kD, l, n, li), Colors.Scale(li, Shine(m, surf.kS, v, Reflection(l, n), surf.nShininess))))
  {
    assert Dot(l, n) != 0.0 by {
      DotSymmetric(l, n);
    }
  }

  /** The loop over the scene's lights, front to back: the terms are added
    * in order and the first failure ends it. */
  function Accumulate<G>(s: Shading<G>, m: MathLib, gp: GeoPoint<G>, n: Vector, v: Vector, nv: real, surf: Surface, lights: seq<LightSource>): (r: Result<Colors.Color>)
    requires Lawful(m)
    ensures r.Ok? <==> forall i :: 0 <= i < |lights| ==> LightTerm(s, m, gp, n, v, nv, surf, lights[i]).Ok?
  {
    if |lights| == 0 then Ok(Colors.BLACK)
    else
      var acc :- Accumulate(s, m, gp, n, v, nv, surf, lights[..|lights| - 1]);
      var term :- LightTerm(s, m, gp, n, v, nv, surf, lights[|lights| - 1]);
      Ok(Colors.Add(acc, term))
  }

  /** The terms of the given lights, those that fail included. */
  function Terms<G>(s: Shading<G>, m: MathLib, gp: GeoPoint<G>, n: Vector, v: Vector, nv: real, surf: Surface, lights: seq<LightSource>): (r: seq<Result<Colors.Color>>)
    requires Lawful(m)
    ensures |r| == |lights|
    ensures forall i :: 0 <= i < |lights| ==> r[i] == LightTerm(s, m, gp, n, v, nv, surf, lights[i])
  {
    seq(|lights|, i requires 0 <= i < |lights| => LightTerm(s, m, gp, n, v, nv, surf, lights[i]))
  }

  /** The values of a list of successful results. */
  function Values(rs: seq<Result<Colors.Color>>): (r: seq<Colors.Color>)
    requires forall i :: 0 <= i < |rs| ==> rs[i].Ok?
    ensures |r| == |rs|
    ensures forall i :: 0 <= i < |rs| ==> r[i] == rs[i].value
  {
    seq(|rs|, i requires 0 <= i < |rs| => rs[i].value)
  }

  /** lights[i] is the first light whose term fails. */
  predicate FirstFailing<G>(s: Shading<G>, m: MathLib, gp: GeoPoint<G>, n: Vector, v: Vector, nv: real, surf: Surface, lights: seq<LightSource>, i: int)
    requires Lawful(m)
  {
    && 0 <= i < |lights|
    && LightTerm(s, m, gp, n, v, nv, surf, lights[i]).Fail?
    && forall j :: 0 <= j < i ==> LightTerm(s, m, gp, n, v, nv, surf, lights[j]).Ok?
  }

  /** When every light's term succeeds, the direct light is the sum of the
    * terms. */
  lemma {:induction false} AccumulateSum<G>(s: Shading<G>, m: MathLib, gp: GeoPoint<G>, n: Vector, v: Vector, nv: real, surf: Surface, lights: seq<LightSource>)
    requires Lawful(m)
    requires forall i :: 0 <= i < |lights| ==> LightTerm(s, m, gp, n, v, nv, surf, lights[i]).Ok?
    ensures Accumulate(s, m, gp, n, v, nv, surf, lights) == Ok(Colors.Sum(Values(Terms(s, m, gp, n, v, nv, surf, lights))))
  {
    if |lights| != 0 {
      var k := |lights| - 1;
      var front := lights[..k];
      AccumulateSum(s, m, gp, n, v, nv, surf, front);
      var ts := Terms(s, m, gp, n, v, nv, surf, lights);
      var fs := Terms(s, m, gp, n, v, nv, surf, front);
      assert Values(fs) == Values(ts)[..k];
    }
  }

  /** Otherwise the direct light is the failure of the first light whose
    * term fails. */
  lemma {:induction false} AccumulateFirstFailure<G>(s: Shading<G>, m: MathLib, gp: GeoPoint<G>, n: Vector, v: Vector, nv: real, surf: Surface, lights: seq<LightSource>, i: int)
    requires Lawful(m) && FirstFailing(s, m, gp, n, v, nv, surf, lights, i)
    ensures Accumulate(s, m, gp, n, v, nv, surf, lights) == LightTerm(s, m, gp, n, v, nv, surf, lights[i])
  {
    var k := |lights| - 1;
    var front := lights[..k];
    if i < k {
      assert FirstFailing(s, m, gp, n, v, nv, surf, front, i) by {
        assert front[i] == lights[i];
        assert forall j :: 0 <= j < i ==> front[j] == lights[j];
      }
      AccumulateFirstFailure(s, m, gp, n, v, nv, surf, front, i);
    } else {
      assert Accumulate(s, m, gp, n, v, nv, surf, front).Ok? by {
        assert forall j :: 0 <= j < |front| ==> LightTerm(s, m, gp, n, v, nv, surf, front[j]).Ok? by {
          assert forall j :: 0 <= j < |front| ==> front[j] == lights[j];
        }
        AccumulateSum(s, m, gp, n, v, nv, surf, front);
      }
    }
  }

  /** A failure in a prefix of the lights is the failure of the whole
    * loop. */
  lemma {:induction false} AccumulateFailKept<G>(s: Shading<G>, m: MathLib, gp: GeoPoint<G>, n: Vector, v: Vector, nv: real, surf: Surface, lights: seq<LightSource>, i: nat)
    requires Lawful(m) && i <= |lights|
    requires Accumulate(s, m, gp, n, v, nv, surf, lights[..i]).Fail?
    ensures Accumulate(s, m, gp, n, v, nv, surf, lights) == Accumulate(s, m, gp, n, v, nv, surf, lights[..i])
    decreases |lights| - i
  {
    if i < |lights| {
      var next := lights[..i + 1];
      assert next[..i] == lights[..i];
      AccumulateFailKept(s, m, gp, n, v, nv, surf, lights, i + 1);
    } else {
      assert lights[..i] == lights;
    }
  }

  /** calcLocalEffects: black when the ray grazes the surface (n . v == 0),
    * otherwise the lights' terms added in order. The view direction is the
    * ray's direction normalized, which for a unit direction is itself
    * (UnitOfUnit). */
  function LocalEffects<G>(s: Shading<G>, m: MathLib, gp: GeoPoint<G>, ray: Ray): (r: Result<Colors.Color>)
    requires Lawful(m)
    ensures s.normal(gp.geometry, gp.point).Fail? ==> r == Fail(s.normal(gp.geometry, gp.point).error)
    ensures s.normal(gp.geometry, gp.point).Ok? && Dot(s.normal(gp.geometry, gp.point).value, ray.direction) == 0.0 ==> r == Ok(Colors.BLACK)
    ensures |s.lights| == 0 && s.normal(gp.geometry, gp.point).Ok? ==> r == Ok(Colors.BLACK)
  {
    var v := ray.direction;
    var n :- s.normal(gp.geometry, gp.point);
    var nv := Dot(n, v);
    if nv == 0.0 then Ok(Colors.BLACK)
    else Accumulate(s, m, gp, n, v, nv, s.surface(gp.geometry), s.lights)
  }

  /** The body of calcLocalEffects' loop for one light: the shadow test
    * runs only when the signs agree, as with Java's short-circuit &&. */
  method AddLight<G>(s: Shading<G>, m: MathLib, gp: GeoPoint<G>, n: Vector, v: Vector, nv: real, surf: Surface, light: LightSource) returns (r: Result<Colors.Color>)
    requires Lawful(m)
    ensures r == LightTerm(s, m, gp, n, v, nv, surf, light)
  {
    var l := GetL(m, light, gp.point);
    if l.None? {
      return Fail(NullPointer);
    }
    var lit := false;
    var nl := Dot(n, l.value);
    if (nl > 0.0 && nv > 0.0) || (nl < 0.0 && nv < 0.0) {
      lit := Unshaded(s, m, l.value, n, gp, light);
    }
    if !lit {
      return Ok(Colors.BLACK);
    }
    var li := Intensity(m, light, gp.point);
    if li.Fail? {
      return Fail(li.error);
    }
    var specular := Specular(m, surf.kS, l.value, n, v, surf.nShininess, li.value);
    if specular.Fail? {
      return Fail(specular.error);
    }
    return Ok(Colors.Add(Diffusive(surf.kD, l.value, n, li.value), specular.value));
  }

  /** One more light: its failure is the loop's, otherwise its term is
    * added to the direct light. */
  lemma AccumulateStep<G>(s: Shading<G>, m: MathLib, gp: GeoPoint<G>, n: Vector, v: Vector, nv: real, surf: Surface,
                          lights: seq<LightSource>, i: int, acc: Colors.Color)
    requires Lawful(m) && 0 <= i < |lights|
    requires Accumulate(s, m, gp, n, v, nv, surf, lights[..i]) == Ok(acc)
    ensures var term := LightTerm(s, m, gp, n, v, nv, surf, lights[i]);
      Accumulate(s, m, gp, n, v, nv, surf, lights[..i + 1]) == if term.Fail? then Fail(term.error) else Ok(Colors.Add(acc, term.value))
  {
    assert lights[..i + 1][..i] == lights[..i];
  }

  /** The loop of calcLocalEffects, with the colour updated light by light;
    * it computes the direct light. */
  method CalcLocalEffects<G>(s: Shading<G>, m: MathLib, gp: GeoPoint<G>, ray: Ray) returns (r: Result<Colors.Color>)
    requires Lawful(m)
    ensures r == LocalEffects(s, m, gp, ray)
  {
    var v := ray.direction;
    var normal := s.normal(gp.geometry, gp.point);
    if normal.Fail? {
      return Fail(normal.error);
    }
    var n := normal.value;
    var nv := Dot(n, v);
    if nv == 0.0 {
      return Ok(Colors.BLACK);
    }
    var surf := s.surface(gp.geometry);
    var lights := s.lights;
    var color := Colors.BLACK;
    var i := 0;
    while i < |lights|
      invariant 0 <= i <= |lights|
      invariant Accumulate(s, m, gp, n, v, nv, surf, lights[..i]) == Ok(color)
    {
      var term := AddLight(s, m, gp, n, v, nv, surf, lights[i]);
      AccumulateStep(s, m, gp, n, v, nv, surf, lights, i, color);
      if term.Fail? {
        AccumulateFailKept(s, m, gp, n, v, nv, surf, lights, i + 1);
        return Fail(term.error);
      }
      color := Colors.Add(color, term.value);
      i := i + 1;
    }
    assert lights[..i] == lights;
    return Ok(color);
  }

  // ---------------------------------------------------------------------
  // The recursion

  /** calcColor(gp, ray, level, k): black beyond the deepest level or below
    * the smallest coefficient; otherwise the emission, the direct light and
    * the reflected and transmitted contributions. */
  function CalcColor<G>(s: Shading<G>, m: MathLib, gp: GeoPoint<G>, ray: Ray, level: int, k: real): (r: Result<Colors.Color>)
    requires Lawful(m)
    ensures level > MAX_CALC_COLOR_LEVEL || k < MIN_CALC_COLOR_K ==> r == Ok(Colors.BLACK)
    decreases MAX_CALC_COLOR_LEVEL + 1 - level, 1
  {
    if level > MAX_CALC_COLOR_LEVEL || k < MIN_CALC_COLOR_K then Ok(Colors.BLACK)
    else
      var local :- LocalEffects(s, m, gp, ray);
      var n :- s.normal(gp.geometry, gp.point);
      var reflected :- ReflectedPart(s, m, gp, ray, n, level, k);
      var refracted :- RefractedPart(s, m, gp, ray, n, level, k);
      Ok(Colors.Add(Colors.Add(Colors.Add(s.surface(gp.geometry).emission, local), reflected), refracted))
  }

  /** The reflection step of calcColor: when k kR is above the threshold,
    * the reflected ray leaves the point moved off the surface towards the
    * viewer, and the colour at its closest hit, one level deeper with
    * coefficient k kR, is scaled by kR. Nothing is added when the ray grazes
    * the surface or the reflected ray hits nothing. */
  function ReflectedPart<G>(s: Shading<G>, m: MathLib, gp: GeoPoint<G>, ray: Ray, n: Vector, level: int, k: real): (r: Result<Colors.Color>)
    requires Lawful(m) && level <= MAX_CALC_COLOR_LEVEL
    ensures k * s.surface(gp.geometry).kR <= MIN_CALC_COLOR_K ==> r == Ok(Colors.BLACK)
    decreases MAX_CALC_COLOR_LEVEL + 1 - level, 0
  {
    var kr := s.surface(gp.geometry).kR;
    var kkr := k * kr;
    if kkr <= MIN_CALC_COLOR_K then Ok(Colors.BLACK)
    else
      var point := Nudge(gp.point, n, Times(ray.direction, -1.0));
      var reflectedRay :- ConstructReflectedRay(m, point, ray, n);
      match reflectedRay
      case None => Ok(Colors.BLACK)
      case Some(rr) =>
        match s.closest(rr, s.findAll(rr))
        case None => Ok(Colors.BLACK)
        case Some(rp) =>
          var c :- CalcColor(s, m, rp, rr, level + 1, kkr);
          Ok(Colors.Scale(c, kr))
  }

  /** The transparency step of calcColor: when k kT is above the threshold,
    * a ray in the same direction leaves the point moved off the surface
    * away from the viewer, and the colour at its closest hit, one level
    * deeper with coefficient k kT, is scaled by kT. */
  function RefractedPart<G>(s: Shading<G>, m: MathLib, gp: GeoPoint<G>, ray: Ray, n: Vector, level: int, k: real): (r: Result<Colors.Color>)
    requires Lawful(m) && level <= MAX_CALC_COLOR_LEVEL
    ensures k * s.surface(gp.geometry).kT <= MIN_CALC_COLOR_K ==> r == Ok(Colors.BLACK)
    decreases MAX_CALC_COLOR_LEVEL + 1 - level, 0
  {
    var kt := s.surface(gp.geometry).kT;
    var kkt := k * kt;
    if kkt <= MIN_CALC_COLOR_K then Ok(Colors.BLACK)
    else
      var point := Nudge(gp.point, n, ray.direction);
      var refractedRay := RefractedRay(m, point, ray);
      match s.closest(refractedRay, s.findAll(refractedRay))
      case None => Ok(Colors.BLACK)
      case Some(tp) =>
        var c :- CalcColor(s, m, tp, refractedRay, level + 1, kkt);
        Ok(Colors.Scale(c, kt))
  }

  /** new Ray(point, ray.getDirection()): the transmitted ray goes on in
    * the viewing ray's direction, which the constructor's normalization
    * leaves unchanged. */
  function RefractedRay(m: MathLib, point: Point3D, ray: Ray): (r: Ray)
    requires Lawful(m)
    ensures r == Ray(point, ray.direction)
  {
    UnitOfUnit(m, ray.direction);
    NewRay(m, point, ray.direction)
  }

  /** At the deepest level the nested calcColor runs at level
    * MAX_CALC_COLOR_LEVEL + 1 and gives BLACK, so neither part adds
    * anything: the reflected part can only fail while constructing its ray,
    * and the transmitted part is BLACK. The depth bound comes from this
    * level + 1 hand-off. */
  lemma DeepestLevelParts<G>(s: Shading<G>, m: MathLib, gp: GeoPoint<G>, ray: Ray, n: Vector, k: real)
    requires Lawful(m)
    ensures RefractedPart(s, m, gp, ray, n, MAX_CALC_COLOR_LEVEL, k) == Ok(Colors.BLACK)
    ensures ReflectedPart(s, m, gp, ray, n, MAX_CALC_COLOR_LEVEL, k).Ok? ==>
      ReflectedPart(s, m, gp, ray, n, MAX_CALC_COLOR_LEVEL, k) == Ok(Colors.BLACK)
    ensures ReflectedPart(s, m, gp, ray, n, MAX_CALC_COLOR_LEVEL, k).Fail? ==>
      ConstructReflectedRay(m, Nudge(gp.point, n, Times(ray.direction, -1.0)), ray, n).Fail?
  {
  }

  /** So the colour at the deepest level is the emission plus the direct
    * light, with the failure of either part passed on. */
  lemma DeepestLevelColor<G>(s: Shading<G>, m: MathLib, gp: GeoPoint<G>, ray: Ray, k: real)
    requires Lawful(m) && MIN_CALC_COLOR_K <= k
    ensures CalcColor(s, m, gp, ray, MAX_CALC_COLOR_LEVEL, k).Ok? ==>
      LocalEffects(s, m, gp, ray).Ok? &&
      CalcColor(s, m, gp, ray, MAX_CALC_COLOR_LEVEL, k).value == Colors.Add(s.surface(gp.geometry).emission, LocalEffects(s, m, gp, ray).value)
  {
    var c := CalcColor(s, m, gp, ray, MAX_CALC_COLOR_LEVEL, k);
    if c.Ok? {
      var n := s.normal(gp.geometry, gp.point).value;
      DeepestLevelParts(s, m, gp, ray, n, k);
      Colors.AddLaws(Colors.Add(s.surface(gp.geometry).emission, LocalEffects(s, m, gp, ray).value), Colors.BLACK);
    }
  }

  /** A surface that neither reflects nor transmits gets its emission plus
    * the direct light, and fails exactly when the direct light does. */
  lemma MatteColor<G>(s: Shading<G>, m: MathLib, gp: GeoPoint<G>, ray: Ray, level: int, k: real)
    requires Lawful(m) && level <= MAX_CALC_COLOR_LEVEL && MIN_CALC_COLOR_K <= k
    requires s.surface(gp.geometry).kR == 0.0 && s.surface(gp.geometry).kT == 0.0
    ensures LocalEffects(s, m, gp, ray).Fail? ==> CalcColor(s, m, gp, ray, level, k) == Fail(LocalEffects(s, m, gp, ray).error)
    ensures LocalEffects(s, m, gp, ray).Ok? ==>
      CalcColor(s, m, gp, ray, level, k) == Ok(Colors.Add(s.surface(gp.geometry).emission, LocalEffects(s, m, gp, ray).value))
  {
    if LocalEffects(s, m, gp, ray).Ok? {
      Colors.AddLaws(Colors.Add(s.surface(gp.geometry).emission, LocalEffects(s, m, gp, ray).value), Colors.BLACK);
    }
  }

  // ---------------------------------------------------------------------
  // The top level

  /** calcColor(gp, ray): level 1 with coefficient 1, plus the scene's
    * ambient light. */
  function ViewColor<G>(w: World<G>, m: MathLib, gp: GeoPoint<G>, ray: Ray): (r: Result<Colors.Color>)
    requires Lawful(m)
    ensures r.Ok? <==> CalcColor(w.shading, m, gp, ray, 1, 1.0).Ok?
  {
    var c :- CalcColor(w.shading, m, gp, ray, 1, 1.0);
    Ok(Colors.Add(c, w.ambient))
  }

  /** traceRay(ray): the background when nothing is hit; otherwise the
    * colour at the closest hit. A list of hits without a closest one makes
    * calcColor dereference null. */
  function TraceRay<G>(w: World<G>, m: MathLib, ray: Ray): (r: Result<Colors.Color>)
    requires Lawful(m)
    ensures w.shading.findAll(ray).None? ==> r == Ok(w.background)
    ensures w.shading.findAll(ray).Some? && w.shading.closest(ray, w.shading.findAll(ray)).None? ==> r == Fail(NullPointer)
  {
    match w.shading.findAll(ray)
    case None => Ok(w.background)
    case Some(hits) =>
      match w.shading.closest(ray, Some(hits))
      case None => Fail(NullPointer)
      case Some(gp) => ViewColor(w, m, gp, ray)
  }

  /** The ambient light is added exactly once, and only where something is
    * hit: raising it by d raises every hit pixel by d and leaves the
    * background and every failure as they were. */
  lemma AmbientOnce<G>(w: World<G>, m: MathLib, ray: Ray, d: Colors.Color)
    requires Lawful(m)
    ensures var brighter := TraceRay(w.(ambient := Colors.Add(w.ambient, d)), m, ray);
      var hit := w.shading.findAll(ray).Some? && w.shading.closest(ray, w.shading.findAll(ray)).Some?;
      && (!hit ==> brighter == TraceRay(w, m, ray))
      && (hit && TraceRay(w, m, ray).Ok? ==> brighter == Ok(Colors.Add(TraceRay(w, m, ray).value, d)))
      && (hit && TraceRay(w, m, ray).Fail? ==> brighter == TraceRay(w, m, ray))
  {
  }
}
