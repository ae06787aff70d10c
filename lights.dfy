/**
 * src/elements/PointLight.java, src/elements/SpotLight.java and
 * src/elements/DirectionalLight.java: the light sources. A light is queried
 * at a point for its intensity there, the unit vector from the light to the
 * point (getL) and its distance (getDistance). The queries are functions of
 * a light's value; the point light's attenuation setters change an object,
 * modelled by the class PointLight at the end.
 */
module Lights {
  import opened Wrappers
  import opened Numerics
  import opened Points
  import opened Vectors
  import opened Colors

  /** The attenuation coefficients kC, kL, kQ. */
  datatype Attenuation = Attenuation(kC: real, kL: real, kQ: real)

  /** The short constructors' coefficients: no attenuation with distance. */
  const DEFAULT_ATTENUATION: Attenuation := Attenuation(1.0, 0.0, 0.0)

  /** A spot light is a point light aimed along a unit direction. */
  datatype LightSource =
    | PointSource(intensity: Color, position: Point3D, att: Attenuation)
    | SpotSource(intensity: Color, position: Point3D, att: Attenuation, direction: UnitVector, concentration: real)
    | DirectionalSource(intensity: Color, direction: UnitVector)

  /** kC + kL * d + kQ * d * d. */
  function Denominator(att: Attenuation, d: real): real
  {
    att.kC + att.kL * d + att.kQ * d * d
  }

  /** PointLight.getIntensity(p): the base intensity reduced by the
    * attenuation at the distance from the light to p. The reduction fails
    * when that denominator is zero; otherwise scaling the result back by it
    * gives the base intensity. */
  function PointIntensity(m: MathLib, intensity: Color, position: Point3D, att: Attenuation, p: Point3D): (r: Result<Color>)
    requires Lawful(m)
    ensures r.Fail? <==> Denominator(att, Distance(m, position, p)) == 0.0
    ensures r.Ok? ==> Colors.Scale(r.value, Denominator(att, Distance(m, position, p))) == intensity
  {
    var d := Distance(m, position, p);
    Reduce(intensity, Denominator(att, d))
  }

  /** With the default coefficients a point light is equally bright at every
    * distance. */
  lemma DefaultUnattenuated(m: MathLib, intensity: Color, position: Point3D, p: Point3D)
    requires Lawful(m)
    ensures PointIntensity(m, intensity, position, DEFAULT_ATTENUATION, p) == Ok(intensity)
  {
    var d := Distance(m, position, p);
    assert Denominator(DEFAULT_ATTENUATION, d) == 1.0;
  }

  /** With non-negative kL and kQ the denominator never decreases as the
    * distance grows. */
  lemma DenominatorMonotone(att: Attenuation, d1: real, d2: real)
    requires 0.0 <= att.kL && 0.0 <= att.kQ && 0.0 <= d1 <= d2
    ensures Denominator(att, d1) <= Denominator(att, d2)
  {
    MonotoneProduct(att.kL, d1, d2);
    SquareMonotoneWeak(d1, d2);
    MonotoneProduct(att.kQ, d1 * d1, d2 * d2);
    assert att.kQ * d1 * d1 == att.kQ * (d1 * d1);
    assert att.kQ * d2 * d2 == att.kQ * (d2 * d2);
  }

  lemma MonotoneProduct(k: real, a: real, b: real)
    requires 0.0 <= k && a <= b
    ensures k * a <= k * b
  {
    assert k * b - k * a == k * (b - a);
  }

  /** A point light with a positive constant coefficient, non-negative
    * linear and quadratic coefficients and a non-negative base intensity is
    * no brighter, channel by channel, at a farther point. */
  lemma FartherDimmer(m: MathLib, intensity: Color, position: Point3D, att: Attenuation, p: Point3D, q: Point3D)
    requires Lawful(m)
    requires 0.0 < att.kC && 0.0 <= att.kL && 0.0 <= att.kQ
    requires 0.0 <= intensity.r && 0.0 <= intensity.g && 0.0 <= intensity.b
    requires Distance(m, position, p) <= Distance(m, position, q)
    ensures PointIntensity(m, intensity, position, att, p).Ok?
    ensures PointIntensity(m, intensity, position, att, q).Ok?
    ensures Dimmer(PointIntensity(m, intensity, position, att, q).value, PointIntensity(m, intensity, position, att, p).value)
  {
    var dp, dq := Distance(m, position, p), Distance(m, position, q);
    DenominatorPositive(att, dp);
    DenominatorMonotone(att, dp, dq);
    var np, nq := Denominator(att, dp), Denominator(att, dq);
    QuotientAntitone(intensity.r, np, nq);
    QuotientAntitone(intensity.g, np, nq);
    QuotientAntitone(intensity.b, np, nq);
  }

  /** Every channel of c is at most the same channel of d. */
  predicate Dimmer(c: Color, d: Color)
  {
    c.r <= d.r && c.g <= d.g && c.b <= d.b
  }

  lemma DenominatorPositive(att: Attenuation, d: real)
    requires 0.0 < att.kC && 0.0 <= att.kL && 0.0 <= att.kQ && 0.0 <= d
    ensures 0.0 < Denominator(att, d)
  {
    DenominatorMonotone(att, 0.0, d);
  }

  lemma QuotientAntitone(a: real, x: real, y: real)
    requires 0.0 <= a && 0.0 < x <= y
    ensures a / y <= a / x
  {
    assert a / x - a / y == a * (y - x) / (x * y);
    ProductPositive(x, y);
  }

  /** getL(p) of a point or spot light: null at the light's own position,
    * otherwise the unit vector from the light towards p. A directional light
    * has the same direction at every point. */
  function GetL(m: MathLib, light: LightSource, p: Point3D): (r: Option<Vector>)
    requires Lawful(m)
    ensures light.DirectionalSource? ==> r == Some(light.direction)
    ensures !light.DirectionalSource? ==> (r.None? <==> p == light.position)
    ensures r.Some? ==> LengthSquared(r.value) == 1.0
    ensures !light.DirectionalSource? && r.Some? ==> Times(r.value, Distance(m, p, light.position)) == Diff(p, light.position)
  {
    if light.DirectionalSource? then Some(light.direction)
    else if Equals(p, light.position) then None
    else
      var toPoint := Subtract(p, light.position).value;
      OffsetLength(m, p, light.position);
      Some(UnitOf(m, toPoint))
  }

  /** getDistance(p): the distance from a point or spot light, which is zero
    * only at the light itself; infinite for a directional light. */
  function GetDistance(m: MathLib, light: LightSource, p: Point3D): (r: Extended)
    requires Lawful(m)
    ensures r.Infinity? <==> light.DirectionalSource?
    ensures r.Finite? ==> 0.0 <= r.value && (r.value == 0.0 <==> p == light.position)
  {
    if light.DirectionalSource? then Infinity
    else
      DistanceZero(m, light.position, p);
      Finite(Distance(m, light.position, p))
  }

  lemma DistanceZero(m: MathLib, a: Point3D, b: Point3D)
    requires Lawful(m)
    ensures Distance(m, a, b) == 0.0 <==> a == b
  {
    DistanceSquaredZero(a, b);
    if Distance(m, a, b) == 0.0 {
      assert DistanceSquared(a, b) == 0.0;
    }
    if a == b {
      SqrtZeroOne(m);
    }
  }

  /** The spot factor: the projection clamped below at zero, raised to the
    * concentration unless the concentration is 1. */
  function SpotFactor(m: MathLib, projection: real, concentration: real): (r: real)
    ensures Lawful(m) ==> 0.0 <= r
    ensures concentration == 1.0 && 0.0 <= projection ==> r == projection
  {
    var factor := if projection < 0.0 then 0.0 else projection;
    if concentration != 1.0 then Pow(m, factor, concentration) else factor
  }

  /** getIntensity(p). A point light attenuates its intensity. A spot light
    * projects its direction on getL(p), which is null at its own position,
    * so the query fails there; a zero projection gives black; otherwise the
    * point light's intensity is scaled by the spot factor. A directional
    * light has its base intensity everywhere. */
  function Intensity(m: MathLib, light: LightSource, p: Point3D): (r: Result<Color>)
    requires Lawful(m)
    ensures light.PointSource? ==> r == PointIntensity(m, light.intensity, light.position, light.att, p)
    ensures light.DirectionalSource? ==> r == Ok(light.intensity)
    ensures light.SpotSource? ==> (r == Fail(NullPointer) <==> p == light.position)
    ensures light.SpotSource? && p != light.position && Dot(light.direction, Diff(p, light.position)) == 0.0 ==> r == Ok(BLACK)
    ensures light.SpotSource? && p != light.position && Dot(light.direction, Diff(p, light.position)) != 0.0 ==>
      r == SpotScaled(m, light, p, Dot(light.direction, GetL(m, light, p).value))
  {
    match light
    case PointSource(intensity, position, att) => PointIntensity(m, intensity, position, att, p)
    case DirectionalSource(intensity, _) => Ok(intensity)
    case SpotSource(intensity, position, att, direction, concentration) =>
      match GetL(m, light, p)
      case None => Fail(NullPointer)
      case Some(l) =>
        SpotProjection(m, light, p);
        var projection := Dot(direction, l);
        if projection == 0.0 then Ok(BLACK)
        else SpotScaled(m, light, p, projection)
  }

  /** The point light's intensity scaled by the spot factor. */
  function SpotScaled(m: MathLib, light: LightSource, p: Point3D, projection: real): (r: Result<Color>)
    requires Lawful(m) && light.SpotSource?
    ensures r.Fail? ==> r.error == Arithmetic
  {
    var pointIntensity :- PointIntensity(m, light.intensity, light.position, light.att, p);
    Ok(Colors.Scale(pointIntensity, SpotFactor(m, projection, light.concentration)))
  }

  /** The projection on getL(p) has the sign of the projection on the offset
    * from the light to p: getL(p) is that offset over a positive length. */
  lemma SpotProjection(m: MathLib, light: LightSource, p: Point3D)
    requires Lawful(m) && light.SpotSource? && p != light.position
    ensures Dot(light.direction, GetL(m, light, p).value) == 0.0 <==> Dot(light.direction, Diff(p, light.position)) == 0.0
    ensures Dot(light.direction, GetL(m, light, p).value) < 0.0 <==> Dot(light.direction, Diff(p, light.position)) < 0.0
  {
    var l := GetL(m, light, p).value;
    var len := Distance(m, p, light.position);
    DistanceZero(m, p, light.position);
    DotScaled(l, len, light.direction);
    DotSymmetric(l, light.direction);
    DotSymmetric(Diff(p, light.position), light.direction);
    PositiveFactorSign(Dot(light.direction, l), len);
  }

  lemma PositiveFactorSign(x: real, k: real)
    requires 0.0 < k
    ensures x == 0.0 <==> k * x == 0.0
    ensures x < 0.0 <==> k * x < 0.0
  {
    if k * x == 0.0 {
      ProductZero(k, x);
    }
    if x < 0.0 {
      assert k * (-x) > 0.0 by { ProductPositive(k, -x); }
    }
    if 0.0 < x {
      ProductPositive(k, x);
    }
  }

  /** A spot light with concentration 1 is black at every point behind it,
    * wherever its attenuation can be applied. */
  lemma SpotBehindBlack(m: MathLib, light: LightSource, p: Point3D)
    requires Lawful(m) && light.SpotSource? && light.concentration == 1.0
    requires p != light.position && Dot(light.direction, Diff(p, light.position)) < 0.0
    requires Denominator(light.att, Distance(m, light.position, p)) != 0.0
    ensures Intensity(m, light, p) == Ok(BLACK)
  {
    SpotProjection(m, light, p);
  }

  /** With concentration 1 and a positive attenuation, a spot light is never
    * brighter than the point light at the same place: its factor is the
    * projection of one unit vector on another, at most 1. */
  lemma SpotNoBrighter(m: MathLib, light: LightSource, p: Point3D)
    requires Lawful(m) && light.SpotSource? && light.concentration == 1.0
    requires 0.0 <= light.intensity.r && 0.0 <= light.intensity.g && 0.0 <= light.intensity.b
    requires 0.0 < Denominator(light.att, Distance(m, light.position, p))
    ensures PointIntensity(m, light.intensity, light.position, light.att, p).Ok?
    ensures Intensity(m, light, p).Ok? ==>
      Dimmer(Intensity(m, light, p).value, PointIntensity(m, light.intensity, light.position, light.att, p).value)
  {
    if p != light.position {
      var l := GetL(m, light, p).value;
      var projection := Dot(light.direction, l);
      CauchySchwarz(light.direction, l);
      AtMostOne(projection);
      var f := SpotFactor(m, projection, 1.0);
      var pi := PointIntensity(m, light.intensity, light.position, light.att, p).value;
      var d := Denominator(light.att, Distance(m, light.position, p));
      NonNegativeQuotient(light.intensity, pi, d);
      FactorDims(pi, f);
      SpotProjection(m, light, p);
    }
  }

  lemma AtMostOne(x: real)
    requires x * x <= 1.0
    ensures x <= 1.0
  {
    if 1.0 < x {
      SquareMonotone(1.0, x);
    }
  }

  lemma NonNegativeQuotient(c: Color, q: Color, d: real)
    requires 0.0 < d && Colors.Scale(q, d) == c
    requires 0.0 <= c.r && 0.0 <= c.g && 0.0 <= c.b
    ensures 0.0 <= q.r && 0.0 <= q.g && 0.0 <= q.b
  {
    if q.r < 0.0 { ProductPositive(-q.r, d); }
    if q.g < 0.0 { ProductPositive(-q.g, d); }
    if q.b < 0.0 { ProductPositive(-q.b, d); }
  }

  lemma FactorDims(c: Color, f: real)
    requires 0.0 <= c.r && 0.0 <= c.g && 0.0 <= c.b && 0.0 <= f <= 1.0
    ensures Dimmer(Colors.Scale(c, f), c)
  {
    MonotoneProduct(c.r, f, 1.0);
    MonotoneProduct(c.g, f, 1.0);
    MonotoneProduct(c.b, f, 1.0);
  }

  /** DirectionalLight(intensity, direction): the direction is stored
    * normalized. */
  function NewDirectionalLight(m: MathLib, intensity: Color, direction: Vector): (r: LightSource)
    requires Lawful(m)
    ensures r.DirectionalSource? && r.intensity == intensity
    ensures Times(r.direction, Length(m, direction)) == direction
  {
    DirectionalSource(intensity, UnitOf(m, direction))
  }

  /** The aim of a spot light: its normalized direction and concentration. */
  datatype Aim = Aim(direction: UnitVector, concentration: real)

  /** A point light, or a spot light, which extends it. Intensity and
    * position are fixed; the attenuation coefficients are fields the
    * setters overwrite. */
  class PointLight {
    const intensity: Color
    const position: Point3D
    const aim: Option<Aim>
    var kC: real
    var kL: real
    var kQ: real

    /** PointLight(intensity, position, kC, kL, kQ). */
    constructor (intensity: Color, position: Point3D, kC: real, kL: real, kQ: real)
      ensures this.intensity == intensity && this.position == position && aim.None?
      ensures this.kC == kC && this.kL == kL && this.kQ == kQ
    {
      this.intensity := intensity;
      this.position := position;
      this.aim := None;
      this.kC := kC;
      this.kL := kL;
      this.kQ := kQ;
    }

    /** PointLight(intensity, position): kC = 1, kL = 0, kQ = 0. */
    constructor Plain(intensity: Color, position: Point3D)
      ensures this.intensity == intensity && this.position == position && aim.None?
      ensures Attenuation(kC, kL, kQ) == DEFAULT_ATTENUATION
    {
      this.intensity := intensity;
      this.position := position;
      this.aim := None;
      this.kC := 1.0;
      this.kL := 0.0;
      this.kQ := 0.0;
    }

    /** SpotLight(intensity, position, direction, kC, kL, kQ, concentration):
      * the direction is stored normalized. */
    constructor Spot(m: MathLib, intensity: Color, position: Point3D, direction: Vector, kC: real, kL: real, kQ: real, concentration: real)
      requires Lawful(m)
      ensures this.intensity == intensity && this.position == position
      ensures aim.Some? && aim.value.concentration == concentration
      ensures Times(aim.value.direction, Length(m, direction)) == direction
      ensures this.kC == kC && this.kL == kL && this.kQ == kQ
    {
      this.intensity := intensity;
      this.position := position;
      this.aim := Some(Aim(UnitOf(m, direction), concentration));
      this.kC := kC;
      this.kL := kL;
      this.kQ := kQ;
    }

    /** SpotLight(intensity, position, direction): kC = 1, kL = 0, kQ = 0 and
      * concentration 1. */
    constructor PlainSpot(m: MathLib, intensity: Color, position: Point3D, direction: Vector)
      requires Lawful(m)
      ensures this.intensity == intensity && this.position == position
      ensures aim.Some? && aim.value.concentration == 1.0
      ensures Times(aim.value.direction, Length(m, direction)) == direction
      ensures Attenuation(kC, kL, kQ) == DEFAULT_ATTENUATION
    {
      this.intensity := intensity;
      this.position := position;
      this.aim := Some(Aim(UnitOf(m, direction), 1.0));
      this.kC := 1.0;
      this.kL := 0.0;
      this.kQ := 0.0;
    }

    /** The light as it is now, for the queries. */
    function Source(): (r: LightSource)
      reads this
      ensures !r.DirectionalSource? && r.intensity == intensity && r.position == position && r.att == Attenuation(kC, kL, kQ)
      ensures r.SpotSource? <==> aim.Some?
    {
      match aim
      case None => PointSource(intensity, position, Attenuation(kC, kL, kQ))
      case Some(a) => SpotSource(intensity, position, Attenuation(kC, kL, kQ), a.direction, a.concentration)
    }

    /** setKC: only kC changes; the same light is returned. */
    method SetKC(k: real) returns (self: PointLight)
      modifies this
      ensures self == this
      ensures kC == k && kL == old(kL) && kQ == old(kQ)
    {
      kC := k;
      self := this;
    }

    /** setKL: only kL changes. */
    method SetKL(k: real) returns (self: PointLight)
      modifies this
      ensures self == this
      ensures kL == k && kC == old(kC) && kQ == old(kQ)
    {
      kL := k;
      self := this;
    }

    /** setKQ: only kQ changes. */
    method SetKQ(k: real) returns (self: PointLight)
      modifies this
      ensures self == this
      ensures kQ == k && kC == old(kC) && kL == old(kL)
    {
      kQ := k;
      self := this;
    }
  }
}
