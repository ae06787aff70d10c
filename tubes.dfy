/**
 * src/geometries/Tube.java and src/geometries/Cylinder.java: an infinite tube
 * around an axis ray, and a cylinder, a tube cut at two caps. Both have
 * normals; neither computes intersections.
 */
module Tubes {
  import opened Wrappers
  import opened Numerics
  import opened Points
  import opened Vectors
  import opened Rays

  datatype Tube = Tube(axis: Ray, radius: real)

  /** A cylinder is a tube of the given height, from the axis origin along the
    * axis direction. */
  datatype Cylinder = Cylinder(axis: Ray, radius: real, height: real)
  {
    /** The tube a cylinder extends, whose normal it falls back to. */
    function AsTube(): Tube
    {
      Tube(axis, radius)
    }
  }

  /** The parameter of the projection of p on the axis: (p - origin) . dir. */
  function Projection(axis: Ray, p: Point3D): real
  {
    Dot(axis.direction, Diff(p, axis.origin))
  }

  /** The point of the axis line nearest p. */
  function Foot(axis: Ray, p: Point3D): Point3D
  {
    PointAt(axis, Projection(axis, p))
  }

  /** The part of p's offset from the axis origin orthogonal to the axis. */
  function Radial(axis: Ray, p: Point3D): Point3D
  {
    Diff(p, Foot(axis, p))
  }

  /** The radial part is orthogonal to the axis direction. */
  lemma RadialOrthogonal(axis: Ray, p: Point3D)
    ensures Dot(axis.direction, Radial(axis, p)) == 0.0
  {
    RemoveProjection(p, axis.origin, axis.direction, Projection(axis, p));
  }

  lemma RemoveProjection(p: Point3D, o: Point3D, d: Point3D, s: real)
    requires Dot(d, d) == 1.0 && s == Dot(d, Diff(p, o))
    ensures Dot(d, Diff(p, Shift(o, Times(d, s)))) == 0.0
  {
    assert Diff(p, Shift(o, Times(d, s))) == Diff(Diff(p, o), Times(d, s));
    DotSymmetric(d, Diff(Diff(p, o), Times(d, s)));
    DotDiff(Diff(p, o), Times(d, s), d);
    DotScaled(d, s, d);
    DotSymmetric(d, Diff(p, o));
  }

  /** Tube.getNormal(point). The projection parameter is computed first, and
    * that alone fails at the axis origin. With a zero projection the normal
    * is the normalized offset from the origin; otherwise it is the
    * normalized offset from the projected point on the axis. Both branches
    * compute the unit radial vector: it fails exactly for points of the axis
    * line, and is orthogonal to the axis. */
  function TubeNormal(m: MathLib, tube: Tube, point: Point3D): (r: Result<Vector>)
    requires Lawful(m)
    ensures r.Fail? <==> point == Foot(tube.axis, point)
    ensures r.Ok? ==> LengthSquared(r.value) == 1.0
    ensures r.Ok? ==> Dot(r.value, tube.axis.direction) == 0.0
    ensures r.Ok? ==> Times(r.value, Distance(m, point, Foot(tube.axis, point))) == Radial(tube.axis, point)
  {
    var axis := tube.axis;
    var toOrigin :- Subtract(point, axis.origin);
    var scalar := Dot(axis.direction, toOrigin);
    if scalar == 0.0 then
      assert Foot(axis, point) == axis.origin;
      RadialNormal(m, axis, point, toOrigin)
    else
      var step :- Scale(axis.direction, scalar);
      var p2 := Add(axis.origin, step);
      assert p2 == Foot(axis, point);
      var toAxis :- Subtract(point, p2);
      RadialNormal(m, axis, point, toAxis)
  }

  /** Normalizing the radial offset, and what that gives. */
  function RadialNormal(m: MathLib, axis: Ray, point: Point3D, radial: Vector): (r: Result<Vector>)
    requires Lawful(m) && radial == Radial(axis, point)
    ensures r.Ok? && LengthSquared(r.value) == 1.0
    ensures Dot(r.value, axis.direction) == 0.0
    ensures Times(r.value, Distance(m, point, Foot(axis, point))) == radial
  {
    RadialOrthogonal(axis, point);
    DotSymmetric(axis.direction, radial);
    UnitOrthogonal(m, radial, axis.direction);
    OffsetLength(m, point, Foot(axis, point));
    Ok(UnitOf(m, radial))
  }

  /** The squared distance of p from the axis line. */
  function AxisDistanceSquared(axis: Ray, p: Point3D): real
  {
    DistanceSquared(p, Foot(axis, p))
  }

  /** On a tube of positive radius every surface point has a normal, and the
    * radius times the normal leads from the axis to the point. */
  lemma TubeNormalOutward(m: MathLib, tube: Tube, p: Point3D)
    requires Lawful(m) && 0.0 < tube.radius
    requires AxisDistanceSquared(tube.axis, p) == tube.radius * tube.radius
    ensures TubeNormal(m, tube, p).Ok?
    ensures Times(TubeNormal(m, tube, p).value, tube.radius) == Radial(tube.axis, p)
  {
    var foot := Foot(tube.axis, p);
    if p == foot {
      DistanceSquaredZero(p, foot);
      SquareZero(tube.radius);
    }
    DistanceOfSquare(m, p, foot, tube.radius);
  }

  /** Tube.findGeoIntersections is a stub: it reports no intersection (null)
    * for every ray and bound. */
  function TubeIntersections(tube: Tube, ray: Ray, maxDistance: Extended): (r: Option<seq<Point3D>>)
    ensures r.None?
  {
    None
  }

  /** The centre of the top cap, origin + height * dir. */
  function Top(c: Cylinder): Point3D
  {
    PointAt(c.axis, c.height)
  }

  /** (p - top) . dir, the offset of p from the top cap's plane, is the
    * projection parameter less the height. */
  lemma TopOffset(c: Cylinder, p: Point3D)
    ensures Dot(Diff(p, Top(c)), c.axis.direction) == Projection(c.axis, p) - c.height
  {
    var d := c.axis.direction;
    DotShift(c.axis.origin, d, c.height, d, p);
    assert Diff(p, Top(c)) == Times(Diff(Top(c), p), -1.0);
    DotScaled(Diff(Top(c), p), -1.0, d);
    DotSymmetric(Diff(Top(c), p), d);
    assert Diff(c.axis.origin, p) == Times(Diff(p, c.axis.origin), -1.0);
    DotScaled(Diff(p, c.axis.origin), -1.0, d);
    DotSymmetric(Diff(p, c.axis.origin), d);
  }

  /** Cylinder.getNormal(point) as the Java code computes it. The top cap's
    * centre is built first, by scale(height), which fails for height 0. The
    * bottom test subtracts the axis origin and the top test subtracts the top
    * centre; each subtraction fails when the point is that very centre. A
    * point in the bottom plane gets dir, one in the top plane -dir, any other
    * the tube normal. */
  function CylinderNormalAsWritten(m: MathLib, c: Cylinder, point: Point3D): (r: Result<Vector>)
    requires Lawful(m)
    ensures c.height == 0.0 ==> r.Fail?
    ensures point == c.axis.origin ==> r.Fail?
    ensures point == Top(c) ==> r.Fail?
  {
    var d := c.axis.direction;
    var step :- Scale(d, c.height);
    var p2 := Add(c.axis.origin, step);
    var toBottom :- Subtract(point, c.axis.origin);
    if Dot(toBottom, d) == 0.0 then
      Ok(d)
    else
      var toTop :- Subtract(point, p2);
      if Dot(toTop, d) == 0.0 then
        Scale(d, -1.0)
      else
        TubeNormal(m, c.AsTube(), point)
  }

  /** Cylinder.getNormal(point) with the two cap tests made on the offsets
    * themselves, so that the cap centres get the cap normal instead of
    * failing. Every other input gives what the Java code gives. */
  function CylinderNormal(m: MathLib, c: Cylinder, point: Point3D): (r: Result<Vector>)
    requires Lawful(m)
    ensures r.Fail? <==> c.height == 0.0 || (Projection(c.axis, point) != 0.0 && Projection(c.axis, point) != c.height && point == Foot(c.axis, point))
    ensures r.Ok? ==> LengthSquared(r.value) == 1.0
  {
    var d := c.axis.direction;
    var step :- Scale(d, c.height);
    var p2 := Add(c.axis.origin, step);
    TopOffset(c, point);
    if Dot(Diff(point, c.axis.origin), d) == 0.0 then
      DotSymmetric(Diff(point, c.axis.origin), d);
      Ok(d)
    else if Dot(Diff(point, p2), d) == 0.0 then
      DotSymmetric(Diff(point, c.axis.origin), d);
      NegatedUnit(d);
      Ok(Times(d, -1.0))
    else
      DotSymmetric(Diff(point, c.axis.origin), d);
      TubeNormal(m, c.AsTube(), point)
  }

  /** Minus a unit vector is a unit vector. */
  lemma NegatedUnit(d: UnitVector)
    ensures Times(d, -1.0) != ZERO && Dot(Times(d, -1.0), Times(d, -1.0)) == 1.0
  {
    ScaledLengthSquared(d, -1.0);
  }

  /** The normal of a cylinder of non-zero height: dir on the bottom cap's
    * plane, -dir on the top cap's plane, and otherwise the tube's normal,
    * which is orthogonal to the axis. The bottom test is made first. */
  lemma {:induction false} CylinderNormalRegions(m: MathLib, c: Cylinder, p: Point3D)
    requires Lawful(m) && c.height != 0.0
    ensures Projection(c.axis, p) == 0.0 ==> CylinderNormal(m, c, p) == Ok(c.axis.direction)
    ensures Projection(c.axis, p) == c.height ==> CylinderNormal(m, c, p) == Ok(Times(c.axis.direction, -1.0))
    ensures Projection(c.axis, p) != 0.0 && Projection(c.axis, p) != c.height ==>
      CylinderNormal(m, c, p) == TubeNormal(m, c.AsTube(), p)
  {
    var d := c.axis.direction;
    TopOffset(c, p);
    DotSymmetric(Diff(p, c.axis.origin), d);
    assert Add(c.axis.origin, Scale(d, c.height).value) == Top(c);
  }

  /** Wherever the Java code gives a normal, the corrected normal is the same;
    * where only the corrected one gives a normal, the point is the centre of
    * a cap. */
  lemma {:induction false} CylinderNormalAgrees(m: MathLib, c: Cylinder, p: Point3D)
    requires Lawful(m)
    ensures CylinderNormalAsWritten(m, c, p).Ok? ==> CylinderNormal(m, c, p) == CylinderNormalAsWritten(m, c, p)
    ensures CylinderNormalAsWritten(m, c, p).Fail? && CylinderNormal(m, c, p).Ok? ==> p == c.axis.origin || p == Top(c)
  {
    var d := c.axis.direction;
    TopOffset(c, p);
    DotSymmetric(Diff(p, c.axis.origin), d);
    if c.height != 0.0 {
      assert Add(c.axis.origin, Scale(d, c.height).value) == Top(c);
      if p != c.axis.origin && p != Top(c) {
        assert Subtract(p, c.axis.origin).value == Diff(p, c.axis.origin);
        assert Subtract(p, Top(c)).value == Diff(p, Top(c));
        assert Scale(d, -1.0).value == Times(d, -1.0);
      }
    }
  }

  /** The centres of the two caps: the Java code fails there, the corrected
    * normal is dir at the bottom and -dir at the top. */
  lemma CapCentres(m: MathLib, c: Cylinder)
    requires Lawful(m) && c.height != 0.0
    ensures CylinderNormalAsWritten(m, c, c.axis.origin).Fail?
    ensures CylinderNormal(m, c, c.axis.origin) == Ok(c.axis.direction)
    ensures CylinderNormalAsWritten(m, c, Top(c)).Fail?
    ensures CylinderNormal(m, c, Top(c)) == Ok(Times(c.axis.direction, -1.0))
  {
    ProjectionOfOrigin(c.axis);
    ProjectionOfTop(c);
    CylinderNormalRegions(m, c, c.axis.origin);
    CylinderNormalRegions(m, c, Top(c));
  }

  lemma ProjectionOfOrigin(axis: Ray)
    ensures Projection(axis, axis.origin) == 0.0
  {
  }

  lemma ProjectionOfTop(c: Cylinder)
    ensures Projection(c.axis, Top(c)) == c.height
  {
    DotShift(c.axis.origin, c.axis.direction, c.height, c.axis.direction, c.axis.origin);
    assert Diff(c.axis.origin, c.axis.origin) == ZERO;
  }
}
