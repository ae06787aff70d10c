/**
 * src/elements/Camera.java: a camera at a point, with an orthonormal frame
 * (towards, up, right), a view plane at some distance in front of it, and
 * the construction of the ray through the centre of a pixel.
 */
module Cameras {
  import opened Wrappers
  import opened Numerics
  import opened Points
  import opened Vectors
  import opened Rays

  const NOT_ORTHOGONAL: string := "The vectors are not orthogonal."

  /** The horizontal offset of the centre of column j from the centre of the
    * view plane: (j - (nX - 1) / 2) * (width / nX). */
  function XOffset(nX: int, j: int, width: real): real
    requires 0 < nX
  {
    (j as real - (nX - 1) as real / 2.0) * (width / nX as real)
  }

  /** The vertical offset of the centre of row i: rows grow downwards, so
    * -(i - (nY - 1) / 2) * (height / nY). */
  function YOffset(nY: int, i: int, height: real): real
    requires 0 < nY
  {
    -(i as real - (nY - 1) as real / 2.0) * (height / nY as real)
  }

  /** Offsets are antisymmetric: column j and column nX - 1 - j lie at the
    * same distance on opposite sides of the centre, and likewise rows. */
  lemma OffsetsAntisymmetric(nX: int, nY: int, j: int, i: int, width: real, height: real)
    requires 0 < nX && 0 < nY
    ensures XOffset(nX, nX - 1 - j, width) == -XOffset(nX, j, width)
    ensures YOffset(nY, nY - 1 - i, height) == -YOffset(nY, i, height)
  {
    OppositeFactor(nX - 1 - j, j, nX, width / nX as real);
    OppositeFactor(nY - 1 - i, i, nY, height / nY as real);
  }

  lemma OppositeFactor(a: int, b: int, n: int, k: real)
    requires a == n - 1 - b
    ensures (a as real - (n - 1) as real / 2.0) * k == -((b as real - (n - 1) as real / 2.0) * k)
  {
    assert a as real - (n - 1) as real / 2.0 == -(b as real - (n - 1) as real / 2.0);
  }

  /** In a grid with an odd number of columns (rows), the middle column (row)
    * has offset zero. */
  lemma MiddleOffsetZero(nX: int, nY: int, width: real, height: real)
    requires 0 < nX && 0 < nY && nX % 2 == 1 && nY % 2 == 1
    ensures XOffset(nX, (nX - 1) / 2, width) == 0.0
    ensures YOffset(nY, (nY - 1) / 2, height) == 0.0
  {
    HalfOfEven(nX - 1);
    HalfOfEven(nY - 1);
  }

  lemma HalfOfEven(n: int)
    requires n % 2 == 0
    ensures (n / 2) as real == n as real / 2.0
  {
    assert n == 2 * (n / 2);
  }

  class Camera {
    const origin: Point3D
    const vUp: UnitVector
    const vTo: UnitVector
    const vRight: UnitVector
    var width: real
    var height: real
    var distance: real

    /** The three directions are mutually orthogonal. */
    predicate Orthonormal()
    {
      Dot(vUp, vTo) == 0.0 && Dot(vRight, vTo) == 0.0 && Dot(vRight, vUp) == 0.0
    }

    /** Camera(origin, vTo, vUp) once the orthogonality check has passed: up
      * and towards are stored normalized, right is the normalized cross
      * product of towards and up. Width, height and distance start at 0. */
    constructor (m: MathLib, newOrigin: Point3D, newVTo: Vector, newVUp: Vector)
      requires Lawful(m) && Dot(newVUp, newVTo) == 0.0
      ensures origin == newOrigin && vUp == UnitOf(m, newVUp) && vTo == UnitOf(m, newVTo)
      ensures Cross(newVTo, newVUp).Ok? && vRight == UnitOf(m, Cross(newVTo, newVUp).value)
      ensures Orthonormal()
      ensures width == 0.0 && height == 0.0 && distance == 0.0
    {
      origin := newOrigin;
      vUp := UnitOf(m, newVUp);
      vTo := UnitOf(m, newVTo);
      CrossOfOrthogonal(newVTo, newVUp);
      var right := Cross(newVTo, newVUp).value;
      vRight := UnitOf(m, right);
      width := 0.0;
      height := 0.0;
      distance := 0.0;
      new;
      UnitsOrthogonal(m, newVUp, newVTo);
      UnitsOrthogonal(m, right, newVTo);
      UnitsOrthogonal(m, right, newVUp);
    }

    /** setViewPlaneSize: only width and height change; the same camera is
      * returned. */
    method SetViewPlaneSize(newWidth: real, newHeight: real) returns (self: Camera)
      modifies this
      ensures self == this
      ensures width == newWidth && height == newHeight && distance == old(distance)
    {
      height := newHeight;
      width := newWidth;
      self := this;
    }

    /** setDistance: only the distance changes. */
    method SetDistance(newDistance: real) returns (self: Camera)
      modifies this
      ensures self == this
      ensures distance == newDistance && width == old(width) && height == old(height)
    {
      distance := newDistance;
      self := this;
    }

    /** The centre of pixel (j, i) on the view plane:
      * origin + distance * vTo + xj * vRight + yi * vUp. */
    function PixelPoint(nX: int, nY: int, j: int, i: int): Point3D
      reads this
      requires 0 < nX && 0 < nY
    {
      Shift(Shift(Shift(origin, Times(vTo, distance)), Times(vRight, XOffset(nX, j, width))), Times(vUp, YOffset(nY, i, height)))
    }

    /** constructRayThroughPixel(nX, nY, j, i): the ray from the camera's
      * origin through the centre of pixel (j, i). Building the view plane
      * centre scales vTo by the distance, so with distance 0 (before
      * setDistance) it fails; zero offsets skip their scaling step. Any other
      * call succeeds, because the pixel point is ahead of the camera. */
    function ConstructRayThroughPixel(m: MathLib, nX: int, nY: int, j: int, i: int): (r: Result<Ray>)
      reads this
      requires Lawful(m) && Orthonormal() && 0 < nX && 0 < nY
      ensures r.Fail? <==> distance == 0.0
      ensures r.Ok? ==> r.value.origin == origin
      ensures r.Ok? ==>
        Times(r.value.direction, Distance(m, PixelPoint(nX, nY, j, i), origin)) == Diff(PixelPoint(nX, nY, j, i), origin)
    {
      var step :- Scale(vTo, distance);
      var pc := Add(origin, step);
      var xj := XOffset(nX, j, width);
      var yi := YOffset(nY, i, height);
      var p1 := if xj == 0.0 then pc else Add(pc, Scale(vRight, xj).value);
      var pij := if yi == 0.0 then p1 else Add(p1, Scale(vUp, yi).value);
      assert pij == PixelPoint(nX, nY, j, i);
      PixelAhead(origin, vTo, vRight, vUp, distance, xj, yi);
      var vij := Subtract(pij, origin).value;
      OffsetLength(m, pij, origin);
      var u := UnitOf(m, vij);
      UnitOfUnit(m, u);
      Ok(NewRay(m, origin, u))
    }

    /** The ray through the middle pixel of an odd grid goes straight along
      * vTo when the view plane is in front of the camera. */
    lemma MiddleRay(m: MathLib, nX: int, nY: int)
      requires Lawful(m) && Orthonormal() && 0 < nX && 0 < nY && nX % 2 == 1 && nY % 2 == 1
      requires 0.0 < distance
      ensures ConstructRayThroughPixel(m, nX, nY, (nX - 1) / 2, (nY - 1) / 2) == Ok(Ray(origin, vTo))
    {
      MiddleOffsetZero(nX, nY, width, height);
      var p := PixelPoint(nX, nY, (nX - 1) / 2, (nY - 1) / 2);
      assert p == Shift(origin, Times(vTo, distance));
      AlongDistance(m, origin, vTo, distance);
      var r := ConstructRayThroughPixel(m, nX, nY, (nX - 1) / 2, (nY - 1) / 2);
      CancelScale(r.value.direction, vTo, distance);
    }
  }

  /** Orthogonal non-zero vectors are not parallel, so their cross product
    * exists. */
  lemma CrossOfOrthogonal(v: Vector, w: Vector)
    requires Dot(w, v) == 0.0
    ensures Cross(v, w).Ok?
  {
    DotSymmetric(w, v);
    ProductPositive(LengthSquared(v), LengthSquared(w));
  }

  /** Normalizing both of two orthogonal vectors keeps them orthogonal. */
  lemma UnitsOrthogonal(m: MathLib, v: Vector, w: Vector)
    requires Lawful(m) && Dot(v, w) == 0.0
    ensures Dot(UnitOf(m, v), UnitOf(m, w)) == 0.0
  {
    UnitOrthogonal(m, v, w);
    DotSymmetric(UnitOf(m, v), w);
    UnitOrthogonal(m, w, UnitOf(m, v));
    DotSymmetric(UnitOf(m, w), UnitOf(m, v));
  }

  /** The offset of a pixel point from the camera projects on vTo to the
    * distance, so for a non-zero distance it is never the zero vector. */
  lemma PixelAhead(o: Point3D, to: Point3D, right: Point3D, up: Point3D, d: real, x: real, y: real)
    requires Dot(to, to) == 1.0 && Dot(right, to) == 0.0 && Dot(up, to) == 0.0 && d != 0.0
    ensures Dot(to, Diff(Shift(Shift(Shift(o, Times(to, d)), Times(right, x)), Times(up, y)), o)) == d
    ensures Shift(Shift(Shift(o, Times(to, d)), Times(right, x)), Times(up, y)) != o
  {
    var pc := Shift(o, Times(to, d));
    var p1 := Shift(pc, Times(right, x));
    var p2 := Shift(p1, Times(up, y));
    DotShift(o, to, d, to, o);
    assert Diff(o, o) == ZERO;
    DotShift(pc, right, x, to, o);
    DotSymmetric(to, right);
    DotShift(p1, up, y, to, o);
    DotSymmetric(to, up);
  }

  /** The point a positive distance along a unit vector is at that
    * distance, and its offset is the scaled vector. */
  lemma AlongDistance(m: MathLib, o: Point3D, u: UnitVector, d: real)
    requires Lawful(m) && 0.0 < d
    ensures Diff(Shift(o, Times(u, d)), o) == Times(u, d)
    ensures Distance(m, Shift(o, Times(u, d)), o) == d
  {
    AlongDistanceSquared(o, u, d);
    DistanceOfSquare(m, Shift(o, Times(u, d)), o, d);
  }

  lemma AlongDistanceSquared(o: Point3D, u: Point3D, d: real)
    requires Dot(u, u) == 1.0
    ensures Diff(Shift(o, Times(u, d)), o) == Times(u, d)
    ensures DistanceSquared(Shift(o, Times(u, d)), o) == d * d
  {
    ScaledLengthSquared(u, d);
    assert DistanceSquared(Shift(o, Times(u, d)), o) == Dot(Times(u, d), Times(u, d));
  }

  /** Equal non-zero multiples of two triples make the triples equal. */
  lemma CancelScale(a: Point3D, b: Point3D, k: real)
    requires k != 0.0 && Times(a, k) == Times(b, k)
    ensures a == b
  {
    QuotientOfProduct(a.x, k);
    QuotientOfProduct(b.x, k);
    QuotientOfProduct(a.y, k);
    QuotientOfProduct(b.y, k);
    QuotientOfProduct(a.z, k);
    QuotientOfProduct(b.z, k);
  }

  /** Camera(origin, vTo, vUp): fails unless up and towards are orthogonal,
    * before anything is stored. */
  method NewCamera(m: MathLib, newOrigin: Point3D, newVTo: Vector, newVUp: Vector) returns (r: Result<Camera>)
    requires Lawful(m)
    ensures r.Fail? <==> Dot(newVUp, newVTo) != 0.0
    ensures r.Fail? ==> r.error == IllegalArgument(NOT_ORTHOGONAL)
    ensures r.Ok? ==> fresh(r.value) && r.value.origin == newOrigin && r.value.Orthonormal()
    ensures r.Ok? ==> r.value.vUp == UnitOf(m, newVUp) && r.value.vTo == UnitOf(m, newVTo)
    ensures r.Ok? ==> Cross(newVTo, newVUp).Ok? && r.value.vRight == UnitOf(m, Cross(newVTo, newVUp).value)
    ensures r.Ok? ==> r.value.width == 0.0 && r.value.height == 0.0 && r.value.distance == 0.0
  {
    if Dot(newVUp, newVTo) != 0.0 {
      return Fail(IllegalArgument(NOT_ORTHOGONAL));
    }
    var c := new Camera(m, newOrigin, newVTo, newVUp);
    return Ok(c);
  }
}
