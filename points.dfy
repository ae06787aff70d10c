/**
 * Point3D (src/primitives/Point3D.java) and the representation of Vector by
 * its head point. The two Java classes depend on each other (a point minus a
 * point is a vector), so the vector type and its constructor live here and
 * the vector operations in module Vectors.
 */
module Points {
  import opened Wrappers
  import opened Numerics

  /** An immutable point with exact real coordinates. */
  datatype Point3D = Point3D(x: real, y: real, z: real)

  const ZERO: Point3D := Point3D(0.0, 0.0, 0.0)

  /** A Vector is its head; no vector has the zero head. */
  type Vector = p: Point3D | p != ZERO witness Point3D(1.0, 0.0, 0.0)

  const ZERO_HEAD: string := "Head of vector cannot be zero"

  /** Both Vector constructors: a zero head is rejected, any other head is kept. */
  function NewVector(head: Point3D): (r: Result<Vector>)
    ensures r.Fail? <==> head.x == 0.0 && head.y == 0.0 && head.z == 0.0
    ensures r.Fail? ==> r.error == IllegalArgument(ZERO_HEAD)
    ensures r.Ok? ==> r.value == head
  {
    if head == ZERO then Fail(IllegalArgument(ZERO_HEAD)) else var v: Vector := head; Ok(v)
  }

  /** p.add(v): the point reached from p by moving along v. */
  function Add(p: Point3D, v: Vector): (r: Point3D)
    ensures r != p
  {
    Shift(p, v)
  }

  /** The componentwise sum of a point and any triple, zero included. */
  function Shift(p: Point3D, d: Point3D): Point3D
  {
    Point3D(p.x + d.x, p.y + d.y, p.z + d.z)
  }

  /** The componentwise difference of two points, before the zero check. */
  function Diff(p: Point3D, other: Point3D): Point3D
  {
    Point3D(p.x - other.x, p.y - other.y, p.z - other.z)
  }

  /** p.subtract(other): the vector leading from other to p. It fails when the
    * two points coincide, because that vector would be zero. */
  function Subtract(p: Point3D, other: Point3D): (r: Result<Vector>)
    ensures r.Fail? <==> p == other
    ensures r.Ok? ==> Add(other, r.value) == p && r.value == Diff(p, other)
  {
    NewVector(Diff(p, other))
  }

  /** Squared Euclidean distance between two points. */
  function DistanceSquared(p: Point3D, other: Point3D): (r: real)
    ensures 0.0 <= r
  {
    var d := Diff(p, other);
    d.x * d.x + d.y * d.y + d.z * d.z
  }

  /** Euclidean distance, through Math.sqrt. */
  function Distance(m: MathLib, p: Point3D, other: Point3D): (r: real)
    requires Lawful(m)
    ensures 0.0 <= r && r * r == DistanceSquared(p, other)
  {
    Sqrt(m, DistanceSquared(p, other))
  }

  /** A distance whose square is r * r, for r >= 0, is r. */
  lemma DistanceOfSquare(m: MathLib, p: Point3D, q: Point3D, r: real)
    requires Lawful(m) && 0.0 <= r && DistanceSquared(p, q) == r * r
    ensures Distance(m, p, q) == r
  {
    SqrtOfSquare(m, r);
  }

  /** Point3D.equals compares the three coordinates. */
  function Equals(p: Point3D, other: Point3D): (r: bool)
    ensures r <==> p == other
  {
    p.x == other.x && p.y == other.y && p.z == other.z
  }

  /** Moving from p along v and then subtracting p gives back v. */
  lemma AddThenSubtract(p: Point3D, v: Vector)
    ensures Subtract(Add(p, v), p) == Ok(v)
  {
    assert Diff(Add(p, v), p) == v;
  }

  /** The distance is symmetric. */
  lemma DistanceSquaredSymmetric(p: Point3D, q: Point3D)
    ensures DistanceSquared(p, q) == DistanceSquared(q, p)
  {
  }

  /** The squared distance is zero exactly for equal points. */
  lemma {:induction false} DistanceSquaredZero(p: Point3D, q: Point3D)
    ensures DistanceSquared(p, q) == 0.0 <==> p == q
  {
    if DistanceSquared(p, q) == 0.0 {
      var d := Diff(p, q);
      SquareNonNegative(d.x);
      SquareNonNegative(d.y);
      SquareNonNegative(d.z);
      assert d.x * d.x == 0.0 && d.y * d.y == 0.0 && d.z * d.z == 0.0;
      SquareZero(d.x);
      SquareZero(d.y);
      SquareZero(d.z);
    }
  }

  /** The values the Point3D unit tests expect. */
  lemma Point3DExamples()
    ensures Subtract(Point3D(1.0, 2.0, 3.0), Point3D(4.0, 5.0, 6.0)).value == Point3D(-3.0, -3.0, -3.0)
    ensures Add(Point3D(1.0, 2.0, 3.0), Point3D(4.0, 5.0, 6.0)) == Point3D(5.0, 7.0, 9.0)
    ensures DistanceSquared(Point3D(1.0, 2.0, 3.0), Point3D(4.0, 5.0, 6.0)) == 27.0
  {
    assert Diff(Point3D(1.0, 2.0, 3.0), Point3D(4.0, 5.0, 6.0)) == Point3D(-3.0, -3.0, -3.0);
  }
}
