/**
 * The operations of src/primitives/Vector.java. Every operation that would
 * produce the zero vector fails instead, so the "no zero vector" invariant is
 * carried by the type Vector.
 */
module Vectors {
  import opened Wrappers
  import opened Numerics
  import opened Points

  /** A vector of length one, as stored in rays, lights and cameras. */
  type UnitVector = v: Vector | LengthSquared(v) == 1.0 witness Point3D(1.0, 0.0, 0.0)

  /** Componentwise product with a scalar, without the zero check. */
  function Times(v: Point3D, k: real): Point3D
  {
    Point3D(v.x * k, v.y * k, v.z * k)
  }

  /** The raw cross product, without the zero check. */
  function CrossHead(v: Point3D, w: Point3D): Point3D
  {
    Point3D(v.y * w.z - w.y * v.z, v.z * w.x - w.z * v.x, v.x * w.y - w.x * v.y)
  }

  /** v.add(w): fails exactly when w is the opposite of v. */
  function VectorAdd(v: Vector, w: Vector): (r: Result<Vector>)
    ensures r.Fail? <==> w.x == -v.x && w.y == -v.y && w.z == -v.z
    ensures r.Ok? ==> Subtract(r.value, v) == Ok(w)
  {
    var sum := Add(v, w);
    assert Point3D(sum.x - v.x, sum.y - v.y, sum.z - v.z) == w;
    NewVector(sum)
  }

  /** v.subtract(w): fails exactly when the two vectors are equal. */
  function VectorSubtract(v: Vector, w: Vector): (r: Result<Vector>)
    ensures r.Fail? <==> v == w
    ensures r.Ok? ==> VectorAdd(w, r.value) == Ok(v)
  {
    Subtract(v, w)
  }

  /** v.scale(k): fails exactly for k == 0; otherwise every coordinate is
    * multiplied by k. */
  function Scale(v: Vector, k: real): (r: Result<Vector>)
    ensures r.Fail? <==> k == 0.0
    ensures r.Ok? ==> r.value == Times(v, k)
  {
    var head := Times(v, k);
    if k == 0.0 then
      NewVector(head)
    else
      ScaleNonZero(v, k);
      NewVector(head)
  }

  /** Scaling by k and then by 1 / k gives back the vector. */
  lemma ScaleInverse(v: Vector, k: real)
    requires k != 0.0
    ensures Scale(v, k).Ok? && Scale(Scale(v, k).value, 1.0 / k) == Ok(v)
  {
    ScaleNonZero(v, k);
  }

  /** Scaling a non-zero vector by a non-zero factor, and back. */
  lemma ScaleNonZero(v: Vector, k: real)
    requires k != 0.0
    ensures Times(v, k) != ZERO
    ensures Times(Times(v, k), 1.0 / k) == v
  {
    if Times(v, k) == ZERO {
      if v.x != 0.0 {
        ProductZero(v.x, k);
      } else if v.y != 0.0 {
        ProductZero(v.y, k);
      } else {
        ProductZero(v.z, k);
      }
    }
    InverseFactor(v.x, k);
    InverseFactor(v.y, k);
    InverseFactor(v.z, k);
  }

  lemma InverseFactor(a: real, k: real)
    requires k != 0.0
    ensures a * k * (1.0 / k) == a
  {
  }

  /** v.dotProduct(w). */
  function Dot(v: Point3D, w: Point3D): real
  {
    v.x * w.x + v.y * w.y + v.z * w.z
  }

  /** v.lengthSquared(): the squared distance of the head from ZERO; positive
    * for every vector. */
  function LengthSquared(v: Vector): (r: real)
    ensures 0.0 < r
    ensures r == Dot(v, v)
  {
    DistanceSquaredZero(v, ZERO);
    DistanceSquared(v, ZERO)
  }

  /** v.length(), through Math.sqrt. */
  function Length(m: MathLib, v: Vector): (r: real)
    requires Lawful(m)
    ensures 0.0 < r && r * r == LengthSquared(v)
  {
    SqrtPositive(m, LengthSquared(v));
    Sqrt(m, LengthSquared(v))
  }

  /** v.crossProduct(w): orthogonal to both operands, and failing exactly when
    * the operands are parallel (equality in the Cauchy-Schwarz inequality). */
  function Cross(v: Vector, w: Vector): (r: Result<Vector>)
    ensures r.Ok? ==> Dot(r.value, v) == 0.0 && Dot(r.value, w) == 0.0
    ensures r.Fail? <==> Dot(v, w) * Dot(v, w) == LengthSquared(v) * LengthSquared(w)
  {
    CrossOrthogonal(v, w);
    CrossZero(v, w);
    NewVector(CrossHead(v, w))
  }

  lemma CrossOrthogonal(v: Point3D, w: Point3D)
    ensures Dot(CrossHead(v, w), v) == 0.0 && Dot(CrossHead(v, w), w) == 0.0
  {
  }

  /** Lagrange's identity: |v x w|^2 == |v|^2 |w|^2 - (v.w)^2. */
  lemma Lagrange(v: Point3D, w: Point3D)
    ensures Dot(CrossHead(v, w), CrossHead(v, w)) == Dot(v, v) * Dot(w, w) - Dot(v, w) * Dot(v, w)
  {
  }

  lemma CrossZero(v: Vector, w: Vector)
    ensures CrossHead(v, w) == ZERO <==> Dot(v, w) * Dot(v, w) == LengthSquared(v) * LengthSquared(w)
  {
    CrossZeroPlain(v, w);
    SameProduct(LengthSquared(v), LengthSquared(w), Dot(v, v), Dot(w, w));
  }

  lemma CrossZeroPlain(v: Point3D, w: Point3D)
    ensures CrossHead(v, w) == ZERO <==> Dot(v, w) * Dot(v, w) == Dot(v, v) * Dot(w, w)
  {
    var c := CrossHead(v, w);
    CrossZeroDot(v, w, c);
    DotSelfZero(c);
  }

  lemma SameProduct(a: real, b: real, c: real, d: real)
    requires a == c && b == d
    ensures a * b == c * d
  {
  }

  lemma CrossZeroDot(v: Point3D, w: Point3D, c: Point3D)
    requires c == CrossHead(v, w)
    ensures Dot(c, c) == 0.0 <==> Dot(v, w) * Dot(v, w) == Dot(v, v) * Dot(w, w)
  {
    Lagrange(v, w);
  }

  /** Only the zero point is orthogonal to itself. */
  lemma DotSelfZero(c: Point3D)
    ensures Dot(c, c) == 0.0 <==> c == ZERO
  {
    if Dot(c, c) == 0.0 {
      SquareNonNegative(c.x);
      SquareNonNegative(c.y);
      SquareNonNegative(c.z);
      SquareZero(c.x);
      SquareZero(c.y);
      SquareZero(c.z);
    }
  }

  /** The triple product of the offsets of a, b, c from o equals the triple
    * product of the edges leaving a with the offset of a from o. */
  lemma TripleProduct(a: Point3D, b: Point3D, c: Point3D, o: Point3D)
    ensures Dot(CrossHead(Diff(a, o), Diff(b, o)), Diff(c, o)) == Dot(CrossHead(Diff(b, a), Diff(c, a)), Diff(a, o))
  {
    var A, B, C := Diff(a, o), Diff(b, o), Diff(c, o);
    assert Diff(b, a) == Diff(B, A) && Diff(c, a) == Diff(C, A);
    var ca := Diff(C, A);
    var bc, ba, ac, aa := CrossHead(B, C), CrossHead(B, A), CrossHead(A, C), CrossHead(A, A);
    CrossDiffLeft(B, A, ca);
    CrossDiffRight(B, C, A);
    CrossDiffRight(A, C, A);
    DotDiff(Diff(bc, ba), Diff(ac, aa), A);
    DotDiff(bc, ba, A);
    DotDiff(ac, aa, A);
    CrossOrthogonal(B, A);
    CrossOrthogonal(A, C);
    CrossOrthogonal(A, A);
    DetCyclic(A, B, C);
  }

  /** The cross product is linear in its first operand ... */
  lemma CrossDiffLeft(a: Point3D, b: Point3D, c: Point3D)
    ensures CrossHead(Diff(a, b), c) == Diff(CrossHead(a, c), CrossHead(b, c))
  {
  }

  /** ... and in its second one. */
  lemma CrossDiffRight(a: Point3D, b: Point3D, c: Point3D)
    ensures CrossHead(a, Diff(b, c)) == Diff(CrossHead(a, b), CrossHead(a, c))
  {
  }

  /** The dot product is linear in its first operand. */
  lemma DotDiff(a: Point3D, b: Point3D, c: Point3D)
    ensures Dot(Diff(a, b), c) == Dot(a, c) - Dot(b, c)
  {
  }

  /** The triple product is invariant under a cyclic shift of its operands. */
  lemma DetCyclic(p: Point3D, q: Point3D, r: Point3D)
    ensures Dot(CrossHead(q, r), p) == Dot(CrossHead(p, q), r)
  {
  }

  /** The unit vector along v: v with each coordinate divided by v's length.
    * Scaling it back by that length gives v. */
  function UnitOf(m: MathLib, v: Vector): (r: UnitVector)
    requires Lawful(m)
    ensures Times(r, Length(m, v)) == v
  {
    var len := Length(m, v);
    var u := Point3D(v.x / len, v.y / len, v.z / len);
    UnitLength(v, u, len);
    u
  }

  lemma UnitLength(v: Vector, u: Point3D, len: real)
    requires 0.0 < len && len * len == LengthSquared(v)
    requires u == Point3D(v.x / len, v.y / len, v.z / len)
    ensures Times(u, len) == v
    ensures u != ZERO && LengthSquared(u) == 1.0
  {
    QuotientTimes(v.x, len);
    QuotientTimes(v.y, len);
    QuotientTimes(v.z, len);
    assert Times(u, len) == v;
    assert u != ZERO;
    QuotientSquares(v, u, len);
  }

  lemma QuotientTimes(a: real, len: real)
    requires len != 0.0
    ensures a / len * len == a
  {
  }

  lemma QuotientSquares(v: Vector, u: Point3D, len: real)
    requires 0.0 < len && len * len == LengthSquared(v)
    requires Times(u, len) == v && u != ZERO
    ensures LengthSquared(u) == 1.0
  {
    var s := LengthSquared(u);
    var k := len * len;
    calc {
      s * k;
    == { ScaledLengthSquared(u, len); }
      Dot(Times(u, len), Times(u, len));
    ==
      Dot(v, v);
    ==
      k;
    }
    CancelPositive(s, k);
  }

  /** |k u|^2 == k^2 |u|^2. */
  lemma ScaledLengthSquared(u: Point3D, k: real)
    ensures Dot(Times(u, k), Times(u, k)) == Dot(u, u) * (k * k)
  {
  }

  lemma CancelPositive(s: real, k: real)
    requires 0.0 < k && s * k == k
    ensures s == 1.0
  {
    assert (s - 1.0) * k == 0.0;
    ProductZero(s - 1.0, k);
  }

  /** Normalizing a unit vector leaves it unchanged. */
  lemma UnitOfUnit(m: MathLib, u: UnitVector)
    requires Lawful(m)
    ensures UnitOf(m, u) == u
  {
    SqrtZeroOne(m);
    assert Length(m, u) == 1.0;
  }

  /** Crossing a vector with a non-zero multiple of itself always fails. */
  lemma CrossParallelFails(v: Vector, k: real)
    requires k != 0.0
    ensures Scale(v, k).Ok? && Cross(v, Scale(v, k).value).Fail?
  {
    ScaleNonZero(v, k);
    assert CrossHead(v, Times(v, k)) == ZERO;
  }

  /** dotProduct does not depend on the order of its operands. */
  lemma DotSymmetric(v: Point3D, w: Point3D)
    ensures Dot(v, w) == Dot(w, v)
  {
  }

  /** A factor on one operand comes out of the dot product. */
  lemma DotScaled(u: Point3D, k: real, w: Point3D)
    ensures Dot(Times(u, k), w) == k * Dot(u, w)
  {
  }

  /** dotProduct distributes over a sum. */
  lemma DotDistributes(n: Point3D, a: Point3D, b: Point3D)
    ensures Dot(n, Shift(a, b)) == Dot(n, a) + Dot(n, b)
  {
    Distributes(n.x, a.x, b.x);
    Distributes(n.y, a.y, b.y);
    Distributes(n.z, a.z, b.z);
  }

  lemma Distributes(k: real, a: real, b: real)
    ensures k * (a + b) == k * a + k * b
  {
  }

  /** The Cauchy-Schwarz inequality for a unit vector d: the square of the
    * projection of u on d is at most the squared length of u. */
  lemma CauchySchwarz(d: Point3D, u: Point3D)
    requires Dot(d, d) == 1.0
    ensures Dot(d, u) * Dot(d, u) <= Dot(u, u)
  {
    Lagrange(d, u);
    DotSelfNonNegative(CrossHead(d, u));
  }

  lemma DotSelfNonNegative(c: Point3D)
    ensures 0.0 <= Dot(c, c)
  {
    SquareNonNegative(c.x);
    SquareNonNegative(c.y);
    SquareNonNegative(c.z);
  }

  /** The length of the offset between two distinct points is their distance. */
  lemma OffsetLength(m: MathLib, p: Point3D, q: Point3D)
    requires Lawful(m) && p != q
    ensures Length(m, Diff(p, q)) == Distance(m, p, q)
  {
    assert LengthSquared(Diff(p, q)) == DistanceSquared(p, q);
  }

  /** Normalizing keeps orthogonality: a vector orthogonal to w stays so once
    * it is rescaled to length one. */
  lemma UnitOrthogonal(m: MathLib, v: Vector, w: Point3D)
    requires Lawful(m)
    requires Dot(v, w) == 0.0
    ensures Dot(UnitOf(m, v), w) == 0.0
  {
    var u := UnitOf(m, v);
    var len := Length(m, v);
    DotScaled(u, len, w);
    assert len * Dot(u, w) == 0.0;
    ProductZero(len, Dot(u, w));
  }

  /** Swapping the operands of the cross product negates it. */
  lemma CrossSwap(a: Point3D, b: Point3D)
    ensures CrossHead(b, a) == Times(CrossHead(a, b), -1.0)
  {
  }

  /** The unit vector along -v is minus the unit vector along v. */
  lemma UnitOfNegated(m: MathLib, v: Vector)
    requires Lawful(m)
    ensures Times(v, -1.0) != ZERO
    ensures UnitOf(m, Times(v, -1.0)) == Times(UnitOf(m, v), -1.0)
  {
    var w: Vector := Times(v, -1.0);
    ScaledLengthSquared(v, -1.0);
    assert LengthSquared(w) == LengthSquared(v);
    var len := Length(m, v);
    assert Length(m, w) == len;
    NegatedQuotient(v.x, len);
    NegatedQuotient(v.y, len);
    NegatedQuotient(v.z, len);
  }

  lemma NegatedQuotient(a: real, k: real)
    requires k != 0.0
    ensures a * -1.0 / k == a / k * -1.0
  {
  }

  /** The length the Vector unit tests expect. */
  lemma LengthExample()
    ensures LengthSquared(Point3D(1.0, 2.0, 3.0)) == 14.0
  {
  }

  /** The dot product the Vector unit tests expect. */
  lemma DotExample()
    ensures Dot(Point3D(1.0, 2.0, 3.0), Point3D(4.0, 5.0, 6.0)) == 32.0
  {
  }

  /** Scaling by zero is refused. */
  lemma ScaleZeroExample()
    ensures Scale(Point3D(1.0, 2.0, 3.0), 0.0).Fail?
  {
  }

  /** The cross product the Vector unit tests expect to be refused. */
  lemma CrossExample()
    ensures Cross(Point3D(1.0, 2.0, 3.0), Point3D(-2.0, -4.0, -6.0)).Fail?
  {
    CrossParallelFails(Point3D(1.0, 2.0, 3.0), -2.0);
  }

  /** A Vector object; `normalize` overwrites its head in place. */
  class VectorObject {
    var head: Vector

    constructor (head: Vector)
      ensures this.head == head
    {
      this.head := head;
    }

    /** normalize(): replaces the head by the unit vector along it and
      * returns the same object. */
    method Normalize(m: MathLib) returns (self: VectorObject)
      requires Lawful(m)
      modifies this
      ensures self == this
      ensures head == UnitOf(m, old(head))
      ensures LengthSquared(head) == 1.0
    {
      head := UnitOf(m, head);
      self := this;
    }

    /** normalized(): a fresh object holding the unit vector along this one;
      * this object is left as it was. */
    method Normalized(m: MathLib) returns (r: VectorObject)
      requires Lawful(m)
      ensures fresh(r)
      ensures r.head == UnitOf(m, head)
    {
      r := new VectorObject(head);
      r := r.Normalize(m);
    }
  }
}
