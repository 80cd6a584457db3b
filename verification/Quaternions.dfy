/** Quaternions, their rotation matrices, and rigid transforms in both directions. */
module Quaternions {
  import opened Values
  import opened RealMath

  datatype Quat = Quat(x: real, y: real, z: real, w: real)

  /** Rows of a three by three matrix. */
  datatype Matrix = Matrix(a: Vec, b: Vec, c: Vec)

  function Size2(q: Quat): real {
    q.x * q.x + q.y * q.y + q.z * q.z + q.w * q.w
  }

  predicate Unit(q: Quat) {
    Size2(q) == 1.0
  }

  function Inverse(q: Quat): Quat {
    Quat(-q.x, -q.y, -q.z, q.w)
  }

  function Multiply(l: Quat, r: Quat): Quat {
    Quat(
      l.w * r.x + l.x * r.w + l.y * r.z - l.z * r.y,
      l.w * r.y - l.x * r.z + l.y * r.w + l.z * r.x,
      l.w * r.z + l.x * r.y - l.y * r.x + l.z * r.w,
      l.w * r.w - l.x * r.x - l.y * r.y - l.z * r.z)
  }

  function Leading(y: real, z: real): real { 1.0 - 2.0 * (y * y + z * z) }

  function Minus(x: real, y: real, z: real, w: real): real { 2.0 * (x * y - z * w) }

  function Plus(x: real, y: real, z: real, w: real): real { 2.0 * (x * y + z * w) }

  /** Each row is the one before with the axes moved on. */
  function RotationMatrix(q: Quat): Matrix {
    var Quat(x, y, z, w) := q;
    Matrix(
      Vec(Leading(y, z), Minus(x, y, z, w), Plus(z, x, y, w)),
      Vec(Plus(x, y, z, w), Leading(z, x), Minus(y, z, x, w)),
      Vec(Minus(z, x, y, w), Plus(y, z, x, w), Leading(x, y)))
  }

  function Transpose(m: Matrix): Matrix {
    Matrix(Vec(m.a.x, m.b.x, m.c.x), Vec(m.a.y, m.b.y, m.c.y), Vec(m.a.z, m.b.z, m.c.z))
  }

  function Apply(m: Matrix, v: Vec): Vec {
    Vec(Dot(m.a, v), Dot(m.b, v), Dot(m.c, v))
  }

  function Determinant(m: Matrix): real {
    Prod(m.a.x, Prod(m.b.y, m.c.z) - Prod(m.b.z, m.c.y)) - Prod(m.a.y, Prod(m.b.x, m.c.z) - Prod(m.b.z, m.c.x)) +
    Prod(m.a.z, Prod(m.b.x, m.c.y) - Prod(m.b.y, m.c.x))
  }

  // ---- quaternions ------------------------------------------------------------

  function Normalize(q: Quat, sqrt: real -> real): Option<Quat> {
    var norm := sqrt(Size2(q));
    if norm <= 0.000000001 then None else Some(Quat(q.x / norm, q.y / norm, q.z / norm, q.w / norm))
  }

  lemma ScaledPart(x: real, n: real)
    requires n > 0.0
    ensures Prod(Prod(x / n, x / n), Prod(n, n)) == Prod(x, x)
  {
    assert x / n * n == x;
    assert (x / n) * (x / n) * (n * n) == (x / n * n) * (x / n * n);
  }

  lemma SizeAsProducts(q: Quat)
    ensures Size2(q) == Prod(q.x, q.x) + Prod(q.y, q.y) + Prod(q.z, q.z) + Prod(q.w, q.w) && Size2(q) >= 0.0
  {
    SquareNonNegative(q.x);
    SquareNonNegative(q.y);
    SquareNonNegative(q.z);
    SquareNonNegative(q.w);
  }

  lemma FourParts(a: real, b: real, c: real, d: real, n: real)
    ensures Prod(a + b + c + d, n) == Prod(a, n) + Prod(b, n) + Prod(c, n) + Prod(d, n)
  {
  }

  lemma NormalizedSize(q: Quat, n: real)
    requires n > 0.0 && Prod(n, n) == Size2(q)
    ensures Unit(Quat(q.x / n, q.y / n, q.z / n, q.w / n))
  {
    var r := Quat(q.x / n, q.y / n, q.z / n, q.w / n);
    SizeAsProducts(q);
    SizeAsProducts(r);
    hide Prod, Size2;
    ScaledPart(q.x, n);
    ScaledPart(q.y, n);
    ScaledPart(q.z, n);
    ScaledPart(q.w, n);
    var m := Prod(n, n);
    FourParts(Prod(r.x, r.x), Prod(r.y, r.y), Prod(r.z, r.z), Prod(r.w, r.w), m);
    ProdPositive(n, n);
    ProdOne(m);
    ProdCancels(Size2(r), 1.0, m);
    ProdCancels(1.0, Size2(r), m);
  }

  /** Normalizing gives a unit quaternion or nothing. */
  lemma NormalizedIsUnit(q: Quat, sqrt: real -> real)
    requires IsSqrt(sqrt)
    ensures Normalize(q, sqrt).Some? ==> Unit(Normalize(q, sqrt).value)
  {
    SizeAsProducts(q);
    var n := sqrt(Size2(q));
    assert Prod(n, n) == Size2(q);
    hide Prod, Size2, Unit;
    if n > 0.000000001 { NormalizedSize(q, n); }
  }

  /** Regrouping a product of four factors. */
  lemma Regroup(a: real, x: real, b: real, y: real)
    ensures Prod(Prod(a, x), Prod(b, y)) == Prod(Prod(a, y), Prod(b, x))
    ensures Prod(Prod(a, x), Prod(a, x)) == Prod(Prod(a, a), Prod(x, x))
  {
    assert (a * x) * (b * y) == (a * y) * (b * x);
    assert (a * x) * (a * x) == (a * a) * (x * x);
  }

  lemma SquareOfFour(a: real, b: real, c: real, d: real)
    ensures var s := a + b + c + d;
            Prod(s, s) == Prod(a, a) + Prod(b, b) + Prod(c, c) + Prod(d, d) +
                          2.0 * (Prod(a, b) + Prod(a, c) + Prod(a, d) + Prod(b, c) + Prod(b, d) + Prod(c, d))
  {
  }

  lemma Negated(a: real, b: real)
    ensures Prod(a, -b) == -Prod(a, b) && Prod(-a, b) == -Prod(a, b) && Prod(-a, -b) == Prod(a, b)
  {
  }

  /** The square of a signed sum of four. */
  lemma SquareOfSigned(a: real, b: real, c: real, d: real)
    ensures var s := a + b + c - d;
            Prod(s, s) == Prod(a, a) + Prod(b, b) + Prod(c, c) + Prod(d, d) +
                          2.0 * (Prod(a, b) + Prod(a, c) - Prod(a, d) + Prod(b, c) - Prod(b, d) - Prod(c, d))
    ensures var s := a - b - c - d;
            Prod(s, s) == Prod(a, a) + Prod(b, b) + Prod(c, c) + Prod(d, d) +
                          2.0 * (-Prod(a, b) - Prod(a, c) - Prod(a, d) + Prod(b, c) + Prod(b, d) + Prod(c, d))
  {
    hide Prod;
    SquareOfFour(a, b, c, -d);
    SquareOfFour(a, -b, -c, -d);
    Negated(a, d);
    Negated(b, d);
    Negated(c, d);
    Negated(d, d);
    Negated(a, b);
    Negated(a, c);
    Negated(b, c);
    Negated(b, b);
    Negated(c, c);
  }

  lemma SizeTimesSize(l: Quat, r: Quat)
    requires Unit(l) && Unit(r)
    ensures (Prod(Prod(l.x, l.x), Prod(r.x, r.x)) + Prod(Prod(l.x, l.x), Prod(r.y, r.y)) + Prod(Prod(l.x, l.x), Prod(r.z, r.z)) + Prod(Prod(l.x, l.x), Prod(r.w, r.w))) +
            (Prod(Prod(l.y, l.y), Prod(r.x, r.x)) + Prod(Prod(l.y, l.y), Prod(r.y, r.y)) + Prod(Prod(l.y, l.y), Prod(r.z, r.z)) + Prod(Prod(l.y, l.y), Prod(r.w, r.w))) +
            (Prod(Prod(l.z, l.z), Prod(r.x, r.x)) + Prod(Prod(l.z, l.z), Prod(r.y, r.y)) + Prod(Prod(l.z, l.z), Prod(r.z, r.z)) + Prod(Prod(l.z, l.z), Prod(r.w, r.w))) +
            (Prod(Prod(l.w, l.w), Prod(r.x, r.x)) + Prod(Prod(l.w, l.w), Prod(r.y, r.y)) + Prod(Prod(l.w, l.w), Prod(r.z, r.z)) + Prod(Prod(l.w, l.w), Prod(r.w, r.w))) == 1.0
  {
    SizeAsProducts(l);
    SizeAsProducts(r);
    hide Prod, Size2;
    var x, y, z, w := Prod(r.x, r.x), Prod(r.y, r.y), Prod(r.z, r.z), Prod(r.w, r.w);
    RightSum(Prod(l.x, l.x), x, y, z, w);
    RightSum(Prod(l.y, l.y), x, y, z, w);
    RightSum(Prod(l.z, l.z), x, y, z, w);
    RightSum(Prod(l.w, l.w), x, y, z, w);
  }

  lemma RightSum(a: real, x: real, y: real, z: real, w: real)
    requires x + y + z + w == 1.0
    ensures Prod(a, x) + Prod(a, y) + Prod(a, z) + Prod(a, w) == a
  {
    assert a * (x + y + z + w) == a;
    assert a * (x + y + z + w) == a * x + a * y + a * z + a * w;
  }

  /** Each component of a product, in signed products. */
  lemma MultiplyAsProducts(l: Quat, r: Quat)
    ensures var m := Multiply(l, r);
            && m.x == Prod(l.w, r.x) + Prod(l.x, r.w) + Prod(l.y, r.z) - Prod(l.z, r.y)
            && m.y == Prod(l.w, r.y) + Prod(l.y, r.w) + Prod(l.z, r.x) - Prod(l.x, r.z)
            && m.z == Prod(l.w, r.z) + Prod(l.x, r.y) + Prod(l.z, r.w) - Prod(l.y, r.x)
            && m.w == Prod(l.w, r.w) - Prod(l.x, r.x) - Prod(l.y, r.y) - Prod(l.z, r.z)
  {
  }

  /** In a product of unit quaternions the mixed terms cancel and the squares add up. */
  lemma FourSquares(l: Quat, r: Quat)
    requires Unit(l) && Unit(r)
    ensures Unit(Multiply(l, r))
  {
    var m := Multiply(l, r);
    SizeAsProducts(m);
    SizeTimesSize(l, r);
    MultiplyAsProducts(l, r);
    hide Prod, Size2, Multiply;
    SquareOfSigned(Prod(l.w, r.x), Prod(l.x, r.w), Prod(l.y, r.z), Prod(l.z, r.y));
    SquareOfSigned(Prod(l.w, r.y), Prod(l.y, r.w), Prod(l.z, r.x), Prod(l.x, r.z));
    SquareOfSigned(Prod(l.w, r.z), Prod(l.x, r.y), Prod(l.z, r.w), Prod(l.y, r.x));
    SquareOfSigned(Prod(l.w, r.w), Prod(l.x, r.x), Prod(l.y, r.y), Prod(l.z, r.z));
    Squares(l, r);
    MixedTerms(l, r);
  }

  lemma Squares(l: Quat, r: Quat)
    ensures forall a, x | a in {l.x, l.y, l.z, l.w} && x in {r.x, r.y, r.z, r.w} ::
              Prod(Prod(a, x), Prod(a, x)) == Prod(Prod(a, a), Prod(x, x))
  {
    hide Prod;
    forall a, x | a in {l.x, l.y, l.z, l.w} && x in {r.x, r.y, r.z, r.w} ensures Prod(Prod(a, x), Prod(a, x)) == Prod(Prod(a, a), Prod(x, x)) {
      Regroup(a, x, a, x);
    }
  }

  /** The mixed terms of the four components cancel in pairs. */
  lemma MixedTerms(l: Quat, r: Quat)
    ensures Prod(Prod(l.w, r.x), Prod(l.x, r.w)) == Prod(Prod(l.w, r.w), Prod(l.x, r.x))
    ensures Prod(Prod(l.w, r.x), Prod(l.y, r.z)) == Prod(Prod(l.w, r.z), Prod(l.y, r.x))
    ensures Prod(Prod(l.w, r.x), Prod(l.z, r.y)) == Prod(Prod(l.w, r.y), Prod(l.z, r.x))
    ensures Prod(Prod(l.x, r.w), Prod(l.y, r.z)) == Prod(Prod(l.y, r.w), Prod(l.x, r.z))
    ensures Prod(Prod(l.x, r.w), Prod(l.z, r.y)) == Prod(Prod(l.x, r.y), Prod(l.z, r.w))
    ensures Prod(Prod(l.y, r.z), Prod(l.z, r.y)) == Prod(Prod(l.y, r.y), Prod(l.z, r.z))
    ensures Prod(Prod(l.w, r.y), Prod(l.y, r.w)) == Prod(Prod(l.w, r.w), Prod(l.y, r.y))
    ensures Prod(Prod(l.w, r.y), Prod(l.x, r.z)) == Prod(Prod(l.w, r.z), Prod(l.x, r.y))
    ensures Prod(Prod(l.y, r.w), Prod(l.z, r.x)) == Prod(Prod(l.z, r.w), Prod(l.y, r.x))
    ensures Prod(Prod(l.z, r.x), Prod(l.x, r.z)) == Prod(Prod(l.x, r.x), Prod(l.z, r.z))
    ensures Prod(Prod(l.w, r.z), Prod(l.z, r.w)) == Prod(Prod(l.w, r.w), Prod(l.z, r.z))
    ensures Prod(Prod(l.x, r.y), Prod(l.y, r.x)) == Prod(Prod(l.x, r.x), Prod(l.y, r.y))
  {
    hide Prod;
    Regroup(l.w, r.x, l.x, r.w);
    Regroup(l.w, r.x, l.y, r.z);
    Regroup(l.w, r.x, l.z, r.y);
    Regroup(l.x, r.w, l.y, r.z);
    ProdCommutes(Prod(l.x, r.z), Prod(l.y, r.w));
    Regroup(l.x, r.w, l.z, r.y);
    Regroup(l.y, r.z, l.z, r.y);
    Regroup(l.w, r.y, l.y, r.w);
    Regroup(l.w, r.y, l.x, r.z);
    Regroup(l.y, r.w, l.z, r.x);
    ProdCommutes(Prod(l.y, r.x), Prod(l.z, r.w));
    Regroup(l.z, r.x, l.x, r.z);
    ProdCommutes(Prod(l.z, r.z), Prod(l.x, r.x));
    Regroup(l.w, r.z, l.z, r.w);
    Regroup(l.x, r.y, l.y, r.x);
  }

  /** Products and inverses of unit quaternions are unit quaternions. */
  lemma ProductIsUnit(l: Quat, r: Quat)
    requires Unit(l) && Unit(r)
    ensures Unit(Multiply(l, r)) && Unit(Inverse(r))
  {
    FourSquares(l, r);
    SizeTurned(r);
    hide Multiply, Inverse, Size2;
  }

  // ---- rotation matrices ------------------------------------------------------

  function Diagonal(x: real, y: real, z: real, w: real): real { w * w + x * x - y * y - z * z }

  /** The rotation matrix with the unit replaced by the size: its entries are homogeneous. */
  function Homogeneous(q: Quat): Matrix {
    var Quat(x, y, z, w) := q;
    Matrix(
      Vec(Diagonal(x, y, z, w), Minus(x, y, z, w), Plus(z, x, y, w)),
      Vec(Plus(x, y, z, w), Diagonal(y, z, x, w), Minus(y, z, x, w)),
      Vec(Minus(z, x, y, w), Plus(y, z, x, w), Diagonal(z, x, y, w)))
  }

  lemma UnitIsHomogeneous(q: Quat)
    requires Unit(q)
    ensures RotationMatrix(q) == Homogeneous(q)
  {
    hide Diagonal, Leading, Minus, Plus;
    UnitDiagonal(q.x, q.y, q.z, q.w);
    UnitDiagonal(q.y, q.z, q.x, q.w);
    UnitDiagonal(q.z, q.x, q.y, q.w);
  }

  lemma UnitDiagonal(x: real, y: real, z: real, w: real)
    requires x * x + y * y + z * z + w * w == 1.0
    ensures Diagonal(x, y, z, w) == Leading(y, z)
  {
  }

  /** Rows have length one and are at right angles. */
  predicate OrthonormalRows(m: Matrix) {
    && Dot(m.a, m.a) == 1.0 && Dot(m.b, m.b) == 1.0 && Dot(m.c, m.c) == 1.0
    && Dot(m.a, m.b) == 0.0 && Dot(m.a, m.c) == 0.0 && Dot(m.b, m.c) == 0.0
  }

  predicate Rotation(m: Matrix) {
    OrthonormalRows(m) && OrthonormalRows(Transpose(m)) && Determinant(m) == 1.0
  }

  lemma RowLength(x: real, y: real, z: real, w: real)
    requires x * x + y * y + z * z + w * w == 1.0
    ensures var a, b, c := Diagonal(x, y, z, w), Minus(x, y, z, w), Plus(z, x, y, w); Prod(a, a) + Prod(b, b) + Prod(c, c) == 1.0
  {
    var a, b, c := Diagonal(x, y, z, w), Minus(x, y, z, w), Plus(z, x, y, w);
    var n := x * x + y * y + z * z + w * w;
    assert a * a + b * b + c * c == n * n;
  }

  lemma RowLengths(q: Quat)
    requires Unit(q)
    ensures var m := Homogeneous(q); Dot(m.a, m.a) == 1.0 && Dot(m.b, m.b) == 1.0 && Dot(m.c, m.c) == 1.0
  {
    hide Prod, Diagonal, Minus, Plus;
    RowLength(q.x, q.y, q.z, q.w);
    RowLength(q.y, q.z, q.x, q.w);
    RowLength(q.z, q.x, q.y, q.w);
  }

  lemma RowAngle(x: real, y: real, z: real, w: real)
    ensures Prod(Diagonal(x, y, z, w), Plus(x, y, z, w)) + Prod(Minus(x, y, z, w), Diagonal(y, z, x, w)) +
            Prod(Plus(z, x, y, w), Minus(y, z, x, w)) == 0.0
  {
  }

  lemma RowAngles(q: Quat)
    ensures var m := Homogeneous(q); Dot(m.a, m.b) == 0.0 && Dot(m.b, m.c) == 0.0 && Dot(m.c, m.a) == 0.0
  {
    hide Prod, Diagonal, Minus, Plus;
    RowAngle(q.x, q.y, q.z, q.w);
    RowAngle(q.y, q.z, q.x, q.w);
    RowAngle(q.z, q.x, q.y, q.w);
  }

  lemma HomogeneousRows(q: Quat)
    requires Unit(q)
    ensures OrthonormalRows(Homogeneous(q))
  {
    RowLengths(q);
    RowAngles(q);
    hide Homogeneous, Dot;
    DotCommutes(Homogeneous(q).c, Homogeneous(q).a);
  }

  lemma Turned(x: real, y: real, z: real, w: real)
    ensures Diagonal(-x, -y, -z, w) == Diagonal(x, y, z, w)
    ensures Minus(-x, -y, -z, w) == Plus(x, y, z, w) && Plus(-x, -y, -z, w) == Minus(x, y, z, w)
  {
  }

  lemma SizeTurned(q: Quat)
    ensures Size2(Inverse(q)) == Size2(q)
  {
  }

  /** Turning the other way transposes the matrix. */
  lemma InverseTransposes(q: Quat)
    ensures Transpose(Homogeneous(q)) == Homogeneous(Inverse(q))
  {
    hide Diagonal, Minus, Plus;
    Turned(q.x, q.y, q.z, q.w);
    Turned(q.y, q.z, q.x, q.w);
    Turned(q.z, q.x, q.y, q.w);
  }

  function Norm(x: real, y: real, z: real, w: real): real {
    x * x + y * y + z * z + w * w
  }

  lemma DiagonalIdentity(x: real, y: real, z: real, w: real)
    ensures Diagonal(y, z, x, w) * Diagonal(z, x, y, w) - Minus(y, z, x, w) * Plus(y, z, x, w) == Norm(x, y, z, w) * Diagonal(x, y, z, w)
  {
  }

  lemma MinusIdentity(x: real, y: real, z: real, w: real)
    ensures Plus(x, y, z, w) * Diagonal(z, x, y, w) - Minus(y, z, x, w) * Minus(z, x, y, w) == -Norm(x, y, z, w) * Minus(x, y, z, w)
  {
  }

  lemma PlusIdentity(x: real, y: real, z: real, w: real)
    ensures Plus(x, y, z, w) * Plus(y, z, x, w) - Diagonal(y, z, x, w) * Minus(z, x, y, w) == Norm(x, y, z, w) * Plus(z, x, y, w)
  {
  }

  lemma CrossDiagonal(x: real, y: real, z: real, w: real)
    requires Norm(x, y, z, w) == 1.0
    ensures Prod(Diagonal(y, z, x, w), Diagonal(z, x, y, w)) - Prod(Minus(y, z, x, w), Plus(y, z, x, w)) == Diagonal(x, y, z, w)
  {
    hide Diagonal, Minus, Plus, Norm;
    DiagonalIdentity(x, y, z, w);
  }

  lemma CrossMinus(x: real, y: real, z: real, w: real)
    requires Norm(x, y, z, w) == 1.0
    ensures Prod(Plus(x, y, z, w), Diagonal(z, x, y, w)) - Prod(Minus(y, z, x, w), Minus(z, x, y, w)) == -Minus(x, y, z, w)
  {
    hide Diagonal, Minus, Plus, Norm;
    MinusIdentity(x, y, z, w);
  }

  lemma CrossPlus(x: real, y: real, z: real, w: real)
    requires Norm(x, y, z, w) == 1.0
    ensures Prod(Plus(x, y, z, w), Plus(y, z, x, w)) - Prod(Diagonal(y, z, x, w), Minus(z, x, y, w)) == Plus(z, x, y, w)
  {
    hide Diagonal, Minus, Plus, Norm;
    PlusIdentity(x, y, z, w);
  }

  lemma MinusTimes(a: real)
    ensures Prod(a, -a) == -Prod(a, a)
  {
  }

  lemma UnitDeterminant(q: Quat)
    requires Unit(q)
    ensures Determinant(Homogeneous(q)) == 1.0
  {
    hide Prod, Diagonal, Minus, Plus;
    CrossDiagonal(q.x, q.y, q.z, q.w);
    CrossMinus(q.x, q.y, q.z, q.w);
    CrossPlus(q.x, q.y, q.z, q.w);
    MinusTimes(Minus(q.x, q.y, q.z, q.w));
    RowLength(q.x, q.y, q.z, q.w);
  }

  /** The matrix of a unit quaternion is orthonormal both ways and has determinant one. */
  lemma UnitGivesRotation(q: Quat)
    requires Unit(q)
    ensures Rotation(RotationMatrix(q))
  {
    UnitIsHomogeneous(q);
    InverseTransposes(q);
    SizeTurned(q);
    UnitDeterminant(q);
    hide Homogeneous, RotationMatrix, Transpose, Determinant, Inverse, OrthonormalRows;
    HomogeneousRows(q);
    HomogeneousRows(Inverse(q));
  }

  predicate Close(a: real, b: real, tolerance: real) {
    Abs(a - b) <= tolerance
  }

  /** The evaluator's test of a rotation matrix. */
  predicate RotationMatrixValid(m: Matrix, tolerance: real) {
    var t := Transpose(m);
    && Close(Dot(t.a, t.a), 1.0, tolerance) && Close(Dot(t.b, t.b), 1.0, tolerance) && Close(Dot(t.c, t.c), 1.0, tolerance)
    && Close(Dot(t.a, t.b), 0.0, tolerance) && Close(Dot(t.a, t.c), 0.0, tolerance) && Close(Dot(t.b, t.c), 0.0, tolerance)
    && Close(Dot(t.b, t.a), 0.0, tolerance) && Close(Dot(t.c, t.a), 0.0, tolerance) && Close(Dot(t.c, t.b), 0.0, tolerance)
    && Close(Determinant(m), 1.0, tolerance)
  }

  lemma DotCommutes(a: Vec, b: Vec)
    ensures Dot(a, b) == Dot(b, a)
  {
  }

  /** The matrix of a unit quaternion passes the test at any tolerance. */
  lemma UnitPassesTest(q: Quat, tolerance: real)
    requires Unit(q) && tolerance >= 0.0
    ensures RotationMatrixValid(RotationMatrix(q), tolerance)
  {
    UnitGivesRotation(q);
    hide RotationMatrix, Transpose, Determinant, Dot;
    var t := Transpose(RotationMatrix(q));
    DotCommutes(t.a, t.b);
    DotCommutes(t.a, t.c);
    DotCommutes(t.b, t.c);
  }

  // ---- transforms -------------------------------------------------------------

  lemma ApplyTwice(m: Matrix, v: Vec)
    ensures var t := Transpose(m);
            Apply(t, Apply(m, v)) == Vec(
              Dot(t.a, t.a) * v.x + Dot(t.a, t.b) * v.y + Dot(t.a, t.c) * v.z,
              Dot(t.a, t.b) * v.x + Dot(t.b, t.b) * v.y + Dot(t.b, t.c) * v.z,
              Dot(t.a, t.c) * v.x + Dot(t.b, t.c) * v.y + Dot(t.c, t.c) * v.z)
  {
  }

  lemma TransposeTwice(m: Matrix)
    ensures Transpose(Transpose(m)) == m
  {
  }

  /** A rotation and its transpose undo each other. */
  lemma RotationUndone(m: Matrix, v: Vec)
    requires Rotation(m)
    ensures Apply(Transpose(m), Apply(m, v)) == v && Apply(m, Apply(Transpose(m), v)) == v
  {
    ApplyTwice(m, v);
    ApplyTwice(Transpose(m), v);
    TransposeTwice(m);
    hide Apply, Transpose, Dot, Determinant;
  }

  lemma ApplyDifference(m: Matrix, a: Vec, b: Vec)
    ensures Apply(m, Sub(a, b)) == Sub(Apply(m, a), Apply(m, b))
  {
  }

  lemma NormOfApply(m: Matrix, v: Vec)
    ensures Norm2(Apply(m, v)) == Dot(v, Apply(Transpose(m), Apply(m, v)))
  {
  }

  lemma RotationKeepsLength(m: Matrix, v: Vec)
    requires Rotation(m)
    ensures Norm2(Apply(m, v)) == Norm2(v) && Norm2(Apply(Transpose(m), v)) == Norm2(v)
  {
    NormOfApply(m, v);
    NormOfApply(Transpose(m), v);
    TransposeTwice(m);
    RotationUndone(m, v);
    hide Apply, Transpose, Rotation;
  }

  datatype Direction = TargetToSource | SourceToTarget

  datatype Transform = Transform(rotation: Matrix, translation: Vec, direction: Direction)

  const NONE: Vec := Vec(0.0, 0.0, 0.0)

  /** A position, or a free vector, in the other frame. */
  function ApplyFrameTransform(v: Vec, t: Transform, isPosition: bool): Vec {
    var shift := if isPosition then t.translation else NONE;
    if t.direction.TargetToSource? then Add(Apply(t.rotation, v), shift)
    else Apply(Transpose(t.rotation), Sub(v, shift))
  }

  function Opposite(t: Transform): Transform {
    t.(direction := if t.direction.TargetToSource? then SourceToTarget else TargetToSource)
  }

  lemma AddSub(a: Vec, b: Vec)
    ensures Sub(Add(a, b), b) == a && Add(Sub(a, b), b) == a
  {
  }

  /** The two directions of a rigid transform undo each other. */
  lemma DirectionsUndoEachOther(v: Vec, t: Transform, isPosition: bool)
    requires Rotation(t.rotation)
    ensures ApplyFrameTransform(ApplyFrameTransform(v, t, isPosition), Opposite(t), isPosition) == v
  {
    hide Apply, Transpose, Rotation, Add, Sub;
    var shift := if isPosition then t.translation else NONE;
    RotationUndone(t.rotation, v);
    RotationUndone(t.rotation, Sub(v, shift));
    AddSub(Apply(t.rotation, v), shift);
    AddSub(v, shift);
  }

  lemma ShiftCancels(a: Vec, b: Vec, s: Vec)
    ensures Sub(Add(a, s), Add(b, s)) == Sub(a, b) && Sub(Sub(a, s), Sub(b, s)) == Sub(a, b)
  {
  }

  /** Either direction keeps the distance between two points. */
  lemma TransformKeepsDistance(a: Vec, b: Vec, t: Transform, isPosition: bool)
    requires Rotation(t.rotation)
    ensures Norm2(Sub(ApplyFrameTransform(a, t, isPosition), ApplyFrameTransform(b, t, isPosition))) == Norm2(Sub(a, b))
  {
    hide Apply, Transpose, Rotation, Add, Sub, Norm2;
    var m := t.rotation;
    var shift := if isPosition then t.translation else NONE;
    RotationKeepsLength(m, Sub(a, b));
    ApplyDifference(m, a, b);
    ApplyDifference(Transpose(m), Sub(a, shift), Sub(b, shift));
    ShiftCancels(Apply(m, a), Apply(m, b), shift);
    ShiftCancels(a, b, shift);
  }
}
