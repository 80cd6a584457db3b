/** Signed distances to boxes and cylinders, and their minimum along a swept segment. */
module CollisionGeometry {
  import opened RealMath
  import opened TernarySearch

  function Pos(x: real): real {
    if x < 0.0 then 0.0 else x
  }

  function Max(a: real, b: real): real {
    if b > a then b else a
  }

  function Hypot(a: real, b: real, sqrt: real -> real): real {
    sqrt(Prod(a, a) + Prod(b, b))
  }

  // ---- the distances ----------------------------------------------------------

  /** A point relative to a center, in axes turned by roll, pitch and yaw. */
  function Rotate(d: Vec, rpy: Vec, cos: real -> real, sin: real -> real): Vec {
    var cr, sr := cos(rpy.x), sin(rpy.x);
    var cp, sp := cos(rpy.y), sin(rpy.y);
    var cy, sy := cos(rpy.z), sin(rpy.z);
    Rows(cr, sr, cp, sp, cy, sy, d)
  }

  function Rows(cr: real, sr: real, cp: real, sp: real, cy: real, sy: real, d: Vec): Vec {
    Vec(
      Row(cp * cy, cp * sy, -sp, d),
      Row(sr * sp * cy - cr * sy, sr * sp * sy + cr * cy, sr * cp, d),
      Row(cr * sp * cy + sr * sy, cr * sp * sy - sr * cy, cr * cp, d))
  }

  function Row(x: real, y: real, z: real, d: Vec): real {
    Prod(x, d.x) + Prod(y, d.y) + Prod(z, d.z)
  }

  /** How far each coordinate is beyond its half extent. */
  function Excess(local: Vec, half: Vec): Vec {
    Vec(Abs(local.x) - half.x, Abs(local.y) - half.y, Abs(local.z) - half.z)
  }

  function Squares(q: Vec): real {
    Prod(Pos(q.x), Pos(q.x)) + Prod(Pos(q.y), Pos(q.y)) + Prod(Pos(q.z), Pos(q.z))
  }

  /** Distance outside, depth inside. */
  function Rounded(q: Vec, sqrt: real -> real): real {
    sqrt(Squares(q)) + Min(Max(Max(q.x, q.y), q.z), 0.0)
  }

  /** The oriented box as a distance function of the point. */
  function Box(center: Vec, half: Vec, rpy: Vec, sqrt: real -> real, cos: real -> real, sin: real -> real): Vec -> real {
    (p: Vec) => Rounded(Excess(Rotate(Sub(p, center), rpy, cos, sin), half), sqrt)
  }

  function Rounded2(radial: real, vertical: real, sqrt: real -> real): real {
    Hypot(Pos(radial), Pos(vertical), sqrt) + Min(Max(radial, vertical), 0.0)
  }

  /** The vertical cylinder as a distance function of the point. */
  function Cylinder(center: Vec, radius: real, halfHeight: real, sqrt: real -> real): Vec -> real {
    (p: Vec) => Rounded2(Hypot(p.x - center.x, p.y - center.y, sqrt) - radius, Abs(p.z - center.z) - halfHeight, sqrt)
  }

  // ---- support directions -----------------------------------------------------

  /** Non-negative weights of length at most one and sum at least one. */
  predicate Direction(w: Vec) {
    w.x >= 0.0 && w.y >= 0.0 && w.z >= 0.0 && Norm2(w) <= 1.0 && w.x + w.y + w.z >= 1.0
  }

  function PosVec(q: Vec): Vec {
    Vec(Pos(q.x), Pos(q.y), Pos(q.z))
  }

  lemma DotMonotone(w: Vec, a: Vec, b: Vec)
    requires w.x >= 0.0 && w.y >= 0.0 && w.z >= 0.0 && a.x <= b.x && a.y <= b.y && a.z <= b.z
    ensures Dot(w, a) <= Dot(w, b)
  {
    Along(a.x, b.x, w.x);
    Along(a.y, b.y, w.y);
    Along(a.z, b.z, w.z);
    hide Prod;
  }

  lemma Along(a: real, b: real, w: real)
    requires a <= b && w >= 0.0
    ensures Prod(w, a) <= Prod(w, b)
  {
    hide Prod;
    ProdMonotone(a, b, w);
    ProdCommutes(w, a);
    ProdCommutes(w, b);
  }

  lemma RootOfZero(sqrt: real -> real)
    requires IsSqrt(sqrt)
    ensures sqrt(0.0) == 0.0
  {
    hide Prod;
    assert sqrt(0.0) >= 0.0 && Prod(sqrt(0.0), sqrt(0.0)) == 0.0;
    SquareNonNegative(sqrt(0.0));
  }

  lemma SquaresNonNegative(q: Vec)
    ensures Squares(q) >= 0.0 && Squares(q) == Norm2(PosVec(q))
  {
    hide Prod;
    NormNonNegative(PosVec(q));
  }

  lemma NoSquares(q: Vec)
    requires q.x <= 0.0 && q.y <= 0.0 && q.z <= 0.0
    ensures Squares(q) == 0.0
  {
  }

  /** Below zero everywhere: no direction gains more than the largest coordinate. */
  lemma Depth(w: Vec, q: Vec, m: real)
    requires Direction(w) && q.x <= m && q.y <= m && q.z <= m && m <= 0.0
    ensures Dot(w, q) <= m
  {
    hide Prod;
    DotMonotone(w, q, Vec(m, m, m));
    ProdSum(w.x, w.y, w.z, m);
    var s := w.x + w.y + w.z;
    Along(m, 0.0, s - 1.0);
    ProdDifference(s, 1.0, m);
    ProdOne(m);
    ProdCommutes(0.0, s - 1.0);
    ProdOne(s - 1.0);
  }

  lemma RoundedInside(q: Vec, sqrt: real -> real)
    requires IsSqrt(sqrt) && q.x <= 0.0 && q.y <= 0.0 && q.z <= 0.0
    ensures Rounded(q, sqrt) == Max(Max(q.x, q.y), q.z)
  {
    NoSquares(q);
    RootOfZero(sqrt);
  }

  lemma RoundedOutside(q: Vec, sqrt: real -> real)
    requires IsSqrt(sqrt) && (q.x > 0.0 || q.y > 0.0 || q.z > 0.0)
    ensures var n := Rounded(q, sqrt); n > 0.0 && Prod(n, n) == Norm2(PosVec(q))
  {
    hide Prod, IsSqrt, Squares;
    SquaresNonNegative(q);
    SquaresPositive(q);
    RootPositive(Squares(q), sqrt);
  }

  lemma PositivePart(a: real)
    ensures Prod(Pos(a), Pos(a)) >= 0.0 && (a > 0.0 ==> Prod(Pos(a), Pos(a)) > 0.0)
  {
    hide Prod;
    SquareNonNegative(Pos(a));
  }

  lemma SquaresPositive(q: Vec)
    requires q.x > 0.0 || q.y > 0.0 || q.z > 0.0
    ensures Squares(q) > 0.0
  {
    hide Prod, Pos;
    PositivePart(q.x);
    PositivePart(q.y);
    PositivePart(q.z);
  }

  lemma RootPositive(x: real, sqrt: real -> real)
    requires IsSqrt(sqrt) && x > 0.0
    ensures sqrt(x) > 0.0 && Prod(sqrt(x), sqrt(x)) == x
  {
    hide Prod;
    ProdOne(0.0);
  }

  /** Every direction supports the rounded distance from below. */
  lemma Support(q: Vec, w: Vec, sqrt: real -> real)
    requires IsSqrt(sqrt) && Direction(w)
    ensures Dot(w, q) <= Rounded(q, sqrt)
  {
    hide Prod, Rounded, Dot, IsSqrt;
    if q.x <= 0.0 && q.y <= 0.0 && q.z <= 0.0 {
      RoundedInside(q, sqrt);
      Depth(w, q, Max(Max(q.x, q.y), q.z));
    } else {
      RoundedOutside(q, sqrt);
      DotMonotone(w, q, PosVec(q));
      Reach(w, PosVec(q), Rounded(q, sqrt));
    }
  }

  lemma ScaledSquare(x: real, w: real, n: real)
    requires Prod(w, n) == x
    ensures Prod(Prod(w, w), Prod(n, n)) == Prod(x, x)
  {
    assert (w * w) * (n * n) == (w * n) * (w * n);
  }

  lemma ScaledNorm(p: Vec, w: Vec, n: real)
    requires n > 0.0 && Prod(w.x, n) == p.x && Prod(w.y, n) == p.y && Prod(w.z, n) == p.z && Prod(n, n) == Norm2(p)
    ensures Norm2(w) <= 1.0
  {
    hide Prod;
    ScaledSquare(p.x, w.x, n);
    ScaledSquare(p.y, w.y, n);
    ScaledSquare(p.z, w.z, n);
    var m := Prod(n, n);
    ProdPositive(n, n);
    ProdSum(Prod(w.x, w.x), Prod(w.y, w.y), Prod(w.z, w.z), m);
    ProdOne(m);
    ProdCancels(Norm2(w), 1.0, m);
  }

  lemma SquareOfSum(a: real, b: real, c: real)
    ensures var s := a + b + c;
            Prod(s, s) == Prod(a, a) + Prod(b, b) + Prod(c, c) + 2.0 * (Prod(a, b) + Prod(a, c) + Prod(b, c))
  {
  }

  lemma SumAboveRoot(p: Vec, n: real)
    requires p.x >= 0.0 && p.y >= 0.0 && p.z >= 0.0 && Prod(n, n) == Norm2(p)
    ensures n <= p.x + p.y + p.z
  {
    hide Prod;
    SquareOfSum(p.x, p.y, p.z);
    ProdNonNegative(p.x, p.y);
    ProdNonNegative(p.x, p.z);
    ProdNonNegative(p.y, p.z);
    RootBound(n, p.x + p.y + p.z);
  }

  lemma PositiveWeight(p: real, w: real, n: real)
    requires n > 0.0 && Prod(w, n) == p && p >= 0.0
    ensures w >= 0.0 && (p == 0.0 ==> w == 0.0)
  {
    hide Prod;
    ProdOne(n);
    ProdCancels(0.0, w, n);
    if p == 0.0 { ProdCancels(w, 0.0, n); }
  }

  lemma PartProduct(q: real, w: real, n: real)
    requires Prod(w, n) == Pos(q)
    ensures Prod(Prod(w, q), n) == Prod(Pos(q), Pos(q))
  {
    assert (w * q) * n == (w * n) * q;
  }

  lemma AttainedValue(q: Vec, p: Vec, w: Vec, n: real)
    requires n > 0.0 && p == PosVec(q) && Prod(n, n) == Norm2(p)
    requires Prod(w.x, n) == p.x && Prod(w.y, n) == p.y && Prod(w.z, n) == p.z
    ensures Dot(w, q) == n
  {
    hide Prod;
    PartProduct(q.x, w.x, n);
    PartProduct(q.y, w.y, n);
    PartProduct(q.z, w.z, n);
    ProdSum(Prod(w.x, q.x), Prod(w.y, q.y), Prod(w.z, q.z), n);
    ProdCancels(Dot(w, q), n, n);
    ProdCancels(n, Dot(w, q), n);
  }

  /** Outside: the direction of the positive part attains its length. */
  lemma AttainOutside(q: Vec, n: real) returns (w: Vec)
    requires n > 0.0 && Prod(n, n) == Norm2(PosVec(q))
    ensures Direction(w) && Dot(w, q) == n && (q.z <= 0.0 ==> w.z == 0.0)
  {
    var p := PosVec(q);
    var wx := Quotient(p.x, n);
    var wy := Quotient(p.y, n);
    var wz := Quotient(p.z, n);
    w := Vec(wx, wy, wz);
    hide Prod, Norm2, Dot;
    ScaledNorm(p, w, n);
    SumAboveRoot(p, n);
    PositiveWeight(p.x, w.x, n);
    PositiveWeight(p.y, w.y, n);
    PositiveWeight(p.z, w.z, n);
    ProdSum(w.x, w.y, w.z, n);
    ProdOne(n);
    ProdCancels(1.0, w.x + w.y + w.z, n);
    AttainedValue(q, p, w, n);
  }

  lemma AxisAttains(q: Vec)
    ensures var w := Vec(1.0, 0.0, 0.0); Direction(w) && Dot(w, q) == q.x
    ensures var w := Vec(0.0, 1.0, 0.0); Direction(w) && Dot(w, q) == q.y
    ensures var w := Vec(0.0, 0.0, 1.0); Direction(w) && Dot(w, q) == q.z
  {
  }

  /** Some direction attains the rounded distance; it leaves out a dominated third axis. */
  lemma Attain(q: Vec, sqrt: real -> real) returns (w: Vec)
    requires IsSqrt(sqrt)
    ensures Direction(w) && Dot(w, q) == Rounded(q, sqrt)
    ensures q.z <= 0.0 && q.z <= q.x && q.z <= q.y ==> w.z == 0.0
  {
    hide Prod, Rounded, Dot, IsSqrt, Direction, PosVec;
    if q.x > 0.0 || q.y > 0.0 || q.z > 0.0 {
      RoundedOutside(q, sqrt);
      w := AttainOutside(q, Rounded(q, sqrt));
    } else {
      RoundedInside(q, sqrt);
      AxisAttains(q);
      w := if q.x >= q.y && q.x >= q.z then Vec(1.0, 0.0, 0.0)
           else if q.y >= q.z then Vec(0.0, 1.0, 0.0) else Vec(0.0, 0.0, 1.0);
    }
  }

  // ---- convexity and slope of the rounded distance ----------------------------

  function MixVec(a: Vec, b: Vec, u: real): Vec {
    Vec(Mix(a.x, b.x, u), Mix(a.y, b.y, u), Mix(a.z, b.z, u))
  }

  lemma DotMix(w: Vec, a: Vec, b: Vec, u: real)
    ensures Dot(w, MixVec(a, b, u)) == Mix(Dot(w, a), Dot(w, b), u)
  {
  }

  ghost predicate Below(a: Vec, b: Vec) {
    a.x <= b.x && a.y <= b.y && a.z <= b.z
  }

  /** Coordinates below a mean have a distance below the mean of the distances. */
  lemma RoundedConvex(m: Vec, a: Vec, b: Vec, u: real, sqrt: real -> real)
    requires IsSqrt(sqrt) && 0.0 <= u <= 1.0 && Below(m, MixVec(a, b, u))
    ensures Rounded(m, sqrt) <= Mix(Rounded(a, sqrt), Rounded(b, sqrt), u)
  {
    hide Rounded, Dot, IsSqrt, Mix, Norm2, Prod;
    var w := Attain(m, sqrt);
    DotMonotone(w, m, MixVec(a, b, u));
    DotMix(w, a, b, u);
    Support(a, w, sqrt);
    Support(b, w, sqrt);
    MixMonotone(Dot(w, a), Dot(w, b), Rounded(a, sqrt), Rounded(b, sqrt), u);
  }

  function AbsVec(d: Vec): Vec {
    Vec(Abs(d.x), Abs(d.y), Abs(d.z))
  }

  lemma AbsNorm(d: Vec)
    ensures Norm2(AbsVec(d)) == Norm2(d)
  {
  }

  lemma DotDifference(w: Vec, a: Vec, b: Vec)
    ensures Dot(w, a) - Dot(w, b) == Dot(w, Sub(a, b))
  {
  }

  /** Coordinates that differ by at most d have distances that differ by at most its length. */
  lemma RoundedSlope(a: Vec, b: Vec, d: Vec, length: real, sqrt: real -> real)
    requires IsSqrt(sqrt) && length >= 0.0 && Prod(length, length) == Norm2(d)
    requires a.x - b.x <= Abs(d.x) && a.y - b.y <= Abs(d.y) && a.z - b.z <= Abs(d.z)
    ensures Rounded(a, sqrt) - Rounded(b, sqrt) <= length
  {
    hide Rounded, Dot, IsSqrt, Norm2, Abs, Prod;
    var w := Attain(a, sqrt);
    Support(b, w, sqrt);
    DotDifference(w, a, b);
    DotMonotone(w, Sub(a, b), AbsVec(d));
    AbsNorm(d);
    Reach(w, AbsVec(d), length);
  }

  // ---- turning the axes -------------------------------------------------------

  datatype Pair = Pair(a: real, b: real)

  /** A planar rotation. */
  function Turn(c: real, s: real, p: Pair): Pair {
    Pair(c * p.a + s * p.b, c * p.b - s * p.a)
  }

  lemma TurnKeepsLength(c: real, s: real, p: Pair)
    requires c * c + s * s == 1.0
    ensures var q := Turn(c, s, p); Prod(q.a, q.a) + Prod(q.b, q.b) == Prod(p.a, p.a) + Prod(p.b, p.b)
  {
    var q := Turn(c, s, p);
    assert q.a * q.a + q.b * q.b == (c * c + s * s) * (p.a * p.a + p.b * p.b);
  }

  lemma TurnBack(c: real, s: real, p: Pair)
    requires c * c + s * s == 1.0
    ensures Turn(c, s, Turn(c, -s, p)) == p
  {
    var q := Turn(c, s, Turn(c, -s, p));
    assert q.a == (c * c + s * s) * p.a && q.b == (c * c + s * s) * p.b;
  }

  function Yaw(d: Vec, c: real, s: real): Vec {
    var t := Turn(c, s, Pair(d.x, d.y));
    Vec(t.a, t.b, d.z)
  }

  function Pitch(d: Vec, c: real, s: real): Vec {
    var t := Turn(c, -s, Pair(d.x, d.z));
    Vec(t.a, d.y, t.b)
  }

  function Roll(d: Vec, c: real, s: real): Vec {
    var t := Turn(c, s, Pair(d.y, d.z));
    Vec(d.x, t.a, t.b)
  }

  /** The rotation is yaw, then pitch, then roll. */
  lemma RotateInTurns(d: Vec, rpy: Vec, cos: real -> real, sin: real -> real)
    ensures Rotate(d, rpy, cos, sin) ==
            Roll(Pitch(Yaw(d, cos(rpy.z), sin(rpy.z)), cos(rpy.y), sin(rpy.y)), cos(rpy.x), sin(rpy.x))
  {
    TurnsMultiplyOut(d, cos(rpy.x), sin(rpy.x), cos(rpy.y), sin(rpy.y), cos(rpy.z), sin(rpy.z));
  }

  lemma TurnsMultiplyOut(d: Vec, cr: real, sr: real, cp: real, sp: real, cy: real, sy: real)
    ensures Roll(Pitch(Yaw(d, cy, sy), cp, sp), cr, sr) == Rows(cr, sr, cp, sp, cy, sy, d)
  {
  }

  lemma TurnsKeepLength(d: Vec, cr: real, sr: real, cp: real, sp: real, cy: real, sy: real)
    requires cr * cr + sr * sr == 1.0 && cp * cp + sp * sp == 1.0 && cy * cy + sy * sy == 1.0
    ensures Norm2(Roll(Pitch(Yaw(d, cy, sy), cp, sp), cr, sr)) == Norm2(d)
  {
    hide Prod, Turn;
    var e := Yaw(d, cy, sy);
    TurnKeepsLength(cy, sy, Pair(d.x, d.y));
    assert cp * cp + (-sp) * (-sp) == 1.0;
    TurnKeepsLength(cp, -sp, Pair(e.x, e.z));
    var f := Pitch(e, cp, sp);
    TurnKeepsLength(cr, sr, Pair(f.y, f.z));
  }

  lemma RotateKeepsLength(d: Vec, rpy: Vec, cos: real -> real, sin: real -> real)
    requires IsTrig(cos, sin)
    ensures Norm2(Rotate(d, rpy, cos, sin)) == Norm2(d)
  {
    RotateInTurns(d, rpy, cos, sin);
    hide Rotate, Prod, Norm2, Turn, Yaw, Pitch, Roll;
    TurnsKeepLength(d, cos(rpy.x), sin(rpy.x), cos(rpy.y), sin(rpy.y), cos(rpy.z), sin(rpy.z));
  }

  /** The rotation back. */
  function Unrotate(v: Vec, rpy: Vec, cos: real -> real, sin: real -> real): Vec {
    Yaw(Pitch(Roll(v, cos(rpy.x), -sin(rpy.x)), cos(rpy.y), -sin(rpy.y)), cos(rpy.z), -sin(rpy.z))
  }

  lemma YawBack(v: Vec, c: real, s: real)
    requires c * c + s * s == 1.0
    ensures Yaw(Yaw(v, c, -s), c, s) == v && Roll(Roll(v, c, -s), c, s) == v && Pitch(Pitch(v, c, -s), c, s) == v
  {
    assert c * c + (-s) * (-s) == 1.0 && -(-s) == s;
    hide Turn;
    TurnBack(c, s, Pair(v.x, v.y));
    TurnBack(c, s, Pair(v.y, v.z));
    TurnBack(c, -s, Pair(v.x, v.z));
  }

  lemma RotateBack(v: Vec, rpy: Vec, cos: real -> real, sin: real -> real)
    requires IsTrig(cos, sin)
    ensures Rotate(Unrotate(v, rpy, cos, sin), rpy, cos, sin) == v
  {
    RotateInTurns(Unrotate(v, rpy, cos, sin), rpy, cos, sin);
    hide Rotate, Yaw, Pitch, Roll;
    var a := Roll(v, cos(rpy.x), -sin(rpy.x));
    var b := Pitch(a, cos(rpy.y), -sin(rpy.y));
    YawBack(b, cos(rpy.z), sin(rpy.z));
    YawBack(a, cos(rpy.y), sin(rpy.y));
    YawBack(v, cos(rpy.x), sin(rpy.x));
  }

  lemma RotateIsLinear(a: Vec, b: Vec, rpy: Vec, cos: real -> real, sin: real -> real)
    ensures Rotate(Sub(a, b), rpy, cos, sin) == Sub(Rotate(a, rpy, cos, sin), Rotate(b, rpy, cos, sin))
  {
  }

  // ---- the box along a segment ------------------------------------------------

  function PointAt(start: Vec, end: Vec, t: real): Vec {
    Vec(Shift(start.x, end.x, t), Shift(start.y, end.y, t), Shift(start.z, end.z, t))
  }

  function Shift(s: real, e: real, t: real): real {
    s + t * (e - s)
  }

  /** The distance along the segment, as a function of the parameter. */
  function Sweep(start: Vec, end: Vec, distance: Vec -> real): real -> real {
    (t: real) => distance(PointAt(start, end, t))
  }

  lemma PointOfMix(start: Vec, end: Vec, a: real, b: real, u: real)
    ensures PointAt(start, end, Mix(a, b, u)) == MixVec(PointAt(start, end, a), PointAt(start, end, b), u)
  {
    ShiftOfMix(start.x, end.x, a, b, u);
    ShiftOfMix(start.y, end.y, a, b, u);
    ShiftOfMix(start.z, end.z, a, b, u);
    hide Mix, Shift;
  }

  lemma ShiftOfMix(s: real, e: real, a: real, b: real, u: real)
    ensures Shift(s, e, Mix(a, b, u)) == Mix(Shift(s, e, a), Shift(s, e, b), u)
  {
  }

  lemma PointDifference(start: Vec, end: Vec, a: real, b: real)
    ensures Norm2(Sub(PointAt(start, end, a), PointAt(start, end, b))) == Prod(Prod(a - b, a - b), Norm2(Sub(end, start)))
  {
    ShiftDifference(start.x, end.x, a, b);
    ShiftDifference(start.y, end.y, a, b);
    ShiftDifference(start.z, end.z, a, b);
    hide Prod, Shift;
    var d := Sub(end, start);
    TwoParts(Prod(a - b, a - b), Prod(d.x, d.x), Prod(d.y, d.y));
    TwoParts(Prod(a - b, a - b), Prod(d.x, d.x) + Prod(d.y, d.y), Prod(d.z, d.z));
  }

  lemma ShiftDifference(s: real, e: real, a: real, b: real)
    ensures var d := Shift(s, e, a) - Shift(s, e, b); Prod(d, d) == Prod(Prod(a - b, a - b), Prod(e - s, e - s))
  {
    assert Shift(s, e, a) - Shift(s, e, b) == Prod(a - b, e - s);
    FourFactors(a - b, e - s);
  }

  lemma AbsOfMix(x: real, y: real, u: real)
    requires 0.0 <= u <= 1.0
    ensures Abs(Mix(x, y, u)) <= Mix(Abs(x), Abs(y), u)
  {
    hide Prod;
    MixMonotone(x, y, Abs(x), Abs(y), u);
    MixMonotone(-x, -y, Abs(x), Abs(y), u);
    MixNegated(x, y, u);
  }

  lemma MixNegated(x: real, y: real, u: real)
    ensures Mix(-x, -y, u) == -Mix(x, y, u)
  {
  }

  lemma MixShifted(x: real, y: real, h: real, u: real)
    ensures Mix(x - h, y - h, u) == Mix(x, y, u) - h
  {
  }

  lemma ExcessOfMix(a: Vec, b: Vec, half: Vec, u: real)
    requires 0.0 <= u <= 1.0
    ensures Below(Excess(MixVec(a, b, u), half), MixVec(Excess(a, half), Excess(b, half), u))
  {
    hide Mix, Abs;
    AbsOfMix(a.x, b.x, u);
    AbsOfMix(a.y, b.y, u);
    AbsOfMix(a.z, b.z, u);
    MixShifted(Abs(a.x), Abs(b.x), half.x, u);
    MixShifted(Abs(a.y), Abs(b.y), half.y, u);
    MixShifted(Abs(a.z), Abs(b.z), half.z, u);
  }

  lemma RotateOfMix(a: Vec, b: Vec, center: Vec, rpy: Vec, u: real, cos: real -> real, sin: real -> real)
    ensures Rotate(Sub(MixVec(a, b, u), center), rpy, cos, sin) ==
            MixVec(Rotate(Sub(a, center), rpy, cos, sin), Rotate(Sub(b, center), rpy, cos, sin), u)
  {
    assert Sub(MixVec(a, b, u), center) == MixVec(Sub(a, center), Sub(b, center), u);
    LinearOfMix(Sub(a, center), Sub(b, center), rpy, u, cos, sin);
  }

  lemma LinearOfMix(a: Vec, b: Vec, rpy: Vec, u: real, cos: real -> real, sin: real -> real)
    ensures Rotate(MixVec(a, b, u), rpy, cos, sin) == MixVec(Rotate(a, rpy, cos, sin), Rotate(b, rpy, cos, sin), u)
  {
    RowsOfMix(cos(rpy.x), sin(rpy.x), cos(rpy.y), sin(rpy.y), cos(rpy.z), sin(rpy.z), a, b, u);
    hide Rows;
  }

  lemma RowsOfMix(cr: real, sr: real, cp: real, sp: real, cy: real, sy: real, a: Vec, b: Vec, u: real)
    ensures Rows(cr, sr, cp, sp, cy, sy, MixVec(a, b, u)) == MixVec(Rows(cr, sr, cp, sp, cy, sy, a), Rows(cr, sr, cp, sp, cy, sy, b), u)
  {
    hide Mix, Row;
    RowOfMix(cp * cy, cp * sy, -sp, a, b, u);
    RowOfMix(sr * sp * cy - cr * sy, sr * sp * sy + cr * cy, sr * cp, a, b, u);
    RowOfMix(cr * sp * cy + sr * sy, cr * sp * sy - sr * cy, cr * cp, a, b, u);
  }

  lemma RowOfMix(x: real, y: real, z: real, a: Vec, b: Vec, u: real)
    ensures Row(x, y, z, MixVec(a, b, u)) == Mix(Row(x, y, z, a), Row(x, y, z, b), u)
  {
    hide Prod, Mix;
    ProdOfMix(x, a.x, b.x, u);
    ProdOfMix(y, a.y, b.y, u);
    ProdOfMix(z, a.z, b.z, u);
    MixOfSums(Prod(x, a.x), Prod(y, a.y), Prod(z, a.z), Prod(x, b.x), Prod(y, b.y), Prod(z, b.z), u);
  }

  lemma ProdOfMix(x: real, a: real, b: real, u: real)
    ensures Prod(x, Mix(a, b, u)) == Mix(Prod(x, a), Prod(x, b), u)
  {
  }

  lemma MixOfSums(a: real, b: real, c: real, d: real, e: real, f: real, u: real)
    ensures Mix(a + b + c, d + e + f, u) == Mix(a, d, u) + Mix(b, e, u) + Mix(c, f, u)
  {
  }

  lemma BoxIsConvex(center: Vec, half: Vec, rpy: Vec, sqrt: real -> real, cos: real -> real, sin: real -> real, a: Vec, b: Vec, u: real)
    requires IsSqrt(sqrt) && 0.0 <= u <= 1.0
    ensures var box := Box(center, half, rpy, sqrt, cos, sin); box(MixVec(a, b, u)) <= Mix(box(a), box(b), u)
  {
    hide Rounded, IsSqrt, Mix, Prod, Rotate, MixVec, Excess;
    var la, lb := Rotate(Sub(a, center), rpy, cos, sin), Rotate(Sub(b, center), rpy, cos, sin);
    RotateOfMix(a, b, center, rpy, u, cos, sin);
    ExcessOfMix(la, lb, half, u);
    RoundedConvex(Excess(MixVec(la, lb, u), half), Excess(la, half), Excess(lb, half), u, sqrt);
  }

  lemma AbsDifference(x: real, y: real)
    ensures Abs(x) - Abs(y) <= Abs(x - y)
  {
  }

  lemma ExcessDifference(a: Vec, b: Vec, half: Vec, length: real, sqrt: real -> real)
    requires IsSqrt(sqrt) && length >= 0.0 && Prod(length, length) == Norm2(Sub(a, b))
    ensures Rounded(Excess(a, half), sqrt) - Rounded(Excess(b, half), sqrt) <= length
  {
    hide Rounded, IsSqrt, Prod, Norm2, Abs;
    AbsDifference(a.x, b.x);
    AbsDifference(a.y, b.y);
    AbsDifference(a.z, b.z);
    RoundedSlope(Excess(a, half), Excess(b, half), Sub(a, b), length, sqrt);
  }

  /** Moving a point by some length changes its distance to the box by no more than that. */
  lemma BoxSlope(center: Vec, half: Vec, rpy: Vec, sqrt: real -> real, cos: real -> real, sin: real -> real, a: Vec, b: Vec, length: real)
    requires IsSqrt(sqrt) && IsTrig(cos, sin) && length >= 0.0 && Prod(length, length) == Norm2(Sub(a, b))
    ensures var box := Box(center, half, rpy, sqrt, cos, sin); box(a) - box(b) <= length
  {
    hide Rounded, IsSqrt, IsTrig, Prod, Norm2, Rotate, Excess;
    var da, db := Sub(a, center), Sub(b, center);
    assert Sub(da, db) == Sub(a, b);
    RotateIsLinear(da, db, rpy, cos, sin);
    RotateKeepsLength(Sub(da, db), rpy, cos, sin);
    ExcessDifference(Rotate(da, rpy, cos, sin), Rotate(db, rpy, cos, sin), half, length, sqrt);
  }

  // ---- exactness of the box distance ------------------------------------------

  /** The nearest coordinate within the half extent. */
  function Clamp(v: real, h: real): real {
    if v > h then h else if v < -h then -h else v
  }

  /** The coordinate moved to the nearer face. */
  function Face(v: real, h: real): real {
    if v < 0.0 then -h else h
  }

  /** A nearest point of the surface, in box axes. */
  function Nearest(v: Vec, half: Vec): Vec {
    var q := Excess(v, half);
    if q.x > 0.0 || q.y > 0.0 || q.z > 0.0 then Vec(Clamp(v.x, half.x), Clamp(v.y, half.y), Clamp(v.z, half.z))
    else if q.x >= q.y && q.x >= q.z then v.(x := Face(v.x, half.x))
    else if q.y >= q.z then v.(y := Face(v.y, half.y))
    else v.(z := Face(v.z, half.z))
  }

  lemma ClampMoves(v: real, h: real)
    requires h >= 0.0
    ensures var e := v - Clamp(v, h); Prod(e, e) == Prod(Pos(Abs(v) - h), Pos(Abs(v) - h))
    ensures Abs(Clamp(v, h)) <= h && (Abs(v) - h > 0.0 ==> Abs(Clamp(v, h)) == h)
  {
    hide Prod;
    ProdOne(Abs(v) - h);
  }

  lemma FaceMoves(v: real, h: real)
    requires h >= 0.0
    ensures var e := v - Face(v, h); Prod(e, e) == Prod(Abs(v) - h, Abs(v) - h) && Abs(Face(v, h)) == h
  {
    hide Prod;
    ProdOne(Abs(v) - h);
  }

  lemma NearestIsOnSurface(v: Vec, half: Vec, sqrt: real -> real)
    requires IsSqrt(sqrt) && half.x >= 0.0 && half.y >= 0.0 && half.z >= 0.0
    ensures Rounded(Excess(Nearest(v, half), half), sqrt) == 0.0
  {
    hide Prod, Rounded, IsSqrt, Clamp, Face;
    ClampMoves(v.x, half.x);
    ClampMoves(v.y, half.y);
    ClampMoves(v.z, half.z);
    FaceMoves(v.x, half.x);
    FaceMoves(v.y, half.y);
    FaceMoves(v.z, half.z);
    RoundedInside(Excess(Nearest(v, half), half), sqrt);
  }

  lemma NearestIsThatFar(v: Vec, half: Vec, sqrt: real -> real)
    requires IsSqrt(sqrt) && half.x >= 0.0 && half.y >= 0.0 && half.z >= 0.0
    ensures var d := Rounded(Excess(v, half), sqrt); Norm2(Sub(v, Nearest(v, half))) == Prod(d, d)
  {
    hide Prod, Rounded, IsSqrt, Clamp, Face, Abs;
    var q := Excess(v, half);
    ProdOne(0.0);
    if q.x > 0.0 || q.y > 0.0 || q.z > 0.0 {
      RoundedOutside(q, sqrt);
      ClampMoves(v.x, half.x);
      ClampMoves(v.y, half.y);
      ClampMoves(v.z, half.z);
    } else {
      RoundedInside(q, sqrt);
      FaceMoves(v.x, half.x);
      FaceMoves(v.y, half.y);
      FaceMoves(v.z, half.z);
    }
  }

  lemma SquareAtMost(d: real, l: real)
    requires d <= l && -d <= l
    ensures Prod(d, d) <= Prod(l, l)
  {
    DifferenceOfSquares(l, d);
    ProdNonNegative(l - d, l + d);
    hide Prod;
  }

  lemma BoxAt(center: Vec, half: Vec, rpy: Vec, sqrt: real -> real, cos: real -> real, sin: real -> real, p: Vec)
    ensures Box(center, half, rpy, sqrt, cos, sin)(p) == Rounded(Excess(Rotate(Sub(p, center), rpy, cos, sin), half), sqrt)
  {
    hide Rounded, Excess, Rotate, Sub;
  }

  /** Some surface point is as far away as the distance says. */
  lemma SurfaceIsReached(center: Vec, half: Vec, rpy: Vec, sqrt: real -> real, cos: real -> real, sin: real -> real, p: Vec) returns (s: Vec)
    requires IsSqrt(sqrt) && IsTrig(cos, sin) && half.x >= 0.0 && half.y >= 0.0 && half.z >= 0.0
    ensures var box := Box(center, half, rpy, sqrt, cos, sin); box(s) == 0.0 && Norm2(Sub(p, s)) == Prod(box(p), box(p))
  {
    hide Prod, Rounded, IsSqrt, IsTrig, Rotate, Unrotate, Nearest, Norm2, Excess, Box, Sub, Add;
    var v := Rotate(Sub(p, center), rpy, cos, sin);
    var c := Nearest(v, half);
    s := Add(center, Unrotate(c, rpy, cos, sin));
    Differences(center, Unrotate(c, rpy, cos, sin), p);
    BoxAt(center, half, rpy, sqrt, cos, sin, p);
    BoxAt(center, half, rpy, sqrt, cos, sin, s);
    RotateBack(c, rpy, cos, sin);
    NearestIsOnSurface(v, half, sqrt);
    NearestIsThatFar(v, half, sqrt);
    RotateIsLinear(Sub(p, center), Sub(s, center), rpy, cos, sin);
    RotateKeepsLength(Sub(p, s), rpy, cos, sin);
  }

  lemma Differences(center: Vec, u: Vec, p: Vec)
    ensures Sub(Add(center, u), center) == u && Sub(Sub(p, center), u) == Sub(p, Add(center, u))
  {
  }

  lemma BoxSignExactly(center: Vec, half: Vec, rpy: Vec, sqrt: real -> real, cos: real -> real, sin: real -> real, p: Vec)
    requires IsSqrt(sqrt)
    ensures var v := Rotate(Sub(p, center), rpy, cos, sin);
            Box(center, half, rpy, sqrt, cos, sin)(p) > 0.0 <==> Abs(v.x) > half.x || Abs(v.y) > half.y || Abs(v.z) > half.z
  {
    hide Rounded, IsSqrt, Rotate, Abs, Box, Sub;
    BoxAt(center, half, rpy, sqrt, cos, sin, p);
    BoxSign(Excess(Rotate(Sub(p, center), rpy, cos, sin), half), sqrt);
  }

  /** The documented contract of the box distance: positive exactly outside, and its size is
      the distance to the surface, which no point undercuts and some point reaches, unless a
      half extent is negative and there is no surface. */
  lemma BoxDistanceIsExact(center: Vec, half: Vec, rpy: Vec, sqrt: real -> real, cos: real -> real, sin: real -> real, p: Vec)
    requires IsSqrt(sqrt) && IsTrig(cos, sin)
    ensures var box := Box(center, half, rpy, sqrt, cos, sin);
            var v := Rotate(Sub(p, center), rpy, cos, sin);
            && (box(p) > 0.0 <==> Abs(v.x) > half.x || Abs(v.y) > half.y || Abs(v.z) > half.z)
            && (forall s :: box(s) == 0.0 ==> Prod(box(p), box(p)) <= Norm2(Sub(p, s)))
            && ((exists s :: box(s) == 0.0 && Norm2(Sub(p, s)) == Prod(box(p), box(p))) <==>
                  half.x >= 0.0 && half.y >= 0.0 && half.z >= 0.0)
  {
    hide Prod, IsSqrt, IsTrig, Rotate, Norm2, Box, Abs, Sub;
    BoxSignExactly(center, half, rpy, sqrt, cos, sin, p);
    var box := Box(center, half, rpy, sqrt, cos, sin);
    forall s | box(s) == 0.0 ensures Prod(box(p), box(p)) <= Norm2(Sub(p, s)) {
      SurfaceIsNoNearer(center, half, rpy, sqrt, cos, sin, p, s);
    }
    if half.x >= 0.0 && half.y >= 0.0 && half.z >= 0.0 {
      var s := SurfaceIsReached(center, half, rpy, sqrt, cos, sin, p);
    } else {
      forall s ensures box(s) > 0.0 {
        NoSurface(center, half, rpy, sqrt, cos, sin, s);
      }
    }
  }

  lemma NoSurface(center: Vec, half: Vec, rpy: Vec, sqrt: real -> real, cos: real -> real, sin: real -> real, s: Vec)
    requires IsSqrt(sqrt) && (half.x < 0.0 || half.y < 0.0 || half.z < 0.0)
    ensures Box(center, half, rpy, sqrt, cos, sin)(s) > 0.0
  {
    hide IsSqrt, Rotate, Box, Sub;
    BoxSignExactly(center, half, rpy, sqrt, cos, sin, s);
  }

  lemma BoxSign(q: Vec, sqrt: real -> real)
    requires IsSqrt(sqrt)
    ensures Rounded(q, sqrt) > 0.0 <==> q.x > 0.0 || q.y > 0.0 || q.z > 0.0
  {
    hide Prod, Rounded, IsSqrt;
    if q.x > 0.0 || q.y > 0.0 || q.z > 0.0 {
      RoundedOutside(q, sqrt);
    } else {
      RoundedInside(q, sqrt);
    }
  }

  lemma SurfaceIsNoNearer(center: Vec, half: Vec, rpy: Vec, sqrt: real -> real, cos: real -> real, sin: real -> real, p: Vec, s: Vec)
    requires IsSqrt(sqrt) && IsTrig(cos, sin) && Box(center, half, rpy, sqrt, cos, sin)(s) == 0.0
    ensures var d := Box(center, half, rpy, sqrt, cos, sin)(p); Prod(d, d) <= Norm2(Sub(p, s))
  {
    hide Prod, IsSqrt, IsTrig, Norm2, Box, Sub;
    var length := sqrt(Norm2(Sub(p, s)));
    NormNonNegative(Sub(p, s));
    Root(Norm2(Sub(p, s)), sqrt);
    NormTurned(p, s);
    BoxSlope(center, half, rpy, sqrt, cos, sin, p, s, length);
    BoxSlope(center, half, rpy, sqrt, cos, sin, s, p, length);
    SquareAtMost(Box(center, half, rpy, sqrt, cos, sin)(p), length);
  }

  lemma Root(x: real, sqrt: real -> real)
    requires IsSqrt(sqrt) && x >= 0.0
    ensures sqrt(x) >= 0.0 && Prod(sqrt(x), sqrt(x)) == x
  {
  }

  lemma NormTurned(a: Vec, b: Vec)
    ensures Norm2(Sub(a, b)) == Norm2(Sub(b, a))
  {
  }

  // ---- sweeps -----------------------------------------------------------------

  /** The length of the segment. */
  function Length(start: Vec, end: Vec, sqrt: real -> real): real {
    sqrt(Norm2(Sub(end, start)))
  }

  lemma SweptLength(start: Vec, end: Vec, sqrt: real -> real, a: real, b: real)
    requires IsSqrt(sqrt)
    ensures var l := Length(start, end, sqrt);
            var d := Prod(Abs(a - b), l);
            l >= 0.0 && d >= 0.0 && Prod(d, d) == Norm2(Sub(PointAt(start, end, a), PointAt(start, end, b)))
  {
    var l := Length(start, end, sqrt);
    NormNonNegative(Sub(end, start));
    PointDifference(start, end, a, b);
    hide PointAt, Norm2;
    ProdNonNegative(Abs(a - b), l);
    FourFactors(Abs(a - b), l);
    ProdOne(a - b);
  }

  lemma FourFactors(x: real, l: real)
    ensures Prod(Prod(x, l), Prod(x, l)) == Prod(Prod(x, x), Prod(l, l))
  {
  }

  /** A distance function that is convex on segments and never steeper than the motion. */
  ghost predicate Gentle(distance: Vec -> real) {
    && (forall a, b, u :: 0.0 <= u <= 1.0 ==> distance(MixVec(a, b, u)) <= Mix(distance(a), distance(b), u))
    && (forall a, b, length :: length >= 0.0 && Prod(length, length) == Norm2(Sub(a, b)) ==> distance(a) - distance(b) <= length)
  }

  lemma BoxIsGentle(center: Vec, half: Vec, rpy: Vec, sqrt: real -> real, cos: real -> real, sin: real -> real)
    requires IsSqrt(sqrt) && IsTrig(cos, sin)
    ensures Gentle(Box(center, half, rpy, sqrt, cos, sin))
  {
    hide IsSqrt, IsTrig, Prod, Mix, MixVec, Norm2, Box;
    var box := Box(center, half, rpy, sqrt, cos, sin);
    forall a, b, u | 0.0 <= u <= 1.0 ensures box(MixVec(a, b, u)) <= Mix(box(a), box(b), u) {
      BoxIsConvex(center, half, rpy, sqrt, cos, sin, a, b, u);
    }
    forall a, b, length | length >= 0.0 && Prod(length, length) == Norm2(Sub(a, b)) ensures box(a) - box(b) <= length {
      BoxSlope(center, half, rpy, sqrt, cos, sin, a, b, length);
    }
  }

  /** Along a segment such a function is convex, and as steep as the segment is long. */
  lemma GentleSweep(start: Vec, end: Vec, distance: Vec -> real, sqrt: real -> real)
    requires IsSqrt(sqrt) && Gentle(distance)
    ensures Convex(Sweep(start, end, distance)) && Lipschitz(Sweep(start, end, distance), Length(start, end, sqrt))
  {
    hide IsSqrt, Prod, Mix, MixVec, Norm2, PointAt, Length, Abs;
    var g := Sweep(start, end, distance);
    forall a, b, u | 0.0 <= a <= 1.0 && 0.0 <= b <= 1.0 && 0.0 <= u <= 1.0 ensures g(Mix(a, b, u)) <= Mix(g(a), g(b), u) {
      PointOfMix(start, end, a, b, u);
    }
    forall a, b | 0.0 <= a <= 1.0 && 0.0 <= b <= 1.0 ensures g(a) - g(b) <= Prod(Abs(a - b), Length(start, end, sqrt)) {
      SweptLength(start, end, sqrt, a, b);
    }
    SweptLength(start, end, sqrt, 0.0, 0.0);
  }

  // ---- the cylinder -----------------------------------------------------------

  /** A third coordinate that never matters. */
  function Floor3(radial: real, vertical: real): real {
    Min(Min(radial, vertical), 0.0)
  }

  lemma CylinderIsRounded(radial: real, vertical: real, sqrt: real -> real)
    ensures Rounded2(radial, vertical, sqrt) == Rounded(Vec(radial, vertical, Floor3(radial, vertical)), sqrt)
  {
    hide Prod;
    ProdOne(0.0);
    assert Pos(Floor3(radial, vertical)) == 0.0;
  }

  lemma Support2(radial: real, vertical: real, w: Vec, sqrt: real -> real)
    requires IsSqrt(sqrt) && Direction(w) && w.z == 0.0
    ensures Prod(w.x, radial) + Prod(w.y, vertical) <= Rounded2(radial, vertical, sqrt)
  {
    hide Rounded, Rounded2, IsSqrt, Prod, Direction;
    CylinderIsRounded(radial, vertical, sqrt);
    Support(Vec(radial, vertical, Floor3(radial, vertical)), w, sqrt);
    ProdOne(Floor3(radial, vertical));
  }

  lemma Attain2(radial: real, vertical: real, sqrt: real -> real) returns (w: Vec)
    requires IsSqrt(sqrt)
    ensures Direction(w) && w.z == 0.0 && Prod(w.x, radial) + Prod(w.y, vertical) == Rounded2(radial, vertical, sqrt)
  {
    hide Rounded, Rounded2, IsSqrt, Prod, Direction;
    CylinderIsRounded(radial, vertical, sqrt);
    w := Attain(Vec(radial, vertical, Floor3(radial, vertical)), sqrt);
    ProdOne(Floor3(radial, vertical));
  }

  lemma Weighted(w: real, v: real, a: real, b: real, c: real, d: real, u: real)
    ensures Prod(w, Mix(a, b, u)) + Prod(v, Mix(c, d, u)) == Mix(Prod(w, a) + Prod(v, c), Prod(w, b) + Prod(v, d), u)
  {
  }

  lemma Rounded2Convex(r: real, v: real, ra: real, va: real, rb: real, vb: real, u: real, sqrt: real -> real)
    requires IsSqrt(sqrt) && 0.0 <= u <= 1.0 && r <= Mix(ra, rb, u) && v <= Mix(va, vb, u)
    ensures Rounded2(r, v, sqrt) <= Mix(Rounded2(ra, va, sqrt), Rounded2(rb, vb, sqrt), u)
  {
    hide Rounded2, IsSqrt, Mix, Prod, Norm2;
    var w := Attain2(r, v, sqrt);
    Along(r, Mix(ra, rb, u), w.x);
    Along(v, Mix(va, vb, u), w.y);
    Weighted(w.x, w.y, ra, rb, va, vb, u);
    Support2(ra, va, w, sqrt);
    Support2(rb, vb, w, sqrt);
    MixMonotone(Prod(w.x, ra) + Prod(w.y, va), Prod(w.x, rb) + Prod(w.y, vb), Rounded2(ra, va, sqrt), Rounded2(rb, vb, sqrt), u);
  }

  lemma Rounded2Slope(ra: real, va: real, rb: real, vb: real, dr: real, dv: real, length: real, sqrt: real -> real)
    requires IsSqrt(sqrt) && length >= 0.0 && Prod(dr, dr) + Prod(dv, dv) <= Prod(length, length)
    requires ra - rb <= dr && va - vb <= dv
    ensures Rounded2(ra, va, sqrt) - Rounded2(rb, vb, sqrt) <= length
  {
    hide Rounded2, IsSqrt, Prod;
    var w := Attain2(ra, va, sqrt);
    Support2(rb, vb, w, sqrt);
    Along(ra - rb, dr, w.x);
    Along(va - vb, dv, w.y);
    ProdMinus(w.x, ra, rb);
    ProdMinus(w.y, va, vb);
    var d := Vec(dr, dv, 0.0);
    ProdOne(0.0);
    Reach(w, d, length);
    ProdCommutes(w.z, 0.0);
    ProdOne(w.z);
  }

  lemma ProdMinus(w: real, a: real, b: real)
    ensures Prod(w, a - b) == Prod(w, a) - Prod(w, b)
  {
  }

  // ---- the plane norm ---------------------------------------------------------

  lemma HypotSquare(a: real, b: real, sqrt: real -> real)
    requires IsSqrt(sqrt)
    ensures var h := Hypot(a, b, sqrt); h >= 0.0 && Prod(h, h) == Prod(a, a) + Prod(b, b)
  {
    hide Prod;
    SquareNonNegative(a);
    SquareNonNegative(b);
  }

  lemma PlaneCauchy(a: real, b: real, c: real, d: real)
    ensures Prod(Prod(a, c) + Prod(b, d), Prod(a, c) + Prod(b, d)) <= Prod(Prod(a, a) + Prod(b, b), Prod(c, c) + Prod(d, d))
  {
    CauchySchwarz(Vec(a, b, 0.0), Vec(c, d, 0.0));
  }

  /** The scalar product is at most the product of the norms. */
  lemma HypotProduct(a: real, b: real, c: real, d: real, sqrt: real -> real)
    requires IsSqrt(sqrt)
    ensures Prod(a, c) + Prod(b, d) <= Prod(Hypot(a, b, sqrt), Hypot(c, d, sqrt))
  {
    HypotSquare(a, b, sqrt);
    HypotSquare(c, d, sqrt);
    PlaneCauchy(a, b, c, d);
    hide Prod, Hypot, IsSqrt;
    var h, k := Hypot(a, b, sqrt), Hypot(c, d, sqrt);
    FourFactors(h, k);
    ProdNonNegative(h, k);
    RootBound(Prod(a, c) + Prod(b, d), Prod(h, k));
  }

  lemma SquareOfTwo(a: real, x: real, c: real, u: real)
    ensures Prod(Prod(a, x) + Prod(c, u), Prod(a, x) + Prod(c, u)) ==
            Prod(Prod(x, x), Prod(a, a)) + Prod(Prod(u, u), Prod(c, c)) + Prod(2.0 * Prod(x, u), Prod(a, c))
  {
  }

  lemma NormOfMix(a: real, b: real, c: real, d: real, u: real, h: real, k: real)
    requires 0.0 <= u <= 1.0 && Prod(h, h) == Prod(a, a) + Prod(b, b) && Prod(k, k) == Prod(c, c) + Prod(d, d)
    requires Prod(a, c) + Prod(b, d) <= Prod(h, k)
    ensures Prod(Mix(a, c, u), Mix(a, c, u)) + Prod(Mix(b, d, u), Mix(b, d, u)) <= Prod(Mix(h, k, u), Mix(h, k, u))
  {
    hide Prod;
    var x := 1.0 - u;
    SquareOfTwo(a, x, c, u);
    SquareOfTwo(b, x, d, u);
    SquareOfTwo(h, x, k, u);
    var p, q, s := Prod(x, x), Prod(u, u), 2.0 * Prod(x, u);
    ProdNonNegative(x, u);
    TwoParts(p, Prod(a, a), Prod(b, b));
    TwoParts(q, Prod(c, c), Prod(d, d));
    TwoParts(s, Prod(a, c), Prod(b, d));
    Along(Prod(a, c) + Prod(b, d), Prod(h, k), s);
  }

  lemma TwoParts(s: real, a: real, b: real)
    ensures Prod(s, a + b) == Prod(s, a) + Prod(s, b)
  {
  }

  /** The plane norm is convex. */
  lemma HypotConvex(a: real, b: real, c: real, d: real, u: real, sqrt: real -> real)
    requires IsSqrt(sqrt) && 0.0 <= u <= 1.0
    ensures Hypot(Mix(a, c, u), Mix(b, d, u), sqrt) <= Mix(Hypot(a, b, sqrt), Hypot(c, d, sqrt), u)
  {
    hide Prod, Hypot, IsSqrt;
    var h, k := Hypot(a, b, sqrt), Hypot(c, d, sqrt);
    HypotSquare(a, b, sqrt);
    HypotSquare(c, d, sqrt);
    HypotSquare(Mix(a, c, u), Mix(b, d, u), sqrt);
    HypotProduct(a, b, c, d, sqrt);
    NormOfMix(a, b, c, d, u, h, k);
    ProdNonNegative(h, 1.0 - u);
    ProdNonNegative(k, u);
    RootBound(Hypot(Mix(a, c, u), Mix(b, d, u), sqrt), Mix(h, k, u));
  }

  lemma SquareOfDifference(a: real, b: real)
    ensures Prod(a - b, a - b) == Prod(a, a) + Prod(b, b) - 2.0 * Prod(a, b)
  {
  }

  /** Norms differ by no more than the vectors do. */
  lemma HypotDifference(a: real, b: real, c: real, d: real, sqrt: real -> real)
    requires IsSqrt(sqrt)
    ensures var e := Hypot(a, b, sqrt) - Hypot(c, d, sqrt); Prod(e, e) <= Prod(a - c, a - c) + Prod(b - d, b - d)
  {
    hide Prod, Hypot, IsSqrt;
    HypotSquare(a, b, sqrt);
    HypotSquare(c, d, sqrt);
    HypotProduct(a, b, c, d, sqrt);
    SquareOfDifference(a, c);
    SquareOfDifference(b, d);
    SquareOfDifference(Hypot(a, b, sqrt), Hypot(c, d, sqrt));
  }

  lemma CylinderIsConvex(center: Vec, radius: real, halfHeight: real, sqrt: real -> real, a: Vec, b: Vec, u: real)
    requires IsSqrt(sqrt) && 0.0 <= u <= 1.0
    ensures var d := Cylinder(center, radius, halfHeight, sqrt); d(MixVec(a, b, u)) <= Mix(d(a), d(b), u)
  {
    hide Prod, Hypot, IsSqrt, Mix, Rounded2, Abs;
    MixShifted(a.x, b.x, center.x, u);
    MixShifted(a.y, b.y, center.y, u);
    MixShifted(a.z, b.z, center.z, u);
    HypotConvex(a.x - center.x, a.y - center.y, b.x - center.x, b.y - center.y, u, sqrt);
    AbsOfMix(a.z - center.z, b.z - center.z, u);
    var ra, rb := Hypot(a.x - center.x, a.y - center.y, sqrt), Hypot(b.x - center.x, b.y - center.y, sqrt);
    var va, vb := Abs(a.z - center.z), Abs(b.z - center.z);
    MixShifted(ra, rb, radius, u);
    MixShifted(va, vb, halfHeight, u);
    var m := MixVec(a, b, u);
    Rounded2Convex(Hypot(m.x - center.x, m.y - center.y, sqrt) - radius, Abs(m.z - center.z) - halfHeight,
                   ra - radius, va - halfHeight, rb - radius, vb - halfHeight, u, sqrt);
  }

  lemma AbsSquare(x: real)
    ensures Prod(Abs(x), Abs(x)) == Prod(x, x)
  {
  }

  lemma CylinderSlope(center: Vec, radius: real, halfHeight: real, sqrt: real -> real, a: Vec, b: Vec, length: real)
    requires IsSqrt(sqrt) && length >= 0.0 && Prod(length, length) == Norm2(Sub(a, b))
    ensures var d := Cylinder(center, radius, halfHeight, sqrt); d(a) - d(b) <= length
  {
    hide Prod, Hypot, IsSqrt, Rounded2, Abs;
    var ra, rb := Hypot(a.x - center.x, a.y - center.y, sqrt), Hypot(b.x - center.x, b.y - center.y, sqrt);
    var va, vb := Abs(a.z - center.z), Abs(b.z - center.z);
    HypotDifference(a.x - center.x, a.y - center.y, b.x - center.x, b.y - center.y, sqrt);
    assert a.x - center.x - (b.x - center.x) == a.x - b.x && a.y - center.y - (b.y - center.y) == a.y - b.y;
    AbsDifference(a.z - center.z, b.z - center.z);
    assert a.z - center.z - (b.z - center.z) == a.z - b.z;
    AbsSquare(a.z - b.z);
    Rounded2Slope(ra - radius, va - halfHeight, rb - radius, vb - halfHeight, ra - rb, Abs(a.z - b.z), length, sqrt);
  }

  lemma CylinderIsGentle(center: Vec, radius: real, halfHeight: real, sqrt: real -> real)
    requires IsSqrt(sqrt)
    ensures Gentle(Cylinder(center, radius, halfHeight, sqrt))
  {
    hide IsSqrt, Prod, Mix, MixVec, Norm2, Cylinder;
    var d := Cylinder(center, radius, halfHeight, sqrt);
    forall a, b, u | 0.0 <= u <= 1.0 ensures d(MixVec(a, b, u)) <= Mix(d(a), d(b), u) {
      CylinderIsConvex(center, radius, halfHeight, sqrt, a, b, u);
    }
    forall a, b, length | length >= 0.0 && Prod(length, length) == Norm2(Sub(a, b)) ensures d(a) - d(b) <= length {
      CylinderSlope(center, radius, halfHeight, sqrt, a, b, length);
    }
  }

  // ---- exactness of the cylinder distance -------------------------------------

  lemma Rounded2Inside(r: real, v: real, sqrt: real -> real)
    requires IsSqrt(sqrt) && r <= 0.0 && v <= 0.0
    ensures Rounded2(r, v, sqrt) == Max(r, v)
  {
    hide Rounded, Rounded2, IsSqrt;
    CylinderIsRounded(r, v, sqrt);
    RoundedInside(Vec(r, v, Floor3(r, v)), sqrt);
  }

  lemma Rounded2Outside(r: real, v: real, sqrt: real -> real)
    requires IsSqrt(sqrt) && (r > 0.0 || v > 0.0)
    ensures var n := Rounded2(r, v, sqrt); n > 0.0 && Prod(n, n) == Prod(Pos(r), Pos(r)) + Prod(Pos(v), Pos(v))
  {
    hide Rounded, Rounded2, IsSqrt, Prod;
    CylinderIsRounded(r, v, sqrt);
    RoundedOutside(Vec(r, v, Floor3(r, v)), sqrt);
    assert Pos(Floor3(r, v)) == 0.0;
    ProdOne(0.0);
  }

  /** A nearest point of the surface, in radius and height. */
  function Nearest2(h: real, z: real, radius: real, halfHeight: real): Pair {
    var r, v := h - radius, Abs(z) - halfHeight;
    if r > 0.0 || v > 0.0 then Pair(Min(h, radius), Clamp(z, halfHeight))
    else if r >= v then Pair(radius, z)
    else Pair(h, Face(z, halfHeight))
  }

  lemma Nearest2IsOnSurface(h: real, z: real, radius: real, halfHeight: real, sqrt: real -> real)
    requires IsSqrt(sqrt) && h >= 0.0 && radius >= 0.0 && halfHeight >= 0.0
    ensures var n := Nearest2(h, z, radius, halfHeight);
            n.a >= 0.0 && Rounded2(n.a - radius, Abs(n.b) - halfHeight, sqrt) == 0.0
  {
    hide Prod, Rounded2, IsSqrt, Clamp, Face;
    ClampMoves(z, halfHeight);
    FaceMoves(z, halfHeight);
    var n := Nearest2(h, z, radius, halfHeight);
    Rounded2Inside(n.a - radius, Abs(n.b) - halfHeight, sqrt);
  }

  lemma Nearest2IsThatFar(h: real, z: real, radius: real, halfHeight: real, sqrt: real -> real)
    requires IsSqrt(sqrt) && h >= 0.0 && radius >= 0.0 && halfHeight >= 0.0
    ensures var n := Nearest2(h, z, radius, halfHeight);
            var d := Rounded2(h - radius, Abs(z) - halfHeight, sqrt);
            Prod(h - n.a, h - n.a) + Prod(z - n.b, z - n.b) == Prod(d, d)
  {
    hide Prod, Rounded2, IsSqrt, Clamp, Face, Abs;
    var r, v := h - radius, Abs(z) - halfHeight;
    ProdOne(0.0);
    ClampMoves(z, halfHeight);
    FaceMoves(z, halfHeight);
    if r > 0.0 || v > 0.0 {
      Rounded2Outside(r, v, sqrt);
      assert h - Min(h, radius) == Pos(r);
    } else {
      Rounded2Inside(r, v, sqrt);
      assert z - z == 0.0 && h - h == 0.0;
    }
  }

  /** A unit direction along a plane vector of length h. */
  lemma PlaneDirection(x: real, y: real, h: real) returns (a: real, b: real)
    requires h >= 0.0 && Prod(h, h) == Prod(x, x) + Prod(y, y)
    ensures Prod(a, a) + Prod(b, b) == 1.0 && x == Prod(a, h) && y == Prod(b, h)
  {
    SquareNonNegative(x);
    SquareNonNegative(y);
    hide Prod;
    if h == 0.0 {
      ProdOne(0.0);
      ProdOne(1.0);
      a, b := 1.0, 0.0;
    } else {
      a := Quotient(x, h);
      b := Quotient(y, h);
      ScaledSquare(x, a, h);
      ScaledSquare(y, b, h);
      var m := Prod(h, h);
      ProdPositive(h, h);
      ProdSum(Prod(a, a), Prod(b, b), 0.0, m);
      ProdOne(m);
      ProdCancels(Prod(a, a) + Prod(b, b), 1.0, m);
      ProdCancels(1.0, Prod(a, a) + Prod(b, b), m);
    }
  }

  lemma RadialParts(a: real, b: real, h: real, k: real)
    requires Prod(a, a) + Prod(b, b) == 1.0
    ensures Prod(Prod(a, k), Prod(a, k)) + Prod(Prod(b, k), Prod(b, k)) == Prod(k, k)
    ensures var x, y := Prod(a, h) - Prod(a, k), Prod(b, h) - Prod(b, k); Prod(x, x) + Prod(y, y) == Prod(h - k, h - k)
  {
    ProdMinus(a, h, k);
    ProdMinus(b, h, k);
    hide Prod;
    OnRay(a, b, k);
    OnRay(a, b, h - k);
  }

  lemma OnRay(a: real, b: real, k: real)
    requires Prod(a, a) + Prod(b, b) == 1.0
    ensures Prod(Prod(a, k), Prod(a, k)) + Prod(Prod(b, k), Prod(b, k)) == Prod(k, k)
  {
    FourFactors(a, k);
    FourFactors(b, k);
    hide Prod;
    ProdSum(Prod(a, a), Prod(b, b), 0.0, Prod(k, k));
    ProdOne(Prod(k, k));
  }

  lemma RootOfSquare(k: real, x: real, sqrt: real -> real)
    requires IsSqrt(sqrt) && k >= 0.0 && x == Prod(k, k)
    ensures sqrt(x) == k
  {
    SquareNonNegative(k);
    hide Prod;
    Root(x, sqrt);
    RootBound(sqrt(x), k);
    RootBound(k, sqrt(x));
  }

  lemma CylinderAt(center: Vec, radius: real, halfHeight: real, sqrt: real -> real, p: Vec)
    ensures Cylinder(center, radius, halfHeight, sqrt)(p) ==
            Rounded2(Hypot(p.x - center.x, p.y - center.y, sqrt) - radius, Abs(p.z - center.z) - halfHeight, sqrt)
  {
    hide Rounded2, Hypot, Abs;
  }

  lemma CylinderIsReached(center: Vec, radius: real, halfHeight: real, sqrt: real -> real, p: Vec) returns (s: Vec)
    requires IsSqrt(sqrt) && radius >= 0.0 && halfHeight >= 0.0
    ensures var d := Cylinder(center, radius, halfHeight, sqrt); d(s) == 0.0 && Norm2(Sub(p, s)) == Prod(d(p), d(p))
  {
    hide Prod, Rounded2, IsSqrt, Abs, Cylinder, Nearest2, Hypot;
    var x, y, z := p.x - center.x, p.y - center.y, p.z - center.z;
    var h := Hypot(x, y, sqrt);
    HypotSquare(x, y, sqrt);
    var a, b := PlaneDirection(x, y, h);
    var n := Nearest2(h, z, radius, halfHeight);
    Nearest2IsOnSurface(h, z, radius, halfHeight, sqrt);
    Nearest2IsThatFar(h, z, radius, halfHeight, sqrt);
    s := Vec(center.x + Prod(a, n.a), center.y + Prod(b, n.a), center.z + n.b);
    RadialParts(a, b, h, n.a);
    assert s.x - center.x == Prod(a, n.a) && s.y - center.y == Prod(b, n.a) && s.z - center.z == n.b;
    assert p.x - s.x == Prod(a, h) - Prod(a, n.a) && p.y - s.y == Prod(b, h) - Prod(b, n.a) && p.z - s.z == z - n.b;
    HypotIs(Prod(a, n.a), Prod(b, n.a), n.a, sqrt);
    CylinderAt(center, radius, halfHeight, sqrt, p);
    CylinderAt(center, radius, halfHeight, sqrt, s);
  }

  lemma HypotIs(x: real, y: real, k: real, sqrt: real -> real)
    requires IsSqrt(sqrt) && k >= 0.0 && Prod(x, x) + Prod(y, y) == Prod(k, k)
    ensures Hypot(x, y, sqrt) == k
  {
    hide Prod, IsSqrt;
    RootOfSquare(k, Prod(x, x) + Prod(y, y), sqrt);
  }

  lemma CylinderSignExactly(center: Vec, radius: real, halfHeight: real, sqrt: real -> real, p: Vec)
    requires IsSqrt(sqrt)
    ensures Cylinder(center, radius, halfHeight, sqrt)(p) > 0.0 <==>
            Hypot(p.x - center.x, p.y - center.y, sqrt) > radius || Abs(p.z - center.z) > halfHeight
  {
    hide Prod, Rounded2, IsSqrt, Abs, Cylinder, Hypot;
    CylinderAt(center, radius, halfHeight, sqrt, p);
    var r, v := Hypot(p.x - center.x, p.y - center.y, sqrt) - radius, Abs(p.z - center.z) - halfHeight;
    if r > 0.0 || v > 0.0 {
      Rounded2Outside(r, v, sqrt);
    } else {
      Rounded2Inside(r, v, sqrt);
    }
  }

  lemma CylinderIsNoNearer(center: Vec, radius: real, halfHeight: real, sqrt: real -> real, p: Vec, s: Vec)
    requires IsSqrt(sqrt) && Cylinder(center, radius, halfHeight, sqrt)(s) == 0.0
    ensures var d := Cylinder(center, radius, halfHeight, sqrt)(p); Prod(d, d) <= Norm2(Sub(p, s))
  {
    hide Prod, IsSqrt, Norm2, Cylinder, Sub;
    var length := sqrt(Norm2(Sub(p, s)));
    NormNonNegative(Sub(p, s));
    Root(Norm2(Sub(p, s)), sqrt);
    NormTurned(p, s);
    CylinderSlope(center, radius, halfHeight, sqrt, p, s, length);
    CylinderSlope(center, radius, halfHeight, sqrt, s, p, length);
    SquareAtMost(Cylinder(center, radius, halfHeight, sqrt)(p), length);
  }

  /** The cylinder distance is positive exactly outside, no surface point is nearer than its
      size, and some is as near, unless radius or half height is negative. */
  lemma CylinderDistanceIsExact(center: Vec, radius: real, halfHeight: real, sqrt: real -> real, p: Vec)
    requires IsSqrt(sqrt)
    ensures var d := Cylinder(center, radius, halfHeight, sqrt);
            && (d(p) > 0.0 <==> Hypot(p.x - center.x, p.y - center.y, sqrt) > radius || Abs(p.z - center.z) > halfHeight)
            && (forall s :: d(s) == 0.0 ==> Prod(d(p), d(p)) <= Norm2(Sub(p, s)))
            && ((exists s :: d(s) == 0.0 && Norm2(Sub(p, s)) == Prod(d(p), d(p))) <==> radius >= 0.0 && halfHeight >= 0.0)
  {
    hide Prod, IsSqrt, Norm2, Cylinder, Sub, Hypot;
    CylinderSignExactly(center, radius, halfHeight, sqrt, p);
    var d := Cylinder(center, radius, halfHeight, sqrt);
    forall s | d(s) == 0.0 ensures Prod(d(p), d(p)) <= Norm2(Sub(p, s)) {
      CylinderIsNoNearer(center, radius, halfHeight, sqrt, p, s);
    }
    if radius >= 0.0 && halfHeight >= 0.0 {
      var s := CylinderIsReached(center, radius, halfHeight, sqrt, p);
    } else {
      forall s ensures d(s) > 0.0 {
        HypotSquare(s.x - center.x, s.y - center.y, sqrt);
        CylinderSignExactly(center, radius, halfHeight, sqrt, s);
      }
    }
  }

  // ---- the swept minimum ------------------------------------------------------

  /** The least signed distance found along the segment: attained on it, and for a convex
      distance at most the last half-width times the length above the true least. */
  method SegmentMinSignedDistance(start: Vec, end: Vec, distance: Vec -> real) returns (r: real)
    ensures exists t :: 0.0 <= t <= 1.0 && Sweep(start, end, distance)(t) == r
    ensures forall sqrt, t :: IsSqrt(sqrt) && Gentle(distance) && 0.0 <= t <= 1.0 ==>
              r <= distance(PointAt(start, end, t)) + Length(start, end, sqrt) * Shrink(ROUNDS) / 2.0
  {
    hide Gentle, Convex, Lipschitz, IsSqrt, PointAt, Shrink, Length;
    var g := Sweep(start, end, distance);
    r := Minimum(g);
    forall sqrt, t | IsSqrt(sqrt) && Gentle(distance) && 0.0 <= t <= 1.0
      ensures r <= distance(PointAt(start, end, t)) + Length(start, end, sqrt) * Shrink(ROUNDS) / 2.0
    {
      GentleSweep(start, end, distance, sqrt);
      assert g(t) == distance(PointAt(start, end, t));
    }
  }
}
