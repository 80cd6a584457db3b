/** Real vectors, and the identities that stand for the square root and for cosine and sine. */
module RealMath {

  /** The non-negative square root. */
  ghost predicate IsSqrt(sqrt: real -> real) {
    forall x :: x >= 0.0 ==> sqrt(x) >= 0.0 && Prod(sqrt(x), sqrt(x)) == x
  }

  /** Cosine and sine, as far as rotations need them. */
  ghost predicate IsTrig(cos: real -> real, sin: real -> real) {
    && (forall a :: cos(a) * cos(a) + sin(a) * sin(a) == 1.0)
    && cos(0.0) == 1.0 && sin(0.0) == 0.0
  }

  // ---- products ---------------------------------------------------------------

  /** A product by name, so that proofs can treat it as a term of linear arithmetic. */
  function Prod(x: real, y: real): real {
    x * y
  }

  lemma ProdCommutes(a: real, b: real)
    ensures Prod(a, b) == Prod(b, a)
  {
  }

  lemma ProdSum(a: real, b: real, c: real, n: real)
    ensures Prod(a + b + c, n) == Prod(a, n) + Prod(b, n) + Prod(c, n)
  {
  }

  lemma ProdDifference(a: real, b: real, n: real)
    ensures Prod(a - b, n) == Prod(a, n) - Prod(b, n)
  {
  }

  lemma ProdOne(n: real)
    ensures Prod(1.0, n) == n && Prod(0.0, n) == 0.0 && Prod(-n, -n) == Prod(n, n)
  {
  }

  lemma ProdNonNegative(a: real, b: real)
    requires a >= 0.0 && b >= 0.0
    ensures Prod(a, b) >= 0.0
  {
  }

  lemma ProdPositive(a: real, b: real)
    requires a > 0.0 && b > 0.0
    ensures Prod(a, b) > 0.0
  {
  }

  lemma SquareNonNegative(a: real)
    ensures Prod(a, a) >= 0.0
    ensures Prod(a, a) == 0.0 ==> a == 0.0
  {
    hide Prod;
    ProdOne(a);
    if a > 0.0 { ProdPositive(a, a); }
    if a < 0.0 { ProdPositive(-a, -a); }
  }

  lemma ProdMonotone(a: real, b: real, c: real)
    requires a <= b && c >= 0.0
    ensures Prod(a, c) <= Prod(b, c)
  {
    ProdNonNegative(b - a, c);
    ProdDifference(b, a, c);
  }

  lemma FactorNotPositive(x: real, y: real)
    requires Prod(x, y) <= 0.0 && y > 0.0
    ensures x <= 0.0
  {
  }

  lemma ProdCancels(a: real, b: real, n: real)
    requires n > 0.0 && Prod(a, n) <= Prod(b, n)
    ensures a <= b
  {
    hide Prod;
    ProdDifference(a, b, n);
    FactorNotPositive(a - b, n);
  }

  lemma DifferenceOfSquares(a: real, b: real)
    ensures Prod(a - b, a + b) == Prod(a, a) - Prod(b, b)
  {
  }

  lemma RootBound(a: real, b: real)
    requires b >= 0.0 && Prod(a, a) <= Prod(b, b)
    ensures a <= b
  {
    hide Prod;
    if a + b > 0.0 {
      DifferenceOfSquares(a, b);
      FactorNotPositive(a - b, a + b);
    }
  }

  // ---- means ------------------------------------------------------------------

  function Mix(a: real, b: real, w: real): real {
    Prod(a, 1.0 - w) + Prod(b, w)
  }

  lemma MixMonotone(a: real, b: real, c: real, d: real, u: real)
    requires a <= c && b <= d && 0.0 <= u <= 1.0
    ensures Mix(a, b, u) <= Mix(c, d, u)
  {
    hide Prod;
    ProdMonotone(a, c, 1.0 - u);
    ProdMonotone(b, d, u);
  }

  function Abs(x: real): real {
    if x < 0.0 then -x else x
  }

  // ---- vectors ----------------------------------------------------------------

  datatype Vec = Vec(x: real, y: real, z: real)

  function Sub(a: Vec, b: Vec): Vec {
    Vec(a.x - b.x, a.y - b.y, a.z - b.z)
  }

  function Add(a: Vec, b: Vec): Vec {
    Vec(a.x + b.x, a.y + b.y, a.z + b.z)
  }

  function Dot(a: Vec, b: Vec): real {
    Prod(a.x, b.x) + Prod(a.y, b.y) + Prod(a.z, b.z)
  }

  function Norm2(a: Vec): real {
    Dot(a, a)
  }

  lemma NormNonNegative(a: Vec)
    ensures Norm2(a) >= 0.0
  {
    SquareNonNegative(a.x);
    SquareNonNegative(a.y);
    SquareNonNegative(a.z);
  }

  lemma Lagrange(a: Vec, b: Vec)
    ensures var c, d, e := a.x * b.y - a.y * b.x, a.x * b.z - a.z * b.x, a.y * b.z - a.z * b.y;
            Prod(Norm2(a), Norm2(b)) - Prod(Dot(a, b), Dot(a, b)) == Prod(c, c) + Prod(d, d) + Prod(e, e)
  {
  }

  lemma CauchySchwarz(a: Vec, b: Vec)
    ensures Prod(Dot(a, b), Dot(a, b)) <= Prod(Norm2(a), Norm2(b))
  {
    Lagrange(a, b);
    SquareNonNegative(a.x * b.y - a.y * b.x);
    SquareNonNegative(a.x * b.z - a.z * b.x);
    SquareNonNegative(a.y * b.z - a.z * b.y);
  }

  /** A direction of length at most one reaches no further than the length. */
  lemma Reach(a: Vec, b: Vec, length: real)
    requires Norm2(a) <= 1.0 && length >= 0.0 && Norm2(b) <= Prod(length, length)
    ensures Dot(a, b) <= length
  {
    CauchySchwarz(a, b);
    NormNonNegative(b);
    hide Norm2, Dot, Prod;
    ProdMonotone(Norm2(a), 1.0, Norm2(b));
    ProdOne(Norm2(b));
    RootBound(Dot(a, b), length);
  }
}
