/** Derivatives on an interval, in the form of a uniform quadratic remainder. */
module Derivatives {
  import opened RealMath
  import opened SmoothMotion

  predicate Inside(x: real, lo: real, hi: real) {
    lo <= x <= hi
  }

  /** The second function is the derivative of the first, with remainder at most k times the
      squared distance. */
  ghost predicate Derives(f: real -> real, d: real -> real, lo: real, hi: real, k: real) {
    k >= 0.0 && forall x, y | Inside(x, lo, hi) && Inside(y, lo, hi) :: Tangent(f(x), f(y), d(y), x - y, k)
  }

  ghost predicate Differentiable(f: real -> real, d: real -> real, lo: real, hi: real) {
    exists k :: Derives(f, d, lo, hi, k)
  }

  // ---- numbers ----------------------------------------------------------------

  lemma AbsOfSum(a: real, b: real)
    ensures Abs(a + b) <= Abs(a) + Abs(b) && Abs(a - b) <= Abs(a) + Abs(b)
  {
  }

  lemma AbsSquare(h: real)
    ensures Prod(Abs(h), Abs(h)) == Prod(h, h) && Prod(-h, -h) == Prod(h, h) && Prod(h, h) >= 0.0
  {
    SquareNonNegative(h);
  }

  /** A product of bounded factors. */
  lemma BoundedProduct(a: real, b: real, m: real, n: real)
    requires Abs(a) <= m && Abs(b) <= n
    ensures Abs(Prod(a, b)) <= Prod(m, n)
  {
    hide Prod;
    AbsOfProd(a, b);
    ProdMonotone(Abs(a), m, Abs(b));
    ScaledBound(m, Abs(b), n);
  }

  lemma ProdAssociates(a: real, b: real, c: real)
    ensures Prod(a, Prod(b, c)) == Prod(Prod(a, b), c)
  {
  }

  lemma ProdSpreads(a: real, b: real, c: real)
    ensures Prod(a, b + c) == Prod(a, b) + Prod(a, c) && Prod(b + c, a) == Prod(b, a) + Prod(c, a)
    ensures Prod(a, b - c) == Prod(a, b) - Prod(a, c) && Prod(-a, b) == -Prod(a, b) && Prod(a, -b) == -Prod(a, b)
  {
  }

  lemma LargerBound(fx: real, fy: real, slope: real, h: real, k: real, m: real)
    requires Tangent(fx, fy, slope, h, k) && k <= m
    ensures Tangent(fx, fy, slope, h, m)
  {
    hide Prod;
    AbsSquare(h);
    ProdMonotone(k, m, Prod(h, h));
  }

  /** The slope of a function with quadratic remainder turns at most linearly. */
  lemma SlopeTurns(fx: real, fy: real, dx: real, dy: real, h: real, k: real)
    requires Tangent(fx, fy, dy, h, k) && Tangent(fy, fx, dx, -h, k) && (h == 0.0 ==> dx == dy)
    ensures Abs(dx - dy) <= Prod(2.0 * k, Abs(h))
  {
    hide Prod;
    ProdSpreads(h, dx, dy);
    ProdCommutes(h, dx - dy);
    ProdSpreads(dx, h, 0.0);
    ProdCommutes(dx, h);
    ProdCommutes(dy, h);
    AbsSquare(h);
    AbsOfProd(dx - dy, h);
    ProdAssociates(2.0 * k, Abs(h), Abs(h));
    ProdSpreads(Prod(h, h), k, k);
    if h == 0.0 {
      ProdOne(2.0 * k);
      ProdCommutes(2.0 * k, 0.0);
    } else {
      ProdCancels(Abs(dx - dy), Prod(2.0 * k, Abs(h)), Abs(h));
    }
  }

  lemma Steep(fx: real, fy: real, slope: real, h: real, k: real, m: real, w: real)
    requires Tangent(fx, fy, slope, h, k) && Abs(slope) <= m && Abs(h) <= w && k >= 0.0
    ensures Abs(fx - fy) <= Prod(m + Prod(k, w), Abs(h))
  {
    hide Prod;
    AbsOfProd(slope, h);
    ProdMonotone(Abs(slope), m, Abs(h));
    AbsSquare(h);
    ProdAssociates(k, Abs(h), Abs(h));
    ScaledBound(k, Abs(h), w);
    ProdMonotone(Prod(k, Abs(h)), Prod(k, w), Abs(h));
    ProdSpreads(Abs(h), m, Prod(k, w));
    AbsOfSum(fx - fy - Prod(slope, h), Prod(slope, h));
  }

  lemma ProductError(fx: real, fy: real, f1: real, gx: real, gy: real, g1: real, h: real)
    ensures Prod(fx, gx) - Prod(fy, gy) - Prod(Prod(f1, gy) + Prod(fy, g1), h) ==
            Prod(fx - fy, gx - gy) + Prod(gy, fx - fy - Prod(f1, h)) + Prod(fy, gx - gy - Prod(g1, h))
  {
  }

  lemma TangentProduct(fx: real, fy: real, f1: real, gx: real, gy: real, g1: real, h: real, k: real, m: real)
    requires Tangent(fx, fy, f1, h, k) && Tangent(gx, gy, g1, h, k) && k >= 0.0
    requires Abs(fy) <= m && Abs(gy) <= m && Abs(fx - fy) <= Prod(m, Abs(h)) && Abs(gx - gy) <= Prod(m, Abs(h))
    ensures Tangent(Prod(fx, gx), Prod(fy, gy), Prod(f1, gy) + Prod(fy, g1), h, Prod(m, m) + 2.0 * Prod(m, k))
  {
    hide Prod;
    ProductError(fx, fy, f1, gx, gy, g1, h);
    BoundedProduct(fx - fy, gx - gy, Prod(m, Abs(h)), Prod(m, Abs(h)));
    BoundedProduct(gy, fx - fy - Prod(f1, h), m, Prod(k, Prod(h, h)));
    BoundedProduct(fy, gx - gy - Prod(g1, h), m, Prod(k, Prod(h, h)));
    SquareOfProduct(m, h);
    ProdAssociates(m, k, Prod(h, h));
    ProdSpreads(Prod(h, h), Prod(m, m), 2.0 * Prod(m, k));
    ProdSpreads(Prod(h, h), Prod(m, k), Prod(m, k));
    AbsOfSum(Prod(fx - fy, gx - gy), Prod(gy, fx - fy - Prod(f1, h)));
    AbsOfSum(Prod(fx - fy, gx - gy) + Prod(gy, fx - fy - Prod(f1, h)), Prod(fy, gx - gy - Prod(g1, h)));
  }

  lemma TangentTimes(b: real, c: real, fx: real, fy: real, slope: real, h: real, k: real)
    requires Tangent(fx, fy, slope, h, k)
    ensures Tangent(b + Prod(c, fx), b + Prod(c, fy), Prod(c, slope), h, Prod(Abs(c), k))
  {
    hide Prod;
    ProdSpreads(c, fx, fy);
    ProdSpreads(c, fx - fy, Prod(slope, h));
    ProdAssociates(c, slope, h);
    ProdAssociates(Abs(c), k, Prod(h, h));
    BoundedProduct(c, fx - fy - Prod(slope, h), Abs(c), Prod(k, Prod(h, h)));
  }

  lemma TangentSum(fx: real, fy: real, f1: real, gx: real, gy: real, g1: real, h: real, k: real, m: real)
    requires Tangent(fx, fy, f1, h, k) && Tangent(gx, gy, g1, h, m)
    ensures Tangent(fx + gx, fy + gy, f1 + g1, h, k + m)
  {
    hide Prod;
    ProdSpreads(h, f1, g1);
    ProdSpreads(Prod(h, h), k, m);
  }

  lemma SquareOfProduct(m: real, h: real)
    ensures Prod(Prod(m, Abs(h)), Prod(m, Abs(h))) == Prod(Prod(m, m), Prod(h, h))
  {
    AbsSquare(h);
    assert (m * Abs(h)) * (m * Abs(h)) == (m * m) * (Abs(h) * Abs(h));
  }

  /** The slope along an inner function. */
  lemma TangentAlong(ox: real, oy: real, slope: real, ax: real, ay: real, rate: real, h: real, k: real, m: real)
    requires Tangent(ox, oy, slope, ax - ay, 1.0) && Abs(slope) <= 1.0
    requires Tangent(ax, ay, rate, h, k) && k >= 0.0 && Abs(ax - ay) <= Prod(m, Abs(h))
    ensures Tangent(ox, oy, Prod(slope, rate), h, Prod(m, m) + k)
  {
    hide Prod;
    var e := ax - ay - Prod(rate, h);
    ProdSpreads(slope, ax - ay, Prod(rate, h));
    ProdAssociates(slope, rate, h);
    BoundedProduct(slope, e, 1.0, Prod(k, Prod(h, h)));
    BoundedProduct(ax - ay, ax - ay, Prod(m, Abs(h)), Prod(m, Abs(h)));
    SquareOfProduct(m, h);
    ProdOne(Prod(k, Prod(h, h)));
    ProdOne(Prod(ax - ay, ax - ay));
    ProdSpreads(Prod(h, h), Prod(m, m), k);
    AbsOfSum(ox - oy - Prod(slope, ax - ay), Prod(slope, e));
    SquareNonNegative(ax - ay);
  }

  /** Two tangents meeting between the points make one. */
  lemma TangentGlued(fx: real, fm: real, fy: real, dm: real, dy: real, a: real, b: real, k: real)
    requires Tangent(fx, fm, dm, a, k) && Tangent(fm, fy, dy, b, k) && Abs(dm - dy) <= Prod(2.0 * k, Abs(b))
    requires (a <= 0.0 && b <= 0.0) || (a >= 0.0 && b >= 0.0)
    ensures Tangent(fx, fy, dy, a + b, k)
  {
    hide Prod;
    ProdSpreads(dy, a, b);
    ProdSpreads(a, dm, dy);
    ProdDifference(dm, dy, a);
    BoundedProduct(dm - dy, a, Prod(2.0 * k, Abs(b)), Abs(a));
    GluedSquare(a, b, k);
    AbsOfSum(fx - fm - Prod(dm, a), fm - fy - Prod(dy, b));
    AbsOfSum(fx - fm - Prod(dm, a) + (fm - fy - Prod(dy, b)), Prod(dm - dy, a));
  }

  lemma GluedSquare(a: real, b: real, k: real)
    requires (a <= 0.0 && b <= 0.0) || (a >= 0.0 && b >= 0.0)
    ensures Prod(k, Prod(a, a)) + Prod(k, Prod(b, b)) + Prod(Prod(2.0 * k, Abs(b)), Abs(a)) == Prod(k, Prod(a + b, a + b))
  {
    assert Abs(b) * Abs(a) == a * b;
    assert 2.0 * k * Abs(b) * Abs(a) == 2.0 * k * (Abs(b) * Abs(a));
  }

  // ---- rules ------------------------------------------------------------------

  lemma DerivesAt(f: real -> real, d: real -> real, lo: real, hi: real, k: real, x: real, y: real)
    requires Derives(f, d, lo, hi, k) && Inside(x, lo, hi) && Inside(y, lo, hi)
    ensures Tangent(f(x), f(y), d(y), x - y, k) && Abs(d(x) - d(y)) <= Prod(2.0 * k, Abs(x - y))
  {
    hide Tangent, Prod;
    assert -(x - y) == y - x;
    SlopeTurns(f(x), f(y), d(x), d(y), x - y, k);
  }

  lemma Weaker(f: real -> real, d: real -> real, lo: real, hi: real, k: real, m: real)
    requires Derives(f, d, lo, hi, k) && k <= m
    ensures Derives(f, d, lo, hi, m)
  {
    hide Tangent;
    forall x, y | Inside(x, lo, hi) && Inside(y, lo, hi) ensures Tangent(f(x), f(y), d(y), x - y, m) {
      LargerBound(f(x), f(y), d(y), x - y, k, m);
    }
  }

  /** Function, derivative and difference quotients are bounded. */
  ghost predicate Bounded(f: real -> real, d: real -> real, lo: real, hi: real, m: real) {
    && (forall x | Inside(x, lo, hi) :: Abs(f(x)) <= m && Abs(d(x)) <= m)
    && (forall x, y | Inside(x, lo, hi) && Inside(y, lo, hi) :: Abs(f(x) - f(y)) <= Prod(m, Abs(x - y)))
  }

  lemma BoundedAt(f: real -> real, d: real -> real, lo: real, hi: real, k: real, x: real, y: real)
    requires Derives(f, d, lo, hi, k) && lo <= hi && Inside(x, lo, hi) && Inside(y, lo, hi)
    ensures var w := hi - lo;
            var turn := Abs(d(lo)) + Prod(2.0 * k, w);
            Abs(d(x)) <= turn && Abs(f(x) - f(y)) <= Prod(turn + Prod(k, w), Abs(x - y))
  {
    hide Tangent, Prod, Derives;
    var w := hi - lo;
    DerivesAt(f, d, lo, hi, k, x, lo);
    DerivesAt(f, d, lo, hi, k, y, lo);
    DerivesAt(f, d, lo, hi, k, x, y);
    DerivesNonNegative(f, d, lo, hi, k);
    ScaledBound(2.0 * k, Abs(x - lo), w);
    ScaledBound(2.0 * k, Abs(y - lo), w);
    Steep(f(x), f(y), d(y), x - y, k, Abs(d(lo)) + Prod(2.0 * k, w), w);
  }

  lemma DerivesNonNegative(f: real -> real, d: real -> real, lo: real, hi: real, k: real)
    requires Derives(f, d, lo, hi, k)
    ensures k >= 0.0
  {
  }

  lemma BoundExists(f: real -> real, d: real -> real, lo: real, hi: real, k: real) returns (m: real)
    requires Derives(f, d, lo, hi, k) && lo <= hi
    ensures m >= 0.0 && Bounded(f, d, lo, hi, m)
  {
    hide Tangent, Prod, Derives;
    DerivesNonNegative(f, d, lo, hi, k);
    var w := hi - lo;
    var turn := Abs(d(lo)) + Prod(2.0 * k, w);
    var slope := turn + Prod(k, w);
    ProdNonNegative(2.0 * k, w);
    ProdNonNegative(k, w);
    ProdNonNegative(slope, w);
    m := slope + Abs(f(lo)) + Prod(slope, w);
    forall x | Inside(x, lo, hi) ensures Abs(f(x)) <= m && Abs(d(x)) <= m {
      BoundedAt(f, d, lo, hi, k, x, lo);
      ScaledBound(slope, Abs(x - lo), w);
    }
    forall x, y | Inside(x, lo, hi) && Inside(y, lo, hi) ensures Abs(f(x) - f(y)) <= Prod(m, Abs(x - y)) {
      BoundedAt(f, d, lo, hi, k, x, y);
      ProdMonotone(slope, m, Abs(x - y));
    }
  }

  lemma WiderBound(f: real -> real, d: real -> real, lo: real, hi: real, m: real, n: real)
    requires Bounded(f, d, lo, hi, m) && m <= n
    ensures Bounded(f, d, lo, hi, n)
  {
    hide Prod;
    forall x, y | Inside(x, lo, hi) && Inside(y, lo, hi) ensures Abs(f(x) - f(y)) <= Prod(n, Abs(x - y)) {
      ProdMonotone(m, n, Abs(x - y));
    }
  }

  function Greater(a: real, b: real): real {
    if a < b then b else a
  }

  lemma DerivesBecause(f: real -> real, d: real -> real, lo: real, hi: real, k: real)
    requires k >= 0.0 && forall x, y | Inside(x, lo, hi) && Inside(y, lo, hi) :: Tangent(f(x), f(y), d(y), x - y, k)
    ensures Differentiable(f, d, lo, hi)
  {
    hide Tangent;
    assert Derives(f, d, lo, hi, k);
  }

  lemma SameRule(f: real -> real, d: real -> real, g: real -> real, e: real -> real, lo: real, hi: real)
    requires Differentiable(f, d, lo, hi) && forall x | Inside(x, lo, hi) :: g(x) == f(x) && e(x) == d(x)
    ensures Differentiable(g, e, lo, hi)
  {
    hide Tangent;
    var k :| Derives(f, d, lo, hi, k);
    assert Derives(g, e, lo, hi, k);
  }

  lemma SumRule(f: real -> real, f1: real -> real, g: real -> real, g1: real -> real, s: real -> real, s1: real -> real, lo: real, hi: real)
    requires Differentiable(f, f1, lo, hi) && Differentiable(g, g1, lo, hi)
    requires forall x | Inside(x, lo, hi) :: s(x) == f(x) + g(x) && s1(x) == f1(x) + g1(x)
    ensures Differentiable(s, s1, lo, hi)
  {
    hide Prod, Derives, Tangent;
    var k :| Derives(f, f1, lo, hi, k);
    var m :| Derives(g, g1, lo, hi, m);
    DerivesNonNegative(f, f1, lo, hi, k);
    DerivesNonNegative(g, g1, lo, hi, m);
    forall x, y | Inside(x, lo, hi) && Inside(y, lo, hi) ensures Tangent(s(x), s(y), s1(y), x - y, k + m) {
      DerivesAt(f, f1, lo, hi, k, x, y);
      DerivesAt(g, g1, lo, hi, m, x, y);
      TangentSum(f(x), f(y), f1(y), g(x), g(y), g1(y), x - y, k, m);
    }
    DerivesBecause(s, s1, lo, hi, k + m);
  }

  /** A multiple, raised by a constant. */
  lemma LinearRule(b: real, c: real, f: real -> real, d: real -> real, g: real -> real, g1: real -> real, lo: real, hi: real)
    requires Differentiable(f, d, lo, hi) && forall x | Inside(x, lo, hi) :: g(x) == b + Prod(c, f(x)) && g1(x) == Prod(c, d(x))
    ensures Differentiable(g, g1, lo, hi)
  {
    hide Prod, Derives, Tangent;
    var k :| Derives(f, d, lo, hi, k);
    DerivesNonNegative(f, d, lo, hi, k);
    ProdNonNegative(Abs(c), k);
    forall x, y | Inside(x, lo, hi) && Inside(y, lo, hi) ensures Tangent(g(x), g(y), g1(y), x - y, Prod(Abs(c), k)) {
      DerivesAt(f, d, lo, hi, k, x, y);
      TangentTimes(b, c, f(x), f(y), d(y), x - y, k);
    }
    DerivesBecause(g, g1, lo, hi, Prod(Abs(c), k));
  }

  lemma ProductRule(f: real -> real, f1: real -> real, g: real -> real, g1: real -> real, p: real -> real, p1: real -> real, lo: real, hi: real)
    requires Differentiable(f, f1, lo, hi) && Differentiable(g, g1, lo, hi) && lo <= hi
    requires forall x | Inside(x, lo, hi) :: p(x) == Prod(f(x), g(x)) && p1(x) == Prod(f1(x), g(x)) + Prod(f(x), g1(x))
    ensures Differentiable(p, p1, lo, hi)
  {
    hide Prod, Derives, Tangent, Bounded;
    var k0 :| Derives(f, f1, lo, hi, k0);
    var k1 :| Derives(g, g1, lo, hi, k1);
    var k := Greater(k0, k1);
    Weaker(f, f1, lo, hi, k0, k);
    Weaker(g, g1, lo, hi, k1, k);
    var m0 := BoundExists(f, f1, lo, hi, k);
    var m1 := BoundExists(g, g1, lo, hi, k);
    var m := Greater(m0, m1);
    WiderBound(f, f1, lo, hi, m0, m);
    WiderBound(g, g1, lo, hi, m1, m);
    DerivesNonNegative(f, f1, lo, hi, k);
    ProdNonNegative(m, m);
    ProdNonNegative(m, k);
    var top := Prod(m, m) + 2.0 * Prod(m, k);
    forall x, y | Inside(x, lo, hi) && Inside(y, lo, hi) ensures Tangent(p(x), p(y), p1(y), x - y, top) {
      DerivesAt(f, f1, lo, hi, k, x, y);
      DerivesAt(g, g1, lo, hi, k, x, y);
      BoundedBy(f, f1, lo, hi, m, x, y);
      BoundedBy(g, g1, lo, hi, m, x, y);
      TangentProduct(f(x), f(y), f1(y), g(x), g(y), g1(y), x - y, k, m);
    }
    DerivesBecause(p, p1, lo, hi, top);
  }

  lemma BoundedBy(f: real -> real, d: real -> real, lo: real, hi: real, m: real, x: real, y: real)
    requires Bounded(f, d, lo, hi, m) && Inside(x, lo, hi) && Inside(y, lo, hi)
    ensures Abs(f(y)) <= m && Abs(f(x) - f(y)) <= Prod(m, Abs(x - y))
  {
    hide Prod;
  }

  /** A function with slopes at most one and remainder at most one, everywhere. */
  ghost predicate Gentle(o: real -> real, o1: real -> real) {
    forall a, b :: Tangent(o(a), o(b), o1(b), a - b, 1.0) && Abs(o1(b)) <= 1.0
  }

  lemma GentleAt(o: real -> real, o1: real -> real, a: real, b: real)
    requires Gentle(o, o1)
    ensures Tangent(o(a), o(b), o1(b), a - b, 1.0) && Abs(o1(b)) <= 1.0
  {
    hide Tangent;
  }

  lemma ChainRule(o: real -> real, o1: real -> real, f: real -> real, d: real -> real, c: real -> real, c1: real -> real, lo: real, hi: real)
    requires Gentle(o, o1) && Differentiable(f, d, lo, hi) && lo <= hi
    requires forall x | Inside(x, lo, hi) :: c(x) == o(f(x)) && c1(x) == Prod(o1(f(x)), d(x))
    ensures Differentiable(c, c1, lo, hi)
  {
    hide Prod, Derives, Tangent, Bounded, Gentle;
    var k :| Derives(f, d, lo, hi, k);
    var m := BoundExists(f, d, lo, hi, k);
    DerivesNonNegative(f, d, lo, hi, k);
    ProdNonNegative(m, m);
    forall x, y | Inside(x, lo, hi) && Inside(y, lo, hi) ensures Tangent(c(x), c(y), c1(y), x - y, Prod(m, m) + k) {
      DerivesAt(f, d, lo, hi, k, x, y);
      BoundedBy(f, d, lo, hi, m, x, y);
      GentleAt(o, o1, f(x), f(y));
      TangentAlong(o(f(x)), o(f(y)), o1(f(y)), f(x), f(y), d(y), x - y, k, m);
    }
    DerivesBecause(c, c1, lo, hi, Prod(m, m) + k);
  }

  /** A function is differentiable where both halves are. */
  lemma GlueRule(f: real -> real, d: real -> real, lo: real, mid: real, hi: real)
    requires lo <= mid <= hi && Differentiable(f, d, lo, mid) && Differentiable(f, d, mid, hi)
    ensures Differentiable(f, d, lo, hi)
  {
    hide Prod, Derives, Tangent;
    var k0 :| Derives(f, d, lo, mid, k0);
    var k1 :| Derives(f, d, mid, hi, k1);
    var k := Greater(k0, k1);
    Weaker(f, d, lo, mid, k0, k);
    Weaker(f, d, mid, hi, k1, k);
    DerivesNonNegative(f, d, lo, mid, k);
    forall x, y | Inside(x, lo, hi) && Inside(y, lo, hi) ensures Tangent(f(x), f(y), d(y), x - y, k) {
      GlueAt(f, d, lo, mid, hi, k, x, y);
    }
    DerivesBecause(f, d, lo, hi, k);
  }

  lemma GlueAt(f: real -> real, d: real -> real, lo: real, mid: real, hi: real, k: real, x: real, y: real)
    requires lo <= mid <= hi && Derives(f, d, lo, mid, k) && Derives(f, d, mid, hi, k) && Inside(x, lo, hi) && Inside(y, lo, hi)
    ensures Tangent(f(x), f(y), d(y), x - y, k)
  {
    hide Prod, Derives, Tangent;
    assert (x - mid) + (mid - y) == x - y;
    if x <= mid && y <= mid {
      DerivesAt(f, d, lo, mid, k, x, y);
    } else if x >= mid && y >= mid {
      DerivesAt(f, d, mid, hi, k, x, y);
    } else if x <= mid {
      DerivesAt(f, d, lo, mid, k, x, mid);
      DerivesAt(f, d, mid, hi, k, mid, y);
      TangentGlued(f(x), f(mid), f(y), d(mid), d(y), x - mid, mid - y, k);
    } else {
      DerivesAt(f, d, mid, hi, k, x, mid);
      DerivesAt(f, d, lo, mid, k, mid, y);
      TangentGlued(f(x), f(mid), f(y), d(mid), d(y), x - mid, mid - y, k);
    }
  }

  /** The same motion, begun later. */
  lemma ShiftRule(f: real -> real, d: real -> real, g: real -> real, g1: real -> real, lo: real, hi: real, start: real)
    requires Differentiable(f, d, lo, hi)
    requires forall x | Inside(x, start + lo, start + hi) :: g(x) == f(x - start) && g1(x) == d(x - start)
    ensures Differentiable(g, g1, start + lo, start + hi)
  {
    hide Prod, Derives, Tangent;
    var k :| Derives(f, d, lo, hi, k);
    DerivesNonNegative(f, d, lo, hi, k);
    forall x, y | Inside(x, start + lo, start + hi) && Inside(y, start + lo, start + hi) ensures Tangent(g(x), g(y), g1(y), x - y, k) {
      DerivesAt(f, d, lo, hi, k, x - start, y - start);
      assert (x - start) - (y - start) == x - y;
    }
    DerivesBecause(g, g1, start + lo, start + hi, k);
  }

  lemma RestrictRule(f: real -> real, d: real -> real, lo: real, hi: real, top: real)
    requires Differentiable(f, d, lo, hi) && top <= hi
    ensures Differentiable(f, d, lo, top)
  {
    hide Tangent;
    var k :| Derives(f, d, lo, hi, k);
    forall x, y | Inside(x, lo, top) && Inside(y, lo, top) ensures Tangent(f(x), f(y), d(y), x - y, k) {
      assert Inside(x, lo, hi) && Inside(y, lo, hi);
    }
    DerivesBecause(f, d, lo, top, k);
  }

  lemma ConstantRule(f: real -> real, d: real -> real, lo: real, hi: real, c: real)
    requires forall x | Inside(x, lo, hi) :: f(x) == c && d(x) == 0.0
    ensures Differentiable(f, d, lo, hi)
  {
    hide Prod;
    forall x, y | Inside(x, lo, hi) && Inside(y, lo, hi) ensures Tangent(f(x), f(y), d(y), x - y, 0.0) {
      ProdOne(x - y);
      ProdOne(Prod(x - y, x - y));
    }
    DerivesBecause(f, d, lo, hi, 0.0);
  }
}
