/** The quintic smooth step, rest-to-rest motion and the smooth arc profile. */
module SmoothMotion {
  import opened RealMath

  function Clip(u: real): real {
    if u < 0.0 then 0.0 else if u > 1.0 then 1.0 else u
  }

  // ---- the smooth step --------------------------------------------------------

  function P2(u: real): real { u * u }
  function P3(u: real): real { u * u * u }
  function P4(u: real): real { u * u * u * u }
  function P5(u: real): real { u * u * u * u * u }
  function P6(u: real): real { u * u * u * u * u * u }

  function Step(u: real): real { 10.0 * P3(u) - 15.0 * P4(u) + 6.0 * P5(u) }

  function Step1(u: real): real { 30.0 * P2(u) - 60.0 * P3(u) + 30.0 * P4(u) }

  function Step2(u: real): real { 60.0 * u - 180.0 * P2(u) + 120.0 * P3(u) }

  function Step3(u: real): real { 60.0 - 360.0 * u + 360.0 * P2(u) }

  /** The integral of the step, which is the angle travelled on a ramp. */
  function Travel(u: real): real { 2.5 * P4(u) - 3.0 * P5(u) + P6(u) }

  /** A value and its first three derivatives. */
  datatype Jet = Jet(value: real, d1: real, d2: real, d3: real)

  function Smooth(u: real): Jet {
    var c := Clip(u);
    Jet(Step(c), Step1(c), Step2(c), Step3(c))
  }

  /** Motion from rest to rest over a distance. */
  function QuinticMotion(start: real, displacement: real, duration: real, elapsed: real): Jet
    requires duration > 0.0
  {
    PowersPositive(duration);
    var s := Smooth(elapsed / duration);
    Jet(start + displacement * s.value,
        Rate(displacement, s.d1, duration),
        Rate(displacement, s.d2, P2(duration)),
        Rate(displacement, s.d3, P3(duration)))
  }

  lemma PowersPositive(n: real)
    requires n > 0.0
    ensures P2(n) > 0.0 && P3(n) > 0.0
  {
    ProdPositive(n, n);
    ProdPositive(n * n, n);
  }

  function Rate(d: real, s: real, n: real): real
    requires n != 0.0
  {
    d * s / n
  }

  lemma EndPowers(u: real)
    requires u == 0.0 || u == 1.0
    ensures P2(u) == u && P3(u) == u && P4(u) == u && P5(u) == u && P6(u) == u
  {
  }

  lemma SmoothEnd(u: real)
    requires u == 0.0 || u == 1.0
    ensures Smooth(u) == Jet(u, 0.0, 0.0, 60.0)
  {
    hide Step, Step1, Step2, Step3;
    StepEnd(u);
  }

  lemma StepEnd(u: real)
    requires u == 0.0 || u == 1.0
    ensures Step(u) == u && Step1(u) == 0.0 && Step2(u) == 0.0 && Step3(u) == 60.0 && Travel(u) == 0.5 * u
  {
    hide P2, P3, P4, P5, P6;
    EndPowers(u);
    StepOfFixed(u);
  }

  lemma StepOfFixed(u: real)
    requires P2(u) == u && P3(u) == u && P4(u) == u && P5(u) == u && P6(u) == u
    ensures Step(u) == u && Step1(u) == 0.0 && Step2(u) == 0.0 && Step3(u) == 60.0 && Travel(u) == 0.5 * u
  {
    hide P2, P3, P4, P5, P6;
  }

  /** The motion starts and ends at rest, without acceleration, where it should. */
  lemma QuinticEnds(start: real, displacement: real, duration: real)
    requires duration > 0.0
    ensures var j := QuinticMotion(start, displacement, duration, 0.0); j.value == start && j.d1 == 0.0 && j.d2 == 0.0
    ensures var j := QuinticMotion(start, displacement, duration, duration);
            j.value == start + displacement && j.d1 == 0.0 && j.d2 == 0.0
  {
    hide Smooth, QuinticMotion;
    SmoothEnd(0.0);
    SmoothEnd(1.0);
    NoQuotient(0.0, duration);
    assert duration / duration == 1.0;
    AtRest(start, displacement, duration, 0.0);
    AtRest(start, displacement, duration, duration);
  }

  lemma AtRest(start: real, displacement: real, duration: real, elapsed: real)
    requires duration > 0.0
    ensures var s := Smooth(elapsed / duration);
            var j := QuinticMotion(start, displacement, duration, elapsed);
            s.d1 == 0.0 && s.d2 == 0.0 ==> j.value == start + displacement * s.value && j.d1 == 0.0 && j.d2 == 0.0
  {
    hide Smooth, P2, P3;
    PowersPositive(duration);
    var s := Smooth(elapsed / duration);
    NoRate(displacement, s.d1, duration);
    NoRate(displacement, s.d2, P2(duration));
    hide Rate;
  }

  lemma NoRate(d: real, s: real, n: real)
    requires n != 0.0
    ensures s == 0.0 ==> Rate(d, s, n) == 0.0
  {
    if s == 0.0 { NoQuotient(d * s, n); }
  }

  lemma NoQuotient(x: real, n: real)
    requires x == 0.0 && n != 0.0
    ensures x / n == 0.0
  {
  }

  // ---- speed ------------------------------------------------------------------

  lemma ClipInUnit(u: real)
    ensures 0.0 <= Clip(u) <= 1.0
  {
  }

  lemma Bump(u: real)
    requires 0.0 <= u <= 1.0
    ensures 0.0 <= Prod(u, 1.0 - u) <= 0.25
  {
    ProdNonNegative(u, 1.0 - u);
    assert 0.25 - u * (1.0 - u) == (u - 0.5) * (u - 0.5);
    SquareNonNegative(u - 0.5);
  }

  lemma SlopeFactors(u: real)
    ensures Step1(u) == 30.0 * Prod(Prod(u, 1.0 - u), Prod(u, 1.0 - u))
  {
  }

  /** The normalized speed is between 0 and 15/8, and 15/8 halfway. */
  lemma SlopeBound(u: real)
    ensures 0.0 <= Smooth(u).d1 <= 1.875 && Smooth(0.5).d1 == 1.875
  {
    var c := Clip(u);
    ClipInUnit(u);
    Bump(c);
    SlopeFactors(c);
    hide Prod, Step1;
    var b := Prod(c, 1.0 - c);
    ProdNonNegative(b, b);
    ProdMonotone(b, 0.25, b);
    ProdMonotone(b, 0.25, 0.25);
    ProdCommutes(b, 0.25);
    QuarterSquared();
    HalfwaySlope();
  }

  lemma QuarterSquared()
    ensures Prod(0.25, 0.25) == 0.0625
  {
  }

  lemma HalfwaySlope()
    ensures Step1(0.5) == 1.875
  {
  }

  lemma QuotientScales(d: real, s: real, n: real)
    requires n > 0.0
    ensures Prod(Rate(d, s, n), n) == Prod(d, s)
  {
  }

  lemma AbsProd(d: real, s: real)
    requires s >= 0.0
    ensures Abs(Prod(d, s)) == Prod(Abs(d), s)
  {
    ProdNonNegative(Abs(d), s);
  }

  lemma ScaledSpeed(d: real, s: real, n: real)
    requires n > 0.0 && 0.0 <= s <= 1.875
    ensures Abs(Rate(d, s, n)) <= Rate(1.875, Abs(d), n)
  {
    QuotientScales(d, s, n);
    QuotientScales(1.875, Abs(d), n);
    var v, top := Rate(d, s, n), Rate(1.875, Abs(d), n);
    hide Prod, Rate;
    AbsProd(d, s);
    AbsProd(v, n);
    ProdMonotone(s, 1.875, Abs(d));
    ProdCommutes(s, Abs(d));
    ProdCancels(Abs(v), top, n);
  }

  /** The speed of a quintic motion never exceeds 1.875 times its mean speed. */
  lemma QuinticSpeed(start: real, displacement: real, duration: real, elapsed: real)
    requires duration > 0.0
    ensures Abs(QuinticMotion(start, displacement, duration, elapsed).d1) <= Rate(1.875, Abs(displacement), duration)
  {
    hide Smooth, Abs, Rate, P2, P3;
    SlopeBound(elapsed / duration);
    ScaledSpeed(displacement, Smooth(elapsed / duration).d1, duration);
  }

  // ---- derivatives ------------------------------------------------------------

  /** From fv, following the slope for h reaches fu up to a quadratic remainder. */
  ghost predicate Tangent(fu: real, fv: real, slope: real, h: real, bound: real) {
    Abs(fu - fv - Prod(slope, h)) <= Prod(bound, Prod(h, h))
  }

  /** The remainder quotients of the powers. */
  function R3(u: real, v: real): real { u + 2.0 * v }

  function R4(u: real, v: real): real { u * u + 2.0 * (u * v) + 3.0 * (v * v) }

  function R5(u: real, v: real): real { u * u * u + 2.0 * (u * u * v) + 3.0 * (u * v * v) + 4.0 * (v * v * v) }

  function R6(u: real, v: real): real {
    u * u * u * u + 2.0 * (u * u * u * v) + 3.0 * (u * u * v * v) + 4.0 * (u * v * v * v) + 5.0 * (v * v * v * v)
  }

  lemma LowPowers(u: real, v: real)
    ensures var h := u - v;
            && P2(u) - P2(v) - Prod(2.0 * v, h) == Prod(1.0, Prod(h, h))
            && P3(u) - P3(v) - Prod(3.0 * P2(v), h) == Prod(R3(u, v), Prod(h, h))
  {
  }

  lemma FourthPower(u: real, v: real)
    ensures var h := u - v; P4(u) - P4(v) - Prod(4.0 * P3(v), h) == Prod(R4(u, v), Prod(h, h))
  {
  }

  lemma FifthPower(u: real, v: real)
    ensures var h := u - v; P5(u) - P5(v) - Prod(5.0 * P4(v), h) == Prod(R5(u, v), Prod(h, h))
  {
  }

  lemma SixthPower(u: real, v: real)
    ensures var h := u - v; P6(u) - P6(v) - Prod(6.0 * P5(v), h) == Prod(R6(u, v), Prod(h, h))
  {
  }

  lemma InUnit(u: real, v: real)
    requires 0.0 <= u <= 1.0 && 0.0 <= v <= 1.0
    ensures 0.0 <= Prod(u, v) <= 1.0
  {
    hide Prod;
    ProdNonNegative(u, v);
    ProdMonotone(u, 1.0, v);
    ProdOne(v);
  }

  /** The remainder quotients in terms of unit-interval products. */
  lemma QuotientsAsProducts(u: real, v: real)
    ensures R4(u, v) == Prod(u, u) + 2.0 * Prod(u, v) + 3.0 * Prod(v, v)
    ensures var a, b, c := Prod(u, u), Prod(u, v), Prod(v, v);
            && R5(u, v) == Prod(a, u) + 2.0 * Prod(a, v) + 3.0 * Prod(b, v) + 4.0 * Prod(c, v)
            && R6(u, v) == Prod(a, a) + 2.0 * Prod(a, b) + 3.0 * Prod(a, c) + 4.0 * Prod(b, c) + 5.0 * Prod(c, c)
  {
  }

  lemma QuotientBounds(u: real, v: real)
    requires 0.0 <= u <= 1.0 && 0.0 <= v <= 1.0
    ensures 0.0 <= R3(u, v) <= 3.0 && 0.0 <= R4(u, v) <= 6.0 && 0.0 <= R5(u, v) <= 10.0 && 0.0 <= R6(u, v) <= 15.0
  {
    QuotientsAsProducts(u, v);
    hide Prod, R4, R5, R6;
    InUnit(u, u);
    InUnit(u, v);
    InUnit(v, v);
    var a, b, c := Prod(u, u), Prod(u, v), Prod(v, v);
    InUnit(a, u);
    InUnit(a, v);
    InUnit(b, v);
    InUnit(c, v);
    InUnit(a, a);
    InUnit(a, b);
    InUnit(a, c);
    InUnit(b, c);
    InUnit(c, c);
  }

  /** A remainder quotient within the bound gives the estimate. */
  lemma Remainder(error: real, r: real, h: real, bound: real)
    requires error == Prod(r, Prod(h, h)) && -bound <= r <= bound
    ensures Abs(error) <= Prod(bound, Prod(h, h))
  {
    hide Prod;
    SquareNonNegative(h);
    ProdMonotone(r, bound, Prod(h, h));
    ProdMonotone(-bound, r, Prod(h, h));
    ProdMinusBound(bound, Prod(h, h));
  }

  lemma ProdMinusBound(bound: real, q: real)
    ensures Prod(-bound, q) == -Prod(bound, q)
  {
  }

  /** Combining remainders of powers linearly. */
  lemma Combine3(a: real, b: real, c: real, ra: real, rb: real, rc: real, q: real)
    ensures a * Prod(ra, q) + b * Prod(rb, q) + c * Prod(rc, q) == Prod(a * ra + b * rb + c * rc, q)
  {
  }

  lemma Scale(a: real, x: real, h: real)
    ensures Prod(a * x, h) == a * Prod(x, h)
  {
  }

  lemma SlopeSum(x: real, y: real, z: real, h: real)
    ensures Prod(x + y + z, h) == Prod(x, h) + Prod(y, h) + Prod(z, h)
  {
  }

  lemma StepDerivesAt(u: real, v: real)
    requires 0.0 <= u <= 1.0 && 0.0 <= v <= 1.0
    ensures Tangent(Step(u), Step(v), Step1(v), u - v, 180.0)
  {
    var h := u - v;
    LowPowers(u, v);
    FourthPower(u, v);
    FifthPower(u, v);
    QuotientBounds(u, v);
    hide Prod, P2, P3, P4, P5, R3, R4, R5;
    Scale(3.0, P2(v), h);
    Scale(4.0, P3(v), h);
    Scale(5.0, P4(v), h);
    Scale(30.0, P2(v), h);
    Scale(-60.0, P3(v), h);
    Scale(30.0, P4(v), h);
    SlopeSum(30.0 * P2(v), -60.0 * P3(v), 30.0 * P4(v), h);
    Combine3(10.0, -15.0, 6.0, R3(u, v), R4(u, v), R5(u, v), Prod(h, h));
    Remainder(Step(u) - Step(v) - Prod(Step1(v), h), 10.0 * R3(u, v) - 15.0 * R4(u, v) + 6.0 * R5(u, v), h, 180.0);
  }

  lemma Step1DerivesAt(u: real, v: real)
    requires 0.0 <= u <= 1.0 && 0.0 <= v <= 1.0
    ensures Tangent(Step1(u), Step1(v), Step2(v), u - v, 390.0)
  {
    var h := u - v;
    LowPowers(u, v);
    FourthPower(u, v);
    QuotientBounds(u, v);
    hide Prod, P2, P3, P4, R3, R4;
    Scale(2.0, v, h);
    Scale(3.0, P2(v), h);
    Scale(4.0, P3(v), h);
    Scale(60.0, v, h);
    Scale(-180.0, P2(v), h);
    Scale(120.0, P3(v), h);
    SlopeSum(60.0 * v, -180.0 * P2(v), 120.0 * P3(v), h);
    Combine3(30.0, -60.0, 30.0, 1.0, R3(u, v), R4(u, v), Prod(h, h));
    Remainder(Step1(u) - Step1(v) - Prod(Step2(v), h), 30.0 - 60.0 * R3(u, v) + 30.0 * R4(u, v), h, 390.0);
  }

  lemma Step2DerivesAt(u: real, v: real)
    requires 0.0 <= u <= 1.0 && 0.0 <= v <= 1.0
    ensures Tangent(Step2(u), Step2(v), Step3(v), u - v, 540.0)
  {
    var h := u - v;
    LowPowers(u, v);
    QuotientBounds(u, v);
    hide Prod, P2, P3, R3;
    Scale(2.0, v, h);
    Scale(3.0, P2(v), h);
    Scale(60.0, 1.0, h);
    Scale(-360.0, v, h);
    Scale(360.0, P2(v), h);
    ProdOne(h);
    SlopeSum(60.0, -360.0 * v, 360.0 * P2(v), h);
    Combine3(-180.0, 120.0, 0.0, 1.0, R3(u, v), 0.0, Prod(h, h));
    Remainder(Step2(u) - Step2(v) - Prod(Step3(v), h), -180.0 + 120.0 * R3(u, v), h, 540.0);
  }

  lemma TravelDerivesAt(u: real, v: real)
    requires 0.0 <= u <= 1.0 && 0.0 <= v <= 1.0
    ensures Tangent(Travel(u), Travel(v), Step(v), u - v, 60.0)
  {
    var h := u - v;
    FourthPower(u, v);
    FifthPower(u, v);
    SixthPower(u, v);
    QuotientBounds(u, v);
    hide Prod, P3, P4, P5, P6, R4, R5, R6;
    Scale(4.0, P3(v), h);
    Scale(5.0, P4(v), h);
    Scale(6.0, P5(v), h);
    Scale(10.0, P3(v), h);
    Scale(-15.0, P4(v), h);
    SlopeSum(10.0 * P3(v), -15.0 * P4(v), 6.0 * P5(v), h);
    Combine3(2.5, -3.0, 1.0, R4(u, v), R5(u, v), R6(u, v), Prod(h, h));
    Remainder(Travel(u) - Travel(v) - Prod(Step(v), h), 2.5 * R4(u, v) - 3.0 * R5(u, v) + R6(u, v), h, 60.0);
  }

  /** The four polynomials of the smooth step are a function and its first three
      derivatives, and the ramp travel is its integral: each tangent line misses by at most a
      constant times the square of the step taken. */
  lemma StepsAreDerivatives(u: real, v: real)
    requires 0.0 <= u <= 1.0 && 0.0 <= v <= 1.0
    ensures Tangent(Travel(u), Travel(v), Step(v), u - v, 60.0)
    ensures Tangent(Step(u), Step(v), Step1(v), u - v, 180.0)
    ensures Tangent(Step1(u), Step1(v), Step2(v), u - v, 390.0)
    ensures Tangent(Step2(u), Step2(v), Step3(v), u - v, 540.0)
  {
    hide Travel, Step, Step1, Step2, Step3, Tangent;
    TravelDerivesAt(u, v);
    StepDerivesAt(u, v);
    Step1DerivesAt(u, v);
    Step2DerivesAt(u, v);
  }

  // ---- derivatives in time ----------------------------------------------------

  /** Stretching values by c and time by n stretches slope and remainder accordingly. */
  lemma TangentScaled(fu: real, fv: real, slope: real, h: real, bound: real, c: real, n: real, gu: real, gv: real, rate: real, k: real, top: real)
    requires n > 0.0 && Tangent(fu, fv, slope, h, bound)
    requires gu - gv == Prod(c, fu - fv) && Prod(rate, n) == Prod(c, slope)
    requires k == Prod(h, n) && Prod(top, Prod(n, n)) == Prod(Abs(c), bound)
    ensures Tangent(gu, gv, rate, k, top)
  {
    var e := fu - fv - Prod(slope, h);
    ErrorScales(fu - fv, slope, h, c, n, rate, k);
    TopScales(Abs(c), bound, h, n, k, top);
    hide Prod;
    AbsOfProd(c, e);
    ScaledBound(Abs(c), Abs(e), Prod(bound, Prod(h, h)));
  }

  lemma ErrorScales(df: real, slope: real, h: real, c: real, n: real, rate: real, k: real)
    requires Prod(rate, n) == Prod(c, slope) && k == Prod(h, n)
    ensures Prod(c, df) - Prod(rate, k) == Prod(c, df - Prod(slope, h))
  {
    assert rate * (h * n) == (rate * n) * h;
    assert (c * slope) * h == c * (slope * h);
  }

  lemma TopScales(c: real, bound: real, h: real, n: real, k: real, top: real)
    requires k == Prod(h, n) && Prod(top, Prod(n, n)) == Prod(c, bound)
    ensures Prod(top, Prod(k, k)) == Prod(c, Prod(bound, Prod(h, h)))
  {
    assert top * ((h * n) * (h * n)) == (top * (n * n)) * (h * h);
    assert (c * bound) * (h * h) == c * (bound * (h * h));
  }

  lemma AbsOfProd(a: real, b: real)
    ensures Abs(Prod(a, b)) == Prod(Abs(a), Abs(b))
  {
    if b >= 0.0 {
      AbsProd(a, b);
    } else {
      AbsProd(a, -b);
      assert Prod(a, -b) == -Prod(a, b);
    }
  }

  lemma ScaledBound(c: real, a: real, b: real)
    requires c >= 0.0 && a <= b
    ensures Prod(c, a) <= Prod(c, b)
  {
    hide Prod;
    ProdMonotone(a, b, c);
    ProdCommutes(a, c);
    ProdCommutes(b, c);
  }

  lemma RateFacts(d: real, s: real, t: real, n: real, m: real)
    requires n > 0.0 && m > 0.0
    ensures Rate(d, s, n) - Rate(d, t, n) == Prod(d / n, s - t)
    ensures Prod(Rate(d, s, Prod(n, m)), m) == Prod(d / n, s)
  {
    ProdPositive(n, m);
    var r := Rate(d, s, Prod(n, m));
    assert r * (n * m) == d * s;
    assert Prod(Prod(r, m), n) == Prod(d, s);
    assert Prod(Prod(d / n, s), n) == Prod(d, s) by {
      assert (d / n) * n == d;
      assert (d / n * s) * n == (d / n * n) * s;
    }
    hide Prod;
    ProdCancels(Prod(r, m), Prod(d / n, s), n);
    ProdCancels(Prod(d / n, s), Prod(r, m), n);
  }

  /** The remainder constant after stretching. */
  function Stretched(c: real, bound: real, n: real): real
    requires n > 0.0
  {
    PowersPositive(n);
    Abs(c) * bound / P2(n)
  }

  lemma StretchedFact(c: real, bound: real, n: real)
    requires n > 0.0
    ensures Prod(Stretched(c, bound, n), Prod(n, n)) == Prod(Abs(c), bound)
  {
    PowersPositive(n);
    QuotientScales(Abs(c), bound, P2(n));
  }

  lemma ElapsedFraction(x: real, y: real, n: real)
    requires 0.0 <= x <= n && 0.0 <= y <= n && n > 0.0
    ensures 0.0 <= x / n <= 1.0 && x - y == Prod(x / n - y / n, n)
  {
    assert Prod(x / n, n) == x && Prod(y / n, n) == y;
    ProdDifference(x / n, y / n, n);
    hide Prod;
    ProdOne(n);
    ProdCancels(0.0, x / n, n);
    ProdCancels(x / n, 1.0, n);
  }

  lemma ValueFacts(start: real, d: real, s: real, t: real)
    ensures start + d * s - (start + d * t) == Prod(d, s - t)
  {
  }

  lemma SmoothInside(u: real)
    requires 0.0 <= u <= 1.0
    ensures Smooth(u) == Jet(Step(u), Step1(u), Step2(u), Step3(u))
  {
    hide Step, Step1, Step2, Step3;
  }

  /** Velocity is the derivative of position, acceleration of velocity and jerk of
      acceleration, throughout the motion. */
  lemma QuinticIsMotion(start: real, d: real, n: real, x: real, y: real)
    requires n > 0.0 && 0.0 <= x <= n && 0.0 <= y <= n
    ensures var p, q := QuinticMotion(start, d, n, x), QuinticMotion(start, d, n, y);
            && Tangent(p.value, q.value, q.d1, x - y, Stretched(d, 180.0, n))
            && Tangent(p.d1, q.d1, q.d2, x - y, Stretched(d / n, 390.0, n))
            && P2(n) > 0.0 && Tangent(p.d2, q.d2, q.d3, x - y, Stretched(d / P2(n), 540.0, n))
  {
    hide Step, Step1, Step2, Step3, Smooth, Tangent, Prod, Rate, Stretched, Abs, P2, P3;
    var u, v := x / n, y / n;
    ElapsedFraction(x, y, n);
    ElapsedFraction(y, x, n);
    SmoothInside(u);
    SmoothInside(v);
    StepsAreDerivatives(u, v);
    PowersPositive(n);
    SquareIsProd(n);
    var p, q := QuinticMotion(start, d, n, x), QuinticMotion(start, d, n, y);
    ValueFacts(start, d, Step(u), Step(v));
    QuotientScales(d, Step1(v), n);
    StretchedFact(d, 180.0, n);
    TangentScaled(Step(u), Step(v), Step1(v), u - v, 180.0, d, n, p.value, q.value, q.d1, x - y, Stretched(d, 180.0, n));
    RateFacts(d, Step1(u), Step1(v), n, n);
    RateFacts(d, Step2(v), Step2(v), n, n);
    StretchedFact(d / n, 390.0, n);
    TangentScaled(Step1(u), Step1(v), Step2(v), u - v, 390.0, d / n, n, p.d1, q.d1, q.d2, x - y, Stretched(d / n, 390.0, n));
    var m := P2(n);
    RateFacts(d, Step2(u), Step2(v), m, n);
    RateFacts(d, Step3(v), Step3(v), m, n);
    StretchedFact(d / m, 540.0, n);
    TangentScaled(Step2(u), Step2(v), Step3(v), u - v, 540.0, d / m, n, p.d2, q.d2, q.d3, x - y, Stretched(d / m, 540.0, n));
  }

  lemma SquareIsProd(n: real)
    ensures P2(n) == Prod(n, n) && P3(n) == Prod(P2(n), n)
  {
  }
}
