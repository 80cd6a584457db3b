/** The smooth arc: angular ramp up, steady turn, ramp down, and the circle it travels. */
module ArcProfile {
  import opened RealMath
  import opened SmoothMotion

  function Div(a: real, b: real): real
    requires b != 0.0
  {
    a / b
  }

  lemma Divides(n: real)
    requires n != 0.0
    ensures Div(n, n) == 1.0 && Div(0.0, n) == 0.0
  {
  }

  lemma Simple(k: real)
    ensures Prod(k, 0.0) == 0.0 && Prod(k, 1.0) == k && Prod(k, 0.5) == k / 2.0
  {
  }

  // ---- angle and its derivatives ----------------------------------------------

  function UpAt(omega: real, ramp: real, u: real): Jet
    requires ramp > 0.0
  {
    PowersPositive(ramp);
    var s := Smooth(u);
    Jet(Prod(Prod(omega, ramp), Travel(u)), Prod(omega, s.value), Rate(omega, s.d1, ramp), Rate(omega, s.d2, P2(ramp)))
  }

  function Up(omega: real, ramp: real, local: real): Jet
    requires ramp > 0.0
  {
    UpAt(omega, ramp, Div(local, ramp))
  }

  function Level(omega: real, ramp: real, local: real): Jet {
    Jet(Prod(omega, ramp) / 2.0 + Prod(omega, local - ramp), omega, 0.0, 0.0)
  }

  function DownAt(omega: real, ramp: real, steady: real, u: real): Jet
    requires ramp > 0.0
  {
    PowersPositive(ramp);
    var s := Smooth(u);
    Jet(Prod(omega, ramp) / 2.0 + Prod(omega, steady) + Prod(Prod(omega, ramp), u - Travel(u)),
        Prod(omega, 1.0 - s.value), -Rate(omega, s.d1, ramp), -Rate(omega, s.d2, P2(ramp)))
  }

  function Down(omega: real, ramp: real, steady: real, local: real): Jet
    requires ramp > 0.0
  {
    var u := Div(local - ramp - steady, ramp);
    DownAt(omega, ramp, steady, if u < 1.0 then u else 1.0)
  }

  /** The angle at a local time, with its rate, acceleration and jerk. */
  function Angle(omega: real, ramp: real, steady: real, local: real): Jet
    requires ramp > 0.0
  {
    if local < ramp then Up(omega, ramp, local)
    else if local < ramp + steady then Level(omega, ramp, local)
    else Down(omega, ramp, steady, local)
  }

  function FinalAngle(radius: real, speed: real, ramp: real, steady: real): real
    requires radius != 0.0
  {
    Prod(Div(speed, radius), ramp + steady)
  }

  lemma StepFacts(u: real)
    requires u == 0.0 || u == 1.0
    ensures Smooth(u) == Jet(u, 0.0, 0.0, 60.0) && Travel(u) == 0.5 * u
  {
    hide Smooth, Step, Step1, Step2, Step3, Travel;
    StepEnd(u);
    SmoothEnd(u);
  }

  lemma NoRates(omega: real, ramp: real)
    requires ramp > 0.0
    ensures P2(ramp) > 0.0 && Rate(omega, 0.0, ramp) == 0.0 && Rate(omega, 0.0, P2(ramp)) == 0.0
  {
    hide P2, P3, Rate;
    PowersPositive(ramp);
    NoRate(omega, 0.0, ramp);
    NoRate(omega, 0.0, P2(ramp));
  }

  lemma UpEnds(omega: real, ramp: real)
    requires ramp > 0.0
    ensures UpAt(omega, ramp, 0.0) == Jet(0.0, 0.0, 0.0, 0.0)
    ensures UpAt(omega, ramp, 1.0) == Jet(Prod(omega, ramp) / 2.0, omega, 0.0, 0.0)
  {
    hide Prod, Smooth, Travel, P2, P3, Rate;
    NoRates(omega, ramp);
    StepFacts(0.0);
    StepFacts(1.0);
    Simple(omega);
    Simple(Prod(omega, ramp));
  }

  lemma DownEnds(omega: real, ramp: real, steady: real)
    requires ramp > 0.0
    ensures DownAt(omega, ramp, steady, 0.0) == Jet(Prod(omega, ramp) / 2.0 + Prod(omega, steady), omega, 0.0, 0.0)
    ensures DownAt(omega, ramp, steady, 1.0) == Jet(Prod(omega, ramp) + Prod(omega, steady), 0.0, 0.0, 0.0)
  {
    hide Prod, Smooth, Travel, P2, P3, Rate;
    NoRates(omega, ramp);
    StepFacts(0.0);
    StepFacts(1.0);
    Simple(omega);
    Simple(Prod(omega, ramp));
  }

  /** Neighbouring phases agree where they meet, in angle, rate, acceleration and jerk. */
  lemma PhasesMeet(omega: real, ramp: real, steady: real)
    requires ramp > 0.0
    ensures Up(omega, ramp, ramp) == Level(omega, ramp, ramp)
    ensures Level(omega, ramp, ramp + steady) == Down(omega, ramp, steady, ramp + steady)
  {
    hide Prod, UpAt, DownAt, Div;
    Divides(ramp);
    UpEnds(omega, ramp);
    DownEnds(omega, ramp, steady);
    Simple(omega);
    assert ramp + steady - ramp == steady && ramp + steady - ramp - steady == 0.0;
  }

  lemma SumOfTimes(omega: real, ramp: real, steady: real)
    ensures Prod(omega, ramp) + Prod(omega, steady) == Prod(omega, ramp + steady)
  {
  }

  /** The arc starts at angle 0 and ends, at rest, at the angle predicted for it. */
  lemma ArcEnds(radius: real, speed: real, ramp: real, steady: real)
    requires radius != 0.0 && ramp > 0.0 && steady >= 0.0
    ensures Angle(Div(speed, radius), ramp, steady, 0.0) == Jet(0.0, 0.0, 0.0, 0.0)
    ensures Angle(Div(speed, radius), ramp, steady, 2.0 * ramp + steady) == Jet(FinalAngle(radius, speed, ramp, steady), 0.0, 0.0, 0.0)
  {
    hide Prod, UpAt, DownAt, Div, Level;
    var omega := Div(speed, radius);
    Divides(ramp);
    UpEnds(omega, ramp);
    DownEnds(omega, ramp, steady);
    assert 2.0 * ramp + steady - ramp - steady == ramp;
    SumOfTimes(omega, ramp, steady);
  }

  // ---- the circle -------------------------------------------------------------

  datatype Plane = Plane(x: real, y: real)

  datatype PlaneMotion = PlaneMotion(p: Plane, v: Plane, a: Plane, j: Plane)

  /** Motion on a circle for a given angle and its derivatives. */
  function Circle(cx: real, cy: real, radius: real, angle: Jet, cos: real -> real, sin: real -> real): PlaneMotion {
    var c, s := Prod(radius, cos(angle.value)), Prod(radius, sin(angle.value));
    var w, alpha, beta := angle.d1, angle.d2, angle.d3;
    PlaneMotion(
      Plane(cx + c, cy + s),
      Plane(Prod(-s, w), Prod(c, w)),
      Plane(Prod(-c, P2(w)) + Prod(-s, alpha), Prod(-s, P2(w)) + Prod(c, alpha)),
      Plane(Prod(s, P3(w)) + 3.0 * Prod(Prod(-c, w), alpha) + Prod(-s, beta),
            Prod(-c, P3(w)) + 3.0 * Prod(Prod(-s, w), alpha) + Prod(c, beta)))
  }

  /** Without angular motion the point rests. */
  lemma CircleAtRest(cx: real, cy: real, radius: real, angle: Jet, cos: real -> real, sin: real -> real)
    requires angle.d1 == 0.0 && angle.d2 == 0.0
    ensures var m := Circle(cx, cy, radius, angle, cos, sin);
            && m.p == Plane(cx + Prod(radius, cos(angle.value)), cy + Prod(radius, sin(angle.value)))
            && m.v == Plane(0.0, 0.0) && m.a == Plane(0.0, 0.0)
  {
    hide Prod, P2, P3;
    var c, s := Prod(radius, cos(angle.value)), Prod(radius, sin(angle.value));
    EndPowers(0.0);
    Simple(-s);
    Simple(-c);
    Simple(c);
  }

  lemma RadiusSquared(k: real, c: real, s: real)
    requires c * c + s * s == 1.0
    ensures Prod(Prod(k, c), Prod(k, c)) + Prod(Prod(k, s), Prod(k, s)) == Prod(k, k)
  {
    assert (k * c) * (k * c) + (k * s) * (k * s) == k * k * (c * c + s * s);
  }

  lemma TangentSquared(c: real, s: real, w: real)
    ensures Prod(Prod(-s, w), Prod(-s, w)) + Prod(Prod(c, w), Prod(c, w)) == Prod(Prod(c, c) + Prod(s, s), Prod(w, w))
    ensures Prod(c, Prod(-s, w)) + Prod(s, Prod(c, w)) == 0.0
  {
  }

  /** The point stays on the circle and moves at right angles to its radius, with speed the
      angular rate times the radius. */
  lemma CircleSpeed(cx: real, cy: real, radius: real, angle: Jet, cos: real -> real, sin: real -> real)
    requires IsTrig(cos, sin)
    ensures var m := Circle(cx, cy, radius, angle, cos, sin);
            var rx, ry := m.p.x - cx, m.p.y - cy;
            && Prod(rx, rx) + Prod(ry, ry) == Prod(radius, radius)
            && Prod(m.v.x, m.v.x) + Prod(m.v.y, m.v.y) == Prod(Prod(radius, radius), Prod(angle.d1, angle.d1))
            && Prod(rx, m.v.x) + Prod(ry, m.v.y) == 0.0
  {
    var c, s := Prod(radius, cos(angle.value)), Prod(radius, sin(angle.value));
    RadiusSquared(radius, cos(angle.value), sin(angle.value));
    hide Prod, P2, P3, IsTrig;
    TangentSquared(c, s, angle.d1);
  }

  lemma Components(c: real, s: real, p: real, q: real, r: real)
    ensures Prod(c, Prod(-c, p) + Prod(-s, q)) + Prod(s, Prod(-s, p) + Prod(c, q)) == -Prod(Prod(c, c) + Prod(s, s), p)
    ensures Prod(-s, Prod(-c, p) + Prod(-s, q)) + Prod(c, Prod(-s, p) + Prod(c, q)) == Prod(Prod(c, c) + Prod(s, s), q)
    ensures Prod(-s, Prod(s, r)) + Prod(c, Prod(-c, r)) == -Prod(Prod(c, c) + Prod(s, s), r)
    ensures Prod(c, Prod(s, r)) + Prod(s, Prod(-c, r)) == 0.0
  {
  }

  /** Acceleration points inward with the squared rate and along the path with the angular
      acceleration. */
  lemma CircleAcceleration(cx: real, cy: real, radius: real, angle: Jet, cos: real -> real, sin: real -> real)
    requires IsTrig(cos, sin)
    ensures var m := Circle(cx, cy, radius, angle, cos, sin);
            var rx, ry, r2 := m.p.x - cx, m.p.y - cy, Prod(radius, radius);
            && Prod(rx, m.a.x) + Prod(ry, m.a.y) == -Prod(r2, P2(angle.d1))
            && Prod(-ry, m.a.x) + Prod(rx, m.a.y) == Prod(r2, angle.d2)
  {
    var c, s := Prod(radius, cos(angle.value)), Prod(radius, sin(angle.value));
    RadiusSquared(radius, cos(angle.value), sin(angle.value));
    hide Prod, P2, P3, IsTrig;
    Components(c, s, P2(angle.d1), angle.d2, 0.0);
  }

  lemma Scatter(c: real, s: real, w: real, alpha: real, beta: real, cube: real)
    ensures var x := Prod(s, cube) + 3.0 * Prod(Prod(-c, w), alpha) + Prod(-s, beta);
            var y := Prod(-c, cube) + 3.0 * Prod(Prod(-s, w), alpha) + Prod(c, beta);
            && x == Prod(s, cube) + (Prod(-c, 3.0 * Prod(w, alpha)) + Prod(-s, beta))
            && y == Prod(-c, cube) + (Prod(-s, 3.0 * Prod(w, alpha)) + Prod(c, beta))
  {
  }

  lemma SplitProduct(a: real, x: real, y: real)
    ensures Prod(a, x + y) == Prod(a, x) + Prod(a, y)
  {
  }

  /** Jerk, in the same two components. */
  lemma CircleJerk(cx: real, cy: real, radius: real, angle: Jet, cos: real -> real, sin: real -> real)
    requires IsTrig(cos, sin)
    ensures var m := Circle(cx, cy, radius, angle, cos, sin);
            var rx, ry, r2 := m.p.x - cx, m.p.y - cy, Prod(radius, radius);
            && Prod(rx, m.j.x) + Prod(ry, m.j.y) == -Prod(r2, 3.0 * Prod(angle.d1, angle.d2))
            && Prod(-ry, m.j.x) + Prod(rx, m.j.y) == Prod(r2, angle.d3) - Prod(r2, P3(angle.d1))
  {
    var c, s := Prod(radius, cos(angle.value)), Prod(radius, sin(angle.value));
    RadiusSquared(radius, cos(angle.value), sin(angle.value));
    hide Prod, P2, P3, IsTrig;
    var w, alpha, beta, cube := angle.d1, angle.d2, angle.d3, P3(angle.d1);
    var k := 3.0 * Prod(w, alpha);
    Scatter(c, s, w, alpha, beta, cube);
    Components(c, s, k, beta, cube);
    SplitProduct(c, Prod(s, cube), Prod(-c, k) + Prod(-s, beta));
    SplitProduct(s, Prod(-c, cube), Prod(-s, k) + Prod(c, beta));
    SplitProduct(-s, Prod(s, cube), Prod(-c, k) + Prod(-s, beta));
    SplitProduct(c, Prod(-c, cube), Prod(-s, k) + Prod(c, beta));
  }

  /** On the steady middle the point moves with exactly the requested speed. */
  lemma SteadyIsExact(radius: real, speed: real, ramp: real, local: real)
    requires radius != 0.0
    ensures Prod(radius, Level(Div(speed, radius), ramp, local).d1) == speed
  {
  }

  // ---- the phases are motions -------------------------------------------------

  lemma UpScales(omega: real, ramp: real, f: real, g: real, slope: real)
    ensures Prod(Prod(omega, ramp), f) - Prod(Prod(omega, ramp), g) == Prod(Prod(omega, ramp), f - g)
    ensures Prod(Prod(omega, slope), ramp) == Prod(Prod(omega, ramp), slope)
    ensures Prod(omega, f) - Prod(omega, g) == Prod(omega, f - g)
  {
  }

  /** On the ramp up, rate, acceleration and jerk are the derivatives of angle, rate and
      acceleration. */
  lemma UpIsMotion(omega: real, ramp: real, x: real, y: real)
    requires ramp > 0.0 && 0.0 <= x <= ramp && 0.0 <= y <= ramp
    ensures var p, q := Up(omega, ramp, x), Up(omega, ramp, y);
            && Tangent(p.value, q.value, q.d1, x - y, Stretched(Prod(omega, ramp), 60.0, ramp))
            && Tangent(p.d1, q.d1, q.d2, x - y, Stretched(omega, 180.0, ramp))
            && Tangent(p.d2, q.d2, q.d3, x - y, Stretched(omega / ramp, 390.0, ramp))
  {
    hide Travel, Step, Step1, Step2, Step3, Smooth, Tangent, Prod, Rate, Stretched, Abs, P2;
    var u, v, c := x / ramp, y / ramp, Prod(omega, ramp);
    ElapsedFraction(x, y, ramp);
    ElapsedFraction(y, x, ramp);
    SmoothInside(u);
    SmoothInside(v);
    StepsAreDerivatives(u, v);
    var p, q := Up(omega, ramp, x), Up(omega, ramp, y);
    UpScales(omega, ramp, Travel(u), Travel(v), Step(v));
    StretchedFact(c, 60.0, ramp);
    TangentScaled(Travel(u), Travel(v), Step(v), u - v, 60.0, c, ramp, p.value, q.value, q.d1, x - y, Stretched(c, 60.0, ramp));
    UpScales(omega, ramp, Step(u), Step(v), Step1(v));
    QuotientScales(omega, Step1(v), ramp);
    StretchedFact(omega, 180.0, ramp);
    TangentScaled(Step(u), Step(v), Step1(v), u - v, 180.0, omega, ramp, p.d1, q.d1, q.d2, x - y, Stretched(omega, 180.0, ramp));
    RampJerk(omega, ramp, u, v, x - y);
  }

  /** The acceleration of a ramp and its derivative, as functions of the ramp fraction. */
  lemma RampJerk(omega: real, ramp: real, u: real, v: real, k: real)
    requires ramp > 0.0 && 0.0 <= u <= 1.0 && 0.0 <= v <= 1.0 && k == Prod(u - v, ramp)
    ensures P2(ramp) > 0.0
    ensures Tangent(Rate(omega, Step1(u), ramp), Rate(omega, Step1(v), ramp), Rate(omega, Step2(v), P2(ramp)), k, Stretched(omega / ramp, 390.0, ramp))
  {
    hide Travel, Step, Step1, Step2, Step3, Tangent, Prod, Rate, Stretched, Abs, P2, P3;
    PowersPositive(ramp);
    SquareIsProd(ramp);
    StepsAreDerivatives(u, v);
    RateFacts(omega, Step1(u), Step1(v), ramp, ramp);
    RateFacts(omega, Step2(v), Step2(v), ramp, ramp);
    StretchedFact(omega / ramp, 390.0, ramp);
    TangentScaled(Step1(u), Step1(v), Step2(v), u - v, 390.0, omega / ramp, ramp, Rate(omega, Step1(u), ramp), Rate(omega, Step1(v), ramp),
                  Rate(omega, Step2(v), P2(ramp)), k, Stretched(omega / ramp, 390.0, ramp));
  }

  lemma TangentNegated(fu: real, fv: real, slope: real, h: real, bound: real)
    requires Tangent(fu, fv, slope, h, bound)
    ensures Tangent(-fu, -fv, -slope, h, bound)
  {
    hide Prod;
    Negated(slope, h);
  }

  /** What is left of a function to a line of slope k has the rest of the slope. */
  lemma TangentOfRest(fu: real, fv: real, slope: real, u: real, v: real, bound: real, k: real)
    requires Tangent(fu, fv, slope, u - v, bound) && (k == 0.0 || k == 1.0)
    ensures Tangent(k * u - fu, k * v - fv, k - slope, u - v, bound)
  {
    ProdDifference(k, slope, u - v);
    hide Prod;
    ProdOne(u - v);
  }

  lemma DownScales(omega: real, ramp: real, f: real, g: real, slope: real)
    ensures Prod(omega, 1.0 - f) - Prod(omega, 1.0 - g) == Prod(omega, (0.0 - f) - (0.0 - g))
    ensures Prod(omega, 0.0 - slope) == -Prod(omega, slope)
  {
  }

  lemma Negated(a: real, n: real)
    ensures Prod(-a, n) == -Prod(a, n)
  {
  }

  lemma DownClip(local: real, ramp: real, steady: real)
    requires ramp > 0.0 && ramp + steady <= local <= 2.0 * ramp + steady
    ensures var w := Div(local - ramp - steady, ramp);
            0.0 <= w <= 1.0 && w == (local - ramp - steady) / ramp && (if w < 1.0 then w else 1.0) == w
  {
    ElapsedFraction(local - ramp - steady, 0.0, ramp);
  }

  /** On the ramp down as well. */
  lemma DownIsMotion(omega: real, ramp: real, steady: real, x: real, y: real)
    requires ramp > 0.0 && ramp + steady <= x <= 2.0 * ramp + steady && ramp + steady <= y <= 2.0 * ramp + steady
    ensures var p, q := Down(omega, ramp, steady, x), Down(omega, ramp, steady, y);
            && Tangent(p.value, q.value, q.d1, x - y, Stretched(Prod(omega, ramp), 60.0, ramp))
            && Tangent(p.d1, q.d1, q.d2, x - y, Stretched(omega, 180.0, ramp))
            && Tangent(p.d2, q.d2, q.d3, x - y, Stretched(omega / ramp, 390.0, ramp))
  {
    hide Travel, Step, Step1, Step2, Step3, Smooth, Tangent, Prod, Rate, Stretched, Abs, P2, Div;
    DownClip(x, ramp, steady);
    DownClip(y, ramp, steady);
    var a, b := x - ramp - steady, y - ramp - steady;
    var u, v, c := Div(a, ramp), Div(b, ramp), Prod(omega, ramp);
    ElapsedFraction(a, b, ramp);
    assert x - y == a - b;
    SmoothInside(u);
    SmoothInside(v);
    StepsAreDerivatives(u, v);
    var p, q := Down(omega, ramp, steady, x), Down(omega, ramp, steady, y);
    TangentOfRest(Travel(u), Travel(v), Step(v), u, v, 60.0, 1.0);
    UpScales(omega, ramp, u - Travel(u), v - Travel(v), 1.0 - Step(v));
    StretchedFact(c, 60.0, ramp);
    TangentScaled(u - Travel(u), v - Travel(v), 1.0 - Step(v), u - v, 60.0, c, ramp, p.value, q.value, q.d1, x - y, Stretched(c, 60.0, ramp));
    TangentOfRest(Step(u), Step(v), Step1(v), u, v, 180.0, 0.0);
    DownScales(omega, ramp, Step(u), Step(v), Step1(v));
    QuotientScales(omega, Step1(v), ramp);
    Negated(Rate(omega, Step1(v), ramp), ramp);
    StretchedFact(omega, 180.0, ramp);
    TangentScaled(0.0 * u - Step(u), 0.0 * v - Step(v), 0.0 - Step1(v), u - v, 180.0, omega, ramp, p.d1, q.d1, q.d2, x - y, Stretched(omega, 180.0, ramp));
    RampJerk(omega, ramp, u, v, x - y);
    TangentNegated(Rate(omega, Step1(u), ramp), Rate(omega, Step1(v), ramp), Rate(omega, Step2(v), P2(ramp)), x - y, Stretched(omega / ramp, 390.0, ramp));
  }
}
