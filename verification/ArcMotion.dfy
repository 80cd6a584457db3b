/** The whole arc is one motion: across its three phases, velocity, acceleration and jerk are
    the derivatives of position, velocity and acceleration. */
module ArcMotion {
  import opened RealMath
  import opened SmoothMotion
  import opened Derivatives
  import opened ArcProfile

  // ---- the angle --------------------------------------------------------------

  function Order(j: Jet, n: nat): real {
    if n == 0 then j.value else if n == 1 then j.d1 else if n == 2 then j.d2 else j.d3
  }

  /** The n-th derivative of the angle, as the arc computes it. */
  function Theta(omega: real, ramp: real, steady: real, n: nat): real -> real
    requires ramp > 0.0
  {
    (t: real) => Order(Angle(omega, ramp, steady, t), n)
  }

  lemma ThetaIs(omega: real, ramp: real, steady: real, n: nat)
    requires ramp > 0.0
    ensures forall t :: Theta(omega, ramp, steady, n)(t) == Order(Angle(omega, ramp, steady, t), n)
  {
    hide Angle;
  }

  /** Each phase holds on its closed interval. */
  lemma PhaseAt(omega: real, ramp: real, steady: real, t: real)
    requires ramp > 0.0 && steady >= 0.0
    ensures t <= ramp ==> Angle(omega, ramp, steady, t) == Up(omega, ramp, t)
    ensures ramp <= t <= ramp + steady ==> Angle(omega, ramp, steady, t) == Level(omega, ramp, t)
    ensures ramp + steady <= t ==> Angle(omega, ramp, steady, t) == Down(omega, ramp, steady, t)
  {
    hide Up, Level, Down;
    PhasesMeet(omega, ramp, steady);
  }

  lemma StretchedNonNegative(c: real, bound: real, n: real)
    requires n > 0.0 && bound >= 0.0
    ensures Stretched(c, bound, n) >= 0.0
  {
    hide Stretched, Prod;
    StretchedFact(c, bound, n);
    ProdNonNegative(Abs(c), bound);
    ProdPositive(n, n);
    ProdOne(Prod(n, n));
    ProdCancels(0.0, Stretched(c, bound, n), Prod(n, n));
  }

  function RampBound(omega: real, ramp: real, n: nat): real
    requires ramp > 0.0
  {
    if n == 0 then Stretched(Prod(omega, ramp), 60.0, ramp)
    else if n == 1 then Stretched(omega, 180.0, ramp)
    else Stretched(omega / ramp, 390.0, ramp)
  }

  lemma RampBoundNonNegative(omega: real, ramp: real, n: nat)
    requires ramp > 0.0
    ensures RampBound(omega, ramp, n) >= 0.0
  {
    hide Stretched, Prod;
    StretchedNonNegative(Prod(omega, ramp), 60.0, ramp);
    StretchedNonNegative(omega, 180.0, ramp);
    StretchedNonNegative(omega / ramp, 390.0, ramp);
  }

  lemma UpPhase(omega: real, ramp: real, steady: real, n: nat)
    requires ramp > 0.0 && steady >= 0.0 && n < 3
    ensures Differentiable(Theta(omega, ramp, steady, n), Theta(omega, ramp, steady, n + 1), 0.0, ramp)
  {
    hide Up, Angle, Tangent, Stretched, Prod, Theta;
    var f, d := Theta(omega, ramp, steady, n), Theta(omega, ramp, steady, n + 1);
    ThetaIs(omega, ramp, steady, n);
    ThetaIs(omega, ramp, steady, n + 1);
    RampBoundNonNegative(omega, ramp, n);
    forall x, y | Inside(x, 0.0, ramp) && Inside(y, 0.0, ramp) ensures Tangent(f(x), f(y), d(y), x - y, RampBound(omega, ramp, n)) {
      PhaseAt(omega, ramp, steady, x);
      PhaseAt(omega, ramp, steady, y);
      UpIsMotion(omega, ramp, x, y);
    }
    DerivesBecause(f, d, 0.0, ramp, RampBound(omega, ramp, n));
  }

  lemma LevelTangent(omega: real, ramp: real, x: real, y: real)
    ensures var p, q := Level(omega, ramp, x), Level(omega, ramp, y);
            && Tangent(p.value, q.value, q.d1, x - y, 0.0)
            && Tangent(p.d1, q.d1, q.d2, x - y, 0.0) && Tangent(p.d2, q.d2, q.d3, x - y, 0.0)
  {
    hide Prod;
    ProdSpreads(omega, x - ramp, y - ramp);
    assert (x - ramp) - (y - ramp) == x - y;
    ProdOne(x - y);
    ProdOne(Prod(x - y, x - y));
  }

  lemma LevelPhase(omega: real, ramp: real, steady: real, n: nat)
    requires ramp > 0.0 && steady >= 0.0 && n < 3
    ensures Differentiable(Theta(omega, ramp, steady, n), Theta(omega, ramp, steady, n + 1), ramp, ramp + steady)
  {
    hide Level, Angle, Tangent, Prod, Theta;
    var f, d := Theta(omega, ramp, steady, n), Theta(omega, ramp, steady, n + 1);
    ThetaIs(omega, ramp, steady, n);
    ThetaIs(omega, ramp, steady, n + 1);
    forall x, y | Inside(x, ramp, ramp + steady) && Inside(y, ramp, ramp + steady) ensures Tangent(f(x), f(y), d(y), x - y, 0.0) {
      PhaseAt(omega, ramp, steady, x);
      PhaseAt(omega, ramp, steady, y);
      LevelTangent(omega, ramp, x, y);
    }
    DerivesBecause(f, d, ramp, ramp + steady, 0.0);
  }

  lemma DownPhase(omega: real, ramp: real, steady: real, n: nat)
    requires ramp > 0.0 && steady >= 0.0 && n < 3
    ensures Differentiable(Theta(omega, ramp, steady, n), Theta(omega, ramp, steady, n + 1), ramp + steady, 2.0 * ramp + steady)
  {
    hide Down, Angle, Tangent, Stretched, Prod, Theta;
    var f, d := Theta(omega, ramp, steady, n), Theta(omega, ramp, steady, n + 1);
    var lo, hi := ramp + steady, 2.0 * ramp + steady;
    ThetaIs(omega, ramp, steady, n);
    ThetaIs(omega, ramp, steady, n + 1);
    RampBoundNonNegative(omega, ramp, n);
    forall x, y | Inside(x, lo, hi) && Inside(y, lo, hi) ensures Tangent(f(x), f(y), d(y), x - y, RampBound(omega, ramp, n)) {
      PhaseAt(omega, ramp, steady, x);
      PhaseAt(omega, ramp, steady, y);
      DownIsMotion(omega, ramp, steady, x, y);
    }
    DerivesBecause(f, d, lo, hi, RampBound(omega, ramp, n));
  }

  /** Over the whole arc, rate, acceleration and jerk of the angle are the derivatives of
      angle, rate and acceleration. */
  lemma AngleIsMotion(omega: real, ramp: real, steady: real, n: nat)
    requires ramp > 0.0 && steady >= 0.0 && n < 3
    ensures Differentiable(Theta(omega, ramp, steady, n), Theta(omega, ramp, steady, n + 1), 0.0, 2.0 * ramp + steady)
  {
    hide Differentiable, Theta;
    var f, d := Theta(omega, ramp, steady, n), Theta(omega, ramp, steady, n + 1);
    UpPhase(omega, ramp, steady, n);
    LevelPhase(omega, ramp, steady, n);
    DownPhase(omega, ramp, steady, n);
    GlueRule(f, d, 0.0, ramp, ramp + steady);
    GlueRule(f, d, 0.0, ramp + steady, 2.0 * ramp + steady);
  }

  // ---- a turning unit vector --------------------------------------------------

  function Mul(f: real -> real, g: real -> real): real -> real { (x: real) => Prod(f(x), g(x)) }

  function Add(f: real -> real, g: real -> real): real -> real { (x: real) => f(x) + g(x) }

  function Neg(f: real -> real): real -> real { (x: real) => -f(x) }

  lemma MulIs(f: real -> real, g: real -> real)
    ensures forall x :: Mul(f, g)(x) == Prod(f(x), g(x))
  {
    hide Prod;
  }

  lemma AddIs(f: real -> real, g: real -> real)
    ensures forall x :: Add(f, g)(x) == f(x) + g(x)
  {
  }

  lemma NegIs(f: real -> real)
    ensures forall x :: Neg(f)(x) == -f(x)
  {
  }

  lemma NegAt(f: real -> real, x: real)
    ensures Neg(f)(x) == -f(x)
  {
  }

  lemma Product(f: real -> real, f1: real -> real, g: real -> real, g1: real -> real, lo: real, hi: real)
    requires Differentiable(f, f1, lo, hi) && Differentiable(g, g1, lo, hi) && lo <= hi
    ensures Differentiable(Mul(f, g), Add(Mul(f1, g), Mul(f, g1)), lo, hi)
  {
    hide Prod, Mul, Add, Differentiable;
    MulIs(f, g);
    MulIs(f1, g);
    MulIs(f, g1);
    AddIs(Mul(f1, g), Mul(f, g1));
    ProductRule(f, f1, g, g1, Mul(f, g), Add(Mul(f1, g), Mul(f, g1)), lo, hi);
  }

  lemma Opposite(f: real -> real, d: real -> real, lo: real, hi: real)
    requires Differentiable(f, d, lo, hi)
    ensures Differentiable(Neg(f), Neg(d), lo, hi)
  {
    hide Prod, Neg, Differentiable;
    NegIs(f);
    NegIs(d);
    forall x ensures Prod(-1.0, f(x)) == -f(x) && Prod(-1.0, d(x)) == -d(x) {
      ProdSpreads(1.0, f(x), 0.0);
      ProdSpreads(1.0, d(x), 0.0);
      ProdOne(f(x));
      ProdOne(d(x));
    }
    LinearRule(0.0, -1.0, f, d, Neg(f), Neg(d), lo, hi);
  }

  lemma Total(f: real -> real, f1: real -> real, g: real -> real, g1: real -> real, lo: real, hi: real)
    requires Differentiable(f, f1, lo, hi) && Differentiable(g, g1, lo, hi)
    ensures Differentiable(Add(f, g), Add(f1, g1), lo, hi)
  {
    hide Add, Differentiable;
    AddIs(f, g);
    AddIs(f1, g1);
    SumRule(f, f1, g, g1, Add(f, g), Add(f1, g1), lo, hi);
  }

  /** The derivatives of a coordinate e of a unit vector whose derivative is f times the rate
      w, where that of f is minus e times the rate. */
  function Turn1(e: real -> real, w: real -> real): real -> real {
    Neg(Mul(e, w))
  }

  function Turn2(e: real -> real, f: real -> real, w: real -> real, alpha: real -> real): real -> real {
    Add(Mul(Turn1(e, w), w), Mul(f, alpha))
  }

  function Turn3(e: real -> real, f: real -> real, w: real -> real, alpha: real -> real, beta: real -> real): real -> real {
    Add(Add(Mul(Neg(Add(Mul(Mul(f, w), w), Mul(e, alpha))), w), Mul(Turn1(e, w), alpha)),
        Add(Mul(Turn1(e, w), alpha), Mul(f, beta)))
  }

  ghost predicate Turns(e: real -> real, f: real -> real, w: real -> real, lo: real, hi: real) {
    Differentiable(e, Mul(f, w), lo, hi) && Differentiable(f, Turn1(e, w), lo, hi)
  }

  lemma TurningIsMotion(e: real -> real, f: real -> real, w: real -> real, alpha: real -> real, beta: real -> real, lo: real, hi: real)
    requires Turns(e, f, w, lo, hi) && Differentiable(w, alpha, lo, hi) && Differentiable(alpha, beta, lo, hi) && lo <= hi
    ensures Differentiable(Mul(f, w), Turn2(e, f, w, alpha), lo, hi)
    ensures Differentiable(Turn2(e, f, w, alpha), Turn3(e, f, w, alpha, beta), lo, hi)
  {
    hide Differentiable, Mul, Add, Neg;
    var f1 := Turn1(e, w);
    Product(f, f1, w, alpha, lo, hi);
    Product(e, Mul(f, w), w, alpha, lo, hi);
    Opposite(Mul(e, w), Add(Mul(Mul(f, w), w), Mul(e, alpha)), lo, hi);
    Product(f1, Neg(Add(Mul(Mul(f, w), w), Mul(e, alpha))), w, alpha, lo, hi);
    Product(f, f1, alpha, beta, lo, hi);
    Total(Mul(f1, w), Add(Mul(Neg(Add(Mul(Mul(f, w), w), Mul(e, alpha))), w), Mul(f1, alpha)),
          Mul(f, alpha), Add(Mul(f1, alpha), Mul(f, beta)), lo, hi);
  }

  // ---- the circle -------------------------------------------------------------

  /** Sine is an antiderivative of cosine and minus cosine one of sine, with remainder at most
      the squared distance. */
  ghost predicate IsCurve(cos: real -> real, sin: real -> real) {
    forall a, b :: Tangent(cos(a), cos(b), -sin(b), a - b, 1.0) && Tangent(sin(a), sin(b), cos(b), a - b, 1.0)
  }

  lemma UnitBound(c: real, s: real)
    requires c * c + s * s == 1.0
    ensures Abs(c) <= 1.0 && Abs(s) <= 1.0
  {
    assert Prod(c, c) + Prod(s, s) == 1.0;
    hide Prod;
    SquareNonNegative(c);
    SquareNonNegative(s);
    AbsSquare(c);
    AbsSquare(s);
    ProdOne(1.0);
    RootBound(Abs(c), 1.0);
    RootBound(Abs(s), 1.0);
  }

  lemma TrigIsGentle(cos: real -> real, sin: real -> real)
    requires IsTrig(cos, sin) && IsCurve(cos, sin)
    ensures Gentle(cos, Neg(sin)) && Gentle(sin, cos)
  {
    hide Tangent, Neg;
    NegIs(sin);
    forall b ensures Abs(cos(b)) <= 1.0 && Abs(sin(b)) <= 1.0 { UnitBound(cos(b), sin(b)); }
  }

  function Comp(o: real -> real, f: real -> real): real -> real { (x: real) => o(f(x)) }

  lemma CompIs(o: real -> real, f: real -> real)
    ensures forall x :: Comp(o, f)(x) == o(f(x))
  {
  }

  lemma CosineTurns(cos: real -> real, sin: real -> real, theta: real -> real, w: real -> real, lo: real, hi: real)
    requires Gentle(cos, Neg(sin)) && Differentiable(theta, w, lo, hi) && lo <= hi
    ensures Differentiable(Comp(cos, theta), Mul(Neg(Comp(sin, theta)), w), lo, hi)
  {
    hide Differentiable, Mul, Neg, Comp, Gentle, Prod;
    var c, s := Comp(cos, theta), Comp(sin, theta);
    CompIs(cos, theta);
    MulIs(Neg(s), w);
    forall x ensures Mul(Neg(s), w)(x) == Prod(Neg(sin)(theta(x)), w(x)) {
      NegAt(sin, theta(x));
      NegAt(s, x);
      CompAt(sin, theta, x);
    }
    ChainRule(cos, Neg(sin), theta, w, c, Mul(Neg(s), w), lo, hi);
  }

  lemma CompAt(o: real -> real, f: real -> real, x: real)
    ensures Comp(o, f)(x) == o(f(x))
  {
  }

  lemma SineTurns(cos: real -> real, sin: real -> real, theta: real -> real, w: real -> real, lo: real, hi: real)
    requires Gentle(sin, cos) && Differentiable(theta, w, lo, hi) && lo <= hi
    ensures Differentiable(Comp(sin, theta), Mul(Comp(cos, theta), w), lo, hi)
  {
    hide Differentiable, Mul, Comp, Gentle, Prod;
    CompIs(cos, theta);
    CompIs(sin, theta);
    MulIs(Comp(cos, theta), w);
    ChainRule(sin, cos, theta, w, Comp(sin, theta), Mul(Comp(cos, theta), w), lo, hi);
  }

  lemma NegInside(f: real -> real, s: real -> real, w: real -> real, lo: real, hi: real)
    requires Differentiable(f, Mul(Neg(s), w), lo, hi)
    ensures Differentiable(f, Neg(Mul(s, w)), lo, hi)
  {
    hide Differentiable, Mul, Neg, Prod;
    MulIs(Neg(s), w);
    MulIs(s, w);
    forall x ensures Neg(Mul(s, w))(x) == Mul(Neg(s), w)(x) {
      NegAt(Mul(s, w), x);
      NegAt(s, x);
      ProdSpreads(s(x), w(x), 0.0);
    }
    SameRule(f, Mul(Neg(s), w), f, Neg(Mul(s, w)), lo, hi);
  }

  /** The point of the unit circle turns with the rate of its angle. */
  lemma CircleTurns(cos: real -> real, sin: real -> real, theta: real -> real, w: real -> real, lo: real, hi: real)
    requires IsTrig(cos, sin) && IsCurve(cos, sin) && Differentiable(theta, w, lo, hi) && lo <= hi
    ensures Turns(Comp(cos, theta), Neg(Comp(sin, theta)), w, lo, hi)
    ensures Turns(Comp(sin, theta), Comp(cos, theta), w, lo, hi)
  {
    hide Differentiable, Mul, Neg, Comp, Gentle, IsTrig, IsCurve;
    var c, s := Comp(cos, theta), Comp(sin, theta);
    TrigIsGentle(cos, sin);
    CosineTurns(cos, sin, theta, w, lo, hi);
    SineTurns(cos, sin, theta, w, lo, hi);
    Opposite(s, Mul(c, w), lo, hi);
    NegInside(c, s, w, lo, hi);
  }

  /** Velocity, acceleration and jerk of a coordinate on the circle. */
  lemma CoordinateNumbers(r: real, e: real, f: real, w: real, alpha: real)
    ensures Prod(Prod(r, f), w) == Prod(r, Prod(f, w))
    ensures Prod(-Prod(r, e), P2(w)) + Prod(Prod(r, f), alpha) == Prod(r, Prod(-Prod(e, w), w) + Prod(f, alpha))
  {
  }

  lemma JerkNumbers(r: real, e: real, f: real, w: real, alpha: real, beta: real)
    ensures -Prod(Prod(r, f), P3(w)) + 3.0 * Prod(Prod(-Prod(r, e), w), alpha) + Prod(Prod(r, f), beta) ==
            Prod(r, (Prod(-(Prod(Prod(f, w), w) + Prod(e, alpha)), w) + Prod(-Prod(e, w), alpha)) + (Prod(-Prod(e, w), alpha) + Prod(f, beta)))
  {
  }

  /** One coordinate of position, velocity, acceleration or jerk. */
  function Pick(m: PlaneMotion, n: nat, vertical: bool): real {
    var q := if n == 0 then m.p else if n == 1 then m.v else if n == 2 then m.a else m.j;
    if vertical then q.y else q.x
  }

  datatype ArcShape = ArcShape(cx: real, cy: real, radius: real, omega: real, ramp: real, steady: real)

  /** The n-th derivative of a coordinate, as the arc computes it. */
  function Coordinate(arc: ArcShape, cos: real -> real, sin: real -> real, n: nat, vertical: bool): real -> real
    requires arc.ramp > 0.0
  {
    (t: real) => Pick(Circle(arc.cx, arc.cy, arc.radius, Angle(arc.omega, arc.ramp, arc.steady, t), cos, sin), n, vertical)
  }

  /** The coordinates in terms of the turning unit vector. */
  lemma CircleNumbers(cx: real, cy: real, r: real, j: Jet, cos: real -> real, sin: real -> real, vertical: bool)
    ensures var m := Circle(cx, cy, r, j, cos, sin);
            var e := if vertical then sin(j.value) else cos(j.value);
            var f := if vertical then cos(j.value) else -sin(j.value);
            && Pick(m, 0, vertical) == (if vertical then cy else cx) + Prod(r, e)
            && Pick(m, 1, vertical) == Prod(r, Prod(f, j.d1))
            && Pick(m, 2, vertical) == Prod(r, Prod(-Prod(e, j.d1), j.d1) + Prod(f, j.d2))
            && Pick(m, 3, vertical) ==
               Prod(r, (Prod(-(Prod(Prod(f, j.d1), j.d1) + Prod(e, j.d2)), j.d1) + Prod(-Prod(e, j.d1), j.d2)) + (Prod(-Prod(e, j.d1), j.d2) + Prod(f, j.d3)))
  {
    hide Prod, P2, P3;
    var e := if vertical then sin(j.value) else cos(j.value);
    var f := if vertical then cos(j.value) else -sin(j.value);
    ProdSpreads(r, sin(j.value), 0.0);
    CoordinateNumbers(r, e, f, j.d1, j.d2);
    JerkNumbers(r, e, f, j.d1, j.d2, j.d3);
    ProdSpreads(Prod(r, f), P3(j.d1), 0.0);
  }

  lemma TurnAt(e: real -> real, f: real -> real, w: real -> real, alpha: real -> real, beta: real -> real, x: real)
    ensures Mul(f, w)(x) == Prod(f(x), w(x))
    ensures Turn2(e, f, w, alpha)(x) == Prod(-Prod(e(x), w(x)), w(x)) + Prod(f(x), alpha(x))
    ensures Turn3(e, f, w, alpha, beta)(x) ==
            (Prod(-(Prod(Prod(f(x), w(x)), w(x)) + Prod(e(x), alpha(x))), w(x)) + Prod(-Prod(e(x), w(x)), alpha(x))) +
            (Prod(-Prod(e(x), w(x)), alpha(x)) + Prod(f(x), beta(x)))
  {
    hide Prod, Mul, Add, Neg;
    var f1 := Turn1(e, w);
    var g := Add(Mul(Mul(f, w), w), Mul(e, alpha));
    MulIs(e, w); NegIs(Mul(e, w));
    MulIs(f1, w); MulIs(f, alpha); AddIs(Mul(f1, w), Mul(f, alpha));
    MulIs(f, w); MulIs(Mul(f, w), w); MulIs(e, alpha); AddIs(Mul(Mul(f, w), w), Mul(e, alpha));
    NegIs(g); MulIs(Neg(g), w); MulIs(f1, alpha); MulIs(f, beta);
    AddIs(Mul(Neg(g), w), Mul(f1, alpha)); AddIs(Mul(f1, alpha), Mul(f, beta));
    AddIs(Add(Mul(Neg(g), w), Mul(f1, alpha)), Add(Mul(f1, alpha), Mul(f, beta)));
  }

  function Vector(cos: real -> real, sin: real -> real, theta: real -> real, vertical: bool): (real -> real, real -> real) {
    if vertical then (Comp(sin, theta), Comp(cos, theta)) else (Comp(cos, theta), Neg(Comp(sin, theta)))
  }

  lemma CoordinateAt(arc: ArcShape, cos: real -> real, sin: real -> real, vertical: bool, t: real)
    requires arc.ramp > 0.0
    ensures var (e, f) := Vector(cos, sin, Theta(arc.omega, arc.ramp, arc.steady, 0), vertical);
            var w, alpha, beta := Theta(arc.omega, arc.ramp, arc.steady, 1), Theta(arc.omega, arc.ramp, arc.steady, 2), Theta(arc.omega, arc.ramp, arc.steady, 3);
            && Coordinate(arc, cos, sin, 0, vertical)(t) == (if vertical then arc.cy else arc.cx) + Prod(arc.radius, e(t))
            && Coordinate(arc, cos, sin, 1, vertical)(t) == Prod(arc.radius, Mul(f, w)(t))
            && Coordinate(arc, cos, sin, 2, vertical)(t) == Prod(arc.radius, Turn2(e, f, w, alpha)(t))
            && Coordinate(arc, cos, sin, 3, vertical)(t) == Prod(arc.radius, Turn3(e, f, w, alpha, beta)(t))
  {
    hide Angle, Circle, Pick, Coordinate, Theta, Mul, Turn2, Turn3, Prod, Comp, Neg, Vector;
    var theta, w, alpha, beta := Theta(arc.omega, arc.ramp, arc.steady, 0), Theta(arc.omega, arc.ramp, arc.steady, 1),
                                 Theta(arc.omega, arc.ramp, arc.steady, 2), Theta(arc.omega, arc.ramp, arc.steady, 3);
    var j := Angle(arc.omega, arc.ramp, arc.steady, t);
    AngleAt(arc.omega, arc.ramp, arc.steady, t);
    PickedAt(arc, cos, sin, vertical, t);
    VectorAt(cos, sin, theta, vertical, t);
    CircleNumbers(arc.cx, arc.cy, arc.radius, j, cos, sin, vertical);
    var (e, f) := Vector(cos, sin, theta, vertical);
    TurnAt(e, f, w, alpha, beta, t);
  }

  lemma AngleAt(omega: real, ramp: real, steady: real, t: real)
    requires ramp > 0.0
    ensures Jet(Theta(omega, ramp, steady, 0)(t), Theta(omega, ramp, steady, 1)(t), Theta(omega, ramp, steady, 2)(t), Theta(omega, ramp, steady, 3)(t)) ==
            Angle(omega, ramp, steady, t)
  {
    hide Angle;
  }

  lemma PickedAt(arc: ArcShape, cos: real -> real, sin: real -> real, vertical: bool, t: real)
    requires arc.ramp > 0.0
    ensures var m := Circle(arc.cx, arc.cy, arc.radius, Angle(arc.omega, arc.ramp, arc.steady, t), cos, sin);
            && Coordinate(arc, cos, sin, 0, vertical)(t) == Pick(m, 0, vertical) && Coordinate(arc, cos, sin, 1, vertical)(t) == Pick(m, 1, vertical)
            && Coordinate(arc, cos, sin, 2, vertical)(t) == Pick(m, 2, vertical) && Coordinate(arc, cos, sin, 3, vertical)(t) == Pick(m, 3, vertical)
  {
    hide Angle, Circle, Pick;
  }

  lemma VectorAt(cos: real -> real, sin: real -> real, theta: real -> real, vertical: bool, t: real)
    ensures var (e, f) := Vector(cos, sin, theta, vertical);
            && e(t) == (if vertical then sin(theta(t)) else cos(theta(t)))
            && f(t) == (if vertical then cos(theta(t)) else -sin(theta(t)))
  {
  }

  lemma ArcTurns(arc: ArcShape, cos: real -> real, sin: real -> real, vertical: bool)
    requires arc.ramp > 0.0 && arc.steady >= 0.0 && IsTrig(cos, sin) && IsCurve(cos, sin)
    ensures var (e, f) := Vector(cos, sin, Theta(arc.omega, arc.ramp, arc.steady, 0), vertical);
            var w, alpha, beta := Theta(arc.omega, arc.ramp, arc.steady, 1), Theta(arc.omega, arc.ramp, arc.steady, 2), Theta(arc.omega, arc.ramp, arc.steady, 3);
            var hi := 2.0 * arc.ramp + arc.steady;
            && Differentiable(e, Mul(f, w), 0.0, hi) && Differentiable(Mul(f, w), Turn2(e, f, w, alpha), 0.0, hi)
            && Differentiable(Turn2(e, f, w, alpha), Turn3(e, f, w, alpha, beta), 0.0, hi)
  {
    hide Theta, Mul, Turn1, Turn2, Turn3, Comp, Neg, Differentiable, IsTrig, IsCurve;
    var lo, hi := 0.0, 2.0 * arc.ramp + arc.steady;
    var theta, w, alpha, beta := Theta(arc.omega, arc.ramp, arc.steady, 0), Theta(arc.omega, arc.ramp, arc.steady, 1),
                                 Theta(arc.omega, arc.ramp, arc.steady, 2), Theta(arc.omega, arc.ramp, arc.steady, 3);
    AngleIsMotion(arc.omega, arc.ramp, arc.steady, 0);
    AngleIsMotion(arc.omega, arc.ramp, arc.steady, 1);
    AngleIsMotion(arc.omega, arc.ramp, arc.steady, 2);
    CircleTurns(cos, sin, theta, w, lo, hi);
    var (e, f) := Vector(cos, sin, theta, vertical);
    TurningIsMotion(e, f, w, alpha, beta, lo, hi);
  }

  /** Throughout the arc, across its three phases, velocity is the derivative of position,
      acceleration of velocity and jerk of acceleration, in both coordinates. */
  lemma ArcIsMotion(arc: ArcShape, cos: real -> real, sin: real -> real, n: nat, vertical: bool)
    requires arc.ramp > 0.0 && arc.steady >= 0.0 && IsTrig(cos, sin) && IsCurve(cos, sin) && n < 3
    ensures Differentiable(Coordinate(arc, cos, sin, n, vertical), Coordinate(arc, cos, sin, n + 1, vertical), 0.0, 2.0 * arc.ramp + arc.steady)
  {
    hide Coordinate, Theta, Mul, Turn2, Turn3, Prod, Comp, Neg, Differentiable, IsTrig, IsCurve, Vector;
    ArcTurns(arc, cos, sin, vertical);
    var (e, f) := Vector(cos, sin, Theta(arc.omega, arc.ramp, arc.steady, 0), vertical);
    var w, alpha, beta := Theta(arc.omega, arc.ramp, arc.steady, 1), Theta(arc.omega, arc.ramp, arc.steady, 2), Theta(arc.omega, arc.ramp, arc.steady, 3);
    var p, v := Coordinate(arc, cos, sin, n, vertical), Coordinate(arc, cos, sin, n + 1, vertical);
    var hi := 2.0 * arc.ramp + arc.steady;
    if n == 0 {
      var b := if vertical then arc.cy else arc.cx;
      forall t ensures p(t) == b + Prod(arc.radius, e(t)) && v(t) == Prod(arc.radius, Mul(f, w)(t)) { CoordinateAt(arc, cos, sin, vertical, t); }
      LinearRule(b, arc.radius, e, Mul(f, w), p, v, 0.0, hi);
    } else if n == 1 {
      forall t ensures p(t) == Prod(arc.radius, Mul(f, w)(t)) && v(t) == Prod(arc.radius, Turn2(e, f, w, alpha)(t)) { CoordinateAt(arc, cos, sin, vertical, t); }
      LinearRule(0.0, arc.radius, Mul(f, w), Turn2(e, f, w, alpha), p, v, 0.0, hi);
    } else {
      forall t ensures p(t) == Prod(arc.radius, Turn2(e, f, w, alpha)(t)) && v(t) == Prod(arc.radius, Turn3(e, f, w, alpha, beta)(t)) { CoordinateAt(arc, cos, sin, vertical, t); }
      LinearRule(0.0, arc.radius, Turn2(e, f, w, alpha), Turn3(e, f, w, alpha, beta), p, v, 0.0, hi);
    }
  }
}
