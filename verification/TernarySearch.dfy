/** Ternary search on the unit interval, for a convex function. */
module TernarySearch {
  import opened RealMath

  ghost predicate Convex(g: real -> real) {
    forall a, b, w :: 0.0 <= a <= 1.0 && 0.0 <= b <= 1.0 && 0.0 <= w <= 1.0 ==> g(Mix(a, b, w)) <= Mix(g(a), g(b), w)
  }

  ghost predicate Lipschitz(g: real -> real, l: real) {
    l >= 0.0 && forall a, b :: 0.0 <= a <= 1.0 && 0.0 <= b <= 1.0 ==> g(a) - g(b) <= Prod(Abs(a - b), l)
  }

  /** Every value on the unit interval is matched or beaten on [lo, hi]. */
  ghost predicate Beaten(g: real -> real, lo: real, hi: real, t: real) {
    exists u :: lo <= u <= hi && g(u) <= g(t)
  }

  ghost predicate Holds(g: real -> real, lo: real, hi: real) {
    forall t :: 0.0 <= t <= 1.0 ==> Beaten(g, lo, hi, t)
  }

  /** (2/3) to the power n. */
  function Shrink(n: nat): real {
    if n == 0 then 1.0 else 2.0 / 3.0 * Shrink(n - 1)
  }

  lemma Quotient(a: real, b: real) returns (q: real)
    requires b > 0.0
    ensures Prod(q, b) == a
  {
    q := a / b;
  }

  lemma Fraction(a: real, m: real, b: real) returns (w: real)
    requires a < m < b
    ensures 0.0 < w < 1.0 && Mix(a, b, w) == m
  {
    w := Quotient(m - a, b - a);
    MixIsShift(a, b, w);
    hide Prod;
    ProdOne(b - a);
    if w <= 0.0 { ProdMonotone(w, 0.0, b - a); }
    if w >= 1.0 { ProdMonotone(1.0, w, b - a); }
  }

  lemma MixIsShift(a: real, b: real, w: real)
    ensures Mix(a, b, w) == a + Prod(w, b - a)
  {
  }

  /** A mean that is not below m, with one part not above m, has its other part not below m. */
  lemma OtherPart(x: real, y: real, w: real, m: real)
    requires 0.0 < w <= 1.0 && x <= m <= Mix(x, y, w)
    ensures m <= y
  {
    MixIsShift(m, y, w);
    hide Prod;
    ProdMonotone(x, m, 1.0 - w);
    assert Prod(w, y - m) >= 0.0;
    ProdCommutes(w, y - m);
    ProdDifference(y, m, w);
    ProdCancels(m, y, w);
  }

  /** Once the middle rises to the right, what lies further right is no better. */
  lemma RightIsNoBetter(g: real -> real, a: real, m: real, t: real)
    requires Convex(g) && 0.0 <= a < m < t <= 1.0 && g(a) <= g(m)
    ensures g(a) <= g(t)
  {
    var w := Fraction(a, m, t);
    assert g(Mix(a, t, w)) <= Mix(g(a), g(t), w);
    OtherPart(g(a), g(t), w, g(a));
  }

  lemma LeftIsNoBetter(g: real -> real, t: real, m: real, b: real)
    requires Convex(g) && 0.0 <= t < m < b <= 1.0 && g(b) <= g(m)
    ensures g(b) <= g(t)
  {
    var w := Fraction(t, m, b);
    assert g(Mix(t, b, w)) <= Mix(g(t), g(b), w);
    assert Mix(g(t), g(b), w) == Mix(g(b), g(t), 1.0 - w);
    hide Mix;
    OtherPart(g(b), g(t), 1.0 - w, g(b));
  }

  lemma KeepLeft(g: real -> real, lo: real, left: real, right: real, hi: real)
    requires Convex(g) && Holds(g, lo, hi) && 0.0 <= lo <= left < right <= hi <= 1.0 && g(left) <= g(right)
    ensures Holds(g, lo, right)
  {
    forall t | 0.0 <= t <= 1.0 ensures Beaten(g, lo, right, t) {
      assert Beaten(g, lo, hi, t);
      var u :| lo <= u <= hi && g(u) <= g(t);
      if u > right {
        RightIsNoBetter(g, left, right, u);
      }
    }
  }

  lemma KeepRight(g: real -> real, lo: real, left: real, right: real, hi: real)
    requires Convex(g) && Holds(g, lo, hi) && 0.0 <= lo <= left < right <= hi <= 1.0 && g(right) < g(left)
    ensures Holds(g, left, hi)
  {
    forall t | 0.0 <= t <= 1.0 ensures Beaten(g, left, hi, t) {
      assert Beaten(g, lo, hi, t);
      var u :| lo <= u <= hi && g(u) <= g(t);
      if u < left {
        LeftIsNoBetter(g, u, left, right);
      }
    }
  }

  lemma {:induction false} ShrinkPositive(n: nat)
    ensures Shrink(n) > 0.0
  {
    if n > 0 { ShrinkPositive(n - 1); }
  }

  const ROUNDS: nat := 72

  lemma HalfWidth(l: real, lo: real, hi: real, m: real, u: real)
    requires l >= 0.0 && lo <= u <= hi && m == (lo + hi) / 2.0
    ensures Prod(Abs(m - u), l) <= Prod((hi - lo) / 2.0, l)
  {
    hide Prod;
    ProdMonotone(Abs(m - u), (hi - lo) / 2.0, l);
  }

  /** The midpoint is within half the width of a point that beats t. */
  lemma MidpointIsClose(g: real -> real, l: real, lo: real, hi: real, t: real)
    requires Lipschitz(g, l) && Holds(g, lo, hi) && 0.0 <= lo <= hi <= 1.0 && 0.0 <= t <= 1.0
    ensures g((lo + hi) / 2.0) <= g(t) + Prod((hi - lo) / 2.0, l)
  {
    hide Abs;
    var m := (lo + hi) / 2.0;
    assert Beaten(g, lo, hi, t);
    var u :| lo <= u <= hi && g(u) <= g(t);
    hide Prod;
    assert g(m) - g(u) <= Prod(Abs(m - u), l);
    HalfWidth(l, lo, hi, m, u);
  }

  function Min(a: real, b: real): real {
    if b < a then b else a
  }

  /** The least value found. It is attained on the interval; for a convex function no value
      on the interval lies more than the Lipschitz bound over the last half-width below it. */
  method Minimum(g: real -> real) returns (r: real)
    ensures exists t :: 0.0 <= t <= 1.0 && g(t) == r
    ensures Convex(g) ==> forall l, t :: Lipschitz(g, l) && 0.0 <= t <= 1.0 ==> g(t) >= r - l * Shrink(ROUNDS) / 2.0
  {
    hide Convex, Lipschitz, Holds, Shrink;
    var lo, hi := 0.0, 1.0;
    StartHolds(g);
    ShrinkStep(0);
    for i := 0 to ROUNDS
      invariant 0.0 <= lo < hi <= 1.0 && hi - lo == Shrink(i)
      invariant Convex(g) ==> Holds(g, lo, hi)
    {
      var left := (2.0 * lo + hi) / 3.0;
      var right := (lo + 2.0 * hi) / 3.0;
      ShrinkStep(i);
      if g(left) <= g(right) {
        if Convex(g) { KeepLeft(g, lo, left, right, hi); }
        hi := right;
      } else {
        if Convex(g) { KeepRight(g, lo, left, right, hi); }
        lo := left;
      }
    }
    var mid := (lo + hi) / 2.0;
    r := Min(Min(g(0.0), g(1.0)), g(mid));
    if Convex(g) {
      forall l, t | Lipschitz(g, l) && 0.0 <= t <= 1.0 ensures g(t) >= r - l * Shrink(ROUNDS) / 2.0 {
        MidpointIsClose(g, l, lo, hi, t);
        assert Prod((hi - lo) / 2.0, l) == l * Shrink(ROUNDS) / 2.0;
      }
    }
  }

  lemma BeatenBy(g: real -> real, lo: real, hi: real, t: real, u: real)
    requires lo <= u <= hi && g(u) <= g(t)
    ensures Beaten(g, lo, hi, t)
  {
  }

  lemma StartHolds(g: real -> real)
    ensures Holds(g, 0.0, 1.0)
  {
    forall t | 0.0 <= t <= 1.0 ensures Beaten(g, 0.0, 1.0, t) {
      BeatenBy(g, 0.0, 1.0, t, t);
    }
  }

  lemma ShrinkStep(i: nat)
    ensures Shrink(0) == 1.0 && Shrink(i + 1) == 2.0 / 3.0 * Shrink(i)
  {
  }
}
