/** The reference as a motion in time: across all segments up to the end of the landing, its
    velocity is the derivative of its position and its acceleration that of its velocity. */
module ReferenceMotion {
  import opened Values
  import opened RealMath
  import opened SmoothMotion
  import opened Derivatives
  import opened ArcProfile
  import opened ArcMotion
  import opened ReferenceTrajectory

  datatype Axis = AlongX | AlongY | AlongZ

  function On(v: Vec, axis: Axis): real {
    match axis
    case AlongX => v.x
    case AlongY => v.y
    case AlongZ => v.z
  }

  /** A coordinate of position, velocity or acceleration. */
  function Part(m: Motion, n: nat, axis: Axis): real {
    On(if n == 0 then m.p else if n == 1 then m.v else m.a, axis)
  }

  // ---- one segment ------------------------------------------------------------

  function CurvePart(s: Segment, initial: Vec, trig: Trig, n: nat, axis: Axis): real -> real
    requires WellFormed(s.leg)
  {
    (t: real) => Part(Curve(s, t, initial, trig), n, axis)
  }

  lemma CurvePartAt(s: Segment, initial: Vec, trig: Trig, n: nat, axis: Axis)
    requires WellFormed(s.leg)
    ensures forall t :: CurvePart(s, initial, trig, n, axis)(t) == Part(Curve(s, t, initial, trig), n, axis)
  {
    hide Curve, Part;
  }

  function JetPart(start: real, d: real, duration: real, n: nat): real -> real
    requires duration > 0.0
  {
    (t: real) => Order(QuinticMotion(start, d, duration, t), n)
  }

  lemma JetPartAt(start: real, d: real, duration: real, n: nat)
    requires duration > 0.0
    ensures forall t :: JetPart(start, d, duration, n)(t) == Order(QuinticMotion(start, d, duration, t), n)
  {
    hide QuinticMotion, Order;
  }

  lemma QuinticDerives(start: real, d: real, duration: real, n: nat)
    requires duration > 0.0 && n < 2
    ensures Differentiable(JetPart(start, d, duration, n), JetPart(start, d, duration, n + 1), 0.0, duration)
  {
    hide QuinticMotion, Tangent, Stretched, JetPart;
    var f, g := JetPart(start, d, duration, n), JetPart(start, d, duration, n + 1);
    var k := if n == 0 then Stretched(d, 180.0, duration) else Stretched(d / duration, 390.0, duration);
    StretchedNonNegative(d, 180.0, duration);
    StretchedNonNegative(d / duration, 390.0, duration);
    JetPartAt(start, d, duration, n);
    JetPartAt(start, d, duration, n + 1);
    forall x, y | Inside(x, 0.0, duration) && Inside(y, 0.0, duration) ensures Tangent(f(x), f(y), g(y), x - y, k) {
      QuinticIsMotion(start, d, duration, x, y);
    }
    DerivesBecause(f, g, 0.0, duration, k);
  }

  /** Which quintic motion, if any, a coordinate of a leg follows. */
  predicate Moves(leg: Leg, axis: Axis) {
    ((leg.Takeoff? || leg.Land?) && axis == AlongZ) || (leg.Longitudinal? && axis == AlongX)
  }

  function StartOn(s: Segment, initial: Vec): real {
    if s.leg.Takeoff? then initial.z else if s.leg.Land? then initial.z - 2.0 else initial.x + s.place.x
  }

  function SpanOf(leg: Leg): real {
    if leg.Takeoff? then -2.0 else if leg.Land? then 2.0 else if leg.Longitudinal? then leg.distance else 0.0
  }

  lemma MovingPart(s: Segment, initial: Vec, trig: Trig, n: nat, axis: Axis, t: real)
    requires WellFormed(s.leg) && Moves(s.leg, axis) && n < 3
    ensures Part(Curve(s, t, initial, trig), n, axis) == Order(QuinticMotion(StartOn(s, initial), SpanOf(s.leg), DurationOf(s.leg), t), n)
  {
    hide QuinticMotion;
  }

  lemma RestingPart(s: Segment, initial: Vec, trig: Trig, axis: Axis, t: real)
    requires WellFormed(s.leg) && !Moves(s.leg, axis) && (s.leg.Arc? ==> axis == AlongZ)
    ensures var m := Curve(s, t, initial, trig);
            Part(m, 0, axis) == On(Vec(initial.x + s.place.x, initial.y + s.place.y, initial.z + s.place.z), axis) && Part(m, 1, axis) == 0.0 && Part(m, 2, axis) == 0.0
  {
    hide QuinticMotion, Circle, Angle;
  }

  function ShapeOf(s: Segment, initial: Vec): ArcShape
    requires WellFormed(s.leg) && s.leg.Arc?
  {
    ArcShape(initial.x + (s.place.x - s.leg.radius), initial.y + s.place.y, s.leg.radius, Div(s.leg.speed, s.leg.radius), s.leg.ramp, s.leg.steady)
  }

  lemma ArcPart(s: Segment, initial: Vec, trig: Trig, n: nat, axis: Axis, t: real)
    requires WellFormed(s.leg) && s.leg.Arc? && axis != AlongZ && n < 3
    ensures Part(Curve(s, t, initial, trig), n, axis) == Coordinate(ShapeOf(s, initial), trig.cos, trig.sin, n, axis == AlongY)(t)
  {
    hide Circle, Angle, Div;
  }

  lemma ArcCurve(s: Segment, initial: Vec, trig: Trig, n: nat, axis: Axis)
    requires WellFormed(s.leg) && s.leg.Arc? && axis != AlongZ && n < 2 && IsTrig(trig.cos, trig.sin) && IsCurve(trig.cos, trig.sin)
    ensures Differentiable(CurvePart(s, initial, trig, n, axis), CurvePart(s, initial, trig, n + 1, axis), 0.0, DurationOf(s.leg))
  {
    hide Differentiable, CurvePart, Coordinate, Curve, Part, IsTrig, IsCurve, ShapeOf;
    var f, d := CurvePart(s, initial, trig, n, axis), CurvePart(s, initial, trig, n + 1, axis);
    ShapeIs(s, initial);
    var p, v := Coordinate(ShapeOf(s, initial), trig.cos, trig.sin, n, axis == AlongY), Coordinate(ShapeOf(s, initial), trig.cos, trig.sin, n + 1, axis == AlongY);
    ArcIsMotion(ShapeOf(s, initial), trig.cos, trig.sin, n, axis == AlongY);
    CurvePartAt(s, initial, trig, n, axis);
    CurvePartAt(s, initial, trig, n + 1, axis);
    forall t ensures f(t) == p(t) && d(t) == v(t) {
      ArcPart(s, initial, trig, n, axis, t);
      ArcPart(s, initial, trig, n + 1, axis, t);
    }
    SameRule(p, v, f, d, 0.0, DurationOf(s.leg));
  }

  lemma ShapeIs(s: Segment, initial: Vec)
    requires WellFormed(s.leg) && s.leg.Arc?
    ensures ShapeOf(s, initial).ramp == s.leg.ramp && ShapeOf(s, initial).steady == s.leg.steady
  {
  }

  /** Every segment is a motion of its own. */
  lemma CurveIsMotion(s: Segment, initial: Vec, trig: Trig, n: nat, axis: Axis)
    requires WellFormed(s.leg) && n < 2 && IsTrig(trig.cos, trig.sin) && IsCurve(trig.cos, trig.sin)
    ensures Differentiable(CurvePart(s, initial, trig, n, axis), CurvePart(s, initial, trig, n + 1, axis), 0.0, DurationOf(s.leg))
  {
    if s.leg.Arc? && axis != AlongZ {
      ArcCurve(s, initial, trig, n, axis);
    } else {
      hide Differentiable, CurvePart, JetPart, Curve, Part, IsTrig, IsCurve, Order, QuinticMotion;
      var f, d := CurvePart(s, initial, trig, n, axis), CurvePart(s, initial, trig, n + 1, axis);
      CurvePartAt(s, initial, trig, n, axis);
      CurvePartAt(s, initial, trig, n + 1, axis);
      if Moves(s.leg, axis) {
        var b, c, duration := StartOn(s, initial), SpanOf(s.leg), DurationOf(s.leg);
        QuinticDerives(b, c, duration, n);
        JetPartAt(b, c, duration, n);
        JetPartAt(b, c, duration, n + 1);
        forall t ensures f(t) == JetPart(b, c, duration, n)(t) && d(t) == JetPart(b, c, duration, n + 1)(t) {
          MovingPart(s, initial, trig, n, axis, t);
          MovingPart(s, initial, trig, n + 1, axis, t);
        }
        SameRule(JetPart(b, c, duration, n), JetPart(b, c, duration, n + 1), f, d, 0.0, duration);
      } else {
        var b := if n == 0 then On(Vec(initial.x + s.place.x, initial.y + s.place.y, initial.z + s.place.z), axis) else 0.0;
        forall t ensures f(t) == b && d(t) == 0.0 {
          RestingPart(s, initial, trig, axis, t);
        }
        ConstantRule(f, d, 0.0, DurationOf(s.leg), b);
      }
    }
  }

  // ---- the reference ----------------------------------------------------------

  /** The segments of a well-formed profile. */
  ghost predicate Laid(segments: seq<Segment>, legs: seq<Leg>, trig: Trig) {
    && AllWellFormed(legs) && Placed(segments, legs, trig) && legs != []
    && (forall i :: 0 <= i < |segments| ==> WellFormed(segments[i].leg))
    && IsTrig(trig.cos, trig.sin) && IsCurve(trig.cos, trig.sin)
  }

  ghost function RefPart(segments: seq<Segment>, initial: Vec, trig: Trig, n: nat, axis: Axis): real -> real
    requires segments != [] && forall i :: 0 <= i < |segments| ==> WellFormed(segments[i].leg)
  {
    (t: real) => Part(Reference(segments, t, Some(initial), trig).value, n, axis)
  }

  lemma RefPartAt(segments: seq<Segment>, initial: Vec, trig: Trig, n: nat, axis: Axis)
    requires segments != [] && forall i :: 0 <= i < |segments| ==> WellFormed(segments[i].leg)
    ensures forall t :: RefPart(segments, initial, trig, n, axis)(t) == Part(Reference(segments, t, Some(initial), trig).value, n, axis)
  {
    hide Reference, Part;
  }

  lemma JoinedParts(m: Motion, q: Motion, n: nat, axis: Axis)
    requires Joins(m, q)
    ensures Part(m, n, axis) == Part(q, n, axis)
  {
  }

  lemma LaidIs(segments: seq<Segment>, legs: seq<Leg>, trig: Trig, i: nat)
    requires Laid(segments, legs, trig) && i < |legs|
    ensures segments != [] && |segments| == |legs| && segments[i].leg == legs[i] && WellFormed(legs[i]) && AllWellFormed(legs) && Placed(segments, legs, trig)
    ensures forall k :: 0 <= k < |segments| ==> WellFormed(segments[k].leg)
    ensures IsTrig(trig.cos, trig.sin) && IsCurve(trig.cos, trig.sin) && EndOf(segments[i]) == segments[i].place.time + DurationOf(legs[i])
  {
    hide PlaceAt, IsTrig, IsCurve, WellFormed;
  }

  /** The segment's end height fits the next. */
  predicate Fits(segments: seq<Segment>, i: nat) {
    i + 1 < |segments| && EndHeight(segments[i]) == StartHeight(segments[i + 1])
  }

  /** Within a segment, its end included if the next one fits, the reference is its curve. */
  lemma RefIsCurve(segments: seq<Segment>, legs: seq<Leg>, trig: Trig, i: nat, t: real, initial: Vec, n: nat, axis: Axis)
    requires Laid(segments, legs, trig) && i < |legs| && i < |segments| && segments[i].place.time <= t <= EndOf(segments[i])
    requires t < EndOf(segments[i]) || Fits(segments, i)
    ensures segments != [] && (forall k :: 0 <= k < |segments| ==> WellFormed(segments[k].leg))
    ensures Part(Reference(segments, t, Some(initial), trig).value, n, axis) == Part(Curve(segments[i], t - segments[i].place.time, initial, trig), n, axis)
  {
    hide Laid, Placed, Curve, Part, Lookup, IsTrig, IsCurve, PlaceAt, Joins;
    LaidIs(segments, legs, trig, i);
    if t < EndOf(segments[i]) {
      LookupInside(segments, legs, trig, i, t);
    } else {
      ReferenceFollowsCurve(segments, legs, trig, i, t, initial);
      JoinedParts(Reference(segments, t, Some(initial), trig).value, Curve(segments[i], t - segments[i].place.time, initial, trig), n, axis);
    }
  }

  /** The reference is a motion within a segment. */
  lemma StretchIsMotion(segments: seq<Segment>, legs: seq<Leg>, trig: Trig, i: nat, hi: real, initial: Vec, n: nat, axis: Axis)
    requires Laid(segments, legs, trig) && i < |legs| && i < |segments| && segments[i].place.time <= hi <= EndOf(segments[i]) && n < 2
    requires hi < EndOf(segments[i]) || Fits(segments, i)
    ensures segments != [] && (forall k :: 0 <= k < |segments| ==> WellFormed(segments[k].leg))
    ensures Differentiable(RefPart(segments, initial, trig, n, axis), RefPart(segments, initial, trig, n + 1, axis), segments[i].place.time, hi)
  {
    hide Laid, Curve, Part, Reference, IsTrig, IsCurve, RefPart, CurvePart, Differentiable, Placed;
    LaidIs(segments, legs, trig, i);
    var start := segments[i].place.time;
    var f, d := CurvePart(segments[i], initial, trig, n, axis), CurvePart(segments[i], initial, trig, n + 1, axis);
    var g, g1 := RefPart(segments, initial, trig, n, axis), RefPart(segments, initial, trig, n + 1, axis);
    CurveIsMotion(segments[i], initial, trig, n, axis);
    RestrictRule(f, d, 0.0, DurationOf(legs[i]), hi - start);
    CurvePartAt(segments[i], initial, trig, n, axis);
    CurvePartAt(segments[i], initial, trig, n + 1, axis);
    RefPartAt(segments, initial, trig, n, axis);
    RefPartAt(segments, initial, trig, n + 1, axis);
    forall x | Inside(x, start + 0.0, start + (hi - start)) ensures g(x) == f(x - start) && g1(x) == d(x - start) {
      RefIsCurve(segments, legs, trig, i, x, initial, n, axis);
      RefIsCurve(segments, legs, trig, i, x, initial, n + 1, axis);
    }
    ShiftRule(f, d, g, g1, 0.0, hi - start, start);
    assert start + 0.0 == start && start + (hi - start) == hi;
  }

  lemma FirstStart(segments: seq<Segment>, legs: seq<Leg>, trig: Trig)
    requires Laid(segments, legs, trig)
    ensures segments != [] && segments[0].place.time == 0.0
  {
    assert legs[..0] == [];
  }

  lemma NextStart(segments: seq<Segment>, legs: seq<Leg>, trig: Trig, i: nat)
    requires Laid(segments, legs, trig) && 0 < i < |legs|
    ensures |segments| == |legs| && segments[i].place.time == EndOf(segments[i - 1])
    ensures segments[i - 1].place.time <= EndOf(segments[i - 1])
  {
    hide PlaceAt;
    LaidIs(segments, legs, trig, i - 1);
    StartsInOrder(segments, legs, trig, i - 1, i);
  }

  lemma {:induction false} TimesGrow(segments: seq<Segment>, legs: seq<Leg>, trig: Trig, i: nat)
    requires Laid(segments, legs, trig) && i < |legs|
    ensures |segments| == |legs| && segments[i].place.time >= 0.0
  {
    hide Laid;
    LaidIs(segments, legs, trig, i);
    if i == 0 {
      FirstStart(segments, legs, trig);
    } else {
      TimesGrow(segments, legs, trig, i - 1);
      NextStart(segments, legs, trig, i);
    }
  }

  /** From the start to any time within segment i, when the segments before it fit. */
  lemma {:induction false} MotionUpTo(segments: seq<Segment>, legs: seq<Leg>, trig: Trig, i: nat, hi: real, initial: Vec, n: nat, axis: Axis)
    requires Laid(segments, legs, trig) && i < |legs| && i < |segments| && segments[i].place.time <= hi <= EndOf(segments[i]) && n < 2
    requires hi < EndOf(segments[i]) || Fits(segments, i)
    requires forall k: nat | k < i :: Fits(segments, k)
    ensures segments != [] && (forall k :: 0 <= k < |segments| ==> WellFormed(segments[k].leg))
    ensures Differentiable(RefPart(segments, initial, trig, n, axis), RefPart(segments, initial, trig, n + 1, axis), 0.0, hi)
  {
    hide Laid, Differentiable, RefPart, Fits, WellFormed, EndOf;
    StretchIsMotion(segments, legs, trig, i, hi, initial, n, axis);
    if i == 0 {
      FirstStart(segments, legs, trig);
    } else {
      LaidIs(segments, legs, trig, i);
      NextStart(segments, legs, trig, i);
      MotionUpTo(segments, legs, trig, i - 1, EndOf(segments[i - 1]), initial, n, axis);
      TimesGrow(segments, legs, trig, i);
      GlueRule(RefPart(segments, initial, trig, n, axis), RefPart(segments, initial, trig, n + 1, axis), 0.0, segments[i].place.time, hi);
    }
  }

  /** The looked-up reference of a regular profile is one motion up to any time before the end
      of the landing: velocity is the derivative of position and acceleration of velocity, in
      every coordinate. */
  lemma ReferenceIsMotion(segments: seq<Segment>, legs: seq<Leg>, takeoff: nat, trig: Trig, initial: Vec, hi: real, n: nat, axis: Axis)
    requires Regular(legs, takeoff) && Laid(segments, legs, trig) && |segments| == |legs| && n < 2
    requires hi < EndOf(segments[|legs| - 2])
    ensures segments != [] && (forall k :: 0 <= k < |segments| ==> WellFormed(segments[k].leg))
    ensures Differentiable(RefPart(segments, initial, trig, n, axis), RefPart(segments, initial, trig, n + 1, axis), 0.0, hi)
  {
    hide Laid, Differentiable, RefPart, EndOf, PlaceAt;
    forall k: nat | k < |legs| - 2 ensures Fits(segments, k) {
      HeightsFit(segments, legs, takeoff, trig, k);
    }
    LaidIs(segments, legs, trig, |legs| - 2);
    var landing := segments[|legs| - 2];
    var top := if hi < landing.place.time then landing.place.time else hi;
    MotionUpTo(segments, legs, trig, |legs| - 2, top, initial, n, axis);
    RestrictRule(RefPart(segments, initial, trig, n, axis), RefPart(segments, initial, trig, n + 1, axis), 0.0, top, hi);
  }

  lemma HeightsFit(segments: seq<Segment>, legs: seq<Leg>, takeoff: nat, trig: Trig, k: nat)
    requires Regular(legs, takeoff) && Laid(segments, legs, trig) && |segments| == |legs| && k < |legs| - 2
    ensures Fits(segments, k)
  {
    hide PlaceAt;
    HeightAt(legs, takeoff, trig, k);
    HeightAt(legs, takeoff, trig, k + 1);
  }
}
