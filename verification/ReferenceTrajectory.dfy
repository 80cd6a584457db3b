/** The analytic reference generator: legs placed one after another in time and space, the
    lookup of the leg in force, and the reference it gives. */
module ReferenceTrajectory {
  import opened Values
  import opened RealMath
  import opened SmoothMotion
  import opened ArcProfile

  datatype Leg =
    | Hold(duration: real)
    | Takeoff(duration: real)
    | Longitudinal(distance: real, duration: real)
    | Arc(radius: real, speed: real, ramp: real, steady: real)
    | Land(duration: real)
    | Done(duration: real)

  function DurationOf(leg: Leg): real {
    if leg.Arc? then 2.0 * leg.ramp + leg.steady else leg.duration
  }

  predicate WellFormed(leg: Leg) {
    DurationOf(leg) > 0.0 && (leg.Arc? ==> leg.radius != 0.0 && leg.ramp > 0.0 && leg.steady >= 0.0)
  }

  predicate AllWellFormed(legs: seq<Leg>) {
    forall i :: 0 <= i < |legs| ==> WellFormed(legs[i])
  }

  /** Where and when a leg starts, relative to the initial position. */
  datatype Place = Place(time: real, x: real, y: real, z: real)

  datatype Segment = Segment(leg: Leg, place: Place)

  datatype Trig = Trig(cos: real -> real, sin: real -> real)

  /** Where and when the next leg starts. */
  function After(place: Place, leg: Leg, trig: Trig): Place
    requires WellFormed(leg)
  {
    var time := place.time + DurationOf(leg);
    match leg
    case Takeoff(_) => place.(time := time, z := -2.0)
    case Longitudinal(distance, _) => place.(time := time, x := place.x + distance)
    case Arc(radius, speed, ramp, steady) =>
      var angle := FinalAngle(radius, speed, ramp, steady);
      place.(time := time, x := place.x - radius + Prod(radius, trig.cos(angle)), y := place.y + Prod(radius, trig.sin(angle)))
    case _ => place.(time := time)
  }

  function PlaceAt(legs: seq<Leg>, trig: Trig): Place
    requires AllWellFormed(legs)
  {
    if legs == [] then Place(0.0, 0.0, 0.0, 0.0) else After(PlaceAt(legs[..|legs| - 1], trig), legs[|legs| - 1], trig)
  }

  /** The segments of a list of legs. */
  ghost predicate Placed(segments: seq<Segment>, legs: seq<Leg>, trig: Trig)
    requires AllWellFormed(legs)
  {
    |segments| == |legs| && forall i :: 0 <= i < |legs| ==> segments[i] == Segment(legs[i], PlaceAt(legs[..i], trig))
  }

  /** Lays the legs end to end. */
  method BuildSegments(legs: seq<Leg>, trig: Trig) returns (segments: seq<Segment>)
    requires AllWellFormed(legs)
    ensures Placed(segments, legs, trig)
  {
    segments := [];
    var elapsed, offsetX, offsetY, offsetZ := 0.0, 0.0, 0.0, 0.0;
    for n := 0 to |legs|
      invariant Placed(segments, legs[..n], trig)
      invariant Place(elapsed, offsetX, offsetY, offsetZ) == PlaceAt(legs[..n], trig)
    {
      hide PlaceAt, FinalAngle, Prod;
      var leg := legs[n];
      NextPlace(legs, trig, n);
      PlacedStep(segments, legs, n, Segment(leg, Place(elapsed, offsetX, offsetY, offsetZ)), trig);
      segments := segments + [Segment(leg, Place(elapsed, offsetX, offsetY, offsetZ))];
      match leg {
        case Takeoff(_) =>
          offsetZ := -2.0;
        case Longitudinal(distance, _) =>
          offsetX := offsetX + distance;
        case Arc(radius, speed, ramp, steady) =>
          var centerX, centerY := offsetX - radius, offsetY;
          var angle := FinalAngle(radius, speed, ramp, steady);
          offsetX := centerX + Prod(radius, trig.cos(angle));
          offsetY := centerY + Prod(radius, trig.sin(angle));
        case _ =>
      }
      elapsed := elapsed + DurationOf(leg);
    }
    assert legs[..|legs|] == legs;
  }

  lemma PlacedStep(segments: seq<Segment>, legs: seq<Leg>, n: nat, s: Segment, trig: Trig)
    requires AllWellFormed(legs) && n < |legs| && Placed(segments, legs[..n], trig) && s == Segment(legs[n], PlaceAt(legs[..n], trig))
    ensures Placed(segments + [s], legs[..n + 1], trig)
  {
    hide PlaceAt;
    assert forall i :: 0 <= i <= n ==> legs[..n + 1][..i] == legs[..i];
    assert forall i :: 0 <= i <= n ==> legs[..n][..i] == legs[..i];
  }

  // ---- the segment in force ---------------------------------------------------

  datatype Found = Found(index: nat, local: real)

  function EndOf(s: Segment): real {
    s.place.time + DurationOf(s.leg)
  }

  /** The first segment that has not ended, and the time since its start. */
  method FindSegment(segments: seq<Segment>, elapsed: real) returns (f: Found)
    requires segments != []
    ensures f == Lookup(segments, elapsed)
  {
    for i := 0 to |segments|
      invariant forall k :: 0 <= k < i ==> EndOf(segments[k]) <= elapsed
    {
      if elapsed < EndOf(segments[i]) {
        LookupIs(segments, elapsed, i);
        return Found(i, if elapsed - segments[i].place.time < 0.0 then 0.0 else elapsed - segments[i].place.time);
      }
    }
    LookupIs(segments, elapsed, |segments|);
    f := Found(|segments| - 1, DurationOf(segments[|segments| - 1].leg));
  }

  ghost function FirstOpen(segments: seq<Segment>, elapsed: real): (i: nat)
    ensures i <= |segments| && (i < |segments| ==> elapsed < EndOf(segments[i]))
    ensures forall k :: 0 <= k < i ==> EndOf(segments[k]) <= elapsed
  {
    if segments == [] then 0
    else
      var n := |segments| - 1;
      var i := FirstOpen(segments[..n], elapsed);
      if i < n then i else if elapsed < EndOf(segments[n]) then n else n + 1
  }

  ghost function Lookup(segments: seq<Segment>, elapsed: real): Found
    requires segments != []
  {
    var i := FirstOpen(segments, elapsed);
    if i == |segments| then Found(i - 1, DurationOf(segments[i - 1].leg))
    else Found(i, if elapsed - segments[i].place.time < 0.0 then 0.0 else elapsed - segments[i].place.time)
  }

  lemma LookupIs(segments: seq<Segment>, elapsed: real, i: nat)
    requires i <= |segments| && (forall k :: 0 <= k < i ==> EndOf(segments[k]) <= elapsed)
    requires i < |segments| ==> elapsed < EndOf(segments[i])
    ensures FirstOpen(segments, elapsed) == i
  {
  }

  // ---- the reference ----------------------------------------------------------

  datatype Motion = Motion(p: Vec, v: Vec, a: Vec, j: Vec)

  const ZERO: Vec := Vec(0.0, 0.0, 0.0)

  /** The reference of a segment at a local time. */
  function Curve(s: Segment, local: real, initial: Vec, trig: Trig): Motion
    requires WellFormed(s.leg)
  {
    var p := Vec(initial.x + s.place.x, initial.y + s.place.y, initial.z + s.place.z);
    match s.leg
    case Takeoff(duration) => Vertical(p, QuinticMotion(initial.z, -2.0, duration, local))
    case Land(duration) => Vertical(p, QuinticMotion(initial.z - 2.0, 2.0, duration, local))
    case Longitudinal(distance, duration) =>
      var q := QuinticMotion(initial.x + s.place.x, distance, duration, local);
      Motion(p.(x := q.value), Vec(q.d1, 0.0, 0.0), Vec(q.d2, 0.0, 0.0), Vec(q.d3, 0.0, 0.0))
    case Arc(radius, speed, ramp, steady) =>
      var m := Circle(initial.x + (s.place.x - radius), initial.y + s.place.y, radius,
                      Angle(Div(speed, radius), ramp, steady, local), trig.cos, trig.sin);
      Motion(Vec(m.p.x, m.p.y, p.z), Vec(m.v.x, m.v.y, 0.0), Vec(m.a.x, m.a.y, 0.0), Vec(m.j.x, m.j.y, 0.0))
    case _ => Motion(p, ZERO, ZERO, ZERO)
  }

  function Vertical(p: Vec, q: Jet): Motion {
    Motion(p.(z := q.value), Vec(0.0, 0.0, q.d1), Vec(0.0, 0.0, q.d2), Vec(0.0, 0.0, q.d3))
  }

  /** The reference at an elapsed time; none before the initial position is known. */
  ghost function Reference(segments: seq<Segment>, elapsed: real, initial: Option<Vec>, trig: Trig): Option<Motion>
    requires segments != [] && forall i :: 0 <= i < |segments| ==> WellFormed(segments[i].leg)
  {
    var f := Lookup(segments, elapsed);
    if initial.None? then None else Some(Curve(segments[f.index], f.local, initial.value, trig))
  }

  // ---- ends of a segment ------------------------------------------------------

  function StartHeight(s: Segment): real {
    if s.leg.Takeoff? then 0.0 else if s.leg.Land? then -2.0 else s.place.z
  }

  function EndHeight(s: Segment): real {
    if s.leg.Takeoff? then -2.0 else if s.leg.Land? then 0.0 else s.place.z
  }

  predicate Rests(m: Motion, p: Vec) {
    m.p == p && m.v == ZERO && m.a == ZERO
  }

  lemma ArcStartsAtRest(s: Segment, initial: Vec, trig: Trig)
    requires WellFormed(s.leg) && s.leg.Arc? && IsTrig(trig.cos, trig.sin)
    ensures Rests(Curve(s, 0.0, initial, trig), Vec(initial.x + s.place.x, initial.y + s.place.y, initial.z + s.place.z))
  {
    TrigAtZero(trig);
    hide Angle, Circle, Prod, Div, FinalAngle, IsTrig;
    var leg := s.leg;
    ArcEnds(leg.radius, leg.speed, leg.ramp, leg.steady);
    CircleAtRest(initial.x + (s.place.x - leg.radius), initial.y + s.place.y, leg.radius, Jet(0.0, 0.0, 0.0, 0.0), trig.cos, trig.sin);
    Simple(leg.radius);
  }

  lemma TrigAtZero(trig: Trig)
    requires IsTrig(trig.cos, trig.sin)
    ensures trig.cos(0.0) == 1.0 && trig.sin(0.0) == 0.0
  {
  }

  lemma ArcEndsAtRest(s: Segment, initial: Vec, trig: Trig)
    requires WellFormed(s.leg) && s.leg.Arc?
    ensures var next := After(s.place, s.leg, trig);
            Rests(Curve(s, DurationOf(s.leg), initial, trig), Vec(initial.x + next.x, initial.y + next.y, initial.z + s.place.z))
  {
    hide Angle, Circle, Prod, FinalAngle, Div;
    var leg := s.leg;
    ArcEnds(leg.radius, leg.speed, leg.ramp, leg.steady);
    var angle := FinalAngle(leg.radius, leg.speed, leg.ramp, leg.steady);
    CircleAtRest(initial.x + (s.place.x - leg.radius), initial.y + s.place.y, leg.radius, Jet(angle, 0.0, 0.0, 0.0), trig.cos, trig.sin);
  }

  /** Every segment starts at rest at its own place, at the height its leg assumes. */
  lemma StartsAtRest(s: Segment, initial: Vec, trig: Trig)
    requires WellFormed(s.leg) && IsTrig(trig.cos, trig.sin)
    ensures Rests(Curve(s, 0.0, initial, trig), Vec(initial.x + s.place.x, initial.y + s.place.y, initial.z + StartHeight(s)))
  {
    hide QuinticMotion, Angle, Circle, IsTrig;
    match s.leg
    case Takeoff(duration) => QuinticEnds(initial.z, -2.0, duration);
    case Land(duration) => QuinticEnds(initial.z - 2.0, 2.0, duration);
    case Longitudinal(distance, duration) => QuinticEnds(initial.x + s.place.x, distance, duration);
    case Arc(_, _, _, _) => ArcStartsAtRest(s, initial, trig);
    case _ =>
  }

  /** Every segment ends at rest where the next one is placed, at the height its leg reaches. */
  lemma EndsAtRest(s: Segment, initial: Vec, trig: Trig)
    requires WellFormed(s.leg)
    ensures var next := After(s.place, s.leg, trig);
            Rests(Curve(s, DurationOf(s.leg), initial, trig), Vec(initial.x + next.x, initial.y + next.y, initial.z + EndHeight(s)))
  {
    hide QuinticMotion, Angle, Circle;
    match s.leg
    case Takeoff(duration) => QuinticEnds(initial.z, -2.0, duration);
    case Land(duration) => QuinticEnds(initial.z - 2.0, 2.0, duration);
    case Longitudinal(distance, duration) => QuinticEnds(initial.x + s.place.x, distance, duration);
    case Arc(_, _, _, _) => ArcEndsAtRest(s, initial, trig);
    case _ =>
  }

  // ---- boundaries -------------------------------------------------------------

  /** Position, velocity and acceleration agree. */
  predicate Joins(m: Motion, n: Motion) {
    m.p == n.p && m.v == n.v && m.a == n.a
  }

  lemma NextPlace(legs: seq<Leg>, trig: Trig, i: nat)
    requires AllWellFormed(legs) && i < |legs|
    ensures PlaceAt(legs[..i + 1], trig) == After(PlaceAt(legs[..i], trig), legs[i], trig)
  {
    assert legs[..i + 1][..i] == legs[..i];
  }

  /** One segment runs into the next without a jump in position, velocity or acceleration
      exactly when the height it ends at is the height the next one starts at. */
  lemma BoundaryExactly(segments: seq<Segment>, legs: seq<Leg>, i: nat, initial: Vec, trig: Trig)
    requires AllWellFormed(legs) && Placed(segments, legs, trig) && i + 1 < |legs| && IsTrig(trig.cos, trig.sin)
    ensures Joins(Curve(segments[i], DurationOf(legs[i]), initial, trig), Curve(segments[i + 1], 0.0, initial, trig)) <==>
            EndHeight(segments[i]) == StartHeight(segments[i + 1])
  {
    hide Curve, After, IsTrig;
    NextPlace(legs, trig, i);
    EndsAtRest(segments[i], initial, trig);
    StartsAtRest(segments[i + 1], initial, trig);
  }

  // ---- time -------------------------------------------------------------------

  lemma {:induction false} StartsInOrder(segments: seq<Segment>, legs: seq<Leg>, trig: Trig, i: nat, j: nat)
    requires AllWellFormed(legs) && Placed(segments, legs, trig) && i < j < |legs|
    ensures EndOf(segments[i]) <= segments[j].place.time
    ensures j == i + 1 ==> EndOf(segments[i]) == segments[j].place.time
    decreases j
  {
    NextPlace(legs, trig, j - 1);
    hide PlaceAt;
    if i < j - 1 {
      StartsInOrder(segments, legs, trig, i, j - 1);
    }
  }

  lemma EndsInOrder(segments: seq<Segment>, legs: seq<Leg>, trig: Trig, i: nat, elapsed: real)
    requires AllWellFormed(legs) && Placed(segments, legs, trig) && i < |legs| && segments[i].place.time <= elapsed
    ensures forall k :: 0 <= k < i ==> EndOf(segments[k]) <= elapsed
  {
    hide PlaceAt;
    forall k | 0 <= k < i ensures EndOf(segments[k]) <= elapsed {
      StartsInOrder(segments, legs, trig, k, i);
    }
  }

  lemma LookupInside(segments: seq<Segment>, legs: seq<Leg>, trig: Trig, i: nat, elapsed: real)
    requires AllWellFormed(legs) && Placed(segments, legs, trig) && i < |legs|
    requires segments[i].place.time <= elapsed < EndOf(segments[i])
    ensures Lookup(segments, elapsed) == Found(i, elapsed - segments[i].place.time)
  {
    hide PlaceAt, FirstOpen;
    EndsInOrder(segments, legs, trig, i, elapsed);
    LookupIs(segments, elapsed, i);
  }

  lemma LookupAtEnd(segments: seq<Segment>, legs: seq<Leg>, trig: Trig, i: nat)
    requires AllWellFormed(legs) && Placed(segments, legs, trig) && i < |legs|
    ensures i + 1 < |legs| ==> Lookup(segments, EndOf(segments[i])) == Found(i + 1, 0.0)
    ensures i + 1 == |legs| ==> Lookup(segments, EndOf(segments[i])) == Found(i, DurationOf(legs[i]))
  {
    hide PlaceAt, FirstOpen;
    var t := EndOf(segments[i]);
    if i + 1 < |legs| {
      StartsInOrder(segments, legs, trig, i, i + 1);
      LookupInside(segments, legs, trig, i + 1, t);
    } else {
      EndsInOrder(segments, legs, trig, i, t);
      LookupIs(segments, t, |segments|);
    }
  }

  /** On the closed time interval of a segment whose end height fits the next, the reference
      is that segment's own curve, in position, velocity and acceleration: the lookup adds no
      jump at either end. */
  lemma ReferenceFollowsCurve(segments: seq<Segment>, legs: seq<Leg>, trig: Trig, i: nat, elapsed: real, initial: Vec)
    requires AllWellFormed(legs) && Placed(segments, legs, trig) && i < |legs| && IsTrig(trig.cos, trig.sin)
    requires i + 1 < |legs| ==> EndHeight(segments[i]) == StartHeight(segments[i + 1])
    requires segments[i].place.time <= elapsed <= EndOf(segments[i])
    ensures Joins(Reference(segments, elapsed, Some(initial), trig).value,
                  Curve(segments[i], elapsed - segments[i].place.time, initial, trig))
  {
    hide PlaceAt, Lookup, Curve, IsTrig;
    if elapsed < EndOf(segments[i]) {
      LookupInside(segments, legs, trig, i, elapsed);
    } else {
      LookupAtEnd(segments, legs, trig, i);
      assert elapsed - segments[i].place.time == DurationOf(legs[i]);
      if i + 1 < |legs| {
        BoundaryExactly(segments, legs, i, initial, trig);
      }
    }
  }

  // ---- the two profiles -------------------------------------------------------

  /** A leg that keeps its height. */
  predicate KeepsHeight(leg: Leg) {
    !leg.Takeoff? && !leg.Land?
  }

  /** One takeoff after a level start, level legs, then landing and the end. */
  predicate Regular(legs: seq<Leg>, takeoff: nat) {
    && takeoff < |legs| - 2 && AllWellFormed(legs)
    && legs[takeoff].Takeoff? && legs[|legs| - 2].Land? && legs[|legs| - 1].Done?
    && forall i :: 0 <= i < |legs| - 2 && i != takeoff ==> KeepsHeight(legs[i])
  }

  lemma {:induction false} HeightAt(legs: seq<Leg>, takeoff: nat, trig: Trig, i: nat)
    requires Regular(legs, takeoff) && i < |legs|
    ensures PlaceAt(legs[..i], trig).z == if i <= takeoff then 0.0 else -2.0
  {
    if i > 0 {
      HeightAt(legs, takeoff, trig, i - 1);
      NextPlace(legs, trig, i - 1);
      hide PlaceAt;
    }
  }

  /** Up to and including the start of the landing nothing jumps; from the landing to the end
      the reference jumps back up by two meters, because the height offset is kept. */
  lemma RegularProfileIsSmooth(segments: seq<Segment>, legs: seq<Leg>, takeoff: nat, trig: Trig, initial: Vec)
    requires Regular(legs, takeoff) && Placed(segments, legs, trig) && IsTrig(trig.cos, trig.sin)
    ensures forall i :: 0 <= i < |legs| - 2 ==>
              Joins(Curve(segments[i], DurationOf(legs[i]), initial, trig), Curve(segments[i + 1], 0.0, initial, trig))
    ensures var n := |legs| - 2;
            Curve(segments[n], DurationOf(legs[n]), initial, trig).p.z == initial.z &&
            Curve(segments[n + 1], 0.0, initial, trig).p.z == initial.z - 2.0
  {
    hide Curve, IsTrig, PlaceAt;
    var n := |legs| - 2;
    forall i | 0 <= i < n
      ensures Joins(Curve(segments[i], DurationOf(legs[i]), initial, trig), Curve(segments[i + 1], 0.0, initial, trig))
    {
      HeightAt(legs, takeoff, trig, i);
      HeightAt(legs, takeoff, trig, i + 1);
      BoundaryExactly(segments, legs, i, initial, trig);
    }
    HeightAt(legs, takeoff, trig, n + 1);
    EndsAtRest(segments[n], initial, trig);
    StartsAtRest(segments[n + 1], initial, trig);
  }

  const RAMP: real := 0.75
  const ANGLE: real := 0.5

  /** The steady time that makes an arc turn through the requested angle. */
  function SteadyTime(radius: real, speed: real): real
    requires speed != 0.0
  {
    var t := ANGLE * radius / speed - RAMP;
    if t > 0.0 then t else 0.0
  }

  /** An arc turns through the requested angle exactly when the ramps alone do not exceed it. */
  lemma ArcTurnsAsRequested(radius: real, speed: real)
    requires radius > 0.0 && speed > 0.0
    ensures FinalAngle(radius, speed, RAMP, SteadyTime(radius, speed)) == ANGLE <==> RAMP * speed <= ANGLE * radius
  {
    var q, f := ANGLE * radius / speed, FinalAngle(radius, speed, RAMP, SteadyTime(radius, speed));
    AngleScaled(radius, speed, RAMP + SteadyTime(radius, speed));
    assert Prod(q, speed) == ANGLE * radius;
    assert Prod(ANGLE, radius) == ANGLE * radius && Prod(RAMP, speed) == RAMP * speed;
    hide Prod, FinalAngle;
    var t := RAMP + SteadyTime(radius, speed);
    if RAMP * speed <= ANGLE * radius {
      ProdCancels(RAMP, q, speed);
      assert t == q;
      ProdCancels(f, ANGLE, radius);
      ProdCancels(ANGLE, f, radius);
    } else {
      if q >= RAMP { ProdMonotone(RAMP, q, speed); }
      assert t == RAMP;
    }
  }

  lemma AngleScaled(radius: real, speed: real, t: real)
    requires radius != 0.0
    ensures Prod(Prod(Div(speed, radius), t), radius) == Prod(t, speed)
  {
    assert speed / radius * radius == speed;
    assert (speed / radius * t) * radius == (speed / radius * radius) * t;
  }

  datatype Row = Row(a: real, b: real)

  /** Distances with durations, and radii with speeds. */
  const RUNS: seq<Row> := [Row(0.8, 8.0), Row(2.4, 8.0), Row(5.0, 6.0), Row(8.0, 5.0)]
  const TURNS: seq<Row> := [Row(5.0, 0.25), Row(5.0, 0.5), Row(5.0, 1.0), Row(5.0, 1.5)]

  predicate PositiveRows(rows: seq<Row>) {
    forall i :: 0 <= i < |rows| ==> rows[i].a > 0.0 && rows[i].b > 0.0
  }

  /** Every leg is well formed and keeps its height. */
  predicate Cruise(legs: seq<Leg>) {
    forall i :: 0 <= i < |legs| ==> WellFormed(legs[i]) && KeepsHeight(legs[i])
  }

  method CruiseLegs(longitudinal: bool, rows: seq<Row>) returns (legs: seq<Leg>)
    requires PositiveRows(rows)
    ensures |legs| == 2 * |rows| && Cruise(legs)
    ensures forall i :: 0 <= i < |rows| ==>
              legs[2 * i + 1] == Hold(2.0) &&
              legs[2 * i] == if longitudinal then Longitudinal(rows[i].a, rows[i].b)
                             else Arc(rows[i].a, rows[i].b, RAMP, SteadyTime(rows[i].a, rows[i].b))
  {
    legs := [];
    for n := 0 to |rows|
      invariant |legs| == 2 * n && Cruise(legs)
      invariant forall i :: 0 <= i < n ==>
                  legs[2 * i + 1] == Hold(2.0) &&
                  legs[2 * i] == if longitudinal then Longitudinal(rows[i].a, rows[i].b)
                                 else Arc(rows[i].a, rows[i].b, RAMP, SteadyTime(rows[i].a, rows[i].b))
    {
      var leg := if longitudinal then Longitudinal(rows[n].a, rows[n].b)
                 else Arc(rows[n].a, rows[n].b, RAMP, SteadyTime(rows[n].a, rows[n].b));
      legs := legs + [leg, Hold(2.0)];
    }
  }

  lemma FramedIsRegular(middle: seq<Leg>)
    requires Cruise(middle)
    ensures Regular([Hold(4.0), Takeoff(8.0), Hold(3.0)] + middle + [Hold(4.0), Land(8.0), Done(2.0)], 1)
  {
  }

  lemma TablesArePositive()
    ensures PositiveRows(RUNS) && PositiveRows(TURNS)
  {
  }

  /** The legs of a profile. */
  method ProfileLegs(longitudinal: bool) returns (legs: seq<Leg>)
    ensures Regular(legs, 1) && |legs| == 14
  {
    TablesArePositive();
    hide PositiveRows, Regular;
    var middle := CruiseLegs(longitudinal, if longitudinal then RUNS else TURNS);
    FramedIsRegular(middle);
    legs := [Hold(4.0), Takeoff(8.0), Hold(3.0)] + middle + [Hold(4.0), Land(8.0), Done(2.0)];
  }
}
