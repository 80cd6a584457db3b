/** Exactly when the reduction does not depend on the order of the recording. */
module LifecycleStability {
  import opened Values
  import opened LifecycleEvents
  import opened LifecycleOwners
  import opened LifecycleGroups
  import opened LifecycleVerdicts
  import opened LifecycleReduction
  import opened LifecycleOrder
  import opened LifecycleReadings
  import opened LifecycleArrangements

  /** The same recording in another order. */
  ghost predicate Reordered(events: seq<Event>, trace: seq<Event>, events': seq<Event>, trace': seq<Event>) {
    multiset(events) == multiset(events') && multiset(trace) == multiset(trace')
  }

  /** The annotated events, in no order. */
  ghost function Seen(events: seq<Event>, trace: seq<Event>): set<Event> {
    Elems(Annotated(events, trace))
  }

  /** Some event of the list is turned into this annotated event. */
  ghost predicate ShownBy(xs: seq<Event>, path: Path, all: set<Event>, e: Event) {
    exists x | x in xs :: Taken(path, x) && Final(all)(Turned(path, x)) == e
  }

  ghost function SourceOf(xs: seq<Event>, path: Path, all: set<Event>, e: Event): (x: Event)
    requires ShownBy(xs, path, all, e)
    ensures x in xs && Taken(path, x) && Final(all)(Turned(path, x)) == e
  {
    var x :| x in xs && Taken(path, x) && Final(all)(Turned(path, x)) == e; x
  }

  /** The event stands in the recording itself; the others are derived and come after. */
  ghost predicate Recorded(events: seq<Event>, trace: seq<Event>, e: Event) {
    ShownBy(events, AsItself, Normalized(events, trace), e)
  }

  /** A choice that some order of the recording makes: where a recorded event can fill a slot,
      a derived one cannot. */
  ghost predicate Possible(events: seq<Event>, trace: seq<Event>, k: TxKey, c: Choice) {
    && Reading(Seen(events, trace), k, c)
    && (forall slot, e | Chosen(c, slot).Some? && Recorded(events, trace, e) && Readable(Seen(events, trace), k, ExportGeneration(c.first), slot, e) ::
          Recorded(events, trace, Chosen(c, slot).value))
  }

  // ---- what no order changes --------------------------------------------------

  lemma SameSets(events: seq<Event>, trace: seq<Event>, events': seq<Event>, trace': seq<Event>)
    requires Reordered(events, trace, events', trace')
    ensures Normalized(events, trace) == Normalized(events', trace') && Seen(events, trace) == Seen(events', trace')
    ensures Elems(events) == Elems(events') && Elems(trace) == Elems(trace')
  {
    hide Elems, Normalize, AnnotateAll;
    PermutationHasSameElems(events, events');
    PermutationHasSameElems(trace, trace');
    NormalizeElems(events, events', trace, trace');
    OwnersIgnoreOrder(Normalize(events, trace), Normalize(events', trace'));
  }

  lemma ShownAlike(xs: seq<Event>, ys: seq<Event>, path: Path, all: set<Event>, e: Event)
    requires Elems(xs) == Elems(ys) && ShownBy(xs, path, all, e)
    ensures ShownBy(ys, path, all, e)
  {
    var x := SourceOf(xs, path, all, e);
    hide Taken, Turned, Final;
    assert x in Elems(ys);
  }

  lemma RecordedAlike(events: seq<Event>, trace: seq<Event>, events': seq<Event>, trace': seq<Event>, e: Event)
    requires Reordered(events, trace, events', trace')
    ensures Recorded(events, trace, e) <==> Recorded(events', trace', e)
  {
    hide ShownBy, Normalized, Seen, Elems;
    SameSets(events, trace, events', trace');
    var all := Normalized(events, trace);
    if Recorded(events, trace, e) { ShownAlike(events, events', AsItself, all, e); }
    if Recorded(events', trace', e) { ShownAlike(events', events, AsItself, all, e); }
  }

  lemma PossibleIgnoresOrder(events: seq<Event>, trace: seq<Event>, events': seq<Event>, trace': seq<Event>, k: TxKey, c: Choice)
    requires Reordered(events, trace, events', trace') && Possible(events, trace, k, c)
    ensures Possible(events', trace', k, c)
  {
    hide Recorded, Seen, Readable, Reading, Normalized, Reordered;
    SameSets(events, trace, events', trace');
    forall e ensures Recorded(events, trace, e) <==> Recorded(events', trace', e) {
      RecordedAlike(events, trace, events', trace', e);
    }
  }

  /** Every order makes a possible choice. */
  lemma OrderIsPossible(events: seq<Event>, trace: seq<Event>, k: TxKey)
    requires k in JoinAll(Annotated(events, trace)).txs
    ensures Possible(events, trace, k, ChoiceOf(Annotated(events, trace), k))
  {
    hide JoinAll, Annotated, FirstSuch, ReadableAt, Readable, Elems, Final, Normalized, ChoiceOf, Shows;
    var es, c := Annotated(events, trace), ChoiceOf(Annotated(events, trace), k);
    OrderIsReadOff(es, k);
    ReadOffIsReading(es, k, c);
    var all := Normalized(events, trace);
    forall slot, e | Chosen(c, slot).Some? && Recorded(events, trace, e) && Readable(Elems(es), k, ExportGeneration(c.first), slot, e)
      ensures Recorded(events, trace, Chosen(c, slot).value)
    {
      var p := ReadableAt(Elems(es), k, ExportGeneration(c.first), slot);
      var x := SourceOf(events, AsItself, all, e);
      ReadableIs(Elems(es), k, ExportGeneration(c.first), slot, e);
      ShowsIs(AsItself, all, p, x);
      FirstAnnotated(events, trace, p);
      var y := FirstSuch(events, Shows(AsItself, all, p));
      assert y.Some?;
      assert Chosen(c, slot) == FirstSuch(es, p);
    }
  }

  // ---- stages of derived events -----------------------------------------------

  lemma OwningKeepsPhase(e: Event)
    ensures Phase in OwnEmergency(e) <==> Phase in e
    ensures Phase in e ==> OwnEmergency(e)[Phase] == e[Phase]
  {
    hide StageOf, Get;
  }

  lemma FinalStage(e: Event, all: set<Event>)
    ensures StageOf(Final(all)(e)) == StageOf(e)
  {
    hide Annotate, OwnEmergency;
    AnnotationKeepsPhase(OwnEmergency(e), all);
    OwningKeepsPhase(e);
    PhaseFixesStage(Final(all)(e), e);
  }

  lemma TurnedStage(path: Path, x: Event)
    requires Taken(path, x)
    ensures StageOf(Turned(path, x)) == match path case AsItself => StageOf(x) case ByTrace => Publish case ByPlanner => PlannerEmergency case ByMonitor => Retained
    ensures path == ByPlanner || path == ByMonitor ==> StageOf(x) == Retained
  {
  }

  lemma ShownStage(path: Path, all: set<Event>, x: Event)
    requires Taken(path, x)
    ensures StageOf(Final(all)(Turned(path, x))) ==
            match path case AsItself => StageOf(x) case ByTrace => Publish case ByPlanner => PlannerEmergency case ByMonitor => Retained
    ensures path == ByPlanner || path == ByMonitor ==> StageOf(x) == Retained
  {
    hide Taken, Turned, Final, StageOf;
    TurnedStage(path, x);
    FinalStage(Turned(path, x), all);
  }

  function Exactly(e: Event): Event -> bool {
    (x: Event) => x == e
  }

  /** Every annotated event was recorded or is derived in one of the three ways. */
  lemma Origin(events: seq<Event>, trace: seq<Event>, e: Event)
    requires e in Seen(events, trace)
    ensures var all := Normalized(events, trace);
            || ShownBy(events, AsItself, all, e) || ShownBy(trace, ByTrace, all, e)
            || ShownBy(events, ByPlanner, all, e) || ShownBy(events, ByMonitor, all, e)
  {
    hide Annotated, Normalized, FirstSuch, Final, Taken, Turned, Shows;
    var all, p := Normalized(events, trace), Exactly(e);
    FirstAnnotated(events, trace, p);
    assert p(e);
    ShownOf(events, AsItself, all, e);
    ShownOf(trace, ByTrace, all, e);
    ShownOf(events, ByPlanner, all, e);
    ShownOf(events, ByMonitor, all, e);
  }

  lemma ShownOf(xs: seq<Event>, path: Path, all: set<Event>, e: Event)
    ensures FirstShown(xs, path, all, Exactly(e)).Some? ==> ShownBy(xs, path, all, e)
  {
    hide FirstSuch, Final, Taken, Turned, Shows;
    var x := FirstSuch(xs, Shows(path, all, Exactly(e)));
    if x.Some? { ShowsIs(path, all, Exactly(e), x.value); }
  }

  // ---- every possible choice comes from an order ------------------------------

  /** A slot for which the source of an event is to be brought first. */
  datatype Goal = Goal(path: Path, slot: Slot)

  ghost function Wish(all: set<Event>, seen: set<Event>, k: TxKey, generation: Value): Goal -> Event -> bool {
    (g: Goal) => Shows(g.path, all, ReadableAt(seen, k, generation, g.slot))
  }

  lemma WishIs(all: set<Event>, seen: set<Event>, k: TxKey, generation: Value, g: Goal, x: Event)
    ensures Wish(all, seen, k, generation)(g)(x) <==>
            Taken(g.path, x) && Readable(seen, k, generation, g.slot, Final(all)(Turned(g.path, x)))
    ensures Wish(all, seen, k, generation)(g)(x) ==> StageOf(Final(all)(Turned(g.path, x))) == SlotStage(g.slot)
  {
    hide Taken, Turned, Final, Readable, ReadableAt, Shows;
    ShowsIs(g.path, all, ReadableAt(seen, k, generation, g.slot), x);
    ReadableIs(seen, k, generation, g.slot, Final(all)(Turned(g.path, x)));
  }

  /** A transaction whose cycle is unknown. */
  predicate Ownerless(k: TxKey) {
    k.cycle == Declared(Null)
  }

  /** A commit stands in one transaction with the planner outcome derived from it only if the
      cycle is unknown. */
  lemma CommitStandsApart(x: Event, all: set<Event>, k: TxKey)
    requires EmergencyByPlanner(x) && KeyOf(Final(all)(x)) == k && KeyOf(Final(all)(AsPlannerEmergency(x))) == k
    ensures Ownerless(k)
  {
    CommitCycle(x, all);
    PlannerCycle(x, all);
    hide Final, CycleOf, AsPlannerEmergency;
  }

  lemma CommitReads(x: Event)
    requires EmergencyByPlanner(x)
    ensures var y := OwnEmergency(x); StageOf(y) == Retained && Is(y, Purpose, 0) && Get(y, BundleOwnerCycleId) == Null
  {
  }

  lemma RetainedCycle(y: Event)
    requires StageOf(y) == Retained && Is(y, Purpose, 0) && Get(y, BundleOwnerCycleId) == Null
    ensures CycleOf(y) == Declared(Null) || CycleOf(y).CandidateSource?
  {
    hide StageOf, Get, Integer;
  }

  lemma UnresolvableStays(y: Event, all: set<Event>)
    requires StageOf(y) == Retained || StageOf(y) == PlannerEmergency
    ensures Annotate(y, all) == y
  {
    hide StageOf;
  }

  lemma CommitCycle(x: Event, all: set<Event>)
    requires EmergencyByPlanner(x)
    ensures var c := CycleOf(Final(all)(x)); c == Declared(Null) || c.CandidateSource?
  {
    hide StageOf, OwnEmergency, Annotate, CycleOf, Is, Get, EmergencyByPlanner;
    CommitReads(x);
    UnresolvableStays(OwnEmergency(x), all);
    RetainedCycle(OwnEmergency(x));
  }

  lemma OutcomeReads(x: Event)
    ensures var y := AsPlannerEmergency(x); StageOf(y) == PlannerEmergency && OwnEmergency(y) == y && Get(y, BundleSource) == Null
  {
  }

  lemma PlannerCycle(x: Event, all: set<Event>)
    ensures CycleOf(Final(all)(AsPlannerEmergency(x))).Declared?
  {
    hide StageOf, OwnEmergency, Annotate, AsPlannerEmergency, Get;
    OutcomeReads(x);
    UnresolvableStays(AsPlannerEmergency(x), all);
  }

  /** A list to be arranged for a choice: the recorded events or the adapter trace, and the
      paths from it to annotated events. */
  datatype Plan = Plan(recorded: seq<Event>, list: seq<Event>, paths: set<Path>, all: set<Event>, seen: set<Event>, k: TxKey, c: Choice)

  ghost function Wishes(m: Plan): Goal -> Event -> bool {
    Wish(m.all, m.seen, m.k, ExportGeneration(m.c.first))
  }

  /** Either list is arranged by itself. */
  predicate OneList(m: Plan) {
    (m.paths == {AsItself, ByPlanner, ByMonitor} && m.list == m.recorded) || m.paths == {ByTrace}
  }

  /** The source is to be brought first: the event itself, or, failing any recorded event, the
      one from which it is derived. */
  ghost predicate Aimed(m: Plan, g: Goal) {
    && Chosen(m.c, g.slot).Some? && ShownBy(m.list, g.path, m.all, Chosen(m.c, g.slot).value)
    && (g.path != AsItself ==> !ShownBy(m.recorded, AsItself, m.all, Chosen(m.c, g.slot).value))
    && g.path in m.paths && (g.path == ByPlanner ==> !Ownerless(m.k))
  }

  ghost function Target(m: Plan, g: Goal): (x: Event)
    requires Aimed(m, g)
    ensures x in m.list && Taken(g.path, x) && Chosen(m.c, g.slot) == Some(Final(m.all)(Turned(g.path, x)))
  {
    SourceOf(m.list, g.path, m.all, Chosen(m.c, g.slot).value)
  }

  /** The order in which goals are reached: commits, events to be kept, leaders. */
  function Rank(g: Goal): int {
    if g.path == ByPlanner || g.path == ByMonitor then 0 else if g.slot.Keeps? then 1 else 2
  }

  ghost function Slots(c: Choice): set<Slot> {
    (set st | st in c.first.Keys :: Leads(st)) + (set id | id in c.kept.Keys :: Keeps(id))
  }

  ghost function Goals(m: Plan, top: int): set<Goal> {
    set path, slot | path in m.paths && slot in Slots(m.c) && Aimed(m, Goal(path, slot)) && Rank(Goal(path, slot)) <= top :: Goal(path, slot)
  }

  lemma GoalsAre(m: Plan, top: int, g: Goal)
    ensures g in Goals(m, top) <==> Aimed(m, g) && Rank(g) <= top
  {
    hide ShownBy;
    assert g == Goal(g.path, g.slot);
    assert Chosen(m.c, g.slot).Some? ==> g.slot in Slots(m.c);
  }

  ghost function Wanted(m: Plan, top: int): map<Goal, Event> {
    map g | g in Goals(m, top) && Aimed(m, g) :: Target(m, g)
  }

  lemma WantedIs(m: Plan, top: int, g: Goal)
    ensures g in Wanted(m, top) <==> Aimed(m, g) && Rank(g) <= top
    ensures g in Wanted(m, top) ==> Wanted(m, top)[g] == Target(m, g)
  {
    hide Aimed, Goals, Target;
    GoalsAre(m, top, g);
  }

  lemma AimedIs(m: Plan, g: Goal)
    requires Aimed(m, g)
    ensures g.path in m.paths && Chosen(m.c, g.slot).Some?
    ensures g.path == AsItself <==> g.path == AsItself && ShownBy(m.list, AsItself, m.all, Chosen(m.c, g.slot).value)
    ensures g.path != AsItself ==> !ShownBy(m.recorded, AsItself, m.all, Chosen(m.c, g.slot).value)
    ensures g.path == ByPlanner ==> !Ownerless(m.k)
  {
    hide ShownBy;
  }

  /** What a target shows, and at which stage. */
  lemma AimedStage(m: Plan, g: Goal)
    requires Reading(m.seen, m.k, m.c) && Aimed(m, g)
    ensures var e := Chosen(m.c, g.slot);
            && e.Some? && Wishes(m)(g)(Target(m, g)) && StageOf(e.value) == SlotStage(g.slot)
            && Readable(m.seen, m.k, ExportGeneration(m.c.first), g.slot, e.value)
            && (g.path == ByPlanner ==> SlotStage(g.slot) == PlannerEmergency) && (g.path == ByMonitor ==> SlotStage(g.slot) == Retained)
  {
    hide Taken, Turned, Final, Readable, Wish, StageOf, SlotStage, Target, ShownBy;
    var x := Target(m, g);
    WishIs(m.all, m.seen, m.k, ExportGeneration(m.c.first), g, x);
    ShownStage(g.path, m.all, x);
  }

  lemma KeepsCounts(all: set<Event>, k: TxKey, generation: Value, id: EventId, e: Event)
    requires Readable(all, k, generation, Keeps(id), e)
    ensures CountsAll(id.stage) && IdOf(e) == id && StageOf(e) == id.stage
  {
    hide HasId, StageOf, IdOf;
    HasIdIs(k, id, e);
  }

  lemma Coheres(all: set<Event>, k: TxKey, c: Choice, st: Stage)
    requires Reading(all, k, c) && CountsAll(st) && st in c.first
    ensures Chosen(c, Keeps(IdOf(c.first[st]))) == Some(c.first[st])
  {
    hide Readable, IdOf;
  }

  /** Two wishes for one event along one path. */
  lemma SameWish(m: Plan, g: Goal, h: Goal)
    requires Reading(m.seen, m.k, m.c) && Aimed(m, g) && Aimed(m, h) && g.path == h.path && Rank(g) <= Rank(h)
    requires Chosen(m.c, h.slot).Some? && Readable(m.seen, m.k, ExportGeneration(m.c.first), g.slot, Chosen(m.c, h.slot).value)
    requires SlotStage(g.slot) == SlotStage(h.slot)
    ensures Chosen(m.c, g.slot) == Chosen(m.c, h.slot)
  {
    hide IdOf, StageOf, Reading, Readable, Aimed, Target, Wish, Wishes, ShownBy;
    AimedStage(m, h);
    var e, generation := Chosen(m.c, h.slot).value, ExportGeneration(m.c.first);
    if h.slot.Keeps? { KeepsCounts(m.seen, m.k, generation, h.slot.id, e); }
    if g.slot.Keeps? {
      KeepsCounts(m.seen, m.k, generation, g.slot.id, e);
      if h.slot.Leads? { Coheres(m.seen, m.k, m.c, h.slot.stage); }
    }
  }

  /** A wish along one path for an event brought first along another. */
  lemma OtherWish(m: Plan, g: Goal, h: Goal)
    requires OneList(m) && Reading(m.seen, m.k, m.c) && Aimed(m, g) && Aimed(m, h) && Rank(g) <= Rank(h)
    requires Wishes(m)(g)(Target(m, h))
    ensures g.path == h.path
  {
    hide Taken, Turned, Final, Readable, Wish, StageOf, ShownBy, Target, Aimed, SlotStage;
    AimedIs(m, g);
    AimedIs(m, h);
    AimedStage(m, g);
    AimedStage(m, h);
    var x, generation := Target(m, h), ExportGeneration(m.c.first);
    WishIs(m.all, m.seen, m.k, generation, g, x);
    ShownStage(g.path, m.all, x);
    ShownStage(h.path, m.all, x);
    if g.path != h.path {
      PathsDiffer(g.path, h.path, x);
      assert h.path == AsItself;
      LeadsRetained(m, h);
      if g.path == ByMonitor {
        LeadsRetained(m, g);
      } else {
        LeadsPlanner(m, g);
        CommitMeets(x, m.all, m.seen, m.k, generation);
      }
    }
  }

  lemma LeadsRetained(m: Plan, g: Goal)
    requires Reading(m.seen, m.k, m.c) && Aimed(m, g) && SlotStage(g.slot) == Retained
    ensures g.slot == Leads(Retained)
  {
    hide ShownBy, StageOf, Readable;
    AimedStage(m, g);
    if g.slot.Keeps? { KeepsCounts(m.seen, m.k, ExportGeneration(m.c.first), g.slot.id, Chosen(m.c, g.slot).value); }
  }

  lemma LeadsPlanner(m: Plan, g: Goal)
    requires Reading(m.seen, m.k, m.c) && Aimed(m, g) && SlotStage(g.slot) == PlannerEmergency
    ensures g.slot == Leads(PlannerEmergency)
  {
    hide ShownBy, StageOf, Readable;
    AimedStage(m, g);
    if g.slot.Keeps? { KeepsCounts(m.seen, m.k, ExportGeneration(m.c.first), g.slot.id, Chosen(m.c, g.slot).value); }
  }

  /** Bringing the source of a later goal first does not disturb an earlier one. */
  lemma GoalsCompatible(m: Plan, g: Goal, h: Goal)
    requires OneList(m) && Reading(m.seen, m.k, m.c) && Aimed(m, g) && Aimed(m, h) && Rank(g) <= Rank(h)
    requires Wishes(m)(g)(Target(m, h))
    ensures Target(m, g) == Target(m, h)
  {
    hide Taken, Turned, Final, Readable, Wish, StageOf, ShownBy, Target, Aimed, SlotStage;
    OtherWish(m, g, h);
    AimedStage(m, h);
    WishIs(m.all, m.seen, m.k, ExportGeneration(m.c.first), g, Target(m, h));
    SameWish(m, g, h);
    SameTarget(m, g, h);
  }

  lemma SameTarget(m: Plan, g: Goal, h: Goal)
    requires Aimed(m, g) && Aimed(m, h) && g.path == h.path && Chosen(m.c, g.slot) == Chosen(m.c, h.slot)
    ensures Target(m, g) == Target(m, h)
  {
    hide ShownBy, SourceOf;
  }

  lemma PathsDiffer(a: Path, b: Path, x: Event)
    requires Taken(a, x) && Taken(b, x) && a != b && a != ByTrace && b != ByTrace
    ensures a == AsItself || b == AsItself
  {
    hide StageOf, Has;
  }

  lemma CommitMeets(x: Event, all: set<Event>, seen: set<Event>, k: TxKey, generation: Value)
    requires Taken(ByPlanner, x)
    requires Readable(seen, k, generation, Leads(Retained), Final(all)(Turned(AsItself, x)))
    requires Readable(seen, k, generation, Leads(PlannerEmergency), Final(all)(Turned(ByPlanner, x)))
    ensures Ownerless(k)
  {
    hide Final, EmergencyByPlanner, AsPlannerEmergency, KeyOf, StageOf, Grouped;
    CommitStandsApart(x, all, k);
  }

  lemma WantedReady(m: Plan, top: int)
    requires Reading(m.seen, m.k, m.c)
    ensures forall g | g in Wanted(m, top) :: Wanted(m, top)[g] in m.list && Wishes(m)(g)(Wanted(m, top)[g])
  {
    hide Wish, Reading, Aimed, Target, Wanted;
    forall g | g in Wanted(m, top) ensures Wanted(m, top)[g] in m.list && Wishes(m)(g)(Wanted(m, top)[g]) {
      WantedIs(m, top, g);
      AimedStage(m, g);
    }
  }

  lemma WantedCompatible(m: Plan, top: int, todo: set<Goal>)
    requires OneList(m) && Reading(m.seen, m.k, m.c) && forall h | h in todo :: Rank(h) == top
    ensures Compatible(Wanted(m, top), Wishes(m), todo)
  {
    hide Wish, Reading, Aimed, Target, Wanted, OneList, Rank;
    var want, p := Wanted(m, top), Wishes(m);
    forall g, h | g in want && h in todo && h in want && p(g)(want[h]) ensures want[h] == want[g] {
      WantedIs(m, top, g);
      WantedIs(m, top, h);
      GoalsCompatible(m, g, h);
    }
  }

  lemma WantedBefore(m: Plan, top: int, g: Goal)
    requires g in Wanted(m, top) && Rank(g) != top
    ensures g in Wanted(m, top - 1) && Wanted(m, top - 1)[g] == Wanted(m, top)[g] && top > 0
  {
    hide Aimed, Target, Wanted;
    WantedIs(m, top, g);
    WantedIs(m, top - 1, g);
    RankBound(g);
  }

  /** The list in an order that reaches all goals up to a rank. */
  lemma {:induction false} ArrangeUpTo(m: Plan, top: int) returns (out: seq<Event>)
    requires OneList(m) && Reading(m.seen, m.k, m.c) && -1 <= top
    ensures multiset(out) == multiset(m.list) && Arranged(out, Wanted(m, top), Wishes(m), {})
    decreases top
  {
    hide Wishes, FirstSuch, Reading, Wanted, OneList, Compatible, Rank;
    var want, p := Wanted(m, top), Wishes(m);
    out := m.list;
    if top >= 0 { out := ArrangeUpTo(m, top - 1); }
    var todo := set g | g in want && Rank(g) == top;
    WantedReady(m, top);
    WantedCompatible(m, top, todo);
    forall g | g in want ensures want[g] in out {
      assert want[g] in multiset(m.list);
    }
    forall g | g in want && g !in todo ensures FirstSuch(out, p(g)) == Some(want[g]) {
      WantedBefore(m, top, g);
    }
    out := Arrange(out, want, p, todo);
  }

  lemma RankBound(g: Goal)
    ensures 0 <= Rank(g) <= 2
  {
  }

  function StageAlong(path: Path): Option<Stage> {
    match path
    case AsItself => None
    case ByTrace => Some(Publish)
    case ByPlanner => Some(PlannerEmergency)
    case ByMonitor => Some(Retained)
  }

  /** Nothing is derived along this path for another stage. */
  lemma OtherStage(xs: seq<Event>, path: Path, all: set<Event>, seen: set<Event>, k: TxKey, generation: Value, slot: Slot)
    requires path != AsItself && StageAlong(path) != Some(SlotStage(slot))
    ensures FirstShown(xs, path, all, ReadableAt(seen, k, generation, slot)).None?
  {
    hide Final, Taken, Turned, Shows, ReadableAt, Readable, StageOf, SlotStage;
    var p := ReadableAt(seen, k, generation, slot);
    forall x | x in xs ensures !Shows(path, all, p)(x) {
      ShowsIs(path, all, p, x);
      if Shows(path, all, p)(x) {
        ShownStage(path, all, x);
        ReadableIs(seen, k, generation, slot, Final(all)(Turned(path, x)));
      }
    }
    NoneSuch(xs, Shows(path, all, p));
  }

  /** No recorded event can fill the slot when a derived one does. */
  lemma NoRecorded(events: seq<Event>, trace: seq<Event>, xs: seq<Event>, k: TxKey, c: Choice, slot: Slot)
    requires Possible(events, trace, k, c) && Chosen(c, slot).Some? && !Recorded(events, trace, Chosen(c, slot).value) && Elems(xs) == Elems(events)
    ensures FirstShown(xs, AsItself, Normalized(events, trace), ReadableAt(Seen(events, trace), k, ExportGeneration(c.first), slot)).None?
  {
    hide Final, Taken, Turned, Shows, ReadableAt, Readable, Elems, Normalized, Seen, Reading;
    var all, seen := Normalized(events, trace), Seen(events, trace);
    var p := ReadableAt(seen, k, ExportGeneration(c.first), slot);
    forall x | x in xs ensures !Shows(AsItself, all, p)(x) {
      ShowsIs(AsItself, all, p, x);
      ReadableIs(seen, k, ExportGeneration(c.first), slot, Final(all)(Turned(AsItself, x)));
      if Shows(AsItself, all, p)(x) {
        assert ShownBy(xs, AsItself, all, Final(all)(Turned(AsItself, x)));
        ShownAlike(xs, events, AsItself, all, Final(all)(Turned(AsItself, x)));
      }
    }
    NoneSuch(xs, Shows(AsItself, all, p));
  }

  /** A target shows the chosen event first. */
  lemma GoalReached(m: Plan, out: seq<Event>, g: Goal)
    requires Aimed(m, g) && Arranged(out, Wanted(m, 2), Wishes(m), {})
    ensures FirstShown(out, g.path, m.all, ReadableAt(m.seen, m.k, ExportGeneration(m.c.first), g.slot)) == Chosen(m.c, g.slot)
  {
    hide Final, Taken, Turned, Shows, ReadableAt, FirstSuch, Aimed, Wanted, ShownBy, SourceOf;
    RankBound(g);
    WantedIs(m, 2, g);
    assert FirstSuch(out, Shows(g.path, m.all, ReadableAt(m.seen, m.k, ExportGeneration(m.c.first), g.slot))) == Some(Target(m, g));
  }

  lemma NothingReadable(es: seq<Event>, all: set<Event>, k: TxKey, c: Choice, slot: Slot)
    requires Elems(es) == all && Reading(all, k, c) && Chosen(c, slot).None?
    ensures FirstSuch(es, ReadableAt(all, k, ExportGeneration(c.first), slot)).None?
  {
    hide ReadableAt, Readable, IdOf;
    var p := ReadableAt(all, k, ExportGeneration(c.first), slot);
    if FirstSuch(es, p).Some? {
      ReadableIs(all, k, ExportGeneration(c.first), slot, FirstSuch(es, p).value);
    }
  }

  ghost function EventPlan(events: seq<Event>, trace: seq<Event>, k: TxKey, c: Choice): Plan {
    Plan(events, events, {AsItself, ByPlanner, ByMonitor}, Normalized(events, trace), Seen(events, trace), k, c)
  }

  ghost function TracePlan(events: seq<Event>, trace: seq<Event>, k: TxKey, c: Choice): Plan {
    Plan(events, trace, {ByTrace}, Normalized(events, trace), Seen(events, trace), k, c)
  }

  /** The planner outcome of a transaction of unknown cycle. */
  predicate Unread(k: TxKey, slot: Slot) {
    slot == Leads(PlannerEmergency) && Ownerless(k)
  }

  lemma DerivedAim(events: seq<Event>, trace: seq<Event>, k: TxKey, c: Choice, slot: Slot)
    requires Possible(events, trace, k, c) && Chosen(c, slot).Some? && !Recorded(events, trace, Chosen(c, slot).value) && !Unread(k, slot)
    ensures || (SlotStage(slot) == Publish && Aimed(TracePlan(events, trace, k, c), Goal(ByTrace, slot)))
            || (SlotStage(slot) == PlannerEmergency && Aimed(EventPlan(events, trace, k, c), Goal(ByPlanner, slot)))
            || (SlotStage(slot) == Retained && Aimed(EventPlan(events, trace, k, c), Goal(ByMonitor, slot)))
  {
    hide Seen, Normalized, ShownBy, StageOf, Readable, IdOf, ReadableAt;
    var e, seen, generation := Chosen(c, slot).value, Seen(events, trace), ExportGeneration(c.first);
    assert e in seen && Readable(seen, k, generation, slot, e);
    ReadableIs(seen, k, generation, slot, e);
    DerivedAt(events, trace, e);
    if slot.Keeps? { KeepsCounts(seen, k, generation, slot.id, e); }
  }

  /** The lists, so arranged, put the chosen event of a slot first. */
  lemma SlotRealized(events: seq<Event>, trace: seq<Event>, events': seq<Event>, trace': seq<Event>, k: TxKey, c: Choice, slot: Slot)
    requires Possible(events, trace, k, c) && Reordered(events, trace, events', trace') && Chosen(c, slot).Some? && !Unread(k, slot)
    requires Arranged(events', Wanted(EventPlan(events, trace, k, c), 2), Wishes(EventPlan(events, trace, k, c)), {})
    requires Arranged(trace', Wanted(TracePlan(events, trace, k, c), 2), Wishes(TracePlan(events, trace, k, c)), {})
    ensures FirstSuch(Annotated(events', trace'), ReadableAt(Seen(events, trace), k, ExportGeneration(c.first), slot)) == Chosen(c, slot)
  {
    hide FirstSuch, Annotated, ReadableAt, Seen, Normalized, Wishes, Arranged, Wanted, ShownBy, FirstShown, Readable, Reading, StageOf, Elems, SlotStage;
    var all, seen, generation := Normalized(events, trace), Seen(events, trace), ExportGeneration(c.first);
    SameSets(events, trace, events', trace');
    FirstAnnotated(events', trace', ReadableAt(seen, k, generation, slot));
    if Recorded(events, trace, Chosen(c, slot).value) {
      GoalReached(EventPlan(events, trace, k, c), events', Goal(AsItself, slot));
    } else {
      NoRecorded(events, trace, events', k, c, slot);
      DerivedAim(events, trace, k, c, slot);
      if SlotStage(slot) == Publish {
        GoalReached(TracePlan(events, trace, k, c), trace', Goal(ByTrace, slot));
      } else {
        OtherStage(trace', ByTrace, all, seen, k, generation, slot);
        if SlotStage(slot) == PlannerEmergency {
          GoalReached(EventPlan(events, trace, k, c), events', Goal(ByPlanner, slot));
        } else {
          OtherStage(events', ByPlanner, all, seen, k, generation, slot);
          GoalReached(EventPlan(events, trace, k, c), events', Goal(ByMonitor, slot));
        }
      }
    }
  }

  lemma DerivedAt(events: seq<Event>, trace: seq<Event>, e: Event)
    requires e in Seen(events, trace) && !Recorded(events, trace, e)
    ensures var all := Normalized(events, trace);
            || (StageOf(e) == Publish && ShownBy(trace, ByTrace, all, e))
            || (StageOf(e) == PlannerEmergency && ShownBy(events, ByPlanner, all, e))
            || (StageOf(e) == Retained && ShownBy(events, ByMonitor, all, e))
  {
    hide Seen, Normalized, Final, Turned, Taken, StageOf, ShownBy;
    var all := Normalized(events, trace);
    Origin(events, trace, e);
    if ShownBy(trace, ByTrace, all, e) {
      ShownStage(ByTrace, all, SourceOf(trace, ByTrace, all, e));
    } else if ShownBy(events, ByPlanner, all, e) {
      ShownStage(ByPlanner, all, SourceOf(events, ByPlanner, all, e));
    } else {
      ShownStage(ByMonitor, all, SourceOf(events, ByMonitor, all, e));
    }
  }

  /** Some order of the recording makes a possible choice, up to the planner outcome of a
      transaction of unknown cycle, which no verdict looks at. */
  lemma Realize(events: seq<Event>, trace: seq<Event>, k: TxKey, c: Choice) returns (events': seq<Event>, trace': seq<Event>)
    requires Possible(events, trace, k, c)
    ensures Reordered(events, trace, events', trace')
    ensures forall slot | !Unread(k, slot) ::
              Chosen(c, slot) == FirstSuch(Annotated(events', trace'), ReadableAt(Seen(events, trace), k, ExportGeneration(c.first), slot))
  {
    hide FirstSuch, Annotated, ReadableAt, Normalized, Wishes, Arranged, Wanted, Elems, Recorded, Reading;
    var seen := Seen(events, trace);
    events' := ArrangeUpTo(EventPlan(events, trace, k, c), 2);
    trace' := ArrangeUpTo(TracePlan(events, trace, k, c), 2);
    SameSets(events, trace, events', trace');
    forall slot | !Unread(k, slot) ensures Chosen(c, slot) == FirstSuch(Annotated(events', trace'), ReadableAt(seen, k, ExportGeneration(c.first), slot)) {
      if Chosen(c, slot).None? {
        NothingReadable(Annotated(events', trace'), seen, k, c, slot);
      } else {
        SlotRealized(events, trace, events', trace', k, c, slot);
      }
    }
  }

  /** The choices differ in the planner outcome only. */
  ghost predicate SameButPlanner(r: map<Stage, Event>, q: map<Stage, Event>) {
    forall st | st != PlannerEmergency :: (st in r <==> st in q) && (st in r ==> r[st] == q[st])
  }

  lemma PlannerNotRequired(k: TxKey, t: Tx, r: map<Stage, Event>, q: map<Stage, Event>)
    requires SameButPlanner(r, q) && KindOf(k.cycle) == PlanningCycle
    ensures CommandReasons(k, t, r) == CommandReasons(k, t, q)
  {
    hide LineageReasons, BundleGenerations, AllAt, MissingStages, FailedStages, Has, PublishProblems, EmergencyCommit, HeadingOrigin;
    StagesAlike(r, q, RequiredStages(PlanningCycle));
  }

  lemma PlannerNotRead(k: TxKey, t: Tx, r: map<Stage, Event>, q: map<Stage, Event>, reasons: seq<Reason>)
    requires SameButPlanner(r, q) && KindOf(k.cycle) == PlanningCycle && reasons != []
    ensures ClassifyCommand(k, t, r, reasons) == ClassifyCommand(k, t, q, reasons)
  {
    hide SupersessionProved, EmergencyProved, RetryEnding, RetainedEnding, DispositionOf, TerminalReject, CommandReasons, WithLineage, AllAt, KindOf;
    PlannerNotRequired(k, t, r, q);
  }

  lemma NotValidForAReason(k: TxKey, t: Tx, first: map<Stage, Event>, reasons: seq<Reason>)
    requires reasons != []
    ensures !ClassifyCommand(k, t, first, reasons).status.Valid?
  {
    hide SupersessionProved, EmergencyProved, RetryEnding, RetainedEnding, DispositionOf, TerminalReject, CommandReasons, WithLineage, AllAt;
  }

  /** The verdict on a transaction of unknown cycle never looks at the planner outcome. */
  lemma OwnerlessIgnoresPlanner(k: TxKey, t: Tx, r: Choice, q: Choice)
    requires Ownerless(k) && SameButPlanner(r.first, q.first)
    ensures JudgedBy(k, t, r) == JudgedBy(k, t, q)
  {
    hide ClassifyCommand, KeptAt, OwnedBy, AuthorizedBy;
    assert !IdentityComplete(k);
    var reasons := t.reasons + When(!IdentityComplete(k), IdentityMissing);
    assert reasons != [];
    PlannerNotRead(k, t, r.first, q.first, reasons);
    NotValidForAReason(k, t, r.first, reasons);
  }

  lemma {:induction false} StagesAlike(r: map<Stage, Event>, q: map<Stage, Event>, required: seq<Stage>)
    requires SameButPlanner(r, q) && PlannerEmergency !in required
    ensures MissingStages(r, required) == MissingStages(q, required) && FailedStages(r, required) == FailedStages(q, required)
  {
    hide DispositionOf, Successful;
    if required != [] {
      StagesAlike(r, q, required[1..]);
    }
  }

  // ---- the whole reduction ----------------------------------------------------

  /** Reductions that agree in everything but the order of reasons and publications: in status,
      reasons, the three sets of references and the verdict on each transaction. */
  ghost predicate SameReduction(a: Reduction, b: Reduction) {
    && a.status == b.status && a.reasons == b.reasons
    && a.references == b.references && a.owned == b.owned && a.authorized == b.authorized
    && a.verdicts.Keys == b.verdicts.Keys
    && (forall k | k in a.verdicts && k in b.verdicts :: SameVerdict(a.verdicts[k], b.verdicts[k]))
  }

  lemma StatusAgrees(c: nat, d: nat, critical: bool, v: map<TxKey, Verdict>, w: map<TxKey, Verdict>)
    requires v.Keys == w.Keys && (forall k | k in v && k in w :: SameVerdict(v[k], w[k])) && (c > 0 <==> d > 0)
    ensures OverallStatus(c, critical, v) == OverallStatus(d, critical, w)
  {
    hide Samples;
    forall k | k in v ensures k in w && v[k].status == w[k].status {
      assert k in v.Keys;
    }
    forall k | k in w ensures k in v && v[k].status == w[k].status {
      assert k in w.Keys;
    }
  }

  lemma {:induction false} UnboundExactly(es: seq<Event>)
    ensures CriticalUnbound(JoinAll(es)) <==> exists e | e in es :: StageOf(e) == Activate && UnownedActivation(e)
  {
    if es != [] {
      var n := |es| - 1;
      UnboundExactly(es[..n]);
      JoinUnbound(JoinAll(es[..n]), es[n]);
      hide Join, UnownedActivation, StageOf;
      assert es == es[..n] + [es[n]];
    }
  }

  lemma JoinUnbound(g: Groups, e: Event)
    ensures CriticalUnbound(Join(g, e)) <==> CriticalUnbound(g) || (StageOf(e) == Activate && UnownedActivation(e))
  {
    hide KeyOf, CycleOf, CyclePresent, Joined, IdOf, Signature;
  }

  lemma UnboundAgrees(a: seq<Event>, b: seq<Event>)
    requires Elems(a) == Elems(b)
    ensures CriticalUnbound(JoinAll(a)) <==> CriticalUnbound(JoinAll(b))
  {
    UnboundExactly(a);
    UnboundExactly(b);
    hide JoinAll, UnownedActivation, StageOf, CriticalUnbound;
    assert forall e :: e in a <==> e in Elems(a);
    assert forall e :: e in b <==> e in Elems(b);
  }

  lemma ReasonSetsAgree(g: Groups, h: Groups, v: map<TxKey, Verdict>, w: map<TxKey, Verdict>)
    requires v.Keys == w.Keys && (forall k | k in v && k in w :: SameVerdict(v[k], w[k]))
    requires (g.conflicts > 0 <==> h.conflicts > 0) && (CriticalUnbound(g) <==> CriticalUnbound(h))
    ensures OverallReasons(g, v) <= OverallReasons(h, w)
  {
    hide Samples, CriticalUnbound;
    forall r | r in OverallReasons(g, v) ensures r in OverallReasons(h, w) {
      if k :| k in v && r in v[k].reasons {
        assert k in w.Keys;
      }
    }
  }

  lemma ClaimsAgree(v: map<TxKey, Verdict>, w: map<TxKey, Verdict>)
    requires v.Keys == w.Keys && (forall k | k in v && k in w :: SameVerdict(v[k], w[k]))
    ensures OwnedAmong(v) == OwnedAmong(w) && AuthorizedAmong(v) == AuthorizedAmong(w)
  {
    hide SameCore;
    forall k | k in v ensures k in w && v[k].owned == w[k].owned && v[k].authorized == w[k].authorized { assert k in v.Keys; }
    forall k | k in w ensures k in v { assert k in w.Keys; }
  }

  lemma KeyReferencesAgree(a: seq<Event>, b: seq<Event>, k: TxKey)
    requires Elems(a) == Elems(b) && k in JoinAll(a).txs && k in JoinAll(b).txs && SameVerdict(Verdicts(a)[k], Verdicts(b)[k])
    ensures ReferencesOf(k, JoinAll(a).txs[k], Verdicts(a)[k]) <= ReferencesOf(k, JoinAll(b).txs[k], Verdicts(b)[k])
  {
    hide JoinAll, Elems, Classify, ReferencesOf, SameVerdict, SameEvidence, Shaped, Sound, Exhaustive, Remembered, Keys, Activations;
    EvidenceIgnoresOrder(a, b, k);
    JoinAllCollects(a);
    JoinAllCollects(b);
    ReferencesFollow(k, JoinAll(a).txs[k], JoinAll(b).txs[k], Activations(a), Activations(b));
  }

  lemma ReferencesAgree(a: seq<Event>, b: seq<Event>)
    requires Elems(a) == Elems(b) && JoinAll(a).txs.Keys == JoinAll(b).txs.Keys
    requires forall k | k in JoinAll(a).txs && k in JoinAll(b).txs :: SameVerdict(Verdicts(a)[k], Verdicts(b)[k])
    ensures References(a) <= References(b)
  {
    hide JoinAll, Elems, Classify, ReferencesOf, SameVerdict, Activations;
    forall x | x in References(a) ensures x in References(b) {
      var k :| k in JoinAll(a).txs && x in ReferencesOf(k, JoinAll(a).txs[k], Verdicts(a)[k]);
      assert k in JoinAll(b).txs.Keys;
      KeyReferencesAgree(a, b, k);
    }
  }

  /** Over the same events, agreement of the verdicts carries over to everything reported. */
  lemma VerdictsDecide(a: seq<Event>, b: seq<Event>)
    requires Elems(a) == Elems(b)
    requires forall k | k in JoinAll(a).txs && k in JoinAll(b).txs :: SameVerdict(Verdicts(a)[k], Verdicts(b)[k])
    ensures SameReduction(ReduceAnnotated(a), ReduceAnnotated(b))
  {
    hide Elems, JoinAll, Classify, Pairs, Activations, OverallReasons, CriticalUnbound, References, OverallStatus, SameVerdict, OwnedAmong, AuthorizedAmong;
    GroupingIgnoresOrder(a, b);
    UnboundAgrees(a, b);
    forall u, v ensures SameVerdict(u, v) ==> SameVerdict(v, u) {
      if SameVerdict(u, v) { SameVerdictSymmetric(u, v); }
    }
    ReferencesAgree(a, b);
    ReferencesAgree(b, a);
    var g, h := JoinAll(a), JoinAll(b);
    StatusAgrees(g.conflicts, h.conflicts, CriticalUnbound(g), Verdicts(a), Verdicts(b));
    ReasonSetsAgree(g, h, Verdicts(a), Verdicts(b));
    ReasonSetsAgree(h, g, Verdicts(b), Verdicts(a));
    ClaimsAgree(Verdicts(a), Verdicts(b));
  }

  lemma SameVerdictSymmetric(u: Verdict, v: Verdict)
    requires SameVerdict(u, v)
    ensures SameVerdict(v, u)
  {
    hide Samples;
  }

  /** The verdict under another order is the verdict on the evidence of this one, given the
      choice the other order makes. */
  lemma VerdictByReading(a: seq<Event>, b: seq<Event>, k: TxKey)
    requires Elems(a) == Elems(b) && k in JoinAll(a).txs
    ensures k in JoinAll(b).txs && SameVerdict(Verdicts(b)[k], JudgedBy(k, JoinAll(a).txs[k], ChoiceOf(b, k)))
  {
    hide JoinAll, Elems, Pairs, SameVerdict, SameEvidence, JudgedBy, ChoiceOf, Classify, Activations;
    GroupingIgnoresOrder(a, b);
    assert k in JoinAll(b).txs.Keys;
    EvidenceIgnoresOrder(b, a, k);
    OrderIsJudged(b, k);
    ChoiceAgrees(k, JoinAll(b).txs[k], JoinAll(a).txs[k], ChoiceOf(b, k));
  }

  /** The reduction is the same in every order of the recording. */
  ghost predicate IgnoresOrder(events: seq<Event>, trace: seq<Event>) {
    forall events', trace' | Reordered(events, trace, events', trace') :: SameReduction(Reduce(events, trace), Reduce(events', trace'))
  }

  /** In every transaction, any two possible choices are judged alike. */
  ghost predicate ChoicesAgree(events: seq<Event>, trace: seq<Event>) {
    forall k, r, q | k in JoinAll(Annotated(events, trace)).txs && Possible(events, trace, k, r) && Possible(events, trace, k, q) ::
      var t := JoinAll(Annotated(events, trace)).txs[k];
      SameVerdict(JudgedBy(k, t, r), JudgedBy(k, t, q))
  }

  /** The verdict on a transaction after reordering, on the evidence of the recording. */
  lemma ReorderedVerdict(events: seq<Event>, trace: seq<Event>, events': seq<Event>, trace': seq<Event>, k: TxKey)
    requires Reordered(events, trace, events', trace') && k in JoinAll(Annotated(events, trace)).txs
    ensures var a, b := Annotated(events, trace), Annotated(events', trace');
            && k in JoinAll(b).txs && Possible(events, trace, k, ChoiceOf(b, k))
            && SameVerdict(Verdicts(b)[k], JudgedBy(k, JoinAll(a).txs[k], ChoiceOf(b, k)))
  {
    hide Annotated, JoinAll, Elems, SameVerdict, Possible, JudgedBy, ChoiceOf, Classify, Activations;
    SameSets(events, trace, events', trace');
    VerdictByReading(Annotated(events, trace), Annotated(events', trace'), k);
    OrderIsPossible(events', trace', k);
    PossibleIgnoresOrder(events', trace', events, trace, k, ChoiceOf(Annotated(events', trace'), k));
  }

  lemma ChoicesSuffice(events: seq<Event>, trace: seq<Event>, events': seq<Event>, trace': seq<Event>)
    requires ChoicesAgree(events, trace) && Reordered(events, trace, events', trace')
    ensures SameReduction(Reduce(events, trace), Reduce(events', trace'))
  {
    hide Annotated, JoinAll, Elems, SameVerdict, Possible, SameReduction, JudgedBy, ChoiceOf, Activations, Classify;
    var a, b := Annotated(events, trace), Annotated(events', trace');
    SameSets(events, trace, events', trace');
    forall k | k in JoinAll(a).txs && k in JoinAll(b).txs ensures SameVerdict(Verdicts(a)[k], Verdicts(b)[k]) {
      ReorderedVerdict(events, trace, events, trace, k);
      ReorderedVerdict(events, trace, events', trace', k);
      var t := JoinAll(a).txs[k];
      var v, w := JudgedBy(k, t, ChoiceOf(a, k)), JudgedBy(k, t, ChoiceOf(b, k));
      SameVerdictChains(Verdicts(a)[k], v, w);
      SameVerdictSymmetric(Verdicts(b)[k], w);
      SameVerdictChains(Verdicts(a)[k], w, Verdicts(b)[k]);
    }
    VerdictsDecide(a, b);
  }

  /** A choice that an order realizes is judged as that order's own. */
  lemma RealizedChoice(events: seq<Event>, trace: seq<Event>, events': seq<Event>, trace': seq<Event>, k: TxKey, r: Choice, t: Tx)
    requires k in JoinAll(Annotated(events', trace')).txs && Reordered(events, trace, events', trace')
    requires forall slot | !Unread(k, slot) ::
               Chosen(r, slot) == FirstSuch(Annotated(events', trace'), ReadableAt(Seen(events, trace), k, ExportGeneration(r.first), slot))
    ensures JudgedBy(k, t, r) == JudgedBy(k, t, ChoiceOf(Annotated(events', trace'), k))
  {
    hide JoinAll, Annotated, FirstSuch, Elems, ChoiceOf, JudgedBy;
    var es := Annotated(events', trace');
    var q := ChoiceOf(es, k);
    SameSets(events, trace, events', trace');
    OrderIsReadOff(es, k);
    assert Chosen(q, Leads(Export)) == FirstSuch(es, ReadableAt(Elems(es), k, ExportGeneration(q.first), Leads(Export)));
    assert ReadableAt(Elems(es), k, ExportGeneration(q.first), Leads(Export)) == MemberAt(k, Export) == ReadableAt(Elems(es), k, ExportGeneration(r.first), Leads(Export));
    assert At(q.first, Export) == Chosen(q, Leads(Export)) == Chosen(r, Leads(Export)) == At(r.first, Export);
    assert ExportGeneration(q.first) == ExportGeneration(r.first);
    hide ReadableAt;
    assert forall slot | !Unread(k, slot) :: Chosen(r, slot) == Chosen(q, slot);
    if Ownerless(k) {
      forall st | st != PlannerEmergency ensures (st in r.first <==> st in q.first) && (st in r.first ==> r.first[st] == q.first[st]) {
        assert Chosen(r, Leads(st)) == Chosen(q, Leads(st));
      }
      OwnerlessIgnoresPlanner(k, t, r, q);
    } else {
      SameChoice(r, q);
    }
  }

  lemma SameChoice(r: Choice, q: Choice)
    requires forall slot :: Chosen(r, slot) == Chosen(q, slot)
    ensures r == q
  {
    forall st ensures (st in r.first <==> st in q.first) && (st in r.first ==> r.first[st] == q.first[st]) {
      assert Chosen(r, Leads(st)) == Chosen(q, Leads(st));
    }
    forall id ensures (id in r.kept <==> id in q.kept) && (id in r.kept ==> r.kept[id] == q.kept[id]) {
      assert Chosen(r, Keeps(id)) == Chosen(q, Keeps(id));
    }
    assert r.first == q.first && r.kept == q.kept;
  }

  lemma ChoiceIsVerdict(events: seq<Event>, trace: seq<Event>, k: TxKey, r: Choice)
    requires IgnoresOrder(events, trace) && k in JoinAll(Annotated(events, trace)).txs && Possible(events, trace, k, r)
    ensures SameVerdict(JudgedBy(k, JoinAll(Annotated(events, trace)).txs[k], r), Verdicts(Annotated(events, trace))[k])
  {
    hide Annotated, JoinAll, Elems, SameVerdict, Possible, JudgedBy, ChoiceOf, Activations, Classify, FirstSuch, ReadableAt;
    var events', trace' := Realize(events, trace, k, r);
    var a, b := Annotated(events, trace), Annotated(events', trace');
    var t := JoinAll(a).txs[k];
    SameSets(events, trace, events', trace');
    VerdictByReading(a, b, k);
    RealizedChoice(events, trace, events', trace', k, r, t);
    assert SameReduction(Reduce(events, trace), Reduce(events', trace'));
    assert k in Reduce(events, trace).verdicts && k in Reduce(events', trace').verdicts;
    assert SameVerdict(Verdicts(a)[k], Verdicts(b)[k]);
    SameVerdictChains(Verdicts(a)[k], Verdicts(b)[k], JudgedBy(k, t, r));
    SameVerdictSymmetric(Verdicts(a)[k], JudgedBy(k, t, r));
  }

  /** The reduction is order independent, in status, reasons, verdicts and all three sets of
      references, exactly when in every transaction any two possible choices are judged alike. */
  lemma OrderIndependentExactly(events: seq<Event>, trace: seq<Event>)
    ensures IgnoresOrder(events, trace) <==> ChoicesAgree(events, trace)
  {
    hide JoinAll, Annotated, Possible, SameVerdict, SameReduction, JudgedBy, Reduce, Verdicts;
    if ChoicesAgree(events, trace) {
      forall events', trace' | Reordered(events, trace, events', trace') ensures SameReduction(Reduce(events, trace), Reduce(events', trace')) {
        ChoicesSuffice(events, trace, events', trace');
      }
    }
    if IgnoresOrder(events, trace) {
      var es := Annotated(events, trace);
      forall k, r, q | k in JoinAll(es).txs && Possible(events, trace, k, r) && Possible(events, trace, k, q)
        ensures SameVerdict(JudgedBy(k, JoinAll(es).txs[k], r), JudgedBy(k, JoinAll(es).txs[k], q))
      {
        VerdictKeys(es);
        ChoiceIsVerdict(events, trace, k, r);
        ChoiceIsVerdict(events, trace, k, q);
        var t := JoinAll(es).txs[k];
        SameVerdictSymmetric(JudgedBy(k, t, q), Verdicts(es)[k]);
        SameVerdictChains(JudgedBy(k, t, r), Verdicts(es)[k], JudgedBy(k, t, q));
      }
    }
  }

  lemma VerdictKeys(es: seq<Event>)
    ensures Verdicts(es).Keys == JoinAll(es).txs.Keys
  {
    hide JoinAll, Classify, Activations;
  }
}
