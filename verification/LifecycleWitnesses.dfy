/** Recordings whose order matters. */
module LifecycleWitnesses {
  import opened Values
  import opened LifecycleEvents
  import opened LifecycleOwners
  import opened LifecycleGroups
  import opened LifecycleVerdicts
  import opened LifecycleReduction
  import opened LifecycleClaims
  import opened LifecycleReadings
  import opened LifecycleArrangements
  import opened LifecycleStability

  // ---- a verdict that depends on order ----------------------------------------

  const REQUESTED: TxKey := TxKey(Text("runtime"), Text("session"), Num(1.0), Num(1.0), Num(1.0), Declared(Num(7.0)))

  /** A request of planning cycle 7. */
  function Requested(sequence: int, disposition: string): Event {
    map[Phase := Text("request"), Disposition := Text(disposition), TraceSequence := Num(sequence as real),
        RuntimeInstanceId := Text("runtime"), SessionId := Text("session"), LocalizationEpoch := Num(1.0),
        GoalEpoch := Num(1.0), RequestId := Num(1.0), CausalPlanningCycleId := Num(7.0), BundleOwnerCycleId := Num(7.0),
        BundleOwnerAttribution := Text("producer_declared")]
  }

  lemma RequestedReads(n: int, d: string)
    ensures var e := Requested(n, d);
            && StageOf(e) == Request && KeyOf(e) == REQUESTED && Grouped(e) && OwnerReasons(e) == []
            && (forall all :: Final(all)(e) == e)
            && IdOf(e).trace == Num(n as real)
            && !EmergencyByPlanner(e) && !EmergencyByMonitor(e)
  {
    var e := Requested(n, d);
    assert StageOf(e) == Request;
    assert OwnEmergency(e) == e && DeclareOwn(e) == e;
  }

  lemma FilterEmpty(es: seq<Event>, p: Event -> bool)
    requires forall e | e in es :: !p(e)
    ensures Filter(es, p) == []
  {
    if Filter(es, p) != [] { assert Filter(es, p)[0] in Filter(es, p); }
  }

  lemma NothingDerived(es: seq<Event>)
    requires forall e | e in es :: !EmergencyByPlanner(e) && !EmergencyByMonitor(e)
    ensures Published([]) == [] && Planned(es, []) == [] && Monitored(es, []) == []
  {
    hide EmergencyByPlanner, EmergencyByMonitor, TraceUsable;
    assert es + [] == es;
    FilterEmpty(es, EmergencyByPlanner);
    FilterEmpty(es, EmergencyByMonitor);
  }

  lemma PlainAnnotated(es: seq<Event>)
    requires forall e | e in es :: !EmergencyByPlanner(e) && !EmergencyByMonitor(e)
    requires forall all, e | e in es :: Final(all)(e) == e
    ensures Annotated(es, []) == es
  {
    hide Final, Annotated, EmergencyByPlanner, EmergencyByMonitor, Published, Planned, Monitored, Normalized;
    NothingDerived(es);
    AnnotatedParts(es, []);
    assert es + [] + [] + [] == es;
    var all := Normalized(es, []);
    forall i | 0 <= i < |es| ensures Map(es, Final(all))[i] == es[i] {
      assert es[i] in es;
    }
    assert Map(es, Final(all)) == es;
  }

  lemma TwoJoined(a: Event, b: Event, k: TxKey)
    requires KeyOf(a) == k && KeyOf(b) == k && StageOf(a) == Request && StageOf(b) == Request && Grouped(a) && Grouped(b)
    requires OwnerReasons(a) == [] && OwnerReasons(b) == [] && IdOf(a) != IdOf(b)
    ensures var g := JoinAll([a, b]); k in g.txs && g.txs[k].first == map[Request := a] && g.txs[k].reasons == []
  {
    hide KeyOf, StageOf, Signature, OwnerReasons, CycleOf, Grouped, IdOf, Join;
    assert [a, b][..1] == [a] && [a][..0] == [];
    var g := Join(NO_GROUPS, a);
    JoinGrouped(NO_GROUPS, a);
    JoinGrouped(g, b);
    assert JoinAll([a]) == g;
  }

  lemma TwoRead(a: Event, b: Event, k: TxKey)
    requires k in JoinAll([a, b]).txs && JoinAll([a, b]).txs[k].first == map[Request := a]
    requires StageOf(a) == Request && StageOf(b) == Request
    ensures JudgedFirst([a, b], k) == map[Request := a]
  {
    hide StageOf, JoinAll, ActivationFits;
    assert Activations([a, b]) == [] by {
      if Activations([a, b]) != [] { assert Activations([a, b])[0] in Activations([a, b]); }
    }
  }

  lemma TwoRequests(m: int, n: int, d: string, e: string)
    requires m != n
    ensures var a, b := Requested(m, d), Requested(n, e);
            var es := Annotated([a, b], []);
            && REQUESTED in JoinAll(es).txs && JudgedFirst(es, REQUESTED) == map[Request := a]
            && JoinAll(es).txs[REQUESTED].reasons == []
  {
    hide KeyOf, StageOf, OwnerReasons, Annotated, Requested, Grouped, IdOf, JoinAll, Final, EmergencyByMonitor, EmergencyByPlanner, JudgedFirst;
    var a, b := Requested(m, d), Requested(n, e);
    RequestedReads(m, d);
    RequestedReads(n, e);
    PlainAnnotated([a, b]);
    TwoJoined(a, b, REQUESTED);
    TwoRead(a, b, REQUESTED);
  }

  lemma {:induction false} UpperAlready(s: string)
    requires forall i | 0 <= i < |s| :: !('a' <= s[i] <= 'z')
    ensures Upper(s) == s
  {
    if s != "" {
      UpperAlready(s[1..]);
    }
  }

  lemma RequestedDisposition(n: int, d: string)
    requires forall i | 0 <= i < |d| :: !('a' <= d[i] <= 'z')
    ensures DispositionOf(Requested(n, d)) == d
  {
    hide Upper;
    UpperAlready(d);
  }

  lemma RejectedReading(n: int, t: Tx)
    requires t.reasons == []
    ensures Judged(REQUESTED, t, map[Request := Requested(n, "REJECTED")]).status == ValidReject
  {
    var r := map[Request := Requested(n, "REJECTED")];
    hide ClassifyExecuted, DispositionOf, Requested, RetryOf;
    RequestedDisposition(n, "REJECTED");
    assert IdentityComplete(REQUESTED);
  }

  lemma OpenReading(n: int, t: Tx)
    ensures Judged(REQUESTED, t, map[Request := Requested(n, "OPEN")]).status == Incomplete
  {
    var r := map[Request := Requested(n, "OPEN")];
    hide LineageReasons, BundleReasons, FailedStages, WithLineage, DispositionOf, IdentityComplete, Requested, CommandReasons;
    RequestedDisposition(n, "OPEN");
    AuthorizeMissing(REQUESTED, t, r);
  }

  lemma AuthorizeMissing(k: TxKey, t: Tx, r: map<Stage, Event>)
    requires KindOf(k.cycle) == PlanningCycle && Authorize !in r
    ensures CommandReasons(k, t, r) != []
  {
    hide LineageReasons, BundleReasons, FailedStages, PublishReasons, EmergencyCommitWrong, HeadingOriginWrong;
    var required := [Request, Authorize, Export, Activate, Publish];
    assert required[1..][0] == Authorize;
    assert MissingStages(r, required[1..]) != [];
    assert MissingStages(r, required) != [];
  }

  lemma VerdictRead(events: seq<Event>, k: TxKey, r: map<Stage, Event>)
    requires k in JoinAll(Annotated(events, [])).txs && JudgedFirst(Annotated(events, []), k) == r
    ensures k in Reduce(events, []).verdicts
    ensures Reduce(events, []).verdicts[k] == Judged(k, JoinAll(Annotated(events, [])).txs[k], r)
  {
    hide Annotated, JoinAll, Judged, WithActivation, References, OverallReasons, OverallStatus, Activations;
  }

  /** Two distinct requests of one transaction, one rejected and one open: recorded in this
      order the transaction is a valid rejection, in the other order it is incomplete. */
  lemma OrderMatters()
    ensures var a, b := Requested(1, "REJECTED"), Requested(2, "OPEN");
            && REQUESTED in Reduce([a, b], []).verdicts && Reduce([a, b], []).verdicts[REQUESTED].status == ValidReject
            && REQUESTED in Reduce([b, a], []).verdicts && Reduce([b, a], []).verdicts[REQUESTED].status == Incomplete
            && !IgnoresOrder([a, b], [])
  {
    hide Annotated, JoinAll, Requested, Judged, JudgedFirst, Reduce, Samples;
    var a, b := Requested(1, "REJECTED"), Requested(2, "OPEN");
    TwoRequests(1, 2, "REJECTED", "OPEN");
    TwoRequests(2, 1, "OPEN", "REJECTED");
    VerdictRead([a, b], REQUESTED, map[Request := a]);
    VerdictRead([b, a], REQUESTED, map[Request := b]);
    RejectedReading(1, JoinAll(Annotated([a, b], [])).txs[REQUESTED]);
    OpenReading(2, JoinAll(Annotated([b, a], [])).txs[REQUESTED]);
    assert Reordered([a, b], [], [b, a], []);
    assert !SameReduction(Reduce([a, b], []), Reduce([b, a], []));
  }

  // ---- ownership that depends on order ----------------------------------------

  const CYCLE: Value := Num(7.0)

  const BUNDLE: Value := Num(5.0)

  /** An event of planning cycle 7, by what distinguishes it. */
  datatype Shape = Shape(
    phase: string, disposition: string, owner: Value, attribution: Value, generation: Value, sample: Value, world: Value, boundary: Value)

  function Ev(x: Shape): Event {
    map[Phase := Text(x.phase), Disposition := Text(x.disposition), RuntimeInstanceId := Text("runtime"), SessionId := Text("session"),
        LocalizationEpoch := Num(1.0), GoalEpoch := Num(1.0), RequestId := Num(1.0), CausalPlanningCycleId := CYCLE, BundleSource := Null,
        BundleOwnerCycleId := x.owner, BundleOwnerAttribution := x.attribution, BundleGeneration := x.generation, SampleId := x.sample,
        WorldGeneration := x.world, WorldRevision := x.world, WorldObservationStampNs := x.world,
        AuthorizationBoundary := x.boundary, AuthorizationSteadyNs := Num(1.0), TraceSequence := Num(1.0), SetpointKind := Text("position")]
  }

  const DECLARED: Value := Text("producer_declared")

  const ASKED: Shape := Shape("request", "SUCCESS", CYCLE, DECLARED, Null, Null, Null, Null)

  const EXPORTED: Shape := Shape("export", "EXPORTED", CYCLE, DECLARED, BUNDLE, Null, Null, Null)

  const ACTIVATED: Shape := Shape("activate", "ACTIVATED", CYCLE, DECLARED, BUNDLE, Null, Null, Null)

  /** Sample 1, authorized by the producer itself. */
  const DECLARING: Shape := Shape("authorize", "AUTHORIZED", CYCLE, DECLARED, BUNDLE, Num(1.0), Num(1.0), BOUNDARY)

  /** Sample 2, its owner unnamed. */
  const UNNAMED: Shape := Shape("authorize", "AUTHORIZED", Null, Null, BUNDLE, Num(2.0), Num(1.0), BOUNDARY)

  /** The publication of sample 1, its owner unnamed. */
  const SENT: Shape := Shape("publish", "PUBLISHED", Null, Null, BUNDLE, Num(1.0), Num(1.0), Null)

  /** The two with the owners that the annotation finds. */
  const RESOLVED: Shape := UNNAMED.(owner := CYCLE, attribution := Text("resolved_from_export"))

  const SENT_BY_7: Shape := SENT.(owner := CYCLE, attribution := Text("exact_authorization"))

  function Recording(swapped: bool): seq<Event> {
    if swapped then [Ev(ASKED), Ev(EXPORTED), Ev(ACTIVATED), Ev(UNNAMED), Ev(DECLARING), Ev(SENT)]
    else [Ev(ASKED), Ev(EXPORTED), Ev(ACTIVATED), Ev(DECLARING), Ev(UNNAMED), Ev(SENT)]
  }

  function AsAnnotated(swapped: bool): seq<Event> {
    if swapped then [Ev(ASKED), Ev(EXPORTED), Ev(ACTIVATED), Ev(RESOLVED), Ev(DECLARING), Ev(SENT_BY_7)]
    else [Ev(ASKED), Ev(EXPORTED), Ev(ACTIVATED), Ev(DECLARING), Ev(RESOLVED), Ev(SENT_BY_7)]
  }

  // ---- reading the events -----------------------------------------------------

  lemma EvIdentity(x: Shape)
    ensures var e := Ev(x);
            && Get(e, RuntimeInstanceId) == Text("runtime") && Get(e, SessionId) == Text("session")
            && Get(e, LocalizationEpoch) == Num(1.0) && Get(e, GoalEpoch) == Num(1.0) && Get(e, RequestId) == Num(1.0)
            && Get(e, CausalPlanningCycleId) == CYCLE && Get(e, BundleSource) == Null && BundleOwnerRequestId !in e
            && GetOr(e, BundleOwnerRequestId, RequestId) == Num(1.0)
  {
  }

  lemma EvVaries(x: Shape)
    ensures var e := Ev(x);
            && Get(e, Phase) == Text(x.phase) && Get(e, BundleOwnerCycleId) == Canon(x.owner) && Get(e, BundleOwnerAttribution) == Canon(x.attribution)
            && Get(e, BundleGeneration) == Canon(x.generation) && Get(e, SampleId) == Canon(x.sample)
            && GetOr(e, BundleOwnerCycleId, CausalPlanningCycleId) == Canon(x.owner)
  {
    hide Canon;
    assert Canon(Text(x.phase)) == Text(x.phase) by { CanonText(x.phase); }
  }

  lemma CanonText(t: string)
    ensures Canon(Text(t)) == Text(t)
  {
  }

  lemma EvWorld(x: Shape)
    ensures var e := Ev(x);
            && Get(e, WorldGeneration) == Canon(x.world) && Get(e, WorldRevision) == Canon(x.world) && Get(e, WorldObservationStampNs) == Canon(x.world)
            && Get(e, AuthorizationBoundary) == Canon(x.boundary) && Get(e, AuthorizationSteadyNs) == Num(1.0)
            && Get(e, TraceSequence) == Num(1.0) && GetOr(e, AdapterTraceSequence, TraceSequence) == Num(1.0) && GetOr(e, TraceSequence, AdapterTraceSequence) == Num(1.0)
            && GetOr(e, SetpointKind, SetpointBoundary) == Text("position")
  {
  }

  lemma EvDisposition(x: Shape)
    requires x.disposition in ["SUCCESS", "EXPORTED", "ACTIVATED", "AUTHORIZED", "PUBLISHED"]
    ensures DispositionOf(Ev(x)) == x.disposition
  {
    hide Upper;
    Upper7(x.disposition);
  }

  lemma Upper7(d: string)
    requires d in ["SUCCESS", "EXPORTED", "ACTIVATED", "AUTHORIZED", "PUBLISHED"]
    ensures Upper(d) == d
  {
    UpperAlready(d);
  }

  function StageIn(x: Shape): Stage {
    if x.phase == "request" then Request else if x.phase == "export" then Export else if x.phase == "activate" then Activate
    else if x.phase == "authorize" then Authorize else Publish
  }

  predicate Known(x: Shape) {
    x in [ASKED, EXPORTED, ACTIVATED, DECLARING, UNNAMED, RESOLVED, SENT, SENT_BY_7]
  }

  lemma EvStage(x: Shape)
    requires Known(x)
    ensures StageOf(Ev(x)) == StageIn(x) && DispositionOf(Ev(x)) == x.disposition
  {
    hide Ev, DispositionOf;
    EvVaries(x);
    EvDisposition(x);
  }

  /** An annotated event of the recording belongs to the transaction of cycle 7. */
  lemma EvKey(x: Shape)
    requires Known(x) && x.owner == CYCLE
    ensures KeyOf(Ev(x)) == REQUESTED && Grouped(Ev(x)) && OwnerReasons(Ev(x)) == []
  {
    hide Ev, DispositionOf, Get, GetOr, StageOf;
    EvIdentity(x);
    EvVaries(x);
    EvStage(x);
    assert CycleOf(Ev(x)) == Declared(CYCLE);
  }

  lemma EvId(x: Shape)
    requires Known(x) && x.owner == CYCLE
    ensures IdOf(Ev(x)) == EventId(StageIn(x), REQUESTED, x.generation, x.sample, Num(1.0))
  {
    hide Ev, Get, GetOr, StageOf, KeyOf;
    EvVaries(x);
    EvWorld(x);
    EvStage(x);
    EvKey(x);
  }

  // ---- the annotation ---------------------------------------------------------

  ghost function All6(): set<Event> {
    {Ev(ASKED), Ev(EXPORTED), Ev(ACTIVATED), Ev(DECLARING), Ev(UNNAMED), Ev(SENT)}
  }

  lemma BundleOf7(x: Shape)
    ensures BundleKeyOf(Ev(x)) == BundleKey(Text("runtime"), Text("session"), Num(1.0), Num(1.0), Num(1.0), Canon(x.generation))
  {
    hide Ev, Get;
    EvIdentity(x);
    EvVaries(x);
  }

  lemma SampleOf7(x: Shape)
    ensures SampleKeyOf(Ev(x)) == SampleKey(BundleKeyOf(Ev(x)), Canon(x.sample), Canon(x.world), Canon(x.world), Canon(x.world))
  {
    hide Ev, Get, BundleKeyOf;
    EvVaries(x);
    EvWorld(x);
  }

  lemma OnlyExport(x: Shape)
    requires Known(x)
    ensures ExportWitness(Ev(x)) <==> x == EXPORTED
    ensures ExportedBy(Ev(x)) == Canon(x.owner)
  {
    hide Ev, Get, GetOr, StageOf, BundleKeyOf;
    EvStage(x);
    EvVaries(x);
    BundleOf7(x);
  }

  lemma ExporterOf7()
    ensures Exporters(All6(), BundleKeyOf(Ev(UNNAMED))) == {CYCLE}
  {
    hide Ev, BundleKeyOf, ExportWitness, ExportedBy;
    OnlyExport(ASKED); OnlyExport(EXPORTED); OnlyExport(ACTIVATED); OnlyExport(DECLARING); OnlyExport(UNNAMED); OnlyExport(SENT);
    BundleOf7(UNNAMED); BundleOf7(EXPORTED);
    assert Ev(EXPORTED) in All6();
  }

  lemma OnlyAuthorization(x: Shape)
    requires Known(x)
    ensures AuthorizationWitness(Ev(x)) <==> x == DECLARING
    ensures OwnerOf(Ev(x)) == Owner(Null, Canon(x.owner), Canon(x.generation))
  {
    hide Ev, Get, GetOr, StageOf, BundleKeyOf, SampleKeyOf, KeyOf, CycleOf;
    EvStage(x);
    EvVaries(x);
    EvIdentity(x);
    BundleOf7(x);
    SampleOf7(x);
    if x == DECLARING { DeclaringCycle(); }
  }

  lemma DeclaringCycle()
    ensures CycleOf(Ev(DECLARING)) == Declared(CYCLE)
  {
    hide Ev, Get, StageOf, DispositionOf;
    EvIdentity(DECLARING);
    EvVaries(DECLARING);
    EvStage(DECLARING);
  }

  lemma AuthorizerOf7()
    ensures Authorizers(All6(), SampleKeyOf(Ev(SENT))) == {Owner(Null, CYCLE, BUNDLE)}
  {
    hide Ev, SampleKeyOf, AuthorizationWitness, OwnerOf, BundleKeyOf;
    OnlyAuthorization(ASKED); OnlyAuthorization(EXPORTED); OnlyAuthorization(ACTIVATED);
    OnlyAuthorization(DECLARING); OnlyAuthorization(UNNAMED); OnlyAuthorization(SENT);
    SampleOf7(SENT); SampleOf7(DECLARING); BundleOf7(SENT); BundleOf7(DECLARING);
    assert Ev(DECLARING) in All6();
  }

  lemma EvDeclares(x: Shape)
    requires x.owner == CYCLE && x.attribution == DECLARED
    ensures DeclareOwn(Ev(x)) == Ev(x)
  {
    EvVaries(x);
    hide Get;
    assert Ev(x)[BundleOwnerCycleId := CYCLE] == Ev(x);
  }

  lemma EvExport(x: Shape)
    ensures FromExport(Ev(x), CYCLE) == Ev(x.(owner := CYCLE, attribution := Text("resolved_from_export")))
  {
    hide Get, Canon;
  }

  lemma EvAuthorization(x: Shape)
    requires Canon(x.generation) == BUNDLE
    ensures FromAuthorization(Ev(x), Owner(Null, CYCLE, BUNDLE)) == Ev(x.(owner := CYCLE, attribution := Text("exact_authorization")))
  {
    EvVaries(x);
    hide Get, Canon;
    assert Ev(x)[BundleSource := Null] == Ev(x);
  }

  function Found(x: Shape): Shape {
    if x == UNNAMED then RESOLVED else if x == SENT then SENT_BY_7 else x
  }

  predicate Raw(x: Shape) {
    x in [ASKED, EXPORTED, ACTIVATED, DECLARING, UNNAMED, SENT]
  }

  lemma AnnotateOf7(x: Shape)
    requires Raw(x)
    ensures Annotate(Ev(x), All6()) == Ev(Found(x))
  {
    hide Ev, Get, StageOf, DispositionOf, Exporters, Authorizers, DeclareOwn, FromExport, FromAuthorization, BundleKeyOf, SampleKeyOf, All6;
    EvStage(x);
    EvVaries(x);
    EvIdentity(x);
    if x.attribution == DECLARED { EvDeclares(x); }
    if x == UNNAMED {
      EvExport(x);
      ExporterOf7();
      OnlyOne({CYCLE}, CYCLE);
    } else if x == SENT {
      EvAuthorization(x);
      AuthorizerOf7();
      OnlyOne({Owner(Null, CYCLE, BUNDLE)}, Owner(Null, CYCLE, BUNDLE));
    }
  }

  predicate Underived(e: Event) {
    !EmergencyByPlanner(e) && !EmergencyByMonitor(e) && OwnEmergency(e) == e
  }

  lemma UnderivedOf7(x: Shape)
    requires Raw(x)
    ensures Underived(Ev(x))
  {
    hide Ev, StageOf;
    EvStage(x);
  }

  lemma NormalizedAsRecorded(es: seq<Event>)
    requires forall e | e in es :: Underived(e)
    ensures Normalize(es, []) == es
  {
    hide EmergencyByPlanner, EmergencyByMonitor, OwnEmergency, Filter;
    NothingDerived(es);
    assert es + [] + [] + [] == es;
    assert Normalize(es, []) == Map(es, OwnEmergency) by {
      assert Normalize(es, []) == Map(es + Published([]) + Planned(es, []) + Monitored(es, []), OwnEmergency);
    }
    forall i | 0 <= i < |es| ensures Map(es, OwnEmergency)[i] == es[i] {
      assert es[i] in es;
    }
  }

  lemma Six<T>(a: T, b: T, c: T, d: T, e: T, f: T, x: T)
    ensures x in [a, b, c, d, e, f] <==> x in {a, b, c, d, e, f}
    ensures x in [a, b, c, d, e, f] <==> x == a || x == b || x == c || x == d || x == e || x == f
  {
  }

  lemma RecordingIs6(swapped: bool, x: Event)
    ensures x in Recording(swapped) <==> x in All6()
    ensures x in Recording(swapped) ==> Underived(x)
  {
    hide Ev, Underived;
    UnderivedOf7(ASKED); UnderivedOf7(EXPORTED); UnderivedOf7(ACTIVATED); UnderivedOf7(DECLARING); UnderivedOf7(UNNAMED); UnderivedOf7(SENT);
    Six(Ev(ASKED), Ev(EXPORTED), Ev(ACTIVATED), Ev(DECLARING), Ev(UNNAMED), Ev(SENT), x);
    Six(Ev(ASKED), Ev(EXPORTED), Ev(ACTIVATED), Ev(UNNAMED), Ev(DECLARING), Ev(SENT), x);
  }

  lemma ElemsAre(es: seq<Event>, all: set<Event>)
    requires forall x :: x in es <==> x in all
    ensures Elems(es) == all
  {
  }

  lemma RecordingIsAnnotated(swapped: bool)
    ensures Annotated(Recording(swapped), []) == AsAnnotated(swapped)
  {
    hide Ev, Annotate, Normalize, Underived, All6, Elems;
    var es := Recording(swapped);
    forall x ensures (x in es <==> x in All6()) && (x in es ==> Underived(x)) { RecordingIs6(swapped, x); }
    ElemsAre(es, All6());
    NormalizedAsRecorded(es);
    AnnotateOf7(ASKED); AnnotateOf7(EXPORTED); AnnotateOf7(ACTIVATED); AnnotateOf7(DECLARING); AnnotateOf7(UNNAMED); AnnotateOf7(SENT);
    forall i | 0 <= i < 6 ensures AnnotateAll(es)[i] == AsAnnotated(swapped)[i] { }
  }

  // ---- the transaction --------------------------------------------------------

  predicate Final6(x: Shape) {
    x in [ASKED, EXPORTED, ACTIVATED, DECLARING, RESOLVED, SENT_BY_7]
  }

  /** The events of one transaction, no two of one identity, none with an owner problem. */
  ghost predicate Tidy(es: seq<Event>, k: TxKey) {
    && (forall e | e in es :: Grouped(e) && KeyOf(e) == k && OwnerReasons(e) == [])
    && (forall a, b | a in es && b in es && IdOf(a) == IdOf(b) :: a == b)
    && es != []
  }

  lemma ShapeOf(swapped: bool, e: Event) returns (x: Shape)
    requires e in AsAnnotated(swapped)
    ensures Final6(x) && e == Ev(x)
  {
    hide Ev;
    x :| x in [ASKED, EXPORTED, ACTIVATED, DECLARING, RESOLVED, SENT_BY_7] && e == Ev(x);
  }

  lemma RecordingIsTidy(swapped: bool)
    ensures Tidy(AsAnnotated(swapped), REQUESTED)
  {
    hide Ev, Grouped, KeyOf, OwnerReasons, IdOf, AsAnnotated;
    var es := AsAnnotated(swapped);
    forall e | e in es ensures Grouped(e) && KeyOf(e) == REQUESTED && OwnerReasons(e) == [] {
      var x := ShapeOf(swapped, e);
      EvKey(x);
    }
    forall a, b | a in es && b in es && IdOf(a) == IdOf(b) ensures a == b {
      var x := ShapeOf(swapped, a);
      var y := ShapeOf(swapped, b);
      EvId(x);
      EvId(y);
    }
    SomeEvents(swapped);
  }

  lemma SomeEvents(swapped: bool)
    ensures AsAnnotated(swapped) != []
  {
  }

  /** The transaction holds exactly these events. */
  ghost predicate Holds(t: Tx, es: seq<Event>) {
    forall st, x :: x in AllAt(t, st) <==> x in es && StageOf(x) == st
  }

  lemma HoldsAt(t: Tx, es: seq<Event>, st: Stage, x: Event)
    requires Holds(t, es)
    ensures x in AllAt(t, st) <==> x in es && StageOf(x) == st
  {
    hide AllAt, StageOf;
  }

  /** Tidy events make one transaction that holds them all, without a reason. */
  lemma TidyTransaction(es: seq<Event>, k: TxKey)
    requires Tidy(es, k)
    ensures JoinAll(es).txs.Keys == {k} && JoinAll(es).txs[k].reasons == []
    ensures Holds(JoinAll(es).txs[k], es)
  {
    hide JoinAll, Grouped, KeyOf, IdOf, Signature, OwnerReasons, StageOf, Sound, Exhaustive, Shaped, Remembered, AllAt;
    JoinAllCollects(es);
    JoinAllNotes(es);
    ConflictExactly(es);
    assert es[0] in es;
    assert Keys(Elems(es)) == {k};
    var t := JoinAll(es).txs[k];
    assert k in JoinAll(es).txs;
    assert !Quarrel(Elems(es), k);
    EmptyBySet(t.reasons, []);
    forall st, x ensures x in AllAt(t, st) <==> x in es && StageOf(x) == st {
      if x in AllAt(t, st) {
        SoundStage(t, k, es, st, x);
      }
      if x in es && StageOf(x) == st {
        TidyAttested(es, k, t, x);
      }
    }
  }

  lemma TidyAttested(es: seq<Event>, k: TxKey, t: Tx, x: Event)
    requires Tidy(es, k) && Sound(t, k, Elems(es)) && Exhaustive(t, k, Elems(es)) && x in es
    ensures x in AllAt(t, StageOf(x))
  {
    hide Grouped, KeyOf, IdOf, Signature, OwnerReasons, StageOf, Sound, AllAt;
    assert x in Elems(es);
    var y :| y in AllAt(t, StageOf(x)) && IdOf(y) == IdOf(x);
    SoundStage(t, k, es, StageOf(x), y);
  }

  /** The first events of the transaction. */
  function Firsts(swapped: bool): map<Stage, Event> {
    map[Request := Ev(ASKED), Export := Ev(EXPORTED), Activate := Ev(ACTIVATED),
        Authorize := Ev(if swapped then RESOLVED else DECLARING), Publish := Ev(SENT_BY_7)]
  }

  lemma MemberOf7(x: Shape, st: Stage)
    requires Final6(x)
    ensures MemberAt(REQUESTED, st)(Ev(x)) <==> st == StageIn(x)
  {
    hide Ev, StageOf, KeyOf, Grouped;
    EvStage(x);
    EvKey(x);
  }

  lemma {:induction false} FirstOf6(a: Event, b: Event, c: Event, d: Event, e: Event, f: Event, p: Event -> bool)
    ensures FirstSuch([a, b, c, d, e, f], p) ==
            if p(a) then Some(a) else if p(b) then Some(b) else if p(c) then Some(c) else if p(d) then Some(d) else if p(e) then Some(e)
            else if p(f) then Some(f) else None
  {
    assert [a, b, c, d, e, f] == [a] + [b, c, d, e, f] && [b, c, d, e, f] == [b] + [c, d, e, f] && [c, d, e, f] == [c] + [d, e, f];
    assert [d, e, f] == [d] + [e, f] && [e, f] == [e] + [f];
    FirstOfTwo([a], [b, c, d, e, f], p);
    FirstOfTwo([b], [c, d, e, f], p);
    FirstOfTwo([c], [d, e, f], p);
    FirstOfTwo([d], [e, f], p);
    FirstOfTwo([e], [f], p);
    FirstOfOne(a, p); FirstOfOne(b, p); FirstOfOne(c, p); FirstOfOne(d, p); FirstOfOne(e, p); FirstOfOne(f, p);
    hide FirstSuch;
  }

  function FirstIn(swapped: bool, st: Stage): Option<Event> {
    if st == Request then Some(Ev(ASKED)) else if st == Export then Some(Ev(EXPORTED)) else if st == Activate then Some(Ev(ACTIVATED))
    else if st == Authorize then Some(if swapped then Ev(RESOLVED) else Ev(DECLARING)) else if st == Publish then Some(Ev(SENT_BY_7)) else None
  }

  lemma FirstInIs(swapped: bool, st: Stage)
    ensures At(Firsts(swapped), st) == FirstIn(swapped, st)
  {
    hide Ev;
  }

  lemma FirstAt7(swapped: bool, st: Stage)
    ensures FirstSuch(AsAnnotated(swapped), MemberAt(REQUESTED, st)) == FirstIn(swapped, st)
  {
    hide Ev, FirstSuch, MemberAt;
    MemberOf7(ASKED, st); MemberOf7(EXPORTED, st); MemberOf7(ACTIVATED, st); MemberOf7(DECLARING, st); MemberOf7(RESOLVED, st); MemberOf7(SENT_BY_7, st);
    if swapped {
      FirstOf6(Ev(ASKED), Ev(EXPORTED), Ev(ACTIVATED), Ev(RESOLVED), Ev(DECLARING), Ev(SENT_BY_7), MemberAt(REQUESTED, st));
    } else {
      FirstOf6(Ev(ASKED), Ev(EXPORTED), Ev(ACTIVATED), Ev(DECLARING), Ev(RESOLVED), Ev(SENT_BY_7), MemberAt(REQUESTED, st));
    }
  }

  lemma FirstsOf7(swapped: bool)
    requires REQUESTED in JoinAll(AsAnnotated(swapped)).txs
    ensures JoinAll(AsAnnotated(swapped)).txs[REQUESTED].first == Firsts(swapped)
  {
    hide Ev, JoinAll, FirstSuch, MemberAt, AsAnnotated, Firsts, FirstIn;
    var es := AsAnnotated(swapped);
    var first := JoinAll(es).txs[REQUESTED].first;
    JoinAllFirsts(es, REQUESTED);
    forall st ensures At(first, st) == At(Firsts(swapped), st) {
      FirstAt7(swapped, st);
      FirstInIs(swapped, st);
      assert At(first, st) == FirstSuch(es, MemberAt(REQUESTED, st));
    }
    SameMap(first, Firsts(swapped));
  }

  lemma SameMap(a: map<Stage, Event>, b: map<Stage, Event>)
    requires forall st :: At(a, st) == At(b, st)
    ensures a == b
  {
    forall st ensures (st in a <==> st in b) && (st in a ==> a[st] == b[st]) { assert At(a, st) == At(b, st); }
  }

  // ---- the verdict ------------------------------------------------------------

  lemma {:induction false} AllPassed(first: map<Stage, Event>, required: seq<Stage>)
    requires forall i | 0 <= i < |required| :: required[i] in first && Successful(DispositionOf(first[required[i]]))
    ensures MissingStages(first, required) == [] && FailedStages(first, required) == []
  {
    hide DispositionOf, Successful;
    if required != [] {
      AllPassed(first, required[1..]);
    }
  }

  lemma FirstPassed(swapped: bool, st: Stage)
    requires st == Request || st == Export || st == Activate || st == Authorize || st == Publish
    ensures st in Firsts(swapped) && Successful(DispositionOf(Firsts(swapped)[st]))
  {
    hide Ev, DispositionOf, Firsts, Successful, Known;
    FirstInIs(swapped, st);
    EvPassed(ASKED); EvPassed(EXPORTED); EvPassed(ACTIVATED); EvPassed(DECLARING); EvPassed(RESOLVED); EvPassed(SENT_BY_7);
  }

  lemma EvPassed(x: Shape)
    requires x in [ASKED, EXPORTED, ACTIVATED, DECLARING, RESOLVED, SENT_BY_7]
    ensures Successful(DispositionOf(Ev(x)))
  {
    hide Ev, DispositionOf;
    EvStage(x);
  }

  lemma StagesPassed(swapped: bool)
    ensures var required := RequiredStages(PlanningCycle);
            MissingStages(Firsts(swapped), required) == [] && FailedStages(Firsts(swapped), required) == []
  {
    hide DispositionOf, MissingStages, FailedStages, Successful, Firsts;
    var required := RequiredStages(PlanningCycle);
    forall i | 0 <= i < |required| ensures required[i] in Firsts(swapped) && Successful(DispositionOf(Firsts(swapped)[required[i]])) {
      FirstPassed(swapped, required[i]);
    }
    AllPassed(Firsts(swapped), required);
  }

  lemma GenerationsOf7(swapped: bool, t: Tx)
    requires Holds(t, AsAnnotated(swapped))
    ensures BundleGenerations(t) == {BUNDLE}
  {
    hide Ev, StageOf, Get, BundleGenerations, AllAt, AsAnnotated, Holds;
    forall v ensures v in BundleGenerations(t) <==> v == BUNDLE {
      GenerationMembers(t, v);
      if v in BundleGenerations(t) {
        var st, e :| BundleStage(st) && e in AllAt(t, st) && Names(e, v);
        HoldsAt(t, AsAnnotated(swapped), st, e);
        var x := ShapeOf(swapped, e);
        EvVaries(x);
      }
      ExportIsThere(swapped);
      HoldsAt(t, AsAnnotated(swapped), Export, Ev(EXPORTED));
      EvStage(EXPORTED);
      EvVaries(EXPORTED);
      assert Names(Ev(EXPORTED), BUNDLE) && Ev(EXPORTED) in AllAt(t, Export) && BundleStage(Export);
    }
  }

  lemma ExportIsThere(swapped: bool)
    ensures Ev(EXPORTED) in AsAnnotated(swapped) && Ev(DECLARING) in AsAnnotated(swapped) && Ev(SENT_BY_7) in AsAnnotated(swapped)
  {
    hide Ev;
    var es := AsAnnotated(swapped);
    assert es[1] == Ev(EXPORTED) && es[5] == Ev(SENT_BY_7) && es[if swapped then 4 else 3] == Ev(DECLARING);
  }

  lemma DeclaringBacks()
    ensures Backs(Ev(DECLARING), Ev(SENT_BY_7)) && SameWorld(Ev(DECLARING), Ev(SENT_BY_7)) && WorldPresent(Ev(SENT_BY_7))
    ensures PublishProblems(Ev(SENT_BY_7)) == []
  {
    hide Ev, Get, GetOr, DispositionOf;
    EvStage(DECLARING);
    EvVaries(DECLARING); EvVaries(SENT_BY_7);
    EvWorld(DECLARING); EvWorld(SENT_BY_7);
  }

  lemma OneLineage(authorizations: seq<Event>, publishes: seq<Event>, a: Event, p: Event)
    requires a in authorizations && (forall x :: x in publishes <==> x == p) && Backs(a, p) && SameWorld(a, p) && WorldPresent(p)
    ensures LineageReasons(authorizations, publishes) == []
    ensures forall x :: x in WithLineage(authorizations, publishes) <==> x == p
  {
    hide LineageReasons, WithLineage, Backs, SameWorld, WorldPresent;
    LineageReasonMembers(authorizations, publishes);
    LineageMembers(authorizations, publishes);
    assert LineageProblem(authorizations, p).None?;
    hide LineageProblem;
    EmptyBySet(LineageReasons(authorizations, publishes), []);
  }

  lemma OnlySent(swapped: bool, p: Event)
    requires p in AsAnnotated(swapped) && StageOf(p) == Publish
    ensures p == Ev(SENT_BY_7)
  {
    hide Ev, StageOf, AsAnnotated;
    var x := ShapeOf(swapped, p);
    EvStage(x);
  }

  lemma LineageOf7(swapped: bool, t: Tx)
    requires Holds(t, AsAnnotated(swapped))
    ensures LineageReasons(AllAt(t, Authorize), AllAt(t, Publish)) == []
    ensures forall p :: p in WithLineage(AllAt(t, Authorize), AllAt(t, Publish)) <==> p == Ev(SENT_BY_7)
  {
    hide Ev, StageOf, AllAt, AsAnnotated, Backs, SameWorld, WorldPresent, LineageReasons, WithLineage, PublishProblems, Holds;
    DeclaringBacks();
    ExportIsThere(swapped);
    EvStage(DECLARING);
    EvStage(SENT_BY_7);
    HoldsAt(t, AsAnnotated(swapped), Authorize, Ev(DECLARING));
    forall p ensures p in AllAt(t, Publish) <==> p == Ev(SENT_BY_7) {
      HoldsAt(t, AsAnnotated(swapped), Publish, p);
      if p in AllAt(t, Publish) { OnlySent(swapped, p); }
    }
    OneLineage(AllAt(t, Authorize), AllAt(t, Publish), Ev(DECLARING), Ev(SENT_BY_7));
  }

  lemma ReasonsOf7(swapped: bool, t: Tx)
    requires Holds(t, AsAnnotated(swapped))
    ensures CommandReasons(REQUESTED, t, Firsts(swapped)) == []
  {
    hide Holds, Ev, StageOf, AllAt, AsAnnotated, LineageReasons, MissingStages, FailedStages, WithLineage, Backs, SameWorld, WorldPresent, BundleGenerations, Get;
    StagesPassed(swapped);
    GenerationsOf7(swapped, t);
    LineageOf7(swapped, t);
    DeclaringBacks();
    EvVaries(EXPORTED);
    hide PublishProblems;
    assert PublishReasons(Firsts(swapped)) == [];
    assert BundleReasons(t, Firsts(swapped)) == [];
  }

  /** The order of the two authorizations decides whether ownership is proved. */
  lemma OwnershipOf7(swapped: bool)
    ensures OwnershipProved(REQUESTED, Firsts(swapped)) <==> !swapped
    ensures GenerationOf(REQUESTED, Firsts(swapped)) == BUNDLE && ExactlyAuthorized(Ev(SENT_BY_7))
  {
    hide Ev, Get;
    EvVaries(ACTIVATED); EvVaries(DECLARING); EvVaries(RESOLVED); EvVaries(EXPORTED); EvVaries(SENT_BY_7);
  }

  lemma Unended(k: TxKey, t: Tx, first: map<Stage, Event>)
    requires !SupersessionProved(k, first) && !EmergencyProved(first) && RetryEnding(first).None? && RetainedEnding(first).None?
    requires Request in first && !TerminalReject(DispositionOf(first[Request])) && Authorize in first && !TerminalReject(DispositionOf(first[Authorize]))
    ensures ClassifyCommand(k, t, first, []) == ClassifyExecuted(k, t, first, [])
  {
    hide ClassifyExecuted, DispositionOf, TerminalReject, SupersessionProved, EmergencyProved, RetryEnding, RetainedEnding;
  }

  lemma CascadeOf7(swapped: bool, t: Tx)
    requires t.reasons == []
    ensures Judged(REQUESTED, t, Firsts(swapped)) == ClassifyExecuted(REQUESTED, t, Firsts(swapped), [])
  {
    hide Ev, ClassifyExecuted, ClassifyCommand, DispositionOf, SupersessionProved, EmergencyProved, RetryEnding, RetainedEnding;
    EvStage(ASKED); EvStage(DECLARING); EvStage(RESOLVED);
    NotEnded(swapped);
    Unended(REQUESTED, t, Firsts(swapped));
    assert IdentityComplete(REQUESTED);
    assert t.reasons + When(!IdentityComplete(REQUESTED), IdentityMissing) == [];
  }

  lemma VerdictOf7(swapped: bool, t: Tx)
    requires t.reasons == [] && Holds(t, AsAnnotated(swapped))
    ensures var v := Judged(REQUESTED, t, Firsts(swapped));
            && v.status == Valid && (forall p :: p in v.publishes <==> p == Ev(SENT_BY_7))
            && v.owned == if swapped then {} else {WorldReferenceOf(REQUESTED, BUNDLE, Ev(SENT_BY_7))}
  {
    hide Holds, Ev, StageOf, AllAt, AsAnnotated, Firsts, Judged, CommandReasons, WithLineage, AuthorizedBy, OwnershipProved, GenerationOf, ExactlyAuthorized, WorldReferenceOf;
    CascadeOf7(swapped, t);
    ReasonsOf7(swapped, t);
    LineageOf7(swapped, t);
    OwnershipOf7(swapped);
  }

  lemma NotEnded(swapped: bool)
    ensures var first := Firsts(swapped);
            && !SupersessionProved(REQUESTED, first) && !EmergencyProved(first) && RetryEnding(first).None? && RetainedEnding(first).None?
  {
    hide Ev, RetryOf, ResultRetains, IncumbentKept, RetainedOf;
  }

  lemma ReductionOf7(swapped: bool)
    ensures var r := Reduce(Recording(swapped), []);
            && r.verdicts.Keys == {REQUESTED} && r.verdicts[REQUESTED].status == Valid
            && r.references == {Reference(Num(1.0), BUNDLE, Num(1.0))}
            && r.owned == if swapped then {} else {WorldReferenceOf(REQUESTED, BUNDLE, Ev(SENT_BY_7))}
  {
    hide Holds, Ev, StageOf, AllAt, AsAnnotated, Recording, JoinAll, Judged, WithLineage, WorldReferenceOf, Annotated, OverallStatus, OverallReasons, Get, Activations;
    var es := AsAnnotated(swapped);
    RecordingIsAnnotated(swapped);
    RecordingIsTidy(swapped);
    TidyTransaction(es, REQUESTED);
    FirstsOf7(swapped);
    var t := JoinAll(es).txs[REQUESTED];
    VerdictOf7(swapped, t);
    OwnershipOf7(swapped);
    EvVaries(SENT_BY_7);
    assert Verdicts(es)[REQUESTED] == Judged(REQUESTED, t, Firsts(swapped));
    ReferencesOf7(t, Verdicts(es)[REQUESTED]);
    OneKey(es, REQUESTED);
  }

  lemma ReferencesOf7(t: Tx, v: Verdict)
    requires (forall p :: p in v.publishes <==> p == Ev(SENT_BY_7)) && EffectiveGeneration(REQUESTED, t) == BUNDLE && Get(Ev(SENT_BY_7), SampleId) == Num(1.0)
    ensures ReferencesOf(REQUESTED, t, v) == {Reference(Num(1.0), BUNDLE, Num(1.0))}
  {
    hide Ev, Get, EffectiveGeneration;
    assert Ev(SENT_BY_7) in v.publishes;
  }

  lemma OneKey(es: seq<Event>, k: TxKey)
    requires JoinAll(es).txs.Keys == {k}
    ensures References(es) == ReferencesOf(k, JoinAll(es).txs[k], Verdicts(es)[k]) && OwnedAmong(Verdicts(es)) == Verdicts(es)[k].owned
  {
    hide JoinAll, Classify, ReferencesOf, Activations;
    assert forall q :: q in JoinAll(es).txs <==> q == k;
  }

  lemma SwapKeeps<T>(a: T, b: T, c: T, d: T, e: T, f: T)
    ensures multiset([a, b, c, d, e, f]) == multiset([a, b, c, e, d, f])
  {
  }

  lemma SwappedIsReordered()
    ensures Reordered(Recording(false), [], Recording(true), [])
  {
    hide Ev;
    SwapKeeps(Ev(ASKED), Ev(EXPORTED), Ev(ACTIVATED), Ev(DECLARING), Ev(UNNAMED), Ev(SENT));
  }

  /** A planning cycle with two authorizations, one declared by the producer, one resolved from
      the export. The transaction is VALID with the same valid references in either order, and
      its command is reported as owned by its producer only if the declared one comes first. */
  lemma OwnershipOrderMatters()
    ensures var a, b := Reduce(Recording(false), []), Reduce(Recording(true), []);
            && a.verdicts.Keys == b.verdicts.Keys == {REQUESTED}
            && a.verdicts[REQUESTED].status == Valid && b.verdicts[REQUESTED].status == Valid && a.references == b.references
            && a.owned == {WorldReferenceOf(REQUESTED, BUNDLE, Ev(SENT_BY_7))} && b.owned == {}
            && !IgnoresOrder(Recording(false), [])
  {
    hide Recording, Reduce, Ev, WorldReferenceOf, SameVerdict;
    ReductionOf7(false);
    ReductionOf7(true);
    SwappedIsReordered();
    assert !SameReduction(Reduce(Recording(false), []), Reduce(Recording(true), []));
  }
}
