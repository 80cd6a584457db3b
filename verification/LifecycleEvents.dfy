/** Lifecycle evidence: events, the producer-declared transaction they belong to, and the
    normalization that precedes the reduction. */
module LifecycleEvents {
  import opened Values

  datatype Field =
    | Phase | Disposition | Attribution | DispositionCode | Purpose | ProducerProjection
    | RuntimeInstanceId | SessionId | LocalizationEpoch | GoalEpoch | RequestId
    | CausalPlanningCycleId | PlanningCycleId
    | BundleOwnerRequestId | BundleOwnerCycleId | BundleOwnerAttribution | BundleSource
    | BundleGeneration | AfterBundleGeneration | CapturedBundleGeneration
    | ReplacementBundleGeneration | ParentBundleGeneration
    | SampleId | TraceSequence | AdapterTraceSequence | SourceStampNs
    | AuthorizationBoundary | AuthorizationSteadyNs
    | WorldGeneration | WorldRevision | WorldObservationStampNs
    | SetpointKind | SetpointBoundary
    | ProducerEventSequence | StateIngressSequence | FinalStateSourceRosNs | FinalStateReceiveSteadyNs
    | OwnerSnapshotCurrent | CallbackRequestCurrent | MonitorWindowCurrent
    | AfterCommandAvailable | AfterFailureLatched
    | FinalFreshnessReason | FinalWitnessAgeBounded | FinalBodyKnownFree | FinalAnchorValid
    | AdmissionGoalEpoch | CurrentSnapshotVersion | PreviousSnapshotVersion
    | PlannerStatus | PlannerDisposition | RuntimeAdmissionAttempted
    | IdentityCurrent | TimedOut | AfterFailed
    | OtherField(name: string)

  type Event = map<Field, Value>

  datatype Stage =
    | Request | Result | Retained | HeadingAdmitted | Authorize | Export | Activate | Publish
    | Supersede | RecoveryRetry | PlannerEmergency | Unknown

  /** A field as Python compares it; a missing field reads as None. */
  function Get(e: Event, f: Field): Value {
    if f in e then Canon(e[f]) else Null
  }

  /** The value of `f`, or that of `g` when the key `f` is absent. */
  function GetOr(e: Event, f: Field, g: Field): Value {
    if f in e then Canon(e[f]) else Get(e, g)
  }

  predicate Is(e: Event, f: Field, n: int) {
    Get(e, f) == Num(n as real)
  }

  predicate IsTrue(e: Event, f: Field) {
    f in e && e[f] == Flag(true)
  }

  predicate IsFalse(e: Event, f: Field) {
    f in e && e[f] == Flag(false)
  }

  predicate Has(e: Event, f: Field) {
    Present(Get(e, f))
  }

  function StageOf(e: Event): Stage {
    match Get(e, Phase)
    case Text(s) =>
      if s == "request" then Request
      else if s == "result" then Result
      else if s == "retained" then Retained
      else if s == "heading_admitted" then HeadingAdmitted
      else if s == "authorize" then Authorize
      else if s == "export" then Export
      else if s == "activate" then Activate
      else if s == "publish" then Publish
      else if s == "supersede" then Supersede
      else if s == "recovery_retry" then RecoveryRetry
      else if s == "planner_emergency_outcome" then PlannerEmergency
      else Unknown
    case _ => Unknown
  }

  /** The disposition text, upper-cased. */
  function DispositionOf(e: Event): string {
    if Disposition in e then Upper(Str(e[Disposition])) else ""
  }

  predicate TerminalReject(d: string) {
    d in {"REJECTED", "FAILED", "CANCELED", "CANCELLED", "SUPERSEDED"}
  }

  predicate Successful(d: string) {
    d in {"PUBLISHED", "AUTHORIZED", "EXPORTED", "ACTIVATED", "OBSERVED", "SUCCESS", "ACTIVE", "ADMITTED"}
  }

  // ---- transaction keys -------------------------------------------------------

  /** The producer that owns a transaction. */
  datatype Cycle =
    | Declared(v: Value)
    | NoExecution(sample: Value)
    | TerminalMonitor(generation: Value, sequence: Value)
    | CandidateSource(source: int, created: int)

  datatype TxKey = TxKey(runtime: Value, session: Value, localization: Value, goal: Value, request: Value, cycle: Cycle)

  predicate CyclePresent(c: Cycle) {
    c.Declared? ==> Present(c.v)
  }

  predicate IsNoExecution(e: Event) {
    && StageOf(e) == Authorize
    && DispositionOf(e) == "REJECTED"
    && Integer(Get(e, BundleGeneration)) == Some(0)
    && (|| Is(e, GoalEpoch, 0)
        || (Integer(Get(e, CausalPlanningCycleId)) == Some(0) && Integer(Get(e, BundleOwnerCycleId)) == Some(0)))
  }

  predicate IsCandidate(e: Event) {
    var source := Integer(Get(e, BundleSource));
    var generation := Integer(Get(e, BundleGeneration));
    && (source == Some(2) || source == Some(3))
    && generation.Some? && generation.value != 0
    && !Present(Get(e, BundleOwnerCycleId))
  }

  function CycleOf(e: Event): Cycle {
    if IsNoExecution(e) then NoExecution(Get(e, SampleId))
    else if StageOf(e) == Retained && Is(e, Purpose, 2) then
      TerminalMonitor(Get(e, CapturedBundleGeneration), Get(e, ProducerEventSequence))
    else if IsCandidate(e) then
      CandidateSource(Integer(Get(e, BundleSource)).value, Integer(Get(e, BundleGeneration)).value)
    else Declared(Get(e, BundleOwnerCycleId))
  }

  function KeyOf(e: Event): TxKey {
    TxKey(Get(e, RuntimeInstanceId), Get(e, SessionId), Get(e, LocalizationEpoch), Get(e, GoalEpoch),
          GetOr(e, BundleOwnerRequestId, RequestId), CycleOf(e))
  }

  /** The fields that must not disagree for one producer event. */
  function Signature(e: Event): seq<Value> {
    [Get(e, Disposition), Get(e, RuntimeInstanceId), Get(e, SessionId), Get(e, LocalizationEpoch),
     Get(e, GoalEpoch), Get(e, RequestId), Get(e, CausalPlanningCycleId), Get(e, BundleOwnerRequestId),
     Get(e, BundleOwnerCycleId), Get(e, BundleGeneration), Get(e, SampleId), Get(e, TraceSequence),
     Get(e, AdapterTraceSequence), Get(e, SourceStampNs), Get(e, AuthorizationBoundary),
     Get(e, AuthorizationSteadyNs), Get(e, WorldGeneration), Get(e, WorldRevision),
     Get(e, WorldObservationStampNs), Get(e, SetpointKind), Get(e, SetpointBoundary)]
  }

  datatype EventId = EventId(stage: Stage, key: TxKey, generation: Value, sample: Value, trace: Value)

  function IdOf(e: Event): EventId {
    EventId(StageOf(e), KeyOf(e), Get(e, BundleGeneration), Get(e, SampleId), GetOr(e, TraceSequence, AdapterTraceSequence))
  }

  // ---- normalization ----------------------------------------------------------

  predicate TraceUsable(e: Event) {
    Get(e, Attribution) == Text("px4_input_trace") && Has(e, SampleId) && Has(e, BundleGeneration)
  }

  function AsPublish(e: Event): Event {
    e[Phase := Text("publish")]
     [Disposition := if Disposition in e && Truthy(e[Disposition]) then Text(Str(e[Disposition])) else Text("OBSERVED")]
     [Attribution := Text("px4_input_trace")]
  }

  predicate EmergencyByPlanner(e: Event) {
    StageOf(e) == Retained && Is(e, DispositionCode, 5) && Is(e, Purpose, 0) &&
    Has(e, PlanningCycleId) && Has(e, AfterBundleGeneration)
  }

  function AsPlannerEmergency(e: Event): Event {
    e[Phase := Text("planner_emergency_outcome")][BundleSource := Null][BundleGeneration := Null]
  }

  predicate EmergencyByMonitor(e: Event) {
    StageOf(e) == Retained && Is(e, DispositionCode, 5) && Is(e, Purpose, 2) && Has(e, AfterBundleGeneration)
  }

  function AsMonitorEmergency(e: Event): Event {
    e[Purpose := Num(0.0)][ProducerProjection := Text("emergency_created_by_terminal_monitor")]
  }

  /** An emergency commit is its own producer: it owns the generation it created. */
  function OwnEmergency(e: Event): Event {
    if StageOf(e) == Retained && Is(e, DispositionCode, 5) && Has(e, AfterBundleGeneration) then
      e[BundleSource := Num(3.0)][BundleGeneration := Get(e, AfterBundleGeneration)]
       [BundleOwnerCycleId := Null][BundleOwnerAttribution := Text("producer_declared")]
    else e
  }

  function Filter(es: seq<Event>, p: Event -> bool): (r: seq<Event>)
    ensures forall e :: e in r <==> e in es && p(e)
  {
    if es == [] then []
    else Filter(es[..|es| - 1], p) + if p(es[|es| - 1]) then [es[|es| - 1]] else []
  }

  function Map(es: seq<Event>, f: Event -> Event): (r: seq<Event>)
    ensures |r| == |es| && forall i | 0 <= i < |es| :: r[i] == f(es[i])
  {
    seq(|es|, i requires 0 <= i < |es| => f(es[i]))
  }

  /** Recorded events, adapter publications, planner emergencies and monitor emergencies,
      in that order, with emergency ownership settled. */
  function Normalize(events: seq<Event>, trace: seq<Event>): seq<Event> {
    var n1 := events + Map(Filter(trace, TraceUsable), AsPublish);
    var n2 := n1 + Map(Filter(n1, EmergencyByPlanner), AsPlannerEmergency);
    var n3 := n2 + Map(Filter(n2, EmergencyByMonitor), AsMonitorEmergency);
    Map(n3, OwnEmergency)
  }

  ghost function Elems(es: seq<Event>): set<Event> {
    set e | e in es
  }

  lemma MapElems(es: seq<Event>, f: Event -> Event)
    ensures forall x :: x in Map(es, f) <==> exists e | e in es :: f(e) == x
  {
    forall x | x in Map(es, f) ensures exists e | e in es :: f(e) == x {
      var i :| 0 <= i < |es| && Map(es, f)[i] == x;
      assert es[i] in es;
    }
    forall x, e | e in es && f(e) == x ensures x in Map(es, f) {
      var i :| 0 <= i < |es| && es[i] == e;
      assert Map(es, f)[i] == x;
    }
  }

  lemma SameMapElems(a: seq<Event>, b: seq<Event>, f: Event -> Event)
    requires Elems(a) == Elems(b)
    ensures Elems(Map(a, f)) == Elems(Map(b, f))
  {
    MapElems(a, f);
    MapElems(b, f);
    hide Map;
    assert forall e :: e in a <==> e in Elems(a);
    assert forall e :: e in b <==> e in Elems(b);
  }

  lemma SameFilterElems(a: seq<Event>, b: seq<Event>, p: Event -> bool)
    requires Elems(a) == Elems(b)
    ensures Elems(Filter(a, p)) == Elems(Filter(b, p))
  {
    hide Filter;
    assert forall e :: e in a <==> e in Elems(a);
    assert forall e :: e in b <==> e in Elems(b);
  }

  lemma SameAppendElems(a: seq<Event>, b: seq<Event>, c: seq<Event>, d: seq<Event>)
    requires Elems(a) == Elems(b) && Elems(c) == Elems(d)
    ensures Elems(a + c) == Elems(b + d)
  {
    assert forall e :: e in a + c <==> e in Elems(a) || e in Elems(c);
    assert forall e :: e in b + d <==> e in Elems(b) || e in Elems(d);
  }

  /** Which events come out of normalization depends only on which events went in. */
  lemma NormalizeElems(events: seq<Event>, events': seq<Event>, trace: seq<Event>, trace': seq<Event>)
    requires Elems(events) == Elems(events') && Elems(trace) == Elems(trace')
    ensures Elems(Normalize(events, trace)) == Elems(Normalize(events', trace'))
  {
    hide Filter, Map, Elems;
    SameFilterElems(trace, trace', TraceUsable);
    SameMapElems(Filter(trace, TraceUsable), Filter(trace', TraceUsable), AsPublish);
    var n1 := events + Map(Filter(trace, TraceUsable), AsPublish);
    var m1 := events' + Map(Filter(trace', TraceUsable), AsPublish);
    SameAppendElems(events, events', Map(Filter(trace, TraceUsable), AsPublish), Map(Filter(trace', TraceUsable), AsPublish));
    SameFilterElems(n1, m1, EmergencyByPlanner);
    SameMapElems(Filter(n1, EmergencyByPlanner), Filter(m1, EmergencyByPlanner), AsPlannerEmergency);
    var n2 := n1 + Map(Filter(n1, EmergencyByPlanner), AsPlannerEmergency);
    var m2 := m1 + Map(Filter(m1, EmergencyByPlanner), AsPlannerEmergency);
    SameAppendElems(n1, m1, Map(Filter(n1, EmergencyByPlanner), AsPlannerEmergency), Map(Filter(m1, EmergencyByPlanner), AsPlannerEmergency));
    SameFilterElems(n2, m2, EmergencyByMonitor);
    SameMapElems(Filter(n2, EmergencyByMonitor), Filter(m2, EmergencyByMonitor), AsMonitorEmergency);
    var n3 := n2 + Map(Filter(n2, EmergencyByMonitor), AsMonitorEmergency);
    var m3 := m2 + Map(Filter(m2, EmergencyByMonitor), AsMonitorEmergency);
    SameAppendElems(n2, m2, Map(Filter(n2, EmergencyByMonitor), AsMonitorEmergency), Map(Filter(m2, EmergencyByMonitor), AsMonitorEmergency));
    SameMapElems(n3, m3, OwnEmergency);
  }
}
