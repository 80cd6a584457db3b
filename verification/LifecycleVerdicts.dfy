/** Classification of one transaction: the cascade of terminal outcomes and, when none
    applies, the full lineage check of an executed command. */
module LifecycleVerdicts {
  import opened Values
  import opened LifecycleEvents
  import opened LifecycleOwners
  import opened LifecycleGroups

  datatype Status = Valid | ValidTerminal | ValidReject | Conflicting | Incomplete

  predicate SettledStatus(s: Status) {
    s.Valid? || s.ValidTerminal? || s.ValidReject?
  }

  datatype Ending =
    | NoExecutionAuthority
    | CertifiedCommandPreserved | StaleMonitorDiscarded | MonitorFailClosed | EmergencyCommitted
    | SupersededPending
    | StaleRetryDiscarded | RecoveryRetryScheduled | RecoveryTimeoutFailClosed
    | Rejected(disposition: string)
    | RetainedIncumbent | StaleDiscarded | Superseded | FailClosed

  datatype Evidence = MissingEvidence | ConflictingOutcome | Resolved | IntentionallyAbsent | SupersededOutcome | StaleOutcome

  /** A command of a transaction with the world it was decided on. */
  datatype WorldReference = WorldReference(
    runtime: Value, session: Value, localization: Value, goal: Value, request: Value,
    generation: Value, sample: Value, world: Value, revision: Value, stamp: Value)

  /** The verdict on a transaction; `publishes` are the publications with full lineage, `owned`
      those whose producer is proved, `authorized` what its producer authorized. */
  datatype Verdict = Verdict(
    status: Status, ending: Option<Ending>, evidence: Evidence, reasons: seq<Reason>, publishes: seq<Event>,
    owned: set<WorldReference> := {}, authorized: set<WorldReference> := {})

  function Settle(status: Status, ending: Ending, evidence: Evidence, reasons: seq<Reason>): Verdict {
    Verdict(status, Some(ending), evidence, reasons, [])
  }

  datatype Kind = PlanningCycle | NoExecutionSignal | MonitorKind | HeadingRebind | EmergencyBrake

  function KindOf(c: Cycle): Kind {
    match c
    case Declared(_) => PlanningCycle
    case NoExecution(_) => NoExecutionSignal
    case TerminalMonitor(_, _) => MonitorKind
    case CandidateSource(source, _) => if source == 2 then HeadingRebind else EmergencyBrake
  }

  function ProducerId(c: Cycle): Value {
    match c
    case Declared(v) => v
    case NoExecution(sample) => sample
    case TerminalMonitor(generation, sequence) => Items([generation, sequence])
    case CandidateSource(_, created) => Num(created as real)
  }

  predicate IdentityComplete(k: TxKey) {
    && Present(k.runtime) && Present(k.session) && Present(k.localization) && Present(k.request)
    && Present(ProducerId(k.cycle))
    && (k.cycle.NoExecution? || Present(k.goal))
  }

  function When(b: bool, r: Reason): seq<Reason> {
    if b then [r] else []
  }

  function At(first: map<Stage, Event>, st: Stage): Option<Event> {
    if st in first then Some(first[st]) else None
  }

  // ---- an activation observed under another owner -----------------------------

  predicate ActivationFits(e: Event, k: TxKey, generation: Value) {
    && Get(e, RuntimeInstanceId) == k.runtime && Get(e, SessionId) == k.session && Get(e, RequestId) == k.request
    && Get(e, BundleGeneration) == generation
    && Get(e, LocalizationEpoch) == k.localization && Get(e, GoalEpoch) == k.goal
  }

  function FindActivation(activations: seq<Event>, k: TxKey, generation: Value): (r: Option<Event>)
    ensures r.Some? ==> r.value in activations && ActivationFits(r.value, k, generation)
    ensures r.None? ==> forall e | e in activations :: !ActivationFits(e, k, generation)
  {
    if activations == [] then None
    else if ActivationFits(activations[0], k, generation) then Some(activations[0])
    else FindActivation(activations[1..], k, generation)
  }

  function ExportGeneration(first: map<Stage, Event>): Value {
    if Export in first then Get(first[Export], BundleGeneration) else Null
  }

  function WithActivation(k: TxKey, first: map<Stage, Event>, activations: seq<Event>): map<Stage, Event> {
    if Activate in first then first
    else match FindActivation(activations, k, ExportGeneration(first))
      case Some(e) => first[Activate := e]
      case None => first
  }

  // ---- no execution -----------------------------------------------------------

  const BOUNDARY: Value := Text("execution_timeline_publish_if_current")

  predicate NoExecutionWitness(a: Event, k: TxKey) {
    && Get(a, Disposition) == Text("REJECTED")
    && Get(a, AuthorizationBoundary) == BOUNDARY
    && Has(a, AuthorizationSteadyNs)
    && Get(a, GoalEpoch) == k.goal && Get(a, RequestId) == k.request && Get(a, LocalizationEpoch) == k.localization
    && Is(a, BundleGeneration, 0)
    && Get(a, SampleId) == ProducerId(k.cycle)
  }

  function ClassifyNoExecution(k: TxKey, first: map<Stage, Event>, reasons: seq<Reason>): Verdict {
    if Authorize in first && NoExecutionWitness(first[Authorize], k) && reasons == []
    then Settle(ValidReject, NoExecutionAuthority, IntentionallyAbsent, reasons)
    else Verdict(Incomplete, None, MissingEvidence, reasons + [NoExecutionWitnessInvalid], [])
  }

  // ---- terminal monitor -------------------------------------------------------

  predicate MonitorWitness(r: Event) {
    && Has(r, CapturedBundleGeneration) && Has(r, ProducerEventSequence) && Has(r, StateIngressSequence)
    && Has(r, FinalStateSourceRosNs) && Has(r, FinalStateReceiveSteadyNs)
  }

  predicate MonitorPreserved(r: Event) {
    && Is(r, DispositionCode, 8)
    && Is(r, OwnerSnapshotCurrent, 1) && Is(r, CallbackRequestCurrent, 1) && Is(r, MonitorWindowCurrent, 1)
    && Is(r, AfterCommandAvailable, 1) && Is(r, AfterFailureLatched, 0)
    && Get(r, AfterBundleGeneration) == Get(r, CapturedBundleGeneration)
    && Is(r, FinalFreshnessReason, 0) && Is(r, FinalWitnessAgeBounded, 1)
    && Is(r, FinalBodyKnownFree, 1) && Is(r, FinalAnchorValid, 1)
  }

  predicate MonitorStale(r: Event) {
    && (Is(r, DispositionCode, 2) || Is(r, DispositionCode, 3))
    && (Is(r, OwnerSnapshotCurrent, 0) || Is(r, CallbackRequestCurrent, 0) || Is(r, MonitorWindowCurrent, 0))
  }

  predicate MonitorFailed(r: Event) {
    Is(r, DispositionCode, 4) && Is(r, AfterCommandAvailable, 0) && Is(r, AfterFailureLatched, 1)
  }

  predicate MonitorCommitted(r: Event) {
    && Is(r, DispositionCode, 5) && Has(r, AfterBundleGeneration)
    && Get(r, AfterBundleGeneration) != Get(r, CapturedBundleGeneration)
    && Is(r, CallbackRequestCurrent, 1) && Is(r, AfterCommandAvailable, 1) && Is(r, AfterFailureLatched, 0)
    && Is(r, FinalFreshnessReason, 0) && Is(r, FinalWitnessAgeBounded, 1)
  }

  function ClassifyMonitor(first: map<Stage, Event>, reasons: seq<Reason>): Verdict {
    if !(Retained in first && MonitorWitness(first[Retained])) then
      Verdict(Incomplete, None, MissingEvidence, reasons + [MonitorWitnessMissing, MonitorOutcomeUnverified], [])
    else
      var r := first[Retained];
      if MonitorPreserved(r) && reasons == [] then Settle(ValidTerminal, CertifiedCommandPreserved, Resolved, reasons)
      else if MonitorStale(r) && reasons == [] then Settle(ValidTerminal, StaleMonitorDiscarded, SupersededOutcome, reasons)
      else if MonitorFailed(r) && reasons == [] then Settle(ValidTerminal, MonitorFailClosed, Resolved, reasons)
      else if MonitorCommitted(r) && reasons == [] then Settle(ValidTerminal, EmergencyCommitted, Resolved, reasons)
      else Verdict(Incomplete, None, MissingEvidence, reasons + [MonitorOutcomeUnverified], [])
  }

  // ---- terminal outcomes of a command transaction -----------------------------

  predicate Greater(a: Value, b: Value) {
    a.Num? && b.Num? && a.r > b.r
  }

  /** The event supersedes a pending command of the goal. */
  predicate SupersedeWitness(k: TxKey, s: Event) {
    var prior := Get(s, BundleGeneration);
    var replacement := Get(s, ReplacementBundleGeneration);
    var cleared := Is(s, ReplacementBundleGeneration, 0) && Integer(Get(s, AdmissionGoalEpoch)).Some? &&
                   Greater(Get(s, AdmissionGoalEpoch), k.goal);
    var replaced := Present(replacement) && prior != replacement;
    && Present(prior) && (replaced || cleared)
    && Integer(Get(s, CurrentSnapshotVersion)).Some? && Integer(Get(s, PreviousSnapshotVersion)).Some?
    && Greater(Get(s, CurrentSnapshotVersion), Get(s, PreviousSnapshotVersion))
  }

  predicate SupersessionProved(k: TxKey, first: map<Stage, Event>) {
    && Supersede in first && SupersedeWitness(k, first[Supersede])
    && (HeadingAdmitted in first || (Request in first && Result in first && Export in first))
  }

  /** The planner refused and left the emergency to the runtime. */
  predicate ResultRefused(result: Event) {
    Is(result, PlannerStatus, 4) && Is(result, PlannerDisposition, 4) && IsFalse(result, RuntimeAdmissionAttempted)
  }

  predicate EmergencyWitness(e: Event) {
    && Is(e, DispositionCode, 5) && Is(e, CallbackRequestCurrent, 1)
    && Is(e, AfterCommandAvailable, 1) && Is(e, AfterFailureLatched, 0)
    && Has(e, AfterBundleGeneration)
  }

  predicate EmergencyProved(first: map<Stage, Event>) {
    && Request in first && Result in first && PlannerEmergency in first && Export !in first
    && ResultRefused(first[Result]) && EmergencyWitness(first[PlannerEmergency])
  }

  function RetryOf(r: Event): Option<(Ending, Evidence)> {
    if Get(r, Disposition) == Text("SUPERSEDED") && IsFalse(r, IdentityCurrent) then Some((StaleRetryDiscarded, SupersededOutcome))
    else if Get(r, Disposition) == Text("RETRY_SCHEDULED") && IsTrue(r, IdentityCurrent) && IsFalse(r, TimedOut) && IsFalse(r, AfterFailed)
    then Some((RecoveryRetryScheduled, IntentionallyAbsent))
    else if Get(r, Disposition) == Text("FAIL_CLOSED") && IsTrue(r, IdentityCurrent) && IsTrue(r, TimedOut) && IsTrue(r, AfterFailed)
    then Some((RecoveryTimeoutFailClosed, Resolved))
    else None
  }

  function RetryEnding(first: map<Stage, Event>): Option<(Ending, Evidence)> {
    if Request in first && Result in first && RecoveryRetry in first then RetryOf(first[RecoveryRetry]) else None
  }

  function RejectVerdict(disposition: string, reasons: seq<Reason>): Verdict {
    Settle(if reasons == [] then ValidReject else Conflicting, Rejected(disposition),
           if reasons != [] then ConflictingOutcome else if disposition == "SUPERSEDED" then SupersededOutcome else IntentionallyAbsent,
           reasons)
  }

  /** The planner kept the incumbent and nothing was admitted. */
  predicate ResultRetains(result: Event) {
    (Is(result, PlannerDisposition, 3) || Is(result, PlannerDisposition, 4)) && IsFalse(result, RuntimeAdmissionAttempted)
  }

  predicate IncumbentKept(r: Event) {
    && (Is(r, DispositionCode, 6) || Is(r, DispositionCode, 7) || Is(r, DispositionCode, 8))
    && Is(r, AfterCommandAvailable, 1) && Is(r, AfterFailureLatched, 0)
    && Is(r, OwnerSnapshotCurrent, 1) && Is(r, CallbackRequestCurrent, 1)
  }

  /** The ending a retained event shows by itself. */
  function RetainedOf(r: Event): Option<(Ending, Evidence)> {
    if Is(r, DispositionCode, 2) then Some((StaleDiscarded, StaleOutcome))
    else if Is(r, DispositionCode, 3) then Some((Superseded, SupersededOutcome))
    else if && Is(r, DispositionCode, 4) && Is(r, OwnerSnapshotCurrent, 1) && Is(r, CallbackRequestCurrent, 1)
            && Is(r, AfterCommandAvailable, 0) && Is(r, AfterFailureLatched, 1)
    then Some((FailClosed, Resolved))
    else None
  }

  function RetainedEnding(first: map<Stage, Event>): Option<(Ending, Evidence)> {
    if !(Request in first && Result in first && Retained in first && Export !in first) then None
    else if ResultRetains(first[Result]) && IncumbentKept(first[Retained]) then Some((RetainedIncumbent, IntentionallyAbsent))
    else RetainedOf(first[Retained])
  }

  // ---- the executed command ---------------------------------------------------

  function RequiredStages(kind: Kind): seq<Stage> {
    match kind
    case HeadingRebind => [HeadingAdmitted, Activate, Authorize, Publish]
    case EmergencyBrake => [Retained, Authorize, Publish]
    case _ => [Request, Authorize, Export, Activate, Publish]
  }

  function MissingStages(first: map<Stage, Event>, required: seq<Stage>): seq<Reason> {
    if required == [] then []
    else When(required[0] !in first, StageIncomplete(required[0])) + MissingStages(first, required[1..])
  }

  function FailedStages(first: map<Stage, Event>, required: seq<Stage>): seq<Reason> {
    if required == [] then []
    else When(required[0] in first && !Successful(DispositionOf(first[required[0]])), StageNotSuccessful(required[0])) +
         FailedStages(first, required[1..])
  }

  /** The retained event commits the emergency of this producer. */
  predicate EmergencyCommit(k: TxKey, r: Event) {
    && Is(r, DispositionCode, 5) && Get(r, AfterBundleGeneration) == ProducerId(k.cycle)
    && Is(r, AfterCommandAvailable, 1) && Is(r, AfterFailureLatched, 0)
  }

  predicate EmergencyCommitWrong(k: TxKey, first: map<Stage, Event>) {
    KindOf(k.cycle).EmergencyBrake? && Retained in first && !EmergencyCommit(k, first[Retained])
  }

  predicate HeadingOrigin(k: TxKey, e: Event) {
    Get(e, BundleGeneration) == ProducerId(k.cycle) && Has(e, ParentBundleGeneration)
  }

  predicate HeadingOriginWrong(k: TxKey, first: map<Stage, Event>) {
    KindOf(k.cycle).HeadingRebind? && HeadingAdmitted in first && !HeadingOrigin(k, first[HeadingAdmitted])
  }

  predicate BundleStage(st: Stage) {
    st.Authorize? || st.Export? || st.Activate? || st.Publish? || st.HeadingAdmitted? || st.Retained?
  }

  /** The bundle generations that the collected events name. */
  function Generations(es: seq<Event>): set<Value> {
    set e | e in es && Has(e, BundleGeneration) :: Get(e, BundleGeneration)
  }

  function BundleGenerations(t: Tx): set<Value> {
    Generations(AllAt(t, Authorize)) + Generations(AllAt(t, Export)) + Generations(AllAt(t, Activate)) +
    Generations(AllAt(t, Publish)) + Generations(AllAt(t, HeadingAdmitted)) + Generations(AllAt(t, Retained))
  }

  function BundleReasons(t: Tx, first: map<Stage, Event>): seq<Reason> {
    var generations := BundleGenerations(t);
    When(Export in first && !Has(first[Export], BundleGeneration), BundleIdentityMissing) +
    (if generations == {} then [BundleIdentityMissing]
     else When(|generations| > 1, BundleIdentityConflict))
  }

  function PublishProblems(p: Event): seq<Reason> {
    When(!Has(p, SampleId), CommandIdentityMissing) +
    When(!Present(GetOr(p, AdapterTraceSequence, TraceSequence)), TraceSequenceMissing) +
    When(!Truthy(GetOr(p, SetpointKind, SetpointBoundary)), SetpointKindMissing)
  }

  function PublishReasons(first: map<Stage, Event>): seq<Reason> {
    if Publish in first then PublishProblems(first[Publish]) else []
  }

  /** The authorization backs this publication: same sample, same bundle field, authorized at
      the execution boundary. */
  predicate Backs(a: Event, p: Event) {
    && Get(a, SampleId) == Get(p, SampleId)
    && Get(a, BundleGeneration) == Get(p, BundleGeneration)
    && DispositionOf(a) == "AUTHORIZED"
    && Get(a, AuthorizationBoundary) == BOUNDARY
    && Has(a, AuthorizationSteadyNs)
  }

  predicate WorldPresent(p: Event) {
    Has(p, WorldGeneration) && Has(p, WorldRevision) && Has(p, WorldObservationStampNs)
  }

  predicate SameWorld(a: Event, p: Event) {
    && Get(a, WorldGeneration) == Get(p, WorldGeneration) && Get(a, WorldRevision) == Get(p, WorldRevision)
    && Get(a, WorldObservationStampNs) == Get(p, WorldObservationStampNs)
  }

  function LineageProblem(authorizations: seq<Event>, p: Event): Option<Reason> {
    if !(exists a | a in authorizations :: Backs(a, p)) then Some(AuthorizationLineageMissing)
    else if !WorldPresent(p) then Some(WorldIdentityMissing)
    else if !(exists a | a in authorizations :: Backs(a, p) && SameWorld(a, p)) then Some(WorldIdentityMismatch)
    else None
  }

  function LineageReasons(authorizations: seq<Event>, publishes: seq<Event>): seq<Reason> {
    if publishes == [] then []
    else
      LineageReasons(authorizations, publishes[..|publishes| - 1]) +
      match LineageProblem(authorizations, publishes[|publishes| - 1])
      case Some(r) => [r]
      case None => []
  }

  function WithLineage(authorizations: seq<Event>, publishes: seq<Event>): seq<Event> {
    if publishes == [] then []
    else
      WithLineage(authorizations, publishes[..|publishes| - 1]) +
      if LineageProblem(authorizations, publishes[|publishes| - 1]).None? then [publishes[|publishes| - 1]] else []
  }

  function CommandReasons(k: TxKey, t: Tx, first: map<Stage, Event>): seq<Reason> {
    var required := RequiredStages(KindOf(k.cycle));
    MissingStages(first, required) + FailedStages(first, required) +
    When(EmergencyCommitWrong(k, first), EmergencyWitnessInvalid) +
    When(HeadingOriginWrong(k, first), HeadingOriginInvalid) +
    BundleReasons(t, first) + PublishReasons(first) +
    LineageReasons(AllAt(t, Authorize), AllAt(t, Publish))
  }

  // ---- what a valid transaction vouches for -----------------------------------

  /** The bundle generation a valid command refers to. */
  function GenerationOf(k: TxKey, first: map<Stage, Event>): Value {
    if Export in first then Get(first[Export], BundleGeneration) else ProducerId(k.cycle)
  }

  function WorldReferenceOf(k: TxKey, generation: Value, e: Event): WorldReference {
    WorldReference(k.runtime, k.session, k.localization, k.goal, k.request, generation,
                   Get(e, SampleId), Get(e, WorldGeneration), Get(e, WorldRevision), Get(e, WorldObservationStampNs))
  }

  /** The producer itself authorized this sample on a fully named world. */
  predicate Vouches(a: Event) {
    && DispositionOf(a) == "AUTHORIZED" && DeclaredByProducer(a)
    && Has(a, SampleId) && Has(a, BundleGeneration) && WorldPresent(a)
  }

  function AuthorizedBy(k: TxKey, authorizations: set<Event>): set<WorldReference> {
    set a | a in authorizations && Vouches(a) :: WorldReferenceOf(k, Get(a, BundleGeneration), a)
  }

  /** The producer of the bundle is witnessed by its activation or its emergency commit. */
  predicate OriginConfirmed(k: TxKey, first: map<Stage, Event>) {
    || (Activate in first && DeclaredByProducer(first[Activate]) && (Export in first || HeadingAdmitted in first))
    || (KindOf(k.cycle).EmergencyBrake? && Retained in first)
  }

  predicate OwnershipProved(k: TxKey, first: map<Stage, Event>) {
    Authorize in first && DeclaredByProducer(first[Authorize]) && OriginConfirmed(k, first)
  }

  /** The owner was taken from the one authorization of the exact sample. */
  predicate ExactlyAuthorized(p: Event) {
    Get(p, BundleOwnerAttribution) == Text("exact_authorization")
  }

  function OwnedBy(k: TxKey, first: map<Stage, Event>, publishes: set<Event>): set<WorldReference> {
    if OwnershipProved(k, first)
    then set p | p in publishes && ExactlyAuthorized(p) :: WorldReferenceOf(k, GenerationOf(k, first), p)
    else {}
  }

  function ClassifyExecuted(k: TxKey, t: Tx, first: map<Stage, Event>, reasons: seq<Reason>): Verdict {
    var final := reasons + CommandReasons(k, t, first);
    if final == [] then
      var publishes := WithLineage(AllAt(t, Authorize), AllAt(t, Publish));
      Verdict(Valid, None, Resolved, final, publishes, OwnedBy(k, first, set p | p in publishes),
              AuthorizedBy(k, set a | a in AllAt(t, Authorize)))
    else Verdict(Incomplete, None, if ConflictingEvidence in final then ConflictingOutcome else MissingEvidence, final, [])
  }

  function ClassifyCommand(k: TxKey, t: Tx, first: map<Stage, Event>, reasons: seq<Reason>): Verdict {
    if SupersessionProved(k, first) && reasons == [] then Settle(ValidTerminal, SupersededPending, SupersededOutcome, reasons)
    else if EmergencyProved(first) && reasons == [] then Settle(ValidTerminal, EmergencyCommitted, Resolved, reasons)
    else if RetryEnding(first).Some? && reasons == [] then
      Settle(ValidTerminal, RetryEnding(first).value.0, RetryEnding(first).value.1, reasons)
    else if Request in first && TerminalReject(DispositionOf(first[Request])) then RejectVerdict(DispositionOf(first[Request]), reasons)
    else if Authorize in first && TerminalReject(DispositionOf(first[Authorize])) then RejectVerdict(DispositionOf(first[Authorize]), reasons)
    else if RetainedEnding(first).Some? && reasons == [] then
      Settle(ValidTerminal, RetainedEnding(first).value.0, RetainedEnding(first).value.1, reasons)
    else ClassifyExecuted(k, t, first, reasons)
  }

  /** The verdict on a transaction, for given first events of its stages. */
  function Judged(k: TxKey, t: Tx, first: map<Stage, Event>): Verdict {
    var reasons := t.reasons + When(!IdentityComplete(k), IdentityMissing);
    match KindOf(k.cycle)
    case NoExecutionSignal => ClassifyNoExecution(k, first, reasons)
    case MonitorKind => ClassifyMonitor(first, reasons)
    case _ => ClassifyCommand(k, t, first, reasons)
  }

  /** The verdict on a transaction as it was collected. */
  function Classify(k: TxKey, t: Tx, activations: seq<Event>): Verdict {
    Judged(k, t, WithActivation(k, t.first, activations))
  }

  // ---- fail closed ------------------------------------------------------------

  /** A transaction is settled exactly when its reason list is empty; the list keeps every
      reason collected before, so contradictory or unowned evidence is never settled. */
  lemma SettledExactlyWithoutReasons(k: TxKey, t: Tx, activations: seq<Event>)
    ensures var v := Classify(k, t, activations);
            && (SettledStatus(v.status) <==> v.reasons == [])
            && t.reasons <= v.reasons
            && (v.publishes != [] ==> v.status.Valid?)
            && (v.status.Valid? ==> v.publishes == WithLineage(AllAt(t, Authorize), AllAt(t, Publish)))
            && (!v.status.Valid? ==> v.owned == {} && v.authorized == {})
  {
    hide OwnedBy, AuthorizedBy, WithActivation, IdentityComplete, SupersessionProved, EmergencyProved, RetryEnding, RetainedEnding,
         CommandReasons, WithLineage, MonitorPreserved, MonitorStale, MonitorFailed, MonitorCommitted, MonitorWitness,
         NoExecutionWitness, DispositionOf, TerminalReject, KindOf;
  }
}
