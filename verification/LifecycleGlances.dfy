/** A condition on the recorded events themselves under which order does not matter. */
module LifecycleGlances {
  import opened Values
  import opened LifecycleEvents
  import opened LifecycleOwners
  import opened LifecycleGroups
  import opened LifecycleVerdicts
  import opened LifecycleReduction
  import opened LifecycleReadings
  import opened LifecycleArrangements
  import opened LifecycleStability

  predicate Succeeded(e: Event) {
    Successful(DispositionOf(e))
  }

  function Refusal(e: Event): Option<string> {
    if TerminalReject(DispositionOf(e)) then Some(DispositionOf(e)) else None
  }

  /** What the classification looks at in the first event of a stage. Everything else it takes
      from all events of the transaction together. */
  datatype Glance =
    | OfRequest(success: bool, refusal: Option<string>)
    | OfAuthorize(success: bool, refusal: Option<string>, withoutExecution: bool, declared: bool)
    | OfResult(refused: bool, retains: bool)
    | OfRetained(success: bool, complete: bool, preserved: bool, stale: bool, failed: bool, committed: bool,
                 kept: bool, ending: Option<(Ending, Evidence)>, commits: bool)
    | OfHeading(success: bool, origin: bool)
    | OfExport(success: bool, generation: Value)
    | OfActivate(success: bool, declared: bool)
    | OfPublish(success: bool, problems: seq<Reason>)
    | OfSupersede(proves: bool)
    | OfRetry(ending: Option<(Ending, Evidence)>)
    | OfEmergency(proves: bool)
    | OfNothing

  function GlanceAt(k: TxKey, st: Stage, e: Event): Glance {
    match st
    case Request => OfRequest(Succeeded(e), Refusal(e))
    case Authorize => OfAuthorize(Succeeded(e), Refusal(e), NoExecutionWitness(e, k), DeclaredByProducer(e))
    case Result => OfResult(ResultRefused(e), ResultRetains(e))
    case Retained =>
      OfRetained(Succeeded(e), MonitorWitness(e), MonitorPreserved(e), MonitorStale(e), MonitorFailed(e), MonitorCommitted(e),
                 IncumbentKept(e), RetainedOf(e), EmergencyCommit(k, e))
    case HeadingAdmitted => OfHeading(Succeeded(e), HeadingOrigin(k, e))
    case Export => OfExport(Succeeded(e), Get(e, BundleGeneration))
    case Activate => OfActivate(Succeeded(e), DeclaredByProducer(e))
    case Publish => OfPublish(Succeeded(e), PublishProblems(e))
    case Supersede => OfSupersede(SupersedeWitness(k, e))
    case RecoveryRetry => OfRetry(RetryOf(e))
    case PlannerEmergency => OfEmergency(EmergencyWitness(e))
    case Unknown => OfNothing
  }

  /** The choices look alike to the classification. */
  ghost predicate LookAlike(k: TxKey, r: map<Stage, Event>, q: map<Stage, Event>) {
    forall st :: (st in r <==> st in q) && (st in r ==> GlanceAt(k, st, r[st]) == GlanceAt(k, st, q[st]))
  }

  /** The stages a command must pass. */
  predicate Counted(st: Stage) {
    st.Request? || st.Retained? || st.HeadingAdmitted? || st.Authorize? || st.Export? || st.Activate? || st.Publish?
  }

  lemma SuccessLooksAlike(k: TxKey, st: Stage, a: Event, b: Event)
    requires Counted(st) && GlanceAt(k, st, a) == GlanceAt(k, st, b)
    ensures Successful(DispositionOf(a)) <==> Successful(DispositionOf(b))
  {
    hide DispositionOf, Successful, TerminalReject, NoExecutionWitness, MonitorWitness, MonitorPreserved, MonitorStale, MonitorFailed,
         MonitorCommitted, IncumbentKept, RetainedOf, EmergencyCommit, HeadingOrigin, PublishProblems, Get, SupersedeWitness,
         ResultRefused, ResultRetains, EmergencyWitness, RetryOf;
  }

  lemma {:induction false} StagesLookAlike(k: TxKey, r: map<Stage, Event>, q: map<Stage, Event>, required: seq<Stage>)
    requires LookAlike(k, r, q) && forall i | 0 <= i < |required| :: Counted(required[i])
    ensures MissingStages(r, required) == MissingStages(q, required) && FailedStages(r, required) == FailedStages(q, required)
  {
    hide DispositionOf, Successful, GlanceAt;
    if required != [] {
      StagesLookAlike(k, r, q, required[1..]);
      var st := required[0];
      if st in r { SuccessLooksAlike(k, st, r[st], q[st]); }
    }
  }

  lemma RequiredAreCounted(kind: Kind)
    ensures forall i | 0 <= i < |RequiredStages(kind)| :: Counted(RequiredStages(kind)[i])
  {
  }

  /** The glances, stage by stage. */
  lemma GlancesAgree(k: TxKey, r: map<Stage, Event>, q: map<Stage, Event>)
    requires LookAlike(k, r, q)
    ensures Retained in r ==> EmergencyCommit(k, r[Retained]) == EmergencyCommit(k, q[Retained])
    ensures Retained in r ==> IncumbentKept(r[Retained]) == IncumbentKept(q[Retained]) && RetainedOf(r[Retained]) == RetainedOf(q[Retained])
    ensures HeadingAdmitted in r ==> HeadingOrigin(k, r[HeadingAdmitted]) == HeadingOrigin(k, q[HeadingAdmitted])
    ensures Export in r ==> Get(r[Export], BundleGeneration) == Get(q[Export], BundleGeneration)
    ensures Publish in r ==> PublishProblems(r[Publish]) == PublishProblems(q[Publish])
    ensures Supersede in r ==> SupersedeWitness(k, r[Supersede]) == SupersedeWitness(k, q[Supersede])
    ensures Result in r ==> ResultRefused(r[Result]) == ResultRefused(q[Result]) && ResultRetains(r[Result]) == ResultRetains(q[Result])
    ensures PlannerEmergency in r ==> EmergencyWitness(r[PlannerEmergency]) == EmergencyWitness(q[PlannerEmergency])
    ensures RecoveryRetry in r ==> RetryOf(r[RecoveryRetry]) == RetryOf(q[RecoveryRetry])
    ensures Request in r ==> Refusal(r[Request]) == Refusal(q[Request])
    ensures Authorize in r ==> Refusal(r[Authorize]) == Refusal(q[Authorize])
    ensures Authorize in r ==> DeclaredByProducer(r[Authorize]) == DeclaredByProducer(q[Authorize])
    ensures Activate in r ==> DeclaredByProducer(r[Activate]) == DeclaredByProducer(q[Activate])
  {
    hide DeclaredByProducer, Refusal, Succeeded, NoExecutionWitness, MonitorWitness, MonitorPreserved, MonitorStale, MonitorFailed,
         MonitorCommitted, IncumbentKept, RetainedOf, EmergencyCommit, HeadingOrigin, PublishProblems, Get, SupersedeWitness,
         ResultRefused, ResultRetains, EmergencyWitness, RetryOf;
  }

  lemma OwnershipLooksAlike(k: TxKey, r: map<Stage, Event>, q: map<Stage, Event>, publishes: set<Event>)
    requires LookAlike(k, r, q)
    ensures OwnershipProved(k, r) == OwnershipProved(k, q) && GenerationOf(k, r) == GenerationOf(k, q)
    ensures OwnedBy(k, r, publishes) == OwnedBy(k, q, publishes)
  {
    hide GlanceAt, EmergencyCommit, HeadingOrigin, PublishProblems, Get, KindOf, DeclaredByProducer, Refusal, IncumbentKept, RetainedOf, SupersedeWitness,
         ResultRefused, ResultRetains, EmergencyWitness, RetryOf, ExactlyAuthorized;
    GlancesAgree(k, r, q);
  }

  lemma CommandReasonsLookAlike(k: TxKey, t: Tx, r: map<Stage, Event>, q: map<Stage, Event>)
    requires LookAlike(k, r, q)
    ensures CommandReasons(k, t, r) == CommandReasons(k, t, q)
  {
    hide GlanceAt, EmergencyCommit, HeadingOrigin, PublishProblems, Get, MissingStages, FailedStages, LineageReasons, BundleGenerations,
         AllAt, KindOf, RequiredStages, Present, Refusal, IncumbentKept, RetainedOf, SupersedeWitness, ResultRefused, ResultRetains, EmergencyWitness, RetryOf;
    RequiredAreCounted(KindOf(k.cycle));
    StagesLookAlike(k, r, q, RequiredStages(KindOf(k.cycle)));
    GlancesAgree(k, r, q);
  }

  lemma CommandLooksAlike(k: TxKey, t: Tx, r: map<Stage, Event>, q: map<Stage, Event>, reasons: seq<Reason>)
    requires LookAlike(k, r, q)
    ensures ClassifyCommand(k, t, r, reasons) == ClassifyCommand(k, t, q, reasons)
  {
    hide GlanceAt, DispositionOf, TerminalReject, IncumbentKept, RetainedOf, EmergencyCommit, HeadingOrigin, PublishProblems, Get,
         CommandReasons, SupersedeWitness, ResultRefused, ResultRetains, EmergencyWitness, RetryOf, WithLineage, AllAt,
         DeclaredByProducer, OwnedBy, AuthorizedBy, OwnershipProved;
    CommandReasonsLookAlike(k, t, r, q);
    GlancesAgree(k, r, q);
    OwnershipLooksAlike(k, r, q, set p | p in WithLineage(AllAt(t, Authorize), AllAt(t, Publish)));
  }

  /** Choices that look alike are judged alike. */
  lemma GlancesDecide(k: TxKey, t: Tx, r: map<Stage, Event>, q: map<Stage, Event>)
    requires LookAlike(k, r, q)
    ensures Judged(k, t, r) == Judged(k, t, q)
  {
    hide DispositionOf, Successful, TerminalReject, NoExecutionWitness, MonitorWitness, MonitorPreserved, MonitorStale, MonitorFailed,
         MonitorCommitted, IncumbentKept, RetainedOf, EmergencyCommit, HeadingOrigin, PublishProblems, Get, ClassifyCommand, KindOf, IdentityComplete;
    var reasons := t.reasons + When(!IdentityComplete(k), IdentityMissing);
    CommandLooksAlike(k, t, r, q, reasons);
    assert Authorize in r ==> GlanceAt(k, Authorize, r[Authorize]) == GlanceAt(k, Authorize, q[Authorize]);
    assert Retained in r ==> GlanceAt(k, Retained, r[Retained]) == GlanceAt(k, Retained, q[Retained]);
  }

  // ---- unambiguous recordings -------------------------------------------------

  predicate SamePlace(a: Event, b: Event) {
    Grouped(a) && Grouped(b) && KeyOf(a) == KeyOf(b) && StageOf(a) == StageOf(b)
  }

  /** The event can come first at its stage: it was recorded, or no recorded event is there. */
  ghost predicate CanLead(events: seq<Event>, trace: seq<Event>, e: Event) {
    Recorded(events, trace, e) || forall x | Recorded(events, trace, x) :: !SamePlace(x, e)
  }

  predicate SameIdentity(a: Event, b: Event) {
    Grouped(a) && Grouped(b) && IdOf(a) == IdOf(b)
  }

  /** The event can be the one kept of its identity. */
  ghost predicate CanBeKept(events: seq<Event>, trace: seq<Event>, e: Event) {
    Recorded(events, trace, e) || forall x | Recorded(events, trace, x) :: !SameIdentity(x, e)
  }

  /** What a kept authorization or publication adds to the claims of its transaction. */
  predicate Claims(e: Event) {
    if StageOf(e) == Authorize then Vouches(e) else ExactlyAuthorized(e)
  }

  /** The events of one transaction and stage look alike, however many they are and whatever
      else they say; so do the activations of one bundle; and repetitions of one authorization
      or publication make the same claim. */
  ghost predicate Unambiguous(events: seq<Event>, trace: seq<Event>) {
    var seen := Seen(events, trace);
    && (forall a, b | a in seen && b in seen && SamePlace(a, b) && CanLead(events, trace, a) && CanLead(events, trace, b) ::
          GlanceAt(KeyOf(a), StageOf(a), a) == GlanceAt(KeyOf(a), StageOf(a), b))
    && (forall a, b | a in seen && b in seen && StageOf(a) == Activate && StageOf(b) == Activate && BundleKeyOf(a) == BundleKeyOf(b) ::
          Succeeded(a) == Succeeded(b) && DeclaredByProducer(a) == DeclaredByProducer(b))
    && (forall a, b | a in seen && b in seen && SameIdentity(a, b) && Signature(a) == Signature(b) && CountsAll(StageOf(a)) &&
                      CanBeKept(events, trace, a) && CanBeKept(events, trace, b) ::
          Claims(a) == Claims(b))
  }

  lemma ChosenCanLead(events: seq<Event>, trace: seq<Event>, k: TxKey, c: Choice, st: Stage)
    requires Possible(events, trace, k, c) && st in c.first && IsMember(k, st, c.first[st])
    ensures CanLead(events, trace, c.first[st])
  {
    hide Grouped, KeyOf, StageOf, Recorded, Reading, Seen, Readable;
    assert Chosen(c, Leads(st)) == Some(c.first[st]);
    forall x | Recorded(events, trace, x) && SamePlace(x, c.first[st]) ensures Recorded(events, trace, c.first[st]) {
      MemberIsReadable(Seen(events, trace), k, c, st, x);
    }
  }

  lemma ChosenCanBeKept(events: seq<Event>, trace: seq<Event>, k: TxKey, c: Choice, id: EventId)
    requires Possible(events, trace, k, c) && id in c.kept
    ensures c.kept[id] in Seen(events, trace) && HasId(k, id, c.kept[id]) && CanBeKept(events, trace, c.kept[id])
  {
    hide Grouped, IdOf, Recorded, Seen;
    var e := c.kept[id];
    assert Chosen(c, Keeps(id)) == Some(e);
    assert Readable(Seen(events, trace), k, ExportGeneration(c.first), Keeps(id), e);
    forall x | Recorded(events, trace, x) && SameIdentity(x, e) ensures Recorded(events, trace, e) {
      assert Readable(Seen(events, trace), k, ExportGeneration(c.first), Keeps(id), x);
    }
  }

  lemma MemberIsReadable(all: set<Event>, k: TxKey, c: Choice, st: Stage, x: Event)
    requires Reading(all, k, c) && st in c.first && IsMember(k, st, c.first[st]) && IsMember(k, st, x)
    ensures Readable(all, k, ExportGeneration(c.first), Leads(st), x)
  {
    hide IsMember, IsFitting, IdOf;
    assert Chosen(c, Leads(st)) == Some(c.first[st]);
    assert c.first[st] in all;
  }

  lemma LeaderRead(all: set<Event>, k: TxKey, c: Choice, st: Stage)
    requires Reading(all, k, c) && st in c.first
    ensures c.first[st] in all && Readable(all, k, ExportGeneration(c.first), Leads(st), c.first[st])
  {
    hide Readable, IdOf;
    assert Chosen(c, Leads(st)) == Some(c.first[st]);
  }

  lemma MembersLookAlike(events: seq<Event>, trace: seq<Event>, k: TxKey, r: Choice, q: Choice, st: Stage)
    requires Unambiguous(events, trace) && Possible(events, trace, k, r) && Possible(events, trace, k, q)
    requires st in r.first && st in q.first && IsMember(k, st, r.first[st]) && IsMember(k, st, q.first[st])
    ensures GlanceAt(k, st, r.first[st]) == GlanceAt(k, st, q.first[st])
  {
    hide Grouped, KeyOf, StageOf, Recorded, Readable, Seen, GlanceAt, CanLead, Succeeded, BundleKeyOf, ExportGeneration, DeclaredByProducer, CanBeKept,
         Claims, Signature, SameIdentity, Reading;
    ChosenCanLead(events, trace, k, r, st);
    ChosenCanLead(events, trace, k, q, st);
    LeaderRead(Seen(events, trace), k, r, st);
    LeaderRead(Seen(events, trace), k, q, st);
    assert SamePlace(r.first[st], q.first[st]);
  }

  lemma FittingLookAlike(events: seq<Event>, trace: seq<Event>, k: TxKey, generation: Value, a: Event, b: Event)
    requires Unambiguous(events, trace) && a in Seen(events, trace) && b in Seen(events, trace)
    requires IsFitting(k, generation, a) && IsFitting(k, generation, b)
    ensures GlanceAt(k, Activate, a) == GlanceAt(k, Activate, b)
  {
    hide Get, Succeeded, Seen, StageOf, CanLead, SamePlace, DeclaredByProducer, CanBeKept, Claims, Signature, SameIdentity;
    assert BundleKeyOf(a) == BundleKeyOf(b);
  }

  lemma ReadingStage(all: set<Event>, k: TxKey, r: Choice, q: Choice, st: Stage)
    requires Reading(all, k, r) && Reading(all, k, q) && (st == Activate ==> ExportGeneration(r.first) == ExportGeneration(q.first))
    ensures st in r.first ==> st in q.first
  {
    hide IsMember, IsFitting, IdOf;
    if st in r.first {
      LeaderRead(all, k, r, st);
      assert Readable(all, k, ExportGeneration(q.first), Leads(st), r.first[st]);
      assert Chosen(q, Leads(st)).Some?;
    }
  }

  lemma ExportsLookAlike(events: seq<Event>, trace: seq<Event>, k: TxKey, r: Choice, q: Choice)
    requires Unambiguous(events, trace) && Possible(events, trace, k, r) && Possible(events, trace, k, q)
    ensures ExportGeneration(r.first) == ExportGeneration(q.first)
  {
    hide Unambiguous, Seen, Get, Recorded, IsMember, Reading;
    ReadingStage(Seen(events, trace), k, r, q, Export);
    ReadingStage(Seen(events, trace), k, q, r, Export);
    if Export in r.first {
      LeaderRead(Seen(events, trace), k, r, Export);
      LeaderRead(Seen(events, trace), k, q, Export);
      MembersLookAlike(events, trace, k, r, q, Export);
    }
  }

  lemma PossibleLookAlike(events: seq<Event>, trace: seq<Event>, k: TxKey, r: Choice, q: Choice)
    requires Unambiguous(events, trace) && Possible(events, trace, k, r) && Possible(events, trace, k, q)
    ensures LookAlike(k, r.first, q.first)
  {
    hide Unambiguous, Seen, Recorded, IsMember, IsFitting, GlanceAt, ExportGeneration, Reading;
    var all := Seen(events, trace);
    ExportsLookAlike(events, trace, k, r, q);
    forall st ensures (st in r.first <==> st in q.first) && (st in r.first ==> GlanceAt(k, st, r.first[st]) == GlanceAt(k, st, q.first[st])) {
      ReadingStage(all, k, r, q, st);
      ReadingStage(all, k, q, r, st);
      if st in r.first {
        LeaderRead(all, k, r, st);
        LeaderRead(all, k, q, st);
        if st == Activate && !(exists x | x in all :: IsMember(k, Activate, x)) {
          FittingLookAlike(events, trace, k, ExportGeneration(r.first), r.first[st], q.first[st]);
        } else {
          MembersLookAlike(events, trace, k, r, q, st);
        }
      }
    }
  }

  // ---- the events kept --------------------------------------------------------

  lemma KeptIds(events: seq<Event>, trace: seq<Event>, k: TxKey, r: Choice, q: Choice, id: EventId)
    requires Possible(events, trace, k, r) && Possible(events, trace, k, q) && id in r.kept
    ensures id in q.kept
  {
    hide Seen, Recorded, HasId, IdOf;
    ChosenCanBeKept(events, trace, k, r, id);
    assert Readable(Seen(events, trace), k, ExportGeneration(q.first), Keeps(id), r.kept[id]);
    assert Chosen(q, Keeps(id)).Some?;
  }

  lemma SignatureFixesReference(k: TxKey, generation: Value, a: Event, b: Event)
    requires Signature(a) == Signature(b)
    ensures WorldReferenceOf(k, generation, a) == WorldReferenceOf(k, generation, b) && Get(a, BundleGeneration) == Get(b, BundleGeneration)
  {
    hide Get, Signature;
    SignatureReads(a, b);
  }

  lemma OneSignature(all: set<Event>, k: TxKey, a: Event, b: Event)
    requires !Quarrel(all, k) && a in all && b in all && SameIdentity(a, b) && KeyOf(a) == k
    ensures Signature(a) == Signature(b)
  {
    hide Grouped, KeyOf, IdOf, Signature;
    assert Contradict(a, b) <==> Signature(a) != Signature(b);
  }

  /** Events kept for one identity make the same claim. */
  lemma KeptClaimAlike(events: seq<Event>, trace: seq<Event>, k: TxKey, r: Choice, q: Choice, id: EventId)
    requires Unambiguous(events, trace) && Possible(events, trace, k, r) && Possible(events, trace, k, q) && id in r.kept && id in q.kept
    requires !Quarrel(Seen(events, trace), k)
    ensures Signature(r.kept[id]) == Signature(q.kept[id]) && Claims(r.kept[id]) == Claims(q.kept[id])
    ensures StageOf(r.kept[id]) == id.stage && StageOf(q.kept[id]) == id.stage
  {
    hide Recorded, Seen, Signature, Claims, Possible, HasId, IdOf, Grouped, KeyOf, StageOf, GlanceAt, CanLead, Succeeded, BundleKeyOf, CanBeKept, DeclaredByProducer, SamePlace;
    var a, b := r.kept[id], q.kept[id];
    ChosenCanBeKept(events, trace, k, r, id);
    ChosenCanBeKept(events, trace, k, q, id);
    HasIdIs(k, id, a);
    HasIdIs(k, id, b);
    assert SameIdentity(a, b);
    OneSignature(Seen(events, trace), k, a, b);
  }

  ghost predicate KeptAlike(k: TxKey, r: Choice, q: Choice) {
    forall id | id in r.kept || id in q.kept :: id in r.kept && id in q.kept &&
      Signature(r.kept[id]) == Signature(q.kept[id]) && Claims(r.kept[id]) == Claims(q.kept[id]) &&
      StageOf(r.kept[id]) == id.stage && StageOf(q.kept[id]) == id.stage
  }

  lemma KeptClaimsInclude(k: TxKey, r: Choice, q: Choice)
    requires KeptAlike(k, r, q)
    ensures AuthorizedBy(k, KeptAt(r, Authorize)) <= AuthorizedBy(k, KeptAt(q, Authorize))
    ensures OwnedBy(k, r.first, KeptAt(r, Publish)) <= OwnedBy(k, r.first, KeptAt(q, Publish))
  {
    hide Signature, StageOf, Vouches, ExactlyAuthorized, Get, OwnershipProved, GenerationOf, WorldReferenceOf;
    forall x | x in AuthorizedBy(k, KeptAt(r, Authorize)) ensures x in AuthorizedBy(k, KeptAt(q, Authorize)) {
      var a :| a in KeptAt(r, Authorize) && Vouches(a) && x == WorldReferenceOf(k, Get(a, BundleGeneration), a);
      var id :| id in r.kept && id.stage == Authorize && r.kept[id] == a;
      SignatureFixesReference(k, Get(a, BundleGeneration), a, q.kept[id]);
      assert q.kept[id] in KeptAt(q, Authorize);
    }
    forall x | x in OwnedBy(k, r.first, KeptAt(r, Publish)) ensures x in OwnedBy(k, r.first, KeptAt(q, Publish)) {
      var p :| p in KeptAt(r, Publish) && ExactlyAuthorized(p) && x == WorldReferenceOf(k, GenerationOf(k, r.first), p);
      var id :| id in r.kept && id.stage == Publish && r.kept[id] == p;
      SignatureFixesReference(k, GenerationOf(k, r.first), p, q.kept[id]);
      assert q.kept[id] in KeptAt(q, Publish);
    }
  }

  lemma ValidIsQuiet(es: seq<Event>, k: TxKey, first: map<Stage, Event>)
    requires k in JoinAll(es).txs && Judged(k, JoinAll(es).txs[k], first).status.Valid?
    ensures !Quarrel(Elems(es), k)
  {
    hide JoinAll, Judged, Quarrel, Elems;
    ConflictExactly(es);
    ValidHasNoReasons(k, JoinAll(es).txs[k], first);
  }

  lemma ValidHasNoReasons(k: TxKey, t: Tx, first: map<Stage, Event>)
    requires Judged(k, t, first).status.Valid?
    ensures t.reasons == []
  {
    hide IdentityComplete, SupersessionProved, EmergencyProved, RetryEnding, RetainedEnding, CommandReasons, WithLineage,
         MonitorPreserved, MonitorStale, MonitorFailed, MonitorCommitted, MonitorWitness, NoExecutionWitness, DispositionOf,
         TerminalReject, KindOf, OwnedBy, AuthorizedBy, AllAt;
  }

  lemma KeptLookAlike(events: seq<Event>, trace: seq<Event>, k: TxKey, r: Choice, q: Choice)
    requires Unambiguous(events, trace) && Possible(events, trace, k, r) && Possible(events, trace, k, q) && !Quarrel(Seen(events, trace), k)
    ensures KeptAlike(k, r, q) && KeptAlike(k, q, r)
  {
    hide Unambiguous, Possible, Quarrel, Seen, Signature, Claims, StageOf;
    forall id | id in r.kept || id in q.kept
      ensures id in r.kept && id in q.kept && Signature(r.kept[id]) == Signature(q.kept[id]) && Claims(r.kept[id]) == Claims(q.kept[id])
      ensures StageOf(r.kept[id]) == id.stage && StageOf(q.kept[id]) == id.stage
    {
      if id in r.kept { KeptIds(events, trace, k, r, q, id); } else { KeptIds(events, trace, k, q, r, id); }
      KeptClaimAlike(events, trace, k, r, q, id);
    }
  }

  /** Possible choices of an unambiguous recording are judged alike. */
  lemma UnambiguousChoices(events: seq<Event>, trace: seq<Event>, k: TxKey, r: Choice, q: Choice)
    requires Unambiguous(events, trace) && k in JoinAll(Annotated(events, trace)).txs && Possible(events, trace, k, r) && Possible(events, trace, k, q)
    ensures JudgedBy(k, JoinAll(Annotated(events, trace)).txs[k], r) == JudgedBy(k, JoinAll(Annotated(events, trace)).txs[k], q)
  {
    hide Unambiguous, Possible, Annotated, JoinAll, Judged, LookAlike, KeptAt, OwnedBy, AuthorizedBy, KeptAlike, Quarrel, Elems;
    var t := JoinAll(Annotated(events, trace)).txs[k];
    PossibleLookAlike(events, trace, k, r, q);
    GlancesDecide(k, t, r.first, q.first);
    if Judged(k, t, r.first).status.Valid? {
      ValidIsQuiet(Annotated(events, trace), k, r.first);
      KeptLookAlike(events, trace, k, r, q);
      KeptClaimsInclude(k, r, q);
      KeptClaimsInclude(k, q, r);
      OwnershipLooksAlike(k, r.first, q.first, KeptAt(r, Publish));
      OwnershipLooksAlike(k, r.first, q.first, KeptAt(q, Publish));
    }
  }

  /** When the events that can come first at a stage look alike, and repetitions make the same
      claim, the status, the reasons, the verdicts and all three sets of references are the same
      in every order of the recording. Transactions may hold any number of authorizations and
      publications. */
  lemma UnambiguousReductionIgnoresOrder(events: seq<Event>, trace: seq<Event>)
    requires Unambiguous(events, trace)
    ensures IgnoresOrder(events, trace)
  {
    hide Unambiguous, Possible, Annotated, JoinAll, IgnoresOrder, SameCore, JudgedBy;
    var es := Annotated(events, trace);
    forall k, r, q | k in JoinAll(es).txs && Possible(events, trace, k, r) && Possible(events, trace, k, q)
      ensures SameVerdict(JudgedBy(k, JoinAll(es).txs[k], r), JudgedBy(k, JoinAll(es).txs[k], q))
    {
      UnambiguousChoices(events, trace, k, r, q);
      CoreOfItself(JudgedBy(k, JoinAll(es).txs[k], r));
    }
    OrderIndependentExactly(events, trace);
  }

  lemma CoreOfItself(v: Verdict)
    ensures SameCore(v, v)
  {
    hide Samples;
  }
}
