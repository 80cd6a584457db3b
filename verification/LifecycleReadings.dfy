/** What a verdict depends on: the signatures collected in a transaction, and one event per
    stage, the first to be recorded. */
module LifecycleReadings {
  import opened Values
  import opened LifecycleEvents
  import opened LifecycleGroups
  import opened LifecycleVerdicts
  import opened LifecycleReduction
  import opened LifecycleOrder

  // ---- lineage by signature ---------------------------------------------------

  lemma {:induction false} DigitFirst(n: nat)
    ensures Digits(n) != "" && '0' <= Digits(n)[0] <= '9'
  {
    if n >= 10 { DigitFirst(n / 10); }
  }

  lemma UpperFirst(s: string)
    requires s != "" && !('a' <= s[0] <= 'z')
    ensures Upper(s) != "" && Upper(s)[0] == s[0]
  {
  }

  lemma OnlyTextIsAuthorized(v: Value)
    requires Upper(Str(v)) == "AUTHORIZED"
    ensures v.Text?
  {
    if v.Num? {
      var n := v.r.Floor;
      DigitFirst(if n < 0 then -n else n);
      UpperFirst(Str(v));
    } else if v.Null? {
      UpperFirst("None");
    } else if v.Flag? {
      UpperFirst("True");
      UpperFirst("False");
    } else if v.Items? {
      UpperFirst("[*]");
    }
  }

  predicate Authorized(e: Event) {
    DispositionOf(e) == "AUTHORIZED"
  }

  lemma AuthorizedBySignature(a: Event, b: Event)
    requires Get(a, Disposition) == Get(b, Disposition) && Authorized(a)
    ensures Authorized(b)
  {
    hide Str, Upper;
    OnlyTextIsAuthorized(a[Disposition]);
  }

  /** The signature determines everything the lineage check reads of an event. */
  lemma SignatureReads(a: Event, b: Event)
    requires Signature(a) == Signature(b)
    ensures Get(a, SampleId) == Get(b, SampleId) && Get(a, BundleGeneration) == Get(b, BundleGeneration)
    ensures Get(a, AuthorizationBoundary) == Get(b, AuthorizationBoundary) && Get(a, AuthorizationSteadyNs) == Get(b, AuthorizationSteadyNs)
    ensures SameWorld(a, b) && (Authorized(a) <==> Authorized(b))
  {
    hide Get, Authorized;
    var x, y := Signature(a), Signature(b);
    assert x[0] == y[0] && x[9] == y[9] && x[10] == y[10] && x[14] == y[14] && x[15] == y[15] && x[16] == y[16] && x[17] == y[17] && x[18] == y[18];
    if Authorized(a) { AuthorizedBySignature(a, b); }
    if Authorized(b) { AuthorizedBySignature(b, a); }
  }

  ghost function Signatures(es: seq<Event>): set<seq<Value>> {
    set e | e in es :: Signature(e)
  }

  lemma BacksBySignature(a: Event, b: Event, p: Event, q: Event)
    requires Signature(a) == Signature(b) && Signature(p) == Signature(q)
    ensures Backs(a, p) <==> Backs(b, q)
    ensures SameWorld(a, p) <==> SameWorld(b, q)
    ensures WorldPresent(p) <==> WorldPresent(q)
  {
    SignatureReads(a, b);
    SignatureReads(p, q);
    hide Get, DispositionOf, Signature;
  }

  lemma Counterpart(es: seq<Event>, fs: seq<Event>, e: Event) returns (f: Event)
    requires Signatures(es) == Signatures(fs) && e in es
    ensures f in fs && Signature(f) == Signature(e)
  {
    hide Signature;
    assert Signature(e) in Signatures(fs);
    f :| f in fs && Signature(f) == Signature(e);
  }

  ghost predicate SomeBacks(authorizations: seq<Event>, p: Event) {
    exists a | a in authorizations :: Backs(a, p)
  }

  ghost predicate SomeBacksInWorld(authorizations: seq<Event>, p: Event) {
    exists a | a in authorizations :: Backs(a, p) && SameWorld(a, p)
  }

  lemma BackedAlike(es: seq<Event>, fs: seq<Event>, p: Event, q: Event)
    requires Signatures(es) == Signatures(fs) && Signature(p) == Signature(q)
    ensures SomeBacks(es, p) ==> SomeBacks(fs, q)
    ensures SomeBacksInWorld(es, p) ==> SomeBacksInWorld(fs, q)
  {
    hide Backs, SameWorld, Signature, Signatures;
    if SomeBacks(es, p) {
      var a :| a in es && Backs(a, p);
      var b := Counterpart(es, fs, a);
      BacksBySignature(a, b, p, q);
    }
    if SomeBacksInWorld(es, p) {
      var a :| a in es && Backs(a, p) && SameWorld(a, p);
      var b := Counterpart(es, fs, a);
      BacksBySignature(a, b, p, q);
    }
  }

  lemma LineageBySignature(es: seq<Event>, fs: seq<Event>, p: Event, q: Event)
    requires Signatures(es) == Signatures(fs) && Signature(p) == Signature(q)
    ensures LineageProblem(es, p) == LineageProblem(fs, q)
  {
    BackedAlike(es, fs, p, q);
    BackedAlike(fs, es, q, p);
    BacksBySignature(p, q, p, q);
    hide Backs, SameWorld, Signature, Signatures, WorldPresent;
  }

  lemma {:induction false} LineageReasonMembers(authorizations: seq<Event>, ps: seq<Event>)
    ensures forall r :: r in LineageReasons(authorizations, ps) <==> exists p | p in ps :: LineageProblem(authorizations, p) == Some(r)
  {
    hide LineageProblem;
    if ps != [] {
      var n := |ps| - 1;
      LineageReasonMembers(authorizations, ps[..n]);
      assert ps == ps[..n] + [ps[n]];
      assert ps[n] in ps;
    }
  }

  lemma LineageReasonsAlike(es: seq<Event>, fs: seq<Event>, ps: seq<Event>, qs: seq<Event>, r: Reason)
    requires Signatures(es) == Signatures(fs) && Signatures(ps) == Signatures(qs) && r in LineageReasons(es, ps)
    ensures r in LineageReasons(fs, qs)
  {
    LineageReasonMembers(es, ps);
    LineageReasonMembers(fs, qs);
    hide LineageReasons, LineageProblem, Signatures, Signature;
    var p :| p in ps && LineageProblem(es, p) == Some(r);
    var q := Counterpart(ps, qs, p);
    LineageBySignature(es, fs, p, q);
  }

  /** The samples of the publications. */
  function Samples(ps: seq<Event>): set<Value> {
    set p | p in ps :: Get(p, SampleId)
  }

  lemma LineageSamplesAlike(es: seq<Event>, fs: seq<Event>, ps: seq<Event>, qs: seq<Event>)
    requires Signatures(es) == Signatures(fs) && Signatures(ps) == Signatures(qs)
    ensures Samples(WithLineage(es, ps)) <= Samples(WithLineage(fs, qs))
  {
    LineageMembers(es, ps);
    LineageMembers(fs, qs);
    hide WithLineage, LineageProblem, Signatures, Signature, Get;
    forall v | v in Samples(WithLineage(es, ps)) ensures v in Samples(WithLineage(fs, qs)) {
      var p :| p in WithLineage(es, ps) && Get(p, SampleId) == v;
      var q := Counterpart(ps, qs, p);
      LineageBySignature(es, fs, p, q);
      SignatureReads(p, q);
    }
  }

  lemma GenerationsAlike(es: seq<Event>, fs: seq<Event>)
    requires Signatures(es) == Signatures(fs)
    ensures Generations(es) <= Generations(fs)
  {
    hide Signatures, Signature, Get;
    forall v | v in Generations(es) ensures v in Generations(fs) {
      var e :| e in es && Has(e, BundleGeneration) && Get(e, BundleGeneration) == v;
      var f := Counterpart(es, fs, e);
      SignatureReads(e, f);
    }
  }

  // ---- verdicts on the same evidence ------------------------------------------

  /** The transactions hold the same signatures at each stage and the same reasons. */
  ghost predicate SameEvidence(t: Tx, u: Tx) {
    && (forall st :: Signatures(AllAt(t, st)) == Signatures(AllAt(u, st)))
    && (forall r :: r in t.reasons <==> r in u.reasons)
  }

  /** Verdicts that differ at most in the order of reasons and in which of the equal
      observations of a publication they hold. */
  ghost predicate SameCore(v: Verdict, w: Verdict) {
    && v.status == w.status && v.ending == w.ending && v.evidence == w.evidence
    && (forall r :: r in v.reasons <==> r in w.reasons)
    && Samples(v.publishes) == Samples(w.publishes)
  }

  /** The same in what they report as owned and authorized as well. */
  ghost predicate SameVerdict(v: Verdict, w: Verdict) {
    SameCore(v, w) && v.owned == w.owned && v.authorized == w.authorized
  }

  lemma GenerationsAgree(t: Tx, u: Tx)
    requires SameEvidence(t, u)
    ensures BundleGenerations(t) == BundleGenerations(u)
  {
    hide Signatures, AllAt, Generations;
    forall st ensures Generations(AllAt(t, st)) == Generations(AllAt(u, st)) {
      GenerationsAlike(AllAt(t, st), AllAt(u, st));
      GenerationsAlike(AllAt(u, st), AllAt(t, st));
    }
  }

  lemma CommandReasonsAgree(k: TxKey, t: Tx, u: Tx, first: map<Stage, Event>)
    requires SameEvidence(t, u)
    ensures forall r :: r in CommandReasons(k, t, first) <==> r in CommandReasons(k, u, first)
  {
    GenerationsAgree(t, u);
    assert BundleReasons(t, first) == BundleReasons(u, first);
    hide BundleReasons, LineageReasons, MissingStages, FailedStages, PublishReasons, EmergencyCommitWrong, HeadingOriginWrong, RequiredStages, AllAt, When, Signatures;
    var a := MissingStages(first, RequiredStages(KindOf(k.cycle))) + FailedStages(first, RequiredStages(KindOf(k.cycle))) +
      When(EmergencyCommitWrong(k, first), EmergencyWitnessInvalid) +
      When(HeadingOriginWrong(k, first), HeadingOriginInvalid) +
      BundleReasons(t, first) + PublishReasons(first);
    var x, y := LineageReasons(AllAt(t, Authorize), AllAt(t, Publish)), LineageReasons(AllAt(u, Authorize), AllAt(u, Publish));
    forall r ensures r in x <==> r in y {
      if r in x { LineageReasonsAlike(AllAt(t, Authorize), AllAt(u, Authorize), AllAt(t, Publish), AllAt(u, Publish), r); }
      if r in y { LineageReasonsAlike(AllAt(u, Authorize), AllAt(t, Authorize), AllAt(u, Publish), AllAt(t, Publish), r); }
    }
    assert CommandReasons(k, t, first) == a + x;
    assert CommandReasons(k, u, first) == a + y;
  }

  lemma EmptyBySet(a: seq<Reason>, b: seq<Reason>)
    requires forall r :: r in a <==> r in b
    ensures a == [] <==> b == []
  {
    if a != [] { assert a[0] in b; }
    if b != [] { assert b[0] in a; }
  }

  /** The executed case, in terms of the reasons and lineage it is given. */
  lemma ExecutedVerdict(k: TxKey, t: Tx, first: map<Stage, Event>, p: seq<Reason>)
    ensures var v := ClassifyExecuted(k, t, first, p);
            var final := p + CommandReasons(k, t, first);
            && v.reasons == final && v.ending.None?
            && (final == [] ==> v.status == Valid && v.evidence == Resolved && v.publishes == WithLineage(AllAt(t, Authorize), AllAt(t, Publish)))
            && (final != [] ==> v.status == Incomplete && v.publishes == [] && v.evidence == if ConflictingEvidence in final then ConflictingOutcome else MissingEvidence)
  {
    hide CommandReasons, WithLineage, AllAt;
  }

  lemma ExecutedAgrees(k: TxKey, t: Tx, u: Tx, first: map<Stage, Event>, p: seq<Reason>, q: seq<Reason>)
    requires SameEvidence(t, u) && forall r :: r in p <==> r in q
    ensures SameCore(ClassifyExecuted(k, t, first, p), ClassifyExecuted(k, u, first, q))
  {
    hide CommandReasons, WithLineage, AllAt, ClassifyExecuted, Signatures, Samples;
    CommandReasonsAgree(k, t, u, first);
    LineageSamplesAlike(AllAt(t, Authorize), AllAt(u, Authorize), AllAt(t, Publish), AllAt(u, Publish));
    LineageSamplesAlike(AllAt(u, Authorize), AllAt(t, Authorize), AllAt(u, Publish), AllAt(t, Publish));
    EmptyBySet(p + CommandReasons(k, t, first), q + CommandReasons(k, u, first));
    ExecutedVerdict(k, t, first, p);
    ExecutedVerdict(k, u, first, q);
  }

  lemma NoExecutionAgrees(k: TxKey, first: map<Stage, Event>, p: seq<Reason>, q: seq<Reason>)
    requires forall r :: r in p <==> r in q
    ensures SameCore(ClassifyNoExecution(k, first, p), ClassifyNoExecution(k, first, q))
  {
    hide NoExecutionWitness, Samples;
    EmptyBySet(p, q);
  }

  lemma MonitorAgrees(first: map<Stage, Event>, p: seq<Reason>, q: seq<Reason>)
    requires forall r :: r in p <==> r in q
    ensures SameCore(ClassifyMonitor(first, p), ClassifyMonitor(first, q))
  {
    hide MonitorPreserved, MonitorStale, MonitorFailed, MonitorCommitted, MonitorWitness, Samples;
    EmptyBySet(p, q);
  }

  lemma CommandAgrees(k: TxKey, t: Tx, u: Tx, first: map<Stage, Event>, p: seq<Reason>, q: seq<Reason>)
    requires SameEvidence(t, u) && forall r :: r in p <==> r in q
    ensures SameCore(ClassifyCommand(k, t, first, p), ClassifyCommand(k, u, first, q))
  {
    hide SupersessionProved, EmergencyProved, RetryEnding, RetainedEnding, ClassifyExecuted, DispositionOf, TerminalReject, SameEvidence, Samples;
    EmptyBySet(p, q);
    ExecutedAgrees(k, t, u, first, p, q);
  }

  /** For the same first events, the verdict depends on the collected evidence only through
      signatures and reasons. */
  lemma JudgedAgrees(k: TxKey, t: Tx, u: Tx, first: map<Stage, Event>)
    requires SameEvidence(t, u)
    ensures SameCore(Judged(k, t, first), Judged(k, u, first))
  {
    hide IdentityComplete, ClassifyNoExecution, ClassifyMonitor, ClassifyCommand, KindOf, AllAt, When, Signatures, SameCore;
    var extra := When(!IdentityComplete(k), IdentityMissing);
    var p, q := t.reasons + extra, u.reasons + extra;
    NoExecutionAgrees(k, first, p, q);
    MonitorAgrees(first, p, q);
    CommandAgrees(k, t, u, first, p, q);
  }

  lemma SameVerdictChains(u: Verdict, v: Verdict, w: Verdict)
    requires SameVerdict(u, v) && SameVerdict(v, w)
    ensures SameVerdict(u, w) && SameVerdict(v, u)
  {
    hide Samples;
  }

  // ---- the evidence of a transaction ------------------------------------------

  lemma ReasonsAgree(t: Tx, u: Tx, k: TxKey, all: set<Event>)
    requires ConflictNoted(t, k, all) && ConflictNoted(u, k, all) && OwnersNoted(t, k, all) && OwnersNoted(u, k, all)
    ensures forall r :: r in t.reasons <==> r in u.reasons
  {
    hide Grouped, KeyOf, Contradict, OwnerReasons;
    forall r | r != ConflictingEvidence ensures r in t.reasons <==> r in u.reasons {
      if r in t.reasons {
        var e :| e in all && Grouped(e) && KeyOf(e) == k && r in OwnerReasons(e);
      }
      if r in u.reasons {
        var e :| e in all && Grouped(e) && KeyOf(e) == k && r in OwnerReasons(e);
      }
    }
    assert ConflictingEvidence in t.reasons <==> ConflictingEvidence in u.reasons;
  }

  lemma PairsGiveSignatures(t: Tx, u: Tx, st: Stage)
    requires Pairs(t, st) == Pairs(u, st)
    ensures Signatures(AllAt(t, st)) <= Signatures(AllAt(u, st))
  {
    hide IdOf, Signature, AllAt;
    forall s | s in Signatures(AllAt(t, st)) ensures s in Signatures(AllAt(u, st)) {
      var x :| x in AllAt(t, st) && Signature(x) == s;
      assert (IdOf(x), Signature(x)) in Pairs(u, st);
      var y :| y in AllAt(u, st) && (IdOf(y), Signature(y)) == (IdOf(x), Signature(x));
    }
  }

  /** Whatever the order, a transaction collects the same evidence. */
  lemma EvidenceIgnoresOrder(a: seq<Event>, b: seq<Event>, k: TxKey)
    requires Elems(a) == Elems(b) && k in JoinAll(a).txs && k in JoinAll(b).txs
    ensures SameEvidence(JoinAll(a).txs[k], JoinAll(b).txs[k])
  {
    hide JoinAll, Elems, Pairs, Signatures, ConflictNoted, OwnersNoted, AllAt, Accused, Quarrel;
    GroupingIgnoresOrder(a, b);
    JoinAllNotes(a);
    JoinAllNotes(b);
    ConflictExactly(a);
    ConflictExactly(b);
    var t, u := JoinAll(a).txs[k], JoinAll(b).txs[k];
    ReasonsAgree(t, u, k, Elems(a));
    forall st ensures Signatures(AllAt(t, st)) == Signatures(AllAt(u, st)) {
      PairsGiveSignatures(t, u, st);
      PairsGiveSignatures(u, t, st);
    }
  }

  // ---- readings ---------------------------------------------------------------

  /** An event of the transaction at a stage. */
  predicate IsMember(k: TxKey, st: Stage, e: Event) {
    Grouped(e) && KeyOf(e) == k && StageOf(e) == st
  }

  /** An activation recorded under another owner that fits the exported bundle. */
  predicate IsFitting(k: TxKey, generation: Value, e: Event) {
    StageOf(e) == Activate && ActivationFits(e, k, generation)
  }

  // ---- choices ----------------------------------------------------------------

  /** What the order decides about a transaction: which event leads each stage, and which of
      the authorizations and publications with one identity is kept. */
  datatype Choice = Choice(first: map<Stage, Event>, kept: map<EventId, Event>)

  datatype Slot = Leads(stage: Stage) | Keeps(id: EventId)

  function SlotStage(slot: Slot): Stage {
    match slot
    case Leads(st) => st
    case Keeps(id) => id.stage
  }

  function Chosen(c: Choice, slot: Slot): Option<Event> {
    match slot
    case Leads(st) => At(c.first, st)
    case Keeps(id) => if id in c.kept then Some(c.kept[id]) else None
  }

  /** The stages of which every event counts. */
  predicate CountsAll(st: Stage) {
    st == Authorize || st == Publish
  }

  /** An authorization or publication of the transaction with this identity. */
  predicate HasId(k: TxKey, id: EventId, e: Event) {
    CountsAll(id.stage) && id.key == k && Grouped(e) && IdOf(e) == id
  }

  /** What can fill a slot. A stage is led by an event of the transaction; for the activation,
      failing that, by one that fits. */
  ghost predicate Readable(all: set<Event>, k: TxKey, generation: Value, slot: Slot, e: Event) {
    match slot
    case Leads(st) =>
      if st == Activate && !(exists x | x in all :: IsMember(k, Activate, x)) then IsFitting(k, generation, e)
      else IsMember(k, st, e)
    case Keeps(id) => HasId(k, id, e)
  }

  /** One event for every slot that has any; the leader of a stage is also the one kept. */
  ghost predicate Reading(all: set<Event>, k: TxKey, c: Choice) {
    && (forall slot | Chosen(c, slot).Some? :: Chosen(c, slot).value in all && Readable(all, k, ExportGeneration(c.first), slot, Chosen(c, slot).value))
    && (forall slot, e | e in all && Readable(all, k, ExportGeneration(c.first), slot, e) :: Chosen(c, slot).Some?)
    && (forall st | CountsAll(st) && st in c.first :: Chosen(c, Keeps(IdOf(c.first[st]))) == Some(c.first[st]))
  }

  ghost function KeptAt(c: Choice, st: Stage): set<Event> {
    set id | id in c.kept && id.stage == st :: c.kept[id]
  }

  /** The verdict on a transaction for a choice: a valid one claims what the kept events show. */
  ghost function JudgedBy(k: TxKey, t: Tx, c: Choice): Verdict {
    var v := Judged(k, t, c.first);
    if v.status.Valid?
    then v.(owned := OwnedBy(k, c.first, KeptAt(c, Publish)), authorized := AuthorizedBy(k, KeptAt(c, Authorize)))
    else v
  }

  lemma OnlyValidClaims(k: TxKey, t: Tx, first: map<Stage, Event>)
    requires !Judged(k, t, first).status.Valid?
    ensures Judged(k, t, first).owned == {} && Judged(k, t, first).authorized == {}
  {
    hide IdentityComplete, SupersessionProved, EmergencyProved, RetryEnding, RetainedEnding, CommandReasons, WithLineage,
         MonitorPreserved, MonitorStale, MonitorFailed, MonitorCommitted, MonitorWitness, NoExecutionWitness, DispositionOf,
         TerminalReject, KindOf, OwnedBy, AuthorizedBy;
  }

  /** For the same choice, the verdict depends on the collected evidence only through signatures
      and reasons. */
  lemma ChoiceAgrees(k: TxKey, t: Tx, u: Tx, c: Choice)
    requires SameEvidence(t, u)
    ensures SameVerdict(JudgedBy(k, t, c), JudgedBy(k, u, c))
  {
    hide Judged, SameEvidence, OwnedBy, AuthorizedBy, KeptAt, Samples;
    JudgedAgrees(k, t, u, c.first);
    if !Judged(k, t, c.first).status.Valid? {
      OnlyValidClaims(k, t, c.first);
      OnlyValidClaims(k, u, c.first);
    }
  }

  // ---- references follow the verdict ------------------------------------------

  lemma ValidReads(k: TxKey, t: Tx, first: map<Stage, Event>)
    requires Judged(k, t, first).publishes != []
    ensures BundleReasons(t, first) == []
  {
    hide IdentityComplete, SupersessionProved, EmergencyProved, RetryEnding, RetainedEnding, MonitorPreserved, MonitorStale,
         MonitorFailed, MonitorCommitted, MonitorWitness, NoExecutionWitness, DispositionOf, TerminalReject, KindOf,
         MissingStages, FailedStages, BundleReasons, PublishReasons, LineageReasons, WithLineage, EmergencyCommitWrong,
         HeadingOriginWrong;
  }

  lemma ExportReads(t: Tx, first: map<Stage, Event>)
    requires Shaped(t) && BundleReasons(t, first) == [] && (Export in first <==> Export in t.first)
    requires Export in t.first ==> first[Export] == t.first[Export]
    ensures |BundleGenerations(t)| == 1
    ensures Export in t.first ==> Get(t.first[Export], BundleGeneration) in BundleGenerations(t)
  {
    hide Get;
    if Export in t.first {
      assert t.first[Export] in AllAt(t, Export);
      assert Get(t.first[Export], BundleGeneration) in Generations(AllAt(t, Export));
    }
  }

  lemma OneOf<T>(s: set<T>, x: T, y: T)
    requires |s| == 1 && x in s && y in s
    ensures x == y
  {
    assert |s - {x}| == 0;
    assert y !in s - {x};
  }

  lemma ExportsAlike(t: Tx, u: Tx)
    requires SameEvidence(t, u) && Shaped(t) && Shaped(u) && Export in t.first
    ensures Export in u.first
  {
    hide Signature;
    var f := Counterpart(AllAt(t, Export), AllAt(u, Export), AllAt(t, Export)[0]);
  }

  lemma SameGeneration(k: TxKey, t: Tx, u: Tx, acts: seq<Event>, acts': seq<Event>)
    requires SameEvidence(t, u) && Shaped(t) && Shaped(u)
    requires Classify(k, t, acts).publishes != [] && Classify(k, u, acts').publishes != []
    ensures EffectiveGeneration(k, t) == EffectiveGeneration(k, u)
  {
    hide Get, Judged, BundleReasons, BundleGenerations, SameEvidence, Shaped, FindActivation;
    var r, q := WithActivation(k, t.first, acts), WithActivation(k, u.first, acts');
    ValidReads(k, t, r);
    ValidReads(k, u, q);
    ExportReads(t, r);
    ExportReads(u, q);
    GenerationsAgree(t, u);
    if Export in t.first {
      ExportsAlike(t, u);
      OneOf(BundleGenerations(t), Get(t.first[Export], BundleGeneration), Get(u.first[Export], BundleGeneration));
    } else if Export in u.first {
      EvidenceSymmetric(t, u);
      ExportsAlike(u, t);
    }
  }

  lemma EvidenceSymmetric(t: Tx, u: Tx)
    requires SameEvidence(t, u)
    ensures SameEvidence(u, t)
  {
    hide Signatures, AllAt;
  }

  /** The references of a transaction follow from its verdict: on the same evidence, the same
      verdict gives the same references. */
  lemma ReferencesFollow(k: TxKey, t: Tx, u: Tx, acts: seq<Event>, acts': seq<Event>)
    requires SameEvidence(t, u) && Shaped(t) && Shaped(u)
    requires SameVerdict(Classify(k, t, acts), Classify(k, u, acts'))
    ensures ReferencesOf(k, t, Classify(k, t, acts)) <= ReferencesOf(k, u, Classify(k, u, acts'))
  {
    hide Classify, EffectiveGeneration, SameEvidence, Shaped, Get;
    var v, w := Classify(k, t, acts), Classify(k, u, acts');
    forall x | x in ReferencesOf(k, t, v) ensures x in ReferencesOf(k, u, w) {
      var p :| p in v.publishes && x == Reference(k.request, EffectiveGeneration(k, t), Get(p, SampleId));
      assert Get(p, SampleId) in Samples(w.publishes);
      var q :| q in w.publishes && Get(q, SampleId) == Get(p, SampleId);
      SameGeneration(k, t, u, acts, acts');
    }
  }
}
