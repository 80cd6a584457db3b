/** The whole lifecycle reduction: which command references are backed by evidence, whether
    the evidence as a whole is valid, and how little of that depends on recorder order. */
module LifecycleReduction {
  import opened Values
  import opened LifecycleEvents
  import opened LifecycleOwners
  import opened LifecycleGroups
  import opened LifecycleVerdicts

  datatype Reference = Reference(request: Value, generation: Value, sample: Value)

  datatype Overall = OverallConflicting | OverallIncomplete | OverallValid

  datatype Reduction = Reduction(
    status: Overall, verdicts: map<TxKey, Verdict>, references: set<Reference>,
    owned: set<WorldReference>, authorized: set<WorldReference>, reasons: set<Reason>)

  /** The bundle generation a valid command refers to. */
  function EffectiveGeneration(k: TxKey, t: Tx): Value {
    GenerationOf(k, t.first)
  }

  function ReferencesOf(k: TxKey, t: Tx, v: Verdict): set<Reference> {
    set p | p in v.publishes :: Reference(k.request, EffectiveGeneration(k, t), Get(p, SampleId))
  }

  function Activations(es: seq<Event>): (r: seq<Event>)
    ensures forall e :: e in r <==> e in es && StageOf(e) == Activate
  {
    if es == [] then []
    else Activations(es[..|es| - 1]) + if StageOf(es[|es| - 1]) == Activate then [es[|es| - 1]] else []
  }

  ghost function Annotated(events: seq<Event>, trace: seq<Event>): seq<Event> {
    AnnotateAll(Normalize(events, trace))
  }

  ghost function Verdicts(es: seq<Event>): map<TxKey, Verdict> {
    var g := JoinAll(es);
    map k | k in g.txs :: Classify(k, g.txs[k], Activations(es))
  }

  ghost function References(es: seq<Event>): set<Reference> {
    var g := JoinAll(es);
    set k, r | k in g.txs && r in ReferencesOf(k, g.txs[k], Verdicts(es)[k]) :: r
  }

  ghost function OwnedAmong(verdicts: map<TxKey, Verdict>): set<WorldReference> {
    set k, x | k in verdicts && x in verdicts[k].owned :: x
  }

  ghost function AuthorizedAmong(verdicts: map<TxKey, Verdict>): set<WorldReference> {
    set k, x | k in verdicts && x in verdicts[k].authorized :: x
  }

  predicate CriticalUnbound(g: Groups) {
    ActivationOwnerUnresolved in g.unbound
  }

  function OverallStatus(conflicts: nat, critical: bool, verdicts: map<TxKey, Verdict>): Overall {
    if conflicts > 0 then OverallConflicting
    else if critical || exists k | k in verdicts :: !SettledStatus(verdicts[k].status) then OverallIncomplete
    else if exists k | k in verdicts :: verdicts[k].status.Valid? then OverallValid
    else OverallIncomplete
  }

  ghost function OverallReasons(g: Groups, verdicts: map<TxKey, Verdict>): set<Reason> {
    (set k, r | k in verdicts && r in verdicts[k].reasons :: r) +
    (if g.conflicts > 0 then {ConflictingEvidence} else {}) +
    (if CriticalUnbound(g) then {ActivationOwnerUnresolved} else {})
  }

  ghost function ReduceAnnotated(es: seq<Event>): Reduction {
    var g := JoinAll(es);
    Reduction(OverallStatus(g.conflicts, CriticalUnbound(g), Verdicts(es)), Verdicts(es), References(es),
              OwnedAmong(Verdicts(es)), AuthorizedAmong(Verdicts(es)), OverallReasons(g, Verdicts(es)))
  }

  /** The reduction of recorded events and adapter trace. */
  ghost function Reduce(events: seq<Event>, trace: seq<Event>): Reduction {
    ReduceAnnotated(Annotated(events, trace))
  }

  // ---- the loop over transactions ---------------------------------------------

  predicate Lists(order: seq<TxKey>, txs: map<TxKey, Tx>) {
    && (forall k | k in txs :: k in order)
    && (forall k | k in order :: k in txs)
    && (forall i, j | 0 <= i < j < |order| :: order[i] != order[j])
  }

  lemma {:induction false} OrderListsKeys(es: seq<Event>)
    ensures Lists(JoinAll(es).order, JoinAll(es).txs)
  {
    if es != [] {
      var n := |es| - 1;
      OrderListsKeys(es[..n]);
      JoinLists(JoinAll(es[..n]), es[n]);
      hide Lists, Join;
    }
  }

  lemma JoinLists(g: Groups, e: Event)
    requires Lists(g.order, g.txs)
    ensures Lists(Join(g, e).order, Join(g, e).txs)
  {
    hide Join, Joined, Grouped, KeyOf, IdOf, Signature;
    if Grouped(e) { JoinGrouped(g, e); } else { JoinUngrouped(g, e); }
  }

  /** The references of a list of transactions. */
  ghost function ReferencesAmong(ks: seq<TxKey>, g: Groups, acts: seq<Event>): set<Reference>
    requires forall k | k in ks :: k in g.txs
  {
    set k, x | k in ks && x in ReferencesOf(k, g.txs[k], Classify(k, g.txs[k], acts)) :: x
  }

  lemma ReferencesStep(ks: seq<TxKey>, k: TxKey, g: Groups, acts: seq<Event>)
    requires k in g.txs && forall q | q in ks :: q in g.txs
    ensures ReferencesAmong(ks + [k], g, acts) == ReferencesAmong(ks, g, acts) + ReferencesOf(k, g.txs[k], Classify(k, g.txs[k], acts))
  {
    hide ReferencesOf, Classify;
    assert forall q :: q in ks + [k] <==> q in ks || q == k;
  }

  ghost function ReasonsAmong(verdicts: map<TxKey, Verdict>): set<Reason> {
    set k, x | k in verdicts && x in verdicts[k].reasons :: x
  }

  lemma ReasonsStep(verdicts: map<TxKey, Verdict>, k: TxKey, v: Verdict)
    requires k !in verdicts
    ensures ReasonsAmong(verdicts[k := v]) == ReasonsAmong(verdicts) + set x | x in v.reasons
  {
    var after := verdicts[k := v];
    forall x | x in ReasonsAmong(after) ensures x in ReasonsAmong(verdicts) || x in v.reasons {
      var q :| q in after && x in after[q].reasons;
      assert q != k ==> verdicts[q] == after[q];
    }
    forall x | x in ReasonsAmong(verdicts) ensures x in ReasonsAmong(after) {
      var q :| q in verdicts && x in verdicts[q].reasons;
      assert after[q] == verdicts[q];
    }
    forall x | x in v.reasons ensures x in ReasonsAmong(after) {
      assert after[k] == v;
    }
  }

  lemma ClaimsStep(verdicts: map<TxKey, Verdict>, k: TxKey, v: Verdict)
    requires k !in verdicts
    ensures OwnedAmong(verdicts[k := v]) == OwnedAmong(verdicts) + v.owned
    ensures AuthorizedAmong(verdicts[k := v]) == AuthorizedAmong(verdicts) + v.authorized
  {
    var after := verdicts[k := v];
    assert after[k] == v && forall q | q in verdicts :: after[q] == verdicts[q];
    forall x | x in OwnedAmong(after) ensures x in OwnedAmong(verdicts) + v.owned {
      var q :| q in after && x in after[q].owned;
    }
    forall x | x in AuthorizedAmong(after) ensures x in AuthorizedAmong(verdicts) + v.authorized {
      var q :| q in after && x in after[q].authorized;
    }
    forall x | x in OwnedAmong(verdicts) ensures x in OwnedAmong(after) {
      var q :| q in verdicts && x in verdicts[q].owned;
      assert q in after;
    }
    forall x | x in AuthorizedAmong(verdicts) ensures x in AuthorizedAmong(after) {
      var q :| q in verdicts && x in verdicts[q].authorized;
      assert q in after;
    }
  }

  /** The transactions classified so far. */
  ghost predicate ClassifiedUpTo(verdicts: map<TxKey, Verdict>, ks: seq<TxKey>, g: Groups, acts: seq<Event>) {
    && (forall k :: k in verdicts <==> k in ks)
    && (forall k | k in verdicts :: k in g.txs && verdicts[k] == Classify(k, g.txs[k], acts))
  }

  lemma ClassifiedStep(verdicts: map<TxKey, Verdict>, ks: seq<TxKey>, k: TxKey, g: Groups, acts: seq<Event>)
    requires ClassifiedUpTo(verdicts, ks, g, acts) && k in g.txs
    ensures ClassifiedUpTo(verdicts[k := Classify(k, g.txs[k], acts)], ks + [k], g, acts)
  {
    hide Classify;
    assert forall q :: q in ks + [k] <==> q in ks || q == k;
  }

  /** The classification loop over the transactions, in the order they were opened. */
  method ClassifyAll(g: Groups, activations: seq<Event>)
    returns (verdicts: map<TxKey, Verdict>, references: set<Reference>,
             owned: set<WorldReference>, authorized: set<WorldReference>, reasons: set<Reason>)
    requires Lists(g.order, g.txs)
    ensures ClassifiedUpTo(verdicts, g.order, g, activations)
    ensures references == ReferencesAmong(g.order, g, activations)
    ensures owned == OwnedAmong(verdicts) && authorized == AuthorizedAmong(verdicts)
    ensures reasons == ReasonsAmong(verdicts)
  {
    hide Classify, ReferencesOf, ReferencesAmong, ReasonsAmong, ClassifiedUpTo, OwnedAmong, AuthorizedAmong;
    verdicts, references, owned, authorized, reasons := map[], {}, {}, {}, {};
    NoneClassified(g, activations);
    assert g.order[..0] == [];
    for i := 0 to |g.order|
      invariant ClassifiedUpTo(verdicts, g.order[..i], g, activations)
      invariant references == ReferencesAmong(g.order[..i], g, activations)
      invariant owned == OwnedAmong(verdicts) && authorized == AuthorizedAmong(verdicts)
      invariant reasons == ReasonsAmong(verdicts)
    {
      var k := g.order[i];
      assert g.order[..i + 1] == g.order[..i] + [k];
      var v := Classify(k, g.txs[k], activations);
      NotYet(verdicts, g, activations, i);
      ReferencesStep(g.order[..i], k, g, activations);
      ReasonsStep(verdicts, k, v);
      ClaimsStep(verdicts, k, v);
      ClassifiedStep(verdicts, g.order[..i], k, g, activations);
      verdicts := verdicts[k := v];
      references := references + ReferencesOf(k, g.txs[k], v);
      owned, authorized := owned + v.owned, authorized + v.authorized;
      reasons := reasons + set x | x in v.reasons;
    }
    assert g.order[..|g.order|] == g.order;
  }

  lemma NoneClassified(g: Groups, acts: seq<Event>)
    ensures ClassifiedUpTo(map[], [], g, acts) && ReferencesAmong([], g, acts) == {} && ReasonsAmong(map[]) == {}
    ensures OwnedAmong(map[]) == {} && AuthorizedAmong(map[]) == {}
  {
    hide Classify, ReferencesOf;
  }

  lemma NotYet(verdicts: map<TxKey, Verdict>, g: Groups, acts: seq<Event>, i: nat)
    requires Lists(g.order, g.txs) && i < |g.order| && ClassifiedUpTo(verdicts, g.order[..i], g, acts)
    ensures g.order[i] !in verdicts
  {
    hide Classify;
  }

  lemma AllClassified(es: seq<Event>, verdicts: map<TxKey, Verdict>)
    requires Lists(JoinAll(es).order, JoinAll(es).txs) && ClassifiedUpTo(verdicts, JoinAll(es).order, JoinAll(es), Activations(es))
    ensures verdicts == Verdicts(es) && ReferencesAmong(JoinAll(es).order, JoinAll(es), Activations(es)) == References(es)
  {
    hide Classify, ReferencesOf, JoinAll, Activations;
    var g := JoinAll(es);
    assert forall k :: k in g.order <==> k in g.txs;
    assert verdicts.Keys == Verdicts(es).Keys;
  }

  method ReduceLifecycle(events: seq<Event>, trace: seq<Event>) returns (r: Reduction)
    ensures r == Reduce(events, trace)
  {
    hide Classify, JoinAll, AnnotateAll, Normalize, Activations, ClassifiedUpTo, ReferencesAmong, References, Verdicts, OverallStatus, Lists;
    var es := ResolveOwners(Normalize(events, trace));
    var g := GroupEvents(es);
    OrderListsKeys(es);
    var verdicts, references, owned, authorized, reasons := ClassifyAll(g, Activations(es));
    AllClassified(es, verdicts);
    reasons := reasons + (if g.conflicts > 0 then {ConflictingEvidence} else {}) +
               (if CriticalUnbound(g) then {ActivationOwnerUnresolved} else {});
    r := Reduction(OverallStatus(g.conflicts, CriticalUnbound(g), verdicts), verdicts, references, owned, authorized, reasons);
  }

  // ---- lineage ----------------------------------------------------------------

  lemma {:induction false} NoLineageReasons(authorizations: seq<Event>, publishes: seq<Event>)
    requires LineageReasons(authorizations, publishes) == []
    ensures forall p | p in publishes :: LineageProblem(authorizations, p).None?
  {
    hide LineageProblem;
    if publishes != [] {
      var n := |publishes| - 1;
      NoLineageReasons(authorizations, publishes[..n]);
      assert publishes == publishes[..n] + [publishes[n]];
    }
  }

  lemma {:induction false} LineageMembers(authorizations: seq<Event>, publishes: seq<Event>)
    ensures forall p :: p in WithLineage(authorizations, publishes) <==>
                        p in publishes && LineageProblem(authorizations, p).None?
  {
    hide LineageProblem;
    if publishes != [] {
      var n := |publishes| - 1;
      LineageMembers(authorizations, publishes[..n]);
      assert publishes == publishes[..n] + [publishes[n]];
    }
  }

  lemma {:induction false} NoMissingStage(first: map<Stage, Event>, required: seq<Stage>)
    requires MissingStages(first, required) == []
    ensures forall st | st in required :: st in first
  {
    if required != [] {
      assert required[0] in first && MissingStages(first, required[1..]) == [];
      hide MissingStages;
      NoMissingStage(first, required[1..]);
      assert forall st :: st in required <==> st == required[0] || st in required[1..];
    }
  }

  /** The publication is backed by an authorization of the same transaction with the same
      sample, bundle field and fully present world. */
  ghost predicate FullyAuthorized(t: Tx, p: Event) {
    WorldPresent(p) && exists a | a in AllAt(t, Authorize) :: Backs(a, p) && SameWorld(a, p)
  }

  /** All bundle generations named in the transaction are this one. */
  ghost predicate OneGeneration(t: Tx, generation: Value) {
    forall st, e | BundleStage(st) && e in AllAt(t, st) && Has(e, BundleGeneration) :: Get(e, BundleGeneration) == generation
  }

  lemma CandidateNamesGeneration(e: Event, source: int, created: int)
    requires CycleOf(e) == CandidateSource(source, created)
    ensures Get(e, BundleGeneration) == Num(created as real)
  {
    hide StageOf, IsNoExecution;
    if BundleGeneration in e {
      IntegerIsNumber(e[BundleGeneration]);
    }
  }

  lemma MemberHasCycle(all: set<Event>, k: TxKey, st: Stage, e: Event)
    requires e in Members(all, k, st)
    ensures CycleOf(e) == k.cycle
  {
    hide CycleOf, StageOf, Grouped;
  }

  lemma {:induction false} EmptyParts(k: TxKey, t: Tx, first: map<Stage, Event>)
    requires CommandReasons(k, t, first) == []
    ensures MissingStages(first, RequiredStages(KindOf(k.cycle))) == []
    ensures BundleReasons(t, first) == []
    ensures LineageReasons(AllAt(t, Authorize), AllAt(t, Publish)) == []
  {
    hide MissingStages, FailedStages, EmergencyCommitWrong, HeadingOriginWrong, BundleReasons, PublishReasons, LineageReasons, RequiredStages;
  }

  lemma GenerationMember(es: seq<Event>, v: Value)
    ensures v in Generations(es) <==> exists e | e in es :: Has(e, BundleGeneration) && Get(e, BundleGeneration) == v
  {
    hide Canon, Present;
  }

  predicate Names(e: Event, v: Value) {
    Has(e, BundleGeneration) && Get(e, BundleGeneration) == v
  }

  lemma GenerationMembers(t: Tx, v: Value)
    ensures v in BundleGenerations(t) <==> exists st, e :: BundleStage(st) && e in AllAt(t, st) && Names(e, v)
  {
    forall st ensures v in Generations(AllAt(t, st)) <==> exists e | e in AllAt(t, st) :: Names(e, v) {
      GenerationMember(AllAt(t, st), v);
    }
    hide Names, AllAt, Generations;
    if v in BundleGenerations(t) {
      var st :| BundleStage(st) && v in Generations(AllAt(t, st));
      var e :| e in AllAt(t, st) && Names(e, v);
    }
  }

  lemma NoBundleReasons(t: Tx, first: map<Stage, Event>)
    requires BundleReasons(t, first) == []
    ensures BundleGenerations(t) != {} && |BundleGenerations(t)| <= 1
    ensures Export in first ==> Has(first[Export], BundleGeneration)
  {
    hide BundleGenerations, Has;
  }

  lemma NamedByExport(t: Tx)
    requires Shaped(t) && Export in t.first && Has(t.first[Export], BundleGeneration)
    ensures Get(t.first[Export], BundleGeneration) in BundleGenerations(t)
  {
    var e := t.first[Export];
    assert e in AllAt(t, Export) && BundleStage(Export) && Names(e, Get(e, BundleGeneration));
    hide Names, BundleGenerations, Has, Get;
    GenerationMembers(t, Get(e, BundleGeneration));
  }

  lemma NamedByProducer(k: TxKey, t: Tx, all: set<Event>)
    requires Sound(t, k, all) && k.cycle.CandidateSource? && BundleGenerations(t) != {}
    ensures ProducerId(k.cycle) in BundleGenerations(t)
  {
    hide BundleGenerations, Sound, Get, Has, AllAt;
    var v :| v in BundleGenerations(t);
    GenerationMembers(t, v);
    var st, e :| BundleStage(st) && e in AllAt(t, st) && Names(e, v);
    SoundMember(t, k, all, st, e);
    MemberHasCycle(all, k, st, e);
    CandidateNamesGeneration(e, k.cycle.source, k.cycle.created);
  }

  /** The effective generation is one of the generations named in a valid transaction. */
  lemma EffectiveGenerationIsNamed(k: TxKey, t: Tx, first: map<Stage, Event>, all: set<Event>)
    requires Sound(t, k, all) && Shaped(t)
    requires MissingStages(first, RequiredStages(KindOf(k.cycle))) == [] && BundleReasons(t, first) == []
    requires (Export in first <==> Export in t.first) && (Export in t.first ==> first[Export] == t.first[Export])
    requires k.cycle.Declared? || k.cycle.CandidateSource?
    ensures EffectiveGeneration(k, t) in BundleGenerations(t)
  {
    hide Sound, Shaped, BundleGenerations, BundleReasons, Get, Has, MissingStages;
    NoBundleReasons(t, first);
    assert RequiredStages(PlanningCycle)[2] == Export;
    if Export in t.first {
      NamedByExport(t);
    } else {
      NoMissingStage(first, RequiredStages(KindOf(k.cycle)));
      if k.cycle.CandidateSource? {
        NamedByProducer(k, t, all);
      }
    }
  }

  lemma SoundMember(t: Tx, k: TxKey, all: set<Event>, st: Stage, e: Event)
    requires Sound(t, k, all) && e in AllAt(t, st)
    ensures e in Members(all, k, st)
  {
    hide Members, AllAt;
  }

  lemma SingletonGeneration(t: Tx, v: Value)
    requires v in BundleGenerations(t) && |BundleGenerations(t)| <= 1
    ensures OneGeneration(t, v)
  {
    hide Get, Has, AllAt, BundleGenerations;
    forall st, e | BundleStage(st) && e in AllAt(t, st) && Has(e, BundleGeneration) ensures Get(e, BundleGeneration) == v {
      var w := Get(e, BundleGeneration);
      assert Names(e, w);
      GenerationMembers(t, w);
      Card(v, w, BundleGenerations(t));
    }
  }

  lemma Card<T>(v: T, w: T, s: set<T>)
    requires v in s && w in s && |s| <= 1
    ensures v == w
  {
    assert |s - {v}| == |s| - 1;
    assert s == {v} + (s - {v});
  }

  lemma NoProblemIsAuthorized(t: Tx, p: Event)
    requires LineageProblem(AllAt(t, Authorize), p).None?
    ensures FullyAuthorized(t, p)
  {
    hide Backs, SameWorld, WorldPresent, AllAt;
  }

  /** Everything a valid transaction guarantees. */
  lemma ValidTransaction(k: TxKey, t: Tx, activations: seq<Event>, all: set<Event>)
    requires Sound(t, k, all) && Shaped(t) && Classify(k, t, activations).status.Valid?
    ensures forall p | p in AllAt(t, Publish) :: FullyAuthorized(t, p)
    ensures OneGeneration(t, EffectiveGeneration(k, t))
    ensures forall p :: p in Classify(k, t, activations).publishes <==> p in AllAt(t, Publish)
  {
    hide Classify, WithActivation, CommandReasons, BundleReasons, MissingStages, Sound, Shaped, BundleGenerations,
         LineageReasons, WithLineage, AllAt, EffectiveGeneration, FullyAuthorized, OneGeneration, LineageProblem, RequiredStages;
    var first := WithActivation(k, t.first, activations);
    ValidIsExecuted(k, t, activations);
    ActivationOnly(k, t.first, activations);
    EmptyParts(k, t, first);
    NoBundleReasons(t, first);
    NoLineageReasons(AllAt(t, Authorize), AllAt(t, Publish));
    LineageMembers(AllAt(t, Authorize), AllAt(t, Publish));
    EffectiveGenerationIsNamed(k, t, first, all);
    SingletonGeneration(t, EffectiveGeneration(k, t));
    forall p | p in AllAt(t, Publish) ensures FullyAuthorized(t, p) {
      NoProblemIsAuthorized(t, p);
    }
  }

  lemma ValidIsExecuted(k: TxKey, t: Tx, activations: seq<Event>)
    requires Classify(k, t, activations).status.Valid?
    ensures CommandReasons(k, t, WithActivation(k, t.first, activations)) == []
    ensures Classify(k, t, activations).publishes == WithLineage(AllAt(t, Authorize), AllAt(t, Publish))
    ensures k.cycle.Declared? || k.cycle.CandidateSource?
  {
    hide WithActivation, IdentityComplete, SupersessionProved, EmergencyProved, RetryEnding, RetainedEnding,
         CommandReasons, WithLineage, MonitorPreserved, MonitorStale, MonitorFailed, MonitorCommitted, MonitorWitness,
         NoExecutionWitness, DispositionOf, TerminalReject;
  }

  lemma ActivationOnly(k: TxKey, first: map<Stage, Event>, activations: seq<Event>)
    ensures var w := WithActivation(k, first, activations);
            && (forall st | st != Activate :: st in w <==> st in first)
            && (forall st | st != Activate && st in w && st in first :: w[st] == first[st])
  {
    hide FindActivation, ExportGeneration;
  }

  ghost predicate Backed(es: seq<Event>, k: TxKey, p: Event, r: Reference) {
    && k in JoinAll(es).txs
    && var t := JoinAll(es).txs[k];
       && Verdicts(es)[k].status.Valid?
       && Sound(t, k, Elems(es))
       && p in AllAt(t, Publish) && Get(p, SampleId) == r.sample && k.request == r.request
       && (forall q | q in AllAt(t, Publish) :: FullyAuthorized(t, q))
       && OneGeneration(t, r.generation)
  }

  /** Lineage soundness: every reference the reduction declares valid comes from one valid
      transaction of collected events; there a publication carries its sample, every
      publication is authorized with the same sample, bundle field and fully present world,
      and every bundle generation named anywhere in the transaction is the reference's. */
  lemma ReferencesAreBacked(events: seq<Event>, trace: seq<Event>, r: Reference)
    requires r in Reduce(events, trace).references
    ensures exists k, p :: Backed(Annotated(events, trace), k, p, r)
  {
    hide Annotated, References, Verdicts, OverallStatus, OverallReasons, JoinAll, Backed;
    BackedReference(Annotated(events, trace), r);
  }

  lemma BackedReference(es: seq<Event>, r: Reference)
    requires r in References(es)
    ensures exists k, p :: Backed(es, k, p, r)
  {
    hide JoinAll, Classify, EffectiveGeneration, Sound, Shaped, Exhaustive, References, FullyAuthorized, OneGeneration, Activations, Elems, Keys, Remembered, AllAt, Get, WithLineage;
    var k, p := ReferenceOrigin(es, r);
    JoinAllCollects(es);
    var t := JoinAll(es).txs[k];
    SettledExactlyWithoutReasons(k, t, Activations(es));
    ValidTransaction(k, t, Activations(es), Elems(es));
    assert Backed(es, k, p, r);
  }

  lemma ReferenceOrigin(es: seq<Event>, r: Reference) returns (k: TxKey, p: Event)
    requires r in References(es)
    ensures k in JoinAll(es).txs && p in Verdicts(es)[k].publishes
    ensures r == Reference(k.request, EffectiveGeneration(k, JoinAll(es).txs[k]), Get(p, SampleId))
  {
    hide JoinAll, Classify, EffectiveGeneration, Get;
    k :| k in JoinAll(es).txs && r in ReferencesOf(k, JoinAll(es).txs[k], Verdicts(es)[k]);
    p :| p in Verdicts(es)[k].publishes &&
         r == Reference(k.request, EffectiveGeneration(k, JoinAll(es).txs[k]), Get(p, SampleId));
  }

  // ---- fail closed ------------------------------------------------------------

  /** Every transaction is settled exactly when it has no reason, a transaction with
      contradictory evidence never is, and the whole is VALID exactly when no reason is left
      and at least one transaction is VALID. */
  lemma FailClosed(events: seq<Event>, trace: seq<Event>)
    ensures var r := Reduce(events, trace);
            var es := Annotated(events, trace);
            && (forall k | k in r.verdicts :: SettledStatus(r.verdicts[k].status) <==> r.verdicts[k].reasons == [])
            && (forall k | k in r.verdicts && Quarrel(Elems(es), k) :: !SettledStatus(r.verdicts[k].status))
            && (r.status.OverallValid? <==>
                  r.reasons == {} && exists k | k in r.verdicts :: r.verdicts[k].status.Valid?)
  {
    hide Annotated, References, Verdicts, OverallStatus, OverallReasons, JoinAll, Quarrel;
    FailClosedAnnotated(Annotated(events, trace));
  }

  lemma FailClosedAnnotated(es: seq<Event>)
    ensures var verdicts := Verdicts(es);
            var g := JoinAll(es);
            && (forall k | k in verdicts :: SettledStatus(verdicts[k].status) <==> verdicts[k].reasons == [])
            && (forall k | k in verdicts && Quarrel(Elems(es), k) :: !SettledStatus(verdicts[k].status))
            && (OverallStatus(g.conflicts, CriticalUnbound(g), verdicts).OverallValid? <==>
                  OverallReasons(g, verdicts) == {} && exists k | k in verdicts :: verdicts[k].status.Valid?)
  {
    hide JoinAll, Classify, Contradict, Grouped, KeyOf, OverallStatus, OverallReasons, CriticalUnbound, Activations, Elems;
    ConflictExactly(es);
    var g := JoinAll(es);
    var verdicts := Verdicts(es);
    forall k | k in verdicts
      ensures SettledStatus(verdicts[k].status) <==> verdicts[k].reasons == []
      ensures Quarrel(Elems(es), k) ==> !SettledStatus(verdicts[k].status)
    {
      SettledExactlyWithoutReasons(k, g.txs[k], Activations(es));
    }
    OverallFailClosed(g, verdicts);
  }

  lemma OverallFailClosed(g: Groups, verdicts: map<TxKey, Verdict>)
    requires forall k | k in verdicts :: SettledStatus(verdicts[k].status) <==> verdicts[k].reasons == []
    ensures OverallStatus(g.conflicts, CriticalUnbound(g), verdicts).OverallValid? <==>
            OverallReasons(g, verdicts) == {} && exists k | k in verdicts :: verdicts[k].status.Valid?
  {
    var reasons := OverallReasons(g, verdicts);
    forall k | k in verdicts && verdicts[k].reasons != [] ensures verdicts[k].reasons[0] in reasons {
      assert verdicts[k].reasons[0] in verdicts[k].reasons;
    }
    if reasons == {} {
      assert ConflictingEvidence !in reasons && ActivationOwnerUnresolved !in reasons;
    }
  }
}
