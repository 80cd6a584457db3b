/** What stands behind the claims of a reduction: every command reported as owned by its
    producer, and every one reported as authorized by it. */
module LifecycleClaims {
  import opened Values
  import opened LifecycleEvents
  import opened LifecycleOwners
  import opened LifecycleGroups
  import opened LifecycleVerdicts
  import opened LifecycleReduction

  /** All producer-declared authorizations of the exact sample name one owner, and it is the
      owner of the publication. */
  ghost predicate SoleAuthorization(all: set<Event>, p: Event) {
    && (exists w | w in all :: AuthorizationNames(w, p, Get(p, BundleOwnerCycleId)))
    && (forall v, w | v in all && w in all && AuthorizationWitness(v) && AuthorizationWitness(w) &&
                      SampleKeyOf(v) == SampleKeyOf(p) && SampleKeyOf(w) == SampleKeyOf(p) :: OwnerOf(v) == OwnerOf(w))
  }

  lemma AnnotationKeeps(e: Event, all: set<Event>, f: Field)
    requires f != BundleOwnerCycleId && f != BundleOwnerAttribution && f != BundleSource
    ensures Get(Annotate(e, all), f) == Get(e, f)
  {
    hide Exporters, Authorizers, StageOf, DispositionOf, TerminalReject, SampleKeyOf, BundleKeyOf, OwnsItself, Resolvable, ExecutableSource, DirectOwner;
  }

  lemma AnnotationKeepsSample(e: Event, all: set<Event>)
    ensures SampleKeyOf(Annotate(e, all)) == SampleKeyOf(e)
  {
    hide Annotate, Get;
    forall f | f != BundleOwnerCycleId && f != BundleOwnerAttribution && f != BundleSource ensures Get(Annotate(e, all), f) == Get(e, f) {
      AnnotationKeeps(e, all, f);
    }
  }

  /** The attribution "exact_authorization" is given in one case only. */
  lemma ExactMeansOne(e: Event, all: set<Event>)
    requires StageOf(e) == Publish && ExactlyAuthorized(Annotate(e, all))
    ensures |Authorizers(all, SampleKeyOf(e))| == 1
    ensures Get(Annotate(e, all), BundleOwnerCycleId) == Canon(Only(Authorizers(all, SampleKeyOf(e))).cycle)
  {
    hide Exporters, Authorizers, SampleKeyOf, BundleKeyOf, DispositionOf, TerminalReject, StageOf;
  }

  lemma ExactHasSoleAuthorization(e: Event, all: set<Event>)
    requires StageOf(e) == Publish && ExactlyAuthorized(Annotate(e, all))
    ensures SoleAuthorization(all, Annotate(e, all)) && SamplePresent(SampleKeyOf(Annotate(e, all)))
  {
    hide Annotate, SampleKeyOf, StageOf, CyclePresent, CycleOf, DeclaredByProducer, SamplePresent, OwnerOf, Get;
    var p, key := Annotate(e, all), SampleKeyOf(e);
    ExactMeansOne(e, all);
    AnnotationKeepsSample(e, all);
    var owners := Authorizers(all, key);
    assert Only(owners) in owners;
    var w :| w in all && AuthorizationWitness(w) && SampleKeyOf(w) == key && OwnerOf(w) == Only(owners);
    assert AuthorizationNames(w, p, Get(p, BundleOwnerCycleId));
    forall v | v in all && AuthorizationWitness(v) && SampleKeyOf(v) == key ensures OwnerOf(v) == Only(owners) {
      assert OwnerOf(v) in owners;
      OnlyOne(owners, OwnerOf(v));
    }
  }

  lemma AnnotatedFrom(events: seq<Event>, trace: seq<Event>, p: Event) returns (e: Event)
    requires p in Annotated(events, trace)
    ensures e in Normalize(events, trace) && p == Annotate(e, Elems(Normalize(events, trace))) && StageOf(e) == StageOf(p)
  {
    hide Annotate, Normalize, Elems, StageOf;
    var n := Normalize(events, trace);
    var i :| 0 <= i < |n| && AnnotateAll(n)[i] == p;
    e := n[i];
    AnnotationKeepsPhase(e, Elems(n));
    PhaseFixesStage(p, e);
  }

  /** The first events the transaction is judged by. */
  ghost function JudgedFirst(es: seq<Event>, k: TxKey): map<Stage, Event>
    requires k in JoinAll(es).txs
  {
    WithActivation(k, JoinAll(es).txs[k].first, Activations(es))
  }

  ghost predicate InValid(es: seq<Event>, k: TxKey, st: Stage, e: Event) {
    && k in JoinAll(es).txs && Verdicts(es)[k].status.Valid? && e in AllAt(JoinAll(es).txs[k], st)
    && Sound(JoinAll(es).txs[k], k, Elems(es))
  }

  /** A publication of a valid transaction, authorized there with its full world, whose owner
      is named by the one producer-declared authorization of its exact sample, in a
      transaction whose own first authorization and origin are the producer's. */
  ghost predicate OwnedClaim(events: seq<Event>, trace: seq<Event>, k: TxKey, p: Event, x: WorldReference) {
    var es := Annotated(events, trace);
    && InValid(es, k, Publish, p)
    && x == WorldReferenceOf(k, Get(p, BundleGeneration), p)
    && FullyAuthorized(JoinAll(es).txs[k], p) && OneGeneration(JoinAll(es).txs[k], x.generation)
    && SoleAuthorization(Elems(Normalize(events, trace)), p)
    && OwnershipProved(k, JudgedFirst(es, k))
  }

  lemma ValidClaims(k: TxKey, t: Tx, acts: seq<Event>)
    requires Classify(k, t, acts).status.Valid?
    ensures var v, first := Classify(k, t, acts), WithActivation(k, t.first, acts);
            v.owned == OwnedBy(k, first, set p | p in v.publishes) && v.authorized == AuthorizedBy(k, set a | a in AllAt(t, Authorize))
  {
    hide WithActivation, IdentityComplete, SupersessionProved, EmergencyProved, RetryEnding, RetainedEnding,
         CommandReasons, WithLineage, MonitorPreserved, MonitorStale, MonitorFailed, MonitorCommitted, MonitorWitness,
         NoExecutionWitness, DispositionOf, TerminalReject, OwnedBy, AuthorizedBy;
  }

  lemma ClaimOrigin(es: seq<Event>, k: TxKey)
    requires k in JoinAll(es).txs && (Verdicts(es)[k].owned != {} || Verdicts(es)[k].authorized != {})
    ensures var t, v := JoinAll(es).txs[k], Verdicts(es)[k];
            && v.status.Valid? && Sound(t, k, Elems(es)) && Shaped(t)
            && v.owned == OwnedBy(k, JudgedFirst(es, k), set p | p in v.publishes) && v.authorized == AuthorizedBy(k, set a | a in AllAt(t, Authorize))
            && (forall p | p in AllAt(t, Publish) :: FullyAuthorized(t, p)) && OneGeneration(t, EffectiveGeneration(k, t))
            && (forall p | p in v.publishes :: p in AllAt(t, Publish))
            && GenerationOf(k, JudgedFirst(es, k)) == EffectiveGeneration(k, t)
  {
    hide JoinAll, Classify, Sound, Shaped, Exhaustive, Keys, Remembered, Elems, Activations, FullyAuthorized, OneGeneration, OwnedBy, AuthorizedBy,
         WithLineage, AllAt, WithActivation, Get;
    var t := JoinAll(es).txs[k];
    SettledExactlyWithoutReasons(k, t, Activations(es));
    JoinAllCollects(es);
    ValidClaims(k, t, Activations(es));
    ValidTransaction(k, t, Activations(es), Elems(es));
    ActivationOnly(k, t.first, Activations(es));
  }

  lemma NamedGeneration(t: Tx, p: Event, generation: Value)
    requires p in AllAt(t, Publish) && OneGeneration(t, generation) && SamplePresent(SampleKeyOf(p))
    ensures Get(p, BundleGeneration) == generation
  {
    hide Get, AllAt, Present;
    assert Has(p, BundleGeneration) && BundleStage(Publish);
  }

  lemma SoundStage(t: Tx, k: TxKey, es: seq<Event>, st: Stage, e: Event)
    requires Sound(t, k, Elems(es)) && e in AllAt(t, st)
    ensures e in es && StageOf(e) == st
  {
    hide AllAt, StageOf, KeyOf, Grouped, Sound;
    SoundMember(t, k, Elems(es), st, e);
  }

  /** Ownership soundness: every command reported as owned by its producer. */
  lemma OwnedAreBacked(events: seq<Event>, trace: seq<Event>, x: WorldReference)
    requires x in Reduce(events, trace).owned
    ensures exists k, p :: OwnedClaim(events, trace, k, p, x)
  {
    hide Annotated, Normalize, JoinAll, Classify, References, OverallStatus, OverallReasons, Sound, Shaped, Elems, Activations, FullyAuthorized, OneGeneration,
         AllAt, Get, OwnershipProved, ExactlyAuthorized, SoleAuthorization, Annotate, SampleKeyOf, SamplePresent, StageOf, JudgedFirst, GenerationOf;
    var es := Annotated(events, trace);
    var k :| k in Verdicts(es) && x in Verdicts(es)[k].owned;
    ClaimOrigin(es, k);
    var t, v := JoinAll(es).txs[k], Verdicts(es)[k];
    var p :| p in v.publishes && ExactlyAuthorized(p) && x == WorldReferenceOf(k, GenerationOf(k, JudgedFirst(es, k)), p);
    SoundStage(t, k, es, Publish, p);
    var e := AnnotatedFrom(events, trace, p);
    ExactHasSoleAuthorization(e, Elems(Normalize(events, trace)));
    NamedGeneration(t, p, EffectiveGeneration(k, t));
    assert OwnedClaim(events, trace, k, p, x);
  }

  /** An authorization of a valid transaction by its producer, for the one generation named
      there and a fully named sample and world. */
  ghost predicate AuthorizedClaim(es: seq<Event>, k: TxKey, a: Event, x: WorldReference) {
    && InValid(es, k, Authorize, a) && Vouches(a)
    && x == WorldReferenceOf(k, Get(a, BundleGeneration), a) && OneGeneration(JoinAll(es).txs[k], x.generation)
  }

  lemma VouchedGeneration(t: Tx, a: Event, generation: Value)
    requires a in AllAt(t, Authorize) && OneGeneration(t, generation) && Vouches(a)
    ensures Get(a, BundleGeneration) == generation
  {
    hide Get, AllAt, Present;
    assert Has(a, BundleGeneration) && BundleStage(Authorize);
  }

  lemma AuthorizedAreBacked(events: seq<Event>, trace: seq<Event>, x: WorldReference)
    requires x in Reduce(events, trace).authorized
    ensures exists k, a :: AuthorizedClaim(Annotated(events, trace), k, a, x)
  {
    hide Annotated, JoinAll, Classify, References, OverallStatus, OverallReasons, Sound, Shaped, Elems, Activations, FullyAuthorized, OneGeneration,
         AllAt, Get, Vouches, JudgedFirst, GenerationOf;
    var es := Annotated(events, trace);
    var k :| k in Verdicts(es) && x in Verdicts(es)[k].authorized;
    ClaimOrigin(es, k);
    var t := JoinAll(es).txs[k];
    var a :| a in AllAt(t, Authorize) && Vouches(a) && x == WorldReferenceOf(k, Get(a, BundleGeneration), a);
    VouchedGeneration(t, a, EffectiveGeneration(k, t));
    assert AuthorizedClaim(es, k, a, x);
  }
}
