/** Owner resolution: which planning cycle or producer an authorization, activation or
    publication belongs to, decided from export and authorization witnesses only. */
module LifecycleOwners {
  import opened Values
  import opened LifecycleEvents

  datatype BundleKey = BundleKey(runtime: Value, session: Value, localization: Value, goal: Value, request: Value, generation: Value)

  datatype SampleKey = SampleKey(bundle: BundleKey, sample: Value, world: Value, revision: Value, stamp: Value)

  datatype Owner = Owner(source: Value, cycle: Value, generation: Value)

  function BundleKeyOf(e: Event): BundleKey {
    BundleKey(Get(e, RuntimeInstanceId), Get(e, SessionId), Get(e, LocalizationEpoch), Get(e, GoalEpoch),
              Get(e, RequestId), Get(e, BundleGeneration))
  }

  function SampleKeyOf(e: Event): SampleKey {
    SampleKey(BundleKeyOf(e), Get(e, SampleId), Get(e, WorldGeneration), Get(e, WorldRevision), Get(e, WorldObservationStampNs))
  }

  predicate BundlePresent(k: BundleKey) {
    Present(k.runtime) && Present(k.session) && Present(k.localization) && Present(k.goal) && Present(k.request) && Present(k.generation)
  }

  predicate SamplePresent(k: SampleKey) {
    BundlePresent(k.bundle) && Present(k.sample) && Present(k.world) && Present(k.revision) && Present(k.stamp)
  }

  function ExportedBy(e: Event): Value {
    GetOr(e, BundleOwnerCycleId, CausalPlanningCycleId)
  }

  predicate ExportWitness(e: Event) {
    StageOf(e) == Export && BundlePresent(BundleKeyOf(e)) && Present(ExportedBy(e))
  }

  predicate DeclaredByProducer(e: Event) {
    Get(e, BundleOwnerAttribution) == Text("producer_declared")
  }

  predicate AuthorizationWitness(e: Event) {
    StageOf(e) == Authorize && DeclaredByProducer(e) && CyclePresent(CycleOf(e)) && SamplePresent(SampleKeyOf(e))
  }

  function OwnerOf(e: Event): Owner {
    Owner(Get(e, BundleSource), Get(e, BundleOwnerCycleId), Get(e, BundleGeneration))
  }

  /** The cycles that exported a bundle, as the set of all events shows them. */
  ghost function Exporters(all: set<Event>, k: BundleKey): set<Value> {
    set e | e in all && ExportWitness(e) && BundleKeyOf(e) == k :: ExportedBy(e)
  }

  ghost function Authorizers(all: set<Event>, k: SampleKey): set<Owner> {
    set e | e in all && AuthorizationWitness(e) && SampleKeyOf(e) == k :: OwnerOf(e)
  }

  function SetDefault(e: Event, f: Field, v: Value): Event {
    if f in e then e else e[f := v]
  }

  function DeclareOwn(e: Event): Event {
    var owner := Get(e, BundleOwnerCycleId);
    SetDefault(e[BundleOwnerCycleId := if Present(owner) then owner else Get(e, CausalPlanningCycleId)],
               BundleOwnerAttribution, Text("producer_declared"))
  }

  predicate OwnsItself(e: Event) {
    || StageOf(e) == Request || StageOf(e) == Export
    || (StageOf(e) == Authorize && TerminalReject(DispositionOf(e)))
  }

  predicate Resolvable(e: Event) {
    StageOf(e) == Authorize || StageOf(e) == Activate || StageOf(e) == Publish
  }

  predicate ExecutableSource(e: Event) {
    && StageOf(e) != Publish
    && (Integer(Get(e, BundleSource)) == Some(2) || Integer(Get(e, BundleSource)) == Some(3))
    && Has(e, BundleGeneration)
  }

  predicate DirectOwner(e: Event) {
    Has(e, BundleOwnerCycleId) && DeclaredByProducer(e)
  }

  function FromAuthorization(e: Event, o: Owner): Event {
    e[BundleSource := o.source][BundleOwnerCycleId := o.cycle]
     [BundleOwnerAttribution := Text(if Get(e, BundleGeneration) != o.generation then "identity_conflict" else "exact_authorization")]
  }

  function Unowned(e: Event, why: string): Event {
    e[BundleOwnerCycleId := Null][BundleOwnerAttribution := Text(why)]
  }

  function FromExport(e: Event, cycle: Value): Event {
    e[BundleOwnerCycleId := cycle][BundleOwnerAttribution := Text("resolved_from_export")]
  }

  ghost function Only<T>(s: set<T>): T
    requires |s| == 1
  {
    var x :| x in s; x
  }

  lemma OnlyOne<T>(s: set<T>, x: T)
    requires |s| == 1 && x in s
    ensures Only(s) == x
  {
    assert |s - {x}| == 0;
    assert s == {x} + (s - {x});
  }

  ghost function ByExport(e: Event, exporters: set<Value>): Event {
    if |exporters| == 1 then FromExport(e, Only(exporters))
    else Unowned(e, if exporters == {} then "missing_export" else "ambiguous_export")
  }

  /** The annotation of one event against all the evidence. */
  ghost function Annotate(e: Event, all: set<Event>): Event {
    if OwnsItself(e) then DeclareOwn(e)
    else if !Resolvable(e) then e
    else if ExecutableSource(e) then e[BundleOwnerAttribution := Text("producer_declared")]
    else if DirectOwner(e) then e
    else
      var authorizers := if StageOf(e) == Publish then Authorizers(all, SampleKeyOf(e)) else {};
      if |authorizers| == 1 then FromAuthorization(e, Only(authorizers))
      else if |authorizers| > 1 then Unowned(e, "ambiguous_authorization")
      else ByExport(e, Exporters(all, BundleKeyOf(e)))
  }

  ghost function AnnotateAll(es: seq<Event>): (r: seq<Event>)
    ensures |r| == |es| && forall i | 0 <= i < |es| :: r[i] == Annotate(es[i], Elems(es))
  {
    seq(|es|, i requires 0 <= i < |es| => Annotate(es[i], Elems(es)))
  }

  // ---- the loops --------------------------------------------------------------

  method CollectExporters(es: seq<Event>) returns (owners: map<BundleKey, set<Value>>)
    ensures forall k :: Exporters(Elems(es), k) == if k in owners then owners[k] else {}
    ensures forall k | k in owners :: owners[k] != {}
  {
    hide StageOf, BundlePresent, ExportedBy, BundleKeyOf;
    owners := map[];
    for i := 0 to |es|
      invariant forall k :: Exporters(Elems(es[..i]), k) == if k in owners then owners[k] else {}
      invariant forall k | k in owners :: owners[k] != {}
    {
      var e := es[i];
      assert es[..i + 1] == es[..i] + [e];
      assert Elems(es[..i + 1]) == Elems(es[..i]) + {e};
      var key := BundleKeyOf(e);
      if StageOf(e) == Export && BundlePresent(key) && Present(ExportedBy(e)) {
        assert Exporters(Elems(es[..i + 1]), key) == Exporters(Elems(es[..i]), key) + {ExportedBy(e)};
        owners := owners[key := (if key in owners then owners[key] else {}) + {ExportedBy(e)}];
      }
    }
    assert es[..|es|] == es;
  }

  method CollectAuthorizers(es: seq<Event>) returns (owners: map<SampleKey, set<Owner>>)
    ensures forall k :: Authorizers(Elems(es), k) == if k in owners then owners[k] else {}
  {
    hide StageOf, SamplePresent, OwnerOf, SampleKeyOf, CycleOf, CyclePresent, DeclaredByProducer;
    owners := map[];
    for i := 0 to |es|
      invariant forall k :: Authorizers(Elems(es[..i]), k) == if k in owners then owners[k] else {}
    {
      var e := es[i];
      assert es[..i + 1] == es[..i] + [e];
      assert Elems(es[..i + 1]) == Elems(es[..i]) + {e};
      if StageOf(e) == Authorize && DeclaredByProducer(e) && CyclePresent(CycleOf(e)) && SamplePresent(SampleKeyOf(e)) {
        var key := SampleKeyOf(e);
        assert Authorizers(Elems(es[..i + 1]), key) == Authorizers(Elems(es[..i]), key) + {OwnerOf(e)};
        owners := owners[key := (if key in owners then owners[key] else {}) + {OwnerOf(e)}];
      }
    }
    assert es[..|es|] == es;
  }

  method AnnotateOne(e: Event, exporters: set<Value>, authorizers: set<Owner>, ghost all: set<Event>) returns (r: Event)
    requires exporters == Exporters(all, BundleKeyOf(e)) && authorizers == Authorizers(all, SampleKeyOf(e))
    ensures r == Annotate(e, all)
  {
    hide Exporters, Authorizers, BundleKeyOf, SampleKeyOf, StageOf, DeclareOwn, Unowned, FromExport, FromAuthorization;
    if OwnsItself(e) {
      return DeclareOwn(e);
    }
    if !Resolvable(e) {
      return e;
    }
    if ExecutableSource(e) {
      return e[BundleOwnerAttribution := Text("producer_declared")];
    }
    if DirectOwner(e) {
      return e;
    }
    if StageOf(e) == Publish {
      if |authorizers| == 1 {
        var owner :| owner in authorizers;
        OnlyOne(authorizers, owner);
        return FromAuthorization(e, owner);
      }
      if |authorizers| > 1 {
        return Unowned(e, "ambiguous_authorization");
      }
    }
    if |exporters| == 1 {
      var cycle :| cycle in exporters;
      OnlyOne(exporters, cycle);
      return FromExport(e, cycle);
    }
    return Unowned(e, if exporters == {} then "missing_export" else "ambiguous_export");
  }

  method ResolveOwners(es: seq<Event>) returns (r: seq<Event>)
    ensures r == AnnotateAll(es)
  {
    var exporters := CollectExporters(es);
    var authorizers := CollectAuthorizers(es);
    hide Exporters, Authorizers, Annotate, BundleKeyOf, SampleKeyOf, Elems;
    r := [];
    for i := 0 to |es|
      invariant |r| == i
      invariant forall j | 0 <= j < i :: r[j] == Annotate(es[j], Elems(es))
    {
      var b, s := BundleKeyOf(es[i]), SampleKeyOf(es[i]);
      var a := AnnotateOne(es[i], if b in exporters then exporters[b] else {},
                           if s in authorizers then authorizers[s] else {}, Elems(es));
      r := r + [a];
    }
  }

  // ---- what the annotation guarantees -----------------------------------------

  /** The annotated owner of an event depends on which events there are, never on their
      order or repetition. */
  lemma OwnersIgnoreOrder(a: seq<Event>, b: seq<Event>)
    requires Elems(a) == Elems(b)
    ensures Elems(AnnotateAll(a)) == Elems(AnnotateAll(b))
    ensures forall i, j | 0 <= i < |a| && 0 <= j < |b| && a[i] == b[j] :: AnnotateAll(a)[i] == AnnotateAll(b)[j]
  {
    hide Annotate;
    AnnotatedElems(a);
    AnnotatedElems(b);
    assert forall e :: e in a <==> e in Elems(a);
    assert forall e :: e in b <==> e in Elems(b);
  }

  lemma AnnotatedElems(a: seq<Event>)
    ensures forall x :: x in AnnotateAll(a) <==> exists e | e in a :: Annotate(e, Elems(a)) == x
  {
    hide Annotate;
    forall x | x in AnnotateAll(a) ensures exists e | e in a :: Annotate(e, Elems(a)) == x {
      var i :| 0 <= i < |a| && AnnotateAll(a)[i] == x;
      assert a[i] in a;
    }
    forall x, e | e in a && Annotate(e, Elems(a)) == x ensures x in AnnotateAll(a) {
      var i :| 0 <= i < |a| && a[i] == e;
      assert AnnotateAll(a)[i] == x;
    }
  }

  lemma AnnotationKeepsPhase(e: Event, all: set<Event>)
    ensures Phase in Annotate(e, all) <==> Phase in e
    ensures Phase in e ==> Annotate(e, all)[Phase] == e[Phase]
  {
    hide Exporters, Authorizers, StageOf, DispositionOf, TerminalReject, Get;
  }

  lemma PhaseFixesStage(a: Event, b: Event)
    requires Phase in a <==> Phase in b
    requires Phase in a ==> a[Phase] == b[Phase]
    ensures StageOf(a) == StageOf(b)
  {
    assert Get(a, Phase) == Get(b, Phase);
    hide Get;
  }

  predicate ExportNames(w: Event, e: Event, cycle: Value) {
    ExportWitness(w) && BundleKeyOf(w) == BundleKeyOf(e) && Canon(ExportedBy(w)) == cycle
  }

  predicate AuthorizationNames(w: Event, e: Event, cycle: Value) {
    AuthorizationWitness(w) && SampleKeyOf(w) == SampleKeyOf(e) && Canon(OwnerOf(w).cycle) == cycle
  }

  /** A publication or activation is never attributed to a cycle by guesswork: a resolved
      owner is the one exporter of its exact bundle, or the owner named by the one
      authorization of its exact sample. */
  lemma ResolvedOwnersHaveWitnesses(e: Event, all: set<Event>)
    requires Resolvable(e) && !OwnsItself(e) && !ExecutableSource(e) && !DirectOwner(e)
    requires Present(Get(Annotate(e, all), BundleOwnerCycleId))
    ensures var cycle := Get(Annotate(e, all), BundleOwnerCycleId);
            || (exists w | w in all :: ExportNames(w, e, cycle))
            || (StageOf(e) == Publish && exists w | w in all :: AuthorizationNames(w, e, cycle))
  {
    hide ExportWitness, AuthorizationWitness, BundleKeyOf, SampleKeyOf, OwnerOf, ExportedBy, StageOf;
    var authorizers := if StageOf(e) == Publish then Authorizers(all, SampleKeyOf(e)) else {};
    var exporters := Exporters(all, BundleKeyOf(e));
    if |authorizers| == 1 {
      assert Only(authorizers) in authorizers;
    } else if |authorizers| == 0 && |exporters| == 1 {
      assert Only(exporters) in exporters;
    }
  }
}
