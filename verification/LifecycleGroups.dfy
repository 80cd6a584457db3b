/** Grouping of annotated events into transactions, with deduplication by event identity
    and detection of contradictory repetitions. */
module LifecycleGroups {
  import opened Values
  import opened LifecycleEvents

  datatype Reason =
    | OwnerMissingExport | OwnerAmbiguousExport | OwnerAmbiguousAuthorization
    | ConflictingEvidence
    | IdentityMissing
    | NoExecutionWitnessInvalid
    | MonitorWitnessMissing | MonitorOutcomeUnverified
    | StageIncomplete(stage: Stage) | StageNotSuccessful(stage: Stage)
    | EmergencyWitnessInvalid | HeadingOriginInvalid
    | BundleIdentityMissing | BundleIdentityConflict
    | CommandIdentityMissing | TraceSequenceMissing | SetpointKindMissing
    | AuthorizationLineageMissing | WorldIdentityMissing | WorldIdentityMismatch
    | ActivationOwnerUnresolved | RequestCycleUnavailable

  /** A transaction as it is collected: the first event of each stage, all of them, and the
      reasons found so far. */
  datatype Tx = Tx(first: map<Stage, Event>, all: map<Stage, seq<Event>>, reasons: seq<Reason>)

  const EMPTY_TX: Tx := Tx(map[], map[], [])

  datatype Groups = Groups(
    txs: map<TxKey, Tx>, order: seq<TxKey>, seen: map<EventId, seq<Value>>, conflicts: nat, unbound: seq<Reason>)

  const NO_GROUPS: Groups := Groups(map[], [], map[], 0, [])

  predicate RequestWithoutCycle(e: Event) {
    StageOf(e) == Request && !Has(e, CausalPlanningCycleId)
  }

  predicate UnownedActivation(e: Event) {
    StageOf(e) == Activate && !CyclePresent(CycleOf(e))
  }

  /** The event takes part in a transaction. */
  predicate Grouped(e: Event) {
    StageOf(e) != Unknown && !RequestWithoutCycle(e) && !UnownedActivation(e)
  }

  function OwnerReasons(e: Event): seq<Reason> {
    var a := Get(e, BundleOwnerAttribution);
    if a == Text("missing_export") then [OwnerMissingExport]
    else if a == Text("ambiguous_export") then [OwnerAmbiguousExport]
    else if a == Text("ambiguous_authorization") then [OwnerAmbiguousAuthorization]
    else []
  }

  function TxAt(txs: map<TxKey, Tx>, k: TxKey): Tx {
    if k in txs then txs[k] else EMPTY_TX
  }

  function AllAt(t: Tx, st: Stage): seq<Event> {
    if st in t.all then t.all[st] else []
  }

  function Attach(t: Tx, e: Event): Tx {
    var st := StageOf(e);
    Tx(if st in t.first then t.first else t.first[st := e], t.all[st := AllAt(t, st) + [e]], t.reasons)
  }

  function AddReasons(t: Tx, rs: seq<Reason>): Tx {
    t.(reasons := t.reasons + rs)
  }

  predicate Repeats(g: Groups, e: Event) {
    IdOf(e) in g.seen && g.seen[IdOf(e)] == Signature(e)
  }

  predicate Contradicts(g: Groups, e: Event) {
    IdOf(e) in g.seen && g.seen[IdOf(e)] != Signature(e)
  }

  /** The transaction of an event after the event was seen. */
  function Joined(g: Groups, e: Event): Tx {
    var t := AddReasons(TxAt(g.txs, KeyOf(e)), OwnerReasons(e));
    if Repeats(g, e) then t
    else if Contradicts(g, e) then Attach(AddReasons(t, [ConflictingEvidence]), e)
    else Attach(t, e)
  }

  function Join(g: Groups, e: Event): Groups {
    if StageOf(e) == Unknown then g
    else if RequestWithoutCycle(e) then g.(unbound := g.unbound + [RequestCycleUnavailable])
    else if UnownedActivation(e) then g.(unbound := g.unbound + [ActivationOwnerUnresolved])
    else
      var k := KeyOf(e);
      Groups(g.txs[k := Joined(g, e)],
             if k in g.txs then g.order else g.order + [k],
             if IdOf(e) in g.seen then g.seen else g.seen[IdOf(e) := Signature(e)],
             if Contradicts(g, e) then g.conflicts + 1 else g.conflicts,
             g.unbound)
  }

  function JoinAll(es: seq<Event>): Groups {
    if es == [] then NO_GROUPS else Join(JoinAll(es[..|es| - 1]), es[|es| - 1])
  }

  /** The grouping loop, with its dictionaries updated in place. */
  method GroupEvents(es: seq<Event>) returns (g: Groups)
    ensures g == JoinAll(es)
  {
    hide StageOf, KeyOf, IdOf, Signature, OwnerReasons, RequestWithoutCycle, UnownedActivation;
    var txs: map<TxKey, Tx> := map[];
    var order: seq<TxKey> := [];
    var seen: map<EventId, seq<Value>> := map[];
    var conflicts: nat := 0;
    var unbound: seq<Reason> := [];
    for i := 0 to |es|
      invariant Groups(txs, order, seen, conflicts, unbound) == JoinAll(es[..i])
    {
      var e := es[i];
      assert es[..i + 1][..i] == es[..i];
      if StageOf(e) == Unknown {
        continue;
      }
      if RequestWithoutCycle(e) {
        unbound := unbound + [RequestCycleUnavailable];
        continue;
      }
      if UnownedActivation(e) {
        unbound := unbound + [ActivationOwnerUnresolved];
        continue;
      }
      var k := KeyOf(e);
      var t := if k in txs then txs[k] else EMPTY_TX;
      if k !in txs {
        order := order + [k];
      }
      t := AddReasons(t, OwnerReasons(e));
      var id, signature := IdOf(e), Signature(e);
      if id in seen {
        if seen[id] == signature {
          txs := txs[k := t];
          continue;
        }
        conflicts := conflicts + 1;
        t := AddReasons(t, [ConflictingEvidence]);
      } else {
        seen := seen[id := signature];
      }
      txs := txs[k := Attach(t, e)];
    }
    assert es[..|es|] == es;
    g := Groups(txs, order, seen, conflicts, unbound);
  }

  // ---- what the grouping collects ---------------------------------------------

  /** The events of one transaction, as the set of all events shows them. */
  ghost function Members(all: set<Event>, k: TxKey, st: Stage): set<Event> {
    set e | e in all && Grouped(e) && KeyOf(e) == k && StageOf(e) == st
  }

  ghost function Keys(all: set<Event>): set<TxKey> {
    set e | e in all && Grouped(e) :: KeyOf(e)
  }

  ghost predicate Attested(t: Tx, st: Stage, e: Event) {
    exists x | x in AllAt(t, st) :: IdOf(x) == IdOf(e) && Signature(x) == Signature(e)
  }

  /** Two events claim one identity and disagree. */
  ghost predicate Contradict(a: Event, b: Event) {
    IdOf(a) == IdOf(b) && Signature(a) != Signature(b)
  }

  ghost predicate Sound(t: Tx, k: TxKey, all: set<Event>) {
    forall st, x | x in AllAt(t, st) :: x in Members(all, k, st)
  }

  ghost predicate Shaped(t: Tx) {
    && t.first.Keys == t.all.Keys
    && (forall st | st in t.all :: t.all[st] != [] && st in t.first && t.first[st] == t.all[st][0])
  }

  ghost predicate Exhaustive(t: Tx, k: TxKey, all: set<Event>) {
    forall e | e in all && Grouped(e) && KeyOf(e) == k :: Attested(t, StageOf(e), e)
  }

  /** Every contradiction within the transaction is on its list, and only those are. */
  ghost predicate ConflictNoted(t: Tx, k: TxKey, all: set<Event>) {
    ConflictingEvidence in t.reasons <==> Quarrel(all, k)
  }

  ghost predicate OwnersNoted(t: Tx, k: TxKey, all: set<Event>) {
    && (forall r | r in t.reasons && r != ConflictingEvidence ::
          exists e | e in all && Grouped(e) && KeyOf(e) == k :: r in OwnerReasons(e))
    && (forall e, r | e in all && Grouped(e) && KeyOf(e) == k && r in OwnerReasons(e) :: r in t.reasons)
  }

  ghost predicate Collected(g: Groups, all: set<Event>) {
    && g.txs.Keys == Keys(all)
    && (forall k | k in g.txs :: Sound(g.txs[k], k, all) && Shaped(g.txs[k]) && Exhaustive(g.txs[k], k, all))
  }

  ghost predicate Remembered(g: Groups, all: set<Event>) {
    && (forall e | e in all && Grouped(e) :: IdOf(e) in g.seen)
    && (forall id | id in g.seen :: exists e | e in all && Grouped(e) :: IdOf(e) == id && Signature(e) == g.seen[id])
  }

  lemma KeysGrow(all: set<Event>, e: Event)
    ensures Keys(all + {e}) == Keys(all) + if Grouped(e) then {KeyOf(e)} else {}
  {
    hide Grouped, KeyOf;
  }

  lemma SoundGrows(t: Tx, k: TxKey, all: set<Event>, e: Event)
    requires Sound(t, k, all)
    ensures Sound(t, k, all + {e})
  {
    hide Grouped, KeyOf, StageOf, AllAt;
    forall st, x | x in AllAt(t, st) ensures x in Members(all + {e}, k, st) {
      assert x in Members(all, k, st);
    }
  }

  lemma ExhaustiveGrows(t: Tx, k: TxKey, all: set<Event>, e: Event)
    requires Exhaustive(t, k, all)
    requires Grouped(e) && KeyOf(e) == k ==> Attested(t, StageOf(e), e)
    ensures Exhaustive(t, k, all + {e})
  {
    hide Grouped, KeyOf, StageOf, Attested;
  }

  lemma ReasonsChangeNothing(t: Tx, rs: seq<Reason>, k: TxKey, all: set<Event>)
    requires Sound(t, k, all) && Shaped(t) && Exhaustive(t, k, all)
    ensures var u := AddReasons(t, rs); Sound(u, k, all) && Shaped(u) && Exhaustive(u, k, all)
  {
    var u := AddReasons(t, rs);
    assert forall st :: AllAt(u, st) == AllAt(t, st);
    assert forall st, e :: Attested(u, st, e) <==> Attested(t, st, e);
    hide Grouped, KeyOf, StageOf, AllAt, Attested;
  }

  lemma AttachAll(t: Tx, e: Event, st: Stage)
    ensures AllAt(Attach(t, e), st) == if st == StageOf(e) then AllAt(t, st) + [e] else AllAt(t, st)
    ensures Shaped(t) ==> Shaped(Attach(t, e))
  {
    hide StageOf;
    if Shaped(t) {
      assert Attach(t, e).first.Keys == Attach(t, e).all.Keys;
    }
  }

  lemma AttachSound(t: Tx, e: Event, k: TxKey, all: set<Event>)
    requires Sound(t, k, all) && Grouped(e) && KeyOf(e) == k
    ensures Sound(Attach(t, e), k, all + {e})
  {
    hide Grouped, KeyOf, StageOf, Attach, AllAt;
    SoundGrows(t, k, all, e);
    forall st, x | x in AllAt(Attach(t, e), st) ensures x in Members(all + {e}, k, st) {
      AttachAll(t, e, st);
      if x in AllAt(t, st) {
        assert x in Members(all + {e}, k, st);
      }
    }
  }

  lemma AttachAttests(t: Tx, e: Event, x: Event)
    requires x == e || Attested(t, StageOf(x), x)
    ensures Attested(Attach(t, e), StageOf(x), x)
  {
    hide StageOf, IdOf, Signature, Attach, AllAt;
    AttachAll(t, e, StageOf(x));
    if x == e {
      assert e in AllAt(Attach(t, e), StageOf(e));
    } else {
      var y :| y in AllAt(t, StageOf(x)) && IdOf(y) == IdOf(x) && Signature(y) == Signature(x);
      assert y in AllAt(Attach(t, e), StageOf(x));
    }
  }

  lemma AttachCollects(t: Tx, e: Event, k: TxKey, all: set<Event>)
    requires Sound(t, k, all) && Shaped(t) && Exhaustive(t, k, all)
    requires Grouped(e) && KeyOf(e) == k
    ensures var u := Attach(t, e); Sound(u, k, all + {e}) && Shaped(u) && Exhaustive(u, k, all + {e})
  {
    hide Grouped, KeyOf, StageOf, Attach, Sound, Shaped, Attested;
    AttachSound(t, e, k, all);
    AttachAll(t, e, StageOf(e));
    forall x | x in all + {e} && Grouped(x) && KeyOf(x) == k ensures Attested(Attach(t, e), StageOf(x), x) {
      AttachAttests(t, e, x);
    }
  }

  lemma EmptyCollects(k: TxKey, all: set<Event>)
    requires k !in Keys(all)
    ensures Sound(EMPTY_TX, k, all) && Shaped(EMPTY_TX) && Exhaustive(EMPTY_TX, k, all)
  {
    hide Grouped, KeyOf;
  }

  lemma IdFixesKey(a: Event, b: Event)
    requires IdOf(a) == IdOf(b)
    ensures KeyOf(a) == KeyOf(b) && StageOf(a) == StageOf(b)
  {
    hide KeyOf, StageOf;
  }

  /** A repetition with the same signature adds nothing to its transaction. */
  lemma RepeatedIsAttested(g: Groups, all: set<Event>, e: Event)
    requires Collected(g, all) && Remembered(g, all) && Grouped(e) && Repeats(g, e)
    ensures KeyOf(e) in g.txs && Attested(g.txs[KeyOf(e)], StageOf(e), e)
  {
    hide Grouped, KeyOf, StageOf, IdOf, Signature, Sound, Shaped;
    var w :| w in all && Grouped(w) && IdOf(w) == IdOf(e) && Signature(w) == Signature(e);
    IdFixesKey(w, e);
    assert KeyOf(w) in Keys(all);
    assert Attested(g.txs[KeyOf(w)], StageOf(w), w);
  }

  lemma JoinUngrouped(g: Groups, e: Event)
    requires !Grouped(e)
    ensures var h := Join(g, e); h.txs == g.txs && h.seen == g.seen && h.conflicts == g.conflicts && h.order == g.order
  {
    hide StageOf, KeyOf, CyclePresent, CycleOf;
  }

  lemma JoinGrouped(g: Groups, e: Event)
    requires Grouped(e)
    ensures var h := Join(g, e);
            && h.txs == g.txs[KeyOf(e) := Joined(g, e)]
            && h.seen == (if IdOf(e) in g.seen then g.seen else g.seen[IdOf(e) := Signature(e)])
            && h.conflicts == (if Contradicts(g, e) then g.conflicts + 1 else g.conflicts)
            && h.order == (if KeyOf(e) in g.txs then g.order else g.order + [KeyOf(e)])
            && h.unbound == g.unbound
  {
    hide StageOf, KeyOf, CyclePresent, CycleOf, Joined, IdOf, Signature;
  }

  lemma JoinedCollects(g: Groups, all: set<Event>, e: Event)
    requires Collected(g, all) && Remembered(g, all) && Grouped(e)
    ensures var u := Joined(g, e); Sound(u, KeyOf(e), all + {e}) && Shaped(u) && Exhaustive(u, KeyOf(e), all + {e})
  {
    hide Grouped, KeyOf, StageOf, IdOf, Signature, OwnerReasons, Remembered, AddReasons, Attach, Sound, Shaped, Exhaustive, Attested;
    var k := KeyOf(e);
    var t := AddReasons(TxAt(g.txs, k), OwnerReasons(e));
    if k !in g.txs { EmptyCollects(k, all); }
    ReasonsChangeNothing(TxAt(g.txs, k), OwnerReasons(e), k, all);
    if Repeats(g, e) {
      RepeatedIsAttested(g, all, e);
      ReasonsKeepAttested(g.txs[k], OwnerReasons(e), StageOf(e), e);
      SoundGrows(t, k, all, e);
      ExhaustiveGrows(t, k, all, e);
    } else if Contradicts(g, e) {
      ReasonsChangeNothing(t, [ConflictingEvidence], k, all);
      AttachCollects(AddReasons(t, [ConflictingEvidence]), e, k, all);
    } else {
      AttachCollects(t, e, k, all);
    }
  }

  lemma JoinCollects(g: Groups, all: set<Event>, e: Event)
    requires Collected(g, all) && Remembered(g, all)
    ensures Collected(Join(g, e), all + {e})
  {
    hide Join, Joined, Grouped, KeyOf, Sound, Shaped, Exhaustive, Remembered, Keys;
    KeysGrow(all, e);
    var h := Join(g, e);
    if Grouped(e) {
      JoinGrouped(g, e);
      JoinedCollects(g, all, e);
    } else {
      JoinUngrouped(g, e);
    }
    forall k | k in h.txs ensures Sound(h.txs[k], k, all + {e}) && Shaped(h.txs[k]) && Exhaustive(h.txs[k], k, all + {e}) {
      if !(Grouped(e) && k == KeyOf(e)) {
        SoundGrows(g.txs[k], k, all, e);
        ExhaustiveGrows(g.txs[k], k, all, e);
      }
    }
  }

  lemma ReasonsKeepAttested(t: Tx, rs: seq<Reason>, st: Stage, e: Event)
    requires Attested(t, st, e)
    ensures Attested(AddReasons(t, rs), st, e)
  {
    assert AllAt(AddReasons(t, rs), st) == AllAt(t, st);
  }

  lemma JoinRemembers(g: Groups, all: set<Event>, e: Event)
    requires Remembered(g, all)
    ensures Remembered(Join(g, e), all + {e})
  {
    hide Join, Grouped, KeyOf, StageOf, IdOf, Signature, Joined;
    if Grouped(e) { JoinGrouped(g, e); } else { JoinUngrouped(g, e); }
    var h := Join(g, e);
    forall id | id in h.seen ensures exists x | x in all + {e} && Grouped(x) :: IdOf(x) == id && Signature(x) == h.seen[id] {
      if id in g.seen {
        var x :| x in all && Grouped(x) && IdOf(x) == id && Signature(x) == g.seen[id];
        assert x in all + {e};
      } else {
        assert e in all + {e};
      }
    }
  }

  lemma ElemsGrow(es: seq<Event>)
    requires es != []
    ensures Elems(es) == Elems(es[..|es| - 1]) + {es[|es| - 1]}
  {
    assert es == es[..|es| - 1] + [es[|es| - 1]];
  }

  /** Everything the grouping loop collects, for any sequence of events. */
  lemma {:induction false} JoinAllCollects(es: seq<Event>)
    ensures Collected(JoinAll(es), Elems(es)) && Remembered(JoinAll(es), Elems(es))
  {
    if es == [] {
      assert Keys(Elems(es)) == {};
    } else {
      var n := |es| - 1;
      JoinAllCollects(es[..n]);
      ElemsGrow(es);
      hide Collected, Remembered, Join, Elems;
      JoinCollects(JoinAll(es[..n]), Elems(es[..n]), es[n]);
      JoinRemembers(JoinAll(es[..n]), Elems(es[..n]), es[n]);
    }
  }

  // ---- contradictions and unresolved owners -----------------------------------

  lemma JoinedReasons(g: Groups, e: Event)
    ensures Joined(g, e).reasons ==
            TxAt(g.txs, KeyOf(e)).reasons + OwnerReasons(e) + if Contradicts(g, e) then [ConflictingEvidence] else []
  {
    hide KeyOf, StageOf, IdOf, Signature, OwnerReasons;
  }

  lemma OwnerReasonsAreNoConflict(e: Event)
    ensures ConflictingEvidence !in OwnerReasons(e)
  {
    hide Get;
  }

  ghost predicate Quarrel(all: set<Event>, k: TxKey) {
    exists a, b :: a in all && b in all && Grouped(a) && Grouped(b) && KeyOf(a) == k && Contradict(a, b)
  }

  ghost predicate Accused(g: Groups, all: set<Event>) {
    && (forall e | e in all && Grouped(e) :: IdOf(e) in g.seen && KeyOf(e) in g.txs)
    && (forall e | e in all && Grouped(e) ::
          Signature(e) == g.seen[IdOf(e)] || ConflictingEvidence in g.txs[KeyOf(e)].reasons)
    && (forall k | k in g.txs && ConflictingEvidence in g.txs[k].reasons :: Quarrel(all, k))
    && (g.conflicts > 0 <==> exists k | k in g.txs :: ConflictingEvidence in g.txs[k].reasons)
  }

  lemma QuarrelGrows(all: set<Event>, e: Event, k: TxKey)
    requires Quarrel(all, k)
    ensures Quarrel(all + {e}, k)
  {
    hide Grouped, KeyOf, Contradict;
    var a, b :| a in all && b in all && Grouped(a) && Grouped(b) && KeyOf(a) == k && Contradict(a, b);
    assert a in all + {e} && b in all + {e};
  }

  lemma ContradictionIsAQuarrel(g: Groups, all: set<Event>, e: Event)
    requires Remembered(g, all) && Grouped(e) && Contradicts(g, e)
    ensures Quarrel(all + {e}, KeyOf(e))
  {
    hide Grouped, KeyOf, IdOf, Signature;
    var w :| w in all && Grouped(w) && IdOf(w) == IdOf(e) && Signature(w) == g.seen[IdOf(e)];
    assert w in all + {e} && e in all + {e};
    assert Contradict(e, w);
  }

  lemma JoinAccuses(g: Groups, all: set<Event>, e: Event)
    requires Accused(g, all) && Remembered(g, all)
    ensures Accused(Join(g, e), all + {e})
  {
    hide Join, Joined, Grouped, KeyOf, IdOf, Signature, Remembered, Quarrel, OwnerReasons;
    var h := Join(g, e);
    if Grouped(e) {
      JoinGrouped(g, e);
      JoinedReasons(g, e);
      OwnerReasonsAreNoConflict(e);
      if Contradicts(g, e) { ContradictionIsAQuarrel(g, all, e); }
    } else {
      JoinUngrouped(g, e);
    }
    forall k | k in h.txs && ConflictingEvidence in h.txs[k].reasons ensures Quarrel(all + {e}, k) {
      if k in g.txs && ConflictingEvidence in g.txs[k].reasons {
        QuarrelGrows(all, e, k);
      }
    }
    forall x | x in all + {e} && Grouped(x)
      ensures IdOf(x) in h.seen && KeyOf(x) in h.txs
      ensures Signature(x) == h.seen[IdOf(x)] || ConflictingEvidence in h.txs[KeyOf(x)].reasons
    {
      if x in all {
        assert IdOf(x) in g.seen && KeyOf(x) in g.txs;
      }
    }
    if g.conflicts > 0 {
      var k :| k in g.txs && ConflictingEvidence in g.txs[k].reasons;
      assert k in h.txs && ConflictingEvidence in h.txs[k].reasons;
    }
  }

  lemma JoinOwners(g: Groups, all: set<Event>, e: Event)
    requires g.txs.Keys == Keys(all) && forall k | k in g.txs :: OwnersNoted(g.txs[k], k, all)
    ensures forall k | k in Join(g, e).txs :: OwnersNoted(Join(g, e).txs[k], k, all + {e})
  {
    hide Join, Joined, Grouped, KeyOf, IdOf, Signature, OwnerReasons;
    var h := Join(g, e);
    if Grouped(e) {
      JoinGrouped(g, e);
      JoinedReasons(g, e);
    } else {
      JoinUngrouped(g, e);
    }
    forall k | k in h.txs ensures OwnersNoted(h.txs[k], k, all + {e}) {
      OwnersNotedStep(g, all, e, k);
    }
  }

  lemma OwnersNotedStep(g: Groups, all: set<Event>, e: Event, k: TxKey)
    requires g.txs.Keys == Keys(all) && (k in g.txs ==> OwnersNoted(g.txs[k], k, all))
    requires k in Join(g, e).txs
    requires Join(g, e).txs[k].reasons ==
             TxAt(g.txs, k).reasons +
             (if Grouped(e) && KeyOf(e) == k then OwnerReasons(e) + (if Contradicts(g, e) then [ConflictingEvidence] else []) else [])
    ensures OwnersNoted(Join(g, e).txs[k], k, all + {e})
  {
    hide Join, Joined, Grouped, KeyOf, IdOf, Signature, OwnerReasons;
    var t := Join(g, e).txs[k];
    forall r | r in t.reasons && r != ConflictingEvidence
      ensures exists x | x in all + {e} && Grouped(x) && KeyOf(x) == k :: r in OwnerReasons(x)
    {
      if k in g.txs && r in g.txs[k].reasons {
        var x :| x in all && Grouped(x) && KeyOf(x) == k && r in OwnerReasons(x);
        assert x in all + {e};
      } else {
        assert e in all + {e};
      }
    }
  }

  /** Contradictions and owner problems are noted exactly, for any sequence of events. */
  lemma {:induction false} JoinAllNotes(es: seq<Event>)
    ensures Accused(JoinAll(es), Elems(es))
    ensures forall k | k in JoinAll(es).txs :: OwnersNoted(JoinAll(es).txs[k], k, Elems(es))
  {
    if es != [] {
      var n := |es| - 1;
      JoinAllNotes(es[..n]);
      JoinAllCollects(es[..n]);
      ElemsGrow(es);
      hide Remembered, Accused, Join, Elems, OwnersNoted, Sound, Shaped, Exhaustive, Keys;
      JoinAccuses(JoinAll(es[..n]), Elems(es[..n]), es[n]);
      JoinOwners(JoinAll(es[..n]), Elems(es[..n]), es[n]);
    }
  }

  /** The verdict is CONFLICTING exactly when one event identity carries two signatures, and
      then exactly the transactions concerned say so. */
  lemma ConflictExactly(es: seq<Event>)
    ensures var g := JoinAll(es);
            && (g.conflicts > 0 <==> exists k :: Quarrel(Elems(es), k))
            && (forall k | k in g.txs :: ConflictNoted(g.txs[k], k, Elems(es)))
  {
    hide JoinAll, Quarrel, OwnersNoted, Grouped, KeyOf, IdOf, Signature, Elems;
    JoinAllNotes(es);
    var g := JoinAll(es);
    forall k | Quarrel(Elems(es), k) ensures k in g.txs && ConflictingEvidence in g.txs[k].reasons {
      QuarrelIsNoted(g, Elems(es), k);
    }
  }

  lemma QuarrelIsNoted(g: Groups, all: set<Event>, k: TxKey)
    requires Accused(g, all) && Quarrel(all, k)
    ensures k in g.txs && ConflictingEvidence in g.txs[k].reasons
  {
    hide Grouped, KeyOf, IdOf, Signature;
    var a, b :| a in all && b in all && Grouped(a) && Grouped(b) && KeyOf(a) == k && Contradict(a, b);
    IdFixesKey(a, b);
  }
}
