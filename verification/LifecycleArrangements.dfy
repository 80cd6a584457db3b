/** Which events a recording puts first, traced back to what was recorded, and how to arrange a
    recording so that chosen events come first. */
module LifecycleArrangements {
  import opened Values
  import opened LifecycleEvents
  import opened LifecycleOwners
  import opened LifecycleGroups
  import opened LifecycleVerdicts
  import opened LifecycleReduction
  import opened LifecycleClaims
  import opened LifecycleReadings

  // ---- the first event with a property ----------------------------------------

  function FirstSuch(es: seq<Event>, p: Event -> bool): (r: Option<Event>)
    ensures r.Some? ==> r.value in es && p(r.value)
    ensures r.None? ==> forall e | e in es :: !p(e)
  {
    if es == [] then None
    else
      assert forall e :: e in es <==> e == es[0] || e in es[1..];
      if p(es[0]) then Some(es[0]) else FirstSuch(es[1..], p)
  }

  lemma {:induction false} FirstOfTwo(xs: seq<Event>, ys: seq<Event>, p: Event -> bool)
    ensures FirstSuch(xs + ys, p) == if FirstSuch(xs, p).Some? then FirstSuch(xs, p) else FirstSuch(ys, p)
  {
    if xs == [] {
      assert xs + ys == ys;
    } else {
      assert (xs + ys)[1..] == xs[1..] + ys;
      FirstOfTwo(xs[1..], ys, p);
    }
  }

  lemma FirstOfOne(e: Event, p: Event -> bool)
    ensures FirstSuch([e], p) == if p(e) then Some(e) else None
  {
    assert [e][1..] == [];
  }

  function MemberAt(k: TxKey, st: Stage): Event -> bool {
    (e: Event) => IsMember(k, st, e)
  }

  function FittingAt(k: TxKey, generation: Value): Event -> bool {
    (e: Event) => IsFitting(k, generation, e)
  }

  lemma {:induction false} FirstOfActivations(es: seq<Event>, k: TxKey, generation: Value)
    ensures FindActivation(Activations(es), k, generation) == FirstSuch(es, FittingAt(k, generation))
  {
    if es != [] {
      var n := |es| - 1;
      var p := FittingAt(k, generation);
      FirstOfActivations(es[..n], k, generation);
      assert es == es[..n] + [es[n]];
      FirstOfTwo(es[..n], [es[n]], p);
      FirstOfOne(es[n], p);
      ActivationsGrow(es, k, generation);
      hide FirstSuch, FindActivation, Activations, IsFitting;
    }
  }

  lemma ActivationsGrow(es: seq<Event>, k: TxKey, generation: Value)
    requires es != []
    ensures var found := FindActivation(Activations(es[..|es| - 1]), k, generation);
            FindActivation(Activations(es), k, generation) ==
            if found.Some? then found else if IsFitting(k, generation, es[|es| - 1]) then Some(es[|es| - 1]) else None
  {
    hide ActivationFits, StageOf, FindActivation;
    var e, before := es[|es| - 1], Activations(es[..|es| - 1]);
    FindAppended(before, e, k, generation);
    if StageOf(e) != Activate {
      assert Activations(es) == before;
    }
  }

  lemma {:induction false} FindAppended(xs: seq<Event>, e: Event, k: TxKey, generation: Value)
    ensures FindActivation(xs + [e], k, generation) ==
            if FindActivation(xs, k, generation).Some? then FindActivation(xs, k, generation)
            else if ActivationFits(e, k, generation) then Some(e) else None
  {
    hide ActivationFits;
    if xs == [] {
      assert xs + [e] == [e] && [e][1..] == [];
    } else {
      assert (xs + [e])[1..] == xs[1..] + [e];
      FindAppended(xs[1..], e, k, generation);
    }
  }

  // ---- the first events of a transaction --------------------------------------

  /** The transaction's first event of a stage is the first of that key and stage. */
  ghost predicate FirstsAre(g: Groups, es: seq<Event>, k: TxKey) {
    forall st ::
      At(TxAt(g.txs, k).first, st) == FirstSuch(es, MemberAt(k, st))
  }

  lemma JoinFirst(g: Groups, es: seq<Event>, e: Event, k: TxKey, st: Stage)
    requires Remembered(g, Elems(es)) && At(TxAt(g.txs, k).first, st) == FirstSuch(es, MemberAt(k, st))
    ensures At(TxAt(Join(g, e).txs, k).first, st) == FirstSuch(es + [e], MemberAt(k, st))
  {
    var p := MemberAt(k, st);
    FirstOfTwo(es, [e], p);
    FirstOfOne(e, p);
    hide FirstSuch;
    if IsMember(k, st, e) {
      JoinMember(g, es, e, k, st);
    } else {
      JoinOther(g, e, k, st);
    }
  }

  lemma JoinMember(g: Groups, es: seq<Event>, e: Event, k: TxKey, st: Stage)
    requires Remembered(g, Elems(es)) && IsMember(k, st, e)
    requires At(TxAt(g.txs, k).first, st) == FirstSuch(es, MemberAt(k, st))
    ensures At(TxAt(Join(g, e).txs, k).first, st) ==
            if At(TxAt(g.txs, k).first, st).Some? then At(TxAt(g.txs, k).first, st) else Some(e)
  {
    hide Signature, OwnerReasons, CycleOf;
    if At(TxAt(g.txs, k).first, st).None? && IdOf(e) in g.seen {
      SeenBefore(g, es, e);
    }
  }

  lemma SeenBefore(g: Groups, es: seq<Event>, e: Event)
    requires Remembered(g, Elems(es)) && Grouped(e) && IdOf(e) in g.seen
    ensures exists x | x in es :: IsMember(KeyOf(e), StageOf(e), x)
  {
    hide Grouped, Signature;
    var x :| x in Elems(es) && Grouped(x) && IdOf(x) == IdOf(e);
    IdNames(x, e);
  }

  lemma IdNames(x: Event, e: Event)
    requires IdOf(x) == IdOf(e)
    ensures KeyOf(x) == KeyOf(e) && StageOf(x) == StageOf(e)
  {
    hide KeyOf, StageOf;
  }

  lemma JoinOther(g: Groups, e: Event, k: TxKey, st: Stage)
    requires !IsMember(k, st, e)
    ensures At(TxAt(Join(g, e).txs, k).first, st) == At(TxAt(g.txs, k).first, st)
  {
    hide IdOf, Signature, OwnerReasons, CycleOf, KeyOf, StageOf;
  }

  lemma {:induction false} JoinAllFirsts(es: seq<Event>, k: TxKey)
    ensures FirstsAre(JoinAll(es), es, k)
  {
    if es != [] {
      var n := |es| - 1;
      hide Remembered, Join, Collected, Elems, FirstSuch, MemberAt;
      JoinAllFirsts(es[..n], k);
      JoinAllCollects(es[..n]);
      assert es == es[..n] + [es[n]];
      forall st ensures At(TxAt(JoinAll(es).txs, k).first, st) == FirstSuch(es, MemberAt(k, st)) {
        JoinFirst(JoinAll(es[..n]), es[..n], es[n], k, st);
      }
    }
  }

  // ---- the events kept --------------------------------------------------------

  function IdAt(k: TxKey, id: EventId): Event -> bool {
    (e: Event) => HasId(k, id, e)
  }

  lemma IdAtIs(k: TxKey, id: EventId, e: Event)
    ensures IdAt(k, id)(e) <==> HasId(k, id, e)
  {
    hide HasId;
  }

  predicate Clean(t: Tx) {
    ConflictingEvidence !in t.reasons
  }

  /** Without contradiction, the event is collected exactly when it is the first of its identity. */
  ghost predicate KeepsFirst(g: Groups, es: seq<Event>, k: TxKey, x: Event) {
    Clean(TxAt(g.txs, k)) ==>
      (x in AllAt(TxAt(g.txs, k), StageOf(x)) <==> FirstSuch(es, IdAt(k, IdOf(x))) == Some(x))
  }

  lemma JoinKeepsClean(g: Groups, e: Event, k: TxKey)
    ensures Clean(TxAt(Join(g, e).txs, k)) ==> Clean(TxAt(g.txs, k))
    ensures Clean(TxAt(Join(g, e).txs, k)) && Grouped(e) && KeyOf(e) == k ==> !Contradicts(g, e)
  {
    hide IdOf, Signature, OwnerReasons, CycleOf, KeyOf, StageOf;
  }

  lemma JoinOtherAll(g: Groups, e: Event, k: TxKey, st: Stage)
    requires !(Grouped(e) && KeyOf(e) == k)
    ensures AllAt(TxAt(Join(g, e).txs, k), st) == AllAt(TxAt(g.txs, k), st)
  {
    hide IdOf, Signature, OwnerReasons, Joined, KeyOf, Grouped, Join;
    if Grouped(e) { JoinGrouped(g, e); } else { JoinUngrouped(g, e); }
  }

  lemma JoinOwnAll(g: Groups, e: Event, k: TxKey, st: Stage)
    requires Grouped(e) && KeyOf(e) == k && !Contradicts(g, e)
    ensures AllAt(TxAt(Join(g, e).txs, k), st) ==
            if st == StageOf(e) && IdOf(e) !in g.seen then AllAt(TxAt(g.txs, k), st) + [e] else AllAt(TxAt(g.txs, k), st)
  {
    hide IdOf, Signature, OwnerReasons, KeyOf, Grouped, Join, StageOf;
    JoinGrouped(g, e);
    var t := AddReasons(TxAt(g.txs, k), OwnerReasons(e));
    assert AllAt(t, st) == AllAt(TxAt(g.txs, k), st);
    AttachAll(t, e, st);
  }

  lemma JoinKeepsFirst(g: Groups, es: seq<Event>, e: Event, k: TxKey, x: Event)
    requires Remembered(g, Elems(es)) && KeepsFirst(g, es, k, x) && CountsAll(StageOf(x)) && Grouped(x) && KeyOf(x) == k
    ensures KeepsFirst(Join(g, e), es + [e], k, x)
  {
    var id, st := IdOf(x), StageOf(x);
    FirstOfTwo(es, [e], IdAt(k, id));
    FirstOfOne(e, IdAt(k, id));
    IdAtIs(k, id, e);
    JoinKeepsClean(g, e, k);
    hide FirstSuch, Join, Grouped, KeyOf, StageOf, Signature, IdAt, Contradicts;
    if Clean(TxAt(Join(g, e).txs, k)) {
      if Grouped(e) && KeyOf(e) == k {
        JoinOwnAll(g, e, k, st);
        if IdOf(e) == id {
          IdNames(e, x);
          SeenExactly(g, es, k, e);
        }
      } else {
        JoinOtherAll(g, e, k, st);
        IdNames2(e, x);
      }
    }
  }

  lemma IdNames2(e: Event, x: Event)
    ensures IdOf(e) == IdOf(x) ==> KeyOf(e) == KeyOf(x) && StageOf(e) == StageOf(x)
  {
    if IdOf(e) == IdOf(x) { IdNames(e, x); }
  }

  lemma SeenExactly(g: Groups, es: seq<Event>, k: TxKey, e: Event)
    requires Remembered(g, Elems(es)) && Grouped(e) && KeyOf(e) == k && CountsAll(StageOf(e))
    ensures IdOf(e) in g.seen <==> FirstSuch(es, IdAt(k, IdOf(e))).Some?
  {
    hide Grouped, Signature, KeyOf, StageOf;
    var p := IdAt(k, IdOf(e));
    IdKey(e);
    if FirstSuch(es, p).Some? {
      var y := FirstSuch(es, p).value;
      IdAtIs(k, IdOf(e), y);
      assert y in Elems(es);
    }
    if IdOf(e) in g.seen {
      var y :| y in Elems(es) && Grouped(y) && IdOf(y) == IdOf(e);
      IdAtIs(k, IdOf(e), y);
    }
  }

  lemma IdKey(e: Event)
    ensures IdOf(e).key == KeyOf(e) && IdOf(e).stage == StageOf(e)
  {
    hide KeyOf, StageOf;
  }

  lemma FrontBack<T>(s: seq<T>)
    requires s != []
    ensures s == s[..|s| - 1] + [s[|s| - 1]]
  {
  }

  lemma NothingKept(k: TxKey, x: Event)
    ensures KeepsFirst(NO_GROUPS, [], k, x)
  {
    hide StageOf, IdOf, IdAt;
  }

  lemma {:induction false} JoinAllKeepsFirst(es: seq<Event>, k: TxKey, x: Event)
    requires CountsAll(StageOf(x)) && Grouped(x) && KeyOf(x) == k
    ensures KeepsFirst(JoinAll(es), es, k, x)
  {
    if es == [] {
      NothingKept(k, x);
    } else {
      hide StageOf, Grouped, KeyOf, IdOf, IdAt, Remembered, Join, Collected, Elems, FirstSuch, KeepsFirst;
      var n := |es| - 1;
      JoinAllKeepsFirst(es[..n], k, x);
      JoinAllCollects(es[..n]);
      FrontBack(es);
      JoinKeepsFirst(JoinAll(es[..n]), es[..n], es[n], k, x);
    }
  }

  // ---- every order makes a choice ---------------------------------------------

  ghost function Ids(es: seq<Event>, k: TxKey): set<EventId> {
    set e | e in es && HasId(k, IdOf(e), e) :: IdOf(e)
  }

  ghost function KeptOf(es: seq<Event>, k: TxKey): map<EventId, Event> {
    map id | id in Ids(es, k) && FirstSuch(es, IdAt(k, id)).Some? :: FirstSuch(es, IdAt(k, id)).value
  }

  /** The choice a recording in this order makes. */
  ghost function ChoiceOf(es: seq<Event>, k: TxKey): Choice
    requires k in JoinAll(es).txs
  {
    Choice(WithActivation(k, JoinAll(es).txs[k].first, Activations(es)), KeptOf(es, k))
  }

  lemma KeptIs(es: seq<Event>, k: TxKey, id: EventId)
    ensures (if id in KeptOf(es, k) then Some(KeptOf(es, k)[id]) else None) == FirstSuch(es, IdAt(k, id))
  {
    hide HasId, IdOf, FirstSuch;
    var found := FirstSuch(es, IdAt(k, id));
    if found.Some? {
      IdAtIs(k, id, found.value);
      HasIdIs(k, id, found.value);
      assert id in Ids(es, k);
    }
  }

  lemma HasIdIs(k: TxKey, id: EventId, e: Event)
    requires HasId(k, id, e)
    ensures IdOf(e) == id && Grouped(e) && KeyOf(e) == k && StageOf(e) == id.stage && CountsAll(id.stage) && id.key == k
  {
    hide Grouped, KeyOf, StageOf;
    IdKey(e);
  }

  lemma OwnId(k: TxKey, e: Event)
    requires Grouped(e) && KeyOf(e) == k && CountsAll(StageOf(e))
    ensures HasId(k, IdOf(e), e)
  {
    hide Grouped, KeyOf, StageOf;
    IdKey(e);
  }

  /** Without contradiction, the events kept are those collected. */
  lemma KeptIsAll(es: seq<Event>, k: TxKey, st: Stage)
    requires k in JoinAll(es).txs && Clean(JoinAll(es).txs[k]) && CountsAll(st)
    ensures KeptAt(ChoiceOf(es, k), st) == set x | x in AllAt(JoinAll(es).txs[k], st)
  {
    hide JoinAll, HasId, FirstSuch, Grouped, KeyOf, StageOf, IdOf, IdAt, Sound, Shaped, Exhaustive, Keys, Remembered, WithActivation, Activations, AllAt, KeptOf;
    var c, t := ChoiceOf(es, k), JoinAll(es).txs[k];
    JoinAllCollects(es);
    forall x | x in KeptAt(c, st) ensures x in AllAt(t, st) {
      var id :| id in c.kept && id.stage == st && c.kept[id] == x;
      KeptIs(es, k, id);
      IdAtIs(k, id, x);
      HasIdIs(k, id, x);
      JoinAllKeepsFirst(es, k, x);
    }
    forall x | x in AllAt(t, st) ensures x in KeptAt(c, st) {
      SoundMember(t, k, Elems(es), st, x);
      MembersAre(Elems(es), k, st, x);
      JoinAllKeepsFirst(es, k, x);
      KeptIs(es, k, IdOf(x));
      IdKey(x);
      assert IdOf(x) in c.kept && c.kept[IdOf(x)] == x;
    }
  }

  lemma MembersAre(all: set<Event>, k: TxKey, st: Stage, x: Event)
    requires x in Members(all, k, st)
    ensures IsMember(k, st, x) && x in all
  {
    hide Grouped, KeyOf, StageOf;
  }

  /** The verdict of a recording is the verdict for its choice. */
  lemma OrderIsJudged(es: seq<Event>, k: TxKey)
    requires k in JoinAll(es).txs
    ensures Verdicts(es)[k] == JudgedBy(k, JoinAll(es).txs[k], ChoiceOf(es, k))
  {
    hide JoinAll, Judged, OwnedBy, AuthorizedBy, KeptAt, WithActivation, Activations, WithLineage, AllAt, Sound, Shaped, Exhaustive, Keys, Remembered, KeptOf;
    var t, c, v := JoinAll(es).txs[k], ChoiceOf(es, k), Verdicts(es)[k];
    if v.status.Valid? {
      SettledExactlyWithoutReasons(k, t, Activations(es));
      assert t.reasons == [];
      KeptIsAll(es, k, Authorize);
      KeptIsAll(es, k, Publish);
      JoinAllCollects(es);
      ValidTransaction(k, t, Activations(es), Elems(es));
      ValidClaims(k, t, Activations(es));
      assert (set p | p in v.publishes) == (set p | p in AllAt(t, Publish));
    }
  }

  /** The property of the events that can fill a slot. */
  ghost function ReadableAt(all: set<Event>, k: TxKey, generation: Value, slot: Slot): Event -> bool {
    match slot
    case Leads(st) =>
      if st == Activate && !(exists x | x in all :: IsMember(k, Activate, x)) then FittingAt(k, generation) else MemberAt(k, st)
    case Keeps(id) => IdAt(k, id)
  }

  lemma ReadableIs(all: set<Event>, k: TxKey, generation: Value, slot: Slot, e: Event)
    ensures ReadableAt(all, k, generation, slot)(e) <==> Readable(all, k, generation, slot, e)
    ensures ReadableAt(all, k, generation, slot)(e) ==> StageOf(e) == SlotStage(slot)
  {
    hide Grouped, KeyOf, StageOf, ActivationFits, HasId, IdAt;
    if slot.Keeps? {
      IdAtIs(k, slot.id, e);
      if HasId(k, slot.id, e) { HasIdIs(k, slot.id, e); }
    }
  }

  /** A choice is read off the list: in each slot the first event that can fill it. */
  ghost predicate ReadOff(es: seq<Event>, k: TxKey, c: Choice) {
    forall slot :: Chosen(c, slot) == FirstSuch(es, ReadableAt(Elems(es), k, ExportGeneration(c.first), slot))
  }

  lemma NoMember(es: seq<Event>, k: TxKey)
    ensures FirstSuch(es, MemberAt(k, Activate)).Some? <==> exists x | x in Elems(es) :: IsMember(k, Activate, x)
  {
    hide IsMember;
  }

  lemma OrderIsReadOff(es: seq<Event>, k: TxKey)
    requires k in JoinAll(es).txs
    ensures ReadOff(es, k, ChoiceOf(es, k))
  {
    JoinAllFirsts(es, k);
    var t := JoinAll(es).txs[k];
    FirstOfActivations(es, k, ExportGeneration(t.first));
    NoMember(es, k);
    ActivationOnly(k, t.first, Activations(es));
    hide JoinAll, FirstSuch, FindActivation, Activations, IsMember, IsFitting, Elems, MemberAt, FittingAt, IdAt, KeptOf;
    var c := ChoiceOf(es, k);
    forall slot ensures Chosen(c, slot) == FirstSuch(es, ReadableAt(Elems(es), k, ExportGeneration(c.first), slot)) {
      match slot {
        case Leads(st) =>
          assert At(t.first, st) == FirstSuch(es, MemberAt(k, st));
          assert At(t.first, Activate) == FirstSuch(es, MemberAt(k, Activate));
        case Keeps(id) =>
          KeptIs(es, k, id);
      }
    }
  }

  lemma {:induction false} FirstOfNarrower(es: seq<Event>, p: Event -> bool, q: Event -> bool)
    requires (forall e :: q(e) ==> p(e)) && FirstSuch(es, p).Some? && q(FirstSuch(es, p).value)
    ensures FirstSuch(es, q) == FirstSuch(es, p)
  {
    if es != [] && !p(es[0]) {
      FirstOfNarrower(es[1..], p, q);
    }
  }

  /** The leader of a stage is the one kept of its identity. */
  lemma LeaderIsKept(es: seq<Event>, k: TxKey, c: Choice, st: Stage)
    requires ReadOff(es, k, c) && CountsAll(st) && st in c.first
    ensures Chosen(c, Keeps(IdOf(c.first[st]))) == Some(c.first[st])
  {
    hide FirstSuch, IdOf, HasId, Grouped, KeyOf, StageOf;
    var x := c.first[st];
    var p, q := MemberAt(k, st), IdAt(k, IdOf(x));
    assert Chosen(c, Leads(st)) == FirstSuch(es, p);
    assert p(x);
    OwnId(k, x);
    IdAtIs(k, IdOf(x), x);
    forall e ensures q(e) ==> p(e) {
      IdAtIs(k, IdOf(x), e);
      if HasId(k, IdOf(x), e) {
        HasIdIs(k, IdOf(x), e);
        HasIdIs(k, IdOf(x), x);
      }
    }
    FirstOfNarrower(es, p, q);
    assert Chosen(c, Keeps(IdOf(x))) == FirstSuch(es, q);
  }

  lemma ReadOffIsReading(es: seq<Event>, k: TxKey, c: Choice)
    requires ReadOff(es, k, c)
    ensures Reading(Elems(es), k, c)
  {
    hide Readable, ReadableAt, FirstSuch, IdOf;
    var all, g := Elems(es), ExportGeneration(c.first);
    forall slot | Chosen(c, slot).Some? ensures Chosen(c, slot).value in all && Readable(all, k, g, slot, Chosen(c, slot).value) {
      assert Chosen(c, slot) == FirstSuch(es, ReadableAt(all, k, g, slot));
      ReadableIs(all, k, g, slot, Chosen(c, slot).value);
    }
    forall slot, e | e in all && Readable(all, k, g, slot, e) ensures Chosen(c, slot).Some? {
      assert Chosen(c, slot) == FirstSuch(es, ReadableAt(all, k, g, slot));
      ReadableIs(all, k, g, slot, e);
    }
    forall st | CountsAll(st) && st in c.first ensures Chosen(c, Keeps(IdOf(c.first[st]))) == Some(c.first[st]) {
      LeaderIsKept(es, k, c, st);
    }
  }

  // ---- arranging a list -------------------------------------------------------

  /** Element i brought to the front. */
  function ToFront<T>(es: seq<T>, i: nat): seq<T>
    requires i < |es|
  {
    [es[i]] + es[..i] + es[i + 1..]
  }

  lemma Parts<T>(es: seq<T>, i: nat)
    requires i < |es|
    ensures es == es[..i] + [es[i]] + es[i + 1..]
  {
  }

  lemma ToFrontKeeps<T>(es: seq<T>, i: nat)
    requires i < |es|
    ensures multiset(ToFront(es, i)) == multiset(es)
  {
    Parts(es, i);
  }

  lemma FirstMoved(before: seq<Event>, e: Event, after: seq<Event>, p: Event -> bool)
    ensures FirstSuch([e] + before + after, p) == if p(e) then Some(e) else FirstSuch(before + [e] + after, p)
  {
    hide FirstSuch;
    FirstOfTwo([e] + before, after, p);
    FirstOfTwo([e], before, p);
    FirstOfTwo(before + [e], after, p);
    FirstOfTwo(before, [e], p);
    FirstOfOne(e, p);
  }

  lemma FirstInFront(es: seq<Event>, i: nat, p: Event -> bool)
    requires i < |es|
    ensures FirstSuch(ToFront(es, i), p) == if p(es[i]) then Some(es[i]) else FirstSuch(es, p)
  {
    hide FirstSuch;
    Parts(es, i);
    FirstMoved(es[..i], es[i], es[i + 1..], p);
  }

  /** The wanted events are in the list, each has its property, and each is the first to have
      it, save those still to be arranged. */
  ghost predicate Arranged<G(!new)>(es: seq<Event>, want: map<G, Event>, p: G -> Event -> bool, todo: set<G>) {
    && (forall g | g in want :: want[g] in es && p(g)(want[g]))
    && (forall g | g in want && g !in todo :: FirstSuch(es, p(g)) == Some(want[g]))
  }

  /** Bringing the events of `todo` to the front disturbs no other wish. */
  ghost predicate Compatible<G(!new)>(want: map<G, Event>, p: G -> Event -> bool, todo: set<G>) {
    forall g, h | g in want && h in todo && h in want && p(g)(want[h]) :: want[h] == want[g]
  }

  lemma ArrangeStep<G(!new)>(es: seq<Event>, want: map<G, Event>, p: G -> Event -> bool, todo: set<G>, h: G) returns (next: seq<Event>)
    requires Arranged(es, want, p, todo) && Compatible(want, p, todo) && h in todo && h in want
    ensures multiset(next) == multiset(es) && Arranged(next, want, p, todo - {h})
  {
    var i :| 0 <= i < |es| && es[i] == want[h];
    next := ToFront(es, i);
    ToFrontKeeps(es, i);
    forall g | g in want ensures want[g] in next {
      assert want[g] in multiset(es);
    }
    forall g | g in want && g !in todo - {h} ensures FirstSuch(next, p(g)) == Some(want[g]) {
      FirstInFront(es, i, p(g));
    }
  }

  /** The wanted events can all be brought first. */
  lemma {:induction false} Arrange<G(!new)>(es: seq<Event>, want: map<G, Event>, p: G -> Event -> bool, todo: set<G>) returns (out: seq<Event>)
    requires Arranged(es, want, p, todo) && Compatible(want, p, todo) && todo <= want.Keys
    ensures multiset(out) == multiset(es) && Arranged(out, want, p, {})
    decreases |todo|
  {
    hide Arranged;
    out := es;
    if todo != {} {
      var h :| h in todo;
      out := ArrangeStep(es, want, p, todo, h);
      assert Compatible(want, p, todo - {h});
      out := Arrange(out, want, p, todo - {h});
    }
  }

  // ---- back to what was recorded ----------------------------------------------

  /** The annotated form of a normalized event. */
  ghost function Final(all: set<Event>): Event -> Event {
    (e: Event) => Annotate(OwnEmergency(e), all)
  }

  /** All normalized events. */
  ghost function Normalized(events: seq<Event>, trace: seq<Event>): set<Event> {
    Elems(Normalize(events, trace))
  }

  function Published(trace: seq<Event>): seq<Event> {
    Map(Filter(trace, TraceUsable), AsPublish)
  }

  function Planned(events: seq<Event>, trace: seq<Event>): seq<Event> {
    Map(Filter(events + Published(trace), EmergencyByPlanner), AsPlannerEmergency)
  }

  function Monitored(events: seq<Event>, trace: seq<Event>): seq<Event> {
    Map(Filter(events + Published(trace) + Planned(events, trace), EmergencyByMonitor), AsMonitorEmergency)
  }

  lemma AnnotatedParts(events: seq<Event>, trace: seq<Event>)
    ensures Annotated(events, trace) ==
            Map(events + Published(trace) + Planned(events, trace) + Monitored(events, trace), Final(Normalized(events, trace)))
  {
    hide Annotate, OwnEmergency, Elems, Filter;
    var all := Normalized(events, trace);
    var n3 := events + Published(trace) + Planned(events, trace) + Monitored(events, trace);
    assert Normalize(events, trace) == Map(n3, OwnEmergency);
    forall i | 0 <= i < |n3| ensures Annotated(events, trace)[i] == Final(all)(n3[i]) {
    }
  }

  lemma {:induction false} FirstOfMap(xs: seq<Event>, f: Event -> Event, p: Event -> bool, q: Event -> bool)
    requires forall x :: q(x) <==> p(f(x))
    ensures FirstSuch(Map(xs, f), p) == if FirstSuch(xs, q).Some? then Some(f(FirstSuch(xs, q).value)) else None
  {
    if xs != [] {
      assert Map(xs, f)[1..] == Map(xs[1..], f);
      FirstOfMap(xs[1..], f, p, q);
    }
  }

  lemma {:induction false} FirstOfFilter(xs: seq<Event>, c: Event -> bool, p: Event -> bool, q: Event -> bool)
    requires forall x :: q(x) <==> c(x) && p(x)
    ensures FirstSuch(Filter(xs, c), p) == FirstSuch(xs, q)
  {
    if xs != [] {
      var n := |xs| - 1;
      FirstOfFilter(xs[..n], c, p, q);
      assert xs == xs[..n] + [xs[n]];
      FirstOfTwo(xs[..n], [xs[n]], q);
      FirstOfOne(xs[n], q);
      FirstOfOne(xs[n], p);
      FirstOfTwo(Filter(xs[..n], c), [xs[n]], p);
      assert Filter(xs[..n], c) + [] == Filter(xs[..n], c);
    }
  }

  /** What a recorded event is turned into. */
  datatype Path = AsItself | ByTrace | ByPlanner | ByMonitor

  predicate Taken(path: Path, x: Event) {
    match path
    case AsItself => true
    case ByTrace => TraceUsable(x)
    case ByPlanner => EmergencyByPlanner(x)
    case ByMonitor => EmergencyByMonitor(x)
  }

  function Turned(path: Path, x: Event): Event {
    match path
    case AsItself => x
    case ByTrace => AsPublish(x)
    case ByPlanner => AsPlannerEmergency(x)
    case ByMonitor => AsMonitorEmergency(x)
  }

  /** The recorded event shows an annotated event with the property. */
  ghost function Shows(path: Path, all: set<Event>, p: Event -> bool): Event -> bool {
    (x: Event) => Taken(path, x) && p(Final(all)(Turned(path, x)))
  }

  lemma ShowsIs(path: Path, all: set<Event>, p: Event -> bool, x: Event)
    ensures Shows(path, all, p)(x) <==> Taken(path, x) && p(Final(all)(Turned(path, x)))
  {
    hide Taken, Turned, Final;
  }

  ghost function Image(path: Path, all: set<Event>, x: Option<Event>): Option<Event> {
    if x.Some? then Some(Final(all)(Turned(path, x.value))) else None
  }

  function After(p: Event -> bool, f: Event -> Event): Event -> bool {
    (x: Event) => p(f(x))
  }

  lemma AfterIs(p: Event -> bool, f: Event -> Event, x: Event)
    ensures After(p, f)(x) <==> p(f(x))
  {
  }

  lemma FirstThrough(xs: seq<Event>, c: Event -> bool, f: Event -> Event, g: Event -> Event, p: Event -> bool, q: Event -> bool)
    requires forall x :: q(x) <==> c(x) && p(g(f(x)))
    ensures FirstSuch(Map(Map(Filter(xs, c), f), g), p) ==
            if FirstSuch(xs, q).Some? then Some(g(f(FirstSuch(xs, q).value))) else None
  {
    hide FirstSuch, Filter, Map, After;
    var pg := After(p, g);
    var pgf := After(pg, f);
    forall x ensures pg(x) <==> p(g(x)) { AfterIs(p, g, x); }
    forall x ensures pgf(x) <==> pg(f(x)) { AfterIs(pg, f, x); }
    FirstOfMap(Map(Filter(xs, c), f), g, p, pg);
    FirstOfMap(Filter(xs, c), f, pg, pgf);
    FirstOfFilter(xs, c, pgf, q);
  }

  lemma FirstAlong(xs: seq<Event>, path: Path, all: set<Event>, p: Event -> bool, c: Event -> bool, f: Event -> Event)
    requires forall x :: c(x) <==> Taken(path, x)
    requires forall x :: f(x) == Turned(path, x)
    ensures FirstSuch(Map(Map(Filter(xs, c), f), Final(all)), p) == Image(path, all, FirstSuch(xs, Shows(path, all, p)))
  {
    hide Taken, Turned, Final, FirstSuch, Filter, Map, Shows;
    forall x ensures Shows(path, all, p)(x) <==> c(x) && p(Final(all)(f(x))) {
      ShowsIs(path, all, p, x);
    }
    FirstThrough(xs, c, f, Final(all), p, Shows(path, all, p));
  }

  /** Nothing derived is turned into anything else. */
  lemma DerivedStaysDerived(events: seq<Event>, trace: seq<Event>, x: Event)
    requires x in Published(trace) || x in Planned(events, trace)
    ensures !EmergencyByPlanner(x) && !EmergencyByMonitor(x)
  {
    MapElems(Filter(trace, TraceUsable), AsPublish);
    MapElems(Filter(events + Published(trace), EmergencyByPlanner), AsPlannerEmergency);
    hide Map, Filter;
  }

  lemma NoneSuch(es: seq<Event>, p: Event -> bool)
    requires forall e | e in es :: !p(e)
    ensures FirstSuch(es, p).None?
  {
  }

  lemma FirstOfDerived(events: seq<Event>, trace: seq<Event>, all: set<Event>, path: Path, p: Event -> bool)
    requires path == ByPlanner || path == ByMonitor
    ensures FirstSuch(events + Published(trace), Shows(path, all, p)) == FirstSuch(events, Shows(path, all, p))
    ensures FirstSuch(events + Published(trace) + Planned(events, trace), Shows(path, all, p)) == FirstSuch(events, Shows(path, all, p))
  {
    var q := Shows(path, all, p);
    forall x | x in Published(trace) || x in Planned(events, trace) ensures !q(x) {
      DerivedStaysDerived(events, trace, x);
      ShowsIs(path, all, p, x);
    }
    NoneSuch(Published(trace), q);
    NoneSuch(Planned(events, trace), q);
    FirstOfTwo(events, Published(trace), q);
    FirstOfTwo(events + Published(trace), Planned(events, trace), q);
  }

  lemma MapOfTwo(xs: seq<Event>, ys: seq<Event>, f: Event -> Event)
    ensures Map(xs + ys, f) == Map(xs, f) + Map(ys, f)
  {
  }

  lemma FirstOfFour(a: seq<Event>, b: seq<Event>, c: seq<Event>, d: seq<Event>, f: Event -> Event, p: Event -> bool)
    ensures var x, y, z := FirstSuch(Map(a, f), p), FirstSuch(Map(b, f), p), FirstSuch(Map(c, f), p);
            FirstSuch(Map(a + b + c + d, f), p) == if x.Some? then x else if y.Some? then y else if z.Some? then z else FirstSuch(Map(d, f), p)
  {
    hide FirstSuch, Map;
    MapOfTwo(a + b + c, d, f);
    MapOfTwo(a + b, c, f);
    MapOfTwo(a, b, f);
    FirstOfTwo(Map(a + b + c, f), Map(d, f), p);
    FirstOfTwo(Map(a + b, f), Map(c, f), p);
    FirstOfTwo(Map(a, f), Map(b, f), p);
  }

  lemma FirstItself(xs: seq<Event>, all: set<Event>, p: Event -> bool)
    ensures FirstSuch(Map(xs, Final(all)), p) == Image(AsItself, all, FirstSuch(xs, Shows(AsItself, all, p)))
  {
    hide Final, FirstSuch, Map, Shows;
    forall x ensures Shows(AsItself, all, p)(x) <==> p(Final(all)(x)) {
      ShowsIs(AsItself, all, p, x);
    }
    FirstOfMap(xs, Final(all), p, Shows(AsItself, all, p));
  }

  ghost function FirstShown(xs: seq<Event>, path: Path, all: set<Event>, p: Event -> bool): Option<Event> {
    Image(path, all, FirstSuch(xs, Shows(path, all, p)))
  }

  lemma FirstPublished(trace: seq<Event>, all: set<Event>, p: Event -> bool)
    ensures FirstSuch(Map(Published(trace), Final(all)), p) == FirstShown(trace, ByTrace, all, p)
  {
    hide TraceUsable, AsPublish, Final, FirstSuch, Filter, Map, Shows, Image;
    FirstAlong(trace, ByTrace, all, p, TraceUsable, AsPublish);
  }

  lemma FirstPlanned(events: seq<Event>, trace: seq<Event>, all: set<Event>, p: Event -> bool)
    ensures FirstSuch(Map(Planned(events, trace), Final(all)), p) == FirstShown(events, ByPlanner, all, p)
  {
    hide EmergencyByPlanner, AsPlannerEmergency, Final, FirstSuch, Filter, Map, Shows, Image, Published;
    FirstAlong(events + Published(trace), ByPlanner, all, p, EmergencyByPlanner, AsPlannerEmergency);
    FirstOfDerived(events, trace, all, ByPlanner, p);
  }

  lemma FirstMonitored(events: seq<Event>, trace: seq<Event>, all: set<Event>, p: Event -> bool)
    ensures FirstSuch(Map(Monitored(events, trace), Final(all)), p) == FirstShown(events, ByMonitor, all, p)
  {
    hide EmergencyByMonitor, AsMonitorEmergency, Final, FirstSuch, Filter, Map, Shows, Image, Published, Planned;
    FirstAlong(events + Published(trace) + Planned(events, trace), ByMonitor, all, p, EmergencyByMonitor, AsMonitorEmergency);
    FirstOfDerived(events, trace, all, ByMonitor, p);
  }

  /** The first annotated event with a property: a recorded event itself, failing that an
      adapter publication, a planner emergency, a monitor emergency. */
  lemma FirstAnnotated(events: seq<Event>, trace: seq<Event>, p: Event -> bool)
    ensures var all := Normalized(events, trace);
            var a := FirstShown(events, AsItself, all, p);
            var b := FirstShown(trace, ByTrace, all, p);
            var c := FirstShown(events, ByPlanner, all, p);
            FirstSuch(Annotated(events, trace), p) ==
            if a.Some? then a else if b.Some? then b else if c.Some? then c else FirstShown(events, ByMonitor, all, p)
  {
    hide Final, FirstSuch, Map, Shows, Annotated, Normalized, Image, Published, Planned, Monitored;
    var all := Normalized(events, trace);
    AnnotatedParts(events, trace);
    FirstItself(events, all, p);
    FirstPublished(trace, all, p);
    FirstPlanned(events, trace, all, p);
    FirstMonitored(events, trace, all, p);
    FirstOfFour(events, Published(trace), Planned(events, trace), Monitored(events, trace), Final(all), p);
  }
}
