/** World evidence: what one event must carry, and the fold that indexes events by producer
    sequence and collects transactions. */
module WorldEvents {
  import opened Values
  import opened Rows

  /** Producer runtime and sequence number. */
  datatype Id = Id(runtime: string, sequence: int)

  datatype Side = Before | After

  datatype Gap = Gap(runtime: string, first: int, last: int)

  datatype Category = EventRecords | CountRecords

  /** Why evidence is not resolved. */
  datatype Problem =
    | EventIdentityMissing | EventReferenceMissing
    | ExecutionIdentityMissing(side: Side) | ActiveIdentityIncomplete(side: Side) | PendingIdentityIncomplete(side: Side)
    | CounterIdentityMissing | CounterRegression(runtime: string)
    | SequenceGap(gap: Gap)
    | ArtifactCountMismatch(category: Category) | EvidenceDropped(category: Category) | WriterError
    | ExpectedKindsMissing | RequiredEventMissing(kind: string)
    | CountWitnessMissing | RuntimeChanged | TailMissing(runtime: string)
    | ExpectedTransactionsMissing | TransactionMissing
    | AccountingMissing | AccountingMismatch(category: Category)

  /** Why evidence contradicts itself. */
  datatype Clash = KeyMismatch | SequenceConflict | AheadOfProducer(runtime: string)

  datatype TxStatus = TxResolved | TxSuperseded | TxSuspended | TxRecertified | TxResumed | TxInvalidated

  datatype Transaction = Transaction(kinds: seq<string>, status: TxStatus)

  // ---- reading an event -------------------------------------------------------

  function TextOf(e: Row, f: string): string {
    if f in e then Str(e[f]) else ""
  }

  function RuntimeOf(e: Row): string {
    if Truthy(Field(e, "producer_runtime_instance_id")) then TextOf(e, "producer_runtime_instance_id") else ""
  }

  function SequenceOf(e: Row): Option<int> {
    Integer(Field(e, "producer_event_sequence"))
  }

  function KindOf(e: Row): string { TextOf(e, "event_kind") }

  function KeyOf(e: Row): string { TextOf(e, "transaction_key") }

  predicate Identified(e: Row) {
    SequenceOf(e).Some? && SequenceOf(e).value > 0 && RuntimeOf(e) != "" && KindOf(e) != "" && KeyOf(e) != ""
  }

  function IdOf(e: Row): Id
    requires Identified(e)
  {
    Id(RuntimeOf(e), SequenceOf(e).value)
  }

  function Signature(e: Row): seq<Value> {
    [Field(e, "event_kind"), Field(e, "disposition"), Field(e, "transaction_key"),
     Field(e, "prior_world_generation"), Field(e, "prior_world_revision"), Field(e, "prior_world_source_stamp_ns"),
     Field(e, "next_world_generation"), Field(e, "next_world_revision"), Field(e, "next_world_source_stamp_ns"),
     Field(e, "before_timeline_version"), Field(e, "after_timeline_version"),
     Field(e, "before_active_generation"), Field(e, "after_active_generation"),
     Field(e, "before_pending_generation"), Field(e, "after_pending_generation")]
  }

  predicate Positive(e: Row, f: string) {
    Integer(Field(e, f)).Some? && Integer(Field(e, f)).value > 0
  }

  predicate NonNegative(e: Row, f: string) {
    Integer(Field(e, f)).Some? && Integer(Field(e, f)).value >= 0
  }

  /** The event names the world it leads to and the timeline it moves. */
  predicate ReferenceComplete(e: Row) {
    && Positive(e, "before_timeline_version") && Positive(e, "after_timeline_version")
    && Positive(e, "next_world_localization_epoch") && Positive(e, "next_world_generation")
    && Positive(e, "next_world_revision") && NonNegative(e, "next_world_source_stamp_ns")
  }

  function NumberText(e: Row, f: string): string {
    match Integer(Field(e, f))
    case Some(n) => Decimal(n)
    case None => "None"
  }

  function CanonicalKey(e: Row): string {
    NumberText(e, "before_timeline_version") + ":" + NumberText(e, "next_world_localization_epoch") + ":" +
    NumberText(e, "next_world_generation") + ":" + NumberText(e, "next_world_revision") + ":" +
    NumberText(e, "next_world_source_stamp_ns")
  }

  predicate KeyIsCanonical(e: Row) {
    KeyOf(e) == CanonicalKey(e)
  }

  function Prefix(side: Side): string {
    if side.Before? then "before" else "after"
  }

  predicate GoalNamed(e: Row, prefix: string) {
    Positive(e, prefix + "goal_epoch") && Positive(e, prefix + "request_id")
  }

  function ExecutionProblems(e: Row, side: Side): seq<Problem> {
    var active, pending := Prefix(side) + "_active_", Prefix(side) + "_pending_";
    if !NonNegative(e, active + "generation") || !NonNegative(e, pending + "generation") then [ExecutionIdentityMissing(side)]
    else
      (if Positive(e, active + "generation") && !GoalNamed(e, active) then [ActiveIdentityIncomplete(side)] else []) +
      (if Positive(e, pending + "generation") && !GoalNamed(e, pending) then [PendingIdentityIncomplete(side)] else [])
  }

  function EventProblems(e: Row): seq<Problem> {
    (if ReferenceComplete(e) then [] else [EventReferenceMissing]) + ExecutionProblems(e, Before) + ExecutionProblems(e, After)
  }

  predicate Contains(s: string, part: string) {
    exists i :: 0 <= i <= |s| - |part| && s[i..][..|part|] == part
  }

  function StatusAfter(status: TxStatus, e: Row): TxStatus {
    var kind := KindOf(e);
    if kind == "WORLD_PUBLICATION_SUPERSEDED" then TxSuperseded
    else if kind == "WORLD_COMMAND_SUSPENDED" then TxSuspended
    else if kind == "WORLD_COMMAND_RECERTIFIED" then TxRecertified
    else if kind == "WORLD_COMMAND_RESUMED" then TxResumed
    else if kind == "WORLD_PUBLICATION_FAILED" || kind == "WORLD_RECERTIFICATION_REJECTED" then TxInvalidated
    else if kind == "WORLD_PUBLICATION_COMMITTED" then
      if Contains(TextOf(e, "disposition"), "INVALIDATED") then TxInvalidated else TxResolved
    else status
  }

  // ---- the fold ---------------------------------------------------------------

  /** `order` lists the keys of `seen` as they were first seen. */
  datatype Index = Index(
    order: seq<Id>, seen: map<Id, seq<Value>>, clashes: seq<Clash>, problems: seq<Problem>, transactions: map<string, Transaction>)

  const EMPTY: Index := Index([], map[], [], [], map[])

  function Record(txs: map<string, Transaction>, e: Row): map<string, Transaction> {
    var t := if KeyOf(e) in txs then txs[KeyOf(e)] else Transaction([], TxResolved);
    txs[KeyOf(e) := Transaction(t.kinds + [KindOf(e)], StatusAfter(t.status, e))]
  }

  /** An identified event: its own checks first, then its place in the sequence. */
  function Placed(x: Index, e: Row): Index
    requires Identified(e)
  {
    var clashes := x.clashes + if KeyIsCanonical(e) then [] else [KeyMismatch];
    var y := x.(clashes := clashes, problems := x.problems + EventProblems(e));
    if IdOf(e) in x.seen then
      if x.seen[IdOf(e)] != Signature(e) then y.(clashes := clashes + [SequenceConflict]) else y
    else y.(order := x.order + [IdOf(e)], seen := x.seen[IdOf(e) := Signature(e)], transactions := Record(x.transactions, e))
  }

  function Absorb(x: Index, e: Row): Index {
    if Identified(e) then Placed(x, e) else x.(problems := x.problems + [EventIdentityMissing])
  }

  function IndexOf(es: seq<Row>): Index {
    if es == [] then EMPTY else Absorb(IndexOf(es[..|es| - 1]), es[|es| - 1])
  }

  /** The event loop of the reduction. */
  method IndexEvents(es: seq<Row>) returns (x: Index)
    ensures x == IndexOf(es)
  {
    var order: seq<Id>, seen: map<Id, seq<Value>> := [], map[];
    var clashes: seq<Clash>, problems: seq<Problem> := [], [];
    var transactions: map<string, Transaction> := map[];
    hide KeyOf, KindOf, EventProblems, Signature, KeyIsCanonical, Identified, Record;
    for i := 0 to |es|
      invariant Index(order, seen, clashes, problems, transactions) == IndexOf(es[..i])
    {
      var e := es[i];
      assert es[..i + 1][..i] == es[..i];
      if !Identified(e) {
        problems := problems + [EventIdentityMissing];
        continue;
      }
      if !KeyIsCanonical(e) {
        clashes := clashes + [KeyMismatch];
      }
      problems := problems + EventProblems(e);
      if IdOf(e) in seen {
        if seen[IdOf(e)] != Signature(e) {
          clashes := clashes + [SequenceConflict];
        }
        continue;
      }
      order, seen := order + [IdOf(e)], seen[IdOf(e) := Signature(e)];
      transactions := Record(transactions, e);
    }
    assert es[..|es|] == es;
    x := Index(order, seen, clashes, problems, transactions);
  }

  // ---- what the index says about the events -----------------------------------

  ghost predicate Observed(es: seq<Row>, id: Id) {
    exists e | e in es :: Identified(e) && IdOf(e) == id
  }

  ghost predicate Attested(es: seq<Row>, id: Id, signature: seq<Value>) {
    exists e | e in es :: Identified(e) && IdOf(e) == id && Signature(e) == signature
  }

  lemma ObservedStep(es: seq<Row>, e: Row, id: Id)
    ensures Observed(es + [e], id) <==> Observed(es, id) || (Identified(e) && IdOf(e) == id)
  {
    hide Identified, IdOf;
    assert forall f :: f in es + [e] <==> f in es || f == e;
  }

  lemma AttestedStep(es: seq<Row>, e: Row, id: Id, signature: seq<Value>)
    ensures Attested(es + [e], id, signature) <==>
            Attested(es, id, signature) || (Identified(e) && IdOf(e) == id && Signature(e) == signature)
  {
    hide Identified, IdOf, Signature;
    assert forall f :: f in es + [e] <==> f in es || f == e;
  }

  ghost predicate NoRepeat<T>(s: seq<T>) {
    forall i, j :: 0 <= i < j < |s| ==> s[i] != s[j]
  }

  /** The index holds exactly the observed identities, each once, each with a signature that
      some event carries. */
  ghost predicate Faithful(x: Index, es: seq<Row>) {
    && NoRepeat(x.order)
    && (forall id :: id in x.order <==> id in x.seen)
    && (forall id :: id in x.seen <==> Observed(es, id))
    && (forall id | id in x.seen :: Attested(es, id, x.seen[id]))
  }

  lemma FaithfulStep(x: Index, es: seq<Row>, e: Row)
    requires Faithful(x, es)
    ensures Faithful(Absorb(x, e), es + [e])
  {
    hide Identified, IdOf, Signature, EventProblems, KeyIsCanonical, Record, Observed, Attested;
    forall id ensures Observed(es + [e], id) <==> Observed(es, id) || (Identified(e) && IdOf(e) == id) {
      ObservedStep(es, e, id);
    }
    forall id, s
      ensures Attested(es + [e], id, s) <==> Attested(es, id, s) || (Identified(e) && IdOf(e) == id && Signature(e) == s)
    {
      AttestedStep(es, e, id, s);
    }
  }

  lemma {:induction false} IndexIsFaithful(es: seq<Row>)
    ensures Faithful(IndexOf(es), es)
  {
    if es != [] {
      var n := |es| - 1;
      IndexIsFaithful(es[..n]);
      FaithfulStep(IndexOf(es[..n]), es[..n], es[n]);
      assert es == es[..n] + [es[n]];
    }
  }

  /** Two events claim one sequence number and differ. */
  ghost predicate Contradict(e: Row, f: Row) {
    Identified(e) && Identified(f) && IdOf(e) == IdOf(f) && Signature(e) != Signature(f)
  }

  ghost predicate Agreeing(es: seq<Row>) {
    && (forall e | e in es && Identified(e) :: KeyIsCanonical(e))
    && (forall e, f | e in es && f in es :: !Contradict(e, f))
  }

  lemma AgreeingStep(x: Index, es: seq<Row>, e: Row)
    requires Faithful(x, es) && Identified(e)
    ensures Agreeing(es + [e]) <==> Agreeing(es) && KeyIsCanonical(e) && (IdOf(e) in x.seen ==> x.seen[IdOf(e)] == Signature(e))
  {
    hide Identified, IdOf, Signature, KeyIsCanonical;
    var all := es + [e];
    assert forall f :: f in all <==> f in es || f == e;
    if Agreeing(all) && IdOf(e) in x.seen {
      var f :| f in es && Identified(f) && IdOf(f) == IdOf(e) && Signature(f) == x.seen[IdOf(e)];
      assert !Contradict(f, e);
    }
    if Agreeing(es) && KeyIsCanonical(e) && (IdOf(e) in x.seen ==> x.seen[IdOf(e)] == Signature(e)) {
      forall f | f in es ensures !Contradict(e, f) && !Contradict(f, e) {
        if Identified(f) && IdOf(f) == IdOf(e) {
          assert Observed(es, IdOf(e));
          var g :| g in es && Identified(g) && IdOf(g) == IdOf(e) && Signature(g) == x.seen[IdOf(e)];
          assert !Contradict(f, g);
        }
      }
    }
  }

  lemma AgreeingSkip(es: seq<Row>, e: Row)
    requires !Identified(e)
    ensures Agreeing(es + [e]) <==> Agreeing(es)
  {
    hide Identified, IdOf, Signature, KeyIsCanonical;
    assert forall f :: f in es + [e] <==> f in es || f == e;
  }

  /** No clash is reported exactly when every identified event has its canonical key and no
      sequence number carries two signatures. */
  lemma {:induction false} ClashesExactly(es: seq<Row>)
    ensures IndexOf(es).clashes == [] <==> Agreeing(es)
  {
    if es != [] {
      var n := |es| - 1;
      ClashesExactly(es[..n]);
      IndexIsFaithful(es[..n]);
      hide Identified, IdOf, Signature, KeyIsCanonical, EventProblems, Record, Faithful, Agreeing;
      assert es == es[..n] + [es[n]];
      if Identified(es[n]) {
        AgreeingStep(IndexOf(es[..n]), es[..n], es[n]);
      } else {
        AgreeingSkip(es[..n], es[n]);
      }
    }
  }

  /** The event is identified and carries everything a reduction needs. */
  predicate Whole(e: Row) {
    Identified(e) && EventProblems(e) == []
  }

  lemma AbsorbProblems(x: Index, e: Row)
    ensures Absorb(x, e).problems == [] <==> x.problems == [] && Whole(e)
  {
    hide Identified, IdOf, Signature, KeyIsCanonical, EventProblems, Record;
  }

  lemma {:induction false} ProblemsExactly(es: seq<Row>)
    ensures IndexOf(es).problems == [] <==> forall e | e in es :: Whole(e)
  {
    hide Absorb, Whole;
    if es != [] {
      var n := |es| - 1;
      ProblemsExactly(es[..n]);
      AbsorbProblems(IndexOf(es[..n]), es[n]);
      assert forall e :: e in es <==> e in es[..n] || e == es[n];
    }
  }

  /** The transaction keys named by identified events. */
  ghost function KeysOf(es: seq<Row>): set<string> {
    set e | e in es && Identified(e) :: KeyOf(e)
  }

  lemma KeysStep(es: seq<Row>, e: Row)
    ensures KeysOf(es + [e]) == KeysOf(es) + if Identified(e) then {KeyOf(e)} else {}
  {
    hide Identified, KeyOf;
    assert forall f :: f in es + [e] <==> f in es || f == e;
  }

  predicate NoColon(s: string) {
    forall i :: 0 <= i < |s| ==> s[i] != ':'
  }

  lemma {:induction false} DigitsHaveNoColon(n: nat)
    ensures NoColon(Digits(n))
  {
    if n >= 10 { DigitsHaveNoColon(n / 10); }
  }

  lemma OnlyTextHasColons(v: Value)
    requires !NoColon(Str(v))
    ensures v.Text?
  {
    if v.Num? {
      var n := v.r.Floor;
      DigitsHaveNoColon(if n < 0 then -n else n);
    }
  }

  lemma CanonicalKeyHasColon(e: Row)
    ensures !NoColon(CanonicalKey(e))
  {
    hide NumberText;
    var a := NumberText(e, "before_timeline_version");
    assert CanonicalKey(e)[|a|] == ':';
  }

  /** A canonical key is a text, so the signature determines it. */
  lemma CanonicalKeyIsText(e: Row)
    requires KeyIsCanonical(e)
    ensures Field(e, "transaction_key") == Text(KeyOf(e))
  {
    hide CanonicalKey, Str;
    CanonicalKeyHasColon(e);
    if "transaction_key" in e {
      OnlyTextHasColons(e["transaction_key"]);
      TextIsItself(e["transaction_key"]);
    }
  }

  lemma TextIsItself(v: Value)
    requires v.Text?
    ensures Canon(v) == Text(Str(v))
  {
  }

  lemma SignatureNamesKey(e: Row, f: Row)
    requires Signature(e) == Signature(f) && KeyIsCanonical(e) && KeyIsCanonical(f)
    ensures KeyOf(e) == KeyOf(f)
  {
    hide KeyOf, KeyIsCanonical, Field;
    CanonicalKeyIsText(e);
    CanonicalKeyIsText(f);
    assert Signature(e)[2] == Signature(f)[2];
  }

  lemma AgreeingPrefix(es: seq<Row>, e: Row)
    requires Agreeing(es + [e])
    ensures Agreeing(es)
  {
    hide Contradict, Identified, KeyIsCanonical;
    assert forall f :: f in es ==> f in es + [e];
  }

  lemma KnownKey(es: seq<Row>, x: Index, e: Row)
    requires Faithful(x, es) && Agreeing(es + [e]) && Identified(e) && IdOf(e) in x.seen
    ensures KeyOf(e) in KeysOf(es)
  {
    hide Identified, IdOf, Signature, KeyIsCanonical, KeyOf;
    assert Attested(es, IdOf(e), x.seen[IdOf(e)]);
    var f :| f in es && Identified(f) && IdOf(f) == IdOf(e);
    assert f in es + [e] && e in es + [e];
    assert !Contradict(f, e);
    SignatureNamesKey(e, f);
  }

  lemma NothingIndexed()
    ensures IndexOf([]) == EMPTY
  {
  }

  lemma IndexStep(es: seq<Row>)
    requires es != []
    ensures IndexOf(es) == Absorb(IndexOf(es[..|es| - 1]), es[|es| - 1])
  {
    hide Absorb;
  }

  lemma AbsorbKeys(x: Index, e: Row)
    ensures Absorb(x, e).transactions.Keys ==
            x.transactions.Keys + if Identified(e) && IdOf(e) !in x.seen then {KeyOf(e)} else {}
  {
    hide Identified, IdOf, Signature, KeyIsCanonical, EventProblems, KeyOf, KindOf, StatusAfter;
  }

  /** Without clashes the transactions are those the events name. */
  lemma {:induction false} TransactionsExactly(es: seq<Row>)
    requires Agreeing(es)
    ensures IndexOf(es).transactions.Keys == KeysOf(es)
  {
    hide Identified, IdOf, Signature, KeyIsCanonical, Faithful, Agreeing, KeyOf, Absorb, IndexOf;
    if es == [] {
      NothingIndexed();
    } else {
      hide KeysOf;
      var n := |es| - 1;
      var e := es[n];
      assert es == es[..n] + [e];
      IndexStep(es);
      AgreeingPrefix(es[..n], e);
      TransactionsExactly(es[..n]);
      IndexIsFaithful(es[..n]);
      KeysStep(es[..n], e);
      AbsorbKeys(IndexOf(es[..n]), e);
      if Identified(e) && IdOf(e) in IndexOf(es[..n]).seen {
        KnownKey(es[..n], IndexOf(es[..n]), e);
      }
    }
  }
}
