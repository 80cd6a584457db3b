/** The attribution key of an evidence record: once as the writer counts it (bounded
    length) and once as the evaluator recounts the artifact. */
module EvidenceCategories {
  import opened Snapshots

  const MAX_COUNTER_CATEGORY_LENGTH: nat := 96

  function Lookup(es: seq<Entry>, key: string): Tree {
    if es == [] then TNone
    else if es[|es| - 1].key == KText(key) then es[|es| - 1].value
    else Lookup(es[..|es| - 1], key)
  }

  function Field(record: Tree, key: string): Tree {
    if record.TDict? then Lookup(record.entries, key) else TNone
  }

  predicate NonEmptyText(t: Tree) {
    t.TStr? && t.s != ""
  }

  /** The evaluator's key: unbounded. */
  function EvidenceCategory(record: Tree): string {
    var kind := Field(record, "kind");
    var stream := Field(record, "stream");
    if NonEmptyText(kind) then
      if kind.s == "sample" && NonEmptyText(stream) then "sample:" + stream.s else kind.s
    else "__unknown__"
  }

  /** The writer's key: the same text, cut to 96 characters. */
  function RecordCategory(record: Tree): (c: string)
    ensures |c| <= MAX_COUNTER_CATEGORY_LENGTH
    ensures c <= EvidenceCategory(record)
    ensures |EvidenceCategory(record)| <= MAX_COUNTER_CATEGORY_LENGTH ==> c == EvidenceCategory(record)
  {
    var kind := Field(record, "kind");
    var stream := Field(record, "stream");
    var category := if NonEmptyText(kind) then
                      if kind.s == "sample" && NonEmptyText(stream) then kind.s + ":" + stream.s else kind.s
                    else "__unknown__";
    if |category| <= MAX_COUNTER_CATEGORY_LENGTH then category else category[..MAX_COUNTER_CATEGORY_LENGTH]
  }

  /** Python's setdefault on the envelope. */
  function SetDefault(record: Tree, key: string, value: Tree): Tree {
    if record.TDict? && !(exists e | e in record.entries :: e.key == KText(key))
    then TDict(record.entries + [Entry(KText(key), value)])
    else record
  }

  function Stamped(record: Tree, sequence: int, steadyNs: int): Tree {
    SetDefault(SetDefault(record, "record_sequence", TInt(sequence)), "observer_record_steady_ns", TInt(steadyNs))
  }

  lemma {:induction false} LookupFrozen(es: seq<Entry>, key: string)
    ensures Lookup(FreezeEntries(es), key) == Freeze(Lookup(es, key))
  {
    if es != [] {
      var n := |es| - 1;
      LookupFrozen(es[..n], key);
      assert FreezeEntries(es)[..n] == FreezeEntries(es[..n]);
    }
  }

  lemma OtherFieldKept(record: Tree, key: string, value: Tree, other: string)
    requires key != other
    ensures Field(SetDefault(record, key, value), other) == Field(record, other)
  {
    if record.TDict? {
      var grown := record.entries + [Entry(KText(key), value)];
      assert grown[..|grown| - 1] == record.entries;
    }
  }

  /** Copying and stamping a record never moves it to another category, so the count
      taken at submission and the count taken at writing attribute it alike. */
  lemma CategoryIsStable(record: Tree, sequence: int, steadyNs: int)
    ensures RecordCategory(Stamped(Freeze(record), sequence, steadyNs)) == RecordCategory(record)
  {
    hide RecordCategory, SetDefault;
    var frozen := Freeze(record);
    if record.TDict? {
      LookupFrozen(record.entries, "kind");
      LookupFrozen(record.entries, "stream");
    }
    assert Field(frozen, "kind") == Freeze(Field(record, "kind"));
    assert Field(frozen, "stream") == Freeze(Field(record, "stream"));
    var first := SetDefault(frozen, "record_sequence", TInt(sequence));
    OtherFieldKept(frozen, "record_sequence", TInt(sequence), "kind");
    OtherFieldKept(frozen, "record_sequence", TInt(sequence), "stream");
    OtherFieldKept(first, "observer_record_steady_ns", TInt(steadyNs), "kind");
    OtherFieldKept(first, "observer_record_steady_ns", TInt(steadyNs), "stream");
    SameCategory(record, Stamped(frozen, sequence, steadyNs));
  }

  lemma SameCategory(a: Tree, b: Tree)
    requires Field(b, "kind") == Freeze(Field(a, "kind")) && Field(b, "stream") == Freeze(Field(a, "stream"))
    ensures RecordCategory(b) == RecordCategory(a)
  {
    hide Field;
  }
}
