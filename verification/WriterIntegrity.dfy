/** The evaluator's judgement of a writer report and of the artifact it describes. */
module WriterIntegrity {
  import opened Values

  datatype Field =
    | Submitted | Accepted | Written | Pending | Dropped
    | SnapshotRejected | QueueFullDrop | ClosedRejected | SerializationErrors | WriteErrors
    | OtherField(name: string)

  type Dict = map<Field, Value>

  /** A category row as read back: `None` when it is no mapping. */
  datatype NamedRow = NamedRow(name: string, row: Option<Dict>)

  /** A writer report. Mappings keep their order, since the evaluator's loop depends on it. */
  datatype Report = Report(
    captureComplete: Value, counters: Dict, categories: Option<seq<NamedRow>>, terminalMarker: Value)

  datatype Reason =
    | CaptureNotFinalized | CounterInvalid
    | SnapshotRejectedReason | QueueFullReason | ClosedRejectedReason | SerializationReason | WriteReason | EvidenceDrop
    | SubmissionMismatch | AccountingMismatch
    | CategoryInvalid | CategoryMismatch | CategoryTotalMismatch
    | TerminalMarkerMissing
    | ArtifactCountMismatch | CategoryArtifactMismatch

  const COUNTER_FIELDS: seq<Field> :=
    [Submitted, Accepted, Written, Pending, Dropped, SnapshotRejected, QueueFullDrop, ClosedRejected,
     SerializationErrors, WriteErrors]
  const ROW_FIELDS: seq<Field> := [Submitted, Accepted, Written, Dropped]

  function At(d: Dict, f: Field): Value {
    if f in d then d[f] else Null
  }

  /** A counter is readable when it is a non-negative integer and no boolean. */
  function Parse(v: Value): Option<nat> {
    if v.Flag? then None
    else match Integer(v)
      case Some(n) => if n >= 0 then Some(n) else None
      case None => None
  }

  function Readable(d: Dict, fs: seq<Field>): map<Field, nat> {
    if fs == [] then map[]
    else
      var m := Readable(d, fs[..|fs| - 1]);
      var f := fs[|fs| - 1];
      match Parse(At(d, f))
      case Some(n) => m[f := n]
      case None => m
  }

  predicate AllIn(fs: seq<Field>, m: map<Field, nat>) {
    forall f | f in fs :: f in m
  }

  function Count(m: map<Field, nat>, f: Field): nat {
    if f in m then m[f] else 0
  }

  // ---- category rows ----------------------------------------------------------

  datatype Totals = Totals(submitted: nat, accepted: nat, written: nat, dropped: nat)

  const ZERO: Totals := Totals(0, 0, 0, 0)

  predicate RowReadable(r: NamedRow) {
    r.row.Some? && AllIn(ROW_FIELDS, Readable(r.row.value, ROW_FIELDS))
  }

  function RowCounts(r: NamedRow): Totals
    requires RowReadable(r)
  {
    var m := Readable(r.row.value, ROW_FIELDS);
    Totals(m[Submitted], m[Accepted], m[Written], m[Dropped])
  }

  predicate RowConsistent(r: NamedRow)
    requires RowReadable(r)
  {
    var t := RowCounts(r);
    t.submitted == t.accepted + t.dropped && t.accepted == t.written
  }

  function Sum(rows: seq<NamedRow>): Totals {
    if rows == [] then ZERO
    else
      var t := Sum(rows[..|rows| - 1]);
      var r := rows[|rows| - 1];
      if RowReadable(r) then
        var u := RowCounts(r);
        Totals(t.submitted + u.submitted, t.accepted + u.accepted, t.written + u.written, t.dropped + u.dropped)
      else t
  }

  function RowReasons(rows: seq<NamedRow>): set<Reason> {
    (if exists r | r in rows :: !RowReadable(r) then {CategoryInvalid} else {}) +
    (if exists r | r in rows :: RowReadable(r) && !RowConsistent(r) then {CategoryMismatch} else {})
  }

  // ---- the report -------------------------------------------------------------

  function When(b: bool, r: Reason): set<Reason> {
    if b then {r} else {}
  }

  function GlobalReasons(v: Report): set<Reason> {
    CounterReasons(v.captureComplete, Readable(v.counters, COUNTER_FIELDS))
  }

  function CounterReasons(captureComplete: Value, m: map<Field, nat>): set<Reason> {
    When(captureComplete != Flag(true), CaptureNotFinalized) +
    When(!AllIn(COUNTER_FIELDS, m), CounterInvalid) +
    When(Count(m, SnapshotRejected) > 0, SnapshotRejectedReason) +
    When(Count(m, QueueFullDrop) > 0, QueueFullReason) +
    When(Count(m, ClosedRejected) > 0, ClosedRejectedReason) +
    When(Count(m, SerializationErrors) > 0, SerializationReason) +
    When(Count(m, WriteErrors) > 0, WriteReason) +
    When(Count(m, Dropped) > 0, EvidenceDrop) +
    When(AllIn(COUNTER_FIELDS, m) && m[Submitted] != m[Accepted] + m[Dropped], SubmissionMismatch) +
    When(AllIn(COUNTER_FIELDS, m) &&
         (m[Accepted] != m[Written] || m[Pending] != PendingOf(m[Accepted], m[Written])), AccountingMismatch)
  }

  function PendingOf(accepted: nat, written: nat): nat {
    if accepted > written then accepted - written else 0
  }

  /** What the name `counters` is bound to when the total check runs: the parsed counters
      of the report, or, once the loop over rows has run, the last row as it was read. */
  datatype Bound = Parsed(m: map<Field, nat>) | Raw(row: Option<Dict>)

  function BoundAfter(v: Report, rows: seq<NamedRow>): Bound {
    if rows == [] then Parsed(Readable(v.counters, COUNTER_FIELDS)) else Raw(rows[|rows| - 1].row)
  }

  predicate Differs(n: nat, v: Value) {
    Canon(v) != Num(n as real)
  }

  predicate TotalsDiffer(t: Totals, b: Bound) {
    match b
    case Parsed(m) =>
      AllIn(COUNTER_FIELDS, m) &&
      (t.submitted != m[Submitted] || t.accepted != m[Accepted] || t.written != m[Written] || t.dropped != m[Dropped])
    case Raw(None) => false
    case Raw(Some(d)) =>
      (forall f | f in COUNTER_FIELDS :: f in d) &&
      (Differs(t.submitted, d[Submitted]) || Differs(t.accepted, d[Accepted]) ||
       Differs(t.written, d[Written]) || Differs(t.dropped, d[Dropped]))
  }

  function CategoryReasons(v: Report): set<Reason> {
    match v.categories
    case None => {CategoryInvalid}
    case Some(rows) =>
      RowReasons(rows) + if TotalsDiffer(Sum(rows), BoundAfter(v, rows)) then {CategoryTotalMismatch} else {}
  }

  function IntegrityReasons(v: Report, requireTerminal: bool): set<Reason> {
    GlobalReasons(v) + CategoryReasons(v) +
    if requireTerminal && !Truthy(v.terminalMarker) then {TerminalMarkerMissing} else {}
  }

  method ParseCounters(d: Dict, fs: seq<Field>) returns (m: map<Field, nat>, invalid: bool)
    ensures m == Readable(d, fs)
    ensures invalid <==> exists f | f in fs :: Parse(At(d, f)).None?
  {
    m, invalid := map[], false;
    for i := 0 to |fs|
      invariant m == Readable(d, fs[..i])
      invariant invalid <==> exists f | f in fs[..i] :: Parse(At(d, f)).None?
    {
      assert fs[..i + 1][..i] == fs[..i];
      assert fs[..i + 1] == fs[..i] + [fs[i]];
      var parsed := Parse(At(d, fs[i]));
      if parsed.None? {
        invalid := true;
      } else {
        m := m[fs[i] := parsed.value];
      }
    }
    assert fs[..|fs|] == fs;
  }

  lemma {:induction false} ReadableIs(d: Dict, fs: seq<Field>, f: Field)
    ensures f in Readable(d, fs) <==> f in fs && Parse(At(d, f)).Some?
    ensures f in Readable(d, fs) ==> Readable(d, fs)[f] == Parse(At(d, f)).value
  {
    hide Parse, At;
    if fs != [] {
      var n := |fs| - 1;
      ReadableIs(d, fs[..n], f);
      assert f in fs <==> f in fs[..n] || f == fs[n];
    }
  }

  lemma ReadableHas(d: Dict, fs: seq<Field>)
    ensures forall f :: f in Readable(d, fs) <==> f in fs && Parse(At(d, f)).Some?
    ensures forall f | f in Readable(d, fs) :: Readable(d, fs)[f] == Parse(At(d, f)).value
    ensures AllIn(fs, Readable(d, fs)) <==> forall f | f in fs :: Parse(At(d, f)).Some?
  {
    hide Parse, At, Readable;
    forall f
      ensures f in Readable(d, fs) <==> f in fs && Parse(At(d, f)).Some?
      ensures f in Readable(d, fs) ==> Readable(d, fs)[f] == Parse(At(d, f)).value
    {
      ReadableIs(d, fs, f);
    }
  }

  method ReadRow(r: NamedRow) returns (counts: Option<Totals>)
    ensures counts.Some? <==> RowReadable(r)
    ensures counts.Some? ==> counts.value == RowCounts(r)
  {
    if r.row.None? {
      return None;
    }
    var m, invalid := ParseCounters(r.row.value, ROW_FIELDS);
    ReadableHas(r.row.value, ROW_FIELDS);
    hide Readable, Parse;
    if invalid {
      return None;
    }
    assert Submitted in ROW_FIELDS && Accepted in ROW_FIELDS && Written in ROW_FIELDS && Dropped in ROW_FIELDS;
    return Some(Totals(m[Submitted], m[Accepted], m[Written], m[Dropped]));
  }

  lemma NoRows(rows: seq<NamedRow>)
    ensures RowReasons(rows[..0]) == {} && Sum(rows[..0]) == ZERO
  {
    assert rows[..0] == [];
  }

  /** What one more row adds. */
  lemma RowStep(rows: seq<NamedRow>, i: nat)
    requires i < |rows|
    ensures RowReasons(rows[..i + 1]) ==
            RowReasons(rows[..i]) + if !RowReadable(rows[i]) then {CategoryInvalid} else if !RowConsistent(rows[i]) then {CategoryMismatch} else {}
    ensures var t := Sum(rows[..i]);
            Sum(rows[..i + 1]) ==
            if !RowReadable(rows[i]) then t
            else var u := RowCounts(rows[i]); Totals(t.submitted + u.submitted, t.accepted + u.accepted, t.written + u.written, t.dropped + u.dropped)
  {
    hide RowReadable, RowConsistent, RowCounts;
    assert rows[..i + 1][..i] == rows[..i];
    assert forall r :: r in rows[..i + 1] <==> r in rows[..i] || r == rows[i];
  }

  method JudgeRows(rows: seq<NamedRow>) returns (reasons: set<Reason>, totals: Totals)
    ensures reasons == RowReasons(rows)
    ensures totals == Sum(rows)
  {
    hide RowReadable, RowReasons, Sum, RowCounts;
    reasons, totals := {}, ZERO;
    NoRows(rows);
    for i := 0 to |rows|
      invariant reasons == RowReasons(rows[..i])
      invariant totals == Sum(rows[..i])
    {
      RowStep(rows, i);
      var counts := ReadRow(rows[i]);
      match counts
      case None =>
        reasons := reasons + {CategoryInvalid};
      case Some(u) =>
        if u.submitted != u.accepted + u.dropped || u.accepted != u.written {
          reasons := reasons + {CategoryMismatch};
        }
        totals := Totals(totals.submitted + u.submitted, totals.accepted + u.accepted,
                         totals.written + u.written, totals.dropped + u.dropped);
    }
    assert rows[..|rows|] == rows;
  }

  method WriterIntegrityOf(v: Report, requireTerminal: bool) returns (reasons: set<Reason>)
    ensures reasons == IntegrityReasons(v, requireTerminal)
  {
    hide RowReasons, Sum, Readable, TotalsDiffer;
    hide CounterReasons;
    var m, _ := ParseCounters(v.counters, COUNTER_FIELDS);
    reasons := CounterReasons(v.captureComplete, m);
    var counters := Parsed(m);
    if v.categories.None? {
      reasons := reasons + {CategoryInvalid};
    } else {
      var rows := v.categories.value;
      var rowReasons, totals := JudgeRows(rows);
      reasons := reasons + rowReasons;
      if rows != [] {
        counters := Raw(rows[|rows| - 1].row);
      }
      if TotalsDiffer(totals, counters) {
        reasons := reasons + {CategoryTotalMismatch};
      }
    }
    assert reasons == GlobalReasons(v) + CategoryReasons(v);
    if requireTerminal && !Truthy(v.terminalMarker) {
      reasons := reasons + {TerminalMarkerMissing};
    }
  }

  // ---- what an accepted report says -------------------------------------------

  predicate CleanCounters(m: map<Field, nat>) {
    && AllIn(COUNTER_FIELDS, m)
    && m[Submitted] == m[Accepted] == m[Written] && m[Pending] == 0 && m[Dropped] == 0
    && m[SnapshotRejected] == 0 && m[QueueFullDrop] == 0 && m[ClosedRejected] == 0
    && m[SerializationErrors] == 0 && m[WriteErrors] == 0
  }

  predicate CleanRow(r: NamedRow) {
    RowReadable(r) && RowConsistent(r)
  }

  /** The total check that the loop leaves: the report's own totals only when there are no
      rows, otherwise the last row, and only if that row carries all ten counters. */
  predicate TotalsPass(v: Report, rows: seq<NamedRow>) {
    !TotalsDiffer(Sum(rows), BoundAfter(v, rows))
  }

  /** A report draws no reason exactly when it is finalized and clean, every row is
      readable and consistent, the total check passes and the marker is there. */
  lemma AcceptedReport(v: Report, requireTerminal: bool)
    ensures IntegrityReasons(v, requireTerminal) == {} <==>
            && v.captureComplete == Flag(true)
            && CleanCounters(Readable(v.counters, COUNTER_FIELDS))
            && v.categories.Some?
            && (forall r | r in v.categories.value :: CleanRow(r))
            && TotalsPass(v, v.categories.value)
            && (requireTerminal ==> Truthy(v.terminalMarker))
  {
    GlobalsEmpty(v);
    CategoriesEmpty(v);
    hide GlobalReasons, CategoryReasons, CleanCounters, TotalsPass, CleanRow, Readable;
  }

  lemma GlobalsEmpty(v: Report)
    ensures GlobalReasons(v) == {} <==>
            v.captureComplete == Flag(true) && CleanCounters(Readable(v.counters, COUNTER_FIELDS))
  {
    hide Readable;
    var m := Readable(v.counters, COUNTER_FIELDS);
    var reasons := CounterReasons(v.captureComplete, m);
    CounterReasonsHas(v.captureComplete, m);
    hide CounterReasons;
    if reasons == {} {
      assert CaptureNotFinalized !in reasons && CounterInvalid !in reasons;
    }
    if v.captureComplete == Flag(true) && CleanCounters(m) {
      assert forall r :: r !in reasons;
    }
  }

  lemma CounterReasonsHas(captureComplete: Value, m: map<Field, nat>)
    ensures var reasons := CounterReasons(captureComplete, m);
            && (CaptureNotFinalized in reasons <==> captureComplete != Flag(true))
            && (CounterInvalid in reasons <==> !AllIn(COUNTER_FIELDS, m))
            && (captureComplete == Flag(true) && CleanCounters(m) ==> reasons == {})
            && (reasons == {} && AllIn(COUNTER_FIELDS, m) ==> CleanCounters(m))
  {
    hide AllIn;
    var reasons := CounterReasons(captureComplete, m);
    if reasons == {} && AllIn(COUNTER_FIELDS, m) {
      assert SnapshotRejectedReason !in reasons && QueueFullReason !in reasons && ClosedRejectedReason !in reasons;
      assert SerializationReason !in reasons && WriteReason !in reasons && EvidenceDrop !in reasons;
      assert SubmissionMismatch !in reasons && AccountingMismatch !in reasons;
      AllTenIn(m);
    }
    if CleanCounters(m) {
      AllTenIn(m);
    }
  }

  lemma AllTenIn(m: map<Field, nat>)
    requires AllIn(COUNTER_FIELDS, m)
    ensures forall f | f in COUNTER_FIELDS :: f in m
  {
  }

  lemma CategoriesEmpty(v: Report)
    ensures CategoryReasons(v) == {} <==>
            && v.categories.Some?
            && (forall r | r in v.categories.value :: CleanRow(r))
            && TotalsPass(v, v.categories.value)
  {
    hide Readable, Sum, RowReadable, RowConsistent, TotalsDiffer;
    if CategoryReasons(v) == {} {
      assert CategoryInvalid !in CategoryReasons(v);
      assert CategoryMismatch !in CategoryReasons(v) && CategoryTotalMismatch !in CategoryReasons(v);
    }
  }
}
