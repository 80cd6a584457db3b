/** The two sides together: what the evaluator says about the report and the artifact of
    a capture that the writer declared complete. */
module JudgedCaptures {
  import opened Values
  import opened Snapshots
  import opened EvidenceCategories
  import P = WriterProtocol
  import opened WriterSafety
  import opened CounterRows
  import opened WriterAccounting
  import opened WriterRoster
  import opened WriterIntegrity

  // ---- recounting the artifact ------------------------------------------------

  function Observed(records: seq<Tree>): map<string, nat> {
    if records == [] then map[]
    else
      var m := Observed(records[..|records| - 1]);
      var c := EvidenceCategory(records[|records| - 1]);
      m[c := (if c in m then m[c] else 0) + 1]
  }

  function Declared(rows: seq<NamedRow>): map<string, int> {
    if rows == [] then map[]
    else
      var m := Declared(rows[..|rows| - 1]);
      var r := rows[|rows| - 1];
      if r.row.Some? && Integer(At(r.row.value, Written)).Some?
      then m[r.name := Integer(At(r.row.value, Written)).value] else m
  }

  predicate SameCounts(observed: map<string, nat>, declared: map<string, int>) {
    observed.Keys == declared.Keys && forall c | c in observed :: observed[c] == declared[c]
  }

  function ArtifactReasons(v: Report, records: seq<Tree>): set<Reason> {
    var written := Integer(At(v.counters, Written));
    When(written.Some? && written.value != |records|, ArtifactCountMismatch) +
    When(v.categories.Some? && !SameCounts(Observed(records), Declared(v.categories.value)), CategoryArtifactMismatch)
  }

  method ArtifactCountReasons(v: Report, records: seq<Tree>) returns (reasons: set<Reason>)
    ensures reasons == ArtifactReasons(v, records)
  {
    hide EvidenceCategory;
    reasons := {};
    var written := Integer(At(v.counters, Written));
    if written.Some? && written.value != |records| {
      reasons := reasons + {ArtifactCountMismatch};
    }
    if v.categories.None? {
      return;
    }
    var observed: map<string, nat> := map[];
    for i := 0 to |records|
      invariant observed == Observed(records[..i])
    {
      assert records[..i + 1][..i] == records[..i];
      var c := EvidenceCategory(records[i]);
      observed := observed[c := (if c in observed then observed[c] else 0) + 1];
    }
    assert records[..|records|] == records;
    var rows := v.categories.value;
    var declared: map<string, int> := map[];
    for i := 0 to |rows|
      invariant declared == Declared(rows[..i])
    {
      assert rows[..i + 1][..i] == rows[..i];
      var r := rows[i];
      if r.row.Some? {
        var count := Integer(At(r.row.value, Written));
        if count.Some? {
          declared := declared[r.name := count.value];
        }
      }
    }
    assert rows[..|rows|] == rows;
    if !SameCounts(observed, declared) {
      reasons := reasons + {CategoryArtifactMismatch};
    }
  }

  // ---- the report of a writer -------------------------------------------------

  function N(n: nat): Value {
    Num(n as real)
  }

  function RowDict(r: P.Row): Dict {
    map[Submitted := N(r.submitted), Accepted := N(r.accepted), Written := N(r.written), Dropped := N(r.dropped)]
  }

  function Rows(rows: P.Rows, order: seq<string>): seq<NamedRow>
    requires forall name | name in order :: name in rows
  {
    seq(|order|, i requires 0 <= i < |order| => NamedRow(order[i], Some(RowDict(rows[order[i]]))))
  }

  /** The order in which a mapping lists its keys. */
  ghost predicate Lists(order: seq<string>, rows: P.Rows) {
    && (forall name :: name in order <==> name in rows)
    && (forall i, j | 0 <= i < j < |order| :: order[i] != order[j])
  }

  function CounterOf(c: P.Counters, f: Field): nat {
    match f
    case Submitted => c.submitted
    case Accepted => c.accepted
    case Written => c.written
    case Pending => PendingOf(c.accepted, c.written)
    case Dropped => c.dropped
    case SnapshotRejected => c.snapshotRejected
    case QueueFullDrop => c.queueFull
    case ClosedRejected => c.closedRejected
    case SerializationErrors => c.serializationErrors
    case WriteErrors => c.writeErrors
    case OtherField(_) => 0
  }

  function CounterDict(c: P.Counters): Dict {
    map f | f in COUNTER_FIELDS :: N(CounterOf(c, f))
  }

  /** The report a closed writer hands over, with the terminal marker added by the session. */
  function ReportOf(c: P.Counters, order: seq<string>, marker: Value): Report
    requires forall name | name in order :: name in c.rows
  {
    Report(Flag(c.complete), CounterDict(c), Some(Rows(c.rows, order)), marker)
  }

  lemma ParseN(n: nat)
    ensures Parse(N(n)) == Some(n) && Integer(N(n)) == Some(n)
  {
    assert (n as real).Floor == n;
  }

  lemma TenFields()
    ensures forall f: Field | !f.OtherField? :: f in COUNTER_FIELDS
  {
    var fs := COUNTER_FIELDS;
    assert fs[0] == Submitted && fs[1] == Accepted && fs[2] == Written && fs[3] == Pending && fs[4] == Dropped;
    assert fs[5] == SnapshotRejected && fs[6] == QueueFullDrop && fs[7] == ClosedRejected;
    assert fs[8] == SerializationErrors && fs[9] == WriteErrors;
  }

  lemma CounterDictReads(c: P.Counters)
    ensures var m := Readable(CounterDict(c), COUNTER_FIELDS);
            AllIn(COUNTER_FIELDS, m) && forall f | f in COUNTER_FIELDS :: m[f] == CounterOf(c, f)
  {
    var d := CounterDict(c);
    var fs := COUNTER_FIELDS;
    ReadableHas(d, fs);
    hide Readable, Parse, N, CounterOf;
    forall f | f in fs ensures Parse(At(d, f)) == Some(CounterOf(c, f)) {
      ParseN(CounterOf(c, f));
    }
  }

  lemma RowDictReads(name: string, r: P.Row)
    ensures var named := NamedRow(name, Some(RowDict(r)));
            && RowReadable(named)
            && RowCounts(named) == Totals(r.submitted, r.accepted, r.written, r.dropped)
            && Integer(At(RowDict(r), Written)) == Some(r.written)
            && Pending !in RowDict(r)
  {
    ReadableHas(RowDict(r), ROW_FIELDS);
    ParseN(r.submitted); ParseN(r.accepted); ParseN(r.written); ParseN(r.dropped);
    hide Readable, Parse, N;
    var fs := ROW_FIELDS;
    assert fs[0] == Submitted && fs[1] == Accepted && fs[2] == Written && fs[3] == Dropped;
  }

  // ---- complete captures are accepted -----------------------------------------

  /** What the safety and accounting theorems give for a state whose capture is complete. */
  ghost predicate Finished(s: P.State) {
    && Safe(s) && Balanced(s) && Roster(s) && s.c.complete && s.holder.Free?
  }

  /** A row while the lock is free. */
  lemma FreeRow(s: P.State, name: string)
    requires RowsBalanced(s) && s.holder.Free? && name in s.c.rows
    ensures s.c.rows[name].submitted == s.c.rows[name].accepted + s.c.rows[name].dropped
    ensures s.c.rows[name].accepted == CountIn(s.log, name) && s.c.rows[name].written == CountIn(s.committed, name)
  {
    hide CountIn;
    assert RowBalanced(s, name);
    assert Undecided(s, name) == 0 && PlacedIn(s, name) == 0;
  }

  lemma FinishedFacts(s: P.State)
    requires Finished(s)
    ensures s.file == s.log && s.committed == s.log
    ensures s.c.written == |s.file| && s.c.dropped == 0 && s.c.accepted == s.c.written && s.c.submitted == s.c.accepted
    ensures s.c.snapshotRejected == 0 && s.c.queueFull == 0 && s.c.closedRejected == 0
    ensures s.c.serializationErrors == 0 && s.c.writeErrors == 0
    ensures Totalled(s.c)
    ensures forall name | name in s.c.rows ::
              s.c.rows[name].submitted == s.c.rows[name].accepted + s.c.rows[name].dropped &&
              s.c.rows[name].accepted == s.c.rows[name].written == CountIn(s.file, name)
    ensures forall a | a in s.log :: TaggedRight(s.c.rows, a)
    ensures Bounded(s.c.rows)
  {
    hide CountIn, Total, TaggedRight, Bounded, Recs, Roster;
    assert s.file == s.log && s.committed == s.log;
    forall name | name in s.c.rows
      ensures s.c.rows[name].submitted == s.c.rows[name].accepted + s.c.rows[name].dropped
      ensures s.c.rows[name].accepted == s.c.rows[name].written == CountIn(s.file, name)
    {
      FreeRow(s, name);
    }
  }

  lemma ReportTotalsPass(s: P.State, order: seq<string>, marker: Value)
    requires Totalled(s.c) && Lists(order, s.c.rows)
    ensures TotalsPass(ReportOf(s.c, order, marker), Rows(s.c.rows, order))
  {
    hide Readable;
    var rows := Rows(s.c.rows, order);
    TenFields();
    if order == [] {
      assert s.c.rows.Keys == {};
      assert s.c.rows == map[];
      CounterDictReads(s.c);
    } else {
      var last := order[|order| - 1];
      RowDictReads(last, s.c.rows[last]);
      assert rows[|rows| - 1].row == Some(RowDict(s.c.rows[last]));
    }
  }

  lemma CleanFromCounts(c: P.Counters, m: map<Field, nat>)
    requires AllIn(COUNTER_FIELDS, m) && forall f | f in COUNTER_FIELDS :: m[f] == CounterOf(c, f)
    requires c.dropped == 0 && c.accepted == c.written && c.submitted == c.accepted
    requires c.snapshotRejected == 0 && c.queueFull == 0 && c.closedRejected == 0
    requires c.serializationErrors == 0 && c.writeErrors == 0
    ensures CleanCounters(m)
  {
    TenFields();
  }

  lemma ReportCountersClean(s: P.State)
    requires Finished(s)
    ensures CleanCounters(Readable(CounterDict(s.c), COUNTER_FIELDS))
  {
    hide Finished, Readable, CounterDict, Totalled, TaggedRight, Bounded, CountIn, CounterOf, CleanCounters;
    FinishedFacts(s);
    CounterDictReads(s.c);
    CleanFromCounts(s.c, Readable(CounterDict(s.c), COUNTER_FIELDS));
  }

  lemma ReportRowsClean(s: P.State, order: seq<string>)
    requires Finished(s) && Lists(order, s.c.rows)
    ensures forall r | r in Rows(s.c.rows, order) :: CleanRow(r)
  {
    FinishedFacts(s);
    hide Finished, Totalled, TaggedRight, Bounded, Readable;
    forall r | r in Rows(s.c.rows, order) ensures CleanRow(r) {
      RowDictReads(r.name, s.c.rows[r.name]);
    }
  }

  /** A complete capture with its terminal marker draws no integrity reason. */
  lemma CompleteCaptureAccepted(s: P.State, order: seq<string>, marker: Value)
    requires Finished(s) && Lists(order, s.c.rows) && Truthy(marker)
    ensures IntegrityReasons(ReportOf(s.c, order, marker), true) == {}
  {
    FinishedFacts(s);
    ReportCountersClean(s);
    ReportRowsClean(s, order);
    ReportTotalsPass(s, order, marker);
    AcceptedReport(ReportOf(s.c, order, marker), true);
    hide IntegrityReasons, TotalsPass, CleanRow, CleanCounters, Readable, Totalled, TaggedRight, Bounded, CountIn, Balanced, Roster;
  }

  // ---- and the artifact matches -----------------------------------------------

  lemma {:induction false} DeclaredRows(rows: P.Rows, order: seq<string>)
    requires forall name | name in order :: name in rows
    ensures var d := Declared(Rows(rows, order));
            && (forall name :: name in d <==> name in order)
            && (forall name | name in d :: d[name] == rows[name].written)
  {
    if order != [] {
      var n := |order| - 1;
      DeclaredRows(rows, order[..n]);
      assert Rows(rows, order)[..n] == Rows(rows, order[..n]);
      RowDictReads(order[n], rows[order[n]]);
      assert order == order[..n] + [order[n]];
    }
  }

  lemma {:induction false} ObservedIsCount(xs: seq<P.Accepted>)
    requires forall a | a in xs :: a.row == EvidenceCategory(a.envelope)
    ensures var o := Observed(Envelopes(xs));
            && (forall c :: c in o <==> CountIn(xs, c) > 0)
            && (forall c | c in o :: o[c] == CountIn(xs, c))
  {
    hide EvidenceCategory;
    if xs != [] {
      var n := |xs| - 1;
      assert forall a | a in xs[..n] :: a in xs;
      ObservedIsCount(xs[..n]);
      assert Envelopes(xs)[..n] == Envelopes(xs[..n]);
      assert xs[n] in xs;
    }
  }

  lemma {:induction false} ObservedKeys(records: seq<Tree>)
    ensures forall r | r in records :: EvidenceCategory(r) in Observed(records)
  {
    hide EvidenceCategory;
    if records != [] {
      var n := |records| - 1;
      ObservedKeys(records[..n]);
      assert records == records[..n] + [records[n]];
    }
  }

  /** Every record is counted under its full category name. */
  ghost predicate NamedInFull(s: P.State) {
    forall a | a in s.log :: EvidenceCategory(a.envelope) in s.c.rows
  }

  lemma RowsAreShort(s: P.State)
    requires Finished(s)
    ensures forall name | name in s.c.rows :: |name| <= MAX_COUNTER_CATEGORY_LENGTH
  {
    FinishedFacts(s);
    hide Balanced, Safe, RecordCategory, EvidenceCategory;
    forall name | name in s.c.rows ensures |name| <= MAX_COUNTER_CATEGORY_LENGTH {
      assert name in s.seen || name == P.OTHER;
    }
  }

  lemma RowsAreSeen(rows: P.Rows, seen: set<string>)
    requires Rostered(rows, seen) && forall c | c in seen :: c in rows
    ensures rows.Keys == seen
  {
  }

  lemma FullNameIsRow(s: P.State, a: P.Accepted)
    requires a in s.log && TaggedRight(s.c.rows, a) && EvidenceCategory(a.envelope) in s.c.rows
    requires |EvidenceCategory(a.envelope)| <= MAX_COUNTER_CATEGORY_LENGTH
    ensures RecordCategory(a.envelope) == EvidenceCategory(a.envelope) == a.row
  {
  }

  lemma FullNamesAreRows(s: P.State)
    requires Finished(s) && NamedInFull(s)
    ensures forall a | a in s.log :: a.row == EvidenceCategory(a.envelope)
    ensures forall name | name in s.c.rows :: CountIn(s.log, name) > 0
  {
    FinishedFacts(s);
    RowsAreShort(s);
    hide Balanced, Safe, RecordCategory, EvidenceCategory, CountIn, TaggedRight, Totalled, Bounded, Settled;
    forall a | a in s.log ensures a.row == EvidenceCategory(a.envelope) == RecordCategory(a.envelope) {
      FullNameIsRow(s, a);
    }
    RowsAreSeen(s.c.rows, s.seen);
    forall name | name in s.c.rows ensures CountIn(s.log, name) > 0 {
      var a :| a in s.log && RecordCategory(a.envelope) == name;
      CountAtMost(s.log, name);
    }
  }

  lemma NoArtifactReason(v: Report, records: seq<Tree>)
    requires v.categories.Some?
    ensures ArtifactReasons(v, records) == {} <==>
            && (Integer(At(v.counters, Written)).Some? ==> Integer(At(v.counters, Written)).value == |records|)
            && SameCounts(Observed(records), Declared(v.categories.value))
  {
    hide Observed, Declared, SameCounts;
    var reasons := ArtifactReasons(v, records);
    if reasons == {} {
      assert ArtifactCountMismatch !in reasons && CategoryArtifactMismatch !in reasons;
    }
  }

  lemma SameKeys(xs: seq<P.Accepted>, rows: P.Rows, o: map<string, nat>, d: map<string, int>)
    requires forall c :: c in o <==> CountIn(xs, c) > 0
    requires forall c | c in o :: o[c] == CountIn(xs, c)
    requires forall c :: c in d <==> c in rows
    requires forall c | c in d :: d[c] == CountIn(xs, c)
    requires forall c | c in rows :: CountIn(xs, c) > 0
    requires forall a | a in xs :: a.row in rows
    ensures SameCounts(o, d)
  {
    forall c ensures c in o <==> c in d {
      CountAtMost(xs, c);
    }
  }

  lemma CountsAgreeWhenNamedInFull(s: P.State, order: seq<string>)
    requires Finished(s) && Lists(order, s.c.rows) && NamedInFull(s)
    ensures SameCounts(Observed(Envelopes(s.file)), Declared(Rows(s.c.rows, order)))
  {
    hide Finished, TaggedRight, Totalled, Bounded, CountIn, EvidenceCategory, Observed, Declared, SameCounts, Rows, Envelopes;
    FinishedFacts(s);
    FullNamesAreRows(s);
    DeclaredRows(s.c.rows, order);
    ObservedIsCount(s.file);
    SameKeys(s.file, s.c.rows, Observed(Envelopes(s.file)), Declared(Rows(s.c.rows, order)));
  }

  lemma EnvelopeOf(xs: seq<P.Accepted>, a: P.Accepted)
    requires a in xs
    ensures a.envelope in Envelopes(xs)
  {
    var i :| 0 <= i < |xs| && xs[i] == a;
    assert Envelopes(xs)[i] == a.envelope;
  }

  lemma CountsAgreeOnlyWhenNamedInFull(s: P.State, order: seq<string>)
    requires Finished(s) && Lists(order, s.c.rows)
    requires SameCounts(Observed(Envelopes(s.file)), Declared(Rows(s.c.rows, order)))
    ensures NamedInFull(s)
  {
    hide Finished, TaggedRight, Totalled, Bounded, CountIn, EvidenceCategory, Observed, Declared, Rows, Envelopes;
    FinishedFacts(s);
    DeclaredRows(s.c.rows, order);
    ObservedKeys(Envelopes(s.file));
    forall a | a in s.log ensures EvidenceCategory(a.envelope) in s.c.rows {
      EnvelopeOf(s.file, a);
    }
  }

  /** A complete capture draws no artifact-count reason exactly when the full category name
      of every record has a counter row. */
  lemma ArtifactAcceptedExactly(s: P.State, order: seq<string>, marker: Value)
    requires Finished(s) && Lists(order, s.c.rows)
    ensures ArtifactReasons(ReportOf(s.c, order, marker), Envelopes(s.file)) == {} <==> NamedInFull(s)
  {
    FinishedFacts(s);
    var v := ReportOf(s.c, order, marker);
    NoArtifactReason(v, Envelopes(s.file));
    ParseN(s.c.written);
    TenFields();
    assert At(v.counters, Written) == N(s.c.written);
    hide Finished, TaggedRight, Totalled, Bounded, CountIn, EvidenceCategory, Observed, Declared, SameCounts, ArtifactReasons, NamedInFull;
    if NamedInFull(s) {
      CountsAgreeWhenNamedInFull(s, order);
    } else if SameCounts(Observed(Envelopes(s.file)), Declared(Rows(s.c.rows, order))) {
      CountsAgreeOnlyWhenNamedInFull(s, order);
    }
  }

  /** Short names and at most 128 of them are enough. */
  lemma FewShortCategoriesMatch(s: P.State, order: seq<string>, marker: Value, names: set<string>)
    requires Finished(s) && Lists(order, s.c.rows)
    requires |names| <= P.MAX_COUNTER_CATEGORIES
    requires forall a | a in s.file ::
               EvidenceCategory(a.envelope) in names && |EvidenceCategory(a.envelope)| <= MAX_COUNTER_CATEGORY_LENGTH
    ensures ArtifactReasons(ReportOf(s.c, order, marker), Envelopes(s.file)) == {}
  {
    FewNamesAreFull(s, names);
    ArtifactAcceptedExactly(s, order, marker);
    hide Finished, NamedInFull, ArtifactReasons;
  }

  lemma FewNamesAreFull(s: P.State, names: set<string>)
    requires Finished(s) && |names| <= P.MAX_COUNTER_CATEGORIES
    requires forall a | a in s.file ::
               EvidenceCategory(a.envelope) in names && |EvidenceCategory(a.envelope)| <= MAX_COUNTER_CATEGORY_LENGTH
    ensures NamedInFull(s)
  {
    FinishedFacts(s);
    assert Rostered(s.c.rows, s.seen) && Attributed(s);
    forall a | a in s.log ensures RecordCategory(a.envelope) == EvidenceCategory(a.envelope) && RecordCategory(a.envelope) in names {
      assert a in s.file;
    }
    hide Finished, Totalled, CountIn, EvidenceCategory, RecordCategory, TaggedRight, Bounded, Rostered;
    assert s.seen <= names;
    Subset(s.seen, names);
    OwnRows(s.c.rows, s.seen);
  }

  /** For every interleaving: if the capture is complete, the evaluator accepts the report,
      and it accepts the artifact exactly when every record is named in full. */
  lemma EveryCompleteRunIsAccepted(
    capacity: nat, batchSize: nat, actions: seq<P.Action>, order: seq<string>, marker: Value)
    requires P.Run(P.Initial(capacity, batchSize), actions)
    requires var s := P.Last(P.Initial(capacity, batchSize), actions);
             s.c.complete && s.holder.Free? && Lists(order, s.c.rows)
    requires Truthy(marker)
    ensures var s := P.Last(P.Initial(capacity, batchSize), actions);
            && IntegrityReasons(ReportOf(s.c, order, marker), true) == {}
            && (ArtifactReasons(ReportOf(s.c, order, marker), Envelopes(s.file)) == {} <==> NamedInFull(s))
  {
    var start := P.Initial(capacity, batchSize);
    InitialIsBalanced(capacity, batchSize);
    assert Roster(start);
    hide Safe, Balanced, Roster, P.Run, P.Last, P.Initial, IntegrityReasons, ArtifactReasons, NamedInFull;
    RunIsSafe(start, actions);
    RunIsBalanced(start, actions);
    RunIsRostered(start, actions);
    var s := P.Last(start, actions);
    CompleteCaptureAccepted(s, order, marker);
    ArtifactAcceptedExactly(s, order, marker);
  }

  // ---- a bad total goes unnoticed ---------------------------------------------

  /** A report whose category rows do not add up to its totals is nevertheless accepted as
      soon as there is a row: here one row of one record against totals of zero. */
  lemma BadTotalsAccepted()
    ensures var c := P.Initial(1, 1).c.(complete := true);
            var v := Report(Flag(true), CounterDict(c), Some([NamedRow("sample", Some(RowDict(P.Row(1, 1, 1, 0))))]), Flag(true));
            Sum(v.categories.value).written != c.written && IntegrityReasons(v, true) == {}
  {
    var r := P.Row(1, 1, 1, 0);
    var c := P.Initial(1, 1).c.(complete := true);
    OneRowReport(c, r, "sample");
  }

  lemma OneRowReport(c: P.Counters, r: P.Row, name: string)
    requires c.dropped == 0 && c.accepted == c.written && c.submitted == c.accepted
    requires c.snapshotRejected == 0 && c.queueFull == 0 && c.closedRejected == 0
    requires c.serializationErrors == 0 && c.writeErrors == 0
    requires r.submitted == r.accepted + r.dropped && r.accepted == r.written
    ensures var v := Report(Flag(true), CounterDict(c), Some([NamedRow(name, Some(RowDict(r)))]), Flag(true));
            Sum(v.categories.value).written == r.written && IntegrityReasons(v, true) == {}
  {
    var named := NamedRow(name, Some(RowDict(r)));
    var v := Report(Flag(true), CounterDict(c), Some([named]), Flag(true));
    RowDictReads(name, r);
    TenFields();
    CounterDictReads(c);
    hide Readable, CounterDict, RowDict, CleanCounters, CounterOf, IntegrityReasons;
    CleanFromCounts(c, Readable(v.counters, COUNTER_FIELDS));
    SumOfOne(named);
    assert forall x | x in [named] :: CleanRow(x);
    assert TotalsPass(v, [named]);
    AcceptedReport(v, true);
  }

  lemma SumOfOne(r: NamedRow)
    requires RowReadable(r)
    ensures Sum([r]) == RowCounts(r)
  {
    hide RowReadable;
    assert [r][..0] == [];
  }

  /** Exactly when the total check fires: without rows, on totals that are not all zero in
      a readable report; with rows, only if the last row carries all ten counters and
      differs from the sums. */
  lemma TotalCheckFires(v: Report, rows: seq<NamedRow>)
    requires v.categories == Some(rows)
    ensures CategoryTotalMismatch in IntegrityReasons(v, false) <==>
            if rows == [] then
              var m := Readable(v.counters, COUNTER_FIELDS);
              AllIn(COUNTER_FIELDS, m) && (m[Submitted] > 0 || m[Accepted] > 0 || m[Written] > 0 || m[Dropped] > 0)
            else
              var last := rows[|rows| - 1].row;
              && last.Some? && (forall f | f in COUNTER_FIELDS :: f in last.value)
              && (Differs(Sum(rows).submitted, last.value[Submitted]) || Differs(Sum(rows).accepted, last.value[Accepted]) ||
                  Differs(Sum(rows).written, last.value[Written]) || Differs(Sum(rows).dropped, last.value[Dropped]))
  {
    hide Readable, Differs, GlobalReasons, RowReasons, TotalsDiffer;
    assert CategoryTotalMismatch !in GlobalReasons(v) by { OnlyCounterReasons(v); }
    assert CategoryTotalMismatch !in RowReasons(rows) by { OnlyRowReasons(rows); }
    TotalsDifferCases(v, rows);
  }

  lemma OnlyCounterReasons(v: Report)
    ensures CategoryTotalMismatch !in GlobalReasons(v)
  {
    hide Readable, AllIn;
  }

  lemma OnlyRowReasons(rows: seq<NamedRow>)
    ensures CategoryTotalMismatch !in RowReasons(rows)
  {
    hide RowReadable;
  }

  lemma TotalsDifferCases(v: Report, rows: seq<NamedRow>)
    ensures TotalsDiffer(Sum(rows), BoundAfter(v, rows)) <==>
            if rows == [] then
              var m := Readable(v.counters, COUNTER_FIELDS);
              AllIn(COUNTER_FIELDS, m) && (m[Submitted] > 0 || m[Accepted] > 0 || m[Written] > 0 || m[Dropped] > 0)
            else
              var last := rows[|rows| - 1].row;
              && last.Some? && (forall f | f in COUNTER_FIELDS :: f in last.value)
              && (Differs(Sum(rows).submitted, last.value[Submitted]) || Differs(Sum(rows).accepted, last.value[Accepted]) ||
                  Differs(Sum(rows).written, last.value[Written]) || Differs(Sum(rows).dropped, last.value[Dropped]))
  {
    hide Readable, Differs, RowReadable;
  }
}
