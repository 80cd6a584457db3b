/** The writer's books: what its counters say whenever the lock is free, in total and
    per category row, in every reachable state. */
module WriterAccounting {
  import opened Snapshots
  import opened EvidenceCategories
  import opened WriterProtocol
  import opened WriterSafety
  import opened CounterRows

  /** The submission being decided inside the lock, as a contribution to row `name`. */
  function Undecided(s: State, name: string): nat {
    match s.holder
    case Submitting(e) => if RowName(s.c.rows, RecordCategory(e)) == name then 1 else 0
    case Placed(a) => if a.row == name then 1 else 0
    case _ => 0
  }

  function PlacedIn(s: State, name: string): nat {
    if s.holder.Placed? && s.holder.a.row == name then 1 else 0
  }

  function Pending(s: State): nat {
    if s.holder.Submitting? || s.holder.Placed? then 1 else 0
  }

  function JustPlaced(s: State): nat {
    if s.holder.Placed? then 1 else 0
  }

  /** Every accepted record is somewhere: committed, in the file, in the worker's hands, in
      the queue, or lost to a recorded fault. */
  function Somewhere(s: State, name: string): nat {
    CountIn(s.committed, name) + CountIn(Uncommitted(s.pc), name) + CountIn(InFlight(s.pc), name) +
    CountIn(Recs(s.queue), name) + CountIn(s.lost, name)
  }

  ghost predicate Flow(s: State) {
    forall name :: Somewhere(s, name) == CountIn(s.log, name)
  }

  ghost predicate FlowSize(s: State) {
    |s.committed| + |Uncommitted(s.pc)| + |InFlight(s.pc)| + |Recs(s.queue)| + |s.lost| == |s.log|
  }

  ghost predicate Held(s: State) {
    && (forall a | a in InFlight(s.pc) || a in Uncommitted(s.pc) || a in Recs(s.queue) :: a in s.log)
    && (s.holder.Placed? ==> s.holder.a in s.log)
  }

  ghost predicate Tagged(s: State) {
    && (forall a | a in s.log :: TaggedRight(s.c.rows, a))
    && (s.holder.Submitting? ==> Settled(s.c.rows, RecordCategory(s.holder.envelope)))
    && Bounded(s.c.rows)
  }

  predicate RowBalanced(s: State, name: string) {
    var r := RowAt(s.c.rows, name);
    && r.submitted == r.accepted + r.dropped + Undecided(s, name)
    && r.accepted + PlacedIn(s, name) == CountIn(s.log, name)
    && r.written == CountIn(s.committed, name)
  }

  ghost predicate RowsBalanced(s: State) {
    forall name :: RowBalanced(s, name)
  }

  ghost predicate Totalled(c: Counters) {
    && Total(c.rows, SubmittedC) == c.submitted
    && Total(c.rows, AcceptedC) == c.accepted
    && Total(c.rows, WrittenC) == c.written
    && Total(c.rows, DroppedC) == c.dropped
    && c.dropped == c.snapshotRejected + c.queueFull + c.closedRejected
  }

  ghost predicate GloballyBalanced(s: State) {
    && Totalled(s.c)
    && s.c.submitted == s.c.accepted + s.c.dropped + Pending(s)
    && s.c.accepted + JustPlaced(s) == |s.log|
    && s.c.written == |s.committed|
  }

  ghost predicate Balanced(s: State) {
    Flow(s) && FlowSize(s) && Held(s) && Tagged(s) && RowsBalanced(s) && GloballyBalanced(s)
  }

  // ---- records move but do not vanish ----------------------------------------

  lemma FlowKeptByQueueing(s: State)
    requires s.holder.Submitting? && Flow(s) && FlowSize(s) && Held(s)
    ensures var t := PutRecord(s); Flow(t) && FlowSize(t) && Held(t)
  {
    hide CountFull, RecordCategory, RowName, CountIn;
    var t := PutRecord(s);
    if t.log != s.log {
      var a := t.log[|s.log|];
      RecsAppend(s.queue, Rec(a));
      forall name ensures Somewhere(t, name) == CountIn(t.log, name) {
        CountAppend(s.log, [a], name);
        CountAppend(Recs(s.queue), [a], name);
        assert Somewhere(s, name) == CountIn(s.log, name);
      }
    }
  }

  lemma HandsGrow(xs: seq<Accepted>, ys: seq<Accepted>, q: seq<Item>)
    requires q != []
    requires ys == xs + if q[0].Rec? then [q[0].a] else []
    ensures |ys| + |Recs(q[1..])| == |xs| + |Recs(q)|
    ensures forall name :: CountIn(ys, name) + CountIn(Recs(q[1..]), name) == CountIn(xs, name) + CountIn(Recs(q), name)
    ensures forall a | a in ys || a in Recs(q[1..]) :: a in xs || a in Recs(q)
  {
    var head := if q[0].Rec? then [q[0].a] else [];
    assert Recs(q) == head + Recs(q[1..]);
    hide CountIn, Recs;
    forall name ensures CountIn(ys, name) + CountIn(Recs(q[1..]), name) == CountIn(xs, name) + CountIn(Recs(q), name) {
      CountAppend(xs, head, name);
      CountAppend(head, Recs(q[1..]), name);
    }
  }

  lemma FlowKeptByTaking(s: State, a: Action)
    requires Handshake(s) && Flow(s) && FlowSize(s) && Held(s) && Enabled(s, a)
    requires a.GetFirst? || a.GetMore? || a.DrainNext?
    ensures var t := Next(s, a); Flow(t) && FlowSize(t) && Held(t)
  {
    hide Recs, CountIn;
    var t := Next(s, a);
    if s.queue == [] || (a.GetMore? && |s.pc.batch| >= s.batchSize) {
      assert InFlight(t.pc) == InFlight(s.pc) && t.queue == s.queue;
    } else {
      if a.GetFirst? { FirstInFlight(s); } else if a.GetMore? { MoreInFlight(s); } else { DrainInFlight(s); }
      HandsGrow(InFlight(s.pc), InFlight(t.pc), s.queue);
      assert Uncommitted(s.pc) == [] && Uncommitted(t.pc) == [];
      hide InFlight, Uncommitted;
      forall name ensures Somewhere(t, name) == CountIn(t.log, name) {
        assert Somewhere(s, name) == CountIn(s.log, name);
      }
    }
  }

  lemma FlowKeptBySerializing(s: State, ok: bool)
    requires Enabled(s, SerializeNext(ok)) && Flow(s) && FlowSize(s) && Held(s)
    ensures var t := SerializeOne(s, ok); Flow(t) && FlowSize(t) && Held(t)
  {
    hide CountSerializationError, CountIn, Recs;
    var t := SerializeOne(s, ok);
    var Serializing(lines, rest, after) := s.pc;
    assert rest == [rest[0]] + rest[1..];
    assert Uncommitted(s.pc) == [] && Uncommitted(t.pc) == [];
    if ok {
      assert InFlight(t.pc) == InFlight(s.pc);
      hide InFlight;
      forall name ensures Somewhere(t, name) == CountIn(t.log, name) {
        assert Somewhere(s, name) == CountIn(s.log, name);
      }
    } else {
      assert InFlight(t.pc) == lines + rest[1..];
      assert InFlight(s.pc) == lines + rest;
      forall name ensures Somewhere(t, name) == CountIn(t.log, name) {
        assert Somewhere(s, name) == CountIn(s.log, name);
        CountAppend(lines, rest, name);
        CountAppend(lines, rest[1..], name);
        CountAppend([rest[0]], rest[1..], name);
        CountAppend(s.lost, [rest[0]], name);
      }
    }
  }

  lemma FlowKeptByWriting(s: State, a: Action)
    requires Enabled(s, a) && Flow(s) && FlowSize(s) && Held(s)
    requires a.Write? || a.Commit? || a.Raise?
    ensures var t := Next(s, a); Flow(t) && FlowSize(t) && Held(t)
  {
    hide CountWritten, CountWriteError, CountIn, Recs;
    var t := Next(s, a);
    forall name ensures Somewhere(t, name) == CountIn(t.log, name) {
      assert Somewhere(s, name) == CountIn(s.log, name);
      CountAppend(s.lost, InFlight(s.pc), name);
      CountAppend(s.committed, Uncommitted(s.pc), name);
      EmptyCount(name);
    }
  }

  lemma EmptyCount(name: string)
    ensures CountIn([], name) == 0
  {
  }

  predicate SamePlaces(s: State, t: State) {
    && t.log == s.log && t.committed == s.committed && t.lost == s.lost
    && Recs(t.queue) == Recs(s.queue)
    && InFlight(t.pc) == InFlight(s.pc) && Uncommitted(t.pc) == Uncommitted(s.pc)
    && (t.holder.Placed? ==> s.holder.Placed? && t.holder.a == s.holder.a)
  }

  lemma Unmoved(s: State, t: State)
    requires SamePlaces(s, t) && Flow(s) && FlowSize(s) && Held(s)
    ensures Flow(t) && FlowSize(t) && Held(t)
  {
    hide CountIn, Recs, InFlight, Uncommitted;
    forall name ensures Somewhere(t, name) == CountIn(t.log, name) {
      assert Somewhere(s, name) == CountIn(s.log, name);
    }
  }

  predicate MovesRecords(a: Action) {
    a.Put? || a.GetFirst? || a.GetMore? || a.DrainNext? || a.SerializeNext? || a.Write? || a.Commit? || a.Raise?
  }

  lemma NothingMoves(s: State, a: Action)
    requires Enabled(s, a) && !MovesRecords(a)
    ensures SamePlaces(s, Next(s, a))
  {
    RecsAppend(s.queue, Sentinel);
    hide CountRejected, CountSubmitted, CountClosed, CountAccepted, CountWriteError, CountTimeout, CountFinal, Recs;
  }

  lemma FlowKept(s: State, a: Action)
    requires Handshake(s) && Flow(s) && FlowSize(s) && Held(s) && Enabled(s, a)
    ensures var t := Next(s, a); Flow(t) && FlowSize(t) && Held(t)
  {
    if a.Put? {
      FlowKeptByQueueing(s);
    } else if a.GetFirst? || a.GetMore? || a.DrainNext? {
      FlowKeptByTaking(s, a);
    } else if a.SerializeNext? {
      FlowKeptBySerializing(s, a.ok);
    } else if a.Write? || a.Commit? || a.Raise? {
      FlowKeptByWriting(s, a);
    } else {
      NothingMoves(s, a);
      Unmoved(s, Next(s, a));
    }
  }

  // ---- the counters follow ----------------------------------------------------

  ghost predicate Booked(s: State) {
    Tagged(s) && RowsBalanced(s) && GloballyBalanced(s)
  }

  lemma BumpKeepsTags(rows: Rows, category: string, f: Counter, log: seq<Accepted>)
    requires forall a | a in log :: TaggedRight(rows, a)
    ensures forall a | a in log :: TaggedRight(Bump(rows, category, f), a)
  {
    forall a | a in log ensures TaggedRight(Bump(rows, category, f), a) {
      assert TaggedRight(rows, a);
      SettledStays(rows, category, f, RecordCategory(a.envelope));
    }
  }

  lemma BumpTotals(rows: Rows, category: string, f: Counter)
    ensures forall g :: Total(Bump(rows, category, f), g) == Total(rows, g) + if f == g then 1 else 0
  {
    forall g ensures Total(Bump(rows, category, f), g) == Total(rows, g) + if f == g then 1 else 0 {
      BumpTotal(rows, category, f, g);
    }
  }

  /** Everything a single bump does, in one step. */
  lemma BumpAll(rows: Rows, category: string, f: Counter, log: seq<Accepted>)
    requires Bounded(rows) && forall a | a in log :: TaggedRight(rows, a)
    ensures var after := Bump(rows, category, f);
            && Bounded(after) && (forall a | a in log :: TaggedRight(after, a))
            && (forall name :: RowAt(after, name) ==
                  if name == RowName(rows, category) then Inc(RowAt(rows, name), f) else RowAt(rows, name))
            && Settled(after, category) && RowName(after, category) == RowName(rows, category)
            && (forall g :: Total(after, g) == Total(rows, g) + if f == g then 1 else 0)
  {
    BumpEffect(rows, category, f);
    BumpBounded(rows, category, f);
    BumpKeepsTags(rows, category, f, log);
    BumpTotals(rows, category, f);
  }

  lemma BookedReject(s: State, record: Tree)
    requires s.holder.Free? && Booked(s)
    ensures Booked(Next(s, RejectSnapshot(record)))
  {
    hide Bump, RowName, RowAt, Total, Bounded, Settled, TaggedRight, CountIn, RecordCategory;
    var category := RecordCategory(record);
    var rows := Bump(s.c.rows, category, SubmittedC);
    BumpAll(s.c.rows, category, SubmittedC, s.log);
    BumpAll(rows, category, DroppedC, s.log);
    var t := Next(s, RejectSnapshot(record));
    forall name ensures RowBalanced(t, name) {
      assert RowBalanced(s, name);
    }
  }

  lemma BookedSubmit(s: State, envelope: Tree)
    requires s.holder.Free? && Booked(s)
    ensures Booked(Next(s, Submit(envelope)))
  {
    hide Bump, RowName, RowAt, Total, Bounded, Settled, TaggedRight, CountIn, RecordCategory;
    var category := RecordCategory(envelope);
    var rows := Bump(s.c.rows, category, SubmittedC);
    BumpAll(s.c.rows, category, SubmittedC, s.log);
    if s.closing {
      BumpAll(rows, category, DroppedC, s.log);
    }
    var t := Next(s, Submit(envelope));
    forall name ensures RowBalanced(t, name) {
      assert RowBalanced(s, name);
    }
  }

  lemma BookedFull(s: State)
    requires s.holder.Submitting? && Booked(s) && |s.queue| >= s.capacity
    ensures Booked(PutRecord(s))
  {
    hide Bump, RowAt, Total, Bounded, CountIn, RecordCategory, RowName, Settled, TaggedRight;
    BumpAll(s.c.rows, RecordCategory(s.holder.envelope), DroppedC, s.log);
    var t := PutRecord(s);
    forall name ensures RowBalanced(t, name) {
      assert RowBalanced(s, name);
    }
  }

  lemma TaggedAtOnce(rows: Rows, envelope: Tree)
    requires Settled(rows, RecordCategory(envelope))
    ensures TaggedRight(rows, Accepted(envelope, RowName(rows, RecordCategory(envelope))))
  {
    hide RecordCategory, RowName, Settled;
  }

  lemma BookedPlaced(s: State)
    requires s.holder.Submitting? && Booked(s) && |s.queue| < s.capacity
    ensures Booked(PutRecord(s))
  {
    hide Bump, RowAt, Total, Bounded, CountIn, RecordCategory, RowName, Settled, TaggedRight;
    TaggedAtOnce(s.c.rows, s.holder.envelope);
    var t := PutRecord(s);
    var a := t.holder.a;
    forall name ensures RowBalanced(t, name) {
      assert RowBalanced(s, name);
      CountAppend(s.log, [a], name);
      CountOne(a, name);
    }
  }

  lemma BookedPut(s: State)
    requires s.holder.Submitting? && Booked(s)
    ensures Booked(PutRecord(s))
  {
    hide Booked, PutRecord;
    if |s.queue| < s.capacity {
      BookedPlaced(s);
    } else {
      BookedFull(s);
    }
  }

  lemma CountOne(a: Accepted, name: string)
    ensures CountIn([a], name) == if a.row == name then 1 else 0
  {
    assert [a][..0] == [];
  }

  lemma BookedAccept(s: State)
    requires s.holder.Placed? && Booked(s) && Held(s)
    ensures Booked(Next(s, Accept))
  {
    var a := s.holder.a;
    assert TaggedRight(s.c.rows, a);
    var category := RecordCategory(a.envelope);
    BumpAll(s.c.rows, category, AcceptedC, s.log);
    assert RowName(s.c.rows, category) == a.row;
    hide Bump, RowName, RowAt, Total, Bounded, Settled, TaggedRight, CountIn, RecordCategory;
    var t := Next(s, Accept);
    forall name ensures RowBalanced(t, name) {
      assert RowBalanced(s, name);
    }
  }

  lemma SameKeysSameNames(rows: Rows, after: Rows, log: seq<Accepted>)
    requires rows.Keys == after.Keys && Bounded(rows)
    requires forall a | a in log :: TaggedRight(rows, a)
    ensures forall a | a in log :: TaggedRight(after, a)
    ensures Bounded(after)
  {
    assert |rows| == |rows.Keys| && |after| == |after.Keys|;
    hide RecordCategory;
    forall a | a in log ensures TaggedRight(after, a) {
      assert TaggedRight(rows, a);
    }
  }

  /** Everything counting a written batch does, in one step. */
  lemma BumpWrittenAll(rows: Rows, lines: seq<Accepted>, log: seq<Accepted>)
    requires Bounded(rows) && (forall a | a in log :: TaggedRight(rows, a)) && (forall a | a in lines :: a in log)
    ensures var after := BumpWritten(rows, lines);
            && Bounded(after) && (forall a | a in log :: TaggedRight(after, a))
            && (forall name :: RowAt(after, name) ==
                  RowAt(rows, name).(written := RowAt(rows, name).written + CountIn(lines, name)))
            && (forall g :: Total(after, g) == Total(rows, g) + if g == WrittenC then |lines| else 0)
  {
    BumpWrittenEffect(rows, lines);
    SameKeysSameNames(rows, BumpWritten(rows, lines), log);
  }

  lemma BookedCommit(s: State)
    requires s.pc.Committing? && s.holder.Free? && Booked(s) && Held(s)
    ensures Booked(Next(s, Commit))
  {
    hide BumpWritten, RowName, RowAt, Total, Settled, TaggedRight, CountIn, RecordCategory, Bounded, Recs, InFlight;
    assert forall a | a in s.pc.lines :: a in Uncommitted(s.pc);
    BumpWrittenAll(s.c.rows, s.pc.lines, s.log);
    var t := Next(s, Commit);
    forall name ensures RowBalanced(t, name) {
      assert RowBalanced(s, name);
      CountAppend(s.committed, s.pc.lines, name);
    }
  }

  predicate Books(a: Action) {
    a.RejectSnapshot? || a.Submit? || a.Put? || a.Accept? || a.Commit?
  }

  /** Nothing the books mention has changed. */
  predicate SameBooks(s: State, t: State) {
    && t.c.rows == s.c.rows && t.log == s.log && t.committed == s.committed
    && t.c.submitted == s.c.submitted && t.c.accepted == s.c.accepted && t.c.written == s.c.written && t.c.dropped == s.c.dropped
    && t.c.snapshotRejected == s.c.snapshotRejected && t.c.queueFull == s.c.queueFull && t.c.closedRejected == s.c.closedRejected
    && (t.holder == s.holder || (!t.holder.Submitting? && !t.holder.Placed? && !s.holder.Submitting? && !s.holder.Placed?))
  }

  lemma OtherKeepsBooks(s: State, a: Action)
    requires Enabled(s, a) && !Books(a)
    ensures SameBooks(s, Next(s, a))
  {
    hide InFlight, AfterSerializing, Resume;
  }

  lemma BookedSame(s: State, t: State)
    requires Booked(s) && SameBooks(s, t)
    ensures Booked(t)
  {
    hide RowName, RowAt, Total, Settled, TaggedRight, CountIn, RecordCategory, Bounded;
    forall name ensures RowBalanced(t, name) {
      assert RowBalanced(s, name);
    }
  }

  lemma BookedOther(s: State, a: Action)
    requires Booked(s) && Enabled(s, a) && !Books(a)
    ensures Booked(Next(s, a))
  {
    hide Booked, Next, Enabled, SameBooks;
    OtherKeepsBooks(s, a);
    BookedSame(s, Next(s, a));
  }

  lemma BalancedKept(s: State, a: Action)
    requires Handshake(s) && Balanced(s) && Enabled(s, a)
    ensures Balanced(Next(s, a))
  {
    FlowKept(s, a);
    hide Flow, FlowSize, Tagged, RowsBalanced, GloballyBalanced, Handshake;
    assert Booked(s);
    match a
    case RejectSnapshot(record) => BookedReject(s, record);
    case Submit(envelope) => BookedSubmit(s, envelope);
    case Put => BookedPut(s);
    case Accept => BookedAccept(s);
    case Commit => BookedCommit(s);
    case _ => BookedOther(s, a);
  }

  // ---- whole runs -------------------------------------------------------------

  lemma {:induction false} RunIsBalanced(s: State, actions: seq<Action>)
    requires Safe(s) && Balanced(s) && Run(s, actions)
    ensures Balanced(Last(s, actions))
    decreases |actions|
  {
    if actions != [] {
      BalancedKept(s, actions[0]);
      RunIsSafe(s, [actions[0]]);
      assert Last(s, [actions[0]]) == Next(s, actions[0]);
      hide Next, Enabled, Balanced, Safe;
      RunIsBalanced(Next(s, actions[0]), actions[1..]);
    }
  }

  lemma InitialIsBalanced(capacity: nat, batchSize: nat)
    ensures Safe(Initial(capacity, batchSize)) && Balanced(Initial(capacity, batchSize))
  {
    var s := Initial(capacity, batchSize);
    assert forall name :: RowBalanced(s, name);
    assert forall name :: Somewhere(s, name) == CountIn(s.log, name);
  }

  /** The books as anybody sees them who holds the lock. */
  ghost predicate BooksAgree(c: Counters) {
    && c.submitted == c.accepted + c.dropped && c.written <= c.accepted
    && c.dropped == c.snapshotRejected + c.queueFull + c.closedRejected
    && Total(c.rows, SubmittedC) == c.submitted && Total(c.rows, AcceptedC) == c.accepted
    && Total(c.rows, WrittenC) == c.written && Total(c.rows, DroppedC) == c.dropped
    && |c.rows| <= MAX_COUNTER_CATEGORIES + 1
    && (forall name | name in c.rows ::
          c.rows[name].submitted == c.rows[name].accepted + c.rows[name].dropped &&
          c.rows[name].written <= c.rows[name].accepted)
    && (c.complete ==> c.error.None? && c.dropped == 0 && c.accepted == c.written)
  }

  lemma FreeBooksAgree(s: State)
    requires Safe(s) && Balanced(s) && s.holder.Free?
    ensures BooksAgree(s.c)
  {
    hide Total, CountIn, Recs, InFlight, Uncommitted;
    forall name | name in s.c.rows
      ensures s.c.rows[name].submitted == s.c.rows[name].accepted + s.c.rows[name].dropped
      ensures s.c.rows[name].written <= s.c.rows[name].accepted
    {
      assert RowBalanced(s, name);
      assert Somewhere(s, name) == CountIn(s.log, name);
    }
  }

  /** In every interleaving, whenever the lock is free: submissions split into accepted and
      dropped, drops into their three causes, nothing is written that was not accepted, in
      total and in each of at most 129 rows, the rows add up to the totals, and a complete
      capture has no error, no drop and nothing unwritten. */
  lemma BooksAlwaysAgree(capacity: nat, batchSize: nat, actions: seq<Action>)
    requires Run(Initial(capacity, batchSize), actions)
    ensures var s := Last(Initial(capacity, batchSize), actions); s.holder.Free? ==> BooksAgree(s.c)
  {
    hide BooksAgree, Safe, Balanced, Last, Initial, Run;
    InitialIsBalanced(capacity, batchSize);
    RunIsSafe(Initial(capacity, batchSize), actions);
    RunIsBalanced(Initial(capacity, batchSize), actions);
    var s := Last(Initial(capacity, batchSize), actions);
    if s.holder.Free? {
      FreeBooksAgree(s);
    }
  }
}
