/** The writer object: the code inside its lock regions, field by field, tied to the
    actions of the protocol. */
module EvidenceWriter {
  import opened Values
  import opened Snapshots
  import opened EvidenceCategories
  import opened WriterProtocol

  /** The serialized lines of a batch. */
  function Kept(batch: seq<Accepted>, encodes: seq<bool>): seq<Accepted>
    requires |batch| == |encodes|
  {
    if batch == [] then []
    else var n := |batch| - 1;
         Kept(batch[..n], encodes[..n]) + if encodes[n] then [batch[n]] else []
  }

  function Refused(batch: seq<Accepted>, encodes: seq<bool>): seq<Accepted>
    requires |batch| == |encodes|
  {
    if batch == [] then []
    else var n := |batch| - 1;
         Refused(batch[..n], encodes[..n]) + if encodes[n] then [] else [batch[n]]
  }

  function WithEncodingErrors(c: Counters, batch: seq<Accepted>, encodes: seq<bool>): Counters
    requires |batch| == |encodes|
  {
    if batch == [] then c
    else var n := |batch| - 1;
         var d := WithEncodingErrors(c, batch[..n], encodes[..n]);
         if encodes[n] then d else CountSerializationError(d)
  }

  /** A record the snapshot accepts. */
  predicate Admissible(record: Ref) {
    && record.RBox? && record.c.kind.DictKind?
    && Fits(record, RootFuel(), 0) && Price(record, RootFuel()) <= MAX_SNAPSHOT_BYTES
  }

  class Writer {
    const capacity: nat
    var queue: seq<Item>
    var sequence: int
    var submitted: nat
    var accepted: nat
    var written: nat
    var dropped: nat
    var snapshotRejected: nat
    var queueFullDrops: nat
    var closedRejected: nat
    var serializationErrors: nat
    var writeErrors: nat
    var rows: Rows
    var error: Option<Failure>
    var closing: bool
    var complete: bool
    var file: seq<Accepted>

    constructor (capacity: nat)
      requires capacity > 0
      ensures this.capacity == capacity && queue == [] && !closing && file == [] && sequence == 0
      ensures Tally() == Initial(capacity, 1).c
    {
      this.capacity := capacity;
      queue, sequence, file, closing, complete, error, rows := [], 0, [], false, false, None, map[];
      submitted, accepted, written, dropped := 0, 0, 0, 0;
      snapshotRejected, queueFullDrops, closedRejected, serializationErrors, writeErrors := 0, 0, 0, 0, 0;
    }

    /** The counters as one value. */
    ghost function Tally(): Counters
      reads this
    {
      Counters(submitted, accepted, written, dropped, snapshotRejected, queueFullDrops, closedRejected,
               serializationErrors, writeErrors, rows, error, complete)
    }

    method BumpCategoryLocked(category: string, field: Counter)
      modifies this`rows
      ensures rows == Bump(old(rows), category, field)
    {
      var name := category;
      if name !in rows {
        if |rows| >= MAX_COUNTER_CATEGORIES {
          name := OTHER;
        }
        if name !in rows {
          rows := rows[name := EMPTY_ROW];
        }
      }
      rows := rows[name := Inc(rows[name], field)];
    }

    method CountSubmission(category: string)
      modifies this`submitted, this`rows
      ensures Tally() == CountSubmitted(old(Tally()), category)
    {
      hide Bump;
      submitted := submitted + 1;
      BumpCategoryLocked(category, SubmittedC);
    }

    method DropClosed(category: string)
      modifies this`closedRejected, this`dropped, this`error, this`complete, this`rows
      ensures Tally() == CountClosed(old(Tally()), category)
    {
      hide Bump;
      closedRejected, dropped := closedRejected + 1, dropped + 1;
      error := if error.Some? then error else Some(WriterClosed);
      complete := false;
      BumpCategoryLocked(category, DroppedC);
    }

    method DropFull(category: string)
      modifies this`queueFullDrops, this`dropped, this`error, this`complete, this`rows
      ensures Tally() == CountFull(old(Tally()), category)
    {
      hide Bump;
      queueFullDrops, dropped := queueFullDrops + 1, dropped + 1;
      error := if error.Some? then error else Some(QueueFull);
      complete := false;
      BumpCategoryLocked(category, DroppedC);
    }

    method CountAcceptance(category: string)
      modifies this`accepted, this`rows
      ensures Tally() == CountAccepted(old(Tally()), category)
    {
      hide Bump;
      accepted := accepted + 1;
      BumpCategoryLocked(category, AcceptedC);
    }

    /** The locked part of a submission whose snapshot succeeded. */
    method SubmitLocked(category: string, snapshot: Tree, steadyNs: int) returns (ok: bool)
      modifies this
      ensures closing == old(closing) && file == old(file)
      ensures ok <==> !old(closing) && |old(queue)| < capacity
      ensures var counted := CountSubmitted(old(Tally()), category);
              var a := Accepted(Stamped(snapshot, old(sequence) + 1, steadyNs), RowName(counted.rows, category));
              && queue == (if ok then old(queue) + [Rec(a)] else old(queue))
              && Tally() == if ok then CountAccepted(counted, category)
                            else if old(closing) then CountClosed(counted, category)
                            else CountFull(counted, category)
    {
      hide RowName, Stamped, CountSubmitted, CountAccepted, CountClosed, CountFull;
      CountSubmission(category);
      if closing {
        DropClosed(category);
        return false;
      }
      sequence := sequence + 1;
      if |queue| >= capacity {
        DropFull(category);
        return false;
      }
      queue := queue + [Rec(Accepted(Stamped(snapshot, sequence, steadyNs), RowName(rows, category)))];
      CountAcceptance(category);
      return true;
    }

    method RejectLocked(category: string)
      modifies this
      ensures closing == old(closing) && file == old(file) && queue == old(queue) && sequence == old(sequence)
      ensures Tally() == CountRejected(old(Tally()), category)
    {
      hide Bump;
      CountSubmission(category);
      snapshotRejected, dropped := snapshotRejected + 1, dropped + 1;
      error, complete := Some(SnapshotRejected), false;
      BumpCategoryLocked(category, DroppedC);
    }

    /** Submission of one record: refused by the snapshot, by the closed writer or by the
        full queue, or accepted at the end of the queue. */
    method Enqueue(record: Ref, steadyNs: int) returns (ok: bool)
      modifies this
      ensures closing == old(closing) && file == old(file)
      ensures ok <==> Admissible(record) && !old(closing) && |old(queue)| < capacity
      ensures var t := Shape(record, RootFuel());
              var category := RecordCategory(t);
              var counted := CountSubmitted(old(Tally()), category);
              var a := Accepted(Stamped(Freeze(t), old(sequence) + 1, steadyNs), RowName(counted.rows, category));
              && queue == (if ok then old(queue) + [Rec(a)] else old(queue))
              && Tally() == if !Admissible(record) then CountRejected(old(Tally()), category)
                            else if ok then CountAccepted(counted, category)
                            else if old(closing) then CountClosed(counted, category)
                            else CountFull(counted, category)
    {
      hide RecordCategory, Shape, Freeze, RowName, Stamped, CountRejected, CountSubmitted, CountAccepted, CountClosed, CountFull;
      hide Fits, Price, Containers;
      var category := RecordCategory(Shape(record, RootFuel()));
      var snapshot := SnapshotRecord(record);
      if snapshot.Refused? {
        RejectLocked(category);
        return false;
      }
      ok := SubmitLocked(category, Shape(snapshot.v, RootFuel()), steadyNs);
    }

    method EncodeBatch(batch: seq<Accepted>, encodes: seq<bool>) returns (lines: seq<Accepted>)
      requires |batch| == |encodes|
      modifies this`serializationErrors, this`error
      ensures lines == Kept(batch, encodes)
      ensures Tally() == WithEncodingErrors(old(Tally()), batch, encodes)
    {
      lines := [];
      for i := 0 to |batch|
        invariant lines == Kept(batch[..i], encodes[..i])
        invariant Tally() == WithEncodingErrors(old(Tally()), batch[..i], encodes[..i])
      {
        assert batch[..i + 1][..i] == batch[..i] && encodes[..i + 1][..i] == encodes[..i];
        if encodes[i] {
          lines := lines + [batch[i]];
        } else {
          serializationErrors := serializationErrors + 1;
          error := Some(Serialization);
        }
      }
      assert batch[..|batch|] == batch && encodes[..|batch|] == encodes;
    }

    method CommitLines(lines: seq<Accepted>)
      modifies this`written, this`rows
      ensures Tally() == CountWritten(old(Tally()), lines)
    {
      hide RecordCategory, Bump;
      written := written + |lines|;
      for i := 0 to |lines|
        invariant rows == BumpWritten(old(rows), lines[..i])
        invariant written == old(written) + |lines|
      {
        assert lines[..i + 1][..i] == lines[..i];
        BumpCategoryLocked(RecordCategory(lines[i].envelope), WrittenC);
      }
      assert lines[..|lines|] == lines;
    }

    /** One batch: serialize what serializes, write it in one go, count what was written. */
    method WriteBatch(batch: seq<Accepted>, encodes: seq<bool>, writes: bool, upTo: nat)
      requires |batch| == |encodes| && upTo <= |Kept(batch, encodes)|
      modifies this
      ensures queue == old(queue) && closing == old(closing) && sequence == old(sequence)
      ensures var lines := Kept(batch, encodes);
              var c := WithEncodingErrors(old(Tally()), batch, encodes);
              if lines == [] then Tally() == c && file == old(file)
              else if writes then Tally() == CountWritten(c, lines) && file == old(file) + lines
              else Tally() == CountWriteError(c) && file == old(file) + lines[..upTo]
    {
      hide Kept, WithEncodingErrors, CountWritten;
      var lines := EncodeBatch(batch, encodes);
      if lines == [] {
        return;
      }
      if !writes {
        file := file + lines[..upTo];
        writeErrors := writeErrors + 1;
        error := Some(WorkerFault);
        return;
      }
      file := file + lines;
      CommitLines(lines);
    }

    method Finalize()
      modifies this`complete
      ensures Tally() == CountFinal(old(Tally()))
    {
      complete := error.None? && dropped == 0 && accepted == written;
    }

    /** The locked part of close: once closing is set it stays set, and only the first
        close offers a sentinel, which never displaces a record. */
    method CloseRegion()
      modifies this`closing, this`queue
      ensures closing
      ensures queue == if !old(closing) && |old(queue)| < capacity then old(queue) + [Sentinel] else old(queue)
    {
      if !closing {
        closing := true;
        if |queue| < capacity {
          queue := queue + [Sentinel];
        }
      }
    }

    method RecordTimeout()
      modifies this`writeErrors, this`error, this`complete
      ensures Tally() == CountTimeout(old(Tally()))
    {
      writeErrors := writeErrors + 1;
      error := Some(CloseTimeout);
      complete := false;
    }
  }

  // ---- an undisturbed call is a run of the protocol ---------------------------

  /** Enqueue without interference takes the three producer actions in a row. */
  lemma EnqueueIsARun(s: State, envelope: Tree)
    requires s.holder.Free? && !s.closing && |s.queue| < s.capacity
    ensures var category := RecordCategory(envelope);
            var counted := CountSubmitted(s.c, category);
            && Run(s, [Submit(envelope), Put, Accept])
            && var t := Last(s, [Submit(envelope), Put, Accept]);
               && t.c == CountAccepted(counted, category)
               && t.queue == s.queue + [Rec(Accepted(envelope, RowName(counted.rows, category)))]
  {
    hide RecordCategory, Bump, RowName;
    var s1 := Next(s, Submit(envelope));
    var s2 := Next(s1, Put);
    var s3 := Next(s2, Accept);
    assert [Submit(envelope), Put, Accept][1..] == [Put, Accept];
    assert [Put, Accept][1..] == [Accept];
    assert [Accept][1..] == [];
    assert Run(s2, [Accept]) && Last(s2, [Accept]) == s3;
    assert Run(s1, [Put, Accept]) && Last(s1, [Put, Accept]) == s3;
  }

  /** The encoding loop of a batch takes one serialization action per record. */
  lemma {:induction false} EncodingIsARun(s: State, lines: seq<Accepted>, batch: seq<Accepted>, encodes: seq<bool>, after: After)
    returns (actions: seq<Action>)
    requires |batch| == |encodes| && batch != [] && s.holder.Free?
    requires s.pc == Serializing(lines, batch, after)
    ensures Run(s, actions)
    ensures var t := Last(s, actions);
            && t.pc == AfterSerializing(lines + Kept(batch, encodes), [], after)
            && t.c == WithEncodingErrors(s.c, batch, encodes)
            && t.file == s.file && t.queue == s.queue && t.holder == s.holder && t.lost == s.lost + Refused(batch, encodes)
    decreases |batch|
  {
    hide CountSerializationError, Kept, Refused, WithEncodingErrors, Next, Enabled;
    var first := SerializeNext(encodes[0]);
    EncodingStep(s, lines, batch, encodes[0], after);
    var mid := Next(s, first);
    var moved := if encodes[0] then lines + [batch[0]] else lines;
    FrontFirst(s.c, batch, encodes);
    if |batch| == 1 {
      actions := [first];
      assert actions[1..] == [];
      assert batch[1..] == [] && encodes[1..] == [];
      assert Run(mid, []);
      OneRecord(s.c, batch, encodes);
    } else {
      assert mid.pc == Serializing(moved, batch[1..], after);
      var rest := EncodingIsARun(mid, moved, batch[1..], encodes[1..], after);
      actions := [first] + rest;
      assert actions[1..] == rest;
      assert moved + Kept(batch[1..], encodes[1..]) == lines + Kept(batch, encodes);
      assert mid.lost + Refused(batch[1..], encodes[1..]) == s.lost + Refused(batch, encodes);
    }
  }

  lemma EncodingStep(s: State, lines: seq<Accepted>, batch: seq<Accepted>, ok: bool, after: After)
    requires batch != [] && s.holder.Free? && s.pc == Serializing(lines, batch, after)
    ensures Enabled(s, SerializeNext(ok))
    ensures var t := Next(s, SerializeNext(ok));
            && t.pc == AfterSerializing(if ok then lines + [batch[0]] else lines, batch[1..], after)
            && t.c == (if ok then s.c else CountSerializationError(s.c))
            && t.file == s.file && t.queue == s.queue && t.holder == s.holder
            && t.lost == s.lost + if ok then [] else [batch[0]]
  {
    hide CountSerializationError;
  }

  lemma OneRecord(c: Counters, batch: seq<Accepted>, encodes: seq<bool>)
    requires |batch| == |encodes| == 1
    ensures Kept(batch, encodes) == if encodes[0] then [batch[0]] else []
    ensures Refused(batch, encodes) == if encodes[0] then [] else [batch[0]]
    ensures WithEncodingErrors(c, batch, encodes) == if encodes[0] then c else CountSerializationError(c)
  {
    assert batch[..0] == [] && encodes[..0] == [];
  }

  lemma {:induction false} KeptFront(batch: seq<Accepted>, encodes: seq<bool>)
    requires |batch| == |encodes| && batch != []
    ensures Kept(batch, encodes) == (if encodes[0] then [batch[0]] else []) + Kept(batch[1..], encodes[1..])
    ensures Refused(batch, encodes) == (if encodes[0] then [] else [batch[0]]) + Refused(batch[1..], encodes[1..])
    decreases |batch|
  {
    hide Kept, Refused;
    var n := |batch| - 1;
    KeptLast(batch, encodes);
    if n > 0 {
      KeptFront(batch[..n], encodes[..n]);
      KeptLast(batch[1..], encodes[1..]);
      assert batch[1..][..n - 1] == batch[..n][1..];
      assert encodes[1..][..n - 1] == encodes[..n][1..];
    } else {
      KeptNone(batch[1..], encodes[1..]);
      KeptNone(batch[..0], encodes[..0]);
    }
  }

  lemma KeptNone(batch: seq<Accepted>, encodes: seq<bool>)
    requires |batch| == |encodes| == 0
    ensures Kept(batch, encodes) == [] && Refused(batch, encodes) == []
  {
  }

  lemma KeptLast(batch: seq<Accepted>, encodes: seq<bool>)
    requires |batch| == |encodes| && batch != []
    ensures var n := |batch| - 1;
            && Kept(batch, encodes) == Kept(batch[..n], encodes[..n]) + (if encodes[n] then [batch[n]] else [])
            && Refused(batch, encodes) == Refused(batch[..n], encodes[..n]) + (if encodes[n] then [] else [batch[n]])
  {
  }

  lemma {:induction false} ErrorsFront(c: Counters, batch: seq<Accepted>, encodes: seq<bool>)
    requires |batch| == |encodes| && batch != []
    ensures WithEncodingErrors(c, batch, encodes) ==
            WithEncodingErrors(if encodes[0] then c else CountSerializationError(c), batch[1..], encodes[1..])
    decreases |batch|
  {
    hide CountSerializationError;
    var n := |batch| - 1;
    if n > 0 {
      ErrorsFront(c, batch[..n], encodes[..n]);
      assert batch[1..][..n - 1] == batch[..n][1..];
      assert encodes[1..][..n - 1] == encodes[..n][1..];
    } else {
      assert batch[..0] == [] && batch[1..] == [];
    }
  }

  lemma FrontFirst(c: Counters, batch: seq<Accepted>, encodes: seq<bool>)
    requires |batch| == |encodes| && batch != []
    ensures Kept(batch, encodes) == (if encodes[0] then [batch[0]] else []) + Kept(batch[1..], encodes[1..])
    ensures Refused(batch, encodes) == (if encodes[0] then [] else [batch[0]]) + Refused(batch[1..], encodes[1..])
    ensures WithEncodingErrors(c, batch, encodes) ==
            WithEncodingErrors(if encodes[0] then c else CountSerializationError(c), batch[1..], encodes[1..])
  {
    hide Kept, Refused, WithEncodingErrors, CountSerializationError;
    KeptFront(batch, encodes);
    ErrorsFront(c, batch, encodes);
  }

  lemma OneAction(s: State, a: Action)
    requires Enabled(s, a)
    ensures Run(s, [a]) && Last(s, [a]) == Next(s, a)
  {
    hide Enabled, Next;
    assert [a][1..] == [];
    assert Run(Next(s, a), []) && Last(Next(s, a), []) == Next(s, a);
  }

  lemma {:induction false} RunAppend(s: State, xs: seq<Action>, ys: seq<Action>)
    requires Run(s, xs) && Run(Last(s, xs), ys)
    ensures Run(s, xs + ys) && Last(s, xs + ys) == Last(Last(s, xs), ys)
    decreases |xs|
  {
    hide Enabled, Next;
    if xs == [] {
      assert xs + ys == ys;
    } else {
      RunAppend(Next(s, xs[0]), xs[1..], ys);
      assert (xs + ys)[1..] == xs[1..] + ys;
    }
  }

  lemma TwoActions(s: State, a: Action, b: Action)
    requires Enabled(s, a) && Enabled(Next(s, a), b)
    ensures Run(s, [a, b]) && Last(s, [a, b]) == Next(Next(s, a), b)
  {
    hide Enabled, Next, Run, Last;
    OneAction(s, a);
    OneAction(Next(s, a), b);
    RunAppend(s, [a], [b]);
    assert [a] + [b] == [a, b];
  }

  /** The counters and the queue of a state are those of the object after the call. */
  ghost predicate Leaves(t: State, c: Counters, queue: seq<Item>, s: State) {
    t.c == c && t.queue == queue && t.file == s.file && t.holder.Free? && t.pc == s.pc
  }

  /** A refused snapshot is one producer action. */
  lemma RejectIsARun(s: State, record: Tree)
    requires s.holder.Free?
    ensures Run(s, [RejectSnapshot(record)])
    ensures Leaves(Last(s, [RejectSnapshot(record)]), CountRejected(s.c, RecordCategory(record)), s.queue, s)
  {
    hide RecordCategory, CountRejected;
    OneAction(s, RejectSnapshot(record));
    hide Run, Last;
  }

  /** A submission to the closed writer is one action, to the full queue two. */
  lemma RefusalIsARun(s: State, envelope: Tree)
    requires s.holder.Free? && (s.closing || |s.queue| >= s.capacity)
    ensures var actions := if s.closing then [Submit(envelope)] else [Submit(envelope), Put];
            var category := RecordCategory(envelope);
            var counted := CountSubmitted(s.c, category);
            Run(s, actions) &&
            Leaves(Last(s, actions), if s.closing then CountClosed(counted, category) else CountFull(counted, category), s.queue, s)
  {
    hide RecordCategory, CountSubmitted, CountClosed, CountFull, Run, Last;
    if s.closing {
      OneAction(s, Submit(envelope));
    } else {
      TwoActions(s, Submit(envelope), Put);
    }
  }

  /** The locked part of close is two actions the first time and one after that. */
  lemma CloseIsARun(s: State)
    requires s.holder.Free?
    ensures var actions := if s.closing then [BeginClose] else [BeginClose, PutSentinel];
            && Run(s, actions) && Last(s, actions).closing
            && Leaves(Last(s, actions), s.c, if !s.closing && |s.queue| < s.capacity then s.queue + [Sentinel] else s.queue, s)
  {
    hide Run, Last;
    if s.closing {
      OneAction(s, BeginClose);
    } else {
      TwoActions(s, BeginClose, PutSentinel);
    }
  }

  /** A close that gives up waiting sees the worker alive and then counts the timeout. */
  lemma TimeoutIsARun(s: State)
    requires s.holder.Free? && s.closing && !s.pc.Exited?
    ensures Run(s, [SeeAlive, RecordTimeout]) && Leaves(Last(s, [SeeAlive, RecordTimeout]), CountTimeout(s.c), s.queue, s)
  {
    hide Run, Last, CountTimeout;
    TwoActions(s, SeeAlive, RecordTimeout);
  }

  lemma FinalizeIsARun(s: State)
    requires s.holder.Free? && s.pc.Finalizing?
    ensures Run(s, [WriterProtocol.Finalize]) && Last(s, [WriterProtocol.Finalize]) == s.(pc := Exited, c := CountFinal(s.c))
  {
    hide Run, Last, CountFinal;
    OneAction(s, WriterProtocol.Finalize);
  }

  /** Writing the lines of a batch: written and counted in two actions, or failed in one. */
  lemma WritingIsARun(s: State, lines: seq<Accepted>, writes: bool, upTo: nat, after: After)
    requires s.holder.Free? && s.pc == Writing(lines, after) && upTo <= |lines|
    ensures var actions := if writes then [Write(true, upTo), Commit] else [Write(false, upTo)];
            && Run(s, actions)
            && var t := Last(s, actions);
               && t.pc == Resume(after) && t.queue == s.queue && t.holder.Free?
               && t.c == (if writes then CountWritten(s.c, lines) else CountWriteError(s.c))
               && t.file == s.file + if writes then lines else lines[..upTo]
  {
    hide Run, Last, CountWritten, CountWriteError;
    if writes {
      TwoActions(s, Write(true, upTo), Commit);
    } else {
      OneAction(s, Write(false, upTo));
    }
  }

  /** A whole batch is a run of the worker that leaves the file and the counters as the
      method does, for any failures. */
  lemma BatchIsARun(s: State, batch: seq<Accepted>, encodes: seq<bool>, writes: bool, upTo: nat, after: After)
    returns (actions: seq<Action>)
    requires |batch| == |encodes| && batch != [] && upTo <= |Kept(batch, encodes)|
    requires s.holder.Free? && s.pc == Serializing([], batch, after)
    ensures Run(s, actions)
    ensures var t, lines := Last(s, actions), Kept(batch, encodes);
            var c := WithEncodingErrors(s.c, batch, encodes);
            && t.pc == Resume(after) && t.queue == s.queue && t.holder.Free?
            && (if lines == [] then t.c == c && t.file == s.file
                else if writes then t.c == CountWritten(c, lines) && t.file == s.file + lines
                else t.c == CountWriteError(c) && t.file == s.file + lines[..upTo])
  {
    hide Run, Last, Kept, WithEncodingErrors, Refused, CountWritten, CountWriteError;
    actions := EncodingIsARun(s, [], batch, encodes, after);
    var mid, lines := Last(s, actions), Kept(batch, encodes);
    assert [] + lines == lines;
    if lines != [] {
      WritingIsARun(mid, lines, writes, upTo, after);
      var rest := if writes then [Write(true, upTo), Commit] else [Write(false, upTo)];
      RunAppend(s, actions, rest);
      actions := actions + rest;
    }
  }
}
