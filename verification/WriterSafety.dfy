/** What every reachable state of the evidence writer satisfies: nothing accepted is
    lost, duplicated or reordered unless a fault was recorded. */
module WriterSafety {
  import opened Snapshots
  import opened EvidenceCategories
  import opened WriterProtocol

  /** The records waiting in the queue. */
  function Recs(q: seq<Item>): seq<Accepted> {
    if q == [] then []
    else (if q[0].Rec? then [q[0].a] else []) + Recs(q[1..])
  }

  lemma {:induction false} RecsAppend(q: seq<Item>, i: Item)
    ensures Recs(q + [i]) == Recs(q) + if i.Rec? then [i.a] else []
  {
    if q == [] {
      assert [i][1..] == [];
    } else {
      RecsAppend(q[1..], i);
      assert (q + [i])[1..] == q[1..] + [i];
    }
  }

  /** The worker is on its way out because it saw the writer closed, not because it failed. */
  predicate Leaving(s: State) {
    || s.pc.Draining?
    || ((s.pc.Serializing? || s.pc.Writing? || s.pc.Committing?) && !s.pc.after.ToOuter?)
    || ((s.pc.Flushing? || s.pc.Finalizing? || s.pc.Exited?) && !s.faulted)
  }

  predicate Emptied(s: State) {
    || ((s.pc.Serializing? || s.pc.Writing? || s.pc.Committing?) && s.pc.after.ToFlush?)
    || ((s.pc.Flushing? || s.pc.Finalizing? || s.pc.Exited?) && !s.faulted)
  }

  /** The close handshake: the sentinel comes last, nothing is accepted once closing is
      set, and a worker that leaves has seen the closed writer. */
  ghost predicate Handshake(s: State) {
    && (forall i | 0 <= i < |s.queue| :: s.queue[i].Sentinel? ==>
          i == |s.queue| - 1 && s.closing && !s.holder.SettingClosed?)
    && (s.holder.Submitting? || s.holder.Placed? ==> !s.closing)
    && (s.holder.SettingClosed? ==> s.closing)
    && (Leaving(s) ==> s.closing && !s.holder.SettingClosed?)
    && (Emptied(s) ==> s.queue == [])
    && (s.pc.Serializing? ==> s.pc.rest != [])
    && (s.pc.Batching? ==> s.pc.batch != [])
  }

  /** Without a fault, file, hands and queue together are the acceptance log, in order. */
  ghost predicate Content(s: State) {
    !s.faulted ==>
      && s.file + InFlight(s.pc) + Recs(s.queue) == s.log
      && s.committed + Uncommitted(s.pc) == s.file
  }

  /** A capture is declared complete only by a faultless worker after the close. */
  predicate CompleteIsEarned(s: State) {
    && (s.faulted ==> s.c.error.Some? && s.c.serializationErrors + s.c.writeErrors > 0)
    && (s.c.error.None? ==> s.c.serializationErrors == 0 && s.c.writeErrors == 0)
    && (s.c.complete ==>
          && s.pc.Exited? && s.closing && s.holder.Free? && !s.faulted
          && s.c.error.None? && s.c.dropped == 0 && s.c.accepted == s.c.written)
  }

  /** The worker takes an item from the queue, if there is one. */
  predicate Takes(a: Action) {
    a.GetFirst? || a.GetMore? || a.DrainNext?
  }

  lemma HandshakeKeptByCallers(s: State, a: Action)
    requires Handshake(s) && Enabled(s, a) && !IsWorker(a)
    ensures Handshake(Next(s, a))
  {
    hide CountRejected, CountSubmitted, CountClosed, CountFull, CountAccepted, CountTimeout, RecordCategory, RowName;
  }

  lemma HandshakeKeptByTaking(s: State, a: Action)
    requires Handshake(s) && Enabled(s, a) && Takes(a)
    ensures Handshake(Next(s, a))
  {
    assert forall i | 0 <= i < |s.queue| - 1 :: s.queue[i + 1] == s.queue[1..][i];
  }

  lemma HandshakeKeptByWorker(s: State, a: Action)
    requires Handshake(s) && Enabled(s, a) && IsWorker(a) && !Takes(a)
    ensures Handshake(Next(s, a))
  {
    hide CountWritten, CountSerializationError, CountWriteError, CountFinal;
  }

  lemma HandshakeKept(s: State, a: Action)
    requires Handshake(s) && Enabled(s, a)
    ensures Handshake(Next(s, a))
  {
    hide Handshake, Next, Enabled;
    if !IsWorker(a) {
      HandshakeKeptByCallers(s, a);
    } else if Takes(a) {
      HandshakeKeptByTaking(s, a);
    } else {
      HandshakeKeptByWorker(s, a);
    }
  }

  lemma ContentKeptByQueueing(s: State, a: Action)
    requires Handshake(s) && Content(s) && Enabled(s, a)
    requires a.Put? || a.PutSentinel?
    ensures Content(Next(s, a))
  {
    hide CountFull, RecordCategory, RowName;
    RecsAppend(s.queue, Sentinel);
    if a.Put? && |s.queue| < s.capacity {
      RecsAppend(s.queue, Next(s, a).queue[|s.queue|]);
    }
  }

  /** Moving the head of the queue into the worker's hands keeps the whole sequence. */
  lemma HeadMoves(file: seq<Accepted>, hands: seq<Accepted>, q: seq<Item>)
    requires q != []
    ensures file + hands + Recs(q) ==
            file + (hands + if q[0].Rec? then [q[0].a] else []) + Recs(q[1..])
  {
  }

  lemma FirstInFlight(s: State)
    requires s.pc.Outer? && s.queue != []
    ensures InFlight(TakeFirst(s).pc) == InFlight(s.pc) + if s.queue[0].Rec? then [s.queue[0].a] else []
  {
  }

  lemma MoreInFlight(s: State)
    requires s.pc.Batching? && s.pc.batch != [] && |s.pc.batch| < s.batchSize && s.queue != []
    ensures InFlight(TakeMore(s).pc) == InFlight(s.pc) + if s.queue[0].Rec? then [s.queue[0].a] else []
  {
  }

  lemma DrainInFlight(s: State)
    requires s.pc.Draining? && s.queue != []
    ensures InFlight(TakeDrained(s).pc) == InFlight(s.pc) + if s.queue[0].Rec? then [s.queue[0].a] else []
  {
  }

  lemma ContentKeptByTaking(s: State, a: Action)
    requires Handshake(s) && Content(s) && Enabled(s, a)
    requires a.GetFirst? || a.GetMore? || a.DrainNext?
    ensures Content(Next(s, a))
  {
    hide Recs;
    if s.queue == [] || (a.GetMore? && |s.pc.batch| >= s.batchSize) {
      assert InFlight(Next(s, a).pc) == InFlight(s.pc);
    } else {
      HeadMoves(s.file, InFlight(s.pc), s.queue);
      if a.GetFirst? {
        FirstInFlight(s);
      } else if a.GetMore? {
        MoreInFlight(s);
      } else {
        DrainInFlight(s);
      }
      hide InFlight, AfterSerializing;
    }
  }

  lemma ContentKeptByWorking(s: State, a: Action)
    requires Handshake(s) && Content(s) && Enabled(s, a)
    requires a.SerializeNext? || a.Write? || a.Commit?
    ensures Content(Next(s, a))
  {
    hide CountWritten, CountSerializationError, CountWriteError, Recs;
    var t := Next(s, a);
    if a.SerializeNext? && a.ok {
      assert InFlight(t.pc) == InFlight(s.pc);
    } else if a.Write? && a.ok {
      assert t.file + InFlight(t.pc) == s.file + InFlight(s.pc);
    }
  }

  lemma ContentKept(s: State, a: Action)
    requires Handshake(s) && Content(s) && Enabled(s, a)
    ensures Content(Next(s, a))
  {
    if a.Put? || a.PutSentinel? {
      ContentKeptByQueueing(s, a);
    } else if a.GetFirst? || a.GetMore? || a.DrainNext? {
      ContentKeptByTaking(s, a);
    } else if a.SerializeNext? || a.Write? || a.Commit? {
      ContentKeptByWorking(s, a);
    } else {
      hide CountRejected, CountSubmitted, CountClosed, CountAccepted, CountWriteError, CountTimeout, CountFinal, Recs;
    }
  }

  lemma CompleteKept(s: State, a: Action)
    requires Handshake(s) && CompleteIsEarned(s) && Enabled(s, a)
    ensures CompleteIsEarned(Next(s, a))
  {
    hide RecordCategory, RowName, Bump, BumpWritten;
  }

  // ---- whole runs -------------------------------------------------------------

  ghost predicate Safe(s: State) {
    Handshake(s) && Content(s) && CompleteIsEarned(s)
  }

  lemma {:induction false} RunIsSafe(s: State, actions: seq<Action>)
    requires Safe(s) && Run(s, actions)
    ensures Safe(Last(s, actions))
    decreases |actions|
  {
    if actions != [] {
      var a := actions[0];
      HandshakeKept(s, a);
      ContentKept(s, a);
      CompleteKept(s, a);
      hide Next, Handshake, Content, CompleteIsEarned, Enabled;
      RunIsSafe(Next(s, a), actions[1..]);
    }
  }

  function Envelopes(xs: seq<Accepted>): seq<Tree> {
    seq(|xs|, i requires 0 <= i < |xs| => xs[i].envelope)
  }

  /** In every interleaving: when the worker has exited without a worker exception, a
      serialization error or a write error, the file holds exactly the accepted
      envelopes, once each and in acceptance order, and nothing is left in the queue. A
      sentinel lost to a full queue and closers that gave up waiting change nothing. */
  lemma CleanExitHoldsEverything(capacity: nat, batchSize: nat, actions: seq<Action>)
    requires Run(Initial(capacity, batchSize), actions)
    ensures var s := Last(Initial(capacity, batchSize), actions);
            s.pc.Exited? && !s.faulted ==>
              s.file == s.log && Envelopes(s.file) == Envelopes(s.log) && s.queue == [] && s.committed == s.file
  {
    RunIsSafe(Initial(capacity, batchSize), actions);
  }

  /** A capture that says it is complete is complete: the file is the acceptance log and
      every submission was accepted. */
  lemma CompleteCaptureIsTheLog(capacity: nat, batchSize: nat, actions: seq<Action>)
    requires Run(Initial(capacity, batchSize), actions)
    ensures var s := Last(Initial(capacity, batchSize), actions);
            s.c.complete ==>
              && s.pc.Exited? && s.closing && s.queue == [] && s.file == s.log && s.committed == s.file
              && s.c.error.None? && s.c.dropped == 0 && s.c.accepted == s.c.written
  {
    RunIsSafe(Initial(capacity, batchSize), actions);
  }
}
