/** Once the writer is closed the worker finishes: a bound on its outer rounds, a bound
    on all its steps, and no state in which it cannot move. */
module WriterProgress {
  import opened WriterProtocol
  import opened WriterSafety

  /** The close region has been left: closing is set and the sentinel is in or was lost. */
  predicate Closed(s: State) {
    s.closing && !s.holder.SettingClosed?
  }

  // ---- outer rounds -----------------------------------------------------------

  /** Rounds begun since the close, against the queue found by the close. */
  predicate RoundsBounded(s: State) {
    Closed(s) ==>
      if Returning(s.pc) then s.outerRounds + |s.queue| <= s.queuedAtClose
      else if s.pc.TimedOut? then s.outerRounds + |s.queue| <= s.queuedAtClose + 1
      else s.outerRounds <= s.queuedAtClose + 1
  }

  /** The worker can still come back to the head of its outer loop. */
  predicate Returning(pc: Pc) {
    || pc.Opening? || pc.Outer? || pc.Batching?
    || ((pc.Serializing? || pc.Writing? || pc.Committing?) && pc.after.ToOuter?)
  }

  lemma RoundsKept(s: State, a: Action)
    requires Handshake(s) && RoundsBounded(s) && Enabled(s, a)
    ensures RoundsBounded(Next(s, a))
  {
    hide CountRejected, CountSubmitted, CountClosed, CountFull, CountAccepted, CountWritten;
    hide CountSerializationError, CountWriteError, CountTimeout, CountFinal;
  }

  lemma {:induction false} RunRounds(s: State, actions: seq<Action>)
    requires Safe(s) && RoundsBounded(s) && Run(s, actions)
    ensures RoundsBounded(Last(s, actions))
    decreases |actions|
  {
    if actions != [] {
      RoundsKept(s, actions[0]);
      RunIsSafe(s, [actions[0]]);
      assert Last(s, [actions[0]]) == Next(s, actions[0]);
      hide Next, Enabled, RoundsBounded, Safe;
      RunRounds(Next(s, actions[0]), actions[1..]);
    }
  }

  /** In every interleaving the closed worker begins at most one more outer round than
      there were items in the queue when the close left the lock. */
  lemma OuterRoundsAfterClose(capacity: nat, batchSize: nat, actions: seq<Action>)
    requires Run(Initial(capacity, batchSize), actions)
    ensures var s := Last(Initial(capacity, batchSize), actions);
            Closed(s) ==> s.outerRounds <= s.queuedAtClose + 1
  {
    RunRounds(Initial(capacity, batchSize), actions);
  }

  // ---- all steps --------------------------------------------------------------

  function AfterRank(after: After): nat {
    match after
    case ToOuter => 10
    case ToDrain => 5
    case ToFlush => 3
  }

  function PcRank(pc: Pc): nat {
    match pc
    case Opening => 11
    case Outer => 10
    case TimedOut => 6
    case Batching(batch) => |batch| + 14
    case Serializing(_, rest, after) => |rest| + 3 + AfterRank(after)
    case Writing(_, after) => 2 + AfterRank(after)
    case Committing(_, after) => 1 + AfterRank(after)
    case Draining => 5
    case Flushing => 3
    case Finalizing => 2
    case Exited => 0
  }

  /** How many steps the worker can still take. */
  function Rank(s: State): nat {
    8 * |s.queue| + PcRank(s.pc)
  }

  lemma CallersKeepRank(s: State, a: Action)
    requires Handshake(s) && Closed(s) && Enabled(s, a) && !IsWorker(a)
    ensures Closed(Next(s, a)) && Rank(Next(s, a)) == Rank(s)
  {
    hide CountRejected, CountSubmitted, CountClosed, CountFull, CountAccepted, CountTimeout, PcRank;
  }

  lemma TakingCountsDown(s: State, a: Action)
    requires Handshake(s) && Closed(s) && Enabled(s, a) && Takes(a)
    ensures Closed(Next(s, a)) && Rank(Next(s, a)) < Rank(s)
  {
  }

  lemma WorkingCountsDown(s: State, a: Action)
    requires Handshake(s) && Closed(s) && Enabled(s, a) && IsWorker(a) && !Takes(a)
    ensures Closed(Next(s, a)) && Rank(Next(s, a)) < Rank(s)
  {
    hide CountWritten, CountSerializationError, CountWriteError, CountFinal;
  }

  lemma WorkerStepsCountDown(s: State, a: Action)
    requires Handshake(s) && Closed(s) && Enabled(s, a)
    ensures Closed(Next(s, a))
    ensures IsWorker(a) ==> Rank(Next(s, a)) < Rank(s)
    ensures !IsWorker(a) ==> Rank(Next(s, a)) == Rank(s)
  {
    hide Handshake, Next, Enabled, Closed, Rank;
    if !IsWorker(a) {
      CallersKeepRank(s, a);
    } else if Takes(a) {
      TakingCountsDown(s, a);
    } else {
      WorkingCountsDown(s, a);
    }
  }

  function WorkerSteps(actions: seq<Action>): nat {
    if actions == [] then 0 else (if IsWorker(actions[0]) then 1 else 0) + WorkerSteps(actions[1..])
  }

  /** From any reachable closed state, however the other threads interleave, the worker
      takes at most `Rank` further steps. */
  lemma {:induction false} ClosedRunIsBounded(s: State, actions: seq<Action>)
    requires Safe(s) && Closed(s) && Run(s, actions)
    ensures WorkerSteps(actions) + Rank(Last(s, actions)) <= Rank(s)
    decreases |actions|
  {
    if actions != [] {
      WorkerStepsCountDown(s, actions[0]);
      RunIsSafe(s, [actions[0]]);
      assert Last(s, [actions[0]]) == Next(s, actions[0]);
      hide Next, Enabled, Closed, Rank, Safe, IsWorker;
      ClosedRunIsBounded(Next(s, actions[0]), actions[1..]);
    }
  }

  /** The worker's next action when nobody is inside the lock. */
  function WorkerMove(s: State): Action {
    match s.pc
    case Opening => Open
    case Outer => if s.queue == [] then GetTimesOut else GetFirst
    case TimedOut => CheckClosing
    case Batching(_) => GetMore
    case Serializing(_, _, _) => SerializeNext(true)
    case Writing(_, _) => Write(true, 0)
    case Committing(_, _) => Commit
    case Draining => DrainNext
    case Flushing => Flush(true)
    case Finalizing => Finalize
    case Exited => SeeAlive
  }

  /** The holder's next action. */
  function HolderMove(s: State): Action
    requires !s.holder.Free?
  {
    match s.holder
    case Submitting(_) => Put
    case Placed(_) => Accept
    case SettingClosed => PutSentinel
  }

  /** No deadlock: whoever is inside the lock can leave it, and otherwise the worker can
      move until it has exited. */
  lemma SomebodyCanMove(s: State)
    requires Safe(s) && !s.pc.Exited?
    ensures if s.holder.Free? then IsWorker(WorkerMove(s)) && Enabled(s, WorkerMove(s))
            else Enabled(s, HolderMove(s))
  {
  }
}
