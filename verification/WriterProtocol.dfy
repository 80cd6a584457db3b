/** The evidence writer as a state machine. Each action is one region that no other
    thread can split: a queue operation, a file operation, or a stretch of code under
    the lock that touches nothing but the counters. Producers, the worker and any
    number of closers take actions in any order. */
module WriterProtocol {
  import opened Values
  import opened Snapshots
  import opened EvidenceCategories

  const MAX_COUNTER_CATEGORIES: nat := 128
  const OTHER: string := "__other__"

  // ---- counters ---------------------------------------------------------------

  datatype Counter = SubmittedC | AcceptedC | WrittenC | DroppedC

  datatype Row = Row(submitted: nat, accepted: nat, written: nat, dropped: nat)

  const EMPTY_ROW: Row := Row(0, 0, 0, 0)

  type Rows = map<string, Row>

  function Get(r: Row, f: Counter): nat {
    match f
    case SubmittedC => r.submitted
    case AcceptedC => r.accepted
    case WrittenC => r.written
    case DroppedC => r.dropped
  }

  function Inc(r: Row, f: Counter): Row {
    match f
    case SubmittedC => r.(submitted := r.submitted + 1)
    case AcceptedC => r.(accepted := r.accepted + 1)
    case WrittenC => r.(written := r.written + 1)
    case DroppedC => r.(dropped := r.dropped + 1)
  }

  /** The row a category is counted in: its own while there is room, else the shared one. */
  function RowName(rows: Rows, category: string): string {
    if category in rows || |rows| < MAX_COUNTER_CATEGORIES then category else OTHER
  }

  function RowAt(rows: Rows, name: string): Row {
    if name in rows then rows[name] else EMPTY_ROW
  }

  function Bump(rows: Rows, category: string, f: Counter): Rows {
    var name := RowName(rows, category);
    rows[name := Inc(RowAt(rows, name), f)]
  }

  datatype Failure = SnapshotRejected | WriterClosed | QueueFull | Serialization | WorkerFault | CloseTimeout

  datatype Counters = Counters(
    submitted: nat, accepted: nat, written: nat, dropped: nat,
    snapshotRejected: nat, queueFull: nat, closedRejected: nat,
    serializationErrors: nat, writeErrors: nat,
    rows: Rows, error: Option<Failure>, complete: bool)

  function OrElse(e: Option<Failure>, f: Failure): Option<Failure> {
    if e.Some? then e else Some(f)
  }

  function CountSubmitted(c: Counters, category: string): Counters {
    c.(submitted := c.submitted + 1, rows := Bump(c.rows, category, SubmittedC))
  }

  function CountRejected(c: Counters, category: string): Counters {
    var d := CountSubmitted(c, category);
    d.(snapshotRejected := d.snapshotRejected + 1, dropped := d.dropped + 1, error := Some(SnapshotRejected),
       complete := false, rows := Bump(d.rows, category, DroppedC))
  }

  function CountClosed(c: Counters, category: string): Counters {
    c.(closedRejected := c.closedRejected + 1, dropped := c.dropped + 1, error := OrElse(c.error, WriterClosed),
       complete := false, rows := Bump(c.rows, category, DroppedC))
  }

  function CountFull(c: Counters, category: string): Counters {
    c.(queueFull := c.queueFull + 1, dropped := c.dropped + 1, error := OrElse(c.error, QueueFull),
       complete := false, rows := Bump(c.rows, category, DroppedC))
  }

  function CountAccepted(c: Counters, category: string): Counters {
    c.(accepted := c.accepted + 1, rows := Bump(c.rows, category, AcceptedC))
  }

  function CountSerializationError(c: Counters): Counters {
    c.(serializationErrors := c.serializationErrors + 1, error := Some(Serialization))
  }

  function CountWriteError(c: Counters): Counters {
    c.(writeErrors := c.writeErrors + 1, error := Some(WorkerFault))
  }

  function BumpWritten(rows: Rows, lines: seq<Accepted>): Rows {
    if lines == [] then rows
    else Bump(BumpWritten(rows, lines[..|lines| - 1]), RecordCategory(lines[|lines| - 1].envelope), WrittenC)
  }

  function CountWritten(c: Counters, lines: seq<Accepted>): Counters {
    c.(written := c.written + |lines|, rows := BumpWritten(c.rows, lines))
  }

  function CountTimeout(c: Counters): Counters {
    c.(writeErrors := c.writeErrors + 1, error := Some(CloseTimeout), complete := false)
  }

  function CountFinal(c: Counters): Counters {
    c.(complete := c.error.None? && c.dropped == 0 && c.accepted == c.written)
  }

  // ---- states -----------------------------------------------------------------

  /** An envelope together with the row it was counted in when it was submitted. */
  datatype Accepted = Accepted(envelope: Tree, row: string)

  datatype Item = Rec(a: Accepted) | Sentinel

  /** Who is inside the lock with its work half done. */
  datatype Holder = Free | Submitting(envelope: Tree) | Placed(a: Accepted) | SettingClosed

  datatype After = ToOuter | ToDrain | ToFlush

  /** Where the worker is. */
  datatype Pc =
    | Opening
    | Outer
    | TimedOut
    | Batching(batch: seq<Accepted>)
    | Serializing(lines: seq<Accepted>, rest: seq<Accepted>, after: After)
    | Writing(lines: seq<Accepted>, after: After)
    | Committing(lines: seq<Accepted>, after: After)
    | Draining
    | Flushing
    | Finalizing
    | Exited

  /** `log`, `committed`, `lost`, `faulted`, `outerRounds`, `queuedAtClose` and `seen` (the
      categories submitted so far) record history; the program itself keeps the rest. */
  datatype State = State(
    capacity: nat, batchSize: nat,
    holder: Holder, queue: seq<Item>, closing: bool, c: Counters,
    pc: Pc, file: seq<Accepted>, lateClosers: nat,
    log: seq<Accepted>, committed: seq<Accepted>, lost: seq<Accepted>, faulted: bool,
    outerRounds: nat, queuedAtClose: nat, seen: set<string>)

  function Initial(capacity: nat, batchSize: nat): State {
    State(capacity, batchSize, Free, [], false, Counters(0, 0, 0, 0, 0, 0, 0, 0, 0, map[], None, false),
          Opening, [], 0, [], [], [], false, 0, 0, {})
  }

  // ---- actions ----------------------------------------------------------------

  datatype Action =
    // producers
    | RejectSnapshot(record: Tree)
    | Submit(envelope: Tree)
    | Put
    | Accept
    // closers
    | BeginClose
    | PutSentinel
    | SeeAlive
    | RecordTimeout
    // worker
    | Open
    | GetFirst
    | GetTimesOut
    | CheckClosing
    | GetMore
    | SerializeNext(ok: bool)
    | Write(ok: bool, upTo: nat)
    | Commit
    | DrainNext
    | Raise(upTo: nat)
    | Flush(ok: bool)
    | Finalize

  predicate IsWorker(a: Action) {
    a.Open? || a.GetFirst? || a.GetTimesOut? || a.CheckClosing? || a.GetMore? || a.SerializeNext? ||
    a.Write? || a.Commit? || a.DrainNext? || a.Raise? || a.Flush? || a.Finalize?
  }

  function Resume(after: After): Pc {
    match after
    case ToOuter => Outer
    case ToDrain => Draining
    case ToFlush => Flushing
  }

  /** Records the worker has taken from the queue and not yet put in the file. */
  function InFlight(pc: Pc): seq<Accepted> {
    match pc
    case Batching(batch) => batch
    case Serializing(lines, rest, _) => lines + rest
    case Writing(lines, _) => lines
    case _ => []
  }

  /** Records in the file that the counters do not know about yet. */
  function Uncommitted(pc: Pc): seq<Accepted> {
    if pc.Committing? then pc.lines else []
  }

  predicate CanRaise(pc: Pc) {
    !(pc.Flushing? || pc.Finalizing? || pc.Exited? || pc.Committing?)
  }

  predicate Enabled(s: State, a: Action) {
    match a
    case RejectSnapshot(_) => s.holder.Free?
    case Submit(_) => s.holder.Free?
    case Put => s.holder.Submitting?
    case Accept => s.holder.Placed?
    case BeginClose => s.holder.Free?
    case PutSentinel => s.holder.SettingClosed?
    case SeeAlive => s.closing && !s.pc.Exited?
    case RecordTimeout => s.lateClosers > 0 && s.holder.Free?
    case Open => s.pc.Opening?
    case GetFirst => s.pc.Outer? && s.queue != []
    case GetTimesOut => s.pc.Outer? && s.queue == []
    case CheckClosing => s.pc.TimedOut? && s.holder.Free?
    case GetMore => s.pc.Batching?
    case SerializeNext(ok) => s.pc.Serializing? && s.pc.rest != [] && (ok || s.holder.Free?)
    case Write(ok, upTo) => s.pc.Writing? && upTo <= |s.pc.lines| && (ok || s.holder.Free?)
    case Commit => s.pc.Committing? && s.holder.Free?
    case DrainNext => s.pc.Draining?
    case Raise(upTo) => CanRaise(s.pc) && s.holder.Free? && upTo <= |InFlight(s.pc)|
    case Flush(ok) => s.pc.Flushing? && (ok || s.holder.Free?)
    case Finalize => s.pc.Finalizing? && s.holder.Free?
  }

  function AfterSerializing(lines: seq<Accepted>, rest: seq<Accepted>, after: After): Pc {
    if rest != [] then Serializing(lines, rest, after)
    else if lines == [] then Resume(after)
    else Writing(lines, after)
  }

  function Submitted(s: State, envelope: Tree): State {
    var category := RecordCategory(envelope);
    var c := CountSubmitted(s.c, category);
    if s.closing then s.(c := CountClosed(c, category), seen := s.seen + {category})
    else s.(c := c, holder := Submitting(envelope), seen := s.seen + {category})
  }

  function PutRecord(s: State): State
    requires s.holder.Submitting?
  {
    var category := RecordCategory(s.holder.envelope);
    if |s.queue| < s.capacity then
      var a := Accepted(s.holder.envelope, RowName(s.c.rows, category));
      s.(queue := s.queue + [Rec(a)], log := s.log + [a], holder := Placed(a))
    else s.(c := CountFull(s.c, category), holder := Free)
  }

  function ClosePut(s: State): State {
    var queue := if |s.queue| < s.capacity then s.queue + [Sentinel] else s.queue;
    s.(queue := queue, holder := Free, queuedAtClose := |queue|, outerRounds := 0)
  }

  function TakeFirst(s: State): State
    requires s.queue != []
  {
    s.(queue := s.queue[1..], outerRounds := s.outerRounds + 1,
       pc := if s.queue[0].Sentinel? then Draining else Batching([s.queue[0].a]))
  }

  function TakeMore(s: State): State
    requires s.pc.Batching?
  {
    var batch := s.pc.batch;
    if |batch| >= s.batchSize || s.queue == [] then s.(pc := AfterSerializing([], batch, ToOuter))
    else if s.queue[0].Sentinel? then s.(queue := s.queue[1..], pc := AfterSerializing([], batch, ToFlush))
    else s.(queue := s.queue[1..], pc := Batching(batch + [s.queue[0].a]))
  }

  function SerializeOne(s: State, ok: bool): State
    requires s.pc.Serializing? && s.pc.rest != []
  {
    var Serializing(lines, rest, after) := s.pc;
    if ok then s.(pc := AfterSerializing(lines + [rest[0]], rest[1..], after))
    else s.(pc := AfterSerializing(lines, rest[1..], after), c := CountSerializationError(s.c),
            lost := s.lost + [rest[0]], faulted := true)
  }

  function WriteLines(s: State, ok: bool, upTo: nat): State
    requires s.pc.Writing? && upTo <= |s.pc.lines|
  {
    var Writing(lines, after) := s.pc;
    if ok then s.(file := s.file + lines, pc := Committing(lines, after))
    else s.(file := s.file + lines[..upTo], pc := Resume(after), c := CountWriteError(s.c),
            lost := s.lost + lines, faulted := true)
  }

  function TakeDrained(s: State): State {
    if s.queue == [] then s.(pc := Flushing)
    else if s.queue[0].Sentinel? then s.(queue := s.queue[1..])
    else s.(queue := s.queue[1..], pc := AfterSerializing([], [s.queue[0].a], ToDrain))
  }

  function RaiseFault(s: State, upTo: nat): State
    requires upTo <= |InFlight(s.pc)|
  {
    s.(file := s.file + InFlight(s.pc)[..upTo], c := CountWriteError(s.c), faulted := true,
       lost := s.lost + InFlight(s.pc), pc := if s.pc.Opening? then Finalizing else Flushing)
  }

  function Next(s: State, a: Action): State
    requires Enabled(s, a)
  {
    match a
    case RejectSnapshot(record) =>
      s.(c := CountRejected(s.c, RecordCategory(record)), seen := s.seen + {RecordCategory(record)})
    case Submit(envelope) => Submitted(s, envelope)
    case Put => PutRecord(s)
    case Accept => s.(c := CountAccepted(s.c, RecordCategory(s.holder.a.envelope)), holder := Free)
    case BeginClose => if s.closing then s else s.(closing := true, holder := SettingClosed)
    case PutSentinel => ClosePut(s)
    case SeeAlive => s.(lateClosers := s.lateClosers + 1)
    case RecordTimeout => s.(c := CountTimeout(s.c), lateClosers := s.lateClosers - 1)
    case Open => s.(pc := Outer)
    case GetFirst => TakeFirst(s)
    case GetTimesOut => s.(pc := TimedOut, outerRounds := s.outerRounds + 1)
    case CheckClosing => s.(pc := if s.closing then Draining else Outer)
    case GetMore => TakeMore(s)
    case SerializeNext(ok) => SerializeOne(s, ok)
    case Write(ok, upTo) => WriteLines(s, ok, upTo)
    case Commit => s.(c := CountWritten(s.c, s.pc.lines), committed := s.committed + s.pc.lines, pc := Resume(s.pc.after))
    case DrainNext => TakeDrained(s)
    case Raise(upTo) => RaiseFault(s, upTo)
    case Flush(ok) =>
      if ok then s.(pc := Finalizing) else s.(pc := Finalizing, c := CountWriteError(s.c), faulted := true)
    case Finalize => s.(pc := Exited, c := CountFinal(s.c))
  }

  /** A run: every action enabled where it is taken. */
  predicate Run(s: State, actions: seq<Action>)
    decreases |actions|
  {
    actions == [] || (Enabled(s, actions[0]) && Run(Next(s, actions[0]), actions[1..]))
  }

  function Last(s: State, actions: seq<Action>): State
    requires Run(s, actions)
    decreases |actions|
  {
    if actions == [] then s else Last(Next(s, actions[0]), actions[1..])
  }
}
