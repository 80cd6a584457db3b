/** The world reduction: producer counters, writer accounting and the overall verdict. */
module WorldReduction {
  import opened Values
  import opened Rows
  import opened Sorting
  import opened WorldEvents
  import opened WorldGaps

  // ---- producer counters ------------------------------------------------------

  function CountOf(c: Row): Option<int> {
    Integer(Field(c, "events_produced"))
  }

  predicate GoodCount(c: Row) {
    RuntimeOf(c) != "" && CountOf(c).Some? && CountOf(c).value >= 0
  }

  /** The counter values of one runtime, as recorded. */
  function ValuesOf(counts: seq<Row>, runtime: string): seq<int> {
    if counts == [] then []
    else
      var c := counts[|counts| - 1];
      ValuesOf(counts[..|counts| - 1], runtime) + if GoodCount(c) && RuntimeOf(c) == runtime then [GoodValue(c)] else []
  }

  function CountRuntimes(counts: seq<Row>): seq<string> {
    if counts == [] then []
    else
      var c := counts[|counts| - 1];
      var rest := CountRuntimes(counts[..|counts| - 1]);
      if GoodCount(c) && RuntimeOf(c) !in rest then rest + [RuntimeOf(c)] else rest
  }

  function BadCounts(counts: seq<Row>): seq<Problem> {
    if counts == [] then []
    else BadCounts(counts[..|counts| - 1]) + if GoodCount(counts[|counts| - 1]) then [] else [CounterIdentityMissing]
  }

  datatype Counters = Counters(runtimes: seq<string>, values: map<string, seq<int>>, problems: seq<Problem>)

  ghost predicate CountersOf(k: Counters, counts: seq<Row>) {
    && k.runtimes == CountRuntimes(counts) && k.problems == BadCounts(counts)
    && (forall r :: r in k.values <==> r in k.runtimes)
    && (forall r | r in k.values :: k.values[r] == ValuesOf(counts, r))
  }

  lemma ValuesStep(counts: seq<Row>, c: Row, runtime: string)
    ensures ValuesOf(counts + [c], runtime) ==
            ValuesOf(counts, runtime) + if GoodCount(c) && RuntimeOf(c) == runtime then [GoodValue(c)] else []
  {
    assert (counts + [c])[..|counts|] == counts;
  }

  lemma {:induction false} NoValues(counts: seq<Row>, runtime: string)
    ensures ValuesOf(counts, runtime) == [] <==> runtime !in CountRuntimes(counts)
  {
    hide GoodCount, RuntimeOf, CountOf;
    if counts != [] { NoValues(counts[..|counts| - 1], runtime); }
  }

  /** The counter loop of the reduction. */
  method GroupCounts(counts: seq<Row>) returns (k: Counters)
    ensures CountersOf(k, counts)
  {
    hide GoodCount, RuntimeOf, CountOf;
    var runtimes: seq<string>, problems: seq<Problem> := [], [];
    var values: map<string, seq<int>> := map[];
    for i := 0 to |counts|
      invariant CountersOf(Counters(runtimes, values, problems), counts[..i])
    {
      var c := counts[i];
      assert counts[..i + 1] == counts[..i] + [c];
      assert counts[..i + 1][..i] == counts[..i];
      forall r ensures ValuesOf(counts[..i + 1], r) ==
                       ValuesOf(counts[..i], r) + if GoodCount(c) && RuntimeOf(c) == r then [GoodValue(c)] else [] {
        ValuesStep(counts[..i], c, r);
      }
      var r := RuntimeOf(c);
      NoValues(counts[..i], r);
      if !GoodCount(c) {
        problems := problems + [CounterIdentityMissing];
        continue;
      }
      var value := GoodValue(c);
      if r in values {
        values := values[r := values[r] + [value]];
      } else {
        runtimes, values := runtimes + [r], values[r := [value]];
      }
    }
    assert counts[..|counts|] == counts;
    k := Counters(runtimes, values, problems);
  }

  function GoodValue(c: Row): (n: int)
    requires GoodCount(c)
    ensures CountOf(c).Some? && n == CountOf(c).value
  {
    CountOf(c).value
  }

  function Max(s: seq<int>): (m: int)
    requires s != []
    ensures m in s && forall x | x in s :: x <= m
  {
    var n := |s| - 1;
    assert forall x :: x in s <==> x in s[..n] || x == s[n];
    if n == 0 then s[0]
    else var rest := Max(s[..n]); if rest > s[n] then rest else s[n]
  }

  predicate Regresses(s: seq<int>) {
    exists i :: 0 < i < |s| && s[i] < s[i - 1]
  }

  function Regressions(k: Counters, runtimes: seq<string>): seq<Problem>
    requires forall r | r in runtimes :: r in k.values
  {
    if runtimes == [] then []
    else
      var n := |runtimes| - 1;
      Regressions(k, runtimes[..n]) + if Regresses(k.values[runtimes[n]]) then [CounterRegression(runtimes[n])] else []
  }

  // ---- writer accounting and demands ------------------------------------------

  datatype Accounts = Accounts(submitted: Option<int>, accepted: Option<int>, written: Option<int>, dropped: Option<int>)

  datatype Writer = Writer(events: Accounts, counts: Accounts, serializationErrors: Option<int>, writeErrors: Option<int>)

  datatype Demand = Demand(required: bool, kinds: seq<string>, transactions: Option<int>)

  function OrZero(o: Option<int>): int {
    if o.Some? then o.value else 0
  }

  function If(b: bool, p: Problem): seq<Problem> {
    if b then [p] else []
  }

  function ArtifactProblems(a: Accounts, n: nat, category: Category): seq<Problem> {
    If(a.written.Some? && a.written.value != n, ArtifactCountMismatch(category))
  }

  function WriterProblems(w: Writer, events: nat, counts: nat): seq<Problem> {
    ArtifactProblems(w.events, events, EventRecords) +
    If(OrZero(w.events.dropped) != 0, EvidenceDropped(EventRecords)) +
    If(OrZero(w.serializationErrors) + OrZero(w.writeErrors) != 0, WriterError) +
    ArtifactProblems(w.counts, counts, CountRecords) +
    If(OrZero(w.counts.dropped) != 0, EvidenceDropped(CountRecords))
  }

  predicate Reported(a: Accounts) {
    a.submitted.Some? && a.accepted.Some? && a.written.Some? && a.dropped.Some?
  }

  function AccountingProblems(a: Accounts, category: Category): seq<Problem> {
    If(Reported(a) && (a.submitted.value != a.accepted.value + a.dropped.value || a.accepted.value != a.written.value),
       AccountingMismatch(category))
  }

  function RequiredAccounting(w: Writer, events: nat, counts: nat): seq<Problem> {
    If(!Reported(w.events) || !Reported(w.counts), AccountingMissing) +
    ArtifactProblems(w.events, events, EventRecords) + ArtifactProblems(w.counts, counts, CountRecords) +
    AccountingProblems(w.events, EventRecords) + AccountingProblems(w.counts, CountRecords)
  }

  predicate KindSeen(events: seq<Row>, kind: string) {
    exists i :: 0 <= i < |events| && KindOf(events[i]) == kind
  }

  function MissingKinds(events: seq<Row>, kinds: seq<string>): seq<Problem> {
    if kinds == [] then []
    else MissingKinds(events, kinds[..|kinds| - 1]) + If(!KindSeen(events, kinds[|kinds| - 1]), RequiredEventMissing(kinds[|kinds| - 1]))
  }

  /** Runtimes named by events or counters. */
  function ProducerRuntimes(order: seq<Id>, k: Counters): seq<string> {
    Distinct(RuntimesOf(order) + k.runtimes)
  }

  function LastObserved(order: seq<Id>, runtime: string): Option<int> {
    var s := SequencesOf(order, runtime);
    if s == [] then None else Some(Max(s))
  }

  function Tails(order: seq<Id>, k: Counters, runtimes: seq<string>): seq<Problem>
    requires forall r | r in runtimes :: r in k.values && k.values[r] != []
  {
    if runtimes == [] then []
    else
      var r := runtimes[|runtimes| - 1];
      var last := LastObserved(order, r);
      Tails(order, k, runtimes[..|runtimes| - 1]) + If(last.Some? && last.value < Max(k.values[r]), TailMissing(r))
  }

  function Aheads(order: seq<Id>, k: Counters, runtimes: seq<string>): seq<Clash>
    requires forall r | r in runtimes :: r in k.values && k.values[r] != []
  {
    if runtimes == [] then []
    else
      var r := runtimes[|runtimes| - 1];
      var last := LastObserved(order, r);
      Aheads(order, k, runtimes[..|runtimes| - 1]) +
      if last.Some? && Max(k.values[r]) < last.value then [AheadOfProducer(r)] else []
  }

  function TransactionProblems(seen: nat, expected: Option<int>): seq<Problem> {
    if expected.None? || expected.value < 0 then [ExpectedTransactionsMissing]
    else If(seen < expected.value, TransactionMissing)
  }

  predicate Usable(k: Counters) {
    forall r | r in k.runtimes :: r in k.values && k.values[r] != []
  }

  function RequiredProblems(x: Index, k: Counters, events: seq<Row>, demand: Demand): seq<Problem>
    requires Usable(k)
  {
    If(demand.kinds == [], ExpectedKindsMissing) + MissingKinds(events, Distinct(demand.kinds)) +
    If(k.runtimes == [], CountWitnessMissing) +
    If(|ProducerRuntimes(x.order, k)| != 1, RuntimeChanged) +
    Tails(x.order, k, k.runtimes) +
    TransactionProblems(|x.transactions|, demand.transactions)
  }

  function GapProblems(gs: seq<Gap>): seq<Problem> {
    seq(|gs|, i requires 0 <= i < |gs| => SequenceGap(gs[i]))
  }

  // ---- the verdict ------------------------------------------------------------

  datatype Verdict = Conflicting | Incomplete | Resolved

  datatype World = World(
    status: Verdict, clashes: seq<Clash>, problems: seq<Problem>, gaps: seq<Gap>, transactions: map<string, Transaction>)

  function Judge(x: Index, k: Counters, events: seq<Row>, counts: seq<Row>, w: Writer, demand: Demand): World
    requires Usable(k)
  {
    var gaps := SequenceGaps(x.order);
    var clashes := x.clashes + if demand.required then Aheads(x.order, k, k.runtimes) else [];
    var problems :=
      x.problems + k.problems + Regressions(k, k.runtimes) + GapProblems(gaps) + WriterProblems(w, |events|, |counts|) +
      if demand.required then RequiredProblems(x, k, events, demand) + RequiredAccounting(w, |events|, |counts|) else [];
    World(if clashes != [] then Conflicting else if demand.required && problems != [] then Incomplete else Resolved,
          clashes, problems, gaps, x.transactions)
  }

  lemma CountersAreUsable(k: Counters, counts: seq<Row>)
    requires CountersOf(k, counts)
    ensures Usable(k)
  {
    hide CountRuntimes, ValuesOf;
    forall r | r in k.runtimes ensures r in k.values && k.values[r] != [] {
      NoValues(counts, r);
    }
  }

  /** Reduces world events and producer counters to a verdict. */
  method ReduceWorldTransactions(events: seq<Row>, counts: seq<Row>, w: Writer, demand: Demand) returns (r: World)
    ensures exists k :: CountersOf(k, counts) && Usable(k) && r == Judge(IndexOf(events), k, events, counts, w, demand)
    ensures demand.required ==> (r.status.Resolved? <==> Witnessed(events, counts, w, demand))
  {
    hide CountersOf, IndexOf, Judge, Usable, Witnessed;
    var x := IndexEvents(events);
    var k := GroupCounts(counts);
    CountersAreUsable(k, counts);
    r := Judge(x, k, events, counts, w, demand);
    if demand.required {
      RequiredResolvedExactly(events, counts, w, demand, k);
    }
  }

  // ---- when a required reduction is resolved ----------------------------------

  /** One producer runtime: its observed sequences are the run lo to hi, its counters never
      go back and end at hi. */
  ghost predicate OneRun(events: seq<Row>, counts: seq<Row>, runtime: string, lo: int, hi: int) {
    && (forall e | e in events :: RuntimeOf(e) == runtime)
    && lo <= hi && (forall n :: Observed(events, Id(runtime, n)) <==> lo <= n <= hi)
    && counts != [] && (forall c | c in counts :: GoodCount(c) && RuntimeOf(c) == runtime)
    && (forall i :: 0 < i < |counts| ==> OrZero(CountOf(counts[i - 1])) <= OrZero(CountOf(counts[i])))
    && CountOf(counts[|counts| - 1]) == Some(hi)
  }

  ghost predicate SomeRun(events: seq<Row>, counts: seq<Row>) {
    exists runtime, lo, hi :: OneRun(events, counts, runtime, lo, hi)
  }

  predicate Balanced(a: Accounts, n: nat) {
    a == Accounts(Some(n), Some(n), Some(n), Some(0))
  }

  /** What a required reduction asks of the evidence. */
  ghost predicate Witnessed(events: seq<Row>, counts: seq<Row>, w: Writer, demand: Demand) {
    && (forall e | e in events :: Whole(e)) && Agreeing(events)
    && demand.kinds != [] && (forall kind | kind in demand.kinds :: KindSeen(events, kind))
    && SomeRun(events, counts)
    && demand.transactions.Some? && 0 <= demand.transactions.value <= |KeysOf(events)|
    && Balanced(w.events, |events|) && Balanced(w.counts, |counts|)
    && OrZero(w.serializationErrors) + OrZero(w.writeErrors) == 0
  }

  lemma AccountingExactly(w: Writer, events: nat, counts: nat)
    ensures WriterProblems(w, events, counts) == [] && RequiredAccounting(w, events, counts) == [] <==>
            Balanced(w.events, events) && Balanced(w.counts, counts) && OrZero(w.serializationErrors) + OrZero(w.writeErrors) == 0
  {
  }

  lemma {:induction false} MissingKindsExactly(events: seq<Row>, kinds: seq<string>)
    ensures MissingKinds(events, kinds) == [] <==> forall kind | kind in kinds :: KindSeen(events, kind)
  {
    hide KindSeen;
    if kinds != [] {
      var n := |kinds| - 1;
      MissingKindsExactly(events, kinds[..n]);
      assert forall kind :: kind in kinds <==> kind in kinds[..n] || kind == kinds[n];
    }
  }

  lemma {:induction false} RegressionsExactly(k: Counters, runtimes: seq<string>)
    requires forall r | r in runtimes :: r in k.values
    ensures Regressions(k, runtimes) == [] <==> forall r | r in runtimes :: !Regresses(k.values[r])
  {
    hide Regresses;
    if runtimes != [] {
      var n := |runtimes| - 1;
      assert forall r :: r in runtimes <==> r in runtimes[..n] || r == runtimes[n];
      RegressionsExactly(k, runtimes[..n]);
    }
  }

  /** Counter and last observed sequence agree, when both exist. */
  ghost predicate Meets(order: seq<Id>, k: Counters, r: string)
    requires r in k.values && k.values[r] != []
  {
    LastObserved(order, r).Some? ==> LastObserved(order, r).value == Max(k.values[r])
  }

  /** The counter is ahead of the last observed sequence, or behind it. */
  ghost predicate Short(order: seq<Id>, k: Counters, r: string)
    requires r in k.values && k.values[r] != []
  {
    LastObserved(order, r).Some? && LastObserved(order, r).value < Max(k.values[r])
  }

  ghost predicate Ahead(order: seq<Id>, k: Counters, r: string)
    requires r in k.values && k.values[r] != []
  {
    LastObserved(order, r).Some? && Max(k.values[r]) < LastObserved(order, r).value
  }

  lemma {:induction false} NoTails(order: seq<Id>, k: Counters, runtimes: seq<string>)
    requires forall r | r in runtimes :: r in k.values && k.values[r] != []
    ensures Tails(order, k, runtimes) == [] <==> forall r | r in runtimes :: !Short(order, k, r)
  {
    hide LastObserved, Max;
    if runtimes != [] {
      var n := |runtimes| - 1;
      assert forall r :: r in runtimes <==> r in runtimes[..n] || r == runtimes[n];
      NoTails(order, k, runtimes[..n]);
      assert Tails(order, k, runtimes) == Tails(order, k, runtimes[..n]) + If(Short(order, k, runtimes[n]), TailMissing(runtimes[n]));
    }
  }

  lemma {:induction false} NoAheads(order: seq<Id>, k: Counters, runtimes: seq<string>)
    requires forall r | r in runtimes :: r in k.values && k.values[r] != []
    ensures Aheads(order, k, runtimes) == [] <==> forall r | r in runtimes :: !Ahead(order, k, r)
  {
    hide LastObserved, Max;
    if runtimes != [] {
      var n := |runtimes| - 1;
      assert forall r :: r in runtimes <==> r in runtimes[..n] || r == runtimes[n];
      NoAheads(order, k, runtimes[..n]);
      assert Aheads(order, k, runtimes) == Aheads(order, k, runtimes[..n]) + if Ahead(order, k, runtimes[n]) then [AheadOfProducer(runtimes[n])] else [];
    }
  }

  lemma TailsExactly(order: seq<Id>, k: Counters, runtimes: seq<string>)
    requires forall r | r in runtimes :: r in k.values && k.values[r] != []
    ensures Tails(order, k, runtimes) == [] && Aheads(order, k, runtimes) == [] <==> forall r | r in runtimes :: Meets(order, k, r)
  {
    hide LastObserved, Max, Tails, Aheads;
    NoTails(order, k, runtimes);
    NoAheads(order, k, runtimes);
    forall r | r in runtimes ensures Meets(order, k, r) <==> !Short(order, k, r) && !Ahead(order, k, r) {
    }
  }

  lemma {:induction false} BadCountsExactly(counts: seq<Row>)
    ensures BadCounts(counts) == [] <==> forall c | c in counts :: GoodCount(c)
  {
    hide GoodCount;
    if counts != [] {
      var n := |counts| - 1;
      assert forall c :: c in counts <==> c in counts[..n] || c == counts[n];
      BadCountsExactly(counts[..n]);
    }
  }

  lemma {:induction false} CountRuntimesExactly(counts: seq<Row>, r: string)
    ensures r in CountRuntimes(counts) <==> exists c | c in counts :: GoodCount(c) && RuntimeOf(c) == r
  {
    hide GoodCount, RuntimeOf;
    if counts != [] {
      var n := |counts| - 1;
      assert forall c :: c in counts <==> c in counts[..n] || c == counts[n];
      CountRuntimesExactly(counts[..n], r);
    }
  }

  lemma {:induction false} AllValues(counts: seq<Row>, r: string)
    requires forall c | c in counts :: GoodCount(c) && RuntimeOf(c) == r
    ensures |ValuesOf(counts, r)| == |counts| && forall i :: 0 <= i < |counts| ==> CountOf(counts[i]) == Some(ValuesOf(counts, r)[i])
  {
    hide RuntimeOf, CountOf;
    if counts != [] {
      var n := |counts| - 1;
      assert forall c :: c in counts <==> c in counts[..n] || c == counts[n];
      AllValues(counts[..n], r);
      var last := GoodValue(counts[n]);
    }
  }

  lemma PrefixRegresses(s: seq<int>)
    requires s != [] && Regresses(s[..|s| - 1])
    ensures Regresses(s)
  {
    var i :| 0 < i < |s| - 1 && s[..|s| - 1][i] < s[..|s| - 1][i - 1];
    assert s[i] < s[i - 1];
  }

  lemma LastNotBelow(s: seq<int>)
    requires |s| >= 2 && !Regresses(s)
    ensures s[|s| - 2] <= s[|s| - 1]
  {
  }

  lemma {:induction false} SteadyMax(s: seq<int>)
    requires s != [] && !Regresses(s)
    ensures Max(s) == s[|s| - 1]
  {
    var n := |s| - 1;
    if n > 0 {
      LastNotBelow(s);
      hide Regresses;
      if Regresses(s[..n]) { PrefixRegresses(s); }
      SteadyMax(s[..n]);
    }
  }

  // ---- one run ----------------------------------------------------------------

  /** The checks that concern sequence numbers and counters. */
  ghost predicate RunChecks(x: Index, k: Counters)
    requires Usable(k)
  {
    && k.problems == [] && (forall r | r in k.runtimes :: !Regresses(k.values[r]))
    && (forall r, t :: !Missing(x.order, r, t))
    && k.runtimes != [] && |ProducerRuntimes(x.order, k)| == 1
    && (forall r | r in k.runtimes :: Meets(x.order, k, r))
  }

  lemma OrderIsObserved(x: Index, events: seq<Row>, id: Id)
    requires Faithful(x, events)
    ensures id in x.order <==> Observed(events, id)
  {
    hide Observed, Attested, NoRepeat;
  }

  lemma EventIsObserved(events: seq<Row>, e: Row)
    requires e in events && Whole(e)
    ensures Observed(events, Id(RuntimeOf(e), SequenceOf(e).value))
  {
    hide RuntimeOf, SequenceOf, EventProblems, KeyOf, WorldEvents.KindOf;
    assert IdOf(e) == Id(RuntimeOf(e), SequenceOf(e).value);
  }

  lemma RuntimeIn(order: seq<Id>, k: Counters, r: string)
    ensures r in ProducerRuntimes(order, k) <==> (exists n :: Id(r, n) in order) || r in k.runtimes
  {
    hide RuntimesOf, Distinct;
    var all := RuntimesOf(order) + k.runtimes;
    assert r in all <==> r in RuntimesOf(order) || r in k.runtimes;
  }

  lemma Single(s: seq<string>, r: string)
    requires NoRepeat(s)
    ensures |s| == 1 && s[0] == r <==> r in s && forall x | x in s :: x == r
  {
    assert |s| >= 2 ==> s[0] in s && s[1] in s && s[0] != s[1];
    assert |s| >= 1 ==> s[0] in s;
  }

  lemma OneRuntime(order: seq<Id>, k: Counters, r: string)
    ensures ProducerRuntimes(order, k) == [r] <==>
            ((exists n :: Id(r, n) in order) || r in k.runtimes) &&
            (forall id | id in order :: id.runtime == r) && (forall q | q in k.runtimes :: q == r)
  {
    var s := ProducerRuntimes(order, k);
    forall q ensures q in s <==> (exists n :: Id(q, n) in order) || q in k.runtimes {
      RuntimeIn(order, k, q);
    }
    Single(s, r);
    hide ProducerRuntimes;
    forall id | id in order ensures id.runtime in s {
      assert Id(id.runtime, id.sequence) in order;
    }
  }

  lemma LastIsMax(order: seq<Id>, r: string, n: int)
    requires Id(r, n) in order
    ensures LastObserved(order, r).Some? && n <= LastObserved(order, r).value && Id(r, LastObserved(order, r).value) in order
  {
    assert n in SequencesOf(order, r);
    hide SequencesOf;
  }

  lemma LeastObserved(order: seq<Id>, r: string, n: int) returns (lo: int)
    requires Id(r, n) in order
    ensures Id(r, lo) in order && forall m | Id(r, m) in order :: lo <= m
  {
    var s := Sorted(SequencesOf(order, r));
    assert n in s;
    lo := s[0];
    assert lo in s;
    forall m | Id(r, m) in order ensures lo <= m {
      assert m in s;
    }
  }

  /** The observed sequences of a runtime without gaps fill their range. */
  lemma Filled(order: seq<Id>, r: string, lo: int, hi: int)
    requires forall t :: !Missing(order, r, t)
    requires Id(r, lo) in order && Id(r, hi) in order
    requires forall m | Id(r, m) in order :: lo <= m <= hi
    ensures forall n :: Id(r, n) in order <==> lo <= n <= hi
  {
    forall n | lo <= n <= hi ensures Id(r, n) in order {
      assert !Missing(order, r, n);
    }
  }

  lemma OrderOfRun(x: Index, events: seq<Row>)
    requires Faithful(x, events) && events != [] && forall e | e in events :: Whole(e)
    ensures forall e | e in events :: SequenceOf(e).Some? && Id(RuntimeOf(e), SequenceOf(e).value) in x.order
    ensures forall id | id in x.order :: exists e | e in events :: RuntimeOf(e) == id.runtime
  {
    hide RuntimeOf, SequenceOf, KeyOf, WorldEvents.KindOf, EventProblems, Faithful;
    forall e | e in events ensures SequenceOf(e).Some? && Id(RuntimeOf(e), SequenceOf(e).value) in x.order {
      EventIsObserved(events, e);
      OrderIsObserved(x, events, Id(RuntimeOf(e), SequenceOf(e).value));
    }
    forall id | id in x.order ensures exists e | e in events :: RuntimeOf(e) == id.runtime {
      OrderIsObserved(x, events, id);
    }
  }

  lemma CountsOfRun(k: Counters, counts: seq<Row>, r: string)
    requires CountersOf(k, counts) && Usable(k)
    ensures k.problems == [] && k.runtimes != [] && (forall q | q in k.runtimes :: q == r) <==>
            counts != [] && forall c | c in counts :: GoodCount(c) && RuntimeOf(c) == r
  {
    hide GoodCount, RuntimeOf, CountRuntimes, BadCounts, ValuesOf;
    BadCountsExactly(counts);
    forall q ensures q in k.runtimes <==> exists c | c in counts :: GoodCount(c) && RuntimeOf(c) == q {
      CountRuntimesExactly(counts, q);
    }
    forall c | c in counts && GoodCount(c) ensures RuntimeOf(c) in k.runtimes {
    }
    if counts != [] {
      assert counts[0] in counts;
    }
    if k.runtimes != [] {
      assert k.runtimes[0] in k.runtimes;
    }
  }

  predicate Steady(counts: seq<Row>) {
    forall i :: 0 < i < |counts| ==> OrZero(CountOf(counts[i - 1])) <= OrZero(CountOf(counts[i]))
  }

  lemma ValuesOfRun(k: Counters, counts: seq<Row>, r: string)
    requires CountersOf(k, counts) && counts != [] && forall c | c in counts :: GoodCount(c) && RuntimeOf(c) == r
    ensures r in k.values && k.values[r] != [] && (Regresses(k.values[r]) <==> !Steady(counts))
    ensures Steady(counts) ==> CountOf(counts[|counts| - 1]) == Some(Max(k.values[r]))
  {
    hide RuntimeOf, CountOf, GoodCount, BadCounts, CountRuntimes;
    AllValues(counts, r);
    assert counts[0] in counts;
    CountRuntimesExactly(counts, r);
    var s := k.values[r];
    assert s == ValuesOf(counts, r);
    hide ValuesOf, Max;
    assert forall i :: 0 <= i < |s| ==> OrZero(CountOf(counts[i])) == s[i];
    if !Regresses(s) {
      SteadyMax(s);
    }
  }

  /** The bounds of the observed run. */
  lemma RunBounds(x: Index, k: Counters, r: string, n: int) returns (lo: int, hi: int)
    requires Usable(k) && r in k.runtimes && Id(r, n) in x.order && Meets(x.order, k, r) && forall t :: !Missing(x.order, r, t)
    ensures lo <= hi == Max(k.values[r]) && forall m :: Id(r, m) in x.order <==> lo <= m <= hi
  {
    hide LastObserved, Max, Missing;
    LastIsMax(x.order, r, n);
    hi := LastObserved(x.order, r).value;
    lo := LeastObserved(x.order, r, n);
    forall m | Id(r, m) in x.order ensures lo <= m <= hi { LastIsMax(x.order, r, m); }
    Filled(x.order, r, lo, hi);
  }

  lemma ChecksGiveRun(x: Index, k: Counters, events: seq<Row>, counts: seq<Row>)
    requires CountersOf(k, counts) && Usable(k) && Faithful(x, events) && events != [] && forall e | e in events :: Whole(e)
    requires RunChecks(x, k)
    ensures SomeRun(events, counts)
  {
    hide CountersOf, Faithful, Whole, Regresses, ProducerRuntimes, RuntimeOf, GoodCount, Steady, Meets, Max, Missing, Observed, CountOf, OneRun;
    OrderOfRun(x, events);
    var r := ProducerRuntimes(x.order, k)[0];
    assert ProducerRuntimes(x.order, k) == [r];
    OneRuntime(x.order, k, r);
    assert k.runtimes[0] in k.runtimes;
    CountsOfRun(k, counts, r);
    ValuesOfRun(k, counts, r);
    var e := events[0];
    assert e in events;
    var lo, hi := RunBounds(x, k, r, SequenceOf(e).value);
    forall m ensures Observed(events, Id(r, m)) <==> lo <= m <= hi { OrderIsObserved(x, events, Id(r, m)); }
    RunIsOne(events, counts, r, lo, hi);
  }

  lemma RunIsOne(events: seq<Row>, counts: seq<Row>, r: string, lo: int, hi: int)
    requires forall e | e in events :: RuntimeOf(e) == r
    requires lo <= hi && forall n :: Observed(events, Id(r, n)) <==> lo <= n <= hi
    requires counts != [] && forall c | c in counts :: GoodCount(c) && RuntimeOf(c) == r
    requires Steady(counts) && CountOf(counts[|counts| - 1]) == Some(hi)
    ensures OneRun(events, counts, r, lo, hi)
  {
    hide RuntimeOf, GoodCount, Observed, CountOf;
  }

  /** What a run says about the indexed identities. */
  lemma RunOrder(x: Index, events: seq<Row>, counts: seq<Row>, r: string, lo: int, hi: int)
    requires Faithful(x, events) && events != [] && forall e | e in events :: Whole(e)
    requires OneRun(events, counts, r, lo, hi)
    ensures (forall id | id in x.order :: id.runtime == r) && (forall m :: Id(r, m) in x.order <==> lo <= m <= hi) && lo <= hi
  {
    hide Faithful, Whole, RuntimeOf, GoodCount, Observed, CountOf;
    OrderOfRun(x, events);
    forall m ensures Id(r, m) in x.order <==> lo <= m <= hi { OrderIsObserved(x, events, Id(r, m)); }
  }

  /** What a run says about the grouped counters. */
  lemma RunCounts(k: Counters, events: seq<Row>, counts: seq<Row>, r: string, lo: int, hi: int)
    requires CountersOf(k, counts) && Usable(k) && OneRun(events, counts, r, lo, hi)
    ensures k.problems == [] && k.runtimes != [] && (forall q | q in k.runtimes :: q == r)
    ensures r in k.values && k.values[r] != [] && !Regresses(k.values[r]) && Max(k.values[r]) == hi
  {
    hide CountersOf, Usable, Regresses, RuntimeOf, GoodCount, Max, Observed, CountOf;
    CountsOfRun(k, counts, r);
    ValuesOfRun(k, counts, r);
  }

  lemma RunGivesChecks(x: Index, k: Counters, events: seq<Row>, counts: seq<Row>, r: string, lo: int, hi: int)
    requires CountersOf(k, counts) && Usable(k) && Faithful(x, events) && events != [] && forall e | e in events :: Whole(e)
    requires OneRun(events, counts, r, lo, hi)
    ensures RunChecks(x, k)
  {
    hide CountersOf, Faithful, Whole, Regresses, ProducerRuntimes, LastObserved, Max, OneRun, Missing;
    RunOrder(x, events, counts, r, lo, hi);
    RunCounts(k, events, counts, r, lo, hi);
    OneRuntime(x.order, k, r);
    assert k.runtimes[0] in k.runtimes;
    LastIsMax(x.order, r, hi);
    NothingMissing(x.order, r, lo, hi);
  }

  lemma NothingMissing(order: seq<Id>, r: string, lo: int, hi: int)
    requires (forall id | id in order :: id.runtime == r) && (forall m :: Id(r, m) in order <==> lo <= m <= hi)
    ensures forall q, t :: !Missing(order, q, t)
  {
    forall q, t ensures !Missing(order, q, t) {
      assert forall a :: Id(q, a) in order ==> Id(q, a).runtime == r;
    }
  }

  lemma RunChecksExactly(x: Index, k: Counters, events: seq<Row>, counts: seq<Row>)
    requires CountersOf(k, counts) && Usable(k) && Faithful(x, events) && events != [] && forall e | e in events :: Whole(e)
    ensures RunChecks(x, k) <==> SomeRun(events, counts)
  {
    hide CountersOf, Usable, Faithful, Whole, RunChecks, OneRun;
    if RunChecks(x, k) {
      ChecksGiveRun(x, k, events, counts);
    }
    if SomeRun(events, counts) {
      var r, lo, hi :| OneRun(events, counts, r, lo, hi);
      RunGivesChecks(x, k, events, counts, r, lo, hi);
    }
  }

  // ---- putting the verdict together -------------------------------------------

  lemma JudgedResolved(x: Index, k: Counters, events: seq<Row>, counts: seq<Row>, w: Writer, demand: Demand)
    requires Usable(k) && demand.required
    ensures Judge(x, k, events, counts, w, demand).status.Resolved? <==>
            && x.clashes == [] && x.problems == []
            && demand.kinds != [] && MissingKinds(events, Distinct(demand.kinds)) == []
            && TransactionProblems(|x.transactions|, demand.transactions) == []
            && RunChecks(x, k)
            && WriterProblems(w, |events|, |counts|) == [] && RequiredAccounting(w, |events|, |counts|) == []
  {
    hide MissingKinds, Distinct, TransactionProblems, WriterProblems, RequiredAccounting, Missing, Regresses, SequenceGaps,
         ProducerRuntimes, Meets, Regressions, Tails, Aheads;
    RegressionsExactly(k, k.runtimes);
    TailsExactly(x.order, k, k.runtimes);
    NoGapsExactly(x.order);
  }

  lemma SeenKindNeedsEvent(events: seq<Row>, kinds: seq<string>)
    requires kinds != [] && forall kind | kind in kinds :: KindSeen(events, kind)
    ensures events != []
  {
    assert kinds[0] in kinds;
  }

  /** A required reduction is RESOLVED exactly when every event is whole and consistent, one
      producer runtime accounts for one contiguous run of sequences that ends at its last
      counter, the demanded kinds and transactions are there, and the writer's books for
      events and counters are balanced without loss. */
  lemma RequiredResolvedExactly(events: seq<Row>, counts: seq<Row>, w: Writer, demand: Demand, k: Counters)
    requires CountersOf(k, counts) && Usable(k) && demand.required
    ensures Judge(IndexOf(events), k, events, counts, w, demand).status.Resolved? <==> Witnessed(events, counts, w, demand)
  {
    hide CountersOf, Usable, Judge, IndexOf, RunChecks, Faithful, Agreeing, Whole, KindSeen, MissingKinds, Distinct, SomeRun,
         WriterProblems, RequiredAccounting, KeysOf;
    var x := IndexOf(events);
    JudgedResolved(x, k, events, counts, w, demand);
    ClashesExactly(events);
    ProblemsExactly(events);
    IndexIsFaithful(events);
    MissingKindsExactly(events, Distinct(demand.kinds));
    AccountingExactly(w, |events|, |counts|);
    if Agreeing(events) {
      TransactionsExactly(events);
      KeyCount(x.transactions);
    }
    if demand.kinds != [] && (forall kind | kind in demand.kinds :: KindSeen(events, kind)) && forall e | e in events :: Whole(e) {
      SeenKindNeedsEvent(events, demand.kinds);
      RunChecksExactly(x, k, events, counts);
    }
  }

  lemma KeyCount(txs: map<string, Transaction>)
    ensures |txs| == |txs.Keys|
  {
  }
}
