/** Reference heartbeats: repeated command rows at one source tick are collapsed before the
    strict source-time validator sees them. */
module Heartbeats {
  import opened Values
  import opened Rows

  const IGNORED: set<string> := {
    "sample_id", "trajectory_id", "execution_authorization_steady_ns", "arrival_wall_ns",
    "arrival_steady_ns", "record_sequence", "record_sim_time_ns", "observer_record_steady_ns"
  }

  /** The rows agree on every field that belongs to the executable reference. */
  predicate SameHeartbeat(a: Row, b: Row) {
    && (forall f | f in a && f !in IGNORED :: f in b && Canon(a[f]) == Canon(b[f]))
    && (forall f | f in b && f !in IGNORED :: f in a)
  }

  predicate SameTick(a: Row, b: Row) {
    Field(a, "source_stamp_ns") == Field(b, "source_stamp_ns") && Field(a, "localization_epoch") == Field(b, "localization_epoch")
  }

  /** A later sample of the same reference. */
  predicate Repeats(row: Row, previous: Row) {
    var before, now := Integer(Field(previous, "sample_id")), Integer(Field(row, "sample_id"));
    before.Some? && now.Some? && now.value > before.value && SameHeartbeat(row, previous)
  }

  datatype Collapsed = Collapsed(rows: seq<Row>, dropped: nat, conflict: bool)

  function Absorb(c: Collapsed, row: Row): Collapsed {
    if c.rows == [] then c.(rows := [row])
    else
      var n := |c.rows| - 1;
      if !SameTick(row, c.rows[n]) then c.(rows := c.rows + [row])
      else if !Repeats(row, c.rows[n]) then c.(rows := c.rows + [row], conflict := true)
      else c.(rows := c.rows[..n] + [row], dropped := c.dropped + 1)
  }

  function Collapse(rows: seq<Row>): Collapsed {
    if rows == [] then Collapsed([], 0, false) else Absorb(Collapse(rows[..|rows| - 1]), rows[|rows| - 1])
  }

  method CanonicalReferenceHeartbeats(rows: seq<Row>) returns (canonical: seq<Row>, collapsed: nat, conflict: bool)
    ensures Collapsed(canonical, collapsed, conflict) == Collapse(rows)
    ensures |canonical| + collapsed == |rows|
  {
    canonical, collapsed, conflict := [], 0, false;
    for i := 0 to |rows|
      invariant Collapsed(canonical, collapsed, conflict) == Collapse(rows[..i])
    {
      var row := rows[i];
      assert rows[..i + 1] == rows[..i] + [row];
      if canonical == [] {
        canonical := canonical + [row];
      } else {
        var previous := canonical[|canonical| - 1];
        if !SameTick(row, previous) {
          canonical := canonical + [row];
        } else if !Repeats(row, previous) {
          conflict := true;
          canonical := canonical + [row];
        } else {
          collapsed := collapsed + 1;
          canonical := canonical[..|canonical| - 1] + [row];
        }
      }
    }
    assert rows[..|rows|] == rows;
    RowsConserved(rows);
  }

  // ---- what is kept -----------------------------------------------------------

  lemma {:induction false} RowsConserved(rows: seq<Row>)
    ensures |Collapse(rows).rows| + Collapse(rows).dropped == |rows|
    ensures rows != [] ==> Collapse(rows).rows != []
  {
    hide SameTick, Repeats;
    if rows != [] {
      RowsConserved(rows[..|rows| - 1]);
    }
  }

  /** The positions of the canonical rows in the raw list. */
  ghost function Kept(rows: seq<Row>): seq<nat> {
    if rows == [] then []
    else
      var n := |rows| - 1;
      var c := Collapse(rows[..n]);
      var kept := Kept(rows[..n]);
      Moved(kept, n, Collapse(rows).dropped > c.dropped)
  }

  /** Position n joins the kept ones, in place of the last one when that is merged. */
  ghost function Moved(kept: seq<nat>, n: nat, merged: bool): seq<nat> {
    if merged && kept != [] then kept[..|kept| - 1] + [n] else kept + [n]
  }

  lemma MovedPositions(kept: seq<nat>, n: nat, merged: bool)
    requires Positions(kept, n)
    ensures Positions(Moved(kept, n, merged), n + 1)
  {
  }

  lemma AbsorbedPicks(c: Collapsed, front: seq<Row>, row: Row, kept: seq<nat>)
    requires Picks(c.rows, front, kept)
    ensures Picks(Absorb(c, row).rows, front + [row], Moved(kept, |front|, Absorb(c, row).dropped > c.dropped))
  {
    hide SameTick, Repeats;
  }

  ghost predicate Positions(kept: seq<nat>, n: nat) {
    && (forall j, k :: 0 <= j < k < |kept| ==> kept[j] < kept[k])
    && (forall j :: 0 <= j < |kept| ==> kept[j] < n)
    && (n > 0 ==> kept != [] && kept[|kept| - 1] == n - 1)
  }

  ghost predicate Picks(xs: seq<Row>, rows: seq<Row>, kept: seq<nat>) {
    |xs| == |kept| && forall j :: 0 <= j < |kept| ==> kept[j] < |rows| && xs[j] == rows[kept[j]]
  }

  lemma NothingKept()
    ensures Kept([]) == [] && Collapse([]).rows == []
  {
  }

  lemma OneRowMore(rows: seq<Row>)
    requires rows != []
    ensures var n := |rows| - 1;
            var c := Collapse(rows[..n]);
            && Collapse(rows) == Absorb(c, rows[n])
            && Kept(rows) == Moved(Kept(rows[..n]), n, Collapse(rows).dropped > c.dropped)
  {
    hide Absorb, Moved;
  }

  /** The canonical rows are a subsequence of the raw rows that ends with the last row. */
  lemma {:induction false} CanonicalIsSubsequence(rows: seq<Row>)
    ensures Positions(Kept(rows), |rows|) && Picks(Collapse(rows).rows, rows, Kept(rows))
  {
    hide Moved, Absorb, Collapse, Kept;
    if rows == [] {
      NothingKept();
    } else {
      var n := |rows| - 1;
      hide Positions, Picks;
      CanonicalIsSubsequence(rows[..n]);
      OneRowMore(rows);
      var c := Collapse(rows[..n]);
      MovedPositions(Kept(rows[..n]), n, Collapse(rows).dropped > c.dropped);
      AbsorbedPicks(c, rows[..n], rows[n], Kept(rows[..n]));
      assert rows == rows[..n] + [rows[n]];
    }
  }

  /** Row i belongs to the run that canonical row j closes. */
  ghost predicate Stands(rows: seq<Row>, kept: seq<nat>, i: nat, j: nat)
    requires i < |rows|
  {
    && j < |kept| && kept[j] < |rows|
    && (j > 0 ==> kept[j - 1] < i) && i <= kept[j]
    && SameTick(rows[i], rows[kept[j]]) && SameHeartbeat(rows[i], rows[kept[j]])
  }

  lemma SameRowIsItself(a: Row)
    ensures SameTick(a, a) && SameHeartbeat(a, a)
  {
  }

  lemma Chained(a: Row, b: Row, c: Row)
    requires SameTick(a, b) && SameHeartbeat(a, b) && SameTick(c, b) && Repeats(c, b)
    ensures SameTick(a, c) && SameHeartbeat(a, c)
  {
  }

  /** How the kept positions grow by one row. */
  lemma KeptStep(rows: seq<Row>)
    requires |rows| >= 2
    ensures var n := |rows| - 1;
            Kept(rows) == Moved(Kept(rows[..n]), n, SameTick(rows[n], rows[n - 1]) && Repeats(rows[n], rows[n - 1]))
  {
    hide SameTick, Repeats, Moved;
    var n := |rows| - 1;
    CanonicalIsSubsequence(rows[..n]);
  }

  lemma StandsOnEarlier(rows: seq<Row>, i: nat, j: nat)
    requires rows != [] && i < |rows| - 1 && Stands(rows[..|rows| - 1], Kept(rows[..|rows| - 1]), i, j)
    ensures Stands(rows, Kept(rows), i, j)
  {
    hide SameTick, SameHeartbeat, Repeats, Kept, Picks, Collapse;
    var n := |rows| - 1;
    var kept := Kept(rows[..n]);
    KeptStep(rows);
    CanonicalIsSubsequence(rows[..n]);
    assert rows[..n][kept[j]] == rows[kept[j]] && rows[..n][i] == rows[i];
    var merged := SameTick(rows[n], rows[n - 1]) && Repeats(rows[n], rows[n - 1]);
    StandsMoved(rows, kept, i, j, merged);
  }

  lemma StandsMoved(rows: seq<Row>, kept: seq<nat>, i: nat, j: nat, merged: bool)
    requires |rows| >= 2 && i < |rows| - 1 && Positions(kept, |rows| - 1) && Stands(rows, kept, i, j)
    requires merged ==> SameTick(rows[|rows| - 1], rows[|rows| - 2]) && Repeats(rows[|rows| - 1], rows[|rows| - 2])
    ensures Stands(rows, Moved(kept, |rows| - 1, merged), i, j)
  {
    hide SameTick, SameHeartbeat, Repeats;
    var n := |rows| - 1;
    if merged && j == |kept| - 1 {
      Chained(rows[i], rows[n - 1], rows[n]);
    }
  }

  /** Nothing executable is lost: every raw row stands in a run of rows of one tick and one
      reference that ends with a canonical row. */
  lemma {:induction false} EveryRowIsRepresented(rows: seq<Row>, i: nat)
    requires i < |rows|
    ensures exists j :: Stands(rows, Kept(rows), i, j)
    decreases |rows|
  {
    hide SameTick, SameHeartbeat, Repeats, Kept;
    var n := |rows| - 1;
    CanonicalIsSubsequence(rows);
    if i == n {
      SameRowIsItself(rows[n]);
      assert Stands(rows, Kept(rows), n, |Kept(rows)| - 1);
    } else {
      EveryRowIsRepresented(rows[..n], i);
      var j :| Stands(rows[..n], Kept(rows[..n]), i, j);
      StandsOnEarlier(rows, i, j);
    }
  }

  // ---- conflict and idempotence -----------------------------------------------

  ghost predicate TicksRepeat(rows: seq<Row>) {
    exists k :: 0 < k < |rows| && SameTick(rows[k], rows[k - 1])
  }

  lemma RepeatAppended(rows: seq<Row>, row: Row)
    ensures TicksRepeat(rows + [row]) <==> TicksRepeat(rows) || (rows != [] && SameTick(row, rows[|rows| - 1]))
  {
    hide SameTick;
    var all := rows + [row];
    if TicksRepeat(rows) {
      var k :| 0 < k < |rows| && SameTick(rows[k], rows[k - 1]);
      assert all[k] == rows[k] && all[k - 1] == rows[k - 1];
    }
    if rows != [] {
      assert all[|rows|] == row && all[|rows| - 1] == rows[|rows| - 1];
    }
  }

  lemma RepeatReplaced(rows: seq<Row>, row: Row)
    requires rows != [] && SameTick(row, rows[|rows| - 1])
    ensures TicksRepeat(rows[..|rows| - 1] + [row]) <==> TicksRepeat(rows)
  {
    var front := rows[..|rows| - 1];
    assert rows == front + [rows[|rows| - 1]];
    RepeatAppended(front, row);
    RepeatAppended(front, rows[|rows| - 1]);
  }

  /** A conflict is reported exactly when two neighbouring canonical rows share a tick. */
  lemma {:induction false} ConflictIsRepeatedTick(rows: seq<Row>)
    ensures Collapse(rows).conflict <==> TicksRepeat(Collapse(rows).rows)
  {
    hide SameTick, Repeats, TicksRepeat;
    if rows == [] {
      NoTicksInNothing([]);
    } else {
      var n := |rows| - 1;
      var c := Collapse(rows[..n]);
      ConflictIsRepeatedTick(rows[..n]);
      RepeatAppended(c.rows, rows[n]);
      if c.rows == [] {
        NoTicksInNothing(c.rows);
        assert Collapse(rows).rows == c.rows + [rows[n]];
      } else if SameTick(rows[n], c.rows[|c.rows| - 1]) {
        RepeatReplaced(c.rows, rows[n]);
      }
    }
  }

  lemma NoTicksInNothing(rows: seq<Row>)
    requires rows == []
    ensures !TicksRepeat(rows)
  {
  }

  lemma {:induction false} DistinctTicksStay(rows: seq<Row>)
    requires !TicksRepeat(rows)
    ensures Collapse(rows) == Collapsed(rows, 0, false)
  {
    hide SameTick, Repeats, TicksRepeat;
    if rows != [] {
      var n := |rows| - 1;
      assert rows == rows[..n] + [rows[n]];
      RepeatAppended(rows[..n], rows[n]);
      DistinctTicksStay(rows[..n]);
    }
  }

  /** Collapsing the canonical rows changes nothing, drops nothing and reports nothing exactly
      when the first collapse reported no conflict. */
  lemma CollapseIsIdempotent(rows: seq<Row>)
    ensures Collapse(Collapse(rows).rows) == Collapsed(Collapse(rows).rows, 0, false) <==> !Collapse(rows).conflict
  {
    hide Collapse, TicksRepeat;
    var c := Collapse(rows).rows;
    ConflictIsRepeatedTick(rows);
    ConflictIsRepeatedTick(c);
    if !Collapse(rows).conflict { DistinctTicksStay(c); }
  }

  function Sample(id: real): Row {
    map["sample_id" := Num(id), "source_stamp_ns" := Num(1.0)]
  }

  lemma SamplesShareATick(a: real, b: real)
    ensures SameTick(Sample(a), Sample(b)) && SameHeartbeat(Sample(a), Sample(b))
    ensures Integer(Field(Sample(a), "sample_id")) == Integer(Num(a))
  {
  }

  /** With a conflict it need not be: the samples 5, 3, 7 leave 5 and 7, which collapse. */
  lemma ConflictBreaksIdempotence()
    ensures var once := Collapse([Sample(5.0), Sample(3.0), Sample(7.0)]);
            once.conflict && once.rows == [Sample(5.0), Sample(7.0)] && Collapse(once.rows).rows == [Sample(7.0)]
  {
    SamplesShareATick(3.0, 5.0);
    SamplesShareATick(7.0, 3.0);
    SamplesShareATick(7.0, 5.0);
    SamplesShareATick(5.0, 7.0);
    hide SameTick, SameHeartbeat, Sample;
    var a, b, c := Sample(5.0), Sample(3.0), Sample(7.0);
    assert Collapse([a]) == Collapsed([a], 0, false) by { assert [a][..0] == []; }
    assert Collapse([a, b]) == Collapsed([a, b], 0, true) by { assert [a, b][..1] == [a]; }
    assert Collapse([a, b, c]) == Collapsed([a, c], 1, true) by { assert [a, b, c][..2] == [a, b]; }
    assert Collapse([a, c]) == Collapsed([c], 1, false) by { assert [a, c][..1] == [a]; }
  }

  // ---- exactly when collapsing again changes nothing --------------------------

  /** Row i repeats the row before it, so the two are collapsed. */
  ghost predicate Continues(rows: seq<Row>, i: int) {
    0 < i < |rows| && SameTick(rows[i], rows[i - 1]) && Repeats(rows[i], rows[i - 1])
  }

  /** Row i is the last of a run of repetitions. */
  ghost predicate RunEnds(rows: seq<Row>, i: int) {
    0 <= i < |rows| && !Continues(rows, i + 1)
  }

  lemma ContinuesInFront(rows: seq<Row>, i: int)
    requires rows != []
    ensures Continues(rows[..|rows| - 1], i) <==> Continues(rows, i) && i < |rows| - 1
  {
    hide SameTick, Repeats;
  }

  lemma RunEndsInFront(rows: seq<Row>, i: int)
    requires rows != []
    ensures RunEnds(rows, i) <==> i == |rows| - 1 || (RunEnds(rows[..|rows| - 1], i) && !(i == |rows| - 2 && Continues(rows, |rows| - 1)))
  {
    hide Continues;
    ContinuesInFront(rows, i + 1);
    NoneAfterLast(rows);
  }

  lemma NoneAfterLast(rows: seq<Row>)
    ensures !Continues(rows, |rows|)
  {
  }

  lemma MovedMembers(kept: seq<nat>, n: nat, merged: bool, i: nat)
    requires Positions(kept, n)
    ensures i in Moved(kept, n, merged) <==> i == n || (i in kept && !(merged && n > 0 && i == n - 1))
  {
    if merged && kept != [] {
      var front := kept[..|kept| - 1];
      assert kept == front + [n - 1];
      assert forall j :: 0 <= j < |front| ==> front[j] == kept[j] && front[j] < n - 1;
    }
  }

  /** The kept positions are the ends of the runs. */
  lemma {:induction false} KeptAreRunEnds(rows: seq<Row>, i: nat)
    ensures i in Kept(rows) <==> RunEnds(rows, i)
    decreases |rows|
  {
    hide SameTick, Repeats, RunEnds, Moved, Collapse, Kept;
    if |rows| < 2 {
      ShortRuns(rows, i);
    } else {
      var n := |rows| - 1;
      KeptAreRunEnds(rows[..n], i);
      CanonicalIsSubsequence(rows[..n]);
      KeptStep(rows);
      MovedMembers(Kept(rows[..n]), n, Continues(rows, n), i);
      RunEndsInFront(rows, i);
    }
  }

  lemma ShortRuns(rows: seq<Row>, i: nat)
    requires |rows| < 2
    ensures i in Kept(rows) <==> RunEnds(rows, i)
  {
    if rows != [] {
      assert rows[..0] == [];
    }
  }

  /** Two neighbouring runs whose last rows repeat each other, though their neighbouring
      rows do not. */
  ghost predicate Rejoins(rows: seq<Row>, i: int, j: int) {
    && RunEnds(rows, i) && i < j && RunEnds(rows, j) && (forall m | i < m < j :: !RunEnds(rows, m))
    && SameTick(rows[j], rows[i]) && Repeats(rows[j], rows[i])
  }

  lemma NeighboursRejoin(rows: seq<Row>, k: nat)
    requires Continues(Collapse(rows).rows, k)
    ensures k < |Kept(rows)| && Rejoins(rows, Kept(rows)[k - 1], Kept(rows)[k])
  {
    hide SameTick, Repeats, RunEnds, Collapse, Kept;
    CanonicalIsSubsequence(rows);
    var kept := Kept(rows);
    assert kept[k - 1] in kept && kept[k] in kept;
    KeptAreRunEnds(rows, kept[k - 1]);
    KeptAreRunEnds(rows, kept[k]);
    forall m | kept[k - 1] < m < kept[k] ensures !RunEnds(rows, m) {
      KeptAreRunEnds(rows, m);
      BetweenKept(kept, |rows|, k, m);
    }
  }

  lemma BetweenKept(kept: seq<nat>, n: nat, k: nat, m: nat)
    requires Positions(kept, n) && 0 < k < |kept| && kept[k - 1] < m < kept[k]
    ensures m !in kept
  {
    assert forall j :: 0 <= j < |kept| ==> kept[j] <= kept[k - 1] || kept[k] <= kept[j];
  }

  lemma RejoinIsNeighbours(rows: seq<Row>, i: nat, j: nat) returns (k: nat)
    requires Rejoins(rows, i, j)
    ensures Continues(Collapse(rows).rows, k)
  {
    hide SameTick, Repeats, Collapse, Kept;
    CanonicalIsSubsequence(rows);
    var kept := Kept(rows);
    KeptAreRunEnds(rows, i);
    KeptAreRunEnds(rows, j);
    var a :| 0 <= a < |kept| && kept[a] == i;
    var b :| 0 <= b < |kept| && kept[b] == j;
    k := a + 1;
    PositionOrder(kept, |rows|, a, b);
    assert kept[k] in kept;
    if k < b {
      KeptAreRunEnds(rows, kept[k]);
    }
  }

  lemma PositionOrder(kept: seq<nat>, n: nat, a: nat, b: nat)
    requires Positions(kept, n) && a < |kept| && b < |kept| && kept[a] < kept[b]
    ensures a < b && (a + 1 < b ==> kept[a] < kept[a + 1] < kept[b])
  {
  }

  lemma {:induction false} DroppedExactly(rows: seq<Row>)
    ensures Collapse(rows).dropped > 0 <==> exists k :: Continues(rows, k)
    ensures Collapse(rows).dropped == 0 ==> Collapse(rows).rows == rows
  {
    hide Continues, Collapse;
    if rows == [] {
      NothingKept();
      NothingDropped();
      ContinuesBound(rows);
    } else {
      var n := |rows| - 1;
      DroppedExactly(rows[..n]);
      DropStep(rows);
      forall k ensures Continues(rows[..n], k) <==> Continues(rows, k) && k < n { ContinuesInFront(rows, k); }
      ContinuesBound(rows);
    }
  }

  lemma NothingDropped()
    ensures Collapse([]).dropped == 0
  {
  }

  lemma ContinuesBound(rows: seq<Row>)
    ensures forall k | Continues(rows, k) :: 0 < k < |rows|
  {
  }

  lemma DropStep(rows: seq<Row>)
    requires rows != []
    ensures var n := |rows| - 1;
            var c := Collapse(rows[..n]);
            && Collapse(rows).dropped == c.dropped + (if Continues(rows, n) then 1 else 0)
            && (!Continues(rows, n) ==> Collapse(rows).rows == c.rows + [rows[n]])
  {
    hide SameTick, Repeats;
    CanonicalIsSubsequence(rows[..|rows| - 1]);
    if |rows| == 1 { assert rows[..0] == []; }
  }

  /** Collapsing the canonical rows again changes nothing exactly when no two neighbouring
      runs rejoin. */
  lemma IdempotentExactly(rows: seq<Row>)
    ensures Collapse(Collapse(rows).rows).rows == Collapse(rows).rows <==> forall i, j :: !Rejoins(rows, i, j)
  {
    hide Continues, Rejoins, Collapse, Kept;
    var c := Collapse(rows).rows;
    DroppedExactly(c);
    RowsConserved(c);
    if i, j :| Rejoins(rows, i, j) {
      RejoinBounds(rows, i, j);
      var k := RejoinIsNeighbours(rows, i, j);
    }
    if k :| Continues(c, k) {
      ContinuesBound(c);
      NeighboursRejoin(rows, k);
    }
  }

  lemma RejoinBounds(rows: seq<Row>, i: int, j: int)
    requires Rejoins(rows, i, j)
    ensures 0 <= i < j < |rows|
  {
  }

  /** In terms of samples: the second run starts at the tick and reference of the first, at
      or below its last sample id, and ends above it. */
  lemma RejoinIsASampleDip(rows: seq<Row>, i: nat, j: nat)
    requires Rejoins(rows, i, j)
    ensures i + 1 < j < |rows| && SameTick(rows[i + 1], rows[i]) && SameHeartbeat(rows[i + 1], rows[i])
    ensures var first, next, last := Integer(Field(rows[i], "sample_id")), Integer(Field(rows[i + 1], "sample_id")), Integer(Field(rows[j], "sample_id"));
            first.Some? && next.Some? && last.Some? && next.value <= first.value < last.value
  {
    assert i + 1 != j;
    RunIsUniform(rows, i + 1, j);
    assert !RunEnds(rows, i + 1);
  }

  lemma {:induction false} RunIsUniform(rows: seq<Row>, a: nat, b: nat)
    requires a <= b < |rows| && forall m | a <= m < b :: !RunEnds(rows, m)
    ensures SameTick(rows[a], rows[b]) && SameHeartbeat(rows[a], rows[b])
    decreases b - a
  {
    hide SameTick, SameHeartbeat;
    SameRowIsItself(rows[a]);
    if a < b {
      RunIsUniform(rows, a, b - 1);
      assert !RunEnds(rows, b - 1);
      Chained(rows[a], rows[b - 1], rows[b]);
    }
  }

  /** The row shares the tick of the row before it and does not repeat it. */
  predicate Clashes(rows: seq<Row>, i: int)
    requires 0 < i < |rows|
  {
    SameTick(rows[i], rows[i - 1]) && !Repeats(rows[i], rows[i - 1])
  }

  lemma LastConflict(rows: seq<Row>)
    requires rows != []
    ensures Collapse(rows).conflict <==> Collapse(rows[..|rows| - 1]).conflict || (|rows| > 1 && Clashes(rows, |rows| - 1))
  {
    hide SameTick, Repeats;
    CanonicalIsSubsequence(rows[..|rows| - 1]);
  }

  /** A conflict in terms of the raw rows. */
  lemma {:induction false} ConflictInRawRows(rows: seq<Row>)
    ensures Collapse(rows).conflict <==> exists i :: 0 < i < |rows| && Clashes(rows, i)
  {
    hide SameTick, Repeats;
    if rows != [] {
      var n := |rows| - 1;
      ConflictInRawRows(rows[..n]);
      forall i | 0 < i < n ensures Clashes(rows[..n], i) <==> Clashes(rows, i) { }
      LastConflict(rows);
      hide Collapse, Clashes;
      if i :| 0 < i < n && Clashes(rows[..n], i) {
        assert Clashes(rows, i);
      }
      if i :| 0 < i < |rows| && Clashes(rows, i) {
        assert i < n || i == n;
      }
    }
  }

  // ---- the source-time validator ----------------------------------------------

  datatype TimeReason =
    | SourceTimeUnavailable | ObserverTimeOnly | TimestampInvalid | ClockUnverified
    | EpochChange | TimestampDuplicate | TimestampRegression

  datatype TimePolicy = StrictlyIncreasing | NonDecreasing | DuplicatesAllowed

  function Stamp(row: Row): Option<int> {
    match Integer(Field(row, "source_stamp_ns"))
    case Some(n) => if n > 0 then Some(n) else None
    case None => None
  }

  function BasisReasons(row: Row): set<TimeReason> {
    var basis := if "time_basis" in row then Str(row["time_basis"]) else "unknown";
    var clock := Field(row, "source_clock");
    (if basis == "observer_sim_time_legacy" then {ObserverTimeOnly}
     else if basis != "source_stamp" || Stamp(row).None? then {TimestampInvalid} else {}) +
    (if clock == Null || clock == Text("") || clock == Text("unknown") then {ClockUnverified} else {})
  }

  datatype Clock = Clock(stamp: Option<int>, epoch: Value, reasons: set<TimeReason>)

  predicate EpochChanged(c: Clock, row: Row) {
    c.epoch != Null && Field(row, "localization_epoch") != c.epoch
  }

  function Compare(previous: Option<int>, stamp: Option<int>, policy: TimePolicy): set<TimeReason> {
    if previous.None? || stamp.None? then {}
    else if stamp.value == previous.value && policy.StrictlyIncreasing? then {TimestampDuplicate}
    else if stamp.value < previous.value then {TimestampRegression}
    else {}
  }

  function Advance(c: Clock, row: Row, policy: TimePolicy): Clock {
    var previous := if EpochChanged(c, row) then None else c.stamp;
    Clock(if Stamp(row).Some? then Stamp(row) else previous,
          Field(row, "localization_epoch"),
          c.reasons + BasisReasons(row) + (if EpochChanged(c, row) then {EpochChange} else {}) +
          Compare(previous, Stamp(row), policy))
  }

  function ClockAfter(rows: seq<Row>, policy: TimePolicy): Clock {
    if rows == [] then Clock(None, Null, {}) else Advance(ClockAfter(rows[..|rows| - 1], policy), rows[|rows| - 1], policy)
  }

  method SourceTimeStatus(rows: seq<Row>, policy: TimePolicy) returns (ok: bool, reasons: set<TimeReason>)
    ensures reasons == if rows == [] then {SourceTimeUnavailable} else ClockAfter(rows, policy).reasons
    ensures ok <==> reasons == {}
  {
    if rows == [] {
      return false, {SourceTimeUnavailable};
    }
    reasons := {};
    var previousStamp: Option<int>, previousEpoch := None, Null;
    for i := 0 to |rows|
      invariant Clock(previousStamp, previousEpoch, reasons) == ClockAfter(rows[..i], policy)
    {
      var row := rows[i];
      assert rows[..i + 1][..i] == rows[..i];
      var epoch := Field(row, "localization_epoch");
      reasons := reasons + BasisReasons(row);
      if previousEpoch != Null && epoch != previousEpoch {
        reasons := reasons + {EpochChange};
        previousStamp := None;
      }
      reasons := reasons + Compare(previousStamp, Stamp(row), policy);
      if Stamp(row).Some? {
        previousStamp := Stamp(row);
      }
      previousEpoch := epoch;
    }
    assert rows[..|rows|] == rows;
    ok := reasons == {};
  }

  /** Every row carries a positive stamp and the same epoch. */
  ghost predicate Stamped(rows: seq<Row>, epoch: Value) {
    forall i :: 0 <= i < |rows| ==> Stamp(rows[i]).Some? && Field(rows[i], "localization_epoch") == epoch
  }

  ghost predicate StepIs(rows: seq<Row>, k: int, r: TimeReason) {
    && 0 < k < |rows| && Stamp(rows[k]).Some? && Stamp(rows[k - 1]).Some?
    && (r == TimestampDuplicate ==> Stamp(rows[k]).value == Stamp(rows[k - 1]).value)
    && (r == TimestampRegression ==> Stamp(rows[k]).value < Stamp(rows[k - 1]).value)
  }

  ghost predicate HasStep(rows: seq<Row>, r: TimeReason) {
    exists k :: StepIs(rows, k, r)
  }

  lemma StepOfFront(rows: seq<Row>, k: int, r: TimeReason)
    requires rows != []
    ensures StepIs(rows, k, r) <==> StepIs(rows[..|rows| - 1], k, r) || (k == |rows| - 1 && StepIs(rows, k, r))
  {
    hide Stamp;
    if 0 < k < |rows| - 1 {
      assert rows[..|rows| - 1][k] == rows[k] && rows[..|rows| - 1][k - 1] == rows[k - 1];
    }
  }

  lemma BasisIsNoStep(row: Row)
    ensures TimestampDuplicate !in BasisReasons(row) && TimestampRegression !in BasisReasons(row)
  {
    hide Stamp, Field, Str;
  }

  lemma AdvanceStamped(c: Clock, row: Row)
    requires Stamp(row).Some? && (c.epoch == Null || c.epoch == Field(row, "localization_epoch"))
    ensures var d := Advance(c, row, StrictlyIncreasing);
            && d.stamp == Stamp(row) && d.epoch == Field(row, "localization_epoch")
            && (TimestampDuplicate in d.reasons <==>
                  TimestampDuplicate in c.reasons || (c.stamp.Some? && Stamp(row).value == c.stamp.value))
            && (TimestampRegression in d.reasons <==>
                  TimestampRegression in c.reasons || (c.stamp.Some? && Stamp(row).value < c.stamp.value))
  {
    hide Stamp, Field, BasisReasons;
    BasisIsNoStep(row);
  }

  /** On stamped rows of one epoch the strict validator reports a duplicate exactly when two
      neighbours have one stamp, and a regression exactly when a stamp goes back. */
  lemma {:induction false} TimeReasonsExactly(rows: seq<Row>, epoch: Value)
    requires Stamped(rows, epoch)
    ensures var c := ClockAfter(rows, StrictlyIncreasing);
            && (rows != [] ==> c.stamp == Stamp(rows[|rows| - 1]) && c.epoch == epoch)
            && (TimestampDuplicate in c.reasons <==> HasStep(rows, TimestampDuplicate))
            && (TimestampRegression in c.reasons <==> HasStep(rows, TimestampRegression))
  {
    if rows != [] {
      var n := |rows| - 1;
      var c := ClockAfter(rows[..n], StrictlyIncreasing);
      assert Stamped(rows[..n], epoch);
      TimeReasonsExactly(rows[..n], epoch);
      AdvanceStamped(c, rows[n]);
      hide Stamp, Field, Advance, Stamped, HasStep;
      if n > 0 {
        assert rows[..n][n - 1] == rows[n - 1];
      }
      LastStep(rows, TimestampDuplicate);
      LastStep(rows, TimestampRegression);
    }
  }

  lemma LastStep(rows: seq<Row>, r: TimeReason)
    requires rows != []
    ensures HasStep(rows, r) <==> HasStep(rows[..|rows| - 1], r) || StepIs(rows, |rows| - 1, r)
  {
    hide StepIs;
    var front := rows[..|rows| - 1];
    if HasStep(rows, r) {
      var k :| StepIs(rows, k, r);
      StepOfFront(rows, k, r);
    }
    if HasStep(front, r) {
      var k :| StepIs(front, k, r);
      StepOfFront(rows, k, r);
    }
  }

  /** The raw stamps never go back. */
  ghost predicate NeverBack(rows: seq<Row>) {
    forall i, j :: 0 <= i < j < |rows| && Stamp(rows[i]).Some? && Stamp(rows[j]).Some? ==> Stamp(rows[i]).value <= Stamp(rows[j]).value
  }

  lemma PickedRows(xs: seq<Row>, rows: seq<Row>, kept: seq<nat>, epoch: Value)
    requires Picks(xs, rows, kept) && Positions(kept, |rows|) && Stamped(rows, epoch) && NeverBack(rows)
    ensures Stamped(xs, epoch) && NeverBack(xs)
  {
    hide Stamp, Field;
  }

  lemma StampIsTick(a: Row, b: Row)
    requires Stamp(a).Some? && Stamp(b).Some? && Field(a, "localization_epoch") == Field(b, "localization_epoch")
    ensures SameTick(a, b) <==> Stamp(a).value == Stamp(b).value
  {
    FieldIsStamp(a);
    FieldIsStamp(b);
  }

  lemma FieldIsStamp(a: Row)
    requires Stamp(a).Some?
    ensures Field(a, "source_stamp_ns") == Num(Stamp(a).value as real)
  {
    if "source_stamp_ns" in a {
      IntegerIsNumber(a["source_stamp_ns"]);
    }
  }

  lemma TicksAreSteps(xs: seq<Row>, epoch: Value)
    requires Stamped(xs, epoch)
    ensures TicksRepeat(xs) <==> HasStep(xs, TimestampDuplicate)
  {
    hide Stamp, Field, SameTick;
    forall k | 0 < k < |xs| ensures SameTick(xs[k], xs[k - 1]) <==> StepIs(xs, k, TimestampDuplicate) {
      StampIsTick(xs[k], xs[k - 1]);
    }
  }

  /** For raw rows of one epoch whose positive stamps never go back, the strict validator
      finds no regression among the canonical rows, and a duplicate exactly when the collapse
      reported a conflict. */
  lemma CanonicalRowsAreStrict(rows: seq<Row>, epoch: Value)
    requires Stamped(rows, epoch) && NeverBack(rows)
    ensures var reasons := ClockAfter(Collapse(rows).rows, StrictlyIncreasing).reasons;
            && TimestampRegression !in reasons
            && (TimestampDuplicate in reasons <==> Collapse(rows).conflict)
  {
    var xs := Collapse(rows).rows;
    CanonicalIsSubsequence(rows);
    PickedRows(xs, rows, Kept(rows), epoch);
    ConflictIsRepeatedTick(rows);
    TimeReasonsExactly(xs, epoch);
    TicksAreSteps(xs, epoch);
    hide Stamp, Field, ClockAfter, Collapse, Kept, Stamped, TicksRepeat;
    forall k ensures !StepIs(xs, k, TimestampRegression) {
    }
  }
}
