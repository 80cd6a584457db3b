/** Facts about the per-category counter rows: how a bump moves one row, why a category
    never changes rows, and how the rows add up. */
module CounterRows {
  import opened EvidenceCategories
  import opened WriterProtocol

  const OTHER_LIMIT: nat := MAX_COUNTER_CATEGORIES + 1

  predicate Bounded(rows: Rows) {
    |rows| <= MAX_COUNTER_CATEGORIES || (|rows| == OTHER_LIMIT && OTHER in rows)
  }

  /** A category that has been counted before. */
  predicate Settled(rows: Rows, category: string) {
    RowName(rows, category) in rows
  }

  /** One bump moves exactly one counter of exactly one row, keeps the table bounded, and
      leaves every counted category where it is. */
  lemma BumpEffect(rows: Rows, category: string, f: Counter)
    ensures var after := Bump(rows, category, f);
            && (forall name :: RowAt(after, name) ==
                  if name == RowName(rows, category) then Inc(RowAt(rows, name), f) else RowAt(rows, name))
            && after.Keys == rows.Keys + {RowName(rows, category)}
            && Settled(after, category) && RowName(after, category) == RowName(rows, category)
  {
    var name := RowName(rows, category);
    var after := Bump(rows, category, f);
    if name in rows {
      assert after.Keys == rows.Keys;
    } else if category != name {
      assert |rows| >= MAX_COUNTER_CATEGORIES;
      assert after.Keys == rows.Keys + {name};
      assert |after| == |after.Keys| == |rows.Keys| + 1;
    }
  }

  lemma BumpBounded(rows: Rows, category: string, f: Counter)
    requires Bounded(rows)
    ensures Bounded(Bump(rows, category, f))
  {
    var name := RowName(rows, category);
    var after := Bump(rows, category, f);
    assert after.Keys == rows.Keys + {name};
    assert |after| == |after.Keys|;
    assert |rows| == |rows.Keys|;
  }

  lemma SettledStays(rows: Rows, category: string, f: Counter, counted: string)
    requires Settled(rows, counted)
    ensures Settled(Bump(rows, category, f), counted)
    ensures RowName(Bump(rows, category, f), counted) == RowName(rows, counted)
  {
    var name := RowName(rows, category);
    var after := Bump(rows, category, f);
    assert after.Keys == rows.Keys + {name};
    if counted !in rows {
      assert |rows| >= MAX_COUNTER_CATEGORIES && OTHER in rows;
      assert name in rows;
      assert after.Keys == rows.Keys;
      assert |after| == |after.Keys| == |rows.Keys| == |rows|;
    }
  }

  // ---- sums -------------------------------------------------------------------

  ghost function Total(rows: Rows, f: Counter): nat
    decreases |rows|
  {
    if rows == map[] then 0
    else var k :| k in rows; Get(rows[k], f) + Total(rows - {k}, f)
  }

  lemma {:induction false} TotalSplit(rows: Rows, f: Counter, k: string)
    requires k in rows
    ensures Total(rows, f) == Get(rows[k], f) + Total(rows - {k}, f)
    decreases |rows|
  {
    var j :| j in rows && Total(rows, f) == Get(rows[j], f) + Total(rows - {j}, f);
    if j != k {
      TotalSplit(rows - {j}, f, k);
      TotalSplit(rows - {k}, f, j);
      assert rows - {j} - {k} == rows - {k} - {j};
    }
  }

  /** A bump of counter `g` adds one to the total of `g` and nothing to the others. */
  lemma BumpTotal(rows: Rows, category: string, f: Counter, g: Counter)
    ensures Total(Bump(rows, category, f), g) == Total(rows, g) + if f == g then 1 else 0
  {
    var name := RowName(rows, category);
    var after := Bump(rows, category, f);
    TotalSplit(after, g, name);
    assert after - {name} == rows - {name};
    if name in rows {
      TotalSplit(rows, g, name);
    } else {
      assert rows - {name} == rows;
    }
  }

  // ---- counting records -------------------------------------------------------

  /** How many of the records were counted in row `name`. */
  function CountIn(xs: seq<Accepted>, name: string): nat {
    if xs == [] then 0
    else CountIn(xs[..|xs| - 1], name) + if xs[|xs| - 1].row == name then 1 else 0
  }

  lemma {:induction false} CountAppend(xs: seq<Accepted>, ys: seq<Accepted>, name: string)
    ensures CountIn(xs + ys, name) == CountIn(xs, name) + CountIn(ys, name)
  {
    if ys == [] {
      assert xs + ys == xs;
    } else {
      var n := |ys| - 1;
      CountAppend(xs, ys[..n], name);
      assert (xs + ys)[..|xs| + n] == xs + ys[..n];
    }
  }

  lemma {:induction false} CountAtMost(xs: seq<Accepted>, name: string)
    ensures CountIn(xs, name) <= |xs|
    ensures (forall x | x in xs :: x.row == name) ==> CountIn(xs, name) == |xs|
    ensures CountIn(xs, name) > 0 <==> exists x | x in xs :: x.row == name
  {
    if xs != [] {
      var n := |xs| - 1;
      CountAtMost(xs[..n], name);
      assert xs == xs[..n] + [xs[n]];
    }
  }

  predicate TaggedRight(rows: Rows, a: Accepted) {
    Settled(rows, RecordCategory(a.envelope)) && RowName(rows, RecordCategory(a.envelope)) == a.row
  }

  lemma TaggedName(rows: Rows, mid: Rows, a: Accepted)
    requires mid.Keys == rows.Keys && TaggedRight(rows, a)
    ensures RowName(mid, RecordCategory(a.envelope)) == a.row && a.row in mid
  {
    hide RecordCategory;
    assert |mid| == |mid.Keys| == |rows.Keys| == |rows|;
  }

  lemma IncWritten(r: Row)
    ensures Inc(r, WrittenC) == r.(written := r.written + 1)
  {
  }

  /** The row of every line is where its category is counted. */
  ghost predicate AllTagged(rows: Rows, lines: seq<Accepted>) {
    forall a | a in lines :: TaggedRight(rows, a)
  }

  ghost predicate RowsMoved(rows: Rows, after: Rows, lines: seq<Accepted>) {
    && after.Keys == rows.Keys
    && forall name :: RowAt(after, name) == RowAt(rows, name).(written := RowAt(rows, name).written + CountIn(lines, name))
  }

  lemma RowsMovedStep(rows: Rows, mid: Rows, after: Rows, init: seq<Accepted>, a: Accepted)
    requires RowsMoved(rows, mid, init) && TaggedRight(rows, a) && after == Bump(mid, RecordCategory(a.envelope), WrittenC)
    ensures RowsMoved(rows, after, init + [a])
  {
    hide Bump, Inc, RecordCategory, RowAt, RowName, CountIn;
    TaggedName(rows, mid, a);
    BumpEffect(mid, RecordCategory(a.envelope), WrittenC);
    IncWritten(RowAt(mid, a.row));
    forall name ensures CountIn(init + [a], name) == CountIn(init, name) + if a.row == name then 1 else 0 {
      CountOne(init, a, name);
    }
    assert after.Keys == rows.Keys;
  }

  lemma CountOne(init: seq<Accepted>, a: Accepted, name: string)
    ensures CountIn(init + [a], name) == CountIn(init, name) + if a.row == name then 1 else 0
  {
    assert (init + [a])[..|init|] == init;
  }

  lemma TaggedFront(rows: Rows, lines: seq<Accepted>)
    requires AllTagged(rows, lines) && lines != []
    ensures AllTagged(rows, lines[..|lines| - 1]) && TaggedRight(rows, lines[|lines| - 1])
  {
    hide TaggedRight;
    assert lines[|lines| - 1] in lines;
  }

  lemma BumpWrittenLast(rows: Rows, lines: seq<Accepted>)
    requires lines != []
    ensures var n := |lines| - 1; BumpWritten(rows, lines) == Bump(BumpWritten(rows, lines[..n]), RecordCategory(lines[n].envelope), WrittenC)
  {
    hide Bump, RecordCategory;
  }

  lemma MovedByNothing(rows: Rows)
    ensures RowsMoved(rows, rows, [])
  {
    hide RowAt;
  }

  lemma FrontAndLast<T>(s: seq<T>)
    requires s != []
    ensures s == s[..|s| - 1] + [s[|s| - 1]]
  {
  }

  lemma {:induction false} BumpWrittenRows(rows: Rows, lines: seq<Accepted>)
    requires AllTagged(rows, lines)
    ensures RowsMoved(rows, BumpWritten(rows, lines), lines)
  {
    if lines == [] {
      MovedByNothing(rows);
    } else {
      hide RowsMoved, TaggedRight, Bump, RecordCategory, BumpWritten, AllTagged;
      var n := |lines| - 1;
      BumpWrittenLast(rows, lines);
      TaggedFront(rows, lines);
      BumpWrittenRows(rows, lines[..n]);
      RowsMovedStep(rows, BumpWritten(rows, lines[..n]), BumpWritten(rows, lines), lines[..n], lines[n]);
      FrontAndLast(lines);
    }
  }

  lemma {:induction false} BumpWrittenTotal(rows: Rows, lines: seq<Accepted>, g: Counter)
    ensures Total(BumpWritten(rows, lines), g) == Total(rows, g) + if g == WrittenC then |lines| else 0
  {
    hide Total, Bump, RecordCategory;
    if lines != [] {
      var n := |lines| - 1;
      BumpWrittenTotal(rows, lines[..n], g);
      BumpTotal(BumpWritten(rows, lines[..n]), RecordCategory(lines[n].envelope), WrittenC, g);
    }
  }

  /** Counting a written batch adds, row by row, the records of the batch. */
  lemma BumpWrittenEffect(rows: Rows, lines: seq<Accepted>)
    requires forall a | a in lines :: TaggedRight(rows, a)
    ensures BumpWritten(rows, lines).Keys == rows.Keys
    ensures forall name :: RowAt(BumpWritten(rows, lines), name) ==
              RowAt(rows, name).(written := RowAt(rows, name).written + CountIn(lines, name))
    ensures forall g :: Total(BumpWritten(rows, lines), g) == Total(rows, g) + if g == WrittenC then |lines| else 0
  {
    hide BumpWritten, Total, TaggedRight, CountIn, RowAt;
    BumpWrittenRows(rows, lines);
    forall g ensures Total(BumpWritten(rows, lines), g) == Total(rows, g) + if g == WrittenC then |lines| else 0 {
      BumpWrittenTotal(rows, lines, g);
    }
  }
}
