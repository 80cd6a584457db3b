/** Which categories own a counter row. With at most 128 categories every category has
    its own row, so the writer's rows can be recounted from the artifact. */
module WriterRoster {
  import opened EvidenceCategories
  import opened WriterProtocol
  import opened WriterSafety
  import opened CounterRows
  import opened WriterAccounting

  ghost predicate Rostered(rows: Rows, seen: set<string>) {
    && (forall c | c in seen :: Settled(rows, c))
    && rows.Keys <= seen + {OTHER}
    && (OTHER in rows && |rows| <= MAX_COUNTER_CATEGORIES ==> OTHER in seen)
    && (OTHER in rows ==> OTHER in seen || exists c | c in seen :: c !in rows)
  }

  ghost predicate Attributed(s: State) {
    && (forall a | a in s.log :: RecordCategory(a.envelope) in s.seen)
    && (s.holder.Submitting? ==> RecordCategory(s.holder.envelope) in s.seen)
    && (s.c.dropped == 0 ==>
          forall c | c in s.seen ::
            || (exists a | a in s.log :: RecordCategory(a.envelope) == c)
            || (s.holder.Submitting? && RecordCategory(s.holder.envelope) == c))
  }

  ghost predicate Roster(s: State) {
    Rostered(s.c.rows, s.seen) && Attributed(s)
  }

  lemma BumpRosters(rows: Rows, seen: set<string>, category: string, f: Counter)
    requires Rostered(rows, seen) && Bounded(rows)
    ensures Rostered(Bump(rows, category, f), seen + {category})
  {
    var after := Bump(rows, category, f);
    var name := RowName(rows, category);
    BumpEffect(rows, category, f);
    forall c | c in seen + {category} ensures Settled(after, c) {
      if c in seen { SettledStays(rows, category, f, c); }
    }
    assert |after| == |after.Keys| && |rows| == |rows.Keys|;
    if OTHER !in rows && name == OTHER && category != OTHER {
      assert category !in after;
      assert |after| == |rows| + 1;
    } else if OTHER in rows && OTHER !in seen {
      var c :| c in seen && c !in rows;
      assert Settled(rows, c) && c != OTHER;
      assert c !in after;
    }
  }

  lemma BumpsRoster(rows: Rows, seen: set<string>, category: string)
    requires Rostered(rows, seen) && Bounded(rows)
    ensures var counted := Bump(rows, category, SubmittedC);
            && Rostered(counted, seen + {category})
            && Rostered(Bump(counted, category, DroppedC), seen + {category})
  {
    hide Rostered, Bump, Bounded;
    BumpRosters(rows, seen, category, SubmittedC);
    BumpBounded(rows, category, SubmittedC);
    BumpRosters(Bump(rows, category, SubmittedC), seen + {category}, category, DroppedC);
    assert seen + {category} + {category} == seen + {category};
  }

  lemma RosterKeptBySubmitting(s: State, a: Action)
    requires Bounded(s.c.rows) && Roster(s) && Enabled(s, a)
    requires a.RejectSnapshot? || a.Submit?
    ensures Roster(Next(s, a))
  {
    hide Rostered, Bump, RecordCategory, Bounded;
    BumpsRoster(s.c.rows, s.seen, RecordCategory(if a.Submit? then a.envelope else a.record));
  }

  lemma RosterKept(s: State, a: Action)
    requires Balanced(s) && Roster(s) && Enabled(s, a)
    ensures Roster(Next(s, a))
  {
    if a.RejectSnapshot? || a.Submit? {
      RosterKeptBySubmitting(s, a);
    } else if a.Put? {
      RosterKeptByPut(s);
    } else if a.Accept? {
      RosterKeptByAccept(s);
    } else if a.Commit? {
      RosterKeptByCommit(s);
    } else {
      SameBooks(s, a);
      hide Rostered, RecordCategory, Balanced, Next, Enabled;
    }
  }

  lemma SameBooks(s: State, a: Action)
    requires Enabled(s, a) && !a.RejectSnapshot? && !a.Submit? && !a.Put? && !a.Accept? && !a.Commit?
    ensures var t := Next(s, a);
            t.c.rows == s.c.rows && t.c.dropped == s.c.dropped && t.log == s.log && t.seen == s.seen &&
            (s.holder.Submitting? || t.holder.Submitting? ==> t.holder == s.holder)
  {
    hide InFlight;
  }

  lemma RosterKeptByPut(s: State)
    requires s.holder.Submitting? && Balanced(s) && Roster(s)
    ensures Roster(PutRecord(s))
  {
    if |s.queue| < s.capacity { RosterKeptByPlacing(s); } else { RosterKeptByRefusing(s); }
  }

  lemma RosterKeptByPlacing(s: State)
    requires s.holder.Submitting? && Roster(s) && |s.queue| < s.capacity
    ensures Roster(PutRecord(s))
  {
    hide Rostered, RecordCategory, RowName;
    var t := PutRecord(s);
    assert t.log[|s.log|] in t.log && t.log[|s.log|].envelope == s.holder.envelope;
    assert forall a | a in s.log :: a in t.log;
  }

  lemma RosterKeptByRefusing(s: State)
    requires s.holder.Submitting? && Balanced(s) && Roster(s) && |s.queue| >= s.capacity
    ensures Roster(PutRecord(s))
  {
    hide RecordCategory, Rostered;
    var category := RecordCategory(s.holder.envelope);
    var t := PutRecord(s);
    RefusedRows(s.c.rows, s.seen, category);
    assert t.c.rows == Bump(s.c.rows, category, DroppedC);
  }

  /** A category seen before keeps its row. */
  lemma RefusedRows(rows: Rows, seen: set<string>, category: string)
    requires Rostered(rows, seen) && category in seen
    ensures Rostered(Bump(rows, category, DroppedC), seen)
  {
    var after := Bump(rows, category, DroppedC);
    SettledStays(rows, category, DroppedC, category);
    BumpEffect(rows, category, DroppedC);
    assert after.Keys == rows.Keys;
    SameRoster(rows, after, seen);
  }

  lemma RosterKeptByAccept(s: State)
    requires s.holder.Placed? && Balanced(s) && Roster(s)
    ensures Roster(Next(s, Accept))
  {
    var category := RecordCategory(s.holder.a.envelope);
    assert TaggedRight(s.c.rows, s.holder.a);
    BumpEffect(s.c.rows, category, AcceptedC);
    var t := Next(s, Accept);
    assert t.c.rows.Keys == s.c.rows.Keys;
    SameRoster(s.c.rows, t.c.rows, s.seen);
  }

  lemma RosterKeptByCommit(s: State)
    requires s.pc.Committing? && s.holder.Free? && Balanced(s) && Roster(s)
    ensures Roster(Next(s, Commit))
  {
    CommitKeepsKeys(s);
    hide Balanced, Rostered, RecordCategory, BumpWritten;
    SameRoster(s.c.rows, Next(s, Commit).c.rows, s.seen);
  }

  lemma CommitKeepsKeys(s: State)
    requires s.pc.Committing? && s.holder.Free? && Held(s) && Tagged(s)
    ensures Next(s, Commit).c.rows.Keys == s.c.rows.Keys
  {
    hide RecordCategory, RowName, Settled, TaggedRight, CountIn, Total, Recs;
    assert forall a | a in s.pc.lines :: a in Uncommitted(s.pc);
    BumpWrittenEffect(s.c.rows, s.pc.lines);
  }

  lemma SameRoster(rows: Rows, after: Rows, seen: set<string>)
    requires rows.Keys == after.Keys && Rostered(rows, seen)
    ensures Rostered(after, seen)
  {
    assert |rows| == |rows.Keys| && |after| == |after.Keys|;
  }

  lemma {:induction false} RunIsRostered(s: State, actions: seq<Action>)
    requires Safe(s) && Balanced(s) && Roster(s) && Run(s, actions)
    ensures Roster(Last(s, actions))
    decreases |actions|
  {
    if actions != [] {
      RosterKept(s, actions[0]);
      BalancedKept(s, actions[0]);
      RunIsSafe(s, [actions[0]]);
      assert Last(s, [actions[0]]) == Next(s, actions[0]);
      hide Next, Enabled, Balanced, Safe, Roster;
      RunIsRostered(Next(s, actions[0]), actions[1..]);
    }
  }

  /** With at most 128 categories, every submitted category owns its row and there is no
      other row. */
  lemma OwnRows(rows: Rows, seen: set<string>)
    requires Rostered(rows, seen) && Bounded(rows) && |seen| <= MAX_COUNTER_CATEGORIES
    ensures rows.Keys == seen
    ensures forall c | c in seen :: RowName(rows, c) == c
  {
    assert |rows| == |rows.Keys|;
    forall c | c in seen ensures c in rows {
      if c !in rows {
        assert Settled(rows, c);
        assert OTHER in rows && |rows| >= MAX_COUNTER_CATEGORIES && c != OTHER;
        var named := rows.Keys - {OTHER};
        assert named + {c} <= seen;
        Subset(named + {c}, seen);
        if |rows| <= MAX_COUNTER_CATEGORIES {
          assert rows.Keys + {c} <= seen;
          Subset(rows.Keys + {c}, seen);
        }
        assert false;
      }
    }
  }

  lemma {:induction false} Subset<T>(a: set<T>, b: set<T>)
    requires a <= b
    ensures |a| <= |b|
    decreases |a|
  {
    if a != {} {
      var x :| x in a;
      Subset(a - {x}, b - {x});
    }
  }
}
