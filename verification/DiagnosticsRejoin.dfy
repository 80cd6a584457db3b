/** Running the diagnostics join a second time: exactly when it changes nothing, for payload
    objects shared between events in any way. */
module DiagnosticsRejoin {
  import opened Values
  import opened DiagnosticsJoin

  predicate IsCommand(r: Record) {
    r.kind.Command? && r.fields.Some?
  }

  /** The issues of one run, in order. */
  ghost function IssueList(rs: seq<Record>): seq<Issue> {
    IdentityIssues(rs) + CommandIssues(rs, rs)
  }

  /** The records after one run that writes the payloads at the positions w. */
  ghost function Pass(rs: seq<Record>, w: set<nat>): (out: seq<Record>)
    ensures |out| == |rs|
  {
    seq(|rs|, i requires 0 <= i < |rs| => PassedOne(rs, w, i))
  }

  ghost function PassedOne(rs: seq<Record>, w: set<nat>, i: nat): Record
    requires i < |rs|
  {
    if i in w && rs[i].fields.Some? then rs[i].(fields := Some(Joined(rs, rs[i].fields.value))) else rs[i]
  }

  /** The written positions are those whose payload is also that of a command. */
  ghost predicate Touched(rs: seq<Record>, w: set<nat>) {
    && (forall i | 0 <= i < |rs| && IsCommand(rs[i]) :: i in w)
    && (forall i | i in w :: i < |rs| && HasCommandTwin(rs, i))
  }

  ghost predicate HasCommandTwin(rs: seq<Record>, i: nat)
    requires i < |rs|
  {
    exists j :: 0 <= j < |rs| && IsCommand(rs[j]) && rs[j].fields == rs[i].fields
  }

  ghost predicate AgreesAlike(rs: seq<Record>, rs': seq<Record>, c: Fields) {
    Disagree(rs, KeyOf(c)) <==> Disagree(rs', KeyOf(c))
  }

  /** The marks of a run neither make nor settle a disagreement that a command sees. */
  ghost predicate MarksKeepAgreement(rs: seq<Record>, w: set<nat>) {
    forall i | 0 <= i < |rs| && IsCommand(rs[i]) :: AgreesAlike(rs, Pass(rs, w), rs[i].fields.value)
  }

  // ---- what a run leaves in place ---------------------------------------------

  lemma PassKeeps(rs: seq<Record>, w: set<nat>, i: nat)
    requires i < |rs|
    ensures var a, b := rs[i], Pass(rs, w)[i];
            && b.kind == a.kind && (b.fields.Some? <==> a.fields.Some?)
            && (a.fields.Some? ==> KeyOf(b.fields.value) == KeyOf(a.fields.value))
  {
    hide Joined, KeyOf, SameProtected;
    if rs[i].fields.Some? {
      ProtectedFieldsKept(rs, rs[i].fields.value);
      ProtectedIdentity(Joined(rs, rs[i].fields.value), rs[i].fields.value);
    }
  }

  lemma PassDescribes(rs: seq<Record>, w: set<nat>, k: Key, i: nat)
    requires i < |rs|
    ensures Describes(Pass(rs, w)[i], k) <==> Describes(rs[i], k)
  {
    hide KeyOf, Complete, Pass;
    PassKeeps(rs, w, i);
  }

  /** Records that describe a key at the same positions have their first one at the same. */
  lemma {:induction false} FirstAligned(rs: seq<Record>, rs': seq<Record>, k: Key) returns (i: nat)
    requires |rs| == |rs'| && forall j | 0 <= j < |rs| :: Describes(rs[j], k) <==> Describes(rs'[j], k)
    ensures First(rs, k).Some? <==> First(rs', k).Some?
    ensures First(rs, k).Some? ==> i < |rs| && First(rs, k) == rs[i].fields && First(rs', k) == rs'[i].fields
  {
    hide Describes;
    i := 0;
    if rs != [] {
      var n := |rs| - 1;
      assert forall j | 0 <= j < n :: rs[..n][j] == rs[j] && rs'[..n][j] == rs'[j];
      i := FirstAligned(rs[..n], rs'[..n], k);
      assert rs == rs[..n] + [rs[n]] && rs' == rs'[..n] + [rs'[n]];
      FirstStep(rs[..n], rs[n], k);
      FirstStep(rs'[..n], rs'[n], k);
      hide First;
      if First(rs[..n], k).None? && Describes(rs[n], k) {
        i := n;
        DescribesIsDiagnostics(rs[n], k);
        DescribesIsDiagnostics(rs'[n], k);
      }
    }
  }

  /** The first diagnostic of a key changes at most its mark. */
  lemma PassFirst(rs: seq<Record>, w: set<nat>, k: Key)
    ensures First(Pass(rs, w), k).Some? <==> First(rs, k).Some?
    ensures First(rs, k).Some? ==> SameButMark(First(Pass(rs, w), k).value, First(rs, k).value)
  {
    hide Describes, First, Joined, SameButMark;
    forall j | 0 <= j < |rs| ensures Describes(rs[j], k) <==> Describes(Pass(rs, w)[j], k) {
      PassDescribes(rs, w, k, j);
    }
    var i := FirstAligned(rs, Pass(rs, w), k);
    if First(rs, k).Some? {
      FirstJoinsItself(rs, k);
      Unmarked(First(rs, k).value);
    }
  }

  // ---- one command in the second run ------------------------------------------

  lemma DisagreeHasFirst(rs: seq<Record>, k: Key)
    requires Disagree(rs, k)
    ensures First(rs, k).Some?
  {
    hide Describes;
  }

  lemma MarkReads(c: Fields, missing: bool)
    ensures Get(Marked(c, missing), MISSING) == Flag(missing)
  {
  }

  /** How the outcome of a joined payload in the second run relates to that of the first. */
  lemma SecondOutcome(rs: seq<Record>, w: set<nat>, c: Fields)
    ensures var rs', c' := Pass(rs, w), Joined(rs, c);
            && KeyOf(c') == KeyOf(c)
            && (OutcomeOf(rs', c').Contradicted? <==> Disagree(rs', KeyOf(c)))
            && (OutcomeOf(rs', c').Absent? && !Disagree(rs, KeyOf(c)) ==> OutcomeOf(rs, c).Absent?)
            && (OutcomeOf(rs, c).Absent? && !Disagree(rs', KeyOf(c)) ==> OutcomeOf(rs', c').Absent?)
            && (AgreesAlike(rs, rs', c) && OutcomeOf(rs, c).Mismatched? ==> OutcomeOf(rs', c').Mismatched?)
            && (AgreesAlike(rs, rs', c) && OutcomeOf(rs, c).Matched? ==>
                  OutcomeOf(rs', c').Matched? && SameButMark(OutcomeOf(rs', c').diagnostic, OutcomeOf(rs, c).diagnostic))
  {
    hide Joined, Disagree, First, KeyOf, SameProtected, Pass;
    ProtectedFieldsKept(rs, c);
    ProtectedIdentity(Joined(rs, c), c);
    PassFirst(rs, w, KeyOf(c));
    if First(rs, KeyOf(c)).Some? {
      SameHeader(First(Pass(rs, w), KeyOf(c)).value, First(rs, KeyOf(c)).value);
    }
    hide SameButMark;
  }

  lemma SameHeader(a: Fields, b: Fields)
    requires SameButMark(a, b)
    ensures Get(a, "header_stamp_ns") == Get(b, "header_stamp_ns")
  {
    MarkIsNotProtected();
  }

  /** Where the disagreement is seen alike, the second run leaves the payload and repeats
      the issue. */
  lemma SecondRunRepeats(rs: seq<Record>, w: set<nat>, c: Fields)
    requires AgreesAlike(rs, Pass(rs, w), c)
    ensures Joined(Pass(rs, w), Joined(rs, c)) == Joined(rs, c)
    ensures CommandIssue(Pass(rs, w), Record(Command, Some(Joined(rs, c)))) == CommandIssue(rs, Record(Command, Some(c)))
  {
    SecondOutcome(rs, w, c);
    hide OutcomeOf, Marked, Enriched, SameButMark, Pass, Disagree, KeyOf;
    var o, o' := OutcomeOf(rs, c), OutcomeOf(Pass(rs, w), Joined(rs, c));
    OutcomeContradicted(rs, c);
    MarkedTwice(c);
    if o.Matched? {
      SameButMarkEnriches(Joined(rs, c), o'.diagnostic, o.diagnostic);
      EnrichedTwice(c, o.diagnostic);
    }
  }

  lemma OutcomeContradicted(rs: seq<Record>, c: Fields)
    ensures OutcomeOf(rs, c).Contradicted? <==> Disagree(rs, KeyOf(c))
    ensures OutcomeOf(rs, c).Absent? ==> First(rs, KeyOf(c)).None?
  {
    hide Disagree, First, KeyOf;
  }

  /** Where it is not, either the payload changes or the issue does. */
  lemma SecondRunDiffers(rs: seq<Record>, w: set<nat>, c: Fields)
    requires !AgreesAlike(rs, Pass(rs, w), c) && Joined(Pass(rs, w), Joined(rs, c)) == Joined(rs, c)
    ensures var a, b := CommandIssue(rs, Record(Command, Some(c))), CommandIssue(Pass(rs, w), Record(Command, Some(Joined(rs, c))));
            |a| == |b| == 1 && a != b
  {
    SecondOutcome(rs, w, c);
    var rs', c' := Pass(rs, w), Joined(rs, c);
    var o, o' := OutcomeOf(rs, c), OutcomeOf(rs', c');
    hide OutcomeOf, Marked, Enriched, SameButMark, Pass, Disagree, KeyOf, First;
    OutcomeContradicted(rs, c);
    OutcomeContradicted(rs', c');
    PassFirst(rs, w, KeyOf(c));
    if Disagree(rs, KeyOf(c)) {
      DisagreeHasFirst(rs, KeyOf(c));
      MarkReads(c, true);
      if o'.Matched? { MarkReads(Enriched(c', o'.diagnostic), false); }
    } else {
      DisagreeHasFirst(rs', KeyOf(c));
      MarkReads(c', true);
      if o.Matched? { MarkReads(Enriched(c, o.diagnostic), false); }
    }
  }

  // ---- lists of issues --------------------------------------------------------

  lemma {:induction false} IdentityIssuesKept(rs: seq<Record>, rs': seq<Record>)
    requires |rs| == |rs'| && forall i | 0 <= i < |rs| :: IdentityIssue(rs'[i]) == IdentityIssue(rs[i])
    ensures IdentityIssues(rs') == IdentityIssues(rs)
  {
    hide IdentityIssue;
    if rs != [] {
      IdentityIssuesKept(rs[..|rs| - 1], rs'[..|rs| - 1]);
    }
  }

  lemma PassIdentityIssue(rs: seq<Record>, w: set<nat>, i: nat)
    requires i < |rs|
    ensures IdentityIssue(Pass(rs, w)[i]) == IdentityIssue(rs[i])
  {
    hide KeyOf, Complete, Pass;
    PassKeeps(rs, w, i);
  }

  lemma PassIdentityIssues(rs: seq<Record>, w: set<nat>)
    ensures IdentityIssues(Pass(rs, w)) == IdentityIssues(rs)
  {
    hide IdentityIssue, IdentityIssues, Pass;
    forall i | 0 <= i < |rs| ensures IdentityIssue(Pass(rs, w)[i]) == IdentityIssue(rs[i]) {
      PassIdentityIssue(rs, w, i);
    }
    IdentityIssuesKept(rs, Pass(rs, w));
  }

  lemma SplitAlike<T>(a: seq<T>, x: seq<T>, b: seq<T>, y: seq<T>)
    requires |a| == |b|
    ensures a + x == b + y <==> a == b && x == y
  {
    if a + x == b + y {
      assert (a + x)[..|a|] == a && (b + y)[..|b|] == b;
      assert (a + x)[|a|..] == x && (b + y)[|b|..] == y;
    }
  }

  /** Lists of issues with equally many per record are equal exactly when they are equal
      record by record. */
  lemma {:induction false} IssuesAligned(all: seq<Record>, rs: seq<Record>, all': seq<Record>, rs': seq<Record>)
    requires |rs| == |rs'| && forall i | 0 <= i < |rs| :: |CommandIssue(all, rs[i])| == |CommandIssue(all', rs'[i])|
    ensures |CommandIssues(all, rs)| == |CommandIssues(all', rs')|
    ensures CommandIssues(all, rs) == CommandIssues(all', rs') <==>
            forall i | 0 <= i < |rs| :: CommandIssue(all, rs[i]) == CommandIssue(all', rs'[i])
  {
    hide CommandIssue;
    if rs != [] {
      var n := |rs| - 1;
      IssuesAligned(all, rs[..n], all', rs'[..n]);
      var a, b := CommandIssues(all, rs[..n]), CommandIssues(all', rs'[..n]);
      var x, y := CommandIssue(all, rs[n]), CommandIssue(all', rs'[n]);
      SplitAlike(a, x, b, y);
      assert CommandIssues(all, rs) == a + x && CommandIssues(all', rs') == b + y;
      hide CommandIssues;
      assert forall i | 0 <= i < n :: rs[..n][i] == rs[i] && rs'[..n][i] == rs'[i];
    }
  }

  // ---- both runs --------------------------------------------------------------

  /** The second run changes no payload and reports the same issues. */
  ghost predicate SecondRunIsIdle(rs: seq<Record>, w: set<nat>) {
    Pass(Pass(rs, w), w) == Pass(rs, w) && IssueList(Pass(rs, w)) == IssueList(rs)
  }

  lemma TwinAgreesAlike(rs: seq<Record>, w: set<nat>, i: nat)
    requires Touched(rs, w) && MarksKeepAgreement(rs, w) && i in w && rs[i].fields.Some?
    ensures AgreesAlike(rs, Pass(rs, w), rs[i].fields.value)
  {
    hide AgreesAlike, Pass;
    assert HasCommandTwin(rs, i);
  }

  lemma PassAt(rs: seq<Record>, w: set<nat>, i: nat)
    requires i < |rs|
    ensures i in w && rs[i].fields.Some? ==> Pass(rs, w)[i] == rs[i].(fields := Some(Joined(rs, rs[i].fields.value)))
    ensures !(i in w && rs[i].fields.Some?) ==> Pass(rs, w)[i] == rs[i]
  {
    hide Joined;
  }

  lemma KeptAgreementIsIdle(rs: seq<Record>, w: set<nat>)
    requires Touched(rs, w) && MarksKeepAgreement(rs, w)
    ensures SecondRunIsIdle(rs, w)
  {
    hide Pass, Joined, CommandIssue, CommandIssues, IdentityIssues, AgreesAlike, HasCommandTwin;
    var rs' := Pass(rs, w);
    forall i | 0 <= i < |rs|
      ensures Pass(rs', w)[i] == rs'[i] && CommandIssue(rs, rs[i]) == CommandIssue(rs', rs'[i])
    {
      PassAt(rs, w, i);
      PassAt(rs', w, i);
      if i in w && rs[i].fields.Some? {
        TwinAgreesAlike(rs, w, i);
        SecondRunRepeats(rs, w, rs[i].fields.value);
        assert rs'[i].kind == rs[i].kind;
        OnlyCommands(rs, rs[i], rs[i].fields.value);
        OnlyCommands(rs', rs'[i], rs'[i].fields.value);
      } else {
        NoCommandIssue(rs, rs[i]);
        NoCommandIssue(rs', rs'[i]);
      }
    }
    IssuesAligned(rs, rs, rs', rs');
    PassIdentityIssues(rs, w);
  }

  lemma OnlyCommands(rs: seq<Record>, r: Record, c: Fields)
    requires r.fields == Some(c)
    ensures CommandIssue(rs, r) == if r.kind.Command? then CommandIssue(rs, Record(Command, Some(c))) else []
  {
    hide OutcomeOf;
  }

  lemma IdleKeepsAgreement(rs: seq<Record>, w: set<nat>)
    requires Touched(rs, w) && SecondRunIsIdle(rs, w)
    ensures MarksKeepAgreement(rs, w)
  {
    hide Pass, Joined, CommandIssue, CommandIssues, IdentityIssues, AgreesAlike, HasCommandTwin;
    var rs' := Pass(rs, w);
    forall i | 0 <= i < |rs|
      ensures |CommandIssue(rs, rs[i])| == |CommandIssue(rs', rs'[i])|
      ensures IsCommand(rs[i]) && !AgreesAlike(rs, rs', rs[i].fields.value) ==> CommandIssue(rs, rs[i]) != CommandIssue(rs', rs'[i])
    {
      PassAt(rs, w, i);
      PassAt(rs', w, i);
      if IsCommand(rs[i]) {
        var c := rs[i].fields.value;
        assert rs[i] == Record(Command, Some(c)) && rs'[i] == Record(Command, Some(Joined(rs, c)));
        if AgreesAlike(rs, rs', c) {
          SecondRunRepeats(rs, w, c);
        } else {
          SecondRunDiffers(rs, w, c);
        }
      } else {
        NoCommandIssue(rs, rs[i]);
        NoCommandIssue(rs', rs'[i]);
      }
    }
    PassIdentityIssues(rs, w);
    var a, b, x := CommandIssues(rs, rs), CommandIssues(rs', rs'), IdentityIssues(rs);
    assert a == (x + a)[|x|..] && b == (x + b)[|x|..];
    IssuesAligned(rs, rs, rs', rs');
  }

  lemma RejoinByAgreement(rs: seq<Record>, w: set<nat>)
    requires Touched(rs, w)
    ensures SecondRunIsIdle(rs, w) <==> MarksKeepAgreement(rs, w)
  {
    hide SecondRunIsIdle, MarksKeepAgreement, Touched;
    if MarksKeepAgreement(rs, w) { KeptAgreementIsIdle(rs, w); }
    if SecondRunIsIdle(rs, w) { IdleKeepsAgreement(rs, w); }
  }

  lemma SameDescribed(rs: seq<Record>, rs': seq<Record>, k: Key)
    requires |rs| == |rs'| && forall i | 0 <= i < |rs| && rs[i].kind.Diagnostics? :: rs'[i] == rs[i]
    requires forall i | 0 <= i < |rs| :: rs'[i].kind == rs[i].kind
    ensures Disagree(rs, k) <==> Disagree(rs', k)
  {
    forall r: Record | r.kind.Diagnostics? ensures r in rs <==> r in rs' {
      if r in rs {
        var i :| 0 <= i < |rs| && rs[i] == r;
        assert rs'[i] == r;
      }
      if r in rs' {
        var i :| 0 <= i < |rs'| && rs'[i] == r;
        assert rs[i] == r;
      }
    }
    hide KeyOf, Complete;
  }

  /** When no diagnostic shares its payload with a command, the second run is idle. */
  lemma UnsharedIsIdle(rs: seq<Record>, w: set<nat>)
    requires Touched(rs, w) && forall i | i in w && i < |rs| :: !rs[i].kind.Diagnostics?
    ensures SecondRunIsIdle(rs, w)
  {
    hide Disagree, KeyOf, Joined, SecondRunIsIdle, HasCommandTwin;
    var rs' := Pass(rs, w);
    forall i | 0 <= i < |rs| && IsCommand(rs[i]) ensures AgreesAlike(rs, rs', rs[i].fields.value) {
      SameDescribed(rs, rs', KeyOf(rs[i].fields.value));
    }
    RejoinByAgreement(rs, w);
  }

  // ---- in terms of the input --------------------------------------------------

  /** Position i holds a diagnostic of the command. */
  predicate DescribesAt(rs: seq<Record>, k: Key, i: int) {
    0 <= i < |rs| && Describes(rs[i], k)
  }

  /** The mark a run writes into a diagnostic that shares its payload with a command. */
  ghost function MarkFor(rs: seq<Record>, k: Key, f: Fields): bool {
    Disagree(rs, k) || Get(f, "header_stamp_ns") != Get(f, "stamp_ns")
  }

  /** A diagnostic with its mark, if it is written. */
  ghost function MarkedAt(rs: seq<Record>, w: set<nat>, k: Key, i: int): Fields
    requires DescribesAt(rs, k, i)
  {
    var f := rs[i].fields.value;
    if i in w then Marked(f, MarkFor(rs, k, f)) else f
  }

  /** All diagnostics of the command are written, or none is. */
  ghost predicate AllOrNone(rs: seq<Record>, w: set<nat>, k: Key) {
    forall i, j | DescribesAt(rs, k, i) && DescribesAt(rs, k, j) :: i in w <==> j in w
  }

  ghost predicate CarryMarks(rs: seq<Record>, k: Key) {
    forall i | DescribesAt(rs, k, i) :: var f := rs[i].fields.value; Marked(f, MarkFor(rs, k, f)) == f
  }

  /** Diagnostics that disagree still do with their marks; those that agree are written all or
      none, or carry their marks already. */
  ghost predicate Undisturbed(rs: seq<Record>, w: set<nat>, k: Key) {
    if Disagree(rs, k)
    then exists i, j :: DescribesAt(rs, k, i) && DescribesAt(rs, k, j) && MarkedAt(rs, w, k, i) != MarkedAt(rs, w, k, j)
    else AllOrNone(rs, w, k) || CarryMarks(rs, k)
  }

  ghost predicate AllUndisturbed(rs: seq<Record>, w: set<nat>) {
    forall i | 0 <= i < |rs| && IsCommand(rs[i]) :: Undisturbed(rs, w, KeyOf(rs[i].fields.value))
  }

  lemma DisagreeAt(rs: seq<Record>, k: Key)
    ensures Disagree(rs, k) <==> exists i, j :: DescribesAt(rs, k, i) && DescribesAt(rs, k, j) && rs[i] != rs[j]
  {
    hide Describes;
    if Disagree(rs, k) {
      var r, s :| r in rs && s in rs && Describes(r, k) && Describes(s, k) && r != s;
      var i :| 0 <= i < |rs| && rs[i] == r;
      var j :| 0 <= j < |rs| && rs[j] == s;
      assert DescribesAt(rs, k, i) && DescribesAt(rs, k, j);
    }
  }

  lemma AgreedIsFirst(rs: seq<Record>, k: Key, i: int)
    requires DescribesAt(rs, k, i) && !Disagree(rs, k)
    ensures First(rs, k) == rs[i].fields
  {
    hide KeyOf, Complete;
    assert rs[i] in rs;
    if First(rs, k).Some? { assert Record(Diagnostics, First(rs, k)) in rs; }
  }

  lemma EnrichedByItself(d: Fields)
    ensures Enriched(d, d) == d
  {
    hide PROTECTED;
  }

  /** A run leaves a diagnostic as it is or with its mark. */
  lemma PassMarks(rs: seq<Record>, w: set<nat>, k: Key, i: int)
    requires DescribesAt(rs, k, i)
    ensures Pass(rs, w)[i] == Record(Diagnostics, Some(MarkedAt(rs, w, k, i)))
  {
    hide Disagree, First, Complete, KeyOf, Marked, Enriched, Pass;
    PassAt(rs, w, i);
    var f := rs[i].fields.value;
    EnrichedByItself(f);
    if !Disagree(rs, k) { AgreedIsFirst(rs, k, i); }
  }

  lemma PassDisagrees(rs: seq<Record>, w: set<nat>, k: Key)
    ensures Disagree(Pass(rs, w), k) <==>
            exists i, j :: DescribesAt(rs, k, i) && DescribesAt(rs, k, j) && MarkedAt(rs, w, k, i) != MarkedAt(rs, w, k, j)
  {
    hide Disagree, Describes, Pass, MarkedAt;
    var out := Pass(rs, w);
    DisagreeAt(out, k);
    forall i ensures DescribesAt(rs, k, i) <==> DescribesAt(out, k, i) {
      if 0 <= i < |rs| { PassDescribes(rs, w, k, i); }
    }
    forall i | DescribesAt(rs, k, i) ensures out[i] == Record(Diagnostics, Some(MarkedAt(rs, w, k, i))) {
      PassMarks(rs, w, k, i);
    }
  }

  lemma AgreedAlike(rs: seq<Record>, k: Key, i: int, j: int)
    requires !Disagree(rs, k) && DescribesAt(rs, k, i) && DescribesAt(rs, k, j)
    ensures rs[i].fields == rs[j].fields
  {
    hide Disagree, Describes;
    AgreedIsFirst(rs, k, i);
    AgreedIsFirst(rs, k, j);
  }

  /** Agreeing diagnostics come apart exactly when some are written, some are not, and the mark
      is new. */
  lemma AgreedComeApart(rs: seq<Record>, w: set<nat>, k: Key)
    requires !Disagree(rs, k)
    ensures (exists i, j :: DescribesAt(rs, k, i) && DescribesAt(rs, k, j) && MarkedAt(rs, w, k, i) != MarkedAt(rs, w, k, j)) <==>
            !(AllOrNone(rs, w, k) || CarryMarks(rs, k))
  {
    hide Disagree, Describes, Marked;
    forall i, j | DescribesAt(rs, k, i) && DescribesAt(rs, k, j) ensures 0 <= i < |rs| && 0 <= j < |rs| && rs[i].fields.Some? && rs[i].fields == rs[j].fields {
      DescribedFields(rs, k, i);
      DescribedFields(rs, k, j);
      AgreedAlike(rs, k, i, j);
    }
    if !(AllOrNone(rs, w, k) || CarryMarks(rs, k)) {
      var i, j :| DescribesAt(rs, k, i) && DescribesAt(rs, k, j) && i in w && j !in w;
      var n :| DescribesAt(rs, k, n) && Marked(rs[n].fields.value, MarkFor(rs, k, rs[n].fields.value)) != rs[n].fields.value;
      assert rs[n].fields == rs[i].fields == rs[j].fields;
      assert MarkedAt(rs, w, k, i) != MarkedAt(rs, w, k, j);
    }
  }

  lemma DescribedFields(rs: seq<Record>, k: Key, i: int)
    requires DescribesAt(rs, k, i)
    ensures 0 <= i < |rs| && rs[i].fields.Some?
  {
  }

  lemma UndisturbedExactly(rs: seq<Record>, w: set<nat>, k: Key)
    ensures (Disagree(rs, k) <==> Disagree(Pass(rs, w), k)) <==> Undisturbed(rs, w, k)
  {
    hide Disagree, Describes, MarkedAt, AllOrNone, CarryMarks, Pass;
    PassDisagrees(rs, w, k);
    if !Disagree(rs, k) { AgreedComeApart(rs, w, k); }
  }

  /** Joining twice is joining once, in payloads and issues, exactly when the diagnostics of
      every command are undisturbed: a condition on the input alone, for payloads shared in
      any way and diagnostics marked before or not. */
  lemma RejoinExactly(rs: seq<Record>, w: set<nat>)
    requires Touched(rs, w)
    ensures SecondRunIsIdle(rs, w) <==> AllUndisturbed(rs, w)
  {
    hide SecondRunIsIdle, Touched, Undisturbed, Disagree, Pass, KeyOf;
    RejoinByAgreement(rs, w);
    forall i | 0 <= i < |rs| && IsCommand(rs[i])
      ensures AgreesAlike(rs, Pass(rs, w), rs[i].fields.value) <==> Undisturbed(rs, w, KeyOf(rs[i].fields.value))
    {
      UndisturbedExactly(rs, w, KeyOf(rs[i].fields.value));
    }
  }

  /** No diagnostic was marked before. */
  ghost predicate NoneMarked(rs: seq<Record>) {
    forall r | r in rs && r.kind.Diagnostics? && r.fields.Some? :: MISSING !in r.fields.value
  }

  lemma MarkTells(a: Fields, b: Fields, x: bool)
    requires MISSING !in a && MISSING !in b
    ensures Marked(a, x) != b && (Marked(a, x) == Marked(b, x) ==> a == b)
  {
    assert MISSING in Marked(a, x);
    if Marked(a, x) == Marked(b, x) {
      assert a == Marked(a, x) - {MISSING} && b == Marked(b, x) - {MISSING};
    }
  }

  lemma FreshUndisturbed(rs: seq<Record>, w: set<nat>, k: Key)
    requires NoneMarked(rs)
    ensures Undisturbed(rs, w, k) <==> Disagree(rs, k) || AllOrNone(rs, w, k)
  {
    hide Disagree, Describes, Marked;
    DisagreeAt(rs, k);
    forall i | DescribesAt(rs, k, i) ensures 0 <= i < |rs| && rs[i].fields.Some? && rs[i].kind.Diagnostics? && MISSING !in rs[i].fields.value {
      DescribesIsDiagnostics(rs[i], k);
      assert rs[i] in rs;
    }
    if Disagree(rs, k) {
      var i, j :| DescribesAt(rs, k, i) && DescribesAt(rs, k, j) && rs[i] != rs[j];
      MarkTells(rs[i].fields.value, rs[j].fields.value, true);
      MarkTells(rs[j].fields.value, rs[i].fields.value, true);
      assert MarkedAt(rs, w, k, i) != MarkedAt(rs, w, k, j);
    } else if !AllOrNone(rs, w, k) {
      var i :| DescribesAt(rs, k, i);
      var f := rs[i].fields.value;
      MarkTells(f, f, MarkFor(rs, k, f));
    }
  }

  /** For diagnostics not marked before: a second run is idle exactly when, for every command,
      its diagnostics disagree, or all or none of them share a payload with a command. */
  lemma RejoinFreshExactly(rs: seq<Record>, w: set<nat>)
    requires Touched(rs, w) && NoneMarked(rs)
    ensures SecondRunIsIdle(rs, w) <==>
            forall i | 0 <= i < |rs| && IsCommand(rs[i]) :: Disagree(rs, KeyOf(rs[i].fields.value)) || AllOrNone(rs, w, KeyOf(rs[i].fields.value))
  {
    hide SecondRunIsIdle, Touched, Undisturbed, Disagree, AllOrNone, KeyOf, NoneMarked;
    RejoinExactly(rs, w);
    forall i | 0 <= i < |rs| && IsCommand(rs[i])
      ensures Undisturbed(rs, w, KeyOf(rs[i].fields.value)) <==> Disagree(rs, KeyOf(rs[i].fields.value)) || AllOrNone(rs, w, KeyOf(rs[i].fields.value))
    {
      FreshUndisturbed(rs, w, KeyOf(rs[i].fields.value));
    }
  }

  // ---- by value ---------------------------------------------------------------

  ghost function CommandPositions(rs: seq<Record>): set<nat> {
    set i | 0 <= i < |rs| && IsCommand(rs[i])
  }

  lemma PassIsJoined(rs: seq<Record>)
    ensures Touched(rs, CommandPositions(rs)) && Pass(rs, CommandPositions(rs)) == JoinedRecords(rs)
    ensures CommandPositions(JoinedRecords(rs)) == CommandPositions(rs)
  {
    hide Joined;
  }

  /** With payloads of their own, joining twice is joining once, in payloads and issues. */
  lemma JoinIsIdempotent(rs: seq<Record>)
    ensures JoinedRecords(JoinedRecords(rs)) == JoinedRecords(rs) && IssueList(JoinedRecords(rs)) == IssueList(rs)
  {
    hide Joined, JoinedRecords, Pass, IssueList, Touched;
    PassIsJoined(rs);
    PassIsJoined(JoinedRecords(rs));
    UnsharedIsIdle(rs, CommandPositions(rs));
  }

  // ---- payload objects --------------------------------------------------------

  /** The events whose payload object is that of a command. */
  ghost function Written(es: seq<Event>): set<nat> {
    set i | 0 <= i < |es| && es[i].payload.Some? && es[i].payload.value in Commands(es)
  }

  lemma CommandOf(es: seq<Event>, p: Payload) returns (j: nat)
    requires p in Commands(es)
    ensures j < |es| && es[j].kind.Command? && es[j].payload == Some(p)
  {
    j :| 0 <= j < |es| && es[j].kind.Command? && es[j].payload.Some? && es[j].payload.value == p;
  }

  lemma WrittenIsTouched(es: seq<Event>)
    ensures Touched(View(es), Written(es))
  {
    var rs, w := View(es), Written(es);
    forall i | 0 <= i < |rs| && IsCommand(rs[i]) ensures i in w {
      CommandPayload(es, i);
    }
    forall i | i in w ensures i < |rs| && HasCommandTwin(rs, i) {
      var j := CommandOf(es, es[i].payload.value);
      assert IsCommand(rs[j]) && rs[j].fields == rs[i].fields;
    }
  }

  /** After a run the events show the passed records, whatever payloads are shared. */
  twostate lemma ViewAfterRun(es: seq<Event>)
    requires forall p | p in Commands(es) :: p.fields == Joined(old(View(es)), old(p.fields))
    requires forall p | p in Payloads(es) && p !in Commands(es) :: p.fields == old(p.fields)
    ensures View(es) == Pass(old(View(es)), Written(es))
  {
    hide Joined;
    var rs := old(View(es));
    forall i | 0 <= i < |es| ensures View(es)[i] == Pass(rs, Written(es))[i] {
      assert View(es)[i] == ViewOf(es[i]) && rs[i] == old(ViewOf(es[i]));
      if es[i].payload.Some? {
        PayloadMember(es, i);
      }
    }
  }

  /** One run, with the records it leaves. */
  method JoinOnce(es: seq<Event>) returns (issues: seq<Issue>)
    modifies Commands(es)
    ensures View(es) == Pass(old(View(es)), Written(es)) && issues == IssueList(old(View(es)))
  {
    hide Joined, Pass, IdentityIssues, CommandIssues, Commands;
    label before:
    issues := JoinExecutionDiagnostics(es);
    CommandsWithin(es);
    ViewAfterRun@before(es);
  }

  /** No payload object belongs to both a diagnostic and a command. */
  ghost predicate Apart(es: seq<Event>) {
    forall i, j :: 0 <= i < |es| && 0 <= j < |es| && es[i].kind.Diagnostics? && es[j].kind.Command? && es[i].payload.Some? ==>
      es[i].payload != es[j].payload
  }

  /** The payload of a command belongs to commands only. */
  ghost predicate OwnPayloads(es: seq<Event>) {
    forall i | i in Written(es) :: i < |es| && es[i].kind.Command?
  }

  /** When only commands hold command payloads, a run leaves the joined records. */
  lemma UnsharedView(es: seq<Event>)
    requires OwnPayloads(es)
    ensures Pass(View(es), Written(es)) == JoinedRecords(View(es))
  {
    hide Joined, JoinedRecords, Pass;
    var rs := View(es);
    forall i | 0 <= i < |rs| ensures i in Written(es) <==> i in CommandPositions(rs) {
      if IsCommand(rs[i]) { CommandPayload(es, i); }
    }
    assert Written(es) == CommandPositions(rs);
    PassIsJoined(rs);
  }

  /** Two runs in place. The second changes no payload and returns the same issues exactly
      when the diagnostics are undisturbed; for fresh diagnostics, when those of each command
      disagree or are written all or none. So it is whenever no payload object belongs to both
      a diagnostic and a command. */
  method JoinTwice(es: seq<Event>) returns (first: seq<Issue>, second: seq<Issue>)
    modifies Commands(es)
    ensures first == IssueList(old(View(es)))
    ensures View(es) == Pass(old(View(es)), Written(es)) && second == first <==> old(AllUndisturbed(View(es), Written(es)))
    ensures old(NoneMarked(View(es))) ==>
            (View(es) == Pass(old(View(es)), Written(es)) && second == first <==>
               forall i | 0 <= i < |es| && IsCommand(old(View(es))[i]) ::
                 var k := KeyOf(old(View(es))[i].fields.value); Disagree(old(View(es)), k) || AllOrNone(old(View(es)), Written(es), k))
    ensures Apart(es) ==> View(es) == Pass(old(View(es)), Written(es)) && second == first
    ensures Apart(es) && OwnPayloads(es) ==> View(es) == JoinedRecords(old(View(es)))
  {
    hide Joined, JoinedRecords, Pass, IssueList, AllUndisturbed, AllOrNone, Disagree, KeyOf, NoneMarked, Touched, Written, Commands, Apart, OwnPayloads;
    ghost var rs := View(es);
    WrittenIsTouched(es);
    if OwnPayloads(es) { UnsharedView(es); }
    first := JoinOnce(es);
    second := JoinOnce(es);
    RejoinExactly(rs, Written(es));
    if NoneMarked(rs) { RejoinFreshExactly(rs, Written(es)); }
    if Apart(es) {
      UnsharedPositions(es);
      assert forall i | 0 <= i < |rs| :: rs[i].kind == es[i].kind;
      UnsharedIsIdle(rs, Written(es));
    }
  }

  lemma UnsharedPositions(es: seq<Event>)
    requires Apart(es)
    ensures forall i | i in Written(es) :: i < |es| && !es[i].kind.Diagnostics?
  {
    forall i | i in Written(es) ensures i < |es| && !es[i].kind.Diagnostics? {
      var j := CommandOf(es, es[i].payload.value);
    }
  }

  /** A payload that names its command in full and carries nothing else. */
  function Named(): Fields {
    map["mode_activation_id" := Num(1.0), "localization_epoch" := Num(1.0), "goal_epoch" := Num(1.0), "mission_id" := Num(1.0),
        "waypoint_index" := Num(1.0), "request_id" := Num(1.0), "bundle_generation" := Num(1.0), "sample_id" := Num(1.0)]
  }

  lemma NamedIsComplete()
    ensures Complete(KeyOf(Named())) && Get(Named(), "header_stamp_ns") == Null && Get(Named(), "stamp_ns") == Null && MISSING !in Named()
  {
  }

  /** Records of two equal diagnostics and a command. */
  ghost function Three(x: Fields, y: Fields, z: Fields): seq<Record> {
    [Record(Diagnostics, Some(x)), Record(Diagnostics, Some(y)), Record(Command, Some(z))]
  }

  lemma ThreeIssues(x: Fields, y: Fields, z: Fields)
    requires Complete(KeyOf(x)) && KeyOf(y) == KeyOf(x)
    ensures IssueList(Three(x, y, z)) == CommandIssue(Three(x, y, z), Record(Command, Some(z)))
  {
    hide Complete, KeyOf, CommandIssue;
    var rs := Three(x, y, z);
    assert IdentityIssues([]) == [] && CommandIssues(rs, []) == [];
    hide IdentityIssues, CommandIssues;
    assert rs == [rs[0]] + [rs[1]] + [rs[2]] && [] + [rs[0]] == [rs[0]];
    IssueStep([], rs[0]);
    IssueStep([rs[0]], rs[1]);
    IssueStep([rs[0]] + [rs[1]], rs[2]);
    CommandIssueStep(rs, [], rs[0]);
    CommandIssueStep(rs, [rs[0]], rs[1]);
    CommandIssueStep(rs, [rs[0]] + [rs[1]], rs[2]);
    NoCommandIssue(rs, rs[0]);
    NoCommandIssue(rs, rs[1]);
  }

  lemma EqualDiagnosticsMatch(x: Fields)
    requires Complete(KeyOf(x)) && Get(x, "header_stamp_ns") == Get(x, "stamp_ns")
    ensures OutcomeOf(Three(x, x, x), x) == Matched(x)
  {
    hide Complete, KeyOf;
    var rs := Three(x, x, x);
    MatchedIsAgreed(rs, x, x);
    assert forall r | r in rs && r.kind.Diagnostics? :: r == rs[0];
    assert rs[0] in rs;
  }

  lemma DifferentDiagnosticsDisagree(x: Fields, y: Fields, z: Fields)
    requires x != y && Complete(KeyOf(x)) && KeyOf(y) == KeyOf(x) && KeyOf(z) == KeyOf(x)
    ensures OutcomeOf(Three(x, y, z), z).Contradicted?
  {
    hide Complete, KeyOf;
    var rs := Three(x, y, z);
    assert rs[0] in rs && rs[1] in rs && rs[0] != rs[1];
  }

  /** Two equal diagnostics, one of them sharing its payload with the command: the first run
      enriches and reports nothing, the second finds the diagnostics in conflict. */
  lemma SharedPayloadConflicts()
    ensures var rs, w := Three(Named(), Named(), Named()), {0, 2};
            Touched(rs, w) && IssueList(rs) == [] && IssueList(Pass(rs, w)) == [Conflict]
  {
    hide Named, Complete, KeyOf, OutcomeOf, Joined, IssueList, Pass, Touched, Three, SameProtected;
    var x := Named();
    NamedIsComplete();
    var rs := Three(x, x, x);
    EqualDiagnosticsMatch(x);
    ThreeIssues(x, x, x);
    MatchedRaisesNothing(rs, x);
    var y := Joined(rs, x);
    ProtectedFieldsKept(rs, x);
    ProtectedIdentity(y, x);
    JoinedIsMarked(rs, x);
    SharedPass(x);
    DifferentDiagnosticsDisagree(y, x, y);
    ThreeIssues(y, x, y);
    DisagreementIsConflict(Three(y, x, y), y);
  }

  lemma MatchedRaisesNothing(rs: seq<Record>, x: Fields)
    requires OutcomeOf(rs, x).Matched?
    ensures CommandIssue(rs, Record(Command, Some(x))) == []
  {
    hide OutcomeOf;
  }

  lemma DisagreementIsConflict(rs: seq<Record>, x: Fields)
    requires OutcomeOf(rs, x).Contradicted?
    ensures CommandIssue(rs, Record(Command, Some(x))) == [Conflict]
  {
    hide OutcomeOf;
  }

  lemma JoinedIsMarked(rs: seq<Record>, x: Fields)
    ensures MISSING in Joined(rs, x)
  {
    hide OutcomeOf, Enriched;
  }

  /** Payloads 0 and 2 are one object. */
  lemma SharedPass(x: Fields)
    ensures var rs, w := Three(x, x, x), {0, 2};
            Touched(rs, w) && Pass(rs, w) == Three(Joined(rs, x), x, Joined(rs, x))
  {
    hide Joined;
    var rs, w := Three(x, x, x), {0, 2};
    assert IsCommand(rs[2]) && HasCommandTwin(rs, 0) && HasCommandTwin(rs, 2);
    assert forall i | 0 <= i < 3 :: Pass(rs, w)[i] == PassedOne(rs, w, i);
  }

  lemma SharedShape(a: Payload, b: Payload, es: seq<Event>)
    requires a != b && a.fields == b.fields
    requires es == [Event(Diagnostics, Some(a)), Event(Diagnostics, Some(b)), Event(Command, Some(a))]
    ensures View(es) == Three(a.fields, a.fields, a.fields) && Commands(es) == {a} && Written(es) == {0, 2}
  {
    assert forall i | 0 <= i < 3 :: View(es)[i] == ViewOf(es[i]);
    hide View;
    assert es[2].payload.value in Commands(es);
  }

  /** The same on objects. */
  method SharedPayloadRun() returns (first: seq<Issue>, second: seq<Issue>)
    ensures first == [] && second == [Conflict]
  {
    hide Pass, IssueList, Named, View, Written, Commands, Three;
    var a := new Payload(Named());
    var b := new Payload(Named());
    var es := [Event(Diagnostics, Some(a)), Event(Diagnostics, Some(b)), Event(Command, Some(a))];
    SharedShape(a, b, es);
    SharedPayloadConflicts();
    first := JoinOnce(es);
    second := JoinOnce(es);
  }
}
