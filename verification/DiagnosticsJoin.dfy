/** The offline join that copies observer diagnostics into the payloads of the commands they
    describe, in place, without touching what the command controls. */
module DiagnosticsJoin {
  import opened Values

  /** Field values are taken up to Python equality, so equal means identical here. */
  type Fields = map<string, Value>

  type Key = seq<Value>

  const IDENTITY: seq<string> := [
    "mode_activation_id", "localization_epoch", "goal_epoch", "mission_id",
    "waypoint_index", "request_id", "bundle_generation", "sample_id"
  ]

  const PROTECTED: set<string> := {
    "mode_activation_id", "localization_epoch", "goal_epoch", "mission_id",
    "waypoint_index", "request_id", "bundle_generation", "sample_id",
    "stamp_ns", "source_clock", "frame_id", "valid_until_ns", "state_source_stamp_ns",
    "world_generation", "world_revision", "world_observation_stamp_ns", "trajectory_id",
    "trajectory_generation", "trajectory_time_s", "trajectory_status", "trajectory_flag",
    "role", "status", "position", "velocity", "acceleration", "jerk", "yaw", "yaw_rate", "executable"
  }

  const MISSING: string := "execution_diagnostic_missing"

  datatype Issue = IdentityMissing | Conflict | StampMismatch

  datatype Kind = Diagnostics | Command | OtherKind

  /** An event by value: its kind and its payload, when that is a dictionary. */
  datatype Record = Record(kind: Kind, fields: Option<Fields>)

  function Get(m: Fields, f: string): Value {
    if f in m then m[f] else Null
  }

  function KeyOf(m: Fields): (k: Key)
    ensures |k| == |IDENTITY|
  {
    seq(|IDENTITY|, i requires 0 <= i < |IDENTITY| => Get(m, IDENTITY[i]))
  }

  predicate Complete(k: Key) {
    forall i :: 0 <= i < |k| ==> k[i] != Null
  }

  /** The record is a diagnostic that fully names its command. */
  predicate Describes(r: Record, k: Key) {
    r.kind.Diagnostics? && r.fields.Some? && KeyOf(r.fields.value) == k && Complete(k)
  }

  // ---- specification ----------------------------------------------------------

  function First(rs: seq<Record>, k: Key): (d: Option<Fields>)
    ensures d.Some? ==> Record(Diagnostics, d) in rs && Describes(Record(Diagnostics, d), k)
    ensures d.None? ==> forall r | r in rs :: !Describes(r, k)
  {
    if rs == [] then None
    else
      var n := |rs| - 1;
      var earlier := First(rs[..n], k);
      assert forall r | r in rs :: r in rs[..n] || r == rs[n];
      if earlier.Some? then earlier else if Describes(rs[n], k) then rs[n].fields else None
  }

  /** Two diagnostics of one command disagree. */
  ghost predicate Disagree(rs: seq<Record>, k: Key) {
    exists r, s :: r in rs && s in rs && Describes(r, k) && Describes(s, k) && r != s
  }

  datatype Outcome = Absent | Contradicted | Mismatched | Matched(diagnostic: Fields)

  ghost function OutcomeOf(rs: seq<Record>, c: Fields): Outcome {
    var d := First(rs, KeyOf(c));
    if Disagree(rs, KeyOf(c)) then Contradicted
    else if d.None? then Absent
    else if Get(d.value, "header_stamp_ns") != Get(c, "stamp_ns") then Mismatched
    else Matched(d.value)
  }

  function Marked(c: Fields, missing: bool): Fields {
    c[MISSING := Flag(missing)]
  }

  /** Every unprotected field of the diagnostic replaces the command's. */
  function Enriched(c: Fields, d: Fields): Fields {
    c + map f | f in d && f !in PROTECTED :: d[f]
  }

  ghost function Joined(rs: seq<Record>, c: Fields): Fields {
    match OutcomeOf(rs, c)
    case Matched(d) => Marked(Enriched(c, d), false)
    case _ => Marked(c, true)
  }

  ghost function JoinedRecord(rs: seq<Record>, r: Record): Record {
    if r.kind.Command? && r.fields.Some? then Record(Command, Some(Joined(rs, r.fields.value))) else r
  }

  ghost function JoinedRecords(rs: seq<Record>): seq<Record> {
    seq(|rs|, i requires 0 <= i < |rs| => JoinedRecord(rs, rs[i]))
  }

  function IdentityIssue(r: Record): seq<Issue> {
    if r.kind.Diagnostics? && r.fields.Some? && !Complete(KeyOf(r.fields.value)) then [IdentityMissing] else []
  }

  ghost function CommandIssue(rs: seq<Record>, r: Record): seq<Issue> {
    if !(r.kind.Command? && r.fields.Some?) then []
    else match OutcomeOf(rs, r.fields.value)
      case Contradicted => [Conflict]
      case Mismatched => [StampMismatch]
      case _ => []
  }

  ghost function IdentityIssues(rs: seq<Record>): seq<Issue> {
    if rs == [] then [] else IdentityIssues(rs[..|rs| - 1]) + IdentityIssue(rs[|rs| - 1])
  }

  ghost function CommandIssues(all: seq<Record>, rs: seq<Record>): seq<Issue> {
    if rs == [] then [] else CommandIssues(all, rs[..|rs| - 1]) + CommandIssue(all, rs[|rs| - 1])
  }

  // ---- the join in place ------------------------------------------------------

  class Payload {
    var fields: Fields

    constructor (fields: Fields)
      ensures this.fields == fields
    {
      this.fields := fields;
    }
  }

  datatype Event = Event(kind: Kind, payload: Option<Payload>)

  ghost function Payloads(es: seq<Event>): set<Payload> {
    set i | 0 <= i < |es| && es[i].payload.Some? :: es[i].payload.value
  }

  /** The payloads the join may write. */
  ghost function Commands(es: seq<Event>): set<Payload> {
    set i | 0 <= i < |es| && es[i].kind.Command? && es[i].payload.Some? :: es[i].payload.value
  }

  ghost function ViewOf(e: Event): Record
    reads if e.payload.Some? then {e.payload.value} else {}
  {
    Record(e.kind, if e.payload.Some? then Some(e.payload.value.fields) else None)
  }

  ghost function View(es: seq<Event>): (rs: seq<Record>)
    reads Payloads(es)
    ensures |rs| == |es| && forall i :: 0 <= i < |es| ==> rs[i] == ViewOf(es[i])
  {
    if es == [] then [] else View(es[..|es| - 1]) + [ViewOf(es[|es| - 1])]
  }

  lemma ViewStep(es: seq<Event>, i: nat)
    requires i < |es|
    ensures View(es[..i + 1]) == View(es[..i]) + [ViewOf(es[i])]
  {
    assert es[..i + 1][..i] == es[..i];
  }

  /** The diagnostics seen so far, by key: the first payload object, and who disagrees. */
  ghost predicate Indexed(rs: seq<Record>, byKey: map<Key, Payload>, conflicting: set<Key>)
    reads byKey.Values
  {
    && (forall k :: k in byKey <==> First(rs, k).Some?)
    && (forall k | k in byKey :: First(rs, k) == Some(byKey[k].fields))
    && (forall k :: k in conflicting <==> Disagree(rs, k))
  }

  lemma FirstStep(rs: seq<Record>, r: Record, k: Key)
    ensures First(rs + [r], k) == if First(rs, k).Some? then First(rs, k) else if Describes(r, k) then r.fields else None
  {
    assert (rs + [r])[..|rs|] == rs;
  }

  lemma DisagreeStep(rs: seq<Record>, r: Record, k: Key)
    ensures Disagree(rs + [r], k) <==> Disagree(rs, k) || (Describes(r, k) && First(rs, k).Some? && First(rs, k) != r.fields)
  {
    hide Describes, First;
    var all := rs + [r];
    assert forall x :: x in all <==> x in rs || x == r;
    var d := First(rs, k);
    if Disagree(all, k) && !Disagree(rs, k) {
      var x, y :| x in all && y in all && Describes(x, k) && Describes(y, k) && x != y;
      DescribesIsDiagnostics(x, k);
      DescribesIsDiagnostics(y, k);
    }
    if Describes(r, k) && d.Some? && d != r.fields {
      DescribesIsDiagnostics(r, k);
      assert Record(Diagnostics, d) in all && Record(Diagnostics, d) != r;
    }
  }

  lemma DescribesIsDiagnostics(r: Record, k: Key)
    requires Describes(r, k)
    ensures r == Record(Diagnostics, r.fields) && r.fields.Some?
  {
  }

  lemma IndexedStep(rs: seq<Record>, r: Record, byKey: map<Key, Payload>, conflicting: set<Key>, p: Payload, added: map<Key, Payload>, disputed: set<Key>)
    requires Indexed(rs, byKey, conflicting) && r == Record(Diagnostics, Some(p.fields)) && Complete(KeyOf(p.fields))
    requires var k := KeyOf(p.fields);
             && added == (if k in byKey then byKey else byKey[k := p])
             && disputed == conflicting + (if added[k].fields != p.fields then {k} else {})
    ensures Indexed(rs + [r], added, disputed)
  {
    hide First, Disagree, KeyOf, Complete;
    forall k
      ensures First(rs + [r], k) == if First(rs, k).Some? then First(rs, k) else if Describes(r, k) then r.fields else None
      ensures Disagree(rs + [r], k) <==> Disagree(rs, k) || (Describes(r, k) && First(rs, k).Some? && First(rs, k) != r.fields)
    {
      FirstStep(rs, r, k);
      DisagreeStep(rs, r, k);
    }
  }

  lemma IndexedSkip(rs: seq<Record>, r: Record, byKey: map<Key, Payload>, conflicting: set<Key>)
    requires Indexed(rs, byKey, conflicting) && forall k :: !Describes(r, k)
    ensures Indexed(rs + [r], byKey, conflicting)
  {
    hide First, Disagree, Describes;
    forall k
      ensures First(rs + [r], k) == First(rs, k)
      ensures Disagree(rs + [r], k) <==> Disagree(rs, k)
    {
      FirstStep(rs, r, k);
      DisagreeStep(rs, r, k);
    }
  }

  lemma NothingIndexed()
    ensures Indexed([], map[], {})
  {
  }

  lemma IssueStep(rs: seq<Record>, r: Record)
    ensures IdentityIssues(rs + [r]) == IdentityIssues(rs) + IdentityIssue(r)
  {
    assert (rs + [r])[..|rs|] == rs;
  }

  lemma CommandIssueStep(all: seq<Record>, rs: seq<Record>, r: Record)
    ensures CommandIssues(all, rs + [r]) == CommandIssues(all, rs) + CommandIssue(all, r)
  {
    assert (rs + [r])[..|rs|] == rs;
  }

  /** First pass: the diagnostics by key, and the keys that carry different diagnostics. */
  method IndexDiagnostics(es: seq<Event>) returns (byKey: map<Key, Payload>, conflicting: set<Key>, issues: seq<Issue>)
    ensures byKey.Values <= Payloads(es)
    ensures Indexed(View(es), byKey, conflicting)
    ensures issues == IdentityIssues(View(es))
  {
    hide Indexed, KeyOf, Complete, First;
    byKey, conflicting, issues := map[], {}, [];
    NothingIndexed();
    assert View(es[..0]) == [];
    assert issues == IdentityIssues(View(es[..0]));
    for i := 0 to |es|
      invariant byKey.Values <= Payloads(es)
      invariant Indexed(View(es[..i]), byKey, conflicting)
      invariant issues == IdentityIssues(View(es[..i]))
    {
      ghost var r := ViewOf(es[i]);
      ViewStep(es, i);
      IssueStep(View(es[..i]), r);
      if !es[i].kind.Diagnostics? || es[i].payload.None? {
        IndexedSkip(View(es[..i]), r, byKey, conflicting);
        continue;
      }
      var payload := es[i].payload.value;
      var key := KeyOf(payload.fields);
      if !Complete(key) {
        issues := issues + [IdentityMissing];
        IndexedSkip(View(es[..i]), r, byKey, conflicting);
        continue;
      }
      var added := if key in byKey then byKey else byKey[key := payload];
      var disputed := conflicting + (if added[key].fields != payload.fields then {key} else {});
      IndexedStep(View(es[..i]), r, byKey, conflicting, payload, added, disputed);
      byKey, conflicting := added, disputed;
    }
    assert es[..|es|] == es;
  }

  // ---- what a join does to one payload ----------------------------------------

  lemma MarkIsNotProtected()
    ensures MISSING !in PROTECTED && MISSING !in IDENTITY && MISSING != "stamp_ns" && MISSING != "header_stamp_ns"
  {
  }

  lemma IdentityIsProtected(i: nat)
    requires i < |IDENTITY|
    ensures IDENTITY[i] in PROTECTED
  {
  }

  ghost predicate SameProtected(a: Fields, b: Fields) {
    forall f | f in PROTECTED :: (f in a <==> f in b) && Get(a, f) == Get(b, f)
  }

  /** The join never changes, adds or removes a protected control field. */
  lemma ProtectedFieldsKept(rs: seq<Record>, c: Fields)
    ensures SameProtected(Joined(rs, c), c)
  {
    hide OutcomeOf;
    var protected, missing := PROTECTED, MISSING;
    MarkIsNotProtected();
    forall f | f in PROTECTED ensures (f in Joined(rs, c) <==> f in c) && Get(Joined(rs, c), f) == Get(c, f) {
      hide PROTECTED, MISSING, IDENTITY;
    }
  }

  lemma ProtectedIdentity(a: Fields, b: Fields)
    requires SameProtected(a, b)
    ensures KeyOf(a) == KeyOf(b) && Get(a, "stamp_ns") == Get(b, "stamp_ns")
  {
    forall i | 0 <= i < |IDENTITY| ensures KeyOf(a)[i] == KeyOf(b)[i] {
      IdentityIsProtected(i);
      assert IDENTITY[i] in PROTECTED;
      hide PROTECTED, IDENTITY;
    }
    assert "stamp_ns" in PROTECTED;
  }

  /** The payloads agree on everything but the missing-diagnostic mark. */
  ghost predicate SameButMark(a: Fields, b: Fields) {
    forall f | f != MISSING :: (f in a <==> f in b) && Get(a, f) == Get(b, f)
  }

  lemma SameButMarkEnriches(c: Fields, d: Fields, d': Fields)
    requires SameButMark(d, d')
    ensures Marked(Enriched(c, d), false) == Marked(Enriched(c, d'), false)
  {
    hide PROTECTED;
    assert Marked(Enriched(c, d), false).Keys == Marked(Enriched(c, d'), false).Keys;
    forall f | f in Marked(Enriched(c, d), false) ensures Marked(Enriched(c, d), false)[f] == Marked(Enriched(c, d'), false)[f] {
      if f != MISSING && f in d {
        assert Get(d, f) == Get(d', f);
      }
    }
  }

  lemma EnrichedTwice(c: Fields, d: Fields)
    ensures Marked(Enriched(Marked(Enriched(c, d), false), d), false) == Marked(Enriched(c, d), false)
  {
    hide PROTECTED, MISSING;
  }

  /** A diagnostic payload that serves as a command payload too only changes its mark. */
  lemma FirstJoinsItself(rs: seq<Record>, k: Key)
    requires First(rs, k).Some?
    ensures SameButMark(Joined(rs, First(rs, k).value), First(rs, k).value)
  {
    hide Disagree, PROTECTED;
    var d := First(rs, k).value;
    assert KeyOf(d) == k;
    hide First, KeyOf;
    assert Enriched(d, d) == d;
  }

  lemma OutcomeOfSame(rs: seq<Record>, a: Fields, b: Fields)
    requires SameProtected(a, b)
    ensures OutcomeOf(rs, a) == OutcomeOf(rs, b)
  {
    hide Disagree, First, KeyOf, SameProtected;
    ProtectedIdentity(a, b);
  }

  lemma JoinedTwice(rs: seq<Record>, c: Fields)
    ensures Joined(rs, Joined(rs, c)) == Joined(rs, c)
  {
    hide OutcomeOf, SameProtected, Enriched, Marked;
    ProtectedFieldsKept(rs, c);
    OutcomeOfSame(rs, Joined(rs, c), c);
    MarkedTwice(c);
    if OutcomeOf(rs, c).Matched? {
      EnrichedTwice(c, OutcomeOf(rs, c).diagnostic);
    }
  }

  lemma MarkedTwice(c: Fields)
    ensures Marked(Marked(c, true), true) == Marked(c, true)
  {
  }

  /** The unprotected fields of d outside rest, copied into c. */
  function CopiedBut(c: Fields, d: Fields, rest: set<string>): Fields {
    c + map f | f in d && f !in rest && f !in PROTECTED :: d[f]
  }

  lemma CopyStep(c: Fields, d: Fields, rest: set<string>, f: string)
    requires f in rest && f in d
    ensures CopiedBut(c, d, rest - {f}) == if f in PROTECTED then CopiedBut(c, d, rest) else CopiedBut(c, d, rest)[f := d[f]]
  {
    hide PROTECTED;
    var a := map g | g in d && g !in rest && g !in PROTECTED :: d[g];
    var b := map g | g in d && g !in rest - {f} && g !in PROTECTED :: d[g];
    if f in PROTECTED {
      assert a == b;
    } else {
      assert b == a[f := d[f]];
      assert c + b == (c + a)[f := d[f]];
    }
  }

  lemma CopyEnds(c: Fields, d: Fields)
    ensures CopiedBut(c, d, d.Keys) == c && CopiedBut(c, d, {}) == Enriched(c, d)
  {
    hide PROTECTED;
    assert CopiedBut(c, d, d.Keys).Keys == c.Keys;
    assert (map f | f in d && f !in {} && f !in PROTECTED :: d[f]) == map f | f in d && f !in PROTECTED :: d[f];
  }

  method Enrich(c: Fields, d: Fields) returns (r: Fields)
    ensures r == Enriched(c, d)
  {
    hide PROTECTED, CopiedBut, Enriched;
    r := c;
    var rest := d.Keys;
    CopyEnds(c, d);
    while rest != {}
      invariant rest <= d.Keys
      invariant r == CopiedBut(c, d, rest)
      decreases |rest|
    {
      var f :| f in rest;
      CopyStep(c, d, rest, f);
      if f !in PROTECTED {
        r := r[f := d[f]];
      }
      rest := rest - {f};
    }
  }

  // ---- the whole join ---------------------------------------------------------

  lemma CommandPayload(es: seq<Event>, i: nat)
    requires i < |es| && es[i].kind.Command? && es[i].payload.Some?
    ensures es[i].payload.value in Commands(es)
  {
  }

  /** The outcome the second pass reads off its index, for a diagnostic that may have been
      marked in the meantime. */
  lemma OutcomeFromIndex(rs: seq<Record>, c: Fields, d: Fields, disputed: bool)
    requires disputed <==> Disagree(rs, KeyOf(c))
    requires First(rs, KeyOf(c)).Some? && SameButMark(d, First(rs, KeyOf(c)).value)
    ensures !disputed && Get(d, "header_stamp_ns") != Get(c, "stamp_ns") ==> OutcomeOf(rs, c) == Mismatched
    ensures !disputed && Get(d, "header_stamp_ns") == Get(c, "stamp_ns") ==>
              OutcomeOf(rs, c).Matched? && Joined(rs, c) == Marked(Enriched(c, d), false)
  {
    hide Disagree, First, KeyOf, Enriched, Marked, PROTECTED;
    var first := First(rs, KeyOf(c)).value;
    assert Get(d, "header_stamp_ns") == Get(first, "header_stamp_ns");
    SameButMarkEnriches(c, d, first);
  }

  /** One command of the second pass, given its index entry. */
  method JoinPayload(ghost rs: seq<Record>, payload: Payload, diagnostic: Option<Payload>, disputed: bool) returns (issues: seq<Issue>)
    requires disputed <==> Disagree(rs, KeyOf(payload.fields))
    requires diagnostic.Some? <==> First(rs, KeyOf(payload.fields)).Some?
    requires diagnostic.Some? ==> SameButMark(diagnostic.value.fields, First(rs, KeyOf(payload.fields)).value)
    modifies payload
    ensures payload.fields == Joined(rs, old(payload.fields))
    ensures issues == CommandIssue(rs, Record(Command, Some(old(payload.fields))))
  {
    hide Disagree, First, KeyOf, Enriched, SameButMark;
    if diagnostic.Some? {
      OutcomeFromIndex(rs, payload.fields, diagnostic.value.fields, disputed);
    }
    if disputed {
      payload.fields := Marked(payload.fields, true);
      return [Conflict];
    }
    if diagnostic.None? {
      payload.fields := Marked(payload.fields, true);
      return [];
    }
    if Get(diagnostic.value.fields, "header_stamp_ns") != Get(payload.fields, "stamp_ns") {
      payload.fields := Marked(payload.fields, true);
      return [StampMismatch];
    }
    var enriched := Enrich(payload.fields, diagnostic.value.fields);
    payload.fields := Marked(enriched, false);
    return [];
  }

  lemma PayloadMember(es: seq<Event>, i: nat)
    requires i < |es| && es[i].payload.Some?
    ensures es[i].payload.value in Payloads(es)
  {
  }

  /** The commands of one more event. */
  lemma CommandsStep(es: seq<Event>, i: nat)
    requires i < |es|
    ensures Commands(es[..i + 1]) == Commands(es[..i]) + if es[i].kind.Command? && es[i].payload.Some? then {es[i].payload.value} else {}
    ensures Commands(es[..i + 1]) <= Commands(es) && Commands(es) <= Payloads(es)
  {
    var more := es[..i + 1];
    assert forall j :: 0 <= j < i ==> more[j] == es[..i][j];
    assert more[i] == es[i];
  }

  lemma Unmarked(a: Fields)
    ensures SameButMark(a, a)
  {
  }

  /** What the second pass holds about the payloads: joined when already visited. */
  ghost predicate Progress(rs: seq<Record>, before: map<Payload, Fields>, visited: set<Payload>)
    reads before.Keys
  {
    forall p | p in before :: p.fields == if p in visited then Joined(rs, before[p]) else before[p]
  }

  /** The index as it was built, whatever has been marked since. */
  ghost predicate IndexedAt(rs: seq<Record>, byKey: map<Key, Payload>, conflicting: set<Key>, before: map<Payload, Fields>) {
    && (forall k :: k in byKey <==> First(rs, k).Some?)
    && (forall k | k in byKey :: byKey[k] in before && First(rs, k) == Some(before[byKey[k]]))
    && (forall k :: k in conflicting <==> Disagree(rs, k))
  }

  lemma EntryStillServes(rs: seq<Record>, byKey: map<Key, Payload>, conflicting: set<Key>, before: map<Payload, Fields>, visited: set<Payload>, c: Payload)
    requires Progress(rs, before, visited) && IndexedAt(rs, byKey, conflicting, before) && c in before
    ensures KeyOf(c.fields) == KeyOf(before[c])
    ensures var k := KeyOf(c.fields);
            && (k in conflicting <==> Disagree(rs, k))
            && (k in byKey <==> First(rs, k).Some?)
            && (k in byKey ==> SameButMark(byKey[k].fields, First(rs, k).value))
  {
    hide First, Disagree, KeyOf, Joined, SameButMark, SameProtected;
    ProtectedFieldsKept(rs, before[c]);
    if c in visited { ProtectedIdentity(c.fields, before[c]); }
    var k := KeyOf(c.fields);
    if k in byKey {
      FirstJoinsItself(rs, k);
      Unmarked(First(rs, k).value);
    }
  }

  /** A command joined again, or for the first time, ends up the same. */
  lemma JoinedNow(rs: seq<Record>, before: map<Payload, Fields>, visited: set<Payload>, c: Payload)
    requires Progress(rs, before, visited) && c in before
    ensures Joined(rs, c.fields) == Joined(rs, before[c])
    ensures CommandIssue(rs, Record(Command, Some(c.fields))) == CommandIssue(rs, Record(Command, Some(before[c])))
  {
    hide OutcomeOf, Joined, SameProtected;
    if c in visited {
      JoinedTwice(rs, before[c]);
      ProtectedFieldsKept(rs, before[c]);
      OutcomeOfSame(rs, c.fields, before[c]);
    }
  }

  /** One command of the second pass. */
  method JoinCommand(
    ghost rs: seq<Record>, ghost before: map<Payload, Fields>, ghost visited: set<Payload>,
    byKey: map<Key, Payload>, conflicting: set<Key>, payload: Payload) returns (issues: seq<Issue>)
    requires Progress(rs, before, visited) && IndexedAt(rs, byKey, conflicting, before) && payload in before
    modifies payload
    ensures Progress(rs, before, visited + {payload})
    ensures issues == CommandIssue(rs, Record(Command, Some(before[payload])))
  {
    hide Joined, First, Disagree, KeyOf, CommandIssue, SameButMark, IndexedAt;
    EntryStillServes(rs, byKey, conflicting, before, visited, payload);
    JoinedNow(rs, before, visited, payload);
    var key := KeyOf(payload.fields);
    issues := JoinPayload(rs, payload, if key in byKey then Some(byKey[key]) else None, key in conflicting);
  }

  /** The records are those of the events, with the payloads as they were before. */
  ghost predicate Recorded(rs: seq<Record>, es: seq<Event>, before: map<Payload, Fields>) {
    && |rs| == |es|
    && forall i | 0 <= i < |es| ::
         && rs[i].kind == es[i].kind && (rs[i].fields.Some? <==> es[i].payload.Some?)
         && (es[i].payload.Some? ==> es[i].payload.value in before && rs[i].fields.value == before[es[i].payload.value])
  }

  /** Second pass: every command, in order. */
  method JoinCommands(
    ghost rs: seq<Record>, ghost before: map<Payload, Fields>, es: seq<Event>, byKey: map<Key, Payload>, conflicting: set<Key>)
    returns (issues: seq<Issue>)
    requires Recorded(rs, es, before) && Progress(rs, before, {}) && IndexedAt(rs, byKey, conflicting, before)
    modifies Commands(es)
    ensures Progress(rs, before, Commands(es))
    ensures issues == CommandIssues(rs, rs)
  {
    hide IndexedAt, CommandIssue, CommandIssues, Progress, Commands;
    issues := [];
    NoCommandIssues(rs);
    CommandsWithin(es);
    for i := 0 to |es|
      invariant Progress(rs, before, Commands(es[..i]))
      invariant issues == CommandIssues(rs, rs[..i])
    {
      CommandsStep(es, i);
      CommandIssueStep(rs, rs[..i], rs[i]);
      assert rs[..i + 1] == rs[..i] + [rs[i]];
      if es[i].kind.Command? && es[i].payload.Some? {
        CommandPayload(es, i);
        var more := JoinCommand(rs, before, Commands(es[..i]), byKey, conflicting, es[i].payload.value);
        assert rs[i] == Record(Command, Some(before[es[i].payload.value]));
        issues := issues + more;
      } else {
        NoCommandIssue(rs, rs[i]);
        assert Commands(es[..i + 1]) == Commands(es[..i]);
      }
    }
    assert es[..|es|] == es && rs[..|rs|] == rs;
  }

  /** Joins every command in place: each command payload becomes its joined value, and no
      other payload changes. */
  method JoinExecutionDiagnostics(es: seq<Event>) returns (issues: seq<Issue>)
    modifies Commands(es)
    ensures forall p | p in Commands(es) :: p.fields == Joined(old(View(es)), old(p.fields))
    ensures issues == IdentityIssues(old(View(es))) + CommandIssues(old(View(es)), old(View(es)))
  {
    hide Joined, IdentityIssues, Indexed, IndexedAt, CommandIssues, Commands;
    ghost var rs := View(es);
    ghost var before := map p | p in Payloads(es) :: p.fields;
    var byKey, conflicting, found := IndexDiagnostics(es);
    IndexKept(rs, byKey, conflicting, before);
    CommandsWithin(es);
    RecordsOf(es, before);
    var more := JoinCommands(rs, before, es, byKey, conflicting);
    issues := found + more;
  }

  lemma NoCommandIssues(rs: seq<Record>)
    ensures CommandIssues(rs, rs[..0]) == []
  {
  }

  lemma RecordsOf(es: seq<Event>, before: map<Payload, Fields>)
    requires before.Keys == Payloads(es) && forall p | p in before :: before[p] == p.fields
    ensures Recorded(View(es), es, before)
  {
    forall i | 0 <= i < |es| && es[i].payload.Some? ensures es[i].payload.value in before {
      PayloadMember(es, i);
    }
    assert forall i | 0 <= i < |es| :: View(es)[i] == ViewOf(es[i]);
  }

  lemma NoCommandIssue(rs: seq<Record>, r: Record)
    requires !(r.kind.Command? && r.fields.Some?)
    ensures CommandIssue(rs, r) == []
  {
  }

  lemma CommandsWithin(es: seq<Event>)
    ensures Commands(es) <= Payloads(es) && Commands(es[..0]) == {}
  {
  }

  lemma IndexKept(rs: seq<Record>, byKey: map<Key, Payload>, conflicting: set<Key>, before: map<Payload, Fields>)
    requires Indexed(rs, byKey, conflicting) && byKey.Values <= before.Keys
    requires forall p | p in before :: before[p] == p.fields
    ensures IndexedAt(rs, byKey, conflicting, before)
  {
    hide First, Disagree;
    assert forall k | k in byKey :: byKey[k] in byKey.Values;
  }

  // ---- what the join promises -------------------------------------------------

  /** All diagnostics that name the command are this one, and there is one. */
  ghost predicate Agreed(rs: seq<Record>, k: Key, d: Fields) {
    && Record(Diagnostics, Some(d)) in rs && Describes(Record(Diagnostics, Some(d)), k)
    && forall r | r in rs && Describes(r, k) :: r.fields == Some(d)
  }

  ghost predicate Enriches(rs: seq<Record>, c: Fields, d: Fields) {
    Agreed(rs, KeyOf(c), d) && Get(d, "header_stamp_ns") == Get(c, "stamp_ns")
  }

  lemma MatchedIsAgreed(rs: seq<Record>, c: Fields, d: Fields)
    ensures OutcomeOf(rs, c) == Matched(d) <==> Enriches(rs, c, d)
  {
    hide KeyOf, Complete;
    var k := KeyOf(c);
    if Agreed(rs, k, d) {
      assert First(rs, k) == Some(d);
      assert !Disagree(rs, k);
    }
    if First(rs, k) == Some(d) && !Disagree(rs, k) {
      forall r | r in rs && Describes(r, k) ensures r.fields == Some(d) {
        DescribesIsDiagnostics(r, k);
      }
    }
  }

  /** A command is enriched exactly when its diagnostics are one and the same, there is one,
      and the stamps match; then every unprotected field of it is copied and the rest stays.
      Otherwise only the mark changes. */
  lemma EnrichedExactly(rs: seq<Record>, c: Fields)
    ensures Get(Joined(rs, c), MISSING) == Flag(false) <==> exists d :: Enriches(rs, c, d)
    ensures forall d | Enriches(rs, c, d) ::
              forall f | f != MISSING :: Get(Joined(rs, c), f) == if f in d && f !in PROTECTED then d[f] else Get(c, f)
    ensures (forall d :: !Enriches(rs, c, d)) ==> Joined(rs, c) == Marked(c, true)
  {
    hide OutcomeOf, Enriches, PROTECTED;
    forall d ensures OutcomeOf(rs, c) == Matched(d) <==> Enriches(rs, c, d) {
      MatchedIsAgreed(rs, c, d);
    }
    if OutcomeOf(rs, c).Matched? {
      assert Enriches(rs, c, OutcomeOf(rs, c).diagnostic);
    }
  }

  lemma SameRecords(rs: seq<Record>, rs': seq<Record>)
    requires multiset(rs) == multiset(rs')
    ensures forall r :: r in rs <==> r in rs'
  {
    assert forall r :: r in rs <==> r in multiset(rs);
    assert forall r :: r in rs' <==> r in multiset(rs');
  }

  lemma OutcomeIgnoresOrder(rs: seq<Record>, rs': seq<Record>, c: Fields)
    requires forall r :: r in rs <==> r in rs'
    ensures OutcomeOf(rs, c) == OutcomeOf(rs', c)
  {
    hide KeyOf, Complete;
    var k := KeyOf(c);
    assert Disagree(rs, k) <==> Disagree(rs', k);
    var d, d' := First(rs, k), First(rs', k);
    if !Disagree(rs, k) && d.Some? && d'.Some? {
      assert Record(Diagnostics, d) in rs && Record(Diagnostics, d') in rs;
    }
  }

  ghost function Issues(all: seq<Record>, rs: seq<Record>): multiset<Issue> {
    multiset(IdentityIssues(rs)) + multiset(CommandIssues(all, rs))
  }

  ghost function Own(all: seq<Record>, r: Record): multiset<Issue> {
    multiset(IdentityIssue(r)) + multiset(CommandIssue(all, r))
  }

  lemma IssuesGrow(all: seq<Record>, rs: seq<Record>, r: Record)
    ensures Issues(all, rs + [r]) == Issues(all, rs) + Own(all, r)
  {
    hide CommandIssue, IdentityIssue;
    assert (rs + [r])[..|rs|] == rs;
  }

  lemma {:induction false} IssuesWithout(all: seq<Record>, rs: seq<Record>, i: nat)
    requires i < |rs|
    ensures Issues(all, rs) == Issues(all, rs[..i] + rs[i + 1..]) + Own(all, rs[i])
    decreases |rs|
  {
    hide Issues, Own;
    var n := |rs| - 1;
    assert rs == rs[..n] + [rs[n]];
    IssuesGrow(all, rs[..n], rs[n]);
    if i == n {
      assert rs[..i] + rs[i + 1..] == rs[..n];
    } else {
      IssuesWithout(all, rs[..n], i);
      var rest := rs[..n][..i] + rs[..n][i + 1..];
      IssuesGrow(all, rest, rs[n]);
      assert rs[..i] + rs[i + 1..] == rest + [rs[n]];
    }
  }

  lemma {:induction false} IssuesIgnoreOrder(all: seq<Record>, rs: seq<Record>, rs': seq<Record>)
    requires multiset(rs) == multiset(rs')
    ensures Issues(all, rs) == Issues(all, rs')
    decreases |rs|
  {
    hide Issues, Own;
    assert |rs| == |multiset(rs)| == |rs'|;
    if rs == [] {
      assert rs' == [];
    } else {
      var n := |rs| - 1;
      assert rs == rs[..n] + [rs[n]];
      IssuesGrow(all, rs[..n], rs[n]);
      assert rs[n] in multiset(rs');
      var i :| 0 <= i < |rs'| && rs'[i] == rs[n];
      IssuesWithout(all, rs', i);
      RestIsSame(rs[..n], rs[n], rs', i);
      IssuesIgnoreOrder(all, rs[..n], rs'[..i] + rs'[i + 1..]);
    }
  }

  lemma RestIsSame(front: seq<Record>, r: Record, rs': seq<Record>, i: nat)
    requires i < |rs'| && rs'[i] == r && multiset(front + [r]) == multiset(rs')
    ensures multiset(front) == multiset(rs'[..i] + rs'[i + 1..])
  {
    var a, b := rs'[..i], rs'[i + 1..];
    assert rs' == a + [r] + b;
    assert multiset(front) + multiset([r]) == multiset(a) + multiset([r]) + multiset(b);
    assert multiset(a + b) == multiset(a) + multiset(b);
    hide *;
    assert multiset(front) == (multiset(front) + multiset([r])) - multiset([r]);
  }

  lemma {:induction false} CommandIssuesOf(all: seq<Record>, all': seq<Record>, rs: seq<Record>)
    requires forall r :: r in all <==> r in all'
    ensures CommandIssues(all, rs) == CommandIssues(all', rs)
  {
    if rs != [] {
      CommandIssuesOf(all, all', rs[..|rs| - 1]);
      var r := rs[|rs| - 1];
      if r.fields.Some? { OutcomeIgnoresOrder(all, all', r.fields.value); }
      hide OutcomeOf;
    }
  }

  /** Any order of the same events gives every command the same payload, and the same issues
      the same number of times. */
  lemma JoinIgnoresOrder(rs: seq<Record>, rs': seq<Record>)
    requires multiset(rs) == multiset(rs')
    ensures forall c :: Joined(rs, c) == Joined(rs', c)
    ensures multiset(IdentityIssues(rs) + CommandIssues(rs, rs)) == multiset(IdentityIssues(rs') + CommandIssues(rs', rs'))
  {
    hide OutcomeOf, IdentityIssues, CommandIssues;
    SameRecords(rs, rs');
    forall c ensures Joined(rs, c) == Joined(rs', c) {
      OutcomeIgnoresOrder(rs, rs', c);
    }
    IssuesIgnoreOrder(rs, rs, rs');
    CommandIssuesOf(rs, rs', rs');
  }
}
