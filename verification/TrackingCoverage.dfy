/** Tracking coverage: which part of the evaluation window lies between matched stamps that
    are close enough, and whether that part is large enough to evaluate. */
module TrackingCoverage {
  import opened Values
  import opened Sorting

  /** A half-open stretch of nanoseconds. */
  datatype Interval = Interval(left: int, right: int)

  // ---- what is covered --------------------------------------------------------

  predicate Near(a: int, b: int, gap: real) {
    (b - a) as real <= gap
  }

  /** The matched stamps inside the window. */
  function Inside(matched: seq<int>, start: int, end: int): set<int> {
    set s | s in matched && start <= s <= end
  }

  /** Nanosecond t is covered when it lies between two stamps within the pairing gap. */
  ghost predicate Covered(stamps: set<int>, gap: real, t: int) {
    exists a, b :: a in stamps && b in stamps && a <= t < b && Near(a, b, gap)
  }

  predicate Within(i: Interval, t: int) {
    i.left <= t < i.right
  }

  predicate InSome(xs: seq<Interval>, t: int) {
    exists k :: 0 <= k < |xs| && Within(xs[k], t)
  }

  /** Non-empty, in order, and apart from each other. */
  predicate Separated(xs: seq<Interval>) {
    && (forall k :: 0 <= k < |xs| ==> xs[k].left < xs[k].right)
    && (forall j, k :: 0 <= j < k < |xs| ==> xs[j].right < xs[k].left)
  }

  predicate Bounded(xs: seq<Interval>, start: int, end: int) {
    forall k :: 0 <= k < |xs| ==> start <= xs[k].left && xs[k].right <= end
  }

  /** The list is the complement of the covered part of the window. */
  ghost predicate Complement(xs: seq<Interval>, start: int, end: int, stamps: set<int>, gap: real) {
    && Separated(xs) && Bounded(xs, start, end)
    && (forall t | start <= t < end :: InSome(xs, t) <==> !Covered(stamps, gap, t))
  }

  // ---- sorting ----------------------------------------------------------------

  /** The matched stamps inside the window, once each, in order. */
  function SortedInside(matched: seq<int>, start: int, end: int): (r: seq<int>)
    ensures Increasing(r) && forall y :: y in r <==> y in matched && start <= y <= end
  {
    if matched == [] then []
    else
      var rest := SortedInside(matched[1..], start, end);
      if start <= matched[0] <= end then Insert(rest, matched[0]) else rest
  }

  // ---- pairing consecutive stamps ---------------------------------------------

  /** Some consecutive pair around t is within the gap. */
  ghost predicate Paired(valid: seq<int>, gap: real, t: int, n: nat)
    requires n <= |valid|
  {
    exists k :: 0 < k < n && valid[k - 1] <= t < valid[k] && Near(valid[k - 1], valid[k], gap)
  }

  /** Between two stamps that contain t there is a consecutive pair that contains t. */
  lemma {:induction false} ConsecutivePair(valid: seq<int>, i: nat, j: nat, t: int) returns (k: nat)
    requires Increasing(valid) && i < j < |valid| && valid[i] <= t < valid[j]
    ensures i < k <= j && valid[k - 1] <= t < valid[k]
    decreases j - i
  {
    if t < valid[i + 1] {
      k := i + 1;
    } else {
      k := ConsecutivePair(valid, i + 1, j, t);
    }
  }

  lemma CoveredIsPaired(valid: seq<int>, stamps: set<int>, gap: real, t: int)
    requires Increasing(valid) && (forall y :: y in valid <==> y in stamps) && Covered(stamps, gap, t)
    ensures Paired(valid, gap, t, |valid|)
  {
    var a, b :| a in stamps && b in stamps && a <= t < b && Near(a, b, gap);
    hide Covered, Increasing;
    assert a in valid && b in valid;
    var i :| 0 <= i < |valid| && valid[i] == a;
    var j :| 0 <= j < |valid| && valid[j] == b;
    StampOrder(valid, i, j);
    var k := ConsecutivePair(valid, i, j, t);
    StampsSpread(valid, i, k - 1);
    StampsSpread(valid, k, j);
    assert Near(valid[k - 1], valid[k], gap);
  }

  lemma StampOrder(valid: seq<int>, i: nat, j: nat)
    requires Increasing(valid) && i < |valid| && j < |valid| && valid[i] < valid[j]
    ensures i < j
  {
  }

  lemma StampsSpread(valid: seq<int>, i: nat, j: nat)
    requires Increasing(valid) && i <= j < |valid|
    ensures valid[i] <= valid[j]
  {
  }

  lemma PairedIsCovered(valid: seq<int>, stamps: set<int>, gap: real, t: int)
    requires Increasing(valid) && forall y :: y in valid <==> y in stamps
    ensures Paired(valid, gap, t, |valid|) <==> Covered(stamps, gap, t)
  {
    hide Increasing;
    if Covered(stamps, gap, t) {
      CoveredIsPaired(valid, stamps, gap, t);
    }
    if Paired(valid, gap, t, |valid|) {
      var k :| 0 < k < |valid| && valid[k - 1] <= t < valid[k] && Near(valid[k - 1], valid[k], gap);
      assert valid[k - 1] in valid && valid[k] in valid;
    }
  }

  /** Ordered intervals that may touch. */
  predicate Ordered(xs: seq<Interval>) {
    && (forall k :: 0 <= k < |xs| ==> xs[k].left < xs[k].right)
    && (forall j, k :: 0 <= j < k < |xs| ==> xs[j].right <= xs[k].left)
  }

  /** The consecutive pairs of stamps that are near enough. */
  method ValidIntervals(valid: seq<int>, start: int, end: int, gap: real) returns (xs: seq<Interval>)
    requires Increasing(valid) && forall k :: 0 <= k < |valid| ==> start <= valid[k] <= end
    ensures Ordered(xs) && Bounded(xs, start, end)
    ensures forall t :: InSome(xs, t) <==> Paired(valid, gap, t, |valid|)
  {
    xs := [];
    var n := if |valid| == 0 then 0 else 1;
    while n < |valid|
      invariant 0 <= n <= |valid| && (n == 0 <==> |valid| == 0) && (n == 0 ==> xs == [])
      invariant Ordered(xs) && Bounded(xs, start, end)
      invariant forall k :: 0 <= k < |xs| ==> xs[k].right <= valid[n - 1]
      invariant forall t :: InSome(xs, t) <==> Paired(valid, gap, t, n)
    {
      ghost var before := xs;
      var pair := Interval(valid[n - 1], valid[n]);
      if (valid[n] - valid[n - 1]) as real <= gap {
        xs := xs + [pair];
      }
      forall t ensures InSome(xs, t) <==> Paired(valid, gap, t, n + 1) {
        AppendedInSome(before, pair, t);
        PairedStep(valid, gap, t, n);
      }
      n := n + 1;
    }
  }

  lemma AppendedInSome(xs: seq<Interval>, i: Interval, t: int)
    ensures InSome(xs + [i], t) <==> InSome(xs, t) || Within(i, t)
  {
    var ys := xs + [i];
    if InSome(xs, t) {
      var k :| 0 <= k < |xs| && Within(xs[k], t);
      assert ys[k] == xs[k];
    }
    if Within(i, t) {
      assert ys[|xs|] == i;
    }
  }

  lemma PairedStep(valid: seq<int>, gap: real, t: int, n: nat)
    requires 0 < n < |valid|
    ensures Paired(valid, gap, t, n + 1) <==>
            Paired(valid, gap, t, n) || (valid[n - 1] <= t < valid[n] && Near(valid[n - 1], valid[n], gap))
  {
  }

  // ---- the uncovered intervals ------------------------------------------------

  /** Everything below the cursor is settled; the last stretch ends before it. */
  ghost predicate SweptTo(uncovered: seq<Interval>, xs: seq<Interval>, start: int, cursor: int) {
    && Separated(uncovered) && Bounded(uncovered, start, cursor)
    && (forall t | start <= t < cursor :: InSome(uncovered, t) <==> !InSome(xs, t))
  }

  lemma SkippedStretch(uncovered: seq<Interval>, xs: seq<Interval>, start: int, cursor: int, left: int)
    requires SweptTo(uncovered, xs, start, cursor) && start <= cursor < left
    requires forall k :: 0 <= k < |uncovered| ==> uncovered[k].right < cursor
    requires forall t | cursor <= t < left :: !InSome(xs, t)
    ensures SweptTo(uncovered + [Interval(cursor, left)], xs, start, left)
  {
    forall t | start <= t < left ensures InSome(uncovered + [Interval(cursor, left)], t) <==> !InSome(xs, t) {
      AppendedInSome(uncovered, Interval(cursor, left), t);
    }
  }

  /** Sweeps a cursor over the valid intervals and collects what they leave open. */
  method Uncovered(xs: seq<Interval>, start: int, end: int) returns (uncovered: seq<Interval>)
    requires Ordered(xs) && Bounded(xs, start, end)
    ensures Separated(uncovered) && Bounded(uncovered, start, end)
    ensures forall t | start <= t < end :: InSome(uncovered, t) <==> !InSome(xs, t)
  {
    uncovered := [];
    var cursor := start;
    for n := 0 to |xs|
      invariant start <= cursor && (start <= end ==> cursor <= end) && (start > end ==> cursor == start)
      invariant forall k :: n <= k < |xs| ==> cursor <= xs[k].left
      invariant forall k :: 0 <= k < n ==> xs[k].right <= cursor
      invariant forall k :: 0 <= k < |uncovered| ==> uncovered[k].right < cursor
      invariant SweptTo(uncovered, xs, start, cursor)
    {
      var left, right := xs[n].left, xs[n].right;
      if left > cursor {
        SkippedStretch(uncovered, xs, start, cursor, left);
        uncovered := uncovered + [Interval(cursor, left)];
      }
      assert SweptTo(uncovered, xs, start, left);
      assert forall t | left <= t < right :: Within(xs[n], t);
      cursor := if cursor > right then cursor else right;
    }
    if cursor < end {
      SkippedStretch(uncovered, xs, start, cursor, end);
      uncovered := uncovered + [Interval(cursor, end)];
    }
  }

  // ---- durations --------------------------------------------------------------

  function Total(xs: seq<Interval>): int {
    if xs == [] then 0 else Total(xs[..|xs| - 1]) + xs[|xs| - 1].right - xs[|xs| - 1].left
  }

  /** The longest interval, 0 for none. */
  function Longest(xs: seq<Interval>): (r: int)
    requires Separated(xs)
    ensures forall k :: 0 <= k < |xs| ==> xs[k].right - xs[k].left <= r
    ensures r == 0 <==> xs == []
    ensures xs != [] ==> exists k :: 0 <= k < |xs| && xs[k].right - xs[k].left == r
  {
    if xs == [] then 0
    else
      var n := |xs| - 1;
      var rest := Longest(xs[..n]);
      if xs[n].right - xs[n].left >= rest then xs[n].right - xs[n].left
      else
        assert exists k :: 0 <= k < n && xs[..n][k].right - xs[..n][k].left == rest;
        rest
  }

  ghost function Cells(start: int, end: int): (r: set<int>)
    ensures forall t :: t in r <==> start <= t < end
    decreases end - start
  {
    if end <= start then {} else Cells(start, end - 1) + {end - 1}
  }

  ghost function UncoveredCells(start: int, end: int, stamps: set<int>, gap: real): set<int> {
    set t | start <= t < end && !Covered(stamps, gap, t)
  }

  ghost function CoveredCells(start: int, end: int, stamps: set<int>, gap: real): set<int> {
    set t | start <= t < end && Covered(stamps, gap, t)
  }

  lemma {:induction false} CellCount(start: int, end: int)
    requires start <= end
    ensures |Cells(start, end)| == end - start
    decreases end - start
  {
    if start < end {
      CellCount(start, end - 1);
    }
  }

  lemma FrontSeparated(xs: seq<Interval>)
    requires Separated(xs) && xs != []
    ensures Separated(xs[..|xs| - 1])
  {
  }

  lemma LastApart(xs: seq<Interval>, t: int)
    requires Separated(xs) && xs != [] && InSome(xs[..|xs| - 1], t)
    ensures t < xs[|xs| - 1].left
  {
  }

  lemma {:induction false} TotalCountsCells(xs: seq<Interval>, cells: set<int>)
    requires Separated(xs) && forall t :: t in cells <==> InSome(xs, t)
    ensures Total(xs) == |cells|
    decreases |xs|
  {
    hide Separated, InSome, Cells;
    if xs == [] {
      EmptyWithoutCells(xs);
      forall t ensures t !in cells {
        assert t in cells <==> InSome(xs, t);
      }
      assert cells == {};
    } else {
      var n := |xs| - 1;
      var last := Cells(xs[n].left, xs[n].right);
      FrontSeparated(xs);
      assert xs == xs[..n] + [xs[n]];
      forall t
        ensures InSome(xs, t) <==> InSome(xs[..n], t) || t in last
        ensures InSome(xs[..n], t) ==> t !in last
      {
        AppendedInSome(xs[..n], xs[n], t);
        if InSome(xs[..n], t) { LastApart(xs, t); }
      }
      TotalCountsCells(xs[..n], cells - last);
      NonEmpty(xs, n);
      CellCount(xs[n].left, xs[n].right);
      assert cells == (cells - last) + last;
    }
  }

  lemma NonEmpty(xs: seq<Interval>, k: nat)
    requires Separated(xs) && k < |xs|
    ensures xs[k].left < xs[k].right
  {
  }

  lemma BoundedInSome(xs: seq<Interval>, start: int, end: int, t: int)
    requires Bounded(xs, start, end) && InSome(xs, t)
    ensures start <= t < end
  {
  }

  /** The uncovered total is the number of uncovered nanoseconds; with the covered ones they
      make up the window. */
  lemma DurationIsExact(xs: seq<Interval>, start: int, end: int, stamps: set<int>, gap: real)
    requires start <= end && Complement(xs, start, end, stamps, gap)
    ensures Total(xs) == |UncoveredCells(start, end, stamps, gap)|
    ensures Total(xs) + |CoveredCells(start, end, stamps, gap)| == end - start
  {
    var u, c := UncoveredCells(start, end, stamps, gap), CoveredCells(start, end, stamps, gap);
    forall t ensures t in u <==> InSome(xs, t) {
      if InSome(xs, t) { BoundedInSome(xs, start, end, t); }
    }
    TotalCountsCells(xs, u);
    assert u + c == Cells(start, end) && u !! c;
    CellCount(start, end);
  }

  // ---- monotonicity -----------------------------------------------------------

  lemma CoveredMonotone(stamps: set<int>, stamps': set<int>, gap: real, gap': real, t: int)
    requires stamps <= stamps' && gap <= gap' && Covered(stamps, gap, t)
    ensures Covered(stamps', gap', t)
  {
    var a, b :| a in stamps && b in stamps && a <= t < b && Near(a, b, gap);
    assert Near(a, b, gap');
  }

  lemma Subset<T>(a: set<T>, b: set<T>)
    requires a <= b
    ensures |a| <= |b|
  {
    assert b == a + (b - a);
  }

  /** A stretch of consecutive nanoseconds within separated intervals lies within one. */
  lemma {:induction false} StretchInOne(xs: seq<Interval>, left: int, right: int) returns (k: nat)
    requires Separated(xs) && left < right && forall t | left <= t < right :: InSome(xs, t)
    ensures k < |xs| && xs[k].left <= left && right <= xs[k].right
    decreases right - left
  {
    if right == left + 1 {
      assert InSome(xs, left);
      k :| 0 <= k < |xs| && Within(xs[k], left);
    } else {
      k := StretchInOne(xs, left, right - 1);
      assert InSome(xs, right - 1);
      var j :| 0 <= j < |xs| && Within(xs[j], right - 1);
    }
  }

  /** The interval lies inside one of the list. */
  predicate Enclosed(i: Interval, xs: seq<Interval>) {
    exists k :: 0 <= k < |xs| && xs[k].left <= i.left && i.right <= xs[k].right
  }

  lemma ShrunkIsEnclosed(xs: seq<Interval>, ys: seq<Interval>, k: nat)
    requires Separated(xs) && Separated(ys) && k < |ys|
    requires forall t | InSome(ys, t) :: InSome(xs, t)
    ensures Enclosed(ys[k], xs)
  {
    forall t | ys[k].left <= t < ys[k].right ensures InSome(xs, t) {
      assert Within(ys[k], t);
      assert InSome(ys, t);
    }
    var i := StretchInOne(xs, ys[k].left, ys[k].right);
  }

  lemma EnclosedIsNoLonger(xs: seq<Interval>, ys: seq<Interval>)
    requires Separated(xs) && Separated(ys)
    requires forall k :: 0 <= k < |ys| ==> Enclosed(ys[k], xs)
    ensures Longest(ys) <= Longest(xs)
  {
    if ys != [] {
      var k :| 0 <= k < |ys| && ys[k].right - ys[k].left == Longest(ys);
      assert Enclosed(ys[k], xs);
      var i :| 0 <= i < |xs| && xs[i].left <= ys[k].left && ys[k].right <= xs[i].right;
      assert xs[i].right - xs[i].left <= Longest(xs);
    }
  }

  lemma ComplementShrinks(
    xs: seq<Interval>, ys: seq<Interval>, start: int, end: int, stamps: set<int>, stamps': set<int>, gap: real, gap': real)
    requires stamps <= stamps' && gap <= gap'
    requires Complement(xs, start, end, stamps, gap) && Complement(ys, start, end, stamps', gap')
    ensures forall t | InSome(ys, t) :: InSome(xs, t)
  {
    hide InSome, Covered;
    forall t | InSome(ys, t) ensures InSome(xs, t) {
      BoundedInSome(ys, start, end, t);
      if Covered(stamps, gap, t) { CoveredMonotone(stamps, stamps', gap, gap', t); }
    }
  }

  /** More stamps or a wider gap never lengthen what is uncovered. */
  lemma UncoveredShrinks(
    xs: seq<Interval>, ys: seq<Interval>, start: int, end: int, stamps: set<int>, stamps': set<int>, gap: real, gap': real)
    requires start <= end && stamps <= stamps' && gap <= gap'
    requires Complement(xs, start, end, stamps, gap) && Complement(ys, start, end, stamps', gap')
    ensures Total(ys) <= Total(xs) && Longest(ys) <= Longest(xs)
    ensures forall k :: 0 <= k < |ys| ==> Enclosed(ys[k], xs)
  {
    hide Covered, Enclosed, InSome, Longest, Total, Separated, Bounded;
    DurationIsExact(xs, start, end, stamps, gap);
    DurationIsExact(ys, start, end, stamps', gap');
    forall t | Covered(stamps, gap, t) ensures Covered(stamps', gap', t) {
      CoveredMonotone(stamps, stamps', gap, gap', t);
    }
    Subset(UncoveredCells(start, end, stamps', gap'), UncoveredCells(start, end, stamps, gap));
    ComplementShrinks(xs, ys, start, end, stamps, stamps', gap, gap');
    forall k | 0 <= k < |ys| ensures Enclosed(ys[k], xs) {
      ShrunkIsEnclosed(xs, ys, k);
    }
    EnclosedIsNoLonger(xs, ys);
  }

  // ---- the verdict ------------------------------------------------------------

  datatype Policy = Policy(
    minRatio: Option<real>, maxUncovered: Option<real>, maxPairingGap: Option<real>, provenance: Value, version: Value)

  datatype Reason =
    | PolicyUnavailable | PolicyProvenanceMissing | PolicyVersionMissing | PolicyInvalid
    | WindowUnavailable(error: Option<string>) | Insufficient

  datatype Window = Window(start: int, end: int)

  /** Without a measurement only the reason is left. */
  datatype Coverage =
    | NotMeasured(reason: Reason)
    | Measured(required: real, valid: real, ratio: Option<real>, longest: real, uncovered: seq<Interval>, available: bool)

  predicate Whitespace(c: char) {
    c == ' ' || c == '\t' || c == '\n' || c == '\r'
  }

  predicate Blank(v: Value) {
    !v.Text? || forall i :: 0 <= i < |v.s| ==> Whitespace(v.s[i])
  }

  /** Why a policy or window cannot be used. */
  function Unusable(policy: Option<Policy>, window: Option<Window>, error: Option<string>): Option<Reason> {
    match policy
    case None => Some(PolicyUnavailable)
    case Some(p) =>
      if p.minRatio.None? || p.maxUncovered.None? || p.maxPairingGap.None? then Some(PolicyUnavailable)
      else if Blank(p.provenance) then Some(PolicyProvenanceMissing)
      else if Blank(p.version) then Some(PolicyVersionMissing)
      else if !(0.0 < p.minRatio.value <= 1.0 && p.maxUncovered.value >= 0.0 && p.maxPairingGap.value > 0.0) then Some(PolicyInvalid)
      else if window.None? then Some(WindowUnavailable(error))
      else None
  }

  const NANO: real := 1000000000.0

  ghost function Ratio(w: Window, stamps: set<int>, gap: real): Option<real> {
    if w.start < w.end then Some(|CoveredCells(w.start, w.end, stamps, gap)| as real / (w.end - w.start) as real) else None
  }

  /** What a measurement must say, in terms of covered nanoseconds only. */
  ghost predicate Measures(c: Coverage, p: Policy, w: Window, stamps: set<int>)
    requires p.minRatio.Some? && p.maxUncovered.Some? && p.maxPairingGap.Some?
  {
    var gap := p.maxPairingGap.value * NANO;
    && c.Measured?
    && Complement(c.uncovered, w.start, w.end, stamps, gap)
    && c.required == (w.end - w.start) as real / NANO
    && c.valid == |CoveredCells(w.start, w.end, stamps, gap)| as real / NANO
    && c.ratio == Ratio(w, stamps, gap)
    && c.longest == Longest(c.uncovered) as real / NANO
    && (c.available <==> c.ratio.Some? && c.ratio.value >= p.minRatio.value && c.longest <= p.maxUncovered.value)
  }

  lemma RatioOfSeconds(a: int, b: int)
    requires b > 0
    ensures (a as real / NANO) / (b as real / NANO) == a as real / b as real
  {
    var x, y := a as real / NANO, b as real / NANO;
    assert x * NANO == a as real && y * NANO == b as real;
    assert y > 0.0;
    assert x / y * (b as real) == x / y * y * NANO;
    assert x / y * y == x;
  }

  lemma NoCells(w: Window, stamps: set<int>, gap: real)
    requires w.end < w.start
    ensures CoveredCells(w.start, w.end, stamps, gap) == {}
  {
  }

  lemma ProperWindow(xs: seq<Interval>, w: Window)
    requires xs != [] && Separated(xs) && Bounded(xs, w.start, w.end)
    ensures w.start < w.end
  {
    NonEmpty(xs, 0);
  }

  lemma EmptyWindowIsEmpty(xs: seq<Interval>, w: Window)
    requires w.end < w.start && Separated(xs) && Bounded(xs, w.start, w.end)
    ensures xs == []
  {
    hide Separated, Bounded;
    if xs != [] {
      ProperWindow(xs, w);
    }
  }

  /** The tracking coverage of a window, or why there is none. */
  method TrackingCoverage(matched: seq<int>, policy: Option<Policy>, window: Option<Window>, error: Option<string>)
    returns (c: Coverage)
    ensures match Unusable(policy, window, error)
            case Some(reason) => c == NotMeasured(reason)
            case None => Measures(c, policy.value, window.value, Inside(matched, window.value.start, window.value.end))
  {
    var problem := Unusable(policy, window, error);
    if problem.Some? {
      return NotMeasured(problem.value);
    }
    var p, start, end := policy.value, window.value.start, window.value.end;
    var gap := p.maxPairingGap.value * NANO;
    var valid := SortedInside(matched, start, end);
    assert forall k :: 0 <= k < |valid| ==> valid[k] in valid;
    var intervals := ValidIntervals(valid, start, end, gap);
    var uncovered := Uncovered(intervals, start, end);
    ghost var stamps := Inside(matched, start, end);
    forall t ensures Paired(valid, gap, t, |valid|) <==> Covered(stamps, gap, t) {
      PairedIsCovered(valid, stamps, gap, t);
    }
    c := Judge(p, window.value, uncovered, stamps);
  }

  lemma ComplementIsSeparated(xs: seq<Interval>, w: Window, stamps: set<int>, gap: real)
    requires Complement(xs, w.start, w.end, stamps, gap)
    ensures Separated(xs) && Bounded(xs, w.start, w.end)
  {
  }

  lemma LongestOfNone(xs: seq<Interval>)
    requires Separated(xs)
    ensures Longest(xs) == 0 <==> xs == []
  {
  }

  lemma ValidDuration(xs: seq<Interval>, w: Window, stamps: set<int>, gap: real)
    requires Complement(xs, w.start, w.end, stamps, gap)
    ensures var open := (w.end - w.start) as real / NANO - Total(xs) as real / NANO;
            |CoveredCells(w.start, w.end, stamps, gap)| as real / NANO == if open > 0.0 then open else 0.0
  {
    hide Complement, CoveredCells;
    ComplementIsSeparated(xs, w, stamps, gap);
    if w.end < w.start {
      NoCells(w, stamps, gap);
      EmptyWindowIsEmpty(xs, w);
    } else {
      DurationIsExact(xs, w.start, w.end, stamps, gap);
    }
  }

  method Judge(p: Policy, w: Window, uncovered: seq<Interval>, ghost stamps: set<int>) returns (c: Coverage)
    requires p.minRatio.Some? && p.maxUncovered.Some? && p.maxPairingGap.Some?
    requires Complement(uncovered, w.start, w.end, stamps, p.maxPairingGap.value * NANO)
    ensures Measures(c, p, w, stamps)
  {
    hide Complement, Longest, Total, CoveredCells;
    ghost var gap := p.maxPairingGap.value * NANO;
    var required := (w.end - w.start) as real / NANO;
    ComplementIsSeparated(uncovered, w, stamps, gap);
    var open := Total(uncovered) as real / NANO;
    var valid := if required - open > 0.0 then required - open else 0.0;
    var ratio := if required > 0.0 then Some(valid / required) else None;
    var longest := if uncovered == [] then 0.0 else Longest(uncovered) as real / NANO;
    LongestOfNone(uncovered);
    ValidDuration(uncovered, w, stamps, gap);
    if w.start < w.end {
      RatioOfSeconds(|CoveredCells(w.start, w.end, stamps, gap)|, w.end - w.start);
    }
    var available := ratio.Some? && ratio.value >= p.minRatio.value && longest <= p.maxUncovered.value;
    c := Measured(required, valid, ratio, longest, uncovered, available);
  }

  // ---- whole results ----------------------------------------------------------

  lemma SeparatedTail(xs: seq<Interval>)
    requires Separated(xs) && xs != []
    ensures Separated(xs[1..])
  {
  }

  lemma HeadsAgree(xs: seq<Interval>, ys: seq<Interval>)
    requires Separated(xs) && Separated(ys) && xs != [] && ys != []
    requires forall t :: InSome(xs, t) <==> InSome(ys, t)
    ensures xs[0] == ys[0]
  {
    forall t | xs[0].left <= t < xs[0].right ensures InSome(ys, t) {
      assert Within(xs[0], t);
    }
    forall t | ys[0].left <= t < ys[0].right ensures InSome(xs, t) {
      assert Within(ys[0], t);
    }
    var k := StretchInOne(ys, xs[0].left, xs[0].right);
    var m := StretchInOne(xs, ys[0].left, ys[0].right);
  }

  lemma TailCells(xs: seq<Interval>, t: int)
    requires Separated(xs) && xs != []
    ensures InSome(xs[1..], t) <==> InSome(xs, t) && !Within(xs[0], t)
  {
    if InSome(xs, t) && !Within(xs[0], t) {
      var k :| 0 <= k < |xs| && Within(xs[k], t);
      assert xs[1..][k - 1] == xs[k];
    }
    if InSome(xs[1..], t) {
      var k :| 0 <= k < |xs| - 1 && Within(xs[1..][k], t);
      assert xs[1..][k] == xs[k + 1];
    }
  }

  lemma EmptyWithoutCells(xs: seq<Interval>)
    requires Separated(xs)
    ensures xs == [] <==> forall t :: !InSome(xs, t)
  {
    if xs != [] {
      assert Within(xs[0], xs[0].left);
      assert InSome(xs, xs[0].left);
    }
  }

  /** The complement is a unique list: nothing about it is left to the sweep's choice. */
  lemma {:induction false} SeparatedIsUnique(xs: seq<Interval>, ys: seq<Interval>)
    requires Separated(xs) && Separated(ys)
    requires forall t :: InSome(xs, t) <==> InSome(ys, t)
    ensures xs == ys
    decreases |xs|
  {
    hide InSome, Separated;
    EmptyWithoutCells(xs);
    EmptyWithoutCells(ys);
    if xs != [] && ys != [] {
      HeadsAgree(xs, ys);
      forall t ensures InSome(xs[1..], t) <==> InSome(ys[1..], t) {
        TailCells(xs, t);
        TailCells(ys, t);
      }
      SeparatedTail(xs);
      SeparatedTail(ys);
      SeparatedIsUnique(xs[1..], ys[1..]);
      assert xs == [xs[0]] + xs[1..] && ys == [ys[0]] + ys[1..];
    }
  }

  /** Adding matched stamps or enlarging the pairing gap never increases the uncovered
      duration or the longest gap, and never turns an available result unavailable. */
  lemma CoverageIsMonotone(c: Coverage, d: Coverage, p: Policy, q: Policy, w: Window, matched: seq<int>, matched': seq<int>)
    requires Unusable(Some(p), Some(w), None).None? && Unusable(Some(q), Some(w), None).None?
    requires q.minRatio == p.minRatio && q.maxUncovered == p.maxUncovered && p.maxPairingGap.value <= q.maxPairingGap.value
    requires forall s | s in matched :: s in matched'
    requires Measures(c, p, w, Inside(matched, w.start, w.end)) && Measures(d, q, w, Inside(matched', w.start, w.end))
    ensures c.valid <= d.valid && d.longest <= c.longest && Total(d.uncovered) <= Total(c.uncovered)
    ensures c.available ==> d.available
  {
    hide Complement, Longest, Total, CoveredCells, Blank, Inside;
    var s, s' := Inside(matched, w.start, w.end), Inside(matched', w.start, w.end);
    var g, g' := p.maxPairingGap.value * NANO, q.maxPairingGap.value * NANO;
    InsideMonotone(matched, matched', w);
    MeasuredShrinks(c.uncovered, d.uncovered, w, s, s', g, g');
    if w.start <= w.end {
      MoreCells(|CoveredCells(w.start, w.end, s, g)|, |CoveredCells(w.start, w.end, s', g')|, w);
    }
  }

  lemma InsideMonotone(matched: seq<int>, matched': seq<int>, w: Window)
    requires forall s | s in matched :: s in matched'
    ensures Inside(matched, w.start, w.end) <= Inside(matched', w.start, w.end)
  {
  }

  lemma MeasuredShrinks(
    xs: seq<Interval>, ys: seq<Interval>, w: Window, s: set<int>, s': set<int>, g: real, g': real)
    requires s <= s' && g <= g'
    requires Complement(xs, w.start, w.end, s, g) && Complement(ys, w.start, w.end, s', g')
    ensures Separated(xs) && Separated(ys)
    ensures Total(ys) <= Total(xs) && Longest(ys) <= Longest(xs)
    ensures |CoveredCells(w.start, w.end, s, g)| <= |CoveredCells(w.start, w.end, s', g')|
  {
    hide Complement, Longest, Total, CoveredCells;
    ComplementIsSeparated(xs, w, s, g);
    ComplementIsSeparated(ys, w, s', g');
    if w.start <= w.end {
      UncoveredShrinks(xs, ys, w.start, w.end, s, s', g, g');
      DurationIsExact(xs, w.start, w.end, s, g);
      DurationIsExact(ys, w.start, w.end, s', g');
    } else {
      EmptyWindowIsEmpty(xs, w);
      EmptyWindowIsEmpty(ys, w);
      NoCells(w, s, g);
      NoCells(w, s', g');
    }
  }

  lemma MoreCells(a: int, b: int, w: Window)
    requires a <= b && w.start <= w.end
    ensures a as real / NANO <= b as real / NANO
    ensures w.start < w.end ==> a as real / (w.end - w.start) as real <= b as real / (w.end - w.start) as real
  {
    if w.start < w.end {
      Quotients(a as real, b as real, (w.end - w.start) as real);
    }
  }

  lemma Quotients(a: real, b: real, n: real)
    requires a <= b && n > 0.0
    ensures a / n <= b / n
  {
    var x := b / n - a / n;
    assert x * n == b - a;
    assert x < 0.0 ==> x * n < 0.0;
  }
}
