/** Sampling a pose history at a source stamp: the interpolation that builds a frame witness
    and the one that uses it. */
module PoseHistories {
  import opened Values
  import opened RealMath
  import opened Quaternions

  datatype Sample = Sample(
    stamp: Option<int>, epoch: Option<int>, frame: Option<string>, child: Option<string>, position: Vec, orientation: Quat)

  /** A sample with its stamp. */
  datatype Timed = Timed(stamp: int, sample: Sample)

  function Stamped(history: seq<Sample>): seq<Timed> {
    if history == [] then []
    else
      var s := history[|history| - 1];
      Stamped(history[..|history| - 1]) + if s.stamp.Some? then [Timed(s.stamp.value, s)] else []
  }

  // ---- stable sorting ---------------------------------------------------------

  /** After everything that is not later. */
  function Insert(s: seq<Timed>, x: Timed): seq<Timed> {
    if s == [] || s[|s| - 1].stamp <= x.stamp then s + [x]
    else Insert(s[..|s| - 1], x) + [s[|s| - 1]]
  }

  function Sort(s: seq<Timed>): seq<Timed> {
    if s == [] then [] else Insert(Sort(s[..|s| - 1]), s[|s| - 1])
  }

  predicate InOrder(s: seq<Timed>) {
    forall i, j :: 0 <= i < j < |s| ==> s[i].stamp <= s[j].stamp
  }

  lemma {:induction false} InsertInOrder(s: seq<Timed>, x: Timed)
    requires InOrder(s)
    ensures InOrder(Insert(s, x)) && forall y :: y in Insert(s, x) <==> y in s || y == x
  {
    if s != [] && s[|s| - 1].stamp > x.stamp {
      var n := |s| - 1;
      InsertInOrder(s[..n], x);
      var r := Insert(s[..n], x);
      assert forall y :: y in s <==> y in s[..n] || y == s[n];
      forall i | 0 <= i < |r| ensures r[i].stamp <= s[n].stamp {
        assert r[i] in r;
      }
    }
  }

  lemma {:induction false} SortInOrder(s: seq<Timed>)
    ensures InOrder(Sort(s)) && forall y :: y in Sort(s) <==> y in s
  {
    if s != [] {
      var n := |s| - 1;
      SortInOrder(s[..n]);
      InsertInOrder(Sort(s[..n]), s[n]);
      assert forall y :: y in s <==> y in s[..n] || y == s[n];
    }
  }

  function Filter(s: seq<Timed>, keep: Timed -> bool): seq<Timed> {
    if s == [] then [] else Filter(s[..|s| - 1], keep) + if keep(s[|s| - 1]) then [s[|s| - 1]] else []
  }

  lemma {:induction false} FilterMembers(s: seq<Timed>, keep: Timed -> bool)
    ensures forall y :: y in Filter(s, keep) <==> y in s && keep(y)
  {
    if s != [] {
      var n := |s| - 1;
      FilterMembers(s[..n], keep);
      assert forall y :: y in s <==> y in s[..n] || y == s[n];
    }
  }

  lemma LastIsKept(s: seq<Timed>, keep: Timed -> bool, x: Timed)
    requires InOrder(s) && (s == [] || s[|s| - 1].stamp <= x.stamp)
    ensures Insert(Filter(s, keep), x) == Filter(s, keep) + [x]
  {
    FilterMembers(s, keep);
    var f := Filter(s, keep);
    if f != [] {
      assert f[|f| - 1] in s;
    }
  }

  lemma FilterStep(s: seq<Timed>, x: Timed, keep: Timed -> bool)
    ensures Filter(s + [x], keep) == if keep(x) then Filter(s, keep) + [x] else Filter(s, keep)
  {
    assert (s + [x])[..|s|] == s;
  }

  lemma InsertStep(s: seq<Timed>, y: Timed, x: Timed)
    ensures Insert(s + [y], x) == if y.stamp <= x.stamp then s + [y] + [x] else Insert(s, x) + [y]
  {
    assert (s + [y])[..|s|] == s;
  }

  lemma FrontInOrder(s: seq<Timed>)
    requires InOrder(s) && s != []
    ensures InOrder(s[..|s| - 1])
  {
  }

  /** Inserting before or after filtering is the same. */
  lemma {:induction false} InsertFiltered(s: seq<Timed>, keep: Timed -> bool, x: Timed)
    requires InOrder(s)
    ensures Filter(Insert(s, x), keep) == if keep(x) then Insert(Filter(s, keep), x) else Filter(s, keep)
  {
    if s == [] || s[|s| - 1].stamp <= x.stamp {
      FilterStep(s, x, keep);
      LastIsKept(s, keep, x);
    } else {
      var n := |s| - 1;
      FrontInOrder(s);
      InsertFiltered(s[..n], keep, x);
      var y, f := s[n], Filter(s[..n], keep);
      assert s == s[..n] + [y];
      hide Filter, Insert, InOrder;
      InsertStep(s[..n], y, x);
      FilterStep(Insert(s[..n], x), y, keep);
      FilterStep(s[..n], y, keep);
      InsertStep(f, y, x);
    }
  }

  /** Sorting is stable: it commutes with filtering. */
  lemma {:induction false} SortFiltered(s: seq<Timed>, keep: Timed -> bool)
    ensures Sort(Filter(s, keep)) == Filter(Sort(s), keep)
  {
    if s != [] {
      var n := |s| - 1;
      SortFiltered(s[..n], keep);
      SortInOrder(s[..n]);
      InsertFiltered(Sort(s[..n]), keep, s[n]);
      if keep(s[n]) {
        var f := Filter(s[..n], keep);
        assert (f + [s[n]])[..|f|] == f;
      } else {
        assert Filter(s, keep) == Filter(s[..n], keep);
      }
    }
  }

  // ---- finding samples --------------------------------------------------------

  /** The first sample with the stamp. */
  function ExactAt(s: seq<Timed>, t: int): (r: Option<Timed>)
    ensures r.Some? ==> r.value in s && r.value.stamp == t
    ensures r.None? ==> forall x | x in s :: x.stamp != t
  {
    if s == [] then None
    else
      var n := |s| - 1;
      assert forall y :: y in s <==> y in s[..n] || y == s[n];
      var earlier := ExactAt(s[..n], t);
      if earlier.Some? then earlier else if s[n].stamp == t then Some(s[n]) else None
  }

  /** The first pair of neighbours around the stamp; `proper` asks for different stamps. */
  function Bracket(s: seq<Timed>, t: int, proper: bool): Option<(Timed, Timed)> {
    if |s| < 2 then None
    else
      var n := |s| - 1;
      var earlier := Bracket(s[..n], t, proper);
      if earlier.Some? then earlier
      else if s[n - 1].stamp <= t <= s[n].stamp && (proper ==> s[n - 1].stamp < s[n].stamp) then Some((s[n - 1], s[n]))
      else None
  }

  /** The last sample before the stamp. */
  function LastBelow(s: seq<Timed>, t: int): Option<Timed> {
    if s == [] then None
    else if s[|s| - 1].stamp < t then Some(s[|s| - 1])
    else LastBelow(s[..|s| - 1], t)
  }

  /** The first sample after the stamp. */
  function FirstAbove(s: seq<Timed>, t: int): Option<Timed> {
    if s == [] then None
    else
      var earlier := FirstAbove(s[..|s| - 1], t);
      if earlier.Some? then earlier else if s[|s| - 1].stamp > t then Some(s[|s| - 1]) else None
  }

  lemma {:induction false} NoneAbove(s: seq<Timed>, t: int)
    ensures FirstAbove(s, t).None? <==> forall x | x in s :: x.stamp <= t
  {
    if s != [] {
      var n := |s| - 1;
      NoneAbove(s[..n], t);
      assert forall y :: y in s <==> y in s[..n] || y == s[n];
    }
  }

  lemma {:induction false} NoneBelow(s: seq<Timed>, t: int)
    requires InOrder(s) && s != [] && FirstAbove(s[..|s| - 1], t).None? && s[|s| - 1].stamp > t
    requires forall x | x in s :: x.stamp != t
    ensures LastBelow(s, t) == if |s| < 2 then None else Some(s[|s| - 2])
  {
    var n := |s| - 1;
    NoneAbove(s[..n], t);
    if n > 0 {
      assert s[..n][n - 1] in s[..n] && s[n - 1] in s;
    }
  }

  /** Without an exact match the bracket is the last sample before and the first after. */
  lemma {:induction false} BracketIs(s: seq<Timed>, t: int, proper: bool)
    requires InOrder(s) && forall x | x in s :: x.stamp != t
    ensures Bracket(s, t, proper) ==
            if LastBelow(s, t).Some? && FirstAbove(s, t).Some? then Some((LastBelow(s, t).value, FirstAbove(s, t).value)) else None
  {
    if s != [] {
      var n := |s| - 1;
      assert forall y :: y in s <==> y in s[..n] || y == s[n];
      BracketIs(s[..n], t, proper);
      NoneAbove(s[..n], t);
      if FirstAbove(s[..n], t).None? && s[n].stamp > t {
        NoneBelow(s, t);
        if n > 0 { assert s[n - 1] in s[..n]; }
      } else if FirstAbove(s[..n], t).None? {
        if n > 0 { assert s[n - 1] in s[..n]; }
      } else {
        AboveStays(s, t);
      }
    }
  }

  lemma AboveStays(s: seq<Timed>, t: int)
    requires InOrder(s) && s != [] && FirstAbove(s[..|s| - 1], t).Some?
    ensures s[|s| - 1].stamp > t
  {
    var n := |s| - 1;
    NoneAbove(s[..n], t);
    var x :| x in s[..n] && x.stamp > t;
    var i :| 0 <= i < n && s[..n][i] == x;
  }

  lemma ExactStep(s: seq<Timed>, x: Timed, t: int)
    ensures ExactAt(s + [x], t) == if ExactAt(s, t).Some? then ExactAt(s, t) else if x.stamp == t then Some(x) else None
  {
    assert (s + [x])[..|s|] == s;
  }

  lemma BelowStep(s: seq<Timed>, x: Timed, t: int)
    ensures LastBelow(s + [x], t) == if x.stamp < t then Some(x) else LastBelow(s, t)
  {
    assert (s + [x])[..|s|] == s;
  }

  lemma AboveStep(s: seq<Timed>, x: Timed, t: int)
    ensures FirstAbove(s + [x], t) == if FirstAbove(s, t).Some? then FirstAbove(s, t) else if x.stamp > t then Some(x) else None
  {
    assert (s + [x])[..|s|] == s;
  }

  /** A sample found in the whole list is found among the kept ones, if it is kept. */
  lemma {:induction false} FilteredFinds(s: seq<Timed>, keep: Timed -> bool, t: int)
    ensures ExactAt(s, t).Some? && keep(ExactAt(s, t).value) ==> ExactAt(Filter(s, keep), t) == ExactAt(s, t)
    ensures ExactAt(s, t).None? ==> ExactAt(Filter(s, keep), t).None?
    ensures LastBelow(s, t).Some? && keep(LastBelow(s, t).value) ==> LastBelow(Filter(s, keep), t) == LastBelow(s, t)
    ensures FirstAbove(s, t).Some? && keep(FirstAbove(s, t).value) ==> FirstAbove(Filter(s, keep), t) == FirstAbove(s, t)
    ensures FirstAbove(s, t).None? ==> FirstAbove(Filter(s, keep), t).None?
  {
    if s != [] {
      var n := |s| - 1;
      var x, f := s[n], Filter(s[..n], keep);
      assert s == s[..n] + [x];
      FilteredFinds(s[..n], keep, t);
      hide Filter, ExactAt, LastBelow, FirstAbove;
      FilterStep(s[..n], x, keep);
      ExactStep(s[..n], x, t);
      ExactStep(f, x, t);
      BelowStep(s[..n], x, t);
      BelowStep(f, x, t);
      AboveStep(s[..n], x, t);
      AboveStep(f, x, t);
    }
  }
}
