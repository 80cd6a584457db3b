/** Gaps in the producer sequences of the observed world events. */
module WorldGaps {
  import opened Sorting
  import opened WorldEvents

  // ---- gaps in the producer sequence ------------------------------------------

  /** The texts of s, once each, as first seen. */
  function Distinct(s: seq<string>): (r: seq<string>)
    ensures NoRepeat(r) && forall x :: x in r <==> x in s
  {
    if s == [] then []
    else
      var n := |s| - 1;
      var rest := Distinct(s[..n]);
      assert forall x :: x in s <==> x in s[..n] || x == s[n];
      if s[n] in rest then rest else rest + [s[n]]
  }

  function SequencesOf(order: seq<Id>, runtime: string): (r: seq<int>)
    ensures forall n :: n in r <==> Id(runtime, n) in order
  {
    if order == [] then []
    else
      var last := order[|order| - 1];
      assert forall id :: id in order <==> id in order[..|order| - 1] || id == last;
      SequencesOf(order[..|order| - 1], runtime) + if last.runtime == runtime then [last.sequence] else []
  }

  function RuntimesOf(order: seq<Id>): (r: seq<string>)
    ensures NoRepeat(r) && forall x :: x in r <==> exists n :: Id(x, n) in order
  {
    var all := seq(|order|, i requires 0 <= i < |order| => order[i].runtime);
    assert forall i :: 0 <= i < |order| ==> all[i] in all && Id(all[i], order[i].sequence) == order[i];
    Distinct(all)
  }

  /** The ranges missing between neighbours of one runtime. */
  function GapsIn(runtime: string, ordered: seq<int>): seq<Gap> {
    if |ordered| < 2 then []
    else
      var n := |ordered| - 1;
      GapsIn(runtime, ordered[..n]) +
      if ordered[n] > ordered[n - 1] + 1 then [Gap(runtime, ordered[n - 1] + 1, ordered[n] - 1)] else []
  }

  function GapsOver(order: seq<Id>, runtimes: seq<string>): seq<Gap> {
    if runtimes == [] then []
    else
      var n := |runtimes| - 1;
      GapsOver(order, runtimes[..n]) + GapsIn(runtimes[n], Sorted(SequencesOf(order, runtimes[n])))
  }

  function SequenceGaps(order: seq<Id>): seq<Gap> {
    GapsOver(order, RuntimesOf(order))
  }

  predicate InGap(g: Gap, runtime: string, t: int) {
    g.runtime == runtime && g.first <= t <= g.last
  }

  predicate InGaps(gs: seq<Gap>, runtime: string, t: int) {
    exists k :: 0 <= k < |gs| && InGap(gs[k], runtime, t)
  }

  /** t was never observed, though an earlier and a later sequence were. */
  ghost predicate Missing(order: seq<Id>, runtime: string, t: int) {
    Id(runtime, t) !in order && exists a, b :: Id(runtime, a) in order && Id(runtime, b) in order && a < t < b
  }

  predicate Disjoint(gs: seq<Gap>) {
    && (forall k :: 0 <= k < |gs| ==> gs[k].first <= gs[k].last)
    && (forall j, k :: 0 <= j < k < |gs| ==> gs[j].runtime != gs[k].runtime || gs[j].last < gs[k].first)
  }

  lemma InGapsStep(gs: seq<Gap>, hs: seq<Gap>, runtime: string, t: int)
    ensures InGaps(gs + hs, runtime, t) <==> InGaps(gs, runtime, t) || InGaps(hs, runtime, t)
  {
    var all := gs + hs;
    if InGaps(gs, runtime, t) {
      var k :| 0 <= k < |gs| && InGap(gs[k], runtime, t);
      assert all[k] == gs[k];
    }
    if InGaps(hs, runtime, t) {
      var k :| 0 <= k < |hs| && InGap(hs[k], runtime, t);
      assert all[|gs| + k] == hs[k];
    }
  }

  ghost predicate Skipped(ordered: seq<int>, t: int) {
    ordered != [] && ordered[0] < t < ordered[|ordered| - 1] && t !in ordered
  }

  lemma SkippedStep(ordered: seq<int>, t: int)
    requires Increasing(ordered) && |ordered| >= 2
    ensures var n := |ordered| - 1;
            Skipped(ordered, t) <==> Skipped(ordered[..n], t) || ordered[n - 1] < t < ordered[n]
  {
    var n := |ordered| - 1;
    assert forall x :: x in ordered <==> x in ordered[..n] || x == ordered[n];
    assert ordered[..n][n - 1] == ordered[n - 1] && ordered[..n][0] == ordered[0];
    if ordered[n - 1] < t < ordered[n] {
      assert t !in ordered[..n];
    }
  }

  lemma NoGapInside(gs: seq<Gap>, runtime: string, t: int)
    requires gs == []
    ensures !InGaps(gs, runtime, t)
  {
  }

  lemma OneGap(g: Gap, runtime: string, t: int)
    ensures InGaps([g], runtime, t) <==> InGap(g, runtime, t)
  {
    assert [g][0] == g;
  }

  lemma {:induction false} GapsInExactly(runtime: string, ordered: seq<int>, t: int)
    requires Increasing(ordered)
    ensures InGaps(GapsIn(runtime, ordered), runtime, t) <==> Skipped(ordered, t)
  {
    hide InGaps, Skipped;
    if |ordered| < 2 {
      NoGapInside(GapsIn(runtime, ordered), runtime, t);
      ShortSkipsNothing(ordered, t);
    } else {
      var n := |ordered| - 1;
      GapsInExactly(runtime, ordered[..n], t);
      SkippedStep(ordered, t);
      var g := Gap(runtime, ordered[n - 1] + 1, ordered[n] - 1);
      var last := if ordered[n] > ordered[n - 1] + 1 then [g] else [];
      InGapsStep(GapsIn(runtime, ordered[..n]), last, runtime, t);
      OneGap(g, runtime, t);
      NoGapInside([], runtime, t);
    }
  }

  lemma ShortSkipsNothing(ordered: seq<int>, t: int)
    requires |ordered| < 2
    ensures !Skipped(ordered, t)
  {
  }

  lemma {:induction false} GapsInOrder(runtime: string, ordered: seq<int>)
    requires Increasing(ordered)
    ensures Disjoint(GapsIn(runtime, ordered))
    ensures forall k :: 0 <= k < |GapsIn(runtime, ordered)| ==>
              GapsIn(runtime, ordered)[k].runtime == runtime && GapsIn(runtime, ordered)[k].last < ordered[|ordered| - 1]
  {
    if |ordered| >= 2 {
      GapsInOrder(runtime, ordered[..|ordered| - 1]);
    }
  }

  lemma OtherRuntime(runtime: string, ordered: seq<int>, other: string, t: int)
    requires Increasing(ordered) && other != runtime
    ensures !InGaps(GapsIn(runtime, ordered), other, t)
  {
    GapsInOrder(runtime, ordered);
  }

  lemma {:induction false} GapsOverExactly(order: seq<Id>, runtimes: seq<string>, runtime: string, t: int)
    ensures InGaps(GapsOver(order, runtimes), runtime, t) <==>
            runtime in runtimes && Skipped(Sorted(SequencesOf(order, runtime)), t)
  {
    hide InGaps, Skipped, Sorted, SequencesOf;
    if runtimes == [] {
      NoGapInside(GapsOver(order, runtimes), runtime, t);
    } else {
      var n := |runtimes| - 1;
      var ordered := Sorted(SequencesOf(order, runtimes[n]));
      GapsOverExactly(order, runtimes[..n], runtime, t);
      InGapsStep(GapsOver(order, runtimes[..n]), GapsIn(runtimes[n], ordered), runtime, t);
      assert runtime in runtimes <==> runtime in runtimes[..n] || runtime == runtimes[n];
      if runtime == runtimes[n] {
        GapsInExactly(runtime, ordered, t);
      } else {
        OtherRuntime(runtimes[n], ordered, runtime, t);
      }
    }
  }

  lemma SkippedIsMissing(order: seq<Id>, runtime: string, t: int)
    ensures Skipped(Sorted(SequencesOf(order, runtime)), t) <==> Missing(order, runtime, t)
  {
    var s := Sorted(SequencesOf(order, runtime));
    hide Sorted, SequencesOf;
    if Skipped(s, t) {
      assert s[0] in s && s[|s| - 1] in s;
    }
    if Missing(order, runtime, t) {
      var a, b :| Id(runtime, a) in order && Id(runtime, b) in order && a < t < b;
      assert a in s && b in s;
    }
  }

  /** The reported gap ranges are exactly the integers missing between the least and the
      greatest observed sequence of each runtime. */
  lemma GapsExactly(order: seq<Id>, runtime: string, t: int)
    ensures InGaps(SequenceGaps(order), runtime, t) <==> Missing(order, runtime, t)
  {
    hide InGaps, Skipped, Sorted, SequencesOf;
    GapsOverExactly(order, RuntimesOf(order), runtime, t);
    SkippedIsMissing(order, runtime, t);
    assert Missing(order, runtime, t) ==> runtime in RuntimesOf(order);
  }

  ghost predicate RuntimesAmong(gs: seq<Gap>, runtimes: seq<string>) {
    forall k :: 0 <= k < |gs| ==> gs[k].runtime in runtimes
  }

  lemma DisjointConcat(gs: seq<Gap>, hs: seq<Gap>, runtimes: seq<string>, runtime: string)
    requires Disjoint(gs) && Disjoint(hs) && RuntimesAmong(gs, runtimes) && runtime !in runtimes
    requires forall k :: 0 <= k < |hs| ==> hs[k].runtime == runtime
    ensures Disjoint(gs + hs) && RuntimesAmong(gs + hs, runtimes + [runtime])
  {
  }

  lemma {:induction false} GapsOverDisjoint(order: seq<Id>, runtimes: seq<string>)
    requires NoRepeat(runtimes)
    ensures Disjoint(GapsOver(order, runtimes)) && RuntimesAmong(GapsOver(order, runtimes), runtimes)
  {
    hide Disjoint, RuntimesAmong, SequencesOf, Sorted;
    if runtimes == [] {
      NoGaps();
    } else {
      var n := |runtimes| - 1;
      var ordered := Sorted(SequencesOf(order, runtimes[n]));
      GapsOverDisjoint(order, runtimes[..n]);
      GapsInOrder(runtimes[n], ordered);
      DisjointConcat(GapsOver(order, runtimes[..n]), GapsIn(runtimes[n], ordered), runtimes[..n], runtimes[n]);
      assert runtimes[..n] + [runtimes[n]] == runtimes;
    }
  }

  lemma NoGaps()
    ensures Disjoint([]) && forall s :: RuntimesAmong([], s)
  {
  }

  /** No two reported ranges of one runtime overlap, and none is empty. */
  lemma GapsAreDisjoint(order: seq<Id>)
    ensures Disjoint(SequenceGaps(order))
  {
    hide Disjoint;
    GapsOverDisjoint(order, RuntimesOf(order));
  }

  /** No gap is reported exactly when nothing is missing. */
  lemma NoGapsExactly(order: seq<Id>)
    ensures SequenceGaps(order) == [] <==> forall runtime, t :: !Missing(order, runtime, t)
  {
    hide Missing, InGaps;
    var gs := SequenceGaps(order);
    hide SequenceGaps;
    GapsAreDisjoint(order);
    forall runtime, t ensures InGaps(gs, runtime, t) <==> Missing(order, runtime, t) {
      GapsExactly(order, runtime, t);
    }
    if gs == [] {
      forall runtime, t ensures !InGaps(gs, runtime, t) { NoGapInside(gs, runtime, t); }
    } else {
      FirstGap(gs);
      assert Missing(order, gs[0].runtime, gs[0].first);
    }
  }

  lemma FirstGap(gs: seq<Gap>)
    requires gs != [] && Disjoint(gs)
    ensures InGaps(gs, gs[0].runtime, gs[0].first)
  {
    assert InGap(gs[0], gs[0].runtime, gs[0].first);
  }
}
