/** How much of the reduction survives a reordering (or repetition) of the recorded events. */
module LifecycleOrder {
  import opened Values
  import opened LifecycleEvents
  import opened LifecycleOwners
  import opened LifecycleGroups
  import opened LifecycleReduction

  /** The identity and signature pairs attached to one stage of a transaction. */
  ghost function Pairs(t: Tx, st: Stage): set<(EventId, seq<Value>)> {
    set x | x in AllAt(t, st) :: (IdOf(x), Signature(x))
  }

  ghost function PairsIn(es: set<Event>): set<(EventId, seq<Value>)> {
    set x | x in es :: (IdOf(x), Signature(x))
  }

  /** Sets of events that attest each other have the same pairs. */
  lemma PairsMonotone(es: set<Event>, fs: set<Event>)
    requires forall x | x in es :: exists y | y in fs :: IdOf(y) == IdOf(x) && Signature(y) == Signature(x)
    ensures PairsIn(es) <= PairsIn(fs)
  {
    hide IdOf, Signature;
  }

  lemma PairsAreMembers(t: Tx, k: TxKey, st: Stage, all: set<Event>)
    requires Sound(t, k, all) && Exhaustive(t, k, all)
    ensures Pairs(t, st) == PairsIn(Members(all, k, st))
  {
    hide Sound, Exhaustive, Members, IdOf, Signature, AllAt;
    var collected := set x | x in AllAt(t, st);
    var members := Members(all, k, st);
    assert Pairs(t, st) == PairsIn(collected);
    forall x | x in collected ensures x in members { SoundMember(t, k, all, st, x); }
    PairsMonotone(collected, members);
    forall x | x in members ensures exists y | y in collected :: IdOf(y) == IdOf(x) && Signature(y) == Signature(x) {
      MemberAttested(t, k, st, all, x);
    }
    PairsMonotone(members, collected);
  }

  lemma MemberAttested(t: Tx, k: TxKey, st: Stage, all: set<Event>, e: Event)
    requires Exhaustive(t, k, all) && e in Members(all, k, st)
    ensures Attested(t, st, e)
  {
    hide Grouped, KeyOf, StageOf, Attested;
  }

  lemma PermutationHasSameElems(a: seq<Event>, b: seq<Event>)
    requires multiset(a) == multiset(b)
    ensures Elems(a) == Elems(b)
  {
    assert forall e :: e in a <==> e in multiset(a);
    assert forall e :: e in b <==> e in multiset(b);
  }

  /** Grouping depends only on which annotated events there are: the transaction keys, the
      identities and signatures attached to each, and whether anything contradicts. */
  lemma GroupingIgnoresOrder(a: seq<Event>, b: seq<Event>)
    requires Elems(a) == Elems(b)
    ensures var g, h := JoinAll(a), JoinAll(b);
            && g.txs.Keys == h.txs.Keys
            && (forall k, st | k in g.txs && k in h.txs :: Pairs(g.txs[k], st) == Pairs(h.txs[k], st))
            && (g.conflicts > 0 <==> h.conflicts > 0)
  {
    hide JoinAll, Elems, Sound, Shaped, Exhaustive, Pairs, PairsIn, Members, Keys, Remembered, Quarrel, ConflictNoted;
    JoinAllCollects(a);
    JoinAllCollects(b);
    ConflictExactly(a);
    ConflictExactly(b);
    var g, h := JoinAll(a), JoinAll(b);
    forall k, st | k in g.txs && k in h.txs ensures Pairs(g.txs[k], st) == Pairs(h.txs[k], st) {
      PairsAreMembers(g.txs[k], k, st, Elems(a));
      PairsAreMembers(h.txs[k], k, st, Elems(b));
    }
  }

  /** For any two recordings of the same events: the annotated owner of every event, the
      transaction keys, the identity and signature pairs of each transaction, and whether
      the verdict is CONFLICTING are the same. */
  lemma ReductionCoreIgnoresOrder(events: seq<Event>, events': seq<Event>, trace: seq<Event>, trace': seq<Event>)
    requires multiset(events) == multiset(events') && multiset(trace) == multiset(trace')
    ensures var n, n' := Normalize(events, trace), Normalize(events', trace');
            forall i, j | 0 <= i < |n| && 0 <= j < |n'| && n[i] == n'[j] :: AnnotateAll(n)[i] == AnnotateAll(n')[j]
    ensures var g, h := JoinAll(Annotated(events, trace)), JoinAll(Annotated(events', trace'));
            && g.txs.Keys == h.txs.Keys
            && (forall k, st | k in g.txs && k in h.txs :: Pairs(g.txs[k], st) == Pairs(h.txs[k], st))
    ensures Reduce(events, trace).status.OverallConflicting? <==> Reduce(events', trace').status.OverallConflicting?
  {
    hide Elems, Normalize, AnnotateAll, JoinAll, Pairs, Verdicts, References, OverallReasons;
    PermutationHasSameElems(events, events');
    PermutationHasSameElems(trace, trace');
    NormalizeElems(events, events', trace, trace');
    OwnersIgnoreOrder(Normalize(events, trace), Normalize(events', trace'));
    GroupingIgnoresOrder(Annotated(events, trace), Annotated(events', trace'));
  }
}
