/** The writer-owned snapshot of an evidence record: a recursive copy that spends one
    shared, mutable byte budget, and the pure account of when it succeeds and what it
    yields. */
module Snapshots {
  import opened Values

  const MAX_SNAPSHOT_DEPTH: nat := 8
  const MAX_SNAPSHOT_BYTES: nat := 256 * 1024

  datatype Key = KText(s: string) | KOther

  /** The value a Python object graph denotes, container identity forgotten. */
  datatype Tree =
    | TNone
    | TBool(b: bool)
    | TInt(n: int)
    | TStr(s: string)
    | TFloat(r: real)
    | TNonfinite
    | TDict(entries: seq<Entry>)
    | TList(items: seq<Tree>)
    | TTuple(items: seq<Tree>)
    | TOther

  datatype Entry = Entry(key: Key, value: Tree)

  datatype SnapshotError = DepthExceeded | SizeExceeded | NonfiniteNumber | KeyNotString | UnsupportedType | RecordNotMapping

  function Utf8Length(s: string): nat {
    if s == "" then 0
    else Utf8Length(s[..|s| - 1]) +
         (var c := s[|s| - 1] as int;
          if c < 0x80 then 1 else if c < 0x800 then 2 else if c < 0x1_0000 then 3 else 4)
  }

  function KeyCost(k: Key): nat {
    if k.KText? then Utf8Length(k.s) + 4 else 0
  }

  /** Bytes charged for a whole value. */
  function Cost(t: Tree): nat
    decreases t, 1
  {
    match t
    case TStr(s) => Utf8Length(s)
    case TDict(entries) => CostEntries(entries)
    case TList(items) => CostItems(items)
    case TTuple(items) => CostItems(items)
    case TOther => 0
    case TNonfinite => 0
    case _ => 8
  }

  function CostEntries(es: seq<Entry>): nat
    decreases es, 0
  {
    if es == [] then 0
    else CostEntries(es[..|es| - 1]) + CostEntry(es[|es| - 1])
  }

  function CostEntry(e: Entry): nat
    decreases e, 0
  {
    KeyCost(e.key) + Cost(e.value)
  }

  function CostItems(ts: seq<Tree>): nat
    decreases ts, 0
  {
    if ts == [] then 0
    else CostItems(ts[..|ts| - 1]) + 1 + Cost(ts[|ts| - 1])
  }

  /** Only JSON types, finite numbers, text keys, and nothing below depth eight. */
  predicate Supported(t: Tree, depth: nat)
    decreases t
  {
    depth <= MAX_SNAPSHOT_DEPTH &&
    match t
    case TNonfinite => false
    case TOther => false
    case TDict(entries) => forall e | e in entries :: e.key.KText? && Supported(e.value, depth + 1)
    case TList(items) => forall x | x in items :: Supported(x, depth + 1)
    case TTuple(items) => forall x | x in items :: Supported(x, depth + 1)
    case _ => true
  }

  /** What a snapshot keeps of a value: everything, except that tuples become lists. */
  function Freeze(t: Tree): Tree
    decreases t, 1
  {
    match t
    case TDict(entries) => TDict(FreezeEntries(entries))
    case TList(items) => TList(FreezeItems(items))
    case TTuple(items) => TList(FreezeItems(items))
    case _ => t
  }

  function FreezeEntries(es: seq<Entry>): (r: seq<Entry>)
    ensures |r| == |es|
    ensures forall i | 0 <= i < |es| :: r[i] == FreezeEntry(es[i])
    decreases es, 0
  {
    if es == [] then []
    else FreezeEntries(es[..|es| - 1]) + [FreezeEntry(es[|es| - 1])]
  }

  function FreezeEntry(e: Entry): Entry
    decreases e, 0
  {
    Entry(e.key, Freeze(e.value))
  }

  function FreezeItems(ts: seq<Tree>): (r: seq<Tree>)
    ensures |r| == |ts|
    ensures forall i | 0 <= i < |ts| :: r[i] == Freeze(ts[i])
    decreases ts, 0
  {
    if ts == [] then []
    else FreezeItems(ts[..|ts| - 1]) + [Freeze(ts[|ts| - 1])]
  }

  // ---- the object graph -------------------------------------------------------

  datatype ContainerKind = DictKind | ListKind | TupleKind

  datatype Slot = Slot(key: Key, item: Ref)

  datatype Ref =
    | RScalar(t: Tree)
    | RBox(c: Container)

  /** A container object. Its identity is what a snapshot must not share. */
  class Container {
    const kind: ContainerKind
    const slots: seq<Slot>

    constructor (kind: ContainerKind, slots: seq<Slot>)
      ensures this.kind == kind && this.slots == slots
    {
      this.kind := kind;
      this.slots := slots;
    }
  }

  /** The value denoted by a reference, looking `fuel` containers deep. */
  function Shape(v: Ref, fuel: nat): Tree
    decreases fuel, 1
  {
    match v
    case RScalar(t) =>
      if t.TDict? || t.TList? || t.TTuple? then TOther else t
    case RBox(c) =>
      if fuel == 0 then TOther
      else match c.kind
        case DictKind => TDict(ShapeEntries(c.slots, fuel - 1))
        case ListKind => TList(ShapeItems(c.slots, fuel - 1))
        case TupleKind => TTuple(ShapeItems(c.slots, fuel - 1))
  }

  function ShapeEntries(ss: seq<Slot>, fuel: nat): (r: seq<Entry>)
    ensures |r| == |ss|
    ensures forall i | 0 <= i < |ss| :: r[i] == Entry(ss[i].key, Shape(ss[i].item, fuel))
    decreases fuel, 2, |ss|
  {
    if ss == [] then []
    else ShapeEntries(ss[..|ss| - 1], fuel) + [Entry(ss[|ss| - 1].key, Shape(ss[|ss| - 1].item, fuel))]
  }

  function ShapeItems(ss: seq<Slot>, fuel: nat): (r: seq<Tree>)
    ensures |r| == |ss|
    ensures forall i | 0 <= i < |ss| :: r[i] == Shape(ss[i].item, fuel)
    decreases fuel, 2, |ss|
  {
    if ss == [] then []
    else ShapeItems(ss[..|ss| - 1], fuel) + [Shape(ss[|ss| - 1].item, fuel)]
  }

  /** The containers reachable within `fuel` steps. */
  ghost function Containers(v: Ref, fuel: nat): set<Container>
    decreases fuel, 1
  {
    match v
    case RScalar(_) => {}
    case RBox(c) =>
      {c} + if fuel == 0 then {} else
        SlotContainers(c.slots, fuel - 1)
  }

  ghost function SlotContainers(ss: seq<Slot>, fuel: nat): (r: set<Container>)
    decreases fuel, 2, |ss|
  {
    if ss == [] then {}
    else SlotContainers(ss[..|ss| - 1], fuel) + Containers(ss[|ss| - 1].item, fuel)
  }

  /** What the copy of a value costs, whether it is allowed, and what it must denote. */
  function Price(v: Ref, fuel: nat): nat {
    Cost(Shape(v, fuel))
  }

  predicate Fits(v: Ref, fuel: nat, depth: nat) {
    Supported(Shape(v, fuel), depth)
  }

  predicate FrozenFrom(copy: Ref, v: Ref, fuel: nat) {
    Shape(copy, fuel) == Freeze(Shape(v, fuel))
  }

  // ---- the copy ---------------------------------------------------------------

  class Budget {
    var left: int

    constructor (bytes: int)
      ensures left == bytes
    {
      left := bytes;
    }
  }

  datatype Outcome = Copied(v: Ref) | Refused(e: SnapshotError)

  function Charge(kind: ContainerKind, k: Key): nat {
    if kind.DictKind? then KeyCost(k) else 1
  }

  function SlotsCost(kind: ContainerKind, ss: seq<Slot>, fuel: nat): nat
    decreases |ss|
  {
    if ss == [] then 0
    else SlotsCost(kind, ss[..|ss| - 1], fuel) + Charge(kind, ss[|ss| - 1].key) + Price(ss[|ss| - 1].item, fuel)
  }

  predicate SlotFits(kind: ContainerKind, s: Slot, fuel: nat, depth: nat) {
    (kind.DictKind? ==> s.key.KText?) && Fits(s.item, fuel, depth)
  }

  predicate SlotCopied(kind: ContainerKind, s: Slot, out: Slot, fuel: nat) {
    (kind.DictKind? ==> out.key == s.key) && FrozenFrom(out.item, s.item, fuel)
  }

  lemma {:induction false} SlotsCostMonotone(kind: ContainerKind, ss: seq<Slot>, fuel: nat, n: nat)
    requires n <= |ss|
    ensures SlotsCost(kind, ss[..n], fuel) <= SlotsCost(kind, ss, fuel)
    decreases |ss| - n
  {
    hide Price;
    if n == |ss| {
      assert ss[..n] == ss;
    } else {
      SlotsCostMonotone(kind, ss, fuel, n + 1);
      assert ss[..n + 1][..n] == ss[..n];
    }
  }

  lemma {:induction false} ItemsCost(ss: seq<Slot>, fuel: nat)
    ensures CostItems(ShapeItems(ss, fuel)) == SlotsCost(ListKind, ss, fuel)
    ensures CostItems(ShapeItems(ss, fuel)) == SlotsCost(TupleKind, ss, fuel)
    decreases |ss|
  {
    hide Cost, Shape;
    if ss != [] {
      var n := |ss| - 1;
      ItemsCost(ss[..n], fuel);
      assert ShapeItems(ss, fuel)[..n] == ShapeItems(ss[..n], fuel);
    }
  }

  lemma {:induction false} EntriesCost(ss: seq<Slot>, fuel: nat)
    ensures CostEntries(ShapeEntries(ss, fuel)) == SlotsCost(DictKind, ss, fuel)
    decreases |ss|
  {
    hide Cost, Shape;
    if ss != [] {
      var n := |ss| - 1;
      EntriesCost(ss[..n], fuel);
      assert ShapeEntries(ss, fuel)[..n] == ShapeEntries(ss[..n], fuel);
    }
  }

  /** A container costs what its slots cost. */
  lemma ContainerPrice(c: Container, fuel: nat)
    ensures Price(RBox(c), fuel + 1) == SlotsCost(c.kind, c.slots, fuel)
  {
    ItemsCost(c.slots, fuel);
    EntriesCost(c.slots, fuel);
  }

  lemma DictSupported(es: seq<Entry>, depth: nat)
    requires depth <= MAX_SNAPSHOT_DEPTH
    ensures Supported(TDict(es), depth) <==>
            forall i | 0 <= i < |es| :: es[i].key.KText? && Supported(es[i].value, depth + 1)
  {
  }

  lemma ListSupported(ts: seq<Tree>, depth: nat)
    requires depth <= MAX_SNAPSHOT_DEPTH
    ensures Supported(TList(ts), depth) <==> forall i | 0 <= i < |ts| :: Supported(ts[i], depth + 1)
    ensures Supported(TTuple(ts), depth) <==> Supported(TList(ts), depth)
  {
    if Supported(TList(ts), depth) {
      forall i | 0 <= i < |ts| ensures Supported(ts[i], depth + 1) {
        assert ts[i] in ts;
      }
    }
  }

  lemma TooDeep(v: Ref, fuel: nat, depth: nat)
    requires depth > MAX_SNAPSHOT_DEPTH
    ensures !Fits(v, fuel, depth)
  {
  }

  /** A container is supported when all its slots are. */
  lemma ContainerFits(c: Container, fuel: nat, depth: nat)
    requires depth <= MAX_SNAPSHOT_DEPTH
    ensures Fits(RBox(c), fuel + 1, depth) <==>
            forall i | 0 <= i < |c.slots| :: SlotFits(c.kind, c.slots[i], fuel, depth + 1)
  {
    DictSupported(ShapeEntries(c.slots, fuel), depth);
    ListSupported(ShapeItems(c.slots, fuel), depth);
    hide Supported;
    if c.kind.DictKind? {
      var es := ShapeEntries(c.slots, fuel);
      assert forall i | 0 <= i < |c.slots| :: es[i].key.KText? && Supported(es[i].value, depth + 1) <==>
                                              SlotFits(c.kind, c.slots[i], fuel, depth + 1);
    } else {
      var ts := ShapeItems(c.slots, fuel);
      assert forall i | 0 <= i < |c.slots| :: Supported(ts[i], depth + 1) <==>
                                              SlotFits(c.kind, c.slots[i], fuel, depth + 1);
    }
  }

  /** A container rebuilt from copied slots denotes the frozen container. */
  lemma RebuiltContainer(c: Container, copy: Container, fuel: nat)
    requires copy.kind == if c.kind.DictKind? then DictKind else ListKind
    requires |copy.slots| == |c.slots|
    requires forall i | 0 <= i < |c.slots| :: SlotCopied(c.kind, c.slots[i], copy.slots[i], fuel)
    ensures FrozenFrom(RBox(copy), RBox(c), fuel + 1)
    ensures Containers(RBox(copy), fuel + 1) == {copy} + SlotContainers(copy.slots, fuel)
  {
    if c.kind.DictKind? {
      var es, fs := ShapeEntries(c.slots, fuel), ShapeEntries(copy.slots, fuel);
      assert fs == FreezeEntries(es);
    } else {
      var ts, us := ShapeItems(c.slots, fuel), ShapeItems(copy.slots, fuel);
      assert us == FreezeItems(ts);
    }
  }

  lemma ScalarCopy(t: Tree, fuel: nat, depth: nat)
    requires depth <= MAX_SNAPSHOT_DEPTH
    ensures Fits(RScalar(t), fuel, depth) <==> !(t.TNonfinite? || t.TOther? || t.TDict? || t.TList? || t.TTuple?)
    ensures Fits(RScalar(t), fuel, depth) ==>
              && Price(RScalar(t), fuel) == (if t.TStr? then Utf8Length(t.s) else 8)
              && FrozenFrom(RScalar(t), RScalar(t), fuel)
              && Containers(RScalar(t), fuel) == {}
  {
  }

  /** The recursive copy. It succeeds exactly when the value is supported at this depth
      and fits the bytes that are left; it then charges exactly the value's cost, yields
      the frozen value, and yields it in containers that did not exist before. */
  method SnapshotValue(v: Ref, depth: nat, budget: Budget) returns (r: Outcome)
    requires depth <= MAX_SNAPSHOT_DEPTH + 1
    requires budget.left >= 0
    modifies budget
    ensures var fuel := MAX_SNAPSHOT_DEPTH + 1 - depth;
            && (r.Copied? <==> Fits(v, fuel, depth) && Price(v, fuel) <= old(budget.left))
            && (r.Copied? ==>
                  && budget.left == old(budget.left) - Price(v, fuel)
                  && FrozenFrom(r.v, v, fuel)
                  && forall c | c in Containers(r.v, fuel) :: fresh(c))
    decreases MAX_SNAPSHOT_DEPTH + 1 - depth, 2
  {
    hide Fits, Price, FrozenFrom, Containers;
    if depth > MAX_SNAPSHOT_DEPTH {
      TooDeep(v, MAX_SNAPSHOT_DEPTH + 1 - depth, depth);
      return Refused(DepthExceeded);
    }
    ghost var fuel := MAX_SNAPSHOT_DEPTH - depth;
    match v
    case RScalar(t) =>
      ScalarCopy(t, fuel + 1, depth);
      if t.TNonfinite? {
        return Refused(NonfiniteNumber);
      } else if t.TOther? || t.TDict? || t.TList? || t.TTuple? {
        return Refused(UnsupportedType);
      }
      budget.left := budget.left - if t.TStr? then Utf8Length(t.s) else 8;
      if budget.left < 0 {
        return Refused(SizeExceeded);
      }
      r := Copied(v);
    case RBox(c) =>
      ContainerPrice(c, fuel);
      ContainerFits(c, fuel, depth);
      var slots, error := SnapshotSlots(c, depth, budget);
      if error.Some? {
        return Refused(error.value);
      }
      var copy := new Container(if c.kind.DictKind? then DictKind else ListKind, slots);
      RebuiltContainer(c, copy, fuel);
      r := Copied(RBox(copy));
  }

  function SlotCost(kind: ContainerKind, s: Slot, fuel: nat): nat {
    Charge(kind, s.key) + Price(s.item, fuel)
  }

  lemma SlotsCostStep(kind: ContainerKind, ss: seq<Slot>, fuel: nat, i: nat)
    requires i < |ss|
    ensures SlotsCost(kind, ss[..i + 1], fuel) == SlotsCost(kind, ss[..i], fuel) + SlotCost(kind, ss[i], fuel)
    ensures SlotsCost(kind, ss[..i + 1], fuel) <= SlotsCost(kind, ss, fuel)
  {
    hide Price, Charge;
    assert ss[..i + 1][..i] == ss[..i];
    SlotsCostMonotone(kind, ss, fuel, i + 1);
  }

  lemma SlotContainersStep(ss: seq<Slot>, s: Slot, fuel: nat)
    ensures SlotContainers(ss + [s], fuel) == SlotContainers(ss, fuel) + Containers(s.item, fuel)
  {
    hide Containers;
    assert (ss + [s])[..|ss|] == ss;
  }

  /** One item or element: its key is checked and charged, then its value copied. */
  method SnapshotSlot(kind: ContainerKind, slot: Slot, depth: nat, budget: Budget) returns (copy: Slot, error: Option<SnapshotError>)
    requires depth <= MAX_SNAPSHOT_DEPTH
    requires budget.left >= 0
    modifies budget
    ensures var fuel := MAX_SNAPSHOT_DEPTH - depth;
            && (error.None? <==> SlotFits(kind, slot, fuel, depth + 1) && SlotCost(kind, slot, fuel) <= old(budget.left))
            && (error.None? ==>
                  && budget.left == old(budget.left) - SlotCost(kind, slot, fuel)
                  && SlotCopied(kind, slot, copy, fuel)
                  && (forall d | d in Containers(copy.item, fuel) :: fresh(d)))
    decreases MAX_SNAPSHOT_DEPTH + 1 - depth, 0
  {
    hide Fits, Price, FrozenFrom, Containers, Utf8Length;
    copy, error := slot, None;
    if kind.DictKind? && !slot.key.KText? {
      return copy, Some(KeyNotString);
    }
    budget.left := budget.left - if kind.DictKind? then Utf8Length(slot.key.s) + 4 else 1;
    if budget.left < 0 {
      return copy, Some(SizeExceeded);
    }
    var copied := SnapshotValue(slot.item, depth + 1, budget);
    if copied.Refused? {
      return copy, Some(copied.e);
    }
    copy := Slot(slot.key, copied.v);
  }

  /** The two loops over a mapping's items and over a list's or tuple's elements. */
  method SnapshotSlots(c: Container, depth: nat, budget: Budget) returns (out: seq<Slot>, error: Option<SnapshotError>)
    requires depth <= MAX_SNAPSHOT_DEPTH
    requires budget.left >= 0
    modifies budget
    ensures var fuel := MAX_SNAPSHOT_DEPTH - depth;
            && (error.None? <==>
                  && (forall i | 0 <= i < |c.slots| :: SlotFits(c.kind, c.slots[i], fuel, depth + 1))
                  && SlotsCost(c.kind, c.slots, fuel) <= old(budget.left))
            && (error.None? ==>
                  && budget.left == old(budget.left) - SlotsCost(c.kind, c.slots, fuel)
                  && |out| == |c.slots|
                  && (forall i | 0 <= i < |c.slots| :: SlotCopied(c.kind, c.slots[i], out[i], fuel))
                  && (forall d | d in SlotContainers(out, fuel) :: fresh(d)))
    decreases MAX_SNAPSHOT_DEPTH + 1 - depth, 1
  {
    hide SlotFits, SlotCost, SlotCopied, Containers, SlotsCost, SlotContainers, CopiedUpTo;
    ghost var fuel := MAX_SNAPSHOT_DEPTH - depth;
    out, error := [], None;
    ghost var spent: nat := 0;
    NoSlots(c, fuel, depth + 1);
    for i := 0 to |c.slots|
      invariant error.None? && budget.left >= 0 && budget.left == old(budget.left) - spent
      invariant CopiedUpTo(c, out, fuel, depth + 1, i, spent)
      invariant fresh(SlotContainers(out, fuel))
    {
      CopyStep(c, out, fuel, depth + 1, i, spent);
      var copy;
      copy, error := SnapshotSlot(c.kind, c.slots[i], depth, budget);
      if error.Some? {
        return;
      }
      SlotContainersStep(out, copy, fuel);
      CopyGrows(c, out, copy, fuel, depth + 1, i, spent);
      out, spent := out + [copy], spent + SlotCost(c.kind, c.slots[i], fuel);
    }
    CopyEnds(c, out, fuel, depth + 1, spent);
  }

  /** The first n slots are supported and copied, at this cost. */
  ghost predicate CopiedUpTo(c: Container, out: seq<Slot>, fuel: nat, depth: nat, n: nat, spent: nat) {
    && n == |out| <= |c.slots| && spent == SlotsCost(c.kind, c.slots[..n], fuel)
    && (forall j | 0 <= j < n :: SlotFits(c.kind, c.slots[j], fuel, depth) && SlotCopied(c.kind, c.slots[j], out[j], fuel))
  }

  lemma NoSlots(c: Container, fuel: nat, depth: nat)
    ensures CopiedUpTo(c, [], fuel, depth, 0, 0) && SlotContainers([], fuel) == {}
  {
    assert c.slots[..0] == [];
  }

  /** The next slot decides whether the copy can go on. */
  lemma CopyStep(c: Container, out: seq<Slot>, fuel: nat, depth: nat, n: nat, spent: nat)
    requires CopiedUpTo(c, out, fuel, depth, n, spent) && n < |c.slots|
    ensures spent + SlotCost(c.kind, c.slots[n], fuel) <= SlotsCost(c.kind, c.slots, fuel)
    ensures !SlotFits(c.kind, c.slots[n], fuel, depth) ==> !(forall i | 0 <= i < |c.slots| :: SlotFits(c.kind, c.slots[i], fuel, depth))
  {
    hide SlotFits, SlotCopied, SlotCost, SlotsCost;
    SlotsCostStep(c.kind, c.slots, fuel, n);
  }

  lemma CopyGrows(c: Container, out: seq<Slot>, copy: Slot, fuel: nat, depth: nat, n: nat, spent: nat)
    requires CopiedUpTo(c, out, fuel, depth, n, spent) && n < |c.slots|
    requires SlotFits(c.kind, c.slots[n], fuel, depth) && SlotCopied(c.kind, c.slots[n], copy, fuel)
    ensures CopiedUpTo(c, out + [copy], fuel, depth, n + 1, spent + SlotCost(c.kind, c.slots[n], fuel))
  {
    hide SlotFits, SlotCopied, SlotCost, SlotsCost;
    SlotsCostStep(c.kind, c.slots, fuel, n);
  }

  lemma CopyEnds(c: Container, out: seq<Slot>, fuel: nat, depth: nat, spent: nat)
    requires CopiedUpTo(c, out, fuel, depth, |c.slots|, spent)
    ensures |out| == |c.slots| && spent == SlotsCost(c.kind, c.slots, fuel)
    ensures forall i | 0 <= i < |c.slots| :: SlotFits(c.kind, c.slots[i], fuel, depth) && SlotCopied(c.kind, c.slots[i], out[i], fuel)
  {
    hide SlotFits, SlotCopied, SlotsCost;
    assert c.slots[..|c.slots|] == c.slots;
  }

  function RootFuel(): nat {
    MAX_SNAPSHOT_DEPTH + 1
  }

  /** Entry point used before a record reaches the queue. */
  method SnapshotRecord(record: Ref) returns (r: Outcome)
    ensures r.Copied? <==>
            && record.RBox? && record.c.kind.DictKind?
            && Fits(record, RootFuel(), 0)
            && Price(record, RootFuel()) <= MAX_SNAPSHOT_BYTES
    ensures r.Copied? ==> FrozenFrom(r.v, record, RootFuel())
    ensures r.Copied? ==> forall c | c in Containers(r.v, RootFuel()) :: fresh(c)
  {
    hide Fits, Price, FrozenFrom, Containers;
    if !(record.RBox? && record.c.kind.DictKind?) {
      return Refused(RecordNotMapping);
    }
    var budget := new Budget(MAX_SNAPSHOT_BYTES);
    r := SnapshotValue(record, 0, budget);
  }

  // ---- what a snapshot is -----------------------------------------------------

  /** A snapshot costs and is supported exactly like its source, and freezing it
      again changes nothing. */
  lemma {:induction false} FreezeIsStable(t: Tree, depth: nat)
    ensures Cost(Freeze(t)) == Cost(t)
    ensures Supported(Freeze(t), depth) <==> Supported(t, depth)
    ensures Freeze(Freeze(t)) == Freeze(t)
    decreases t, 1
  {
    hide CostEntries, CostItems, FreezeEntries, FreezeItems, CostEntry, FreezeEntry, Utf8Length;
    match t
    case TDict(entries) => FreezeEntriesStable(entries, depth + 1);
    case TList(items) => FreezeItemsStable(items, depth + 1);
    case TTuple(items) => FreezeItemsStable(items, depth + 1);
    case _ =>
  }

  lemma NoItems()
    ensures FreezeItems([]) == []
  {
  }

  lemma {:induction false} FreezeItemsStable(ts: seq<Tree>, depth: nat)
    ensures CostItems(FreezeItems(ts)) == CostItems(ts)
    ensures (forall x | x in FreezeItems(ts) :: Supported(x, depth)) <==> (forall x | x in ts :: Supported(x, depth))
    ensures FreezeItems(FreezeItems(ts)) == FreezeItems(ts)
    decreases ts, 0
  {
    hide CostItems, FreezeItems, Supported, Cost, Freeze;
    if ts == [] {
      NoItems();
    } else {
      var init, t := ts[..|ts| - 1], ts[|ts| - 1];
      FreezeItemsStable(init, depth);
      FreezeIsStable(t, depth);
      Front(ts);
      ItemsStep(init, t, depth);
      ItemsStep(FreezeItems(init), Freeze(t), depth);
    }
  }

  lemma Front<T>(s: seq<T>)
    requires s != []
    ensures s == s[..|s| - 1] + [s[|s| - 1]]
  {
  }

  lemma ItemsStep(ts: seq<Tree>, t: Tree, depth: nat)
    ensures CostItems(ts + [t]) == CostItems(ts) + 1 + Cost(t)
    ensures FreezeItems(ts + [t]) == FreezeItems(ts) + [Freeze(t)]
    ensures (forall x | x in ts + [t] :: Supported(x, depth)) <==> (forall x | x in ts :: Supported(x, depth)) && Supported(t, depth)
  {
    assert (ts + [t])[..|ts|] == ts;
    hide Supported, Cost, Freeze;
    assert forall x :: x in ts + [t] <==> x in ts || x == t;
  }

  lemma EntriesStep(es: seq<Entry>, e: Entry, depth: nat)
    ensures CostEntries(es + [e]) == CostEntries(es) + CostEntry(e)
    ensures FreezeEntries(es + [e]) == FreezeEntries(es) + [FreezeEntry(e)]
    ensures (forall x | x in es + [e] :: x.key.KText? && Supported(x.value, depth)) <==>
            (forall x | x in es :: x.key.KText? && Supported(x.value, depth)) && EntryOk(e, depth)
  {
    assert (es + [e])[..|es|] == es;
    hide Supported, CostEntry, FreezeEntry;
    assert forall x :: x in es + [e] <==> x in es || x == e;
  }

  predicate EntryOk(e: Entry, depth: nat) {
    e.key.KText? && Supported(e.value, depth)
  }

  lemma NoEntries()
    ensures FreezeEntries([]) == []
  {
  }

  lemma {:induction false} FreezeEntriesStable(es: seq<Entry>, depth: nat)
    ensures CostEntries(FreezeEntries(es)) == CostEntries(es)
    ensures (forall e | e in FreezeEntries(es) :: e.key.KText? && Supported(e.value, depth)) <==>
            (forall e | e in es :: e.key.KText? && Supported(e.value, depth))
    ensures FreezeEntries(FreezeEntries(es)) == FreezeEntries(es)
    decreases es, 0
  {
    hide CostEntries, FreezeEntries, Supported, CostEntry, FreezeEntry, EntryOk;
    if es == [] {
      NoEntries();
    } else {
      var init, e := es[..|es| - 1], es[|es| - 1];
      FreezeEntriesStable(init, depth);
      FreezeEntryStable(e, depth);
      Front(es);
      EntriesStep(init, e, depth);
      EntriesStep(FreezeEntries(init), FreezeEntry(e), depth);
    }
  }

  lemma {:induction false} FreezeEntryStable(e: Entry, depth: nat)
    ensures CostEntry(FreezeEntry(e)) == CostEntry(e)
    ensures EntryOk(FreezeEntry(e), depth) <==> EntryOk(e, depth)
    ensures FreezeEntry(FreezeEntry(e)) == FreezeEntry(e)
    decreases e, 0
  {
    FreezeIsStable(e.value, depth);
  }

  /** Snapshotting a snapshot is accepted exactly like its source, costs the same, and
      denotes the same value. */
  lemma SnapshotAgain(v: Ref, copy: Ref, again: Ref, fuel: nat, depth: nat)
    requires FrozenFrom(copy, v, fuel) && FrozenFrom(again, copy, fuel)
    ensures Fits(copy, fuel, depth) <==> Fits(v, fuel, depth)
    ensures Price(copy, fuel) == Price(v, fuel)
    ensures Shape(again, fuel) == Shape(copy, fuel)
  {
    hide Freeze, Supported, Cost, Shape;
    FreezeIsStable(Shape(v, fuel), depth);
  }
}
