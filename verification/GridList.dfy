/**
 * The GPU form of INDEXLIST: striped loads, the block scan through the exchange
 * primitives, the look-back over the blocks, and the scattered writes.
 */
module GridList {
  import opened Arith
  import opened IndexList
  import L = LookBack

  /** Threads in a block, items per thread, lanes in a warp. */
  datatype Launch = Launch(threads: nat, items: nat, lanes: nat) {
    ghost predicate Valid() {
      threads >= 1 && items >= 1 && lanes >= 1
    }

    function PerBlock(): nat { threads * items }
  }

  /** A register array: one value per thread and item. */
  type Registers = (int, int) -> int

  // ---- index maps --------------------------------------------------------------

  /** The exchange from striped to blocked order, and back. */
  function StripedToBlocked(l: Launch, v: Registers): Registers
    requires l.Valid()
  {
    (t: int, k: int) => v((t * l.items + k) % l.threads, (t * l.items + k) / l.threads)
  }

  function BlockedToStriped(l: Launch, v: Registers): Registers
    requires l.Valid()
  {
    (t: int, k: int) => v((k * l.threads + t) / l.items, (k * l.threads + t) % l.items)
  }

  /** Sum of the first n values in blocked order. */
  function BlockedSum(l: Launch, v: Registers, n: nat): int
    requires l.Valid()
  {
    if n == 0 then 0 else BlockedSum(l, v, n - 1) + v((n - 1) / l.items, (n - 1) % l.items)
  }

  function ExclusiveSum(l: Launch, v: Registers): Registers
    requires l.Valid()
  {
    (t: int, k: int) => if t >= 0 && k >= 0 then BlockedSum(l, v, t * l.items + k) else 0
  }

  function Add(a: Registers, b: Registers): Registers {
    (t: int, k: int) => a(t, k) + b(t, k)
  }

  // ---- one block ---------------------------------------------------------------

  /** The position in x of item k of thread t of block b. */
  function Position(l: Launch, b: nat, t: nat, k: nat): nat {
    b * l.threads * l.items + k * l.threads + t
  }

  /** The selection bits as the threads load them. */
  function Loaded(l: Launch, x: seq<real>, b: nat): Registers {
    (t: int, k: int) => if t >= 0 && k >= 0 then Bit(x, Position(l, b, t, k)) else 0
  }

  function Exclusives(l: Launch, x: seq<real>, b: nat): Registers
    requires l.Valid()
  {
    BlockedToStriped(l, ExclusiveSum(l, StripedToBlocked(l, Loaded(l, x, b))))
  }

  function Inclusives(l: Launch, x: seq<real>, b: nat): Registers
    requires l.Valid()
  {
    var val := StripedToBlocked(l, Loaded(l, x, b));
    BlockedToStriped(l, Add(ExclusiveSum(l, val), val))
  }

  function Base(l: Launch, b: nat): nat {
    b * l.threads * l.items
  }

  /** In blocked order the values are the bits in index order. */
  lemma BlockedBit(l: Launch, x: seq<real>, b: nat, q: nat, r: nat)
    requires l.Valid() && q * l.items + r < l.PerBlock()
    ensures StripedToBlocked(l, Loaded(l, x, b))(q, r) == Bit(x, Base(l, b) + q * l.items + r)
  {
    var p := q * l.items + r;
    var t, k := p % l.threads, p / l.threads;
    Split(p, l.threads);
    assert Loaded(l, x, b)(t, k) == Bit(x, Position(l, b, t, k));
  }

  lemma {:induction false} BlockedSumCounts(l: Launch, x: seq<real>, b: nat, n: nat)
    requires l.Valid() && n <= l.PerBlock()
    ensures BlockedSum(l, StripedToBlocked(l, Loaded(l, x, b)), n) == Count(x, Base(l, b) + n) - Count(x, Base(l, b))
  {
    if n > 0 {
      BlockedSumCounts(l, x, b, n - 1);
      Split(n - 1, l.items);
      BlockedBit(l, x, b, (n - 1) / l.items, (n - 1) % l.items);
    }
  }

  lemma StripedBound(l: Launch, t: nat, k: nat)
    requires l.Valid() && t < l.threads && k < l.items
    ensures k * l.threads + t < l.PerBlock()
  {
    MulStep(k, l.items, l.threads);
  }

  /** Through both exchanges, each item gets the number selected before it in its block. */
  lemma BlockScan(l: Launch, x: seq<real>, b: nat, t: nat, k: nat)
    requires l.Valid() && t < l.threads && k < l.items
    ensures Exclusives(l, x, b)(t, k) == Count(x, Position(l, b, t, k)) - Count(x, Base(l, b))
    ensures Inclusives(l, x, b)(t, k) == Count(x, Position(l, b, t, k) + 1) - Count(x, Base(l, b))
  {
    var p := k * l.threads + t;
    var q, r := p / l.items, p % l.items;
    var val := StripedToBlocked(l, Loaded(l, x, b));
    StripedBound(l, t, k);
    Split(p, l.items);
    BlockedSumCounts(l, x, b, p);
    BlockedBit(l, x, b, q, r);
    ScanAt(l, val, t, k, q, r);
  }

  lemma ScanAt(l: Launch, val: Registers, t: nat, k: nat, q: nat, r: nat)
    requires l.Valid() && q == (k * l.threads + t) / l.items && r == (k * l.threads + t) % l.items
    ensures BlockedToStriped(l, ExclusiveSum(l, val))(t, k) == BlockedSum(l, val, q * l.items + r)
    ensures BlockedToStriped(l, Add(ExclusiveSum(l, val), val))(t, k) == BlockedSum(l, val, q * l.items + r) + val(q, r)
  {
  }

  // ---- the whole grid ----------------------------------------------------------

  function GridSize(l: Launch, n: nat): nat
    requires l.Valid()
  {
    (n + l.PerBlock() - 1) / l.PerBlock()
  }

  /** The grid is just large enough: its last block is not empty. */
  lemma GridCovers(l: Launch, n: nat)
    requires l.Valid()
    ensures n <= Base(l, GridSize(l, n)) && (n > 0 ==> GridSize(l, n) >= 1 && Base(l, GridSize(l, n) - 1) < n)
  {
    assert l.PerBlock() > 0 by { MulMonotone(1, l.threads, l.items); }
    var m, g := n + l.PerBlock() - 1, GridSize(l, n);
    Split(m, l.PerBlock());
    BaseNext(l, g);
    if g > 0 { BaseNext(l, g - 1); }
  }

  /** What the last thread of each block publishes. */
  function BlockCounts(l: Launch, x: seq<real>): seq<int>
    requires l.Valid()
  {
    seq(GridSize(l, |x|), b requires 0 <= b < GridSize(l, |x|) => Inclusives(l, x, b)(l.threads - 1, l.items - 1))
  }

  lemma BaseNext(l: Launch, b: nat)
    ensures Base(l, b + 1) == Base(l, b) + l.PerBlock() && Base(l, b) == b * l.PerBlock()
  {
    assert b * l.threads * l.items == b * (l.threads * l.items);
    assert (b + 1) * l.threads * l.items == (b + 1) * (l.threads * l.items);
  }

  lemma BlockTotal(l: Launch, x: seq<real>, b: nat)
    requires l.Valid()
    ensures Inclusives(l, x, b)(l.threads - 1, l.items - 1) == Count(x, Base(l, b + 1)) - Count(x, Base(l, b))
  {
    BlockScan(l, x, b, l.threads - 1, l.items - 1);
    LastPosition(l, b);
  }

  lemma LastPosition(l: Launch, b: nat)
    requires l.Valid()
    ensures Position(l, b, l.threads - 1, l.items - 1) + 1 == Base(l, b + 1)
  {
    BaseNext(l, b);
    assert (l.items - 1) * l.threads + l.threads == l.PerBlock();
  }

  lemma {:induction false} PrefixCounts(l: Launch, x: seq<real>, b: nat)
    requires l.Valid() && b <= GridSize(l, |x|)
    ensures L.Prefix(BlockCounts(l, x), b) == Count(x, Base(l, b))
  {
    if b > 0 {
      PrefixCounts(l, x, b - 1);
      BlockTotal(l, x, b - 1);
    }
  }

  /** Each index below n belongs to exactly one thread and item of one block. */
  lemma OwnerOf(l: Launch, n: nat, i: nat)
    requires l.Valid() && i < n
    ensures var p := i % l.PerBlock();
            && i / l.PerBlock() < GridSize(l, n) && p % l.threads < l.threads && p / l.threads < l.items
            && Position(l, i / l.PerBlock(), p % l.threads, p / l.threads) == i
  {
    assert l.PerBlock() > 0 by { MulMonotone(1, l.threads, l.items); }
    var p := i % l.PerBlock();
    Split(i, l.PerBlock());
    Split(p, l.threads);
    assert p < l.items * l.threads;
    DivBound(p, l.items, l.threads);
    BaseNext(l, i / l.PerBlock());
    var m := n + l.PerBlock() - 1;
    Split(m, l.PerBlock());
    if GridSize(l, n) <= i / l.PerBlock() { MulMonotone(GridSize(l, n), i / l.PerBlock(), l.PerBlock()); }
  }

  /** Thread and item slots of the grid. */
  datatype Slot = Slot(b: nat, t: nat, k: nat)

  function Slots(l: Launch, n: nat): set<Slot>
    requires l.Valid()
  {
    set b: nat, t: nat, k: nat | b < GridSize(l, n) && t < l.threads && k < l.items :: Slot(b, t, k)
  }

  /** What every slot holds when the look-back of its block is done. */
  lemma FinalCounts(l: Launch, x: seq<real>, slot: Slot, prev: int)
    requires l.Valid() && slot in Slots(l, |x|) && prev == L.Prefix(BlockCounts(l, x), slot.b)
    ensures var i := Position(l, slot.b, slot.t, slot.k);
            && prev + Exclusives(l, x, slot.b)(slot.t, slot.k) == Count(x, i)
            && prev + Inclusives(l, x, slot.b)(slot.t, slot.k) == Count(x, i + 1)
  {
    BlockScan(l, x, slot.b, slot.t, slot.k);
    PrefixCounts(l, x, slot.b);
  }

  ghost predicate LookedBack(l: Launch, x: seq<real>, s: L.State)
    requires l.Valid()
  {
    && |s.blocks| == GridSize(l, |x|)
    && forall b | 0 <= b < |s.blocks| :: s.blocks[b].prev == L.Prefix(BlockCounts(l, x), b)
  }

  /** Any finished run of the look-back, however interleaved, leaves these totals. */
  lemma FinishedLookBack(l: Launch, x: seq<real>, s0: L.State, run: seq<L.Step>, s: L.State)
    requires l.Valid()
    requires var g := L.Grid(l.lanes, BlockCounts(l, x)); L.Initial(g, s0) && L.Reaches(g, s0, run, s) && L.Finished(s)
    ensures LookedBack(l, x, s)
  {
    var g := L.Grid(l.lanes, BlockCounts(l, x));
    L.InitialInv(g, s0);
    L.RunInv(g, s0, run, s);
    forall b | 0 <= b < |s.blocks| ensures s.blocks[b].prev == L.Prefix(BlockCounts(l, x), b) {
      L.PreviousTotalCorrect(g, s0, run, s, b, 0);
      assert s.blocks[b].lanes[0].pc == L.Done;
    }
  }

  /** Every slot that is no longer pending has made its writes. */
  ghost predicate Written(l: Launch, v: seq<real>, pending: set<Slot>, list: seq<int>, len: int)
    requires l.Valid()
  {
    && |v| <= |list|
    && (forall i | 0 <= i < |v| && SlotOf(l, |v|, i) !in pending :: Placed(v, list, i))
    && (|v| > 0 && SlotOf(l, |v|, |v| - 1) !in pending ==> len == Count(v, |v|))
  }

  lemma WriteStep(l: Launch, v: seq<real>, pending: set<Slot>, list: seq<int>, len: int, slot: Slot,
                  after: seq<int>, newLen: int)
    requires l.Valid() && Written(l, v, pending, list, len) && slot in Slots(l, |v|)
    requires var i := Position(l, slot.b, slot.t, slot.k);
             && after == (if i < |v| then Place(v, list, i) else list)
             && newLen == if i == |v| - 1 then Count(v, |v|) else len
    ensures Written(l, v, pending - {slot}, after, newLen)
  {
    var i := Position(l, slot.b, slot.t, slot.k);
    SlotIsOwner(l, |v|, slot);
    forall j | 0 <= j < |v| && SlotOf(l, |v|, j) !in pending - {slot} ensures Placed(v, after, j) {
      if i < |v| { PlaceKeeps(v, list, i, j); }
    }
  }

  // ---- the kernel, look-back and writes interleaved ------------------------------

  /** One step of the grid: of the look-back, or a thread's writes for one of its items. */
  datatype Action = Advance(step: L.Step) | Write(slot: Slot)

  /** Block 0 needs nothing from others; the threads of another block wait for its last warp. */
  predicate Ready(s: L.State, b: nat)
    requires b < |s.blocks|
  {
    if b == 0 then !L.AllAt(s.blocks[b], L.NotStarted) else L.AllAt(s.blocks[b], L.Done)
  }

  /** A complete run of the grid from s on, with the writes of `pending` still to be made. */
  ghost predicate Completes(g: L.Grid, s: L.State, pending: set<Slot>, actions: seq<Action>)
    decreases |actions|
  {
    L.Shape(g, s) &&
    if actions == [] then L.Finished(s) && pending == {}
    else match actions[0]
      case Advance(step) => L.Enabled(g, s, step) && Completes(g, L.Apply(g, s, step), pending, actions[1..])
      case Write(slot) =>
        && slot in pending && slot.b < |s.blocks| && Ready(s, slot.b)
        && Completes(g, s, pending - {slot}, actions[1..])
  }

  /** A block that is ready to write knows its total. */
  lemma ReadyTotal(g: L.Grid, s: L.State, b: nat)
    requires L.Shape(g, s) && L.Inv(g, s) && b < |s.blocks| && b > 0 && Ready(s, b)
    ensures s.blocks[b].prev == L.Prefix(g.counts, b)
  {
    assert L.BlockOk(g, s.mem, b, s.blocks[b]);
    assert s.blocks[b].lanes[0].pc == L.Done;
    assert L.LaneOk(g, s.mem.readys, b, s.blocks[b], 0, s.blocks[b].lanes[0]);
  }

  /** One thread's exclusive and inclusive results for one of its items, once its block is ready. */
  method GridScan(l: Launch, x: array<real>, slot: Slot, s: L.State) returns (exclusive: int, inclusive: int)
    requires l.Valid() && slot in Slots(l, x.Length)
    requires var g := L.Grid(l.lanes, BlockCounts(l, x[..])); L.Shape(g, s) && L.Inv(g, s) && Ready(s, slot.b)
    ensures var i := Position(l, slot.b, slot.t, slot.k);
            exclusive == Count(x[..], i) && inclusive == Count(x[..], i + 1)
  {
    exclusive := Exclusives(l, x[..], slot.b)(slot.t, slot.k);
    inclusive := Inclusives(l, x[..], slot.b)(slot.t, slot.k);
    FinalCounts(l, x[..], slot, L.Prefix(BlockCounts(l, x[..]), slot.b));
    if slot.b != 0 {
      ReadyTotal(L.Grid(l.lanes, BlockCounts(l, x[..])), s, slot.b);
      var prev := s.blocks[slot.b].prev;
      exclusive, inclusive := prev + exclusive, prev + inclusive;
    }
  }

  /** The write of one item. */
  method WriteItem(ghost v: seq<real>, list: array<int>, i: nat, exclusive: int, inclusive: int)
    requires i < |v| <= list.Length && exclusive == Count(v, i) && inclusive == Count(v, i + 1)
    modifies list
    ensures list[..] == Place(v, old(list[..]), i)
    ensures forall k | Count(v, |v|) <= k < list.Length :: list[k] == old(list[k])
  {
    SlotInList(v, i);
    if exclusive != inclusive {
      list[exclusive] := i;
    }
  }

  /** All writes of one item of one thread. */
  method WriteSlot(l: Launch, x: array<real>, list: array<int>, s: L.State, slot: Slot,
                   ghost pending: set<Slot>, oldLen: int)
    returns (len: int)
    requires l.Valid() && x.Length >= 1 && list.Length >= x.Length && slot in Slots(l, x.Length)
    requires var g := L.Grid(l.lanes, BlockCounts(l, x[..])); L.Shape(g, s) && L.Inv(g, s) && Ready(s, slot.b)
    requires Written(l, x[..], pending, list[..], oldLen)
    modifies list
    ensures x[..] == old(x[..]) && Written(l, x[..], pending - {slot}, list[..], len)
    ensures forall k | Count(x[..], x.Length) <= k < list.Length :: list[k] == old(list[k])
  {
    ghost var v, before := x[..], list[..];
    var i := Position(l, slot.b, slot.t, slot.k);
    var exclusive, inclusive := GridScan(l, x, slot, s);
    len := oldLen;
    if i < x.Length {
      WriteItem(v, list, i, exclusive, inclusive);
      if i == x.Length - 1 {
        len := inclusive;
      }
    }
    WriteStep(l, v, pending, before, oldLen, slot, list[..], len);
  }

  /**
   * The kernel as a whole: blocks walk back while others already write, in any order the
   * flags and the block barrier allow.
   */
  method WriteList(l: Launch, x: array<real>, list: array<int>, s0: L.State, actions: seq<Action>) returns (len: int)
    requires l.Valid() && x.Length >= 1 && list.Length >= x.Length
    requires var g := L.Grid(l.lanes, BlockCounts(l, x[..]));
             L.Initial(g, s0) && Completes(g, s0, Slots(l, x.Length), actions)
    modifies list
    ensures len == Count(x[..], x.Length) <= list.Length
    ensures list[..len] == Selected(x[..], x.Length)
    ensures forall k | len <= k < list.Length :: list[k] == old(list[k])
  {
    ghost var v := x[..];
    ghost var g := L.Grid(l.lanes, BlockCounts(l, v));
    L.InitialInv(g, s0);
    var s := s0;
    ghost var pending := Slots(l, x.Length);
    len := 0;
    forall i | 0 <= i < x.Length ensures SlotOf(l, x.Length, i) in pending { OwnerOf(l, x.Length, i); }
    for k := 0 to |actions|
      invariant pending <= Slots(l, x.Length) && x[..] == v
      invariant L.Shape(g, s) && L.Inv(g, s) && Completes(g, s, pending, actions[k..])
      invariant Written(l, v, pending, list[..], len)
      invariant forall j | Count(v, |v|) <= j < list.Length :: list[j] == old(list[j])
    {
      assert actions[k..][0] == actions[k] && actions[k..][1..] == actions[k + 1..];
      match actions[k]
      case Advance(step) =>
        L.StepInv(g, s, step);
        s := L.Apply(L.Grid(l.lanes, BlockCounts(l, x[..])), s, step);
      case Write(slot) =>
        len := WriteSlot(l, x, list, s, slot, pending, len);
        pending := pending - {slot};
    }
    FilledList(v, list[..]);
  }

  function SlotOf(l: Launch, n: nat, i: nat): Slot
    requires l.Valid() && i < n
  {
    MulMonotone(1, l.threads, l.items);
    var p := i % l.PerBlock();
    OwnerOf(l, n, i);
    Slot(i / l.PerBlock(), p % l.threads, p / l.threads)
  }

  lemma SlotIsOwner(l: Launch, n: nat, slot: Slot)
    requires l.Valid() && slot in Slots(l, n)
    ensures var i := Position(l, slot.b, slot.t, slot.k);
            i < n ==> SlotOf(l, n, i) == slot
    ensures forall j | 0 <= j < n && SlotOf(l, n, j) == slot :: j == Position(l, slot.b, slot.t, slot.k)
  {
    var i := Position(l, slot.b, slot.t, slot.k);
    if i < n {
      StripedBound(l, slot.t, slot.k);
      BaseNext(l, slot.b);
      DivMod(slot.b, slot.k * l.threads + slot.t, l.PerBlock());
      DivMod(slot.k, slot.t, l.threads);
    }
    forall j | 0 <= j < n && SlotOf(l, n, j) == slot ensures j == i {
      OwnerOf(l, n, j);
    }
  }
}
