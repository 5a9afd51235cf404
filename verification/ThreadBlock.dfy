/**
 * A thread block working through one stage: strided loops that share out the cells of a
 * stage, and the order in which the threads get to run.
 */
module ThreadBlock {
  import Arith
  import opened Buffer
  import opened Lists

  datatype Cell = Cell(z: int, y: int, x: int)

  /** The extents of a thread block. */
  datatype Block = Block(z: nat, y: nat, x: nat)

  /** The loop `for (i = t; i < n; i += b)`. */
  function Strided(t: nat, b: nat, n: nat): seq<int>
    requires b >= 1
    decreases n - t
  {
    if t >= n then [] else [t] + Strided(t + b, b, n)
  }

  lemma {:induction false} StridedMembers(t: nat, b: nat, n: nat, i: int)
    requires b >= 1
    ensures i in Strided(t, b, n) <==> t <= i < n && (i - t) % b == 0
    decreases n - t
  {
    if t < n {
      StridedMembers(t + b, b, n, i);
      if t < i && (i - t) % b == 0 { StepOfMultiple(i - t, b); }
      if t + b <= i { StepOfMultiple(i - t, b); }
    }
  }

  lemma StepOfMultiple(d: int, b: nat)
    requires d > 0 && b >= 1
    ensures d % b == 0 ==> d >= b
    ensures d >= b ==> (d - b) % b == d % b
  {
    if d >= b { assert d - b == (d / b - 1) * b + d % b; ModOf(d / b - 1, d % b, b); }
  }

  lemma ModOf(q: nat, r: nat, b: nat)
    requires r < b
    ensures (q * b + r) % b == r
  {
    Arith.DivMod(q, r, b);
  }

  /** Thread t of b visits exactly the indices congruent to it. */
  lemma StridedOwner(t: nat, b: nat, n: nat, i: nat)
    requires t < b
    ensures i in Strided(t, b, n) <==> i < n && i % b == t
  {
    StridedMembers(t, b, n, i);
    Arith.Split(i, b);
    if t <= i {
      var q, r := i / b, i % b;
      if r >= t {
        assert i - t == q * b + (r - t);
        ModOf(q, r - t, b);
      } else {
        assert i - t == (q - 1) * b + (b + r - t);
        if q >= 1 { ModOf(q - 1, b + r - t, b); }
      }
    }
  }

  lemma {:induction false} StridedDistinct(t: nat, b: nat, n: nat)
    requires b >= 1
    ensures Distinct(Strided(t, b, n))
    decreases n - t
  {
    if t < n {
      StridedDistinct(t + b, b, n);
      StridedMembers(t + b, b, n, t);
    }
  }

  // ---- loop nests -----------------------------------------------------------------

  /** How the three loop variables of a nest, outermost first, name a cell. */
  type Naming = (int, int, int) -> Cell

  ghost predicate Injective(name: Naming) {
    forall a, b, c, d, e, f :: name(a, b, c) == name(d, e, f) ==> a == d && b == e && c == f
  }

  function Innermost(name: Naming, a: int, b: int, cs: seq<int>): seq<Cell> {
    if cs == [] then [] else [name(a, b, cs[0])] + Innermost(name, a, b, cs[1..])
  }

  function Middle(name: Naming, a: int, bs: seq<int>, cs: seq<int>): seq<Cell> {
    if bs == [] then [] else Innermost(name, a, bs[0], cs) + Middle(name, a, bs[1..], cs)
  }

  /** The cells in the order the nest visits them. */
  function Nest(name: Naming, as_: seq<int>, bs: seq<int>, cs: seq<int>): seq<Cell> {
    if as_ == [] then [] else Middle(name, as_[0], bs, cs) + Nest(name, as_[1..], bs, cs)
  }

  lemma {:induction false} InnermostMembers(name: Naming, a: int, b: int, cs: seq<int>, cell: Cell)
    ensures cell in Innermost(name, a, b, cs) <==> exists c :: c in cs && cell == name(a, b, c)
  {
    if cs != [] {
      var rest := cs[1..];
      InnermostMembers(name, a, b, rest, cell);
      assert cs == [cs[0]] + rest;
      assert forall c :: c in cs <==> c == cs[0] || c in rest;
    }
  }

  lemma {:induction false} MiddleMembers(name: Naming, a: int, bs: seq<int>, cs: seq<int>, cell: Cell)
    ensures cell in Middle(name, a, bs, cs) <==> exists b, c :: b in bs && c in cs && cell == name(a, b, c)
  {
    if bs != [] {
      InnermostMembers(name, a, bs[0], cs, cell);
      MiddleMembers(name, a, bs[1..], cs, cell);
      assert bs == [bs[0]] + bs[1..];
    }
  }

  lemma {:induction false} NestMembers(name: Naming, as_: seq<int>, bs: seq<int>, cs: seq<int>, cell: Cell)
    ensures cell in Nest(name, as_, bs, cs) <==> exists a, b, c ::
              a in as_ && b in bs && c in cs && cell == name(a, b, c)
  {
    if as_ != [] {
      MiddleMembers(name, as_[0], bs, cs, cell);
      NestMembers(name, as_[1..], bs, cs, cell);
      assert as_ == [as_[0]] + as_[1..];
    }
  }

  lemma {:induction false} InnermostDistinct(name: Naming, a: int, b: int, cs: seq<int>)
    requires Injective(name) && Distinct(cs)
    ensures Distinct(Innermost(name, a, b, cs))
  {
    if cs != [] {
      InnermostDistinct(name, a, b, cs[1..]);
      InnermostMembers(name, a, b, cs[1..], name(a, b, cs[0]));
    }
  }

  lemma {:induction false} MiddleDistinct(name: Naming, a: int, bs: seq<int>, cs: seq<int>)
    requires Injective(name) && Distinct(bs) && Distinct(cs)
    ensures Distinct(Middle(name, a, bs, cs))
  {
    if bs != [] {
      InnermostDistinct(name, a, bs[0], cs);
      MiddleDistinct(name, a, bs[1..], cs);
      forall cell | cell in Innermost(name, a, bs[0], cs) ensures cell !in Middle(name, a, bs[1..], cs) {
        InnermostMembers(name, a, bs[0], cs, cell);
        MiddleMembers(name, a, bs[1..], cs, cell);
      }
      JoinDistinct(Innermost(name, a, bs[0], cs), Middle(name, a, bs[1..], cs));
    }
  }

  lemma {:induction false} NestDistinct(name: Naming, as_: seq<int>, bs: seq<int>, cs: seq<int>)
    requires Injective(name) && Distinct(as_) && Distinct(bs) && Distinct(cs)
    ensures Distinct(Nest(name, as_, bs, cs))
  {
    if as_ != [] {
      MiddleDistinct(name, as_[0], bs, cs);
      NestDistinct(name, as_[1..], bs, cs);
      forall cell | cell in Middle(name, as_[0], bs, cs) ensures cell !in Nest(name, as_[1..], bs, cs) {
        MiddleMembers(name, as_[0], bs, cs, cell);
        NestMembers(name, as_[1..], bs, cs, cell);
      }
      JoinDistinct(Middle(name, as_[0], bs, cs), Nest(name, as_[1..], bs, cs));
    }
  }

  // ---- plans ------------------------------------------------------------------------

  /** The cells each thread visits in a stage, in its loop order. */
  type Plan = seq<seq<Cell>>

  /** Every cell of the stage is visited exactly once, by exactly one thread. */
  ghost predicate Partition(plan: Plan, nz: nat, ny: nat, nx: nat) {
    && (forall t, i | 0 <= t < |plan| && 0 <= i < |plan[t]| ::
          Inside(plan[t][i].z, plan[t][i].y, plan[t][i].x, nz, ny, nx))
    && (forall t, i, u, j | 0 <= t < |plan| && 0 <= i < |plan[t]| && 0 <= u < |plan| && 0 <= j < |plan[u]| ::
          plan[t][i] == plan[u][j] ==> t == u && i == j)
    && (forall c: Cell | Inside(c.z, c.y, c.x, nz, ny, nx) :: exists t | 0 <= t < |plan| :: c in plan[t])
  }

  /** The order in which the three loops of a stage are nested. */
  datatype Order = ZYX | ZXY | XYZ

  function Name(order: Order): Naming {
    match order
    case ZYX => (a, b, c) => Cell(a, b, c)
    case ZXY => (a, b, c) => Cell(a, c, b)
    case XYZ => (a, b, c) => Cell(c, b, a)
  }

  /** What thread (tz, ty, tx) of a block of shape (bz, by, bx) visits. */
  function ThreadCells(order: Order, thread: Cell, block: Block, nz: nat, ny: nat, nx: nat): seq<Cell>
    requires Inside(thread.z, thread.y, thread.x, block.z, block.y, block.x)
  {
    var zs, ys, xs := Strided(thread.z, block.z, nz), Strided(thread.y, block.y, ny), Strided(thread.x, block.x, nx);
    match order
    case ZYX => Nest(Name(order), zs, ys, xs)
    case ZXY => Nest(Name(order), zs, xs, ys)
    case XYZ => Nest(Name(order), xs, ys, zs)
  }

  predicate Shape(block: Block) {
    block.z >= 1 && block.y >= 1 && block.x >= 1
  }

  function Threads(block: Block): (ids: seq<Cell>)
    requires Shape(block)
    ensures forall id | id in ids :: Inside(id.z, id.y, id.x, block.z, block.y, block.x)
  {
    var ids := Nest(Name(ZYX), Strided(0, 1, block.z), Strided(0, 1, block.y), Strided(0, 1, block.x));
    assert forall id | id in ids :: Inside(id.z, id.y, id.x, block.z, block.y, block.x) by {
      forall id | id in ids ensures Inside(id.z, id.y, id.x, block.z, block.y, block.x) { ThreadMember(block, id); }
    }
    ids
  }

  lemma ThreadMember(block: Block, id: Cell)
    requires Shape(block)
    ensures id in Nest(Name(ZYX), Strided(0, 1, block.z), Strided(0, 1, block.y), Strided(0, 1, block.x))
       <==> Inside(id.z, id.y, id.x, block.z, block.y, block.x)
  {
    NestMembers(Name(ZYX), Strided(0, 1, block.z), Strided(0, 1, block.y), Strided(0, 1, block.x), id);
    StridedMembers(0, 1, block.z, id.z);
    StridedMembers(0, 1, block.y, id.y);
    StridedMembers(0, 1, block.x, id.x);
    assert id == Name(ZYX)(id.z, id.y, id.x);
  }

  function BlockPlan(order: Order, block: Block, nz: nat, ny: nat, nx: nat): Plan
    requires Shape(block)
  {
    var ids := Threads(block);
    seq(|ids|, t requires 0 <= t < |ids| => ThreadCells(order, ids[t], block, nz, ny, nx))
  }

  lemma NamesInjective(order: Order)
    ensures Injective(Name(order))
  {
  }

  /** A cell belongs to the thread whose coordinates it is congruent to. */
  lemma CellOwner(order: Order, thread: Cell, block: Block, nz: nat, ny: nat, nx: nat, c: Cell)
    requires Inside(thread.z, thread.y, thread.x, block.z, block.y, block.x)
    ensures c in ThreadCells(order, thread, block, nz, ny, nx) <==>
            Inside(c.z, c.y, c.x, nz, ny, nx) && thread == Cell(c.z % block.z, c.y % block.y, c.x % block.x)
  {
    var zs, ys, xs := Strided(thread.z, block.z, nz), Strided(thread.y, block.y, ny), Strided(thread.x, block.x, nx);
    StridedMembers(thread.z, block.z, nz, c.z);
    StridedMembers(thread.y, block.y, ny, c.y);
    StridedMembers(thread.x, block.x, nx, c.x);
    if c.z >= 0 { StridedOwner(thread.z, block.z, nz, c.z); }
    if c.y >= 0 { StridedOwner(thread.y, block.y, ny, c.y); }
    if c.x >= 0 { StridedOwner(thread.x, block.x, nx, c.x); }
    match order
    case ZYX => NestMembers(Name(order), zs, ys, xs, c); assert c == Name(order)(c.z, c.y, c.x);
    case ZXY => NestMembers(Name(order), zs, xs, ys, c); assert c == Name(order)(c.z, c.x, c.y);
    case XYZ => NestMembers(Name(order), xs, ys, zs, c); assert c == Name(order)(c.x, c.y, c.z);
  }

  lemma ThreadCellsDistinct(order: Order, thread: Cell, block: Block, nz: nat, ny: nat, nx: nat)
    requires Inside(thread.z, thread.y, thread.x, block.z, block.y, block.x)
    ensures Distinct(ThreadCells(order, thread, block, nz, ny, nx))
  {
    var zs, ys, xs := Strided(thread.z, block.z, nz), Strided(thread.y, block.y, ny), Strided(thread.x, block.x, nx);
    StridedDistinct(thread.z, block.z, nz);
    StridedDistinct(thread.y, block.y, ny);
    StridedDistinct(thread.x, block.x, nx);
    NamesInjective(order);
    match order
    case ZYX => NestDistinct(Name(order), zs, ys, xs);
    case ZXY => NestDistinct(Name(order), zs, xs, ys);
    case XYZ => NestDistinct(Name(order), xs, ys, zs);
  }

  /**
   * For a block of any shape the strided loops visit every cell exactly once.  A block of
   * one thread is the sequential loop nest.
   */
  lemma BlockPartition(order: Order, block: Block, nz: nat, ny: nat, nx: nat)
    requires Shape(block)
    ensures Partition(BlockPlan(order, block, nz, ny, nx), nz, ny, nx)
  {
    var plan: Plan := BlockPlan(order, block, nz, ny, nx);
    var ids := Threads(block);
    forall t: nat, i: nat | t < |plan| && i < |plan[t]|
      ensures Inside(plan[t][i].z, plan[t][i].y, plan[t][i].x, nz, ny, nx)
      ensures ids[t] == Cell(plan[t][i].z % block.z, plan[t][i].y % block.y, plan[t][i].x % block.x)
    {
      CellOwner(order, ids[t], block, nz, ny, nx, plan[t][i]);
    }
    ThreadsDistinct(block);
    forall t, i, u, j | 0 <= t < |plan| && 0 <= i < |plan[t]| && 0 <= u < |plan| && 0 <= j < |plan[u]|
        && plan[t][i] == plan[u][j]
      ensures t == u && i == j
    {
      assert ids[t] == ids[u];
      ThreadCellsDistinct(order, ids[t], block, nz, ny, nx);
    }
    forall c: Cell | Inside(c.z, c.y, c.x, nz, ny, nx) ensures exists t | 0 <= t < |plan| :: c in plan[t] {
      OwnerExists(order, block, nz, ny, nx, c);
    }
  }

  lemma ThreadsDistinct(block: Block)
    requires Shape(block)
    ensures Distinct(Threads(block))
  {
    StridedDistinct(0, 1, block.z);
    StridedDistinct(0, 1, block.y);
    StridedDistinct(0, 1, block.x);
    NamesInjective(ZYX);
    NestDistinct(Name(ZYX), Strided(0, 1, block.z), Strided(0, 1, block.y), Strided(0, 1, block.x));
  }

  lemma OwnerExists(order: Order, block: Block, nz: nat, ny: nat, nx: nat, c: Cell)
    requires Shape(block) && Inside(c.z, c.y, c.x, nz, ny, nx)
    ensures exists t | 0 <= t < |BlockPlan(order, block, nz, ny, nx)| :: c in BlockPlan(order, block, nz, ny, nx)[t]
  {
    var owner, ids := Cell(c.z % block.z, c.y % block.y, c.x % block.x), Threads(block);
    ThreadMember(block, owner);
    var t :| 0 <= t < |ids| && ids[t] == owner;
    CellOwner(order, owner, block, nz, ny, nx, c);
    assert c in BlockPlan(order, block, nz, ny, nx)[t];
  }

  // ---- progress through a plan --------------------------------------------------------

  /** The cells still to be finished, thread t standing at entry pos[t] of its list. */
  ghost predicate Tracks(plan: Plan, pos: seq<nat>, todo: set<Cell>) {
    && |pos| == |plan| && (forall t | 0 <= t < |plan| :: pos[t] <= |plan[t]|)
    && (forall t, i | 0 <= t < |plan| && 0 <= i < |plan[t]| :: plan[t][i] in todo <==> pos[t] <= i)
    && (forall c | c in todo :: exists t | 0 <= t < |plan| :: c in plan[t])
  }

  function CellsOf(plan: Plan): (all: set<Cell>)
    ensures forall c :: c in all <==> exists t | 0 <= t < |plan| :: c in plan[t]
  {
    if plan == [] then {}
    else
      var all := (set c | c in plan[0]) + CellsOf(plan[1..]);
      assert forall c :: c in all <==> exists t | 0 <= t < |plan| :: c in plan[t] by {
        forall c ensures c in all <==> exists t | 0 <= t < |plan| :: c in plan[t] {
          if t :| 0 < t < |plan| && c in plan[t] { assert c in plan[1..][t - 1]; }
        }
      }
      all
  }

  lemma StartTracks(plan: Plan, nz: nat, ny: nat, nx: nat)
    requires Partition(plan, nz, ny, nx)
    ensures Tracks(plan, seq(|plan|, _ => 0), CellsOf(plan))
  {
  }

  lemma StepTracks(plan: Plan, pos: seq<nat>, todo: set<Cell>, t: nat, nz: nat, ny: nat, nx: nat)
    requires Partition(plan, nz, ny, nx) && Tracks(plan, pos, todo) && t < |plan| && pos[t] < |plan[t]|
    ensures plan[t][pos[t]] in todo
    ensures Tracks(plan, pos[t := pos[t] + 1], todo - {plan[t][pos[t]]})
  {
  }

  lemma EndTracks(plan: Plan, pos: seq<nat>, todo: set<Cell>)
    requires Tracks(plan, pos, todo) && forall t | 0 <= t < |plan| :: pos[t] == |plan[t]|
    ensures todo == {}
  {
    forall c ensures c !in todo {
      if t: nat :| t < |plan| && c in plan[t] {
        var i: nat :| i < |plan[t]| && plan[t][i] == c;
        assert i < pos[t];
      }
    }
  }
}
