/**
 * The decoupled look-back between the blocks of the INDEXLIST kernel.
 *
 * Every count write, flag write, flag read and count read is a step of its own, so
 * the lanes' reads form no snapshot.  The last warp of a block is modelled lane by
 * lane: between two warp collectives its lanes advance independently.  The lane with
 * the highest index is the block's last thread, which publishes.
 */
module LookBack {
  import opened Ballot

  /** A launch: lanes in a warp, and the number of items each block selects. */
  datatype Grid = Grid(lanes: nat, counts: seq<int>) {
    predicate Valid() {
      lanes >= 1
    }

    predicate IsLast(b: int) {
      b == |counts| - 1
    }
  }

  function At(s: seq<int>, i: int): int {
    if 0 <= i < |s| then s[i] else 0
  }

  /** Items selected by the first n blocks. */
  function Prefix(counts: seq<int>, n: int): int {
    if n <= 0 then 0 else Prefix(counts, n - 1) + At(counts, n - 1)
  }

  /** The arrays all blocks share.  Only `readys` is cleared before the launch. */
  datatype Memory = Memory(blockCounts: seq<int>, gridCounts: seq<int>, readys: seq<int>)

  datatype Pc =
    | NotStarted
    | PubCount | PubFirstGrid | PubFirstFlag | PubFlag
    | Poll1 | Wait1 | Add1
    | Poll2 | Wait2 | Add2 | Wait3
    | PubGrid | PubGridFlag
    | Done

  /** One lane's registers: prev_block_base_id, prev_block_ready, prev_grid_count. */
  datatype Lane = Lane(pc: Pc, base: int, ready: int, acc: int)

  /**
   * A block: its last warp, the two ballots as bits, and the broadcast result.
   * `window` is the base id of the lanes that poll next.
   */
  datatype Block = Block(lanes: seq<Lane>, blocks: seq<bool>, grids: seq<bool>, window: int, prev: int)

  datatype State = State(mem: Memory, blocks: seq<Block>)

  datatype Step =
    | Start(b: nat)
    | LaneStep(b: nat, l: nat)
    | BallotFull(b: nat)
    | BallotTop(b: nat)
    | Reduce(b: nat)

  // ---- transitions -------------------------------------------------------------

  predicate KeepWaiting(blocks: seq<bool>, grids: seq<bool>)
    requires |blocks| == |grids|
  {
    Not(Mask(blocks), |blocks|) >= Mask(grids)
  }

  function AfterWindows(blocks: seq<bool>, grids: seq<bool>): Pc
    requires |blocks| == |grids|
  {
    if KeepWaiting(blocks, grids) then Poll2 else Add2
  }

  function LoopHead(base: int, blocks: seq<bool>, grids: seq<bool>): Pc
    requires |blocks| == |grids|
  {
    if base >= 0 then Poll1 else AfterWindows(blocks, grids)
  }

  function NoVotes(n: nat): (v: seq<bool>)
    ensures |v| == n
  {
    seq(n, _ => false)
  }

  function StartPc(g: Grid, b: nat, l: nat): Pc {
    if l == g.lanes - 1 && !g.IsLast(b) then PubCount
    else if b == 0 then Done
    else LoopHead(b - g.lanes, NoVotes(g.lanes), NoVotes(g.lanes))
  }

  function Started(g: Grid, b: nat): Block {
    Block(seq(g.lanes, l requires 0 <= l < g.lanes => Lane(StartPc(g, b, l), b - g.lanes, 0, 0)),
          NoVotes(g.lanes), NoVotes(g.lanes), b - g.lanes, 0)
  }

  predicate LaneRuns(pc: Pc) {
    pc !in {NotStarted, Wait1, Wait2, Wait3, Done}
  }

  /** The registers of lane l of block b after its next step. */
  function LaneNext(g: Grid, m: Memory, b: nat, blk: Block, l: nat): Lane
    requires l < |blk.lanes| && |blk.blocks| == |blk.grids|
  {
    var x := blk.lanes[l];
    var id := x.base + l;
    match x.pc
    case PubCount => x.(pc := if b == 0 then PubFirstGrid else PubFlag)
    case PubFirstGrid => x.(pc := PubFirstFlag)
    case PubFirstFlag => x.(pc := Done)
    case PubFlag => x.(pc := LoopHead(x.base, blk.blocks, blk.grids))
    case Poll1 => x.(pc := Wait1, ready := At(m.readys, id))
    case Add1 =>
      Lane(LoopHead(x.base - g.lanes, blk.blocks, blk.grids), x.base - g.lanes, 0, x.acc + At(m.blockCounts, id))
    case Poll2 => x.(pc := Wait2, ready := if id >= 0 then At(m.readys, id) else x.ready)
    case Add2 =>
      var add := match Select(l, Mask(blk.grids))
                 case BlockCount => At(m.blockCounts, id)
                 case GridCount => At(m.gridCounts, id)
                 case Nothing => 0;
      x.(pc := Wait3, acc := x.acc + add)
    case PubGrid => x.(pc := PubGridFlag)
    case PubGridFlag => x.(pc := Done)
    case _ => x
  }

  /** The shared arrays after that step. */
  function LaneWrites(g: Grid, m: Memory, b: nat, blk: Block, pc: Pc): Memory
    requires b < |m.blockCounts| == |m.gridCounts| == |m.readys| == |g.counts|
  {
    match pc
    case PubCount => m.(blockCounts := m.blockCounts[b := g.counts[b]])
    case PubFirstGrid => m.(gridCounts := m.gridCounts[b := g.counts[b]])
    case PubFirstFlag => m.(readys := m.readys[b := 2])
    case PubFlag => m.(readys := m.readys[b := 1])
    case PubGrid => m.(gridCounts := m.gridCounts[b := blk.prev + g.counts[b]])
    case PubGridFlag => m.(readys := m.readys[b := 2])
    case _ => m
  }

  function SetPcs(lanes: seq<Lane>, pc: Pc): (r: seq<Lane>)
    ensures |r| == |lanes| && forall l | 0 <= l < |r| :: r[l] == lanes[l].(pc := pc)
  {
    seq(|lanes|, l requires 0 <= l < |lanes| => lanes[l].(pc := pc))
  }

  function BlockVotes(lanes: seq<Lane>): (v: seq<bool>)
    ensures |v| == |lanes| && forall l | 0 <= l < |v| :: v[l] == (lanes[l].ready >= 1)
  {
    seq(|lanes|, l requires 0 <= l < |lanes| => lanes[l].ready >= 1)
  }

  function GridVotes(lanes: seq<Lane>): (v: seq<bool>)
    ensures |v| == |lanes| && forall l | 0 <= l < |v| :: v[l] == (lanes[l].ready == 2)
  {
    seq(|lanes|, l requires 0 <= l < |lanes| => lanes[l].ready == 2)
  }

  /** The ballots in the loop over full windows. */
  function AfterBallotFull(g: Grid, blk: Block): Block {
    var blocks := BlockVotes(blk.lanes);
    var grids := GridVotes(blk.lanes);
    if Mask(blocks) != Pow2(|blk.lanes|) - 1 then
      blk.(lanes := SetPcs(blk.lanes, Poll1), blocks := blocks)
    else if Mask(grids) != 0 then
      blk.(lanes := SetPcs(blk.lanes, AfterWindows(blocks, grids)), blocks := blocks, grids := grids)
    else
      blk.(lanes := SetPcs(blk.lanes, Add1), blocks := blocks, grids := grids, window := blk.window - g.lanes)
  }

  /** The ballots in the loop that waits below the highest ready grid count. */
  function AfterBallotTop(blk: Block): Block {
    var blocks := BlockVotes(blk.lanes);
    var grids := GridVotes(blk.lanes);
    blk.(lanes := SetPcs(blk.lanes, AfterWindows(blocks, grids)), blocks := blocks, grids := grids)
  }

  function SumAcc(lanes: seq<Lane>): int {
    if lanes == [] then 0 else SumAcc(lanes[..|lanes| - 1]) + lanes[|lanes| - 1].acc
  }

  function ReducedPc(g: Grid, b: nat, l: nat): Pc {
    if l == g.lanes - 1 && !g.IsLast(b) then PubGrid else Done
  }

  /** Warp reduction and broadcast. */
  function AfterReduce(g: Grid, b: nat, blk: Block): Block {
    blk.(lanes := seq(|blk.lanes|, l requires 0 <= l < |blk.lanes| => blk.lanes[l].(pc := ReducedPc(g, b, l))),
         prev := SumAcc(blk.lanes))
  }

  predicate AllAt(blk: Block, pc: Pc) {
    forall l | 0 <= l < |blk.lanes| :: blk.lanes[l].pc == pc
  }

  predicate Shape(g: Grid, s: State) {
    && g.Valid()
    && |s.mem.blockCounts| == |s.mem.gridCounts| == |s.mem.readys| == |s.blocks| == |g.counts|
    && forall b | 0 <= b < |s.blocks| ::
      |s.blocks[b].lanes| == |s.blocks[b].blocks| == |s.blocks[b].grids| == g.lanes
  }

  predicate Enabled(g: Grid, s: State, step: Step)
    requires Shape(g, s)
  {
    step.b < |s.blocks| &&
    var blk := s.blocks[step.b];
    match step
    case Start(_) => AllAt(blk, NotStarted)
    case LaneStep(_, l) => l < g.lanes && LaneRuns(blk.lanes[l].pc)
    case BallotFull(_) => AllAt(blk, Wait1)
    case BallotTop(_) => AllAt(blk, Wait2)
    case Reduce(_) => AllAt(blk, Wait3)
  }

  function Apply(g: Grid, s: State, step: Step): (t: State)
    requires Shape(g, s) && Enabled(g, s, step)
    ensures Shape(g, t)
  {
    var b := step.b;
    var blk := s.blocks[b];
    match step
    case Start(_) => s.(blocks := s.blocks[b := Started(g, b)])
    case LaneStep(_, l) =>
      State(LaneWrites(g, s.mem, b, blk, blk.lanes[l].pc),
            s.blocks[b := blk.(lanes := blk.lanes[l := LaneNext(g, s.mem, b, blk, l)])])
    case BallotFull(_) => s.(blocks := s.blocks[b := AfterBallotFull(g, blk)])
    case BallotTop(_) => s.(blocks := s.blocks[b := AfterBallotTop(blk)])
    case Reduce(_) => s.(blocks := s.blocks[b := AfterReduce(g, b, blk)])
  }

  /** Any memory with cleared flags; no block has started. */
  ghost predicate Initial(g: Grid, s: State) {
    && Shape(g, s)
    && (forall b | 0 <= b < |s.blocks| :: s.mem.readys[b] == 0)
    && (forall b | 0 <= b < |s.blocks| :: AllAt(s.blocks[b], NotStarted) && s.blocks[b].prev == 0)
  }

  /** The state after a run, for any interleaving of the steps. */
  ghost predicate Reaches(g: Grid, s: State, run: seq<Step>, t: State)
    requires Shape(g, s)
    decreases |run|
  {
    if run == [] then s == t
    else Enabled(g, s, run[0]) && Reaches(g, Apply(g, s, run[0]), run[1..], t)
  }

  ghost predicate Finished(s: State) {
    forall b | 0 <= b < |s.blocks| :: AllAt(s.blocks[b], Done)
  }

  // ---- the invariant -----------------------------------------------------------

  /** Window bases are reached from b - lanes in whole warps. */
  predicate OnPath(g: Grid, b: int, base: int)
    requires g.Valid()
    decreases b - base
  {
    base == b - g.lanes || (base < b - g.lanes && OnPath(g, b, base + g.lanes))
  }

  /** What lane l has added once its base has moved down from b - lanes to `base`. */
  function LaneSum(g: Grid, b: int, base: int, l: int): int
    requires g.Valid()
    decreases b - base
  {
    if base >= b - g.lanes then 0
    else LaneSum(g, b, base + g.lanes, l) + At(g.counts, base + g.lanes + l)
  }

  /** What lane l adds after the wait, for top ready lane t. */
  function LaneShare(g: Grid, base: int, t: int, l: int): int {
    if l > t then At(g.counts, base + l) else if l == t then Prefix(g.counts, base + l + 1) else 0
  }

  /** Set flags vouch for the counts behind them; block 0 never shows flag 1. */
  ghost predicate FlagsVouch(g: Grid, m: Memory) {
    && |m.blockCounts| == |m.gridCounts| == |m.readys| == |g.counts|
    && (forall b | 0 <= b < |g.counts| :: 0 <= m.readys[b] <= 2)
    && (forall b | 0 <= b < |g.counts| && m.readys[b] >= 1 :: m.blockCounts[b] == g.counts[b])
    && (forall b | 0 <= b < |g.counts| && m.readys[b] == 2 :: m.gridCounts[b] == Prefix(g.counts, b + 1))
    && (|g.counts| > 0 ==> m.readys[0] != 1)
  }

  predicate Publishes(pc: Pc) {
    pc in {PubCount, PubFirstGrid, PubFirstFlag, PubFlag, PubGrid, PubGridFlag}
  }

  /** The last thread's position in the program fixes its own block's entries. */
  ghost predicate PublisherOk(g: Grid, m: Memory, b: nat, pc: Pc)
    requires b < |g.counts| == |m.blockCounts| == |m.gridCounts| == |m.readys|
  {
    if g.IsLast(b) then m.readys[b] == 0 && !Publishes(pc)
    else match pc
      case NotStarted => m.readys[b] == 0
      case PubCount => m.readys[b] == 0
      case PubFirstGrid => b == 0 && m.readys[b] == 0 && m.blockCounts[b] == g.counts[b]
      case PubFirstFlag =>
        b == 0 && m.readys[b] == 0 && m.blockCounts[b] == m.gridCounts[b] == g.counts[b]
      case PubFlag => b > 0 && m.readys[b] == 0 && m.blockCounts[b] == g.counts[b]
      case PubGridFlag => b > 0 && m.readys[b] == 1 && m.gridCounts[b] == Prefix(g.counts, b + 1)
      case Done => m.readys[b] == 2
      case _ => b > 0 && m.readys[b] == 1
  }

  /** The flags justify what the final ballots of the block select. */
  ghost predicate TopReady(g: Grid, readys: seq<int>, b: nat, blk: Block)
    requires |readys| == |g.counts| && |blk.grids| == g.lanes
  {
    var t := Top(blk.grids);
    && t >= 0 && 0 <= blk.window + t && blk.window + g.lanes <= b < |readys|
    && readys[blk.window + t] == 2
    && forall i | blk.window + t < i < blk.window + g.lanes :: readys[i] >= 1
  }

  ghost predicate LaneOk(g: Grid, readys: seq<int>, b: nat, blk: Block, l: nat, x: Lane)
    requires g.Valid() && b < |g.counts| == |readys|
    requires l < g.lanes == |blk.blocks| == |blk.grids|
  {
    var id := x.base + l;
    var walked := OnPath(g, b, x.base) && x.acc == LaneSum(g, b, x.base, l);
    var untouched := x.base == blk.window == b - g.lanes && x.ready == 0 && x.acc == 0 && Top(blk.grids) == -1;
    && (Publishes(x.pc) ==> l == g.lanes - 1 && !g.IsLast(b))
    && match x.pc
      case NotStarted => true
      case PubCount => if b == 0 then blk.prev == 0 else untouched
      case PubFirstGrid => b == 0 && blk.prev == 0
      case PubFirstFlag => b == 0 && blk.prev == 0
      case PubFlag => b > 0 && untouched
      case Poll1 => b > 0 && walked && 0 <= x.base == blk.window <= b - g.lanes
      case Wait1 =>
        && b > 0 && walked && 0 <= x.base == blk.window <= b - g.lanes
        && 0 <= x.ready <= readys[id] && (id == 0 ==> x.ready != 1)
      case Add1 =>
        && b > 0 && walked && 0 < x.base == blk.window + g.lanes <= b - g.lanes
        && readys[id] >= 1 && Top(blk.grids) == -1
      case Poll2 =>
        && b > 0 && walked && 0 < x.base + g.lanes <= b && x.base == blk.window < 0
        && (id < 0 ==> x.ready == 0)
      case Wait2 =>
        && b > 0 && walked && 0 < x.base + g.lanes <= b && x.base == blk.window < 0
        && (if id < 0 then x.ready == 0 else 0 <= x.ready <= readys[id])
      case Add2 => b > 0 && walked && x.base == blk.window && TopReady(g, readys, b, blk)
      case Wait3 =>
        && b > 0 && OnPath(g, b, x.base) && x.base == blk.window && TopReady(g, readys, b, blk)
        && x.acc == LaneSum(g, b, x.base, l) + LaneShare(g, x.base, Top(blk.grids), l)
      case PubGrid => b > 0 && blk.prev == Prefix(g.counts, b)
      case PubGridFlag => b > 0 && blk.prev == Prefix(g.counts, b)
      case Done => blk.prev == Prefix(g.counts, b)
  }

  ghost predicate BlockOk(g: Grid, m: Memory, b: nat, blk: Block)
    requires g.Valid() && b < |g.counts| == |m.blockCounts| == |m.gridCounts| == |m.readys|
    requires |blk.lanes| == |blk.blocks| == |blk.grids| == g.lanes
  {
    && PublisherOk(g, m, b, blk.lanes[g.lanes - 1].pc)
    && forall l | 0 <= l < g.lanes :: LaneOk(g, m.readys, b, blk, l, blk.lanes[l])
  }

  ghost predicate Inv(g: Grid, s: State)
    requires Shape(g, s)
  {
    && FlagsVouch(g, s.mem)
    && forall b | 0 <= b < |s.blocks| :: BlockOk(g, s.mem, b, s.blocks[b])
  }

  // ---- every step keeps it -----------------------------------------------------

  lemma InitialInv(g: Grid, s: State)
    requires Initial(g, s)
    ensures Inv(g, s)
  {
  }

  lemma NoVotesTop(n: nat)
    ensures Top(NoVotes(n)) == -1 && Mask(NoVotes(n)) == 0
  {
    MaskZero(NoVotes(n));
  }

  lemma StartInv(g: Grid, s: State, b: nat)
    requires Shape(g, s) && Inv(g, s) && Enabled(g, s, Start(b))
    ensures Inv(g, Apply(g, s, Start(b)))
  {
    NoVotesTop(g.lanes);
    var blk := Started(g, b);
    assert s.blocks[b].lanes[g.lanes - 1].pc == NotStarted;
    forall l | 0 <= l < g.lanes ensures LaneOk(g, s.mem.readys, b, blk, l, blk.lanes[l]) {}
    assert BlockOk(g, s.mem, b, blk);
  }

  /** Flags only grow, and no write touches another block's entries. */
  ghost predicate Grows(m: Memory, n: Memory, b: nat) {
    && |m.blockCounts| == |n.blockCounts| == |m.gridCounts| == |n.gridCounts| == |m.readys| == |n.readys|
    && (forall i | 0 <= i < |m.readys| :: m.readys[i] <= n.readys[i] <= 2)
    && (forall i | 0 <= i < |m.readys| && i != b ::
          m.readys[i] == n.readys[i] && m.blockCounts[i] == n.blockCounts[i] && m.gridCounts[i] == n.gridCounts[i])
  }

  lemma LaneOkGrows(g: Grid, m: Memory, n: Memory, c: nat, b: nat, blk: Block, l: nat, x: Lane)
    requires g.Valid() && b < |g.counts| == |m.readys| && l < g.lanes == |blk.blocks| == |blk.grids|
    requires Grows(m, n, c) && LaneOk(g, m.readys, b, blk, l, x)
    ensures LaneOk(g, n.readys, b, blk, l, x)
  {
  }

  lemma WritesKeepFlags(g: Grid, s: State, b: nat, l: nat)
    requires Shape(g, s) && Inv(g, s) && Enabled(g, s, LaneStep(b, l))
    ensures var blk := s.blocks[b];
            var n := LaneWrites(g, s.mem, b, blk, blk.lanes[l].pc);
            FlagsVouch(g, n) && Grows(s.mem, n, b)
  {
    assert BlockOk(g, s.mem, b, s.blocks[b]);
    assert LaneOk(g, s.mem.readys, b, s.blocks[b], l, s.blocks[b].lanes[l]);
  }

  lemma WritesKeepPublisher(g: Grid, s: State, b: nat, l: nat)
    requires Shape(g, s) && Inv(g, s) && Enabled(g, s, LaneStep(b, l))
    ensures var blk := s.blocks[b];
            var n := LaneWrites(g, s.mem, b, blk, blk.lanes[l].pc);
            PublisherOk(g, n, b, blk.lanes[l := LaneNext(g, s.mem, b, blk, l)][g.lanes - 1].pc)
  {
    assert BlockOk(g, s.mem, b, s.blocks[b]);
    assert LaneOk(g, s.mem.readys, b, s.blocks[b], l, s.blocks[b].lanes[l]);
    MaskZero(s.blocks[b].grids);
  }

  /** With no grid count seen, the walk goes on while a full window is left, and polls the rest. */
  lemma NoGridSeen(base: int, blocks: seq<bool>, grids: seq<bool>)
    requires |blocks| == |grids| && Top(grids) == -1
    ensures LoopHead(base, blocks, grids) == if base >= 0 then Poll1 else Poll2
  {
    MaskZero(grids);
  }

  lemma PublisherNext(g: Grid, m: Memory, b: nat, blk: Block, l: nat)
    requires g.Valid() && b < |g.counts| && FlagsVouch(g, m)
    requires l < |blk.lanes| == |blk.blocks| == |blk.grids| == g.lanes
    requires PublisherOk(g, m, b, blk.lanes[g.lanes - 1].pc)
    requires LaneOk(g, m.readys, b, blk, l, blk.lanes[l]) && Publishes(blk.lanes[l].pc)
    ensures LaneOk(g, m.readys, b, blk, l, LaneNext(g, m, b, blk, l))
  {
    if blk.lanes[l].pc == PubFlag { NoGridSeen(blk.lanes[l].base, blk.blocks, blk.grids); }
  }

  lemma PollNext(g: Grid, m: Memory, b: nat, blk: Block, l: nat)
    requires g.Valid() && b < |g.counts| && FlagsVouch(g, m)
    requires l < |blk.lanes| == |blk.blocks| == |blk.grids| == g.lanes
    requires LaneOk(g, m.readys, b, blk, l, blk.lanes[l]) && blk.lanes[l].pc in {Poll1, Poll2}
    ensures LaneOk(g, m.readys, b, blk, l, LaneNext(g, m, b, blk, l))
  {
  }

  lemma AddNext(g: Grid, m: Memory, b: nat, blk: Block, l: nat)
    requires g.Valid() && b < |g.counts| && FlagsVouch(g, m)
    requires l < |blk.lanes| == |blk.blocks| == |blk.grids| == g.lanes
    requires LaneOk(g, m.readys, b, blk, l, blk.lanes[l]) && blk.lanes[l].pc == Add1
    ensures LaneOk(g, m.readys, b, blk, l, LaneNext(g, m, b, blk, l))
  {
    NoGridSeen(blk.lanes[l].base - g.lanes, blk.blocks, blk.grids);
  }

  lemma SelectNext(g: Grid, m: Memory, b: nat, blk: Block, l: nat)
    requires g.Valid() && b < |g.counts| && FlagsVouch(g, m)
    requires l < |blk.lanes| == |blk.blocks| == |blk.grids| == g.lanes
    requires LaneOk(g, m.readys, b, blk, l, blk.lanes[l]) && blk.lanes[l].pc == Add2
    ensures LaneOk(g, m.readys, b, blk, l, LaneNext(g, m, b, blk, l))
  {
    SelectByTop(blk.grids, l);
  }

  lemma NextOk(g: Grid, m: Memory, b: nat, blk: Block, l: nat)
    requires g.Valid() && b < |g.counts| && FlagsVouch(g, m)
    requires l < |blk.lanes| == |blk.blocks| == |blk.grids| == g.lanes
    requires PublisherOk(g, m, b, blk.lanes[g.lanes - 1].pc)
    requires LaneOk(g, m.readys, b, blk, l, blk.lanes[l]) && LaneRuns(blk.lanes[l].pc)
    ensures LaneOk(g, m.readys, b, blk, l, LaneNext(g, m, b, blk, l))
  {
    match blk.lanes[l].pc
    case Poll1 | Poll2 => PollNext(g, m, b, blk, l);
    case Add1 => AddNext(g, m, b, blk, l);
    case Add2 => SelectNext(g, m, b, blk, l);
    case _ => PublisherNext(g, m, b, blk, l);
  }

  lemma LaneOkRegisters(g: Grid, r: seq<int>, b: nat, blk: Block, other: Block, l: nat, x: Lane)
    requires g.Valid() && b < |g.counts| == |r| && l < g.lanes == |blk.blocks| == |blk.grids|
    requires other == blk.(lanes := other.lanes) && LaneOk(g, r, b, blk, l, x)
    ensures LaneOk(g, r, b, other, l, x)
  {
  }

  lemma SteppedBlockOk(g: Grid, s: State, b: nat, l: nat)
    requires Shape(g, s) && Inv(g, s) && Enabled(g, s, LaneStep(b, l))
    ensures var blk := s.blocks[b];
            var n := LaneWrites(g, s.mem, b, blk, blk.lanes[l].pc);
            BlockOk(g, n, b, blk.(lanes := blk.lanes[l := LaneNext(g, s.mem, b, blk, l)]))
  {
    var blk := s.blocks[b];
    var n := LaneWrites(g, s.mem, b, blk, blk.lanes[l].pc);
    var after := blk.(lanes := blk.lanes[l := LaneNext(g, s.mem, b, blk, l)]);
    assert BlockOk(g, s.mem, b, blk);
    WritesKeepFlags(g, s, b, l);
    WritesKeepPublisher(g, s, b, l);
    forall k | 0 <= k < g.lanes ensures LaneOk(g, n.readys, b, after, k, after.lanes[k]) {
      SteppedLane(g, s, b, l, k, n, after);
    }
  }

  lemma SteppedLane(g: Grid, s: State, b: nat, l: nat, k: nat, n: Memory, after: Block)
    requires Shape(g, s) && Inv(g, s) && Enabled(g, s, LaneStep(b, l)) && k < g.lanes
    requires Grows(s.mem, n, b)
    requires after == s.blocks[b].(lanes := s.blocks[b].lanes[l := LaneNext(g, s.mem, b, s.blocks[b], l)])
    ensures LaneOk(g, n.readys, b, after, k, after.lanes[k])
  {
    var blk := s.blocks[b];
    assert BlockOk(g, s.mem, b, blk);
    assert LaneOk(g, s.mem.readys, b, blk, k, blk.lanes[k]);
    if k == l { NextOk(g, s.mem, b, blk, l); }
    LaneOkGrows(g, s.mem, n, b, b, blk, k, after.lanes[k]);
    LaneOkRegisters(g, n.readys, b, blk, after, k, after.lanes[k]);
  }

  /** It is enough to look at the block that moved. */
  lemma OneBlockMoved(g: Grid, s: State, b: nat, t: State)
    requires Shape(g, s) && Inv(g, s) && Shape(g, t) && b < |s.blocks|
    requires t.blocks == s.blocks[b := t.blocks[b]]
    requires Grows(s.mem, t.mem, b) && FlagsVouch(g, t.mem) && BlockOk(g, t.mem, b, t.blocks[b])
    ensures Inv(g, t)
  {
    forall c | 0 <= c < |s.blocks| && c != b ensures BlockOk(g, t.mem, c, t.blocks[c]) {
      OtherBlock(g, s, t.mem, b, c);
    }
  }

  lemma LaneStepInv(g: Grid, s: State, b: nat, l: nat)
    requires Shape(g, s) && Inv(g, s) && Enabled(g, s, LaneStep(b, l))
    ensures Inv(g, Apply(g, s, LaneStep(b, l)))
  {
    WritesKeepFlags(g, s, b, l);
    SteppedBlockOk(g, s, b, l);
    OneBlockMoved(g, s, b, Apply(g, s, LaneStep(b, l)));
  }

  lemma OtherBlock(g: Grid, s: State, n: Memory, b: nat, c: nat)
    requires Shape(g, s) && c < |s.blocks| && c != b
    requires Grows(s.mem, n, b) && BlockOk(g, s.mem, c, s.blocks[c])
    ensures BlockOk(g, n, c, s.blocks[c])
  {
    var blk := s.blocks[c];
    forall l | 0 <= l < g.lanes ensures LaneOk(g, n.readys, c, blk, l, blk.lanes[l]) {
      assert LaneOk(g, s.mem.readys, c, blk, l, blk.lanes[l]);
      LaneOkGrows(g, s.mem, n, b, c, blk, l, blk.lanes[l]);
    }
  }

  /** The waiting test passes only on votes the flags still bear out. */
  lemma VotesTopReady(g: Grid, r: seq<int>, b: nat, blk: Block)
    requires g.Valid() && 0 < b < |g.counts| == |r| && |blk.lanes| == g.lanes
    requires blk.window + g.lanes <= b
    requires forall l | 0 <= l < g.lanes ::
               && blk.lanes[l].base == blk.window
               && (if blk.window + l < 0 then blk.lanes[l].ready == 0 else 0 <= blk.lanes[l].ready <= r[blk.window + l])
    requires forall i | 0 <= i < |r| :: r[i] <= 2
    ensures var t := Top(GridVotes(blk.lanes));
            !KeepWaiting(BlockVotes(blk.lanes), GridVotes(blk.lanes)) ==>
              TopReady(g, r, b, blk.(grids := GridVotes(blk.lanes)))
  {
    var blocks, grids := BlockVotes(blk.lanes), GridVotes(blk.lanes);
    ReadyAboveTop(blocks, grids);
    if !KeepWaiting(blocks, grids) {
      var t := Top(grids);
      forall i | blk.window + t < i < blk.window + g.lanes ensures r[i] >= 1 {
        assert blocks[i - blk.window];
      }
    }
  }

  lemma PollAgain(g: Grid, r: seq<int>, b: nat, blk: Block, after: Block, l: nat, x: Lane, pc: Pc)
    requires g.Valid() && b < |g.counts| == |r|
    requires l < g.lanes == |blk.blocks| == |blk.grids| == |after.blocks| == |after.grids|
    requires LaneOk(g, r, b, blk, l, x) && ((x.pc == Wait1 && pc == Poll1) || (x.pc == Wait2 && pc == Poll2))
    requires after.window == blk.window && after.prev == blk.prev
    ensures LaneOk(g, r, b, after, l, x.(pc := pc))
  {
  }

  lemma StopWaiting(g: Grid, r: seq<int>, b: nat, blk: Block, after: Block, l: nat, x: Lane)
    requires g.Valid() && b < |g.counts| == |r|
    requires l < g.lanes == |blk.blocks| == |blk.grids| == |after.blocks| == |after.grids|
    requires LaneOk(g, r, b, blk, l, x) && x.pc in {Wait1, Wait2}
    requires after.window == blk.window && after.prev == blk.prev && TopReady(g, r, b, after)
    ensures LaneOk(g, r, b, after, l, x.(pc := Add2))
  {
  }

  /** A full window without a grid count cannot hold block 0. */
  lemma AddWindow(g: Grid, r: seq<int>, b: nat, blk: Block, after: Block, l: nat, x: Lane, first: Lane)
    requires g.Valid() && b < |g.counts| == |r|
    requires l < g.lanes == |blk.blocks| == |blk.grids| == |after.blocks| == |after.grids|
    requires LaneOk(g, r, b, blk, l, x) && LaneOk(g, r, b, blk, 0, first) && x.pc == first.pc == Wait1
    requires x.ready >= 1 && first.ready == 1
    requires after.window == blk.window - g.lanes && after.prev == blk.prev && Top(after.grids) == -1
    ensures LaneOk(g, r, b, after, l, x.(pc := Add1))
  {
  }

  lemma FullWindow(g: Grid, m: Memory, b: nat, blk: Block, l: nat)
    requires g.Valid() && b < |g.counts| && FlagsVouch(g, m) && l < g.lanes
    requires |blk.lanes| == |blk.blocks| == |blk.grids| == g.lanes && blk.lanes[0].pc == blk.lanes[l].pc == Wait1
    requires LaneOk(g, m.readys, b, blk, 0, blk.lanes[0]) && LaneOk(g, m.readys, b, blk, l, blk.lanes[l])
    requires Mask(BlockVotes(blk.lanes)) == Pow2(g.lanes) - 1 && Mask(GridVotes(blk.lanes)) == 0
    ensures blk.lanes[l].ready >= 1 && blk.lanes[0].ready == 1 && Top(GridVotes(blk.lanes)) == -1
  {
    var votes, grids := BlockVotes(blk.lanes), GridVotes(blk.lanes);
    MaskFull(votes);
    MaskZero(grids);
    assert votes[0] && votes[l] && !grids[0];
    FirstReady(g, m, b, blk, blk.lanes[0]);
  }

  lemma PartBallot(g: Grid, m: Memory, b: nat, blk: Block, l: nat)
    requires g.Valid() && b < |g.counts| && FlagsVouch(g, m) && l < g.lanes
    requires |blk.lanes| == |blk.blocks| == |blk.grids| == g.lanes && blk.lanes[0].pc == blk.lanes[l].pc == Wait1
    requires LaneOk(g, m.readys, b, blk, 0, blk.lanes[0]) && LaneOk(g, m.readys, b, blk, l, blk.lanes[l])
    requires Mask(BlockVotes(blk.lanes)) != Pow2(g.lanes) - 1
    ensures var after := AfterBallotFull(g, blk); LaneOk(g, m.readys, b, after, l, after.lanes[l])
  {
    PollAgain(g, m.readys, b, blk, AfterBallotFull(g, blk), l, blk.lanes[l], Poll1);
  }

  lemma CountsBallot(g: Grid, m: Memory, b: nat, blk: Block, l: nat)
    requires g.Valid() && b < |g.counts| && FlagsVouch(g, m) && l < g.lanes
    requires |blk.lanes| == |blk.blocks| == |blk.grids| == g.lanes && blk.lanes[0].pc == blk.lanes[l].pc == Wait1
    requires LaneOk(g, m.readys, b, blk, 0, blk.lanes[0]) && LaneOk(g, m.readys, b, blk, l, blk.lanes[l])
    requires Mask(BlockVotes(blk.lanes)) == Pow2(g.lanes) - 1 && Mask(GridVotes(blk.lanes)) == 0
    ensures var after := AfterBallotFull(g, blk); LaneOk(g, m.readys, b, after, l, after.lanes[l])
  {
    FullWindow(g, m, b, blk, l);
    AddWindow(g, m.readys, b, blk, AfterBallotFull(g, blk), l, blk.lanes[l], blk.lanes[0]);
  }

  lemma GridBallot(g: Grid, m: Memory, b: nat, blk: Block, l: nat)
    requires g.Valid() && b < |g.counts| && FlagsVouch(g, m) && l < g.lanes
    requires |blk.lanes| == |blk.blocks| == |blk.grids| == g.lanes && blk.lanes[0].pc == blk.lanes[l].pc == Wait1
    requires LaneOk(g, m.readys, b, blk, 0, blk.lanes[0]) && LaneOk(g, m.readys, b, blk, l, blk.lanes[l])
    requires Mask(BlockVotes(blk.lanes)) == Pow2(g.lanes) - 1 && Mask(GridVotes(blk.lanes)) != 0
    requires TopReady(g, m.readys, b, blk.(grids := GridVotes(blk.lanes)))
    ensures var after := AfterBallotFull(g, blk); LaneOk(g, m.readys, b, after, l, after.lanes[l])
  {
    FullStops(blk.lanes);
    StopWaiting(g, m.readys, b, blk, AfterBallotFull(g, blk), l, blk.lanes[l]);
  }

  lemma BallotFullLane(g: Grid, m: Memory, b: nat, blk: Block, l: nat)
    requires g.Valid() && b < |g.counts| && FlagsVouch(g, m) && l < g.lanes
    requires |blk.lanes| == |blk.blocks| == |blk.grids| == g.lanes && blk.lanes[0].pc == blk.lanes[l].pc == Wait1
    requires LaneOk(g, m.readys, b, blk, 0, blk.lanes[0]) && LaneOk(g, m.readys, b, blk, l, blk.lanes[l])
    requires !KeepWaiting(BlockVotes(blk.lanes), GridVotes(blk.lanes)) ==>
               TopReady(g, m.readys, b, blk.(grids := GridVotes(blk.lanes)))
    ensures var after := AfterBallotFull(g, blk); LaneOk(g, m.readys, b, after, l, after.lanes[l])
  {
    if Mask(BlockVotes(blk.lanes)) != Pow2(g.lanes) - 1 {
      PartBallot(g, m, b, blk, l);
    } else if Mask(GridVotes(blk.lanes)) == 0 {
      CountsBallot(g, m, b, blk, l);
    } else {
      FullStops(blk.lanes);
      GridBallot(g, m, b, blk, l);
    }
  }

  /** With every block count ready, one grid count is enough to stop. */
  lemma FullStops(lanes: seq<Lane>)
    requires Mask(BlockVotes(lanes)) == Pow2(|lanes|) - 1 && Mask(GridVotes(lanes)) != 0
    ensures !KeepWaiting(BlockVotes(lanes), GridVotes(lanes))
  {
  }

  lemma FirstReady(g: Grid, m: Memory, b: nat, blk: Block, first: Lane)
    requires g.Valid() && b < |g.counts| && FlagsVouch(g, m) && |blk.blocks| == |blk.grids| == g.lanes
    requires LaneOk(g, m.readys, b, blk, 0, first) && first.pc == Wait1
    ensures first.ready in {0, 1, 2}
  {
  }

  /** What a lane waiting at a ballot holds. */
  lemma WaitingLane(g: Grid, m: Memory, b: nat, blk: Block, l: nat)
    requires g.Valid() && b < |g.counts| && FlagsVouch(g, m) && l < g.lanes
    requires |blk.lanes| == |blk.blocks| == |blk.grids| == g.lanes
    requires LaneOk(g, m.readys, b, blk, l, blk.lanes[l]) && blk.lanes[l].pc in {Wait1, Wait2}
    ensures b > 0 && blk.lanes[l].base == blk.window && blk.window + g.lanes <= b
    ensures if blk.window + l < 0 then blk.lanes[l].ready == 0 else 0 <= blk.lanes[l].ready <= m.readys[blk.window + l]
  {
  }

  lemma WaitingTopReady(g: Grid, m: Memory, b: nat, blk: Block, pc: Pc)
    requires g.Valid() && b < |g.counts| && FlagsVouch(g, m)
    requires |blk.lanes| == |blk.blocks| == |blk.grids| == g.lanes
    requires BlockOk(g, m, b, blk) && AllAt(blk, pc) && (pc == Wait1 || pc == Wait2)
    ensures !KeepWaiting(BlockVotes(blk.lanes), GridVotes(blk.lanes)) ==>
              TopReady(g, m.readys, b, blk.(grids := GridVotes(blk.lanes)))
  {
    WaitingLane(g, m, b, blk, 0);
    forall l | 0 <= l < g.lanes
      ensures && blk.lanes[l].base == blk.window
              && (if blk.window + l < 0 then blk.lanes[l].ready == 0
                  else 0 <= blk.lanes[l].ready <= m.readys[blk.window + l])
    {
      WaitingLane(g, m, b, blk, l);
    }
    VotesTopReady(g, m.readys, b, blk);
  }

  lemma BallotFullLanes(g: Grid, m: Memory, b: nat, blk: Block)
    requires g.Valid() && b < |g.counts| && FlagsVouch(g, m) && |blk.lanes| == |blk.blocks| == |blk.grids| == g.lanes
    requires BlockOk(g, m, b, blk) && AllAt(blk, Wait1)
    ensures var after := AfterBallotFull(g, blk);
            forall l | 0 <= l < g.lanes :: LaneOk(g, m.readys, b, after, l, after.lanes[l])
  {
    var after := AfterBallotFull(g, blk);
    WaitingTopReady(g, m, b, blk, Wait1);
    forall l | 0 <= l < g.lanes ensures LaneOk(g, m.readys, b, after, l, after.lanes[l]) {
      assert LaneOk(g, m.readys, b, blk, 0, blk.lanes[0]) && LaneOk(g, m.readys, b, blk, l, blk.lanes[l]);
      BallotFullLane(g, m, b, blk, l);
    }
  }

  lemma BallotFullInv(g: Grid, s: State, b: nat)
    requires Shape(g, s) && Inv(g, s) && Enabled(g, s, BallotFull(b))
    ensures Inv(g, Apply(g, s, BallotFull(b)))
  {
    var blk := s.blocks[b];
    var after := AfterBallotFull(g, blk);
    BallotFullLanes(g, s.mem, b, blk);
    SamePublisher(g, s.mem, b, blk.lanes[g.lanes - 1].pc, after.lanes[g.lanes - 1].pc);
    OneBlockMoved(g, s, b, Apply(g, s, BallotFull(b)));
  }

  lemma BallotTopLane(g: Grid, r: seq<int>, b: nat, blk: Block, l: nat)
    requires g.Valid() && b < |g.counts| == |r| && |blk.lanes| == |blk.blocks| == |blk.grids| == g.lanes && l < g.lanes
    requires LaneOk(g, r, b, blk, l, blk.lanes[l]) && blk.lanes[l].pc == Wait2
    requires !KeepWaiting(BlockVotes(blk.lanes), GridVotes(blk.lanes)) ==> TopReady(g, r, b, AfterBallotTop(blk))
    ensures var after := AfterBallotTop(blk); LaneOk(g, r, b, after, l, after.lanes[l])
  {
    var after := AfterBallotTop(blk);
    if KeepWaiting(BlockVotes(blk.lanes), GridVotes(blk.lanes)) {
      PollAgain(g, r, b, blk, after, l, blk.lanes[l], Poll2);
    } else {
      StopWaiting(g, r, b, blk, after, l, blk.lanes[l]);
    }
  }

  lemma TopStillReady(g: Grid, r: seq<int>, b: nat, blk: Block)
    requires g.Valid() && b < |g.counts| == |r| && |blk.lanes| == |blk.blocks| == |blk.grids| == g.lanes
    requires !KeepWaiting(BlockVotes(blk.lanes), GridVotes(blk.lanes)) ==>
               TopReady(g, r, b, blk.(grids := GridVotes(blk.lanes)))
    ensures !KeepWaiting(BlockVotes(blk.lanes), GridVotes(blk.lanes)) ==> TopReady(g, r, b, AfterBallotTop(blk))
  {
  }

  lemma BallotTopInv(g: Grid, s: State, b: nat)
    requires Shape(g, s) && Inv(g, s) && Enabled(g, s, BallotTop(b))
    ensures Inv(g, Apply(g, s, BallotTop(b)))
  {
    var blk := s.blocks[b];
    var after := AfterBallotTop(blk);
    WaitingTopReady(g, s.mem, b, blk, Wait2);
    TopStillReady(g, s.mem.readys, b, blk);
    forall l | 0 <= l < g.lanes ensures LaneOk(g, s.mem.readys, b, after, l, after.lanes[l]) {
      assert LaneOk(g, s.mem.readys, b, blk, l, blk.lanes[l]);
      BallotTopLane(g, s.mem.readys, b, blk, l);
    }
    SamePublisher(g, s.mem, b, blk.lanes[g.lanes - 1].pc, after.lanes[g.lanes - 1].pc);
    OneBlockMoved(g, s, b, Apply(g, s, BallotTop(b)));
  }

  lemma SamePublisher(g: Grid, m: Memory, b: nat, before: Pc, after: Pc)
    requires b < |g.counts| == |m.blockCounts| == |m.gridCounts| == |m.readys|
    requires PublisherOk(g, m, b, before) && before in {Wait1, Wait2} && after in {Poll1, Poll2, Add1, Add2}
    ensures PublisherOk(g, m, b, after)
  {
  }

  // The warp reduction adds up to everything before the block.

  function WalkTotal(g: Grid, b: int, base: int, k: nat): int
    requires g.Valid()
  {
    if k == 0 then 0 else WalkTotal(g, b, base, k - 1) + LaneSum(g, b, base, k - 1)
  }

  lemma {:induction false} WalkStep(g: Grid, b: int, base: int, k: nat)
    requires g.Valid() && 0 <= base + g.lanes && base < b - g.lanes
    ensures WalkTotal(g, b, base, k) ==
            WalkTotal(g, b, base + g.lanes, k) + Prefix(g.counts, base + g.lanes + k) - Prefix(g.counts, base + g.lanes)
  {
    if k > 0 { WalkStep(g, b, base, k - 1); }
  }

  lemma {:induction false} WalkZero(g: Grid, b: int, k: nat)
    requires g.Valid()
    ensures WalkTotal(g, b, b - g.lanes, k) == 0
  {
    if k > 0 { WalkZero(g, b, k - 1); }
  }

  lemma {:induction false} WalkWhole(g: Grid, b: int, base: int)
    requires g.Valid() && 0 <= base + g.lanes && OnPath(g, b, base)
    ensures WalkTotal(g, b, base, g.lanes) == Prefix(g.counts, b) - Prefix(g.counts, base + g.lanes)
    decreases b - base
  {
    if base == b - g.lanes {
      WalkZero(g, b, g.lanes);
    } else {
      WalkStep(g, b, base, g.lanes);
      WalkWhole(g, b, base + g.lanes);
    }
  }

  lemma {:induction false} SumShares(g: Grid, b: int, lanes: seq<Lane>, base: int, t: int)
    requires g.Valid() && 0 <= t && 0 <= base + t
    requires forall l | 0 <= l < |lanes| :: lanes[l].acc == LaneSum(g, b, base, l) + LaneShare(g, base, t, l)
    ensures SumAcc(lanes) ==
            WalkTotal(g, b, base, |lanes|) + if |lanes| > t then Prefix(g.counts, base + |lanes|) else 0
  {
    if lanes != [] {
      SumShares(g, b, lanes[..|lanes| - 1], base, t);
    }
  }

  lemma ReadyToReduce(g: Grid, r: seq<int>, b: nat, blk: Block, l: nat, x: Lane)
    requires g.Valid() && b < |g.counts| == |r| && l < g.lanes == |blk.blocks| == |blk.grids|
    requires LaneOk(g, r, b, blk, l, x) && x.pc == Wait3
    ensures Top(blk.grids) >= 0 && 0 <= blk.window + Top(blk.grids) && OnPath(g, b, blk.window)
    ensures x.acc == LaneSum(g, b, blk.window, l) + LaneShare(g, blk.window, Top(blk.grids), l)
  {
  }

  /** The broadcast sum is the number of items in all earlier blocks. */
  lemma ReduceTotal(g: Grid, m: Memory, b: nat, blk: Block)
    requires g.Valid() && b < |g.counts| && FlagsVouch(g, m)
    requires |blk.lanes| == |blk.blocks| == |blk.grids| == g.lanes
    requires BlockOk(g, m, b, blk) && AllAt(blk, Wait3)
    ensures SumAcc(blk.lanes) == Prefix(g.counts, b)
  {
    AllReadyToReduce(g, m, b, blk);
    SharesTotal(g, b, blk.lanes, blk.window, Top(blk.grids));
  }

  lemma SharesTotal(g: Grid, b: nat, lanes: seq<Lane>, base: int, t: int)
    requires g.Valid() && |lanes| == g.lanes && 0 <= t < g.lanes && 0 <= base + t && OnPath(g, b, base)
    requires forall l | 0 <= l < g.lanes :: lanes[l].acc == LaneSum(g, b, base, l) + LaneShare(g, base, t, l)
    ensures SumAcc(lanes) == Prefix(g.counts, b)
  {
    SumShares(g, b, lanes, base, t);
    WalkWhole(g, b, base);
  }

  lemma AllReadyToReduce(g: Grid, m: Memory, b: nat, blk: Block)
    requires g.Valid() && b < |g.counts| && FlagsVouch(g, m)
    requires |blk.lanes| == |blk.blocks| == |blk.grids| == g.lanes
    requires BlockOk(g, m, b, blk) && AllAt(blk, Wait3)
    ensures 0 <= Top(blk.grids) < g.lanes && 0 <= blk.window + Top(blk.grids) && OnPath(g, b, blk.window)
    ensures forall l | 0 <= l < g.lanes ::
              blk.lanes[l].acc == LaneSum(g, b, blk.window, l) + LaneShare(g, blk.window, Top(blk.grids), l)
  {
    assert LaneOk(g, m.readys, b, blk, 0, blk.lanes[0]);
    ReadyToReduce(g, m.readys, b, blk, 0, blk.lanes[0]);
    forall l | 0 <= l < g.lanes
      ensures blk.lanes[l].acc == LaneSum(g, b, blk.window, l) + LaneShare(g, blk.window, Top(blk.grids), l)
    {
      assert LaneOk(g, m.readys, b, blk, l, blk.lanes[l]);
      ReadyToReduce(g, m.readys, b, blk, l, blk.lanes[l]);
    }
  }

  lemma ReduceInv(g: Grid, s: State, b: nat)
    requires Shape(g, s) && Inv(g, s) && Enabled(g, s, Reduce(b))
    ensures Inv(g, Apply(g, s, Reduce(b)))
  {
    var blk := s.blocks[b];
    var after := AfterReduce(g, b, blk);
    ReduceTotal(g, s.mem, b, blk);
    forall l | 0 <= l < g.lanes ensures LaneOk(g, s.mem.readys, b, after, l, after.lanes[l]) {
      assert LaneOk(g, s.mem.readys, b, blk, l, blk.lanes[l]);
    }
    OneBlockMoved(g, s, b, Apply(g, s, Reduce(b)));
  }

  lemma StepInv(g: Grid, s: State, step: Step)
    requires Shape(g, s) && Inv(g, s) && Enabled(g, s, step)
    ensures Inv(g, Apply(g, s, step))
  {
    match step
    case Start(b) => StartInv(g, s, b);
    case LaneStep(b, l) => LaneStepInv(g, s, b, l);
    case BallotFull(b) => BallotFullInv(g, s, b);
    case BallotTop(b) => BallotTopInv(g, s, b);
    case Reduce(b) => ReduceInv(g, s, b);
  }

  lemma {:induction false} RunInv(g: Grid, s: State, run: seq<Step>, t: State)
    requires Shape(g, s) && Inv(g, s) && Reaches(g, s, run, t)
    ensures Shape(g, t) && Inv(g, t)
    decreases |run|
  {
    if run != [] {
      StepInv(g, s, run[0]);
      RunInv(g, Apply(g, s, run[0]), run[1..], t);
    }
  }

  // ---- what every run guarantees -----------------------------------------------

  /** No set flag is ever early, and block 0's flag is never 1. */
  lemma FlagsNeverEarly(g: Grid, s: State, run: seq<Step>, t: State, b: nat)
    requires Initial(g, s) && Reaches(g, s, run, t) && b < |g.counts|
    ensures Shape(g, t) && 0 <= t.mem.readys[b] <= 2
    ensures t.mem.readys[b] >= 1 ==> t.mem.blockCounts[b] == g.counts[b]
    ensures t.mem.readys[b] == 2 ==> t.mem.gridCounts[b] == Prefix(g.counts, b + 1)
    ensures t.mem.readys[0] != 1
  {
    InitialInv(g, s);
    RunInv(g, s, run, t);
  }

  /** Whatever the interleaving, a block that is done holds the total of all earlier blocks. */
  lemma PreviousTotalCorrect(g: Grid, s: State, run: seq<Step>, t: State, b: nat, l: nat)
    requires Initial(g, s) && Reaches(g, s, run, t) && b < |g.counts| && l < g.lanes
    ensures Shape(g, t)
    ensures t.blocks[b].lanes[l].pc in {Done, PubGrid, PubGridFlag} ==> t.blocks[b].prev == Prefix(g.counts, b)
  {
    InitialInv(g, s);
    RunInv(g, s, run, t);
    assert BlockOk(g, t.mem, b, t.blocks[b]);
    assert LaneOk(g, t.mem.readys, b, t.blocks[b], l, t.blocks[b].lanes[l]);
  }

  /**
   * A lane polls, or adds a count of, an existing earlier block only: the walk never
   * reads a negative id, and the window never lies wholly below block 0.
   */
  lemma ReadsStayInRange(g: Grid, s: State, run: seq<Step>, t: State, b: nat, l: nat)
    requires Initial(g, s) && Reaches(g, s, run, t) && b < |g.counts| && l < g.lanes
    ensures Shape(g, t)
    ensures var x := t.blocks[b].lanes[l];
            && (x.pc in {Poll1, Add1} ==> 0 <= x.base + l < b)
            && (x.pc in {Poll2, Wait2} ==> 0 < x.base + g.lanes && x.base + l < b)
            && (x.pc == Add2 && Select(l, Mask(t.blocks[b].grids)) != Nothing ==> 0 <= x.base + l < b)
  {
    InitialInv(g, s);
    RunInv(g, s, run, t);
    assert BlockOk(g, t.mem, b, t.blocks[b]);
    assert LaneOk(g, t.mem.readys, b, t.blocks[b], l, t.blocks[b].lanes[l]);
    SelectByTop(t.blocks[b].grids, l);
  }
}
