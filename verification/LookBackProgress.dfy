/**
 * Progress of the look-back.  Blocks start in index order, as the CUDA kernel relies
 * on, and at most `resident` of them are started and unfinished at a time.  From every
 * reachable state all blocks can still finish: no state is a deadlock, and spinning is
 * never the only thing left to do.
 */
module LookBackProgress {
  import opened Ballot
  import opened LookBack

  ghost predicate Waiting(blk: Block) {
    AllAt(blk, NotStarted)
  }

  /** Blocks that hold an execution slot. */
  ghost function Resident(blocks: seq<Block>): nat {
    if blocks == [] then 0
    else if Waiting(blocks[|blocks| - 1]) || AllAt(blocks[|blocks| - 1], Done) then Resident(blocks[..|blocks| - 1])
    else Resident(blocks[..|blocks| - 1]) + 1
  }

  ghost predicate Allowed(g: Grid, s: State, resident: nat, step: Step)
    requires Shape(g, s)
  {
    && Enabled(g, s, step)
    && (step.Start? ==> Resident(s.blocks) < resident && forall c | 0 <= c < step.b :: !Waiting(s.blocks[c]))
  }

  ghost predicate Path(g: Grid, s: State, resident: nat, run: seq<Step>, t: State)
    requires Shape(g, s)
    decreases |run|
  {
    if run == [] then s == t
    else Allowed(g, s, resident, run[0]) && Path(g, Apply(g, s, run[0]), resident, run[1..], t)
  }

  /** Lanes of one warp are in the walk, past the last ballot, or past the reduction. */
  function Group(pc: Pc): nat {
    match pc
    case NotStarted => 0
    case PubCount | PubFlag | Poll1 | Wait1 | Add1 | Poll2 | Wait2 => 1
    case Add2 | Wait3 => 2
    case PubFirstGrid | PubFirstFlag | PubGrid | PubGridFlag | Done => 3
  }

  ghost predicate Together(b: nat, blk: Block) {
    forall k, l | 0 <= k < |blk.lanes| && 0 <= l < |blk.lanes| ::
      if b == 0 then (blk.lanes[k].pc == NotStarted <==> blk.lanes[l].pc == NotStarted)
      else Group(blk.lanes[k].pc) == Group(blk.lanes[l].pc)
  }

  ghost predicate ProgressInv(g: Grid, s: State)
    requires Shape(g, s)
  {
    && Inv(g, s)
    && (forall b | 0 <= b < |s.blocks| :: Together(b, s.blocks[b]))
    && (forall b, c | 0 <= c < b < |s.blocks| && !Waiting(s.blocks[b]) :: !Waiting(s.blocks[c]))
  }

  lemma LaneKeepsGroup(g: Grid, s: State, b: nat, l: nat)
    requires Shape(g, s) && Inv(g, s) && Enabled(g, s, LaneStep(b, l))
    ensures var pc := s.blocks[b].lanes[l].pc;
            var next := LaneNext(g, s.mem, b, s.blocks[b], l).pc;
            next != NotStarted && (b > 0 ==> Group(next) == Group(pc))
  {
    var blk := s.blocks[b];
    assert BlockOk(g, s.mem, b, blk);
    assert LaneOk(g, s.mem.readys, b, blk, l, blk.lanes[l]);
    MaskZero(blk.grids);
  }

  lemma StartTogether(g: Grid, b: nat)
    requires g.Valid()
    ensures Together(b, Started(g, b)) && !Waiting(Started(g, b))
  {
    NoVotesTop(g.lanes);
    var blk := Started(g, b);
    assert forall l | 0 <= l < g.lanes :: blk.lanes[l].pc == StartPc(g, b, l);
    assert blk.lanes[0].pc != NotStarted;
  }

  lemma LaneTogether(g: Grid, s: State, b: nat, l: nat)
    requires Shape(g, s) && Inv(g, s) && Enabled(g, s, LaneStep(b, l)) && Together(b, s.blocks[b])
    ensures var after := Apply(g, s, LaneStep(b, l)).blocks[b]; Together(b, after) && !Waiting(after)
  {
    LaneKeepsGroup(g, s, b, l);
    var after := Apply(g, s, LaneStep(b, l)).blocks[b];
    assert after.lanes[l].pc != NotStarted;
  }

  lemma CollectiveTogether(b: nat, lanes: seq<Lane>, blk: Block)
    requires |lanes| == |blk.lanes| > 0
    requires (exists pc :: pc != NotStarted && blk.lanes == SetPcs(lanes, pc))
          || forall l | 0 <= l < |lanes| :: Group(blk.lanes[l].pc) == 3
    ensures Together(b, blk) && !Waiting(blk)
  {
    assert blk.lanes[0].pc != NotStarted;
  }

  lemma FullTogether(g: Grid, b: nat, blk: Block)
    requires g.Valid() && |blk.lanes| == g.lanes
    ensures Together(b, AfterBallotFull(g, blk)) && !Waiting(AfterBallotFull(g, blk))
  {
    CollectiveTogether(b, blk.lanes, AfterBallotFull(g, blk));
  }

  lemma TopTogether(g: Grid, b: nat, blk: Block)
    requires g.Valid() && |blk.lanes| == g.lanes
    ensures Together(b, AfterBallotTop(blk)) && !Waiting(AfterBallotTop(blk))
  {
    CollectiveTogether(b, blk.lanes, AfterBallotTop(blk));
  }

  lemma ReduceTogether(g: Grid, b: nat, blk: Block)
    requires g.Valid() && |blk.lanes| == g.lanes
    ensures Together(b, AfterReduce(g, b, blk)) && !Waiting(AfterReduce(g, b, blk))
  {
    CollectiveTogether(b, blk.lanes, AfterReduce(g, b, blk));
  }

  lemma StepTogether(g: Grid, s: State, step: Step)
    requires Shape(g, s) && ProgressInv(g, s) && Enabled(g, s, step)
    ensures Together(step.b, Apply(g, s, step).blocks[step.b])
    ensures !Waiting(Apply(g, s, step).blocks[step.b])
  {
    var b := step.b;
    match step
    case Start(_) => StartTogether(g, b);
    case LaneStep(_, l) => LaneTogether(g, s, b, l);
    case BallotFull(_) => FullTogether(g, b, s.blocks[b]);
    case BallotTop(_) => TopTogether(g, b, s.blocks[b]);
    case Reduce(_) => ReduceTogether(g, b, s.blocks[b]);
  }

  /** Moving one block on keeps the lanes together and the starts in order. */
  lemma OneBlockOn(s: seq<Block>, t: seq<Block>, b: nat)
    requires b < |s| == |t| && t == s[b := t[b]] && Together(b, t[b]) && !Waiting(t[b])
    requires forall c | 0 <= c < |s| :: Together(c, s[c])
    requires forall c, d | 0 <= d < c < |s| && !Waiting(s[c]) :: !Waiting(s[d])
    requires forall c | 0 <= c < b :: !Waiting(s[c])
    ensures forall c | 0 <= c < |t| :: Together(c, t[c])
    ensures forall c, d | 0 <= d < c < |t| && !Waiting(t[c]) :: !Waiting(t[d])
  {
  }

  lemma StepProgressInv(g: Grid, s: State, resident: nat, step: Step)
    requires Shape(g, s) && ProgressInv(g, s) && Allowed(g, s, resident, step)
    ensures ProgressInv(g, Apply(g, s, step))
  {
    StepInv(g, s, step);
    StepTogether(g, s, step);
    StepperStarted(g, s, resident, step);
    OneBlockOn(s.blocks, Apply(g, s, step).blocks, step.b);
  }

  /** All blocks before the one that steps have started. */
  lemma StepperStarted(g: Grid, s: State, resident: nat, step: Step)
    requires Shape(g, s) && ProgressInv(g, s) && Allowed(g, s, resident, step)
    ensures forall c | 0 <= c < step.b :: !Waiting(s.blocks[c])
  {
    if !step.Start? {
      var blk := s.blocks[step.b];
      assert !Waiting(blk) by {
        if step.LaneStep? { assert blk.lanes[step.l].pc != NotStarted; } else { assert blk.lanes[0].pc != NotStarted; }
      }
    }
  }

  // ---- what is left to do in one block -----------------------------------------

  function Rank(pc: Pc): nat {
    match pc
    case NotStarted => 14 case PubCount => 13 case PubFirstGrid => 12 case PubFlag => 12
    case PubFirstFlag => 11 case Add1 => 11 case Poll1 => 10 case Wait1 => 9
    case Poll2 => 8 case Wait2 => 7 case Add2 => 6 case Wait3 => 5
    case PubGrid => 4 case PubGridFlag => 3 case Done => 0
  }

  function Ranks(lanes: seq<Lane>): nat {
    if lanes == [] then 0 else Ranks(lanes[..|lanes| - 1]) + Rank(lanes[|lanes| - 1].pc)
  }

  /** A lane holding a flag it read before all earlier blocks were finished. */
  predicate IsStale(l: nat, x: Lane) {
    x.pc in {Wait1, Wait2} && x.base + l >= 0 && x.ready != 2
  }

  function Stale(lanes: seq<Lane>): nat {
    if lanes == [] then 0
    else if IsStale(|lanes| - 1, lanes[|lanes| - 1]) then Stale(lanes[..|lanes| - 1]) + 1
    else Stale(lanes[..|lanes| - 1])
  }

  function Below(g: Grid, blk: Block): nat {
    if blk.window + g.lanes < 0 then 0 else blk.window + g.lanes
  }

  ghost predicate Less(g: Grid, after: Block, blk: Block) {
    || (Waiting(blk) && !Waiting(after))
    || (Waiting(blk) == Waiting(after) && Below(g, after) < Below(g, blk))
    || (Waiting(blk) == Waiting(after) && Below(g, after) == Below(g, blk) && Stale(after.lanes) < Stale(blk.lanes))
    || (Waiting(blk) == Waiting(after) && Below(g, after) == Below(g, blk) && Stale(after.lanes) == Stale(blk.lanes)
        && Ranks(after.lanes) < Ranks(blk.lanes))
  }

  lemma {:induction false} RanksUpdate(lanes: seq<Lane>, l: nat, x: Lane)
    requires l < |lanes|
    ensures Ranks(lanes[l := x]) == Ranks(lanes) - Rank(lanes[l].pc) + Rank(x.pc)
  {
    var n := |lanes| - 1;
    if l < n {
      RanksUpdate(lanes[..n], l, x);
      assert lanes[l := x][..n] == lanes[..n][l := x];
    } else {
      assert lanes[l := x][..n] == lanes[..n];
    }
  }

  lemma {:induction false} StaleUpdate(lanes: seq<Lane>, l: nat, x: Lane)
    requires l < |lanes| && !IsStale(l, lanes[l]) && !IsStale(l, x)
    ensures Stale(lanes[l := x]) == Stale(lanes)
  {
    var n := |lanes| - 1;
    if l < n {
      StaleUpdate(lanes[..n], l, x);
      assert lanes[l := x][..n] == lanes[..n][l := x];
    } else {
      assert lanes[l := x][..n] == lanes[..n];
    }
  }

  lemma {:induction false} NoneStale(lanes: seq<Lane>)
    ensures Stale(lanes) == 0 <==> forall l | 0 <= l < |lanes| :: !IsStale(l, lanes[l])
  {
    if lanes != [] {
      var n := |lanes| - 1;
      NoneStale(lanes[..n]);
      assert forall l | 0 <= l < n :: lanes[..n][l] == lanes[l];
    }
  }

  lemma {:induction false} RanksDrop(lanes: seq<Lane>, after: seq<Lane>)
    requires |lanes| == |after|
    requires forall l | 0 <= l < |lanes| :: Rank(after[l].pc) < Rank(lanes[l].pc)
    ensures |lanes| > 0 ==> Ranks(after) < Ranks(lanes)
    ensures Ranks(after) <= Ranks(lanes)
  {
    if lanes != [] {
      RanksDrop(lanes[..|lanes| - 1], after[..|lanes| - 1]);
    }
  }

  /** Every block before m is finished, so every flag block m can read is 2. */
  ghost predicate EarlierDone(g: Grid, s: State, m: nat)
    requires Shape(g, s)
  {
    forall c | 0 <= c < m && c < |s.blocks| :: AllAt(s.blocks[c], Done)
  }

  lemma EarlierFlags(g: Grid, s: State, m: nat, c: nat)
    requires Shape(g, s) && Inv(g, s) && EarlierDone(g, s, m) && c < m < |s.blocks|
    ensures s.mem.readys[c] == 2
  {
    assert BlockOk(g, s.mem, c, s.blocks[c]);
    assert s.blocks[c].lanes[g.lanes - 1].pc == Done;
  }

  lemma LaneLess(g: Grid, s: State, m: nat, l: nat)
    requires Shape(g, s) && ProgressInv(g, s) && EarlierDone(g, s, m) && Enabled(g, s, LaneStep(m, l))
    ensures Less(g, Apply(g, s, LaneStep(m, l)).blocks[m], s.blocks[m])
  {
    var blk := s.blocks[m];
    var x := LaneNext(g, s.mem, m, blk, l);
    assert BlockOk(g, s.mem, m, blk);
    LaneNextLess(g, s, m, l);
    RanksUpdate(blk.lanes, l, x);
    StaleUpdate(blk.lanes, l, x);
    LaneTogether(g, s, m, l);
    assert blk.lanes[l].pc != NotStarted;
  }

  lemma LaneNextRank(g: Grid, m: Memory, b: nat, blk: Block, l: nat)
    requires g.Valid() && b < |g.counts| == |m.readys| && l < |blk.lanes| == |blk.blocks| == |blk.grids| == g.lanes
    requires LaneOk(g, m.readys, b, blk, l, blk.lanes[l]) && LaneRuns(blk.lanes[l].pc)
    ensures var x, y := blk.lanes[l], LaneNext(g, m, b, blk, l);
            && Rank(y.pc) < Rank(x.pc)
            && (y.pc in {Wait1, Wait2} ==> x.pc in {Poll1, Poll2} && y.base == x.base && x.base + l < b)
            && (y.pc in {Wait1, Wait2} && y.base + l >= 0 ==> y.ready == At(m.readys, y.base + l))
  {
    MaskZero(blk.grids);
  }

  lemma LaneNextLess(g: Grid, s: State, m: nat, l: nat)
    requires Shape(g, s) && ProgressInv(g, s) && EarlierDone(g, s, m) && Enabled(g, s, LaneStep(m, l))
    ensures var x, y := s.blocks[m].lanes[l], LaneNext(g, s.mem, m, s.blocks[m], l);
            Rank(y.pc) < Rank(x.pc) && !IsStale(l, x) && !IsStale(l, y)
  {
    var blk := s.blocks[m];
    assert BlockOk(g, s.mem, m, blk);
    assert LaneOk(g, s.mem.readys, m, blk, l, blk.lanes[l]);
    LaneNextRank(g, s.mem, m, blk, l);
    var y := LaneNext(g, s.mem, m, blk, l);
    if y.pc in {Wait1, Wait2} && y.base + l >= 0 {
      EarlierFlags(g, s, m, y.base + l);
    }
  }

  /** Leaving the wait, or leaving it stale, is progress. */
  lemma BallotLess(g: Grid, blk: Block, after: Block, from: Pc, to: Pc)
    requires |blk.lanes| > 0 && AllAt(blk, from) && after.lanes == SetPcs(blk.lanes, to) && after.window == blk.window
    requires from in {Wait1, Wait2} && to in {Poll1, Poll2, Add2}
    requires Stale(blk.lanes) > 0 || Rank(to) < Rank(from)
    ensures Less(g, after, blk)
  {
    assert blk.lanes[0].pc == from && after.lanes[0].pc == to;
    NoneStale(after.lanes);
    if Stale(blk.lanes) == 0 { RanksDrop(blk.lanes, after.lanes); }
  }

  lemma AddLess(g: Grid, blk: Block, after: Block)
    requires g.Valid() && |blk.lanes| > 0 && AllAt(blk, Wait1) && after.lanes == SetPcs(blk.lanes, Add1)
    requires 0 <= blk.window && after.window == blk.window - g.lanes
    ensures Less(g, after, blk)
  {
    assert blk.lanes[0].pc == Wait1 && after.lanes[0].pc == Add1;
  }

  lemma WaitingBase(g: Grid, m: Memory, b: nat, blk: Block, l: nat)
    requires g.Valid() && b < |g.counts| == |m.readys| && l < |blk.lanes| == |blk.blocks| == |blk.grids| == g.lanes
    requires LaneOk(g, m.readys, b, blk, l, blk.lanes[l]) && blk.lanes[l].pc in {Wait1, Wait2}
    ensures blk.lanes[l].base == blk.window && 0 < blk.window + g.lanes
    ensures blk.lanes[l].pc == Wait1 ==> blk.window >= 0
  {
  }

  /** A ballot taken on fresh flags always moves the warp on; a stale one is not repeated. */
  lemma BallotFullLess(g: Grid, s: State, m: nat)
    requires Shape(g, s) && ProgressInv(g, s) && Enabled(g, s, BallotFull(m))
    ensures Less(g, Apply(g, s, BallotFull(m)).blocks[m], s.blocks[m])
  {
    assert BlockOk(g, s.mem, m, s.blocks[m]);
    FullBallot(g, s.mem, m, s.blocks[m]);
  }

  lemma FullBallot(g: Grid, m: Memory, b: nat, blk: Block)
    requires g.Valid() && b < |g.counts| == |m.blockCounts| == |m.gridCounts| == |m.readys|
    requires |blk.lanes| == |blk.blocks| == |blk.grids| == g.lanes && BlockOk(g, m, b, blk) && AllAt(blk, Wait1)
    ensures Less(g, AfterBallotFull(g, blk), blk)
  {
    var after := AfterBallotFull(g, blk);
    var votes, grids := BlockVotes(blk.lanes), GridVotes(blk.lanes);
    WaitingBase(g, m, b, blk, 0);
    if Mask(votes) != Pow2(g.lanes) - 1 {
      SomeStale(g, m, b, blk);
      BallotLess(g, blk, after, Wait1, Poll1);
    } else if Mask(grids) != 0 {
      BallotLess(g, blk, after, Wait1, AfterWindows(votes, grids));
    } else {
      AddLess(g, blk, after);
    }
  }

  /** A ballot that is not full shows a lane with a stale flag. */
  lemma SomeStale(g: Grid, m: Memory, b: nat, blk: Block)
    requires g.Valid() && b < |g.counts| == |m.blockCounts| == |m.gridCounts| == |m.readys|
    requires |blk.lanes| == |blk.blocks| == |blk.grids| == g.lanes && BlockOk(g, m, b, blk) && AllAt(blk, Wait1)
    requires Mask(BlockVotes(blk.lanes)) != Pow2(g.lanes) - 1
    ensures Stale(blk.lanes) > 0
  {
    var votes := BlockVotes(blk.lanes);
    MaskFull(votes);
    var l :| 0 <= l < g.lanes && !votes[l];
    assert LaneOk(g, m.readys, b, blk, l, blk.lanes[l]);
    WaitingBase(g, m, b, blk, l);
    assert IsStale(l, blk.lanes[l]);
    NoneStale(blk.lanes);
  }

  /** The last lane always looks at an existing block, so fresh flags end the wait. */
  lemma FreshStops(lanes: seq<Lane>)
    requires |lanes| > 0 && lanes[|lanes| - 1].ready == 2
    ensures AfterWindows(BlockVotes(lanes), GridVotes(lanes)) == Add2
  {
    var grids := GridVotes(lanes);
    assert grids[|lanes| - 1];
    ReadyAboveTop(BlockVotes(lanes), grids);
  }

  lemma BallotTopLess(g: Grid, s: State, m: nat)
    requires Shape(g, s) && ProgressInv(g, s) && Enabled(g, s, BallotTop(m))
    ensures Less(g, Apply(g, s, BallotTop(m)).blocks[m], s.blocks[m])
  {
    assert BlockOk(g, s.mem, m, s.blocks[m]);
    TopBallot(g, s.mem, m, s.blocks[m]);
  }

  lemma TopBallot(g: Grid, m: Memory, b: nat, blk: Block)
    requires g.Valid() && b < |g.counts| == |m.blockCounts| == |m.gridCounts| == |m.readys|
    requires |blk.lanes| == |blk.blocks| == |blk.grids| == g.lanes && BlockOk(g, m, b, blk) && AllAt(blk, Wait2)
    ensures Less(g, AfterBallotTop(blk), blk)
  {
    var last := g.lanes - 1;
    WaitingBase(g, m, b, blk, last);
    if blk.lanes[last].ready == 2 {
      FreshStops(blk.lanes);
    } else {
      NoneStale(blk.lanes);
      assert IsStale(last, blk.lanes[last]);
    }
    BallotLess(g, blk, AfterBallotTop(blk), Wait2, AfterWindows(BlockVotes(blk.lanes), GridVotes(blk.lanes)));
  }

  lemma ReduceLess(g: Grid, s: State, m: nat)
    requires Shape(g, s) && Enabled(g, s, Reduce(m))
    ensures Less(g, Apply(g, s, Reduce(m)).blocks[m], s.blocks[m])
  {
    var blk := s.blocks[m];
    var after := AfterReduce(g, m, blk);
    assert blk.lanes[0].pc == Wait3;
    assert after.lanes[0].pc != NotStarted;
    NoneStale(blk.lanes);
    NoneStale(after.lanes);
    RanksDrop(blk.lanes, after.lanes);
  }

  /** The lowest unfinished block always has an allowed step, and it is progress. */
  lemma HelpfulStep(g: Grid, s: State, resident: nat, m: nat) returns (step: Step)
    requires Shape(g, s) && ProgressInv(g, s) && resident > 0
    requires m < |s.blocks| && EarlierDone(g, s, m) && !AllAt(s.blocks[m], Done)
    ensures step.b == m && Allowed(g, s, resident, step)
    ensures Less(g, Apply(g, s, step).blocks[m], s.blocks[m])
  {
    var blk := s.blocks[m];
    assert BlockOk(g, s.mem, m, blk);
    if blk.lanes[0].pc == NotStarted {
      step := Start(m);
      assert AllAt(blk, NotStarted);
      FreeSlot(g, s, m);
      StartTogether(g, m);
    } else if l: nat :| l < g.lanes && LaneRuns(blk.lanes[l].pc) {
      step := LaneStep(m, l);
      LaneLess(g, s, m, l);
    } else {
      step := CollectiveStep(g, s, m);
      match step
      case BallotFull(_) => BallotFullLess(g, s, m);
      case BallotTop(_) => BallotTopLess(g, s, m);
      case Reduce(_) => ReduceLess(g, s, m);
    }
  }

  lemma CollectiveStep(g: Grid, s: State, m: nat) returns (step: Step)
    requires Shape(g, s) && ProgressInv(g, s) && m < |s.blocks| && !AllAt(s.blocks[m], Done)
    requires s.blocks[m].lanes[0].pc != NotStarted
    requires forall l | 0 <= l < g.lanes :: !LaneRuns(s.blocks[m].lanes[l].pc)
    ensures step.b == m && step in {BallotFull(m), BallotTop(m), Reduce(m)} && Enabled(g, s, step)
  {
    var blk := s.blocks[m];
    assert BlockOk(g, s.mem, m, blk);
    var l :| 0 <= l < g.lanes && blk.lanes[l].pc != Done;
    var pc := blk.lanes[l].pc;
    step := match pc case Wait1 => BallotFull(m) case Wait2 => BallotTop(m) case _ => Reduce(m);
    forall k | 0 <= k < g.lanes ensures blk.lanes[k].pc == pc {
      assert LaneOk(g, s.mem.readys, m, blk, k, blk.lanes[k]) && LaneOk(g, s.mem.readys, m, blk, l, blk.lanes[l]);
      WaitersAgree(g, s.mem, m, blk, k, l);
    }
  }

  lemma WaitersAgree(g: Grid, m: Memory, b: nat, blk: Block, k: nat, l: nat)
    requires g.Valid() && b < |g.counts| == |m.readys| && k < |blk.lanes| == |blk.blocks| == |blk.grids| == g.lanes
    requires l < g.lanes
    requires LaneOk(g, m.readys, b, blk, k, blk.lanes[k]) && LaneOk(g, m.readys, b, blk, l, blk.lanes[l])
    requires Together(b, blk) && !LaneRuns(blk.lanes[k].pc) && !LaneRuns(blk.lanes[l].pc)
    requires blk.lanes[l].pc !in {Done, NotStarted}
    ensures blk.lanes[k].pc == blk.lanes[l].pc
  {
    assert b > 0;
    assert Group(blk.lanes[k].pc) == Group(blk.lanes[l].pc);
  }

  lemma FreeSlot(g: Grid, s: State, m: nat)
    requires Shape(g, s) && ProgressInv(g, s) && m < |s.blocks| && EarlierDone(g, s, m) && Waiting(s.blocks[m])
    ensures Resident(s.blocks) == 0 && forall c | 0 <= c < m :: !Waiting(s.blocks[c])
  {
    forall c | 0 <= c < m ensures !Waiting(s.blocks[c]) {
      assert s.blocks[c].lanes[0].pc == Done;
    }
    NoneResident(s.blocks);
  }

  lemma {:induction false} NoneResident(blocks: seq<Block>)
    requires forall c | 0 <= c < |blocks| :: Waiting(blocks[c]) || AllAt(blocks[c], Done)
    ensures Resident(blocks) == 0
  {
    if blocks != [] { NoneResident(blocks[..|blocks| - 1]); }
  }

  lemma EarlierStayDone(g: Grid, s: State, m: nat, step: Step)
    requires Shape(g, s) && Enabled(g, s, step) && step.b == m < |s.blocks| && EarlierDone(g, s, m)
    ensures EarlierDone(g, Apply(g, s, step), m)
  {
  }

  lemma PathFrom(g: Grid, s: State, resident: nat, step: Step, rest: seq<Step>, t: State)
    requires Shape(g, s) && Allowed(g, s, resident, step) && Path(g, Apply(g, s, step), resident, rest, t)
    ensures Path(g, s, resident, [step] + rest, t)
  {
    assert ([step] + rest)[1..] == rest;
  }

  lemma FinishFrom(g: Grid, s: State, resident: nat, m: nat) returns (run: seq<Step>, t: State)
    requires Shape(g, s) && ProgressInv(g, s) && resident > 0 && m <= |s.blocks| && EarlierDone(g, s, m)
    ensures Path(g, s, resident, run, t) && Finished(t)
    decreases |g.counts| - m,
              if m < |s.blocks| && Waiting(s.blocks[m]) then 1 else 0,
              if m < |s.blocks| then Below(g, s.blocks[m]) else 0,
              if m < |s.blocks| then Stale(s.blocks[m].lanes) else 0,
              if m < |s.blocks| then Ranks(s.blocks[m].lanes) else 0
  {
    if m == |s.blocks| {
      run, t := [], s;
    } else if AllAt(s.blocks[m], Done) {
      run, t := FinishFrom(g, s, resident, m + 1);
    } else {
      var step := HelpfulStep(g, s, resident, m);
      StepProgressInv(g, s, resident, step);
      EarlierStayDone(g, s, m, step);
      var rest;
      rest, t := FinishFrom(g, Apply(g, s, step), resident, m);
      PathFrom(g, s, resident, step, rest, t);
      run := [step] + rest;
    }
  }

  lemma {:induction false} PathInv(g: Grid, s: State, resident: nat, run: seq<Step>, t: State)
    requires Shape(g, s) && ProgressInv(g, s) && Path(g, s, resident, run, t)
    ensures Shape(g, t) && ProgressInv(g, t)
    decreases |run|
  {
    if run != [] {
      StepProgressInv(g, s, resident, run[0]);
      PathInv(g, Apply(g, s, run[0]), resident, run[1..], t);
    }
  }

  /**
   * With blocks started in index order and at least one slot, whatever has happened so
   * far, all blocks can still finish.
   */
  lemma NeverDeadlocks(g: Grid, s: State, resident: nat, past: seq<Step>, now: State) returns (run: seq<Step>, t: State)
    requires Initial(g, s) && resident > 0 && Path(g, s, resident, past, now)
    ensures Shape(g, now) && Path(g, now, resident, run, t) && Finished(t)
  {
    InitialInv(g, s);
    PathInv(g, s, resident, past, now);
    run, t := FinishFrom(g, now, resident, 0);
  }
}
