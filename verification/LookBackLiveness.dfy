/**
 * What every schedule of the look-back guarantees.  Once the blocks before it are finished
 * a block takes a bounded number of steps, spinning included, whoever runs in between; and
 * in every weakly fair infinite schedule all blocks finish.
 */
module LookBackLiveness {
  import Arith
  import opened LookBack
  import opened LookBackProgress

  // ---- any step of the lowest unfinished block is progress ---------------------

  lemma StepLess(g: Grid, s: State, resident: nat, step: Step)
    requires Shape(g, s) && ProgressInv(g, s) && Allowed(g, s, resident, step) && EarlierDone(g, s, step.b)
    ensures Less(g, Apply(g, s, step).blocks[step.b], s.blocks[step.b])
  {
    match step
    case Start(b) => StartTogether(g, b);
    case LaneStep(b, l) => LaneLess(g, s, b, l);
    case BallotFull(b) => BallotFullLess(g, s, b);
    case BallotTop(b) => BallotTopLess(g, s, b);
    case Reduce(b) => ReduceLess(g, s, b);
  }

  lemma StepperUnfinished(g: Grid, s: State, step: Step)
    requires Shape(g, s) && Enabled(g, s, step)
    ensures !AllAt(s.blocks[step.b], Done)
  {
    var l := if step.LaneStep? then step.l else 0;
    assert s.blocks[step.b].lanes[l].pc != Done;
  }

  /** Finished blocks take no steps, so they stay finished whoever runs. */
  lemma DoneStays(g: Grid, s: State, m: nat, step: Step)
    requires Shape(g, s) && Enabled(g, s, step) && EarlierDone(g, s, m)
    ensures step.b >= m && EarlierDone(g, Apply(g, s, step), m)
    ensures step.b != m && m < |s.blocks| ==> Apply(g, s, step).blocks[m] == s.blocks[m]
  {
    StepperUnfinished(g, s, step);
  }

  // ---- a bound on the steps of a block ------------------------------------------

  /** A started block looks no further down than its own window. */
  ghost predicate WindowsOk(g: Grid, s: State)
    requires Shape(g, s)
  {
    forall b | 0 <= b < |s.blocks| && !Waiting(s.blocks[b]) :: Below(g, s.blocks[b]) <= b
  }

  lemma StepWindows(g: Grid, s: State, step: Step)
    requires Shape(g, s) && ProgressInv(g, s) && WindowsOk(g, s) && Enabled(g, s, step)
    ensures WindowsOk(g, Apply(g, s, step))
  {
    var t := Apply(g, s, step);
    forall b | 0 <= b < |t.blocks| && !Waiting(t.blocks[b]) ensures Below(g, t.blocks[b]) <= b {
      if b == step.b && !step.Start? { WasStarted(g, s, step); }
    }
  }

  lemma WasStarted(g: Grid, s: State, step: Step)
    requires Shape(g, s) && Enabled(g, s, step) && !step.Start?
    ensures !Waiting(s.blocks[step.b])
  {
    var blk := s.blocks[step.b];
    if step.LaneStep? { assert blk.lanes[step.l].pc != NotStarted; } else { assert blk.lanes[0].pc != NotStarted; }
  }

  lemma {:induction false} StaleBound(lanes: seq<Lane>)
    ensures Stale(lanes) <= |lanes|
  {
    if lanes != [] { StaleBound(lanes[..|lanes| - 1]); }
  }

  lemma {:induction false} RanksBound(lanes: seq<Lane>)
    ensures Ranks(lanes) <= 14 * |lanes|
  {
    if lanes != [] { RanksBound(lanes[..|lanes| - 1]); }
  }

  /** Below, stale lanes and ranks as the digits of one number. */
  function Digits(g: Grid, below: nat, stale: nat, ranks: nat): nat {
    (below * (g.lanes + 1) + stale) * (14 * g.lanes + 1) + ranks
  }

  function Bound(g: Grid, b: nat): nat {
    Digits(g, b + 1, 0, 0)
  }

  ghost function Measure(g: Grid, b: nat, blk: Block): nat {
    if Waiting(blk) then Bound(g, b) else Digits(g, Below(g, blk), Stale(blk.lanes), Ranks(blk.lanes))
  }

  lemma HigherDigit(high: nat, high': nat, low: nat, low': nat, base: nat)
    requires high' < high && low' < base
    ensures high' * base + low' < high * base + low
  {
    Arith.MulMonotone(high' + 1, high, base);
    Arith.MulStep(high', high, base);
  }

  lemma DigitsLess(g: Grid, below: nat, stale: nat, ranks: nat, below': nat, stale': nat, ranks': nat)
    requires stale' <= g.lanes && ranks' <= 14 * g.lanes
    requires below' < below || (below' == below && (stale' < stale || (stale' == stale && ranks' < ranks)))
    ensures Digits(g, below', stale', ranks') < Digits(g, below, stale, ranks)
  {
    var high, high' := below * (g.lanes + 1) + stale, below' * (g.lanes + 1) + stale';
    if below' < below { HigherDigit(below, below', stale, stale', g.lanes + 1); }
    if high' < high { HigherDigit(high, high', ranks, ranks', 14 * g.lanes + 1); }
  }

  lemma MeasureBound(g: Grid, b: nat, blk: Block)
    requires |blk.lanes| == g.lanes && (!Waiting(blk) ==> Below(g, blk) <= b)
    ensures Measure(g, b, blk) <= Bound(g, b)
    ensures !Waiting(blk) ==> Measure(g, b, blk) < Bound(g, b)
  {
    StaleBound(blk.lanes);
    RanksBound(blk.lanes);
    if !Waiting(blk) { DigitsLess(g, b + 1, 0, 0, Below(g, blk), Stale(blk.lanes), Ranks(blk.lanes)); }
  }

  lemma LessMeasure(g: Grid, b: nat, after: Block, blk: Block)
    requires |after.lanes| == |blk.lanes| == g.lanes && Less(g, after, blk)
    requires !Waiting(after) && Below(g, after) <= b
    ensures Measure(g, b, after) < Measure(g, b, blk)
  {
    StaleBound(after.lanes);
    RanksBound(after.lanes);
    if Waiting(blk) {
      MeasureBound(g, b, after);
    } else {
      DigitsLess(g, Below(g, blk), Stale(blk.lanes), Ranks(blk.lanes),
                 Below(g, after), Stale(after.lanes), Ranks(after.lanes));
    }
  }

  lemma StepMeasure(g: Grid, s: State, resident: nat, step: Step)
    requires Shape(g, s) && ProgressInv(g, s) && WindowsOk(g, s)
    requires Allowed(g, s, resident, step) && EarlierDone(g, s, step.b)
    ensures Measure(g, step.b, Apply(g, s, step).blocks[step.b]) < Measure(g, step.b, s.blocks[step.b])
  {
    StepLess(g, s, resident, step);
    StepWindows(g, s, step);
    StepTogether(g, s, step);
    LessMeasure(g, step.b, Apply(g, s, step).blocks[step.b], s.blocks[step.b]);
  }

  function Taken(run: seq<Step>, m: nat): nat {
    if run == [] then 0 else (if run[0].b == m then 1 else 0) + Taken(run[1..], m)
  }

  /** However the other blocks run in between, the steps of m are numbered. */
  lemma {:induction false} StepsBounded(g: Grid, s: State, resident: nat, m: nat, run: seq<Step>, t: State)
    requires Shape(g, s) && ProgressInv(g, s) && WindowsOk(g, s) && m < |s.blocks| && EarlierDone(g, s, m)
    requires Path(g, s, resident, run, t)
    ensures Taken(run, m) <= Measure(g, m, s.blocks[m]) <= Bound(g, m)
    decreases |run|
  {
    MeasureBound(g, m, s.blocks[m]);
    if run != [] {
      var step := run[0];
      if step.b == m { StepMeasure(g, s, resident, step); }
      DoneStays(g, s, m, step);
      StepProgressInv(g, s, resident, step);
      StepWindows(g, s, step);
      StepsBounded(g, Apply(g, s, step), resident, m, run[1..], t);
    }
  }

  lemma {:induction false} PathWindows(g: Grid, s: State, resident: nat, run: seq<Step>, t: State)
    requires Shape(g, s) && ProgressInv(g, s) && WindowsOk(g, s) && Path(g, s, resident, run, t)
    ensures Shape(g, t) && ProgressInv(g, t) && WindowsOk(g, t)
    decreases |run|
  {
    if run != [] {
      StepProgressInv(g, s, resident, run[0]);
      StepWindows(g, s, run[0]);
      PathWindows(g, Apply(g, s, run[0]), resident, run[1..], t);
    }
  }

  lemma InitialWindows(g: Grid, s: State)
    requires Initial(g, s)
    ensures ProgressInv(g, s) && WindowsOk(g, s)
  {
    InitialInv(g, s);
  }

  /**
   * In every run of the grid, from the moment the blocks before m are finished, m takes at
   * most Bound(g, m) steps: there is no endless spinning on what never comes.
   */
  lemma SpinningEnds(g: Grid, s: State, resident: nat, past: seq<Step>, now: State, m: nat, run: seq<Step>, t: State)
    requires Initial(g, s) && Path(g, s, resident, past, now)
    requires Shape(g, now) && m < |now.blocks| && EarlierDone(g, now, m) && Path(g, now, resident, run, t)
    ensures Taken(run, m) <= Bound(g, m)
  {
    InitialWindows(g, s);
    PathWindows(g, s, resident, past, now);
    StepsBounded(g, now, resident, m, run, t);
  }

  // ---- infinite schedules --------------------------------------------------------

  ghost predicate Follows(g: Grid, resident: nat, s: State, step: Step, t: State) {
    && Shape(g, s)
    && (if Finished(s) then t == s else Allowed(g, s, resident, step) && t == Apply(g, s, step))
  }

  /** An endless run; a finished grid rests. */
  ghost predicate Schedule(g: Grid, resident: nat, states: nat -> State, steps: nat -> Step) {
    && Initial(g, states(0))
    && forall i: nat {:trigger steps(i)} :: Follows(g, resident, states(i), steps(i), states(i + 1))
  }

  ghost predicate CanMove(g: Grid, s: State, resident: nat, b: nat)
    requires Shape(g, s)
  {
    exists step: Step :: step.b == b && Allowed(g, s, resident, step)
  }

  /** Block b takes the step, or has none to take. */
  ghost predicate Served(g: Grid, resident: nat, s: State, step: Step, b: nat) {
    Shape(g, s) && (step.b == b || !CanMove(g, s, resident, b))
  }

  ghost predicate ServedFrom(g: Grid, resident: nat, states: nat -> State, steps: nat -> Step, b: nat, i: nat) {
    exists j: nat :: j >= i && Served(g, resident, states(j), steps(j), b)
  }

  /** No block that could move from some moment on is passed over for ever. */
  ghost predicate Fair(g: Grid, resident: nat, states: nat -> State, steps: nat -> Step) {
    forall b: nat, i: nat | b < |g.counts| :: ServedFrom(g, resident, states, steps, b, i)
  }

  lemma {:induction false} InvAt(g: Grid, resident: nat, states: nat -> State, steps: nat -> Step, i: nat)
    requires Schedule(g, resident, states, steps)
    ensures Shape(g, states(i)) && ProgressInv(g, states(i)) && WindowsOk(g, states(i))
  {
    if i == 0 {
      InitialWindows(g, states(0));
    } else {
      InvAt(g, resident, states, steps, i - 1);
      assert Follows(g, resident, states(i - 1), steps(i - 1), states(i));
      if !Finished(states(i - 1)) {
        StepProgressInv(g, states(i - 1), resident, steps(i - 1));
        StepWindows(g, states(i - 1), steps(i - 1));
      }
    }
  }

  lemma LowestCanMove(g: Grid, s: State, resident: nat, m: nat)
    requires Shape(g, s) && ProgressInv(g, s) && resident > 0
    requires m < |s.blocks| && EarlierDone(g, s, m) && !AllAt(s.blocks[m], Done)
    ensures !Finished(s) && CanMove(g, s, resident, m)
  {
    var step := HelpfulStep(g, s, resident, m);
  }

  /** Block m is the lowest unfinished one at moment i. */
  ghost predicate Lowest(g: Grid, states: nat -> State, m: nat, i: nat) {
    m < |g.counts| && Shape(g, states(i)) && EarlierDone(g, states(i), m) && !AllAt(states(i).blocks[m], Done)
  }

  lemma ServedMoves(g: Grid, resident: nat, states: nat -> State, steps: nat -> Step, m: nat, i: nat)
    requires Schedule(g, resident, states, steps) && resident > 0 && Lowest(g, states, m, i)
    requires Served(g, resident, states(i), steps(i), m)
    ensures steps(i).b == m
  {
    InvAt(g, resident, states, steps, i);
    LowestCanMove(g, states(i), resident, m);
  }

  /** A step of another block while m is the lowest unfinished one. */
  lemma TurnPassed(g: Grid, resident: nat, states: nat -> State, steps: nat -> Step, m: nat, i: nat)
    requires Schedule(g, resident, states, steps) && resident > 0 && Lowest(g, states, m, i) && steps(i).b != m
    ensures Lowest(g, states, m, i + 1) && states(i + 1).blocks[m] == states(i).blocks[m]
  {
    InvAt(g, resident, states, steps, i);
    LowestCanMove(g, states(i), resident, m);
    assert Follows(g, resident, states(i), steps(i), states(i + 1));
    DoneStays(g, states(i), m, steps(i));
  }

  /** A step of m itself. */
  lemma TurnTaken(g: Grid, resident: nat, states: nat -> State, steps: nat -> Step, m: nat, i: nat)
    requires Schedule(g, resident, states, steps) && resident > 0 && Lowest(g, states, m, i) && steps(i).b == m
    ensures Shape(g, states(i + 1)) && EarlierDone(g, states(i + 1), m)
    ensures Measure(g, m, states(i + 1).blocks[m]) < Measure(g, m, states(i).blocks[m])
  {
    InvAt(g, resident, states, steps, i);
    LowestCanMove(g, states(i), resident, m);
    assert Follows(g, resident, states(i), steps(i), states(i + 1));
    StepMeasure(g, states(i), resident, steps(i));
    DoneStays(g, states(i), m, steps(i));
  }

  /** The lowest unfinished block gets its turn, unchanged until then. */
  lemma NextTurn(g: Grid, resident: nat, states: nat -> State, steps: nat -> Step, m: nat, i: nat, j: nat)
    returns (k: nat)
    requires Schedule(g, resident, states, steps) && resident > 0 && Lowest(g, states, m, i)
    requires i <= j && Served(g, resident, states(j), steps(j), m)
    ensures Lowest(g, states, m, k) && states(k).blocks[m] == states(i).blocks[m] && steps(k).b == m
    decreases j - i
  {
    if steps(i).b == m {
      k := i;
    } else if i == j {
      ServedMoves(g, resident, states, steps, m, i);
      k := i;
    } else {
      TurnPassed(g, resident, states, steps, m, i);
      k := NextTurn(g, resident, states, steps, m, i + 1, j);
    }
  }

  lemma NextServed(g: Grid, resident: nat, states: nat -> State, steps: nat -> Step, b: nat, i: nat) returns (j: nat)
    requires Fair(g, resident, states, steps) && b < |g.counts|
    ensures j >= i && Served(g, resident, states(j), steps(j), b)
  {
    assert ServedFrom(g, resident, states, steps, b, i);
    j :| j >= i && Served(g, resident, states(j), steps(j), b);
  }

  /** In a fair schedule the lowest unfinished block comes nearer its end. */
  lemma Nearer(g: Grid, resident: nat, states: nat -> State, steps: nat -> Step, m: nat, i: nat) returns (k: nat)
    requires Schedule(g, resident, states, steps) && Fair(g, resident, states, steps) && resident > 0
    requires Lowest(g, states, m, i)
    ensures Shape(g, states(k)) && EarlierDone(g, states(k), m)
    ensures Measure(g, m, states(k).blocks[m]) < Measure(g, m, states(i).blocks[m])
  {
    var j := NextServed(g, resident, states, steps, m, i);
    k := NextTurn(g, resident, states, steps, m, i, j);
    TurnTaken(g, resident, states, steps, m, k);
    k := k + 1;
  }

  lemma BlockFinishes(g: Grid, resident: nat, states: nat -> State, steps: nat -> Step, m: nat, i: nat) returns (n: nat)
    requires Schedule(g, resident, states, steps) && Fair(g, resident, states, steps) && resident > 0
    requires m < |g.counts| && Shape(g, states(i)) && EarlierDone(g, states(i), m)
    ensures Shape(g, states(n)) && EarlierDone(g, states(n), m + 1)
    decreases Measure(g, m, states(i).blocks[m])
  {
    if AllAt(states(i).blocks[m], Done) {
      n := i;
    } else {
      var k := Nearer(g, resident, states, steps, m, i);
      n := BlockFinishes(g, resident, states, steps, m, k);
    }
  }

  lemma EarlierFinish(g: Grid, resident: nat, states: nat -> State, steps: nat -> Step, m: nat) returns (n: nat)
    requires Schedule(g, resident, states, steps) && Fair(g, resident, states, steps) && resident > 0 && m <= |g.counts|
    ensures Shape(g, states(n)) && EarlierDone(g, states(n), m)
  {
    if m == 0 {
      n := 0;
    } else {
      n := EarlierFinish(g, resident, states, steps, m - 1);
      n := BlockFinishes(g, resident, states, steps, m - 1, n);
    }
  }

  /**
   * With blocks started in index order and at least one slot, every weakly fair schedule
   * finishes all blocks, and each of them then knows the total of the blocks before it.
   */
  lemma AllFinish(g: Grid, resident: nat, states: nat -> State, steps: nat -> Step) returns (n: nat)
    requires Schedule(g, resident, states, steps) && Fair(g, resident, states, steps) && resident > 0
    ensures Shape(g, states(n)) && Finished(states(n))
    ensures forall b | 0 <= b < |g.counts| :: states(n).blocks[b].prev == Prefix(g.counts, b)
  {
    n := EarlierFinish(g, resident, states, steps, |g.counts|);
    var t := states(n);
    InvAt(g, resident, states, steps, n);
    forall b | 0 <= b < |g.counts| ensures t.blocks[b].prev == Prefix(g.counts, b) {
      assert BlockOk(g, t.mem, b, t.blocks[b]);
      assert t.blocks[b].lanes[0].pc == Done && LaneOk(g, t.mem.readys, b, t.blocks[b], 0, t.blocks[b].lanes[0]);
    }
  }

  // ---- there are such schedules ----------------------------------------------------

  /** The state after the first i steps of a run, and after its end the last one. */
  ghost function StateAt(g: Grid, s: State, run: seq<Step>, i: nat): State
    decreases i
  {
    if i == 0 || run == [] || !Shape(g, s) || !Enabled(g, s, run[0]) then s
    else StateAt(g, Apply(g, s, run[0]), run[1..], i - 1)
  }

  function StepAt(run: seq<Step>, i: nat): Step {
    if i < |run| then run[i] else Start(0)
  }

  lemma {:induction false} StateFollows(g: Grid, s: State, resident: nat, run: seq<Step>, t: State, i: nat)
    requires Shape(g, s) && Path(g, s, resident, run, t) && Finished(t)
    ensures Follows(g, resident, StateAt(g, s, run, i), StepAt(run, i), StateAt(g, s, run, i + 1))
    ensures i >= |run| ==> StateAt(g, s, run, i) == t
    decreases i
  {
    if run != [] {
      StepperUnfinished(g, s, run[0]);
      var next := Apply(g, s, run[0]);
      if i > 0 {
        StateFollows(g, next, resident, run[1..], t, i - 1);
      } else {
        assert StateAt(g, s, run, 1) == StateAt(g, next, run[1..], 0) == next;
      }
    }
  }

  lemma FinishedServes(g: Grid, resident: nat, t: State, step: Step, b: nat)
    requires Shape(g, t) && Finished(t)
    ensures Served(g, resident, t, step, b)
  {
    if move: Step :| move.b == b && Allowed(g, t, resident, move) { StepperUnfinished(g, t, move); }
  }

  /** The premises of AllFinish can be met from every initial state. */
  lemma FairScheduleExists(g: Grid, s: State, resident: nat) returns (states: nat -> State, steps: nat -> Step)
    requires Initial(g, s) && resident > 0
    ensures states(0) == s && Schedule(g, resident, states, steps) && Fair(g, resident, states, steps)
  {
    var run, t := NeverDeadlocks(g, s, resident, [], s);
    states, steps := (i: nat) => StateAt(g, s, run, i), (i: nat) => StepAt(run, i);
    forall i: nat ensures Follows(g, resident, states(i), steps(i), states(i + 1)) {
      StateFollows(g, s, resident, run, t, i);
    }
    forall b: nat, i: nat | b < |g.counts| ensures ServedFrom(g, resident, states, steps, b, i) {
      var j := i + |run|;
      StateFollows(g, s, resident, run, t, j);
      FinishedServes(g, resident, t, steps(j), b);
      assert Served(g, resident, states(j), steps(j), b);
    }
  }
}
