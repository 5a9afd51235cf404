/**
 * CONVECTION3DPA: eight stages over six reused buffers, each stage shared out over a
 * thread block and the stages separated by barriers.
 */
module Convection {
  import opened Arith
  import opened Buffer
  import opened Elements
  import opened Sums
  import Progress
  import opened ThreadBlock

  /** A coefficient table as the macros read it: entry (o, k) at [k][o]. */
  ghost predicate ShowsColumns(m: View, c: Table2)
    reads m.buf
  {
    m.nz == 1 && m.Fits() && forall k, o {:trigger m.Load(0, k, o)} | m.Has(0, k, o) :: m.Load(0, k, o) == c(o, k)
  }

  method ReadColumn(m: View, k: int, o: int, ghost c: Table2) returns (v: real)
    requires ShowsColumns(m, c) && m.Has(0, k, o)
    ensures v == c(o, k)
  {
    v := m.Load(0, k, o);
  }

  datatype Axis = X | Y | Z

  function Term(axis: Axis, f: Table3, c: Table2, cell: Cell): int -> real {
    match axis
    case X => TermX(f, c, cell.z, cell.y, cell.x)
    case Y => TermY(f, c, cell.z, cell.y, cell.x)
    case Z => TermZ(f, c, cell.z, cell.y, cell.x)
  }

  function Along(axis: Axis, n: nat, f: Table3, c: Table2): Table3 {
    match axis
    case X => AlongX(n, f, c)
    case Y => AlongY(n, f, c)
    case Z => AlongZ(n, f, c)
  }

  lemma AlongAt(axis: Axis, n: nat, f: Table3, c: Table2, cell: Cell)
    ensures Along(axis, n, f, c)(cell.z, cell.y, cell.x) == Sum(n, Term(axis, f, c, cell))
  {
  }

  /** One accumulator of a stage: what it reads, with which coefficients, and where it is stored. */
  datatype Lane = Lane(t: View, m: View, out: View)

  /** The extents that contracting n entries along an axis into (nz, ny, nx) asks for. */
  predicate Sized(axis: Axis, n: nat, lane: Lane, nz: nat, ny: nat, nx: nat) {
    && lane.out.Fits() && lane.out.nz == nz && lane.out.ny == ny && lane.out.nx == nx
    && Reads(axis, n, lane.t, lane.m, nz, ny, nx)
  }

  predicate Reads(axis: Axis, n: nat, t: View, m: View, nz: nat, ny: nat, nx: nat) {
    && t.Fits() && m.Fits() && m.nz == 1 && m.ny == n
    && match axis
       case X => t.nz == nz && t.ny == ny && t.nx == n && m.nx == nx
       case Y => t.nz == nz && t.ny == n && t.nx == nx && m.nx == ny
       case Z => t.nz == n && t.ny == ny && t.nx == nx && m.nx == nz
  }

  method ProductX(t: View, m: View, cell: Cell, k: nat, ghost f: Table3, ghost c: Table2) returns (r: real)
    requires Shows(t, f) && ShowsColumns(m, c) && t.Has(cell.z, cell.y, k) && m.Has(0, k, cell.x)
    ensures r == TermX(f, c, cell.z, cell.y, cell.x)(k)
  {
    var w := ReadColumn(m, k, cell.x, c);
    var v := t.Read(cell.z, cell.y, k, f);
    r := w * v;
  }

  method ProductY(t: View, m: View, cell: Cell, k: nat, ghost f: Table3, ghost c: Table2) returns (r: real)
    requires Shows(t, f) && ShowsColumns(m, c) && t.Has(cell.z, k, cell.x) && m.Has(0, k, cell.y)
    ensures r == TermY(f, c, cell.z, cell.y, cell.x)(k)
  {
    var w := ReadColumn(m, k, cell.y, c);
    var v := t.Read(cell.z, k, cell.x, f);
    r := w * v;
  }

  method ProductZ(t: View, m: View, cell: Cell, k: nat, ghost f: Table3, ghost c: Table2) returns (r: real)
    requires Shows(t, f) && ShowsColumns(m, c) && t.Has(k, cell.y, cell.x) && m.Has(0, k, cell.z)
    ensures r == TermZ(f, c, cell.z, cell.y, cell.x)(k)
  {
    var w := ReadColumn(m, k, cell.z, c);
    var v := t.Read(k, cell.y, cell.x, f);
    r := w * v;
  }

  method Product(axis: Axis, t: View, m: View, n: nat, cell: Cell, k: nat, ghost f: Table3, ghost c: Table2,
                 ghost nz: nat, ghost ny: nat, ghost nx: nat)
    returns (r: real)
    requires Reads(axis, n, t, m, nz, ny, nx) && Inside(cell.z, cell.y, cell.x, nz, ny, nx) && k < n
    requires Shows(t, f) && ShowsColumns(m, c)
    ensures r == Term(axis, f, c, cell)(k)
  {
    match axis
    case X => r := ProductX(t, m, cell, k, f, c);
    case Y => r := ProductY(t, m, cell, k, f, c);
    case Z => r := ProductZ(t, m, cell, k, f, c);
  }

  // ---- a contraction stage, step by step ----------------------------------------------

  /** Where a thread stands in its current cell: loop count, accumulators, stores done. */
  datatype Local = Local(k: nat, acc: seq<real>, stored: nat)

  /** What a stage reads and computes, as tables. */
  datatype Tables = Tables(axis: Axis, n: nat, fs: seq<Table3>, cs: seq<Table2>) {

    predicate Lanes(count: nat) {
      count >= 1 && |fs| == |cs| == count
    }

    function Result(i: nat): Table3
      requires i < |fs| && |fs| == |cs|
    {
      Along(axis, n, fs[i], cs[i])
    }
  }

  function Outs(lanes: seq<Lane>): set<object> {
    set i | 0 <= i < |lanes| :: lanes[i].out.buf
  }

  /** No buffer a stage writes is read in it, and its outputs are different buffers. */
  ghost predicate Separate(lanes: seq<Lane>) {
    && (forall i, j | 0 <= i < j < |lanes| :: lanes[i].out.buf != lanes[j].out.buf)
    && (forall i, j | 0 <= i < |lanes| && 0 <= j < |lanes| ::
          lanes[i].out.buf != lanes[j].t.buf && lanes[i].out.buf != lanes[j].m.buf)
  }

  ghost predicate Inputs(s: Tables, lanes: seq<Lane>, nz: nat, ny: nat, nx: nat)
    reads set lane | lane in lanes :: lane.t.buf, set lane | lane in lanes :: lane.m.buf
  {
    s.Lanes(|lanes|) && forall i | 0 <= i < |lanes| ::
      Sized(s.axis, s.n, lanes[i], nz, ny, nx) && Shows(lanes[i].t, s.fs[i]) && ShowsColumns(lanes[i].m, s.cs[i])
  }

  ghost predicate Accumulated(s: Tables, local: Local, cell: Cell) {
    && s.Lanes(|local.acc|) && local.k <= s.n && local.stored < |local.acc| && (local.stored > 0 ==> local.k == s.n)
    && forall i | 0 <= i < |local.acc| :: local.acc[i] == Sum(local.k, Term(s.axis, s.fs[i], s.cs[i], cell))
  }

  ghost predicate Standing(s: Tables, plan: Plan, pos: seq<nat>, locals: seq<Local>) {
    |locals| == |pos| == |plan| && forall t | 0 <= t < |plan| ::
      |locals[t].acc| == |s.fs| && (pos[t] < |plan[t]| ==> Accumulated(s, locals[t], plan[t][pos[t]]))
  }

  predicate Fit(lanes: seq<Lane>, nz: nat, ny: nat, nx: nat) {
    forall i | 0 <= i < |lanes| ::
      lanes[i].out.Fits() && lanes[i].out.nz == nz && lanes[i].out.ny == ny && lanes[i].out.nx == nx
  }

  /** Finished cells hold their results, and so do the outputs already stored of cells in hand. */
  ghost predicate Written(s: Tables, lanes: seq<Lane>, plan: Plan, pos: seq<nat>, locals: seq<Local>, todo: set<Cell>,
                          nz: nat, ny: nat, nx: nat)
    requires Fit(lanes, nz, ny, nx) && s.Lanes(|lanes|) && Partition(plan, nz, ny, nx) && |locals| == |pos| == |plan|
    reads Outs(lanes)
  {
    && (forall i, c: Cell | 0 <= i < |lanes| && Inside(c.z, c.y, c.x, nz, ny, nx) && c !in todo ::
          lanes[i].out.Load(c.z, c.y, c.x) == s.Result(i)(c.z, c.y, c.x))
    && (forall t, i | 0 <= t < |plan| && pos[t] < |plan[t]| && 0 <= i < |lanes| && i < locals[t].stored ::
          var c := plan[t][pos[t]];
          lanes[i].out.Load(c.z, c.y, c.x) == s.Result(i)(c.z, c.y, c.x))
  }

  function Steps(n: nat, lanes: nat, l: Local): nat {
    if l.k + l.stored <= n + lanes then n + lanes - l.k - l.stored else 0
  }

  function AllSteps(n: nat, lanes: nat, locals: seq<Local>): seq<int> {
    seq(|locals|, t requires 0 <= t < |locals| => Steps(n, lanes, locals[t]))
  }

  /** Steps left in the cells in hand. */
  function Left(n: nat, lanes: nat, locals: seq<Local>): nat {
    Progress.TotalPositive(AllSteps(n, lanes, locals));
    Progress.Total(AllSteps(n, lanes, locals))
  }

  lemma LeftUpdate(n: nat, lanes: nat, locals: seq<Local>, t: nat, l: Local)
    requires t < |locals|
    ensures Left(n, lanes, locals[t := l]) == Left(n, lanes, locals) - Steps(n, lanes, locals[t]) + Steps(n, lanes, l)
  {
    Progress.TotalUpdate(AllSteps(n, lanes, locals), t, Steps(n, lanes, l));
    assert AllSteps(n, lanes, locals)[t := Steps(n, lanes, l)] == AllSteps(n, lanes, locals[t := l]);
  }

  /** One iteration of the accumulation loop, all lanes. */
  method Accumulate(axis: Axis, n: nat, ghost s: Tables, lanes: seq<Lane>, local: Local, cell: Cell,
                    ghost nz: nat, ghost ny: nat, ghost nx: nat)
    returns (after: Local)
    requires s.axis == axis && s.n == n && Inputs(s, lanes, nz, ny, nx)
    requires |local.acc| == |lanes| && Accumulated(s, local, cell) && local.k < n
    requires Inside(cell.z, cell.y, cell.x, nz, ny, nx)
    ensures |after.acc| == |lanes| && Accumulated(s, after, cell) && after.k == local.k + 1
    ensures after.stored == local.stored == 0
  {
    var acc := [];
    for i := 0 to |lanes|
      invariant |acc| == i
      invariant forall j | 0 <= j < i :: acc[j] == Sum(local.k + 1, Term(s.axis, s.fs[j], s.cs[j], cell))
    {
      var p := Product(axis, lanes[i].t, lanes[i].m, n, cell, local.k, s.fs[i], s.cs[i], nz, ny, nx);
      acc := acc + [local.acc[i] + p];
    }
    after := Local(local.k + 1, acc, 0);
  }

  /** A thread about to begin its next cell. */
  function Begun(lanes: nat): Local {
    Local(0, seq(lanes, _ => 0.0), 0)
  }

  /** A stage under way: the inputs still stand, and the outputs are as far as the threads say. */
  ghost predicate Underway(s: Tables, lanes: seq<Lane>, plan: Plan, pos: seq<nat>, locals: seq<Local>, todo: set<Cell>,
                           nz: nat, ny: nat, nx: nat)
    reads Outs(lanes), set lane | lane in lanes :: lane.t.buf, set lane | lane in lanes :: lane.m.buf
  {
    && Separate(lanes) && Inputs(s, lanes, nz, ny, nx) && Partition(plan, nz, ny, nx)
    && Tracks(plan, pos, todo) && Standing(s, plan, pos, locals)
    && Written(s, lanes, plan, pos, locals, todo, nz, ny, nx)
  }

  /** Thread t has a cell in hand. */
  predicate Busy(plan: Plan, pos: seq<nat>, t: nat) {
    t < |plan| == |pos| && pos[t] < |plan[t]|
  }

  /** One store of a finished accumulator. */
  method StoreOne(ghost s: Tables, lanes: seq<Lane>, plan: Plan, pos: seq<nat>, locals: seq<Local>, t: nat,
                  ghost todo: set<Cell>, ghost nz: nat, ghost ny: nat, ghost nx: nat)
    requires Underway(s, lanes, plan, pos, locals, todo, nz, ny, nx) && Busy(plan, pos, t) && locals[t].k == s.n
    modifies lanes[locals[t].stored].out.buf
    ensures Underway(s, lanes, plan, pos, locals, todo, nz, ny, nx)
    ensures var c, i := plan[t][pos[t]], locals[t].stored;
            lanes[i].out.Load(c.z, c.y, c.x) == s.Result(i)(c.z, c.y, c.x)
  {
    var c, i := plan[t][pos[t]], locals[t].stored;
    StepTracks(plan, pos, todo, t, nz, ny, nx);
    assert Accumulated(s, locals[t], c);
    AlongAt(s.axis, s.n, s.fs[i], s.cs[i], c);
    lanes[i].out.Store(c.z, c.y, c.x, locals[t].acc[i]);
  }

  /** Replacing the accumulators of the cell in hand keeps the picture, if as much has been stored. */
  lemma InHand(s: Tables, lanes: seq<Lane>, plan: Plan, pos: seq<nat>, locals: seq<Local>, t: nat, todo: set<Cell>,
               l: Local, nz: nat, ny: nat, nx: nat)
    requires Underway(s, lanes, plan, pos, locals, todo, nz, ny, nx) && Busy(plan, pos, t)
    requires |l.acc| == |lanes| && Accumulated(s, l, plan[t][pos[t]]) && l.stored <= locals[t].stored + 1
    requires l.stored == locals[t].stored + 1 ==>
               var c, i := plan[t][pos[t]], locals[t].stored;
               i < |lanes| && lanes[i].out.Load(c.z, c.y, c.x) == s.Result(i)(c.z, c.y, c.x)
    ensures Underway(s, lanes, plan, pos, locals[t := l], todo, nz, ny, nx)
  {
  }

  /** Storing the last output finishes the cell. */
  lemma CellDone(s: Tables, lanes: seq<Lane>, plan: Plan, pos: seq<nat>, locals: seq<Local>, t: nat, todo: set<Cell>,
                 nz: nat, ny: nat, nx: nat)
    requires Underway(s, lanes, plan, pos, locals, todo, nz, ny, nx) && Busy(plan, pos, t)
    requires locals[t].stored + 1 == |lanes|
    requires var c, i := plan[t][pos[t]], locals[t].stored;
             lanes[i].out.Load(c.z, c.y, c.x) == s.Result(i)(c.z, c.y, c.x)
    ensures plan[t][pos[t]] in todo
    ensures Underway(s, lanes, plan, pos[t := pos[t] + 1], locals[t := Begun(|lanes|)],
                     todo - {plan[t][pos[t]]}, nz, ny, nx)
  {
    StepTracks(plan, pos, todo, t, nz, ny, nx);
    CellStands(s, plan, pos, locals, t, |lanes|);
    CellWritten(s, lanes, plan, pos, locals, t, todo, nz, ny, nx);
  }

  lemma CellStands(s: Tables, plan: Plan, pos: seq<nat>, locals: seq<Local>, t: nat, lanes: nat)
    requires s.Lanes(lanes) && Standing(s, plan, pos, locals) && Busy(plan, pos, t)
    ensures Standing(s, plan, pos[t := pos[t] + 1], locals[t := Begun(lanes)])
  {
    var pos', locals' := pos[t := pos[t] + 1], locals[t := Begun(lanes)];
    forall u | 0 <= u < |plan| && pos'[u] < |plan[u]| ensures Accumulated(s, locals'[u], plan[u][pos'[u]]) {
      if u != t {
        assert Accumulated(s, locals[u], plan[u][pos[u]]);
      } else {
        BegunAccumulated(s, lanes, plan[u][pos'[u]]);
      }
    }
  }

  lemma CellWritten(s: Tables, lanes: seq<Lane>, plan: Plan, pos: seq<nat>, locals: seq<Local>, t: nat, todo: set<Cell>,
                    nz: nat, ny: nat, nx: nat)
    requires Underway(s, lanes, plan, pos, locals, todo, nz, ny, nx) && Busy(plan, pos, t)
    requires locals[t].stored + 1 == |lanes|
    requires var c, i := plan[t][pos[t]], locals[t].stored;
             lanes[i].out.Load(c.z, c.y, c.x) == s.Result(i)(c.z, c.y, c.x)
    ensures Written(s, lanes, plan, pos[t := pos[t] + 1], locals[t := Begun(|lanes|)],
                    todo - {plan[t][pos[t]]}, nz, ny, nx)
  {
    var c, pos', locals' := plan[t][pos[t]], pos[t := pos[t] + 1], locals[t := Begun(|lanes|)];
    forall i, b: Cell | 0 <= i < |lanes| && Inside(b.z, b.y, b.x, nz, ny, nx) && b !in todo - {c}
      ensures lanes[i].out.Load(b.z, b.y, b.x) == s.Result(i)(b.z, b.y, b.x)
    {
      OutputFinished(s, lanes, plan, pos, locals, t, i, todo, nz, ny, nx, b);
    }
    forall u, i | 0 <= u < |plan| && pos'[u] < |plan[u]| && 0 <= i < |lanes| && i < locals'[u].stored
      ensures var b := plan[u][pos'[u]]; lanes[i].out.Load(b.z, b.y, b.x) == s.Result(i)(b.z, b.y, b.x)
    {
      OutputStored(s, lanes, plan, pos, locals, u, i, todo, nz, ny, nx);
    }
  }

  lemma OutputFinished(s: Tables, lanes: seq<Lane>, plan: Plan, pos: seq<nat>, locals: seq<Local>, t: nat, i: nat,
                       todo: set<Cell>, nz: nat, ny: nat, nx: nat, b: Cell)
    requires Underway(s, lanes, plan, pos, locals, todo, nz, ny, nx) && Busy(plan, pos, t) && i < |lanes|
    requires locals[t].stored + 1 == |lanes| && Inside(b.z, b.y, b.x, nz, ny, nx) && b !in todo - {plan[t][pos[t]]}
    requires var c, last := plan[t][pos[t]], locals[t].stored;
             lanes[last].out.Load(c.z, c.y, c.x) == s.Result(last)(c.z, c.y, c.x)
    ensures lanes[i].out.Load(b.z, b.y, b.x) == s.Result(i)(b.z, b.y, b.x)
  {
    if b in todo && i < locals[t].stored { OutputStored(s, lanes, plan, pos, locals, t, i, todo, nz, ny, nx); }
  }

  lemma OutputStored(s: Tables, lanes: seq<Lane>, plan: Plan, pos: seq<nat>, locals: seq<Local>, t: nat, i: nat,
                     todo: set<Cell>, nz: nat, ny: nat, nx: nat)
    requires Underway(s, lanes, plan, pos, locals, todo, nz, ny, nx)
    requires Busy(plan, pos, t) && i < |lanes| && i < locals[t].stored
    ensures var c := plan[t][pos[t]]; lanes[i].out.Load(c.z, c.y, c.x) == s.Result(i)(c.z, c.y, c.x)
  {
  }

  /** The thread's next step: an iteration of its loop, or a store. */
  method Step(axis: Axis, n: nat, ghost s: Tables, lanes: seq<Lane>, plan: Plan, pos: seq<nat>, locals: seq<Local>,
              t: nat, ghost todo: set<Cell>, ghost nz: nat, ghost ny: nat, ghost nx: nat)
    returns (pos': seq<nat>, locals': seq<Local>, ghost todo': set<Cell>)
    requires s.axis == axis && s.n == n && Underway(s, lanes, plan, pos, locals, todo, nz, ny, nx) && Busy(plan, pos, t)
    modifies Outs(lanes)
    ensures Underway(s, lanes, plan, pos', locals', todo', nz, ny, nx)
    ensures todo' < todo || (todo' == todo && Left(n, |lanes|, locals') < Left(n, |lanes|, locals))
  {
    var c, l := plan[t][pos[t]], locals[t];
    assert Accumulated(s, l, c);
    if l.k < n {
      var after := Accumulate(axis, n, s, lanes, l, c, nz, ny, nx);
      LeftUpdate(n, |lanes|, locals, t, after);
      InHand(s, lanes, plan, pos, locals, t, todo, after, nz, ny, nx);
      pos', locals', todo' := pos, locals[t := after], todo;
    } else {
      pos', locals', todo' := StoreStep(n, s, lanes, plan, pos, locals, t, todo, nz, ny, nx);
    }
  }

  /** The store, and the move to the next cell after the last one. */
  method StoreStep(ghost n: nat, ghost s: Tables, lanes: seq<Lane>, plan: Plan, pos: seq<nat>, locals: seq<Local>,
                   t: nat, ghost todo: set<Cell>, ghost nz: nat, ghost ny: nat, ghost nx: nat)
    returns (pos': seq<nat>, locals': seq<Local>, ghost todo': set<Cell>)
    requires s.n == n && Underway(s, lanes, plan, pos, locals, todo, nz, ny, nx) && Busy(plan, pos, t)
    requires locals[t].k == n
    modifies Outs(lanes)
    ensures Underway(s, lanes, plan, pos', locals', todo', nz, ny, nx)
    ensures todo' < todo || (todo' == todo && Left(n, |lanes|, locals') < Left(n, |lanes|, locals))
  {
    var l := locals[t];
    assert Accumulated(s, l, plan[t][pos[t]]);
    StoreOne(s, lanes, plan, pos, locals, t, todo, nz, ny, nx);
    if l.stored + 1 < |lanes| {
      LeftUpdate(n, |lanes|, locals, t, l.(stored := l.stored + 1));
      InHand(s, lanes, plan, pos, locals, t, todo, l.(stored := l.stored + 1), nz, ny, nx);
      pos', locals', todo' := pos, locals[t := l.(stored := l.stored + 1)], todo;
    } else {
      CellDone(s, lanes, plan, pos, locals, t, todo, nz, ny, nx);
      pos', locals', todo' := pos[t := pos[t] + 1], locals[t := Begun(|lanes|)], todo - {plan[t][pos[t]]};
    }
  }

  /**
   * Stages 2, 3, 4, 6 and 7: the threads run in any interleaving of their loop iterations
   * and stores until all have passed the stage.
   */
  method Contract(axis: Axis, n: nat, lanes: seq<Lane>, plan: Plan, nz: nat, ny: nat, nx: nat, ghost s: Tables)
    requires s.axis == axis && s.n == n && Separate(lanes) && Inputs(s, lanes, nz, ny, nx)
    requires Partition(plan, nz, ny, nx)
    modifies Outs(lanes)
    ensures forall i | 0 <= i < |lanes| :: Shows(lanes[i].out, s.Result(i))
  {
    var pos: seq<nat> := seq(|plan|, _ => 0);
    var locals := seq(|plan|, _ => Begun(|lanes|));
    ghost var todo := CellsOf(plan);
    StartTracks(plan, nz, ny, nx);
    NothingWritten(s, lanes, plan, pos, locals, nz, ny, nx);
    while exists t :: 0 <= t < |plan| && pos[t] < |plan[t]|
      invariant Underway(s, lanes, plan, pos, locals, todo, nz, ny, nx)
      decreases todo, Left(n, |lanes|, locals)
    {
      var t: nat :| t < |plan| && pos[t] < |plan[t]|;
      pos, locals, todo := Step(axis, n, s, lanes, plan, pos, locals, t, todo, nz, ny, nx);
    }
    EndTracks(plan, pos, todo);
    AllWritten(s, lanes, plan, pos, locals, nz, ny, nx);
  }

  lemma NothingWritten(s: Tables, lanes: seq<Lane>, plan: Plan, pos: seq<nat>, locals: seq<Local>, nz: nat,
                       ny: nat, nx: nat)
    requires Fit(lanes, nz, ny, nx) && s.Lanes(|lanes|) && Partition(plan, nz, ny, nx) && |pos| == |locals| == |plan|
    requires forall t | 0 <= t < |plan| :: pos[t] == 0 && locals[t] == Begun(|lanes|)
    ensures Standing(s, plan, pos, locals) && Written(s, lanes, plan, pos, locals, CellsOf(plan), nz, ny, nx)
  {
    forall t | 0 <= t < |plan| && pos[t] < |plan[t]| ensures Accumulated(s, locals[t], plan[t][pos[t]]) {
      BegunAccumulated(s, |lanes|, plan[t][pos[t]]);
    }
    forall c: Cell | Inside(c.z, c.y, c.x, nz, ny, nx) ensures c in CellsOf(plan) {
      var t :| 0 <= t < |plan| && c in plan[t];
    }
  }

  lemma BegunAccumulated(s: Tables, lanes: nat, c: Cell)
    requires s.Lanes(lanes)
    ensures Accumulated(s, Begun(lanes), c)
  {
  }

  lemma AllWritten(s: Tables, lanes: seq<Lane>, plan: Plan, pos: seq<nat>, locals: seq<Local>, nz: nat,
                   ny: nat, nx: nat)
    requires Fit(lanes, nz, ny, nx) && s.Lanes(|lanes|) && Partition(plan, nz, ny, nx) && |locals| == |pos| == |plan|
    requires Written(s, lanes, plan, pos, locals, {}, nz, ny, nx)
    ensures forall i | 0 <= i < |lanes| :: Shows(lanes[i].out, s.Result(i))
  {
    forall i, z, y, x | 0 <= i < |lanes| && Inside(z, y, x, nz, ny, nx)
      ensures lanes[i].out.Load(z, y, x) == s.Result(i)(z, y, x)
    {
      var c := Cell(z, y, x);
      assert lanes[i].out.Load(c.z, c.y, c.x) == s.Result(i)(c.z, c.y, c.x);
    }
  }

  /** A stage with one, two or three accumulators, and the tables it leaves. */
  method Contract1(axis: Axis, n: nat, l: Lane, plan: Plan, nz: nat, ny: nat, nx: nat, ghost f: Table3, ghost c: Table2)
    requires Sized(axis, n, l, nz, ny, nx) && Partition(plan, nz, ny, nx) && l.out.buf !in {l.t.buf, l.m.buf}
    requires Shows(l.t, f) && ShowsColumns(l.m, c)
    modifies l.out.buf
    ensures Shows(l.out, Along(axis, n, f, c))
  {
    var lanes := [l];
    ghost var s := Tables(axis, n, [f], [c]);
    Contract(axis, n, lanes, plan, nz, ny, nx, s);
    assert lanes[0] == l && s.Result(0) == Along(axis, n, f, c);
  }

  method Contract2(axis: Axis, n: nat, l0: Lane, l1: Lane, plan: Plan, nz: nat, ny: nat, nx: nat,
                   ghost f0: Table3, ghost f1: Table3, ghost c0: Table2, ghost c1: Table2)
    requires Sized(axis, n, l0, nz, ny, nx) && Sized(axis, n, l1, nz, ny, nx) && Partition(plan, nz, ny, nx)
    requires l0.out.buf != l1.out.buf && {l0.out.buf, l1.out.buf} !! {l0.t.buf, l0.m.buf, l1.t.buf, l1.m.buf}
    requires Shows(l0.t, f0) && Shows(l1.t, f1) && ShowsColumns(l0.m, c0) && ShowsColumns(l1.m, c1)
    modifies l0.out.buf, l1.out.buf
    ensures Shows(l0.out, Along(axis, n, f0, c0)) && Shows(l1.out, Along(axis, n, f1, c1))
  {
    var lanes := [l0, l1];
    ghost var s := Tables(axis, n, [f0, f1], [c0, c1]);
    Contract(axis, n, lanes, plan, nz, ny, nx, s);
    assert lanes[0] == l0 && lanes[1] == l1 && s.Result(0) == Along(axis, n, f0, c0)
           && s.Result(1) == Along(axis, n, f1, c1);
  }

  method Contract3(axis: Axis, n: nat, l0: Lane, l1: Lane, l2: Lane, plan: Plan, nz: nat, ny: nat, nx: nat,
                   ghost f0: Table3, ghost f1: Table3, ghost f2: Table3, ghost c0: Table2, ghost c1: Table2,
                       ghost c2: Table2)
    requires Sized(axis, n, l0, nz, ny, nx) && Sized(axis, n, l1, nz, ny, nx) && Sized(axis, n, l2, nz, ny, nx)
    requires Partition(plan, nz, ny, nx) && l0.out.buf != l1.out.buf && l0.out.buf != l2.out.buf
    requires l1.out.buf != l2.out.buf
    requires {l0.out.buf, l1.out.buf, l2.out.buf} !! {l0.t.buf, l0.m.buf, l1.t.buf, l1.m.buf, l2.t.buf, l2.m.buf}
    requires Shows(l0.t, f0) && Shows(l1.t, f1) && Shows(l2.t, f2)
    requires ShowsColumns(l0.m, c0) && ShowsColumns(l1.m, c1) && ShowsColumns(l2.m, c2)
    modifies l0.out.buf, l1.out.buf, l2.out.buf
    ensures Shows(l0.out, Along(axis, n, f0, c0)) && Shows(l1.out, Along(axis, n, f1, c1))
    ensures Shows(l2.out, Along(axis, n, f2, c2))
  {
    var lanes := [l0, l1, l2];
    ghost var s := Tables(axis, n, [f0, f1, f2], [c0, c1, c2]);
    Contract(axis, n, lanes, plan, nz, ny, nx, s);
    assert lanes[0] == l0 && lanes[1] == l1 && lanes[2] == l2;
    assert s.Result(0) == Along(axis, n, f0, c0) && s.Result(1) == Along(axis, n, f1, c1)
           && s.Result(2) == Along(axis, n, f2, c2);
  }

  // ---- the stages without an accumulator to share -----------------------------------------

  ghost predicate Filled(out: View, r: Table3, todo: set<Cell>)
    requires out.Fits()
    reads out.buf
  {
    forall c: Cell | Inside(c.z, c.y, c.x, out.nz, out.ny, out.nx) && c !in todo ::
          out.Load(c.z, c.y, c.x) == r(c.z, c.y, c.x)
  }

  lemma FilledAll(out: View, r: Table3, plan: Plan, pos: seq<nat>, todo: set<Cell>)
    requires out.Fits() && Filled(out, r, todo) && Tracks(plan, pos, todo)
    requires forall t | 0 <= t < |plan| :: pos[t] == |plan[t]|
    ensures Shows(out, r)
  {
    EndTracks(plan, pos, todo);
    forall z, y, x | out.Has(z, y, x) ensures out.Load(z, y, x) == r(z, y, x) {
      assert Cell(z, y, x) !in todo;
    }
  }

  /** Some thread, chosen freely, takes its next cell. */
  method NextCell(plan: Plan, pos: seq<nat>, ghost todo: set<Cell>, ghost nz: nat, ghost ny: nat, ghost nx: nat)
    returns (c: Cell, after: seq<nat>, ghost left: set<Cell>)
    requires Partition(plan, nz, ny, nx) && Tracks(plan, pos, todo) && exists t :: 0 <= t < |plan| && pos[t] < |plan[t]|
    ensures c in todo && left == todo - {c} && Inside(c.z, c.y, c.x, nz, ny, nx) && Tracks(plan, after, left)
  {
    var t: nat :| t < |plan| && pos[t] < |plan[t]|;
    StepTracks(plan, pos, todo, t, nz, ny, nx);
    c, after, left := plan[t][pos[t]], pos[t := pos[t] + 1], todo - {plan[t][pos[t]]};
  }

  method FillCell(out: View, c: Cell, v: real, ghost r: Table3, ghost todo: set<Cell>, ghost left: set<Cell>)
    requires out.Fits() && out.Has(c.z, c.y, c.x) && Filled(out, r, todo) && left == todo - {c} && v == r(c.z, c.y, c.x)
    modifies out.buf
    ensures Filled(out, r, left)
  {
    out.Store(c.z, c.y, c.x, v);
  }

  /** Stage 1. */
  method LoadDofs(xs: View, e: nat, ne: nat, out: View, plan: Plan, ghost g: Table3)
    requires xs.buf != out.buf && Shows(xs, g) && out.Fits() && e < ne && xs.nz == ne * out.nz && xs.ny == out.ny
    requires xs.nx == out.nx
    requires Partition(plan, out.nz, out.ny, out.nx)
    modifies out.buf
    ensures Shows(out, Element(g, e, out.nz))
  {
    var pos: seq<nat> := seq(|plan|, _ => 0);
    ghost var r, todo := Element(g, e, out.nz), CellsOf(plan);
    StartTracks(plan, out.nz, out.ny, out.nx);
    while exists t :: 0 <= t < |plan| && pos[t] < |plan[t]|
      invariant Tracks(plan, pos, todo) && Filled(out, r, todo)
      decreases todo
    {
      var c;
      ghost var before := todo;
      c, pos, todo := NextCell(plan, pos, todo, out.nz, out.ny, out.nx);
      ElementInside(e, ne, out.nz, c.z);
      FillCell(out, c, xs.Load(e * out.nz + c.z, c.y, c.x), r, before, todo);
    }
    FilledAll(out, r, plan, pos, todo);
  }

  /** Stage 5's value: the velocity against the gradient. */
  ghost function Advected(o: nat -> Table3, gx: Table3, gy: Table3, gz: Table3): Table3 {
    (z, y, x) => o(0)(z, y, x) * gx(z, y, x) + o(1)(z, y, x) * gy(z, y, x) + o(2)(z, y, x) * gz(z, y, x)
  }

  /** The velocity of element e: component c of the data with three components an element. */
  ghost function Velocity(d: Table3, e: nat, q1: nat): nat -> Table3 {
    (c: nat) => Coefficient(d, e, 3, q1, c)
  }

  method Advect(op: View, e: nat, ne: nat, gx: View, gy: View, gz: View, c: Cell,
                ghost d: Table3, ghost fx: Table3, ghost fy: Table3, ghost fz: Table3)
    returns (v: real)
    requires Shows(op, d) && op.ny == op.nx && op.nz == ne * 3 * op.nx && e < ne
    requires Inside(c.z, c.y, c.x, op.nx, op.nx, op.nx)
    requires Shows(gx, fx) && Shows(gy, fy) && Shows(gz, fz)
    requires gx.Has(c.z, c.y, c.x) && gy.Has(c.z, c.y, c.x) && gz.Has(c.z, c.y, c.x)
    ensures v == Advected(Velocity(d, e, op.nx), fx, fy, fz)(c.z, c.y, c.x)
  {
    var o1 := LoadData(op, e, ne, 3, 0, c.z, c.y, c.x, d);
    var o2 := LoadData(op, e, ne, 3, 1, c.z, c.y, c.x, d);
    var o3 := LoadData(op, e, ne, 3, 2, c.z, c.y, c.x, d);
    var gradX := gx.Read(c.z, c.y, c.x, fx);
    var gradY := gy.Read(c.z, c.y, c.x, fy);
    var gradZ := gz.Read(c.z, c.y, c.x, fz);
    v := o1 * gradX + o2 * gradY + o3 * gradZ;
  }

  /** Stage 5. */
  method Weigh(op: View, e: nat, ne: nat, gx: View, gy: View, gz: View, out: View, plan: Plan,
               ghost d: Table3, ghost fx: Table3, ghost fy: Table3, ghost fz: Table3)
    requires out.buf !in {op.buf, gx.buf, gy.buf, gz.buf} && out.Fits() && e < ne
    requires Shows(op, d) && op.ny == op.nx == out.nz == out.ny == out.nx && op.nz == ne * 3 * op.nx
    requires Shows(gx, fx) && Shows(gy, fy) && Shows(gz, fz)
    requires gx.nz == gx.ny == gx.nx == gy.nz == gy.ny == gy.nx == gz.nz == gz.ny == gz.nx == out.nx
    requires Partition(plan, out.nz, out.ny, out.nx)
    modifies out.buf
    ensures Shows(out, Advected(Velocity(d, e, op.nx), fx, fy, fz))
  {
    var pos: seq<nat> := seq(|plan|, _ => 0);
    ghost var r, todo := Advected(Velocity(d, e, op.nx), fx, fy, fz), CellsOf(plan);
    StartTracks(plan, out.nz, out.ny, out.nx);
    while exists t :: 0 <= t < |plan| && pos[t] < |plan[t]|
      invariant Tracks(plan, pos, todo) && Filled(out, r, todo)
      decreases todo
    {
      var c;
      ghost var before := todo;
      c, pos, todo := NextCell(plan, pos, todo, out.nz, out.ny, out.nx);
      var v := Advect(op, e, ne, gx, gy, gz, c, d, fx, fy, fz);
      FillCell(out, c, v, r, before, todo);
    }
    FilledAll(out, r, plan, pos, todo);
  }

  /** The cells of element e no longer to do have received f. */
  ghost predicate AddedCells(ys: View, g: Table3, f: Table3, e: nat, n: nat, todo: set<Cell>)
    requires ys.Fits()
    reads ys.buf
  {
    forall z, y, x | ys.Has(z, y, x) ::
      ys.Load(z, y, x) == if Cell(z - e * n, y, x) in todo then g(z, y, x) else Added(g, f, e, n)(z, y, x)
  }

  method SumX(t: View, m: View, c: Cell, ghost f: Table3, ghost k: Table2) returns (v: real)
    requires Shows(t, f) && ShowsColumns(m, k) && c.z >= 0 && c.y >= 0 && c.x >= 0
    requires c.z < t.nz && c.y < t.ny && m.ny == t.nx && c.x < m.nx
    ensures v == AlongX(t.nx, f, k)(c.z, c.y, c.x)
  {
    v := 0.0;
    for q := 0 to t.nx
      invariant v == Sum(q, TermX(f, k, c.z, c.y, c.x))
    {
      var p := ProductX(t, m, c, q, f, k);
      v := v + p;
    }
  }

  method AddCell(ys: View, e: nat, ne: nat, n: nat, c: Cell, v: real, ghost f: Table3, ghost g: Table3,
                 ghost todo: set<Cell>, ghost left: set<Cell>)
    requires ys.Fits() && ys.nz == ne * n && ys.ny == ys.nx == n && e < ne && Inside(c.z, c.y, c.x, n, n, n)
    requires c in todo && left == todo - {c} && v == f(c.z, c.y, c.x) && AddedCells(ys, g, f, e, n, todo)
    modifies ys.buf
    ensures AddedCells(ys, g, f, e, n, left)
  {
    ElementInside(e, ne, n, c.z);
    var was := ys.Load(e * n + c.z, c.y, c.x);
    ys.Store(e * n + c.z, c.y, c.x, was + v);
  }

  lemma NoneAdded(ys: View, e: nat, n: nat, plan: Plan, f: Table3, g: Table3)
    requires Partition(plan, n, n, n) && Shows(ys, g) && ys.ny == ys.nx == n
    ensures AddedCells(ys, g, f, e, n, CellsOf(plan))
  {
    forall z, y, x | ys.Has(z, y, x) && e * n <= z < e * n + n ensures Cell(z - e * n, y, x) in CellsOf(plan) {
      assert Inside(Cell(z - e * n, y, x).z, y, x, n, n, n);
    }
    forall c | c in CellsOf(plan) ensures Inside(c.z, c.y, c.x, n, n, n) {
      var t: nat :| t < |plan| && c in plan[t];
      var i: nat :| i < |plan[t]| && c == plan[t][i];
    }
  }

  /** Stage 8: along x, added to the element's part of Y. */
  method ContractAdd(t: View, m: View, ys: View, e: nat, ne: nat, plan: Plan, ghost f: Table3, ghost k: Table2,
                     ghost g: Table3)
    requires ys.buf != t.buf && ys.buf != m.buf && Shows(t, f) && ShowsColumns(m, k) && Shows(ys, g)
    requires m.ny == t.nx && m.nx == ys.nx && t.nz == t.ny == ys.ny == ys.nx && e < ne && ys.nz == ne * ys.nx
    requires Partition(plan, ys.nx, ys.nx, ys.nx)
    modifies ys.buf
    ensures Shows(ys, Added(g, AlongX(t.nx, f, k), e, ys.nx))
  {
    var n := ys.nx;
    var pos: seq<nat> := seq(|plan|, _ => 0);
    ghost var r, todo := AlongX(t.nx, f, k), CellsOf(plan);
    StartTracks(plan, n, n, n);
    NoneAdded(ys, e, n, plan, r, g);
    while exists u :: 0 <= u < |plan| && pos[u] < |plan[u]|
      invariant Tracks(plan, pos, todo) && AddedCells(ys, g, r, e, n, todo)
      decreases todo
    {
      var c;
      ghost var before := todo;
      c, pos, todo := NextCell(plan, pos, todo, n, n, n);
      var v := SumX(t, m, c, f, k);
      AddCell(ys, e, ne, n, c, v, r, g, before, todo);
    }
    EndTracks(plan, pos, todo);
  }

  // ---- one element, and all of them -------------------------------------------------------

  datatype Slopes = Slopes(x: Table3, y: Table3, z: Table3)

  /** What stages 2 to 4 compute. */
  ghost function Gradient(d1: nat, u: Table3, b: Table2, g: Table2): Slopes {
    var bu, gu := AlongX(d1, u, b), AlongX(d1, u, g);
    Slopes(AlongZ(d1, AlongY(d1, gu, b), b), AlongZ(d1, AlongY(d1, bu, g), b), AlongZ(d1, AlongY(d1, bu, b), g))
  }

  ghost function Staged(d1: nat, q1: nat, b: Table2, g: Table2, bt: Table2, o: nat -> Table3, u: Table3): Table3 {
    var s := Gradient(d1, u, b, g);
    AlongX(q1, AlongY(q1, AlongZ(q1, Advected(o, s.x, s.y, s.z), bt), bt), bt)
  }

  ghost predicate SixBuffers(sm: seq<array<real>>, m: nat) {
    |sm| == 6 && (forall i | 0 <= i < 6 :: sm[i].Length == m * m * m) && forall i, j | 0 <= i < j < 6 :: sm[i] != sm[j]
  }

  function Cast(buf: array<real>, nz: nat, ny: nat, nx: nat, m: nat): (v: View)
    requires buf.Length == m * m * m && nz <= m && ny <= m && nx <= m
    ensures v == View(buf, nz, ny, nx) && v.Fits()
  {
    CubeFits(nz, ny, nx, m);
    View(buf, nz, ny, nx)
  }

  lemma ColumnsOf(b: array<real>, outs: nat, n: nat)
    requires b.Length == n * outs
    ensures ShowsColumns(View(b, 1, n, outs), Basis(b[..], outs))
  {
    BasisLoads(b, n, outs);
  }

  /** Stages 1 and 2. */
  method InterpolateX(b: array<real>, g: array<real>, xs: View, e: nat, ne: nat, block: Block, d1: nat, q1: nat,
                      sm: seq<array<real>>, m: nat, ghost u: Table3)
    requires Shape(block) && SixBuffers(sm, m) && d1 <= m && q1 <= m && b.Length == g.Length == d1 * q1 && e < ne
    requires Shows(xs, u) && xs.nz == ne * d1 && xs.ny == xs.nx == d1 && sm[0] != xs.buf
    requires b !in sm && g !in sm
    modifies sm[0], sm[1], sm[2]
    ensures Shows(Cast(sm[1], d1, d1, q1, m), AlongX(d1, Element(u, e, d1), Basis(b[..], q1)))
    ensures Shows(Cast(sm[2], d1, d1, q1, m), AlongX(d1, Element(u, e, d1), Basis(g[..], q1)))
  {
    var us, bu, gu := Cast(sm[0], d1, d1, d1, m), Cast(sm[1], d1, d1, q1, m), Cast(sm[2], d1, d1, q1, m);
    var bv, gv := View(b, 1, d1, q1), View(g, 1, d1, q1);
    ghost var t := Element(u, e, d1);
    ColumnsOf(b, q1, d1);
    ColumnsOf(g, q1, d1);
    BlockPartition(ZYX, block, d1, d1, d1);
    LoadDofs(xs, e, ne, us, BlockPlan(ZYX, block, d1, d1, d1), u);
    BlockPartition(ZYX, block, d1, d1, q1);
    Contract2(X, d1, Lane(us, bv, bu), Lane(us, gv, gu), BlockPlan(ZYX, block, d1, d1, q1), d1, d1, q1,
              t, t, Basis(b[..], q1), Basis(g[..], q1));
  }

  /** Stage 3. */
  method InterpolateY(b: array<real>, g: array<real>, block: Block, d1: nat, q1: nat, sm: seq<array<real>>, m: nat,
                      ghost bu: Table3, ghost gu: Table3)
    requires Shape(block) && SixBuffers(sm, m) && d1 <= m && q1 <= m && b.Length == g.Length == d1 * q1 && b !in sm
    requires g !in sm
    requires Shows(Cast(sm[1], d1, d1, q1, m), bu) && Shows(Cast(sm[2], d1, d1, q1, m), gu)
    modifies sm[3], sm[4], sm[5]
    ensures Shows(Cast(sm[3], d1, q1, q1, m), AlongY(d1, bu, Basis(b[..], q1)))
    ensures Shows(Cast(sm[4], d1, q1, q1, m), AlongY(d1, bu, Basis(g[..], q1)))
    ensures Shows(Cast(sm[5], d1, q1, q1, m), AlongY(d1, gu, Basis(b[..], q1)))
  {
    var bv, gv, bus, gus := View(b, 1, d1, q1), View(g, 1, d1, q1), Cast(sm[1], d1, d1, q1, m),
            Cast(sm[2], d1, d1, q1, m);
    ColumnsOf(b, q1, d1);
    ColumnsOf(g, q1, d1);
    BlockPartition(ZXY, block, d1, q1, q1);
    Contract3(Y, d1, Lane(bus, bv, Cast(sm[3], d1, q1, q1, m)), Lane(bus, gv, Cast(sm[4], d1, q1, q1, m)),
              Lane(gus, bv, Cast(sm[5], d1, q1, q1, m)), BlockPlan(ZXY, block, d1, q1, q1), d1, q1, q1,
              bu, bu, gu, Basis(b[..], q1), Basis(g[..], q1), Basis(b[..], q1));
  }

  /** Stage 4: the three derivatives, over the buffers stages 1 and 2 filled. */
  method InterpolateZ(b: array<real>, g: array<real>, block: Block, d1: nat, q1: nat, sm: seq<array<real>>, m: nat,
                      ghost bbu: Table3, ghost gbu: Table3, ghost bgu: Table3)
    requires Shape(block) && SixBuffers(sm, m) && d1 <= m && q1 <= m && b.Length == g.Length == d1 * q1 && b !in sm
    requires g !in sm
    requires Shows(Cast(sm[3], d1, q1, q1, m), bbu) && Shows(Cast(sm[4], d1, q1, q1, m), gbu)
    requires Shows(Cast(sm[5], d1, q1, q1, m), bgu)
    modifies sm[0], sm[1], sm[2]
    ensures Shows(Cast(sm[0], q1, q1, q1, m), AlongZ(d1, bbu, Basis(g[..], q1)))
    ensures Shows(Cast(sm[1], q1, q1, q1, m), AlongZ(d1, gbu, Basis(b[..], q1)))
    ensures Shows(Cast(sm[2], q1, q1, q1, m), AlongZ(d1, bgu, Basis(b[..], q1)))
  {
    var bv, gv := View(b, 1, d1, q1), View(g, 1, d1, q1);
    ColumnsOf(b, q1, d1);
    ColumnsOf(g, q1, d1);
    BlockPartition(XYZ, block, q1, q1, q1);
    Contract3(Z, d1, Lane(Cast(sm[3], d1, q1, q1, m), gv, Cast(sm[0], q1, q1, q1, m)),
              Lane(Cast(sm[4], d1, q1, q1, m), bv, Cast(sm[1], q1, q1, q1, m)),
              Lane(Cast(sm[5], d1, q1, q1, m), bv, Cast(sm[2], q1, q1, q1, m)),
              BlockPlan(XYZ, block, q1, q1, q1), q1, q1, q1,
              bbu, gbu, bgu, Basis(g[..], q1), Basis(b[..], q1), Basis(b[..], q1));
  }

  /** Stages 5 to 8. */
  method Integrate(bt: array<real>, op: View, ys: View, e: nat, ne: nat, block: Block, d1: nat, q1: nat,
                   sm: seq<array<real>>, m: nat, ghost d: Table3, ghost s: Slopes, ghost y0: Table3)
    requires Shape(block) && SixBuffers(sm, m) && d1 <= m && q1 <= m && bt.Length == q1 * d1 && bt !in sm && e < ne
    requires Shows(op, d) && op.ny == op.nx == q1 && op.nz == ne * 3 * q1 && op.buf !in sm
    requires Shows(ys, y0) && ys.ny == ys.nx == d1 && ys.nz == ne * d1 && ys.buf !in sm && ys.buf !in {bt, op.buf}
    requires Shows(Cast(sm[2], q1, q1, q1, m), s.x) && Shows(Cast(sm[1], q1, q1, q1, m), s.y)
    requires Shows(Cast(sm[0], q1, q1, q1, m), s.z)
    modifies sm[3], sm[4], sm[5], ys.buf
    ensures var c, flow := Basis(bt[..], d1), Advected(Velocity(d, e, q1), s.x, s.y, s.z);
            Shows(ys, Added(y0, AlongX(q1, AlongY(q1, AlongZ(q1, flow, c), c), c), e, d1))
  {
    var bv := View(bt, 1, q1, d1);
    var dgu, bdgu, bbdgu := Cast(sm[3], q1, q1, q1, m), Cast(sm[4], d1, q1, q1, m), Cast(sm[5], d1, d1, q1, m);
    ghost var c, f := Basis(bt[..], d1), Advected(Velocity(d, e, q1), s.x, s.y, s.z);
    ColumnsOf(bt, d1, q1);
    BlockPartition(ZYX, block, q1, q1, q1);
    Weigh(op, e, ne, Cast(sm[2], q1, q1, q1, m), Cast(sm[1], q1, q1, q1, m), Cast(sm[0], q1, q1, q1, m), dgu,
          BlockPlan(ZYX, block, q1, q1, q1), d, s.x, s.y, s.z);
    BlockPartition(XYZ, block, d1, q1, q1);
    Contract1(Z, q1, Lane(dgu, bv, bdgu), BlockPlan(XYZ, block, d1, q1, q1), d1, q1, q1, f, c);
    BlockPartition(ZXY, block, d1, d1, q1);
    Contract1(Y, q1, Lane(bdgu, bv, bbdgu), BlockPlan(ZXY, block, d1, d1, q1), d1, d1, q1, AlongZ(q1, f, c), c);
    BlockPartition(ZYX, block, d1, d1, d1);
    ContractAdd(bbdgu, bv, ys, e, ne, BlockPlan(ZYX, block, d1, d1, d1), AlongY(q1, AlongZ(q1, f, c), c), c, y0);
  }

  ghost function Action(b: Table2, g: Table2, bt: Table2, d: Table3, x: Table3, e: nat, d1: nat, q1: nat): Table3 {
    Staged(d1, q1, b, g, bt, Velocity(d, e, q1), Element(x, e, d1))
  }

  /** All eight stages for one element, by a thread block of any shape. */
  method ElementAction(b: array<real>, bt: array<real>, g: array<real>, op: View, xs: View, ys: View, e: nat, ne: nat,
                       block: Block, d1: nat, q1: nat, ghost d: Table3, ghost x: Table3, ghost y0: Table3)
    requires Shape(block) && b.Length == g.Length == bt.Length == d1 * q1 && e < ne
    requires ys.buf !in {b, bt, g, op.buf, xs.buf}
    requires Shows(op, d) && op.ny == op.nx == q1 && op.nz == ne * 3 * q1
    requires Shows(xs, x) && xs.ny == xs.nx == d1 && xs.nz == ne * d1
    requires Shows(ys, y0) && ys.ny == ys.nx == d1 && ys.nz == ne * d1
    modifies ys.buf
    ensures Shows(ys, Added(y0, Action(Basis(b[..], q1), Basis(g[..], q1), Basis(bt[..], d1), d, x, e, d1, q1), e, d1))
  {
    var m := Max(q1, d1);
    var sm0, sm1, sm2 := new real[m * m * m], new real[m * m * m], new real[m * m * m];
    var sm3, sm4, sm5 := new real[m * m * m], new real[m * m * m], new real[m * m * m];
    RunStages(b, bt, g, op, xs, ys, e, ne, block, d1, q1, [sm0, sm1, sm2, sm3, sm4, sm5], m, d, x, y0);
  }

  /** The eight stages over given buffers. */
  method RunStages(b: array<real>, bt: array<real>, g: array<real>, op: View, xs: View, ys: View, e: nat, ne: nat,
                   block: Block, d1: nat, q1: nat, sm: seq<array<real>>, m: nat, ghost d: Table3, ghost x: Table3,
                       ghost y0: Table3)
    requires Shape(block) && b.Length == g.Length == bt.Length == d1 * q1 && e < ne
    requires ys.buf !in {b, bt, g, op.buf, xs.buf}
    requires SixBuffers(sm, m) && d1 <= m && q1 <= m && b !in sm && bt !in sm && g !in sm && op.buf !in sm
    requires xs.buf !in sm && ys.buf !in sm
    requires Shows(op, d) && op.ny == op.nx == q1 && op.nz == ne * 3 * q1
    requires Shows(xs, x) && xs.ny == xs.nx == d1 && xs.nz == ne * d1
    requires Shows(ys, y0) && ys.ny == ys.nx == d1 && ys.nz == ne * d1
    modifies sm[0], sm[1], sm[2], sm[3], sm[4], sm[5], ys.buf
    ensures Shows(ys, Added(y0, Action(Basis(b[..], q1), Basis(g[..], q1), Basis(bt[..], d1), d, x, e, d1, q1), e, d1))
  {
    ghost var u, bb, gg := Element(x, e, d1), Basis(b[..], q1), Basis(g[..], q1);
    ghost var bu, gu := AlongX(d1, u, bb), AlongX(d1, u, gg);
    InterpolateX(b, g, xs, e, ne, block, d1, q1, sm, m, x);
    InterpolateY(b, g, block, d1, q1, sm, m, bu, gu);
    InterpolateZ(b, g, block, d1, q1, sm, m, AlongY(d1, bu, bb), AlongY(d1, bu, gg), AlongY(d1, gu, bb));
    Integrate(bt, op, ys, e, ne, block, d1, q1, sm, m, d, Gradient(d1, u, bb, gg), y0);
  }

  ghost function AllActions(b: Table2, g: Table2, bt: Table2, d: Table3, x: Table3, d1: nat, q1: nat): nat -> Table3 {
    (e: nat) => Action(b, g, bt, d, x, e, d1, q1)
  }

  /** The element loop; a launch with one block an element does the same for each. */
  method Apply(b: array<real>, bt: array<real>, g: array<real>, op: View, xs: View, ys: View, ne: nat, block: Block,
               d1: nat, q1: nat, ghost d: Table3, ghost x: Table3, ghost y0: Table3)
    requires Shape(block) && d1 >= 1 && b.Length == g.Length == bt.Length == d1 * q1
    requires ys.buf !in {b, bt, g, op.buf, xs.buf}
    requires Shows(op, d) && op.ny == op.nx == q1 && op.nz == ne * 3 * q1
    requires Shows(xs, x) && xs.ny == xs.nx == d1 && xs.nz == ne * d1
    requires Shows(ys, y0) && ys.ny == ys.nx == d1 && ys.nz == ne * d1
    modifies ys.buf
    ensures Shows(ys, AllAdded(y0,
                               AllActions(Basis(b[..], q1), Basis(g[..], q1), Basis(bt[..], d1), d, x, d1, q1), ne, d1))
  {
    ghost var F := AllActions(Basis(b[..], q1), Basis(g[..], q1), Basis(bt[..], d1), d, x, d1, q1);
    for e := 0 to ne
      invariant Shows(ys, AllAdded(y0, F, e, d1))
    {
      ElementAction(b, bt, g, op, xs, ys, e, ne, block, d1, q1, d, x, AllAdded(y0, F, e, d1));
      forall z, y, w | ys.Has(z, y, w) ensures ys.Load(z, y, w) == AllAdded(y0, F, e + 1, d1)(z, y, w) {
        AddedNext(y0, F, e, d1, z, y, w);
      }
    }
  }
}
