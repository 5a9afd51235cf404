/** The shared array sBG: what the packed loads leave in it, and what reads through it return. */
module PackedTables {
  import opened Buffer
  import opened Elements
  import opened Packing
  import opened Sums

  // ---- the cells after any number of writes ------------------------------------

  /** One pass of the load body: B's cell, then G's. */
  function Write(t: Table2, b: Table2, g: Table2, q1: nat, d1: nat, q: int, d: int): Table2 {
    (i, j) =>
      if i == Qk(q, d, q1) && j == Dl(q, d, d1) then g(q, d) * Sign(q, d)
      else if i == Qi(q, d, q1) && j == Dj(q, d, d1) then b(q, d)
      else t(i, j)
  }

  /** The writes of dof d for the first n points, and of the first m dofs for all points. */
  function AfterRow(t: Table2, b: Table2, g: Table2, q1: nat, d1: nat, d: int, n: nat): Table2 {
    if n == 0 then t else Write(AfterRow(t, b, g, q1, d1, d, n - 1), b, g, q1, d1, n - 1, d)
  }

  function AfterRows(t: Table2, b: Table2, g: Table2, q1: nat, d1: nat, m: nat): Table2 {
    if m == 0 then t else AfterRow(AfterRows(t, b, g, q1, d1, m - 1), b, g, q1, d1, m - 1, q1)
  }

  function Loaded(t: Table2, b: Table2, g: Table2, q1: nat, d1: nat): Table2 {
    AfterRows(t, b, g, q1, d1, d1)
  }

  /** The two coefficients that reads through the packed indices return. */
  function ServedB(t: Table2, q1: nat, d1: nat): Table2 {
    (q, d) => t(Qi(q, d, q1), Dj(q, d, d1))
  }

  function ServedG(t: Table2, q1: nat, d1: nat): Table2 {
    (q, d) => t(Qk(q, d, q1), Dl(q, d, d1)) * Sign(q, d)
  }

  ghost predicate Agree(s: Table2, t: Table2, q1: nat, d1: nat, q: int, d: int) {
    && s(Qi(q, d, q1), Dj(q, d, d1)) == t(Qi(q, d, q1), Dj(q, d, d1))
    && s(Qk(q, d, q1), Dl(q, d, d1)) == t(Qk(q, d, q1), Dl(q, d, d1))
  }

  lemma {:induction false} RowAgrees(s: Table2, t: Table2, b: Table2, g: Table2, q1: nat, d1: nat, d: int, n: nat,
                                     p: int, c: int)
    requires Agree(s, t, q1, d1, p, c) || (c == d && 0 <= p < n)
    ensures Agree(AfterRow(s, b, g, q1, d1, d, n), AfterRow(t, b, g, q1, d1, d, n), q1, d1, p, c)
  {
    if n > 0 && !(c == d && p == n - 1) { RowAgrees(s, t, b, g, q1, d1, d, n - 1, p, c); }
  }

  /** A cell some write has reached no longer depends on what the array held before. */
  lemma {:induction false} LoadedAgrees(s: Table2, t: Table2, b: Table2, g: Table2, q1: nat, d1: nat, m: nat,
                                        p: int, c: int)
    requires 0 <= p < q1 && 0 <= c < m
    ensures Agree(AfterRows(s, b, g, q1, d1, m), AfterRows(t, b, g, q1, d1, m), q1, d1, p, c)
  {
    if c < m - 1 { LoadedAgrees(s, t, b, g, q1, d1, m - 1, p, c); }
    RowAgrees(AfterRows(s, b, g, q1, d1, m - 1), AfterRows(t, b, g, q1, d1, m - 1), b, g, q1, d1, m - 1, q1, p, c);
  }

  /** For any B and G the reads return the same whatever the array held before the load. */
  lemma ServedFresh(s: Table2, t: Table2, b: Table2, g: Table2, q1: nat, d1: nat, q: int, d: int)
    requires In(q, d, q1, d1)
    ensures ServedB(Loaded(s, b, g, q1, d1), q1, d1)(q, d) == ServedB(Loaded(t, b, g, q1, d1), q1, d1)(q, d)
    ensures ServedG(Loaded(s, b, g, q1, d1), q1, d1)(q, d) == ServedG(Loaded(t, b, g, q1, d1), q1, d1)(q, d)
  {
    LoadedAgrees(s, t, b, g, q1, d1, d1, q, d);
  }

  ghost predicate IsPacked(t: Table2, b: Table2, g: Table2, q1: nat, d1: nat) {
    forall i, j | In(i, j, q1, d1) :: t(i, j) == Packed(b, g)(i, j)
  }

  lemma {:induction false} RowStays(t: Table2, b: Table2, g: Table2, q1: nat, d1: nat, d: int, n: nat)
    requires q1 == d1 + 1 && Reflects(b, g, q1, d1) && IsPacked(t, b, g, q1, d1) && 0 <= d < d1 && n <= q1
    ensures IsPacked(AfterRow(t, b, g, q1, d1, d, n), b, g, q1, d1)
  {
    if n > 0 {
      RowStays(t, b, g, q1, d1, d, n - 1);
      WritesAgree(b, g, q1, d1, n - 1, d);
    }
  }

  lemma {:induction false} RowsStay(b: Table2, g: Table2, q1: nat, d1: nat, m: nat)
    requires q1 == d1 + 1 && Reflects(b, g, q1, d1) && m <= d1
    ensures IsPacked(AfterRows(Packed(b, g), b, g, q1, d1, m), b, g, q1, d1)
  {
    if m > 0 {
      RowsStay(b, g, q1, d1, m - 1);
      RowStays(AfterRows(Packed(b, g), b, g, q1, d1, m - 1), b, g, q1, d1, m - 1, q1);
    }
  }

  /**
   * With one more point than dofs, the loaded array returns b and g exactly when b is
   * symmetric and g antisymmetric under reflection.
   */
  lemma ServesGivenIff(t: Table2, b: Table2, g: Table2, q1: nat, d1: nat)
    requires q1 == d1 + 1
    ensures Reflects(b, g, q1, d1) <==> ReadsBack(Loaded(t, b, g, q1, d1), b, g, q1, d1)
  {
    ReadsBackIff(b, g, q1, d1);
    if Reflects(b, g, q1, d1) {
      var l := Loaded(t, b, g, q1, d1);
      RowsStay(b, g, q1, d1, d1);
      forall q, d | In(q, d, q1, d1)
        ensures l(Qi(q, d, q1), Dj(q, d, d1)) == b(q, d)
        ensures l(Qk(q, d, q1), Dl(q, d, d1)) * Sign(q, d) == g(q, d)
      {
        LoadedAgrees(t, Packed(b, g), b, g, q1, d1, d1, q, d);
        WritesAgree(b, g, q1, d1, q, d);
      }
    }
  }

  // ---- stores in any order, as the threads of a block make them -----------------

  /** One store of the load body, of thread (q, d). */
  datatype Store = StoreB(q: int, d: int) | StoreG(q: int, d: int) {

    predicate Valid(q1: nat, d1: nat) {
      In(q, d, q1, d1)
    }

    function Row(q1: nat): int {
      if StoreB? then Qi(q, d, q1) else Qk(q, d, q1)
    }

    function Column(d1: nat): int {
      if StoreB? then Dj(q, d, d1) else Dl(q, d, d1)
    }

    function Value(b: Table2, g: Table2): real {
      if StoreB? then b(q, d) else g(q, d) * Sign(q, d)
    }
  }

  function AfterStores(t: Table2, b: Table2, g: Table2, q1: nat, d1: nat, order: seq<Store>): Table2 {
    if order == [] then t
    else
      var before, last := AfterStores(t, b, g, q1, d1, order[..|order| - 1]), order[|order| - 1];
      (i, j) => if i == last.Row(q1) && j == last.Column(d1) then last.Value(b, g) else before(i, j)
  }

  /** With reflecting tables a store leaves its cell as every other store to it would. */
  lemma StoresAgree(b: Table2, g: Table2, q1: nat, d1: nat, s: Store)
    requires q1 == d1 + 1 && Reflects(b, g, q1, d1) && s.Valid(q1, d1)
    ensures s.Value(b, g) == Packed(b, g)(s.Row(q1), s.Column(d1))
  {
    WritesAgree(b, g, q1, d1, s.q, s.d);
  }

  /** Once a store is made its cell keeps the value, whatever stores follow. */
  lemma {:induction false} StoreLasts(t: Table2, b: Table2, g: Table2, q1: nat, d1: nat, order: seq<Store>, s: Store)
    requires q1 == d1 + 1 && Reflects(b, g, q1, d1) && s in order && forall r | r in order :: r.Valid(q1, d1)
    ensures AfterStores(t, b, g, q1, d1, order)(s.Row(q1), s.Column(d1)) == s.Value(b, g)
  {
    var rest, last := order[..|order| - 1], order[|order| - 1];
    assert order == rest + [last];
    StoresAgree(b, g, q1, d1, last);
    StoresAgree(b, g, q1, d1, s);
    if s in rest { StoreLasts(t, b, g, q1, d1, rest, s); }
  }

  /**
   * With one more point than dofs and reflecting tables, reads return b and g after the
   * stores in any order, with any repetitions, started from any contents: it is enough
   * that the reader's own pair has been stored.
   */
  lemma AnyOrder(t: Table2, b: Table2, g: Table2, q1: nat, d1: nat, order: seq<Store>, q: int, d: int)
    requires q1 == d1 + 1 && Reflects(b, g, q1, d1) && forall s | s in order :: s.Valid(q1, d1)
    requires StoreB(q, d) in order && StoreG(q, d) in order
    ensures ServedB(AfterStores(t, b, g, q1, d1, order), q1, d1)(q, d) == b(q, d)
    ensures ServedG(AfterStores(t, b, g, q1, d1, order), q1, d1)(q, d) == g(q, d)
  {
    StoreLasts(t, b, g, q1, d1, order, StoreB(q, d));
    StoreLasts(t, b, g, q1, d1, order, StoreG(q, d));
    SignTwice(g(q, d), q, d);
  }

  lemma SignTwice(v: real, q: int, d: int)
    ensures v * Sign(q, d) * Sign(q, d) == v
  {
  }

  function AllStores(q1: nat, d1: nat): (all: set<Store>)
    ensures forall s :: s in all <==> s.Valid(q1, d1)
  {
    (set q, d | 0 <= q < q1 && 0 <= d < d1 :: StoreB(q, d)) + (set q, d | 0 <= q < q1 && 0 <= d < d1 :: StoreG(q, d))
  }

  /** The tables served after a load, whatever the array held before it. */
  function SeenB(b: Table2, g: Table2, q1: nat, d1: nat): Table2 {
    ServedB(Loaded(Blank, b, g, q1, d1), q1, d1)
  }

  function SeenG(b: Table2, g: Table2, q1: nat, d1: nat): Table2 {
    ServedG(Loaded(Blank, b, g, q1, d1), q1, d1)
  }

  lemma ServedAt(t: Table2, b: Table2, g: Table2, q1: nat, d1: nat, q: int, d: int)
    requires ReadsBack(t, b, g, q1, d1) && In(q, d, q1, d1)
    ensures ServedB(t, q1, d1)(q, d) == b(q, d) && ServedG(t, q1, d1)(q, d) == g(q, d)
  {
  }

  function Blank(i: int, j: int): real {
    0.0
  }

  function Turned(m: Table2): Table2 {
    (d, q) => m(q, d)
  }

  /** Offset in sBG of cell (i, j) of B or G, and of Bt or Gt. */
  function Offset(i: int, j: int, q1: nat, d1: nat, turned: bool): int {
    if turned then Idx(0, j, i, d1, q1) else Idx(0, i, j, q1, d1)
  }

  lemma OffsetInjective(i: int, j: int, k: int, l: int, q1: nat, d1: nat, turned: bool)
    requires In(i, j, q1, d1) && In(k, l, q1, d1)
    ensures Offset(i, j, q1, d1, turned) == Offset(k, l, q1, d1, turned) <==> i == k && j == l
  {
    if Offset(i, j, q1, d1, turned) == Offset(k, l, q1, d1, turned) {
      if turned { IdxInjective(0, j, i, 0, l, k, 1, d1, q1); } else { IdxInjective(0, i, j, 0, k, l, 1, q1, d1); }
    }
  }

  ghost predicate OffsetsApart(q1: nat, d1: nat, turned: bool) {
    forall q, d, p, c | In(q, d, q1, d1) && In(p, c, q1, d1) ::
      Offset(Qi(q, d, q1), Dj(q, d, d1), q1, d1, turned) != Offset(Qk(p, c, q1), Dl(p, c, d1), q1, d1, turned)
  }

  /** In either layout B and G share no word of sBG exactly when Q = D + 1. */
  lemma OffsetsApartIff(q1: nat, d1: nat, turned: bool)
    requires q1 >= 1 && d1 >= 1
    ensures OffsetsApart(q1, d1, turned) <==> q1 == d1 + 1
  {
    CollisionFreeIff(q1, d1);
    forall q, d, p, c | In(q, d, q1, d1) && In(p, c, q1, d1)
      ensures Offset(Qi(q, d, q1), Dj(q, d, d1), q1, d1, turned) == Offset(Qk(p, c, q1), Dl(p, c, d1), q1, d1, turned)
         <==> Qi(q, d, q1) == Qk(p, c, q1) && Dj(q, d, d1) == Dl(p, c, d1)
    {
      OffsetInjective(Qi(q, d, q1), Dj(q, d, d1), Qk(p, c, q1), Dl(p, c, d1), q1, d1, turned);
    }
  }

  // ---- the array ---------------------------------------------------------------

  /** sBG seen as B and G, [q][d], or as Bt and Gt, [d][q]. */
  datatype Pair = Pair(buf: array<real>, q1: nat, d1: nat, turned: bool) {

    function Cells(): View {
      if turned then View(buf, 1, d1, q1) else View(buf, 1, q1, d1)
    }

    predicate Fits() {
      buf.Length == q1 * d1
    }

    lemma Covered()
      requires Fits()
      ensures Cells().Fits()
    {
      assert 1 * d1 * q1 == 1 * q1 * d1 == q1 * d1;
    }

    function Cell(i: int, j: int): real
      requires Fits() && In(i, j, q1, d1)
      reads buf
    {
      Covered();
      if turned then Cells().Load(0, j, i) else Cells().Load(0, i, j)
    }

    method Set(i: int, j: int, v: real)
      requires Fits() && In(i, j, q1, d1)
      modifies buf
      ensures Cell(i, j) == v
      ensures forall p, c | In(p, c, q1, d1) && (p != i || c != j) :: Cell(p, c) == old(Cell(p, c))
    {
      Covered();
      if turned {
        Cells().Store(0, j, i, v);
      } else {
        Cells().Store(0, i, j, v);
      }
    }

    ghost predicate Shows(t: Table2)
      requires Fits()
      reads buf
    {
      forall i, j {:trigger Cell(i, j)} | In(i, j, q1, d1) :: Cell(i, j) == t(i, j)
    }

    /** What the array holds, whatever it is. */
    ghost function Now(): (t: Table2)
      requires Fits()
      reads buf
      ensures Shows(t)
    {
      Covered();
      var c, turned := Contents(Cells()), turned;
      var t: Table2 := (i, j) => if turned then c(0, j, i) else c(0, i, j);
      t
    }

    /** Stages 2 and 6: all pairs (d, q) in loop order, whatever the array held before. */
    method LoadBoth(b: array<real>, g: array<real>, ghost t: Table2)
      requires Fits() && b.Length == g.Length == d1 * q1 && buf != b && buf != g && Shows(t)
      modifies buf
      ensures Shows(Loaded(t, Basis(b[..], q1), Basis(g[..], q1), q1, d1))
    {
      ghost var bs, gs := Basis(b[..], q1), Basis(g[..], q1);
      for d := 0 to d1
        invariant Shows(AfterRows(t, bs, gs, q1, d1, d))
      {
        ghost var start := AfterRows(t, bs, gs, q1, d1, d);
        for q := 0 to q1
          invariant Shows(AfterRow(start, bs, gs, q1, d1, d, q))
        {
          LoadOne(b, g, q, d, AfterRow(start, bs, gs, q1, d1, d, q));
        }
      }
    }

    method LoadOne(b: array<real>, g: array<real>, q: nat, d: nat, ghost t: Table2)
      requires Fits() && b.Length == g.Length == d1 * q1 && buf != b && buf != g && In(q, d, q1, d1) && Shows(t)
      modifies buf
      ensures Shows(Write(t, Basis(b[..], q1), Basis(g[..], q1), q1, d1, q, d))
    {
      BasisLoads(b, d1, q1);
      BasisLoads(g, d1, q1);
      var i, j, k, l := Qi(q, d, q1), Dj(q, d, d1), Qk(q, d, q1), Dl(q, d, d1);
      Set(i, j, View(b, 1, d1, q1).Load(0, d, q));
      Set(k, l, View(g, 1, d1, q1).Load(0, d, q) * Sign(q, d));
    }

    /** The stores that are no longer to do stand in their cells. */
    ghost predicate Stored(b: Table2, g: Table2, todo: set<Store>)
      requires Fits()
      reads buf
    {
      forall s: Store | s.Valid(q1, d1) && s !in todo :: Cell(s.Row(q1), s.Column(d1)) == s.Value(b, g)
    }

    /** The same load by a thread block: the stores come in any order. */
    method LoadInAnyOrder(b: array<real>, g: array<real>)
      requires Fits() && b.Length == g.Length == d1 * q1 && buf != b && buf != g
      requires q1 == d1 + 1 && Reflects(Basis(b[..], q1), Basis(g[..], q1), q1, d1)
      modifies buf
      ensures if turned then Serves(Turned(Basis(b[..], q1)), Turned(Basis(g[..], q1)))
              else Serves(Basis(b[..], q1), Basis(g[..], q1))
    {
      ghost var bs, gs := Basis(b[..], q1), Basis(g[..], q1);
      var todo := AllStores(q1, d1);
      while todo != {}
        invariant todo <= AllStores(q1, d1) && Stored(bs, gs, todo)
        decreases todo
      {
        var s :| s in todo;
        StoreOne(b, g, s, bs, gs, todo);
        todo := todo - {s};
      }
      AllStored(bs, gs);
    }

    method StoreOne(b: array<real>, g: array<real>, s: Store, ghost bs: Table2, ghost gs: Table2,
                    ghost todo: set<Store>)
      requires Fits() && b.Length == g.Length == d1 * q1 && buf != b && buf != g && s.Valid(q1, d1)
      requires bs == Basis(b[..], q1) && gs == Basis(g[..], q1) && q1 == d1 + 1 && Reflects(bs, gs, q1, d1)
      requires Stored(bs, gs, todo)
      modifies buf
      ensures Stored(bs, gs, todo - {s})
    {
      BasisLoads(b, d1, q1);
      BasisLoads(g, d1, q1);
      var v := View(if s.StoreB? then b else g, 1, d1, q1).Load(0, s.d, s.q);
      if s.StoreG? {
        v := v * Sign(s.q, s.d);
      }
      Set(s.Row(q1), s.Column(d1), v);
      StoresAgree(bs, gs, q1, d1, s);
      forall r: Store | r.Valid(q1, d1) && r !in todo - {s}
        ensures Cell(r.Row(q1), r.Column(d1)) == r.Value(bs, gs)
      {
        StoresAgree(bs, gs, q1, d1, r);
      }
    }

    lemma AllStored(b: Table2, g: Table2)
      requires Fits() && Stored(b, g, {})
      ensures if turned then Serves(Turned(b), Turned(g)) else Serves(b, g)
    {
      forall o, k | Has(o, k)
        ensures var (q, d) := if turned then (k, o) else (o, k);
                ReadB(o, k) == b(q, d) && ReadG(o, k) * SignOf(o, k) == g(q, d)
      {
        var (q, d) := if turned then (k, o) else (o, k);
        assert StoreB(q, d).Valid(q1, d1) && StoreG(q, d).Valid(q1, d1);
        SignTwice(g(q, d), q, d);
      }
    }

    /** Outputs and summation indices of a contraction with these coefficients. */
    function Outs(): nat {
      if turned then d1 else q1
    }

    function Ins(): nat {
      if turned then q1 else d1
    }

    /** Entry (o, k) of the coefficients, o an output and k a summation index. */
    predicate Has(o: int, k: int) {
      if turned then In(k, o, q1, d1) else In(o, k, q1, d1)
    }

    function ReadB(o: int, k: int): real
      requires Fits() && Has(o, k)
      reads buf
    {
      var (q, d) := if turned then (k, o) else (o, k);
      Cell(Qi(q, d, q1), Dj(q, d, d1))
    }

    function ReadG(o: int, k: int): real
      requires Fits() && Has(o, k)
      reads buf
    {
      var (q, d) := if turned then (k, o) else (o, k);
      Cell(Qk(q, d, q1), Dl(q, d, d1))
    }

    function SignOf(o: int, k: int): real {
      if turned then Sign(k, o) else Sign(o, k)
    }

    ghost predicate Serves(b: Table2, g: Table2)
      requires Fits()
      reads buf
    {
      forall o, k {:trigger ReadB(o, k)} {:trigger ReadG(o, k)} | Has(o, k) ::
            ReadB(o, k) == b(o, k) && ReadG(o, k) * SignOf(o, k) == g(o, k)
    }

    /** The tables that reads return after a load of b and g, outputs first. */
    ghost function TableB(b: Table2, g: Table2): Table2 {
      if turned then Turned(SeenB(b, g, q1, d1)) else SeenB(b, g, q1, d1)
    }

    ghost function TableG(b: Table2, g: Table2): Table2 {
      if turned then Turned(SeenG(b, g, q1, d1)) else SeenG(b, g, q1, d1)
    }

    /** The loads make every later read return the tables seen, for any B and G. */
    method Load(b: array<real>, g: array<real>)
      requires Fits() && b.Length == g.Length == d1 * q1 && buf != b && buf != g
      modifies buf
      ensures Serves(TableB(Basis(b[..], q1), Basis(g[..], q1)), TableG(Basis(b[..], q1), Basis(g[..], q1)))
    {
      ghost var t := Now();
      LoadBoth(b, g, t);
      AllSeen(Basis(b[..], q1), Basis(g[..], q1), t);
    }

    lemma AllSeen(b: Table2, g: Table2, t: Table2)
      requires Fits() && Shows(Loaded(t, b, g, q1, d1))
      ensures Serves(TableB(b, g), TableG(b, g))
    {
      forall o, k | Has(o, k)
        ensures ReadB(o, k) == TableB(b, g)(o, k) && ReadG(o, k) * SignOf(o, k) == TableG(b, g)(o, k)
      {
        EntrySeen(b, g, t, o, k);
      }
    }

    lemma EntrySeen(b: Table2, g: Table2, t: Table2, o: int, k: int)
      requires Fits() && Shows(Loaded(t, b, g, q1, d1)) && Has(o, k)
      ensures ReadB(o, k) == TableB(b, g)(o, k) && ReadG(o, k) * SignOf(o, k) == TableG(b, g)(o, k)
    {
      if turned { CellSeen(b, g, t, k, o); } else { CellSeen(b, g, t, o, k); }
    }

    lemma CellSeen(b: Table2, g: Table2, t: Table2, q: int, d: int)
      requires Fits() && Shows(Loaded(t, b, g, q1, d1)) && In(q, d, q1, d1)
      ensures Cell(Qi(q, d, q1), Dj(q, d, d1)) == SeenB(b, g, q1, d1)(q, d)
      ensures Cell(Qk(q, d, q1), Dl(q, d, d1)) * Sign(q, d) == SeenG(b, g, q1, d1)(q, d)
    {
      ServedFresh(t, Blank, b, g, q1, d1, q, d);
      assert Cell(Qi(q, d, q1), Dj(q, d, d1)) == ServedB(Loaded(t, b, g, q1, d1), q1, d1)(q, d);
      assert Cell(Qk(q, d, q1), Dl(q, d, d1)) * Sign(q, d) == ServedG(Loaded(t, b, g, q1, d1), q1, d1)(q, d);
    }
  }
}
