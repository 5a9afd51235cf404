/** MASS3DEA as it runs: tables copied to scratch, then six loops over the entries. */
module MassAssembly {
  import opened Arith
  import opened Sums
  import opened Buffer
  import opened Elements
  import opened Mass
  import opened MassMatrix

  /** A dof or a quadrature point: x is the first, fastest index. */
  datatype Point = Point(x: nat, y: nat, z: nat) {
    predicate In(n: nat) { x < n && y < n && z < n }

    /** A nest with x outermost has passed this point when it stands at p. */
    predicate Passed(p: Point) { Before(x, y, z, p.x, p.y, p.z) }
  }

  /** The plane, seen as a cube of rows i2 and columns i1, in which entry (i, j) of element e stands. */
  function Slot(n: nat, e: nat, i: Point, j: Point): int {
    Idx(e * n + j.z, j.y, j.x, n, n) * n + i.z
  }

  lemma SlotInRange(n: nat, ne: nat, e: nat, i: Point, j: Point)
    requires i.In(n) && j.In(n) && e < ne
    ensures 0 <= Slot(n, e, i, j) < ne * n * n * n * n
  {
    ElementInside(e, ne, n, j.z);
    IdxInRange(e * n + j.z, j.y, j.x, ne * n, n, n);
    ElementInside(Idx(e * n + j.z, j.y, j.x, n, n), ne * n * n * n, n, i.z);
  }

  lemma SlotInjective(n: nat, ne: nat, e: nat, i: Point, j: Point, e': nat, i': Point, j': Point)
    requires i.In(n) && j.In(n) && e < ne && i'.In(n) && j'.In(n) && e' < ne
    requires Slot(n, e, i, j) == Slot(n, e', i', j')
    ensures e == e' && i.z == i'.z && j == j'
  {
    ElementInside(e, ne, n, j.z);
    ElementInside(e', ne, n, j'.z);
    IdxInRange(e * n + j.z, j.y, j.x, ne * n, n, n);
    IdxInRange(e' * n + j'.z, j'.y, j'.x, ne * n, n, n);
    DivMod(Idx(e * n + j.z, j.y, j.x, n, n), i.z, n);
    DivMod(Idx(e' * n + j'.z, j'.y, j'.x, n, n), i'.z, n);
    IdxInjective(e * n + j.z, j.y, j.x, e' * n + j'.z, j'.y, j'.x, ne * n, n, n);
    DivMod(e, j.z, n);
    DivMod(e', j'.z, n);
  }

  /** The index map M_. */
  function Offset(n: nat, e: nat, i: Point, j: Point): int {
    i.x + n * (i.y + n * (i.z + n * (j.x + n * (j.y + n * (j.z + n * e)))))
  }

  lemma OffsetIsIdx(n: nat, e: nat, i: Point, j: Point)
    ensures Offset(n, e, i, j) == Idx(Slot(n, e, i, j), i.y, i.x, n, n)
  {
    var plane := e * n + j.z;
    assert j.z + n * e == plane;
    assert j.y + n * plane == plane * n + j.y;
    var cell := Idx(plane, j.y, j.x, n, n);
    assert j.x + n * (plane * n + j.y) == cell;
    assert i.z + n * cell == Slot(n, e, i, j);
    assert i.y + n * Slot(n, e, i, j) == Slot(n, e, i, j) * n + i.y;
  }

  /** The index map gives every entry of every element a word of its own, within the array. */
  lemma OffsetInjective(n: nat, ne: nat, e: nat, i: Point, j: Point, e': nat, i': Point, j': Point)
    requires i.In(n) && j.In(n) && e < ne && i'.In(n) && j'.In(n) && e' < ne
    ensures 0 <= Offset(n, e, i, j) < ne * n * n * n * n * n * n
    ensures Offset(n, e, i, j) == Offset(n, e', i', j') ==> e == e' && i == i' && j == j'
  {
    var planes := ne * n * n * n * n;
    SlotInRange(n, ne, e, i, j);
    SlotInRange(n, ne, e', i', j');
    OffsetIsIdx(n, e, i, j);
    OffsetIsIdx(n, e', i', j');
    IdxInRange(Slot(n, e, i, j), i.y, i.x, planes, n, n);
    if Offset(n, e, i, j) == Offset(n, e', i', j') {
      IdxInjective(Slot(n, e, i, j), i.y, i.x, Slot(n, e', i', j'), i'.y, i'.x, planes, n, n);
      SlotInjective(n, ne, e, i, j, e', i', j');
    }
  }

  /** The matrices of all elements. */
  datatype Matrices = Matrices(buf: array<real>, n: nat, ne: nat) {
    predicate Fits() { View(buf, ne * n * n * n * n, n, n).Fits() }

    function Get(e: nat, i: Point, j: Point): real
      requires Fits() && e < ne && i.In(n) && j.In(n)
      reads buf
    {
      SlotInRange(n, ne, e, i, j);
      View(buf, ne * n * n * n * n, n, n).Load(Slot(n, e, i, j), i.y, i.x)
    }

    method Put(e: nat, i: Point, j: Point, v: real)
      requires Fits() && e < ne && i.In(n) && j.In(n)
      modifies buf
      ensures Get(e, i, j) == v
      ensures forall e': nat, i': Point, j': Point
                | e' < ne && i'.In(n) && j'.In(n) && (e' != e || i' != i || j' != j) ::
                Get(e', i', j') == old(Get(e', i', j'))
    {
      SlotInRange(n, ne, e, i, j);
      forall e': nat, i': Point, j': Point | e' < ne && i'.In(n) && j'.In(n) && (e' != e || i' != i || j' != j)
        ensures 0 <= Slot(n, e', i', j') < ne * n * n * n * n
        ensures Slot(n, e', i', j') != Slot(n, e, i, j) || i'.y != i.y || i'.x != i.x
      {
        SlotInRange(n, ne, e', i', j');
        if Slot(n, e', i', j') == Slot(n, e, i, j) { SlotInjective(n, ne, e', i', j', e, i, j); }
      }
      View(buf, ne * n * n * n * n, n, n).Store(Slot(n, e, i, j), i.y, i.x, v);
    }
  }

  /** Where the flat array holds entry (i, j) of element e, with the first index of i fastest. */
  lemma MatrixEntry(m: Matrices, e: nat, i: Point, j: Point)
    requires m.Fits() && e < m.ne && i.In(m.n) && j.In(m.n)
    ensures var p := i.x + m.n * (i.y + m.n * (i.z + m.n * (j.x + m.n * (j.y + m.n * (j.z + m.n * e)))));
            0 <= p < m.buf.Length && m.Get(e, i, j) == m.buf[p]
  {
    SlotInRange(m.n, m.ne, e, i, j);
    OffsetIsIdx(m.n, e, i, j);
    IdxInRange(Slot(m.n, e, i, j), i.y, i.x, m.ne * m.n * m.n * m.n * m.n, m.n, m.n);
  }

  /** M(i, j) of an element with quadrature data d. */
  function EntryAt(q1: nat, b: Table2, d: Table3, i: Point, j: Point): real {
    Entry(q1, b, d, i.z, i.y, i.x, j.z, j.y, j.x)
  }

  /** The entry in terms of the stored data: point (k1, k2, k3) of element e is in plane e*Q + k3. */
  lemma EntryStored(q1: nat, b: Table2, d: Table3, e: nat, i: Point, j: Point)
    ensures EntryAt(q1, b, Element(d, e, q1), i, j) ==
            Sum3(q1, q1, q1, (k1, k2, k3) =>
              b(k1, i.x) * b(k2, i.y) * b(k3, i.z) * d(e * q1 + k3, k2, k1) * (b(k1, j.x) * b(k2, j.y) * b(k3, j.z)))
  {
    var f: Table3 := (k1, k2, k3) =>
      b(k1, i.x) * b(k2, i.y) * b(k3, i.z) * d(e * q1 + k3, k2, k1) * (b(k1, j.x) * b(k2, j.y) * b(k3, j.z));
    var g := EntryTerms(b, Element(d, e, q1), i.z, i.y, i.x, j.z, j.y, j.x);
    forall k1, k2, k3 ensures g(k1, k2, k3) == f(k1, k2, k3) {
      Factors(b(k1, i.x), b(k1, j.x), b(k2, i.y), b(k2, j.y), b(k3, i.z), b(k3, j.z), d(e * q1 + k3, k2, k1));
    }
    Sum3Ext(q1, q1, q1, g, f);
  }

  lemma Factors(a: real, a': real, b: real, b': real, c: real, c': real, d: real)
    ensures a * a' * b * b' * c * c' * d == a * b * c * d * (a' * b' * c')
  {
    Swapped(a, a', b, b', c, c', d);
    assert c * b * a == a * b * c && c' * b' * a' == a' * b' * c';
  }

  function TermsAt(b: Table2, d: Table3, i: Point, j: Point): Table3 {
    EntryTerms(b, d, i.z, i.y, i.x, j.z, j.y, j.x)
  }

  method Term(sb: View, sd: View, i: Point, j: Point, k1: nat, k2: nat, k3: nat, ghost b: Table2, ghost d: Table3)
    returns (v: real)
    requires sb.Fits() && sd.Fits() && sb.HoldsRows(b) && sd.Holds(Flip(d)) && i.In(sb.nx) && j.In(sb.nx)
    requires sd.nz == sd.ny == sd.nx == sb.ny && k1 < sb.ny && k2 < sb.ny && k3 < sb.ny
    ensures v == TermsAt(b, d, i, j)(k1, k2, k3)
  {
    var b0 := sb.ReadRow(k1, i.x, b);
    var b1 := sb.ReadRow(k1, j.x, b);
    var b2 := sb.ReadRow(k2, i.y, b);
    var b3 := sb.ReadRow(k2, j.y, b);
    var b4 := sb.ReadRow(k3, i.z, b);
    var b5 := sb.ReadRow(k3, j.z, b);
    var dq := sd.Read(k1, k2, k3, Flip(d));
    v := Multiply(b0, b1, b2, b3, b4, b5, dq, b(k1, i.x), b(k1, j.x), b(k2, i.y), b(k2, j.y), b(k3, i.z), b(k3, j.z),
                  d(k3, k2, k1));
  }

  /** The seven factors of a term, each with what it stands for. */
  method Multiply(b0: real, b1: real, b2: real, b3: real, b4: real, b5: real, d: real, ghost c0: real, ghost c1: real,
                  ghost c2: real, ghost c3: real, ghost c4: real, ghost c5: real, ghost c6: real)
    returns (v: real)
    requires b0 == c0 && b1 == c1 && b2 == c2 && b3 == c3 && b4 == c4 && b5 == c5 && d == c6
    ensures v == c0 * c1 * c2 * c3 * c4 * c5 * c6
  {
    v := b0 * b1 * b2 * b3 * b4 * b5 * d;
  }

  ghost predicate Ready(sb: View, sd: View, i: Point, j: Point, b: Table2, d: Table3)
    reads sb.buf, sd.buf
  {
    && sb.Fits() && sd.Fits() && sb.HoldsRows(b) && sd.Holds(Flip(d)) && i.In(sb.nx) && j.In(sb.nx)
    && sd.nz == sd.ny == sd.nx == sb.ny
  }

  // The three quadrature loops of one entry; `start` is val on entry to the loop.

  method InnerLoop(sb: View, sd: View, i: Point, j: Point, k1: nat, k2: nat, start: real, ghost b: Table2,
                   ghost d: Table3)
    returns (val: real)
    requires Ready(sb, sd, i, j, b, d) && k1 < sb.ny && k2 < sb.ny
    ensures val == start + Row(sb.ny, TermsAt(b, d, i, j), k1, k2)
  {
    ghost var terms := TermsAt(b, d, i, j);
    ghost var cell := (x: int) => terms(k1, k2, x);
    val := start;
    for k3 := 0 to sb.ny
      invariant val == start + Sum(k3, cell)
    {
      var v := Term(sb, sd, i, j, k1, k2, k3, b, d);
      val := val + v;
    }
  }

  method MiddleLoop(sb: View, sd: View, i: Point, j: Point, k1: nat, start: real, ghost b: Table2, ghost d: Table3)
    returns (val: real)
    requires Ready(sb, sd, i, j, b, d) && k1 < sb.ny
    ensures val == start + Plane(sb.ny, sb.ny, TermsAt(b, d, i, j), k1)
  {
    ghost var rows := PlaneRows(sb.ny, TermsAt(b, d, i, j), k1);
    val := start;
    for k2 := 0 to sb.ny
      invariant val == start + Sum(k2, rows)
    {
      val := InnerLoop(sb, sd, i, j, k1, k2, val, b, d);
      assert rows(k2) == Row(sb.ny, TermsAt(b, d, i, j), k1, k2);
    }
    PlaneOfRows(sb.ny, TermsAt(b, d, i, j), k1);
  }

  /** The rows of a plane of terms, added up one by one. */
  function PlaneRows(n: nat, terms: Table3, z: int): int -> real {
    (y: int) => Row(n, terms, z, y)
  }

  lemma PlaneOfRows(n: nat, terms: Table3, z: int)
    ensures Sum(n, PlaneRows(n, terms, z)) == Plane(n, n, terms, z)
  {
    var nx := n;
    SumExt(n, PlaneRows(n, terms, z), (y: int) => Row(nx, terms, z, y));
  }

  method EntryLoop(sb: View, sd: View, i: Point, j: Point, ghost b: Table2, ghost d: Table3) returns (val: real)
    requires Ready(sb, sd, i, j, b, d)
    ensures val == EntryAt(sb.ny, b, d, i, j)
  {
    ghost var ny, nx, terms := sb.ny, sb.ny, TermsAt(b, d, i, j);
    ghost var plane := (z: int) => Plane(ny, nx, terms, z);
    val := 0.0;
    for k1 := 0 to sb.ny
      invariant val == Sum(k1, plane)
    {
      val := MiddleLoop(sb, sd, i, j, k1, val, b, d);
    }
  }

  /** Entries of element e the loops have passed: rows before i, and in row i the columns before j. */
  ghost predicate Assembled(m: Matrices, q1: nat, e: nat, i: Point, j: Point, b: Table2, d: Table3)
    requires m.Fits() && e < m.ne
    reads m.buf
  {
    forall r: Point, c: Point | r.In(m.n) && c.In(m.n) && (r.Passed(i) || (r == i && c.Passed(j))) ::
          m.Get(e, r, c) == EntryAt(q1, b, d, r, c)
  }

  ghost predicate OthersKept(m: Matrices, e: nat, before: (nat, Point, Point) -> real)
    requires m.Fits()
    reads m.buf
  {
    forall e': nat, r: Point, c: Point | e' < m.ne && e' != e && r.In(m.n) && c.In(m.n) ::
          m.Get(e', r, c) == before(e', r, c)
  }

  /** Storing one entry advances the column loop by one. */
  method PutEntry(m: Matrices, ghost q1: nat, e: nat, i: Point, j: Point, val: real, ghost b: Table2, ghost d: Table3,
                  ghost before: (nat, Point, Point) -> real)
    requires m.Fits() && e < m.ne && i.In(m.n) && j.In(m.n) && val == EntryAt(q1, b, d, i, j)
    requires Assembled(m, q1, e, i, j, b, d) && OthersKept(m, e, before)
    modifies m.buf
    ensures Assembled(m, q1, e, i, Point(j.x, j.y, j.z + 1), b, d) && OthersKept(m, e, before)
  {
    m.Put(e, i, j, val);
    forall r: Point, c: Point | r.In(m.n) && c.In(m.n)
        && (r.Passed(i) || (r == i && c.Passed(Point(j.x, j.y, j.z + 1))))
      ensures m.Get(e, r, c) == EntryAt(q1, b, d, r, c)
    {
      NextPassed(r, c, i, j);
    }
  }

  lemma NextPassed(r: Point, c: Point, i: Point, j: Point)
    requires r.Passed(i) || (r == i && c.Passed(Point(j.x, j.y, j.z + 1)))
    ensures (r == i && c == j) || r.Passed(i) || (r == i && c.Passed(j))
  {
  }

  /** MASS3DEA_4: the loops over j for one i. */
  method RowLoop(m: Matrices, sb: View, sd: View, e: nat, i: Point, ghost b: Table2, ghost d: Table3,
                 ghost before: (nat, Point, Point) -> real)
    requires m.Fits() && e < m.ne && m.buf != sb.buf && m.buf != sd.buf && sb.nx == m.n && i.In(m.n)
    requires sb.Fits() && sd.Fits() && sb.HoldsRows(b) && sd.Holds(Flip(d)) && sd.nz == sd.ny == sd.nx == sb.ny
    requires Assembled(m, sb.ny, e, i, Point(0, 0, 0), b, d) && OthersKept(m, e, before)
    modifies m.buf
    ensures Assembled(m, sb.ny, e, i, Point(m.n, 0, 0), b, d) && OthersKept(m, e, before)
  {
    for j1 := 0 to m.n
      invariant Assembled(m, sb.ny, e, i, Point(j1, 0, 0), b, d) && OthersKept(m, e, before)
    {
      for j2 := 0 to m.n
        invariant Assembled(m, sb.ny, e, i, Point(j1, j2, 0), b, d) && OthersKept(m, e, before)
      {
        for j3 := 0 to m.n
          invariant Assembled(m, sb.ny, e, i, Point(j1, j2, j3), b, d) && OthersKept(m, e, before)
        {
          var val := EntryLoop(sb, sd, i, Point(j1, j2, j3), b, d);
          PutEntry(m, sb.ny, e, i, Point(j1, j2, j3), val, b, d, before);
        }
      }
    }
  }

  /** The loops over i. */
  method AllRows(m: Matrices, sb: View, sd: View, e: nat, ghost b: Table2, ghost d: Table3,
                 ghost before: (nat, Point, Point) -> real)
    requires m.Fits() && e < m.ne && m.buf != sb.buf && m.buf != sd.buf && sb.nx == m.n
    requires sb.Fits() && sd.Fits() && sb.HoldsRows(b) && sd.Holds(Flip(d)) && sd.nz == sd.ny == sd.nx == sb.ny
    requires OthersKept(m, e, before)
    modifies m.buf
    ensures Assembled(m, sb.ny, e, Point(m.n, 0, 0), Point(0, 0, 0), b, d) && OthersKept(m, e, before)
  {
    for i1 := 0 to m.n
      invariant Assembled(m, sb.ny, e, Point(i1, 0, 0), Point(0, 0, 0), b, d) && OthersKept(m, e, before)
    {
      for i2 := 0 to m.n
        invariant Assembled(m, sb.ny, e, Point(i1, i2, 0), Point(0, 0, 0), b, d) && OthersKept(m, e, before)
      {
        for i3 := 0 to m.n
          invariant Assembled(m, sb.ny, e, Point(i1, i2, i3), Point(0, 0, 0), b, d) && OthersKept(m, e, before)
        {
          RowLoop(m, sb, sd, e, Point(i1, i2, i3), b, d, before);
        }
      }
    }
  }

  /** Stages 1 and 3: B by rows, and the element's quadrature data. */
  method LoadTables(b: array<real>, d: View, e: nat, ne: nat, sb: View, sd: View, ghost dg: Table3)
    requires sb.Fits() && sd.Fits() && d.Fits() && sb.nz == 1 && b.Length == sb.nx * sb.ny && d.Holds(dg) && e < ne
    requires sd.nz == sd.ny == sd.nx == d.ny == d.nx == sb.ny && d.nz == ne * sb.ny
    requires sb.buf != sd.buf && b !in {sb.buf, sd.buf} && d.buf !in {sb.buf, sd.buf}
    modifies sb.buf, sd.buf
    ensures sb.HoldsRows(Basis(b[..], sb.ny)) && sd.Holds(Flip(Element(dg, e, sb.ny)))
  {
    BasisLoads(b, sb.nx, sb.ny);
    var bs := View(b, 1, sb.nx, sb.ny);
    for c := 0 to sb.nx
      invariant forall q, k | sb.Has(0, q, k) && k < c :: sb.Load(0, q, k) == BasisAt(b[..], sb.ny, q, k)
    {
      for q := 0 to sb.ny
        invariant forall p, k | sb.Has(0, p, k) && (k < c || (k == c && p < q)) ::
                    sb.Load(0, p, k) == BasisAt(b[..], sb.ny, p, k)
      {
        BasisLoads(b, sb.nx, sb.ny);
        sb.Store(0, q, c, bs.Load(0, c, q));
      }
    }
    LoadWeights(d, e, ne, sd, dg);
  }

  method LoadWeights(d: View, e: nat, ne: nat, sd: View, ghost dg: Table3)
    requires sd.Fits() && d.Fits() && d.Holds(dg) && e < ne
    requires sd.nz == sd.ny == sd.nx == d.ny == d.nx && d.nz == ne * sd.nz && d.buf != sd.buf
    modifies sd.buf
    ensures sd.Holds(Flip(Element(dg, e, sd.nz)))
  {
    ghost var r := Flip(Element(dg, e, sd.nz));
    for k1 := 0 to sd.nz
      invariant sd.Partly(r, k1, 0, 0)
    {
      for k2 := 0 to sd.nz
        invariant sd.Partly(r, k1, k2, 0)
      {
        for k3 := 0 to sd.nz
          invariant sd.Partly(r, k1, k2, k3)
        {
          ElementInside(e, ne, sd.nz, k3);
          sd.Store(k1, k2, k3, d.Load(e * sd.nz + k3, k2, k1));
        }
      }
    }
  }

  /** Every element's matrix is the assembled one. */
  method Assemble(b: array<real>, d: View, m: Matrices, q1: nat, ghost dg: Table3)
    requires m.Fits() && d.Fits() && b.Length == m.n * q1 && d.Holds(dg) && m.buf !in {b, d.buf}
    requires d.nz == m.ne * q1 && d.ny == d.nx == q1
    modifies m.buf
    ensures forall e: nat, i: Point, j: Point | e < m.ne && i.In(m.n) && j.In(m.n) ::
              m.Get(e, i, j) == EntryAt(q1, Basis(b[..], q1), Element(dg, e, q1), i, j)
  {
    ghost var c := Basis(b[..], q1);
    for e := 0 to m.ne
      invariant forall f: nat, i: Point, j: Point | f < e && i.In(m.n) && j.In(m.n) ::
                  m.Get(f, i, j) == EntryAt(q1, c, Element(dg, f, q1), i, j)
    {
      var s_B := new real[q1 * m.n];
      var s_D := new real[q1 * q1 * q1];
      assert 1 * q1 * m.n == q1 * m.n == m.n * q1;
      var sb, sd := View(s_B, 1, q1, m.n), View(s_D, q1, q1, q1);
      LoadTables(b, d, e, m.ne, sb, sd, dg);
      ghost var before := MatricesNow(m);
      AllRows(m, sb, sd, e, c, Element(dg, e, q1), before);
    }
  }

  ghost function MatricesNow(m: Matrices): (f: (nat, Point, Point) -> real)
    requires m.Fits()
    reads m.buf
    ensures forall e: nat, i: Point, j: Point | e < m.ne && i.In(m.n) && j.In(m.n) :: f(e, i, j) == m.Get(e, i, j)
  {
    var s, n, ne := m.buf[..], m.n, m.ne;
    var f := (e: nat, i: Point, j: Point) =>
      if 0 <= Idx(Slot(n, e, i, j), i.y, i.x, n, n) < |s| then s[Idx(Slot(n, e, i, j), i.y, i.x, n, n)] else 0.0;
    assert forall e: nat, i: Point, j: Point | e < m.ne && i.In(m.n) && j.In(m.n) :: f(e, i, j) == m.Get(e, i, j) by {
      forall e: nat, i: Point, j: Point | e < ne && i.In(n) && j.In(n) ensures f(e, i, j) == m.Get(e, i, j) {
        SlotInRange(n, ne, e, i, j);
        IdxInRange(Slot(n, e, i, j), i.y, i.x, ne * n * n * n * n, n, n);
      }
    }
    f
  }
}
