/** What DIFFUSION3DPA computes: the direct sum over quadrature points, and its symmetry. */
module DiffusionOperator {
  import opened RealArith
  import opened Diffusion
  import opened Elements
  import opened MassMatrix
  import opened PackedTables
  import opened Packing
  import opened Sums

  /** The one-dimensional table of derivative direction c along one axis (x = 0, y = 1, z = 2). */
  function Axis(b: Table2, g: Table2, c: nat, axis: nat): Table2 {
    if c == axis then g else b
  }

  /** Derivative c of the dof table x at the quadrature points, as one triple sum. */
  function Derivative(d1: nat, b: Table2, g: Table2, c: nat, x: Table3): Table3 {
    Tensor(d1, d1, d1, Axis(b, g, c, 2), Axis(b, g, c, 1), Axis(b, g, c, 0), x)
  }

  /** (D grad x) in component r at a quadrature point. */
  function FluxAt(d1: nat, b: Table2, g: Table2, o: (nat, nat) -> Table3, x: Table3, r: nat): Table3 {
    (z, y, w) =>
      Combined(o(r, 0)(z, y, w), o(r, 1)(z, y, w), o(r, 2)(z, y, w), Derivative(d1, b, g, 0, x)(z, y, w),
               Derivative(d1, b, g, 1, x)(z, y, w), Derivative(d1, b, g, 2, x)(z, y, w))
  }

  /** The direct sum over quadrature points of (grad phi_i)^T D (grad x), r-th component. */
  function DirectPart(d1: nat, q1: nat, b: Table2, g: Table2, o: (nat, nat) -> Table3, x: Table3, r: nat): Table3 {
    Tensor(q1, q1, q1, Turned(Axis(b, g, r, 2)), Turned(Axis(b, g, r, 1)), Turned(Axis(b, g, r, 0)),
           FluxAt(d1, b, g, o, x, r))
  }

  function Direct(d1: nat, q1: nat, b: Table2, g: Table2, o: (nat, nat) -> Table3, x: Table3): Table3 {
    (z, y, w) =>
      DirectPart(d1, q1, b, g, o, x, 0)(z, y, w) + DirectPart(d1, q1, b, g, o, x, 1)(z, y, w)
          + DirectPart(d1, q1, b, g, o, x, 2)(z, y, w)
  }

  lemma GradientIsDerivative(d1: nat, x: Table3, b: Table2, g: Table2, qz: int, qy: int, qx: int)
    ensures var f := Gradient(d1, x, b, g);
            && f.f0(qz, qy, qx) == Derivative(d1, b, g, 0, x)(qz, qy, qx)
            && f.f1(qz, qy, qx) == Derivative(d1, b, g, 1, x)(qz, qy, qx)
            && f.f2(qz, qy, qx) == Derivative(d1, b, g, 2, x)(qz, qy, qx)
  {
    FactorXYZ(d1, d1, d1, b, b, g, x, qz, qy, qx);
    FactorXYZ(d1, d1, d1, b, g, b, x, qz, qy, qx);
    FactorXYZ(d1, d1, d1, g, b, b, x, qz, qy, qx);
  }

  lemma FluxOfGradient(d1: nat, b: Table2, g: Table2, o: (nat, nat) -> Table3, x: Table3, r: nat, z: int,
                       y: int, w: int)
    ensures Flux(o, r, Gradient(d1, x, b, g))(z, y, w) == FluxAt(d1, b, g, o, x, r)(z, y, w)
  {
    GradientIsDerivative(d1, x, b, g, z, y, w);
    var x0, x1, x2 := Derivative(d1, b, g, 0, x)(z, y, w), Derivative(d1, b, g, 1, x)(z, y, w),
            Derivative(d1, b, g, 2, x)(z, y, w);
    var a0, a1, a2 := o(r, 0)(z, y, w), o(r, 1)(z, y, w), o(r, 2)(z, y, w);
    FluxIs(d1, b, g, o, x, z, y, w, r, x0, x1, x2, a0, a1, a2);
    FieldFlux(o, r, Gradient(d1, x, b, g), z, y, w, x0, x1, x2, a0, a1, a2);
  }

  lemma FieldFlux(o: (nat, nat) -> Table3, r: nat, f: Fields, z: int, y: int, w: int,
                  x0: real, x1: real, x2: real, a0: real, a1: real, a2: real)
    requires x0 == f.f0(z, y, w) && x1 == f.f1(z, y, w) && x2 == f.f2(z, y, w)
    requires a0 == o(r, 0)(z, y, w) && a1 == o(r, 1)(z, y, w) && a2 == o(r, 2)(z, y, w)
    ensures Flux(o, r, f)(z, y, w) == a0 * x0 + a1 * x1 + a2 * x2
  {
  }

  lemma PartIsDirect(d1: nat, q1: nat, b: Table2, g: Table2, o: (nat, nat) -> Table3, x: Table3, r: nat, iz: int,
                     iy: int, ix: int)
    ensures AlongZ(q1, AlongY(q1, AlongX(q1, Flux(o, r, Gradient(d1, x, b, g)), Turned(Axis(b, g, r, 0))),
                              Turned(Axis(b, g, r, 1))),
                   Turned(Axis(b, g, r, 2)))(iz, iy, ix)
         == DirectPart(d1, q1, b, g, o, x, r)(iz, iy, ix)
  {
    var mz, my, mx := Turned(Axis(b, g, r, 2)), Turned(Axis(b, g, r, 1)), Turned(Axis(b, g, r, 0));
    var flux := Flux(o, r, Gradient(d1, x, b, g));
    FactorXYZ(q1, q1, q1, mz, my, mx, flux, iz, iy, ix);
    forall z, y, w ensures flux(z, y, w) == FluxAt(d1, b, g, o, x, r)(z, y, w) {
      FluxOfGradient(d1, b, g, o, x, r, z, y, w);
    }
    TensorExt(q1, q1, q1, mz, my, mx, flux, FluxAt(d1, b, g, o, x, r), iz, iy, ix);
  }

  /** For any two tables the stages compute the direct sum. */
  lemma StagedIsDirect(d1: nat, q1: nat, b: Table2, g: Table2, o: (nat, nat) -> Table3, x: Table3, iz: int,
                       iy: int, ix: int)
    ensures Staged(d1, q1, b, g, o, x)(iz, iy, ix) == Direct(d1, q1, b, g, o, x)(iz, iy, ix)
  {
    PartIsDirect(d1, q1, b, g, o, x, 0, iz, iy, ix);
    PartIsDirect(d1, q1, b, g, o, x, 1, iz, iy, ix);
    PartIsDirect(d1, q1, b, g, o, x, 2, iz, iy, ix);
  }

  // ---- the tables seen against the tables given -------------------------------------

  ghost predicate Same(s: Table2, t: Table2, q1: nat, d1: nat) {
    forall q, d | In(q, d, q1, d1) :: s(q, d) == t(q, d)
  }

  lemma SameTensor(n: nat, kz: Table2, ky: Table2, kx: Table2, mz: Table2, my: Table2, mx: Table2, s: Table3, t: Table3,
                   qz: int, qy: int, qx: int)
    requires forall k | 0 <= k < n :: kz(qz, k) == mz(qz, k) && ky(qy, k) == my(qy, k) && kx(qx, k) == mx(qx, k)
    requires forall z, y, x | 0 <= z < n && 0 <= y < n && 0 <= x < n :: s(z, y, x) == t(z, y, x)
    ensures Tensor(n, n, n, kz, ky, kx, s)(qz, qy, qx) == Tensor(n, n, n, mz, my, mx, t)(qz, qy, qx)
  {
    forall z, y, x | 0 <= z < n && 0 <= y < n && 0 <= x < n
      ensures Weighted(kz, ky, kx, qz, qy, qx, s)(z, y, x) == Weighted(mz, my, mx, qz, qy, qx, t)(z, y, x)
    {
      assert kz(qz, z) == mz(qz, z) && ky(qy, y) == my(qy, y) && kx(qx, x) == mx(qx, x);
    }
    Sum3Ext(n, n, n, Weighted(kz, ky, kx, qz, qy, qx, s), Weighted(mz, my, mx, qz, qy, qx, t));
  }

  lemma SameDerivative(d1: nat, q1: nat, b: Table2, g: Table2, b': Table2, g': Table2, c: nat, x: Table3, qz: nat,
                       qy: nat, qx: nat)
    requires Same(b, b', q1, d1) && Same(g, g', q1, d1) && qz < q1 && qy < q1 && qx < q1
    ensures Derivative(d1, b, g, c, x)(qz, qy, qx) == Derivative(d1, b', g', c, x)(qz, qy, qx)
  {
    SameTensor(d1, Axis(b, g, c, 2), Axis(b, g, c, 1), Axis(b, g, c, 0), Axis(b', g', c, 2), Axis(b', g', c, 1),
               Axis(b', g', c, 0),
               x, x, qz, qy, qx);
  }

  lemma SameFlux(d1: nat, q1: nat, b: Table2, g: Table2, b': Table2, g': Table2, o: (nat, nat) -> Table3, x: Table3,
                 r: nat, qz: nat, qy: nat, qx: nat)
    requires Same(b, b', q1, d1) && Same(g, g', q1, d1) && qz < q1 && qy < q1 && qx < q1
    ensures FluxAt(d1, b, g, o, x, r)(qz, qy, qx) == FluxAt(d1, b', g', o, x, r)(qz, qy, qx)
  {
    SameDerivative(d1, q1, b, g, b', g', 0, x, qz, qy, qx);
    SameDerivative(d1, q1, b, g, b', g', 1, x, qz, qy, qx);
    SameDerivative(d1, q1, b, g, b', g', 2, x, qz, qy, qx);
    var x0, x1, x2 := Derivative(d1, b, g, 0, x)(qz, qy, qx), Derivative(d1, b, g, 1, x)(qz, qy, qx),
            Derivative(d1, b, g, 2, x)(qz, qy, qx);
    var a0, a1, a2 := o(r, 0)(qz, qy, qx), o(r, 1)(qz, qy, qx), o(r, 2)(qz, qy, qx);
    FluxIs(d1, b, g, o, x, qz, qy, qx, r, x0, x1, x2, a0, a1, a2);
    FluxIs(d1, b', g', o, x, qz, qy, qx, r, x0, x1, x2, a0, a1, a2);
  }

  lemma SamePart(d1: nat, q1: nat, b: Table2, g: Table2, b': Table2, g': Table2, o: (nat, nat) -> Table3, x: Table3,
                 r: nat, iz: nat, iy: nat, ix: nat)
    requires Same(b, b', q1, d1) && Same(g, g', q1, d1) && iz < d1 && iy < d1 && ix < d1
    ensures DirectPart(d1, q1, b, g, o, x, r)(iz, iy, ix) == DirectPart(d1, q1, b', g', o, x, r)(iz, iy, ix)
  {
    forall z, y, w | 0 <= z < q1 && 0 <= y < q1 && 0 <= w < q1
      ensures FluxAt(d1, b, g, o, x, r)(z, y, w) == FluxAt(d1, b', g', o, x, r)(z, y, w)
    {
      SameFlux(d1, q1, b, g, b', g', o, x, r, z, y, w);
    }
    SameTensor(q1, Turned(Axis(b, g, r, 2)), Turned(Axis(b, g, r, 1)), Turned(Axis(b, g, r, 0)),
               Turned(Axis(b', g', r, 2)), Turned(Axis(b', g', r, 1)), Turned(Axis(b', g', r, 0)),
               FluxAt(d1, b, g, o, x, r), FluxAt(d1, b', g', o, x, r), iz, iy, ix);
  }

  lemma SameDirect(d1: nat, q1: nat, b: Table2, g: Table2, b': Table2, g': Table2, o: (nat, nat) -> Table3, x: Table3,
                   iz: nat, iy: nat, ix: nat)
    requires Same(b, b', q1, d1) && Same(g, g', q1, d1) && iz < d1 && iy < d1 && ix < d1
    ensures Direct(d1, q1, b, g, o, x)(iz, iy, ix) == Direct(d1, q1, b', g', o, x)(iz, iy, ix)
  {
    SamePart(d1, q1, b, g, b', g', o, x, 0, iz, iy, ix);
    SamePart(d1, q1, b, g, b', g', o, x, 1, iz, iy, ix);
    SamePart(d1, q1, b, g, b', g', o, x, 2, iz, iy, ix);
  }

  lemma SeenIsGiven(b: Table2, g: Table2, d1: nat, q1: nat)
    requires q1 == d1 + 1 && Reflects(b, g, q1, d1)
    ensures Same(SeenB(b, g, q1, d1), b, q1, d1) && Same(SeenG(b, g, q1, d1), g, q1, d1)
  {
    ServesGivenIff(Blank, b, g, q1, d1);
    forall q, d | In(q, d, q1, d1)
      ensures SeenB(b, g, q1, d1)(q, d) == b(q, d) && SeenG(b, g, q1, d1)(q, d) == g(q, d)
    {
      ServedAt(Loaded(Blank, b, g, q1, d1), b, g, q1, d1, q, d);
    }
  }

  /**
   * With one more point than dofs, symmetric B and antisymmetric G, the element action is
   * the direct sum with B and G themselves.
   */
  lemma ActionIsDirect(b: Table2, g: Table2, d: Table3, x: Table3, e: nat, d1: nat, q1: nat, sym: nat, symmetric: bool,
                       iz: nat, iy: nat, ix: nat)
    requires q1 == d1 + 1 && Reflects(b, g, q1, d1) && iz < d1 && iy < d1 && ix < d1
    ensures Action(b, g, d, x, e, d1, q1, sym, symmetric)(iz, iy, ix) ==
            Direct(d1, q1, b, g, Material(d, e, sym, q1, symmetric), Element(x, e, d1))(iz, iy, ix)
  {
    var o, sb, sg := Material(d, e, sym, q1, symmetric), SeenB(b, g, q1, d1), SeenG(b, g, q1, d1);
    StagedIsDirect(d1, q1, sb, sg, o, Element(x, e, d1), iz, iy, ix);
    SeenIsGiven(b, g, d1, q1);
    SameDirect(d1, q1, sb, sg, b, g, o, Element(x, e, d1), iz, iy, ix);
  }

  /** What Y holds after the run, entry by entry. */
  lemma ResultIsDirect(b: Table2, g: Table2, d: Table3, x: Table3, y0: Table3, ne: nat, d1: nat, q1: nat, sym: nat,
                       symmetric: bool, e: nat, iz: nat, iy: nat, ix: nat)
    requires q1 == d1 + 1 && Reflects(b, g, q1, d1) && e < ne && iz < d1 && iy < d1 && ix < d1
    ensures AllAdded(y0, AllActions(b, g, d, x, d1, q1, sym, symmetric), ne, d1)(e * d1 + iz, iy, ix) ==
            y0(e * d1 + iz, iy, ix) + Direct(d1, q1, b, g, Material(d, e, sym, q1, symmetric),
                                             Element(x, e, d1))(iz, iy, ix)
  {
    AllAddedAt(y0, AllActions(b, g, d, x, d1, q1, sym, symmetric), ne, d1, e, iz, iy, ix);
    ActionIsDirect(b, g, d, x, e, d1, q1, sym, symmetric, iz, iy, ix);
  }

  // ---- adjoint ------------------------------------------------------------------------

  function Product(s: Table3, t: Table3): Table3 {
    (z, y, x) => s(z, y, x) * t(z, y, x)
  }

  function Dot(n: nat, s: Table3, t: Table3): real {
    Sum3(n, n, n, Product(s, t))
  }

  /** w(i) times the coefficient of point q in dof i, times h(q). */
  function Crossed(mz: Table2, my: Table2, mx: Table2, w: Table3, h: Table3): Table6 {
    (iz, iy, ix, qz, qy, qx) => w(iz, iy, ix) * (mz(qz, iz) * my(qy, iy) * mx(qx, ix) * h(qz, qy, qx))
  }

  lemma CrossedRow(q1: nat, mz: Table2, my: Table2, mx: Table2, w: Table3, h: Table3, iz: int, iy: int, ix: int)
    ensures RowSums(q1, q1, q1, Crossed(mz, my, mx, w, h))(iz, iy, ix) ==
            Product(w, Tensor(q1, q1, q1, Turned(mz), Turned(my), Turned(mx), h))(iz, iy, ix)
  {
    var t := Weighted(Turned(mz), Turned(my), Turned(mx), iz, iy, ix, h);
    Sum3Scale(q1, q1, q1, w(iz, iy, ix), t);
    Sum3Ext(q1, q1, q1, RowOf(Crossed(mz, my, mx, w, h), iz, iy, ix), Scaled(w(iz, iy, ix), t));
  }

  lemma CrossedColumn(d1: nat, mz: Table2, my: Table2, mx: Table2, w: Table3, h: Table3, qz: int, qy: int, qx: int)
    ensures ColumnSums(d1, d1, d1, Crossed(mz, my, mx, w, h))(qz, qy, qx) ==
            Product(h, Tensor(d1, d1, d1, mz, my, mx, w))(qz, qy, qx)
  {
    var t, c, column := Weighted(mz, my, mx, qz, qy, qx, w), h(qz, qy, qx),
            ColumnOf(Crossed(mz, my, mx, w, h), qz, qy, qx);
    forall z, y, x ensures column(z, y, x) == Scaled(c, t)(z, y, x) {
      CrossedEntry(mz, my, mx, w, h, z, y, x, qz, qy, qx);
    }
    Sum3Ext(d1, d1, d1, column, Scaled(c, t));
    ScaledTensor(d1, mz, my, mx, w, h, qz, qy, qx, c);
  }

  lemma ScaledTensor(d1: nat, mz: Table2, my: Table2, mx: Table2, w: Table3, h: Table3, qz: int, qy: int,
                     qx: int, c: real)
    requires c == h(qz, qy, qx)
    ensures Sum3(d1, d1, d1, Scaled(c, Weighted(mz, my, mx, qz, qy, qx, w))) ==
            Product(h, Tensor(d1, d1, d1, mz, my, mx, w))(qz, qy, qx)
  {
    Sum3Scale(d1, d1, d1, c, Weighted(mz, my, mx, qz, qy, qx, w));
  }

  lemma CrossedEntry(mz: Table2, my: Table2, mx: Table2, w: Table3, h: Table3, z: int, y: int, x: int, qz: int,
                     qy: int, qx: int)
    ensures Crossed(mz, my, mx, w, h)(z, y, x, qz, qy, qx) ==
            h(qz, qy, qx) * Weighted(mz, my, mx, qz, qy, qx, w)(z, y, x)
  {
    Grouped(w(z, y, x), mz(qz, z) * my(qy, y) * mx(qx, x), h(qz, qy, qx));
  }

  /** Integrating against the test functions is the transpose of interpolating. */
  lemma TensorAdjoint(d1: nat, q1: nat, mz: Table2, my: Table2, mx: Table2, w: Table3, h: Table3)
    ensures Dot(d1, w, Tensor(q1, q1, q1, Turned(mz), Turned(my), Turned(mx), h)) ==
            Dot(q1, h, Tensor(d1, d1, d1, mz, my, mx, w))
  {
    var f := Crossed(mz, my, mx, w, h);
    Sum3Swap(d1, d1, d1, q1, q1, q1, f);
    forall z, y, x
      ensures RowSums(q1, q1, q1, f)(z, y, x) ==
              Product(w, Tensor(q1, q1, q1, Turned(mz), Turned(my), Turned(mx), h))(z, y, x) {
      CrossedRow(q1, mz, my, mx, w, h, z, y, x);
    }
    Sum3Ext(d1, d1, d1, RowSums(q1, q1, q1, f), Product(w, Tensor(q1, q1, q1, Turned(mz), Turned(my), Turned(mx), h)));
    forall z, y, x
      ensures ColumnSums(d1, d1, d1, f)(z, y, x) == Product(h, Tensor(d1, d1, d1, mz, my, mx, w))(z, y, x)
    {
      CrossedColumn(d1, mz, my, mx, w, h, z, y, x);
    }
    Sum3Ext(q1, q1, q1, ColumnSums(d1, d1, d1, f), Product(h, Tensor(d1, d1, d1, mz, my, mx, w)));
  }

  /** (grad w)^T D (grad x) at a quadrature point. */
  function Form(d1: nat, b: Table2, g: Table2, o: (nat, nat) -> Table3, w: Table3, x: Table3): Table3 {
    (z, y, k) =>
      Combined(FluxAt(d1, b, g, o, x, 0)(z, y, k), FluxAt(d1, b, g, o, x, 1)(z, y, k),
               FluxAt(d1, b, g, o, x, 2)(z, y, k), Derivative(d1, b, g, 0, w)(z, y, k),
               Derivative(d1, b, g, 1, w)(z, y, k), Derivative(d1, b, g, 2, w)(z, y, k))
  }

  lemma DotSplits(n: nat, w: Table3, f0: Table3, f1: Table3, f2: Table3, f: Table3)
    requires forall z, y, x :: f(z, y, x) == f0(z, y, x) + f1(z, y, x) + f2(z, y, x)
    ensures Dot(n, w, f) == Dot(n, w, f0) + Dot(n, w, f1) + Dot(n, w, f2)
  {
    forall z, y, x
      ensures Product(w, f)(z, y, x) == Product(w, f0)(z, y, x) + Product(w, f1)(z, y, x) + Product(w, f2)(z, y, x)
    {
      Distribute3(w(z, y, x), f0(z, y, x), f1(z, y, x), f2(z, y, x));
    }
    Sum3OfThree(n, Product(w, f), Product(w, f0), Product(w, f1), Product(w, f2));
  }

  lemma Sum3OfThree(n: nat, f: Table3, f0: Table3, f1: Table3, f2: Table3)
    requires forall z, y, x :: f(z, y, x) == f0(z, y, x) + f1(z, y, x) + f2(z, y, x)
    ensures Sum3(n, n, n, f) == Sum3(n, n, n, f0) + Sum3(n, n, n, f1) + Sum3(n, n, n, f2)
  {
    var g: Table3 := (z, y, x) => f0(z, y, x) + f1(z, y, x);
    Sum3Add(n, n, n, f0, f1);
    Sum3Add(n, n, n, g, f2);
    Sum3Ext(n, n, n, f, (z, y, x) => g(z, y, x) + f2(z, y, x));
  }

  /** The operator's bilinear form, as a sum over the quadrature points. */
  lemma DirectForm(d1: nat, q1: nat, b: Table2, g: Table2, o: (nat, nat) -> Table3, w: Table3, x: Table3)
    ensures Dot(d1, w, Direct(d1, q1, b, g, o, x)) == Sum3(q1, q1, q1, Form(d1, b, g, o, w, x))
  {
    DotSplits(d1, w, DirectPart(d1, q1, b, g, o, x, 0), DirectPart(d1, q1, b, g, o, x, 1),
              DirectPart(d1, q1, b, g, o, x, 2),
              Direct(d1, q1, b, g, o, x));
    PartForm(d1, q1, b, g, o, w, x, 0);
    PartForm(d1, q1, b, g, o, w, x, 1);
    PartForm(d1, q1, b, g, o, w, x, 2);
    FormSplits(d1, q1, b, g, o, w, x);
  }

  lemma FormSplits(d1: nat, q1: nat, b: Table2, g: Table2, o: (nat, nat) -> Table3, w: Table3, x: Table3)
    ensures Sum3(q1, q1, q1, Form(d1, b, g, o, w, x)) ==
            Sum3(q1, q1, q1, FormPart(d1, b, g, o, w, x, 0)) + Sum3(q1, q1, q1, FormPart(d1, b, g, o, w, x, 1))
                + Sum3(q1, q1, q1, FormPart(d1, b, g, o, w, x, 2))
  {
    var f0, f1, f2 := FormPart(d1, b, g, o, w, x, 0), FormPart(d1, b, g, o, w, x, 1), FormPart(d1, b, g, o, w, x, 2);
    forall z, y, k ensures Form(d1, b, g, o, w, x)(z, y, k) == f0(z, y, k) + f1(z, y, k) + f2(z, y, k) {
      FormOfParts(d1, b, g, o, w, x, z, y, k);
    }
    Sum3OfThree(q1, Form(d1, b, g, o, w, x), f0, f1, f2);
  }

  lemma FormOfParts(d1: nat, b: Table2, g: Table2, o: (nat, nat) -> Table3, w: Table3, x: Table3, z: int,
                    y: int, k: int)
    ensures Form(d1, b, g, o, w, x)(z, y, k) ==
            FormPart(d1, b, g, o, w, x, 0)(z, y, k) + FormPart(d1, b, g, o, w, x, 1)(z, y, k)
                + FormPart(d1, b, g, o, w, x, 2)(z, y, k)
  {
    var f0, f1, f2 := FluxAt(d1, b, g, o, x, 0)(z, y, k), FluxAt(d1, b, g, o, x, 1)(z, y, k),
            FluxAt(d1, b, g, o, x, 2)(z, y, k);
    var w0, w1, w2 := Derivative(d1, b, g, 0, w)(z, y, k), Derivative(d1, b, g, 1, w)(z, y, k),
            Derivative(d1, b, g, 2, w)(z, y, k);
    FormPartAt(d1, b, g, o, w, x, 0, z, y, k, f0, w0);
    FormPartAt(d1, b, g, o, w, x, 1, z, y, k, f1, w1);
    FormPartAt(d1, b, g, o, w, x, 2, z, y, k, f2, w2);
    CombinedForm(d1, b, g, o, w, x, z, y, k, f0, f1, f2, w0, w1, w2);
  }

  lemma FormPartAt(d1: nat, b: Table2, g: Table2, o: (nat, nat) -> Table3, w: Table3, x: Table3, r: nat, z: int,
                   y: int, k: int, f: real, v: real)
    requires f == FluxAt(d1, b, g, o, x, r)(z, y, k) && v == Derivative(d1, b, g, r, w)(z, y, k)
    ensures FormPart(d1, b, g, o, w, x, r)(z, y, k) == f * v
  {
    var s, t := FluxAt(d1, b, g, o, x, r), Derivative(d1, b, g, r, w);
    assert Product(s, t)(z, y, k) == s(z, y, k) * t(z, y, k);
  }

  lemma CombinedForm(d1: nat, b: Table2, g: Table2, o: (nat, nat) -> Table3, w: Table3, x: Table3, z: int, y: int,
                     k: int, f0: real, f1: real, f2: real, w0: real, w1: real, w2: real)
    requires f0 == FluxAt(d1, b, g, o, x, 0)(z, y, k) && f1 == FluxAt(d1, b, g, o, x, 1)(z, y, k)
    requires f2 == FluxAt(d1, b, g, o, x, 2)(z, y, k)
    requires w0 == Derivative(d1, b, g, 0, w)(z, y, k) && w1 == Derivative(d1, b, g, 1, w)(z, y, k)
    requires w2 == Derivative(d1, b, g, 2, w)(z, y, k)
    ensures Form(d1, b, g, o, w, x)(z, y, k) == f0 * w0 + f1 * w1 + f2 * w2
  {
    assert Form(d1, b, g, o, w, x)(z, y, k) == Combined(f0, f1, f2, w0, w1, w2);
  }

  function FormPart(d1: nat, b: Table2, g: Table2, o: (nat, nat) -> Table3, w: Table3, x: Table3, r: nat): Table3 {
    Product(FluxAt(d1, b, g, o, x, r), Derivative(d1, b, g, r, w))
  }

  lemma PartForm(d1: nat, q1: nat, b: Table2, g: Table2, o: (nat, nat) -> Table3, w: Table3, x: Table3, r: nat)
    ensures Dot(d1, w, DirectPart(d1, q1, b, g, o, x, r)) == Sum3(q1, q1, q1, FormPart(d1, b, g, o, w, x, r))
  {
    TensorAdjoint(d1, q1, Axis(b, g, r, 2), Axis(b, g, r, 1), Axis(b, g, r, 0), w, FluxAt(d1, b, g, o, x, r));
  }

  ghost predicate SymmetricMaterial(o: (nat, nat) -> Table3) {
    forall z, y, x :: o(0, 1)(z, y, x) == o(1, 0)(z, y, x) && o(0, 2)(z, y, x) == o(2, 0)(z, y, x)
        && o(1, 2)(z, y, x) == o(2, 1)(z, y, x)
  }

  lemma FormSymmetric(d1: nat, b: Table2, g: Table2, o: (nat, nat) -> Table3, w: Table3, x: Table3, z: int,
                      y: int, k: int)
    requires SymmetricMaterial(o)
    ensures Form(d1, b, g, o, w, x)(z, y, k) == Form(d1, b, g, o, x, w)(z, y, k)
  {
    var x0, x1, x2 := Derivative(d1, b, g, 0, x)(z, y, k), Derivative(d1, b, g, 1, x)(z, y, k),
            Derivative(d1, b, g, 2, x)(z, y, k);
    var w0, w1, w2 := Derivative(d1, b, g, 0, w)(z, y, k), Derivative(d1, b, g, 1, w)(z, y, k),
            Derivative(d1, b, g, 2, w)(z, y, k);
    var m00, m01, m02 := o(0, 0)(z, y, k), o(0, 1)(z, y, k), o(0, 2)(z, y, k);
    var m11, m12, m22 := o(1, 1)(z, y, k), o(1, 2)(z, y, k), o(2, 2)(z, y, k);
    FormAt(d1, b, g, o, w, x, z, y, k, m00, m01, m02, m11, m12, m22, x0, x1, x2, w0, w1, w2);
    FormAt(d1, b, g, o, x, w, z, y, k, m00, m01, m02, m11, m12, m22, w0, w1, w2, x0, x1, x2);
    QuadraticSymmetric(m00, m01, m02, m11, m12, m22, x0, x1, x2, w0, w1, w2);
  }

  lemma FormAt(d1: nat, b: Table2, g: Table2, o: (nat, nat) -> Table3, w: Table3, x: Table3, z: int, y: int, k: int,
               m00: real, m01: real, m02: real, m11: real, m12: real, m22: real,
               x0: real, x1: real, x2: real, w0: real, w1: real, w2: real)
    requires SymmetricMaterial(o)
    requires m00 == o(0, 0)(z, y, k) && m01 == o(0, 1)(z, y, k) && m02 == o(0, 2)(z, y, k)
    requires m11 == o(1, 1)(z, y, k) && m12 == o(1, 2)(z, y, k) && m22 == o(2, 2)(z, y, k)
    requires x0 == Derivative(d1, b, g, 0, x)(z, y, k) && x1 == Derivative(d1, b, g, 1, x)(z, y, k)
    requires x2 == Derivative(d1, b, g, 2, x)(z, y, k)
    requires w0 == Derivative(d1, b, g, 0, w)(z, y, k) && w1 == Derivative(d1, b, g, 1, w)(z, y, k)
    requires w2 == Derivative(d1, b, g, 2, w)(z, y, k)
    ensures Form(d1, b, g, o, w, x)(z, y, k) ==
            Combined(Combined(m00, m01, m02, x0, x1, x2), Combined(m01, m11, m12, x0, x1, x2),
                     Combined(m02, m12, m22, x0, x1, x2), w0, w1, w2)
  {
    FluxIs(d1, b, g, o, x, z, y, k, 0, x0, x1, x2, m00, m01, m02);
    FluxIs(d1, b, g, o, x, z, y, k, 1, x0, x1, x2, m01, m11, m12);
    FluxIs(d1, b, g, o, x, z, y, k, 2, x0, x1, x2, m02, m12, m22);
  }

  lemma FluxIs(d1: nat, b: Table2, g: Table2, o: (nat, nat) -> Table3, x: Table3, z: int, y: int, k: int, r: nat,
               x0: real, x1: real, x2: real, a0: real, a1: real, a2: real)
    requires x0 == Derivative(d1, b, g, 0, x)(z, y, k) && x1 == Derivative(d1, b, g, 1, x)(z, y, k)
    requires x2 == Derivative(d1, b, g, 2, x)(z, y, k)
    requires a0 == o(r, 0)(z, y, k) && a1 == o(r, 1)(z, y, k) && a2 == o(r, 2)(z, y, k)
    ensures FluxAt(d1, b, g, o, x, r)(z, y, k) == Combined(a0, a1, a2, x0, x1, x2)
  {
  }

  lemma QuadraticSymmetric(a: real, b: real, c: real, d: real, e: real, f: real, x0: real, x1: real, x2: real,
                           w0: real, w1: real, w2: real)
    ensures Combined(Combined(a, b, c, x0, x1, x2), Combined(b, d, e, x0, x1, x2),
                     Combined(c, e, f, x0, x1, x2), w0, w1, w2)
         == Combined(Combined(a, b, c, w0, w1, w2), Combined(b, d, e, w0, w1, w2),
                     Combined(c, e, f, w0, w1, w2), x0, x1, x2)
  {
  }

  /** With symmetric coefficients the direct operator is self-adjoint, for any two tables. */
  lemma DirectSelfAdjoint(d1: nat, q1: nat, b: Table2, g: Table2, o: (nat, nat) -> Table3, w: Table3, x: Table3)
    requires SymmetricMaterial(o)
    ensures Dot(d1, w, Direct(d1, q1, b, g, o, x)) == Dot(d1, x, Direct(d1, q1, b, g, o, w))
  {
    DirectForm(d1, q1, b, g, o, w, x);
    DirectForm(d1, q1, b, g, o, x, w);
    forall z, y, k ensures Form(d1, b, g, o, w, x)(z, y, k) == Form(d1, b, g, o, x, w)(z, y, k) {
      FormSymmetric(d1, b, g, o, w, x, z, y, k);
    }
    Sum3Ext(q1, q1, q1, Form(d1, b, g, o, w, x), Form(d1, b, g, o, x, w));
  }

  /**
   * With the symmetric flag the nine stages are self-adjoint on every element.  No
   * condition on B and G is needed: both passes read the same tables from sBG.
   */
  lemma ActionSelfAdjoint(b: Table2, g: Table2, d: Table3, w: Table3, x: Table3, e: nat, d1: nat, q1: nat, sym: nat)
    ensures Dot(d1, Element(w, e, d1), Action(b, g, d, x, e, d1, q1, sym, true)) ==
            Dot(d1, Element(x, e, d1), Action(b, g, d, w, e, d1, q1, sym, true))
  {
    var o := Material(d, e, sym, q1, true);
    var sb, sg := SeenB(b, g, q1, d1), SeenG(b, g, q1, d1);
    DotOfAction(b, g, d, Element(w, e, d1), x, e, d1, q1, sym);
    DotOfAction(b, g, d, Element(x, e, d1), w, e, d1, q1, sym);
    DirectSelfAdjoint(d1, q1, sb, sg, o, Element(w, e, d1), Element(x, e, d1));
  }

  lemma DotOfAction(b: Table2, g: Table2, d: Table3, t: Table3, x: Table3, e: nat, d1: nat, q1: nat, sym: nat)
    ensures Dot(d1, t, Action(b, g, d, x, e, d1, q1, sym, true)) ==
            Dot(d1, t, Direct(d1, q1, SeenB(b, g, q1, d1), SeenG(b, g, q1, d1), Material(d, e, sym, q1, true),
                              Element(x, e, d1)))
  {
    var direct := Direct(d1, q1, SeenB(b, g, q1, d1), SeenG(b, g, q1, d1), Material(d, e, sym, q1, true),
                         Element(x, e, d1));
    var action := Action(b, g, d, x, e, d1, q1, sym, true);
    forall z, y, k ensures Product(t, action)(z, y, k) == Product(t, direct)(z, y, k) {
      StagedIsDirect(d1, q1, SeenB(b, g, q1, d1), SeenG(b, g, q1, d1), Material(d, e, sym, q1, true),
                     Element(x, e, d1), z, y, k);
    }
    Sum3Ext(d1, d1, d1, Product(t, action), Product(t, direct));
  }

  /** The same over the whole mesh. */
  lemma OperatorSelfAdjoint(b: Table2, g: Table2, d: Table3, w: Table3, x: Table3, ne: nat, d1: nat, q1: nat, sym: nat)
    ensures Sum(ne, MeshDot(b, g, d, w, x, d1, q1, sym)) == Sum(ne, MeshDot(b, g, d, x, w, d1, q1, sym))
  {
    forall e | 0 <= e < ne ensures MeshDot(b, g, d, w, x, d1, q1, sym)(e) == MeshDot(b, g, d, x, w, d1, q1, sym)(e) {
      ActionSelfAdjoint(b, g, d, w, x, e, d1, q1, sym);
    }
    SumExt(ne, MeshDot(b, g, d, w, x, d1, q1, sym), MeshDot(b, g, d, x, w, d1, q1, sym));
  }

  /** Element e's part of w . (A x). */
  ghost function MeshDot(b: Table2, g: Table2, d: Table3, w: Table3, x: Table3, d1: nat, q1: nat,
                         sym: nat): int -> real {
    (e: int) => if e >= 0 then Dot(d1, Element(w, e, d1), Action(b, g, d, x, e, d1, q1, sym, true)) else 0.0
  }
}
