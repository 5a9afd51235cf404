/**
 * What the three element kernels leave in Y, in terms of the arrays as they are stored: dof
 * (z, y, x) of element e stands in plane e*D + z, component k of its quadrature data in
 * planes from (e*S + k)*Q on, where S is the number of components an element.
 */
module ElementData {
  import C = Convection
  import ConvectionOperator
  import D = Diffusion
  import opened DiffusionOperator
  import opened Elements
  import M = Mass
  import MassExact
  import MassMatrix
  import opened PackedTables
  import opened Packing
  import opened RealArith
  import opened Sums

  // ---- interpolation from stored dofs ------------------------------------------------

  /** The value at a point of the dofs of element e, with one table an axis. */
  function Interpolated(d1: nat, mz: Table2, my: Table2, mx: Table2, x: Table3, e: nat, qz: int, qy: int,
                        qx: int): real {
    Sum3(d1, d1, d1, (jz, jy, jx) => mz(qz, jz) * my(qy, jy) * mx(qx, jx) * x(e * d1 + jz, jy, jx))
  }

  lemma InterpolatedIs(d1: nat, mz: Table2, my: Table2, mx: Table2, x: Table3, e: nat, qz: int, qy: int, qx: int)
    ensures Interpolated(d1, mz, my, mx, x, e, qz, qy, qx) ==
            Tensor(d1, d1, d1, mz, my, mx, Element(x, e, d1))(qz, qy, qx)
  {
    Sum3Ext(d1, d1, d1, (jz, jy, jx) => mz(qz, jz) * my(qy, jy) * mx(qx, jx) * x(e * d1 + jz, jy, jx),
            Weighted(mz, my, mx, qz, qy, qx, Element(x, e, d1)));
  }

  // ---- MASS3DPA ------------------------------------------------------------------------

  /** Stage 5's value: the interpolated dofs times the stored quadrature data. */
  function StoredMass(d1: nat, q1: nat, b: Table2, d: Table3, x: Table3, e: nat): Table3 {
    (qz, qy, qx) => Interpolated(d1, b, b, b, x, e, qz, qy, qx) * d(e * q1 + qz, qy, qx)
  }

  /** Entry (iz, iy, ix) of element e of Y grows by these values weighed with Bt over its quadrature points. */
  lemma MassStored(d1: nat, q1: nat, b: Table2, bt: Table2, d: Table3, x: Table3, y0: Table3, ne: nat, e: nat,
                   iz: nat, iy: int, ix: int)
    requires d1 >= 1 && e < ne && iz < d1
    ensures AllAdded(y0, M.AllElements(d1, q1, b, bt, d, x), ne, d1)(e * d1 + iz, iy, ix) ==
            y0(e * d1 + iz, iy, ix) + Tensor(q1, q1, q1, bt, bt, bt, StoredMass(d1, q1, b, d, x, e))(iz, iy, ix)
  {
    var de, xe := Element(d, e, q1), Element(x, e, d1);
    MassMatrix.MassResult(d1, q1, b, bt, d, x, y0, ne, e, iz, iy, ix);
    MassMatrix.StagedIsDirect(d1, q1, b, bt, de, xe, iz, iy, ix);
    MassExact.StagedByPoint(d1, q1, b, bt, de, xe, iz, iy, ix);
    MassValues(d1, q1, b, bt, d, x, e, iz, iy, ix);
  }

  lemma MassValues(d1: nat, q1: nat, b: Table2, bt: Table2, d: Table3, x: Table3, e: nat, iz: int, iy: int, ix: int)
    ensures Tensor(q1, q1, q1, bt, bt, bt, M.Times(Tensor(d1, d1, d1, b, b, b, Element(x, e, d1)),
                                                   Element(d, e, q1)))(iz, iy, ix) ==
            Tensor(q1, q1, q1, bt, bt, bt, StoredMass(d1, q1, b, d, x, e))(iz, iy, ix)
  {
    var values := M.Times(Tensor(d1, d1, d1, b, b, b, Element(x, e, d1)), Element(d, e, q1));
    var stored := StoredMass(d1, q1, b, d, x, e);
    forall qz, qy, qx
      ensures values(qz, qy, qx) == stored(qz, qy, qx) { InterpolatedIs(d1, b, b, b, x, e, qz, qy, qx); }
    TensorExt(q1, q1, q1, bt, bt, bt, values, stored, iz, iy, ix);
  }

  // ---- CONVECTION3DPA --------------------------------------------------------------------

  /** Stage 5's value: the three stored components of the velocity against the three derivatives. */
  function StoredFlow(d1: nat, q1: nat, b: Table2, g: Table2, d: Table3, x: Table3, e: nat): Table3 {
    (qz, qy, qx) =>
      d((e * 3 + 0) * q1 + qz, qy, qx) * Interpolated(d1, b, b, g, x, e, qz, qy, qx)
      + d((e * 3 + 1) * q1 + qz, qy, qx) * Interpolated(d1, b, g, b, x, e, qz, qy, qx)
      + d((e * 3 + 2) * q1 + qz, qy, qx) * Interpolated(d1, g, b, b, x, e, qz, qy, qx)
  }

  lemma StoredFlowIs(d1: nat, q1: nat, b: Table2, g: Table2, d: Table3, x: Table3, e: nat, qz: int, qy: int, qx: int)
    ensures ConvectionOperator.Flow(d1, b, g, C.Velocity(d, e, q1), Element(x, e, d1))(qz, qy, qx) ==
            StoredFlow(d1, q1, b, g, d, x, e)(qz, qy, qx)
  {
    InterpolatedIs(d1, b, b, g, x, e, qz, qy, qx);
    InterpolatedIs(d1, b, g, b, x, e, qz, qy, qx);
    InterpolatedIs(d1, g, b, b, x, e, qz, qy, qx);
    var x0, x1, x2 := Interpolated(d1, b, b, g, x, e, qz, qy, qx), Interpolated(d1, b, g, b, x, e, qz, qy, qx),
            Interpolated(d1, g, b, b, x, e, qz, qy, qx);
    var a0, a1, a2 := d((e * 3 + 0) * q1 + qz, qy, qx), d((e * 3 + 1) * q1 + qz, qy, qx),
            d((e * 3 + 2) * q1 + qz, qy, qx);
    ConvectionOperator.FlowIs(d1, b, g, C.Velocity(d, e, q1), Element(x, e, d1), qz, qy, qx, x0, x1, x2, a0, a1, a2);
    FlowStored(d1, q1, b, g, d, x, e, qz, qy, qx, x0, x1, x2, a0, a1, a2);
  }

  lemma FlowStored(d1: nat, q1: nat, b: Table2, g: Table2, d: Table3, x: Table3, e: nat, qz: int, qy: int, qx: int,
                   x0: real, x1: real, x2: real, a0: real, a1: real, a2: real)
    requires x0 == Interpolated(d1, b, b, g, x, e, qz, qy, qx) && x1 == Interpolated(d1, b, g, b, x, e, qz, qy, qx)
    requires x2 == Interpolated(d1, g, b, b, x, e, qz, qy, qx) && a0 == d((e * 3 + 0) * q1 + qz, qy, qx)
    requires a1 == d((e * 3 + 1) * q1 + qz, qy, qx) && a2 == d((e * 3 + 2) * q1 + qz, qy, qx)
    ensures StoredFlow(d1, q1, b, g, d, x, e)(qz, qy, qx) == Combined(a0, a1, a2, x0, x1, x2)
  {
  }

  /** Entry (iz, iy, ix) of element e of Y grows by the flow weighed with Bt over the quadrature points. */
  lemma ConvectionStored(b: Table2, g: Table2, bt: Table2, d: Table3, x: Table3, y0: Table3, ne: nat, d1: nat, q1: nat,
                         e: nat, iz: nat, iy: nat, ix: nat)
    requires d1 >= 1 && e < ne && iz < d1
    ensures AllAdded(y0, C.AllActions(b, g, bt, d, x, d1, q1), ne, d1)(e * d1 + iz, iy, ix) ==
            y0(e * d1 + iz, iy, ix) + Tensor(q1, q1, q1, bt, bt, bt, StoredFlow(d1, q1, b, g, d, x, e))(iz, iy, ix)
  {
    var flow, stored := ConvectionOperator.Flow(d1, b, g, C.Velocity(d, e, q1), Element(x, e, d1)),
            StoredFlow(d1, q1, b, g, d, x, e);
    ConvectionOperator.ConvectionResult(b, g, bt, d, x, y0, ne, d1, q1, e, iz, iy, ix);
    forall qz, qy, qx ensures flow(qz, qy, qx) == stored(qz, qy, qx) {
      StoredFlowIs(d1, q1, b, g, d, x, e, qz, qy, qx);
    }
    TensorExt(q1, q1, q1, bt, bt, bt, flow, stored, iz, iy, ix);
  }

  // ---- DIFFUSION3DPA -----------------------------------------------------------------------

  /** Row r of the material matrix at a point, as stored: six components by symmetry, or nine. */
  function StoredFlux(d1: nat, q1: nat, b: Table2, g: Table2, d: Table3, x: Table3, e: nat, sym: nat,
                      k0: nat, k1: nat, k2: nat): Table3 {
    (qz, qy, qx) =>
      d((e * sym + k0) * q1 + qz, qy, qx) * Interpolated(d1, b, b, g, x, e, qz, qy, qx)
      + d((e * sym + k1) * q1 + qz, qy, qx) * Interpolated(d1, b, g, b, x, e, qz, qy, qx)
      + d((e * sym + k2) * q1 + qz, qy, qx) * Interpolated(d1, g, b, b, x, e, qz, qy, qx)
  }

  lemma StoredFluxIs(d1: nat, q1: nat, b: Table2, g: Table2, d: Table3, x: Table3, e: nat, sym: nat, symmetric: bool,
                     r: nat, k0: nat, k1: nat, k2: nat, qz: int, qy: int, qx: int)
    requires r < 3
    requires k0 == D.Component(symmetric, r, 0) && k1 == D.Component(symmetric, r, 1)
    requires k2 == D.Component(symmetric, r, 2)
    ensures FluxAt(d1, b, g, D.Material(d, e, sym, q1, symmetric), Element(x, e, d1), r)(qz, qy, qx) ==
            StoredFlux(d1, q1, b, g, d, x, e, sym, k0, k1, k2)(qz, qy, qx)
  {
    InterpolatedIs(d1, b, b, g, x, e, qz, qy, qx);
    InterpolatedIs(d1, b, g, b, x, e, qz, qy, qx);
    InterpolatedIs(d1, g, b, b, x, e, qz, qy, qx);
    var x0, x1, x2 := Interpolated(d1, b, b, g, x, e, qz, qy, qx), Interpolated(d1, b, g, b, x, e, qz, qy, qx),
            Interpolated(d1, g, b, b, x, e, qz, qy, qx);
    var a0, a1, a2 := d((e * sym + k0) * q1 + qz, qy, qx), d((e * sym + k1) * q1 + qz, qy, qx),
            d((e * sym + k2) * q1 + qz, qy, qx);
    FluxIs(d1, b, g, D.Material(d, e, sym, q1, symmetric), Element(x, e, d1), qz, qy, qx, r, x0, x1, x2, a0, a1, a2);
    FluxStored(d1, q1, b, g, d, x, e, sym, k0, k1, k2, qz, qy, qx, x0, x1, x2, a0, a1, a2);
  }

  lemma FluxStored(d1: nat, q1: nat, b: Table2, g: Table2, d: Table3, x: Table3, e: nat, sym: nat, k0: nat, k1: nat,
                   k2: nat, qz: int, qy: int, qx: int, x0: real, x1: real, x2: real, a0: real, a1: real, a2: real)
    requires x0 == Interpolated(d1, b, b, g, x, e, qz, qy, qx) && x1 == Interpolated(d1, b, g, b, x, e, qz, qy, qx)
    requires x2 == Interpolated(d1, g, b, b, x, e, qz, qy, qx) && a0 == d((e * sym + k0) * q1 + qz, qy, qx)
    requires a1 == d((e * sym + k1) * q1 + qz, qy, qx) && a2 == d((e * sym + k2) * q1 + qz, qy, qx)
    ensures StoredFlux(d1, q1, b, g, d, x, e, sym, k0, k1, k2)(qz, qy, qx) == Combined(a0, a1, a2, x0, x1, x2)
  {
  }

  /** The derivatives of basis function (iz, iy, ix) at a point against three fluxes. */
  function Tested(b: Table2, g: Table2, iz: int, iy: int, ix: int, f0: Table3, f1: Table3, f2: Table3): Table3 {
    (qz, qy, qx) =>
      b(qz, iz) * b(qy, iy) * g(qx, ix) * f0(qz, qy, qx) + b(qz, iz) * g(qy, iy) * b(qx, ix) * f1(qz, qy, qx)
      + g(qz, iz) * b(qy, iy) * b(qx, ix) * f2(qz, qy, qx)
  }

  function DiffusionTerm(d1: nat, q1: nat, b: Table2, g: Table2, d: Table3, x: Table3, e: nat, sym: nat,
                         symmetric: bool, iz: int, iy: int, ix: int): Table3 {
    if symmetric then
      Tested(b, g, iz, iy, ix, StoredFlux(d1, q1, b, g, d, x, e, sym, 0, 1, 2),
             StoredFlux(d1, q1, b, g, d, x, e, sym, 1, 3, 4), StoredFlux(d1, q1, b, g, d, x, e, sym, 2, 4, 5))
    else
      Tested(b, g, iz, iy, ix, StoredFlux(d1, q1, b, g, d, x, e, sym, 0, 1, 2),
             StoredFlux(d1, q1, b, g, d, x, e, sym, 3, 4, 5), StoredFlux(d1, q1, b, g, d, x, e, sym, 6, 7, 8))
  }

  lemma TestedParts(b: Table2, g: Table2, iz: int, iy: int, ix: int, f0: Table3, f1: Table3, f2: Table3,
                    qz: int, qy: int, qx: int)
    ensures Tested(b, g, iz, iy, ix, f0, f1, f2)(qz, qy, qx) ==
            Weighted(Turned(b), Turned(b), Turned(g), iz, iy, ix, f0)(qz, qy, qx)
            + Weighted(Turned(b), Turned(g), Turned(b), iz, iy, ix, f1)(qz, qy, qx)
            + Weighted(Turned(g), Turned(b), Turned(b), iz, iy, ix, f2)(qz, qy, qx)
  {
  }

  lemma DirectByPoint(d1: nat, q1: nat, b: Table2, g: Table2, o: (nat, nat) -> Table3, x: Table3, iz: int,
                      iy: int, ix: int)
    ensures Direct(d1, q1, b, g, o, x)(iz, iy, ix) ==
            Sum3(q1, q1, q1, Tested(b, g, iz, iy, ix, FluxAt(d1, b, g, o, x, 0), FluxAt(d1, b, g, o, x, 1),
                                    FluxAt(d1, b, g, o, x, 2)))
  {
    var f0, f1, f2 := FluxAt(d1, b, g, o, x, 0), FluxAt(d1, b, g, o, x, 1), FluxAt(d1, b, g, o, x, 2);
    var tested := Tested(b, g, iz, iy, ix, f0, f1, f2);
    var w0, w1, w2 := Weighted(Turned(b), Turned(b), Turned(g), iz, iy, ix, f0),
            Weighted(Turned(b), Turned(g), Turned(b), iz, iy, ix, f1),
            Weighted(Turned(g), Turned(b), Turned(b), iz, iy, ix, f2);
    forall qz, qy, qx ensures tested(qz, qy, qx) == w0(qz, qy, qx) + w1(qz, qy, qx) + w2(qz, qy, qx) {
      TestedParts(b, g, iz, iy, ix, f0, f1, f2, qz, qy, qx);
    }
    Sum3OfThree(q1, tested, w0, w1, w2);
    PartsAre(d1, q1, b, g, o, x, iz, iy, ix);
  }

  lemma PartsAre(d1: nat, q1: nat, b: Table2, g: Table2, o: (nat, nat) -> Table3, x: Table3, iz: int, iy: int, ix: int)
    ensures DirectPart(d1, q1, b, g, o, x, 0)(iz, iy, ix) ==
            Sum3(q1, q1, q1, Weighted(Turned(b), Turned(b), Turned(g), iz, iy, ix, FluxAt(d1, b, g, o, x, 0)))
    ensures DirectPart(d1, q1, b, g, o, x, 1)(iz, iy, ix) ==
            Sum3(q1, q1, q1, Weighted(Turned(b), Turned(g), Turned(b), iz, iy, ix, FluxAt(d1, b, g, o, x, 1)))
    ensures DirectPart(d1, q1, b, g, o, x, 2)(iz, iy, ix) ==
            Sum3(q1, q1, q1, Weighted(Turned(g), Turned(b), Turned(b), iz, iy, ix, FluxAt(d1, b, g, o, x, 2)))
  {
  }

  lemma TestedExt(b: Table2, g: Table2, iz: int, iy: int, ix: int, f0: Table3, f1: Table3, f2: Table3,
                  h0: Table3, h1: Table3, h2: Table3, qz: int, qy: int, qx: int)
    requires f0(qz, qy, qx) == h0(qz, qy, qx) && f1(qz, qy, qx) == h1(qz, qy, qx) && f2(qz, qy, qx) == h2(qz, qy, qx)
    ensures Tested(b, g, iz, iy, ix, f0, f1, f2)(qz, qy, qx) == Tested(b, g, iz, iy, ix, h0, h1, h2)(qz, qy, qx)
  {
  }

  /** The products with D read the stored matrix, by symmetry from six components or from nine. */
  lemma FluxesAreStored(d1: nat, q1: nat, b: Table2, g: Table2, d: Table3, x: Table3, e: nat, sym: nat, symmetric: bool,
                        iz: int, iy: int, ix: int, qz: int, qy: int, qx: int, f0: Table3, f1: Table3, f2: Table3)
    requires var o, xe := D.Material(d, e, sym, q1, symmetric), Element(x, e, d1);
             f0 == FluxAt(d1, b, g, o, xe, 0) && f1 == FluxAt(d1, b, g, o, xe, 1) && f2 == FluxAt(d1, b, g, o, xe, 2)
    ensures Tested(b, g, iz, iy, ix, f0, f1, f2)(qz, qy, qx) ==
            DiffusionTerm(d1, q1, b, g, d, x, e, sym, symmetric, iz, iy, ix)(qz, qy, qx)
  {
    var h := (k0: nat, k1: nat, k2: nat) => StoredFlux(d1, q1, b, g, d, x, e, sym, k0, k1, k2);
    StoredFluxIs(d1, q1, b, g, d, x, e, sym, symmetric, 0, 0, 1, 2, qz, qy, qx);
    if symmetric {
      StoredFluxIs(d1, q1, b, g, d, x, e, sym, symmetric, 1, 1, 3, 4, qz, qy, qx);
      StoredFluxIs(d1, q1, b, g, d, x, e, sym, symmetric, 2, 2, 4, 5, qz, qy, qx);
      TestedExt(b, g, iz, iy, ix, f0, f1, f2, h(0, 1, 2), h(1, 3, 4), h(2, 4, 5), qz, qy, qx);
    } else {
      StoredFluxIs(d1, q1, b, g, d, x, e, sym, symmetric, 1, 3, 4, 5, qz, qy, qx);
      StoredFluxIs(d1, q1, b, g, d, x, e, sym, symmetric, 2, 6, 7, 8, qz, qy, qx);
      TestedExt(b, g, iz, iy, ix, f0, f1, f2, h(0, 1, 2), h(3, 4, 5), h(6, 7, 8), qz, qy, qx);
    }
  }

  /**
   * With reflecting tables, entry (iz, iy, ix) of element e of Y grows by the sum over its
   * quadrature points of the test gradient against the stored matrix times the gradient.
   */
  lemma DiffusionStored(b: Table2, g: Table2, d: Table3, x: Table3, y0: Table3, ne: nat, d1: nat, q1: nat, sym: nat,
                        symmetric: bool, e: nat, iz: nat, iy: nat, ix: nat)
    requires q1 == d1 + 1 && Reflects(b, g, q1, d1) && e < ne && iz < d1 && iy < d1 && ix < d1
    ensures AllAdded(y0, D.AllActions(b, g, d, x, d1, q1, sym, symmetric), ne, d1)(e * d1 + iz, iy, ix) ==
            y0(e * d1 + iz, iy, ix)
            + Sum3(q1, q1, q1, DiffusionTerm(d1, q1, b, g, d, x, e, sym, symmetric, iz, iy, ix))
  {
    var o, xe := D.Material(d, e, sym, q1, symmetric), Element(x, e, d1);
    var f0, f1, f2 := FluxAt(d1, b, g, o, xe, 0), FluxAt(d1, b, g, o, xe, 1), FluxAt(d1, b, g, o, xe, 2);
    ResultIsDirect(b, g, d, x, y0, ne, d1, q1, sym, symmetric, e, iz, iy, ix);
    DirectByPoint(d1, q1, b, g, o, xe, iz, iy, ix);
    var tested := Tested(b, g, iz, iy, ix, f0, f1, f2);
    forall qz, qy, qx
      ensures tested(qz, qy, qx) == DiffusionTerm(d1, q1, b, g, d, x, e, sym, symmetric, iz, iy, ix)(qz, qy, qx)
    {
      FluxesAreStored(d1, q1, b, g, d, x, e, sym, symmetric, iz, iy, ix, qz, qy, qx, f0, f1, f2);
    }
    Sum3Ext(q1, q1, q1, tested, DiffusionTerm(d1, q1, b, g, d, x, e, sym, symmetric, iz, iy, ix));
  }

  /** The energy at a point: the gradient against the six stored components. */
  function StoredEnergy(d1: nat, q1: nat, b: Table2, g: Table2, d: Table3, x: Table3, e: nat, sym: nat): Table3 {
    (qz, qy, qx) =>
      var s := (k: nat) => d((e * sym + k) * q1 + qz, qy, qx);
      var gx := Interpolated(d1, b, b, g, x, e, qz, qy, qx);
      var gy := Interpolated(d1, b, g, b, x, e, qz, qy, qx);
      var gz := Interpolated(d1, g, b, b, x, e, qz, qy, qx);
      s(0) * gx * gx + s(3) * gy * gy + s(5) * gz * gz + 2.0 * (s(1) * gx * gy + s(2) * gx * gz + s(4) * gy * gz)
  }

  lemma Quadratic(s0: real, s1: real, s2: real, s3: real, s4: real, s5: real, gx: real, gy: real, gz: real)
    ensures Combined(Combined(s0, s1, s2, gx, gy, gz), Combined(s1, s3, s4, gx, gy, gz),
                     Combined(s2, s4, s5, gx, gy, gz), gx, gy, gz)
         == s0 * gx * gx + s3 * gy * gy + s5 * gz * gz + 2.0 * (s1 * gx * gy + s2 * gx * gz + s4 * gy * gz)
  {
  }

  lemma MaterialStored(d: Table3, e: nat, sym: nat, q1: nat, qz: int, qy: int, qx: int)
    ensures var o, s := D.Material(d, e, sym, q1, true), (k: nat) => d((e * sym + k) * q1 + qz, qy, qx);
            && SymmetricMaterial(o)
            && o(0, 0)(qz, qy, qx) == s(0) && o(0, 1)(qz, qy, qx) == s(1) && o(0, 2)(qz, qy, qx) == s(2)
            && o(1, 1)(qz, qy, qx) == s(3) && o(1, 2)(qz, qy, qx) == s(4) && o(2, 2)(qz, qy, qx) == s(5)
  {
  }

  lemma EnergyAt(d1: nat, b: Table2, g: Table2, o: (nat, nat) -> Table3, x: Table3, qz: int, qy: int, qx: int,
                 s0: real, s1: real, s2: real, s3: real, s4: real, s5: real, gx: real, gy: real, gz: real)
    requires SymmetricMaterial(o) && s0 == o(0, 0)(qz, qy, qx) && s1 == o(0, 1)(qz, qy, qx)
    requires s2 == o(0, 2)(qz, qy, qx) && s3 == o(1, 1)(qz, qy, qx) && s4 == o(1, 2)(qz, qy, qx)
    requires s5 == o(2, 2)(qz, qy, qx) && gx == Derivative(d1, b, g, 0, x)(qz, qy, qx)
    requires gy == Derivative(d1, b, g, 1, x)(qz, qy, qx) && gz == Derivative(d1, b, g, 2, x)(qz, qy, qx)
    ensures Form(d1, b, g, o, x, x)(qz, qy, qx) ==
            s0 * gx * gx + s3 * gy * gy + s5 * gz * gz + 2.0 * (s1 * gx * gy + s2 * gx * gz + s4 * gy * gz)
  {
    FormAt(d1, b, g, o, x, x, qz, qy, qx, s0, s1, s2, s3, s4, s5, gx, gy, gz, gx, gy, gz);
    Quadratic(s0, s1, s2, s3, s4, s5, gx, gy, gz);
  }

  lemma SlopesStored(d1: nat, b: Table2, g: Table2, x: Table3, e: nat, qz: int, qy: int, qx: int)
    ensures Derivative(d1, b, g, 0, Element(x, e, d1))(qz, qy, qx) == Interpolated(d1, b, b, g, x, e, qz, qy, qx)
    ensures Derivative(d1, b, g, 1, Element(x, e, d1))(qz, qy, qx) == Interpolated(d1, b, g, b, x, e, qz, qy, qx)
    ensures Derivative(d1, b, g, 2, Element(x, e, d1))(qz, qy, qx) == Interpolated(d1, g, b, b, x, e, qz, qy, qx)
  {
    InterpolatedIs(d1, b, b, g, x, e, qz, qy, qx);
    InterpolatedIs(d1, b, g, b, x, e, qz, qy, qx);
    InterpolatedIs(d1, g, b, b, x, e, qz, qy, qx);
  }

  lemma FormIsEnergy(d1: nat, q1: nat, b: Table2, g: Table2, d: Table3, x: Table3, e: nat, sym: nat,
                     qz: int, qy: int, qx: int)
    ensures Form(d1, b, g, D.Material(d, e, sym, q1, true), Element(x, e, d1), Element(x, e, d1))(qz, qy, qx) ==
            StoredEnergy(d1, q1, b, g, d, x, e, sym)(qz, qy, qx)
  {
    var o := D.Material(d, e, sym, q1, true);
    var s0, s1, s2 := o(0, 0)(qz, qy, qx), o(0, 1)(qz, qy, qx), o(0, 2)(qz, qy, qx);
    var s3, s4, s5 := o(1, 1)(qz, qy, qx), o(1, 2)(qz, qy, qx), o(2, 2)(qz, qy, qx);
    var gx, gy, gz := Interpolated(d1, b, b, g, x, e, qz, qy, qx), Interpolated(d1, b, g, b, x, e, qz, qy, qx),
            Interpolated(d1, g, b, b, x, e, qz, qy, qx);
    MaterialStored(d, e, sym, q1, qz, qy, qx);
    SlopesStored(d1, b, g, x, e, qz, qy, qx);
    EnergyAt(d1, b, g, o, Element(x, e, d1), qz, qy, qx, s0, s1, s2, s3, s4, s5, gx, gy, gz);
    StoredEnergyIs(d1, q1, b, g, d, x, e, sym, qz, qy, qx, s0, s1, s2, s3, s4, s5, gx, gy, gz);
  }

  lemma StoredEnergyIs(d1: nat, q1: nat, b: Table2, g: Table2, d: Table3, x: Table3, e: nat, sym: nat,
                       qz: int, qy: int, qx: int, s0: real, s1: real, s2: real, s3: real, s4: real, s5: real,
                       gx: real, gy: real, gz: real)
    requires var s := (k: nat) => d((e * sym + k) * q1 + qz, qy, qx);
             s0 == s(0) && s1 == s(1) && s2 == s(2) && s3 == s(3) && s4 == s(4) && s5 == s(5)
    requires gx == Interpolated(d1, b, b, g, x, e, qz, qy, qx) && gy == Interpolated(d1, b, g, b, x, e, qz, qy, qx)
    requires gz == Interpolated(d1, g, b, b, x, e, qz, qy, qx)
    ensures StoredEnergy(d1, q1, b, g, d, x, e, sym)(qz, qy, qx) ==
            s0 * gx * gx + s3 * gy * gy + s5 * gz * gz + 2.0 * (s1 * gx * gy + s2 * gx * gz + s4 * gy * gz)
  {
  }

  ghost function ActionTerm(b: Table2, g: Table2, d: Table3, x: Table3, e: nat, d1: nat, q1: nat, sym: nat): Table3 {
    (z, y, k) => x(e * d1 + z, y, k) * D.Action(b, g, d, x, e, d1, q1, sym, true)(z, y, k)
  }

  lemma ActionAt(b: Table2, g: Table2, d: Table3, x: Table3, e: nat, d1: nat, q1: nat, sym: nat, z: nat, y: nat, k: nat)
    requires q1 == d1 + 1 && Reflects(b, g, q1, d1) && z < d1 && y < d1 && k < d1
    ensures ActionTerm(b, g, d, x, e, d1, q1, sym)(z, y, k) ==
            Product(Element(x, e, d1), Direct(d1, q1, b, g, D.Material(d, e, sym, q1, true),
                                              Element(x, e, d1)))(z, y, k)
  {
    ActionIsDirect(b, g, d, x, e, d1, q1, sym, true, z, y, k);
  }

  /** X against what DIFFUSION3DPA makes of it, for one element: the energy over the quadrature points. */
  lemma DiffusionEnergy(b: Table2, g: Table2, d: Table3, x: Table3, e: nat, d1: nat, q1: nat, sym: nat)
    requires q1 == d1 + 1 && Reflects(b, g, q1, d1)
    ensures Sum3(d1, d1, d1, ActionTerm(b, g, d, x, e, d1, q1, sym)) ==
            Sum3(q1, q1, q1, StoredEnergy(d1, q1, b, g, d, x, e, sym))
  {
    var o, xe := D.Material(d, e, sym, q1, true), Element(x, e, d1);
    var form, energy := Form(d1, b, g, o, xe, xe), StoredEnergy(d1, q1, b, g, d, x, e, sym);
    var left, right := ActionTerm(b, g, d, x, e, d1, q1, sym), Product(xe, Direct(d1, q1, b, g, o, xe));
    forall z: nat, y: nat, k: nat | z < d1 && y < d1 && k < d1 ensures left(z, y, k) == right(z, y, k) {
      ActionAt(b, g, d, x, e, d1, q1, sym, z, y, k);
    }
    Sum3Ext(d1, d1, d1, left, right);
    DirectForm(d1, q1, b, g, o, xe, xe);
    forall qz, qy, qx ensures form(qz, qy, qx) == energy(qz, qy, qx) {
      FormIsEnergy(d1, q1, b, g, d, x, e, sym, qz, qy, qx);
    }
    Sum3Ext(q1, q1, q1, form, energy);
  }
}
