/** What CONVECTION3DPA computes: the test functions against velocity times gradient. */
module ConvectionOperator {
  import opened RealArith
  import opened Convection
  import opened DiffusionOperator
  import opened Elements
  import opened Sums

  lemma FlipAlongX(n: nat, t: Table3, m: Table2, z: int, y: int, q: int)
    ensures Flip(AlongX(n, t, m))(q, y, z) == AlongZ(n, Flip(t), m)(q, y, z)
  {
    forall k ensures TermX(t, m, z, y, q)(k) == TermZ(Flip(t), m, q, y, z)(k) {}
    SumExt(n, TermX(t, m, z, y, q), TermZ(Flip(t), m, q, y, z));
  }

  lemma AlongYExt(n: nat, s: Table3, t: Table3, m: Table2, z: int, q: int, x: int)
    requires forall z, y, x :: s(z, y, x) == t(z, y, x)
    ensures AlongY(n, s, m)(z, q, x) == AlongY(n, t, m)(z, q, x)
  {
    forall k ensures TermY(s, m, z, q, x)(k) == TermY(t, m, z, q, x)(k) {}
    SumExt(n, TermY(s, m, z, q, x), TermY(t, m, z, q, x));
  }

  lemma AlongZExt(n: nat, s: Table3, t: Table3, m: Table2, q: int, y: int, x: int)
    requires forall z, y, x :: s(z, y, x) == t(z, y, x)
    ensures AlongZ(n, s, m)(q, y, x) == AlongZ(n, t, m)(q, y, x)
  {
    forall k ensures TermZ(s, m, q, y, x)(k) == TermZ(t, m, q, y, x)(k) {}
    SumExt(n, TermZ(s, m, q, y, x), TermZ(t, m, q, y, x));
  }

  lemma FlipAlongY(n: nat, t: Table3, m: Table2, z: int, q: int, x: int)
    ensures Flip(AlongY(n, t, m))(x, q, z) == AlongY(n, Flip(t), m)(x, q, z)
  {
    forall k ensures TermY(t, m, z, q, x)(k) == TermY(Flip(t), m, x, q, z)(k) {}
    SumExt(n, TermY(t, m, z, q, x), TermY(Flip(t), m, x, q, z));
  }

  lemma FlipAlongZ(n: nat, t: Table3, m: Table2, q: int, y: int, x: int)
    ensures Flip(AlongZ(n, t, m))(x, y, q) == AlongX(n, Flip(t), m)(x, y, q)
  {
    forall k ensures TermZ(t, m, q, y, x)(k) == TermX(Flip(t), m, x, y, q)(k) {}
    SumExt(n, TermZ(t, m, q, y, x), TermX(Flip(t), m, x, y, q));
  }

  /** Turning the table over turns the order of contraction over. */
  lemma FlippedPass(n: nat, m: Table2, t: Table3, iz: int, iy: int, ix: int)
    ensures AlongX(n, AlongY(n, AlongZ(n, t, m), m), m)(iz, iy, ix)
         == AlongZ(n, AlongY(n, AlongX(n, Flip(t), m), m), m)(ix, iy, iz)
  {
    var a := AlongZ(n, t, m);
    forall z, y, x ensures Flip(a)(x, y, z) == AlongX(n, Flip(t), m)(x, y, z) { FlipAlongZ(n, t, m, z, y, x); }
    var b := AlongY(n, a, m);
    forall z, y, x ensures Flip(b)(x, y, z) == AlongY(n, AlongX(n, Flip(t), m), m)(x, y, z) {
      FlipAlongY(n, a, m, z, y, x);
      AlongYExt(n, Flip(a), AlongX(n, Flip(t), m), m, x, y, z);
    }
    FlipAlongX(n, b, m, iz, iy, ix);
    AlongZExt(n, Flip(b), AlongY(n, AlongX(n, Flip(t), m), m), m, ix, iy, iz);
  }

  /** Contracting z first, then y, then x is the full triple sum too. */
  lemma FactorZYX(n: nat, m: Table2, t: Table3, iz: int, iy: int, ix: int)
    ensures AlongX(n, AlongY(n, AlongZ(n, t, m), m), m)(iz, iy, ix) == Tensor(n, n, n, m, m, m, t)(iz, iy, ix)
  {
    FlippedPass(n, m, t, iz, iy, ix);
    FactorXYZ(n, n, n, m, m, m, Flip(t), ix, iy, iz);
    var w, v := Weighted(m, m, m, iz, iy, ix, t), Weighted(m, m, m, ix, iy, iz, Flip(t));
    forall x, y, z ensures v(x, y, z) == Flip(w)(x, y, z) {
      Reordered(m(ix, x), m(iy, y), m(iz, z), t(z, y, x));
    }
    Sum3Ext(n, n, n, v, Flip(w));
    Sum3Flip(n, n, n, w);
  }

  lemma Reordered(a: real, b: real, c: real, t: real)
    ensures a * b * c * t == c * b * a * t
  {
  }

  /** Velocity times gradient at a quadrature point, each derivative one triple sum. */
  function Flow(d1: nat, b: Table2, g: Table2, o: nat -> Table3, u: Table3): Table3 {
    (z, y, x) =>
      Combined(o(0)(z, y, x), o(1)(z, y, x), o(2)(z, y, x), Derivative(d1, b, g, 0, u)(z, y, x),
               Derivative(d1, b, g, 1, u)(z, y, x), Derivative(d1, b, g, 2, u)(z, y, x))
  }

  function DirectConvection(d1: nat, q1: nat, b: Table2, g: Table2, bt: Table2, o: nat -> Table3, u: Table3): Table3 {
    Tensor(q1, q1, q1, bt, bt, bt, Flow(d1, b, g, o, u))
  }

  lemma SlopesAreDerivatives(d1: nat, u: Table3, b: Table2, g: Table2, z: int, y: int, x: int)
    ensures var s := Convection.Gradient(d1, u, b, g);
            && s.x(z, y, x) == Derivative(d1, b, g, 0, u)(z, y, x)
            && s.y(z, y, x) == Derivative(d1, b, g, 1, u)(z, y, x)
            && s.z(z, y, x) == Derivative(d1, b, g, 2, u)(z, y, x)
  {
    FactorXYZ(d1, d1, d1, b, b, g, u, z, y, x);
    FactorXYZ(d1, d1, d1, b, g, b, u, z, y, x);
    FactorXYZ(d1, d1, d1, g, b, b, u, z, y, x);
  }

  lemma FlowAt(d1: nat, b: Table2, g: Table2, o: nat -> Table3, u: Table3, z: int, y: int, x: int)
    ensures var s := Convection.Gradient(d1, u, b, g);
            Advected(o, s.x, s.y, s.z)(z, y, x) == Flow(d1, b, g, o, u)(z, y, x)
  {
    SlopesAreDerivatives(d1, u, b, g, z, y, x);
    var x0, x1, x2 := Derivative(d1, b, g, 0, u)(z, y, x), Derivative(d1, b, g, 1, u)(z, y, x),
            Derivative(d1, b, g, 2, u)(z, y, x);
    var a0, a1, a2 := o(0)(z, y, x), o(1)(z, y, x), o(2)(z, y, x);
    AdvectedIs(o, Convection.Gradient(d1, u, b, g), z, y, x, x0, x1, x2, a0, a1, a2);
    FlowIs(d1, b, g, o, u, z, y, x, x0, x1, x2, a0, a1, a2);
  }

  lemma AdvectedIs(o: nat -> Table3, s: Slopes, z: int, y: int, x: int, x0: real, x1: real, x2: real, a0: real,
                   a1: real, a2: real)
    requires x0 == s.x(z, y, x) && x1 == s.y(z, y, x) && x2 == s.z(z, y, x)
    requires a0 == o(0)(z, y, x) && a1 == o(1)(z, y, x) && a2 == o(2)(z, y, x)
    ensures Advected(o, s.x, s.y, s.z)(z, y, x) == a0 * x0 + a1 * x1 + a2 * x2
  {
  }

  lemma FlowIs(d1: nat, b: Table2, g: Table2, o: nat -> Table3, u: Table3, z: int, y: int, x: int,
               x0: real, x1: real, x2: real, a0: real, a1: real, a2: real)
    requires x0 == Derivative(d1, b, g, 0, u)(z, y, x) && x1 == Derivative(d1, b, g, 1, u)(z, y, x)
    requires x2 == Derivative(d1, b, g, 2, u)(z, y, x)
    requires a0 == o(0)(z, y, x) && a1 == o(1)(z, y, x) && a2 == o(2)(z, y, x)
    ensures Flow(d1, b, g, o, u)(z, y, x) == Combined(a0, a1, a2, x0, x1, x2)
  {
  }

  /** The eight stages compute the direct sum, for any tables and velocity. */
  lemma ConvectionIsDirect(d1: nat, q1: nat, b: Table2, g: Table2, bt: Table2, o: nat -> Table3, u: Table3, iz: int,
                           iy: int, ix: int)
    ensures Convection.Staged(d1, q1, b, g, bt, o, u)(iz, iy, ix) ==
            DirectConvection(d1, q1, b, g, bt, o, u)(iz, iy, ix)
  {
    var s := Convection.Gradient(d1, u, b, g);
    var f := Advected(o, s.x, s.y, s.z);
    FactorZYX(q1, bt, f, iz, iy, ix);
    forall z, y, x ensures f(z, y, x) == Flow(d1, b, g, o, u)(z, y, x) {
      FlowAt(d1, b, g, o, u, z, y, x);
    }
    TensorExt(q1, q1, q1, bt, bt, bt, f, Flow(d1, b, g, o, u), iz, iy, ix);
  }

  /** What Y holds after the run, entry by entry. */
  lemma ConvectionResult(b: Table2, g: Table2, bt: Table2, d: Table3, x: Table3, y0: Table3, ne: nat, d1: nat, q1: nat,
                         e: nat, iz: nat, iy: nat, ix: nat)
    requires d1 >= 1 && e < ne && iz < d1
    ensures AllAdded(y0, Convection.AllActions(b, g, bt, d, x, d1, q1), ne, d1)(e * d1 + iz, iy, ix) ==
            y0(e * d1 + iz, iy, ix) + DirectConvection(d1, q1, b, g, bt, Velocity(d, e, q1),
                                                       Element(x, e, d1))(iz, iy, ix)
  {
    AllAddedAt(y0, Convection.AllActions(b, g, bt, d, x, d1, q1), ne, d1, e, iz, iy, ix);
    ConvectionIsDirect(d1, q1, b, g, bt, Velocity(d, e, q1), Element(x, e, d1), iz, iy, ix);
  }
}
