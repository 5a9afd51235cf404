/** ENERGY: the energy balance the six loops make in a zone, by Simpson's rule. */
module EnergyBalance {
  import opened Energy
  import opened RealArith

  ghost predicate Divides(div: (real, real) -> real) {
    forall a, b | b != 0.0 :: div(a, b) * b == a
  }

  /** Artificial viscosity for the square c2 of the sound speed, with a floor under it. */
  function Viscous(ql: real, qq: real, c2: real, sqrt: real -> real): real {
    (if c2 <= 0.1111111e-36 then 0.3333333e-18 else sqrt(c2)) * ql + qq
  }

  /** q_new after loop 2, given the energy e1 after loop 1. */
  ghost predicate HalfStepQ(d: Data, i: nat, e1: real, q1: real)
    requires d.Covers(i + 1)
  {
    var vhalf := d.div(1.0, 1.0 + d.compHalfStep[i]);
    q1 == if d.delvc[i] > 0.0 then 0.0
          else Viscous(d.qlOld[i], d.qqOld[i],
                       d.div(d.pbvc[i] * e1 + vhalf * vhalf * d.bvc[i] * d.pHalfStep[i], d.rho0), d.sqrt)
  }

  /** The viscosity of the new state for an energy e: q_tilde, and q_new before its cut. */
  ghost predicate NewQ(d: Data, i: nat, e: real, q: real)
    requires d.Covers(i + 1)
  {
    q == if d.delvc[i] > 0.0 then 0.0
         else Viscous(d.qlOld[i], d.qqOld[i],
                      d.div(d.pbvc[i] * e + d.vnewc[i] * d.vnewc[i] * d.bvc[i] * d.pNew[i], d.rho0), d.sqrt)
  }

  /** The energy after loop 1 is half a step on; that before the cut of loop 4 is the predictor. */
  lemma Predictor(d: Data, i: nat, z: Zone, p0: real, ph: real, e1: real, q1: real, h: real)
    requires d.Covers(i + 1) && p0 == d.pOld[i] + d.qOld[i] && ph == d.pHalfStep[i] + q1
    requires e1 == d.eOld[i] - d.delvc[i] * p0 / 2.0 + d.work[i] / 2.0 && HalfStepQ(d, i, e1, q1)
    requires h == d.eOld[i] + d.work[i] + d.delvc[i] * (p0 - 2.0 * ph) && Abs(h) >= d.eCut && h >= d.emin
    ensures After(d, 4, i, z) == Zone(h, q1)
  {
    TwoLoops(d, i, z, p0, e1, q1);
    var z3 := Body(d, 2, i, Zone(e1, q1));
    assert After(d, 3, i, z) == Body(d, 2, i, After(d, 2, i, z)) == z3;
    HalfStep(d.eOld[i], d.work[i], d.delvc[i], p0, ph, z3.e);
    CutNothing(d, h);
    assert After(d, 4, i, z) == Body(d, 3, i, After(d, 3, i, z)) == Zone(Cut(d, z3.e + 0.5 * d.work[i]), q1);
  }

  lemma TwoLoops(d: Data, i: nat, z: Zone, p0: real, e1: real, q1: real)
    requires d.Covers(i + 1) && p0 == d.pOld[i] + d.qOld[i]
    requires e1 == d.eOld[i] - d.delvc[i] * p0 / 2.0 + d.work[i] / 2.0 && HalfStepQ(d, i, e1, q1)
    ensures After(d, 2, i, z) == Zone(e1, q1)
  {
    FirstLoop(d, i, z, p0, e1);
    assert After(d, 1, i, z) == Body(d, 0, i, After(d, 0, i, z)) == Zone(e1, z.q);
    HalfStepBody(d, i, e1, z.q, q1);
    assert After(d, 2, i, z) == Body(d, 1, i, After(d, 1, i, z));
  }

  lemma FirstLoop(d: Data, i: nat, z: Zone, p0: real, e1: real)
    requires d.Covers(i + 1) && p0 == d.pOld[i] + d.qOld[i]
    requires e1 == d.eOld[i] - d.delvc[i] * p0 / 2.0 + d.work[i] / 2.0
    ensures Body(d, 0, i, z) == Zone(e1, z.q)
  {
  }

  lemma HalfStepBody(d: Data, i: nat, e1: real, q0: real, q1: real)
    requires d.Covers(i + 1) && HalfStepQ(d, i, e1, q1)
    ensures Body(d, 1, i, Zone(e1, q0)) == Zone(e1, q1)
  {
    ViscosityIs(d, i, HalfStepSquare(d, i, e1));
  }

  lemma ViscosityIs(d: Data, i: nat, square: real)
    requires d.Covers(i + 1)
    ensures Viscosity(d, i, square) == Viscous(d.qlOld[i], d.qqOld[i], d.div(square, d.rho0), d.sqrt)
  {
  }

  lemma HalfStep(e0: real, work: real, dv: real, p0: real, ph: real, e3: real)
    requires e3 == e0 - dv * p0 / 2.0 + work / 2.0 + 0.5 * dv * (3.0 * p0 - 4.0 * ph)
    ensures e3 + 0.5 * work == e0 + work + dv * (p0 - 2.0 * ph)
  {
  }

  /**
   * Where loops 4 and 5 cut nothing and division is exact, the energy a zone gains is the work
   * done on it less the integral of p + q over the change of volume, by Simpson's rule.
   */
  lemma Balance(d: Data, i: nat, z: Zone, p0: real, ph: real, pn: real, e1: real, q1: real, h: real, qTilde: real,
                e: real, q: real)
    requires d.Covers(i + 1) && Divides(d.div)
    requires p0 == d.pOld[i] + d.qOld[i] && ph == d.pHalfStep[i] + q1 && pn == d.pNew[i] + qTilde
    requires e1 == d.eOld[i] - d.delvc[i] * p0 / 2.0 + d.work[i] / 2.0 && HalfStepQ(d, i, e1, q1)
    requires h == d.eOld[i] + d.work[i] + d.delvc[i] * (p0 - 2.0 * ph) && Abs(h) >= d.eCut && h >= d.emin
    requires NewQ(d, i, h, qTilde)
    requires e == d.eOld[i] + d.work[i] - d.delvc[i] / 6.0 * (p0 + 4.0 * ph + pn) && Abs(e) >= d.eCut && e >= d.emin
    requires NewQ(d, i, e, q)
    ensures After(d, 6, i, z) == Zone(e, if Abs(q) < d.qCut then 0.0 else q)
  {
    Predictor(d, i, z, p0, ph, e1, q1, h);
    Corrected(d, i, p0, ph, pn, q1, h, qTilde, e);
    assert After(d, 5, i, z) == Body(d, 4, i, After(d, 4, i, z)) == Zone(e, q1);
    LastLoop(d, i, e1, q1, e, q);
    assert After(d, 6, i, z) == Body(d, 5, i, After(d, 5, i, z));
  }

  /** In an expanding zone no viscosity enters. */
  lemma ExpandingBalance(d: Data, i: nat, z: Zone, h: real, e: real)
    requires d.Covers(i + 1) && Divides(d.div) && d.delvc[i] > 0.0
    requires h == d.eOld[i] + d.work[i] + d.delvc[i] * (d.pOld[i] + d.qOld[i] - 2.0 * d.pHalfStep[i])
    requires e == d.eOld[i] + d.work[i]
                  - d.delvc[i] / 6.0 * (d.pOld[i] + d.qOld[i] + 4.0 * d.pHalfStep[i] + d.pNew[i])
    requires Abs(h) >= d.eCut && h >= d.emin && Abs(e) >= d.eCut && e >= d.emin
    ensures After(d, 6, i, z) == Zone(e, 0.0)
  {
    var p0 := d.pOld[i] + d.qOld[i];
    Balance(d, i, z, p0, d.pHalfStep[i], d.pNew[i], d.eOld[i] - d.delvc[i] * p0 / 2.0 + d.work[i] / 2.0, 0.0, h, 0.0, e,
            0.0);
  }

  lemma Corrected(d: Data, i: nat, p0: real, ph: real, pn: real, q1: real, h: real, qTilde: real, e: real)
    requires d.Covers(i + 1) && Divides(d.div)
    requires p0 == d.pOld[i] + d.qOld[i] && ph == d.pHalfStep[i] + q1 && pn == d.pNew[i] + qTilde
    requires h == d.eOld[i] + d.work[i] + d.delvc[i] * (p0 - 2.0 * ph) && NewQ(d, i, h, qTilde)
    requires e == d.eOld[i] + d.work[i] - d.delvc[i] / 6.0 * (p0 + 4.0 * ph + pn) && Abs(e) >= d.eCut && e >= d.emin
    ensures Body(d, 4, i, Zone(h, q1)) == Zone(e, q1)
  {
    Simpson(d.div, d.eOld[i], d.work[i], d.delvc[i], p0, ph, pn, h, Drift(d, i, q1, qTilde), e);
    CutNothing(d, e);
    NewBody(d, i, h, q1, qTilde);
  }

  lemma NewBody(d: Data, i: nat, h: real, q1: real, qTilde: real)
    requires d.Covers(i + 1) && NewQ(d, i, h, qTilde)
    ensures Body(d, 4, i, Zone(h, q1)) == Zone(Cut(d, h - d.div(Drift(d, i, q1, qTilde), 6.0)), q1)
  {
    ViscosityIs(d, i, NewSquare(d, i, h));
  }

  lemma CutNothing(d: Data, e: real)
    requires Abs(e) >= d.eCut && e >= d.emin
    ensures Cut(d, e) == e
  {
  }

  lemma LastLoop(d: Data, i: nat, e1: real, q1: real, e: real, q: real)
    requires d.Covers(i + 1) && HalfStepQ(d, i, e1, q1) && NewQ(d, i, e, q)
    ensures Body(d, 5, i, Zone(e, q1)) == Zone(e, if Abs(q) < d.qCut then 0.0 else q)
  {
    ViscosityIs(d, i, NewSquare(d, i, e));
  }

  lemma Simpson(div: (real, real) -> real, e0: real, work: real, dv: real, p0: real, ph: real, pn: real, h: real,
                drift: real, e: real)
    requires Divides(div) && h == e0 + work + dv * (p0 - 2.0 * ph)
    requires drift == (7.0 * p0 - 8.0 * ph + pn) * dv && e == e0 + work - dv / 6.0 * (p0 + 4.0 * ph + pn)
    ensures h - div(drift, 6.0) == e
  {
    assert div(drift, 6.0) * 6.0 == drift;
  }
}
