/**
 * ENERGY by an OpenMP team: six static loops in one parallel region with no barrier
 * between them.
 */
module Energy {
  import opened RealArith
  import Arith
  import opened Team
  import opened Progress

  /**
   * What the six bodies only read.  Division and the square root are parameters: nothing
   * here depends on what they return.
   */
  datatype Data = Data(eOld: seq<real>, delvc: seq<real>, pNew: seq<real>, pOld: seq<real>, qOld: seq<real>,
                       work: seq<real>, compHalfStep: seq<real>, pHalfStep: seq<real>, bvc: seq<real>, pbvc: seq<real>,
                       qlOld: seq<real>, qqOld: seq<real>, vnewc: seq<real>, rho0: real, eCut: real, emin: real,
                       qCut: real, div: (real, real) -> real, sqrt: real -> real) {

    predicate Covers(n: nat) {
      && |eOld| >= n && |delvc| >= n && |pNew| >= n && |pOld| >= n && |qOld| >= n && |work| >= n && |compHalfStep| >= n
      && |pHalfStep| >= n && |bvc| >= n && |pbvc| >= n && |qlOld| >= n && |qqOld| >= n && |vnewc| >= n
    }
  }

  /** The two values of a zone that the loops update. */
  datatype Zone = Zone(e: real, q: real)

  function SoundSpeed(d: Data, square: real): real {
    var ssc := d.div(square, d.rho0);
    if ssc <= 0.1111111e-36 then 0.3333333e-18 else d.sqrt(ssc)
  }

  function Viscosity(d: Data, i: nat, square: real): real
    requires d.Covers(i + 1)
  {
    SoundSpeed(d, square) * d.qlOld[i] + d.qqOld[i]
  }

  function HalfStepSquare(d: Data, i: nat, e: real): real
    requires d.Covers(i + 1)
  {
    var vhalf := d.div(1.0, 1.0 + d.compHalfStep[i]);
    d.pbvc[i] * e + vhalf * vhalf * d.bvc[i] * d.pHalfStep[i]
  }

  function NewSquare(d: Data, i: nat, e: real): real
    requires d.Covers(i + 1)
  {
    d.pbvc[i] * e + d.vnewc[i] * d.vnewc[i] * d.bvc[i] * d.pNew[i]
  }

  function Cut(d: Data, e: real): real {
    var r := if Abs(e) < d.eCut then 0.0 else e;
    if r < d.emin then d.emin else r
  }

  function Drift(d: Data, i: nat, q: real, qTilde: real): real
    requires d.Covers(i + 1)
  {
    (7.0 * (d.pOld[i] + d.qOld[i]) - 8.0 * (d.pHalfStep[i] + q) + (d.pNew[i] + qTilde)) * d.delvc[i]
  }

  /** What loop k (from 0) makes of zone i. */
  function Body(d: Data, k: nat, i: nat, z: Zone): Zone
    requires d.Covers(i + 1)
  {
    if k == 0 then z.(e := d.eOld[i] - 0.5 * d.delvc[i] * (d.pOld[i] + d.qOld[i]) + 0.5 * d.work[i])
    else if k == 1 then z.(q := if d.delvc[i] > 0.0 then 0.0 else Viscosity(d, i, HalfStepSquare(d, i, z.e)))
    else if k == 2 then z.(e := z.e + 0.5 * d.delvc[i] * (3.0 * (d.pOld[i] + d.qOld[i]) - 4.0 * (d.pHalfStep[i] + z.q)))
    else if k == 3 then z.(e := Cut(d, z.e + 0.5 * d.work[i]))
    else if k == 4 then
      var qTilde := if d.delvc[i] > 0.0 then 0.0 else Viscosity(d, i, NewSquare(d, i, z.e));
      z.(e := Cut(d, z.e - d.div(Drift(d, i, z.q, qTilde), 6.0)))
    else if d.delvc[i] <= 0.0 then
      var q := Viscosity(d, i, NewSquare(d, i, z.e));
      z.(q := if Abs(q) < d.qCut then 0.0 else q)
    else z
  }

  /** Zone i after the first k loops. */
  function After(d: Data, k: nat, i: nat, z: Zone): Zone
    requires d.Covers(i + 1)
  {
    if k == 0 then z else Body(d, k - 1, i, After(d, k - 1, i, z))
  }

  // ---- the loop bodies on the arrays ---------------------------------------------------

  method BodyInPlace(d: Data, k: nat, i: nat, e: array<real>, q: array<real>)
    requires k < 6 && d.Covers(i + 1) && i < e.Length && i < q.Length && e != q
    modifies e, q
    ensures Zone(e[i], q[i]) == Body(d, k, i, Zone(old(e[i]), old(q[i])))
    ensures forall j | 0 <= j < e.Length && j != i :: e[j] == old(e[j])
    ensures forall j | 0 <= j < q.Length && j != i :: q[j] == old(q[j])
  {
    if k == 0 {
      e[i] := d.eOld[i] - 0.5 * d.delvc[i] * (d.pOld[i] + d.qOld[i]) + 0.5 * d.work[i];
    } else if k == 1 {
      HalfStepViscosity(d, i, e, q);
    } else if k == 2 {
      e[i] := e[i] + 0.5 * d.delvc[i] * (3.0 * (d.pOld[i] + d.qOld[i]) - 4.0 * (d.pHalfStep[i] + q[i]));
    } else if k == 3 {
      e[i] := e[i] + 0.5 * d.work[i];
      CutInPlace(d, i, e);
    } else if k == 4 {
      NewEnergy(d, i, e, q);
    } else {
      NewViscosity(d, i, e, q);
    }
  }

  method HalfStepViscosity(d: Data, i: nat, e: array<real>, q: array<real>)
    requires d.Covers(i + 1) && i < e.Length && i < q.Length && e != q
    modifies q
    ensures Zone(e[i], q[i]) == Body(d, 1, i, Zone(old(e[i]), old(q[i])))
    ensures forall j | 0 <= j < q.Length && j != i :: q[j] == old(q[j])
  {
    if d.delvc[i] > 0.0 {
      q[i] := 0.0;
    } else {
      q[i] := Viscous(d, i, HalfStepSquare(d, i, e[i]));
    }
  }

  method Viscous(d: Data, i: nat, square: real) returns (q: real)
    requires d.Covers(i + 1)
    ensures q == Viscosity(d, i, square)
  {
    var ssc := Root(d, square);
    q := ssc * d.qlOld[i] + d.qqOld[i];
  }

  method Root(d: Data, square: real) returns (ssc: real)
    ensures ssc == SoundSpeed(d, square)
  {
    ssc := d.div(square, d.rho0);
    if ssc <= 0.1111111e-36 {
      ssc := 0.3333333e-18;
    } else {
      ssc := d.sqrt(ssc);
    }
  }

  method CutInPlace(d: Data, i: nat, e: array<real>)
    requires i < e.Length
    modifies e
    ensures e[i] == Cut(d, old(e[i])) && forall j | 0 <= j < e.Length && j != i :: e[j] == old(e[j])
  {
    if Abs(e[i]) < d.eCut {
      e[i] := 0.0;
    }
    if e[i] < d.emin {
      e[i] := d.emin;
    }
  }

  method NewEnergy(d: Data, i: nat, e: array<real>, q: array<real>)
    requires d.Covers(i + 1) && i < e.Length && i < q.Length && e != q
    modifies e
    ensures Zone(e[i], q[i]) == Body(d, 4, i, Zone(old(e[i]), old(q[i])))
    ensures forall j | 0 <= j < e.Length && j != i :: e[j] == old(e[j])
  {
    var qTilde := 0.0;
    if d.delvc[i] <= 0.0 {
      qTilde := Viscous(d, i, NewSquare(d, i, e[i]));
    }
    e[i] := e[i] - d.div(Drift(d, i, q[i], qTilde), 6.0);
    CutInPlace(d, i, e);
  }

  method NewViscosity(d: Data, i: nat, e: array<real>, q: array<real>)
    requires d.Covers(i + 1) && i < e.Length && i < q.Length && e != q
    modifies q
    ensures Zone(e[i], q[i]) == Body(d, 5, i, Zone(old(e[i]), old(q[i])))
    ensures forall j | 0 <= j < q.Length && j != i :: q[j] == old(q[j])
  {
    if d.delvc[i] <= 0.0 {
      q[i] := Viscous(d, i, NewSquare(d, i, e[i]));
      if Abs(q[i]) < d.qCut {
        q[i] := 0.0;
      }
    }
  }

  // ---- one loop after another ------------------------------------------------------------

  method Sequential(d: Data, n: nat, e: array<real>, q: array<real>)
    requires d.Covers(n) && n <= e.Length && n <= q.Length && e != q
    modifies e, q
    ensures forall i | 0 <= i < n :: Zone(e[i], q[i]) == After(d, 6, i, Zone(old(e[i]), old(q[i])))
    ensures KeptFrom(n, e, old(e[..])) && KeptFrom(n, q, old(q[..]))
  {
    for k := 0 to 6
      invariant forall i | 0 <= i < n :: Zone(e[i], q[i]) == After(d, k, i, Zone(old(e[i]), old(q[i])))
      invariant KeptFrom(n, e, old(e[..])) && KeptFrom(n, q, old(q[..]))
    {
      RunLoop(d, k, n, e, q);
    }
  }

  /** One of the six loops. */
  method RunLoop(d: Data, k: nat, n: nat, e: array<real>, q: array<real>)
    requires k < 6 && d.Covers(n) && n <= e.Length && n <= q.Length && e != q
    modifies e, q
    ensures forall i | 0 <= i < n :: Zone(e[i], q[i]) == Body(d, k, i, Zone(old(e[i]), old(q[i])))
    ensures KeptFrom(n, e, old(e[..])) && KeptFrom(n, q, old(q[..]))
  {
    for i := 0 to n
      invariant forall j | 0 <= j < i :: Zone(e[j], q[j]) == Body(d, k, j, Zone(old(e[j]), old(q[j])))
      invariant KeptFrom(i, e, old(e[..])) && KeptFrom(i, q, old(q[..]))
    {
      BodyInPlace(d, k, i, e, q);
    }
  }

  // ---- the team ----------------------------------------------------------------------------

  /** A thread stands in loop `phase`, about to run iteration i of its chunk. */
  datatype Thread = Thread(phase: nat, i: nat)

  /** How many bodies have been applied to zone i of the chunk the thread owns. */
  function Applied(th: Thread, i: int): nat {
    if i < th.i then th.phase + 1 else th.phase
  }

  ghost predicate Placed(b: seq<nat>, threads: seq<Thread>) {
    |threads| == |b| - 1 && forall t | 0 <= t < |threads| ::
      b[t] <= threads[t].i <= b[t + 1] && threads[t].phase <= 6 && (threads[t].phase == 6 ==> threads[t].i == b[t])
  }

  /** The loops leave the entries from n on alone. */
  ghost predicate KeptFrom(n: nat, a: array<real>, a0: seq<real>)
    requires a.Length == |a0|
    reads a
  {
    forall j | n <= j < a.Length :: a[j] == a0[j]
  }

  /** The values of every chunk, given those the arrays started with. */
  ghost predicate Current(d: Data, b: seq<nat>, threads: seq<Thread>, e0: seq<real>, q0: seq<real>, e: array<real>,
                          q: array<real>)
    requires |b| >= 1 && d.Covers(b[|b| - 1]) && Chunks(b, b[|b| - 1]) && |threads| == |b| - 1
    requires b[|b| - 1] <= e.Length == |e0| && b[|b| - 1] <= q.Length == |q0|
    reads e, q
  {
    && (forall t, i | 0 <= t < |threads| && b[t] <= i < b[t + 1] ::
          Zone(e[i], q[i]) == After(d, Applied(threads[t], i), i, Zone(e0[i], q0[i])))
    && KeptFrom(b[|b| - 1], e, e0) && KeptFrom(b[|b| - 1], q, q0)
  }

  /** The team is under way: the arrays are as far as the threads say. */
  ghost predicate Running(d: Data, b: seq<nat>, threads: seq<Thread>, e0: seq<real>, q0: seq<real>, e: array<real>,
                          q: array<real>)
    reads e, q
  {
    && e != q && |b| >= 1 && d.Covers(b[|b| - 1]) && Chunks(b, b[|b| - 1]) && Placed(b, threads)
    && b[|b| - 1] <= e.Length == |e0| && b[|b| - 1] <= q.Length == |q0| && Current(d, b, threads, e0, q0, e, q)
  }

  /** Loop iterations and loop ends a thread still has before it. */
  function Weight(th: Thread, lo: nat, hi: nat): int {
    (6 - th.phase) * (hi - lo + 1) - (th.i - lo)
  }

  function Weights(b: seq<nat>, threads: seq<Thread>): seq<int>
    requires |threads| < |b|
  {
    seq(|threads|, t requires 0 <= t < |threads| => Weight(threads[t], b[t], b[t + 1]))
  }

  function Work(b: seq<nat>, threads: seq<Thread>): int
    requires |threads| < |b|
  {
    Total(Weights(b, threads))
  }

  lemma WorkPositive(b: seq<nat>, threads: seq<Thread>)
    requires |b| >= 1 && Placed(b, threads)
    ensures Work(b, threads) >= 0
  {
    var work := Weights(b, threads);
    forall t | 0 <= t < |work| ensures work[t] >= 0 {
      WeightStep(threads[t], b[t], b[t + 1]);
      assert work[t] == Weight(threads[t], b[t], b[t + 1]);
    }
    TotalPositive(work);
  }

  lemma WeightStep(th: Thread, lo: nat, hi: nat)
    requires lo <= th.i <= hi && th.phase <= 6 && (th.phase == 6 ==> th.i == lo)
    ensures Weight(th, lo, hi) >= 0
    ensures th.phase < 6 ==>
              Weight(Thread(th.phase + 1, lo), lo, hi) == Weight(th, lo, hi) + (th.i - lo) - (hi - lo + 1)
  {
    var l := hi - lo + 1;
    if th.phase < 6 {
      assert (6 - th.phase) * l == (5 - th.phase) * l + l;
      Arith.MulMonotone(0, 5 - th.phase, l);
    }
  }

  /** Chunks do not overlap. */
  lemma OwnChunk(b: seq<nat>, n: nat, t: nat, u: nat, i: nat)
    requires Chunks(b, n) && t < |b| - 1 && u < |b| - 1 && b[t] <= i < b[t + 1] && b[u] <= i < b[u + 1]
    ensures t == u
  {
  }

  method RunIteration(d: Data, b: seq<nat>, threads: seq<Thread>, t: nat, e: array<real>, q: array<real>,
                      ghost e0: seq<real>, ghost q0: seq<real>)
    returns (th: Thread)
    requires Running(d, b, threads, e0, q0, e, q)
    requires t < |threads| && threads[t].phase < 6 && threads[t].i < b[t + 1]
    modifies e, q
    ensures th == threads[t].(i := threads[t].i + 1) && Current(d, b, threads[t := th], e0, q0, e, q)
  {
    th := threads[t];
    var i := th.i;
    assert Applied(th, i) == th.phase;
    BodyInPlace(d, th.phase, i, e, q);
    th := th.(i := i + 1);
    forall u, j | 0 <= u < |threads| && b[u] <= j < b[u + 1]
      ensures Zone(e[j], q[j]) == After(d, Applied(threads[t := th][u], j), j, Zone(e0[j], q0[j]))
    {
      if j == i {
        OwnChunk(b, b[|b| - 1], t, u, i);
      } else {
        assert Applied(threads[t := th][u], j) == Applied(threads[u], j);
      }
    }
  }

  lemma NextLoop(d: Data, b: seq<nat>, threads: seq<Thread>, t: nat, e: array<real>, q: array<real>, e0: seq<real>,
                 q0: seq<real>)
    requires Running(d, b, threads, e0, q0, e, q)
    requires t < |threads| && threads[t].i == b[t + 1]
    ensures Current(d, b, threads[t := Thread(threads[t].phase + 1, b[t])], e0, q0, e, q)
  {
    var after := threads[t := Thread(threads[t].phase + 1, b[t])];
    forall u, j | 0 <= u < |threads| && b[u] <= j < b[u + 1]
      ensures Zone(e[j], q[j]) == After(d, Applied(after[u], j), j, Zone(e0[j], q0[j]))
    {
      assert Applied(after[u], j) == Applied(threads[u], j);
    }
  }

  lemma WorkDrops(b: seq<nat>, threads: seq<Thread>, t: nat, th: Thread)
    requires t < |threads| < |b| && Weight(th, b[t], b[t + 1]) < Weight(threads[t], b[t], b[t + 1])
    ensures Work(b, threads[t := th]) < Work(b, threads)
  {
    TotalDrops(Weights(b, threads), Weights(b, threads[t := th]), t);
  }

  lemma StepPlaced(b: seq<nat>, threads: seq<Thread>, t: nat, th: Thread)
    requires Placed(b, threads) && t < |threads| && threads[t].phase < 6
    requires th == if threads[t].i < b[t + 1] then threads[t].(i := threads[t].i + 1)
                   else Thread(threads[t].phase + 1, b[t])
    ensures Placed(b, threads[t := th])
  {
  }

  lemma StepWork(b: seq<nat>, threads: seq<Thread>, t: nat, th: Thread)
    requires Placed(b, threads) && t < |threads| && threads[t].phase < 6
    requires th == if threads[t].i < b[t + 1] then threads[t].(i := threads[t].i + 1)
                   else Thread(threads[t].phase + 1, b[t])
    ensures Placed(b, threads[t := th]) && Work(b, threads[t := th]) < Work(b, threads)
  {
    StepPlaced(b, threads, t, th);
    WeightStep(threads[t], b[t], b[t + 1]);
    WorkDrops(b, threads, t, th);
  }

  /** Some unfinished thread, chosen freely, runs its next iteration or moves to its next loop. */
  method AnyThreadSteps(d: Data, b: seq<nat>, threads: seq<Thread>, e: array<real>, q: array<real>,
                        ghost e0: seq<real>, ghost q0: seq<real>)
    returns (after: seq<Thread>)
    requires Running(d, b, threads, e0, q0, e, q)
    requires exists t | 0 <= t < |threads| :: threads[t].phase < 6
    modifies e, q
    ensures Running(d, b, after, e0, q0, e, q) && Work(b, after) < Work(b, threads)
  {
    var t: nat :| t < |threads| && threads[t].phase < 6;
    var th := threads[t];
    if th.i < b[t + 1] {
      th := RunIteration(d, b, threads, t, e, q, e0, q0);
    } else {
      NextLoop(d, b, threads, t, e, q, e0, q0);
      th := Thread(th.phase + 1, b[t]);
    }
    StepWork(b, threads, t, th);
    after := threads[t := th];
  }

  /**
   * However the threads overtake one another, the arrays end as after six sequential
   * loops: the thread that owns a zone owns it in all six.
   */
  method ByTeam(d: Data, n: nat, b: seq<nat>, e: array<real>, q: array<real>)
    requires d.Covers(n) && n <= e.Length && n <= q.Length && e != q && Chunks(b, n)
    modifies e, q
    ensures forall i | 0 <= i < n :: Zone(e[i], q[i]) == After(d, 6, i, Zone(old(e[i]), old(q[i])))
    ensures KeptFrom(n, e, old(e[..])) && KeptFrom(n, q, old(q[..]))
  {
    ghost var e0, q0 := e[..], q[..];
    var threads := seq(|b| - 1, t requires 0 <= t < |b| - 1 => Thread(0, b[t]));
    NoneBegun(d, b, threads, e, q);
    while exists t | 0 <= t < |threads| :: threads[t].phase < 6
      invariant Running(d, b, threads, e0, q0, e, q)
      decreases Work(b, threads)
    {
      WorkPositive(b, threads);
      threads := AnyThreadSteps(d, b, threads, e, q, e0, q0);
    }
    AllDone(d, b, threads, e0, q0, e, q);
  }

  lemma NoneBegun(d: Data, b: seq<nat>, threads: seq<Thread>, e: array<real>, q: array<real>)
    requires e != q && |b| >= 1 && d.Covers(b[|b| - 1]) && Chunks(b, b[|b| - 1]) && b[|b| - 1] <= e.Length
    requires b[|b| - 1] <= q.Length
    requires |threads| == |b| - 1 && forall t | 0 <= t < |threads| :: threads[t] == Thread(0, b[t])
    ensures Running(d, b, threads, e[..], q[..], e, q)
  {
  }

  lemma AllDone(d: Data, b: seq<nat>, threads: seq<Thread>, e0: seq<real>, q0: seq<real>, e: array<real>,
                q: array<real>)
    requires Running(d, b, threads, e0, q0, e, q)
    requires forall t | 0 <= t < |threads| :: threads[t].phase == 6
    ensures forall i | 0 <= i < b[|b| - 1] :: Zone(e[i], q[i]) == After(d, 6, i, Zone(e0[i], q0[i]))
  {
    forall i | 0 <= i < b[|b| - 1] ensures Zone(e[i], q[i]) == After(d, 6, i, Zone(e0[i], q0[i])) {
      var t := ChunkOf(b, b[|b| - 1], i);
      assert Applied(threads[t], i) == 6;
    }
  }

  /** What every zone satisfies at the end. */
  lemma FinalCuts(d: Data, i: nat, z: Zone)
    requires d.Covers(i + 1)
    ensures var r := After(d, 6, i, z);
            && r.e >= d.emin && (r.e == d.emin || r.e == 0.0 || Abs(r.e) >= d.eCut)
            && (if d.delvc[i] > 0.0 then r.q == 0.0 else r.q == 0.0 || Abs(r.q) >= d.qCut)
  {
    var z4 := After(d, 4, i, z);
    assert After(d, 5, i, z) == Body(d, 4, i, z4);
    assert After(d, 6, i, z) == Body(d, 5, i, Body(d, 4, i, z4));
    if d.delvc[i] > 0.0 {
      var z1 := After(d, 1, i, z);
      assert After(d, 2, i, z) == Body(d, 1, i, z1);
      assert After(d, 3, i, z) == Body(d, 2, i, Body(d, 1, i, z1));
    }
  }
}
