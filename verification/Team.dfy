/** How an OpenMP team splits n iterations in the hand-written two-phase loops. */
module Team {
  import opened Arith

  /** Where the chunk of thread t begins; the last chunk ends at n. */
  function Bound(n: nat, p: nat, t: nat): nat
    requires p >= 1
  {
    if t >= p then n else t * (n / p)
  }

  lemma BoundsOrdered(n: nat, p: nat, t: nat, u: nat)
    requires p >= 1 && t <= u <= p
    ensures Bound(n, p, t) <= Bound(n, p, u) <= n
  {
    var step := n / p;
    Split(n, p);
    MulMonotone(t, u, step);
    assert p * step <= n;
    MulMonotone(u, p, step);
  }

  /** Every thread gets n / p iterations, and the last one what is left over as well. */
  lemma ChunkLength(n: nat, p: nat, t: nat)
    requires t < p
    ensures Bound(n, p, t) == t * (n / p)
    ensures Bound(n, p, t + 1) - Bound(n, p, t) == n / p + if t == p - 1 then n % p else 0
  {
    Split(n, p);
    assert (t + 1) * (n / p) == t * (n / p) + n / p;
  }

  predicate InChunk(n: nat, p: nat, t: nat, i: int)
    requires p >= 1
  {
    Bound(n, p, t) <= i < Bound(n, p, t + 1)
  }

  /** The thread that owns iteration i. */
  function OwnerFrom(n: nat, p: nat, i: nat, t: nat): (owner: nat)
    requires p >= 1 && t < p && Bound(n, p, t) <= i < n
    ensures owner < p && InChunk(n, p, owner, i)
    decreases p - t
  {
    if i < Bound(n, p, t + 1) then t else OwnerFrom(n, p, i, t + 1)
  }

  function Owner(n: nat, p: nat, i: nat): (owner: nat)
    requires p >= 1 && i < n
    ensures owner < p && InChunk(n, p, owner, i)
  {
    OwnerFrom(n, p, i, 0)
  }

  /** The chunks of a team of any size partition the iterations. */
  lemma ChunksPartition(n: nat, p: nat, i: nat, t: nat)
    requires p >= 1 && i < n && t < p
    ensures InChunk(n, p, t, i) <==> t == Owner(n, p, i)
  {
    var o := Owner(n, p, i);
    if t < o { BoundsOrdered(n, p, t + 1, o); }
    if o < t { BoundsOrdered(n, p, o + 1, t); }
  }

  /** All chunk bounds of a team: 0 = bounds[0] <= ... <= bounds[p] = n. */
  predicate Chunks(bounds: seq<nat>, n: nat) {
    && |bounds| >= 2 && bounds[0] == 0 && bounds[|bounds| - 1] == n
    && forall t, u | 0 <= t <= u < |bounds| :: bounds[t] <= bounds[u]
  }

  function Bounds(n: nat, p: nat): (bounds: seq<nat>)
    requires p >= 1
    ensures |bounds| == p + 1 && Chunks(bounds, n)
  {
    var bounds := seq(p + 1, t requires 0 <= t <= p => Bound(n, p, t));
    assert forall t, u | 0 <= t <= u < |bounds| :: bounds[t] <= bounds[u] by {
      forall t, u | 0 <= t <= u <= p ensures Bound(n, p, t) <= Bound(n, p, u) { BoundsOrdered(n, p, t, u); }
    }
    bounds
  }

  /** The thread whose chunk holds i. */
  lemma ChunkOf(bounds: seq<nat>, n: nat, i: nat) returns (t: nat)
    requires Chunks(bounds, n) && i < n
    ensures t < |bounds| - 1 && bounds[t] <= i < bounds[t + 1]
  {
    t := 0;
    while bounds[t + 1] <= i
      invariant t < |bounds| - 1 && bounds[t] <= i
      decreases |bounds| - t
    {
      t := t + 1;
    }
  }

  /** The iterations of a parallel loop, which may run in any order. */
  function Iterations(n: nat): (all: set<int>)
    ensures forall i :: i in all <==> 0 <= i < n
  {
    if n == 0 then {} else Iterations(n - 1) + {n - 1}
  }
}
