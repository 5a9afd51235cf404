/**
 * A team running two loops over its chunks with a barrier between them: first loop, barrier,
 * a walk over the results of the threads before, second loop.  Every iteration is a step of
 * its own and threads interleave freely.
 */
module TwoPhase {
  import opened Progress

  datatype Phase = First(i: nat) | AtBarrier | Gathering(ip: nat) | Second(i: nat) | Finished

  /** `acc` is the thread's running sum of the loop it is in. */
  datatype Thread<T> = Thread(phase: Phase, acc: T)

  predicate CanStep<T>(threads: seq<Thread<T>>, t: nat)
    requires t < |threads|
  {
    match threads[t].phase
    case AtBarrier => forall u | 0 <= u < |threads| :: !threads[u].phase.First?
    case Finished => false
    case _ => true
  }

  predicate BeforeBarrier(phase: Phase) {
    phase.First? || phase.AtBarrier?
  }

  /** While a thread is unfinished, some thread can step: the barrier blocks no one for good. */
  lemma SomeoneCanStep<T>(threads: seq<Thread<T>>, t: nat)
    requires t < |threads| && threads[t].phase != Finished
    ensures exists u | 0 <= u < |threads| :: CanStep(threads, u)
  {
    if u: nat :| u < |threads| && threads[u].phase.First? {
      assert CanStep(threads, u);
    } else {
      assert CanStep(threads, t);
    }
  }

  function Left(from: int, to: int): nat {
    if from < to then to - from else 0
  }

  /** Steps a thread still has to make, at most. */
  function Weight(b: seq<nat>, t: nat, phase: Phase): nat
    requires t + 1 < |b|
  {
    var n := b[|b| - 1];
    match phase
    case Finished => 0
    case Second(i) => 1 + Left(i, b[t + 1])
    case Gathering(ip) => 3 + n + Left(ip, t)
    case AtBarrier => 4 + n + t
    case First(i) => 5 + n + t + Left(i, b[t + 1])
  }

  function Weights<T>(b: seq<nat>, threads: seq<Thread<T>>): seq<int>
    requires |threads| < |b|
  {
    seq(|threads|, t requires 0 <= t < |threads| => Weight(b, t, threads[t].phase))
  }

  function Work<T>(b: seq<nat>, threads: seq<Thread<T>>): nat
    requires |threads| < |b|
  {
    TotalPositive(Weights(b, threads));
    Total(Weights(b, threads))
  }

  /** A thread that gets nearer its end lowers the work of the team. */
  lemma WorkDrops<T>(b: seq<nat>, threads: seq<Thread<T>>, after: seq<Thread<T>>, t: nat)
    requires t < |threads| == |after| < |b| && after == threads[t := after[t]]
    requires Weight(b, t, after[t].phase) < Weight(b, t, threads[t].phase)
    ensures Work(b, after) < Work(b, threads)
  {
    TotalDrops(Weights(b, threads), Weights(b, after), t);
  }
}
