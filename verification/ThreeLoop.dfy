/** INDEXLIST_3LOOP: flag, scan the counts in place, scatter. */
module ThreeLoop {
  import opened IndexList
  import Scan
  import opened Team

  /** The scanned flags are the counts, whatever stood after the last flag. */
  lemma {:induction false} ScannedFlags(x: seq<real>, flags: seq<int>, i: nat)
    requires i <= |x| < |flags| && forall j | 0 <= j < |x| :: flags[j] == Bit(x, j)
    ensures Scan.Prefix(Scan.COUNTS, flags, i) == Count(x, i)
  {
    if i > 0 { ScannedFlags(x, flags, i - 1); }
  }

  /** First and third loop: a parallel loop runs its iterations in any order. */
  method Flag(x: array<real>, counts: array<int>)
    requires counts.Length == x.Length + 1
    modifies counts
    ensures forall i | 0 <= i < x.Length :: counts[i] == Bit(x[..], i)
  {
    var pending := Iterations(x.Length);
    while pending != {}
      invariant forall i | i in pending :: 0 <= i < x.Length
      invariant forall i | 0 <= i < x.Length && i !in pending :: counts[i] == Bit(x[..], i)
      decreases |pending|
    {
      var i :| i in pending;
      counts[i] := if x[i] < 0.0 then 1 else 0;
      pending := pending - {i};
    }
  }

  /** One iteration of the third loop. */
  method ScatterOne(ghost x: seq<real>, counts: array<int>, list: array<int>, i: nat)
    requires counts.Length == |x| + 1 && list.Length >= |x| && counts != list && i < |x|
    requires counts[i] == Count(x, i) && counts[i + 1] == Count(x, i + 1)
    modifies list
    ensures list[..] == Place(x, old(list[..]), i)
  {
    SlotInList(x, i);
    if counts[i] != counts[i + 1] {
      list[counts[i]] := i;
    }
  }

  method Scatter(ghost x: seq<real>, counts: array<int>, list: array<int>)
    requires counts.Length == |x| + 1 && list.Length >= |x| && counts != list
    requires forall i | 0 <= i <= |x| :: counts[i] == Count(x, i)
    modifies list
    ensures Count(x, |x|) <= list.Length && list[..Count(x, |x|)] == Selected(x, |x|)
    ensures forall k | Count(x, |x|) <= k < list.Length :: list[k] == old(list[k])
  {
    var pending := Iterations(counts.Length - 1);
    while pending != {}
      invariant forall i | i in pending :: 0 <= i < |x|
      invariant forall j | 0 <= j < |x| && j !in pending :: Placed(x, list[..], j)
      invariant forall k | Count(x, |x|) <= k < list.Length :: list[k] == old(list[k])
      decreases |pending|
    {
      var i :| i in pending;
      ghost var before := list[..];
      ScatterOne(x, counts, list, i);
      KeepAll(x, before, i);
      pending := pending - {i};
    }
    FilledList(x, list[..]);
  }

  lemma KeepAll(x: seq<real>, list: seq<int>, i: nat)
    requires i < |x| <= |list|
    ensures forall j | 0 <= j < |x| && (j == i || Placed(x, list, j)) :: Placed(x, Place(x, list, i), j)
    ensures forall k | Count(x, |x|) <= k < |list| :: Place(x, list, i)[k] == list[k]
  {
    forall j | 0 <= j < |x| && (j == i || Placed(x, list, j))
      ensures Placed(x, Place(x, list, i), j) { PlaceKeeps(x, list, i, j); }
    forall k | Count(x, |x|) <= k < |list| ensures Place(x, list, i)[k] == list[k] { PlaceAbove(x, list, i, k); }
  }

  method ScatterInOrder(ghost x: seq<real>, counts: array<int>, list: array<int>)
    requires counts.Length == |x| + 1 && list.Length >= |x| && counts != list
    requires forall i | 0 <= i <= |x| :: counts[i] == Count(x, i)
    modifies list
    ensures Count(x, |x|) <= list.Length && list[..Count(x, |x|)] == Selected(x, |x|)
    ensures forall k | Count(x, |x|) <= k < list.Length :: list[k] == old(list[k])
  {
    for i := 0 to counts.Length - 1
      invariant forall j | 0 <= j < i :: Placed(x, list[..], j)
      invariant forall k | Count(x, |x|) <= k < list.Length :: list[k] == old(list[k])
    {
      ghost var before := list[..];
      ScatterOne(x, counts, list, i);
      KeepAll(x, before, i);
    }
    FilledList(x, list[..]);
  }

  /** The sequential form. */
  method Sequential(x: array<real>, list: array<int>) returns (len: int)
    requires list.Length >= x.Length
    modifies list
    ensures len == Count(x[..], x.Length) <= list.Length
    ensures list[..len] == Selected(x[..], x.Length)
    ensures forall k | len <= k < list.Length :: list[k] == old(list[k])
  {
    var counts := new int[x.Length + 1];
    for i := 0 to x.Length
      invariant forall j | 0 <= j < i :: counts[j] == Bit(x[..], j)
      invariant list[..] == old(list[..])
    {
      counts[i] := if x[i] < 0.0 then 1 else 0;
    }
    ghost var v, flags := x[..], counts[..];
    Scan.Sequential(Scan.COUNTS, counts, counts);
    forall i | 0 <= i <= x.Length ensures counts[i] == Count(v, i) { ScannedFlags(v, flags, i); }
    ScatterInOrder(v, counts, list);
    len := counts[x.Length];
  }

  /** Three parallel loops, for any team size and any schedule of each. */
  method ByTeam(x: array<real>, list: array<int>, p: nat) returns (len: int)
    requires list.Length >= x.Length && p >= 1
    modifies list
    ensures len == Count(x[..], x.Length) <= list.Length
    ensures list[..len] == Selected(x[..], x.Length)
    ensures forall k | len <= k < list.Length :: list[k] == old(list[k])
  {
    var counts := new int[x.Length + 1];
    Flag(x, counts);
    ghost var v, flags := x[..], counts[..];
    Scan.ByTeam(Scan.COUNTS, counts, counts, p);
    forall i | 0 <= i <= x.Length ensures counts[i] == Count(v, i) { ScannedFlags(v, flags, i); }
    Scatter(v, counts, list);
    len := counts[x.Length];
  }
}
