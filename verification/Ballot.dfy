/**
 * The warp ballots of the look-back: an unsigned mask with one bit per lane, lane 0
 * lowest.  The lane count is a parameter: 32 for CUDA and 64 for HIP.
 */
module Ballot {

  function Pow2(n: nat): (p: nat)
    ensures p > 0
  {
    if n == 0 then 1 else 2 * Pow2(n - 1)
  }

  /** The mask a ballot returns to every lane. */
  function Mask(votes: seq<bool>): (m: nat)
    ensures m < Pow2(|votes|)
  {
    if votes == [] then 0 else (if votes[0] then 1 else 0) + 2 * Mask(votes[1..])
  }

  /** Complement of an unsigned mask of the given width. */
  function Not(m: nat, width: nat): (r: nat)
    requires m < Pow2(width)
    ensures r < Pow2(width)
  {
    Pow2(width) - 1 - m
  }

  function And(a: nat, b: nat): nat {
    if a == 0 || b == 0 then 0 else (a % 2) * (b % 2) + 2 * And(a / 2, b / 2)
  }

  function Or(a: nat, b: nat): nat
    decreases a + b
  {
    if a == 0 then b else if b == 0 then a
    else (if a % 2 == 1 || b % 2 == 1 then 1 else 0) + 2 * Or(a / 2, b / 2)
  }

  /** The highest lane that voted, or -1. */
  function Top(votes: seq<bool>): (t: int)
    ensures -1 <= t < |votes|
    ensures t >= 0 ==> votes[t]
    ensures forall j | t < j < |votes| :: !votes[j]
  {
    if votes == [] then -1
    else
      var t := Top(votes[1..]);
      if t >= 0 then t + 1 else if votes[0] then 0 else -1
  }

  lemma {:induction false} MaskZero(votes: seq<bool>)
    ensures Mask(votes) == 0 <==> Top(votes) == -1
  {
    if votes != [] { MaskZero(votes[1..]); }
  }

  lemma {:induction false} MaskFull(votes: seq<bool>)
    ensures Mask(votes) == Pow2(|votes|) - 1 <==> forall j | 0 <= j < |votes| :: votes[j]
  {
    if votes != [] {
      MaskFull(votes[1..]);
      if forall j | 0 <= j < |votes[1..]| :: votes[1..][j] {
        assert forall j | 1 <= j < |votes| :: votes[j] == votes[1..][j - 1];
      } else {
        var j :| 0 <= j < |votes[1..]| && !votes[1..][j];
        assert !votes[j + 1];
      }
    }
  }

  function Negate(votes: seq<bool>): (n: seq<bool>)
    ensures |n| == |votes| && forall j | 0 <= j < |n| :: n[j] == !votes[j]
  {
    seq(|votes|, i requires 0 <= i < |votes| => !votes[i])
  }

  lemma {:induction false} NotMask(votes: seq<bool>)
    ensures Not(Mask(votes), |votes|) == Mask(Negate(votes))
  {
    if votes != [] {
      var n, rest := Negate(votes), votes[1..];
      NotMask(rest);
      assert n[1..] == Negate(rest);
      assert Mask(n) == (if n[0] then 1 else 0) + 2 * Mask(n[1..]);
      assert Mask(votes) == (if votes[0] then 1 else 0) + 2 * Mask(rest);
      assert Pow2(|votes|) == 2 * Pow2(|rest|);
    }
  }

  /** Masks compare as their highest votes do. */
  lemma {:induction false} MaskOrder(p: seq<bool>, q: seq<bool>)
    requires |p| == |q|
    requires Top(p) < Top(q)
    ensures Mask(p) < Mask(q)
  {
    if Top(q[1..]) < 0 {
      MaskZero(p);
    } else if Top(p[1..]) < 0 {
      MaskZero(p[1..]);
      MaskZero(q[1..]);
    } else {
      MaskOrder(p[1..], q[1..]);
    }
  }

  /**
   * The loop test of the look-back.  With the grid-ready lanes among the block-ready
   * lanes, ~blocks < grids says exactly that some grid count is ready and every lane
   * at or above the highest such lane has its block count ready.
   */
  lemma ReadyAboveTop(blocks: seq<bool>, grids: seq<bool>)
    requires |blocks| == |grids|
    requires forall j | 0 <= j < |grids| && grids[j] :: blocks[j]
    ensures Not(Mask(blocks), |blocks|) < Mask(grids)
       <==> Top(grids) >= 0 && forall j | Top(grids) <= j < |blocks| :: blocks[j]
  {
    NotMask(blocks);
    ReadyByTops(blocks, grids);
    TopsCompare(Negate(blocks), grids);
  }

  lemma TopsCompare(p: seq<bool>, q: seq<bool>)
    requires |p| == |q|
    requires forall j | 0 <= j < |p| && q[j] :: !p[j]
    ensures Mask(p) < Mask(q) <==> Top(p) < Top(q)
  {
    if Top(p) < Top(q) {
      MaskOrder(p, q);
    } else if Top(q) < Top(p) {
      MaskOrder(q, p);
    } else {
      MaskZero(p);
      MaskZero(q);
    }
  }

  lemma ReadyByTops(blocks: seq<bool>, grids: seq<bool>)
    requires |blocks| == |grids|
    ensures Top(Negate(blocks)) < Top(grids)
       <==> Top(grids) >= 0 && forall j | Top(grids) <= j < |blocks| :: blocks[j]
  {
    var n := Negate(blocks);
    if Top(n) >= Top(grids) && Top(grids) >= 0 {
      assert n[Top(n)] && !blocks[Top(n)];
    }
  }

  lemma {:induction false} Pow2Mask(votes: seq<bool>, lane: nat)
    requires lane < |votes|
    ensures Pow2(lane) > Mask(votes) <==> lane > Top(votes)
  {
    if lane == 0 {
      MaskZero(votes);
    } else {
      Pow2Mask(votes[1..], lane - 1);
    }
  }

  lemma {:induction false} MaskRight(lane: nat)
    ensures Or(Pow2(lane), Pow2(lane) - 1) == Pow2(lane + 1) - 1
  {
    if lane > 0 { MaskRight(lane - 1); }
  }

  lemma {:induction false} AndLow(votes: seq<bool>, n: nat)
    ensures And(Mask(votes), Pow2(n) - 1) == Mask(votes) <==> Top(votes) < n
  {
    if n == 0 || votes == [] {
      MaskZero(votes);
    } else {
      AndLow(votes[1..], n - 1);
      MaskZero(votes);
      MaskZero(votes[1..]);
      var m := Mask(votes);
      assert m / 2 == Mask(votes[1..]);
      assert (Pow2(n) - 1) / 2 == Pow2(n - 1) - 1;
      assert (Pow2(n) - 1) % 2 == 1;
    }
  }

  /** The bits of a lane and of the lanes to its right. */
  function MaskRightOf(lane: nat): nat {
    Or(Pow2(lane), Pow2(lane) - 1)
  }

  predicate OnlyRightOf(grids: nat, lane: nat) {
    grids == And(grids, MaskRightOf(lane))
  }

  lemma OnlyRightOfTop(grids: seq<bool>, lane: nat)
    ensures OnlyRightOf(Mask(grids), lane) <==> Top(grids) <= lane
  {
    MaskRight(lane);
    AndLow(grids, lane + 1);
  }

  /** What a lane adds once the wait is over. */
  datatype Share = BlockCount | GridCount | Nothing

  /** The two tests each lane makes on the final grid mask. */
  function Select(lane: nat, grids: nat): Share {
    if Pow2(lane) > grids then BlockCount
    else if OnlyRightOf(grids, lane) then GridCount
    else Nothing
  }

  /** Exactly the lanes above the top one take block counts, and only it takes a grid count. */
  lemma SelectByTop(grids: seq<bool>, lane: nat)
    requires lane < |grids|
    ensures Select(lane, Mask(grids)) ==
            if lane > Top(grids) then BlockCount else if lane == Top(grids) then GridCount else Nothing
  {
    Pow2Mask(grids, lane);
    OnlyRightOfTop(grids, lane);
  }
}
