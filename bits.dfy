/**
 * One-hot 16-bit rank hashes: the value hash of a card (src/card.cpp) and
 * the straights hash of the generator are ORs of 1 << rank, and a rank is
 * present exactly when its bit is set.
 */
module Bits {

  /** A bit position 0..15 as a 16-bit shift amount. */
  function Idx(i: int): (k: bv16)
    requires 0 <= i < 16
  {
    if i < 8 then
      if i < 4 then (if i == 0 then 0 else if i == 1 then 1 else if i == 2 then 2 else 3)
      else (if i == 4 then 4 else if i == 5 then 5 else if i == 6 then 6 else 7)
    else
      if i < 12 then (if i == 8 then 8 else if i == 9 then 9 else if i == 10 then 10 else 11)
      else (if i == 12 then 12 else if i == 13 then 13 else if i == 14 then 14 else 15)
  }

  lemma IdxValue(i: int)
    requires 0 <= i < 16
    ensures Idx(i) as int == i
  {
  }

  /** 1 << i as a 16-bit hash. */
  function Mask(i: int): bv16
    requires 0 <= i < 16
  {
    (1 as bv16) << Idx(i)
  }

  /** Bit i of a hash is set (`hash & (1 << i) > 0`). */
  predicate Bit(h: bv16, i: int)
    requires 0 <= i < 16
  {
    h & Mask(i) != 0
  }

  lemma IdxInjective(c: int, i: int)
    requires 0 <= c < 16 && 0 <= i < 16
    ensures Idx(c) < 16 && (Idx(c) == Idx(i) <==> c == i)
  {
  }

  lemma ShiftBit(c: bv16, i: bv16)
    requires c < 16 && i < 16
    ensures ((1 as bv16) << c) & ((1 as bv16) << i) != 0 <==> c == i
  {
  }

  /** The only bit of 1 << c is bit c. */
  lemma MaskBit(c: int, i: int)
    requires 0 <= c < 16 && 0 <= i < 16
    ensures Bit(Mask(c), i) <==> c == i
  {
    IdxInjective(c, i);
    IdxInjective(i, c);
    ShiftBit(Idx(c), Idx(i));
  }

  lemma OrBit(a: bv16, b: bv16, m: bv16)
    ensures (a | b) & m != 0 <==> a & m != 0 || b & m != 0
  {
  }

  lemma MaskOrBit(c: int, rest: bv16, i: int)
    requires 0 <= c < 16 && 0 <= i < 16
    ensures Bit(Mask(c) | rest, i) <==> Bit(Mask(c), i) || Bit(rest, i)
  {
    OrBit(Mask(c), rest, Mask(i));
  }

  /** Or-ing in 1 << c sets bit c and keeps every other bit. */
  lemma BitOfOr(c: int, rest: bv16, i: int)
    requires 0 <= c < 16 && 0 <= i < 16
    ensures Bit(Mask(c) | rest, i) <==> c == i || Bit(rest, i)
  {
    MaskOrBit(c, rest, i);
    MaskBit(c, i);
  }

  lemma OrBelow(a: bv16, b: bv16)
    requires a < 8192 && b < 8192
    ensures a | b < 8192
  {
  }

  lemma ShiftBelow(k: bv16)
    requires k < 13
    ensures (1 as bv16) << k < 8192
  {
  }

  lemma MaskBelow(c: int)
    requires 0 <= c < 13
    ensures Mask(c) < 8192
  {
    IdxInjective(c, c);
    ShiftBelow(Idx(c));
  }

  /** A hash below 1 << 13 read as an integer stays below 8192. */
  lemma BelowAsInt(h: bv16)
    requires h < 8192
    ensures h as int < 8192
  {
  }

  lemma AsIntRoundTrip(h: bv16)
    ensures h as int as bv16 == h
  {
  }

  lemma OrComm(a: bv16, b: bv16)
    ensures a | b == b | a
  {
  }

  /** Or-ing 1 << c into the hash of a list of ranks below 13 gives the hash of the list with c added. */
  lemma OrInto(rest: bv16, c: int, ranks: seq<int>)
    requires 0 <= c < 13 && rest < 8192
    requires forall i :: 0 <= i < 16 ==> (Bit(rest, i) <==> i in ranks)
    ensures rest | Mask(c) < 8192
    ensures forall i :: 0 <= i < 16 ==> (Bit(rest | Mask(c), i) <==> i in ranks + [c])
  {
    OrComm(rest, Mask(c));
    MaskBelow(c);
    OrBelow(Mask(c), rest);
    forall i | 0 <= i < 16
      ensures Bit(rest | Mask(c), i) <==> i in ranks + [c]
    {
      BitOfOr(c, rest, i);
    }
  }

  /** The OR of 1 << r over a list of ranks, in order. */
  function OrOf(ranks: seq<int>): bv16
    requires forall k :: 0 <= k < |ranks| ==> 0 <= ranks[k] < 13
  {
    if ranks == [] then 0 else OrOf(ranks[..|ranks| - 1]) | Mask(ranks[|ranks| - 1])
  }

  /** Bit i of the OR is set exactly when i is listed. */
  lemma {:induction false} OrOfBits(ranks: seq<int>)
    requires forall k :: 0 <= k < |ranks| ==> 0 <= ranks[k] < 13
    ensures OrOf(ranks) < 8192
    ensures forall i :: 0 <= i < 16 ==> (Bit(OrOf(ranks), i) <==> i in ranks)
  {
    if ranks != [] {
      var pre := ranks[..|ranks| - 1];
      OrOfBits(pre);
      assert ranks == pre + [ranks[|ranks| - 1]];
      OrInto(OrOf(pre), ranks[|ranks| - 1], pre);
    }
  }

  /** OR-ing equal hashes with the mask of a rank gives equal results. */
  lemma OrSame(a: bv16, b: bv16, h: bv16, c: int)
    requires 0 <= c < 13 && a == b && h == Mask(c)
    ensures a | h == b | Mask(c)
  {
  }
}
