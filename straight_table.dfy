/**
 * The possible-straights table (tables/generate_straight_hashtable.py).
 * A hash is the OR of 1 << rank over a set of ranks 0..12; the generator
 * decodes every hash below 16384 to the sorted list of its ranks and stores
 * a one-character verdict about straights in reach of those ranks.
 */
module StraightTable {
  import opened Bits

  const TableSize := 16384

  const NoPotentialStraight := 'x'
  const Straight := 'S'
  const MissingOneInTheMiddle := 'm'
  const MissingTwoInTheMiddle := 'M'
  const MissingTheHighestOrLowest := 'b'
  const MissingTwoHighestOrLowest := 'B'
  const MissingTwoCardsToStraight := 'A'

  /** The seven verdicts the table can hold. */
  predicate IsVerdict(v: char)
  {
    v == 'x' || v == 'S' || v == 'm' || v == 'M' || v == 'b' || v == 'B' || v == 'A'
  }

  /** Ranks listed in strictly increasing order, each a rank index 0..12. */
  predicate StrictlyIncreasing(cs: seq<int>)
  {
    (forall k :: 0 <= k < |cs| ==> 0 <= cs[k] < 13) &&
    (forall i, j :: 0 <= i < j < |cs| ==> cs[i] < cs[j])
  }

  /** get_hash: the OR of 1 << c over the ranks; bit i is set exactly when i is one of them. */
  function GetHash(cards: seq<int>): (h: bv16)
    requires forall k :: 0 <= k < |cards| ==> 0 <= cards[k] < 13
    ensures h < 8192
    ensures forall i :: 0 <= i < 16 ==> (Bit(h, i) <==> i in cards)
  {
    if cards == [] then 0
    else
      var rest := GetHash(cards[1..]);
      var h := Mask(cards[0]) | rest;
      HashStep(cards, rest, h);
      h
  }

  /** One step of get_hash: or-ing the first rank's bit into the hash of the rest. */
  lemma HashStep(cards: seq<int>, rest: bv16, h: bv16)
    requires cards != [] && forall k :: 0 <= k < |cards| ==> 0 <= cards[k] < 13
    requires rest < 8192 && forall i :: 0 <= i < 16 ==> (Bit(rest, i) <==> i in cards[1..])
    requires h == Mask(cards[0]) | rest
    ensures h < 8192
    ensures forall i :: 0 <= i < 16 ==> (Bit(h, i) <==> i in cards)
  {
    MaskBelow(cards[0]);
    OrBelow(Mask(cards[0]), rest);
    assert cards == [cards[0]] + cards[1..];
    forall i | 0 <= i < 16 ensures Bit(h, i) <==> i in cards {
      BitOfOr(cards[0], rest, i);
    }
  }

  /** The ranks whose bits are set in h, from rank i upwards to 12 (the generator's inner loop). */
  function CardsFrom(h: bv16, i: int): (cs: seq<int>)
    requires 0 <= i <= 13
    ensures StrictlyIncreasing(cs)
    ensures forall k :: 0 <= k < |cs| ==> i <= cs[k] < 13
    ensures forall c :: i <= c < 13 ==> (c in cs <==> Bit(h, c))
    decreases 13 - i
  {
    if i == 13 then []
    else if Bit(h, i) then [i] + CardsFrom(h, i + 1)
    else CardsFrom(h, i + 1)
  }

  /** The sorted ranks of a hash, as `generate` builds them. */
  function CardsOf(h: bv16): seq<int>
  {
    CardsFrom(h, 0)
  }

  /** Two strictly increasing lists with the same elements are the same list. */
  lemma {:induction false} SortedUnique(a: seq<int>, b: seq<int>)
    requires StrictlyIncreasing(a) && StrictlyIncreasing(b)
    requires forall c :: c in a <==> c in b
    ensures a == b
  {
    SameElementsBothEmpty(a, b);
    if a != [] {
      assert a[0] in b && b[0] in a;
      HeadIsLeast(a);
      HeadIsLeast(b);
      assert a[0] == b[0];
      Tail(a);
      Tail(b);
      SortedUnique(a[1..], b[1..]);
      assert a == [a[0]] + a[1..] && b == [b[0]] + b[1..];
    }
  }

  lemma SameElementsBothEmpty(a: seq<int>, b: seq<int>)
    requires forall c :: c in a <==> c in b
    ensures a == [] <==> b == []
  {
    if a != [] {
      var x := a[0];
      assert x in a;
      assert x in b;
    }
    if b != [] {
      var x := b[0];
      assert x in b;
      assert x in a;
    }
  }

  lemma HeadIsLeast(a: seq<int>)
    requires StrictlyIncreasing(a) && a != []
    ensures forall c :: c in a ==> a[0] <= c
  {
  }

  /** The tail of a strictly increasing list is the list without its head. */
  lemma Tail(a: seq<int>)
    requires StrictlyIncreasing(a) && a != []
    ensures StrictlyIncreasing(a[1..])
    ensures forall c :: c in a[1..] <==> c in a && c != a[0]
  {
    assert a == [a[0]] + a[1..];
    forall c | c in a[1..] ensures c != a[0] {
      var k :| 0 <= k < |a[1..]| && a[1..][k] == c;
      assert a[k + 1] == c;
    }
  }

  /** Decoding the hash of a sorted set of ranks gives the ranks back. */
  lemma HashRoundTrip(cs: seq<int>)
    requires StrictlyIncreasing(cs)
    ensures CardsOf(GetHash(cs)) == cs
  {
    var h := GetHash(cs);
    forall c ensures c in CardsOf(h) <==> c in cs {
      if 0 <= c < 13 {
        assert c in CardsOf(h) <==> Bit(h, c);
      }
    }
    SortedUnique(CardsOf(h), cs);
  }

  /** Bits 13 and above play no part in the decoded ranks. */
  lemma HighBitsIgnored(h: bv16)
    ensures CardsOf(h) == CardsOf(h & 0x1FFF)
  {
    var low := h & 0x1FFF;
    var a, b := CardsOf(h), CardsOf(low);
    forall c ensures c in a <==> c in b {
      if 0 <= c < 13 {
        LowBit(h, low, c);
      }
    }
    SortedUnique(a, b);
  }

  lemma LowBit(h: bv16, low: bv16, c: int)
    requires low == h & 0x1FFF && 0 <= c < 13
    ensures Bit(h, c) <==> Bit(low, c)
  {
  }

  /** check_3 on three sorted ranks. */
  function Check3(w: seq<int>): (v: char)
    requires |w| == 3
    ensures v == 'M' || v == 'A' || v == 'B' || v == 'x'
  {
    if w[2] - w[0] == 4 then MissingTwoInTheMiddle
    else if w[2] - w[0] == 3 then MissingTwoCardsToStraight
    else if w[2] - w[0] == 2 then MissingTwoHighestOrLowest
    else NoPotentialStraight
  }

  /** check_4 on four sorted ranks; an ace with a 4 or 5 below it counts as one card missing. */
  function Check4(w: seq<int>): (v: char)
    requires |w| == 4
    ensures v == 'm' || v == 'b' || v == 'x'
  {
    if w[3] - w[0] == 4 then MissingOneInTheMiddle
    else if w[3] - w[0] == 3 then MissingTheHighestOrLowest
    else if w[3] == 12 then
      if w[2] == 2 || w[2] == 3 then MissingOneInTheMiddle else NoPotentialStraight
    else NoPotentialStraight
  }

  /** check_5 on five sorted ranks: five in a row, or the ace-to-five wheel. */
  function Check5(w: seq<int>): (v: char)
    requires |w| == 5
    ensures v == 'S' || v == 'x'
  {
    if w[4] - w[0] == 4 then Straight
    else if w[4] == 12 && w[3] == 3 then Straight
    else NoPotentialStraight
  }

  /** The first of two verdicts that is not 'x' (an early `return value` in the generator). */
  function Or(a: char, b: char): char
  {
    if a != NoPotentialStraight then a else b
  }

  /** find_value, branch by branch as the generator writes it. */
  function FindValue(cs: seq<int>): (v: char)
    ensures IsVerdict(v)
  {
    if |cs| < 3 then NoPotentialStraight
    else if |cs| == 3 then Check3(cs)
    else if |cs| == 4 then
      Or(Check4(cs), Or(Check3(cs[1..4]), Check3(cs[0..3])))
    else if |cs| == 5 then
      Or(Check5(cs),
      Or(Check4(cs[1..5]), Or(Check4(cs[0..4]),
      Or(Check3(cs[2..5]), Or(Check3(cs[1..4]), Check3(cs[0..3]))))))
    else if |cs| == 6 then
      Or(Check5(cs[1..6]), Or(Check5(cs[0..5]),
      Or(Check4(cs[2..6]), Or(Check4(cs[1..5]), Or(Check4(cs[0..4]),
      Or(Check3(cs[3..6]), Or(Check3(cs[2..5]), Or(Check3(cs[1..4]), Check3(cs[0..3])))))))))
    else if |cs| == 7 then
      Or(Check5(cs[2..7]), Or(Check5(cs[1..6]), Or(Check5(cs[0..5]),
      Or(Check4(cs[3..7]), Or(Check4(cs[2..6]), Or(Check4(cs[1..5]), Or(Check4(cs[0..4]),
      Or(Check3(cs[4..7]), Or(Check3(cs[3..6]), Or(Check3(cs[2..5]), Or(Check3(cs[1..4]), Check3(cs[0..3]))))))))))))
    else NoPotentialStraight
  }

  /** The check for a window of width 3, 4 or 5. */
  function Check(w: seq<int>): char
    requires 3 <= |w| <= 5
  {
    if |w| == 3 then Check3(w) else if |w| == 4 then Check4(w) else Check5(w)
  }

  /** The first verdict other than 'x' among the width-k windows starting at start, start - 1, ..., 0. */
  function Scan(cs: seq<int>, k: int, start: int): char
    requires 3 <= k <= 5 && start + k <= |cs|
    decreases start
  {
    if start < 0 then NoPotentialStraight
    else Or(Check(cs[start..start + k]), Scan(cs, k, start - 1))
  }

  /**
   * Reference definition: for up to seven ranks, try every five-card window
   * from the highest down, then every four-card window, then every three-card one.
   */
  function Windowed(cs: seq<int>): char
  {
    if |cs| < 3 || |cs| > 7 then NoPotentialStraight
    else
      Or(if |cs| >= 5 then Scan(cs, 5, |cs| - 5) else NoPotentialStraight,
      Or(if |cs| >= 4 then Scan(cs, 4, |cs| - 4) else NoPotentialStraight,
         Scan(cs, 3, |cs| - 3)))
  }

  lemma ScanStep(cs: seq<int>, k: int, start: int)
    requires 3 <= k <= 5 && 0 <= start && start + k <= |cs|
    ensures Scan(cs, k, start) == Or(Check(cs[start..start + k]), Scan(cs, k, start - 1))
  {
  }

  lemma ScanEmpty(cs: seq<int>, k: int)
    requires 3 <= k <= 5 && k - 1 <= |cs|
    ensures Scan(cs, k, -1) == NoPotentialStraight
  {
  }

  /** The generator's length-by-length cascade is the uniform window search. */
  lemma FindValueIsWindowed(cs: seq<int>)
    ensures FindValue(cs) == Windowed(cs)
  {
    match |cs|
    case 3 => WindowedOf3(cs);
    case 4 => WindowedOf4(cs);
    case 5 => WindowedOf5(cs);
    case 6 => WindowedOf6(cs);
    case 7 => WindowedOf7(cs);
    case _ =>
  }

  lemma WindowedOf3(cs: seq<int>)
    requires |cs| == 3
    ensures FindValue(cs) == Windowed(cs)
  {
    ScanEmpty(cs, 3);
    ScanStep(cs, 3, 0);
  }

  lemma WindowedOf4(cs: seq<int>)
    requires |cs| == 4
    ensures FindValue(cs) == Windowed(cs)
  {
    ScanEmpty(cs, 3);
    ScanStep(cs, 3, 0);
    ScanStep(cs, 3, 1);
    ScanEmpty(cs, 4);
    ScanStep(cs, 4, 0);
  }

  lemma WindowedOf5(cs: seq<int>)
    requires |cs| == 5
    ensures FindValue(cs) == Windowed(cs)
  {
    ScanEmpty(cs, 3);
    ScanStep(cs, 3, 0);
    ScanStep(cs, 3, 1);
    ScanStep(cs, 3, 2);
    ScanEmpty(cs, 4);
    ScanStep(cs, 4, 0);
    ScanStep(cs, 4, 1);
    ScanEmpty(cs, 5);
    ScanStep(cs, 5, 0);
  }

  lemma WindowedOf6(cs: seq<int>)
    requires |cs| == 6
    ensures FindValue(cs) == Windowed(cs)
  {
    ScanEmpty(cs, 3);
    ScanStep(cs, 3, 0);
    ScanStep(cs, 3, 1);
    ScanStep(cs, 3, 2);
    ScanStep(cs, 3, 3);
    ScanEmpty(cs, 4);
    ScanStep(cs, 4, 0);
    ScanStep(cs, 4, 1);
    ScanStep(cs, 4, 2);
    ScanEmpty(cs, 5);
    ScanStep(cs, 5, 0);
    ScanStep(cs, 5, 1);
  }

  lemma WindowedOf7(cs: seq<int>)
    requires |cs| == 7
    ensures FindValue(cs) == Windowed(cs)
  {
    ScanEmpty(cs, 3);
    ScanStep(cs, 3, 0);
    ScanStep(cs, 3, 1);
    ScanStep(cs, 3, 2);
    ScanStep(cs, 3, 3);
    ScanStep(cs, 3, 4);
    ScanEmpty(cs, 4);
    ScanStep(cs, 4, 0);
    ScanStep(cs, 4, 1);
    ScanStep(cs, 4, 2);
    ScanStep(cs, 4, 3);
    ScanEmpty(cs, 5);
    ScanStep(cs, 5, 0);
    ScanStep(cs, 5, 1);
    ScanStep(cs, 5, 2);
  }

  /** The ranks contain five in a row starting at rank s. */
  predicate HasRun(cs: seq<int>, s: int)
  {
    forall r :: s <= r < s + 5 ==> r in cs
  }

  /** The ranks contain a straight: five in a row, or ace-2-3-4-5 (ranks 12, 0, 1, 2, 3). */
  predicate HasStraight(cs: seq<int>)
  {
    (exists s :: 0 <= s <= 8 && HasRun(cs, s)) ||
    (12 in cs && 0 in cs && 1 in cs && 2 in cs && 3 in cs)
  }

  /** In a strictly increasing list the values step by at least one per index. */
  lemma Spread(cs: seq<int>, i: int, j: int)
    requires StrictlyIncreasing(cs) && 0 <= i <= j < |cs|
    ensures cs[j] - cs[i] >= j - i
    decreases j - i
  {
    if i < j {
      Spread(cs, i + 1, j);
    }
  }

  /** A five-card window that check_5 calls a straight holds a straight. */
  lemma Check5Sound(cs: seq<int>, p: int)
    requires StrictlyIncreasing(cs) && 0 <= p && p + 5 <= |cs|
    requires Check5(cs[p..p + 5]) == 'S'
    ensures HasStraight(cs)
  {
    var w := cs[p..p + 5];
    forall k | 0 <= k < 5 ensures w[k] == cs[p + k] && cs[p + k] in cs {
      assert cs[p + k] == cs[p..p + 5][k];
    }
    if w[4] - w[0] == 4 {
      forall j | p <= j < p + 5 ensures cs[j] == cs[p] + (j - p) {
        Spread(cs, p, j);
        Spread(cs, j, p + 4);
      }
      forall r | cs[p] <= r < cs[p] + 5 ensures r in cs {
        var j := p + (r - cs[p]);
        assert cs[j] == r;
      }
      assert HasRun(cs, cs[p]);
    } else {
      forall j | p <= j < p + 4 ensures cs[j] == j - p {
        Spread(cs, p, j);
        Spread(cs, j, p + 3);
      }
      assert cs[p] == 0 && cs[p + 1] == 1 && cs[p + 2] == 2 && cs[p + 3] == 3;
    }
  }

  /** A width-5 scan only ever answers 'S' when one of its windows is a straight. */
  lemma ScanFiveSound(cs: seq<int>, start: int)
    requires StrictlyIncreasing(cs) && start + 5 <= |cs|
    requires Scan(cs, 5, start) == 'S'
    ensures HasStraight(cs)
    decreases start
  {
    if Check5(cs[start..start + 5]) == 'S' {
      Check5Sound(cs, start);
    } else {
      ScanFiveSound(cs, start - 1);
    }
  }

  /** A width-5 scan answers 'S' as soon as any window at or below start is a straight. */
  lemma ScanFiveFinds(cs: seq<int>, start: int, p: int)
    requires start + 5 <= |cs| && 0 <= p <= start
    requires Check5(cs[p..p + 5]) == 'S'
    ensures Scan(cs, 5, start) == 'S'
    decreases start
  {
    if start > p && Check5(cs[start..start + 5]) != 'S' {
      ScanFiveFinds(cs, start - 1, p);
    }
  }

  /** Only the width-5 scan can answer 'S'. */
  lemma NarrowScanNotStraight(cs: seq<int>, k: int, start: int)
    requires 3 <= k <= 4 && start + k <= |cs|
    ensures Scan(cs, k, start) != 'S'
    decreases start
  {
    if start >= 0 {
      NarrowScanNotStraight(cs, k, start - 1);
    }
  }

  /** 'S' in the table means the ranks hold a straight. */
  lemma StraightVerdictSound(cs: seq<int>)
    requires StrictlyIncreasing(cs)
    requires FindValue(cs) == 'S'
    ensures HasStraight(cs)
  {
    FindValueIsWindowed(cs);
    var n := |cs|;
    if n >= 4 {
      NarrowScanNotStraight(cs, 4, n - 4);
    }
    NarrowScanNotStraight(cs, 3, n - 3);
    ScanFiveSound(cs, n - 5);
  }

  /** In a strictly increasing list a smaller value sits at a smaller index. */
  lemma IndexOrder(cs: seq<int>, i: int, j: int)
    requires StrictlyIncreasing(cs) && 0 <= i < |cs| && 0 <= j < |cs| && cs[i] < cs[j]
    ensures i < j
  {
  }

  /** Five ranks in a row sit in five consecutive slots of a sorted list. */
  lemma RunIsWindow(cs: seq<int>, s: int) returns (p: int)
    requires StrictlyIncreasing(cs) && HasRun(cs, s)
    ensures 0 <= p && p + 5 <= |cs| && cs[p] == s && cs[p + 4] == s + 4
  {
    assert s in cs && s + 1 in cs && s + 2 in cs && s + 3 in cs && s + 4 in cs;
    p := IndexOf(cs, s);
    var i1, i2, i3, q := IndexOf(cs, s + 1), IndexOf(cs, s + 2), IndexOf(cs, s + 3), IndexOf(cs, s + 4);
    IndexOrder(cs, p, i1);
    IndexOrder(cs, i1, i2);
    IndexOrder(cs, i2, i3);
    IndexOrder(cs, i3, q);
    Spread(cs, p, q);
    assert q == p + 4;
  }

  /** The position of a value known to be in the list. */
  function IndexOf(cs: seq<int>, v: int): (i: int)
    requires v in cs
    ensures 0 <= i < |cs| && cs[i] == v
  {
    if cs[0] == v then 0 else 1 + IndexOf(cs[1..], v)
  }

  /** Five ranks in a row among five to seven ranks always give 'S'. */
  lemma RunGivesStraightVerdict(cs: seq<int>, s: int)
    requires StrictlyIncreasing(cs) && 5 <= |cs| <= 7 && HasRun(cs, s)
    ensures FindValue(cs) == 'S'
  {
    var p := RunIsWindow(cs, s);
    assert cs[p..p + 5][0] == s && cs[p..p + 5][4] == s + 4;
    ScanFiveFinds(cs, |cs| - 5, p);
    FindValueIsWindowed(cs);
  }

  /**
   * The wheel is recognised only when no card lies between the five and the
   * ace: 2, 3, 4, 5, 7, A holds ace-to-five but gets 'm', not 'S'.
   */
  lemma WheelBehindGap()
    ensures HasStraight([0, 1, 2, 3, 5, 12])
    ensures FindValue([0, 1, 2, 3, 5, 12]) == 'm'
  {
    assert [0, 1, 2, 3, 5, 12][1..6] == [1, 2, 3, 5, 12];
    assert [0, 1, 2, 3, 5, 12][0..5] == [0, 1, 2, 3, 5];
    assert [0, 1, 2, 3, 5, 12][2..6] == [2, 3, 5, 12];
    assert [0, 1, 2, 3, 5, 12][1..5] == [1, 2, 3, 5];
  }

  /** A table entry: the verdict for the ranks of hash h. */
  function Entry(h: int): (v: char)
    requires 0 <= h < TableSize
    ensures IsVerdict(v)
  {
    FindValue(CardsOf(h as bv16))
  }

  /** Looking up the OR of the rank hashes of any cards gives the verdict for their distinct ranks, sorted. */
  lemma LookupOfHand(cards: seq<int>, sorted: seq<int>)
    requires forall k :: 0 <= k < |cards| ==> 0 <= cards[k] < 13
    requires StrictlyIncreasing(sorted) && (forall c :: c in sorted <==> c in cards)
    ensures Entry(GetHash(cards) as int) == FindValue(sorted)
  {
    var h := GetHash(cards);
    assert h as int as bv16 == h;
    forall c ensures c in CardsOf(h) <==> c in sorted {
      if 0 <= c < 13 {
        assert c in CardsOf(h) <==> Bit(h, c);
      }
    }
    SortedUnique(CardsOf(h), sorted);
  }

  /** generate(): fills the table entry by entry. */
  method Generate() returns (table: array<char>)
    ensures table.Length == TableSize
    ensures forall h :: 0 <= h < TableSize ==> table[h] == Entry(h)
  {
    table := new char[TableSize](_ => NoPotentialStraight);
    var h := 0;
    while h < TableSize
      invariant 0 <= h <= TableSize
      invariant forall k :: 0 <= k < h ==> table[k] == Entry(k)
    {
      ghost var before := table[..];
      var v := Entry(h);
      table[h] := v;
      forall k | 0 <= k <= h ensures table[k] == Entry(k) {
        if k < h {
          assert table[k] == before[k];
        }
      }
      h := h + 1;
    }
  }
}
