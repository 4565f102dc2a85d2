/**
 * The pairs / triplets table (tables/generate_pair_triplet_hashtable.py).
 * A hash packs four 3-bit counters: how many ranks occur once, twice,
 * three and four times on the board. The table maps each hash to the
 * triple (four of a kind?, number of triplets, number of pairs), and
 * count_hash maps a per-rank count to its contribution to the hash.
 */
module PairTable {

  const HashSize := 592

  /** 8 to the power n. */
  function Pow8(n: nat): (p: int)
    ensures p >= 1
  {
    if n == 0 then 1 else 8 * Pow8(n - 1)
  }

  /** get_hash / count_hash: a rank seen v times adds 1 << (3 * (v - 1)), nothing when v is 0. */
  function CountHash(v: int): (h: int)
    requires 0 <= v <= 4
    ensures v == 0 ==> h == 0
    ensures v == 1 ==> h == 1
    ensures v == 2 ==> h == 8
    ensures v == 3 ==> h == 64
    ensures v == 4 ==> h == 512
  {
    if v > 0 then Pow8(v - 1) else 0
  }

  /** hash_to_count: the counters [0, singletons, pairs, triplets, quadruplets], all zero unless they account for 3 to 7 cards. */
  function HashToCount(h: int): (counts: seq<int>)
    requires 0 <= h
    ensures |counts| == 5 && counts[0] == 0
    ensures forall i :: 0 <= i < 5 ==> 0 <= counts[i] < 8
    ensures counts != [0, 0, 0, 0, 0] <==> 3 <= Weighted(Fields(h)) <= 7
    ensures counts != [0, 0, 0, 0, 0] ==> counts == Fields(h)
  {
    var counts := Fields(h);
    if 3 <= Weighted(counts) <= 7 then counts else [0, 0, 0, 0, 0]
  }

  /** The four 3-bit fields of a hash, after a leading 0 for "no card". */
  function Fields(h: int): seq<int>
    requires 0 <= h
  {
    [0, h % 8, (h / 8) % 8, (h / 64) % 8, (h / 512) % 8]
  }

  /** The number of cards the counters stand for: sum of i * counts[i]. */
  function Weighted(counts: seq<int>): int
    requires |counts| == 5
  {
    counts[1] + 2 * counts[2] + 3 * counts[3] + 4 * counts[4]
  }

  /** find_value: (four of a kind, triplets, pairs) read off the counters. */
  function FindValue(c: seq<int>): (v: (int, int, int))
    requires |c| == 5
    ensures 0 <= v.0 <= 1 && 0 <= v.1 <= 2 && 0 <= v.2 <= 3
  {
    if c[4] > 0 then
      if c[3] > 0 then (1, 1, 0)
      else if c[2] > 0 then (1, 0, 1)
      else (1, 0, 0)
    else if c[3] > 0 then
      if c[3] == 2 then (0, 2, 0)
      else if c[2] == 2 then (0, 1, 2)
      else if c[2] == 1 then (0, 1, 1)
      else (0, 1, 0)
    else if c[2] > 0 then
      if c[2] == 3 then (0, 0, 3)
      else if c[2] == 2 then (0, 0, 2)
      else if c[2] == 1 then (0, 0, 1)
      else (0, 0, 0)
    else (0, 0, 0)
  }

  /**
   * For counters that account for at most seven cards, the cascade of
   * special cases is exactly (quadruplets, triplets, pairs).
   */
  lemma FindValueMeaning(c: seq<int>)
    requires |c| == 5 && forall i :: 0 <= i < 5 ==> 0 <= c[i]
    requires Weighted(c) <= 7
    ensures FindValue(c) == (c[4], c[3], c[2])
  {
  }

  /** A table entry: the value of the counters a hash decodes to. */
  function Entry(h: int): (v: (int, int, int))
    requires 0 <= h < HashSize
  {
    FindValue(HashToCount(h))
  }

  /** How many of the per-rank counts equal v. */
  function NumWith(count: seq<int>, v: int): (n: nat)
    ensures n <= |count|
  {
    if count == [] then 0 else NumWith(count[..|count| - 1], v) + (if count[|count| - 1] == v then 1 else 0)
  }

  /** A per-rank count histogram: each rank seen at most four times. */
  predicate IsHistogram(count: seq<int>)
  {
    forall i :: 0 <= i < |count| ==> 0 <= count[i] <= 4
  }

  /** The number of cards a histogram counts. */
  function Total(count: seq<int>): int
  {
    if count == [] then 0 else Total(count[..|count| - 1]) + count[|count| - 1]
  }

  /** The board hash the evaluator builds: count_hash summed over the ranks in order. */
  function BoardHash(count: seq<int>): (h: int)
    requires IsHistogram(count)
  {
    if count == [] then 0 else BoardHash(count[..|count| - 1]) + CountHash(count[|count| - 1])
  }

  /** The board hash and the card total, in terms of how many ranks occur once, twice, three and four times. */
  lemma {:induction false} BoardHashDigits(count: seq<int>)
    requires IsHistogram(count)
    ensures BoardHash(count) == NumWith(count, 1) + 8 * NumWith(count, 2) + 64 * NumWith(count, 3) + 512 * NumWith(count, 4)
    ensures Total(count) == NumWith(count, 1) + 2 * NumWith(count, 2) + 3 * NumWith(count, 3) + 4 * NumWith(count, 4)
  {
    if count != [] {
      BoardHashDigits(count[..|count| - 1]);
    }
  }

  /**
   * Board analysis: for three to seven cards the board hash is inside the
   * table and decodes to the numbers of singletons, pairs, triplets and
   * quadruplets, so the table entry reports (quadruplets, triplets, pairs).
   */
  lemma BoardLookup(count: seq<int>)
    requires IsHistogram(count) && 3 <= Total(count) <= 7
    ensures 0 <= BoardHash(count) < HashSize
    ensures HashToCount(BoardHash(count)) == [0, NumWith(count, 1), NumWith(count, 2), NumWith(count, 3), NumWith(count, 4)]
    ensures Entry(BoardHash(count)) == (NumWith(count, 4), NumWith(count, 3), NumWith(count, 2))
  {
    BoardHashDigits(count);
    DecodeCounters(NumWith(count, 1), NumWith(count, 2), NumWith(count, 3), NumWith(count, 4), BoardHash(count));
  }

  /** Counters of 3 to 7 cards pack into a hash inside the table that decodes to them and reports (quadruplets, triplets, pairs). */
  lemma DecodeCounters(a: int, b: int, c: int, d: int, h: int)
    requires 0 <= a && 0 <= b && 0 <= c && 0 <= d && 3 <= a + 2 * b + 3 * c + 4 * d <= 7
    requires h == a + 8 * b + 64 * c + 512 * d
    ensures 0 <= h < HashSize && HashToCount(h) == [0, a, b, c, d] && Entry(h) == (d, c, b)
  {
    DecodeFields(a, b, c, d);
    assert Weighted(Fields(h)) == a + 2 * b + 3 * c + 4 * d;
    FindValueMeaning([0, a, b, c, d]);
  }

  /** Four counters below 8 packed into 3-bit fields unpack to themselves. */
  lemma DecodeFields(a: int, b: int, c: int, d: int)
    requires 0 <= a < 8 && 0 <= b < 8 && 0 <= c < 8 && 0 <= d < 8
    ensures Fields(a + 8 * b + 64 * c + 512 * d) == [0, a, b, c, d]
  {
    var h := a + 8 * b + 64 * c + 512 * d;
    assert h % 8 == a && h / 8 == b + 8 * c + 64 * d;
    var h1 := b + 8 * c + 64 * d;
    assert h1 % 8 == b && h1 / 8 == c + 8 * d;
    assert h / 64 == h1 / 8;
    assert h / 512 == (c + 8 * d) / 8 == d;
  }

  /** Every hash outside the range a 3-to-7-card board can produce maps to (0, 0, 0). */
  lemma InvalidHashIsEmpty(h: int)
    requires 0 <= h < HashSize && !(3 <= Weighted(Fields(h)) <= 7)
    ensures Entry(h) == (0, 0, 0)
  {
  }

  /** 576 (one quadruplet and one triplet) is the largest hash below 592 that decodes. */
  lemma LargestValidHash()
    ensures 3 <= Weighted(Fields(576)) <= 7
    ensures forall h :: 576 < h < HashSize ==> !(3 <= Weighted(Fields(h)) <= 7)
  {
    forall h | 576 < h < HashSize ensures !(3 <= Weighted(Fields(h)) <= 7) {
      assert h / 512 == 1 && (h / 64) % 8 == 1;
    }
  }

  /**
   * generate(): fills the table; maxHash follows the global max_hash, which
   * hash_to_count sets to every hash that decodes.
   */
  method Generate() returns (table: array<(int, int, int)>, maxHash: int)
    ensures table.Length == HashSize
    ensures forall h :: 0 <= h < HashSize ==> table[h] == Entry(h)
    ensures maxHash == 576
  {
    table := new (int, int, int)[HashSize](_ => (0, 0, 0));
    maxHash := 0;
    var h := 0;
    while h < HashSize
      invariant 0 <= h <= HashSize
      invariant forall k :: 0 <= k < h ==> table[k] == Entry(k)
      invariant h <= 576 ==> 0 <= maxHash < h || (h == 0 && maxHash == 0)
      invariant h > 576 ==> maxHash == 576
    {
      var counts := HashToCount(h);
      if 3 <= Weighted(Fields(h)) <= 7 {
        maxHash := h;
      }
      table[h] := FindValue(counts);
      h := h + 1;
    }
    LargestValidHash();
  }
}
