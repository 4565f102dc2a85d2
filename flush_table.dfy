/**
 * The suits table (tables/generate_flush_hashtable.py). A hash sums
 * 1 << (3 * suit) over a hand's suits, so its four octal digits count the
 * cards of each suit. The generator enumerates every hand of 3 to 7 suits
 * and stores, at the hand's hash, the flush suit plus one when five cards
 * share a suit, minus the number of cards still missing to a flush
 * (-1, -2, -3) when two to four do, and 0 otherwise.
 */
module FlushTable {
  import Cards

  const TableSize := 3585

  /** Every entry is a suit index 0..3. */
  predicate AllSuits(cards: seq<int>)
  {
    forall k :: 0 <= k < |cards| ==> 0 <= cards[k] < 4
  }

  /** get_hash: the sum of 1 << (3 * suit) over the cards. */
  function GetHash(cards: seq<int>): (h: int)
    requires AllSuits(cards)
  {
    if cards == [] then 0 else Cards.SuitHashOf(cards[0]) + GetHash(cards[1..])
  }

  /** The generator's `counter` list: one count per suit. */
  datatype Counter = Counter(c0: int, c1: int, c2: int, c3: int)
  {
    /** counter[s] */
    function At(s: int): int
      requires 0 <= s < 4
    {
      if s == 0 then c0 else if s == 1 then c1 else if s == 2 then c2 else c3
    }

    function Sum(): int
    {
      c0 + c1 + c2 + c3
    }

    predicate NonNegative()
    {
      0 <= c0 && 0 <= c1 && 0 <= c2 && 0 <= c3
    }

    /** max(counter) */
    function Max(): (m: int)
      ensures m == c0 || m == c1 || m == c2 || m == c3
      ensures c0 <= m && c1 <= m && c2 <= m && c3 <= m
    {
      var a := if c0 >= c1 then c0 else c1;
      var b := if c2 >= c3 then c2 else c3;
      if a >= b then a else b
    }

    /** The index max(enumerate(counter)) picks: the first one holding the maximum. */
    function FirstMax(): (i: int)
      ensures 0 <= i < 4 && At(i) == Max()
      ensures forall j :: 0 <= j < i ==> At(j) < Max()
    {
      if c0 == Max() then 0 else if c1 == Max() then 1 else if c2 == Max() then 2 else 3
    }
  }

  /** How many of the cards have suit s. */
  function CountOf(cards: seq<int>, s: int): (n: int)
    ensures 0 <= n <= |cards|
  {
    if cards == [] then 0 else (if cards[0] == s then 1 else 0) + CountOf(cards[1..], s)
  }

  /** The counter find_value builds from a hand. */
  function Counts(cards: seq<int>): (c: Counter)
    ensures c.NonNegative()
  {
    Counter(CountOf(cards, 0), CountOf(cards, 1), CountOf(cards, 2), CountOf(cards, 3))
  }

  /** The value find_value computes from the per-suit counter. */
  function FlushValue(c: Counter): (v: int)
    ensures -3 <= v <= 4
  {
    var m := c.Max();
    if m >= 5 then c.FirstMax() + 1
    else if m >= 2 then m - 5
    else 0
  }

  /** find_value. */
  function FindValue(cards: seq<int>): int
  {
    FlushValue(Counts(cards))
  }

  /**
   * What an entry means for a counter of at most seven cards: the flush suit
   * plus one when a suit has five or more, the shortfall -(5 - max) when
   * the longest suit has two to four, 0 when no suit has two.
   */
  lemma FlushValueMeaning(c: Counter)
    requires c.NonNegative() && c.Sum() <= 7
    ensures forall s :: 0 <= s < 4 && c.At(s) >= 5 ==> FlushValue(c) == s + 1
    ensures 1 <= FlushValue(c) <= 4 ==> c.At(FlushValue(c) - 1) >= 5
    ensures -3 <= FlushValue(c) <= -1 <==> 2 <= c.Max() <= 4
    ensures -3 <= FlushValue(c) <= -1 ==> c.Max() == FlushValue(c) + 5
    ensures FlushValue(c) == 0 <==> forall s :: 0 <= s < 4 ==> c.At(s) <= 1
  {
    assert c.At(0) == c.c0 && c.At(1) == c.c1 && c.At(2) == c.c2 && c.At(3) == c.c3;
  }

  lemma {:induction false} CountsSum(cards: seq<int>)
    requires AllSuits(cards)
    ensures Counts(cards).Sum() == |cards|
  {
    if cards != [] {
      CountsSum(cards[1..]);
    }
  }

  /** Packing a per-suit counter into octal digits. */
  function Encode(d: Counter): int
  {
    d.c0 + 8 * d.c1 + 64 * d.c2 + 512 * d.c3
  }

  /** The octal digits of a hash. */
  function Digits(h: int): (d: Counter)
    requires 0 <= h
    ensures d.NonNegative() && d.c0 < 8 && d.c1 < 8 && d.c2 < 8 && d.c3 < 8
  {
    Counter(h % 8, (h / 8) % 8, (h / 64) % 8, (h / 512) % 8)
  }

  /** The hash of a hand is the packed per-suit counter. */
  lemma {:induction false} HashIsEncoding(cards: seq<int>)
    requires AllSuits(cards)
    ensures GetHash(cards) == Encode(Counts(cards))
  {
    if cards != [] {
      HashIsEncoding(cards[1..]);
    }
  }

  lemma DigitsOfEncode(d: Counter)
    requires d.NonNegative() && d.c0 < 8 && d.c1 < 8 && d.c2 < 8 && d.c3 < 8
    ensures Digits(Encode(d)) == d
  {
    var h := Encode(d);
    assert h % 8 == d.c0 && h / 8 == d.c1 + 8 * d.c2 + 64 * d.c3;
    var h1 := d.c1 + 8 * d.c2 + 64 * d.c3;
    assert h1 % 8 == d.c1 && h1 / 8 == d.c2 + 8 * d.c3;
    assert h / 64 == h1 / 8;
    assert h / 512 == (d.c2 + 8 * d.c3) / 8 == d.c3;
  }

  lemma EncodeOfDigits(h: int)
    requires 0 <= h < 4096
    ensures Encode(Digits(h)) == h
  {
    var q1, q2, q3 := h / 8, h / 64, h / 512;
    assert h == 8 * q1 + h % 8;
    assert q1 == 8 * (q1 / 8) + q1 % 8;
    assert q1 / 8 == q2;
    assert q2 == 8 * (q2 / 8) + q2 % 8;
    assert q2 / 8 == q3;
    assert q3 < 8;
  }

  /** A counter of at most seven cards packs into the table's range and unpacks to itself. */
  lemma PackUnpack(d: Counter)
    requires d.NonNegative() && d.Sum() <= 7
    ensures 0 <= Encode(d) < TableSize
    ensures Digits(Encode(d)) == d
  {
    DigitsOfEncode(d);
  }

  /** The value a hash stands for. */
  function ValueOfHash(h: int): int
    requires 0 <= h
  {
    FlushValue(Digits(h))
  }

  /** For hands of at most seven cards the hash is in the table and decodes to the hand's counter. */
  lemma HashDecodes(cards: seq<int>)
    requires AllSuits(cards) && |cards| <= 7
    ensures 0 <= GetHash(cards) < TableSize
    ensures Digits(GetHash(cards)) == Counts(cards)
    ensures Digits(GetHash(cards)).Sum() == |cards|
  {
    HashIsEncoding(cards);
    CountsSum(cards);
    PackUnpack(Counts(cards));
  }

  /** The value stored at a hand's hash is find_value of the hand. */
  lemma HashValue(cards: seq<int>)
    requires AllSuits(cards) && |cards| <= 7
    ensures 0 <= GetHash(cards) < TableSize
    ensures ValueOfHash(GetHash(cards)) == FindValue(cards)
  {
    HashDecodes(cards);
  }

  /** The table entry for a hash: its value when its digits count 3 to 7 cards, 0 otherwise. */
  function Entry(h: int): (v: int)
    requires 0 <= h < TableSize
    ensures -3 <= v <= 4
  {
    if 3 <= Digits(h).Sum() <= 7 then ValueOfHash(h) else 0
  }

  /** Looking up a hand of three to seven suits gives find_value of the hand. */
  lemma LookupOfHand(cards: seq<int>)
    requires AllSuits(cards) && 3 <= |cards| <= 7
    ensures 0 <= GetHash(cards) < TableSize
    ensures Entry(GetHash(cards)) == FindValue(cards)
  {
    HashDecodes(cards);
  }

  /** n copies of suit s. */
  function Rep(s: int, n: nat): (r: seq<int>)
    requires 0 <= s < 4
    ensures |r| == n && AllSuits(r)
  {
    if n == 0 then [] else [s] + Rep(s, n - 1)
  }

  lemma {:induction false} HashAppend(a: seq<int>, b: seq<int>)
    requires AllSuits(a) && AllSuits(b)
    ensures AllSuits(a + b) && GetHash(a + b) == GetHash(a) + GetHash(b)
  {
    if a == [] {
      assert a + b == b;
    } else {
      assert (a + b)[0] == a[0] && (a + b)[1..] == a[1..] + b;
      HashAppend(a[1..], b);
    }
  }

  lemma {:induction false} HashRep(s: int, n: nat)
    requires 0 <= s < 4
    ensures GetHash(Rep(s, n)) == n * Cards.SuitHashOf(s)
  {
    if n > 0 {
      var r := Rep(s, n);
      var w := Cards.SuitHashOf(s);
      assert r[1..] == Rep(s, n - 1) && r[0] == s;
      HashRep(s, n - 1);
      assert GetHash(r) == w + GetHash(Rep(s, n - 1));
      assert (n - 1) * w + w == n * w;
    }
  }

  /** A hand with the given per-suit counter: suits in order, each repeated. */
  function Expand(d: Counter): (cards: seq<int>)
    requires d.NonNegative()
    ensures AllSuits(cards) && |cards| == d.Sum()
  {
    Rep(0, d.c0) + Rep(1, d.c1) + Rep(2, d.c2) + Rep(3, d.c3)
  }

  lemma ExpandHash(d: Counter)
    requires d.NonNegative()
    ensures GetHash(Expand(d)) == Encode(d)
  {
    HashRep(0, d.c0);
    HashRep(1, d.c1);
    HashRep(2, d.c2);
    HashRep(3, d.c3);
    HashAppend(Rep(0, d.c0), Rep(1, d.c1));
    HashAppend(Rep(0, d.c0) + Rep(1, d.c1), Rep(2, d.c2));
    HashAppend(Rep(0, d.c0) + Rep(1, d.c1) + Rep(2, d.c2), Rep(3, d.c3));
  }

  /** The leaf of recursive: table[get_hash(cards)] = find_value(cards). */
  method Store(table: array<int>, cards: seq<int>)
    requires table.Length == TableSize && AllSuits(cards) && |cards| <= 7
    modifies table
    ensures 0 <= GetHash(cards) < TableSize && Digits(GetHash(cards)).Sum() == |cards|
    ensures table[..] == old(table[..])[GetHash(cards) := ValueOfHash(GetHash(cards))]
  {
    HashDecodes(cards);
    HashValue(cards);
    table[GetHash(cards)] := FindValue(cards);
  }

  /**
   * recursive(counter, depth, cards): writes every extension of cards to
   * depth suits. Each write stores the value of its hash, so an entry is
   * either untouched or holds the value of a hash whose digits count depth
   * cards, and every extension's hash holds its value afterwards.
   */
  method Recursive(table: array<int>, counter: int, depth: int, cards: seq<int>)
    requires table.Length == TableSize
    requires 0 <= counter <= depth <= 7 && |cards| == counter && AllSuits(cards)
    modifies table
    decreases depth - counter
    ensures forall h :: 0 <= h < TableSize ==>
      table[h] == old(table[h]) || (Digits(h).Sum() == depth && table[h] == ValueOfHash(h))
    ensures forall ext :: |ext| == depth - counter && AllSuits(ext) ==>
      AllSuits(cards + ext) && 0 <= GetHash(cards + ext) < TableSize &&
      table[GetHash(cards + ext)] == ValueOfHash(GetHash(cards + ext))
  {
    if counter == depth {
      Store(table, cards);
      forall ext | |ext| == 0 ensures cards + ext == cards {
      }
      return;
    }
    var i := 0;
    while i < 4
      invariant 0 <= i <= 4
      invariant forall h :: 0 <= h < TableSize ==>
        table[h] == old(table[h]) || (Digits(h).Sum() == depth && table[h] == ValueOfHash(h))
      invariant forall ext :: |ext| == depth - counter && AllSuits(ext) && ext[0] < i ==>
        AllSuits(cards + ext) && 0 <= GetHash(cards + ext) < TableSize &&
        table[GetHash(cards + ext)] == ValueOfHash(GetHash(cards + ext))
    {
      Recursive(table, counter + 1, depth, cards + [i]);
      forall ext | |ext| == depth - counter && AllSuits(ext) && ext[0] == i
        ensures AllSuits(cards + ext) && 0 <= GetHash(cards + ext) < TableSize
        ensures table[GetHash(cards + ext)] == ValueOfHash(GetHash(cards + ext))
      {
        assert cards + ext == (cards + [i]) + ext[1..];
      }
      i := i + 1;
    }
  }

  /** Between two snapshots of the table, only entries of hashes counting depth cards changed, each to its value. */
  ghost predicate WroteOnly(before: seq<int>, after: seq<int>, depth: int)
  {
    |before| == |after| == TableSize &&
    forall h :: 0 <= h < TableSize ==> after[h] == before[h] || (Digits(h).Sum() == depth && after[h] == ValueOfHash(h))
  }

  /** Every entry of a hash counting n cards holds its value. */
  ghost predicate Filled(t: seq<int>, n: int)
  {
    |t| == TableSize && forall h :: 0 <= h < TableSize && Digits(h).Sum() == n ==> t[h] == ValueOfHash(h)
  }

  /** Every entry of a hash counting other than 3 to 7 cards is zero. */
  ghost predicate ZeroOutside(t: seq<int>)
  {
    |t| == TableSize && forall h :: 0 <= h < TableSize && !(3 <= Digits(h).Sum() <= 7) ==> t[h] == 0
  }

  /** One top-level call recursive(0, depth, []): all depth-card hashes get their values, nothing else changes. */
  method Stage(table: array<int>, depth: int)
    requires table.Length == TableSize && 0 <= depth <= 7
    modifies table
    ensures WroteOnly(old(table[..]), table[..], depth)
    ensures Filled(table[..], depth)
  {
    Recursive(table, 0, depth, []);
    forall h | 0 <= h < TableSize && Digits(h).Sum() == depth ensures table[h] == ValueOfHash(h) {
      var d := Digits(h);
      ExpandHash(d);
      EncodeOfDigits(h);
      var ext := Expand(d);
      assert [] + ext == ext;
    }
  }

  /** A later stage of another depth keeps what an earlier one filled. */
  lemma KeepsFilled(a: seq<int>, b: seq<int>, depth: int, n: int)
    requires WroteOnly(a, b, depth) && Filled(a, n) && n != depth
    ensures Filled(b, n)
  {
  }

  /** A stage of depth 3 to 7 keeps the other entries zero. */
  lemma KeepsZero(a: seq<int>, b: seq<int>, depth: int)
    requires WroteOnly(a, b, depth) && ZeroOutside(a) && 3 <= depth <= 7
    ensures ZeroOutside(b)
  {
  }

  /** The generator's five top-level calls, from seven suits down to three. */
  method Generate() returns (table: array<int>)
    ensures table.Length == TableSize
    ensures forall h :: 0 <= h < TableSize ==> table[h] == Entry(h)
  {
    table := new int[TableSize](_ => 0);
    ghost var t0 := table[..];
    Stage(table, 7);
    ghost var t7 := table[..];
    Stage(table, 6);
    ghost var t6 := table[..];
    Stage(table, 5);
    ghost var t5 := table[..];
    Stage(table, 4);
    ghost var t4 := table[..];
    Stage(table, 3);
    ghost var t3 := table[..];
    KeepsZero(t0, t7, 7);
    KeepsZero(t7, t6, 6);
    KeepsZero(t6, t5, 5);
    KeepsZero(t5, t4, 4);
    KeepsZero(t4, t3, 3);
    KeepsFilled(t7, t6, 6, 7);
    KeepsFilled(t6, t5, 5, 7);
    KeepsFilled(t5, t4, 4, 7);
    KeepsFilled(t4, t3, 3, 7);
    KeepsFilled(t6, t5, 5, 6);
    KeepsFilled(t5, t4, 4, 6);
    KeepsFilled(t4, t3, 3, 6);
    KeepsFilled(t5, t4, 4, 5);
    KeepsFilled(t4, t3, 3, 5);
    KeepsFilled(t4, t3, 3, 4);
    forall h | 0 <= h < TableSize ensures table[h] == Entry(h) {
      assert table[h] == t3[h];
    }
  }
}
