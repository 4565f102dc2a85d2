/**
 * Cards (inc/card.h, src/card.cpp): a card is built from its code 0..51,
 * rank index = code / 4 (the source's `code >> 2`), suit index = code % 4,
 * and carries the one-hot hashes the hand evaluator sums and ORs.
 */
module Cards {
  import Bits

  /** Every field the source stores for a card. */
  datatype Card = Card(
    code: int,          // m_code
    rank: int,          // m_int: rank index, 0 = deuce .. 12 = ace
    valueChar: char,    // m_str: '2'..'9', 'T', 'J', 'Q', 'K', 'A'
    suitIdx: int,       // m_suit_int
    suitChar: char,     // m_suit: 'c', 'd', 'h', 's'
    suitHash: int,      // m_suit_hash = 1 << (3 * suit)
    valueHash: bv16)    // m_value_hash = 1 << rank

  /**
   * The default-constructed card: rank and code are -1 stored in a uint8_t
   * (255) and both characters are '?'. The source leaves the suit index and
   * the hashes uninitialised; the model fixes them at 0.
   */
  const Default: Card := Card(255, 255, '?', 0, '?', 0, 0)

  /** int_to_str: the value character of a rank index (a uint8_t). */
  function IntToStr(value: int): (c: char)
    requires 0 <= value < 256
    ensures value <= 12 <==> c != '?'
    ensures value <= 7 ==> '2' <= c <= '9'
  {
    if value <= 7 then ('0' as int + value + 2) as char
    else if value == 8 then 'T'
    else if value == 9 then 'J'
    else if value == 10 then 'Q'
    else if value == 11 then 'K'
    else if value == 12 then 'A'
    else '?'
  }

  /** The suit character of a suit index. */
  function SuitChar(suit: int): (c: char)
    ensures 0 <= suit <= 3 <==> c != '?'
  {
    if suit == 0 then 'c'
    else if suit == 1 then 'd'
    else if suit == 2 then 'h'
    else if suit == 3 then 's'
    else '?'
  }

  /** 1 << (3 * suit) for a suit index 0..3. */
  function SuitHashOf(suit: int): (h: int)
    requires 0 <= suit <= 3
    ensures 0 < h <= 512 && h % 8 == (if suit == 0 then 1 else 0)
  {
    if suit == 0 then 1 else if suit == 1 then 8 else if suit == 2 then 64 else 512
  }

  /** Card(int code) for the codes of a real deck. */
  function FromCode(code: int): (c: Card)
    requires 0 <= code < 52
    ensures c.code == code && 4 * c.rank + c.suitIdx == code
    ensures 0 <= c.rank <= 12 && 0 <= c.suitIdx <= 3
    ensures c.suitHash == SuitHashOf(c.suitIdx) && c.valueChar == IntToStr(c.rank) && c.suitChar == SuitChar(c.suitIdx)
    ensures c.valueHash == Bits.Mask(c.rank) && c.valueHash < 8192 && c.valueHash != 0
    ensures c.valueChar != '?' && c.suitChar != '?'
  {
    var rank := code / 4;
    var suit := code % 4;
    Bits.MaskBelow(rank);
    Bits.MaskBit(rank, rank);
    Card(code, rank, IntToStr(rank), suit, SuitChar(suit), SuitHashOf(suit), Bits.Mask(rank))
  }

  /** A card built by FromCode from a code of the deck. */
  ghost predicate Valid(c: Card)
  {
    0 <= c.code < 52 && c == FromCode(c.code)
  }

  /** operator std::string: value character then suit character. */
  function ToString(c: Card): (s: string)
    ensures |s| == 2 && s[0] == c.valueChar && s[1] == c.suitChar
  {
    [c.valueChar, c.suitChar]
  }

  /** operator int: the rank index, used by the evaluator as a 13-slot count index. */
  function ToInt(c: Card): int { c.rank }

  /** A C++ `char` (signed, 8 bits) holding the integer x. */
  function SignedChar(x: int): (r: int)
    ensures -128 <= r < 128
    ensures -128 <= x < 128 ==> r == x
  {
    (x + 128) % 256 - 128
  }

  /** get_value: the rank index plus two, returned as a char (the default card's 255 wraps to 1). */
  function GetValue(c: Card): (v: int)
    ensures -128 <= v < 128
    ensures 0 <= c.rank <= 12 ==> 2 <= v <= 14 && v == c.rank + 2
  {
    SignedChar(c.rank + 2)
  }

  // The six comparison operators compare rank indices only.
  predicate Less(a: Card, b: Card) { a.rank < b.rank }
  predicate LessEq(a: Card, b: Card) { a.rank <= b.rank }
  predicate Greater(a: Card, b: Card) { a.rank > b.rank }
  predicate GreaterEq(a: Card, b: Card) { a.rank >= b.rank }
  predicate Equal(a: Card, b: Card) { a.rank == b.rank }
  predicate NotEqual(a: Card, b: Card) { a.rank != b.rank }

  /** Decoding a code and re-encoding its rank and suit gives the code back, and vice versa. */
  lemma CodeRoundTrip(rank: int, suit: int)
    requires 0 <= rank <= 12 && 0 <= suit <= 3
    ensures 0 <= 4 * rank + suit < 52
    ensures FromCode(4 * rank + suit).rank == rank && FromCode(4 * rank + suit).suitIdx == suit
  {
  }

  /** int_to_str is injective on the thirteen rank indices. */
  lemma IntToStrInjective(a: int, b: int)
    requires 0 <= a <= 12 && 0 <= b <= 12 && a != b
    ensures IntToStr(a) != IntToStr(b)
  {
  }

  /** Valid cards are equal exactly when their codes are. */
  lemma ValidCardsByCode(a: Card, b: Card)
    requires Valid(a) && Valid(b)
    ensures a == b <==> a.code == b.code
  {
  }

  /** Two cards of the same rank and different suits compare equal. */
  lemma SameRankCompareEqual(rank: int, s1: int, s2: int)
    requires 0 <= rank <= 12 && 0 <= s1 <= 3 && 0 <= s2 <= 3 && s1 != s2
    ensures FromCode(4 * rank + s1) != FromCode(4 * rank + s2)
    ensures Equal(FromCode(4 * rank + s1), FromCode(4 * rank + s2))
    ensures !Less(FromCode(4 * rank + s1), FromCode(4 * rank + s2))
  {
  }

  /** The comparison operators form a total preorder consistent with each other. */
  lemma ComparisonsConsistent(a: Card, b: Card)
    ensures Less(a, b) <==> Greater(b, a)
    ensures LessEq(a, b) <==> Less(a, b) || Equal(a, b)
    ensures GreaterEq(a, b) <==> !Less(a, b)
    ensures NotEqual(a, b) <==> !Equal(a, b)
    ensures Less(a, b) || Equal(a, b) || Greater(a, b)
  {
  }
  /** Every card of the sequence was built from a deck code. */
  ghost predicate AllValid(cards: seq<Card>)
  {
    forall k :: 0 <= k < |cards| ==> Valid(cards[k])
  }

  /** How many of the cards carry value character v. */
  function CountValue(cards: seq<Card>, v: char): (n: nat)
    ensures n <= |cards|
  {
    if cards == [] then 0
    else CountValue(cards[..|cards| - 1], v) + (if cards[|cards| - 1].valueChar == v then 1 else 0)
  }

  /** How many of the cards carry value character v and suit index s. */
  function CountValueOfSuit(cards: seq<Card>, v: char, s: int): (n: nat)
    ensures n <= CountValue(cards, v)
  {
    if cards == [] then 0
    else
      var last := cards[|cards| - 1];
      CountValueOfSuit(cards[..|cards| - 1], v, s) + (if last.valueChar == v && last.suitIdx == s then 1 else 0)
  }

  /** How many of the cards have rank index r. */
  function CountRank(cards: seq<Card>, r: int): (n: nat)
    ensures n <= |cards|
  {
    if cards == [] then 0
    else CountRank(cards[..|cards| - 1], r) + (if cards[|cards| - 1].rank == r then 1 else 0)
  }
}
