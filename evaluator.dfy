/**
 * The three evaluating constructors of Rank (src/rank.cpp): two player cards
 * and a board of three, four or five cards. The suit hashes of the board,
 * then of the whole hand, are looked up in the suits table for the flush
 * flags; the value hashes are OR-ed and looked up in the straights table;
 * the per-rank counts of the board are hashed into the pairs table; and the
 * hand's value comes from flush[] when a suit has five cards and from
 * noflush5/6/7 over hash_nonflush of the per-rank counts otherwise.
 */
module Evaluator {
  import opened Cards
  import Bits
  import Decks
  import FlushTable
  import StraightTable
  import PairTable
  import opened Ranks

  /** Two player cards and a board of three to five, all real and all different, as a dealt hand is. */
  ghost predicate HandCards(player: seq<Card>, board: seq<Card>)
  {
    |player| == 2 && 3 <= |board| <= 5 && AllValid(board + player) && Decks.Distinct(board + player)
  }

  lemma ValidParts(a: seq<Card>, b: seq<Card>)
    requires AllValid(a + b)
    ensures AllValid(a) && AllValid(b) && AllValid(b + a)
  {
    forall k | 0 <= k < |a| ensures Valid(a[k]) {
      assert (a + b)[k] == a[k];
    }
    forall k | 0 <= k < |b| ensures Valid(b[k]) {
      assert (a + b)[|a| + k] == b[k];
    }
  }

  /** What the hashes rely on in a real card: ranks and suits in range, the one-hot value hash, the suit's hash. */
  predicate Hashed(c: Card)
  {
    0 <= c.rank < 13 && 0 <= c.suitIdx < 4 && c.valueHash == Bits.Mask(c.rank) && c.suitHash == SuitHashOf(c.suitIdx)
  }

  predicate AllHashed(cards: seq<Card>)
  {
    forall k :: 0 <= k < |cards| ==> Hashed(cards[k])
  }

  lemma ValidHashed(cards: seq<Card>)
    requires AllValid(cards)
    ensures AllHashed(cards)
  {
    forall k | 0 <= k < |cards| ensures Hashed(cards[k]) {
      assert Valid(cards[k]);
    }
  }

  // ---------------------------------------------------------------- suits

  /** suit_hash: the suit hashes of the cards added up in order. */
  function SuitSum(cards: seq<Card>): int
  {
    if cards == [] then 0 else SuitSum(cards[..|cards| - 1]) + cards[|cards| - 1].suitHash
  }

  /** The suit indices of the cards. */
  function SuitsOf(cards: seq<Card>): (s: seq<int>)
    ensures |s| == |cards| && forall k :: 0 <= k < |cards| ==> s[k] == cards[k].suitIdx
  {
    if cards == [] then [] else SuitsOf(cards[..|cards| - 1]) + [cards[|cards| - 1].suitIdx]
  }

  /** The per-suit card counts of a hand. */
  function SuitCounts(cards: seq<Card>): FlushTable.Counter
  {
    FlushTable.Counts(SuitsOf(cards))
  }

  /** The sum the constructors accumulate is the generator's get_hash of the hand's suits. */
  lemma {:induction false} SuitSumIsHash(cards: seq<Card>)
    requires AllHashed(cards)
    ensures FlushTable.AllSuits(SuitsOf(cards)) && SuitSum(cards) == FlushTable.GetHash(SuitsOf(cards))
  {
    if cards != [] {
      var pre, last := cards[..|cards| - 1], cards[|cards| - 1];
      assert AllHashed(pre) by {
        forall k | 0 <= k < |pre| ensures Hashed(pre[k]) {
          assert pre[k] == cards[k];
        }
      }
      assert Hashed(last);
      SuitSumIsHash(pre);
      assert SuitsOf(cards) == SuitsOf(pre) + [last.suitIdx];
      FlushTable.HashAppend(SuitsOf(pre), [last.suitIdx]);
      assert [last.suitIdx][1..] == [];
    }
  }

  lemma {:induction false} SuitSumAppend(a: seq<Card>, b: seq<Card>)
    ensures SuitSum(a + b) == SuitSum(a) + SuitSum(b)
  {
    if b != [] {
      var pre := b[..|b| - 1];
      assert (a + b)[..|a + b| - 1] == a + pre;
      assert (a + b)[|a + b| - 1] == b[|b| - 1];
      SuitSumAppend(a, pre);
    } else {
      assert a + b == a;
    }
  }

  /**
   * Looking up the suit sum of a hand of three to seven real cards gives
   * find_value of its per-suit counts, and that value means what the
   * generator promises.
   */
  lemma SuitLookup(cards: seq<Card>)
    requires AllValid(cards) && 3 <= |cards| <= 7
    ensures 0 <= SuitSum(cards) < FlushTable.TableSize
    ensures FlushTable.Entry(SuitSum(cards)) == FlushTable.FlushValue(SuitCounts(cards))
    ensures SuitCounts(cards).Sum() == |cards|
  {
    ValidHashed(cards);
    SuitSumIsHash(cards);
    FlushTable.LookupOfHand(SuitsOf(cards));
    FlushTable.CountsSum(SuitsOf(cards));
  }

  /** suit_binary[s]: the value hashes of the cards of suit s, OR-ed in order. */
  function SuitBinary(cards: seq<Card>, s: int): bv16
  {
    if cards == [] then 0
    else
      var last := cards[|cards| - 1];
      var rest := SuitBinary(cards[..|cards| - 1], s);
      if last.suitIdx == s then rest | last.valueHash else rest
  }

  /** The cards of suit s, in order. */
  function OfSuit(cards: seq<Card>, s: int): (r: seq<Card>)
    ensures forall k :: 0 <= k < |r| ==> r[k].suitIdx == s && r[k] in cards
  {
    if cards == [] then []
    else
      var last := cards[|cards| - 1];
      OfSuit(cards[..|cards| - 1], s) + (if last.suitIdx == s then [last] else [])
  }

  /** The ranks of the cards of suit s, in order. */
  function RanksOfSuit(cards: seq<Card>, s: int): seq<int>
  {
    RanksOf(OfSuit(cards, s))
  }

  lemma HashedSnoc(cards: seq<Card>)
    requires AllHashed(cards) && cards != []
    ensures AllHashed(cards[..|cards| - 1]) && Hashed(cards[|cards| - 1])
  {
    var pre := cards[..|cards| - 1];
    forall k | 0 <= k < |pre| ensures Hashed(pre[k]) {
      assert pre[k] == cards[k];
    }
  }

  /** suit_binary[s] is the OR of the value hashes of the cards of suit s. */
  lemma {:induction false} SuitBinaryIsOr(cards: seq<Card>, s: int)
    ensures SuitBinary(cards, s) == ValueOr(OfSuit(cards, s))
  {
    if cards != [] {
      var pre, last := cards[..|cards| - 1], cards[|cards| - 1];
      SuitBinaryIsOr(pre, s);
      if last.suitIdx == s {
        assert (OfSuit(pre, s) + [last])[..|OfSuit(pre, s)|] == OfSuit(pre, s);
      } else {
        assert OfSuit(cards, s) == OfSuit(pre, s);
      }
    }
  }

  /** The flush index is the rank hash of the cards of that suit: bit i is set exactly when a card of rank i has the suit. */
  lemma SuitBinaryBits(cards: seq<Card>, s: int)
    requires AllHashed(cards)
    ensures SuitBinary(cards, s) < 8192
    ensures forall i :: 0 <= i < 16 ==> (Bits.Bit(SuitBinary(cards, s), i) <==> i in RanksOfSuit(cards, s))
  {
    SuitBinaryIsOr(cards, s);
    var f := OfSuit(cards, s);
    forall k | 0 <= k < |f| ensures Hashed(f[k]) {
      var j :| 0 <= j < |cards| && cards[j] == f[k];
    }
    ValueOrBits(f);
  }

  // ---------------------------------------------------------------- ranks

  /** possible_straight_hash: the value hashes of the cards OR-ed in order. */
  function ValueOr(cards: seq<Card>): bv16
  {
    if cards == [] then 0 else ValueOr(cards[..|cards| - 1]) | cards[|cards| - 1].valueHash
  }

  /** The rank indices of the cards. */
  function RanksOf(cards: seq<Card>): (s: seq<int>)
    ensures |s| == |cards| && forall k :: 0 <= k < |cards| ==> s[k] == cards[k].rank
  {
    if cards == [] then [] else RanksOf(cards[..|cards| - 1]) + [cards[|cards| - 1].rank]
  }

  /** Hashed cards have rank indices 0..12. */
  lemma HashedRanks(cards: seq<Card>)
    requires AllHashed(cards)
    ensures forall k :: 0 <= k < |cards| ==> 0 <= RanksOf(cards)[k] < 13
  {
    forall k | 0 <= k < |cards| ensures 0 <= RanksOf(cards)[k] < 13 {
      assert Hashed(cards[k]);
    }
  }

  /** OR-ing the value hashes of cards is OR-ing 1 << rank over their ranks. */
  lemma {:induction false} ValueOrIsOrOf(cards: seq<Card>)
    requires AllHashed(cards)
    ensures forall k :: 0 <= k < |cards| ==> 0 <= RanksOf(cards)[k] < 13
    ensures ValueOr(cards) == Bits.OrOf(RanksOf(cards))
  {
    HashedRanks(cards);
    if cards != [] {
      var pre := cards[..|cards| - 1];
      var last := cards[|cards| - 1];
      HashedSnoc(cards);
      ValueOrIsOrOf(pre);
      var rs := RanksOf(cards);
      assert rs[..|rs| - 1] == RanksOf(pre);
      Bits.OrSame(ValueOr(pre), Bits.OrOf(RanksOf(pre)), last.valueHash, last.rank);
    }
  }

  /** Bit i of the OR of the value hashes is set exactly when some card has rank i. */
  lemma ValueOrBits(cards: seq<Card>)
    requires AllHashed(cards)
    ensures ValueOr(cards) < 8192
    ensures forall i :: 0 <= i < 16 ==> (Bits.Bit(ValueOr(cards), i) <==> i in RanksOf(cards))
  {
    ValueOrIsOrOf(cards);
    Bits.OrOfBits(RanksOf(cards));
  }

  /** The OR of the value hashes of real cards is a straights table index. */
  lemma ValueOrHash(cards: seq<Card>)
    requires AllValid(cards)
    ensures ValueOr(cards) < 8192 && ValueOr(cards) as int < 8192
    ensures forall i :: 0 <= i < 16 ==> (Bits.Bit(ValueOr(cards), i) <==> i in RanksOf(cards))
  {
    ValidHashed(cards);
    ValueOrBits(cards);
    Bits.BelowAsInt(ValueOr(cards));
  }

  lemma RanksInRange(cards: seq<Card>)
    requires AllValid(cards)
    ensures forall c :: c in RanksOf(cards) ==> 0 <= c < 13
    ensures forall k :: 0 <= k < |cards| ==> 0 <= cards[k].rank < 13 && 0 <= cards[k].suitIdx < 4
  {
    ValidHashed(cards);
    forall k | 0 <= k < |cards| ensures 0 <= cards[k].rank < 13 && 0 <= cards[k].suitIdx < 4 {
      assert Hashed(cards[k]);
    }
  }

  /** The ranks a hash lists are the ranks whose bits are set. */
  lemma ListedRanks(h: bv16, ranks: seq<int>, sorted: seq<int>)
    requires forall c :: c in ranks ==> 0 <= c < 13
    requires forall i :: 0 <= i < 13 ==> (Bits.Bit(h, i) <==> i in ranks)
    requires forall c :: c in sorted <==> c in ranks
    ensures forall c :: c in StraightTable.CardsOf(h) <==> c in sorted
  {
    var cs := StraightTable.CardsOf(h);
    forall c ensures c in cs <==> c in sorted {
      if 0 <= c < 13 {
        assert c in cs <==> Bits.Bit(h, c);
      }
    }
  }

  /** Looking up a hash whose bits are exactly a set of ranks gives the straights verdict for those ranks, sorted. */
  lemma StraightLookup(h: bv16, ranks: seq<int>, sorted: seq<int>)
    requires h as int < 8192 && forall c :: c in ranks ==> 0 <= c < 13
    requires forall i :: 0 <= i < 13 ==> (Bits.Bit(h, i) <==> i in ranks)
    requires StraightTable.StrictlyIncreasing(sorted) && (forall c :: c in sorted <==> c in ranks)
    ensures StraightTable.Entry(h as int) == StraightTable.FindValue(sorted)
  {
    Bits.AsIntRoundTrip(h);
    ListedRanks(h, ranks, sorted);
    StraightTable.SortedUnique(StraightTable.CardsOf(h), sorted);
  }

  /** count[]: the number of cards of each rank. */
  function RankCountsOf(cards: seq<Card>): (q: seq<int>)
    ensures |q| == 13 && forall r :: 0 <= r < 13 ==> q[r] == CountRank(cards, r)
  {
    CountsBelow(cards, 13)
  }

  /** The counts of ranks 0 .. n - 1 among the cards. */
  function CountsBelow(cards: seq<Card>, n: nat): (q: seq<int>)
    ensures |q| == n && forall r :: 0 <= r < n ==> q[r] == CountRank(cards, r)
  {
    if n == 0 then [] else CountsBelow(cards, n - 1) + [CountRank(cards, n - 1)]
  }

  lemma {:induction false} CountRankAppend(a: seq<Card>, b: seq<Card>, r: int)
    ensures CountRank(a + b, r) == CountRank(a, r) + CountRank(b, r)
  {
    if b != [] {
      var pre := b[..|b| - 1];
      assert (a + b)[..|a + b| - 1] == a + pre;
      assert (a + b)[|a + b| - 1] == b[|b| - 1];
      CountRankAppend(a, pre, r);
    } else {
      assert a + b == a;
    }
  }

  lemma {:induction false} TotalBump(q: seq<int>, x: int)
    requires 0 <= x < |q|
    ensures PairTable.Total(q[x := q[x] + 1]) == PairTable.Total(q) + 1
  {
    var n := |q|;
    var q' := q[x := q[x] + 1];
    assert q'[..n - 1] == if x < n - 1 then q[..n - 1][x := q[x] + 1] else q[..n - 1];
    if x < n - 1 {
      TotalBump(q[..n - 1], x);
    }
  }

  /** The per-rank counts of real cards add up to the number of cards. */
  lemma {:induction false} CountsTotal(cards: seq<Card>)
    requires forall k :: 0 <= k < |cards| ==> 0 <= cards[k].rank < 13
    ensures PairTable.Total(RankCountsOf(cards)) == |cards|
  {
    if cards == [] {
      var q := RankCountsOf(cards);
      assert q == q[..12] + [q[12]];
      assert forall m :: 0 <= m <= 13 ==> PairTable.Total(q[..m]) == 0 by {
        forall m | 0 <= m <= 13 ensures PairTable.Total(q[..m]) == 0 {
          ZeroTotal(q, m);
        }
      }
      assert q[..13] == q;
    } else {
      var pre, last := cards[..|cards| - 1], cards[|cards| - 1];
      CountsTotal(pre);
      var q := RankCountsOf(pre);
      assert RankCountsOf(cards) == q[last.rank := q[last.rank] + 1];
      TotalBump(q, last.rank);
    }
  }

  lemma {:induction false} ZeroTotal(q: seq<int>, m: int)
    requires 0 <= m <= |q| && forall r :: 0 <= r < |q| ==> q[r] == 0
    ensures PairTable.Total(q[..m]) == 0
  {
    if m > 0 {
      assert q[..m][..m - 1] == q[..m - 1];
      ZeroTotal(q, m - 1);
    }
  }

  /** The suits of the real cards of rank r. */
  ghost function SuitsOfRank(cards: seq<Card>, r: int): set<int>
  {
    set k | 0 <= k < |cards| && cards[k].rank == r :: cards[k].suitIdx
  }

  lemma SuitsOfRankSnoc(cards: seq<Card>, r: int)
    requires cards != []
    ensures var n := |cards|;
      SuitsOfRank(cards, r) == SuitsOfRank(cards[..n - 1], r) + (if cards[n - 1].rank == r then {cards[n - 1].suitIdx} else {})
  {
    var n := |cards|;
    var pre, last := cards[..n - 1], cards[n - 1];
    forall x ensures x in SuitsOfRank(cards, r) ==> x in SuitsOfRank(pre, r) + (if last.rank == r then {last.suitIdx} else {}) {
      if x in SuitsOfRank(cards, r) {
        var k :| 0 <= k < n && cards[k].rank == r && cards[k].suitIdx == x;
        if k < n - 1 {
          assert pre[k] == cards[k];
        }
      }
    }
    forall x | x in SuitsOfRank(pre, r) ensures x in SuitsOfRank(cards, r) {
      var k :| 0 <= k < n - 1 && pre[k].rank == r && pre[k].suitIdx == x;
      assert cards[k] == pre[k];
    }
  }

  /** No two cards share both rank and suit. */
  predicate DistinctFaces(cards: seq<Card>)
  {
    forall i, j :: 0 <= i < j < |cards| ==> cards[i].rank != cards[j].rank || cards[i].suitIdx != cards[j].suitIdx
  }

  /** Different real cards differ in rank or in suit, since the two make up the deck code. */
  lemma ValidDistinctFaces(cards: seq<Card>)
    requires AllValid(cards) && Decks.Distinct(cards)
    ensures DistinctFaces(cards)
  {
    forall i, j | 0 <= i < j < |cards| ensures cards[i].rank != cards[j].rank || cards[i].suitIdx != cards[j].suitIdx {
      assert Valid(cards[i]) && Valid(cards[j]);
      ValidCardsByCode(cards[i], cards[j]);
    }
  }

  /** Among cards of distinct faces, those of one rank have as many suits as cards. */
  lemma {:induction false} RankCountIsSuitCount(cards: seq<Card>, r: int)
    requires DistinctFaces(cards)
    ensures CountRank(cards, r) == |SuitsOfRank(cards, r)|
  {
    if cards != [] {
      var n := |cards|;
      var pre, last := cards[..n - 1], cards[n - 1];
      assert DistinctFaces(pre) by {
        forall k | 0 <= k < |pre| ensures pre[k] == cards[k] {
        }
      }
      RankCountIsSuitCount(pre, r);
      SuitsOfRankSnoc(cards, r);
      if last.rank == r {
        NewSuit(cards, r);
      }
    }
  }

  /** The last of cards of distinct faces brings a suit its rank did not have before. */
  lemma NewSuit(cards: seq<Card>, r: int)
    requires DistinctFaces(cards) && cards != [] && cards[|cards| - 1].rank == r
    ensures cards[|cards| - 1].suitIdx !in SuitsOfRank(cards[..|cards| - 1], r)
  {
    var n := |cards|;
    var pre := cards[..n - 1];
    forall x | x in SuitsOfRank(pre, r) ensures x != cards[n - 1].suitIdx {
      var k :| 0 <= k < n - 1 && pre[k].rank == r && pre[k].suitIdx == x;
      assert cards[k] == pre[k];
    }
  }

  lemma SuitsOfRankBounded(cards: seq<Card>, r: int)
    requires AllValid(cards)
    ensures SuitsOfRank(cards, r) <= {0, 1, 2, 3}
  {
    forall x | x in SuitsOfRank(cards, r) ensures 0 <= x < 4 {
      var k :| 0 <= k < |cards| && cards[k].rank == r && cards[k].suitIdx == x;
      assert Valid(cards[k]);
    }
  }

  lemma SubsetSize(a: set<int>, b: set<int>)
    requires a <= b
    ensures |a| <= |b|
  {
    assert b == a + (b - a);
  }

  /** Different real cards hold at most four of a rank, one per suit. */
  lemma AtMostFourOfARank(cards: seq<Card>)
    requires AllValid(cards) && Decks.Distinct(cards)
    ensures forall r :: CountRank(cards, r) <= 4
  {
    ValidDistinctFaces(cards);
    forall r ensures CountRank(cards, r) <= 4 {
      RankCountIsSuitCount(cards, r);
      SuitsOfRankBounded(cards, r);
      SubsetSize(SuitsOfRank(cards, r), {0, 1, 2, 3});
    }
  }

  // ---------------------------------------------------------------- the hand

  /** The ranges every table lookup of a dealt hand needs. */
  lemma HandFacts(player: seq<Card>, board: seq<Card>)
    requires HandCards(player, board)
    ensures 0 <= SuitSum(board) < FlushTable.TableSize
    ensures 0 <= SuitSum(board + player) < FlushTable.TableSize
    ensures ValueOr(board) as int < 8192 && ValueOr(board + player) as int < 8192
    ensures PairTable.IsHistogram(RankCountsOf(board)) && 3 <= PairTable.Total(RankCountsOf(board)) <= 7
    ensures 0 <= PairTable.BoardHash(RankCountsOf(board)) < PairTable.HashSize
    ensures RankCounts(RankCountsOf(board + player))
    ensures AllValid(player + board)
  {
    ValidParts(board, player);
    SuitLookup(board);
    SuitLookup(board + player);
    ValueOrHash(board);
    ValueOrHash(board + player);
    AtMostFourOfARank(board + player);
    forall r | 0 <= r < 13 ensures CountRank(board, r) <= 4 {
      CountRankAppend(board, player, r);
    }
    CountsTotal(board);
    PairTable.BoardLookup(RankCountsOf(board));
  }

  /** m_possible_flush: the flag each constructor keeps for the suits value of the whole hand. */
  function PossibleFlushFlag(suit: int, boardSize: int): (f: char)
  {
    if suit > 0 then 'F'
    else if suit == -1 && boardSize < 5 then '1'
    else if suit == -2 && boardSize == 3 then '2'
    else 'x'
  }

  /** m_board_flush: the flag for the suits value of the board alone. */
  function BoardFlushFlag(suitBoard: int): (f: char)
  {
    if suitBoard > 0 then 'F' else if suitBoard == -1 then '1' else if suitBoard == -2 then '2' else 'x'
  }

  /** The noflush table of a hand of n cards. */
  function Noflush(t: Tables, n: int, hash: int): int
  {
    if n == 5 then t.noflush5(hash) else if n == 6 then t.noflush6(hash) else t.noflush7(hash)
  }

  /** suits[] at the suit sum of the board alone. */
  function BoardSuit(player: seq<Card>, board: seq<Card>): int
    requires HandCards(player, board)
  {
    HandFacts(player, board);
    FlushTable.Entry(SuitSum(board))
  }

  /** suits[] at the suit sum of the board and the player's cards. */
  function HandSuit(player: seq<Card>, board: seq<Card>): int
    requires HandCards(player, board)
  {
    HandFacts(player, board);
    FlushTable.Entry(SuitSum(board + player))
  }

  /** straights[] at the rank hash of the board alone. */
  function BoardStraight(player: seq<Card>, board: seq<Card>): char
    requires HandCards(player, board)
  {
    HandFacts(player, board);
    StraightTable.Entry(ValueOr(board) as int)
  }

  /** straights[] at the rank hash of the board and the player's cards; 'x' once the river is out. */
  function HandStraight(player: seq<Card>, board: seq<Card>): char
    requires HandCards(player, board)
  {
    HandFacts(player, board);
    if |board| == 5 then 'x' else StraightTable.Entry(ValueOr(board + player) as int)
  }

  /** pairs[] at the hash of the board's per-rank counts: (quads, trips, pairs). */
  function BoardPairs(player: seq<Card>, board: seq<Card>): (int, int, int)
    requires HandCards(player, board)
  {
    HandFacts(player, board);
    PairTable.Entry(PairTable.BoardHash(RankCountsOf(board)))
  }

  /** flush[] at the rank hash of the flush suit's cards; 0xFFFF when no suit has five. */
  function FlushRankValue(t: Tables, player: seq<Card>, board: seq<Card>): int
    requires HandCards(player, board)
  {
    var suit := HandSuit(player, board);
    if suit > 0 then t.flush(SuitBinary(player + board, suit - 1) as int) else NoValue
  }

  /** noflush5/6/7[] at hash_nonflush of the per-rank counts of the whole hand. */
  function NoflushValue(t: Tables, player: seq<Card>, board: seq<Card>): int
    requires HandCards(player, board) && DpShape(t.dp)
  {
    HandFacts(player, board);
    var n := |board| + 2;
    Noflush(t, n, NonflushSum(t.dp, RankCountsOf(board + player), n, 0))
  }

  /** The Rank the constructors build for a player's two cards and a board of three to five. */
  function RankOf(t: Tables, player: seq<Card>, board: seq<Card>): (r: Rank)
    requires HandCards(player, board) && DpShape(t.dp)
    ensures r.player == player && r.board == board
  {
    var suit := HandSuit(player, board);
    var flushValue := FlushRankValue(t, player, board);
    var pairs := BoardPairs(player, board);
    Rank(if flushValue == NoValue then NoflushValue(t, player, board) else flushValue,
      PossibleFlushFlag(suit, |board|), BoardFlushFlag(BoardSuit(player, board)),
      HandStraight(player, board), BoardStraight(player, board),
      if suit > 0 then suit else -1, if suit > 0 then 's' else 'o',
      player, board, pairs.1 == 1, pairs.0 == 1, pairs.2)
  }

  // ---------------------------------------------------------------- what the flags mean

  /** A suits entry of a hand of three to seven cards against the hand's longest suit. */
  lemma SuitEntryMeaning(cards: seq<Card>)
    requires AllValid(cards) && 3 <= |cards| <= 7
    ensures 0 <= SuitSum(cards) < FlushTable.TableSize
    ensures var v, c := FlushTable.Entry(SuitSum(cards)), SuitCounts(cards);
      && (v > 0 <==> c.Max() >= 5)
      && (v > 0 ==> v <= 4 && c.At(v - 1) >= 5)
      && (v == -1 <==> c.Max() == 4)
      && (v == -2 <==> c.Max() == 3)
  {
    SuitLookup(cards);
    var c := SuitCounts(cards);
    FlushTable.FlushValueMeaning(c);
    if c.Max() >= 5 {
      var s := c.FirstMax();
      assert c.At(s) >= 5;
    }
  }

  /**
   * m_possible_flush and m_suit: 'F' exactly when five or more cards of the
   * hand share a suit, and then m_suit is that suit plus one; '1' when one
   * card is missing to a flush and cards are still to come; '2' when two are
   * missing on the flop.
   */
  lemma PossibleFlushMeaning(t: Tables, player: seq<Card>, board: seq<Card>)
    requires HandCards(player, board) && DpShape(t.dp)
    ensures var r, c := RankOf(t, player, board), SuitCounts(board + player);
      && (r.possibleFlush == 'F' <==> c.Max() >= 5)
      && (r.possibleFlush == 'F' ==> 1 <= r.suit <= 4 && c.At(r.suit - 1) >= 5 && r.isFlush == 's')
      && (r.possibleFlush != 'F' ==> r.suit == -1 && r.isFlush == 'o')
      && (r.possibleFlush == '1' <==> |board| < 5 && c.Max() == 4)
      && (r.possibleFlush == '2' <==> |board| == 3 && c.Max() == 3)
  {
    HandFacts(player, board);
    SuitEntryMeaning(board + player);
  }

  /** m_board_flush: how many cards of one suit the board alone holds. */
  lemma BoardFlushMeaning(t: Tables, player: seq<Card>, board: seq<Card>)
    requires HandCards(player, board) && DpShape(t.dp)
    ensures var r, c := RankOf(t, player, board), SuitCounts(board);
      && (r.boardFlush == 'F' <==> c.Max() >= 5)
      && (r.boardFlush == '1' <==> c.Max() == 4)
      && (r.boardFlush == '2' <==> c.Max() == 3)
      && (r.boardFlush == 'x' <==> c.Max() <= 2)
  {
    ValidParts(board, player);
    SuitEntryMeaning(board);
  }

  /**
   * m_board_straight and m_possible_straight: the straights verdict for the
   * sorted distinct ranks of the board, and of the whole hand while cards
   * are still to come ('x' once the river is out).
   */
  lemma StraightMeaning(t: Tables, player: seq<Card>, board: seq<Card>, sortedBoard: seq<int>, sortedHand: seq<int>)
    requires HandCards(player, board) && DpShape(t.dp)
    requires StraightTable.StrictlyIncreasing(sortedBoard) && forall c :: c in sortedBoard <==> c in RanksOf(board)
    requires StraightTable.StrictlyIncreasing(sortedHand) && forall c :: c in sortedHand <==> c in RanksOf(board + player)
    ensures RankOf(t, player, board).boardStraight == StraightTable.FindValue(sortedBoard)
    ensures RankOf(t, player, board).possibleStraight == if |board| == 5 then 'x' else StraightTable.FindValue(sortedHand)
  {
    ValidParts(board, player);
    ValueOrHash(board);
    ValueOrHash(board + player);
    RanksInRange(board);
    RanksInRange(board + player);
    StraightLookup(ValueOr(board), RanksOf(board), sortedBoard);
    StraightLookup(ValueOr(board + player), RanksOf(board + player), sortedHand);
  }

  /**
   * m_four_of_a_kind_on_board, m_three_of_a_kind_on_board and
   * m_pairs_on_board: whether a rank shows four times, whether one shows
   * three times, and how many show twice, on the board alone.
   */
  lemma BoardPairsMeaning(t: Tables, player: seq<Card>, board: seq<Card>)
    requires HandCards(player, board) && DpShape(t.dp)
    ensures var r, q := RankOf(t, player, board), RankCountsOf(board);
      && (r.fourOnBoard <==> PairTable.NumWith(q, 4) == 1)
      && (r.threeOnBoard <==> PairTable.NumWith(q, 3) == 1)
      && r.pairsOnBoard == PairTable.NumWith(q, 2)
  {
    HandFacts(player, board);
    PairTable.BoardLookup(RankCountsOf(board));
  }

  lemma {:induction false} CountOfAppend(a: seq<int>, b: seq<int>, s: int)
    ensures FlushTable.CountOf(a + b, s) == FlushTable.CountOf(a, s) + FlushTable.CountOf(b, s)
  {
    if a == [] {
      assert a + b == b;
    } else {
      assert (a + b)[1..] == a[1..] + b;
      CountOfAppend(a[1..], b, s);
    }
  }

  /** The ranks listed for suit s are as many as the cards of suit s. */
  lemma {:induction false} RanksOfSuitCount(cards: seq<Card>, s: int)
    ensures |RanksOfSuit(cards, s)| == FlushTable.CountOf(SuitsOf(cards), s)
  {
    if cards != [] {
      var pre, last := cards[..|cards| - 1], cards[|cards| - 1];
      RanksOfSuitCount(pre, s);
      assert SuitsOf(cards) == SuitsOf(pre) + [last.suitIdx];
      CountOfAppend(SuitsOf(pre), [last.suitIdx], s);
      assert [last.suitIdx][1..] == [];
    }
  }

  /** How many cards of a suit a hand holds does not depend on whether the board or the player's cards come first. */
  lemma SuitCountSwap(a: seq<Card>, b: seq<Card>, s: int)
    ensures FlushTable.CountOf(SuitsOf(a + b), s) == FlushTable.CountOf(SuitsOf(b + a), s)
  {
    assert SuitsOf(a + b) == SuitsOf(a) + SuitsOf(b);
    assert SuitsOf(b + a) == SuitsOf(b) + SuitsOf(a);
    CountOfAppend(SuitsOf(a), SuitsOf(b), s);
    CountOfAppend(SuitsOf(b), SuitsOf(a), s);
  }

  /** A suit holding five or more of the hand's cards: its rank hash has the bits of those cards' ranks. */
  lemma FlushSuitHash(player: seq<Card>, board: seq<Card>, s: int)
    requires AllValid(player + board) && 0 <= s < 4 && SuitCounts(board + player).At(s) >= 5
    ensures SuitBinary(player + board, s) < 8192
    ensures forall i :: 0 <= i < 16 ==> (Bits.Bit(SuitBinary(player + board, s), i) <==> i in RanksOfSuit(player + board, s))
    ensures |RanksOfSuit(player + board, s)| >= 5
  {
    ValidHashed(player + board);
    SuitBinaryBits(player + board, s);
    RanksOfSuitCount(player + board, s);
    SuitCountSwap(player, board, s);
    var c := SuitCounts(board + player);
    assert c.At(s) == FlushTable.CountOf(SuitsOf(board + player), s);
  }

  /**
   * The flush index: with a flush suit, flush[] is read at a hash whose set
   * bits are exactly the ranks of the hand's cards of that suit, and there
   * are at least five such cards.
   */
  lemma FlushIndexMeaning(t: Tables, player: seq<Card>, board: seq<Card>)
    requires HandCards(player, board) && DpShape(t.dp)
    ensures var r := RankOf(t, player, board);
      r.isFlush == 's' ==>
        var h := SuitBinary(player + board, r.suit - 1);
        && h < 8192
        && (forall i :: 0 <= i < 16 ==> (Bits.Bit(h, i) <==> i in RanksOfSuit(player + board, r.suit - 1)))
        && |RanksOfSuit(player + board, r.suit - 1)| >= 5
  {
    PossibleFlushMeaning(t, player, board);
    var r := RankOf(t, player, board);
    if r.isFlush == 's' {
      ValidParts(board, player);
      FlushSuitHash(player, board, r.suit - 1);
    }
  }

  /**
   * m_value: flush[] when the hand has a flush suit and that entry is not
   * 0xFFFF; otherwise the noflush table of the hand's size, read at
   * hash_nonflush of per-rank counts that add up to the hand's size.
   */
  lemma ValueSource(t: Tables, player: seq<Card>, board: seq<Card>)
    requires HandCards(player, board) && DpShape(t.dp)
    ensures var r := RankOf(t, player, board);
      && PairTable.Total(RankCountsOf(board + player)) == |board| + 2
      && (r.isFlush == 'o' ==> r.value == NoflushValue(t, player, board))
      && (r.isFlush == 's' && FlushRankValue(t, player, board) != NoValue ==> r.value == FlushRankValue(t, player, board))
      && (r.isFlush == 's' && FlushRankValue(t, player, board) == NoValue ==> r.value == NoflushValue(t, player, board))
  {
    ValidParts(board, player);
    CountsTotal(board + player);
    RanksInRange(board + player);
  }

  // ---------------------------------------------------------------- the constructors

  /** suit_hash += card->get_suit_hash() over the cards, from a sum h0 of the cards already seen. */
  method AddSuitHashes(seen: seq<Card>, h0: int, cards: seq<Card>) returns (h: int)
    requires h0 == SuitSum(seen)
    ensures h == SuitSum(seen + cards)
  {
    h := h0;
    var i := 0;
    assert seen + cards[..0] == seen;
    while i < |cards|
      invariant 0 <= i <= |cards| && h == SuitSum(seen + cards[..i])
    {
      assert (seen + cards[..i + 1])[..|seen| + i] == seen + cards[..i];
      h := h + cards[i].suitHash;
      i := i + 1;
    }
    assert cards[..i] == cards;
  }

  /** possible_straight_hash |= card->get_value_hash() over the cards, from the hash h0 of the cards already seen. */
  method OrValueHashes(seen: seq<Card>, h0: bv16, cards: seq<Card>) returns (h: bv16)
    requires h0 == ValueOr(seen)
    ensures h == ValueOr(seen + cards)
  {
    h := h0;
    var i := 0;
    assert seen + cards[..0] == seen;
    while i < |cards|
      invariant 0 <= i <= |cards| && h == ValueOr(seen + cards[..i])
    {
      assert (seen + cards[..i + 1])[..|seen| + i] == seen + cards[..i];
      h := h | cards[i].valueHash;
      i := i + 1;
    }
    assert cards[..i] == cards;
  }

  /** suit_binary[card->get_suit_int()] |= card->get_value_hash() over the cards. */
  method FillSuitBinary(cards: seq<Card>) returns (sb: array<bv16>)
    requires forall k :: 0 <= k < |cards| ==> 0 <= cards[k].suitIdx < 4
    ensures fresh(sb) && sb.Length == 4
    ensures forall s :: 0 <= s < 4 ==> sb[s] == SuitBinary(cards, s)
  {
    sb := new bv16[4](_ => 0);
    var i := 0;
    while i < |cards|
      invariant 0 <= i <= |cards|
      invariant forall s :: 0 <= s < 4 ==> sb[s] == SuitBinary(cards[..i], s)
    {
      assert cards[..i + 1][..i] == cards[..i];
      var s := cards[i].suitIdx;
      sb[s] := sb[s] | cards[i].valueHash;
      i := i + 1;
    }
    assert cards[..i] == cards;
  }

  /** count[int(*card)]++ over the cards, on top of the counts of the cards already seen. */
  method Tally(count: array<int>, seen: seq<Card>, cards: seq<Card>)
    requires count.Length == 13 && forall r :: 0 <= r < 13 ==> count[r] == CountRank(seen, r)
    requires forall k :: 0 <= k < |cards| ==> 0 <= cards[k].rank < 13
    modifies count
    ensures forall r :: 0 <= r < 13 ==> count[r] == CountRank(seen + cards, r)
  {
    var i := 0;
    assert seen + cards[..0] == seen;
    while i < |cards|
      invariant 0 <= i <= |cards|
      invariant forall r :: 0 <= r < 13 ==> count[r] == CountRank(seen + cards[..i], r)
    {
      assert (seen + cards[..i + 1])[..|seen| + i] == seen + cards[..i];
      count[cards[i].rank] := count[cards[i].rank] + 1;
      i := i + 1;
    }
    assert cards[..i] == cards;
  }

  /** pairs_triplets_hash += count_hash[count[i]] over the thirteen ranks. */
  method PairsHash(count: array<int>) returns (h: int)
    requires count.Length == 13 && PairTable.IsHistogram(count[..])
    ensures h == PairTable.BoardHash(count[..])
  {
    h := 0;
    var i := 0;
    while i < 13
      invariant 0 <= i <= 13 && h == PairTable.BoardHash(count[..i])
    {
      assert count[..i + 1][..i] == count[..i];
      h := h + PairTable.CountHash(count[i]);
      i := i + 1;
    }
    assert count[..13] == count[..];
  }

  /** The suits lookups: the board's sum first, then the player's cards added. */
  method SuitValues(player: seq<Card>, board: seq<Card>) returns (suitBoard: int, suit: int)
    requires HandCards(player, board)
    ensures suitBoard == BoardSuit(player, board) && suit == HandSuit(player, board)
  {
    HandFacts(player, board);
    assert [] + board == board;
    var suitHash := AddSuitHashes([], 0, board);
    suitBoard := FlushTable.Entry(suitHash);
    suitHash := AddSuitHashes(board, suitHash, player);
    suit := FlushTable.Entry(suitHash);
  }

  /** The flush branch: suit_binary filled from all seven (or fewer) cards and flush[] read at the flush suit. */
  method FlushValueOf(t: Tables, player: seq<Card>, board: seq<Card>, suit: int) returns (value: int)
    requires HandCards(player, board) && suit == HandSuit(player, board)
    ensures value == FlushRankValue(t, player, board)
  {
    HandFacts(player, board);
    value := NoValue;
    if suit > 0 {
      var sb := FillSuitBinary(player + board);
      value := t.flush(sb[suit - 1] as int);
    }
  }

  /** The straights lookups: the board's hash first, then the player's cards OR-ed in. */
  method StraightValues(player: seq<Card>, board: seq<Card>) returns (boardStraight: char, possibleStraight: char)
    requires HandCards(player, board)
    ensures boardStraight == BoardStraight(player, board) && possibleStraight == HandStraight(player, board)
  {
    HandFacts(player, board);
    assert [] + board == board;
    var straightHash := OrValueHashes([], 0, board);
    boardStraight := StraightTable.Entry(straightHash as int);
    possibleStraight := 'x';
    if |board| < 5 {
      straightHash := OrValueHashes(board, straightHash, player);
      possibleStraight := StraightTable.Entry(straightHash as int);
    }
  }

  /** The board's per-rank counts and the pairs lookup at their hash. */
  method PairValues(player: seq<Card>, board: seq<Card>) returns (count: array<int>, pairs: (int, int, int))
    requires HandCards(player, board)
    ensures fresh(count) && count.Length == 13 && count[..] == RankCountsOf(board)
    ensures pairs == BoardPairs(player, board)
  {
    HandFacts(player, board);
    ValidParts(board, player);
    RanksInRange(board);
    count := new int[13](_ => 0);
    Tally(count, [], board);
    assert [] + board == board;
    assert count[..] == RankCountsOf(board);
    var pairsHash := PairsHash(count);
    pairs := PairTable.Entry(pairsHash);
  }

  /** What the non-flush branch needs of a dealt hand: the player's ranks index count[], and the hand's counts are at most four. */
  lemma HandCountFacts(player: seq<Card>, board: seq<Card>)
    requires HandCards(player, board)
    ensures forall k :: 0 <= k < |player| ==> 0 <= player[k].rank < 13
    ensures forall r :: CountRank(board + player, r) <= 4
  {
    ValidParts(board, player);
    RanksInRange(player);
    AtMostFourOfARank(board + player);
  }

  /** The per-rank counts of a dealt hand are at most four. */
  lemma HandCounts(player: seq<Card>, board: seq<Card>, q: seq<int>)
    requires HandCards(player, board)
    requires |q| == 13 && forall r :: 0 <= r < 13 ==> q[r] == CountRank(board + player, r)
    ensures RankCounts(q)
  {
    HandCountFacts(player, board);
    CountsAre(q, board + player);
  }

  /** The non-flush value in terms of the hand's per-rank counts. */
  lemma NoflushValueIs(t: Tables, player: seq<Card>, board: seq<Card>, q: seq<int>, hash: int)
    requires HandCards(player, board) && DpShape(t.dp)
    requires |q| == 13 && forall r :: 0 <= r < 13 ==> q[r] == CountRank(board + player, r)
    requires RankCounts(q) && hash == NonflushSum(t.dp, q, |board| + 2, 0)
    ensures NoflushValue(t, player, board) == Noflush(t, |board| + 2, hash)
  {
    CountsAre(q, board + player);
  }

  /** A list of thirteen per-rank counts of cards is their RankCountsOf. */
  lemma CountsAre(q: seq<int>, cards: seq<Card>)
    requires |q| == 13 && forall r :: 0 <= r < 13 ==> q[r] == CountRank(cards, r)
    ensures q == RankCountsOf(cards)
  {
  }

  /** The non-flush branch: the player's cards added to the counts, hash_nonflush, and the noflush table of the hand's size. */
  method NoflushValueOf(t: Tables, player: seq<Card>, board: seq<Card>, count: array<int>) returns (value: int)
    requires HandCards(player, board) && DpShape(t.dp)
    requires count.Length == 13 && count[..] == RankCountsOf(board)
    modifies count
    ensures value == NoflushValue(t, player, board)
  {
    HandCountFacts(player, board);
    assert forall r :: 0 <= r < 13 ==> count[r] == CountRank(board, r) by {
      forall r | 0 <= r < 13 ensures count[r] == CountRank(board, r) {
        assert count[..][r] == count[r];
      }
    }
    Tally(count, board, player);
    var q := count[..];
    HandCounts(player, board, q);
    var hash := HashNonflush(t.dp, q, |board| + 2);
    NoflushValueIs(t, player, board, q, hash);
    value := Noflush(t, |board| + 2, hash);
  }

  /**
   * Rank(player, flop[, turn[, river]]): the three constructors, which differ
   * only in the board's size and in which possible-flush flags they keep.
   */
  method Evaluate(t: Tables, player: seq<Card>, board: seq<Card>) returns (r: Rank)
    requires HandCards(player, board) && DpShape(t.dp)
    ensures r == RankOf(t, player, board)
  {
    var suitBoard, suit := SuitValues(player, board);
    var value := FlushValueOf(t, player, board, suit);
    var possibleFlush, isFlush, flushSuit := 'x', 'o', -1;
    if suit > 0 {
      isFlush, possibleFlush, flushSuit := 's', 'F', suit;
    } else if suit == -1 && |board| < 5 {
      possibleFlush := '1';
    } else if suit == -2 && |board| == 3 {
      possibleFlush := '2';
    }
    var boardFlush := if suitBoard > 0 then 'F' else if suitBoard == -1 then '1' else if suitBoard == -2 then '2' else 'x';
    var boardStraight, possibleStraight := StraightValues(player, board);
    var count, pairs := PairValues(player, board);
    if value == NoValue {
      value := NoflushValueOf(t, player, board, count);
    }
    r := Rank(value, possibleFlush, boardFlush, possibleStraight, boardStraight, flushSuit, isFlush,
      player, board, pairs.1 == 1, pairs.0 == 1, pairs.2);
  }

  /**
   * Under valid tables an evaluated hand has a real rank value, 1 (royal
   * flush) to 7462, so it beats the default rank and has a description.
   */
  lemma RankInRange(t: Tables, player: seq<Card>, board: seq<Card>)
    requires HandCards(player, board) && TablesValid(t)
    ensures var r := RankOf(t, player, board);
      && 1 <= r.value <= WorstHand && |t.description(r.value).0| >= 5
      && |r.player| == 2 && 0 <= r.player[0].rank <= 12 && 0 <= r.player[1].rank <= 12
  {
    HandFacts(player, board);
    assert Valid(player[0]) && Valid(player[1]) by {
      assert player[0] == (board + player)[|board|] && player[1] == (board + player)[|board| + 1];
    }
  }
}
