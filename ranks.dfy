/**
 * The hand rank (inc/rank.h, src/rank.cpp) apart from its constructors:
 * the inverted ordering on the table value, the category breakpoints,
 * card binning, the rank-character comparison, the counting helpers, the
 * board-pair finder, the non-flush hash walk and the descriptor string.
 * The precomputed tables the evaluator reads but that are only declared
 * (flush, noflush5/6/7, rank_description) are uninterpreted functions,
 * and dp is a table of its declared shape with unknown entries.
 */
module Ranks {
  import opened Cards
  import Utils

  /** The value of a rank that was never evaluated; evaluated hands have 1 (best) .. 7462 (worst). */
  const NoValue: int := 0xFFFF
  const WorstHand: int := 7462

  /** The declared lookup tables, as functions of their indices. */
  datatype Tables = Tables(
    flush: int -> int,                // flush[8192]: rank value of a flush, by its rank bits
    noflush5: int -> int,             // noflush5/6/7: rank value by hash_nonflush of the counts
    noflush6: int -> int,
    noflush7: int -> int,
    dp: seq<seq<seq<int>>>,           // dp[5][14][10]
    description: int -> (string, string))  // rank_description[7463][2]: cards in combo, text

  datatype Category = StraightFlush | FourOfAKind | FullHouse | Flush | Straight
                    | ThreeOfAKind | TwoPairs | OnePair | HighCard

  /** The enum's ordinal: 1 for the best category up to 9 for the worst. */
  function Ordinal(c: Category): (k: int)
    ensures 1 <= k <= 9
  {
    match c
    case StraightFlush => 1
    case FourOfAKind => 2
    case FullHouse => 3
    case Flush => 4
    case Straight => 5
    case ThreeOfAKind => 6
    case TwoPairs => 7
    case OnePair => 8
    case HighCard => 9
  }

  /** Every field a Rank holds. */
  datatype Rank = Rank(
    value: int,              // m_value
    possibleFlush: char,     // m_possible_flush
    boardFlush: char,        // m_board_flush
    possibleStraight: char,  // m_possible_straight
    boardStraight: char,     // m_board_straight
    suit: int,               // m_suit: flush suit + 1, or -1
    isFlush: char,           // m_is_flush
    player: seq<Card>,       // m_player_cards
    board: seq<Card>,        // m_board_cards
    threeOnBoard: bool,      // m_three_of_a_kind_on_board
    fourOnBoard: bool,       // m_four_of_a_kind_on_board
    pairsOnBoard: nat)       // m_pairs_on_board

  /** Rank(): value 0xFFFF and the member defaults; the player cards are left unset (empty here). */
  const Default: Rank := Rank(NoValue, 'x', 'x', 'x', 'x', -1, 'o', [], [], false, false, 0)

  // The comparison operators: a smaller table value is a better hand.
  predicate Less(a: Rank, b: Rank) { a.value > b.value }
  predicate LessEq(a: Rank, b: Rank) { a.value >= b.value }
  predicate Greater(a: Rank, b: Rank) { a.value < b.value }
  predicate GreaterEq(a: Rank, b: Rank) { a.value <= b.value }
  predicate Same(a: Rank, b: Rank) { a.value == b.value }

  /** The operators form one total preorder: > is the converse of <, and <=, >= are their reflexive closures. */
  lemma OrderConsistent(a: Rank, b: Rank, c: Rank)
    ensures Greater(a, b) <==> Less(b, a)
    ensures LessEq(a, b) <==> Less(a, b) || Same(a, b)
    ensures GreaterEq(a, b) <==> !Less(a, b)
    ensures Less(a, b) || Same(a, b) || Greater(a, b)
    ensures Greater(a, b) && Greater(b, c) ==> Greater(a, c)
  {
  }

  /** Every evaluated hand beats the default rank, which find_winner seeds its search with. */
  lemma DefaultIsWorst(r: Rank)
    requires 1 <= r.value <= WorstHand
    ensures Greater(r, Default) && !Same(r, Default) && !GreaterEq(Default, r)
  {
  }

  /** get_rank_category: the category of a table value by its fixed breakpoints. */
  function GetCategory(value: int): Category
  {
    if value > 6185 then HighCard
    else if value > 3325 then OnePair
    else if value > 2467 then TwoPairs
    else if value > 1609 then ThreeOfAKind
    else if value > 1599 then Straight
    else if value > 322 then Flush
    else if value > 166 then FullHouse
    else if value > 10 then FourOfAKind
    else StraightFlush
  }

  /** A better (smaller) value never falls in a worse category. */
  lemma CategoryMonotone(v: int, w: int)
    requires v <= w
    ensures Ordinal(GetCategory(v)) <= Ordinal(GetCategory(w))
  {
  }

  /** bool_to_str */
  function BoolToStr(b: bool): (c: char)
    ensures c == 't' <==> b
    ensures c == 't' || c == 'f'
  {
    if b then 't' else 'f'
  }

  /** bin_card(char): low cards to 'l', middle cards to 'L', the rest unchanged. */
  function BinChar(c: char): (r: char)
    ensures r == 'l' || r == 'L' || r == c
  {
    if c < '6' then 'l' else if c < '9' then 'L' else c
  }

  /** bin_card(Card): the same bins, decided on get_value(). */
  function BinCard(c: Card): (r: char)
    requires 0 <= c.rank <= 12
  {
    if GetValue(c) >= 9 then c.valueChar else if GetValue(c) >= 6 then 'L' else 'l'
  }

  /** The two bin_card overloads agree on every card of the deck. */
  lemma BinAgree(c: Card)
    requires Valid(c)
    ensures BinCard(c) == BinChar(c.valueChar)
    ensures BinCard(c) == 'l' <==> c.rank <= 3
    ensures BinCard(c) == 'L' <==> 4 <= c.rank <= 6
  {
  }

  /** compare_cards' key: J, Q, K, A just above '9', every other char its own code as a uint8_t. */
  function CompareKey(c: char): int
  {
    if c == 'J' then '9' as int + 1
    else if c == 'Q' then '9' as int + 2
    else if c == 'K' then '9' as int + 3
    else if c == 'A' then '9' as int + 4
    else c as int % 256
  }

  /** compare_cards(a, b): a's key above b's. */
  predicate CompareCards(a: char, b: char)
  {
    CompareKey(a) > CompareKey(b)
  }

  /** compare_cards is a strict order on characters. */
  lemma CompareStrict(a: char, b: char, c: char)
    ensures !CompareCards(a, a)
    ensures CompareCards(a, b) ==> !CompareCards(b, a)
    ensures CompareCards(a, b) && CompareCards(b, c) ==> CompareCards(a, c)
  {
  }

  /** On the value characters other than 'T', compare_cards follows the rank order. */
  lemma CompareFollowsRank(a: int, b: int)
    requires 0 <= a <= 12 && 0 <= b <= 12 && a != 8 && b != 8
    ensures CompareCards(IntToStr(a), IntToStr(b)) <==> a > b
  {
  }

  /** 'T' keeps its ASCII code 84, so it compares above every other value character, the ace included. */
  lemma TenAboveAce(b: int)
    requires 0 <= b <= 12 && b != 8
    ensures CompareCards('T', IntToStr(b)) && !CompareCards(IntToStr(b), 'T')
  {
  }

  /** count_player_cards(card): how many of the two hole cards show value character c. */
  function CountPlayerCards(player: seq<Card>, c: char): (n: int)
    requires |player| == 2
    ensures n == CountValue(player, c) && 0 <= n <= 2
  {
    assert player[..1][..0] == [] && player[..2][..1] == player[..1] && player == player[..2];
    var n := if c == player[0].valueChar then 1 else 0;
    if c == player[1].valueChar then n + 1 else n
  }

  /**
   * count_player_cards(card, suit): the same count restricted to suit
   * index suit - 1 (the suits table numbers suits from 1), and 0 for a
   * negative suit.
   */
  function CountPlayerCardsSuited(player: seq<Card>, c: char, suit: int): (n: int)
    requires |player| == 2
    ensures suit < 0 ==> n == 0
    ensures suit >= 0 ==> n == CountValueOfSuit(player, c, suit - 1)
    ensures 0 <= n <= CountPlayerCards(player, c)
  {
    assert player[..1][..0] == [] && player[..2][..1] == player[..1] && player == player[..2];
    if suit < 0 then 0
    else
      var n := if c == player[0].valueChar && suit - 1 == player[0].suitIdx then 1 else 0;
      if c == player[1].valueChar && suit - 1 == player[1].suitIdx then n + 1 else n
  }

  /**
   * The scan of find_non_poker_pair over the keys of the board cards: a and
   * b are the first two distinct keys other than the poker key ('x' while
   * unset); the first repeat of a or b is returned, and 'x' when a third
   * distinct key turns up first or the board runs out.
   */
  function PairScan(keys: seq<char>, poker: char, a: char, b: char): char
  {
    if keys == [] then 'x'
    else if keys[0] == poker then PairScan(keys[1..], poker, a, b)
    else if a == 'x' then PairScan(keys[1..], poker, keys[0], b)
    else if a == keys[0] then a
    else if b == 'x' then PairScan(keys[1..], poker, a, keys[0])
    else if b == keys[0] then b
    else 'x'
  }

  /** The value characters of the cards. */
  function ValueChars(cards: seq<Card>): (s: seq<char>)
    ensures |s| == |cards| && forall k :: 0 <= k < |cards| ==> s[k] == cards[k].valueChar
  {
    if cards == [] then [] else [cards[0].valueChar] + ValueChars(cards[1..])
  }

  /** What `char(*c)` yields for a card: operator int, the rank index 0..12, narrowed to a char. */
  function RankChars(cards: seq<Card>): (s: seq<char>)
    requires forall k :: 0 <= k < |cards| ==> 0 <= cards[k].rank <= 12
    ensures |s| == |cards| && forall k :: 0 <= k < |cards| ==> s[k] == cards[k].rank as char
  {
    if cards == [] then [] else [cards[0].rank as char] + RankChars(cards[1..])
  }

  /** find_non_poker_pair as written: the board cards are keyed by `char(*c)`, their rank index. */
  function FindNonPokerPairAsWritten(board: seq<Card>, poker: char): char
    requires forall k :: 0 <= k < |board| ==> 0 <= board[k].rank <= 12
  {
    PairScan(RankChars(board), poker, 'x', 'x')
  }

  /** find_non_poker_pair as intended: the board cards keyed by their value character, like the poker card. */
  function NonPokerPair(board: seq<Card>, poker: char): char
  {
    PairScan(ValueChars(board), poker, 'x', 'x')
  }

  /** How many times c occurs in s. */
  function Occurrences(s: seq<char>, c: char): (n: nat)
    ensures n <= |s|
  {
    if s == [] then 0 else (if s[0] == c then 1 else 0) + Occurrences(s[1..], c)
  }

  /**
   * The scan returns 'x' or a key other than the poker key that occurs twice:
   * once before the scan (as a or b) and once more in what is left.
   */
  lemma {:induction false} PairScanSound(keys: seq<char>, poker: char, a: char, b: char)
    requires (a != 'x' ==> a != poker) && (b != 'x' ==> b != poker) && (a == 'x' ==> b == 'x')
    requires 'x' !in keys
    ensures var r := PairScan(keys, poker, a, b);
      r == 'x' || (r != poker && (r == a || r == b || Occurrences(keys, r) >= 2) && Occurrences(keys, r) >= 1)
  {
    if keys != [] {
      assert 'x' !in keys[1..] by {
        forall k | 0 <= k < |keys[1..]| ensures keys[1..][k] != 'x' {
          assert keys[1..][k] == keys[k + 1];
        }
      }
      var c := keys[0];
      if c == poker {
        PairScanSound(keys[1..], poker, a, b);
      } else if a == 'x' {
        PairScanSound(keys[1..], poker, c, b);
      } else if a != c && b == 'x' {
        PairScanSound(keys[1..], poker, a, c);
      }
    }
  }

  /** The intended finder returns 'x' or a board value other than the poker card's that lies on the board twice. */
  lemma NonPokerPairSound(board: seq<Card>, poker: char)
    requires forall k :: 0 <= k < |board| ==> board[k].valueChar != 'x'
    ensures var r := NonPokerPair(board, poker);
      r == 'x' || (r != poker && Occurrences(ValueChars(board), r) >= 2)
  {
    var keys := ValueChars(board);
    assert 'x' !in keys;
    PairScanFromStart(keys, poker);
  }

  /** From the initial state the scan's result occurs at least twice among the keys. */
  lemma {:induction false} PairScanFromStart(keys: seq<char>, poker: char)
    requires 'x' !in keys
    ensures var r := PairScan(keys, poker, 'x', 'x'); r == 'x' || (r != poker && Occurrences(keys, r) >= 2)
  {
    if keys != [] {
      assert 'x' !in keys[1..] by {
        forall k | 0 <= k < |keys[1..]| ensures keys[1..][k] != 'x' {
          assert keys[1..][k] == keys[k + 1];
        }
      }
      var c := keys[0];
      if c == poker {
        PairScanFromStart(keys[1..], poker);
      } else {
        SecondOccurrence(keys[1..], poker, c);
      }
    }
  }

  /** Once a holds the first non-poker key c, any result is c seen again or a later key seen twice. */
  lemma {:induction false} SecondOccurrence(rest: seq<char>, poker: char, c: char)
    requires 'x' !in rest && c != 'x' && c != poker
    ensures var r := PairScan(rest, poker, c, 'x');
      r == 'x' || (r != poker && Occurrences([c] + rest, r) >= 2)
  {
    var r := PairScan(rest, poker, c, 'x');
    PairScanSound(rest, poker, c, 'x');
    assert ([c] + rest)[1..] == rest;
    if r != 'x' && r != c && rest != [] {
      var d := rest[0];
      assert 'x' !in rest[1..] by {
        forall k | 0 <= k < |rest[1..]| ensures rest[1..][k] != 'x' {
          assert rest[1..][k] == rest[k + 1];
        }
      }
      if d == poker {
        SecondOccurrence(rest[1..], poker, c);
        assert Occurrences([c] + rest[1..], r) >= 2;
        assert ([c] + rest[1..])[1..] == rest[1..];
      } else if d != c {
        PairScanSound(rest[1..], poker, c, d);
      }
    }
  }

  /**
   * find_non_poker_pair: the loop over the board cards with its early
   * returns, keyed by value character.
   */
  method FindNonPokerPair(board: seq<Card>, poker: char) returns (r: char)
    ensures r == NonPokerPair(board, poker)
  {
    var keys := ValueChars(board);
    var a, b := 'x', 'x';
    var i := 0;
    while i < |board|
      invariant 0 <= i <= |board|
      invariant PairScan(keys[i..], poker, a, b) == PairScan(keys, poker, 'x', 'x')
    {
      var c := board[i].valueChar;
      assert keys[i..][0] == c && keys[i..][1..] == keys[i + 1..];
      if c != poker {
        if a == 'x' {
          a := c;
        } else if a == c {
          return a;
        } else if b == 'x' {
          b := c;
        } else if b == c {
          return b;
        } else {
          return 'x';
        }
      }
      i := i + 1;
    }
    return 'x';
  }

  /**
   * The board K K 5 5 of a player holding four kings: the code as written
   * keys the board by rank index and returns the kings' index 11 as a
   * character instead of the pair of fives.
   */
  lemma FindNonPokerPairCounterexample()
    ensures var board := [FromCode(45), FromCode(46), FromCode(12), FromCode(13)];
      FindNonPokerPairAsWritten(board, 'K') == 11 as char && NonPokerPair(board, 'K') == '5'
  {
    var board := [FromCode(45), FromCode(46), FromCode(12), FromCode(13)];
    assert RankChars(board) == [11 as char, 11 as char, 3 as char, 3 as char];
    assert ValueChars(board) == ['K', 'K', '5', '5'];
  }

  /** As written, the finder can never return a value character: its keys are control characters 0..12. */
  lemma AsWrittenNeverAValue(board: seq<Card>, poker: char)
    requires forall k :: 0 <= k < |board| ==> 0 <= board[k].rank <= 12
    ensures var r := FindNonPokerPairAsWritten(board, poker); r == 'x' || r as int <= 12
  {
    var keys := RankChars(board);
    assert 'x' !in keys;
    PairScanFromStart(keys, poker);
    var r := PairScan(keys, poker, 'x', 'x');
    if r != 'x' {
      var k :| 0 <= k < |keys| && keys[k] == r by {
        OccursIn(keys, r);
      }
    }
  }

  /**
   * Whenever the finder as written reports a pair, every value character
   * compares above its result, so the four-of-a-kind flag it feeds reads 't'.
   */
  lemma AsWrittenPairBelowValues(board: seq<Card>, poker: char, k: int)
    requires forall i :: 0 <= i < |board| ==> 0 <= board[i].rank <= 12
    requires 0 <= k <= 12
    ensures var r := FindNonPokerPairAsWritten(board, poker);
      r != 'x' ==> CompareCards(IntToStr(k), r)
  {
    AsWrittenNeverAValue(board, poker);
  }

  lemma {:induction false} OccursIn(s: seq<char>, c: char)
    requires Occurrences(s, c) >= 1
    ensures c in s
  {
    if s[0] != c {
      OccursIn(s[1..], c);
    }
  }

  /** dp has the declared shape dp[5][14][10]. */
  ghost predicate DpShape(dp: seq<seq<seq<int>>>)
  {
    |dp| == 5 && forall a :: 0 <= a < 5 ==> |dp[a]| == 14 && forall b :: 0 <= b < 14 ==> |dp[a][b]| == 10
  }

  /**
   * What the generated tables hold: dp has its declared shape, a flush entry
   * is a rank value or NoValue, the non-flush tables hold rank values, and
   * every rank value has a description of at least five cards.
   */
  ghost predicate TablesValid(t: Tables)
  {
    && DpShape(t.dp)
    && (forall i :: t.flush(i) == NoValue || 1 <= t.flush(i) <= WorstHand)
    && (forall i :: 1 <= t.noflush5(i) <= WorstHand)
    && (forall i :: 1 <= t.noflush6(i) <= WorstHand)
    && (forall i :: 1 <= t.noflush7(i) <= WorstHand)
    && (forall v :: 1 <= v <= WorstHand ==> |t.description(v).0| >= 5)
  }

  /** A per-rank count array q[13] of a hand without five of a rank. */
  predicate RankCounts(q: seq<int>)
  {
    |q| == 13 && forall m :: 0 <= m < 13 ==> 0 <= q[m] <= 4
  }

  /** The dp walk of hash_nonflush from rank i on, with k cards still to account for. */
  function NonflushSum(dp: seq<seq<seq<int>>>, q: seq<int>, k: int, i: int): int
    requires DpShape(dp) && RankCounts(q) && 0 <= i <= 13 && 1 <= k <= 9
    decreases 13 - i
  {
    if i == 13 then 0
    else
      var term := dp[q[i]][12 - i][k];
      if k - q[i] <= 0 then term else term + NonflushSum(dp, q, k - q[i], i + 1)
  }

  /** The number of cards counted by q[i..j]. */
  function CountSum(q: seq<int>, i: int, j: int): int
    requires 0 <= i <= j <= |q|
    decreases j - i
  {
    if i == j then 0 else q[i] + CountSum(q, i + 1, j)
  }

  /**
   * hash_nonflush: the walk stops once the counts seen cover k, so the
   * counts of the ranks after that point play no part in the hash.
   */
  lemma {:induction false} NonflushIgnoresTail(dp: seq<seq<seq<int>>>, q1: seq<int>, q2: seq<int>, k: int, i: int, j: int)
    requires DpShape(dp) && RankCounts(q1) && RankCounts(q2) && 0 <= i <= j <= 13 && 1 <= k <= 9
    requires forall m :: i <= m < j ==> q1[m] == q2[m]
    requires k <= CountSum(q1, i, j)
    ensures NonflushSum(dp, q1, k, i) == NonflushSum(dp, q2, k, i)
    decreases j - i
  {
    if i < j && k - q1[i] > 0 {
      NonflushIgnoresTail(dp, q1, q2, k - q1[i], i + 1, j);
    }
  }

  /** hash_nonflush(q, k): the loop, proved to compute the walk. */
  method HashNonflush(dp: seq<seq<seq<int>>>, q: seq<int>, k: int) returns (sum: int)
    requires DpShape(dp) && RankCounts(q) && 1 <= k <= 9
    ensures sum == NonflushSum(dp, q, k, 0)
  {
    sum := 0;
    var rest := k;
    var i := 0;
    while i < 13
      invariant 0 <= i <= 13 && 1 <= rest <= 9
      invariant sum + NonflushSum(dp, q, rest, i) == NonflushSum(dp, q, k, 0)
    {
      sum := sum + dp[q[i]][12 - i][rest];
      if rest - q[i] <= 0 {
        break;
      }
      rest := rest - q[i];
      i := i + 1;
    }
  }

  /** The first three characters of get_string_representation for each category. */
  function CategoryPrefix(c: Category): (s: string)
    ensures |s| == 3 && s[2] == '.'
  {
    match c
    case HighCard => "HC."
    case OnePair => "1P."
    case TwoPairs => "2P."
    case ThreeOfAKind => "TR."
    case Straight => "ST."
    case Flush => "FL."
    case FullHouse => "FH."
    case FourOfAKind => "PK."
    case StraightFlush => "SF."
  }

  /** The prefix names the category: distinct categories get distinct prefixes. */
  lemma PrefixDeterminesCategory(c: Category, d: Category)
    requires CategoryPrefix(c) == CategoryPrefix(d)
    ensures c == d
  {
    assert CategoryPrefix(c)[..2] == CategoryPrefix(d)[..2];
  }

  /** The four draw flags the lower categories end with. */
  function Flags(r: Rank): string
  {
    [r.possibleFlush, r.boardFlush, r.possibleStraight, r.boardStraight]
  }

  /** The number of highest combination cards held: 2, 1 or 0. */
  function HeldOfTop(first: int, second: int): nat
  {
    if first > 0 then (if second > 0 then 2 else 1) else 0
  }

  /** What the lower categories (high card, pair, two pairs, trips) say about the held cards. */
  function HeldPart(c: Category, hand: string, p: seq<Card>): string
    requires |p| == 2 && 0 <= p[0].rank <= 12 && 0 <= p[1].rank <= 12 && |hand| >= 5
  {
    match c
    case HighCard =>
      if Cards.Greater(p[0], p[1]) then [BinCard(p[0]), BinCard(p[1])] else [BinCard(p[1]), BinCard(p[0])]
    case OnePair =>
      [BinChar(hand[0])] + Utils.DecimalString(CountPlayerCards(p, hand[0]))
        + [BinChar(hand[2]), BoolToStr(CountPlayerCards(p, hand[2]) > 0)]
    case TwoPairs =>
      [BinChar(hand[0])] + Utils.DecimalString(CountPlayerCards(p, hand[0]))
        + [BinChar(hand[2])] + Utils.DecimalString(CountPlayerCards(p, hand[2]))
    case ThreeOfAKind =>
      var n := CountPlayerCards(p, hand[0]);
      var kicker :=
        if n == 2 then "x"
        else if CountPlayerCards(p, hand[3]) > 0 then [BinChar(hand[3]), 't']
        else if CountPlayerCards(p, hand[4]) > 0 then [BinChar(hand[4]), 'f']
        else "";
      [BinChar(hand[0])] + Utils.DecimalString(n) + kicker
    case _ => ""
  }

  /**
   * What the made hands (straight and better) say, each with the board facts
   * that matter for it; pair is what find_non_poker_pair reports for the
   * four-of-a-kind flag.
   */
  function MadePart(c: Category, hand: string, r: Rank, pair: char): string
    requires |r.player| == 2 && |hand| >= 5
  {
    var p := r.player;
    match c
    case Straight =>
      [BinChar(hand[0])] + Utils.DecimalString(HeldOfTop(CountPlayerCards(p, hand[0]), CountPlayerCards(p, hand[1])))
        + "." + [r.possibleFlush, r.boardFlush, BoolToStr(r.threeOnBoard)] + Utils.DecimalString(r.pairsOnBoard)
    case Flush =>
      var held := HeldOfTop(CountPlayerCardsSuited(p, hand[0], r.suit), CountPlayerCardsSuited(p, hand[1], r.suit));
      [BinChar(hand[0])] + Utils.DecimalString(held) + "." + [BoolToStr(r.threeOnBoard)] + Utils.DecimalString(r.pairsOnBoard)
    case FullHouse =>
      Utils.DecimalString(CountPlayerCards(p, hand[0])) + Utils.DecimalString(CountPlayerCards(p, hand[3]))
        + "." + Utils.DecimalString(r.pairsOnBoard) + [BoolToStr(CompareCards(hand[0], hand[3]))]
    case FourOfAKind =>
      var n := CountPlayerCards(p, hand[0]);
      if n == 1 then
        Utils.DecimalString(n) + [BoolToStr(r.pairsOnBoard == 1 && CompareCards(hand[4], pair))]
      else if n == 2 then
        Utils.DecimalString(n)
          + [BoolToStr(if r.pairsOnBoard == 2 then CompareCards(hand[4], pair)
                       else r.threeOnBoard && CompareCards(hand[4], hand[0]))]
      else
        [BinChar(hand[4]), BoolToStr(CountPlayerCards(p, hand[4]) > 0)]
    case StraightFlush =>
      [BinChar(hand[0]), BoolToStr(CountPlayerCardsSuited(p, hand[0], r.suit) > 0)]
    case _ => ""
  }

  /** The categories whose descriptor ends with the four draw flags. */
  predicate ShowsDraws(c: Category)
  {
    c == HighCard || c == OnePair || c == TwoPairs || c == ThreeOfAKind
  }

  /** What get_string_representation needs of a rank: two hole cards and a value with a description. */
  predicate Describable(t: Tables, r: Rank)
  {
    && |r.player| == 2 && 0 <= r.player[0].rank <= 12 && 0 <= r.player[1].rank <= 12
    && 0 <= r.value <= WorstHand && |t.description(r.value).0| >= 5
  }

  /** cards_in_combo: the first string of the value's rank_description. */
  function Combo(t: Tables, r: Rank): (hand: string)
    requires Describable(t, r)
    ensures |hand| >= 5 && hand == t.description(r.value).0
  {
    t.description(r.value).0
  }

  /**
   * get_string_representation with the board-pair finder's report given:
   * the category prefix, then what the player holds of the combination and
   * the board facts that matter for it.
   */
  function Representation(t: Tables, r: Rank, pair: char): (s: string)
    requires Describable(t, r)
    ensures |s| >= 3 && s[..3] == CategoryPrefix(GetCategory(r.value))
    ensures ShowsDraws(GetCategory(r.value)) ==> |s| >= 8 && s[|s| - 5..] == "." + Flags(r)
  {
    var hand := Combo(t, r);
    var c := GetCategory(r.value);
    var prefix := CategoryPrefix(c);
    if ShowsDraws(c) then
      var s := prefix + HeldPart(c, hand, r.player) + "." + Flags(r);
      assert s[..3] == prefix && s[|s| - 5..] == "." + Flags(r);
      s
    else
      var s := prefix + MadePart(c, hand, r, pair);
      assert s[..3] == prefix;
      s
  }

  /**
   * get_string_representation, with the board pair of the four-of-a-kind
   * flag found by the intended finder, NonPokerPair.
   */
  function Describe(t: Tables, r: Rank): (s: string)
    requires Describable(t, r)
    ensures |s| >= 3 && s[..3] == CategoryPrefix(GetCategory(r.value))
    ensures ShowsDraws(GetCategory(r.value)) ==> |s| >= 8 && s[|s| - 5..] == "." + Flags(r)
  {
    Representation(t, r, NonPokerPair(r.board, Combo(t, r)[0]))
  }

  /**
   * get_string_representation as written: the four-of-a-kind flag reads
   * find_non_poker_pair as written. Only that flag can differ from Describe.
   */
  function DescribeAsWritten(t: Tables, r: Rank): (s: string)
    requires Describable(t, r) && forall k :: 0 <= k < |r.board| ==> 0 <= r.board[k].rank <= 12
    ensures |s| >= 3 && s[..3] == CategoryPrefix(GetCategory(r.value))
    ensures GetCategory(r.value) != FourOfAKind ==> s == Describe(t, r)
    ensures CountPlayerCards(r.player, Combo(t, r)[0]) == 0 ==> s == Describe(t, r)
  {
    Representation(t, r, FindNonPokerPairAsWritten(r.board, Combo(t, r)[0]))
  }

  /**
   * Hole K♣ K♠ at the turn with board K♦ K♥ 5♣ 5♦: the combination is
   * K K K K 5 with two pairs on the board. The code as written compares '5'
   * with the character of the kings' rank index and reports a possibly
   * higher four of a kind ("PK.2t"); the intended finder sees the pair of
   * fives, below the kicker's own rank, and reports none ("PK.2f").
   */
  lemma DescribeCounterexample(t: Tables, r: Rank)
    requires r.player == [FromCode(44), FromCode(47)]
    requires r.board == [FromCode(45), FromCode(46), FromCode(12), FromCode(13)]
    requires 0 <= r.value <= WorstHand && GetCategory(r.value) == FourOfAKind
    requires t.description(r.value).0 == "KKKK5" && r.pairsOnBoard == 2
    ensures DescribeAsWritten(t, r) == "PK.2t"
    ensures Describe(t, r) == "PK.2f"
  {
    FindNonPokerPairCounterexample();
    assert CountPlayerCards(r.player, 'K') == 2;
    assert Utils.DecimalString(2) == "2";
  }

  /** The digit of a hole-card count 0..2, as to_string writes it. */
  lemma CountDigit(n: nat)
    requires n <= 9
    ensures Utils.DecimalString(n) == [Utils.DigitChar(n)]
  {
  }

  /**
   * High card: the bins of the two hole cards, the higher-ranked first, then
   * '.' and the draw flags.
   */
  lemma DescribeHighCard(t: Tables, r: Rank)
    requires Describable(t, r) && GetCategory(r.value) == HighCard
    ensures var s := Describe(t, r); var p := r.player;
      && |s| == 10
      && (p[0].rank > p[1].rank ==> s[3] == BinCard(p[0]) && s[4] == BinCard(p[1]))
      && (p[0].rank <= p[1].rank ==> s[3] == BinCard(p[1]) && s[4] == BinCard(p[0]))
  {
  }

  /**
   * One pair and two pairs: the bin of the (higher) pair's value and how many
   * of its cards the player holds; then, for one pair, the bin of the first
   * kicker and whether the player holds it, and for two pairs the bin of the
   * lower pair and how many of it the player holds.
   */
  lemma DescribePairs(t: Tables, r: Rank)
    requires Describable(t, r) && (GetCategory(r.value) == OnePair || GetCategory(r.value) == TwoPairs)
    ensures var s := Describe(t, r); var hand := Combo(t, r); var p := r.player;
      && |s| == 12
      && s[3] == BinChar(hand[0]) && s[4] == Utils.DigitChar(CountPlayerCards(p, hand[0]))
      && s[5] == BinChar(hand[2])
      && (GetCategory(r.value) == OnePair ==> (s[6] == 't' <==> CountPlayerCards(p, hand[2]) > 0))
      && (GetCategory(r.value) == TwoPairs ==> s[6] == Utils.DigitChar(CountPlayerCards(p, hand[2])))
  {
    var hand := Combo(t, r);
    CountDigit(CountPlayerCards(r.player, hand[0]));
    CountDigit(CountPlayerCards(r.player, hand[2]));
  }

  /**
   * Three of a kind: the bin of the triplet's value and how many of it the
   * player holds; then 'x' when the player holds two of it, otherwise the
   * bin of the highest kicker the player holds with 't' when it is the first
   * kicker and 'f' when it is the second, or nothing when it holds neither.
   */
  lemma DescribeTrips(t: Tables, r: Rank)
    requires Describable(t, r) && GetCategory(r.value) == ThreeOfAKind
    ensures var s := Describe(t, r); var hand := Combo(t, r); var p := r.player;
      var n := CountPlayerCards(p, hand[0]);
      && s[3] == BinChar(hand[0]) && s[4] == Utils.DigitChar(n)
      && (n == 2 ==> |s| == 11 && s[5] == 'x')
      && (n < 2 && CountPlayerCards(p, hand[3]) > 0 ==> |s| == 12 && s[5] == BinChar(hand[3]) && s[6] == 't')
      && (n < 2 && CountPlayerCards(p, hand[3]) == 0 && CountPlayerCards(p, hand[4]) > 0 ==>
            |s| == 12 && s[5] == BinChar(hand[4]) && s[6] == 'f')
      && (n < 2 && CountPlayerCards(p, hand[3]) == 0 && CountPlayerCards(p, hand[4]) == 0 ==> |s| == 10)
  {
    CountDigit(CountPlayerCards(r.player, Combo(t, r)[0]));
  }

  /**
   * Straight and flush: the bin of the combination's top card and a digit
   * saying how many of its two highest cards the player holds (0, 1 for the
   * top card alone, 2 for both; for a flush, counted in the flush suit);
   * then '.', the flags that matter and the number of pairs on the board.
   */
  lemma DescribeStraightOrFlush(t: Tables, r: Rank)
    requires Describable(t, r) && (GetCategory(r.value) == Straight || GetCategory(r.value) == Flush)
    ensures var s := Describe(t, r); var hand := Combo(t, r); var p := r.player;
      var top := if GetCategory(r.value) == Straight then CountPlayerCards(p, hand[0]) else CountPlayerCardsSuited(p, hand[0], r.suit);
      var next := if GetCategory(r.value) == Straight then CountPlayerCards(p, hand[1]) else CountPlayerCardsSuited(p, hand[1], r.suit);
      && s[3] == BinChar(hand[0]) && s[5] == '.'
      && (s[4] == '0' <==> top == 0)
      && (s[4] == '1' <==> top > 0 && next == 0)
      && (s[4] == '2' <==> top > 0 && next > 0)
      && (GetCategory(r.value) == Straight ==>
            s[6..9] == [r.possibleFlush, r.boardFlush, BoolToStr(r.threeOnBoard)] && s[9..] == Utils.DecimalString(r.pairsOnBoard))
      && (GetCategory(r.value) == Flush ==>
            s[6] == BoolToStr(r.threeOnBoard) && s[7..] == Utils.DecimalString(r.pairsOnBoard))
  {
    var hand := Combo(t, r);
    var p := r.player;
    var top := if GetCategory(r.value) == Straight then CountPlayerCards(p, hand[0]) else CountPlayerCardsSuited(p, hand[0], r.suit);
    var next := if GetCategory(r.value) == Straight then CountPlayerCards(p, hand[1]) else CountPlayerCardsSuited(p, hand[1], r.suit);
    CountDigit(HeldOfTop(top, next));
  }

  /**
   * Full house: how many of the triplet's and of the pair's cards the player
   * holds, then '.', the number of pairs on the board and whether the
   * triplet's value compares above the pair's.
   */
  lemma DescribeFullHouse(t: Tables, r: Rank)
    requires Describable(t, r) && GetCategory(r.value) == FullHouse
    ensures var s := Describe(t, r); var hand := Combo(t, r); var p := r.player;
      && s[3] == Utils.DigitChar(CountPlayerCards(p, hand[0]))
      && s[4] == Utils.DigitChar(CountPlayerCards(p, hand[3]))
      && s[5] == '.'
      && s[6..|s| - 1] == Utils.DecimalString(r.pairsOnBoard)
      && (s[|s| - 1] == 't' <==> CompareCards(hand[0], hand[3]))
  {
    var hand := Combo(t, r);
    CountDigit(CountPlayerCards(r.player, hand[0]));
    CountDigit(CountPlayerCards(r.player, hand[3]));
  }

  /** A bin is never one of the digits 0..8, so a count digit cannot be mistaken for one. */
  lemma BinNotCount(c: char)
    ensures !('0' <= BinChar(c) <= '8')
  {
  }

  /**
   * Four of a kind: when the player holds some of the four, the count and a
   * flag for a possibly higher four of a kind (one held with one pair on the
   * board, or two held with two pairs or three of a kind on the board, above
   * the kicker); otherwise the kicker's bin and whether the player holds it.
   * The fourth character is '1' or '2' exactly when the player holds some.
   */
  lemma DescribeFourOfAKind(t: Tables, r: Rank)
    requires Describable(t, r) && GetCategory(r.value) == FourOfAKind
    ensures var s := Describe(t, r); var hand := Combo(t, r); var p := r.player;
      var n := CountPlayerCards(p, hand[0]); var pair := NonPokerPair(r.board, hand[0]);
      && |s| == 5
      && ((s[3] == '1' || s[3] == '2') <==> n > 0)
      && (n > 0 ==> s[3] == Utils.DigitChar(n))
      && (n == 1 ==> (s[4] == 't' <==> r.pairsOnBoard == 1 && CompareCards(hand[4], pair)))
      && (n == 2 ==> (s[4] == 't' <==> if r.pairsOnBoard == 2 then CompareCards(hand[4], pair)
                                       else r.threeOnBoard && CompareCards(hand[4], hand[0])))
      && (n == 0 ==> s[3] == BinChar(hand[4]) && (s[4] == 't' <==> CountPlayerCards(p, hand[4]) > 0))
  {
    var hand := Combo(t, r);
    CountDigit(CountPlayerCards(r.player, hand[0]));
    BinNotCount(hand[4]);
  }

  /** Straight flush: the bin of the top card and whether the player holds it in the flush suit. */
  lemma DescribeStraightFlush(t: Tables, r: Rank)
    requires Describable(t, r) && GetCategory(r.value) == StraightFlush
    ensures var s := Describe(t, r); var hand := Combo(t, r);
      && |s| == 5 && s[3] == BinChar(hand[0])
      && (s[4] == 't' <==> CountPlayerCardsSuited(r.player, hand[0], r.suit) > 0)
  {
  }
}
