/**
 * The two-seat Texas hold'em game (inc/game.h, src/game.cpp): the deal,
 * the betting rounds, the ranks of the seats, the winners at the reveal,
 * the rewards, the valid actions and the information-set key.
 *
 * The invariant of a hand in play is stated on values (the seat sequence,
 * the deck's card sequence, the board) so that each step of the class is
 * proved by a few lemmas about those values.
 */
module Holdem {
  import opened Cards
  import opened Players
  import opened Actions
  import opened Betting
  import opened Wrappers
  import Ranks
  import Evaluator
  import Decks
  import Utils

  // ---------------------------------------------------------------- rounds

  /** Round, whose RIVER member carries the ordinal 13. */
  datatype Round = Preflop | Flop | Turn | River | Reveal
  {
    function Ordinal(): int
    {
      match this
      case Preflop => 0
      case Flop => 1
      case Turn => 2
      case River => 13
      case Reveal => 3
    }
  }

  /** static_cast<Round> of an ordinal the enum names. */
  function RoundOf(k: int): (r: Round)
    requires k == 0 || k == 1 || k == 2 || k == 3 || k == 13
    ensures r.Ordinal() == k
  {
    if k == 0 then Preflop else if k == 1 then Flop else if k == 2 then Turn else if k == 3 then Reveal else River
  }

  /** next_round: REVEAL stays, any other round goes to the ordinal plus one modulo REVEAL + 1. */
  function NextRound(r: Round): Round
  {
    if r == Reveal then Reveal else RoundOf((r.Ordinal() + 1) % (Reveal.Ordinal() + 1))
  }

  /**
   * The rounds of a hand: PREFLOP, FLOP, TURN, then REVEAL. No round is
   * followed by RIVER, so the river card is dealt but never shown.
   */
  lemma RoundSequence(r: Round)
    ensures NextRound(Preflop) == Flop && NextRound(Flop) == Turn && NextRound(Turn) == Reveal
    ensures NextRound(Reveal) == Reveal
    ensures NextRound(r) != River && NextRound(r) != Preflop
  {
  }

  /** The community cards the seats are ranked with in a round: none preflop, the flop, then the flop and the turn. */
  function ShownBoard(round: Round, flop: seq<Card>, turn: Card, river: Card): seq<Card>
  {
    match round
    case Preflop => []
    case Flop => flop
    case Turn => flop + [turn]
    case River => flop + [turn, river]
    case Reveal => flop + [turn]
  }

  // ---------------------------------------------------------------- ranks of the seats

  /**
   * The preflop rank string: the value character of the higher card, then
   * the other's, then 's' for suited or 'o' for offsuit.
   */
  function PreflopString(cards: seq<Card>): (s: string)
    requires |cards| == 2
    ensures |s| == 3 && (s[2] == 's' || s[2] == 'o')
    ensures s[2] == 's' <==> cards[0].suitChar == cards[1].suitChar
    ensures multiset{s[0], s[1]} == multiset{cards[0].valueChar, cards[1].valueChar}
    ensures Greater(cards[0], cards[1]) ==> s[0] == cards[0].valueChar
    ensures Greater(cards[1], cards[0]) ==> s[0] == cards[1].valueChar
  {
    var high := if Greater(cards[0], cards[1]) then [cards[0].valueChar, cards[1].valueChar]
                else [cards[1].valueChar, cards[0].valueChar];
    high + (if cards[0].suitChar == cards[1].suitChar then "s" else "o")
  }

  /** The preflop string does not depend on the order in which the two hole cards were dealt. */
  lemma PreflopSymmetric(a: Card, b: Card)
    requires Valid(a) && Valid(b)
    ensures PreflopString([a, b]) == PreflopString([b, a])
  {
    if a.rank == b.rank {
      assert a.valueChar == IntToStr(a.rank) == b.valueChar;
    }
  }
  /** The preflop string as update_ranks builds it: the higher value, the lower value, then 's' or 'o'. */
  method PreflopRank(cards: seq<Card>) returns (rankStr: string)
    requires |cards| == 2
    ensures rankStr == PreflopString(cards)
  {
    rankStr := "";
    if Greater(cards[0], cards[1]) {
      rankStr := rankStr + [cards[0].valueChar];
      rankStr := rankStr + [cards[1].valueChar];
    } else {
      rankStr := rankStr + [cards[1].valueChar];
      rankStr := rankStr + [cards[0].valueChar];
    }
    rankStr := rankStr + (if cards[0].suitChar == cards[1].suitChar then "s" else "o");
  }


  /**
   * The hand evaluator update_ranks consults: the Rank constructor on two
   * hole cards and a board, and Rank::get_string_representation.
   */
  datatype Scorer = Scorer(rank: (seq<Card>, seq<Card>) -> Ranks.Rank, describe: Ranks.Rank -> string)

  /** The scorer is the evaluator over the generated tables t: RankOf on every hand, Describe on every rank. */
  ghost predicate Scores(sc: Scorer, t: Ranks.Tables)
  {
    && Ranks.TablesValid(t)
    && (forall c, b :: Evaluator.HandCards(c, b) ==> sc.rank(c, b) == Evaluator.RankOf(t, c, b))
    && (forall r :: Ranks.Describable(t, r) ==> sc.describe(r) == Ranks.Describe(t, r))
  }

  /**
   * A seat ranked by the evaluator with a board of three to five cards holds
   * the evaluated rank of its hand, a value from 1 to 7462, and its description.
   */
  lemma SeatEvaluated(sc: Scorer, t: Ranks.Tables, p: Player, board: seq<Card>)
    requires Scores(sc, t) && board != [] && Ranked(sc, p, board)
    ensures Evaluated(t, p, board)
  {
    Evaluator.RankInRange(t, p.cards, board);
  }

  /** The seat holds the evaluated rank of its hand with the board, a value from 1 to 7462, and its description. */
  ghost predicate Evaluated(t: Ranks.Tables, p: Player, board: seq<Card>)
  {
    && Evaluator.HandCards(p.cards, board) && Ranks.DpShape(t.dp)
    && p.rank == Evaluator.RankOf(t, p.cards, board)
    && 1 <= p.rank.value <= Ranks.WorstHand
    && Ranks.Describable(t, p.rank) && p.rankStr == Ranks.Describe(t, p.rank)
  }

  /**
   * What update_ranks makes of a seat in a round other than REVEAL: preflop
   * only the rank string; later the evaluated rank of the hole cards with
   * the shown board and its description. Only the rank and the rank string
   * change.
   */
  function RankedSeat(sc: Scorer, p: Player, board: seq<Card>): (s: Player)
    ensures s == p.(rank := s.rank, rankStr := s.rankStr)
  {
    if board == [] then
      (if |p.cards| == 2 then p.(rankStr := PreflopString(p.cards)) else p)
    else
      var r := sc.rank(p.cards, board);
      p.(rank := r, rankStr := sc.describe(r))
  }

  /** A seat carries the rank and rank string of the shown board: Rank() and the preflop string before the flop. */
  ghost predicate Ranked(sc: Scorer, p: Player, board: seq<Card>)
  {
    && |p.cards| == 2
    && (board == [] ==> p.rank == Ranks.Default && p.rankStr == PreflopString(p.cards))
    && (board != [] ==> Evaluator.HandCards(p.cards, board) && p == RankedSeat(sc, p, board))
  }

  /** Every seat is ranked with the shown board. */
  ghost predicate SeatsRanked(ps: seq<Player>, sc: Scorer, board: seq<Card>)
  {
    forall k :: 0 <= k < |ps| ==> Ranked(sc, ps[k], board)
  }

  // ---------------------------------------------------------------- the deal

  /** A shuffled deck: 52 real cards, no two alike. */
  ghost predicate DeckCards(d: seq<Card>)
  {
    |d| == 52 && (forall i :: 0 <= i < 52 ==> Valid(d[i])) && (forall i, j :: 0 <= i < j < 52 ==> d[i] != d[j])
  }

  /** Seat k holds deck cards 2k and 2k + 1, the flop is cards 4 to 6, the turn 7 and the river 8. */
  ghost predicate Dealt(ps: seq<Player>, d: seq<Card>, flop: seq<Card>, turn: Card, river: Card)
  {
    && |ps| == N_PLAYERS && |d| == 52
    && (forall k :: 0 <= k < N_PLAYERS ==> ps[k].cards == d[2 * k..2 * k + 2])
    && flop == d[4..7] && turn == d[7] && river == d[8]
  }

  /** Cards taken from different slots of a shuffled deck are all real and all different. */
  lemma DealtHand(d: seq<Card>, k: int, n: int)
    requires DeckCards(d) && 0 <= k < N_PLAYERS && 3 <= n <= 5
    ensures Evaluator.HandCards(d[2 * k..2 * k + 2], d[4..4 + n])
  {
    var s := d[4..4 + n] + d[2 * k..2 * k + 2];
    assert forall i :: 0 <= i < |s| ==> s[i] == d[if i < n then 4 + i else 2 * k + i - n];
    forall i | 0 <= i < |s| ensures Valid(s[i]) {
      assert s[i] == d[if i < n then 4 + i else 2 * k + i - n];
    }
    forall i, j | 0 <= i < j < |s| ensures s[i] != s[j] {
      assert s[i] == d[if i < n then 4 + i else 2 * k + i - n];
      assert s[j] == d[if j < n then 4 + j else 2 * k + j - n];
    }
  }

  /** The board of every round other than preflop is a slice of the deck after the hole cards. */
  lemma ShownSlice(round: Round, d: seq<Card>, flop: seq<Card>, turn: Card, river: Card)
    requires |d| == 52 && flop == d[4..7] && turn == d[7] && river == d[8] && round != Preflop
    ensures var n := |ShownBoard(round, flop, turn, river)|;
      3 <= n <= 5 && ShownBoard(round, flop, turn, river) == d[4..4 + n]
  {
  }

  /** Every seat of a dealt hand forms a hand with the board of any round. */
  lemma DealtHands(ps: seq<Player>, d: seq<Card>, flop: seq<Card>, turn: Card, river: Card, round: Round)
    requires Dealt(ps, d, flop, turn, river) && DeckCards(d) && round != Preflop
    ensures forall k :: 0 <= k < |ps| ==> Evaluator.HandCards(ps[k].cards, ShownBoard(round, flop, turn, river))
  {
    ShownSlice(round, d, flop, turn, river);
    var n := |ShownBoard(round, flop, turn, river)|;
    forall k | 0 <= k < |ps| ensures Evaluator.HandCards(ps[k].cards, ShownBoard(round, flop, turn, river)) {
      DealtHand(d, k, n);
    }
  }

  /**
   * The seat k of n as start_game seats it, before its cards: all seats but
   * the last have to call, the second-to-last posted the small blind and the
   * last the big blind.
   */
  function BlindSeat(n: int, k: int, smallBlind: int, bigBlind: int): Player
  {
    SeatedPlayer(if k < n - 1 then ToCall else NoAction,
      if k < n - 2 then 0 else if k < n - 1 then smallBlind else bigBlind)
  }

  /** The seats start_game deals from the deck d, with the preflop strings. */
  ghost predicate DealtSeats(ps: seq<Player>, d: seq<Card>, smallBlind: int, bigBlind: int)
  {
    && |d| == 52 && |ps| == N_PLAYERS
    && forall k :: 0 <= k < N_PLAYERS ==>
      ps[k] == BlindSeat(N_PLAYERS, k, smallBlind, bigBlind).(cards := d[2 * k..2 * k + 2], cardIdx := 2,
                                                              rankStr := PreflopString(d[2 * k..2 * k + 2]))
  }

  /** Ranking the seats of the deal preflop gives each its preflop string. */
  lemma PreflopDealt(seated: seq<Player>, ps: seq<Player>, d: seq<Card>, smallBlind: int, bigBlind: int, sc: Scorer)
    requires |seated| == N_PLAYERS && |d| == 52 && ps == RankAll(seated, sc, [])
    requires forall k :: 0 <= k < N_PLAYERS ==>
      seated[k] == BlindSeat(N_PLAYERS, k, smallBlind, bigBlind).(cards := d[2 * k..2 * k + 2], cardIdx := 2)
    ensures DealtSeats(ps, d, smallBlind, bigBlind)
  {
  }

  /** The deal of start_game seats two shaped seats holding the first four cards of the deck. */
  lemma DealSeated(ps: seq<Player>, d: seq<Card>, smallBlind: int, bigBlind: int)
    requires DealtSeats(ps, d, smallBlind, bigBlind)
    ensures Seated(ps) && Dealt(ps, d, d[4..7], d[7], d[8])
  {
    assert HistoryShape(ps[0].history) && HistoryShape(ps[1].history);
  }

  /** The deal of start_game puts the blinds in the pot and leaves the hand contested, seat 0 to act. */
  lemma DealBetting(ps: seq<Player>, d: seq<Card>, smallBlind: int, bigBlind: int)
    requires DealtSeats(ps, d, smallBlind, bigBlind)
    ensures Contributions(ps) == smallBlind + bigBlind
    ensures AddToPot(bigBlind, smallBlind) == Contributions(ps) % 0x1_0000
    ensures Contested(ps)
  {
    var p0, p1 := ps[0], ps[1];
    assert p0.potContribution == smallBlind && p1.potContribution == bigBlind;
    assert p0.state == ToCall && p1.state == NoAction;
    TwoSeats(ps);
    BlindsPot(bigBlind, smallBlind, Contributions(ps));
  }

  /** The deal of start_game ranks every seat preflop: Rank() and the preflop string of its two cards. */
  lemma DealRanked(ps: seq<Player>, d: seq<Card>, smallBlind: int, bigBlind: int, sc: Scorer)
    requires DealtSeats(ps, d, smallBlind, bigBlind)
    ensures SeatsRanked(ps, sc, [])
  {
    forall k | 0 <= k < |ps| ensures Ranked(sc, ps[k], []) {
      assert ps[k].rank == Ranks.Default;
    }
  }

  /** The deal of start_game puts a hand in play, with the blinds in the pot and the seats ranked preflop. */
  lemma DealInPlay(ps: seq<Player>, d: seq<Card>, smallBlind: int, bigBlind: int, sc: Scorer)
    requires DealtSeats(ps, d, smallBlind, bigBlind)
    ensures InPlay(ps, d, d[4..7], d[7], d[8], AddToPot(bigBlind, smallBlind))
    ensures SeatsRanked(ps, sc, [])
  {
    DealSeated(ps, d, smallBlind, bigBlind);
    DealBetting(ps, d, smallBlind, bigBlind);
    DealRanked(ps, d, smallBlind, bigBlind, sc);
  }

  // ---------------------------------------------------------------- the winners

  /** The best rank value among the seats that are in: the lowest, starting from Rank()'s 0xFFFF. */
  function BestValue(ps: seq<Player>): (v: int)
    ensures v <= Ranks.NoValue
    ensures forall k :: 0 <= k < |ps| && ps[k].state == In ==> v <= ps[k].rank.value
    ensures v == Ranks.NoValue || exists k :: 0 <= k < |ps| && ps[k].state == In && ps[k].rank.value == v
  {
    if ps == [] then Ranks.NoValue
    else
      var v := BestValue(ps[..|ps| - 1]);
      var p := ps[|ps| - 1];
      if p.state == In && p.rank.value < v then p.rank.value else v
  }

  /** The seats that are in with rank value v, in seat order. */
  function SeatsWith(ps: seq<Player>, v: int): (w: seq<int>)
    ensures forall i :: 0 <= i < |w| ==> 0 <= w[i] < |ps|
    ensures forall i, j :: 0 <= i < j < |w| ==> w[i] < w[j]
    ensures forall k :: k in w <==> 0 <= k < |ps| && ps[k].state == In && ps[k].rank.value == v
  {
    if ps == [] then []
    else
      var p := ps[|ps| - 1];
      SeatsWith(ps[..|ps| - 1], v) + (if p.state == In && p.rank.value == v then [|ps| - 1] else [])
  }

  /** The winners: every seat in whose rank is the best, in seat order. */
  function Winners(ps: seq<Player>): seq<int>
  {
    SeatsWith(ps, BestValue(ps))
  }

  /**
   * At a showdown with a real rank in play, there is at least one winner,
   * every winner is in and ranks at least as well as every seat that is in,
   * and every seat in that ranks as well as a winner is a winner too.
   */
  lemma WinnersAreBest(ps: seq<Player>, j: int)
    requires 0 <= j < |ps| && ps[j].state == In && ps[j].rank.value <= Ranks.NoValue
    ensures Winners(ps) != []
    ensures forall w, k :: w in Winners(ps) && 0 <= k < |ps| && ps[k].state == In ==>
      ps[w].state == In && ps[w].rank.value <= ps[k].rank.value
    ensures forall w, k :: w in Winners(ps) && 0 <= k < |ps| && ps[k].state == In && ps[k].rank.value == ps[w].rank.value ==>
      k in Winners(ps)
  {
    var v := BestValue(ps);
    if v == Ranks.NoValue {
      assert j in Winners(ps);
    } else {
      var k :| 0 <= k < |ps| && ps[k].state == In && ps[k].rank.value == v;
      assert k in Winners(ps);
    }
  }

  /** A set of seats with nobody at rank value v is the empty sequence. */
  lemma NoSeatsWith(ps: seq<Player>, v: int)
    requires forall k :: 0 <= k < |ps| && ps[k].state == In ==> ps[k].rank.value != v
    ensures SeatsWith(ps, v) == []
  {
  }

  // ---------------------------------------------------------------- the hand invariant on values

  /**
   * The seats of a hand in play: dealt from the deck, the pot equal to what
   * the seats put in as a uint16_t, and still contested.
   */
  ghost predicate InPlay(ps: seq<Player>, d: seq<Card>, flop: seq<Card>, turn: Card, river: Card, pot: int)
  {
    Seated(ps) && Dealt(ps, d, flop, turn, river) && pot == Contributions(ps) % 0x1_0000 && Contested(ps)
  }

  /** An action keeps the shapes and the contest, and grows the pot by what the seat adds. */
  lemma ActionKeepsBetting(ps: seq<Player>, pot: int, cur: int, a: Action, bigBlind: int)
    requires |ps| == N_PLAYERS && Shaped(ps) && pot == Contributions(ps) % 0x1_0000 && Contested(ps) && 0 <= cur < N_PLAYERS
    ensures Started(ps)
    ensures var qs := AfterAction(ps, cur, a, bigBlind);
      Shaped(qs) && Contested(qs) && AddToPot(pot, PotDelta(ps, cur, a, bigBlind)) == Contributions(qs) % 0x1_0000
  {
    ActionShape(ps, cur, a, bigBlind);
    ActionContested(ps, cur, a, bigBlind);
    ActionPot(ps, cur, a, bigBlind);
    PotStep(Contributions(ps), pot, PotDelta(ps, cur, a, bigBlind), Contributions(AfterAction(ps, cur, a, bigBlind)));
  }

  /** An action keeps the deal: no seat's cards change. */
  lemma ActionKeepsDeal(ps: seq<Player>, d: seq<Card>, flop: seq<Card>, turn: Card, river: Card, cur: int, a: Action, bigBlind: int)
    requires Dealt(ps, d, flop, turn, river) && Started(ps) && 0 <= cur < N_PLAYERS
    ensures Dealt(AfterAction(ps, cur, a, bigBlind), d, flop, turn, river)
    ensures forall k :: 0 <= k < N_PLAYERS ==> |AfterAction(ps, cur, a, bigBlind)[k].cards| == 2
  {
    ActionKeepsCards(ps, cur, a, bigBlind);
  }

  /** An action keeps a hand in play, with the pot grown by what the seat adds. */
  lemma ActionKeepsPlay(ps: seq<Player>, d: seq<Card>, flop: seq<Card>, turn: Card, river: Card,
                        pot: int, cur: int, a: Action, bigBlind: int)
    requires InPlay(ps, d, flop, turn, river, pot) && 0 <= cur < N_PLAYERS
    ensures Started(ps)
    ensures InPlay(AfterAction(ps, cur, a, bigBlind), d, flop, turn, river, AddToPot(pot, PotDelta(ps, cur, a, bigBlind)))
  {
    ActionKeepsBetting(ps, pot, cur, a, bigBlind);
    ActionKeepsDeal(ps, d, flop, turn, river, cur, a, bigBlind);
  }

  /** An action keeps every seat ranked with the board: it changes no cards, no rank and no rank string. */
  lemma ActionKeepsRanks(ps: seq<Player>, sc: Scorer, board: seq<Card>, cur: int, a: Action, bigBlind: int)
    requires |ps| == N_PLAYERS && 0 <= cur < N_PLAYERS && Started(ps) && SeatsRanked(ps, sc, board)
    ensures SeatsRanked(AfterAction(ps, cur, a, bigBlind), sc, board)
  {
    var qs := AfterAction(ps, cur, a, bigBlind);
    ActionKeepsCards(ps, cur, a, bigBlind);
    forall k | 0 <= k < |qs| ensures Ranked(sc, qs[k], board) {
      assert Ranked(sc, ps[k], board);
    }
  }

  /** The reset at the end of a round keeps the pot and the contest of seats that agree with a hand in play on the betting. */
  lemma ResetKeepsBetting(ps: seq<Player>, qs: seq<Player>, pot: int)
    requires Shaped(ps) && pot == Contributions(ps) % 0x1_0000 && Contested(ps) && RoundOver(ps)
    requires |qs| == |ps| && forall k :: 0 <= k < |ps| ==>
      qs[k].state == ps[k].state && qs[k].potContribution == ps[k].potContribution && qs[k].history == ps[k].history
    ensures Shaped(ResetAll(qs)) && pot == Contributions(ResetAll(qs)) % 0x1_0000 && Contested(ResetAll(qs))
  {
    SameStates(ps, qs);
    SameContributions(ps, qs);
    ResetContested(qs);
  }

  /** The reset at the end of a round keeps the deal of seats that hold the cards of a dealt hand. */
  lemma ResetKeepsDeal(ps: seq<Player>, qs: seq<Player>, d: seq<Card>, flop: seq<Card>, turn: Card, river: Card)
    requires Dealt(ps, d, flop, turn, river)
    requires |qs| == |ps| && forall k :: 0 <= k < |ps| ==> qs[k].cards == ps[k].cards
    ensures Dealt(ResetAll(qs), d, flop, turn, river)
    ensures forall k :: 0 <= k < N_PLAYERS ==> |ResetAll(qs)[k].cards| == 2
  {
  }

  /**
   * Seats that agree with a hand in play on everything but the ranks stay in
   * play through the reset at the end of a round.
   */
  lemma ResetKeepsPlay(ps: seq<Player>, qs: seq<Player>, d: seq<Card>, flop: seq<Card>, turn: Card, river: Card, pot: int)
    requires InPlay(ps, d, flop, turn, river, pot) && RoundOver(ps)
    requires |qs| == |ps| && forall k :: 0 <= k < |ps| ==> qs[k] == ps[k].(rank := qs[k].rank, rankStr := qs[k].rankStr)
    ensures InPlay(ResetAll(qs), d, flop, turn, river, pot)
  {
    ResetKeepsBetting(ps, qs, pot);
    ResetKeepsDeal(ps, qs, d, flop, turn, river);
  }

  /** update_ranks over every seat. */
  ghost function RankAll(ps: seq<Player>, sc: Scorer, board: seq<Card>): (qs: seq<Player>)
    ensures |qs| == |ps| && forall k :: 0 <= k < |ps| ==> qs[k] == RankedSeat(sc, ps[k], board)
  {
    if ps == [] then [] else RankAll(ps[..|ps| - 1], sc, board) + [RankedSeat(sc, ps[|ps| - 1], board)]
  }

  /** The seats after a round ends before the reveal: ranked with the board of the new round, then reset. */
  ghost function NextRoundSeats(ps: seq<Player>, sc: Scorer, board: seq<Card>): (qs: seq<Player>)
    ensures |qs| == |ps| && forall k :: 0 <= k < |ps| ==> qs[k] == ResetSeat(RankedSeat(sc, ps[k], board))
  {
    ResetAll(RankAll(ps, sc, board))
  }

  /**
   * update_ranks, in any round but the reveal: preflop each seat gets its
   * preflop string; later the evaluated rank with the shown board and its
   * description.
   */
  method UpdateRanks(players: array<Player>, sc: Scorer, round: Round, flop: seq<Card>, turn: Card, river: Card)
    requires players.Length == N_PLAYERS && Seated(players[..]) && round != Reveal && (round != Preflop ==> |flop| == 3)
    modifies players
    ensures players[..] == RankAll(old(players[..]), sc, ShownBoard(round, flop, turn, river))
  {
    ghost var before := players[..];
    ghost var board := ShownBoard(round, flop, turn, river);
    for i := 0 to N_PLAYERS
      invariant forall k :: 0 <= k < N_PLAYERS ==> players[k] == if k < i then RankedSeat(sc, before[k], board) else before[k]
    {
      var p := RankSeat(players[i], sc, round, flop, turn, river);
      players[i] := p;
    }
  }

  /** The body of update_ranks for one seat. */
  method RankSeat(p: Player, sc: Scorer, round: Round, flop: seq<Card>, turn: Card, river: Card) returns (q: Player)
    requires round != Reveal && (round != Preflop ==> |flop| == 3) && |p.cards| == 2
    ensures q == RankedSeat(sc, p, ShownBoard(round, flop, turn, river))
  {
    if round == Preflop {
      var rankStr := PreflopRank(p.cards);
      q := p.(rankStr := rankStr);
    } else {
      var rank;
      if round == Flop {
        rank := sc.rank(p.cards, flop);
      } else if round == Turn {
        rank := sc.rank(p.cards, flop + [turn]);
      } else {
        rank := sc.rank(p.cards, flop + [turn, river]);
      }
      q := p.(rank := rank);
      q := q.(rankStr := sc.describe(rank));
    }
  }

  /**
   * find_winner: every seat that is in with the best rank, in seat order,
   * starting from Rank(), whose value no evaluated hand reaches.
   */
  method FindWinner(players: array<Player>) returns (w: seq<int>)
    ensures w == Winners(players[..])
  {
    w := [];
    var best := Ranks.Default;
    for i := 0 to players.Length
      invariant best.value == BestValue(players[..i])
      invariant w == SeatsWith(players[..i], best.value)
    {
      assert players[..i + 1][..i] == players[..i];
      if players[i].state == In {
        var rank := players[i].rank;
        if Ranks.Greater(rank, best) {
          NoSeatsWith(players[..i], rank.value);
          best := rank;
          w := [i];
        } else if Ranks.Same(rank, best) {
          w := w + [i];
        }
      }
    }
    assert players[..players.Length] == players[..];
  }

  /**
   * Ending a betting round of a hand in play keeps it in play in the new
   * round: every seat forms a hand with the new board, and the deal, the pot
   * and the contest are kept by the ranking and the reset.
   */
  lemma RoundEndKeepsPlay(ps: seq<Player>, d: seq<Card>, flop: seq<Card>, turn: Card, river: Card,
                          pot: int, sc: Scorer, round: Round)
    requires InPlay(ps, d, flop, turn, river, pot) && DeckCards(d) && RoundOver(ps) && round != Preflop
    ensures forall k :: 0 <= k < |ps| ==> Evaluator.HandCards(ps[k].cards, ShownBoard(round, flop, turn, river))
    ensures InPlay(NextRoundSeats(ps, sc, ShownBoard(round, flop, turn, river)), d, flop, turn, river, pot)
  {
    DealtHands(ps, d, flop, turn, river, round);
    ResetKeepsPlay(ps, RankAll(ps, sc, ShownBoard(round, flop, turn, river)), d, flop, turn, river, pot);
  }

  /**
   * Ending a betting round keeps the seats shaped and holding the cards of
   * the deal, and every seat forms a hand with the board of the new round.
   */
  lemma RoundEndKeepsDeal(ps: seq<Player>, d: seq<Card>, flop: seq<Card>, turn: Card, river: Card,
                          sc: Scorer, round: Round)
    requires Seated(ps) && Dealt(ps, d, flop, turn, river) && DeckCards(d) && round != Preflop
    ensures forall k :: 0 <= k < |ps| ==> Evaluator.HandCards(ps[k].cards, ShownBoard(round, flop, turn, river))
    ensures var qs := NextRoundSeats(ps, sc, ShownBoard(round, flop, turn, river));
      Seated(qs) && Dealt(qs, d, flop, turn, river)
  {
    DealtHands(ps, d, flop, turn, river, round);
    var rs := RankAll(ps, sc, ShownBoard(round, flop, turn, river));
    assert Shaped(rs) by {
      forall k | 0 <= k < |rs| ensures HistoryShape(rs[k].history) {
        assert rs[k].history == ps[k].history;
      }
    }
    ResetShaped(rs);
    ResetKeepsDeal(ps, rs, d, flop, turn, river);
  }

  /** After the end of a round every seat carries the rank of the new board. */
  lemma NextRoundRanked(ps: seq<Player>, sc: Scorer, board: seq<Card>)
    requires board != []
    requires forall k :: 0 <= k < |ps| ==> Evaluator.HandCards(ps[k].cards, board)
    ensures SeatsRanked(NextRoundSeats(ps, sc, board), sc, board)
  {
    var qs := NextRoundSeats(ps, sc, board);
    forall k | 0 <= k < |qs| ensures Ranked(sc, qs[k], board) {
      assert qs[k].cards == ps[k].cards;
    }
  }

  // ---------------------------------------------------------------- take_action on values

  /** The fields of a game that change in play, apart from the seats and the deck. */
  datatype Table = Table(
    currentPlayer: int, round: Round, winner: seq<int>, history: string,
    pot: int, flop: seq<Card>, turn: Card, river: Card)

  /** The seats and the table of a game. */
  datatype Game = Game(seats: seq<Player>, table: Table)

  /** Two seats with a history each, and a current seat among them. */
  ghost predicate Actionable(g: Game)
  {
    |g.seats| == N_PLAYERS && 0 <= g.table.currentPlayer < N_PLAYERS && Started(g.seats)
  }

  /** check_premature_end after the action: it was a fold, one seat has not folded, and that seat is in. */
  ghost predicate EndsEarly(g: Game, a: Action, bigBlind: int)
    requires Actionable(g)
  {
    FoldEnds(g.seats, g.table.currentPlayer, a, bigBlind)
  }

  /** take_action up to the push onto the history: the seat acts, the pot grows, an early end names the winner. */
  ghost function Applied(g: Game, a: Action, bigBlind: int): Game
    requires Actionable(g)
  {
    var cur := g.table.currentPlayer;
    var acted := AfterAction(g.seats, cur, a, bigBlind);
    var winner := if EndsEarly(g, a, bigBlind) then [Survivor(acted)] else g.table.winner;
    Game(acted, g.table.(winner := winner, history := g.table.history + [a.tag],
                         pot := AddToPot(g.table.pot, PotDelta(g.seats, cur, a, bigBlind))))
  }

  /**
   * The end-of-round part of take_action: nothing while a seat has to call
   * or has not acted; otherwise the next round, where the reveal names the
   * winners and any other round compresses the history and ranks and
   * resets the seats.
   */
  ghost function RoundEnded(g: Game, sc: Scorer): Game
  {
    var ps, t := g.seats, g.table;
    var next := NextRound(t.round);
    if !RoundOver(ps) then g
    else if next == Reveal then Game(ps, t.(round := Reveal, winner := Winners(ps)))
    else Game(NextRoundSeats(ps, sc, ShownBoard(next, t.flop, t.turn, t.river)),
              t.(round := next, history := Utils.DecimalString(Remaining(ps))))
  }

  /** take_action: the action, then the end of the round unless the hand ended early. */
  ghost function Taken(g: Game, a: Action, bigBlind: int, sc: Scorer): Game
    requires Actionable(g)
  {
    var h := Applied(g, a, bigBlind);
    if EndsEarly(g, a, bigBlind) then h else RoundEnded(h, sc)
  }

  /** A hand in play, with the table's board and pot. */
  ghost predicate GameInPlay(g: Game, d: seq<Card>)
  {
    InPlay(g.seats, d, g.table.flop, g.table.turn, g.table.river, g.table.pot)
  }

  /**
   * take_action keeps a hand in play: after the seat's action the pot has
   * grown by what the seat added, as a uint16_t, and still holds what the
   * seats put in; the deal and the contest are kept, and so they are when
   * the round ends and the seats are ranked and reset for the next one.
   * The board is never touched.
   */
  lemma TakenKeepsPlay(g: Game, d: seq<Card>, a: Action, bigBlind: int, sc: Scorer)
    requires GameInPlay(g, d) && DeckCards(d) && 0 <= g.table.currentPlayer < N_PLAYERS
    ensures Actionable(g)
    ensures var h := Taken(g, a, bigBlind, sc);
      && GameInPlay(h, d)
      && h.table.flop == g.table.flop && h.table.turn == g.table.turn && h.table.river == g.table.river
  {
    var ps, t := g.seats, g.table;
    ActionKeepsPlay(ps, d, t.flop, t.turn, t.river, t.pot, t.currentPlayer, a, bigBlind);
    var h := Applied(g, a, bigBlind);
    var next := NextRound(h.table.round);
    if !EndsEarly(g, a, bigBlind) && RoundOver(h.seats) && next != Reveal {
      RoundSequence(h.table.round);
      RoundEndKeepsPlay(h.seats, d, t.flop, t.turn, t.river, h.table.pot, sc, next);
    }
  }

  /**
   * An early end leaves one winner: the seat that is in, every other seat
   * having folded.
   */
  lemma EarlyWinner(g: Game, a: Action, bigBlind: int, sc: Scorer)
    requires Actionable(g) && EndsEarly(g, a, bigBlind)
    ensures var h := Taken(g, a, bigBlind, sc);
      && |h.table.winner| == 1 && 0 <= h.table.winner[0] < N_PLAYERS && h.seats[h.table.winner[0]].state == In
      && forall k :: 0 <= k < N_PLAYERS && k != h.table.winner[0] ==> h.seats[k].state == Out
  {
    FoldLeavesSurvivor(g.seats, g.table.currentPlayer, a, bigBlind);
  }

  /**
   * The reveal of a contested hand whose ranks are all at most Rank()'s
   * value names at least one winner: a seat that is in, ranking at least as
   * well as every seat in, and every seat in that ranks as well is a winner.
   */
  lemma ShowdownWinners(ps: seq<Player>)
    requires Contested(ps) && RoundOver(ps)
    requires forall k :: 0 <= k < |ps| ==> ps[k].rank.value <= Ranks.NoValue
    ensures Winners(ps) != []
    ensures forall w, k :: w in Winners(ps) && 0 <= k < |ps| && ps[k].state == In ==>
      ps[w].state == In && ps[w].rank.value <= ps[k].rank.value
  {
    var j :| 0 <= j < |ps| && ps[j].state != Out;
    WinnersAreBest(ps, j);
  }

  /**
   * take_action keeps every seat ranked with the board shown in the round
   * the game is in: an action changes no card and no rank, the reveal shows
   * the board of the turn, and a new round ranks the seats again.
   */
  lemma TakenRanked(g: Game, d: seq<Card>, a: Action, bigBlind: int, sc: Scorer)
    requires GameInPlay(g, d) && DeckCards(d) && 0 <= g.table.currentPlayer < N_PLAYERS
    requires g.table.round != River
    requires SeatsRanked(g.seats, sc, ShownBoard(g.table.round, g.table.flop, g.table.turn, g.table.river))
    ensures Actionable(g)
    ensures var h := Taken(g, a, bigBlind, sc);
      SeatsRanked(h.seats, sc, ShownBoard(h.table.round, h.table.flop, h.table.turn, h.table.river))
  {
    var ps, t := g.seats, g.table;
    ActionKeepsPlay(ps, d, t.flop, t.turn, t.river, t.pot, t.currentPlayer, a, bigBlind);
    ActionKeepsRanks(ps, sc, ShownBoard(t.round, t.flop, t.turn, t.river), t.currentPlayer, a, bigBlind);
    var h := Applied(g, a, bigBlind);
    var next := NextRound(t.round);
    RoundSequence(t.round);
    if !EndsEarly(g, a, bigBlind) && RoundOver(h.seats) && next != Reveal {
      var board := ShownBoard(next, t.flop, t.turn, t.river);
      RoundEndKeepsPlay(h.seats, d, t.flop, t.turn, t.river, h.table.pot, sc, next);
      NextRoundRanked(h.seats, sc, board);
    }
  }

  // ---------------------------------------------------------------- rewards

  /** A float converted to int: truncated toward zero. */
  function Truncate(x: real): (r: int)
    ensures x >= 0.0 ==> r as real <= x < r as real + 1.0
    ensures x < 0.0 ==> r as real - 1.0 < x <= r as real
  {
    if x >= 0.0 then x.Floor else -((-x).Floor)
  }

  /** An even split: when n divides the pot, the share less c is exact. */
  lemma EvenShare(pot: int, n: int, c: int)
    requires n > 0 && pot % n == 0
    ensures Truncate(pot as real / n as real - c as real) == pot / n - c
  {
    var q := pot / n;
    assert pot == q * n;
    assert pot as real == q as real * n as real;
    assert pot as real / n as real == q as real;
    assert pot as real / n as real - c as real == (q - c) as real;
  }

  class Holdem {
    var currentPlayer: int           // m_current_player
    var round: Round                 // m_round
    var winner: seq<int>             // m_winner: {-1} while the hand runs
    var history: string              // m_history: the actions of the current round
    const maxReraises: int           // m_max_reraises
    const nPlayers: int              // m_n_players
    const players: array<Player>     // m_players
    const deck: Decks.Deck           // m_deck
    const bigBlind: int              // m_big_blind
    const smallBlind: int            // m_small_blind
    var pot: int                     // m_pot
    var flop: seq<Card>              // m_flop
    var turn: Card                   // m_turn
    var river: Card                  // m_river
    const actions: seq<Action> := Canonical  // m_actions
    const scorer: Scorer             // Rank(cards, board) and its string representation
    ghost const tables: Ranks.Tables // the generated lookup tables the evaluator reads

    /** The fields of this game that change in play, apart from the seats and the deck. */
    ghost function Fields(): Table
      reads this
    {
      Table(currentPlayer, round, winner, history, pot, flop, turn, river)
    }

    /** The seats and the table of this game. */
    ghost function State(): Game
      reads this, players
    {
      Game(players[..], Fields())
    }

    /** The configuration fixed at construction: the sizes, the blinds, the reraise limit, the actions and the tables. */
    ghost predicate Config()
    {
      && players.Length == N_PLAYERS && nPlayers == N_PLAYERS
      && 0 <= bigBlind < 0x1_0000 && 0 <= smallBlind < 0x1_0000 && 0 <= maxReraises < 0x100
    }

    /** The ranges of the integer fields. */
    ghost predicate Ranges()
      reads this`currentPlayer, this`pot
    {
      0 <= currentPlayer < N_PLAYERS && 0 <= pot < 0x1_0000
    }

    /** Two seats, each with two card slots and a shaped history. */
    ghost predicate SeatsValid()
      reads players
    {
      Seated(players[..])
    }

    /** What every member relies on: the configuration, a whole deck, the ranges of the integer fields and the seats. */
    ghost predicate Valid()
      reads this, players, deck, deck.cards
    {
      Config() && deck.Valid() && Ranges() && SeatsValid()
    }

    /** The deal is done: nine cards were drawn, and the round is one the game reaches. */
    ghost predicate Dealing()
      reads this`round, deck`cursor
    {
      deck.cursor == 9 && round != River
    }

    /** The seats hold the cards the deck dealt them, and the board is the next five cards. */
    ghost predicate SeatsDealt()
      reads this`flop, this`turn, this`river, players, deck`cards, deck.cards
    {
      Dealt(players[..], deck.cards[..], flop, turn, river)
    }

    /** The pot holds what the seats put in, as a uint16_t, and the hand is contested. */
    ghost predicate Betting()
      reads this`pot, players
    {
      pot == Contributions(players[..]) % 0x1_0000 && Contested(players[..])
    }

    /** No winner yet, or winners that are seats. */
    ghost predicate WinnerSeats()
      reads this`winner
    {
      winner == [-1] || forall k :: 0 <= k < |winner| ==> 0 <= winner[k] < N_PLAYERS
    }

    /** A hand was dealt (and may be decided), as start_game and take_action leave it. */
    ghost predicate InHand()
      reads this, players, deck, deck.cards
    {
      Valid() && Dealing() && SeatsDealt() && WinnerSeats()
    }

    /** The scorer is the evaluator over the generated tables. */
    ghost predicate Evaluating()
    {
      Scores(scorer, tables)
    }

    /** Every seat carries the rank and rank string of the board shown in the current round. */
    ghost predicate RanksShown()
      reads this, players
    {
      SeatsRanked(players[..], scorer, ShownBoard(round, flop, turn, river))
    }

    /**
     * Past the preflop, with the evaluator as scorer, every seat holds the
     * evaluated rank of its hole cards with the shown board, a value from 1
     * to 7462, and that rank's description.
     */
    lemma ShownRanks()
      requires InHand() && Evaluating() && RanksShown() && round != Preflop
      ensures forall k :: 0 <= k < N_PLAYERS ==> Evaluated(tables, players[k], ShownBoard(round, flop, turn, river))
    {
      var board := ShownBoard(round, flop, turn, river);
      assert board != [];
      forall k | 0 <= k < N_PLAYERS ensures Evaluated(tables, players[k], board) {
        SeatEvaluated(scorer, tables, players[k], board);
      }
    }

    /** At the reveal of a contested hand with evaluated ranks, find_winner names at least one seat. */
    lemma RevealHasWinner()
      requires InHand() && Betting() && Evaluating() && RanksShown() && round == Reveal && RoundOver(players[..])
      ensures Winners(players[..]) != []
    {
      ShownRanks();
      ghost var ps := players[..];
      assert forall k :: 0 <= k < |ps| ==> ps[k].rank.value <= Ranks.NoValue by {
        forall k | 0 <= k < |ps| ensures ps[k].rank.value <= Ranks.NoValue {
          assert Evaluated(tables, players[k], ShownBoard(round, flop, turn, river));
        }
      }
      ShowdownWinners(ps);
    }

    /** Holdem(n_players, big_blind, small_blind, max_reraises): new seats, a fresh deck, no winner yet. */
    constructor (n: int, bigBlind: int, smallBlind: int, maxReraises: int, scorer: Scorer, ghost tables: Ranks.Tables)
      requires n == N_PLAYERS && Scores(scorer, tables)
      requires 0 <= bigBlind < 0x1_0000 && 0 <= smallBlind < 0x1_0000 && 0 <= maxReraises < 0x100
      ensures Valid() && fresh(players) && fresh(deck) && fresh(deck.cards)
      ensures winner == [-1] && history == [] && Evaluating()
      ensures this.bigBlind == bigBlind && this.smallBlind == smallBlind && this.maxReraises == maxReraises
      ensures deck.cards[..] == Decks.FreshDeck() && deck.cursor == 0
      ensures forall k :: 0 <= k < N_PLAYERS ==> players[k] == NewPlayer()
    {
      nPlayers := n;
      this.bigBlind := bigBlind;
      this.smallBlind := smallBlind;
      this.maxReraises := maxReraises;
      winner := [-1];
      deck := new Decks.Deck();
      this.scorer := scorer;
      this.tables := tables;
      players := new Player[N_PLAYERS](_ => NewPlayer());
      history := [];
      currentPlayer, round, pot := 0, Preflop, 0;
      flop, turn, river := [Cards.Default, Cards.Default, Cards.Default], Cards.Default, Cards.Default;
    }

    /** is_running: no winner was decided. */
    predicate IsRunning()
      reads this
      requires |winner| >= 1
    {
      winner[0] < 0
    }

    /**
     * start_game: shuffle, seat the blinds, deal two cards to each seat,
     * rank the hands preflop, put the blinds in the pot and deal the flop,
     * the turn and the river. The shared history is left as it was.
     */
    method StartGame(swaps: seq<int>)
      requires Valid()
      requires |swaps| == 52 && forall i :: 0 <= i < 52 ==> 0 <= swaps[i] <= i
      modifies this, players, deck, deck.cards
      ensures InHand() && winner == [-1] && IsRunning() && RanksShown() && Betting()
      ensures currentPlayer == 0 && round == Preflop && history == old(history) && pot == AddToPot(bigBlind, smallBlind)
      ensures flop == deck.cards[4..7] && turn == deck.cards[7] && river == deck.cards[8]
      ensures multiset(deck.cards[..]) == multiset(old(deck.cards[..]))
      ensures DealtSeats(players[..], deck.cards[..], smallBlind, bigBlind)
    {
      deck.Shuffle(swaps);
      ResetTable();
      SeatAndRank();
      pot := AddToPot(bigBlind, smallBlind);
      DealBoard();
      assert currentPlayer == 0 && round == Preflop && winner == [-1] && history == old(history);
      HandDealt();
    }

    /**
     * The seats of start_game: seated with their blinds and two cards each,
     * then ranked preflop. The table fields, which the ranking reads only
     * through the round, are set before.
     */
    method SeatAndRank()
      requires Config() && deck.Valid() && deck.cursor == 0 && round == Preflop
      modifies players, deck
      ensures deck.Valid() && deck.cursor == 2 * N_PLAYERS && deck.cards == old(deck.cards)
      ensures DealtSeats(players[..], deck.cards[..], smallBlind, bigBlind)
    {
      SeatPlayers();
      ghost var seated := players[..];
      UpdateRanks(players, scorer, round, flop, turn, river);
      PreflopDealt(seated, players[..], deck.cards[..], smallBlind, bigBlind, scorer);
    }

    /** The state start_game leaves is a hand in play, ranked preflop, with the blinds in the pot. */
    lemma HandDealt()
      requires Config() && deck.Valid() && deck.cursor == 9
      requires currentPlayer == 0 && round == Preflop && winner == [-1] && pot == AddToPot(bigBlind, smallBlind)
      requires flop == deck.cards[4..7] && turn == deck.cards[7] && river == deck.cards[8]
      requires DealtSeats(players[..], deck.cards[..], smallBlind, bigBlind)
      ensures InHand() && RanksShown() && Betting()
    {
      ghost var ps, d := players[..], deck.cards[..];
      DealSeated(ps, d, smallBlind, bigBlind);
      DealBetting(ps, d, smallBlind, bigBlind);
      DealRanked(ps, d, smallBlind, bigBlind, scorer);
    }

    /** The table fields start_game sets before ranking the seats: seat 0 to act, the preflop, no winner yet. */
    method ResetTable()
      modifies this`currentPlayer, this`round, this`winner
      ensures currentPlayer == 0 && round == Preflop && winner == [-1]
    {
      currentPlayer := 0;
      round := Preflop;
      winner := [-1];
    }

    /** The seating loop of start_game: each seat gets its blind and state, then two cards from the deck. */
    method SeatPlayers()
      requires Config() && deck.Valid() && deck.cursor == 0
      modifies players, deck
      ensures deck.Valid() && deck.cursor == 2 * N_PLAYERS && deck.cards == old(deck.cards)
      ensures forall k :: 0 <= k < N_PLAYERS ==>
        players[k] == BlindSeat(N_PLAYERS, k, smallBlind, bigBlind).(cards := deck.cards[2 * k..2 * k + 2], cardIdx := 2)
    {
      for i := 0 to nPlayers
        invariant deck.Valid() && deck.cursor == 2 * i && deck.cards == old(deck.cards)
        invariant forall k :: 0 <= k < i ==>
          players[k] == BlindSeat(N_PLAYERS, k, smallBlind, bigBlind).(cards := deck.cards[2 * k..2 * k + 2], cardIdx := 2)
      {
        var state := if i < nPlayers - 1 then ToCall else NoAction;
        var bet := bigBlind;
        if i < nPlayers - 2 {
          bet := 0;
        } else if i < nPlayers - 1 {
          bet := smallBlind;
        }
        var p := SeatedPlayer(state, bet);
        ghost var start := deck.cursor;
        var c := deck.Draw();
        p := p.DrawCard(c);
        c := deck.Draw();
        p := p.DrawCard(c);
        assert p.cards == deck.cards[start..start + 2];
        players[i] := p;
      }
    }

    /** The board of start_game: the flop, the turn and the river, drawn in that order after the seats' cards. */
    method DealBoard()
      requires deck.Valid() && deck.cursor == 2 * N_PLAYERS
      modifies this`flop, this`turn, this`river, deck
      ensures deck.Valid() && deck.cursor == 9 && deck.cards == old(deck.cards)
      ensures flop == deck.cards[4..7] && turn == deck.cards[7] && river == deck.cards[8]
    {
      var f0 := deck.Draw();
      var f1 := deck.Draw();
      var f2 := deck.Draw();
      flop := [f0, f1, f2];
      turn := deck.Draw();
      river := deck.Draw();
    }

    /**
     * take_action for the current seat: the seat update, then on a fold the
     * check for a premature end, then the action joins the shared history.
     * A hand that did not end early goes on to the end-of-round test. A hand
     * in play stays in play.
     */
    method TakeAction(a: Action)
      requires InHand()
      modifies this, players
      ensures InHand() && Actionable(old(State()))
      ensures State() == Taken(old(State()), a, bigBlind, scorer)
      ensures old(Betting()) ==> Betting()
    {
      ghost var g := State();
      deck.DistinctSlots();
      if Betting() {
        TakenKeepsPlay(g, deck.cards[..], a, bigBlind, scorer);
      }
      var finished := ApplyAction(a);
      if finished {
        return;
      }
      EndRound();
    }

    /** The part of take_action up to the push of the action onto the history. */
    method ApplyAction(a: Action) returns (finished: bool)
      requires InHand()
      modifies this`pot, this`winner, this`history, players
      ensures InHand() && Actionable(old(State()))
      ensures State() == Applied(old(State()), a, bigBlind)
      ensures finished == EndsEarly(old(State()), a, bigBlind)
    {
      ghost var g := State();
      var folded := SeatAction(a);
      finished := false;
      if folded {
        finished := PrematureEnd();
      }
      Record(a.tag);
      assert finished == EndsEarly(g, a, bigBlind);
    }

    /** The push of an action tag onto the history of the round. */
    method Record(tag: char)
      requires InHand()
      modifies this`history
      ensures InHand() && history == old(history) + [tag]
    {
      history := history + [tag];
    }

    /** The seat update of take_action for the current seat, and the growth of the pot. */
    method SeatAction(a: Action) returns (folded: bool)
      requires InHand()
      modifies this`pot, players
      ensures InHand()
      ensures players[..] == AfterAction(old(players[..]), currentPlayer, a, bigBlind)
      ensures pot == AddToPot(old(pot), PotDelta(old(players[..]), currentPlayer, a, bigBlind))
      ensures folded <==> a.tag == 'p' && old(players[currentPlayer].state) == ToCall
    {
      ActionShape(players[..], currentPlayer, a, bigBlind);
      ActionKeepsDeal(players[..], deck.cards[..], flop, turn, river, currentPlayer, a, bigBlind);
      var newPot;
      newPot, folded := Act(players, currentPlayer, a, bigBlind, pot);
      pot := newPot;
    }

    /** check_premature_end after a fold: when a single seat has not folded and it is in, it wins. */
    method PrematureEnd() returns (finished: bool)
      requires InHand()
      modifies this`winner
      ensures InHand()
      ensures finished <==> NotOut(players[..]) == 1 && exists k :: 0 <= k < N_PLAYERS && players[k].state == In
      ensures finished ==> winner == [Survivor(players[..])]
      ensures !finished ==> winner == old(winner)
    {
      var w;
      finished, w := CheckPrematureEnd(players);
      if finished {
        assert w == Survivor(players[..]) by {
          var k := Survivor(players[..]);
          assert players[k].state != Out;
        }
        winner := [w];
      }
    }

    /**
     * The end-of-round part of take_action: when nobody has to call and every
     * seat acted, the next round starts; at the reveal the winners are
     * found, otherwise the shared history becomes the count of seats still
     * in the betting, the seats are ranked for the new round and reset.
     */
    method EndRound()
      requires InHand()
      modifies this`round, this`winner, this`history, players
      ensures InHand()
      ensures State() == RoundEnded(old(State()), scorer)
    {
      ghost var g := State();
      var over := IsRoundEnd(players);
      if !over {
        return;
      }
      Advance();
      if round == Reveal {
        Showdown();
        assert State() == Game(g.seats, g.table.(round := Reveal, winner := Winners(g.seats)));
      } else {
        NewRound();
        assert State() == Game(NextRoundSeats(g.seats, scorer, ShownBoard(round, flop, turn, river)),
                               g.table.(round := round, history := Utils.DecimalString(Remaining(g.seats))));
      }
    }

    /** next_round applied to the round of the game. */
    method Advance()
      requires InHand()
      modifies this`round
      ensures InHand() && round == NextRound(old(round)) && round != Preflop
    {
      RoundSequence(round);
      round := NextRound(round);
    }

    /** The reveal: the winners are found among the seats. */
    method Showdown()
      requires InHand()
      modifies this`winner
      ensures InHand() && winner == Winners(players[..])
    {
      winner := FindWinner(players);
      assert forall k :: 0 <= k < |winner| ==> 0 <= winner[k] < players.Length;
    }

    /**
     * The start of a round before the reveal: the history becomes the count
     * of seats still in the betting, the seats are ranked with the board of
     * the new round and their states are reset.
     */
    method NewRound()
      requires InHand() && round != Preflop && round != Reveal
      modifies this`history, players
      ensures InHand()
      ensures players[..] == NextRoundSeats(old(players[..]), scorer, ShownBoard(round, flop, turn, river))
      ensures history == Utils.DecimalString(Remaining(old(players[..])))
    {
      ghost var ps := players[..];
      deck.DistinctSlots();
      RoundEndKeepsDeal(ps, deck.cards[..], flop, turn, river, scorer, round);
      var count := CountRemainingPlayers(players);
      history := Utils.DecimalString(count);
      UpdateRanks(players, scorer, round, flop, turn, river);
      ResetPlayerStates(players);
      assert players[..] == NextRoundSeats(ps, scorer, ShownBoard(round, flop, turn, river));
    }

    /**
     * next_player: seat 0 while the shared history is empty (a fresh game),
     * otherwise the first seat after the current one, going round the table,
     * that has neither folded nor gone all in.
     */
    method NextPlayer() returns (next: int)
      requires InHand() && Contested(players[..])
      modifies this
      ensures InHand() && next == currentPlayer
      ensures Fields() == old(Fields()).(currentPlayer := next)
      ensures old(history) == [] ==> next == 0
      ensures old(history) != [] ==> Active(players[next].state)
      ensures old(history) != [] ==>
        exists d :: (1 <= d <= N_PLAYERS && next == After(old(currentPlayer), d, N_PLAYERS)
                     && forall j :: 1 <= j < d ==> !Active(players[After(old(currentPlayer), j, N_PLAYERS)].state))
    {
      if |history| == 0 {
        currentPlayer := 0;
      } else {
        var w := ContestedHasActive(players[..]);
        assert Active(players[w].state);
        currentPlayer := NextActive(players, currentPlayer);
      }
      next := currentPlayer;
    }

    /** get_reward for seat hero: an error while the hand runs; the pot less the seat's contribution for a winner. */
    function GetReward(hero: int): (r: Result<int>)
      reads this, players
      requires players.Length == N_PLAYERS && |winner| >= 1 && 0 <= hero < N_PLAYERS
      ensures r.Failure? <==> IsRunning()
      ensures r.Success? && hero !in winner ==> r.value == -players[hero].potContribution
      ensures r.Success? && winner == [hero] ==> r.value == pot - players[hero].potContribution
      ensures r.Success? && hero in winner && |winner| > 1 && pot % |winner| == 0 ==>
        r.value == pot / |winner| - players[hero].potContribution
    {
      var c := players[hero].potContribution;
      if IsRunning() then Failure("Asking for reward of running game")
      else if |winner| == 1 then
        (if winner[0] == hero then Success(pot - c) else Success(-1 * c))
      else if hero in winner then
        var share := Truncate(pot as real / |winner| as real - c as real);
        assert pot % |winner| == 0 ==> share == pot / |winner| - c by {
          if pot % |winner| == 0 {
            EvenShare(pot, |winner|, c);
          }
        }
        Success(share)
      else Success(-1 * c)
    }

    /** With a single winner and a pot that did not wrap, the two seats' rewards cancel out. */
    lemma RewardsZeroSum()
      requires InHand() && Betting() && |winner| == 1 && 0 <= winner[0] < N_PLAYERS
      requires 0 <= Contributions(players[..]) < 0x1_0000
      ensures GetReward(0).Success? && GetReward(1).Success?
      ensures GetReward(0).value + GetReward(1).value == 0
    {
      var ps := players[..];
      TwoSeats(ps);
      assert pot == ps[0].potContribution + ps[1].potContribution;
    }

    /** When both seats tie for an even pot that did not wrap, the two seats' rewards cancel out. */
    lemma TieZeroSum()
      requires InHand() && Betting() && |winner| == 2 && 0 in winner && 1 in winner
      requires 0 <= Contributions(players[..]) < 0x1_0000 && pot % 2 == 0
      ensures GetReward(0).Success? && GetReward(1).Success?
      ensures GetReward(0).value + GetReward(1).value == 0
    {
      var ps := players[..];
      TwoSeats(ps);
      assert pot == ps[0].potContribution + ps[1].potContribution;
    }

    /** can_call: the seat has a raise to answer. */
    predicate CanCall(player: int)
      reads this, players
      requires players.Length == N_PLAYERS && 0 <= player < N_PLAYERS
      ensures CanCall(player) <==> players[player].state == ToCall
      ensures CanCall(player) ==> !RoundOver(players[..])
    {
      assert players[..][player] == players[player];
      players[player].state == ToCall
    }

    /**
     * can_raise: the seat is below the reraise limit, and a raise does not
     * undercut the raise that ends the shared history ('x' when it is empty).
     */
    predicate CanRaise(player: int, a: Action)
      reads this, players
      requires players.Length == N_PLAYERS && 0 <= player < N_PLAYERS
      ensures CanRaise(player, a) ==> players[player].nRaises < maxReraises
      ensures |history| == 0 || !IsUpper(a.tag) || !IsUpper(history[|history| - 1]) ==>
        (CanRaise(player, a) <==> players[player].nRaises < maxReraises)
      ensures |history| > 0 && IsUpper(a.tag) && IsUpper(history[|history| - 1]) ==>
        (CanRaise(player, a) <==> players[player].nRaises < maxReraises && a.tag >= history[|history| - 1])
    {
      var b := if |history| > 0 then history[|history| - 1] else 'x';
      players[player].nRaises < maxReraises && !(IsUpper(a.tag) && IsUpper(b) && a.tag < b)
    }

    /** Whether the seat may take the action: a call needs a raise to answer, a raise needs can_raise. */
    predicate Allowed(player: int, a: Action)
      reads this, players
      requires players.Length == N_PLAYERS && 0 <= player < N_PLAYERS
      ensures !IsUpper(a.tag) && a.tag != 'c' ==> Allowed(player, a)
      ensures a.tag == 'c' ==> (Allowed(player, a) <==> CanCall(player))
      ensures IsUpper(a.tag) ==> (Allowed(player, a) <==> CanRaise(player, a))
    {
      !(a.tag == 'c' && !CanCall(player)) && !(IsUpper(a.tag) && !CanRaise(player, a))
    }

    /** The actions among the first n of the action list the seat may take, in list order. */
    function AllowedActions(player: int, n: int): (r: seq<Action>)
      reads this, players
      requires players.Length == N_PLAYERS && 0 <= player < N_PLAYERS && 0 <= n <= |actions|
      ensures forall b :: b in r <==> b in actions[..n] && Allowed(player, b)
    {
      if n == 0 then []
      else
        assert actions[..n] == actions[..n - 1] + [actions[n - 1]];
        AllowedActions(player, n - 1) + (if Allowed(player, actions[n - 1]) then [actions[n - 1]] else [])
    }

    /** get_valid_actions_mask: 1 for every action the seat may take, 0 for the others. */
    method GetValidActionsMask(player: int) returns (mask: seq<int>)
      requires Valid() && 0 <= player < N_PLAYERS
      ensures |mask| == N_ACTIONS
      ensures forall k :: 0 <= k < N_ACTIONS ==> (mask[k] == 1 <==> Allowed(player, actions[k])) && (mask[k] == 0 || mask[k] == 1)
      ensures mask[0] == 1
    {
      mask := [1, 1, 1, 1, 1, 1];
      for i := 0 to N_ACTIONS
        invariant |mask| == N_ACTIONS
        invariant forall k :: 0 <= k < i ==> (mask[k] == 1 <==> Allowed(player, actions[k])) && (mask[k] == 0 || mask[k] == 1)
        invariant forall k :: i <= k < N_ACTIONS ==> mask[k] == 1
      {
        if actions[i].tag == 'c' && !CanCall(player) {
          mask := mask[i := 0];
        }
        if IsUpper(actions[i].tag) && !CanRaise(player, actions[i]) {
          mask := mask[i := 0];
        }
      }
    }

    /** get_valid_actions: the actions the seat may take, in the order of the action list. */
    method GetValidActions(player: int) returns (valid: seq<Action>)
      requires Valid() && 0 <= player < N_PLAYERS
      ensures valid == AllowedActions(player, N_ACTIONS)
      ensures forall k :: 0 <= k < N_ACTIONS ==> (actions[k] in valid <==> Allowed(player, actions[k]))
      ensures actions[0] in valid
    {
      valid := [];
      for i := 0 to N_ACTIONS
        invariant valid == AllowedActions(player, i)
      {
        var a := actions[i];
        if a.tag == 'c' && !CanCall(player) {
          continue;
        }
        if IsUpper(a.tag) && !CanRaise(player, a) {
          continue;
        }
        valid := valid + [a];
      }
      assert actions[..N_ACTIONS] == actions;
    }

    /**
     * create_key: the seat's rank string, its own history up to the current
     * round and the shared history of the current round, padded with spaces
     * to KEY_LENGTH.
     */
    function CreateKey(player: int): (key: string)
      reads this, players
      requires players.Length == N_PLAYERS && 0 <= player < N_PLAYERS
      ensures var p := players[player];
        var body := p.rankStr + p.HistoryWithoutCurrentRound() + history;
        && |key| == (if |body| < KEY_LENGTH then KEY_LENGTH else |body|)
        && key[..|p.rankStr|] == p.rankStr
        && key[|p.rankStr|..|p.rankStr| + |p.HistoryWithoutCurrentRound()|] == p.HistoryWithoutCurrentRound()
        && key[|body| - |history|..|body|] == history
        && forall i :: |body| <= i < |key| ==> key[i] == ' '
    {
      var p := players[player];
      var body := p.rankStr + p.HistoryWithoutCurrentRound() + history;
      var key := Utils.PadString(body, KEY_LENGTH);
      assert key[..|body|] == body;
      assert key[..|p.rankStr|] == body[..|p.rankStr|];
      key
    }

    /**
     * is_player_in_game: the seat has not folded. The count that
     * check_premature_end takes is one for each seat in the game.
     */
    predicate IsPlayerInGame(player: int)
      reads this, players
      requires players.Length == N_PLAYERS && 0 <= player < N_PLAYERS
      ensures NotOut(players[..]) == (if IsPlayerInGame(player) then 1 else 0) + (if players[1 - player].state != Out then 1 else 0)
    {
      NotOutOfTwo(players[..]);
      players[player].state != Out
    }

    /** get_player_pot_contribution: with the other seat's contribution it makes up what the pot was paid. */
    function GetPlayerPotContribution(player: int): (c: int)
      reads this, players
      requires players.Length == N_PLAYERS && 0 <= player < N_PLAYERS
      ensures c == players[player].potContribution
      ensures c + players[1 - player].potContribution == Contributions(players[..])
    {
      TwoSeats(players[..]);
      players[player].potContribution
    }

    /** What a seat's rank string is in each round, for GetPlayerCardsStr. */
    lemma SeatRankString(player: int)
      requires players.Length == N_PLAYERS && 0 <= player < N_PLAYERS
      ensures RanksShown() && round == Preflop ==> players[player].rankStr == PreflopString(players[player].cards)
      ensures InHand() && Evaluating() && RanksShown() && round != Preflop ==>
        Evaluated(tables, players[player], ShownBoard(round, flop, turn, river))
    {
      if RanksShown() {
        assert Ranked(scorer, players[..][player], ShownBoard(round, flop, turn, river));
        if InHand() && Evaluating() && round != Preflop {
          ShownRanks();
        }
      }
    }

    /**
     * get_player_cards_str: the seat's rank string, which is the preflop
     * string of its hole cards before the flop and, later, the description of
     * the evaluated rank of its hole cards with the shown board.
     */
    function GetPlayerCardsStr(player: int): (s: string)
      reads this, players, deck, deck.cards
      requires players.Length == N_PLAYERS && 0 <= player < N_PLAYERS
      ensures s == players[player].rankStr
      ensures RanksShown() && round == Preflop ==> s == PreflopString(players[player].cards)
      ensures InHand() && Evaluating() && RanksShown() && round != Preflop ==>
        Evaluated(tables, players[player], ShownBoard(round, flop, turn, river))
    {
      SeatRankString(player);
      players[player].rankStr
    }
  }
}
