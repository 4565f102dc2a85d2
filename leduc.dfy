/**
 * Leduc hold'em (inc/leduc.h, src/leduc.cpp): a six-card deck of two
 * kings, two queens and two jacks, one hole card per seat, one flop card,
 * two betting rounds, the ranks of the seats kept in their own int8_t
 * array and a single winner.
 *
 * As for the hold'em game, the invariant of a hand in play is stated on
 * values (the seats, the ranks, the deck's card sequence, the flop card) so
 * that each step of the class is proved by a few lemmas about those values.
 */
module Leduc {
  import opened Cards
  import opened Players
  import opened Actions
  import opened Betting
  import opened Wrappers
  import Decks
  import Utils

  // ---------------------------------------------------------------- rounds

  /** Round: PREFLOP, FLOP and REVEAL with the contiguous ordinals 0, 1, 2. */
  datatype Round = Preflop | Flop | Reveal
  {
    function Ordinal(): int
    {
      match this
      case Preflop => 0
      case Flop => 1
      case Reveal => 2
    }
  }

  /** static_cast<Round> of an ordinal. */
  function RoundOf(k: int): (r: Round)
    requires 0 <= k <= 2
    ensures r.Ordinal() == k
  {
    if k == 0 then Preflop else if k == 1 then Flop else Reveal
  }

  /** next_round: REVEAL stays, any other round goes to the ordinal plus one modulo REVEAL + 1. */
  function NextRound(r: Round): Round
  {
    if r == Reveal then Reveal else RoundOf((r.Ordinal() + 1) % (Reveal.Ordinal() + 1))
  }

  /** The rounds of a hand: PREFLOP, FLOP, then REVEAL, which stays. */
  lemma RoundSequence(r: Round)
    ensures NextRound(Preflop) == Flop && NextRound(Flop) == Reveal && NextRound(Reveal) == Reveal
    ensures NextRound(r) != Preflop
  {
  }

  // ---------------------------------------------------------------- the deck

  /** The codes the constructor fills m_deck with: the king, queen and jack of diamonds and of clubs. */
  const DeckCodes: seq<int> := [45, 44, 41, 40, 37, 36]

  /** m_deck as the constructor leaves it. */
  function NewDeck(): (d: seq<Card>)
    ensures |d| == 6 && forall i :: 0 <= i < 6 ==> d[i] == FromCode(DeckCodes[i])
  {
    [FromCode(45), FromCode(44), FromCode(41), FromCode(40), FromCode(37), FromCode(36)]
  }

  /**
   * The six cards are the king (rank index 11), the queen (10) and the jack
   * (9), each in diamonds (suit index 1) and in clubs (0), all different.
   */
  lemma NewDeckFaces()
    ensures forall i :: 0 <= i < 6 ==> Valid(NewDeck()[i])
    ensures forall i :: 0 <= i < 6 ==> NewDeck()[i].rank == 11 - i / 2 && NewDeck()[i].suitIdx == 1 - i % 2
    ensures Decks.Distinct(NewDeck())
  {
    var d := NewDeck();
    forall i | 0 <= i < 6 ensures d[i].rank == 11 - i / 2 && d[i].suitIdx == 1 - i % 2 {
      assert 4 * d[i].rank + d[i].suitIdx == DeckCodes[i];
    }
  }

  /** A card of the Leduc deck: a real card, a king, queen or jack, of diamonds or clubs. */
  ghost predicate LeducCard(c: Card)
  {
    Valid(c) && 9 <= c.rank <= 11 && 0 <= c.suitIdx <= 1
  }

  /** A Leduc deck in some order: six different cards of the Leduc deck. */
  ghost predicate DeckCards(d: seq<Card>)
  {
    |d| == 6 && (forall i :: 0 <= i < 6 ==> LeducCard(d[i])) && Decks.Distinct(d)
  }

  /** The deck the constructor builds is a Leduc deck. */
  lemma NewDeckCards()
    ensures DeckCards(NewDeck())
  {
    NewDeckFaces();
  }

  /** A permutation of a Leduc deck is a Leduc deck. */
  lemma PermutedDeck(s: seq<Card>, t: seq<Card>)
    requires DeckCards(t) && multiset(s) == multiset(t)
    ensures DeckCards(s)
  {
    assert |s| == |multiset(s)| == |t|;
    Decks.DistinctByMultiset(s, t);
    forall i | 0 <= i < 6 ensures LeducCard(s[i]) {
      assert s[i] in multiset(t);
      var j :| 0 <= j < 6 && t[j] == s[i];
    }
  }

  /** A real card is determined by its rank and suit. */
  lemma SameFace(a: Card, b: Card)
    requires Valid(a) && Valid(b) && a.rank == b.rank && a.suitIdx == b.suitIdx
    ensures a == b
  {
  }

  /** The deck holds two cards of each rank, so three different cards of it never share a rank. */
  lemma NoThreeOfAKind(a: Card, b: Card, c: Card)
    requires LeducCard(a) && LeducCard(b) && LeducCard(c) && a != b && a != c && b != c
    ensures !(a.rank == b.rank && b.rank == c.rank)
  {
    if a.rank == b.rank && b.rank == c.rank {
      if a.suitIdx == b.suitIdx {
        SameFace(a, b);
      } else if a.suitIdx == c.suitIdx {
        SameFace(a, c);
      } else {
        SameFace(b, c);
      }
    }
  }

  // ---------------------------------------------------------------- ranks of the seats

  /**
   * The rank update_ranks computes for hole card c with the flop card: the
   * flop's value plus 100 for a pair, otherwise the sum of both values, plus
   * 50 when the two cards are suited.
   */
  function FlopRank(c: Card, flop: Card): int
  {
    if GetValue(c) == GetValue(flop) then GetValue(flop) + 100
    else if c.suitChar == flop.suitChar then GetValue(c) + GetValue(flop) + 50
    else GetValue(c) + GetValue(flop)
  }

  /** The m_ranks entry of a seat holding c: the card's value preflop, later the rank with the flop, as an int8_t. */
  function SeatRank(round: Round, c: Card, flop: Card): int
  {
    SignedChar(if round == Preflop then GetValue(c) else FlopRank(c, flop))
  }

  /**
   * The rank string of a seat holding c: the card's string preflop; later
   * "2" and the flop's value character for a pair, otherwise both value
   * characters and 's' or 'o'.
   */
  function RankString(round: Round, c: Card, flop: Card): string
  {
    if round == Preflop then ToString(c)
    else if GetValue(c) == GetValue(flop) then ['2', flop.valueChar]
    else [c.valueChar, flop.valueChar, if c.suitChar == flop.suitChar then 's' else 'o']
  }

  /** The hand category after the flop: 2 for a pair with the flop card, 1 for suited, 0 for offsuit. */
  function Category(c: Card, flop: Card): int
  {
    if c.rank == flop.rank then 2 else if c.suitChar == flop.suitChar then 1 else 0
  }

  /**
   * The ranks of real cards fit the int8_t they are stored in: preflop the
   * card's value 2..14, after the flop 102..114 for a pair, 55..77 for a
   * suited hand and 5..27 for an offsuit hand. The ranks of the Leduc deck
   * are 11..13 preflop, then 111..113, 73..75 and 23..25.
   */
  lemma RankRanges(round: Round, c: Card, flop: Card)
    requires 0 <= c.rank <= 12 && 0 <= flop.rank <= 12
    ensures round == Preflop ==> SeatRank(round, c, flop) == c.rank + 2
    ensures round != Preflop && Category(c, flop) == 2 ==> 102 <= SeatRank(round, c, flop) <= 114
    ensures round != Preflop && Category(c, flop) == 1 ==> 55 <= SeatRank(round, c, flop) <= 77
    ensures round != Preflop && Category(c, flop) == 0 ==> 5 <= SeatRank(round, c, flop) <= 27
    ensures round != Preflop && 9 <= c.rank <= 11 && 9 <= flop.rank <= 11 ==>
      var r := SeatRank(round, c, flop);
      if Category(c, flop) == 2 then 111 <= r <= 113 else if Category(c, flop) == 1 then 73 <= r <= 75 else 23 <= r <= 25
  {
  }

  /**
   * The ranks order the hands after the flop: a pair beats a suited hand,
   * which beats an offsuit hand, and within the suited or the offsuit hands
   * the higher hole card ranks higher.
   */
  lemma RankOrder(round: Round, c1: Card, c2: Card, flop: Card)
    requires round != Preflop
    requires 0 <= c1.rank <= 12 && 0 <= c2.rank <= 12 && 0 <= flop.rank <= 12
    ensures Category(c1, flop) > Category(c2, flop) ==> SeatRank(round, c1, flop) > SeatRank(round, c2, flop)
    ensures Category(c1, flop) == Category(c2, flop) < 2 ==>
      (SeatRank(round, c1, flop) > SeatRank(round, c2, flop) <==> c1.rank > c2.rank)
  {
    RankRanges(round, c1, flop);
    RankRanges(round, c2, flop);
  }

  /**
   * The rank string create_key puts first carries the rank: two real cards
   * whose strings agree in a round have the same rank in it.
   */
  lemma RankStringDeterminesRank(round: Round, c1: Card, c2: Card, flop: Card)
    requires Valid(c1) && Valid(c2) && Valid(flop)
    requires RankString(round, c1, flop) == RankString(round, c2, flop)
    ensures SeatRank(round, c1, flop) == SeatRank(round, c2, flop)
  {
    var s := RankString(round, c1, flop);
    if (round == Preflop || |s| == 3) && c1.rank != c2.rank {
      assert s[0] == c1.valueChar == c2.valueChar;
      IntToStrInjective(c1.rank, c2.rank);
    }
  }

  /**
   * Two different hole cards of the Leduc deck, with a third card as the
   * flop, never rank alike: the reveal always has a single best hand.
   */
  lemma NoTies(round: Round, c1: Card, c2: Card, flop: Card)
    requires round != Preflop
    requires LeducCard(c1) && LeducCard(c2) && LeducCard(flop) && c1 != c2 && c1 != flop && c2 != flop
    ensures SeatRank(round, c1, flop) != SeatRank(round, c2, flop)
  {
    RankOrder(round, c1, c2, flop);
    RankOrder(round, c2, c1, flop);
    if Category(c1, flop) == Category(c2, flop) {
      if Category(c1, flop) == 2 {
        NoThreeOfAKind(c1, c2, flop);
      }
    }
  }

  /** A seat after update_ranks: its rank string set, everything else as it was. */
  function RankedSeat(round: Round, p: Player, flop: Card): Player
    requires |p.cards| >= 1
  {
    p.(rankStr := RankString(round, p.cards[0], flop))
  }

  /**
   * update_ranks for one seat: its rank string and its rank, decided on
   * the round and, after the preflop, on a pair with the flop and the suits.
   */
  method RankSeat(p: Player, round: Round, flop: Card) returns (q: Player, rank: int)
    requires |p.cards| >= 1
    ensures q == RankedSeat(round, p, flop) && rank == SeatRank(round, p.cards[0], flop)
  {
    var card := p.cards[0];
    if round == Preflop {
      q := p.(rankStr := ToString(card));
      rank := SignedChar(GetValue(card));
    } else if GetValue(card) == GetValue(flop) {
      q := p.(rankStr := "2" + [flop.valueChar]);
      rank := SignedChar(GetValue(flop) + 100);
    } else if card.suitChar == flop.suitChar {
      var s := [card.valueChar] + [flop.valueChar];
      q := p.(rankStr := s + "s");
      rank := SignedChar(GetValue(card) + GetValue(flop) + 50);
    } else {
      var s := [card.valueChar] + [flop.valueChar];
      q := p.(rankStr := s + "o");
      rank := SignedChar(GetValue(card) + GetValue(flop));
    }
  }

  /** Every seat has its two card slots. */
  ghost predicate Holding(ps: seq<Player>)
  {
    forall k :: 0 <= k < |ps| ==> |ps[k].cards| == 2
  }

  /** The seats after update_ranks. */
  ghost function RankAll(ps: seq<Player>, round: Round, flop: Card): (qs: seq<Player>)
    requires Holding(ps)
    ensures |qs| == |ps| && forall k :: 0 <= k < |ps| ==> qs[k] == RankedSeat(round, ps[k], flop)
  {
    if ps == [] then [] else RankAll(ps[..|ps| - 1], round, flop) + [RankedSeat(round, ps[|ps| - 1], flop)]
  }

  /** m_ranks after update_ranks. */
  ghost function RanksOf(ps: seq<Player>, round: Round, flop: Card): (rs: seq<int>)
    requires Holding(ps)
    ensures |rs| == |ps| && forall k :: 0 <= k < |ps| ==> rs[k] == SeatRank(round, ps[k].cards[0], flop)
  {
    if ps == [] then [] else RanksOf(ps[..|ps| - 1], round, flop) + [SeatRank(round, ps[|ps| - 1].cards[0], flop)]
  }

  /** Ranking changes only the rank strings: the seats keep their shapes, states, contributions and cards. */
  lemma RankAllKeeps(ps: seq<Player>, round: Round, flop: Card)
    requires Holding(ps)
    ensures var rs := RankAll(ps, round, flop);
      && Holding(rs) && (Shaped(ps) ==> Shaped(rs))
      && forall k :: 0 <= k < |ps| ==>
        rs[k].state == ps[k].state && rs[k].potContribution == ps[k].potContribution && rs[k].cards == ps[k].cards
  {
    var rs := RankAll(ps, round, flop);
    forall k | 0 <= k < |ps| ensures rs[k].history == ps[k].history && rs[k].cards == ps[k].cards {
      assert rs[k] == RankedSeat(round, ps[k], flop);
    }
  }

  /** update_ranks: every seat gets the rank string and the m_ranks entry of its card in the round. */
  method UpdateRanks(players: array<Player>, ranks: array<int>, round: Round, flop: Card)
    requires players.Length == N_PLAYERS && ranks.Length == N_PLAYERS && Holding(players[..])
    modifies players, ranks
    ensures players[..] == RankAll(old(players[..]), round, flop)
    ensures ranks[..] == RanksOf(old(players[..]), round, flop)
  {
    ghost var before := players[..];
    for i := 0 to N_PLAYERS
      invariant forall k :: 0 <= k < N_PLAYERS ==> players[k] == if k < i then RankedSeat(round, before[k], flop) else before[k]
      invariant forall k :: 0 <= k < i ==> ranks[k] == SeatRank(round, before[k].cards[0], flop)
    {
      var p, r := RankSeat(players[i], round, flop);
      players[i] := p;
      ranks[i] := r;
    }
  }

  /** Every seat carries the rank and the rank string of its card in the round. */
  ghost predicate RanksShown(ps: seq<Player>, rs: seq<int>, round: Round, flop: Card)
  {
    && |rs| == |ps| && Holding(ps)
    && forall k :: 0 <= k < |ps| ==>
      rs[k] == SeatRank(round, ps[k].cards[0], flop) && ps[k].rankStr == RankString(round, ps[k].cards[0], flop)
  }

  // ---------------------------------------------------------------- the winner

  /** The greatest rank among the seats that are in, or 0, find_winner's starting best_combo, when that is greater. */
  function BestRank(ps: seq<Player>, rs: seq<int>): (v: int)
    requires |rs| == |ps|
    ensures v >= 0 && forall k :: 0 <= k < |ps| && ps[k].state == In ==> rs[k] <= v
    ensures v == 0 || exists k :: 0 <= k < |ps| && ps[k].state == In && rs[k] == v
  {
    if ps == [] then 0
    else
      var n := |ps| - 1;
      var v := BestRank(ps[..n], rs[..n]);
      assert forall k :: 0 <= k < n ==> ps[..n][k] == ps[k] && rs[..n][k] == rs[k];
      if ps[n].state == In && rs[n] > v then rs[n] else v
  }

  /**
   * The seat find_winner names: the first seat that is in with the best
   * rank, or seat 0 when no seat that is in ranks above 0.
   */
  function Winner(ps: seq<Player>, rs: seq<int>): (w: int)
    requires |rs| == |ps|
    ensures BestRank(ps, rs) == 0 ==> w == 0
    ensures BestRank(ps, rs) > 0 ==>
      && 0 <= w < |ps| && ps[w].state == In && rs[w] == BestRank(ps, rs)
      && forall k :: 0 <= k < w && ps[k].state == In ==> rs[k] < rs[w]
  {
    if ps == [] then 0
    else
      var n := |ps| - 1;
      assert forall k :: 0 <= k < n ==> ps[..n][k] == ps[k] && rs[..n][k] == rs[k];
      if ps[n].state == In && rs[n] > BestRank(ps[..n], rs[..n]) then n else Winner(ps[..n], rs[..n])
  }

  /** find_winner: best_player and best_combo start at 0; a seat that is in with a strictly greater rank takes over. */
  method FindWinner(players: array<Player>, ranks: array<int>) returns (w: int)
    requires ranks.Length == players.Length
    ensures w == Winner(players[..], ranks[..])
  {
    var bestPlayer, bestCombo := 0, 0;
    for i := 0 to players.Length
      invariant bestCombo == BestRank(players[..i], ranks[..i])
      invariant bestPlayer == Winner(players[..i], ranks[..i])
    {
      assert players[..i + 1][..i] == players[..i] && ranks[..i + 1][..i] == ranks[..i];
      if players[i].state == In {
        if ranks[i] > bestCombo {
          bestCombo := ranks[i];
          bestPlayer := i;
        }
      }
    }
    assert players[..players.Length] == players[..] && ranks[..ranks.Length] == ranks[..];
    w := bestPlayer;
  }

  // ---------------------------------------------------------------- the deal

  /** Seat k holds deck card k in its first slot, and the flop is deck card 2. */
  ghost predicate Dealt(ps: seq<Player>, d: seq<Card>, flop: Card)
  {
    && |ps| == N_PLAYERS && |d| == 6 && Holding(ps)
    && (forall k :: 0 <= k < N_PLAYERS ==> ps[k].cards[0] == d[k])
    && flop == d[2]
  }

  /** The seat k of start_game before its card: seat 0 has to call the small blind, seat 1 is in with the big blind. */
  function BlindSeat(k: int, smallBlind: int, bigBlind: int): Player
  {
    SeatedPlayer(if k < N_PLAYERS - 1 then ToCall else In, if k == 0 then smallBlind else bigBlind)
  }

  /** The seats and the ranks start_game leaves, dealt from the deck d and ranked preflop. */
  ghost predicate DealtSeats(ps: seq<Player>, rs: seq<int>, d: seq<Card>, smallBlind: int, bigBlind: int)
  {
    && |d| == 6 && |ps| == N_PLAYERS && |rs| == N_PLAYERS
    && forall k :: 0 <= k < N_PLAYERS ==>
      && ps[k] == BlindSeat(k, smallBlind, bigBlind).(cards := [d[k], Cards.Default], cardIdx := 1, rankStr := ToString(d[k]))
      && rs[k] == SeatRank(Preflop, d[k], d[2])
  }

  /** Ranking the seats of the deal preflop gives each its card string and its card's value. */
  lemma PreflopDealt(seated: seq<Player>, ps: seq<Player>, rs: seq<int>, d: seq<Card>, smallBlind: int, bigBlind: int, flop: Card)
    requires |seated| == N_PLAYERS && |d| == 6 && Holding(seated)
    requires ps == RankAll(seated, Preflop, flop) && rs == RanksOf(seated, Preflop, flop)
    requires forall k :: 0 <= k < N_PLAYERS ==>
      seated[k] == BlindSeat(k, smallBlind, bigBlind).(cards := [d[k], Cards.Default], cardIdx := 1)
    ensures DealtSeats(ps, rs, d, smallBlind, bigBlind)
  {
  }

  /** The seats of a hand in play: dealt, the pot equal to what the seats put in as a uint16_t, and contested. */
  ghost predicate InPlay(ps: seq<Player>, d: seq<Card>, flop: Card, pot: int)
  {
    Seated(ps) && Dealt(ps, d, flop) && pot == Contributions(ps) % 0x1_0000 && Contested(ps)
  }

  /**
   * The deal of start_game puts a hand in play: two shaped seats holding
   * the first two cards of the deck, the flop the third, both blinds in the
   * pot, and every seat ranked preflop.
   */
  lemma DealInPlay(ps: seq<Player>, rs: seq<int>, d: seq<Card>, smallBlind: int, bigBlind: int)
    requires DealtSeats(ps, rs, d, smallBlind, bigBlind)
    ensures InPlay(ps, d, d[2], AddToPot(bigBlind, smallBlind))
    ensures RanksShown(ps, rs, Preflop, d[2])
  {
    var p0, p1 := ps[0], ps[1];
    assert p0.potContribution == smallBlind && p1.potContribution == bigBlind;
    assert p0.state == ToCall && p1.state == In;
    assert HistoryShape(p0.history) && HistoryShape(p1.history);
    TwoSeats(ps);
    BlindsPot(bigBlind, smallBlind, Contributions(ps));
  }

  // ---------------------------------------------------------------- take_action on values

  /** The fields of a game that change in play, apart from the seats, the ranks and the deck. */
  datatype Table = Table(currentPlayer: int, round: Round, winner: int, history: string, pot: int, flop: Card)

  /** The seats, the ranks and the table of a game. */
  datatype Game = Game(seats: seq<Player>, ranks: seq<int>, table: Table)

  /** Two seats with a history and two card slots each, a rank each, and a current seat among them. */
  ghost predicate Actionable(g: Game)
  {
    && |g.seats| == N_PLAYERS && |g.ranks| == N_PLAYERS && Holding(g.seats)
    && 0 <= g.table.currentPlayer < N_PLAYERS && Started(g.seats)
  }

  /** take_action up to the push onto the history: the seat acts, the pot grows, an early end names the winner. */
  ghost function Applied(g: Game, a: Action, bigBlind: int): Game
    requires Actionable(g)
  {
    var cur := g.table.currentPlayer;
    var acted := AfterAction(g.seats, cur, a, bigBlind);
    var winner := if FoldEnds(g.seats, cur, a, bigBlind) then Survivor(acted) else g.table.winner;
    Game(acted, g.ranks, g.table.(winner := winner, history := g.table.history + [a.tag],
                                  pot := AddToPot(g.table.pot, PotDelta(g.seats, cur, a, bigBlind))))
  }

  /**
   * The end-of-round part of take_action: nothing while a seat has to call
   * or has not acted; otherwise the next round, where the reveal names the
   * winner and the flop compresses the history, ranks the seats with the
   * flop card and resets them.
   */
  ghost function RoundEnded(g: Game): Game
    requires Holding(g.seats) && |g.ranks| == |g.seats|
  {
    var ps, t := g.seats, g.table;
    var next := NextRound(t.round);
    if !RoundOver(ps) then g
    else if next == Reveal then Game(ps, g.ranks, t.(round := Reveal, winner := Winner(ps, g.ranks)))
    else Game(ResetAll(RankAll(ps, next, t.flop)), RanksOf(ps, next, t.flop),
              t.(round := next, history := Utils.DecimalString(Remaining(ps))))
  }

  /** take_action: the action, then the end of the round unless the hand ended early. */
  ghost function Taken(g: Game, a: Action, bigBlind: int): Game
    requires Actionable(g)
  {
    var h := Applied(g, a, bigBlind);
    ActionKeepsCards(g.seats, g.table.currentPlayer, a, bigBlind);
    if FoldEnds(g.seats, g.table.currentPlayer, a, bigBlind) then h else RoundEnded(h)
  }

  /** A hand in play, with the table's flop and pot. */
  ghost predicate GameInPlay(g: Game, d: seq<Card>)
  {
    InPlay(g.seats, d, g.table.flop, g.table.pot) && |g.ranks| == N_PLAYERS
  }

  /** An action keeps a hand in play, with the pot grown by what the seat adds. */
  lemma ActionKeepsPlay(ps: seq<Player>, d: seq<Card>, flop: Card, pot: int, cur: int, a: Action, bigBlind: int)
    requires InPlay(ps, d, flop, pot) && 0 <= cur < N_PLAYERS
    ensures Started(ps)
    ensures InPlay(AfterAction(ps, cur, a, bigBlind), d, flop, AddToPot(pot, PotDelta(ps, cur, a, bigBlind)))
  {
    ActionShape(ps, cur, a, bigBlind);
    ActionContested(ps, cur, a, bigBlind);
    ActionPot(ps, cur, a, bigBlind);
    ActionKeepsCards(ps, cur, a, bigBlind);
    PotStep(Contributions(ps), pot, PotDelta(ps, cur, a, bigBlind), Contributions(AfterAction(ps, cur, a, bigBlind)));
  }

  /** Ranking and resetting the seats at the end of a round keeps a hand in play. */
  lemma RoundEndKeepsPlay(ps: seq<Player>, d: seq<Card>, flop: Card, pot: int, round: Round)
    requires InPlay(ps, d, flop, pot) && RoundOver(ps)
    ensures InPlay(ResetAll(RankAll(ps, round, flop)), d, flop, pot)
  {
    RoundEndKeepsBets(ps, round, flop);
    RankedResetShaped(ps, round, flop);
    var rs := RankAll(ps, round, flop);
    RankAllKeeps(ps, round, flop);
    var qs := ResetAll(rs);
    forall k | 0 <= k < |qs| ensures qs[k].cards == ps[k].cards {
      assert qs[k] == ResetSeat(rs[k]);
    }
  }

  /** Ranking and resetting the seats of a contested hand at the end of a round keeps it contested and keeps the contributions. */
  lemma RoundEndKeepsBets(ps: seq<Player>, round: Round, flop: Card)
    requires Holding(ps) && Shaped(ps) && Contested(ps) && RoundOver(ps)
    ensures var qs := ResetAll(RankAll(ps, round, flop));
      Contested(qs) && Contributions(qs) == Contributions(ps)
  {
    var rs := RankAll(ps, round, flop);
    RankAllKeeps(ps, round, flop);
    SameStates(ps, rs);
    SameContributions(ps, rs);
    ResetContested(rs);
  }

  /**
   * take_action keeps a hand in play: after the seat's action the pot has
   * grown by what the seat added, as a uint16_t, and still holds what the
   * seats put in; the deal and the contest are kept, and so they are when
   * the round ends and the seats are ranked and reset for the flop. The
   * flop card is never touched.
   */
  lemma TakenKeepsPlay(g: Game, d: seq<Card>, a: Action, bigBlind: int)
    requires GameInPlay(g, d) && 0 <= g.table.currentPlayer < N_PLAYERS
    ensures Actionable(g)
    ensures var h := Taken(g, a, bigBlind); GameInPlay(h, d) && h.table.flop == g.table.flop
  {
    var ps, t := g.seats, g.table;
    ActionKeepsPlay(ps, d, t.flop, t.pot, t.currentPlayer, a, bigBlind);
    var h := Applied(g, a, bigBlind);
    var next := NextRound(t.round);
    if !FoldEnds(ps, t.currentPlayer, a, bigBlind) && RoundOver(h.seats) && next != Reveal {
      RoundEndKeepsPlay(h.seats, d, t.flop, h.table.pot, next);
    }
  }

  /**
   * take_action keeps every seat ranked for the round the game is in: an
   * action changes no card and no rank, the reveal keeps the ranks of the
   * flop, and the flop ranks the seats again.
   */
  lemma TakenRanked(g: Game, d: seq<Card>, a: Action, bigBlind: int)
    requires GameInPlay(g, d) && 0 <= g.table.currentPlayer < N_PLAYERS
    requires RanksShown(g.seats, g.ranks, g.table.round, g.table.flop)
    ensures Actionable(g)
    ensures var h := Taken(g, a, bigBlind); RanksShown(h.seats, h.ranks, h.table.round, h.table.flop)
  {
    var ps, t := g.seats, g.table;
    ActionKeepsPlay(ps, d, t.flop, t.pot, t.currentPlayer, a, bigBlind);
    ActionKeepsRanks(ps, g.ranks, t.round, t.flop, t.currentPlayer, a, bigBlind);
    var h := Applied(g, a, bigBlind);
    var next := NextRound(t.round);
    RoundSequence(t.round);
    if !FoldEnds(ps, t.currentPlayer, a, bigBlind) && RoundOver(h.seats) {
      if next == Reveal {
        RevealKeepsRanks(h.seats, h.ranks, t.round, t.flop);
      } else {
        NextRoundRanked(h.seats, next, t.flop);
      }
    }
  }

  /** An action keeps every seat's card, rank and rank string. */
  lemma ActionKeepsRanks(ps: seq<Player>, rs: seq<int>, round: Round, flop: Card, cur: int, a: Action, bigBlind: int)
    requires |ps| == N_PLAYERS && 0 <= cur < N_PLAYERS && Started(ps) && RanksShown(ps, rs, round, flop)
    ensures RanksShown(AfterAction(ps, cur, a, bigBlind), rs, round, flop)
  {
    ActionKeepsCards(ps, cur, a, bigBlind);
  }

  /** The reveal shows the ranks of the flop. */
  lemma RevealKeepsRanks(ps: seq<Player>, rs: seq<int>, round: Round, flop: Card)
    requires round != Preflop && RanksShown(ps, rs, round, flop)
    ensures RanksShown(ps, rs, Reveal, flop)
  {
  }

  /** Ranking and resetting the seats for a round shows the ranks of that round. */
  lemma NextRoundRanked(ps: seq<Player>, round: Round, flop: Card)
    requires Holding(ps)
    ensures RanksShown(ResetAll(RankAll(ps, round, flop)), RanksOf(ps, round, flop), round, flop)
  {
    var rs := RankAll(ps, round, flop);
    RankAllKeeps(ps, round, flop);
    var qs := ResetAll(rs);
    forall k | 0 <= k < |qs|
      ensures |qs[k].cards| == 2 && qs[k].cards[0] == ps[k].cards[0]
      ensures qs[k].rankStr == RankString(round, ps[k].cards[0], flop)
    {
      assert qs[k] == ResetSeat(rs[k]) && rs[k] == RankedSeat(round, ps[k], flop);
    }
  }

  /** An early end leaves one winner: the seat that is in, every other seat having folded. */
  lemma EarlyWinner(g: Game, a: Action, bigBlind: int)
    requires Actionable(g) && FoldEnds(g.seats, g.table.currentPlayer, a, bigBlind)
    ensures var h := Taken(g, a, bigBlind);
      && 0 <= h.table.winner < N_PLAYERS && h.seats[h.table.winner].state == In
      && forall k :: 0 <= k < N_PLAYERS && k != h.table.winner ==> h.seats[k].state == Out
  {
    FoldLeavesSurvivor(g.seats, g.table.currentPlayer, a, bigBlind);
  }

  /**
   * The reveal of a hand in play dealt from the Leduc deck names the seat
   * that is in with the best rank, and that rank is strictly better than
   * every other such seat's: no tie has to be broken.
   */
  lemma ShowdownWinner(ps: seq<Player>, rs: seq<int>, d: seq<Card>, flop: Card, pot: int)
    requires InPlay(ps, d, flop, pot) && DeckCards(d) && RoundOver(ps) && RanksShown(ps, rs, Reveal, flop)
    ensures var w := Winner(ps, rs);
      && 0 <= w < N_PLAYERS && ps[w].state == In
      && forall k :: 0 <= k < N_PLAYERS && k != w && ps[k].state == In ==> rs[k] < rs[w]
  {
    var j := RoundOverHasIn(ps);
    RankRanges(Reveal, d[j], d[2]);
    assert rs[j] > 0;
    var w := Winner(ps, rs);
    forall k | 0 <= k < N_PLAYERS && k != w && ps[k].state == In ensures rs[k] < rs[w] {
      NoTies(Reveal, d[k], d[w], d[2]);
    }
  }

  /**
   * Preflop, seat 0 has the small blind to call and seat 1 is already in,
   * so a call by seat 0 ends the round at once: the game moves to the flop,
   * both seats have not acted in it, and the history is "2", the two seats
   * still in the betting.
   */
  lemma CallClosesPreflop(ps: seq<Player>, rs: seq<int>, d: seq<Card>, smallBlind: int, bigBlind: int, t: Table, a: Action)
    requires DealtSeats(ps, rs, d, smallBlind, bigBlind) && t.currentPlayer == 0 && t.round == Preflop && a.tag == 'c'
    ensures Actionable(Game(ps, rs, t))
    ensures var h := Taken(Game(ps, rs, t), a, bigBlind);
      && h.table.round == Flop && h.table.history == Utils.DecimalString(2)
      && h.seats[0].state == NoAction && h.seats[1].state == NoAction
  {
    var g := Game(ps, rs, t);
    assert HistoryShape(ps[0].history) && HistoryShape(ps[1].history);
    var acted := AfterAction(ps, 0, a, bigBlind);
    assert acted[0].state == In && acted[1] == ps[1];
    TwoRemain(acted);
    ActionKeepsCards(ps, 0, a, bigBlind);
    RoundSequence(Preflop);
    var h := Applied(g, a, bigBlind);
    assert h.seats == acted && !FoldEnds(ps, 0, a, bigBlind);
    var qs := ResetAll(RankAll(acted, Flop, t.flop));
    assert RoundEnded(h).seats == qs && RoundEnded(h).table.round == Flop;
    assert qs[0] == ResetSeat(RankedSeat(Flop, acted[0], t.flop));
    assert qs[1] == ResetSeat(RankedSeat(Flop, acted[1], t.flop));
  }

  /** Two seats in the betting count two. */
  lemma TwoRemain(ps: seq<Player>)
    requires |ps| == 2 && ps[0].state == In && ps[1].state == In
    ensures Remaining(ps) == 2 && RoundOver(ps)
  {
    assert ps[..1][..0] == [] && ps[..1][0] == ps[0];
  }

  /** Preflop, a fold by seat 0 ends the hand: seat 1, which is in with the big blind, wins. */
  lemma FoldGivesBigBlind(ps: seq<Player>, rs: seq<int>, d: seq<Card>, smallBlind: int, bigBlind: int, t: Table, a: Action)
    requires DealtSeats(ps, rs, d, smallBlind, bigBlind) && t.currentPlayer == 0 && a.tag == 'p'
    ensures Actionable(Game(ps, rs, t))
    ensures var h := Taken(Game(ps, rs, t), a, bigBlind);
      h.table.winner == 1 && h.seats[0].state == Out && h.seats[1].state == In
  {
    var g := Game(ps, rs, t);
    assert HistoryShape(ps[0].history) && HistoryShape(ps[1].history);
    var acted := AfterAction(ps, 0, a, bigBlind);
    assert acted[0].state == Out && acted[1] == ps[1];
    NotOutOne(acted, 1);
    assert acted[..1][..0] == [] && acted[..1][0] == acted[0];
    assert NotOut(acted) == 1;
  }

  /** A total below 0x10000 fits the uint16_t pot unchanged. */
  lemma SmallPot(total: int)
    requires 0 <= total < 0x1_0000
    ensures total % 0x1_0000 == total
  {
  }

  // ---------------------------------------------------------------- the class

  class Leduc {
    var currentPlayer: int           // m_current_player
    var round: Round                 // m_round
    var winner: int                  // m_winner: -1 while the hand runs
    var history: string              // m_history: the actions of the current round
    const maxReraises: int           // m_max_reraises
    const nPlayers: int              // m_n_players
    const players: array<Player>     // m_players
    const ranks: array<int>          // m_ranks
    const deck: array<Card>          // m_deck
    var cursor: int                  // m_pointer_to_deck
    const bigBlind: int              // m_big_blind
    const smallBlind: int            // m_small_blind
    var pot: int                     // m_pot
    var flop: Card                   // *m_flop
    const actions: seq<Action> := Canonical  // m_actions

    /** The fields of this game that change in play, apart from the seats, the ranks and the deck. */
    ghost function Fields(): Table
      reads this`currentPlayer, this`round, this`winner, this`history, this`pot, this`flop
    {
      Table(currentPlayer, round, winner, history, pot, flop)
    }

    /** The seats, the ranks and the table of this game. */
    ghost function State(): Game
      reads this`currentPlayer, this`round, this`winner, this`history, this`pot, this`flop, players, ranks
    {
      Game(players[..], ranks[..], Fields())
    }

    /** The configuration fixed at construction: the sizes, the blinds and the reraise limit. */
    ghost predicate Config()
    {
      && players.Length == N_PLAYERS && ranks.Length == N_PLAYERS && deck.Length == 6 && nPlayers == N_PLAYERS
      && 0 <= bigBlind < 0x1_0000 && 0 <= smallBlind < 0x1_0000 && 0 <= maxReraises < 0x100
    }

    /** The ranges of the integer fields: a seat to act, a uint16_t pot, no winner (-1) or a seat. */
    ghost predicate Ranges()
      reads this`currentPlayer, this`pot, this`winner
    {
      0 <= currentPlayer < N_PLAYERS && 0 <= pot < 0x1_0000 && -1 <= winner < N_PLAYERS
    }

    /** What every member relies on: the configuration, the six cards, the cursor within them, the ranges and the seats. */
    ghost predicate Valid()
      reads this, players, deck
    {
      Config() && DeckCards(deck[..]) && 0 <= cursor <= 6 && Ranges() && Seated(players[..])
    }

    /** The seats hold the first two cards of the deck and the flop is the third, the cursor after it. */
    ghost predicate SeatsDealt()
      reads this`flop, this`cursor, players, deck
    {
      cursor == 3 && Dealt(players[..], deck[..], flop)
    }

    /** The pot holds what the seats put in, as a uint16_t, and the hand is contested. */
    ghost predicate Betting()
      reads this`pot, players
    {
      pot == Contributions(players[..]) % 0x1_0000 && Contested(players[..])
    }

    /** Every seat carries the rank and the rank string of its card in the current round. */
    ghost predicate Ranked()
      reads this`round, this`flop, players, ranks
    {
      RanksShown(players[..], ranks[..], round, flop)
    }

    /** A hand was dealt (and may be decided), as start_game and take_action leave it. */
    ghost predicate InHand()
      reads this, players, deck
    {
      Valid() && SeatsDealt()
    }

    /**
     * Leduc(big_blind, small_blind, max_reraises): the six cards in their
     * fixed order, nothing drawn, new seats, no winner yet. The fields the
     * source leaves uninitialised (the current seat, the round, the pot, the
     * ranks and the flop) start at 0, PREFLOP, 0, 0 and the default card.
     */
    constructor (bigBlind: int, smallBlind: int, maxReraises: int)
      requires 0 <= bigBlind < 0x1_0000 && 0 <= smallBlind < 0x1_0000 && 0 <= maxReraises < 0x100
      ensures Valid() && fresh(players) && fresh(ranks) && fresh(deck)
      ensures deck[..] == NewDeck() && cursor == 0 && winner == -1 && history == []
      ensures this.bigBlind == bigBlind && this.smallBlind == smallBlind && this.maxReraises == maxReraises
      ensures forall k :: 0 <= k < N_PLAYERS ==> players[k] == NewPlayer()
    {
      nPlayers := 2;
      this.bigBlind := bigBlind;
      this.smallBlind := smallBlind;
      this.maxReraises := maxReraises;
      winner := -1;
      cursor := 0;
      deck := new Card[6](i requires 0 <= i < 6 => NewDeck()[i]);
      players := new Player[N_PLAYERS](_ => NewPlayer());
      ranks := new int[N_PLAYERS](_ => 0);
      history := [];
      currentPlayer, round, pot, flop := 0, Preflop, 0, Cards.Default;
      new;
      assert deck[..] == NewDeck();
      NewDeckCards();
    }

    /** is_running: no winner was decided. */
    predicate IsRunning()
      reads this
    {
      winner < 0
    }

    /**
     * shuffle_cards: the cursor goes back to the first card and the six
     * cards are permuted; the random engine is replaced by the swap choices
     * of a Fisher-Yates pass, swaps[i] <= i picking the partner of slot i
     * from 5 down to 1, the way std::shuffle permutes a random-access range.
     */
    method ShuffleCards(swaps: seq<int>)
      requires deck.Length == 6 && |swaps| == 6 && forall i :: 0 <= i < 6 ==> 0 <= swaps[i] <= i
      modifies this`cursor, deck
      ensures cursor == 0 && multiset(deck[..]) == multiset(old(deck[..]))
    {
      cursor := 0;
      var i := 5;
      while i > 0
        invariant 0 <= i <= 5
        invariant cursor == 0 && multiset(deck[..]) == multiset(old(deck[..]))
      {
        var j := swaps[i];
        deck[i], deck[j] := deck[j], deck[i];
        i := i - 1;
      }
    }

    /** draw_card: the card under the cursor; the cursor moves on. */
    method DrawCard() returns (c: Card)
      requires deck.Length == 6 && 0 <= cursor < 6
      modifies this`cursor
      ensures c == deck[old(cursor)] && cursor == old(cursor) + 1
    {
      c := deck[cursor];
      cursor := cursor + 1;
    }

    /**
     * start_game: shuffle, seat the blinds with one card each, set seat 0
     * to act in the preflop with no winner, rank the seats preflop, put the
     * blinds in the pot and draw the flop card. The shared history is left as
     * it was.
     */
    method StartGame(swaps: seq<int>)
      requires Valid()
      requires |swaps| == 6 && forall i :: 0 <= i < 6 ==> 0 <= swaps[i] <= i
      modifies this, players, ranks, deck
      ensures InHand() && Betting() && Ranked() && IsRunning()
      ensures currentPlayer == 0 && round == Preflop && winner == -1 && history == old(history)
      ensures pot == AddToPot(bigBlind, smallBlind) && flop == deck[2]
      ensures multiset(deck[..]) == multiset(old(deck[..]))
      ensures DealtSeats(players[..], ranks[..], deck[..], smallBlind, bigBlind)
    {
      ghost var old_deck := deck[..];
      ShuffleCards(swaps);
      PermutedDeck(deck[..], old_deck);
      ResetTable();
      SeatAndRank();
      BlindsAndFlop();
      HandDealt();
    }

    /**
     * The seats of start_game: seated with their blinds and one card each,
     * then ranked preflop. The table fields, which preflop ranking does not
     * read, are set before.
     */
    method SeatAndRank()
      requires Config() && cursor == 0
      modifies players, ranks, this`cursor
      ensures cursor == N_PLAYERS
      ensures DealtSeats(players[..], ranks[..], deck[..], smallBlind, bigBlind)
    {
      SeatPlayers();
      ghost var seated := players[..];
      UpdateRanks(players, ranks, Preflop, flop);
      PreflopDealt(seated, players[..], ranks[..], deck[..], smallBlind, bigBlind, flop);
    }

    /** The end of start_game: the blinds make the pot and the flop card is drawn. */
    method BlindsAndFlop()
      requires deck.Length == 6 && 0 <= cursor < 6
      modifies this`pot, this`flop, this`cursor
      ensures cursor == old(cursor) + 1
      ensures Fields() == old(Fields()).(pot := AddToPot(bigBlind, smallBlind), flop := deck[old(cursor)])
    {
      pot := AddToPot(bigBlind, smallBlind);
      flop := DrawCard();
    }

    /** The seating loop of start_game: each seat gets its blind and state, then one card from the deck. */
    method SeatPlayers()
      requires Config() && cursor == 0
      modifies players, this`cursor
      ensures cursor == N_PLAYERS
      ensures forall k :: 0 <= k < N_PLAYERS ==>
        players[k] == BlindSeat(k, smallBlind, bigBlind).(cards := [deck[k], Cards.Default], cardIdx := 1)
    {
      for i := 0 to nPlayers
        invariant cursor == i
        invariant forall k :: 0 <= k < i ==>
          players[k] == BlindSeat(k, smallBlind, bigBlind).(cards := [deck[k], Cards.Default], cardIdx := 1)
      {
        var state := if i < nPlayers - 1 then ToCall else In;
        var bet := if i == 0 then smallBlind else bigBlind;
        var p := SeatedPlayer(state, bet);
        var c := DrawCard();
        p := p.DrawCard(c);
        players[i] := p;
      }
    }

    /** The table fields start_game sets: seat 0 to act, the preflop, no winner yet. */
    method ResetTable()
      modifies this`currentPlayer, this`round, this`winner
      ensures Fields() == old(Fields()).(currentPlayer := 0, round := Preflop, winner := -1)
    {
      currentPlayer := 0;
      round := Preflop;
      winner := -1;
    }

    /** The state start_game leaves is a hand in play, ranked preflop, with the blinds in the pot. */
    lemma HandDealt()
      requires Config() && DeckCards(deck[..]) && cursor == 3
      requires currentPlayer == 0 && round == Preflop && winner == -1 && pot == AddToPot(bigBlind, smallBlind)
      requires flop == deck[2] && DealtSeats(players[..], ranks[..], deck[..], smallBlind, bigBlind)
      ensures InHand() && Betting() && Ranked()
    {
      DealInPlay(players[..], ranks[..], deck[..], smallBlind, bigBlind);
    }

    /**
     * take_action for the current seat: the seat update, then on a fold the
     * check for a premature end, then the action joins the shared history.
     * A hand that did not end early goes on to the end-of-round test. A hand
     * in play stays in play, and ranked for its round.
     */
    method TakeAction(a: Action)
      requires InHand()
      modifies this, players, ranks
      ensures InHand() && Actionable(old(State()))
      ensures State() == Taken(old(State()), a, bigBlind)
      ensures old(Betting()) ==> Betting()
      ensures old(Betting() && Ranked()) ==> Ranked()
    {
      ghost var g := State();
      if Betting() {
        TakenKeepsPlay(g, deck[..], a, bigBlind);
        if Ranked() {
          TakenRanked(g, deck[..], a, bigBlind);
        }
      }
      var finished := ApplyAction(a);
      if finished {
        return;
      }
      EndRound();
    }

    /** The part of take_action up to the push of the action onto the history. */
    method ApplyAction(a: Action) returns (finished: bool)
      requires InHand()
      modifies this`pot, this`winner, this`history, players
      ensures InHand() && Actionable(old(State()))
      ensures State() == Applied(old(State()), a, bigBlind)
      ensures finished == FoldEnds(old(players[..]), old(currentPlayer), a, bigBlind)
    {
      ghost var g := State();
      ghost var ps := players[..];
      var folded := SeatAction(a);
      finished := false;
      if folded {
        finished := PrematureEnd();
      }
      Record(a.tag);
      assert finished == FoldEnds(ps, currentPlayer, a, bigBlind);
    }

    /** The push of an action tag onto the history of the round. */
    method Record(tag: char)
      requires InHand()
      modifies this`history
      ensures InHand() && Fields() == old(Fields()).(history := old(history) + [tag])
    {
      history := history + [tag];
    }

    /** The seat update of take_action for the current seat, and the growth of the pot. */
    method SeatAction(a: Action) returns (folded: bool)
      requires InHand()
      modifies this`pot, players
      ensures InHand()
      ensures players[..] == AfterAction(old(players[..]), currentPlayer, a, bigBlind)
      ensures Fields() == old(Fields()).(pot := AddToPot(old(pot), PotDelta(old(players[..]), currentPlayer, a, bigBlind)))
      ensures folded <==> a.tag == 'p' && old(players[currentPlayer].state) == ToCall
    {
      ActionShape(players[..], currentPlayer, a, bigBlind);
      ActionKeepsCards(players[..], currentPlayer, a, bigBlind);
      var newPot;
      newPot, folded := Act(players, currentPlayer, a, bigBlind, pot);
      pot := newPot;
    }

    /** check_premature_end after a fold: when a single seat has not folded and it is in, it wins. */
    method PrematureEnd() returns (finished: bool)
      requires InHand()
      modifies this`winner
      ensures InHand()
      ensures finished <==> NotOut(players[..]) == 1 && exists k :: 0 <= k < N_PLAYERS && players[k].state == In
      ensures Fields() == old(Fields()).(winner := if finished then Survivor(players[..]) else old(winner))
    {
      var w;
      finished, w := CheckPrematureEnd(players);
      if finished {
        assert w == Survivor(players[..]) by {
          var k := Survivor(players[..]);
          assert players[k].state != Out;
        }
        winner := w;
      }
    }

    /**
     * The end-of-round part of take_action: when nobody has to call and every
     * seat acted, the next round starts; at the reveal the winner is found,
     * otherwise the shared history becomes the count of seats still in the
     * betting, the seats are ranked with the flop card and reset.
     */
    method EndRound()
      requires InHand()
      modifies this`round, this`winner, this`history, players, ranks
      ensures InHand()
      ensures State() == RoundEnded(old(State()))
    {
      var over := IsRoundEnd(players);
      if !over {
        return;
      }
      Advance();
      if round == Reveal {
        Showdown();
      } else {
        NewRound();
      }
    }

    /** next_round applied to the round of the game. */
    method Advance()
      requires InHand()
      modifies this`round
      ensures InHand() && round != Preflop && Fields() == old(Fields()).(round := NextRound(old(round)))
    {
      RoundSequence(round);
      round := NextRound(round);
    }

    /** The reveal: find_winner names the winner. */
    method Showdown()
      requires InHand()
      modifies this`winner
      ensures InHand() && Fields() == old(Fields()).(winner := Winner(players[..], ranks[..]))
    {
      winner := FindWinner(players, ranks);
    }

    /**
     * The start of the flop: the history becomes the count of seats still in
     * the betting, the seats are ranked with the flop card and their states
     * are reset.
     */
    method NewRound()
      requires InHand() && round != Preflop && RoundOver(players[..])
      modifies this`history, players, ranks
      ensures InHand()
      ensures players[..] == ResetAll(RankAll(old(players[..]), round, flop))
      ensures ranks[..] == RanksOf(old(players[..]), round, flop)
      ensures Fields() == old(Fields()).(history := Utils.DecimalString(Remaining(old(players[..]))))
    {
      ghost var ps := players[..];
      var count := CountRemainingPlayers(players);
      history := Utils.DecimalString(count);
      UpdateRanks(players, ranks, round, flop);
      ResetPlayerStates(players);
      assert players[..] == ResetAll(RankAll(ps, round, flop));
      RankedResetShaped(ps, round, flop);
    }

    /**
     * next_player: seat 0 while the shared history is empty (a fresh game),
     * otherwise the first seat after the current one, going round the table,
     * that has neither folded nor gone all in.
     */
    method NextPlayer() returns (next: int)
      requires InHand() && Contested(players[..])
      modifies this`currentPlayer
      ensures InHand() && next == currentPlayer
      ensures old(history) == [] ==> next == 0
      ensures old(history) != [] ==> Active(players[next].state)
      ensures old(history) != [] ==>
        exists d :: (1 <= d <= N_PLAYERS && next == After(old(currentPlayer), d, N_PLAYERS)
                     && forall j :: 1 <= j < d ==> !Active(players[After(old(currentPlayer), j, N_PLAYERS)].state))
    {
      if |history| == 0 {
        currentPlayer := 0;
      } else {
        var w := ContestedHasActive(players[..]);
        assert Active(players[w].state);
        currentPlayer := NextActive(players, currentPlayer);
      }
      next := currentPlayer;
    }

    /** get_reward for seat hero: an error while the hand runs; the pot less the seat's contribution for the winner. */
    function GetReward(hero: int): (r: Result<int>)
      reads this, players
      requires players.Length == N_PLAYERS && 0 <= hero < N_PLAYERS
      ensures r.Failure? <==> IsRunning()
      ensures r.Success? && hero == winner ==> r.value == pot - players[hero].potContribution
      ensures r.Success? && hero != winner ==> r.value == -players[hero].potContribution
    {
      if IsRunning() then Failure("Asking for reward of running game")
      else if winner == hero then Success(pot - players[hero].potContribution)
      else Success(-1 * players[hero].potContribution)
    }

    /** Once a winner is decided, and while the pot did not wrap, the two seats' rewards cancel out. */
    lemma RewardsZeroSum()
      requires players.Length == N_PLAYERS && Betting() && 0 <= winner < N_PLAYERS
      requires 0 <= Contributions(players[..]) < 0x1_0000
      ensures GetReward(0).Success? && GetReward(1).Success?
      ensures GetReward(0).value + GetReward(1).value == 0
    {
      var ps := players[..];
      TwoSeats(ps);
      SmallPot(Contributions(ps));
      assert pot == ps[0].potContribution + ps[1].potContribution;
    }

    /** At the reveal of a hand in play the winner is the seat that is in with the strictly best rank. */
    lemma RevealWinner()
      requires InHand() && Betting() && Ranked() && round == Reveal && RoundOver(players[..])
      ensures var w := Winner(players[..], ranks[..]);
        && 0 <= w < N_PLAYERS && players[w].state == In
        && forall k :: 0 <= k < N_PLAYERS && k != w && players[k].state == In ==> ranks[k] < ranks[w]
    {
      ShowdownWinner(players[..], ranks[..], deck[..], flop, pot);
    }

    /** can_call: the seat has a raise to answer. */
    predicate CanCall(player: int)
      reads this, players
      requires players.Length == N_PLAYERS && 0 <= player < N_PLAYERS
      ensures CanCall(player) <==> players[player].state == ToCall
      ensures CanCall(player) ==> !RoundOver(players[..])
    {
      assert players[..][player] == players[player];
      players[player].state == ToCall
    }

    /**
     * can_raise: the seat is below the reraise limit, and a raise does not
     * undercut the raise that ends the shared history ('x' when it is empty).
     */
    predicate CanRaise(player: int, a: Action)
      reads this, players
      requires players.Length == N_PLAYERS && 0 <= player < N_PLAYERS
      ensures CanRaise(player, a) ==> players[player].nRaises < maxReraises
      ensures |history| == 0 || !IsUpper(a.tag) || !IsUpper(history[|history| - 1]) ==>
        (CanRaise(player, a) <==> players[player].nRaises < maxReraises)
      ensures |history| > 0 && IsUpper(a.tag) && IsUpper(history[|history| - 1]) ==>
        (CanRaise(player, a) <==> players[player].nRaises < maxReraises && a.tag >= history[|history| - 1])
    {
      var b := if |history| > 0 then history[|history| - 1] else 'x';
      players[player].nRaises < maxReraises && !(IsUpper(a.tag) && IsUpper(b) && a.tag < b)
    }

    /** Whether the seat may take the action: a call needs a raise to answer, a raise needs can_raise. */
    predicate Allowed(player: int, a: Action)
      reads this, players
      requires players.Length == N_PLAYERS && 0 <= player < N_PLAYERS
      ensures !IsUpper(a.tag) && a.tag != 'c' ==> Allowed(player, a)
      ensures a.tag == 'c' ==> (Allowed(player, a) <==> CanCall(player))
      ensures IsUpper(a.tag) ==> (Allowed(player, a) <==> CanRaise(player, a))
    {
      !(a.tag == 'c' && !CanCall(player)) && !(IsUpper(a.tag) && !CanRaise(player, a))
    }

    /** The actions among the first n of the action list the seat may take, in list order. */
    function AllowedActions(player: int, n: int): (r: seq<Action>)
      reads this, players
      requires players.Length == N_PLAYERS && 0 <= player < N_PLAYERS && 0 <= n <= |actions|
      ensures forall b :: b in r <==> b in actions[..n] && Allowed(player, b)
    {
      if n == 0 then []
      else
        assert actions[..n] == actions[..n - 1] + [actions[n - 1]];
        AllowedActions(player, n - 1) + (if Allowed(player, actions[n - 1]) then [actions[n - 1]] else [])
    }

    /** get_valid_actions_mask: 1 for every action the seat may take, 0 for the others. */
    method GetValidActionsMask(player: int) returns (mask: seq<int>)
      requires players.Length == N_PLAYERS && 0 <= player < N_PLAYERS
      ensures |mask| == N_ACTIONS
      ensures forall k :: 0 <= k < N_ACTIONS ==> (mask[k] == 1 <==> Allowed(player, actions[k])) && (mask[k] == 0 || mask[k] == 1)
      ensures mask[0] == 1
    {
      mask := [1, 1, 1, 1, 1, 1];
      for i := 0 to N_ACTIONS
        invariant |mask| == N_ACTIONS
        invariant forall k :: 0 <= k < i ==> (mask[k] == 1 <==> Allowed(player, actions[k])) && (mask[k] == 0 || mask[k] == 1)
        invariant forall k :: i <= k < N_ACTIONS ==> mask[k] == 1
      {
        if actions[i].tag == 'c' && !CanCall(player) {
          mask := mask[i := 0];
        }
        if IsUpper(actions[i].tag) && !CanRaise(player, actions[i]) {
          mask := mask[i := 0];
        }
      }
    }

    /** get_valid_actions: the actions the seat may take, in the order of the action list. */
    method GetValidActions(player: int) returns (valid: seq<Action>)
      requires players.Length == N_PLAYERS && 0 <= player < N_PLAYERS
      ensures valid == AllowedActions(player, N_ACTIONS)
      ensures forall k :: 0 <= k < N_ACTIONS ==> (actions[k] in valid <==> Allowed(player, actions[k]))
      ensures actions[0] in valid
    {
      valid := [];
      for i := 0 to N_ACTIONS
        invariant valid == AllowedActions(player, i)
      {
        var a := actions[i];
        if a.tag == 'c' && !CanCall(player) {
          continue;
        }
        if IsUpper(a.tag) && !CanRaise(player, a) {
          continue;
        }
        valid := valid + [a];
      }
      assert actions[..N_ACTIONS] == actions;
    }

    /**
     * create_key: the seat's rank string, its own history up to the current
     * round and the shared history of the current round, padded with spaces
     * to KEY_LENGTH.
     */
    function CreateKey(player: int): (key: string)
      reads this, players
      requires players.Length == N_PLAYERS && 0 <= player < N_PLAYERS
      ensures var p := players[player];
        var body := p.rankStr + p.HistoryWithoutCurrentRound() + history;
        && |key| == (if |body| < KEY_LENGTH then KEY_LENGTH else |body|)
        && key[..|p.rankStr|] == p.rankStr
        && key[|p.rankStr|..|p.rankStr| + |p.HistoryWithoutCurrentRound()|] == p.HistoryWithoutCurrentRound()
        && key[|body| - |history|..|body|] == history
        && forall i :: |body| <= i < |key| ==> key[i] == ' '
    {
      var p := players[player];
      var body := p.rankStr + p.HistoryWithoutCurrentRound() + history;
      var key := Utils.PadString(body, KEY_LENGTH);
      assert key[..|body|] == body;
      assert key[..|p.rankStr|] == body[..|p.rankStr|];
      key
    }

    /** get_player_cards_str: the seat's rank string, that of its card with the board of the current round. */
    function GetPlayerCardsStr(player: int): (s: string)
      reads this, players, ranks
      requires players.Length == N_PLAYERS && 0 <= player < N_PLAYERS
      ensures s == players[player].rankStr
      ensures Ranked() ==> s == RankString(round, players[player].cards[0], flop)
    {
      assert Ranked() ==> players[..][player] == players[player];
      players[player].rankStr
    }
  }

  /** The seats ranked and reset at the start of the flop keep their two card slots and their shapes. */
  lemma RankedResetShaped(ps: seq<Player>, round: Round, flop: Card)
    requires Seated(ps)
    ensures Seated(ResetAll(RankAll(ps, round, flop)))
  {
    var rs := RankAll(ps, round, flop);
    RankAllKeeps(ps, round, flop);
    ResetShaped(rs);
    var qs := ResetAll(rs);
    forall k | 0 <= k < |qs| ensures |qs[k].cards| == 2 {
      assert qs[k].cards == rs[k].cards;
    }
  }
}
