/**
 * The per-seat record of the betting games (inc/player.h): the seat's
 * state, what it has put in the pot, its hole cards, its raise counter,
 * its evaluated rank and the history of its own actions, one character per
 * round after a '-' separator.
 *
 * The games keep their seats by value in a fixed-size array and copy them
 * when a game is cloned, so a seat is a value here: each mutator returns the
 * updated record and the games write it back into their seat array.
 */
module Players {
  import opened Cards
  import Ranks

  /** PlayerState. */
  datatype State = NoAction | In | Out | ToCall | AllIn
  {
    /** The enum's ordinal. */
    function Ordinal(): (k: int)
      ensures 0 <= k <= 4
    {
      match this
      case NoAction => 0
      case In => 1
      case Out => 2
      case ToCall => 3
      case AllIn => 4
    }
  }

  /** Distinct states have distinct ordinals. */
  lemma OrdinalInjective(s: State, t: State)
    requires s.Ordinal() == t.Ordinal()
    ensures s == t
  {
  }

  /** The number of '-' separators in a history: the rounds it has been through. */
  function Dashes(s: string): (n: nat)
    ensures n <= |s|
  {
    if s == [] then 0 else Dashes(s[..|s| - 1]) + (if s[|s| - 1] == '-' then 1 else 0)
  }

  /**
   * The shape of every seat history: it starts with '-', and every action
   * character directly follows a '-', so each round holds at most one.
   */
  predicate HistoryShape(h: string)
  {
    |h| >= 1 && h[0] == '-' && forall i, j :: 0 <= i < |h| && i < j < |h| && j == i + 1 && h[j] != '-' ==> h[i] == '-'
  }

  /** std::string::find_last_of: the position of the last c in s, -1 (npos) when there is none. */
  function FindLast(s: string, c: char): (r: int)
    ensures -1 <= r < |s|
    ensures r >= 0 ==> s[r] == c
    ensures forall i :: r < i < |s| ==> s[i] != c
  {
    if s == [] then -1
    else if s[|s| - 1] == c then |s| - 1
    else FindLast(s[..|s| - 1], c)
  }

  /** How many of the cards carry value character v and suit character s. */
  function CountFace(cards: seq<Card>, v: char, s: char): (n: nat)
    ensures n <= |cards|
  {
    if cards == [] then 0
    else
      var last := cards[|cards| - 1];
      CountFace(cards[..|cards| - 1], v, s) + (if last.valueChar == v && last.suitChar == s then 1 else 0)
  }

  datatype Player = Player(
    state: State,            // m_state
    potContribution: int,    // m_pot_contribution
    rankStr: string,         // m_rank_str
    cards: seq<Card>,        // m_cards: two slots
    nRaises: int,            // m_n_raises
    cardIdx: int,            // m_card_idx
    rank: Ranks.Rank,        // m_rank
    history: string)         // m_history
  {
    /** get_last_action: the last character of the history. */
    function LastAction(): (c: char)
      requires history != []
      ensures c in history
    {
      history[|history| - 1]
    }

    /**
     * new_action(a): a becomes the action of the current round. It is
     * appended after a '-' and otherwise replaces the round's earlier
     * action; nothing else about the seat changes.
     */
    function NewAction(a: char): (p: Player)
      requires history != []
      ensures p == this.(history := p.history)
      ensures p.history != [] && p.LastAction() == a
      ensures |p.history| == |history| + (if LastAction() == '-' then 1 else 0)
      ensures p.history[..|history| - 1] == history[..|history| - 1]
      ensures a != '-' ==> Dashes(p.history) == Dashes(history)
    {
      var h := if history[|history| - 1] == '-' then history + [a] else history[..|history| - 1] + [a];
      assert h[..|h| - 1][..|history| - 1] == history[..|history| - 1];
      assert history == history[..|history| - 1] + [history[|history| - 1]];
      assert h[..|h| - 1] == (if history[|history| - 1] == '-' then history else history[..|history| - 1]);
      assert history[|history| - 1] != '-' ==> Dashes(history) == Dashes(history[..|history| - 1]);
      this.(history := h)
    }

    /** reset_action: a new round starts, its '-' is appended and nothing else changes. */
    function ResetAction(): (p: Player)
      ensures p == this.(history := p.history)
      ensures |p.history| == |history| + 1 && p.history[..|history|] == history
      ensures p.LastAction() == '-' && Dashes(p.history) == Dashes(history) + 1
    {
      var h := history + "-";
      assert h[..|h| - 1] == history;
      this.(history := h)
    }

    /** reset_counters: the raise counter is 0 again; nothing else changes. */
    function ResetCounters(): (p: Player)
      ensures p.nRaises == 0 && p == this.(nRaises := 0)
    {
      this.(nRaises := 0)
    }

    /** increase_raise_counter: one more raise this round; nothing else changes. */
    function IncreaseRaiseCounter(): (p: Player)
      ensures p.nRaises == nRaises + 1 && p == this.(nRaises := p.nRaises)
    {
      this.(nRaises := nRaises + 1)
    }

    /** draw_card: the card goes into the next free slot and the slot index moves on. */
    function DrawCard(c: Card): (p: Player)
      requires 0 <= cardIdx < |cards|
      ensures p.cardIdx == cardIdx + 1 && |p.cards| == |cards|
      ensures p.cards[cardIdx] == c && forall k :: 0 <= k < |cards| && k != cardIdx ==> p.cards[k] == cards[k]
      ensures p == this.(cards := p.cards, cardIdx := p.cardIdx)
    {
      this.(cards := cards[cardIdx := c], cardIdx := cardIdx + 1)
    }

    /**
     * get_history_without_current_round: the history up to and including
     * its last '-', empty when it has none.
     */
    function HistoryWithoutCurrentRound(): (s: string)
      ensures |s| <= |history| && s == history[..|s|]
      ensures '-' in history <==> s != []
      ensures s != [] ==> s[|s| - 1] == '-'
      ensures '-' !in history[|s|..]
    {
      var k := FindLast(history, '-');
      assert forall i :: k + 1 <= i < |history| ==> history[i] != '-';
      history[..k + 1]
    }

    /** count_cards(Card*): the hole cards equal to card, equality of cards being equality of rank. */
    function CountCardsLike(card: Card): (n: int)
      requires |cards| == 2
      ensures n == CountRank(cards, card.rank) && 0 <= n <= 2
    {
      assert cards[..1][..0] == [] && cards[..1] == [cards[0]];
      (if cards[0].rank == card.rank then 1 else 0) + (if cards[1].rank == card.rank then 1 else 0)
    }

    /** count_cards(char): the hole cards with value character v. */
    function CountCardsOfValue(v: char): (n: int)
      requires |cards| == 2
      ensures n == CountValue(cards, v) && 0 <= n <= 2
    {
      assert cards[..1][..0] == [] && cards[..1] == [cards[0]];
      (if cards[0].valueChar == v then 1 else 0) + (if cards[1].valueChar == v then 1 else 0)
    }

    /** count_cards(char, char): the hole cards with value character v and suit character s. */
    function CountCardsOfFace(v: char, s: char): (n: int)
      requires |cards| == 2
      ensures n == CountFace(cards, v, s) && 0 <= n <= CountCardsOfValue(v)
    {
      assert cards[..1][..0] == [] && cards[..1] == [cards[0]];
      (if cards[0].valueChar == v && cards[0].suitChar == s then 1 else 0)
        + (if cards[1].valueChar == v && cards[1].suitChar == s then 1 else 0)
    }
  }

  /** The two empty card slots of a new seat. */
  const NoCards: seq<Card> := [Cards.Default, Cards.Default]

  /** Player(): no action yet, nothing in the pot, no cards, history "-". */
  function NewPlayer(): (p: Player)
    ensures p.state == NoAction && p.potContribution == 0 && p.nRaises == 0 && p.cardIdx == 0
    ensures p.history == "-" && HistoryShape(p.history) && p.cards == NoCards
  {
    Player(NoAction, 0, "", NoCards, 0, 0, Ranks.Default, "-")
  }

  /** Player(state, blind): a seat that posted blind, in the given state, otherwise new. */
  function SeatedPlayer(state: State, blind: int): (p: Player)
    ensures p == NewPlayer().(state := state, potContribution := blind)
    ensures p.history == "-" && p.nRaises == 0 && p.cardIdx == 0 && p.cards == NoCards
  {
    Player(state, blind, "", NoCards, 0, 0, Ranks.Default, "-")
  }

  /** new_action keeps the history shape for any action character. */
  lemma NewActionKeepsShape(p: Player, a: char)
    requires HistoryShape(p.history) && a != '-'
    ensures HistoryShape(p.NewAction(a).history)
  {
    var h, g := p.history, p.NewAction(a).history;
    var pre := if h[|h| - 1] == '-' then h else h[..|h| - 1];
    assert g == pre + [a];
    assert pre != [] && pre[|pre| - 1] == '-';
    forall i, j | 0 <= i < j < |g| && j == i + 1 && g[j] != '-' ensures g[i] == '-' {
      if j < |pre| {
        assert g[i] == h[i] && g[j] == h[j];
      }
    }
  }

  /** reset_action keeps the history shape. */
  lemma ResetActionKeepsShape(p: Player)
    requires HistoryShape(p.history)
    ensures HistoryShape(p.ResetAction().history)
  {
    var h, g := p.history, p.ResetAction().history;
    forall i, j | 0 <= i < j < |g| && j == i + 1 && g[j] != '-' ensures g[i] == '-' {
      assert g[i] == h[i] && g[j] == h[j];
    }
  }

  /** The history without the current round ends at the last '-'. */
  lemma PastRoundsEndAt(p: Player, n: int)
    requires 0 < n <= |p.history| && p.history[n - 1] == '-'
    requires forall i :: n <= i < |p.history| ==> p.history[i] != '-'
    ensures p.HistoryWithoutCurrentRound() == p.history[..n]
  {
  }

  /**
   * The key prefix does not see the current round: whatever the seat does
   * in this round, its history without the current round stays the same.
   */
  lemma NewActionKeepsPastRounds(p: Player, a: char)
    requires HistoryShape(p.history) && a != '-'
    ensures p.NewAction(a).HistoryWithoutCurrentRound() == p.HistoryWithoutCurrentRound()
  {
    var h, q := p.history, p.NewAction(a);
    var n := if h[|h| - 1] == '-' then |h| else |h| - 1;
    assert q.history == h[..n] + [a];
    PastRoundsEndAt(p, n);
    PastRoundsEndAt(q, n);
  }

  /** After reset_action the whole history belongs to past rounds. */
  lemma ResetActionClosesRound(p: Player)
    ensures p.ResetAction().HistoryWithoutCurrentRound() == p.ResetAction().history
  {
    var q := p.ResetAction();
    PastRoundsEndAt(q, |q.history|);
  }
}
