/**
 * The 52-card deck (inc/deck.h, src/deck.cpp): an array of cards in code
 * order, a cursor to the next card to deal, and a shuffle that permutes the
 * array and rewinds the cursor.
 */
module Decks {
  import opened Cards

  /** The deck as the constructor lays it out: slot i holds the card of code i. */
  ghost function FreshDeck(): (d: seq<Card>)
    ensures |d| == 52
    ensures forall i :: 0 <= i < 52 ==> d[i] == FromCode(i)
  {
    seq(52, i requires 0 <= i < 52 => FromCode(i))
  }

  /** No card occurs twice in s. */
  ghost predicate Distinct(s: seq<Card>)
  {
    forall i, j :: 0 <= i < j < |s| ==> s[i] != s[j]
  }

  /** In a sequence without repeats every element has multiplicity one. */
  lemma {:induction false} DistinctMultiplicity(s: seq<Card>, c: Card)
    requires Distinct(s)
    ensures multiset(s)[c] <= 1
  {
    if |s| > 0 {
      assert s == [s[0]] + s[1..];
      assert Distinct(s[1..]) by {
        forall i, j | 0 <= i < j < |s[1..]| ensures s[1..][i] != s[1..][j] {
          assert s[1..][i] == s[i + 1] && s[1..][j] == s[j + 1];
        }
      }
      DistinctMultiplicity(s[1..], c);
      if s[0] == c {
        assert c !in s[1..] by {
          forall k | 0 <= k < |s[1..]| ensures s[1..][k] != c {
            assert s[1..][k] == s[k + 1];
          }
        }
      }
    }
  }

  /** An element found at two positions has multiplicity at least two. */
  lemma TwoOccurrences(s: seq<Card>, i: int, j: int)
    requires 0 <= i < j < |s| && s[i] == s[j]
    ensures multiset(s)[s[i]] >= 2
  {
    var rest := s[..i] + s[i + 1..];
    assert s == s[..i] + [s[i]] + s[i + 1..];
    assert multiset(s) == multiset(rest) + multiset{s[i]};
    assert rest[j - 1] == s[i];
  }

  /** A sequence with the multiset of a repeat-free one has no repeats either. */
  lemma DistinctByMultiset(s: seq<Card>, t: seq<Card>)
    requires Distinct(t) && multiset(s) == multiset(t)
    ensures Distinct(s)
  {
    forall i, j | 0 <= i < j < |s| ensures s[i] != s[j] {
      if s[i] == s[j] {
        TwoOccurrences(s, i, j);
        DistinctMultiplicity(t, s[i]);
        assert false;
      }
    }
  }

  lemma FreshDeckDistinct()
    ensures Distinct(FreshDeck())
  {
    var d := FreshDeck();
    forall i, j | 0 <= i < j < 52 ensures d[i] != d[j] {
      assert d[i].code == i && d[j].code == j;
    }
  }

  class Deck {
    var cards: array<Card>   // m_cards
    var cursor: int          // m_pointer_to_deck

    /** The array holds the 52 cards in some order and the cursor is within it. */
    ghost predicate Valid()
      reads this, cards
    {
      cards.Length == 52 && 0 <= cursor <= 52 && multiset(cards[..]) == multiset(FreshDeck())
    }

    /** Deck(): the cards in code order, nothing dealt. */
    constructor ()
      ensures Valid() && fresh(cards)
      ensures cards[..] == FreshDeck() && cursor == 0
    {
      var a := new Card[52](i => Default);
      var i := 0;
      while i < 52
        invariant 0 <= i <= 52
        invariant forall k :: 0 <= k < i ==> a[k] == FromCode(k)
      {
        a[i] := FromCode(i);
        i := i + 1;
      }
      assert a[..] == FreshDeck();
      cards := a;
      cursor := 0;
    }

    /**
     * shuffle(): the random engine is replaced by the swap choices of a
     * Fisher-Yates pass, swaps[i] <= i picking the partner of slot i from
     * 51 down to 1, the way std::shuffle permutes a random-access range.
     */
    method Shuffle(swaps: seq<int>)
      requires Valid()
      requires |swaps| == 52 && forall i :: 0 <= i < 52 ==> 0 <= swaps[i] <= i
      modifies this, cards
      ensures Valid() && cards == old(cards) && cursor == 0
      ensures multiset(cards[..]) == multiset(old(cards[..]))
    {
      var i := 51;
      while i > 0
        invariant 0 <= i <= 51 && cards == old(cards)
        invariant multiset(cards[..]) == multiset(old(cards[..]))
      {
        var j := swaps[i];
        cards[i], cards[j] := cards[j], cards[i];
        i := i - 1;
      }
      cursor := 0;
    }

    /** draw(): the card under the cursor; the cursor moves on. */
    method Draw() returns (c: Card)
      requires Valid() && cursor < 52
      modifies this
      ensures Valid() && cards == old(cards)
      ensures c == cards[old(cursor)] && cursor == old(cursor) + 1
    {
      c := cards[cursor];
      cursor := cursor + 1;
    }

    /** draw(idx): the card in slot idx; the cursor does not move. */
    function DrawAt(idx: int): (c: Card)
      reads this, cards
      requires Valid() && 0 <= idx < 52
      ensures c in multiset(FreshDeck())
    {
      assert cards[..][idx] == cards[idx];
      cards[idx]
    }

    /** Every slot holds a real card and no two slots hold the same card. */
    lemma DistinctSlots()
      requires Valid()
      ensures forall i :: 0 <= i < 52 ==> Cards.Valid(cards[i])
      ensures forall i, j :: 0 <= i < j < 52 ==> cards[i] != cards[j]
    {
      FreshDeckDistinct();
      DistinctByMultiset(cards[..], FreshDeck());
      forall i | 0 <= i < 52 ensures Cards.Valid(cards[i]) {
        assert cards[..][i] == cards[i];
        assert cards[i] in multiset(FreshDeck());
        var k :| 0 <= k < 52 && FreshDeck()[k] == cards[i];
      }
      forall i, j | 0 <= i < j < 52 ensures cards[i] != cards[j] {
        assert cards[..][i] == cards[i] && cards[..][j] == cards[j];
      }
    }
  }
}
