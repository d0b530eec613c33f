/** A hand of cards: an append-only list with a clear operation, and the raw scoring queries. */
module Hands {
  import opened Cards

  /** Sum of the base values, every ace counted as 1. */
  function RawValue(cards: seq<Card>): int
  {
    if cards == [] then 0 else RawValue(cards[..|cards| - 1]) + cards[|cards| - 1].Value()
  }

  /** Number of aces. */
  function AceCount(cards: seq<Card>): nat
  {
    if cards == [] then 0
    else AceCount(cards[..|cards| - 1]) + (if cards[|cards| - 1].IsAce() then 1 else 0)
  }

  /** Adding a card raises the value by its base value, and the ace count by one exactly for an ace. */
  lemma {:induction false} AddCardScores(cards: seq<Card>, c: Card)
    ensures RawValue(cards + [c]) == RawValue(cards) + c.Value()
    ensures AceCount(cards + [c]) == AceCount(cards) + (if c.IsAce() then 1 else 0)
  {
    assert (cards + [c])[..|cards|] == cards;
  }

  /** Each card is worth at least 1 and each ace exactly 1, so aces <= cards <= raw value. */
  lemma {:induction false} AceCountBounds(cards: seq<Card>)
    ensures AceCount(cards) <= |cards| <= RawValue(cards)
    ensures RawValue(cards) <= 10 * |cards|
  {
    if cards != [] {
      AceCountBounds(cards[..|cards| - 1]);
    }
  }

  /** A hand holds an ace exactly when its ace count is positive. */
  lemma {:induction false} HasAceIffCount(cards: seq<Card>)
    ensures (exists c :: c in cards && c.IsAce()) <==> AceCount(cards) > 0
  {
    if cards != [] {
      var init := cards[..|cards| - 1];
      HasAceIffCount(init);
      assert cards == init + [cards[|cards| - 1]];
      if exists c :: c in init && c.IsAce() {
        var c :| c in init && c.IsAce();
        assert c in cards;
      }
    }
  }

  class Hand {
    var cards: seq<Card>

    /** The public constructor over a given list of cards. */
    constructor (cards: seq<Card>)
      ensures this.cards == cards
    {
      this.cards := cards;
    }

    /** newHand: an empty hand. */
    constructor NewHand()
      ensures cards == []
    {
      cards := [];
    }

    method AddCard(c: Card)
      modifies this
      ensures cards == old(cards) + [c]
    {
      cards := cards + [c];
    }

    /** getHandValue: accumulates the base values in a loop. */
    method GetHandValue() returns (v: int)
      ensures v == RawValue(cards)
    {
      v := 0;
      for i := 0 to |cards|
        invariant v == RawValue(cards[..i])
      {
        assert cards[..i + 1][..i] == cards[..i];
        v := v + cards[i].Value();
      }
      assert cards[..|cards|] == cards;
    }

    /** bust: clears the hand. */
    method Bust()
      modifies this
      ensures cards == []
    {
      cards := [];
    }

    /** hasAce: scans for an ace and stops at the first one. */
    method HasAce() returns (b: bool)
      ensures b <==> exists c :: c in cards && c.IsAce()
    {
      for i := 0 to |cards|
        invariant forall j :: 0 <= j < i ==> !cards[j].IsAce()
      {
        if cards[i].IsAce() {
          return true;
        }
      }
      return false;
    }

    /** countAces: counts the aces in a loop. */
    method CountAces() returns (n: nat)
      ensures n == AceCount(cards)
    {
      n := 0;
      for i := 0 to |cards|
        invariant n == AceCount(cards[..i])
      {
        assert cards[..i + 1][..i] == cards[..i];
        if cards[i].IsAce() {
          n := n + 1;
        }
      }
      assert cards[..|cards|] == cards;
    }

    /** viewFirst: the first card; get(0) needs a card to be there. */
    method ViewFirst() returns (c: Card)
      requires cards != []
      ensures c == cards[0]
    {
      c := cards[0];
    }
  }
}
