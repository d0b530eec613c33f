/** The deck: a list of cards built in order, shuffled, and drawn from the front. */
module Decks {
  import opened Faults
  import opened Cards

  class Deck {
    var cards: seq<Card>

    /** The private constructor: the 52 cards ValueOf(0), ..., ValueOf(51) in that order. */
    constructor Ordered()
      ensures cards == FullDeck()
    {
      var built := [];
      for i := 0 to 52
        invariant built == FullDeck()[..i]
      {
        var c := ValueOf(i);
        built := built + [c.value];
      }
      cards := built;
    }

    /**
     * createDeck: the ordered deck shuffled three times. Each shuffle's outcome is supplied
     * in `orders`, as any rearrangement of the cards; the result is the last of them.
     */
    static method CreateDeck(orders: seq<seq<Card>>) returns (d: Deck)
      requires |orders| == 3
      requires forall k :: 0 <= k < 3 ==> multiset(orders[k]) == multiset(FullDeck())
      ensures fresh(d)
      ensures d.cards == orders[2]
      ensures multiset(d.cards) == multiset(FullDeck()) && |d.cards| == 52 && Distinct(d.cards)
    {
      d := new Deck.Ordered();
      for k := 0 to 3
        invariant multiset(d.cards) == multiset(FullDeck())
        invariant 0 < k ==> d.cards == orders[k - 1]
      {
        d.ShuffleDeck(orders[k]);
      }
      FullDeckDistinct();
      assert |d.cards| == |multiset(d.cards)| == 52;
    }

    /** removeNext: takes the front card off; remove(0) on an empty list raises. */
    method RemoveNext() returns (r: Result<Card>)
      modifies this
      ensures old(cards) == [] ==> r == Err(EmptyDeck) && cards == []
      ensures old(cards) != [] ==> r == Ok(old(cards)[0]) && cards == old(cards)[1..]
      ensures multiset(old(cards)) == multiset(cards) + (if r.Ok? then multiset{r.value} else multiset{})
    {
      if cards == [] {
        return Err(EmptyDeck);
      }
      r := Ok(cards[0]);
      assert cards == [cards[0]] + cards[1..];
      cards := cards[1..];
    }

    method Empty() returns (b: bool)
      ensures b <==> |cards| == 0
    {
      b := cards == [];
    }

    method DeckSize() returns (n: nat)
      ensures n == |cards|
    {
      n := |cards|;
    }

    /** shuffleDeck: `shuffled` is the arrangement the random shuffle produced. */
    method ShuffleDeck(shuffled: seq<Card>)
      requires multiset(shuffled) == multiset(cards)
      modifies this
      ensures cards == shuffled
      ensures multiset(cards) == old(multiset(cards)) && |cards| == old(|cards|)
    {
      assert |shuffled| == |multiset(shuffled)| == |multiset(cards)| == |cards|;
      cards := shuffled;
    }
  }

  /**
   * Drawing 52 times from a newly created deck yields each of the 52 cards once and empties
   * the deck; the 53rd draw fails.
   */
  method DrawWholeDeck(orders: seq<seq<Card>>) returns (drawn: seq<Card>, extra: Result<Card>)
    requires |orders| == 3
    requires forall k :: 0 <= k < 3 ==> multiset(orders[k]) == multiset(FullDeck())
    ensures multiset(drawn) == multiset(FullDeck()) && |drawn| == 52 && Distinct(drawn)
    ensures extra == Err(EmptyDeck)
  {
    var d := Deck.CreateDeck(orders);
    ghost var original := d.cards;
    drawn := [];
    for i := 0 to 52
      invariant drawn + d.cards == original
      invariant |drawn| == i
    {
      var c := d.RemoveNext();
      drawn := drawn + [c.value];
    }
    assert drawn == original;
    extra := d.RemoveNext();
  }
}
