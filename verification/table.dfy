/**
 * The actors and the table. Player, Dealer and Table refer to one another (the player draws
 * through its dealer and stakes through its table; the dealer deals to its player), so the
 * three classes share this module. Each state-changing method states the new state outright;
 * the turns and the round are proved to compute the functions of the Rules module.
 */
module Blackjack {
  import opened Faults
  import opened Cards
  import opened Decks
  import opened Hands
  import Rules

  class Player {
    var dealer: Dealer?
    const hand: Hand
    /** The bankroll. */
    var pot: int
    var table: Table?

    /** joinGame */
    constructor JoinGame(hand: Hand, pot: int)
      ensures this.hand == hand && this.pot == pot && dealer == null && table == null
    {
      this.hand := hand;
      this.pot := pot;
      dealer := null;
      table := null;
    }

    method SitAtTable(table: Table)
      modifies this`table
      ensures this.table == table
    {
      this.table := table;
    }

    method SetDealer(dealer: Dealer)
      modifies this`dealer
      ensures this.dealer == dealer
    {
      this.dealer := dealer;
    }

    /** placeBet: the table's stake becomes the bet, capped at the bankroll. */
    method PlaceBet(bet: int)
      requires table != null
      modifies table`pot
      ensures table.pot == if bet > pot then pot else bet
    {
      var stake := bet;
      if stake > pot {
        stake := pot;
      }
      table.SetPot(stake);
    }

    /** won: three times the stake for a blackjack, twice otherwise; the stake is cleared. */
    method Won(blackJack: bool)
      requires table != null
      modifies this`pot, table`pot
      ensures pot == old(pot) + (if blackJack then 3 else 2) * old(table.pot)
      ensures table.pot == 0
    {
      var tablePot := table.GetPot();
      if blackJack {
        pot := pot + 3 * tablePot;
      } else {
        pot := pot + 2 * tablePot;
      }
      table.SetPot(0);
    }

    /** lost: the stake comes off the bankroll and is cleared. */
    method Lost()
      requires table != null
      modifies this`pot, table`pot
      ensures pot == old(pot) - old(table.pot)
      ensures table.pot == 0
    {
      var tablePot := table.GetPot();
      pot := pot - tablePot;
      table.SetPot(0);
    }

    /** push: the stake is cleared, the bankroll kept. */
    method Push()
      requires table != null
      modifies table`pot
      ensures table.pot == 0
    {
      table.SetPot(0);
    }

    /** hit: the dealer's next card goes to the end of this hand. */
    method Hit() returns (r: Result<Card>)
      requires dealer != null
      modifies hand, dealer.deck
      ensures old(dealer.deck.cards) == [] ==>
        r == Err(EmptyDeck) && hand.cards == old(hand.cards) && dealer.deck.cards == []
      ensures old(dealer.deck.cards) != [] ==>
        && r == Ok(old(dealer.deck.cards)[0])
        && hand.cards == old(hand.cards) + [r.value]
        && dealer.deck.cards == old(dealer.deck.cards)[1..]
    {
      r := dealer.DealNext();
      if r.Ok? {
        hand.AddCard(r.value);
      }
    }

    /** refreshPot: the bankroll is reset to 500. */
    method RefreshPot()
      modifies this`pot
      ensures pot == 500
    {
      pot := 500;
    }

    /** A player owns no deck: asking it for a card always fails. */
    method DealNext() returns (r: Result<Card>)
      ensures r == Err(Unsupported)
    {
      r := Err(Unsupported);
    }
  }

  class Dealer {
    var player: Player?
    const hand: Hand
    var deck: Deck

    /** startGame */
    constructor StartGame(hand: Hand, deck: Deck)
      ensures this.hand == hand && this.deck == deck && player == null
    {
      this.hand := hand;
      this.deck := deck;
      player := null;
    }

    method SetPlayer(player: Player)
      modifies this`player
      ensures this.player == player
    {
      this.player := player;
    }

    /** dealNext: the front card of the deck. */
    method DealNext() returns (r: Result<Card>)
      modifies deck
      ensures old(deck.cards) == [] ==> r == Err(EmptyDeck) && deck.cards == []
      ensures old(deck.cards) != [] ==> r == Ok(old(deck.cards)[0]) && deck.cards == old(deck.cards)[1..]
    {
      r := deck.RemoveNext();
    }

    /** hit: the next card of the deck goes to the end of the dealer's hand and is returned. */
    method Hit() returns (r: Result<Card>)
      modifies hand, deck
      ensures old(deck.cards) == [] ==> r == Err(EmptyDeck) && hand.cards == old(hand.cards) && deck.cards == []
      ensures old(deck.cards) != [] ==>
        && r == Ok(old(deck.cards)[0])
        && hand.cards == old(hand.cards) + [r.value]
        && deck.cards == old(deck.cards)[1..]
    {
      r := DealNext();
      if r.Ok? {
        hand.AddCard(r.value);
      }
    }

    /** newDeck: a fresh shuffled deck replaces the current one only when it is empty. */
    method NewDeck(orders: seq<seq<Card>>)
      requires |orders| == 3
      requires forall k :: 0 <= k < 3 ==> multiset(orders[k]) == multiset(FullDeck())
      modifies this`deck
      ensures old(deck.cards) == [] ==>
        fresh(deck) && deck.cards == orders[2] && multiset(deck.cards) == multiset(FullDeck())
      ensures old(deck.cards) != [] ==> deck == old(deck)
    {
      var empty := deck.Empty();
      if empty {
        deck := Deck.CreateDeck(orders);
      }
    }

    /** deal: twice, a card to the dealer and then one to the player. */
    method Deal() returns (r: Result<()>)
      requires player != null && player.dealer == this && player.hand != hand
      modifies hand, deck, player.hand
      ensures Rules.Dealt(r, Rules.Board(hand.cards, player.hand.cards, deck.cards))
           == Rules.Deal(Rules.Board(old(hand.cards), old(player.hand.cards), old(deck.cards)))
    {
      for i := 0 to 2
        invariant Rules.DealFrom(Rules.Board(hand.cards, player.hand.cards, deck.cards), 2 * i)
               == Rules.Deal(Rules.Board(old(hand.cards), old(player.hand.cards), old(deck.cards)))
      {
        var c := Hit();
        if c.Err? {
          return Err(EmptyDeck);
        }
        c := player.Hit();
        if c.Err? {
          return Err(EmptyDeck);
        }
      }
      return Ok(());
    }

    /** displayPlayerView: the dealer's first card, the one the player may see. */
    method DisplayPlayerView() returns (c: Card)
      requires hand.cards != []
      ensures c == hand.cards[0]
    {
      c := hand.ViewFirst();
    }
  }

  class Table {
    const player: Player
    const dealer: Dealer
    /** The stake of the current round. */
    var pot: int

    /** The links createTable sets up, and two distinct hands. */
    ghost predicate Valid()
      reads this, player, dealer
    {
      && player.table == this && player.dealer == dealer && dealer.player == player
      && player.hand != dealer.hand
    }

    /** The table as a value: both hands, the deck, the stake and the bankroll. */
    ghost function Snapshot(): Rules.State
      reads this, player, dealer, player.hand, dealer.hand, dealer.deck
    {
      Rules.State(Rules.Board(dealer.hand.cards, player.hand.cards, dealer.deck.cards), pot, player.pot)
    }

    /** createTable: a dealer with an empty hand and a new deck, linked to the player. */
    constructor CreateTable(player: Player, orders: seq<seq<Card>>)
      requires |orders| == 3
      requires forall k :: 0 <= k < 3 ==> multiset(orders[k]) == multiset(FullDeck())
      modifies player
      ensures this.player == player && Valid()
      ensures fresh(dealer) && fresh(dealer.hand) && fresh(dealer.deck)
      ensures Snapshot() == Rules.State(Rules.Board([], old(player.hand.cards), orders[2]), 0, old(player.pot))
    {
      var dealerHand := new Hand.NewHand();
      var deck := Deck.CreateDeck(orders);
      var d := new Dealer.StartGame(dealerHand, deck);
      d.SetPlayer(player);
      player.SetDealer(d);
      this.player := player;
      this.dealer := d;
      pot := 0;
      new;
      player.SitAtTable(this);
    }

    /** newTable: a player with an empty hand and a bankroll of 500 at a new table. */
    static method NewTable(orders: seq<seq<Card>>) returns (t: Table)
      requires |orders| == 3
      requires forall k :: 0 <= k < 3 ==> multiset(orders[k]) == multiset(FullDeck())
      ensures fresh(t) && fresh(t.player) && fresh(t.player.hand) && t.Valid()
      ensures t.Snapshot() == Rules.State(Rules.Board([], [], orders[2]), 0, 500)
    {
      var playerHand := new Hand.NewHand();
      var p := new Player.JoinGame(playerHand, 500);
      t := new Table.CreateTable(p, orders);
    }

    method SetPot(pot: int)
      modifies this`pot
      ensures this.pot == pot
    {
      this.pot := pot;
    }

    method GetPot() returns (p: int)
      ensures p == pot
    {
      p := pot;
    }

    /**
     * The scoring both turns do: the raw value, then, if the hand has an ace, one pass per ace
     * adding 10 whenever the total stays at most 21.
     */
    method HandScore(h: Hand) returns (v: int)
      ensures v == Rules.Soft(h.cards)
    {
      v := h.GetHandValue();
      ghost var raw := v;
      var hasAce := h.HasAce();
      HasAceIffCount(h.cards);
      if hasAce {
        var n := h.CountAces();
        for i := 0 to n
          invariant v == Rules.Promote(raw, i)
        {
          if v + 10 <= 21 {
            v := v + 10;
          }
        }
      }
      Rules.PromoteIsSoft(h.cards);
    }

    /**
     * playerTurn: score the hand; past 21 the player has lost and the turn yields -1; else read
     * the next move: HIT draws and repeats, STAND yields the score, DOUBLE just repeats.
     */
    method PlayerTurn(moves: seq<Rules.Move>) returns (r: Result<int>, next: nat)
      requires Valid()
      modifies this`pot, player`pot, player.hand, dealer.deck
      ensures Valid()
      ensures Rules.Turn(r, next, Snapshot()) == Rules.PlayerTurn(old(Snapshot()), moves, 0)
    {
      next := 0;
      while true
        invariant next <= |moves|
        invariant Rules.PlayerTurn(Snapshot(), moves, next) == Rules.PlayerTurn(old(Snapshot()), moves, 0)
        decreases |moves| - next
      {
        var handValue := HandScore(player.hand);
        if handValue > 21 {
          player.Lost();
          return Ok(-1), next;
        }
        if next == |moves| {
          return Err(NoInput), next;
        }
        var move := moves[next];
        next := next + 1;
        match move
        case Hit =>
          var c := player.Hit();
          if c.Err? {
            return Err(EmptyDeck), next;
          }
        case Stand =>
          return Ok(handValue), next;
        case Double =>
      }
    }

    /**
     * dealerTurn: score the hand; past 21 the player has won and the turn yields -1; a raw value
     * over 17 stands on it; otherwise hit, and once the raw value is over 17 yield the score
     * taken before the hit.
     */
    method DealerTurn() returns (r: Result<int>)
      requires Valid()
      modifies this`pot, player`pot, dealer.hand, dealer.deck
      ensures Valid()
      ensures Rules.Outcome(r, Snapshot()) == Rules.DealerTurn(old(Snapshot()))
    {
      while true
        invariant Rules.DealerTurn(Snapshot()) == Rules.DealerTurn(old(Snapshot()))
        decreases |dealer.deck.cards|
      {
        var handValue := HandScore(dealer.hand);
        if handValue > 21 {
          player.Won(false);
          return Ok(-1);
        }
        var raw := dealer.hand.GetHandValue();
        if raw > 17 {
          return Ok(raw);
        }
        var c := dealer.Hit();
        if c.Err? {
          return Err(EmptyDeck);
        }
        raw := dealer.hand.GetHandValue();
        if raw > 17 {
          return Ok(handValue);
        }
      }
    }

    /**
     * playHand: stake the bet, clear both hands, deal, settle naturals, else play both turns
     * and compare. The result says how the round was settled, or which fault ended it.
     */
    method PlayHand(bet: int, moves: seq<Rules.Move>) returns (r: Result<Rules.Settlement>)
      requires Valid()
      modifies this`pot, player`pot, player.hand, dealer.hand, dealer.deck
      ensures Valid()
      ensures Rules.Outcome(r, Snapshot()) == Rules.Round(old(Snapshot()), bet, moves)
    {
      player.PlaceBet(bet);
      player.hand.Bust();
      dealer.hand.Bust();
      var dealt := dealer.Deal();
      if dealt.Err? {
        return Err(dealt.fault);
      }
      assert Rules.Round(old(Snapshot()), bet, moves) == Rules.Resolve(Snapshot(), moves);
      r := SettleRound(moves);
    }

    /** The part of playHand after the deal: naturals first, else both turns. */
    method SettleRound(moves: seq<Rules.Move>) returns (r: Result<Rules.Settlement>)
      requires Valid()
      modifies this`pot, player`pot, player.hand, dealer.hand, dealer.deck
      ensures Valid()
      ensures Rules.Outcome(r, Snapshot()) == Rules.Resolve(old(Snapshot()), moves)
    {
      var playerHand := player.hand.GetHandValue();
      var dealerHand := dealer.hand.GetHandValue();
      var playerAce := player.hand.HasAce();
      var dealerAce := dealer.hand.HasAce();
      HasAceIffCount(player.hand.cards);
      HasAceIffCount(dealer.hand.cards);
      if playerAce && dealerAce {
        if playerHand == 11 && dealerHand == 11 {
          player.Push();
          return Ok(Rules.Pushed);
        } else if playerHand == 11 {
          player.Won(true);
          return Ok(Rules.PlayerWon(true));
        } else if dealerHand == 11 {
          player.Lost();
          return Ok(Rules.PlayerLost);
        }
      }
      if playerAce && playerHand == 11 {
        player.Won(true);
        return Ok(Rules.PlayerWon(true));
      }
      if dealerAce && dealerHand == 11 {
        player.Lost();
        return Ok(Rules.PlayerLost);
      }
      r := Contest(moves);
    }

    /** Both turns and the comparison, once neither hand is a natural. */
    method Contest(moves: seq<Rules.Move>) returns (r: Result<Rules.Settlement>)
      requires Valid()
      modifies this`pot, player`pot, player.hand, dealer.hand, dealer.deck
      ensures Valid()
      ensures Rules.Outcome(r, Snapshot()) == Rules.Contest(Rules.PlayerTurn(old(Snapshot()), moves, 0))
    {
      var playerResult, _ := PlayerTurn(moves);
      if playerResult.Err? {
        return Err(playerResult.fault);
      }
      if playerResult.value == -1 {
        player.Lost();
        return Ok(Rules.PlayerLost);
      }
      var dealerResult := DealerTurn();
      if dealerResult.Err? {
        return Err(dealerResult.fault);
      }
      if dealerResult.value == -1 {
        player.Won(false);
        return Ok(Rules.PlayerWon(false));
      }
      if dealerResult.value > playerResult.value {
        player.Lost();
        return Ok(Rules.PlayerLost);
      } else if dealerResult.value < playerResult.value {
        player.Won(false);
        return Ok(Rules.PlayerWon(false));
      } else {
        player.Push();
        return Ok(Rules.Pushed);
      }
    }
  }
}
