/**
 * The rules of one round, on values: where the cards are, the table stake and the bankroll,
 * and how the deal, the two turns and the settlement change them. The classes of the
 * Blackjack module are proved to compute exactly these functions.
 */
module Rules {
  import opened Faults
  import opened Cards
  import opened Hands

  /** A player's answer to "Hit / Stand". DOUBLE is read but has no branch of its own. */
  datatype Move = Hit | Stand | Double

  /** The dealer's hand, the player's hand and the deck. */
  datatype Board = Board(dealer: seq<Card>, player: seq<Card>, deck: seq<Card>)

  /** The cards, the table's stake (Table.pot) and the player's bankroll (Player.pot). */
  datatype State = State(board: Board, stake: int, bankroll: int)

  /** All cards on the table, wherever they lie. */
  function Pool(b: Board): multiset<Card>
  {
    multiset(b.dealer) + multiset(b.player) + multiset(b.deck)
  }

  // ---------------------------------------------------------------- scoring

  /** The running total after `aces` passes of the promotion loop: add 10 when it stays <= 21. */
  function Promote(raw: int, aces: nat): int
  {
    if aces == 0 then raw
    else
      var v := Promote(raw, aces - 1);
      if v + 10 <= 21 then v + 10 else v
  }

  /** The soft value: one ace counted as 11 when that does not pass 21. */
  function Soft(cards: seq<Card>): (v: int)
    ensures v == RawValue(cards) || v == RawValue(cards) + 10
    ensures v > 21 <==> RawValue(cards) > 21
  {
    var raw := RawValue(cards);
    if AceCount(cards) > 0 && raw <= 11 then raw + 10 else raw
  }

  /** With at least one point per ace, the greedy loop promotes at most one ace. */
  lemma {:induction false} PromoteAtMostOnce(raw: int, aces: nat)
    requires aces <= raw
    ensures Promote(raw, aces) == if aces > 0 && raw <= 11 then raw + 10 else raw
  {
    if aces > 0 {
      PromoteAtMostOnce(raw, aces - 1);
    }
  }

  /** The promotion loop run over a hand's aces computes its soft value. */
  lemma {:induction false} PromoteIsSoft(cards: seq<Card>)
    ensures Promote(RawValue(cards), AceCount(cards)) == Soft(cards)
    ensures 0 <= Soft(cards)
  {
    AceCountBounds(cards);
    PromoteAtMostOnce(RawValue(cards), AceCount(cards));
  }

  /** A natural: the hand holds an ace and its raw value is 11. */
  predicate Natural(cards: seq<Card>)
  {
    AceCount(cards) > 0 && RawValue(cards) == 11
  }

  /** Two cards make a natural exactly when one is an ace and the other is worth 10. */
  lemma {:induction false} NaturalPair(c: Card, d: Card)
    ensures Natural([c, d]) <==> (c.IsAce() && d.Value() == 10) || (d.IsAce() && c.Value() == 10)
    ensures Natural([c, d]) ==> Soft([c, d]) == 21
  {
    AddCardScores([c], d);
    AddCardScores([], c);
    assert [c] + [d] == [c, d];
    assert [] + [c] == [c];
  }

  // ---------------------------------------------------------------- drawing and dealing

  /** The player takes the deck's front card. */
  function PlayerDraw(b: Board): Board
    requires b.deck != []
  {
    b.(player := b.player + [b.deck[0]], deck := b.deck[1..])
  }

  /** The dealer takes the deck's front card. */
  function DealerDraw(b: Board): Board
    requires b.deck != []
  {
    b.(dealer := b.dealer + [b.deck[0]], deck := b.deck[1..])
  }

  lemma {:induction false} DrawConserves(b: Board)
    requires b.deck != []
    ensures Pool(PlayerDraw(b)) == Pool(b) && Pool(DealerDraw(b)) == Pool(b)
  {
    assert b.deck == [b.deck[0]] + b.deck[1..];
  }

  /** The result of dealing: whether all four cards came, and where the cards are. */
  datatype Dealt = Dealt(result: Result<()>, board: Board)

  /** Draws number i to 3 of the deal: even draws to the dealer, odd ones to the player. */
  function DealFrom(b: Board, i: nat): Dealt
    requires i <= 4
    decreases 4 - i
  {
    if i == 4 then Dealt(Ok(()), b)
    else if b.deck == [] then Dealt(Err(EmptyDeck), b)
    else DealFrom(if i % 2 == 0 then DealerDraw(b) else PlayerDraw(b), i + 1)
  }

  /** Two rounds of a dealer hit followed by a player hit. */
  function Deal(b: Board): Dealt
  {
    DealFrom(b, 0)
  }

  /** With four cards available the dealer gets the 1st and 3rd, the player the 2nd and 4th. */
  lemma {:induction false} DealOrder(b: Board)
    requires |b.deck| >= 4
    ensures Deal(b) == Dealt(Ok(()), Board(b.dealer + [b.deck[0], b.deck[2]],
                                           b.player + [b.deck[1], b.deck[3]], b.deck[4..]))
  {
    var b1 := DealerDraw(b);
    var b2 := PlayerDraw(b1);
    var b3 := DealerDraw(b2);
    var b4 := PlayerDraw(b3);
    assert b4.deck == b.deck[4..];
    assert b4.dealer == b.dealer + [b.deck[0], b.deck[2]];
    assert b4.player == b.player + [b.deck[1], b.deck[3]];
  }

  /** With fewer than four cards the deal fails once the deck runs dry. */
  lemma {:induction false} DealShortDeck(b: Board)
    requires |b.deck| < 4
    ensures Deal(b).result == Err(EmptyDeck) && Deal(b).board.deck == []
  {
    if b.deck != [] {
      var b1 := DealerDraw(b);
      if b1.deck != [] {
        var b2 := PlayerDraw(b1);
        if b2.deck != [] {
          var b3 := DealerDraw(b2);
          assert b3.deck == [];
        }
      }
    }
  }

  /** Dealing moves cards and neither creates nor loses any. */
  lemma {:induction false} DealConserves(b: Board, i: nat)
    requires i <= 4
    ensures Pool(DealFrom(b, i).board) == Pool(b)
    decreases 4 - i
  {
    if i < 4 && b.deck != [] {
      DrawConserves(b);
      DealConserves(if i % 2 == 0 then DealerDraw(b) else PlayerDraw(b), i + 1);
    }
  }

  // ---------------------------------------------------------------- money

  /** placeBet: the stake is the bet, capped at the bankroll. */
  function PlaceBet(s: State, bet: int): State
  {
    s.(stake := if bet > s.bankroll then s.bankroll else bet)
  }

  /** won: three times the stake for a natural, twice otherwise; the stake is cleared. */
  function Won(s: State, natural: bool): State
  {
    s.(bankroll := s.bankroll + (if natural then 3 else 2) * s.stake, stake := 0)
  }

  /** lost: the stake comes off the bankroll and is cleared. */
  function Lost(s: State): State
  {
    s.(bankroll := s.bankroll - s.stake, stake := 0)
  }

  /** push: the stake is cleared and the bankroll kept. */
  function Push(s: State): State
  {
    s.(stake := 0)
  }

  /** Once the stake is cleared, a second settlement changes nothing. */
  lemma {:induction false} SecondSettlementHarmless(s: State, natural: bool)
    ensures Lost(Lost(s)) == Lost(s)
    ensures Won(Won(s, natural), false) == Won(s, natural)
  {
  }

  // ---------------------------------------------------------------- the player's turn

  /** How a turn ended, the index of the first move not read, and the table after it. */
  datatype Turn = Turn(result: Result<int>, next: nat, state: State)

  /**
   * playerTurn from move i on. A soft value over 21 settles a loss and yields -1; otherwise a
   * move is read: STAND yields the soft value, HIT draws a card, DOUBLE does nothing, and the
   * loop repeats. Running out of moves, or hitting on an empty deck, is a fault.
   */
  function PlayerTurn(s: State, moves: seq<Move>, i: nat): Turn
    requires i <= |moves|
    decreases |moves| - i
  {
    var v := Soft(s.board.player);
    if v > 21 then Turn(Ok(-1), i, Lost(s))
    else if i == |moves| then Turn(Err(NoInput), i, s)
    else
      match moves[i]
      case Stand => Turn(Ok(v), i + 1, s)
      case Double => PlayerTurn(s, moves, i + 1)
      case Hit =>
        if s.board.deck == [] then Turn(Err(EmptyDeck), i + 1, s)
        else PlayerTurn(s.(board := PlayerDraw(s.board)), moves, i + 1)
  }

  /** Number of HIT moves. */
  function Hits(moves: seq<Move>): nat
  {
    if moves == [] then 0 else (if moves[0] == Hit then 1 else 0) + Hits(moves[1..])
  }

  /**
   * The player's turn moves cards from the front of the deck to the end of the player's hand:
   * the player's hand followed by the deck is the same sequence before and after, the hand
   * only grows, and the dealer's hand is untouched.
   */
  lemma {:induction false} PlayerTurnCards(s: State, moves: seq<Move>, i: nat)
    requires i <= |moves|
    ensures var b, b' := s.board, PlayerTurn(s, moves, i).state.board;
      && b'.dealer == b.dealer && b'.player + b'.deck == b.player + b.deck && |b'.player| >= |b.player|
    decreases |moves| - i
  {
    var t := PlayerTurn(s, moves, i);
    var b := s.board;
    if Soft(b.player) <= 21 && i < |moves| && moves[i] != Stand {
      if moves[i] == Double {
        assert t == PlayerTurn(s, moves, i + 1);
        PlayerTurnCards(s, moves, i + 1);
        return;
      } else if b.deck != [] {
        var s' := s.(board := PlayerDraw(b));
        assert t == PlayerTurn(s', moves, i + 1);
        PlayerTurnCards(s', moves, i + 1);
        assert s'.board.player + s'.board.deck == b.player + b.deck by {
          assert b.deck == [b.deck[0]] + b.deck[1..];
        }
        return;
      }
    }
    assert t.state.board == b;
  }

  /**
   * The player's hand grows by one card per HIT read, less the HIT that found the deck empty;
   * DOUBLE and STAND draw nothing.
   */
  lemma {:induction false} PlayerTurnHits(s: State, moves: seq<Move>, i: nat)
    requires i <= |moves|
    ensures var t := PlayerTurn(s, moves, i);
      && i <= t.next <= |moves|
      && |t.state.board.player| == |s.board.player| + Hits(moves[i..t.next]) - (if t.result == Err(EmptyDeck) then 1 else 0)
    decreases |moves| - i
  {
    var t := PlayerTurn(s, moves, i);
    var b := s.board;
    if Soft(b.player) > 21 || i == |moves| {
      assert t.state.board == b && t.next == i;
      assert moves[i..t.next] == [];
    } else {
      match moves[i]
      case Stand =>
        assert t == Turn(Ok(Soft(b.player)), i + 1, s);
        assert moves[i..t.next] == [Stand];
      case Double =>
        assert t == PlayerTurn(s, moves, i + 1);
        PlayerTurnHits(s, moves, i + 1);
        assert moves[i..t.next] == [Double] + moves[i + 1..t.next];
      case Hit =>
        if b.deck == [] {
          assert t == Turn(Err(EmptyDeck), i + 1, s);
          assert moves[i..t.next] == [Hit];
        } else {
          var s' := s.(board := PlayerDraw(b));
          assert t == PlayerTurn(s', moves, i + 1);
          PlayerTurnHits(s', moves, i + 1);
          assert moves[i..t.next] == [Hit] + moves[i + 1..t.next];
        }
    }
  }

  /**
   * What the player's turn yields: -1 exactly on a soft value over 21, after settling a loss;
   * otherwise the stake and bankroll are untouched, and a value other than -1 is the hand's
   * soft value, at most 21, answered by a STAND.
   */
  lemma {:induction false} PlayerTurnResult(s: State, moves: seq<Move>, i: nat)
    requires i <= |moves|
    ensures var t := PlayerTurn(s, moves, i);
      && (t.result == Ok(-1) ==>
            Soft(t.state.board.player) > 21 && t.state.stake == 0 && t.state.bankroll == s.bankroll - s.stake)
      && (t.result != Ok(-1) ==> t.state.stake == s.stake && t.state.bankroll == s.bankroll)
      && (t.result.Ok? && t.result.value != -1 ==>
            && 0 <= t.result.value <= 21
            && t.result.value == Soft(t.state.board.player)
            && 1 <= t.next <= |moves| && moves[t.next - 1] == Stand)
      && (t.result == Err(NoInput) ==> t.next == |moves|)
    decreases |moves| - i
  {
    var b := s.board;
    var t := PlayerTurn(s, moves, i);
    PromoteIsSoft(b.player);
    if Soft(b.player) <= 21 && i < |moves| {
      match moves[i]
      case Stand =>
        assert t == Turn(Ok(Soft(b.player)), i + 1, s);
      case Double =>
        assert t == PlayerTurn(s, moves, i + 1);
        PlayerTurnResult(s, moves, i + 1);
      case Hit =>
        if b.deck != [] {
          var s' := s.(board := PlayerDraw(b));
          assert t == PlayerTurn(s', moves, i + 1);
          PlayerTurnResult(s', moves, i + 1);
        }
    }
  }

  // ---------------------------------------------------------------- the dealer's turn

  /** How a step ended and the table after it. */
  datatype Outcome<T> = Outcome(result: Result<T>, state: State)

  /**
   * dealerTurn. A soft value over 21 settles a win for the player and yields -1. A raw value
   * over 17 stands on that raw value. Otherwise the dealer hits; the loop repeats while the
   * raw value is still at most 17, and when it is not, the soft value computed before the hit
   * is what is returned.
   */
  function DealerTurn(s: State): Outcome<int>
    decreases |s.board.deck|
  {
    var v := Soft(s.board.dealer);
    var raw := RawValue(s.board.dealer);
    if v > 21 then Outcome(Ok(-1), Won(s, false))
    else if raw > 17 then Outcome(Ok(raw), s)
    else if s.board.deck == [] then Outcome(Err(EmptyDeck), s)
    else
      var drawn := s.(board := DealerDraw(s.board));
      if RawValue(drawn.board.dealer) <= 17 then DealerTurn(drawn) else Outcome(Ok(v), drawn)
  }

  /**
   * The dealer's turn moves cards from the front of the deck to the end of the dealer's hand:
   * the dealer's hand followed by the deck is the same sequence before and after, the hand
   * only grows, and the player's hand is untouched.
   */
  lemma {:induction false} DealerTurnCards(s: State)
    ensures var b, b' := s.board, DealerTurn(s).state.board;
      && b'.player == b.player && b'.dealer + b'.deck == b.dealer + b.deck && |b'.dealer| >= |b.dealer|
    decreases |s.board.deck|
  {
    var b := s.board;
    var o := DealerTurn(s);
    if Soft(b.dealer) <= 21 && RawValue(b.dealer) <= 17 && b.deck != [] {
      var drawn := s.(board := DealerDraw(b));
      assert drawn.board.dealer + drawn.board.deck == b.dealer + b.deck by {
        assert b.deck == [b.deck[0]] + b.deck[1..];
      }
      if RawValue(drawn.board.dealer) <= 17 {
        assert o == DealerTurn(drawn);
        DealerTurnCards(drawn);
      } else {
        assert o.state.board == drawn.board;
      }
    } else {
      assert o.state.board == b;
    }
  }

  /** Only the -1 result of the dealer's turn touches the money: it settles a non-natural win. */
  lemma {:induction false} DealerTurnMoney(s: State)
    ensures var o := DealerTurn(s);
      && (o.result == Ok(-1) ==> o.state.stake == 0 && o.state.bankroll == s.bankroll + 2 * s.stake)
      && (o.result != Ok(-1) ==> o.state.stake == s.stake && o.state.bankroll == s.bankroll)
    decreases |s.board.deck|
  {
    var b := s.board;
    if Soft(b.dealer) <= 21 && RawValue(b.dealer) <= 17 && b.deck != [] {
      var drawn := s.(board := DealerDraw(b));
      if RawValue(drawn.board.dealer) <= 17 {
        assert DealerTurn(s) == DealerTurn(drawn);
        DealerTurnMoney(drawn);
      }
    }
  }

  /**
   * From a hand whose raw value is at most 21 (every two-card hand) the dealer never busts:
   * the turn only goes on at a raw value of at most 17. Whatever it returns is at most 21,
   * and it stops only once the raw value of its hand is over 17.
   */
  lemma {:induction false} DealerNeverBusts(s: State)
    requires RawValue(s.board.dealer) <= 21
    ensures var o := DealerTurn(s);
      && o.result != Ok(-1)
      && (o.result.Ok? ==> o.result.value <= 21 && RawValue(o.state.board.dealer) > 17)
    decreases |s.board.deck|
  {
    var b := s.board;
    if RawValue(b.dealer) <= 17 && b.deck != [] {
      var drawn := s.(board := DealerDraw(b));
      if RawValue(drawn.board.dealer) <= 17 {
        DealerNeverBusts(drawn);
      }
    }
  }

  /** The stand test reads the raw value: at most 17 (a soft 17 or 18 included) means a hit. */
  lemma {:induction false} DealerHitsThrough17(s: State)
    requires RawValue(s.board.dealer) <= 17 && s.board.deck != []
    ensures |DealerTurn(s).state.board.dealer| > |s.board.dealer|
  {
    var o := DealerTurn(s);
    var drawn := s.(board := DealerDraw(s.board));
    if RawValue(drawn.board.dealer) <= 17 {
      assert o == DealerTurn(drawn);
      DealerTurnCards(drawn);
    } else {
      assert o.state == drawn;
    }
  }

  /** The stand half of the test: a raw value of 18 to 21 stands at once on that raw value, drawing nothing. */
  lemma {:induction false} DealerStands(s: State)
    requires 17 < RawValue(s.board.dealer) <= 21
    ensures DealerTurn(s) == Outcome(Ok(RawValue(s.board.dealer)), s)
  {
  }

  /**
   * After the last hit the value returned is the one from before it, while the hand keeps the
   * drawn card: holding TEN and SIX (16) and drawing a KING, the dealer holds 26 and yields 16.
   */
  lemma {:induction false} DealerStaleValue(s: State)
    requires Soft(s.board.dealer) <= 21 && RawValue(s.board.dealer) <= 17 && s.board.deck != []
    requires RawValue(s.board.dealer) + s.board.deck[0].Value() > 17
    ensures var o := DealerTurn(s);
      && o.result == Ok(Soft(s.board.dealer))
      && o.state == s.(board := DealerDraw(s.board))
      && RawValue(o.state.board.dealer) == RawValue(s.board.dealer) + s.board.deck[0].Value()
  {
    AddCardScores(s.board.dealer, s.board.deck[0]);
  }

  // ---------------------------------------------------------------- the round

  /** How a round was settled. */
  datatype Settlement = Pushed | PlayerWon(natural: bool) | PlayerLost

  /** The change of bankroll a settlement makes for a given stake. */
  function Payout(x: Settlement, stake: int): int
  {
    match x
    case Pushed => 0
    case PlayerWon(natural) => (if natural then 3 else 2) * stake
    case PlayerLost => -stake
  }

  /** The table after placeBet and the two busts that open playHand. */
  function Cleared(s: State, bet: int): State
  {
    var staked := PlaceBet(s, bet);
    staked.(board := staked.board.(dealer := [], player := []))
  }

  /**
   * playHand: stake the bet, clear both hands, deal, then settle naturals, or else play the
   * player's and the dealer's turns and compare their values.
   */
  function Round(s: State, bet: int, moves: seq<Move>): Outcome<Settlement>
  {
    var cleared := Cleared(s, bet);
    var dealt := Deal(cleared.board);
    var started := cleared.(board := dealt.board);
    if dealt.result.Err? then Outcome(Err(dealt.result.fault), started)
    else Resolve(started, moves)
  }

  /** The part of playHand after the deal: naturals first, else the turns. */
  function Resolve(s: State, moves: seq<Move>): Outcome<Settlement>
  {
    var playerNatural := Natural(s.board.player);
    var dealerNatural := Natural(s.board.dealer);
    if playerNatural && dealerNatural then Outcome(Ok(Pushed), Push(s))
    else if playerNatural then Outcome(Ok(PlayerWon(true)), Won(s, true))
    else if dealerNatural then Outcome(Ok(PlayerLost), Lost(s))
    else Contest(PlayerTurn(s, moves, 0))
  }

  /** After the player's turn p: a fault ends the round, -1 settles the loss again, else the dealer plays. */
  function Contest(p: Turn): Outcome<Settlement>
  {
    if p.result.Err? then Outcome(Err(p.result.fault), p.state)
    else if p.result.value == -1 then Outcome(Ok(PlayerLost), Lost(p.state))
    else Showdown(p.result.value, DealerTurn(p.state))
  }

  /** After the dealer's turn d against the player's value v: -1 settles the win again, else compare. */
  function Showdown(v: int, d: Outcome<int>): Outcome<Settlement>
  {
    if d.result.Err? then Outcome(Err(d.result.fault), d.state)
    else if d.result.value == -1 then Outcome(Ok(PlayerWon(false)), Won(d.state, false))
    else if d.result.value > v then Outcome(Ok(PlayerLost), Lost(d.state))
    else if d.result.value < v then Outcome(Ok(PlayerWon(false)), Won(d.state, false))
    else Outcome(Ok(Pushed), Push(d.state))
  }

  /**
   * The comparison settles with the payout of its settlement on stake `stake`, given a dealer's
   * turn that touched the money only when it yielded -1 (a win already paid).
   */
  lemma {:induction false} ShowdownPayout(v: int, d: Outcome<int>, stake: int, bankroll: int)
    requires d.result == Ok(-1) ==> d.state.stake == 0 && d.state.bankroll == bankroll + 2 * stake
    requires d.result != Ok(-1) ==> d.state.stake == stake && d.state.bankroll == bankroll
    ensures var o := Showdown(v, d);
      && (o.result.Ok? ==> o.state.stake == 0 && o.state.bankroll == bankroll + Payout(o.result.value, stake))
      && (o.result.Err? ==> o.state.stake == stake && o.state.bankroll == bankroll)
    ensures var o := Showdown(v, d);
      && (d.result.Err? ==> o.result == Err(d.result.fault))
      && (d.result == Ok(-1) ==> o.result == Ok(PlayerWon(false)))
      && (d.result.Ok? && d.result.value != -1 ==>
            && (o.result == Ok(PlayerLost) <==> d.result.value > v)
            && (o.result == Ok(Pushed) <==> d.result.value == v)
            && (o.result == Ok(PlayerWon(false)) <==> d.result.value < v))
  {
  }

  /** After a player's turn that behaved as PlayerTurnResult states, the rest of the round pays out once. */
  lemma {:induction false} ContestPayout(p: Turn, stake: int, bankroll: int)
    requires p.result == Ok(-1) ==> p.state.stake == 0 && p.state.bankroll == bankroll - stake
    requires p.result != Ok(-1) ==> p.state.stake == stake && p.state.bankroll == bankroll
    ensures var o := Contest(p);
      && (o.result.Ok? ==> o.state.stake == 0 && o.state.bankroll == bankroll + Payout(o.result.value, stake))
      && (o.result.Err? ==> o.state.stake == stake && o.state.bankroll == bankroll)
  {
    if p.result.Ok? && p.result.value != -1 {
      DealerTurnMoney(p.state);
      ShowdownPayout(p.result.value, DealerTurn(p.state), stake, bankroll);
    }
  }

  /** Resolution settles once, with the payout of its settlement, or leaves the money alone on a fault. */
  lemma {:induction false} ResolvePayout(s: State, moves: seq<Move>)
    ensures var o := Resolve(s, moves);
      && (o.result.Ok? ==> o.state.stake == 0 && o.state.bankroll == s.bankroll + Payout(o.result.value, s.stake))
      && (o.result.Err? ==> o.state.stake == s.stake && o.state.bankroll == s.bankroll)
  {
    if !Natural(s.board.player) && !Natural(s.board.dealer) {
      PlayerTurnResult(s, moves, 0);
      ContestPayout(PlayerTurn(s, moves, 0), s.stake, s.bankroll);
    }
  }

  /**
   * Every settled round leaves the stake at 0 and changes the bankroll by exactly the payout
   * of its settlement on the clamped bet, the repeated settlements on bust paths included. A
   * round cut short by a fault leaves the bankroll alone and the stake on the table.
   */
  lemma {:induction false} RoundPayout(s: State, bet: int, moves: seq<Move>)
    ensures var o := Round(s, bet, moves);
      var stake := if bet > s.bankroll then s.bankroll else bet;
      && (o.result.Ok? ==> o.state.stake == 0 && o.state.bankroll == s.bankroll + Payout(o.result.value, stake))
      && (o.result.Err? ==> o.state.stake == stake && o.state.bankroll == s.bankroll)
  {
    var cleared := Cleared(s, bet);
    var dealt := Deal(cleared.board);
    var started := cleared.(board := dealt.board);
    if dealt.result.Ok? {
      assert Round(s, bet, moves) == Resolve(started, moves);
      ResolvePayout(started, moves);
    }
  }

  /**
   * Naturals are settled on the opening hands before any turn: both natural is a push, the
   * player's alone wins three times the stake, the dealer's alone loses the stake.
   */
  lemma {:induction false} RoundNaturals(s: State, bet: int, moves: seq<Move>)
    requires |s.board.deck| >= 4
    ensures var d := s.board.deck;
      var o := Round(s, bet, moves);
      var dealerHand, playerHand := [d[0], d[2]], [d[1], d[3]];
      && (Natural(playerHand) && Natural(dealerHand) ==> o.result == Ok(Pushed))
      && (Natural(playerHand) && !Natural(dealerHand) ==> o.result == Ok(PlayerWon(true)))
      && (!Natural(playerHand) && Natural(dealerHand) ==> o.result == Ok(PlayerLost))
  {
    var d := s.board.deck;
    var cleared := Cleared(s, bet);
    assert cleared.board == Board([], [], d);
    DealOrder(cleared.board);
    assert [] + [d[0], d[2]] == [d[0], d[2]] && [] + [d[1], d[3]] == [d[1], d[3]];
    var started := cleared.(board := Board([d[0], d[2]], [d[1], d[3]], d[4..]));
    assert Deal(cleared.board) == Dealt(Ok(()), started.board);
    assert Round(s, bet, moves) == Resolve(started, moves);
  }

  /** A round needs four cards for the deal; with fewer it stops with EmptyDeck. */
  lemma {:induction false} RoundShortDeck(s: State, bet: int, moves: seq<Move>)
    requires |s.board.deck| < 4
    ensures Round(s, bet, moves).result == Err(EmptyDeck)
  {
    DealShortDeck(Cleared(s, bet).board);
  }

  /** The pool seen as one hand followed by the deck, plus the other hand. */
  lemma {:induction false} PoolSplit(b: Board)
    ensures Pool(b) == multiset(b.player + b.deck) + multiset(b.dealer)
    ensures Pool(b) == multiset(b.dealer + b.deck) + multiset(b.player)
  {
  }

  /** The player's turn only moves cards from the deck to the player's hand. */
  lemma {:induction false} PlayerTurnConserves(s: State, moves: seq<Move>)
    ensures Pool(PlayerTurn(s, moves, 0).state.board) == Pool(s.board)
  {
    PlayerTurnCards(s, moves, 0);
    PoolSplit(s.board);
    PoolSplit(PlayerTurn(s, moves, 0).state.board);
  }

  /** The dealer's turn only moves cards from the deck to the dealer's hand. */
  lemma {:induction false} DealerTurnConserves(s: State)
    ensures Pool(DealerTurn(s).state.board) == Pool(s.board)
  {
    DealerTurnCards(s);
    PoolSplit(s.board);
    PoolSplit(DealerTurn(s).state.board);
  }

  /** The rest of the round after the player's turn only moves cards between the deck and the hands. */
  lemma {:induction false} ContestCards(p: Turn)
    ensures Pool(Contest(p).state.board) == Pool(p.state.board)
  {
    if p.result.Ok? && p.result.value != -1 {
      DealerTurnConserves(p.state);
    }
  }

  /** Resolution only moves cards between the deck and the hands. */
  lemma {:induction false} ResolveCards(s: State, moves: seq<Move>)
    ensures Pool(Resolve(s, moves).state.board) == Pool(s.board)
  {
    if !Natural(s.board.player) && !Natural(s.board.dealer) {
      PlayerTurnConserves(s, moves);
      ContestCards(PlayerTurn(s, moves, 0));
    }
  }

  /**
   * The hands are cleared before the deal, so at the end of a round the cards on the table
   * are exactly the cards of the deck it started from; a deck without duplicates keeps the
   * table without duplicates.
   */
  lemma {:induction false} RoundCards(s: State, bet: int, moves: seq<Move>)
    ensures Pool(Round(s, bet, moves).state.board) == multiset(s.board.deck)
  {
    var cleared := Cleared(s, bet);
    DealConserves(cleared.board, 0);
    var dealt := Deal(cleared.board);
    var started := cleared.(board := dealt.board);
    if dealt.result.Ok? {
      assert Round(s, bet, moves) == Resolve(started, moves);
      ResolveCards(started, moves);
    }
  }

  /** A round dealt from a deck without duplicates never puts any card in two places. */
  lemma {:induction false} RoundNoDuplicates(s: State, bet: int, moves: seq<Move>)
    requires Distinct(s.board.deck)
    ensures var b := Round(s, bet, moves).state.board;
      forall c :: Pool(b)[c] <= 1
  {
    RoundCards(s, bet, moves);
  }

  /** Scenario: bankroll 500, bet 100, player natural against a dealer without one: 800. */
  lemma {:induction false} NaturalScenario(rest: seq<Card>, moves: seq<Move>)
    ensures var deck := [Card(Ten, Clubs), Card(Ace, Hearts), Card(Nine, Spades), Card(King, Diamonds)] + rest;
      var o := Round(State(Board([], [], deck), 0, 500), 100, moves);
      o.result == Ok(PlayerWon(true)) && o.state.bankroll == 800 && o.state.stake == 0
  {
    var deck := [Card(Ten, Clubs), Card(Ace, Hearts), Card(Nine, Spades), Card(King, Diamonds)] + rest;
    var s := State(Board([], [], deck), 0, 500);
    NaturalPair(Card(Ace, Hearts), Card(King, Diamonds));
    NaturalPair(Card(Ten, Clubs), Card(Nine, Spades));
    RoundNaturals(s, 100, moves);
    RoundPayout(s, 100, moves);
  }
}
