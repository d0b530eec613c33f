# Blackjack round engine

A Dafny model of the round engine of a single-player Blackjack game (hegek87/Blackjack).
It covers the cards and their index encoding, the deck, the hand, the player and the dealer,
and the table that plays one round: stake a bet, clear the hands, deal, check for naturals,
play the player's turn and the dealer's turn, and settle.

Modules:

- `Faults`: how the Java exceptions are modelled. A call that throws returns `Err(fault)`, with
  one of four faults: `EmptyDeck` (`remove(0)` on an empty list), `BadIndex` (a negative
  remainder used as an enum index), `NoInput` (no more player answers) and `Unsupported`
  (asking a player for a card).
- `Cards`: `Rank`, `Suit` and `Card` as datatypes; `ValueOf` with Java's truncating `%`. The
  lemmas prove that 0..51 maps one-to-one onto the 52 rank and suit pairs.
- `Decks`: class `Deck` over a `seq<Card>`, drawn from the front. `Collections.shuffle` is
  replaced by a parameter: the order it produced, which must be a rearrangement of the cards.
- `Hands`: class `Hand` over a `seq<Card>`, with the loop-based queries proved against the
  recursive functions `RawValue` and `AceCount`.
- `Rules`: the round on values. `State` holds the two hands, the deck, the table stake
  (`Table.pot`) and the bankroll (`Player.pot`). The functions `Soft`, `Deal`, `PlayerTurn`,
  `DealerTurn`, `Resolve` and `Round` define the steps of a round, and the lemmas state what
  the code promises about them.
- `Blackjack`: classes `Player`, `Dealer` and `Table`, which refer to one another. Each turn
  and the round are methods with loops, proved to leave the table in exactly the state the
  matching `Rules` function computes (through the ghost `Table.Snapshot`).

The player's console answers become a finite `seq<Move>` and the bet becomes a parameter.

The model follows the code, including where the code departs from its own comments or does
something its comments do not mention:

- The Javadoc of `dealerTurn` (Table.java:139-143) says the dealer hits below 17 and stands on
  any value over 17. The code stands only when the raw value, aces counted as 1, is over 17
  (Table.java:162). So it also hits at exactly 17, and on a soft 17 or 18.
- After the dealer's final hit, `dealerTurn` returns the soft value from before that hit
  (Table.java:169-170).
- On bust paths `lost()` and `won(false)` are called twice (Table.java:122 and 223, 159 and
  228). The second call finds the stake already 0 and changes nothing.
- The table never calls `newDeck`, so the deck is not refilled between rounds. A draw from an
  empty deck ends the round with `Err(EmptyDeck)`; it is not a precondition.
- A natural is `hasAce() && getHandValue() == 11` on the dealt hand, as the code tests it.

## Model

| member | source | states |
|---|---|---|
| Cards.Rank.Value | Card.java:11-23 | a rank's value lies in 1..10; it is 1 exactly for ACE, the face value for TWO..TEN and 10 for JACK, QUEEN and KING |
| Cards.Card.IsAce | Card.java:113-115 | a card is an ace exactly when its value is 1 |
| Cards.Card.Value | Card.java:121-123 | cardValue lies in 1..10 and is 1 exactly when the rank is ACE |
| Cards.Card.Equals | Card.java:73-80 | two cards are equal exactly when rank and suit agree (so equality is reflexive and symmetric) |
| Cards.JavaRem | Card.java:39-40 | Java's remainder has magnitude below the divisor; for a non-negative dividend it is the mathematical modulo, and for a negative dividend it is <= 0 and congruent to the dividend (it takes the dividend's sign) |
| Cards.ValueOf | Card.java:38-45 | valueOf succeeds exactly when both Java remainders are non-negative (every index >= 0, plus negative multiples of 52); the card has rank index i % 13 and suit index i % 4; otherwise it fails with BadIndex |
| Cards.ValueOfPosition | Card.java:38-45 | every rank and suit pair is valueOf of some index in 0..51 |
| Cards.PositionOfValueOf | Card.java:38-45 | valueOf is injective on 0..51 |
| Cards.FullDeckExactlyOnce | Card.java:134-142 | valueOf(0..51) contains each rank and suit pair exactly once |
| Cards.FullDeckDistinct | Card.java:134-142 | the 52 cards valueOf(0..51) have no duplicates and cover every card, and the set of them has size 52 |
| Decks.Deck.Ordered | Deck.java:17-21 | the private constructor builds exactly [valueOf(0), ..., valueOf(51)] |
| Decks.Deck.CreateDeck | Deck.java:27-32 | createDeck yields the last shuffle's order: a permutation of the 52 cards, of size 52, with no duplicates |
| Decks.Deck.RemoveNext | Deck.java:38-43 | removeNext returns the front card and leaves the tail; on an empty deck it fails with EmptyDeck; the removed card plus the rest are the old multiset |
| Decks.Deck.Empty | Deck.java:48-52 | empty holds exactly when the deck has no cards |
| Decks.Deck.DeckSize | Deck.java:71-75 | deckSize is the number of cards |
| Decks.Deck.ShuffleDeck | Deck.java:78-80 | shuffling preserves the multiset of cards and the size |
| Decks.DrawWholeDeck | Deck.java:27-43 | 52 draws from a new deck return each of the 52 cards once; the 53rd fails with EmptyDeck |
| Hands.AddCardScores | Hand.java:31-48 | adding a card raises the raw value by its value, and the ace count by one exactly when it is an ace |
| Hands.AceCountBounds | Hand.java:90-98 | ace count <= number of cards <= raw value <= 10 * number of cards |
| Hands.HasAceIffCount | Hand.java:77-98 | a hand has an ace exactly when its ace count is positive |
| Hands.Hand.constructor | Hand.java:18-20 | the hand holds the given cards |
| Hands.Hand.NewHand | Hand.java:23-25 | newHand is empty |
| Hands.Hand.AddCard | Hand.java:31-35 | addCard appends the card at the end and keeps the earlier cards |
| Hands.Hand.GetHandValue | Hand.java:41-48 | the loop sums the card values, aces as 1 (0 for an empty hand) |
| Hands.Hand.Bust | Hand.java:67-71 | bust empties the hand |
| Hands.Hand.HasAce | Hand.java:77-84 | the early-exit scan answers true exactly when some card is an ace |
| Hands.Hand.CountAces | Hand.java:90-98 | the loop counts the aces |
| Hands.Hand.ViewFirst | Hand.java:101-105 | viewFirst needs a non-empty hand and returns its first card |
| Rules.Soft | Table.java:114-121 | the soft value is the raw value or the raw value + 10, and exceeds 21 exactly when the raw value does |
| Rules.PromoteAtMostOnce | Table.java:116-120 | since each ace adds at least 1 to the raw value, the promotion loop adds 10 at most once: exactly when there is an ace and raw <= 11 |
| Rules.PromoteIsSoft | Table.java:114-120 | the promotion loop over a hand's aces computes its soft value, which is never negative |
| Rules.NaturalPair | Table.java:197-219 | a two-card hand is a natural exactly when it is an ace and a ten-value card, and its soft value is then 21 |
| Rules.DrawConserves | Dealer.java:24-35 | a hit by either side moves the front card of the deck to that hand without creating or losing a card |
| Rules.DealOrder | Dealer.java:49-54 | with four cards the dealer gets deck[0] and deck[2], the player deck[1] and deck[3], and the deck loses four cards |
| Rules.DealShortDeck | Dealer.java:49-54 | with fewer than four cards the deal fails with EmptyDeck after emptying the deck |
| Rules.DealConserves | Dealer.java:49-54 | dealing keeps the multiset of all cards on the table |
| Rules.SecondSettlementHarmless | Player.java:42-62 | once the stake is 0, a second lost() or won(false) leaves the bankroll unchanged |
| Rules.PlayerTurnCards | Table.java:111-137 | the player's turn only moves cards from the front of the deck to the end of the player's hand: the player's hand followed by the deck is unchanged, the hand only grows, and the dealer's hand is untouched |
| Rules.PlayerTurnHits | Table.java:111-137 | the player's hand grows by exactly the number of HIT answers read, less the one that found the deck empty; DOUBLE and STAND draw nothing |
| Rules.PlayerTurnResult | Table.java:111-137 | the turn yields -1 exactly when the soft value is over 21, after settling a loss; any other value is the soft value (<= 21) answered by a STAND, with the money untouched; running out of answers is NoInput |
| Rules.DealerTurnCards | Table.java:144-171 | the dealer's turn only moves cards from the front of the deck to the end of the dealer's hand: the dealer's hand followed by the deck is unchanged, the hand only grows, and the player's hand is untouched |
| Rules.DealerTurnMoney | Table.java:158-160 | only the -1 result of the dealer's turn touches the money: it pays a non-natural win (+2 times the stake) and clears the stake; any other result leaves stake and bankroll alone |
| Rules.DealerNeverBusts | Table.java:146-170 | from a hand with raw value <= 21 (every two-card hand) the dealer never yields -1; any value returned is <= 21 and the dealer then holds a raw value over 17 |
| Rules.DealerStands | Table.java:162-163 | a raw value of 18 to 21 stands at once: the turn yields that raw value and draws nothing |
| Rules.DealerHitsThrough17 | Table.java:162-169 | a raw value <= 17, including 17 and a soft 17 or 18, makes the dealer hit |
| Rules.DealerStaleValue | Table.java:164-170 | when a hit takes the raw value from at most 17 to over 17, the turn ends holding the drawn card but yields the soft value from before the hit (10 and 6, then a king: the dealer holds 26 and yields 16) |
| Rules.ShowdownPayout | Table.java:227-242 | the comparison settles as the code orders it: a dealer fault ends the round with that fault; the dealer's -1 is a non-natural win; otherwise a higher dealer value is a loss, an equal one a push and a lower one a win, each exactly in that case. The bankroll changes by the settlement's payout once: the dealer's -1 was already paid, so the repeated won(false) adds nothing |
| Rules.ContestPayout | Table.java:221-242 | after the player's turn, the rest of the round changes the bankroll by exactly the payout of its settlement, the repeated lost() on a bust included; a fault leaves the money alone |
| Rules.ResolvePayout | Table.java:196-242 | after the deal, a settled round clears the stake and changes the bankroll by exactly its payout (+3, +2, -1 or 0 times the stake); a fault leaves the money alone |
| Rules.RoundPayout | Table.java:179-243 | every settled round ends with stake 0 and the bankroll changed by the payout of the clamped bet, even on the bust paths that settle twice |
| Rules.RoundNaturals | Table.java:188-219 | on the dealt hands: both natural is a push, only the player's wins with the natural payout, only the dealer's loses |
| Rules.RoundShortDeck | Table.java:188-191 | a round starting with fewer than four cards in the deck stops with EmptyDeck |
| Rules.PlayerTurnConserves | Table.java:111-137 | the player's turn keeps the multiset of all cards on the table |
| Rules.DealerTurnConserves | Table.java:144-171 | the dealer's turn keeps the multiset of all cards on the table |
| Rules.ContestCards | Table.java:221-242 | after the player's turn, the rest of the round keeps the multiset of all cards on the table |
| Rules.ResolveCards | Table.java:193-242 | the rest of the round after the deal keeps the multiset of all cards on the table |
| Rules.RoundCards | Table.java:188-243 | after a round, the cards in both hands and the deck are exactly the cards of the deck the round started from |
| Rules.RoundNoDuplicates | Table.java:188-243 | a round that starts from a deck without duplicates never puts a card in two places |
| Rules.NaturalScenario | Table.java:210-214 | with a bankroll of 500 and a bet of 100, a player natural against a dealer without one ends at 800 |
| Blackjack.Player.JoinGame | Player.java:14-27 | a new player with the given hand and bankroll, not yet linked to a dealer or table |
| Blackjack.Player.SitAtTable | Player.java:30-32 | links the player to the table |
| Blackjack.Player.SetDealer | Player.java:88-90 | links the player to the dealer |
| Blackjack.Player.PlaceBet | Player.java:35-39 | the table stake becomes min(bet, bankroll); the bankroll is untouched |
| Blackjack.Player.Won | Player.java:42-54 | the bankroll gains 3 times the stake for a blackjack, 2 times otherwise, and the stake becomes 0 |
| Blackjack.Player.Lost | Player.java:57-62 | the bankroll loses the stake, and the stake becomes 0 |
| Blackjack.Player.Push | Player.java:64-67 | the stake becomes 0 and the bankroll is untouched |
| Blackjack.Player.Hit | Player.java:71-76 | the dealer's front card goes to the end of the player's hand and the deck loses it; on an empty deck it fails with EmptyDeck and the hand is unchanged |
| Blackjack.Player.RefreshPot | Player.java:101-103 | the bankroll becomes 500 |
| Blackjack.Player.DealNext | Player.java:106-108 | asking a player for a card always fails with Unsupported |
| Blackjack.Dealer.StartGame | Dealer.java:12-21 | a dealer with the given hand and deck |
| Blackjack.Dealer.SetPlayer | Dealer.java:44-46 | links the dealer to the player |
| Blackjack.Dealer.DealNext | Dealer.java:32-35 | returns the front card of the deck and removes it, or fails with EmptyDeck |
| Blackjack.Dealer.Hit | Dealer.java:24-29 | the same front card is appended to the dealer's hand and returned |
| Blackjack.Dealer.NewDeck | Dealer.java:38-41 | the deck is replaced by a new full shuffled one only when it is empty; otherwise it is the same deck |
| Blackjack.Dealer.Deal | Dealer.java:49-54 | the loop of two dealer hits and two player hits leaves the hands and deck as the deal in dealer, player, dealer, player order computes, EmptyDeck included |
| Blackjack.Dealer.DisplayPlayerView | Dealer.java:57-59 | the dealer hand's first card |
| Blackjack.Table.CreateTable | Table.java:38-45 | a table with a new dealer (empty hand, full shuffled deck), player and dealer linked both ways, stake 0, the player's hand and bankroll kept |
| Blackjack.Table.NewTable | Table.java:48-51 | a new player with an empty hand and a bankroll of 500 at a new table |
| Blackjack.Table.SetPot | Table.java:54-56 | sets the table stake |
| Blackjack.Table.GetPot | Table.java:59-61 | reads the table stake |
| Blackjack.Table.HandScore | Table.java:114-120 | the promotion loop that both turns run yields the hand's soft value |
| Blackjack.Table.PlayerTurn | Table.java:111-137 | the do-while loop over the answers leaves the table and returns what the player's turn computes, including the loss settled on a bust |
| Blackjack.Table.DealerTurn | Table.java:144-171 | the do-while loop leaves the table and returns what the dealer's turn computes, including the stale value after the last hit |
| Blackjack.Table.PlayHand | Table.java:179-243 | stake, clear, deal and settle: the table ends exactly as the round computes, with the settlement or the fault returned |
| Blackjack.Table.SettleRound | Table.java:193-219 | after the deal, the natural checks in the code's nested order settle as the round's resolution does |
| Blackjack.Table.Contest | Table.java:220-242 | the two turns and the comparison (higher value wins, equal pushes, a -1 settles again) leave the table and return what the rest of the round computes from the player's turn |

## Left out

- Console I/O: every `System.out` message, every `toString`, and `getPlayerResponse`
  (Table.java:79-97). The answers are the `moves` parameter; running out of them is `NoInput`.
- Reading the bet and its fallback to 50 on a parse error (Table.java:180-187): the bet is a
  parameter of `PlayHand`.
- `startGame` (Table.java:252-266): the play-again loop is driven by console input. Only
  `refreshPot` is kept, as `Blackjack.Player.RefreshPot`.
- `Collections.shuffle` (Deck.java:30, 79): its random order is a parameter, constrained only to
  be a rearrangement of the cards.
- `synchronized` blocks and methods: the game is single-threaded, so locking has no effect here.
- `Card.hashCode` (Card.java:87-89): it depends on the identity hashes of the enum constants.
- `getRank`, `getSuit`, `viewHand` and `Player.getPot`: these are read as the datatype fields,
  the `hand` constants and the `pot` field.
- All `main` demo methods, including the demo where two players share one hand (Player.java:110-117).
- Cards.Card.Equals: models `equals` for a `Card` argument only. The `false` answer for an
  argument of another class cannot arise between values of one datatype.
- Hands.Hand.constructor: stores a copy of the given sequence. The Java constructor keeps the
  caller's list, so later changes through that list would show in the hand.
- Blackjack.Player.Won: the bankroll is an unbounded integer. Java's 32-bit `int` could wrap
  on overflow, and the model does not capture that (nor in `Lost` or `PlaceBet`).
- The `Person` interface is not part of this model: the player holds a `Dealer` and the
  dealer a `Player` directly.
