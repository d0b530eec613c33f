/** Playing cards: thirteen ranks by four suits, built from an index by Card.valueOf. */
module Cards {
  import opened Faults

  /** The ranks in declaration order. */
  datatype Rank = Ace | Two | Three | Four | Five | Six | Seven | Eight | Nine | Ten | Jack | Queen | King
  {
    /** Position in the declaration order (the enum ordinal). */
    function Ordinal(): (k: nat)
      ensures k < 13
    {
      match this
      case Ace => 0    case Two => 1     case Three => 2  case Four => 3
      case Five => 4   case Six => 5     case Seven => 6  case Eight => 7
      case Nine => 8   case Ten => 9     case Jack => 10  case Queen => 11
      case King => 12
    }

    /** The Blackjack base value stored with each rank: an ace counts 1. */
    function Value(): (v: int)
      ensures 1 <= v <= 10
      ensures v == 1 <==> this == Ace
      ensures v == if Ordinal() < 10 then Ordinal() + 1 else 10
    {
      match this
      case Ace => 1    case Two => 2     case Three => 3  case Four => 4
      case Five => 5   case Six => 6     case Seven => 7  case Eight => 8
      case Nine => 9   case Ten => 10    case Jack => 10  case Queen => 10
      case King => 10
    }
  }

  /** The suits in declaration order. */
  datatype Suit = Clubs | Hearts | Diamonds | Spades
  {
    function Ordinal(): (k: nat)
      ensures k < 4
    {
      match this
      case Clubs => 0  case Hearts => 1  case Diamonds => 2  case Spades => 3
    }
  }

  /** Rank.values()[k]: the rank with ordinal k. */
  function RankAt(k: int): (r: Rank)
    requires 0 <= k < 13
    ensures r.Ordinal() == k
  {
    if k == 0 then Ace else if k == 1 then Two else if k == 2 then Three
    else if k == 3 then Four else if k == 4 then Five else if k == 5 then Six
    else if k == 6 then Seven else if k == 7 then Eight else if k == 8 then Nine
    else if k == 9 then Ten else if k == 10 then Jack else if k == 11 then Queen
    else King
  }

  /** Suit.values()[k]: the suit with ordinal k. */
  function SuitAt(k: int): (s: Suit)
    requires 0 <= k < 4
    ensures s.Ordinal() == k
  {
    if k == 0 then Clubs else if k == 1 then Hearts else if k == 2 then Diamonds else Spades
  }

  /** An immutable card; two cards are the same card exactly when rank and suit agree. */
  datatype Card = Card(rank: Rank, suit: Suit)
  {
    function IsAce(): (b: bool)
      ensures b <==> Value() == 1
    {
      rank == Ace
    }

    /** cardValue: the base value of the card's rank. */
    function Value(): (v: int)
      ensures 1 <= v <= 10
      ensures v == 1 <==> rank == Ace
    {
      rank.Value()
    }

    /** The overridden equals, restricted to Card arguments. */
    function Equals(o: Card): (b: bool)
      ensures b <==> this == o
    {
      rank == o.rank && suit == o.suit
    }
  }

  /** Java's `%` on int: the remainder truncates toward zero, so it takes the dividend's sign. */
  function JavaRem(a: int, n: int): (r: int)
    requires n > 0
    ensures -n < r < n
    ensures a >= 0 ==> r == a % n
    ensures a < 0 ==> r <= 0 && (a - r) % n == 0
  {
    if a >= 0 then a % n
    else
      var r := -((-a) % n);
      ModZero(a - r, n, -((-a) / n));
      r
  }

  /** A multiple of n leaves remainder 0. */
  lemma {:induction false} ModZero(x: int, n: int, k: int)
    requires n > 0 && x == n * k
    ensures x % n == 0
  {
    var d := k - x / n;
    assert n * d == x % n;
  }

  /**
   * Card.valueOf: rank index num % 13 and suit index num % 4, computed with Java's remainder.
   * A negative remainder indexes outside the enum arrays and raises; that is BadIndex here.
   */
  function ValueOf(num: int): (r: Result<Card>)
    ensures r.Ok? <==> 0 <= num || (num % 4 == 0 && num % 13 == 0)
    ensures r.Ok? ==> r.value.rank.Ordinal() == num % 13 && r.value.suit.Ordinal() == num % 4
    ensures r.Err? ==> r.fault == BadIndex
  {
    var suitNum := JavaRem(num, 4);
    var rankNum := JavaRem(num, 13);
    if 0 <= rankNum && 0 <= suitNum then Ok(Card(RankAt(rankNum), SuitAt(suitNum)))
    else Err(BadIndex)
  }

  /**
   * The index in 0..51 that ValueOf maps to a given card, by the Chinese remainder theorem:
   * 40 is 1 modulo 13 and 0 modulo 4, while 13 is 0 modulo 13 and 1 modulo 4.
   */
  function Position(c: Card): (i: int)
    ensures 0 <= i < 52
  {
    (40 * c.rank.Ordinal() + 13 * c.suit.Ordinal()) % 52
  }

  /** Rank and suit ordinals identify a card. */
  lemma {:induction false} OrdinalsIdentify(c: Card, d: Card)
    requires c.rank.Ordinal() == d.rank.Ordinal() && c.suit.Ordinal() == d.suit.Ordinal()
    ensures c == d
  {
    assert RankAt(c.rank.Ordinal()) == c.rank && RankAt(d.rank.Ordinal()) == d.rank;
    assert SuitAt(c.suit.Ordinal()) == c.suit && SuitAt(d.suit.Ordinal()) == d.suit;
  }

  /** A remainder read off a witness: x = r + 52 * m with 0 <= r < 52. */
  lemma {:induction false} Mod52(x: int, r: int, m: int)
    requires x == r + 52 * m && 0 <= r < 52
    ensures x % 52 == r
  {
  }

  lemma {:induction false} Mod13(x: int, r: int, m: int)
    requires x == r + 13 * m && 0 <= r < 13
    ensures x % 13 == r
  {
  }

  lemma {:induction false} Mod4(x: int, r: int, m: int)
    requires x == r + 4 * m && 0 <= r < 4
    ensures x % 4 == r
  {
  }

  /** The residues of (40 * a + 13 * b) % 52 modulo 13 and 4 are a and b. */
  lemma {:induction false} Residues(a: int, b: int)
    requires 0 <= a < 13 && 0 <= b < 4
    ensures ((40 * a + 13 * b) % 52) % 13 == a
    ensures ((40 * a + 13 * b) % 52) % 4 == b
  {
    var x := 40 * a + 13 * b;
    var i, q := x % 52, x / 52;
    assert x == 52 * q + i;
    Mod13(i, a, 3 * a + b - 4 * q);
    Mod4(i, b, 10 * a + 3 * b - 13 * q);
  }

  /** Every card is produced by ValueOf, at its Position. */
  lemma {:induction false} ValueOfPosition(c: Card)
    ensures ValueOf(Position(c)) == Ok(c)
  {
    Residues(c.rank.Ordinal(), c.suit.Ordinal());
    var r := ValueOf(Position(c));
    OrdinalsIdentify(r.value, c);
  }

  /** On 0..51 the residues modulo 13 and 4 recombine to the index itself. */
  lemma {:induction false} Recombine(i: int)
    requires 0 <= i < 52
    ensures (40 * (i % 13) + 13 * (i % 4)) % 52 == i
  {
    var a, b := i % 13, i % 4;
    var q1, q2 := i / 13, i / 4;
    assert i == 13 * q1 + a && i == 4 * q2 + b;
    Mod52(40 * a + 13 * b, i, i - 10 * q1 - q2);
  }

  /** ValueOf is injective on 0..51: Position undoes it. */
  lemma {:induction false} PositionOfValueOf(i: int)
    requires 0 <= i < 52
    ensures ValueOf(i).Ok? && Position(ValueOf(i).value) == i
  {
    var c := ValueOf(i).value;
    Recombine(i);
    assert Position(c) == (40 * (i % 13) + 13 * (i % 4)) % 52;
  }

  /** The 52 cards of the unshuffled deck: ValueOf(0), ..., ValueOf(51). */
  function FullDeck(): (d: seq<Card>)
    ensures |d| == 52
  {
    seq(52, i requires 0 <= i < 52 => ValueOf(i).value)
  }

  /** A sequence holds no card twice. */
  ghost predicate Distinct(s: seq<Card>)
  {
    forall c :: multiset(s)[c] <= 1
  }

  /** An element that occurs at only one index of a sequence occurs once in its multiset. */
  lemma {:induction false} OccursOnce<T>(s: seq<T>, k: nat)
    requires k < |s|
    requires forall j :: 0 <= j < |s| && j != k ==> s[j] != s[k]
    ensures multiset(s)[s[k]] == 1
  {
    var last := |s| - 1;
    var init := s[..last];
    assert s == init + [s[last]];
    if k == last {
      assert s[k] !in init by {
        forall j | 0 <= j < |init| ensures init[j] != s[k] {
          assert init[j] == s[j];
        }
      }
    } else {
      forall j | 0 <= j < |init| && j != k ensures init[j] != init[k] {
        assert init[j] == s[j];
      }
      OccursOnce(init, k);
      assert s[last] != s[k];
    }
  }

  /** The unshuffled deck holds each of the 52 rank and suit pairs exactly once. */
  lemma {:induction false} FullDeckExactlyOnce(c: Card)
    ensures multiset(FullDeck())[c] == 1
  {
    var d := FullDeck();
    var k := Position(c);
    ValueOfPosition(c);
    assert d[k] == c;
    forall j | 0 <= j < 52 && j != k ensures d[j] != d[k] {
      PositionOfValueOf(j);
    }
    OccursOnce(d, k);
  }

  /** Hence the unshuffled deck has no duplicates and contains every card. */
  lemma {:induction false} FullDeckDistinct()
    ensures Distinct(FullDeck())
    ensures forall c: Card :: c in FullDeck()
    ensures |set c | c in FullDeck()| == 52
  {
    var cards := set c | c in FullDeck();
    forall c: Card ensures multiset(FullDeck())[c] == 1 && c in FullDeck() && multiset(cards)[c] == 1 {
      FullDeckExactlyOnce(c);
    }
    assert multiset(FullDeck()) == multiset(cards);
    assert |cards| == |multiset(cards)| == |multiset(FullDeck())| == 52;
  }
}
