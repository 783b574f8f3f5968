/**
  Deck construction (src/deck.rs, and the identical loop of
  `Dealer::init_euchre_deck` in src/dealer.rs): for each suit in iteration
  order, one card per rank in iteration order. The two callers differ only in
  the suit order they iterate.
 */
module Decks {
  import opened Cards

  /** No value occurs twice. */
  predicate Distinct<T(==)>(s: seq<T>)
  {
    forall i, j :: 0 <= i < j < |s| ==> s[i] != s[j]
  }

  /** `ss` lists each concrete suit exactly once. */
  predicate EnumeratesSuits(ss: seq<Suit>)
  {
    |ss| == 4 && Distinct(ss) && forall s: Suit :: s in ss <==> s.IsConcrete()
  }

  /** `rs` lists each concrete rank exactly once. */
  predicate EnumeratesRanks(rs: seq<Rank>)
  {
    |rs| == 6 && Distinct(rs) && forall r: Rank :: r in rs <==> r.IsConcrete()
  }

  /** One card of suit `s` per rank of `ranks`, in order. */
  function Row(s: Suit, ranks: seq<Rank>): (row: seq<Card>)
    ensures |row| == |ranks|
    ensures forall j :: 0 <= j < |ranks| ==> row[j] == Card(s, ranks[j])
  {
    seq(|ranks|, j requires 0 <= j < |ranks| => Card(s, ranks[j]))
  }

  /** The suit-major product of `suits` and `ranks`: the rows of the suits, in order. */
  function Combos(suits: seq<Suit>, ranks: seq<Rank>): (cards: seq<Card>)
    ensures |cards| == |suits| * |ranks|
    ensures forall c :: c in cards ==> c.suit in suits && c.rank in ranks
    decreases |suits|
  {
    if suits == [] then [] else Combos(suits[..|suits| - 1], ranks) + Row(suits[|suits| - 1], ranks)
  }

  /** Index `i` of a product over six ranks holds suit `i / 6` and rank `i % 6`. */
  lemma {:induction false} CombosAt(suits: seq<Suit>, ranks: seq<Rank>)
    requires |ranks| == 6
    ensures |Combos(suits, ranks)| == 6 * |suits|
    ensures forall i :: 0 <= i < 6 * |suits| ==>
      Combos(suits, ranks)[i] == Card(suits[i / 6], ranks[i % 6])
    decreases |suits|
  {
    if suits != [] {
      var n := |suits|;
      var front := suits[..n - 1];
      CombosAt(front, ranks);
      var cards := Combos(suits, ranks);
      forall i | 0 <= i < 6 * n
        ensures cards[i] == Card(suits[i / 6], ranks[i % 6])
      {
        if i < 6 * (n - 1) {
          assert cards[i] == Card(front[i / 6], ranks[i % 6]);
        } else {
          assert i / 6 == n - 1;
        }
      }
    }
  }

  /** Over distinct suits and six distinct ranks, the cards are distinct and are exactly the (suit, rank) pairs. */
  lemma {:induction false} CombosDistinct(suits: seq<Suit>, ranks: seq<Rank>)
    requires Distinct(suits) && Distinct(ranks) && |ranks| == 6
    ensures Distinct(Combos(suits, ranks))
    ensures forall c: Card :: c in Combos(suits, ranks) <==> c.suit in suits && c.rank in ranks
  {
    CombosAt(suits, ranks);
    var cards := Combos(suits, ranks);
    forall i, j | 0 <= i < j < |cards| ensures cards[i] != cards[j] {
      assert i / 6 != j / 6 || i % 6 != j % 6;
    }
    forall c: Card | c.suit in suits && c.rank in ranks ensures c in cards {
      var a :| 0 <= a < |suits| && suits[a] == c.suit;
      var b :| 0 <= b < 6 && ranks[b] == c.rank;
      assert (6 * a + b) / 6 == a && (6 * a + b) % 6 == b;
      assert cards[6 * a + b] == c;
    }
  }

  /**
    Built from iteration orders that list each concrete suit and rank once,
    the deck holds 24 cards, each concrete card exactly once and nothing else.
   */
  lemma FullDeck(suits: seq<Suit>, ranks: seq<Rank>)
    requires EnumeratesSuits(suits) && EnumeratesRanks(ranks)
    ensures IsFullDeck(Combos(suits, ranks))
  {
    CombosAt(suits, ranks);
    CombosDistinct(suits, ranks);
  }

  /** A full deck: 24 cards, each concrete card exactly once. */
  ghost predicate IsFullDeck(cards: seq<Card>)
  {
    && |cards| == 24
    && Distinct(cards)
    && (forall i :: 0 <= i < |cards| ==> cards[i].IsConcrete())
    && (forall c: Card :: c in cards <==> c.IsConcrete())
  }

  /** In a full deck, exactly one position holds the right bower and exactly one the left bower. */
  lemma BowersOncePerDeck(cards: seq<Card>, trump: Suit)
    requires IsFullDeck(cards) && trump.IsConcrete()
    ensures exists k :: 0 <= k < |cards| && IsRight(cards[k], trump) &&
                        (forall i :: 0 <= i < |cards| && IsRight(cards[i], trump) ==> i == k)
    ensures exists k :: 0 <= k < |cards| && IsLeft(cards[k], trump) &&
                        (forall i :: 0 <= i < |cards| && IsLeft(cards[i], trump) ==> i == k)
  {
    var right, left := Card(trump, Jack), Card(SameColour(trump), Jack);
    assert right in cards && left in cards;
    var kr :| 0 <= kr < 24 && cards[kr] == right;
    var kl :| 0 <= kl < 24 && cards[kl] == left;
    forall i | 0 <= i < 24
      ensures IsRight(cards[i], trump) <==> i == kr
      ensures IsLeft(cards[i], trump) <==> i == kl
    {
      BowersUnique(cards[i], trump);
    }
  }

  /**
    The nested `for` loops of `create_all_card_combos` and
    `init_euchre_deck`: push one card per rank for each suit in turn.
   */
  method AllCombos(suits: seq<Suit>, ranks: seq<Rank>) returns (result: seq<Card>)
    ensures result == Combos(suits, ranks)
  {
    result := [];
    for i := 0 to |suits|
      invariant result == Combos(suits[..i], ranks)
    {
      for j := 0 to |ranks|
        invariant result == Combos(suits[..i], ranks) + Row(suits[i], ranks[..j])
      {
        result := result + [Card(suits[i], ranks[j])];
      }
      assert ranks[..|ranks|] == ranks;
      assert suits[..i + 1][..i] == suits[..i];
    }
    assert suits[..|suits|] == suits;
  }

  /** `Deck`: the 24 cards of a fresh deck. */
  datatype Deck = Deck(cards: seq<Card>)

  /** `create_all_card_combos`: the product over `Suit::iterator` and `Rank::iterator`. */
  method CreateAllCardCombos() returns (result: seq<Card>)
    ensures result == Combos(SuitIterator, RankIterator)
  {
    result := AllCombos(SuitIterator, RankIterator);
  }

  /** `Deck::new`. */
  method NewDeck() returns (deck: Deck)
    ensures IsFullDeck(deck.cards)
    ensures forall i :: 0 <= i < 24 ==> deck.cards[i] == Card(SuitIterator[i / 6], RankIterator[i % 6])
    ensures deck.cards[0] == Card(Spades, Nine) && deck.cards[23] == Card(Diamonds, Ace)
  {
    var cards := CreateAllCardCombos();
    IteratorsEnumerate();
    FullDeck(SuitIterator, RankIterator);
    CombosAt(SuitIterator, RankIterator);
    deck := Deck(cards);
  }
}
