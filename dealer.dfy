/**
  The dealer of src/dealer.rs: it owns the deck as a vector that `shuffle`,
  `deal_cards` and `flip_top_card` change in place. The vector's end is the
  top of the deck: cards are dealt and flipped from there.
 */
module Dealing {
  import opened Cards
  import opened Decks
  import opened Players

  /** `Suit::iter()`: strum yields the constructors in declaration order. */
  const SuitDeclarationOrder: seq<Suit> := [Diamonds, Hearts, Clubs, Spades]

  /** `Rank::iter()`, likewise. */
  const RankDeclarationOrder: seq<Rank> := [Nine, Ten, Jack, Queen, King, Ace]

  /** The deck `init_euchre_deck` builds, as a value. */
  function EuchreDeck(): (deck: seq<Card>)
    ensures |deck| == 24
  {
    CombosAt(SuitDeclarationOrder, RankDeclarationOrder);
    Combos(SuitDeclarationOrder, RankDeclarationOrder)
  }

  /**
    A fresh dealer's deck holds every concrete card once, suit-major in
    declaration order, so its top card is the Ace of Spades (the
    `init_dealer` test).
   */
  lemma EuchreDeckLayout()
    ensures IsFullDeck(EuchreDeck())
    ensures forall i :: 0 <= i < 24 ==>
      EuchreDeck()[i] == Card(SuitDeclarationOrder[i / 6], RankDeclarationOrder[i % 6])
    ensures EuchreDeck()[23] == Card(Spades, Ace)
  {
    FullDeck(SuitDeclarationOrder, RankDeclarationOrder);
    CombosAt(SuitDeclarationOrder, RankDeclarationOrder);
  }

  /** `init_euchre_deck`: the nested push loop over the declaration orders. */
  method InitEuchreDeck() returns (result: seq<Card>)
    ensures result == EuchreDeck()
  {
    result := AllCombos(SuitDeclarationOrder, RankDeclarationOrder);
  }

  /** Exchanging two positions keeps the cards. */
  lemma SwapKeepsCards(s: seq<Card>, i: nat, j: nat)
    requires i < |s| && j < |s|
    ensures multiset(s[i := s[j]][j := s[i]]) == multiset(s)
  {
  }

  class Dealer {
    var euchreDeck: seq<Card>

    /** `Dealer::new`: a dealer holding the fresh deck. */
    constructor ()
      ensures euchreDeck == EuchreDeck()
    {
      var deck := InitEuchreDeck();
      euchreDeck := deck;
    }

    /**
      `shuffle`: the generator's Fisher-Yates pass over the vector. For `i`
      from the last index down to 1 it swaps position `i` with a position the
      generator draws from `0..=i`; `draws` holds those draws in turn. The
      cards are permuted, none gained or lost.
     */
    method Shuffle(draws: seq<nat>)
      requires |draws| == if |euchreDeck| == 0 then 0 else |euchreDeck| - 1
      requires forall k :: 0 <= k < |draws| ==> draws[k] <= |euchreDeck| - 1 - k
      modifies this
      ensures |euchreDeck| == old(|euchreDeck|)
      ensures multiset(euchreDeck) == old(multiset(euchreDeck))
    {
      var k := 0;
      while k < |draws|
        invariant 0 <= k <= |draws|
        invariant |euchreDeck| == old(|euchreDeck|)
        invariant multiset(euchreDeck) == old(multiset(euchreDeck))
      {
        var i := |euchreDeck| - 1 - k;
        var j := draws[k];
        SwapKeepsCards(euchreDeck, i, j);
        euchreDeck := euchreDeck[i := euchreDeck[j]][j := euchreDeck[i]];
        k := k + 1;
      }
    }

    /**
      `deal_cards`: `split_off` the last five cards and add them to the
      player's hand. Fewer than five cards underflow `len() - 5`.
     */
    method DealCards(player: Player)
      requires |euchreDeck| >= 5
      modifies this, player
      ensures euchreDeck == old(euchreDeck)[..old(|euchreDeck|) - 5]
      ensures player.hand == old(player.hand) + old(euchreDeck)[old(|euchreDeck|) - 5..]
    {
      var at := |euchreDeck| - 5;
      var dealt := euchreDeck[at..];
      euchreDeck := euchreDeck[..at];
      player.AddCards(dealt);
    }

    /** `flip_top_card`: `pop` the last card; an empty deck panics on `unwrap`. */
    method FlipTopCard() returns (card: Card)
      requires |euchreDeck| > 0
      modifies this
      ensures card == old(euchreDeck)[old(|euchreDeck|) - 1]
      ensures euchreDeck == old(euchreDeck)[..old(|euchreDeck|) - 1]
    {
      card := euchreDeck[|euchreDeck| - 1];
      euchreDeck := euchreDeck[..|euchreDeck| - 1];
    }
  }
}
