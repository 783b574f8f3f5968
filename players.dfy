/**
  A seat at the table. The hand-bearing `Player` that src/dealer.rs and
  src/game/mod.rs call (`Player::new(id)`, `add_cards`, `hand_ref`) is
  reconstructed here from those call sites: a seat id and a hand that those
  callers grow in place.
 */
module Players {
  import opened Prelude
  import opened Cards

  class Player {
    const id: u8
    var hand: seq<Card>

    /** `Player::new(id)`: an empty hand. */
    constructor (id: u8)
      ensures this.id == id && hand == []
    {
      this.id := id;
      hand := [];
    }

    /** `add_cards`: the cards are moved onto the end of the hand, in order. */
    method AddCards(cards: seq<Card>)
      modifies this
      ensures hand == old(hand) + cards
    {
      hand := hand + cards;
    }

    /** `hand_ref().push(card)`. */
    method Push(card: Card)
      modifies this
      ensures hand == old(hand) + [card]
    {
      hand := hand + [card];
    }
  }
}
