/**
  The game driver of src/game/mod.rs: an `EuchreGame` object whose seats,
  current turn and trump-bidding state change as actions are stepped.

  The generator that `determine_dealer(None)` draws from is replaced by a
  parameter `drawn`. Every field the Rust struct has is kept, except the
  stateless `judger`.
 */
module Game {
  import opened Prelude
  import opened Cards
  import opened Actions
  import opened Decks
  import opened Players
  import opened Dealing

  /** `ScopedGameState`: the game as the current player sees it. */
  datatype ScopedGameState = ScopedGameState(
    dealerActor: u8,
    currentActor: u8,
    hand: seq<Card>,
    callingActor: Option<u8>,
    flippedChoice: Option<FlippedChoice>,
    flippedCard: Card,
    trump: Option<Suit>,
    ledSuit: Option<Suit>,
    order: seq<u8>,
    center: Option<seq<Card>>,
    previousPlayed: seq<seq<Card>>)

  /**
    `determine_dealer`: a chosen seat is kept (and must be below 4, else the
    assertion panics); with no choice, the seat the generator drew from
    `0..=3`.
   */
  function DetermineDealer(choice: Option<u8>, drawn: u8): (d: u8)
    requires choice.Some? ==> choice.value < 4
    requires choice.None? ==> drawn < 4
    ensures d < 4
    ensures choice.Some? ==> d == choice.value
  {
    match choice
    case Some(num) => num
    case None => drawn
  }

  /** The `get_dealer_valid_dealer` test. */
  lemma DetermineDealerExamples(drawn: u8)
    requires drawn < 4
    ensures DetermineDealer(Some(2), drawn) == 2
    ensures DetermineDealer(None, drawn) < 4
  {
  }

  /**
    `order_starting_from`: the four seats in playing order, starting with
    `player` and moving each time to the seat on the left. The seat must be
    one of 0 to 3.
   */
  function OrderStartingFrom(player: u8): (order: seq<u8>)
    requires player < 4
    ensures |order| == 4 && order[0] == player
    ensures forall k :: 0 <= k < 3 ==> order[k + 1] as int == (order[k] as int + 1) % 4
    ensures Distinct(order)
    ensures forall s: u8 :: s in order <==> s < 4
  {
    var order: seq<u8> := [player, (player + 1) % 4, (player + 2) % 4, (player + 3) % 4];
    assert order in {[0, 1, 2, 3], [1, 2, 3, 0], [2, 3, 0, 1], [3, 0, 1, 2]} by {
      if player == 0 {
        assert order == [0, 1, 2, 3];
      } else if player == 1 {
        assert order == [1, 2, 3, 0];
      } else if player == 2 {
        assert order == [2, 3, 0, 1];
      } else {
        assert order == [3, 0, 1, 2];
      }
    }
    order
  }

  /** After the first seat has acted, the order starting from the next seat is the old order rotated by one. */
  lemma OrderRotates(player: u8)
    requires player < 4
    ensures OrderStartingFrom(OrderStartingFrom(player)[1]) == OrderStartingFrom(player)[1..] + [player]
  {
  }

  /** The hand dealt to seat `p` by a fresh game: the `deal_cards` loop takes five cards from the top for each seat in turn. */
  function InitialHand(p: nat): (hand: seq<Card>)
    requires p < 4
    ensures |hand| == 5
  {
    EuchreDeck()[19 - 5 * p..24 - 5 * p]
  }

  /** Dealing to seat `i` takes its hand off the top of what the earlier seats left. */
  lemma DealtFromTop(i: nat)
    requires i < 4
    ensures EuchreDeck()[..24 - 5 * i][19 - 5 * i..] == InitialHand(i)
    ensures EuchreDeck()[..24 - 5 * i][..19 - 5 * i] == EuchreDeck()[..24 - 5 * (i + 1)]
  {
  }

  /**
    A fresh game's hands hold five concrete cards each, no card is in two
    hands, and the card turned up is in none of them.
   */
  lemma InitialHandsDisjoint(p: nat, q: nat)
    requires p < 4 && q < 4
    ensures forall c :: c in InitialHand(p) ==> c.IsConcrete()
    ensures p != q ==> forall c :: c in InitialHand(p) ==> c !in InitialHand(q)
    ensures EuchreDeck()[3] !in InitialHand(p)
  {
    EuchreDeckLayout();
    var e := EuchreDeck();
    forall c | c in InitialHand(p) ensures c.IsConcrete() && c != e[3] && (p != q ==> c !in InitialHand(q)) {
      var i :| 0 <= i < 5 && InitialHand(p)[i] == c;
      assert e[19 - 5 * p + i] == c;
      if p != q {
        forall j | 0 <= j < 5 ensures InitialHand(q)[j] != c {
          assert InitialHand(q)[j] == e[19 - 5 * q + j];
        }
      }
    }
  }

  /** No hand of a fresh game holds a card twice. */
  lemma InitialHandDistinct(p: nat)
    requires p < 4
    ensures Distinct(InitialHand(p))
  {
    EuchreDeckLayout();
    var e := EuchreDeck();
    forall i, j | 0 <= i < j < 5 ensures InitialHand(p)[i] != InitialHand(p)[j] {
      assert InitialHand(p)[i] == e[19 - 5 * p + i] && InitialHand(p)[j] == e[19 - 5 * p + j];
    }
  }

  /**
    Dealing a fresh game loses and duplicates no card: the deck is the three
    cards left at the bottom, the one turned up and the four hands of five.
   */
  lemma DealConservesDeck()
    ensures multiset(EuchreDeck()) ==
      multiset(EuchreDeck()[..3]) + multiset{EuchreDeck()[3]}
      + multiset(InitialHand(0)) + multiset(InitialHand(1)) + multiset(InitialHand(2)) + multiset(InitialHand(3))
  {
    var e := EuchreDeck();
    assert e == e[..3] + [e[3]] + InitialHand(3) + InitialHand(2) + InitialHand(1) + InitialHand(0);
  }

  /** The card a fresh game turns up is the Queen of Diamonds: the deck is not shuffled before dealing. */
  lemma InitialFlippedCard()
    ensures EuchreDeck()[3] == Card(Diamonds, Queen)
  {
    EuchreDeckLayout();
  }

  /**
    The `for player in &mut players` loop of `EuchreGame::new`: five cards
    from the top of a fresh deck to each seat in turn.
   */
  method DealAround(d: Dealer, seats: seq<Player>)
    requires d.euchreDeck == EuchreDeck()
    requires |seats| == 4 && forall p :: 0 <= p < 4 ==> seats[p].hand == []
    requires forall a, b :: 0 <= a < b < 4 ==> seats[a] != seats[b]
    modifies d, seats
    ensures d.euchreDeck == EuchreDeck()[..4]
    ensures forall p :: 0 <= p < 4 ==> seats[p].hand == InitialHand(p)
  {
    for i := 0 to 4
      invariant d.euchreDeck == EuchreDeck()[..24 - 5 * i]
      invariant forall p :: 0 <= p < i ==> seats[p].hand == InitialHand(p)
      invariant forall p :: i <= p < 4 ==> seats[p].hand == []
    {
      DealtFromTop(i);
      d.DealCards(seats[i]);
    }
  }

  class EuchreGame {
    var isOver: bool
    const players: seq<Player>
    var currPlayerId: u8
    var dealerId: u8
    const dealer: Dealer

    var flippedCard: Card
    var flippedChoice: Option<FlippedChoice>
    var callingPlayerId: Option<u8>
    var previousPlayed: seq<seq<Card>>
    var center: Option<seq<Card>>
    var order: seq<u8>
    var trump: Option<Suit>
    var ledSuit: Option<Suit>

    /** Four seats, seat `i` holding the player with id `i`; the turn and the dealer are seats. */
    ghost predicate Valid()
      reads this
    {
      && |players| == 4
      && (forall i :: 0 <= i < 4 ==> players[i].id as int == i)
      && currPlayerId < 4
      && dealerId < 4
      && |previousPlayed| == 4
      && |order| == 4
    }

    /**
      `EuchreGame::new`: pick the dealer, deal five cards to each seat from an
      unshuffled fresh deck and turn up the next card. The game then stores a
      second, fresh `Dealer`, not the one it dealt from.
     */
    constructor (choice: Option<u8>, drawn: u8)
      requires choice.Some? ==> choice.value < 4
      requires choice.None? ==> drawn < 4
      ensures Valid()
      ensures !isOver
      ensures dealerId == DetermineDealer(choice, drawn) && currPlayerId == (dealerId + 1) % 4
      ensures forall p :: 0 <= p < 4 ==> players[p].hand == InitialHand(p)
      ensures flippedCard == EuchreDeck()[3]
      ensures fresh(dealer) && dealer.euchreDeck == EuchreDeck()
      ensures flippedChoice == None && callingPlayerId == None && trump == None && ledSuit == None
      ensures previousPlayed == [[], [], [], []] && center == None
      ensures order == OrderStartingFrom(currPlayerId)
    {
      var dealId := DetermineDealer(choice, drawn);
      var currId: u8 := (dealId + 1) % 4;
      var d := new Dealer();
      var p0 := new Player(0);
      var p1 := new Player(1);
      var p2 := new Player(2);
      var p3 := new Player(3);
      var seats := [p0, p1, p2, p3];
      DealAround(d, seats);
      assert |EuchreDeck()| == 24;
      var flipped := d.FlipTopCard();
      assert flipped == EuchreDeck()[3];
      var stored := new Dealer();

      isOver := false;
      players := seats;
      dealer := stored;
      currPlayerId := currId;
      dealerId := dealId;
      flippedCard := flipped;
      flippedChoice := None;
      callingPlayerId := None;
      previousPlayed := [[], [], [], []];
      center := None;
      order := OrderStartingFrom(currId);
      trump := None;
      ledSuit := None;
    }

    /** `get_state`: the public fields, and the hand of the player whose turn it is and no other. */
    function GetState(): (s: ScopedGameState)
      requires Valid()
      reads this, players
      ensures s.currentActor == currPlayerId && s.hand == players[currPlayerId].hand
      ensures players[s.currentActor].id == s.currentActor
      ensures s.dealerActor == dealerId && s.callingActor == callingPlayerId
      ensures s.flippedChoice == flippedChoice && s.flippedCard == flippedCard
      ensures s.trump == trump && s.ledSuit == ledSuit
      ensures s.order == order && s.center == center && s.previousPlayed == previousPlayed
    {
      ScopedGameState(
        dealerActor := dealerId,
        currentActor := currPlayerId,
        hand := players[currPlayerId].hand,
        callingActor := callingPlayerId,
        flippedChoice := flippedChoice,
        flippedCard := flippedCard,
        trump := trump,
        ledSuit := ledSuit,
        order := order,
        center := center,
        previousPlayed := previousPlayed)
    }

    /** `see_next_player`: the seat on the current player's left, the second in the order starting from the current player. */
    function SeeNextPlayer(): (n: u8)
      requires currPlayerId < 255
      reads this
      ensures n < 4
      ensures currPlayerId < 4 ==> n == OrderStartingFrom(currPlayerId)[1] && n != currPlayerId
    {
      (currPlayerId + 1) % 4
    }

    /** The fields no bidding action touches. */
    twostate predicate KeepsTable()
      reads this
    {
      && isOver == old(isOver)
      && dealerId == old(dealerId)
      && flippedCard == old(flippedCard)
      && previousPlayed == old(previousPlayed)
      && center == old(center)
      && order == old(order)
      && ledSuit == old(ledSuit)
    }

    /** `increment_player`: the turn passes to the seat on the left; nothing else changes. */
    method IncrementPlayer()
      requires currPlayerId < 255
      modifies this
      ensures currPlayerId == old(SeeNextPlayer())
      ensures KeepsTable()
      ensures flippedChoice == old(flippedChoice) && callingPlayerId == old(callingPlayerId) && trump == old(trump)
    {
      currPlayerId := SeeNextPlayer();
    }

    /**
      The effect of `Pick`: the dealer takes the turned-up card into hand,
      its suit becomes trump, the card counts as picked up, the player who
      ordered it up is the caller, and the turn moves to the dealer. No other
      hand changes.
     */
    twostate predicate Picked()
      requires old(Valid()) && Valid()
      reads this, players
    {
      && KeepsTable()
      && players[dealerId].hand == old(players[dealerId].hand) + [flippedCard]
      && (forall p :: 0 <= p < 4 && p != dealerId as int ==> players[p].hand == old(players[p].hand))
      && trump == Some(flippedCard.suit)
      && flippedChoice == Some(PickedUp)
      && callingPlayerId == Some(old(currPlayerId))
      && currPlayerId == dealerId
    }

    /**
      The effect of `Pass`: the turn moves to the left, and when the dealer
      passes the turned-up card is turned down. No hand changes.
     */
    twostate predicate Passed()
      requires old(Valid()) && Valid()
      reads this, players
    {
      && KeepsTable()
      && (forall p :: 0 <= p < 4 ==> players[p].hand == old(players[p].hand))
      && currPlayerId == OrderStartingFrom(old(currPlayerId))[1]
      && flippedChoice == (if old(currPlayerId) == dealerId then Some(TurnedDown) else old(flippedChoice))
      && callingPlayerId == old(callingPlayerId)
      && trump == old(trump)
    }

    /** `perform_pick_action`. */
    method PerformPickAction()
      requires Valid()
      modifies this, players[dealerId]
      ensures Valid() && Picked()
    {
      players[dealerId].Push(flippedCard);
      trump := Some(flippedCard.suit);
      flippedChoice := Some(PickedUp);
      callingPlayerId := Some(currPlayerId);
      currPlayerId := dealerId;
    }

    /**
      `perform_pick_action` as written. `hand_ref()` hands out the hand by
      value (`get_state` stores its result as an owned `Vec<Card>`), so the
      push lands on a copy: every other effect of `Pick` happens, but the
      dealer's hand keeps its five cards.
     */
    method PerformPickActionAsWritten()
      requires Valid()
      modifies this
      ensures Valid() && KeepsTable()
      ensures forall p :: 0 <= p < 4 ==> players[p].hand == old(players[p].hand)
      ensures flippedCard !in old(players[dealerId].hand) ==> flippedCard !in players[dealerId].hand
      ensures trump == Some(flippedCard.suit) && flippedChoice == Some(PickedUp)
      ensures callingPlayerId == Some(old(currPlayerId)) && currPlayerId == dealerId
    {
      var discardedCopy := players[dealerId].hand + [flippedCard];
      trump := Some(flippedCard.suit);
      flippedChoice := Some(PickedUp);
      callingPlayerId := Some(currPlayerId);
      currPlayerId := dealerId;
    }

    /** `perform_pass_action`. */
    method PerformPassAction()
      requires Valid()
      modifies this
      ensures Valid() && Passed()
    {
      if currPlayerId == dealerId {
        flippedChoice := Some(TurnedDown);
      }
      IncrementPlayer();
    }

    /**
      `step`: `Pick` and `Pass` are performed; calling, discarding and playing
      change nothing yet. A play unwraps `center`, so it requires a trick to
      have been started. Returns the new state and the seat to act next.
     */
    method Step(action: Action) returns (state: ScopedGameState, actor: u8)
      requires Valid()
      requires 6 <= Discriminant(action) <= 29 ==> center.Some?
      modifies this, players[dealerId]
      ensures Valid()
      ensures state == GetState() && actor == currPlayerId
      ensures action == Pick ==> Picked()
      ensures action == Pass ==> Passed()
      ensures action != Pick && action != Pass ==>
        && KeepsTable()
        && currPlayerId == old(currPlayerId)
        && flippedChoice == old(flippedChoice)
        && callingPlayerId == old(callingPlayerId)
        && trump == old(trump)
        && (forall p :: 0 <= p < 4 ==> players[p].hand == old(players[p].hand))
    {
      if action == Pick {
        PerformPickAction();
      } else if action == Pass {
        PerformPassAction();
      } else if Discriminant(action) < 6 {
      } else if Discriminant(action) > 29 {
      } else {
        if |center.value| == 4 {
        }
      }
      state := GetState();
      actor := currPlayerId;
    }
  }
}
