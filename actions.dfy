/**
  The action codec of src/action.rs: the closed enumeration of the 54 moves an
  agent can submit, its discriminants, and the arithmetic that maps Play and
  Discard actions to cards and back.

  Ids 0..5 are the bidding moves, 6..29 play a card and 30..53 discard the
  same card: a Discard id is its Play id plus 24. Within a block of six the
  rank runs Ace, King, Queen, Jack, Ten, Nine and the blocks run Hearts,
  Diamonds, Spades, Clubs.
 */
module Actions {
  import opened Prelude
  import opened Cards

  /** `enum Action`, constructors in declaration order. */
  datatype Action =
    Pass | Pick | CallH | CallD | CallS | CallC
    | HAPlay | HKPlay | HQPlay | HJPlay | HTPlay | H9Play
    | DAPlay | DKPlay | DQPlay | DJPlay | DTPlay | D9Play
    | SAPlay | SKPlay | SQPlay | SJPlay | STPlay | S9Play
    | CAPlay | CKPlay | CQPlay | CJPlay | CTPlay | C9Play
    | HADiscard | HKDiscard | HQDiscard | HJDiscard | HTDiscard | H9Discard
    | DADiscard | DKDiscard | DQDiscard | DJDiscard | DTDiscard | D9Discard
    | SADiscard | SKDiscard | SQDiscard | SJDiscard | STDiscard | S9Discard
    | CADiscard | CKDiscard | CQDiscard | CJDiscard | CTDiscard | C9Discard

  /** `FlippedChoice`: what became of the face-up card in the first bidding round. */
  datatype FlippedChoice = PickedUp | TurnedDown

  /** The two `Err` strings of the codec, as values. */
  datatype CodecError =
    | NoCardMapping(action: Action)   // "The action {:?} has no mapping to a Card"
    | NoSuchAction(value: u8)         // "Integer {:?} has no corresponding Action."

  /** `action as u8`: the explicit discriminant of each constructor. */
  function Discriminant(a: Action): (v: u8)
    ensures v < 54
  {
    match a
    case Pass => 0
    case Pick => 1
    case CallH => 2
    case CallD => 3
    case CallS => 4
    case CallC => 5
    case HAPlay => 6
    case HKPlay => 7
    case HQPlay => 8
    case HJPlay => 9
    case HTPlay => 10
    case H9Play => 11
    case DAPlay => 12
    case DKPlay => 13
    case DQPlay => 14
    case DJPlay => 15
    case DTPlay => 16
    case D9Play => 17
    case SAPlay => 18
    case SKPlay => 19
    case SQPlay => 20
    case SJPlay => 21
    case STPlay => 22
    case S9Play => 23
    case CAPlay => 24
    case CKPlay => 25
    case CQPlay => 26
    case CJPlay => 27
    case CTPlay => 28
    case C9Play => 29
    case HADiscard => 30
    case HKDiscard => 31
    case HQDiscard => 32
    case HJDiscard => 33
    case HTDiscard => 34
    case H9Discard => 35
    case DADiscard => 36
    case DKDiscard => 37
    case DQDiscard => 38
    case DJDiscard => 39
    case DTDiscard => 40
    case D9Discard => 41
    case SADiscard => 42
    case SKDiscard => 43
    case SQDiscard => 44
    case SJDiscard => 45
    case STDiscard => 46
    case S9Discard => 47
    case CADiscard => 48
    case CKDiscard => 49
    case CQDiscard => 50
    case CJDiscard => 51
    case CTDiscard => 52
    case C9Discard => 53
  }

  /**
    The `i`-th constructor of `enum Action` in declaration order, as
    `Action::iter()` yields them: the constructors are declared in
    discriminant order, in nine blocks of six.
   */
  function DeclaredAt(i: int): (a: Action)
    requires 0 <= i < 54
    ensures Discriminant(a) == i
  {
    if i < 6 then BiddingAt(i)
    else if i < 12 then HeartsPlayAt(i)
    else if i < 18 then DiamondsPlayAt(i)
    else if i < 24 then SpadesPlayAt(i)
    else if i < 30 then ClubsPlayAt(i)
    else if i < 36 then HeartsDiscardAt(i)
    else if i < 42 then DiamondsDiscardAt(i)
    else if i < 48 then SpadesDiscardAt(i)
    else ClubsDiscardAt(i)
  }

  /** The bidding moves, at declaration positions 0 to 5. */
  function BiddingAt(i: int): (a: Action)
    requires 0 <= i < 6
    ensures Discriminant(a) == i
  {
    match i
    case 0 => Pass
    case 1 => Pick
    case 2 => CallH
    case 3 => CallD
    case 4 => CallS
    case _ => CallC
  }

  /** The Play moves of Hearts, at declaration positions 6 to 11. */
  function HeartsPlayAt(i: int): (a: Action)
    requires 6 <= i < 12
    ensures Discriminant(a) == i
  {
    match i
    case 6 => HAPlay
    case 7 => HKPlay
    case 8 => HQPlay
    case 9 => HJPlay
    case 10 => HTPlay
    case _ => H9Play
  }

  /** The Play moves of Diamonds, at declaration positions 12 to 17. */
  function DiamondsPlayAt(i: int): (a: Action)
    requires 12 <= i < 18
    ensures Discriminant(a) == i
  {
    match i
    case 12 => DAPlay
    case 13 => DKPlay
    case 14 => DQPlay
    case 15 => DJPlay
    case 16 => DTPlay
    case _ => D9Play
  }

  /** The Play moves of Spades, at declaration positions 18 to 23. */
  function SpadesPlayAt(i: int): (a: Action)
    requires 18 <= i < 24
    ensures Discriminant(a) == i
  {
    match i
    case 18 => SAPlay
    case 19 => SKPlay
    case 20 => SQPlay
    case 21 => SJPlay
    case 22 => STPlay
    case _ => S9Play
  }

  /** The Play moves of Clubs, at declaration positions 24 to 29. */
  function ClubsPlayAt(i: int): (a: Action)
    requires 24 <= i < 30
    ensures Discriminant(a) == i
  {
    match i
    case 24 => CAPlay
    case 25 => CKPlay
    case 26 => CQPlay
    case 27 => CJPlay
    case 28 => CTPlay
    case _ => C9Play
  }

  /** The Discard moves of Hearts, at declaration positions 30 to 35. */
  function HeartsDiscardAt(i: int): (a: Action)
    requires 30 <= i < 36
    ensures Discriminant(a) == i
  {
    match i
    case 30 => HADiscard
    case 31 => HKDiscard
    case 32 => HQDiscard
    case 33 => HJDiscard
    case 34 => HTDiscard
    case _ => H9Discard
  }

  /** The Discard moves of Diamonds, at declaration positions 36 to 41. */
  function DiamondsDiscardAt(i: int): (a: Action)
    requires 36 <= i < 42
    ensures Discriminant(a) == i
  {
    match i
    case 36 => DADiscard
    case 37 => DKDiscard
    case 38 => DQDiscard
    case 39 => DJDiscard
    case 40 => DTDiscard
    case _ => D9Discard
  }

  /** The Discard moves of Spades, at declaration positions 42 to 47. */
  function SpadesDiscardAt(i: int): (a: Action)
    requires 42 <= i < 48
    ensures Discriminant(a) == i
  {
    match i
    case 42 => SADiscard
    case 43 => SKDiscard
    case 44 => SQDiscard
    case 45 => SJDiscard
    case 46 => STDiscard
    case _ => S9Discard
  }

  /** The Discard moves of Clubs, at declaration positions 48 to 53. */
  function ClubsDiscardAt(i: int): (a: Action)
    requires 48 <= i < 54
    ensures Discriminant(a) == i
  {
    match i
    case 48 => CADiscard
    case 49 => CKDiscard
    case 50 => CQDiscard
    case 51 => CJDiscard
    case 52 => CTDiscard
    case _ => C9Discard
  }

  /** Every constructor is yielded by `Action::iter()`, at the position of its discriminant. */
  lemma EveryActionDeclared()
    ensures forall a :: DeclaredAt(Discriminant(a)) == a
  {
  }

  /** The discriminant identifies the action. */
  lemma DiscriminantInjective(a: Action, b: Action)
    ensures Discriminant(a) == Discriminant(b) ==> a == b
  {
    EveryActionDeclared();
  }

  // ---------------------------------------------------------------------
  // from_integer
  // ---------------------------------------------------------------------

  /**
    The `for act in Action::iter()` search of `from_integer`, resumed at
    declaration position `k`: the first constructor from there on whose
    discriminant is `val`.
   */
  function FindAction(k: nat, val: u8): (r: Result<Action, CodecError>)
    requires k <= 54
    ensures r.Ok? <==> exists i :: k <= i < 54 && Discriminant(DeclaredAt(i)) == val
    ensures r.Ok? ==> Discriminant(r.value) == val
    ensures r.Err? ==> r == Err(NoSuchAction(val))
    decreases 54 - k
  {
    if k == 54 then Err(NoSuchAction(val))
    else if Discriminant(DeclaredAt(k)) == val then Ok(DeclaredAt(k))
    else FindAction(k + 1, val)
  }

  /** `from_integer`: the action whose discriminant is `val`, if there is one. */
  function FromInteger(val: u8): (r: Result<Action, CodecError>)
    ensures val < 54 ==> r.Ok? && Discriminant(r.value) == val
    ensures 54 <= val ==> r == Err(NoSuchAction(val))
  {
    assert val < 54 ==> Discriminant(DeclaredAt(val)) == val;
    FindAction(0, val)
  }

  /** Decoding an action's discriminant gives the action back. */
  lemma FromIntegerInverse(a: Action)
    ensures FromInteger(Discriminant(a)) == Ok(a)
  {
    DiscriminantInjective(FromInteger(Discriminant(a)).value, a);
  }

  /** The `action_from_int` test: 13 decodes to `DKPlay` and 0 to `Pass`. */
  lemma ActionFromInt()
    ensures Discriminant(DKPlay) == 13 && FromInteger(Discriminant(DKPlay)) == Ok(DKPlay)
    ensures FromInteger(0) == Ok(Pass)
  {
    FromIntegerInverse(DKPlay);
    FromIntegerInverse(Pass);
  }

  /** The `action_from_invalid_int` test. */
  lemma ActionFromInvalidInt()
    ensures FromInteger(54) == Err(NoSuchAction(54))
  {
  }

  // ---------------------------------------------------------------------
  // action_to_card
  // ---------------------------------------------------------------------

  /** The rank match of `action_to_card`; any other number panics. */
  function RankOfNum(n: u8): (r: Rank)
    requires n <= 5
    ensures r.IsConcrete() && RankNum(r) == n
  {
    if n == 0 then Ace
    else if n == 1 then King
    else if n == 2 then Queen
    else if n == 3 then Jack
    else if n == 4 then Ten
    else Nine
  }

  /** The suit match of `action_to_card`; any other number panics. */
  function SuitOfNum(n: u8): (s: Suit)
    requires 1 <= n <= 4
    ensures s.IsConcrete() && SuitNum(s) == n
  {
    if n == 1 then Hearts
    else if n == 2 then Diamonds
    else if n == 3 then Spades
    else Clubs
  }

  /**
    The arithmetic of `action_to_card` on a Play or Discard discriminant:
    the rank is `num % 6`, and the suit is `num / 6` once a Discard number has
    been moved back into the Play range by `+ 6` and `% 30`. The
    preconditions of `RankOfNum` and `SuitOfNum` hold, so neither panic is
    reachable.
   */
  function CardOfNum(num: u8): (c: Card)
    requires 6 <= num <= 53
    ensures c.IsConcrete()
  {
    var numRank: u8 := num % 6;
    var shifted: u8 := if num > 29 then num + 6 else num;
    var numSuit: u8 := (shifted % 30) / 6;
    Card(SuitOfNum(numSuit), RankOfNum(numRank))
  }

  /** `action_to_card`: the card a Play or Discard action names, and an error for the six bidding actions. */
  function ActionToCard(action: Action): (r: Result<Card, CodecError>)
    ensures r.Err? <==> Discriminant(action) < 6
    ensures r.Err? ==> r.error == NoCardMapping(action)
    ensures r.Ok? ==> r.value.IsConcrete()
  {
    var num: u8 := Discriminant(action);
    if num < 6 then Err(NoCardMapping(action)) else Ok(CardOfNum(num))
  }

  /** A Discard number names the same card as the Play number 24 below it. */
  lemma DiscardOffsetKeepsCard(num: u8)
    requires 6 <= num <= 29
    ensures CardOfNum(num + 24) == CardOfNum(num)
  {
  }

  /** The Play and the Discard action of one card name the same card. */
  lemma PlayAndDiscardAgree(play: Action, discard: Action)
    requires 6 <= Discriminant(play) <= 29
    requires Discriminant(discard) == Discriminant(play) + 24
    ensures ActionToCard(play).Ok?
    ensures ActionToCard(play) == ActionToCard(discard)
  {
    DiscardOffsetKeepsCard(Discriminant(play));
  }

  /** The `action_to_card` test. */
  lemma ActionToCardExamples()
    ensures ActionToCard(C9Discard) == ActionToCard(C9Play) == Ok(Card(Clubs, Nine))
    ensures ActionToCard(HADiscard) == ActionToCard(HAPlay) == Ok(Card(Hearts, Ace))
  {
    assert Discriminant(C9Play) == 29 && Discriminant(C9Discard) == 53;
    assert Discriminant(HAPlay) == 6 && Discriminant(HADiscard) == 30;
    assert CardOfNum(29) == CardOfNum(53) == Card(Clubs, Nine);
    assert CardOfNum(6) == CardOfNum(30) == Card(Hearts, Ace);
  }

  // ---------------------------------------------------------------------
  // card_to_action
  // ---------------------------------------------------------------------

  /** The suit match of `card_to_action`; `Unset` panics. */
  function SuitNum(s: Suit): (n: u8)
    requires s.IsConcrete()
    ensures 1 <= n <= 4
  {
    match s
    case Hearts => 1
    case Diamonds => 2
    case Spades => 3
    case Clubs => 4
  }

  /** The rank match of `card_to_action`; `Unset` panics. */
  function RankNum(r: Rank): (n: u8)
    requires r.IsConcrete()
    ensures n <= 5
  {
    match r
    case Ace => 0
    case King => 1
    case Queen => 2
    case Jack => 3
    case Ten => 4
    case Nine => 5
  }

  /**
    The number `card_to_action` builds: rank number, plus six times the suit
    number, plus 24 for a Discard. It lies in 6..29 for a Play and in 30..53
    for a Discard, so it never overflows a `u8`.
   */
  function NumOfCard(card: Card, isPlay: bool): (num: u8)
    requires card.IsConcrete()
    ensures 6 <= num <= 53
    ensures isPlay <==> num <= 29
  {
    var suitNum: u8 := SuitNum(card.suit);
    var rankNum: u8 := RankNum(card.rank);
    var discardOffset: u8 := if isPlay then 0 else 24;
    rankNum + suitNum * 6 + discardOffset
  }

  /** `card_to_action`: the Play (`isPlay`) or Discard action of a card; the `unwrap` never panics. */
  function CardToAction(card: Card, isPlay: bool): (a: Action)
    requires card.IsConcrete()
    ensures Discriminant(a) == NumOfCard(card, isPlay)
  {
    FromInteger(NumOfCard(card, isPlay)).value
  }

  /** Decoding the number of a card gives the card back. */
  lemma CardOfNumOfCard(c: Card, isPlay: bool)
    requires c.IsConcrete()
    ensures CardOfNum(NumOfCard(c, isPlay)) == c
  {
    var num := NumOfCard(c, isPlay);
    var play := RankNum(c.rank) + SuitNum(c.suit) * 6;
    assert play % 6 == RankNum(c.rank);
    assert play / 6 == SuitNum(c.suit);
    if !isPlay {
      assert (num + 6) % 30 == play;
    }
  }

  /** Encoding the card a number names, as the same kind of action, gives the number back. */
  lemma NumOfCardOfNum(num: u8)
    requires 6 <= num <= 53
    ensures NumOfCard(CardOfNum(num), num <= 29) == num
  {
    var play: int := if num <= 29 then num else num - 24;
    assert play == (if num > 29 then num + 6 else num) % 30;
    assert num % 6 == play % 6;
    assert play == play % 6 + 6 * (play / 6);
    var c := CardOfNum(num);
    assert RankNum(c.rank) == play % 6 && SuitNum(c.suit) == play / 6;
  }

  /** Encoding a concrete card and decoding the action gives the card back. */
  lemma CardRoundTrip(c: Card, isPlay: bool)
    requires c.IsConcrete()
    ensures ActionToCard(CardToAction(c, isPlay)) == Ok(c)
  {
    CardOfNumOfCard(c, isPlay);
  }

  /** Decoding a Play or Discard action and encoding the card, as the same kind, gives the action back. */
  lemma ActionRoundTrip(a: Action)
    requires 6 <= Discriminant(a)
    ensures ActionToCard(a).Ok?
    ensures CardToAction(ActionToCard(a).value, Discriminant(a) <= 29) == a
  {
    NumOfCardOfNum(Discriminant(a));
    DiscriminantInjective(a, CardToAction(ActionToCard(a).value, Discriminant(a) <= 29));
  }
}
