/**
  Cards of a 24-card Euchre deck: suits, ranks, the two bower predicates,
  the two-letter text form and the fixed iteration orders of src/card.rs.

  One `Suit`/`Rank`/`Card` type is shared by every module. Both enumerations
  carry the `Unset` sentinel that the action codec has to reject; every
  operation that the Rust code cannot perform on it says so in a `requires`.
 */
module Cards {

  datatype Suit = Spades | Clubs | Hearts | Diamonds | Unset {
    predicate IsConcrete() { this != Suit.Unset }
  }

  datatype Rank = Nine | Ten | Jack | Queen | King | Ace | Unset {
    predicate IsConcrete() { this != Rank.Unset }
  }

  datatype Card = Card(suit: Suit, rank: Rank) {
    predicate IsConcrete() { suit.IsConcrete() && rank.IsConcrete() }
  }

  // ---------------------------------------------------------------------
  // Bowers
  // ---------------------------------------------------------------------

  /** The constant map `is_left` builds: each suit to the other suit of its colour. */
  const ColourPartner: map<Suit, Suit> :=
    map[Diamonds := Hearts, Hearts := Diamonds, Clubs := Spades, Spades := Clubs]

  /** The colour partner of a concrete suit: its entry in the `is_left` table. */
  function SameColour(s: Suit): (p: Suit)
    requires s.IsConcrete()
    ensures p.IsConcrete() && p != s
  {
    ColourPartner[s]
  }

  /**
    `is_left`: a Jack whose colour partner is the trump suit. The lookup
    unwraps, so a Jack of the `Unset` suit would panic.
   */
  predicate IsLeft(c: Card, trump: Suit): (b: bool)
    requires c.rank == Jack ==> c.suit in ColourPartner
    ensures b ==> c.rank == Jack && c.suit != trump
  {
    c.rank == Jack && ColourPartner[c.suit] == trump
  }

  /** `is_right`: the Jack of the trump suit. */
  predicate IsRight(c: Card, trump: Suit): (b: bool)
    ensures b && c.suit.IsConcrete() ==> !IsLeft(c, trump)
  {
    c.suit == trump && c.rank == Jack
  }

  /** The lookup table of `is_left` is defined exactly on the concrete suits, so its `unwrap` panics only on `Unset`. */
  lemma ColourPartnerDomain(s: Suit)
    ensures s in ColourPartner <==> s.IsConcrete()
  {
  }

  /** Pairing by colour is an involution without a fixed point. */
  lemma SameColourInvolution(s: Suit)
    requires s.IsConcrete()
    ensures SameColour(SameColour(s)) == s
    ensures SameColour(s) != s
  {
  }

  /**
    The rule of the game that `is_left`'s table encodes: the left bower is the
    Jack of the other concrete suit of trump's colour, red being Diamonds and
    Hearts.
   */
  lemma LeftBowerCharacterised(c: Card, trump: Suit)
    requires c.suit.IsConcrete()
    ensures IsLeft(c, trump) <==>
      && c.rank == Jack && trump.IsConcrete() && c.suit != trump
      && (c.suit in {Diamonds, Hearts} <==> trump in {Diamonds, Hearts})
  {
  }

  /** For a concrete trump there is exactly one right bower and exactly one left bower. */
  lemma BowersUnique(c: Card, trump: Suit)
    requires trump.IsConcrete() && c.suit.IsConcrete()
    ensures IsRight(c, trump) <==> c == Card(trump, Jack)
    ensures IsLeft(c, trump) <==> c == Card(SameColour(trump), Jack)
  {
  }

  /** No card is both bowers for the same trump. */
  lemma NotBothBowers(c: Card, trump: Suit)
    requires c.suit.IsConcrete()
    ensures !(IsLeft(c, trump) && IsRight(c, trump))
  {
  }

  // ---------------------------------------------------------------------
  // Display
  // ---------------------------------------------------------------------

  /** `Display for Suit`: one upper-case letter. */
  function SuitLetter(s: Suit): (l: char)
    requires s.IsConcrete()
    ensures l == 'S' || l == 'C' || l == 'H' || l == 'D'
  {
    match s
    case Spades => 'S'
    case Clubs => 'C'
    case Hearts => 'H'
    case Diamonds => 'D'
  }

  /** `Display for Rank`: one letter or digit. */
  function RankLetter(r: Rank): (l: char)
    requires r.IsConcrete()
    ensures l == '9' || l == 'T' || l == 'J' || l == 'Q' || l == 'K' || l == 'A'
  {
    match r
    case Nine => '9'
    case Ten => 'T'
    case Jack => 'J'
    case Queen => 'Q'
    case King => 'K'
    case Ace => 'A'
  }

  /** `Display for Card`: the suit letter followed by the rank letter. */
  function CardText(c: Card): (t: string)
    requires c.IsConcrete()
    ensures |t| == 2 && t[0] in {'S', 'C', 'H', 'D'} && t[1] in {'9', 'T', 'J', 'Q', 'K', 'A'}
  {
    [SuitLetter(c.suit), RankLetter(c.rank)]
  }

  /** Distinct suits print distinctly, and so do distinct ranks. */
  lemma LettersInjective(s1: Suit, s2: Suit, r1: Rank, r2: Rank)
    requires s1.IsConcrete() && s2.IsConcrete() && r1.IsConcrete() && r2.IsConcrete()
    ensures SuitLetter(s1) == SuitLetter(s2) ==> s1 == s2
    ensures RankLetter(r1) == RankLetter(r2) ==> r1 == r2
  {
  }

  /** A card's text has two characters, and it determines the card. */
  lemma CardTextInjective(a: Card, b: Card)
    requires a.IsConcrete() && b.IsConcrete()
    ensures |CardText(a)| == 2
    ensures CardText(a) == CardText(b) ==> a == b
  {
    LettersInjective(a.suit, b.suit, a.rank, b.rank);
  }

  /** Printing a card is printing its suit and then its rank (the `print_cards` test). */
  lemma CardTextIsSuitThenRank(c: Card)
    requires c.IsConcrete()
    ensures CardText(c) == SuitsText([c.suit]) + RanksText([c.rank])
  {
  }

  // ---------------------------------------------------------------------
  // Iteration orders
  // ---------------------------------------------------------------------

  /** The static array behind `Suit::iterator`. */
  const SuitIterator: seq<Suit> := [Spades, Clubs, Hearts, Diamonds]

  /** The static array behind `Rank::iterator`. */
  const RankIterator: seq<Rank> := [Nine, Ten, Jack, Queen, King, Ace]

  /** The text of printing each suit of `ss` in turn. */
  function SuitsText(ss: seq<Suit>): (t: string)
    requires forall i :: 0 <= i < |ss| ==> ss[i].IsConcrete()
    ensures |t| == |ss|
    ensures forall i :: 0 <= i < |ss| ==> t[i] == SuitLetter(ss[i])
  {
    if ss == [] then "" else [SuitLetter(ss[0])] + SuitsText(ss[1..])
  }

  /** The text of printing each rank of `rs` in turn. */
  function RanksText(rs: seq<Rank>): (t: string)
    requires forall i :: 0 <= i < |rs| ==> rs[i].IsConcrete()
    ensures |t| == |rs|
    ensures forall i :: 0 <= i < |rs| ==> t[i] == RankLetter(rs[i])
  {
    if rs == [] then "" else [RankLetter(rs[0])] + RanksText(rs[1..])
  }

  /** The `print_suits` and `print_ranks` tests. */
  lemma IteratorsPrint()
    ensures SuitsText(SuitIterator) == "SCHD"
    ensures RanksText(RankIterator) == "9TJQKA"
  {
  }

  /** Each iterator lists every concrete value exactly once, and nothing else. */
  lemma IteratorsEnumerate()
    ensures forall s: Suit :: s in SuitIterator <==> s.IsConcrete()
    ensures forall r: Rank :: r in RankIterator <==> r.IsConcrete()
    ensures forall i, j :: 0 <= i < j < |SuitIterator| ==> SuitIterator[i] != SuitIterator[j]
    ensures forall i, j :: 0 <= i < j < |RankIterator| ==> RankIterator[i] != RankIterator[j]
  {
  }
}
