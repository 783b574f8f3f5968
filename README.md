# Euchre rules engine — a verified Dafny model

This project models the rules engine of `euchre-rs`, a Rust simulator of the
four-player trick-taking card game Euchre. It covers the following parts:

- the 24-card deck of concrete suits and ranks, the two bowers and the two-letter card text (`src/card.rs`);
- the action space: 54 numbered moves with a card codec between Play/Discard moves and cards (`src/action.rs`);
- building the deck (`src/deck.rs`);
- the dealer, who owns the deck vector and shuffles, deals and flips from its end (`src/dealer.rs`);
- the judger, who decides who takes a trick and what a finished round is worth (`src/judger.rs`);
- the `EuchreGame` object: its setup, the player's view of it, and the bidding moves Pick and Pass (`src/game/mod.rs`).

The model has one Dafny module per source file:

| file | module | models |
|---|---|---|
| `prelude.dfy` | `Prelude` | `u8`, `Option`, `Result` |
| `cards.dfy` | `Cards` | `src/card.rs` |
| `actions.dfy` | `Actions` | `src/action.rs` |
| `deck.dfy` | `Decks` | `src/deck.rs`, and the deck loop shared with the dealer |
| `players.dfy` | `Players` | the hand-holding seat that the dealer and the game call |
| `dealer.dfy` | `Dealing` | `src/dealer.rs` |
| `judger.dfy` | `Judging` | `src/judger.rs` |
| `game.dfy` | `Game` | `src/game/mod.rs` and the `ScopedGameState` record |

The parts of the code that compute values are Dafny functions with lemmas about them:

- the codec;
- the bower predicates;
- `order_starting_from`;
- `judge_round`.

The parts of the code that work step by step are Dafny methods proved against specification functions:

- the nested push loops that build the deck, against `Combos`;
- the trick loop of `judge_trick`, against `WinningPosition`.

The objects whose fields change in place are classes:

- `Dealer`, `Player` and `EuchreGame` have `modifies` frames.
- Their methods state the whole new state.

Panics in the source become preconditions. Each of these is a precondition:

- an `unwrap` of `None`;
- `u8` overflow;
- `len() - 5` underflow;
- `assert!(num < 4)`;
- a match arm that panics.

Errors that the source returns as `Err` are modelled as `Result` values. The `Unset` sentinel of `Suit` and `Rank` is kept. The operations that panic on it require a concrete card.

Two iteration orders are distinct in the source, and the model keeps both:

- `Deck::new` iterates the static arrays of `Suit::iterator` and `Rank::iterator`. The suit order is Spades, Clubs, Hearts, Diamonds.
- `Dealer::init_euchre_deck` iterates the enums through `strum`. That gives declaration order: Diamonds, Hearts, Clubs, Spades, with Nine … Ace. This is the order of the `Suit`/`Rank` enums in `euchre_rs/src/card.rs`, and consistent with the `init_dealer` test, whose top card is the Ace of Spades.

The model follows the code where it does something a reader might not expect:

- `EuchreGame::new` does not shuffle. It deals from a fresh `Dealer`, and then stores another fresh `Dealer`, not the one it dealt from. So the hands of a new game are fixed, and the turned-up card is always the same card: the Queen of Diamonds under the declaration order the model assumes (`Game.InitialFlippedCard`; see Left out).
- `judge_round` scores team 2's wins differently from the symmetric rule that its own comments describe (src/judger.rs:35-50), and pays team 1's euchre unevenly (see Findings).
- `perform_pick_action` does not give the dealer the turned-up card, although its doc comment (src/game/mod.rs:142) says it does (see Findings). Here the model departs from the code: `Game.EuchreGame.Step` follows the doc comment and performs the corrected pick, and only `Game.EuchreGame.PerformPickActionAsWritten` follows the code.
- `step` performs only Pick and Pass. Calls, discards and plays change nothing.

## Model

| member | source | states |
|---|---|---|
| `Cards.SameColour` | src/card.rs:90-95 | the colour partner of a concrete suit, read from the table of `is_left`, is concrete and a different suit |
| `Cards.ColourPartnerDomain` | src/card.rs:90-96 | the table of `is_left` has an entry exactly for the four concrete suits, so its `unwrap` panics only on `Unset` |
| `Cards.SameColourInvolution` | src/card.rs:90-95 | pairing suits by colour is an involution without fixed points |
| `Cards.IsLeft` | src/card.rs:89-97 | a card that is the left bower is a Jack of a suit other than trump |
| `Cards.IsRight` | src/card.rs:99-101 | a concrete card that is the right bower is not the left bower |
| `Cards.LeftBowerCharacterised` | src/card.rs:89-97 | `is_left` holds exactly for the Jack of the other suit of trump's colour (red: Diamonds and Hearts; black: Clubs and Spades) |
| `Cards.BowersUnique` | src/card.rs:89-101 | for a concrete trump, `is_right` holds exactly for the Jack of trump and `is_left` exactly for the Jack of the same-colour suit |
| `Cards.NotBothBowers` | src/card.rs:89-101 | no card is both the left and the right bower |
| `Cards.SuitLetter` | src/card.rs:38-47 | a concrete suit prints as one of the letters S, C, H, D |
| `Cards.RankLetter` | src/card.rs:67-78 | a concrete rank prints as one of 9, T, J, Q, K, A |
| `Cards.CardText` | src/card.rs:15-19 | a concrete card prints as two characters, a suit letter then a rank character |
| `Cards.LettersInjective` | src/card.rs:38-47 | distinct suits print distinct letters (and, by src/card.rs:67-78, so do distinct ranks) |
| `Cards.CardTextInjective` | src/card.rs:15-19 | a card prints as two characters, and its text determines the card |
| `Cards.CardTextIsSuitThenRank` | src/card.rs:141-149 | printing a card is printing its suit then its rank |
| `Cards.SuitsText` | src/card.rs:38-47 | printing a run of suits gives one letter per suit, in order |
| `Cards.RanksText` | src/card.rs:67-78 | printing a run of ranks gives one character per rank, in order |
| `Cards.IteratorsPrint` | src/card.rs:123-139 | the suit iterator prints "SCHD" and the rank iterator "9TJQKA" |
| `Cards.IteratorsEnumerate` | src/card.rs:31-65 | `Suit::iterator` (src/card.rs:31-36) lists every concrete suit exactly once and `Rank::iterator` (src/card.rs:60-65) every concrete rank, and nothing else |
| `Actions.Discriminant` | src/action.rs:7-116 | every action's discriminant is below 54 |
| `Actions.DeclaredAt` | src/action.rs:7-116 | the constructor at each declaration position 0..53, the order `Action::iter()` walks in `from_integer` (src/action.rs:179), has that position as its discriminant |
| `Actions.BiddingAt` | src/action.rs:9-19 | the bidding moves Pass, Pick, CallH, CallD, CallS, CallC, declared at positions 0..5, carry those positions as discriminants |
| `Actions.HeartsPlayAt` | src/action.rs:21-31 | the Play moves of Hearts, Ace down to Nine, declared at positions 6..11, carry those positions as discriminants |
| `Actions.DiamondsPlayAt` | src/action.rs:33-43 | the Play moves of Diamonds, declared at positions 12..17, carry those positions as discriminants |
| `Actions.SpadesPlayAt` | src/action.rs:45-55 | the Play moves of Spades, declared at positions 18..23, carry those positions as discriminants |
| `Actions.ClubsPlayAt` | src/action.rs:57-67 | the Play moves of Clubs, declared at positions 24..29, carry those positions as discriminants |
| `Actions.HeartsDiscardAt` | src/action.rs:69-79 | the Discard moves of Hearts, declared at positions 30..35, carry those positions as discriminants |
| `Actions.DiamondsDiscardAt` | src/action.rs:81-91 | the Discard moves of Diamonds, declared at positions 36..41, carry those positions as discriminants |
| `Actions.SpadesDiscardAt` | src/action.rs:93-103 | the Discard moves of Spades, declared at positions 42..47, carry those positions as discriminants |
| `Actions.ClubsDiscardAt` | src/action.rs:105-115 | the Discard moves of Clubs, declared at positions 48..53, carry those positions as discriminants |
| `Actions.EveryActionDeclared` | src/action.rs:7-116 | every constructor is declared at the position of its discriminant |
| `Actions.DiscriminantInjective` | src/action.rs:7-116 | no two actions share a discriminant |
| `Actions.FindAction` | src/action.rs:179-184 | the search from a position succeeds exactly when a later constructor has the discriminant, finds one with that discriminant, and otherwise returns the "no corresponding Action" error |
| `Actions.FromInteger` | src/action.rs:178-185 | every value below 54 decodes to the action with that discriminant; every value from 54 is the error |
| `Actions.FromIntegerInverse` | src/action.rs:178-185 | decoding any action's discriminant gives that action back |
| `Actions.ActionFromInt` | src/action.rs:203-207 | 13 decodes to DKPlay and 0 to Pass |
| `Actions.ActionFromInvalidInt` | src/action.rs:209-212 | 54 decodes to the "no corresponding Action" error |
| `Actions.RankOfNum` | src/action.rs:134-142 | each rank number 0..5 decodes to a concrete rank that encodes back to it, so the panic arm is unreachable |
| `Actions.SuitOfNum` | src/action.rs:144-150 | each suit number 1..4 decodes to a concrete suit that encodes back to it, so the panic arm is unreachable |
| `Actions.CardOfNum` | src/action.rs:131-152 | every Play or Discard number decodes to a concrete card |
| `Actions.ActionToCard` | src/action.rs:120-153 | the six bidding actions give the "no mapping to a Card" error and every other action gives a concrete card |
| `Actions.DiscardOffsetKeepsCard` | src/action.rs:124-132 | a Discard number names the same card as the Play number 24 below it |
| `Actions.PlayAndDiscardAgree` | src/action.rs:120-153 | the Play and the Discard action of one card decode to the same card |
| `Actions.ActionToCardExamples` | src/action.rs:214-221 | C9Discard and C9Play both decode to the Nine of Clubs, HADiscard and HAPlay to the Ace of Hearts |
| `Actions.SuitNum` | src/action.rs:158-163 | a concrete suit has suit number 1..4, so the `Unset` panic arm is not taken |
| `Actions.RankNum` | src/action.rs:164-172 | a concrete rank has rank number 0..5, so the `Unset` panic arm is not taken |
| `Actions.NumOfCard` | src/action.rs:157-174 | the number of a concrete card lies in 6..53, and it is at most 29 exactly for a Play, so the `u8` sum never overflows |
| `Actions.CardToAction` | src/action.rs:156-176 | the action of a concrete card has that number as its discriminant, so the `unwrap` never panics |
| `Actions.CardOfNumOfCard` | src/action.rs:120-176 | decoding the number of a card gives the card back |
| `Actions.NumOfCardOfNum` | src/action.rs:120-176 | encoding the card named by a Play or Discard number, as the same kind, gives the number back |
| `Actions.CardRoundTrip` | src/action.rs:120-176 | `action_to_card(card_to_action(c, is_play)) == Ok(c)` for every concrete card |
| `Actions.ActionRoundTrip` | src/action.rs:120-176 | `card_to_action(action_to_card(a), is_play)` gives `a` back for every Play or Discard action |
| `Decks.Row` | src/deck.rs:19-21 | one card of the given suit per rank, in rank order |
| `Decks.Combos` | src/deck.rs:16-24 | the product has one card per suit and rank, and every card in it pairs a listed suit with a listed rank |
| `Decks.CombosAt` | src/deck.rs:16-24 | over six ranks, the product has six cards per suit, and card `i` has suit `i / 6` and rank `i % 6` |
| `Decks.CombosDistinct` | src/deck.rs:16-24 | over distinct suits and ranks, the product repeats no card and holds exactly the suit/rank pairs |
| `Decks.FullDeck` | src/deck.rs:16-24 | built from iteration orders that list each concrete suit and rank once, the deck has 24 cards, each concrete card exactly once |
| `Decks.BowersOncePerDeck` | src/card.rs:89-101 | a full deck holds each bower at exactly one position |
| `Decks.AllCombos` | src/deck.rs:16-24 | the nested push loops build the suit-major product |
| `Decks.CreateAllCardCombos` | src/deck.rs:16-24 | `create_all_card_combos` is the product over `Suit::iterator` and `Rank::iterator` |
| `Decks.NewDeck` | src/deck.rs:9-13 | a new deck is full, suit-major in iterator order, from the Nine of Spades to the Ace of Diamonds |
| `Dealing.EuchreDeck` | src/dealer.rs:34-42 | the deck built in declaration order has 24 cards |
| `Dealing.EuchreDeckLayout` | src/dealer.rs:34-58 | that deck is full, suit-major in declaration order, and its top card is the Ace of Spades |
| `Dealing.InitEuchreDeck` | src/dealer.rs:34-42 | `init_euchre_deck`'s loops build exactly that deck |
| `Dealing.SwapKeepsCards` | src/dealer.rs:21-23 | exchanging two positions keeps the multiset of cards |
| `Dealing.Dealer.constructor` | src/dealer.rs:14-19 | a new dealer holds the fresh deck |
| `Dealing.Dealer.Shuffle` | src/dealer.rs:21-23 | shuffling keeps the length and the multiset of cards |
| `Dealing.Dealer.DealCards` | src/dealer.rs:25-28 | the last five cards leave the deck and are appended to the hand in order, and the rest of the deck is unchanged |
| `Dealing.Dealer.FlipTopCard` | src/dealer.rs:30-32 | the last card is returned and removed |
| `Players.Player.constructor` | src/game/mod.rs:41-44 | a new seat has its id and an empty hand |
| `Players.Player.AddCards` | src/dealer.rs:27 | the cards are appended to the hand in order |
| `Players.Player.Push` | src/game/mod.rs:149 | one card is appended to the hand |
| `Judging.Candidate` | src/judger.rs:17-25 | after looking at the first `seen` cards, the candidate is one of them |
| `Judging.WinningPosition` | src/judger.rs:16-27 | the winning card is one of the four played |
| `Judging.JudgeTrick` | src/judger.rs:16-27 | the loop returns the seat that played the card at the winning position |
| `Judging.LeaderKeepsTrick` | src/judger.rs:16-27 | if no later card beats the led card, the leader takes the trick |
| `Judging.CandidateIsHighest` | src/judger.rs:20-25 | under a strict total order, every other card seen is lower than the candidate |
| `Judging.HighestCardWins` | src/judger.rs:16-27 | under a strict total order on the trick, the winning card beats every other card in it |
| `Judging.JudgeRound` | src/judger.rs:31-52 | four scores of at most 2; seats 0 and 2 score and 1 and 3 get nothing exactly when seats 0 and 2 took 3 or more tricks, and the other way round |
| `Judging.JudgeRoundDependsOnCallerParity` | src/judger.rs:33 | the calling seat matters only through its team |
| `Judging.IntendedJudgeRound` | src/judger.rs:29-52 | partners score alike; the team with 3 or more tricks scores 2 for all five tricks or for euchring the callers, and 1 otherwise |
| `Judging.IntendedJudgeRoundSymmetric` | src/judger.rs:29-52 | exchanging the teams exchanges their scores |
| `Judging.JudgeRoundAgreesElsewhere` | src/judger.rs:35-51 | the code scores by that rule exactly when team 1 called, or team 1 took 1 or all 5 tricks |
| `Judging.EuchrePaysPartnersUnequally` | src/judger.rs:40-41 | a team 1 euchre pays seat 2 only 1 point |
| `Judging.TwoTricksIgnoresCaller` | src/judger.rs:49-51 | team 2 making its own call with 3 tricks is paid 2 points, as for a march |
| `Judging.MarchByTeam2Underpaid` | src/judger.rs:43-48 | a calling team 2 that takes all five tricks is paid only 1 point |
| `Game.DetermineDealer` | src/game/mod.rs:170-177 | the dealer is a seat 0..3, and a chosen seat is kept |
| `Game.DetermineDealerExamples` | src/game/mod.rs:191-195 | choosing seat 2 gives seat 2; a drawn seat is below 4 |
| `Game.OrderStartingFrom` | src/game/mod.rs:120-123 | four seats starting from the given one, each the left neighbour of the one before, each seat exactly once |
| `Game.OrderRotates` | src/game/mod.rs:120-123 | the order from the next seat is the old order rotated by one |
| `Game.InitialHand` | src/game/mod.rs:46-48 | each seat of a new game is dealt five cards |
| `Game.DealAround` | src/game/mod.rs:46-48 | dealing to the four seats of a fresh deck leaves the bottom four cards and gives seat `p` the hand `InitialHand(p)` |
| `Game.InitialHandsDisjoint` | src/game/mod.rs:39-58 | a new game's hands are concrete, no two share a card, and none holds the turned-up card |
| `Game.InitialHandDistinct` | src/game/mod.rs:46-48 | no hand of a new game holds a card twice |
| `Game.DealConservesDeck` | src/game/mod.rs:39-58 | the deck is exactly the three cards left at the bottom, the turned-up card and the four hands of five, as multisets (3 + 1 + 20 = 24) |
| `Game.InitialFlippedCard` | src/game/mod.rs:39-58 | under the assumed declaration order, a new game always turns up the Queen of Diamonds |
| `Game.EuchreGame.constructor` | src/game/mod.rs:34-67 | dealer and first seat chosen, seat `p` holding deck cards `19 - 5p` to `23 - 5p`, the next card turned up, a fresh dealer stored, bidding state empty, order starting from the seat left of the dealer |
| `Game.EuchreGame.GetState` | src/game/mod.rs:74-89 | the view carries the hand of the player whose turn it is and that player's id, and copies the dealer, caller, turned-up card and choice, trump, led suit, order, trick and played cards unchanged |
| `Game.EuchreGame.SeeNextPlayer` | src/game/mod.rs:127-129 | the next seat is the second in the order starting from the current one, and never the current one |
| `Game.EuchreGame.IncrementPlayer` | src/game/mod.rs:133-135 | the turn passes to the left and nothing else changes |
| `Game.EuchreGame.PerformPickAction` | src/game/mod.rs:141-154 | the dealer alone gains the turned-up card, its suit is trump, it counts as picked up, the orderer is the caller and the dealer is to act |
| `Game.EuchreGame.PerformPickActionAsWritten` | src/game/mod.rs:147-154 | as written, Pick sets trump, the choice, the caller and the turn, but no hand changes, so the dealer does not gain the turned-up card |
| `Game.EuchreGame.PerformPassAction` | src/game/mod.rs:156-164 | the turn passes to the left, the card is turned down when the dealer passes, and no hand changes |
| `Game.EuchreGame.Step` | src/game/mod.rs:93-113 | Pick and Pass take effect, and every other action changes nothing; the result is the new view and the seat to act |

## Left out

- Randomness.
  - `determine_dealer(None)` draws from `rand::thread_rng`. Here the drawn seat is the parameter `drawn`.
  - `shuffle` draws from a ChaCha8 generator. Here the draws are the parameter `draws`, one per Fisher–Yates step.
  - So the `shuffle_is_rdm` test (which card comes out on top for seed 1) is not modelled.
- `Dealing.Dealer.Shuffle`: states only that the cards are permuted, not which permutation results. The generator is outside the model.
- `Card::is_lower` is not part of this model. `judge_trick` takes the comparison as a parameter.
- The three `EuchreCard` methods are not modelled: `call_action`, `discard_action` and `play_action`. They and the `strum` string parsing (`from_str`, case-insensitive) build actions from text.
- The text of `Err` messages is not modelled. The two errors are the values `NoCardMapping` and `NoSuchAction`.
- The legal-action generation is not part of this model, and neither is the `legal_actions` field of `ScopedGameState`: `get_state` does not fill it.
- `is_over` is not modelled as a method, because it only reads a field. The same holds for `get_curr_player_id` and `player_ref`.
- The stateless `Judger` struct and `Judger::new` are not modelled.
- `src/player.rs` is not part of this model. As written, it holds only a name. The seat with an id and a hand (`Player::new(id)`, `add_cards`, `hand_ref`) is reconstructed from its callers in `src/dealer.rs` and `src/game/mod.rs`.
- The generator reference that `Dealer::new` takes is not modelled. `src/game/mod.rs` calls `Dealer::new()` without one.
- Other context files are not part of this model:
  - `src/game.rs`, an older single-file version of the game;
  - the agents, the environment, `main`, `lib` and `utils`.
- The `Suit` and `Rank` enums that `strum` iterates carry an `Unset` variant (the panic arms at src/action.rs:162 and src/action.rs:171 match it). The model assumes that `Suit::iter()` and `Rank::iter()` skip `Unset`, as `Dealing.SuitDeclarationOrder` and `Dealing.RankDeclarationOrder` do; the 24-card deck of `init_euchre_deck` depends on it. The model also assumes that `strum` iterates in the declaration order of euchre_rs/src/card.rs: Diamonds, Hearts, Clubs, Spades, and Nine to Ace. The `init_dealer` test fixes only that Spades and Ace come last. `Dealing.EuchreDeckLayout` and `Game.InitialFlippedCard` depend on this order. Under another order that the test allows, such as Hearts, Diamonds, Clubs, Spades, the turned-up card would be the Queen of Hearts.
- `hand_ref()` is not in the source of `Player`. The model infers from its use in `get_state` (src/game/mod.rs:77, an owned `Vec<Card>` per src/game/scoped_state.rs:12) that it returns a copy of the hand.

## Findings

| source | as written | input that shows it | evidently intended | confidence | as-written member | corrected member |
|---|---|---|---|---|---|---|
| src/judger.rs:40-41 | a euchre by team 1 pays `[2,0,1,0]` | seat tricks `[2,1,1,1]`, caller seat 1 | `[2,0,2,0]`: both partners get 2 | not executed | `Judging.EuchrePaysPartnersUnequally` | `Judging.IntendedJudgeRound` |
| src/judger.rs:43-51 | team 1 with 2 tricks always gives team 2 two points | seat tricks `[1,2,1,1]`, caller seat 1 | `[0,1,0,1]`: team 2 called and made it | not executed | `Judging.TwoTricksIgnoresCaller` | `Judging.IntendedJudgeRound` |
| src/judger.rs:43-48 | team 1 with 0 tricks pays team 2 one point when team 2 called | seat tricks `[0,3,0,2]`, caller seat 1 | `[0,2,0,2]`: a march is worth 2 | not executed | `Judging.MarchByTeam2Underpaid` | `Judging.IntendedJudgeRound` |
| src/game/mod.rs:148-149 | the turned-up card is pushed onto the copy that `hand_ref()` returns, so the dealer's hand is unchanged | any Pick, e.g. the first seat ordering up in a new game | the dealer's hand gains the turned-up card (src/game/mod.rs:142) | not executed; inferred, `hand_ref` is not in the source | `Game.EuchreGame.PerformPickActionAsWritten` | `Game.EuchreGame.PerformPickAction` |

The `judge_round` rows have two causes:

- The src/judger.rs:43-51 and src/judger.rs:43-48 rows have one cause. Team 2's branch tests `team_1_tricks < 2` where the mirror of team 1's branch would test `team_1_tricks > 0`.
- The src/judger.rs:40-41 row is a separate wrong literal: team 1's euchre branch returns `[2,0,1,0]` where `[2,0,2,0]` is meant.

- `Judging.JudgeRound` models the code as written.
- `Judging.IntendedJudgeRound` is the corrected rule. `Judging.IntendedJudgeRoundSymmetric` proves it symmetric between the teams.
- `Judging.JudgeRoundAgreesElsewhere` proves exactly where the two agree.

The `perform_pick_action` row:

- `Game.EuchreGame.PerformPickActionAsWritten` models the code as written. Its contract says that no hand changes, so a dealer that did not hold the turned-up card still does not hold it.
- `Game.EuchreGame.PerformPickAction` gives the dealer the card, as the doc comment says. `Game.EuchreGame.Step` uses it.
