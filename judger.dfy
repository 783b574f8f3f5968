/**
  The judger of src/judger.rs: who takes a trick, and what a finished round
  is worth to each seat.

  The card comparison `Card::is_lower` is not part of this model; the trick
  judge takes it as a parameter `isLower`, where `isLower(a, trump, b)` says
  that card `a` loses to card `b` under `trump`.
 */
module Judging {
  import opened Prelude
  import opened Cards

  // ---------------------------------------------------------------------
  // judge_trick
  // ---------------------------------------------------------------------

  /**
    The position of the candidate after the first `seen` cards of the trick
    have been looked at: a later card replaces the candidate exactly when the
    candidate is lower than it.
   */
  function Candidate(trump: Suit, center: seq<Card>, isLower: (Card, Suit, Card) -> bool, seen: nat): (k: nat)
    requires 1 <= seen <= |center|
    ensures k < seen
  {
    if seen == 1 then 0
    else
      var k := Candidate(trump, center, isLower, seen - 1);
      if isLower(center[k], trump, center[seen - 1]) then seen - 1 else k
  }

  /** The position of the card that takes a trick of four. */
  function WinningPosition(trump: Suit, center: seq<Card>, isLower: (Card, Suit, Card) -> bool): (k: nat)
    requires |center| >= 4
    ensures k < 4
  {
    Candidate(trump, center, isLower, 4)
  }

  /**
    `judge_trick`: `center[i]` was played by `order[i]`, and `order[0]` led.
    Returns the seat that played the winning card.
   */
  method JudgeTrick(trump: Suit, center: seq<Card>, order: seq<u8>, isLower: (Card, Suit, Card) -> bool)
    returns (winner: u8)
    requires |center| >= 4 && |order| >= 4
    ensures winner == order[WinningPosition(trump, center, isLower)]
  {
    var candidatePlayer := order[0];
    var candidateCard := center[0];
    ghost var k := 0;
    for i := 1 to 4
      invariant k == Candidate(trump, center, isLower, i)
      invariant candidateCard == center[k] && candidatePlayer == order[k]
    {
      if isLower(candidateCard, trump, center[i]) {
        candidateCard := center[i];
        candidatePlayer := order[i];
        k := i;
      }
    }
    winner := candidatePlayer;
  }

  /** If no later card beats the led card, the leader takes the trick. */
  lemma {:induction false} LeaderKeepsTrick(trump: Suit, center: seq<Card>, isLower: (Card, Suit, Card) -> bool)
    requires |center| >= 4
    requires forall i :: 1 <= i < 4 ==> !isLower(center[0], trump, center[i])
    ensures WinningPosition(trump, center, isLower) == 0
  {
    assert Candidate(trump, center, isLower, 1) == 0;
    assert Candidate(trump, center, isLower, 2) == 0;
    assert Candidate(trump, center, isLower, 3) == 0;
  }

  /** `isLower` orders the four cards of a trick strictly and totally, position by position. */
  ghost predicate StrictTotalOnTrick(trump: Suit, center: seq<Card>, isLower: (Card, Suit, Card) -> bool)
    requires |center| >= 4
  {
    && (forall i, j :: 0 <= i < 4 && 0 <= j < 4 && i != j ==>
          (isLower(center[i], trump, center[j]) <==> !isLower(center[j], trump, center[i])))
    && (forall i, j, l :: 0 <= i < 4 && 0 <= j < 4 && 0 <= l < 4 ==>
          (isLower(center[i], trump, center[j]) && isLower(center[j], trump, center[l]) ==>
           isLower(center[i], trump, center[l])))
  }

  /** Under a strict total order, the candidate beats every other card seen so far. */
  lemma {:induction false} CandidateIsHighest(trump: Suit, center: seq<Card>, isLower: (Card, Suit, Card) -> bool, seen: nat)
    requires |center| >= 4 && 1 <= seen <= 4
    requires StrictTotalOnTrick(trump, center, isLower)
    ensures forall i :: 0 <= i < seen && i != Candidate(trump, center, isLower, seen) ==>
      isLower(center[i], trump, center[Candidate(trump, center, isLower, seen)])
  {
    if seen > 1 {
      CandidateIsHighest(trump, center, isLower, seen - 1);
    }
  }

  /** Under a strict total order on the trick, the winner holds the greatest card. */
  lemma HighestCardWins(trump: Suit, center: seq<Card>, isLower: (Card, Suit, Card) -> bool)
    requires |center| >= 4
    requires StrictTotalOnTrick(trump, center, isLower)
    ensures forall i :: 0 <= i < 4 && i != WinningPosition(trump, center, isLower) ==>
      isLower(center[i], trump, center[WinningPosition(trump, center, isLower)])
  {
    CandidateIsHighest(trump, center, isLower, 4);
  }

  // ---------------------------------------------------------------------
  // judge_round
  // ---------------------------------------------------------------------

  /**
    `judge_round`, as written: team 1 is seats 0 and 2, and the caller's team
    is read from the parity of `callingId`. Only `tricks[0]` and `tricks[2]`
    are read; their `u8` sum must not overflow.
   */
  function JudgeRound(tricks: seq<u8>, callingId: u8): (points: seq<u8>)
    requires |tricks| >= 3 && tricks[0] as int + tricks[2] as int < 256
    ensures |points| == 4 && forall i :: 0 <= i < 4 ==> points[i] <= 2
    ensures tricks[0] as int + tricks[2] as int >= 3 ==> points[1] == 0 && points[3] == 0 && points[0] > 0 && points[2] > 0
    ensures tricks[0] as int + tricks[2] as int < 3 ==> points[0] == 0 && points[2] == 0 && points[1] > 0 && points[3] > 0
  {
    var team1Tricks: u8 := tricks[0] + tricks[2];
    var team1Called := callingId % 2 == 0;
    if team1Tricks == 5 then [2, 0, 2, 0]
    else if team1Tricks >= 3 then
      if team1Called then [1, 0, 1, 0] else [2, 0, 1, 0]
    else if team1Tricks < 2 then
      if team1Called then [0, 2, 0, 2] else [0, 1, 0, 1]
    else [0, 2, 0, 2]
  }

  /** The calling seat matters only through its team, that is its parity. */
  lemma JudgeRoundDependsOnCallerParity(tricks: seq<u8>, c1: u8, c2: u8)
    requires |tricks| >= 3 && tricks[0] as int + tricks[2] as int < 256
    requires c1 % 2 == c2 % 2
    ensures JudgeRound(tricks, c1) == JudgeRound(tricks, c2)
  {
  }

  /**
    Scoring by the rules the comments of `judge_round` describe: the side
    with three or more tricks scores, both partners alike, 2 points for taking
    all five or for euchring the callers and 1 point otherwise.
   */
  function IntendedJudgeRound(tricks: seq<u8>, callingId: u8): (points: seq<u8>)
    requires |tricks| >= 3 && tricks[0] as int + tricks[2] as int <= 5
    ensures |points| == 4 && points[0] == points[2] && points[1] == points[3]
    ensures var a, team1Called := tricks[0] as int + tricks[2] as int, callingId % 2 == 0;
      if a >= 3 then points[1] == 0 && points[0] == (if a == 5 || !team1Called then 2 else 1)
      else points[0] == 0 && points[1] == (if a == 0 || team1Called then 2 else 1)
  {
    var team1Tricks: u8 := tricks[0] + tricks[2];
    var team1Called := callingId % 2 == 0;
    if team1Tricks == 5 then [2, 0, 2, 0]
    else if team1Tricks >= 3 then
      if team1Called then [1, 0, 1, 0] else [2, 0, 2, 0]
    else if team1Tricks > 0 then
      if team1Called then [0, 2, 0, 2] else [0, 1, 0, 1]
    else [0, 2, 0, 2]
  }

  /** Swapping the teams (every seat moves one to the left, and so does the caller) swaps the scores. */
  lemma IntendedJudgeRoundSymmetric(tricks: seq<u8>, callingId: u8)
    requires |tricks| == 4 && tricks[0] as int + tricks[1] as int + tricks[2] as int + tricks[3] as int == 5
    ensures var swapped := [tricks[3], tricks[0], tricks[1], tricks[2]];
      var p, q := IntendedJudgeRound(tricks, callingId), IntendedJudgeRound(swapped, (callingId as int + 1) % 4);
      q == [p[3], p[0], p[1], p[2]]
  {
  }

  /**
    The code scores by the rules whenever team 1 called, and otherwise only
    when team 1 took exactly 1 or all 5 tricks.
   */
  lemma JudgeRoundAgreesElsewhere(tricks: seq<u8>, callingId: u8)
    requires |tricks| >= 3 && tricks[0] as int + tricks[2] as int <= 5
    ensures var a, team1Called := tricks[0] as int + tricks[2] as int, callingId % 2 == 0;
      (JudgeRound(tricks, callingId) == IntendedJudgeRound(tricks, callingId)) <==>
      team1Called || a == 1 || a == 5
  {
  }

  /** As written, a team 1 that euchres the callers with 3 tricks pays seat 2 only 1 point. */
  lemma EuchrePaysPartnersUnequally()
    ensures JudgeRound([2, 1, 1, 1], 1) == [2, 0, 1, 0]
    ensures IntendedJudgeRound([2, 1, 1, 1], 1) == [2, 0, 2, 0]
  {
  }

  /** As written, team 2 making its own call with 3 tricks scores 2 points each, as for a march. */
  lemma TwoTricksIgnoresCaller()
    ensures JudgeRound([1, 2, 1, 1], 1) == [0, 2, 0, 2]
    ensures IntendedJudgeRound([1, 2, 1, 1], 1) == [0, 1, 0, 1]
  {
  }

  /** As written, a calling team 2 that takes all 5 tricks scores only 1 point each. */
  lemma MarchByTeam2Underpaid()
    ensures JudgeRound([0, 3, 0, 2], 1) == [0, 1, 0, 1]
    ensures IntendedJudgeRound([0, 3, 0, 2], 1) == [0, 2, 0, 2]
  {
  }
}
