/**
 * `CalculateWinProbability` of backend/poker/evaluator.go: a Monte Carlo
 * estimate. Each trial shuffles the cards not yet seen, completes the board
 * from the top of the shuffled deck, deals two cards to each opponent from
 * the following positions, and counts a win when our best hand beats the
 * best opponent hand, or a tie when it equals every opponent hand.
 *
 * The random source is the stream `draw`, shared by all trials as the one
 * generator of the source is: trial `t` reads it from position
 * `StreamStart(|deck|, t)`, that is `t * DrawsUsed(|deck|)`.
 *
 * The trial is stated for a hand valuation `value` (cards to the value of
 * their best hand); the simulation uses `HandValue`, the value
 * `EvaluateBestHand` returns, and `IsHandValue` says a valuation is that one.
 */
module Simulator {
  import opened Cards
  import opened Ordering
  import opened Scoring
  import opened Evaluator
  import opened BestHand
  import opened Deck

  datatype Outcome = Win | Tie | Loss

  /** `value` values every set of cards as `EvaluateBestHand` does. */
  ghost predicate IsHandValue(value: seq<Card> -> int) {
    forall cs {:trigger HandValue(cs)} :: value(cs) == HandValue(cs)
  }

  /** A shuffled deck long enough to complete the board and deal to every opponent. */
  predicate Dealable(community: seq<Card>, numPlayers: int, deckSize: int) {
    |community| <= 5 && numPlayers >= 2 && 5 - |community| + 2 * (numPlayers - 1) <= deckSize
  }

  /** The community cards completed to five from the top of the shuffled deck. */
  function Board(community: seq<Card>, shuffled: seq<Card>): (b: seq<Card>)
    requires |community| <= 5 && 5 - |community| <= |shuffled|
    ensures |b| == 5
  {
    community + shuffled[..5 - |community|]
  }

  /** The two hole cards of opponent `p`: the two positions after the board cards and the earlier opponents. */
  function Opponent(community: seq<Card>, shuffled: seq<Card>, p: int): seq<Card>
    requires |community| <= 5 && 0 <= p && 5 - |community| + 2 * p + 2 <= |shuffled|
  {
    var at := 5 - |community| + 2 * p;
    shuffled[at..at + 2]
  }

  /** The value of each opponent's best hand, in dealing order. */
  function OpponentValues(value: seq<Card> -> int, community: seq<Card>, numPlayers: int, shuffled: seq<Card>): (vs: seq<int>)
    requires Dealable(community, numPlayers, |shuffled|)
    ensures |vs| == numPlayers - 1
  {
    seq(numPlayers - 1, p requires 0 <= p < numPlayers - 1 =>
      value(Opponent(community, shuffled, p) + Board(community, shuffled)))
  }

  /** Every value in `vs` is `x`. */
  predicate AllEqual(vs: seq<int>, x: int) {
    vs == [] || (vs[|vs| - 1] == x && AllEqual(vs[..|vs| - 1], x))
  }

  lemma {:induction false} AllEqualMeaning(vs: seq<int>, x: int)
    ensures AllEqual(vs, x) <==> forall p :: 0 <= p < |vs| ==> vs[p] == x
  {
    if vs != [] {
      var init := vs[..|vs| - 1];
      AllEqualMeaning(init, x);
      assert forall p :: 0 <= p < |init| ==> init[p] == vs[p];
    }
  }

  /**
   * The outcome for our value against the opponents' values, as the source
   * decides it: a win when ours is above the best opponent value (a fold
   * from 0), a tie when it equals that value and every opponent value, a
   * loss otherwise.
   */
  function Decide(ours: int, opps: seq<int>): Outcome {
    if ours > BestFromZero(opps) then Win
    else if ours == BestFromZero(opps) && AllEqual(opps, ours) then Tie
    else Loss
  }

  /**
   * With at least one opponent: a win exactly when ours is above 0 and above
   * every opponent value; a tie exactly when ours is not negative and every
   * opponent value equals it.
   */
  lemma DecideMeaning(ours: int, opps: seq<int>)
    requires |opps| > 0
    ensures Decide(ours, opps) == Win <==> ours > 0 && forall p :: 0 <= p < |opps| ==> opps[p] < ours
    ensures Decide(ours, opps) == Tie <==> ours >= 0 && forall p :: 0 <= p < |opps| ==> opps[p] == ours
  {
    BestFromZeroIsMax(opps);
    AllEqualMeaning(opps, ours);
    if BestFromZero(opps) != 0 {
      var m :| FirstBestAt(opps, m);
    }
    if forall p :: 0 <= p < |opps| ==> opps[p] == ours {
      assert opps[0] == ours;
    }
  }

  /** Every player valued 0 (as when every subset is a flush from Ten up) is a tie. */
  lemma ZerosTie(opps: seq<int>)
    requires |opps| > 0 && forall p :: 0 <= p < |opps| ==> opps[p] == 0
    ensures Decide(0, opps) == Tie
  {
    DecideMeaning(0, opps);
  }

  /** A trial never compares a negative value: ours and every opponent's are at least 0. */
  lemma TrialValuesNonNegative(value: seq<Card> -> int, hole: seq<Card>, community: seq<Card>, numPlayers: int,
                               shuffled: seq<Card>)
    requires Dealable(community, numPlayers, |shuffled|) && IsHandValue(value)
    ensures value(hole + Board(community, shuffled)) >= 0
    ensures forall p :: 0 <= p < numPlayers - 1 ==> OpponentValues(value, community, numPlayers, shuffled)[p] >= 0
  {
    HandValueNonNegative(hole + Board(community, shuffled));
    forall p | 0 <= p < numPlayers - 1
      ensures OpponentValues(value, community, numPlayers, shuffled)[p] >= 0
    {
      HandValueNonNegative(Opponent(community, shuffled, p) + Board(community, shuffled));
    }
  }

  /** The outcome of one trial played with the shuffled deck `shuffled`. */
  function TrialOutcome(value: seq<Card> -> int, hole: seq<Card>, community: seq<Card>, numPlayers: int, shuffled: seq<Card>): Outcome
    requires Dealable(community, numPlayers, |shuffled|)
  {
    Decide(value(hole + Board(community, shuffled)), OpponentValues(value, community, numPlayers, shuffled))
  }

  /** Where trial `t` starts reading the stream: each earlier trial's shuffle read `DrawsUsed(deckSize)` numbers. */
  function StreamStart(deckSize: nat, t: nat): nat {
    if t == 0 then 0 else StreamStart(deckSize, t - 1) + DrawsUsed(deckSize)
  }

  lemma {:induction false} StreamStartIsProduct(deckSize: nat, t: nat)
    ensures StreamStart(deckSize, t) == t * DrawsUsed(deckSize)
  {
    if t > 0 {
      StreamStartIsProduct(deckSize, t - 1);
      assert t * DrawsUsed(deckSize) == (t - 1) * DrawsUsed(deckSize) + DrawsUsed(deckSize);
    }
  }

  /** The deck trial `t` plays with. */
  function TrialDeck(deck: seq<Card>, draw: nat -> nat, t: nat): seq<Card> {
    Shuffled(deck, draw, StreamStart(|deck|, t))
  }

  /** The outcomes of the first `n` trials, in order. */
  function Outcomes(value: seq<Card> -> int, hole: seq<Card>, community: seq<Card>, numPlayers: int,
                    deck: seq<Card>, draw: nat -> nat, n: nat): (os: seq<Outcome>)
    requires Dealable(community, numPlayers, |deck|)
    ensures |os| == n
  {
    if n == 0 then []
    else
      Outcomes(value, hole, community, numPlayers, deck, draw, n - 1)
      + [TrialOutcome(value, hole, community, numPlayers, TrialDeck(deck, draw, n - 1))]
  }

  /** The outcomes grow by one trial at a time. */
  lemma OutcomesStep(value: seq<Card> -> int, hole: seq<Card>, community: seq<Card>, numPlayers: int,
                     deck: seq<Card>, draw: nat -> nat, n: nat, o: Outcome)
    requires Dealable(community, numPlayers, |deck|)
    requires o == TrialOutcome(value, hole, community, numPlayers, TrialDeck(deck, draw, n))
    ensures Outcomes(value, hole, community, numPlayers, deck, draw, n + 1)
         == Outcomes(value, hole, community, numPlayers, deck, draw, n) + [o]
  {
  }

  /** Trial `t` is played with the deck shuffled from position `StreamStart(|deck|, t)` of the stream. */
  lemma {:induction false} OutcomesAt(value: seq<Card> -> int, hole: seq<Card>, community: seq<Card>, numPlayers: int,
                                      deck: seq<Card>, draw: nat -> nat, n: nat, t: nat)
    requires Dealable(community, numPlayers, |deck|) && t < n
    ensures Outcomes(value, hole, community, numPlayers, deck, draw, n)[t]
         == TrialOutcome(value, hole, community, numPlayers, TrialDeck(deck, draw, t))
  {
    if t < n - 1 {
      OutcomesAt(value, hole, community, numPlayers, deck, draw, n - 1, t);
    }
  }

  /** How many of the outcomes `os` are `o`. */
  function Count(os: seq<Outcome>, o: Outcome): nat {
    if os == [] then 0 else Count(os[..|os| - 1], o) + if os[|os| - 1] == o then 1 else 0
  }

  /** The count agrees with the multiset of the outcomes. */
  lemma {:induction false} CountIsMultiplicity(os: seq<Outcome>, o: Outcome)
    ensures Count(os, o) == multiset(os)[o]
  {
    if os != [] {
      var init := os[..|os| - 1];
      assert os == init + [os[|os| - 1]];
      CountIsMultiplicity(init, o);
    }
  }

  /** One more outcome adds one to its own count and nothing to the others. */
  lemma CountAppend(os: seq<Outcome>, o: Outcome, counted: Outcome)
    ensures Count(os + [o], counted) == Count(os, counted) + if o == counted then 1 else 0
  {
    assert (os + [o])[..|os|] == os;
  }

  /** A trial is a win, a tie or neither, so wins and ties together are at most the number of trials. */
  lemma {:induction false} WinsAndTies(os: seq<Outcome>)
    ensures Count(os, Win) + Count(os, Tie) <= |os|
  {
    if os != [] {
      WinsAndTies(os[..|os| - 1]);
    }
  }

  /** The board loop: the community cards, then the top `5 - |community|` shuffled cards. */
  method CompleteBoard(community: seq<Card>, shuffled: seq<Card>) returns (board: seq<Card>)
    requires |community| <= 5 && 5 - |community| <= |shuffled|
    ensures board == Board(community, shuffled)
  {
    board := community;
    var cardsNeeded := 5 - |community|;
    var i := 0;
    while i < cardsNeeded
      invariant 0 <= i <= cardsNeeded
      invariant board == community + shuffled[..i]
    {
      board := board + [shuffled[i]];
      i := i + 1;
    }
  }

  /** The dealing loop: two consecutive cards per opponent, starting after the board cards. */
  method DealOpponents(community: seq<Card>, numPlayers: int, shuffled: seq<Card>) returns (others: seq<seq<Card>>)
    requires Dealable(community, numPlayers, |shuffled|)
    ensures |others| == numPlayers - 1
    ensures forall p :: 0 <= p < numPlayers - 1 ==> others[p] == Opponent(community, shuffled, p)
  {
    others := [];
    var cardIndex := 5 - |community|;
    var i := 0;
    while i < numPlayers - 1
      invariant 0 <= i <= numPlayers - 1
      invariant cardIndex == 5 - |community| + 2 * i
      invariant |others| == i
      invariant forall p :: 0 <= p < i ==> others[p] == Opponent(community, shuffled, p)
    {
      others := others + [[shuffled[cardIndex], shuffled[cardIndex + 1]]];
      cardIndex := cardIndex + 2;
      i := i + 1;
    }
  }

  /** `EvaluateBestHand`, seen only through the value of the hand it returns. */
  method Evaluate(holeCards: seq<Card>, communityCards: seq<Card>, ghost value: seq<Card> -> int) returns (h: Hand)
    requires IsHandValue(value)
    ensures h.value == value(holeCards + communityCards)
  {
    h := EvaluateBestHand(holeCards, communityCards);
  }

  /** One more step of the fold. */
  lemma BestFromZeroStep(vs: seq<int>, p: int)
    requires 0 <= p < |vs|
    ensures BestFromZero(vs[..p + 1]) == if vs[p] > BestFromZero(vs[..p]) then vs[p] else BestFromZero(vs[..p])
  {
    assert vs[..p + 1][..p] == vs[..p];
  }

  /** The best opponent hand: from a zero-valued hand, keep a hand only when it is strictly better. */
  method BestOpponent(others: seq<seq<Card>>, board: seq<Card>, ghost value: seq<Card> -> int, ghost vs: seq<int>)
    returns (bestOther: Hand)
    requires IsHandValue(value)
    requires |vs| == |others| && forall p :: 0 <= p < |others| ==> vs[p] == value(others[p] + board)
    ensures bestOther.value == BestFromZero(vs)
  {
    bestOther := Hand(HighCard, 0, [], []);
    var p := 0;
    while p < |others|
      invariant 0 <= p <= |others|
      invariant bestOther.value == BestFromZero(vs[..p])
    {
      var playerHand := Evaluate(others[p], board, value);
      BestFromZeroStep(vs, p);
      if CompareHands(playerHand, bestOther) > 0 {
        bestOther := playerHand;
      }
      p := p + 1;
    }
    assert vs[..p] == vs;
  }

  /** The tie loop: does every opponent hand equal ours? Stops at the first that does not. */
  method AllTie(ourHand: Hand, others: seq<seq<Card>>, board: seq<Card>, ghost value: seq<Card> -> int, ghost vs: seq<int>)
    returns (allTie: bool)
    requires IsHandValue(value)
    requires |vs| == |others| && forall p :: 0 <= p < |others| ==> vs[p] == value(others[p] + board)
    ensures allTie <==> forall p :: 0 <= p < |vs| ==> vs[p] == ourHand.value
  {
    allTie := true;
    var p := 0;
    while p < |others|
      invariant 0 <= p <= |others|
      invariant allTie && forall q :: 0 <= q < p ==> vs[q] == ourHand.value
    {
      var playerHand := Evaluate(others[p], board, value);
      if CompareHands(ourHand, playerHand) != 0 {
        allTie := false;
        break;
      }
      p := p + 1;
    }
  }

  /** One trial of the loop: shuffle from stream position `k`, complete the board, deal, evaluate and compare. */
  method RunTrial(hole: seq<Card>, community: seq<Card>, numPlayers: int, deck: seq<Card>, draw: nat -> nat, k: nat,
                  ghost value: seq<Card> -> int)
    returns (outcome: Outcome)
    requires Dealable(community, numPlayers, |deck|) && IsHandValue(value)
    ensures outcome == TrialOutcome(value, hole, community, numPlayers, Shuffled(deck, draw, k))
  {
    var shuffled := ShuffleDeck(deck, draw, k);
    var board := CompleteBoard(community, shuffled);
    var others := DealOpponents(community, numPlayers, shuffled);
    var ourHand := Evaluate(hole, board, value);
    ghost var opps := OpponentValues(value, community, numPlayers, shuffled);
    var bestOther := BestOpponent(others, board, value, opps);
    var comparison := CompareHands(ourHand, bestOther);
    if comparison > 0 {
      outcome := Win;
    } else if comparison == 0 {
      var allTie := AllTie(ourHand, others, board, value, opps);
      AllEqualMeaning(opps, ourHand.value);
      outcome := if allTie then Tie else Loss;
    } else {
      outcome := Loss;
    }
  }

  /** The counters after one trial: a win or a tie adds one to its own counter. */
  method RecordOutcome(wins: nat, ties: nat, outcome: Outcome) returns (wins': nat, ties': nat)
    ensures wins' == wins + if outcome == Win then 1 else 0
    ensures ties' == ties + if outcome == Tie then 1 else 0
  {
    wins', ties' := wins, ties;
    if outcome == Win {
      wins' := wins + 1;
    } else if outcome == Tie {
      ties' := ties + 1;
    }
  }

  /** The simulation loop: the numbers of wins and of ties in the first `n` trials. */
  method RunTrials(hole: seq<Card>, community: seq<Card>, numPlayers: int, deck: seq<Card>, draw: nat -> nat, n: nat,
                   ghost value: seq<Card> -> int)
    returns (wins: nat, ties: nat)
    requires Dealable(community, numPlayers, |deck|) && IsHandValue(value)
    ensures wins == Count(Outcomes(value, hole, community, numPlayers, deck, draw, n), Win)
    ensures ties == Count(Outcomes(value, hole, community, numPlayers, deck, draw, n), Tie)
  {
    wins, ties := 0, 0;
    var sim, next := 0, 0;
    ghost var os: seq<Outcome> := [];
    while sim < n
      invariant 0 <= sim <= n
      invariant next == StreamStart(|deck|, sim)
      invariant os == Outcomes(value, hole, community, numPlayers, deck, draw, sim)
      invariant wins == Count(os, Win) && ties == Count(os, Tie)
    {
      var outcome := RunTrial(hole, community, numPlayers, deck, draw, next, value);
      OutcomesStep(value, hole, community, numPlayers, deck, draw, sim, outcome);
      CountAppend(os, outcome, Win);
      CountAppend(os, outcome, Tie);
      os := os + [outcome];
      wins, ties := RecordOutcome(wins, ties, outcome);
      sim := sim + 1;
      next := next + DrawsUsed(|deck|);
    }
  }

  lemma FractionsBound(wins: nat, ties: nat, n: int)
    requires 1 <= n && wins + ties <= n
    ensures 0.0 <= wins as real / n as real && 0.0 <= ties as real / n as real
    ensures wins as real / n as real + ties as real / n as real <= 1.0
  {
    assert wins as real / n as real + ties as real / n as real == (wins + ties) as real / n as real;
  }

  /**
   * `CalculateWinProbability`: (0, 0) for fewer than two players; otherwise
   * the fractions of the trials that were wins and ties. The deck is the 52
   * cards without the hole and community cards, in deck order, and must hold
   * enough cards to complete the board and deal to every opponent.
   */
  method CalculateWinProbability(holeCards: seq<Card>, communityCards: seq<Card>, numPlayers: int, numSimulations: int,
                                 draw: nat -> nat) returns (winProb: real, tieProb: real)
    requires numPlayers >= 2 ==>
      numSimulations >= 1 && Dealable(communityCards, numPlayers, |Without(FullDeck(), holeCards + communityCards)|)
    ensures numPlayers < 2 ==> winProb == 0.0 && tieProb == 0.0
    ensures numPlayers >= 2 ==>
      var deck := Without(FullDeck(), holeCards + communityCards);
      var outcomes := Outcomes(HandValue, holeCards, communityCards, numPlayers, deck, draw, numSimulations);
      && winProb == Count(outcomes, Win) as real / numSimulations as real
      && tieProb == Count(outcomes, Tie) as real / numSimulations as real
    ensures 0.0 <= winProb && 0.0 <= tieProb && winProb + tieProb <= 1.0
  {
    if numPlayers < 2 {
      return 0.0, 0.0;
    }
    var deck := GetDeck();
    var knownCards := holeCards + communityCards;
    deck := RemoveCards(deck, knownCards);
    var wins, ties := RunTrials(holeCards, communityCards, numPlayers, deck, draw, numSimulations, HandValue);
    WinsAndTies(Outcomes(HandValue, holeCards, communityCards, numPlayers, deck, draw, numSimulations));
    winProb := wins as real / numSimulations as real;
    tieProb := ties as real / numSimulations as real;
    FractionsBound(wins, ties, numSimulations);
  }
}
