# Poker hand evaluator — a Dafny model

This project models the Texas Hold'em engine of `backend/poker/evaluator.go`:
- it parses two-character card codes (`"HA"`, `"s7"`) and prints cards back;
- it classifies a five-card hand into one of ten hand types, with an `int32` score;
- it picks the best five of seven cards;
- it builds, filters and shuffles the deck;
- it estimates win and tie probabilities by Monte Carlo simulation.

The modules follow the source:

| module | what it holds |
|---|---|
| `Cards` (cards.dfy) | the card types and the parse/print functions |
| `Ordering` (ordering.dfy) | sortedness, an in-place insertion sort standing for `sort.Slice`, and the "keep the first strictly better" fold |
| `Scoring` (scoring.dfy) | the score rules of `evaluateFiveCards`, stated as functions on the five ranks in ascending order |
| `ScoreFacts` (scorefacts.dfy) | what those scores are, hand by hand, and how they order |
| `Evaluator` (evaluator.dfy) | `evaluateFiveCards` as the step-by-step method the source is, proved equal to the `Scoring` rules |
| `BestHand` (besthand.dfy) | `EvaluateBestHand`'s 21-subset loop |
| `Deck` (deck.dfy) | `GetDeck`, `RemoveCards`, and the Fisher–Yates shuffle on an array |
| `Simulator` (simulator.dfy) | `CalculateWinProbability` |

Scores are computed exactly as the source computes them, including `int32` wrap-around (`Scoring.Wrap32`). Some consequences:
- A flush with a Ten or higher scores below zero (`ScoreFacts.FlushSign`). The best-hand search starts from a value of 0 and keeps only strictly greater scores, so its result is never negative (`BestHand.HandValueNonNegative`). When every five-card subset is such a flush, the player keeps the initial value 0 (`BestHand.AllNegativeIsZero`), and players all at 0 tie (`Simulator.ZerosTie`).
- When no rank occurs five times, a high-card hand scores between 5·10⁸ and about 1.2·10⁹, above every other type except Flush (`ScoreFacts.HighCardRange`, `ScoreFacts.HighCardAboveGrouped`).
- A pair's kickers can outweigh the pair: a pair of sevens with A-K-Q scores more than a pair of eights (`ScoreFacts.PairKickersOutweigh`).
- Two hands of any types are compared by score alone (`compareHands`).

Standard poker ranking has a higher hand type always winning, with kickers compared only after the groups. The code does neither. The model follows the code, and the lemmas above state where the two differ.

Evaluating a hand of the wrong size is not reported as an error: the code returns a high-card placeholder of value 0 described as "Invalid number of cards" (`Evaluator.InvalidHand`), and the model does the same.

Randomness is a parameter: `draw: nat -> nat` is the stream of numbers the generator yields. A shuffle of `n` cards swaps position `i` with `draw(k) % (i + 1)` for `i` from `n - 1` down to 1, reading `n - 1` numbers. The simulator uses one generator for every trial, as the source does: trial `t` reads the stream from position `t * (n - 1)`.

## Model

| member | source | states |
|---|---|---|
| Cards.UpperString | backend/poker/evaluator.go:76 | upper-casing keeps the length and upper-cases each byte on its own |
| Cards.ParseCard | backend/poker/evaluator.go:71-127 | the three errors, in the order the source checks them: length other than 2; first letter, upper-cased, not one of H D C S; second letter, upper-cased, not one of 2-9 T J Q K A. Otherwise the card whose suit letter and rank letter are those upper-cased letters |
| Cards.SuitOfLetterMeaning | backend/poker/evaluator.go:80-91 | a byte names a suit exactly when it is one of the four suit letters, and names the suit at that letter's position |
| Cards.RankOfLetterMeaning | backend/poker/evaluator.go:95-124 | a byte names a rank exactly when it is one of the thirteen rank letters, and names the rank at that letter's position |
| Cards.CardToString | backend/poker/evaluator.go:528-573 | every card prints as two characters |
| Cards.ParseCardToString | backend/poker/evaluator.go:71-127 | parsing a printed card gives the card back |
| Cards.CardToStringOfParse | backend/poker/evaluator.go:528-573 | a card parsed from a string prints as that string upper-cased |
| Cards.ParseCards | backend/poker/evaluator.go:129-140 | succeeds exactly when every string parses, with the cards in order; otherwise reports the error of the first string that fails |
| Ordering.InsertionSortBy | backend/poker/evaluator.go:188-190 | sorts by the key in place and is a permutation of the old array |
| Ordering.BestFromZeroIsMax | backend/poker/evaluator.go:493-500 | the "replace when strictly greater" fold from 0 yields the maximum of 0 and the values, first reached at one position unless it is 0 |
| Scoring.RanksWithCountBelowMeaning | backend/poker/evaluator.go:235-246 | the ranks occurring exactly `c` times, each once, highest first |
| Scoring.GroupsMeaning | backend/poker/evaluator.go:228-246 | `Groups(rs, c)` is strictly descending and holds exactly the ranks occurring `c` times |
| Scoring.OtherRanksCounts | backend/poker/evaluator.go:309-314 | the kicker list holds every rank other than the group's, as often as it occurs, and nothing else |
| Scoring.IsStraightSequence | backend/poker/evaluator.go:378-397 | a run of five consecutive ranks or 2-3-4-5 with an Ace; when it holds, the top rank is four above the bottom one or the last two are Five and Ace (the exact meaning is `ScoreFacts.StraightSequenceMeaning`) |
| Scoring.Categorize | backend/poker/evaluator.go:203-375 | the reference for the whole branch chain; the type is straight flush or royal flush exactly when the hand is a flush and a straight (the full order is `ScoreFacts.CategorizeKind`) |
| Scoring.GroupedRating | backend/poker/evaluator.go:248-375 | the branches after the straight flush: never a straight flush or royal flush; four of a kind exactly when some rank occurs four times; full house exactly when there is no quads and there are both trips and a pair; a flush only for a flush; a straight only for a straight that is not a flush |
| Scoring.LesserRating | backend/poker/evaluator.go:307-375 | the last four branches: always trips, two pair, pair or high card; trips exactly when some rank occurs three times; two pair exactly when, without trips, two ranks occur twice; high card exactly when no rank occurs two or three times |
| Scoring.FirstOtherMeaning | backend/poker/evaluator.go:250-256 | the four-of-a-kind kicker is the first rank, in rank order, that differs from the quads; Two when there is none |
| Scoring.FirstOutsideMeaning | backend/poker/evaluator.go:331-337 | the two-pair kicker is the first rank, in rank order, in neither pair; Two when there is none |
| Scoring.TripsValue | backend/poker/evaluator.go:318-320 | a three-of-a-kind score lies in 30000 + 100·trips + [0, 132] |
| Scoring.PairValue | backend/poker/evaluator.go:357-359 | a one-pair score lies in 10000 + 1000·pair + [0, 1332] |
| Scoring.SortRanks | backend/poker/evaluator.go:185-190 | the canonical scoring order: an ascending permutation of the ranks, as the rank sort leaves them |
| ScoreFacts.PackClosedForm | backend/poker/evaluator.go:280-283 | the base-100 loop computes the starting value times 100^i plus the base-100 number of the ranks, wrapped to int32 |
| ScoreFacts.Base100Bound | backend/poker/evaluator.go:366-369 | `i` base-100 rank digits stay below 100^i |
| ScoreFacts.HighCardPack | backend/poker/evaluator.go:365-369 | the high-card loop does not wrap: its value is the five ranks as base-100 digits, highest first, at most 1212121212 |
| ScoreFacts.FlushPack | backend/poker/evaluator.go:278-283 | the flush loop's value is 50000·100⁵ + the rank digits, wrapped to int32 |
| ScoreFacts.FlushSign | backend/poker/evaluator.go:278-283 | a flush scores below zero exactly when its top card is Ten or higher; otherwise it scores above every high-card hand |
| ScoreFacts.StraightSequenceMeaning | backend/poker/evaluator.go:378-397 | on ascending ranks, the straight test holds exactly when the five ranks are distinct and either span four or are 2-3-4-5 with an Ace |
| ScoreFacts.GroupsPresent | backend/poker/evaluator.go:228-246 | the walk finds a group of size `c` exactly when some rank occurs `c` times |
| ScoreFacts.PairsPresent | backend/poker/evaluator.go:327 | there are at least two pairs exactly when two different ranks occur twice each |
| ScoreFacts.CategorizeKind | backend/poker/evaluator.go:203-375 | the type given is the first that applies in the source's order: royal flush, straight flush, quads, full house, flush, straight, trips, two pair, pair, high card |
| ScoreFacts.KickersOf | backend/poker/evaluator.go:309-317 | the kickers, sorted highest first, are the non-group ranks in reverse rank order |
| ScoreFacts.QuadsScore | backend/poker/evaluator.go:248-263 | four `q` and a kicker `k` score 70000 + 100q + k, flush or not |
| ScoreFacts.FullHouseScore | backend/poker/evaluator.go:265-276 | three `t` and two `p` score 60000 + 100t + p, flush or not |
| ScoreFacts.TripsScore | backend/poker/evaluator.go:307-324 | three `t` with kickers a > b score 30000 + 100t + 10a + b |
| ScoreFacts.TwoPairScore | backend/poker/evaluator.go:326-344 | pairs p > q with kicker k score 20000 + 1000p + 100q + k |
| ScoreFacts.PairScore | backend/poker/evaluator.go:346-363 | a pair `p` with kickers a > b > c scores 10000 + 1000p + 100a + 10b + c |
| ScoreFacts.StraightScore | backend/poker/evaluator.go:203-226 | a straight is a straight, straight flush or royal flush by flush and lowest card, and scores its type times 10000 plus its top card, where an ace-low run tops at Five |
| ScoreFacts.WheelScores | backend/poker/evaluator.go:215-218 | A-2-3-4-5 scores 40003 as a straight and 80003 as a straight flush |
| ScoreFacts.HighCardScore | backend/poker/evaluator.go:365-375 | five distinct ranks that are not a straight, without a flush, are a high card scoring their base-100 digits |
| ScoreFacts.FlushScore | backend/poker/evaluator.go:278-290 | a flush scores the wrapped base-100 value and is negative exactly when its top card is Ten or higher |
| ScoreFacts.ScoreRanges | backend/poker/evaluator.go:203-375 | the score interval of each type other than high card and flush |
| ScoreFacts.HighCardRange | backend/poker/evaluator.go:365-369 | when no rank occurs five times, a high-card hand scores between 500000000 and 1212121212 |
| ScoreFacts.BandedOrder | backend/poker/evaluator.go:203-324 | from three of a kind up, flush aside, a higher type always scores more than a lower one |
| ScoreFacts.HighCardAboveGrouped | backend/poker/evaluator.go:365-369 | a high-card hand outscores every hand that is neither high card nor flush |
| ScoreFacts.PairKickersOutweigh | backend/poker/evaluator.go:357-359 | 7-7-A-K-Q (16320) outscores 8-8-4-3-2 (16210) |
| ScoreFacts.Base100Lex | backend/poker/evaluator.go:366-369 | comparing base-100 rank numbers is comparing the rank lists from the top down |
| ScoreFacts.HighCardOrder | backend/poker/evaluator.go:365-375 | two high-card hands order exactly as their ranks do, highest card first |
| ScoreFacts.FullHouseOrder | backend/poker/evaluator.go:265-276 | full houses order by trips, then pair |
| ScoreFacts.QuadsOrder | backend/poker/evaluator.go:248-263 | four of a kind orders by the quads, then the kicker |
| ScoreFacts.StraightOrder | backend/poker/evaluator.go:292-305 | straights of one type order by their top card |
| Evaluator.Ranks | backend/poker/evaluator.go:195-198 | the ranks of the cards, position by position |
| Evaluator.Classify | backend/poker/evaluator.go:203-375 | the hand keeps the sorted cards and is described by its type's label |
| Evaluator.SortByRank | backend/poker/evaluator.go:185-190 | a copy sorted by rank that is a permutation of the input |
| Evaluator.SortRanksDescending | backend/poker/evaluator.go:267-269 | a descending permutation of the ranks |
| Evaluator.Tally | backend/poker/evaluator.go:192-199 | the two maps count each rank and each suit, with no other keys |
| Evaluator.FlushTest | backend/poker/evaluator.go:200 | one suit key exactly when all five cards share a suit |
| Evaluator.GroupRanks | backend/poker/evaluator.go:228-246 | in any map order: every rank counted twice in the pairs, once each; trips and quads set with their flags exactly when such a rank exists; -1 otherwise |
| Evaluator.WalkFindsGroups | backend/poker/evaluator.go:228-246 | the walk's findings are the groups of the ranks, whatever the iteration order |
| Evaluator.FirstRankOtherThan | backend/poker/evaluator.go:250-256 | the loop returns the four-of-a-kind kicker |
| Evaluator.FirstRankOutside | backend/poker/evaluator.go:331-337 | the loop returns the two-pair kicker |
| Evaluator.RanksOtherThan | backend/poker/evaluator.go:309-314 | the loop collects the kickers in rank order |
| Evaluator.PackRanks | backend/poker/evaluator.go:280-283 | the descending base-100 loop, with int32 wrap |
| Evaluator.TripsHand | backend/poker/evaluator.go:307-324 | the three-of-a-kind branch builds the trips rating's hand |
| Evaluator.PairHand | backend/poker/evaluator.go:346-363 | the one-pair branch builds the pair rating's hand |
| Evaluator.TwoPairHand | backend/poker/evaluator.go:326-344 | the two-pair branch uses the two highest pairs and the first rank in neither |
| Evaluator.QuadsHand | backend/poker/evaluator.go:248-263 | the quads branch builds the four-of-a-kind hand |
| Evaluator.FullHouseHand | backend/poker/evaluator.go:265-276 | the full-house branch uses the highest pair |
| Evaluator.LesserHand | backend/poker/evaluator.go:307-375 | the last four branches build the rating of the lesser types |
| Evaluator.RestRating | backend/poker/evaluator.go:278-375 | after quads and full house are ruled out: a flush exactly when the suits agree, a straight exactly for a straight without a flush, otherwise one of the lesser types |
| Evaluator.RestHand | backend/poker/evaluator.go:278-375 | the flush branch (wrapped base-100 loop), the straight branch (top card, Five for an ace-low run), then the lesser branches build the hand `RestRating` gives |
| Evaluator.GroupedHand | backend/poker/evaluator.go:248-375 | every branch after the straight flush builds the rating the score rules give |
| Evaluator.CheckStraight | backend/poker/evaluator.go:378-397 | the two loops compute the straight test on the cards' ranks |
| Evaluator.CategorizeCases | backend/poker/evaluator.go:203-226 | a flush and straight is royal from Ten to Ace and straight flush otherwise; every other hand goes to the grouped branches |
| Evaluator.EvaluateFiveCards | backend/poker/evaluator.go:179-376 | not five cards: the placeholder. Otherwise the hand holds the input cards sorted by rank, classified by the score rules |
| Evaluator.RanksPermutation | backend/poker/evaluator.go:185-190 | cards that are a permutation of each other have ranks that are too |
| Evaluator.ClassifyIsScore | backend/poker/evaluator.go:185-190 | the score does not depend on how equal ranks were ordered by the sort |
| Evaluator.CompareHands | backend/poker/evaluator.go:399-407 | 1, -1 or 0 exactly as the first value is greater, smaller or equal |
| Evaluator.CompareAntisymmetric | backend/poker/evaluator.go:399-407 | swapping the hands negates the comparison |
| Evaluator.CompareTransitive | backend/poker/evaluator.go:399-407 | "beats" and "at least ties" are transitive |
| Evaluator.RoyalFlushWitness | backend/poker/evaluator.go:203-211 | hearts Ten to Ace are a royal flush valued 90012 |
| BestHand.Subset | backend/poker/evaluator.go:155-160 | the cards other than those at positions `i` and `j`, two fewer than given (contents by `BestHand.SubsetMultiset` and `BestHand.KeptPrefix`) |
| BestHand.SubsetMultiset | backend/poker/evaluator.go:155-160 | the subset is the seven cards less the two left out |
| BestHand.KeptPrefix | backend/poker/evaluator.go:156-160 | the copy loop keeps, in order, the cards before, between and after the two left out |
| BestHand.DropTwo | backend/poker/evaluator.go:155-160 | the loop builds the five-card subset |
| BestHand.BestOfIsBest | backend/poker/evaluator.go:153-174 | the best of the 21 subset scores is at least 0, at least each score, and either 0 or one of the scores |
| BestHand.BestOfUnique | backend/poker/evaluator.go:153-174 | that value is unique |
| BestHand.ProgressDone | backend/poker/evaluator.go:153-174 | once every pair is tried, the kept value is the best and was first reached at the kept pair |
| BestHand.TryPair | backend/poker/evaluator.go:155-172 | one iteration keeps the loop invariant: the kept hand is the first strictly best so far |
| BestHand.TryAllPairs | backend/poker/evaluator.go:153-174 | after the loops the kept hand is the first strictly best of all 21 |
| BestHand.EvaluateBestHand | backend/poker/evaluator.go:142-177 | not seven cards: the placeholder. Otherwise the value is the best subset score; when it is above 0 the hand is the first subset in loop order reaching it, and when it is 0 the hand is the initial one |
| BestHand.HandValueNonNegative | backend/poker/evaluator.go:142-177 | the best-hand value is never negative: it starts at 0 (line 150) and is replaced only by a strictly greater score (line 163) |
| BestHand.AllNegativeIsZero | backend/poker/evaluator.go:150-176 | when all 21 subsets score below 0, the best value stays 0, and by `BestHand.EvaluateBestHand` the hand returned is the initial one |
| BestHand.ScorePermutation | backend/poker/evaluator.go:185-190 | the five-card score does not depend on the order of the cards |
| BestHand.MatchingPair | backend/poker/evaluator.go:153-160 | for a permutation of the seven, each subset has a subset with the same cards |
| BestHand.BestValuePermutation | backend/poker/evaluator.go:142-177 | the best value does not depend on the order of the seven cards, so hole and community cards may be swapped |
| Deck.FullDeck | backend/poker/evaluator.go:409-418 | 52 cards; the card of suit `s` and rank `r` sits at 13s + r |
| Deck.FullDeckComplete | backend/poker/evaluator.go:409-418 | every card is in the deck exactly once |
| Deck.GetDeck | backend/poker/evaluator.go:409-418 | the nested loops build the full deck |
| Deck.Without | backend/poker/evaluator.go:420-436 | the deck cards not in the list, in deck order, never more than the deck (contents by `Deck.WithoutCounts`) |
| Deck.WithoutCounts | backend/poker/evaluator.go:420-436 | a card stays, as often as it was there, exactly when it is not to be removed |
| Deck.WithoutSize | backend/poker/evaluator.go:420-436 | removing `n` cards from a deck without repeats leaves at least all but `n`, still without repeats |
| Deck.WithoutOneMore | backend/poker/evaluator.go:420-436 | removing a list is removing its cards one after another |
| Deck.RemoveCards | backend/poker/evaluator.go:420-436 | the loops keep, in order, the deck cards not in the list |
| Deck.ShuffleFrom | backend/poker/evaluator.go:443-445 | the swaps from position `i` down to 1, keeping the length (a permutation by `Deck.ShuffledPermutes`) |
| Deck.Shuffled | backend/poker/evaluator.go:443-445 | the whole Fisher–Yates shuffle from the last position, keeping the length |
| Deck.ShuffledPermutes | backend/poker/evaluator.go:443-445 | a shuffle is a permutation |
| Deck.ShuffleStep | backend/poker/evaluator.go:443-445 | a proof step for `Deck.ShuffleInPlace`: the shuffle function unfolds into one swap with the drawn position, then the shuffle of the rest |
| Deck.ShuffleInPlace | backend/poker/evaluator.go:443-445 | the swaps in place on an array give the shuffle function's result |
| Deck.ShuffleDeck | backend/poker/evaluator.go:438-447 | a shuffled copy that is a permutation of the deck |
| Simulator.AllEqualMeaning | backend/poker/evaluator.go:508-515 | the tie test holds exactly when every opponent value equals ours |
| Simulator.DecideMeaning | backend/poker/evaluator.go:493-518 | win exactly when ours is above 0 and above every opponent; tie exactly when ours is at least 0 and equals every opponent |
| Simulator.ZerosTie | backend/poker/evaluator.go:502-518 | when we and every opponent are valued 0, the trial is a tie |
| Simulator.TrialValuesNonNegative | backend/poker/evaluator.go:490-500 | the values a trial compares, ours and each opponent's, are all at least 0 |
| Simulator.StreamStartIsProduct | backend/poker/evaluator.go:463-471 | trial `t` reads the shared stream from `t` times the numbers one shuffle uses |
| Simulator.OutcomesAt | backend/poker/evaluator.go:465-520 | the `t`-th recorded outcome is the outcome of the deck shuffled for trial `t` |
| Simulator.CountIsMultiplicity | backend/poker/evaluator.go:502-519 | the counted outcomes are the occurrences of that outcome |
| Simulator.WinsAndTies | backend/poker/evaluator.go:502-519 | wins and ties together are at most the number of trials |
| Simulator.Board | backend/poker/evaluator.go:473-480 | the community cards completed to exactly five |
| Simulator.OpponentValues | backend/poker/evaluator.go:493-500 | one best-hand value per opponent, in dealing order, each from that opponent's two cards plus the board |
| Simulator.CompleteBoard | backend/poker/evaluator.go:473-480 | the community cards followed by the first cards of the shuffled deck, five in all |
| Simulator.DealOpponents | backend/poker/evaluator.go:482-488 | opponent `p` gets the two cards after the board and after the earlier opponents |
| Simulator.Evaluate | backend/poker/evaluator.go:491 | our hand's value is the best-hand value of hole plus board |
| Simulator.BestOpponent | backend/poker/evaluator.go:493-500 | the kept opponent hand has the greatest opponent value, or 0 |
| Simulator.AllTie | backend/poker/evaluator.go:508-515 | the loop says tie exactly when every opponent value equals ours |
| Simulator.RunTrial | backend/poker/evaluator.go:466-519 | one trial's outcome is the decision on that trial's shuffled deck |
| Simulator.RecordOutcome | backend/poker/evaluator.go:502-519 | a win adds one win, a tie one tie, a loss nothing |
| Simulator.RunTrials | backend/poker/evaluator.go:465-520 | the counters are the numbers of wins and ties among the trial outcomes |
| Simulator.FractionsBound | backend/poker/evaluator.go:521-525 | both fractions lie in [0, 1] and sum to at most 1 |
| Simulator.CalculateWinProbability | backend/poker/evaluator.go:449-526 | fewer than two players gives 0 and 0. Otherwise the deck is the full deck less the known cards, and the results are the win and tie counts over the trials divided by the number of trials, each in [0, 1] and summing to at most 1 |

## Left out

- Floating point: `float64(wins) / float64(numSimulations)` is exact real division here.
- Simulator.CalculateWinProbability: requires at least one simulation. With none, the source divides 0 by 0 (NaN), and the request handler at backend/poker_server.go:157-160 already refuses that case.
- Simulator.CalculateWinProbability: requires a board of at most five cards and a filtered deck large enough for the board and every opponent. Otherwise the source indexes past the end of the shuffled deck and panics.
- The request handler's other guards (two hole cards; 0, 3, 4 or 5 community cards, backend/poker_server.go:139-150) are not required: the model handles any number of hole cards and 0 to 5 community cards.
- Randomness: the generator seeded from the clock is the parameter `draw`. Go's reduction of a random number to `0..i` (`int31n`, with rejection) is `Deck.Pick`, a plain remainder. No claim of uniformity or of independence between trials is made.
- Deck.ShuffleDeck: takes its own stream, as the source creates a fresh generator for each call.
- `sort.Slice` is not stable. The model states only that the sorted cards are ordered by rank and are a permutation of the input (`Evaluator.SortByRank`), and the order among cards of equal rank is left open. `Evaluator.ClassifyIsScore` and `BestHand.ScorePermutation` show that the score does not depend on that order. The hand type, description and score are fixed; the card order within equal ranks is not.
- Map iteration order (`for rank, count := range rankCount`): the walk takes the keys in an unspecified order. `Evaluator.GroupRanks` holds for every order, and the pairs are sorted before use.
- `strings.ToUpper` is modelled on ASCII bytes only. The parser's strings are byte strings of length 2, and multi-byte UTF-8 upper-casing is not modelled.
- Slice aliasing through `append(holeCards, communityCards...)` and the copying of `Cards` slices are not modelled: every sequence is a value.
- Error messages are modelled as error values carrying the offending string or letter, not as formatted text.
- The simulator is proved against the best-hand value given as a parameter (`IsHandValue`), and `CalculateWinProbability` supplies the real one (`BestHand.HandValue`).
- backend/main.go, the gRPC/REST server and its request types are not part of this model. Only the guards of backend/poker_server.go:139-160 and its winner rule (:118-123, the same comparison as `Evaluator.CompareHands`) are reflected.
