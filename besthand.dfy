/**
 * `EvaluateBestHand` of backend/poker/evaluator.go: the hole and community
 * cards are joined, and every way of leaving out two of the seven cards is
 * scored; the hand kept is the first one whose score is strictly above the
 * best so far, starting from a zero-valued placeholder.
 */
module BestHand {
  import opened Cards
  import opened Ordering
  import opened Scoring
  import opened Evaluator

  /** The cards of `all` without those at positions `i` and `j`, in their original order. */
  function Subset(all: seq<Card>, i: int, j: int): (five: seq<Card>)
    requires 0 <= i < j < |all|
    ensures |five| == |all| - 2
  {
    all[..i] + all[i + 1..j] + all[j + 1..]
  }

  /** Leaving out two positions removes exactly those two cards. */
  lemma SubsetMultiset(all: seq<Card>, i: int, j: int)
    requires 0 <= i < j < |all|
    ensures multiset(Subset(all, i, j)) == multiset(all) - multiset{all[i], all[j]}
    ensures multiset(all) == multiset(Subset(all, i, j)) + multiset{all[i], all[j]}
  {
    assert all == all[..i] + [all[i]] + all[i + 1..j] + [all[j]] + all[j + 1..];
  }

  /** The cards at positions below `n` other than `i` and `j`: what the inner `k` loop has appended so far. */
  function Kept(all: seq<Card>, i: int, j: int, n: int): seq<Card>
    requires 0 <= n <= |all|
  {
    if n == 0 then []
    else Kept(all, i, j, n - 1) + (if n - 1 != i && n - 1 != j then [all[n - 1]] else [])
  }

  /** `Kept` in closed form, for each place `n` can stand relative to `i` and `j`. */
  lemma {:induction false} KeptPrefix(all: seq<Card>, i: int, j: int, n: int)
    requires 0 <= i < j < |all| && 0 <= n <= |all|
    ensures n <= i ==> Kept(all, i, j, n) == all[..n]
    ensures i < n <= j ==> Kept(all, i, j, n) == all[..i] + all[i + 1..n]
    ensures j < n ==> Kept(all, i, j, n) == all[..i] + all[i + 1..j] + all[j + 1..n]
  {
    if n > 0 {
      KeptPrefix(all, i, j, n - 1);
      if n - 1 < i {
        assert all[..n] == all[..n - 1] + [all[n - 1]];
      } else if n - 1 == i {
      } else if n - 1 < j {
        assert all[i + 1..n] == all[i + 1..n - 1] + [all[n - 1]];
      } else if n - 1 == j {
        assert all[j + 1..n] == [];
      } else {
        assert all[j + 1..n] == all[j + 1..n - 1] + [all[n - 1]];
      }
    }
  }

  /** The `k` loop: the cards other than those at `i` and `j`, in order. */
  method DropTwo(all: seq<Card>, i: int, j: int) returns (five: seq<Card>)
    requires 0 <= i < j < |all|
    ensures five == Subset(all, i, j)
  {
    five := [];
    var k := 0;
    while k < |all|
      invariant 0 <= k <= |all|
      invariant five == Kept(all, i, j, k)
    {
      if k != i && k != j {
        five := five + [all[k]];
      }
      k := k + 1;
    }
    KeptPrefix(all, i, j, |all|);
  }

  /** The starting `bestHand`: value 0, no description, five zero-valued cards (Two of Hearts). */
  const Initial: Hand := Hand(HighCard, 0, [], [Card(Hearts, Two), Card(Hearts, Two), Card(Hearts, Two), Card(Hearts, Two), Card(Hearts, Two)])

  /*
   * The search order and the strict-improvement fold, for any table `f` of
   * scores indexed by the two left-out positions `a < b` of seven.
   */

  /** `v` is the largest of 0 and the 21 entries `f(a, b)`, `0 <= a < b < 7`. */
  ghost predicate IsBestOf(f: (int, int) -> int, v: int) {
    && v >= 0
    && (forall a, b :: 0 <= a < b < 7 ==> f(a, b) <= v)
    && (v == 0 || exists a, b :: 0 <= a < b < 7 && f(a, b) == v)
  }

  /** There is one such value. */
  lemma BestOfUnique(f: (int, int) -> int, v: int, w: int)
    requires IsBestOf(f, v) && IsBestOf(f, w)
    ensures v == w
  {
    if v != 0 {
      var a, b :| 0 <= a < b < 7 && f(a, b) == v;
    }
    if w != 0 {
      var a, b :| 0 <= a < b < 7 && f(a, b) == w;
    }
  }

  /** The entries leaving out `i` and each `j` from `j0` up, in loop order. */
  function RowScores(f: (int, int) -> int, i: int, j0: int): seq<int>
    requires j0 <= 7
    decreases 7 - j0
  {
    if j0 == 7 then [] else [f(i, j0)] + RowScores(f, i, j0 + 1)
  }

  /** The entries whose first left-out position is `i0` or more, in loop order. */
  function ScoresFrom(f: (int, int) -> int, i0: int): seq<int>
    requires 0 <= i0 <= 7
    decreases 7 - i0
  {
    if i0 >= 6 then [] else RowScores(f, i0, i0 + 1) + ScoresFrom(f, i0 + 1)
  }

  /** The fold of the source's loops: from 0, move to an entry only when it is strictly greater. */
  function BestOf(f: (int, int) -> int): int {
    BestFromZero(ScoresFrom(f, 0))
  }

  lemma {:induction false} RowScoresMembers(f: (int, int) -> int, i: int, j0: int)
    requires j0 <= 7
    ensures forall x :: x in RowScores(f, i, j0) <==> exists b :: j0 <= b < 7 && f(i, b) == x
    decreases 7 - j0
  {
    if j0 < 7 {
      RowScoresMembers(f, i, j0 + 1);
    }
  }

  lemma {:induction false} ScoresFromMembers(f: (int, int) -> int, i0: int)
    requires 0 <= i0 <= 7
    ensures forall x :: x in ScoresFrom(f, i0) <==> exists a, b :: i0 <= a < b < 7 && f(a, b) == x
    decreases 7 - i0
  {
    if i0 < 6 {
      RowScoresMembers(f, i0, i0 + 1);
      ScoresFromMembers(f, i0 + 1);
      forall x ensures x in ScoresFrom(f, i0) <==> exists a, b :: i0 <= a < b < 7 && f(a, b) == x {
        if exists a, b :: i0 <= a < b < 7 && f(a, b) == x {
          var a, b :| i0 <= a < b < 7 && f(a, b) == x;
          if a == i0 {
            assert x in RowScores(f, i0, i0 + 1);
          } else {
            assert x in ScoresFrom(f, i0 + 1);
          }
        }
      }
    }
  }

  /** The fold over the 21 entries is the best value. */
  lemma BestOfIsBest(f: (int, int) -> int)
    ensures IsBestOf(f, BestOf(f))
  {
    var xs := ScoresFrom(f, 0);
    ScoresFromMembers(f, 0);
    BestFromZeroIsMax(xs);
    forall a, b | 0 <= a < b < 7 ensures f(a, b) <= BestOf(f) {
      assert f(a, b) in xs;
    }
    if BestOf(f) != 0 {
      var m :| FirstBestAt(xs, m);
      assert xs[m] in xs;
    }
  }

  /** Pairs visited before `(i, j)` by the nested loops. */
  predicate Before(a: int, b: int, i: int, j: int) {
    a < i || (a == i && b < j)
  }

  /** `(ba, bb)` is the first pair, in loop order, whose entry is `v`, and every earlier entry is smaller. */
  ghost predicate FirstAt(f: (int, int) -> int, v: int, ba: int, bb: int) {
    && 0 <= ba < bb < 7 && f(ba, bb) == v
    && forall a, b :: 0 <= a < b < 7 && Before(a, b, ba, bb) ==> f(a, b) < v
  }

  /** What the loops know of the value kept once every pair before `(i, j)` has been tried. */
  ghost predicate Progress(f: (int, int) -> int, v: int, ba: int, bb: int, i: int, j: int) {
    && v >= 0
    && (forall a, b :: 0 <= a < b < 7 && Before(a, b, i, j) ==> f(a, b) <= v)
    && (v > 0 ==> FirstAt(f, v, ba, bb) && Before(ba, bb, i, j))
  }

  /** A pair whose entry is not above the kept value leaves it kept. */
  lemma ProgressKeep(f: (int, int) -> int, v: int, ba: int, bb: int, i: int, j: int)
    requires 0 <= i < j < 7 && Progress(f, v, ba, bb, i, j) && f(i, j) <= v
    ensures Progress(f, v, ba, bb, i, j + 1)
  {
  }

  /** A pair whose entry is above the kept value replaces it. */
  lemma ProgressTake(f: (int, int) -> int, v: int, ba: int, bb: int, i: int, j: int)
    requires 0 <= i < j < 7 && Progress(f, v, ba, bb, i, j) && f(i, j) > v
    ensures Progress(f, f(i, j), i, j, i, j + 1)
  {
  }

  /** The end of a row is the start of the next. */
  lemma ProgressRow(f: (int, int) -> int, v: int, ba: int, bb: int, i: int)
    requires 0 <= i < 7 && Progress(f, v, ba, bb, i, 7)
    ensures Progress(f, v, ba, bb, i + 1, i + 2)
  {
  }

  /** After the last row the kept value is the best, and the fold's. */
  lemma ProgressDone(f: (int, int) -> int, v: int, ba: int, bb: int)
    requires Progress(f, v, ba, bb, 7, 8)
    ensures IsBestOf(f, v) && v == BestOf(f)
    ensures v > 0 ==> FirstAt(f, v, ba, bb)
  {
    BestOfIsBest(f);
    BestOfUnique(f, v, BestOf(f));
  }

  /** The scores of the 21 five-card subsets of seven cards, by left-out positions. */
  function SubsetScores(all: seq<Card>): (int, int) -> int {
    (a: int, b: int) => if |all| == 7 && 0 <= a < b < 7 then Score(Subset(all, a, b)) as int else 0
  }

  /** The value `EvaluateBestHand` returns for seven cards. */
  function BestValue(all: seq<Card>): int {
    BestOf(SubsetScores(all))
  }

  /** The value `EvaluateBestHand` returns for any number of cards: 0, the placeholder's, unless there are seven. */
  function HandValue(all: seq<Card>): int {
    if |all| == 7 then BestValue(all) else 0
  }

  /** The best-hand value is never negative: the search starts from 0 and only moves up. */
  lemma HandValueNonNegative(all: seq<Card>)
    ensures HandValue(all) >= 0
  {
    if |all| == 7 {
      BestOfIsBest(SubsetScores(all));
    }
  }

  /**
   * When every subset scores below 0 (each is a flush from Ten up), no subset
   * replaces the initial hand and the best value stays 0.
   */
  lemma AllNegativeIsZero(all: seq<Card>)
    requires |all| == 7
    requires forall a, b :: 0 <= a < b < 7 ==> Score(Subset(all, a, b)) < 0
    ensures HandValue(all) == 0
  {
    BestOfIsBest(SubsetScores(all));
  }

  /** `best` is the evaluated subset leaving out `ba` and `bb`: its cards, sorted by rank, and their classification. */
  ghost predicate HandOf(all: seq<Card>, best: Hand, ba: int, bb: int)
    requires |all| == 7
  {
    && 0 <= ba < bb < 7
    && SortedByRank(best.cards) && multiset(best.cards) == multiset(Subset(all, ba, bb))
    && |best.cards| == 5 && best == Classify(best.cards)
  }

  /** The kept hand: the initial one while its value is 0, the evaluated subset `(ba, bb)` otherwise. */
  ghost predicate KeptHand(all: seq<Card>, best: Hand, ba: int, bb: int)
    requires |all| == 7
  {
    && (best.value == 0 ==> best == Initial)
    && (best.value > 0 ==> HandOf(all, best, ba, bb))
  }

  /** One pass of the inner loop body: evaluate the subset and keep it when it scores strictly more. */
  method TryPair(all: seq<Card>, best: Hand, ghost ba: int, ghost bb: int, i: int, j: int)
    returns (best': Hand, ghost ba': int, ghost bb': int)
    requires |all| == 7 && 0 <= i < j < 7
    requires Progress(SubsetScores(all), best.value, ba, bb, i, j) && KeptHand(all, best, ba, bb)
    ensures Progress(SubsetScores(all), best'.value, ba', bb', i, j + 1) && KeptHand(all, best', ba', bb')
  {
    ghost var f := SubsetScores(all);
    var five := DropTwo(all, i, j);
    var hand := EvaluateFiveCards(five);
    ClassifyIsScore(five, hand.cards);
    assert f(i, j) == hand.value;
    best', ba', bb' := best, ba, bb;
    if CompareHands(hand, best) > 0 {
      best' := Hand(hand.kind, hand.value, hand.description, hand.cards);
      ba', bb' := i, j;
      ProgressTake(f, best.value, ba, bb, i, j);
    } else {
      ProgressKeep(f, best.value, ba, bb, i, j);
    }
  }

  /**
   * `EvaluateBestHand`: the placeholder unless there are seven cards;
   * otherwise the best value, reached first by the hand returned, or the
   * initial zero hand when no subset scores above 0.
   */
  method EvaluateBestHand(holeCards: seq<Card>, communityCards: seq<Card>) returns (h: Hand)
    ensures h.value == HandValue(holeCards + communityCards)
    ensures |holeCards + communityCards| != 7 ==> h == InvalidHand
    ensures |holeCards + communityCards| == 7 ==>
      var all := holeCards + communityCards;
      && IsBestOf(SubsetScores(all), h.value) && h.value == BestValue(all)
      && (h.value == 0 ==> h == Initial)
      && (h.value > 0 ==> exists a, b :: FirstAt(SubsetScores(all), h.value, a, b) && HandOf(all, h, a, b))
  {
    var all := holeCards + communityCards;
    if |all| != 7 {
      return InvalidHand;
    }
    ghost var ba, bb;
    h, ba, bb := TryAllPairs(all);
    ProgressDone(SubsetScores(all), h.value, ba, bb);
  }

  /** The two nested loops over the pairs `(i, j)` of left-out positions, in order. */
  method TryAllPairs(all: seq<Card>) returns (best: Hand, ghost ba: int, ghost bb: int)
    requires |all| == 7
    ensures Progress(SubsetScores(all), best.value, ba, bb, 7, 8) && KeptHand(all, best, ba, bb)
  {
    ghost var f := SubsetScores(all);
    best := Initial;
    ba, bb := 0, 1;
    var i := 0;
    while i < 7
      invariant 0 <= i <= 7
      invariant Progress(f, best.value, ba, bb, i, i + 1) && KeptHand(all, best, ba, bb)
    {
      var j := i + 1;
      while j < 7
        invariant i < j <= 7
        invariant Progress(f, best.value, ba, bb, i, j) && KeptHand(all, best, ba, bb)
      {
        best, ba, bb := TryPair(all, best, ba, bb, i, j);
        j := j + 1;
      }
      ProgressRow(f, best.value, ba, bb, i);
      i := i + 1;
    }
  }

  /** The score of five cards depends only on which cards they are, not on their order. */
  lemma ScorePermutation(f1: seq<Card>, f2: seq<Card>)
    requires |f1| == 5 && multiset(f1) == multiset(f2)
    ensures |f2| == 5 && Score(f1) == Score(f2)
  {
    assert |f2| == |multiset(f2)| == 5;
    RanksPermutation(f1, f2);
    AscendingUnique(SortRanks(Ranks(f1)), SortRanks(Ranks(f2)));
    forall c ensures c in f1 <==> c in f2 {
      assert c in f1 <==> c in multiset(f1);
      assert c in f2 <==> c in multiset(f2);
    }
    assert AllSameSuit(f1) == AllSameSuit(f2);
  }

  /** A position holding `x`, other than `avoid`, when `x` occurs in what is left after removing the card at `avoid`. */
  lemma OtherPosition(s: seq<Card>, avoid: int, x: Card) returns (k: int)
    requires 0 <= avoid < |s| && x in multiset(s) - multiset{s[avoid]}
    ensures 0 <= k < |s| && k != avoid && s[k] == x
  {
    var rest := s[..avoid] + s[avoid + 1..];
    assert s == s[..avoid] + [s[avoid]] + s[avoid + 1..];
    assert multiset(rest) == multiset(s) - multiset{s[avoid]};
    assert x in rest;
    var r :| 0 <= r < |rest| && rest[r] == x;
    k := if r < avoid then r else r + 1;
  }

  /** Each five-card subset of seven cards is, as a multiset, a subset of any rearrangement of them. */
  lemma MatchingPair(all: seq<Card>, perm: seq<Card>, a: int, b: int) returns (a': int, b': int)
    requires |all| == 7 && multiset(all) == multiset(perm) && 0 <= a < b < 7
    ensures |perm| == 7 && 0 <= a' < b' < 7 && multiset(Subset(perm, a', b')) == multiset(Subset(all, a, b))
  {
    assert |perm| == |multiset(perm)| == 7;
    SubsetMultiset(all, a, b);
    var p, q := TwoPositions(perm, multiset(Subset(all, a, b)), all[a], all[b]);
    a', b' := if p < q then p else q, if p < q then q else p;
    SubsetsMatch(all, perm, a, b, a', b');
  }

  /** Leaving out the same two cards of two rearrangements of each other leaves the same cards. */
  lemma SubsetsMatch(all: seq<Card>, perm: seq<Card>, a: int, b: int, a': int, b': int)
    requires multiset(all) == multiset(perm) && 0 <= a < b < |all| && 0 <= a' < b' < |perm|
    requires multiset{perm[a'], perm[b']} == multiset{all[a], all[b]}
    ensures multiset(Subset(perm, a', b')) == multiset(Subset(all, a, b))
  {
    SubsetMultiset(all, a, b);
    SubsetMultiset(perm, a', b');
  }

  /** Two distinct positions of `s` holding `x` and `y`, when `s` holds `x` and `y` besides the cards `rest`. */
  lemma TwoPositions(s: seq<Card>, rest: multiset<Card>, x: Card, y: Card) returns (p: int, q: int)
    requires multiset(s) == rest + multiset{x, y}
    ensures 0 <= p < |s| && 0 <= q < |s| && p != q && s[p] == x && s[q] == y
  {
    assert x in multiset(s);
    p :| 0 <= p < |s| && s[p] == x;
    assert multiset(s) - multiset{s[p]} == rest + multiset{y};
    q := OtherPosition(s, p, y);
  }

  /** `x` is an entry of `g`. */
  ghost predicate EntryIn(x: int, g: (int, int) -> int) {
    exists a, b :: 0 <= a < b < 7 && g(a, b) == x
  }

  /** Every entry of `f` is an entry of `g`. */
  ghost predicate EntriesIn(f: (int, int) -> int, g: (int, int) -> int) {
    forall a, b :: 0 <= a < b < 7 ==> EntryIn(f(a, b), g)
  }

  /** A table whose entries are all entries of `f` has a best value no larger than that of `f`. */
  lemma BestOfFewerEntries(f: (int, int) -> int, g: (int, int) -> int)
    requires EntriesIn(g, f)
    ensures BestOf(g) <= BestOf(f)
  {
    BestOfIsBest(f);
    BestOfIsBest(g);
    if BestOf(g) != 0 {
      var a, b :| 0 <= a < b < 7 && g(a, b) == BestOf(g);
      assert EntryIn(g(a, b), f);
      var a', b' :| 0 <= a' < b' < 7 && f(a', b') == g(a, b);
    }
  }

  /** Every subset score of `all` is a subset score of any rearrangement of it. */
  lemma EntriesMatch(all: seq<Card>, perm: seq<Card>)
    requires |all| == 7 && multiset(all) == multiset(perm)
    ensures EntriesIn(SubsetScores(all), SubsetScores(perm))
  {
    var f, g := SubsetScores(all), SubsetScores(perm);
    forall a, b | 0 <= a < b < 7
      ensures EntryIn(f(a, b), g)
    {
      var a', b' := MatchingPair(all, perm, a, b);
      ScorePermutation(Subset(all, a, b), Subset(perm, a', b'));
      assert g(a', b') == f(a, b);
    }
    assert EntriesIn(f, g);
  }

  /** The best value of seven cards does not depend on their order. */
  lemma BestValuePermutation(all: seq<Card>, perm: seq<Card>)
    requires |all| == 7 && multiset(all) == multiset(perm)
    ensures BestValue(all) == BestValue(perm)
  {
    assert |perm| == |multiset(perm)| == 7;
    EntriesMatch(all, perm);
    EntriesMatch(perm, all);
    BestOfFewerEntries(SubsetScores(all), SubsetScores(perm));
    BestOfFewerEntries(SubsetScores(perm), SubsetScores(all));
  }
}
