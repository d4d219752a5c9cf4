/**
 * What the scores of `evaluateFiveCards` (backend/poker/evaluator.go) amount
 * to: the closed forms of the two digit loops under `int32` wrap-around, the
 * precedence of the hand types, the score ranges of each type and how scores
 * order hands of one type.
 */
module ScoreFacts {
  import opened Cards
  import opened Ordering
  import opened Scoring

  function Pow100(i: nat): nat {
    if i == 0 then 1 else 100 * Pow100(i - 1)
  }

  /** The base-100 number with digits `rs[i-1]` (most significant) down to `rs[0]`. */
  function Base100(rs: seq<Rank>, i: nat): nat
    requires i <= |rs|
  {
    if i == 0 then 0 else rs[i - 1] as int * Pow100(i - 1) + Base100(rs, i - 1)
  }

  /** The five ranks of a hand as one base-100 number, highest rank first. */
  function Digits(rs: seq<Rank>): nat
    requires |rs| == 5
  {
    rs[4] as int * 100_000_000 + rs[3] as int * 1_000_000 + rs[2] as int * 10_000 + rs[1] as int * 100 + rs[0] as int
  }

  lemma Wrap32Shift(x: int, q: int)
    ensures Wrap32(x + q * TwoTo32) == Wrap32(x)
  {
    var a := x + 0x8000_0000;
    assert a + q * TwoTo32 == (a / TwoTo32 + q) * TwoTo32 + a % TwoTo32;
  }

  lemma Wrap32Id(x: int)
    requires -0x8000_0000 <= x < 0x8000_0000
    ensures Wrap32(x) == x
  {
  }

  lemma Wrap32Offset(x: int) returns (q: int)
    ensures Wrap32(x) == x + q * TwoTo32
  {
    q := -((x + 0x8000_0000) / TwoTo32);
  }

  lemma {:induction false} Base100Bound(rs: seq<Rank>, i: nat)
    requires i <= |rs|
    ensures Base100(rs, i) < Pow100(i)
  {
    if i > 0 {
      Base100Bound(rs, i - 1);
      TopDigitBound(rs[i - 1], Pow100(i - 1), Base100(rs, i - 1));
    }
  }

  lemma TopDigitBound(d: int, p: int, low: int)
    requires 0 <= d <= 12 && 0 <= low < p
    ensures d * p + low < 100 * p
  {
    assert d * p <= 12 * p;
  }

  lemma ScaleShift(a: int, q: int, p: int, b: int)
    ensures (a + q * TwoTo32) * p + b == a * p + b + (q * p) * TwoTo32
  {
  }

  lemma StepProduct(v: int, r: int, p: int)
    ensures (v * 100 + r) * p == v * (100 * p) + r * p
  {
  }

  /** The wrapping digit loop equals one wrap of the exact base-100 number it builds. */
  lemma {:induction false} PackClosedForm(v: Int32, rs: seq<Rank>, i: nat)
    requires i <= |rs|
    ensures Pack(v, rs, i) == Wrap32(v * Pow100(i) + Base100(rs, i))
    decreases i
  {
    if i > 0 {
      var r := rs[i - 1] as int;
      var q1 := Wrap32Offset(v * 100);
      var q2 := Wrap32Offset(Wrap32(v * 100) + r);
      var v2 := Wrap32(Wrap32(v * 100) + r);
      PackClosedForm(v2, rs, i - 1);
      var p := Pow100(i - 1);
      var rest := Base100(rs, i - 1);
      assert v2 == v * 100 + r + (q1 + q2) * TwoTo32;
      ScaleShift(v * 100 + r, q1 + q2, p, rest);
      Wrap32Shift((v * 100 + r) * p + rest, (q1 + q2) * p);
      StepProduct(v, r, p);
    }
  }

  lemma Base100Five(rs: seq<Rank>)
    requires |rs| == 5
    ensures Base100(rs, 5) == Digits(rs)
  {
    assert Pow100(1) == 100 && Pow100(2) == 10_000 && Pow100(3) == 1_000_000 && Pow100(4) == 100_000_000;
    assert Base100(rs, 1) == rs[0] as int;
    assert Base100(rs, 2) == rs[1] as int * 100 + rs[0] as int;
    assert Base100(rs, 3) == rs[2] as int * 10_000 + Base100(rs, 2);
    assert Base100(rs, 4) == rs[3] as int * 1_000_000 + Base100(rs, 3);
  }

  /** The high-card loop does not overflow: its score is the five ranks as base-100 digits. */
  lemma HighCardPack(rs: seq<Rank>)
    requires |rs| == 5
    ensures Pack(0, rs, 5) == Digits(rs) <= 1_212_121_212
  {
    PackClosedForm(0, rs, 5);
    Base100Five(rs);
    Wrap32Id(Digits(rs));
  }

  /**
   * The flush loop starts from 50000 and overflows: 50000 * 100^5 = 5*10^14 is
   * 1382236160 modulo 2^32, and the digits are added to that before one wrap.
   */
  lemma FlushPack(rs: seq<Rank>)
    requires |rs| == 5
    ensures Pack(50000, rs, 5) == Wrap32(1_382_236_160 + Digits(rs))
  {
    PackClosedForm(50000, rs, 5);
    Base100Five(rs);
    assert Pow100(5) == 10_000_000_000;
    Wrap32Shift(1_382_236_160 + Digits(rs), 116415);
  }

  /**
   * A flush score is negative exactly when the top rank is Ten or higher;
   * otherwise it exceeds every high-card score.
   */
  lemma FlushSign(rs: seq<Rank>)
    requires |rs| == 5
    ensures Pack(50000, rs, 5) < 0 <==> rs[4] >= Ten
    ensures rs[4] < Ten ==> Pack(50000, rs, 5) > 1_212_121_212
  {
    FlushPack(rs);
    var d := Digits(rs);
    if rs[4] >= Ten {
      Wrap32Shift(1_382_236_160 + d - TwoTo32, 1);
      Wrap32Id(1_382_236_160 + d - TwoTo32);
    } else {
      Wrap32Id(1_382_236_160 + d);
    }
  }

  /** Two different ranks together occur at most as often as there are cards. */
  lemma {:induction false} TwoCountsBound(s: seq<Rank>, a: int, b: int)
    requires a != b
    ensures multiset(s)[a] + multiset(s)[b] <= |s|
  {
    if s != [] {
      TwoCountsBound(s[1..], a, b);
      assert s == [s[0]] + s[1..];
    }
  }

  /**
   * On ranks in ascending order the straight test holds exactly for five
   * different ranks that span five consecutive values, or for Two to Five with
   * an Ace.
   */
  lemma StraightSequenceMeaning(rs: seq<Rank>)
    requires |rs| == 5 && Ascending(rs)
    ensures IsStraightSequence(rs) <==>
              (forall r :: multiset(rs)[r] <= 1) && (rs[4] - rs[0] == 4 || (rs[3] == Five && rs[4] == Ace))
  {
    if IsStraightSequence(rs) {
      assert rs[0] < rs[1] < rs[2] < rs[3] < rs[4];
      assert StrictlyAscending(rs);
      StrictlyAscendingCounts(rs);
    }
    if forall r :: multiset(rs)[r] <= 1 {
      forall k | 0 <= k < 4 ensures rs[k] < rs[k + 1] {
        if rs[k] == rs[k + 1] {
          RepeatCount(rs, k);
        }
      }
      assert rs[0] < rs[1] < rs[2] < rs[3] < rs[4];
      if rs[4] - rs[0] == 4 {
        assert forall i :: 1 <= i < 5 ==> rs[i] as int == rs[i - 1] as int + 1;
      } else if rs[3] == Five && rs[4] == Ace {
        assert rs[0] == Two && rs[1] == Three && rs[2] == Four;
      }
    }
  }

  lemma GroupsEmpty(rs: seq<Rank>, c: nat)
    requires forall r :: multiset(rs)[r] != c
    ensures Groups(rs, c) == []
  {
    GroupsMeaning(rs, c);
    EmptyIfNoElements(Groups(rs, c));
  }

  /** When `x` is the only rank occurring `c` times, the groups of size `c` are just `[x]`. */
  lemma GroupsSingle(rs: seq<Rank>, c: nat, x: Rank)
    requires multiset(rs)[x] == c
    requires forall r :: r != x ==> multiset(rs)[r] != c
    ensures Groups(rs, c) == [x]
  {
    GroupsMeaning(rs, c);
    StrictlyDescendingUnique(Groups(rs, c), [x]);
  }

  /** Some rank occurs exactly `c` times. */
  predicate HasGroup(rs: seq<Rank>, c: nat) {
    exists r: Rank :: multiset(rs)[r] == c
  }

  /** Two different ranks occur exactly twice each. */
  predicate HasTwoPairs(rs: seq<Rank>) {
    exists p: Rank, q: Rank :: p != q && multiset(rs)[p] == 2 && multiset(rs)[q] == 2
  }

  lemma GroupsPresent(rs: seq<Rank>, c: nat)
    ensures |Groups(rs, c)| > 0 <==> HasGroup(rs, c)
  {
    GroupsMeaning(rs, c);
    var g := Groups(rs, c);
    if |g| > 0 {
      assert g[0] in g;
    }
    if HasGroup(rs, c) {
      var r: Rank :| multiset(rs)[r] == c;
      assert r in g;
    }
  }

  lemma PairsPresent(rs: seq<Rank>)
    ensures |Groups(rs, 2)| >= 2 <==> HasTwoPairs(rs)
  {
    GroupsMeaning(rs, 2);
    var g := Groups(rs, 2);
    if |g| >= 2 {
      assert g[0] in g && g[1] in g && g[0] != g[1];
    }
    if HasTwoPairs(rs) {
      var p: Rank, q: Rank :| p != q && multiset(rs)[p] == 2 && multiset(rs)[q] == 2;
      assert p in g && q in g;
      var i :| 0 <= i < |g| && g[i] == p;
      var j :| 0 <= j < |g| && g[j] == q;
      assert i != j;
    }
  }

  /**
   * The hand type by the rules of the source, stated on rank counts: royal
   * flush, straight flush, four of a kind, full house, flush, straight, three
   * of a kind, two pair, pair, high card, the first that applies.
   */
  function ExpectedKind(rs: seq<Rank>, flush: bool): HandType
    requires |rs| == 5 && Ascending(rs)
  {
    var straight := IsStraightSequence(rs);
    if flush && straight && rs[0] == Ten then RoyalFlush
    else if flush && straight then StraightFlush
    else if HasGroup(rs, 4) then FourOfAKind
    else if HasGroup(rs, 3) && HasGroup(rs, 2) then FullHouse
    else if flush then Flush
    else if straight then Straight
    else if HasGroup(rs, 3) then ThreeOfAKind
    else if HasTwoPairs(rs) then TwoPair
    else if HasGroup(rs, 2) then Pair
    else HighCard
  }

  /** The scorer picks the hand type in that order of precedence. */
  lemma CategorizeKind(rs: seq<Rank>, flush: bool)
    requires |rs| == 5 && Ascending(rs)
    ensures Categorize(rs, flush).kind == ExpectedKind(rs, flush)
  {
    var straight := IsStraightSequence(rs);
    if flush && straight {
      if rs[0] == Ten {
        StraightSequenceMeaning(rs);
      }
    } else {
      assert Categorize(rs, flush) == GroupedRating(rs, flush, straight);
      GroupsPresent(rs, 2);
      GroupsPresent(rs, 3);
      GroupsPresent(rs, 4);
      if !HasGroup(rs, 4) && !(HasGroup(rs, 3) && HasGroup(rs, 2)) && !flush && !straight {
        assert GroupedRating(rs, flush, straight) == LesserRating(rs);
        PairsPresent(rs);
      }
    }
  }

  /** The two kickers of three of a kind, highest first. */
  lemma KickersOf(rs: seq<Rank>, x: Rank, ks: seq<Rank>)
    requires Ascending(rs) && Descending(ks) && multiset(ks) == multiset(rs)[x := 0]
    ensures Reverse(OtherRanks(rs, x)) == ks
  {
    OtherRanksAscending(rs, x);
    OtherRanksCounts(rs, x);
    AscendingReverse(OtherRanks(rs, x));
    ReverseMultiset(OtherRanks(rs, x));
    DescendingUnique(Reverse(OtherRanks(rs, x)), ks);
  }

  /** Four of a kind scores 70000, then the rank of the four times 100, then the fifth rank. */
  lemma QuadsScore(rs: seq<Rank>, flush: bool, q: Rank, k: Rank)
    requires |rs| == 5 && Ascending(rs)
    requires multiset(rs) == multiset{q, q, q, q, k} && k != q
    ensures Categorize(rs, flush) == Rating(FourOfAKind, 70000 + q * 100 + k)
  {
    StraightSequenceMeaning(rs);
    assert multiset(rs)[q] == 4;
    GroupsSingle(rs, 4, q);
    QuadsKicker(rs, q, k);
  }

  /** With four of one rank, the first other rank is the fifth card's. */
  lemma QuadsKicker(rs: seq<Rank>, q: Rank, k: Rank)
    requires multiset(rs) == multiset{q, q, q, q, k} && k != q
    ensures FirstOther(rs, q) == k
  {
    FirstOtherMeaning(rs, q);
    assert k in multiset(rs);
    var i :| 0 <= i < |rs| && rs[i] == k;
    var j :| 0 <= j < |rs| && rs[j] == FirstOther(rs, q) != q && forall m :: 0 <= m < j ==> rs[m] == q;
    assert rs[j] in multiset(rs);
  }

  /** A full house scores 60000, then the rank of the three times 100, then the rank of the pair. */
  lemma FullHouseScore(rs: seq<Rank>, flush: bool, t: Rank, p: Rank)
    requires |rs| == 5 && Ascending(rs)
    requires multiset(rs) == multiset{t, t, t, p, p} && t != p
    ensures Categorize(rs, flush) == Rating(FullHouse, 60000 + t * 100 + p)
  {
    StraightSequenceMeaning(rs);
    assert multiset(rs)[t] == 3 && multiset(rs)[p] == 2;
    GroupsEmpty(rs, 4);
    GroupsSingle(rs, 3, t);
    GroupsSingle(rs, 2, p);
  }

  /** Three of a kind scores 30000, then the rank times 100, then the kickers times 10 and 1. */
  lemma TripsScore(rs: seq<Rank>, t: Rank, a: Rank, b: Rank)
    requires |rs| == 5 && Ascending(rs)
    requires multiset(rs) == multiset{t, t, t, a, b} && a > b && a != t && b != t
    ensures Categorize(rs, false) == Rating(ThreeOfAKind, 30000 + t * 100 + a * 10 + b)
  {
    TripsCounts(rs, t, a, b);
    StraightSequenceMeaning(rs);
    GroupsEmpty(rs, 4);
    GroupsEmpty(rs, 2);
    GroupsSingle(rs, 3, t);
    TripsKickers(rs, t, a, b);
  }

  lemma TripsCounts(rs: seq<Rank>, t: Rank, a: Rank, b: Rank)
    requires multiset(rs) == multiset{t, t, t, a, b} && a > b && a != t && b != t
    ensures multiset(rs)[t] == 3 && forall r :: r != t ==> multiset(rs)[r] <= 1
  {
  }

  lemma TripsKickers(rs: seq<Rank>, t: Rank, a: Rank, b: Rank)
    requires |rs| == 5 && Ascending(rs)
    requires multiset(rs) == multiset{t, t, t, a, b} && a > b && a != t && b != t
    ensures multiset(rs)[t] == 3 && TripsValue(rs, t) == 30000 + t * 100 + a * 10 + b
  {
    assert multiset(rs)[t := 0] == multiset([a, b]);
    KickersOf(rs, t, [a, b]);
  }

  lemma TwoPairKicker(rs: seq<Rank>, p: Rank, q: Rank, k: Rank)
    requires |rs| == 5
    requires multiset(rs) == multiset{p, p, q, q, k} && k != p && k != q
    ensures FirstOutside(rs, p, q) == k
  {
    FirstOutsideMeaning(rs, p, q);
    assert k in multiset(rs);
    var i :| 0 <= i < 5 && rs[i] == k;
    var j :| 0 <= j < |rs| && rs[j] == FirstOutside(rs, p, q) && rs[j] != p && rs[j] != q &&
             forall m :: 0 <= m < j ==> rs[m] == p || rs[m] == q;
    assert rs[j] in multiset(rs);
  }

  lemma TwoPairGroups(rs: seq<Rank>, p: Rank, q: Rank, k: Rank)
    requires multiset(rs) == multiset{p, p, q, q, k} && p > q && k != p && k != q
    ensures Groups(rs, 2) == [p, q] && Groups(rs, 3) == [] && Groups(rs, 4) == []
  {
    TwoPairCounts(rs, p, q, k);
    GroupsEmpty(rs, 4);
    GroupsEmpty(rs, 3);
    GroupsMeaning(rs, 2);
    StrictlyDescendingUnique(Groups(rs, 2), [p, q]);
  }

  /** Two pair scores 20000, then the higher pair times 1000, the lower times 100, then the kicker. */
  lemma TwoPairScore(rs: seq<Rank>, p: Rank, q: Rank, k: Rank)
    requires |rs| == 5 && Ascending(rs)
    requires multiset(rs) == multiset{p, p, q, q, k} && p > q && k != p && k != q
    ensures Categorize(rs, false) == Rating(TwoPair, 20000 + p * 1000 + q * 100 + k)
  {
    TwoPairCounts(rs, p, q, k);
    StraightSequenceMeaning(rs);
    TwoPairGroups(rs, p, q, k);
    TwoPairKicker(rs, p, q, k);
  }

  lemma OnePairCounts(rs: seq<Rank>, p: Rank, a: Rank, b: Rank, c: Rank)
    requires multiset(rs) == multiset{p, p, a, b, c} && a > b > c && a != p && b != p && c != p
    ensures multiset(rs)[p] == 2 && forall r :: r != p ==> multiset(rs)[r] <= 1
  {
  }

  lemma TwoPairCounts(rs: seq<Rank>, p: Rank, q: Rank, k: Rank)
    requires multiset(rs) == multiset{p, p, q, q, k} && p > q && k != p && k != q
    ensures multiset(rs)[p] == 2 && multiset(rs)[q] == 2 && forall r :: r != p && r != q ==> multiset(rs)[r] <= 1
  {
  }

  lemma PairKickers(rs: seq<Rank>, p: Rank, a: Rank, b: Rank, c: Rank)
    requires |rs| == 5 && Ascending(rs)
    requires multiset(rs) == multiset{p, p, a, b, c} && a > b > c && a != p && b != p && c != p
    ensures PairValue(rs, p) == 10000 + p * 1000 + a * 100 + b * 10 + c
  {
    assert multiset(rs)[p := 0] == multiset([a, b, c]);
    KickersOf(rs, p, [a, b, c]);
  }

  lemma PairScore(rs: seq<Rank>, p: Rank, a: Rank, b: Rank, c: Rank)
    requires |rs| == 5 && Ascending(rs)
    requires multiset(rs) == multiset{p, p, a, b, c} && a > b > c && a != p && b != p && c != p
    ensures Categorize(rs, false) == Rating(Pair, 10000 + p * 1000 + a * 100 + b * 10 + c)
  {
    OnePairCounts(rs, p, a, b, c);
    StraightSequenceMeaning(rs);
    GroupsEmpty(rs, 4);
    GroupsEmpty(rs, 3);
    GroupsSingle(rs, 2, p);
    PairKickers(rs, p, a, b, c);
  }

  /** The top of a run of five: Five when the Ace plays low, otherwise four above the lowest rank. */
  function RunTop(rs: seq<Rank>): int
    requires |rs| == 5
  {
    if rs[0] == Two && rs[4] == Ace then Five as int else rs[0] as int + 4
  }

  lemma DistinctGroupsEmpty(rs: seq<Rank>)
    requires forall r :: multiset(rs)[r] <= 1
    ensures Groups(rs, 2) == [] && Groups(rs, 3) == [] && Groups(rs, 4) == []
  {
    GroupsEmpty(rs, 2);
    GroupsEmpty(rs, 3);
    GroupsEmpty(rs, 4);
  }

  /**
   * A straight scores its type's base plus the top of the run; with one suit it
   * is a straight flush, or a royal flush when it runs from Ten to Ace.
   */
  lemma StraightScore(rs: seq<Rank>, flush: bool)
    requires |rs| == 5 && Ascending(rs) && IsStraightSequence(rs)
    ensures Categorize(rs, flush).kind == (if !flush then Straight else if rs[0] == Ten then RoyalFlush else StraightFlush)
    ensures Categorize(rs, flush).value == Ord(Categorize(rs, flush).kind) * 10000 + RunTop(rs)
  {
    StraightSequenceMeaning(rs);
    DistinctGroupsEmpty(rs);
  }

  /** Two, Three, Four, Five and Ace score with Five as the high card, not the Ace. */
  lemma WheelScores(flush: bool)
    ensures var rs: seq<Rank> := [Two, Three, Four, Five, Ace];
      Ascending(rs) && Categorize(rs, flush).value == if flush then 80003 else 40003
  {
    AscendingFive(Two, Three, Four, Five, Ace);
    StraightScore([Two, Three, Four, Five, Ace], flush);
  }

  /** Five different ranks that are not a straight score as base-100 digits, highest rank first. */
  lemma HighCardScore(rs: seq<Rank>)
    requires |rs| == 5 && Ascending(rs)
    requires (forall r :: multiset(rs)[r] <= 1) && !IsStraightSequence(rs)
    ensures Categorize(rs, false) == Rating(HighCard, Digits(rs))
  {
    DistinctGroupsEmpty(rs);
    HighCardPack(rs);
  }

  /**
   * A flush scores the signed 32-bit wrap of 1382236160 plus its digits: below
   * zero exactly when its top rank is Ten or higher.
   */
  lemma FlushScore(rs: seq<Rank>)
    requires |rs| == 5 && Ascending(rs)
    ensures Categorize(rs, true).kind == Flush ==> Categorize(rs, true).value == Wrap32(1_382_236_160 + Digits(rs))
    ensures Categorize(rs, true).kind == Flush ==> (Categorize(rs, true).value < 0 <==> rs[4] >= Ten)
  {
    FlushPack(rs);
    FlushSign(rs);
  }

  lemma LesserRanges(rs: seq<Rank>)
    requires |rs| == 5 && Ascending(rs)
    ensures var h := LesserRating(rs);
      && (h.kind == Pair ==> 10000 <= h.value <= 23332)
      && (h.kind == TwoPair ==> 21000 <= h.value <= 33112)
      && (h.kind == ThreeOfAKind ==> 30000 <= h.value <= 31332)
      && h.kind in {HighCard, Pair, TwoPair, ThreeOfAKind}
  {
    GroupsMeaning(rs, 2);
    var g := Groups(rs, 2);
    if |g| >= 2 {
      assert g[0] > g[1];
    }
  }

  lemma GroupedRanges(rs: seq<Rank>, flush: bool, straight: bool)
    requires |rs| == 5 && Ascending(rs) && straight == IsStraightSequence(rs)
    ensures var h := GroupedRating(rs, flush, straight);
      && (h.kind == Straight ==> 40003 <= h.value <= 40012)
      && (h.kind == FullHouse ==> 60000 <= h.value <= 61212)
      && (h.kind == FourOfAKind ==> 70000 <= h.value <= 71212)
      && (h.kind in {HighCard, Pair, TwoPair, ThreeOfAKind} ==> h == LesserRating(rs))
  {
  }

  /**
   * The score range of each hand type other than high card and flush. Pair
   * and two pair overlap their neighbours; from three of a kind up each type
   * keeps to its own band of 10000.
   */
  lemma ScoreRanges(rs: seq<Rank>, flush: bool)
    requires |rs| == 5 && Ascending(rs)
    ensures var h := Categorize(rs, flush);
      && (h.kind == Pair ==> 10000 <= h.value <= 23332)
      && (h.kind == TwoPair ==> 21000 <= h.value <= 33112)
      && (h.kind == ThreeOfAKind ==> 30000 <= h.value <= 31332)
      && (h.kind == Straight ==> 40003 <= h.value <= 40012)
      && (h.kind == FullHouse ==> 60000 <= h.value <= 61212)
      && (h.kind == FourOfAKind ==> 70000 <= h.value <= 71212)
      && (h.kind == StraightFlush ==> 80003 <= h.value <= 80011)
      && (h.kind == RoyalFlush ==> h.value == 90012)
  {
    var straight := IsStraightSequence(rs);
    if !(flush && straight) {
      assert Categorize(rs, flush) == GroupedRating(rs, flush, straight);
      GroupedRanges(rs, flush, straight);
      LesserRanges(rs);
    }
  }

  /** A high card hand has no group, no straight and no flush, and scores by the digit loop. */
  lemma HighCardCase(rs: seq<Rank>, flush: bool)
    requires |rs| == 5 && Ascending(rs) && Categorize(rs, flush).kind == HighCard
    ensures !flush && !IsStraightSequence(rs) && Categorize(rs, flush).value == Pack(0, rs, 5)
    ensures !HasGroup(rs, 2) && !HasGroup(rs, 3) && !HasGroup(rs, 4)
  {
    var straight := IsStraightSequence(rs);
    assert Categorize(rs, flush) == GroupedRating(rs, flush, straight);
    assert GroupedRating(rs, flush, straight) == LesserRating(rs);
    GroupsPresent(rs, 2);
    GroupsPresent(rs, 3);
    GroupsPresent(rs, 4);
  }

  /** Five different ranks in ascending order that are no straight reach at least Seven. */
  lemma HighCardTop(rs: seq<Rank>)
    requires |rs| == 5 && Ascending(rs)
    requires (forall r :: multiset(rs)[r] <= 1) && !IsStraightSequence(rs)
    ensures rs[4] >= Seven
  {
    StraightSequenceMeaning(rs);
    forall k | 0 <= k < 4 ensures rs[k] < rs[k + 1] {
      if rs[k] == rs[k + 1] {
        RepeatCount(rs, k);
      }
    }
    assert rs[0] < rs[1] < rs[2] < rs[3] < rs[4];
    assert rs[4] - rs[0] != 4;
  }

  /**
   * Without a rank occurring five times (which needs repeated cards), a high
   * card scores at least 5*10^8: its top rank is Seven or higher.
   */
  lemma HighCardRange(rs: seq<Rank>, flush: bool)
    requires |rs| == 5 && Ascending(rs)
    requires forall r :: multiset(rs)[r] < 5
    ensures Categorize(rs, flush).kind == HighCard ==> 500_000_000 <= Categorize(rs, flush).value <= 1_212_121_212
  {
    if Categorize(rs, flush).kind == HighCard {
      HighCardCase(rs, flush);
      forall r ensures multiset(rs)[r] <= 1 {
        if 0 <= r < 13 {
          assert multiset(rs)[r as Rank] != 2 && multiset(rs)[r as Rank] != 3 && multiset(rs)[r as Rank] != 4;
        } else {
          assert r !in rs;
        }
      }
      HighCardTop(rs);
      HighCardPack(rs);
    }
  }

  /** The hand types whose scores keep to their own band of 10000. */
  predicate Banded(k: HandType) {
    k in {ThreeOfAKind, Straight, FullHouse, FourOfAKind, StraightFlush, RoyalFlush}
  }

  /**
   * From three of a kind up (flush aside) a hand of a higher type always
   * scores more than a hand of a lower type.
   */
  lemma BandedOrder(rs1: seq<Rank>, flush1: bool, rs2: seq<Rank>, flush2: bool)
    requires |rs1| == 5 && Ascending(rs1) && |rs2| == 5 && Ascending(rs2)
    requires Banded(Categorize(rs1, flush1).kind) && Banded(Categorize(rs2, flush2).kind)
    requires Ord(Categorize(rs1, flush1).kind) < Ord(Categorize(rs2, flush2).kind)
    ensures Categorize(rs1, flush1).value < Categorize(rs2, flush2).value
  {
    ScoreRanges(rs1, flush1);
    ScoreRanges(rs2, flush2);
  }

  /**
   * A high card hand (without a rank five times) outscores every pair, two
   * pair, three of a kind, straight, full house, four of a kind, straight
   * flush and royal flush.
   */
  lemma HighCardAboveGrouped(rs1: seq<Rank>, flush1: bool, rs2: seq<Rank>, flush2: bool)
    requires |rs1| == 5 && Ascending(rs1) && |rs2| == 5 && Ascending(rs2)
    requires forall r :: multiset(rs1)[r] < 5
    requires Categorize(rs1, flush1).kind == HighCard
    requires Categorize(rs2, flush2).kind !in {HighCard, Flush}
    ensures Categorize(rs1, flush1).value > Categorize(rs2, flush2).value
  {
    HighCardRange(rs1, flush1);
    ScoreRanges(rs2, flush2);
  }

  /** A pair of Sevens with Ace, King and Queen. */
  lemma SevensWithHighKickers()
    ensures var rs: seq<Rank> := [Seven, Seven, Queen, King, Ace];
      Ascending(rs) && Categorize(rs, false) == Rating(Pair, 16320)
  {
    var rs: seq<Rank> := [Seven, Seven, Queen, King, Ace];
    AscendingFive(Seven, Seven, Queen, King, Ace);
    assert multiset(rs) == multiset{Seven, Seven, Ace, King, Queen};
    PairScore(rs, Seven, Ace, King, Queen);
  }

  /** A pair of Eights with Four, Three and Two. */
  lemma EightsWithLowKickers()
    ensures var rs: seq<Rank> := [Two, Three, Four, Eight, Eight];
      Ascending(rs) && Categorize(rs, false) == Rating(Pair, 16210)
  {
    var rs: seq<Rank> := [Two, Three, Four, Eight, Eight];
    AscendingFive(Two, Three, Four, Eight, Eight);
    assert multiset(rs) == multiset{Eight, Eight, Four, Three, Two};
    PairScore(rs, Eight, Four, Three, Two);
  }

  /** A pair's kickers can outweigh the pair: Sevens with A-K-Q score above Eights with 4-3-2. */
  lemma PairKickersOutweigh()
    ensures var sevens: seq<Rank> := [Seven, Seven, Queen, King, Ace];
      var eights: seq<Rank> := [Two, Three, Four, Eight, Eight];
      Ascending(sevens) && Ascending(eights) && Categorize(sevens, false).value > Categorize(eights, false).value
  {
    SevensWithHighKickers();
    EightsWithLowKickers();
  }

  /** `a` comes before `b` comparing positions `i-1`, `i-2`, ..., 0 in turn. */
  predicate LexLessFromTop(a: seq<Rank>, b: seq<Rank>, i: nat)
    requires i <= |a| && i <= |b|
  {
    i > 0 && (a[i - 1] < b[i - 1] || (a[i - 1] == b[i - 1] && LexLessFromTop(a, b, i - 1)))
  }

  lemma DigitStep(x: int, y: int, u: int, w: int, p: int)
    requires 0 <= x < y && 0 <= u < p && 0 <= w && p > 0
    ensures x * p + u < y * p + w
  {
    assert (x + 1) * p <= y * p;
  }

  /** Base-100 numbers with digits below 100 compare like their digit strings. */
  lemma {:induction false} Base100Lex(a: seq<Rank>, b: seq<Rank>, i: nat)
    requires i <= |a| && i <= |b|
    ensures Base100(a, i) < Base100(b, i) <==> LexLessFromTop(a, b, i)
  {
    if i > 0 {
      Base100Lex(a, b, i - 1);
      Base100Bound(a, i - 1);
      Base100Bound(b, i - 1);
      var p := Pow100(i - 1);
      if a[i - 1] < b[i - 1] {
        DigitStep(a[i - 1], b[i - 1], Base100(a, i - 1), Base100(b, i - 1), p);
      } else if a[i - 1] > b[i - 1] {
        DigitStep(b[i - 1], a[i - 1], Base100(b, i - 1), Base100(a, i - 1), p);
      }
    }
  }

  /**
   * Between two high card hands the higher score belongs to the hand whose
   * ranks, read from the highest down, come later.
   */
  lemma HighCardOrder(rs1: seq<Rank>, rs2: seq<Rank>)
    requires |rs1| == 5 && Ascending(rs1) && (forall r :: multiset(rs1)[r] <= 1) && !IsStraightSequence(rs1)
    requires |rs2| == 5 && Ascending(rs2) && (forall r :: multiset(rs2)[r] <= 1) && !IsStraightSequence(rs2)
    ensures Categorize(rs1, false).value < Categorize(rs2, false).value <==> LexLessFromTop(rs1, rs2, 5)
  {
    HighCardScore(rs1);
    HighCardScore(rs2);
    Base100Five(rs1);
    Base100Five(rs2);
    Base100Lex(rs1, rs2, 5);
  }

  /** Full houses order by the rank of the three, then by the rank of the pair. */
  lemma FullHouseOrder(rs1: seq<Rank>, flush1: bool, t1: Rank, p1: Rank, rs2: seq<Rank>, flush2: bool, t2: Rank, p2: Rank)
    requires |rs1| == 5 && Ascending(rs1) && multiset(rs1) == multiset{t1, t1, t1, p1, p1} && t1 != p1
    requires |rs2| == 5 && Ascending(rs2) && multiset(rs2) == multiset{t2, t2, t2, p2, p2} && t2 != p2
    ensures Categorize(rs1, flush1).value < Categorize(rs2, flush2).value <==> t1 < t2 || (t1 == t2 && p1 < p2)
  {
    FullHouseScore(rs1, flush1, t1, p1);
    FullHouseScore(rs2, flush2, t2, p2);
  }

  /** Four of a kind orders by the rank of the four, then by the fifth card. */
  lemma QuadsOrder(rs1: seq<Rank>, flush1: bool, q1: Rank, k1: Rank, rs2: seq<Rank>, flush2: bool, q2: Rank, k2: Rank)
    requires |rs1| == 5 && Ascending(rs1) && multiset(rs1) == multiset{q1, q1, q1, q1, k1} && k1 != q1
    requires |rs2| == 5 && Ascending(rs2) && multiset(rs2) == multiset{q2, q2, q2, q2, k2} && k2 != q2
    ensures Categorize(rs1, flush1).value < Categorize(rs2, flush2).value <==> q1 < q2 || (q1 == q2 && k1 < k2)
  {
    QuadsScore(rs1, flush1, q1, k1);
    QuadsScore(rs2, flush2, q2, k2);
  }

  /** Straights (and straight flushes) of one type order by the top of the run. */
  lemma StraightOrder(rs1: seq<Rank>, rs2: seq<Rank>, flush: bool)
    requires |rs1| == 5 && Ascending(rs1) && IsStraightSequence(rs1)
    requires |rs2| == 5 && Ascending(rs2) && IsStraightSequence(rs2)
    requires Categorize(rs1, flush).kind == Categorize(rs2, flush).kind
    ensures Categorize(rs1, flush).value < Categorize(rs2, flush).value <==> RunTop(rs1) < RunTop(rs2)
  {
    StraightScore(rs1, flush);
    StraightScore(rs2, flush);
  }
}
