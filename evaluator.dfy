/**
 * `evaluateFiveCards` and `compareHands` of backend/poker/evaluator.go: the
 * five cards are copied and sorted by rank in place, ranks and suits are
 * tallied in maps, the rank tally is walked (in map order) to find pairs,
 * three of a kind and four of a kind, and the branches of the source build
 * the hand. The method is proved to produce `Classify` of its sorted cards.
 */
module Evaluator {
  import opened Cards
  import opened Ordering
  import opened Scoring
  import opened ScoreFacts

  /** An evaluated hand: type, `int32` score, description and the cards in scoring order. */
  datatype Hand = Hand(kind: HandType, value: Int32, description: seq<Byte>, cards: seq<Card>)

  /** The description the source gives each hand type. */
  function Label(k: HandType): seq<Byte> {
    match k
    case HighCard => "High Card"
    case Pair => "Pair"
    case TwoPair => "Two Pair"
    case ThreeOfAKind => "Three of a Kind"
    case Straight => "Straight"
    case Flush => "Flush"
    case FullHouse => "Full House"
    case FourOfAKind => "Four of a Kind"
    case StraightFlush => "Straight Flush"
    case RoyalFlush => "Royal Flush"
  }

  /** What the source returns for a card count other than five (and other than seven for a best hand). */
  const InvalidHand: Hand := Hand(HighCard, 0, "Invalid number of cards", [])

  function Ranks(s: seq<Card>): (rs: seq<Rank>)
    ensures |rs| == |s| && forall i :: 0 <= i < |s| ==> rs[i] == s[i].rank
  {
    seq(|s|, i requires 0 <= i < |s| => s[i].rank)
  }

  function Suits(s: seq<Card>): (ss: seq<Suit>)
    ensures |ss| == |s| && forall i :: 0 <= i < |s| ==> ss[i] == s[i].suit
  {
    seq(|s|, i requires 0 <= i < |s| => s[i].suit)
  }

  predicate SortedByRank(s: seq<Card>) {
    forall i, j :: 0 <= i < j < |s| ==> s[i].rank <= s[j].rank
  }

  predicate AllSameSuit(s: seq<Card>) {
    forall c, d :: c in s && d in s ==> c.suit == d.suit
  }

  /** The hand the source builds from five cards already sorted by rank. */
  function Classify(s: seq<Card>): (h: Hand)
    requires |s| == 5 && SortedByRank(s)
    ensures h.cards == s && h.description == Label(h.kind)
  {
    var r := Categorize(Ranks(s), AllSameSuit(s));
    Hand(r.kind, r.value, Label(r.kind), s)
  }

  /** The score of any five cards, whatever their order. */
  function Score(five: seq<Card>): Int32
    requires |five| == 5
  {
    var rs := SortRanks(Ranks(five));
    assert |rs| == |multiset(rs)| == |multiset(Ranks(five))|;
    Categorize(rs, AllSameSuit(five)).value
  }

  function RankKey(c: Card): int {
    c.rank
  }

  /** The copy and `sort.Slice` by rank: ascending ranks, the same cards. */
  method SortByRank(cards: seq<Card>) returns (sorted: seq<Card>)
    ensures SortedByRank(sorted) && multiset(sorted) == multiset(cards)
  {
    var a := new Card[|cards|](i requires 0 <= i < |cards| => cards[i]);
    assert a[..] == cards;
    InsertionSortBy(a, RankKey);
    sorted := a[..];
  }

  /** `sort.Slice` with `>` on a slice of ranks. */
  method SortRanksDescending(s: seq<Rank>) returns (r: seq<Rank>)
    ensures Descending(r) && multiset(r) == multiset(s)
  {
    var a := new Rank[|s|](i requires 0 <= i < |s| => s[i]);
    assert a[..] == s;
    InsertionSortBy(a, (x: Rank) => -(x as int));
    r := a[..];
  }

  /** `m` holds, for each key occurring in `s`, the number of its occurrences, and no other key. */
  ghost predicate Counts<K(!new)>(m: map<K, nat>, s: seq<K>) {
    (forall k :: k in m <==> multiset(s)[k] > 0) && (forall k :: k in m ==> m[k] == multiset(s)[k])
  }

  /** Go's `m[k]++`: a missing key counts from zero. */
  function Increment<K>(m: map<K, nat>, k: K): map<K, nat> {
    m[k := (if k in m then m[k] else 0) + 1]
  }

  lemma CountsStep<K(!new)>(m: map<K, nat>, s: seq<K>, k: K)
    requires Counts(m, s)
    ensures Counts(Increment(m, k), s + [k])
  {
    assert multiset(s + [k]) == multiset(s) + multiset{k};
  }

  lemma PrefixStep(s: seq<Card>, n: int)
    requires 0 <= n < |s|
    ensures Ranks(s[..n + 1]) == Ranks(s[..n]) + [s[n].rank]
    ensures Suits(s[..n + 1]) == Suits(s[..n]) + [s[n].suit]
  {
  }

  /** The loop filling `rankCount` and `suitCount`. */
  method Tally(sorted: seq<Card>) returns (rankCount: map<Rank, nat>, suitCount: map<Suit, nat>)
    ensures Counts(rankCount, Ranks(sorted)) && Counts(suitCount, Suits(sorted))
  {
    rankCount, suitCount := map[], map[];
    var n := 0;
    while n < |sorted|
      invariant 0 <= n <= |sorted|
      invariant Counts(rankCount, Ranks(sorted[..n])) && Counts(suitCount, Suits(sorted[..n]))
    {
      var card := sorted[n];
      PrefixStep(sorted, n);
      CountsStep(rankCount, Ranks(sorted[..n]), card.rank);
      CountsStep(suitCount, Suits(sorted[..n]), card.suit);
      rankCount := Increment(rankCount, card.rank);
      suitCount := Increment(suitCount, card.suit);
      n := n + 1;
    }
    assert sorted[..n] == sorted;
  }

  lemma SingletonSet<T>(S: set<T>, a: T, b: T)
    requires |S| == 1 && a in S && b in S
    ensures a == b
  {
    var rest := S - {a};
    assert |rest| == 0;
    assert rest == {};
  }

  /** `len(suitCount) == 1`: the five cards share one suit. */
  lemma FlushTest(s: seq<Card>, suitCount: map<Suit, nat>)
    requires |s| == 5 && Counts(suitCount, Suits(s))
    ensures (|suitCount| == 1) == AllSameSuit(s)
  {
    var keys := suitCount.Keys;
    forall k ensures k in keys <==> k in Suits(s) {
      assert k in Suits(s) <==> k in multiset(Suits(s));
    }
    assert |suitCount| == |keys|;
    if |keys| == 1 {
      OneSuit(s, keys);
    }
    if AllSameSuit(s) {
      SameSuitKeys(s, keys);
    }
  }

  /** When the suits seen form one set element, every card has that suit. */
  lemma OneSuit(s: seq<Card>, keys: set<Suit>)
    requires |keys| == 1 && forall k :: k in keys <==> k in Suits(s)
    ensures AllSameSuit(s)
  {
    forall c, d | c in s && d in s ensures c.suit == d.suit {
      var i :| 0 <= i < |s| && s[i] == c;
      var j :| 0 <= j < |s| && s[j] == d;
      assert Suits(s)[i] == c.suit && Suits(s)[j] == d.suit;
      SingletonSet(keys, c.suit, d.suit);
    }
  }

  /** When every card has one suit, the suits seen are that one suit. */
  lemma SameSuitKeys(s: seq<Card>, keys: set<Suit>)
    requires |s| > 0 && AllSameSuit(s) && forall k :: k in keys <==> k in Suits(s)
    ensures |keys| == 1
  {
    forall x | x in keys ensures x == s[0].suit {
      var i :| 0 <= i < |s| && Suits(s)[i] == x;
      assert s[i] in s && s[0] in s;
    }
    assert Suits(s)[0] == s[0].suit;
    assert keys == {s[0].suit};
  }

  /**
   * The walk over `rankCount` in Go's unspecified map order: every rank seen
   * twice is appended to `pairs`; a rank seen three (four) times is recorded as
   * `trips` (`quads`), the last one visited winning.
   */
  method GroupRanks(rankCount: map<Rank, nat>) returns (pairs: seq<Rank>, trips: int, quads: int, hasTrips: bool, hasQuads: bool)
    ensures forall r: Rank :: multiset(pairs)[r] == if r in rankCount && rankCount[r] == 2 then 1 else 0
    ensures hasTrips <==> exists r :: r in rankCount && rankCount[r] == 3
    ensures hasTrips ==> 0 <= trips < 13 && trips in rankCount && rankCount[trips] == 3
    ensures !hasTrips ==> trips == -1
    ensures hasQuads <==> exists r :: r in rankCount && rankCount[r] == 4
    ensures hasQuads ==> 0 <= quads < 13 && quads in rankCount && rankCount[quads] == 4
    ensures !hasQuads ==> quads == -1
  {
    pairs, trips, quads, hasTrips, hasQuads := [], -1, -1, false, false;
    var remaining := rankCount.Keys;
    while remaining != {}
      invariant remaining <= rankCount.Keys
      invariant forall r: Rank :: multiset(pairs)[r] == if r in rankCount && r !in remaining && rankCount[r] == 2 then 1 else 0
      invariant hasTrips <==> exists r :: r in rankCount && r !in remaining && rankCount[r] == 3
      invariant hasTrips ==> 0 <= trips < 13 && trips in rankCount && rankCount[trips] == 3
      invariant !hasTrips ==> trips == -1
      invariant hasQuads <==> exists r :: r in rankCount && r !in remaining && rankCount[r] == 4
      invariant hasQuads ==> 0 <= quads < 13 && quads in rankCount && rankCount[quads] == 4
      invariant !hasQuads ==> quads == -1
      decreases |remaining|
    {
      var rank :| rank in remaining;
      var count := rankCount[rank];
      if count == 2 {
        pairs := pairs + [rank];
      } else if count == 3 {
        trips, hasTrips := rank, true;
      } else if count == 4 {
        quads, hasQuads := rank, true;
      }
      remaining := remaining - {rank};
    }
  }

  /** Ranks occurring `c` times, listed once each: the multiset of `Groups(rs, c)`. */
  lemma GroupsMultiset(rs: seq<Rank>, c: nat)
    ensures forall r: Rank :: multiset(Groups(rs, c))[r] == if multiset(rs)[r] == c then 1 else 0
  {
    GroupsMeaning(rs, c);
    StrictlyDescendingCounts(Groups(rs, c));
  }

  /** For five cards at most one rank occurs three times, and at most one four times. */
  lemma SingleGroup(rs: seq<Rank>, c: nat, x: Rank)
    requires |rs| == 5 && c >= 3 && multiset(rs)[x] == c
    ensures Groups(rs, c) == [x]
  {
    forall r | r != x ensures multiset(rs)[r] != c {
      TwoCountsBound(rs, x, r);
    }
    GroupsSingle(rs, c, x);
  }

  /** What the map walk finds is what `Groups` lists. */
  lemma WalkFindsGroups(rs: seq<Rank>, rankCount: map<Rank, nat>, pairs: seq<Rank>, trips: int, quads: int, hasTrips: bool, hasQuads: bool)
    requires |rs| == 5 && Counts(rankCount, rs)
    requires forall r: Rank :: multiset(pairs)[r] == if r in rankCount && rankCount[r] == 2 then 1 else 0
    requires hasTrips <==> exists r :: r in rankCount && rankCount[r] == 3
    requires hasTrips ==> 0 <= trips < 13 && trips in rankCount && rankCount[trips] == 3
    requires hasQuads <==> exists r :: r in rankCount && rankCount[r] == 4
    requires hasQuads ==> 0 <= quads < 13 && quads in rankCount && rankCount[quads] == 4
    ensures multiset(pairs) == multiset(Groups(rs, 2))
    ensures hasTrips <==> Groups(rs, 3) != []
    ensures hasTrips ==> trips == Groups(rs, 3)[0]
    ensures hasQuads <==> Groups(rs, 4) != []
    ensures hasQuads ==> quads == Groups(rs, 4)[0]
  {
    GroupsMultiset(rs, 2);
    assert forall r: Rank :: multiset(pairs)[r] == multiset(Groups(rs, 2))[r];
    GroupsPresent(rs, 3);
    GroupsPresent(rs, 4);
    if hasTrips {
      SingleGroup(rs, 3, trips);
    }
    if hasQuads {
      SingleGroup(rs, 4, quads);
    }
  }

  /** The kicker loop of four of a kind: the first rank other than `x`, Two (Go's zero `Rank`) if none. */
  method FirstRankOtherThan(sorted: seq<Card>, x: Rank) returns (kicker: Rank)
    ensures kicker == FirstOther(Ranks(sorted), x)
  {
    kicker := Two;
    var n := 0;
    while n < |sorted|
      invariant 0 <= n <= |sorted|
      invariant FirstOther(Ranks(sorted), x) == FirstOther(Ranks(sorted)[n..], x)
    {
      assert Ranks(sorted)[n..][1..] == Ranks(sorted)[n + 1..];
      if sorted[n].rank != x {
        kicker := sorted[n].rank;
        return;
      }
      n := n + 1;
    }
  }

  /** The kicker loop of two pair: the first rank that is neither `x` nor `y`. */
  method FirstRankOutside(sorted: seq<Card>, x: Rank, y: Rank) returns (kicker: Rank)
    ensures kicker == FirstOutside(Ranks(sorted), x, y)
  {
    kicker := Two;
    var n := 0;
    while n < |sorted|
      invariant 0 <= n <= |sorted|
      invariant FirstOutside(Ranks(sorted), x, y) == FirstOutside(Ranks(sorted)[n..], x, y)
    {
      assert Ranks(sorted)[n..][1..] == Ranks(sorted)[n + 1..];
      if sorted[n].rank != x && sorted[n].rank != y {
        kicker := sorted[n].rank;
        return;
      }
      n := n + 1;
    }
  }

  /** The append loop collecting the kickers of three of a kind or a pair. */
  method RanksOtherThan(sorted: seq<Card>, x: Rank) returns (kickers: seq<Rank>)
    ensures kickers == OtherRanks(Ranks(sorted), x)
  {
    kickers := [];
    var n := 0;
    while n < |sorted|
      invariant 0 <= n <= |sorted|
      invariant kickers == OtherRanks(Ranks(sorted[..n]), x)
    {
      PrefixStep(sorted, n);
      OtherRanksAppend(Ranks(sorted[..n]), sorted[n].rank, x);
      if sorted[n].rank != x {
        kickers := kickers + [sorted[n].rank];
      }
      n := n + 1;
    }
    assert sorted[..n] == sorted;
  }

  /** The `for i := 4; i >= 0; i--` loop building a flush or high card score in `int32`. */
  method PackRanks(start: Int32, sorted: seq<Card>) returns (value: Int32)
    requires |sorted| == 5
    ensures value == Pack(start, Ranks(sorted), 5)
  {
    value := start;
    var i := 4;
    while i >= 0
      invariant -1 <= i <= 4
      invariant Pack(value, Ranks(sorted), i + 1) == Pack(start, Ranks(sorted), 5)
    {
      value := Wrap32(Wrap32(value * 100) + sorted[i].rank);
      i := i - 1;
    }
  }

  /** The ranks of cards sorted by rank are in ascending order. */
  lemma SortedRanks(s: seq<Card>)
    requires SortedByRank(s)
    ensures Ascending(Ranks(s))
  {
  }

  /** Two lists with the same elements have the same length. */
  lemma SameLength(a: seq<Rank>, b: seq<Rank>)
    requires multiset(a) == multiset(b)
    ensures |a| == |b|
  {
    assert |a| == |multiset(a)|;
  }

  /** What the walk over `rankCount` hands to the branches, in terms of `Groups`. */
  ghost predicate FoundGroups(rs: seq<Rank>, pairs: seq<Rank>, trips: int, quads: int, hasTrips: bool, hasQuads: bool) {
    && multiset(pairs) == multiset(Groups(rs, 2))
    && (hasTrips <==> Groups(rs, 3) != [])
    && (hasTrips ==> trips == Groups(rs, 3)[0])
    && (hasQuads <==> Groups(rs, 4) != [])
    && (hasQuads ==> quads == Groups(rs, 4)[0])
  }

  /** Sorting the unordered pairs from the map walk gives the pairs highest first. */
  lemma SortedPairs(rs: seq<Rank>, pairs: seq<Rank>, sortedPairs: seq<Rank>)
    requires multiset(pairs) == multiset(Groups(rs, 2))
    requires Descending(sortedPairs) && multiset(sortedPairs) == multiset(pairs)
    ensures sortedPairs == Groups(rs, 2)
  {
    GroupsMeaning(rs, 2);
    DescendingUnique(sortedPairs, Groups(rs, 2));
  }

  /** A single pair needs no sorting. */
  lemma OnlyPair(rs: seq<Rank>, pairs: seq<Rank>)
    requires multiset(pairs) == multiset(Groups(rs, 2)) && |pairs| == 1
    ensures pairs == Groups(rs, 2)
  {
    assert |Groups(rs, 2)| == |multiset(Groups(rs, 2))| == 1;
    assert pairs[0] in multiset(Groups(rs, 2));
  }

  /** The sorted kickers of three of a kind or a pair. */
  lemma SortedKickers(rs: seq<Rank>, x: Rank, kickers: seq<Rank>)
    requires Ascending(rs) && Descending(kickers) && multiset(kickers) == multiset(OtherRanks(rs, x))
    ensures kickers == Reverse(OtherRanks(rs, x))
  {
    OtherRanksCounts(rs, x);
    KickersOf(rs, x, kickers);
  }

  /** The three-of-a-kind branch: the rank, then the other two ranks highest first. */
  method TripsHand(sorted: seq<Card>, t: Rank) returns (h: Hand)
    requires |sorted| == 5 && SortedByRank(sorted) && multiset(Ranks(sorted))[t] == 3
    ensures h == Hand(ThreeOfAKind, TripsValue(Ranks(sorted), t), Label(ThreeOfAKind), sorted)
  {
    var kickers := RanksOtherThan(sorted, t);
    kickers := SortRanksDescending(kickers);
    SortedKickers(Ranks(sorted), t, kickers);
    OtherRanksCounts(Ranks(sorted), t);
    return Hand(ThreeOfAKind, 30000 + t as int * 100 + kickers[0] as int * 10 + kickers[1] as int, Label(ThreeOfAKind), sorted);
  }

  /** The one-pair branch: the rank, then the other three ranks highest first. */
  method PairHand(sorted: seq<Card>, p: Rank) returns (h: Hand)
    requires |sorted| == 5 && SortedByRank(sorted) && multiset(Ranks(sorted))[p] == 2
    ensures h == Hand(Pair, PairValue(Ranks(sorted), p), Label(Pair), sorted)
  {
    var kickers := RanksOtherThan(sorted, p);
    kickers := SortRanksDescending(kickers);
    SortedKickers(Ranks(sorted), p, kickers);
    OtherRanksCounts(Ranks(sorted), p);
    return Hand(Pair, 10000 + p as int * 1000 + kickers[0] as int * 100 + kickers[1] as int * 10 + kickers[2] as int, Label(Pair), sorted);
  }

  /** The two-pair branch: the pairs sorted highest first, then the first rank outside both. */
  method TwoPairHand(sorted: seq<Card>, pairs: seq<Rank>) returns (h: Hand)
    requires |sorted| == 5 && multiset(pairs) == multiset(Groups(Ranks(sorted), 2)) && |Groups(Ranks(sorted), 2)| >= 2
    ensures var ps := Groups(Ranks(sorted), 2);
      h == Hand(TwoPair, 20000 + ps[0] as int * 1000 + ps[1] as int * 100 + FirstOutside(Ranks(sorted), ps[0], ps[1]) as int,
                Label(TwoPair), sorted)
  {
    var sortedPairs := SortRanksDescending(pairs);
    SortedPairs(Ranks(sorted), pairs, sortedPairs);
    assert |sortedPairs| >= 2;
    var kicker := FirstRankOutside(sorted, sortedPairs[0], sortedPairs[1]);
    return Hand(TwoPair, 20000 + sortedPairs[0] as int * 1000 + sortedPairs[1] as int * 100 + kicker as int, Label(TwoPair), sorted);
  }

  lemma LesserIsTrips(rs: seq<Rank>, t: Rank)
    requires |rs| == 5 && Ascending(rs) && Groups(rs, 3) != [] && Groups(rs, 3)[0] == t
    ensures multiset(rs)[t] == 3 && LesserRating(rs) == Rating(ThreeOfAKind, TripsValue(rs, t))
  {
    GroupsMeaning(rs, 3);
  }

  lemma LesserIsTwoPair(rs: seq<Rank>)
    requires |rs| == 5 && Ascending(rs) && Groups(rs, 3) == [] && |Groups(rs, 2)| >= 2
    ensures var ps := Groups(rs, 2);
      LesserRating(rs) == Rating(TwoPair, 20000 + ps[0] as int * 1000 + ps[1] as int * 100 + FirstOutside(rs, ps[0], ps[1]) as int)
  {
  }

  lemma LesserIsPair(rs: seq<Rank>, p: Rank)
    requires |rs| == 5 && Ascending(rs) && Groups(rs, 3) == [] && Groups(rs, 2) == [p]
    ensures multiset(rs)[p] == 2 && LesserRating(rs) == Rating(Pair, PairValue(rs, p))
  {
    GroupsMeaning(rs, 2);
  }

  lemma LesserIsHighCard(rs: seq<Rank>)
    requires |rs| == 5 && Ascending(rs) && Groups(rs, 3) == [] && Groups(rs, 2) == []
    ensures LesserRating(rs) == Rating(HighCard, Pack(0, rs, 5))
  {
  }

  /** Three of a kind, two pair, one pair and high card, as the source builds them. */
  method LesserHand(sorted: seq<Card>, pairs: seq<Rank>, trips: int, hasTrips: bool) returns (h: Hand)
    requires |sorted| == 5 && SortedByRank(sorted)
    requires FoundGroups(Ranks(sorted), pairs, trips, -1, hasTrips, false)
    ensures var r := LesserRating(Ranks(sorted)); h == Hand(r.kind, r.value, Label(r.kind), sorted)
  {
    ghost var rs := Ranks(sorted);
    SortedRanks(sorted);
    if hasTrips {
      LesserIsTrips(rs, trips);
      h := TripsHand(sorted, trips);
      return;
    }
    SameLength(pairs, Groups(rs, 2));
    if |pairs| >= 2 {
      LesserIsTwoPair(rs);
      h := TwoPairHand(sorted, pairs);
      return;
    }
    if |pairs| == 1 {
      OnlyPair(rs, pairs);
      LesserIsPair(rs, pairs[0]);
      h := PairHand(sorted, pairs[0]);
      return;
    }
    var value := PackRanks(0, sorted);
    LesserIsHighCard(rs);
    return Hand(HighCard, value, Label(HighCard), sorted);
  }

  /** The four-of-a-kind branch: the rank, then the first other rank. */
  method QuadsHand(sorted: seq<Card>, q: Rank) returns (h: Hand)
    ensures h == Hand(FourOfAKind, 70000 + q as int * 100 + FirstOther(Ranks(sorted), q) as int, Label(FourOfAKind), sorted)
  {
    var kicker := FirstRankOtherThan(sorted, q);
    return Hand(FourOfAKind, 70000 + q as int * 100 + kicker as int, Label(FourOfAKind), sorted);
  }

  /** The full-house branch: the three-of-a-kind rank, then the highest pair. */
  method FullHouseHand(sorted: seq<Card>, t: Rank, pairs: seq<Rank>) returns (h: Hand)
    requires multiset(pairs) == multiset(Groups(Ranks(sorted), 2)) && |pairs| > 0
    ensures |Groups(Ranks(sorted), 2)| > 0
    ensures h == Hand(FullHouse, 60000 + t as int * 100 + Groups(Ranks(sorted), 2)[0] as int, Label(FullHouse), sorted)
  {
    var sortedPairs := SortRanksDescending(pairs);
    SortedPairs(Ranks(sorted), pairs, sortedPairs);
    return Hand(FullHouse, 60000 + t as int * 100 + sortedPairs[0] as int, Label(FullHouse), sorted);
  }

  lemma GroupedIsQuads(rs: seq<Rank>, flush: bool, straight: bool, q: Rank)
    requires |rs| == 5 && Ascending(rs) && Groups(rs, 4) != [] && Groups(rs, 4)[0] == q
    ensures GroupedRating(rs, flush, straight) == Rating(FourOfAKind, 70000 + q as int * 100 + FirstOther(rs, q) as int)
  {
  }

  lemma GroupedIsFullHouse(rs: seq<Rank>, flush: bool, straight: bool, t: Rank)
    requires |rs| == 5 && Ascending(rs) && Groups(rs, 4) == []
    requires Groups(rs, 3) != [] && Groups(rs, 3)[0] == t && Groups(rs, 2) != []
    ensures GroupedRating(rs, flush, straight) == Rating(FullHouse, 60000 + t as int * 100 + Groups(rs, 2)[0] as int)
  {
  }

  /** Neither four of a kind nor a full house: `GroupedRating` falls through to its last three cases. */
  ghost function RestRating(rs: seq<Rank>, flush: bool, straight: bool): (r: Rating)
    requires |rs| == 5 && Ascending(rs)
    ensures r.kind in {Flush, Straight, ThreeOfAKind, TwoPair, Pair, HighCard}
    ensures r.kind == Flush <==> flush
    ensures r.kind == Straight <==> !flush && straight
  {
    if flush then Rating(Flush, Pack(50000, rs, 5))
    else if straight then Rating(Straight, 40000 + StraightHigh(rs) as int)
    else LesserRating(rs)
  }

  lemma GroupedIsRest(rs: seq<Rank>, flush: bool, straight: bool)
    requires |rs| == 5 && Ascending(rs) && Groups(rs, 4) == [] && (Groups(rs, 3) == [] || Groups(rs, 2) == [])
    ensures GroupedRating(rs, flush, straight) == RestRating(rs, flush, straight)
  {
  }

  /** Flush, straight, then the lesser hands. */
  method RestHand(sorted: seq<Card>, isFlush: bool, isStraight: bool, pairs: seq<Rank>, trips: int, hasTrips: bool) returns (h: Hand)
    requires |sorted| == 5 && SortedByRank(sorted)
    requires FoundGroups(Ranks(sorted), pairs, trips, -1, hasTrips, false)
    ensures var r := RestRating(Ranks(sorted), isFlush, isStraight); h == Hand(r.kind, r.value, Label(r.kind), sorted)
  {
    ghost var rs := Ranks(sorted);
    SortedRanks(sorted);
    if isFlush {
      var value := PackRanks(50000, sorted);
      return Hand(Flush, value, Label(Flush), sorted);
    }
    if isStraight {
      var highCard := sorted[4].rank;
      if sorted[0].rank == Two && sorted[4].rank == Ace {
        highCard := Five;
      }
      return Hand(Straight, 40000 + highCard as int, Label(Straight), sorted);
    }
    h := LesserHand(sorted, pairs, trips, hasTrips);
  }

  /** Four of a kind, full house, flush and straight, then the rest. */
  method GroupedHand(sorted: seq<Card>, isFlush: bool, isStraight: bool,
                     pairs: seq<Rank>, trips: int, quads: int, hasTrips: bool, hasQuads: bool) returns (h: Hand)
    requires |sorted| == 5 && SortedByRank(sorted) && isStraight == IsStraightSequence(Ranks(sorted))
    requires FoundGroups(Ranks(sorted), pairs, trips, quads, hasTrips, hasQuads)
    ensures var r := GroupedRating(Ranks(sorted), isFlush, isStraight); h == Hand(r.kind, r.value, Label(r.kind), sorted)
  {
    ghost var rs := Ranks(sorted);
    SortedRanks(sorted);
    SameLength(pairs, Groups(rs, 2));
    if hasQuads {
      GroupedIsQuads(rs, isFlush, isStraight, quads);
      h := QuadsHand(sorted, quads);
      return;
    }
    if hasTrips && |pairs| > 0 {
      GroupedIsFullHouse(rs, isFlush, isStraight, trips);
      h := FullHouseHand(sorted, trips, pairs);
      return;
    }
    GroupedIsRest(rs, isFlush, isStraight);
    h := RestHand(sorted, isFlush, isStraight, pairs, trips, hasTrips);
  }

  /** `isStraightSequence`: a run of five consecutive ranks, or the wheel A-2-3-4-5. */
  method CheckStraight(cards: seq<Card>) returns (b: bool)
    requires |cards| == 5
    ensures b == IsStraightSequence(Ranks(cards))
  {
    var isRegularStraight := true;
    var i := 1;
    while i < 5
      invariant 1 <= i <= 5
      invariant isRegularStraight == forall k :: 1 <= k < i ==> cards[k].rank as int == cards[k - 1].rank as int + 1
    {
      if cards[i].rank as int != cards[i - 1].rank as int + 1 {
        isRegularStraight := false;
        break;
      }
      i := i + 1;
    }
    var isWheel := cards[0].rank == Two && cards[1].rank == Three && cards[2].rank == Four &&
                   cards[3].rank == Five && cards[4].rank == Ace;
    b := isRegularStraight || isWheel;
  }

  /** `Categorize` in its three cases. */
  lemma CategorizeCases(rs: seq<Rank>, flush: bool)
    requires |rs| == 5 && Ascending(rs)
    ensures var straight := IsStraightSequence(rs);
      && (flush && straight && rs[0] == Ten && rs[4] == Ace ==> Categorize(rs, flush) == Rating(RoyalFlush, 90000 + rs[4] as int))
      && (flush && straight && !(rs[0] == Ten && rs[4] == Ace) ==> Categorize(rs, flush) == Rating(StraightFlush, 80000 + StraightHigh(rs) as int))
      && (!(flush && straight) ==> Categorize(rs, flush) == GroupedRating(rs, flush, straight))
  {
  }

  /**
   * `evaluateFiveCards`: the placeholder for any count other than five;
   * otherwise the cards sorted by rank (a permutation of the input) and the
   * type, score and description `Classify` gives them.
   */
  method EvaluateFiveCards(cards: seq<Card>) returns (h: Hand)
    ensures |cards| != 5 ==> h == InvalidHand
    ensures |cards| == 5 ==> |h.cards| == 5 && SortedByRank(h.cards) && multiset(h.cards) == multiset(cards)
    ensures |cards| == 5 ==> h == Classify(h.cards)
  {
    if |cards| != 5 {
      return InvalidHand;
    }
    var sorted := SortByRank(cards);
    assert |sorted| == |multiset(sorted)| == 5;
    ghost var rs := Ranks(sorted);
    var rankCount, suitCount := Tally(sorted);
    var isFlush := |suitCount| == 1;
    FlushTest(sorted, suitCount);
    var isStraight := CheckStraight(sorted);
    CategorizeCases(rs, isFlush);
    if isFlush && isStraight && sorted[0].rank == Ten && sorted[4].rank == Ace {
      return Hand(RoyalFlush, 90000 + sorted[4].rank as int, Label(RoyalFlush), sorted);
    }
    if isFlush && isStraight {
      var highCard := sorted[4].rank;
      if sorted[0].rank == Two && sorted[4].rank == Ace {
        highCard := Five;
      }
      return Hand(StraightFlush, 80000 + highCard as int, Label(StraightFlush), sorted);
    }
    var pairs, trips, quads, hasTrips, hasQuads := GroupRanks(rankCount);
    WalkFindsGroups(rs, rankCount, pairs, trips, quads, hasTrips, hasQuads);
    h := GroupedHand(sorted, isFlush, isStraight, pairs, trips, quads, hasTrips, hasQuads);
  }

  lemma RanksConcat(p: seq<Card>, q: seq<Card>)
    ensures Ranks(p + q) == Ranks(p) + Ranks(q)
  {
  }

  /** Rearranging cards rearranges their ranks. */
  lemma {:induction false} RanksPermutation(a: seq<Card>, b: seq<Card>)
    requires multiset(a) == multiset(b)
    ensures multiset(Ranks(a)) == multiset(Ranks(b))
    decreases |a|
  {
    if a == [] {
      assert |b| == |multiset(b)| == 0;
    } else {
      var x := a[0];
      assert x in multiset(b);
      var k :| 0 <= k < |b| && b[k] == x;
      var b' := b[..k] + b[k + 1..];
      assert b == b[..k] + [x] + b[k + 1..];
      assert a == [x] + a[1..];
      assert multiset(b) == multiset(b[..k]) + multiset{x} + multiset(b[k + 1..]);
      assert multiset(b') == multiset(b[..k]) + multiset(b[k + 1..]);
      assert multiset(a) == multiset{x} + multiset(a[1..]);
      assert multiset(a[1..]) == multiset(a) - multiset{x};
      assert multiset(b') == multiset(b) - multiset{x};
      RanksPermutation(a[1..], b');
      RanksConcat(b[..k] + [x], b[k + 1..]);
      RanksConcat(b[..k], [x]);
      RanksConcat(b[..k], b[k + 1..]);
      RanksConcat([x], a[1..]);
    }
  }

  /**
   * Whatever order `sort.Slice` leaves cards of equal rank in, the sorted
   * cards score as `Score` of the cards it was given.
   */
  lemma ClassifyIsScore(five: seq<Card>, s: seq<Card>)
    requires |five| == 5 && SortedByRank(s) && multiset(s) == multiset(five)
    ensures |s| == 5 && Classify(s).value == Score(five)
  {
    assert |s| == |multiset(s)| == 5;
    RanksPermutation(s, five);
    var rs := SortRanks(Ranks(five));
    assert Ascending(Ranks(s));
    AscendingUnique(Ranks(s), rs);
    forall c ensures c in s <==> c in five {
      assert c in s <==> c in multiset(s);
      assert c in five <==> c in multiset(five);
    }
    assert AllSameSuit(s) == AllSameSuit(five);
  }

  /** `compareHands`: the sign of the difference of the two scores. */
  function CompareHands(h1: Hand, h2: Hand): (c: int)
    ensures c == 1 <==> h1.value > h2.value
    ensures c == -1 <==> h1.value < h2.value
    ensures c == 0 <==> h1.value == h2.value
  {
    if h1.value > h2.value then 1
    else if h1.value < h2.value then -1
    else 0
  }

  /** Swapping the hands negates the comparison. */
  lemma CompareAntisymmetric(h1: Hand, h2: Hand)
    ensures CompareHands(h2, h1) == -CompareHands(h1, h2)
  {
  }

  /** "Beats" is transitive, and so is "beats or ties". */
  lemma CompareTransitive(h1: Hand, h2: Hand, h3: Hand)
    ensures CompareHands(h1, h2) > 0 && CompareHands(h2, h3) > 0 ==> CompareHands(h1, h3) > 0
    ensures CompareHands(h1, h2) >= 0 && CompareHands(h2, h3) >= 0 ==> CompareHands(h1, h3) >= 0
  {
  }

  /** Five hearts from Ten to Ace make a royal flush worth 90012. */
  lemma RoyalFlushWitness()
    ensures var s := [Card(Hearts, Ten), Card(Hearts, Jack), Card(Hearts, Queen), Card(Hearts, King), Card(Hearts, Ace)];
      SortedByRank(s) && Classify(s) == Hand(RoyalFlush, 90012, "Royal Flush", s)
  {
    var s := [Card(Hearts, Ten), Card(Hearts, Jack), Card(Hearts, Queen), Card(Hearts, King), Card(Hearts, Ace)];
    var rs := Ranks(s);
    assert rs == [Ten, Jack, Queen, King, Ace];
    assert IsStraightSequence(rs);
    assert Categorize(rs, true) == Rating(RoyalFlush, 90012);
    assert AllSameSuit(s);
  }
}
