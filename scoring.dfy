/**
 * The scoring rules of `evaluateFiveCards` (backend/poker/evaluator.go),
 * stated on the five ranks of a hand in ascending order and on whether its
 * suits all agree: the ten hand types in their order of precedence and the
 * `int32` score of each, with Go's 32-bit wrap-around where it happens.
 */
module Scoring {
  import opened Cards
  import opened Ordering

  /** Go's `int32`. */
  type Int32 = x: int | -0x8000_0000 <= x < 0x8000_0000

  const TwoTo32: int := 0x1_0000_0000

  /** The two's-complement truncation Go applies to every `int32` product and sum. */
  function Wrap32(x: int): Int32 {
    (x + 0x8000_0000) % TwoTo32 - 0x8000_0000
  }

  datatype HandType =
    | HighCard | Pair | TwoPair | ThreeOfAKind | Straight
    | Flush | FullHouse | FourOfAKind | StraightFlush | RoyalFlush

  /** The number Go gives each hand type (`iota` order); scores start at `Ord(kind) * 10000`. */
  function Ord(k: HandType): nat {
    match k
    case HighCard => 0
    case Pair => 1
    case TwoPair => 2
    case ThreeOfAKind => 3
    case Straight => 4
    case Flush => 5
    case FullHouse => 6
    case FourOfAKind => 7
    case StraightFlush => 8
    case RoyalFlush => 9
  }

  /** The type and score of a five-card hand. */
  datatype Rating = Rating(kind: HandType, value: Int32)

  /**
   * The source's straight test, on ranks in ascending order: each rank one
   * above the previous one, or exactly Two, Three, Four, Five, Ace.
   */
  function IsStraightSequence(rs: seq<Rank>): (b: bool)
    requires |rs| == 5
    ensures b ==> rs[4] as int - rs[0] as int == 4 || (rs[3] == Five && rs[4] == Ace)
  {
    var regular := forall i :: 1 <= i < 5 ==> rs[i] as int == rs[i - 1] as int + 1;
    var wheel := rs[0] == Two && rs[1] == Three && rs[2] == Four && rs[3] == Five && rs[4] == Ace;
    assert regular ==> rs[1] as int == rs[0] as int + 1 && rs[2] as int == rs[1] as int + 1 &&
                       rs[3] as int == rs[2] as int + 1 && rs[4] as int == rs[3] as int + 1;
    regular || wheel
  }

  /** The ranks below `n` that occur exactly `c` times in `rs`, highest first. */
  function RanksWithCountBelow(rs: seq<Rank>, c: nat, n: nat): (g: seq<Rank>)
    requires n <= 13
    ensures forall k :: 0 <= k < |g| ==> g[k] < n && multiset(rs)[g[k]] == c
  {
    if n == 0 then []
    else (if multiset(rs)[n - 1] == c then [n - 1] else []) + RanksWithCountBelow(rs, c, n - 1)
  }

  /**
   * The ranks occurring exactly `c` times, highest first: the `pairs` slice of
   * the source after its descending sort (c = 2), or the rank it records as
   * `trips` (c = 3) or `quads` (c = 4).
   */
  function Groups(rs: seq<Rank>, c: nat): seq<Rank> {
    RanksWithCountBelow(rs, c, 13)
  }

  lemma {:induction false} RanksWithCountBelowMeaning(rs: seq<Rank>, c: nat, n: nat)
    requires n <= 13
    ensures StrictlyDescending(RanksWithCountBelow(rs, c, n))
    ensures forall r: int :: r in RanksWithCountBelow(rs, c, n) <==> 0 <= r < n && multiset(rs)[r] == c
  {
    if n > 0 {
      RanksWithCountBelowMeaning(rs, c, n - 1);
    }
  }

  /** `Groups(rs, c)` lists, highest first, exactly the ranks that occur `c` times. */
  lemma GroupsMeaning(rs: seq<Rank>, c: nat)
    ensures StrictlyDescending(Groups(rs, c))
    ensures forall r: int :: r in Groups(rs, c) <==> 0 <= r < 13 && multiset(rs)[r] == c
  {
    RanksWithCountBelowMeaning(rs, c, 13);
  }

  /** The ranks of `rs` other than `x`, in their order in `rs`. */
  function OtherRanks(rs: seq<Rank>, x: Rank): seq<Rank> {
    if rs == [] then []
    else if rs[0] != x then [rs[0]] + OtherRanks(rs[1..], x) else OtherRanks(rs[1..], x)
  }

  /** `OtherRanks` drops every `x` and keeps every other rank as often as it occurs. */
  lemma {:induction false} OtherRanksCounts(rs: seq<Rank>, x: Rank)
    ensures |OtherRanks(rs, x)| == |rs| - multiset(rs)[x]
    ensures forall k :: 0 <= k < |OtherRanks(rs, x)| ==> OtherRanks(rs, x)[k] != x
    ensures multiset(OtherRanks(rs, x)) == multiset(rs)[x := 0]
  {
    if rs != [] {
      assert rs == [rs[0]] + rs[1..];
      OtherRanksCounts(rs[1..], x);
    }
  }

  /** Adding a rank at the end adds it to the other ranks unless it is `x`. */
  lemma {:induction false} OtherRanksAppend(rs: seq<Rank>, y: Rank, x: Rank)
    ensures OtherRanks(rs + [y], x) == OtherRanks(rs, x) + (if y != x then [y] else [])
  {
    if rs != [] {
      assert (rs + [y])[1..] == rs[1..] + [y];
      OtherRanksAppend(rs[1..], y, x);
    } else {
      assert OtherRanks([y], x) == (if y != x then [y] else []) + OtherRanks([], x);
    }
  }

  lemma {:induction false} OtherRanksAscending(rs: seq<Rank>, x: Rank)
    requires Ascending(rs)
    ensures Ascending(OtherRanks(rs, x))
  {
    if rs != [] {
      OtherRanksAscending(rs[1..], x);
      OtherRanksCounts(rs[1..], x);
      var rest := OtherRanks(rs[1..], x);
      forall k | 0 <= k < |rest| ensures rs[0] <= rest[k] {
        assert rest[k] in multiset(rest);
        assert rest[k] in rs[1..];
      }
    }
  }

  /** The first rank in `rs` other than `x`; Two (Go's zero `Rank`) when there is none. */
  function FirstOther(rs: seq<Rank>, x: Rank): Rank {
    if rs == [] then Two else if rs[0] != x then rs[0] else FirstOther(rs[1..], x)
  }

  /**
   * `FirstOther` is the kicker loop of four of a kind: the first rank different
   * from `x`, or Two when every rank is `x`.
   */
  lemma {:induction false} FirstOtherMeaning(rs: seq<Rank>, x: Rank)
    ensures (forall k :: 0 <= k < |rs| ==> rs[k] == x) ==> FirstOther(rs, x) == Two
    ensures (exists k :: 0 <= k < |rs| && rs[k] != x) ==>
              exists k :: 0 <= k < |rs| && rs[k] == FirstOther(rs, x) != x && forall j :: 0 <= j < k ==> rs[j] == x
  {
    if rs != [] && rs[0] == x {
      FirstOtherMeaning(rs[1..], x);
      if exists k :: 0 <= k < |rs| && rs[k] != x {
        var k :| 0 <= k < |rs| && rs[k] != x;
        assert rs[1..][k - 1] != x;
        var k' :| 0 <= k' < |rs| - 1 && rs[1..][k'] == FirstOther(rs[1..], x) != x
                  && forall j :: 0 <= j < k' ==> rs[1..][j] == x;
        assert forall j :: 0 <= j < k' + 1 ==> rs[j] == x by {
          forall j | 0 <= j < k' + 1 ensures rs[j] == x {
            if j > 0 {
              assert rs[j] == rs[1..][j - 1];
            }
          }
        }
        assert rs[k' + 1] == FirstOther(rs, x);
      }
    } else if rs != [] {
      assert rs[0] == FirstOther(rs, x);
    }
  }

  /** The first rank in `rs` that is neither `x` nor `y`; Two when there is none. */
  function FirstOutside(rs: seq<Rank>, x: Rank, y: Rank): Rank {
    if rs == [] then Two
    else if rs[0] != x && rs[0] != y then rs[0]
    else FirstOutside(rs[1..], x, y)
  }

  /** `FirstOutside` is the kicker loop of two pair: the first rank that is neither `x` nor `y`. */
  lemma {:induction false} FirstOutsideMeaning(rs: seq<Rank>, x: Rank, y: Rank)
    ensures (forall k :: 0 <= k < |rs| ==> rs[k] == x || rs[k] == y) ==> FirstOutside(rs, x, y) == Two
    ensures (exists k :: 0 <= k < |rs| && rs[k] != x && rs[k] != y) ==>
              exists k :: 0 <= k < |rs| && rs[k] == FirstOutside(rs, x, y) && rs[k] != x && rs[k] != y &&
                          forall j :: 0 <= j < k ==> rs[j] == x || rs[j] == y
  {
    if rs != [] && (rs[0] == x || rs[0] == y) {
      FirstOutsideMeaning(rs[1..], x, y);
      if exists k :: 0 <= k < |rs| && rs[k] != x && rs[k] != y {
        var k :| 0 <= k < |rs| && rs[k] != x && rs[k] != y;
        assert rs[1..][k - 1] != x && rs[1..][k - 1] != y;
        var k' :| 0 <= k' < |rs| - 1 && rs[1..][k'] == FirstOutside(rs[1..], x, y) && rs[1..][k'] != x && rs[1..][k'] != y
                  && forall j :: 0 <= j < k' ==> rs[1..][j] == x || rs[1..][j] == y;
        assert forall j :: 0 <= j < k' + 1 ==> rs[j] == x || rs[j] == y by {
          forall j | 0 <= j < k' + 1 ensures rs[j] == x || rs[j] == y {
            if j > 0 {
              assert rs[j] == rs[1..][j - 1];
            }
          }
        }
        assert rs[k' + 1] == FirstOutside(rs, x, y);
      }
    } else if rs != [] {
      assert rs[0] == FirstOutside(rs, x, y);
    }
  }

  /**
   * The source's loop `for i := 4; i >= 0; i-- { value = value*100 + rank[i] }`
   * on `int32`, here over the first `i` ranks: each product and each sum wraps.
   */
  function Pack(v: Int32, rs: seq<Rank>, i: nat): Int32
    requires i <= |rs|
    decreases i
  {
    if i == 0 then v else Pack(Wrap32(Wrap32(v * 100) + rs[i - 1]), rs, i - 1)
  }

  /** The high card of a straight: Five for the wheel, otherwise the top rank. */
  function StraightHigh(rs: seq<Rank>): Rank
    requires |rs| == 5
  {
    if rs[0] == Two && rs[4] == Ace then Five else rs[4]
  }

  /** Three of a kind: the rank, then the two kickers in descending order, in slots of 100, 10 and 1. */
  function TripsValue(rs: seq<Rank>, t: Rank): (v: Int32)
    requires |rs| == 5 && multiset(rs)[t] == 3
    ensures 30000 + t * 100 <= v <= 30000 + t * 100 + 132
  {
    OtherRanksCounts(rs, t);
    var kickers := Reverse(OtherRanks(rs, t));
    30000 + t as int * 100 + kickers[0] as int * 10 + kickers[1] as int
  }

  /** One pair: the rank, then the three kickers in descending order, in slots of 1000, 100, 10 and 1. */
  function PairValue(rs: seq<Rank>, p: Rank): (v: Int32)
    requires |rs| == 5 && multiset(rs)[p] == 2
    ensures 10000 + p * 1000 <= v <= 10000 + p * 1000 + 1332
  {
    OtherRanksCounts(rs, p);
    var kickers := Reverse(OtherRanks(rs, p));
    10000 + p as int * 1000 + kickers[0] as int * 100 + kickers[1] as int * 10 + kickers[2] as int
  }

  /**
   * The type and score of five ranks in ascending order, with `flush` telling
   * whether all five suits agree: the branches of `evaluateFiveCards` in the
   * source's order (the later ones in `GroupedRating` and `LesserRating`).
   */
  function Categorize(rs: seq<Rank>, flush: bool): (r: Rating)
    requires |rs| == 5 && Ascending(rs)
    ensures r.kind in {StraightFlush, RoyalFlush} <==> flush && IsStraightSequence(rs)
  {
    var straight := IsStraightSequence(rs);
    if flush && straight && rs[0] == Ten && rs[4] == Ace then
      Rating(RoyalFlush, 90000 + rs[4] as int)
    else if flush && straight then
      Rating(StraightFlush, 80000 + StraightHigh(rs) as int)
    else
      GroupedRating(rs, flush, straight)
  }

  /** Four of a kind, full house, flush and straight, then the rest. */
  function GroupedRating(rs: seq<Rank>, flush: bool, straight: bool): (r: Rating)
    requires |rs| == 5 && Ascending(rs)
    ensures r.kind !in {StraightFlush, RoyalFlush}
    ensures r.kind == FourOfAKind <==> Groups(rs, 4) != []
    ensures r.kind == FullHouse <==> Groups(rs, 4) == [] && Groups(rs, 3) != [] && Groups(rs, 2) != []
    ensures r.kind == Flush ==> flush
    ensures r.kind == Straight ==> straight && !flush
  {
    var pairs := Groups(rs, 2);
    var trips := Groups(rs, 3);
    var quads := Groups(rs, 4);
    if |quads| > 0 then
      Rating(FourOfAKind, 70000 + quads[0] as int * 100 + FirstOther(rs, quads[0]) as int)
    else if |trips| > 0 && |pairs| > 0 then
      Rating(FullHouse, 60000 + trips[0] as int * 100 + pairs[0] as int)
    else if flush then
      Rating(Flush, Pack(50000, rs, 5))
    else if straight then
      Rating(Straight, 40000 + StraightHigh(rs) as int)
    else
      LesserRating(rs)
  }

  /** Three of a kind, two pair, one pair and high card. */
  function LesserRating(rs: seq<Rank>): (r: Rating)
    requires |rs| == 5 && Ascending(rs)
    ensures r.kind in {HighCard, Pair, TwoPair, ThreeOfAKind}
    ensures r.kind == ThreeOfAKind <==> Groups(rs, 3) != []
    ensures r.kind == TwoPair <==> Groups(rs, 3) == [] && |Groups(rs, 2)| >= 2
    ensures r.kind == HighCard <==> Groups(rs, 3) == [] && Groups(rs, 2) == []
  {
    var pairs := Groups(rs, 2);
    var trips := Groups(rs, 3);
    if |trips| > 0 then
      Rating(ThreeOfAKind, TripsValue(rs, trips[0]))
    else if |pairs| >= 2 then
      Rating(TwoPair, 20000 + pairs[0] as int * 1000 + pairs[1] as int * 100 + FirstOutside(rs, pairs[0], pairs[1]) as int)
    else if |pairs| == 1 then
      Rating(Pair, PairValue(rs, pairs[0]))
    else
      Rating(HighCard, Pack(0, rs, 5))
  }

  /** Insertion of `x` into ranks in ascending order. */
  function InsertRank(x: Rank, s: seq<Rank>): (r: seq<Rank>)
    requires Ascending(s)
    ensures multiset(r) == multiset(s) + multiset{x}
    ensures Ascending(r)
  {
    if s == [] || x <= s[0] then [x] + s
    else
      assert s == [s[0]] + s[1..];
      var rest := InsertRank(x, s[1..]);
      InsertedAbove(x, s, rest);
      [s[0]] + rest
  }

  /** What is inserted after the head of an ascending list lies at or above that head. */
  lemma InsertedAbove(x: Rank, s: seq<Rank>, rest: seq<Rank>)
    requires Ascending(s) && s != [] && s[0] < x && multiset(rest) == multiset(s[1..]) + multiset{x}
    ensures forall k :: 0 <= k < |rest| ==> s[0] <= rest[k]
  {
    forall k | 0 <= k < |rest| ensures s[0] <= rest[k] {
      assert rest[k] in multiset(rest);
      if rest[k] != x {
        assert rest[k] in s[1..];
      }
    }
  }

  /** A reference ascending sort of ranks: the canonical order in which a hand is scored. */
  function SortRanks(s: seq<Rank>): (r: seq<Rank>)
    ensures Ascending(r) && multiset(r) == multiset(s)
  {
    if s == [] then []
    else
      assert s == [s[0]] + s[1..];
      InsertRank(s[0], SortRanks(s[1..]))
  }
}
