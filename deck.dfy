/**
 * `GetDeck`, `RemoveCards` and `ShuffleDeck` of backend/poker/evaluator.go.
 * The random source of the shuffle is a parameter: `draw(k)` is the `k`-th
 * number it yields, and Go's `Shuffle` swaps position `i` with
 * `draw(k) % (i + 1)` for `i` from the last position down to 1.
 */
module Deck {
  import opened Cards

  /** The 52 cards, suit by suit, ranks ascending within a suit. */
  function FullDeck(): (d: seq<Card>)
    ensures |d| == 52
    ensures forall s: Suit, r: Rank :: d[s * 13 + r] == Card(s, r)
  {
    seq(52, k requires 0 <= k < 52 => Card(k / 13, k % 13))
  }

  predicate Distinct(s: seq<Card>) {
    forall i, j :: 0 <= i < j < |s| ==> s[i] != s[j]
  }

  /** The full deck holds every card exactly once. */
  lemma FullDeckComplete(c: Card)
    ensures Distinct(FullDeck())
    ensures c in FullDeck()
  {
    var d := FullDeck();
    assert d[c.suit * 13 + c.rank] == c;
    forall i, j | 0 <= i < j < 52 ensures d[i] != d[j] {
      assert d[i] == Card(i / 13, i % 13) && d[j] == Card(j / 13, j % 13);
      assert i == (i / 13) * 13 + i % 13 && j == (j / 13) * 13 + j % 13;
    }
  }

  /** `GetDeck`: the two nested loops appending suit by suit. */
  method GetDeck() returns (deck: seq<Card>)
    ensures deck == FullDeck()
  {
    deck := [];
    var suit := Hearts as int;
    while suit <= Spades as int
      invariant 0 <= suit <= 4
      invariant |deck| == suit * 13
      invariant forall k :: 0 <= k < |deck| ==> deck[k] == FullDeck()[k]
    {
      var rank := Two as int;
      while rank <= Ace as int
        invariant 0 <= rank <= 13
        invariant |deck| == suit * 13 + rank
        invariant forall k :: 0 <= k < |deck| ==> deck[k] == FullDeck()[k]
      {
        deck := deck + [Card(suit, rank)];
        rank := rank + 1;
      }
      suit := suit + 1;
    }
  }

  /** The cards of `deck` that are not in `toRemove`, in the order of `deck`. */
  function Without(deck: seq<Card>, toRemove: seq<Card>): (r: seq<Card>)
    ensures |r| <= |deck|
  {
    if deck == [] then []
    else (if deck[0] in toRemove then [] else [deck[0]]) + Without(deck[1..], toRemove)
  }

  /** A card stays exactly when it was in the deck and is not to be removed, as often as it was there. */
  lemma {:induction false} WithoutCounts(deck: seq<Card>, toRemove: seq<Card>, c: Card)
    ensures multiset(Without(deck, toRemove))[c] == if c in toRemove then 0 else multiset(deck)[c]
    ensures c in Without(deck, toRemove) <==> c in deck && c !in toRemove
  {
    if deck != [] {
      WithoutCounts(deck[1..], toRemove, c);
      assert deck == [deck[0]] + deck[1..];
    }
  }

  lemma {:induction false} WithoutAppend(d1: seq<Card>, d2: seq<Card>, toRemove: seq<Card>)
    ensures Without(d1 + d2, toRemove) == Without(d1, toRemove) + Without(d2, toRemove)
  {
    if d1 == [] {
      assert d1 + d2 == d2;
    } else {
      assert (d1 + d2)[0] == d1[0];
      assert (d1 + d2)[1..] == d1[1..] + d2;
      WithoutAppend(d1[1..], d2, toRemove);
    }
  }

  /** Removing a list of cards is removing them one at a time. */
  lemma {:induction false} WithoutOneMore(deck: seq<Card>, toRemove: seq<Card>, c: Card)
    ensures Without(deck, toRemove + [c]) == Without(Without(deck, toRemove), [c])
  {
    if deck != [] {
      WithoutOneMore(deck[1..], toRemove, c);
      var rest := Without(deck[1..], toRemove);
      assert deck[0] in toRemove + [c] <==> deck[0] in toRemove || deck[0] == c;
      if deck[0] !in toRemove {
        assert Without(deck, toRemove) == [deck[0]] + rest;
        assert ([deck[0]] + rest)[0] == deck[0] && ([deck[0]] + rest)[1..] == rest;
        assert deck[0] in [c] <==> deck[0] == c;
        assert Without([deck[0]] + rest, [c]) == (if deck[0] == c then [] else [deck[0]]) + Without(rest, [c]);
        assert Without(deck, toRemove + [c]) == (if deck[0] == c then [] else [deck[0]]) + Without(deck[1..], toRemove + [c]);
      } else {
        assert Without(deck, toRemove) == [] + rest == rest;
        assert Without(deck, toRemove + [c]) == [] + Without(deck[1..], toRemove + [c]);
      }
    }
  }

  /** Removing one card from a deck without repeats shortens it by at most one. */
  lemma {:induction false} WithoutOne(deck: seq<Card>, c: Card)
    requires Distinct(deck)
    ensures |Without(deck, [c])| >= |deck| - 1
    ensures Distinct(Without(deck, [c]))
  {
    if deck != [] {
      WithoutOne(deck[1..], c);
      WithoutCounts(deck[1..], [c], deck[0]);
      if deck[0] == c {
        assert c !in deck[1..];
        WithoutNone(deck[1..], [c]);
      }
    }
  }

  /** Removing cards none of which is in the deck changes nothing. */
  lemma {:induction false} WithoutNone(deck: seq<Card>, toRemove: seq<Card>)
    requires forall c :: c in toRemove ==> c !in deck
    ensures Without(deck, toRemove) == deck
  {
    if deck != [] {
      assert deck[0] in deck;
      WithoutNone(deck[1..], toRemove);
    }
  }

  /** Removing `n` cards from a deck without repeats leaves at least all but `n`. */
  lemma {:induction false} WithoutSize(deck: seq<Card>, toRemove: seq<Card>)
    requires Distinct(deck)
    ensures |Without(deck, toRemove)| >= |deck| - |toRemove|
    ensures Distinct(Without(deck, toRemove))
    decreases |toRemove|
  {
    if toRemove == [] {
      WithoutNone(deck, toRemove);
    } else {
      var init, c := toRemove[..|toRemove| - 1], toRemove[|toRemove| - 1];
      assert toRemove == init + [c];
      WithoutSize(deck, init);
      WithoutOneMore(deck, init, c);
      WithoutOne(Without(deck, init), c);
    }
  }

  /** `RemoveCards`: for each deck card, a scan of `toRemove` that stops at the first match. */
  method RemoveCards(deck: seq<Card>, toRemove: seq<Card>) returns (result: seq<Card>)
    ensures result == Without(deck, toRemove)
  {
    result := [];
    var n := 0;
    while n < |deck|
      invariant 0 <= n <= |deck|
      invariant result == Without(deck[..n], toRemove)
    {
      var card := deck[n];
      var shouldRemove := false;
      var m := 0;
      while m < |toRemove|
        invariant 0 <= m <= |toRemove|
        invariant shouldRemove <==> card in toRemove[..m]
      {
        if card.suit == toRemove[m].suit && card.rank == toRemove[m].rank {
          shouldRemove := true;
          break;
        }
        m := m + 1;
      }
      assert shouldRemove <==> card in toRemove by {
        if !shouldRemove {
          assert toRemove[..m] == toRemove;
        }
      }
      WithoutAppend(deck[..n], [card], toRemove);
      assert deck[..n + 1] == deck[..n] + [card];
      if !shouldRemove {
        result := result + [card];
      }
      n := n + 1;
    }
    assert deck[..n] == deck;
  }

  /** `s` with the elements at `i` and `j` exchanged. */
  function SwapAt(s: seq<Card>, i: int, j: int): (r: seq<Card>)
    requires 0 <= i < |s| && 0 <= j < |s|
    ensures |r| == |s|
  {
    s[i := s[j]][j := s[i]]
  }

  lemma SwapAtPermutes(s: seq<Card>, i: int, j: int)
    requires 0 <= i < |s| && 0 <= j < |s|
    ensures multiset(SwapAt(s, i, j)) == multiset(s)
  {
  }

  /** The position swapped with `i`: the random number reduced to `0..i`. */
  function Pick(x: nat, i: nat): (j: nat)
    ensures j <= i
  {
    x % (i + 1)
  }

  /** Go's `Shuffle` from position `i` down to 1, reading the stream from `k`. */
  function ShuffleFrom(s: seq<Card>, i: int, draw: nat -> nat, k: nat): (r: seq<Card>)
    requires i < |s|
    ensures |r| == |s|
    decreases i
  {
    if i <= 0 then s else ShuffleFrom(SwapAt(s, i, Pick(draw(k), i)), i - 1, draw, k + 1)
  }

  /** A Fisher–Yates shuffle of the whole of `s`, reading the stream from `k`. */
  function Shuffled(s: seq<Card>, draw: nat -> nat, k: nat): (r: seq<Card>)
    ensures |r| == |s|
  {
    ShuffleFrom(s, |s| - 1, draw, k)
  }

  lemma {:induction false} ShuffleFromPermutes(s: seq<Card>, i: int, draw: nat -> nat, k: nat)
    requires i < |s|
    ensures multiset(ShuffleFrom(s, i, draw, k)) == multiset(s)
    decreases i
  {
    if i > 0 {
      SwapAtPermutes(s, i, Pick(draw(k), i));
      ShuffleFromPermutes(SwapAt(s, i, Pick(draw(k), i)), i - 1, draw, k + 1);
    }
  }

  /** A shuffle rearranges the cards: each occurs as often as before. */
  lemma ShuffledPermutes(s: seq<Card>, draw: nat -> nat, k: nat)
    ensures multiset(Shuffled(s, draw, k)) == multiset(s)
  {
    ShuffleFromPermutes(s, |s| - 1, draw, k);
  }

  /** How many numbers a shuffle of `n` cards reads from the stream. */
  function DrawsUsed(n: nat): nat {
    if n == 0 then 0 else n - 1
  }

  /** One swap, then the rest of the shuffle. */
  lemma ShuffleStep(s: seq<Card>, i: int, draw: nat -> nat, k: nat, j: int)
    requires 0 < i < |s| && j == Pick(draw(k), i)
    ensures ShuffleFrom(s, i, draw, k) == ShuffleFrom(SwapAt(s, i, j), i - 1, draw, k + 1)
  {
  }

  /** The swaps of `r.Shuffle`, in place on an array. */
  method ShuffleInPlace(a: array<Card>, draw: nat -> nat, k: nat)
    modifies a
    ensures a[..] == Shuffled(old(a[..]), draw, k)
  {
    if a.Length == 0 {
      return;
    }
    var i := a.Length - 1;
    var next := k;
    while i > 0
      invariant 0 <= i < a.Length
      invariant ShuffleFrom(a[..], i, draw, next) == Shuffled(old(a[..]), draw, k)
    {
      var j := Pick(draw(next), i);
      ShuffleStep(a[..], i, draw, next, j);
      ghost var before := a[..];
      a[i], a[j] := a[j], a[i];
      assert a[..] == SwapAt(before, i, j);
      next := next + 1;
      i := i - 1;
    }
  }

  /** `ShuffleDeck`: a shuffled copy; the deck given is a value and is left as it was. */
  method ShuffleDeck(deck: seq<Card>, draw: nat -> nat, k: nat) returns (shuffled: seq<Card>)
    ensures shuffled == Shuffled(deck, draw, k)
    ensures multiset(shuffled) == multiset(deck)
  {
    var a := new Card[|deck|](i requires 0 <= i < |deck| => deck[i]);
    assert a[..] == deck;
    ShuffleInPlace(a, draw, k);
    shuffled := a[..];
    ShuffledPermutes(deck, draw, k);
  }
}
