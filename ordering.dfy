/**
 * Sorting and maxima shared by the evaluator: the in-place sort that stands
 * for Go's `sort.Slice`, the facts that make a sorted result unique, and the
 * "keep the strictly greater one, starting from 0" fold the source uses for
 * best hands.
 */
module Ordering {

  predicate Ascending(s: seq<int>) {
    forall i, j :: 0 <= i < j < |s| ==> s[i] <= s[j]
  }

  predicate Descending(s: seq<int>) {
    forall i, j :: 0 <= i < j < |s| ==> s[i] >= s[j]
  }

  /** `s` is ordered by `key`, the order a `sort.Slice` call with `less = key(a) < key(b)` produces. */
  predicate SortedBy<T>(s: seq<T>, key: T -> int) {
    forall i, j :: 0 <= i < j < |s| ==> key(s[i]) <= key(s[j])
  }

  function Reverse<T>(s: seq<T>): (r: seq<T>)
    ensures |r| == |s| && forall i :: 0 <= i < |s| ==> r[i] == s[|s| - 1 - i]
  {
    if s == [] then [] else Reverse(s[1..]) + [s[0]]
  }

  lemma {:induction false} ReverseMultiset<T>(s: seq<T>)
    ensures multiset(Reverse(s)) == multiset(s)
  {
    if s != [] {
      ReverseMultiset(s[1..]);
      assert s == [s[0]] + s[1..];
    }
  }

  /** Five values in order form an ascending sequence. */
  lemma AscendingFive(a: int, b: int, c: int, d: int, e: int)
    requires a <= b <= c <= d <= e
    ensures Ascending([a, b, c, d, e])
  {
  }

  /** The smallest element of a non-empty ascending sequence is its first. */
  lemma AscendingHeadIsMin(s: seq<int>, x: int)
    requires Ascending(s) && x in s
    ensures s[0] <= x
  {
  }

  /** Two ascending sequences holding the same elements are equal: a sort has one answer. */
  lemma {:induction false} AscendingUnique(a: seq<int>, b: seq<int>)
    requires Ascending(a) && Ascending(b) && multiset(a) == multiset(b)
    ensures a == b
    decreases |a|
  {
    if a != [] {
      assert a[0] in multiset(a);
      assert a[0] in b;
      assert b[0] in multiset(b);
      assert b[0] in a;
      AscendingHeadIsMin(b, a[0]);
      AscendingHeadIsMin(a, b[0]);
      assert a[0] == b[0];
      var a', b' := a[1..], b[1..];
      assert a == [a[0]] + a';
      assert b == [b[0]] + b';
      assert multiset(a) == multiset{a[0]} + multiset(a');
      assert multiset(b) == multiset{b[0]} + multiset(b');
      assert multiset(a') == multiset(a) - multiset{a[0]};
      assert multiset(b') == multiset(b) - multiset{b[0]};
      AscendingUnique(a', b');
    } else {
      assert multiset(b) == multiset{};
    }
  }

  lemma AscendingReverse(s: seq<int>)
    requires Ascending(s)
    ensures Descending(Reverse(s))
  {
  }

  /** Two descending sequences holding the same elements are equal. */
  lemma DescendingUnique(a: seq<int>, b: seq<int>)
    requires Descending(a) && Descending(b) && multiset(a) == multiset(b)
    ensures a == b
  {
    var ra, rb := Reverse(a), Reverse(b);
    ReverseMultiset(a);
    ReverseMultiset(b);
    assert Ascending(ra) && Ascending(rb);
    AscendingUnique(ra, rb);
    assert forall i :: 0 <= i < |a| ==> a[i] == ra[|a| - 1 - i] == rb[|a| - 1 - i] == b[i];
  }

  predicate StrictlyDescending(s: seq<int>) {
    forall i, j :: 0 <= i < j < |s| ==> s[i] > s[j]
  }

  predicate StrictlyAscending(s: seq<int>) {
    forall i, j :: 0 <= i < j < |s| ==> s[i] < s[j]
  }

  /** In a strictly ascending sequence no value occurs twice. */
  lemma {:induction false} StrictlyAscendingCounts(s: seq<int>)
    requires StrictlyAscending(s)
    ensures forall x :: multiset(s)[x] <= 1
  {
    if s != [] {
      StrictlyAscendingCounts(s[1..]);
      assert s == [s[0]] + s[1..];
      assert s[0] !in s[1..];
    }
  }

  /** In a strictly descending sequence no value occurs twice. */
  lemma {:induction false} StrictlyDescendingCounts(s: seq<int>)
    requires StrictlyDescending(s)
    ensures forall x :: multiset(s)[x] == if x in s then 1 else 0
  {
    if s != [] {
      StrictlyDescendingCounts(s[1..]);
      assert s == [s[0]] + s[1..];
      assert s[0] !in s[1..];
    }
  }

  /** Two equal neighbours make a value occur at least twice. */
  lemma RepeatCount(s: seq<int>, k: int)
    requires 0 <= k < |s| - 1 && s[k] == s[k + 1]
    ensures multiset(s)[s[k]] >= 2
  {
    assert s == s[..k] + [s[k], s[k + 1]] + s[k + 2..];
  }

  lemma DescendingHeadIsMax(s: seq<int>, x: int)
    requires Descending(s) && x in s
    ensures s[0] >= x
  {
  }

  /** Two strictly descending sequences with the same elements are equal. */
  lemma {:induction false} StrictlyDescendingUnique(a: seq<int>, b: seq<int>)
    requires StrictlyDescending(a) && StrictlyDescending(b)
    requires forall x :: x in a <==> x in b
    ensures a == b
    decreases |a| + |b|
  {
    if a != [] {
      assert a[0] in a;
      assert b != [];
      assert b[0] in b;
      DescendingHeadIsMax(b, a[0]);
      DescendingHeadIsMax(a, b[0]);
      var a', b' := a[1..], b[1..];
      forall x ensures x in a' <==> x in b' {
        if x in a' {
          var i :| 0 <= i < |a'| && a'[i] == x;
          assert x == a[i + 1] && x in a;
          var k :| 0 <= k < |b| && b[k] == x;
          assert k != 0 && b'[k - 1] == x;
        }
        if x in b' {
          var i :| 0 <= i < |b'| && b'[i] == x;
          assert x == b[i + 1] && x in b;
          var k :| 0 <= k < |a| && a[k] == x;
          assert k != 0 && a'[k - 1] == x;
        }
      }
      StrictlyDescendingUnique(a', b');
    } else {
      EmptyIfNoElements(b);
    }
  }

  /** A sequence with no elements is empty (stated so that the element to look for is named). */
  lemma EmptyIfNoElements(b: seq<int>)
    ensures b == [] || b[0] in b
  {
  }

  method Swap<T>(a: array<T>, i: int, j: int)
    requires 0 <= i < a.Length && 0 <= j < a.Length
    modifies a
    ensures a[..] == old(a[..])[i := old(a[j])][j := old(a[i])]
    ensures multiset(a[..]) == old(multiset(a[..]))
  {
    a[i], a[j] := a[j], a[i];
  }

  method InsertionSortBy<T>(a: array<T>, key: T -> int)
    modifies a
    ensures SortedBy(a[..], key)
    ensures multiset(a[..]) == old(multiset(a[..]))
  {
    var i := 0;
    while i < a.Length
      invariant 0 <= i <= a.Length
      invariant forall p, q :: 0 <= p < q < i ==> key(a[p]) <= key(a[q])
      invariant multiset(a[..]) == old(multiset(a[..]))
    {
      var j := i;
      while j > 0 && key(a[j - 1]) > key(a[j])
        invariant 0 <= j <= i
        invariant forall p, q :: 0 <= p < q <= i && p != j && q != j ==> key(a[p]) <= key(a[q])
        invariant forall q :: j < q <= i ==> key(a[j]) <= key(a[q])
        invariant multiset(a[..]) == old(multiset(a[..]))
      {
        Swap(a, j - 1, j);
        j := j - 1;
      }
      i := i + 1;
    }
  }

  /**
   * The fold the source uses to pick a best hand: start from 0 and move to an
   * element only when it is strictly greater than the current one.
   */
  function BestFromZero(xs: seq<int>): int {
    if xs == [] then 0
    else
      var b := BestFromZero(xs[..|xs| - 1]);
      if xs[|xs| - 1] > b then xs[|xs| - 1] else b
  }

  /** Position `m` is where the fold settles: the first element equal to the result. */
  predicate FirstBestAt(xs: seq<int>, m: int) {
    0 <= m < |xs| && xs[m] == BestFromZero(xs) && forall k :: 0 <= k < m ==> xs[k] < xs[m]
  }

  /** The fold yields the maximum of 0 and the elements, reached first at one position unless it is 0. */
  lemma {:induction false} BestFromZeroIsMax(xs: seq<int>)
    ensures BestFromZero(xs) >= 0
    ensures forall k :: 0 <= k < |xs| ==> xs[k] <= BestFromZero(xs)
    ensures BestFromZero(xs) == 0 || exists m :: FirstBestAt(xs, m)
  {
    if xs != [] {
      var init := xs[..|xs| - 1];
      BestFromZeroIsMax(init);
      var b := BestFromZero(init);
      assert forall k :: 0 <= k < |init| ==> xs[k] == init[k];
      if xs[|xs| - 1] > b {
        assert FirstBestAt(xs, |xs| - 1);
      } else if b != 0 {
        var m :| FirstBestAt(init, m);
        assert FirstBestAt(xs, m);
      }
    }
  }
}
