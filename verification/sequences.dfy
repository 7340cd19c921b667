/**
 * Sequence helpers shared by the statistics model: sums, occurrence counts,
 * an ascending sort given as a function, and the ascending listing of a
 * finite set of integer keys.
 */
module Sequences {

  /** Sum of a sequence of integers (JavaScript `reduce((acc, v) => acc + v, 0)`). */
  function Sum(s: seq<int>): int
  {
    if s == [] then 0 else Sum(s[..|s| - 1]) + s[|s| - 1]
  }

  /** Number of occurrences of `v` in `s`. */
  function Count(s: seq<int>, v: int): nat
  {
    multiset(s)[v]
  }

  /** Every element of `s` is at least 0. */
  predicate NonNegative(s: seq<int>)
  {
    forall i | 0 <= i < |s| :: s[i] >= 0
  }

  /** Ascending order (duplicates allowed). */
  predicate IsSorted(s: seq<int>)
  {
    forall i, j | 0 <= i < j < |s| :: s[i] <= s[j]
  }

  /** Strictly ascending order: sorted and duplicate-free. */
  predicate StrictlyIncreasing(s: seq<int>)
  {
    forall i, j | 0 <= i < j < |s| :: s[i] < s[j]
  }

  lemma {:induction false} SumAppend(a: seq<int>, b: seq<int>)
    ensures Sum(a + b) == Sum(a) + Sum(b)
    decreases |b|
  {
    if b == [] {
      assert a + b == a;
    } else {
      assert (a + b)[..|a + b| - 1] == a + b[..|b| - 1];
      SumAppend(a, b[..|b| - 1]);
    }
  }

  /** Partial sums of non-negative values grow with the prefix length. */
  lemma {:induction false} SumPrefixMonotone(s: seq<int>, i: nat, j: nat)
    requires NonNegative(s)
    requires i <= j <= |s|
    ensures Sum(s[..i]) <= Sum(s[..j])
    decreases j - i
  {
    if i < j {
      SumPrefixMonotone(s, i, j - 1);
      assert s[..j][..j - 1] == s[..j - 1];
    }
  }

  /** The sum depends only on the multiset of the values. */
  lemma {:induction false} SumPermutation(a: seq<int>, b: seq<int>)
    requires multiset(a) == multiset(b)
    ensures Sum(a) == Sum(b)
    decreases |a|
  {
    if a != [] {
      var x := a[|a| - 1];
      var a' := a[..|a| - 1];
      assert a == a' + [x];
      assert x in multiset(b);
      var k :| 0 <= k < |b| && b[k] == x;
      var b' := b[..k] + b[k + 1..];
      RemoveAt(b, k);
      assert multiset(a) == multiset(a') + multiset{x};
      assert multiset(a') == multiset(a) - multiset{x};
      assert multiset(b') == multiset(b) - multiset{x};
      SumPermutation(a', b');
    } else {
      assert |multiset(b)| == 0;
    }
  }

  /** Taking out the element at `k` removes it from the multiset and from the sum. */
  lemma RemoveAt(b: seq<int>, k: nat)
    requires k < |b|
    ensures multiset(b) == multiset(b[..k] + b[k + 1..]) + multiset{b[k]}
    ensures Sum(b) == Sum(b[..k] + b[k + 1..]) + b[k]
  {
    var front, x, back := b[..k], b[k], b[k + 1..];
    SplitAround(b, k);
    SumAppend(front + [x], back);
    SumAppend(front, back);
    SumAppend(front, [x]);
  }

  /** A list is its part before `k`, its element at `k` and its part after `k`. */
  lemma SplitAround(b: seq<int>, k: nat)
    requires k < |b|
    ensures b == b[..k] + [b[k]] + b[k + 1..]
  {
    assert b[..k + 1] == b[..k] + [b[k]];
    assert b == b[..k + 1] + b[k + 1..];
  }

  // ---------------------------------------------------------------------
  // Ascending sort as a function (the specification of an in-place sort)
  // ---------------------------------------------------------------------

  function Insert(x: int, s: seq<int>): (r: seq<int>)
    requires IsSorted(s)
    ensures IsSorted(r)
    ensures multiset(r) == multiset(s) + multiset{x}
    ensures |r| == |s| + 1
    ensures r[0] == x || (|s| > 0 && r[0] == s[0])
  {
    if s == [] || x <= s[0] then
      PrependSorted(x, s);
      [x] + s
    else
      var t := Insert(x, s[1..]);
      InsertBehindHead(x, s, t);
      [s[0]] + t
  }

  /** Putting the head back in front of the tail with `x` inserted keeps the list ascending and adds `x`. */
  lemma InsertBehindHead(x: int, s: seq<int>, t: seq<int>)
    requires IsSorted(s) && s != [] && s[0] < x
    requires IsSorted(t) && multiset(t) == multiset(s[1..]) + multiset{x}
    requires t != [] && (t[0] == x || (|s| > 1 && t[0] == s[1]))
    ensures IsSorted([s[0]] + t)
    ensures multiset([s[0]] + t) == multiset(s) + multiset{x}
  {
    assert s == [s[0]] + s[1..];
    PrependSorted(s[0], t);
  }

  /** A value no greater than the head of an ascending list can be put in front. */
  lemma PrependSorted(y: int, t: seq<int>)
    requires IsSorted(t) && (t == [] || y <= t[0])
    ensures IsSorted([y] + t)
  {
    forall p, q | 0 <= p < q < |t| + 1
      ensures ([y] + t)[p] <= ([y] + t)[q]
    {
      if p > 0 {
        assert ([y] + t)[p] == t[p - 1];
      }
    }
  }

  /** The data in ascending order: the array the comparator `(a, b) => a - b` yields. */
  function SortSeq(s: seq<int>): (r: seq<int>)
    ensures IsSorted(r)
    ensures multiset(r) == multiset(s)
    ensures |r| == |s|
  {
    if s == [] then []
    else
      assert s == s[..|s| - 1] + [s[|s| - 1]];
      Insert(s[|s| - 1], SortSeq(s[..|s| - 1]))
  }

  /** A sorted arrangement of a multiset is unique. */
  lemma {:induction false} SortedUnique(a: seq<int>, b: seq<int>)
    requires IsSorted(a) && IsSorted(b)
    requires multiset(a) == multiset(b)
    ensures a == b
    decreases |a|
  {
    if a == [] {
      assert |multiset(b)| == 0;
    } else {
      HeadsAgree(a, b);
      TailMultiset(a);
      TailMultiset(b);
      SortedSuffix(a, 1);
      SortedSuffix(b, 1);
      SortedUnique(a[1..], b[1..]);
      assert a == [a[0]] + a[1..] && b == [b[0]] + b[1..];
    }
  }

  /** Two ascending arrangements of the same non-empty multiset start with the same value. */
  lemma HeadsAgree(a: seq<int>, b: seq<int>)
    requires IsSorted(a) && IsSorted(b)
    requires multiset(a) == multiset(b) && a != []
    ensures b != [] && a[0] == b[0]
  {
    assert a[0] in multiset(b);
    var i :| 0 <= i < |b| && b[i] == a[0];
    assert b[0] in multiset(a);
    var j :| 0 <= j < |a| && a[j] == b[0];
  }

  /** Removing the head removes one occurrence of it. */
  lemma TailMultiset(a: seq<int>)
    requires a != []
    ensures multiset(a[1..]) == multiset(a) - multiset{a[0]}
  {
    assert a == [a[0]] + a[1..];
  }

  /** Every element of an ascending list lies between its first and its last element. */
  lemma SortedBounds(s: seq<int>, x: int)
    requires IsSorted(s) && x in s
    ensures s[0] <= x <= s[|s| - 1]
  {
    var i :| 0 <= i < |s| && s[i] == x;
  }

  /** Sorting depends only on the multiset of values. */
  lemma SortDependsOnMultiset(a: seq<int>, b: seq<int>)
    requires multiset(a) == multiset(b)
    ensures SortSeq(a) == SortSeq(b)
  {
    SortedUnique(SortSeq(a), SortSeq(b));
  }

  lemma SortedPrefix(s: seq<int>, k: nat)
    requires IsSorted(s) && k <= |s|
    ensures IsSorted(s[..k])
  {
  }

  lemma SortedSuffix(s: seq<int>, k: nat)
    requires IsSorted(s) && k <= |s|
    ensures IsSorted(s[k..])
  {
  }

  /** In a strictly ascending list the head is below every later element. */
  lemma HeadBelowTail(s: seq<int>)
    requires StrictlyIncreasing(s) && s != []
    ensures forall k | k in s[1..] :: s[0] < k
  {
  }

  /** A value below every element of a strictly ascending list can be put in front. */
  lemma PrependIncreasing(x: int, s: seq<int>)
    requires StrictlyIncreasing(s) && forall k | k in s :: x < k
    ensures StrictlyIncreasing([x] + s)
  {
    forall i, j | 0 <= i < j < |s| + 1
      ensures ([x] + s)[i] < ([x] + s)[j]
    {
      assert s[j - 1] in s;
    }
  }

  /** Sorting data that are already ascending changes nothing. */
  lemma SortOfSorted(s: seq<int>)
    requires IsSorted(s)
    ensures SortSeq(s) == s
  {
    SortedUnique(SortSeq(s), s);
  }

  // ---------------------------------------------------------------------
  // Ascending listing of a finite set of integer keys
  // ---------------------------------------------------------------------

  lemma MinExists(s: set<int>)
    requires s != {}
    ensures exists m :: m in s && forall x | x in s :: m <= x
  {
    var m := MinWitness(s);
  }

  /** A least element of a non-empty set, found by taking out one element at a time. */
  lemma {:induction false} MinWitness(s: set<int>) returns (m: int)
    requires s != {}
    ensures m in s && forall x | x in s :: m <= x
    decreases |s|
  {
    if forall z :: z !in s {
      assert false;
    }
    var y :| y in s;
    if s == {y} {
      m := y;
    } else {
      var rest := s - {y};
      var r := MinWitness(rest);
      m := if y < r then y else r;
      forall x | x in s
        ensures m <= x
      {
        if x != y {
          assert x in rest;
        }
      }
    }
  }

  function MinOf(s: set<int>): (m: int)
    requires s != {}
    ensures m in s
    ensures forall x | x in s :: m <= x
  {
    MinExists(s);
    var m :| m in s && forall x | x in s :: m <= x;
    m
  }

  /**
   * The keys of a table in ascending numeric order: the order in which
   * JavaScript enumerates integer-index keys of an object.
   */
  function SortedKeys(keys: set<int>): (r: seq<int>)
    ensures |r| == |keys|
    ensures forall k :: k in r <==> k in keys
    ensures StrictlyIncreasing(r)
    decreases |keys|
  {
    if keys == {} then []
    else
      var m := MinOf(keys);
      var rest := SortedKeys(keys - {m});
      assert forall k | k in rest :: m < k;
      PrependIncreasing(m, rest);
      [m] + rest
  }

  // ---------------------------------------------------------------------
  // Running totals and occurrence counts over a list of keys
  // ---------------------------------------------------------------------

  /** Running totals: entry `i` is the sum of `xs[0..i]`. */
  function RunningTotals(xs: seq<int>): (r: seq<int>)
    ensures |r| == |xs|
    ensures |xs| > 0 ==> r[|xs| - 1] == Sum(xs)
  {
    assert |xs| > 0 ==> xs[..|xs|] == xs;
    seq(|xs|, i requires 0 <= i < |xs| => Sum(xs[..i + 1]))
  }

  /** Running totals of non-negative values never decrease. */
  lemma RunningTotalsNondecreasing(xs: seq<int>)
    requires NonNegative(xs)
    ensures IsSorted(RunningTotals(xs))
  {
    var r := RunningTotals(xs);
    forall i, j | 0 <= i < j < |r|
      ensures r[i] <= r[j]
    {
      SumPrefixMonotone(xs, i + 1, j + 1);
    }
  }

  /** One more running total: the sum of a prefix one element longer. */
  lemma SumExtend(xs: seq<int>, i: nat)
    requires i < |xs|
    ensures Sum(xs[..i + 1]) == Sum(xs[..i]) + xs[i]
  {
    assert xs[..i + 1][..i] == xs[..i];
  }

  /** The occurrence count in `s` of each of `keys`, in the order of `keys`. */
  function CountsOf(keys: seq<int>, s: seq<int>): (r: seq<int>)
    ensures |r| == |keys|
    ensures forall i | 0 <= i < |keys| :: r[i] == Count(s, keys[i])
  {
    seq(|keys|, i requires 0 <= i < |keys| => Count(s, keys[i]))
  }

  lemma {:induction false} CountsOfEmpty(keys: seq<int>)
    ensures Sum(CountsOf(keys, [])) == 0
    decreases |keys|
  {
    if keys != [] {
      var n := |keys|;
      assert CountsOf(keys, [])[..n - 1] == CountsOf(keys[..n - 1], []);
      CountsOfEmpty(keys[..n - 1]);
    }
  }

  /** Appending `x` to the data adds one to the total count exactly when `x` is a key. */
  lemma {:induction false} CountsOfSnoc(keys: seq<int>, s: seq<int>, x: int)
    requires StrictlyIncreasing(keys)
    ensures Sum(CountsOf(keys, s + [x])) == Sum(CountsOf(keys, s)) + (if x in keys then 1 else 0)
    decreases |keys|
  {
    if keys != [] {
      var n := |keys|;
      var init := keys[..n - 1];
      assert CountsOf(keys, s + [x])[..n - 1] == CountsOf(init, s + [x]);
      assert CountsOf(keys, s)[..n - 1] == CountsOf(init, s);
      assert multiset(s + [x]) == multiset(s) + multiset{x};
      CountsOfSnoc(init, s, x);
      assert x in keys <==> x in init || x == keys[n - 1];
      assert x in init ==> x != keys[n - 1];
    }
  }

  /**
   * When every element of `s` is one of the distinct `keys`, the counts
   * of the keys add up to the length of `s`.
   */
  lemma {:induction false} CountsSumToLength(keys: seq<int>, s: seq<int>)
    requires StrictlyIncreasing(keys)
    requires forall v | v in s :: v in keys
    ensures Sum(CountsOf(keys, s)) == |s|
    decreases |s|
  {
    if s == [] {
      CountsOfEmpty(keys);
    } else {
      var n := |s|;
      assert s == s[..n - 1] + [s[n - 1]];
      CountsSumToLength(keys, s[..n - 1]);
      CountsOfSnoc(keys, s[..n - 1], s[n - 1]);
    }
  }

  /**
   * A sum of values that are each at least 1 is at least the number of
   * values, with equality exactly when every value is 1.
   */
  lemma {:induction false} SumOfPositives(xs: seq<int>)
    requires forall i | 0 <= i < |xs| :: xs[i] >= 1
    ensures Sum(xs) >= |xs|
    ensures Sum(xs) == |xs| <==> forall i | 0 <= i < |xs| :: xs[i] == 1
    decreases |xs|
  {
    if xs != [] {
      var n := |xs|;
      SumOfPositives(xs[..n - 1]);
      assert forall i | 0 <= i < n - 1 :: xs[..n - 1][i] == xs[i];
    }
  }
}
