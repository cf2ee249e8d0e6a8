/**
 * The array built-ins the dashboard's code is written with, on sequences:
 * `filter`, `indexOf` (strict equality), `splice(i, 1)` and a count of the
 * elements that satisfy a test.
 */
module Seqs {
  import opened Wrappers

  lemma ConcatAssoc<T>(a: seq<T>, b: seq<T>, c: seq<T>)
    ensures a + (b + c) == (a + b) + c
  {
  }

  lemma SplitLast<T>(s: seq<T>)
    requires s != []
    ensures s == s[..|s| - 1] + [s[|s| - 1]]
  {
  }

  /** Overwriting the element between two parts replaces just that element. */
  lemma UpdateBetween<T>(a: seq<T>, x: T, y: T, b: seq<T>)
    ensures (a + [x] + b)[|a| := y] == a + [y] + b
  {
    var s := (a + [x] + b)[|a| := y];
    var t := a + [y] + b;
    assert |s| == |t|;
    forall k | 0 <= k < |s|
      ensures s[k] == t[k]
    {
      if k < |a| {
        assert s[k] == a[k] == t[k];
      } else if k > |a| {
        assert s[k] == b[k - |a| - 1] == t[k];
      }
    }
  }

  /** `s.filter(p)`: the elements that pass `p`, in their original order. */
  function Filter<T>(s: seq<T>, p: T -> bool): (r: seq<T>)
    ensures |r| <= |s|
    ensures forall i :: 0 <= i < |r| ==> p(r[i])
  {
    if s == [] then []
    else
      var rest := Filter(s[..|s| - 1], p);
      assert s == s[..|s| - 1] + [s[|s| - 1]];
      if p(s[|s| - 1]) then rest + [s[|s| - 1]] else rest
  }

  /** `filter` keeps a sub-multiset of its input. */
  lemma {:induction false} FilterSubMultiset<T>(s: seq<T>, p: T -> bool)
    ensures multiset(Filter(s, p)) <= multiset(s)
  {
    if s != [] {
      FilterSubMultiset(s[..|s| - 1], p);
      SplitLast(s);
    }
  }

  /** Filtering by a test and by its negation splits the elements between the two results. */
  lemma {:induction false} FilterPartition<T>(s: seq<T>, p: T -> bool, q: T -> bool)
    requires forall i :: 0 <= i < |s| ==> q(s[i]) == !p(s[i])
    ensures multiset(Filter(s, p)) + multiset(Filter(s, q)) == multiset(s)
  {
    if s != [] {
      FilterPartition(s[..|s| - 1], p, q);
      SplitLast(s);
    }
  }

  /** `filter` drops only the elements that fail the test. */
  lemma {:induction false} FilterKeepsPassing<T>(s: seq<T>, p: T -> bool)
    ensures forall i :: 0 <= i < |s| && p(s[i]) ==> s[i] in Filter(s, p)
  {
    if s != [] {
      FilterKeepsPassing(s[..|s| - 1], p);
      assert forall i :: 0 <= i < |s| - 1 ==> s[i] == s[..|s| - 1][i];
    }
  }

  lemma {:induction false} FilterAppend<T>(a: seq<T>, b: seq<T>, p: T -> bool)
    ensures Filter(a + b, p) == Filter(a, p) + Filter(b, p)
  {
    if b != [] {
      assert (a + b)[..|a + b| - 1] == a + b[..|b| - 1];
      FilterAppend(a, b[..|b| - 1], p);
    } else {
      assert a + b == a;
    }
  }

  /** Filtering twice keeps exactly the elements that pass both tests, whichever test runs first. */
  lemma {:induction false} FilterCommutes<T>(s: seq<T>, p: T -> bool, q: T -> bool)
    ensures Filter(Filter(s, p), q) == Filter(Filter(s, q), p)
  {
    if s != [] {
      var init := s[..|s| - 1];
      var x := s[|s| - 1];
      FilterCommutes(init, p, q);
      if p(x) { FilterAppend(Filter(init, p), [x], q); }
      if q(x) { FilterAppend(Filter(init, q), [x], p); }
    }
  }

  /** Two tests that agree on every element of `s` keep the same elements. */
  lemma {:induction false} FilterSameTest<T>(s: seq<T>, p: T -> bool, q: T -> bool)
    requires forall i :: 0 <= i < |s| ==> p(s[i]) == q(s[i])
    ensures Filter(s, p) == Filter(s, q)
  {
    if s != [] { FilterSameTest(s[..|s| - 1], p, q); }
  }

  /** `filter` keeps everything exactly when every element passes. */
  lemma {:induction false} FilterKeepsAll<T>(s: seq<T>, p: T -> bool)
    ensures |Filter(s, p)| == |s| <==> forall i :: 0 <= i < |s| ==> p(s[i])
  {
    if s != [] {
      FilterKeepsAll(s[..|s| - 1], p);
      assert forall i :: 0 <= i < |s| - 1 ==> s[..|s| - 1][i] == s[i];
    }
  }

  /** Filtering with a test every element passes keeps the sequence as it is. */
  lemma {:induction false} FilterAllKept<T>(s: seq<T>, p: T -> bool)
    requires forall i :: 0 <= i < |s| ==> p(s[i])
    ensures Filter(s, p) == s
  {
    if s != [] {
      FilterAllKept(s[..|s| - 1], p);
    }
  }

  /** An element is kept by `filter` exactly when it occurs in the input and passes. */
  lemma FilterMember<T>(s: seq<T>, p: T -> bool, x: T)
    ensures x in Filter(s, p) <==> x in s && p(x)
  {
    FilterKeepsPassing(s, p);
    FilterSubMultiset(s, p);
    if x in Filter(s, p) {
      assert x in multiset(Filter(s, p));
    }
  }

  /** Filtering by `p` and then by `q` is filtering once by a test that holds when both do. */
  lemma {:induction false} FilterFusion<T>(s: seq<T>, p: T -> bool, q: T -> bool, both: T -> bool)
    requires forall x :: both(x) == (p(x) && q(x))
    ensures Filter(Filter(s, p), q) == Filter(s, both)
  {
    if s != [] {
      var init, x := s[..|s| - 1], s[|s| - 1];
      FilterFusion(init, p, q, both);
      if p(x) { FilterAppend(Filter(init, p), [x], q); }
    }
  }

  /** A property every element of `a` has, every element of a permutation of `a` has. */
  lemma PermutationKeeps<T>(a: seq<T>, b: seq<T>, p: T -> bool)
    requires multiset(a) == multiset(b)
    requires forall j :: 0 <= j < |a| ==> p(a[j])
    ensures forall i :: 0 <= i < |b| ==> p(b[i])
  {
    forall i | 0 <= i < |b|
      ensures p(b[i])
    {
      assert b[i] in multiset(a);
      var j :| 0 <= j < |a| && a[j] == b[i];
    }
  }

  /** Number of elements of `s` that pass `p` (`s.filter(p).length`). */
  function CountWhere<T>(s: seq<T>, p: T -> bool): nat {
    |Filter(s, p)|
  }

  /** `s.indexOf(x)`: the first position holding `x`, None standing for -1. */
  function IndexOfValue<T(==)>(s: seq<T>, x: T): (r: Option<nat>)
    ensures r.None? <==> x !in s
    ensures r.Some? ==> r.value < |s| && s[r.value] == x && forall j :: 0 <= j < r.value ==> s[j] != x
  {
    if s == [] then None
    else if s[0] == x then Some(0)
    else match IndexOfValue(s[1..], x)
      case None => None
      case Some(j) => Some(j + 1)
  }

  /** Appending after the first occurrence of `x` does not move it. */
  lemma IndexOfValueAppend<T>(s: seq<T>, t: seq<T>, x: T)
    requires x in s
    ensures IndexOfValue(s + t, x) == IndexOfValue(s, x)
  {
    var i := IndexOfValue(s, x).value;
    assert (s + t)[i] == x;
    var j := IndexOfValue(s + t, x).value;
    assert j <= i;
    assert s[j] == (s + t)[j];
  }

  /** `s.splice(i, 1)`: the element at `i` is removed. */
  function RemoveAt<T>(s: seq<T>, i: nat): (r: seq<T>)
    requires i < |s|
    ensures |r| == |s| - 1
    ensures multiset(r) == multiset(s) - multiset{s[i]}
    ensures forall j :: 0 <= j < i ==> r[j] == s[j]
    ensures forall j :: i <= j < |r| ==> r[j] == s[j + 1]
  {
    assert multiset(s) == multiset(s[..i]) + multiset{s[i]} + multiset(s[i + 1..]) by {
      assert s == s[..i] + [s[i]] + s[i + 1..];
    }
    s[..i] + s[i + 1..]
  }

  /** `s.reduce((n, x) => n + q(x), 0)` for a count-valued measure `q`. */
  function Total<T>(s: seq<T>, q: T -> nat): nat {
    if s == [] then 0 else Total(s[..|s| - 1], q) + q(s[|s| - 1])
  }

  lemma {:induction false} TotalAppend<T>(a: seq<T>, b: seq<T>, q: T -> nat)
    ensures Total(a + b, q) == Total(a, q) + Total(b, q)
  {
    if b != [] {
      assert (a + b)[..|a + b| - 1] == a + b[..|b| - 1];
      TotalAppend(a, b[..|b| - 1], q);
    } else {
      assert a + b == a;
    }
  }

  /** The total of a sequence split around position `i`. */
  lemma TotalSplitAt<T>(s: seq<T>, q: T -> nat, i: nat)
    requires i < |s|
    ensures Total(s, q) == Total(s[..i], q) + q(s[i]) + Total(s[i + 1..], q)
  {
    var a, x, b := s[..i], s[i], s[i + 1..];
    assert s == a + ([x] + b);
    TotalAppend(a, [x] + b, q);
    TotalAppend([x], b, q);
    assert [x][..0] == [];
  }

  /** Removing one element takes exactly its measure off the total. */
  lemma TotalRemoveAt<T>(s: seq<T>, q: T -> nat, i: nat)
    requires i < |s|
    ensures Total(s, q) == Total(RemoveAt(s, i), q) + q(s[i])
  {
    assert RemoveAt(s, i) == s[..i] + s[i + 1..];
    TotalSplitAt(s, q, i);
    TotalAppend(s[..i], s[i + 1..], q);
  }

  /** The total does not depend on the order of the elements. */
  lemma {:induction false} TotalPermutation<T>(a: seq<T>, b: seq<T>, q: T -> nat)
    requires multiset(a) == multiset(b)
    ensures Total(a, q) == Total(b, q)
  {
    if a == [] {
      assert |b| == |multiset(b)| == 0;
    } else {
      var init, x := a[..|a| - 1], a[|a| - 1];
      assert multiset(init) == multiset(a) - multiset{x} by {
        SplitLast(a);
      }
      assert x in multiset(b);
      var j :| 0 <= j < |b| && b[j] == x;
      TotalRemoveAt(b, q, j);
      TotalPermutation(init, RemoveAt(b, j), q);
      assert Total(a, q) == Total(init, q) + q(x);
    }
  }

  /** Two sequences whose elements have the same measures position by position have the same total. */
  lemma {:induction false} TotalPointwise<A, B>(a: seq<A>, p: A -> nat, b: seq<B>, q: B -> nat)
    requires |a| == |b| && forall i :: 0 <= i < |a| ==> p(a[i]) == q(b[i])
    ensures Total(a, p) == Total(b, q)
  {
    if a != [] {
      TotalPointwise(a[..|a| - 1], p, b[..|b| - 1], q);
    }
  }

  /** No element occurs twice. */
  predicate Distinct<T(==)>(s: seq<T>) {
    forall i, j :: 0 <= i < j < |s| ==> s[i] != s[j]
  }

  /** An element found at two positions occurs at least twice. */
  lemma TwoPositions<T>(s: seq<T>, i: nat, j: nat)
    requires i < j < |s| && s[i] == s[j]
    ensures multiset(s)[s[i]] >= 2
  {
    assert s == s[..j] + [s[j]] + s[j + 1..];
    assert s[..j][i] == s[i];
  }

  /** A sequence is duplicate-free exactly when no element occurs more than once. */
  lemma {:induction false} DistinctCounts<T>(s: seq<T>)
    ensures Distinct(s) <==> forall x :: multiset(s)[x] <= 1
  {
    if !Distinct(s) {
      var i, j :| 0 <= i < j < |s| && s[i] == s[j];
      TwoPositions(s, i, j);
    } else if s != [] {
      var init, x := s[..|s| - 1], s[|s| - 1];
      SplitLast(s);
      assert Distinct(init);
      DistinctCounts(init);
      assert x !in init;
    }
  }

  /** Reordering keeps a sequence duplicate-free. */
  lemma DistinctPermutation<T>(a: seq<T>, b: seq<T>)
    requires multiset(a) == multiset(b) && Distinct(a)
    ensures Distinct(b)
  {
    DistinctCounts(a);
    DistinctCounts(b);
  }
}
