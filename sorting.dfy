/**
 * `Array.prototype.sort` with a numeric comparator (`(a, b) => key(b) - key(a)`
 * or `key(a) - key(b)`). The ECMAScript sort is stable, so it is modelled as a
 * stable insertion sort: the result is ordered by the key, is a permutation
 * of the input, and keeps the input order among elements with equal keys.
 */
module Sorting {
  import opened Seqs

  datatype Direction = Ascending | Descending

  /** `a` may come before `b` in the given direction. */
  predicate InOrder(dir: Direction, a: real, b: real) {
    if dir == Descending then a >= b else a <= b
  }

  predicate Sorted<T>(s: seq<T>, key: T -> real, dir: Direction) {
    forall i, j :: 0 <= i < j < |s| ==> InOrder(dir, key(s[i]), key(s[j]))
  }

  /** The test "has key `v`", used to state stability. */
  function KeyIs<T>(key: T -> real, v: real): T -> bool {
    y => key(y) == v
  }

  /** Places `x` after every element that may come before it. */
  function Insert<T>(x: T, s: seq<T>, key: T -> real, dir: Direction): (r: seq<T>)
    ensures |r| == |s| + 1
    ensures multiset(r) == multiset(s) + multiset{x}
  {
    if s == [] then [x]
    else if !InOrder(dir, key(s[0]), key(x)) then [x] + s
    else
      assert s == [s[0]] + s[1..];
      [s[0]] + Insert(x, s[1..], key, dir)
  }

  /** Inserting into a sorted sequence keeps it sorted. */
  lemma {:induction false} InsertSorted<T>(x: T, s: seq<T>, key: T -> real, dir: Direction)
    requires Sorted(s, key, dir)
    ensures Sorted(Insert(x, s, key, dir), key, dir)
  {
    if s != [] && InOrder(dir, key(s[0]), key(x)) {
      var rest := Insert(x, s[1..], key, dir);
      InsertSorted(x, s[1..], key, dir);
      forall j | 0 <= j < |rest|
        ensures InOrder(dir, key(s[0]), key(rest[j]))
      {
        assert rest[j] in multiset(rest);
        if rest[j] != x {
          assert rest[j] in multiset(s[1..]);
          var k :| 0 <= k < |s[1..]| && s[1..][k] == rest[j];
          assert s[k + 1] == rest[j];
        }
      }
      assert Insert(x, s, key, dir) == [s[0]] + rest;
    }
  }

  /** The sort: a permutation of `s` ordered by `key` in direction `dir`. */
  function Sort<T>(s: seq<T>, key: T -> real, dir: Direction): (r: seq<T>)
    ensures |r| == |s|
    ensures multiset(r) == multiset(s)
    ensures Sorted(r, key, dir)
  {
    if s == [] then []
    else
      assert s == s[..|s| - 1] + [s[|s| - 1]];
      var sorted := Sort(s[..|s| - 1], key, dir);
      InsertSorted(s[|s| - 1], sorted, key, dir);
      Insert(s[|s| - 1], sorted, key, dir)
  }

  lemma {:induction false} NoneKept<T>(s: seq<T>, p: T -> bool)
    requires forall i :: 0 <= i < |s| ==> !p(s[i])
    ensures Filter(s, p) == []
  {
    if s != [] {
      NoneKept(s[..|s| - 1], p);
    }
  }

  lemma FilterSingle<T>(x: T, p: T -> bool)
    ensures Filter([x], p) == if p(x) then [x] else []
  {
    assert [x][..0] == [];
  }

  /** For the elements of any one key, inserting `x` is the same as appending it. */
  lemma {:induction false} InsertStable<T>(x: T, s: seq<T>, key: T -> real, dir: Direction, v: real)
    requires Sorted(s, key, dir)
    ensures Filter(Insert(x, s, key, dir), KeyIs(key, v)) == Filter(s + [x], KeyIs(key, v))
    decreases |s|, 1
  {
    var p := KeyIs(key, v);
    if s == [] {
      assert s + [x] == [x];
    } else if !InOrder(dir, key(s[0]), key(x)) {
      FilterAppend([x], s, p);
      FilterAppend(s, [x], p);
      if key(x) == v { NoneKept(s, p); }
    } else {
      InsertStableCons(x, s, key, dir, v);
    }
  }

  /** Dropping the first element of a sorted sequence leaves it sorted. */
  lemma SortedTail<T>(s: seq<T>, key: T -> real, dir: Direction)
    requires s != [] && Sorted(s, key, dir)
    ensures Sorted(s[1..], key, dir)
  {
    forall i, j | 0 <= i < j < |s[1..]|
      ensures InOrder(dir, key(s[1..][i]), key(s[1..][j]))
    {
      assert s[1..][i] == s[i + 1] && s[1..][j] == s[j + 1];
    }
  }

  lemma {:induction false} InsertStableCons<T>(x: T, s: seq<T>, key: T -> real, dir: Direction, v: real)
    requires Sorted(s, key, dir)
    requires s != [] && InOrder(dir, key(s[0]), key(x))
    ensures Filter(Insert(x, s, key, dir), KeyIs(key, v)) == Filter(s + [x], KeyIs(key, v))
    decreases |s|, 0
  {
    var p := KeyIs(key, v);
    var head, tail := [s[0]], s[1..];
    var rest := Insert(x, tail, key, dir);
    assert Insert(x, s, key, dir) == head + rest;
    assert head + (tail + [x]) == s + [x];
    SortedTail(s, key, dir);
    InsertStable(x, tail, key, dir, v);
    FilterAppend(head, rest, p);
    FilterAppend(head, tail + [x], p);
  }

  /** Stability: the elements of any one key appear in the same order as in the input. */
  lemma {:induction false} SortStable<T>(s: seq<T>, key: T -> real, dir: Direction, v: real)
    ensures Filter(Sort(s, key, dir), KeyIs(key, v)) == Filter(s, KeyIs(key, v))
  {
    if s != [] {
      var p := KeyIs(key, v);
      var init, x := s[..|s| - 1], s[|s| - 1];
      SplitLast(s);
      var sorted := Sort(init, key, dir);
      assert Sort(s, key, dir) == Insert(x, sorted, key, dir);
      SortStable(init, key, dir, v);
      InsertStable(x, sorted, key, dir, v);
      FilterAppend(sorted, [x], p);
      FilterAppend(init, [x], p);
    }
  }
}
