/**
 * The group-and-count fold `rows.reduce((acc, row) => { acc[key] = ...; return acc }, {})`
 * over a JavaScript object used as a dictionary, and the order in which
 * `Object.entries` lists that object's keys: the canonical array-index keys
 * first, in ascending numeric order, then every other key in creation order.
 */
module Grouping {
  import opened Wrappers
  import opened Text
  import opened Seqs
  import opened Sorting

  /** One accumulator entry: how many rows had the key, and what the first of them carried. */
  datatype Slot<I> = Slot(count: nat, first: I)

  /** A dictionary object: its own keys in creation order and the value under each. */
  datatype Dict<I> = Dict(order: seq<string>, slots: map<string, Slot<I>>)

  /** Every listed key has a value and every value is listed. */
  predicate Consistent<I>(d: Dict<I>) {
    (forall k :: k in d.slots ==> k in d.order) && (forall i :: 0 <= i < |d.order| ==> d.order[i] in d.slots)
  }

  /** One step of the fold: a new key is created with count 1 and the row's info, an existing key's count goes up by one. */
  function Bump<I>(d: Dict<I>, k: string, info: I): Dict<I> {
    if k in d.slots then Dict(d.order, d.slots[k := Slot(d.slots[k].count + 1, d.slots[k].first)])
    else Dict(d.order + [k], d.slots[k := Slot(1, info)])
  }

  /** The key of every row, in row order. */
  function KeysOf<I>(rows: seq<(string, I)>): (ks: seq<string>)
    ensures |ks| == |rows| && forall i :: 0 <= i < |rows| ==> ks[i] == rows[i].0
  {
    if rows == [] then [] else KeysOf(rows[..|rows| - 1]) + [rows[|rows| - 1].0]
  }

  /** The dictionary the fold builds from `{}`. */
  function Grouped<I>(rows: seq<(string, I)>): Dict<I> {
    if rows == [] then Dict([], map[])
    else
      var last := rows[|rows| - 1];
      Bump(Grouped(rows[..|rows| - 1]), last.0, last.1)
  }

  /** The fold as the source runs it: one pass over the rows, updating the accumulator in place. */
  method Group<I>(rows: seq<(string, I)>) returns (acc: Dict<I>)
    ensures acc == Grouped(rows)
  {
    acc := Dict([], map[]);
    var i := 0;
    while i < |rows|
      invariant 0 <= i <= |rows|
      invariant acc == Grouped(rows[..i])
    {
      assert rows[..i + 1][..i] == rows[..i];
      acc := Bump(acc, rows[i].0, rows[i].1);
      i := i + 1;
    }
    assert rows[..i] == rows;
  }

  /** The distinct elements of `s`, each at its first occurrence. */
  function Dedup(s: seq<string>): (r: seq<string>)
    ensures forall k :: multiset(r)[k] == if k in s then 1 else 0
  {
    if s == [] then []
    else
      var init, last := s[..|s| - 1], s[|s| - 1];
      SplitLast(s);
      var r := Dedup(init);
      if last in init then r else r + [last]
  }

  /** The keys of all rows but the last, and the last row's key. */
  lemma KeysOfSplit<I>(rows: seq<(string, I)>)
    requires rows != []
    ensures KeysOf(rows) == KeysOf(rows[..|rows| - 1]) + [rows[|rows| - 1].0]
  {
  }

  /** Every key the fold lists has a value, and every value is listed. */
  lemma {:induction false} GroupedConsistent<I>(rows: seq<(string, I)>)
    ensures Consistent(Grouped(rows))
  {
    if rows != [] {
      GroupedConsistent(rows[..|rows| - 1]);
    }
  }

  /** The fold creates one key per distinct row key, in order of first appearance. */
  lemma {:induction false} GroupedOrder<I>(rows: seq<(string, I)>)
    ensures Grouped(rows).order == Dedup(KeysOf(rows))
  {
    if rows != [] {
      var init := rows[..|rows| - 1];
      GroupedOrder(init);
      GroupedConsistent(init);
      KeysOfSplit(rows);
      GroupedKeys(init, rows[|rows| - 1].0);
    }
  }

  /** The fold counts every row under its key. */
  lemma {:induction false} GroupedCounts<I>(rows: seq<(string, I)>)
    ensures forall k :: k in Grouped(rows).slots ==> Grouped(rows).slots[k].count == multiset(KeysOf(rows))[k]
  {
    if rows != [] {
      var init := rows[..|rows| - 1];
      GroupedCounts(init);
      KeysOfSplit(rows);
      GroupedKeys(init, rows[|rows| - 1].0);
    }
  }

  /** A key is in the dictionary exactly when some row has it. */
  lemma {:induction false} GroupedKeys<I>(rows: seq<(string, I)>, k: string)
    ensures k in Grouped(rows).slots <==> k in KeysOf(rows)
  {
    if rows != [] {
      var init := rows[..|rows| - 1];
      GroupedKeys(init, k);
      SplitLast(KeysOf(rows));
      assert KeysOf(rows)[..|rows| - 1] == KeysOf(init);
    }
  }

  /** The info kept under a key is that of the first row with that key. */
  lemma {:induction false} GroupedFirst<I>(rows: seq<(string, I)>, k: string)
    requires k in Grouped(rows).slots
    ensures IndexOfValue(KeysOf(rows), k).Some?
    ensures Grouped(rows).slots[k].first == rows[IndexOfValue(KeysOf(rows), k).value].1
  {
    var n := |rows|;
    assert n > 0;
    var init, last := rows[..n - 1], rows[n - 1];
    KeysOfSplit(rows);
    GroupedKeys(rows, k);
    GroupedKeys(init, k);
    if k in Grouped(init).slots {
      GroupedFirst(init, k);
      IndexOfValueAppend(KeysOf(init), [last.0], k);
    } else {
      FirstAtEnd(KeysOf(init), k);
    }
  }

  /** A value that first appears as the last element is found there. */
  lemma FirstAtEnd(s: seq<string>, k: string)
    requires k !in s
    ensures IndexOfValue(s + [k], k) == Some(|s|)
  {
    assert forall j :: 0 <= j < |s| ==> (s + [k])[j] == s[j];
  }

  /** Sum of the counts stored under the keys `ks`. */
  function SumCounts<I>(ks: seq<string>, slots: map<string, Slot<I>>): nat
    requires forall i :: 0 <= i < |ks| ==> ks[i] in slots
  {
    if ks == [] then 0 else SumCounts(ks[..|ks| - 1], slots) + slots[ks[|ks| - 1]].count
  }

  lemma {:induction false} SumCountsOther<I>(ks: seq<string>, slots: map<string, Slot<I>>, k: string, v: Slot<I>)
    requires forall i :: 0 <= i < |ks| ==> ks[i] in slots
    requires k !in ks
    ensures SumCounts(ks, slots[k := v]) == SumCounts(ks, slots)
  {
    if ks != [] {
      SumCountsOther(ks[..|ks| - 1], slots, k, v);
    }
  }

  lemma {:induction false} SumCountsBump<I>(ks: seq<string>, slots: map<string, Slot<I>>, k: string)
    requires forall i :: 0 <= i < |ks| ==> ks[i] in slots
    requires k in slots && multiset(ks)[k] == 1
    ensures SumCounts(ks, slots[k := Slot(slots[k].count + 1, slots[k].first)]) == SumCounts(ks, slots) + 1
  {
    var init, last := ks[..|ks| - 1], ks[|ks| - 1];
    SplitLast(ks);
    if last == k {
      SumCountsOther(init, slots, k, Slot(slots[k].count + 1, slots[k].first));
    } else {
      SumCountsBump(init, slots, k);
    }
  }

  /** The counts add up to the number of rows: every row is counted exactly once. */
  lemma {:induction false} GroupedTotal<I>(rows: seq<(string, I)>)
    ensures Consistent(Grouped(rows))
    ensures SumCounts(Grouped(rows).order, Grouped(rows).slots) == |rows|
  {
    if rows != [] {
      var init, last := rows[..|rows| - 1], rows[|rows| - 1];
      var d := Grouped(init);
      GroupedTotal(init);
      GroupedOrder(init);
      GroupedKeys(init, last.0);
      if last.0 in d.slots {
        assert multiset(d.order)[last.0] == 1;
        SumCountsBump(d.order, d.slots, last.0);
      } else {
        assert multiset(d.order)[last.0] == 0;
        assert last.0 !in d.order;
        SumCountsOther(d.order, d.slots, last.0, Slot(1, last.1));
        assert (d.order + [last.0])[..|d.order|] == d.order;
      }
    }
  }

  /** A canonical array index: the decimal rendering of an integer below 2^32 - 1. */
  predicate IsArrayIndex(k: string) {
    |k| >= 1 && AllDigits(k) && (k[0] == '0' ==> |k| == 1) && DigitsValue(k) < 0xFFFF_FFFF
  }

  predicate IsNamedKey(k: string) {
    !IsArrayIndex(k)
  }

  function IndexKey(k: string): real {
    if IsArrayIndex(k) then DigitsValue(k) as real else 0.0
  }

  /** The dictionary's entries in creation order. */
  function Pairs<I>(d: Dict<I>): (r: seq<(string, Slot<I>)>)
    requires forall i :: 0 <= i < |d.order| ==> d.order[i] in d.slots
    ensures |r| == |d.order|
    ensures forall i :: 0 <= i < |r| ==> r[i] == (d.order[i], d.slots[d.order[i]])
  {
    seq(|d.order|, i requires 0 <= i < |d.order| => (d.order[i], d.slots[d.order[i]]))
  }

  predicate IndexEntry<I>(e: (string, Slot<I>)) { IsArrayIndex(e.0) }

  predicate NamedEntry<I>(e: (string, Slot<I>)) { !IsArrayIndex(e.0) }

  function EntryIndex<I>(e: (string, Slot<I>)): real { IndexKey(e.0) }

  function CountOf<I>(e: (string, Slot<I>)): nat { e.1.count }

  /** The order `Object.entries` gives to a list of entries in creation order. */
  function Arrange<I>(ps: seq<(string, Slot<I>)>): (r: seq<(string, Slot<I>)>)
    ensures multiset(r) == multiset(ps)
  {
    FilterPartition(ps, IndexEntry, NamedEntry);
    Sort(Filter(ps, IndexEntry), EntryIndex, Ascending) + Filter(ps, NamedEntry)
  }

  /**
   * `Object.entries(acc)`: the entries under array-index keys in ascending
   * numeric order, then the others in creation order.
   */
  function Entries<I>(d: Dict<I>): (r: seq<(string, Slot<I>)>)
    requires Consistent(d)
    ensures multiset(r) == multiset(Pairs(d))
  {
    Arrange(Pairs(d))
  }

  /** Every entry is a key of the dictionary with the value stored under it. */
  lemma EntriesListed<I>(d: Dict<I>)
    requires Consistent(d)
    ensures |Entries(d)| == |d.order|
    ensures forall i :: 0 <= i < |Entries(d)| ==> Entries(d)[i].0 in d.slots && Entries(d)[i].1 == d.slots[Entries(d)[i].0]
  {
    var es, ps := Entries(d), Pairs(d);
    assert |es| == |ps| by {
      assert |multiset(es)| == |multiset(ps)|;
    }
    forall i | 0 <= i < |es|
      ensures es[i].0 in d.slots && es[i].1 == d.slots[es[i].0]
    {
      EntryIsPair(es, ps, i);
    }
  }

  /** An element of a permutation of `ps` sits at some position of `ps`. */
  lemma EntryIsPair<T>(es: seq<T>, ps: seq<T>, i: nat)
    requires multiset(es) == multiset(ps) && i < |es|
    ensures exists j :: 0 <= j < |ps| && ps[j] == es[i]
  {
    assert es[i] in multiset(ps);
  }

  /** A dictionary none of whose keys is an array index lists its entries in creation order. */
  lemma EntriesNamed<I>(d: Dict<I>)
    requires Consistent(d)
    requires forall i :: 0 <= i < |d.order| ==> !IsArrayIndex(d.order[i])
    ensures Entries(d) == Pairs(d)
  {
    var ps := Pairs(d);
    NoneKept(ps, IndexEntry);
    FilterAllKept(ps, NamedEntry);
  }

  /** The entries of the dictionary the fold builds from `{}`. */
  function EntriesOf<I>(rows: seq<(string, I)>): seq<(string, Slot<I>)> {
    GroupedConsistent(rows);
    Entries(Grouped(rows))
  }

  /** Each entry's key is the key of some row, and its count is the number of rows with that key. */
  lemma EntriesOfCounts<I>(rows: seq<(string, I)>)
    ensures forall i :: 0 <= i < |EntriesOf(rows)| ==>
      EntriesOf(rows)[i].0 in KeysOf(rows) && EntriesOf(rows)[i].1.count == multiset(KeysOf(rows))[EntriesOf(rows)[i].0]
  {
    var d := Grouped(rows);
    GroupedConsistent(rows);
    EntriesListed(d);
    GroupedCounts(rows);
    forall i | 0 <= i < |Entries(d)|
      ensures Entries(d)[i].0 in KeysOf(rows)
    {
      GroupedKeys(rows, Entries(d)[i].0);
    }
  }

  /** The value kept under each entry is that of the first row with the entry's key. */
  lemma EntriesOfFirst<I>(rows: seq<(string, I)>)
    ensures forall i :: 0 <= i < |EntriesOf(rows)| ==>
      IndexOfValue(KeysOf(rows), EntriesOf(rows)[i].0).Some? &&
      EntriesOf(rows)[i].1.first == rows[IndexOfValue(KeysOf(rows), EntriesOf(rows)[i].0).value].1
  {
    var d := Grouped(rows);
    GroupedConsistent(rows);
    EntriesListed(d);
    forall i | 0 <= i < |Entries(d)|
      ensures IndexOfValue(KeysOf(rows), Entries(d)[i].0).Some?
      ensures Entries(d)[i].1.first == rows[IndexOfValue(KeysOf(rows), Entries(d)[i].0).value].1
    {
      GroupedFirst(rows, Entries(d)[i].0);
    }
  }

  /** Every row's key has an entry. */
  lemma EntriesOfCover<I>(rows: seq<(string, I)>, k: string)
    requires k in KeysOf(rows)
    ensures exists i :: 0 <= i < |EntriesOf(rows)| && EntriesOf(rows)[i].0 == k
  {
    var d := Grouped(rows);
    GroupedConsistent(rows);
    GroupedKeys(rows, k);
    var ps, es := Pairs(d), Entries(d);
    assert EntriesOf(rows) == es;
    var j :| 0 <= j < |d.order| && d.order[j] == k;
    EntryIsPair(ps, es, j);
    var i :| 0 <= i < |es| && es[i] == ps[j];
    assert es[i].0 == k;
  }

  /** No two entries share a key. */
  lemma EntriesOfDistinct<I>(rows: seq<(string, I)>)
    ensures forall i, j :: 0 <= i < j < |EntriesOf(rows)| ==> EntriesOf(rows)[i].0 != EntriesOf(rows)[j].0
  {
    var d := Grouped(rows);
    GroupedConsistent(rows);
    GroupedOrder(rows);
    DistinctCounts(d.order);
    EntriesDistinct(d);
  }

  /** A dictionary whose keys were each created once lists each key once. */
  lemma EntriesDistinct<I>(d: Dict<I>)
    requires Consistent(d) && Distinct(d.order)
    ensures forall i, j :: 0 <= i < j < |Entries(d)| ==> Entries(d)[i].0 != Entries(d)[j].0
  {
    var ps, es := Pairs(d), Entries(d);
    assert Distinct(ps) by {
      forall i, j | 0 <= i < j < |ps|
        ensures ps[i] != ps[j]
      {
        assert ps[i].0 == d.order[i] && ps[j].0 == d.order[j];
      }
    }
    DistinctPermutation(ps, es);
    EntriesListed(d);
    forall i, j | 0 <= i < j < |es|
      ensures es[i].0 != es[j].0
    {
      assert es[i] != es[j];
    }
  }

  /** The entries' counts add up to the number of rows. */
  lemma EntriesOfTotal<I>(rows: seq<(string, I)>)
    ensures Total(EntriesOf(rows), CountOf) == |rows|
  {
    var d := Grouped(rows);
    GroupedTotal(rows);
    PairsTotal(d.order, d.slots);
    TotalPermutation(Pairs(d), Entries(d), CountOf);
  }

  /** Summing the counts over the pairs is summing them over the keys. */
  lemma {:induction false} PairsTotal<I>(order: seq<string>, slots: map<string, Slot<I>>)
    requires forall i :: 0 <= i < |order| ==> order[i] in slots
    ensures Total(Pairs(Dict(order, slots)), CountOf) == SumCounts(order, slots)
  {
    if order != [] {
      var init := order[..|order| - 1];
      PairsTotal(init, slots);
      assert Pairs(Dict(order, slots))[..|order| - 1] == Pairs(Dict(init, slots));
    }
  }

  /** `rows.map(row => [key(row), row])`: each row paired with its key. */
  function Keyed<R>(rows: seq<R>, key: R -> string): (r: seq<(string, R)>)
    ensures |r| == |rows| && forall i :: 0 <= i < |rows| ==> r[i] == (key(rows[i]), rows[i])
  {
    seq(|rows|, i requires 0 <= i < |rows| => (key(rows[i]), rows[i]))
  }

  /** The test "the row's key is `k`". */
  function HasKey<R>(key: R -> string, k: string): R -> bool {
    row => key(row) == k
  }

  /** The number of times `k` occurs among the keys is the number of rows whose key is `k`. */
  lemma {:induction false} KeyedCount<R>(rows: seq<R>, key: R -> string, k: string)
    ensures multiset(KeysOf(Keyed(rows, key)))[k] == CountWhere(rows, HasKey(key, k))
  {
    if rows != [] {
      var init := rows[..|rows| - 1];
      KeyedCount(init, key, k);
      var ks := Keyed(rows, key);
      assert ks[..|rows| - 1] == Keyed(init, key);
      KeysOfSplit(ks);
    }
  }

  /** Each entry of the fold over keyed rows is the key of some row, with the number of rows that have that key. */
  lemma KeyedEntries<R>(rows: seq<R>, key: R -> string)
    ensures forall i :: 0 <= i < |EntriesOf(Keyed(rows, key))| ==>
      (exists t :: 0 <= t < |rows| && key(rows[t]) == EntriesOf(Keyed(rows, key))[i].0) &&
      EntriesOf(Keyed(rows, key))[i].1.count == CountWhere(rows, HasKey(key, EntriesOf(Keyed(rows, key))[i].0))
  {
    var keyed := Keyed(rows, key);
    var es := EntriesOf(keyed);
    EntriesOfCounts(keyed);
    forall i | 0 <= i < |es|
      ensures exists t :: 0 <= t < |rows| && key(rows[t]) == es[i].0
      ensures es[i].1.count == CountWhere(rows, HasKey(key, es[i].0))
    {
      var t :| 0 <= t < |keyed| && keyed[t].0 == es[i].0;
      KeyedCount(rows, key, es[i].0);
    }
  }

  /** Every row's key has an entry in the fold over keyed rows. */
  lemma KeyedCover<R>(rows: seq<R>, key: R -> string, t: nat)
    requires t < |rows|
    ensures exists i :: 0 <= i < |EntriesOf(Keyed(rows, key))| && EntriesOf(Keyed(rows, key))[i].0 == key(rows[t])
  {
    var keyed := Keyed(rows, key);
    assert keyed[t].0 in KeysOf(keyed);
    EntriesOfCover(keyed, keyed[t].0);
  }

  /** Row `j` is the first row whose key is `k`. */
  predicate FirstWithKey<R>(rows: seq<R>, key: R -> string, j: int, k: string) {
    0 <= j < |rows| && key(rows[j]) == k && forall u :: 0 <= u < j ==> key(rows[u]) != k
  }

  /** The entry keeps, as its first value, the first row that has the entry's key. */
  ghost predicate KeepsFirstRow<R>(rows: seq<R>, key: R -> string, e: (string, Slot<R>)) {
    exists j :: FirstWithKey(rows, key, j, e.0) && e.1.first == rows[j]
  }

  /** The row kept under each entry of the fold over keyed rows is the first row with the entry's key. */
  lemma KeyedFirst<R>(rows: seq<R>, key: R -> string)
    ensures forall i :: 0 <= i < |EntriesOf(Keyed(rows, key))| ==> KeepsFirstRow(rows, key, EntriesOf(Keyed(rows, key))[i])
  {
    var es := EntriesOf(Keyed(rows, key));
    forall i | 0 <= i < |es|
      ensures KeepsFirstRow(rows, key, es[i])
    {
      KeyedEntryFirst(rows, key, i);
    }
  }

  lemma KeyedEntryFirst<R>(rows: seq<R>, key: R -> string, i: nat)
    requires i < |EntriesOf(Keyed(rows, key))|
    ensures KeepsFirstRow(rows, key, EntriesOf(Keyed(rows, key))[i])
  {
    var keyed := Keyed(rows, key);
    var e := EntriesOf(keyed)[i];
    EntriesOfFirst(keyed);
    var j := IndexOfValue(KeysOf(keyed), e.0).value;
    KeyedIndexFirst(rows, key, e.0, j);
  }

  /** The first position of a key among the keyed rows is the first row with that key. */
  lemma KeyedIndexFirst<R>(rows: seq<R>, key: R -> string, k: string, j: nat)
    requires IndexOfValue(KeysOf(Keyed(rows, key)), k) == Some(j)
    ensures FirstWithKey(rows, key, j, k) && Keyed(rows, key)[j].1 == rows[j]
  {
    var ks := KeysOf(Keyed(rows, key));
    assert forall u :: 0 <= u < |rows| ==> ks[u] == key(rows[u]);
  }
}
