/** Grouping rows in a JavaScript Map (keys in insertion order) and sorting the
    entries by a comparison of their keys. */
module Grouping {
  import opened Collections

  type Groups<T> = seq<(string, seq<T>)>

  /** map.set(key, [...(map.get(key) ?? []), row]) */
  function AddTo<T>(groups: Groups<T>, key: string, row: T): Groups<T> {
    if groups == [] then [(key, [row])]
    else if groups[0].0 == key then [(key, groups[0].1 + [row])] + groups[1..]
    else [groups[0]] + AddTo(groups[1..], key, row)
  }

  function GroupRows<T>(rows: seq<T>, key: T -> string): Groups<T> {
    if rows == [] then []
    else AddTo(GroupRows(rows[..|rows| - 1], key), key(rows[|rows| - 1]), rows[|rows| - 1])
  }

  method GroupBy<T(!new)>(rows: seq<T>, key: T -> string) returns (groups: Groups<T>)
    ensures groups == GroupRows(rows, key)
    ensures Partitions(groups, rows, key)
  {
    groups := [];
    for i := 0 to |rows|
      invariant groups == GroupRows(rows[..i], key)
    {
      assert rows[..i + 1][..i] == rows[..i];
      groups := AddTo(groups, key(rows[i]), rows[i]);
    }
    assert rows[..|rows|] == rows;
    GroupRowsPartitions(rows, key);
  }

  function HasKey<T>(key: T -> string, k: string): T -> bool {
    (row: T) => key(row) == k
  }

  predicate DistinctKeys<T>(groups: Groups<T>) {
    forall i, j :: 0 <= i < j < |groups| ==> groups[i].0 != groups[j].0
  }

  /** Each group is the rows of its key, in order and nonempty; no key is missed or
      used twice. */
  ghost predicate Partitions<T(!new)>(groups: Groups<T>, rows: seq<T>, key: T -> string) {
    && DistinctKeys(groups)
    && (forall i :: 0 <= i < |groups| ==> groups[i].1 == Filter(rows, HasKey(key, groups[i].0)) && groups[i].1 != [])
    && (forall row :: row in rows ==> exists i :: 0 <= i < |groups| && groups[i].0 == key(row))
  }

  function Lookup<T>(groups: Groups<T>, k: string): seq<T> {
    if groups == [] then []
    else if groups[0].0 == k then groups[0].1
    else Lookup(groups[1..], k)
  }

  lemma {:induction false} AddToLookup<T>(groups: Groups<T>, key: string, row: T)
    ensures forall k :: Lookup(AddTo(groups, key, row), k) == if k == key then Lookup(groups, k) + [row]
            else Lookup(groups, k)
  {
    if groups != [] && groups[0].0 != key {
      AddToLookup(groups[1..], key, row);
    }
  }

  ghost predicate HasGroup<T(!new)>(groups: Groups<T>, k: string) {
    exists i :: 0 <= i < |groups| && groups[i].0 == k
  }

  ghost predicate WellFormed<T(!new)>(groups: Groups<T>) {
    DistinctKeys(groups) && forall i :: 0 <= i < |groups| ==> groups[i].1 != []
  }

  lemma HasGroupCons<T(!new)>(groups: Groups<T>, k: string)
    requires groups != []
    ensures HasGroup(groups, k) <==> groups[0].0 == k || HasGroup(groups[1..], k)
  {
    if HasGroup(groups[1..], k) {
      var i :| 0 <= i < |groups[1..]| && groups[1..][i].0 == k;
      assert groups[i + 1].0 == k;
    }
    if HasGroup(groups, k) && groups[0].0 != k {
      var i :| 0 <= i < |groups| && groups[i].0 == k;
      assert groups[1..][i - 1].0 == k;
    }
  }

  lemma DistinctKeysCons<T(!new)>(g: (string, seq<T>), rest: Groups<T>)
    ensures DistinctKeys([g] + rest) <==> DistinctKeys(rest) && !HasGroup(rest, g.0)
  {
    var groups := [g] + rest;
    if DistinctKeys(rest) && !HasGroup(rest, g.0) {
      forall i, j | 0 <= i < j < |groups| ensures groups[i].0 != groups[j].0 {
        assert groups[j] == rest[j - 1];
        if i > 0 { assert groups[i] == rest[i - 1]; }
      }
    }
    if DistinctKeys(groups) {
      forall i, j | 0 <= i < j < |rest| ensures rest[i].0 != rest[j].0 {
        assert rest[i] == groups[i + 1] && rest[j] == groups[j + 1];
      }
      forall i | 0 <= i < |rest| ensures rest[i].0 != g.0 {
        assert groups[0] == g && rest[i] == groups[i + 1];
      }
    }
  }

  lemma {:induction false} AddToWellFormed<T(!new)>(groups: Groups<T>, key: string, row: T)
    requires WellFormed(groups)
    ensures WellFormed(AddTo(groups, key, row))
    ensures forall k :: HasGroup(AddTo(groups, key, row), k) <==> HasGroup(groups, k) || k == key
  {
    var added := AddTo(groups, key, row);
    if groups == [] {
      assert added[0].0 == key;
    } else {
      var rest := groups[1..];
      assert groups == [groups[0]] + rest;
      DistinctKeysCons(groups[0], rest);
      assert forall i :: 0 <= i < |rest| ==> rest[i] == groups[i + 1];
      forall k ensures HasGroup(groups, k) <==> groups[0].0 == k || HasGroup(rest, k) { HasGroupCons(groups, k); }
      if groups[0].0 == key {
        assert added[1..] == rest;
        DistinctKeysCons(added[0], rest);
      } else {
        AddToWellFormed(rest, key, row);
        assert added[1..] == AddTo(rest, key, row);
        DistinctKeysCons(groups[0], AddTo(rest, key, row));
      }
      forall k ensures HasGroup(added, k) <==> added[0].0 == k || HasGroup(added[1..], k) { HasGroupCons(added, k); }
    }
  }

  lemma {:induction false} LookupAt<T>(groups: Groups<T>, i: nat)
    requires DistinctKeys(groups) && i < |groups|
    ensures Lookup(groups, groups[i].0) == groups[i].1
  {
    if i > 0 {
      assert forall a, b :: 0 <= a < b < |groups[1..]| ==>
             groups[1..][a] == groups[a + 1] && groups[1..][b] == groups[b + 1];
      LookupAt(groups[1..], i - 1);
    }
  }

  lemma {:induction false} GroupRowsLookup<T(!new)>(rows: seq<T>, key: T -> string)
    ensures WellFormed(GroupRows(rows, key))
    ensures forall k :: Lookup(GroupRows(rows, key), k) == Filter(rows, HasKey(key, k))
    ensures forall row :: row in rows ==> HasGroup(GroupRows(rows, key), key(row))
  {
    if rows != [] {
      var front, last := rows[..|rows| - 1], rows[|rows| - 1];
      GroupRowsLookup(front, key);
      AddToWellFormed(GroupRows(front, key), key(last), last);
      AddToLookup(GroupRows(front, key), key(last), last);
      assert rows == front + [last];
      forall k ensures Lookup(GroupRows(rows, key), k) == Filter(rows, HasKey(key, k)) {
        FilterAppend(front, [last], HasKey(key, k));
        assert [last][1..] == [];
      }
    }
  }

  lemma GroupRowsPartitions<T(!new)>(rows: seq<T>, key: T -> string)
    ensures Partitions(GroupRows(rows, key), rows, key)
  {
    GroupRowsLookup(rows, key);
    var groups := GroupRows(rows, key);
    forall i | 0 <= i < |groups| ensures groups[i].1 == Filter(rows, HasKey(key, groups[i].0)) {
      LookupAt(groups, i);
    }
    forall row | row in rows ensures exists i :: 0 <= i < |groups| && groups[i].0 == key(row) {
      assert HasGroup(groups, key(row));
    }
  }

  function GroupSize<T>(): ((string, seq<T>)) -> nat {
    (g: (string, seq<T>)) => |g.1|
  }

  lemma {:induction false} AddToSize<T>(groups: Groups<T>, key: string, row: T)
    ensures Sum(AddTo(groups, key, row), GroupSize()) == Sum(groups, GroupSize()) + 1
  {
    if groups != [] {
      if groups[0].0 == key {
        assert AddTo(groups, key, row)[1..] == groups[1..];
      } else {
        AddToSize(groups[1..], key, row);
        assert AddTo(groups, key, row)[1..] == AddTo(groups[1..], key, row);
      }
    }
  }

  /** The groups hold as many rows as the list. */
  lemma {:induction false} GroupRowsSize<T>(rows: seq<T>, key: T -> string)
    ensures Sum(GroupRows(rows, key), GroupSize()) == |rows|
  {
    if rows != [] {
      GroupRowsSize(rows[..|rows| - 1], key);
      AddToSize(GroupRows(rows[..|rows| - 1], key), key(rows[|rows| - 1]), rows[|rows| - 1]);
    }
  }

  // ----- reordering the groups -----

  /** An element at two positions has multiplicity two at least. */
  lemma TwicePresent<T>(xs: seq<T>, i: nat, j: nat)
    requires i < j < |xs| && xs[i] == xs[j]
    ensures multiset(xs)[xs[i]] >= 2
  {
    assert xs == xs[..j] + xs[j..];
    assert xs[..j][i] == xs[i] && xs[j..][0] == xs[j];
    assert multiset(xs) == multiset(xs[..j]) + multiset(xs[j..]);
    assert xs[i] in multiset(xs[..j]) && xs[j] in multiset(xs[j..]);
  }

  lemma {:induction false} DistinctMultiplicity<T>(xs: seq<T>, x: T)
    requires NoDuplicates(xs)
    ensures multiset(xs)[x] == if x in xs then 1 else 0
  {
    if xs != [] {
      assert forall i, j :: 0 <= i < j < |xs[1..]| ==> xs[1..][i] == xs[i + 1] && xs[1..][j] == xs[j + 1];
      DistinctMultiplicity(xs[1..], x);
      assert xs == [xs[0]] + xs[1..];
    }
  }

  /** Reordering distinct elements leaves them distinct. */
  lemma PermutationDistinct<T>(xs: seq<T>, ys: seq<T>)
    requires NoDuplicates(xs) && multiset(xs) == multiset(ys)
    ensures NoDuplicates(ys)
  {
    forall i, j | 0 <= i < j < |ys| ensures ys[i] != ys[j] {
      if ys[i] == ys[j] {
        TwicePresent(ys, i, j);
        DistinctMultiplicity(xs, ys[i]);
      }
    }
  }

  /** Sorting the groups keeps them a partition of the rows. */
  lemma SortedPartitions<T(!new)>(groups: Groups<T>, sorted: Groups<T>, rows: seq<T>, key: T -> string)
    requires Partitions(groups, rows, key) && multiset(sorted) == multiset(groups)
    ensures Partitions(sorted, rows, key)
  {
    PermutationMembers(groups, sorted);
    PermutationDistinct(groups, sorted);
    forall i | 0 <= i < |sorted|
      ensures sorted[i].1 == Filter(rows, HasKey(key, sorted[i].0)) && sorted[i].1 != []
    {
      assert sorted[i] in groups;
    }
    forall i, j | 0 <= i < j < |sorted| ensures sorted[i].0 != sorted[j].0 {
      assert sorted[i] in groups && sorted[j] in groups;
    }
    forall row | row in rows ensures exists i :: 0 <= i < |sorted| && sorted[i].0 == key(row) {
      var g :| 0 <= g < |groups| && groups[g].0 == key(row);
      assert groups[g] in sorted;
    }
  }
}
