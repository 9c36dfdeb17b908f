/** Shared vocabulary: optional values, results, and the list operations
    (filter, map, reduce, some) that the scripts chain together. */
module Collections {

  datatype Option<+T> = None | Some(value: T) {
    function GetOr(default: T): T {
      if Some? then value else default
    }
  }

  datatype Result<+T, +E> = Success(value: T) | Failure(error: E)

  function Filter<T>(xs: seq<T>, p: T -> bool): (ys: seq<T>) {
    if xs == [] then []
    else if p(xs[0]) then [xs[0]] + Filter(xs[1..], p)
    else Filter(xs[1..], p)
  }

  function MapSeq<S, T>(xs: seq<S>, f: S -> T): (ys: seq<T>)
    ensures |ys| == |xs|
    ensures forall i :: 0 <= i < |xs| ==> ys[i] == f(xs[i])
  {
    if xs == [] then [] else [f(xs[0])] + MapSeq(xs[1..], f)
  }

  function Sum<T>(xs: seq<T>, f: T -> nat): nat {
    if xs == [] then 0 else f(xs[0]) + Sum(xs[1..], f)
  }

  function Flatten<T>(xss: seq<seq<T>>): seq<T> {
    if xss == [] then [] else xss[0] + Flatten(xss[1..])
  }

  predicate NoDuplicates<T(==)>(xs: seq<T>) {
    forall i, j :: 0 <= i < j < |xs| ==> xs[i] != xs[j]
  }

  function ToSet<T>(xs: seq<T>): set<T> {
    set x | x in xs
  }

  /** The sequence without its element at index i. */
  function RemoveAt<T>(xs: seq<T>, i: nat): seq<T>
    requires i < |xs|
  {
    xs[..i] + xs[i + 1..]
  }

  lemma {:induction false} FilterAppend<T>(xs: seq<T>, ys: seq<T>, p: T -> bool)
    ensures Filter(xs + ys, p) == Filter(xs, p) + Filter(ys, p)
  {
    if xs == [] {
      assert xs + ys == ys;
    } else {
      FilterAppend(xs[1..], ys, p);
      assert (xs + ys)[0] == xs[0] && (xs + ys)[1..] == xs[1..] + ys;
      if p(xs[0]) {
        assert Filter(xs + ys, p) == [xs[0]] + (Filter(xs[1..], p) + Filter(ys, p));
      }
    }
  }

  lemma {:induction false} FilterMembers<T>(xs: seq<T>, p: T -> bool)
    ensures forall x :: x in Filter(xs, p) <==> x in xs && p(x)
  {
    if xs != [] {
      FilterMembers(xs[1..], p);
    }
  }

  lemma {:induction false} FilterLength<T>(xs: seq<T>, p: T -> bool)
    ensures |Filter(xs, p)| <= |xs|
    ensures |Filter(xs, p)| == |xs| <==> (forall x :: x in xs ==> p(x))
    ensures |Filter(xs, p)| == 0 <==> (forall x :: x in xs ==> !p(x))
  {
    if xs != [] {
      FilterLength(xs[1..], p);
    }
  }

  lemma FilterSnoc<T>(xs: seq<T>, i: nat, p: T -> bool)
    requires i < |xs|
    ensures Filter(xs[..i + 1], p) == Filter(xs[..i], p) + (if p(xs[i]) then [xs[i]] else [])
  {
    assert xs[..i + 1] == xs[..i] + [xs[i]];
    FilterAppend(xs[..i], [xs[i]], p);
  }

  lemma {:induction false} MapAppend<S, T>(xs: seq<S>, ys: seq<S>, f: S -> T)
    ensures MapSeq(xs + ys, f) == MapSeq(xs, f) + MapSeq(ys, f)
  {
  }

  lemma {:induction false} FilterAgrees<T>(xs: seq<T>, p: T -> bool, q: T -> bool)
    requires forall x :: x in xs ==> p(x) == q(x)
    ensures Filter(xs, p) == Filter(xs, q)
  {
    if xs != [] {
      FilterAgrees(xs[1..], p, q);
    }
  }

  lemma {:induction false} FilterAll<T>(xs: seq<T>, p: T -> bool)
    requires forall x :: x in xs ==> p(x)
    ensures Filter(xs, p) == xs
  {
    if xs != [] {
      FilterAll(xs[1..], p);
    }
  }

  lemma {:induction false} SumAppend<T>(xs: seq<T>, ys: seq<T>, f: T -> nat)
    ensures Sum(xs + ys, f) == Sum(xs, f) + Sum(ys, f)
  {
    if xs == [] {
      assert xs + ys == ys;
    } else {
      assert (xs + ys)[1..] == xs[1..] + ys;
      SumAppend(xs[1..], ys, f);
    }
  }

  lemma {:induction false} FlattenAppend<T>(a: seq<seq<T>>, b: seq<seq<T>>)
    ensures Flatten(a + b) == Flatten(a) + Flatten(b)
  {
    if a == [] {
      assert a + b == b;
    } else {
      assert (a + b)[1..] == a[1..] + b;
      FlattenAppend(a[1..], b);
    }
  }

  /** Two orderings of the same elements: the second holds the head of the
      first somewhere, and dropping it leaves orderings of the same rest. */
  lemma PermutationHead<T>(xs: seq<T>, ys: seq<T>) returns (i: nat)
    requires multiset(xs) == multiset(ys) && xs != []
    ensures i < |ys| && ys[i] == xs[0]
    ensures multiset(xs[1..]) == multiset(RemoveAt(ys, i))
    ensures ys == ys[..i] + [ys[i]] + ys[i + 1..]
  {
    assert xs[0] in multiset(ys);
    i :| 0 <= i < |ys| && ys[i] == xs[0];
    assert ys == ys[..i] + [ys[i]] + ys[i + 1..];
    assert xs == [xs[0]] + xs[1..];
    assert multiset(ys) == multiset{ys[i]} + multiset(RemoveAt(ys, i));
    assert multiset(xs) == multiset{xs[0]} + multiset(xs[1..]);
    assert multiset(xs[1..]) == multiset(xs) - multiset{xs[0]};
    assert multiset(RemoveAt(ys, i)) == multiset(ys) - multiset{ys[i]};
  }

  /** A sum over a list does not depend on the order of the list. */
  lemma {:induction false} SumPermutation<T>(xs: seq<T>, ys: seq<T>, f: T -> nat)
    requires multiset(xs) == multiset(ys)
    ensures Sum(xs, f) == Sum(ys, f)
    decreases |xs|
  {
    if xs == [] {
      assert |multiset(ys)| == 0;
    } else {
      var i := PermutationHead(xs, ys);
      SumPermutation(xs[1..], RemoveAt(ys, i), f);
      SumAppend(ys[..i], ys[i + 1..], f);
      SumAppend(ys[..i] + [ys[i]], ys[i + 1..], f);
      SumAppend(ys[..i], [ys[i]], f);
    }
  }

  /** xs.flatMap(f) */
  function FlatMap<S, T>(xs: seq<S>, f: S -> seq<T>): seq<T> {
    if xs == [] then [] else f(xs[0]) + FlatMap(xs[1..], f)
  }

  lemma {:induction false} FlatMapAppend<S, T>(xs: seq<S>, ys: seq<S>, f: S -> seq<T>)
    ensures FlatMap(xs + ys, f) == FlatMap(xs, f) + FlatMap(ys, f)
  {
    if xs == [] {
      assert xs + ys == ys;
    } else {
      assert (xs + ys)[1..] == xs[1..] + ys;
      FlatMapAppend(xs[1..], ys, f);
    }
  }

  lemma FlatMapSnoc<S, T>(xs: seq<S>, x: S, f: S -> seq<T>)
    ensures FlatMap(xs + [x], f) == FlatMap(xs, f) + f(x)
  {
    FlatMapAppend(xs, [x], f);
    assert FlatMap([x], f) == f(x);
  }

  lemma FlatMapThree<S, T>(a: S, b: S, c: S, f: S -> seq<T>)
    ensures FlatMap([a, b, c], f) == f(a) + f(b) + f(c)
  {
    FlatMapSnoc([], a, f);
    FlatMapSnoc([a], b, f);
    FlatMapSnoc([a, b], c, f);
    assert [] + [a] == [a] && [a] + [b] == [a, b] && [a, b] + [c] == [a, b, c];
  }

  /** Reordering the input reorders the output. */
  lemma {:induction false} FlatMapPermutation<S, T>(xs: seq<S>, ys: seq<S>, f: S -> seq<T>)
    requires multiset(xs) == multiset(ys)
    ensures multiset(FlatMap(xs, f)) == multiset(FlatMap(ys, f))
    decreases |xs|
  {
    if xs == [] {
      assert |multiset(ys)| == 0;
    } else {
      var i := PermutationHead(xs, ys);
      FlatMapPermutation(xs[1..], RemoveAt(ys, i), f);
      FlatMapAppend(ys[..i], ys[i + 1..], f);
      FlatMapAppend(ys[..i] + [ys[i]], ys[i + 1..], f);
      FlatMapSnoc(ys[..i], ys[i], f);
    }
  }

  /** Elements that contribute nothing can be dropped. */
  lemma {:induction false} FlatMapFilter<S, T>(xs: seq<S>, p: S -> bool, f: S -> seq<T>)
    requires forall x :: x in xs && !p(x) ==> f(x) == []
    ensures FlatMap(Filter(xs, p), f) == FlatMap(xs, f)
  {
    if xs != [] {
      FlatMapFilter(xs[1..], p, f);
      if p(xs[0]) {
        assert Filter(xs, p) == [xs[0]] + Filter(xs[1..], p);
      }
    }
  }

  function Indicator<T>(p: T -> bool): T -> nat {
    (x: T) => if p(x) then 1 else 0
  }

  lemma {:induction false} FilterIsIndicatorSum<T>(xs: seq<T>, p: T -> bool)
    ensures |Filter(xs, p)| == Sum(xs, Indicator(p))
  {
    if xs != [] {
      FilterIsIndicatorSum(xs[1..], p);
    }
  }

  /** How many elements pass a test does not depend on their order. */
  lemma FilterCountPermutation<T>(xs: seq<T>, ys: seq<T>, p: T -> bool)
    requires multiset(xs) == multiset(ys)
    ensures |Filter(xs, p)| == |Filter(ys, p)|
  {
    FilterIsIndicatorSum(xs, p);
    FilterIsIndicatorSum(ys, p);
    SumPermutation(xs, ys, Indicator(p));
  }

  /** A list of at most one element has no other arrangement. */
  lemma ShortPermutation<T>(xs: seq<T>, ys: seq<T>)
    requires multiset(xs) == multiset(ys) && |xs| <= 1
    ensures xs == ys
  {
    PermutationMembers(xs, ys);
    if |xs| == 1 {
      assert ys[0] in xs;
    }
  }

  lemma PermutationMembers<T>(xs: seq<T>, ys: seq<T>)
    requires multiset(xs) == multiset(ys)
    ensures |xs| == |ys|
    ensures forall x :: x in xs <==> x in ys
  {
    assert |multiset(xs)| == |xs| && |multiset(ys)| == |ys|;
    forall x ensures x in xs <==> x in ys {
      assert x in xs <==> x in multiset(xs);
      assert x in ys <==> x in multiset(ys);
    }
  }

  /** A subset is no larger, and of the same size only when it is the whole set. */
  lemma {:induction false} SubsetSize<T>(a: set<T>, b: set<T>)
    requires a <= b
    ensures |a| <= |b|
    ensures |a| == |b| ==> a == b
  {
    if a != {} {
      var x :| x in a;
      SubsetSize(a - {x}, b - {x});
    }
  }

  /** Distinct elements fill a set of the same size; fewer members than
      positions means a repetition. */
  lemma {:induction false} DistinctCardinality<T>(xs: seq<T>)
    ensures |ToSet(xs)| <= |xs|
    ensures |ToSet(xs)| == |xs| <==> NoDuplicates(xs)
  {
    if xs == [] {
      assert ToSet(xs) == {};
    } else {
      var rest := xs[1..];
      DistinctCardinality(rest);
      assert ToSet(xs) == {xs[0]} + ToSet(rest);
      if xs[0] in rest {
        var j :| 0 <= j < |rest| && rest[j] == xs[0];
        assert xs[0] == xs[j + 1];
        assert ToSet(xs) == ToSet(rest);
      } else {
        assert xs[0] !in ToSet(rest);
        assert NoDuplicates(xs) <==> NoDuplicates(rest) by {
          if NoDuplicates(rest) {
            forall i, j | 0 <= i < j < |xs| ensures xs[i] != xs[j] {
              if i > 0 { assert xs[i] == rest[i - 1] && xs[j] == rest[j - 1]; } else { assert xs[j] == rest[j - 1]; }
            }
          }
          if NoDuplicates(xs) {
            forall i, j | 0 <= i < j < |rest| ensures rest[i] != rest[j] {
              assert rest[i] == xs[i + 1] && rest[j] == xs[j + 1];
            }
          }
        }
      }
    }
  }
}

/** A JavaScript record of counts, in insertion order, as the scripts build it
    with `acc[key] = (acc[key] ?? 0) + 1`. */
module Counters {
  import opened Collections

  type Counts = seq<(string, nat)>

  function Get(c: Counts, key: string): nat {
    if c == [] then 0
    else if c[0].0 == key then c[0].1
    else Get(c[1..], key)
  }

  function Bump(c: Counts, key: string): Counts {
    if c == [] then [(key, 1)]
    else if c[0].0 == key then [(key, c[0].1 + 1)] + c[1..]
    else [c[0]] + Bump(c[1..], key)
  }

  function Total(c: Counts): nat {
    if c == [] then 0 else c[0].1 + Total(c[1..])
  }

  lemma {:induction false} BumpEffect(c: Counts, key: string)
    ensures forall k :: Get(Bump(c, key), k) == Get(c, k) + (if k == key then 1 else 0)
    ensures Total(Bump(c, key)) == Total(c) + 1
  {
    if c != [] && c[0].0 != key {
      BumpEffect(c[1..], key);
    }
  }

  /** countBy: one bump per value. */
  function Tallied(values: seq<string>): Counts {
    if values == [] then []
    else Bump(Tallied(values[..|values| - 1]), values[|values| - 1])
  }

  method CountBy(values: seq<string>) returns (counts: Counts)
    ensures counts == Tallied(values)
    ensures Total(counts) == |values|
    ensures forall k :: Get(counts, k) == multiset(values)[k]
  {
    counts := [];
    for i := 0 to |values|
      invariant counts == Tallied(values[..i])
    {
      assert values[..i + 1][..i] == values[..i];
      counts := Bump(counts, values[i]);
    }
    assert values[..|values|] == values;
    TalliedIsMultiplicity(values);
  }

  /** The counters partition the list: each key counts its occurrences, and the
      counters add up to the length. */
  lemma {:induction false} TalliedIsMultiplicity(values: seq<string>)
    ensures Total(Tallied(values)) == |values|
    ensures forall k :: Get(Tallied(values), k) == multiset(values)[k]
  {
    if values != [] {
      var front, last := values[..|values| - 1], values[|values| - 1];
      TalliedIsMultiplicity(front);
      BumpEffect(Tallied(front), last);
      assert values == front + [last];
    }
  }
}
