/** Array.prototype.sort with a comparison function, and the best-so-far loop over
    a list sorted in descending order. */
module Sorting {
  import opened Collections

  /** compare(a, b) > 0 moves a behind b; ties keep their order. */
  type Compare<!T> = (T, T) -> int

  function Insert<T>(x: T, xs: seq<T>, compare: Compare<T>): seq<T> {
    if xs == [] then [x]
    else if compare(x, xs[0]) <= 0 then [x] + xs
    else [xs[0]] + Insert(x, xs[1..], compare)
  }

  /** A stable sort, as Array.prototype.sort. */
  function SortBy<T>(xs: seq<T>, compare: Compare<T>): seq<T> {
    if xs == [] then [] else Insert(xs[0], SortBy(xs[1..], compare), compare)
  }

  lemma SortOne<T>(x: T, compare: Compare<T>)
    ensures SortBy([x], compare) == [x]
  {
    var xs := [x];
    assert xs[1..] == [];
    assert SortBy(xs, compare) == Insert(xs[0], SortBy(xs[1..], compare), compare);
  }

  lemma {:induction false} InsertIsPermutation<T>(x: T, xs: seq<T>, compare: Compare<T>)
    ensures multiset(Insert(x, xs, compare)) == multiset{x} + multiset(xs)
  {
    if xs != [] && compare(x, xs[0]) > 0 {
      InsertIsPermutation(x, xs[1..], compare);
      assert xs == [xs[0]] + xs[1..];
    }
  }

  lemma {:induction false} SortIsPermutation<T>(xs: seq<T>, compare: Compare<T>)
    ensures multiset(SortBy(xs, compare)) == multiset(xs)
  {
    if xs != [] {
      SortIsPermutation(xs[1..], compare);
      InsertIsPermutation(xs[0], SortBy(xs[1..], compare), compare);
      assert xs == [xs[0]] + xs[1..];
    }
  }

  /** A strict total order on the members of a list. */
  ghost predicate StrictTotal<T(!new)>(compare: Compare<T>, xs: set<T>) {
    && (forall a, b :: a in xs && b in xs ==>
        (compare(a, b) == 0 <==> a == b) && (compare(a, b) < 0 <==> compare(b, a) > 0))
    && (forall a, b, c :: a in xs && b in xs && c in xs && compare(a, b) < 0 && compare(b, c) < 0 ==> compare(a, c) < 0)
  }

  ghost predicate SortedFrom<T(!new)>(xs: seq<T>, compare: Compare<T>) {
    forall i, j :: 0 <= i < j < |xs| ==> compare(xs[i], xs[j]) <= 0
  }

  lemma SortedCons<T(!new)>(x: T, xs: seq<T>, compare: Compare<T>)
    requires SortedFrom(xs, compare) && forall y :: y in xs ==> compare(x, y) <= 0
    ensures SortedFrom([x] + xs, compare)
  {
    var all := [x] + xs;
    forall i, j | 0 <= i < j < |all| ensures compare(all[i], all[j]) <= 0 {
      assert all[j] == xs[j - 1];
      if i > 0 { assert all[i] == xs[i - 1]; }
    }
  }

  lemma SortedHead<T(!new)>(xs: seq<T>, compare: Compare<T>, s: set<T>)
    requires StrictTotal(compare, s) && SortedFrom(xs, compare) && xs != [] && forall y :: y in xs ==> y in s
    ensures SortedFrom(xs[1..], compare)
    ensures forall y :: y in xs ==> compare(xs[0], y) <= 0
  {
    var rest := xs[1..];
    forall i, j | 0 <= i < j < |rest| ensures compare(rest[i], rest[j]) <= 0 {
      assert rest[i] == xs[i + 1] && rest[j] == xs[j + 1];
    }
    forall y | y in xs ensures compare(xs[0], y) <= 0 {
      var i :| 0 <= i < |xs| && xs[i] == y;
    }
  }

  lemma {:induction false} InsertSorted<T(!new)>(x: T, xs: seq<T>, compare: Compare<T>, s: set<T>)
    requires StrictTotal(compare, s) && x in s && forall y :: y in xs ==> y in s
    requires SortedFrom(xs, compare)
    ensures SortedFrom(Insert(x, xs, compare), compare)
  {
    if xs != [] {
      SortedHead(xs, compare, s);
      if compare(x, xs[0]) <= 0 {
        forall y | y in xs ensures compare(x, y) <= 0 {
          assert xs[0] in s && compare(xs[0], y) <= 0;
        }
        SortedCons(x, xs, compare);
      } else {
        var rest := xs[1..];
        InsertSorted(x, rest, compare, s);
        InsertMembers(x, rest, compare);
        assert xs[0] in s;
        SortedCons(xs[0], Insert(x, rest, compare), compare);
      }
    }
  }

  lemma InsertMembers<T(!new)>(x: T, xs: seq<T>, compare: Compare<T>)
    ensures forall y :: y in Insert(x, xs, compare) ==> y == x || y in xs
  {
    InsertIsPermutation(x, xs, compare);
    forall y | y in Insert(x, xs, compare) ensures y == x || y in xs {
      assert y in multiset(Insert(x, xs, compare));
    }
  }

  lemma {:induction false} SortSorted<T(!new)>(xs: seq<T>, compare: Compare<T>, s: set<T>)
    requires StrictTotal(compare, s) && forall y :: y in xs ==> y in s
    ensures SortedFrom(SortBy(xs, compare), compare)
  {
    if xs != [] {
      SortSorted(xs[1..], compare, s);
      SortIsPermutation(xs[1..], compare);
      PermutationMembers(SortBy(xs[1..], compare), xs[1..]);
      InsertSorted(xs[0], SortBy(xs[1..], compare), compare, s);
    }
  }

  lemma SameTails<T(!new)>(xs: seq<T>, ys: seq<T>)
    requires multiset(xs) == multiset(ys) && xs != [] && ys != [] && xs[0] == ys[0]
    ensures multiset(xs[1..]) == multiset(ys[1..])
  {
    assert xs == [xs[0]] + xs[1..] && ys == [ys[0]] + ys[1..];
    assert multiset(xs[1..]) == multiset(xs) - multiset{xs[0]};
    assert multiset(ys[1..]) == multiset(ys) - multiset{ys[0]};
  }

  /** Two sorted arrangements of the same elements are the same list. */
  lemma {:induction false} SortedUnique<T(!new)>(xs: seq<T>, ys: seq<T>, compare: Compare<T>, s: set<T>)
    requires StrictTotal(compare, s) && forall y :: y in xs ==> y in s
    requires multiset(xs) == multiset(ys)
    requires SortedFrom(xs, compare) && SortedFrom(ys, compare)
    ensures xs == ys
    decreases |xs|
  {
    PermutationMembers(xs, ys);
    if xs != [] {
      SortedHead(xs, compare, s);
      SortedHead(ys, compare, s);
      assert xs[0] in ys && ys[0] in xs;
      assert compare(xs[0], ys[0]) <= 0 && compare(ys[0], xs[0]) <= 0;
      assert xs[0] == ys[0];
      SameTails(xs, ys);
      SortedUnique(xs[1..], ys[1..], compare, s);
      assert xs == [xs[0]] + xs[1..] && ys == [ys[0]] + ys[1..];
    }
  }

  lemma SortedOfPermutations<T(!new)>(xs: seq<T>, ys: seq<T>, compare: Compare<T>)
    requires StrictTotal(compare, ToSet(xs)) && multiset(xs) == multiset(ys)
    ensures SortBy(xs, compare) == SortBy(ys, compare)
  {
    var s := ToSet(xs);
    PermutationMembers(xs, ys);
    SortSorted(xs, compare, s);
    SortSorted(ys, compare, s);
    SortIsPermutation(xs, compare);
    SortIsPermutation(ys, compare);
    PermutationMembers(xs, SortBy(xs, compare));
    SortedUnique(SortBy(xs, compare), SortBy(ys, compare), compare, s);
  }

  // ----- the best so far -----

  type Better<!T> = (T, T) -> bool

  /** for (const x of xs) if (!best || better(x, best)) best = x */
  function Best<T>(xs: seq<T>, better: Better<T>): Option<T> {
    if xs == [] then None
    else
      var best, x := Best(xs[..|xs| - 1], better), xs[|xs| - 1];
      if best.None? || better(x, best.value) then Some(x) else best
  }

  /** A comparison by rank: asymmetric, and whatever beats x also beats all that x does not lose to. */
  ghost predicate Ranks<T(!new)>(better: Better<T>) {
    && (forall a, b :: better(a, b) ==> !better(b, a))
    && (forall a, b, c :: better(a, c) ==> better(a, b) || better(b, c))
  }

  /** Nothing on the list is better than b, and what precedes b is worse. */
  ghost predicate FirstGreatest<T(!new)>(xs: seq<T>, i: int, better: Better<T>) {
    && 0 <= i < |xs|
    && (forall k :: 0 <= k < |xs| ==> !better(xs[k], xs[i]))
    && (forall k :: 0 <= k < i ==> better(xs[i], xs[k]))
  }

  lemma {:induction false} BestIsFirstGreatest<T(!new)>(xs: seq<T>, better: Better<T>)
    requires Ranks(better)
    ensures match Best(xs, better)
      case None => xs == []
      case Some(b) => exists i :: FirstGreatest(xs, i, better) && xs[i] == b
  {
    if xs != [] {
      var front, n := xs[..|xs| - 1], |xs| - 1;
      BestIsFirstGreatest(front, better);
      if Best(front, better).None? {
        assert FirstGreatest(xs, 0, better);
      } else {
        var i :| FirstGreatest(front, i, better) && front[i] == Best(front, better).value;
        if better(xs[n], front[i]) {
          forall k | 0 <= k < n ensures better(xs[n], xs[k]) {
            assert xs[k] == front[k] && !better(front[k], front[i]);
          }
          assert FirstGreatest(xs, n, better);
        } else {
          forall k | 0 <= k < |xs| ensures !better(xs[k], xs[i]) {
            if k < n { assert xs[k] == front[k]; }
          }
          forall k | 0 <= k < i ensures better(xs[i], xs[k]) {
            assert xs[k] == front[k];
          }
          assert FirstGreatest(xs, i, better);
        }
      }
    }
  }

  /** Greatest among the members: by rank, then by the order of the list. */
  ghost predicate GreatestOf<T(!new)>(s: set<T>, b: T, better: Better<T>, compare: Compare<T>) {
    b in s && forall c :: c in s && c != b ==> better(b, c) || (!better(c, b) && compare(b, c) < 0)
  }

  /** On a strictly ordered list the best so far is the greatest member. */
  lemma BestIsGreatest<T(!new)>(xs: seq<T>, better: Better<T>, compare: Compare<T>)
    requires Ranks(better) && StrictTotal(compare, ToSet(xs)) && SortedFrom(xs, compare)
    ensures match Best(xs, better)
      case None => xs == []
      case Some(b) => GreatestOf(ToSet(xs), b, better, compare)
  {
    BestIsFirstGreatest(xs, better);
    if Best(xs, better).Some? {
      var i :| FirstGreatest(xs, i, better) && xs[i] == Best(xs, better).value;
      FirstGreatestIsGreatest(xs, i, better, compare);
    }
  }

  lemma FirstGreatestIsGreatest<T(!new)>(xs: seq<T>, i: int, better: Better<T>, compare: Compare<T>)
    requires FirstGreatest(xs, i, better) && SortedFrom(xs, compare)
    requires forall a, b :: a in xs && b in xs && compare(a, b) == 0 ==> a == b
    ensures GreatestOf(ToSet(xs), xs[i], better, compare)
  {
    forall c | c in xs && c != xs[i] ensures better(xs[i], c) || (!better(c, xs[i]) && compare(xs[i], c) < 0) {
      var k :| 0 <= k < |xs| && xs[k] == c;
      if k > i {
        assert compare(xs[i], xs[k]) <= 0;
      }
    }
  }

  lemma GreatestUnique<T(!new)>(s: set<T>, a: T, b: T, better: Better<T>, compare: Compare<T>)
    requires Ranks(better) && StrictTotal(compare, s)
    requires GreatestOf(s, a, better, compare) && GreatestOf(s, b, better, compare)
    ensures a == b
  {
  }

  lemma {:induction false} SortedFilter<T(!new)>(xs: seq<T>, p: T -> bool, compare: Compare<T>, s: set<T>)
    requires StrictTotal(compare, s) && SortedFrom(xs, compare) && forall x :: x in xs ==> x in s
    ensures SortedFrom(Filter(xs, p), compare)
  {
    if xs != [] {
      SortedHead(xs, compare, s);
      SortedFilter(xs[1..], p, compare, s);
      FilterMembers(xs[1..], p);
      if p(xs[0]) {
        SortedCons(xs[0], Filter(xs[1..], p), compare);
      }
    }
  }
}
