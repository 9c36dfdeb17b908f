/** When selectCases throws, told from its arguments: the counts by category and the
    position of the last case in the priority list. */
module QuotaErrors {
  import opened Collections
  import opened LaneBudgets
  import opened QuotaSelection

  // ----- what the priority pass picks -----

  /** The distinct priority ids that name a case of the category. */
  function Named(all: seq<BenchCase>, priority: seq<string>, c: Category): set<string> {
    set id | id in priority && ById(all, id).Some? && ById(all, id).value.category == c
  }

  /** The case is among the first priority ids of its category, as many as its quota. */
  predicate PickedByPriority(all: seq<BenchCase>, priority: seq<string>, item: BenchCase) {
    exists i :: 0 <= i < |priority| && FirstNamed(all, priority, item, i)
  }

  predicate FirstNamed(all: seq<BenchCase>, priority: seq<string>, item: BenchCase, i: nat)
    requires i < |priority|
  {
    priority[i] == item.id && |Named(all, priority[..i], item.category)| < Quota(item.category)
  }

  lemma {:induction false} ByIdFinds(all: seq<BenchCase>, item: BenchCase)
    requires DistinctIds(all) && item in all
    ensures ById(all, item.id) == Some(item)
  {
    var front, last := all[..|all| - 1], all[|all| - 1];
    var i :| 0 <= i < |all| && all[i] == item;
    if last.id != item.id {
      assert front[i] == item;
      ByIdFinds(front, item);
    }
  }

  ghost predicate Counted(all: seq<BenchCase>, priority: seq<string>, p: Pick) {
    forall c: Category ::
      var named := |Named(all, priority, c)|;
      p.byCategory.Of(c) == if named < Quota(c) then named else Quota(c)
  }

  ghost predicate Seen(all: seq<BenchCase>, priority: seq<string>, p: Pick) {
    forall item :: item in all ==> (item.id in p.seen <==> PickedByPriority(all, priority, item))
  }

  /** While a quota is not exceeded, all named ids of its category are picked. */
  ghost predicate Unexceeded(all: seq<BenchCase>, priority: seq<string>, p: Pick) {
    forall c: Category, id :: id in Named(all, priority, c) && |Named(all, priority, c)| <= Quota(c) ==> id in p.seen
  }

  lemma NamedSnoc(all: seq<BenchCase>, front: seq<string>, id: string, c: Category)
    ensures Named(all, front + [id], c)
         == Named(all, front, c) + (if ById(all, id).Some? && ById(all, id).value.category == c then {id} else {})
  {
  }

  lemma PickedSnoc(all: seq<BenchCase>, front: seq<string>, id: string, item: BenchCase)
    ensures PickedByPriority(all, front + [id], item)
        <==> PickedByPriority(all, front, item)
             || (id == item.id && |Named(all, front, item.category)| < Quota(item.category))
  {
    var priority := front + [id];
    assert forall i :: 0 <= i <= |front| ==> priority[..i] == front[..i];
    assert front[..|front|] == front;
    if PickedByPriority(all, front, item) {
      var i :| 0 <= i < |front| && FirstNamed(all, front, item, i);
      assert FirstNamed(all, priority, item, i);
    }
    if id == item.id && |Named(all, front, item.category)| < Quota(item.category) {
      assert FirstNamed(all, priority, item, |front|);
    }
    if PickedByPriority(all, priority, item) {
      var i :| 0 <= i < |priority| && FirstNamed(all, priority, item, i);
      if i < |front| {
        assert FirstNamed(all, front, item, i);
      }
    }
  }

  lemma PickedIsNamed(all: seq<BenchCase>, priority: seq<string>, item: BenchCase)
    requires DistinctIds(all) && item in all && PickedByPriority(all, priority, item)
    ensures item.id in Named(all, priority, item.category)
  {
    ByIdFinds(all, item);
  }

  /** The counts after one more priority id, for its own category. */
  lemma OwnCategoryCounts(all: seq<BenchCase>, front: seq<string>, p: Pick, item: BenchCase)
    requires DistinctIds(all) && item in all
    requires Counted(all, front, p) && Seen(all, front, p) && Unexceeded(all, front, p)
    ensures var c, q := item.category, MaybeAdd(p, item, true);
            var after := Named(all, front + [item.id], c);
            q.byCategory.Of(c) == (if |after| < Quota(c) then |after| else Quota(c))
            && (|after| <= Quota(c) ==> after <= q.seen)
  {
    var c, q := item.category, MaybeAdd(p, item, true);
    var before, after := Named(all, front, c), Named(all, front + [item.id], c);
    ByIdFinds(all, item);
    NamedSnoc(all, front, item.id, c);
    assert after == before + {item.id};
    SubsetSize(before, after);
    if item.id in p.seen {
      PickedIsNamed(all, front, item);
      assert after == before && q == p;
    } else if |before| < Quota(c) {
      assert item.id !in before;
      assert |after| == |before| + 1;
      assert q == Add(p, item) && q.byCategory.Of(c) == p.byCategory.Of(c) + 1;
    } else {
      assert q == p;
    }
  }

  lemma OtherCategoryCounts(all: seq<BenchCase>, front: seq<string>, p: Pick, item: BenchCase, c: Category)
    requires DistinctIds(all) && item in all && c != item.category
    ensures Named(all, front + [item.id], c) == Named(all, front, c)
    ensures MaybeAdd(p, item, true).byCategory.Of(c) == p.byCategory.Of(c) && p.seen <= MaybeAdd(p, item, true).seen
  {
    ByIdFinds(all, item);
    NamedSnoc(all, front, item.id, c);
  }

  lemma PriorityStepCounts(all: seq<BenchCase>, front: seq<string>, p: Pick, item: BenchCase)
    requires DistinctIds(all) && item in all
    requires Counted(all, front, p) && Seen(all, front, p) && Unexceeded(all, front, p)
    ensures Counted(all, front + [item.id], MaybeAdd(p, item, true))
    ensures Unexceeded(all, front + [item.id], MaybeAdd(p, item, true))
  {
    OwnCategoryCounts(all, front, p, item);
    forall c: Category | c != item.category
      ensures Named(all, front + [item.id], c) == Named(all, front, c)
      ensures MaybeAdd(p, item, true).byCategory.Of(c) == p.byCategory.Of(c) && p.seen <= MaybeAdd(p, item, true).seen
    {
      OtherCategoryCounts(all, front, p, item, c);
    }
  }

  lemma PriorityStepSeen(all: seq<BenchCase>, front: seq<string>, p: Pick, item: BenchCase)
    requires DistinctIds(all) && item in all
    requires Counted(all, front, p) && Seen(all, front, p)
    ensures Seen(all, front + [item.id], MaybeAdd(p, item, true))
  {
    forall other | other in all
      ensures other.id in MaybeAdd(p, item, true).seen <==> PickedByPriority(all, front + [item.id], other)
    {
      PickedSnoc(all, front, item.id, other);
      if other.id == item.id {
        ByIdFinds(all, item);
        ByIdFinds(all, other);
      }
    }
  }

  /** The priority pass picks exactly the first ids of each category, up to its quota. */
  lemma {:induction false} PriorityPicksFirst(all: seq<BenchCase>, priority: seq<string>)
    requires DistinctIds(all)
    ensures var p := PriorityPass(all, priority);
            Counted(all, priority, p) && Seen(all, priority, p) && Unexceeded(all, priority, p)
  {
    if priority == [] {
      assert forall c: Category :: Named(all, priority, c) == {};
    } else {
      var front, id := priority[..|priority| - 1], priority[|priority| - 1];
      assert priority == front + [id];
      PriorityPicksFirst(all, front);
      ByIdIsMember(all, id);
      if ById(all, id).Some? {
        PriorityStepCounts(all, front, PriorityPass(all, front), ById(all, id).value);
        PriorityStepSeen(all, front, PriorityPass(all, front), ById(all, id).value);
      } else {
        UnknownIdChangesNothing(all, front, id, PriorityPass(all, front));
      }
    }
  }

  lemma UnknownIdChangesNothing(all: seq<BenchCase>, front: seq<string>, id: string, p: Pick)
    requires DistinctIds(all) && ById(all, id).None?
    requires Counted(all, front, p) && Seen(all, front, p) && Unexceeded(all, front, p)
    ensures Counted(all, front + [id], p) && Seen(all, front + [id], p) && Unexceeded(all, front + [id], p)
  {
    forall c: Category ensures Named(all, front + [id], c) == Named(all, front, c) {
      NamedSnoc(all, front, id, c);
    }
    forall item | item in all ensures item.id in p.seen <==> PickedByPriority(all, front + [id], item) {
      ByIdFinds(all, item);
      PickedSnoc(all, front, id, item);
    }
  }

  // ----- what the quota pass makes of the last case -----

  lemma QuotaPassesEndUnfilled(all: seq<BenchCase>, priority: seq<string>)
    requires DistinctIds(all) && !Enough(all)
    ensures !QuotaPasses(all, priority).1
  {
    QuotaPassesKeep(all, priority);
    var (quota, full) := QuotaPasses(all, priority);
    if full {
      QuotaSum(quota.byCategory);
      forall c: Category ensures InCategory(all, c) >= Quota(c) {
        FewerInCategory(quota.selected, all, c);
      }
    }
  }

  /** A case left by the quota passes has its quota filled by others. */
  lemma LeftMeansMoreThanQuota(all: seq<BenchCase>, priority: seq<string>, item: BenchCase)
    requires DistinctIds(all) && item in all
    requires !QuotaPasses(all, priority).1 && item.id !in QuotaPasses(all, priority).0.seen
    ensures InCategory(all, item.category) > Quota(item.category)
  {
    QuotaPassesKeep(all, priority);
    var quota := QuotaPasses(all, priority).0;
    AddKeepsConsistent(quota, item, all);
    FewerInCategory(Add(quota, item).selected, all, item.category);
  }

  lemma {:induction false} GroupedAppend(all: seq<BenchCase>, a: seq<Category>, b: seq<Category>)
    ensures Grouped(all, a + b) == Grouped(all, a) + Grouped(all, b)
  {
    if a == [] {
      assert a + b == b;
    } else {
      assert (a + b)[1..] == a[1..] + b;
      GroupedAppend(all, a[1..], b);
    }
  }

  lemma {:induction false} GroupedAt(all: seq<BenchCase>, categories: seq<Category>, k: nat)
    requires k < |categories|
    ensures Grouped(all, categories)
         == Grouped(all, categories[..k]) + Filter(all, OfCategory(categories[k])) + Grouped(all, categories[k + 1..])
  {
    assert categories == categories[..k] + categories[k..];
    GroupedAppend(all, categories[..k], categories[k..]);
    assert categories[k..][1..] == categories[k + 1..];
  }

  lemma {:induction false} FilterAtLast(all: seq<BenchCase>)
    requires all != []
    ensures var last := all[|all| - 1];
            Filter(all, OfCategory(last.category)) == Filter(all[..|all| - 1], OfCategory(last.category)) + [last]
  {
    FilterSnoc(all, |all| - 1, OfCategory(all[|all| - 1].category));
    assert all[..|all|] == all;
  }

  /** The cases grouped by category, cut at the last one. */
  lemma {:induction false} GroupedAtLast(all: seq<BenchCase>, categories: seq<Category>, k: nat)
    requires all != [] && k < |categories| && categories[k] == all[|all| - 1].category
    ensures Grouped(all, categories)
         == Grouped(all, categories[..k]) + Filter(all[..|all| - 1], OfCategory(categories[k])) + [all[|all| - 1]]
            + Grouped(all, categories[k + 1..])
  {
    GroupedAt(all, categories, k);
    FilterAtLast(all);
  }

  lemma OrderOf(c: Category) returns (k: nat)
    ensures k < |CATEGORY_ORDER| && CATEGORY_ORDER[k] == c
    ensures c !in CATEGORY_ORDER[..k] && c !in CATEGORY_ORDER[k + 1..]
  {
    match c
    case Bugfix => k := 0;
    case Feature => k := 1;
    case Review => k := 2;
    case Recovery => k := 3;
    case Permission => k := 4;
    case Agent => k := 5;
  }

  /** Items of other categories, or before the last case, have other ids. */
  lemma IdsApart(all: seq<BenchCase>, items: seq<BenchCase>)
    requires DistinctIds(all) && all != []
    requires forall item :: item in items ==> item in all && item != all[|all| - 1]
    ensures all[|all| - 1].id !in Ids(items)
  {
    forall item | item in items ensures item.id != all[|all| - 1].id {
      var i :| 0 <= i < |all| && all[i] == item;
    }
  }

  lemma OthersAreSelected(all: seq<BenchCase>, before: seq<BenchCase>, filled: Pick)
    requires DistinctIds(all) && all != [] && Consistent(filled, all)
    requires var last := all[|all| - 1];
             forall item :: item in all && item.category == last.category && item != last ==> item in before
    requires filled.byCategory.Of(all[|all| - 1].category) < Quota(all[|all| - 1].category)
    requires forall item :: item in before ==>
             item.id in filled.seen || filled.byCategory.Of(item.category) >= Quota(item.category)
    ensures forall item :: item in all[..|all| - 1] && item.category == all[|all| - 1].category ==>
            item in filled.selected
  {
    var front, last := all[..|all| - 1], all[|all| - 1];
    FrontMembers(all);
    forall item | item in front && item.category == last.category ensures item in filled.selected {
      SeenIsSelected(filled, all, item);
    }
  }

  /** When the others of its category outnumber the quota, they fill it before the last
      case is reached. */
  lemma OthersFillQuota(all: seq<BenchCase>, start: Pick, before: seq<BenchCase>)
    requires DistinctIds(all) && all != [] && Consistent(start, all)
    requires forall item :: item in before ==> item in all
    requires var last := all[|all| - 1];
             forall item :: item in all && item.category == last.category && item != last ==> item in before
    requires InCategory(all, all[|all| - 1].category) > Quota(all[|all| - 1].category)
    requires !Fill(start, before, true).1
    ensures Fill(start, before, true).0.byCategory.Of(all[|all| - 1].category) >= Quota(all[|all| - 1].category)
  {
    var front, last := all[..|all| - 1], all[|all| - 1];
    var filled := Fill(start, before, true).0;
    FillKeeps(start, before, true, all);
    if filled.byCategory.Of(last.category) < Quota(last.category) {
      OthersAreSelected(all, before, filled);
      FewerInCategory(front, filled.selected, last.category);
      FilterAtLast(all);
    }
  }

  /** Then the quota pass leaves the last case where it found it. */
  lemma LastIsPassedOver(start: Pick, before: seq<BenchCase>, last: BenchCase, after: seq<BenchCase>)
    requires !Fill(start, before + [last] + after, true).1
    requires last.id !in start.seen + Ids(before) + Ids(after)
    requires !Fill(start, before, true).1
             ==> Fill(start, before, true).0.byCategory.Of(last.category) >= Quota(last.category)
    ensures last.id !in Fill(start, before + [last] + after, true).0.seen
  {
    assert before + [last] + after == before + ([last] + after);
    FillSplit(start, before, [last] + after, true);
    FillAddsUnseen(start, before, true);
    var filled := Fill(start, before, true).0;
    assert ([last] + after)[1..] == after;
    FillAddsUnseen(filled, after, true);
  }

  lemma LastIsLeft(all: seq<BenchCase>, priority: seq<string>)
    requires DistinctIds(all) && all != [] && !QuotaPasses(all, priority).1
    requires InCategory(all, all[|all| - 1].category) > Quota(all[|all| - 1].category)
    requires all[|all| - 1].id !in PriorityPass(all, priority).seen
    ensures all[|all| - 1].id !in QuotaPasses(all, priority).0.seen
  {
    var front, last := all[..|all| - 1], all[|all| - 1];
    var k := OrderOf(last.category);
    var earlier, later := Grouped(all, CATEGORY_ORDER[..k]), Grouped(all, CATEGORY_ORDER[k + 1..]);
    var same := Filter(front, OfCategory(last.category));
    GroupedAtLast(all, CATEGORY_ORDER, k);
    GroupedMembers(all, CATEGORY_ORDER[..k]);
    GroupedMembers(all, CATEGORY_ORDER[k + 1..]);
    FilterMembers(front, OfCategory(last.category));
    FrontMembers(all);
    IdsApart(all, earlier + same);
    IdsApart(all, later);
    PriorityPassKeeps(all, priority);
    var start := PriorityPass(all, priority);
    if !Fill(start, earlier + same, true).1 {
      OthersFillQuota(all, start, earlier + same);
    }
    LastIsPassedOver(start, earlier + same, last, later);
  }

  lemma FrontMembers(all: seq<BenchCase>)
    requires DistinctIds(all) && all != []
    ensures forall item :: item in all[..|all| - 1] <==> item in all && item != all[|all| - 1]
  {
    var front, last := all[..|all| - 1], all[|all| - 1];
    forall item ensures item in front <==> item in all && item != last {
      if item in front {
        var i :| 0 <= i < |front| && front[i] == item;
        assert all[i] == item;
      }
      if item in all && item != last {
        var i :| 0 <= i < |all| && all[i] == item;
        assert front[i] == item;
      }
    }
  }

  /** The first two passes pick the last case exactly when the priority list does, or
      its category holds no more cases than its quota. */
  lemma LastPickedIff(all: seq<BenchCase>, priority: seq<string>)
    requires DistinctIds(all) && all != [] && !Enough(all)
    ensures var last := all[|all| - 1];
            last.id in QuotaPasses(all, priority).0.seen
            <==> PickedByPriority(all, priority, last) || InCategory(all, last.category) <= Quota(last.category)
  {
    var last := all[|all| - 1];
    QuotaPassesEndUnfilled(all, priority);
    PriorityPicksFirst(all, priority);
    assert last in all;
    if last.id !in QuotaPasses(all, priority).0.seen {
      LeftMeansMoreThanQuota(all, priority, last);
      PriorityIsKept(all, priority);
    } else if InCategory(all, last.category) > Quota(last.category) && !PickedByPriority(all, priority, last) {
      LastIsLeft(all, priority);
    }
  }

  lemma PriorityIsKept(all: seq<BenchCase>, priority: seq<string>)
    ensures PriorityPass(all, priority).seen <= QuotaPasses(all, priority).0.seen
  {
    PriorityPassKeeps(all, priority);
    GroupedMembers(all, CATEGORY_ORDER);
    FillKeeps(PriorityPass(all, priority), Grouped(all, CATEGORY_ORDER), true, all);
  }

  // ----- when the error is thrown -----

  /** With distinct ids the error is thrown exactly on fewer than thirty cases, or on
      thirty that fall short of a quota, whose last case is of a category with more cases
      than its quota and is not among the first priority ids of that category. */
  lemma ThrowsExactly(all: seq<BenchCase>, priority: seq<string>)
    requires DistinctIds(all)
    ensures Selection(all, priority).Failure?
        <==> || |all| < 30
             || (&& |all| == 30 && !Enough(all)
                 && InCategory(all, all[29].category) > Quota(all[29].category)
                 && !PickedByPriority(all, priority, all[29]))
  {
    ThrowsWhenLastIsLeft(all, priority);
    if |all| == 30 && !Enough(all) {
      LastPickedIff(all, priority);
    }
  }

  /** Thirty bug fixes whose last one has no priority: thirty cases are at hand and the
      error is thrown. */
  lemma ThirtyBugfixesThrow(all: seq<BenchCase>, priority: seq<string>)
    requires DistinctIds(all) && |all| == 30 && forall item :: item in all ==> item.category == Bugfix
    requires all[29].id !in priority
    ensures Selection(all, priority).Failure?
  {
    FilterLength(all, OfCategory(Bugfix));
    FilterLength(all, OfCategory(Feature));
    assert InCategory(all, Bugfix) == 30 && InCategory(all, Feature) == 0;
    ThrowsExactly(all, priority);
  }
}
