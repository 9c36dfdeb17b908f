/** selectCases of the public comparable manifest: a priority pass, a quota pass by
    category, and a fill pass, sharing one list, one id set and six counters. */
module QuotaSelection {
  import opened Collections
  import opened LaneBudgets

  datatype BenchCase = BenchCase(id: string, category: Category)

  function Quota(c: Category): nat {
    match c
    case Bugfix => 4
    case Feature => 6
    case Review => 5
    case Recovery => 6
    case Permission => 5
    case Agent => 4
  }

  const CATEGORY_ORDER := [Bugfix, Feature, Review, Recovery, Permission, Agent]

  /** selectedByCategory */
  datatype PerCategory = PerCategory(bugfix: nat, feature: nat, review: nat, recovery: nat, permission: nat,
                                     agent: nat) {
    function Of(c: Category): nat {
      match c
      case Bugfix => bugfix
      case Feature => feature
      case Review => review
      case Recovery => recovery
      case Permission => permission
      case Agent => agent
    }

    function Increment(c: Category): PerCategory {
      match c
      case Bugfix => this.(bugfix := bugfix + 1)
      case Feature => this.(feature := feature + 1)
      case Review => this.(review := review + 1)
      case Recovery => this.(recovery := recovery + 1)
      case Permission => this.(permission := permission + 1)
      case Agent => this.(agent := agent + 1)
    }

    function Total(): nat {
      bugfix + feature + review + recovery + permission + agent
    }
  }

  datatype Pick = Pick(selected: seq<BenchCase>, seen: set<string>, byCategory: PerCategory)

  const NOTHING_PICKED := Pick([], {}, PerCategory(0, 0, 0, 0, 0, 0))

  function Add(p: Pick, item: BenchCase): Pick {
    Pick(p.selected + [item], p.seen + {item.id}, p.byCategory.Increment(item.category))
  }

  function MaybeAdd(p: Pick, item: BenchCase, enforceQuota: bool): (q: Pick)
  {
    if item.id in p.seen then p
    else if enforceQuota && p.byCategory.Of(item.category) >= Quota(item.category) then p
    else Add(p, item)
  }

  /** byId.get: the Map is built from the list, so the last case with an id wins. */
  function ById(all: seq<BenchCase>, id: string): Option<BenchCase> {
    if all == [] then None
    else if all[|all| - 1].id == id then Some(all[|all| - 1])
    else ById(all[..|all| - 1], id)
  }

  function PriorityPass(all: seq<BenchCase>, priority: seq<string>): (q: Pick)
  {
    if priority == [] then NOTHING_PICKED
    else
      var p := PriorityPass(all, priority[..|priority| - 1]);
      match ById(all, priority[|priority| - 1])
      case Some(item) => MaybeAdd(p, item, true)
      case None => p
  }

  /** A loop over items that stops before an item once thirty are selected. */
  function Fill(p: Pick, items: seq<BenchCase>, enforceQuota: bool): (r: (Pick, bool))
    decreases |items|
  {
    if items == [] then (p, false)
    else if |p.selected| >= 30 then (p, true)
    else Fill(MaybeAdd(p, items[0], enforceQuota), items[1..], enforceQuota)
  }

  function OfCategory(c: Category): BenchCase -> bool {
    (item: BenchCase) => item.category == c
  }

  function Grouped(all: seq<BenchCase>, categories: seq<Category>): seq<BenchCase> {
    if categories == [] then []
    else Filter(all, OfCategory(categories[0])) + Grouped(all, categories[1..])
  }

  function QuotaPasses(all: seq<BenchCase>, priority: seq<string>): (r: (Pick, bool))
  {
    Fill(PriorityPass(all, priority), Grouped(all, CATEGORY_ORDER), true)
  }

  function Missing(p: Pick): set<Category>
  {
    set c | c in CATEGORY_ORDER && p.byCategory.Of(c) < Quota(c)
  }

  /** The selection, or the categories named in the error thrown. */
  function Selection(all: seq<BenchCase>, priority: seq<string>): Result<seq<BenchCase>, set<Category>> {
    var (quota, full) := QuotaPasses(all, priority);
    if full then Success(quota.selected)
    else
      var (filled, stopped) := Fill(quota, all, false);
      if stopped then Success(filled.selected)
      else if Missing(filled) != {} then Failure(Missing(filled))
      else Success(if |filled.selected| > 30 then filled.selected[..30] else filled.selected)
  }

  method SelectCases(all: seq<BenchCase>, priority: seq<string>) returns (r: Result<seq<BenchCase>, set<Category>>)
    ensures r == Selection(all, priority)
  {
    var p := NOTHING_PICKED;
    for i := 0 to |priority|
      invariant p == PriorityPass(all, priority[..i])
    {
      assert priority[..i + 1][..i] == priority[..i];
      var item := ById(all, priority[i]);
      if item.None? { continue; }
      p := MaybeAdd(p, item.value, true);
    }
    assert priority[..|priority|] == priority;
    var full: bool;
    p, full := FillByCategory(all, p);
    if full { return Success(p.selected); }
    ghost var quota := p;
    for i := 0 to |all|
      invariant Fill(quota, all, false) == Fill(p, all[i..], false)
    {
      if |p.selected| >= 30 { return Success(p.selected); }
      p := MaybeAdd(p, all[i], false);
    }
    if Missing(p) != {} { return Failure(Missing(p)); }
    return Success(if |p.selected| > 30 then p.selected[..30] else p.selected);
  }

  /** The nested loops of the quota pass; full when they end by an early return. */
  method FillByCategory(all: seq<BenchCase>, start: Pick) returns (p: Pick, full: bool)
    ensures (p, full) == Fill(start, Grouped(all, CATEGORY_ORDER), true)
  {
    p := start;
    for c := 0 to |CATEGORY_ORDER|
      invariant Fill(start, Grouped(all, CATEGORY_ORDER), true) == Fill(p, Grouped(all, CATEGORY_ORDER[c..]), true)
    {
      var candidates := Filter(all, OfCategory(CATEGORY_ORDER[c]));
      ghost var later := Grouped(all, CATEGORY_ORDER[c + 1..]);
      assert CATEGORY_ORDER[c..][1..] == CATEGORY_ORDER[c + 1..];
      for i := 0 to |candidates|
        invariant Fill(start, Grouped(all, CATEGORY_ORDER), true) == Fill(p, candidates[i..] + later, true)
      {
        assert (candidates[i..] + later)[1..] == candidates[i + 1..] + later;
        if |p.selected| >= 30 { return p, true; }
        p := MaybeAdd(p, candidates[i], true);
      }
      assert candidates[|candidates|..] + later == later;
    }
    return p, false;
  }

  // ----- what the three passes keep -----

  function InCategory(items: seq<BenchCase>, c: Category): nat {
    |Filter(items, OfCategory(c))|
  }

  ghost predicate DistinctIds(items: seq<BenchCase>) {
    forall i, j :: 0 <= i < j < |items| ==> items[i].id != items[j].id
  }

  function Ids(items: seq<BenchCase>): set<string> {
    set item | item in items :: item.id
  }

  /** Length, counters, id set and origin agree. */
  ghost predicate Consistent(p: Pick, all: seq<BenchCase>) {
    && p.seen == Ids(p.selected)
    && DistinctIds(p.selected)
    && (forall c: Category :: p.byCategory.Of(c) == InCategory(p.selected, c))
    && |p.selected| == p.byCategory.Total()
    && (forall item :: item in p.selected ==> item in all)
  }

  ghost predicate WithinQuotas(p: Pick)
  {
    forall c: Category :: p.byCategory.Of(c) <= Quota(c)
  }

  /** The quotas add up to thirty. */
  lemma QuotaSum(b: PerCategory)
    ensures (forall c: Category :: b.Of(c) <= Quota(c)) ==>
              b.Total() <= 30 && (b.Total() == 30 <==> forall c: Category :: b.Of(c) == Quota(c))
    ensures (forall c: Category :: b.Of(c) >= Quota(c)) ==>
              b.Total() >= 30 && (b.Total() == 30 ==> forall c: Category :: b.Of(c) == Quota(c))
  {
    assert b.Total() == b.Of(Bugfix) + b.Of(Feature) + b.Of(Review) + b.Of(Recovery) + b.Of(Permission) + b.Of(Agent);
    assert 30 == Quota(Bugfix) + Quota(Feature) + Quota(Review) + Quota(Recovery) + Quota(Permission) + Quota(Agent);
  }

  lemma AddKeepsConsistent(p: Pick, item: BenchCase, all: seq<BenchCase>)
    requires Consistent(p, all) && item in all && item.id !in p.seen
    ensures Consistent(Add(p, item), all)
  {
    var q := Add(p, item);
    forall c: Category ensures q.byCategory.Of(c) == InCategory(q.selected, c) {
      FilterAppend(p.selected, [item], OfCategory(c));
      assert Filter([item], OfCategory(c)) == if item.category == c then [item] else [];
      assert q.byCategory.Of(c) == p.byCategory.Of(c) + if item.category == c then 1 else 0;
    }
    forall i | 0 <= i < |p.selected| ensures p.selected[i].id != item.id {
      assert p.selected[i] in p.selected;
    }
  }

  lemma MaybeAddKeeps(p: Pick, item: BenchCase, enforceQuota: bool, all: seq<BenchCase>)
    requires Consistent(p, all) && item in all
    ensures var q := MaybeAdd(p, item, enforceQuota);
      && Consistent(q, all) && p.seen <= q.seen && |p.selected| <= |q.selected| <= |p.selected| + 1
      && (forall c: Category :: p.byCategory.Of(c) <= q.byCategory.Of(c))
      && (enforceQuota && WithinQuotas(p) ==> WithinQuotas(q))
      && (item.id in q.seen || (enforceQuota && q.byCategory.Of(item.category) >= Quota(item.category)))
  {
    if item.id !in p.seen {
      AddKeepsConsistent(p, item, all);
    }
  }

  lemma {:induction false} ByIdIsMember(all: seq<BenchCase>, id: string)
    ensures ById(all, id).Some? ==> ById(all, id).value in all && ById(all, id).value.id == id
  {
    if all != [] {
      ByIdIsMember(all[..|all| - 1], id);
    }
  }

  lemma NothingPickedConsistent(p: Pick, all: seq<BenchCase>)
    requires p.selected == [] && p.seen == {} && forall c: Category :: p.byCategory.Of(c) == 0
    ensures Consistent(p, all) && WithinQuotas(p)
  {
    assert p.byCategory.Total() == 0 by {
      assert p.byCategory.Of(Bugfix) + p.byCategory.Of(Feature) + p.byCategory.Of(Review)
           + p.byCategory.Of(Recovery) + p.byCategory.Of(Permission) + p.byCategory.Of(Agent) == 0;
    }
  }

  lemma PriorityStepKeeps(all: seq<BenchCase>, p: Pick, id: string)
    requires Consistent(p, all) && WithinQuotas(p) && ById(all, id).Some?
    ensures var q := MaybeAdd(p, ById(all, id).value, true); Consistent(q, all) && WithinQuotas(q)
  {
    ByIdIsMember(all, id);
    MaybeAddKeeps(p, ById(all, id).value, true, all);
  }

  lemma {:induction false} PriorityPassKeeps(all: seq<BenchCase>, priority: seq<string>)
    ensures Consistent(PriorityPass(all, priority), all) && WithinQuotas(PriorityPass(all, priority))
  {
    if priority == [] {
      NothingPickedConsistent(NOTHING_PICKED, all);
    } else {
      var front, id := priority[..|priority| - 1], priority[|priority| - 1];
      PriorityPassKeeps(all, front);
      if ById(all, id).Some? {
        PriorityStepKeeps(all, PriorityPass(all, front), id);
      }
    }
  }

  /** What one pass keeps, and what it has done when it ran to its end. */
  ghost predicate PassKeeps(p: Pick, q: Pick, stopped: bool, items: seq<BenchCase>, enforceQuota: bool,
                            all: seq<BenchCase>)
  {
    && Consistent(q, all) && p.seen <= q.seen
    && (forall c: Category :: p.byCategory.Of(c) <= q.byCategory.Of(c))
    && (|p.selected| <= 30 ==> |q.selected| <= 30)
    && (enforceQuota && WithinQuotas(p) ==> WithinQuotas(q))
    && (stopped ==> |q.selected| >= 30)
    && (!stopped ==> forall item :: item in items ==>
          item.id in q.seen || (enforceQuota && q.byCategory.Of(item.category) >= Quota(item.category)))
  }

  lemma {:induction false} FillKeeps(p: Pick, items: seq<BenchCase>, enforceQuota: bool, all: seq<BenchCase>)
    requires Consistent(p, all) && forall item :: item in items ==> item in all
    ensures var (q, stopped) := Fill(p, items, enforceQuota); PassKeeps(p, q, stopped, items, enforceQuota, all)
    decreases |items|
  {
    if items != [] && |p.selected| < 30 {
      assert items[0] in items;
      MaybeAddKeeps(p, items[0], enforceQuota, all);
      var p1 := MaybeAdd(p, items[0], enforceQuota);
      FillKeeps(p1, items[1..], enforceQuota, all);
      assert forall item :: item in items ==> item == items[0] || item in items[1..];
    }
  }

  lemma {:induction false} GroupedMembers(all: seq<BenchCase>, categories: seq<Category>)
    ensures forall item :: item in Grouped(all, categories) <==> item in all && item.category in categories
  {
    if categories != [] {
      GroupedMembers(all, categories[1..]);
      FilterMembers(all, OfCategory(categories[0]));
    }
  }

  lemma EveryCategoryOrdered(c: Category)
    ensures c in CATEGORY_ORDER
  {
    assert CATEGORY_ORDER[0] == Bugfix && CATEGORY_ORDER[1] == Feature && CATEGORY_ORDER[2] == Review
        && CATEGORY_ORDER[3] == Recovery && CATEGORY_ORDER[4] == Permission && CATEGORY_ORDER[5] == Agent;
  }

  lemma QuotaPassesKeep(all: seq<BenchCase>, priority: seq<string>)
    ensures var (quota, full) := QuotaPasses(all, priority);
      && Consistent(quota, all) && WithinQuotas(quota) && |quota.selected| <= 30
      && (full ==> |quota.selected| == 30)
      && (!full ==> forall item :: item in all ==>
            item.id in quota.seen || quota.byCategory.Of(item.category) == Quota(item.category))
  {
    PriorityPassKeeps(all, priority);
    GroupedMembers(all, CATEGORY_ORDER);
    FillKeeps(PriorityPass(all, priority), Grouped(all, CATEGORY_ORDER), true, all);
    QuotaSum(PriorityPass(all, priority).byCategory);
    QuotaSum(QuotaPasses(all, priority).0.byCategory);
    forall item | item in all ensures item in Grouped(all, CATEGORY_ORDER) {
      EveryCategoryOrdered(item.category);
    }
  }

  /** The third pass, run to its end, has seen every case. */
  lemma FillPassKeeps(all: seq<BenchCase>, priority: seq<string>)
    requires !QuotaPasses(all, priority).1
    ensures var (filled, stopped) := Fill(QuotaPasses(all, priority).0, all, false);
      && Consistent(filled, all) && |filled.selected| <= 30
      && (stopped ==> |filled.selected| == 30)
      && (!stopped ==> filled.seen == Ids(all))
  {
    QuotaPassesKeep(all, priority);
    FillKeeps(QuotaPasses(all, priority).0, all, false, all);
  }

  lemma NoQuotaMissing(p: Pick, all: seq<BenchCase>)
    requires Consistent(p, all) && Missing(p) == {}
    ensures forall c: Category :: p.byCategory.Of(c) >= Quota(c)
    ensures |p.selected| >= 30
  {
    forall c: Category ensures p.byCategory.Of(c) >= Quota(c) {
      EveryCategoryOrdered(c);
      assert c !in Missing(p);
    }
    QuotaSum(p.byCategory);
  }

  /** Every normal return, on each of the three paths, is thirty cases of the input
      with pairwise different ids. */
  lemma SelectionIsThirty(all: seq<BenchCase>, priority: seq<string>)
    ensures Selection(all, priority).Success? ==>
      var s := Selection(all, priority).value;
      |s| == 30 && DistinctIds(s) && forall item :: item in s ==> item in all
  {
    QuotaPassesKeep(all, priority);
    if !QuotaPasses(all, priority).1 {
      FillPassKeeps(all, priority);
      var (filled, stopped) := Fill(QuotaPasses(all, priority).0, all, false);
      if !stopped && Missing(filled) == {} {
        NoQuotaMissing(filled, all);
      }
    }
  }

  // ----- quotas -----

  ghost predicate Enough(all: seq<BenchCase>) {
    forall c: Category :: InCategory(all, c) >= Quota(c)
  }

  ghost predicate MeetsQuotas(s: seq<BenchCase>) {
    forall c: Category :: InCategory(s, c) == Quota(c)
  }

  lemma DistinctIdsDistinctCases(items: seq<BenchCase>, c: Category)
    requires DistinctIds(items)
    ensures |ToSet(Filter(items, OfCategory(c)))| == InCategory(items, c)
  {
    FilterDistinct(items, OfCategory(c));
    DistinctCardinality(Filter(items, OfCategory(c)));
  }

  lemma {:induction false} FilterDistinct(items: seq<BenchCase>, p: BenchCase -> bool)
    requires DistinctIds(items)
    ensures NoDuplicates(Filter(items, p))
  {
    if items != [] {
      FilterDistinct(items[1..], p);
      FilterMembers(items[1..], p);
    }
  }

  /** A list of distinct cases contained in another has no more of any category. */
  lemma FewerInCategory(part: seq<BenchCase>, whole: seq<BenchCase>, c: Category)
    requires DistinctIds(part) && DistinctIds(whole)
    requires forall item :: item in part && item.category == c ==> item in whole
    ensures InCategory(part, c) <= InCategory(whole, c)
  {
    DistinctIdsDistinctCases(part, c);
    DistinctIdsDistinctCases(whole, c);
    FilterMembers(part, OfCategory(c));
    FilterMembers(whole, OfCategory(c));
    SubsetSize(ToSet(Filter(part, OfCategory(c))), ToSet(Filter(whole, OfCategory(c))));
  }

  /** An id seen is the case itself when input ids are distinct. */
  lemma SeenIsSelected(p: Pick, all: seq<BenchCase>, item: BenchCase)
    requires DistinctIds(all) && Consistent(p, all) && item in all && item.id in p.seen
    ensures item in p.selected
  {
    var other :| other in p.selected && other.id == item.id;
    var i :| 0 <= i < |all| && all[i] == item;
    var k :| 0 <= k < |all| && all[k] == other;
    assert i == k;
  }

  /** With enough cases in a category the quota passes fill it exactly. */
  lemma QuotaPassesFill(all: seq<BenchCase>, priority: seq<string>)
    requires DistinctIds(all) && Enough(all)
    ensures var (quota, _) := QuotaPasses(all, priority);
            MeetsQuotas(quota.selected) && |quota.selected| == 30
  {
    QuotaPassesKeep(all, priority);
    var (quota, full) := QuotaPasses(all, priority);
    QuotaSum(quota.byCategory);
    if !full {
      forall c: Category ensures quota.byCategory.Of(c) == Quota(c) {
        if quota.byCategory.Of(c) < Quota(c) {
          forall item | item in all && item.category == c ensures item in quota.selected {
            SeenIsSelected(quota, all, item);
          }
          FewerInCategory(all, quota.selected, c);
        }
      }
    }
  }

  /** With distinct ids the selection meets every quota exactly when the input holds
      enough cases of every category, whatever the priority list. */
  lemma QuotasMetIffEnough(all: seq<BenchCase>, priority: seq<string>)
    requires DistinctIds(all)
    ensures Enough(all) <==> Selection(all, priority).Success? && MeetsQuotas(Selection(all, priority).value)
  {
    var r := Selection(all, priority);
    if Enough(all) {
      QuotaPassesFill(all, priority);
      QuotaPassesKeep(all, priority);
      assert all != [] by {
        assert InCategory(all, Bugfix) >= 4;
      }
    }
    if r.Success? && MeetsQuotas(r.value) {
      SelectionIsThirty(all, priority);
      forall c: Category ensures InCategory(all, c) >= Quota(c) {
        FewerInCategory(r.value, all, c);
      }
    }
  }

  /** The error is thrown only on thirty ids or fewer, and always on fewer. */
  lemma ThrowsOnFewIds(all: seq<BenchCase>, priority: seq<string>)
    ensures Selection(all, priority).Failure? ==> |Ids(all)| <= 30 && Selection(all, priority).error != {}
    ensures |Ids(all)| < 30 ==> Selection(all, priority).Failure?
  {
    var r := Selection(all, priority);
    QuotaPassesKeep(all, priority);
    if r.Failure? {
      FillPassKeeps(all, priority);
      var filled := Fill(QuotaPasses(all, priority).0, all, false).0;
      DistinctIdCount(filled.selected);
    } else {
      SelectionIsThirty(all, priority);
      DistinctIdCount(r.value);
      SubsetSize(Ids(r.value), Ids(all));
    }
  }

  lemma {:induction false} DistinctIdCount(items: seq<BenchCase>)
    requires DistinctIds(items)
    ensures |Ids(items)| == |items|
  {
    if items != [] {
      DistinctIdCount(items[1..]);
      assert Ids(items) == {items[0].id} + Ids(items[1..]);
    }
  }

  /** A normal return does not promise the quotas: more than thirty bug fixes give
      thirty bug fixes. */
  lemma QuotasUnmetOnReturn(all: seq<BenchCase>, priority: seq<string>)
    requires DistinctIds(all) && |all| > 30 && forall item :: item in all ==> item.category == Bugfix
    ensures Selection(all, priority).Success?
            && InCategory(Selection(all, priority).value, Bugfix) == 30 > Quota(Bugfix)
  {
    ThrowsOnFewIds(all, priority);
    DistinctIdCount(all);
    SelectionIsThirty(all, priority);
    FilterLength(Selection(all, priority).value, OfCategory(Bugfix));
  }

  // ----- exactly when the error is thrown -----

  /** A pass only adds ids of its items; the third pass adds all of them when it runs to its end. */
  lemma {:induction false} FillAddsUnseen(p: Pick, items: seq<BenchCase>, enforceQuota: bool)
    ensures var (q, stopped) := Fill(p, items, enforceQuota);
      && q.seen <= p.seen + Ids(items)
      && (stopped || enforceQuota || q.seen == p.seen + Ids(items))
    decreases |items|
  {
    if items == [] {
      assert Ids(items) == {};
    } else {
      FillAddsUnseen(MaybeAdd(p, items[0], enforceQuota), items[1..], enforceQuota);
      assert Ids(items) == {items[0].id} + Ids(items[1..]);
    }
  }

  lemma {:induction false} FillSplit(p: Pick, a: seq<BenchCase>, b: seq<BenchCase>, enforceQuota: bool)
    ensures Fill(p, a + b, enforceQuota)
         == if Fill(p, a, enforceQuota).1 then Fill(p, a, enforceQuota)
             else Fill(Fill(p, a, enforceQuota).0, b, enforceQuota)
    decreases |a|
  {
    if a == [] {
      assert a + b == b;
    } else {
      assert (a + b)[1..] == a[1..] + b;
      FillSplit(MaybeAdd(p, a[0], enforceQuota), a[1..], b, enforceQuota);
    }
  }

  lemma FillLast(p: Pick, last: BenchCase)
    ensures Fill(p, [last], false).1 <==> |p.selected| >= 30
  {
  }

  /** After the first twenty-nine of thirty distinct cases, thirty are selected
      exactly when the last one was picked before. */
  lemma AllButLast(quota: Pick, all: seq<BenchCase>)
    requires DistinctIds(all) && |all| == 30 && Consistent(quota, all) && |quota.selected| <= 30
    ensures var (p, stopped) := Fill(quota, all[..29], false);
            (stopped || |p.selected| >= 30) <==> all[29].id in quota.seen
  {
    var front, last := all[..29], all[29];
    FillAddsUnseen(quota, front, false);
    FillKeeps(quota, front, false, all);
    var (p, stopped) := Fill(quota, front, false);
    DistinctIdCount(front);
    DistinctIdCount(p.selected);
    LastIdApart(all);
    assert quota.seen <= Ids(all);
    CountArgument(Ids(front), last.id, quota.seen, p.seen, stopped);
  }

  lemma LastIdApart(all: seq<BenchCase>)
    requires DistinctIds(all) && |all| == 30
    ensures all[29].id !in Ids(all[..29]) && Ids(all) == Ids(all[..29]) + {all[29].id}
  {
    var front := all[..29];
    assert all == front + [all[29]];
    assert forall i :: 0 <= i < 29 ==> front[i] == all[i];
  }

  lemma CountArgument(front: set<string>, last: string, before: set<string>, after: set<string>, stopped: bool)
    requires |front| == 29 && last !in front && before <= front + {last} && after <= before + front
    requires stopped || after == before + front
    requires |after| <= 30 && (stopped ==> |after| == 30)
    ensures (stopped || |after| >= 30) <==> last in before
  {
    if last in before {
      assert before + front == front + {last};
    } else {
      SubsetSize(after, front);
    }
  }

  /** On exactly thirty distinct cases the third pass is cut short exactly when the
      last case was already picked. */
  lemma ThirdPassCutShort(all: seq<BenchCase>, priority: seq<string>)
    requires DistinctIds(all) && |all| == 30 && !QuotaPasses(all, priority).1
    ensures Fill(QuotaPasses(all, priority).0, all, false).1 <==> all[29].id in QuotaPasses(all, priority).0.seen
  {
    QuotaPassesKeep(all, priority);
    var quota := QuotaPasses(all, priority).0;
    assert all == all[..29] + [all[29]];
    FillSplit(quota, all[..29], [all[29]], false);
    FillLast(Fill(quota, all[..29], false).0, all[29]);
    AllButLast(quota, all);
  }

  /** Quota passes that fill up have picked all of thirty distinct cases. */
  lemma FullPicksAll(all: seq<BenchCase>, priority: seq<string>)
    requires DistinctIds(all) && |all| == 30 && QuotaPasses(all, priority).1
    ensures all[29].id in QuotaPasses(all, priority).0.seen
  {
    QuotaPassesKeep(all, priority);
    var quota := QuotaPasses(all, priority).0;
    DistinctIdCount(quota.selected);
    DistinctIdCount(all);
    if all[29].id !in quota.seen {
      SubsetSize(quota.seen, Ids(all) - {all[29].id});
    }
  }

  /** A third pass run to its end on few cases succeeds only by meeting the quotas. */
  lemma UncutSuccessMeetsQuotas(all: seq<BenchCase>, priority: seq<string>)
    requires !QuotaPasses(all, priority).1 && !Fill(QuotaPasses(all, priority).0, all, false).1
    requires Selection(all, priority).Success?
    ensures MeetsQuotas(Selection(all, priority).value)
  {
    FillPassKeeps(all, priority);
    var filled := Fill(QuotaPasses(all, priority).0, all, false).0;
    NoQuotaMissing(filled, all);
    QuotaSum(filled.byCategory);
  }

  /** With distinct ids the error is thrown exactly on fewer than thirty cases, or on
      thirty that fall short of a quota and whose last case the first two passes leave. */
  lemma ThrowsWhenLastIsLeft(all: seq<BenchCase>, priority: seq<string>)
    requires DistinctIds(all)
    ensures Selection(all, priority).Failure?
        <==> |all| < 30 || (|all| == 30 && !Enough(all) && all[29].id !in QuotaPasses(all, priority).0.seen)
  {
    DistinctIdCount(all);
    ThrowsOnFewIds(all, priority);
    QuotasMetIffEnough(all, priority);
    if |all| == 30 {
      if QuotaPasses(all, priority).1 {
        FullPicksAll(all, priority);
      } else {
        ThirdPassCutShort(all, priority);
        if Selection(all, priority).Success? && !Fill(QuotaPasses(all, priority).0, all, false).1 {
          UncutSuccessMeetsQuotas(all, priority);
        }
      }
    }
  }
}
