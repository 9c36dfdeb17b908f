/** The evidence dashboard: a fold over the files of a directory in whatever order they
    are listed, then the gate summary, coverage, and both release verdicts. */
module EvidenceDashboard {
  import opened Collections
  import opened Sorting
  import opened Grouping
  import opened GateEvidence
  import opened EvidenceChoice
  import opened ReleaseVerdicts
  import opened EvidenceReading

  // ----- coverage -----

  datatype CoverageArea = CoverageArea(fileCount: nat, sampleFiles: seq<string>)

  datatype CoverageMap = CoverageMap(sourceTest: CoverageArea, live: CoverageArea, raw: CoverageArea,
                                     cost: CoverageArea, cache: CoverageArea) {
    function At(area: Area): CoverageArea {
      match area
      case SourceTest => sourceTest
      case Live => live
      case Raw => raw
      case Cost => cost
      case Cache => cache
    }
  }

  const NO_COVERAGE := CoverageMap(CoverageArea(0, []), CoverageArea(0, []), CoverageArea(0, []), CoverageArea(0, []),
                                   CoverageArea(0, []))

  function Marked(area: CoverageArea, file: string): CoverageArea {
    CoverageArea(area.fileCount + 1, if |area.sampleFiles| < 5 then area.sampleFiles + [file] else area.sampleFiles)
  }

  function MarkedIf(covered: bool, area: CoverageArea, file: string): CoverageArea {
    if covered then Marked(area, file) else area
  }

  function MarkAll(c: CoverageMap, areas: set<Area>, file: string): CoverageMap {
    CoverageMap(MarkedIf(SourceTest in areas, c.sourceTest, file), MarkedIf(Live in areas, c.live, file),
                MarkedIf(Raw in areas, c.raw, file), MarkedIf(Cost in areas, c.cost, file),
                MarkedIf(Cache in areas, c.cache, file))
  }

  function Uncovered(c: CoverageMap): Area -> bool {
    (area: Area) => c.At(area).fileCount == 0
  }

  /** finalizeEvidenceCoverage: the areas no file marked. */
  function MissingAreas(c: CoverageMap): seq<Area> {
    Filter(AREAS, Uncovered(c))
  }

  // ----- the collected state, as a function of what was read -----

  datatype State = State(gates: seq<Gate>, readiness: seq<Readiness>, attributions: seq<Attribution>,
                         coverage: CoverageMap,
                         catalog: Option<Catalog>, v4: Option<V4>, scoreFloor: Option<real>,
                         beforeUsd: real, afterUsd: real)

  const EMPTY := State([], [], [], NO_COVERAGE, None, None, None, 0.0, 0.0)

  /** Collecting one reading. */
  function Collect(s: State, r: Reading): State {
    State(s.gates + [r.gate], s.readiness + r.readiness, s.attributions + r.failures,
          MarkAll(s.coverage, r.areas, r.file),
          Latest(s.catalog, r.catalogs), Latest(s.v4, r.v4s), Lowest(s.scoreFloor, r.scoreFloors),
          s.beforeUsd + r.beforeUsd, s.afterUsd + r.afterUsd)
  }

  function Latest<T>(current: Option<T>, found: seq<T>): Option<T> {
    if found == [] then current else Some(found[|found| - 1])
  }

  function Lowest(current: Option<real>, found: seq<real>): Option<real> {
    if found == [] then current
    else
      var lowest := Lowest(current, found[..|found| - 1]);
      var next := found[|found| - 1];
      Some(if lowest.Some? && lowest.value < next then lowest.value else next)
  }

  function CollectAll(readings: seq<Reading>): State {
    if readings == [] then EMPTY else Collect(CollectAll(readings[..|readings| - 1]), readings[|readings| - 1])
  }

  function StateOf(h: Host, ctx: Context, files: seq<File>): State {
    CollectAll(FlatMap(files, Readings(h, ctx)))
  }

  function BoardOf(s: State): Board {
    Board(s.gates, SummarizeGates(s.gates), s.readiness, MissingAreas(s.coverage), s.catalog, s.v4)
  }

  function CurrentBoard(h: Host, files: seq<File>): Board {
    BoardOf(StateOf(h, ContextOf(h, files), files))
  }

  // ----- the dashboard object -----

  class Dashboard {
    var gates: seq<Gate>
    var readiness: seq<Readiness>
    var attributions: seq<Attribution>
    var coverage: CoverageMap
    var catalog: Option<Catalog>
    var v4: Option<V4>
    var scoreFloor: Option<real>
    var beforeUsd: real
    var afterUsd: real
    var parseErrors: seq<string>

    function Contents(): State
      reads this
    {
      State(gates, readiness, attributions, coverage, catalog, v4, scoreFloor, beforeUsd, afterUsd)
    }

    constructor ()
      ensures Contents() == EMPTY && parseErrors == []
    {
      gates, readiness, attributions := [], [], [];
      coverage := NO_COVERAGE;
      catalog, v4, scoreFloor := None, None, None;
      beforeUsd, afterUsd := 0.0, 0.0;
      parseErrors := [];
    }

    method MarkCoverage(areas: set<Area>, file: string)
      modifies this`coverage
      ensures coverage == MarkAll(old(coverage), areas, file)
    {
      if SourceTest in areas { coverage := coverage.(sourceTest := Marked(coverage.sourceTest, file)); }
      if Live in areas { coverage := coverage.(live := Marked(coverage.live, file)); }
      if Raw in areas { coverage := coverage.(raw := Marked(coverage.raw, file)); }
      if Cost in areas { coverage := coverage.(cost := Marked(coverage.cost, file)); }
      if Cache in areas { coverage := coverage.(cache := Marked(coverage.cache, file)); }
    }

    method LowerScoreFloor(found: seq<real>)
      modifies this`scoreFloor
      requires |found| <= 1
      ensures scoreFloor == Lowest(old(scoreFloor), found)
    {
      if |found| == 1 {
        assert found[..|found| - 1] == [];
        scoreFloor := Some(if scoreFloor.Some? && scoreFloor.value < found[0] then scoreFloor.value else found[0]);
      }
    }

    method CollectReading(r: Reading)
      requires |r.scoreFloors| <= 1
      modifies this
      ensures Contents() == Collect(old(Contents()), r)
      ensures parseErrors == old(parseErrors)
    {
      gates := gates + [r.gate];
      readiness := readiness + r.readiness;
      MarkCoverage(r.areas, r.file);
      attributions := attributions + r.failures;
      if |r.catalogs| > 0 { catalog := Some(r.catalogs[|r.catalogs| - 1]); }
      if |r.v4s| > 0 { v4 := Some(r.v4s[|r.v4s| - 1]); }
      LowerScoreFloor(r.scoreFloors);
      beforeUsd := beforeUsd + r.beforeUsd;
      afterUsd := afterUsd + r.afterUsd;
    }

    /** collectEvidence inside its try: a file is skipped, recorded as an error, or collected whole. */
    method CollectEvidence(h: Host, ctx: Context, file: File)
      modifies this
      ensures Contents()
           == match OutcomeOf(h, ctx, file) case Read(r) => Collect(old(Contents()), r) case _ => old(Contents())
      ensures parseErrors == old(parseErrors) + Errors(h, ctx)(file)
    {
      match OutcomeOf(h, ctx, file)
      case Skipped =>
      case Failed => parseErrors := parseErrors + [file.path];
      case Read(r) =>
        ScoreFloorsAreFew(h, ctx, file);
        CollectReading(r);
    }

    /** aggregateEvidence over a listed directory: what it collects, and its two verdicts. */
    method Aggregate(h: Host, files: seq<File>) returns (w: Workbench, p: Panel)
      requires Contents() == EMPTY && parseErrors == []
      modifies this
      ensures Contents() == StateOf(h, ContextOf(h, files), files)
      ensures parseErrors == FlatMap(files, Errors(h, ContextOf(h, files)))
      ensures p.productReleaseAllowed <==> w.productReleaseAllowed && AliasesReady(CurrentBoard(h, files))
      ensures w.productReleaseAllowed <==> WorkbenchAllowsRelease(CurrentBoard(h, files))
      ensures w.externalClaimAllowed <==> WorkbenchAllowsClaims(CurrentBoard(h, files))
      ensures p.productReleaseAllowed <==> PanelAllowsRelease(CurrentBoard(h, files))
      ensures p.externalClaimAllowed <==> PanelAllowsClaims(CurrentBoard(h, files))
      ensures w.externalClaimAllowed && AliasesReady(CurrentBoard(h, files)) ==> p.externalClaimAllowed
    {
      var ctx := LoadContext(h, files);
      for i := 0 to |files|
        invariant Contents() == StateOf(h, ctx, files[..i])
        invariant parseErrors == FlatMap(files[..i], Errors(h, ctx))
      {
        CollectStep(h, ctx, files, i);
        CollectEvidence(h, ctx, files[i]);
      }
      assert files[..|files|] == files;
      RowsOf(h, ctx, files);
      var board := BoardOf(Contents());
      w := BuildEvidenceWorkbench(board);
      p := BuildReleaseTrustPanel(board);
    }
  }

  lemma ScoreFloorsAreFew(h: Host, ctx: Context, file: File)
    ensures OutcomeOf(h, ctx, file).Read? ==> |OutcomeOf(h, ctx, file).reading.scoreFloors| <= 1
  {
  }

  lemma CollectStep(h: Host, ctx: Context, files: seq<File>, i: nat)
    requires i < |files|
    ensures FlatMap(files[..i + 1], Errors(h, ctx)) == FlatMap(files[..i], Errors(h, ctx)) + Errors(h, ctx)(files[i])
    ensures StateOf(h, ctx, files[..i + 1])
            == match OutcomeOf(h, ctx, files[i])
               case Read(r) => Collect(StateOf(h, ctx, files[..i]), r)
               case _ => StateOf(h, ctx, files[..i])
  {
    assert files[..i + 1] == files[..i] + [files[i]];
    FlatMapSnoc(files[..i], files[i], Errors(h, ctx));
    FlatMapSnoc(files[..i], files[i], Readings(h, ctx));
    var before := FlatMap(files[..i], Readings(h, ctx));
    match OutcomeOf(h, ctx, files[i])
    case Read(r) => CollectAllSnoc(before, r);
    case _ => assert before + [] == before;
  }

  lemma CollectAllSnoc(readings: seq<Reading>, r: Reading)
    ensures CollectAll(readings + [r]) == Collect(CollectAll(readings), r)
  {
    assert (readings + [r])[..|readings|] == readings;
  }

  /** Every collected readiness row came from the readiness check, so the panel never
      withholds a claim the workbench allows for want of missing cases. */
  lemma RowsOf(h: Host, ctx: Context, files: seq<File>)
    ensures RowsAreChecked(StateOf(h, ctx, files).readiness)
  {
    ReadingsAreChecked(h, ctx, files);
    CollectedRows(FlatMap(files, Readings(h, ctx)));
  }

  predicate Checked(r: Reading) {
    RowsAreChecked(r.readiness)
  }

  lemma {:induction false} ReadingsAreChecked(h: Host, ctx: Context, files: seq<File>)
    ensures forall r :: r in FlatMap(files, Readings(h, ctx)) ==> Checked(r)
  {
    if files != [] {
      ReadingsAreChecked(h, ctx, files[1..]);
      match OutcomeOf(h, ctx, files[0])
      case Read(r) => EveryReadingRow(h, ctx, files[0], files[0].content.value);
      case _ =>
    }
  }

  lemma {:induction false} CollectedRows(readings: seq<Reading>)
    requires forall r :: r in readings ==> Checked(r)
    ensures RowsAreChecked(CollectAll(readings).readiness)
  {
    if readings != [] {
      CollectedRows(readings[..|readings| - 1]);
      assert readings[|readings| - 1] in readings;
      assert Checked(readings[|readings| - 1]);
    }
  }

  // ----- what does not depend on the order of the files -----

  function GatesOf(): Reading -> seq<Gate> {
    (r: Reading) => [r.gate]
  }

  function RowsIn(): Reading -> seq<Readiness> {
    (r: Reading) => r.readiness
  }

  function AttributionsIn(): Reading -> seq<Attribution> {
    (r: Reading) => r.failures
  }

  function CatalogsIn(): Reading -> seq<Catalog> {
    (r: Reading) => r.catalogs
  }

  function V4sIn(): Reading -> seq<V4> {
    (r: Reading) => r.v4s
  }

  function FloorsIn(): Reading -> seq<real> {
    (r: Reading) => r.scoreFloors
  }

  function Marks(area: Area): Reading -> bool {
    (r: Reading) => area in r.areas
  }

  lemma {:induction false} CollectedLists(readings: seq<Reading>)
    ensures var s := CollectAll(readings);
            s.gates == FlatMap(readings, GatesOf()) && s.readiness == FlatMap(readings, RowsIn())
            && s.attributions == FlatMap(readings, AttributionsIn())
  {
    if readings != [] {
      var front, r := readings[..|readings| - 1], readings[|readings| - 1];
      CollectedLists(front);
      assert readings == front + [r];
      FlatMapSnoc(front, r, GatesOf());
      FlatMapSnoc(front, r, RowsIn());
      FlatMapSnoc(front, r, AttributionsIn());
    }
  }

  lemma LatestAppend<T>(current: Option<T>, a: seq<T>, b: seq<T>)
    ensures Latest(Latest(current, a), b) == Latest(current, a + b)
  {
  }

  /** The last catalog and the last V4 status read are the ones kept. */
  lemma {:induction false} CollectedLatest(readings: seq<Reading>)
    ensures CollectAll(readings).catalog == Latest(None, FlatMap(readings, CatalogsIn()))
    ensures CollectAll(readings).v4 == Latest(None, FlatMap(readings, V4sIn()))
  {
    if readings != [] {
      var front, r := readings[..|readings| - 1], readings[|readings| - 1];
      CollectedLatest(front);
      assert readings == front + [r];
      FlatMapSnoc(front, r, CatalogsIn());
      FlatMapSnoc(front, r, V4sIn());
      LatestAppend(None, FlatMap(front, CatalogsIn()), r.catalogs);
      LatestAppend(None, FlatMap(front, V4sIn()), r.v4s);
    }
  }

  /** The least of the floors, None when there is none. */
  predicate IsLeast(floor: Option<real>, floors: seq<real>) {
    match floor
    case None => floors == []
    case Some(m) => m in floors && forall x :: x in floors ==> m <= x
  }

  lemma {:induction false} LowestIsLeast(current: Option<real>, seen: seq<real>, found: seq<real>)
    requires IsLeast(current, seen)
    ensures IsLeast(Lowest(current, found), seen + found)
  {
    if found == [] {
      assert seen + found == seen;
    } else {
      var front := found[..|found| - 1];
      LowestIsLeast(current, seen, front);
      assert seen + found == (seen + front) + [found[|found| - 1]];
    }
  }

  /** The dashboard's score floor is the minimum of the explicit ones. */
  lemma {:induction false} ScoreFloorIsMinimum(readings: seq<Reading>)
    ensures IsLeast(CollectAll(readings).scoreFloor, FlatMap(readings, FloorsIn()))
  {
    if readings != [] {
      var front, r := readings[..|readings| - 1], readings[|readings| - 1];
      ScoreFloorIsMinimum(front);
      assert readings == front + [r];
      FlatMapSnoc(front, r, FloorsIn());
      LowestIsLeast(CollectAll(front).scoreFloor, FlatMap(front, FloorsIn()), r.scoreFloors);
    }
  }

  lemma LeastIsUnique(a: Option<real>, b: Option<real>, xs: seq<real>, ys: seq<real>)
    requires IsLeast(a, xs) && IsLeast(b, ys) && multiset(xs) == multiset(ys)
    ensures a == b
  {
    PermutationMembers(xs, ys);
  }

  lemma MarkCounts(c: CoverageMap, areas: set<Area>, file: string, area: Area)
    ensures MarkAll(c, areas, file).At(area).fileCount == c.At(area).fileCount + if area in areas then 1 else 0
  {
  }

  /** An area's file count is the number of files that mark it. */
  lemma {:induction false} CoverageCounts(readings: seq<Reading>, area: Area)
    ensures CollectAll(readings).coverage.At(area).fileCount == |Filter(readings, Marks(area))|
  {
    if readings != [] {
      var front, r := readings[..|readings| - 1], readings[|readings| - 1];
      CoverageCounts(front, area);
      assert readings == front + [r];
      FilterAppend(front, [r], Marks(area));
      MarkCounts(CollectAll(front).coverage, r.areas, r.file, area);
    }
  }

  lemma SameAreas(xs: seq<Reading>, ys: seq<Reading>)
    requires multiset(xs) == multiset(ys)
    ensures MissingAreas(CollectAll(xs).coverage) == MissingAreas(CollectAll(ys).coverage)
  {
    var c, d := CollectAll(xs).coverage, CollectAll(ys).coverage;
    forall area ensures Uncovered(c)(area) == Uncovered(d)(area) {
      CoverageCounts(xs, area);
      CoverageCounts(ys, area);
      FilterCountPermutation(xs, ys, Marks(area));
    }
    FilterAgrees(AREAS, Uncovered(c), Uncovered(d));
  }

  lemma SameSummary(gates: seq<Gate>, others: seq<Gate>)
    requires multiset(gates) == multiset(others)
    ensures SummarizeGates(gates) == SummarizeGates(others)
  {
    PermutationMembers(gates, others);
    FilterCountPermutation(gates, others, StatusTest(Pass));
    FilterCountPermutation(gates, others, StatusTest(Fail));
    FilterCountPermutation(gates, others, StatusTest(Blocked));
    FilterCountPermutation(gates, others, StatusTest(ClaimBlocked));
    FilterCountPermutation(gates, others, StatusTest(NotRun));
    FilterCountPermutation(gates, others, StatusTest(Info));
  }

  /** At most one command catalog and one V4 status among the readings. */
  predicate FewSingletons(readings: seq<Reading>) {
    |FlatMap(readings, CatalogsIn())| <= 1 && |FlatMap(readings, V4sIn())| <= 1
  }

  lemma SameSingletons(xs: seq<Reading>, ys: seq<Reading>)
    requires multiset(xs) == multiset(ys) && FewSingletons(xs)
    ensures CollectAll(xs).catalog == CollectAll(ys).catalog && CollectAll(xs).v4 == CollectAll(ys).v4
  {
    CollectedLatest(xs);
    CollectedLatest(ys);
    FlatMapPermutation(xs, ys, CatalogsIn());
    FlatMapPermutation(xs, ys, V4sIn());
    ShortPermutation(FlatMap(xs, CatalogsIn()), FlatMap(ys, CatalogsIn()));
    ShortPermutation(FlatMap(xs, V4sIn()), FlatMap(ys, V4sIn()));
  }

  /** Two states that show the same: counts, coverage, floor and verdict inputs alike,
      lists of rows alike up to order. */
  ghost predicate Alike(a: State, b: State) {
    && SummarizeGates(a.gates) == SummarizeGates(b.gates)
    && multiset(a.readiness) == multiset(b.readiness)
    && multiset(a.attributions) == multiset(b.attributions)
    && MissingAreas(a.coverage) == MissingAreas(b.coverage)
    && a.catalog == b.catalog && a.v4 == b.v4
    && a.scoreFloor == b.scoreFloor
  }

  lemma ReorderedReadingsAreAlike(xs: seq<Reading>, ys: seq<Reading>)
    requires multiset(xs) == multiset(ys) && FewSingletons(xs)
    ensures Alike(CollectAll(xs), CollectAll(ys))
  {
    CollectedLists(xs);
    CollectedLists(ys);
    FlatMapPermutation(xs, ys, GatesOf());
    FlatMapPermutation(xs, ys, RowsIn());
    FlatMapPermutation(xs, ys, AttributionsIn());
    FlatMapPermutation(xs, ys, FloorsIn());
    SameSummary(CollectAll(xs).gates, CollectAll(ys).gates);
    SameAreas(xs, ys);
    SameSingletons(xs, ys);
    ScoreFloorIsMinimum(xs);
    ScoreFloorIsMinimum(ys);
    LeastIsUnique(CollectAll(xs).scoreFloor, CollectAll(ys).scoreFloor, FlatMap(xs, FloorsIn()),
                  FlatMap(ys, FloorsIn()));
  }

  /** Alike states get the same verdicts. */
  lemma AlikeVerdicts(a: State, b: State)
    requires Alike(a, b)
    ensures ProductClear(BoardOf(a)) == ProductClear(BoardOf(b))
    ensures TrustStateOf(BoardOf(a)) == TrustStateOf(BoardOf(b))
    ensures AliasesReady(BoardOf(a)) == AliasesReady(BoardOf(b))
    ensures ClaimsOtherwiseClear(BoardOf(a)) == ClaimsOtherwiseClear(BoardOf(b))
    ensures AllRowsAllowed(BoardOf(a)) == AllRowsAllowed(BoardOf(b))
    ensures NoCaseMissing(BoardOf(a)) == NoCaseMissing(BoardOf(b))
  {
    PermutationMembers(a.readiness, b.readiness);
  }

  /** The order in which the files are listed, and any earlier dashboard outputs among
      them, change neither gate summary, coverage, score floor nor verdicts. */
  lemma OrderAndOutputsDoNotMatter(h: Host, files: seq<File>, others: seq<File>)
    requires SameEvidence(h, files, others)
    requires FewSingletons(FlatMap(files, Readings(h, ContextOf(h, files))))
    ensures Alike(StateOf(h, ContextOf(h, files), files), StateOf(h, ContextOf(h, others), others))
  {
    var ctx := ContextOf(h, files);
    SameContext(h, files, others);
    SameReadings(h, ctx, files, others);
    ReorderedReadingsAreAlike(FlatMap(files, Readings(h, ctx)), FlatMap(others, Readings(h, ctx)));
  }

  /** Two listings of the same evidence get the same four verdicts, whatever their order
      and whatever earlier outputs lie beside it. */
  lemma SameEvidenceSameVerdicts(h: Host, files: seq<File>, others: seq<File>)
    requires SameEvidence(h, files, others)
    requires FewSingletons(FlatMap(files, Readings(h, ContextOf(h, files))))
    ensures var a, b := CurrentBoard(h, files), CurrentBoard(h, others);
      && WorkbenchAllowsRelease(a) == WorkbenchAllowsRelease(b)
      && WorkbenchAllowsClaims(a) == WorkbenchAllowsClaims(b)
      && PanelAllowsRelease(a) == PanelAllowsRelease(b)
      && PanelAllowsClaims(a) == PanelAllowsClaims(b)
      && TrustStateOf(a) == TrustStateOf(b) && PanelStatusOf(a) == PanelStatusOf(b)
  {
    OrderAndOutputsDoNotMatter(h, files, others);
    AlikeVerdicts(StateOf(h, ContextOf(h, files), files), StateOf(h, ContextOf(h, others), others));
  }

  // ----- failures by owner -----

  datatype OwnerSummary = OwnerSummary(owner: string, failureCount: nat, timedOutCount: nat,
                                       rootCauses: seq<string>, nextActions: seq<string>, evidenceFiles: seq<string>)

  function OwnerOf(): Attribution -> string {
    (a: Attribution) => a.owner
  }

  function TimedOut(): Attribution -> bool {
    (a: Attribution) => a.timedOut
  }

  function RootCauseOf(): Attribution -> string {
    (a: Attribution) => a.rootCause
  }

  function NextActionOf(): Attribution -> string {
    (a: Attribution) => a.nextAction
  }

  function EvidenceFileOf(): Attribution -> string {
    (a: Attribution) => a.evidenceFile
  }

  /** [...new Set(values.filter(Boolean))] */
  function Unique(values: seq<string>): (unique: seq<string>)
    ensures NoDuplicates(unique)
    ensures forall v :: v in unique <==> v in values && v != ""
  {
    if values == [] then []
    else
      var front, last := Unique(values[..|values| - 1]), values[|values| - 1];
      assert values == values[..|values| - 1] + [last];
      if last == "" || last in front then front else front + [last]
  }

  function SummaryOf(): ((string, seq<Attribution>)) -> OwnerSummary {
    (g: (string, seq<Attribution>)) =>
      OwnerSummary(g.0, |g.1|, |Filter(g.1, TimedOut())|, Unique(MapSeq(g.1, RootCauseOf())),
                   Unique(MapSeq(g.1, NextActionOf())), Unique(MapSeq(g.1, EvidenceFileOf())))
  }

  /** summarizeOwnerFailures */
  method SummarizeOwnerFailures(rows: seq<Attribution>, byOwner: Compare<(string, seq<Attribution>)>)
    returns (summaries: seq<OwnerSummary>)
    ensures summaries == OwnerSummaries(rows, byOwner)
  {
    var groups := GroupBy(rows, OwnerOf());
    summaries := MapSeq(SortBy(groups, byOwner), SummaryOf());
  }

  function OwnerSummaries(rows: seq<Attribution>, byOwner: Compare<(string, seq<Attribution>)>): seq<OwnerSummary> {
    MapSeq(SortBy(GroupRows(rows, OwnerOf()), byOwner), SummaryOf())
  }

  function FailureCount(): OwnerSummary -> nat {
    (s: OwnerSummary) => s.failureCount
  }

  lemma {:induction false} SummarySizes(groups: Groups<Attribution>)
    ensures Sum(MapSeq(groups, SummaryOf()), FailureCount()) == Sum(groups, GroupSize())
  {
    if groups != [] {
      SummarySizes(groups[1..]);
      assert MapSeq(groups, SummaryOf())[1..] == MapSeq(groups[1..], SummaryOf());
    }
  }

  /** The summaries of a partition into groups by owner. */
  lemma SummariesOfGroups(groups: Groups<Attribution>, rows: seq<Attribution>, summaries: seq<OwnerSummary>)
    requires Partitions(groups, rows, OwnerOf()) && summaries == MapSeq(groups, SummaryOf())
    ensures forall i, j :: 0 <= i < j < |summaries| ==> summaries[i].owner != summaries[j].owner
    ensures forall i :: 0 <= i < |summaries| ==>
              summaries[i].failureCount == |Filter(rows, HasKey(OwnerOf(), summaries[i].owner))| > 0
    ensures forall row :: row in rows ==> exists i :: 0 <= i < |summaries| && summaries[i].owner == row.owner
  {
    forall i | 0 <= i < |groups|
      ensures summaries[i].owner == groups[i].0 && summaries[i].failureCount == |groups[i].1| > 0
    {
      assert summaries[i] == SummaryOf()(groups[i]);
    }
    forall row | row in rows ensures exists i :: 0 <= i < |summaries| && summaries[i].owner == row.owner {
      var i :| 0 <= i < |groups| && groups[i].0 == OwnerOf()(row);
      assert summaries[i].owner == row.owner;
    }
  }

  /** One summary per owner with failures, counting exactly that owner's; together
      they count every failure. */
  lemma OwnerFailuresPartition(rows: seq<Attribution>, byOwner: Compare<(string, seq<Attribution>)>)
    ensures var summaries := OwnerSummaries(rows, byOwner);
            (forall i, j :: 0 <= i < j < |summaries| ==> summaries[i].owner != summaries[j].owner)
            && (forall i :: 0 <= i < |summaries| ==>
                  summaries[i].failureCount == |Filter(rows, HasKey(OwnerOf(), summaries[i].owner))| > 0)
            && (forall row :: row in rows ==> exists i :: 0 <= i < |summaries| && summaries[i].owner == row.owner)
            && Sum(summaries, FailureCount()) == |rows|
  {
    var groups := GroupRows(rows, OwnerOf());
    var sorted := SortBy(groups, byOwner);
    GroupRowsPartitions(rows, OwnerOf());
    GroupRowsSize(rows, OwnerOf());
    SortIsPermutation(groups, byOwner);
    SortedPartitions(groups, sorted, rows, OwnerOf());
    SumPermutation(sorted, groups, GroupSize());
    SummarySizes(sorted);
    SummariesOfGroups(sorted, rows, OwnerSummaries(rows, byOwner));
  }
}
