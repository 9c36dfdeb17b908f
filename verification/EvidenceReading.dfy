/** What one evidence file contributes to the dashboard. */
module EvidenceReading {
  import opened Collections
  import opened JsonModel
  import opened Text
  import opened Sorting
  import opened GateEvidence
  import opened EvidenceChoice
  import opened ReleaseVerdicts

  /** Besides the runtime: the default sort of paths, the coverage keyword tests on a
      file's name, schema and status, the review of a manifest against the chosen raw
      evidence (None when it throws), and whether the trace register passes. */
  datatype Host = Host(
    rt: Runtime, order: Compare<string>, keywords: (Area, string) -> bool,
    review: (Json, Option<Json>) -> Option<(nat, seq<ReviewedCase>)>, traceRegisterPass: bool)

  /** What the whole directory settles before any file is collected. */
  datatype Context = Context(rawManifest: Option<Json>, p12Pass: bool, superseding: Superseding)

  datatype Attribution = Attribution(source: string, owner: string, rootCause: string, nextAction: string,
                                     timedOut: bool, evidenceFile: string)

  datatype Reading = Reading(
    file: string, gate: Gate, readiness: seq<Readiness>, areas: set<Area>, failures: seq<Attribution>,
    catalogs: seq<Catalog>, v4s: seq<V4>, scoreFloors: seq<real>, beforeUsd: real, afterUsd: real)

  datatype Outcome = Skipped | Failed | Read(reading: Reading)

  // ----- the context -----

  predicate IsReadinessPass(rt: Runtime, json: Json) {
    && rt.upper(TextOr(rt, Field(json, "status"))) == "PASS"
    && rt.upper(TextOr(rt, CoalesceJson(Field(json, "p12Status"), Member(Field(json, "summary"), "p12Status"))))
       == "PASS"
    && rt.upper(TextOr(rt, CoalesceJson(Field(json, "deferredEvalStatus"),
                                        Member(Field(json, "summary"), "deferredEvalStatus")))) == "PASS"
  }

  predicate PassesReadiness(rt: Runtime, f: File) {
    f.content.Some? && IsReadinessPass(rt, f.content.value)
  }

  predicate P12Pass(h: Host, files: seq<File>) {
    h.traceRegisterPass || exists f :: f in files && PassesReadiness(h.rt, f)
  }

  function ContentOf(f: Option<File>): Option<Json> {
    if f.Some? then f.value.content else None
  }

  function ContextOf(h: Host, files: seq<File>): Context {
    Context(ContentOf(Chosen(files, h.order, ManifestTest(), BetterManifest(h.rt))), P12Pass(h, files),
            SupersedingOf(h.rt, Winner(h.rt, files, h.order)))
  }

  /** The three look-ups aggregateEvidence makes first. */
  method LoadContext(h: Host, files: seq<File>) returns (ctx: Context)
    ensures ctx == ContextOf(h, files)
  {
    var best := FindRawManifest(h.rt, files, h.order);
    var p12Pass := FindRawReadiness(h, files);
    var superseding := FindSupersession(h.rt, files, h.order);
    ctx := Context(ContentOf(best), p12Pass, superseding);
  }

  /** findCurrentRawEvidenceReadiness */
  method FindRawReadiness(h: Host, files: seq<File>) returns (p12Pass: bool)
    ensures p12Pass <==> P12Pass(h, files)
  {
    var sorted := Descending(files, h.order);
    SortIsPermutation(files, LaterFirst(h.order));
    PermutationMembers(files, sorted);
    for i := 0 to |sorted|
      invariant forall k :: 0 <= k < i ==> !PassesReadiness(h.rt, sorted[k])
    {
      if sorted[i].content.Some? && IsReadinessPass(h.rt, sorted[i].content.value) {
        assert PassesReadiness(h.rt, sorted[i]) && sorted[i] in sorted;
        return true;
      }
    }
    return h.traceRegisterPass;
  }

  // ----- one file -----

  const OUTPUT_PREFIX := "DSXU_EVIDENCE_DASHBOARD_"

  const COST_KEYS := ["costUsd", "totalCostUsd", "beforeUsd", "afterUsd", "costBeforeUsd", "costAfterUsd"]

  const CACHE_KEYS := ["cacheHitRatePct", "cache_hit_rate_pct"]

  function FirstOf(json: Json, names: seq<string>): Option<Json> {
    if names == [] then None else CoalesceJson(Field(json, names[0]), FirstOf(json, names[1..]))
  }

  function CoverageText(rt: Runtime, name: string, json: Json): string {
    name + " " + TextOr(rt, Field(json, "schemaVersion")) + " " + TextOr(rt, Field(json, "status"))
  }

  /** The areas collectEvidenceCoverage marks. */
  predicate Covers(h: Host, name: string, json: Json, area: Area) {
    h.keywords(area, CoverageText(h.rt, name, json))
    || match area
       case SourceTest => Items(Field(json, "failedCommandAttributions")) != []
       case Live => false
       case Raw => IsRawEvidenceManifest(json)
       case Cost => Numeric(h.rt, FirstOf(json, COST_KEYS)).Some? || HasNestedNumericKey(h.rt, json, COST_KEYS, 0)
       case Cache => Numeric(h.rt, FirstOf(json, CACHE_KEYS)).Some? || HasNestedNumericKey(h.rt, json, CACHE_KEYS, 0)
  }

  const AREAS := [SourceTest, Live, Raw, Cost, Cache]

  function AreasOf(h: Host, name: string, json: Json): set<Area> {
    set area | area in AREAS && Covers(h, name, json, area)
  }

  function FailuresFrom(rt: Runtime, name: string, file: string, rows: seq<Json>): seq<Attribution> {
    if rows == [] then []
    else
      var row := rows[0];
      (if row.JObj? || row.JArr?
       then [Attribution(name, OrElse(rt, row, ["owner"], "unknown owner"),
                         OrElse(rt, row, ["rootCause", "reason"], "unknown"),
                     OrElse(rt, row, ["nextAction"], "inspect source evidence"), IsTrue(Field(row, "timedOut")), file)]
       else []) + FailuresFrom(rt, name, file, rows[1..])
  }

  /** String(row.a ?? row.b ?? otherwise) */
  function OrElse(rt: Runtime, row: Json, names: seq<string>, otherwise: string): string {
    var value := FirstOf(row, names);
    if value.Some? && !value.value.JNull? then ToText(rt, value.value) else otherwise
  }

  function TextItem(rt: Runtime): Json -> string {
    (item: Json) => ToText(rt, item)
  }

  function CatalogsOf(rt: Runtime, file: string, json: Json): seq<Catalog> {
    if HasSchema(json, "dsxu.command-catalog.v1")
    then [Catalog(MapSeq(Items(Field(json, "mainlineAliases")), TextItem(rt)), file)]
    else []
  }

  predicate NumLess(a: Num, b: Num) {
    match (a, b)
    case (Fin(x), Fin(y)) => x < y
    case (Fin(_), PosInf) => true
    case (NegInf, Fin(_)) => true
    case (NegInf, PosInf) => true
    case _ => false
  }

  function NumberOr0(rt: Runtime, value: Option<Json>): Num {
    if value.Some? && !value.value.JNull? then rt.toNumber(value.value) else Fin(0.0)
  }

  function StageName(rt: Runtime): Json -> string {
    (stage: Json) => OrElse(rt, stage, ["stage"], "unknown")
  }

  function StageOpen(rt: Runtime): Json -> bool {
    (stage: Json) => rt.upper(OrElse(rt, stage, ["status"], "unknown")) !in {"DONE", "PASS"}
  }

  function NotIn(completed: seq<string>): string -> bool {
    (stage: string) => stage !in completed
  }

  predicate LaunchBlocked(rt: Runtime, json: Json) {
    var closure := Field(json, "v4HardBlockerClosure");
    var total, closed := NumberOr0(rt, Member(closure, "total")), NumberOr0(rt, Member(closure, "closed"));
    var acceptance := TextOr(rt, CoalesceJson(Field(json, "launchAcceptanceStatus"), Member(closure, "status")));
    || Contains(rt.upper(acceptance), "PARTIAL")
    || (NumLess(Fin(0.0), total) && NumLess(closed, total))
    || Items(Member(closure, "remainingItems")) != []
  }

  function Texts(rt: Runtime, json: Json, name: string): seq<string> {
    MapSeq(Items(Field(json, name)), TextItem(rt))
  }

  function MissingStages(rt: Runtime, json: Json): seq<string> {
    Filter(Texts(rt, json, "expectedStages"), NotIn(Texts(rt, json, "completedStages")))
  }

  function BlockedStages(rt: Runtime, json: Json): seq<string> {
    MapSeq(Filter(Items(Field(json, "stages")), StageOpen(rt)), StageName(rt))
    + (if LaunchBlocked(rt, json) then ["launch-acceptance"] else [])
  }

  function V4sOf(rt: Runtime, file: string, json: Json): seq<V4> {
    if HasSchema(json, "dsxu.v4.consolidation-status.v1") then
      var missing, blocked := MissingStages(rt, json), BlockedStages(rt, json);
      [V4(if missing == [] && blocked == [] then Pass else Blocked, missing, blocked, file)]
    else []
  }

  lemma NoneMissingIff(expected: seq<string>, completed: seq<string>)
    ensures Filter(expected, NotIn(completed)) == [] <==> forall s :: s in expected ==> s in completed
  {
    FilterLength(expected, NotIn(completed));
    if Filter(expected, NotIn(completed)) == [] {
      forall s | s in expected ensures s in completed { assert !NotIn(completed)(s); }
    }
  }

  /** A V4 status passes exactly when every expected stage is completed, every listed
      stage is DONE or PASS, and the launch is not blocked. */
  lemma V4PassesIff(rt: Runtime, file: string, json: Json)
    requires HasSchema(json, "dsxu.v4.consolidation-status.v1")
    ensures V4sOf(rt, file, json)[0].status == Pass
            <==> (forall s :: s in Texts(rt, json, "expectedStages") ==> s in Texts(rt, json, "completedStages"))
                 && (forall stage :: stage in Items(Field(json, "stages")) ==> !StageOpen(rt)(stage))
                 && !LaunchBlocked(rt, json)
  {
    NoneMissingIff(Texts(rt, json, "expectedStages"), Texts(rt, json, "completedStages"));
    FilterLength(Items(Field(json, "stages")), StageOpen(rt));
    assert |BlockedStages(rt, json)| == 0 <==>
      |Filter(Items(Field(json, "stages")), StageOpen(rt))| == 0 && !LaunchBlocked(rt, json);
  }

  function OptionToSeq<T>(o: Option<T>): seq<T> {
    if o.Some? then [o.value] else []
  }

  function UsdOf(rt: Runtime, json: Json, names: seq<string>): real {
    Numeric(rt, FirstOf(json, names)).GetOr(0.0)
  }

  /** The readiness row of a benchmark manifest; None when the check throws. */
  function ReviewedRows(h: Host, ctx: Context, json: Json): Option<seq<Readiness>> {
    if !IsBenchmarkManifest(json) then Some([])
    else
      match h.review(json, ctx.rawManifest)
      case Some((blockers, cases)) => Some([ReadinessRow(blockers, cases)])
      case None => None
  }

  function ManifestGate(rows: seq<Readiness>): Option<GateStatus> {
    if rows == [] then None else Some(if rows[0].publicBenchmarkClaimAllowed then Pass else Info)
  }

  function ReadingOf(h: Host, ctx: Context, file: File, json: Json, rows: seq<Readiness>): Reading
    requires !json.JNull?
  {
    Reading(
      file.path,
      Gate(file.name, ShownStatus(h.rt, ctx.p12Pass, ctx.superseding, file.name, json, ManifestGate(rows)), file.path),
      rows,
      AreasOf(h, file.name, json),
      FailuresFrom(h.rt, file.name, file.path,
                   Items(Field(json, "failedCommandAttributions")) + Items(Field(json, "failureAttribution"))),
      CatalogsOf(h.rt, file.path, json),
      V4sOf(h.rt, file.path, json),
      OptionToSeq(Numeric(h.rt, FirstOf(json, ["scoreFloor", "score_floor"]))),
      UsdOf(h.rt, json, ["beforeUsd", "before_usd", "costBeforeUsd"]),
      UsdOf(h.rt, json, ["afterUsd", "after_usd", "costAfterUsd"]))
  }

  /** collectEvidence on one file: a file that does not parse, holds just null, or
      whose manifest check throws, is a parse error and contributes nothing else. */
  function OutcomeOf(h: Host, ctx: Context, file: File): Outcome {
    match file.content
    case None => Failed
    case Some(json) =>
      if StartsWith(file.name, OUTPUT_PREFIX) then Skipped
      else if ReviewedRows(h, ctx, json).None? || json.JNull? then Failed
      else Read(ReadingOf(h, ctx, file, json, ReviewedRows(h, ctx, json).value))
  }

  function Readings(h: Host, ctx: Context): File -> seq<Reading> {
    (f: File) => match OutcomeOf(h, ctx, f) case Read(r) => [r] case _ => []
  }

  function Errors(h: Host, ctx: Context): File -> seq<string> {
    (f: File) => if OutcomeOf(h, ctx, f).Failed? then [f.path] else []
  }

  // ----- earlier dashboard outputs -----

  /** A parsed file under the dashboard's own name, with neither schema nor status. */
  predicate IsDashboardOutput(f: File) {
    && StartsWith(f.name, OUTPUT_PREFIX)
    && f.content.Some?
    && Field(f.content.value, "schemaVersion") == None
    && Field(f.content.value, "status") == None
  }

  function EvidenceTest(): File -> bool {
    (f: File) => !IsDashboardOutput(f)
  }

  function EvidenceIn(files: seq<File>): seq<File> {
    Filter(files, EvidenceTest())
  }

  /** Two directories of the same evidence, in any order and with any outputs beside it. */
  ghost predicate SameEvidence(h: Host, files: seq<File>, others: seq<File>) {
    && Listing(files, h.order) && Listing(others, h.order)
    && multiset(EvidenceIn(files)) == multiset(EvidenceIn(others))
    && h.rt.upper("") == ""
  }

  lemma SameEvidenceMembers(h: Host, files: seq<File>, others: seq<File>, f: File)
    requires SameEvidence(h, files, others) && !IsDashboardOutput(f)
    ensures f in files <==> f in others
  {
    FilterMembers(files, EvidenceTest());
    FilterMembers(others, EvidenceTest());
    PermutationMembers(EvidenceIn(files), EvidenceIn(others));
    assert f in EvidenceIn(files) <==> f in files;
    assert f in EvidenceIn(others) <==> f in others;
  }

  lemma OutputsAreNoCandidates(rt: Runtime, f: File)
    requires IsDashboardOutput(f) && rt.upper("") == ""
    ensures !ManifestTest()(f) && !ReadyTest(rt)(f) && !PassesReadiness(rt, f)
  {
  }

  lemma SameCandidates(h: Host, files: seq<File>, others: seq<File>, eligible: File -> bool)
    requires SameEvidence(h, files, others)
    requires forall f :: IsDashboardOutput(f) ==> !eligible(f)
    ensures Candidates(files, eligible) == Candidates(others, eligible)
  {
    forall f ensures f in Candidates(files, eligible) <==> f in Candidates(others, eligible) {
      if !IsDashboardOutput(f) {
        SameEvidenceMembers(h, files, others, f);
      }
    }
  }

  lemma SameReadiness(h: Host, files: seq<File>, others: seq<File>)
    requires SameEvidence(h, files, others)
    ensures P12Pass(h, files) == P12Pass(h, others)
  {
    forall f | PassesReadiness(h.rt, f) ensures f in files <==> f in others {
      if IsDashboardOutput(f) {
        OutputsAreNoCandidates(h.rt, f);
        assert false;
      } else {
        SameEvidenceMembers(h, files, others, f);
      }
    }
  }

  /** The same evidence settles the same context. */
  lemma SameContext(h: Host, files: seq<File>, others: seq<File>)
    requires SameEvidence(h, files, others)
    ensures ContextOf(h, files) == ContextOf(h, others)
  {
    forall f | IsDashboardOutput(f) ensures !ManifestTest()(f) && !ReadyTest(h.rt)(f) {
      OutputsAreNoCandidates(h.rt, f);
    }
    SameCandidates(h, files, others, ManifestTest());
    SameCandidates(h, files, others, ReadyTest(h.rt));
    ManifestRanks(h.rt);
    MoreReadyRanks(h.rt);
    ChosenDependsOnCandidates(files, others, h.order, ManifestTest(), BetterManifest(h.rt));
    ChosenDependsOnCandidates(files, others, h.order, ReadyTest(h.rt), MoreReady(h.rt));
    SameReadiness(h, files, others);
  }

  /** And gives the same readings, up to order. */
  lemma SameReadings(h: Host, ctx: Context, files: seq<File>, others: seq<File>)
    requires SameEvidence(h, files, others)
    ensures multiset(FlatMap(files, Readings(h, ctx))) == multiset(FlatMap(others, Readings(h, ctx)))
  {
    FlatMapFilter(files, EvidenceTest(), Readings(h, ctx));
    FlatMapFilter(others, EvidenceTest(), Readings(h, ctx));
    FlatMapPermutation(EvidenceIn(files), EvidenceIn(others), Readings(h, ctx));
  }

  lemma {:induction false} EveryReadingRow(h: Host, ctx: Context, file: File, json: Json)
    requires ReviewedRows(h, ctx, json).Some?
    ensures RowsAreChecked(ReviewedRows(h, ctx, json).value)
  {
    if IsBenchmarkManifest(json) {
      var (blockers, cases) := h.review(json, ctx.rawManifest).value;
      ReadinessRowGap(blockers, cases);
    }
  }
}
