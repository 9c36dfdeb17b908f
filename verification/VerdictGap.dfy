/** A directory on which the two claim verdicts differ: a benchmark manifest whose one
    case has faulty raw evidence, the raw evidence, and a command catalog. */
module VerdictGap {
  import opened Collections
  import opened JsonModel
  import opened Text
  import opened Sorting
  import opened GateEvidence
  import opened EvidenceChoice
  import opened ReleaseVerdicts
  import opened EvidenceReading
  import opened EvidenceDashboard

  const ONE_CASE := JArr([JObj([("id", JStr("case-1"))])])

  const MANIFEST := JObj([
    ("schemaVersion", JStr("dsxu.public-comparable-benchmark-manifest.v1")), ("caseCount", JNum(Fin(1.0))),
    ("cases", ONE_CASE)])

  const RAW_EVIDENCE := JObj([("schemaVersion", JStr("dsxu.public-comparable-raw-evidence.v1")), ("cases", ONE_CASE)])

  const CATALOG := JObj([
    ("schemaVersion", JStr("dsxu.command-catalog.v1")), ("status", JStr("PASS")),
    ("mainlineAliases",
     JArr([JStr("evidence:dashboard"), JStr("benchmark:swe-bench"), JStr("health:runtime"), JStr("cache:warm")]))])

  /** The fields that decide a gate's status. */
  const STATUS_FIELDS := {
    "status", "verdict", "summary", "review", "validation", "result", "report", "passed", "pass", "hardGates",
    "commandRuns", "scenarios", "expectedScoreMatchedCount", "passRate", "pass_at_1", "passAt1", "total", "totalTasks",
    "sampleCount", "passedTasks"}

  predicate Silent(json: Json) {
    forall name :: name in STATUS_FIELDS ==> Field(json, name) == None
  }

  lemma SilentStatus(rt: Runtime, json: Json)
    requires Silent(json)
    ensures StatusOf(rt, json) == ""
  {
    var candidates := StatusCandidates(json);
    assert candidates[0] == None && candidates[1] == None && candidates[2] == None && candidates[3] == None;
    assert candidates[4] == None && candidates[5] == None && candidates[6] == None;
    AllNone(rt, candidates);
  }

  lemma {:induction false} AllNone(rt: Runtime, candidates: seq<Option<Json>>)
    requires forall i :: 0 <= i < |candidates| ==> candidates[i] == None
    ensures FirstStatus(rt, candidates) == ""
  {
    if candidates != [] {
      AllNone(rt, candidates[1..]);
    }
  }

  lemma NoStatusVerdict()
    ensures StatusVerdict("") == None
    ensures !Contains("", GAP_WORD) && !IsLaneGap("")
  {
  }

  /** A file with a schema and no status field is shown for information. */
  lemma SilentIsInfo(rt: Runtime, json: Json)
    requires json.JObj? && Silent(json) && IsText(Field(json, "schemaVersion")) && !IsImportReport(json)
    ensures InferGateStatus(rt, json) == Info
  {
    SilentStatus(rt, json);
    NoStatusVerdict();
    assert PassedFlag(json) == None;
    assert HardGateStatus(json) == None;
    assert CommandRunStatus(rt, json) == None;
    assert ScenarioStatus(rt, json) == None;
    assert PassRate(rt, json) == None;
  }

  lemma PassVerdict()
    ensures StatusVerdict("PASS") == Some(Pass)
    ensures !Contains("PASS", GAP_WORD) && !IsLaneGap("PASS")
  {
  }

  // ----- the three files -----

  lemma AbsentField(json: Json, name: string)
    requires json.JObj? && forall f :: f in json.fields ==> f.0 != name
    ensures Field(json, name) == None
  {
    LookupNone(json.fields, name);
  }

  lemma ManifestFields()
    ensures Field(MANIFEST, "schemaVersion") == Some(JStr("dsxu.public-comparable-benchmark-manifest.v1"))
    ensures forall name :: name !in {"schemaVersion", "caseCount", "cases"} ==> Field(MANIFEST, name) == None
  {
    LookupBefore(MANIFEST.fields, 1, "schemaVersion");
    forall name | name !in {"schemaVersion", "caseCount", "cases"} ensures Field(MANIFEST, name) == None {
      AbsentField(MANIFEST, name);
    }
  }

  lemma RawFields()
    ensures Field(RAW_EVIDENCE, "schemaVersion") == Some(JStr("dsxu.public-comparable-raw-evidence.v1"))
    ensures forall name :: name !in {"schemaVersion", "cases"} ==> Field(RAW_EVIDENCE, name) == None
  {
    LookupBefore(RAW_EVIDENCE.fields, 1, "schemaVersion");
    forall name | name !in {"schemaVersion", "cases"} ensures Field(RAW_EVIDENCE, name) == None {
      AbsentField(RAW_EVIDENCE, name);
    }
  }

  lemma CatalogFields()
    ensures Field(CATALOG, "schemaVersion") == Some(JStr("dsxu.command-catalog.v1"))
    ensures Field(CATALOG, "status") == Some(JStr("PASS"))
    ensures Field(CATALOG, "mainlineAliases") == Some(CATALOG.fields[2].1)
    ensures forall name :: name !in {"schemaVersion", "status", "mainlineAliases"} ==> Field(CATALOG, name) == None
  {
    LookupBefore(CATALOG.fields, 1, "schemaVersion");
    LookupBefore(CATALOG.fields, 2, "status");
    LookupBefore(CATALOG.fields, 3, "mainlineAliases");
    forall name | name !in {"schemaVersion", "status", "mainlineAliases"} ensures Field(CATALOG, name) == None {
      AbsentField(CATALOG, name);
    }
  }

  lemma StatusFieldsAreOther(name: string)
    requires name in STATUS_FIELDS
    ensures name !in {"schemaVersion", "caseCount", "cases"}
  {
  }

  lemma BothSilent()
    ensures Silent(MANIFEST) && Silent(RAW_EVIDENCE)
  {
    ManifestFields();
    RawFields();
    forall name | name in STATUS_FIELDS ensures Field(MANIFEST, name) == None && Field(RAW_EVIDENCE, name) == None {
      StatusFieldsAreOther(name);
    }
  }

  // ----- what they contribute -----

  /** A file outside the dashboard's own outputs, read while no report supersedes others. */
  predicate Plain(ctx: Context, f: File, json: Json) {
    f.content == Some(json) && !StartsWith(f.name, OUTPUT_PREFIX) && !ctx.superseding.rawEvidenceReady
  }

  /** One row that is not allowed and misses nothing, and every area covered. */
  ghost predicate IsFaultyManifest(r: Reading) {
    && r.gate.status == Info && r.v4s == [] && r.catalogs == []
    && (forall area: Area :: area in r.areas)
    && |r.readiness| == 1 && !r.readiness[0].publicBenchmarkClaimAllowed && r.readiness[0].missingCaseCount == 0
  }

  predicate IsNeutral(r: Reading) {
    r.gate.status == Info && r.v4s == [] && r.catalogs == [] && r.readiness == []
  }

  predicate IsFullCatalog(r: Reading) {
    && r.gate.status in {Pass, Info} && r.v4s == [] && r.readiness == []
    && |r.catalogs| == 1 && r.catalogs[0].mainlineAliases == MAINLINE_ALIASES
  }

  lemma SilentIsShownAsInfo(rt: Runtime, ctx: Context, name: string, json: Json, rows: seq<Readiness>)
    requires json.JObj? && Silent(json) && IsText(Field(json, "schemaVersion")) && !IsImportReport(json)
    requires !ctx.superseding.rawEvidenceReady && (rows == [] || !rows[0].publicBenchmarkClaimAllowed)
    ensures ShownStatus(rt, ctx.p12Pass, ctx.superseding, name, json, ManifestGate(rows)) == Info
  {
    SilentIsInfo(rt, json);
    SilentStatus(rt, json);
    NoStatusVerdict();
  }

  lemma FaultyRow(redlines: nat)
    requires redlines > 0
    ensures var row := ReadinessRow(0, [ReviewedCase(true, redlines, false)]);
            !row.publicBenchmarkClaimAllowed && row.missingCaseCount == 0
  {
    var cases := [ReviewedCase(true, redlines, false)];
    ReadinessRowGap(0, cases);
    FilterLength(cases, MissingCase());
    assert cases[0] in cases;
  }

  lemma ManifestReading(h: Host, ctx: Context, f: File, redlines: nat)
    requires Plain(ctx, f, MANIFEST) && redlines > 0
    requires h.review(MANIFEST, ctx.rawManifest) == Some((0, [ReviewedCase(true, redlines, false)]))
    requires forall area :: h.keywords(area, CoverageText(h.rt, f.name, MANIFEST))
    ensures OutcomeOf(h, ctx, f).Read?
    ensures IsFaultyManifest(OutcomeOf(h, ctx, f).reading)
  {
    ManifestFields();
    BothSilent();
    FaultyRow(redlines);
    var rows := [ReadinessRow(0, [ReviewedCase(true, redlines, false)])];
    assert ReviewedRows(h, ctx, MANIFEST) == Some(rows);
    SilentIsShownAsInfo(h.rt, ctx, f.name, MANIFEST, rows);
    forall area: Area ensures area in AreasOf(h, f.name, MANIFEST) {
      EveryAreaIsListed(area);
    }
  }

  lemma EveryAreaIsListed(area: Area)
    ensures area in AREAS
  {
    assert AREAS[0] == SourceTest && AREAS[1] == Live && AREAS[2] == Raw && AREAS[3] == Cost && AREAS[4] == Cache;
  }

  lemma RawReading(h: Host, ctx: Context, f: File)
    requires Plain(ctx, f, RAW_EVIDENCE)
    ensures OutcomeOf(h, ctx, f).Read?
    ensures IsNeutral(OutcomeOf(h, ctx, f).reading)
  {
    RawFields();
    BothSilent();
    SilentIsShownAsInfo(h.rt, ctx, f.name, RAW_EVIDENCE, []);
  }

  lemma CatalogReading(h: Host, ctx: Context, f: File)
    requires Plain(ctx, f, CATALOG) && h.rt.upper("PASS") == "PASS"
    ensures OutcomeOf(h, ctx, f).Read?
    ensures IsFullCatalog(OutcomeOf(h, ctx, f).reading)
  {
    CatalogFields();
    PlainReading(h, ctx, f, CATALOG, []);
    CatalogStatus(h.rt, ctx, f.name);
    CatalogAliases(h.rt, f.path);
  }

  /** A plain file with these readiness rows is read as ReadingOf says. */
  lemma PlainReading(h: Host, ctx: Context, f: File, json: Json, rows: seq<Readiness>)
    requires Plain(ctx, f, json) && !json.JNull? && ReviewedRows(h, ctx, json) == Some(rows)
    ensures OutcomeOf(h, ctx, f) == Read(ReadingOf(h, ctx, f, json, rows))
  {
  }

  lemma CatalogStatus(rt: Runtime, ctx: Context, name: string)
    requires rt.upper("PASS") == "PASS" && !ctx.superseding.rawEvidenceReady
    ensures ShownStatus(rt, ctx.p12Pass, ctx.superseding, name, CATALOG, None) in {Pass, Info}
  {
    CatalogFields();
    assert Trim("PASS") == "PASS";
    TextStatusIsRead(rt, CATALOG);
    PassVerdict();
    assert InferGateStatus(rt, CATALOG) == Pass;
  }

  lemma CatalogAliases(rt: Runtime, path: string)
    ensures CatalogsOf(rt, path, CATALOG) == [Catalog(MAINLINE_ALIASES, path)]
  {
    CatalogFields();
    var items := Items(Field(CATALOG, "mainlineAliases"));
    assert items == [JStr(MAINLINE_ALIASES[0]), JStr(MAINLINE_ALIASES[1]), JStr(MAINLINE_ALIASES[2]),
                     JStr(MAINLINE_ALIASES[3])];
    assert MapSeq(items, TextItem(rt)) == MAINLINE_ALIASES;
  }

  // ----- the board they make -----

  lemma {:induction false} BoardOfThree(readings: seq<Reading>)
    requires |readings| == 3 && IsFaultyManifest(readings[0]) && IsNeutral(readings[1]) && IsFullCatalog(readings[2])
    ensures var s := CollectAll(readings);
      && s.gates == [readings[0].gate, readings[1].gate, readings[2].gate] && s.readiness == readings[0].readiness
      && s.catalog == Some(readings[2].catalogs[0]) && s.v4 == None && MissingAreas(s.coverage) == []
  {
    CollectedLists(readings);
    CollectedLatest(readings);
    assert readings == [readings[0], readings[1], readings[2]];
    FlatMapThree(readings[0], readings[1], readings[2], GatesOf());
    FlatMapThree(readings[0], readings[1], readings[2], RowsIn());
    FlatMapThree(readings[0], readings[1], readings[2], CatalogsIn());
    FlatMapThree(readings[0], readings[1], readings[2], V4sIn());
    NothingMissing(readings);
  }

  lemma {:induction false} NothingMissing(readings: seq<Reading>)
    requires readings != [] && forall area: Area :: area in readings[0].areas
    ensures MissingAreas(CollectAll(readings).coverage) == []
  {
    var coverage := CollectAll(readings).coverage;
    forall area: Area ensures !Uncovered(coverage)(area) {
      CoverageCounts(readings, area);
      FilterLength(readings, Marks(area));
      assert readings[0] in readings && Marks(area)(readings[0]);
    }
    FilterLength(AREAS, Uncovered(coverage));
  }

  /** Released by both, with claims allowed by the panel only. */
  predicate VerdictsSplit(b: Board) {
    PanelAllowsRelease(b) && WorkbenchAllowsRelease(b) && PanelAllowsClaims(b) && !WorkbenchAllowsClaims(b)
  }

  lemma BoardSplits(b: Board)
    requires Summarized(b) && |b.gates| == 3 && forall g :: g in b.gates ==> g.status in {Pass, Info}
    requires |b.readiness| == 1 && !b.readiness[0].publicBenchmarkClaimAllowed && b.readiness[0].missingCaseCount == 0
    requires b.missingAreas == [] && b.v4 == None
    requires b.catalog.Some? && b.catalog.value.mainlineAliases == MAINLINE_ALIASES
    ensures VerdictsSplit(b)
  {
    FilterLength(b.gates, StatusTest(Fail));
    FilterLength(b.gates, StatusTest(Blocked));
    FilterLength(b.gates, StatusTest(ClaimBlocked));
    FilterLength(b.gates, StatusTest(NotRun));
    assert b.readiness[0] in b.readiness;
  }

  // ----- the run -----

  lemma ContextOfThree(h: Host, manifest: File, raw: File, catalog: File)
    requires Listing([manifest, raw, catalog], h.order)
    requires manifest.content == Some(MANIFEST) && raw.content == Some(RAW_EVIDENCE) && catalog.content == Some(CATALOG)
    ensures var ctx := ContextOf(h, [manifest, raw, catalog]);
            ctx.rawManifest == Some(RAW_EVIDENCE) && !ctx.superseding.rawEvidenceReady
  {
    var files := [manifest, raw, catalog];
    ManifestFields();
    RawFields();
    CatalogFields();
    WinnerIsMostReady(h.rt, files, h.order);
    ChosenManifestIsGreatest(h.rt, files, h.order);
    assert files[1] in files && ManifestTest()(raw);
  }

  /** A run over these three files, in any directory and with any further faults in the
      one case, allows external claims on the panel and withholds them on the workbench. */
  lemma FaultyCaseSplitsTheVerdicts(h: Host, manifest: File, raw: File, catalog: File, redlines: nat)
    requires var files := [manifest, raw, catalog];
             Listing(files, h.order) && forall f :: f in files ==> !StartsWith(f.name, OUTPUT_PREFIX)
    requires manifest.content == Some(MANIFEST) && raw.content == Some(RAW_EVIDENCE) && catalog.content == Some(CATALOG)
    requires redlines > 0 && h.review(MANIFEST, Some(RAW_EVIDENCE)) == Some((0, [ReviewedCase(true, redlines, false)]))
    requires forall area :: h.keywords(area, CoverageText(h.rt, manifest.name, MANIFEST))
    requires h.rt.upper("PASS") == "PASS"
    ensures VerdictsSplit(CurrentBoard(h, [manifest, raw, catalog]))
  {
    var files := [manifest, raw, catalog];
    var ctx := ContextOf(h, files);
    ContextOfThree(h, manifest, raw, catalog);
    assert files[0] == manifest && files[1] == raw && files[2] == catalog;
    ManifestReading(h, ctx, manifest, redlines);
    RawReading(h, ctx, raw);
    CatalogReading(h, ctx, catalog);
    ReadingsSplit(h, ctx, manifest, raw, catalog);
  }

  lemma {:induction false} ReadingsSplit(h: Host, ctx: Context, x: File, y: File, z: File)
    requires OutcomeOf(h, ctx, x).Read? && OutcomeOf(h, ctx, y).Read? && OutcomeOf(h, ctx, z).Read?
    requires IsFaultyManifest(OutcomeOf(h, ctx, x).reading) && IsNeutral(OutcomeOf(h, ctx, y).reading)
    requires IsFullCatalog(OutcomeOf(h, ctx, z).reading)
    ensures VerdictsSplit(BoardOf(StateOf(h, ctx, [x, y, z])))
  {
    FlatMapThree(x, y, z, Readings(h, ctx));
    OneReading(h, ctx, x);
    OneReading(h, ctx, y);
    OneReading(h, ctx, z);
    BoardOfReadingsSplits(FlatMap([x, y, z], Readings(h, ctx)));
  }

  lemma OneReading(h: Host, ctx: Context, f: File)
    requires OutcomeOf(h, ctx, f).Read?
    ensures Readings(h, ctx)(f) == [OutcomeOf(h, ctx, f).reading]
  {
  }

  lemma {:induction false} BoardOfReadingsSplits(readings: seq<Reading>)
    requires |readings| == 3 && IsFaultyManifest(readings[0]) && IsNeutral(readings[1]) && IsFullCatalog(readings[2])
    ensures VerdictsSplit(BoardOf(CollectAll(readings)))
  {
    BoardOfThree(readings);
    BoardSplits(BoardOf(CollectAll(readings)));
  }
}
