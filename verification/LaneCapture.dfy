/** One case of the benchmark lane: the verdict on its captured run, the evidence the
    capture writes, and what a later run reads back from that evidence. */
module LaneCapture {
  import opened Collections
  import opened Counters
  import opened JsonModel
  import opened Text
  import opened LaneBudgets
  import LaneStream
  import JsonRepair

  // ----- the verdict on one captured run -----

  datatype Status = PASS | PARTIAL | FAIL | BLOCKED

  /** The regex tests and parsers the verdict consults, taken as given. */
  datatype Judge = Judge(
    stream: LaneStream.Tests, reader: JsonRepair.Reader,
    split: string -> seq<string>, trimmed: string -> string,
    declared: string -> Option<Status>, expected: Case -> set<Status>,
    notesMissingMcpResources: string -> bool, hasNegativeWords: string -> bool,
    unsupportedClaims: string -> nat, pathViolations: (Case, string) -> nat)

  datatype CommandResult = CommandResult(exitCode: Num, durationMs: Num, stdout: string)

  /** What the outside world does with a case in one run. */
  datatype Outcome = Ran(result: CommandResult) | Threw(message: string) | PrepareFailed(message: string)

  type World = Case -> Outcome

  function DeclaredStatus(j: Judge, obj: Option<seq<(string, Json)>>): Option<Status> {
    if obj.None? then None
    else match Lookup(obj.value, "status")
      case Some(JStr(text)) => j.declared(text)
      case _ => None
  }

  predicate SatisfiesRubric(j: Judge, item: Case, declared: Option<Status>, resultText: string) {
    if item.facts.mcpResource && (declared == Some(PARTIAL) || declared == Some(BLOCKED))
        && j.notesMissingMcpResources(resultText)
    then true
    else if declared.Some? then declared.value in j.expected(item)
    else if FAIL in j.expected(item) then false
    else !j.hasNegativeWords(resultText)
  }

  function AgentWorkerViolations(item: Case, executed: Counts): nat {
    if item.id !in AGENT_WORKER then 0 else if Get(executed, "Agent") > 0 then 0 else 1
  }

  predicate FinalPass(j: Judge, item: Case, run: CommandResult) {
    var budgets := EffectiveBudgets(item);
    var tools := DeriveTools(j.split, j.trimmed, item, budgets);
    var parsed := LaneStream.ParseStream(j.stream, run.stdout);
    var obj := JsonRepair.ParseFinal(j.reader, parsed.resultText).obj;
    var declared := DeclaredStatus(j, obj);
    && obj.Some?
    && (tools == [] ==> j.unsupportedClaims(parsed.resultText) == 0)
    && (declared == Some(PASS) ==> j.pathViolations(item, parsed.resultText) == 0)
    && Violations(EvaluateToolBudgets(budgets, parsed.executedToolUseCounts)) == 0.0
    && AgentWorkerViolations(item, parsed.executedToolUseCounts) == 0
    && run.exitCode == Fin(0.0)
    && parsed.resultEventSeen
    && SatisfiesRubric(j, item, declared, parsed.resultText)
  }

  /** A passing case stayed within every effective budget on what was executed, even
      when more was attempted, and an agent-worker case executed an Agent call. */
  lemma PassStaysWithinBudgets(j: Judge, item: Case, run: CommandResult)
    requires FinalPass(j, item, run)
    ensures WithinBudgets(EffectiveBudgets(item), LaneStream.ParseStream(j.stream, run.stdout).executedToolUseCounts)
    ensures item.id in AGENT_WORKER
            ==> Get(LaneStream.ParseStream(j.stream, run.stdout).executedToolUseCounts, "Agent") > 0
  {
    NoViolationsMeansWithin(EffectiveBudgets(item), LaneStream.ParseStream(j.stream, run.stdout).executedToolUseCounts);
  }

  // ----- evidence on disk -----

  datatype JsonFile = Missing | Corrupt | Content(json: Json)

  datatype CaseDir = CaseDir(transcript: bool, toolTrace: bool, finalReport: JsonFile, metrics: JsonFile)

  predicate Complete(dirs: map<string, CaseDir>, id: string) {
    id in dirs && dirs[id].transcript && dirs[id].toolTrace && !dirs[id].finalReport.Missing?
        && !dirs[id].metrics.Missing?
  }

  datatype CaseStatus = PASS_CAPTURED | PARTIAL_CAPTURED | REUSED | FAIL_ERROR

  datatype CaseReport = CaseReport(
    id: string, status: CaseStatus, exitCode: Option<Num>,
    wallClockMs: Num, costUsd: Num, cacheHitRatePct: Num, toolUseCount: real, finalPass: bool)

  function CountsJson(c: Counts): seq<(string, Json)> {
    if c == [] then [] else [(c[0].0, JNum(Fin(c[0].1 as real)))] + CountsJson(c[1..])
  }

  function SumValues(fields: seq<(string, Json)>): real {
    if fields == [] then 0.0 else NumberValue(Some(fields[0].1)).GetOr(0.0) + SumValues(fields[1..])
  }

  function ExistingToolUses(finalRecord: seq<(string, Json)>): real {
    match (Lookup(finalRecord, "executedToolUseCounts"), Lookup(finalRecord, "attemptedToolUseCounts"))
    case (Some(JObj(executed)), _) => SumValues(executed)
    case (_, Some(JObj(attempted))) => SumValues(attempted)
    case _ => NumberValue(Lookup(finalRecord, "toolUseCount")).GetOr(0.0)
  }

  function FinNum(value: Option<real>): Num {
    Fin(value.GetOr(0.0))
  }

  /** readExistingCaseEvidence; a file that is not JSON makes the whole run throw. */
  function ReadExisting(dir: CaseDir, id: string): Result<CaseReport, string> {
    if dir.metrics.Content? && dir.finalReport.Content? then
      var metrics, final := RecordFields(Some(dir.metrics.json)), RecordFields(Some(dir.finalReport.json));
      var exitCode := if NumberValue(Lookup(metrics, "exitCode")).Some? then NumberValue(Lookup(metrics, "exitCode"))
                      else NumberValue(Lookup(final, "exitCode"));
      Success(CaseReport(
        id, REUSED, if exitCode.Some? then Some(Fin(exitCode.value)) else None,
        FinNum(NumberValue(Lookup(metrics, "wallClockMs"))), FinNum(NumberValue(Lookup(metrics, "costUsd"))),
        FinNum(NumberValue(Lookup(metrics, "cacheHitRatePct"))), ExistingToolUses(final),
        IsTrue(Lookup(metrics, "finalPass"))))
    else Failure("evidence file is not JSON")
  }

  function MetricsJson(finalPass: bool, cost: Num, wallClock: Num, cacheHit: Num): Json {
    JObj([("finalPass", JBool(finalPass)), ("costUsd", StoredNum(cost)),
          ("wallClockMs", StoredNum(wallClock)), ("cacheHitRatePct", StoredNum(cacheHit))])
  }

  function FinalReportJson(exitCode: Num, attempted: Counts, executed: Counts): Json {
    JObj([("exitCode", StoredNum(exitCode)), ("attemptedToolUseCounts", JObj(CountsJson(attempted))),
          ("executedToolUseCounts", JObj(CountsJson(executed)))])
  }

  /** The report of a capture, and the evidence it writes. */
  function Capture(j: Judge, item: Case, outcome: Outcome): Result<(CaseReport, CaseDir), string> {
    match outcome
    case PrepareFailed(message) => Failure(message)
    case Threw(_) =>
      Success((CaseReport(item.id, FAIL_ERROR, Some(Fin(124.0)), Fin(0.0), Fin(0.0), Fin(0.0), 0.0, false),
               CaseDir(true, true, Content(FinalReportJson(Fin(124.0), [], [])),
                       Content(MetricsJson(false, Fin(0.0), Fin(0.0), Fin(0.0))))))
    case Ran(run) =>
      var p := LaneStream.ParseStream(j.stream, run.stdout);
      var pass := FinalPass(j, item, run);
      Success((CaseReport(item.id, if pass then PASS_CAPTURED else PARTIAL_CAPTURED, Some(run.exitCode),
                          run.durationMs, p.costUsd, p.cacheHitRatePct, Total(p.toolUseCounts) as real, pass),
               CaseDir(true, true,
                       Content(FinalReportJson(run.exitCode, p.toolUseCounts, p.executedToolUseCounts)),
                       Content(MetricsJson(pass, p.costUsd, run.durationMs, p.cacheHitRatePct)))))
  }

  // ----- reuse agrees with capture -----

  /** A number after a round trip through a JSON file, read with a default of zero. */
  function Reread(n: Num): Num {
    if n.Fin? then n else Fin(0.0)
  }

  /** What a later run reads back of a report. */
  function AsReread(report: CaseReport, toolUseCount: real): CaseReport {
    CaseReport(report.id, REUSED,
               if report.exitCode.Some? && report.exitCode.value.Fin? then report.exitCode else None,
               Reread(report.wallClockMs), Reread(report.costUsd), Reread(report.cacheHitRatePct), toolUseCount,
               report.finalPass)
  }

  lemma {:induction false} CountsRoundTrip(c: Counts)
    ensures SumValues(CountsJson(c)) == Total(c) as real
  {
    if c != [] {
      CountsRoundTrip(c[1..]);
    }
  }

  lemma MetricsLookups(finalPass: bool, cost: Num, wallClock: Num, cacheHit: Num)
    ensures var m := MetricsJson(finalPass, cost, wallClock, cacheHit).fields;
      && Lookup(m, "finalPass") == Some(JBool(finalPass)) && Lookup(m, "costUsd") == Some(StoredNum(cost))
      && Lookup(m, "wallClockMs") == Some(StoredNum(wallClock))
         && Lookup(m, "cacheHitRatePct") == Some(StoredNum(cacheHit))
      && Lookup(m, "exitCode") == None
  {
    var m := MetricsJson(finalPass, cost, wallClock, cacheHit).fields;
    var m3, m2, m1 := m[..3], m[..2], m[..1];
    assert m3[..2] == m2 && m2[..1] == m1 && m1[..0] == [];
    assert Lookup(m1, "finalPass") == Some(JBool(finalPass)) && Lookup(m1, "exitCode") == None;
    assert Lookup(m2, "finalPass") == Some(JBool(finalPass)) && Lookup(m2, "exitCode") == None;
    assert Lookup(m2, "costUsd") == Some(StoredNum(cost));
    assert Lookup(m3, "finalPass") == Some(JBool(finalPass)) && Lookup(m3, "exitCode") == None;
    assert Lookup(m3, "costUsd") == Some(StoredNum(cost));
    assert Lookup(m3, "wallClockMs") == Some(StoredNum(wallClock));
  }

  lemma FinalReportLookups(exitCode: Num, attempted: Counts, executed: Counts)
    ensures var f := FinalReportJson(exitCode, attempted, executed).fields;
      && Lookup(f, "exitCode") == Some(StoredNum(exitCode))
      && Lookup(f, "executedToolUseCounts") == Some(JObj(CountsJson(executed)))
  {
    var f := FinalReportJson(exitCode, attempted, executed).fields;
    assert f[..2][..1] == f[..1];
    assert Lookup(f[..1], "exitCode") == Some(StoredNum(exitCode));
    assert Lookup(f[..2], "exitCode") == Some(StoredNum(exitCode));
  }

  lemma EvidenceRereads(report: CaseReport, exitCode: Num, attempted: Counts, executed: Counts)
    requires report.exitCode == Some(exitCode)
    ensures ReadExisting(
              CaseDir(true, true, Content(FinalReportJson(exitCode, attempted, executed)),
                      Content(MetricsJson(report.finalPass, report.costUsd, report.wallClockMs,
                                          report.cacheHitRatePct))),
              report.id)
         == Success(AsReread(report, Total(executed) as real))
  {
    MetricsLookups(report.finalPass, report.costUsd, report.wallClockMs, report.cacheHitRatePct);
    FinalReportLookups(exitCode, attempted, executed);
    CountsRoundTrip(executed);
  }

  function ExecutedTotal(j: Judge, outcome: Outcome): real {
    if outcome.Ran? then Total(LaneStream.ParseStream(j.stream, outcome.result.stdout).executedToolUseCounts) as real
    else 0.0
  }

  /** Reading back the evidence of a capture gives the same verdict and metrics; the
      tool count read back is the executed one. */
  lemma CaptureRereads(j: Judge, item: Case, outcome: Outcome)
    requires Capture(j, item, outcome).Success?
    ensures var (report, dir) := Capture(j, item, outcome).value;
      && report.id == item.id
      && dir.transcript && dir.toolTrace && dir.finalReport.Content? && dir.metrics.Content?
      && ReadExisting(dir, item.id) == Success(AsReread(report, ExecutedTotal(j, outcome)))
  {
    var report := Capture(j, item, outcome).value.0;
    match outcome {
      case Threw(_) =>
        EvidenceRereads(report, Fin(124.0), [], []);
      case Ran(run) =>
        var p := LaneStream.ParseStream(j.stream, run.stdout);
        EvidenceRereads(report, run.exitCode, p.toolUseCounts, p.executedToolUseCounts);
    }
  }

  /** Reuse repeats the exit code, the cost, the time and the hit rate of a capture
      exactly where they are finite. */
  lemma MetricsSurviveIffFinite(j: Judge, item: Case, outcome: Outcome)
    requires Capture(j, item, outcome).Success?
    ensures var (report, dir) := Capture(j, item, outcome).value;
            var reread := ReadExisting(dir, item.id);
      && reread.Success? && report.exitCode.Some?
      && (reread.value.costUsd == report.costUsd <==> report.costUsd.Fin?)
      && (reread.value.wallClockMs == report.wallClockMs <==> report.wallClockMs.Fin?)
      && (reread.value.cacheHitRatePct == report.cacheHitRatePct <==> report.cacheHitRatePct.Fin?)
      && (reread.value.exitCode == report.exitCode <==> report.exitCode.value.Fin?)
  {
    CaptureRereads(j, item, outcome);
  }

  /** A result event whose total_cost_usd is a number too large for a double. */
  const OVERFLOWING_RESULT := [("type", JStr("result")), ("total_cost_usd", JNum(PosInf))]

  /** Such an overflow happens: the cost is reported as infinite, stored as null and
      read back as zero. */
  lemma OverflowingCostIsLost(j: Judge, item: Case, line: string)
    requires '\n' !in line && !IsBlank(line) && j.stream.tryJson(line) == Some(OVERFLOWING_RESULT)
    ensures var captured := Capture(j, item, Ran(CommandResult(Fin(0.0), Fin(1.0), line)));
      && captured.Success?
      && captured.value.0.costUsd == PosInf
      && ReadExisting(captured.value.1, item.id).Success?
      && ReadExisting(captured.value.1, item.id).value.costUsd == Fin(0.0)
  {
    CaptureRereads(j, item, Ran(CommandResult(Fin(0.0), Fin(1.0), line)));
    CostOverflows(j.stream, line);
  }

  lemma CostOverflows(t: LaneStream.Tests, line: string)
    requires '\n' !in line && !IsBlank(line) && t.tryJson(line) == Some(OVERFLOWING_RESULT)
    ensures LaneStream.ParseStream(t, line).costUsd == PosInf
  {
    SplitWithoutLineFeed(line);
    var lines := [line];
    assert lines[..|lines| - 1] == [];
    LookupBefore(OVERFLOWING_RESULT, 1, "type");
    LookupBefore(OVERFLOWING_RESULT, 2, "total_cost_usd");
    assert LaneStream.FoldLines(t, lines) == LaneStream.StepLine(t, LaneStream.INITIAL, line);
  }

  /** What reuse does not repeat: the status label, and the tool count of a case that
      attempted more than it executed. */
  lemma ReuseRelabels(j: Judge, item: Case, outcome: Outcome)
    requires Capture(j, item, outcome).Success?
    ensures var (report, dir) := Capture(j, item, outcome).value;
            var reread := ReadExisting(dir, item.id);
      && reread.Success? && reread.value.status != report.status
      && (outcome.Ran? ==>
            var p := LaneStream.ParseStream(j.stream, outcome.result.stdout);
            (reread.value.toolUseCount == report.toolUseCount
             <==> Total(p.executedToolUseCounts) == Total(p.toolUseCounts)))
  {
    CaptureRereads(j, item, outcome);
  }

  // ----- what the runner may rely on -----

  /** Capturing a case in a given world. */
  type Capturer = Case -> Result<(CaseReport, CaseDir), string>

  function CapturerOf(j: Judge, world: World): Capturer {
    (item: Case) => Capture(j, item, world(item))
  }

  predicate Readable(dir: CaseDir) {
    dir.transcript && dir.toolTrace && dir.finalReport.Content? && dir.metrics.Content?
  }

  /** The evidence written reads back as the report, up to label and tool count, and
      a runner error never passes. */
  predicate EvidenceMatches(report: CaseReport, dir: CaseDir) {
    && Readable(dir)
    && ReadExisting(dir, report.id).Success?
    && ReadExisting(dir, report.id).value == AsReread(report, ReadExisting(dir, report.id).value.toolUseCount)
    && !(report.status == FAIL_ERROR && report.finalPass)
  }

  ghost predicate Faithful(capture: Capturer) {
    forall item :: capture(item).Success? ==>
      capture(item).value.0.id == item.id && EvidenceMatches(capture(item).value.0, capture(item).value.1)
  }

  lemma CapturesAreFaithful(j: Judge, world: World)
    ensures Faithful(CapturerOf(j, world))
  {
    forall item | CapturerOf(j, world)(item).Success?
      ensures var (report, dir) := CapturerOf(j, world)(item).value;
              report.id == item.id && EvidenceMatches(report, dir)
    {
      CaptureRereads(j, item, world(item));
    }
  }
}
