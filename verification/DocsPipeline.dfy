/** The docs truth registry, the signal extraction over it, the prompt input
    allowlist over the signals, and the archive watchlist over both. */
module DocsPipeline {
  import opened Collections
  import opened Counters
  import opened Text

  datatype DeleteSafety = No | RegenerableOnly | AfterSignalExtraction | AfterReferenceScan | AfterCrossReference
      | LowRisk

  datatype Potential = High | Medium | Low | NoPotential

  /** What the registry reads off one file. */
  datatype Doc = Doc(path: string, lines: nat, size: nat, signals: seq<string>, claimRisk: bool, releaseRisk: bool)

  /** chooseStatus, which looks at the path alone. */
  type StatusOf = string -> string

  datatype Row = Row(path: string, lines: nat, status: string, deleteSafety: DeleteSafety, potential: Potential,
                     signals: seq<string>, claimRisk: bool, releaseRisk: bool)

  // ----- the registry's classifiers -----

  /** The statuses chooseDeleteSafety answers no for. */
  const KEPT_STATUSES :=
      {"active-master-plan", "active-v6-evidence", "active-public-doc", "active-reference", "active-registry-source"}

  function ChooseDeleteSafety(status: string, signals: seq<string>, claimRisk: bool, releaseRisk: bool): DeleteSafety {
    if status in KEPT_STATUSES then No
    else if status == "generated-current" then RegenerableOnly
    else if status == "generated-historical"
    then (if claimRisk || releaseRisk then AfterSignalExtraction else RegenerableOnly)
    else if status == "asset" then AfterReferenceScan
    else if status == "superseded-plan" then
      (if claimRisk || releaseRisk || |signals| > 2 then AfterCrossReference else LowRisk)
    else if status in {"superseded-review", "historical-evidence", "evidence-audit"} then AfterSignalExtraction
    else if |signals| == 0 && !claimRisk && !releaseRisk then LowRisk
    else AfterSignalExtraction
  }

  const HIGH_SIGNALS := {"prompt-behavior-discipline", "agent-multi-window-orchestration", "tool-protocol-and-schema",
                         "verification-recovery-gates", "scenario-test-corpus"}

  const MEDIUM_SIGNALS :=
      {"claim-boundary-and-public-wording", "release-ip-brand-risk", "benchmark-and-hit-rate-evidence",
       "deepseek-routing-cost-cache", "tui-visible-state-experience"}

  function ChooseTransformPotential(status: string, signals: seq<string>, size: nat): Potential {
    if status in {"active-master-plan", "active-v6-evidence", "generated-current"} then NoPotential
    else if exists s :: s in signals && s in HIGH_SIGNALS then High
    else if exists s :: s in signals && s in MEDIUM_SIGNALS then Medium
    else if |signals| > 0 || size > 20000 then Low
    else NoPotential
  }

  function RegistryRow(statusOf: StatusOf): Doc -> Row {
    (d: Doc) =>
      var status := statusOf(d.path);
      Row(d.path, d.lines, status, ChooseDeleteSafety(status, d.signals, d.claimRisk, d.releaseRisk),
          ChooseTransformPotential(status, d.signals, d.size), d.signals, d.claimRisk, d.releaseRisk)
  }

  /** The registry the script writes. */
  function Registry(docs: seq<Doc>, statusOf: StatusOf): seq<Row> {
    MapSeq(docs, RegistryRow(statusOf))
  }

  // ----- signal extraction -----

  datatype Category =
    | PromptDiscipline | ToolProtocol | VerificationRecovery | ContextMemoryLedger | AgentSkillMcp
    | DeepseekRoutingCostCache | BenchmarkHitRate | ReleaseClaimBoundary | TuiTrustSurface | ScenarioReplay

  /** The summary sentence of a signal, kept as the two words it is filled with;
      the words searched for below neither occur in nor reach into its fixed text. */
  datatype Summary = Summary(rawSignal: string, status: string)

  /** The summary holds the word, whatever the case. */
  predicate Mentions(summary: Summary, word: string) {
    Contains(Lower(summary.rawSignal), word) || Contains(Lower(summary.status), word)
  }

  datatype Signal = Signal(sourceDoc: string, category: Category, summary: Summary,
                           promptAllowed: bool, claimAllowed: bool, archiveAfterExtraction: bool)

  function CategoryOf(rawSignal: string): Option<Category> {
    match rawSignal
    case "prompt-behavior-discipline" => Some(PromptDiscipline)
    case "tool-protocol-and-schema" => Some(ToolProtocol)
    case "verification-recovery-gates" => Some(VerificationRecovery)
    case "context-memory-ledger" => Some(ContextMemoryLedger)
    case "agent-multi-window-orchestration" => Some(AgentSkillMcp)
    case "skill-mcp-workflow-boundary" => Some(AgentSkillMcp)
    case "deepseek-routing-cost-cache" => Some(DeepseekRoutingCostCache)
    case "benchmark-and-hit-rate-evidence" => Some(BenchmarkHitRate)
    case "claim-boundary-and-public-wording" => Some(ReleaseClaimBoundary)
    case "release-ip-brand-risk" => Some(ReleaseClaimBoundary)
    case "tui-visible-state-experience" => Some(TuiTrustSurface)
    case "scenario-test-corpus" => Some(ScenarioReplay)
    case _ => None
  }

  const PROMPT_STATUSES := {"active-master-plan", "active-v6-evidence", "active-public-doc", "active-reference"}

  const ARCHIVE_STATUSES :=
      {"historical-evidence", "evidence-audit", "superseded-plan", "superseded-review", "generated-historical"}

  const P0_STATUSES := {"active-master-plan", "active-v6-evidence", "active-public-doc", "active-reference",
                        "historical-evidence", "evidence-audit", "superseded-plan", "superseded-review",
                        "generated-historical"}

  predicate IsP0Doc(row: Row) {
    row.potential == High && row.status in P0_STATUSES
  }

  function SignalFrom(row: Row, rawSignal: string): Option<Signal> {
    match CategoryOf(rawSignal)
    case None => None
    case Some(category) => Some(Signal(
      row.path, category, Summary(rawSignal, row.status),
      category == PromptDiscipline && row.status in PROMPT_STATUSES,
      false,
      row.status in ARCHIVE_STATUSES && row.deleteSafety != No))
  }

  /** The signals of one row, from its first n raw signals. */
  function SignalsFrom(row: Row, raw: seq<string>): seq<Signal> {
    if raw == [] then []
    else (match SignalFrom(row, raw[0]) case Some(s) => [s] case None => []) + SignalsFrom(row, raw[1..])
  }

  function Signals(rows: seq<Row>): seq<Signal> {
    if rows == [] then [] else SignalsFrom(rows[0], rows[0].signals) + Signals(rows[1..])
  }

  /** rows.find(row => row.path === path)?.status ?? '' */
  function StatusAt(rows: seq<Row>, path: string): string {
    if rows == [] then ""
    else if rows[0].path == path then rows[0].status
    else StatusAt(rows[1..], path)
  }

  predicate HistoricalStatus(status: string) {
    Contains(status, "superseded") || Contains(status, "historical") || Contains(status, "generated-historical")
  }

  predicate HasCategory(row: Row) {
    exists raw :: raw in row.signals && CategoryOf(raw).Some?
  }

  function P0Test(): Row -> bool {
    (row: Row) => IsP0Doc(row)
  }

  function CategoryTest(): Row -> bool {
    (row: Row) => HasCategory(row)
  }

  datatype ExtractionBlocker = NoRows | P0WithoutSignal(count: nat) | ClaimWithoutBasis | HistoricalLeak

  predicate HasBasis(summary: Summary) {
    Mentions(summary, "source") || Mentions(summary, "test")
    || Mentions(summary, "live") || Mentions(summary, "benchmark")
  }

  function P0Docs(rows: seq<Row>): seq<Row> {
    Filter(rows, P0Test())
  }

  /** buildDocSignalExtraction over the parsed rows: its blockers, in order. */
  function ExtractionBlockers(rows: seq<Row>): seq<ExtractionBlocker> {
    var signals := Signals(rows);
    var withSignals := Filter(P0Docs(rows), CategoryTest());
    (if |rows| == 0 then [NoRows] else [])
    + (if |P0Docs(rows)| > |withSignals| then [P0WithoutSignal(|P0Docs(rows)| - |withSignals|)] else [])
    + (if exists s :: s in signals && s.claimAllowed && !HasBasis(s.summary) then [ClaimWithoutBasis] else [])
    + (if exists s :: s in signals && s.promptAllowed && HistoricalStatus(StatusAt(rows, s.sourceDoc))
       then [HistoricalLeak] else [])
  }

  // ----- facts about signals -----

  predicate ComesFrom(s: Signal, rows: seq<Row>) {
    exists row :: row in rows && exists raw :: raw in row.signals && SignalFrom(row, raw) == Some(s)
  }

  lemma {:induction false} RowSignals(row: Row, raw: seq<string>)
    ensures forall s :: s in SignalsFrom(row, raw) <==> exists r :: r in raw && SignalFrom(row, r) == Some(s)
  {
    if raw != [] {
      RowSignals(row, raw[1..]);
      assert raw == [raw[0]] + raw[1..];
    }
  }

  lemma {:induction false} SignalsComeFromRows(rows: seq<Row>)
    ensures forall s :: s in Signals(rows) <==> ComesFrom(s, rows)
  {
    if rows != [] {
      RowSignals(rows[0], rows[0].signals);
      SignalsComeFromRows(rows[1..]);
      assert rows == [rows[0]] + rows[1..];
      forall s ensures s in Signals(rows) <==> ComesFrom(s, rows) {
        assert s in Signals(rows) <==> s in SignalsFrom(rows[0], rows[0].signals) || ComesFrom(s, rows[1..]);
      }
    }
  }

  predicate UniquePaths(rows: seq<Row>) {
    forall i, j :: 0 <= i < j < |rows| ==> rows[i].path != rows[j].path
  }

  /** Rows of one path carry one status. */
  predicate OneStatusPerPath(rows: seq<Row>) {
    forall a, b :: a in rows && b in rows && a.path == b.path ==> a.status == b.status
  }

  lemma {:induction false} StatusOfSome(rows: seq<Row>, row: Row)
    requires row in rows
    ensures exists first :: first in rows && first.path == row.path && StatusAt(rows, row.path) == first.status
  {
    if rows[0].path != row.path {
      StatusOfSome(rows[1..], row);
      var first :| first in rows[1..] && first.path == row.path && StatusAt(rows[1..], row.path) == first.status;
      assert first in rows;
    } else {
      assert rows[0] in rows;
    }
  }

  lemma PromptStatusIsCurrent(status: string)
    requires status in PROMPT_STATUSES
    ensures !HistoricalStatus(status)
  {
    NeverGe(status);
    NeverSu(status);
    NeverHi(status);
    NotContained(status, "superseded");
    NotContained(status, "historical");
    NotContained(status, "generated-historical");
  }

  lemma HighNeedsSignal(status: string, signals: seq<string>, size: nat)
    requires ChooseTransformPotential(status, signals, size) == High
    ensures exists s :: s in signals && s in HIGH_SIGNALS
  {
  }

  lemma HighRowHasCategory(d: Doc, statusOf: StatusOf)
    requires RegistryRow(statusOf)(d).potential == High
    ensures HasCategory(RegistryRow(statusOf)(d))
  {
    HighNeedsSignal(statusOf(d.path), d.signals, d.size);
    var s :| s in d.signals && s in HIGH_SIGNALS;
    assert CategoryOf(s).Some?;
    assert s in RegistryRow(statusOf)(d).signals;
  }

  /** A document whose signals may reach the prompt. */
  predicate FeedsPrompt(row: Row) {
    row.status in PROMPT_STATUSES && "prompt-behavior-discipline" in row.signals
  }

  lemma OnlyPromptDiscipline(raw: string)
    ensures CategoryOf(raw) == Some(PromptDiscipline) <==> raw == "prompt-behavior-discipline"
  {
  }

  lemma PromptSignalsComeFromFeeders(rows: seq<Row>, path: string)
    ensures (exists s :: s in Signals(rows) && s.promptAllowed && s.sourceDoc == path)
            <==> (exists row :: row in rows && row.path == path && FeedsPrompt(row))
  {
    SignalsComeFromRows(rows);
    if row :| row in rows && row.path == path && FeedsPrompt(row) {
      var s := SignalFrom(row, "prompt-behavior-discipline").value;
      assert ComesFrom(s, rows);
    }
    if s :| s in Signals(rows) && s.promptAllowed && s.sourceDoc == path {
      var row :| row in rows && exists raw :: raw in row.signals && SignalFrom(row, raw) == Some(s);
      var raw :| raw in row.signals && SignalFrom(row, raw) == Some(s);
      OnlyPromptDiscipline(raw);
    }
  }

  /** A prompt feeder whose path is first listed under a historical status. */
  predicate Leaks(rows: seq<Row>, row: Row) {
    row in rows && FeedsPrompt(row) && HistoricalStatus(StatusAt(rows, row.path))
  }

  /** Extraction over any rows is unblocked exactly when there are rows, every P0
      document has a signal with a category, and no prompt feeder's path is first
      listed as historical. */
  lemma ExtractionUnblockedIff(rows: seq<Row>)
    ensures ExtractionBlockers(rows) == []
            <==> && rows != []
                 && (forall row :: row in rows && IsP0Doc(row) ==> HasCategory(row))
                 && forall row :: row in rows ==> !Leaks(rows, row)
  {
    P0WithoutSignalIff(rows);
    NoClaims(rows);
    LeakedSignalIff(rows);
  }

  lemma LeakedSignalIff(rows: seq<Row>)
    ensures (exists s :: s in Signals(rows) && s.promptAllowed && HistoricalStatus(StatusAt(rows, s.sourceDoc)))
            <==> exists row :: row in rows && Leaks(rows, row)
  {
    if row :| row in rows && Leaks(rows, row) {
      PromptSignalsComeFromFeeders(rows, row.path);
      var s :| s in Signals(rows) && s.promptAllowed && s.sourceDoc == row.path;
    }
    if s :| s in Signals(rows) && s.promptAllowed && HistoricalStatus(StatusAt(rows, s.sourceDoc)) {
      PromptSignalsComeFromFeeders(rows, s.sourceDoc);
      var row :| row in rows && row.path == s.sourceDoc && FeedsPrompt(row);
      assert Leaks(rows, row);
    }
  }

  lemma P0WithoutSignalIff(rows: seq<Row>)
    ensures |Filter(P0Docs(rows), CategoryTest())| <= |P0Docs(rows)|
    ensures |Filter(P0Docs(rows), CategoryTest())| == |P0Docs(rows)|
            <==> forall row :: row in rows && IsP0Doc(row) ==> HasCategory(row)
  {
    FilterMembers(rows, P0Test());
    FilterLength(P0Docs(rows), CategoryTest());
    assert forall row :: row in P0Docs(rows) <==> row in rows && IsP0Doc(row);
    assert forall row :: CategoryTest()(row) == HasCategory(row);
  }

  lemma NoClaims(rows: seq<Row>)
    ensures forall s :: s in Signals(rows) ==> !s.claimAllowed
  {
    SignalsComeFromRows(rows);
    forall s | s in Signals(rows) ensures !s.claimAllowed {
      assert ComesFrom(s, rows);
    }
  }

  /** A registry the script wrote passes extraction exactly when it is not empty: its
      high rows carry a known signal, and a path has one status. */
  lemma RegistryExtractsIff(docs: seq<Doc>, statusOf: StatusOf)
    ensures ExtractionBlockers(Registry(docs, statusOf)) == [] <==> docs != []
  {
    var rows := Registry(docs, statusOf);
    forall row | row in rows && IsP0Doc(row) ensures HasCategory(row) {
      var i :| 0 <= i < |rows| && rows[i] == row;
      HighRowHasCategory(docs[i], statusOf);
    }
    RegistryHasOneStatus(docs, statusOf);
    OneStatusNeverLeaks(rows);
    ExtractionUnblockedIff(rows);
  }

  lemma RegistryHasOneStatus(docs: seq<Doc>, statusOf: StatusOf)
    ensures OneStatusPerPath(Registry(docs, statusOf))
  {
    var rows := Registry(docs, statusOf);
    forall row | row in rows ensures row.status == statusOf(row.path) {
      var i :| 0 <= i < |rows| && rows[i] == row;
    }
  }

  lemma OneStatusNeverLeaks(rows: seq<Row>)
    requires OneStatusPerPath(rows)
    ensures forall row :: row in rows ==> !Leaks(rows, row)
  {
    forall row | row in rows ensures !Leaks(rows, row) {
      if FeedsPrompt(row) {
        StatusOfSome(rows, row);
        PromptStatusIsCurrent(row.status);
      }
    }
  }

  /** A registry file edited by hand, which the script does not write: one path first as
      a superseded plan and then as a prompt feeder. */
  const EDITED_REGISTRY := [
    Row("docs/a.md", 1, "superseded-plan", LowRisk, NoPotential, [], false, false),
    Row("docs/a.md", 1, "active-reference", No, High, ["prompt-behavior-discipline"], false, false)]

  lemma EditedRegistryBlocks()
    ensures ExtractionBlockers(EDITED_REGISTRY) != []
  {
    var rows := EDITED_REGISTRY;
    assert OccursAt(rows[0].status, "superseded", 0);
    assert rows[1].signals[0] == "prompt-behavior-discipline";
    assert Leaks(rows, rows[1]);
    ExtractionUnblockedIff(rows);
  }

  // ----- the prompt input allowlist -----

  datatype Decision = Decision(path: string, decision: string)

  /** An allowlist item; the five base items carry fixed sentences instead of a
      signal's summary, and those mention no document status. */
  datatype Item = Item(source: string, maxTokens: nat, summary: Option<Summary>)

  datatype Blocked = Blocked(source: string, decision: Option<string>)

  const DEFAULT_BUDGET := 12000

  const BASE_ITEMS := [
    Item("runtime user turn", 2200, None),
    Item("active work-state ledger", 1800, None),
    Item("DSXU V6 active master plan summary", 1800, None),
    Item("current tool-view compiler", 1200, None),
    Item("current verification/recovery envelope", 1200, None)]

  function Allowed(): Signal -> bool {
    (s: Signal) => s.promptAllowed
  }

  function Refused(): Signal -> bool {
    (s: Signal) => !s.promptAllowed
  }

  function SignalItem(): Signal -> Item {
    (s: Signal) => Item(s.sourceDoc, 80, Some(s.summary))
  }

  /** slice(0, n) */
  function Take<T>(xs: seq<T>, n: nat): seq<T> {
    if |xs| <= n then xs else xs[..n]
  }

  function SignalItems(signals: seq<Signal>): seq<Item> {
    MapSeq(Take(Filter(signals, Allowed()), 120), SignalItem())
  }

  function Allowlist(signals: seq<Signal>): seq<Item> {
    BASE_ITEMS + SignalItems(signals)
  }

  function Tokens(): Item -> nat {
    (item: Item) => item.maxTokens
  }

  const BLOCKING_DECISIONS := {"delete-review", "legacy", "evidence-only"}

  function BlockingTest(): Decision -> bool {
    (d: Decision) => d.decision in BLOCKING_DECISIONS
  }

  function DecisionBlocked(): Decision -> Blocked {
    (d: Decision) => Blocked(d.path, Some(d.decision))
  }

  function SignalBlocked(): Signal -> Blocked {
    (s: Signal) => Blocked(s.sourceDoc, None)
  }

  /** blockedItems: what the default prompt may not read, decisions first. Every
      signal is refused here or allowed, never both. */
  method BlockedItems(signals: seq<Signal>, decisions: seq<Decision>) returns (blocked: seq<Blocked>)
    ensures blocked == MapSeq(Filter(decisions, BlockingTest()), DecisionBlocked())
                       + MapSeq(Filter(signals, Refused()), SignalBlocked())
    ensures |blocked| + |Filter(signals, Allowed())| == |Filter(decisions, BlockingTest())| + |signals|
  {
    blocked := [];
    for i := 0 to |decisions|
      invariant blocked == MapSeq(Filter(decisions[..i], BlockingTest()), DecisionBlocked())
    {
      FilterSnoc(decisions, i, BlockingTest());
      if decisions[i].decision in BLOCKING_DECISIONS {
        MapAppend(Filter(decisions[..i], BlockingTest()), [decisions[i]], DecisionBlocked());
        blocked := blocked + [Blocked(decisions[i].path, Some(decisions[i].decision))];
      }
    }
    assert decisions[..|decisions|] == decisions;
    ghost var fromDecisions := blocked;
    for i := 0 to |signals|
      invariant blocked == fromDecisions + MapSeq(Filter(signals[..i], Refused()), SignalBlocked())
    {
      FilterSnoc(signals, i, Refused());
      if !signals[i].promptAllowed {
        MapAppend(Filter(signals[..i], Refused()), [signals[i]], SignalBlocked());
        blocked := blocked + [Blocked(signals[i].sourceDoc, None)];
      }
    }
    assert signals[..|signals|] == signals;
    AllowedOrRefused(signals);
  }

  lemma {:induction false} AllowedOrRefused(signals: seq<Signal>)
    ensures |Filter(signals, Allowed())| + |Filter(signals, Refused())| == |signals|
  {
    if signals != [] {
      AllowedOrRefused(signals[1..]);
    }
  }

  datatype AllowlistBlocker = DeleteReviewLeak(count: nat) | GeneratedHistoricalLeak(count: nat)
                            | SupersededPlanLeak(count: nat) | BudgetExceeded(estimated: nat, limit: nat)
                            | ClaimCarried(count: nat)

  predicate DeleteReviewed(decisions: seq<Decision>, path: string) {
    Decision(path, "delete-review") in decisions
  }

  function DeleteReviewTest(decisions: seq<Decision>): Item -> bool {
    (item: Item) => DeleteReviewed(decisions, item.source)
  }

  function MentionTest(word: string): Item -> bool {
    (item: Item) => item.summary.Some? && Mentions(item.summary.value, word)
  }

  function ClaimTest(): Signal -> bool {
    (s: Signal) => s.promptAllowed && s.claimAllowed
  }

  function EstimatedTokens(signals: seq<Signal>): nat {
    Sum(Allowlist(signals), Tokens())
  }

  function AllowlistBlockers(signals: seq<Signal>, decisions: seq<Decision>, budget: nat): seq<AllowlistBlocker> {
    var items := Allowlist(signals);
    var deleteReview := |Filter(items, DeleteReviewTest(decisions))|;
    var generated := |Filter(items, MentionTest("generated-historical"))|;
    var superseded := |Filter(items, MentionTest("superseded-plan"))|;
    var claims := |Filter(signals, ClaimTest())|;
    (if deleteReview > 0 then [DeleteReviewLeak(deleteReview)] else [])
    + (if generated > 0 then [GeneratedHistoricalLeak(generated)] else [])
    + (if superseded > 0 then [SupersededPlanLeak(superseded)] else [])
    + (if EstimatedTokens(signals) > budget then [BudgetExceeded(EstimatedTokens(signals), budget)] else [])
    + (if claims > 0 then [ClaimCarried(claims)] else [])
  }

  function Min(a: nat, b: nat): nat {
    if a < b then a else b
  }

  lemma {:induction false} SignalTokens(signals: seq<Signal>)
    ensures Sum(MapSeq(signals, SignalItem()), Tokens()) == 80 * |signals|
  {
    if signals != [] {
      SignalTokens(signals[1..]);
      assert MapSeq(signals, SignalItem())[1..] == MapSeq(signals[1..], SignalItem());
    }
  }

  /** Five base items of 8200 tokens, and 80 for each of at most 120 allowed signals. */
  lemma AllowlistTotal(signals: seq<Signal>)
    ensures EstimatedTokens(signals) == 8200 + 80 * Min(|Filter(signals, Allowed())|, 120)
  {
    SumAppend(BASE_ITEMS, SignalItems(signals), Tokens());
    SignalTokens(Take(Filter(signals, Allowed()), 120));
    BaseTokens();
  }

  lemma BaseTokens()
    ensures Sum(BASE_ITEMS, Tokens()) == 8200
  {
    var b := BASE_ITEMS;
    assert Sum(b[4..], Tokens()) == 1200;
    assert b[3..][1..] == b[4..] && Sum(b[3..], Tokens()) == 2400;
    assert b[2..][1..] == b[3..] && Sum(b[2..], Tokens()) == 4200;
    assert b[1..][1..] == b[2..] && Sum(b[1..], Tokens()) == 6000;
  }

  // ----- the allowlist over extracted signals -----

  lemma PromptSummaryIsCurrent(status: string)
    requires status in PROMPT_STATUSES
    ensures !Mentions(Summary("prompt-behavior-discipline", status), "generated-historical")
    ensures !Mentions(Summary("prompt-behavior-discipline", status), "superseded-plan")
  {
    PromptWordIsCurrent("prompt-behavior-discipline");
    PromptWordIsCurrent(status);
  }

  lemma PromptWordIsCurrent(text: string)
    requires text in PROMPT_STATUSES + {"prompt-behavior-discipline"}
    ensures !Contains(Lower(text), "generated-historical") && !Contains(Lower(text), "superseded-plan")
  {
    PromptWordIsLower(text);
    NeverGe(text);
    NeverSu(text);
    NotContained(text, "generated-historical");
    NotContained(text, "superseded-plan");
  }

  lemma NeverGe(text: string)
    requires text in PROMPT_STATUSES + {"prompt-behavior-discipline"}
    ensures NeverAdjacent(text, 'g', 'e')
  {
  }

  lemma NeverSu(text: string)
    requires text in PROMPT_STATUSES + {"prompt-behavior-discipline"}
    ensures NeverAdjacent(text, 's', 'u')
  {
  }

  lemma NeverHi(text: string)
    requires text in PROMPT_STATUSES
    ensures NeverAdjacent(text, 'h', 'i')
  {
  }

  lemma PromptWordIsLower(text: string)
    requires text in PROMPT_STATUSES + {"prompt-behavior-discipline"}
    ensures Lower(text) == text
  {
  }

  lemma AllowedSignals(rows: seq<Row>)
    ensures forall s :: s in Signals(rows) && s.promptAllowed ==>
              s.summary.rawSignal == "prompt-behavior-discipline" && s.summary.status in PROMPT_STATUSES
                  && !s.claimAllowed
  {
    SignalsComeFromRows(rows);
    forall s | s in Signals(rows) && s.promptAllowed
      ensures s.summary.rawSignal == "prompt-behavior-discipline" && s.summary.status in PROMPT_STATUSES
              && !s.claimAllowed
    {
      assert ComesFrom(s, rows);
      var row :| row in rows && exists raw :: raw in row.signals && SignalFrom(row, raw) == Some(s);
      var raw :| raw in row.signals && SignalFrom(row, raw) == Some(s);
      OnlyPromptDiscipline(raw);
    }
  }

  lemma SignalItemSources(signals: seq<Signal>, item: Item)
    ensures item in SignalItems(signals) ==> exists s :: s in signals && s.promptAllowed && item == SignalItem()(s)
    ensures |Filter(signals, Allowed())| <= 120 ==>
              (item in SignalItems(signals) <==> exists s :: s in signals && s.promptAllowed && item == SignalItem()(s))
  {
    var allowed := Filter(signals, Allowed());
    var taken := Take(allowed, 120);
    FilterMembers(signals, Allowed());
    if item in SignalItems(signals) {
      var i :| 0 <= i < |taken| && SignalItem()(taken[i]) == item;
      assert taken[i] in allowed;
    }
    if |allowed| <= 120 {
      if s :| s in signals && s.promptAllowed && item == SignalItem()(s) {
        assert s in allowed;
        var i :| 0 <= i < |allowed| && allowed[i] == s;
        assert SignalItems(signals)[i] == item;
      }
    }
  }

  lemma NoHistoryInItems(rows: seq<Row>)
    ensures Filter(Allowlist(Signals(rows)), MentionTest("generated-historical")) == []
    ensures Filter(Allowlist(Signals(rows)), MentionTest("superseded-plan")) == []
  {
    var items := Allowlist(Signals(rows));
    AllowedSignals(rows);
    forall item | item in items
      ensures !MentionTest("generated-historical")(item) && !MentionTest("superseded-plan")(item)
    {
      if item !in BASE_ITEMS {
        SignalItemSources(Signals(rows), item);
        var s :| s in Signals(rows) && s.promptAllowed && item == SignalItem()(s);
        PromptSummaryIsCurrent(s.summary.status);
      }
    }
    FilterLength(items, MentionTest("generated-historical"));
    FilterLength(items, MentionTest("superseded-plan"));
  }

  /** Over any extracted signals only two blockers can arise: the budget, and a
      delete-reviewed path among the sources. */
  lemma AllowlistUnblockedIff(rows: seq<Row>, decisions: seq<Decision>, budget: nat)
    ensures AllowlistBlockers(Signals(rows), decisions, budget) == []
            <==> 8200 + 80 * Min(|Filter(Signals(rows), Allowed())|, 120) <= budget
                 && forall item :: item in Allowlist(Signals(rows)) ==> !DeleteReviewed(decisions, item.source)
  {
    var signals := Signals(rows);
    AllowlistTotal(signals);
    NoHistoryInItems(rows);
    AllowedSignals(rows);
    FilterLength(signals, ClaimTest());
    assert Filter(signals, ClaimTest()) == [];
    FilterLength(Allowlist(signals), DeleteReviewTest(decisions));
    assert |Filter(Allowlist(signals), DeleteReviewTest(decisions))| == 0
        <==> forall item :: item in Allowlist(signals) ==> !DeleteReviewed(decisions, item.source);
  }

  predicate BaseSourcesKept(decisions: seq<Decision>) {
    forall item :: item in BASE_ITEMS ==> !DeleteReviewed(decisions, item.source)
  }

  /** At the default budget the allowlist passes exactly when there are at most 47
      allowed signals and no source, fixed or document, is up for delete review. */
  lemma DefaultAllowlistPassesIff(rows: seq<Row>, decisions: seq<Decision>)
    ensures AllowlistBlockers(Signals(rows), decisions, DEFAULT_BUDGET) == []
            <==> |Filter(Signals(rows), Allowed())| <= 47
                 && BaseSourcesKept(decisions)
                 && forall row :: row in rows && FeedsPrompt(row) ==> !DeleteReviewed(decisions, row.path)
  {
    var signals := Signals(rows);
    AllowlistUnblockedIff(rows, decisions, DEFAULT_BUDGET);
    if |Filter(signals, Allowed())| <= 47 {
      ItemsAreFeeders(rows, decisions);
    }
  }

  lemma ItemsAreFeeders(rows: seq<Row>, decisions: seq<Decision>)
    requires |Filter(Signals(rows), Allowed())| <= 120
    ensures (forall item :: item in Allowlist(Signals(rows)) ==> !DeleteReviewed(decisions, item.source))
            <==> BaseSourcesKept(decisions)
                 && forall row :: row in rows && FeedsPrompt(row) ==> !DeleteReviewed(decisions, row.path)
  {
    var signals := Signals(rows);
    var items := Allowlist(signals);
    if item :| item in items && DeleteReviewed(decisions, item.source) {
      if item !in BASE_ITEMS {
        SignalItemSources(signals, item);
        var s :| s in signals && s.promptAllowed && item == SignalItem()(s);
        PromptSignalsComeFromFeeders(rows, s.sourceDoc);
        var row :| row in rows && row.path == s.sourceDoc && FeedsPrompt(row);
        assert DeleteReviewed(decisions, row.path);
      }
    }
    if row :| row in rows && FeedsPrompt(row) && DeleteReviewed(decisions, row.path) {
      PromptSignalsComeFromFeeders(rows, row.path);
      var s :| s in signals && s.promptAllowed && s.sourceDoc == row.path;
      SignalItemSources(signals, SignalItem()(s));
      assert SignalItem()(s) in items;
    }
    if item :| item in BASE_ITEMS && DeleteReviewed(decisions, item.source) {
      assert item in items;
    }
  }

  function FeedsTest(): Row -> bool {
    (row: Row) => FeedsPrompt(row)
  }

  /** With each signal named once per document, as the detector's set gives them,
      the allowed signals number the feeding documents. */
  lemma {:induction false} AllowedSignalsCountFeeders(rows: seq<Row>)
    requires forall row :: row in rows ==> NoDuplicates(row.signals)
    ensures |Filter(Signals(rows), Allowed())| == |Filter(rows, FeedsTest())|
  {
    if rows != [] {
      AllowedSignalsCountFeeders(rows[1..]);
      FilterAppend(SignalsFrom(rows[0], rows[0].signals), Signals(rows[1..]), Allowed());
      assert rows[0] in rows;
      OneAllowedPerRow(rows[0], rows[0].signals);
    }
  }

  lemma {:induction false} OneAllowedPerRow(row: Row, raw: seq<string>)
    requires NoDuplicates(raw)
    ensures |Filter(SignalsFrom(row, raw), Allowed())|
            == if row.status in PROMPT_STATUSES && "prompt-behavior-discipline" in raw then 1 else 0
  {
    if raw != [] {
      var rest := raw[1..];
      assert NoDuplicates(rest) by {
        forall i, j | 0 <= i < j < |rest| ensures rest[i] != rest[j] {
          assert rest[i] == raw[i + 1] && rest[j] == raw[j + 1];
        }
      }
      OneAllowedPerRow(row, rest);
      OnlyPromptDiscipline(raw[0]);
      assert raw[0] !in rest;
      assert raw == [raw[0]] + rest;
      var first := match SignalFrom(row, raw[0]) case Some(s) => [s] case None => [];
      FilterAppend(first, SignalsFrom(row, rest), Allowed());
    }
  }

  // ----- the archive watchlist -----

  /** activeStatus */
  const WATCH_EXEMPT :=
      {"active-master-plan", "active-v6-evidence", "active-public-doc", "active-reference", "active-registry-source"}

  datatype Action = ArchiveReview | KeepGovernanceEvidence | RegenerableObserve | Observe

  datatype Watched = Watched(path: string, status: string, deleteSafety: DeleteSafety, action: Action, deleteNow: bool,
                             extractedSignalCount: nat, claimRisk: bool, releaseRisk: bool)

  function ActionFor(row: Row, extracted: nat): Action {
    if row.claimRisk || row.releaseRisk then KeepGovernanceEvidence
    else if row.deleteSafety == RegenerableOnly then RegenerableObserve
    else if extracted > 0 && row.deleteSafety != No then ArchiveReview
    else Observe
  }

  function SourceOf(): Signal -> string {
    (s: Signal) => s.sourceDoc
  }

  function SignalCounts(signals: seq<Signal>): Counts {
    Tallied(MapSeq(signals, SourceOf()))
  }

  function WatchedTest(): Row -> bool {
    (row: Row) => row.status !in WATCH_EXEMPT
  }

  function WatchRow(counts: Counts): Row -> Watched {
    (row: Row) =>
      Watched(row.path, row.status, row.deleteSafety, ActionFor(row, Get(counts, row.path)), false,
              Get(counts, row.path), row.claimRisk, row.releaseRisk)
  }

  function Watchlist(rows: seq<Row>, signals: seq<Signal>): seq<Watched> {
    MapSeq(Filter(rows, WatchedTest()), WatchRow(SignalCounts(signals)))
  }

  datatype WatchBlocker = DeletesFiles | ActiveRows(count: nat) | ReviewWithoutSignal

  function ActiveTest(): Watched -> bool {
    (w: Watched) => w.status in WATCH_EXEMPT
  }

  function WatchBlockers(watched: seq<Watched>): seq<WatchBlocker> {
    var active := |Filter(watched, ActiveTest())|;
    (if exists w :: w in watched && w.deleteNow then [DeletesFiles] else [])
    + (if active > 0 then [ActiveRows(active)] else [])
    + (if exists w :: w in watched && w.action == ArchiveReview && w.extractedSignalCount == 0
       then [ReviewWithoutSignal] else [])
  }

  lemma WatchedRows(rows: seq<Row>, signals: seq<Signal>, w: Watched)
    ensures w in Watchlist(rows, signals)
            <==> exists row :: row in rows && row.status !in WATCH_EXEMPT && w == WatchRow(SignalCounts(signals))(row)
  {
    var kept := Filter(rows, WatchedTest());
    FilterMembers(rows, WatchedTest());
    if w in Watchlist(rows, signals) {
      var i :| 0 <= i < |kept| && WatchRow(SignalCounts(signals))(kept[i]) == w;
      assert kept[i] in kept;
    }
    if row :| row in rows && row.status !in WATCH_EXEMPT && w == WatchRow(SignalCounts(signals))(row) {
      assert row in kept;
      var i :| 0 <= i < |kept| && kept[i] == row;
      assert Watchlist(rows, signals)[i] == w;
    }
  }

  /** Whatever registry and signals it is given, the watchlist never blocks. */
  lemma WatchlistNeverBlocks(rows: seq<Row>, signals: seq<Signal>)
    ensures WatchBlockers(Watchlist(rows, signals)) == []
  {
    var watched := Watchlist(rows, signals);
    forall w | w in watched
      ensures w.status !in WATCH_EXEMPT && !w.deleteNow && (w.action == ArchiveReview ==> w.extractedSignalCount > 0)
    {
      WatchedRows(rows, signals, w);
    }
    FilterLength(watched, ActiveTest());
  }

  /** Where a path has one status, as in every registry the script writes, no document
      feeds an allowlist item and is watched too. */
  lemma PromptSourcesAreNotWatched(rows: seq<Row>, signals: seq<Signal>, item: Item, w: Watched)
    requires OneStatusPerPath(rows) && signals == Signals(rows)
    requires item in SignalItems(signals) && w in Watchlist(rows, signals)
    ensures item.source != w.path
  {
    SignalItemSources(signals, item);
    var s :| s in signals && s.promptAllowed && item == SignalItem()(s);
    PromptSignalsComeFromFeeders(rows, s.sourceDoc);
    var feeder :| feeder in rows && feeder.path == s.sourceDoc && FeedsPrompt(feeder);
    WatchedRows(rows, signals, w);
    var row :| row in rows && row.status !in WATCH_EXEMPT && w == WatchRow(SignalCounts(signals))(row);
    PromptStatusIsExempt(feeder.status);
  }

  lemma PromptStatusIsExempt(status: string)
    requires status in PROMPT_STATUSES
    ensures status in WATCH_EXEMPT
  {
  }

  lemma SameRow(rows: seq<Row>, a: Row, b: Row)
    requires UniquePaths(rows) && a in rows && b in rows && a.path == b.path
    ensures a == b
  {
    var i :| 0 <= i < |rows| && rows[i] == a;
    var j :| 0 <= j < |rows| && rows[j] == b;
  }

  lemma {:induction false} CountIsPositive(signals: seq<Signal>, path: string)
    ensures Get(SignalCounts(signals), path) > 0 <==> exists s :: s in signals && s.sourceDoc == path
  {
    var paths := MapSeq(signals, SourceOf());
    TalliedIsMultiplicity(paths);
    assert multiset(paths)[path] > 0 <==> path in paths;
    if path in paths {
      var i :| 0 <= i < |paths| && paths[i] == path;
      assert signals[i] in signals && signals[i].sourceDoc == path;
    }
    if s :| s in signals && s.sourceDoc == path {
      var i :| 0 <= i < |signals| && signals[i] == s;
      assert paths[i] == path;
    }
  }

  /** With one row per path, a row's extracted count is positive exactly when one
      of its own signals has a category. */
  lemma CountedIff(rows: seq<Row>, row: Row)
    requires UniquePaths(rows) && row in rows
    ensures Get(SignalCounts(Signals(rows)), row.path) > 0 <==> HasCategory(row)
  {
    var signals := Signals(rows);
    CountIsPositive(signals, row.path);
    SignalsComeFromRows(rows);
    if HasCategory(row) {
      var raw :| raw in row.signals && CategoryOf(raw).Some?;
      var s := SignalFrom(row, raw).value;
      assert ComesFrom(s, rows) && s.sourceDoc == row.path;
    }
    if s :| s in signals && s.sourceDoc == row.path {
      assert ComesFrom(s, rows);
      var from :| from in rows && exists raw :: raw in from.signals && SignalFrom(from, raw) == Some(s);
      SameRow(rows, from, row);
      assert HasCategory(row);
    }
  }

  /** The registry calls a document undeletable exactly when the watchlist calls it
      active: two lists, in two scripts, that name the same statuses. */
  lemma UndeletableIffActive(d: Doc, statusOf: StatusOf)
    ensures RegistryRow(statusOf)(d).deleteSafety == No <==> statusOf(d.path) in WATCH_EXEMPT
  {
    var status := statusOf(d.path);
    if status in KEPT_STATUSES {
      KeptIsExempt(status);
    } else if status in WATCH_EXEMPT {
      ExemptIsKept(status);
    }
  }

  lemma KeptIsExempt(status: string)
    requires status in KEPT_STATUSES
    ensures status in WATCH_EXEMPT
  {
  }

  lemma ExemptIsKept(status: string)
    requires status in WATCH_EXEMPT
    ensures status in KEPT_STATUSES
  {
  }

  /** So a watched row is merely observed only when it carries no risk, cannot be
      regenerated and gave no signal. */
  lemma ObservedIff(docs: seq<Doc>, statusOf: StatusOf, row: Row)
    requires row in Registry(docs, statusOf) && UniquePaths(Registry(docs, statusOf)) && row.status !in WATCH_EXEMPT
    ensures WatchRow(SignalCounts(Signals(Registry(docs, statusOf))))(row).action == Observe
            <==> !row.claimRisk && !row.releaseRisk && row.deleteSafety != RegenerableOnly && !HasCategory(row)
  {
    var rows := Registry(docs, statusOf);
    CountedIff(rows, row);
    var i :| 0 <= i < |rows| && rows[i] == row;
    UndeletableIffActive(docs[i], statusOf);
    assert rows[i] == RegistryRow(statusOf)(docs[i]);
  }

  lemma ArchiveStatusIsNotActive(status: string)
    requires status in ARCHIVE_STATUSES
    ensures status !in WATCH_EXEMPT
  {
  }

  lemma ArchivedSignalSource(rows: seq<Row>, s: Signal) returns (row: Row)
    requires s in Signals(rows) && s.archiveAfterExtraction
    ensures row in rows && row.path == s.sourceDoc && row.status in ARCHIVE_STATUSES && row.deleteSafety != No
  {
    SignalsComeFromRows(rows);
    assert ComesFrom(s, rows);
    row :| row in rows && exists raw :: raw in row.signals && SignalFrom(row, raw) == Some(s);
  }

  /** A signal marked for archiving after extraction has its document on the
      watchlist, and not merely observed. */
  lemma ArchivedSignalsAreActedOn(rows: seq<Row>, s: Signal)
    requires s in Signals(rows) && s.archiveAfterExtraction
    ensures exists w :: w in Watchlist(rows, Signals(rows)) && w.path == s.sourceDoc && w.action != Observe
  {
    var row := ArchivedSignalSource(rows, s);
    var w := WatchRow(SignalCounts(Signals(rows)))(row);
    ArchiveStatusIsNotActive(row.status);
    WatchedRows(rows, Signals(rows), w);
    CountIsPositive(Signals(rows), row.path);
    assert w.path == s.sourceDoc && w.action != Observe;
  }
}
