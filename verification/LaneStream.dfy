/** parseStreamJson: the state machine that reads a lane's stream-json output and
    attributes tool results to tool calls, and evaluateToolBudgets on its counts. */
module LaneStream {
  import opened Collections
  import opened Counters
  import opened JsonModel
  import opened Text

  /** The text tests and printers the parser calls, taken as given: every result
      below holds for any choice of them. */
  datatype Tests = Tests(
    tryJson: string -> Option<seq<(string, Json)>>,
    render: Json -> string,
    looksLikeError: string -> bool,
    namesUnavailableTool: string -> bool,
    namesVisibilityGate: string -> bool,
    namesBudgetGate: string -> bool,
    namesError: string -> bool,
    roundedPct: (real, real) -> Num)

  datatype ErrorClass = NoClass | UnavailableTool | ExecutionVisibility | ToolBudget | OtherToolError {
    predicate Blocks() { UnavailableTool? || ExecutionVisibility? || ToolBudget? }
  }

  /** One line of the tool trace. */
  datatype TraceEntry =
    | ToolUse(source: string, id: Option<Json>, name: string)
    | ToolResult(source: string, toolUseId: Option<Json>, isError: bool, errorClass: ErrorClass, contentChars: nat)

  datatype Stream = Stream(
    resultEventSeen: bool, resultText: string, cost: Num, inputTokens: real, cacheReadTokens: real,
    toolResultChars: nat, failureEvents: nat,
    unavailable: nat, visibilityBlocked: nat, budgetBlocked: nat,
    trace: seq<TraceEntry>, attempted: Counts, executed: Counts, nameById: map<string, string>)

  const INITIAL := Stream(false, "", Fin(0.0), 0.0, 0.0, 0, 0, 0, 0, 0, [], [], [], map[])

  // ----- reading one content block -----

  function Stringify(t: Tests, content: Option<Json>, fallback: Option<Json>): string {
    if content.Some? then (if content.value.JStr? then content.value.text else t.render(content.value))
    else if fallback.Some? then (if fallback.value.JStr? then fallback.value.text else t.render(fallback.value))
    else ""
  }

  predicate LooksLikeToolResultError(t: Tests, value: Option<Json>) {
    value.Some? && value.value.JStr? && t.looksLikeError(value.value.text)
  }

  function ClassifyToolResultError(t: Tests, content: string, fallback: Option<Json>): ErrorClass {
    var text := content + "\n" + Stringify(t, None, fallback);
    if t.namesUnavailableTool(text) then UnavailableTool
    else if t.namesVisibilityGate(text) then ExecutionVisibility
    else if t.namesBudgetGate(text) then ToolBudget
    else if t.namesError(text) then OtherToolError
    else NoClass
  }

  function UseEntry(source: string, block: seq<(string, Json)>): Option<TraceEntry> {
    match (Lookup(block, "type"), Lookup(block, "name"))
    case (Some(JStr(kind)), Some(JStr(name))) =>
      if kind == "tool_use" then Some(ToolUse(source, Lookup(block, "id"), name)) else None
    case _ => None
  }

  function ResultEntry(t: Tests, source: string, extra: Option<Json>, block: seq<(string, Json)>): Option<TraceEntry> {
    if Lookup(block, "type") != Some(JStr("tool_result")) then None
    else
      var text := Stringify(t, Lookup(block, "content"), extra);
      var isError := IsTrue(Lookup(block, "is_error")) || LooksLikeToolResultError(t, extra);
      var errorClass := if isError then ClassifyToolResultError(t, text, extra) else NoClass;
      Some(ToolResult(source, Lookup(block, "tool_use_id"), isError, errorClass, |text|))
  }

  function BlockEntry(t: Tests, source: string, extra: Option<Json>, block: Json): Option<TraceEntry> {
    if !block.JObj? then None
    else if UseEntry(source, block.fields).Some? then UseEntry(source, block.fields)
    else ResultEntry(t, source, extra, block.fields)
  }

  // ----- the effect of a trace entry on the counters -----

  function ExecutedName(s: Stream, e: TraceEntry): Option<string> {
    if e.ToolResult? && !e.errorClass.Blocks() && e.toolUseId.Some? && e.toolUseId.value.JStr?
       && e.toolUseId.value.text in s.nameById && s.nameById[e.toolUseId.value.text] != ""
    then Some(s.nameById[e.toolUseId.value.text])
    else None
  }

  function Record(s: Stream, e: TraceEntry): Stream {
    match e
    case ToolUse(_, id, name) =>
      s.(trace := s.trace + [e],
         attempted := Bump(s.attempted, name),
         nameById := if id.Some? && id.value.JStr? then s.nameById[id.value.text := name] else s.nameById)
    case ToolResult(_, _, isError, errorClass, chars) =>
      s.(trace := s.trace + [e],
         toolResultChars := s.toolResultChars + chars,
         failureEvents := s.failureEvents + (if isError then 1 else 0),
         unavailable := s.unavailable + (if errorClass == UnavailableTool then 1 else 0),
         visibilityBlocked := s.visibilityBlocked + (if errorClass == ExecutionVisibility then 1 else 0),
         budgetBlocked := s.budgetBlocked + (if errorClass == ToolBudget then 1 else 0),
         executed := match ExecutedName(s, e) case Some(name) => Bump(s.executed, name) case None => s.executed)
  }

  function StepBlocks(t: Tests, source: string, extra: Option<Json>, s: Stream, blocks: seq<Json>): Stream {
    if blocks == [] then s
    else
      var before := StepBlocks(t, source, extra, s, blocks[..|blocks| - 1]);
      match BlockEntry(t, source, extra, blocks[|blocks| - 1])
      case Some(e) => Record(before, e)
      case None => before
  }

  function ReadResultEvent(s: Stream, event: seq<(string, Json)>): Stream {
    var usage := Lookup(event, "usage");
    s.(resultEventSeen := true,
       resultText := match Lookup(event, "result") case Some(JStr(text)) => text case _ => s.resultText,
       cost := match Lookup(event, "total_cost_usd") case Some(JNum(n)) => n case _ => s.cost,
       inputTokens := s.inputTokens + NumberValue(Member(usage, "input_tokens")).GetOr(0.0),
       cacheReadTokens := s.cacheReadTokens + NumberValue(Member(usage, "cache_read_input_tokens")).GetOr(0.0))
  }

  function Content(event: seq<(string, Json)>): seq<Json> {
    match Member(Lookup(event, "message"), "content")
    case Some(JArr(items)) => items
    case _ => []
  }

  function StepEvent(t: Tests, s: Stream, event: seq<(string, Json)>): Stream {
    match Lookup(event, "type")
    case Some(JStr(kind)) =>
      if kind == "result" then ReadResultEvent(s, event)
      else if kind == "assistant" || kind == "user"
      then StepBlocks(t, kind, Lookup(event, "tool_use_result"), s, Content(event))
      else s
    case _ => s
  }

  function StepLine(t: Tests, s: Stream, line: string): Stream {
    if IsBlank(line) then s
    else match t.tryJson(line)
      case Some(event) => StepEvent(t, s, event)
      case None => s
  }

  function FoldLines(t: Tests, lines: seq<string>): Stream {
    if lines == [] then INITIAL
    else StepLine(t, FoldLines(t, lines[..|lines| - 1]), lines[|lines| - 1])
  }

  // ----- the parser, as the loops that update its counters -----

  datatype Parsed = Parsed(
    resultEventSeen: bool, resultText: string, costUsd: Num, cacheHitRatePct: Num, trace: seq<TraceEntry>,
    toolUseCounts: Counts, executedToolUseCounts: Counts, toolResultChars: nat, failureEventCount: nat,
    unavailableToolUseCount: nat, executionVisibilityBlockedCount: nat, toolBudgetBlockedCount: nat)

  function Finish(t: Tests, s: Stream): Parsed {
    Parsed(s.resultEventSeen, s.resultText, s.cost,
           if s.inputTokens > 0.0 then t.roundedPct(s.cacheReadTokens, s.inputTokens) else Fin(0.0),
           s.trace, s.attempted, s.executed, s.toolResultChars, s.failureEvents,
           s.unavailable, s.visibilityBlocked, s.budgetBlocked)
  }

  function ParseStream(t: Tests, stdout: string): Parsed {
    Finish(t, FoldLines(t, SplitLines(stdout)))
  }

  method ParseStreamJson(t: Tests, stdout: string) returns (parsed: Parsed)
    ensures parsed == ParseStream(t, stdout)
  {
    var s := INITIAL;
    var lines := SplitLines(stdout);
    for i := 0 to |lines|
      invariant s == FoldLines(t, lines[..i])
    {
      assert lines[..i + 1][..i] == lines[..i];
      if IsBlank(lines[i]) { continue; }
      var parsedLine := t.tryJson(lines[i]);
      if parsedLine.None? { continue; }
      var event := parsedLine.value;
      var kind := Lookup(event, "type");
      if kind == Some(JStr("result")) {
        s := ReadResult(s, event);
      }
      if kind == Some(JStr("assistant")) || kind == Some(JStr("user")) {
        s := ReadBlocks(t, kind.value.text, Lookup(event, "tool_use_result"), s, Content(event));
      }
    }
    assert lines[..|lines|] == lines;
    parsed := Finish(t, s);
  }

  method ReadResult(before: Stream, event: seq<(string, Json)>) returns (s: Stream)
    ensures s == ReadResultEvent(before, event)
  {
    var resultText, cost := before.resultText, before.cost;
    match Lookup(event, "result") {
      case Some(JStr(text)) => resultText := text;
      case _ =>
    }
    match Lookup(event, "total_cost_usd") {
      case Some(JNum(n)) => cost := n;
      case _ =>
    }
    var usage := Lookup(event, "usage");
    var inputTokens := before.inputTokens + NumberValue(Member(usage, "input_tokens")).GetOr(0.0);
    var cacheReadTokens := before.cacheReadTokens + NumberValue(Member(usage, "cache_read_input_tokens")).GetOr(0.0);
    s := before.(resultEventSeen := true, resultText := resultText, cost := cost,
                 inputTokens := inputTokens, cacheReadTokens := cacheReadTokens);
  }

  /** The inner loop, over the content blocks of one message. */
  method ReadBlocks(t: Tests, source: string, extra: Option<Json>, before: Stream, content: seq<Json>)
    returns (s: Stream)
    ensures s == StepBlocks(t, source, extra, before, content)
  {
    s := before;
    for j := 0 to |content|
      invariant s == StepBlocks(t, source, extra, before, content[..j])
    {
      assert content[..j + 1][..j] == content[..j];
      if !content[j].JObj? { continue; }
      var block := content[j].fields;
      var use := UseEntry(source, block);
      if use.Some? {
        s := s.(attempted := Bump(s.attempted, use.value.name));
        if use.value.id.Some? && use.value.id.value.JStr? {
          s := s.(nameById := s.nameById[use.value.id.value.text := use.value.name]);
        }
        s := s.(trace := s.trace + [use.value]);
      }
      if Lookup(block, "type") == Some(JStr("tool_result")) {
        s := ReadToolResult(t, source, extra, s, block);
      }
    }
    assert content[..|content|] == content;
  }

  method ReadToolResult(t: Tests, source: string, extra: Option<Json>, before: Stream, block: seq<(string, Json)>)
    returns (s: Stream)
    requires Lookup(block, "type") == Some(JStr("tool_result"))
    ensures s == Record(before, ResultEntry(t, source, extra, block).value)
  {
    var text := Stringify(t, Lookup(block, "content"), extra);
    var isError := IsTrue(Lookup(block, "is_error")) || LooksLikeToolResultError(t, extra);
    var errorClass := if isError then ClassifyToolResultError(t, text, extra) else NoClass;
    var unavailable, visibilityBlocked, budgetBlocked :=
        before.unavailable, before.visibilityBlocked, before.budgetBlocked;
    if errorClass == UnavailableTool { unavailable := unavailable + 1; }
    if errorClass == ExecutionVisibility { visibilityBlocked := visibilityBlocked + 1; }
    if errorClass == ToolBudget { budgetBlocked := budgetBlocked + 1; }
    var id, executed := Lookup(block, "tool_use_id"), before.executed;
    if id.Some? && id.value.JStr? && !errorClass.Blocks() && id.value.text in before.nameById {
      var name := before.nameById[id.value.text];
      if name != "" { executed := Bump(executed, name); }
    }
    var failureEvents := before.failureEvents;
    if isError { failureEvents := failureEvents + 1; }
    s := before.(
      toolResultChars := before.toolResultChars + |text|, failureEvents := failureEvents,
      unavailable := unavailable, visibilityBlocked := visibilityBlocked, budgetBlocked := budgetBlocked,
      executed := executed, trace := before.trace + [ToolResult(source, id, isError, errorClass, |text|)]);
  }

  // ----- an audit of the counters that reads only the trace -----

  /** The name given by the last tool_use with this id. */
  function LastUse(trace: seq<TraceEntry>, id: string): Option<string> {
    if trace == [] then None
    else
      var last := trace[|trace| - 1];
      if last.ToolUse? && last.id == Some(JStr(id)) then Some(last.name)
      else LastUse(trace[..|trace| - 1], id)
  }

  /** The tool an executed result counts for: the last use of its id before it. */
  function AttributedTo(before: seq<TraceEntry>, e: TraceEntry): Option<string> {
    if e.ToolResult? && !e.errorClass.Blocks() && e.toolUseId.Some? && e.toolUseId.value.JStr?
       && LastUse(before, e.toolUseId.value.text) != Some("")
    then LastUse(before, e.toolUseId.value.text)
    else None
  }

  function One(b: bool): nat { if b then 1 else 0 }

  // Each weight says what one trace entry contributes to a counter.
  function IsResult(): TraceEntry -> nat { (e: TraceEntry) => One(e.ToolResult?) }
  function IsErrorResult(): TraceEntry -> nat { (e: TraceEntry) => One(e.ToolResult? && e.isError) }
  function IsResultOf(c: ErrorClass): TraceEntry -> nat { (e: TraceEntry) => One(e.ToolResult? && e.errorClass == c) }
  function IsUseOf(name: string): TraceEntry -> nat { (e: TraceEntry) => One(e.ToolUse? && e.name == name) }
  function CharsOf(): TraceEntry -> nat { (e: TraceEntry) => if e.ToolResult? then e.contentChars else 0 }

  function ExecutionsOf(trace: seq<TraceEntry>, name: string): nat {
    if trace == [] then 0
    else
      var front := trace[..|trace| - 1];
      ExecutionsOf(front, name) + (if AttributedTo(front, trace[|trace| - 1]) == Some(name) then 1 else 0)
  }

  /** Results that were not blocked but belong to no known, named tool use. */
  function Unattributed(trace: seq<TraceEntry>): nat {
    if trace == [] then 0
    else
      var front, last := trace[..|trace| - 1], trace[|trace| - 1];
      Unattributed(front)
      + (if last.ToolResult? && !last.errorClass.Blocks() && AttributedTo(front, last) == None then 1 else 0)
  }

  /** The id table is the last-use function of the trace. */
  ghost predicate NamesAudited(s: Stream) {
    forall id :: (id in s.nameById <==> LastUse(s.trace, id).Some?)
              && (id in s.nameById ==> LastUse(s.trace, id) == Some(s.nameById[id]))
  }

  /** Every counter is a sum over the trace. */
  ghost predicate CountersAudited(s: Stream) {
    && s.unavailable == Sum(s.trace, IsResultOf(UnavailableTool))
    && s.visibilityBlocked == Sum(s.trace, IsResultOf(ExecutionVisibility))
    && s.budgetBlocked == Sum(s.trace, IsResultOf(ToolBudget))
    && s.failureEvents == Sum(s.trace, IsErrorResult())
    && s.toolResultChars == Sum(s.trace, CharsOf())
    && (forall e :: e in s.trace ==> WellClassed(e))
  }

  ghost predicate UsesAudited(s: Stream) {
    && (forall name :: Get(s.attempted, name) == Sum(s.trace, IsUseOf(name)))
    && (forall name :: Get(s.executed, name) == ExecutionsOf(s.trace, name))
  }

  /** No tool result is lost or counted twice. */
  ghost predicate Conserved(s: Stream) {
    Sum(s.trace, IsResult())
      == Total(s.executed) + s.unavailable + s.visibilityBlocked + s.budgetBlocked + Unattributed(s.trace)
  }

  ghost predicate Audited(s: Stream) {
    NamesAudited(s) && CountersAudited(s) && UsesAudited(s) && Conserved(s)
  }

  predicate WellClassed(e: TraceEntry) {
    e.ToolResult? && !e.isError ==> e.errorClass == NoClass
  }

  lemma SumSnoc(trace: seq<TraceEntry>, e: TraceEntry, f: TraceEntry -> nat)
    ensures Sum(trace + [e], f) == Sum(trace, f) + f(e)
  {
    SumAppend(trace, [e], f);
    assert [e][1..] == [];
  }

  lemma TraceGrows(s: Stream, e: TraceEntry)
    ensures Record(s, e).trace == s.trace + [e]
    ensures (s.trace + [e])[..|s.trace|] == s.trace
  {
  }

  lemma AuditNames(s: Stream, e: TraceEntry)
    requires NamesAudited(s)
    ensures NamesAudited(Record(s, e))
    ensures ExecutedName(s, e) == AttributedTo(s.trace, e)
  {
    TraceGrows(s, e);
  }

  lemma AuditCounters(s: Stream, e: TraceEntry)
    requires CountersAudited(s) && WellClassed(e)
    ensures CountersAudited(Record(s, e))
  {
    SumSnoc(s.trace, e, IsErrorResult());
    SumSnoc(s.trace, e, IsResultOf(UnavailableTool));
    SumSnoc(s.trace, e, IsResultOf(ExecutionVisibility));
    SumSnoc(s.trace, e, IsResultOf(ToolBudget));
    SumSnoc(s.trace, e, CharsOf());
  }

  lemma AuditUses(s: Stream, e: TraceEntry)
    requires UsesAudited(s) && ExecutedName(s, e) == AttributedTo(s.trace, e)
    ensures UsesAudited(Record(s, e))
  {
    TraceGrows(s, e);
    var r := Record(s, e);
    forall name
      ensures Get(r.attempted, name) == Sum(r.trace, IsUseOf(name))
      ensures Get(r.executed, name) == ExecutionsOf(r.trace, name)
    {
      SumSnoc(s.trace, e, IsUseOf(name));
      if e.ToolUse? {
        BumpEffect(s.attempted, e.name);
      } else if ExecutedName(s, e).Some? {
        BumpEffect(s.executed, ExecutedName(s, e).value);
      }
    }
  }

  lemma AuditConservation(s: Stream, e: TraceEntry)
    requires Conserved(s) && ExecutedName(s, e) == AttributedTo(s.trace, e)
    ensures Conserved(Record(s, e))
  {
    TraceGrows(s, e);
    SumSnoc(s.trace, e, IsResult());
    if ExecutedName(s, e).Some? {
      BumpEffect(s.executed, ExecutedName(s, e).value);
    }
  }

  lemma AuditStep(s: Stream, e: TraceEntry)
    requires Audited(s) && WellClassed(e)
    ensures Audited(Record(s, e))
  {
    AuditNames(s, e);
    AuditCounters(s, e);
    AuditUses(s, e);
    AuditConservation(s, e);
  }

  lemma {:induction false} AuditBlocks(t: Tests, source: string, extra: Option<Json>, s: Stream, blocks: seq<Json>)
    requires Audited(s)
    ensures Audited(StepBlocks(t, source, extra, s, blocks))
  {
    if blocks != [] {
      AuditBlocks(t, source, extra, s, blocks[..|blocks| - 1]);
      match BlockEntry(t, source, extra, blocks[|blocks| - 1]) {
        case Some(e) =>
          AuditStep(StepBlocks(t, source, extra, s, blocks[..|blocks| - 1]), e);
        case None =>
      }
    }
  }

  /** Conservation over every run: after any event stream the counters are the
      ones the trace alone determines, and every tool result is accounted for. */
  lemma {:induction false} EveryStreamIsAudited(t: Tests, lines: seq<string>)
    ensures Audited(FoldLines(t, lines))
  {
    if lines != [] {
      var s, line := FoldLines(t, lines[..|lines| - 1]), lines[|lines| - 1];
      EveryStreamIsAudited(t, lines[..|lines| - 1]);
      if !IsBlank(line) && t.tryJson(line).Some? {
        var event := t.tryJson(line).value;
        match Lookup(event, "type") {
          case Some(JStr(kind)) =>
            if kind == "assistant" || kind == "user" {
              AuditBlocks(t, kind, Lookup(event, "tool_use_result"), s, Content(event));
            }
          case _ =>
        }
      }
    }
  }

  // ----- the trace is the input -----

  function BlockEntries(t: Tests, source: string, extra: Option<Json>, blocks: seq<Json>): seq<TraceEntry> {
    if blocks == [] then []
    else
      BlockEntries(t, source, extra, blocks[..|blocks| - 1])
      + (match BlockEntry(t, source, extra, blocks[|blocks| - 1]) case Some(e) => [e] case None => [])
  }

  /** The tool_use and tool_result blocks of one line, whatever the state. */
  function LineEntries(t: Tests, line: string): seq<TraceEntry> {
    if IsBlank(line) || t.tryJson(line) == None then []
    else
      var event := t.tryJson(line).value;
      match Lookup(event, "type")
      case Some(JStr(kind)) =>
        if kind == "assistant" || kind == "user"
        then BlockEntries(t, kind, Lookup(event, "tool_use_result"), Content(event)) else []
      case _ => []
  }

  lemma {:induction false} StepBlocksTrace(t: Tests, source: string, extra: Option<Json>, s: Stream, blocks: seq<Json>)
    ensures StepBlocks(t, source, extra, s, blocks).trace == s.trace + BlockEntries(t, source, extra, blocks)
  {
    if blocks != [] {
      StepBlocksTrace(t, source, extra, s, blocks[..|blocks| - 1]);
    }
  }

  /** Every tool block of the input is in the trace once, in order: what the
      counters conserve is the input itself. */
  lemma {:induction false} TraceIsInput(t: Tests, lines: seq<string>)
    ensures FoldLines(t, lines).trace == Flatten(MapSeq(lines, line => LineEntries(t, line)))
  {
    var f := line => LineEntries(t, line);
    TraceOfPrefix(t, lines, f);
  }

  lemma StepLineTrace(t: Tests, s: Stream, line: string)
    ensures StepLine(t, s, line).trace == s.trace + LineEntries(t, line)
  {
    if !IsBlank(line) && t.tryJson(line).Some? {
      var event := t.tryJson(line).value;
      match Lookup(event, "type") {
        case Some(JStr(kind)) =>
          if kind == "assistant" || kind == "user" {
            StepBlocksTrace(t, kind, Lookup(event, "tool_use_result"), s, Content(event));
          }
        case _ =>
      }
    }
  }

  lemma {:induction false} TraceOfPrefix(t: Tests, lines: seq<string>, f: string -> seq<TraceEntry>)
    requires forall line :: f(line) == LineEntries(t, line)
    ensures FoldLines(t, lines).trace == Flatten(MapSeq(lines, f))
  {
    if lines != [] {
      var front, last := lines[..|lines| - 1], lines[|lines| - 1];
      TraceOfPrefix(t, front, f);
      StepLineTrace(t, FoldLines(t, front), last);
      assert lines == front + [last] && MapSeq([last], f) == [f(last)];
      MapAppend(front, [last], f);
      FlattenAppend(MapSeq(front, f), [f(last)]);
      FlattenOne(f(last));
    }
  }

  // ----- executed calls against attempted calls -----

  /** Position of the last tool_use with this id, -1 when there is none. */
  function LastUseAt(trace: seq<TraceEntry>, id: string): (k: int)
    ensures -1 <= k < |trace|
    ensures k >= 0 ==> trace[k].ToolUse? && trace[k].id == Some(JStr(id))
    ensures forall n :: k < n < |trace| && trace[n].ToolUse? ==> trace[n].id != Some(JStr(id))
  {
    if trace == [] then -1
    else if trace[|trace| - 1].ToolUse? && trace[|trace| - 1].id == Some(JStr(id)) then |trace| - 1
    else LastUseAt(trace[..|trace| - 1], id)
  }

  /** The call that the entry at i answers unblocked, -1 when it answers none. */
  function AnswerAt(trace: seq<TraceEntry>, i: nat): (k: int)
    requires i < |trace|
    ensures -1 <= k < i
  {
    var e := trace[i];
    if e.ToolResult? && !e.errorClass.Blocks() && e.toolUseId.Some? && e.toolUseId.value.JStr?
    then LastUseAt(trace[..i], e.toolUseId.value.text)
    else -1
  }

  predicate Answers(trace: seq<TraceEntry>, i: nat, k: nat) {
    i < |trace| && AnswerAt(trace, i) == k
  }

  /** No call is answered unblocked twice before its id is used again. */
  ghost predicate UsesAnsweredOnce(trace: seq<TraceEntry>) {
    forall i, j, k | 0 <= i < j && Answers(trace, i, k) :: !Answers(trace, j, k)
  }

  lemma AnswersPrefix(trace: seq<TraceEntry>, n: nat, i: nat, k: nat)
    requires i < n <= |trace|
    ensures Answers(trace[..n], i, k) <==> Answers(trace, i, k)
  {
    assert trace[..n][..i] == trace[..i];
  }

  lemma {:induction false} LastUseName(trace: seq<TraceEntry>, id: string)
    ensures LastUse(trace, id)
         == if LastUseAt(trace, id) >= 0 then Some(trace[LastUseAt(trace, id)].name) else None
  {
    if trace != [] {
      LastUseName(trace[..|trace| - 1], id);
    }
  }

  /** An execution counted for a name answers a call of that name. */
  predicate Executes(trace: seq<TraceEntry>, i: nat, name: string) {
    i < |trace| && AnswerAt(trace, i) >= 0 && trace[AnswerAt(trace, i)].name == name
  }

  lemma LastExecutes(trace: seq<TraceEntry>, name: string)
    requires trace != [] && name != ""
    ensures AttributedTo(trace[..|trace| - 1], trace[|trace| - 1]) == Some(name)
        <==> Executes(trace, |trace| - 1, name)
  {
    var front, last := trace[..|trace| - 1], trace[|trace| - 1];
    if last.ToolResult? && last.toolUseId.Some? && last.toolUseId.value.JStr? {
      LastUseName(front, last.toolUseId.value.text);
    }
  }

  // ----- sufficiency: from executions into calls -----

  function AnsweredUses(trace: seq<TraceEntry>, name: string): set<int> {
    set i | 0 <= i < |trace| && Executes(trace, i, name) :: AnswerAt(trace, i)
  }

  function UsesOf(trace: seq<TraceEntry>, name: string): set<int> {
    set k | 0 <= k < |trace| && trace[k].ToolUse? && trace[k].name == name
  }

  lemma {:induction false} UsesOfCount(trace: seq<TraceEntry>, name: string)
    ensures |UsesOf(trace, name)| == Sum(trace, IsUseOf(name))
  {
    if trace == [] {
      assert UsesOf(trace, name) == {};
    } else {
      var front, last := trace[..|trace| - 1], trace[|trace| - 1];
      UsesOfCount(front, name);
      SumSnoc(front, last, IsUseOf(name));
      assert trace == front + [last];
      assert UsesOf(trace, name)
          == UsesOf(front, name) + (if last.ToolUse? && last.name == name then {|front|} else {});
    }
  }

  lemma AnsweredUsesSnoc(trace: seq<TraceEntry>, name: string)
    requires trace != []
    ensures AnsweredUses(trace, name)
         == AnsweredUses(trace[..|trace| - 1], name)
            + (if Executes(trace, |trace| - 1, name) then {AnswerAt(trace, |trace| - 1)} else {})
  {
    var front, n := trace[..|trace| - 1], |trace| - 1;
    forall i | 0 <= i < n
      ensures AnswerAt(front, i) == AnswerAt(trace, i) && (Executes(front, i, name) <==> Executes(trace, i, name))
    {
      assert front[..i] == trace[..i];
    }
  }

  lemma {:induction false} ExecutionsAreAnswers(trace: seq<TraceEntry>, name: string)
    requires UsesAnsweredOnce(trace) && name != ""
    ensures ExecutionsOf(trace, name) == |AnsweredUses(trace, name)|
  {
    if trace == [] {
      assert AnsweredUses(trace, name) == {};
    } else {
      var front, n := trace[..|trace| - 1], |trace| - 1;
      forall i, j, k | 0 <= i < j && Answers(front, i, k) ensures !Answers(front, j, k) {
        AnswersPrefix(trace, n, i, k);
        if j < n { AnswersPrefix(trace, n, j, k); }
      }
      ExecutionsAreAnswers(front, name);
      LastExecutes(trace, name);
      AnsweredUsesSnoc(trace, name);
      if Executes(trace, n, name) && AnswerAt(trace, n) in AnsweredUses(front, name) {
        var i :| 0 <= i < |front| && Executes(front, i, name) && AnswerAt(front, i) == AnswerAt(trace, n);
        AnswersPrefix(trace, n, i, AnswerAt(trace, n));
        assert Answers(front, i, AnswerAt(trace, n));
        assert Answers(trace, n, AnswerAt(trace, n));
      }
    }
  }

  lemma {:induction false} NothingRunsNameless(trace: seq<TraceEntry>)
    ensures ExecutionsOf(trace, "") == 0
  {
    if trace != [] {
      NothingRunsNameless(trace[..|trace| - 1]);
    }
  }

  lemma AnsweredOnceStaysWithin(trace: seq<TraceEntry>, name: string)
    requires UsesAnsweredOnce(trace)
    ensures ExecutionsOf(trace, name) <= Sum(trace, IsUseOf(name))
  {
    if name == "" {
      NothingRunsNameless(trace);
    } else {
      ExecutionsAreAnswers(trace, name);
      UsesOfCount(trace, name);
      SubsetSize(AnsweredUses(trace, name), UsesOf(trace, name));
    }
  }

  /** When no call is answered unblocked twice before its id is used again, no tool has
      more executed results than calls. */
  lemma ExecutedWithinAttempted(t: Tests, lines: seq<string>, name: string)
    requires UsesAnsweredOnce(FoldLines(t, lines).trace)
    ensures Get(FoldLines(t, lines).executed, name) <= Get(FoldLines(t, lines).attempted, name)
  {
    EveryStreamIsAudited(t, lines);
    AnsweredOnceStaysWithin(FoldLines(t, lines).trace, name);
  }

  // ----- necessity: naming a twice-answered call apart -----

  /** The same blocks with each call under another tool name. */
  function Renamed(trace: seq<TraceEntry>, names: nat -> string): seq<TraceEntry> {
    seq(|trace|, i requires 0 <= i < |trace| => if trace[i].ToolUse? then trace[i].(name := names(i)) else trace[i])
  }

  lemma {:induction false} RenamedLastUse(trace: seq<TraceEntry>, names: nat -> string, n: nat, id: string)
    requires n <= |trace|
    ensures LastUseAt(Renamed(trace, names)[..n], id) == LastUseAt(trace[..n], id)
    decreases n
  {
    if n > 0 {
      RenamedLastUse(trace, names, n - 1, id);
      assert trace[..n][..n - 1] == trace[..n - 1];
      assert Renamed(trace, names)[..n][..n - 1] == Renamed(trace, names)[..n - 1];
    }
  }

  lemma RenamedAnswers(trace: seq<TraceEntry>, names: nat -> string, i: nat, k: nat)
    ensures Answers(Renamed(trace, names), i, k) <==> Answers(trace, i, k)
  {
    if i < |trace| && trace[i].ToolResult? && trace[i].toolUseId.Some? && trace[i].toolUseId.value.JStr? {
      RenamedLastUse(trace, names, i, trace[i].toolUseId.value.text);
    }
  }

  lemma {:induction false} ExecutionsAtLeast(trace: seq<TraceEntry>, name: string, i: nat, j: nat)
    requires name != "" && i <= j && Executes(trace, i, name) && Executes(trace, j, name)
    ensures ExecutionsOf(trace, name) >= if i < j then 2 else 1
    decreases |trace|
  {
    var front, n := trace[..|trace| - 1], |trace| - 1;
    LastExecutes(trace, name);
    assert front[..i] == trace[..i] && (j < n ==> front[..j] == trace[..j]);
    if j < n {
      ExecutionsAtLeast(front, name, i, j);
    } else if i < n {
      ExecutionsAtLeast(front, name, i, i);
    }
  }

  /** Some naming of the calls makes a twice-answered call exceed its attempts. */
  lemma TwiceAnsweredExceeds(trace: seq<TraceEntry>, i: nat, j: nat, k: nat)
    returns (names: nat -> string, name: string)
    requires i < j && Answers(trace, i, k) && Answers(trace, j, k)
    ensures ExecutionsOf(Renamed(trace, names), name) > Sum(Renamed(trace, names), IsUseOf(name))
  {
    names, name := n => if n == k then "x" else "y", "x";
    var renamed := Renamed(trace, names);
    RenamedAnswers(trace, names, i, k);
    RenamedAnswers(trace, names, j, k);
    ExecutionsAtLeast(renamed, name, i, j);
    UsesOfCount(renamed, name);
    assert UsesOf(renamed, name) == {k};
  }

  ghost predicate WithinCalls(trace: seq<TraceEntry>, names: nat -> string, name: string) {
    ExecutionsOf(Renamed(trace, names), name) <= Sum(Renamed(trace, names), IsUseOf(name))
  }

  /** The condition is exact: whatever the calls are named, executions stay within calls
      for every name, if and only if no call is answered unblocked twice before its id is
      used again. */
  lemma WithinCallsIffAnsweredOnce(trace: seq<TraceEntry>)
    ensures (forall names, name :: WithinCalls(trace, names, name)) <==> UsesAnsweredOnce(trace)
  {
    if UsesAnsweredOnce(trace) {
      forall names, name ensures WithinCalls(trace, names, name) {
        var renamed := Renamed(trace, names);
        forall i, j, k | 0 <= i < j && Answers(renamed, i, k) ensures !Answers(renamed, j, k) {
          RenamedAnswers(trace, names, i, k);
          RenamedAnswers(trace, names, j, k);
        }
        AnsweredOnceStaysWithin(Renamed(trace, names), name);
      }
    } else {
      var i, j, k :| 0 <= i < j && Answers(trace, i, k) && Answers(trace, j, k);
      var names, name := TwiceAnsweredExceeds(trace, i, j, k);
      assert !WithinCalls(trace, names, name);
    }
  }

  /** A stream that breaks the condition and the bound: of three lines that hold one call and two
      unblocked answers to it, the tool is executed twice and attempted once. */
  lemma TwiceAnsweredCallExceedsAttempts(t: Tests, lines: seq<string>,
                                         use: TraceEntry, first: TraceEntry, second: TraceEntry)
    requires |lines| == 3 && LineEntries(t, lines[0]) == [use]
    requires LineEntries(t, lines[1]) == [first] && LineEntries(t, lines[2]) == [second]
    requires use.ToolUse? && use.name != "" && use.id.Some? && use.id.value.JStr?
    requires first.ToolResult? && first.toolUseId == use.id && !first.errorClass.Blocks()
    requires second.ToolResult? && second.toolUseId == use.id && !second.errorClass.Blocks()
    ensures Get(FoldLines(t, lines).executed, use.name) == 2 && Get(FoldLines(t, lines).attempted, use.name) == 1
  {
    EveryStreamIsAudited(t, lines);
    var f := line => LineEntries(t, line);
    TraceOfPrefix(t, lines, f);
    assert MapSeq(lines, f) == [[use], [first], [second]];
    FlattenThree(use, first, second);
    AnsweredTwice(use, first, second);
  }

  lemma AnsweredTwice(use: TraceEntry, first: TraceEntry, second: TraceEntry)
    requires use.ToolUse? && use.name != "" && use.id.Some? && use.id.value.JStr?
    requires first.ToolResult? && first.toolUseId == use.id && !first.errorClass.Blocks()
    requires second.ToolResult? && second.toolUseId == use.id && !second.errorClass.Blocks()
    ensures ExecutionsOf([use, first, second], use.name) == 2
    ensures Sum([use, first, second], IsUseOf(use.name)) == 1
  {
    var one, two, three := [use], [use, first], [use, first, second];
    assert three[..2] == two && two[..1] == one && one[..0] == [];
    assert LastUse(one, use.id.value.text) == Some(use.name);
    assert LastUse(two, use.id.value.text) == Some(use.name);
    assert ExecutionsOf(one, use.name) == 0;
    assert ExecutionsOf(two, use.name) == 1;
    SumSnoc([], use, IsUseOf(use.name));
    SumSnoc(one, first, IsUseOf(use.name));
    SumSnoc(two, second, IsUseOf(use.name));
    assert [] + [use] == one && one + [first] == two && two + [second] == three;
  }

  lemma FlattenThree(a: TraceEntry, b: TraceEntry, c: TraceEntry)
    ensures Flatten([[a], [b], [c]]) == [a, b, c]
  {
    FlattenAppend([[a]], [[b], [c]]);
    FlattenAppend([[b]], [[c]]);
    FlattenOne([a]);
    FlattenOne([b]);
    FlattenOne([c]);
    assert [[a]] + [[b], [c]] == [[a], [b], [c]] && [[b]] + [[c]] == [[b], [c]];
  }

  lemma FlattenOne(entries: seq<TraceEntry>)
    ensures Flatten([entries]) == entries
  {
    assert [entries][1..] == [];
  }

  /** Conservation for a whole output: each tool_result block is executed, blocked
      for one reason, or unattributable, and every blocked one is a failure event. */
  lemma ResultsConserved(t: Tests, stdout: string)
    ensures var p := ParseStream(t, stdout);
      && Sum(p.trace, IsResult())
         == Total(p.executedToolUseCounts) + p.unavailableToolUseCount + p.executionVisibilityBlockedCount
            + p.toolBudgetBlockedCount + Unattributed(p.trace)
      && p.unavailableToolUseCount + p.executionVisibilityBlockedCount + p.toolBudgetBlockedCount <= p.failureEventCount
      && p.failureEventCount <= Sum(p.trace, IsResult())
  {
    var s := FoldLines(t, SplitLines(stdout));
    EveryStreamIsAudited(t, SplitLines(stdout));
    BlockedAreFailures(s.trace);
  }

  lemma {:induction false} BlockedAreFailures(trace: seq<TraceEntry>)
    requires forall e :: e in trace ==> WellClassed(e)
    ensures Sum(trace, IsResultOf(UnavailableTool)) + Sum(trace, IsResultOf(ExecutionVisibility))
            + Sum(trace, IsResultOf(ToolBudget)) <= Sum(trace, IsErrorResult()) <= Sum(trace, IsResult())
  {
    if trace != [] {
      assert WellClassed(trace[0]);
      BlockedAreFailures(trace[1..]);
    }
  }
}
