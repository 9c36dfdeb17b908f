/** parseTrajectory of the ablation acceptance: totals over a log of events, and the
    cache hit rate computed from them. */
module Trajectory {
  import opened Collections
  import opened JsonModel
  import opened Text

  datatype ToolResult = ToolResult(contentChars: Option<nat>, chars: Option<nat>, contentLength: Option<nat>)

  /** A parsed event; calls are given by their names, usage values as JSON. */
  datatype Event = Event(
    kind: string, modelName: Option<string>, paramsModel: Option<string>, responseModel: Option<string>,
    routeReason: Option<string>, systemHash: Option<string>,
    assistantToolCalls: seq<string>, toolCalls: seq<string>, toolResults: seq<ToolResult>,
    dsxuHitTokens: Option<Json>, cacheReadTokens: Option<Json>,
    dsxuMissTokens: Option<Json>, cacheCreationTokens: Option<Json>,
    outputTokens: Option<Json>, estimatedCost: Option<Json>)

  /** JSON.parse of a line, and the test for a pro model, taken as given. */
  datatype Reader = Reader(parse: string -> Option<Event>, isPro: string -> bool)

  datatype Totals = Totals(
    routeReasons: set<string>, models: set<string>, systemHashes: set<string>,
    requestCount: nat, cacheHitInputTokens: real, cacheMissInputTokens: real, outputTokens: real, totalCostUSD: real,
    proRequestCount: nat, readToolCallCount: nat, toolResultCount: nat, toolResultChars: nat)

  const ZERO := Totals({}, {}, {}, 0, 0.0, 0.0, 0.0, 0.0, 0, 0, 0, 0)

  /** a ?? b */
  function Coalesce<T>(a: Option<T>, b: Option<T>): Option<T> {
    if a.Some? then a else b
  }

  function Num(value: Option<Json>): real {
    NumberValue(value).GetOr(0.0)
  }

  function AddIfPresent(s: set<string>, value: Option<string>): set<string> {
    if value.Some? && value.value != "" then s + {value.value} else s
  }

  function IsRead(): string -> bool {
    (name: string) => name == "Read"
  }

  function CountReadCalls(calls: seq<string>): nat {
    |Filter(calls, IsRead())|
  }

  function ResultChars(): ToolResult -> nat {
    (r: ToolResult) => Coalesce(r.contentChars, Coalesce(r.chars, r.contentLength)).GetOr(0)
  }

  function StepEvent(r: Reader, t: Totals, e: Event): Totals {
    match e.kind
    case "request_plan" =>
      var model := Coalesce(e.modelName, e.paramsModel);
      t.(requestCount := t.requestCount + 1,
         models := AddIfPresent(t.models, model),
         routeReasons := AddIfPresent(t.routeReasons, e.routeReason),
         systemHashes := AddIfPresent(t.systemHashes, e.systemHash),
         proRequestCount := t.proRequestCount + (if r.isPro(model.GetOr("")) then 1 else 0))
    case "request_messages" =>
      t.(toolResultCount := t.toolResultCount + |e.toolResults|,
         toolResultChars := t.toolResultChars + Sum(e.toolResults, ResultChars()),
         readToolCallCount := t.readToolCallCount + CountReadCalls(e.assistantToolCalls))
    case "stream_response" =>
      t.(readToolCallCount := t.readToolCallCount + CountReadCalls(e.toolCalls))
    case "response_usage" =>
      t.(models := AddIfPresent(t.models, Coalesce(e.modelName, e.responseModel)),
         routeReasons := AddIfPresent(t.routeReasons, e.routeReason),
         cacheHitInputTokens := t.cacheHitInputTokens + Num(CoalesceJson(e.dsxuHitTokens, e.cacheReadTokens)),
         cacheMissInputTokens := t.cacheMissInputTokens + Num(CoalesceJson(e.dsxuMissTokens, e.cacheCreationTokens)),
         outputTokens := t.outputTokens + Num(e.outputTokens),
         totalCostUSD := t.totalCostUSD + Num(e.estimatedCost))
    case _ => t
  }

  function StepLine(r: Reader, t: Totals, line: string): Totals {
    if IsBlank(line) then t
    else match r.parse(line)
      case Some(e) => StepEvent(r, t, e)
      case None => t
  }

  function FoldLines(r: Reader, lines: seq<string>): Totals {
    if lines == [] then ZERO
    else StepLine(r, FoldLines(r, lines[..|lines| - 1]), lines[|lines| - 1])
  }

  function Parse(r: Reader, raw: string): Totals {
    FoldLines(r, SplitLines(raw))
  }

  method ParseTrajectory(r: Reader, raw: string) returns (t: Totals)
    ensures t == Parse(r, raw)
  {
    t := ZERO;
    var lines := SplitLines(raw);
    for i := 0 to |lines|
      invariant t == FoldLines(r, lines[..i])
    {
      assert lines[..i + 1][..i] == lines[..i];
      if IsBlank(lines[i]) { continue; }
      var parsed := r.parse(lines[i]);
      if parsed.None? { continue; }
      t := ReadEvent(r, t, parsed.value);
    }
    assert lines[..|lines|] == lines;
  }

  /** The body of the loop: one event updates the counters it concerns. */
  method ReadEvent(r: Reader, before: Totals, e: Event) returns (t: Totals)
    ensures t == StepEvent(r, before, e)
  {
    t := before;
    if e.kind == "request_plan" {
      var model := Coalesce(e.modelName, e.paramsModel);
      t := t.(requestCount := t.requestCount + 1);
      t := t.(models := AddIfPresent(t.models, model), routeReasons := AddIfPresent(t.routeReasons, e.routeReason),
              systemHashes := AddIfPresent(t.systemHashes, e.systemHash));
      if r.isPro(model.GetOr("")) { t := t.(proRequestCount := t.proRequestCount + 1); }
    }
    if e.kind == "request_messages" {
      t := t.(toolResultCount := t.toolResultCount + |e.toolResults|,
              toolResultChars := t.toolResultChars + Sum(e.toolResults, ResultChars()));
      t := t.(readToolCallCount := t.readToolCallCount + CountReadCalls(e.assistantToolCalls));
    }
    if e.kind == "stream_response" {
      t := t.(readToolCallCount := t.readToolCallCount + CountReadCalls(e.toolCalls));
    }
    if e.kind == "response_usage" {
      t := t.(models := AddIfPresent(t.models, Coalesce(e.modelName, e.responseModel)),
              routeReasons := AddIfPresent(t.routeReasons, e.routeReason));
      t := t.(cacheHitInputTokens := t.cacheHitInputTokens + Num(CoalesceJson(e.dsxuHitTokens, e.cacheReadTokens)),
              cacheMissInputTokens :=
                  t.cacheMissInputTokens + Num(CoalesceJson(e.dsxuMissTokens, e.cacheCreationTokens)),
              outputTokens := t.outputTokens + Num(e.outputTokens),
              totalCostUSD := t.totalCostUSD + Num(e.estimatedCost));
    }
  }

  // ----- additivity -----

  /** Sums of all counters, unions of all sets. */
  function Merge(a: Totals, b: Totals): Totals {
    Totals(
      a.routeReasons + b.routeReasons, a.models + b.models, a.systemHashes + b.systemHashes,
      a.requestCount + b.requestCount, a.cacheHitInputTokens + b.cacheHitInputTokens,
      a.cacheMissInputTokens + b.cacheMissInputTokens, a.outputTokens + b.outputTokens, a.totalCostUSD + b.totalCostUSD,
      a.proRequestCount + b.proRequestCount, a.readToolCallCount + b.readToolCallCount,
      a.toolResultCount + b.toolResultCount, a.toolResultChars + b.toolResultChars)
  }

  lemma StepMerges(r: Reader, a: Totals, b: Totals, e: Event)
    ensures StepEvent(r, Merge(a, b), e) == Merge(a, StepEvent(r, b, e))
  {
    var left, right := StepEvent(r, Merge(a, b), e), Merge(a, StepEvent(r, b, e));
    assert left.routeReasons == right.routeReasons;
    assert left.models == right.models;
    assert left.systemHashes == right.systemHashes;
  }

  lemma {:induction false} LinesAddUp(r: Reader, xs: seq<string>, ys: seq<string>)
    ensures FoldLines(r, xs + ys) == Merge(FoldLines(r, xs), FoldLines(r, ys))
    decreases |ys|
  {
    if ys == [] {
      assert xs + ys == xs;
      MergeZero(FoldLines(r, xs));
    } else {
      var front, last := ys[..|ys| - 1], ys[|ys| - 1];
      LinesAddUp(r, xs, front);
      assert (xs + ys)[..|xs + ys| - 1] == xs + front;
      if !IsBlank(last) && r.parse(last).Some? {
        StepMerges(r, FoldLines(r, xs), FoldLines(r, front), r.parse(last).value);
      }
    }
  }

  lemma MergeZero(t: Totals)
    ensures Merge(t, ZERO) == t
  {
    assert t.routeReasons + {} == t.routeReasons && t.models + {} == t.models && t.systemHashes + {} == t.systemHashes;
  }

  // ----- where a log may be cut -----

  /** The text after the last line feed. */
  function Unfinished(a: string): string {
    a[LastIndexOf(a, '\n') + 1..]
  }

  /** The lines a line feed has ended. */
  function EndedLines(a: string): seq<string> {
    SplitLines(a)[..|SplitLines(a)| - 1]
  }

  /** Whatever follows a log continues its unfinished line. */
  lemma ContinuedLines(a: string, b: string)
    ensures SplitLines(a + b) == EndedLines(a) + SplitLines(Unfinished(a) + b)
  {
    var k := LastIndexOf(a, '\n');
    if k < 0 {
      assert Unfinished(a) == a;
      SplitWithoutLineFeed(a);
      assert EndedLines(a) == [];
    } else {
      var head, rest := a[..k], Unfinished(a);
      assert a == head + "\n" + rest;
      assert a + b == head + "\n" + (rest + b);
      SplitAtLineFeed(head, rest + b);
      SplitAtLineFeed(head, rest);
      SplitWithoutLineFeed(rest);
    }
  }

  lemma UnfinishedHasNoLineFeed(a: string)
    ensures '\n' !in Unfinished(a)
    ensures Unfinished(a) == "" <==> a == "" || a[|a| - 1] == '\n'
  {
    var k := LastIndexOf(a, '\n');
    forall c | c in Unfinished(a) ensures c != '\n' {
      var j :| 0 <= j < |Unfinished(a)| && Unfinished(a)[j] == c;
      assert Unfinished(a)[j] == a[k + 1 + j];
    }
  }

  lemma UnfinishedLine(a: string)
    ensures SplitLines(a) == EndedLines(a) + [Unfinished(a)]
  {
    ContinuedLines(a, "");
    assert a + "" == a && Unfinished(a) + "" == Unfinished(a);
    UnfinishedHasNoLineFeed(a);
    SplitWithoutLineFeed(Unfinished(a));
  }

  predicate AdditiveWith(r: Reader, a: string, b: string) {
    Parse(r, a + b) == Merge(Parse(r, a), Parse(r, b))
  }

  lemma OneLine(r: Reader, line: string)
    requires '\n' !in line
    ensures Parse(r, line) == StepLine(r, ZERO, line)
  {
    SplitWithoutLineFeed(line);
    OneFolded(r, line);
  }

  lemma OneFolded(r: Reader, line: string)
    ensures FoldLines(r, [line]) == StepLine(r, ZERO, line)
  {
    var lines := [line];
    assert lines[..|lines| - 1] == [] && lines[|lines| - 1] == line;
  }

  /** The totals of a log and of what continues it, from its unfinished line on. */
  lemma TotalsFromUnfinished(r: Reader, a: string, b: string)
    ensures Parse(r, a + b) == Merge(FoldLines(r, EndedLines(a)), Parse(r, Unfinished(a) + b))
    ensures Parse(r, a) == Merge(FoldLines(r, EndedLines(a)), Parse(r, Unfinished(a)))
  {
    ContinuedLines(a, b);
    UnfinishedLine(a);
    UnfinishedHasNoLineFeed(a);
    SplitWithoutLineFeed(Unfinished(a));
    LinesAddUp(r, EndedLines(a), SplitLines(Unfinished(a) + b));
    LinesAddUp(r, EndedLines(a), [Unfinished(a)]);
  }

  /** A line that is a request plan. */
  predicate IsPlan(r: Reader, line: string) {
    '\n' !in line && !IsBlank(line) && r.parse(line).Some? && r.parse(line).value.kind == "request_plan"
  }

  /** A request plan that continues an unfinished line into one that does not parse is lost. */
  lemma ContinuedPlanIsLost(r: Reader, a: string, plan: string)
    requires IsPlan(r, plan) && r.parse(Unfinished(a) + plan) == None
    ensures Parse(r, a + plan).requestCount <= Parse(r, a).requestCount
    ensures !AdditiveWith(r, a, plan)
  {
    UnfinishedHasNoLineFeed(a);
    TotalsFromUnfinished(r, a, plan);
    OneLine(r, Unfinished(a) + plan);
    OneLine(r, plan);
    PlanCounts(r, plan, Unfinished(a) + plan);
    LostCount(FoldLines(r, EndedLines(a)), Parse(r, Unfinished(a)), Parse(r, a), Parse(r, a + plan), Parse(r, plan));
  }

  lemma PlanCounts(r: Reader, plan: string, joined: string)
    requires IsPlan(r, plan) && r.parse(joined) == None
    ensures StepLine(r, ZERO, plan).requestCount == 1 && StepLine(r, ZERO, joined) == ZERO
  {
  }

  lemma LostCount(ended: Totals, last: Totals, before: Totals, joined: Totals, plan: Totals)
    requires before == Merge(ended, last) && joined == Merge(ended, ZERO) && plan.requestCount == 1
    ensures joined.requestCount <= before.requestCount && joined != Merge(before, plan)
  {
  }

  /** Over all readers and continuations, a log can be cut exactly where a line has ended. */
  lemma AdditiveIffLineEnded(a: string)
    ensures (forall r, b :: AdditiveWith(r, a, b)) <==> a == "" || a[|a| - 1] == '\n'
  {
    UnfinishedHasNoLineFeed(a);
    if Unfinished(a) == "" {
      forall r, b ensures AdditiveWith(r, a, b) {
        BlankEndsAdd(r, a, b);
      }
    } else {
      var r := OneLineReader("x");
      assert Unfinished(a) + "x" != "x";
      assert "x"[0] in "x" && !IsBlank("x");
      ContinuedPlanIsLost(r, a, "x");
    }
  }

  function RequestPlan(): Event {
    Event("request_plan", None, None, None, None, None, [], [], [], None, None, None, None, None, None)
  }

  /** A reader that knows one line. */
  function OneLineReader(known: string): Reader {
    Reader(line => if line == known then Some(RequestPlan()) else None, model => false)
  }

  /** The white space of section 2 of RFC 8259 that a line can hold. */
  predicate JsonSpace(s: string) {
    forall c :: c in s ==> IsJsonSpace(c)
  }

  predicate IsJsonSpace(c: char) {
    c == ' ' || c == '\t' || c == '\r'
  }

  /** Text before a line that does not change how it parses. */
  predicate Skips(r: Reader, before: string, line: string) {
    r.parse(before + line) == r.parse(line)
  }

  /** What JSON.parse does with lines: leading white space is skipped, and nothing else
      may precede the object of the plan. */
  ghost predicate ReadsJson(r: Reader, plan: string) {
    && (forall w, line :: JsonSpace(w) ==> Skips(r, w, line))
    && IsPlan(r, plan)
    && forall before :: '\n' !in before && !JsonSpace(before) ==> r.parse(before + plan) == None
  }

  lemma BlankEndsAdd(r: Reader, a: string, b: string)
    requires JsonSpace(Unfinished(a))
    requires Unfinished(a) != "" ==> forall line :: Skips(r, Unfinished(a), line)
    ensures AdditiveWith(r, a, b)
  {
    UnfinishedHasNoLineFeed(a);
    BlankLine(r, Unfinished(a));
    SpaceBefore(r, Unfinished(a), b);
    AddsAfterNothing(r, a, b);
  }

  lemma BlankLine(r: Reader, line: string)
    requires JsonSpace(line) && '\n' !in line
    ensures Parse(r, line) == ZERO
  {
    OneLine(r, line);
    assert IsBlank(line);
  }

  lemma AddsAfterNothing(r: Reader, a: string, b: string)
    requires Parse(r, Unfinished(a)) == ZERO && Parse(r, Unfinished(a) + b) == Parse(r, b)
    ensures AdditiveWith(r, a, b)
  {
    TotalsFromUnfinished(r, a, b);
    MergeZero(FoldLines(r, EndedLines(a)));
  }

  /** White space before a log changes nothing. */
  lemma SpaceBefore(r: Reader, w: string, b: string)
    requires JsonSpace(w)
    requires w != "" ==> forall line :: Skips(r, w, line)
    ensures Parse(r, w + b) == Parse(r, b)
  {
    if w == "" {
      assert w + b == b;
    } else if '\n' !in b {
      assert '\n' !in w + b;
      OneLine(r, w + b);
      OneLine(r, b);
      StepAfterSpace(r, w, b);
    } else {
      var k := IndexOf(b, '\n');
      assert k < |b|;
      var line, rest := b[..k], b[k + 1..];
      assert b == line + "\n" + rest;
      assert w + b == (w + line) + "\n" + rest;
      FirstLineOff(r, line, rest);
      FirstLineOff(r, w + line, rest);
      FirstLineAfterSpace(r, w, line);
    }
  }

  lemma FirstLineOff(r: Reader, line: string, rest: string)
    requires '\n' !in line
    ensures Parse(r, line + "\n" + rest) == Merge(StepLine(r, ZERO, DropCarriageReturn(line)), Parse(r, rest))
  {
    SplitStep(line, rest);
    FirstLine(r, DropCarriageReturn(line), SplitLines(rest));
  }

  lemma FirstLineAfterSpace(r: Reader, w: string, line: string)
    requires JsonSpace(w) && w != "" && forall l :: Skips(r, w, l)
    ensures StepLine(r, ZERO, DropCarriageReturn(w + line)) == StepLine(r, ZERO, DropCarriageReturn(line))
  {
    if line == "" {
      assert w + line == w;
      assert forall c :: c in DropCarriageReturn(w) ==> c in w;
      assert IsBlank(DropCarriageReturn(w)) && IsBlank("");
    } else {
      assert DropCarriageReturn(w + line) == w + DropCarriageReturn(line);
      StepAfterSpace(r, w, DropCarriageReturn(line));
    }
  }

  lemma StepAfterSpace(r: Reader, w: string, line: string)
    requires JsonSpace(w) && Skips(r, w, line)
    ensures StepLine(r, ZERO, w + line) == StepLine(r, ZERO, line)
  {
    assert forall c :: c in w + line <==> c in w || c in line;
  }

  lemma FirstLine(r: Reader, line: string, rest: seq<string>)
    ensures FoldLines(r, [line] + rest) == Merge(StepLine(r, ZERO, line), FoldLines(r, rest))
  {
    LinesAddUp(r, [line], rest);
    OneFolded(r, line);
  }

  /** Parsing a log followed by another gives the sums of all counters and the unions
      of all sets, when the first log ends its last line. */
  lemma ParseIsAdditive(r: Reader, a: string, b: string)
    ensures Parse(r, a + "\n" + b) == Merge(Parse(r, a + "\n"), Parse(r, b))
  {
    UnfinishedHasNoLineFeed(a + "\n");
    BlankEndsAdd(r, a + "\n", b);
    assert AdditiveWith(r, a + "\n", b);
  }

  function SkipSpace(s: string): string {
    if s != "" && IsJsonSpace(s[0]) then SkipSpace(s[1..]) else s
  }

  lemma {:induction false} SkipSpaceBefore(before: string, line: string)
    ensures JsonSpace(before) ==> SkipSpace(before + line) == SkipSpace(line)
    ensures !JsonSpace(before) ==> |SkipSpace(before + line)| > |line|
  {
    if before == "" {
      assert before + line == line;
    } else {
      SkipSpaceBefore(before[1..], line);
      assert (before + line)[1..] == before[1..] + line && (before + line)[0] == before[0];
      assert before == [before[0]] + before[1..];
    }
  }

  /** A reader that knows one object, and skips white space before it. */
  function SpacedReader(known: string): Reader {
    Reader(line => if SkipSpace(line) == known then Some(RequestPlan()) else None, model => false)
  }

  lemma SpacedReaderReadsJson()
    ensures ReadsJson(SpacedReader("{}"), "{}")
  {
    var r := SpacedReader("{}");
    forall w, line | JsonSpace(w) ensures Skips(r, w, line) {
      SkipSpaceBefore(w, line);
    }
    assert "{}"[0] in "{}" && !IsBlank("{}") && SkipSpace("{}") == "{}";
    forall before | '\n' !in before && !JsonSpace(before) ensures r.parse(before + "{}") == None {
      SkipSpaceBefore(before, "{}");
    }
  }

  /** For a reader of JSON a log can be cut exactly where nothing but white space
      follows its last line feed. */
  lemma AdditiveForJsonIff(r: Reader, plan: string, a: string)
    requires ReadsJson(r, plan)
    ensures (forall b :: AdditiveWith(r, a, b)) <==> JsonSpace(Unfinished(a))
  {
    UnfinishedHasNoLineFeed(a);
    if JsonSpace(Unfinished(a)) {
      forall b ensures AdditiveWith(r, a, b) {
        BlankEndsAdd(r, a, b);
      }
    } else {
      ContinuedPlanIsLost(r, a, plan);
    }
  }

  /** A request plan repeated without a line feed is lost twice. */
  lemma SharedLineLosesRequests(r: Reader, plan: string)
    requires IsPlan(r, plan) && r.parse(plan + plan) == None
    ensures Parse(r, plan).requestCount == 1 && Parse(r, plan + plan).requestCount == 0
  {
    OneLine(r, plan);
    OneLine(r, plan + plan);
  }

  // ----- the hit rate -----

  function InputTokens(t: Totals): real {
    t.cacheHitInputTokens + t.cacheMissInputTokens
  }

  /** cacheHitRatePct before rounding. */
  function HitRate(t: Totals): real {
    if InputTokens(t) > 0.0 then t.cacheHitInputTokens / InputTokens(t) * 100.0 else 0.0
  }

  predicate Measured(t: Totals) {
    t.cacheHitInputTokens >= 0.0 && t.cacheMissInputTokens >= 0.0 && InputTokens(t) > 0.0
  }

  lemma QuotientAtMost(a: real, b: real, q: real)
    requires b > 0.0
    ensures a <= q * b ==> a / b <= q
    ensures a >= q * b ==> a / b >= q
  {
    var d := a / b;
    assert d * b == a;
    if d > q {
      assert (d - q) * b > 0.0;
    }
    if d < q {
      assert (q - d) * b > 0.0;
    }
  }

  lemma ProductNonNegative(x: real, y: real)
    requires x >= 0.0 && y >= 0.0
    ensures x * y >= 0.0
  {
  }

  /** The quotient of sums lies between the quotients. */
  lemma QuotientBetween(h1: real, t1: real, h2: real, t2: real)
    requires t1 > 0.0 && t2 > 0.0 && h1 / t1 <= h2 / t2
    ensures h1 / t1 <= (h1 + h2) / (t1 + t2) <= h2 / t2
  {
    var q1, q2 := h1 / t1, h2 / t2;
    assert h1 == q1 * t1 && h2 == q2 * t2;
    ProductNonNegative(q2 - q1, t1);
    ProductNonNegative(q2 - q1, t2);
    assert q1 * t1 <= q2 * t1 && q1 * t2 <= q2 * t2;
    assert q1 * (t1 + t2) == q1 * t1 + q1 * t2;
    assert q2 * (t1 + t2) == q2 * t1 + q2 * t2;
    QuotientAtMost(h1 + h2, t1 + t2, q2);
    QuotientAtMost(h1 + h2, t1 + t2, q1);
  }

  lemma RateInRange(t: Totals)
    requires Measured(t)
    ensures 0.0 <= HitRate(t) <= 100.0
  {
    QuotientAtMost(t.cacheHitInputTokens, InputTokens(t), 1.0);
    QuotientAtMost(t.cacheHitInputTokens, InputTokens(t), 0.0);
  }

  /** The hit rate of the joined log lies between the two logs' rates, within 0 and 100. */
  lemma JoinedRateBetween(r: Reader, a: string, b: string)
    requires Measured(Parse(r, a + "\n")) && Measured(Parse(r, b))
    ensures var first, second, joined :=
            HitRate(Parse(r, a + "\n")), HitRate(Parse(r, b)), HitRate(Parse(r, a + "\n" + b));
            0.0 <= joined <= 100.0
            && (first <= joined <= second || second <= joined <= first)
  {
    ParseIsAdditive(r, a, b);
    var x, y := Parse(r, a + "\n"), Parse(r, b);
    MergedRateBetween(x, y);
    RateInRange(Merge(x, y));
  }

  lemma MergedRateBetween(x: Totals, y: Totals)
    requires Measured(x) && Measured(y)
    ensures Measured(Merge(x, y))
    ensures HitRate(x) <= HitRate(Merge(x, y)) <= HitRate(y) || HitRate(y) <= HitRate(Merge(x, y)) <= HitRate(x)
  {
    var h1, t1, h2, t2 := x.cacheHitInputTokens, InputTokens(x), y.cacheHitInputTokens, InputTokens(y);
    assert InputTokens(Merge(x, y)) == t1 + t2;
    if h1 / t1 <= h2 / t2 {
      QuotientBetween(h1, t1, h2, t2);
    } else {
      QuotientBetween(h2, t2, h1, t1);
      assert h2 + h1 == h1 + h2 && t2 + t1 == t1 + t2;
    }
  }
}
