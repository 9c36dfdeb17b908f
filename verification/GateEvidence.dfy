/** Reading one evidence file for the dashboard: the status a gate gets from it, and
    the numbers nested in it. */
module GateEvidence {
  import opened Collections
  import opened JsonModel
  import opened Text

  datatype GateStatus = Pass | Fail | Blocked | ClaimBlocked | NotRun | Info

  /** What the JavaScript runtime supplies: the text of a number, Number and
      Date.parse on strings (None when not finite), Number on any value, toUpperCase. */
  datatype Runtime = Runtime(
    numText: Num -> string, parseNumber: string -> Option<real>, parseDate: string -> Option<int>,
    toNumber: Json -> Num, upper: string -> string)

  /** String(value) */
  function ToText(rt: Runtime, value: Json): string {
    match value
    case JNull => "null"
    case JBool(flag) => if flag then "true" else "false"
    case JNum(num) => rt.numText(num)
    case JStr(text) => text
    case JArr(items) => JoinItems(rt, items)
    case JObj(_) => "[object Object]"
  }

  function JoinItems(rt: Runtime, items: seq<Json>): string {
    if items == [] then ""
    else
      var first := if items[0].JNull? then "" else ToText(rt, items[0]);
      if |items| == 1 then first else first + "," + JoinItems(rt, items[1..])
  }

  /** String(value ?? '') */
  function TextOr(rt: Runtime, value: Option<Json>): string {
    if value.Some? && !value.value.JNull? then ToText(rt, value.value) else ""
  }

  function Numeric(rt: Runtime, value: Option<Json>): Option<real> {
    match value
    case Some(JNum(Fin(r))) => Some(r)
    case Some(JStr(text)) => if Trim(text) != "" then rt.parseNumber(text) else None
    case _ => None
  }

  /** asArray */
  function Items(value: Option<Json>): seq<Json> {
    if value.Some? && value.value.JArr? then value.value.items else []
  }

  function Field(json: Json, name: string): Option<Json> {
    Member(Some(json), name)
  }

  /** Object.values: a name given twice keeps its last value. */
  function Values(fields: seq<(string, Json)>): seq<Json> {
    if fields == [] then []
    else if exists f :: f in fields[1..] && f.0 == fields[0].0 then Values(fields[1..])
    else [fields[0].1] + Values(fields[1..])
  }

  // ----- the status of a gate -----

  function StatusCandidates(json: Json): seq<Option<Json>> {
    [Field(json, "status"), Field(json, "verdict"),
     Member(Field(json, "summary"), "status"), Member(Field(json, "review"), "status"),
     Member(Field(json, "validation"), "status"), Member(Field(json, "result"), "status"),
     Member(Field(json, "report"), "status")]
  }

  /** The first candidate that is a string of more than white space and stays
      nonempty in upper case; '' when there is none. */
  function FirstStatus(rt: Runtime, candidates: seq<Option<Json>>): string {
    if candidates == [] then ""
    else
      match candidates[0]
      case Some(JStr(text)) =>
        if Trim(text) != "" && rt.upper(text) != "" then rt.upper(text) else FirstStatus(rt, candidates[1..])
      case _ => FirstStatus(rt, candidates[1..])
  }

  function StatusOf(rt: Runtime, json: Json): string {
    FirstStatus(rt, StatusCandidates(json))
  }

  predicate HasSchema(json: Json, schema: string) {
    Field(json, "schemaVersion") == Some(JStr(schema))
  }

  predicate IsImportReport(json: Json) {
    HasSchema(json, "dsxu.public-comparable-raw-evidence-import-report.v1")
  }

  predicate IsBenchmarkManifest(json: Json) {
    HasSchema(json, "dsxu.public-comparable-benchmark-manifest.v1")
  }

  predicate IsRawEvidenceManifest(json: Json) {
    HasSchema(json, "dsxu.public-comparable-raw-evidence.v1")
  }

  predicate IsLegacySweBenchClaim(name: string, json: Json) {
    StartsWith(name, "DSXU_SWE_BENCH_RESULTS_")
    && !(IsTrue(Field(json, "publicBenchmarkClaimAllowed")) && Field(json, "mode") == Some(JStr("real-benchmark")))
  }

  const CLAIM_BOUNDARY := ["BLOCKED_FOR_PUBLIC_95_RELEASE_CLAIM", "BLOCKED_PUBLIC_COMPARABLE_EVIDENCE",
                           "PUBLIC_COMPARABLE_EVIDENCE_BLOCKED", "EXTERNAL_COMPARISON_CLAIM_BLOCKED"]

  const CREDENTIAL_BOUNDARY :=
      ["NO_PROVIDER_CREDENTIAL", "PROVIDER_AUTH_EVIDENCED", "PROVIDER_CREDENTIAL", "PROVIDER_AUTH"]

  /** The part of inferGateStatus that reads the status text alone. */
  function StatusVerdict(status: string): Option<GateStatus> {
    if ContainsAny(status, CLAIM_BOUNDARY) then Some(ClaimBlocked)
    else if ContainsAny(status, CREDENTIAL_BOUNDARY) then Some(Info)
    else if Contains(status, "TARGET_RAW_STILL_EXTERNAL") then Some(ClaimBlocked)
    else if Contains(status, "LIVE_INPUT_REQUIRED") then Some(Blocked)
    else if Contains(status, "PARTIAL") then Some(Blocked)
    else if status in {"PASS", "OK", "SUCCESS"} || StartsWith(status, "DONE_") || StartsWith(status, "PASS_")
            || EndsWith(status, "_PASS") then Some(Pass)
    else if StartsWith(status, "READY_") || EndsWith(status, "_READY") then Some(Info)
    else if status in {"FAIL", "FAILED", "CRASH"} || StartsWith(status, "FAIL_") || EndsWith(status, "_FAIL")
    then Some(Fail)
    else if status == "BLOCKED" || StartsWith(status, "BLOCKED_") then Some(Blocked)
    else None
  }

  predicate IsFlag(value: Option<Json>, flag: bool) {
    value == Some(JBool(flag))
  }

  function PassedFlag(json: Json): Option<GateStatus> {
    if IsFlag(Field(json, "passed"), true) || IsFlag(Field(json, "pass"), true) then Some(Pass)
    else if IsFlag(Field(json, "passed"), false) || IsFlag(Field(json, "pass"), false) then Some(Fail)
    else None
  }

  function HardGateStatus(json: Json): Option<GateStatus> {
    match Field(json, "hardGates")
    case Some(JObj(fields)) =>
      var values := Values(fields);
      if values == [] || exists v :: v in values && !v.JBool? then None
      else if forall v :: v in values ==> v == JBool(true) then Some(Pass)
      else Some(Fail)
    case _ => None
  }

  predicate Falsy(value: Option<Json>) {
    match value
    case None => true
    case Some(JNull) => true
    case Some(JBool(flag)) => !flag
    case Some(JNum(num)) => num == NaN || num == Fin(0.0)
    case Some(JStr(text)) => text == ""
    case _ => false
  }

  function CommandRunStatus(rt: Runtime, json: Json): Option<GateStatus> {
    var runs := Items(Field(json, "commandRuns"));
    var coverage := Field(json, "coverage");
    if runs != [] && (forall run :: run in runs ==> Numeric(rt, Field(run, "exitCode")) == Some(0.0))
       && (Falsy(coverage) || Numeric(rt, Member(coverage, "openRows")) == Some(0.0)
           || Numeric(rt, Member(coverage, "passedRows")) == Numeric(rt, Member(coverage, "totalRows")))
    then Some(Pass)
    else None
  }

  predicate ScenarioFails(rt: Runtime, scenario: Json) {
    || IsFlag(Field(scenario, "ok"), false)
    || StartsWith(rt.upper(TextOr(rt, Field(scenario, "status"))), "FAIL")
    || Items(Field(scenario, "blockers")) != []
  }

  function ScenarioStatus(rt: Runtime, json: Json): Option<GateStatus> {
    var scenarios := Items(Field(json, "scenarios"));
    if scenarios == [] then None
    else if exists s :: s in scenarios && ScenarioFails(rt, s) then Some(Fail)
    else Some(Pass)
  }

  function PassRate(rt: Runtime, json: Json): Option<real> {
    var raw := Numeric(rt,
      CoalesceJson(CoalesceJson(Field(json, "passRate"), Field(json, "pass_at_1")), Field(json, "passAt1")));
    var total := Numeric(rt,
      CoalesceJson(CoalesceJson(Field(json, "total"), Field(json, "totalTasks")), Field(json, "sampleCount")));
    var pass := Numeric(rt,
      CoalesceJson(CoalesceJson(Field(json, "pass"), Field(json, "passedTasks")), Field(json, "passed")));
    match raw
    case Some(r) => Some(if r > 1.0 then r / 100.0 else r)
    case None => if total.Some? && total.value != 0.0 && pass.Some? then Some(pass.value / total.value) else None
  }

  predicate IsText(value: Option<Json>) {
    value.Some? && value.value.JStr?
  }

  predicate IsArray(value: Option<Json>) {
    value.Some? && value.value.JArr?
  }

  predicate IsInformational(json: Json) {
    || json.JArr?
    || (json.JObj? &&
        (|| IsText(Field(json, "schemaVersion"))
         || IsText(Field(json, "schema"))
         || IsText(Member(Field(json, "summary"), "schemaVersion"))
         || IsText(Member(Field(json, "review"), "schemaVersion"))
         || (exists f :: f in json.fields && EndsWith(f.0, "Summary") && IsArray(Field(json, f.0)))
         || (IsText(Field(json, "generatedAt"))
             && (IsText(Field(json, "nextAction")) || IsArray(Field(json, "rows")) || IsArray(Field(json, "items"))
                 || IsArray(Field(json, "cases")) || IsArray(Field(json, "stages"))))))
  }

  /** inferGateStatus. A file that holds just null throws on its first property read. */
  function InferGateStatus(rt: Runtime, json: Json): GateStatus
    requires !json.JNull?
  {
    var status := StatusOf(rt, json);
    if IsImportReport(json) then (if status == "PASS" then Pass else ClaimBlocked)
    else if StatusVerdict(status).Some? then StatusVerdict(status).value
    else if PassedFlag(json).Some? then PassedFlag(json).value
    else if HardGateStatus(json).Some? then HardGateStatus(json).value
    else if CommandRunStatus(rt, json).Some? then CommandRunStatus(rt, json).value
    else if ScenarioStatus(rt, json).Some? then ScenarioStatus(rt, json).value
    else if Numeric(rt, Field(json, "expectedScoreMatchedCount")).Some?
            && Numeric(rt, Field(json, "expectedScoreMismatchedCount")) == Some(0.0) then Pass
    else
      match PassRate(rt, json)
      case Some(rate) => if rate >= 0.8 then Pass else Fail
      case None => if IsInformational(json) then Info else NotRun
  }

  // ----- numbers nested in a file -----

  const MAX_DEPTH := 4

  function Children(value: Json): (children: seq<Json>)
    ensures forall c :: c in children ==> c < value
  {
    match value
    case JArr(items) => items
    case JObj(fields) => ValuesAreSmaller(fields); Values(fields)
    case _ => []
  }

  lemma {:induction false} ValuesAreSmaller(fields: seq<(string, Json)>)
    ensures forall c :: c in Values(fields) ==> exists i :: 0 <= i < |fields| && fields[i].1 == c
  {
    if fields != [] {
      ValuesAreSmaller(fields[1..]);
      forall c | c in Values(fields) ensures exists i :: 0 <= i < |fields| && fields[i].1 == c {
        if c in Values(fields[1..]) {
          var i :| 0 <= i < |fields[1..]| && fields[1..][i].1 == c;
          assert fields[i + 1].1 == c;
        } else {
          assert fields[0].1 == c;
        }
      }
    }
  }

  predicate HasNumericKey(rt: Runtime, value: Json, keys: seq<string>) {
    value.JObj? && exists k :: k in keys && Numeric(rt, Lookup(value.fields, k)).Some?
  }

  /** hasNestedNumericKey */
  predicate HasNestedNumericKey(rt: Runtime, value: Json, keys: seq<string>, depth: nat)
    decreases value
  {
    depth <= MAX_DEPTH
    && (HasNumericKey(rt, value, keys)
        || exists c :: c in Children(value) && HasNestedNumericKey(rt, c, keys, depth + 1))
  }

  /** The value at the end of a path of child positions. */
  function Descend(value: Json, path: seq<nat>): Option<Json>
    decreases path
  {
    if path == [] then Some(value)
    else if path[0] < |Children(value)| then Descend(Children(value)[path[0]], path[1..])
    else None
  }

  predicate NumericAt(rt: Runtime, value: Json, keys: seq<string>, path: seq<nat>) {
    Descend(value, path).Some? && HasNumericKey(rt, Descend(value, path).value, keys)
  }

  lemma {:induction false} FoundAtPath(rt: Runtime, value: Json, keys: seq<string>, depth: nat) returns (path: seq<nat>)
    requires HasNestedNumericKey(rt, value, keys, depth)
    ensures |path| + depth <= MAX_DEPTH && NumericAt(rt, value, keys, path)
    decreases value
  {
    path := [];
    if !HasNumericKey(rt, value, keys) {
      var c :| c in Children(value) && HasNestedNumericKey(rt, c, keys, depth + 1);
      var rest := FoundAtPath(rt, c, keys, depth + 1);
      var i: nat :| i < |Children(value)| && Children(value)[i] == c;
      path := [i] + rest;
      assert path[1..] == rest;
    }
  }

  lemma {:induction false} PathIsFound(rt: Runtime, value: Json, keys: seq<string>, depth: nat, path: seq<nat>)
    requires |path| + depth <= MAX_DEPTH && NumericAt(rt, value, keys, path)
    ensures HasNestedNumericKey(rt, value, keys, depth)
    decreases path
  {
    if path != [] {
      var c := Children(value)[path[0]];
      assert c in Children(value);
      PathIsFound(rt, c, keys, depth + 1, path[1..]);
    }
  }

  /** The search finds a key exactly when one lies at the end of a path short enough. */
  lemma NestedIffPath(rt: Runtime, value: Json, keys: seq<string>, depth: nat)
    ensures HasNestedNumericKey(rt, value, keys, depth)
            <==> exists path: seq<nat> :: |path| + depth <= MAX_DEPTH && NumericAt(rt, value, keys, path)
  {
    if HasNestedNumericKey(rt, value, keys, depth) {
      var path := FoundAtPath(rt, value, keys, depth);
    }
    if path: seq<nat> :| |path| + depth <= MAX_DEPTH && NumericAt(rt, value, keys, path) {
      PathIsFound(rt, value, keys, depth, path);
    }
  }
}
