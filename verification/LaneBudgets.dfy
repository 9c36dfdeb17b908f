/** Tool budgets of a lane: the effective budgets derived from a manifest case, the
    tools exposed under them, and the overrun of executed calls. */
module LaneBudgets {
  import opened Collections
  import opened Counters
  import opened JsonModel

  datatype Category = Bugfix | Feature | Review | Recovery | Permission | Agent

  /** null and undefined are both None. */
  datatype Budgets = Budgets(maxToolCalls: Option<Num>, maxReadCalls: Option<Num>, maxPowerShellCalls: Option<Num>)

  /** The lower-cased prompt searches and the intent regexes, as truth values of the case. */
  datatype PromptFacts = PromptFacts(
    explicitTestRun: bool, mutating: bool, mcpResource: bool,
    sourceTruth: bool, sourceEvidence: bool, testEvidence: bool, evidence: bool, skill: bool,
    prove: bool, contract: bool, detect: bool, denyPass: bool, grep: bool, glob: bool)

  datatype Case = Case(
    id: string, category: Category, facts: PromptFacts, allowedTools: Option<string>, budgets: Budgets)

  const COMPACT_TWO_PHASE := "product-compact-two-phase-live"
  const READ_EDIT_CACHE := {"tool-prompt-read-edit-cache-golden", "mutation-tool-prompt-read-edit-cache-live"}
  const AGENT_WORKER := {"product-agent-worker-longrun-live", "product-agent-failure-correction-live"}
  const AGENT_WORKER_EVIDENCE_TOOLS :=
    ["Agent", "SendMessage", "Read", "RunNativeTest", "CollectEvidence", "TaskCreate", "TaskUpdate"]

  predicate SpecialCase(item: Case) {
    item.id == COMPACT_TWO_PHASE || item.id in READ_EDIT_CACHE
  }

  // ----- deriveEffectiveBudgets -----

  predicate NonMutatingRecovery(c: Case) {
    c.category == Recovery && !c.facts.mutating && !c.facts.explicitTestRun
  }

  predicate SourceTruthReview(c: Case) {
    c.category == Review && (c.facts.sourceTruth || c.facts.detect || c.facts.denyPass)
  }

  predicate SkillEvidenceFeature(c: Case) {
    c.category == Feature && c.facts.skill && (c.facts.sourceEvidence || c.facts.testEvidence || c.facts.evidence)
  }

  /** !Number.isFinite(budget) || budget < floor */
  predicate Below(budget: Option<Num>, floor: real) {
    match budget
    case Some(Fin(b)) => b < floor
    case _ => true
  }

  /** The branch that fixes or raises the total tool budget, None when none applies. */
  function ToolFloor(c: Case): Option<real> {
    if c.id == COMPACT_TWO_PHASE then Some(3.0)
    else if c.id in READ_EDIT_CACHE then Some(2.0)
    else if NonMutatingRecovery(c) && Below(c.budgets.maxToolCalls, 5.0) then Some(5.0)
    else if SourceTruthReview(c) && Below(c.budgets.maxToolCalls, 5.0) then Some(5.0)
    else if SkillEvidenceFeature(c) && Below(c.budgets.maxToolCalls, 5.0) then Some(5.0)
    else if c.category == Review && c.facts.mutating && Below(c.budgets.maxToolCalls, 10.0) then Some(10.0)
    else if c.category == Recovery && c.facts.mutating && Below(c.budgets.maxToolCalls, 10.0) then Some(10.0)
    else None
  }

  function ReadDefault(c: Case): Option<real> {
    if NonMutatingRecovery(c) then Some(3.0)
    else if SourceTruthReview(c) then Some(4.0)
    else if SkillEvidenceFeature(c) then Some(3.0)
    else if (c.category == Review || c.category == Recovery) && c.facts.mutating then Some(5.0)
    else None
  }

  function ShellDefault(c: Case): Option<real> {
    if c.facts.explicitTestRun || NonMutatingRecovery(c) then Some(0.0)
    else if (c.category == Review || c.category == Recovery) && c.facts.mutating then Some(3.0)
    else None
  }

  function OrDefault(declared: Option<Num>, default: Option<real>): Option<Num> {
    if declared.Some? then declared
    else if default.Some? then Some(Fin(default.value)) else None
  }

  function EffectiveBudgets(c: Case): Budgets {
    Budgets(
      if ToolFloor(c).Some? then Some(Fin(ToolFloor(c).value)) else c.budgets.maxToolCalls,
      if c.id == COMPACT_TWO_PHASE then Some(Fin(0.0))
      else if c.id in READ_EDIT_CACHE then Some(Fin(2.0))
      else OrDefault(c.budgets.maxReadCalls, ReadDefault(c)),
      if SpecialCase(c) then Some(Fin(0.0)) else OrDefault(c.budgets.maxPowerShellCalls, ShellDefault(c)))
  }

  /** The script's own order: a copied record whose fields are overwritten in turn. */
  method DeriveEffectiveBudgets(item: Case) returns (budgets: Budgets)
    ensures budgets == EffectiveBudgets(item)
  {
    budgets := item.budgets;
    var mutatingReview := item.category == Review && item.facts.mutating;
    var mutatingRecovery := item.category == Recovery && item.facts.mutating;
    if item.id == COMPACT_TWO_PHASE {
      budgets := budgets.(maxToolCalls := Some(Fin(3.0)));
    } else if item.id in READ_EDIT_CACHE {
      budgets := budgets.(maxToolCalls := Some(Fin(2.0)));
    } else if NonMutatingRecovery(item) && Below(budgets.maxToolCalls, 5.0) {
      budgets := budgets.(maxToolCalls := Some(Fin(5.0)));
    } else if SourceTruthReview(item) && Below(budgets.maxToolCalls, 5.0) {
      budgets := budgets.(maxToolCalls := Some(Fin(5.0)));
    } else if SkillEvidenceFeature(item) && Below(budgets.maxToolCalls, 5.0) {
      budgets := budgets.(maxToolCalls := Some(Fin(5.0)));
    } else if mutatingReview && Below(budgets.maxToolCalls, 10.0) {
      budgets := budgets.(maxToolCalls := Some(Fin(10.0)));
    } else if mutatingRecovery && Below(budgets.maxToolCalls, 10.0) {
      budgets := budgets.(maxToolCalls := Some(Fin(10.0)));
    }
    if item.id == COMPACT_TWO_PHASE {
      budgets := budgets.(maxReadCalls := Some(Fin(0.0)));
    } else if item.id in READ_EDIT_CACHE {
      budgets := budgets.(maxReadCalls := Some(Fin(2.0)));
    } else if budgets.maxReadCalls == None && NonMutatingRecovery(item) {
      budgets := budgets.(maxReadCalls := Some(Fin(3.0)));
    }
    if budgets.maxReadCalls == None && SourceTruthReview(item) {
      budgets := budgets.(maxReadCalls := Some(Fin(4.0)));
    }
    if budgets.maxReadCalls == None && SkillEvidenceFeature(item) {
      budgets := budgets.(maxReadCalls := Some(Fin(3.0)));
    }
    if budgets.maxReadCalls == None && mutatingReview {
      budgets := budgets.(maxReadCalls := Some(Fin(5.0)));
    }
    if budgets.maxReadCalls == None && mutatingRecovery {
      budgets := budgets.(maxReadCalls := Some(Fin(5.0)));
    }
    if item.id == COMPACT_TWO_PHASE || item.id in READ_EDIT_CACHE {
      budgets := budgets.(maxPowerShellCalls := Some(Fin(0.0)));
    } else if budgets.maxPowerShellCalls == None && item.facts.explicitTestRun {
      budgets := budgets.(maxPowerShellCalls := Some(Fin(0.0)));
    }
    if budgets.maxPowerShellCalls == None && NonMutatingRecovery(item) {
      budgets := budgets.(maxPowerShellCalls := Some(Fin(0.0)));
    }
    if budgets.maxPowerShellCalls == None && mutatingReview {
      budgets := budgets.(maxPowerShellCalls := Some(Fin(3.0)));
    }
    if budgets.maxPowerShellCalls == None && mutatingRecovery {
      budgets := budgets.(maxPowerShellCalls := Some(Fin(3.0)));
    }
  }

  /** A finite budget, as a bound that a larger one relaxes. */
  predicate AtLeast(effective: Option<Num>, declared: Option<Num>) {
    match (effective, declared)
    case (Some(Fin(e)), Some(Fin(d))) => e >= d
    case (_, Some(Fin(_))) => false
    case _ => true
  }

  /** Outside the three named cases no declared finite budget is lowered, and the
      declared read and shell budgets are kept as they are. */
  lemma BudgetsNeverLowered(c: Case)
    requires !SpecialCase(c)
    ensures AtLeast(EffectiveBudgets(c).maxToolCalls, c.budgets.maxToolCalls)
    ensures c.budgets.maxReadCalls.Some? ==> EffectiveBudgets(c).maxReadCalls == c.budgets.maxReadCalls
    ensures c.budgets.maxPowerShellCalls.Some?
            ==> EffectiveBudgets(c).maxPowerShellCalls == c.budgets.maxPowerShellCalls
  {
  }

  /** An infinite total, which a manifest can declare by a number too large for a
      double, is replaced by five or ten exactly in the categories that have a floor. */
  lemma InfiniteTotalReplacedIff(c: Case)
    requires !SpecialCase(c) && c.budgets.maxToolCalls == Some(PosInf)
    ensures EffectiveBudgets(c).maxToolCalls != Some(PosInf)
        <==> NonMutatingRecovery(c) || SourceTruthReview(c) || SkillEvidenceFeature(c)
             || (c.category in {Review, Recovery} && c.facts.mutating)
    ensures EffectiveBudgets(c).maxToolCalls in {Some(PosInf), Some(Fin(5.0)), Some(Fin(10.0))}
  {
  }

  /** In the named cases the total budget is a constant, so it is lowered exactly
      when the manifest declares more. */
  lemma NamedCasesLowerExactly(c: Case, declared: real)
    requires SpecialCase(c) && c.budgets.maxToolCalls == Some(Fin(declared))
    ensures !AtLeast(EffectiveBudgets(c).maxToolCalls, c.budgets.maxToolCalls)
        <==> declared > (if c.id == COMPACT_TWO_PHASE then 3.0 else 2.0)
  {
  }

  /** A read budget that was defaulted fits into the effective tool budget. */
  lemma DefaultedReadsFitTools(c: Case)
    requires c.budgets.maxReadCalls == None && EffectiveBudgets(c).maxReadCalls.Some?
    ensures EffectiveBudgets(c).maxReadCalls.value.Fin?
    ensures AtLeast(EffectiveBudgets(c).maxToolCalls, EffectiveBudgets(c).maxReadCalls)
  {
  }

  // ----- deriveTools -----

  predicate AtMost(budget: Option<Num>, bound: real) {
    match budget
    case Some(Fin(b)) => b <= bound
    case Some(NegInf) => true
    case _ => false
  }

  predicate IsZero(budget: Option<Num>) {
    budget == Some(Fin(0.0))
  }

  predicate Blocked(tool: string, b: Budgets) {
    (IsZero(b.maxReadCalls) && tool == "Read")
    || (IsZero(b.maxPowerShellCalls) && (tool == "Bash" || tool == "PowerShell"))
  }

  function Unblocked(b: Budgets): string -> bool {
    tool => !Blocked(tool, b)
  }

  function ApplyBudgetToolLimits(tools: seq<string>, item: Case): seq<string> {
    Filter(tools, Unblocked(EffectiveBudgets(item)))
  }

  /** declared.split(',').map(trim).filter(Boolean), taken as given. */
  type DeclaredTools = string -> seq<string>

  function DeriveTools(split: DeclaredTools, trimmed: string -> string, item: Case, budgets: Budgets): seq<string> {
    var declared := if item.allowedTools.Some? then trimmed(item.allowedTools.value) else "";
    if item.id in AGENT_WORKER then AGENT_WORKER_EVIDENCE_TOOLS
    else if declared != "" && declared != "default-mainline-tool-gate" then split(declared)
    else DerivedTools(item, budgets)
  }

  /** The tool list when the manifest declares none and the case is no agent-worker lane. */
  function DerivedTools(item: Case, budgets: Budgets): seq<string> {
    if IsZero(budgets.maxToolCalls) then []
    else if item.category == Permission then ApplyBudgetToolLimits(["Read", "Grep", "Glob"], item)
    else if item.category == Agent then ["TaskCreate", "TaskUpdate", "SendMessage"]
    else if item.id in READ_EDIT_CACHE then ApplyBudgetToolLimits(["Read"], item)
    else ApplyBudgetToolLimits(CandidateTools(item, budgets), item)
  }

  function CandidateTools(item: Case, budgets: Budgets): seq<string> {
    var f := item.facts;
    var sourceTruthIntent :=
      item.category == Review || f.sourceTruth || f.sourceEvidence || f.testEvidence || f.prove || f.contract
          || f.detect || f.denyPass;
    var searchOnly := IsZero(budgets.maxReadCalls) || ((f.grep || f.glob) && !f.mutating);
    if AtMost(budgets.maxToolCalls, 2.0) && !f.mutating then
      (if IsZero(budgets.maxReadCalls) then ["Grep", "Glob"] else ["Grep", "Read"])
    else if AtMost(budgets.maxToolCalls, 4.0) && sourceTruthIntent && !f.mutating then
      (if f.explicitTestRun then ["Grep", "Read", "RunNativeTest", "CollectEvidence"] else ["Grep", "Read"])
    else if sourceTruthIntent && !f.mutating then
      (if item.category == Feature then ["Grep", "Read", "Glob"] else ["Grep", "Read"])
    else if item.id == COMPACT_TWO_PHASE then ["RunNativeTest", "Write"]
    else if item.category == Recovery then
      (if f.mutating || f.explicitTestRun then ["Grep", "Read", "RunNativeTest", "CollectEvidence", "Edit"]
       else ["Grep", "Read"])
    else if f.mcpResource && (f.mutating || item.category == Bugfix || item.category == Feature) then
      ["ListMcpResourcesTool", "ReadMcpResourceTool", "Read", "Edit", "RunNativeTest", "CollectEvidence", "Grep",
       "Glob"]
    else if searchOnly then ["Grep", "Glob"]
    else if f.explicitTestRun then ["Read", "Edit", "RunNativeTest", "CollectEvidence", "Grep", "Glob"]
    else ["Read", "Edit", "PowerShell", "Grep", "Glob"]
  }

  lemma CandidatesSearchOrTest(item: Case, budgets: Budgets)
    ensures var tools := CandidateTools(item, budgets); "Grep" in tools || "RunNativeTest" in tools
  {
    assert ["Grep", "Glob"][0] == "Grep" && ["Grep", "Read"][0] == "Grep";
    assert ["Grep", "Read", "RunNativeTest", "CollectEvidence"][0] == "Grep";
    assert ["Grep", "Read", "Glob"][0] == "Grep";
    assert ["RunNativeTest", "Write"][0] == "RunNativeTest";
    assert ["Grep", "Read", "RunNativeTest", "CollectEvidence", "Edit"][0] == "Grep";
    assert ["ListMcpResourcesTool", "ReadMcpResourceTool", "Read", "Edit", "RunNativeTest", "CollectEvidence", "Grep",
            "Glob"][6] == "Grep";
    assert ["Read", "Edit", "RunNativeTest", "CollectEvidence", "Grep", "Glob"][4] == "Grep";
    assert ["Read", "Edit", "PowerShell", "Grep", "Glob"][3] == "Grep";
  }

  /** On every return path no tool with a zero budget is exposed, and the list is
      empty exactly when the effective total budget is zero. */
  lemma DerivedToolsRespectBudgets(item: Case)
    ensures var b := EffectiveBudgets(item);
            var tools := DerivedTools(item, b);
            && (forall tool :: tool in tools ==> !Blocked(tool, b))
            && (tools == [] <==> IsZero(b.maxToolCalls))
  {
    var b := EffectiveBudgets(item);
    var p := Unblocked(b);
    if IsZero(b.maxToolCalls) {
    } else if item.category == Permission {
      FilterMembers(["Read", "Grep", "Glob"], p);
      assert ["Read", "Grep", "Glob"][1] in Filter(["Read", "Grep", "Glob"], p);
    } else if item.category == Agent {
      assert ["TaskCreate", "TaskUpdate", "SendMessage"] != [];
    } else if item.id in READ_EDIT_CACHE {
      FilterMembers(["Read"], p);
      assert ["Read"][0] in Filter(["Read"], p);
    } else {
      FilterMembers(CandidateTools(item, b), p);
      CandidatesSearchOrTest(item, b);
      var shown := if "Grep" in CandidateTools(item, b) then "Grep" else "RunNativeTest";
      assert p(shown);
      assert shown in Filter(CandidateTools(item, b), p);
    }
  }

  // ----- evaluateToolBudgets -----

  function ExceededBy(actual: nat, budget: Option<Num>): real {
    match budget
    case Some(Fin(b)) => if actual as real > b then actual as real - b else 0.0
    case _ => 0.0
  }

  datatype BudgetMetrics = BudgetMetrics(toolExceeded: real, readExceeded: real, shellExceeded: real)

  function Overruns(b: Budgets, calls: nat, readCalls: nat, shells: nat): BudgetMetrics {
    BudgetMetrics(ExceededBy(calls, b.maxToolCalls), ExceededBy(readCalls, b.maxReadCalls),
                  ExceededBy(shells, b.maxPowerShellCalls))
  }

  function EvaluateToolBudgets(b: Budgets, counts: Counts): BudgetMetrics {
    Overruns(b, Total(counts), Get(counts, "Read"), Get(counts, "Bash") + Get(counts, "PowerShell"))
  }

  function Violations(m: BudgetMetrics): real {
    m.toolExceeded + m.readExceeded + m.shellExceeded
  }

  predicate Within(actual: nat, budget: Option<Num>) {
    match budget
    case Some(Fin(b)) => actual as real <= b
    case _ => true
  }

  /** Executed calls, reads and shell calls all respect their finite budgets. */
  predicate WithinBudgets(b: Budgets, counts: Counts) {
    && Within(Total(counts), b.maxToolCalls)
    && Within(Get(counts, "Read"), b.maxReadCalls)
    && Within(Get(counts, "Bash") + Get(counts, "PowerShell"), b.maxPowerShellCalls)
  }

  /** The single violation count the verdict tests is zero exactly when all three
      finite budgets are respected. */
  lemma NoViolationsMeansWithin(b: Budgets, counts: Counts)
    ensures Violations(EvaluateToolBudgets(b, counts)) == 0.0 <==> WithinBudgets(b, counts)
  {
    NoViolationsFor(b, counts, Total(counts), Get(counts, "Read"), Get(counts, "Bash") + Get(counts, "PowerShell"));
  }

  lemma NoViolationsFor(b: Budgets, counts: Counts, calls: nat, readCalls: nat, shells: nat)
    requires calls == Total(counts) && readCalls == Get(counts, "Read")
    requires shells == Get(counts, "Bash") + Get(counts, "PowerShell")
    ensures Violations(EvaluateToolBudgets(b, counts)) == 0.0 <==> WithinBudgets(b, counts)
  {
    assert EvaluateToolBudgets(b, counts) == Overruns(b, calls, readCalls, shells);
    OverrunsZero(b, calls, readCalls, shells);
  }

  lemma OverrunsZero(b: Budgets, calls: nat, readCalls: nat, shells: nat)
    ensures Violations(Overruns(b, calls, readCalls, shells)) == 0.0
        <==> Within(calls, b.maxToolCalls) && Within(readCalls, b.maxReadCalls) && Within(shells, b.maxPowerShellCalls)
  {
    ExceededByZero(calls, b.maxToolCalls);
    ExceededByZero(readCalls, b.maxReadCalls);
    ExceededByZero(shells, b.maxPowerShellCalls);
    ZeroSum(Overruns(b, calls, readCalls, shells));
  }

  lemma ExceededByZero(actual: nat, budget: Option<Num>)
    ensures ExceededBy(actual, budget) >= 0.0
    ensures ExceededBy(actual, budget) == 0.0 <==> Within(actual, budget)
  {
  }

  lemma ZeroSum(m: BudgetMetrics)
    requires m.toolExceeded >= 0.0 && m.readExceeded >= 0.0 && m.shellExceeded >= 0.0
    ensures Violations(m) == 0.0 <==> m.toolExceeded == 0.0 && m.readExceeded == 0.0 && m.shellExceeded == 0.0
  {
  }
}
