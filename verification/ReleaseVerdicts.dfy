/** The dashboard's two release verdicts, each computed on its own from the collected
    evidence, and the readiness rows one of them sums and the other counts. */
module ReleaseVerdicts {
  import opened Collections
  import opened GateEvidence

  datatype Gate = Gate(name: string, status: GateStatus, evidenceFile: string)

  datatype Summary = Summary(total: nat, pass: nat, fail: nat, blocked: nat, claimBlocked: nat, notRun: nat, info: nat)

  datatype Readiness = Readiness(caseCount: nat, readyCaseCount: nat, missingCaseCount: nat,
                                 publicBenchmarkClaimAllowed: bool, externalComparisonClaimAllowed: bool)

  datatype Area = SourceTest | Live | Raw | Cost | Cache

  datatype Catalog = Catalog(mainlineAliases: seq<string>, evidenceFile: string)

  datatype V4 = V4(status: GateStatus, missingStages: seq<string>, blockedStages: seq<string>, evidenceFile: string)

  /** The part of the dashboard the verdicts read. */
  datatype Board = Board(gates: seq<Gate>, gateSummary: Summary, readiness: seq<Readiness>,
                         missingAreas: seq<Area>, catalog: Option<Catalog>, v4: Option<V4>)

  // ----- gate counts -----

  function StatusTest(status: GateStatus): Gate -> bool {
    (g: Gate) => g.status == status
  }

  function WithStatus(gates: seq<Gate>, status: GateStatus): seq<Gate> {
    Filter(gates, StatusTest(status))
  }

  function SummarizeGates(gates: seq<Gate>): Summary {
    Summary(|gates|, |WithStatus(gates, Pass)|, |WithStatus(gates, Fail)|, |WithStatus(gates, Blocked)|,
            |WithStatus(gates, ClaimBlocked)|, |WithStatus(gates, NotRun)|, |WithStatus(gates, Info)|)
  }

  /** Every gate is counted under exactly one status. */
  lemma {:induction false} SummaryPartitionsGates(gates: seq<Gate>)
    ensures var s := SummarizeGates(gates);
            s.total == s.pass + s.fail + s.blocked + s.claimBlocked + s.notRun + s.info
  {
    if gates != [] {
      SummaryPartitionsGates(gates[1..]);
    }
  }

  predicate Summarized(b: Board) {
    b.gateSummary == SummarizeGates(b.gates)
  }

  // ----- readiness counts -----

  function PublicPending(): Readiness -> bool {
    (r: Readiness) => !r.publicBenchmarkClaimAllowed
  }

  function ExternalPending(): Readiness -> bool {
    (r: Readiness) => r.publicBenchmarkClaimAllowed && !r.externalComparisonClaimAllowed
  }

  function MissingCases(): Readiness -> nat {
    (r: Readiness) => r.missingCaseCount
  }

  // ----- the workbench -----

  datatype TrustState = ReadyForReleaseReview | RuntimeFailing | ReleaseBlocked | EvidenceIncomplete

  datatype ProductReason = GateFailing | GateBlocked | CoverageIncomplete | V4Incomplete

  datatype ExternalReason = ClaimBoundaryIncomplete | PublicRawIncomplete | TargetRawIncomplete | NotRunPresent

  datatype Workbench = Workbench(trustState: TrustState, productReleaseAllowed: bool, externalClaimAllowed: bool,
                                 productReasons: seq<ProductReason>, externalReasons: seq<ExternalReason>)

  /** Nothing stands against releasing the product. */
  predicate ProductClear(b: Board) {
    && b.gateSummary.fail == 0
    && b.gateSummary.blocked == 0
    && b.missingAreas == []
    && (b.v4.Some? ==> b.v4.value.status == Pass)
  }

  /** Nothing but missing public evidence stands against external claims. */
  predicate ClaimsOtherwiseClear(b: Board) {
    && b.gateSummary.claimBlocked == 0
    && b.gateSummary.notRun == 0
    && forall r :: r in b.readiness && r.publicBenchmarkClaimAllowed ==> r.externalComparisonClaimAllowed
  }

  predicate AllRowsAllowed(b: Board) {
    forall r :: r in b.readiness ==> r.publicBenchmarkClaimAllowed
  }

  predicate NoCaseMissing(b: Board) {
    forall r :: r in b.readiness ==> r.missingCaseCount == 0
  }

  /** What the workbench allows. */
  predicate WorkbenchAllowsRelease(b: Board) {
    ProductClear(b)
  }

  predicate WorkbenchAllowsClaims(b: Board) {
    ProductClear(b) && ClaimsOtherwiseClear(b) && AllRowsAllowed(b)
  }

  /** What the release trust panel allows. */
  predicate PanelAllowsRelease(b: Board) {
    ProductClear(b) && AliasesReady(b)
  }

  predicate PanelAllowsClaims(b: Board) {
    ProductClear(b) && AliasesReady(b) && ClaimsOtherwiseClear(b) && NoCaseMissing(b)
  }

  function TrustStateOf(b: Board): TrustState {
    if b.gateSummary.fail > 0 then RuntimeFailing
    else if b.gateSummary.blocked > 0 then ReleaseBlocked
    else if ProductClear(b) then ReadyForReleaseReview
    else EvidenceIncomplete
  }

  function ReasonIf<T>(condition: bool, reason: T): seq<T> {
    if condition then [reason] else []
  }

  function ProductReasons(b: Board): seq<ProductReason> {
    ReasonIf(b.gateSummary.fail > 0, GateFailing) + ReasonIf(b.gateSummary.blocked > 0, GateBlocked)
    + ReasonIf(b.missingAreas != [], CoverageIncomplete)
      + ReasonIf(b.v4.Some? && b.v4.value.status != Pass, V4Incomplete)
  }

  function ExternalReasons(b: Board): seq<ExternalReason> {
    ReasonIf(b.gateSummary.claimBlocked > 0, ClaimBoundaryIncomplete)
    + ReasonIf(Filter(b.readiness, PublicPending()) != [], PublicRawIncomplete)
    + ReasonIf(Filter(b.readiness, ExternalPending()) != [], TargetRawIncomplete)
    + ReasonIf(b.gateSummary.notRun > 0, NotRunPresent)
  }

  lemma ProductReasonsEmpty(b: Board)
    ensures ProductReasons(b) == [] <==> ProductClear(b)
  {
    assert |ProductReasons(b)| == 0 <==> ProductClear(b);
  }

  lemma ExternalReasonsEmpty(b: Board)
    ensures ExternalReasons(b) == [] <==> ClaimsOtherwiseClear(b) && AllRowsAllowed(b)
  {
    FilterLength(b.readiness, PublicPending());
    FilterLength(b.readiness, ExternalPending());
    PendingRows(b);
    assert |ExternalReasons(b)| == 0 <==>
      (b.gateSummary.claimBlocked == 0 && b.gateSummary.notRun == 0
       && |Filter(b.readiness, PublicPending())| == 0 && |Filter(b.readiness, ExternalPending())| == 0);
  }

  /** The reasons buildEvidenceWorkbench pushes, in its order. */
  method CollectReasons(b: Board) returns (product: seq<ProductReason>, external: seq<ExternalReason>)
    ensures product == ProductReasons(b) && external == ExternalReasons(b)
  {
    product, external := [], [];
    if b.gateSummary.fail > 0 { product := product + [GateFailing]; }
    if b.gateSummary.blocked > 0 { product := product + [GateBlocked]; }
    if b.gateSummary.claimBlocked > 0 { external := external + [ClaimBoundaryIncomplete]; }
    var publicPendingCount := |Filter(b.readiness, PublicPending())|;
    if publicPendingCount > 0 { external := external + [PublicRawIncomplete]; }
    var externalPendingCount := |Filter(b.readiness, ExternalPending())|;
    if externalPendingCount > 0 { external := external + [TargetRawIncomplete]; }
    if b.gateSummary.notRun > 0 { external := external + [NotRunPresent]; }
    if |b.missingAreas| > 0 { product := product + [CoverageIncomplete]; }
    if b.v4.Some? && b.v4.value.status != Pass { product := product + [V4Incomplete]; }
  }

  /** buildEvidenceWorkbench */
  method BuildEvidenceWorkbench(b: Board) returns (w: Workbench)
    ensures w.trustState == TrustStateOf(b)
    ensures w.productReleaseAllowed <==> WorkbenchAllowsRelease(b)
    ensures w.externalClaimAllowed <==> WorkbenchAllowsClaims(b)
    ensures w.productReasons == ProductReasons(b) && w.externalReasons == ExternalReasons(b)
  {
    var product, external := CollectReasons(b);
    ProductReasonsEmpty(b);
    ExternalReasonsEmpty(b);
    var trustState :=
      if b.gateSummary.fail > 0 then RuntimeFailing
      else if b.gateSummary.blocked > 0 then ReleaseBlocked
      else if |product| == 0 then ReadyForReleaseReview
      else EvidenceIncomplete;
    var productReleaseAllowed := trustState == ReadyForReleaseReview;
    w := Workbench(trustState, productReleaseAllowed, productReleaseAllowed && |external| == 0, product, external);
  }

  lemma PendingRows(b: Board)
    ensures (forall r :: r in b.readiness ==> !PublicPending()(r)) <==> AllRowsAllowed(b)
    ensures (forall r :: r in b.readiness ==> !ExternalPending()(r))
            <==> forall r :: r in b.readiness && r.publicBenchmarkClaimAllowed ==> r.externalComparisonClaimAllowed
  {
    if forall r :: r in b.readiness ==> !PublicPending()(r) {
      forall r | r in b.readiness ensures r.publicBenchmarkClaimAllowed { assert !PublicPending()(r); }
    }
    if forall r :: r in b.readiness ==> !ExternalPending()(r) {
      forall r | r in b.readiness && r.publicBenchmarkClaimAllowed ensures r.externalComparisonClaimAllowed {
        assert !ExternalPending()(r);
      }
    }
  }

  // ----- the release trust panel -----

  datatype PanelStatus = ReadyForReview | PanelBlocked | NeedsEvidence | PanelFailing

  datatype ProductNeed = CatalogWithAliases | V4Stages(names: seq<string>) | BlockerResolution
      | Coverage(areas: seq<Area>)

  datatype ClaimNeed = ClaimEvidence | PublicRawFor(cases: nat) | TargetRawFor(manifests: nat) | NotRunCannotClaim

  datatype Panel = Panel(status: PanelStatus, productReleaseAllowed: bool, externalClaimAllowed: bool,
                         mainlineAliasesReady: bool, v4ConsolidationReady: bool,
                         blockedGateNames: seq<string>, claimBlockedGateNames: seq<string>,
                         missingCases: nat, productNeeds: seq<ProductNeed>, claimNeeds: seq<ClaimNeed>)

  const MAINLINE_ALIASES := ["evidence:dashboard", "benchmark:swe-bench", "health:runtime", "cache:warm"]

  predicate AliasesReady(b: Board) {
    b.catalog.Some? && forall alias :: alias in MAINLINE_ALIASES ==> alias in b.catalog.value.mainlineAliases
  }

  function GateName(): Gate -> string {
    (g: Gate) => g.name
  }

  /** The first twelve names of the gates with a status. */
  function SampleNames(gates: seq<Gate>, status: GateStatus): (names: seq<string>)
    ensures names == [] <==> WithStatus(gates, status) == []
  {
    var names := MapSeq(WithStatus(gates, status), GateName());
    if |names| <= 12 then names else names[..12]
  }

  function V4Names(v4: Option<V4>): seq<string> {
    match v4
    case Some(v) => if v.missingStages != [] then v.missingStages else v.blockedStages
    case None => []
  }

  function ProductNeeds(b: Board): seq<ProductNeed> {
    ReasonIf(!AliasesReady(b), CatalogWithAliases)
    + ReasonIf(b.v4.Some? && b.v4.value.status != Pass, V4Stages(V4Names(b.v4)))
    + ReasonIf(SampleNames(b.gates, Blocked) != [], BlockerResolution)
    + ReasonIf(b.missingAreas != [], Coverage(b.missingAreas))
  }

  function ClaimNeeds(b: Board): seq<ClaimNeed> {
    ReasonIf(SampleNames(b.gates, ClaimBlocked) != [], ClaimEvidence)
    + ReasonIf(Sum(b.readiness, MissingCases()) > 0, PublicRawFor(Sum(b.readiness, MissingCases())))
    + ReasonIf(Filter(b.readiness, ExternalPending()) != [], TargetRawFor(|Filter(b.readiness, ExternalPending())|))
    + ReasonIf(b.gateSummary.notRun > 0, NotRunCannotClaim)
  }

  lemma ProductNeedsEmpty(b: Board)
    requires Summarized(b) && b.gateSummary.fail == 0
    ensures ProductNeeds(b) == [] <==> ProductClear(b) && AliasesReady(b)
  {
    assert |ProductNeeds(b)| == 0 <==> ProductClear(b) && AliasesReady(b);
  }

  lemma ClaimNeedsEmpty(b: Board)
    requires Summarized(b)
    ensures ClaimNeeds(b) == [] <==> ClaimsOtherwiseClear(b) && NoCaseMissing(b)
  {
    FilterLength(b.readiness, ExternalPending());
    NoneMissingIffZero(b.readiness);
    PendingRows(b);
    assert |ClaimNeeds(b)| == 0 <==>
      (b.gateSummary.claimBlocked == 0 && b.gateSummary.notRun == 0
       && Sum(b.readiness, MissingCases()) == 0 && |Filter(b.readiness, ExternalPending())| == 0);
  }

  /** What buildReleaseTrustPanel still asks for before a release, in its order. */
  method CollectProductNeeds(b: Board) returns (needs: seq<ProductNeed>)
    ensures needs == ProductNeeds(b)
  {
    needs := [];
    if !AliasesReady(b) { needs := needs + [CatalogWithAliases]; }
    if b.v4.Some? && b.v4.value.status != Pass { needs := needs + [V4Stages(V4Names(b.v4))]; }
    if |SampleNames(b.gates, Blocked)| > 0 { needs := needs + [BlockerResolution]; }
    if |b.missingAreas| > 0 { needs := needs + [Coverage(b.missingAreas)]; }
  }

  /** And before external claims. */
  method CollectClaimNeeds(b: Board) returns (claims: seq<ClaimNeed>)
    ensures claims == ClaimNeeds(b)
  {
    claims := [];
    if |SampleNames(b.gates, ClaimBlocked)| > 0 { claims := claims + [ClaimEvidence]; }
    var missing := Sum(b.readiness, MissingCases());
    if missing > 0 { claims := claims + [PublicRawFor(missing)]; }
    var externalPendingCount := |Filter(b.readiness, ExternalPending())|;
    if externalPendingCount > 0 { claims := claims + [TargetRawFor(externalPendingCount)]; }
    if b.gateSummary.notRun > 0 { claims := claims + [NotRunCannotClaim]; }
  }

  /** buildReleaseTrustPanel. Its product verdict reads the gates themselves where the
      workbench reads their summary, and adds the command aliases; its claim verdict
      sums missing cases where the workbench counts rows. */
  method BuildReleaseTrustPanel(b: Board) returns (p: Panel)
    requires Summarized(b)
    ensures p.mainlineAliasesReady <==> AliasesReady(b)
    ensures p.v4ConsolidationReady <==> b.v4.Some? && b.v4.value.status == Pass
    ensures p.productReleaseAllowed <==> PanelAllowsRelease(b)
    ensures p.externalClaimAllowed <==> PanelAllowsClaims(b)
    ensures p.status == PanelStatusOf(b)
    ensures p.missingCases == Sum(b.readiness, MissingCases())
    ensures p.productNeeds == ProductNeeds(b) && p.claimNeeds == ClaimNeeds(b)
    ensures p.blockedGateNames == SampleNames(b.gates, Blocked)
            && p.claimBlockedGateNames == SampleNames(b.gates, ClaimBlocked)
  {
    var needs := CollectProductNeeds(b);
    var claims := CollectClaimNeeds(b);
    if b.gateSummary.fail == 0 {
      ProductNeedsEmpty(b);
    }
    ClaimNeedsEmpty(b);
    var status :=
      if b.gateSummary.fail > 0 then PanelFailing
      else if b.gateSummary.blocked > 0 then PanelBlocked
      else if |needs| > 0 then NeedsEvidence
      else ReadyForReview;
    var productReleaseAllowed := status == ReadyForReview;
    p := Panel(status, productReleaseAllowed, productReleaseAllowed && |claims| == 0,
               AliasesReady(b), b.v4.Some? && b.v4.value.status == Pass,
               SampleNames(b.gates, Blocked), SampleNames(b.gates, ClaimBlocked),
               Sum(b.readiness, MissingCases()), needs, claims);
  }

  function PanelStatusOf(b: Board): PanelStatus {
    if b.gateSummary.fail > 0 then PanelFailing
    else if b.gateSummary.blocked > 0 then PanelBlocked
    else if ProductClear(b) && AliasesReady(b) then ReadyForReview
    else NeedsEvidence
  }

  lemma {:induction false} NoneMissingIffZero(rows: seq<Readiness>)
    ensures Sum(rows, MissingCases()) == 0 <==> forall r :: r in rows ==> r.missingCaseCount == 0
  {
    if rows != [] {
      NoneMissingIffZero(rows[1..]);
      assert rows == [rows[0]] + rows[1..];
    }
  }

  // ----- the two verdicts -----

  /** What holds of every row the readiness check builds. */
  predicate RowsAreChecked(rows: seq<Readiness>) {
    forall r :: r in rows && r.publicBenchmarkClaimAllowed ==> r.missingCaseCount == 0
  }

  /** Both verdicts of one board. The product verdicts differ by the aliases only; the
      claim verdicts differ as well exactly when, with all else clear, the rows that
      allow a claim are not the rows without missing cases. On rows the readiness
      check built only the panel can allow what the other withholds. */
  method Verdicts(b: Board) returns (w: Workbench, p: Panel)
    requires Summarized(b)
    ensures p.productReleaseAllowed <==> w.productReleaseAllowed && AliasesReady(b)
    ensures (p.externalClaimAllowed <==> w.externalClaimAllowed && AliasesReady(b))
            <==> (w.productReleaseAllowed && AliasesReady(b) && ClaimsOtherwiseClear(b)
                  ==> (AllRowsAllowed(b) <==> NoCaseMissing(b)))
    ensures (forall r :: r in b.readiness ==> (r.publicBenchmarkClaimAllowed <==> r.missingCaseCount == 0)) ==>
            (p.externalClaimAllowed <==> w.externalClaimAllowed && AliasesReady(b))
    ensures RowsAreChecked(b.readiness) && w.externalClaimAllowed && AliasesReady(b) ==> p.externalClaimAllowed
    ensures RowsAreChecked(b.readiness) ==>
              (p.externalClaimAllowed && !w.externalClaimAllowed
               <==> p.productReleaseAllowed && ClaimsOtherwiseClear(b) && NoCaseMissing(b)
                    && exists r :: r in b.readiness && !r.publicBenchmarkClaimAllowed)
  {
    w := BuildEvidenceWorkbench(b);
    p := BuildReleaseTrustPanel(b);
  }

  // ----- rows as the readiness check builds them -----

  /** A manifest case: whether raw evidence was found for it, the redlines against that
      evidence, and whether the external target's evidence is clear. */
  datatype ReviewedCase = ReviewedCase(hasRaw: bool, redlines: nat, externalClear: bool)

  predicate CaseReady(c: ReviewedCase) {
    c.hasRaw && c.redlines == 0
  }

  function ReadyCase(): ReviewedCase -> bool {
    (c: ReviewedCase) => CaseReady(c)
  }

  /** Status BLOCKED; a case with faulty evidence is PARTIAL instead. */
  function MissingCase(): ReviewedCase -> bool {
    (c: ReviewedCase) => !c.hasRaw
  }

  function ExternalReadyCase(): ReviewedCase -> bool {
    (c: ReviewedCase) => CaseReady(c) && c.externalClear
  }

  /** buildPublicComparableRawEvidenceReadiness, from the manifest's own blockers and its reviewed cases. */
  function ReadinessRow(blockers: nat, cases: seq<ReviewedCase>): Readiness {
    var ready, missing := |Filter(cases, ReadyCase())|, |Filter(cases, MissingCase())|;
    var allowed := blockers == 0 && ready == |cases| && |cases| > 0;
    Readiness(|cases|, ready, missing, allowed, allowed && |Filter(cases, ExternalReadyCase())| == |cases|)
  }

  /** An allowed row misses nothing. A row that misses nothing is not allowed exactly
      when its manifest is blocked, is empty, or holds a case with faulty evidence. */
  lemma ReadinessRowGap(blockers: nat, cases: seq<ReviewedCase>)
    ensures var r := ReadinessRow(blockers, cases);
            (r.publicBenchmarkClaimAllowed ==> r.missingCaseCount == 0)
            && (r.missingCaseCount == 0 ==>
                  (!r.publicBenchmarkClaimAllowed
                   <==> blockers > 0 || cases == [] || exists c :: c in cases && c.hasRaw && c.redlines > 0))
  {
    FilterLength(cases, ReadyCase());
    FilterLength(cases, MissingCase());
    assert |Filter(cases, ReadyCase())| == |cases| <==> forall c :: c in cases ==> ReadyCase()(c);
    assert |Filter(cases, MissingCase())| == 0 <==> forall c :: c in cases ==> !MissingCase()(c);
    if |Filter(cases, MissingCase())| == 0 {
      forall c | c in cases ensures c.hasRaw { assert !MissingCase()(c); }
      if c :| c in cases && c.redlines > 0 {
        assert !ReadyCase()(c);
      }
    }
  }
}
