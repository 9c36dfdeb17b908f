/** The dashboard's look-ups over the whole directory, newest file name first: the
    raw-evidence manifest it feeds to the readiness check, and the import report that
    supersedes older ones. */
module EvidenceChoice {
  import opened Collections
  import opened JsonModel
  import opened Text
  import opened Sorting
  import opened GateEvidence

  /** A file of the evidence directory; content is None when it does not parse. */
  datatype File = File(path: string, name: string, content: Option<Json>)

  // ----- the search order -----

  function PathsOf(files: seq<File>): set<string> {
    set f | f in files :: f.path
  }

  predicate DistinctPaths(files: seq<File>) {
    forall i, j :: 0 <= i < j < |files| ==> files[i].path != files[j].path
  }

  /** A directory listing, whose paths the default sort tells apart. */
  ghost predicate Listing(files: seq<File>, order: Compare<string>) {
    DistinctPaths(files) && StrictTotal(order, PathsOf(files))
  }

  function LaterFirst(order: Compare<string>): Compare<File> {
    (a: File, b: File) => order(b.path, a.path)
  }

  /** [...files].sort().reverse() */
  function Descending(files: seq<File>, order: Compare<string>): seq<File> {
    SortBy(files, LaterFirst(order))
  }

  /** The best eligible file, later paths first. */
  function Chosen(files: seq<File>, order: Compare<string>, eligible: File -> bool,
                  better: Better<File>): Option<File> {
    Best(Filter(Descending(files, order), eligible), better)
  }

  lemma LaterFirstIsStrictTotal(files: seq<File>, order: Compare<string>)
    requires Listing(files, order)
    ensures StrictTotal(LaterFirst(order), ToSet(files))
  {
    var compare := LaterFirst(order);
    forall a, b | a in files && b in files
      ensures (compare(a, b) == 0 <==> a == b) && (compare(a, b) < 0 <==> compare(b, a) > 0)
    {
      assert a.path in PathsOf(files) && b.path in PathsOf(files);
      var i :| 0 <= i < |files| && files[i] == a;
      var j :| 0 <= j < |files| && files[j] == b;
      assert a.path == b.path ==> i == j;
    }
    forall a, b, c | a in files && b in files && c in files && compare(a, b) < 0 && compare(b, c) < 0
      ensures compare(a, c) < 0
    {
      assert a.path in PathsOf(files) && b.path in PathsOf(files) && c.path in PathsOf(files);
    }
  }

  /** The eligible files. */
  function Candidates(files: seq<File>, eligible: File -> bool): set<File> {
    set f | f in files && eligible(f)
  }

  /** The chosen file is the greatest eligible one: by rank, then by path. */
  lemma ChosenIsGreatest(files: seq<File>, order: Compare<string>, eligible: File -> bool, better: Better<File>)
    requires Listing(files, order) && Ranks(better)
    ensures match Chosen(files, order, eligible, better)
      case None => Candidates(files, eligible) == {}
      case Some(f) => GreatestOf(Candidates(files, eligible), f, better, LaterFirst(order))
  {
    var compare, s := LaterFirst(order), ToSet(files);
    var sorted := Descending(files, order);
    LaterFirstIsStrictTotal(files, order);
    SortSorted(files, compare, s);
    SortIsPermutation(files, compare);
    PermutationMembers(files, sorted);
    var kept := Filter(sorted, eligible);
    SortedFilter(sorted, eligible, compare, s);
    FilterMembers(sorted, eligible);
    assert ToSet(kept) == Candidates(files, eligible);
    BestIsGreatest(kept, better, compare);
    if kept == [] {
      assert ToSet(kept) == {};
    }
  }

  /** The choice depends on the eligible files only, not on what else is listed or
      in which order. */
  lemma ChosenDependsOnCandidates(files: seq<File>, others: seq<File>, order: Compare<string>,
                                  eligible: File -> bool, better: Better<File>)
    requires Listing(files, order) && Listing(others, order) && Ranks(better)
    requires Candidates(files, eligible) == Candidates(others, eligible)
    ensures Chosen(files, order, eligible, better) == Chosen(others, order, eligible, better)
  {
    ChosenIsGreatest(files, order, eligible, better);
    ChosenIsGreatest(others, order, eligible, better);
    LaterFirstIsStrictTotal(files, order);
    var first, second := Chosen(files, order, eligible, better), Chosen(others, order, eligible, better);
    if first.Some? && second.Some? {
      GreatestUnique(Candidates(files, eligible), first.value, second.value, better, LaterFirst(order));
    }
  }

  /** One step of the best-so-far loop over the sorted files. */
  lemma SearchStep(sorted: seq<File>, i: nat, eligible: File -> bool, better: Better<File>)
    requires i < |sorted|
    ensures Best(Filter(sorted[..i + 1], eligible), better)
            == var best := Best(Filter(sorted[..i], eligible), better);
               if eligible(sorted[i]) && (best.None? || better(sorted[i], best.value)) then Some(sorted[i]) else best
  {
    FilterSnoc(sorted, i, eligible);
    if eligible(sorted[i]) {
      var kept := Filter(sorted[..i + 1], eligible);
      assert kept == Filter(sorted[..i], eligible) + [sorted[i]];
      assert kept[..|kept| - 1] == Filter(sorted[..i], eligible);
      assert kept[|kept| - 1] == sorted[i];
    } else {
      assert Filter(sorted[..i + 1], eligible) == Filter(sorted[..i], eligible);
    }
  }

  // ----- the raw-evidence manifest -----

  function ManifestTest(): File -> bool {
    (f: File) => f.content.Some? && IsRawEvidenceManifest(f.content.value)
  }

  function CaseCount(f: File): nat {
    match f.content
    case Some(json) => |Items(Field(json, "cases"))|
    case None => 0
  }

  function CollectedAt(rt: Runtime, f: File): Option<int> {
    match f.content
    case Some(json) => rt.parseDate(TextOr(rt, Member(Field(json, "source"), "collectedAt")))
    case None => None
  }

  /** isBetterRawEvidenceManifest */
  predicate IsBetterManifest(rt: Runtime, candidate: File, current: File) {
    if CaseCount(candidate) != CaseCount(current) then CaseCount(candidate) > CaseCount(current)
    else
      var date, currentDate := CollectedAt(rt, candidate), CollectedAt(rt, current);
      date.Some? && (currentDate.None? || date.value > currentDate.value)
  }

  function BetterManifest(rt: Runtime): Better<File> {
    (a: File, b: File) => IsBetterManifest(rt, a, b)
  }

  /** findPublicComparableRawEvidenceManifest */
  method FindRawManifest(rt: Runtime, files: seq<File>, order: Compare<string>) returns (best: Option<File>)
    ensures best == Chosen(files, order, ManifestTest(), BetterManifest(rt))
  {
    best := None;
    var sorted := Descending(files, order);
    for i := 0 to |sorted|
      invariant best == Best(Filter(sorted[..i], ManifestTest()), BetterManifest(rt))
    {
      SearchStep(sorted, i, ManifestTest(), BetterManifest(rt));
      var file := sorted[i];
      if file.content.Some? && IsRawEvidenceManifest(file.content.value)
         && (best.None? || IsBetterManifest(rt, file, best.value)) {
        best := Some(file);
      }
    }
    assert sorted[..|sorted|] == sorted;
  }

  /** No date counts as earlier than any date. */
  function DateRank(date: Option<int>, other: Option<int>): int {
    match (date, other)
    case (None, None) => 0
    case (None, Some(_)) => -1
    case (Some(_), None) => 1
    case (Some(a), Some(b)) => a - b
  }

  /** The greatest manifest under case count, then date with the unparsable lowest,
      then file path. */
  ghost predicate OutranksManifest(rt: Runtime, order: Compare<string>, a: File, b: File) {
    || CaseCount(a) > CaseCount(b)
    || (CaseCount(a) == CaseCount(b)
        && (DateRank(CollectedAt(rt, a), CollectedAt(rt, b)) > 0
            || (DateRank(CollectedAt(rt, a), CollectedAt(rt, b)) == 0 && order(a.path, b.path) > 0)))
  }

  lemma ManifestRanks(rt: Runtime)
    ensures Ranks(BetterManifest(rt))
  {
  }

  lemma ChosenManifestIsGreatest(rt: Runtime, files: seq<File>, order: Compare<string>)
    requires Listing(files, order)
    ensures match Chosen(files, order, ManifestTest(), BetterManifest(rt))
      case None => forall f :: f in files ==> !ManifestTest()(f)
      case Some(best) => best in files && ManifestTest()(best)
                         && forall f :: f in files && ManifestTest()(f) && f != best ==>
                            OutranksManifest(rt, order, best, f)
  {
    ManifestRanks(rt);
    ChosenIsGreatest(files, order, ManifestTest(), BetterManifest(rt));
    match Chosen(files, order, ManifestTest(), BetterManifest(rt))
    case None =>
      forall f | f in files ensures !ManifestTest()(f) {
        assert f !in Candidates(files, ManifestTest());
      }
    case Some(best) =>
      assert best in Candidates(files, ManifestTest());
      forall f | f in files && ManifestTest()(f) && f != best ensures OutranksManifest(rt, order, best, f) {
        assert f in Candidates(files, ManifestTest());
        assert f.path in PathsOf(files) && best.path in PathsOf(files);
      }
  }

  // ----- the superseding import report -----

  function Cases(rt: Runtime, json: Json): real {
    Numeric(rt, Field(json, "caseCount")).GetOr(0.0)
  }

  function ReadyCases(rt: Runtime, json: Json): real {
    Numeric(rt, Field(json, "readyCaseCount")).GetOr(0.0)
  }

  /** A report that is PASS, complete and allowed to back public claims. */
  predicate IsReadyImport(rt: Runtime, json: Json) {
    && IsImportReport(json)
    && rt.upper(TextOr(rt, Field(json, "status"))) == "PASS"
    && Cases(rt, json) > 0.0
    && ReadyCases(rt, json) >= Cases(rt, json)
    && Numeric(rt, Field(json, "missingCaseCount")).GetOr(0.0) == 0.0
    && IsTrue(Field(json, "publicBenchmarkClaimAllowed"))
  }

  function ReadyTest(rt: Runtime): File -> bool {
    (f: File) => f.content.Some? && IsReadyImport(rt, f.content.value)
  }

  function ReadyCount(rt: Runtime, f: File): real {
    match f.content
    case Some(json) => ReadyCases(rt, json)
    case None => 0.0
  }

  function MoreReady(rt: Runtime): Better<File> {
    (a: File, b: File) => ReadyCount(rt, a) > ReadyCount(rt, b)
  }

  function Winner(rt: Runtime, files: seq<File>, order: Compare<string>): Option<File> {
    Chosen(files, order, ReadyTest(rt), MoreReady(rt))
  }

  datatype Superseding = Superseding(rawEvidenceReady: bool, evidenceFile: Option<string>, caseCount: real,
                                     readyCaseCount: real)

  function SupersedingOf(rt: Runtime, winner: Option<File>): Superseding {
    match winner
    case Some(File(path, _, Some(json))) => Superseding(true, Some(path), Cases(rt, json), ReadyCases(rt, json))
    case _ => Superseding(false, None, 0.0, 0.0)
  }

  /** findCurrentPublicComparableSupersession */
  method FindSupersession(rt: Runtime, files: seq<File>, order: Compare<string>) returns (best: Superseding)
    ensures best == SupersedingOf(rt, Winner(rt, files, order))
  {
    best := Superseding(false, None, 0.0, 0.0);
    var sorted := Descending(files, order);
    ghost var winner: Option<File> := None;
    for i := 0 to |sorted|
      invariant winner == Best(Filter(sorted[..i], ReadyTest(rt)), MoreReady(rt))
      invariant winner.Some? ==> winner.value.content.Some?
      invariant best == SupersedingOf(rt, winner)
    {
      SearchStep(sorted, i, ReadyTest(rt), MoreReady(rt));
      var file := sorted[i];
      if file.content.Some? {
        var json := file.content.value;
        if IsReadyImport(rt, json) && (!best.rawEvidenceReady || ReadyCases(rt, json) > best.readyCaseCount) {
          best := Superseding(true, Some(file.path), Cases(rt, json), ReadyCases(rt, json));
          winner := Some(file);
        }
      }
    }
    assert sorted[..|sorted|] == sorted;
  }

  lemma MoreReadyRanks(rt: Runtime)
    ensures Ranks(MoreReady(rt))
  {
  }

  /** The winner has the most ready cases among the ready reports. */
  lemma WinnerIsMostReady(rt: Runtime, files: seq<File>, order: Compare<string>)
    requires Listing(files, order)
    ensures match Winner(rt, files, order)
      case None => forall f :: f in files ==> !ReadyTest(rt)(f)
      case Some(w) => w in files && ReadyTest(rt)(w)
                      && forall f :: f in files && ReadyTest(rt)(f) ==> ReadyCount(rt, f) <= ReadyCount(rt, w)
  {
    MoreReadyRanks(rt);
    ChosenIsGreatest(files, order, ReadyTest(rt), MoreReady(rt));
    match Winner(rt, files, order)
    case None =>
      forall f | f in files ensures !ReadyTest(rt)(f) {
        assert f !in Candidates(files, ReadyTest(rt));
      }
    case Some(w) =>
      assert w in Candidates(files, ReadyTest(rt));
      forall f | f in files && ReadyTest(rt)(f) ensures ReadyCount(rt, f) <= ReadyCount(rt, w) {
        assert f in Candidates(files, ReadyTest(rt));
      }
  }

  // ----- the supersession rules -----

  const GAP_NAME := "DSXU_V20_REAL_GAP_ACCEPTANCE_SUMMARY_"

  const GAP_WORD := "TARGET_RAW_STILL_EXTERNAL"

  predicate SupersededTargetRawGap(rt: Runtime, p12Pass: bool, name: string, json: Json) {
    && p12Pass
    && StartsWith(name, GAP_NAME)
    && Contains(StatusOf(rt, json), GAP_WORD)
  }

  predicate SupersededImport(rt: Runtime, s: Superseding, json: Json) {
    && s.rawEvidenceReady
    && IsImportReport(json)
    && !IsReadyImport(rt, json)
    && Cases(rt, json) <= s.caseCount
    && ReadyCases(rt, json) < s.readyCaseCount
  }

  const LANE_NAME := "DSXU_PUBLIC_COMPARABLE_DSXU_LANE"

  /** A status that is not a pass and says partial, blocked or failed. */
  predicate IsLaneGap(status: string) {
    && status !in {"PASS", "OK", "SUCCESS"} && !StartsWith(status, "PASS_") && !EndsWith(status, "_PASS")
    && (Contains(status, "PARTIAL") || Contains(status, "BLOCKED") || status in {"FAIL", "FAILED"}
        || StartsWith(status, "FAIL_") || EndsWith(status, "_FAIL"))
  }

  predicate SupersededLane(rt: Runtime, s: Superseding, name: string, json: Json) {
    && s.rawEvidenceReady
    && StartsWith(name, LANE_NAME)
    && IsLaneGap(StatusOf(rt, json))
  }

  predicate Superseded(rt: Runtime, p12Pass: bool, s: Superseding, name: string, json: Json) {
    SupersededTargetRawGap(rt, p12Pass, name, json) || SupersededImport(rt, s, json)
        || SupersededLane(rt, s, name, json)
  }

  /** The status a gate is shown with. */
  function ShownStatus(rt: Runtime, p12Pass: bool, s: Superseding, name: string, json: Json,
                       manifestGate: Option<GateStatus>): GateStatus
    requires !json.JNull?
  {
    var inferred := InferGateStatus(rt, json);
    if Superseded(rt, p12Pass, s, name, json) then Info
    else if manifestGate.Some? then manifestGate.value
    else if IsLegacySweBenchClaim(name, json)
    then (if inferred in {Fail, Blocked, ClaimBlocked} then inferred else Info)
    else inferred
  }

  /** A ready report in the set with at least as many cases and strictly more ready. */
  ghost predicate Outdone(rt: Runtime, files: seq<File>, json: Json) {
    exists f :: f in files && ReadyTest(rt)(f) && Cases(rt, json) <= Cases(rt, f.content.value)
                && ReadyCases(rt, json) < ReadyCases(rt, f.content.value)
  }

  /** An import report is superseded only when a report of the same set outdoes it. */
  lemma SupersededOnlyWhenOutdone(rt: Runtime, files: seq<File>, order: Compare<string>, json: Json)
    requires Listing(files, order)
    requires SupersededImport(rt, SupersedingOf(rt, Winner(rt, files, order)), json)
    ensures IsImportReport(json) && !IsReadyImport(rt, json) && Outdone(rt, files, json)
  {
    WinnerIsMostReady(rt, files, order);
    var w := Winner(rt, files, order).value;
    assert w in files && ReadyTest(rt)(w);
  }

  /** Where no ready report counts more ready cases than cases, being outdone is
      also enough. */
  lemma SupersededIffOutdone(rt: Runtime, files: seq<File>, order: Compare<string>, json: Json)
    requires Listing(files, order)
    requires forall f :: f in files && ReadyTest(rt)(f) ==>
             ReadyCases(rt, f.content.value) <= Cases(rt, f.content.value)
    ensures SupersededImport(rt, SupersedingOf(rt, Winner(rt, files, order)), json)
            <==> IsImportReport(json) && !IsReadyImport(rt, json) && Outdone(rt, files, json)
  {
    WinnerIsMostReady(rt, files, order);
    if Outdone(rt, files, json) {
      var f :| f in files && ReadyTest(rt)(f) && Cases(rt, json) <= Cases(rt, f.content.value)
               && ReadyCases(rt, json) < ReadyCases(rt, f.content.value);
      var w := Winner(rt, files, order).value;
      assert ReadyCount(rt, f) <= ReadyCount(rt, w);
    }
    if SupersededImport(rt, SupersedingOf(rt, Winner(rt, files, order)), json) {
      SupersededOnlyWhenOutdone(rt, files, order, json);
    }
  }

  predicate StatusIsText(json: Json) {
    match Field(json, "status")
    case Some(JStr(text)) => Trim(text) != ""
    case _ => false
  }

  lemma PassIsNoGap()
    ensures !Contains("PASS", GAP_WORD)
  {
    NotContained("PASS", GAP_WORD);
  }

  lemma TextStatusIsRead(rt: Runtime, json: Json)
    requires StatusIsText(json) && rt.upper(TextOr(rt, Field(json, "status"))) == "PASS"
    ensures StatusOf(rt, json) == "PASS"
  {
    assert StatusCandidates(json)[0] == Field(json, "status");
  }

  /** No ready report, the winner among them, is demoted by any rule when its status
      is written as text; it is then shown as PASS, or as INFO under a name of the
      legacy benchmark results. */
  lemma ReadyReportIsKept(rt: Runtime, p12Pass: bool, s: Superseding, name: string, json: Json)
    requires IsReadyImport(rt, json) && StatusIsText(json)
    ensures !Superseded(rt, p12Pass, s, name, json)
    ensures !json.JNull?
    ensures ShownStatus(rt, p12Pass, s, name, json, None) == if IsLegacySweBenchClaim(name, json) then Info else Pass
  {
    TextStatusIsRead(rt, json);
    PassIsNoGap();
  }

  /** The first status text among verdict, summary, review, validation, result and report. */
  function OtherStatus(rt: Runtime, json: Json): string {
    FirstStatus(rt, StatusCandidates(json)[1..])
  }

  /** Otherwise its own status is passed over, and it is demoted exactly when its other
      status fields say so: a target gap under the gap name while P12 passes, or a
      partial, blocked or failed status under the lane name while a winner exists. */
  lemma ReadyReportDemotedIff(rt: Runtime, p12Pass: bool, s: Superseding, name: string, json: Json)
    requires IsReadyImport(rt, json)
    ensures Superseded(rt, p12Pass, s, name, json)
            <==> !StatusIsText(json)
                 && (|| (p12Pass && StartsWith(name, GAP_NAME) && Contains(OtherStatus(rt, json), GAP_WORD))
                     || (s.rawEvidenceReady && StartsWith(name, LANE_NAME) && IsLaneGap(OtherStatus(rt, json))))
  {
    if StatusIsText(json) {
      ReadyReportIsKept(rt, p12Pass, s, name, json);
    } else {
      assert StatusCandidates(json)[0] == Field(json, "status");
    }
  }

  /** A report that is ready although its status is the list ["PASS"]. */
  function ListedReport(verdict: string): Json {
    JObj([
      ("schemaVersion", JStr("dsxu.public-comparable-raw-evidence-import-report.v1")),
      ("status", JArr([JStr("PASS")])), ("verdict", JStr(verdict)),
      ("caseCount", JNum(Fin(1.0))), ("readyCaseCount", JNum(Fin(1.0))), ("publicBenchmarkClaimAllowed", JBool(true))])
  }

  lemma ListedLookups(verdict: string)
    ensures Field(ListedReport(verdict), "schemaVersion")
            == Some(JStr("dsxu.public-comparable-raw-evidence-import-report.v1"))
    ensures Field(ListedReport(verdict), "status") == Some(JArr([JStr("PASS")]))
    ensures Field(ListedReport(verdict), "verdict") == Some(JStr(verdict))
  {
    var f := ListedReport(verdict).fields;
    LookupBefore(f, 3, "verdict");
    LookupBefore(f, 2, "status");
    LookupBefore(f, 1, "schemaVersion");
  }

  lemma ListedNumbers(verdict: string)
    ensures Field(ListedReport(verdict), "caseCount") == Some(JNum(Fin(1.0)))
    ensures Field(ListedReport(verdict), "readyCaseCount") == Some(JNum(Fin(1.0)))
    ensures Field(ListedReport(verdict), "missingCaseCount") == None
    ensures Field(ListedReport(verdict), "publicBenchmarkClaimAllowed") == Some(JBool(true))
  {
    var f := ListedReport(verdict).fields;
    LookupBefore(f, 4, "caseCount");
    LookupBefore(f, 5, "readyCaseCount");
    LookupBefore(f, 6, "publicBenchmarkClaimAllowed");
    LookupNone(f, "missingCaseCount");
  }

  /** Its status reads as PASS, its first status text is the verdict's. */
  lemma ListedTexts(rt: Runtime, json: Json, verdict: string)
    requires Field(json, "status") == Some(JArr([JStr("PASS")])) && Field(json, "verdict") == Some(JStr(verdict))
    requires Trim(verdict) != "" && rt.upper(verdict) == verdict && verdict != ""
    ensures TextOr(rt, Field(json, "status")) == "PASS"
    ensures StatusOf(rt, json) == verdict
  {
    assert JoinItems(rt, [JStr("PASS")]) == ToText(rt, JStr("PASS"));
    var candidates := StatusCandidates(json);
    assert candidates[0] == Some(JArr([JStr("PASS")])) && candidates[1..][0] == Some(JStr(verdict));
    assert FirstStatus(rt, candidates[1..]) == verdict;
  }

  lemma ListedIsReady(rt: Runtime, verdict: string)
    requires rt.upper("PASS") == "PASS" && rt.upper(verdict) == verdict && Trim(verdict) != "" && verdict != ""
    ensures IsReadyImport(rt, ListedReport(verdict)) && StatusOf(rt, ListedReport(verdict)) == verdict
  {
    ListedLookups(verdict);
    ListedNumbers(verdict);
    ListedTexts(rt, ListedReport(verdict), verdict);
  }

  /** The only file of a listing wins when it is ready. */
  lemma OnlyFileWins(rt: Runtime, f: File, order: Compare<string>)
    requires ReadyTest(rt)(f)
    ensures Winner(rt, [f], order) == Some(f)
  {
    var one := [f];
    assert one[1..] == [];
    SortOne(f, LaterFirst(order));
    assert Filter(one, ReadyTest(rt)) == [f];
    assert one[..0] == [];
    assert Best(one, MoreReady(rt)) == Some(f);
  }

  lemma GapWordIsText()
    ensures Trim(GAP_WORD) != "" && Trim("FAIL") != ""
  {
    assert !IsSpace(GAP_WORD[0]) && !IsSpace("FAIL"[0]);
  }

  lemma FailIsLaneGap()
    ensures IsLaneGap("FAIL")
  {
  }

  /** The winner of a listing can be demoted by the gap rule, through its verdict. */
  lemma WinnerDemotedAsGap(rt: Runtime, path: string, order: Compare<string>)
    requires rt.upper("PASS") == "PASS" && rt.upper(GAP_WORD) == GAP_WORD
    ensures var f := File(path, GAP_NAME, Some(ListedReport(GAP_WORD)));
            Winner(rt, [f], order) == Some(f)
            && Superseded(rt, true, SupersedingOf(rt, Winner(rt, [f], order)), f.name, f.content.value)
  {
    var f := File(path, GAP_NAME, Some(ListedReport(GAP_WORD)));
    GapWordIsText();
    ListedIsReady(rt, GAP_WORD);
    OnlyFileWins(rt, f, order);
    assert OccursAt(GAP_WORD, GAP_WORD, 0);
  }

  /** And by the lane rule, which its own readiness switches on. */
  lemma WinnerDemotedAsLane(rt: Runtime, p12Pass: bool, path: string, order: Compare<string>)
    requires rt.upper("PASS") == "PASS" && rt.upper("FAIL") == "FAIL"
    ensures var f := File(path, LANE_NAME, Some(ListedReport("FAIL")));
            Winner(rt, [f], order) == Some(f)
            && Superseded(rt, p12Pass, SupersedingOf(rt, Winner(rt, [f], order)), f.name, f.content.value)
  {
    var f := File(path, LANE_NAME, Some(ListedReport("FAIL")));
    GapWordIsText();
    ListedIsReady(rt, "FAIL");
    FailIsLaneGap();
    OnlyFileWins(rt, f, order);
  }
}
