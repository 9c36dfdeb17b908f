/** Discovery of target-reference manifests and the intake preflight: two readiness
    checks of one manifest, and the choice of a canonical candidate. */
module P12Manifest {
  import opened Collections
  import opened Sorting

  datatype Metrics = Metrics(
    interventionCount: Option<real>, toolCallCount: Option<real>,
    evidenceCompletenessPct: Option<real>, noEvidenceActionCount: Option<real>)

  datatype Log = Log(
    comparisonId: string, rawLogPath: string, artifactPaths: seq<string>,
    evidence: seq<bool>, integrity: seq<bool>, metrics: Metrics, risks: seq<string>)

  /** What validateP12RawLogManifest returns for a manifest. */
  datatype Validation = Validation(side: Option<string>, acceptedLogs: seq<Log>, rejectedLogCount: nat,
                                   redlines: seq<string>)

  /** A manifest path on disk: no file, a file both scripts choke on, or a record. */
  datatype ManifestFile = Absent | Unreadable | Manifest(validation: Validation, immutableRawDir: Option<string>)

  /** The file system and the path library, taken as given. */
  datatype Disk = Disk(
    present: string -> bool, isAbsolute: string -> bool, resolve: (string, string) -> string, dirname: string -> string)

  function ResolveEvidencePath(d: Disk, inputPath: string, manifestPath: string,
                               immutableRawDir: Option<string>): string {
    if d.isAbsolute(inputPath) then inputPath
    else if immutableRawDir.Some? && immutableRawDir.value != "" && '<' !in immutableRawDir.value then
      d.resolve(if d.isAbsolute(immutableRawDir.value) then immutableRawDir.value
                else d.resolve(d.dirname(manifestPath), immutableRawDir.value), inputPath)
    else d.resolve(d.dirname(manifestPath), inputPath)
  }

  function Present(d: Disk, manifestPath: string, dir: Option<string>): string -> bool {
    (path: string) => d.present(ResolveEvidencePath(d, path, manifestPath, dir))
  }

  function IsTrue(): bool -> bool {
    (b: bool) => b
  }

  predicate AllTrue(values: seq<bool>) {
    forall i :: 0 <= i < |values| ==> values[i]
  }

  predicate MetricsComplete(m: Metrics) {
    m.interventionCount.Some? && m.toolCallCount.Some? && m.evidenceCompletenessPct.Some?
        && m.noEvidenceActionCount.Some?
  }

  // ----- discovery -----

  datatype LogState = LogState(rawLogExists: bool, artifactCount: nat, artifactExistsCount: nat, ready: bool)

  /** isLogEvidenceReady: counts the artifact paths that exist. */
  function LogEvidence(d: Disk, manifestPath: string, dir: Option<string>): Log -> LogState {
    (log: Log) =>
      var rawLogExists := Present(d, manifestPath, dir)(log.rawLogPath);
      var existing := |Filter(MapSeq(log.artifactPaths, Present(d, manifestPath, dir)), IsTrue())|;
      LogState(rawLogExists, |log.artifactPaths|, existing,
        rawLogExists && |log.artifactPaths| > 0 && existing == |log.artifactPaths|
        && AllTrue(log.evidence) && AllTrue(log.integrity) && MetricsComplete(log.metrics))
  }

  datatype Candidate = Candidate(
    path: string, ready: bool, acceptedLogCount: nat, readyLogCount: nat, artifactExistsCount: nat, redlineCount: nat)

  function StateReady(): LogState -> bool {
    (s: LogState) => s.ready
  }

  function StateArtifacts(): LogState -> nat {
    (s: LogState) => s.artifactExistsCount
  }

  /** candidateFromPath: what throws becomes a blocked candidate. */
  function CandidateFromPath(d: Disk, path: string, file: ManifestFile): Candidate {
    match file
    case Manifest(v, dir) =>
      var states := MapSeq(v.acceptedLogs, LogEvidence(d, path, dir));
      var readyLogCount := |Filter(states, StateReady())|;
      Candidate(path,
        v.side == Some("target-reference") && |v.acceptedLogs| >= 14 && |v.redlines| == 0
            && readyLogCount == |v.acceptedLogs|,
        |v.acceptedLogs|, readyLogCount, Sum(states, StateArtifacts()), |v.redlines|)
    case _ => Candidate(path, false, 0, 0, 0, 1)
  }

  // ----- intake -----

  datatype LogRow = LogRow(index: nat, comparisonId: string, ready: bool)

  /** rowFromLog: existence is looked up first and counted after. */
  function RowFromLog(d: Disk, manifestPath: string, dir: Option<string>, log: Log, index: nat): LogRow {
    var artifactExistence := MapSeq(log.artifactPaths, Present(d, manifestPath, dir));
    var rawLogExists := Present(d, manifestPath, dir)(log.rawLogPath);
    var artifactExistsCount := |Filter(artifactExistence, IsTrue())|;
    LogRow(index, log.comparisonId,
      rawLogExists && |log.artifactPaths| > 0 && artifactExistsCount == |log.artifactPaths|
      && AllTrue(log.evidence) && AllTrue(log.integrity) && MetricsComplete(log.metrics) && |log.risks| >= 0)
  }

  function RowsFromLogs(d: Disk, manifestPath: string, dir: Option<string>, logs: seq<Log>): seq<LogRow> {
    if logs == [] then []
    else
      RowsFromLogs(d, manifestPath, dir, logs[..|logs| - 1])
      + [RowFromLog(d, manifestPath, dir, logs[|logs| - 1], |logs| - 1)]
  }

  datatype Blocker =
    | ManifestPathRequired | ManifestPathMissing | WrongSide | Redline(text: string)
    | LogNotReady(index: nat, comparisonId: string) | TooFewLogs(count: nat)

  function RowBlocked(): LogRow -> bool {
    (row: LogRow) => !row.ready
  }

  function ToRowBlocker(): LogRow -> Blocker {
    (row: LogRow) => LogNotReady(row.index, row.comparisonId)
  }

  function ToRedline(): string -> Blocker {
    (text: string) => Redline(text)
  }

  /** buildReport: the blockers, or the exception that ends the intake. */
  function IntakeBlockers(d: Disk, path: Option<string>, file: ManifestFile): Result<seq<Blocker>, string> {
    if path == None || path.value == "" then Success([ManifestPathRequired])
    else match file
      case Absent => Success([ManifestPathMissing])
      case Unreadable => Failure("manifest cannot be read")
      case Manifest(v, dir) =>
        var rows := RowsFromLogs(d, path.value, dir, v.acceptedLogs);
        Success((if v.side != Some("target-reference") then [WrongSide] else [])
                + MapSeq(v.redlines, ToRedline())
                + MapSeq(Filter(rows, RowBlocked()), ToRowBlocker())
                + (if |v.acceptedLogs| < 14 then [TooFewLogs(|v.acceptedLogs|)] else []))
  }

  lemma {:induction false} RowsMatchStates(d: Disk, path: string, dir: Option<string>, logs: seq<Log>)
    ensures var rows := RowsFromLogs(d, path, dir, logs);
            |rows| == |logs| && forall i :: 0 <= i < |logs| ==>
                rows[i].ready == LogEvidence(d, path, dir)(logs[i]).ready
  {
    if logs != [] {
      RowsMatchStates(d, path, dir, logs[..|logs| - 1]);
    }
  }

  lemma AllReadyTwice(d: Disk, path: string, dir: Option<string>, logs: seq<Log>)
    ensures |Filter(MapSeq(logs, LogEvidence(d, path, dir)), StateReady())| == |logs|
        <==> |Filter(RowsFromLogs(d, path, dir, logs), RowBlocked())| == 0
  {
    var states, rows := MapSeq(logs, LogEvidence(d, path, dir)), RowsFromLogs(d, path, dir, logs);
    RowsMatchStates(d, path, dir, logs);
    FilterLength(states, StateReady());
    FilterLength(rows, RowBlocked());
    if forall s :: s in states ==> s.ready {
      forall row | row in rows ensures row.ready {
        var i :| 0 <= i < |rows| && rows[i] == row;
        assert states[i] in states;
      }
    }
    if forall row :: row in rows ==> row.ready {
      forall s | s in states ensures s.ready {
        var i :| 0 <= i < |states| && states[i] == s;
        assert rows[i] in rows;
      }
    }
  }

  /** For one manifest on one disk, discovery says READY exactly when the intake ends
      with no blockers. */
  lemma DiscoveryAgreesWithIntake(d: Disk, path: string, file: ManifestFile)
    requires path != ""
    ensures CandidateFromPath(d, path, file).ready <==> IntakeBlockers(d, Some(path), file) == Success([])
  {
    if file.Manifest? {
      AllReadyTwice(d, path, file.immutableRawDir, file.validation.acceptedLogs);
    }
  }

  // ----- choosing the canonical candidate -----

  /** Number(right) - Number(left) of two truth values */
  function ReadyFirst(left: bool, right: bool): int {
    (if right then 1 else 0) - (if left then 1 else 0)
  }

  /** sortCandidates: a chain of differences joined by || */
  function CompareCandidates(locale: Compare<string>, left: Candidate, right: Candidate): int {
    if ReadyFirst(left.ready, right.ready) != 0 then ReadyFirst(left.ready, right.ready)
    else if right.readyLogCount != left.readyLogCount then right.readyLogCount - left.readyLogCount
    else if right.acceptedLogCount != left.acceptedLogCount then right.acceptedLogCount - left.acceptedLogCount
    else if right.artifactExistsCount != left.artifactExistsCount
    then right.artifactExistsCount - left.artifactExistsCount
    else locale(left.path, right.path)
  }

  function Order(locale: Compare<string>): Compare<Candidate> {
    (left: Candidate, right: Candidate) => CompareCandidates(locale, left, right)
  }

  function PathOf(): Candidate -> string {
    (c: Candidate) => c.path
  }

  function PathsOf(candidates: seq<Candidate>): set<string> {
    set c | c in candidates :: c.path
  }

  /** localeCompare orders the candidates' paths and tells them apart. */
  ghost predicate Comparable(locale: Compare<string>, candidates: seq<Candidate>) {
    && StrictTotal(locale, PathsOf(candidates))
    && forall i, j :: 0 <= i < j < |candidates| ==> candidates[i].path != candidates[j].path
  }

  lemma OrderTransitive(locale: Compare<string>, a: Candidate, b: Candidate, c: Candidate)
    requires locale(a.path, b.path) < 0 && locale(b.path, c.path) < 0 ==> locale(a.path, c.path) < 0
    requires CompareCandidates(locale, a, b) < 0 && CompareCandidates(locale, b, c) < 0
    ensures CompareCandidates(locale, a, c) < 0
  {
  }

  /** The comparator is a strict total order on candidates with distinct paths. */
  lemma OrderIsStrictTotal(locale: Compare<string>, candidates: seq<Candidate>)
    requires Comparable(locale, candidates)
    ensures StrictTotal(Order(locale), ToSet(candidates))
  {
    var order := Order(locale);
    forall a, b | a in candidates && b in candidates
      ensures (order(a, b) == 0 <==> a == b) && (order(a, b) < 0 <==> order(b, a) > 0)
    {
      assert a.path in PathsOf(candidates) && b.path in PathsOf(candidates);
      var i :| 0 <= i < |candidates| && candidates[i] == a;
      var j :| 0 <= j < |candidates| && candidates[j] == b;
      assert a.path == b.path ==> i == j;
    }
    forall a, b, c | a in candidates && b in candidates && c in candidates && order(a, b) < 0 && order(b, c) < 0
      ensures order(a, c) < 0
    {
      assert a.path in PathsOf(candidates) && b.path in PathsOf(candidates) && c.path in PathsOf(candidates);
      OrderTransitive(locale, a, b, c);
    }
  }

  function FirstReady(candidates: seq<Candidate>): Option<Candidate> {
    if candidates == [] then None
    else if candidates[0].ready then Some(candidates[0])
    else FirstReady(candidates[1..])
  }

  /** candidates.sort(sortCandidates).find(candidate => candidate.status === 'READY') */
  function Canonical(candidates: seq<Candidate>, locale: Compare<string>): Option<Candidate> {
    FirstReady(SortBy(candidates, Order(locale)))
  }

  lemma {:induction false} FirstReadyIs(candidates: seq<Candidate>)
    ensures match FirstReady(candidates)
      case None => forall c :: c in candidates ==> !c.ready
      case Some(found) => exists i :: 0 <= i < |candidates| && candidates[i] == found && found.ready
                                       && forall k :: 0 <= k < i ==> !candidates[k].ready
  {
    if candidates != [] && !candidates[0].ready {
      FirstReadyIs(candidates[1..]);
      if FirstReady(candidates[1..]).Some? {
        var i :| 0 <= i < |candidates[1..]| && candidates[1..][i] == FirstReady(candidates[1..]).value
                 && forall k :: 0 <= k < i ==> !candidates[1..][k].ready;
        assert candidates[i + 1] == candidates[1..][i];
        forall k | 0 <= k < i + 1 ensures !candidates[k].ready {
          if k > 0 { assert candidates[k] == candidates[1..][k - 1]; }
        }
      }
    }
  }

  /** The canonical manifest does not depend on the order of enumeration. */
  lemma CanonicalOrderIndependent(xs: seq<Candidate>, ys: seq<Candidate>, locale: Compare<string>)
    requires Comparable(locale, xs) && multiset(xs) == multiset(ys)
    ensures Canonical(xs, locale) == Canonical(ys, locale)
  {
    OrderIsStrictTotal(locale, xs);
    SortedOfPermutations(xs, ys, Order(locale));
  }

  /** The first ready candidate of a sorted list precedes every other ready one. */
  lemma FirstReadyIsLeast(sorted: seq<Candidate>, order: Compare<Candidate>, s: set<Candidate>)
    requires StrictTotal(order, s) && SortedFrom(sorted, order) && forall c :: c in sorted ==> c in s
    ensures match FirstReady(sorted)
      case None => forall c :: c in sorted ==> !c.ready
      case Some(best) => best in sorted && best.ready
                         && forall c :: c in sorted && c.ready && c != best ==> order(best, c) < 0
  {
    FirstReadyIs(sorted);
    if FirstReady(sorted).Some? {
      var best := FirstReady(sorted).value;
      var i :| 0 <= i < |sorted| && sorted[i] == best && best.ready && forall k :: 0 <= k < i ==> !sorted[k].ready;
      forall c | c in sorted && c.ready && c != best ensures order(best, c) < 0 {
        var k :| 0 <= k < |sorted| && sorted[k] == c;
        assert order(sorted[i], sorted[k]) <= 0;
      }
    }
  }

  /** It exists exactly when some candidate is ready, and is then the ready candidate
      that precedes every other one. */
  lemma CanonicalIsBestReady(candidates: seq<Candidate>, locale: Compare<string>)
    requires Comparable(locale, candidates)
    ensures match Canonical(candidates, locale)
      case None => forall c :: c in candidates ==> !c.ready
      case Some(best) => best in candidates && best.ready
                         && forall c :: c in candidates && c.ready && c != best ==> Order(locale)(best, c) < 0
  {
    var order := Order(locale);
    OrderIsStrictTotal(locale, candidates);
    SortSorted(candidates, order, ToSet(candidates));
    SortIsPermutation(candidates, order);
    PermutationMembers(candidates, SortBy(candidates, order));
    FirstReadyIsLeast(SortBy(candidates, order), order, ToSet(candidates));
  }
}
