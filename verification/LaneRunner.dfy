/** The benchmark lane runner: reuse the evidence a previous run left on disk, or
    capture the case, for every selected manifest case. */
module LaneRunner {
  import opened Collections
  import opened JsonModel
  import opened LaneBudgets
  import opened LaneCapture

  // ----- a run over the selected cases -----

  datatype Options = Options(caseIds: set<string>, limit: Option<Num>, write: bool, force: bool)

  function SelectCases(cases: seq<Case>, o: Options): seq<Case> {
    var filtered := if o.caseIds != {} then Filter(cases, (c: Case) => c.id in o.caseIds) else cases;
    match o.limit
    case Some(Fin(r)) => if r >= 0.0 && r.Floor < |filtered| then filtered[..r.Floor] else filtered
    case _ => filtered
  }

  /** The runner's state between two cases; halted once something threw. */
  datatype Run = Run(dirs: map<string, CaseDir>, reports: seq<CaseReport>, executed: seq<string>, halted: bool)

  function Step(capture: Capturer, write: bool, force: bool, r: Run, item: Case): Run {
    if r.halted then r
    else if !force && Complete(r.dirs, item.id) then
      match ReadExisting(r.dirs[item.id], item.id)
      case Success(report) => r.(reports := r.reports + [report])
      case Failure(_) => r.(halted := true)
    else
      match capture(item)
      case Success((report, dir)) =>
        Run(if write then r.dirs[item.id := dir] else r.dirs, r.reports + [report], r.executed + [item.id], false)
      case Failure(_) => r.(halted := true)
  }

  function RunCases(capture: Capturer, write: bool, force: bool, dirs: map<string, CaseDir>, items: seq<Case>): Run {
    if items == [] then Run(dirs, [], [], false)
    else Step(capture, write, force, RunCases(capture, write, force, dirs, items[..|items| - 1]), items[|items| - 1])
  }

  datatype LaneStatus = LANE_PASS | LANE_PARTIAL | LANE_BLOCKED

  predicate ReportPasses(report: CaseReport) {
    report.status != FAIL_ERROR && report.finalPass
  }

  function StatusOf(reports: seq<CaseReport>, selected: nat): LaneStatus {
    if selected > 0 && |reports| == selected && (forall i :: 0 <= i < |reports| ==> ReportPasses(reports[i]))
    then LANE_PASS
    else if exists i :: 0 <= i < |reports| && reports[i].status != FAIL_ERROR then LANE_PARTIAL
    else LANE_BLOCKED
  }

  class EvidenceDisk {
    var dirs: map<string, CaseDir>

    constructor (dirs: map<string, CaseDir>)
      ensures this.dirs == dirs
    {
      this.dirs := dirs;
    }

    /** collectPublicComparableDsxuLane: writes evidence case by case, so the cases
        before one that throws stay on disk. */
    method Collect(j: Judge, world: World, cases: seq<Case>, o: Options)
      returns (report: Result<(LaneStatus, seq<CaseReport>), string>)
      modifies this
      ensures var selected := SelectCases(cases, o);
              var run := RunCases(CapturerOf(j, world), o.write, o.force, old(dirs), selected);
              && dirs == run.dirs
              && (report.Success? <==> !run.halted)
              && (report.Success? ==> report.value == (StatusOf(run.reports, |selected|), run.reports))
    {
      var selected := SelectCases(cases, o);
      report := CollectSelected(CapturerOf(j, world), selected, o.write, o.force);
    }

    method CollectSelected(capture: Capturer, selected: seq<Case>, write: bool, force: bool)
      returns (report: Result<(LaneStatus, seq<CaseReport>), string>)
      modifies this
      ensures var run := RunCases(capture, write, force, old(dirs), selected);
              && dirs == run.dirs
              && (report.Success? <==> !run.halted)
              && (report.Success? ==> report.value == (StatusOf(run.reports, |selected|), run.reports))
    {
      var reports: seq<CaseReport> := [];
      ghost var run := Run(dirs, [], [], false);
      for i := 0 to |selected|
        invariant run == RunCases(capture, write, force, old(dirs), selected[..i])
        invariant !run.halted && run.dirs == dirs && run.reports == reports
      {
        assert selected[..i + 1][..i] == selected[..i];
        var one := CollectOne(capture, selected[i], write, force, run);
        run := Step(capture, write, force, run, selected[i]);
        if one.Failure? {
          HaltedStays(capture, write, force, old(dirs), selected, i + 1);
          return Failure(one.error);
        }
        reports := reports + [one.value];
      }
      assert selected[..|selected|] == selected;
      return Success((StatusOf(reports, |selected|), reports));
    }

    /** One turn of the loop: reuse the evidence that exists, or capture the case. */
    method CollectOne(capture: Capturer, item: Case, write: bool, force: bool, ghost run: Run)
      returns (report: Result<CaseReport, string>)
      requires !run.halted && run.dirs == dirs
      modifies this
      ensures dirs == Step(capture, write, force, run, item).dirs
      ensures report.Failure? <==> Step(capture, write, force, run, item).halted
      ensures report.Success? ==> Step(capture, write, force, run, item).reports == run.reports + [report.value]
    {
      if !force && Complete(dirs, item.id) {
        return ReadExisting(dirs[item.id], item.id);
      }
      var captured := capture(item);
      if captured.Failure? {
        return Failure(captured.error);
      }
      if write {
        dirs := dirs[item.id := captured.value.1];
      }
      return Success(captured.value.0);
    }
  }

  /** Once a run has thrown, the remaining cases change nothing. */
  lemma {:induction false} HaltedStays(capture: Capturer, write: bool, force: bool, dirs: map<string, CaseDir>,
                                       items: seq<Case>, n: nat)
    requires n <= |items| && RunCases(capture, write, force, dirs, items[..n]).halted
    ensures RunCases(capture, write, force, dirs, items) == RunCases(capture, write, force, dirs, items[..n])
    decreases |items|
  {
    if n == |items| {
      assert items[..n] == items;
    } else {
      var front := items[..|items| - 1];
      assert front[..n] == items[..n];
      HaltedStays(capture, write, force, dirs, front, n);
    }
  }

  /** A step that does not throw adds one report, for its case. */
  lemma StepReports(capture: Capturer, write: bool, force: bool, r: Run, item: Case)
    requires Faithful(capture) && !Step(capture, write, force, r, item).halted
    ensures !r.halted
    ensures var after := Step(capture, write, force, r, item);
            |after.reports| == |r.reports| + 1 && after.reports[..|r.reports|] == r.reports
            && after.reports[|r.reports|].id == item.id
            && (after.reports[|r.reports|].status == FAIL_ERROR ==> !after.reports[|r.reports|].finalPass)
  {
  }

  /** The reports answer the cases one by one, and no runner error passes. */
  predicate ReportsFor(reports: seq<CaseReport>, items: seq<Case>) {
    |reports| == |items| && forall i :: 0 <= i < |items| ==>
      reports[i].id == items[i].id && (reports[i].status == FAIL_ERROR ==> !reports[i].finalPass)
  }

  lemma ReportsForSnoc(reports: seq<CaseReport>, items: seq<Case>)
    requires |reports| == |items| > 0 && ReportsFor(reports[..|items| - 1], items[..|items| - 1])
    requires var report := reports[|items| - 1];
             report.id == items[|items| - 1].id && (report.status == FAIL_ERROR ==> !report.finalPass)
    ensures ReportsFor(reports, items)
  {
    forall i | 0 <= i < |items| - 1
      ensures reports[i].id == items[i].id && (reports[i].status == FAIL_ERROR ==> !reports[i].finalPass)
    {
      assert reports[i] == reports[..|items| - 1][i] && items[i] == items[..|items| - 1][i];
    }
  }

  lemma {:induction false} RunIsPrefixClosed(capture: Capturer, write: bool, force: bool, dirs: map<string, CaseDir>,
                                             items: seq<Case>)
    requires Faithful(capture) && !RunCases(capture, write, force, dirs, items).halted
    ensures items != [] ==> !RunCases(capture, write, force, dirs, items[..|items| - 1]).halted
    ensures ReportsFor(RunCases(capture, write, force, dirs, items).reports, items)
  {
    if items != [] {
      var front, item := items[..|items| - 1], items[|items| - 1];
      StepReports(capture, write, force, RunCases(capture, write, force, dirs, front), item);
      RunIsPrefixClosed(capture, write, force, dirs, front);
      ReportsForSnoc(RunCases(capture, write, force, dirs, items).reports, items);
    }
  }

  // ----- what a run leaves behind -----

  /** The evidence on disk reads back as this report's verdict and metrics. */
  ghost predicate Backed(dirs: map<string, CaseDir>, report: CaseReport) {
    && Complete(dirs, report.id)
    && ReadExisting(dirs[report.id], report.id).Success?
    && ReadExisting(dirs[report.id], report.id).value
       == AsReread(report, ReadExisting(dirs[report.id], report.id).value.toolUseCount)
  }

  predicate DistinctIds(items: seq<Case>) {
    forall i, k :: 0 <= i < k < |items| ==> items[i].id != items[k].id
  }

  lemma ReadBacked(dirs: map<string, CaseDir>, id: string)
    requires Complete(dirs, id) && ReadExisting(dirs[id], id).Success?
    ensures Backed(dirs, ReadExisting(dirs[id], id).value)
  {
  }

  ghost predicate AllBacked(dirs: map<string, CaseDir>, reports: seq<CaseReport>) {
    forall i :: 0 <= i < |reports| ==> Backed(dirs, reports[i])
  }

  /** Writing the evidence of a new id leaves the backed reports backed. */
  lemma WriteKeepsBacked(dirs: map<string, CaseDir>, reports: seq<CaseReport>, report: CaseReport, dir: CaseDir)
    requires AllBacked(dirs, reports) && forall i :: 0 <= i < |reports| ==> reports[i].id != report.id
    requires EvidenceMatches(report, dir)
    ensures AllBacked(dirs[report.id := dir], reports + [report])
  {
    var after := dirs[report.id := dir];
    assert Backed(after, report);
    forall i | 0 <= i < |reports| ensures Backed(after, reports[i]) {
      assert Backed(dirs, reports[i]) && after[reports[i].id] == dirs[reports[i].id];
    }
  }

  lemma StepKeepsBacked(capture: Capturer, force: bool, r: Run, item: Case)
    requires Faithful(capture) && !r.halted && AllBacked(r.dirs, r.reports)
    requires force ==> forall i :: 0 <= i < |r.reports| ==> r.reports[i].id != item.id
    requires !Step(capture, true, force, r, item).halted
    ensures AllBacked(Step(capture, true, force, r, item).dirs, Step(capture, true, force, r, item).reports)
  {
    if !force && Complete(r.dirs, item.id) {
      ReadBacked(r.dirs, item.id);
    } else {
      var (report, dir) := capture(item).value;
      forall i | 0 <= i < |r.reports| ensures r.reports[i].id != report.id {
        assert Backed(r.dirs, r.reports[i]);
      }
      WriteKeepsBacked(r.dirs, r.reports, report, dir);
    }
  }

  /** Every report of a writing run is backed by the disk it leaves. */
  lemma {:induction false} WritingRunBacksReports(capture: Capturer, force: bool, dirs: map<string, CaseDir>,
                                                  items: seq<Case>)
    requires Faithful(capture) && !RunCases(capture, true, force, dirs, items).halted
    requires force ==> DistinctIds(items)
    ensures var r := RunCases(capture, true, force, dirs, items); AllBacked(r.dirs, r.reports)
  {
    if items != [] {
      var front, item := items[..|items| - 1], items[|items| - 1];
      RunIsPrefixClosed(capture, true, force, dirs, items);
      RunIsPrefixClosed(capture, true, force, dirs, front);
      WritingRunBacksReports(capture, force, dirs, front);
      StepKeepsBacked(capture, force, RunCases(capture, true, force, dirs, front), item);
    }
  }

  /** A later run without force over backed cases only reads. */
  lemma {:induction false} BackedRunOnlyReads(capture: Capturer, write: bool, dirs: map<string, CaseDir>,
                                              items: seq<Case>, reports: seq<CaseReport>)
    requires |reports| == |items|
    requires forall i :: 0 <= i < |items| ==> reports[i].id == items[i].id && Backed(dirs, reports[i])
    ensures var r := RunCases(capture, write, false, dirs, items);
      && !r.halted && r.executed == [] && r.dirs == dirs && |r.reports| == |items|
      && forall i :: 0 <= i < |items| ==> r.reports[i] == AsReread(reports[i], r.reports[i].toolUseCount)
  {
    if items != [] {
      BackedRunOnlyReads(capture, write, dirs, items[..|items| - 1], reports[..|items| - 1]);
    }
  }

  lemma SamePasses(first: seq<CaseReport>, second: seq<CaseReport>)
    requires |first| == |second|
    requires forall i :: 0 <= i < |first| ==> second[i].status == REUSED && second[i].finalPass == first[i].finalPass
    requires forall i :: 0 <= i < |first| ==> (first[i].status == FAIL_ERROR ==> !first[i].finalPass)
    ensures StatusOf(second, |second|) == LANE_PASS <==> StatusOf(first, |first|) == LANE_PASS
  {
    assert forall i :: 0 <= i < |first| ==> (ReportPasses(second[i]) <==> ReportPasses(first[i]));
  }

  /** Resumable runs. Whatever the disk held and whatever the world would do now, a
      second run over the disk a writing run left executes no case, repeats every
      verdict and every finite metric, and is PASS exactly when the first was. */
  lemma SecondRunRepeatsFirst(j: Judge, world1: World, world2: World, force1: bool, write2: bool,
                              dirs: map<string, CaseDir>, items: seq<Case>)
    requires !RunCases(CapturerOf(j, world1), true, force1, dirs, items).halted
    requires force1 ==> DistinctIds(items)
    ensures var first := RunCases(CapturerOf(j, world1), true, force1, dirs, items);
            var second := RunCases(CapturerOf(j, world2), write2, false, first.dirs, items);
      && !second.halted && second.executed == [] && second.dirs == first.dirs
      && |second.reports| == |first.reports| == |items|
      && (forall i :: 0 <= i < |items| ==>
          second.reports[i] == AsReread(first.reports[i], second.reports[i].toolUseCount))
      && (StatusOf(second.reports, |items|) == LANE_PASS <==> StatusOf(first.reports, |items|) == LANE_PASS)
  {
    var capture1, capture2 := CapturerOf(j, world1), CapturerOf(j, world2);
    CapturesAreFaithful(j, world1);
    var first := RunCases(capture1, true, force1, dirs, items);
    RunIsPrefixClosed(capture1, true, force1, dirs, items);
    WritingRunBacksReports(capture1, force1, dirs, items);
    BackedRunOnlyReads(capture2, write2, first.dirs, items, first.reports);
    SamePasses(first.reports, RunCases(capture2, write2, false, first.dirs, items).reports);
  }

  // ----- running a part first -----

  /** Cases sharing an id are the same case. */
  predicate ConsistentIds(items: seq<Case>) {
    forall i, k :: 0 <= i < |items| && 0 <= k < |items| && items[i].id == items[k].id ==> items[i] == items[k]
  }

  /** The verdict a non-forced run would report for a case, None if it would throw. */
  function Verdict(capture: Capturer, dirs: map<string, CaseDir>, item: Case): Option<bool> {
    if Complete(dirs, item.id) then
      match ReadExisting(dirs[item.id], item.id)
      case Success(report) => Some(report.finalPass)
      case Failure(_) => None
    else match capture(item)
      case Success((report, _)) => Some(report.finalPass)
      case Failure(_) => None
  }

  lemma VerdictStable(capture: Capturer, r: Run, item: Case, other: Case)
    requires Faithful(capture) && (other.id == item.id ==> other == item)
    ensures Verdict(capture, Step(capture, true, false, r, item).dirs, other) == Verdict(capture, r.dirs, other)
  {
    if !r.halted && !Complete(r.dirs, item.id) && capture(item).Success? {
      assert EvidenceMatches(capture(item).value.0, capture(item).value.1);
    }
  }

  ghost predicate SameVerdicts(capture: Capturer, a: map<string, CaseDir>, b: map<string, CaseDir>, all: seq<Case>) {
    forall c :: c in all ==> Verdict(capture, a, c) == Verdict(capture, b, c)
  }

  lemma StepKeepsVerdicts(capture: Capturer, r: Run, item: Case, all: seq<Case>)
    requires Faithful(capture) && ConsistentIds(all) && item in all
    ensures SameVerdicts(capture, Step(capture, true, false, r, item).dirs, r.dirs, all)
  {
    forall c | c in all
      ensures Verdict(capture, Step(capture, true, false, r, item).dirs, c) == Verdict(capture, r.dirs, c)
    {
      var a :| 0 <= a < |all| && all[a] == c;
      var b :| 0 <= b < |all| && all[b] == item;
      VerdictStable(capture, r, item, c);
    }
  }

  /** The reports of a run are the verdicts on its initial disk. */
  ghost predicate ReportsVerdicts(capture: Capturer, dirs: map<string, CaseDir>, items: seq<Case>, r: Run) {
    if r.halted then exists i :: 0 <= i < |items| && Verdict(capture, dirs, items[i]) == None
    else |r.reports| == |items|
         && forall i :: 0 <= i < |items| ==>
              r.reports[i].id == items[i].id && Verdict(capture, dirs, items[i]) == Some(r.reports[i].finalPass)
  }

  lemma StepReportsVerdict(capture: Capturer, dirs: map<string, CaseDir>, front: seq<Case>, r: Run, item: Case)
    requires Faithful(capture) && ReportsVerdicts(capture, dirs, front, r)
    requires Verdict(capture, r.dirs, item) == Verdict(capture, dirs, item)
    ensures ReportsVerdicts(capture, dirs, front + [item], Step(capture, true, false, r, item))
  {
    var items, after := front + [item], Step(capture, true, false, r, item);
    if r.halted {
      var i :| 0 <= i < |front| && Verdict(capture, dirs, front[i]) == None;
      assert Verdict(capture, dirs, items[i]) == None;
    } else if after.halted {
      assert Verdict(capture, dirs, items[|front|]) == None;
    } else {
      assert after.reports[..|front|] == r.reports;
      assert Verdict(capture, dirs, item) == Some(after.reports[|front|].finalPass);
    }
  }

  /** A run never changes the verdict any case would get, and reports exactly these
      verdicts; it halts exactly when some case has none. */
  lemma {:induction false} RunReportsVerdicts(capture: Capturer, dirs: map<string, CaseDir>, items: seq<Case>,
                                              all: seq<Case>)
    requires Faithful(capture) && ConsistentIds(all) && forall c :: c in items ==> c in all
    ensures var r := RunCases(capture, true, false, dirs, items);
            SameVerdicts(capture, r.dirs, dirs, all) && ReportsVerdicts(capture, dirs, items, r)
  {
    if items != [] {
      var front, item := items[..|items| - 1], items[|items| - 1];
      RunReportsVerdicts(capture, dirs, front, all);
      var before := RunCases(capture, true, false, dirs, front);
      assert item in items;
      StepKeepsVerdicts(capture, before, item, all);
      StepReportsVerdict(capture, dirs, front, before, item);
      assert items == front + [item];
    }
  }

  lemma SelectedFromManifest(cases: seq<Case>, o: Options)
    ensures forall c :: c in SelectCases(cases, o) ==> c in cases
  {
    FilterMembers(cases, (c: Case) => c.id in o.caseIds);
  }

  /** Running any selection first and then the whole manifest halts when one run over
      the manifest would, and otherwise gives every case the same verdict. */
  lemma PartThenWhole(j: Judge, world: World, dirs: map<string, CaseDir>, cases: seq<Case>, o: Options)
    requires ConsistentIds(cases)
    ensures var once := RunCases(CapturerOf(j, world), true, false, dirs, cases);
            var part := RunCases(CapturerOf(j, world), true, false, dirs, SelectCases(cases, o));
            var whole := RunCases(CapturerOf(j, world), true, false, part.dirs, cases);
      && whole.halted == once.halted
      && (once.halted || SamePassList(once.reports, whole.reports))
  {
    var capture := CapturerOf(j, world);
    CapturesAreFaithful(j, world);
    var selected := SelectCases(cases, o);
    SelectedFromManifest(cases, o);
    var part := RunCases(capture, true, false, dirs, selected);
    RunReportsVerdicts(capture, dirs, selected, cases);
    RunReportsVerdicts(capture, dirs, cases, cases);
    RunReportsVerdicts(capture, part.dirs, cases, cases);
    SameReports(capture, dirs, part.dirs, cases,
                RunCases(capture, true, false, dirs, cases), RunCases(capture, true, false, part.dirs, cases));
  }

  predicate SamePassList(a: seq<CaseReport>, b: seq<CaseReport>) {
    |a| == |b| && forall i :: 0 <= i < |a| ==> a[i].id == b[i].id && a[i].finalPass == b[i].finalPass
  }

  lemma SameReports(capture: Capturer, a: map<string, CaseDir>, b: map<string, CaseDir>, cases: seq<Case>, once: Run,
                    whole: Run)
    requires SameVerdicts(capture, b, a, cases)
    requires ReportsVerdicts(capture, a, cases, once) && ReportsVerdicts(capture, b, cases, whole)
    ensures whole.halted == once.halted
    ensures once.halted || SamePassList(once.reports, whole.reports)
  {
    forall i | 0 <= i < |cases| ensures Verdict(capture, a, cases[i]) == Verdict(capture, b, cases[i]) {
      assert cases[i] in cases;
    }
  }
}
