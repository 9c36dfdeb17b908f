# DSXU operations scripts: a verified model

The scripts of this repository decide which benchmark cases passed, which evidence is reused, which
files may be staged, which documents may reach a prompt, and whether a release or a public claim is
allowed. This project models the algorithms and state machines behind those decisions and proves
what they promise, for every input, every run and every listing order.

Check it with `dafny verify dfyconfig.toml` (Dafny 4.11).

## What is modelled

- **Benchmark lane** (`LaneStream`, `LaneBudgets`, `JsonRepair`, `LaneCapture`, `LaneRunner`). The
  stream parser attributes tool results to calls; budgets are derived by overwriting a copied record;
  the final JSON object is searched for and repaired; the runner reuses or captures each case. The
  disk is a map from case id to stored evidence, a field of the class `EvidenceDisk`. Numbers carry
  infinities and NaN where a JSON file loses them.
- **Quota selection** (`QuotaSelection`, `QuotaErrors`). Three passes share one list, one id set and six counters.
- **Static reachability** (`TruthMatrix`). The worklist search, the inverse index, the label partition.
- **CSV, owner/Git plans** (`Csv`, `OwnerGit`, `CommandPlan`, `Grouping`). One printer, two
  hand-written line readers and a regular expression used as a third (spelled out with its
  backtracking), alignment by counting, packets, chunks and commands. The quoting is that of section 2 of
  RFC 4180, one record per physical line.
- **P12 manifests** (`P12Manifest`). Two readiness checks and the choice of a canonical manifest.
- **Evidence dashboard** (`GateEvidence`, `EvidenceChoice`, `EvidenceReading`, `ReleaseVerdicts`,
  `EvidenceDashboard`, `VerdictGap`). Gate status inference from JSON, the two look-ups over the reverse-sorted
  directory, the three supersession rules, the fold into the class `Dashboard`, and both verdicts.
- **Docs pipeline** (`DocsPipeline`) and **trajectory totals** (`Trajectory`).

`Collections`, `Counters`, `Text`, `JsonModel` and `Sorting` hold shared vocabulary. Regular
expressions over prose, `JSON.stringify`, `localeCompare`, `toUpperCase`, `Date.parse`, number
printing, file existence and the outcome of a captured command are parameters: results hold for any
choice of them, and a condition on one is written in the lemma that needs it.

## Where the code does not meet a plausible claim

Each of these is a lemma with a concrete input or an exact condition.

- Reused metrics repeat a first run exactly where they are finite: an overflowing cost is stored as
  `null` and read back as zero. The verdict is always repeated. (`MetricsSurviveIffFinite`,
  `OverflowingCostIsLost`)
- A call answered unblocked twice, before its id is used again, counts as two executions of one
  attempt. Without such a call executions stay within attempts, and with one some naming of the calls
  breaks the bound. (`WithinCallsIffAnsweredOnce`, `TwiceAnsweredCallExceedsAttempts`)
- `selectCases` can return thirty cases with unmet quotas, and can throw although thirty cases
  are at hand; when it throws is told from its arguments. (`QuotasUnmetOnReturn`, `ThrowsExactly`,
  `ThirtyBugfixesThrow`)
- Repair can take off a brace that was text, after an escape outside a string.
  (`ShortenedResultBalanced`, `EscapedBraceIsNotBalanced`)
- The CSV table round trip fails exactly on cells or headers holding a line feed. (`TableRoundTrip`)
- Alignment by counting is exact exactly when Git's paths are distinct ignoring case.
  (`CaseTwinsHideAnother`, `CountingIsExactIffDistinct`)
- A winning import report whose status is a list is demoted exactly when its other status fields say
  so. (`ReadyReportDemotedIff`, `WinnerDemotedAsGap`, `WinnerDemotedAsLane`)
- The release trust panel allows an external claim that the workbench withholds when a manifest is
  empty or blocked, or holds a case with faulty evidence, and no case is missing. (`ReadinessRowGap`,
  `FaultyCaseSplitsTheVerdicts`)
- Signal extraction trusts the registry file: edited by hand to list one path under two statuses, it
  can be blocked. A registry the script wrote never is, unless it is empty. (`EditedRegistryBlocks`,
  `RegistryExtractsIff`)
- A log can be cut exactly where a line has ended; elsewhere the two parts share a line and lose
  requests. (`AdditiveIffLineEnded`, `AdditiveForJsonIff`, `SharedLineLosesRequests`)

## Model

| member | source | states |
|---|---|---|
| `LaneStream.ParseStreamJson` | scripts/dsxu-public-comparable-dsxu-lane.ts:1438-1532 | the nested loops over lines and content blocks compute the fold whose counters, tables and trace the lemmas below are about |
| `LaneStream.ReadToolResult` | scripts/dsxu-public-comparable-dsxu-lane.ts:1484-1526 | the body for one tool result, which counts it as blocked in one of three ways or as executed by the tool its id was last used for, is the recording step the audit is proved for |
| `LaneStream.EveryStreamIsAudited` | scripts/dsxu-public-comparable-dsxu-lane.ts:1438-1532 | after any list of lines every counter equals the sum over the trace that defines it, the id table is the last use of each id, and the conservation law holds |
| `LaneStream.TraceIsInput` | scripts/dsxu-public-comparable-dsxu-lane.ts:1465-1526 | the trace is the concatenation of the tool blocks of the input lines, each once and in order, so what is conserved is the input |
| `LaneStream.ResultsConserved` | scripts/dsxu-public-comparable-dsxu-lane.ts:1438-1532 | results = executed + unavailable + visibility-blocked + budget-blocked + results without a known named call; every blocked one is a failure event |
| `LaneStream.ExecutedWithinAttempted` | scripts/dsxu-public-comparable-dsxu-lane.ts:1438-1532 | if no call is answered unblocked twice before its id is used again, no tool has more executed results than calls |
| `LaneStream.WithinCallsIffAnsweredOnce` | scripts/dsxu-public-comparable-dsxu-lane.ts:1484-1526 | that condition, read off the tool blocks alone, is exact: it holds if and only if executions stay within calls for every tool name, whatever the calls are named |
| `LaneStream.TwiceAnsweredCallExceedsAttempts` | scripts/dsxu-public-comparable-dsxu-lane.ts:1465-1526 | a stream that breaks both: three lines that hold one call and two unblocked answers to it execute the tool twice and attempt it once |
| `LaneBudgets.DeriveEffectiveBudgets` | scripts/dsxu-public-comparable-dsxu-lane.ts:977-1046 | overwriting the copied record field by field gives, branch by branch, the floors and defaults the specification states |
| `LaneBudgets.BudgetsNeverLowered` | scripts/dsxu-public-comparable-dsxu-lane.ts:977-1046 | outside the three named case ids no declared finite total budget is lowered and declared read and shell budgets stay as they are |
| `LaneBudgets.InfiniteTotalReplacedIff` | scripts/dsxu-public-comparable-dsxu-lane.ts:997-1011 | an infinite declared total is replaced by a finite one exactly in the categories that have a floor |
| `LaneBudgets.NamedCasesLowerExactly` | scripts/dsxu-public-comparable-dsxu-lane.ts:984-1003 | for a named case a declared total is lowered exactly when it exceeds the constant |
| `LaneBudgets.DefaultedReadsFitTools` | scripts/dsxu-public-comparable-dsxu-lane.ts:1005-1045 | a read budget the manifest did not give is at most the effective total budget |
| `LaneBudgets.DerivedToolsRespectBudgets` | scripts/dsxu-public-comparable-dsxu-lane.ts:1104-1204 | for derived lists no tool with a zero budget is exposed on any return path, and the list is empty exactly when the effective total is zero |
| `LaneBudgets.NoViolationsMeansWithin` | scripts/dsxu-public-comparable-dsxu-lane.ts:1048-1061 | the violation count the verdict tests is zero exactly when executed calls, reads and shell calls are within their finite budgets |
| `JsonRepair.WrapperStartIsTheMatch` | scripts/dsxu-public-comparable-dsxu-lane.ts:1587-1592 | the position found by reading backwards is the one and only match of the trailing-wrapper regular expression |
| `JsonRepair.RepairTrailingQuotedJsonObject` | scripts/dsxu-public-comparable-dsxu-lane.ts:1587-1615 | the character loop over depth, string and escape flags computes the repair specified by a left fold |
| `JsonRepair.RepairUndoesQuoteWrapper` | scripts/dsxu-public-comparable-dsxu-lane.ts:1587-1592 | a stray quote and brace after any text ending in a brace are taken off again |
| `JsonRepair.RepairUndoesBraceWrapper` | scripts/dsxu-public-comparable-dsxu-lane.ts:1593-1615 | a stray brace after a balanced text ending in a brace is taken off again |
| `JsonRepair.RepairUnchanged` | scripts/dsxu-public-comparable-dsxu-lane.ts:1587-1615 | a candidate is left alone exactly when the wrapper does not match and the scan does not end one brace too deep before a final brace |
| `JsonRepair.ShortenedResultBalanced` | scripts/dsxu-public-comparable-dsxu-lane.ts:1593-1615 | a result shortened by the scan is the candidate up to its last brace, and balanced exactly when the candidate does not end inside a string and an even number of backslashes precedes that brace |
| `JsonRepair.EscapedBraceIsNotBalanced` | scripts/dsxu-public-comparable-dsxu-lane.ts:1593-1615 | the escaped case happens: the repair of `}\}` is not balanced |
| `JsonRepair.ParseFinalJsonObject` | scripts/dsxu-public-comparable-dsxu-lane.ts:1555-1585 | the loop over candidates with early returns computes the first acceptable one |
| `JsonRepair.AcceptedObjectWasParsed` | scripts/dsxu-public-comparable-dsxu-lane.ts:1555-1585 | an accepted object was parsed from a candidate, or from the repair of a candidate that does not parse, and the strict and repaired flags tell which |
| `JsonRepair.QuoteWrappedObjectRecovered` | scripts/dsxu-public-comparable-dsxu-lane.ts:1555-1615 | from raw output: an object followed by a stray quote and brace, in prose without braces, is recovered and reported as repaired |
| `JsonRepair.BraceWrappedObjectRecovered` | scripts/dsxu-public-comparable-dsxu-lane.ts:1555-1615 | the same for one stray brace after a balanced object |
| `LaneCapture.PassStaysWithinBudgets` | scripts/dsxu-public-comparable-dsxu-lane.ts:444-456 | a passing case stayed within every effective budget on what was executed, whatever was attempted, and an agent-worker case executed an Agent call |
| `LaneCapture.CaptureRereads` | scripts/dsxu-public-comparable-dsxu-lane.ts:265-310 | reading back the evidence of any capture gives its verdict, its exit code and its finite metrics |
| `LaneCapture.MetricsSurviveIffFinite` | scripts/dsxu-public-comparable-dsxu-lane.ts:265-298 | for every capture, what reuse reads back as cost, time, hit rate and exit code is what the capture reported exactly where that is finite |
| `LaneCapture.OverflowingCostIsLost` | scripts/dsxu-public-comparable-dsxu-lane.ts:265-298 | it happens: a result event with an overflowing cost is reported as infinite and read back as zero |
| `LaneCapture.ReuseRelabels` | scripts/dsxu-public-comparable-dsxu-lane.ts:265-310 | what reuse does not repeat: the status label, and the tool count of a case that attempted more than it executed |
| `LaneRunner.EvidenceDisk.Collect` | scripts/dsxu-public-comparable-dsxu-lane.ts:172-263 | the runner over the mutable disk: reports, halting and the evidence left behind are those of the pure run |
| `LaneRunner.EvidenceDisk.CollectSelected` | scripts/dsxu-public-comparable-dsxu-lane.ts:185-232 | the loop over selected cases, keeping the evidence of the cases before one that throws |
| `LaneRunner.RunIsPrefixClosed` | scripts/dsxu-public-comparable-dsxu-lane.ts:185-232 | every report answers its selected case, in order, and a case whose runner failed never passes |
| `LaneRunner.WritingRunBacksReports` | scripts/dsxu-public-comparable-dsxu-lane.ts:185-232 | every report of a writing run can be read back from the disk the run leaves |
| `LaneRunner.SecondRunRepeatsFirst` | scripts/dsxu-public-comparable-dsxu-lane.ts:185-263 | resumable runs: over the disk a writing run left, a run without force executes nothing, repeats verdicts, exit codes and finite metrics, and is PASS exactly when the first was |
| `LaneRunner.PartThenWhole` | scripts/dsxu-public-comparable-dsxu-lane.ts:185-263 | running any selection first and then the manifest halts when one run would, and otherwise gives every case the same verdict |
| `QuotaSelection.SelectCases` | scripts/dsxu-public-comparable-benchmark-manifest.ts:139-181 | the three mutating passes with their early returns compute the specified selection or error |
| `QuotaSelection.FillByCategory` | scripts/dsxu-public-comparable-benchmark-manifest.ts:161-167 | the nested quota loops, and whether they ended by the early return |
| `QuotaSelection.SelectionIsThirty` | scripts/dsxu-public-comparable-benchmark-manifest.ts:139-181 | every normal return is thirty cases of the input with pairwise different ids |
| `QuotaSelection.QuotasMetIffEnough` | scripts/dsxu-public-comparable-benchmark-manifest.ts:101-181 | with distinct ids the selection meets every quota exactly when each category holds enough cases, whatever the priority list |
| `QuotaSelection.QuotasUnmetOnReturn` | scripts/dsxu-public-comparable-benchmark-manifest.ts:168-174 | a normal return does not promise quotas: a concrete family of inputs |
| `QuotaErrors.ThrowsExactly` | scripts/dsxu-public-comparable-benchmark-manifest.ts:139-181 | with distinct ids the error is thrown exactly on fewer than thirty cases, or on thirty that fall short of a quota and whose last case is of a category with more cases than its quota and not among the first priority ids of that category |
| `QuotaErrors.PriorityPicksFirst` | scripts/dsxu-public-comparable-benchmark-manifest.ts:154-163 | the priority pass picks exactly the first distinct priority ids of each category, as many as its quota |
| `QuotaErrors.ThirtyBugfixesThrow` | scripts/dsxu-public-comparable-benchmark-manifest.ts:171-180 | thirty distinct bug fixes whose last one has no priority: thirty cases are at hand and the error is thrown |
| `TruthMatrix.CollectReachable` | scripts/dsxu-capability-truth-matrix.ts:209-221 | the worklist loop ends on every finite graph, cyclic or not, with exactly the names reachable by a walk from a root that is a file |
| `TruthMatrix.BuildImportIndex` | scripts/dsxu-capability-truth-matrix.ts:482-491 | both maps are filled so that each target lists its importers in file order, once per import |
| `TruthMatrix.ImportersTranspose` | scripts/dsxu-capability-truth-matrix.ts:482-491 | a file is listed under a target as often as the target is among its imports |
| `TruthMatrix.IndexIsInverse` | scripts/dsxu-capability-truth-matrix.ts:482-491 | importedBy has every edge of imports reversed and no other |
| `TruthMatrix.DependentsLeadBack` | scripts/dsxu-capability-truth-matrix.ts:482-491 | whatever a file reaches through imports reaches it back through the index |
| `TruthMatrix.PrimaryIsLowestEarned` | scripts/dsxu-capability-truth-matrix.ts:318-330 | the primary label is the earned label of highest priority, and unclassified exactly when none is earned |
| `TruthMatrix.LabelCountsPartition` | scripts/dsxu-capability-truth-matrix.ts:600-613 | per-label counts sum to the file count, and the default-mainline count agrees with the one taken from the row flags |
| `Counters.CountBy` | scripts/dsxu-capability-truth-matrix.ts:124-128 | each counter is the multiplicity of its key and the counters sum to the length |
| `Csv.ParseCsvLine` | scripts/dsxu-owner-git-mutation-preflight.ts:73-98 | the guarded-continue character loop reads the specified cells of every string |
| `Csv.ParseCsvLineNested` | scripts/dsxu-blocked-claim-corpus.ts:39-61 | the nested-branch loop reads the same cells from every string |
| `Csv.ReadPrinted` | scripts/dsxu-owner-git-mutation-preflight.ts:73-113 | reading a printed line gives its cells back, whatever quotes, commas or line feeds they hold |
| `Csv.RegexReadsPrinted` | scripts/dsxu-owner-git-mutation-command-plan.ts:66-73 | the regular expression with even-index filtering and unquoting gives the same cells on every printed line |
| `Csv.TableRoundTrip` | scripts/dsxu-owner-git-mutation-preflight.ts:100-121 | parsing a printed table with headers gives its rows back exactly when no header and no cell shown holds a line feed |
| `Csv.FullRowsShown` | scripts/dsxu-owner-git-mutation-preflight.ts:100-121 | a row that has exactly the header fields comes back as it was |
| `Grouping.GroupBy` | scripts/dsxu-owner-git-stage-plan.ts:153-161 | grouping in a Map partitions the rows: distinct keys, and each group is its key's rows in order |
| `OwnerGit.AlignedIffSamePaths` | scripts/dsxu-owner-git-mutation-preflight.ts:181-203 | with Git paths distinct ignoring case, alignment by counting holds exactly when the register lists the same paths, each once |
| `OwnerGit.CaseTwinsHideAnother` | scripts/dsxu-owner-git-mutation-preflight.ts:181-203 | two Git paths that differ only in case hide a path the register has and Git has not |
| `OwnerGit.CountingIsExactIffDistinct` | scripts/dsxu-owner-git-mutation-preflight.ts:181-203 | as long as some path is missing from the Git listing, counting is exact for every register exactly when the listing is distinct ignoring case |
| `OwnerGit.ReadyIffNoBlockers` | scripts/dsxu-owner-git-mutation-preflight.ts:203-270 | the readiness formula and the separately built list of blockers agree |
| `OwnerGit.ProductBlockedIffOddStatus` | scripts/dsxu-owner-git-product-stage-plan.ts:131-163 | on an aligned snapshot with nothing staged the product plan is blocked exactly when a kept path has a status other than M or ?? |
| `OwnerGit.BuildPackets` | scripts/dsxu-owner-git-stage-plan.ts:153-172 | the packets built by the Map loop are the sorted groups of the rows |
| `OwnerGit.PacketsPartition` | scripts/dsxu-owner-git-product-stage-plan.ts:146-163 | packets partition the rows: counts add up, each packet lists its owner's paths in order, no owner has two |
| `OwnerGit.ProductReadyIffPacketsReady` | scripts/dsxu-owner-git-product-stage-plan.ts:146-163 | with nothing staged before a product plan is ready exactly when every packet is |
| `OwnerGit.DeletionReadyMeansDeleted` | scripts/dsxu-owner-git-stage-plan.ts:134-172 | a deletion plan is ready exactly when the preflight allows it and every packet is ready, and then Git lists every path as deleted |
| `CommandPlan.Chunk` | scripts/dsxu-owner-git-mutation-command-plan.ts:35-39 | the slicing loop computes the chunks the next lemma is about |
| `CommandPlan.ChunksConserve` | scripts/dsxu-owner-git-mutation-command-plan.ts:35-39 | nonempty chunks within the bound, all full but the last, that flatten to the input |
| `CommandPlan.EmitCommands` | scripts/dsxu-owner-git-mutation-command-plan.ts:75-97 | the nested loops emit, packet by packet, one numbered command per chunk |
| `CommandPlan.EmitConserves` | scripts/dsxu-owner-git-mutation-command-plan.ts:75-97 | for every owner the commands add exactly its paths in order, and path counts sum to the entries |
| `CommandPlan.ProductCommandsCoverRows` | scripts/dsxu-owner-git-mutation-command-plan.ts:62-86 | the product commands cover each accepted row exactly once, in order within its packet |
| `CommandPlan.BuildCommands` | scripts/dsxu-owner-git-mutation-command-plan.ts:62-97 | product commands in sorted packet order, then the deletion commands |
| `CommandPlan.PrintedPlanReadBack` | scripts/dsxu-owner-git-mutation-command-plan.ts:62-73 | the regular-expression reader takes from a printed stage plan exactly the owner and path of each row |
| `CommandPlan.StagePlanIsCommanded` | scripts/dsxu-owner-git-mutation-command-plan.ts:62-86 | end to end: the commands of a printed, line-feed-free plan add, for every owner, the paths of its rows in plan order |
| `CommandPlan.DeletionPlanIsCommanded` | scripts/dsxu-owner-git-mutation-command-plan.ts:87-98 | from signed-off rows to commands: through the packets of the deletion plan, every owner's paths are added once, in row order, and counts sum to the rows |
| `P12Manifest.DiscoveryAgreesWithIntake` | scripts/dsxu-p12-target-manifest-intake.ts:184-277 | for one manifest on one disk, discovery says READY exactly when the intake ends with no blockers |
| `P12Manifest.OrderIsStrictTotal` | scripts/dsxu-p12-target-manifest-discovery.ts:141-149 | the comparator is a strict total order on candidates with distinct paths |
| `P12Manifest.CanonicalOrderIndependent` | scripts/dsxu-p12-target-manifest-discovery.ts:151-170 | the canonical manifest does not depend on the order of enumeration |
| `P12Manifest.CanonicalIsBestReady` | scripts/dsxu-p12-target-manifest-discovery.ts:141-170 | it exists exactly when some candidate is ready, and precedes every other ready one |
| `GateEvidence.NestedIffPath` | scripts/dsxu-evidence-dashboard.ts:336-346 | the recursive search finds a key exactly when a path of at most four steps ends at a record with a numeric value for it |
| `EvidenceChoice.FindRawManifest` | scripts/dsxu-evidence-dashboard.ts:599-615 | the best-so-far loop over the reverse-sorted files returns the specified choice |
| `EvidenceChoice.ChosenManifestIsGreatest` | scripts/dsxu-evidence-dashboard.ts:599-628 | the chosen manifest is the greatest under case count, then date with the unparsable lowest, then path; none exactly when there is no manifest |
| `EvidenceChoice.ChosenDependsOnCandidates` | scripts/dsxu-evidence-dashboard.ts:599-680 | either look-up depends only on the set of eligible files, not on the listing order or on other files |
| `EvidenceChoice.FindSupersession` | scripts/dsxu-evidence-dashboard.ts:642-680 | the loop with its numeric best-so-far returns the counts of the winning report |
| `EvidenceChoice.WinnerIsMostReady` | scripts/dsxu-evidence-dashboard.ts:642-680 | the winner has the most ready cases among the complete, allowed PASS reports |
| `EvidenceChoice.SupersededOnlyWhenOutdone` | scripts/dsxu-evidence-dashboard.ts:1004-1023 | an import report is demoted only when a ready report of the same set has at least as many cases and strictly more ready ones |
| `EvidenceChoice.SupersededIffOutdone` | scripts/dsxu-evidence-dashboard.ts:1004-1023 | and exactly then, when no ready report claims more ready cases than cases |
| `EvidenceChoice.ReadyReportIsKept` | scripts/dsxu-evidence-dashboard.ts:768-778 | a ready report whose status is text, the winner among them, is demoted by none of the three rules and shown as PASS, or as INFO under a legacy benchmark name |
| `EvidenceChoice.ReadyReportDemotedIff` | scripts/dsxu-evidence-dashboard.ts:964-1035 | otherwise it is demoted exactly when the first text among its other six status fields names the target gap, under the gap name while P12 passes, or says partial, blocked or failed, under the lane name while a winner exists |
| `EvidenceChoice.WinnerDemotedAsGap` | scripts/dsxu-evidence-dashboard.ts:964-976 | this happens to the winner of a listing: the status list ["PASS"] beside a target-gap verdict |
| `EvidenceChoice.WinnerDemotedAsLane` | scripts/dsxu-evidence-dashboard.ts:978-1002 | and through the lane rule, which its own readiness switches on |
| `ReleaseVerdicts.SummaryPartitionsGates` | scripts/dsxu-evidence-dashboard.ts:236-246 | the gate counts partition the gates |
| `ReleaseVerdicts.BuildEvidenceWorkbench` | scripts/dsxu-evidence-dashboard.ts:348-507 | the pushed reasons leave the product allowed exactly when no gate fails or blocks, every area is covered and V4 is not open; the claim verdict counts rows |
| `ReleaseVerdicts.BuildReleaseTrustPanel` | scripts/dsxu-evidence-dashboard.ts:509-597 | the panel reads gates where the workbench reads the summary, sums missing cases where it counts rows, and needs the four aliases |
| `ReleaseVerdicts.Verdicts` | scripts/dsxu-evidence-dashboard.ts:224-226 | product verdicts differ by the aliases only; claim verdicts agree likewise exactly unless, with all else clear, the allowed rows are not the rows without missing cases; on rows the readiness check built only the panel can allow what the other withholds, exactly when no case is missing and a row is not allowed |
| `ReleaseVerdicts.ReadinessRowGap` | src/dsxu/engine/raw-evidence-readiness-register-v1.ts:542-565 | a row as the readiness check builds it: allowed implies nothing missing; the converse fails exactly on a blocked or empty manifest or a case with faulty evidence |
| `VerdictGap.FaultyCaseSplitsTheVerdicts` | scripts/dsxu-evidence-dashboard.ts:139-230 | a run over three files, a manifest whose one case has faulty raw evidence, that evidence and a full command catalog, releases the product on both sides and allows claims on the panel only |
| `EvidenceReading.LoadContext` | scripts/dsxu-evidence-dashboard.ts:143-146 | the three look-ups made before the fold |
| `EvidenceReading.FindRawReadiness` | scripts/dsxu-evidence-dashboard.ts:682-712 | the early-returning loop finds a pass exactly when some file or the trace register passes |
| `EvidenceReading.SameContext` | scripts/dsxu-evidence-dashboard.ts:139-146 | the same evidence, reordered or with earlier dashboard outputs beside it, settles the same context |
| `EvidenceReading.V4PassesIff` | scripts/dsxu-evidence-dashboard.ts:829-874 | a V4 status passes exactly when every expected stage is completed, every listed stage is DONE or PASS, and the launch is not blocked |
| `EvidenceDashboard.Dashboard.CollectEvidence` | scripts/dsxu-evidence-dashboard.ts:735-815 | one file is skipped, recorded as a parse error or collected whole |
| `EvidenceDashboard.Dashboard.Aggregate` | scripts/dsxu-evidence-dashboard.ts:139-230 | the object after the fold over the listed files, and both verdicts on it |
| `EvidenceDashboard.ScoreFloorIsMinimum` | scripts/dsxu-evidence-dashboard.ts:802-808 | the score floor is the minimum of the explicit ones, none when there is none |
| `EvidenceDashboard.CoverageCounts` | scripts/dsxu-evidence-dashboard.ts:274-334 | an area's file count is the number of files that mark it |
| `EvidenceDashboard.RowsOf` | scripts/dsxu-evidence-dashboard.ts:743-765 | every collected readiness row is one the readiness check built: allowed only with nothing missing |
| `EvidenceDashboard.OrderAndOutputsDoNotMatter` | scripts/dsxu-evidence-dashboard.ts:139-230 | with at most one command catalog and one V4 status, neither the order of the files nor earlier outputs among them change gate summary, coverage, catalog, V4 status or score floor; rows and failures change in order only |
| `EvidenceDashboard.AlikeVerdicts` | scripts/dsxu-evidence-dashboard.ts:348-597 | states alike in that sense get the same verdicts |
| `EvidenceDashboard.SameEvidenceSameVerdicts` | scripts/dsxu-evidence-dashboard.ts:139-230 | so two listings of the same evidence get the same four verdicts |
| `EvidenceDashboard.SummarizeOwnerFailures` | scripts/dsxu-evidence-dashboard.ts:248-268 | failures grouped by owner in a Map, sorted by owner |
| `EvidenceDashboard.OwnerFailuresPartition` | scripts/dsxu-evidence-dashboard.ts:248-268 | one summary per failing owner, counting exactly its failures; together they count all |
| `DocsPipeline.ExtractionUnblockedIff` | scripts/dsxu-doc-signal-extraction.ts:266-295 | extraction over any registry rows is unblocked exactly when there are rows, every P0 row has a known signal, and no prompt-feeding path is first listed under a historical status |
| `DocsPipeline.RegistryExtractsIff` | scripts/dsxu-doc-signal-extraction.ts:278-295 | a registry the script wrote, whose status is a function of the path, passes extraction exactly when it is not empty |
| `DocsPipeline.EditedRegistryBlocks` | scripts/dsxu-doc-signal-extraction.ts:289-295 | a registry file edited by hand to list one path under two statuses is blocked |
| `DocsPipeline.HighRowHasCategory` | scripts/dsxu-docs-truth-registry.ts:197-215 | a row rated high by the registry has a signal the extraction knows |
| `DocsPipeline.AllowedSignalsCountFeeders` | scripts/dsxu-doc-signal-extraction.ts:148-156 | the allowed signals number the documents of a prompt status that carry the prompt signal |
| `DocsPipeline.BlockedItems` | scripts/dsxu-prompt-input-allowlist.ts:163-183 | the two pushing loops list the blocking decisions and then the refused signals; every signal is refused or allowed, never both |
| `DocsPipeline.AllowlistTotal` | scripts/dsxu-prompt-input-allowlist.ts:98-161 | the estimate is 8200 tokens plus 80 for each of at most 120 allowed signals |
| `DocsPipeline.AllowlistUnblockedIff` | scripts/dsxu-prompt-input-allowlist.ts:229-243 | over extracted signals only the budget and a delete-reviewed source can block the allowlist |
| `DocsPipeline.DefaultAllowlistPassesIff` | scripts/dsxu-prompt-input-allowlist.ts:227-243 | at the default budget it passes exactly with at most 47 allowed signals and no source, fixed or document, up for delete review |
| `DocsPipeline.WatchlistNeverBlocks` | scripts/dsxu-archive-watchlist.ts:162-191 | whatever registry and signals it is given, the watchlist has no blockers |
| `DocsPipeline.PromptSourcesAreNotWatched` | scripts/dsxu-archive-watchlist.ts:162-185 | where a path has one status, as in every registry the script writes, no document both feeds a prompt item and is watched |
| `DocsPipeline.UndeletableIffActive` | scripts/dsxu-docs-truth-registry.ts:186-195 | the list of the registry and the separate list of the watchlist agree: a document is undeletable exactly when it is active |
| `DocsPipeline.ObservedIff` | scripts/dsxu-archive-watchlist.ts:102-107 | a watched row is merely observed exactly when it carries no risk, cannot be regenerated and gave no signal |
| `DocsPipeline.ArchivedSignalsAreActedOn` | scripts/dsxu-doc-signal-extraction.ts:158-166 | a signal marked for archiving has its document on the watchlist, and not merely observed |
| `Trajectory.ParseTrajectory` | scripts/dsxu-public-challenge-ablation-acceptance.ts:176-234 | the line loop computes the totals the lemmas below are about |
| `Trajectory.ParseIsAdditive` | scripts/dsxu-public-challenge-ablation-acceptance.ts:176-234 | parsing a log that ends its last line followed by another gives the sums of all counters and the unions of all sets |
| `Trajectory.AdditiveIffLineEnded` | scripts/dsxu-public-challenge-ablation-acceptance.ts:176-234 | over all readers and continuations a log can be cut exactly where it is empty or has ended its last line |
| `Trajectory.AdditiveForJsonIff` | scripts/dsxu-public-challenge-ablation-acceptance.ts:176-234 | for a reader that, like JSON.parse, skips leading white space and accepts nothing else before an object, exactly where only white space follows the last line feed |
| `Trajectory.SharedLineLosesRequests` | scripts/dsxu-public-challenge-ablation-acceptance.ts:190-194 | for any reader, a request plan repeated without a line feed, where the joined line does not parse, is lost twice |
| `Trajectory.JoinedRateBetween` | scripts/dsxu-public-challenge-ablation-acceptance.ts:150-164 | the unrounded hit rate of the joined log lies between the two logs' rates, within 0 and 100 |

## Left out

- BudgetsNeverLowered: speaks of finite totals; an infinite one is the subject of InfiniteTotalReplacedIff.
- SecondRunRepeatsFirst: asks for distinct case ids only when the first run was forced; `toolUseCount` and the status label are not claimed, because reuse reads executed counts and relabels runner errors (`ReuseRelabels`).
- PartThenWhole: compares verdicts only, for the same reason, and takes cases sharing an id to be the same case.
- OrderAndOutputsDoNotMatter: takes at most one command catalog and one V4 status among the files, because the last one read wins; the benchmark results and the dated trajectory rows, which keep the listing order, are not part of the state.
- JoinedRateBetween: speaks of the rate before rounding to one decimal.
- File, process and network access, directory walks, Git, ACLs, worktrees, timeouts and clocks; a write that fails halfway, and case-insensitive file systems.
- Registry and signal rows without a path, which every reader of the docs pipeline drops.
- Markdown, SVG, CSV rendering other than the owner/Git printers, console output, prompt text and README texts.
- Keyword classifiers over paths and prose (capability, kind, historical, signal detection, intent and coverage patterns) and import extraction: their truth values or results are inputs.
- The lane's command line, environment and workspace fixtures; the prompt hash, model and path fields that a report echoes; the input field of a traced call.
- Git command text: a command is its packet, number and list of paths, so quoting of paths for the shell is not modelled.
- Keys that JavaScript objects inherit, such as `constructor`, used as record keys; an own `toString` that is not a function.
- Rounding and overflow of sums in floating point: rates, money and token sums are reals. `toFixed` is a parameter.
- Order of strings by UTF-16 units: the default sort and `localeCompare` are comparison functions.
- CSV columns a register file lacks: every row is taken to have its header fields.
- The manifest's prompt hash, artifact and field checks behind a readiness row: each reviewed case says whether evidence was found, how many redlines it has and whether its external target is clear.
- The command catalog's script count and category summary, the stage list echoed for V4, benchmark results and the cost reduction text.
- Dashboard action items, next actions and recommended commands: texts attached to the reasons that are modelled.
- The fixed texts of allowlist items and signal summaries, and owner or work-package names: a summary is the two words it is filled with.
- Hard-coded tables, status-only gate scripts and benchmark fixtures: constants or single formulas.
