/** The owner/Git preflight and its two stage plans: register alignment by counting,
    readiness, and packets of paths by owner. */
module OwnerGit {
  import opened Collections
  import opened Grouping
  import opened Sorting

  datatype GitRow = GitRow(statusCode: string, path: string)

  datatype RegisterRow = RegisterRow(statusCode: string, path: string, ownerPacket: string, reviewState: string)

  /** toLowerCase, taken as given. */
  type Lower = string -> string

  // ----- register alignment -----

  function RegisterPaths(lower: Lower, register: seq<RegisterRow>): seq<string> {
    MapSeq(register, (row: RegisterRow) => lower(row.path))
  }

  function GitPaths(lower: Lower, git: seq<GitRow>): seq<string> {
    MapSeq(git, (row: GitRow) => lower(row.path))
  }

  function Unknown(lower: Lower, registered: set<string>): GitRow -> bool {
    (row: GitRow) => lower(row.path) !in registered
  }

  function Unregistered(lower: Lower, register: seq<RegisterRow>, git: seq<GitRow>): seq<GitRow> {
    Filter(git, Unknown(lower, ToSet(RegisterPaths(lower, register))))
  }

  /** registerAlignedToGitStatus: nothing unregistered, and equal counts. */
  predicate Aligned(lower: Lower, register: seq<RegisterRow>, git: seq<GitRow>) {
    |Unregistered(lower, register, git)| == 0 && |register| == |git|
  }

  lemma NothingUnregistered(lower: Lower, register: seq<RegisterRow>, git: seq<GitRow>)
    ensures |Unregistered(lower, register, git)| == 0
        <==> ToSet(GitPaths(lower, git)) <= ToSet(RegisterPaths(lower, register))
  {
    var registered := ToSet(RegisterPaths(lower, register));
    FilterLength(git, Unknown(lower, registered));
    if ToSet(GitPaths(lower, git)) <= registered {
      forall row | row in git ensures lower(row.path) in registered {
        var i :| 0 <= i < |git| && git[i] == row;
        assert GitPaths(lower, git)[i] in GitPaths(lower, git);
      }
    }
    if |Unregistered(lower, register, git)| == 0 {
      forall p | p in GitPaths(lower, git) ensures p in registered {
        var i :| 0 <= i < |git| && GitPaths(lower, git)[i] == p;
        assert git[i] in git;
      }
    }
  }

  lemma SameDistinctPaths(xs: seq<string>, ys: seq<string>)
    requires NoDuplicates(xs) && NoDuplicates(ys) && ToSet(xs) == ToSet(ys)
    ensures multiset(xs) == multiset(ys)
  {
    forall x ensures multiset(xs)[x] == multiset(ys)[x] {
      DistinctMultiplicity(xs, x);
      DistinctMultiplicity(ys, x);
      assert x in xs <==> x in ToSet(xs);
      assert x in ys <==> x in ToSet(ys);
    }
  }

  /** Alignment by counting is exact: when Git's paths are distinct ignoring case, the
      register is aligned exactly when it lists the same paths, each once. */
  lemma AlignedIffSamePaths(lower: Lower, register: seq<RegisterRow>, git: seq<GitRow>)
    requires NoDuplicates(GitPaths(lower, git))
    ensures Aligned(lower, register, git)
            <==> multiset(RegisterPaths(lower, register)) == multiset(GitPaths(lower, git))
    ensures Aligned(lower, register, git) ==> NoDuplicates(RegisterPaths(lower, register))
  {
    var r, g := RegisterPaths(lower, register), GitPaths(lower, git);
    NothingUnregistered(lower, register, git);
    DistinctCardinality(r);
    DistinctCardinality(g);
    if Aligned(lower, register, git) {
      SubsetSize(ToSet(g), ToSet(r));
      SameDistinctPaths(r, g);
    }
    if multiset(r) == multiset(g) {
      PermutationMembers(r, g);
    }
  }

  /** Two paths that differ only in case hide a path the register has and Git has not. */
  lemma CaseTwinsHideAnother(lower: Lower, path: string, twin: string, extra: string)
    requires path != twin && lower(path) == lower(twin) != lower(extra)
    ensures var register := [RegisterRow("M", path, "", ""), RegisterRow("M", extra, "", "")];
            var git := [GitRow("M", path), GitRow("M", twin)];
            Aligned(lower, register, git) && lower(extra) !in GitPaths(lower, git)
  {
    var register := [RegisterRow("M", path, "", ""), RegisterRow("M", extra, "", "")];
    var git := [GitRow("M", path), GitRow("M", twin)];
    NothingUnregistered(lower, register, git);
    assert RegisterPaths(lower, register)[0] == lower(path);
    assert GitPaths(lower, git) == [lower(path), lower(path)];
  }

  ghost predicate AlignedExactly(lower: Lower, register: seq<RegisterRow>, git: seq<GitRow>) {
    Aligned(lower, register, git) <==> multiset(RegisterPaths(lower, register)) == multiset(GitPaths(lower, git))
  }

  /** As long as some path is missing from Git's listing, counting is exact for every
      register exactly when the listing is distinct ignoring case. */
  lemma CountingIsExactIffDistinct(lower: Lower, git: seq<GitRow>, extra: string)
    requires lower(extra) !in GitPaths(lower, git)
    ensures (forall register :: AlignedExactly(lower, register, git)) <==> NoDuplicates(GitPaths(lower, git))
  {
    if NoDuplicates(GitPaths(lower, git)) {
      forall register ensures AlignedExactly(lower, register, git) {
        AlignedIffSamePaths(lower, register, git);
      }
    } else {
      var register := MisledRegister(lower, git, extra);
      assert !AlignedExactly(lower, register, git);
    }
  }

  function AsRegistered(): GitRow -> RegisterRow {
    (row: GitRow) => RegisterRow(row.statusCode, row.path, "", "")
  }

  /** Git's own rows with the second of two twins replaced. */
  lemma MisledRegister(lower: Lower, git: seq<GitRow>, extra: string) returns (register: seq<RegisterRow>)
    requires lower(extra) !in GitPaths(lower, git) && !NoDuplicates(GitPaths(lower, git))
    ensures Aligned(lower, register, git)
    ensures multiset(RegisterPaths(lower, register)) != multiset(GitPaths(lower, git))
  {
    var g := GitPaths(lower, git);
    var i, j :| 0 <= i < j < |g| && g[i] == g[j];
    register := MapSeq(git, AsRegistered())[j := RegisterRow("M", extra, "", "")];
    var r := RegisterPaths(lower, register);
    assert forall k :: 0 <= k < |g| && k != j ==> r[k] == g[k];
    forall p | p in g ensures p in r {
      var k :| 0 <= k < |g| && g[k] == p;
      assert p == r[if k == j then i else k];
    }
    NothingUnregistered(lower, register, git);
    assert r[j] == lower(extra) && r[j] in r;
    if multiset(r) == multiset(g) {
      PermutationMembers(r, g);
      assert false;
    }
  }

  // ----- preflight readiness -----

  /** The facts the preflight reads from the signoff and readiness files. */
  datatype Preflight = Preflight(
    postStageIndexVerified: bool, registerAligned: bool, unregisteredCount: nat,
    deletionReadyPaths: int, deletionRowsInGit: int, deletionReferenceRows: int,
    aclClosed: bool, aclResidueRows: int,
    pairedLogs: Option<int>, minimumPairedLogs: Option<int>, familyGaps: Option<int>)

  datatype Blocker =
    | RegisterNotAligned | NeedsStageAuthorization | DeletionNotStageReady | AclResidue(rows: int)
    | PairedLogsIncomplete | FamilyGaps | FinalTestsBlocked | CleanExportBlocked

  predicate EnoughPairedLogs(p: Preflight) {
    p.pairedLogs.GetOr(0) >= p.minimumPairedLogs.GetOr(14)
  }

  predicate CanStageDeletion(p: Preflight) {
    !p.postStageIndexVerified && p.registerAligned && p.deletionReadyPaths == p.deletionRowsInGit
        && p.deletionReferenceRows == 0
  }

  predicate FinalReady(p: Preflight) {
    p.postStageIndexVerified && p.aclClosed && EnoughPairedLogs(p) && p.familyGaps == Some(0)
  }

  function When(condition: bool, blocker: Blocker): seq<Blocker> {
    if condition then [blocker] else []
  }

  function Blockers(p: Preflight): seq<Blocker> {
    var aclBlocking := if p.aclClosed then 0 else p.aclResidueRows;
    When(!p.registerAligned && !p.postStageIndexVerified, RegisterNotAligned)
    + (if p.postStageIndexVerified then []
       else if CanStageDeletion(p) then [NeedsStageAuthorization] else [DeletionNotStageReady])
    + When(aclBlocking > 0, AclResidue(aclBlocking))
    + When(!EnoughPairedLogs(p), PairedLogsIncomplete)
    + When(p.familyGaps.GetOr(0) > 0, FamilyGaps)
    + When(!FinalReady(p), FinalTestsBlocked)
    + When(!FinalReady(p), CleanExportBlocked)
  }

  /** The list of blockers and the readiness formula are computed apart and agree. */
  lemma ReadyIffNoBlockers(p: Preflight)
    ensures FinalReady(p) <==> Blockers(p) == []
    ensures FinalReady(p) ==> !CanStageDeletion(p)
  {
    if !FinalReady(p) {
      assert When(!FinalReady(p), CleanExportBlocked) == [CleanExportBlocked];
      assert Blockers(p)[|Blockers(p)| - 1] == CleanExportBlocked;
    }
  }

  // ----- stage plans -----

  datatype PlanStatus = READY_PENDING_STAGE | STAGED_BY_EXECUTION | BLOCKED

  datatype PathRow = PathRow(statusCode: string, path: string, ownerPacket: string, stageReady: bool)

  predicate Stageable(code: string) {
    code == "M" || code == "??"
  }

  function NotDeleted(): RegisterRow -> bool {
    (row: RegisterRow) => row.statusCode != "D"
  }

  function ToPathRow(lower: Lower, staged: bool, aligned: bool, statusPaths: set<string>): RegisterRow -> PathRow {
    (row: RegisterRow) => PathRow(row.statusCode, row.path, row.ownerPacket,
      staged || (aligned && lower(row.path) in statusPaths && Stageable(row.statusCode)))
  }

  function ProductRows(lower: Lower, staged: bool, aligned: bool, statusPaths: set<string>,
                       register: seq<RegisterRow>): seq<PathRow> {
    MapSeq(Filter(register, NotDeleted()), ToPathRow(lower, staged, aligned, statusPaths))
  }

  function IsReady(): PathRow -> bool {
    (row: PathRow) => row.stageReady
  }

  function ProductStatus(staged: bool, rows: seq<PathRow>): PlanStatus {
    if staged then STAGED_BY_EXECUTION
    else if |Filter(rows, IsReady())| == |rows| then READY_PENDING_STAGE
    else BLOCKED
  }

  /** A register row that a product plan cannot stage on an aligned snapshot. */
  ghost predicate OddProductRow(register: seq<RegisterRow>) {
    exists i :: 0 <= i < |register| && register[i].statusCode != "D" && !Stageable(register[i].statusCode)
  }

  /** On a snapshot whose register is aligned, with nothing staged, the product plan is
      blocked exactly when some kept path has a status other than M or ??. */
  lemma ProductBlockedIffOddStatus(lower: Lower, register: seq<RegisterRow>, git: seq<GitRow>)
    requires NoDuplicates(GitPaths(lower, git)) && Aligned(lower, register, git)
    ensures ProductStatus(false, ProductRows(lower, false, true, ToSet(GitPaths(lower, git)), register)) == BLOCKED
        <==> OddProductRow(register)
  {
    AlignedIffSamePaths(lower, register, git);
    PermutationMembers(RegisterPaths(lower, register), GitPaths(lower, git));
    ProductBlockedAmongKnownPaths(lower, register, ToSet(GitPaths(lower, git)));
  }

  lemma ProductBlockedAmongKnownPaths(lower: Lower, register: seq<RegisterRow>, statusPaths: set<string>)
    requires forall p :: p in RegisterPaths(lower, register) ==> p in statusPaths
    ensures ProductStatus(false, ProductRows(lower, false, true, statusPaths, register)) == BLOCKED
            <==> OddProductRow(register)
  {
    var toRow := ToPathRow(lower, false, true, statusPaths);
    FilterLength(ProductRows(lower, false, true, statusPaths, register), IsReady());
    forall row | row in register ensures toRow(row).stageReady <==> Stageable(row.statusCode) {
      var i :| 0 <= i < |register| && register[i] == row;
      assert RegisterPaths(lower, register)[i] in RegisterPaths(lower, register);
    }
    ReadyIffNoOddRow(register, toRow);
  }

  lemma ReadyIffNoOddRow(register: seq<RegisterRow>, toRow: RegisterRow -> PathRow)
    requires forall row :: row in register ==> (toRow(row).stageReady <==> Stageable(row.statusCode))
    ensures var rows := MapSeq(Filter(register, NotDeleted()), toRow);
            (forall row :: row in rows ==> IsReady()(row)) <==> !OddProductRow(register)
  {
    var kept := Filter(register, NotDeleted());
    var rows := MapSeq(kept, toRow);
    FilterMembers(register, NotDeleted());
    if OddProductRow(register) {
      var i :| 0 <= i < |register| && register[i].statusCode != "D" && !Stageable(register[i].statusCode);
      assert register[i] in kept;
      var k :| 0 <= k < |kept| && kept[k] == register[i];
      assert rows[k] in rows && !IsReady()(rows[k]);
    } else {
      forall row | row in rows ensures row.stageReady {
        var k :| 0 <= k < |rows| && rows[k] == row;
        assert kept[k] in kept;
      }
    }
  }

  // ----- packets -----

  datatype Packet = Packet(ownerPacket: string, pathCount: nat, modified: nat, untracked: nat, stageReady: bool,
                           paths: seq<string>)

  function WithStatus(code: string): PathRow -> bool {
    (row: PathRow) => row.statusCode == code
  }

  function PathOf(): PathRow -> string {
    (row: PathRow) => row.path
  }

  function ToPacket(): ((string, seq<PathRow>)) -> Packet {
    (g: (string, seq<PathRow>)) =>
      Packet(g.0, |g.1|, |Filter(g.1, WithStatus("M"))|, |Filter(g.1, WithStatus("??"))|,
             forall i :: 0 <= i < |g.1| ==> g.1[i].stageReady, MapSeq(g.1, PathOf()))
  }

  function ByOwner(): PathRow -> string {
    (row: PathRow) => row.ownerPacket
  }

  /** The packets: rows grouped by owner, entries sorted by a comparison of owners. */
  function Packets(rows: seq<PathRow>, compare: Compare<(string, seq<PathRow>)>): seq<Packet> {
    MapSeq(SortBy(GroupRows(rows, ByOwner()), compare), ToPacket())
  }

  method BuildPackets(rows: seq<PathRow>, compare: Compare<(string, seq<PathRow>)>) returns (packets: seq<Packet>)
    ensures packets == Packets(rows, compare)
  {
    var groups := GroupBy(rows, ByOwner());
    packets := MapSeq(SortBy(groups, compare), ToPacket());
  }

  function PacketSize(): Packet -> nat {
    (p: Packet) => p.pathCount
  }

  lemma {:induction false} PacketSizes(groups: Groups<PathRow>)
    ensures Sum(MapSeq(groups, ToPacket()), PacketSize()) == Sum(groups, GroupSize())
  {
    if groups != [] {
      PacketSizes(groups[1..]);
      assert MapSeq(groups, ToPacket()) == [ToPacket()(groups[0])] + MapSeq(groups[1..], ToPacket());
    }
  }

  lemma SortedGroups(rows: seq<PathRow>, compare: Compare<(string, seq<PathRow>)>)
    ensures Partitions(SortBy(GroupRows(rows, ByOwner()), compare), rows, ByOwner())
    ensures Sum(SortBy(GroupRows(rows, ByOwner()), compare), GroupSize()) == |rows|
  {
    var groups := GroupRows(rows, ByOwner());
    GroupRowsPartitions(rows, ByOwner());
    SortIsPermutation(groups, compare);
    SortedPartitions(groups, SortBy(groups, compare), rows, ByOwner());
    SumPermutation(SortBy(groups, compare), groups, GroupSize());
    GroupRowsSize(rows, ByOwner());
  }

  ghost predicate AllReady(packets: seq<Packet>) {
    forall i :: 0 <= i < |packets| ==> packets[i].stageReady
  }

  lemma GroupReady(g: (string, seq<PathRow>))
    ensures ToPacket()(g).stageReady <==> forall row :: row in g.1 ==> row.stageReady
  {
    if ToPacket()(g).stageReady {
      forall row | row in g.1 ensures row.stageReady {
        var i :| 0 <= i < |g.1| && g.1[i] == row;
      }
    }
  }

  lemma AllReadyMeansRows(groups: Groups<PathRow>, rows: seq<PathRow>)
    requires Partitions(groups, rows, ByOwner())
    ensures AllReady(MapSeq(groups, ToPacket())) <==> forall row :: row in rows ==> row.stageReady
  {
    var packets := MapSeq(groups, ToPacket());
    forall i | 0 <= i < |groups|
      ensures forall row :: row in groups[i].1 <==> row in rows && row.ownerPacket == groups[i].0
      ensures packets[i].stageReady <==> forall row :: row in groups[i].1 ==> row.stageReady
    {
      FilterMembers(rows, HasKey(ByOwner(), groups[i].0));
      GroupReady(groups[i]);
    }
    if AllReady(packets) {
      forall row | row in rows ensures row.stageReady {
        var i :| 0 <= i < |groups| && groups[i].0 == ByOwner()(row);
        assert packets[i].stageReady;
      }
    }
  }

  /** The packets partition the rows: path counts add up, each packet lists the paths
      of its owner in order, and no owner has two packets. */
  lemma PacketsPartition(rows: seq<PathRow>, compare: Compare<(string, seq<PathRow>)>)
    ensures var packets := Packets(rows, compare);
      && Sum(packets, PacketSize()) == |rows|
      && (forall i, j :: 0 <= i < j < |packets| ==> packets[i].ownerPacket != packets[j].ownerPacket)
      && (forall i :: 0 <= i < |packets| ==>
            packets[i].paths == MapSeq(Filter(rows, HasKey(ByOwner(), packets[i].ownerPacket)), PathOf()))
      && (AllReady(packets) <==> forall row :: row in rows ==> row.stageReady)
  {
    SortedGroups(rows, compare);
    var sorted := SortBy(GroupRows(rows, ByOwner()), compare);
    PacketSizes(sorted);
    AllReadyMeansRows(sorted, rows);
  }

  /** With nothing staged before, a product plan is ready exactly when every packet is. */
  lemma ProductReadyIffPacketsReady(rows: seq<PathRow>, compare: Compare<(string, seq<PathRow>)>)
    ensures ProductStatus(false, rows) == READY_PENDING_STAGE <==> AllReady(Packets(rows, compare))
  {
    PacketsPartition(rows, compare);
    FilterLength(rows, IsReady());
  }

  // ----- the deletion plan -----

  datatype DeletionRow = DeletionRow(path: string, ownerPacket: string, accepted: bool)

  function ToDeletionPathRow(lower: Lower, staged: bool, canStage: bool,
                             statusByPath: map<string, string>): DeletionRow -> PathRow {
    (row: DeletionRow) =>
      var status := if lower(row.path) in statusByPath then statusByPath[lower(row.path)]
          else "MISSING_FROM_GIT_STATUS";
      PathRow(status, row.path, row.ownerPacket, staged || (canStage && status == "D" && row.accepted))
  }

  function DeletionStatus(staged: bool, canStage: bool, rows: seq<PathRow>): PlanStatus {
    if staged then STAGED_BY_EXECUTION
    else if canStage && |Filter(rows, IsReady())| == |rows| then READY_PENDING_STAGE
    else BLOCKED
  }

  /** A deletion plan with nothing staged before is ready exactly when the preflight
      allows it and every packet is ready; then Git lists every path as deleted. */
  lemma DeletionReadyMeansDeleted(lower: Lower, canStage: bool, statusByPath: map<string, string>,
                                  deletions: seq<DeletionRow>,
                                  compare: Compare<(string, seq<PathRow>)>)
    ensures var rows := MapSeq(deletions, ToDeletionPathRow(lower, false, canStage, statusByPath));
      && (DeletionStatus(false, canStage, rows) == READY_PENDING_STAGE
          <==> canStage && AllReady(Packets(rows, compare)))
      && (DeletionStatus(false, canStage, rows) == READY_PENDING_STAGE ==>
            forall i :: 0 <= i < |deletions| ==>
              deletions[i].accepted && lower(deletions[i].path) in statusByPath
                  && statusByPath[lower(deletions[i].path)] == "D")
  {
    var rows := MapSeq(deletions, ToDeletionPathRow(lower, false, canStage, statusByPath));
    PacketsPartition(rows, compare);
    FilterLength(rows, IsReady());
    if DeletionStatus(false, canStage, rows) == READY_PENDING_STAGE {
      forall i | 0 <= i < |deletions| ensures rows[i].stageReady {
        assert rows[i] in rows;
      }
    }
  }
}
