/** The owner/Git mutation command plan: the product paths are read back from the
    printed stage plan, grouped by packet and chunked into git add commands. */
module CommandPlan {
  import opened Collections
  import opened Text
  import opened Csv
  import opened Grouping
  import opened Sorting
  import OwnerGit

  const CHUNK_SIZE := 40

  // ----- chunk -----

  function Chunks<T>(items: seq<T>, size: nat): seq<seq<T>>
    requires size > 0
    decreases |items|
  {
    if items == [] then []
    else if |items| <= size then [items]
    else [items[..size]] + Chunks(items[size..], size)
  }

  method Chunk<T>(items: seq<T>, size: nat) returns (chunks: seq<seq<T>>)
    requires size > 0
    ensures chunks == Chunks(items, size)
    ensures Flatten(chunks) == items
    ensures forall i :: 0 <= i < |chunks| ==> 1 <= |chunks[i]| <= size
    ensures forall i :: 0 <= i < |chunks| - 1 ==> |chunks[i]| == size
  {
    chunks := [];
    var index := 0;
    while index < |items|
      invariant Chunks(items, size) == chunks + (if index < |items| then Chunks(items[index..], size) else [])
      decreases |items| - index
    {
      var end := if index + size < |items| then index + size else |items|;
      if index + size < |items| {
        assert items[index..][..size] == items[index..end] && items[index..][size..] == items[end..];
      } else {
        assert items[index..] == items[index..end];
      }
      chunks := chunks + [items[index..end]];
      index := index + size;
    }
    ChunksConserve(items, size);
  }

  /** Chunking loses nothing: nonempty chunks within the bound, all full but the last,
      that flatten to the input. */
  lemma {:induction false} ChunksConserve<T>(items: seq<T>, size: nat)
    requires size > 0
    ensures Flatten(Chunks(items, size)) == items
    ensures forall i :: 0 <= i < |Chunks(items, size)| ==> 1 <= |Chunks(items, size)[i]| <= size
    ensures forall i :: 0 <= i < |Chunks(items, size)| - 1 ==> |Chunks(items, size)[i]| == size
    decreases |items|
  {
    if |items| > size {
      ChunksConserve(items[size..], size);
      assert items == items[..size] + items[size..];
    } else if items != [] {
      assert [items][1..] == [];
    }
  }

  // ----- command emission -----

  datatype Group = Product | Deletion

  /** git add over the paths; pathCount is the number of paths. */
  datatype Command = Command(group: Group, ownerPacket: string, index: nat, paths: seq<string>)

  type Entries = seq<(string, seq<string>)>

  function Numbered(group: Group, owner: string, first: nat, chunks: seq<seq<string>>): seq<Command>
    decreases |chunks|
  {
    if chunks == [] then []
    else [Command(group, owner, first, chunks[0])] + Numbered(group, owner, first + 1, chunks[1..])
  }

  function CommandsFor(group: Group, owner: string, paths: seq<string>): seq<Command> {
    Numbered(group, owner, 1, Chunks(paths, CHUNK_SIZE))
  }

  function Emit(group: Group, entries: Entries): seq<Command> {
    if entries == [] then [] else CommandsFor(group, entries[0].0, entries[0].1) + Emit(group, entries[1..])
  }

  method EmitCommands(group: Group, entries: Entries) returns (commands: seq<Command>)
    ensures commands == Emit(group, entries)
  {
    commands := [];
    for i := 0 to |entries|
      invariant commands + Emit(group, entries[i..]) == Emit(group, entries)
    {
      assert entries[i..][1..] == entries[i + 1..];
      var one := EmitEntry(group, entries[i].0, entries[i].1);
      commands := commands + one;
    }
  }

  /** The inner loop: one command per chunk, numbered from one. */
  method EmitEntry(group: Group, owner: string, paths: seq<string>) returns (commands: seq<Command>)
    ensures commands == CommandsFor(group, owner, paths)
  {
    var chunks := Chunk(paths, CHUNK_SIZE);
    commands := [];
    for c := 0 to |chunks|
      invariant commands + Numbered(group, owner, c + 1, chunks[c..]) == CommandsFor(group, owner, paths)
    {
      assert chunks[c..][1..] == chunks[c + 1..];
      commands := commands + [Command(group, owner, c + 1, chunks[c])];
    }
  }

  /** The paths that the commands of one packet add, in command order. */
  function PathsAdded(commands: seq<Command>, owner: string): seq<string> {
    if commands == [] then []
    else (if commands[0].ownerPacket == owner then commands[0].paths else []) + PathsAdded(commands[1..], owner)
  }

  function PathCount(): Command -> nat {
    (c: Command) => |c.paths|
  }

  function EntrySize(): ((string, seq<string>)) -> nat {
    (e: (string, seq<string>)) => |e.1|
  }

  lemma {:induction false} PathsAddedAppend(a: seq<Command>, b: seq<Command>, owner: string)
    ensures PathsAdded(a + b, owner) == PathsAdded(a, owner) + PathsAdded(b, owner)
  {
    if a == [] {
      assert a + b == b;
    } else {
      assert (a + b)[1..] == a[1..] + b;
      PathsAddedAppend(a[1..], b, owner);
    }
  }

  lemma {:induction false} NumberedConserves(group: Group, owner: string, first: nat, chunks: seq<seq<string>>,
                                             k: string)
    ensures PathsAdded(Numbered(group, owner, first, chunks), k) == if owner == k then Flatten(chunks) else []
    ensures Sum(Numbered(group, owner, first, chunks), PathCount()) == |Flatten(chunks)|
    decreases |chunks|
  {
    if chunks != [] {
      NumberedConserves(group, owner, first + 1, chunks[1..], k);
      var rest := Numbered(group, owner, first + 1, chunks[1..]);
      assert ([Command(group, owner, first, chunks[0])] + rest)[1..] == rest;
    }
  }

  lemma {:induction false} NumberedAt(group: Group, owner: string, first: nat, chunks: seq<seq<string>>)
    ensures var commands := Numbered(group, owner, first, chunks);
            |commands| == |chunks| && forall i :: 0 <= i < |chunks| ==>
                commands[i] == Command(group, owner, first + i, chunks[i])
    decreases |chunks|
  {
    if chunks != [] {
      NumberedAt(group, owner, first + 1, chunks[1..]);
    }
  }

  /** Commands add, packet by packet, exactly the entry's paths in order. */
  lemma {:induction false} EmitConserves(group: Group, entries: Entries, owner: string)
    ensures PathsAdded(Emit(group, entries), owner) == Flatten(MapSeq(Filter(entries, IsEntry(owner)), EntryPaths()))
    ensures Sum(Emit(group, entries), PathCount()) == Sum(entries, EntrySize())
  {
    if entries != [] {
      var (first, paths) := entries[0];
      EmitConserves(group, entries[1..], owner);
      ChunksConserve(paths, CHUNK_SIZE);
      NumberedConserves(group, first, 1, Chunks(paths, CHUNK_SIZE), owner);
      PathsAddedAppend(CommandsFor(group, first, paths), Emit(group, entries[1..]), owner);
      SumAppend(CommandsFor(group, first, paths), Emit(group, entries[1..]), PathCount());
    }
  }

  lemma {:induction false} EmitWithinChunk(group: Group, entries: Entries)
    ensures forall c :: c in Emit(group, entries) ==> c.group == group && 1 <= |c.paths| <= CHUNK_SIZE
  {
    if entries != [] {
      EmitWithinChunk(group, entries[1..]);
      ChunksConserve(entries[0].1, CHUNK_SIZE);
      NumberedAt(group, entries[0].0, 1, Chunks(entries[0].1, CHUNK_SIZE));
    }
  }

  function IsEntry(owner: string): ((string, seq<string>)) -> bool {
    (e: (string, seq<string>)) => e.0 == owner
  }

  function EntryPaths(): ((string, seq<string>)) -> seq<string> {
    (e: (string, seq<string>)) => e.1
  }

  // ----- the product side: from the printed stage plan -----

  /** What the loop reads from one line: the owner packet and the path. */
  datatype Accepted = Accepted(owner: string, path: string)

  function PairOf(): string -> Accepted {
    (line: string) =>
      var values := RegexCells(line);
      Accepted(if |values| > 2 then values[2] else "", if |values| > 1 then values[1] else "")
  }

  function BothPresent(): Accepted -> bool {
    (p: Accepted) => p.path != "" && p.owner != ""
  }

  function AcceptedPairs(productCsv: string): seq<Accepted> {
    Filter(MapSeq(SplitLines(Trim(productCsv))[1..], PairOf()), BothPresent())
  }

  function OwnerOf(): Accepted -> string {
    (p: Accepted) => p.owner
  }

  function PathOf(): Accepted -> string {
    (p: Accepted) => p.path
  }

  function ToEntry<T>(path: T -> string): ((string, seq<T>)) -> (string, seq<string>) {
    (g: (string, seq<T>)) => (g.0, MapSeq(g.1, path))
  }

  function ProductEntries(productCsv: string, compare: Compare<(string, seq<Accepted>)>): Entries {
    MapSeq(SortBy(GroupRows(AcceptedPairs(productCsv), OwnerOf()), compare), ToEntry(PathOf()))
  }

  /** All commands of the plan: product packets in sorted order, then the deletion
      packets as the stage plan lists them. */
  method BuildCommands(productCsv: string, deletions: Entries, compare: Compare<(string, seq<Accepted>)>)
    returns (commands: seq<Command>)
    ensures commands == Emit(Product, ProductEntries(productCsv, compare)) + Emit(Deletion, deletions)
  {
    var groups := GroupBy(AcceptedPairs(productCsv), OwnerOf());
    var product := EmitCommands(Product, MapSeq(SortBy(groups, compare), ToEntry(PathOf())));
    var deletion := EmitCommands(Deletion, deletions);
    return product + deletion;
  }

  /** Among entries with distinct keys at most one carries the key. */
  lemma {:induction false} OneEntry<T(!new)>(groups: Groups<T>, rows: seq<T>, key: T -> string, path: T -> string,
                                             owner: string)
    requires DistinctKeys(groups)
    requires forall i :: 0 <= i < |groups| ==> groups[i].1 == Filter(rows, HasKey(key, groups[i].0))
    ensures Flatten(MapSeq(Filter(MapSeq(groups, ToEntry(path)), IsEntry(owner)), EntryPaths()))
         == if HasGroup(groups, owner) then MapSeq(Filter(rows, HasKey(key, owner)), path) else []
  {
    if groups != [] {
      var rest := groups[1..];
      assert forall i :: 0 <= i < |rest| ==> rest[i] == groups[i + 1];
      assert groups == [groups[0]] + rest;
      DistinctKeysCons(groups[0], rest);
      HasGroupCons(groups, owner);
      OneEntry(rest, rows, key, path, owner);
      assert MapSeq(groups, ToEntry(path)) == [ToEntry(path)(groups[0])] + MapSeq(rest, ToEntry(path));
    }
  }

  lemma NoGroupNoRows<T(!new)>(groups: Groups<T>, rows: seq<T>, key: T -> string, owner: string)
    requires Partitions(groups, rows, key) && !HasGroup(groups, owner)
    ensures Filter(rows, HasKey(key, owner)) == []
  {
    FilterLength(rows, HasKey(key, owner));
  }

  lemma {:induction false} EntrySizes<T>(groups: Groups<T>, path: T -> string)
    ensures Sum(MapSeq(groups, ToEntry(path)), EntrySize()) == Sum(groups, GroupSize())
  {
    if groups != [] {
      EntrySizes(groups[1..], path);
      assert MapSeq(groups, ToEntry(path)) == [ToEntry(path)(groups[0])] + MapSeq(groups[1..], ToEntry(path));
    }
  }

  /** Commands emitted for a partition of rows add each owner's paths in row order, as
      many as there are rows. */
  lemma PartitionIsCommanded<T(!new)>(group: Group, groups: Groups<T>, rows: seq<T>, key: T -> string,
                                      path: T -> string, owner: string)
    requires Partitions(groups, rows, key)
    ensures PathsAdded(Emit(group, MapSeq(groups, ToEntry(path))), owner)
            == MapSeq(Filter(rows, HasKey(key, owner)), path)
    ensures Sum(Emit(group, MapSeq(groups, ToEntry(path))), PathCount()) == Sum(groups, GroupSize())
  {
    EmitConserves(group, MapSeq(groups, ToEntry(path)), owner);
    OneEntry(groups, rows, key, path, owner);
    if !HasGroup(groups, owner) {
      NoGroupNoRows(groups, rows, key, owner);
    }
    EntrySizes(groups, path);
  }

  /** The product commands cover each accepted row exactly once: for every packet they
      add the packet's paths in file order, the counts sum to the rows, and each
      command is nonempty and within the chunk size. */
  lemma ProductCommandsCoverRows(productCsv: string, compare: Compare<(string, seq<Accepted>)>, owner: string)
    ensures var pairs := AcceptedPairs(productCsv);
            var commands := Emit(Product, ProductEntries(productCsv, compare));
      && PathsAdded(commands, owner) == MapSeq(Filter(pairs, HasKey(OwnerOf(), owner)), PathOf())
      && Sum(commands, PathCount()) == |pairs|
      && (forall c :: c in commands ==> c.group == Product && 1 <= |c.paths| <= CHUNK_SIZE)
  {
    var pairs := AcceptedPairs(productCsv);
    var groups := GroupRows(pairs, OwnerOf());
    var sorted := SortBy(groups, compare);
    GroupRowsPartitions(pairs, OwnerOf());
    SortIsPermutation(groups, compare);
    SortedPartitions(groups, sorted, pairs, OwnerOf());
    PartitionIsCommanded(Product, sorted, pairs, OwnerOf(), PathOf(), owner);
    SumPermutation(sorted, groups, GroupSize());
    GroupRowsSize(pairs, OwnerOf());
    EmitWithinChunk(Product, ProductEntries(productCsv, compare));
  }

  // ----- the deletion side: from the packets of the stage plan -----

  function PacketEntry(): OwnerGit.Packet -> (string, seq<string>) {
    (p: OwnerGit.Packet) => (p.ownerPacket, p.paths)
  }

  function DeletionEntries(packets: seq<OwnerGit.Packet>): Entries {
    MapSeq(packets, PacketEntry())
  }

  function DeletionOwner(): OwnerGit.DeletionRow -> string {
    (row: OwnerGit.DeletionRow) => row.ownerPacket
  }

  function DeletionPath(): OwnerGit.DeletionRow -> string {
    (row: OwnerGit.DeletionRow) => row.path
  }

  /** The deletion commands cover each signed-off row exactly once: for every owner they
      add its paths in register order, whatever Git says of them. */
  lemma DeletionPlanIsCommanded(lower: OwnerGit.Lower, staged: bool, canStage: bool, statusByPath: map<string, string>,
                                deletions: seq<OwnerGit.DeletionRow>, compare: Compare<(string, seq<OwnerGit.PathRow>)>,
                                owner: string)
    ensures var rows := MapSeq(deletions, OwnerGit.ToDeletionPathRow(lower, staged, canStage, statusByPath));
            var commands := Emit(Deletion, DeletionEntries(OwnerGit.Packets(rows, compare)));
      && PathsAdded(commands, owner) == MapSeq(Filter(deletions, HasKey(DeletionOwner(), owner)), DeletionPath())
      && Sum(commands, PathCount()) == |deletions|
      && (forall c :: c in commands ==> c.group == Deletion && 1 <= |c.paths| <= CHUNK_SIZE)
  {
    var toRow := OwnerGit.ToDeletionPathRow(lower, staged, canStage, statusByPath);
    var rows := MapSeq(deletions, toRow);
    var sorted := SortBy(GroupRows(rows, OwnerGit.ByOwner()), compare);
    OwnerGit.SortedGroups(rows, compare);
    assert DeletionEntries(OwnerGit.Packets(rows, compare)) == MapSeq(sorted, ToEntry(OwnerGit.PathOf()));
    PartitionIsCommanded(Deletion, sorted, rows, OwnerGit.ByOwner(), OwnerGit.PathOf(), owner);
    OwnedPaths(deletions, toRow, owner);
    EmitWithinChunk(Deletion, MapSeq(sorted, ToEntry(OwnerGit.PathOf())));
  }

  lemma {:induction false} OwnedPaths(deletions: seq<OwnerGit.DeletionRow>,
                                      toRow: OwnerGit.DeletionRow -> OwnerGit.PathRow, owner: string)
    requires forall row :: toRow(row).path == row.path && toRow(row).ownerPacket == row.ownerPacket
    ensures MapSeq(Filter(MapSeq(deletions, toRow), HasKey(OwnerGit.ByOwner(), owner)), OwnerGit.PathOf())
         == MapSeq(Filter(deletions, HasKey(DeletionOwner(), owner)), DeletionPath())
  {
    if deletions != [] {
      OwnedPaths(deletions[1..], toRow, owner);
    }
  }

  // ----- end to end with the printer of the stage plan -----

  const PRODUCT_HEADERS :=
      ["statusCode", "path", "ownerPacket", "reviewState", "recommendedAction", "source", "stageReady"]

  function PairOfRow(): Row -> Accepted {
    (row: Row) => Accepted(CellOf(row, "ownerPacket"), CellOf(row, "path"))
  }

  lemma {:induction false} PrintedLinesAre(lines: seq<string>)
    requires lines != [] && NoLineFeeds(lines) && forall i :: 0 <= i < |lines| ==> QuoteFramed(lines[i])
    ensures SplitLines(JoinLines(lines)) == lines
    decreases |lines|
  {
    SplitWithoutLineFeed(lines[0]);
    if |lines| == 1 {
      assert lines == [lines[0]];
    } else {
      NoLineFeedsCons(lines);
      PrintedLinesAre(lines[1..]);
      JoinFramed(lines[0], JoinLines(lines[1..]));
      assert lines == [lines[0]] + lines[1..];
    }
  }

  lemma PairOfPrinted(row: Row)
    ensures PairOf()(PrintRow(PRODUCT_HEADERS)(row)) == PairOfRow()(row)
  {
    var cells := CellsOf(PRODUCT_HEADERS, row);
    CellsOfAt(PRODUCT_HEADERS, row);
    RegexReadsPrinted(cells);
    assert PRODUCT_HEADERS[1] == "path" && PRODUCT_HEADERS[2] == "ownerPacket";
    assert cells[1] == CellOf(row, "path") && cells[2] == CellOf(row, "ownerPacket");
  }

  /** The regex reader of the command plan takes from a printed stage plan exactly the
      owner and path of each row, keeping the rows that have both. */
  lemma PrintedPlanReadBack(rows: seq<Row>)
    requires LineFeedFree(PRODUCT_HEADERS, rows)
    ensures AcceptedPairs(ToCsv(PRODUCT_HEADERS, rows)) == Filter(MapSeq(rows, PairOfRow()), BothPresent())
  {
    var lines := TableLines(PRODUCT_HEADERS, rows);
    LineFeedFreeLines(PRODUCT_HEADERS, rows);
    TableLinesFramed(PRODUCT_HEADERS, rows);
    PrintedTableLines(PRODUCT_HEADERS, rows);
    PrintedLinesAre(lines);
    var printed := MapSeq(rows, PrintRow(PRODUCT_HEADERS));
    assert lines[1..] == printed;
    var read := MapSeq(printed, PairOf());
    forall i | 0 <= i < |rows| ensures read[i] == PairOfRow()(rows[i]) {
      PairOfPrinted(rows[i]);
    }
    assert read == MapSeq(rows, PairOfRow());
  }

  /** Stage plan to commands: the product commands of a printed, line-feed-free plan
      add, for every owner, the paths of its rows in plan order. */
  lemma StagePlanIsCommanded(rows: seq<Row>, compare: Compare<(string, seq<Accepted>)>, owner: string)
    requires LineFeedFree(PRODUCT_HEADERS, rows)
    ensures var commands := Emit(Product, ProductEntries(ToCsv(PRODUCT_HEADERS, rows), compare));
            var planned := Filter(MapSeq(rows, PairOfRow()), BothPresent());
      && PathsAdded(commands, owner) == MapSeq(Filter(planned, HasKey(OwnerOf(), owner)), PathOf())
      && Sum(commands, PathCount()) == |planned|
  {
    PrintedPlanReadBack(rows);
    ProductCommandsCoverRows(ToCsv(PRODUCT_HEADERS, rows), compare, owner);
  }
}
