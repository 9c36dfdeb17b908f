/** The capability truth matrix: static reachability over the import graph, the
    importedBy index, and the partition of files by primary label. */
module TruthMatrix {
  import opened Collections
  import opened Counters

  type Graph = map<string, seq<string>>

  /** importsByFile.get(file) ?? [] */
  function Targets(g: Graph, file: string): seq<string> {
    if file in g then g[file] else []
  }

  // ----- reachability, by walks -----

  predicate Edge(g: Graph, a: string, b: string) {
    b in Targets(g, a)
  }

  ghost predicate Walk(g: Graph, p: seq<string>) {
    p != [] && forall i :: 0 <= i < |p| - 1 ==> Edge(g, p[i], p[i + 1])
  }

  ghost predicate Connects(g: Graph, p: seq<string>, a: string, b: string) {
    Walk(g, p) && p[0] == a && p[|p| - 1] == b
  }

  ghost predicate Leads(g: Graph, a: string, b: string) {
    exists p :: Connects(g, p, a, b)
  }

  /** Reachable from a root that is a file of the graph. */
  ghost predicate Reachable(g: Graph, roots: seq<string>, n: string) {
    exists root :: root in roots && root in g && Leads(g, root, n)
  }

  lemma LeadsToItself(g: Graph, a: string)
    ensures Leads(g, a, a)
  {
    assert Connects(g, [a], a, a);
  }

  lemma LeadsFurther(g: Graph, a: string, b: string, c: string)
    requires Leads(g, a, b) && Edge(g, b, c)
    ensures Leads(g, a, c)
  {
    var p :| Connects(g, p, a, b);
    var q := p + [c];
    forall i | 0 <= i < |q| - 1 ensures Edge(g, q[i], q[i + 1]) {
      if i < |p| - 1 { assert Edge(g, p[i], p[i + 1]); }
    }
    assert Connects(g, q, a, c);
  }

  lemma ReachableFurther(g: Graph, roots: seq<string>, b: string, c: string)
    requires Reachable(g, roots, b) && Edge(g, b, c)
    ensures Reachable(g, roots, c)
  {
    var root :| root in roots && root in g && Leads(g, root, b);
    LeadsFurther(g, root, b, c);
  }

  ghost predicate Closed(g: Graph, s: set<string>) {
    forall a, b :: a in s && Edge(g, a, b) ==> b in s
  }

  lemma {:induction false} ClosedKeepsWalks(g: Graph, s: set<string>, p: seq<string>)
    requires Closed(g, s) && Walk(g, p) && p[0] in s
    ensures p[|p| - 1] in s
    decreases |p|
  {
    if |p| > 1 {
      assert Edge(g, p[0], p[1]);
      forall i | 0 <= i < |p[1..]| - 1 ensures Edge(g, p[1..][i], p[1..][i + 1]) {
        assert Edge(g, p[i + 1], p[i + 2]);
      }
      ClosedKeepsWalks(g, s, p[1..]);
    }
  }

  /** Every name that occurs anywhere in the graph or among the roots. */
  ghost function Names(g: Graph, roots: seq<string>): set<string> {
    ToSet(roots) + g.Keys + set a, i | a in g && 0 <= i < |g[a]| :: g[a][i]
  }

  lemma EdgeInNames(g: Graph, roots: seq<string>, a: string, b: string)
    requires Edge(g, a, b)
    ensures b in Names(g, roots)
  {
    var i :| 0 <= i < |g[a]| && g[a][i] == b;
  }

  function InGraph(g: Graph): string -> bool {
    file => file in g
  }

  /** What the worklist search keeps: everything found is reachable, and everything
      one step away from the seen files is seen or waiting. */
  ghost predicate Searching(g: Graph, roots: seq<string>, seen: set<string>, waiting: set<string>) {
    && seen <= Names(g, roots) && waiting <= Names(g, roots)
    && (forall n :: n in seen || n in waiting ==> Reachable(g, roots, n))
    && (forall root :: root in roots && root in g ==> root in seen || root in waiting)
    && (forall a, b :: a in seen && Edge(g, a, b) ==> b in seen || b in waiting)
  }

  lemma SearchStarts(g: Graph, roots: seq<string>, stack: seq<string>)
    requires stack == Filter(roots, InGraph(g))
    ensures Searching(g, roots, {}, ToSet(stack))
  {
    FilterMembers(roots, InGraph(g));
    forall root | root in stack ensures Reachable(g, roots, root) { LeadsToItself(g, root); }
  }

  lemma SearchVisits(g: Graph, roots: seq<string>, seen: set<string>, waiting: set<string>, current: string,
                     after: set<string>, pushed: seq<string>)
    requires Searching(g, roots, seen, waiting) && waiting == after + {current}
    requires forall n :: n in pushed <==> n in Targets(g, current) && n !in seen + {current}
    ensures Searching(g, roots, seen + {current}, after + ToSet(pushed))
  {
    forall n | n in pushed ensures n in Names(g, roots) && Reachable(g, roots, n) {
      EdgeInNames(g, roots, current, n);
      ReachableFurther(g, roots, current, n);
    }
  }

  lemma SearchDone(g: Graph, roots: seq<string>, seen: set<string>)
    requires Searching(g, roots, seen, {})
    ensures forall n :: n in seen <==> Reachable(g, roots, n)
  {
    forall n | Reachable(g, roots, n) ensures n in seen {
      var root :| root in roots && root in g && Leads(g, root, n);
      var p :| Connects(g, p, root, n);
      ClosedKeepsWalks(g, seen, p);
    }
  }

  lemma PoppedSet(stack: seq<string>)
    requires stack != []
    ensures ToSet(stack) == ToSet(stack[..|stack| - 1]) + {stack[|stack| - 1]}
  {
    assert stack == stack[..|stack| - 1] + [stack[|stack| - 1]];
  }

  lemma PushedSet(a: seq<string>, b: seq<string>)
    ensures ToSet(a + b) == ToSet(a) + ToSet(b)
  {
  }

  lemma UnseenShrinks(names: set<string>, seen: set<string>, current: string)
    requires current in names && current !in seen
    ensures |names - (seen + {current})| < |names - seen|
  {
    assert names - (seen + {current}) == (names - seen) - {current};
  }

  /** The worklist search ends on every graph, cyclic or not, with exactly the names
      reachable from the roots that are files. */
  method CollectReachable(roots: seq<string>, g: Graph) returns (seen: set<string>)
    ensures forall n :: n in seen <==> Reachable(g, roots, n)
  {
    seen := {};
    var stack := Filter(roots, InGraph(g));
    SearchStarts(g, roots, stack);
    ghost var names, waiting := Names(g, roots), ToSet(stack);
    while stack != []
      invariant waiting == ToSet(stack) && names == Names(g, roots)
      invariant Searching(g, roots, seen, waiting)
      decreases |names - seen|, |stack|
    {
      PoppedSet(stack);
      var current := stack[|stack| - 1];
      stack := stack[..|stack| - 1];
      if current in seen {
        waiting := ToSet(stack);
        continue;
      }
      UnseenShrinks(names, seen, current);
      var pushed := PushTargets(Targets(g, current), seen + {current});
      SearchVisits(g, roots, seen, waiting, current, ToSet(stack), pushed);
      PushedSet(stack, pushed);
      seen, stack := seen + {current}, stack + pushed;
      waiting := ToSet(stack);
    }
    assert waiting == {};
    SearchDone(g, roots, seen);
  }

  /** The inner loop: the targets not seen yet, in order. */
  method PushTargets(targets: seq<string>, seen: set<string>) returns (pushed: seq<string>)
    ensures forall n :: n in pushed <==> n in targets && n !in seen
  {
    pushed := [];
    for i := 0 to |targets|
      invariant forall n :: n in pushed <==> n in targets[..i] && n !in seen
    {
      assert targets[..i + 1] == targets[..i] + [targets[i]];
      if targets[i] !in seen { pushed := pushed + [targets[i]]; }
    }
    assert targets[..|targets|] == targets;
  }

  // ----- the importedBy index -----

  function Repeat(file: string, n: nat): seq<string> {
    seq(n, _ => file)
  }

  /** The files importing a target, in file order, once per import of it. */
  function Importers(files: seq<string>, extract: string -> seq<string>, target: string): seq<string> {
    if files == [] then []
    else
      var last := files[|files| - 1];
      Importers(files[..|files| - 1], extract, target) + Repeat(last, multiset(extract(last))[target])
  }

  /** The loop that fills both maps, over the files in sorted order. */
  method BuildImportIndex(files: seq<string>, extract: string -> seq<string>)
    returns (imports: Graph, importedBy: Graph)
    ensures imports == map file | file in files :: extract(file)
    ensures forall target :: Targets(importedBy, target) == Importers(files, extract, target)
  {
    imports, importedBy := map[], map[];
    for i := 0 to |files|
      invariant imports == map file | file in files[..i] :: extract(file)
      invariant forall target :: Targets(importedBy, target) == Importers(files[..i], extract, target)
    {
      assert files[..i + 1] == files[..i] + [files[i]];
      imports := imports[files[i] := extract(files[i])];
      importedBy := IndexImports(importedBy, files[i], extract(files[i]));
      forall target ensures Targets(importedBy, target) == Importers(files[..i + 1], extract, target) {
        ImportersSnoc(files, extract, i, target);
      }
    }
    assert files[..|files|] == files;
  }

  /** The inner loop: one file is appended under each of its imports. */
  method IndexImports(before: Graph, file: string, imported: seq<string>) returns (importedBy: Graph)
    ensures Indexed(before, importedBy, file, multiset(imported))
  {
    importedBy := before;
    ghost var listed := multiset{};
    for j := 0 to |imported|
      invariant listed == multiset(imported[..j])
      invariant Indexed(before, importedBy, file, listed)
    {
      assert imported[..j + 1] == imported[..j] + [imported[j]];
      var current := imported[j];
      IndexOneMore(before, importedBy, file, listed, current);
      importedBy := importedBy[current := Targets(importedBy, current) + [file]];
      listed := listed + multiset{current};
    }
    assert imported[..|imported|] == imported;
  }

  /** The file is appended under each target as often as it is listed. */
  ghost predicate Indexed(before: Graph, importedBy: Graph, file: string, listed: multiset<string>) {
    forall target :: Targets(importedBy, target) == Targets(before, target) + Repeat(file, listed[target])
  }

  lemma IndexOneMore(before: Graph, importedBy: Graph, file: string, listed: multiset<string>, current: string)
    requires Indexed(before, importedBy, file, listed)
    ensures Indexed(before, importedBy[current := Targets(importedBy, current) + [file]], file,
                    listed + multiset{current})
  {
    var after := importedBy[current := Targets(importedBy, current) + [file]];
    forall target
      ensures Targets(after, target) == Targets(before, target) + Repeat(file, (listed + multiset{current})[target])
    {
      if target == current {
        AppendedOnce(Targets(before, target), file, listed[target]);
        assert (listed + multiset{current})[target] == listed[target] + 1;
      } else {
        assert (listed + multiset{current})[target] == listed[target];
      }
    }
  }

  lemma AppendedOnce(targets: seq<string>, file: string, n: nat)
    ensures targets + Repeat(file, n) + [file] == targets + Repeat(file, n + 1)
  {
    RepeatOneMore(file, n);
  }

  lemma ImportersSnoc(files: seq<string>, extract: string -> seq<string>, i: nat, target: string)
    requires i < |files|
    ensures Importers(files[..i + 1], extract, target)
         == Importers(files[..i], extract, target) + Repeat(files[i], multiset(extract(files[i]))[target])
  {
    assert files[..i + 1][..i] == files[..i];
  }

  lemma RepeatOneMore(file: string, n: nat)
    ensures Repeat(file, n + 1) == Repeat(file, n) + [file]
  {
  }

  /** importedBy is the transpose of imports: over distinct files, a file is listed
      under a target as often as the target is among its imports. */
  lemma {:induction false} ImportersTranspose(files: seq<string>, extract: string -> seq<string>, target: string,
                                              file: string)
    requires NoDuplicates(files)
    ensures multiset(Importers(files, extract, target))[file]
         == if file in files then multiset(extract(file))[target] else 0
  {
    if files != [] {
      var front, last := files[..|files| - 1], files[|files| - 1];
      assert files == front + [last];
      assert NoDuplicates(front);
      ImportersTranspose(front, extract, target, file);
      RepeatMultiplicity(last, multiset(extract(last))[target], file);
      assert forall i :: 0 <= i < |front| ==> front[i] != files[|files| - 1];
    }
  }

  lemma {:induction false} RepeatMultiplicity(file: string, n: nat, other: string)
    ensures multiset(Repeat(file, n))[other] == if other == file then n else 0
  {
    if n > 0 {
      RepeatMultiplicity(file, n - 1, other);
      assert Repeat(file, n) == Repeat(file, n - 1) + [file];
    }
  }

  /** Two graphs with the same edges the other way round. */
  ghost predicate Inverse(g: Graph, h: Graph) {
    forall a, b :: Edge(g, a, b) <==> Edge(h, b, a)
  }

  /** The index built from the imports has every edge reversed and no other. */
  lemma IndexIsInverse(files: seq<string>, extract: string -> seq<string>, imports: Graph, importedBy: Graph)
    requires NoDuplicates(files)
    requires imports == map file | file in files :: extract(file)
    requires forall target :: Targets(importedBy, target) == Importers(files, extract, target)
    ensures Inverse(imports, importedBy)
  {
    forall a, b ensures Edge(imports, a, b) <==> Edge(importedBy, b, a) {
      ImportersTranspose(files, extract, b, a);
      assert b in extract(a) <==> multiset(extract(a))[b] > 0;
      assert a in Importers(files, extract, b) <==> multiset(Importers(files, extract, b))[a] > 0;
    }
  }

  function Reversed(p: seq<string>): seq<string> {
    if p == [] then [] else Reversed(p[1..]) + [p[0]]
  }

  lemma {:induction false} ReversedAt(p: seq<string>)
    ensures |Reversed(p)| == |p| && forall i :: 0 <= i < |p| ==> Reversed(p)[i] == p[|p| - 1 - i]
  {
    if p != [] {
      ReversedAt(p[1..]);
    }
  }

  /** What a file depends on, it is a dependent of: walks turn round in the index. */
  lemma DependentsLeadBack(g: Graph, h: Graph, a: string, b: string)
    requires Inverse(g, h) && Leads(g, a, b)
    ensures Leads(h, b, a)
  {
    var p :| Connects(g, p, a, b);
    ReversedAt(p);
    var q := Reversed(p);
    forall i | 0 <= i < |q| - 1 ensures Edge(h, q[i], q[i + 1]) {
      assert Edge(g, p[|p| - 2 - i], p[|p| - 1 - i]);
    }
    assert Connects(h, q, b, a);
  }

  // ----- labels and the summary -----

  datatype Label =
    DefaultMainline | AppRuntime | CliScript | TestContract | DocEvidence | Experiment | Frozen | HistoricalResidue

  datatype Kind =
    Test | Script | GeneratedEvidence | Document | Bin | Config | ToolSource | DsxuEngine | TuiSource
    | ServiceSource | CommandSource | Source

  predicate IsDefaultMainlineEligible(kind: Kind) {
    kind !in {Bin, Config, Document, GeneratedEvidence, Script, Test, TuiSource}
  }

  /** What the scan found out about a file; the naming patterns are taken as given. */
  datatype Facts = Facts(
    path: string, kind: Kind, taskReachable: bool, appRuntime: bool, cliScript: bool, testContract: bool,
    docEvidence: bool, experiment: bool, frozen: bool, historicalResidue: bool)
  {
    predicate Mainline() {
      taskReachable && IsDefaultMainlineEligible(kind)
    }
  }

  function Pushed(labels: seq<Label>, condition: bool, tag: Label): seq<Label> {
    if condition then labels + [tag] else labels
  }

  /** The labels pushed for a file, in the order of the pushes. */
  function LabelsOf(f: Facts): seq<Label> {
    var l1 := Pushed([], f.Mainline(), DefaultMainline);
    var l2 := Pushed(l1, f.appRuntime && !f.Mainline(), AppRuntime);
    var l3 := Pushed(l2, f.cliScript, CliScript);
    var l4 := Pushed(l3, f.testContract, TestContract);
    var l5 := Pushed(l4, f.docEvidence, DocEvidence);
    var l6 := Pushed(l5, f.experiment, Experiment);
    var l7 := Pushed(l6, f.frozen, Frozen);
    Pushed(l7, f.historicalResidue, HistoricalResidue)
  }

  const PRIORITY := [DefaultMainline, AppRuntime, CliScript, TestContract, DocEvidence, Experiment, Frozen,
                     HistoricalResidue]

  /** priority.find(label => labels.includes(label)) */
  function Find(priority: seq<Label>, labels: seq<Label>): Option<Label> {
    if priority == [] then None
    else if priority[0] in labels then Some(priority[0])
    else Find(priority[1..], labels)
  }

  function PrimaryLabel(labels: seq<Label>): Option<Label> {
    Find(PRIORITY, labels)
  }

  /** The condition under which a label is pushed. */
  predicate Earns(f: Facts, tag: Label) {
    match tag
    case DefaultMainline => f.Mainline()
    case AppRuntime => f.appRuntime && !f.Mainline()
    case CliScript => f.cliScript
    case TestContract => f.testContract
    case DocEvidence => f.docEvidence
    case Experiment => f.experiment
    case Frozen => f.frozen
    case HistoricalResidue => f.historicalResidue
  }

  lemma LabelsAreEarned(f: Facts)
    ensures forall tag :: tag in LabelsOf(f) <==> Earns(f, tag)
  {
    var l1 := Pushed([], f.Mainline(), DefaultMainline);
    var l2 := Pushed(l1, f.appRuntime && !f.Mainline(), AppRuntime);
    var l3 := Pushed(l2, f.cliScript, CliScript);
    var l4 := Pushed(l3, f.testContract, TestContract);
    PushedMembers([], f.Mainline(), DefaultMainline);
    PushedMembers(l1, f.appRuntime && !f.Mainline(), AppRuntime);
    PushedMembers(l2, f.cliScript, CliScript);
    PushedMembers(l3, f.testContract, TestContract);
    LaterLabels(l4, f);
  }

  lemma PushedMembers(labels: seq<Label>, condition: bool, tag: Label)
    ensures forall t :: t in Pushed(labels, condition, tag) <==> t in labels || (condition && t == tag)
  {
  }

  lemma LaterLabels(l4: seq<Label>, f: Facts)
    ensures var l7 := Pushed(Pushed(Pushed(l4, f.docEvidence, DocEvidence), f.experiment, Experiment), f.frozen,
                             Frozen);
            forall t :: t in Pushed(l7, f.historicalResidue, HistoricalResidue) <==>
              t in l4 || (f.docEvidence && t == DocEvidence) || (f.experiment && t == Experiment)
              || (f.frozen && t == Frozen) || (f.historicalResidue && t == HistoricalResidue)
  {
    var l5 := Pushed(l4, f.docEvidence, DocEvidence);
    var l6 := Pushed(l5, f.experiment, Experiment);
    PushedMembers(l4, f.docEvidence, DocEvidence);
    PushedMembers(l5, f.experiment, Experiment);
    PushedMembers(l6, f.frozen, Frozen);
    PushedMembers(Pushed(l6, f.frozen, Frozen), f.historicalResidue, HistoricalResidue);
  }

  lemma {:induction false} FindIsFirst(priority: seq<Label>, labels: seq<Label>)
    ensures match Find(priority, labels)
      case None => forall tag :: tag in priority ==> tag !in labels
      case Some(found) => exists i :: 0 <= i < |priority| && priority[i] == found && found in labels
                                       && forall k :: 0 <= k < i ==> priority[k] !in labels
  {
    if priority != [] && priority[0] !in labels {
      FindIsFirst(priority[1..], labels);
      if Find(priority[1..], labels).Some? {
        var i :| 0 <= i < |priority[1..]| && priority[1..][i] == Find(priority[1..], labels).value
                 && forall k :: 0 <= k < i ==> priority[1..][k] !in labels;
        assert priority[i + 1] == priority[1..][i];
        forall k | 0 <= k < i + 1 ensures priority[k] !in labels {
          if k > 0 { assert priority[k] == priority[1..][k - 1]; }
        }
      }
    }
  }

  /** Position of a label in the priority list. */
  function Rank(tag: Label): nat {
    match tag
    case DefaultMainline => 0
    case AppRuntime => 1
    case CliScript => 2
    case TestContract => 3
    case DocEvidence => 4
    case Experiment => 5
    case Frozen => 6
    case HistoricalResidue => 7
  }

  lemma PriorityByRank(tag: Label)
    ensures PRIORITY[Rank(tag)] == tag
    ensures forall i :: 0 <= i < |PRIORITY| ==> Rank(PRIORITY[i]) == i
  {
  }

  /** Each file has one primary label: the earned label of lowest rank, and none
      exactly when it earned none. */
  lemma PrimaryIsLowestEarned(f: Facts)
    ensures match PrimaryLabel(LabelsOf(f))
      case None => forall tag :: !Earns(f, tag)
      case Some(found) => Earns(f, found) && forall tag :: Earns(f, tag) ==> Rank(found) <= Rank(tag)
  {
    LabelsAreEarned(f);
    FindIsFirst(PRIORITY, LabelsOf(f));
    forall tag ensures tag in PRIORITY && Rank(tag) < 8 && PRIORITY[Rank(tag)] == tag {
      PriorityByRank(tag);
    }
    match PrimaryLabel(LabelsOf(f)) {
      case None =>
      case Some(found) =>
        var i :| 0 <= i < |PRIORITY| && PRIORITY[i] == found && forall k :: 0 <= k < i ==> PRIORITY[k] !in LabelsOf(f);
        PriorityByRank(found);
    }
  }

  function LabelName(tag: Option<Label>): string {
    match tag
    case None => "unclassified"
    case Some(DefaultMainline) => "default-mainline"
    case Some(AppRuntime) => "app-runtime"
    case Some(CliScript) => "cli-script"
    case Some(TestContract) => "test-contract"
    case Some(DocEvidence) => "doc-evidence"
    case Some(Experiment) => "experiment"
    case Some(Frozen) => "frozen"
    case Some(HistoricalResidue) => "historical-residue"
  }

  function PrimaryName(): Facts -> string {
    (f: Facts) => LabelName(PrimaryLabel(LabelsOf(f)))
  }

  function IsMainline(): Facts -> bool {
    (f: Facts) => f.Mainline()
  }

  function NamedAs(name: string): Facts -> bool {
    (f: Facts) => LabelName(PrimaryLabel(LabelsOf(f))) == name
  }

  /** countBy over the primary labels. */
  function ByPrimaryLabel(files: seq<Facts>): Counts {
    Tallied(MapSeq(files, PrimaryName()))
  }

  lemma {:induction false} MultiplicityIsFilter(files: seq<Facts>, name: string)
    ensures multiset(MapSeq(files, PrimaryName()))[name] == |Filter(files, NamedAs(name))|
  {
    if files != [] {
      MultiplicityIsFilter(files[1..], name);
      assert MapSeq(files, PrimaryName()) == [PrimaryName()(files[0])] + MapSeq(files[1..], PrimaryName());
    }
  }

  lemma MainlineFilter(files: seq<Facts>)
    ensures Filter(files, IsMainline()) == Filter(files, NamedAs(LabelName(Some(DefaultMainline))))
  {
    forall f | f in files ensures IsMainline()(f) == NamedAs(LabelName(Some(DefaultMainline)))(f) {
      MainlineName(f);
    }
    FilterAgrees(files, IsMainline(), NamedAs(LabelName(Some(DefaultMainline))));
  }

  lemma MainlineName(f: Facts)
    ensures f.Mainline() <==> LabelName(PrimaryLabel(LabelsOf(f))) == LabelName(Some(DefaultMainline))
  {
    PrimaryIsLowestEarned(f);
    var primary := PrimaryLabel(LabelsOf(f));
    assert f.Mainline() <==> Earns(f, DefaultMainline);
    assert f.Mainline() <==> primary == Some(DefaultMainline);
  }

  lemma CountOfName(files: seq<Facts>, name: string)
    ensures Get(ByPrimaryLabel(files), name) == |Filter(files, NamedAs(name))|
  {
    TalliedIsMultiplicity(MapSeq(files, PrimaryName()));
    MultiplicityIsFilter(files, name);
  }

  /** The per-label counts partition the files: they sum to the file count, and the
      default-mainline one is the count the summary takes from the row flags. */
  lemma LabelCountsPartition(files: seq<Facts>)
    ensures Total(ByPrimaryLabel(files)) == |files|
    ensures forall name :: Get(ByPrimaryLabel(files), name) == |Filter(files, NamedAs(name))|
    ensures Get(ByPrimaryLabel(files), LabelName(Some(DefaultMainline))) == |Filter(files, IsMainline())|
  {
    TalliedIsMultiplicity(MapSeq(files, PrimaryName()));
    forall name ensures Get(ByPrimaryLabel(files), name) == |Filter(files, NamedAs(name))| {
      CountOfName(files, name);
    }
    MainlineFilter(files);
    CountOfName(files, LabelName(Some(DefaultMainline)));
  }
}
