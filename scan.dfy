// The directory scan (scan-service.ts). A watched folder is walked with an
// explicit stack of directories; each readable directory's entries are
// visited in order, hidden names are skipped unless allowed, links are never
// followed, sub-directories are pushed only for a recursive scan, and each
// regular file whose `stat` succeeds becomes a candidate until the limit is
// reached. The results are sorted by modification time, newest first.
//
// The directory tree below the watched root is given as a value: a `Node`
// records what `readdir` and `stat` would report, including their failures.
module Scan {
  import opened Wrappers
  import opened Ints
  import opened Strings
  import opened Paths
  import opened Seqs
  import opened Contracts
  import opened PathPolicy
  import opened RunStore

  /** What `fs.stat` reports about a file. */
  datatype FileStat = FileStat(size: int, birthtime: Option<string>, mtime: Option<string>)

  /** A directory entry, with what the scan finds when it looks further. */
  datatype Node =
    | FileNode(name: string, stat: Option<FileStat>)   // None: `stat` throws
    | DirNode(name: string, children: seq<Node>)        // a readable directory
    | UnreadableDir(name: string)                       // `readdir` throws
    | LinkNode(name: string)                            // a symbolic link
    | OtherNode(name: string)                           // socket, device, fifo

  /** The per-scan settings: hidden files, sub-folders, and the two outside
      services a candidate needs (`createId("file")`, the MIME lookup). */
  datatype ScanOptions = ScanOptions(
    includeHidden: bool,
    recursive: bool,
    newFileId: string -> string,
    mimeOf: string -> Option<string>)

  /** A directory waiting on the stack: its path and what it holds. */
  datatype Pending = Pending(path: string, node: Node)

  /** The walk's mutable state: the directory stack and the files found. */
  datatype Frontier = Frontier(stack: seq<Pending>, files: seq<ScanCandidate>)

  predicate Visible(o: ScanOptions, name: string)
  {
    o.includeHidden || !StartsWith(name, ".")
  }

  predicate IsDirectory(n: Node)
  {
    n.DirNode? || n.UnreadableDir?
  }

  /** The candidate built for file `name` in directory `dir`. */
  function Candidate(o: ScanOptions, dir: string, name: string, st: FileStat): ScanCandidate
  {
    var absolute := Join(dir, name);
    var ext := ToLower(Extname(name));
    ScanCandidate(o.newFileId(absolute), absolute, dir, name, ext, o.mimeOf(ext), st.size,
                  st.birthtime, st.mtime, None, None, None, None, None)
  }

  /** The sort key: the modification time, or "" when there is none. */
  function ModifiedKey(c: ScanCandidate): string
  {
    c.modifiedAtFs.GetOr("")
  }

  // ---------------------------------------------------------------------
  // Sizes, for termination.

  function Size(n: Node): (r: nat)
    ensures r >= 1
    decreases n
  {
    match n
    case DirNode(_, cs) => 1 + SizeAll(cs)
    case _ => 1
  }

  function SizeAll(ns: seq<Node>): nat
    decreases ns
  {
    if ns == [] then 0 else Size(ns[0]) + SizeAll(ns[1..])
  }

  function StackSize(st: seq<Pending>): nat
  {
    if st == [] then 0 else StackSize(st[..|st| - 1]) + Size(st[|st| - 1].node)
  }

  lemma StackSizePush(st: seq<Pending>, p: Pending)
    ensures StackSize(st + [p]) == StackSize(st) + Size(p.node)
  {
    assert (st + [p])[..|st|] == st;
  }

  // ---------------------------------------------------------------------
  // What a complete walk would find.

  /** Every candidate below the entries `es` of directory `dir`. */
  function EntriesCands(o: ScanOptions, dir: string, es: seq<Node>): multiset<ScanCandidate>
    decreases SizeAll(es)
  {
    if es == [] then multiset{}
    else
      var e := es[0];
      var here: multiset<ScanCandidate> :=
        if !Visible(o, e.name) then multiset{}
        else match e
          case DirNode(name, cs) =>
            assert Size(DirNode(name, cs)) == 1 + SizeAll(cs);
            if o.recursive then EntriesCands(o, Join(dir, name), cs) else multiset{}
          case FileNode(name, Some(st)) => multiset{Candidate(o, dir, name, st)}
          case _ => multiset{};
      here + EntriesCands(o, dir, es[1..])
  }

  /** Every candidate a directory at `path` holds. */
  function NodeCands(o: ScanOptions, path: string, n: Node): multiset<ScanCandidate>
  {
    match n
    case DirNode(_, cs) => EntriesCands(o, path, cs)
    case _ => multiset{}
  }

  function StackCands(o: ScanOptions, st: seq<Pending>): multiset<ScanCandidate>
  {
    if st == [] then multiset{}
    else StackCands(o, st[..|st| - 1]) + NodeCands(o, st[|st| - 1].path, st[|st| - 1].node)
  }

  lemma StackCandsPush(o: ScanOptions, st: seq<Pending>, p: Pending)
    ensures StackCands(o, st + [p]) == StackCands(o, st) + NodeCands(o, p.path, p.node)
  {
    assert (st + [p])[..|st|] == st;
  }

  // ---------------------------------------------------------------------
  // The walk, as the loops perform it.

  /** The candidate file `e` contributes, if it is a visible regular file
      whose `stat` succeeds. */
  predicate YieldsFile(o: ScanOptions, e: Node)
  {
    Visible(o, e.name) && e.FileNode? && e.stat.Some?
  }

  /** One entry of the inner loop. */
  function EntryStep(o: ScanOptions, dir: string, e: Node, w: Frontier): (r: Frontier)
    ensures r.files == if YieldsFile(o, e) then w.files + [Candidate(o, dir, e.name, e.stat.value)] else w.files
  {
    if !Visible(o, e.name) then w
    else if IsDirectory(e) then
      if o.recursive then w.(stack := w.stack + [Pending(Join(dir, e.name), e)]) else w
    else if e.FileNode? && e.stat.Some? then
      w.(files := w.files + [Candidate(o, dir, e.name, e.stat.value)])
    else w
  }

  lemma EntryStepSize(o: ScanOptions, dir: string, e: Node, w: Frontier)
    ensures StackSize(EntryStep(o, dir, e, w).stack) <= StackSize(w.stack) + Size(e)
  {
    if Visible(o, e.name) && IsDirectory(e) && o.recursive {
      StackSizePush(w.stack, Pending(Join(dir, e.name), e));
    }
  }

  /** The inner loop over one directory's entries, from `w`, stopping as soon
      as `limit` files are found. */
  function Entries(o: ScanOptions, dir: string, es: seq<Node>, w: Frontier, limit: int): (r: Frontier)
    ensures StackSize(r.stack) <= StackSize(w.stack) + SizeAll(es)
    ensures w.files <= r.files
    ensures |w.files| < limit ==> |r.files| <= limit
    decreases es
  {
    if es == [] then w
    else
      var next := EntryStep(o, dir, es[0], w);
      EntryStepSize(o, dir, es[0], w);
      if YieldsFile(o, es[0]) && |next.files| >= limit then next
      else Entries(o, dir, es[1..], next, limit)
  }

  /** The outer loop: pop a directory, list it (skipping it when `readdir`
      fails), and go on while directories remain and fewer than `limit`
      files are found. */
  function Walk(o: ScanOptions, w: Frontier, limit: int): (r: seq<ScanCandidate>)
    ensures w.files <= r
    ensures |r| <= Max(|w.files|, limit)
    decreases StackSize(w.stack)
  {
    if w.stack == [] || |w.files| >= limit then w.files
    else
      var top := w.stack[|w.stack| - 1];
      var rest := w.stack[..|w.stack| - 1];
      match top.node
      case DirNode(name, cs) =>
        assert Size(DirNode(name, cs)) == 1 + SizeAll(cs);
        Walk(o, Entries(o, top.path, cs, Frontier(rest, w.files), limit), limit)
      case _ => Walk(o, Frontier(rest, w.files), limit)
  }

  /** `scanPath` after the policy has resolved the root. */
  function ScanPathSpec(o: ScanOptions, root: string, tree: Node, limit: int): seq<ScanCandidate>
  {
    SortDesc(Walk(o, Frontier([Pending(root, tree)], []), limit), ModifiedKey)
  }

  // ---------------------------------------------------------------------
  // The walk against the complete set.

  /** What a walk state holds: the files found and the files still below
      the stacked directories. */
  function Mass(o: ScanOptions, w: Frontier): multiset<ScanCandidate>
  {
    multiset(w.files) + StackCands(o, w.stack)
  }

  /** The candidates one entry of directory `dir` stands for. */
  function EntryCands(o: ScanOptions, dir: string, e: Node): multiset<ScanCandidate>
  {
    if !Visible(o, e.name) then multiset{}
    else if IsDirectory(e) then
      if o.recursive then NodeCands(o, Join(dir, e.name), e) else multiset{}
    else if e.FileNode? && e.stat.Some? then multiset{Candidate(o, dir, e.name, e.stat.value)}
    else multiset{}
  }

  lemma EntriesCandsUnfold(o: ScanOptions, dir: string, es: seq<Node>)
    requires es != []
    ensures EntriesCands(o, dir, es) == EntryCands(o, dir, es[0]) + EntriesCands(o, dir, es[1..])
  {
  }

  /** One entry moves its candidates onto the stack or into the files. */
  lemma EntryStepAccount(o: ScanOptions, dir: string, e: Node, w: Frontier)
    ensures Mass(o, EntryStep(o, dir, e, w)) == Mass(o, w) + EntryCands(o, dir, e)
  {
    var r := EntryStep(o, dir, e, w);
    if !Visible(o, e.name) {
      assert r == w && EntryCands(o, dir, e) == multiset{};
    } else if IsDirectory(e) {
      if o.recursive {
        var top := Pending(Join(dir, e.name), e);
        assert r == w.(stack := w.stack + [top]);
        StackCandsPush(o, w.stack, top);
      } else {
        assert r == w && EntryCands(o, dir, e) == multiset{};
      }
    } else if e.FileNode? && e.stat.Some? {
      var c := Candidate(o, dir, e.name, e.stat.value);
      assert r == w.(files := w.files + [c]);
      assert multiset(w.files + [c]) == multiset(w.files) + multiset{c};
    } else {
      assert r == w && EntryCands(o, dir, e) == multiset{};
    }
  }

  lemma {:induction false} EntriesAccount(o: ScanOptions, dir: string, es: seq<Node>, w: Frontier, limit: int)
    ensures Mass(o, Entries(o, dir, es, w, limit)) <= Mass(o, w) + EntriesCands(o, dir, es)
    ensures |Entries(o, dir, es, w, limit).files| < limit ==>
      Mass(o, Entries(o, dir, es, w, limit)) == Mass(o, w) + EntriesCands(o, dir, es)
    decreases es
  {
    if es != [] {
      var next := EntryStep(o, dir, es[0], w);
      EntryStepAccount(o, dir, es[0], w);
      EntriesCandsUnfold(o, dir, es);
      if !(YieldsFile(o, es[0]) && |next.files| >= limit) {
        EntriesAccount(o, dir, es[1..], next, limit);
      }
    }
  }

  lemma {:induction false} WalkAccount(o: ScanOptions, w: Frontier, limit: int)
    ensures multiset(Walk(o, w, limit)) <= Mass(o, w)
    ensures |Walk(o, w, limit)| < limit ==> multiset(Walk(o, w, limit)) == Mass(o, w)
    decreases StackSize(w.stack)
  {
    if w.stack != [] && |w.files| < limit {
      var top := w.stack[|w.stack| - 1];
      var rest := w.stack[..|w.stack| - 1];
      assert w.stack == rest + [top];
      StackCandsPush(o, rest, top);
      match top.node
      case DirNode(name, cs) =>
        assert Size(DirNode(name, cs)) == 1 + SizeAll(cs);
        var r := Entries(o, top.path, cs, Frontier(rest, w.files), limit);
        EntriesAccount(o, top.path, cs, Frontier(rest, w.files), limit);
        WalkAccount(o, r, limit);
      case _ =>
        WalkAccount(o, Frontier(rest, w.files), limit);
    }
  }

  /** What every candidate of a walk looks like. */
  predicate WellFormed(o: ScanOptions, c: ScanCandidate)
  {
    && Visible(o, c.filename)
    && c.absolutePath == Join(c.parentPath, c.filename)
    && c.extension == ToLower(Extname(c.filename))
    && c.mimeType == o.mimeOf(c.extension)
    && c.fileId == o.newFileId(c.absolutePath)
  }

  lemma {:induction false} EntriesCandsShape(o: ScanOptions, dir: string, es: seq<Node>, c: ScanCandidate)
    requires c in EntriesCands(o, dir, es)
    ensures WellFormed(o, c)
    ensures !o.recursive ==> c.parentPath == dir
    decreases SizeAll(es)
  {
    var e := es[0];
    if c in EntriesCands(o, dir, es[1..]) {
      EntriesCandsShape(o, dir, es[1..], c);
    } else {
      assert c in EntryCands(o, dir, e) by { EntriesCandsUnfold(o, dir, es); }
      if e.DirNode? {
        assert o.recursive && c in EntriesCands(o, Join(dir, e.name), e.children);
        assert Size(e) == 1 + SizeAll(e.children);
        EntriesCandsShape(o, Join(dir, e.name), e.children, c);
      } else {
        EntryCandsOfFile(o, dir, e, c);
        CandidateWellFormed(o, dir, e.name, e.stat.value);
      }
    }
  }

  /** An entry that is not a readable directory stands for its own
      candidate at most. */
  lemma EntryCandsOfFile(o: ScanOptions, dir: string, e: Node, c: ScanCandidate)
    requires !e.DirNode? && c in EntryCands(o, dir, e)
    ensures Visible(o, e.name) && e.FileNode? && e.stat.Some? && c == Candidate(o, dir, e.name, e.stat.value)
  {
    if YieldsFile(o, e) {
      FileEntryCands(o, dir, e);
    } else {
      NoEntryCands(o, dir, e);
    }
  }

  lemma FileEntryCands(o: ScanOptions, dir: string, e: Node)
    requires YieldsFile(o, e)
    ensures EntryCands(o, dir, e) == multiset{Candidate(o, dir, e.name, e.stat.value)}
  {
  }

  lemma NoEntryCands(o: ScanOptions, dir: string, e: Node)
    requires !e.DirNode? && !YieldsFile(o, e)
    ensures EntryCands(o, dir, e) == multiset{}
  {
  }

  lemma CandidateWellFormed(o: ScanOptions, dir: string, name: string, st: FileStat)
    requires Visible(o, name)
    ensures WellFormed(o, Candidate(o, dir, name, st)) && Candidate(o, dir, name, st).parentPath == dir
  {
  }

  /** `scanPath` returns at most `limit` candidates, newest first, each a
      visible regular file of the tree (a direct child of the root unless the
      scan is recursive); when fewer than `limit` are returned, every such
      file is among them. */
  lemma ScanPathFindings(o: ScanOptions, root: string, tree: Node, limit: int)
    ensures var r := ScanPathSpec(o, root, tree, limit);
      && |r| <= Max(0, limit)
      && SortedDesc(r, ModifiedKey)
      && multiset(r) <= NodeCands(o, root, tree)
      && (|r| < limit ==> multiset(r) == NodeCands(o, root, tree))
      && (forall c :: c in r ==> WellFormed(o, c) && (!o.recursive ==> c.parentPath == root))
  {
    var w := Frontier([Pending(root, tree)], []);
    var r := ScanPathSpec(o, root, tree, limit);
    WalkAccount(o, w, limit);
    assert w.stack == [] + [Pending(root, tree)];
    StackCandsPush(o, [], Pending(root, tree));
    forall c | c in r
      ensures WellFormed(o, c) && (!o.recursive ==> c.parentPath == root)
    {
      assert c in multiset(r);
      assert c in NodeCands(o, root, tree);
      match tree
      case DirNode(_, cs) => EntriesCandsShape(o, root, cs, c);
    }
  }

  // ---------------------------------------------------------------------
  // The loops.

  /** The entry loop over one listed directory. */
  /** The inner loop from entry `j` on: it stops at entry `j` when that
      entry yields the `limit`-th file, and goes on from `j + 1` otherwise. */
  lemma EntriesStop(o: ScanOptions, dir: string, es: seq<Node>, j: nat, w: Frontier, limit: int)
    requires j < |es| && YieldsFile(o, es[j]) && |EntryStep(o, dir, es[j], w).files| >= limit
    ensures Entries(o, dir, es[j..], w, limit) == EntryStep(o, dir, es[j], w)
  {
    assert es[j..][0] == es[j];
  }

  lemma EntriesContinue(o: ScanOptions, dir: string, es: seq<Node>, j: nat, w: Frontier, limit: int)
    requires j < |es| && !(YieldsFile(o, es[j]) && |EntryStep(o, dir, es[j], w).files| >= limit)
    ensures Entries(o, dir, es[j..], w, limit) == Entries(o, dir, es[j + 1..], EntryStep(o, dir, es[j], w), limit)
  {
    assert es[j..][0] == es[j] && es[j..][1..] == es[j + 1..];
  }

  /** The three things one entry can do to the walk state. */
  lemma StepSkips(o: ScanOptions, dir: string, e: Node, w: Frontier)
    requires !Visible(o, e.name) || (IsDirectory(e) && !o.recursive) || (!IsDirectory(e) && !YieldsFile(o, e))
    ensures EntryStep(o, dir, e, w) == w
  {
  }

  lemma StepPushes(o: ScanOptions, dir: string, e: Node, w: Frontier)
    requires Visible(o, e.name) && IsDirectory(e) && o.recursive
    ensures EntryStep(o, dir, e, w) == w.(stack := w.stack + [Pending(Join(dir, e.name), e)])
  {
  }

  lemma StepYields(o: ScanOptions, dir: string, e: Node, w: Frontier)
    requires YieldsFile(o, e)
    ensures EntryStep(o, dir, e, w) == w.(files := w.files + [Candidate(o, dir, e.name, e.stat.value)])
  {
  }

  /** One entry of the entry loop: skip it, push it, or take its file. */
  method ReadEntry(o: ScanOptions, dir: string, e: Node, stack0: seq<Pending>, files0: seq<ScanCandidate>)
      returns (stack: seq<Pending>, files: seq<ScanCandidate>)
    ensures Frontier(stack, files) == EntryStep(o, dir, e, Frontier(stack0, files0))
  {
    stack, files := stack0, files0;
    ghost var w := Frontier(stack, files);
    if !Visible(o, e.name) {
      StepSkips(o, dir, e, w);
    } else if IsDirectory(e) {
      if o.recursive {
        StepPushes(o, dir, e, w);
        stack := stack + [Pending(Join(dir, e.name), e)];
      } else {
        StepSkips(o, dir, e, w);
      }
    } else if e.FileNode? && e.stat.Some? {
      StepYields(o, dir, e, w);
      files := files + [Candidate(o, dir, e.name, e.stat.value)];
    } else {
      StepSkips(o, dir, e, w);
    }
  }

  method ReadEntries(o: ScanOptions, dir: string, es: seq<Node>, stack0: seq<Pending>, files0: seq<ScanCandidate>, limit: int)
      returns (stack: seq<Pending>, files: seq<ScanCandidate>)
    ensures Frontier(stack, files) == Entries(o, dir, es, Frontier(stack0, files0), limit)
  {
    stack, files := stack0, files0;
    var j := 0;
    while j < |es|
      invariant 0 <= j <= |es|
      invariant Entries(o, dir, es[j..], Frontier(stack, files), limit) == Entries(o, dir, es, Frontier(stack0, files0), limit)
    {
      ghost var w := Frontier(stack, files);
      stack, files := ReadEntry(o, dir, es[j], stack, files);
      if YieldsFile(o, es[j]) && |files| >= limit {
        EntriesStop(o, dir, es, j, w, limit);
        return;
      }
      EntriesContinue(o, dir, es, j, w, limit);
      j := j + 1;
    }
  }

  /** `scanPath`: the stack walk from the resolved root, then the sort. */
  method ScanPath(o: ScanOptions, root: string, tree: Node, limit: int) returns (r: seq<ScanCandidate>)
    ensures r == ScanPathSpec(o, root, tree, limit)
  {
    var stack := [Pending(root, tree)];
    var files: seq<ScanCandidate> := [];
    while stack != [] && |files| < limit
      invariant Walk(o, Frontier(stack, files), limit) == Walk(o, Frontier([Pending(root, tree)], []), limit)
      decreases StackSize(stack)
    {
      var top := stack[|stack| - 1];
      stack := stack[..|stack| - 1];
      match top.node {
        case DirNode(name, cs) =>
          assert Size(DirNode(name, cs)) == 1 + SizeAll(cs);
          stack, files := ReadEntries(o, top.path, cs, stack, files, limit);
        case _ =>
      }
    }
    r := SortDesc(files, ModifiedKey);
  }

  // ---------------------------------------------------------------------
  // The job scope: which watched paths, and the scan across them.

  /** The daemon's side of a scan: the path policy's environment, whether
      hidden files are included, the directory tree found at each resolved
      root, and the id and MIME services. */
  datatype ScanConfig = ScanConfig(
    env: PathEnv,
    includeHidden: bool,
    trees: string -> Node,
    newFileId: string -> string,
    mimeOf: string -> Option<string>)

  datatype ScopeResult = ScopeResult(candidates: seq<ScanCandidate>, skippedForSafety: nat, matchedWatchedPaths: nat)

  const DefaultMaxFiles: int := 500

  function MaxFiles(scope: JobScope): int
  {
    scope.maxFiles.GetOr(DefaultMaxFiles)
  }

  /** A job's kind and id lists restrict the scan only when non-empty. */
  predicate KindSelected(scope: JobScope, w: WatchedPathRecord)
  {
    scope.pathKinds.None? || |scope.pathKinds.value| == 0 || w.pathType in scope.pathKinds.value
  }

  predicate IdSelected(scope: JobScope, w: WatchedPathRecord)
  {
    scope.pathIds.None? || |scope.pathIds.value| == 0 || w.id in scope.pathIds.value
  }

  predicate InScope(scope: JobScope, w: WatchedPathRecord)
  {
    w.isEnabled && KindSelected(scope, w) && IdSelected(scope, w)
  }

  /** `filterWatched`: enabled paths, then by kind, then by id. */
  function FilterWatched(ws: seq<WatchedPathRecord>, scope: JobScope): seq<WatchedPathRecord>
  {
    var watched := Filter(ws, (w: WatchedPathRecord) => w.isEnabled);
    var byKinds := if scope.pathKinds.Some? && |scope.pathKinds.value| > 0
      then Filter(watched, (w: WatchedPathRecord) => w.pathType in scope.pathKinds.value) else watched;
    if scope.pathIds.Some? && |scope.pathIds.value| > 0
    then Filter(byKinds, (w: WatchedPathRecord) => w.id in scope.pathIds.value) else byKinds
  }

  /** The three filters select, in list order, exactly the enabled paths the
      job's kinds and ids admit. */
  lemma FilterWatchedSelects(ws: seq<WatchedPathRecord>, scope: JobScope)
    ensures FilterWatched(ws, scope) == Filter(ws, (w: WatchedPathRecord) => InScope(scope, w))
  {
    var enabled := (w: WatchedPathRecord) => w.isEnabled;
    var kinds := (w: WatchedPathRecord) => w.isEnabled && KindSelected(scope, w);
    var all := (w: WatchedPathRecord) => InScope(scope, w);
    if scope.pathKinds.Some? && |scope.pathKinds.value| > 0 {
      FilterFilter(ws, enabled, (w: WatchedPathRecord) => w.pathType in scope.pathKinds.value, kinds);
    } else {
      FilterFilter(ws, enabled, (w: WatchedPathRecord) => true, kinds);
      FilterKeepsAll(Filter(ws, enabled), (w: WatchedPathRecord) => true);
    }
    if scope.pathIds.Some? && |scope.pathIds.value| > 0 {
      FilterFilter(ws, kinds, (w: WatchedPathRecord) => w.id in scope.pathIds.value, all);
    } else {
      FilterFilter(ws, kinds, (w: WatchedPathRecord) => true, all);
      FilterKeepsAll(Filter(ws, kinds), (w: WatchedPathRecord) => true);
    }
  }

  function OptionsFor(cfg: ScanConfig, w: WatchedPathRecord): ScanOptions
  {
    ScanOptions(cfg.includeHidden, w.includeSubfolders, cfg.newFileId, cfg.mimeOf)
  }

  /** The scan's running state: candidates kept, items refused by the
      policy, and the file-record table. */
  datatype ScopeState = ScopeState(candidates: seq<ScanCandidate>, skipped: nat, recs: seq<FileRecord>)

  predicate Admitted(env: PathEnv, policyPaths: seq<WatchedPathRecord>, c: ScanCandidate)
  {
    ScanDecision(env, policyPaths, c.absolutePath).Allowed?
  }

  /** One scanned item: refused by the policy, or recorded and kept with its
      stable id. */
  function ItemStep(env: PathEnv, policyPaths: seq<WatchedPathRecord>, s: ScopeState, item: ScanCandidate): ScopeState
  {
    if !Admitted(env, policyPaths, item) then s.(skipped := s.skipped + 1)
    else s.(candidates := s.candidates + [item.(fileId := StableFileId(s.recs, item))],
            recs := UpsertRecords(s.recs, item))
  }

  /** The item loop for one watched path, stopping at `maxFiles` candidates. */
  function ItemsFold(env: PathEnv, policyPaths: seq<WatchedPathRecord>, items: seq<ScanCandidate>, s: ScopeState, maxFiles: int): ScopeState
    decreases items
  {
    if items == [] then s
    else
      var next := ItemStep(env, policyPaths, s, items[0]);
      if Admitted(env, policyPaths, items[0]) && |next.candidates| >= maxFiles then next
      else ItemsFold(env, policyPaths, items[1..], next, maxFiles)
  }

  /** The loop over the selected watched paths; each is scanned with the
      room that is left. */
  function PathsFold(cfg: ScanConfig, policyPaths: seq<WatchedPathRecord>, ws: seq<WatchedPathRecord>, s: ScopeState, maxFiles: int): ScopeState
    decreases ws
  {
    if ws == [] || |s.candidates| >= maxFiles then s
    else
      var root := cfg.env.realPath(ws[0].path);
      var scanned := ScanPathSpec(OptionsFor(cfg, ws[0]), root, cfg.trees(root), maxFiles - |s.candidates|);
      PathsFold(cfg, policyPaths, ws[1..], ItemsFold(cfg.env, policyPaths, scanned, s, maxFiles), maxFiles)
  }

  function ScopeOutcome(cfg: ScanConfig, watched: seq<WatchedPathRecord>, recs: seq<FileRecord>, scope: JobScope): ScopeState
  {
    PathsFold(cfg, watched, FilterWatched(watched, scope), ScopeState([], 0, recs), MaxFiles(scope))
  }

  // ----- what the scope scan promises

  lemma {:induction false} ItemsFoldBound(env: PathEnv, pp: seq<WatchedPathRecord>, items: seq<ScanCandidate>, s: ScopeState, maxFiles: int)
    requires |s.candidates| < maxFiles
    ensures |ItemsFold(env, pp, items, s, maxFiles).candidates| <= maxFiles
    decreases items
  {
    if items != [] {
      var next := ItemStep(env, pp, s, items[0]);
      if !(Admitted(env, pp, items[0]) && |next.candidates| >= maxFiles) {
        ItemsFoldBound(env, pp, items[1..], next, maxFiles);
      }
    }
  }

  lemma {:induction false} PathsFoldBound(cfg: ScanConfig, pp: seq<WatchedPathRecord>, ws: seq<WatchedPathRecord>, s: ScopeState, maxFiles: int)
    ensures |PathsFold(cfg, pp, ws, s, maxFiles).candidates| <= Max(|s.candidates|, maxFiles)
    decreases ws
  {
    if ws != [] && |s.candidates| < maxFiles {
      var root := cfg.env.realPath(ws[0].path);
      var scanned := ScanPathSpec(OptionsFor(cfg, ws[0]), root, cfg.trees(root), maxFiles - |s.candidates|);
      ItemsFoldBound(cfg.env, pp, scanned, s, maxFiles);
      PathsFoldBound(cfg, pp, ws[1..], ItemsFold(cfg.env, pp, scanned, s, maxFiles), maxFiles);
    }
  }

  /** Every candidate kept passes the scan policy, and its file id is the id
      of the record stored at its path. */
  predicate Recorded(recs: seq<FileRecord>, c: ScanCandidate)
  {
    var k := FindByPath(recs, c.absolutePath);
    k >= 0 && recs[k].id == c.fileId
  }

  predicate Kept(env: PathEnv, pp: seq<WatchedPathRecord>, s: ScopeState)
  {
    forall i :: 0 <= i < |s.candidates| ==> Admitted(env, pp, s.candidates[i]) && Recorded(s.recs, s.candidates[i])
  }

  lemma ItemStepKept(env: PathEnv, pp: seq<WatchedPathRecord>, s: ScopeState, item: ScanCandidate)
    requires Kept(env, pp, s)
    ensures Kept(env, pp, ItemStep(env, pp, s, item))
  {
    if Admitted(env, pp, item) {
      var next := ItemStep(env, pp, s, item);
      forall i | 0 <= i < |next.candidates|
        ensures Admitted(env, pp, next.candidates[i]) && Recorded(next.recs, next.candidates[i])
      {
        UpsertRecordsIds(s.recs, item, next.candidates[i].absolutePath);
      }
    }
  }

  lemma {:induction false} ItemsFoldKept(env: PathEnv, pp: seq<WatchedPathRecord>, items: seq<ScanCandidate>, s: ScopeState, maxFiles: int)
    requires Kept(env, pp, s)
    ensures Kept(env, pp, ItemsFold(env, pp, items, s, maxFiles))
    decreases items
  {
    if items != [] {
      ItemStepKept(env, pp, s, items[0]);
      var next := ItemStep(env, pp, s, items[0]);
      if !(Admitted(env, pp, items[0]) && |next.candidates| >= maxFiles) {
        ItemsFoldKept(env, pp, items[1..], next, maxFiles);
      }
    }
  }

  lemma {:induction false} PathsFoldKept(cfg: ScanConfig, pp: seq<WatchedPathRecord>, ws: seq<WatchedPathRecord>, s: ScopeState, maxFiles: int)
    requires Kept(cfg.env, pp, s)
    ensures Kept(cfg.env, pp, PathsFold(cfg, pp, ws, s, maxFiles))
    decreases ws
  {
    if ws != [] && |s.candidates| < maxFiles {
      var root := cfg.env.realPath(ws[0].path);
      var scanned := ScanPathSpec(OptionsFor(cfg, ws[0]), root, cfg.trees(root), maxFiles - |s.candidates|);
      ItemsFoldKept(cfg.env, pp, scanned, s, maxFiles);
      PathsFoldKept(cfg, pp, ws[1..], ItemsFold(cfg.env, pp, scanned, s, maxFiles), maxFiles);
    }
  }

  /** Items the policy refuses. */
  function Refused(env: PathEnv, pp: seq<WatchedPathRecord>, items: seq<ScanCandidate>): nat
  {
    if items == [] then 0 else (if Admitted(env, pp, items[0]) then 0 else 1) + Refused(env, pp, items[1..])
  }

  /** How many items the loop looks at before it finishes or reaches the cap. */
  function Taken(env: PathEnv, pp: seq<WatchedPathRecord>, items: seq<ScanCandidate>, s: ScopeState, maxFiles: int): (n: nat)
    ensures n <= |items|
    decreases items
  {
    if items == [] then 0
    else
      var next := ItemStep(env, pp, s, items[0]);
      if Admitted(env, pp, items[0]) && |next.candidates| >= maxFiles then 1
      else 1 + Taken(env, pp, items[1..], next, maxFiles)
  }

  /** The loop stops early only at the cap; of the items it looks at, each
      refused one adds one to `skipped` and each admitted one adds one
      candidate. */
  lemma {:induction false} ItemsFoldCounts(env: PathEnv, pp: seq<WatchedPathRecord>, items: seq<ScanCandidate>, s: ScopeState, maxFiles: int)
    ensures var r := ItemsFold(env, pp, items, s, maxFiles); var n := Taken(env, pp, items, s, maxFiles);
      && r.skipped == s.skipped + Refused(env, pp, items[..n])
      && |r.candidates| + Refused(env, pp, items[..n]) == |s.candidates| + n
      && (n < |items| ==> |r.candidates| >= maxFiles)
    decreases items
  {
    if items == [] {
      assert items[..0] == [];
    } else {
      var next := ItemStep(env, pp, s, items[0]);
      var n := Taken(env, pp, items, s, maxFiles);
      if Admitted(env, pp, items[0]) && |next.candidates| >= maxFiles {
        assert items[..1][1..] == [];
      } else {
        ItemsFoldCounts(env, pp, items[1..], next, maxFiles);
        assert items[..n][1..] == items[1..][..n - 1];
      }
    }
  }

  /** `scanJobScope` keeps at most `maxFiles` candidates (the default is
      500), each admitted by the scan policy and carrying the id of its
      stored file record. */
  lemma ScopeFindings(cfg: ScanConfig, watched: seq<WatchedPathRecord>, recs: seq<FileRecord>, scope: JobScope)
    ensures var r := ScopeOutcome(cfg, watched, recs, scope);
      && |r.candidates| <= Max(0, MaxFiles(scope))
      && Kept(cfg.env, watched, r)
  {
    var s := ScopeState([], 0, recs);
    PathsFoldBound(cfg, watched, FilterWatched(watched, scope), s, MaxFiles(scope));
    PathsFoldKept(cfg, watched, FilterWatched(watched, scope), s, MaxFiles(scope));
  }

  // ----- the loops

  /** The item loop of one watched path: refused items are counted, admitted
      ones upserted into the store and kept with the stable id. */
  method ScanItems(store: LocalStore, env: PathEnv, items: seq<ScanCandidate>, cands0: seq<ScanCandidate>, skipped0: nat, maxFiles: int)
      returns (cands: seq<ScanCandidate>, skipped: nat)
    modifies store
    ensures ScopeState(cands, skipped, store.fileRecords)
      == ItemsFold(env, old(store.watched), items, ScopeState(cands0, skipped0, old(store.fileRecords)), maxFiles)
    ensures store.settings == old(store.settings) && store.watched == old(store.watched)
    ensures store.runs == old(store.runs) && store.runOrder == old(store.runOrder)
    ensures store.proposalRows == old(store.proposalRows) && store.executions == old(store.executions)
  {
    cands, skipped := cands0, skipped0;
    var j := 0;
    while j < |items|
      invariant 0 <= j <= |items|
      invariant store.settings == old(store.settings) && store.watched == old(store.watched)
      invariant store.runs == old(store.runs) && store.runOrder == old(store.runOrder)
      invariant store.proposalRows == old(store.proposalRows) && store.executions == old(store.executions)
      invariant ItemsFold(env, store.watched, items[j..], ScopeState(cands, skipped, store.fileRecords), maxFiles)
        == ItemsFold(env, old(store.watched), items, ScopeState(cands0, skipped0, old(store.fileRecords)), maxFiles)
    {
      var item := items[j];
      assert items[j..][1..] == items[j + 1..];
      var decision := ScanDecision(env, store.watched, item.absolutePath);
      if decision.Denied? {
        skipped := skipped + 1;
      } else {
        var id := store.UpsertFileRecord(item);
        cands := cands + [item.(fileId := id)];
        if |cands| >= maxFiles {
          return;
        }
      }
      j := j + 1;
    }
  }

  /** `scanJobScope`. The watched paths it lists and the ones the policy
      consults are both the store's. */
  method ScanJobScope(store: LocalStore, cfg: ScanConfig, job: CleanupJob) returns (res: ScopeResult)
    modifies store
    ensures var r := ScopeOutcome(cfg, old(store.watched), old(store.fileRecords), job.scope);
      && res == ScopeResult(r.candidates, r.skipped, |FilterWatched(old(store.watched), job.scope)|)
      && store.fileRecords == r.recs
    ensures store.settings == old(store.settings) && store.watched == old(store.watched)
    ensures store.runs == old(store.runs) && store.runOrder == old(store.runOrder)
    ensures store.proposalRows == old(store.proposalRows) && store.executions == old(store.executions)
  {
    var watched := FilterWatched(store.watched, job.scope);
    var maxFiles := MaxFiles(job.scope);
    var candidates: seq<ScanCandidate> := [];
    var skipped: nat := 0;
    var i := 0;
    while i < |watched|
      invariant 0 <= i <= |watched|
      invariant store.settings == old(store.settings) && store.watched == old(store.watched)
      invariant store.runs == old(store.runs) && store.runOrder == old(store.runOrder)
      invariant store.proposalRows == old(store.proposalRows) && store.executions == old(store.executions)
      invariant PathsFold(cfg, store.watched, watched[i..], ScopeState(candidates, skipped, store.fileRecords), maxFiles)
        == ScopeOutcome(cfg, old(store.watched), old(store.fileRecords), job.scope)
    {
      if |candidates| >= maxFiles {
        break;
      }
      var root := cfg.env.realPath(watched[i].path);
      var scanned := ScanPath(OptionsFor(cfg, watched[i]), root, cfg.trees(root), maxFiles - |candidates|);
      assert watched[i..][1..] == watched[i + 1..];
      candidates, skipped := ScanItems(store, cfg.env, scanned, candidates, skipped, maxFiles);
      i := i + 1;
    }
    res := ScopeResult(candidates, skipped, |watched|);
  }
}
