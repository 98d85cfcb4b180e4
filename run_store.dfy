// The daemon's SQLite store (local-store.ts). Each table is a field of the
// `LocalStore` object: the settings row, watched paths (newest first), run
// summaries keyed by run id with their insertion order, proposal rows,
// file records and execution records. Every table update is also given as a
// function on the table's value, so that the services built on the store
// can be specified by composing them.
module RunStore {
  import opened Wrappers
  import opened Strings
  import opened Seqs
  import opened Ints
  import opened Contracts

  // ---------------------------------------------------------------------
  // Settings.

  const DefaultRenamePattern: string := "{date}_{label}_v{version}"

  /** The process environment `initializeDefaults` reads. */
  datatype HomeEnv = HomeEnv(userProfile: Option<string>, home: Option<string>, cwd: string)

  /** `USERPROFILE ?? HOME ?? cwd()`. */
  function UserHome(h: HomeEnv): string
  {
    h.userProfile.GetOr(h.home.GetOr(h.cwd))
  }

  /** The settings row `initializeDefaults` inserts. */
  function DefaultSettings(organizedRootPath: Option<string>, h: HomeEnv,
                           recentFileSafetyHours: int, includeHiddenDefault: bool): (s: LocalSettings)
    ensures s.archiveRootPath == s.organizedRootPath + "\\Archives"
    ensures s.duplicateReviewPath == s.organizedRootPath + "\\Duplicate Review"
    ensures organizedRootPath.Some? ==> s.organizedRootPath == organizedRootPath.value
    ensures organizedRootPath.None? ==> s.organizedRootPath == UserHome(h) + "\\Organized"
    ensures s.dryRunDefault && s.renamePattern == DefaultRenamePattern
    ensures s.recentFileSafetyHours == recentFileSafetyHours && s.includeHiddenDefault == includeHiddenDefault
  {
    var organized := organizedRootPath.GetOr(UserHome(h) + "\\Organized");
    LocalSettings(true, DefaultRenamePattern, organized, organized + "\\Archives",
                  organized + "\\Duplicate Review", recentFileSafetyHours, includeHiddenDefault)
  }

  /** `Partial<LocalSettings>`: a present field overrides. */
  datatype SettingsPatch = SettingsPatch(
    dryRunDefault: Option<bool>,
    renamePattern: Option<string>,
    organizedRootPath: Option<string>,
    archiveRootPath: Option<string>,
    duplicateReviewPath: Option<string>,
    recentFileSafetyHours: Option<int>,
    includeHiddenDefault: Option<bool>)

  /** `{...existing, ...patch}`. */
  function MergeSettings(s: LocalSettings, p: SettingsPatch): LocalSettings
  {
    LocalSettings(
      p.dryRunDefault.GetOr(s.dryRunDefault),
      p.renamePattern.GetOr(s.renamePattern),
      p.organizedRootPath.GetOr(s.organizedRootPath),
      p.archiveRootPath.GetOr(s.archiveRootPath),
      p.duplicateReviewPath.GetOr(s.duplicateReviewPath),
      p.recentFileSafetyHours.GetOr(s.recentFileSafetyHours),
      p.includeHiddenDefault.GetOr(s.includeHiddenDefault))
  }

  /** Merging is idempotent, and the empty patch changes nothing. */
  lemma MergeSettingsIdempotent(s: LocalSettings, p: SettingsPatch)
    ensures MergeSettings(MergeSettings(s, p), p) == MergeSettings(s, p)
    ensures MergeSettings(s, SettingsPatch(None, None, None, None, None, None, None)) == s
  {
  }

  // ---------------------------------------------------------------------
  // Watched paths.

  /** The first watched path with `id`. */
  function FindWatched(ws: seq<WatchedPathRecord>, id: string): (r: Option<WatchedPathRecord>)
    ensures r.Some? ==> r.value in ws && r.value.id == id
    ensures r.None? <==> forall i :: 0 <= i < |ws| ==> ws[i].id != id
  {
    if ws == [] then None else if ws[0].id == id then Some(ws[0]) else FindWatched(ws[1..], id)
  }

  /** The patchable fields of a watched path. */
  datatype WatchedPatch = WatchedPatch(
    path: Option<string>,
    pathType: Option<PathKind>,
    isEnabled: Option<bool>,
    isProtected: Option<bool>,
    includeSubfolders: Option<bool>)

  function MergeWatched(w: WatchedPathRecord, p: WatchedPatch, now: string): WatchedPathRecord
  {
    w.(path := p.path.GetOr(w.path), pathType := p.pathType.GetOr(w.pathType),
       isEnabled := p.isEnabled.GetOr(w.isEnabled), isProtected := p.isProtected.GetOr(w.isProtected),
       includeSubfolders := p.includeSubfolders.GetOr(w.includeSubfolders), updatedAt := now)
  }

  function ReplaceWatched(ws: seq<WatchedPathRecord>, id: string, next: WatchedPathRecord): (r: seq<WatchedPathRecord>)
    ensures |r| == |ws|
    ensures forall i :: 0 <= i < |ws| ==> r[i] == if ws[i].id == id then next else ws[i]
  {
    seq(|ws|, i requires 0 <= i < |ws| => if ws[i].id == id then next else ws[i])
  }

  function RemoveWatched(ws: seq<WatchedPathRecord>, id: string): seq<WatchedPathRecord>
  {
    Filter(ws, (w: WatchedPathRecord) => w.id != id)
  }

  // ---------------------------------------------------------------------
  // Runs.

  /** `createRun`: status running, every counter zero. */
  function NewRunSummary(runId: string, job: CleanupJob, now: string): (s: RunSummary)
    ensures s.runId == runId && s.deviceId == job.deviceId && s.jobId == job.jobId
    ensures s.status == Running && s.dryRun == job.mode.dryRun && s.startedAt == now
    ensures s.filesScanned == 0 && s.proposalsCreated == 0 && s.actionsExecuted == 0
    ensures s.duplicatesFound == 0 && s.bytesRecoveredEstimate == 0 && s.skippedForSafety == 0
    ensures s.finishedAt.None? && s.errorMessage.None?
  {
    RunSummary(runId, job.deviceId, job.jobId, Running, job.mode.dryRun, now, None, 0, 0, 0, 0, 0, 0, None)
  }

  /** `Math.max(1, Math.min(200, limit ?? 50))` and `Math.max(0, offset ?? 0)`. */
  function PageBounds(limit: Option<int>, offset: Option<int>): (r: (nat, nat))
    ensures 1 <= r.0 <= 200 && (limit.None? ==> r.0 == 50)
    ensures limit.Some? && 1 <= limit.value <= 200 ==> r.0 == limit.value
    ensures offset.Some? && offset.value >= 0 ==> r.1 == offset.value
    ensures offset.None? ==> r.1 == 0
  {
    (Max(1, Min(200, limit.GetOr(50))), Max(0, offset.GetOr(0)))
  }

  function Drop<T>(s: seq<T>, n: nat): (r: seq<T>)
    ensures |r| == if n <= |s| then |s| - n else 0
    ensures forall i :: 0 <= i < |r| ==> r[i] == s[n + i]
  {
    if n <= |s| then s[n..] else []
  }

  function TakeN<T>(s: seq<T>, n: nat): (r: seq<T>)
    ensures |r| == if n <= |s| then n else |s|
    ensures forall i :: 0 <= i < |r| ==> r[i] == s[i]
  {
    if n <= |s| then s[..n] else s
  }

  /** `LIMIT limit OFFSET offset` over an ordered listing. */
  function Window<T>(s: seq<T>, offset: nat, limit: nat): (r: seq<T>)
    ensures |r| <= limit
    ensures forall i :: 0 <= i < |r| ==> offset + i < |s| && r[i] == s[offset + i]
  {
    TakeN(Drop(s, offset), limit)
  }

  function StartedAt(s: RunSummary): string { s.startedAt }

  // ---------------------------------------------------------------------
  // Proposal rows.

  /** A row of `action_proposals`; the rollback plan is not stored. */
  datatype ProposalRow = ProposalRow(
    id: string,
    fileId: string,
    actionType: ActionType,
    reason: string,
    before: string,
    after: string,
    riskLevel: RiskLevel,
    confidence: Option<int>,
    approvalRequired: bool,
    status: ProposalStatus,
    batchId: string)

  function RowOf(runId: string, p: Proposal): (r: ProposalRow)
    ensures r.batchId == runId && r.id == p.proposalId
  {
    ProposalRow(p.proposalId, p.fileId, p.actionType, p.reason, p.before, p.after, p.riskLevel,
                p.confidence, p.approvalRequired, p.status.GetOr(Proposed), runId)
  }

  /** A row read back: the rollback plan is always a move back to `before`. */
  function ProposalOfRow(r: ProposalRow): Proposal
  {
    Proposal(r.id, r.fileId, r.actionType, r.reason, r.before, r.after, r.riskLevel,
             r.approvalRequired, r.confidence, MoveBackTo(r.before), Some(r.status))
  }

  /** A proposal as the store gives it back after storing it. */
  function Stored(p: Proposal): Proposal
  {
    p.(rollbackPlan := MoveBackTo(p.before), status := Some(p.status.GetOr(Proposed)))
  }

  function RowsOfRun(rows: seq<ProposalRow>, runId: string): seq<ProposalRow>
  {
    Filter(rows, (r: ProposalRow) => r.batchId == runId)
  }

  function ProposalsOfRows(rows: seq<ProposalRow>): (ps: seq<Proposal>)
    ensures |ps| == |rows| && forall i :: 0 <= i < |rows| ==> ps[i] == ProposalOfRow(rows[i])
  {
    seq(|rows|, i requires 0 <= i < |rows| => ProposalOfRow(rows[i]))
  }

  function RowsOf(runId: string, ps: seq<Proposal>): (rs: seq<ProposalRow>)
    ensures |rs| == |ps| && forall i :: 0 <= i < |ps| ==> rs[i] == RowOf(runId, ps[i])
  {
    seq(|ps|, i requires 0 <= i < |ps| => RowOf(runId, ps[i]))
  }

  /** `replaceRunProposals`: the run's rows deleted, the new ones appended. */
  function ReplaceRows(rows: seq<ProposalRow>, runId: string, ps: seq<Proposal>): seq<ProposalRow>
  {
    Filter(rows, (r: ProposalRow) => r.batchId != runId) + RowsOf(runId, ps)
  }

  /** The first row with `id`, in any run. */
  function FindRow(rows: seq<ProposalRow>, id: string): (r: Option<ProposalRow>)
    ensures r.Some? ==> r.value in rows && r.value.id == id
    ensures r.None? <==> forall i :: 0 <= i < |rows| ==> rows[i].id != id
  {
    if rows == [] then None else if rows[0].id == id then Some(rows[0]) else FindRow(rows[1..], id)
  }

  /** `UPDATE ... WHERE id = ?`: every row with the id gets the new status. */
  function SetRowStatus(rows: seq<ProposalRow>, id: string, status: ProposalStatus): (r: seq<ProposalRow>)
    ensures |r| == |rows|
    ensures forall i :: 0 <= i < |rows| ==> r[i] == if rows[i].id == id then rows[i].(status := status) else rows[i]
  {
    seq(|rows|, i requires 0 <= i < |rows| => if rows[i].id == id then rows[i].(status := status) else rows[i])
  }

  /** One decision of `applyApprovals`: skipped when no row has the id; else
      the run's row with that id gets the decision and the edited `after`, or
      keeps the `after` it had. */
  function ApplyDecision(rows: seq<ProposalRow>, runId: string, d: ApprovalDecision): (r: seq<ProposalRow>)
    ensures |r| == |rows|
    ensures forall i :: 0 <= i < |rows| ==> r[i].id == rows[i].id && r[i].batchId == rows[i].batchId
    ensures forall i :: 0 <= i < |rows| && (rows[i].id != d.proposalId || rows[i].batchId != runId) ==> r[i] == rows[i]
    ensures forall i :: 0 <= i < |rows| && rows[i].id == d.proposalId && rows[i].batchId == runId ==>
      && r[i].status == (if d.decision == Approve then Approved else Rejected)
      && (d.editedAfter.Some? ==> r[i].after == d.editedAfter.value)
  {
    match FindRow(rows, d.proposalId)
    case None => rows
    case Some(current) =>
      var status := if d.decision == Approve then Approved else Rejected;
      var after := d.editedAfter.GetOr(current.after);
      seq(|rows|, i requires 0 <= i < |rows| =>
        if rows[i].id == d.proposalId && rows[i].batchId == runId
        then rows[i].(status := status, after := after) else rows[i])
  }

  /** The decisions applied in order. */
  function ApplyDecisions(rows: seq<ProposalRow>, runId: string, ds: seq<ApprovalDecision>): (r: seq<ProposalRow>)
    ensures |r| == |rows|
    ensures forall i :: 0 <= i < |rows| ==> r[i].id == rows[i].id && r[i].batchId == rows[i].batchId
    ensures forall i :: 0 <= i < |rows| && rows[i].batchId != runId ==> r[i] == rows[i]
  {
    if ds == [] then rows else ApplyDecision(ApplyDecisions(rows, runId, ds[..|ds| - 1]), runId, ds[|ds| - 1])
  }

  /** Two tables that agree position by position on every row of `other`,
      and on which rows belong to it, list the same rows for it. */
  lemma {:induction false} RowsOfRunAgree(a: seq<ProposalRow>, b: seq<ProposalRow>, other: string)
    requires |a| == |b|
    requires forall i :: 0 <= i < |a| ==> a[i].batchId == b[i].batchId
    requires forall i :: 0 <= i < |a| && a[i].batchId == other ==> a[i] == b[i]
    ensures RowsOfRun(a, other) == RowsOfRun(b, other)
  {
    if a != [] {
      RowsOfRunAgree(a[1..], b[1..], other);
    }
  }

  /** Approvals for one run leave every other run's proposals as they were. */
  lemma ApplyDecisionsOtherRuns(rows: seq<ProposalRow>, runId: string, ds: seq<ApprovalDecision>, other: string)
    requires other != runId
    ensures RowsOfRun(ApplyDecisions(rows, runId, ds), other) == RowsOfRun(rows, other)
  {
    RowsOfRunAgree(ApplyDecisions(rows, runId, ds), rows, other);
  }

  /** Reading a run's rows back after replacing them gives the new rows. */
  lemma ReplacedRowsReadBack(rows: seq<ProposalRow>, runId: string, ps: seq<Proposal>)
    ensures RowsOfRun(ReplaceRows(rows, runId, ps), runId) == RowsOf(runId, ps)
  {
    var notRun := (r: ProposalRow) => r.batchId != runId;
    var inRun := (r: ProposalRow) => r.batchId == runId;
    var kept := Filter(rows, notRun);
    var added := RowsOf(runId, ps);
    FilterAppend(kept, added, inRun);
    FilterEmptyIff(kept, inRun);
    FilterKeepsAll(added, inRun);
    assert RowsOfRun(ReplaceRows(rows, runId, ps), runId) == Filter(kept + added, inRun);
  }

  /** Replacing one run's rows leaves another run's rows as they were. */
  lemma ReplacedRowsOtherRuns(rows: seq<ProposalRow>, runId: string, ps: seq<Proposal>, other: string)
    requires other != runId
    ensures RowsOfRun(ReplaceRows(rows, runId, ps), other) == RowsOfRun(rows, other)
  {
    var notRun := (r: ProposalRow) => r.batchId != runId;
    var inOther := (r: ProposalRow) => r.batchId == other;
    var kept := Filter(rows, notRun);
    var added := RowsOf(runId, ps);
    FilterAppend(kept, added, inOther);
    FilterFilter(rows, notRun, inOther, inOther);
    FilterEmptyIff(added, inOther);
    assert RowsOfRun(ReplaceRows(rows, runId, ps), other) == Filter(kept + added, inOther);
  }

  /** Replacing a run's proposals and reading them back gives the new
      proposals as stored, in order, and leaves every other run's rows. */
  lemma ReplaceRowsRoundTrip(rows: seq<ProposalRow>, runId: string, ps: seq<Proposal>, other: string)
    requires other != runId
    ensures var ls := ProposalsOfRows(RowsOfRun(ReplaceRows(rows, runId, ps), runId));
      |ls| == |ps| && forall i :: 0 <= i < |ps| ==> ls[i] == Stored(ps[i])
    ensures RowsOfRun(ReplaceRows(rows, runId, ps), other) == RowsOfRun(rows, other)
  {
    ReplacedRowsReadBack(rows, runId, ps);
    ReplacedRowsOtherRuns(rows, runId, ps, other);
  }

  predicate UniqueRowIds(rows: seq<ProposalRow>)
  {
    forall i, j :: 0 <= i < j < |rows| ==> rows[i].id != rows[j].id
  }

  // ---------------------------------------------------------------------
  // File records.

  datatype FileRecord = FileRecord(
    id: string,
    absolutePath: string,
    parentPath: string,
    originalFilename: string,
    currentFilename: string,
    extension: string,
    sizeBytes: int,
    classification: Option<string>,
    confidence: Option<int>)

  /** Index of the record with `absolutePath`, or -1. */
  function FindByPath(recs: seq<FileRecord>, absolutePath: string): (k: int)
    ensures -1 <= k < |recs|
    ensures k >= 0 ==> recs[k].absolutePath == absolutePath
    ensures k == -1 <==> forall i :: 0 <= i < |recs| ==> recs[i].absolutePath != absolutePath
  {
    if recs == [] then -1
    else if recs[0].absolutePath == absolutePath then 0
    else var k := FindByPath(recs[1..], absolutePath); if k == -1 then -1 else k + 1
  }

  /** The id `upsertFileRecord` returns: the existing record's, else the candidate's. */
  function StableFileId(recs: seq<FileRecord>, c: ScanCandidate): string
  {
    var k := FindByPath(recs, c.absolutePath);
    if k >= 0 then recs[k].id else c.fileId
  }

  /** `INSERT ... ON CONFLICT(absolute_path) DO UPDATE`: the id and original
      name of an existing record are kept. */
  function UpsertRecords(recs: seq<FileRecord>, c: ScanCandidate): seq<FileRecord>
  {
    var k := FindByPath(recs, c.absolutePath);
    if k >= 0 then
      recs[k := recs[k].(parentPath := c.parentPath, currentFilename := c.filename, extension := c.extension,
                         sizeBytes := c.sizeBytes, classification := c.classification, confidence := c.confidence)]
    else
      recs + [FileRecord(c.fileId, c.absolutePath, c.parentPath, c.filename, c.filename, c.extension,
                         c.sizeBytes, c.classification, c.confidence)]
  }

  lemma {:induction false} FindByPathAppend(recs: seq<FileRecord>, x: FileRecord, p: string)
    ensures FindByPath(recs + [x], p) ==
      if FindByPath(recs, p) >= 0 then FindByPath(recs, p) else if x.absolutePath == p then |recs| else -1
  {
    if recs != [] {
      assert (recs + [x])[1..] == recs[1..] + [x];
      FindByPathAppend(recs[1..], x, p);
    }
  }

  lemma {:induction false} FindByPathKeyed(recs: seq<FileRecord>, k: nat, x: FileRecord, p: string)
    requires k < |recs| && x.absolutePath == recs[k].absolutePath
    ensures FindByPath(recs[k := x], p) == FindByPath(recs, p)
  {
    if k > 0 {
      assert recs[k := x][1..] == recs[1..][k - 1 := x];
      FindByPathKeyed(recs[1..], k - 1, x, p);
    }
  }

  /** The record now at a candidate's path carries the id `upsertFileRecord`
      returned, and every other path keeps its record's id. */
  lemma UpsertRecordsIds(recs: seq<FileRecord>, c: ScanCandidate, p: string)
    ensures var r := UpsertRecords(recs, c); var k := FindByPath(r, c.absolutePath);
      k >= 0 && r[k].id == StableFileId(recs, c)
    ensures var r := UpsertRecords(recs, c); var j := FindByPath(recs, p);
      j >= 0 ==> FindByPath(r, p) == j && r[j].id == recs[j].id
  {
    var k := FindByPath(recs, c.absolutePath);
    if k >= 0 {
      var x := recs[k].(parentPath := c.parentPath, currentFilename := c.filename, extension := c.extension,
                        sizeBytes := c.sizeBytes, classification := c.classification, confidence := c.confidence);
      FindByPathKeyed(recs, k, x, c.absolutePath);
      FindByPathKeyed(recs, k, x, p);
    } else {
      var x := FileRecord(c.fileId, c.absolutePath, c.parentPath, c.filename, c.filename, c.extension,
                          c.sizeBytes, c.classification, c.confidence);
      FindByPathAppend(recs, x, c.absolutePath);
      FindByPathAppend(recs, x, p);
    }
  }

  predicate IsAnySep(c: char) { c == '/' || c == '\\' }

  /** Index of the last `/` or `\`, or -1. */
  function LastSepIndex(p: string): (k: int)
    ensures -1 <= k < |p|
    ensures k >= 0 ==> IsAnySep(p[k]) && forall j :: k < j < |p| ==> !IsAnySep(p[j])
    ensures k == -1 ==> forall j :: 0 <= j < |p| ==> !IsAnySep(p[j])
  {
    if p == [] then -1 else if IsAnySep(p[|p| - 1]) then |p| - 1 else LastSepIndex(p[..|p| - 1])
  }

  /** `split(/[/\\]/).pop()`. */
  function FileNameOf(p: string): (r: string)
    ensures forall j :: 0 <= j < |r| ==> !IsAnySep(r[j])
  {
    p[LastSepIndex(p) + 1..]
  }

  /** `replace(/[/\\][^/\\]+$/, "")`. */
  function ParentOf(p: string): string
  {
    var k := LastSepIndex(p);
    if k >= 0 && k < |p| - 1 then p[..k] else p
  }

  /** `updateFilePath`: every record with the id moves to the new path. */
  function MoveRecords(recs: seq<FileRecord>, fileId: string, next: string): (r: seq<FileRecord>)
    ensures |r| == |recs|
    ensures forall i :: 0 <= i < |recs| ==> (r[i] ==
      if recs[i].id == fileId
      then recs[i].(absolutePath := next, parentPath := ParentOf(next), currentFilename := FileNameOf(next))
      else recs[i])
  {
    seq(|recs|, i requires 0 <= i < |recs| =>
      if recs[i].id == fileId
      then recs[i].(absolutePath := next, parentPath := ParentOf(next), currentFilename := FileNameOf(next))
      else recs[i])
  }

  /** The parent and the name put back together give the path. */
  lemma ParentAndName(p: string)
    requires LastSepIndex(p) >= 0 && LastSepIndex(p) < |p| - 1
    ensures ParentOf(p) + [p[LastSepIndex(p)]] + FileNameOf(p) == p
  {
    SplitAround(p, LastSepIndex(p));
  }

  lemma SplitAround(p: string, k: int)
    requires 0 <= k < |p|
    ensures p[..k] + [p[k]] + p[k + 1..] == p
  {
  }

  // ---------------------------------------------------------------------
  // Executions.

  function FindExecution(es: seq<ExecutionRecord>, id: string): (r: Option<ExecutionRecord>)
    ensures r.Some? ==> r.value in es && r.value.executionId == id
    ensures r.None? <==> forall i :: 0 <= i < |es| ==> es[i].executionId != id
  {
    if es == [] then None else if es[0].executionId == id then Some(es[0]) else FindExecution(es[1..], id)
  }

  function ExecStartedAt(e: ExecutionRecord): string { e.startedAt }

  /** `WHERE run_id = ? ORDER BY started_at DESC`. */
  function ExecutionsOfRun(es: seq<ExecutionRecord>, runId: string): seq<ExecutionRecord>
  {
    SortDesc(Filter(es, (e: ExecutionRecord) => e.runId == runId), ExecStartedAt)
  }

  // ---------------------------------------------------------------------
  // The store.

  class LocalStore {
    var settings: Option<LocalSettings>
    var watched: seq<WatchedPathRecord>
    var runs: map<string, RunSummary>
    var runOrder: seq<string>
    var proposalRows: seq<ProposalRow>
    var fileRecords: seq<FileRecord>
    var executions: seq<ExecutionRecord>

    /** Every run id is listed once, and every listed run exists. */
    ghost predicate Valid()
      reads this
    {
      (forall id :: id in runs <==> id in runOrder)
      && (forall i, j :: 0 <= i < j < |runOrder| ==> runOrder[i] != runOrder[j])
    }

    constructor ()
      ensures Valid()
      ensures settings.None? && watched == [] && runs == map[] && runOrder == []
      ensures proposalRows == [] && fileRecords == [] && executions == []
    {
      settings := None;
      watched := [];
      runs := map[];
      runOrder := [];
      proposalRows := [];
      fileRecords := [];
      executions := [];
    }

    // ----- settings

    /** `initializeDefaults`: the settings row only when absent; the default
        Downloads folder only when asked for, `USERPROFILE` is set, and no
        watched path has that path yet. */
    method InitializeDefaults(organizedRootPath: Option<string>, h: HomeEnv, recentFileSafetyHours: int,
                              includeHiddenDefault: bool, seedDefaultWatchedPaths: bool, newId: string, now: string)
      modifies this
      requires Valid()
      ensures Valid()
      ensures old(settings).Some? ==> settings == old(settings)
      ensures old(settings).None? ==>
        settings == Some(DefaultSettings(organizedRootPath, h, recentFileSafetyHours, includeHiddenDefault))
      ensures var downloads := h.userProfile.GetOr("") + "\\Downloads";
        if seedDefaultWatchedPaths && h.userProfile.Some? && h.userProfile.value != ""
           && forall i :: 0 <= i < |old(watched)| ==> old(watched)[i].path != downloads
        then watched == [WatchedPathRecord(newId, downloads, Downloads, true, false, false, now, now)] + old(watched)
        else watched == old(watched)
      ensures runs == old(runs) && runOrder == old(runOrder) && proposalRows == old(proposalRows)
      ensures fileRecords == old(fileRecords) && executions == old(executions)
    {
      if settings.None? {
        settings := Some(DefaultSettings(organizedRootPath, h, recentFileSafetyHours, includeHiddenDefault));
      }
      if seedDefaultWatchedPaths && h.userProfile.Some? && h.userProfile.value != "" {
        var downloads := h.userProfile.value + "\\Downloads";
        var i := 0;
        var existing := false;
        while i < |watched|
          invariant 0 <= i <= |watched|
          invariant existing <==> exists j :: 0 <= j < i && watched[j].path == downloads
        {
          if watched[i].path == downloads {
            existing := true;
          }
          i := i + 1;
        }
        if !existing {
          watched := [WatchedPathRecord(newId, downloads, Downloads, true, false, false, now, now)] + watched;
        }
      }
    }

    /** `updateSettings`: `None` when the row is missing (the source throws). */
    method UpdateSettings(patch: SettingsPatch) returns (r: Option<LocalSettings>)
      modifies this
      ensures old(settings).None? ==> r.None? && settings == old(settings)
      ensures old(settings).Some? ==> r == settings == Some(MergeSettings(old(settings).value, patch))
      ensures watched == old(watched) && runs == old(runs) && runOrder == old(runOrder)
      ensures proposalRows == old(proposalRows) && fileRecords == old(fileRecords) && executions == old(executions)
    {
      if settings.None? {
        return None;
      }
      settings := Some(MergeSettings(settings.value, patch));
      return settings;
    }

    // ----- watched paths

    function GetWatchedPath(id: string): Option<WatchedPathRecord>
      reads this
    {
      FindWatched(watched, id)
    }

    /** `addWatchedPath`; `createId` is taken to draw an id no row has. */
    method AddWatchedPath(path: string, pathType: PathKind, isEnabled: bool, isProtected: bool,
                          includeSubfolders: bool, newId: string, now: string) returns (r: WatchedPathRecord)
      modifies this
      ensures r == WatchedPathRecord(newId, path, pathType, isEnabled, isProtected, includeSubfolders, now, now)
      ensures watched == [r] + old(watched)
      ensures settings == old(settings) && runs == old(runs) && runOrder == old(runOrder)
      ensures proposalRows == old(proposalRows) && fileRecords == old(fileRecords) && executions == old(executions)
    {
      r := WatchedPathRecord(newId, path, pathType, isEnabled, isProtected, includeSubfolders, now, now);
      watched := [r] + watched;
    }

    /** `updateWatchedPath`: `None` for an unknown id; otherwise the patched
        fields change, `updatedAt` becomes `now`, and the rest stays. */
    method UpdateWatchedPath(id: string, patch: WatchedPatch, now: string) returns (r: Option<WatchedPathRecord>)
      modifies this
      ensures old(GetWatchedPath(id)).None? ==> r.None? && watched == old(watched)
      ensures old(GetWatchedPath(id)).Some? ==>
        var next := MergeWatched(old(GetWatchedPath(id)).value, patch, now);
        watched == ReplaceWatched(old(watched), id, next) && r == Some(next)
      ensures settings == old(settings) && runs == old(runs) && runOrder == old(runOrder)
      ensures proposalRows == old(proposalRows) && fileRecords == old(fileRecords) && executions == old(executions)
    {
      var current := GetWatchedPath(id);
      if current.None? {
        return None;
      }
      var next := MergeWatched(current.value, patch, now);
      watched := ReplaceWatched(watched, id, next);
      ReplacedIsFound(old(watched), id, next);
      r := GetWatchedPath(id);
    }

    /** `deleteWatchedPath`: true iff a row was removed. */
    method DeleteWatchedPath(id: string) returns (deleted: bool)
      modifies this
      ensures watched == RemoveWatched(old(watched), id)
      ensures deleted <==> exists i :: 0 <= i < |old(watched)| && old(watched)[i].id == id
      ensures settings == old(settings) && runs == old(runs) && runOrder == old(runOrder)
      ensures proposalRows == old(proposalRows) && fileRecords == old(fileRecords) && executions == old(executions)
    {
      var before := watched;
      watched := RemoveWatched(watched, id);
      RemoveWatchedShrinks(before, id);
      deleted := |watched| < |before|;
    }

    // ----- runs

    function GetRunSummary(runId: string): Option<RunSummary>
      reads this
    {
      if runId in runs then Some(runs[runId]) else None
    }

    /** `createRun` (`INSERT OR REPLACE`): a run id already present keeps
        its place in `runOrder`, which only the listing's sort reads. */
    method CreateRun(runId: string, job: CleanupJob, now: string)
      modifies this
      requires Valid()
      ensures Valid()
      ensures runs == old(runs)[runId := NewRunSummary(runId, job, now)]
      ensures runOrder == if runId in old(runs) then old(runOrder) else old(runOrder) + [runId]
      ensures settings == old(settings) && watched == old(watched) && proposalRows == old(proposalRows)
      ensures fileRecords == old(fileRecords) && executions == old(executions)
    {
      if runId !in runs {
        runOrder := runOrder + [runId];
      }
      runs := runs[runId := NewRunSummary(runId, job, now)];
    }

    /** `updateRunSummary` with the merged summary; no-op for an unknown run. */
    method UpdateRunSummary(runId: string, next: RunSummary)
      modifies this
      requires Valid()
      ensures Valid()
      ensures runs == if runId in old(runs) then old(runs)[runId := next] else old(runs)
      ensures settings == old(settings) && watched == old(watched) && runOrder == old(runOrder)
      ensures proposalRows == old(proposalRows) && fileRecords == old(fileRecords) && executions == old(executions)
    {
      if runId in runs {
        runs := runs[runId := next];
      }
    }

    /** `markRunFailed`: status failed, the message, and the finish time. */
    method MarkRunFailed(runId: string, errorMessage: string, now: string)
      modifies this
      requires Valid()
      ensures Valid()
      ensures runs == if runId in old(runs)
        then old(runs)[runId := old(runs)[runId].(status := Failed, errorMessage := Some(errorMessage), finishedAt := Some(now))]
        else old(runs)
      ensures settings == old(settings) && watched == old(watched) && runOrder == old(runOrder)
      ensures proposalRows == old(proposalRows) && fileRecords == old(fileRecords) && executions == old(executions)
    {
      var summary := GetRunSummary(runId);
      if summary.None? {
        return;
      }
      UpdateRunSummary(runId, summary.value.(status := Failed, errorMessage := Some(errorMessage), finishedAt := Some(now)));
    }

    /** The summaries in insertion order. */
    function Summaries(): (r: seq<RunSummary>)
      reads this
      requires Valid()
      ensures |r| == |runOrder| && forall i :: 0 <= i < |r| ==> r[i] == runs[runOrder[i]]
    {
      seq(|runOrder|, i reads this requires 0 <= i < |runOrder| && Valid() => runs[runOrder[i]])
    }

    /** `ORDER BY started_at DESC`, optionally `WHERE status = ?`. */
    function SortedRuns(status: Option<JobStatus>): seq<RunSummary>
      reads this
      requires Valid()
    {
      var all := Summaries();
      var chosen := if status.Some? then Filter(all, (s: RunSummary) => s.status == status.value) else all;
      SortDesc(chosen, StartedAt)
    }

    function GetRunSnapshot(runId: string): Option<RunSnapshot>
      reads this
    {
      if runId in runs then Some(RunSnapshot(runs[runId], ListRunProposals(runId))) else None
    }

    /** `listRunsPage`. */
    function ListRunsPage(status: Option<JobStatus>, limit: Option<int>, offset: Option<int>): (page: seq<RunSnapshot>)
      reads this
      requires Valid()
    {
      var bounds := PageBounds(limit, offset);
      var summaries := Window(SortedRuns(status), bounds.1, bounds.0);
      seq(|summaries|, i reads this requires 0 <= i < |summaries| => RunSnapshot(summaries[i], ListRunProposals(summaries[i].runId)))
    }

    /** `countRuns`. */
    function CountRuns(status: Option<JobStatus>): nat
      reads this
      requires Valid()
    {
      if status.Some? then Count(Summaries(), (s: RunSummary) => s.status == status.value) else |runOrder|
    }

    /** A page is the window of the sorted listing that the bounds select:
        at most `limit` runs, each with its proposals. */
    lemma ListRunsPageShape(status: Option<JobStatus>, limit: Option<int>, offset: Option<int>)
      requires Valid()
      ensures var page := ListRunsPage(status, limit, offset);
        var all := SortedRuns(status); var b := PageBounds(limit, offset);
        && |page| <= b.0
        && (forall i :: 0 <= i < |page| ==>
              b.1 + i < |all| && page[i].runSummary == all[b.1 + i]
              && page[i].proposals == ListRunProposals(page[i].runSummary.runId))
    {
      var b := PageBounds(limit, offset);
      var w := Window(SortedRuns(status), b.1, b.0);
    }

    /** Every listed run is a stored run of the requested status. */
    lemma SortedRunsMembers(status: Option<JobStatus>, x: RunSummary)
      requires Valid() && x in SortedRuns(status)
      ensures x in runs.Values && (status.Some? ==> x.status == status.value)
    {
      var chosen := if status.Some? then Filter(Summaries(), (s: RunSummary) => s.status == status.value) else Summaries();
      SortDescMembers(chosen, StartedAt, x);
      var k :| 0 <= k < |Summaries()| && Summaries()[k] == x;
      assert runOrder[k] in runs;
    }

    /** A page lists stored runs of the requested status, newest first. */
    lemma ListRunsPageOrder(status: Option<JobStatus>, limit: Option<int>, offset: Option<int>)
      requires Valid()
      ensures var page := ListRunsPage(status, limit, offset);
        && (forall i :: 0 < i < |page| ==> StrLe(page[i].runSummary.startedAt, page[i - 1].runSummary.startedAt))
        && (forall i :: 0 <= i < |page| ==>
              page[i].runSummary in runs.Values && (status.Some? ==> page[i].runSummary.status == status.value))
    {
      var page := ListRunsPage(status, limit, offset);
      var all := SortedRuns(status);
      var b := PageBounds(limit, offset);
      ListRunsPageShape(status, limit, offset);
      assert SortedDesc(all, StartedAt);
      forall i | 0 <= i < |page|
        ensures page[i].runSummary in runs.Values && (status.Some? ==> page[i].runSummary.status == status.value)
      {
        SortedRunsMembers(status, all[b.1 + i]);
      }
      forall i | 0 < i < |page|
        ensures StrLe(page[i].runSummary.startedAt, page[i - 1].runSummary.startedAt)
      {
        assert StrLe(StartedAt(all[b.1 + i]), StartedAt(all[b.1 + i - 1]));
      }
    }

    /** Counting agrees with listing: the count of a status is the length of
        the unpaged listing of that status, and the count of all runs is the
        number of stored runs. */
    lemma CountRunsSpec(status: Option<JobStatus>)
      requires Valid()
      ensures CountRuns(status) == |SortedRuns(status)|
      ensures status.None? ==> CountRuns(status) == |runs|
    {
      if status.None? {
        DistinctCard(runOrder);
        assert runs.Keys == set x | x in runOrder;
      }
    }

    // ----- proposals

    function ListRunProposals(runId: string): seq<Proposal>
      reads this
    {
      ProposalsOfRows(RowsOfRun(proposalRows, runId))
    }

    function GetProposalById(proposalId: string): Option<Proposal>
      reads this
    {
      match FindRow(proposalRows, proposalId)
      case None => None
      case Some(r) => Some(ProposalOfRow(r))
    }

    /** `replaceRunProposals`: the run's old rows deleted, then one insert per proposal. */
    method ReplaceRunProposals(runId: string, proposals: seq<Proposal>)
      modifies this
      ensures proposalRows == ReplaceRows(old(proposalRows), runId, proposals)
      ensures settings == old(settings) && watched == old(watched) && runs == old(runs) && runOrder == old(runOrder)
      ensures fileRecords == old(fileRecords) && executions == old(executions)
    {
      proposalRows := Filter(proposalRows, (r: ProposalRow) => r.batchId != runId);
      ghost var kept := proposalRows;
      var i := 0;
      while i < |proposals|
        invariant 0 <= i <= |proposals|
        invariant proposalRows == kept + RowsOf(runId, proposals[..i])
        invariant settings == old(settings) && watched == old(watched) && runs == old(runs) && runOrder == old(runOrder)
        invariant fileRecords == old(fileRecords) && executions == old(executions)
      {
        assert RowsOf(runId, proposals[..i + 1]) == RowsOf(runId, proposals[..i]) + [RowOf(runId, proposals[i])];
        proposalRows := proposalRows + [RowOf(runId, proposals[i])];
        i := i + 1;
      }
      assert proposals[..i] == proposals;
    }

    /** `applyApprovals`: the decisions in order, in one transaction. */
    method ApplyApprovals(command: ApprovalCommand)
      modifies this
      ensures proposalRows == ApplyDecisions(old(proposalRows), command.runId, command.approvals)
      ensures settings == old(settings) && watched == old(watched) && runs == old(runs) && runOrder == old(runOrder)
      ensures fileRecords == old(fileRecords) && executions == old(executions)
    {
      var i := 0;
      while i < |command.approvals|
        invariant 0 <= i <= |command.approvals|
        invariant proposalRows == ApplyDecisions(old(proposalRows), command.runId, command.approvals[..i])
        invariant settings == old(settings) && watched == old(watched) && runs == old(runs) && runOrder == old(runOrder)
        invariant fileRecords == old(fileRecords) && executions == old(executions)
      {
        assert command.approvals[..i + 1][..i] == command.approvals[..i];
        proposalRows := ApplyDecision(proposalRows, command.runId, command.approvals[i]);
        i := i + 1;
      }
      assert command.approvals[..i] == command.approvals;
    }

    /** `updateProposalStatus`. */
    method UpdateProposalStatus(proposalId: string, status: ProposalStatus)
      modifies this
      ensures proposalRows == SetRowStatus(old(proposalRows), proposalId, status)
      ensures settings == old(settings) && watched == old(watched) && runs == old(runs) && runOrder == old(runOrder)
      ensures fileRecords == old(fileRecords) && executions == old(executions)
    {
      proposalRows := SetRowStatus(proposalRows, proposalId, status);
    }

    // ----- file records

    /** `upsertFileRecord`: returns the stable id. */
    method UpsertFileRecord(c: ScanCandidate) returns (id: string)
      modifies this
      ensures id == StableFileId(old(fileRecords), c)
      ensures fileRecords == UpsertRecords(old(fileRecords), c)
      ensures settings == old(settings) && watched == old(watched) && runs == old(runs) && runOrder == old(runOrder)
      ensures proposalRows == old(proposalRows) && executions == old(executions)
    {
      id := StableFileId(fileRecords, c);
      fileRecords := UpsertRecords(fileRecords, c);
    }

    /** `updateFilePath`. */
    method UpdateFilePath(fileId: string, next: string)
      modifies this
      ensures fileRecords == MoveRecords(old(fileRecords), fileId, next)
      ensures settings == old(settings) && watched == old(watched) && runs == old(runs) && runOrder == old(runOrder)
      ensures proposalRows == old(proposalRows) && executions == old(executions)
    {
      fileRecords := MoveRecords(fileRecords, fileId, next);
    }

    // ----- executions

    method InsertExecution(record: ExecutionRecord)
      modifies this
      ensures executions == old(executions) + [record]
      ensures settings == old(settings) && watched == old(watched) && runs == old(runs) && runOrder == old(runOrder)
      ensures proposalRows == old(proposalRows) && fileRecords == old(fileRecords)
    {
      executions := executions + [record];
    }

    function GetExecution(executionId: string): Option<ExecutionRecord>
      reads this
    {
      FindExecution(executions, executionId)
    }

    function ListExecutionsByRun(runId: string): seq<ExecutionRecord>
      reads this
    {
      ExecutionsOfRun(executions, runId)
    }
  }

  lemma ReplacedIsFound(ws: seq<WatchedPathRecord>, id: string, next: WatchedPathRecord)
    requires FindWatched(ws, id).Some? && next.id == id
    ensures FindWatched(ReplaceWatched(ws, id, next), id) == Some(next)
  {
    var r := ReplaceWatched(ws, id, next);
    var i :| 0 <= i < |ws| && ws[i].id == id;
    assert r[i].id == id;
    var v := FindWatched(r, id).value;
    var k :| 0 <= k < |r| && r[k] == v;
    assert ws[k].id == id;
  }

  lemma RemoveWatchedShrinks(ws: seq<WatchedPathRecord>, id: string)
    ensures |RemoveWatched(ws, id)| < |ws| <==> exists i :: 0 <= i < |ws| && ws[i].id == id
  {
    var f := (w: WatchedPathRecord) => w.id != id;
    if exists i :: 0 <= i < |ws| && ws[i].id == id {
      var i :| 0 <= i < |ws| && ws[i].id == id;
      FilterDropsOne(ws, f, i);
    } else {
      FilterKeepsAll(ws, f);
    }
  }

  /** A sequence without repeats has as many distinct elements as positions. */
  lemma {:induction false} DistinctCard(s: seq<string>)
    requires forall i, j :: 0 <= i < j < |s| ==> s[i] != s[j]
    ensures |set x | x in s| == |s|
  {
    if s != [] {
      DistinctCard(s[1..]);
      assert (set x | x in s) == {s[0]} + (set x | x in s[1..]);
      assert s[0] !in (set x | x in s[1..]);
    }
  }

  lemma {:induction false} FilterKeepsAll<T>(s: seq<T>, f: T -> bool)
    requires forall i :: 0 <= i < |s| ==> f(s[i])
    ensures Filter(s, f) == s
  {
    if s != [] {
      FilterKeepsAll(s[1..], f);
    }
  }

  lemma {:induction false} FilterDropsOne<T>(s: seq<T>, f: T -> bool, i: int)
    requires 0 <= i < |s| && !f(s[i])
    ensures |Filter(s, f)| < |s|
  {
    if i == 0 {
      assert |Filter(s[1..], f)| <= |s[1..]|;
    } else {
      FilterDropsOne(s[1..], f, i - 1);
    }
  }
}
