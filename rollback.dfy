// Undoing executed moves (rollback-service.ts). A successful execution record
// carries its undo: move the file from where it went back to where it was.
// `RbUpTo(x, s0, k)` is the state after the loop of `rollbackRun` has handled
// the first `k` eligible executions; the method is proved against it.
module Rollback {
  import opened Wrappers
  import opened Ints
  import opened Seqs
  import opened Contracts
  import opened RunStore
  import opened Disk
  import Execution

  const RollbackFailed: string := "rollback_failed"

  /** `!!record.rollbackJson`: the undo text is present and not empty. */
  predicate HasUndo(r: ExecutionRecord)
  {
    r.rollbackJson.Some? && r.rollbackJson.value != Unparsable("")
  }

  /** The executions `rollbackRun` undoes. */
  predicate Eligible(r: ExecutionRecord)
  {
    r.success && r.operationType != RollbackOperation && HasUndo(r)
  }

  function UndoOf(r: ExecutionRecord): Undo
  {
    match r.rollbackJson
    case Some(u) => u
    case None => Unparsable("")
  }

  /** `applyRollback` succeeds: the undo parses, its source exists, its target
      does not (no overwrite on rollback either) and `rename` accepts it. */
  predicate RollbackOk(files: map<string, nat>, u: Undo)
  {
    u.Undo? && u.from in files && u.to !in files && u.to != ""
  }

  /** `applyRollback`, in the source's order: parse, refuse when both paths
      exist, then `rename`. */
  method ApplyRollback(fs: FileSystem, u: Undo) returns (ok: bool)
    modifies fs
    ensures ok == RollbackOk(old(fs.files), u)
    ensures ok ==> fs.files == Moved(old(fs.files), u.from, u.to)
    ensures !ok ==> fs.files == old(fs.files)
  {
    if u.Unparsable? {
      return false;
    }
    if fs.Exists(u.from) && fs.Exists(u.to) {
      return false;
    }
    ok := fs.Rename(u.from, u.to);
  }

  /** `proposals.findIndex` by proposal id. */
  function FirstIndexOf(ps: seq<Proposal>, id: string): (r: Option<nat>)
    ensures r.Some? ==> (r.value < |ps| && ps[r.value].proposalId == id
                         && forall j :: 0 <= j < r.value ==> ps[j].proposalId != id)
    ensures r.None? <==> forall j :: 0 <= j < |ps| ==> ps[j].proposalId != id
  {
    if ps == [] then None
    else if ps[0].proposalId == id then Some(0)
    else match FirstIndexOf(ps[1..], id)
      case None => None
      case Some(k) => Some(k + 1)
  }

  /** The record a rollback attempt leaves, whatever its outcome. */
  function RollbackRecord(execId: string, started: string, finished: string, e: ExecutionRecord, runId: string,
                          ok: bool): ExecutionRecord
  {
    ExecutionRecord(execId, e.proposalId, runId, RollbackOperation, ok,
                    if ok then None else Some(RollbackFailed), None, started, Some(finished))
  }

  /** What one `rollbackRun` call depends on besides the state: the ids
      `createId` draws, the two clock readings that stamp each record, the run, and its eligible executions in the
      order the store lists them. */
  datatype RbInput = RbInput(newExecId: nat -> string, started: nat -> string, finished: nat -> string, runId: string,
                             eligible: seq<ExecutionRecord>)

  /** The loop's variables (files, proposals, inserted records, the
      `remainingExecuted` counter, the number of proposals restored) and the
      store's proposal rows and file records. */
  datatype RbState = RbState(
    files: map<string, nat>,
    proposals: seq<Proposal>,
    records: seq<ExecutionRecord>,
    remaining: int,
    restored: nat,
    rows: seq<ProposalRow>,
    fileRecs: seq<FileRecord>)

  /** One iteration: try the undo, record the attempt, and on success put the
      proposal (if the snapshot has it) back to approved and its file record
      back to the proposal's source path. */
  function RbStep(x: RbInput, e: ExecutionRecord, s: RbState): RbState
  {
    var u := UndoOf(e);
    var ok := RollbackOk(s.files, u);
    var rec := RollbackRecord(x.newExecId(|s.records|), x.started(|s.records|), x.finished(|s.records|), e, x.runId, ok);
    var files := if ok then Moved(s.files, u.from, u.to) else s.files;
    var idx := FirstIndexOf(s.proposals, e.proposalId);
    if ok && idx.Some? then
      var p := s.proposals[idx.value];
      RbState(files, s.proposals[idx.value := p.(status := Some(Approved))], s.records + [rec],
              Max(0, s.remaining - 1), s.restored + 1,
              SetRowStatus(s.rows, p.proposalId, Approved),
              if p.before != "" then MoveRecords(s.fileRecs, p.fileId, p.before) else s.fileRecs)
    else
      s.(files := files, records := s.records + [rec])
  }

  function RbUpTo(x: RbInput, s0: RbState, k: nat): RbState
    requires k <= |x.eligible|
  {
    if k == 0 then s0 else RbStep(x, x.eligible[k - 1], RbUpTo(x, s0, k - 1))
  }

  function RunInput(newExecId: nat -> string, started: nat -> string, finished: nat -> string, runId: string,
                    listed: seq<ExecutionRecord>): RbInput
  {
    RbInput(newExecId, started, finished, runId, Filter(listed, Eligible))
  }

  function InitialState(snapshot: RunSnapshot, files: map<string, nat>, rows: seq<ProposalRow>,
                        recs: seq<FileRecord>): RbState
  {
    RbState(files, snapshot.proposals, [], snapshot.runSummary.actionsExecuted, 0, rows, recs)
  }

  /** The summary stored at the end: completed, with the counter left. */
  function RolledBackSummary(s: RunSummary, remaining: int): RunSummary
  {
    s.(status := Completed, actionsExecuted := remaining)
  }

  /** One iteration of `rollbackRun`'s loop. */
  method RollbackOne(store: LocalStore, fs: FileSystem, x: RbInput, ghost s0: RbState, ghost execs0: seq<ExecutionRecord>,
                     i: nat, proposals: seq<Proposal>, records: seq<ExecutionRecord>, remaining: int,
                     ghost restored: nat)
    returns (proposals': seq<Proposal>, records': seq<ExecutionRecord>, remaining': int, ghost restored': nat)
    modifies store, fs
    requires i < |x.eligible|
    requires RbUpTo(x, s0, i)
      == RbState(fs.files, proposals, records, remaining, restored, store.proposalRows, store.fileRecords)
    requires store.executions == execs0 + records
    ensures RbUpTo(x, s0, i + 1)
      == RbState(fs.files, proposals', records', remaining', restored', store.proposalRows, store.fileRecords)
    ensures store.executions == execs0 + records'
    ensures store.settings == old(store.settings) && store.watched == old(store.watched)
    ensures store.runs == old(store.runs) && store.runOrder == old(store.runOrder)
  {
    var e := x.eligible[i];
    var idx := FirstIndexOf(proposals, e.proposalId);
    var ok := ApplyRollback(fs, UndoOf(e));
    var rec := RollbackRecord(x.newExecId(|records|), x.started(|records|), x.finished(|records|), e, x.runId, ok);
    store.InsertExecution(rec);
    assert execs0 + (records + [rec]) == execs0 + records + [rec];
    records' := records + [rec];
    proposals', remaining', restored' := proposals, remaining, restored;
    if ok && idx.Some? {
      var p := proposals[idx.value];
      proposals' := proposals[idx.value := p.(status := Some(Approved))];
      store.UpdateProposalStatus(p.proposalId, Approved);
      if p.before != "" {
        store.UpdateFilePath(p.fileId, p.before);
      }
      remaining' := Max(0, remaining - 1);
      restored' := restored + 1;
    }
  }

  /** `rollbackRun`'s loop over the eligible records. */
  method RollbackAll(store: LocalStore, fs: FileSystem, x: RbInput, s0: RbState)
    returns (proposals: seq<Proposal>, records: seq<ExecutionRecord>, remaining: int)
    modifies store, fs
    requires store.Valid()
    requires s0.files == fs.files && s0.records == [] && s0.restored == 0
    requires s0.rows == store.proposalRows && s0.fileRecs == store.fileRecords
    ensures store.Valid()
    ensures var s := RbUpTo(x, s0, |x.eligible|);
      && proposals == s.proposals && records == s.records && remaining == s.remaining
      && fs.files == s.files && store.proposalRows == s.rows && store.fileRecords == s.fileRecs
      && store.executions == old(store.executions) + s.records
    ensures store.settings == old(store.settings) && store.watched == old(store.watched)
    ensures store.runs == old(store.runs) && store.runOrder == old(store.runOrder)
  {
    ghost var execs0 := store.executions;
    proposals, records, remaining := s0.proposals, [], s0.remaining;
    ghost var restored: nat := 0;
    var i := 0;
    while i < |x.eligible|
      invariant i <= |x.eligible|
      invariant RbUpTo(x, s0, i)
        == RbState(fs.files, proposals, records, remaining, restored, store.proposalRows, store.fileRecords)
      invariant store.executions == execs0 + records
      invariant store.Valid()
      invariant store.settings == old(store.settings) && store.watched == old(store.watched)
      invariant store.runs == old(store.runs) && store.runOrder == old(store.runOrder)
    {
      proposals, records, remaining, restored :=
        RollbackOne(store, fs, x, s0, execs0, i, proposals, records, remaining, restored);
      i := i + 1;
    }
  }

  /** Where `rollbackRun` ends from the snapshot and the tables it starts
      from: the run's eligible executions, as the store lists them, undone in
      turn. */
  function RunRolledBack(newExecId: nat -> string, started: nat -> string, finished: nat -> string,
                         snapshot: RunSnapshot, t: Execution.Tables): RbState
  {
    var runId := snapshot.runSummary.runId;
    var x := RunInput(newExecId, started, finished, runId, ExecutionsOfRun(t.execs, runId));
    RbUpTo(x, InitialState(snapshot, t.files, t.rows, t.recs), |x.eligible|)
  }

  /** The snapshot `rollbackRun` returns. */
  function RolledBackSnapshot(newExecId: nat -> string, started: nat -> string, finished: nat -> string,
                              snapshot: RunSnapshot, t: Execution.Tables): RunSnapshot
  {
    var s := RunRolledBack(newExecId, started, finished, snapshot, t);
    RunSnapshot(RolledBackSummary(snapshot.runSummary, s.remaining), s.proposals)
  }

  /** The tables after `rollbackRun`: the moves back, the re-approved rows,
      the file records moved back, one record per attempt, and the run's
      summary stored. */
  function RolledBackTables(newExecId: nat -> string, started: nat -> string, finished: nat -> string,
                            snapshot: RunSnapshot, t: Execution.Tables): Execution.Tables
  {
    var s := RunRolledBack(newExecId, started, finished, snapshot, t);
    var runId := snapshot.runSummary.runId;
    var summary := RolledBackSummary(snapshot.runSummary, s.remaining);
    Execution.Tables(s.files, if runId in t.runs then t.runs[runId := summary] else t.runs, s.rows, s.fileRecs,
                     t.execs + s.records)
  }

  /** Re-approving proposals keeps every proposal row. */
  lemma {:induction false} RbRowsLength(x: RbInput, s0: RbState, k: nat)
    requires k <= |x.eligible|
    ensures |RbUpTo(x, s0, k).rows| == |s0.rows|
  {
    if k > 0 {
      RbRowsLength(x, s0, k - 1);
    }
  }

  /** `rollbackRun`. */
  method RollbackRun(store: LocalStore, fs: FileSystem, newExecId: nat -> string, started: nat -> string,
                     finished: nat -> string, snapshot: RunSnapshot)
    returns (next: RunSnapshot)
    modifies store, fs
    requires store.Valid()
    ensures store.Valid()
    ensures var runId := snapshot.runSummary.runId;
      var x := RunInput(newExecId, started, finished, runId, old(store.ListExecutionsByRun(runId)));
      var s := RbUpTo(x, InitialState(snapshot, old(fs.files), old(store.proposalRows), old(store.fileRecords)),
                      |x.eligible|);
      var summary := RolledBackSummary(snapshot.runSummary, s.remaining);
      next == RunSnapshot(summary, s.proposals)
      && fs.files == s.files
      && store.proposalRows == s.rows && store.fileRecords == s.fileRecs
      && store.executions == old(store.executions) + s.records
      && store.runs == if runId in old(store.runs) then old(store.runs)[runId := summary] else old(store.runs)
    ensures store.settings == old(store.settings) && store.watched == old(store.watched)
    ensures store.runOrder == old(store.runOrder)
    ensures next == RolledBackSnapshot(newExecId, started, finished, snapshot, old(Execution.TablesOf(store, fs)))
    ensures Execution.TablesOf(store, fs) == RolledBackTables(newExecId, started, finished, snapshot, old(Execution.TablesOf(store, fs)))
  {
    var runId := snapshot.runSummary.runId;
    var x := RbInput(newExecId, started, finished, runId, Filter(store.ListExecutionsByRun(runId), Eligible));
    var s0 := InitialState(snapshot, fs.files, store.proposalRows, store.fileRecords);
    var proposals, records, remaining := RollbackAll(store, fs, x, s0);
    var summary := RolledBackSummary(snapshot.runSummary, remaining);
    store.UpdateRunSummary(runId, summary);
    return RunSnapshot(summary, proposals);
  }

  datatype RollbackResult = RollbackResult(ok: bool, runId: Option<string>, proposalId: Option<string>)

  /** What undoing the eligible execution `e` once does to the disk and the
      store's tables: the move back when it can be made, one rollback record
      either way, and on success the proposal re-approved and its file record
      moved back to the `before` path. */
  predicate UndoneOnce(execId: string, started: string, finished: string, e: ExecutionRecord,
                       files0: map<string, nat>, rows0: seq<ProposalRow>, recs0: seq<FileRecord>,
                       execs0: seq<ExecutionRecord>, files: map<string, nat>, rows: seq<ProposalRow>,
                       recs: seq<FileRecord>, execs: seq<ExecutionRecord>)
  {
    var u := UndoOf(e);
    var ok := RollbackOk(files0, u);
    var row := FindRow(rows0, e.proposalId);
    && files == (if ok then Moved(files0, u.from, u.to) else files0)
    && execs == execs0 + [RollbackRecord(execId, started, finished, e, e.runId, ok)]
    && rows == (if ok then SetRowStatus(rows0, e.proposalId, Approved) else rows0)
    && recs == (if ok && row.Some? && row.value.before != "" then MoveRecords(recs0, row.value.fileId, row.value.before)
                else recs0)
  }

  /** `rollbackExecution`: undo one execution by id. */
  method RollbackExecution(store: LocalStore, fs: FileSystem, execId: string, started: string, finished: string,
                           executionId: string)
    returns (r: RollbackResult)
    modifies store, fs
    ensures var found := old(store.GetExecution(executionId));
      !(found.Some? && found.value.success && HasUndo(found.value)) ==>
        r == RollbackResult(false, None, None) && unchanged(store) && unchanged(fs)
    ensures var found := old(store.GetExecution(executionId));
      found.Some? && found.value.success && HasUndo(found.value) ==>
        var e := found.value;
        r == RollbackResult(RollbackOk(old(fs.files), UndoOf(e)), Some(e.runId), Some(e.proposalId))
        && UndoneOnce(execId, started, finished, e, old(fs.files), old(store.proposalRows), old(store.fileRecords), old(store.executions),
                      fs.files, store.proposalRows, store.fileRecords, store.executions)
        && store.settings == old(store.settings) && store.watched == old(store.watched)
        && store.runs == old(store.runs) && store.runOrder == old(store.runOrder)
  {
    var found := store.GetExecution(executionId);
    if !(found.Some? && found.value.success && HasUndo(found.value)) {
      return RollbackResult(false, None, None);
    }
    var e := found.value;
    var ok := ApplyRollback(fs, UndoOf(e));
    store.InsertExecution(RollbackRecord(execId, started, finished, e, e.runId, ok));
    if ok {
      ghost var rows0 := store.proposalRows;
      store.UpdateProposalStatus(e.proposalId, Approved);
      FindRowAfterStatus(rows0, e.proposalId, Approved);
      var proposal := store.GetProposalById(e.proposalId);
      if proposal.Some? && proposal.value.before != "" {
        store.UpdateFilePath(proposal.value.fileId, proposal.value.before);
      }
    }
    return RollbackResult(ok, Some(e.runId), Some(e.proposalId));
  }

  /** Setting a status keeps the row `FindRow` finds, apart from its status. */
  lemma {:induction false} FindRowAfterStatus(rows: seq<ProposalRow>, id: string, st: ProposalStatus)
    ensures FindRow(SetRowStatus(rows, id, st), id)
      == match FindRow(rows, id) case None => None case Some(r) => Some(r.(status := st))
  {
    if rows != [] && rows[0].id != id {
      assert SetRowStatus(rows, id, st)[1..] == SetRowStatus(rows[1..], id, st);
      FindRowAfterStatus(rows[1..], id, st);
    }
  }

  // ---------------------------------------------------------------------
  // What rollback guarantees.

  /** An executed move is undone by its record's undo, and once undone the
      same undo fails: the file is no longer at the moved-to path. */
  lemma ExecutedMoveRollsBack(files: map<string, nat>, before: string, after: string)
    requires before in files && after !in files && before != "" && after != ""
    ensures var moved := Moved(files, before, after);
      var u := Undo(UndoMoveBack, after, before);
      RollbackOk(moved, u) && Moved(moved, after, before) == files
      && !RollbackOk(Moved(moved, after, before), u)
  {
    MoveBackRestores(files, before, after);
  }

  /** A successful rollback cannot be repeated on the files it leaves. */
  lemma RollbackNotRepeatable(files: map<string, nat>, u: Undo)
    requires RollbackOk(files, u)
    ensures !RollbackOk(Moved(files, u.from, u.to), u)
  {
  }

  /** What one iteration does to the files and the inserted records. */
  lemma StepFiles(x: RbInput, e: ExecutionRecord, s: RbState)
    ensures var r, u := RbStep(x, e, s), UndoOf(e);
      var ok := RollbackOk(s.files, u);
      r.files == (if ok then Moved(s.files, u.from, u.to) else s.files)
      && r.records == s.records + [RollbackRecord(x.newExecId(|s.records|), x.started(|s.records|), x.finished(|s.records|), e, x.runId, ok)]
  {
  }

  /** What one iteration does to the two counters. */
  lemma StepCounts(x: RbInput, e: ExecutionRecord, s: RbState)
    ensures var r := RbStep(x, e, s);
      && (r.restored == s.restored ==> r.remaining == s.remaining)
      && (r.restored != s.restored ==> r.restored == s.restored + 1 && r.remaining == Max(0, s.remaining - 1))
  {
  }

  /** What one iteration does to the proposals: at most a status set back
      to approved. */
  lemma StepProposals(x: RbInput, e: ExecutionRecord, s: RbState)
    ensures var r := RbStep(x, e, s);
      && |r.proposals| == |s.proposals|
      && forall j :: 0 <= j < |s.proposals| ==>
           r.proposals[j].(status := s.proposals[j].status) == s.proposals[j]
           && (r.proposals[j] == s.proposals[j] || r.proposals[j].status == Some(Approved))
  {
  }

  /** Every eligible execution gets exactly one rollback record, in order,
      naming its proposal and the run, with an error exactly when it failed. */
  lemma {:induction false} OneRecordPerExecution(x: RbInput, s0: RbState, k: nat)
    requires k <= |x.eligible| && s0.records == []
    ensures var r := RbUpTo(x, s0, k).records;
      |r| == k
      && forall j :: 0 <= j < k ==>
           r[j].proposalId == x.eligible[j].proposalId && r[j].runId == x.runId
           && r[j].operationType == RollbackOperation && r[j].rollbackJson.None?
           && (r[j].success <==> r[j].errorMessage.None?)
  {
    if k > 0 {
      OneRecordPerExecution(x, s0, k - 1);
      StepFiles(x, x.eligible[k - 1], RbUpTo(x, s0, k - 1));
    }
  }

  /** `remainingExecuted` drops by one per restored proposal and never below
      zero; with nothing restored it is the summary's own count. */
  lemma {:induction false} RemainingCount(x: RbInput, s0: RbState, k: nat)
    requires k <= |x.eligible| && s0.restored == 0
    ensures var s := RbUpTo(x, s0, k);
      s.restored <= k
      && (s.restored == 0 ==> s.remaining == s0.remaining)
      && (s.restored > 0 ==> s.remaining == Max(0, s0.remaining - s.restored))
  {
    if k > 0 {
      RemainingCount(x, s0, k - 1);
      StepCounts(x, x.eligible[k - 1], RbUpTo(x, s0, k - 1));
    }
  }

  /** The returned proposals are the snapshot's, in order, with only some
      statuses set back to approved. */
  lemma {:induction false} ProposalsOnlyReapproved(x: RbInput, s0: RbState, k: nat)
    requires k <= |x.eligible|
    ensures var ps := RbUpTo(x, s0, k).proposals;
      |ps| == |s0.proposals|
      && forall j :: 0 <= j < |ps| ==>
           ps[j].(status := s0.proposals[j].status) == s0.proposals[j]
           && (ps[j] == s0.proposals[j] || ps[j].status == Some(Approved))
  {
    if k > 0 {
      ProposalsOnlyReapproved(x, s0, k - 1);
      StepProposals(x, x.eligible[k - 1], RbUpTo(x, s0, k - 1));
    }
  }

  /** Rollback moves never overwrite: no file is created or lost. */
  lemma {:induction false} RollbackKeepsFileCount(x: RbInput, s0: RbState, k: nat)
    requires k <= |x.eligible|
    ensures |RbUpTo(x, s0, k).files| == |s0.files|
  {
    if k > 0 {
      RollbackKeepsFileCount(x, s0, k - 1);
      var s := RbUpTo(x, s0, k - 1);
      var u := UndoOf(x.eligible[k - 1]);
      assert |RbStep(x, x.eligible[k - 1], s).files| == |s.files| by {
        StepFiles(x, x.eligible[k - 1], s);
        if RollbackOk(s.files, u) {
          MoveKeepsCount(s.files, u.from, u.to);
        }
      }
    }
  }
}
