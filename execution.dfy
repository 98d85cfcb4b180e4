// Executing a run's approved proposals (execution-service.ts). The loop's
// behaviour is specified proposal by proposal: `EffectAt(x, i)` is what the
// loop does with proposal `i` (nothing, a refusal with its reason, a move, or
// the `rename` that throws), and each thing the loop changes (the files, the
// snapshot's proposals, the records, the counter, the store's proposal rows,
// file records and execution records) is a fold of those effects.
module Execution {
  import opened Wrappers
  import opened Seqs
  import opened Contracts
  import opened PathPolicy
  import opened RunStore
  import opened Disk

  const DryRunExecutionBlocked: string := "dry_run_execution_blocked"
  const UnsupportedActionForExecution: string := "unsupported_action_for_execution"
  const SourceMissing: string := "source_missing"
  const TargetExistsNoOverwrite: string := "target_exists_no_overwrite"

  /** What the pass depends on besides the proposals and the files: the path
      policy service it is constructed with (`validateOperationPaths`), the
      execution id `createId` draws for the n-th record, the `nowIso()`
      readings that stamp the n-th record's start and finish, and the reading
      that stamps the finished run. */
  datatype ExecContext = ExecContext(
    policy: (ActionType, string, string) -> PolicyDecision,
    newExecId: nat -> string,
    started: nat -> string,
    finished: nat -> string,
    now: string)

  /** The daemon's own service: the policy over its settings and watched paths. */
  function ServiceContext(env: PathEnv, settings: LocalSettings, watched: seq<WatchedPathRecord>,
                          newExecId: nat -> string, started: nat -> string, finished: nat -> string,
                          now: string): ExecContext
  {
    ExecContext((a: ActionType, s: string, t: string) => ValidateOperationPaths(env, settings, watched, a, s, t),
                newExecId, started, finished, now)
  }

  /** The only actions that move a file. */
  predicate Executable(a: ActionType)
  {
    a == Rename || a == Move || a == Archive
  }

  /** What the loop does with one proposal. `Halt` is the `rename` that
      throws, which ends the whole call with an error. */
  datatype Effect = Untouched | Refused(reason: string) | Performed | Halt

  /** The checks in the source's order: approved, executable action, path
      policy, source present, target absent; then `rename`, which throws for
      the empty target path that the policy lets through. */
  function EffectOf(c: ExecContext, p: Proposal, files: map<string, nat>): (e: Effect)
    ensures e.Untouched? <==> p.status != Some(Approved)
    ensures e.Performed? ==>
      Executable(p.actionType) && c.policy(p.actionType, p.before, p.after) == Allowed
      && p.before in files && p.after !in files && CanRename(files, p.before, p.after)
    ensures e == Refused(UnsupportedActionForExecution) <== p.status == Some(Approved) && !Executable(p.actionType)
  {
    if p.status != Some(Approved) then Untouched
    else if !Executable(p.actionType) then Refused(UnsupportedActionForExecution)
    else match c.policy(p.actionType, p.before, p.after)
      case Denied(reason) => Refused(reason)
      case Allowed =>
        if p.before !in files then Refused(SourceMissing)
        else if p.after in files then Refused(TargetExistsNoOverwrite)
        else if !CanRename(files, p.before, p.after) then Halt
        else Performed
  }

  /** The inputs of one call. */
  datatype PassInput = PassInput(c: ExecContext, runId: string, proposals: seq<Proposal>, files: map<string, nat>)

  /** The files, whether `rename` has thrown, and the effects on the first
      `k` proposals. */
  datatype Core = Core(files: map<string, nat>, halted: bool, effects: seq<Effect>)

  /** What the loop does with the next proposal from state `core`. */
  function NextEffect(c: ExecContext, p: Proposal, core: Core): Effect
  {
    if core.halted then Untouched else EffectOf(c, p, core.files)
  }

  /** One iteration of the loop. */
  function Step(c: ExecContext, p: Proposal, core: Core): (r: Core)
    ensures r.effects == core.effects + [NextEffect(c, p, core)]
  {
    var e := NextEffect(c, p, core);
    match e
    case Halt => Core(core.files, true, core.effects + [e])
    case Performed => Core(Moved(core.files, p.before, p.after), false, core.effects + [e])
    case _ => core.(effects := core.effects + [e])
  }

  function CoreUpTo(x: PassInput, k: nat): (r: Core)
    requires k <= |x.proposals|
    ensures |r.effects| == k
  {
    if k == 0 then Core(x.files, false, [])
    else Step(x.c, x.proposals[k - 1], CoreUpTo(x, k - 1))
  }

  /** What the loop does with proposal `i`. */
  function EffectAt(x: PassInput, i: nat): Effect
    requires i < |x.proposals|
  {
    NextEffect(x.c, x.proposals[i], CoreUpTo(x, i))
  }

  /** The effects on the first `k` proposals. */
  function Effects(x: PassInput, k: nat): (es: seq<Effect>)
    requires k <= |x.proposals|
    ensures |es| == k
  {
    CoreUpTo(x, k).effects
  }

  // The folds below read only the proposals and a sequence of effects.

  /** The proposal as the returned snapshot holds it. */
  function AfterStatus(p: Proposal, e: Effect): Proposal
  {
    match e
    case Refused(_) => p.(status := Some(ExecutionFailed))
    case Performed => p.(status := Some(Executed))
    case _ => p
  }

  /** The snapshot's proposals once the effects `es` are applied. */
  function ProposalsFor(ps: seq<Proposal>, es: seq<Effect>): (r: seq<Proposal>)
    requires |es| <= |ps|
    ensures |r| == |ps|
  {
    seq(|ps|, i requires 0 <= i < |ps| => if i < |es| then AfterStatus(ps[i], es[i]) else ps[i])
  }

  function FailureRecord(x: PassInput, p: Proposal, reason: string, n: nat): ExecutionRecord
  {
    ExecutionRecord(x.c.newExecId(n), p.proposalId, x.runId, Operation(p.actionType), false, Some(reason), None,
                    x.c.started(n), Some(x.c.finished(n)))
  }

  /** A successful move records how to move the file back. */
  function SuccessRecord(x: PassInput, p: Proposal, n: nat): ExecutionRecord
  {
    ExecutionRecord(x.c.newExecId(n), p.proposalId, x.runId, Operation(p.actionType), true, None,
                    Some(Undo(UndoMoveBack, p.after, p.before)), x.c.started(n), Some(x.c.finished(n)))
  }

  /** The record an effect produces, as the n-th record of the call. */
  function RecordsOf(x: PassInput, p: Proposal, e: Effect, n: nat): seq<ExecutionRecord>
  {
    match e
    case Refused(reason) => [FailureRecord(x, p, reason, n)]
    case Performed => [SuccessRecord(x, p, n)]
    case _ => []
  }

  function RecordsFor(x: PassInput, es: seq<Effect>): (r: seq<ExecutionRecord>)
    requires |es| <= |x.proposals|
    ensures |r| <= |es|
  {
    if es == [] then []
    else
      var prev := RecordsFor(x, es[..|es| - 1]);
      prev + RecordsOf(x, x.proposals[|es| - 1], es[|es| - 1], |prev|)
  }

  /** The loop's `executed` counter. */
  function ExecutedFor(es: seq<Effect>): nat
  {
    if es == [] then 0 else ExecutedFor(es[..|es| - 1]) + (if es[|es| - 1].Performed? then 1 else 0)
  }

  /** The store's proposal rows: `updateProposalStatus` per record. */
  function RowsFor(ps: seq<Proposal>, es: seq<Effect>, rows: seq<ProposalRow>): seq<ProposalRow>
    requires |es| <= |ps|
  {
    if es == [] then rows
    else
      var prev := RowsFor(ps, es[..|es| - 1], rows);
      match es[|es| - 1]
      case Refused(_) => SetRowStatus(prev, ps[|es| - 1].proposalId, ExecutionFailed)
      case Performed => SetRowStatus(prev, ps[|es| - 1].proposalId, Executed)
      case _ => prev
  }

  /** The store's file records: `updateFilePath` per move. */
  function FileRecsFor(ps: seq<Proposal>, es: seq<Effect>, recs: seq<FileRecord>): seq<FileRecord>
    requires |es| <= |ps|
  {
    if es == [] then recs
    else
      var prev := FileRecsFor(ps, es[..|es| - 1], recs);
      if es[|es| - 1].Performed? then MoveRecords(prev, ps[|es| - 1].fileId, ps[|es| - 1].after) else prev
  }

  /** The summary stored at the end. */
  function CompletedSummary(s: RunSummary, now: string, executed: nat): RunSummary
  {
    s.(status := Completed, finishedAt := Some(now), actionsExecuted := executed)
  }

  function InputOf(c: ExecContext, snapshot: RunSnapshot, files: map<string, nat>): PassInput
  {
    PassInput(c, snapshot.runSummary.runId, snapshot.proposals, files)
  }

  datatype ExecOutcome =
    | Blocked(message: string)
    | RenameFailed(path: string)
    | Done(nextSnapshot: RunSnapshot, executionRecords: seq<ExecutionRecord>)

  /** The proposal `rename` threw on among the first `k`, if it did. */
  function HaltIndex(x: PassInput, k: nat): (r: Option<nat>)
    requires k <= |x.proposals|
    ensures r.Some? <==> CoreUpTo(x, k).halted
    ensures r.Some? ==> r.value < k && EffectAt(x, r.value).Halt?
  {
    if k == 0 then None
    else if CoreUpTo(x, k - 1).halted then HaltIndex(x, k - 1)
    else if EffectAt(x, k - 1).Halt? then Some(k - 1)
    else None
  }

  /** What `executeApproved` ends with: the dry-run refusal, the failed
      `rename`'s target, or the completed snapshot and the records. */
  function PassOutcome(c: ExecContext, snapshot: RunSnapshot, files: map<string, nat>): ExecOutcome
  {
    if snapshot.runSummary.dryRun then Blocked(DryRunExecutionBlocked)
    else
      var x := InputOf(c, snapshot, files);
      var es := Effects(x, |x.proposals|);
      match HaltIndex(x, |x.proposals|)
      case Some(j) => RenameFailed(x.proposals[j].after)
      case None =>
        Done(RunSnapshot(CompletedSummary(snapshot.runSummary, c.now, ExecutedFor(es)), ProposalsFor(x.proposals, es)),
             RecordsFor(x, es))
  }

  /** The disk and the store's tables the daemon's services write: which
      paths hold a file, the run summaries, the proposal rows, the file
      records and the execution records. */
  datatype Tables = Tables(files: map<string, nat>, runs: map<string, RunSummary>, rows: seq<ProposalRow>,
                           recs: seq<FileRecord>, execs: seq<ExecutionRecord>)

  function TablesOf(store: LocalStore, fs: FileSystem): Tables
    reads store, fs
  {
    Tables(fs.files, store.runs, store.proposalRows, store.fileRecords, store.executions)
  }

  /** The tables after `executeApproved`: nothing for a dry run; otherwise
      every proposal's effect on the disk, the rows, the file records and the
      execution records, and the completed summary stored unless `rename`
      threw. */
  function ExecutedTables(c: ExecContext, snapshot: RunSnapshot, t: Tables): Tables
  {
    if snapshot.runSummary.dryRun then t
    else
      var x := InputOf(c, snapshot, t.files);
      var n := |x.proposals|;
      var es := Effects(x, n);
      var runId := snapshot.runSummary.runId;
      var next := CompletedSummary(snapshot.runSummary, c.now, ExecutedFor(es));
      Tables(CoreUpTo(x, n).files,
             if CoreUpTo(x, n).halted || runId !in t.runs then t.runs else t.runs[runId := next],
             RowsFor(x.proposals, es, t.rows), FileRecsFor(x.proposals, es, t.recs), t.execs + RecordsFor(x, es))
  }

  /** The pass reads the disk, the rows, the file records and the execution
      records but no summary, and keeps every stored run. */
  lemma ExecutedTablesFrame(c: ExecContext, snapshot: RunSnapshot, t: Tables, u: Tables)
    requires t.files == u.files && t.rows == u.rows && t.recs == u.recs && t.execs == u.execs
    ensures var a, b := ExecutedTables(c, snapshot, t), ExecutedTables(c, snapshot, u);
      a.files == b.files && a.rows == b.rows && a.recs == b.recs && a.execs == b.execs
    ensures ExecutedTables(c, snapshot, t).runs.Keys == t.runs.Keys
  {
  }

  /** The status updates keep every proposal row. */
  lemma {:induction false} RowsForLength(ps: seq<Proposal>, es: seq<Effect>, rows: seq<ProposalRow>)
    requires |es| <= |ps|
    ensures |RowsFor(ps, es, rows)| == |rows|
  {
    if es != [] {
      RowsForLength(ps, es[..|es| - 1], rows);
    }
  }

  /** `rename` throws on one proposal at most: every later one is left
      untouched. */
  lemma {:induction false} HaltIndexUnique(x: PassInput, j: nat, k: nat)
    requires j < k <= |x.proposals| && EffectAt(x, j).Halt?
    ensures HaltIndex(x, k) == Some(j)
    decreases k
  {
    if k > j + 1 {
      HaltIndexUnique(x, j, k - 1);
    }
  }

  /** `persistExecutionFailure`. */
  method PersistFailure(store: LocalStore, p: Proposal, rec: ExecutionRecord)
    modifies store
    ensures store.proposalRows == SetRowStatus(old(store.proposalRows), p.proposalId, ExecutionFailed)
    ensures store.executions == old(store.executions) + [rec]
    ensures store.settings == old(store.settings) && store.watched == old(store.watched)
    ensures store.runs == old(store.runs) && store.runOrder == old(store.runOrder)
    ensures store.fileRecords == old(store.fileRecords)
  {
    store.UpdateProposalStatus(p.proposalId, ExecutionFailed);
    store.InsertExecution(rec);
  }

  /** The checks before the move (lines 36-110 of the service): the reason
      for refusing an approved proposal, if there is one. */
  method Preflight(c: ExecContext, fs: FileSystem, p: Proposal) returns (refusal: Option<string>)
    requires p.status == Some(Approved)
    ensures refusal.Some? ==> EffectOf(c, p, fs.files) == Refused(refusal.value)
    ensures refusal.None? ==> EffectOf(c, p, fs.files) in {Performed, Halt}
  {
    if !Executable(p.actionType) {
      return Some(UnsupportedActionForExecution);
    }
    var policy := c.policy(p.actionType, p.before, p.after);
    if policy.Denied? {
      return Some(policy.reason);
    }
    if !fs.Exists(p.before) {
      return Some(SourceMissing);
    }
    if fs.Exists(p.after) {
      return Some(TargetExistsNoOverwrite);
    }
    return None;
  }

  /** The loop's own variables after the first `i` proposals. */
  predicate LoopState(x: PassInput, i: nat, proposals: seq<Proposal>, records: seq<ExecutionRecord>, executed: nat)
  {
    i <= |x.proposals|
    && proposals == ProposalsFor(x.proposals, Effects(x, i))
    && records == RecordsFor(x, Effects(x, i)) && executed == ExecutedFor(Effects(x, i))
  }

  /** The store after the first `i` proposals. */
  predicate StoreHolds(rows: seq<ProposalRow>, recs: seq<FileRecord>, execs: seq<ExecutionRecord>, x: PassInput,
                       rows0: seq<ProposalRow>, recs0: seq<FileRecord>, execs0: seq<ExecutionRecord>, i: nat)
  {
    i <= |x.proposals|
    && rows == RowsFor(x.proposals, Effects(x, i), rows0)
    && recs == FileRecsFor(x.proposals, Effects(x, i), recs0)
    && execs == execs0 + RecordsFor(x, Effects(x, i))
  }

  ghost predicate StoreState(store: LocalStore, x: PassInput, rows0: seq<ProposalRow>, recs0: seq<FileRecord>,
                             execs0: seq<ExecutionRecord>, i: nat)
    reads store
  {
    StoreHolds(store.proposalRows, store.fileRecords, store.executions, x, rows0, recs0, execs0, i)
  }

  /** A refusal of proposal `i`, on the loop's variables and the store's tables. */
  lemma RefusalStep(x: PassInput, rows0: seq<ProposalRow>, recs0: seq<FileRecord>, execs0: seq<ExecutionRecord>,
                    i: nat, proposals: seq<Proposal>, records: seq<ExecutionRecord>, executed: nat, reason: string,
                    rows: seq<ProposalRow>, recs: seq<FileRecord>, execs: seq<ExecutionRecord>)
    requires i < |x.proposals| && EffectAt(x, i) == Refused(reason)
    requires LoopState(x, i, proposals, records, executed) && StoreHolds(rows, recs, execs, x, rows0, recs0, execs0, i)
    ensures var p := x.proposals[i];
      var rec := FailureRecord(x, p, reason, |records|);
      LoopState(x, i + 1, proposals[i := p.(status := Some(ExecutionFailed))], records + [rec], executed)
      && StoreHolds(SetRowStatus(rows, p.proposalId, ExecutionFailed), recs, execs + [rec], x, rows0, recs0, execs0, i + 1)
  {
    RefusalLoopStep(x, i, proposals, records, executed, reason);
    RefusalStoreStep(x, rows0, recs0, execs0, i, |records|, reason, rows, recs, execs);
  }

  lemma RefusalLoopStep(x: PassInput, i: nat, proposals: seq<Proposal>, records: seq<ExecutionRecord>,
                        executed: nat, reason: string)
    requires i < |x.proposals| && EffectAt(x, i) == Refused(reason)
    requires LoopState(x, i, proposals, records, executed)
    ensures var p := x.proposals[i];
      LoopState(x, i + 1, proposals[i := p.(status := Some(ExecutionFailed))],
                records + [FailureRecord(x, p, reason, |records|)], executed)
  {
    var es := Effects(x, i);
    assert Effects(x, i + 1) == es + [Refused(reason)];
    RefusedSnoc(x, es, reason, [], []);
    ProposalsSnoc(x.proposals, es, Refused(reason));
  }

  lemma RefusalStoreStep(x: PassInput, rows0: seq<ProposalRow>, recs0: seq<FileRecord>, execs0: seq<ExecutionRecord>,
                         i: nat, k: nat, reason: string,
                         rows: seq<ProposalRow>, recs: seq<FileRecord>, execs: seq<ExecutionRecord>)
    requires i < |x.proposals| && EffectAt(x, i) == Refused(reason)
    requires k == |RecordsFor(x, Effects(x, i))|
    requires StoreHolds(rows, recs, execs, x, rows0, recs0, execs0, i)
    ensures var p := x.proposals[i];
      StoreHolds(SetRowStatus(rows, p.proposalId, ExecutionFailed), recs,
                 execs + [FailureRecord(x, p, reason, k)], x, rows0, recs0, execs0, i + 1)
  {
    var es := Effects(x, i);
    assert Effects(x, i + 1) == es + [Refused(reason)];
    RefusedSnoc(x, es, reason, rows0, recs0);
    var rec := FailureRecord(x, x.proposals[i], reason, k);
    assert execs0 + (RecordsFor(x, es) + [rec]) == execs0 + RecordsFor(x, es) + [rec];
  }

  /** A move of proposal `i`, on the loop's variables and the store's tables. */
  lemma MoveStep(x: PassInput, rows0: seq<ProposalRow>, recs0: seq<FileRecord>, execs0: seq<ExecutionRecord>,
                 i: nat, proposals: seq<Proposal>, records: seq<ExecutionRecord>, executed: nat,
                 rows: seq<ProposalRow>, recs: seq<FileRecord>, execs: seq<ExecutionRecord>)
    requires i < |x.proposals| && EffectAt(x, i) == Performed
    requires LoopState(x, i, proposals, records, executed) && StoreHolds(rows, recs, execs, x, rows0, recs0, execs0, i)
    ensures var p := x.proposals[i];
      var rec := SuccessRecord(x, p, |records|);
      LoopState(x, i + 1, proposals[i := p.(status := Some(Executed))], records + [rec], executed + 1)
      && StoreHolds(SetRowStatus(rows, p.proposalId, Executed), MoveRecords(recs, p.fileId, p.after), execs + [rec],
                    x, rows0, recs0, execs0, i + 1)
  {
    MoveLoopStep(x, i, proposals, records, executed);
    MoveStoreStep(x, rows0, recs0, execs0, i, |records|, rows, recs, execs);
  }

  lemma MoveLoopStep(x: PassInput, i: nat, proposals: seq<Proposal>, records: seq<ExecutionRecord>, executed: nat)
    requires i < |x.proposals| && EffectAt(x, i) == Performed
    requires LoopState(x, i, proposals, records, executed)
    ensures var p := x.proposals[i];
      LoopState(x, i + 1, proposals[i := p.(status := Some(Executed))],
                records + [SuccessRecord(x, p, |records|)], executed + 1)
  {
    var es := Effects(x, i);
    assert Effects(x, i + 1) == es + [Performed];
    PerformedSnoc(x, es, [], []);
    ProposalsSnoc(x.proposals, es, Performed);
  }

  lemma MoveStoreStep(x: PassInput, rows0: seq<ProposalRow>, recs0: seq<FileRecord>, execs0: seq<ExecutionRecord>,
                      i: nat, k: nat, rows: seq<ProposalRow>, recs: seq<FileRecord>, execs: seq<ExecutionRecord>)
    requires i < |x.proposals| && EffectAt(x, i) == Performed
    requires k == |RecordsFor(x, Effects(x, i))|
    requires StoreHolds(rows, recs, execs, x, rows0, recs0, execs0, i)
    ensures var p := x.proposals[i];
      StoreHolds(SetRowStatus(rows, p.proposalId, Executed), MoveRecords(recs, p.fileId, p.after),
                 execs + [SuccessRecord(x, p, k)], x, rows0, recs0, execs0, i + 1)
  {
    var es := Effects(x, i);
    assert Effects(x, i + 1) == es + [Performed];
    PerformedSnoc(x, es, rows0, recs0);
    var rec := SuccessRecord(x, x.proposals[i], k);
    assert execs0 + (RecordsFor(x, es) + [rec]) == execs0 + RecordsFor(x, es) + [rec];
  }

  /** The loop's state after the first `i` proposals, as the folds give it. */
  ghost predicate Tracks(store: LocalStore, fs: FileSystem, x: PassInput, rows0: seq<ProposalRow>,
                         recs0: seq<FileRecord>, execs0: seq<ExecutionRecord>, i: nat,
                         proposals: seq<Proposal>, records: seq<ExecutionRecord>, executed: nat)
    reads store, fs
  {
    i <= |x.proposals| && CoreUpTo(x, i).files == fs.files && !CoreUpTo(x, i).halted
    && LoopState(x, i, proposals, records, executed)
    && StoreState(store, x, rows0, recs0, execs0, i)
  }

  /** A refused proposal: marked failed in the snapshot and the store, with a
      failure record. */
  method RecordRefusal(store: LocalStore, x: PassInput, ghost rows0: seq<ProposalRow>,
                       ghost recs0: seq<FileRecord>, ghost execs0: seq<ExecutionRecord>, i: nat,
                       proposals: seq<Proposal>, records: seq<ExecutionRecord>, executed: nat, reason: string)
    returns (proposals': seq<Proposal>, records': seq<ExecutionRecord>)
    modifies store
    requires i < |x.proposals| && EffectAt(x, i) == Refused(reason)
    requires LoopState(x, i, proposals, records, executed) && StoreState(store, x, rows0, recs0, execs0, i)
    ensures LoopState(x, i + 1, proposals', records', executed) && StoreState(store, x, rows0, recs0, execs0, i + 1)
    ensures store.settings == old(store.settings) && store.watched == old(store.watched)
    ensures store.runs == old(store.runs) && store.runOrder == old(store.runOrder)
  {
    var p := proposals[i];
    assert p == x.proposals[i];
    RefusalStep(x, rows0, recs0, execs0, i, proposals, records, executed, reason,
                store.proposalRows, store.fileRecords, store.executions);
    proposals' := proposals[i := p.(status := Some(ExecutionFailed))];
    var rec := FailureRecord(x, p, reason, |records|);
    records' := records + [rec];
    PersistFailure(store, p, rec);
  }

  /** A performed move: marked executed in the snapshot and the store, with a
      success record, and the file record moved. */
  method RecordMove(store: LocalStore, x: PassInput, ghost rows0: seq<ProposalRow>,
                    ghost recs0: seq<FileRecord>, ghost execs0: seq<ExecutionRecord>, i: nat,
                    proposals: seq<Proposal>, records: seq<ExecutionRecord>, executed: nat)
    returns (proposals': seq<Proposal>, records': seq<ExecutionRecord>, executed': nat)
    modifies store
    requires i < |x.proposals| && EffectAt(x, i) == Performed
    requires LoopState(x, i, proposals, records, executed) && StoreState(store, x, rows0, recs0, execs0, i)
    ensures LoopState(x, i + 1, proposals', records', executed') && StoreState(store, x, rows0, recs0, execs0, i + 1)
    ensures store.settings == old(store.settings) && store.watched == old(store.watched)
    ensures store.runs == old(store.runs) && store.runOrder == old(store.runOrder)
  {
    var p := proposals[i];
    assert p == x.proposals[i];
    MoveStep(x, rows0, recs0, execs0, i, proposals, records, executed,
             store.proposalRows, store.fileRecords, store.executions);
    var rec := SuccessRecord(x, p, |records|);
    records' := records + [rec];
    executed' := executed + 1;
    proposals' := proposals[i := p.(status := Some(Executed))];
    store.UpdateProposalStatus(p.proposalId, Executed);
    store.InsertExecution(rec);
    store.UpdateFilePath(p.fileId, p.after);
  }

  /** One iteration of the loop over the snapshot's proposals. */
  method Visit(store: LocalStore, fs: FileSystem, x: PassInput, ghost rows0: seq<ProposalRow>,
               ghost recs0: seq<FileRecord>, ghost execs0: seq<ExecutionRecord>, i: nat,
               proposals: seq<Proposal>, records: seq<ExecutionRecord>, executed: nat)
    returns (halted: bool, proposals': seq<Proposal>, records': seq<ExecutionRecord>, executed': nat)
    modifies store, fs
    requires i < |x.proposals|
    requires Tracks(store, fs, x, rows0, recs0, execs0, i, proposals, records, executed)
    ensures halted == CoreUpTo(x, i + 1).halted && fs.files == CoreUpTo(x, i + 1).files
    ensures StoreState(store, x, rows0, recs0, execs0, i + 1)
    ensures !halted ==> LoopState(x, i + 1, proposals', records', executed')
    ensures store.settings == old(store.settings) && store.watched == old(store.watched)
    ensures store.runs == old(store.runs) && store.runOrder == old(store.runOrder)
  {
    var p := proposals[i];
    assert p == x.proposals[i];
    if p.status != Some(Approved) {
      UnrecordedSnoc(x, Effects(x, i), Untouched, rows0, recs0);
      return false, proposals, records, executed;
    }
    halted, proposals', records', executed' := VisitApproved(store, fs, x, rows0, recs0, execs0, i, proposals, records, executed);
  }

  /** An approved proposal: refused, moved, or the `rename` that throws. */
  method VisitApproved(store: LocalStore, fs: FileSystem, x: PassInput, ghost rows0: seq<ProposalRow>,
                       ghost recs0: seq<FileRecord>, ghost execs0: seq<ExecutionRecord>, i: nat,
                       proposals: seq<Proposal>, records: seq<ExecutionRecord>, executed: nat)
    returns (halted: bool, proposals': seq<Proposal>, records': seq<ExecutionRecord>, executed': nat)
    modifies store, fs
    requires i < |x.proposals| && x.proposals[i].status == Some(Approved)
    requires Tracks(store, fs, x, rows0, recs0, execs0, i, proposals, records, executed)
    ensures halted == CoreUpTo(x, i + 1).halted && fs.files == CoreUpTo(x, i + 1).files
    ensures StoreState(store, x, rows0, recs0, execs0, i + 1)
    ensures !halted ==> LoopState(x, i + 1, proposals', records', executed')
    ensures store.settings == old(store.settings) && store.watched == old(store.watched)
    ensures store.runs == old(store.runs) && store.runOrder == old(store.runOrder)
  {
    var p := x.proposals[i];
    var refusal := Preflight(x.c, fs, p);
    if refusal.Some? {
      proposals', records' := RecordRefusal(store, x, rows0, recs0, execs0, i, proposals, records, executed, refusal.value);
      return false, proposals', records', executed;
    }
    halted, proposals', records', executed' := MoveApproved(store, fs, x, rows0, recs0, execs0, i, proposals, records, executed);
  }

  /** An approved proposal past the checks: `rename` throws or moves it. */
  method MoveApproved(store: LocalStore, fs: FileSystem, x: PassInput, ghost rows0: seq<ProposalRow>,
                      ghost recs0: seq<FileRecord>, ghost execs0: seq<ExecutionRecord>, i: nat,
                      proposals: seq<Proposal>, records: seq<ExecutionRecord>, executed: nat)
    returns (halted: bool, proposals': seq<Proposal>, records': seq<ExecutionRecord>, executed': nat)
    modifies store, fs
    requires i < |x.proposals| && EffectAt(x, i) in {Performed, Halt}
    requires Tracks(store, fs, x, rows0, recs0, execs0, i, proposals, records, executed)
    ensures halted == CoreUpTo(x, i + 1).halted && fs.files == CoreUpTo(x, i + 1).files
    ensures StoreState(store, x, rows0, recs0, execs0, i + 1)
    ensures !halted ==> LoopState(x, i + 1, proposals', records', executed')
    ensures store.settings == old(store.settings) && store.watched == old(store.watched)
    ensures store.runs == old(store.runs) && store.runOrder == old(store.runOrder)
  {
    var p := x.proposals[i];
    PastChecks(x, i);
    var ok := fs.Rename(p.before, p.after);
    if !ok {
      UnrecordedSnoc(x, Effects(x, i), Halt, rows0, recs0);
      return true, proposals, records, executed;
    }
    proposals', records', executed' := RecordMove(store, x, rows0, recs0, execs0, i, proposals, records, executed);
    return false, proposals', records', executed';
  }

  /** Past the checks, the pass's next state depends only on whether
      `rename` can succeed. */
  lemma PastChecks(x: PassInput, i: nat)
    requires i < |x.proposals| && EffectAt(x, i) in {Performed, Halt}
    ensures var c, p := CoreUpTo(x, i), x.proposals[i];
      var can := CanRename(c.files, p.before, p.after);
      && (EffectAt(x, i) == Performed <==> can)
      && CoreUpTo(x, i + 1).halted == !can
      && CoreUpTo(x, i + 1).files == if can then Moved(c.files, p.before, p.after) else c.files
  {
  }

  /** `executeApproved`. */
  method ExecuteApproved(store: LocalStore, fs: FileSystem, c: ExecContext, snapshot: RunSnapshot)
    returns (out: ExecOutcome)
    modifies store, fs
    requires store.Valid()
    ensures store.Valid()
    ensures snapshot.runSummary.dryRun ==>
      out == Blocked(DryRunExecutionBlocked) && unchanged(store) && unchanged(fs)
    ensures !snapshot.runSummary.dryRun ==>
      var x := InputOf(c, snapshot, old(fs.files));
      var n := |snapshot.proposals|;
      var es := Effects(x, n);
      var runId := snapshot.runSummary.runId;
      var next := CompletedSummary(snapshot.runSummary, c.now, ExecutedFor(es));
      fs.files == CoreUpTo(x, n).files
      && store.proposalRows == RowsFor(x.proposals, es, old(store.proposalRows))
      && store.fileRecords == FileRecsFor(x.proposals, es, old(store.fileRecords))
      && store.executions == old(store.executions) + RecordsFor(x, es)
      && (CoreUpTo(x, n).halted ==>
            (exists j :: 0 <= j < n && EffectAt(x, j).Halt? && out == RenameFailed(x.proposals[j].after))
            && store.runs == old(store.runs))
      && (!CoreUpTo(x, n).halted ==>
            out == Done(RunSnapshot(next, ProposalsFor(x.proposals, es)), RecordsFor(x, es))
            && store.runs == if runId in old(store.runs) then old(store.runs)[runId := next] else old(store.runs))
    ensures store.settings == old(store.settings) && store.watched == old(store.watched)
    ensures store.runOrder == old(store.runOrder)
    ensures out == PassOutcome(c, snapshot, old(fs.files))
    ensures TablesOf(store, fs) == ExecutedTables(c, snapshot, old(TablesOf(store, fs)))
  {
    if snapshot.runSummary.dryRun {
      return Blocked(DryRunExecutionBlocked);
    }
    var runId := snapshot.runSummary.runId;
    var x := InputOf(c, snapshot, fs.files);
    var halted, at, proposals, records, executed := ExecutePass(store, fs, x);
    if halted {
      HaltIndexUnique(x, at, |x.proposals|);
      return RenameFailed(x.proposals[at].after);
    }
    var next := CompletedSummary(snapshot.runSummary, c.now, executed);
    store.UpdateRunSummary(runId, next);
    return Done(RunSnapshot(next, proposals), records);
  }

  /** What the loop of `executeApproved` leaves, on values: the disk and the
      store's tables after every proposal's effect, whether `rename` threw,
      the proposal `at` it threw on, and otherwise the run's proposals,
      records and count. */
  ghost predicate PassResult(x: PassInput, rows0: seq<ProposalRow>, recs0: seq<FileRecord>,
                             execs0: seq<ExecutionRecord>, files: map<string, nat>, rows: seq<ProposalRow>,
                             recs: seq<FileRecord>, execs: seq<ExecutionRecord>, halted: bool, at: nat,
                             proposals: seq<Proposal>, records: seq<ExecutionRecord>, executed: nat)
  {
    var n := |x.proposals|;
    var es := Effects(x, n);
    && files == CoreUpTo(x, n).files
    && rows == RowsFor(x.proposals, es, rows0)
    && recs == FileRecsFor(x.proposals, es, recs0)
    && execs == execs0 + RecordsFor(x, es)
    && halted == CoreUpTo(x, n).halted
    && (halted ==> at < n && EffectAt(x, at).Halt?)
    && (!halted ==> proposals == ProposalsFor(x.proposals, es) && records == RecordsFor(x, es)
                    && executed == ExecutedFor(es))
  }

  /** The loop of `executeApproved`: every proposal in order until `rename`
      throws; `at` is the proposal it threw on. */
  method ExecutePass(store: LocalStore, fs: FileSystem, x: PassInput)
    returns (halted: bool, at: nat, proposals: seq<Proposal>, records: seq<ExecutionRecord>, executed: nat)
    modifies store, fs
    requires fs.files == x.files
    ensures PassResult(x, old(store.proposalRows), old(store.fileRecords), old(store.executions), fs.files,
                       store.proposalRows, store.fileRecords, store.executions, halted, at, proposals, records, executed)
    ensures store.settings == old(store.settings) && store.watched == old(store.watched)
    ensures store.runs == old(store.runs) && store.runOrder == old(store.runOrder)
  {
    ghost var rows0, recs0, execs0 := store.proposalRows, store.fileRecords, store.executions;
    proposals := x.proposals;
    records := [];
    executed := 0;
    var i := 0;
    assert Effects(x, 0) == [];
    while i < |x.proposals|
      invariant i <= |x.proposals|
      invariant Tracks(store, fs, x, rows0, recs0, execs0, i, proposals, records, executed)
      invariant store.settings == old(store.settings) && store.watched == old(store.watched)
      invariant store.runs == old(store.runs) && store.runOrder == old(store.runOrder)
    {
      halted, proposals, records, executed := Visit(store, fs, x, rows0, recs0, execs0, i, proposals, records, executed);
      if halted {
        HaltedPass(x, rows0, recs0, execs0, fs.files, store.proposalRows, store.fileRecords, store.executions,
                   i, proposals, records, executed);
        return true, i, proposals, records, executed;
      }
      i := i + 1;
    }
    return false, 0, proposals, records, executed;
  }

  /** The loop's exit where `rename` threw on proposal `i`. */
  lemma HaltedPass(x: PassInput, rows0: seq<ProposalRow>, recs0: seq<FileRecord>, execs0: seq<ExecutionRecord>,
                   files: map<string, nat>, rows: seq<ProposalRow>, recs: seq<FileRecord>,
                   execs: seq<ExecutionRecord>, i: nat,
                   proposals: seq<Proposal>, records: seq<ExecutionRecord>, executed: nat)
    requires i < |x.proposals| && !CoreUpTo(x, i).halted && CoreUpTo(x, i + 1).halted
    requires files == CoreUpTo(x, i + 1).files
    requires StoreHolds(rows, recs, execs, x, rows0, recs0, execs0, i + 1)
    ensures PassResult(x, rows0, recs0, execs0, files, rows, recs, execs, true, i, proposals, records, executed)
  {
    HaltFreezes(x, rows0, recs0, i + 1, |x.proposals|);
    assert EffectAt(x, i).Halt?;
  }

  /** Once `rename` has thrown, the later proposals change nothing. */
  lemma HaltFreezes(x: PassInput, rows: seq<ProposalRow>, recs: seq<FileRecord>, k: nat, n: nat)
    requires k <= n <= |x.proposals| && CoreUpTo(x, k).halted
    ensures CoreUpTo(x, n).halted && CoreUpTo(x, n).files == CoreUpTo(x, k).files
    ensures var a, b := Effects(x, k), Effects(x, n);
      RecordsFor(x, b) == RecordsFor(x, a) && ExecutedFor(b) == ExecutedFor(a)
      && RowsFor(x.proposals, b, rows) == RowsFor(x.proposals, a, rows)
      && FileRecsFor(x.proposals, b, recs) == FileRecsFor(x.proposals, a, recs)
  {
    HaltedFiles(x, k, n);
    HaltedEffects(x, k, n);
    FoldsSkipUntouched(x, Effects(x, k), n - k, rows, recs);
  }

  /** A halted pass takes one more proposal without a change. */
  lemma HaltedStep(x: PassInput, n: nat)
    requires 0 < n <= |x.proposals| && CoreUpTo(x, n - 1).halted
    ensures CoreUpTo(x, n).halted && CoreUpTo(x, n).files == CoreUpTo(x, n - 1).files
    ensures Effects(x, n) == Effects(x, n - 1) + [Untouched]
  {
  }

  lemma {:induction false} HaltedFiles(x: PassInput, k: nat, n: nat)
    requires k <= n <= |x.proposals| && CoreUpTo(x, k).halted
    ensures CoreUpTo(x, n).halted && CoreUpTo(x, n).files == CoreUpTo(x, k).files
    decreases n - k
  {
    if k < n {
      HaltedFiles(x, k, n - 1);
      HaltedStep(x, n);
    }
  }

  /** `m` proposals left untouched. */
  function Untoucheds(m: nat): (r: seq<Effect>)
    ensures |r| == m && forall i :: 0 <= i < m ==> r[i] == Untouched
  {
    seq(m, i => Untouched)
  }

  /** After `rename` has thrown, every later proposal is left untouched. */
  lemma {:induction false} HaltedEffects(x: PassInput, k: nat, n: nat)
    requires k <= n <= |x.proposals| && CoreUpTo(x, k).halted
    ensures Effects(x, n) == Effects(x, k) + Untoucheds(n - k)
    decreases n - k
  {
    if k < n {
      HaltedEffects(x, k, n - 1);
      HaltedFiles(x, k, n - 1);
      HaltedStep(x, n);
      assert Untoucheds(n - k) == Untoucheds(n - 1 - k) + [Untouched];
    }
  }

  /** Untouched proposals add nothing to any fold. */
  lemma {:induction false} FoldsSkipUntouched(x: PassInput, a: seq<Effect>, m: nat,
                                              rows: seq<ProposalRow>, recs: seq<FileRecord>)
    requires |a| + m <= |x.proposals|
    ensures var b := a + Untoucheds(m);
      RecordsFor(x, b) == RecordsFor(x, a) && ExecutedFor(b) == ExecutedFor(a)
      && RowsFor(x.proposals, b, rows) == RowsFor(x.proposals, a, rows)
      && FileRecsFor(x.proposals, b, recs) == FileRecsFor(x.proposals, a, recs)
  {
    if m > 0 {
      FoldsSkipUntouched(x, a, m - 1, rows, recs);
      var b := a + Untoucheds(m - 1);
      AppendUntouchedsSnoc(a, m - 1);
      UnrecordedSnoc(x, b, Untouched, rows, recs);
    } else {
      assert a + Untoucheds(0) == a;
    }
  }

  lemma UntouchedsSnoc(m: nat)
    ensures Untoucheds(m + 1) == Untoucheds(m) + [Untouched]
  {
  }

  lemma AppendUntouchedsSnoc(a: seq<Effect>, m: nat)
    ensures a + Untoucheds(m + 1) == (a + Untoucheds(m)) + [Untouched]
  {
    UntouchedsSnoc(m);
  }

  /** An effect that records nothing leaves every fold as it was. */
  lemma UnrecordedSnoc(x: PassInput, es: seq<Effect>, e: Effect, rows: seq<ProposalRow>, recs: seq<FileRecord>)
    requires |es| < |x.proposals| && (e == Untouched || e == Halt)
    ensures RecordsFor(x, es + [e]) == RecordsFor(x, es) && ExecutedFor(es + [e]) == ExecutedFor(es)
    ensures RowsFor(x.proposals, es + [e], rows) == RowsFor(x.proposals, es, rows)
    ensures FileRecsFor(x.proposals, es + [e], recs) == FileRecsFor(x.proposals, es, recs)
    ensures ProposalsFor(x.proposals, es + [e]) == ProposalsFor(x.proposals, es)
  {
    assert (es + [e])[..|es|] == es;
  }

  /** How each fold grows by a refusal. */
  lemma RefusedSnoc(x: PassInput, es: seq<Effect>, reason: string, rows: seq<ProposalRow>, recs: seq<FileRecord>)
    requires |es| < |x.proposals|
    ensures var p, es' := x.proposals[|es|], es + [Refused(reason)];
      RecordsFor(x, es') == RecordsFor(x, es) + [FailureRecord(x, p, reason, |RecordsFor(x, es)|)]
      && ExecutedFor(es') == ExecutedFor(es)
      && RowsFor(x.proposals, es', rows) == SetRowStatus(RowsFor(x.proposals, es, rows), p.proposalId, ExecutionFailed)
      && FileRecsFor(x.proposals, es', recs) == FileRecsFor(x.proposals, es, recs)
  {
    assert (es + [Refused(reason)])[..|es|] == es;
  }

  /** How each fold grows by a performed move. */
  lemma PerformedSnoc(x: PassInput, es: seq<Effect>, rows: seq<ProposalRow>, recs: seq<FileRecord>)
    requires |es| < |x.proposals|
    ensures var p, es' := x.proposals[|es|], es + [Performed];
      RecordsFor(x, es') == RecordsFor(x, es) + [SuccessRecord(x, p, |RecordsFor(x, es)|)]
      && ExecutedFor(es') == ExecutedFor(es) + 1
      && RowsFor(x.proposals, es', rows) == SetRowStatus(RowsFor(x.proposals, es, rows), p.proposalId, Executed)
      && FileRecsFor(x.proposals, es', recs) == MoveRecords(FileRecsFor(x.proposals, es, recs), p.fileId, p.after)
  {
    assert (es + [Performed])[..|es|] == es;
  }

  /** The snapshot's proposals grow by one effect at index `|es|`. */
  lemma ProposalsSnoc(ps: seq<Proposal>, es: seq<Effect>, e: Effect)
    requires |es| < |ps|
    ensures ProposalsFor(ps, es + [e]) == ProposalsFor(ps, es)[|es| := AfterStatus(ps[|es|], e)]
  {
  }

  // ---------------------------------------------------------------------
  // What the pass guarantees.

  /** Element `i` of the effects is the effect on proposal `i`. */
  lemma {:induction false} EffectsAt(x: PassInput, k: nat, i: nat)
    requires i < k <= |x.proposals|
    ensures Effects(x, k)[i] == EffectAt(x, i)
  {
    if i < k - 1 {
      EffectsAt(x, k - 1, i);
    }
  }

  /** The returned proposals: the same proposals in the same order with only
      their status changed; one that was not approved is unchanged; and,
      unless `rename` threw, every approved one is now executed or failed. */
  lemma ProposalsOutcome(x: PassInput)
    ensures var ps := ProposalsFor(x.proposals, Effects(x, |x.proposals|));
      (forall i :: 0 <= i < |ps| ==> ps[i].(status := x.proposals[i].status) == x.proposals[i])
      && (forall i :: 0 <= i < |ps| && x.proposals[i].status != Some(Approved) ==> ps[i] == x.proposals[i])
      && (!CoreUpTo(x, |x.proposals|).halted ==>
            forall i :: 0 <= i < |ps| && x.proposals[i].status == Some(Approved) ==>
              ps[i].status == Some(Executed) || ps[i].status == Some(ExecutionFailed))
  {
    UnapprovedUntouched(x);
    ApprovedAllSettled(x);
  }

  /** A proposal that was not approved comes back unchanged. */
  lemma UnapprovedUntouched(x: PassInput)
    ensures var ps := ProposalsFor(x.proposals, Effects(x, |x.proposals|));
      forall i :: 0 <= i < |ps| && x.proposals[i].status != Some(Approved) ==> ps[i] == x.proposals[i]
  {
    var n := |x.proposals|;
    var ps := ProposalsFor(x.proposals, Effects(x, n));
    forall i | 0 <= i < n && x.proposals[i].status != Some(Approved)
      ensures ps[i] == x.proposals[i]
    {
      EffectsAt(x, n, i);
    }
  }

  /** Unless `rename` threw, every approved proposal comes back executed or
      failed. */
  lemma ApprovedAllSettled(x: PassInput)
    ensures var ps := ProposalsFor(x.proposals, Effects(x, |x.proposals|));
      !CoreUpTo(x, |x.proposals|).halted ==>
        forall i :: 0 <= i < |ps| && x.proposals[i].status == Some(Approved) ==>
          ps[i].status == Some(Executed) || ps[i].status == Some(ExecutionFailed)
  {
    var n := |x.proposals|;
    var ps := ProposalsFor(x.proposals, Effects(x, n));
    forall i | 0 <= i < n && x.proposals[i].status == Some(Approved) && !CoreUpTo(x, n).halted
      ensures ps[i].status == Some(Executed) || ps[i].status == Some(ExecutionFailed)
    {
      ApprovedSettled(x, i);
    }
  }

  /** Unless `rename` threw, an approved proposal was refused or performed. */
  lemma ApprovedSettled(x: PassInput, i: nat)
    requires i < |x.proposals| && x.proposals[i].status == Some(Approved)
    requires !CoreUpTo(x, |x.proposals|).halted
    ensures Effects(x, |x.proposals|)[i].Refused? || Effects(x, |x.proposals|)[i].Performed?
  {
    var n := |x.proposals|;
    EffectsAt(x, n, i);
    if CoreUpTo(x, i).halted {
      HaltedFiles(x, i, n);
    }
    if EffectAt(x, i).Halt? {
      HaltedFiles(x, i + 1, n);
    }
  }

  predicate Succeeded(r: ExecutionRecord) { r.success }
  predicate IsApproved(p: Proposal) { p.status == Some(Approved) }

  lemma CountSnoc<T>(s: seq<T>, t: seq<T>, f: T -> bool)
    requires |t| <= 1
    ensures Count(s + t, f) == Count(s, f) + (if t != [] && f(t[0]) then 1 else 0)
  {
    FilterAppend(s, t, f);
    if t != [] {
      assert Filter(t, f) == (if f(t[0]) then [t[0]] else []) + Filter(t[1..], f);
    }
  }

  /** The `actionsExecuted` the summary gets is the number of successful records. */
  lemma {:induction false} ExecutedCountsSuccesses(x: PassInput, es: seq<Effect>)
    requires |es| <= |x.proposals|
    ensures ExecutedFor(es) == Count(RecordsFor(x, es), Succeeded)
  {
    if es == [] {
      assert Filter(RecordsFor(x, es), Succeeded) == [];
    } else {
      var init := es[..|es| - 1];
      ExecutedCountsSuccesses(x, init);
      var prev := RecordsFor(x, init);
      CountSnoc(prev, RecordsOf(x, x.proposals[|es| - 1], es[|es| - 1], |prev|), Succeeded);
    }
  }

  /** A proposal the pass reaches adds a record exactly when it is approved. */
  lemma RecordStepLength(x: PassInput, k: nat)
    requires 0 < k <= |x.proposals| && !CoreUpTo(x, k).halted
    ensures !CoreUpTo(x, k - 1).halted
    ensures |RecordsFor(x, Effects(x, k))| == |RecordsFor(x, Effects(x, k - 1))| + (if IsApproved(x.proposals[k - 1]) then 1 else 0)
  {
    var es, e := Effects(x, k - 1), EffectAt(x, k - 1);
    assert !CoreUpTo(x, k - 1).halted && !e.Halt?;
    assert Effects(x, k) == es + [e];
    assert (es + [e])[..|es|] == es;
  }

  lemma CountPrefixStep<T>(s: seq<T>, k: nat, f: T -> bool)
    requires 0 < k <= |s|
    ensures Count(s[..k], f) == Count(s[..k - 1], f) + (if f(s[k - 1]) then 1 else 0)
  {
    assert s[..k] == s[..k - 1] + [s[k - 1]];
    CountSnoc(s[..k - 1], [s[k - 1]], f);
  }

  /** Unless `rename` threw, every approved proposal gets exactly one record. */
  lemma {:induction false} OneRecordPerApproved(x: PassInput, k: nat)
    requires k <= |x.proposals|
    ensures !CoreUpTo(x, k).halted ==> |RecordsFor(x, Effects(x, k))| == Count(x.proposals[..k], IsApproved)
  {
    if k == 0 {
      assert Filter(x.proposals[..0], IsApproved) == [];
    } else if !CoreUpTo(x, k).halted {
      RecordStepLength(x, k);
      OneRecordPerApproved(x, k - 1);
      CountPrefixStep(x.proposals, k, IsApproved);
    }
  }

  /** Moves never overwrite: the pass neither creates nor loses a file. */
  lemma {:induction false} FileCountKept(x: PassInput, k: nat)
    requires k <= |x.proposals|
    ensures |CoreUpTo(x, k).files| == |x.files|
  {
    if k > 0 {
      FileCountKept(x, k - 1);
      var p := x.proposals[k - 1];
      var prev := CoreUpTo(x, k - 1).files;
      if EffectAt(x, k - 1).Performed? {
        MoveKeepsCount(prev, p.before, p.after);
      }
    }
  }

  /** No file sits at the empty path, before the pass or after it. */
  lemma {:induction false} NoEmptyPath(x: PassInput, k: nat)
    requires k <= |x.proposals| && "" !in x.files
    ensures "" !in CoreUpTo(x, k).files
  {
    if k > 0 {
      NoEmptyPath(x, k - 1);
    }
  }

  /** A performed move went to a path that did not exist, and the record it
      leaves names the move back, which (on a filesystem with no file at the
      empty path) restores the files as they were. */
  lemma PerformedIsUndoable(x: PassInput, i: nat)
    requires i < |x.proposals| && EffectAt(x, i).Performed?
    ensures var p := x.proposals[i];
      var before, after := CoreUpTo(x, i).files, CoreUpTo(x, i + 1).files;
      var prev := RecordsFor(x, Effects(x, i));
      var rec := SuccessRecord(x, p, |prev|);
      p.before in before && p.after !in before && after == Moved(before, p.before, p.after)
      && RecordsFor(x, Effects(x, i + 1)) == prev + [rec]
      && rec.success && rec.proposalId == p.proposalId
      && rec.rollbackJson == Some(Undo(UndoMoveBack, p.after, p.before))
      && ("" !in x.files ==> CanRename(after, p.after, p.before) && p.before !in after)
      && Moved(after, p.after, p.before) == before
  {
    var p := x.proposals[i];
    PerformedSnoc(x, Effects(x, i), [], []);
    MoveBackRestores(CoreUpTo(x, i).files, p.before, p.after);
    if "" !in x.files {
      NoEmptyPath(x, i);
    }
  }

  /** With the daemon's policy, a performed move never lands under a
      protected watched path, enabled or not, and lands either beside its
      source (a rename) or under one of the configured roots. */
  lemma PerformedRespectsPolicy(env: PathEnv, settings: LocalSettings, watched: seq<WatchedPathRecord>,
                                x: PassInput, i: nat)
    requires x.c == ServiceContext(env, settings, watched, x.c.newExecId, x.c.started, x.c.finished, x.c.now)
    requires i < |x.proposals| && EffectAt(x, i).Performed?
    ensures var p := x.proposals[i];
      var target := env.realPath(p.after);
      !InProtectedRoot(env, watched, target)
      && (SameDirRename(p.actionType, env.realPath(p.before), target) || InAllowedRoot(env, settings, target))
      && ScanDecision(env, watched, env.realPath(p.before)) == Allowed
  {
    var p := x.proposals[i];
    assert ValidateOperationPaths(env, settings, watched, p.actionType, p.before, p.after) == Allowed;
    ValidateOperationPathsSpec(env, settings, watched, p.actionType, p.before, p.after);
  }
}
