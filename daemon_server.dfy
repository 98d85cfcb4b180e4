// The decision layer of the daemon's HTTP server (local-daemon server.ts):
// allowed-action normalisation, the bootstrap and device status, the job
// an enqueue request builds, and the guard outcomes of the approve-execute,
// execute and rollback routes. Request bodies arrive already typed; the
// schema's remaining checks are predicates. The control-plane pushes
// (`mirrorApprovals`, `pushSnapshotToControl`, `enqueueJob`) are network
// calls and are not modelled.
module DaemonServer {
  import opened Wrappers
  import opened Strings
  import opened Contracts
  import opened RunStore
  import opened DaemonState
  import opened Disk
  import opened Execution
  import opened Rollback
  import Poller

  /** An error reply: status code, `error`, optional `message`. */
  datatype Reply = Reply(code: nat, error: string, message: Option<string>)

  /** A route's outcome: the success body, or the error reply. */
  datatype Response<T> = Ok(value: T) | Fail(reply: Reply)

  const InvalidRequest: Reply := Reply(400, "invalid_request", None)
  const RunNotFound: Reply := Reply(404, "not_found", Some("run not found"))

  // ---------------------------------------------------------------------
  // Allowed actions (server.ts:265-267)

  const DefaultAllowedActions: seq<AllowedAction> := [AllowRename, AllowMove, AllowArchive, AllowIndexOnly]

  /** `normalizeAllowedActions`: a non-empty list is kept as given; a
      missing or empty one becomes every action but duplicate grouping. */
  function NormalizeAllowedActions(input: Option<seq<AllowedAction>>): (r: seq<AllowedAction>)
    ensures r != []
    ensures input.Some? && input.value != [] ==> r == input.value
    ensures input.None? || input.value == [] ==> r == DefaultAllowedActions && AllowDuplicateGroup !in r
  {
    if input.Some? && |input.value| > 0 then input.value else DefaultAllowedActions
  }

  /** Normalising twice changes nothing. */
  lemma NormalizeIdempotent(input: Option<seq<AllowedAction>>)
    ensures NormalizeAllowedActions(Some(NormalizeAllowedActions(input))) == NormalizeAllowedActions(input)
  {
  }

  // ---------------------------------------------------------------------
  // Bootstrap and device status (server.ts:342-350, 438-445)

  /** `Boolean(x)` on an optional string: present and not empty. */
  predicate Truthy(s: Option<string>)
  {
    s.Some? && s.value != ""
  }

  datatype ControlConfig = ControlConfig(baseUrl: string, serviceToken: Option<string>)

  datatype BootstrapStatus = BootstrapStatus(
    configured: bool, controlApiUrl: string, hasServiceToken: bool, source: string, path: string)

  /** `getBootstrapStatus`: configured exactly when both the control API's
      address and the service token are non-empty. */
  function GetBootstrapStatus(config: ControlConfig, source: string, path: string): (r: BootstrapStatus)
    ensures r.configured <==> config.baseUrl != "" && r.hasServiceToken
    ensures r.hasServiceToken <==> config.serviceToken.Some? && config.serviceToken.value != ""
    ensures r.controlApiUrl == config.baseUrl && r.source == source && r.path == path
  {
    BootstrapStatus(config.baseUrl != "" && Truthy(config.serviceToken), config.baseUrl,
                    Truthy(config.serviceToken), source, path)
  }

  datatype DeviceStatus = DeviceStatus(paired: bool, deviceId: Option<string>, lastHeartbeatAt: Option<string>)

  /** `GET /api/device`: paired exactly when the device has the
      credentials the poll worker needs to run a tick. */
  function DeviceStatusOf(d: DeviceView): (r: DeviceStatus)
    ensures r.paired <==> Poller.HasCredentials(d)
    ensures r.deviceId == d.deviceId && r.lastHeartbeatAt == d.lastHeartbeatAt
  {
    DeviceStatus(Truthy(d.deviceId) && Truthy(d.deviceToken), d.deviceId, d.lastHeartbeatAt)
  }

  // ---------------------------------------------------------------------
  // Enqueue (server.ts:129-140, 596-632)

  const DefaultMaxFiles: int := 500
  const DefaultActorId: string := "local-app"

  datatype EnqueueBody = EnqueueBody(
    deviceId: Option<string>,
    dryRun: bool,
    pathKinds: seq<PathKind>,
    maxFiles: Option<int>,
    allowedActions: Option<seq<AllowedAction>>,
    actorId: Option<string>)

  /** `enqueueRunSchema`: at least one path kind, and a positive file cap
      when one is given. */
  predicate ValidEnqueueBody(b: EnqueueBody)
  {
    |b.pathKinds| >= 1 && (b.maxFiles.Some? ==> b.maxFiles.value > 0)
  }

  /** The device the job is for: the body's when it has one (even an empty
      one), the daemon's own otherwise. */
  function TargetDevice(b: EnqueueBody, stateDeviceId: Option<string>): Option<string>
  {
    if b.deviceId.Some? then b.deviceId else stateDeviceId
  }

  /** `POST /api/runs/enqueue` up to the network call: the job it builds,
      or the first refusal of: no service token, a malformed body, no
      device id. */
  function EnqueueJob(hasServiceToken: bool, body: EnqueueBody, stateDeviceId: Option<string>,
                      jobId: string, now: string): (r: Response<CleanupJob>)
    ensures !hasServiceToken ==> r == Fail(Reply(400, "missing_service_token", None))
    ensures hasServiceToken && !ValidEnqueueBody(body) ==> r == Fail(InvalidRequest)
    ensures hasServiceToken && ValidEnqueueBody(body) && !Truthy(TargetDevice(body, stateDeviceId)) ==>
      r == Fail(Reply(400, "missing_device_id", None))
    ensures r.Ok? <==> hasServiceToken && ValidEnqueueBody(body) && Truthy(TargetDevice(body, stateDeviceId))
    ensures r.Ok? ==>
      var job := r.value;
      && job.jobId == jobId && job.createdAt == now
      && Some(job.deviceId) == TargetDevice(body, stateDeviceId)
      && job.triggerType == Manual
      && job.scope == JobScope(None, Some(body.pathKinds), Some(body.maxFiles.GetOr(DefaultMaxFiles)), Some(false))
      && job.mode == JobMode(body.dryRun, NormalizeAllowedActions(body.allowedActions))
      && job.requestedBy == Actor(OpenClaw, body.actorId.GetOr(DefaultActorId))
  {
    if !hasServiceToken then Fail(Reply(400, "missing_service_token", None))
    else if !ValidEnqueueBody(body) then Fail(InvalidRequest)
    else
      var deviceId := if body.deviceId.Some? then body.deviceId else stateDeviceId;
      if deviceId.None? || deviceId.value == "" then Fail(Reply(400, "missing_device_id", None))
      else
        Ok(CleanupJob(jobId, deviceId.value, Manual,
                      JobScope(None, Some(body.pathKinds), Some(body.maxFiles.GetOr(DefaultMaxFiles)),
                               Some(false)),
                      JobMode(body.dryRun, NormalizeAllowedActions(body.allowedActions)),
                      Actor(OpenClaw, body.actorId.GetOr(DefaultActorId)),
                      now))
  }

  /** An enqueued job scans at least one kind of path, at most a positive
      number of files, and allows at least one action. */
  lemma EnqueuedJobWellFormed(hasServiceToken: bool, body: EnqueueBody, stateDeviceId: Option<string>,
                              jobId: string, now: string)
    requires EnqueueJob(hasServiceToken, body, stateDeviceId, jobId, now).Ok?
    ensures var job := EnqueueJob(hasServiceToken, body, stateDeviceId, jobId, now).value;
      && job.deviceId != ""
      && job.scope.pathKinds.Some? && |job.scope.pathKinds.value| >= 1
      && job.scope.maxFiles.Some? && job.scope.maxFiles.value > 0
      && job.mode.allowedActions != []
  {
  }

  // ---------------------------------------------------------------------
  // Execution replies (server.ts:675-689, 697-706)

  const DryRunBlockedReply: Reply :=
    Reply(400, DryRunExecutionBlocked, Some("Run is dry-run. Execution is blocked."))

  datatype ExecutionReply = ExecutionReply(runSummary: RunSummary, executionRecords: seq<ExecutionRecord>)

  /** The reply to an execution: the summary and records on success; an
      error whose text names the dry-run block is a 400, any other a 500
      carrying the error's text. */
  function ExecutionResponse(out: ExecOutcome): (r: Response<ExecutionReply>)
  {
    match out
    case Done(next, records) => Ok(ExecutionReply(next.runSummary, records))
    case Blocked(m) =>
      if Contains(m, DryRunExecutionBlocked) then Fail(DryRunBlockedReply)
      else Fail(Reply(500, "execution_failed", Some(m)))
    case RenameFailed(p) => Fail(Reply(500, "execution_failed", Some(p)))
  }

  /** The reply of the plain execute route: the new summary alone on
      success, and the same error replies as the approve-and-execute
      route otherwise. */
  function SummaryResponse(out: ExecOutcome): (r: Response<RunSummary>)
    ensures r.Ok? <==> out.Done?
    ensures out.Done? ==> r.value == out.nextSnapshot.runSummary
    ensures r.Fail? ==> r.reply == ExecutionResponse(out).reply
    ensures out == Blocked(DryRunExecutionBlocked) ==> r == Fail(DryRunBlockedReply)
  {
    match out
    case Done(next, _) => Ok(next.runSummary)
    case _ =>
      ExecutionResponseCodes(out);
      Fail(ExecutionResponse(out).reply)
  }

  /** A needle occurs in itself. */
  lemma ContainsSelf(s: string)
    ensures Contains(s, s)
  {
    assert OccursAt(s, s, 0);
  }

  /** The execution service's dry-run refusal becomes the 400 reply; a
      failed rename becomes a 500; only a completed pass succeeds, with the
      next summary. */
  lemma ExecutionResponseCodes(out: ExecOutcome)
    ensures out == Blocked(DryRunExecutionBlocked) ==> ExecutionResponse(out) == Fail(DryRunBlockedReply)
    ensures out.RenameFailed? ==> ExecutionResponse(out).Fail? && ExecutionResponse(out).reply.code == 500
    ensures ExecutionResponse(out).Ok? <==> out.Done?
    ensures out.Done? ==> ExecutionResponse(out).value.runSummary == out.nextSnapshot.runSummary
  {
    if out.Blocked? {
      ContainsSelf(out.message);
    }
  }

  // ---------------------------------------------------------------------
  // Rollback of one execution (server.ts:709-720)

  datatype RolledBack = RolledBack(runId: string, proposalId: Option<string>)

  const ExecutionNotFound: Reply := Reply(404, "not_found", Some("execution not found or rollback failed"))

  /** The reply to rolling back one execution: a 404 unless the rollback
      succeeded and names its run. */
  function RollbackExecutionResponse(result: RollbackResult): (r: Response<RolledBack>)
    ensures r.Ok? <==> result.ok && Truthy(result.runId)
    ensures r.Fail? ==> r.reply == ExecutionNotFound
    ensures r.Ok? ==> Some(r.value.runId) == result.runId && r.value.proposalId == result.proposalId
  {
    if !result.ok || result.runId.None? || result.runId.value == "" then Fail(ExecutionNotFound)
    else Ok(RolledBack(result.runId.value, result.proposalId))
  }

  // ---------------------------------------------------------------------
  // Stateful routes (server.ts:650-730)

  datatype ApproveBody = ApproveBody(approvals: seq<ApprovalDecision>, decidedBy: string, decidedAt: Option<string>)

  /** `approveExecuteSchema`: a non-empty deciding actor. */
  predicate ValidApproveBody(b: ApproveBody)
  {
    b.decidedBy != ""
  }

  /** The command the route applies. */
  function CommandOf(runId: string, b: ApproveBody, now: string): (cmd: ApprovalCommand)
    ensures cmd.runId == runId && cmd.approvals == b.approvals && cmd.decidedBy == b.decidedBy
    ensures cmd.decidedAt == b.decidedAt.GetOr(now)
  {
    ApprovalCommand(runId, b.approvals, b.decidedBy, if b.decidedAt.Some? then b.decidedAt.value else now)
  }

  /** The daemon state's runs after a successful execution replaced the
      run's snapshot; unchanged otherwise. */
  function AfterOutcome(runs: map<string, LocalRun>, runId: string, out: ExecOutcome): map<string, LocalRun>
  {
    if out.Done? && runId in runs then runs[runId := runs[runId].(snapshot := out.nextSnapshot)] else runs
  }

  /** The execution service's outcome for `snapshot` on the disk and store
      tables `t0`, and the tables `t1` it leaves: the dry-run refusal touching
      nothing, a failed rename after a halted pass, or the completed pass;
      the proposal rows, file records, execution records and the run's
      summary as the pass writes them. */
  predicate ExecutedAsSpecified(c: ExecContext, snapshot: RunSnapshot, t0: Tables, out: ExecOutcome, t1: Tables)
  {
    && out == PassOutcome(c, snapshot, t0.files)
    && t1 == ExecutedTables(c, snapshot, t0)
    && if snapshot.runSummary.dryRun then out == Blocked(DryRunExecutionBlocked) && t1 == t0
       else
         var x := InputOf(c, snapshot, t0.files);
         var n := |snapshot.proposals|;
         var es := Effects(x, n);
         && t1.files == CoreUpTo(x, n).files
         && t1.execs == t0.execs + RecordsFor(x, es)
         && (CoreUpTo(x, n).halted ==> out.RenameFailed? && t1.runs == t0.runs)
         && (!CoreUpTo(x, n).halted ==>
               out == Done(RunSnapshot(CompletedSummary(snapshot.runSummary, c.now, ExecutedFor(es)),
                                       ProposalsFor(x.proposals, es)), RecordsFor(x, es)))
  }

  /** Execute a snapshot and record a completed pass in the daemon state. */
  method ExecuteAndRecord(state: LocalDaemonState, store: LocalStore, fs: FileSystem, c: ExecContext,
                          runId: string, snapshot: RunSnapshot)
    returns (r: Response<ExecutionReply>, ghost out: ExecOutcome)
    requires state.Valid() && store.Valid()
    modifies state, store, fs
    ensures state.Valid() && store.Valid()
    ensures r == ExecutionResponse(out)
    ensures snapshot.runSummary.dryRun ==>
      out == Blocked(DryRunExecutionBlocked) && unchanged(store) && unchanged(fs)
    ensures ExecutedAsSpecified(c, snapshot, old(TablesOf(store, fs)), out, TablesOf(store, fs))
    ensures store.settings == old(store.settings) && store.watched == old(store.watched)
    ensures store.runOrder == old(store.runOrder)
    ensures state.runs == AfterOutcome(old(state.runs), runId, out)
    ensures state.deviceId == old(state.deviceId) && state.deviceToken == old(state.deviceToken)
  {
    var o := ExecuteApproved(store, fs, c, snapshot);
    out := o;
    if o.Done? {
      state.SetRunSnapshot(runId, o.nextSnapshot);
    }
    r := ExecutionResponse(o);
  }

  /** `POST /api/runs/:runId/approve-execute`: a malformed body is a 400
      and an unknown run a 404, both changing nothing; otherwise the
      decisions are applied to the daemon state and the store, and the
      execution service runs on the store's refreshed snapshot, which
      carries them. */
  method ApproveExecute(state: LocalDaemonState, store: LocalStore, fs: FileSystem, c: ExecContext,
                        runId: string, body: ApproveBody, now: string)
    returns (r: Response<ExecutionReply>, ghost executed: RunSnapshot, ghost out: ExecOutcome)
    requires state.Valid() && store.Valid()
    modifies state, store, fs
    ensures state.Valid() && store.Valid()
    ensures !ValidApproveBody(body) ==> r == Fail(InvalidRequest) && unchanged(state) && unchanged(store) && unchanged(fs)
    ensures ValidApproveBody(body) && runId !in old(store.runs) ==>
      r == Fail(RunNotFound) && unchanged(state) && unchanged(store) && unchanged(fs)
    ensures ValidApproveBody(body) && runId in old(store.runs) ==>
      var cmd := CommandOf(runId, body, now);
      var decided := if runId in old(state.runs)
                     then old(state.runs)[runId := Decided(old(state.runs)[runId], cmd.approvals)]
                     else old(state.runs);
      && executed == RunSnapshot(old(store.runs)[runId],
                                 ProposalsOfRows(RowsOfRun(ApplyDecisions(old(store.proposalRows), runId, body.approvals), runId)))
      && r == ExecutionResponse(out)
      && ExecutedAsSpecified(c, executed, old(TablesOf(store, fs)).(rows := ApplyDecisions(old(store.proposalRows), runId, body.approvals)),
                             out, TablesOf(store, fs))
      && store.settings == old(store.settings) && store.watched == old(store.watched)
      && store.runOrder == old(store.runOrder)
      && (executed.runSummary.dryRun ==> r == Fail(DryRunBlockedReply))
      && state.runs == AfterOutcome(decided, runId, out)
  {
    executed :| true;
    out := Blocked(DryRunExecutionBlocked);
    if !ValidApproveBody(body) {
      r := Fail(InvalidRequest);
      return;
    }
    var run := store.GetRunSnapshot(runId);
    if run.None? {
      r := Fail(RunNotFound);
      return;
    }
    var cmd := CommandOf(runId, body, now);
    state.ApplyApprovals(runId, cmd);
    store.ApplyApprovals(cmd);
    // Applying decisions never removes a run, so the second lookup of the
    // source always finds it.
    var refreshed := store.GetRunSnapshot(runId).value;
    executed := refreshed;
    r, out := ExecuteAndRecord(state, store, fs, c, runId, refreshed);
    ExecutionResponseCodes(out);
  }

  /** `POST /api/runs/:runId/execute`: an unknown run is a 404 changing
      nothing; otherwise the store's snapshot is executed as it stands and
      only the new summary is replied. */
  method ExecuteRun(state: LocalDaemonState, store: LocalStore, fs: FileSystem, c: ExecContext, runId: string)
    returns (r: Response<RunSummary>, ghost out: ExecOutcome)
    requires state.Valid() && store.Valid()
    modifies state, store, fs
    ensures state.Valid() && store.Valid()
    ensures runId !in old(store.runs) ==> r == Fail(RunNotFound) && unchanged(state) && unchanged(store) && unchanged(fs)
    ensures runId in old(store.runs) ==>
      && r == SummaryResponse(out)
      && ExecutedAsSpecified(c, old(store.GetRunSnapshot(runId)).value, old(TablesOf(store, fs)), out, TablesOf(store, fs))
      && store.settings == old(store.settings) && store.watched == old(store.watched)
      && store.runOrder == old(store.runOrder)
      && (old(store.runs)[runId].dryRun ==> r == Fail(DryRunBlockedReply) && unchanged(store) && unchanged(fs))
      && state.runs == AfterOutcome(old(state.runs), runId, out)
  {
    out := Blocked(DryRunExecutionBlocked);
    var snapshot := store.GetRunSnapshot(runId);
    if snapshot.None? {
      return Fail(RunNotFound), out;
    }
    var full;
    full, out := ExecuteAndRecord(state, store, fs, c, runId, snapshot.value);
    ExecutionResponseCodes(out);
    r := match full case Ok(reply) => Ok(reply.runSummary) case Fail(e) => Fail(e);
  }

  /** `POST /api/executions/:executionId/rollback`. */
  method RollbackExecutionRoute(store: LocalStore, fs: FileSystem, execId: string, started: string, finished: string,
                                executionId: string)
    returns (r: Response<RolledBack>)
    modifies store, fs
    ensures var found := old(store.GetExecution(executionId));
      !(found.Some? && found.value.success && HasUndo(found.value)) ==>
        r == Fail(ExecutionNotFound) && unchanged(store) && unchanged(fs)
    ensures var found := old(store.GetExecution(executionId));
      found.Some? && found.value.success && HasUndo(found.value) ==>
        var e := found.value;
        var ok := RollbackOk(old(fs.files), UndoOf(e));
        && r == (if ok && e.runId != "" then Ok(RolledBack(e.runId, Some(e.proposalId))) else Fail(ExecutionNotFound))
        && UndoneOnce(execId, started, finished, e, old(fs.files), old(store.proposalRows), old(store.fileRecords), old(store.executions),
                      fs.files, store.proposalRows, store.fileRecords, store.executions)
        && store.settings == old(store.settings) && store.watched == old(store.watched)
        && store.runs == old(store.runs) && store.runOrder == old(store.runOrder)
  {
    var result := RollbackExecution(store, fs, execId, started, finished, executionId);
    r := RollbackExecutionResponse(result);
  }

  /** `POST /api/runs/:runId/rollback`: an unknown run is a 404 changing
      nothing; otherwise the rollback service undoes the store's snapshot
      of the run, and the daemon state takes the snapshot it returns. */
  method RollbackRunRoute(state: LocalDaemonState, store: LocalStore, fs: FileSystem, newExecId: nat -> string,
                          started: nat -> string, finished: nat -> string, runId: string)
    returns (r: Response<RunSummary>, ghost next: RunSnapshot)
    requires state.Valid() && store.Valid()
    modifies state, store, fs
    ensures state.Valid() && store.Valid()
    ensures runId !in old(store.runs) ==> r == Fail(RunNotFound) && unchanged(state) && unchanged(store) && unchanged(fs)
    ensures runId in old(store.runs) ==>
      && r == Ok(next.runSummary)
      && state.runs == (if runId in old(state.runs) then old(state.runs)[runId := old(state.runs)[runId].(snapshot := next)]
                        else old(state.runs))
    ensures runId in old(store.runs) ==>
      var snap := old(store.GetRunSnapshot(runId)).value;
      var x := RunInput(newExecId, started, finished, snap.runSummary.runId, old(store.ListExecutionsByRun(snap.runSummary.runId)));
      var s := RbUpTo(x, InitialState(snap, old(fs.files), old(store.proposalRows), old(store.fileRecords)), |x.eligible|);
      && next == RunSnapshot(RolledBackSummary(snap.runSummary, s.remaining), s.proposals) && fs.files == s.files
      && TablesOf(store, fs) == RolledBackTables(newExecId, started, finished, snap, old(TablesOf(store, fs)))
      && store.settings == old(store.settings) && store.watched == old(store.watched)
      && store.runOrder == old(store.runOrder)
  {
    next :| true;
    var snapshot := store.GetRunSnapshot(runId);
    if snapshot.None? {
      r := Fail(RunNotFound);
      return;
    }
    var rolled := RollbackRun(store, fs, newExecId, started, finished, snapshot.value);
    next := rolled;
    state.SetRunSnapshot(runId, rolled);
    r := Ok(rolled.runSummary);
  }
}
