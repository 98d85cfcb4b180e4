// The daemon's poll worker (poller.ts): a timer-driven loop that sends a
// heartbeat, takes at most one new job, and then applies the commands the
// control plane holds for each run. The scan, the execution service and the
// rollback service are the modelled ones, sharing the worker's store and
// disk; the control plane and the planner's `proposeActions` are outside
// this module: what they return enters as parameters, and the clock readings
// are strings.
module Poller {
  import opened Wrappers
  import opened Ints
  import opened Strings
  import opened Contracts
  import opened RunStore
  import opened DaemonState
  import opened Disk
  import Execution
  import Rollback
  import Scan
  import Classification

  datatype Stage = Idle | HeartbeatStage | JobsStage | CommandsStage

  /** What `getStatus` reports. */
  datatype PollStatus = PollStatus(running: bool, acceptingJobs: bool, inTick: bool, stage: Stage,
                                   activeRunId: Option<string>)

  /** What `stopGraceful` resolves to. */
  datatype StopResult = StopResult(ok: bool, forced: bool, timeoutMs: int)

  const RetryDelayMs: int := 5000
  const DefaultPollMs: int := 3000
  const MinPollMs: int := 1000
  const DefaultStopTimeoutMs: int := 20_000

  // ---------------------------------------------------------------------
  // The tick's control flow.

  /** The device can poll once both its id and its token are non-empty. */
  predicate HasCredentials(d: DeviceView)
  {
    d.deviceId.Some? && d.deviceId.value != "" && d.deviceToken.Some? && d.deviceToken.value != ""
  }

  /** How a tick's remote calls went: the heartbeat reply's `pollAfterMs`
      (`None` for the whole field when the heartbeat threw), and whether
      the jobs stage or the commands stage threw. */
  datatype TickInput = TickInput(heartbeat: Option<Option<int>>, jobsThrow: bool, commandsThrow: bool)

  /** The stages a tick enters, in order. */
  function TickStages(credentials: bool, accepting: bool, t: TickInput): seq<Stage>
  {
    if !credentials || t.heartbeat.None? then [HeartbeatStage]
    else if accepting && t.jobsThrow then [HeartbeatStage, JobsStage]
    else if accepting then [HeartbeatStage, JobsStage, CommandsStage]
    else [HeartbeatStage, CommandsStage]
  }

  /** The delay of the timer a tick sets. */
  function TickDelay(credentials: bool, accepting: bool, t: TickInput): int
  {
    if !credentials || t.heartbeat.None? || (accepting && t.jobsThrow) || t.commandsThrow then RetryDelayMs
    else Max(MinPollMs, t.heartbeat.value.GetOr(DefaultPollMs))
  }

  /** Every tick starts with the heartbeat stage; jobs are taken only by a
      worker accepting them after a heartbeat got through, and the commands
      stage runs after every heartbeat that got through unless the jobs
      stage threw. */
  lemma TickStagesOrder(credentials: bool, accepting: bool, t: TickInput)
    ensures var ss := TickStages(credentials, accepting, t);
      && |ss| >= 1 && ss[0] == HeartbeatStage && Idle !in ss
      && (JobsStage in ss <==> credentials && t.heartbeat.Some? && accepting)
      && (CommandsStage in ss <==> credentials && t.heartbeat.Some? && !(accepting && t.jobsThrow))
  {
  }

  /** The next tick is never sooner than a second; any failure retries
      after five seconds; a clean tick follows the server's hint, three
      seconds without one. */
  lemma TickDelayBounds(credentials: bool, accepting: bool, t: TickInput)
    ensures var d := TickDelay(credentials, accepting, t);
      && d >= MinPollMs
      && (!credentials || t.heartbeat.None? || t.commandsThrow ==> d == RetryDelayMs)
      && (credentials && t.heartbeat == Some(None) && !t.commandsThrow && !(accepting && t.jobsThrow) ==> d == DefaultPollMs)
      && ((credentials && t.heartbeat.Some? && t.heartbeat.value.Some? && t.heartbeat.value.value >= MinPollMs
          && !t.commandsThrow && !(accepting && t.jobsThrow)) ==> d == t.heartbeat.value.value)
  {
  }

  // ---------------------------------------------------------------------
  // The jobs stage.

  /** What the control plane's `nextJob` returned. */
  datatype NextJob = NextJob(job: Option<CleanupJob>, runId: Option<string>)

  /** What the scan and the planner produced for a job: the number of
      watched paths in scope, the skip count, the number of classified
      files and the proposals. */
  datatype JobPlan = JobPlan(matchedWatchedPaths: nat, skippedForSafety: int, classifiedCount: int,
                             proposals: seq<Proposal>)

  /** The plan for a job from the store's watched paths and file records:
      `scanJobScope`, `classifyBatch` over its candidates, and the planner's
      `proposeActions` over the classified ones. */
  function ScannedPlan(cfg: Scan.ScanConfig, watched: seq<WatchedPathRecord>, recs: seq<FileRecord>, job: CleanupJob,
                       propose: seq<ScanCandidate> -> seq<Proposal>): JobPlan
  {
    var r := Scan.ScopeOutcome(cfg, watched, recs, job.scope);
    var classified := Classification.ClassifyBatch(r.candidates);
    JobPlan(|Scan.FilterWatched(watched, job.scope)|, r.skipped, |classified|, propose(classified))
  }

  const NoScopeError: string := "no_enabled_watched_paths_for_scope"
  const NoScopeStage: string := "scan_completed"
  const NoScopeMessage: string := "No enabled watched paths match requested scope."
  const AwaitingStage: string := "awaiting_approval"
  const AwaitingMessage: string := "Waiting for local user approvals"

  /** `appendProgress` on a record. */
  function Logged(r: LocalRun, now: string, stage: string, message: string): LocalRun
  {
    r.(progress := r.progress + [ProgressEntry(now, stage, message)])
  }

  function ScopeFailurePatch(now: string): SummaryPatch
  {
    NoPatch.(finishedAt := Some(Some(now)), filesScanned := Some(0), proposalsCreated := Some(0),
             actionsExecuted := Some(0), skippedForSafety := Some(0), errorMessage := Some(Some(NoScopeError)))
  }

  function PlanPatch(plan: JobPlan): SummaryPatch
  {
    NoPatch.(filesScanned := Some(plan.classifiedCount), proposalsCreated := Some(|plan.proposals|),
             skippedForSafety := Some(plan.skippedForSafety))
  }

  /** The failure recorded when no watched path is in scope. */
  function NoScopeRun(r: LocalRun, now: string): LocalRun
  {
    Logged(WithStatus(r, Failed, ScopeFailurePatch(now)), now, NoScopeStage, NoScopeMessage)
  }

  /** The planned proposals seeded, the counters set, approval awaited. */
  function PlannedRun(r: LocalRun, plan: JobPlan, now: string): LocalRun
  {
    Logged(WithStatus(Seeded(r, plan.proposals, Some(plan.classifiedCount), Some(plan.skippedForSafety)),
                      AwaitingApproval, PlanPatch(plan)), now, AwaitingStage, AwaitingMessage)
  }

  /** The record `processIncomingJob` leaves for a new job: failed with
      every counter zero when no watched path is in scope, otherwise
      awaiting approval of the planned proposals; one progress entry either
      way. */
  function IncomingRun(runId: string, job: CleanupJob, plan: JobPlan, now: string): (r: LocalRun)
    ensures r.job == job && |r.progress| == 1 && r.progress[0].at == now
    ensures var s := r.snapshot.runSummary;
      && s.runId == runId && s.jobId == job.jobId && s.deviceId == job.deviceId
      && s.startedAt == now && s.dryRun == job.mode.dryRun
      && s.actionsExecuted == 0 && s.duplicatesFound == 0 && s.bytesRecoveredEstimate == 0
    ensures var s := r.snapshot.runSummary; plan.matchedWatchedPaths == 0 ==>
      && s.status == Failed && s.errorMessage == Some(NoScopeError) && s.finishedAt == Some(now)
      && s.filesScanned == 0 && s.proposalsCreated == 0 && s.skippedForSafety == 0
      && r.snapshot.proposals == [] && r.progress[0].stage == NoScopeStage
    ensures var s := r.snapshot.runSummary; plan.matchedWatchedPaths != 0 ==>
      && s.status == AwaitingApproval && s.errorMessage.None? && s.finishedAt.None?
      && s.filesScanned == plan.classifiedCount && s.proposalsCreated == |plan.proposals|
      && s.skippedForSafety == plan.skippedForSafety
      && r.snapshot.proposals == plan.proposals && r.progress[0].stage == AwaitingStage
  {
    var created := NewRun(runId, job, now);
    if plan.matchedWatchedPaths == 0 then NoScopeRun(created, now) else PlannedRun(created, plan, now)
  }

  // ---------------------------------------------------------------------
  // The commands stage, on the run records together with the disk and the
  // store's tables.

  /** What `fetchRunCommands` returned for a run. */
  datatype RunCommands = RunCommands(approvals: Option<ApprovalCommand>, execute: Option<ExecuteCommand>,
                                     rollback: Option<RollbackCommand>)

  /** What the services need for one run besides the disk and the store:
      the execution service's context (path policy, execution ids, clock
      readings), the text `String(error)` gives for a `rename` that threw on
      a target path, the rollback service's execution ids and clock
      readings, and the reading `markRunFailed` stamps. */
  datatype RunServices = RunServices(exec: Execution.ExecContext, renameError: string -> string,
                                     rbExecId: nat -> string, rbStarted: nat -> string, rbFinished: nat -> string,
                                     failedAt: string)

  /** The run records, and the disk and the store's tables the stage and
      the services write. */
  datatype World = World(runs: map<string, LocalRun>, t: Execution.Tables)

  const ApprovalsStage: string := "approvals_applied"
  const ApprovalsMessage: string := "Local approvals applied"
  const StartedStage: string := "execution_started"
  const StartedMessage: string := "Executing approved proposals"
  const CompletedStage: string := "execution_completed"
  const CompletedMessage: string := "Execution finished"
  const DryRunBlocked: string := "dry_run_execution_blocked"
  const BlockedStage: string := "execution_blocked"
  const BlockedMessage: string := "Execution blocked because run is dry-run."
  const RolledBackStage: string := "rollback_completed"
  const RolledBackMessage: string := "Rollback completed"

  /** `updateRunSummary` on the store's summaries: an unknown run is left out. */
  function Put(m: map<string, RunSummary>, id: string, s: RunSummary): (r: map<string, RunSummary>)
    ensures r.Keys == m.Keys
  {
    if id in m then m[id := s] else m
  }

  /** `markRunFailed` on the store's summaries, stamped with its own clock
      reading `at`. */
  function MarkedFailed(m: map<string, RunSummary>, id: string, message: string, at: string): (r: map<string, RunSummary>)
    ensures r.Keys == m.Keys
  {
    if id in m then m[id := m[id].(status := Failed, errorMessage := Some(message), finishedAt := Some(at))] else m
  }

  function FailurePatch(now: string, message: string): SummaryPatch
  {
    NoPatch.(finishedAt := Some(Some(now)), errorMessage := Some(Some(message)))
  }

  /** `String(error)` for what the execution service threw: an `Error`
      prints as "Error: " and its message. */
  function ThrownText(out: Execution.ExecOutcome, renameError: string -> string): string
  {
    match out
    case Blocked(m) => "Error: " + m
    case RenameFailed(p) => renameError(p)
    case Done(_, _) => ""
  }

  /** The dry-run refusal's text names the block the poller looks for. */
  lemma BlockedTextNamesBlock(renameError: string -> string)
    ensures Contains(ThrownText(Execution.Blocked(Execution.DryRunExecutionBlocked), renameError), DryRunBlocked)
  {
    assert OccursAt("Error: " + Execution.DryRunExecutionBlocked, DryRunBlocked, 7);
  }

  predicate ApprovalsApply(r: LocalRun, c: RunCommands)
  {
    c.approvals.Some? && r.snapshot.runSummary.status == AwaitingApproval
  }

  predicate ExecuteApplies(r: LocalRun, c: RunCommands)
  {
    c.execute.Some? && r.snapshot.runSummary.status == ReadyToExecute
  }

  predicate RollbackApplies(r: LocalRun, c: RunCommands)
  {
    c.rollback.Some? && r.snapshot.runSummary.actionsExecuted > 0
  }

  /** The record once execution has started. */
  function Started(r: LocalRun, now: string): LocalRun
  {
    WithStatus(Logged(r, now, StartedStage, StartedMessage), Executing, NoPatch)
  }

  /** Approvals are taken only by a run awaiting them: its proposals are
      decided, it is ready to execute, the store gets the same summary and
      the decisions, and one entry is logged. */
  function ApprovalsPhase(w: World, id: string, c: RunCommands, now: string): (n: World)
    ensures n.runs.Keys == w.runs.Keys && n.t.runs.Keys == w.t.runs.Keys
    ensures !(id in w.runs && ApprovalsApply(w.runs[id], c)) ==> n == w
    ensures id in w.runs && ApprovalsApply(w.runs[id], c) ==>
      var r := w.runs[id]; var m := n.runs[id]; var cmd := c.approvals.value;
      && n.runs == w.runs[id := m]
      && m.job == r.job && m.progress == r.progress + [ProgressEntry(now, ApprovalsStage, ApprovalsMessage)]
      && m.snapshot.runSummary == r.snapshot.runSummary.(status := ReadyToExecute)
      && m.snapshot.proposals == DecideAll(r.snapshot.proposals, cmd.approvals)
      && n.t == w.t.(runs := Put(w.t.runs, id, m.snapshot.runSummary),
                     rows := ApplyDecisions(w.t.rows, cmd.runId, cmd.approvals))
  {
    if id in w.runs && ApprovalsApply(w.runs[id], c) then
      var cmd := c.approvals.value;
      var d := Decided(w.runs[id], cmd.approvals);
      World(w.runs[id := Logged(d, now, ApprovalsStage, ApprovalsMessage)],
            w.t.(runs := Put(w.t.runs, id, d.snapshot.runSummary), rows := ApplyDecisions(w.t.rows, cmd.runId, cmd.approvals)))
    else w
  }

  /** The run marked executing, in memory and in the store. */
  function StartedWorld(w: World, id: string, now: string): World
    requires id in w.runs
  {
    var s := Started(w.runs[id], now);
    World(w.runs[id := s], w.t.(runs := Put(w.t.runs, id, s.snapshot.runSummary)))
  }

  /** What the poller does with the execution service's outcome: the
      returned snapshot replaces the run's; an error whose text names the
      dry-run block puts the run back to ready in memory and in the store;
      any other error fails the run in memory and marks it failed in the
      store. */
  function Finished(w: World, id: string, out: Execution.ExecOutcome, v: RunServices, now: string): World
    requires id in w.runs
  {
    var s := w.runs[id];
    if out.Done? then
      World(w.runs[id := Logged(s.(snapshot := out.nextSnapshot), now, CompletedStage, CompletedMessage)], w.t)
    else
      var msg := ThrownText(out, v.renameError);
      if Contains(msg, DryRunBlocked) then
        var b := WithStatus(Logged(s, now, BlockedStage, BlockedMessage), ReadyToExecute, NoPatch);
        World(w.runs[id := b], w.t.(runs := Put(w.t.runs, id, b.snapshot.runSummary)))
      else
        World(w.runs[id := WithStatus(s, Failed, FailurePatch(now, msg))],
              w.t.(runs := MarkedFailed(w.t.runs, id, msg, v.failedAt)))
  }

  /** The poller's reaction writes only the run's record and the stored
      summaries, keeps the run's job and appends to its log. */
  lemma FinishedFrame(w: World, id: string, out: Execution.ExecOutcome, v: RunServices, now: string)
    requires id in w.runs
    ensures var n := Finished(w, id, out, v, now);
      && n.runs == w.runs[id := n.runs[id]] && n.runs[id].job == w.runs[id].job
      && |n.runs[id].progress| >= |w.runs[id].progress| && n.runs[id].progress[..|w.runs[id].progress|] == w.runs[id].progress
      && n.t == w.t.(runs := n.t.runs) && n.t.runs.Keys == w.t.runs.Keys
  {
    var n := Finished(w, id, out, v, now);
    assert n.runs[id].progress[..|w.runs[id].progress|] == w.runs[id].progress;
  }

  /** What the execution service returns for the started run. */
  function OutcomeOf(w: World, id: string, services: string -> RunServices, now: string): Execution.ExecOutcome
    requires id in w.runs
  {
    Execution.PassOutcome(services(id).exec, Started(w.runs[id], now).snapshot, w.t.files)
  }

  /** A started run executed: the start logged first, then the execution
      service run on the started snapshot, writing the disk, the proposal
      rows, the file records and the execution records as it specifies. */
  function ExecutedWorld(w: World, id: string, services: string -> RunServices, now: string): (n: World)
    requires id in w.runs
    ensures n.runs.Keys == w.runs.Keys && n.t.runs.Keys == w.t.runs.Keys
    ensures var r := w.runs[id]; var m := n.runs[id];
      var e := Execution.ExecutedTables(services(id).exec, Started(r, now).snapshot, w.t);
      && n.runs == w.runs[id := m] && m.job == r.job
      && |m.progress| > |r.progress| && m.progress[..|r.progress| + 1] == r.progress + [ProgressEntry(now, StartedStage, StartedMessage)]
      && n.t.files == e.files && n.t.rows == e.rows && n.t.recs == e.recs && n.t.execs == e.execs
  {
    var st := StartedWorld(w, id, now);
    var v := services(id);
    var snap := st.runs[id].snapshot;
    var e := Execution.ExecutedTables(v.exec, snap, st.t);
    var out := Execution.PassOutcome(v.exec, snap, st.t.files);
    Execution.ExecutedTablesFrame(v.exec, snap, st.t, w.t);
    FinishedFrame(World(st.runs, e), id, out, v, now);
    var n := Finished(World(st.runs, e), id, out, v, now);
    var r := w.runs[id];
    assert n.runs[id].progress[..|r.progress| + 1] == r.progress + [ProgressEntry(now, StartedStage, StartedMessage)] by {
      assert n.runs[id].progress[..|r.progress| + 1] == n.runs[id].progress[..|st.runs[id].progress|][..|r.progress| + 1];
    }
    n
  }

  /** Execution is started only for a run ready to execute. */
  function ExecutePhase(w: World, id: string, c: RunCommands, services: string -> RunServices, now: string): (n: World)
    ensures n.runs.Keys == w.runs.Keys && n.t.runs.Keys == w.t.runs.Keys
    ensures !(id in w.runs && ExecuteApplies(w.runs[id], c)) ==> n == w
    ensures id in w.runs && ExecuteApplies(w.runs[id], c) ==> n == ExecutedWorld(w, id, services, now)
  {
    if id in w.runs && ExecuteApplies(w.runs[id], c) then ExecutedWorld(w, id, services, now) else w
  }

  /** The execution service's snapshot replaces the run's on success, and
      the store holds the same summary; a dry run touches neither the disk
      nor the tables and is put back as it was before the start, apart from
      its log; any other error fails the run with the message in memory and
      in the store, each stamped with its own clock reading. */
  lemma ExecutePhaseOutcome(w: World, id: string, c: RunCommands, services: string -> RunServices, now: string)
    requires id in w.runs && ExecuteApplies(w.runs[id], c)
    ensures var out := OutcomeOf(w, id, services, now); var n := ExecutePhase(w, id, c, services, now);
      var r := w.runs[id].snapshot; var s := n.runs[id].snapshot;
      && (out.Done? ==> s == out.nextSnapshot)
      && (out.Done? && r.runSummary.runId == id && id in w.t.runs ==> n.t.runs[id] == s.runSummary)
      && (r.runSummary.dryRun ==>
            && out == Execution.Blocked(Execution.DryRunExecutionBlocked) && s == r
            && n.t.files == w.t.files && n.t.rows == w.t.rows && n.t.recs == w.t.recs && n.t.execs == w.t.execs)
      && (!out.Done? ==> s.proposals == r.proposals)
      && (!out.Done? && Contains(ThrownText(out, services(id).renameError), DryRunBlocked) ==> s.runSummary == r.runSummary)
      && (!out.Done? && !Contains(ThrownText(out, services(id).renameError), DryRunBlocked) ==>
            var msg := ThrownText(out, services(id).renameError);
            && s.runSummary == r.runSummary.(status := Failed, finishedAt := Some(now), errorMessage := Some(msg))
            && (id in w.t.runs ==> n.t.runs[id] == s.runSummary.(finishedAt := Some(services(id).failedAt))))
  {
    var out := OutcomeOf(w, id, services, now);
    if w.runs[id].snapshot.runSummary.dryRun {
      BlockedTextNamesBlock(services(id).renameError);
    }
  }

  /** A rollback is taken only by a run with executed actions: the rollback
      service undoes the run's snapshot on the disk and in the store's
      tables, its snapshot replaces the run's, and one entry is logged. */
  function RollbackPhase(w: World, id: string, c: RunCommands, services: string -> RunServices, now: string): (n: World)
    ensures n.runs.Keys == w.runs.Keys && n.t.runs.Keys == w.t.runs.Keys
    ensures !(id in w.runs && RollbackApplies(w.runs[id], c)) ==> n == w
    ensures id in w.runs && RollbackApplies(w.runs[id], c) ==>
      var r := w.runs[id]; var v := services(id);
      && n.runs == w.runs[id := n.runs[id]] && n.runs[id].job == r.job
      && n.runs[id].snapshot == Rollback.RolledBackSnapshot(v.rbExecId, v.rbStarted, v.rbFinished, r.snapshot, w.t)
      && n.runs[id].progress == r.progress + [ProgressEntry(now, RolledBackStage, RolledBackMessage)]
      && n.t == Rollback.RolledBackTables(v.rbExecId, v.rbStarted, v.rbFinished, r.snapshot, w.t)
  {
    if id in w.runs && RollbackApplies(w.runs[id], c) then
      var r := w.runs[id];
      var v := services(id);
      var next := Rollback.RolledBackSnapshot(v.rbExecId, v.rbStarted, v.rbFinished, r.snapshot, w.t);
      World(w.runs[id := Logged(r.(snapshot := next), now, RolledBackStage, RolledBackMessage)],
            Rollback.RolledBackTables(v.rbExecId, v.rbStarted, v.rbFinished, r.snapshot, w.t))
    else w
  }

  /** After a rollback the store holds the summary the run record holds. */
  lemma RollbackPhaseMirrors(w: World, id: string, c: RunCommands, services: string -> RunServices, now: string)
    requires id in w.runs && RollbackApplies(w.runs[id], c)
    requires w.runs[id].snapshot.runSummary.runId == id && id in w.t.runs
    ensures var n := RollbackPhase(w, id, c, services, now); n.t.runs[id] == n.runs[id].snapshot.runSummary
  {
  }

  /** One run's pass: approvals, then execution, then rollback, each gated
      on the record as the previous phase left it. */
  function CommandsStep(w: World, id: string, c: RunCommands, services: string -> RunServices, now: string): World
  {
    RollbackPhase(ExecutePhase(ApprovalsPhase(w, id, c, now), id, c, services, now), id, c, services, now)
  }

  /** Because each phase sees the previous phase's record, approvals and an
      execute command held together are both carried out in one pass. */
  lemma ApprovedRunExecutesInSamePass(w: World, id: string, c: RunCommands, now: string)
    requires id in w.runs && ApprovalsApply(w.runs[id], c) && c.execute.Some?
    ensures ExecuteApplies(ApprovalsPhase(w, id, c, now).runs[id], c)
  {
  }

  /** The runs the commands stage visits: the listed runs that belong to a
      device, by their summaries' run ids, in listing order. */
  function ProcessedIds(rs: seq<LocalRun>): (ids: seq<string>)
    ensures |ids| <= |rs|
    ensures forall id :: id in ids ==> exists i :: 0 <= i < |rs| && rs[i].job.deviceId != "" && rs[i].snapshot.runSummary.runId == id
  {
    if rs == [] then []
    else
      var last := rs[|rs| - 1];
      var ids := ProcessedIds(rs[..|rs| - 1]);
      assert forall id :: id in ids ==> exists i :: 0 <= i < |rs| && rs[i].job.deviceId != "" && rs[i].snapshot.runSummary.runId == id by {
        forall id | id in ids
          ensures exists i :: 0 <= i < |rs| && rs[i].job.deviceId != "" && rs[i].snapshot.runSummary.runId == id
        {
          var i :| 0 <= i < |rs| - 1 && rs[..|rs| - 1][i].job.deviceId != "" && rs[..|rs| - 1][i].snapshot.runSummary.runId == id;
          assert rs[i] == rs[..|rs| - 1][i];
        }
      }
      ids + (if last.job.deviceId != "" then [last.snapshot.runSummary.runId] else [])
  }

  /** The whole commands stage over the visited run ids. */
  function CommandsOver(w: World, ids: seq<string>, fetch: string -> RunCommands, services: string -> RunServices,
                        now: string): World
  {
    if ids == [] then w
    else
      var id := ids[|ids| - 1];
      CommandsStep(CommandsOver(w, ids[..|ids| - 1], fetch, services, now), id, fetch(id), services, now)
  }

  /** The log of a run only grows, and its job never changes. */
  predicate Extends(before: LocalRun, after: LocalRun)
  {
    after.job == before.job && |before.progress| <= |after.progress| && after.progress[..|before.progress|] == before.progress
  }

  /** Every run and every stored summary is kept, no proposal row is added
      or dropped, the execution records are only appended to, and every
      run keeps its job and only appends to its log. */
  predicate ExtendsAll(w: World, n: World)
  {
    && n.runs.Keys == w.runs.Keys && n.t.runs.Keys == w.t.runs.Keys && |n.t.rows| == |w.t.rows|
    && |w.t.execs| <= |n.t.execs| && n.t.execs[..|w.t.execs|] == w.t.execs
    && forall id :: id in w.runs ==> Extends(w.runs[id], n.runs[id])
  }

  lemma ExtendsTrans(a: LocalRun, b: LocalRun, c: LocalRun)
    requires Extends(a, b) && Extends(b, c)
    ensures Extends(a, c)
  {
    assert c.progress[..|b.progress|][..|a.progress|] == c.progress[..|a.progress|];
  }

  lemma ExtendsAllTrans(a: World, b: World, c: World)
    requires ExtendsAll(a, b) && ExtendsAll(b, c)
    ensures ExtendsAll(a, c)
  {
    assert c.t.execs[..|b.t.execs|][..|a.t.execs|] == c.t.execs[..|a.t.execs|];
    forall k | k in a.runs
      ensures Extends(a.runs[k], c.runs[k])
    {
      ExtendsTrans(a.runs[k], b.runs[k], c.runs[k]);
    }
  }

  lemma ExtendsSelf(w: World)
    ensures ExtendsAll(w, w)
  {
    assert w.t.execs[..|w.t.execs|] == w.t.execs;
    forall k | k in w.runs
      ensures Extends(w.runs[k], w.runs[k])
    {
      assert w.runs[k].progress[..|w.runs[k].progress|] == w.runs[k].progress;
    }
  }

  lemma ApprovalsPhaseExtends(w: World, id: string, c: RunCommands, now: string)
    ensures ExtendsAll(w, ApprovalsPhase(w, id, c, now))
  {
    var n := ApprovalsPhase(w, id, c, now);
    if id in w.runs && ApprovalsApply(w.runs[id], c) {
      assert n.runs[id].progress[..|w.runs[id].progress|] == w.runs[id].progress;
      assert n.t.execs[..|w.t.execs|] == w.t.execs;
    } else {
      ExtendsSelf(w);
    }
  }

  lemma ExecutePhaseExtends(w: World, id: string, c: RunCommands, services: string -> RunServices, now: string)
    ensures ExtendsAll(w, ExecutePhase(w, id, c, services, now))
  {
    var n := ExecutePhase(w, id, c, services, now);
    if id in w.runs && ExecuteApplies(w.runs[id], c) {
      var snap := Started(w.runs[id], now).snapshot;
      var x := Execution.InputOf(services(id).exec, snap, w.t.files);
      if !snap.runSummary.dryRun {
        Execution.RowsForLength(x.proposals, Execution.Effects(x, |x.proposals|), w.t.rows);
      }
      assert n.t.execs[..|w.t.execs|] == w.t.execs;
      assert n.runs[id].progress[..|w.runs[id].progress| + 1][..|w.runs[id].progress|] == w.runs[id].progress;
    } else {
      ExtendsSelf(w);
    }
  }

  lemma RollbackPhaseExtends(w: World, id: string, c: RunCommands, services: string -> RunServices, now: string)
    ensures ExtendsAll(w, RollbackPhase(w, id, c, services, now))
  {
    var n := RollbackPhase(w, id, c, services, now);
    if id in w.runs && RollbackApplies(w.runs[id], c) {
      var v := services(id);
      var snap := w.runs[id].snapshot;
      var runId := snap.runSummary.runId;
      var x := Rollback.RunInput(v.rbExecId, v.rbStarted, v.rbFinished, runId, ExecutionsOfRun(w.t.execs, runId));
      Rollback.RbRowsLength(x, Rollback.InitialState(snap, w.t.files, w.t.rows, w.t.recs), |x.eligible|);
      assert n.t.execs[..|w.t.execs|] == w.t.execs;
      assert n.runs[id].progress[..|w.runs[id].progress|] == w.runs[id].progress;
    } else {
      ExtendsSelf(w);
    }
  }

  /** One run's pass keeps every run, every summary and every row, keeps
      every job, only appends to the logs and to the execution records. */
  lemma CommandsStepExtends(w: World, id: string, c: RunCommands, services: string -> RunServices, now: string)
    ensures ExtendsAll(w, CommandsStep(w, id, c, services, now))
  {
    var a := ApprovalsPhase(w, id, c, now);
    var b := ExecutePhase(a, id, c, services, now);
    ApprovalsPhaseExtends(w, id, c, now);
    ExecutePhaseExtends(a, id, c, services, now);
    RollbackPhaseExtends(b, id, c, services, now);
    ExtendsAllTrans(w, a, b);
    ExtendsAllTrans(w, b, CommandsStep(w, id, c, services, now));
  }

  /** Taking one more listed run adds at most its id to the visited ones. */
  lemma CommandsOverNext(w: World, rs: seq<LocalRun>, i: nat, fetch: string -> RunCommands,
                         services: string -> RunServices, now: string)
    requires i < |rs|
    ensures CommandsOver(w, ProcessedIds(rs[..i + 1]), fetch, services, now)
      == if rs[i].job.deviceId != "" then
           var id := rs[i].snapshot.runSummary.runId;
           CommandsStep(CommandsOver(w, ProcessedIds(rs[..i]), fetch, services, now), id, fetch(id), services, now)
         else CommandsOver(w, ProcessedIds(rs[..i]), fetch, services, now)
  {
    assert rs[..i + 1][..i] == rs[..i];
    var ids := ProcessedIds(rs[..i]);
    if rs[i].job.deviceId != "" {
      assert (ids + [rs[i].snapshot.runSummary.runId])[..|ids|] == ids;
    } else {
      assert ids + [] == ids;
    }
  }

  /** The whole commands stage keeps every run, every summary and every
      row, keeps every job, only appends to the logs and to the execution
      records. */
  lemma {:induction false} CommandsOverExtends(w: World, ids: seq<string>, fetch: string -> RunCommands,
                                               services: string -> RunServices, now: string)
    ensures ExtendsAll(w, CommandsOver(w, ids, fetch, services, now))
  {
    if ids == [] {
      ExtendsSelf(w);
    } else {
      var id := ids[|ids| - 1];
      var mid := CommandsOver(w, ids[..|ids| - 1], fetch, services, now);
      CommandsOverExtends(w, ids[..|ids| - 1], fetch, services, now);
      CommandsStepExtends(mid, id, fetch(id), services, now);
      ExtendsAllTrans(w, mid, CommandsOver(w, ids, fetch, services, now));
    }
  }

  /** A second write to the same key overrides the first. */
  lemma Overwrite<V>(m: map<string, V>, k: string, a: V, b: V)
    ensures m[k := a][k := b] == m[k := b]
  {
  }

  // ---------------------------------------------------------------------
  // The worker.

  class PollWorker {
    const state: LocalDaemonState
    const store: LocalStore
    const fs: FileSystem
    var running: bool
    var acceptingJobs: bool
    var inTick: bool
    var stage: Stage
    var activeRunId: Option<string>
    /** The delay of the last timer set, `None` when no timer is pending. */
    var timer: Option<int>

    constructor (state: LocalDaemonState, store: LocalStore, fs: FileSystem)
      ensures this.state == state && this.store == store && this.fs == fs
      ensures !running && !acceptingJobs && !inTick && stage == Idle && activeRunId.None? && timer.None?
    {
      this.state := state;
      this.store := store;
      this.fs := fs;
      running := false;
      acceptingJobs := false;
      inTick := false;
      stage := Idle;
      activeRunId := None;
      timer := None;
    }

    /** `start`: false when already running; otherwise the worker runs and
        accepts jobs. */
    method Start() returns (started: bool)
      modifies this`running, this`acceptingJobs
      ensures started <==> !old(running)
      ensures running
      ensures acceptingJobs == (started || old(acceptingJobs))
    {
      if running {
        return false;
      }
      running := true;
      acceptingJobs := true;
      return true;
    }

    /** `stop`: not running, not accepting jobs, no timer pending. */
    method Stop()
      modifies this`running, this`acceptingJobs, this`timer
      ensures !running && !acceptingJobs && timer.None?
    {
      running := false;
      acceptingJobs := false;
      timer := None;
    }

    /** `stopGraceful`: stops like `stop`, then waits for a running tick;
        `tickEndsInTime` says whether it ends before `timeoutMs` passes. A
        tick that ends leaves the worker idle. */
    method StopGraceful(timeoutMs: int, tickEndsInTime: bool) returns (r: StopResult)
      modifies this`running, this`acceptingJobs, this`timer, this`inTick, this`stage, this`activeRunId
      ensures !running && !acceptingJobs && timer.None?
      ensures r.timeoutMs == timeoutMs && r.forced == !r.ok
      ensures r.ok <==> !old(inTick) || tickEndsInTime
      ensures old(inTick) && tickEndsInTime ==> !inTick && stage == Idle && activeRunId.None?
      ensures !(old(inTick) && tickEndsInTime) ==>
        inTick == old(inTick) && stage == old(stage) && activeRunId == old(activeRunId)
    {
      Stop();
      if inTick {
        if !tickEndsInTime {
          return StopResult(false, true, timeoutMs);
        }
        stage := Idle;
        activeRunId := None;
        inTick := false;
      }
      return StopResult(true, false, timeoutMs);
    }

    function GetStatus(): PollStatus
      reads this`running, this`acceptingJobs, this`inTick, this`stage, this`activeRunId
    {
      PollStatus(running, acceptingJobs, inTick, stage, activeRunId)
    }

    /** `schedule`: a timer only while running. */
    method Schedule(ms: int)
      modifies this`timer
      ensures timer == if running then Some(ms) else old(timer)
    {
      if running {
        timer := Some(ms);
      }
    }

    /** `tick`, with the work of the jobs and commands stages left to
        `ProcessIncomingJob` and `ProcessRunCommands`: the stages entered,
        the heartbeat mark, the next timer, and the worker idle at the end. */
    method Tick(now: string, t: TickInput) returns (stages: seq<Stage>)
      modifies this`inTick, this`stage, this`activeRunId, this`timer, state
      ensures var credentials := HasCredentials(old(state.GetDevice()));
        && stages == TickStages(credentials, acceptingJobs, t)
        && timer == (if running then Some(TickDelay(credentials, acceptingJobs, t)) else old(timer))
        && state.lastHeartbeatAt == (if credentials && t.heartbeat.Some? then Some(now) else old(state.lastHeartbeatAt))
      ensures !inTick && stage == Idle && activeRunId.None?
      ensures state.deviceId == old(state.deviceId) && state.deviceToken == old(state.deviceToken)
      ensures state.pairing == old(state.pairing) && state.runs == old(state.runs)
      ensures state.runOrder == old(state.runOrder) && state.runByJobId == old(state.runByJobId)
    {
      inTick := true;
      stage := HeartbeatStage;
      stages := [HeartbeatStage];
      var device := state.GetDevice();
      if !HasCredentials(device) || t.heartbeat.None? {
        Schedule(RetryDelayMs);
      } else {
        state.MarkHeartbeat(now);
        var failed := false;
        if acceptingJobs {
          stage := JobsStage;
          stages := stages + [JobsStage];
          failed := t.jobsThrow;
        }
        if !failed {
          stage := CommandsStage;
          stages := stages + [CommandsStage];
          failed := t.commandsThrow;
        }
        if failed {
          Schedule(RetryDelayMs);
        } else {
          Schedule(Max(MinPollMs, t.heartbeat.value.GetOr(DefaultPollMs)));
        }
      }
      stage := Idle;
      activeRunId := None;
      inTick := false;
    }

    /** The fields neither stage writes. */
    twostate predicate Kept()
      reads state, store
    {
      && state.deviceId == old(state.deviceId) && state.deviceToken == old(state.deviceToken)
      && state.pairing == old(state.pairing) && state.lastHeartbeatAt == old(state.lastHeartbeatAt)
      && store.settings == old(store.settings) && store.watched == old(store.watched)
    }

    /** The run records, and the disk and the store's tables. */
    function WorldOf(): World
      reads state, store, fs
    {
      World(state.runs, Execution.TablesOf(store, fs))
    }

    /** `store.updateRunSummary(runId, state.getRun(runId)?.snapshot.runSummary ?? {})`:
        an empty patch for an unknown run changes nothing. */
    method Mirror(runId: string)
      requires store.Valid()
      modifies store
      ensures store.Valid()
      ensures store.runs == if runId in state.runs then Put(old(store.runs), runId, state.runs[runId].snapshot.runSummary)
                            else old(store.runs)
      ensures store.settings == old(store.settings) && store.watched == old(store.watched) && store.runOrder == old(store.runOrder)
      ensures store.proposalRows == old(store.proposalRows) && store.fileRecords == old(store.fileRecords)
      ensures store.executions == old(store.executions)
    {
      if runId in state.runs {
        store.UpdateRunSummary(runId, state.runs[runId].snapshot.runSummary);
      }
    }

    /** The job's run created in memory and in the store, and made active. */
    method CreateJobRun(job: CleanupJob, forcedRunId: Option<string>, freshRunId: string, now: string)
        returns (runId: string)
      requires state.Valid() && store.Valid()
      modifies this`activeRunId, state, store
      ensures state.Valid() && store.Valid() && Kept()
      ensures runId == forcedRunId.GetOr(freshRunId) && activeRunId == Some(runId)
      ensures state.runs == old(state.runs)[runId := NewRun(runId, job, now)]
      ensures state.runOrder == (if runId in old(state.runs) then old(state.runOrder) else old(state.runOrder) + [runId])
      ensures state.runByJobId == old(state.runByJobId)[job.jobId := runId]
      ensures store.runs == old(store.runs)[runId := NewRunSummary(runId, job, now)]
      ensures store.runOrder == (if runId in old(store.runs) then old(store.runOrder) else old(store.runOrder) + [runId])
      ensures store.proposalRows == old(store.proposalRows) && store.fileRecords == old(store.fileRecords)
      ensures store.executions == old(store.executions)
    {
      var record := state.CreateRunFromJob(job, forcedRunId, freshRunId, now);
      runId := record.snapshot.runSummary.runId;
      activeRunId := Some(runId);
      store.CreateRun(runId, job, now);
    }

    /** The scope-failure branch of `processIncomingJob`. */
    method FailNoScope(runId: string, now: string)
      requires state.Valid() && store.Valid() && runId in state.runs && runId in store.runs
      modifies state, store
      ensures state.Valid() && store.Valid() && Kept()
      ensures state.runs == old(state.runs)[runId := NoScopeRun(old(state.runs)[runId], now)]
      ensures store.runs == old(store.runs)[runId := state.runs[runId].snapshot.runSummary]
      ensures state.runOrder == old(state.runOrder) && state.runByJobId == old(state.runByJobId)
      ensures store.runOrder == old(store.runOrder) && store.proposalRows == old(store.proposalRows)
      ensures store.fileRecords == old(store.fileRecords) && store.executions == old(store.executions)
    {
      ghost var runs0 := state.runs;
      ghost var failed := WithStatus(runs0[runId], Failed, ScopeFailurePatch(now));
      state.SetRunStatus(runId, Failed, ScopeFailurePatch(now));
      state.AppendProgress(runId, NoScopeStage, NoScopeMessage, now);
      Overwrite(runs0, runId, failed, NoScopeRun(runs0[runId], now));
      Mirror(runId);
    }

    /** The planned branch of `processIncomingJob`. */
    method AwaitApproval(runId: string, plan: JobPlan, now: string)
      requires state.Valid() && store.Valid() && runId in state.runs && runId in store.runs
      modifies state, store
      ensures state.Valid() && store.Valid() && Kept()
      ensures state.runs == old(state.runs)[runId := PlannedRun(old(state.runs)[runId], plan, now)]
      ensures store.runs == old(store.runs)[runId := state.runs[runId].snapshot.runSummary]
      ensures store.proposalRows == ReplaceRows(old(store.proposalRows), runId, plan.proposals)
      ensures state.runOrder == old(state.runOrder) && state.runByJobId == old(state.runByJobId)
      ensures store.runOrder == old(store.runOrder)
      ensures store.fileRecords == old(store.fileRecords) && store.executions == old(store.executions)
    {
      ghost var runs0 := state.runs;
      ghost var seeded := Seeded(runs0[runId], plan.proposals, Some(plan.classifiedCount), Some(plan.skippedForSafety));
      ghost var patched := WithStatus(seeded, AwaitingApproval, PlanPatch(plan));
      store.ReplaceRunProposals(runId, plan.proposals);
      state.SeedProposals(runId, plan.proposals, Some(plan.classifiedCount), Some(plan.skippedForSafety));
      state.SetRunStatus(runId, AwaitingApproval, PlanPatch(plan));
      Overwrite(runs0, runId, seeded, patched);
      Mirror(runId);
      state.AppendProgress(runId, AwaitingStage, AwaitingMessage, now);
      Overwrite(runs0, runId, patched, PlannedRun(runs0[runId], plan, now));
    }

    /** The scan's outcome recorded on a freshly created run. */
    method FinishJobRun(runId: string, job: CleanupJob, plan: JobPlan, now: string)
      requires state.Valid() && store.Valid() && runId in store.runs
      requires runId in state.runs && state.runs[runId] == NewRun(runId, job, now)
      modifies state, store
      ensures state.Valid() && store.Valid() && Kept()
      ensures state.runs == old(state.runs)[runId := IncomingRun(runId, job, plan, now)]
      ensures store.runs == old(store.runs)[runId := IncomingRun(runId, job, plan, now).snapshot.runSummary]
      ensures store.proposalRows == (if plan.matchedWatchedPaths == 0 then old(store.proposalRows)
                                     else ReplaceRows(old(store.proposalRows), runId, plan.proposals))
      ensures state.runOrder == old(state.runOrder) && state.runByJobId == old(state.runByJobId)
      ensures store.runOrder == old(store.runOrder)
      ensures store.fileRecords == old(store.fileRecords) && store.executions == old(store.executions)
    {
      if plan.matchedWatchedPaths == 0 {
        FailNoScope(runId, now);
      } else {
        AwaitApproval(runId, plan, now);
      }
    }

      /** `scanJobScope`, then the planner, for a job. */
    method PlanJob(job: CleanupJob, cfg: Scan.ScanConfig, propose: seq<ScanCandidate> -> seq<Proposal>)
        returns (plan: JobPlan)
      requires store.Valid()
      modifies store
      ensures store.Valid()
      ensures plan == ScannedPlan(cfg, old(store.watched), old(store.fileRecords), job, propose)
      ensures store.fileRecords == Scan.ScopeOutcome(cfg, old(store.watched), old(store.fileRecords), job.scope).recs
      ensures store.settings == old(store.settings) && store.watched == old(store.watched)
      ensures store.runs == old(store.runs) && store.runOrder == old(store.runOrder)
      ensures store.proposalRows == old(store.proposalRows) && store.executions == old(store.executions)
    {
      var scanned := Scan.ScanJobScope(store, cfg, job);
      var classified := Classification.ClassifyBatch(scanned.candidates);
      plan := JobPlan(scanned.matchedWatchedPaths, scanned.skippedForSafety, |classified|, propose(classified));
    }

    /** A received job's run created and made active, the job's scope
        scanned (the scan upserting the file records it admits), the plan
        built, and the run brought to the end of the jobs stage. */
    method TakeJob(job: CleanupJob, forcedRunId: Option<string>, freshRunId: string, cfg: Scan.ScanConfig,
                   propose: seq<ScanCandidate> -> seq<Proposal>, now: string)
      requires state.Valid() && store.Valid()
      modifies this`activeRunId, state, store
      ensures state.Valid() && store.Valid() && Kept()
      ensures var runId := forcedRunId.GetOr(freshRunId);
        var plan := ScannedPlan(cfg, old(store.watched), old(store.fileRecords), job, propose);
        var r := IncomingRun(runId, job, plan, now);
        && activeRunId == Some(runId)
        && state.runs == old(state.runs)[runId := r]
        && state.runOrder == (if runId in old(state.runs) then old(state.runOrder) else old(state.runOrder) + [runId])
        && state.runByJobId == old(state.runByJobId)[job.jobId := runId]
        && store.runs == old(store.runs)[runId := r.snapshot.runSummary]
        && store.runOrder == (if runId in old(store.runs) then old(store.runOrder) else old(store.runOrder) + [runId])
        && store.proposalRows == (if plan.matchedWatchedPaths == 0 then old(store.proposalRows)
                                  else ReplaceRows(old(store.proposalRows), runId, plan.proposals))
        && store.fileRecords == Scan.ScopeOutcome(cfg, old(store.watched), old(store.fileRecords), job.scope).recs
        && store.executions == old(store.executions)
    {
      ghost var runs0, sums0 := state.runs, store.runs;
      var runId := CreateJobRun(job, forcedRunId, freshRunId, now);
      var plan := PlanJob(job, cfg, propose);
      FinishJobRun(runId, job, plan, now);
      ghost var r := IncomingRun(runId, job, plan, now);
      Overwrite(runs0, runId, NewRun(runId, job, now), r);
      Overwrite(sums0, runId, NewRunSummary(runId, job, now), r.snapshot.runSummary);
    }

    /** `processIncomingJob`: nothing without a job; otherwise the run is
        created under the control plane's run id (a fresh one without it),
        becomes the active run, and ends as `IncomingRun` says for the plan
        the scan and the planner give, in memory and in the store. */
    method ProcessIncomingJob(next: NextJob, freshRunId: string, cfg: Scan.ScanConfig,
                              propose: seq<ScanCandidate> -> seq<Proposal>, now: string)
      requires state.Valid() && store.Valid()
      modifies this`activeRunId, state, store
      ensures state.Valid() && store.Valid() && Kept()
      ensures next.job.None? ==>
        && activeRunId == old(activeRunId) && state.runs == old(state.runs) && state.runOrder == old(state.runOrder)
        && state.runByJobId == old(state.runByJobId) && store.runs == old(store.runs)
        && store.runOrder == old(store.runOrder) && store.proposalRows == old(store.proposalRows)
        && store.fileRecords == old(store.fileRecords) && store.executions == old(store.executions)
      ensures next.job.Some? ==>
        var runId := next.runId.GetOr(freshRunId);
        var job := next.job.value;
        var plan := ScannedPlan(cfg, old(store.watched), old(store.fileRecords), job, propose);
        var r := IncomingRun(runId, job, plan, now);
        && activeRunId == Some(runId)
        && state.runs == old(state.runs)[runId := r]
        && state.runOrder == (if runId in old(state.runs) then old(state.runOrder) else old(state.runOrder) + [runId])
        && state.runByJobId == old(state.runByJobId)[job.jobId := runId]
        && store.runs == old(store.runs)[runId := r.snapshot.runSummary]
        && store.runOrder == (if runId in old(store.runs) then old(store.runOrder) else old(store.runOrder) + [runId])
        && store.proposalRows == (if plan.matchedWatchedPaths == 0 then old(store.proposalRows)
                                  else ReplaceRows(old(store.proposalRows), runId, plan.proposals))
        && store.fileRecords == Scan.ScopeOutcome(cfg, old(store.watched), old(store.fileRecords), job.scope).recs
        && store.executions == old(store.executions)
    {
      if next.job.None? {
        return;
      }
      TakeJob(next.job.value, next.runId, freshRunId, cfg, propose, now);
    }

    /** `applyApprovals` behind its gate. */
    method ApprovalsOf(runId: string, c: RunCommands, now: string)
      requires state.Valid() && store.Valid()
      modifies state, store
      ensures state.Valid() && store.Valid() && Kept()
      ensures state.runOrder == old(state.runOrder) && state.runByJobId == old(state.runByJobId)
      ensures store.runOrder == old(store.runOrder)
      ensures WorldOf() == ApprovalsPhase(old(WorldOf()), runId, c, now)
    {
      if runId !in state.runs || !ApprovalsApply(state.runs[runId], c) {
        return;
      }
      var cmd := c.approvals.value;
      ghost var runs0 := state.runs;
      ghost var decided := Decided(runs0[runId], cmd.approvals);
      state.ApplyApprovals(runId, cmd);
      store.ApplyApprovals(cmd);
      Mirror(runId);
      state.AppendProgress(runId, ApprovalsStage, ApprovalsMessage, now);
      Overwrite(runs0, runId, decided, Logged(decided, now, ApprovalsStage, ApprovalsMessage));
    }

    /** Execution marked as started, in memory and in the store. */
    method StartExecution(runId: string, now: string)
      requires state.Valid() && store.Valid() && runId in state.runs
      modifies state, store
      ensures state.Valid() && store.Valid() && Kept()
      ensures state.runOrder == old(state.runOrder) && state.runByJobId == old(state.runByJobId)
      ensures store.runOrder == old(store.runOrder)
      ensures WorldOf() == StartedWorld(old(WorldOf()), runId, now)
    {
      ghost var runs0 := state.runs;
      ghost var logged := Logged(runs0[runId], now, StartedStage, StartedMessage);
      state.AppendProgress(runId, StartedStage, StartedMessage, now);
      state.SetRunStatus(runId, Executing, NoPatch);
      Overwrite(runs0, runId, logged, Started(runs0[runId], now));
      Mirror(runId);
    }

    /** The execution service's outcome recorded. */
    method FinishExecution(runId: string, out: Execution.ExecOutcome, v: RunServices, now: string)
      requires state.Valid() && store.Valid() && runId in state.runs
      modifies state, store
      ensures state.Valid() && store.Valid() && Kept()
      ensures state.runOrder == old(state.runOrder) && state.runByJobId == old(state.runByJobId)
      ensures store.runOrder == old(store.runOrder)
      ensures WorldOf() == Finished(old(WorldOf()), runId, out, v, now)
    {
      ghost var runs0 := state.runs;
      if out.Done? {
        state.SetRunSnapshot(runId, out.nextSnapshot);
        state.AppendProgress(runId, CompletedStage, CompletedMessage, now);
        Overwrite(runs0, runId, runs0[runId].(snapshot := out.nextSnapshot),
                  Logged(runs0[runId].(snapshot := out.nextSnapshot), now, CompletedStage, CompletedMessage));
      } else {
        var message := ThrownText(out, v.renameError);
        if Contains(message, DryRunBlocked) {
          ghost var logged := Logged(runs0[runId], now, BlockedStage, BlockedMessage);
          state.AppendProgress(runId, BlockedStage, BlockedMessage, now);
          state.SetRunStatus(runId, ReadyToExecute, NoPatch);
          Overwrite(runs0, runId, logged, WithStatus(logged, ReadyToExecute, NoPatch));
          Mirror(runId);
        } else {
          state.SetRunStatus(runId, Failed, FailurePatch(now, message));
          store.MarkRunFailed(runId, message, v.failedAt);
        }
      }
    }

    /** The execute command behind its gate: the execution service runs on
        the started run's snapshot, the store and the disk. */
    method ExecuteOf(runId: string, c: RunCommands, services: string -> RunServices, now: string)
      requires state.Valid() && store.Valid()
      modifies state, store, fs
      ensures state.Valid() && store.Valid() && Kept()
      ensures state.runOrder == old(state.runOrder) && state.runByJobId == old(state.runByJobId)
      ensures store.runOrder == old(store.runOrder)
      ensures WorldOf() == ExecutePhase(old(WorldOf()), runId, c, services, now)
    {
      if runId !in state.runs || !ExecuteApplies(state.runs[runId], c) {
        return;
      }
      StartExecution(runId, now);
      var v := services(runId);
      var out := Execution.ExecuteApproved(store, fs, v.exec, state.runs[runId].snapshot);
      FinishExecution(runId, out, v, now);
    }

    /** The rollback command behind its gate: the rollback service undoes
        the run's snapshot on the store and the disk. */
    method RollbackOf(runId: string, c: RunCommands, services: string -> RunServices, now: string)
      requires state.Valid() && store.Valid()
      modifies state, store, fs
      ensures state.Valid() && store.Valid() && Kept()
      ensures state.runOrder == old(state.runOrder) && state.runByJobId == old(state.runByJobId)
      ensures store.runOrder == old(store.runOrder)
      ensures WorldOf() == RollbackPhase(old(WorldOf()), runId, c, services, now)
    {
      if runId !in state.runs || !RollbackApplies(state.runs[runId], c) {
        return;
      }
      var v := services(runId);
      ghost var runs0 := state.runs;
      var next := Rollback.RollbackRun(store, fs, v.rbExecId, v.rbStarted, v.rbFinished, state.runs[runId].snapshot);
      ghost var restored := runs0[runId].(snapshot := next);
      state.SetRunSnapshot(runId, next);
      state.AppendProgress(runId, RolledBackStage, RolledBackMessage, now);
      Overwrite(runs0, runId, restored, Logged(restored, now, RolledBackStage, RolledBackMessage));
    }

    /** One listed run: skipped without a device, otherwise its commands
        fetched and applied as `CommandsStep` says. */
    method ProcessRun(run: LocalRun, fetch: string -> RunCommands, services: string -> RunServices, now: string)
      requires state.Valid() && store.Valid()
      modifies state, store, fs
      ensures state.Valid() && store.Valid() && Kept()
      ensures state.runOrder == old(state.runOrder) && state.runByJobId == old(state.runByJobId)
      ensures store.runOrder == old(store.runOrder)
      ensures WorldOf() == if run.job.deviceId != "" then
          var id := run.snapshot.runSummary.runId;
          CommandsStep(old(WorldOf()), id, fetch(id), services, now)
        else old(WorldOf())
    {
      if run.job.deviceId == "" {
        return;
      }
      var runId := run.snapshot.runSummary.runId;
      var c := fetch(runId);
      ApprovalsOf(runId, c, now);
      ExecuteOf(runId, c, services, now);
      RollbackOf(runId, c, services, now);
    }

    /** `processRunCommands`: every listed run of a device, in listing
        order, takes its commands as `CommandsOver` says. */
    method ProcessRunCommands(fetch: string -> RunCommands, services: string -> RunServices, now: string)
      requires state.Valid() && store.Valid()
      modifies state, store, fs
      ensures state.Valid() && store.Valid() && Kept()
      ensures state.runOrder == old(state.runOrder) && state.runByJobId == old(state.runByJobId)
      ensures store.runOrder == old(store.runOrder)
      ensures WorldOf() == CommandsOver(old(WorldOf()), ProcessedIds(old(state.ListRuns())), fetch, services, now)
    {
      var listed := state.ListRuns();
      ghost var w0 := WorldOf();
      var i := 0;
      while i < |listed|
        invariant 0 <= i <= |listed|
        invariant state.Valid() && store.Valid() && Kept()
        invariant state.runOrder == old(state.runOrder) && state.runByJobId == old(state.runByJobId)
        invariant store.runOrder == old(store.runOrder)
        invariant WorldOf() == CommandsOver(w0, ProcessedIds(listed[..i]), fetch, services, now)
      {
        CommandsOverNext(w0, listed, i, fetch, services, now);
        ProcessRun(listed[i], fetch, services, now);
        i := i + 1;
      }
      assert listed[..i] == listed;
    }
  }
}
