// The daemon's in-memory state (state.ts): the device identity and pairing
// session, and a map of run records (job, snapshot, progress log) with an
// index from job id to run id. The source keeps a JavaScript `Map`, whose
// iteration order is insertion order; `runOrder` keeps that order here.
// Run records are values: the source's callers that hold a record and
// mutate it in place are not modelled.
module DaemonState {
  import opened Wrappers
  import opened Seqs
  import opened Contracts
  import opened RunStore

  datatype PairingSession = PairingSession(pairingSessionId: string, pairingCode: string, expiresAt: string)

  /** What `getDevice` returns. */
  datatype DeviceView = DeviceView(
    deviceId: Option<string>,
    deviceToken: Option<string>,
    pairing: Option<PairingSession>,
    lastHeartbeatAt: Option<string>)

  datatype LocalRun = LocalRun(job: CleanupJob, snapshot: RunSnapshot, progress: seq<ProgressEntry>)

  /** A `Partial<RunSummary>`: each present field overwrites the summary's. */
  datatype SummaryPatch = SummaryPatch(
    runId: Option<string>,
    deviceId: Option<string>,
    jobId: Option<string>,
    status: Option<JobStatus>,
    dryRun: Option<bool>,
    startedAt: Option<string>,
    finishedAt: Option<Option<string>>,
    filesScanned: Option<int>,
    proposalsCreated: Option<int>,
    actionsExecuted: Option<int>,
    duplicatesFound: Option<int>,
    bytesRecoveredEstimate: Option<int>,
    skippedForSafety: Option<int>,
    errorMessage: Option<Option<string>>)

  const NoPatch: SummaryPatch :=
    SummaryPatch(None, None, None, None, None, None, None, None, None, None, None, None, None, None)

  /** The estimate the in-memory execution reports. */
  const FixedBytesRecovered: int := 1_288_490_188
  const RollbackStage: string := "rollback_completed"
  const RollbackMessage: string := "Rollback completed for selected actions"

  /** `{...summary, ...patch, status}`. */
  function MergeSummary(s: RunSummary, p: SummaryPatch, status: JobStatus): (r: RunSummary)
    ensures r.status == status
    ensures p.filesScanned.None? ==> r.filesScanned == s.filesScanned
    ensures p.filesScanned.Some? ==> r.filesScanned == p.filesScanned.value
    ensures p.runId.None? ==> r.runId == s.runId
    ensures p == NoPatch ==> r == s.(status := status)
  {
    RunSummary(p.runId.GetOr(s.runId), p.deviceId.GetOr(s.deviceId), p.jobId.GetOr(s.jobId), status,
               p.dryRun.GetOr(s.dryRun), p.startedAt.GetOr(s.startedAt), p.finishedAt.GetOr(s.finishedAt),
               p.filesScanned.GetOr(s.filesScanned), p.proposalsCreated.GetOr(s.proposalsCreated),
               p.actionsExecuted.GetOr(s.actionsExecuted), p.duplicatesFound.GetOr(s.duplicatesFound),
               p.bytesRecoveredEstimate.GetOr(s.bytesRecoveredEstimate), p.skippedForSafety.GetOr(s.skippedForSafety),
               p.errorMessage.GetOr(s.errorMessage))
  }

  /** A summary patched with itself changes only in status. */
  lemma MergeWholeSummary(s: RunSummary, t: RunSummary, status: JobStatus)
    ensures MergeSummary(s, SummaryPatch(Some(t.runId), Some(t.deviceId), Some(t.jobId), Some(t.status), Some(t.dryRun),
                                         Some(t.startedAt), Some(t.finishedAt), Some(t.filesScanned),
                                         Some(t.proposalsCreated), Some(t.actionsExecuted), Some(t.duplicatesFound),
                                         Some(t.bytesRecoveredEstimate), Some(t.skippedForSafety), Some(t.errorMessage)),
                         status) == t.(status := status)
  {
  }

  // ---------------------------------------------------------------------
  // Proposal-list updates.

  function Decide(p: Proposal, ds: seq<ApprovalDecision>): Proposal
  {
    match DecisionFor(ds, p.proposalId)
    case None => p
    case Some(d) => p.(after := d.editedAfter.GetOr(p.after), status := Some(if d.decision == Approve then Approved else Rejected))
  }

  /** The proposals after `applyApprovals`: a decided proposal takes the
      decision's status and edited target, an undecided one is unchanged. */
  function DecideAll(ps: seq<Proposal>, ds: seq<ApprovalDecision>): (r: seq<Proposal>)
    ensures |r| == |ps|
    ensures forall i :: 0 <= i < |ps| ==> r[i] == Decide(ps[i], ds)
  {
    seq(|ps|, i requires 0 <= i < |ps| => Decide(ps[i], ds))
  }

  predicate IsApproved(p: Proposal) { p.status == Some(Approved) }
  predicate IsExecuted(p: Proposal) { p.status == Some(Executed) }

  /** The proposals after the in-memory `executeApproved`. */
  function ExecuteAll(ps: seq<Proposal>): (r: seq<Proposal>)
    ensures |r| == |ps|
    ensures forall i :: 0 <= i < |ps| ==> r[i] == if IsApproved(ps[i]) then ps[i].(status := Some(Executed)) else ps[i]
  {
    seq(|ps|, i requires 0 <= i < |ps| => if IsApproved(ps[i]) then ps[i].(status := Some(Executed)) else ps[i])
  }

  /** The proposals after the in-memory `rollbackRun`. */
  function RestoreAll(ps: seq<Proposal>): (r: seq<Proposal>)
    ensures |r| == |ps|
    ensures forall i :: 0 <= i < |ps| ==> r[i] == if IsExecuted(ps[i]) then ps[i].(status := Some(Approved)) else ps[i]
  {
    seq(|ps|, i requires 0 <= i < |ps| => if IsExecuted(ps[i]) then ps[i].(status := Some(Approved)) else ps[i])
  }

  function ApprovedCount(ps: seq<Proposal>): nat
  {
    if ps == [] then 0 else (if IsApproved(ps[0]) then 1 else 0) + ApprovedCount(ps[1..])
  }

  function ExecutedCount(ps: seq<Proposal>): nat
  {
    if ps == [] then 0 else (if IsExecuted(ps[0]) then 1 else 0) + ExecutedCount(ps[1..])
  }

  /** `applyApprovals` on one proposal: without a decision for its id it is
      unchanged; otherwise the last decision listed for it sets its status
      and, when edited, its target; its identity and source never change. */
  lemma DecideSpec(p: Proposal, ds: seq<ApprovalDecision>, j: int)
    ensures Decide(p, ds).proposalId == p.proposalId && Decide(p, ds).before == p.before
    ensures Decide(p, ds).actionType == p.actionType
    ensures (forall k :: 0 <= k < |ds| ==> ds[k].proposalId != p.proposalId) ==> Decide(p, ds) == p
    ensures 0 <= j < |ds| && ds[j].proposalId == p.proposalId
            && (forall k :: j < k < |ds| ==> ds[k].proposalId != p.proposalId) ==>
      && Decide(p, ds).status == Some(if ds[j].decision == Approve then Approved else Rejected)
      && Decide(p, ds).after == ds[j].editedAfter.GetOr(p.after)
  {
    if 0 <= j < |ds| && ds[j].proposalId == p.proposalId
       && (forall k :: j < k < |ds| ==> ds[k].proposalId != p.proposalId) {
      var d := DecisionFor(ds, p.proposalId).value;
      var i :| 0 <= i < |ds| && ds[i] == d && ds[i].proposalId == p.proposalId
               && forall k :: i < k < |ds| ==> ds[k].proposalId != p.proposalId;
      assert i == j;
    }
  }

  /** Counting the approved proposals one more at a time. */
  lemma {:induction false} ApprovedCountSnoc(ps: seq<Proposal>, p: Proposal)
    ensures ApprovedCount(ps + [p]) == ApprovedCount(ps) + (if IsApproved(p) then 1 else 0)
  {
    if ps != [] {
      assert (ps + [p])[1..] == ps[1..] + [p];
      ApprovedCountSnoc(ps[1..], p);
    }
  }

  /** The `map` of `executeApproved` with its counter: every approved
      proposal becomes executed, and the counter ends at how many were. */
  method ExecuteProposals(ps: seq<Proposal>) returns (next: seq<Proposal>, executed: nat)
    ensures next == ExecuteAll(ps)
    ensures executed == ApprovedCount(ps)
  {
    executed := 0;
    next := [];
    for i := 0 to |ps|
      invariant |next| == i
      invariant forall k :: 0 <= k < i ==> next[k] == ExecuteAll(ps)[k]
      invariant executed == ApprovedCount(ps[..i])
    {
      ApprovedCountSnoc(ps[..i], ps[i]);
      assert ps[..i + 1] == ps[..i] + [ps[i]];
      if IsApproved(ps[i]) {
        executed := executed + 1;
        next := next + [ps[i].(status := Some(Executed))];
      } else {
        next := next + [ps[i]];
      }
    }
    assert ps[..|ps|] == ps;
  }

  /** Deciding twice with the same decisions is deciding once. */
  lemma DecideAllIdempotent(ps: seq<Proposal>, ds: seq<ApprovalDecision>)
    ensures DecideAll(DecideAll(ps, ds), ds) == DecideAll(ps, ds)
  {
    var once := DecideAll(ps, ds);
    forall i | 0 <= i < |ps|
      ensures Decide(once[i], ds) == once[i]
    {
      assert once[i].proposalId == ps[i].proposalId;
    }
  }

  /** Execution turns every approved proposal into an executed one: the
      number executed grows by exactly the number that were approved, and
      none stays approved. */
  lemma {:induction false} ExecuteAllCounts(ps: seq<Proposal>)
    ensures ExecutedCount(ExecuteAll(ps)) == ExecutedCount(ps) + ApprovedCount(ps)
    ensures ApprovedCount(ExecuteAll(ps)) == 0
  {
    if ps != [] {
      assert ExecuteAll(ps)[1..] == ExecuteAll(ps[1..]);
      ExecuteAllCounts(ps[1..]);
    }
  }

  /** Rolling back leaves no executed proposal. */
  lemma {:induction false} RestoreAllCounts(ps: seq<Proposal>)
    ensures ExecutedCount(RestoreAll(ps)) == 0
    ensures ApprovedCount(RestoreAll(ps)) == ApprovedCount(ps) + ExecutedCount(ps)
  {
    if ps != [] {
      assert RestoreAll(ps)[1..] == RestoreAll(ps[1..]);
      RestoreAllCounts(ps[1..]);
    }
  }

  /** A rollback undoes an execution that started with nothing executed. */
  lemma RestoreUndoesExecute(ps: seq<Proposal>)
    requires forall i :: 0 <= i < |ps| ==> !IsExecuted(ps[i])
    ensures RestoreAll(ExecuteAll(ps)) == ps
  {
    var r := RestoreAll(ExecuteAll(ps));
    forall i | 0 <= i < |ps|
      ensures r[i] == ps[i]
    {
      if IsApproved(ps[i]) {
        assert ps[i].(status := Some(Executed)).(status := Some(Approved)) == ps[i];
      }
    }
  }

  // ---------------------------------------------------------------------
  // Run-record updates.

  /** `createRunFromJob`'s record. */
  function NewRun(runId: string, job: CleanupJob, now: string): (r: LocalRun)
    ensures r.job == job && r.progress == [] && r.snapshot.proposals == []
    ensures r.snapshot.runSummary == NewRunSummary(runId, job, now)
  {
    LocalRun(job, RunSnapshot(NewRunSummary(runId, job, now), []), [])
  }

  function WithStatus(r: LocalRun, status: JobStatus, patch: SummaryPatch): LocalRun
  {
    r.(snapshot := r.snapshot.(runSummary := MergeSummary(r.snapshot.runSummary, patch, status)))
  }

  /** `seedProposals`: the proposals replace the snapshot's, the counters
      follow them and the stats, and the run awaits approval. */
  function Seeded(r: LocalRun, ps: seq<Proposal>, filesScanned: Option<int>, skipped: Option<int>): (n: LocalRun)
    ensures n.snapshot.proposals == ps && n.job == r.job && n.progress == r.progress
    ensures n.snapshot.runSummary == r.snapshot.runSummary.(proposalsCreated := |ps|, filesScanned := filesScanned.GetOr(0),
                                                           skippedForSafety := skipped.GetOr(0), status := AwaitingApproval)
  {
    var s := r.snapshot.runSummary;
    r.(snapshot := RunSnapshot(s.(proposalsCreated := |ps|, filesScanned := filesScanned.GetOr(0),
                                  skippedForSafety := skipped.GetOr(0), status := AwaitingApproval), ps))
  }

  function Decided(r: LocalRun, ds: seq<ApprovalDecision>): LocalRun
  {
    r.(snapshot := RunSnapshot(r.snapshot.runSummary.(status := ReadyToExecute), DecideAll(r.snapshot.proposals, ds)))
  }

  /** The in-memory `executeApproved`. */
  function AfterExecution(r: LocalRun, now: string): (n: LocalRun)
    ensures n.snapshot.runSummary.actionsExecuted == ApprovedCount(r.snapshot.proposals)
  {
    var s := r.snapshot.runSummary;
    var ps := r.snapshot.proposals;
    r.(snapshot := RunSnapshot(s.(actionsExecuted := ApprovedCount(ps), bytesRecoveredEstimate := FixedBytesRecovered,
                                  status := Completed, finishedAt := Some(now)), ExecuteAll(ps)))
  }

  /** The in-memory `rollbackRun`. */
  function AfterRollback(r: LocalRun, now: string): LocalRun
  {
    var s := r.snapshot.runSummary;
    r.(snapshot := RunSnapshot(s.(status := Completed, actionsExecuted := 0), RestoreAll(r.snapshot.proposals)),
       progress := r.progress + [ProgressEntry(now, RollbackStage, RollbackMessage)])
  }

  /** After execution the run is complete, its count is the number of newly
      executed proposals, and no proposal is left approved. */
  lemma ExecutedRun(r: LocalRun, now: string)
    ensures var n := AfterExecution(r, now); var s := n.snapshot.runSummary;
      && s.status == Completed && s.bytesRecoveredEstimate == FixedBytesRecovered && s.finishedAt == Some(now)
      && s.actionsExecuted == ExecutedCount(n.snapshot.proposals) - ExecutedCount(r.snapshot.proposals)
      && ApprovedCount(n.snapshot.proposals) == 0
      && |n.snapshot.proposals| == |r.snapshot.proposals|
  {
    ExecuteAllCounts(r.snapshot.proposals);
  }

  /** A rollback completes the run with no action counted, leaves no
      proposal executed, and appends exactly one progress entry. */
  lemma RolledBackRun(r: LocalRun, now: string)
    ensures var n := AfterRollback(r, now); var s := n.snapshot.runSummary;
      && s.status == Completed && s.actionsExecuted == 0
      && ExecutedCount(n.snapshot.proposals) == 0
      && |n.progress| == |r.progress| + 1 && n.progress[..|r.progress|] == r.progress
      && n.progress[|r.progress|].stage == RollbackStage
  {
    RestoreAllCounts(r.snapshot.proposals);
    assert (r.progress + [ProgressEntry(now, RollbackStage, RollbackMessage)])[..|r.progress|] == r.progress;
  }

  /** Executing then rolling back a freshly decided run restores its
      proposals. */
  lemma RollbackAfterExecute(r: LocalRun, now: string, later: string)
    requires forall i :: 0 <= i < |r.snapshot.proposals| ==> !IsExecuted(r.snapshot.proposals[i])
    ensures AfterRollback(AfterExecution(r, now), later).snapshot.proposals == r.snapshot.proposals
  {
    RestoreUndoesExecute(r.snapshot.proposals);
  }

  // ---------------------------------------------------------------------
  // The state object.

  /** `listRuns`' order key. */
  function RunStartedAt(r: LocalRun): string { r.snapshot.runSummary.startedAt }

  class LocalDaemonState {
    var deviceId: Option<string>
    var deviceToken: Option<string>
    var pairing: Option<PairingSession>
    var runs: map<string, LocalRun>
    var runOrder: seq<string>
    var runByJobId: map<string, string>
    var lastHeartbeatAt: Option<string>

    /** `runOrder` lists each run id once, in insertion order. */
    ghost predicate Valid()
      reads this
    {
      (forall id :: id in runs <==> id in runOrder)
      && (forall i, j :: 0 <= i < j < |runOrder| ==> runOrder[i] != runOrder[j])
    }

    constructor (seedDeviceId: Option<string>, seedDeviceToken: Option<string>)
      ensures Valid()
      ensures deviceId == seedDeviceId && deviceToken == seedDeviceToken && pairing.None?
      ensures runs == map[] && runOrder == [] && runByJobId == map[] && lastHeartbeatAt.None?
    {
      deviceId := seedDeviceId;
      deviceToken := seedDeviceToken;
      pairing := None;
      runs := map[];
      runOrder := [];
      runByJobId := map[];
      lastHeartbeatAt := None;
    }

    function GetDevice(): (d: DeviceView)
      reads this
      ensures d.deviceId == deviceId && d.deviceToken == deviceToken
      ensures d.pairing == pairing && d.lastHeartbeatAt == lastHeartbeatAt
    {
      DeviceView(deviceId, deviceToken, pairing, lastHeartbeatAt)
    }

    method SetPairingSession(session: Option<PairingSession>)
      modifies this
      ensures pairing == session
      ensures deviceId == old(deviceId) && deviceToken == old(deviceToken) && lastHeartbeatAt == old(lastHeartbeatAt)
      ensures runs == old(runs) && runOrder == old(runOrder) && runByJobId == old(runByJobId)
    {
      pairing := session;
    }

    /** `completePairing`: the identity is set and the session dropped. */
    method CompletePairing(newDeviceId: string, newDeviceToken: string)
      modifies this
      ensures deviceId == Some(newDeviceId) && deviceToken == Some(newDeviceToken) && pairing.None?
      ensures lastHeartbeatAt == old(lastHeartbeatAt)
      ensures runs == old(runs) && runOrder == old(runOrder) && runByJobId == old(runByJobId)
    {
      deviceId := Some(newDeviceId);
      deviceToken := Some(newDeviceToken);
      pairing := None;
    }

    method MarkHeartbeat(now: string)
      modifies this
      ensures lastHeartbeatAt == Some(now)
      ensures deviceId == old(deviceId) && deviceToken == old(deviceToken) && pairing == old(pairing)
      ensures runs == old(runs) && runOrder == old(runOrder) && runByJobId == old(runByJobId)
    {
      lastHeartbeatAt := Some(now);
    }

    /** `createRunFromJob`: the forced run id if given, else a fresh one; a
        re-used id keeps its place in the iteration order. */
    method CreateRunFromJob(job: CleanupJob, forcedRunId: Option<string>, freshRunId: string, now: string)
        returns (record: LocalRun)
      requires Valid()
      modifies this
      ensures Valid()
      ensures var runId := forcedRunId.GetOr(freshRunId);
        && record == NewRun(runId, job, now)
        && runs == old(runs)[runId := record]
        && runOrder == (if runId in old(runs) then old(runOrder) else old(runOrder) + [runId])
        && runByJobId == old(runByJobId)[job.jobId := runId]
      ensures deviceId == old(deviceId) && deviceToken == old(deviceToken) && pairing == old(pairing)
      ensures lastHeartbeatAt == old(lastHeartbeatAt)
    {
      var runId := forcedRunId.GetOr(freshRunId);
      record := NewRun(runId, job, now);
      if runId !in runs {
        runOrder := runOrder + [runId];
      }
      runs := runs[runId := record];
      runByJobId := runByJobId[job.jobId := runId];
    }

    function GetRun(runId: string): Option<LocalRun>
      reads this
    {
      if runId in runs then Some(runs[runId]) else None
    }

    /** `getRunByJobId`: an empty indexed run id counts as missing. */
    function GetRunByJobId(jobId: string): (r: Option<LocalRun>)
      reads this
      ensures r.Some? <==> jobId in runByJobId && runByJobId[jobId] != "" && runByJobId[jobId] in runs
      ensures r.Some? ==> r.value == runs[runByJobId[jobId]]
    {
      if jobId !in runByJobId || runByJobId[jobId] == "" then None else GetRun(runByJobId[jobId])
    }

    function RunsInOrder(): (rs: seq<LocalRun>)
      requires Valid()
      reads this
      ensures |rs| == |runOrder|
      ensures forall i :: 0 <= i < |runOrder| ==> rs[i] == runs[runOrder[i]]
    {
      seq(|runOrder|, i requires 0 <= i < |runOrder| && Valid() reads this => runs[runOrder[i]])
    }

    /** `listRuns`: every run once, most recently started first. */
    function ListRuns(): (rs: seq<LocalRun>)
      requires Valid()
      reads this
      ensures SortedDesc(rs, RunStartedAt)
      ensures multiset(rs) == multiset(RunsInOrder())
      ensures forall r :: r in rs <==> exists id :: id in runs && runs[id] == r
      ensures forall t :: WithKey(rs, RunStartedAt, t) == WithKey(RunsInOrder(), RunStartedAt, t)
    {
      var all := RunsInOrder();
      var rs := SortDesc(all, RunStartedAt);
      forall t
        ensures WithKey(rs, RunStartedAt, t) == WithKey(all, RunStartedAt, t)
      {
        SortDescStable(all, RunStartedAt, t);
      }
      assert forall r :: r in rs <==> r in all by {
        forall r
          ensures r in rs <==> r in all
        {
          SortDescMembers(all, RunStartedAt, r);
        }
      }
      assert forall r :: r in all <==> exists id :: id in runs && runs[id] == r by {
        forall r | r in all
          ensures exists id :: id in runs && runs[id] == r
        {
          var i :| 0 <= i < |all| && all[i] == r;
          assert runOrder[i] in runs;
        }
        forall r | exists id :: id in runs && runs[id] == r
          ensures r in all
        {
          var id :| id in runs && runs[id] == r;
          var i :| 0 <= i < |runOrder| && runOrder[i] == id;
          assert all[i] == r;
        }
      }
      rs
    }

    /** Replaces the record of a known run; unknown runs are left alone. */
    method PutRun(runId: string, next: LocalRun)
      requires Valid() && runId in runs
      modifies this
      ensures Valid()
      ensures runs == old(runs)[runId := next] && runOrder == old(runOrder) && runByJobId == old(runByJobId)
      ensures deviceId == old(deviceId) && deviceToken == old(deviceToken) && pairing == old(pairing)
      ensures lastHeartbeatAt == old(lastHeartbeatAt)
    {
      runs := runs[runId := next];
    }

    method AppendProgress(runId: string, stage: string, message: string, now: string)
      requires Valid()
      modifies this
      ensures Valid()
      ensures runs == if runId in old(runs)
        then old(runs)[runId := old(runs)[runId].(progress := old(runs)[runId].progress + [ProgressEntry(now, stage, message)])]
        else old(runs)
      ensures runOrder == old(runOrder) && runByJobId == old(runByJobId)
      ensures deviceId == old(deviceId) && deviceToken == old(deviceToken) && pairing == old(pairing)
      ensures lastHeartbeatAt == old(lastHeartbeatAt)
    {
      if runId in runs {
        PutRun(runId, runs[runId].(progress := runs[runId].progress + [ProgressEntry(now, stage, message)]));
      }
    }

    /** `setRunStatus`: the patch merged in, the given status on top. */
    method SetRunStatus(runId: string, status: JobStatus, patch: SummaryPatch)
      requires Valid()
      modifies this
      ensures Valid()
      ensures runs == if runId in old(runs) then old(runs)[runId := WithStatus(old(runs)[runId], status, patch)] else old(runs)
      ensures runOrder == old(runOrder) && runByJobId == old(runByJobId)
      ensures deviceId == old(deviceId) && deviceToken == old(deviceToken) && pairing == old(pairing)
      ensures lastHeartbeatAt == old(lastHeartbeatAt)
    {
      if runId in runs {
        PutRun(runId, WithStatus(runs[runId], status, patch));
      }
    }

    method SeedProposals(runId: string, proposals: seq<Proposal>, filesScanned: Option<int>, skippedForSafety: Option<int>)
      requires Valid()
      modifies this
      ensures Valid()
      ensures runs == if runId in old(runs)
        then old(runs)[runId := Seeded(old(runs)[runId], proposals, filesScanned, skippedForSafety)] else old(runs)
      ensures runOrder == old(runOrder) && runByJobId == old(runByJobId)
      ensures deviceId == old(deviceId) && deviceToken == old(deviceToken) && pairing == old(pairing)
      ensures lastHeartbeatAt == old(lastHeartbeatAt)
    {
      if runId in runs {
        PutRun(runId, Seeded(runs[runId], proposals, filesScanned, skippedForSafety));
      }
    }

    method SetRunSnapshot(runId: string, snapshot: RunSnapshot)
      requires Valid()
      modifies this
      ensures Valid()
      ensures runs == if runId in old(runs) then old(runs)[runId := old(runs)[runId].(snapshot := snapshot)] else old(runs)
      ensures runOrder == old(runOrder) && runByJobId == old(runByJobId)
      ensures deviceId == old(deviceId) && deviceToken == old(deviceToken) && pairing == old(pairing)
      ensures lastHeartbeatAt == old(lastHeartbeatAt)
    {
      if runId in runs {
        PutRun(runId, runs[runId].(snapshot := snapshot));
      }
    }

    method ApplyApprovals(runId: string, approvals: ApprovalCommand)
      requires Valid()
      modifies this
      ensures Valid()
      ensures runs == if runId in old(runs) then old(runs)[runId := Decided(old(runs)[runId], approvals.approvals)] else old(runs)
      ensures runOrder == old(runOrder) && runByJobId == old(runByJobId)
      ensures deviceId == old(deviceId) && deviceToken == old(deviceToken) && pairing == old(pairing)
      ensures lastHeartbeatAt == old(lastHeartbeatAt)
    {
      if runId in runs {
        PutRun(runId, Decided(runs[runId], approvals.approvals));
      }
    }

    method ExecuteApproved(runId: string, now: string)
      requires Valid()
      modifies this
      ensures Valid()
      ensures runs == if runId in old(runs) then old(runs)[runId := AfterExecution(old(runs)[runId], now)] else old(runs)
      ensures runOrder == old(runOrder) && runByJobId == old(runByJobId)
      ensures deviceId == old(deviceId) && deviceToken == old(deviceToken) && pairing == old(pairing)
      ensures lastHeartbeatAt == old(lastHeartbeatAt)
    {
      if runId in runs {
        var run := runs[runId];
        var ps := run.snapshot.proposals;
        var next, executed := ExecuteProposals(ps);
        var s := run.snapshot.runSummary;
        PutRun(runId, run.(snapshot := RunSnapshot(s.(actionsExecuted := executed, bytesRecoveredEstimate := FixedBytesRecovered,
                                                      status := Completed, finishedAt := Some(now)), next)));
      }
    }

    method RollbackRun(runId: string, now: string)
      requires Valid()
      modifies this
      ensures Valid()
      ensures runs == if runId in old(runs) then old(runs)[runId := AfterRollback(old(runs)[runId], now)] else old(runs)
      ensures runOrder == old(runOrder) && runByJobId == old(runByJobId)
      ensures deviceId == old(deviceId) && deviceToken == old(deviceToken) && pairing == old(pairing)
      ensures lastHeartbeatAt == old(lastHeartbeatAt)
    {
      if runId in runs {
        PutRun(runId, AfterRollback(runs[runId], now));
      }
    }
  }
}
