// The control plane's in-memory store (vps-control-api store.ts): pairing
// sessions, devices and their tokens, the per-device job queues, run
// summaries/snapshots/progress and the three command mailboxes. Fresh ids,
// the pairing code and the clock are parameters of the operations.
module ControlStore {
  import opened Wrappers
  import opened Seqs
  import opened Contracts

  datatype PairingSession = PairingSession(
    pairingSessionId: string,
    pairingCode: string,
    expiresAt: string,
    deviceLabel: string,
    os: OsKind,
    approved: bool,
    completed: bool)

  datatype PairingStart = PairingStart(pairingSessionId: string, pairingCode: string, expiresAt: string)
  datatype Paired = Paired(deviceId: string, deviceToken: string, pairedAt: string)
  datatype JobView = JobView(job: CleanupJob, status: JobStatus, runId: Option<string>)
  datatype Enqueued = Enqueued(job: CleanupJob, runId: string)

  /** `map.get(k) ?? null`. */
  function Lookup<K, V>(m: map<K, V>, k: K): (r: Option<V>)
    ensures r.Some? <==> k in m
    ensures r.Some? ==> r.value == m[k]
  {
    if k in m then Some(m[k]) else None
  }

  /** A device's queue, `[]` when it has none. */
  function QueueOf(m: map<string, seq<string>>, deviceId: string): seq<string>
  {
    if deviceId in m then m[deviceId] else []
  }

  /** A session `completePairing` accepts: present, approved, not yet completed. */
  predicate CanComplete(sessions: map<string, PairingSession>, id: string)
  {
    id in sessions && !sessions[id].completed && sessions[id].approved
  }

  predicate IsQueued(status: map<string, JobStatus>, jobId: string)
  {
    jobId in status && status[jobId] == Queued
  }

  /** A queue ending with a queued job has a queued job to claim. */
  lemma LastQueued(queue: seq<string>, status: map<string, JobStatus>)
    requires queue != [] && IsQueued(status, queue[|queue| - 1])
    ensures FirstQueued(queue, status).Some?
  {
  }

  /** The position `claimNextJob` picks: the first job of the queue whose
      status is queued. */
  function FirstQueued(queue: seq<string>, status: map<string, JobStatus>): (r: Option<nat>)
    ensures r.Some? ==> r.value < |queue| && IsQueued(status, queue[r.value])
    ensures r.Some? ==> forall j :: 0 <= j < r.value ==> !IsQueued(status, queue[j])
    ensures r.None? <==> forall j :: 0 <= j < |queue| ==> !IsQueued(status, queue[j])
  {
    if queue == [] then None
    else if IsQueued(status, queue[0]) then Some(0)
    else match FirstQueued(queue[1..], status)
      case None => None
      case Some(k) => Some(k + 1)
  }

  /** Claiming is first-in first-out and a claimed job is not handed out
      again: after the picked job is marked claimed, the next pick lies
      strictly later in the queue and is another job. */
  lemma ClaimAdvances(queue: seq<string>, status: map<string, JobStatus>, k: nat)
    requires FirstQueued(queue, status) == Some(k)
    ensures var next := FirstQueued(queue, status[queue[k] := Claimed]);
      next.Some? ==> next.value > k && queue[next.value] != queue[k]
  {
    var after := status[queue[k] := Claimed];
    var next := FirstQueued(queue, after);
    if next.Some? {
      var n := next.value;
      assert IsQueued(after, queue[n]);
      assert queue[n] != queue[k];
      assert IsQueued(status, queue[n]);
    }
  }

  /** Summaries and snapshots describe the same runs with the same summary. */
  predicate Synced(sums: map<string, RunSummary>, snaps: map<string, RunSnapshot>)
  {
    snaps.Keys == sums.Keys && forall r :: r in snaps ==> snaps[r].runSummary == sums[r]
  }

  /** Storing a snapshot together with its own summary keeps the two maps in step. */
  lemma SyncedPut(sums: map<string, RunSummary>, snaps: map<string, RunSnapshot>, runId: string, snap: RunSnapshot)
    requires Synced(sums, snaps)
    ensures Synced(sums[runId := snap.runSummary], snaps[runId := snap])
  {
  }

  /** `deviceOrder` is the insertion order of `devices`: it lists exactly
      the stored ids, and as many as are stored, so each of them once. */
  ghost predicate Listed(order: seq<string>, devices: map<string, DeviceRecord>)
  {
    && (forall i :: 0 <= i < |order| ==> order[i] in devices)
    && (forall id :: id in devices ==> id in order)
    && |order| == |devices|
  }

  /** `listDevices`' order key. */
  function DeviceLabel(d: DeviceRecord): string { d.deviceLabel }

  /** `[...devices.values()]`: the records in insertion order. */
  function DevicesInOrder(order: seq<string>, devices: map<string, DeviceRecord>): (r: seq<DeviceRecord>)
    requires forall i :: 0 <= i < |order| ==> order[i] in devices
    ensures |r| == |order|
    ensures forall i :: 0 <= i < |order| ==> r[i] == devices[order[i]]
  {
    seq(|order|, i requires 0 <= i < |order| => devices[order[i]])
  }

  /** Listing the devices in insertion order yields each device's record. */
  lemma ListedMembers(order: seq<string>, devices: map<string, DeviceRecord>)
    requires Listed(order, devices)
    ensures forall i :: 0 <= i < |order| ==> order[i] in devices
    ensures forall d :: d in DevicesInOrder(order, devices) <==> exists id :: id in devices && devices[id] == d
  {
    var r := DevicesInOrder(order, devices);
    forall id | id in devices ensures devices[id] in r {
      var i :| 0 <= i < |order| && order[i] == id;
      assert r[i] == devices[id];
    }
  }

  /** Storing a record keeps the insertion order in step: a new id goes to
      the end, a known one keeps its place. */
  lemma ListedSet(order: seq<string>, devices: map<string, DeviceRecord>, id: string, d: DeviceRecord)
    requires Listed(order, devices)
    ensures Listed(if id in devices then order else order + [id], devices[id := d])
  {
    if id !in devices {
      var o := order + [id];
      assert forall x :: x in o <==> x in order || x == id;
      assert |devices[id := d]| == |devices| + 1;
    }
  }

  /** `patchRunSummary(runId, {status})` on the summaries. */
  function PatchSummaries(sums: map<string, RunSummary>, runId: string, status: JobStatus): map<string, RunSummary>
  {
    if runId in sums then sums[runId := sums[runId].(status := status)] else sums
  }

  /** `patchRunSummary(runId, {status})` on the snapshots. */
  function PatchSnapshots(sums: map<string, RunSummary>, snaps: map<string, RunSnapshot>, runId: string,
                          status: JobStatus): map<string, RunSnapshot>
  {
    if runId in sums && runId in snaps then snaps[runId := snaps[runId].(runSummary := sums[runId].(status := status))]
    else snaps
  }

  /** A status patch keeps summaries and snapshots in step, changes the
      status of that one run only, and nothing for an unknown run. */
  lemma PatchKeepsSync(sums: map<string, RunSummary>, snaps: map<string, RunSnapshot>, runId: string, status: JobStatus)
    requires Synced(sums, snaps)
    ensures Synced(PatchSummaries(sums, runId, status), PatchSnapshots(sums, snaps, runId, status))
    ensures runId in sums ==> PatchSummaries(sums, runId, status)[runId].status == status
    ensures PatchSummaries(sums, runId, status).Keys == sums.Keys
    ensures forall r :: r in sums && r != runId ==> PatchSummaries(sums, runId, status)[r] == sums[r]
  {
  }

  /** The `approve`/`reject` status a decision gives; the VPS ignores the
      decision's `editedAfter`. */
  function DecideProposal(p: Proposal, ds: seq<ApprovalDecision>): Proposal
  {
    match DecisionFor(ds, p.proposalId)
    case None => p
    case Some(d) => p.(status := Some(if d.decision == Approve then Approved else Rejected))
  }

  /** The snapshot's proposals after `setApprovals`. */
  function DecideProposals(ps: seq<Proposal>, ds: seq<ApprovalDecision>): (r: seq<Proposal>)
    ensures |r| == |ps|
    ensures forall i :: 0 <= i < |ps| ==> r[i] == DecideProposal(ps[i], ds)
  {
    seq(|ps|, i requires 0 <= i < |ps| => DecideProposal(ps[i], ds))
  }

  /** Only the listed proposals change, and only in status; a listed one
      takes the status of the last decision naming it. */
  lemma DecideProposalsEffect(ps: seq<Proposal>, ds: seq<ApprovalDecision>, i: nat)
    requires i < |ps|
    ensures var q := DecideProposals(ps, ds)[i];
      && q == ps[i].(status := q.status)
      && (q != ps[i] ==> exists j :: 0 <= j < |ds| && ds[j].proposalId == ps[i].proposalId)
      && ((forall j :: 0 <= j < |ds| ==> ds[j].proposalId != ps[i].proposalId) ==> q == ps[i])
  {
  }

  lemma {:induction false} DecisionForAppend(ds1: seq<ApprovalDecision>, ds2: seq<ApprovalDecision>, id: string)
    ensures DecisionFor(ds1 + ds2, id) == if DecisionFor(ds2, id).Some? then DecisionFor(ds2, id) else DecisionFor(ds1, id)
    decreases |ds2|
  {
    if ds2 == [] {
      assert ds1 + ds2 == ds1;
    } else {
      var last := ds2[|ds2| - 1];
      assert (ds1 + ds2)[..|ds1 + ds2| - 1] == ds1 + ds2[..|ds2| - 1];
      if last.proposalId != id {
        DecisionForAppend(ds1, ds2[..|ds2| - 1], id);
      }
    }
  }

  /** Two approval commands applied one after the other decide like one
      command listing both, the later decisions winning. */
  lemma DecideProposalsTwice(ps: seq<Proposal>, ds1: seq<ApprovalDecision>, ds2: seq<ApprovalDecision>)
    ensures DecideProposals(DecideProposals(ps, ds1), ds2) == DecideProposals(ps, ds1 + ds2)
  {
    var once := DecideProposals(ps, ds1);
    forall i | 0 <= i < |ps|
      ensures DecideProposals(once, ds2)[i] == DecideProposals(ps, ds1 + ds2)[i]
    {
      DecisionForAppend(ds1, ds2, ps[i].proposalId);
    }
  }

  /** The summary `enqueueJob` creates: queued, all counters zero. */
  function QueuedSummary(job: CleanupJob, runId: string, now: string): RunSummary
  {
    RunSummary(runId, job.deviceId, job.jobId, Queued, job.mode.dryRun, now, None, 0, 0, 0, 0, 0, 0, None)
  }

  class InMemoryControlStore {
    var pairingSessions: map<string, PairingSession>
    var devices: map<string, DeviceRecord>
    /** The insertion order of `devices` (a JavaScript `Map` iterates in it). */
    var deviceOrder: seq<string>
    var deviceTokens: map<string, string>
    var jobs: map<string, CleanupJob>
    var jobStatus: map<string, JobStatus>
    var jobByDevice: map<string, seq<string>>
    var jobRunId: map<string, string>
    var runSummaries: map<string, RunSummary>
    var runSnapshots: map<string, RunSnapshot>
    var runProgress: map<string, seq<ProgressEntry>>
    var approvalCommands: map<string, ApprovalCommand>
    var executeCommands: map<string, ExecuteCommand>
    var rollbackCommands: map<string, RollbackCommand>

    ghost predicate Valid()
      reads this
    {
      SummariesSynced() && DevicesListed()
    }

    ghost predicate SummariesSynced()
      reads this`runSummaries, this`runSnapshots
    {
      Synced(runSummaries, runSnapshots)
    }

    ghost predicate DevicesListed()
      reads this`deviceOrder, this`devices
    {
      Listed(deviceOrder, devices)
    }

    constructor ()
      ensures Valid()
      ensures pairingSessions == map[] && devices == map[] && deviceOrder == [] && deviceTokens == map[]
      ensures jobs == map[] && jobStatus == map[] && jobByDevice == map[] && jobRunId == map[]
      ensures runSummaries == map[] && runSnapshots == map[] && runProgress == map[]
      ensures approvalCommands == map[] && executeCommands == map[] && rollbackCommands == map[]
    {
      pairingSessions, devices, deviceOrder, deviceTokens := map[], map[], [], map[];
      jobs, jobStatus, jobByDevice, jobRunId := map[], map[], map[], map[];
      runSummaries, runSnapshots, runProgress := map[], map[], map[];
      approvalCommands, executeCommands, rollbackCommands := map[], map[], map[];
    }

    /** `startPairing`: a new session, auto-approved and not completed. */
    method StartPairing(deviceLabel: string, os: OsKind, sessionId: string, code: string, expiresAt: string)
      returns (r: PairingStart)
      modifies this`pairingSessions
      ensures r == PairingStart(sessionId, code, expiresAt)
      ensures pairingSessions == old(pairingSessions)[sessionId := PairingSession(sessionId, code, expiresAt, deviceLabel, os, true, false)]
      ensures CanComplete(pairingSessions, sessionId)
    {
      pairingSessions := pairingSessions[sessionId := PairingSession(sessionId, code, expiresAt, deviceLabel, os, true, false)];
      r := PairingStart(sessionId, code, expiresAt);
    }

    /** `devices.set(record.deviceId, record)`: a new id joins the end of the
        insertion order, a known one keeps its place. */
    method StoreDevice(deviceId: string, record: DeviceRecord)
      requires DevicesListed()
      modifies this`devices, this`deviceOrder
      ensures DevicesListed()
      ensures devices == old(devices)[deviceId := record]
      ensures deviceOrder == if deviceId in old(devices) then old(deviceOrder) else old(deviceOrder) + [deviceId]
    {
      ListedSet(deviceOrder, devices, deviceId, record);
      deviceOrder := if deviceId in devices then deviceOrder else deviceOrder + [deviceId];
      devices := devices[deviceId := record];
    }

    /** `completePairing`: for an open session, a new offline device, its
        token and an empty queue, and the session is closed; a session can
        be completed once only. */
    method CompletePairing(sessionId: string, deviceId: string, deviceToken: string, now: string) returns (r: Option<Paired>)
      requires Valid()
      modifies this`pairingSessions, this`devices, this`deviceOrder, this`deviceTokens, this`jobByDevice
      ensures Valid()
      ensures r.Some? <==> old(CanComplete(pairingSessions, sessionId))
      ensures !CanComplete(pairingSessions, sessionId)
      ensures r.None? ==> pairingSessions == old(pairingSessions) && devices == old(devices) && deviceOrder == old(deviceOrder)
                          && deviceTokens == old(deviceTokens) && jobByDevice == old(jobByDevice)
      ensures r.Some? ==>
        var s := old(pairingSessions)[sessionId];
        && r.value == Paired(deviceId, deviceToken, now)
        && pairingSessions == old(pairingSessions)[sessionId := s.(completed := true)]
        && devices == old(devices)[deviceId := DeviceRecord(deviceId, s.deviceLabel, s.os, Offline, None, now)]
        && deviceOrder == (if deviceId in old(devices) then old(deviceOrder) else old(deviceOrder) + [deviceId])
        && deviceTokens == old(deviceTokens)[deviceToken := deviceId]
        && jobByDevice == old(jobByDevice)[deviceId := []]
      ensures r.Some? && deviceToken != "" ==> ResolveDeviceByToken(Some(deviceToken)) == Some(deviceId)
    {
      if !CanComplete(pairingSessions, sessionId) {
        return None;
      }
      var s := pairingSessions[sessionId];
      StoreDevice(deviceId, DeviceRecord(deviceId, s.deviceLabel, s.os, Offline, None, now));
      deviceTokens := deviceTokens[deviceToken := deviceId];
      jobByDevice := jobByDevice[deviceId := []];
      pairingSessions := pairingSessions[sessionId := s.(completed := true)];
      r := Some(Paired(deviceId, deviceToken, now));
    }

    /** `resolveDeviceByToken`: no device for a missing or empty token. */
    function ResolveDeviceByToken(token: Option<string>): (r: Option<string>)
      reads this
      ensures r.Some? <==> token.Some? && token.value != "" && token.value in deviceTokens
      ensures r.Some? ==> r.value == deviceTokens[token.value]
    {
      if token.None? || token.value == "" then None else Lookup(deviceTokens, token.value)
    }

    /** `heartbeat`: a known device goes online with the heartbeat time. */
    method Heartbeat(deviceId: string, now: string) returns (r: Option<DeviceRecord>)
      requires Valid()
      modifies this`devices, this`deviceOrder
      ensures Valid()
      ensures deviceOrder == old(deviceOrder)
      ensures r.Some? <==> deviceId in old(devices)
      ensures r.None? ==> devices == old(devices)
      ensures r.Some? ==> r.value == old(devices)[deviceId].(status := Online, lastHeartbeatAt := Some(now))
                          && devices == old(devices)[deviceId := r.value]
    {
      if deviceId !in devices {
        return None;
      }
      var next := devices[deviceId].(status := Online, lastHeartbeatAt := Some(now));
      StoreDevice(deviceId, next);
      r := Some(next);
    }

    /** `listDevices`: every device once, ordered by label (equal labels
        keep their insertion order). */
    function ListDevices(): (r: seq<DeviceRecord>)
      requires Listed(deviceOrder, devices)
      reads this
      ensures SortedAsc(r, DeviceLabel)
      ensures |r| == |devices|
      ensures forall d :: d in r <==> exists id :: id in devices && devices[id] == d
      ensures forall lab :: WithKey(r, DeviceLabel, lab)
                              == WithKey(DevicesInOrder(deviceOrder, devices), DeviceLabel, lab)
    {
      ListedMembers(deviceOrder, devices);
      var inOrder := DevicesInOrder(deviceOrder, devices);
      var r := SortAsc(inOrder, DeviceLabel);
      forall lab
        ensures WithKey(r, DeviceLabel, lab)
                == WithKey(inOrder, DeviceLabel, lab)
      {
        SortAscStable(inOrder, DeviceLabel, lab);
      }
      assert forall d :: d in r <==> d in inOrder by {
        forall d ensures d in r <==> d in inOrder {
          assert d in r <==> d in multiset(r);
          assert d in inOrder <==> d in multiset(inOrder);
        }
      }
      r
    }

    function GetDevice(deviceId: string): Option<DeviceRecord>
      reads this
    {
      Lookup(devices, deviceId)
    }

    /** `enqueueJob`: the job is stored queued at the back of its device's
        queue, with a fresh run whose summary is queued and whose snapshot
        has no proposals. */
    method EnqueueJob(job: CleanupJob, runId: string, now: string) returns (r: Enqueued)
      requires Valid()
      modifies this`jobs, this`jobStatus, this`jobByDevice, this`jobRunId, this`runSummaries, this`runSnapshots
      ensures Valid()
      ensures r == Enqueued(job, runId)
      ensures jobs == old(jobs)[job.jobId := job] && jobStatus == old(jobStatus)[job.jobId := Queued]
      ensures jobByDevice == old(jobByDevice)[job.deviceId := QueueOf(old(jobByDevice), job.deviceId) + [job.jobId]]
      ensures jobRunId == old(jobRunId)[job.jobId := runId]
      ensures runSummaries == old(runSummaries)[runId := QueuedSummary(job, runId, now)]
      ensures runSnapshots == old(runSnapshots)[runId := RunSnapshot(QueuedSummary(job, runId, now), [])]
      ensures GetJob(job.jobId) == Some(JobView(job, Queued, Some(runId)))
      ensures FirstQueued(QueueOf(jobByDevice, job.deviceId), jobStatus).Some?
    {
      PutRun(runId, RunSnapshot(QueuedSummary(job, runId, now), []));
      QueueJob(job, runId);
      r := Enqueued(job, runId);
    }

    /** Records a queued job at the end of its device's queue, with its run. */
    method QueueJob(job: CleanupJob, runId: string)
      modifies this`jobs, this`jobStatus, this`jobByDevice, this`jobRunId
      ensures jobs == old(jobs)[job.jobId := job] && jobStatus == old(jobStatus)[job.jobId := Queued]
      ensures jobByDevice == old(jobByDevice)[job.deviceId := QueueOf(old(jobByDevice), job.deviceId) + [job.jobId]]
      ensures jobRunId == old(jobRunId)[job.jobId := runId]
      ensures FirstQueued(QueueOf(jobByDevice, job.deviceId), jobStatus).Some?
    {
      var queue := QueueOf(jobByDevice, job.deviceId) + [job.jobId];
      jobs, jobStatus := jobs[job.jobId := job], jobStatus[job.jobId := Queued];
      jobByDevice, jobRunId := jobByDevice[job.deviceId := queue], jobRunId[job.jobId := runId];
      LastQueued(queue, jobStatus);
    }

    /** Stores a run's snapshot together with its own summary. */
    method PutRun(runId: string, snap: RunSnapshot)
      requires SummariesSynced()
      modifies this`runSummaries, this`runSnapshots
      ensures SummariesSynced()
      ensures runSummaries == old(runSummaries)[runId := snap.runSummary]
      ensures runSnapshots == old(runSnapshots)[runId := snap]
    {
      SyncedPut(runSummaries, runSnapshots, runId, snap);
      runSummaries, runSnapshots := runSummaries[runId := snap.runSummary], runSnapshots[runId := snap];
    }

    /** `getJob`: the job, its status (queued when unrecorded) and its run. */
    function GetJob(jobId: string): (r: Option<JobView>)
      reads this
      ensures r.Some? <==> jobId in jobs
      ensures r.Some? ==> r.value.job == jobs[jobId] && r.value.runId == Lookup(jobRunId, jobId)
      ensures r.Some? ==> r.value.status == (if jobId in jobStatus then jobStatus[jobId] else Queued)
    {
      if jobId !in jobs then None
      else Some(JobView(jobs[jobId], Lookup(jobStatus, jobId).GetOr(Queued), Lookup(jobRunId, jobId)))
    }

    /** `patchRunSummary(runId, {status})`. */
    method PatchRunSummary(runId: string, status: JobStatus)
      requires Valid()
      modifies this`runSummaries, this`runSnapshots
      ensures Valid()
      ensures runSummaries == PatchSummaries(old(runSummaries), runId, status)
      ensures runSnapshots == PatchSnapshots(old(runSummaries), old(runSnapshots), runId, status)
    {
      PatchKeepsSync(runSummaries, runSnapshots, runId, status);
      var sums, snaps := runSummaries, runSnapshots;
      runSummaries := PatchSummaries(sums, runId, status);
      runSnapshots := PatchSnapshots(sums, snaps, runId, status);
    }

    /** Patch the run recorded for a job when that run id is non-empty. */
    method PatchJobRun(jobId: string, status: JobStatus)
      requires Valid()
      modifies this`runSummaries, this`runSnapshots
      ensures Valid()
      ensures jobId in jobRunId && jobRunId[jobId] != "" ==>
        runSummaries == PatchSummaries(old(runSummaries), jobRunId[jobId], status)
        && runSnapshots == PatchSnapshots(old(runSummaries), old(runSnapshots), jobRunId[jobId], status)
      ensures !(jobId in jobRunId && jobRunId[jobId] != "") ==>
        runSummaries == old(runSummaries) && runSnapshots == old(runSnapshots)
    {
      if jobId in jobRunId && jobRunId[jobId] != "" {
        PatchRunSummary(jobRunId[jobId], status);
      }
    }

    /** The `for (const jobId of queue)` scan of `claimNextJob`. */
    method FindFirstQueued(queue: seq<string>) returns (k: Option<nat>)
      ensures k == FirstQueued(queue, jobStatus)
    {
      var i := 0;
      while i < |queue|
        invariant 0 <= i <= |queue|
        invariant forall j :: 0 <= j < i ==> !IsQueued(jobStatus, queue[j])
      {
        if IsQueued(jobStatus, queue[i]) {
          return Some(i);
        }
        i := i + 1;
      }
      return None;
    }

    /** `claimNextJob`: the first queued job of the device's queue becomes
        claimed (and so does its run); nothing changes when none is queued. */
    method ClaimNextJob(deviceId: string) returns (r: Option<CleanupJob>)
      requires Valid()
      modifies this`jobStatus, this`runSummaries, this`runSnapshots
      ensures Valid()
      ensures var queue := QueueOf(jobByDevice, deviceId);
        match FirstQueued(queue, old(jobStatus))
        case None =>
          r.None? && jobStatus == old(jobStatus)
          && runSummaries == old(runSummaries) && runSnapshots == old(runSnapshots)
        case Some(k) =>
          && r == Lookup(jobs, queue[k])
          && jobStatus == old(jobStatus)[queue[k] := Claimed]
          && (queue[k] in jobRunId && jobRunId[queue[k]] != "" ==>
                && runSummaries == PatchSummaries(old(runSummaries), jobRunId[queue[k]], Claimed)
                && runSnapshots == PatchSnapshots(old(runSummaries), old(runSnapshots), jobRunId[queue[k]], Claimed))
          && (!(queue[k] in jobRunId && jobRunId[queue[k]] != "") ==>
                runSummaries == old(runSummaries) && runSnapshots == old(runSnapshots))
    {
      var queue := QueueOf(jobByDevice, deviceId);
      var found := FindFirstQueued(queue);
      if found.None? {
        return None;
      }
      var jobId := queue[found.value];
      jobStatus := jobStatus[jobId := Claimed];
      PatchJobRun(jobId, Claimed);
      r := Lookup(jobs, jobId);
    }

    /** `ackJob`: any known job becomes running (no ownership check). */
    method AckJob(jobId: string) returns (ok: bool)
      requires Valid()
      modifies this`jobStatus, this`runSummaries, this`runSnapshots
      ensures Valid()
      ensures ok <==> jobId in jobs
      ensures !ok ==> jobStatus == old(jobStatus) && runSummaries == old(runSummaries) && runSnapshots == old(runSnapshots)
      ensures ok ==> jobStatus == old(jobStatus)[jobId := Running]
      ensures ok && jobId in jobRunId && jobRunId[jobId] != "" ==>
        && runSummaries == PatchSummaries(old(runSummaries), jobRunId[jobId], Running)
        && runSnapshots == PatchSnapshots(old(runSummaries), old(runSnapshots), jobRunId[jobId], Running)
      ensures ok && !(jobId in jobRunId && jobRunId[jobId] != "") ==>
        runSummaries == old(runSummaries) && runSnapshots == old(runSnapshots)
    {
      if jobId !in jobs {
        return false;
      }
      jobStatus := jobStatus[jobId := Running];
      PatchJobRun(jobId, Running);
      ok := true;
    }

    /** `appendProgress`: for a known run, the event joins its log and the
        run takes the reported status. */
    method AppendProgress(runId: string, status: JobStatus, progress: ProgressEntry) returns (ok: bool)
      requires Valid()
      modifies this`runProgress, this`runSummaries, this`runSnapshots
      ensures Valid()
      ensures ok <==> runId in old(runSummaries)
      ensures !ok ==> runProgress == old(runProgress) && runSummaries == old(runSummaries) && runSnapshots == old(runSnapshots)
      ensures ok ==> runProgress == old(runProgress)[runId := GetRunProgressIn(old(runProgress), runId) + [progress]]
                     && runSummaries == old(runSummaries)[runId := old(runSummaries)[runId].(status := status)]
                     && runSnapshots == PatchSnapshots(old(runSummaries), old(runSnapshots), runId, status)
    {
      if runId !in runSummaries {
        return false;
      }
      runProgress := runProgress[runId := GetRunProgressIn(runProgress, runId) + [progress]];
      PatchRunSummary(runId, status);
      ok := true;
    }

    /** `putResult`: for a known run, the snapshot and its summary replace
        the stored ones and the summary's job takes the summary's status. */
    method PutResult(runId: string, snapshot: RunSnapshot) returns (ok: bool)
      requires Valid()
      modifies this`runSnapshots, this`runSummaries, this`jobStatus
      ensures Valid()
      ensures ok <==> runId in old(runSummaries)
      ensures !ok ==> runSnapshots == old(runSnapshots) && runSummaries == old(runSummaries) && jobStatus == old(jobStatus)
      ensures ok ==> runSnapshots == old(runSnapshots)[runId := snapshot]
                     && runSummaries == old(runSummaries)[runId := snapshot.runSummary]
                     && jobStatus == old(jobStatus)[snapshot.runSummary.jobId := snapshot.runSummary.status]
    {
      if runId !in runSummaries {
        return false;
      }
      SyncedPut(runSummaries, runSnapshots, runId, snapshot);
      runSnapshots := runSnapshots[runId := snapshot];
      runSummaries := runSummaries[runId := snapshot.runSummary];
      jobStatus := jobStatus[snapshot.runSummary.jobId := snapshot.runSummary.status];
      ok := true;
    }

    function GetRunSummary(runId: string): Option<RunSummary>
      reads this
    {
      Lookup(runSummaries, runId)
    }

    function GetRunSnapshot(runId: string): Option<RunSnapshot>
      reads this
    {
      Lookup(runSnapshots, runId)
    }

    function GetRunProgress(runId: string): seq<ProgressEntry>
      reads this
    {
      GetRunProgressIn(runProgress, runId)
    }

    /** `setApprovals`: the command is the run's latest approval; a run with
        a snapshot has its listed proposals decided and becomes
        ready_to_execute. */
    method SetApprovals(command: ApprovalCommand)
      requires Valid()
      modifies this`approvalCommands, this`runSnapshots, this`runSummaries
      ensures Valid()
      ensures approvalCommands == old(approvalCommands)[command.runId := command]
      ensures command.runId !in old(runSnapshots) ==> runSnapshots == old(runSnapshots) && runSummaries == old(runSummaries)
      ensures command.runId in old(runSnapshots) ==>
        var snap := old(runSnapshots)[command.runId];
        var summary := snap.runSummary.(status := ReadyToExecute);
        && runSnapshots == old(runSnapshots)[command.runId := RunSnapshot(summary, DecideProposals(snap.proposals, command.approvals))]
        && runSummaries == old(runSummaries)[command.runId := summary]
    {
      approvalCommands := approvalCommands[command.runId := command];
      if command.runId in runSnapshots {
        var snap := runSnapshots[command.runId];
        var summary := snap.runSummary.(status := ReadyToExecute);
        SyncedPut(runSummaries, runSnapshots, command.runId, RunSnapshot(summary, DecideProposals(snap.proposals, command.approvals)));
        runSnapshots := runSnapshots[command.runId := RunSnapshot(summary, DecideProposals(snap.proposals, command.approvals))];
        runSummaries := runSummaries[command.runId := summary];
      }
    }

    function GetApprovals(runId: string): Option<ApprovalCommand>
      reads this
    {
      Lookup(approvalCommands, runId)
    }

    /** `setExecuteCommand`: the command is posted and the run becomes
        ready_to_execute. */
    method SetExecuteCommand(command: ExecuteCommand)
      requires Valid()
      modifies this`executeCommands, this`runSummaries, this`runSnapshots
      ensures Valid()
      ensures executeCommands == old(executeCommands)[command.runId := command]
      ensures runSummaries == PatchSummaries(old(runSummaries), command.runId, ReadyToExecute)
      ensures runSnapshots == PatchSnapshots(old(runSummaries), old(runSnapshots), command.runId, ReadyToExecute)
    {
      executeCommands := executeCommands[command.runId := command];
      PatchRunSummary(command.runId, ReadyToExecute);
    }

    function GetExecuteCommand(runId: string): Option<ExecuteCommand>
      reads this
    {
      Lookup(executeCommands, runId)
    }

    /** `setRollbackCommand`: the command is posted; nothing else changes. */
    method SetRollbackCommand(command: RollbackCommand)
      modifies this`rollbackCommands
      ensures rollbackCommands == old(rollbackCommands)[command.runId := command]
    {
      rollbackCommands := rollbackCommands[command.runId := command];
    }

    function GetRollbackCommand(runId: string): Option<RollbackCommand>
      reads this
    {
      Lookup(rollbackCommands, runId)
    }
  }

  /** `runProgress.get(runId) ?? []`. */
  function GetRunProgressIn(m: map<string, seq<ProgressEntry>>, runId: string): seq<ProgressEntry>
  {
    if runId in m then m[runId] else []
  }
}
