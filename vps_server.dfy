// The device-facing routes of the control plane (vps-control-api
// server.ts): who may call them and which store operation a request
// reaches. A request body is `None` when it fails schema validation; the
// `authorization` header is given as received.
module VpsServer {
  import opened Wrappers
  import opened Contracts
  import opened Auth
  import opened ControlStore

  datatype Outcome<T> = Ok(value: T) | Fail(reply: Reply)

  datatype HeartbeatBody = HeartbeatBody(deviceId: string, localUiPort: Option<int>)
  datatype HeartbeatReply = HeartbeatReply(serverTime: string, pollAfterMs: nat, device: DeviceRecord)
  datatype NextJob = NextJob(job: Option<CleanupJob>, runId: Option<string>)
  datatype ProgressBody = ProgressBody(runId: string, status: JobStatus, progress: ProgressEntry)
  datatype ResultBody = ResultBody(runId: string, result: RunSnapshot)
  datatype Commands = Commands(approvals: Option<ApprovalCommand>, execute: Option<ExecuteCommand>,
                               rollback: Option<RollbackCommand>)

  /** The poll interval the heartbeat reply suggests. */
  const HeartbeatPollAfterMs: nat := 3000

  const InvalidRequest := Reply(400, "invalid_request", "request body validation failed")
  const InvalidDeviceToken := Reply(401, "unauthorized", "invalid device token")
  const JobNotFound := Reply(404, "not_found", "job not found")
  const RunNotFound := Reply(404, "not_found", "run not found")
  const ForeignJob := Reply(403, "forbidden", "job does not belong to this device")

  /** The run a progress or result post writes to, as written: the job in
      the URL must exist and belong to the caller, but the run written is
      whatever the body names. */
  function JobRunTargetAsWritten(deviceId: string, job: Option<JobView>, bodyRunId: string): (r: Outcome<string>)
    ensures job.None? ==> r == Fail(JobNotFound)
    ensures job.Some? && job.value.job.deviceId != deviceId ==> r == Fail(ForeignJob)
    ensures r.Ok? <==> job.Some? && job.value.job.deviceId == deviceId
    ensures r.Ok? ==> r.value == bodyRunId
  {
    if job.None? then Fail(JobNotFound)
    else if job.value.job.deviceId != deviceId then Fail(ForeignJob)
    else Ok(bodyRunId)
  }

  /** A device that owns one job can have a post about it land on a run
      that is not that job's run. */
  lemma ForeignRunAccepted()
    ensures var job := CleanupJob("job-a", "dev-a", Manual, JobScope(None, None, None, None), JobMode(true, []),
                                  Actor(User, "u"), "t0");
      var view := Some(JobView(job, Running, Some("run-a")));
      JobRunTargetAsWritten("dev-a", view, "run-b") == Ok("run-b") && view.value.runId != Some("run-b")
  {
  }

  const ForeignRun := Reply(403, "forbidden", "run does not belong to this job")

  /** The intended guard: the body's run must be the run of the job the
      caller owns. */
  function JobRunTarget(deviceId: string, job: Option<JobView>, bodyRunId: string): (r: Outcome<string>)
    ensures job.None? ==> r == Fail(JobNotFound)
    ensures job.Some? && job.value.job.deviceId != deviceId ==> r == Fail(ForeignJob)
    ensures r.Ok? <==> job.Some? && job.value.job.deviceId == deviceId && job.value.runId == Some(bodyRunId)
    ensures r.Ok? ==> r.value == bodyRunId
  {
    if job.None? then Fail(JobNotFound)
    else if job.value.job.deviceId != deviceId then Fail(ForeignJob)
    else if job.value.runId != Some(bodyRunId) then Fail(ForeignRun)
    else Ok(bodyRunId)
  }

  /** Every run the intended guard lets a device write is the run the
      store recorded for one of that device's jobs. */
  lemma JobRunTargetOwned(store: InMemoryControlStore, deviceId: string, jobId: string, bodyRunId: string)
    ensures var r := JobRunTarget(deviceId, store.GetJob(jobId), bodyRunId);
      r.Ok? ==> jobId in store.jobs && store.jobs[jobId].deviceId == deviceId
                && jobId in store.jobRunId && store.jobRunId[jobId] == r.value
  {
  }

  /** The device a request's bearer token stands for. */
  function Caller(store: InMemoryControlStore, authorization: Option<string>): (r: Option<string>)
    reads store
    ensures r.Some? <==> ExtractBearer(authorization).Some? && ExtractBearer(authorization).value in store.deviceTokens
    ensures r.Some? ==> r.value == store.deviceTokens[ExtractBearer(authorization).value]
  {
    store.ResolveDeviceByToken(ExtractBearer(authorization))
  }

  /** `POST /v1/pairing/complete`: 400 for a missing id, 404 when the
      store refuses the session. */
  method PostPairingComplete(store: InMemoryControlStore, pairingSessionId: Option<string>,
                             deviceId: string, deviceToken: string, now: string) returns (r: Outcome<Paired>)
    requires store.Valid()
    modifies store`pairingSessions, store`devices, store`deviceOrder, store`deviceTokens, store`jobByDevice
    ensures store.Valid()
    ensures pairingSessionId.None? || pairingSessionId == Some("") ==>
      r == Fail(InvalidRequest) && store.pairingSessions == old(store.pairingSessions)
    ensures pairingSessionId.Some? && pairingSessionId.value != "" ==>
      (r.Ok? <==> old(CanComplete(store.pairingSessions, pairingSessionId.value)))
    ensures pairingSessionId.Some? && pairingSessionId.value != "" && r.Fail? ==>
      r.reply == Reply(404, "not_found", "pairing session not found or not approved")
    ensures r.Ok? ==> r.value == Paired(deviceId, deviceToken, now)
  {
    if pairingSessionId.None? || pairingSessionId.value == "" {
      return Fail(InvalidRequest);
    }
    var paired := store.CompletePairing(pairingSessionId.value, deviceId, deviceToken, now);
    if paired.None? {
      return Fail(Reply(404, "not_found", "pairing session not found or not approved"));
    }
    r := Ok(paired.value);
  }

  /** `POST /v1/device/heartbeat`: 401 for an unknown token, 400 for a bad
      body, 403 when the body names another device than the token's, 404
      for a device that vanished; otherwise the device is online and the
      reply suggests polling after 3000 ms. */
  method PostHeartbeat(store: InMemoryControlStore, authorization: Option<string>, body: Option<HeartbeatBody>,
                       now: string) returns (r: Outcome<HeartbeatReply>)
    requires store.Valid()
    modifies store`devices, store`deviceOrder
    ensures store.Valid()
    ensures var caller := old(Caller(store, authorization));
      && (caller.None? ==> r == Fail(InvalidDeviceToken))
      && (caller.Some? && body.None? ==> r == Fail(InvalidRequest))
      && (caller.Some? && body.Some? && body.value.deviceId != caller.value ==>
            r == Fail(Reply(403, "forbidden", "device id does not match token")))
      && (r.Ok? <==> caller.Some? && body.Some? && body.value.deviceId == caller.value
                     && caller.value in old(store.devices))
    ensures r.Fail? ==> store.devices == old(store.devices)
    ensures r.Ok? ==> r.value.pollAfterMs == HeartbeatPollAfterMs && r.value.serverTime == now
                      && r.value.device == old(store.devices)[body.value.deviceId].(status := Online, lastHeartbeatAt := Some(now))
                      && store.devices == old(store.devices)[body.value.deviceId := r.value.device]
  {
    var caller := Caller(store, authorization);
    if caller.None? {
      return Fail(InvalidDeviceToken);
    }
    if body.None? {
      return Fail(InvalidRequest);
    }
    if body.value.deviceId != caller.value {
      return Fail(Reply(403, "forbidden", "device id does not match token"));
    }
    var device := store.Heartbeat(body.value.deviceId, now);
    if device.None? {
      return Fail(Reply(404, "not_found", "device not found"));
    }
    r := Ok(HeartbeatReply(now, HeartbeatPollAfterMs, device.value));
  }

  /** `GET /v1/device/jobs/next`: 401 for an unknown token; otherwise the
      caller's next queued job is claimed and returned with its run. */
  method GetNextJob(store: InMemoryControlStore, authorization: Option<string>) returns (r: Outcome<NextJob>)
    requires store.Valid()
    modifies store`jobStatus, store`runSummaries, store`runSnapshots
    ensures store.Valid()
    ensures old(Caller(store, authorization)).None? ==>
      && r == Fail(InvalidDeviceToken) && store.jobStatus == old(store.jobStatus)
      && store.runSummaries == old(store.runSummaries) && store.runSnapshots == old(store.runSnapshots)
    ensures old(Caller(store, authorization)).Some? ==> r.Ok?
    ensures r.Ok? ==>
      var queue := QueueOf(store.jobByDevice, old(Caller(store, authorization)).value);
      match FirstQueued(queue, old(store.jobStatus))
      case None =>
        && r.value == NextJob(None, None) && store.jobStatus == old(store.jobStatus)
        && store.runSummaries == old(store.runSummaries) && store.runSnapshots == old(store.runSnapshots)
      case Some(k) =>
        && store.jobStatus == old(store.jobStatus)[queue[k] := Claimed]
        && (queue[k] in store.jobRunId && store.jobRunId[queue[k]] != "" ==>
              && store.runSummaries == PatchSummaries(old(store.runSummaries), store.jobRunId[queue[k]], Claimed)
              && store.runSnapshots == PatchSnapshots(old(store.runSummaries), old(store.runSnapshots), store.jobRunId[queue[k]], Claimed))
        && (!(queue[k] in store.jobRunId && store.jobRunId[queue[k]] != "") ==>
              store.runSummaries == old(store.runSummaries) && store.runSnapshots == old(store.runSnapshots))
        && r.value.job == Lookup(store.jobs, queue[k])
        && (r.value.job.None? ==> r.value.runId.None?)
        && (r.value.job.Some? ==> r.value.runId == (if r.value.job.value.jobId in store.jobs
                                                    then Lookup(store.jobRunId, r.value.job.value.jobId) else None))
  {
    var caller := Caller(store, authorization);
    if caller.None? {
      return Fail(InvalidDeviceToken);
    }
    var job := store.ClaimNextJob(caller.value);
    var runId := None;
    if job.Some? {
      var view := store.GetJob(job.value.jobId);
      if view.Some? {
        runId := view.value.runId;
      }
    }
    r := Ok(NextJob(job, runId));
  }

  /** `POST /v1/device/jobs/:jobId/ack`: a valid token suffices; the job
      need not belong to the caller. */
  method PostAck(store: InMemoryControlStore, authorization: Option<string>, jobId: string) returns (r: Outcome<bool>)
    requires store.Valid()
    modifies store`jobStatus, store`runSummaries, store`runSnapshots
    ensures store.Valid()
    ensures old(Caller(store, authorization)).None? ==> r == Fail(InvalidDeviceToken)
    ensures old(Caller(store, authorization)).Some? ==>
      (r == Ok(true) <==> jobId in store.jobs) && (r.Fail? ==> r.reply == JobNotFound)
    ensures r.Fail? ==>
      store.jobStatus == old(store.jobStatus) && store.runSummaries == old(store.runSummaries)
      && store.runSnapshots == old(store.runSnapshots)
    ensures r.Ok? ==> store.jobStatus == old(store.jobStatus)[jobId := Running]
    ensures r.Ok? && jobId in store.jobRunId && store.jobRunId[jobId] != "" ==>
      && store.runSummaries == PatchSummaries(old(store.runSummaries), store.jobRunId[jobId], Running)
      && store.runSnapshots == PatchSnapshots(old(store.runSummaries), old(store.runSnapshots), store.jobRunId[jobId], Running)
    ensures r.Ok? && !(jobId in store.jobRunId && store.jobRunId[jobId] != "") ==>
      store.runSummaries == old(store.runSummaries) && store.runSnapshots == old(store.runSnapshots)
  {
    var caller := Caller(store, authorization);
    if caller.None? {
      return Fail(InvalidDeviceToken);
    }
    var ok := store.AckJob(jobId);
    if !ok {
      return Fail(JobNotFound);
    }
    r := Ok(true);
  }

  /** `POST /v1/device/jobs/:jobId/progress`: 401, 404 for an unknown job,
      403 for another device's job, 400 for a bad body, 403 when the body's
      run is not the job's run (the corrected guard), 404 for an unknown run;
      otherwise the event is appended to the job's run. */
  method PostProgress(store: InMemoryControlStore, authorization: Option<string>, jobId: string,
                      body: Option<ProgressBody>) returns (r: Outcome<bool>)
    requires store.Valid()
    modifies store`runProgress, store`runSummaries, store`runSnapshots
    ensures store.Valid()
    ensures var caller := old(Caller(store, authorization));
      var job := old(store.GetJob(jobId));
      && (caller.None? ==> r == Fail(InvalidDeviceToken))
      && (caller.Some? && job.None? ==> r == Fail(JobNotFound))
      && (caller.Some? && job.Some? && job.value.job.deviceId != caller.value ==> r == Fail(ForeignJob))
      && (caller.Some? && job.Some? && job.value.job.deviceId == caller.value && body.None? ==> r == Fail(InvalidRequest))
      && ((caller.Some? && job.Some? && job.value.job.deviceId == caller.value && body.Some?
           && job.value.runId != Some(body.value.runId)) ==> r == Fail(ForeignRun))
      && (r.Ok? <==> caller.Some? && job.Some? && job.value.job.deviceId == caller.value && body.Some?
                     && job.value.runId == Some(body.value.runId) && body.value.runId in old(store.runSummaries))
    ensures r.Fail? ==> store.runProgress == old(store.runProgress) && store.runSummaries == old(store.runSummaries)
                        && store.runSnapshots == old(store.runSnapshots)
    ensures r.Ok? ==>
      store.runProgress == old(store.runProgress)[body.value.runId :=
        GetRunProgressIn(old(store.runProgress), body.value.runId) + [body.value.progress]]
      && store.runSummaries == old(store.runSummaries)[body.value.runId :=
        old(store.runSummaries)[body.value.runId].(status := body.value.status)]
      && store.runSnapshots == PatchSnapshots(old(store.runSummaries), old(store.runSnapshots), body.value.runId, body.value.status)
  {
    var caller := Caller(store, authorization);
    if caller.None? {
      return Fail(InvalidDeviceToken);
    }
    var job := store.GetJob(jobId);
    if job.None? {
      return Fail(JobNotFound);
    }
    if job.value.job.deviceId != caller.value {
      return Fail(ForeignJob);
    }
    if body.None? {
      return Fail(InvalidRequest);
    }
    var target := JobRunTarget(caller.value, job, body.value.runId);
    if target.Fail? {
      return Fail(target.reply);
    }
    var ok := store.AppendProgress(target.value, body.value.status, body.value.progress);
    if !ok {
      return Fail(RunNotFound);
    }
    r := Ok(true);
  }

  /** `POST /v1/device/jobs/:jobId/result`: the same guards as progress;
      otherwise the body's snapshot replaces the job's run. */
  method PostResult(store: InMemoryControlStore, authorization: Option<string>, jobId: string,
                    body: Option<ResultBody>) returns (r: Outcome<bool>)
    requires store.Valid()
    modifies store`runSnapshots, store`runSummaries, store`jobStatus
    ensures store.Valid()
    ensures var caller := old(Caller(store, authorization));
      var job := old(store.GetJob(jobId));
      && (caller.None? ==> r == Fail(InvalidDeviceToken))
      && (caller.Some? && job.None? ==> r == Fail(JobNotFound))
      && (caller.Some? && job.Some? && job.value.job.deviceId != caller.value ==> r == Fail(ForeignJob))
      && (caller.Some? && job.Some? && job.value.job.deviceId == caller.value && body.None? ==> r == Fail(InvalidRequest))
      && ((caller.Some? && job.Some? && job.value.job.deviceId == caller.value && body.Some?
           && job.value.runId != Some(body.value.runId)) ==> r == Fail(ForeignRun))
      && (r.Ok? <==> caller.Some? && job.Some? && job.value.job.deviceId == caller.value && body.Some?
                     && job.value.runId == Some(body.value.runId) && body.value.runId in old(store.runSummaries))
    ensures r.Fail? ==> store.runSnapshots == old(store.runSnapshots) && store.runSummaries == old(store.runSummaries)
                        && store.jobStatus == old(store.jobStatus)
    ensures r.Ok? ==>
      store.runSnapshots == old(store.runSnapshots)[body.value.runId := body.value.result]
      && store.runSummaries == old(store.runSummaries)[body.value.runId := body.value.result.runSummary]
      && store.jobStatus == old(store.jobStatus)[body.value.result.runSummary.jobId := body.value.result.runSummary.status]
  {
    var caller := Caller(store, authorization);
    if caller.None? {
      return Fail(InvalidDeviceToken);
    }
    var job := store.GetJob(jobId);
    if job.None? {
      return Fail(JobNotFound);
    }
    if job.value.job.deviceId != caller.value {
      return Fail(ForeignJob);
    }
    if body.None? {
      return Fail(InvalidRequest);
    }
    var target := JobRunTarget(caller.value, job, body.value.runId);
    if target.Fail? {
      return Fail(target.reply);
    }
    var ok := store.PutResult(target.value, body.value.result);
    if !ok {
      return Fail(RunNotFound);
    }
    r := Ok(true);
  }

  /** `GET /v1/runs/:runId/commands`: 401, 404 for an unknown run, 403 for
      another device's run; otherwise the three mailboxes as stored. */
  function GetCommands(store: InMemoryControlStore, authorization: Option<string>, runId: string): (r: Outcome<Commands>)
    reads store
    ensures Caller(store, authorization).None? ==> r == Fail(InvalidDeviceToken)
    ensures r.Ok? <==> Caller(store, authorization).Some? && runId in store.runSummaries
                       && store.runSummaries[runId].deviceId == Caller(store, authorization).value
    ensures Caller(store, authorization).Some? && runId in store.runSummaries
            && store.runSummaries[runId].deviceId != Caller(store, authorization).value ==>
      r == Fail(Reply(403, "forbidden", "run does not belong to this device"))
    ensures r.Ok? ==> r.value == Commands(Lookup(store.approvalCommands, runId), Lookup(store.executeCommands, runId),
                                          Lookup(store.rollbackCommands, runId))
  {
    var caller := Caller(store, authorization);
    if caller.None? then Fail(InvalidDeviceToken)
    else match store.GetRunSummary(runId)
      case None => Fail(RunNotFound)
      case Some(summary) =>
        if summary.deviceId != caller.value then Fail(Reply(403, "forbidden", "run does not belong to this device"))
        else Ok(Commands(store.GetApprovals(runId), store.GetExecuteCommand(runId), store.GetRollbackCommand(runId)))
  }
}
