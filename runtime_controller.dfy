// The daemon's runtime controller (runtime-controller.ts): the connection
// state machine that starts and stops the poll worker. Whether the
// worker's `start` throws, and whether a running tick ends before the stop
// timeout, enter as parameters; the clock is a `now` string.
module RuntimeControl {
  import opened Wrappers
  import opened Strings
  import opened Poller

  datatype ConnectionState = Disconnected | Connecting | Connected | Stopping

  /** What `status` reports. */
  datatype RuntimeStatus = RuntimeStatus(
    state: ConnectionState,
    poller: PollStatus,
    lastStartedAt: Option<string>,
    lastStoppedAt: Option<string>,
    lastError: Option<string>)

  /** What `startConnection` resolves to. */
  datatype StartReply =
    | Started(alreadyRunning: bool, status: RuntimeStatus)
    | StartFailed(message: string, error: string, status: RuntimeStatus)

  /** What `stopConnectionGraceful` resolves to. */
  datatype StopReply =
    | AlreadyStopped(reason: string, status: RuntimeStatus)
    | Stopped(ok: bool, forced: bool, reason: string, status: RuntimeStatus)

  const StartFailedMessage: string := "runtime_start_failed"
  const DefaultStopReason: string := "manual_stop"

  /** The error a stop that timed out leaves behind. */
  function StopTimeoutError(ms: nat): (e: string)
    ensures StartsWith(e, "runtime_stop_timeout:")
    ensures e[|"runtime_stop_timeout:"|..] == NatToString(ms)
  {
    "runtime_stop_timeout:" + NatToString(ms)
  }

  class RuntimeController {
    const poller: PollWorker
    const stopTimeoutMs: nat
    var connState: ConnectionState
    var lastStartedAt: Option<string>
    var lastStoppedAt: Option<string>
    var lastError: Option<string>

    /** The source's default stop timeout is 20 seconds. */
    constructor (poller: PollWorker, stopTimeoutMs: Option<nat>)
      ensures this.poller == poller && this.stopTimeoutMs == stopTimeoutMs.GetOr(DefaultStopTimeoutMs as nat)
      ensures connState == Disconnected && lastStartedAt.None? && lastStoppedAt.None? && lastError.None?
    {
      this.poller := poller;
      this.stopTimeoutMs := stopTimeoutMs.GetOr(DefaultStopTimeoutMs as nat);
      connState := Disconnected;
      lastStartedAt := None;
      lastStoppedAt := None;
      lastError := None;
    }

    function Status(): RuntimeStatus
      reads this, poller
    {
      RuntimeStatus(connState, poller.GetStatus(), lastStartedAt, lastStoppedAt, lastError)
    }

    /** `startConnection`: a controller connected or connecting reports
        `alreadyRunning` and leaves the worker alone; otherwise the worker
        is started and the controller connected with no error, or, when
        `startError` says the start threw, disconnected with that error. */
    method StartConnection(now: string, startError: Option<string>) returns (r: StartReply)
      modifies this`connState, this`lastStartedAt, this`lastError, poller`running, poller`acceptingJobs
      ensures old(connState) == Connected || old(connState) == Connecting ==>
        && r == Started(true, Status()) && connState == old(connState)
        && lastStartedAt == old(lastStartedAt) && lastError == old(lastError)
        && poller.running == old(poller.running) && poller.acceptingJobs == old(poller.acceptingJobs)
      ensures old(connState) != Connected && old(connState) != Connecting && startError.None? ==>
        && r == Started(false, Status()) && connState == Connected
        && lastStartedAt == Some(now) && lastError.None?
        && poller.running && poller.acceptingJobs == (!old(poller.running) || old(poller.acceptingJobs))
      ensures old(connState) != Connected && old(connState) != Connecting && startError.Some? ==>
        && r == StartFailed(StartFailedMessage, startError.value, Status()) && connState == Disconnected
        && lastStartedAt == old(lastStartedAt) && lastError == startError
        && poller.running == old(poller.running) && poller.acceptingJobs == old(poller.acceptingJobs)
    {
      if connState == Connected || connState == Connecting {
        return Started(true, Status());
      }
      connState := Connecting;
      if startError.Some? {
        connState := Disconnected;
        lastError := startError;
        return StartFailed(StartFailedMessage, startError.value, Status());
      }
      var _ := poller.Start();
      connState := Connected;
      lastStartedAt := Some(now);
      lastError := None;
      return Started(false, Status());
    }

    /** `stopConnectionGraceful`: a disconnected controller reports
        `alreadyStopped` and leaves the worker alone; otherwise the worker
        is stopped gracefully, the controller ends disconnected with the
        stop time, and a stop that timed out records the timeout error.
        `ok` and `forced` are the worker's. */
    method StopConnectionGraceful(reason: Option<string>, now: string, tickEndsInTime: bool) returns (r: StopReply)
      modifies this`connState, this`lastStoppedAt, this`lastError
      modifies poller`running, poller`acceptingJobs, poller`timer, poller`inTick, poller`stage, poller`activeRunId
      ensures old(connState) == Disconnected ==>
        && r == AlreadyStopped(reason.GetOr(DefaultStopReason), Status())
        && connState == Disconnected && lastStoppedAt == old(lastStoppedAt) && lastError == old(lastError)
        && poller.running == old(poller.running) && poller.acceptingJobs == old(poller.acceptingJobs)
        && poller.timer == old(poller.timer) && poller.inTick == old(poller.inTick)
        && poller.stage == old(poller.stage) && poller.activeRunId == old(poller.activeRunId)
      ensures old(connState) != Disconnected ==>
        var ok := !old(poller.inTick) || tickEndsInTime;
        && r == Stopped(ok, !ok, reason.GetOr(DefaultStopReason), Status())
        && connState == Disconnected && lastStoppedAt == Some(now)
        && lastError == (if ok then old(lastError) else Some(StopTimeoutError(stopTimeoutMs)))
        && !poller.running && !poller.acceptingJobs && poller.timer.None?
        && (old(poller.inTick) && tickEndsInTime ==> !poller.inTick && poller.stage == Idle && poller.activeRunId.None?)
    {
      var why := reason.GetOr(DefaultStopReason);
      if connState == Disconnected {
        return AlreadyStopped(why, Status());
      }
      connState := Stopping;
      var result := poller.StopGraceful(stopTimeoutMs, tickEndsInTime);
      connState := Disconnected;
      lastStoppedAt := Some(now);
      if !result.ok {
        lastError := Some(StopTimeoutError(stopTimeoutMs));
      }
      return Stopped(result.ok, result.forced, why, Status());
    }
  }
}
