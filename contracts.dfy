// The records exchanged between the control plane and the local daemon, and
// the daemon's own store rows. Confidences are integer hundredths (0.96 is 96).
// A `before`/`after` path record is represented by its `path` field, with ""
// standing for a record that has no path.
module Contracts {
  import opened Wrappers

  datatype TriggerType = Manual | Scheduled | WatcherEvent
  datatype PathKind = Downloads | Desktop | Screenshots | Custom
  datatype AllowedAction = AllowRename | AllowMove | AllowArchive | AllowDuplicateGroup | AllowIndexOnly
  datatype ActionType = Rename | Move | Archive | DuplicateGroup | IndexOnly | ManualReview
  datatype RiskLevel = Low | Medium | High
  datatype JobStatus =
    | Queued | Claimed | Running | AwaitingApproval | ReadyToExecute
    | Executing | Completed | Failed | Canceled
  /** Proposal lifecycle; `ExecutionFailed` is the source's proposal status "failed". */
  datatype ProposalStatus = Proposed | Approved | Rejected | Executed | ExecutionFailed
  datatype ConnectionState = Online | Offline | Stale
  datatype OsKind = Windows | MacOs | Linux
  datatype ActorType = User | OpenClaw

  datatype JobScope = JobScope(
    pathIds: Option<seq<string>>,
    pathKinds: Option<seq<PathKind>>,
    maxFiles: Option<int>,
    incremental: Option<bool>)

  datatype JobMode = JobMode(dryRun: bool, allowedActions: seq<AllowedAction>)
  datatype Actor = Actor(actorType: ActorType, actorId: string)

  datatype CleanupJob = CleanupJob(
    jobId: string,
    deviceId: string,
    triggerType: TriggerType,
    scope: JobScope,
    mode: JobMode,
    requestedBy: Actor,
    createdAt: string)

  datatype RunSummary = RunSummary(
    runId: string,
    deviceId: string,
    jobId: string,
    status: JobStatus,
    dryRun: bool,
    startedAt: string,
    finishedAt: Option<string>,
    filesScanned: int,
    proposalsCreated: int,
    actionsExecuted: int,
    duplicatesFound: int,
    bytesRecoveredEstimate: int,
    skippedForSafety: int,
    errorMessage: Option<string>)

  /** `rollbackPlan`: `{type: "none"}` or `{type: "move_back", target}`. */
  datatype RollbackPlan = NoPlan | MoveBackTo(target: string)

  datatype Proposal = Proposal(
    proposalId: string,
    fileId: string,
    actionType: ActionType,
    reason: string,
    before: string,
    after: string,
    riskLevel: RiskLevel,
    approvalRequired: bool,
    confidence: Option<int>,
    rollbackPlan: RollbackPlan,
    status: Option<ProposalStatus>)

  datatype RunSnapshot = RunSnapshot(runSummary: RunSummary, proposals: seq<Proposal>)

  datatype Decision = Approve | Reject
  datatype ApprovalDecision = ApprovalDecision(proposalId: string, decision: Decision, editedAfter: Option<string>)
  datatype ApprovalCommand = ApprovalCommand(runId: string, approvals: seq<ApprovalDecision>, decidedBy: string, decidedAt: string)
  datatype ExecuteCommand = ExecuteCommand(runId: string, executeApproved: bool, requestedAt: string)
  datatype RollbackCommand = RollbackCommand(runId: string, executionIds: Option<seq<string>>, requestedAt: string)

  datatype DeviceRecord = DeviceRecord(
    deviceId: string,
    deviceLabel: string,
    os: OsKind,
    status: ConnectionState,
    lastHeartbeatAt: Option<string>,
    pairedAt: string)

  datatype LocalSettings = LocalSettings(
    dryRunDefault: bool,
    renamePattern: string,
    organizedRootPath: string,
    archiveRootPath: string,
    duplicateReviewPath: string,
    recentFileSafetyHours: int,
    includeHiddenDefault: bool)

  datatype WatchedPathRecord = WatchedPathRecord(
    id: string,
    path: string,
    pathType: PathKind,
    isEnabled: bool,
    isProtected: bool,
    includeSubfolders: bool,
    createdAt: string,
    updatedAt: string)

  datatype ScanCandidate = ScanCandidate(
    fileId: string,
    absolutePath: string,
    parentPath: string,
    filename: string,
    extension: string,
    mimeType: Option<string>,
    sizeBytes: int,
    createdAtFs: Option<string>,
    modifiedAtFs: Option<string>,
    classification: Option<string>,
    confidence: Option<int>,
    generatedLabel: Option<string>,
    rationale: Option<string>,
    manualReview: Option<bool>)

  /** The parsed `rollbackJson` of an execution record. */
  datatype UndoKind = UndoMoveBack | UndoRenameBack
  datatype Undo = Undo(kind: UndoKind, from: string, to: string) | Unparsable(text: string)

  datatype OperationType = Operation(action: ActionType) | RollbackOperation

  datatype ExecutionRecord = ExecutionRecord(
    executionId: string,
    proposalId: string,
    runId: string,
    operationType: OperationType,
    success: bool,
    errorMessage: Option<string>,
    rollbackJson: Option<Undo>,
    startedAt: string,
    finishedAt: Option<string>)

  datatype ProgressEntry = ProgressEntry(at: string, stage: string, message: string)

  function ActionOf(a: AllowedAction): ActionType
  {
    match a
    case AllowRename => Rename
    case AllowMove => Move
    case AllowArchive => Archive
    case AllowDuplicateGroup => DuplicateGroup
    case AllowIndexOnly => IndexOnly
  }

  /** The decision a list of decisions holds (`new Map(approvals.map(a => [a.proposalId, a]))`)
      for `id`: the last one listed with that id. */
  function DecisionFor(ds: seq<ApprovalDecision>, id: string): (r: Option<ApprovalDecision>)
    ensures r.None? <==> forall i :: 0 <= i < |ds| ==> ds[i].proposalId != id
    ensures r.Some? ==> exists i :: 0 <= i < |ds| && ds[i] == r.value && ds[i].proposalId == id
                                     && forall j :: i < j < |ds| ==> ds[j].proposalId != id
  {
    if ds == [] then None
    else if ds[|ds| - 1].proposalId == id then Some(ds[|ds| - 1])
    else DecisionFor(ds[..|ds| - 1], id)
  }
}
