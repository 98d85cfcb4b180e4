// Proposal generation: for each classified candidate, the first applicable
// branch (screenshot move, installer archive, generic rename, manual review,
// index only) yields a plan, the plan's target is moved off existing paths by
// `_vN` collision resolution, and the path policy may downgrade the plan to a
// high-risk manual review.
module Proposals {
  import opened Wrappers
  import opened Strings
  import opened Paths
  import opened Seqs
  import opened Contracts
  import opened NamePatterns
  import opened PathPolicy
  import opened Collisions
  import opened Ints
  import opened Classification

  const ProposalLabelLength: nat := 70
  const PolicyConfidenceCap: int := 59
  const ReviewThreshold: int := 60

  /** The candidate's extension with a leading dot. */
  function ProposalExtension(extension: string): (r: string)
    ensures StartsWith(r, ".")
    ensures StartsWith(extension, ".") ==> r == extension
  {
    if StartsWith(extension, ".") then extension else "." + extension
  }

  /** The base name as written: `path.basename(filename, ext)`, which only
      removes the extension when its case matches. */
  function ProposalBaseAsWritten(c: ScanCandidate): string
  {
    BasenameWithout(c.filename, ProposalExtension(c.extension))
  }

  /** The base name as intended: the extension removed whatever its case. */
  function ProposalBase(c: ScanCandidate): string
  {
    StripExtensionAnyCase(c.filename, ProposalExtension(c.extension))
  }

  /** `pickDate`: the first ten characters of the created date, else the
      modified date, else the current time. */
  function PickDate(c: ScanCandidate, now: string): (r: string)
    ensures var preferred := if c.createdAtFs.Some? then c.createdAtFs.value
                             else if c.modifiedAtFs.Some? then c.modifiedAtFs.value else now;
      |r| == (if |preferred| < 10 then |preferred| else 10) && r == preferred[..|r|]
  {
    Take(c.createdAtFs.GetOr(c.modifiedAtFs.GetOr(now)), 10)
  }

  /** The candidate's label, else the slug of its base name. */
  function ProposalLabel(c: ScanCandidate): string
  {
    c.generatedLabel.GetOr(Slug(ProposalBase(c), ProposalLabelLength))
  }

  function LowerClass(c: ScanCandidate): string
  {
    ToLower(c.classification.GetOr("unknown"))
  }

  /** The branch that applies to a candidate, first match wins. */
  datatype Branch = MoveScreenshot | ArchiveInstaller | RenameGeneric | Review | IndexOnlyBranch | NoBranch

  function SelectBranch(actions: seq<AllowedAction>, c: ScanCandidate): Branch
  {
    if AllowMove in actions && StartsWith(LowerClass(c), "screenshot") then MoveScreenshot
    else if AllowArchive in actions && LowerClass(c) == "installer" then ArchiveInstaller
    else if AllowRename in actions && IsGenericName(ToLower(ProposalBase(c))) then RenameGeneric
    else if c.manualReview.GetOr(false) || c.confidence.GetOr(0) < ReviewThreshold then Review
    else if AllowIndexOnly in actions then IndexOnlyBranch
    else NoBranch
  }

  /** `${date}_${label || fallback}_v1${ext}` */
  function TargetName(c: ScanCandidate, now: string, fallback: string): string
  {
    PickDate(c, now) + "_" + OrDefault(ProposalLabel(c), fallback) + "_v1" + ProposalExtension(c.extension)
  }

  /** The target before collision resolution, for the three moving branches. */
  function RawTarget(settings: LocalSettings, c: ScanCandidate, now: string, b: Branch): string
    requires b == MoveScreenshot || b == ArchiveInstaller || b == RenameGeneric
  {
    match b
    case MoveScreenshot =>
      Join(Join(Join(settings.organizedRootPath, "Screenshots"), Take(PickDate(c, now), 7)), TargetName(c, now, "screenshot"))
    case ArchiveInstaller =>
      Join(Join(settings.archiveRootPath, "Installers"), TargetName(c, now, "installer"))
    case RenameGeneric =>
      Join(c.parentPath, TargetName(c, now, "document"))
  }

  // The reasons the branches give.
  const ScreenshotMoveReason: string := "Screenshot pattern detected. Move into organized screenshot structure."
  const InstallerArchiveReason: string := "Installer file detected. Archive move suggested."
  const GenericRenameReason: string := "Generic filename detected. Rename for consistency."
  const LowConfidenceReason: string := "Low-confidence classification. Needs manual review."
  const IndexOnlyReason: string := "No safe organization action needed. Index only."

  /** What a branch asks `createProposal` for. */
  datatype Plan = Plan(
    actionType: ActionType,
    reason: string,
    targetPath: string,
    riskLevel: RiskLevel,
    confidence: int,
    approvalRequired: bool)

  /** The plan of a branch, given the target the collision step settled on
      (ignored by the two branches that keep the file in place). */
  function PlanWithTarget(c: ScanCandidate, b: Branch, target: string): (p: Plan)
    requires b != NoBranch
  {
    match b
    case MoveScreenshot =>
      Plan(Move, ScreenshotMoveReason,
           target, Low, Max(75, c.confidence.GetOr(80)), true)
    case ArchiveInstaller =>
      Plan(Archive, InstallerArchiveReason,
           target, Medium, Max(70, c.confidence.GetOr(75)), true)
    case RenameGeneric =>
      Plan(Rename, GenericRenameReason,
           target, Low, Max(68, c.confidence.GetOr(70)), true)
    case Review =>
      Plan(ManualReview, LowConfidenceReason,
           c.absolutePath, High, c.confidence.GetOr(50), true)
    case IndexOnlyBranch =>
      Plan(IndexOnly, IndexOnlyReason,
           c.absolutePath, Low, c.confidence.GetOr(70), false)
  }

  /** The plan of a branch, with its target resolved against the existing paths. */
  function PlanFor(settings: LocalSettings, taken: set<string>, c: ScanCandidate, now: string, b: Branch): Plan
    requires b != NoBranch
  {
    if b == MoveScreenshot || b == ArchiveInstaller || b == RenameGeneric
    then PlanWithTarget(c, b, ResolvedTarget(RawTarget(settings, c, now, b), taken))
    else PlanWithTarget(c, b, c.absolutePath)
  }

  /** `createProposal`: the policy check of the plan, and the proposal record. */
  function CreateProposal(env: PathEnv, settings: LocalSettings, ws: seq<WatchedPathRecord>,
                          c: ScanCandidate, plan: Plan, proposalId: string): (p: Proposal)
    ensures p.proposalId == proposalId && p.fileId == c.fileId && p.before == c.absolutePath
    ensures p.status == Some(Proposed) && p.confidence.Some?
    ensures var d := ValidateOperationPaths(env, settings, ws, plan.actionType, c.absolutePath, plan.targetPath);
      if d.Denied? then
        && p.actionType == ManualReview && p.riskLevel == High && p.approvalRequired
        && p.after == c.absolutePath && p.rollbackPlan == NoPlan
        && p.confidence.value == (if plan.confidence <= PolicyConfidenceCap then plan.confidence else PolicyConfidenceCap)
        && StartsWith(p.reason, "Policy gate: ")
      else
        && p.actionType == plan.actionType && p.riskLevel == plan.riskLevel
        && p.approvalRequired == plan.approvalRequired && p.reason == plan.reason
        && p.after == plan.targetPath && p.rollbackPlan == MoveBackTo(c.absolutePath)
        && p.confidence == Some(plan.confidence)
  {
    var d := ValidateOperationPaths(env, settings, ws, plan.actionType, c.absolutePath, plan.targetPath);
    if d.Denied? then
      Proposal(proposalId, c.fileId, ManualReview, "Policy gate: " + d.reason + ".",
               c.absolutePath, c.absolutePath, High, true,
               Some(Min(PolicyConfidenceCap, plan.confidence)), NoPlan, Some(Proposed))
    else
      Proposal(proposalId, c.fileId, plan.actionType, plan.reason,
               c.absolutePath, plan.targetPath, plan.riskLevel, plan.approvalRequired,
               Some(plan.confidence), MoveBackTo(c.absolutePath), Some(Proposed))
  }

  /** `generateForCandidate`, with `taken` the paths that exist and
      `proposalId` the fresh id `createProposal` draws. */
  function ProposalFor(env: PathEnv, settings: LocalSettings, ws: seq<WatchedPathRecord>, taken: set<string>,
                       actions: seq<AllowedAction>, c: ScanCandidate, now: string, proposalId: string): Option<Proposal>
  {
    var b := SelectBranch(actions, c);
    if b == NoBranch then None
    else Some(CreateProposal(env, settings, ws, c, PlanFor(settings, taken, c, now, b), proposalId))
  }

  /** The source's step-by-step `generateForCandidate`: the collision loop runs
      for the three moving branches only. */
  method GenerateForCandidate(env: PathEnv, settings: LocalSettings, ws: seq<WatchedPathRecord>, taken: set<string>,
                              actions: seq<AllowedAction>, c: ScanCandidate, now: string, proposalId: string)
    returns (r: Option<Proposal>)
    ensures r == ProposalFor(env, settings, ws, taken, actions, c, now, proposalId)
  {
    var b := SelectBranch(actions, c);
    if b == MoveScreenshot || b == ArchiveInstaller || b == RenameGeneric {
      var target := ResolveCollision(RawTarget(settings, c, now, b), taken);
      return Some(CreateProposal(env, settings, ws, c, PlanWithTarget(c, b, target), proposalId));
    }
    if b == NoBranch {
      return None;
    }
    return Some(CreateProposal(env, settings, ws, c, PlanWithTarget(c, b, c.absolutePath), proposalId));
  }

  /** The optional proposal of each candidate; candidate `i` draws the id
      `newId(i)`. */
  function Outcomes(env: PathEnv, settings: LocalSettings, ws: seq<WatchedPathRecord>, taken: set<string>,
                    actions: seq<AllowedAction>, cs: seq<ScanCandidate>, now: string, newId: nat -> string)
    : (r: seq<Option<Proposal>>)
    ensures |r| == |cs|
    ensures forall i :: 0 <= i < |cs| ==> r[i] == ProposalFor(env, settings, ws, taken, actions, cs[i], now, newId(i))
  {
    seq(|cs|, i requires 0 <= i < |cs| => ProposalFor(env, settings, ws, taken, actions, cs[i], now, newId(i)))
  }

  /** `generate`: the candidates' proposals in order, the absent ones dropped. */
  method Generate(env: PathEnv, settings: LocalSettings, ws: seq<WatchedPathRecord>, taken: set<string>,
                  actions: seq<AllowedAction>, cs: seq<ScanCandidate>, now: string, newId: nat -> string)
    returns (proposals: seq<Proposal>)
    ensures proposals == Somes(Outcomes(env, settings, ws, taken, actions, cs, now, newId))
  {
    ghost var os := Outcomes(env, settings, ws, taken, actions, cs, now, newId);
    proposals := [];
    var i := 0;
    while i < |cs|
      invariant 0 <= i <= |cs|
      invariant proposals == Somes(os[..i])
    {
      var generated := GenerateForCandidate(env, settings, ws, taken, actions, cs[i], now, newId(i));
      SomesSnoc(os, i);
      if generated.Some? {
        proposals := proposals + [generated.value];
      }
      i := i + 1;
    }
    assert os[..|cs|] == os;
  }

  // ---------------------------------------------------------------------
  // Properties of the generated proposals.

  /** A proposal exists exactly when some branch applies. */
  lemma ProposalExistsIff(env: PathEnv, settings: LocalSettings, ws: seq<WatchedPathRecord>, taken: set<string>,
                          actions: seq<AllowedAction>, c: ScanCandidate, now: string, id: string)
    ensures ProposalFor(env, settings, ws, taken, actions, c, now, id).None? <==>
      (AllowIndexOnly !in actions
       && !(AllowMove in actions && StartsWith(LowerClass(c), "screenshot"))
       && !(AllowArchive in actions && LowerClass(c) == "installer")
       && !(AllowRename in actions && IsGenericName(ToLower(ProposalBase(c))))
       && !c.manualReview.GetOr(false) && c.confidence.GetOr(0) >= ReviewThreshold)
  {
  }

  /** The plans of the branches: the confidence floors and risks of the
      three moving branches, a high-risk review in place, and approval
      required for everything but index-only. */
  lemma PlanShape(c: ScanCandidate, b: Branch, target: string)
    requires b != NoBranch
    ensures var plan := PlanWithTarget(c, b, target);
      && (plan.actionType == Move ==> plan.confidence >= 75 && plan.riskLevel == Low)
      && (plan.actionType == Archive ==> plan.confidence >= 70 && plan.riskLevel == Medium)
      && (plan.actionType == Rename ==> plan.confidence >= 68 && plan.riskLevel == Low)
      && (plan.actionType == ManualReview ==> plan.riskLevel == High && plan.targetPath == c.absolutePath)
      && (!plan.approvalRequired <==> plan.actionType == IndexOnly)
      && plan.actionType == BranchAction(b)
  {
    match b
    case MoveScreenshot =>
    case ArchiveInstaller =>
    case RenameGeneric =>
    case Review =>
    case IndexOnlyBranch =>
  }

  /** The action each branch proposes. */
  function BranchAction(b: Branch): ActionType
    requires b != NoBranch
  {
    match b
    case MoveScreenshot => Move
    case ArchiveInstaller => Archive
    case RenameGeneric => Rename
    case Review => ManualReview
    case IndexOnlyBranch => IndexOnly
  }

  /** A branch is only taken when the job allows its action. */
  lemma BranchAllowed(actions: seq<AllowedAction>, c: ScanCandidate)
    requires SelectBranch(actions, c) != NoBranch
    ensures var t := BranchAction(SelectBranch(actions, c));
      t == ManualReview || exists a :: a in actions && ActionOf(a) == t
  {
    var b := SelectBranch(actions, c);
    if b != Review {
      var a := match b
        case MoveScreenshot => AllowMove
        case ArchiveInstaller => AllowArchive
        case RenameGeneric => AllowRename
        case _ => AllowIndexOnly;
      assert a in actions && ActionOf(a) == BranchAction(b);
    }
  }

  /** The shape every branch's plan has: the confidence floors and risks
      of the three moving branches, a high-risk review in place, and
      approval required for everything but index-only. */
  predicate PlanOk(c: ScanCandidate, plan: Plan)
  {
    && (plan.actionType == Move ==> plan.confidence >= 75 && plan.riskLevel == Low)
    && (plan.actionType == Archive ==> plan.confidence >= 70 && plan.riskLevel == Medium)
    && (plan.actionType == Rename ==> plan.confidence >= 68 && plan.riskLevel == Low)
    && (plan.actionType == ManualReview ==> plan.riskLevel == High && plan.targetPath == c.absolutePath)
    && (!plan.approvalRequired <==> plan.actionType == IndexOnly)
  }

  /** The same shape on the proposal record, plus its rollback plan: a move
      back to the source, or, after a policy downgrade, none and a
      confidence of at most 59. */
  predicate ProposalOk(c: ScanCandidate, p: Proposal)
  {
    && p.fileId == c.fileId && p.before == c.absolutePath && p.status == Some(Proposed) && p.confidence.Some?
    && (p.actionType == Move ==> p.confidence.value >= 75 && p.riskLevel == Low)
    && (p.actionType == Archive ==> p.confidence.value >= 70 && p.riskLevel == Medium)
    && (p.actionType == Rename ==> p.confidence.value >= 68 && p.riskLevel == Low)
    && (p.actionType == ManualReview ==> p.riskLevel == High && p.after == c.absolutePath)
    && (!p.approvalRequired <==> p.actionType == IndexOnly)
    && (p.rollbackPlan == NoPlan ==> p.actionType == ManualReview && p.confidence.value <= PolicyConfidenceCap)
    && (p.rollbackPlan != NoPlan ==> p.rollbackPlan == MoveBackTo(c.absolutePath))
  }

  /** `createProposal` turns a well-shaped plan into a well-shaped record,
      of the plan's action or a manual review. */
  lemma CreateProposalOk(env: PathEnv, settings: LocalSettings, ws: seq<WatchedPathRecord>,
                         c: ScanCandidate, plan: Plan, id: string)
    requires PlanOk(c, plan)
    ensures ProposalOk(c, CreateProposal(env, settings, ws, c, plan, id))
    ensures CreateProposal(env, settings, ws, c, plan, id).actionType in {plan.actionType, ManualReview}
  {
  }

  /** Every proposal is a proposed record of its candidate's file, with an
      action the job allows (or a manual review), the branch's confidence
      floor, approval required except for index-only, and either a move back
      to the source or, after a policy downgrade, no rollback plan and a
      confidence of at most 59. */
  lemma ProposalShape(env: PathEnv, settings: LocalSettings, ws: seq<WatchedPathRecord>, taken: set<string>,
                      actions: seq<AllowedAction>, c: ScanCandidate, now: string, id: string)
    requires ProposalFor(env, settings, ws, taken, actions, c, now, id).Some?
    ensures ProposalOk(c, ProposalFor(env, settings, ws, taken, actions, c, now, id).value)
    ensures var t := ProposalFor(env, settings, ws, taken, actions, c, now, id).value.actionType;
      t == ManualReview || exists a :: a in actions && ActionOf(a) == t
  {
    var b := SelectBranch(actions, c);
    var plan := PlanFor(settings, taken, c, now, b);
    assert PlanOk(c, plan) && plan.actionType == BranchAction(b) by {
      var target := if b == MoveScreenshot || b == ArchiveInstaller || b == RenameGeneric
        then ResolvedTarget(RawTarget(settings, c, now, b), taken) else c.absolutePath;
      assert plan == PlanWithTarget(c, b, target);
      PlanShape(c, b, target);
    }
    var p := CreateProposal(env, settings, ws, c, plan, id);
    assert ProposalFor(env, settings, ws, taken, actions, c, now, id) == Some(p);
    CreateProposalOk(env, settings, ws, c, plan, id);
    BranchAllowed(actions, c);
  }

  /** A moving proposal that passed the policy never targets an existing path. */
  lemma MovingTargetIsFree(env: PathEnv, settings: LocalSettings, ws: seq<WatchedPathRecord>, taken: set<string>,
                           actions: seq<AllowedAction>, c: ScanCandidate, now: string, id: string)
    requires ProposalFor(env, settings, ws, taken, actions, c, now, id).Some?
    requires ProposalFor(env, settings, ws, taken, actions, c, now, id).value.actionType in {Move, Archive, Rename}
    ensures ProposalFor(env, settings, ws, taken, actions, c, now, id).value.after !in taken
  {
    var b := SelectBranch(actions, c);
    ResolvedTargetIsFree(RawTarget(settings, c, now, b), taken);
  }

  /** An index-only proposal survives the policy only when its file already
      lies under a configured root: its target is its own path. */
  lemma IndexOnlyNeedsAllowedRoot(env: PathEnv, settings: LocalSettings, ws: seq<WatchedPathRecord>, taken: set<string>,
                                  actions: seq<AllowedAction>, c: ScanCandidate, now: string, id: string)
    requires ProposalFor(env, settings, ws, taken, actions, c, now, id).Some?
    requires ProposalFor(env, settings, ws, taken, actions, c, now, id).value.actionType == IndexOnly
    requires c.absolutePath != ""
    ensures ScanDecision(env, ws, env.realPath(c.absolutePath)) == Allowed
    ensures InAllowedRoot(env, settings, env.realPath(c.absolutePath))
    ensures !InProtectedRoot(env, ws, env.realPath(c.absolutePath))
  {
    ValidateOperationPathsSpec(env, settings, ws, IndexOnly, c.absolutePath, c.absolutePath);
  }

  /** With index-only allowed every candidate has a proposal. */
  lemma IndexOnlyAlwaysProposes(env: PathEnv, settings: LocalSettings, ws: seq<WatchedPathRecord>, taken: set<string>,
                                actions: seq<AllowedAction>, c: ScanCandidate, now: string, id: string)
    requires AllowIndexOnly in actions
    ensures ProposalFor(env, settings, ws, taken, actions, c, now, id).Some?
  {
    assert SelectBranch(actions, c) != NoBranch;
  }

  /** Each generated proposal is the proposal of some candidate. */
  lemma GeneratedFromSomeCandidate(env: PathEnv, settings: LocalSettings, ws: seq<WatchedPathRecord>, taken: set<string>,
                                   actions: seq<AllowedAction>, cs: seq<ScanCandidate>, now: string, newId: nat -> string)
    ensures var ps := Somes(Outcomes(env, settings, ws, taken, actions, cs, now, newId));
      && |ps| <= |cs|
      && (forall j :: 0 <= j < |ps| ==>
            exists i :: 0 <= i < |cs| && ProposalFor(env, settings, ws, taken, actions, cs[i], now, newId(i)) == Some(ps[j]))
  {
    var os := Outcomes(env, settings, ws, taken, actions, cs, now, newId);
    forall j | 0 <= j < |Somes(os)|
      ensures exists i :: 0 <= i < |cs| && ProposalFor(env, settings, ws, taken, actions, cs[i], now, newId(i)) == Some(Somes(os)[j])
    {
      SomesOrigin(os, j);
      var i :| 0 <= i < |os| && os[i] == Some(Somes(os)[j]);
      assert ProposalFor(env, settings, ws, taken, actions, cs[i], now, newId(i)) == os[i];
    }
  }

  /** With index-only allowed, exactly one proposal per candidate, in
      candidate order. */
  lemma GeneratedOneEachWithIndexOnly(env: PathEnv, settings: LocalSettings, ws: seq<WatchedPathRecord>, taken: set<string>,
                                      actions: seq<AllowedAction>, cs: seq<ScanCandidate>, now: string, newId: nat -> string)
    requires AllowIndexOnly in actions
    ensures var ps := Somes(Outcomes(env, settings, ws, taken, actions, cs, now, newId));
      |ps| == |cs| && forall i :: 0 <= i < |cs| ==> Some(ps[i]) == ProposalFor(env, settings, ws, taken, actions, cs[i], now, newId(i))
  {
    var os := Outcomes(env, settings, ws, taken, actions, cs, now, newId);
    forall i | 0 <= i < |os| ensures os[i].Some? {
      IndexOnlyAlwaysProposes(env, settings, ws, taken, actions, cs[i], now, newId(i));
    }
    SomesAllPresent(os);
  }

  /** At most one proposal per candidate, each one the proposal of some
      candidate; with index-only allowed, exactly one per candidate, in
      candidate order. */
  lemma GenerateOnePerCandidate(env: PathEnv, settings: LocalSettings, ws: seq<WatchedPathRecord>, taken: set<string>,
                                actions: seq<AllowedAction>, cs: seq<ScanCandidate>, now: string, newId: nat -> string)
    ensures var ps := Somes(Outcomes(env, settings, ws, taken, actions, cs, now, newId));
      && |ps| <= |cs|
      && (forall j :: 0 <= j < |ps| ==>
            exists i :: 0 <= i < |cs| && ProposalFor(env, settings, ws, taken, actions, cs[i], now, newId(i)) == Some(ps[j]))
      && (AllowIndexOnly in actions ==>
            |ps| == |cs| && forall i :: 0 <= i < |cs| ==> Some(ps[i]) == ProposalFor(env, settings, ws, taken, actions, cs[i], now, newId(i)))
  {
    GeneratedFromSomeCandidate(env, settings, ws, taken, actions, cs, now, newId);
    if AllowIndexOnly in actions {
      GeneratedOneEachWithIndexOnly(env, settings, ws, taken, actions, cs, now, newId);
    }
  }

  /** So every generated proposal is a proposed record of one of the
      candidates, and comes from that candidate's file. */
  lemma GeneratedFromCandidates(env: PathEnv, settings: LocalSettings, ws: seq<WatchedPathRecord>, taken: set<string>,
                                actions: seq<AllowedAction>, cs: seq<ScanCandidate>, now: string, newId: nat -> string, j: nat)
    requires j < |Somes(Outcomes(env, settings, ws, taken, actions, cs, now, newId))|
    ensures var p := Somes(Outcomes(env, settings, ws, taken, actions, cs, now, newId))[j];
      p.status == Some(Proposed) &&
      exists i :: 0 <= i < |cs| && p.fileId == cs[i].fileId && p.before == cs[i].absolutePath
  {
    var os := Outcomes(env, settings, ws, taken, actions, cs, now, newId);
    SomesOrigin(os, j);
    var i :| 0 <= i < |os| && os[i] == Some(Somes(os)[j]);
    ProposalShape(env, settings, ws, taken, actions, cs[i], now, newId(i));
  }

  // ---------------------------------------------------------------------
  // The base name as written against the intended one.

  /** As written, an upper-case extension stays on the base name, so a camera
      name is not offered the generic rename; as intended it is. */
  lemma UpperCaseExtensionKeepsProposalBase()
    ensures var c := CameraCandidate();
      && ProposalBaseAsWritten(c) == "IMG_1234.JPG"
      && !IsGenericName(ToLower(ProposalBaseAsWritten(c)))
      && ProposalBase(c) == "IMG_1234"
      && IsGenericName(ToLower(ProposalBase(c)))
  {
    var c := CameraCandidate();
    assert ProposalBaseAsWritten(c) == "IMG_1234.JPG" && !IsGenericName(ToLower(ProposalBaseAsWritten(c))) by {
      UpperJpgKept();
      CameraNameLower();
      DottedNameIsNotGeneric();
    }
    assert ProposalBase(c) == "IMG_1234" && IsGenericName(ToLower(ProposalBase(c))) by {
      UpperJpgIntended();
      CameraStemLower();
      CameraNameIsGeneric();
    }
  }

  /** A camera file whose name has an upper-case extension. */
  function CameraCandidate(): ScanCandidate
  {
    ScanCandidate("f", "/p/IMG_1234.JPG", "/p", "IMG_1234.JPG", ".jpg", None, 0,
                  None, None, None, None, None, None, None)
  }

  lemma UpperJpgIntended()
    ensures StripExtensionAnyCase("IMG_1234.JPG", ".jpg") == "IMG_1234"
  {
    assert "IMG_1234" + ".JPG" == "IMG_1234.JPG";
    assert ToLower(".JPG") == ".jpg" == ToLower(".jpg");
    StripDropsAnyCase("IMG_1234", ".JPG", ".jpg");
  }

  lemma CameraStemLower()
    ensures ToLower("IMG_1234") == "img_1234"
  {
  }

  /** The two base names agree whenever the extension's case matches. */
  lemma ProposalBaseAgrees(c: ScanCandidate)
    requires ToLower(BaseName(c.filename)) == BaseName(c.filename)
    requires ToLower(c.extension) == c.extension
    ensures ProposalBase(c) == ProposalBaseAsWritten(c)
  {
    var ext := ProposalExtension(c.extension);
    var b := BaseName(c.filename);
    assert ToLower(ext) == ext by {
      if !StartsWith(c.extension, ".") {
        assert ext == "." + c.extension;
        assert ToLower(ext) == ToLower(".") + ToLower(c.extension);
      }
    }
  }
}
