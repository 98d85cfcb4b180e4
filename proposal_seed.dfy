// The daemon's fixed demonstration proposals (proposal-seed.ts): three
// literal proposals, the archive one dropped when the job does not allow
// archiving. The six `createId` results enter as `SeedIds`; confidences
// are in hundredths.
module ProposalSeed {
  import opened Wrappers
  import opened Seqs
  import opened Contracts

  const DryRunPathPrefix: string := "C:/Users/me"

  // The three proposals' reasons and paths.
  const InvoiceReason: string := "Invoice candidate belongs in Organized/Documents/Bills."
  const InvoiceBefore: string := DryRunPathPrefix + "/Downloads/document (4).pdf"
  const InvoiceAfter: string := DryRunPathPrefix + "/Organized/Documents/Bills/2026-02-26_invoice_verizon_v1.pdf"
  const ScreenshotReason: string := "Detected screenshot dimensions and desktop capture pattern."
  const ScreenshotBefore: string := DryRunPathPrefix + "/Desktop/IMG_4821.png"
  const ScreenshotAfter: string := DryRunPathPrefix + "/Organized/Screenshots/2026-02/2026-02-26_screenshot_whatsapp-warning_v1.png"
  const InstallerReason: string := "Old installer in Downloads, safe archive move recommended."
  const InstallerBefore: string := DryRunPathPrefix + "/Downloads/chrome_installer(2).exe"
  const InstallerAfter: string := DryRunPathPrefix + "/Organized/Archives/Installers/chrome_installer_v2.exe"

  datatype SeedIds = SeedIds(proposal1: string, file1: string, proposal2: string, file2: string,
                             proposal3: string, file3: string)

  /** A proposed move or archive awaiting approval, undone by moving back. */
  function SeedProposal(proposalId: string, fileId: string, action: ActionType, reason: string,
                        before: string, after: string, risk: RiskLevel, confidence: int): Proposal
  {
    Proposal(proposalId, fileId, action, reason, before, after, risk, true, Some(confidence), MoveBackTo(before),
             Some(Proposed))
  }

  function SeedCatalog(ids: SeedIds): seq<Proposal>
  {
    [ SeedProposal(ids.proposal1, ids.file1, Move, InvoiceReason, InvoiceBefore, InvoiceAfter, Medium, 87),
      SeedProposal(ids.proposal2, ids.file2, Move, ScreenshotReason, ScreenshotBefore, ScreenshotAfter, Low, 92),
      SeedProposal(ids.proposal3, ids.file3, Archive, InstallerReason, InstallerBefore, InstallerAfter, Medium, 79) ]
  }

  /** The filter: an archive proposal stays only when archiving is allowed. */
  predicate Allowed(allowed: seq<AllowedAction>, p: Proposal)
  {
    p.actionType == Archive ==> AllowArchive in allowed
  }

  /** Filtering three items of which the first two pass. */
  lemma FilterThree<T>(a: T, b: T, c: T, f: T -> bool)
    requires f(a) && f(b)
    ensures Filter([a, b, c], f) == if f(c) then [a, b, c] else [a, b]
  {
    var s3 := [c];
    assert s3[0] == c && s3[1..] == [];
    assert Filter(s3, f) == if f(c) then [c] else [];
    var s2 := [b, c];
    assert s2[0] == b && s2[1..] == s3;
    assert Filter(s2, f) == [b] + Filter(s3, f);
    var s1 := [a, b, c];
    assert s1[0] == a && s1[1..] == s2;
    assert Filter(s1, f) == [a] + Filter(s2, f);
  }

  /** `buildSeedProposals`: all three proposals in order when archiving is
      allowed, the two moves otherwise. */
  function BuildSeedProposals(job: CleanupJob, ids: SeedIds): (r: seq<Proposal>)
    ensures r == if AllowArchive in job.mode.allowedActions then SeedCatalog(ids) else SeedCatalog(ids)[..2]
  {
    var c := SeedCatalog(ids);
    var keep := (p: Proposal) => Allowed(job.mode.allowedActions, p);
    FilterThree(c[0], c[1], c[2], keep);
    assert [c[0], c[1], c[2]] == c;
    Filter(c, keep)
  }

  /** Each seeded proposal awaits approval and is undone by moving it back
      to where it was; one of them archives exactly when archiving is
      allowed. */
  lemma SeedProposalsAwaitApproval(job: CleanupJob, ids: SeedIds)
    ensures var r := BuildSeedProposals(job, ids);
      && |r| == (if AllowArchive in job.mode.allowedActions then 3 else 2)
      && (forall i :: 0 <= i < |r| ==>
            r[i].status == Some(Proposed) && r[i].approvalRequired && r[i].rollbackPlan == MoveBackTo(r[i].before))
      && ((exists i :: 0 <= i < |r| && r[i].actionType == Archive) <==> AllowArchive in job.mode.allowedActions)
  {
    var r := BuildSeedProposals(job, ids);
    var c := SeedCatalog(ids);
    if AllowArchive in job.mode.allowedActions {
      assert r[2].actionType == Archive;
    } else {
      assert r == [c[0], c[1]];
    }
  }

  /** The three proposals' actions, risks and confidences. */
  lemma SeedCatalogShape(ids: SeedIds)
    ensures var c := SeedCatalog(ids);
      && |c| == 3
      && c[0].actionType == Move && c[0].riskLevel == Medium && c[0].confidence == Some(87)
      && c[1].actionType == Move && c[1].riskLevel == Low && c[1].confidence == Some(92)
      && c[2].actionType == Archive && c[2].riskLevel == Medium && c[2].confidence == Some(79)
      && c[0].proposalId == ids.proposal1 && c[1].proposalId == ids.proposal2 && c[2].proposalId == ids.proposal3
  {
  }
}
