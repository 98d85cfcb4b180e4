# File organizer core, modelled in Dafny

This project models the core of a file-cleanup system. A remote control plane queues cleanup jobs for a paired local agent, the daemon. The daemon proposes file operations, waits for human approval, executes the approved ones and can roll them back. The model has two sides.

**The local daemon** watches folders the user chose. It picks up files that its path policy admits. It classifies each file by extension and name, and proposes moves, archives and renames with `_vN` collision resolution. Once the proposals are approved, it executes them on disk. Every successful move keeps its undo descriptor, so the move can be rolled back later.

**The control plane** pairs devices and issues their tokens. It queues cleanup jobs per device, and it holds the run summaries, snapshots and command mailboxes (approvals, execute, rollback) that the daemon polls.

The model follows the program's structure, one module per core source file. Each module's header comment says what it represents.

- `PathPolicy` (`path-policy-service.ts`): the scan and operation path policy.
- `Classification` (`classification-service.ts`): the classifier.
- `Proposals` and `Collisions` (`proposal-service.ts`): proposal generation and collision resolution.
- `Execution` (`execution-service.ts`): the execution pass.
- `Rollback` (`rollback-service.ts`): the rollback of runs and single executions.
- `Scan` (`scan-service.ts`): the directory scan.
- `RunStore` (`local-store.ts`): the SQLite store. Each table is a field of a class.
- `DaemonState` (`state.ts`): the in-memory run state.
- `Poller` (`poller.ts`): the poll worker. Its stages run the modelled scan, classification, execution and rollback services over the shared store and disk.
- `RuntimeControl` (`runtime-controller.ts`): the connection state machine.
- `WatchedPaths` (`watched-paths-service.ts`): the watched-paths service.
- `ProposalSeed` (`proposal-seed.ts`): the seeded demonstration proposals.
- `DaemonServer` (the daemon's `server.ts`): route decisions.
- `ControlStore` (the control plane's `store.ts`): the in-memory store.
- `Auth` (`auth.ts`): bearer and service-token checks.
- `VpsServer` (the control plane's `server.ts`): the device-route guards.

Shared modules:

- `Wrappers`: optional values.
- `Strings`: lower-casing, slicing and number printing.
- `Paths`: POSIX `dirname`, `basename`, `extname` and `join` over '/'.
- `Seqs`: filter, count and the stable newest-first sort.
- `Ints`: min and max.
- `NamePatterns`: the classifier's regular expressions written out as functions, and the slug.
- `Contracts`: the shared record types.
- `Disk`: the filesystem as a class holding a map from path to file identity.

Code that changes state step by step is imperative Dafny:

- The stores, the in-memory state, the poll worker, the runtime controller and the disk are classes with `modifies` clauses.
- The execution and rollback passes, the scan walk, proposal generation and collision resolution are methods with loops.
- Each loop is proved against a specification function over the old state.

The pure parts are functions with lemmas: the path policy, the classifier rules, branch selection, the slug, bearer parsing and the route guards.

The control store has no operation that removes a mailbox entry. Only `SetApprovals`, `SetExecuteCommand` and `SetRollbackCommand` modify the mailbox fields, and each of them only adds or replaces one entry. So the daemon's poller relies on its own status gates (`ApprovalsOf`, `ExecuteOf`, `RollbackOf`) to avoid applying a command twice.

## Model

| member | source | states |
|---|---|---|
| Classification.Classify | apps/local-daemon/src/services/classification-service.ts:10-64 | as intended, with the corrected base name and slug (see Findings): keeps every file field of the candidate; the class and base confidence are those of the first matching row of an independent rule table (installer 96, archive 91, screenshot 90, image 70, document 76, otherwise unknown 52); a generic name raises the confidence by 8, capped at 99; manual review is set exactly when the confidence is below 60 |
| Classification.RuleRowsMatch | apps/local-daemon/src/services/classification-service.ts:20-45 | each row of the rule table matches exactly when the corresponding test of the extension if-chain holds |
| Classification.MatchedRuleFollowsTable | apps/local-daemon/src/services/classification-service.ts:14-45 | the if-chain's first matching branch gives the same class and confidence as a first-match lookup in the rule table |
| Classification.ClassifyBatch | apps/local-daemon/src/services/classification-service.ts:9-10 | as intended, with the corrected base name and slug: one result per candidate, in order, each the candidate's classification with its file fields unchanged |
| Classification.ManualReviewIffUnrecognised | apps/local-daemon/src/services/classification-service.ts:47-54 | manual review is set if and only if no extension rule matched and the name is not generic; every confidence lies between 52 and 99 |
| Classification.ClassifyLabelShape | apps/local-daemon/src/services/classification-service.ts:16-48 | as intended, for the corrected slug: every label uses only a-z, 0-9 and '-', is at most 91 characters long, and ends in '-' only as the label "archive-" of an archive whose name slugs to nothing |
| Classification.GenericLabelShape | apps/local-daemon/src/services/classification-service.ts:48 | the generic-name label is a non-empty slug of at most 80 characters with no dash at either end |
| Classification.RuleLabelShape | apps/local-daemon/src/services/classification-service.ts:16-45 | as intended, for the corrected slug: each branch's label uses the slug alphabet, is at most 91 characters long, and a trailing dash occurs only in the archive branch's "archive-" |
| Classification.InstallerLabelShape | apps/local-daemon/src/services/classification-service.ts:23 | as intended, for the corrected slug: the installer label "installer-" plus the slug (or "package") never ends with a dash |
| Classification.ScreenshotLabelShape | apps/local-daemon/src/services/classification-service.ts:33 | as intended, for the corrected slug: the screenshot label "screenshot-" plus the slug (or "capture") never ends with a dash |
| Classification.ArchiveLabelShape | apps/local-daemon/src/services/classification-service.ts:28 | as intended, for the corrected slug: the archive label uses the slug alphabet and ends with a dash only when it is "archive-" |
| Classification.ClassifierBaseAgrees | apps/local-daemon/src/services/classification-service.ts:11-12 | for a file name already in lower case the intended base name equals `path.basename(filename, ext)` as written |
| Classification.ClassifierBaseDropsAnyCase | apps/local-daemon/src/services/classification-service.ts:12 | the intended base name of `stem + e` with extension `e` is the lower-cased stem |
| Classification.ClassifierBaseCaseBlind | apps/local-daemon/src/services/classification-service.ts:11-12 | the intended base name depends on the extension only up to letter case |
| Classification.ClassifierBaseDropsLowered | apps/local-daemon/src/services/classification-service.ts:11-12 | the intended base name drops the file's extension when it is given lower-cased, whatever its case in the file name |
| Classification.AsWrittenKeepsUpperExtension | apps/local-daemon/src/services/classification-service.ts:12 | as written, the base name of "IMG_1234.JPG" with extension ".jpg" is "img_1234.jpg": the upper-case extension is kept |
| Classification.IntendedDropsUpperExtension | apps/local-daemon/src/services/classification-service.ts:12 | as intended, the base name of "IMG_1234.JPG" is "img_1234" |
| Classification.UpperCaseExtensionMissesGenericRule | apps/local-daemon/src/services/classification-service.ts:47 | as written, the camera file "IMG_1234.JPG" misses the generic-name rule because its base name keeps ".jpg"; as intended, it matches the rule |
| Classification.DottedNameIsNotGeneric | apps/local-daemon/src/services/classification-service.ts:5-6 | "img_1234.jpg" does not match the generic-name pattern |
| Classification.CameraNameIsGeneric | apps/local-daemon/src/services/classification-service.ts:5-6 | "img_1234" matches the generic-name pattern |
| Proposals.ProposalExtension | apps/local-daemon/src/services/proposal-service.ts:41-43 | the extension always starts with a dot, and one that already does is kept as it is |
| Proposals.PickDate | apps/local-daemon/src/services/proposal-service.ts:178-184 | the first ten characters (or fewer, if shorter) of the created date, else of the modified date, else of the current time |
| Proposals.CreateProposal | apps/local-daemon/src/services/proposal-service.ts:127-176 | a denied plan becomes a high-risk manual review that stays in place, needs approval, has no rollback plan, has its confidence capped at 59 and has a reason starting "Policy gate: "; an allowed plan keeps its action, reason, target, risk, approval and confidence, with a move back to the source as its rollback plan; both are proposed records of the candidate's file |
| Proposals.GenerateForCandidate | apps/local-daemon/src/services/proposal-service.ts:36-125 | as intended, with the corrected base name and slug (see Findings): the step-by-step branch selection, with the collision loop only for the three moving branches, returns exactly the declarative `ProposalFor` |
| Proposals.Outcomes | apps/local-daemon/src/services/proposal-service.ts:23-32 | as intended, with the corrected base name and slug: one optional proposal per candidate, in order, candidate `i` using the `i`-th fresh id |
| Proposals.Generate | apps/local-daemon/src/services/proposal-service.ts:18-34 | as intended, with the corrected base name and slug: the loop returns the present outcomes in candidate order, the absent ones dropped |
| Proposals.ProposalExistsIff | apps/local-daemon/src/services/proposal-service.ts:49-124 | there is no proposal if and only if index-only is not allowed, no moving branch applies, the candidate is not marked for manual review and its confidence is at least 60 |
| Proposals.PlanShape | apps/local-daemon/src/services/proposal-service.ts:56-122 | moves have confidence at least 75 and low risk, archives at least 70 and medium risk, renames at least 68 and low risk; a manual review is high risk and stays in place; only index-only needs no approval |
| Proposals.BranchAllowed | apps/local-daemon/src/services/proposal-service.ts:49-54 | a branch is taken only when the job allows its action (manual review excepted) |
| Proposals.CreateProposalOk | apps/local-daemon/src/services/proposal-service.ts:138-175 | a well-shaped plan gives a well-shaped record, whose action is the plan's or a manual review |
| Proposals.ProposalShape | apps/local-daemon/src/services/proposal-service.ts:36-176 | every proposal is a proposed record of its candidate's file; it has an allowed action (or manual review), the branch's confidence floor, approval required except for index-only, and either a move back to the source or, after a policy downgrade, no rollback plan and confidence at most 59 |
| Proposals.MovingTargetIsFree | apps/local-daemon/src/services/proposal-service.ts:59-61 | a move, archive or rename proposal never targets a path that already exists |
| Proposals.IndexOnlyNeedsAllowedRoot | apps/local-daemon/src/services/proposal-service.ts:113-122 | an index-only proposal survives the policy only when its file is admitted by the scan rule, lies under a configured root and lies under no protected entry |
| Proposals.IndexOnlyAlwaysProposes | apps/local-daemon/src/services/proposal-service.ts:113-122 | when index-only is allowed, every candidate gets a proposal |
| Proposals.GeneratedFromSomeCandidate | apps/local-daemon/src/services/proposal-service.ts:23-33 | there are at most as many proposals as candidates, and each one is the proposal of some candidate |
| Proposals.GeneratedOneEachWithIndexOnly | apps/local-daemon/src/services/proposal-service.ts:23-33 | when index-only is allowed, there is exactly one proposal per candidate, in candidate order |
| Proposals.GenerateOnePerCandidate | apps/local-daemon/src/services/proposal-service.ts:18-34 | both lemmas above together |
| Proposals.GeneratedFromCandidates | apps/local-daemon/src/services/proposal-service.ts:18-34 | every generated proposal is proposed and comes from one candidate's file and path |
| Proposals.UpperCaseExtensionKeepsProposalBase | apps/local-daemon/src/services/proposal-service.ts:44 | as written, "IMG_1234.JPG" with extension ".jpg" keeps base name "IMG_1234.JPG" and is not offered the generic rename; as intended, the base name is "IMG_1234", which is generic |
| Proposals.UpperJpgIntended | apps/local-daemon/src/services/proposal-service.ts:44 | the intended base name of "IMG_1234.JPG" with extension ".jpg" is "IMG_1234" |
| Proposals.ProposalBaseAgrees | apps/local-daemon/src/services/proposal-service.ts:44 | when file name and extension are in lower case, the intended base name equals the one as written |
| Collisions.CollisionBase | apps/local-daemon/src/services/proposal-service.ts:199-200 | the name with its `_vN` suffix removed is a prefix of the name |
| Collisions.FirstFreeVersion | apps/local-daemon/src/services/proposal-service.ts:203-206 | the least version from `v` on whose candidate path is free: every version between `v` and it is taken |
| Collisions.CandidateInjective | apps/local-daemon/src/services/proposal-service.ts:205 | different version numbers give different candidate paths |
| Collisions.ResolveCollision | apps/local-daemon/src/services/proposal-service.ts:194-208 | the loop that bumps the version until the candidate is free returns the declarative `ResolvedTarget`, and it terminates because each taken candidate shrinks the finite set of taken later candidates; versions are unbounded integers (see Left out) |
| Collisions.ResolvedTargetIsFree | apps/local-daemon/src/services/proposal-service.ts:194-208 | the resolved path never exists; it is the input when that is free; otherwise it is `<base>_v<v><ext>` for the least free version `v` above the starting one |
| Collisions.ResolvedKeepsDirectory | apps/local-daemon/src/services/proposal-service.ts:196 | a resolved target stays in the target's directory |
| Collisions.CandidateWithoutExtension | apps/local-daemon/src/services/proposal-service.ts:197-205 | a candidate `<base>_v<n>` of a target without an extension has no extension either |
| Collisions.CandidateWithExtension | apps/local-daemon/src/services/proposal-service.ts:197-205 | a candidate `<base>_v<n><ext>` has the target's non-empty extension `ext` |
| Collisions.ResolvedKeepsExtension | apps/local-daemon/src/services/proposal-service.ts:197 | a resolved target has the target's extension, and none when the target has none |
| Collisions.VersionSuffixRoundTrip | apps/local-daemon/src/services/proposal-service.ts:199-201 | parsing a generated `<base>_v<n>` name gives back `base` and the number `n` |
| Paths.LastIndexOf | apps/local-daemon/src/services/proposal-service.ts:196-198 | the index of the last occurrence of the character, or -1 when it does not occur |
| Paths.BaseName | apps/local-daemon/src/services/proposal-service.ts:198 | the last path component, which contains no separator |
| Paths.Extname | apps/local-daemon/src/services/proposal-service.ts:197 | empty, or a dot followed by no separator and no other dot |
| Paths.BasenameWithout | apps/local-daemon/src/services/proposal-service.ts:44 | `path.basename(p, ext)`: the last component without `ext` when it ends with it (case-sensitively); it contains no separator |
| Paths.StripDropsAnyCase | apps/local-daemon/src/services/proposal-service.ts:44 | the intended base name of `stem + e` is `stem` for any extension that equals `e` up to case |
| Paths.DirnameOfJoin | apps/local-daemon/src/services/proposal-service.ts:196 | the directory of `join(d, name)` is `d` |
| Paths.BaseNameOfJoin | apps/local-daemon/src/services/proposal-service.ts:198 | the last component of `join(d, name)` is `name` |
| Paths.JoinInjective | apps/local-daemon/src/services/proposal-service.ts:205 | joining one directory with two different names gives two different paths |
| NamePatterns.ScreenshotMatchAt | apps/local-daemon/src/services/classification-service.ts:4 | the length of the screenshot alternative that matches at a position: 0, or at least 4 and within the string |
| NamePatterns.FirstScreenshotMatch | apps/local-daemon/src/services/classification-service.ts:4 | the leftmost match of the screenshot pattern, with nothing matching before it; no match only when no position matches |
| NamePatterns.RunEnd | apps/local-daemon/src/services/classification-service.ts:23 | the end of the maximal run of spaces and underscores starting at a position |
| NamePatterns.FirstInstallerMatch | apps/local-daemon/src/services/classification-service.ts:23 | the leftmost match of `[_\s]+installer` at or after the start position, with its whole run of spaces and underscores, or no match when there is none; `\s` is JavaScript's whitespace set |
| NamePatterns.ParenGroupLength | apps/local-daemon/src/services/classification-service.ts:48 | the length of a `(digits)` group at the front, 0 when there is none |
| NamePatterns.DigitRunEnd | apps/local-daemon/src/services/classification-service.ts:48 | the end of the maximal digit run starting at a position |
| NamePatterns.RemoveCopyCounters | apps/local-daemon/src/services/classification-service.ts:48 | removing every `(digits)` group never makes the name longer |
| NamePatterns.DropNonSlug | apps/local-daemon/src/services/classification-service.ts:70 | a suffix of the input that is empty or starts with a slug character |
| NamePatterns.DropLeadingDashes | apps/local-daemon/src/services/classification-service.ts:71 | a suffix of the input that does not start with '-' |
| NamePatterns.DropTrailingDashes | apps/local-daemon/src/services/classification-service.ts:71 | a prefix of the input that does not end with '-' |
| NamePatterns.DashifyAlphabet | apps/local-daemon/src/services/classification-service.ts:70 | replacing runs of other characters by '-' leaves only a-z, 0-9 and '-' |
| NamePatterns.SlugIsShaped | apps/local-daemon/src/services/classification-service.ts:67-73 | the intended slug is within the length cap, uses only a-z, 0-9 and '-', and has no dash at either end |
| NamePatterns.DashifyKeepsSlugPrefix | apps/local-daemon/src/services/classification-service.ts:70 | a prefix made of slug characters passes the dash replacement unchanged |
| NamePatterns.SlugCharsAreLower | apps/local-daemon/src/services/classification-service.ts:69 | slug characters are unchanged by lower-casing |
| NamePatterns.SlugAsWrittenCanEndWithDash | apps/local-daemon/src/services/classification-service.ts:67-73 | as written, a name of `n` slug characters followed by " b", cut to `n + 1`, gives a slug ending with '-' |
| NamePatterns.SlugTrimsAfterCut | apps/local-daemon/src/services/classification-service.ts:67-73 | the intended slug of that same input is the `n` slug characters, with no trailing dash |
| NamePatterns.SlugAsWrittenEndsWithDashAtBothCaps | apps/local-daemon/src/services/proposal-service.ts:186-192 | both caps the code uses, 80 in the classifier and 70 for proposals, can leave a trailing dash as written |
| Strings.ToLower | apps/local-daemon/src/services/classification-service.ts:11 | the same length, each character ASCII-lower-cased (weaker than JavaScript's Unicode lower-casing; see Left out) |
| Strings.Take | apps/local-daemon/src/services/proposal-service.ts:183 | `slice(0, n)`: a prefix of at most `n` characters, the whole string when it is no longer |
| Strings.NatToString | apps/local-daemon/src/services/proposal-service.ts:205 | a non-empty string of decimal digits |
| Strings.NatToStringInjective | apps/local-daemon/src/services/proposal-service.ts:205 | different numbers print differently |
| Strings.DigitsValueOfNatToString | apps/local-daemon/src/services/proposal-service.ts:201 | the decimal value of the printed number is the number, exactly (JavaScript `Number` rounds above 2^53; see Left out) |
| PathPolicy.ScanDecisionSpec | apps/local-daemon/src/services/path-policy-service.ts:46-63 | a path is denied as outside the watched paths when no enabled unprotected entry contains its real path; otherwise it is denied as protected when some enabled protected entry contains it, and allowed when none does |
| PathPolicy.ProtectedWinsForScan | apps/local-daemon/src/services/path-policy-service.ts:56-61 | when an enabled unprotected entry and an enabled protected entry both contain the path, the decision is the protected denial |
| PathPolicy.ScanIgnoresDisabled | apps/local-daemon/src/services/path-policy-service.ts:47 | removing the disabled entries from the list does not change any scan decision |
| PathPolicy.NestedFilterNonEmpty | apps/local-daemon/src/services/path-policy-service.ts:47-58 | keeping the enabled entries and then those passing a test leaves something exactly when some enabled entry passes the test |
| PathPolicy.SiblingPrefixIsNotWithin | apps/local-daemon/src/services/path-policy-service.ts:29-34 | containment is separator-bounded: "/a/bc" is not inside "/a/b" although it starts with it, while "/a/b/c" and "/a/b" itself are |
| PathPolicy.RootsOf | apps/local-daemon/src/services/path-policy-service.ts:97-99 | one normalised root per protected entry, in order, each the real path of that entry |
| PathPolicy.AllowedRootsSpec | apps/local-daemon/src/services/path-policy-service.ts:79-91 | a target is inside one of the allowed roots exactly when one of the non-empty organized, archive and duplicate-review roots contains it |
| PathPolicy.ProtectedRootsSpec | apps/local-daemon/src/services/path-policy-service.ts:97-102 | a target is inside a protected root exactly when some protected entry, enabled or not, contains it |
| PathPolicy.ValidateOperationPathsSpec | apps/local-daemon/src/services/path-policy-service.ts:65-105 | the operation check denies, in order, a source the scan policy rejects (with the scan's reason), a target outside every allowed root unless the action is a same-directory rename, and a target inside a protected root; otherwise it allows; an absent target skips the target checks |
| PathPolicy.DisabledProtectedGuardsTargets | apps/local-daemon/src/services/path-policy-service.ts:97-102 | a disabled protected entry still denies a target it contains, even though the scan policy ignores it |
| WatchedPaths.ResolvePatch | apps/local-daemon/src/services/watched-paths-service.ts:30-44 | every field but the path is passed on unchanged; a present non-empty path is resolved, an absent or empty one passes unchanged |
| WatchedPaths.ValidatePath | apps/local-daemon/src/services/watched-paths-service.ts:50-62 | reports the resolved path and whether it exists; it is a directory exactly when it exists and its stat succeeds and says directory |
| WatchedPaths.WatchedPathsService.constructor | apps/local-daemon/src/services/watched-paths-service.ts:7 | the service holds the given store and path resolver |
| WatchedPaths.WatchedPathsService.List | apps/local-daemon/src/services/watched-paths-service.ts:9-11 | the store's watched paths, newest first |
| WatchedPaths.WatchedPathsService.Add | apps/local-daemon/src/services/watched-paths-service.ts:13-28 | the new entry has the resolved path, is enabled, unprotected and shallow unless the caller says otherwise, is stamped now, and is put at the head of the store's list; no other table changes |
| WatchedPaths.WatchedPathsService.Update | apps/local-daemon/src/services/watched-paths-service.ts:30-44 | an unknown id gives nothing and changes nothing; otherwise the entry with that id becomes the stored entry merged with the resolved patch, and that entry is returned |
| WatchedPaths.WatchedPathsService.Delete | apps/local-daemon/src/services/watched-paths-service.ts:46-48 | removes every entry with the id and reports true exactly when one existed |
| WatchedPaths.MergeWatchedIdempotent | apps/local-daemon/src/services/local-store.ts:229-231 | applying the same patch twice gives the same entry as applying it once |
| WatchedPaths.MergeWatchedKeeps | apps/local-daemon/src/services/local-store.ts:229-231 | a patch keeps the id, the creation time and every field it leaves absent, sets the fields it gives and stamps the update time |
| WatchedPaths.AddThenDeleteRestores | apps/local-daemon/src/services/local-store.ts:192-255 | deleting an entry just added under a fresh id gives back the list as it was |
| RunStore.DefaultSettings | apps/local-daemon/src/services/local-store.ts:66-90 | the inserted settings: dry run on, the default rename pattern, the organized root given or else the user's home (USERPROFILE, then HOME, then the working directory) plus `\Organized`, the archive and duplicate-review roots beneath it, and the caller's safety hours and hidden-file default |
| RunStore.MergeSettingsIdempotent | apps/local-daemon/src/services/local-store.ts:133-138 | applying a settings patch twice equals applying it once, and the empty patch changes nothing |
| RunStore.FindWatched | apps/local-daemon/src/services/local-store.ts:175-190 | a found entry is in the table and has the id; nothing is found exactly when no entry has the id |
| RunStore.ReplaceWatched | apps/local-daemon/src/services/local-store.ts:232-246 | the table keeps its length; every entry with the id becomes the new entry and every other entry stays |
| RunStore.ReplacedIsFound | apps/local-daemon/src/services/local-store.ts:229-247 | after an update of an existing id, reading that id back gives the updated entry |
| RunStore.RemoveWatchedShrinks | apps/local-daemon/src/services/local-store.ts:250-255 | deleting shrinks the table exactly when some entry had the id, which is what the reported change count says |
| RunStore.NewRunSummary | apps/local-daemon/src/services/local-store.ts:257-279 | a new run carries the job's run, device and job ids and dry-run flag, is running, started now, with every counter zero and no finish time or error |
| RunStore.PageBounds | apps/local-daemon/src/services/local-store.ts:367-368 | the page size lies between 1 and 200 and defaults to 50; an in-range limit is kept; the offset defaults to 0 and a non-negative one is kept |
| RunStore.RowOf | apps/local-daemon/src/services/local-store.ts:408-422 | the inserted row belongs to the run and carries the proposal's id |
| RunStore.RowsOf | apps/local-daemon/src/services/local-store.ts:407-424 | one row per proposal, in order |
| RunStore.ProposalsOfRows | apps/local-daemon/src/services/local-store.ts:428-447 | one proposal read back per row, in order |
| RunStore.ReplacedRowsReadBack | apps/local-daemon/src/services/local-store.ts:398-426 | after the replacement, the run's rows are exactly the rows built from the new proposals, in order |
| RunStore.ReplacedRowsOtherRuns | apps/local-daemon/src/services/local-store.ts:398-426 | replacing one run's rows leaves every other run's rows as they were, in order |
| RunStore.Window | apps/local-daemon/src/services/local-store.ts:370-378 | `LIMIT l OFFSET o`: at most `l` elements, element `i` being element `o + i` of the ordered listing |
| RunStore.ReplaceRowsRoundTrip | apps/local-daemon/src/services/local-store.ts:398-447 | after replacing a run's proposals, listing that run gives back exactly the new proposals as stored (rollback plan a move back, absent status proposed), in order; every other run's rows are unchanged |
| RunStore.FindRow | apps/local-daemon/src/services/local-store.ts:464-467 | a found row is in the table and has the id, in whatever run; nothing is found exactly when no row has the id |
| RunStore.SetRowStatus | apps/local-daemon/src/services/local-store.ts:597-605 | every row with the id gets the status; every other row stays |
| RunStore.ApplyDecision | apps/local-daemon/src/services/local-store.ts:463-475 | no row's id or run changes; only the run's rows with the decided id change; those get approved or rejected as decided and the edited target when one is given |
| RunStore.ApplyDecisions | apps/local-daemon/src/services/local-store.ts:457-478 | the decisions in order keep every row's id and run and leave every row of another run unchanged |
| RunStore.ApplyDecisionsOtherRuns | apps/local-daemon/src/services/local-store.ts:460 | approvals for one run never change the proposals listed for another run |
| RunStore.FindByPath | apps/local-daemon/src/services/local-store.ts:481-483 | the index of a record with the path, or -1 exactly when no record has it |
| RunStore.UpsertRecordsIds | apps/local-daemon/src/services/local-store.ts:480-520 | after an upsert the record at the candidate's path carries the returned id (the existing record's, else the candidate's), and every other path keeps its record and its id |
| RunStore.LastSepIndex | apps/local-daemon/src/services/local-store.ts:531-532 | the position of the last `/` or `\`, or -1 when there is none |
| RunStore.FileNameOf | apps/local-daemon/src/services/local-store.ts:531 | the name after the last separator contains no separator |
| RunStore.ParentAndName | apps/local-daemon/src/services/local-store.ts:531-532 | for a path with a separator that is not its last character, parent, separator and name put back together give the path |
| RunStore.MoveRecords | apps/local-daemon/src/services/local-store.ts:530-540 | every record with the id gets the new path, its parent and its name; every other record stays |
| RunStore.FindExecution | apps/local-daemon/src/services/local-store.ts:579-595 | a found execution is in the table and has the id; nothing is found exactly when no execution has it |
| RunStore.LocalStore.constructor | apps/local-daemon/src/services/local-store.ts:53 | every table starts empty and the run index is consistent |
| RunStore.LocalStore.InitializeDefaults | apps/local-daemon/src/services/local-store.ts:55-113 | the default settings are inserted only when there are none; a Downloads entry under USERPROFILE is added at the head only when seeding is asked for, USERPROFILE is set and no entry has that path; nothing else changes |
| RunStore.LocalStore.UpdateSettings | apps/local-daemon/src/services/local-store.ts:133-157 | missing settings give nothing (where the source throws); otherwise the stored and returned settings are the old ones merged with the patch; nothing else changes |
| RunStore.LocalStore.AddWatchedPath | apps/local-daemon/src/services/local-store.ts:192-218 | the new entry with the fresh id and both timestamps now is put at the head and returned; nothing else changes |
| RunStore.LocalStore.UpdateWatchedPath | apps/local-daemon/src/services/local-store.ts:220-248 | an unknown id gives nothing and changes nothing; otherwise the entry with the id becomes the merged entry, which is returned |
| RunStore.LocalStore.DeleteWatchedPath | apps/local-daemon/src/services/local-store.ts:250-255 | every entry with the id is removed and the result is true exactly when one existed |
| RunStore.LocalStore.CreateRun | apps/local-daemon/src/services/local-store.ts:257-279 | the run id maps to a fresh running summary, replacing any earlier one, and is listed once; nothing else changes |
| RunStore.LocalStore.UpdateRunSummary | apps/local-daemon/src/services/local-store.ts:281-304 | a known run gets the new summary; an unknown run is ignored; nothing else changes |
| RunStore.LocalStore.MarkRunFailed | apps/local-daemon/src/services/local-store.ts:630-639 | a known run becomes failed with the message and the finish time; an unknown run is ignored |
| RunStore.LocalStore.Summaries | apps/local-daemon/src/services/local-store.ts:352-358 | every stored summary once, in insertion order |
| RunStore.LocalStore.ListRunsPageShape | apps/local-daemon/src/services/local-store.ts:361-383 | a page holds at most the page size of runs, namely the runs of the sorted listing from the offset on, each with its proposals |
| RunStore.LocalStore.SortedRunsMembers | apps/local-daemon/src/services/local-store.ts:370-378 | every listed run is a stored run of the requested status |
| RunStore.LocalStore.ListRunsPageOrder | apps/local-daemon/src/services/local-store.ts:370-378 | a page is newest first by start time and lists only stored runs of the requested status |
| RunStore.LocalStore.CountRunsSpec | apps/local-daemon/src/services/local-store.ts:385-396 | the count for a status is the length of the unpaged listing for it, and the count of all runs is the number of stored runs |
| RunStore.LocalStore.ReplaceRunProposals | apps/local-daemon/src/services/local-store.ts:398-426 | the run's old rows are deleted and one row per new proposal appended; nothing else changes |
| RunStore.LocalStore.ApplyApprovals | apps/local-daemon/src/services/local-store.ts:457-478 | the proposal rows become the decisions applied in order; nothing else changes |
| RunStore.LocalStore.UpdateProposalStatus | apps/local-daemon/src/services/local-store.ts:597-605 | every row with the id gets the status; nothing else changes |
| RunStore.LocalStore.UpsertFileRecord | apps/local-daemon/src/services/local-store.ts:480-520 | returns the existing record's id for a known path, else the candidate's, and the records become the upserted table; nothing else changes |
| RunStore.LocalStore.UpdateFilePath | apps/local-daemon/src/services/local-store.ts:530-540 | the records with the id move to the new path; nothing else changes |
| RunStore.LocalStore.InsertExecution | apps/local-daemon/src/services/local-store.ts:542-560 | the execution is appended; nothing else changes |
| DaemonState.MergeSummary | apps/local-daemon/src/state.ts:105-113 | the given status always wins over the patch; a patched field takes the patch's value and an unpatched one keeps the summary's; the empty patch changes only the status |
| DaemonState.MergeWholeSummary | apps/local-daemon/src/state.ts:108-112 | a patch that gives every field yields that summary with the given status |
| DaemonState.DecideAll | apps/local-daemon/src/state.ts:139-147 | one proposal per proposal, in order, each decided on its own |
| DaemonState.DecideSpec | apps/local-daemon/src/state.ts:138-147 | a proposal without a decision is unchanged; with one, the last decision listed for its id sets approved or rejected and the edited target if given; id, source and action never change |
| DaemonState.DecideAllIdempotent | apps/local-daemon/src/state.ts:135-149 | applying the same decisions twice gives the same proposals as once |
| DaemonState.ExecuteAll | apps/local-daemon/src/state.ts:155-161 | one proposal per proposal; exactly the approved ones become executed |
| DaemonState.RestoreAll | apps/local-daemon/src/state.ts:177-179 | one proposal per proposal; exactly the executed ones become approved again |
| DaemonState.ExecuteProposals | apps/local-daemon/src/state.ts:154-161 | the loop with its counter produces the executed proposals and counts exactly the approved ones |
| DaemonState.ExecuteAllCounts | apps/local-daemon/src/state.ts:154-162 | execution adds the number of approved proposals to the number executed and leaves none approved |
| DaemonState.RestoreAllCounts | apps/local-daemon/src/state.ts:177-180 | a rollback leaves no proposal executed and adds the executed ones to the approved |
| DaemonState.RestoreUndoesExecute | apps/local-daemon/src/state.ts:151-181 | when nothing was executed before, a rollback after an execution gives back the original proposals |
| DaemonState.NewRun | apps/local-daemon/src/state.ts:60-81 | the record holds the job, no proposals, no progress, and a running summary with zero counters |
| DaemonState.Seeded | apps/local-daemon/src/state.ts:115-127 | the proposals are replaced, the proposal count is their number, the file and safety counts are the given ones or zero, and the run awaits approval; the job and the progress stay |
| DaemonState.AfterExecution | apps/local-daemon/src/state.ts:151-166 | the executed count is the number of proposals that were approved |
| DaemonState.ExecutedRun | apps/local-daemon/src/state.ts:151-166 | after execution the run is completed at the given time with the fixed byte estimate 1288490188, its executed count is the number of newly executed proposals, and none is left approved |
| DaemonState.RolledBackRun | apps/local-daemon/src/state.ts:168-181 | a rollback completes the run with zero actions, leaves no proposal executed and appends exactly one rollback progress entry |
| DaemonState.RollbackAfterExecute | apps/local-daemon/src/state.ts:151-181 | executing a run with nothing executed and then rolling it back restores its proposals |
| DaemonState.LocalDaemonState.constructor | apps/local-daemon/src/state.ts:33-36 | the seeded device id and token, no pairing, no runs, no heartbeat |
| DaemonState.LocalDaemonState.GetDevice | apps/local-daemon/src/state.ts:38-40 | the device identity, pairing session and last heartbeat time |
| DaemonState.LocalDaemonState.SetPairingSession | apps/local-daemon/src/state.ts:42-44 | only the pairing session changes |
| DaemonState.LocalDaemonState.CompletePairing | apps/local-daemon/src/state.ts:46-50 | the device id and token are set and the pairing session cleared; nothing else changes |
| DaemonState.LocalDaemonState.MarkHeartbeat | apps/local-daemon/src/state.ts:52-54 | only the heartbeat time changes, to now |
| DaemonState.LocalDaemonState.CreateRunFromJob | apps/local-daemon/src/state.ts:60-81 | the run id is the forced one if given, else a fresh one; a new record for it replaces any earlier one, keeps its place in the iteration order, and the job id indexes it |
| DaemonState.LocalDaemonState.GetRunByJobId | apps/local-daemon/src/state.ts:87-91 | a run is found exactly when the job id is indexed to a non-empty run id that has a record, and it is that record |
| DaemonState.LocalDaemonState.ListRuns | apps/local-daemon/src/state.ts:93-97 | every run exactly once, sorted by start time newest first, in code-point order of the timestamps (the source collates with `localeCompare`); runs with the same start time keep their insertion order, as the stable `Array.prototype.sort` leaves them |
| DaemonState.LocalDaemonState.AppendProgress | apps/local-daemon/src/state.ts:99-103 | a known run gets one more progress entry at the end; an unknown run changes nothing |
| DaemonState.LocalDaemonState.SetRunStatus | apps/local-daemon/src/state.ts:105-113 | a known run's summary is merged with the patch under the given status; an unknown run changes nothing |
| DaemonState.LocalDaemonState.SeedProposals | apps/local-daemon/src/state.ts:115-127 | a known run becomes the seeded record; an unknown run changes nothing |
| DaemonState.LocalDaemonState.SetRunSnapshot | apps/local-daemon/src/state.ts:129-133 | a known run's snapshot is replaced; an unknown run changes nothing |
| DaemonState.LocalDaemonState.ApplyApprovals | apps/local-daemon/src/state.ts:135-149 | a known run's proposals are decided and the run is ready to execute; an unknown run changes nothing |
| DaemonState.LocalDaemonState.ExecuteApproved | apps/local-daemon/src/state.ts:151-166 | a known run becomes the executed record, with the counter loop's count as the executed count; an unknown run changes nothing |
| DaemonState.LocalDaemonState.RollbackRun | apps/local-daemon/src/state.ts:168-181 | a known run becomes the rolled-back record; an unknown run changes nothing |
| Execution.EffectOf | apps/local-daemon/src/services/execution-service.ts:28-113 | a proposal is left alone exactly when it is not approved; an approved one with an action other than rename, move or archive is refused as unsupported; one that is moved passed the policy, had its source present and its target absent, and could be renamed |
| Execution.PersistFailure | apps/local-daemon/src/services/execution-service.ts:179-182 | the proposal's rows are marked failed and the record is appended; nothing else in the store changes |
| Execution.Preflight | apps/local-daemon/src/services/execution-service.ts:36-110 | the checks in the source's order give the refusal reason (unsupported, the policy's reason, source missing, target exists) exactly as the per-proposal effect does, and nothing when the move goes ahead |
| Execution.ExecuteApproved | apps/local-daemon/src/services/execution-service.ts:15-154 | a dry run is blocked with nothing changed; otherwise the files, proposal rows, file records and execution records become the folds of the per-proposal effects; when `rename` throws the run summary is not stored and the failing proposal's target is reported; otherwise the run is stored completed with the executed count, and the snapshot and records are returned; record `n` is stamped with the `n`-th start and finish clock readings; the outcome and the new disk and tables are those of the pass and tables functions, which every caller composes |
| Execution.HaltIndex | apps/local-daemon/src/services/execution-service.ts:28-113 | the index found is exactly when `rename` threw within the first `k` proposals, and it is one of them on which `rename` threw |
| Execution.HaltIndexUnique | apps/local-daemon/src/services/execution-service.ts:28-113 | `rename` throws on one proposal at most: once it has, the index found over any longer prefix is that proposal |
| Execution.ExecutedTablesFrame | apps/local-daemon/src/services/execution-service.ts:15-154 | the pass depends on the disk, rows, file records and execution records but on no stored summary, and it keeps every stored run |
| Execution.RowsForLength | apps/local-daemon/src/services/execution-service.ts:28-137 | the proposal-row status updates never add or drop a row |
| Execution.ExecutePass | apps/local-daemon/src/services/execution-service.ts:23-137 | the loop leaves the disk and the store's tables as the folds of the effects, stops exactly when `rename` throws on some proposal, and otherwise returns the folded proposals, records and counter |
| Execution.HaltedPass | apps/local-daemon/src/services/execution-service.ts:112-113 | a pass that stops at proposal i has the final result of the whole list: the later proposals add nothing |
| Execution.HaltFreezes | apps/local-daemon/src/services/execution-service.ts:112-113 | once `rename` has thrown, no later proposal changes the files or any fold |
| Execution.HaltedEffects | apps/local-daemon/src/services/execution-service.ts:112-113 | after `rename` has thrown, every later proposal is left untouched |
| Execution.ProposalsOutcome | apps/local-daemon/src/services/execution-service.ts:23-151 | the returned proposals are the input proposals in order with only their status changed; an unapproved one is unchanged; unless `rename` threw, every approved one is executed or failed |
| Execution.UnapprovedUntouched | apps/local-daemon/src/services/execution-service.ts:30 | a proposal that was not approved comes back unchanged |
| Execution.ApprovedAllSettled | apps/local-daemon/src/services/execution-service.ts:28-137 | unless `rename` threw, every approved proposal comes back executed or failed |
| Execution.ApprovedSettled | apps/local-daemon/src/services/execution-service.ts:28-137 | unless `rename` threw, every approved proposal was either refused or moved |
| Execution.ExecutedCountsSuccesses | apps/local-daemon/src/services/execution-service.ts:132-143 | the executed count stored in the summary equals the number of successful execution records |
| Execution.OneRecordPerApproved | apps/local-daemon/src/services/execution-service.ts:28-137 | unless `rename` threw, the pass writes exactly one execution record per approved proposal |
| Execution.FileCountKept | apps/local-daemon/src/services/execution-service.ts:93-113 | a move never overwrites, so the pass neither creates nor loses a file |
| Execution.NoEmptyPath | apps/local-daemon/src/services/execution-service.ts:112-113 | no file appears at the empty path during the pass |
| Execution.PerformedIsUndoable | apps/local-daemon/src/services/execution-service.ts:112-136 | a performed move went from an existing source to an absent target, its successful record names the move back, and moving back restores the files as they were |
| Execution.PerformedRespectsPolicy | apps/local-daemon/src/services/execution-service.ts:54-73 | with the daemon's policy, a performed move's source is allowed for scanning, and its target is outside every protected path and is either a same-directory rename or inside an allowed root |
| Rollback.ApplyRollback | apps/local-daemon/src/services/rollback-service.ts:97-118 | succeeds exactly when the undo parses, its source exists, its target does not and is a valid path; on success the file is moved back, otherwise the files are unchanged |
| Rollback.FirstIndexOf | apps/local-daemon/src/services/rollback-service.ts:31-33 | the first position of a proposal with the id, or nothing exactly when no proposal has it |
| Rollback.RollbackAll | apps/local-daemon/src/services/rollback-service.ts:30-57 | the loop over the eligible executions leaves the files, the returned proposals, the counter and the store's proposal rows and file records as the step-by-step rollback state gives them, and appends exactly its rollback records |
| Rollback.RollbackRun | apps/local-daemon/src/services/rollback-service.ts:16-66 | only successful, non-rollback executions of the run with an undo are undone, most recent first; the run is stored and returned completed with the counter that is left, together with the rolled-back proposals; the returned snapshot and the disk and tables are those of the rolled-back snapshot and tables functions, which follow the step-by-step rollback state |
| Rollback.RbRowsLength | apps/local-daemon/src/services/rollback-service.ts:30-57 | re-approving the rolled-back proposals never adds or drops a proposal row |
| Rollback.RollbackExecution | apps/local-daemon/src/services/rollback-service.ts:68-95 | an unknown, failed or undo-less execution gives a plain failure and changes nothing; otherwise the undo is tried, a rollback record is appended whatever the outcome, and on success the proposal rows go back to approved and the proposal's file record back to its source path when that is non-empty; the record carries the start and finish readings |
| Rollback.FindRowAfterStatus | apps/local-daemon/src/services/rollback-service.ts:86-87 | setting a status keeps the row that a lookup by id finds, apart from its status |
| Rollback.ExecutedMoveRollsBack | apps/local-daemon/src/services/rollback-service.ts:97-118 | the undo an executed move records succeeds on the files that move left, restores the files as they were, and cannot succeed a second time |
| Rollback.RollbackNotRepeatable | apps/local-daemon/src/services/rollback-service.ts:104-110 | after a successful rollback the same undo fails, since its source is gone |
| Rollback.OneRecordPerExecution | apps/local-daemon/src/services/rollback-service.ts:30-46 | every eligible execution gets exactly one rollback record, in order, naming its proposal and the run, with an error message exactly when it failed |
| Rollback.RemainingCount | apps/local-daemon/src/services/rollback-service.ts:28-55 | the counter drops by one per restored proposal and never below zero; with nothing restored it keeps the summary's count |
| Rollback.ProposalsOnlyReapproved | apps/local-daemon/src/services/rollback-service.ts:27-49 | the returned proposals are the snapshot's in order, each unchanged or set back to approved, with nothing else changed |
| Rollback.RollbackKeepsFileCount | apps/local-daemon/src/services/rollback-service.ts:104-113 | rollback moves never overwrite, so no file is created or lost |
| Scan.EntryStep | apps/local-daemon/src/services/scan-service.ts:82-120 | an entry adds a candidate exactly when it is a visible regular file whose stat succeeds |
| Scan.Entries | apps/local-daemon/src/services/scan-service.ts:82-121 | the entry loop only adds files, and stops once the limit is reached |
| Scan.Walk | apps/local-daemon/src/services/scan-service.ts:73-122 | the stack walk only adds files, and returns no more than the limit beyond what it already had |
| Scan.WalkAccount | apps/local-daemon/src/services/scan-service.ts:73-122 | every file the walk returns is a candidate below the stack, and when it returns fewer than the limit it returns every one |
| Scan.EntriesCandsShape | apps/local-daemon/src/services/scan-service.ts:82-118 | every candidate below a directory has a visible name, a lower-cased extension and the stat's size and times, and in a shallow scan lies directly in that directory |
| Scan.ScanPathFindings | apps/local-daemon/src/services/scan-service.ts:63-127 | at most the limit of candidates, newest first by modification time, each a visible regular file below the root (a direct child unless the scan is recursive); when fewer than the limit are returned, every such file is among them |
| Scan.ReadEntry | apps/local-daemon/src/services/scan-service.ts:82-120 | one entry is skipped, pushed onto the stack or taken as a file, as the entry step says |
| Scan.ReadEntries | apps/local-daemon/src/services/scan-service.ts:82-121 | the entry loop over one listed directory ends in the state of the entry fold |
| Scan.ScanPath | apps/local-daemon/src/services/scan-service.ts:63-127 | the walk from the resolved root followed by the sort gives the specified scan of the tree, newest first by code-point order of the modification times (the source collates with `localeCompare`) |
| Scan.FilterWatchedSelects | apps/local-daemon/src/services/scan-service.ts:52-61 | the three filters keep, in list order, exactly the enabled paths whose kind and id the job selects, a kind or id list restricting only when non-empty |
| Scan.ItemsFoldBound | apps/local-daemon/src/services/scan-service.ts:34-46 | the item loop never keeps more than the file cap |
| Scan.PathsFoldBound | apps/local-daemon/src/services/scan-service.ts:31-47 | the loop over the selected paths never keeps more than the file cap |
| Scan.ItemsFoldKept | apps/local-daemon/src/services/scan-service.ts:34-46 | every kept candidate passed the scan policy and carries the id of its stored file record |
| Scan.PathsFoldKept | apps/local-daemon/src/services/scan-service.ts:31-47 | the same holds across all selected paths |
| Scan.Taken | apps/local-daemon/src/services/scan-service.ts:34-46 | the number of items looked at is at most the number scanned |
| Scan.ItemsFoldCounts | apps/local-daemon/src/services/scan-service.ts:34-46 | of the items looked at, each refused one adds one to the skip count and each admitted one adds one candidate; the loop stops early only at the cap |
| Scan.ScopeFindings | apps/local-daemon/src/services/scan-service.ts:19-50 | at most the file cap of candidates (500 by default), each admitted by the scan policy and carrying its stored record's id |
| Scan.ScanItems | apps/local-daemon/src/services/scan-service.ts:34-46 | the item loop of one path ends in the state of the item fold, with the store's file records upserted |
| Scan.ScanJobScope | apps/local-daemon/src/services/scan-service.ts:19-50 | the candidates, the skip count and the number of selected paths are those of the specified scope scan, and the store's file records are the upserted ones; nothing else changes |
| RuntimeControl.StopTimeoutError | apps/local-daemon/src/runtime-controller.ts:75-77 | the recorded error is the prefix `runtime_stop_timeout:` followed by the timeout in decimal |
| RuntimeControl.RuntimeController.constructor | apps/local-daemon/src/runtime-controller.ts:18-27 | a new controller is disconnected with no start, stop or error recorded, and its stop timeout defaults to 20000 ms |
| RuntimeControl.RuntimeController.StartConnection | apps/local-daemon/src/runtime-controller.ts:39-60 | a connected or connecting controller answers alreadyRunning and changes nothing; otherwise a start that succeeds leaves it connected with the start time and no error and the worker running, and one that throws leaves it disconnected with the error and the worker untouched |
| RuntimeControl.RuntimeController.StopConnectionGraceful | apps/local-daemon/src/runtime-controller.ts:62-84 | a disconnected controller answers alreadyStopped with the reason (manual_stop by default) and changes nothing; otherwise the worker is stopped and no longer accepts jobs, the controller ends disconnected with the stop time, and a stop that timed out is reported as forced and records the timeout error |
| ProposalSeed.BuildSeedProposals | apps/local-daemon/src/proposal-seed.ts:4-72 | the three literal proposals in order when the job allows archiving, the two moves otherwise |
| ProposalSeed.SeedProposalsAwaitApproval | apps/local-daemon/src/proposal-seed.ts:6-72 | there are three proposals or two, each proposed, requiring approval and rolled back by moving to its own before path, and one archives exactly when archiving is allowed |
| ProposalSeed.SeedCatalogShape | apps/local-daemon/src/proposal-seed.ts:6-67 | the catalogue's actions, risk levels and confidences are move/medium/0.87, move/low/0.92 and archive/medium/0.79, with the generated ids in order |
| Poller.TickStagesOrder | apps/local-daemon/src/poller.ts:90-124 | a tick enters the heartbeat stage first; the jobs stage only when the device has credentials, the heartbeat got through and jobs are accepted; the commands stage after every heartbeat that got through unless the jobs stage threw |
| Poller.TickDelayBounds | apps/local-daemon/src/poller.ts:95-118 | the next tick is never scheduled sooner than 1000 ms; missing credentials or any failure retries after 5000 ms; a clean tick follows the server's pollAfterMs, 3000 ms without one |
| Poller.IncomingRun | apps/local-daemon/src/poller.ts:134-228 | a received job's run ends failed with no_enabled_watched_paths_for_scope, every counter zero and no proposals when no watched path is in scope, otherwise awaiting approval with the scan's counts and the planned proposals; one progress entry either way |
| Poller.ApprovalsPhase | apps/local-daemon/src/poller.ts:237-240 | approvals are taken only by a run awaiting them: its proposals are decided, it becomes ready to execute, the store gets the same summary and the decisions, and one progress entry is logged; otherwise nothing changes |
| Poller.ExecutePhase | apps/local-daemon/src/poller.ts:242-287 | execution starts only for a run ready to execute, and then the run and the store change exactly as the executed world says; for any other run nothing changes |
| Poller.ExecutePhaseOutcome | apps/local-daemon/src/poller.ts:253-285 | on success the execution service's snapshot becomes the run's and, for a run stored under its own id, the store holds the same summary; a dry run is refused with dry_run_execution_blocked, leaves the disk, proposal rows, file records and execution records untouched and gets its summary before the start back; any other error fails the run with the thrown text, finished at the poller's clock reading in memory and at markRunFailed's own reading in the store |
| Poller.ExecutedWorld | apps/local-daemon/src/poller.ts:243-285 | a started run is executed: execution_started is logged first and only that run's record changes, its job kept; the disk, proposal rows, file records and execution records then are exactly those the execution service specifies for the started snapshot |
| Poller.BlockedTextNamesBlock | apps/local-daemon/src/poller.ts:265-267 | the text of the dry-run refusal thrown by the execution service contains dry_run_execution_blocked, so the poller takes the dry-run branch for it |
| Poller.RollbackPhase | apps/local-daemon/src/poller.ts:289-294 | a rollback is taken only by a run with executed actions: its snapshot becomes the rollback service's, the disk and the store's tables become the rolled-back ones, only that run's record changes, its job is kept and rollback_completed is logged; otherwise nothing changes |
| Poller.RollbackPhaseMirrors | apps/local-daemon/src/poller.ts:289-294 | after a rollback of a run stored under its own id, the store holds the summary the run record holds |
| Poller.ApprovedRunExecutesInSamePass | apps/local-daemon/src/poller.ts:237-254 | approvals and an execute command fetched together are both carried out in the same pass, because the execute gate reads the record the approvals left |
| Poller.ProcessedIds | apps/local-daemon/src/poller.ts:232-234 | the commands stage visits only listed runs that belong to a device, at most one per listed run |
| Poller.CommandsOverExtends | apps/local-daemon/src/poller.ts:231-296 | the commands stage keeps every run, every stored summary and the number of proposal rows, only appends to the execution records, never changes a run's job, and only appends to the progress logs |
| Poller.PollWorker.constructor | apps/local-daemon/src/poller.ts:12-30 | a new worker over the given state, store and disk is stopped, not accepting jobs, idle, with no active run and no timer |
| Poller.PollWorker.Start | apps/local-daemon/src/poller.ts:32-38 | start answers false when already running; otherwise the worker runs and accepts jobs |
| Poller.PollWorker.Stop | apps/local-daemon/src/poller.ts:40-47 | the worker stops running and accepting jobs and its timer is cleared |
| Poller.PollWorker.StopGraceful | apps/local-daemon/src/poller.ts:49-73 | the worker is stopped as by stop; the answer is ok exactly when no tick was running or it ended in time, forced otherwise, and carries the timeout; a tick that ends leaves the worker idle |
| Poller.PollWorker.Schedule | apps/local-daemon/src/poller.ts:85-88 | a timer is set only while the worker runs |
| Poller.PollWorker.Tick | apps/local-daemon/src/poller.ts:90-124 | the stages entered and the next timer are those of the tick functions, the heartbeat is marked exactly when it got through, the worker ends idle with no active run, and the device and the runs are untouched |
| Poller.PollWorker.Mirror | apps/local-daemon/src/poller.ts:161 | the store's summary of the run becomes the in-memory one when the run is known; nothing else in the store changes |
| Poller.PollWorker.CreateJobRun | apps/local-daemon/src/poller.ts:134-137 | the run is created under the control plane's run id or a fresh one, becomes the active run and gets its store summary |
| Poller.PollWorker.FailNoScope | apps/local-daemon/src/poller.ts:141-176 | the run is failed as the no-scope record says and the store gets the same summary |
| Poller.PollWorker.AwaitApproval | apps/local-daemon/src/poller.ts:208-219 | the planned proposals replace the run's rows in the store, the run awaits approval with the plan's counts and the store gets the same summary |
| Poller.PollWorker.FinishJobRun | apps/local-daemon/src/poller.ts:139-228 | a freshly created run ends as the incoming-run record says, in memory and in the store; the file and execution records are untouched |
| Poller.PollWorker.PlanJob | apps/local-daemon/src/poller.ts:140-200 | the plan is the scanned plan of the job's scope over the store's watched paths and file records; the scan's file records replace the store's and nothing else in the store changes |
| Poller.PollWorker.TakeJob | apps/local-daemon/src/poller.ts:130-228 | a received job's run is created and made active; its scope is scanned over the store's watched paths, the scan's file records replace the store's, the candidates are classified and planned, and the run ends as the incoming-run record says for that plan, with the run order and the job index updated and the execution records untouched |
| Poller.PollWorker.ProcessIncomingJob | apps/local-daemon/src/poller.ts:126-229 | nothing changes without a job; otherwise the run is taken under the control plane's run id (a fresh one without it), the scope is scanned and planned, and the run ends as the incoming-run record says for the scanned plan, in memory and in the store |
| Poller.PollWorker.ApprovalsOf | apps/local-daemon/src/poller.ts:298-303 | the run records, stored summaries and proposal rows change as the approvals phase says, and nothing else in the store does |
| Poller.PollWorker.StartExecution | apps/local-daemon/src/poller.ts:243-252 | the run is logged as started and marked executing, in memory and in the store |
| Poller.PollWorker.FinishExecution | apps/local-daemon/src/poller.ts:253-285 | the execution outcome is applied as the finished record says: the returned snapshot on success, the run put back to its summary when the thrown text names the dry-run block, and otherwise failed in memory and marked failed in the store with its own clock reading |
| Poller.PollWorker.ExecuteOf | apps/local-daemon/src/poller.ts:242-287 | the run records, the disk and every store table change as the execute phase says, the execution service running on the started snapshot |
| Poller.PollWorker.RollbackOf | apps/local-daemon/src/poller.ts:289-294 | the run records, the disk and every store table change as the rollback phase says |
| Poller.PollWorker.ProcessRun | apps/local-daemon/src/poller.ts:233-295 | a run without a device is skipped; otherwise its commands are fetched and applied, over the run records, the disk and the store, as one pass of the three phases |
| Poller.PollWorker.ProcessRunCommands | apps/local-daemon/src/poller.ts:231-296 | every listed run of a device takes its commands in listing order, over the run records, the disk and the store, as the commands stage function says, and the run order and job index are kept |
| Contracts.DecisionFor | apps/local-daemon/src/state.ts:138 | no decision exactly when none is listed for the id; otherwise the decision is one listed for it with no later one for the same id, as a map built from the list keeps the last |
| Disk.FileSystem.constructor | apps/local-daemon/src/services/execution-service.ts:112-113 | the filesystem starts with the given files |
| Disk.FileSystem.Rename | apps/local-daemon/src/services/execution-service.ts:112-113 | a rename succeeds exactly when the source exists and the target path is not empty; on success the target holds what the source held and the source is gone, otherwise nothing changes |
| Disk.MoveBackRestores | apps/local-daemon/src/services/rollback-service.ts:104-113 | moving a file to a free path and back restores every file |
| Disk.MoveKeepsCount | apps/local-daemon/src/services/execution-service.ts:112-113 | a move to a free path neither creates nor loses a file |
| Auth.SpaceIndex | apps/vps-control-api/src/auth.ts:6 | the position found is of the first space, and there is none exactly when the header has no space |
| Auth.FirstField | apps/vps-control-api/src/auth.ts:6 | the first field is the header's prefix up to its first space, or the whole header when it has none |
| Auth.SecondField | apps/vps-control-api/src/auth.ts:6 | there is a second field exactly when the header has a space |
| Auth.ExtractBearer | apps/vps-control-api/src/auth.ts:3-9 | no token without a header, for an empty header, for a scheme other than bearer in any letter case, or without a non-empty second field; a token returned is that non-empty second field |
| Auth.BearerRoundTrip | apps/vps-control-api/src/auth.ts:3-9 | a header made of a bearer scheme, a space, a token without spaces and optionally more space-separated text yields exactly that token |
| Auth.HeaderFields | apps/vps-control-api/src/auth.ts:6 | the fields of such a header are its scheme and its token |
| Auth.RequireServiceToken | apps/vps-control-api/src/auth.ts:11-23 | with no configured token every request passes; otherwise exactly a single header equal to it passes, and any other request is refused with 401 unauthorized |
| ControlStore.Lookup | apps/vps-control-api/src/store.ts:83 | a map lookup finds exactly the keys present, with their values |
| ControlStore.FirstQueued | apps/vps-control-api/src/store.ts:141-155 | the position found holds a queued job and every earlier one is not queued; there is none exactly when no job in the queue is queued |
| ControlStore.ClaimAdvances | apps/vps-control-api/src/store.ts:141-155 | claiming is first in, first out: once the picked job is claimed, the next pick lies strictly later in the queue and is another job |
| ControlStore.SyncedPut | apps/vps-control-api/src/store.ts:176-182 | storing a snapshot together with its own summary keeps summaries and snapshots in step |
| ControlStore.DevicesInOrder | apps/vps-control-api/src/store.ts:98-99 | the devices in insertion order, one per id |
| ControlStore.ListedMembers | apps/vps-control-api/src/store.ts:98-99 | the listed devices are exactly the stored ones |
| ControlStore.ListedSet | apps/vps-control-api/src/store.ts:74 | storing a device keeps the insertion order listing every device once |
| ControlStore.PatchKeepsSync | apps/vps-control-api/src/store.ts:236-245 | a status patch keeps summaries and snapshots in step, sets the status of that run only, and changes nothing for an unknown run |
| ControlStore.DecideProposals | apps/vps-control-api/src/store.ts:200-208 | one decided proposal per proposal, each decided on its own |
| ControlStore.DecideProposalsEffect | apps/vps-control-api/src/store.ts:200-208 | only proposals a decision names change, and only in status |
| ControlStore.DecisionForAppend | apps/vps-control-api/src/store.ts:200 | in two lists of decisions joined, a decision in the later list wins |
| ControlStore.DecideProposalsTwice | apps/vps-control-api/src/store.ts:196-213 | two approval commands applied one after the other decide like one command listing both, the later decisions winning |
| ControlStore.InMemoryControlStore.constructor | apps/vps-control-api/src/store.ts:23-36 | a new store is empty |
| ControlStore.InMemoryControlStore.StartPairing | apps/vps-control-api/src/store.ts:38-55 | a new session is stored auto-approved and not completed, so it can be completed, and its id, code and expiry are returned |
| ControlStore.InMemoryControlStore.StoreDevice | apps/vps-control-api/src/store.ts:74 | the device is stored; a new id joins the end of the insertion order |
| ControlStore.InMemoryControlStore.CompletePairing | apps/vps-control-api/src/store.ts:57-79 | pairing succeeds exactly for a known, approved, not yet completed session; it then stores an offline device with the session's label and OS, its token, an empty job queue and marks the session completed, so the token resolves to the device and the session cannot be completed again; otherwise nothing changes |
| ControlStore.InMemoryControlStore.ResolveDeviceByToken | apps/vps-control-api/src/store.ts:81-84 | no device for a missing or empty token; otherwise the device the token was issued to, if any |
| ControlStore.InMemoryControlStore.Heartbeat | apps/vps-control-api/src/store.ts:86-96 | a known device goes online with the heartbeat time and is returned; an unknown one gives nothing and changes nothing |
| ControlStore.InMemoryControlStore.ListDevices | apps/vps-control-api/src/store.ts:98-100 | every stored device exactly once, ordered by label in code-point order (the source collates with `localeCompare`; see Left out); devices with the same label keep their insertion order, as the stable sort at store.ts:99 leaves them |
| Seqs.SortAscStable | apps/vps-control-api/src/store.ts:99 | the ascending sort is stable: for every key, the elements with that key come out in their input order |
| Seqs.SortDescStable | apps/local-daemon/src/state.ts:95 | the descending sort is stable: for every key, the elements with that key come out in their input order |
| ControlStore.InMemoryControlStore.EnqueueJob | apps/vps-control-api/src/store.ts:106-133 | the job is stored queued at the back of its device's queue, with a new run whose summary is queued with zero counters and whose snapshot has no proposals, so the device's queue has a job to claim |
| ControlStore.InMemoryControlStore.QueueJob | apps/vps-control-api/src/store.ts:107-114 | the job is stored queued at the back of its device's queue with its run id |
| ControlStore.InMemoryControlStore.PutRun | apps/vps-control-api/src/store.ts:129-130 | the run's summary and snapshot are stored together |
| ControlStore.InMemoryControlStore.GetJob | apps/vps-control-api/src/store.ts:135-139 | a job view exactly for a known job, with its status (queued when none is recorded) and its run id if any |
| ControlStore.InMemoryControlStore.PatchRunSummary | apps/vps-control-api/src/store.ts:236-245 | the run's status is patched in its summary and snapshot, as the patch functions say |
| ControlStore.InMemoryControlStore.PatchJobRun | apps/vps-control-api/src/store.ts:147-150 | the job's run, when it has a non-empty run id, gets the status; nothing changes otherwise |
| ControlStore.InMemoryControlStore.FindFirstQueued | apps/vps-control-api/src/store.ts:143-153 | the loop finds the first queued job of the queue |
| ControlStore.InMemoryControlStore.ClaimNextJob | apps/vps-control-api/src/store.ts:141-155 | the device's first queued job is claimed, its run's summary and snapshot marked claimed, and returned; with none queued nothing changes |
| ControlStore.InMemoryControlStore.AckJob | apps/vps-control-api/src/store.ts:157-165 | any known job becomes running, with its run's summary and snapshot, and the answer is true; an unknown job changes nothing |
| ControlStore.InMemoryControlStore.AppendProgress | apps/vps-control-api/src/store.ts:167-174 | for a known run the event is appended to its progress and its status set; an unknown run changes nothing and the answer is false |
| ControlStore.InMemoryControlStore.PutResult | apps/vps-control-api/src/store.ts:176-182 | for a known run the snapshot and its summary replace the stored ones and the summary's job takes the summary's status; an unknown run changes nothing |
| ControlStore.InMemoryControlStore.SetApprovals | apps/vps-control-api/src/store.ts:196-213 | the command is recorded; a run with a snapshot has its proposals decided and becomes ready to execute, in snapshot and summary alike |
| ControlStore.InMemoryControlStore.SetExecuteCommand | apps/vps-control-api/src/store.ts:219-222 | the command is recorded and the run patched ready to execute |
| ControlStore.InMemoryControlStore.SetRollbackCommand | apps/vps-control-api/src/store.ts:228-230 | the command is recorded |
| VpsServer.JobRunTargetAsWritten | apps/vps-control-api/src/server.ts:298-306 | as written, the progress and result routes accept any run the body names once the job in the URL exists and belongs to the caller |
| VpsServer.ForeignRunAccepted | apps/vps-control-api/src/server.ts:292-328 | a device owning job-a whose run is run-a has a post about job-a accepted for run-b |
| VpsServer.JobRunTarget | apps/vps-control-api/src/server.ts:298-306 | the corrected guard: a post is accepted exactly when the job exists, belongs to the caller and its recorded run is the run the body names |
| VpsServer.JobRunTargetOwned | apps/vps-control-api/src/server.ts:292-328 | every run the corrected guard lets a device write is the run recorded for one of that device's jobs |
| VpsServer.Caller | apps/vps-control-api/src/server.ts:254-255 | the caller is the device the bearer token of the authorization header was issued to, and there is none without such a token |
| VpsServer.PostPairingComplete | apps/vps-control-api/src/server.ts:210-222 | 400 for a missing or empty session id; otherwise success exactly when the store can complete the session, 404 with not_found otherwise, and the reply is the new device's id, token and pairing time |
| VpsServer.PostHeartbeat | apps/vps-control-api/src/server.ts:253-267 | 401 for an unknown token, 400 for a bad body, 403 when the body names another device than the token's; success exactly for the token's known device, which goes online with the heartbeat time, and the reply suggests polling after 3000 ms; a refused request changes no device |
| VpsServer.GetNextJob | apps/vps-control-api/src/server.ts:269-278 | 401 for an unknown token; otherwise the caller's first queued job is claimed, its run's summary and snapshot marked claimed, and returned with its run id; with none queued nothing is claimed and no run changes |
| VpsServer.PostAck | apps/vps-control-api/src/server.ts:280-290 | 401 for an unknown token; any known job, whichever device owns it, becomes running, with its run's summary and snapshot; an unknown job gives 404 and changes nothing |
| VpsServer.PostProgress | apps/vps-control-api/src/server.ts:292-309 | with the corrected run guard (see Findings): 401, 404 for an unknown job, 403 for another device's job, 400 for a bad body, 403 when the body's run is not the job's run, 404 for an unknown run; otherwise the event is appended to the run's progress and its status set in both the summary and the snapshot, and a refused request changes nothing |
| VpsServer.PostResult | apps/vps-control-api/src/server.ts:311-328 | with the corrected run guard: the same guards as progress; otherwise the snapshot and its summary replace the run's, the job's status becomes the result's status, and a refused request changes nothing |
| VpsServer.GetCommands | apps/vps-control-api/src/server.ts:378-395 | 401 for an unknown token, 404 for an unknown run, 403 for another device's run; otherwise the run's approval, execute and rollback commands as stored |
| DaemonServer.NormalizeAllowedActions | apps/local-daemon/src/server.ts:265-267 | never empty: a non-empty list is kept as given, a missing or empty one becomes rename, move, archive and index_only, without duplicate grouping |
| DaemonServer.NormalizeIdempotent | apps/local-daemon/src/server.ts:265-267 | normalising twice gives what normalising once gives |
| DaemonServer.GetBootstrapStatus | apps/local-daemon/src/server.ts:339-348 | configured exactly when both the control API address and the service token are non-empty; the address, source and path are reported as they are |
| DaemonServer.DeviceStatusOf | apps/local-daemon/src/server.ts:435-442 | the daemon reports itself paired exactly when it holds the device id and token the poll worker needs to run a tick |
| DaemonServer.EnqueueJob | apps/local-daemon/src/server.ts:129-140 | the enqueue route refuses, in this order, a missing service token, a malformed body (no path kind, a non-positive file cap) and a missing device id; otherwise the job is a manual cleanup run for the body's device or the daemon's own, over the given path kinds, at most 500 files by default, not incremental, with the normalised actions, requested by openclaw as local-app by default |
| DaemonServer.EnqueuedJobWellFormed | apps/local-daemon/src/server.ts:596-632 | an enqueued job names a device, scans at least one kind of path, caps the files at a positive number and allows at least one action |
| DaemonServer.ExecutionResponseCodes | apps/local-daemon/src/server.ts:675-689 | the dry-run refusal becomes the 400 dry_run_execution_blocked reply, a failed rename a 500, and only a completed pass succeeds, with its next summary |
| DaemonServer.RollbackExecutionResponse | apps/local-daemon/src/server.ts:712-720 | 404 unless the rollback succeeded and names its run; a success carries the run and the proposal |
| DaemonServer.CommandOf | apps/local-daemon/src/server.ts:660-665 | the command applies the body's decisions to the route's run, by the body's actor, at the body's time or now |
| DaemonServer.ExecuteAndRecord | apps/local-daemon/src/server.ts:675-679 | the reply is that of the execution service's outcome, which is the specified pass on the current files; the disk, run summaries, proposal rows, file records and execution records become the executed tables; only a completed pass replaces the run's snapshot in the daemon state; settings, watched paths and run order are untouched |
| DaemonServer.ApproveExecute | apps/local-daemon/src/server.ts:653-691 | a malformed body is a 400 and an unknown run a 404, both changing nothing; otherwise the decisions are applied to the daemon state and the store, the execution service runs on the store's refreshed snapshot, which carries them, the disk and the store's tables become the executed tables over the decided rows, and the reply is its outcome |
| DaemonServer.SummaryResponse | apps/local-daemon/src/server.ts:697-706 | the execute route replies with the new summary exactly when the pass completed, with no execution records; otherwise with the same 400 dry-run or 500 reply as the approve-and-execute route |
| DaemonServer.ExecuteRun | apps/local-daemon/src/server.ts:693-710 | an unknown run is a 404 changing nothing; otherwise the store's snapshot is executed as it stands, with the disk and the store's tables becoming the executed tables; a dry run is refused with 400 changing nothing; the reply is the new summary alone on success and the outcome's error reply otherwise |
| DaemonServer.RollbackExecutionRoute | apps/local-daemon/src/server.ts:712-720 | an execution that is unknown, failed or without an undo plan gives 404 and changes nothing; otherwise the undo is tried, one rollback record is appended, on success the proposal is re-approved and its file record moved back, and the reply is the execution's run and proposal when the undo succeeded and the run is named, 404 otherwise |
| DaemonServer.RollbackRunRoute | apps/local-daemon/src/server.ts:722-730 | an unknown run is a 404 changing nothing; otherwise the store's snapshot is rolled back as the rollback service specifies, the disk and the store's tables become the rolled-back tables, the daemon state takes the resulting snapshot, settings, watched paths and run order are untouched, and the reply is its summary |

## Left out

- Path canonicalisation: `path.resolve`, `fs.realpath`, the ancestor walk of `toExistingRealPath` and the case folding of `normalizeForCompare` are function-valued fields of the environment, not definitions. Symlinks are not modelled.
- Path separator: only '/' is modelled. Windows drive letters and '\' separators are not.
- Directories on disk: the disk is a map from file path to file identity. `mkdir -p` of a target's directory always succeeds. Permission errors thrown by `mkdir` are not modelled; a failing `rename` is.
- Ids and the clock: `randomUUID`-style ids, pairing codes and `nowIso()` are parameters. A loop that draws many ids takes a function from the record's index to its id. The execution and rollback services read the clock twice per record, once for `startedAt` and once for `finishedAt`, and the model takes one function for each reading. A single operation's timestamp is one `now` string. `markRunFailed` reads the clock itself for the failed run's `finishedAt`, so the poller's commands stage takes that reading as its own parameter (`failedAt`), apart from the `now` it stamps the in-memory record with.
- Collisions.ResolveCollision: the version is an unbounded integer. The source's `Number(match[1])` rounds a version above 2^53, and its template string prints a number of 10^21 or more in exponent notation. For such names the source's candidate names differ from the model's.
- Strings.DigitsValueOfNatToString: the decimal value is exact. The source reads the digits with `Number`, which rounds above 2^53, so the round trip holds in the source only up to that bound.
- Strings.ToLower: lower-cases 'A' to 'Z' only. JavaScript's `toLowerCase` also maps non-ASCII capitals, such as 'É' to 'é'. A file name with such letters can therefore get a different label, slug or collision base in the source.
- Classification.Classify and Classification.ClassifyBatch: classify with the corrected base name and slug, as intended (see Findings), not with the source's as-written `path.basename(filename, ext)` and slug. A name with an upper-case extension, such as "IMG_1234.JPG", or a slug whose cut leaves a trailing dash, is classified as intended here. The as-written behaviour is pinned by the Findings lemmas.
- Proposals.GenerateForCandidate, Proposals.Outcomes and Proposals.Generate: build proposals from the corrected base name and slug, as intended (see Findings). For "IMG_1234.JPG" with extension ".jpg" the source keeps the extension in the base, so the generic-name pattern fails and the rename branch is never taken; with index-only allowed and a confident classification, the file gets an index-only proposal. The model uses base "IMG_1234", for which the rename branch is taken when renaming is allowed and neither the screenshot nor the installer branch applies.
- Classification.ClassifyLabelShape, Classification.RuleLabelShape, Classification.InstallerLabelShape, Classification.ScreenshotLabelShape and Classification.ArchiveLabelShape: the label shapes are proved for the corrected slug. With the as-written slug a label can end in '-' (see Findings).
- VpsServer.PostProgress and VpsServer.PostResult: check that the body's `runId` is the job's run and otherwise reply 403, as intended (see Findings). The source has no such check and writes into whichever run the body names. The as-written guard is `VpsServer.JobRunTargetAsWritten`.
- ControlStore.InMemoryControlStore.ListDevices, DaemonState.LocalDaemonState.ListRuns and Scan.ScanPath: sort by code-point order of the strings. The source uses `localeCompare`, whose collation differs from code-point order for some strings, such as mixed-case labels, accents and punctuation.
- SQL ordering: `ORDER BY started_at DESC` is the model's stable newest-first sort over insertion order. SQLite's order among equal timestamps is unspecified, so that tie order is a modelling choice.
- RunStore.ReplacedRowsReadBack and RunStore.ReplaceRowsRoundTrip: `replaceRunProposals` stamps every row with one `created_at`, and `listRunProposals` orders by `created_at` ascending, so SQLite's order among those rows is unspecified. The model reads them back in insertion order, which is an assumption about that tie order.
- DaemonState.LocalDaemonState.AppendProgress: a progress entry has a time, a stage and a message. The optional `data` payload of `appendProgress`, such as the scope the poller attaches to its no-scope entry, is not modelled.
- Execution.PerformedIsUndoable: requires that no file exists at the empty path, so that the recorded move-back is a legal rename. The source relies on this without stating it.
- Scan: a directory listing is a finite tree value. A `stat` that throws and a `readdir` that throws are cases of the tree. `scanPath`'s provisional file ids come from a parameter function (`newFileId`), and so does the MIME lookup (`mimeOf`). File contents are not read.
- Watched paths: the filesystem probes of `validatePath` (`exists`, `isDirectory`) are parameter functions.
- Run records: the in-memory state stores run records as values. Callers mutating a record they hold through a JavaScript reference are not modelled. The poller's re-reading of the state after each step stands for that aliasing.
- Getters: `getSettings`, `getRunSummary`, `getRunSnapshot`, `getExecution`, `getProposalById` and the control store's `get*` are plain reads with no contract of their own. The properties about them are on the operations that write them.
- Getters: `Disk.FileSystem.Exists`, `RuntimeControl.RuntimeController.Status` and `Poller.PollWorker.GetStatus` are also reads without contracts.
- ControlStore.InMemoryControlStore.SetApprovals: as in the source, the control plane's `setApprovals` records the decision but ignores `editedAfter`. Only the daemon applies an edited target.
- Request validation: zod schemas are reduced to predicates over typed bodies, or to a `None` body when validation fails. JSON type checks are not modelled, and neither is Fastify routing.
- Daemon settings: `updateSettings` throwing on an invalid patch is a `None` result. `localUiPort` is kept as a number and is not checked.
- DaemonServer.ExecutionResponseCodes: the 500 reply carries the destination of the failing rename, not the text of the thrown error.
- Daemon routes not modelled: the approvals-only route `/api/runs/:runId/approvals` is covered only through `ApproveExecute`'s first step. The pushes to the control plane (`mirrorApprovals`, `pushSnapshotToControl`, the remote `enqueueJob`) are network calls.
- Daemon configuration: `applyControlApiConfig` reassigns the module-level control configuration and is not modelled. The configuration enters `GetBootstrapStatus` as a parameter.
- `renderLocalUi`: it is HTML rendering and is not modelled.
- Control-plane service-token routes (pairing start, device and job listing, run queries, posting approvals, execute and rollback) are direct store calls behind `Auth.RequireServiceToken`. They are covered by the store's methods and are not modelled separately.
- Poller.PollWorker.Tick: models the tick's flags and stage sequence. The stage effects are the separate methods `ProcessIncomingJob` and `ProcessRunCommands`. Those compose the modelled scan, classification, execution and rollback services over the shared store and disk; only the control plane's answers and the planner's `proposeActions` enter as parameters (`Proposals.Generate` models that planner on its own).
- Poller.PollWorker.ProcessIncomingJob and Poller.PollWorker.ProcessRunCommands: a throw from a control-plane call (`ackJob`, `pushProgress`, `fetchRunCommands`, `pushRunResult`) or from a service is not modelled inside a stage. In the source such a throw ends the stage where it happens: between `createRun` and `replaceRunProposals` it leaves the run "running", and in the commands loop it leaves the later runs unvisited. The model's tick only records that a stage threw (`jobsThrow`, `commandsThrow`) and schedules the retry.
- Poller.PollWorker.TakeJob and Poller.PollWorker.PlanJob: `getSettings` throwing because the settings row is missing is not modelled; the store always holds settings.
- Poller.ExecutePhaseOutcome: a rename error whose text itself contains "dry_run_execution_blocked" would take the dry-run branch in the source and in the model alike; the model does not single out that case.
- Poller.PollWorker.Start: does not run the tick it launches. `Schedule` and `Tick` are separate calls.
- Poller.PollWorker.StopGraceful: the 100 ms wait loop is the parameter `tickEndsInTime`, which says whether the running tick finishes before the timeout.
- Poller: the command gates read the daemon's stored record. Network pushes to the control plane and log lines are not modelled.
- RuntimeControl.RuntimeController.constructor: the stop timeout is a natural number of milliseconds, so a negative timeout cannot be expressed.
- Floating point: confidences are integer hundredths. The `0.6` boundary and `min(0.99, c + 0.08)` are exact integer comparisons here.
- Collisions.ResolvedKeepsDirectory: proved only when the target's directory is "/" or a non-empty path without a trailing '/', which holds for every normalised absolute target. For a path with a doubled separator, such as "/a//b", the re-joined candidate's directory is textually different.
- Secret storage, configuration loading, database connection and migration, the desktop shell, the HTTP clients and the tool wrappers are outside the core.

## Findings

| source | as written | input that shows it | evidently intended | confidence | as-written member | corrected member |
|---|---|---|---|---|---|---|
| apps/local-daemon/src/services/classification-service.ts:67-73 | `slug` strips leading and trailing dashes and then cuts to the length cap, so the cut can leave a trailing dash | `n` slug characters followed by " b" with cap `n + 1` (for example 79 'a's + " b" at cap 80) gives the `n` characters plus "-" | a slug never ends with '-': trim again after the cut | not executed | NamePatterns.SlugAsWrittenCanEndWithDash | NamePatterns.SlugTrimsAfterCut |
| apps/local-daemon/src/services/proposal-service.ts:186-192 | the proposal `slug` has the same order of trim and cut, with cap 70 | 69 'a's + " b" at cap 70 gives a slug ending in '-' | trim after the cut, as above | not executed | NamePatterns.SlugAsWrittenEndsWithDashAtBothCaps | NamePatterns.SlugIsShaped |
| apps/local-daemon/src/services/classification-service.ts:12 | `path.basename(candidate.filename, ext)` removes the lower-cased extension from the original name, so a name whose extension is in upper case keeps it; the result is then lower-cased | "IMG_1234.JPG" with extension ".jpg" gives base "img_1234.jpg", which misses the generic camera-name rule | the base name without its extension, whatever its case ("img_1234") | not executed | Classification.UpperCaseExtensionMissesGenericRule | Classification.IntendedDropsUpperExtension |
| apps/local-daemon/src/services/proposal-service.ts:44 | `path.basename(filename, ext)` with a lower-case `ext` keeps an upper-case extension in the proposal's base name | "IMG_1234.JPG" with extension ".jpg" keeps base "IMG_1234.JPG" | base "IMG_1234" | not executed | Proposals.UpperCaseExtensionKeepsProposalBase | Proposals.UpperJpgIntended |
| apps/vps-control-api/src/server.ts:292-328 | the progress and result routes check that the job belongs to the caller, then write to the run named by the body's `runId` without checking that it is the job's run | a device posting progress for its own job with another device's `runId` writes into that other run | the body's `runId` must be the job's run; otherwise reply 403 | not executed | VpsServer.ForeignRunAccepted | VpsServer.JobRunTargetOwned |
