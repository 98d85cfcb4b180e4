// The daemon's path policy: which files a scan may pick up, and which
// source/target pairs an operation may touch.
module PathPolicy {
  import opened Strings
  import opened Paths
  import opened Seqs
  import opened Contracts

  datatype PolicyDecision = Allowed | Denied(reason: string)

  /** The two filesystem-dependent normalisations the policy applies:
      `realPath` is `toExistingRealPath` (resolve, then realpath of the longest
      existing prefix) and `compareKey` is `normalizeForCompare` (resolve, and
      lower-case on Windows). Both depend on the machine, so they are given. */
  datatype PathEnv = PathEnv(realPath: string -> string, compareKey: string -> string)

  const OutsideWatchedPaths: string := "outside_watched_paths"
  const InsideProtectedPath: string := "inside_protected_path"
  const TargetOutsideAllowedRoots: string := "target_outside_allowed_roots"
  const TargetInsideProtectedPath: string := "target_inside_protected_path"

  /** `root` equals `target` or is a separator-bounded prefix of it, after both
      are put in comparison form. */
  predicate IsWithin(env: PathEnv, root: string, target: string)
  {
    var r := env.compareKey(root);
    var t := env.compareKey(target);
    r == t || StartsWith(t, r + [Sep])
  }

  /** The watched entry's normalised root contains the (normalised) path. */
  predicate Covers(env: PathEnv, w: WatchedPathRecord, path: string)
  {
    IsWithin(env, env.realPath(w.path), path)
  }

  /** `isPathAllowedForScan`. */
  function ScanDecision(env: PathEnv, watchedPaths: seq<WatchedPathRecord>, candidatePath: string): PolicyDecision
  {
    var watched := Filter(watchedPaths, (p: WatchedPathRecord) => p.isEnabled);
    var normalized := env.realPath(candidatePath);
    var matchingEnabled := Filter(watched, (p: WatchedPathRecord) => !p.isProtected && Covers(env, p, normalized));
    if |matchingEnabled| == 0 then Denied(OutsideWatchedPaths)
    else
      var matchingProtected := Filter(watched, (p: WatchedPathRecord) => p.isProtected && Covers(env, p, normalized));
      if |matchingProtected| > 0 then Denied(InsideProtectedPath) else Allowed
  }

  /** An enabled, unprotected entry contains the path. */
  predicate Admits(env: PathEnv, w: WatchedPathRecord, normalized: string)
  {
    w.isEnabled && !w.isProtected && Covers(env, w, normalized)
  }

  /** An enabled, protected entry contains the path. */
  predicate Shields(env: PathEnv, w: WatchedPathRecord, normalized: string)
  {
    w.isEnabled && w.isProtected && Covers(env, w, normalized)
  }

  predicate SomeAdmits(env: PathEnv, ws: seq<WatchedPathRecord>, normalized: string)
  {
    exists i :: 0 <= i < |ws| && Admits(env, ws[i], normalized)
  }

  predicate SomeShields(env: PathEnv, ws: seq<WatchedPathRecord>, normalized: string)
  {
    exists i :: 0 <= i < |ws| && Shields(env, ws[i], normalized)
  }

  lemma NestedFilterNonEmpty(ws: seq<WatchedPathRecord>, g: WatchedPathRecord -> bool)
    ensures |Filter(Filter(ws, (p: WatchedPathRecord) => p.isEnabled), g)| > 0
        <==> exists i :: 0 <= i < |ws| && ws[i].isEnabled && g(ws[i])
  {
    var watched := Filter(ws, (p: WatchedPathRecord) => p.isEnabled);
    var m := Filter(watched, g);
    if |m| > 0 {
      assert m[0] in watched && g(m[0]);
      assert m[0] in ws && m[0].isEnabled;
      var i :| 0 <= i < |ws| && ws[i] == m[0];
    }
    if exists i :: 0 <= i < |ws| && ws[i].isEnabled && g(ws[i]) {
      var i :| 0 <= i < |ws| && ws[i].isEnabled && g(ws[i]);
      assert ws[i] in watched;
      var j :| 0 <= j < |watched| && watched[j] == ws[i];
      assert watched[j] in m;
    }
  }

  /** The scan decision in declarative form: outside unless an enabled
      unprotected entry contains the path; then protected wins. */
  lemma ScanDecisionSpec(env: PathEnv, ws: seq<WatchedPathRecord>, candidatePath: string)
    ensures var n := env.realPath(candidatePath);
      ScanDecision(env, ws, candidatePath) ==
        if !SomeAdmits(env, ws, n) then Denied(OutsideWatchedPaths)
        else if SomeShields(env, ws, n) then Denied(InsideProtectedPath)
        else Allowed
  {
    var n := env.realPath(candidatePath);
    NestedFilterNonEmpty(ws, (p: WatchedPathRecord) => !p.isProtected && Covers(env, p, n));
    NestedFilterNonEmpty(ws, (p: WatchedPathRecord) => p.isProtected && Covers(env, p, n));
    assert SomeAdmits(env, ws, n) <==> exists i :: 0 <= i < |ws| && ws[i].isEnabled && !ws[i].isProtected && Covers(env, ws[i], n);
    assert SomeShields(env, ws, n) <==> exists i :: 0 <= i < |ws| && ws[i].isEnabled && ws[i].isProtected && Covers(env, ws[i], n);
  }

  /** An enabled protected entry overrides any enabled unprotected entry that
      also contains the path. */
  lemma ProtectedWinsForScan(env: PathEnv, ws: seq<WatchedPathRecord>, candidatePath: string, i: int, j: int)
    requires 0 <= i < |ws| && Admits(env, ws[i], env.realPath(candidatePath))
    requires 0 <= j < |ws| && Shields(env, ws[j], env.realPath(candidatePath))
    ensures ScanDecision(env, ws, candidatePath) == Denied(InsideProtectedPath)
  {
    ScanDecisionSpec(env, ws, candidatePath);
  }

  /** Disabled entries play no part in the scan decision. */
  lemma ScanIgnoresDisabled(env: PathEnv, ws: seq<WatchedPathRecord>, candidatePath: string)
    ensures ScanDecision(env, ws, candidatePath)
         == ScanDecision(env, Filter(ws, (p: WatchedPathRecord) => p.isEnabled), candidatePath)
  {
    var n := env.realPath(candidatePath);
    ScanDecisionSpec(env, ws, candidatePath);
    ScanDecisionSpec(env, Filter(ws, (p: WatchedPathRecord) => p.isEnabled), candidatePath);
    EnabledAdmitSame(env, ws, n);
    EnabledShieldSame(env, ws, n);
  }

  lemma EnabledAdmitSame(env: PathEnv, ws: seq<WatchedPathRecord>, n: string)
    ensures SomeAdmits(env, ws, n) <==> SomeAdmits(env, Filter(ws, (p: WatchedPathRecord) => p.isEnabled), n)
  {
    var en := Filter(ws, (p: WatchedPathRecord) => p.isEnabled);
    if SomeAdmits(env, ws, n) {
      var i :| 0 <= i < |ws| && Admits(env, ws[i], n);
      assert ws[i] in en;
    }
    if SomeAdmits(env, en, n) {
      var i :| 0 <= i < |en| && Admits(env, en[i], n);
    }
  }

  lemma EnabledShieldSame(env: PathEnv, ws: seq<WatchedPathRecord>, n: string)
    ensures SomeShields(env, ws, n) <==> SomeShields(env, Filter(ws, (p: WatchedPathRecord) => p.isEnabled), n)
  {
    var en := Filter(ws, (p: WatchedPathRecord) => p.isEnabled);
    if SomeShields(env, ws, n) {
      var i :| 0 <= i < |ws| && Shields(env, ws[i], n);
      assert ws[i] in en;
    }
    if SomeShields(env, en, n) {
      var i :| 0 <= i < |en| && Shields(env, en[i], n);
    }
  }

  /** The comparison is separator-aware: "/a/bc" is not inside "/a/b". */
  lemma SiblingPrefixIsNotWithin()
    ensures var env := PathEnv((p: string) => p, (p: string) => p);
      !IsWithin(env, "/a/b", "/a/bc") && IsWithin(env, "/a/b", "/a/b/c") && IsWithin(env, "/a/b", "/a/b")
  {
    assert "/a/bc"[..5] != "/a/b/" by { assert "/a/bc"[4] == 'c'; }
  }

  function AllowedRoots(settings: LocalSettings): seq<string>
  {
    Filter([settings.organizedRootPath, settings.archiveRootPath, settings.duplicateReviewPath], (r: string) => r != "")
  }

  /** `validateOperationPaths`. An empty `targetPath` is the source's absent target. */
  function ValidateOperationPaths(
    env: PathEnv, settings: LocalSettings, watchedPaths: seq<WatchedPathRecord>,
    actionType: ActionType, sourcePath: string, targetPath: string): PolicyDecision
  {
    var source := env.realPath(sourcePath);
    var sourceDecision := ScanDecision(env, watchedPaths, source);
    if sourceDecision.Denied? then sourceDecision
    else if targetPath == "" then Allowed
    else
      var target := env.realPath(targetPath);
      var allowedRoots := AllowedRoots(settings);
      var sameDirRename := actionType == Rename && ToLower(Dirname(source)) == ToLower(Dirname(target));
      var inAllowedRoot := exists i :: 0 <= i < |allowedRoots| && IsWithin(env, env.realPath(allowedRoots[i]), target);
      if !sameDirRename && !inAllowedRoot then Denied(TargetOutsideAllowedRoots)
      else
        var protectedEntries := Filter(watchedPaths, (p: WatchedPathRecord) => p.isProtected);
        var protectedRoots := RootsOf(env, protectedEntries);
        if exists i :: 0 <= i < |protectedRoots| && IsWithin(env, protectedRoots[i], target)
        then Denied(TargetInsideProtectedPath)
        else Allowed
  }

  /** The normalised roots of some watched entries, in order. */
  function RootsOf(env: PathEnv, entries: seq<WatchedPathRecord>): (r: seq<string>)
    ensures |r| == |entries|
    ensures forall i :: 0 <= i < |r| ==> r[i] == env.realPath(entries[i].path)
  {
    seq(|entries|, i requires 0 <= i < |entries| => env.realPath(entries[i].path))
  }

  /** One of the configured (non-empty) roots contains the target. */
  predicate InAllowedRoot(env: PathEnv, settings: LocalSettings, target: string)
  {
    (settings.organizedRootPath != "" && IsWithin(env, env.realPath(settings.organizedRootPath), target))
    || (settings.archiveRootPath != "" && IsWithin(env, env.realPath(settings.archiveRootPath), target))
    || (settings.duplicateReviewPath != "" && IsWithin(env, env.realPath(settings.duplicateReviewPath), target))
  }

  /** Some protected entry contains the target, enabled or not. */
  predicate InProtectedRoot(env: PathEnv, ws: seq<WatchedPathRecord>, target: string)
  {
    exists i :: 0 <= i < |ws| && ws[i].isProtected && Covers(env, ws[i], target)
  }

  predicate SameDirRename(actionType: ActionType, source: string, target: string)
  {
    actionType == Rename && ToLower(Dirname(source)) == ToLower(Dirname(target))
  }

  lemma AllowedRootsSpec(env: PathEnv, settings: LocalSettings, target: string)
    ensures var roots := AllowedRoots(settings);
      (exists i :: 0 <= i < |roots| && IsWithin(env, env.realPath(roots[i]), target)) <==> InAllowedRoot(env, settings, target)
  {
    var all := [settings.organizedRootPath, settings.archiveRootPath, settings.duplicateReviewPath];
    var roots := AllowedRoots(settings);
    if exists i :: 0 <= i < |roots| && IsWithin(env, env.realPath(roots[i]), target) {
      var i :| 0 <= i < |roots| && IsWithin(env, env.realPath(roots[i]), target);
      assert roots[i] in all && roots[i] != "";
    }
    if InAllowedRoot(env, settings, target) {
      var k := if settings.organizedRootPath != "" && IsWithin(env, env.realPath(settings.organizedRootPath), target) then 0
        else if settings.archiveRootPath != "" && IsWithin(env, env.realPath(settings.archiveRootPath), target) then 1
        else 2;
      assert all[k] != "" && IsWithin(env, env.realPath(all[k]), target);
      assert all[k] in roots;
      var i :| 0 <= i < |roots| && roots[i] == all[k];
    }
  }

  lemma ProtectedRootsSpec(env: PathEnv, ws: seq<WatchedPathRecord>, target: string)
    ensures var roots := RootsOf(env, Filter(ws, (p: WatchedPathRecord) => p.isProtected));
      (exists i :: 0 <= i < |roots| && IsWithin(env, roots[i], target)) <==> InProtectedRoot(env, ws, target)
  {
    var pe := Filter(ws, (p: WatchedPathRecord) => p.isProtected);
    var roots := RootsOf(env, pe);
    if exists i :: 0 <= i < |roots| && IsWithin(env, roots[i], target) {
      var i :| 0 <= i < |roots| && IsWithin(env, roots[i], target);
      ProtectedRootToEntry(env, ws, pe, target, i);
    }
    if InProtectedRoot(env, ws, target) {
      var j :| 0 <= j < |ws| && ws[j].isProtected && Covers(env, ws[j], target);
      ProtectedEntryToRoot(env, ws, pe, target, j);
    }
  }

  lemma ProtectedRootToEntry(env: PathEnv, ws: seq<WatchedPathRecord>, pe: seq<WatchedPathRecord>, target: string, i: int)
    requires pe == Filter(ws, (p: WatchedPathRecord) => p.isProtected)
    requires 0 <= i < |pe| && IsWithin(env, env.realPath(pe[i].path), target)
    ensures InProtectedRoot(env, ws, target)
  {
    assert pe[i] in ws && pe[i].isProtected;
    var j :| 0 <= j < |ws| && ws[j] == pe[i];
    assert Covers(env, ws[j], target);
  }

  lemma ProtectedEntryToRoot(env: PathEnv, ws: seq<WatchedPathRecord>, pe: seq<WatchedPathRecord>, target: string, j: int)
    requires pe == Filter(ws, (p: WatchedPathRecord) => p.isProtected)
    requires 0 <= j < |ws| && ws[j].isProtected && Covers(env, ws[j], target)
    ensures var roots := RootsOf(env, pe); exists i :: 0 <= i < |roots| && IsWithin(env, roots[i], target)
  {
    assert ws[j] in pe;
    RootOfMember(env, pe, ws[j], target);
  }

  lemma RootOfMember(env: PathEnv, pe: seq<WatchedPathRecord>, w: WatchedPathRecord, target: string)
    requires w in pe && Covers(env, w, target)
    ensures var roots := RootsOf(env, pe); exists i :: 0 <= i < |roots| && IsWithin(env, roots[i], target)
  {
    var i :| 0 <= i < |pe| && pe[i] == w;
    assert RootsOf(env, pe)[i] == env.realPath(w.path);
  }

  /** The operation check in declarative form, every reason in its order: the
      source's scan decision first, then no target means allowed, then the
      target must be a same-directory rename or under a configured root, and
      it must not lie under any protected entry, enabled or disabled. */
  lemma ValidateOperationPathsSpec(
    env: PathEnv, settings: LocalSettings, ws: seq<WatchedPathRecord>,
    actionType: ActionType, sourcePath: string, targetPath: string)
    ensures var source := env.realPath(sourcePath);
      var target := env.realPath(targetPath);
      ValidateOperationPaths(env, settings, ws, actionType, sourcePath, targetPath) ==
        if ScanDecision(env, ws, source).Denied? then ScanDecision(env, ws, source)
        else if targetPath == "" then Allowed
        else if !SameDirRename(actionType, source, target) && !InAllowedRoot(env, settings, target)
        then Denied(TargetOutsideAllowedRoots)
        else if InProtectedRoot(env, ws, target) then Denied(TargetInsideProtectedPath)
        else Allowed
  {
    AllowedRootsSpec(env, settings, env.realPath(targetPath));
    ProtectedRootsSpec(env, ws, env.realPath(targetPath));
  }

  /** A protected entry guards targets even while it is disabled. */
  lemma DisabledProtectedGuardsTargets(
    env: PathEnv, settings: LocalSettings, ws: seq<WatchedPathRecord>,
    actionType: ActionType, sourcePath: string, targetPath: string, j: int)
    requires ScanDecision(env, ws, env.realPath(sourcePath)) == Allowed
    requires targetPath != ""
    requires InAllowedRoot(env, settings, env.realPath(targetPath))
    requires 0 <= j < |ws| && ws[j].isProtected && !ws[j].isEnabled && Covers(env, ws[j], env.realPath(targetPath))
    ensures ValidateOperationPaths(env, settings, ws, actionType, sourcePath, targetPath) == Denied(TargetInsideProtectedPath)
  {
    ValidateOperationPathsSpec(env, settings, ws, actionType, sourcePath, targetPath);
  }
}
