// The watched-paths service (watched-paths-service.ts): a thin layer over
// the store that resolves user-supplied paths and fills in the defaults of
// a new entry. `path.resolve` is the service's `resolve` function; the
// filesystem probe of `validatePath` is given as two functions.
module WatchedPaths {
  import opened Wrappers
  import opened Seqs
  import opened Contracts
  import opened RunStore

  /** The patch `update` hands to the store: a present, non-empty `path` is
      resolved (an empty one is falsy in the source and passes unchanged). */
  function ResolvePatch(resolve: string -> string, patch: WatchedPatch): (r: WatchedPatch)
    ensures r.pathType == patch.pathType && r.isEnabled == patch.isEnabled
    ensures r.isProtected == patch.isProtected && r.includeSubfolders == patch.includeSubfolders
    ensures patch.path.None? ==> r.path.None?
    ensures patch.path.Some? && patch.path.value != "" ==> r.path == Some(resolve(patch.path.value))
    ensures patch.path == Some("") ==> r.path == Some("")
  {
    if patch.path.Some? && patch.path.value != "" then patch.(path := Some(resolve(patch.path.value)))
    else patch
  }

  /** Applying the same patch twice changes nothing more. */
  lemma MergeWatchedIdempotent(w: WatchedPathRecord, p: WatchedPatch, now: string)
    ensures MergeWatched(MergeWatched(w, p, now), p, now) == MergeWatched(w, p, now)
  {
  }

  /** A patch changes only the patched fields and the update time: the id,
      the creation time and every unpatched field stay. */
  lemma MergeWatchedKeeps(w: WatchedPathRecord, p: WatchedPatch, now: string)
    ensures var m := MergeWatched(w, p, now);
      && m.id == w.id && m.createdAt == w.createdAt && m.updatedAt == now
      && (p.path.None? ==> m.path == w.path) && (p.path.Some? ==> m.path == p.path.value)
      && (p.pathType.None? ==> m.pathType == w.pathType)
      && (p.isEnabled.None? ==> m.isEnabled == w.isEnabled)
      && (p.isProtected.None? ==> m.isProtected == w.isProtected)
      && (p.includeSubfolders.None? ==> m.includeSubfolders == w.includeSubfolders)
  {
  }

  /** Removing a freshly added entry restores the list. */
  lemma AddThenDeleteRestores(ws: seq<WatchedPathRecord>, r: WatchedPathRecord)
    requires forall i :: 0 <= i < |ws| ==> ws[i].id != r.id
    ensures RemoveWatched([r] + ws, r.id) == ws
  {
    var f := (w: WatchedPathRecord) => w.id != r.id;
    assert ([r] + ws)[1..] == ws;
    FilterKeepsAll(ws, f);
  }

  /** What `validatePath` reports. */
  datatype PathCheck = PathCheck(path: string, present: bool, isDirectory: bool)

  /** `validatePath` (its `exists` answer is `present` here): `existsAt` is `existsSync`, `statDir` is `statSync(..).isDirectory()`
      with `None` where `statSync` throws. */
  function ValidatePath(resolve: string -> string, existsAt: string -> bool, statDir: string -> Option<bool>,
                        inputPath: string): (r: PathCheck)
    ensures r.path == resolve(inputPath) && r.present == existsAt(r.path)
    ensures r.isDirectory <==> r.present && statDir(r.path) == Some(true)
  {
    var resolved := resolve(inputPath);
    var e := existsAt(resolved);
    var isDir := if e then statDir(resolved).GetOr(false) else false;
    PathCheck(resolved, e, isDir)
  }

  class WatchedPathsService {
    const store: LocalStore
    const resolve: string -> string

    constructor (store: LocalStore, resolve: string -> string)
      ensures this.store == store && this.resolve == resolve
    {
      this.store := store;
      this.resolve := resolve;
    }

    /** `list`: the store's entries, newest first. */
    function List(): (r: seq<WatchedPathRecord>)
      reads store
      ensures r == store.watched
    {
      store.watched
    }

    /** `add`: the resolved path, enabled, unprotected and shallow unless
        the caller says otherwise. */
    method Add(path: string, pathType: PathKind, isEnabled: Option<bool>, isProtected: Option<bool>,
               includeSubfolders: Option<bool>, newId: string, now: string) returns (r: WatchedPathRecord)
      modifies store
      ensures r.id == newId && r.path == resolve(path) && r.pathType == pathType
      ensures r.isEnabled == isEnabled.GetOr(true) && r.isProtected == isProtected.GetOr(false)
      ensures r.includeSubfolders == includeSubfolders.GetOr(false)
      ensures r.createdAt == now && r.updatedAt == now
      ensures store.watched == [r] + old(store.watched)
      ensures store.settings == old(store.settings) && store.runs == old(store.runs) && store.runOrder == old(store.runOrder)
      ensures store.proposalRows == old(store.proposalRows) && store.fileRecords == old(store.fileRecords)
      ensures store.executions == old(store.executions)
    {
      r := store.AddWatchedPath(resolve(path), pathType, isEnabled.GetOr(true), isProtected.GetOr(false),
                                includeSubfolders.GetOr(false), newId, now);
    }

    /** `update`: the store's update with the path resolved. */
    method Update(id: string, patch: WatchedPatch, now: string) returns (r: Option<WatchedPathRecord>)
      modifies store
      ensures old(store.GetWatchedPath(id)).None? ==> r.None? && store.watched == old(store.watched)
      ensures old(store.GetWatchedPath(id)).Some? ==>
        var next := MergeWatched(old(store.GetWatchedPath(id)).value, ResolvePatch(resolve, patch), now);
        store.watched == ReplaceWatched(old(store.watched), id, next) && r == Some(next)
      ensures store.settings == old(store.settings) && store.runs == old(store.runs) && store.runOrder == old(store.runOrder)
      ensures store.proposalRows == old(store.proposalRows) && store.fileRecords == old(store.fileRecords)
      ensures store.executions == old(store.executions)
    {
      r := store.UpdateWatchedPath(id, ResolvePatch(resolve, patch), now);
    }

    /** `delete`: true iff an entry had that id. */
    method Delete(id: string) returns (deleted: bool)
      modifies store
      ensures store.watched == RemoveWatched(old(store.watched), id)
      ensures deleted <==> exists i :: 0 <= i < |old(store.watched)| && old(store.watched)[i].id == id
      ensures store.settings == old(store.settings) && store.runs == old(store.runs) && store.runOrder == old(store.runOrder)
      ensures store.proposalRows == old(store.proposalRows) && store.fileRecords == old(store.fileRecords)
      ensures store.executions == old(store.executions)
    {
      deleted := store.DeleteWatchedPath(id);
    }
  }
}
