// The part of the filesystem the daemon's execution and rollback touch:
// which paths hold a file, and what each holds (a content identity, so that a
// move can be seen to carry the same file). Directories are not modelled:
// `mkdir -p` of a target's directory always succeeds here.
module Disk {
  /** The files after `rename(from, to)`: `to` holds what `from` held, and
      `from` is gone (an existing `to` is replaced, as POSIX `rename` does). */
  function Moved(files: map<string, nat>, from: string, to: string): map<string, nat>
    requires from in files
  {
    (files - {from})[to := files[from]]
  }

  /** `rename` fails when the source is missing or the target path is empty. */
  predicate CanRename(files: map<string, nat>, from: string, to: string)
  {
    from in files && to != ""
  }

  class FileSystem {
    var files: map<string, nat>

    constructor (initial: map<string, nat>)
      ensures files == initial
    {
      files := initial;
    }

    /** `fs.access`: the path exists. */
    function Exists(p: string): bool
      reads this
    {
      p in files
    }

    /** `fs.rename`; `ok` is false where the call throws. */
    method Rename(from: string, to: string) returns (ok: bool)
      modifies this
      ensures ok <==> CanRename(old(files), from, to)
      ensures ok ==> files == Moved(old(files), from, to)
      ensures !ok ==> files == old(files)
    {
      if from !in files || to == "" {
        return false;
      }
      files := Moved(files, from, to);
      return true;
    }
  }

  /** Moving a file to a free path and back restores the filesystem. */
  lemma MoveBackRestores(files: map<string, nat>, s: string, t: string)
    requires s in files && t !in files
    ensures Moved(Moved(files, s, t), t, s) == files
  {
  }

  /** A move to a free path neither creates nor loses a file. */
  lemma MoveKeepsCount(files: map<string, nat>, s: string, t: string)
    requires s in files && t !in files
    ensures |Moved(files, s, t)| == |files|
  {
    assert |files - {s}| == |files| - 1;
  }
}
