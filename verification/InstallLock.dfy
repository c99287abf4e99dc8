/** The install-level advisory lock: one open handle holds it at a time. */
module InstallLock {
  import opened UpgradeTask

  /** The lock file, with the handle whose flock it carries. */
  class LockFile {
    var holder: Handle?

    constructor ()
      ensures holder == null
    {
      holder := null;
    }
  }

  /** What TryLock hands out; file is cleared when the handle is released. */
  class Handle {
    var file: LockFile?

    constructor (file: LockFile)
      ensures this.file == file
    {
      this.file := file;
    }
  }

  ghost predicate Holds(h: Handle, f: LockFile)
    reads h, f
  {
    h.file == f && f.holder == h
  }

  datatype Outcome = Locked(handle: Handle) | Busy | Broken

  /** Never waits: the lock is taken exactly when the file opens and nobody holds it. */
  method TryLock(f: LockFile, opens: bool) returns (r: Outcome)
    modifies f
    ensures r.Locked? <==> opens && old(f.holder) == null
    ensures r.Busy? <==> opens && old(f.holder) != null
    ensures r.Locked? ==> fresh(r.handle) && Holds(r.handle, f)
    ensures !r.Locked? ==> f.holder == old(f.holder)
  {
    if !opens {
      return Broken;
    }
    if f.holder != null {
      return Busy;
    }
    var h := new Handle(f);
    f.holder := h;
    return Locked(h);
  }

  /** Drops the lock of a live handle. Releasing no handle, or one released before, changes nothing,
      so a late second release never takes the lock from a later holder. */
  method Release(h: Handle?)
    requires h != null && h.file != null ==> h.file.holder == h
    modifies h, if h != null then {h.file} else {}
    ensures h != null ==> h.file == null
    ensures h != null && old(h.file) != null ==> old(h.file).holder == null
  {
    if h == null || h.file == null {
      return;
    }
    h.file.holder := null;
    h.file := null;
  }
}
