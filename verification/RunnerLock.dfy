/** The non-blocking exclusive lock of a runner pass (src/voxera/automation/lock.py). */
module RunnerLock {
  import opened Wrappers

  /** The lock file as the kernel sees it: at most one open descriptor holds the exclusive lock. */
  class LockFile {
    var holder: Option<nat>
    var descriptors: nat

    constructor ()
      ensures holder == None && descriptors == 0
    {
      holder, descriptors := None, 0;
    }

    ghost predicate Valid()
      reads this
    {
      holder.Some? ==> holder.value < descriptors
    }

    method Open() returns (fd: nat)
      requires Valid()
      modifies this
      ensures Valid() && holder == old(holder)
      ensures fd == old(descriptors) && descriptors == fd + 1
    {
      fd := descriptors;
      descriptors := descriptors + 1;
    }
  }

  class LockResult {
    const acquired: bool
    var fd: Option<nat>

    constructor (acquired: bool, fd: Option<nat>)
      ensures this.acquired == acquired && this.fd == fd
    {
      this.acquired, this.fd := acquired, fd;
    }
  }

  /** The lock is obtained exactly when nobody holds it; otherwise it stays with its holder. */
  method AcquireRunnerLock(file: LockFile) returns (result: LockResult)
    requires file.Valid()
    modifies file
    ensures file.Valid() && fresh(result)
    ensures result.acquired <==> old(file.holder).None?
    ensures result.acquired ==> result.fd.Some? && file.holder == result.fd
    ensures !result.acquired ==> result.fd.None? && file.holder == old(file.holder)
  {
    var fd := file.Open();
    if file.holder.Some? {
      result := new LockResult(false, None);
      return;
    }
    file.holder := Some(fd);
    result := new LockResult(true, Some(fd));
  }

  /** Releasing gives up the caller's own lock only, however often it is called. */
  method ReleaseRunnerLock(file: LockFile, result: LockResult)
    requires file.Valid()
    modifies file, result
    ensures file.Valid() && result.fd.None?
    ensures file.holder == if old(result.fd).Some? && old(file.holder) == old(result.fd) then None else old(file.holder)
  {
    if result.fd.Some? {
      if file.holder == result.fd {
        file.holder := None;
      }
      result.fd := None;
    }
  }

  /** A second release does not free a lock that another pass has taken in between. */
  method ReleaseIsIdempotent(file: LockFile)
    requires file.Valid() && file.holder.None?
    modifies file
    ensures file.Valid() && file.holder.Some?
  {
    var first := AcquireRunnerLock(file);
    ReleaseRunnerLock(file, first);
    var second := AcquireRunnerLock(file);
    ReleaseRunnerLock(file, first);
    assert second.acquired && file.holder == second.fd;
  }
}
