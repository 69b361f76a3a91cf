/** Inheritance and blocking-mode controls on a Windows descriptor (os/windows/fcntl.hpp). */
module Fcntl {
  import opened Wrappers
  import opened WinApi
  import opened Fd

  /** `HANDLE_FLAG_PROTECT_FROM_CLOSE`, the other flag `GetHandleInformation` reports. */
  const HANDLE_FLAG_PROTECT_FROM_CLOSE: int := 2

  /** `os::cloexec`: clear the inherit flag of the descriptor's handle. */
  function Cloexec(fd: WindowsFD, os: Os): (r: Run<Result<Nothing, Error>>)
    ensures r.calls == [SetHandleInformation(fd.AsHandle(), HANDLE_FLAG_INHERIT, 0)]
    ensures r.value.Ok? <==> os.answer(r.calls[0]).ret != 0
    ensures r.value.Err? ==> r.value.error == WindowsError("`os::cloexec` failed", os.answer(r.calls[0]).lastError)
  {
    var call := SetHandleInformation(fd.AsHandle(), HANDLE_FLAG_INHERIT, 0);
    var reply := os.answer(call);
    Run(if reply.ret != 0 then Ok(Nothing) else Err(WindowsError("`os::cloexec` failed", reply.lastError)), [call])
  }

  /** `os::unsetCloexec`: set the inherit flag of the descriptor's handle. */
  function UnsetCloexec(fd: WindowsFD, os: Os): (r: Run<Result<Nothing, Error>>)
    ensures r.calls == [SetHandleInformation(fd.AsHandle(), HANDLE_FLAG_INHERIT, HANDLE_FLAG_INHERIT)]
    ensures r.value.Ok? <==> os.answer(r.calls[0]).ret != 0
    ensures r.value.Err? ==>
              r.value.error == WindowsError("`os::unsetCloexec` failed for CRT or HANDLE", os.answer(r.calls[0]).lastError)
  {
    var call := SetHandleInformation(fd.AsHandle(), HANDLE_FLAG_INHERIT, HANDLE_FLAG_INHERIT);
    var reply := os.answer(call);
    Run(if reply.ret != 0 then Ok(Nothing)
        else Err(WindowsError("`os::unsetCloexec` failed for CRT or HANDLE", reply.lastError)),
        [call])
  }

  /** The handle flags `GetHandleInformation` stored, as a `DWORD`. */
  function HandleFlags(fd: WindowsFD, os: Os): Uint32 {
    ToUint32(os.answer(GetHandleInformation(fd.AsHandle())).out)
  }

  /**
   * `os::isCloexec`: close-on-exec unless the handle flags are exactly
   * `HANDLE_FLAG_INHERIT` (an equality, not a test of the inherit bit).
   */
  function IsCloexec(fd: WindowsFD, os: Os): (r: Run<Result<bool, Error>>)
    ensures r.calls == [GetHandleInformation(fd.AsHandle())]
    ensures r.value.Ok? <==> os.answer(r.calls[0]).ret != 0
    ensures r.value.Ok? ==> (r.value.value <==> HandleFlags(fd, os) != HANDLE_FLAG_INHERIT)
    ensures r.value.Err? ==> r.value.error == WindowsError("`os::isCloexec` failed", os.answer(r.calls[0]).lastError)
  {
    var call := GetHandleInformation(fd.AsHandle());
    var reply := os.answer(call);
    Run(if reply.ret != 0 then Ok(HandleFlags(fd, os) != HANDLE_FLAG_INHERIT)
        else Err(WindowsError("`os::isCloexec` failed", reply.lastError)),
        [call])
  }

  /**
   * As written, an inheritable handle that is also protected from closing
   * (flags `HANDLE_FLAG_INHERIT | HANDLE_FLAG_PROTECT_FROM_CLOSE`) is reported as close-on-exec.
   */
  lemma IsCloexecMissesInheritBit(fd: WindowsFD, os: Os)
    requires os.answer(GetHandleInformation(fd.AsHandle())).ret != 0
    requires os.answer(GetHandleInformation(fd.AsHandle())).out == HANDLE_FLAG_INHERIT + HANDLE_FLAG_PROTECT_FROM_CLOSE
    ensures IsCloexec(fd, os).value == Ok(true)
  {
  }

  /** Whether the inherit bit is clear in a set of handle flags. */
  predicate InheritBitClear(flags: Uint32) {
    (flags as bv32) & (HANDLE_FLAG_INHERIT as bv32) == 0
  }

  /** `os::isCloexec` as evidently intended: close-on-exec exactly when the inherit bit is clear. */
  function IsCloexecByBit(fd: WindowsFD, os: Os): (r: Run<Result<bool, Error>>)
    ensures r.calls == IsCloexec(fd, os).calls
    ensures r.value.Ok? <==> IsCloexec(fd, os).value.Ok?
    ensures r.value.Err? ==> r == IsCloexec(fd, os)
    ensures r.value.Ok? ==> (r.value.value <==> InheritBitClear(HandleFlags(fd, os)))
  {
    var call := GetHandleInformation(fd.AsHandle());
    var reply := os.answer(call);
    Run(if reply.ret != 0 then Ok(InheritBitClear(HandleFlags(fd, os)))
        else Err(WindowsError("`os::isCloexec` failed", reply.lastError)),
        [call])
  }

  /** With the inherit and protect flags both set, the bit test reports an inheritable handle. */
  lemma IsCloexecByBitSeesInheritBit(fd: WindowsFD, os: Os)
    requires os.answer(GetHandleInformation(fd.AsHandle())).ret != 0
    requires os.answer(GetHandleInformation(fd.AsHandle())).out == HANDLE_FLAG_INHERIT + HANDLE_FLAG_PROTECT_FROM_CLOSE
    ensures IsCloexecByBit(fd, os).value == Ok(false)
  {
  }

  /**
   * The two readings differ exactly when `GetHandleInformation` succeeds and the
   * flags have the inherit bit set together with some other flag.
   */
  lemma IsCloexecByBitAgrees(fd: WindowsFD, os: Os)
    ensures IsCloexecByBit(fd, os) != IsCloexec(fd, os) <==>
              && os.answer(GetHandleInformation(fd.AsHandle())).ret != 0
              && !InheritBitClear(HandleFlags(fd, os))
              && HandleFlags(fd, os) != HANDLE_FLAG_INHERIT
  {
  }

  /** `os::nonblock`: nothing to do for CRT and HANDLE descriptors; `ioctlsocket(FIONBIO, 1)` for a socket. */
  function Nonblock(fd: WindowsFD, os: Os): (r: Run<Result<Nothing, Error>>)
    ensures !fd.FdSocket? ==> r == Run(Ok(Nothing), [])
    ensures fd.FdSocket? ==> r.calls == [IoctlSocket(fd.AsSocket(), FIONBIO, 1)]
    ensures fd.FdSocket? ==> (r.value.Ok? <==> os.answer(IoctlSocket(fd.AsSocket(), FIONBIO, 1)).ret == NO_ERROR)
    ensures fd.FdSocket? && r.value.Err? ==>
              r.value.error == WindowsSocketError("", os.answer(IoctlSocket(fd.AsSocket(), FIONBIO, 1)).lastError)
  {
    match fd
    case FdCrt(_) | FdHandle(_) => Run(Ok(Nothing), [])
    case FdSocket(f) =>
      var call := IoctlSocket(f.socket, FIONBIO, 1);
      var reply := os.answer(call);
      Run(if reply.ret != NO_ERROR then Err(WindowsSocketError("", reply.lastError)) else Ok(Nothing), [call])
  }

  /** `os::isNonblock`: a stub that reports non-blocking for every descriptor. */
  function IsNonblock(fd: WindowsFD): (r: Result<bool, Error>)
    ensures r == Ok(true)
  {
    Ok(true)
  }
}
