/** `os::dup` on a Windows descriptor (os/windows/dup.hpp). */
module Dup {
  import opened Wrappers
  import opened WinApi
  import opened Fd

  /** The `DuplicateHandle` call for a CRT or HANDLE descriptor: within the current process, inheritable, same access. */
  function DuplicateCall(fd: WindowsFD, os: Os): Call {
    DuplicateHandle(os.currentProcess, fd.AsHandle(), os.currentProcess, 0, TRUE, DUPLICATE_SAME_ACCESS)
  }

  /** The `WSASocketW` call that rebuilds a socket from the protocol information `WSADuplicateSocketW` filled in. */
  function SocketCall(fd: WindowsFD, os: Os): Call
    requires fd.FdSocket?
  {
    WSASocketW(0, 0, 0, os.answer(WSADuplicateSocketW(fd.AsSocket(), os.currentProcessId)).out, 0, 0)
  }

  /**
   * A CRT or HANDLE descriptor is duplicated with `DuplicateHandle`, and the new
   * handle is wrapped as a HANDLE descriptor (whose construction may abort);
   * a socket is duplicated with `WSADuplicateSocketW` and `WSASocketW`.
   */
  function Dup(fd: WindowsFD, os: Os): (r: Run<Exit<Result<WindowsFD, Error>>>)
    ensures !fd.FdSocket? ==> |r.calls| >= 1 && r.calls[0] == DuplicateCall(fd, os)
    ensures !fd.FdSocket? && os.answer(DuplicateCall(fd, os)).ret == 0 ==>
              r == Run(Return(Err(WindowsError("Failed to duplicate handle of stdin file",
                                               os.answer(DuplicateCall(fd, os)).lastError))),
                       [DuplicateCall(fd, os)])
    ensures !fd.FdSocket? && os.answer(DuplicateCall(fd, os)).ret != 0 ==>
              var made := HandleFDFromHandle(ToUint64(os.answer(DuplicateCall(fd, os)).out), os);
              && r.calls == [DuplicateCall(fd, os)] + made.calls
              && (r.value.Abort? <==> made.value.Abort?)
              && (r.value.Return? ==> r.value.value == Ok(FdHandle(made.value.value)))
    ensures fd.FdSocket? ==> r.value.Return?
    ensures fd.FdSocket? ==> |r.calls| >= 1 && r.calls[0] == WSADuplicateSocketW(fd.AsSocket(), os.currentProcessId)
    ensures fd.FdSocket? && os.answer(WSADuplicateSocketW(fd.AsSocket(), os.currentProcessId)).ret != 0 ==>
              r == Run(Return(Err(SocketError(os.answer(WSADuplicateSocketW(fd.AsSocket(), os.currentProcessId)).lastError))),
                       [WSADuplicateSocketW(fd.AsSocket(), os.currentProcessId)])
    ensures fd.FdSocket? && os.answer(WSADuplicateSocketW(fd.AsSocket(), os.currentProcessId)).ret == 0 ==>
              r == Run(Return(Ok(FdSocket(SocketFD(ToUint64(os.answer(SocketCall(fd, os)).ret))))),
                       [WSADuplicateSocketW(fd.AsSocket(), os.currentProcessId), SocketCall(fd, os)])
    ensures r.value.Return? && r.value.value.Ok? ==> (r.value.value.value.FdSocket? <==> fd.FdSocket?)
  {
    match fd
    case FdCrt(_) | FdHandle(_) =>
      var call := DuplicateCall(fd, os);
      var reply := os.answer(call);
      if reply.ret == 0 then
        Run(Return(Err(WindowsError("Failed to duplicate handle of stdin file", reply.lastError))), [call])
      else
        var made := HandleFDFromHandle(ToUint64(reply.out), os);
        Run(match made.value
            case Return(h) => Return(Ok(FdHandle(h)))
            case Abort => Abort,
            [call] + made.calls)
    case FdSocket(f) =>
      var call := WSADuplicateSocketW(f.socket, os.currentProcessId);
      var reply := os.answer(call);
      if reply.ret != 0 then
        Run(Return(Err(SocketError(reply.lastError))), [call])
      else
        Run(Return(Ok(FdSocket(SocketFD(ToUint64(os.answer(SocketCall(fd, os)).ret))))), [call, SocketCall(fd, os)])
  }

  /** A successful duplicate of a CRT or HANDLE descriptor is a consistent HANDLE descriptor holding the new handle. */
  lemma DupHandleResult(fd: WindowsFD, os: Os)
    requires !fd.FdSocket?
    requires Dup(fd, os).value.Return? && Dup(fd, os).value.value.Ok?
    ensures Dup(fd, os).value.value.value.FdHandle?
    ensures Dup(fd, os).value.value.value.Consistent()
    ensures Dup(fd, os).value.value.value.AsHandle() == ToUint64(os.answer(DuplicateCall(fd, os)).out)
  {
  }

  /**
   * As written, a `WSASocketW` failure (`INVALID_SOCKET`) after a successful
   * `WSADuplicateSocketW` is reported as a successful duplicate holding an invalid socket.
   */
  lemma DupReturnsInvalidSocket(socket: Socket, os: Os)
    requires os.answer(WSADuplicateSocketW(socket, os.currentProcessId)).ret == 0
    requires os.answer(SocketCall(FdSocket(SocketFD(socket)), os)).ret == INVALID_SOCKET
    ensures Dup(FdSocket(SocketFD(socket)), os).value == Return(Ok(FdSocket(SocketFD(INVALID_SOCKET))))
    ensures !Dup(FdSocket(SocketFD(socket)), os).value.value.value.IsValid()
  {
  }

  /** `Dup` with the missing check: a `WSASocketW` result of `INVALID_SOCKET` is an error. */
  function DupCheckingSocket(fd: WindowsFD, os: Os): (r: Run<Exit<Result<WindowsFD, Error>>>)
    ensures fd.FdSocket? ==> r.value.Return?
    ensures fd.FdSocket? && os.answer(WSADuplicateSocketW(fd.AsSocket(), os.currentProcessId)).ret == 0 &&
            !IsValidSocket(ToUint64(os.answer(SocketCall(fd, os)).ret)) ==>
              r.value == Return(Err(SocketError(os.answer(SocketCall(fd, os)).lastError)))
    ensures fd.FdSocket? && r.value.Return? && r.value.value.Ok? ==> r.value.value.value.IsValid()
    ensures fd.FdSocket? ==> r.calls == Dup(fd, os).calls
    ensures fd.FdSocket? && r.value.Return? && r.value.value.Ok? ==> r == Dup(fd, os)
    ensures fd.FdSocket? && os.answer(WSADuplicateSocketW(fd.AsSocket(), os.currentProcessId)).ret != 0 ==> r == Dup(fd, os)
    ensures !fd.FdSocket? ==> r == Dup(fd, os)
  {
    match fd
    case FdCrt(_) | FdHandle(_) => Dup(fd, os)
    case FdSocket(f) =>
      var call := WSADuplicateSocketW(f.socket, os.currentProcessId);
      var reply := os.answer(call);
      if reply.ret != 0 then
        Run(Return(Err(SocketError(reply.lastError))), [call])
      else
        var socket := ToUint64(os.answer(SocketCall(fd, os)).ret);
        if !IsValidSocket(socket) then
          Run(Return(Err(SocketError(os.answer(SocketCall(fd, os)).lastError))), [call, SocketCall(fd, os)])
        else
          Run(Return(Ok(FdSocket(SocketFD(socket)))), [call, SocketCall(fd, os)])
  }

  /**
   * The corrected duplicate differs from the original only where `WSASocketW`
   * was called and returned `INVALID_SOCKET`.
   */
  lemma DupCheckingSocketAgrees(fd: WindowsFD, os: Os)
    requires fd.FdSocket? && os.answer(WSADuplicateSocketW(fd.AsSocket(), os.currentProcessId)).ret == 0 ==>
               IsValidSocket(ToUint64(os.answer(SocketCall(fd, os)).ret))
    ensures DupCheckingSocket(fd, os) == Dup(fd, os)
  {
  }
}
