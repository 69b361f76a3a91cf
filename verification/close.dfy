/** `os::close` on a Windows descriptor (os/windows/close.hpp). */
module Close {
  import opened Wrappers
  import opened WinApi
  import opened Fd

  /** A `shutdown` reply that makes `close` give up: a failure other than "not connected". */
  predicate ShutdownRejected(reply: Reply) {
    reply.ret == SOCKET_ERROR && reply.lastError != WSAENOTCONN
  }

  /**
   * Both CRT-backed kinds are closed with `_close` on their descriptor only
   * (which also releases the handle); a socket is shut down in both directions,
   * then closed, and a "not connected" shutdown failure is not an error.
   */
  function Close(fd: WindowsFD, os: Os): (r: Run<Result<Nothing, Error>>)
    ensures !fd.FdSocket? ==> r.calls == [CrtClose(fd.AsInt())]
    ensures !fd.FdSocket? ==> (r.value.Err? <==> os.answer(CrtClose(fd.AsInt())).ret < 0)
    ensures !fd.FdSocket? && r.value.Err? ==>
              r.value.error == ErrnoError(os.answer(CrtClose(fd.AsInt())).lastError)
    ensures fd.FdSocket? && ShutdownRejected(os.answer(Shutdown(fd.AsSocket(), SD_BOTH))) ==>
              r == Run(Err(WindowsSocketError("Failed to shutdown a socket",
                                              os.answer(Shutdown(fd.AsSocket(), SD_BOTH)).lastError)),
                       [Shutdown(fd.AsSocket(), SD_BOTH)])
    ensures fd.FdSocket? && !ShutdownRejected(os.answer(Shutdown(fd.AsSocket(), SD_BOTH))) ==>
              r.calls == [Shutdown(fd.AsSocket(), SD_BOTH), CloseSocket(fd.AsSocket())]
    ensures fd.FdSocket? && !ShutdownRejected(os.answer(Shutdown(fd.AsSocket(), SD_BOTH))) ==>
              (r.value.Ok? <==> os.answer(CloseSocket(fd.AsSocket())).ret != SOCKET_ERROR)
    ensures fd.FdSocket? && r.value.Err? && !ShutdownRejected(os.answer(Shutdown(fd.AsSocket(), SD_BOTH))) ==>
              r.value.error == WindowsSocketError("Failed to close a socket",
                                                  os.answer(CloseSocket(fd.AsSocket())).lastError)
  {
    match fd
    case FdCrt(f) =>
      var reply := os.answer(CrtClose(f.crt));
      Run(if reply.ret < 0 then Err(ErrnoError(reply.lastError)) else Ok(Nothing), [CrtClose(f.crt)])
    case FdHandle(f) =>
      var reply := os.answer(CrtClose(f.crt));
      Run(if reply.ret < 0 then Err(ErrnoError(reply.lastError)) else Ok(Nothing), [CrtClose(f.crt)])
    case FdSocket(f) =>
      var shutdown := os.answer(Shutdown(f.socket, SD_BOTH));
      if ShutdownRejected(shutdown) then
        Run(Err(WindowsSocketError("Failed to shutdown a socket", shutdown.lastError)),
            [Shutdown(f.socket, SD_BOTH)])
      else
        var closed := os.answer(CloseSocket(f.socket));
        Run(if closed.ret == SOCKET_ERROR then Err(WindowsSocketError("Failed to close a socket", closed.lastError))
            else Ok(Nothing),
            [Shutdown(f.socket, SD_BOTH), CloseSocket(f.socket)])
  }

  /** The handle field plays no part in closing: a CRT and a HANDLE descriptor with the same CRT value close alike. */
  lemma CloseIgnoresHandleField(crt: Int32, h1: Handle, h2: Handle, os: Os)
    ensures Close(FdCrt(IntFD(crt, h1)), os) == Close(FdHandle(HandleFD(crt, h2)), os)
  {
  }

  /**
   * A shutdown that fails with `WSAENOTCONN` is treated exactly like a shutdown
   * that succeeds: `os2` differs from `os` only in answering the shutdown with success.
   */
  lemma CloseIgnoresNotConnected(socket: Socket, os: Os, os2: Os)
    requires os.answer(Shutdown(socket, SD_BOTH)) == Reply(SOCKET_ERROR, os.answer(Shutdown(socket, SD_BOTH)).out, WSAENOTCONN)
    requires os2.answer(Shutdown(socket, SD_BOTH)).ret == 0
    requires os2.answer(CloseSocket(socket)) == os.answer(CloseSocket(socket))
    ensures Close(FdSocket(SocketFD(socket)), os) == Close(FdSocket(SocketFD(socket)), os2)
  {
  }
}
