/** `os::read` on a Windows descriptor (os/windows/read.hpp). The bytes read into the buffer are not modelled. */
module Read {
  import opened WinApi
  import opened Fd

  /**
   * `os::read`: `_read` on the CRT descriptor for both CRT-backed kinds, `recv`
   * with flags 0 for a socket; the call's return value is passed back unchanged.
   * The size is cast to `unsigned int`, and recv's `int` length parameter then
   * receives that value converted once more.
   */
  function Read(fd: WindowsFD, size: Uint64, os: Os): (r: Run<int>)
    requires size <= UINT_MAX
    ensures !fd.FdSocket? ==> r.calls == [CrtRead(fd.AsInt(), size)]
    ensures fd.FdSocket? ==> r.calls == [Recv(fd.AsSocket(), ToInt32(size), 0)]
    ensures |r.calls| == 1 && r.value == os.answer(r.calls[0]).ret
  {
    match fd
    case FdCrt(f) => Run(os.answer(CrtRead(f.crt, size)).ret, [CrtRead(f.crt, size)])
    case FdHandle(f) => Run(os.answer(CrtRead(f.crt, size)).ret, [CrtRead(f.crt, size)])
    case FdSocket(f) => Run(os.answer(Recv(f.socket, ToInt32(size), 0)).ret, [Recv(f.socket, ToInt32(size), 0)])
  }

  /** As written, a socket read of 2^31 bytes passes the size check and asks `recv` for a negative length. */
  lemma RecvLengthWraps(socket: Socket, os: Os)
    ensures Read(FdSocket(SocketFD(socket)), 0x8000_0000, os).calls == [Recv(socket, -0x8000_0000, 0)]
  {
  }

  /**
   * `os::read` with the bound recv's `int` length needs: sizes above `INT_MAX`
   * are refused for sockets, as `os::write` refuses them for every kind.
   */
  function ReadWithinRecvBound(fd: WindowsFD, size: Uint64, os: Os): (r: Run<int>)
    requires size <= UINT_MAX
    requires fd.FdSocket? ==> size <= INT_MAX
    ensures !fd.FdSocket? ==> r.calls == [CrtRead(fd.AsInt(), size)]
    ensures fd.FdSocket? ==> r.calls == [Recv(fd.AsSocket(), size, 0)]
    ensures |r.calls| == 1 && r.value == os.answer(r.calls[0]).ret
  {
    Read(fd, size, os)
  }

  /** The two CRT-backed kinds read alike: only the CRT descriptor is used. */
  lemma ReadIgnoresHandleField(crt: Int32, h1: Handle, h2: Handle, size: Uint64, os: Os)
    requires size <= UINT_MAX
    ensures Read(FdCrt(IntFD(crt, h1)), size, os) == Read(FdHandle(HandleFD(crt, h2)), size, os)
  {
  }
}
