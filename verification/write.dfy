/** `os::write` on a Windows descriptor (os/windows/write.hpp). The bytes written are not modelled. */
module Write {
  import opened WinApi
  import opened Fd

  /**
   * `os::write`: `_write` on the CRT descriptor for both CRT-backed kinds, `send`
   * with flags 0 for a socket; the call's return value is passed back unchanged.
   * The size bound `INT_MAX` keeps the size intact in both the `unsigned int`
   * and the `int` length parameters.
   */
  function Write(fd: WindowsFD, size: Uint64, os: Os): (r: Run<int>)
    requires size <= INT_MAX
    ensures !fd.FdSocket? ==> r.calls == [CrtWrite(fd.AsInt(), size)]
    ensures fd.FdSocket? ==> r.calls == [Send(fd.AsSocket(), size, 0)]
    ensures |r.calls| == 1 && r.value == os.answer(r.calls[0]).ret
  {
    match fd
    case FdCrt(f) => Run(os.answer(CrtWrite(f.crt, size)).ret, [CrtWrite(f.crt, size)])
    case FdHandle(f) => Run(os.answer(CrtWrite(f.crt, size)).ret, [CrtWrite(f.crt, size)])
    case FdSocket(f) => Run(os.answer(Send(f.socket, ToInt32(size), 0)).ret, [Send(f.socket, ToInt32(size), 0)])
  }

  /** The two CRT-backed kinds write alike: only the CRT descriptor is used. */
  lemma WriteIgnoresHandleField(crt: Int32, h1: Handle, h2: Handle, size: Uint64, os: Os)
    requires size <= INT_MAX
    ensures Write(FdCrt(IntFD(crt, h1)), size, os) == Write(FdHandle(HandleFD(crt, h2)), size, os)
  {
  }
}
