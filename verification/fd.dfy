/**
 * stout's Windows descriptor: a closed sum of a CRT descriptor (`IntFD`), a
 * kernel `HANDLE` (`HandleFD`) and a Winsock `SOCKET` (`SocketFD`).
 * The two non-socket kinds carry both representations, derived once at
 * construction and checked to agree in validity.
 */
module Fd {
  import opened WinApi

  /** A CRT descriptor is valid when it is not negative. */
  predicate IsValidCrt(crt: int) {
    crt >= 0
  }

  /** A `HANDLE` is valid when it is neither null nor `INVALID_HANDLE_VALUE`. */
  predicate IsValidHandle(handle: Handle) {
    handle != NULL_HANDLE && handle != INVALID_HANDLE_VALUE
  }

  /** A `SOCKET` is valid when it is not `INVALID_SOCKET`. */
  predicate IsValidSocket(socket: Socket) {
    socket != INVALID_SOCKET
  }

  /** A CRT descriptor and the `HANDLE` derived from it. */
  datatype IntFD = IntFD(crt: Int32, handle: Handle) {
    /** What the constructor's `CHECK` establishes. */
    predicate Consistent() {
      IsValidCrt(crt) == IsValidHandle(handle)
    }
  }

  /** A `HANDLE` and the CRT descriptor opened over it. */
  datatype HandleFD = HandleFD(crt: Int32, handle: Handle) {
    /** What the constructor's `CHECK` establishes. */
    predicate Consistent() {
      IsValidCrt(crt) == IsValidHandle(handle)
    }
  }

  /** A Winsock socket. */
  datatype SocketFD = SocketFD(socket: Socket) {

    /** `operator int`: `-1` for an invalid socket, else the socket cut to an `int`. */
    function AsInt(): (r: Int32)
      ensures !IsValidSocket(socket) ==> r == -1
      ensures IsValidSocket(socket) && socket <= INT_MAX ==> r == socket
      ensures IsValidSocket(socket) ==> (socket - r) % TWO_32 == 0
    {
      if IsValidSocket(socket) then ToInt32(socket) else -1
    }

    /** `operator intptr_t`: the socket's bits as a signed pointer-sized integer. */
    function AsIntPtr(): (r: IntPtr)
      ensures ToUint64(r) == socket
    {
      UintPtrRoundTrip(socket);
      ToIntPtr(socket)
    }
  }

  /** `SocketFD(intptr_t)`: the value is converted to `SOCKET`. */
  function SocketFDFromIntPtr(p: IntPtr): (r: SocketFD)
    ensures r.AsIntPtr() == p
  {
    IntPtrRoundTrip(p);
    SocketFD(ToUint64(p))
  }

  /**
   * `IntFD(crt)`: the handle comes from `_get_osfhandle` when `crt` is valid,
   * and is `INVALID_HANDLE_VALUE` otherwise; the process aborts when the two
   * disagree in validity.
   */
  function IntFDFromCrt(crt: Int32, os: Os): (r: Run<Exit<IntFD>>)
    ensures !IsValidCrt(crt) ==> r == Run(Return(IntFD(crt, INVALID_HANDLE_VALUE)), [])
    ensures IsValidCrt(crt) ==> r.calls == [GetOsfHandle(crt)]
    ensures r.value.Return? <==>
              (IsValidCrt(crt) ==> IsValidHandle(ToUint64(os.answer(GetOsfHandle(crt)).ret)))
    ensures r.value.Return? ==> r.value.value.crt == crt && r.value.value.Consistent()
    ensures r.value.Return? && IsValidCrt(crt) ==>
              r.value.value.handle == ToUint64(os.answer(GetOsfHandle(crt)).ret)
  {
    var calls := if IsValidCrt(crt) then [GetOsfHandle(crt)] else [];
    var handle := if IsValidCrt(crt) then ToUint64(os.answer(GetOsfHandle(crt)).ret)
                  else INVALID_HANDLE_VALUE;
    if IsValidCrt(crt) == IsValidHandle(handle) then Run(Return(IntFD(crt, handle)), calls)
    else Run(Abort, calls)
  }

  /**
   * `HandleFD(handle)`: the descriptor comes from `_open_osfhandle(handle, O_RDWR)`
   * when `handle` is valid, and is `-1` otherwise; the process aborts when the two
   * disagree in validity.
   */
  function HandleFDFromHandle(handle: Handle, os: Os): (r: Run<Exit<HandleFD>>)
    ensures !IsValidHandle(handle) ==> r == Run(Return(HandleFD(-1, handle)), [])
    ensures IsValidHandle(handle) ==> r.calls == [OpenOsfHandle(ToIntPtr(handle), O_RDWR)]
    ensures r.value.Return? <==>
              (IsValidHandle(handle) ==>
                 IsValidCrt(ToInt32(os.answer(OpenOsfHandle(ToIntPtr(handle), O_RDWR)).ret)))
    ensures r.value.Return? ==> r.value.value.handle == handle && r.value.value.Consistent()
    ensures r.value.Return? && IsValidHandle(handle) ==>
              r.value.value.crt == ToInt32(os.answer(OpenOsfHandle(ToIntPtr(handle), O_RDWR)).ret)
  {
    var call := OpenOsfHandle(ToIntPtr(handle), O_RDWR);
    var calls := if IsValidHandle(handle) then [call] else [];
    var crt := if IsValidHandle(handle) then ToInt32(os.answer(call).ret) else -1;
    if IsValidCrt(crt) == IsValidHandle(handle) then Run(Return(HandleFD(crt, handle)), calls)
    else Run(Abort, calls)
  }

  /** `WindowsFD`: exactly one of the three kinds. */
  datatype WindowsFD =
    | FdCrt(intFd: IntFD)
    | FdHandle(handleFd: HandleFD)
    | FdSocket(socketFd: SocketFD)
  {
    /** The construction invariant of the active alternative. */
    predicate Consistent() {
      match this
      case FdCrt(fd) => fd.Consistent()
      case FdHandle(fd) => fd.Consistent()
      case FdSocket(_) => true
    }

    /** Whether the native value the alternative was built from is valid. */
    predicate IsValid() {
      match this
      case FdCrt(fd) => IsValidCrt(fd.crt)
      case FdHandle(fd) => IsValidHandle(fd.handle)
      case FdSocket(fd) => IsValidSocket(fd.socket)
    }

    /** `operator int`, delegated to the active alternative. */
    function AsInt(): (r: Int32)
      ensures Consistent() && !FdSocket? ==> (IsValidCrt(r) <==> IsValid())
      ensures FdSocket? && !IsValid() ==> r == -1
      ensures FdSocket? && IsValid() && socketFd.socket <= INT_MAX ==> r == socketFd.socket
    {
      match this
      case FdCrt(fd) => fd.crt
      case FdHandle(fd) => fd.crt
      case FdSocket(fd) => fd.AsInt()
    }

    /** `operator HANDLE`, delegated to the active alternative (a socket's bits for a socket). */
    function AsHandle(): (r: Handle)
      ensures Consistent() && !FdSocket? ==> (IsValidHandle(r) <==> IsValid())
      ensures FdSocket? ==> r == socketFd.socket
    {
      match this
      case FdCrt(fd) => fd.handle
      case FdHandle(fd) => fd.handle
      case FdSocket(fd) => fd.socket
    }

    /** `operator SOCKET`: only for the socket kind (`boost::get` otherwise fails). */
    function AsSocket(): (r: Socket)
      requires FdSocket?
      ensures IsValidSocket(r) <==> IsValid()
    {
      socketFd.socket
    }

    /** `operator intptr_t`: only for the socket kind. */
    function AsIntPtr(): (r: IntPtr)
      requires FdSocket?
      ensures ToUint64(r) == AsSocket()
    {
      socketFd.AsIntPtr()
    }
  }

  /** A descriptor built from a CRT descriptor projects back to that descriptor, and to the derived handle. */
  lemma IntFDRoundTrip(crt: Int32, os: Os)
    requires IntFDFromCrt(crt, os).value.Return?
    ensures FdCrt(IntFDFromCrt(crt, os).value.value).AsInt() == crt
    ensures FdCrt(IntFDFromCrt(crt, os).value.value).AsHandle() ==
              if IsValidCrt(crt) then ToUint64(os.answer(GetOsfHandle(crt)).ret) else INVALID_HANDLE_VALUE
  {
  }

  /** A descriptor built from a `HANDLE` projects back to that handle. */
  lemma HandleFDRoundTrip(handle: Handle, os: Os)
    requires HandleFDFromHandle(handle, os).value.Return?
    ensures FdHandle(HandleFDFromHandle(handle, os).value.value).AsHandle() == handle
    ensures IsValidHandle(handle) <==> IsValidCrt(FdHandle(HandleFDFromHandle(handle, os).value.value).AsInt())
  {
  }

  /** A socket descriptor projects back to its socket through every socket-capable projection. */
  lemma SocketFDRoundTrip(socket: Socket)
    ensures FdSocket(SocketFD(socket)).AsSocket() == socket
    ensures FdSocket(SocketFD(socket)).AsHandle() == socket
    ensures SocketFDFromIntPtr(FdSocket(SocketFD(socket)).AsIntPtr()) == SocketFD(socket)
  {
  }

  /**
   * Building a descriptor from an invalid native value never aborts, and its
   * `int` projection is negative: `-1` for the handle and socket kinds, the
   * given descriptor itself for the CRT kind.
   */
  lemma InvalidProjectsNegative(crt: Int32, handle: Handle, socket: Socket, os: Os)
    ensures !IsValidCrt(crt) ==>
              IntFDFromCrt(crt, os).value.Return? && FdCrt(IntFDFromCrt(crt, os).value.value).AsInt() == crt < 0
    ensures !IsValidHandle(handle) ==>
              HandleFDFromHandle(handle, os).value.Return? &&
              FdHandle(HandleFDFromHandle(handle, os).value.value).AsInt() == -1
    ensures !IsValidSocket(socket) ==> FdSocket(SocketFD(socket)).AsInt() == -1
  {
  }

  /**
   * The `int` projection of a socket keeps only its low 32 bits, so a valid
   * socket can project to the invalid sentinel `-1`.
   */
  lemma SocketIntProjectionCollides()
    ensures IsValidSocket(0xFFFF_FFFF) && SocketFD(0xFFFF_FFFF).AsInt() == -1
  {
  }
}
