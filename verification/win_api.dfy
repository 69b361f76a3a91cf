/**
 * The Windows, CRT and Winsock interface the descriptor code calls into.
 *
 * The operating system is not modelled: each call is a value of `Call`, and an
 * `Os` oracle answers it with a `Reply`. Operations return the calls they issue,
 * in order, next to their result, so that which calls are made (and with which
 * arguments) can be stated and proved.
 */
module WinApi {

  const TWO_32: int := 0x1_0000_0000
  const TWO_64: int := 0x1_0000_0000_0000_0000

  /** An unsigned 64-bit value: `size_t`, and the bits of a `HANDLE` or `SOCKET` on 64-bit Windows. */
  type Uint64 = x: int | 0 <= x < 0x1_0000_0000_0000_0000

  /** `HANDLE` (a pointer), as its bits. */
  type Handle = Uint64

  /** `SOCKET` (`UINT_PTR`). */
  type Socket = Uint64

  /** `DWORD`. */
  type Uint32 = x: int | 0 <= x < 0x1_0000_0000

  /** `int` (also the CRT descriptor type). */
  type Int32 = x: int | -0x8000_0000 <= x < 0x8000_0000

  /** `intptr_t`. */
  type IntPtr = x: int | -0x8000_0000_0000_0000 <= x < 0x8000_0000_0000_0000

  const NULL_HANDLE: Handle := 0
  /** `INVALID_HANDLE_VALUE`, that is `(HANDLE)(LONG_PTR)-1`. */
  const INVALID_HANDLE_VALUE: Handle := 0xFFFF_FFFF_FFFF_FFFF
  /** `INVALID_SOCKET`, that is `(SOCKET)(~0)`. */
  const INVALID_SOCKET: Socket := 0xFFFF_FFFF_FFFF_FFFF

  const INT_MAX: int := 0x7FFF_FFFF
  const UINT_MAX: int := 0xFFFF_FFFF

  const TRUE: int := 1
  const NO_ERROR: int := 0
  const SOCKET_ERROR: int := -1
  const WSAENOTCONN: int := 10057
  const SD_BOTH: int := 2
  const DUPLICATE_SAME_ACCESS: int := 2
  const HANDLE_FLAG_INHERIT: int := 1
  /** `FIONBIO`, `_IOW('f', 126, u_long)` = 0x8004667E, as the `long` command argument. */
  const FIONBIO: Int32 := -0x7FFB_9982
  /** `O_RDWR`, that is `_O_RDWR`. */
  const O_RDWR: int := 2

  /** A C++ conversion of an integer to an unsigned 64-bit type: reduction modulo 2^64. */
  function ToUint64(x: int): (r: Uint64)
    ensures 0 <= x < TWO_64 ==> r == x
    ensures (x - r) % TWO_64 == 0
  {
    x % TWO_64
  }

  /** A C++ conversion of an integer to `DWORD`: reduction modulo 2^32. */
  function ToUint32(x: int): (r: Uint32)
    ensures 0 <= x < TWO_32 ==> r == x
    ensures (x - r) % TWO_32 == 0
  {
    x % TWO_32
  }

  /** A C++ conversion of an integer to `int`: the low 32 bits, read as two's complement. */
  function ToInt32(x: int): (r: Int32)
    ensures -0x8000_0000 <= x < 0x8000_0000 ==> r == x
    ensures (x - r) % TWO_32 == 0
  {
    var low := x % TWO_32;
    if low < 0x8000_0000 then low else low - TWO_32
  }

  /** A C++ conversion of an integer to `intptr_t`: the low 64 bits, read as two's complement. */
  function ToIntPtr(x: int): (r: IntPtr)
    ensures -0x8000_0000_0000_0000 <= x < 0x8000_0000_0000_0000 ==> r == x
    ensures (x - r) % TWO_64 == 0
  {
    var low := x % TWO_64;
    if low < 0x8000_0000_0000_0000 then low else low - TWO_64
  }

  /** Reading a `HANDLE` or `SOCKET` as `intptr_t` and back loses nothing. */
  lemma UintPtrRoundTrip(w: Uint64)
    ensures ToUint64(ToIntPtr(w)) == w
  {
  }

  /** Reading an `intptr_t` as `SOCKET` and back loses nothing. */
  lemma IntPtrRoundTrip(p: IntPtr)
    ensures ToIntPtr(ToUint64(p)) == p
  {
  }

  /** A WSAPROTOCOL_INFOW structure, filled in by WSADuplicateSocketW; opaque here. */
  type ProtocolInfo = int

  /** One call into Windows, the CRT or Winsock, with the arguments it is given. */
  datatype Call =
    | GetOsfHandle(crt: Int32)
    | OpenOsfHandle(osHandle: IntPtr, flags: int)
    | CrtClose(crt: Int32)
    | Shutdown(socket: Socket, how: int)
    | CloseSocket(socket: Socket)
    | DuplicateHandle(sourceProcess: Handle, source: Handle, targetProcess: Handle,
                      desiredAccess: int, inheritHandle: int, options: int)
    | WSADuplicateSocketW(socket: Socket, processId: int)
    | WSASocketW(af: int, sockType: int, protocol: int, info: ProtocolInfo, group: int, flags: int)
    | SetHandleInformation(handle: Handle, mask: int, flags: int)
    | GetHandleInformation(handle: Handle)
    | IoctlSocket(socket: Socket, command: int, argument: int)
    | CrtRead(crt: Int32, count: int)
    | Recv(socket: Socket, length: int, flags: int)
    | CrtWrite(crt: Int32, count: int)
    | Send(socket: Socket, length: int, flags: int)

  /**
   * What a call gives back: its return value, the value it stores through its
   * out-parameter (a duplicated handle, handle flags, protocol info), and the
   * error code (`errno`, `GetLastError()` or `WSAGetLastError()`) observed right after it.
   */
  datatype Reply = Reply(ret: int, out: int, lastError: int)

  /** The operating system as seen by the descriptor code. */
  datatype Os = Os(answer: Call -> Reply, currentProcess: Handle, currentProcessId: int)

  /** How the C++ code ends: it returns a value, or a `CHECK` fails and the process aborts. */
  datatype Exit<+T> = Return(value: T) | Abort

  /** A value together with the calls issued to compute it, in order. */
  datatype Run<+T> = Run(value: T, calls: seq<Call>)

  /** The error values stout builds from the operating system's error codes. */
  datatype Error =
    | ErrnoError(errno: int)
    | WindowsError(message: string, code: int)
    | WindowsSocketError(message: string, code: int)
    | SocketError(code: int)
}
