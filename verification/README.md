# Mesos Windows launcher and stout Windows descriptors, in Dafny

This project models three small parts of Mesos and its stout library as they
run on Windows, and proves what each part promises.

- **The Windows container launcher** (`WindowsLauncher`). It keeps one map,
  `jobs`, from a container to the name of the Windows job object that holds the
  container's processes, and has four operations on it:
  - `recover` rebuilds the map from persisted container records and refuses a
    job name that is already in use;
  - `fork` spawns a child whose parent hook names, creates and assigns its job
    object, then records that job;
  - `destroy` kills the job and forgets the container;
  - `status` reports whether the container is tracked.

  The map is the field of a `class`, and its methods are proved equal to pure
  specification functions (`Recovered`, `Forked`, `Destroyed`, `StatusOf`).
  The lemmas are stated about those functions: injectivity of the map, failure
  paths that leave it unchanged, recover stopping at the first bad record,
  destroy being idempotent, and a whole container lifecycle.
- **stout's Windows descriptor** (`WindowsFD`). It is a closed sum of a CRT
  descriptor, a kernel `HANDLE` and a Winsock `SOCKET`, with:
  - its validity rules;
  - the construction-time check that the two representations agree in validity;
  - its projections;
  - the operations that dispatch on its kind: `close`, `dup`, `cloexec`,
    `unsetCloexec`, `isCloexec`, `nonblock`, `isNonblock`, `read` and `write`.

  The CRT, Windows and Winsock calls are not modelled. Each call is a value of
  `WinApi.Call`, and an oracle `Os` answers it. Each operation returns the
  calls it made, in order, next to its result. So the contracts can say which
  calls are made, with which arguments, and which calls are skipped (for
  example, no `closesocket` after a rejected `shutdown`, and no `CloseHandle`
  at all). A failed `CHECK` aborts the process, written `Exit.Abort`.
  `HANDLE`, `SOCKET` and `intptr_t` are 64-bit, as on 64-bit Windows. Every C
  conversion between integer widths is written out (`ToInt32`, `ToUint32`,
  `ToUint64`, `ToIntPtr`).
- **Two string helpers**: `longpath`, which prefixes an absolute path with
  `\\?\` unless the prefix is already there, and `defaultPath`, the platform
  default of `PATH`. `path::absolute`, `path::join` and `os::getenv` are
  parameters.

The files are:

| file | module |
|---|---|
| `wrappers.dfy` | `Wrappers` |
| `win_api.dfy` | `WinApi` |
| `fd.dfy` | `Fd` |
| `close.dfy` | `Close` |
| `dup.dfy` | `Dup` |
| `fcntl.dfy` | `Fcntl` |
| `read.dfy` | `Read` |
| `write.dfy` | `Write` |
| `longpath.dfy` | `Longpath` |
| `utils.dfy` | `ContainerizerUtils` |
| `windows_launcher.dfy` | `Launcher` |

Three behaviours of the code are worth stating up front:

- **`recover` is not all-or-nothing.** It returns at the first failing record
  and keeps the entries it already stored
  (`Launcher.RecoverFailsAtFirstBadState`,
  `Launcher.RecoverKeepsEntryBeforeDuplicate`).
- **`recover` can replace a tracked container's entry.** It tests only whether
  the new *name* is already a value in the map. A container that appears again
  under an unused name has its entry replaced (`Launcher.RecoverStep`).
- **Only the handle and socket kinds project an invalid value to `-1`.** An
  invalid CRT descriptor projects to itself, which is any negative number. A
  valid socket whose low 32 bits are all ones also projects to `-1`
  (`Fd.InvalidProjectsNegative`, `Fd.SocketIntProjectionCollides`).

## Model

| member | source | states |
|---|---|---|
| WinApi.ToUint64 | 3rdparty/stout/include/stout/os/windows/fd.hpp:97 | conversion to `SOCKET`: the identity on unsigned 64-bit values, and congruent to the input modulo 2^64 |
| WinApi.ToUint32 | 3rdparty/stout/include/stout/os/windows/fcntl.hpp:59 | a `DWORD`: the identity on unsigned 32-bit values, and congruent modulo 2^32 |
| WinApi.ToInt32 | 3rdparty/stout/include/stout/os/windows/fd.hpp:102 | `static_cast<int>`: the identity on `int` values, and congruent modulo 2^32 |
| WinApi.ToIntPtr | 3rdparty/stout/include/stout/os/windows/fd.hpp:110 | `static_cast<intptr_t>`: the identity on `intptr_t` values, and congruent modulo 2^64 |
| WinApi.UintPtrRoundTrip | 3rdparty/stout/include/stout/os/windows/fd.hpp:110 | a socket read as `intptr_t` and converted back is the same socket |
| WinApi.IntPtrRoundTrip | 3rdparty/stout/include/stout/os/windows/fd.hpp:97 | an `intptr_t` converted to `SOCKET` and back is the same value |
| Fd.IsValidCrt | 3rdparty/stout/include/stout/os/windows/fd.hpp:30-33 | a CRT descriptor is valid exactly when it is not negative |
| Fd.IsValidHandle | 3rdparty/stout/include/stout/os/windows/fd.hpp:35-38 | a `HANDLE` is valid exactly when it is neither null nor `INVALID_HANDLE_VALUE` |
| Fd.IsValidSocket | 3rdparty/stout/include/stout/os/windows/fd.hpp:40-43 | a `SOCKET` is valid exactly when it is not `INVALID_SOCKET` |
| Fd.SocketFD.AsInt | 3rdparty/stout/include/stout/os/windows/fd.hpp:99-106 | `-1` for an invalid socket; the socket itself when it is valid and fits an `int`; otherwise congruent to it modulo 2^32 |
| Fd.SocketFD.AsIntPtr | 3rdparty/stout/include/stout/os/windows/fd.hpp:110 | converting the result back to `SOCKET` gives the socket |
| Fd.SocketFDFromIntPtr | 3rdparty/stout/include/stout/os/windows/fd.hpp:97 | the `intptr_t` constructor: projecting back to `intptr_t` gives the argument |
| Fd.IntFDFromCrt | 3rdparty/stout/include/stout/os/windows/fd.hpp:50-58 | `_get_osfhandle` is called only for a valid descriptor, otherwise the handle is `INVALID_HANDLE_VALUE`; aborts exactly when the two validities disagree; on return the crt is kept and the pair is consistent |
| Fd.HandleFDFromHandle | 3rdparty/stout/include/stout/os/windows/fd.hpp:73-80 | `_open_osfhandle(handle, O_RDWR)` is called only for a valid handle, otherwise the crt is `-1`; aborts exactly when the validities disagree; on return the handle is kept |
| Fd.WindowsFD.AsInt | 3rdparty/stout/include/stout/os/windows/fd.hpp:123-129 | delegates to the active kind: for a consistent CRT or HANDLE descriptor, the result is valid exactly when the descriptor is; `-1` for an invalid socket; a valid socket that fits an `int` projects to itself |
| Fd.WindowsFD.AsHandle | 3rdparty/stout/include/stout/os/windows/fd.hpp:131-137 | delegates to the active kind: for a consistent CRT or HANDLE descriptor, the handle is valid exactly when the descriptor is; a socket's own bits for a socket |
| Fd.WindowsFD.AsSocket | 3rdparty/stout/include/stout/os/windows/fd.hpp:139 | defined only for the socket kind (a precondition); valid exactly when the descriptor is |
| Fd.WindowsFD.AsIntPtr | 3rdparty/stout/include/stout/os/windows/fd.hpp:141 | defined only for the socket kind; converts back to the socket |
| Fd.IntFDRoundTrip | 3rdparty/stout/include/stout/os/windows/fd.hpp:50-62 | a CRT descriptor that was built projects back to its crt, and to the handle `_get_osfhandle` gave (or `INVALID_HANDLE_VALUE`) |
| Fd.HandleFDRoundTrip | 3rdparty/stout/include/stout/os/windows/fd.hpp:73-84 | a HANDLE descriptor that was built projects back to its handle; its crt projection is valid exactly when the handle is |
| Fd.SocketFDRoundTrip | 3rdparty/stout/include/stout/os/windows/fd.hpp:95-112 | the SOCKET, HANDLE and `intptr_t` projections all give back the raw socket |
| Fd.InvalidProjectsNegative | 3rdparty/stout/include/stout/os/windows/fd.hpp:50-106 | building from an invalid native value never aborts; the int projection is `-1` for the handle and socket kinds, and the negative crt itself for the CRT kind |
| Fd.SocketIntProjectionCollides | 3rdparty/stout/include/stout/os/windows/fd.hpp:99-106 | the valid socket `0xFFFFFFFF` projects to the sentinel `-1` |
| Close.Close | 3rdparty/stout/include/stout/os/windows/close.hpp:27-56 | CRT and HANDLE kinds make exactly one `_close` on the crt, with no `CloseHandle`, and fail with an errno error iff it returns a negative value; a socket is shut down with `SD_BOTH` first; a shutdown failure other than `WSAENOTCONN` returns "Failed to shutdown a socket" without calling `closesocket`; otherwise success iff `closesocket` does not return `SOCKET_ERROR`, else "Failed to close a socket" |
| Close.CloseIgnoresHandleField | 3rdparty/stout/include/stout/os/windows/close.hpp:32-43 | the two CRT-backed kinds close identically for the same crt, whatever their handles |
| Close.CloseIgnoresNotConnected | 3rdparty/stout/include/stout/os/windows/close.hpp:45-54 | a shutdown failing with `WSAENOTCONN` gives the same result and calls as a shutdown that succeeds |
| Dup.Dup | 3rdparty/stout/include/stout/os/windows/dup.hpp:25-65 | CRT and HANDLE kinds call `DuplicateHandle` on the HANDLE projection, current process to current process, inheritable, `DUPLICATE_SAME_ACCESS`; a failure returns "Failed to duplicate handle of stdin file"; a success wraps the new handle as a HANDLE descriptor; a socket calls `WSADuplicateSocketW` with the current process id and fails with a socket error on a non-zero result, otherwise returns the `WSASocketW` result as a socket; never aborts for a socket; a successful result is a socket iff the input was |
| Dup.DupHandleResult | 3rdparty/stout/include/stout/os/windows/dup.hpp:49-53 | a successful CRT or HANDLE duplicate is a consistent HANDLE-kind descriptor holding the duplicated handle |
| Dup.DupReturnsInvalidSocket | 3rdparty/stout/include/stout/os/windows/dup.hpp:55-61 | when `WSASocketW` fails, `dup` reports success with an invalid socket |
| Dup.DupCheckingSocket | 3rdparty/stout/include/stout/os/windows/dup.hpp:55-62 | the corrected socket path: never aborts for a socket; a `WSASocketW` failure is a socket error; a successful duplicate is always valid; a failed `WSADuplicateSocketW`, and every successful duplicate, is exactly `dup`'s result |
| Dup.DupCheckingSocketAgrees | 3rdparty/stout/include/stout/os/windows/dup.hpp:55-62 | the corrected and the original `dup` agree unless `WSASocketW` is called (after a successful `WSADuplicateSocketW`) and returns `INVALID_SOCKET` |
| Fcntl.Cloexec | 3rdparty/stout/include/stout/os/windows/fcntl.hpp:36-43 | exactly one `SetHandleInformation(handle, HANDLE_FLAG_INHERIT, 0)`; success iff it returns non-zero; otherwise "`os::cloexec` failed" |
| Fcntl.UnsetCloexec | 3rdparty/stout/include/stout/os/windows/fcntl.hpp:46-53 | exactly one `SetHandleInformation(handle, HANDLE_FLAG_INHERIT, HANDLE_FLAG_INHERIT)`; success iff non-zero; otherwise "`os::unsetCloexec` failed for CRT or HANDLE" |
| Fcntl.IsCloexec | 3rdparty/stout/include/stout/os/windows/fcntl.hpp:56-65 | exactly one `GetHandleInformation`; on success the answer is true iff the flags differ from `HANDLE_FLAG_INHERIT`; on failure "`os::isCloexec` failed" |
| Fcntl.IsCloexecMissesInheritBit | 3rdparty/stout/include/stout/os/windows/fcntl.hpp:56-61 | an inheritable, close-protected handle (flags 3) is reported as close-on-exec |
| Fcntl.IsCloexecByBit | 3rdparty/stout/include/stout/os/windows/fcntl.hpp:56-65 | the corrected test: the same call and error path as `isCloexec`, and on success true iff the inherit bit is clear |
| Fcntl.IsCloexecByBitSeesInheritBit | 3rdparty/stout/include/stout/os/windows/fcntl.hpp:59-61 | with flags 3, the bit test reports the handle as inheritable |
| Fcntl.IsCloexecByBitAgrees | 3rdparty/stout/include/stout/os/windows/fcntl.hpp:56-61 | the corrected and original tests differ exactly when `GetHandleInformation` succeeds and the flags have the inherit bit set together with another flag |
| Fcntl.Nonblock | 3rdparty/stout/include/stout/os/windows/fcntl.hpp:68-88 | CRT and HANDLE kinds: success with no call; a socket makes one `ioctlsocket(socket, FIONBIO, 1)` and fails with a socket error iff the result is not `NO_ERROR` |
| Fcntl.IsNonblock | 3rdparty/stout/include/stout/os/windows/fcntl.hpp:91-96 | always `true`, for every descriptor |
| Read.Read | 3rdparty/stout/include/stout/os/windows/read.hpp:28-42 | requires `size <= UINT_MAX`; both CRT-backed kinds make one `_read` on the crt with the size; a socket makes one `recv` with flags 0 and the size converted to `int`; the call's return value is returned unchanged |
| Read.RecvLengthWraps | 3rdparty/stout/include/stout/os/windows/read.hpp:39-41 | a socket read of 2^31 bytes passes the size check and asks `recv` for length -2^31 |
| Read.ReadWithinRecvBound | 3rdparty/stout/include/stout/os/windows/read.hpp:28-42 | with socket sizes bounded by `INT_MAX`, `recv` receives exactly the requested size |
| Read.ReadIgnoresHandleField | 3rdparty/stout/include/stout/os/windows/read.hpp:33-38 | the two CRT-backed kinds read identically for the same crt |
| Write.Write | 3rdparty/stout/include/stout/os/windows/write.hpp:29-42 | requires `size <= INT_MAX`; both CRT-backed kinds make one `_write` on the crt; a socket makes one `send` with the exact size and flags 0; the call's return value is returned unchanged |
| Write.WriteIgnoresHandleField | 3rdparty/stout/include/stout/os/windows/write.hpp:33-38 | the two CRT-backed kinds write identically for the same crt |
| Longpath.Longpath | 3rdparty/stout/include/stout/internal/windows/longpath.hpp:33-41 | an absolute path without the prefix gets `\\?\` in front; any other path is unchanged; the result of an absolute path always carries the prefix |
| Longpath.LongpathWide | 3rdparty/stout/include/stout/internal/windows/longpath.hpp:43-46 | the wide overload equals the narrow one applied to the (narrowed) path |
| Longpath.LongpathIdempotent | 3rdparty/stout/include/stout/internal/windows/longpath.hpp:29-41 | applying `longpath` twice is applying it once, for every `path::absolute` |
| Longpath.LongpathStripsBack | 3rdparty/stout/include/stout/internal/windows/longpath.hpp:36-40 | the result is the path, or the prefix followed by the path |
| ContainerizerUtils.SystemRoot | src/slave/containerizer/mesos/utils.hpp:59-62 | `SYSTEMROOT` when it is set, `C:\WINDOWS` otherwise |
| ContainerizerUtils.DefaultPath | src/slave/containerizer/mesos/utils.hpp:51-66 | exactly the POSIX list off Windows; on Windows, the root, `;`, then `path::join(root, "system32")` |
| ContainerizerUtils.FirstEntryOfJoin | src/slave/containerizer/mesos/utils.hpp:64 | the first entry of a `;`-joined list is its first element, when that element holds no `;` |
| ContainerizerUtils.DefaultPathStartsWithSystemRoot | src/slave/containerizer/mesos/utils.hpp:59-64 | on Windows the first `;`-separated entry of the default `PATH` is the system root |
| Launcher.RecoverStep | src/slave/containerizer/mesos/windows_launcher.cpp:56-80 | one pass of the loop: a failing `name_job` gives the `name_job` error; a name already held gives the duplicate-pid error; otherwise the container is mapped to the name (replacing its old entry), and an injective map stays injective |
| Launcher.Recovered | src/slave/containerizer/mesos/windows_launcher.cpp:52-84 | success returns the empty set; one `name_job` per record, in order; stops at the failing record; success after all records |
| Launcher.RecoverKeys | src/slave/containerizer/mesos/windows_launcher.cpp:55-81 | recover only adds or replaces entries of the given containers, whether it succeeds or fails; after a success every given container is tracked |
| Launcher.RecoverPreservesInjective | src/slave/containerizer/mesos/windows_launcher.cpp:68-80 | an injective map stays injective, whether recover succeeds or fails |
| Launcher.RecoverSplit | src/slave/containerizer/mesos/windows_launcher.cpp:55-81 | recovering a list is recovering a prefix, then (if that succeeded) the rest from the map it left |
| Launcher.RecoverFailsAtFirstBadState | src/slave/containerizer/mesos/windows_launcher.cpp:55-80 | a failed recover stopped at some record: all earlier records succeeded, that record failed against their map, the error is that record's error, and their entries stay |
| Launcher.RecoverRecordsEveryState | src/slave/containerizer/mesos/windows_launcher.cpp:55-83 | after a success each container holds the job named for its last record |
| Launcher.RecoverNamesDistinctJobs | src/slave/containerizer/mesos/windows_launcher.cpp:68-80 | after a success from an injective map, no two containers' last records named the same job |
| Launcher.RecoverKeepsEntryBeforeDuplicate | src/slave/containerizer/mesos/windows_launcher.cpp:68-80 | with two records naming the same job, recover fails with the duplicate error and the first record's entry stays |
| Launcher.ParentHook | src/slave/containerizer/mesos/windows_launcher.cpp:114-143 | `name_job`, `create_job`, `assign_job` in that order; the first error is returned and the later calls are not made; success assigns the pid to the named job |
| Launcher.Subprocess | src/slave/containerizer/mesos/windows_launcher.cpp:145-159 | the spawn comes first; a spawn failure runs no hook; the hook runs on the child pid, and a hook failure fails the spawn with the hook's error; success returns the spawned pid |
| Launcher.Forked | src/slave/containerizer/mesos/windows_launcher.cpp:87-174 | namespace options (present and non-zero) and an already tracked container are rejected before any call, with their messages; a spawn or hook failure gives "Failed to fork a child process: " and the error; a failure of the second `name_job` gives that call's error; every failure leaves the map unchanged; success exactly when the checks pass, spawn and hook succeed and the second `name_job` succeeds; success returns the child pid and records that name |
| Launcher.ForkKeepsOtherEntries | src/slave/containerizer/mesos/windows_launcher.cpp:164-173 | a successful fork adds exactly the container and keeps every other entry |
| Launcher.ForkRecordsAssignedJob | src/slave/containerizer/mesos/windows_launcher.cpp:125-171 | with stable naming, the recorded job is one the hook created and assigned the child to |
| Launcher.ForkPreservesInjective | src/slave/containerizer/mesos/windows_launcher.cpp:130-171 | when `create_job` refuses names already in use and naming is stable, fork keeps the map injective |
| Launcher.ForkCanShareJob | src/slave/containerizer/mesos/windows_launcher.cpp:164-171 | fork itself does not test the name: if `create_job` does not refuse it, two containers can share a job |
| Launcher.ForkTwiceFails | src/slave/containerizer/mesos/windows_launcher.cpp:107-110 | after a successful fork, forking the same container fails with "already been forked", makes no call and leaves the map unchanged |
| Launcher.Destroyed | src/slave/containerizer/mesos/windows_launcher.cpp:181-201 | an untracked container gives success with no change and no call; a tracked one calls `kill_job` on its name; on failure "Failed to kill job object: " and the entry stays; on success exactly that entry is removed |
| Launcher.DestroyIdempotent | src/slave/containerizer/mesos/windows_launcher.cpp:185-188 | destroy after a successful destroy succeeds, makes no call and changes nothing |
| Launcher.DestroyPreservesInjective | src/slave/containerizer/mesos/windows_launcher.cpp:198 | destroy keeps the map injective |
| Launcher.StatusOf | src/slave/containerizer/mesos/windows_launcher.cpp:204-215 | fails with "Container does not exist!" exactly when the container is untracked |
| Launcher.StatusAfterForkAndDestroy | src/slave/containerizer/mesos/windows_launcher.cpp:204-208 | status succeeds after a successful fork and fails after a successful destroy |
| Launcher.Lifecycle | src/slave/containerizer/mesos/windows_launcher.cpp:52-215 | empty recover, fork, status, destroy and a second destroy, with each outcome |
| Launcher.WindowsLauncher.constructor | src/slave/containerizer/mesos/windows_launcher.hpp:84-88 | a new launcher tracks no container |
| Launcher.WindowsLauncher.Recover | src/slave/containerizer/mesos/windows_launcher.cpp:52-84 | the loop with early returns yields `Recovered`'s result and map |
| Launcher.WindowsLauncher.Fork | src/slave/containerizer/mesos/windows_launcher.cpp:87-174 | yields `Forked`'s result and map |
| Launcher.WindowsLauncher.Destroy | src/slave/containerizer/mesos/windows_launcher.cpp:181-201 | yields `Destroyed`'s result and map |
| Launcher.WindowsLauncher.Status | src/slave/containerizer/mesos/windows_launcher.cpp:204-215 | changes nothing; fails exactly when the container is untracked |

## Left out

- `WindowsLauncher::create` is not modelled: it only allocates a launcher and ignores its flags. The constructor models the new launcher.
- The `Future` plumbing is not modelled: results are synchronous. Logging is left out too.
- The I/O redirections, the flags, the `SETSID` child hook and process reaping of `subprocess` are not modelled. The spawner is one outcome, `spawned`, and the parent hook runs on the spawned pid.
- Launcher.Subprocess: the spawner's error text for a failed parent hook is not modelled. The spawner's source is not part of this model, so a hook failure fails the spawn with the hook's own error.
- Killing a child whose parent hook failed is not modelled, because it is `subprocess`'s own business.
- The job-object calls `name_job`, `create_job`, `assign_job` and `kill_job` are oracle answers. The second `name_job` in `fork` is a separate oracle, because the system need not answer it as it answered the first.
- `stringify(containerId)` is modelled as the id's value string. Other `ContainerID` fields are not modelled.
- `stringify(pid)` is decimal.
- `ContainerStatus` has no fields, because the launcher fills none in.
- The Windows, CRT and Winsock functions are oracle answers, and their own semantics are not modelled. `WSAPROTOCOL_INFOW` is an opaque value.
- The bytes read into or written from the buffers of `read` and `write` are not modelled, only the calls and the returned counts.
- Read.Read: the `CHECK_LE(size, UINT_MAX)` abort is not modelled. The bound is a precondition on the caller, so an oversized `size` is outside the model.
- Write.Write: the `CHECK_LE(size, INT_MAX)` abort is not modelled. The bound is a precondition on the caller, so an oversized `size` is outside the model.
- UTF-16 widening and narrowing are the identity on character sequences.
- `getRootContainerId` and `getMountNamespaceTarget` are declared without a body in utils.hpp, so they are not modelled.
- The archive helpers (archiver.hpp, decompress.hpp) are not modelled: they only drive libarchive and the file system.
- A 32-bit Windows build (32-bit `HANDLE` and `SOCKET`) is not modelled. The widths are those of 64-bit Windows.

## Findings

| source | as written | input that shows it | evidently intended | confidence | as-written member | corrected member |
|---|---|---|---|---|---|---|
| 3rdparty/stout/include/stout/os/windows/read.hpp:39-41 | the size is cast to `unsigned int` and passed to `recv`, whose length is an `int`, although the check at line 30 allows up to `UINT_MAX` | a socket read with `size = 2^31` | the size reaches `recv` intact, as `write` ensures with its `INT_MAX` bound | not executed | Read.RecvLengthWraps | Read.ReadWithinRecvBound |
| 3rdparty/stout/include/stout/os/windows/dup.hpp:61 | the result of `WSASocketW` is returned unchecked | `WSADuplicateSocketW` returns 0, then `WSASocketW` returns `INVALID_SOCKET` | a failed `WSASocketW` is reported as an error | not executed | Dup.DupReturnsInvalidSocket | Dup.DupCheckingSocket |
| 3rdparty/stout/include/stout/os/windows/fcntl.hpp:61 | close-on-exec is `flags != HANDLE_FLAG_INHERIT`, an exact comparison | handle flags `HANDLE_FLAG_INHERIT \| HANDLE_FLAG_PROTECT_FROM_CLOSE` (3) | close-on-exec exactly when the inherit bit is clear | not executed | Fcntl.IsCloexecMissesInheritBit | Fcntl.IsCloexecByBit |
