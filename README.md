# Mach exception hook of WKWebViewBug, modelled in Dafny

WKWebViewBug hooks the calling thread's Mach exception port so that a hardware
fault raised on it is delivered as a message to a port the process owns. A
listener thread receives each exception notification, reads the faulting
thread's x86_64 registers, steps the instruction pointer over the 2-byte
faulting instruction, writes the registers back and replies `KERN_SUCCESS`,
which resumes the thread. Beside it sits `CThreadMachExceptionHandlers`, a
six-slot snapshot of the handlers that were installed on a thread before, with
a lookup that finds the first live handler for an exception kind.

The model has three modules:

- `MachTypes` (`mach_types.dfy`): 32- and 64-bit machine integers as newtypes,
  and the platform constants the code uses (`KERN_SUCCESS`, `EXC_*`,
  `EXCEPTION_DEFAULT`, the x86_64 thread-state flavours and their word counts,
  `MACH_PORT_TYPE_DEAD_NAME`). These values come from the macOS SDK headers for
  x86_64, not from the repository.
- `ThreadHandlers` (`thread_handlers.dfy`): the handler table as a class with a
  32-bit count and four parallel arrays of six slots each. `GetIndexOfHandler`
  is the source's index loop with early return. It is proved against
  `FirstMatch`, a recursive reference definition over the loaded entries.
  Lemmas prove the first-match properties of `FirstMatch`. `GetHandler` fills
  the caller's `MachExceptionHandler` object field by field.
- `MachException` (`mach_exception.dfy`): `ExceptionString` and its inverse.
  One pass of the `SEHExceptionThread` loop, as a method that returns the
  kernel calls it makes, in order. `SEHInitializeMachExceptions`, as a method
  on the object that holds `s_ExceptionPort`. It records the start-up calls it
  makes and is proved against a "run up to the first failure" definition.

Kernel calls are not modelled, only their results. Each result is a parameter:

- `mach_port_type` is a function from port to status and type bits.
- `thread_get_state` and `thread_set_state` are fields of a `Kernel` value.
- The start-up calls' results are an `InitResults` value.

`CHECK_MACH` is not shown, so the model does not decide whether it ends the
process on failure. `Kernel.checkAborts` is that choice, and every contract
covers both answers.

What the code does, and the model with it, at points where a reader might
expect otherwise:

- The listener thread is started before the port is installed as the thread's
  handler.
- The install asks for `EXCEPTION_DEFAULT` behaviour with
  `MACHINE_THREAD_STATE`, not a state-carrying behaviour.
- The registers are read with the `x86_THREAD_STATE64` flavour, not with the
  flavour named in the notification.
- The write-back passes the constant `x86_THREAD_STATE64_COUNT`, not the
  count that the read returned.
- A failed read or write still leads to a `KERN_SUCCESS` reply, unless
  `CHECK_MACH` aborts.

## Model

| member | source | states |
|---|---|---|
| `ThreadHandlers.MachExceptionHandler.constructor` | WKWebViewBug/CThreadMachExceptionHandlers.hpp:15-21 | the out-record has exactly the four fields mask, handler, behaviour, flavour, each set as given |
| `ThreadHandlers.ThreadMachExceptionHandlers.constructor` | WKWebViewBug/CThreadMachExceptionHandlers.hpp:29-42 | the four arrays are fresh with 6 slots each (`Valid`); the unsigned count is -1 wrapped to 2^32-1, so the table is not `Loaded` and no lookup may run yet |
| `ThreadHandlers.ThreadMachExceptionHandlers.LoadThreadSelf` | WKWebViewBug/CThreadMachExceptionHandlers.cpp:62-71 | on `KERN_SUCCESS` the count and the first `count` slots of each array hold exactly what the kernel reported, the rest of each array is unchanged and the table is `Loaded`; on failure nothing changes; the kernel's status is returned |
| `ThreadHandlers.FirstMatch` | WKWebViewBug/CThreadMachExceptionHandlers.cpp:41-59 | reference lookup: the result is -1 or an index of an entry, `-1 <= r < count` |
| `ThreadHandlers.FirstMatchFound` | WKWebViewBug/CThreadMachExceptionHandlers.cpp:41-53 | a found index has a mask covering the requested bits, a non-null handler, and a port-type query that succeeded without `DEAD_NAME`; and no earlier entry has all three |
| `ThreadHandlers.FirstMatchNone` | WKWebViewBug/CThreadMachExceptionHandlers.cpp:41-59 | the lookup gives -1 if and only if no loaded entry matches; a failed port-type query counts as a dead port |
| `ThreadHandlers.FirstMatchLeast` | WKWebViewBug/CThreadMachExceptionHandlers.cpp:41-53 | first match wins: any matching index with no earlier match is the lookup's answer, so a dead entry before a live one for the same kind is skipped |
| `ThreadHandlers.ThreadMachExceptionHandlers.GetIndexOfHandler` | WKWebViewBug/CThreadMachExceptionHandlers.cpp:38-60 | on a loaded table, and when no examined candidate is the process's own exception port (the source's assert): returns -1 or an index below the count; a returned index matches and nothing before it does; -1 if and only if no entry matches; never returns the own port; equals `FirstMatch`; it has no `modifies` clause, so the table is unchanged |
| `ThreadHandlers.ExceptionMask` | WKWebViewBug/CThreadMachExceptionHandlers.cpp:20 | `1 << eException` is a non-zero mask with exactly one bit set |
| `ThreadHandlers.ThreadMachExceptionHandlers.GetHandler` | WKWebViewBug/CThreadMachExceptionHandlers.cpp:18-34 | searches with the one-bit mask of the exception kind; returns true exactly when `FirstMatch` finds an entry, and then the record's four fields equal the four array slots at that index (a live, non-null handler covering the kind, never the own port); on false the record is untouched; only the record may change, never the table |
| `MachException.ExceptionString` | WKWebViewBug/MachException.cpp:24-57 | total: exactly the seven named kinds get a name other than "INVALID CODE", and each such name starts with "EXC_" |
| `MachException.ExceptionStringRoundTrip` | WKWebViewBug/MachException.cpp:29-56 | reading the name back gives the kind for each of the seven named kinds and nothing for any other code (EXC_EMULATION included) |
| `MachException.ExceptionStringInjective` | WKWebViewBug/MachException.cpp:29-50 | no two named kinds share a name |
| `MachException.WrappingAdd64` | WKWebViewBug/MachException.cpp:120 | `__rip += 2` on an unsigned 64-bit register is the sum modulo 2^64 |
| `MachException.SkipWithoutWrap` | WKWebViewBug/MachException.cpp:120 | below the top of the address space the skip is exactly +2 |
| `MachException.ExceptionThreadIteration` | WKWebViewBug/MachException.cpp:68-133 | a non-notification message causes no kernel call, no reply and no sub-code read. For a notification: the sub-codes read are exactly those at indices `0 .. count-1`; the registers are read first with `x86_THREAD_STATE64` and then the exception state with `x86_EXCEPTION_STATE64`; the write-back goes to the same thread with the same flavour, and holds the registers read with `rip` advanced by 2 modulo 2^64 and every other register unchanged; exactly one reply is sent, carrying `KERN_SUCCESS` and built from the received message, and it is the last call; the pass aborts only when `CHECK_MACH` aborts on a failed call, and then that failed call (the first failure among the register read, the exception-state read and the write-back) is the last call made and no reply is sent |
| `MachException.FirstFailure` | WKWebViewBug/MachException.cpp:155-184 | the index of the first failed step: every earlier step succeeded and the step at that index failed, or all succeeded |
| `MachException.FirstFailureUnique` | WKWebViewBug/MachException.cpp:155-184 | the first failure is determined uniquely by those two conditions |
| `MachException.MachExceptionGlobals.constructor` | WKWebViewBug/MachException.cpp:22 | `s_ExceptionPort` starts as the null port, before any start-up call |
| `MachException.MachExceptionGlobals.InitializeMachExceptions` | WKWebViewBug/MachException.cpp:149-188 | stores the allocated name in `s_ExceptionPort`; the calls made are the four steps (allocate a receive right, insert a make-send right on the port, spawn the listener, set the thread's exception ports with `EXCEPTION_DEFAULT` and `MACHINE_THREAD_STATE`), in that order, up to and including the first that fails; returns true exactly when none failed |
| `MachException.InitSucceedsIffAllSucceed` | WKWebViewBug/MachException.cpp:149-188 | start-up returns TRUE if and only if all four steps report success |
| `MachException.InitFailFast` | WKWebViewBug/MachException.cpp:155-184 | every step run before the last one succeeded; on failure the last step run is the failing one and no later step runs |
| `MachException.ListenerSpawnedBeforeInstall` | WKWebViewBug/MachException.cpp:170-184 | whenever the install step runs, it is the fourth call and the listener spawn came right before it, after three successes; the install names the allocated port with `EXCEPTION_DEFAULT` and `MACHINE_THREAD_STATE` |

## Left out

- Kernel semantics of `mach_port_allocate`, `mach_port_insert_right`,
  `thread_set_exception_ports`, `thread_get_exception_ports`,
  `thread_get_state`, `thread_set_state` and `mach_port_type`: only their
  results are modelled, as parameters.
- `MachMessage.hpp`, `MachException.hpp` and the `CHECK_MACH` macro are not part of this model. A message is
  either an exception notification carrying the fields the listener reads or
  another message, and receiving it is not modelled. `PAL_EXC_MANAGED_MASK` and
  `PAL_EXC_ALL_MASK` are defined in `MachException.hpp`: the install mask is a
  parameter of `InitializeMachExceptions`.
- The forever loop of `SEHExceptionThread`, `pthread_create` and everything
  between threads: one pass of the loop is modelled, and the spawn is a
  recorded step with a result.
- All `printf` logging and `CThreadMachExceptionHandlers::Print`. The
  sub-codes and the exception state are only logged. The model records which
  sub-codes are read and that the exception state is fetched, but not the
  exception state's contents (trap number, CPU, error code, fault address).
- `GetIndexOfHandler` is private in the source. Dafny modules here have no
  access control, so the model does not enforce that `GetHandler` is the only
  caller.
- GetHandler: requires `0 <= eException < 32`, because a shift of a 32-bit
  `1` by a negative amount or by 32 or more is undefined in C++.
- LoadThreadSelf: requires the kernel to report at most six entries. The
  source passes the count field, which is 2^32-1 after construction, as the
  capacity of the arrays, so the call itself does not bound the copy. On a
  failed call the model leaves the table as it was; what the kernel writes
  then is not known.
- ExceptionThreadIteration: the register count that `thread_get_state`
  returns is not modelled, so the model does not show it being compared with
  the count passed to the write. The source passes the constant
  `x86_THREAD_STATE64_COUNT` to the write instead.
- `AppDelegate.h`: user-interface glue that only triggers the fault.
