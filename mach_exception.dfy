/** The exception listener: names of exception kinds, one iteration of the
    listener thread's receive loop, and the start-up sequence that allocates
    the exception port, starts the listener and hooks the calling thread.
    Kernel and pthread calls are not modelled; their results are parameters. */
module MachException {
  import opened MachTypes

  // ---------------------------------------------------------------------------
  // GetExceptionString

  /** The seven exception kinds that have a name of their own. */
  predicate IsNamedException(exception: i32) {
    exception == EXC_BAD_ACCESS || exception == EXC_BAD_INSTRUCTION ||
    exception == EXC_ARITHMETIC || exception == EXC_SOFTWARE ||
    exception == EXC_BREAKPOINT || exception == EXC_SYSCALL ||
    exception == EXC_MACH_SYSCALL
  }

  const InvalidCodeName: string := "INVALID CODE"

  /** GetExceptionString: the printable name of an exception kind. Total:
      any code that is not one of the seven named kinds is "INVALID CODE". */
  function ExceptionString(exception: i32): (name: string)
    ensures IsNamedException(exception) <==> name != InvalidCodeName
    ensures IsNamedException(exception) ==> |name| > 4 && name[..4] == "EXC_"
  {
    if exception == EXC_BAD_ACCESS then "EXC_BAD_ACCESS"
    else if exception == EXC_BAD_INSTRUCTION then "EXC_BAD_INSTRUCTION"
    else if exception == EXC_ARITHMETIC then "EXC_ARITHMETIC"
    else if exception == EXC_SOFTWARE then "EXC_SOFTWARE"
    else if exception == EXC_BREAKPOINT then "EXC_BREAKPOINT"
    else if exception == EXC_SYSCALL then "EXC_SYSCALL"
    else if exception == EXC_MACH_SYSCALL then "EXC_MACH_SYSCALL"
    else InvalidCodeName
  }

  /** Reading a name back: the exception kind a name belongs to. */
  function ExceptionOfName(name: string): (e: Option<i32>)
    ensures e.Some? ==> IsNamedException(e.value)
  {
    if name == "EXC_BAD_ACCESS" then Some(EXC_BAD_ACCESS)
    else if name == "EXC_BAD_INSTRUCTION" then Some(EXC_BAD_INSTRUCTION)
    else if name == "EXC_ARITHMETIC" then Some(EXC_ARITHMETIC)
    else if name == "EXC_SOFTWARE" then Some(EXC_SOFTWARE)
    else if name == "EXC_BREAKPOINT" then Some(EXC_BREAKPOINT)
    else if name == "EXC_SYSCALL" then Some(EXC_SYSCALL)
    else if name == "EXC_MACH_SYSCALL" then Some(EXC_MACH_SYSCALL)
    else None
  }

  /** Each named kind has its own name, and every other code has none. */
  lemma ExceptionStringRoundTrip(exception: i32)
    ensures ExceptionOfName(ExceptionString(exception)) ==
      if IsNamedException(exception) then Some(exception) else None
  {
  }

  /** No two named kinds share a name. */
  lemma ExceptionStringInjective(a: i32, b: i32)
    requires IsNamedException(a) && IsNamedException(b)
    requires ExceptionString(a) == ExceptionString(b)
    ensures a == b
  {
    ExceptionStringRoundTrip(a);
    ExceptionStringRoundTrip(b);
  }

  // ---------------------------------------------------------------------------
  // Register state and the repair applied to it

  /** x86_thread_state64_t: the general registers of a 64-bit thread. */
  datatype X86ThreadState64 = X86ThreadState64(
    rax: u64, rbx: u64, rcx: u64, rdx: u64, rdi: u64, rsi: u64, rbp: u64, rsp: u64,
    r8: u64, r9: u64, r10: u64, r11: u64, r12: u64, r13: u64, r14: u64, r15: u64,
    rip: u64, rflags: u64, cs: u64, fs: u64, gs: u64)

  /** The width of the faulting instruction the listener steps over. */
  const FaultInstructionWidth: u64 := 2

  /** C's `+=` on a 64-bit unsigned value: the sum modulo 2^64. */
  function WrappingAdd64(a: u64, b: u64): (r: u64)
    ensures r as int == (a as int + b as int) % U64_MODULUS
  {
    if a as int + b as int < U64_MODULUS then a + b
    else (a as int + b as int - U64_MODULUS) as u64
  }

  /** Away from the top of the address space the skip is a plain +2. */
  lemma SkipWithoutWrap(rip: u64)
    requires rip as int + FaultInstructionWidth as int < U64_MODULUS
    ensures WrappingAdd64(rip, FaultInstructionWidth) as int == rip as int + 2
  {
  }

  // ---------------------------------------------------------------------------
  // One iteration of SEHExceptionThread

  /** A message taken off the exception port. MachMessage's decoding is not
      modelled: a message is either an exception notification, with the fields
      the listener reads from it, or any other message. */
  datatype MachMessage =
    | ExceptionNotification(remotePort: Port, localPort: Port, thread: Port, exception: i32,
                            codeCount: int, codes: seq<u64>, threadStateFlavor: i32)
    | OtherMessage(remotePort: Port, localPort: Port, messageType: u32)

  /** The listener can read the sub-code at every index below the count. */
  predicate WellFormedMessage(msg: MachMessage) {
    msg.ExceptionNotification? ==> msg.codeCount <= |msg.codes|
  }

  /** thread_get_state for the general registers: the status and what the
      kernel left in the caller's register buffer. */
  datatype ThreadStateReply = ThreadStateReply(kr: KernReturn, state: X86ThreadState64)

  /** The kernel as the listener sees it, per faulting thread, and CHECK_MACH,
      whose reaction to a failed call is not known: `checkAborts` says whether
      it ends the listener or lets it carry on. A succeeding call always
      passes CHECK_MACH. */
  datatype Kernel = Kernel(
    getThreadState: Port -> ThreadStateReply,
    getExceptionState: Port -> KernReturn,
    setThreadState: (Port, X86ThreadState64) -> KernReturn,
    checkAborts: bool)

  /** The calls the listener makes on the kernel, in order. */
  datatype KernelCall =
    | ThreadGetState(thread: Port, flavor: i32, count: u32)
    | ThreadSetState(thread: Port, flavor: i32, state: X86ThreadState64, count: u32)
    | ReplyToNotification(request: MachMessage, result: KernReturn)

  /** One pass of the SEHExceptionThread loop, after the message has been
      received. An exception notification has its sub-codes read, the faulting
      thread's registers read, the exception state read, the instruction
      pointer advanced past the faulting instruction, the registers written
      back and a success reply sent. Any other message is dropped. */
  method ExceptionThreadIteration(msg: MachMessage, kernel: Kernel)
    returns (calls: seq<KernelCall>, subcodes: seq<u64>, aborted: bool)
    requires WellFormedMessage(msg)
    // Anything but an exception notification: no register access, no reply.
    ensures !msg.ExceptionNotification? ==> calls == [] && subcodes == [] && !aborted
    // The sub-codes read are exactly those below the declared count.
    ensures msg.ExceptionNotification? ==>
      subcodes == msg.codes[..if msg.codeCount < 0 then 0 else msg.codeCount]
    // The registers are read first, with the x86_64 general-register flavour.
    ensures msg.ExceptionNotification? ==>
      1 <= |calls| <= 4 &&
      calls[0] == ThreadGetState(msg.thread, x86_THREAD_STATE64, x86_THREAD_STATE64_COUNT)
    ensures msg.ExceptionNotification? && |calls| >= 2 ==>
      calls[1] == ThreadGetState(msg.thread, x86_EXCEPTION_STATE64, x86_EXCEPTION_STATE64_COUNT)
    // The write-back uses the read's flavour and holds the registers read with
    // only the instruction pointer moved, by 2 modulo 2^64.
    ensures msg.ExceptionNotification? && |calls| >= 3 ==>
      var read := kernel.getThreadState(msg.thread).state;
      calls[2].ThreadSetState? && calls[2].thread == msg.thread &&
      calls[2].flavor == calls[0].flavor && calls[2].count == x86_THREAD_STATE64_COUNT &&
      calls[2].state == read.(rip := calls[2].state.rip) &&
      calls[2].state.rip as int == (read.rip as int + 2) % U64_MODULUS
    // A notification that is not aborted gets exactly one reply, the last
    // call, with KERN_SUCCESS, built from the received message.
    ensures msg.ExceptionNotification? && !aborted ==>
      |calls| == 4 && calls[3] == ReplyToNotification(msg, KERN_SUCCESS)
    ensures forall i :: 0 <= i < |calls| ==>
      (calls[i].ReplyToNotification? <==> !aborted && i == |calls| - 1)
    // The listener stops only when CHECK_MACH aborts on a failed call, and
    // then right after that call.
    ensures aborted ==> kernel.checkAborts && msg.ExceptionNotification?
    ensures msg.ExceptionNotification? ==>
      var read := kernel.getThreadState(msg.thread).state;
      var written := read.(rip := WrappingAdd64(read.rip, FaultInstructionWidth));
      (aborted <==>
        kernel.checkAborts &&
        (kernel.getThreadState(msg.thread).kr != KERN_SUCCESS ||
         kernel.getExceptionState(msg.thread) != KERN_SUCCESS ||
         kernel.setThreadState(msg.thread, written) != KERN_SUCCESS))
    // On an abort the failing call is the last one made: the first failure
    // among the read, the exception-state read and the write-back.
    ensures msg.ExceptionNotification? && aborted ==>
      var read := kernel.getThreadState(msg.thread).state;
      var written := read.(rip := WrappingAdd64(read.rip, FaultInstructionWidth));
      |calls| == FirstFailure([kernel.getThreadState(msg.thread).kr as int,
                               kernel.getExceptionState(msg.thread) as int,
                               kernel.setThreadState(msg.thread, written) as int]) + 1
  {
    calls, subcodes, aborted := [], [], false;
    if !msg.ExceptionNotification? {
      return;
    }
    var thread := msg.thread;

    // The sub-codes are only logged.
    var subcodeCount := msg.codeCount;
    var i := 0;
    while i < subcodeCount
      invariant 0 <= i && (i <= subcodeCount || i == 0)
      invariant subcodes == msg.codes[..i]
    {
      subcodes := subcodes + [msg.codes[i]];
      i := i + 1;
    }

    var count := x86_THREAD_STATE64_COUNT;
    calls := calls + [ThreadGetState(thread, x86_THREAD_STATE64, count)];
    var reply := kernel.getThreadState(thread);
    var threadStateActual := reply.state;
    ghost var written := reply.state.(rip := WrappingAdd64(reply.state.rip, FaultInstructionWidth));
    ghost var statuses := [reply.kr as int, kernel.getExceptionState(thread) as int,
                           kernel.setThreadState(thread, written) as int];
    if reply.kr != KERN_SUCCESS && kernel.checkAborts {
      FirstFailureUnique(statuses, 0);
      aborted := true;
      return;
    }

    // The exception state is only logged.
    var ehStateCount := x86_EXCEPTION_STATE64_COUNT;
    calls := calls + [ThreadGetState(thread, x86_EXCEPTION_STATE64, ehStateCount)];
    var machret := kernel.getExceptionState(thread);
    if machret != KERN_SUCCESS && kernel.checkAborts {
      FirstFailureUnique(statuses, 1);
      aborted := true;
      return;
    }

    // Recover from the exception by stepping over the faulting instruction.
    threadStateActual := threadStateActual.(rip := WrappingAdd64(threadStateActual.rip, FaultInstructionWidth));

    calls := calls + [ThreadSetState(thread, x86_THREAD_STATE64, threadStateActual, x86_THREAD_STATE64_COUNT)];
    machret := kernel.setThreadState(thread, threadStateActual);
    if machret != KERN_SUCCESS && kernel.checkAborts {
      FirstFailureUnique(statuses, 2);
      aborted := true;
      return;
    }

    calls := calls + [ReplyToNotification(msg, KERN_SUCCESS)];
  }

  // ---------------------------------------------------------------------------
  // SEHInitializeMachExceptions

  /** The four start-up steps, as the calls they make. */
  datatype InitCall =
    | PortAllocate(right: int)
    | PortInsertRight(name: Port, poly: Port, msgType: int)
    | SpawnListener
    | SetThreadExceptionPorts(mask: bv32, newPort: Port, behavior: i32, flavor: i32)

  /** The results of the four steps: mach_port_allocate's status and the name
      it leaves in s_ExceptionPort, mach_port_insert_right's status,
      pthread_create's return value, thread_set_exception_ports' status. */
  datatype InitResults = InitResults(
    allocateKr: KernReturn, allocatedName: Port, insertRightKr: KernReturn,
    createRet: int, setPortsKr: KernReturn)

  /** The steps in the order the source runs them, for a given port. */
  function InitSequence(port: Port, mask: bv32): (steps: seq<InitCall>)
    ensures |steps| == 4
  {
    [ PortAllocate(MACH_PORT_RIGHT_RECEIVE),
      PortInsertRight(port, port, MACH_MSG_TYPE_MAKE_SEND),
      SpawnListener,
      SetThreadExceptionPorts(mask, port, EXCEPTION_DEFAULT, MACHINE_THREAD_STATE) ]
  }

  /** Each step's status; zero is success for all four. */
  function Statuses(r: InitResults): (s: seq<int>)
    ensures |s| == 4
  {
    [r.allocateKr as int, r.insertRightKr as int, r.createRet, r.setPortsKr as int]
  }

  /** The index of the first failed status, or the length when all succeed. */
  function FirstFailure(statuses: seq<int>): (k: nat)
    ensures k <= |statuses|
    ensures forall j :: 0 <= j < k ==> statuses[j] == 0
    ensures k < |statuses| ==> statuses[k] != 0
  {
    if statuses == [] then 0
    else if statuses[0] != 0 then 0
    else 1 + FirstFailure(statuses[1..])
  }

  /** The first failure is the one index below which every status succeeded
      and at which one failed (or the end, when none failed). */
  lemma FirstFailureUnique(statuses: seq<int>, k: nat)
    requires k <= |statuses|
    requires forall j :: 0 <= j < k ==> statuses[j] == 0
    requires k < |statuses| ==> statuses[k] != 0
    ensures FirstFailure(statuses) == k
  {
  }

  /** How many steps run: all of them up to and including the first failure. */
  function StepsRun(statuses: seq<int>): (n: nat)
    ensures n <= |statuses|
  {
    var k := FirstFailure(statuses);
    if k < |statuses| then k + 1 else k
  }

  /** The process-wide state the start-up sequence writes. */
  class MachExceptionGlobals {
    /** s_ExceptionPort */
    var exceptionPort: Port
    /** The start-up calls made so far. */
    ghost var initCalls: seq<InitCall>

    constructor ()
      ensures exceptionPort == MACH_PORT_NULL && initCalls == []
    {
      exceptionPort := MACH_PORT_NULL;
      initCalls := [];
    }

    /** SEHInitializeMachExceptions: allocate the exception port, give it a
        send right, start the listener thread, then install the port as the
        calling thread's handler for `managedMask`. The first step that fails
        ends the sequence with false; true only when all four succeed. */
    method InitializeMachExceptions(results: InitResults, managedMask: bv32) returns (ok: bool)
      modifies this
      ensures exceptionPort == results.allocatedName
      ensures initCalls == old(initCalls) +
        InitSequence(results.allocatedName, managedMask)[..StepsRun(Statuses(results))]
      ensures ok <==> FirstFailure(Statuses(results)) == 4
    {
      initCalls := initCalls + [PortAllocate(MACH_PORT_RIGHT_RECEIVE)];
      exceptionPort := results.allocatedName;
      var machret := results.allocateKr;
      ghost var statuses := Statuses(results);
      if machret != KERN_SUCCESS {
        FirstFailureUnique(statuses, 0);
        return false;
      }

      initCalls := initCalls + [PortInsertRight(exceptionPort, exceptionPort, MACH_MSG_TYPE_MAKE_SEND)];
      machret := results.insertRightKr;
      if machret != KERN_SUCCESS {
        FirstFailureUnique(statuses, 1);
        return false;
      }

      initCalls := initCalls + [SpawnListener];
      var createret := results.createRet;
      if createret != 0 {
        FirstFailureUnique(statuses, 2);
        return false;
      }

      initCalls := initCalls + [SetThreadExceptionPorts(managedMask, exceptionPort, EXCEPTION_DEFAULT, MACHINE_THREAD_STATE)];
      machret := results.setPortsKr;
      if machret != KERN_SUCCESS {
        FirstFailureUnique(statuses, 3);
        return false;
      }

      FirstFailureUnique(statuses, 4);
      return true;
    }
  }

  /** Start-up succeeds exactly when every one of the four steps succeeds. */
  lemma InitSucceedsIffAllSucceed(results: InitResults)
    ensures FirstFailure(Statuses(results)) == 4 <==>
      results.allocateKr == KERN_SUCCESS && results.insertRightKr == KERN_SUCCESS &&
      results.createRet == 0 && results.setPortsKr == KERN_SUCCESS
  {
    var s := Statuses(results);
    var k := FirstFailure(s);
    if k < 4 {
      assert s[k] != 0;
      assert k == 0 || k == 1 || k == 2 || k == 3;
    } else {
      assert s[0] == 0 && s[1] == 0 && s[2] == 0 && s[3] == 0;
    }
  }

  /** Fail fast: every step run before the last one succeeded; when start-up
      fails, the last step run is the one that failed, and no later step runs. */
  lemma InitFailFast(results: InitResults)
    ensures var s := Statuses(results); var n := StepsRun(s);
      1 <= n &&
      (forall j :: 0 <= j < n - 1 ==> s[j] == 0) &&
      (FirstFailure(s) != 4 ==> n == FirstFailure(s) + 1 && s[n - 1] != 0)
  {
  }

  /** The listener thread is started before the port is installed as the
      thread's handler: whenever the install step runs, the spawn step ran
      immediately before it, and the install uses EXCEPTION_DEFAULT with the
      machine's thread-state flavour on the allocated port. */
  lemma ListenerSpawnedBeforeInstall(results: InitResults, mask: bv32, i: int)
    requires var run := InitSequence(results.allocatedName, mask)[..StepsRun(Statuses(results))];
      0 <= i < |run| && run[i].SetThreadExceptionPorts?
    ensures var run := InitSequence(results.allocatedName, mask)[..StepsRun(Statuses(results))];
      i == 3 && run[2] == SpawnListener &&
      run[i] == SetThreadExceptionPorts(mask, results.allocatedName, EXCEPTION_DEFAULT, MACHINE_THREAD_STATE) &&
      Statuses(results)[..3] == [0, 0, 0]
  {
  }
}
