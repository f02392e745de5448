/** Machine integer widths and the Mach platform constants the handler code uses.
    The values are those of the macOS SDK headers for x86_64 (mach/kern_return.h,
    mach/exception_types.h, mach/port.h, mach/message.h, mach/i386/thread_status.h). */
module MachTypes {

  /** natural_t, mach_msg_type_number_t, mach_port_t */
  newtype u32 = x: int | 0 <= x < 0x1_0000_0000
  /** __uint64_t, the width of every x86_64 general register */
  newtype u64 = x: int | 0 <= x < 0x1_0000_0000_0000_0000
  /** int: kern_return_t, exception_type_t, exception_behavior_t, thread_state_flavor_t */
  newtype i32 = x: int | -0x8000_0000 <= x < 0x8000_0000

  /** A port name in the task's IPC space; threads are named by ports too. */
  type Port = u32
  type KernReturn = i32

  datatype Option<T> = None | Some(value: T)

  const U32_MODULUS: int := 0x1_0000_0000
  const U64_MODULUS: int := 0x1_0000_0000_0000_0000

  /** The C conversion of an arbitrary integer to an unsigned 32-bit value. */
  function WrapU32(x: int): (r: u32)
    ensures r as int % U32_MODULUS == x % U32_MODULUS
  {
    (x % U32_MODULUS) as u32
  }

  const KERN_SUCCESS: KernReturn := 0
  const MACH_PORT_NULL: Port := 0

  // Exception kinds (exception_type_t).
  const EXC_BAD_ACCESS: i32 := 1
  const EXC_BAD_INSTRUCTION: i32 := 2
  const EXC_ARITHMETIC: i32 := 3
  const EXC_EMULATION: i32 := 4
  const EXC_SOFTWARE: i32 := 5
  const EXC_BREAKPOINT: i32 := 6
  const EXC_SYSCALL: i32 := 7
  const EXC_MACH_SYSCALL: i32 := 8

  // Exception behaviours (exception_behavior_t).
  const EXCEPTION_DEFAULT: i32 := 1
  const EXCEPTION_STATE: i32 := 2
  const EXCEPTION_STATE_IDENTITY: i32 := 3

  // x86_64 thread-state flavours and their sizes in 32-bit words.
  const x86_THREAD_STATE64: i32 := 4
  const x86_EXCEPTION_STATE64: i32 := 6
  const x86_THREAD_STATE: i32 := 7
  const MACHINE_THREAD_STATE: i32 := x86_THREAD_STATE
  /** sizeof(x86_thread_state64_t) / sizeof(unsigned): 21 registers of 8 bytes */
  const x86_THREAD_STATE64_COUNT: u32 := 42
  /** sizeof(x86_exception_state64_t) / sizeof(unsigned): 2 + 2 + 4 + 8 bytes */
  const x86_EXCEPTION_STATE64_COUNT: u32 := 4

  // Port rights and port-type bits.
  const MACH_PORT_RIGHT_RECEIVE: int := 1
  const MACH_MSG_TYPE_MAKE_SEND: int := 20
  /** MACH_PORT_TYPE(MACH_PORT_RIGHT_DEAD_NAME) == 1 << (4 + 16) */
  const MACH_PORT_TYPE_DEAD_NAME: bv32 := 0x0010_0000
}
