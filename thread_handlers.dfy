/** The table of exception handlers that were installed on a thread before this
    code hooked it, and the lookup that finds the live handler for one exception
    kind (CThreadMachExceptionHandlers). */
module ThreadHandlers {
  import opened MachTypes

  /** s_nPortsMax: the number of slots in each of the table's four arrays. */
  const MaxPorts: int := 6

  /** The record GetHandler fills in through its out-pointer; its four fields
      match the table's four parallel arrays one to one. */
  class MachExceptionHandler {
    var mask: bv32
    var handler: Port
    var behavior: i32
    var flavor: i32

    constructor (mask: bv32, handler: Port, behavior: i32, flavor: i32)
      ensures this.mask == mask && this.handler == handler
      ensures this.behavior == behavior && this.flavor == flavor
    {
      this.mask := mask;
      this.handler := handler;
      this.behavior := behavior;
      this.flavor := flavor;
    }
  }

  /** What mach_port_type reports for a port name: a status and, on success,
      the port's type bits. */
  datatype PortTypeReply = PortTypeReply(kr: KernReturn, portType: bv32)

  /** A port counts as alive only when the type query succeeded and did not
      report a dead name; a failed query counts as dead. */
  predicate IsLive(reply: PortTypeReply) {
    reply.kr == KERN_SUCCESS && reply.portType & MACH_PORT_TYPE_DEAD_NAME == 0
  }

  /** The entry's mask covers one of the requested exception bits and its
      handler is not the null port: the entries the lookup examines. */
  predicate IsCandidate(mask: bv32, handler: Port, bm: bv32) {
    mask & bm != 0 && handler != MACH_PORT_NULL
  }

  /** A candidate whose handler port is still alive. */
  predicate IsMatch(mask: bv32, handler: Port, bm: bv32, portType: Port -> PortTypeReply) {
    IsCandidate(mask, handler, bm) && IsLive(portType(handler))
  }

  /** No entry before index n matches. */
  predicate NoMatchBefore(ms: seq<bv32>, hs: seq<Port>, bm: bv32, portType: Port -> PortTypeReply, n: int)
    requires |ms| == |hs| && n <= |ms|
  {
    forall j :: 0 <= j < n ==> !IsMatch(ms[j], hs[j], bm, portType)
  }

  /** Reference definition of the lookup: the index of the first matching
      entry in capture order, or -1 when none matches. */
  function FirstMatch(ms: seq<bv32>, hs: seq<Port>, bm: bv32, portType: Port -> PortTypeReply): (r: int)
    requires |ms| == |hs|
    ensures -1 <= r < |ms|
    decreases |ms|
  {
    if |ms| == 0 then -1
    else if IsMatch(ms[0], hs[0], bm, portType) then 0
    else
      var rest := FirstMatch(ms[1..], hs[1..], bm, portType);
      if rest == -1 then -1 else rest + 1
  }

  /** A found index is a match and no earlier entry matches. */
  lemma {:induction false} FirstMatchFound(ms: seq<bv32>, hs: seq<Port>, bm: bv32, portType: Port -> PortTypeReply)
    requires |ms| == |hs|
    ensures FirstMatch(ms, hs, bm, portType) >= 0 ==>
      var r := FirstMatch(ms, hs, bm, portType);
      IsMatch(ms[r], hs[r], bm, portType) && NoMatchBefore(ms, hs, bm, portType, r)
    decreases |ms|
  {
    if |ms| > 0 && !IsMatch(ms[0], hs[0], bm, portType) {
      FirstMatchFound(ms[1..], hs[1..], bm, portType);
      var rest := FirstMatch(ms[1..], hs[1..], bm, portType);
      if rest >= 0 {
        forall j | 0 <= j < rest + 1 ensures !IsMatch(ms[j], hs[j], bm, portType) {
          if j > 0 {
            assert ms[j] == ms[1..][j - 1] && hs[j] == hs[1..][j - 1];
          }
        }
      }
    }
  }

  /** The lookup reports -1 exactly when no entry matches. */
  lemma {:induction false} FirstMatchNone(ms: seq<bv32>, hs: seq<Port>, bm: bv32, portType: Port -> PortTypeReply)
    requires |ms| == |hs|
    ensures FirstMatch(ms, hs, bm, portType) == -1 <==> NoMatchBefore(ms, hs, bm, portType, |ms|)
    decreases |ms|
  {
    if |ms| > 0 {
      FirstMatchNone(ms[1..], hs[1..], bm, portType);
      if !IsMatch(ms[0], hs[0], bm, portType) {
        if NoMatchBefore(ms[1..], hs[1..], bm, portType, |ms| - 1) {
          forall j | 0 <= j < |ms| ensures !IsMatch(ms[j], hs[j], bm, portType) {
            if j > 0 {
              assert ms[j] == ms[1..][j - 1] && hs[j] == hs[1..][j - 1];
            }
          }
        } else {
          var j :| 0 <= j < |ms| - 1 && IsMatch(ms[1..][j], hs[1..][j], bm, portType);
          assert IsMatch(ms[j + 1], hs[j + 1], bm, portType);
        }
      }
    }
  }

  /** First match wins: an index that matches with no earlier match is the
      lookup's answer, so the answer is unique. */
  lemma FirstMatchLeast(ms: seq<bv32>, hs: seq<Port>, bm: bv32, portType: Port -> PortTypeReply, k: int)
    requires |ms| == |hs|
    requires 0 <= k < |ms| && IsMatch(ms[k], hs[k], bm, portType) && NoMatchBefore(ms, hs, bm, portType, k)
    ensures FirstMatch(ms, hs, bm, portType) == k
  {
    FirstMatchFound(ms, hs, bm, portType);
    FirstMatchNone(ms, hs, bm, portType);
  }

  /** The source asserts that every entry the lookup examines (a candidate
      reached before any match) is not this process's own exception port. */
  predicate SelfNeverExamined(ms: seq<bv32>, hs: seq<Port>, bm: bv32, portType: Port -> PortTypeReply, self: Port)
    requires |ms| == |hs|
  {
    forall i :: 0 <= i < |ms| && IsCandidate(ms[i], hs[i], bm) && NoMatchBefore(ms, hs, bm, portType, i) ==> hs[i] != self
  }

  /** The single-bit mask `1 << eException` that GetHandler searches with. */
  function ExceptionMask(eException: i32): (bm: bv32)
    requires 0 <= eException < 32
    ensures bm != 0 && bm & (bm - 1) == 0
  {
    1 << eException as int
  }

  /** Exception handlers previously registered on a thread: a count and four
      parallel fixed-size arrays, exactly as thread_get_exception_ports fills them. */
  class ThreadMachExceptionHandlers {
    var nPorts: u32
    const masks: array<bv32>
    const handlers: array<Port>
    const behaviors: array<i32>
    const flavors: array<i32>

    /** The four arrays have s_nPortsMax slots each. */
    ghost predicate Valid()
      reads this
    {
      masks.Length == MaxPorts && handlers.Length == MaxPorts &&
      behaviors.Length == MaxPorts && flavors.Length == MaxPorts &&
      // The four arrays are distinct objects (they are distinct struct members).
      masks as object != handlers as object && masks as object != behaviors as object &&
      masks as object != flavors as object && handlers as object != behaviors as object &&
      handlers as object != flavors as object && behaviors != flavors
    }

    /** A load has left a count that fits the arrays; lookups need this. */
    ghost predicate Loaded()
      reads this
    {
      Valid() && nPorts as int <= MaxPorts
    }

    /** The masks and handlers of the loaded entries, in capture order. */
    ghost function Masks(): (ms: seq<bv32>)
      reads this, masks
      requires Loaded()
      ensures |ms| == nPorts as int
    {
      masks[..nPorts]
    }

    ghost function Handlers(): (hs: seq<Port>)
      reads this, handlers
      requires Loaded()
      ensures |hs| == nPorts as int
    {
      handlers[..nPorts]
    }

    /** The constructor sets the unsigned count to -1, which wraps to the
        largest 32-bit value: no lookup is allowed until a load. */
    constructor ()
      ensures Valid() && !Loaded()
      ensures nPorts as int == U32_MODULUS - 1
      ensures fresh(masks) && fresh(handlers) && fresh(behaviors) && fresh(flavors)
    {
      nPorts := WrapU32(-1);
      masks := new bv32[MaxPorts];
      handlers := new Port[MaxPorts];
      behaviors := new i32[MaxPorts];
      flavors := new i32[MaxPorts];
    }

    /** LoadThreadSelf: thread_get_exception_ports copies the thread's current
        handlers into the count and the four arrays. The kernel's answer is
        given as parameters: its status and the entries it reports. */
    method LoadThreadSelf(kr: KernReturn, ms: seq<bv32>, hs: seq<Port>, bs: seq<i32>, fs: seq<i32>)
      returns (r: KernReturn)
      requires Valid()
      requires |ms| == |hs| == |bs| == |fs| <= MaxPorts
      modifies this, masks, handlers, behaviors, flavors
      ensures Valid() && r == kr
      ensures kr == KERN_SUCCESS ==>
        Loaded() && nPorts as int == |ms| &&
        masks[..nPorts] == ms && handlers[..nPorts] == hs &&
        behaviors[..nPorts] == bs && flavors[..nPorts] == fs
      ensures kr == KERN_SUCCESS ==>
        masks[|ms|..] == old(masks[|ms|..]) && handlers[|ms|..] == old(handlers[|ms|..]) &&
        behaviors[|ms|..] == old(behaviors[|ms|..]) && flavors[|ms|..] == old(flavors[|ms|..])
      ensures kr != KERN_SUCCESS ==> unchanged(this, masks, handlers, behaviors, flavors)
    {
      r := kr;
      if kr != KERN_SUCCESS {
        return;
      }
      var n := |ms|;
      for i := 0 to n
        invariant forall k :: 0 <= k < i ==> masks[k] == ms[k]
        invariant forall k :: 0 <= k < i ==> handlers[k] == hs[k]
        invariant forall k :: 0 <= k < i ==> behaviors[k] == bs[k]
        invariant forall k :: 0 <= k < i ==> flavors[k] == fs[k]
        invariant forall k :: n <= k < MaxPorts ==> masks[k] == old(masks[k]) && handlers[k] == old(handlers[k])
        invariant forall k :: n <= k < MaxPorts ==> behaviors[k] == old(behaviors[k]) && flavors[k] == old(flavors[k])
      {
        masks[i] := ms[i];
        handlers[i] := hs[i];
        behaviors[i] := bs[i];
        flavors[i] := fs[i];
      }
      nPorts := n as u32;
    }

    /** GetIndexOfHandler: scan the loaded entries in order and return the
        index of the first one whose mask covers bm, whose handler is not null
        and whose handler port is not dead; -1 when there is none. */
    method GetIndexOfHandler(bm: bv32, portType: Port -> PortTypeReply, exceptionPort: Port) returns (idx: int)
      requires Loaded()
      requires SelfNeverExamined(Masks(), Handlers(), bm, portType, exceptionPort)
      ensures idx == -1 || 0 <= idx < nPorts as int
      ensures idx >= 0 ==>
        IsMatch(Masks()[idx], Handlers()[idx], bm, portType) && NoMatchBefore(Masks(), Handlers(), bm, portType, idx)
      ensures idx == -1 <==> NoMatchBefore(Masks(), Handlers(), bm, portType, nPorts as int)
      ensures idx >= 0 ==> handlers[idx] != exceptionPort
      ensures idx == FirstMatch(Masks(), Handlers(), bm, portType)
    {
      ghost var ms, hs := Masks(), Handlers();
      var i: u32 := 0;
      while i < nPorts
        invariant i <= nPorts
        invariant NoMatchBefore(ms, hs, bm, portType, i as int)
      {
        assert masks[i] == ms[i] && handlers[i] == hs[i];
        if IsCandidate(masks[i], handlers[i], bm) {
          assert handlers[i] != exceptionPort;
          var reply := portType(handlers[i]);
          if IsLive(reply) {
            FirstMatchLeast(ms, hs, bm, portType, i as int);
            return i as int;
          }
        }
        i := i + 1;
      }
      FirstMatchNone(ms, hs, bm, portType);
      return -1;
    }

    /** GetHandler: look up the handler for one exception kind. On success the
        caller's record receives the four fields of the first live matching
        entry and true is returned; otherwise the record is left untouched. */
    method GetHandler(eException: i32, pHandler: MachExceptionHandler, portType: Port -> PortTypeReply, exceptionPort: Port)
      returns (found: bool)
      requires Loaded()
      requires 0 <= eException < 32
      requires SelfNeverExamined(Masks(), Handlers(), ExceptionMask(eException), portType, exceptionPort)
      modifies pHandler
      ensures found <==> FirstMatch(Masks(), Handlers(), ExceptionMask(eException), portType) != -1
      ensures found ==>
        var i := FirstMatch(Masks(), Handlers(), ExceptionMask(eException), portType);
        pHandler.mask == masks[i] && pHandler.handler == handlers[i] &&
        pHandler.behavior == behaviors[i] && pHandler.flavor == flavors[i]
      ensures found ==>
        pHandler.mask & ExceptionMask(eException) != 0 && pHandler.handler != MACH_PORT_NULL &&
        IsLive(portType(pHandler.handler)) && pHandler.handler != exceptionPort
      ensures !found ==> unchanged(pHandler)
    {
      var bmExceptionMask := ExceptionMask(eException);
      var idxHandler := GetIndexOfHandler(bmExceptionMask, portType, exceptionPort);
      if idxHandler == -1 {
        return false;
      }
      pHandler.mask := masks[idxHandler];
      pHandler.handler := handlers[idxHandler];
      pHandler.behavior := behaviors[idxHandler];
      pHandler.flavor := flavors[idxHandler];
      return true;
    }
  }
}
