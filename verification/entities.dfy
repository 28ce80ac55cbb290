/**
 * The simulator objects the sensors observe. The simulation kernel owns them;
 * a sensor only receives pointers to them with each event and compares those
 * pointers. A `Ref` stands for such a pointer: two references denote the same
 * object exactly when they are equal.
 */
module Entities {

  /** The address of a simulator object. */
  datatype Ref = Ref(addr: nat)

  /**
   * A C string: the address of its first character, which `==` on `char *`
   * compares, and the characters themselves, which `strcmp` compares.
   */
  datatype CStr = CStr(ptr: nat, text: string)

  /** `a == b` on two `char *`: the same storage, whatever the characters. */
  predicate SamePointer(a: CStr, b: CStr) { a.ptr == b.ptr }

  /** `strcmp(a, b) == 0`. */
  predicate SameText(a: CStr, b: CStr) { a.text == b.text }

  datatype ProcessType = ProcessType(ref: Ref, name: CStr, id: nat)

  datatype Process = Process(ref: Ref, ptype: ProcessType)

  /** A server count: a machine has at least one server. */
  type ServerCount = n: int | n > 0 witness 1

  /** A machine (server station) with its current number of free servers. */
  datatype Machine = Machine(ref: Ref, name: CStr, numServers: ServerCount, numFreeServers: int)

  datatype RequestType = RequestType(ref: Ref, name: CStr, id: nat)

  /** A service request; its caller is the process that issued it. */
  datatype Request = Request(rtype: RequestType, caller: Process,
                             creationTime: real, waitStartTime: real)

  datatype SignalType = SignalType(ref: Ref, name: CStr, id: nat)

  /** A signal; sender and sender type are null for signals from the environment. */
  datatype Signal = Signal(stype: SignalType, sender: Option<Ref>,
                           senderType: Option<ProcessType>, creationTime: real)

  datatype StateType = StateType(ref: Ref, id: nat)

  datatype Timer = Timer(ref: Ref)

  datatype Transition = Transition(ref: Ref)

  datatype Option<T> = None | Some(value: T)
}
