/**
 * What the simulator reports to the sensors: the trace actions the event
 * dispatcher is called with, and the handler calls it turns them into.
 */
module Events {
  import opened Entities

  // Trace actions. The simulator library defines the numbering; these
  // numbers are this model's own, in a fixed order.
  const TraceSchedulerInit: int := 0
  const TraceSchedulerStop: int := 1
  const TraceDeadlock: int := 2
  const TraceTimeChange: int := 3
  const TraceProcessCreate: int := 4
  const TraceProcessStop: int := 5
  const TraceMachineCreate: int := 6
  const TraceMachineStop: int := 7
  const TraceStateChange: int := 8
  const TraceSignalSend: int := 9
  const TraceSignalNotSent: int := 10
  const TraceSignalReceive: int := 11
  const TraceSignalConsume: int := 12
  const TraceSignalSave: int := 13
  const TraceSignalDrop: int := 14
  const TraceSignalLose: int := 15
  const TraceSpontTrans: int := 16
  const TraceContSignal: int := 17
  const TraceServiceRequest: int := 18
  const TraceServiceFinish: int := 19
  const TraceServiceStart: int := 20
  const TraceServiceInterrupt: int := 21
  const TraceTimerSet: int := 22
  const TraceTimerReset: int := 23
  const TraceTimerFire: int := 24
  const TraceTimerRemove: int := 25
  const TraceProcedureCall: int := 26
  const TraceProcedureReturn: int := 27
  const TraceMax: int := 28

  /**
   * A call of one of the sensor handlers (EvSchedInit ... EvTimerFire),
   * with its arguments. A null creator or sender is `None`.
   */
  datatype Event =
    | SchedInit
    | SchedStop
    | End
    | TimeChange(newTime: real)
    | ProcessCreate(process: Process, creator: Option<Process>)
    | ProcessDelete(process: Process)
    | StateChange(process: Process, newState: StateType)
    | SpontTrans(process: Process)
    | ContSignal(process: Process)
    | SignalSend(sender: Option<Process>, receiver: Process, signal: Signal)
    | SignalConsume(process: Process, signal: Signal)
    | SignalSave(process: Process, signal: Signal)
    | SignalDrop(process: Process, signal: Signal)
    | SignalReject(process: Process, signal: Signal)
    | SignalReceive(process: Process, signal: Signal)
    | MachineCreate(machine: Machine)
    | MachineDelete(machine: Machine)
    | ServiceRequest(machine: Machine, request: Request)
    | ServiceFinish(machine: Machine, request: Request)
    | ServiceStart(machine: Machine, request: Request)
    | ServiceInterrupt(machine: Machine, request: Request)
    | TimerSet(timer: Timer)
    | TimerReset(timer: Timer)
    | TimerFire(timer: Timer, signal: Signal)

  // ---------------------------------------------------------------------
  // Lazy binding of a named entity
  // ---------------------------------------------------------------------

  /**
   * A sensor configured by name holds a null reference until the first
   * create event of an entity whose name matches; from then on it keeps
   * that entity and filters by identity.
   */
  function Bind(bound: Option<Ref>, matches: bool, candidate: Ref): (b: Option<Ref>)
    ensures bound.Some? ==> b == bound
    ensures bound.None? ==> (b.Some? <==> matches)
    ensures b.Some? && bound.None? ==> b.value == candidate
  {
    if bound.None? && matches then Some(candidate) else bound
  }

  /** `strcmp(name, configured) == 0` for a configured name that may be null. */
  predicate NameMatches(configured: Option<CStr>, name: CStr)
  {
    configured.Some? && SameText(name, configured.value)
  }

  /** A type filter: a null filter admits every type, a bound one only itself. */
  predicate TypeAdmits(filter: Option<Ref>, t: Ref)
  {
    filter.None? || filter == Some(t)
  }

  /** The reference after a run of create events, each a candidate and whether its name matched. */
  function BindAll(bound: Option<Ref>, candidates: seq<(Ref, bool)>): Option<Ref>
    decreases |candidates|
  {
    if |candidates| == 0 then bound
    else BindAll(Bind(bound, candidates[0].1, candidates[0].0), candidates[1..])
  }

  /** Candidate `k` is the first whose name matched. */
  predicate IsFirstMatch(candidates: seq<(Ref, bool)>, k: int)
  {
    0 <= k < |candidates| && candidates[k].1 &&
    forall j :: 0 <= j < k ==> !candidates[j].1
  }

  /** Once bound, a reference survives every later create event. */
  lemma {:induction false} BindAllKeeps(r: Ref, candidates: seq<(Ref, bool)>)
    ensures BindAll(Some(r), candidates) == Some(r)
    decreases |candidates|
  {
    if |candidates| > 0 {
      BindAllKeeps(r, candidates[1..]);
    }
  }

  /**
   * Starting unbound, the reference ends bound to the first matching
   * candidate, and stays null when no candidate matched.
   */
  lemma {:induction false} BindAllFirstMatch(candidates: seq<(Ref, bool)>)
    ensures (forall j :: 0 <= j < |candidates| ==> !candidates[j].1) ==> BindAll(None, candidates) == None
    ensures forall k :: IsFirstMatch(candidates, k) ==> BindAll(None, candidates) == Some(candidates[k].0)
    decreases |candidates|
  {
    if |candidates| > 0 {
      var rest := candidates[1..];
      if candidates[0].1 {
        BindAllKeeps(candidates[0].0, rest);
      } else {
        BindAllFirstMatch(rest);
        forall k | IsFirstMatch(candidates, k)
          ensures BindAll(None, candidates) == Some(candidates[k].0)
        {
          assert IsFirstMatch(rest, k - 1);
        }
      }
    }
  }
}
