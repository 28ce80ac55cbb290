/**
 * The event dispatcher: the simulator's trace interface. Sensors register
 * once; registration files each sensor under every trace action it asks
 * for. Each LogEvent overload checks the action it was called with, then
 * calls one handler on every sensor filed under that action, in list
 * order. A report-and-reset is triggered from the time-change overload.
 *
 * What the dispatcher did is recorded in a ghost log of steps: a handler
 * call on one sensor, a reset of all sensors, or a report (whose text is
 * not part of this model).
 */
module Dispatcher {
  import opened Entities
  import opened Accumulators
  import opened Events
  import opened Sensors
  import opened MachineSensors
  import opened ProcessSensors
  import opened ActivitySensors
  import opened Controller

  /** One call of one LogEvent overload: the trace action and the overload's arguments. */
  datatype LogCall =
    | SchedulerCall(action: int)
    | TimeChangeCall(action: int, newTime: real)
    | MachineCall(action: int, machine: Machine)
    | ProcessCall(action: int, process: Process)
    | CreateCall(action: int, process: Process, creator: Option<Process>)
    | ProcedureCall(action: int)
    | RequestCall(action: int, machine: Machine, request: Request)
    | SendCall(action: int, sender: Option<Process>, receiver: Process, signal: Signal)
    | NotSentCall(action: int)
    | SignalCall(action: int, process: Process, signal: Signal)
    | ConsumeCall(action: int, process: Process, signal: Signal)
    | TransitionCall(action: int, process: Process)
    | TimerCall(action: int, timer: Timer)
    | TimerFireCall(action: int, timer: Timer, signal: Signal)
    | StateChangeCall(action: int, process: Process, newState: StateType)

  /**
   * The actions an overload knows; any other action makes it abort. The
   * two procedure overloads ignore their action and never abort.
   */
  predicate Accepts(call: LogCall)
  {
    var a := call.action;
    match call
    case SchedulerCall(_) => a in {TraceSchedulerInit, TraceSchedulerStop, TraceDeadlock}
    case TimeChangeCall(_, _) => a == TraceTimeChange
    case MachineCall(_, _) => a in {TraceMachineCreate, TraceMachineStop}
    case ProcessCall(_, _) => a == TraceProcessStop
    case CreateCall(_, _, _) => a == TraceProcessCreate
    case ProcedureCall(_) => true
    case RequestCall(_, _, _) =>
      a in {TraceServiceRequest, TraceServiceStart, TraceServiceInterrupt, TraceServiceFinish}
    case SendCall(_, _, _, _) => a == TraceSignalSend
    case NotSentCall(_) => a == TraceSignalNotSent
    case SignalCall(_, _, _) =>
      a in {TraceSignalReceive, TraceSignalConsume, TraceSignalSave, TraceSignalDrop,
            TraceSignalLose, TraceTimerRemove}
    case ConsumeCall(_, _, _) => a == TraceSignalConsume
    case TransitionCall(_, _) => a in {TraceSpontTrans, TraceContSignal}
    case TimerCall(_, _) => a in {TraceTimerSet, TraceTimerReset, TraceSignalSend}
    case TimerFireCall(_, _, _) => a == TraceTimerFire
    case StateChangeCall(_, _, _) => a == TraceStateChange
  }

  /** The actions 0 .. n-1; with n = TraceMax, every trace flag. */
  function ActionsBelow(n: nat): (r: set<int>)
    ensures forall a :: a in r <==> 0 <= a < n
  {
    if n == 0 then {} else ActionsBelow(n - 1) + {n - 1}
  }

  /** The overloads that fan out only while their action's trace flag is set. */
  predicate Flagged(call: LogCall)
  {
    call.SendCall? || call.TimerFireCall? || call.StateChangeCall?
  }

  /**
   * What a LogEvent call does with its subscribers: call the handlers of
   * `events`, in order, on the sensors filed under `list` (then write a
   * report if `report`); do nothing; or abort on an action the overload
   * does not know.
   */
  datatype Routing = FanOut(list: int, events: seq<Event>, report: bool) | Ignore | WrongAction

  function Route(call: LogCall, flags: set<int>): (r: Routing)
    ensures r.WrongAction? <==> !Accepts(call) && !(call.TimeChangeCall? && call.newTime < 0.0)
    ensures r.FanOut? ==> r.list == call.action && 0 <= r.list < TraceMax
    ensures r.FanOut? ==> (r.report <==> r.list == TraceSchedulerStop)
    ensures r.FanOut? ==> |r.events| == if r.list == TraceSchedulerStop then 2 else 1
    ensures call.ProcedureCall? || call.NotSentCall? ==> !r.FanOut?
    ensures Flagged(call) && Accepts(call) ==> (r.FanOut? <==> call.action in flags)
  {
    var a := call.action;
    match call
    case SchedulerCall(_) =>
      if a == TraceSchedulerInit then FanOut(a, [SchedInit], false)
      else if a == TraceSchedulerStop then FanOut(a, [SchedStop, End], true)
      else if a == TraceDeadlock then Ignore
      else WrongAction
    case TimeChangeCall(_, t) =>
      if t < 0.0 then Ignore
      else if a == TraceTimeChange then FanOut(a, [TimeChange(t)], false)
      else WrongAction
    case MachineCall(_, m) =>
      if a == TraceMachineCreate then FanOut(a, [MachineCreate(m)], false)
      else if a == TraceMachineStop then FanOut(a, [MachineDelete(m)], false)
      else WrongAction
    case ProcessCall(_, p) =>
      if a == TraceProcessStop then FanOut(a, [ProcessDelete(p)], false) else WrongAction
    case CreateCall(_, p, c) =>
      if a == TraceProcessCreate then FanOut(a, [ProcessCreate(p, c)], false) else WrongAction
    case ProcedureCall(_) => Ignore
    case RequestCall(_, m, q) =>
      if a == TraceServiceRequest then FanOut(a, [ServiceRequest(m, q)], false)
      else if a == TraceServiceStart then FanOut(a, [ServiceStart(m, q)], false)
      else if a == TraceServiceInterrupt then FanOut(a, [ServiceInterrupt(m, q)], false)
      else if a == TraceServiceFinish then FanOut(a, [ServiceFinish(m, q)], false)
      else WrongAction
    case SendCall(_, from, to, sig) =>
      if a != TraceSignalSend then WrongAction
      else if TraceSignalSend in flags then FanOut(a, [SignalSend(from, to, sig)], false)
      else Ignore
    case NotSentCall(_) =>
      if a == TraceSignalNotSent then Ignore else WrongAction
    case SignalCall(_, p, sig) =>
      if a == TraceSignalReceive then FanOut(a, [SignalReceive(p, sig)], false)
      else if a == TraceSignalConsume then FanOut(a, [SignalConsume(p, sig)], false)
      else if a == TraceSignalSave then FanOut(a, [SignalSave(p, sig)], false)
      else if a == TraceSignalDrop then FanOut(a, [SignalDrop(p, sig)], false)
      else if a == TraceSignalLose then FanOut(a, [SignalReject(p, sig)], false)
      else if a == TraceTimerRemove then FanOut(a, [SignalDrop(p, sig)], false)
      else WrongAction
    case ConsumeCall(_, p, sig) =>
      if a == TraceSignalConsume then FanOut(a, [SignalConsume(p, sig)], false) else WrongAction
    case TransitionCall(_, p) =>
      if a == TraceSpontTrans then FanOut(a, [SpontTrans(p)], false)
      else if a == TraceContSignal then FanOut(a, [ContSignal(p)], false)
      else WrongAction
    case TimerCall(_, tm) =>
      if a == TraceTimerSet then FanOut(a, [TimerSet(tm)], false)
      else if a == TraceTimerReset then FanOut(a, [TimerReset(tm)], false)
      else if a == TraceSignalSend then Ignore
      else WrongAction
    case TimerFireCall(_, tm, sig) =>
      if a != TraceTimerFire then WrongAction
      else if TraceTimerFire in flags then FanOut(a, [TimerFire(tm, sig)], false)
      else Ignore
    case StateChangeCall(_, p, st) =>
      if a != TraceStateChange then WrongAction
      else if TraceStateChange in flags then FanOut(a, [StateChange(p, st)], false)
      else Ignore
  }

  /** The four service actions reach four different handlers, each with the call's machine and request. */
  lemma {:induction false} ServiceRouting(m: Machine, q: Request, flags: set<int>)
    ensures var rq := Route(RequestCall(TraceServiceRequest, m, q), flags);
      var st := Route(RequestCall(TraceServiceStart, m, q), flags);
      var it := Route(RequestCall(TraceServiceInterrupt, m, q), flags);
      var fi := Route(RequestCall(TraceServiceFinish, m, q), flags);
      rq.FanOut? && st.FanOut? && it.FanOut? && fi.FanOut? &&
      rq.events == [ServiceRequest(m, q)] && st.events == [ServiceStart(m, q)] &&
      it.events == [ServiceInterrupt(m, q)] && fi.events == [ServiceFinish(m, q)]
  {
  }

  /** A lost signal reaches the reject handler and a removed timer signal the drop handler. */
  lemma {:induction false} SignalRouting(p: Process, sig: Signal, flags: set<int>)
    ensures Route(SignalCall(TraceSignalLose, p, sig), flags).events == [SignalReject(p, sig)]
    ensures Route(SignalCall(TraceTimerRemove, p, sig), flags).events == [SignalDrop(p, sig)]
    ensures Route(SignalCall(TraceSignalDrop, p, sig), flags).events == [SignalDrop(p, sig)]
  {
  }

  /** One thing the dispatcher did. */
  datatype Step = Delivered(sensor: SensorRef, event: Event) | ResetAll(time: real) | Reported

  /** The sensors, in registration list order, that asked for `action`. */
  function Subscribers(sensors: seq<SensorRef>, action: int): (subs: seq<SensorRef>)
    ensures |subs| <= |sensors|
  {
    if |sensors| == 0 then []
    else if Notify(sensors[0], action) then [sensors[0]] + Subscribers(sensors[1..], action)
    else Subscribers(sensors[1..], action)
  }

  /** Every action's list holds exactly its subscribers, in registration order. */
  predicate Filed(registered: seq<SensorRef>, lists: seq<seq<SensorRef>>)
  {
    |lists| == TraceMax && forall a | 0 <= a < TraceMax :: lists[a] == Subscribers(registered, a)
  }

  /**
   * The lists after `s` is put at the front of every list of an action it
   * asked for (the loop of RegisterSensor).
   */
  method FileFirst(lists: seq<seq<SensorRef>>, s: SensorRef) returns (subs: seq<seq<SensorRef>>)
    requires |lists| == TraceMax
    ensures |subs| == TraceMax
    ensures forall a | 0 <= a < TraceMax ::
      subs[a] == if Notify(s, a) then [s] + lists[a] else lists[a]
  {
    subs := lists;
    var i := TraceMax;
    while i > 0
      invariant 0 <= i <= TraceMax && |subs| == TraceMax
      invariant forall a | 0 <= a < i :: subs[a] == lists[a]
      invariant forall a | i <= a < TraceMax ::
        subs[a] == if Notify(s, a) then [s] + lists[a] else lists[a]
    {
      i := i - 1;
      if Notify(s, i) {
        subs := subs[i := [s] + subs[i]];
      }
    }
  }

  /** Filing a new sensor first keeps the lists in registration order. */
  lemma FiledFirst(registered: seq<SensorRef>, lists: seq<seq<SensorRef>>, s: SensorRef, subs: seq<seq<SensorRef>>)
    requires Filed(registered, lists) && |subs| == TraceMax
    requires forall a | 0 <= a < TraceMax ::
      subs[a] == if Notify(s, a) then [s] + lists[a] else lists[a]
    ensures Filed([s] + registered, subs)
  {
    assert ([s] + registered)[1..] == registered;
  }

  lemma {:induction false} SubscribersExactly(sensors: seq<SensorRef>, action: int, s: SensorRef)
    ensures s in Subscribers(sensors, action) <==> s in sensors && Notify(s, action)
    decreases |sensors|
  {
    if |sensors| > 0 {
      SubscribersExactly(sensors[1..], action, s);
      assert sensors == [sensors[0]] + sensors[1..];
    }
  }

  /** The handler calls of one event on each sensor of `subs`, in order. */
  function Each(subs: seq<SensorRef>, ev: Event): (steps: seq<Step>)
    ensures |steps| == |subs|
  {
    if |subs| == 0 then [] else Each(subs[..|subs| - 1], ev) + [Delivered(subs[|subs| - 1], ev)]
  }

  /** The handler calls of each event in turn on every sensor of `subs`. */
  function Deliveries(subs: seq<SensorRef>, evs: seq<Event>): (steps: seq<Step>)
    ensures |steps| == |subs| * |evs|
  {
    if |evs| == 0 then [] else Deliveries(subs, evs[..|evs| - 1]) + Each(subs, evs[|evs| - 1])
  }

  /** Each grows by one call as its list grows by one sensor. */
  lemma EachStep(subs: seq<SensorRef>, j: nat, ev: Event)
    requires j < |subs|
    ensures Each(subs[..j + 1], ev) == Each(subs[..j], ev) + [Delivered(subs[j], ev)]
  {
    assert subs[..j + 1][..j] == subs[..j];
  }

  lemma {:induction false} EachExactly(subs: seq<SensorRef>, ev: Event, step: Step)
    ensures step in Each(subs, ev) <==> step.Delivered? && step.sensor in subs && step.event == ev
    decreases |subs|
  {
    if |subs| > 0 {
      EachExactly(subs[..|subs| - 1], ev, step);
      assert subs == subs[..|subs| - 1] + [subs[|subs| - 1]];
    }
  }

  lemma {:induction false} DeliveriesExactly(subs: seq<SensorRef>, evs: seq<Event>, step: Step)
    ensures step in Deliveries(subs, evs) <==> step.Delivered? && step.sensor in subs && step.event in evs
    decreases |evs|
  {
    if |evs| > 0 {
      DeliveriesExactly(subs, evs[..|evs| - 1], step);
      EachExactly(subs, evs[|evs| - 1], step);
      assert evs == evs[..|evs| - 1] + [evs[|evs| - 1]];
    }
  }

  /** No sensor asks for time changes. */
  lemma {:induction false} NoTimeChangeSubscribers(sensors: seq<SensorRef>)
    ensures Subscribers(sensors, TraceTimeChange) == []
    decreases |sensors|
  {
    if |sensors| > 0 {
      NoTimeChangeSubscribers(sensors[1..]);
      match sensors[0]
      case EventRef(x) =>
        assert !x.NotifyOnEvent(TraceTimeChange);
      case ActivityRef(x) =>
        assert !x.NotifyOnEvent(TraceTimeChange);
      case _ =>
    }
  }

  /** The reporting condition of the time-change overload. */
  predicate ReportDue(interval: real, lastReport: real, newTime: real)
  {
    interval != 0.0 && newTime - lastReport > interval
  }

  /** What a time change does before its handlers run: report and reset when due. */
  function Prelude(call: LogCall, interval: real, lastReport: real, now: real): (steps: seq<Step>)
    ensures steps != [] <==> call.TimeChangeCall? && call.newTime >= 0.0 && ReportDue(interval, lastReport, call.newTime)
    ensures steps != [] ==> steps == [Reported, ResetAll(now)]
  {
    if call.TimeChangeCall? && call.newTime >= 0.0 && ReportDue(interval, lastReport, call.newTime)
    then [Reported, ResetAll(now)] else []
  }

  /** The steps a routing takes on the subscriber lists. */
  function Steps(r: Routing, lists: seq<seq<SensorRef>>): (steps: seq<Step>)
    requires r.FanOut? ==> 0 <= r.list < |lists|
    ensures !r.FanOut? ==> steps == []
    ensures r.FanOut? ==> |steps| == |lists[r.list]| * |r.events| + (if r.report then 1 else 0)
  {
    if r.FanOut? then Deliveries(lists[r.list], r.events) + (if r.report then [Reported] else [])
    else []
  }

  /**
   * Whom a LogEvent call reaches: sensor s gets event e exactly when the
   * call fans out, s is registered and asked for the call's action, and e
   * is one of the routed events.
   */
  lemma {:induction false} RoutedTo(sensors: seq<SensorRef>, lists: seq<seq<SensorRef>>, call: LogCall,
                                    flags: set<int>, s: SensorRef, e: Event)
    requires |lists| == TraceMax
    requires forall a | 0 <= a < TraceMax :: lists[a] == Subscribers(sensors, a)
    ensures var r := Route(call, flags);
      Delivered(s, e) in Steps(r, lists) <==>
        r.FanOut? && s in sensors && Notify(s, call.action) && e in r.events
  {
    var r := Route(call, flags);
    if r.FanOut? {
      DeliveriesExactly(lists[r.list], r.events, Delivered(s, e));
      SubscribersExactly(sensors, r.list, s);
    }
  }

  /** Sensor `t` owns the same objects as before and none of them changed. */
  twostate predicate Kept(t: SensorRef)
    reads SReads(t), SRepr(t)
  {
    SRepr(t) == old(SRepr(t)) && unchanged(SRepr(t))
  }

  // ---------------------------------------------------------------------
  // Subscriptions against handlers
  // ---------------------------------------------------------------------

  /** The call fans out to at least one handler that the class of `s` overrides. */
  predicate Handles(s: SensorRef, call: LogCall, flags: set<int>)
  {
    var r := Route(call, flags);
    r.FanOut? && exists e | e in r.events :: Overrides(s, e)
  }

  /**
   * Which handler a fanned-out call reaches, by action: each action reaches
   * one handler, except that the scheduler's stop also reaches the end
   * handler and a removed timer's signal reaches the drop handler.
   */
  lemma RoutedKinds(call: LogCall, flags: set<int>)
    requires Route(call, flags).FanOut?
    ensures var r := Route(call, flags);
      var e := r.events[0];
      (|r.events| == 2 ==> r.events == [SchedStop, End]) &&
      (e.ProcessCreate? <==> call.action == TraceProcessCreate) &&
      (e.ProcessDelete? <==> call.action == TraceProcessStop) &&
      (e.MachineCreate? <==> call.action == TraceMachineCreate) &&
      (e.MachineDelete? <==> call.action == TraceMachineStop) &&
      (e.ServiceRequest? <==> call.action == TraceServiceRequest) &&
      (e.ServiceStart? <==> call.action == TraceServiceStart) &&
      (e.ServiceInterrupt? <==> call.action == TraceServiceInterrupt) &&
      (e.ServiceFinish? <==> call.action == TraceServiceFinish) &&
      (e.SignalReceive? <==> call.action == TraceSignalReceive) &&
      (e.SignalConsume? <==> call.action == TraceSignalConsume) &&
      (e.SignalDrop? <==> call.action == TraceSignalDrop || call.action == TraceTimerRemove) &&
      (e.StateChange? <==> call.action == TraceStateChange)
  {
  }

  /** A fanned-out call is handled by `s` just when its first or, for the scheduler's stop, second handler is overridden. */
  lemma HandlesByEvents(s: SensorRef, call: LogCall, flags: set<int>)
    requires Route(call, flags).FanOut?
    ensures var r := Route(call, flags);
      Handles(s, call, flags) <==>
        Overrides(s, r.events[0]) || (|r.events| == 2 && Overrides(s, r.events[1]))
  {
    var r := Route(call, flags);
    if Handles(s, call, flags) {
      var e :| e in r.events && Overrides(s, e);
    }
  }

  /** A machine queue asks for exactly the calls that reach one of its handlers. */
  lemma MachineQueueSubscription(x: MachineQueue, call: LogCall, flags: set<int>)
    requires Route(call, flags).FanOut?
    ensures x.NotifyOnEvent(call.action) <==> Handles(MachineQueueRef(x), call, flags)
  {
    RoutedKinds(call, flags);
    HandlesByEvents(MachineQueueRef(x), call, flags);
  }

  /** A wait-time sensor asks for exactly the calls that reach one of its handlers. */
  lemma RequestWaitTimeSubscription(x: RequestWaitTime, call: LogCall, flags: set<int>)
    requires Route(call, flags).FanOut?
    ensures x.NotifyOnEvent(call.action) <==> Handles(RequestWaitTimeRef(x), call, flags)
  {
    RoutedKinds(call, flags);
    HandlesByEvents(RequestWaitTimeRef(x), call, flags);
  }

  /** A throughput-time sensor asks for exactly the calls that reach one of its handlers. */
  lemma RequestThruTimeSubscription(x: RequestThruTime, call: LogCall, flags: set<int>)
    requires Route(call, flags).FanOut?
    ensures x.NotifyOnEvent(call.action) <==> Handles(RequestThruTimeRef(x), call, flags)
  {
    RoutedKinds(call, flags);
    HandlesByEvents(RequestThruTimeRef(x), call, flags);
  }

  /**
   * A request-frequency sensor asks for the calls that reach its handlers,
   * except the creation of the entity kind it does not filter by, whose
   * binding its count never consults.
   */
  lemma RequestFrequencySubscription(x: RequestFrequency, call: LogCall, flags: set<int>)
    requires Route(call, flags).FanOut?
    ensures x.NotifyOnEvent(call.action) <==>
      Handles(RequestFrequencyRef(x), call, flags) &&
      !(x.reqIn && call.action == TraceProcessCreate) && !(!x.reqIn && call.action == TraceMachineCreate)
  {
    RoutedKinds(call, flags);
    HandlesByEvents(RequestFrequencyRef(x), call, flags);
  }

  lemma GlobalRequestFrequencySubscription(x: GlobalRequestFrequency, call: LogCall, flags: set<int>)
    requires Route(call, flags).FanOut?
    ensures x.NotifyOnEvent(call.action) <==> Handles(GlobalRequestFrequencyRef(x), call, flags)
  {
    RoutedKinds(call, flags);
    HandlesByEvents(GlobalRequestFrequencyRef(x), call, flags);
  }

  lemma UtilizationSubscription(x: MachineUtilization, call: LogCall, flags: set<int>)
    requires Route(call, flags).FanOut?
    ensures x.NotifyOnEvent(call.action) <==> Handles(UtilizationRef(x), call, flags)
  {
    RoutedKinds(call, flags);
    HandlesByEvents(UtilizationRef(x), call, flags);
  }

  /**
   * A process queue asks for the calls that reach its handlers, except a
   * removed timer's signal: that call reaches the drop handler too, but the
   * queue does not ask for it.
   */
  lemma ProcessQueueSubscription(x: ProcessQueue, call: LogCall, flags: set<int>)
    requires Route(call, flags).FanOut?
    ensures x.NotifyOnEvent(call.action) <==>
      Handles(ProcessQueueRef(x), call, flags) && call.action != TraceTimerRemove
  {
    RoutedKinds(call, flags);
    HandlesByEvents(ProcessQueueRef(x), call, flags);
  }

  lemma SignalWaitTimeSubscription(x: SignalWaitTime, call: LogCall, flags: set<int>)
    requires Route(call, flags).FanOut?
    ensures x.NotifyOnEvent(call.action) <==> Handles(SignalWaitTimeRef(x), call, flags)
  {
    RoutedKinds(call, flags);
    HandlesByEvents(SignalWaitTimeRef(x), call, flags);
  }

  lemma SignalFrequencySubscription(x: SignalFrequency, call: LogCall, flags: set<int>)
    requires Route(call, flags).FanOut?
    ensures x.NotifyOnEvent(call.action) <==> Handles(SignalFrequencyRef(x), call, flags)
  {
    RoutedKinds(call, flags);
    HandlesByEvents(SignalFrequencyRef(x), call, flags);
  }

  lemma GlobalSignalFrequencySubscription(x: GlobalSignalFrequency, call: LogCall, flags: set<int>)
    requires Route(call, flags).FanOut?
    ensures x.NotifyOnEvent(call.action) <==> Handles(GlobalSignalFrequencyRef(x), call, flags)
  {
    RoutedKinds(call, flags);
    HandlesByEvents(GlobalSignalFrequencyRef(x), call, flags);
  }

  /** State changes reach the sensor only while their trace flag is set. */
  lemma StateFrequencySubscription(x: StateFrequency, call: LogCall, flags: set<int>)
    requires Route(call, flags).FanOut?
    ensures x.NotifyOnEvent(call.action) <==> Handles(StateFrequencyRef(x), call, flags)
    ensures call.action == TraceStateChange ==> TraceStateChange in flags
  {
    RoutedKinds(call, flags);
    HandlesByEvents(StateFrequencyRef(x), call, flags);
  }

  lemma ProcessNumberSubscription(x: ProcessNumber, call: LogCall, flags: set<int>)
    requires Route(call, flags).FanOut?
    ensures x.NotifyOnEvent(call.action) <==> Handles(ProcessNumberRef(x), call, flags)
  {
    RoutedKinds(call, flags);
    HandlesByEvents(ProcessNumberRef(x), call, flags);
  }

  /**
   * An event sensor asks only for calls that reach its handlers, and among
   * them for the create action of the entity kind its descriptor names and
   * for the signal or request action of its descriptor.
   */
  lemma EventSensorSubscription(x: EventSensor, call: LogCall, flags: set<int>)
    requires Route(call, flags).FanOut?
    ensures x.NotifyOnEvent(call.action) ==> Handles(EventRef(x), call, flags)
    ensures call.action == TraceProcessCreate ==>
      (x.NotifyOnEvent(call.action) <==> ActivitySensor.BindsAtProcess(x.evType))
    ensures call.action == TraceMachineCreate ==>
      (x.NotifyOnEvent(call.action) <==> ActivitySensor.BindsAtMachine(x.evType))
    ensures call.action == TraceSignalReceive ==> (x.NotifyOnEvent(call.action) <==> x.evType.isSignal)
    ensures call.action == TraceServiceRequest ==> (x.NotifyOnEvent(call.action) <==> !x.evType.isSignal)
  {
    RoutedKinds(call, flags);
    HandlesByEvents(EventRef(x), call, flags);
  }

  /**
   * An activity sensor asks only for calls that reach its handlers: the
   * process create action exactly when one of its descriptors binds at a
   * process, and the signal or request action of either descriptor. For
   * machines, the stop clause tests the start descriptor's direction, so
   * the machine create action is asked for only when the start descriptor
   * arrives: a stop descriptor that binds at a machine misses it when the
   * start descriptor departs, and a departing stop request gets it when
   * the start descriptor is an arriving signal.
   */
  lemma ActivitySensorSubscription(x: ActivitySensor, call: LogCall, flags: set<int>)
    requires Route(call, flags).FanOut?
    ensures x.NotifyOnEvent(call.action) ==> Handles(ActivityRef(x), call, flags)
    ensures call.action == TraceProcessCreate ==>
      (x.NotifyOnEvent(call.action) <==>
        ActivitySensor.BindsAtProcess(x.evStart) || ActivitySensor.BindsAtProcess(x.evStop))
    ensures call.action == TraceMachineCreate && ActivitySensor.BindsAtMachine(x.evStart) ==>
      x.NotifyOnEvent(call.action)
    ensures call.action == TraceMachineCreate && x.NotifyOnEvent(call.action) ==> x.evStart.isArrival
    ensures (call.action == TraceMachineCreate && ActivitySensor.BindsAtMachine(x.evStop) &&
      !x.evStart.isArrival) ==> !x.NotifyOnEvent(call.action)
    ensures (call.action == TraceMachineCreate && x.evStart.isSignal && x.evStart.isArrival &&
      !x.evStop.isSignal && !x.evStop.isArrival) ==> x.NotifyOnEvent(call.action)
    ensures call.action == TraceSignalReceive ==>
      (x.NotifyOnEvent(call.action) <==> x.evStart.isSignal || x.evStop.isSignal)
    ensures call.action == TraceServiceRequest ==>
      (x.NotifyOnEvent(call.action) <==> !x.evStart.isSignal || !x.evStop.isSignal)
  {
    RoutedKinds(call, flags);
    HandlesByEvents(ActivityRef(x), call, flags);
  }

  /**
   * The control window asks for the calls that reach its handlers, except
   * a removed timer's signal, which reaches its drop handler too.
   */
  lemma ControllerSubscription(x: ControllerSensor, call: LogCall, flags: set<int>)
    requires Route(call, flags).FanOut?
    ensures x.NotifyOnEvent(call.action) <==>
      Handles(ControllerRef(x), call, flags) && call.action != TraceTimerRemove
  {
    RoutedKinds(call, flags);
    HandlesByEvents(ControllerRef(x), call, flags);
  }

  /**
   * No subscription is wasted: whatever a registered sensor asks for
   * reaches at least one handler its class overrides.
   */
  lemma SubscribedHandled(s: SensorRef, call: LogCall, flags: set<int>)
    requires Route(call, flags).FanOut?
    ensures Notify(s, call.action) ==> Handles(s, call, flags)
  {
    match s
    case MachineQueueRef(x) => MachineQueueSubscription(x, call, flags);
    case RequestWaitTimeRef(x) => RequestWaitTimeSubscription(x, call, flags);
    case RequestThruTimeRef(x) => RequestThruTimeSubscription(x, call, flags);
    case RequestFrequencyRef(x) => RequestFrequencySubscription(x, call, flags);
    case GlobalRequestFrequencyRef(x) => GlobalRequestFrequencySubscription(x, call, flags);
    case UtilizationRef(x) => UtilizationSubscription(x, call, flags);
    case ProcessQueueRef(x) => ProcessQueueSubscription(x, call, flags);
    case SignalWaitTimeRef(x) => SignalWaitTimeSubscription(x, call, flags);
    case SignalFrequencyRef(x) => SignalFrequencySubscription(x, call, flags);
    case GlobalSignalFrequencyRef(x) => GlobalSignalFrequencySubscription(x, call, flags);
    case StateFrequencyRef(x) => StateFrequencySubscription(x, call, flags);
    case ProcessNumberRef(x) => ProcessNumberSubscription(x, call, flags);
    case EventRef(x) => EventSensorSubscription(x, call, flags);
    case ActivityRef(x) => ActivitySensorSubscription(x, call, flags);
    case ControllerRef(x) => ControllerSubscription(x, call, flags);
  }

  /** A sensor none of whose objects changed is still valid. */
  twostate lemma Untouched(s: SensorRef)
    requires old(SValid(s)) && old(SReads(s) <= SRepr(s))
    requires SRepr(s) == old(SRepr(s)) && unchanged(SRepr(s))
    ensures SValid(s)
  {
  }

  /**
   * A call on the sensor owning `mine` leaves the other registered sensors
   * as they were; when the sensor stays apart from them and the dispatcher
   * takes on its objects, the dispatcher owns every sensor again.
   */
  twostate lemma OthersKept(new d: EventDispatcher, s: SensorRef, new mine: set<object>, new kept: set<object>)
    requires old(allocated(d)) && old(d.Valid()) && s in old(d.registered) && mine == old(SRepr(s))
    requires d.registered == old(d.registered) && kept == old(d.Repr) - mine && unchanged(kept)
    requires SValid(s) && SRepr(s) !! kept && d.Repr == old(d.Repr)
    ensures forall t | t in d.registered && t != s :: Kept(t)
    ensures Owned(d.registered, d.Repr + SRepr(s))
  {
    ReadsOwned(s);
    forall t | t in d.registered && t != s
      ensures SRepr(t) == old(SRepr(t)) && SRepr(t) <= kept
    {
      assert old(SRepr(t)) !! mine;
    }
    forall t | t in d.registered && t != s
      ensures SValid(t)
    {
      Untouched(t);
    }
    forall t, u | t in d.registered && u in d.registered && t != u
      ensures SRepr(t) !! SRepr(u)
    {
      if t != s && u != s {
        assert old(SRepr(t)) !! old(SRepr(u));
      }
    }
  }

  /** A sensor owns something, its statistics objects among it. */
  /**
   * Each sensor of `sensors` is valid and reads and owns only objects of
   * `repr`, and no two of them share an object.
   */
  ghost predicate Owned(sensors: seq<SensorRef>, repr: set<object>)
    reads repr
  {
    (forall t | t in sensors :: SReads(t) <= repr && SRepr(t) <= repr && SValid(t)) &&
    (forall t, u | t in sensors && u in sensors && t != u :: SRepr(t) !! SRepr(u))
  }

  /** A valid sensor apart from all the others can join them. */
  lemma OwnedFirst(sensors: seq<SensorRef>, repr: set<object>, s: SensorRef)
    requires Owned(sensors, repr) && SValid(s)
    requires forall t | t in sensors :: SRepr(s) !! SRepr(t)
    ensures Owned([s] + sensors, repr + SRepr(s))
  {
    ReadsOwned(s);
  }

  lemma {:induction false} ReadsOwned(s: SensorRef)
    ensures SReads(s) <= SRepr(s) && SRepr(s) != {}
  {
    match s
    case MachineQueueRef(x) =>
      assert x in SRepr(s);
      assert SReads(s) <= SinkRepr(x.sink);
    case ProcessQueueRef(x) =>
      assert x in SRepr(s);
      assert SReads(s) <= SinkRepr(x.sink);
    case ControllerRef(x) =>
      assert x in SRepr(s);
    case RequestWaitTimeRef(x) =>
      assert x in SRepr(s);
    case RequestThruTimeRef(x) =>
      assert x in SRepr(s);
    case RequestFrequencyRef(x) =>
      assert x in SRepr(s);
    case GlobalRequestFrequencyRef(x) =>
      assert x in SRepr(s);
    case UtilizationRef(x) =>
      assert x in SRepr(s);
    case SignalWaitTimeRef(x) =>
      assert x in SRepr(s);
    case SignalFrequencyRef(x) =>
      assert x in SRepr(s);
    case GlobalSignalFrequencyRef(x) =>
      assert x in SRepr(s);
    case StateFrequencyRef(x) =>
      assert x in SRepr(s);
    case ProcessNumberRef(x) =>
      assert x in SRepr(s);
    case EventRef(x) =>
      assert x in SRepr(s);
    case ActivityRef(x) =>
      assert x in SRepr(s);
  }

  class EventDispatcher {
    /** The registered sensors, most recently registered first. */
    var registered: seq<SensorRef>
    /** Per trace action, the sensors to call, most recently registered first. */
    var lists: seq<seq<SensorRef>>
    var reportInterval: real
    var lastReport: real
    /** The trace flags of the simulator's trace base class; all set by the constructor. */
    const actionFlags: set<int>
    /** The queue-histogram bound shared by all queue sensors. */
    const stats: QueueStats
    ghost var log: seq<Step>
    /** Every object a registered sensor owns (and possibly objects they have dropped). */
    ghost var Repr: set<object>

    /**
     * The subscriber lists are the registered sensors filtered by their
     * subscriptions; the sensors are valid, own neither the dispatcher nor
     * the shared queue bound, and no two of them share an object.
     */
    ghost predicate Valid()
      reads this, Repr
    {
      this !in Repr && stats !in Repr &&
      Filed(registered, lists) &&
      Owned(registered, Repr)
    }

    /** The constructor: no sensors, every trace flag set, no report interval, last report at 0. */
    constructor (stats: QueueStats)
      ensures Valid() && this.stats == stats
      ensures registered == [] && reportInterval == 0.0 && lastReport == 0.0 && log == []
      ensures actionFlags == ActionsBelow(TraceMax)
      ensures fresh(Repr)
    {
      registered := [];
      lists := seq(TraceMax, _ => []);
      reportInterval := 0.0;
      lastReport := 0.0;
      actionFlags := ActionsBelow(TraceMax);
      this.stats := stats;
      log := [];
      Repr := {};
    }

    /**
     * RegisterSensor: put the sensor at the head of the registered list,
     * and at the head of the list of every action it asks for, walking the
     * actions from the last down to the first. The sensor must be new to
     * the dispatcher: it shares no object with a registered sensor.
     */
    method RegisterSensor(s: SensorRef)
      requires Valid() && SValid(s)
      requires forall t | t in registered :: SRepr(s) !! SRepr(t)
      requires this !in SRepr(s) && stats !in SRepr(s)
      modifies this
      ensures Valid() && Repr == old(Repr) + SRepr(s)
      ensures registered == [s] + old(registered)
      ensures forall a | 0 <= a < TraceMax ::
        lists[a] == if Notify(s, a) then [s] + old(lists[a]) else old(lists[a])
      ensures reportInterval == old(reportInterval) && lastReport == old(lastReport) && log == old(log)
    {
      ReadsOwned(s);
      var subs := FileFirst(lists, s);
      FiledFirst(registered, lists, s, subs);
      OwnedFirst(registered, Repr, s);
      registered, lists, Repr := [s] + registered, subs, Repr + SRepr(s);
      assert registered[1..] == old(registered);
    }

    /** SetReportInterval. */
    method SetReportInterval(interval: real)
      requires Valid()
      modifies this
      ensures Valid() && reportInterval == interval && Repr == old(Repr)
      ensures registered == old(registered) && lists == old(lists)
      ensures lastReport == old(lastReport) && log == old(log)
    {
      reportInterval := interval;
    }

    /** Reset on one registered sensor; the others are left as they were. */
    method ResetOne(s: SensorRef, now: real)
      requires Valid() && s in registered
      modifies Repr
      ensures Valid() && registered == old(registered) && lists == old(lists)
      ensures reportInterval == old(reportInterval) && lastReport == old(lastReport) && log == old(log)
      ensures IsReset(s, now) && ResetKeeps(s)
      ensures forall t | t in registered :: SRepr(t) == old(SRepr(t))
      ensures forall t | t in registered && t != s :: Kept(t)
      ensures forall t | t in registered && t != s && old(IsReset(t, now)) :: IsReset(t, now)
    {
      ghost var mine := SRepr(s);
      ResetSensor(s, now);
      forall t | t in registered && t != s
        ensures SRepr(t) == old(SRepr(t)) && SValid(t) && (old(IsReset(t, now)) ==> IsReset(t, now)) && Kept(t)
      {
        assert old(SRepr(t)) !! mine;
      }
    }

    /** ResetAllSensors: Reset on every registered sensor. */
    method ResetAllSensors(now: real)
      requires Valid()
      modifies this, Repr
      ensures Valid() && registered == old(registered) && lists == old(lists) && Repr == old(Repr)
      ensures reportInterval == old(reportInterval) && lastReport == old(lastReport)
      ensures forall s | s in registered :: SRepr(s) == old(SRepr(s)) && IsReset(s, now) && ResetKeeps(s)
      ensures log == old(log) + [ResetAll(now)]
    {
      var k := 0;
      while k < |registered|
        invariant 0 <= k <= |registered|
        invariant Valid() && registered == old(registered) && lists == old(lists) && Repr == old(Repr)
        invariant reportInterval == old(reportInterval) && lastReport == old(lastReport) && log == old(log)
        invariant forall t | t in registered :: SRepr(t) == old(SRepr(t))
        invariant forall t | t in registered[..k] :: IsReset(t, now)
        invariant forall t | t in registered :: ResetKeeps(t)
      {
        var s := registered[k];
        ResetOne(s, now);
        assert registered[..k + 1] == registered[..k] + [s];
        k := k + 1;
      }
      Record([ResetAll(now)]);
    }

    /** One handler call on one registered sensor; the others are left as they were. */
    method DeliverOne(s: SensorRef, ev: Event, now: real) returns (ok: bool)
      requires Valid() && s in registered
      modifies this, Repr, stats
      ensures Valid() && registered == old(registered) && lists == old(lists)
      ensures reportInterval == old(reportInterval) && lastReport == old(lastReport) && log == old(log)
      ensures fresh(Repr - old(Repr))
      ensures !ok ==> s.UtilizationRef? && Overrides(s, ev)
      ensures !Overrides(s, ev) ==> ok && Kept(s) && unchanged(stats)
      ensures forall t | t in registered && t != s :: Kept(t)
    {
      ghost var mine := SRepr(s);
      ok := Deliver(s, ev, now, stats, (Repr - mine) + {this, stats});
      OthersKept(this, s, mine, Repr - mine);
      Repr := Repr + SRepr(s);
    }

    /** One handler call on every sensor filed under action `a`, in list order; stops at an abort. */
    method DeliverEach(a: int, ev: Event, now: real) returns (ok: bool, ghost steps: seq<Step>)
      requires Valid() && 0 <= a < TraceMax
      modifies this, Repr, stats
      ensures Valid() && registered == old(registered) && lists == old(lists)
      ensures reportInterval == old(reportInterval) && lastReport == old(lastReport) && log == old(log)
      ensures fresh(Repr - old(Repr))
      ensures ok ==> steps == Each(lists[a], ev)
      ensures !ok ==> exists s :: s in lists[a] && s.UtilizationRef? && Overrides(s, ev)
      ensures forall t | t in registered && (t !in lists[a] || !Overrides(t, ev)) :: Kept(t)
      ensures (forall t | t in lists[a] :: !Overrides(t, ev)) ==> ok && unchanged(stats)
    {
      ok, steps := true, [];
      var subs := lists[a];
      var j := 0;
      while j < |subs| && ok
        invariant Valid() && registered == old(registered) && lists == old(lists)
        invariant reportInterval == old(reportInterval) && lastReport == old(lastReport) && log == old(log)
        invariant 0 <= j <= |subs| && subs == lists[a]
        invariant fresh(Repr - old(Repr))
        invariant ok ==> steps == Each(subs[..j], ev)
        invariant !ok ==> exists s :: s in subs && s.UtilizationRef? && Overrides(s, ev)
        invariant forall t | t in registered && (t !in subs[..j] || !Overrides(t, ev)) :: Kept(t)
        invariant (forall t | t in subs :: !Overrides(t, ev)) ==> ok && unchanged(stats)
      {
        var s := subs[j];
        SubscribersExactly(registered, a, s);
        EachStep(subs, j, ev);
        ok := DeliverOne(s, ev, now);
        steps := steps + [Delivered(s, ev)];
        assert subs[..j + 1] == subs[..j] + [s];
        j := j + 1;
      }
      if ok {
        assert subs[..j] == subs;
      }
    }

    /** The handlers of `evs`, one event after the other, on the sensors filed under action `a`. */
    method Broadcast(a: int, evs: seq<Event>, now: real) returns (ok: bool, ghost steps: seq<Step>)
      requires Valid() && 0 <= a < TraceMax
      modifies this, Repr, stats
      ensures Valid() && registered == old(registered) && lists == old(lists)
      ensures reportInterval == old(reportInterval) && lastReport == old(lastReport) && log == old(log)
      ensures ok ==> steps == Deliveries(lists[a], evs)
      ensures !ok ==> exists s :: s in lists[a] && s.UtilizationRef?
      ensures forall t | t in registered && (t !in lists[a] || forall e | e in evs :: !Overrides(t, e)) :: Kept(t)
      ensures (forall t, e | t in lists[a] && e in evs :: !Overrides(t, e)) ==> ok && unchanged(stats)
    {
      ok, steps := true, [];
      var n := 0;
      while n < |evs| && ok
        invariant 0 <= n <= |evs|
        invariant Valid() && registered == old(registered) && lists == old(lists)
        invariant reportInterval == old(reportInterval) && lastReport == old(lastReport) && log == old(log)
        invariant fresh(Repr - old(Repr))
        invariant ok ==> steps == Deliveries(lists[a], evs[..n])
        invariant !ok ==> exists s :: s in lists[a] && s.UtilizationRef?
        invariant forall t | t in registered && (t !in lists[a] || forall e | e in evs[..n] :: !Overrides(t, e)) :: Kept(t)
        invariant (forall t, e | t in lists[a] && e in evs :: !Overrides(t, e)) ==> ok && unchanged(stats)
      {
        ghost var more;
        ok, more := DeliverEach(a, evs[n], now);
        steps := steps + more;
        assert evs[..n + 1][..n] == evs[..n];
        assert evs[..n + 1] == evs[..n] + [evs[n]];
        n := n + 1;
      }
      if ok {
        assert evs[..n] == evs;
      }
    }

    /** Appends to the ghost record of dispatcher steps. */
    ghost method Record(steps: seq<Step>)
      requires Valid()
      modifies this
      ensures Valid() && registered == old(registered) && lists == old(lists)
      ensures reportInterval == old(reportInterval) && lastReport == old(lastReport) && Repr == old(Repr)
      ensures log == old(log) + steps
    {
      log := log + steps;
    }

    /** The report of a due time change: the report time moves to `newTime`. */
    method Report(newTime: real)
      requires Valid()
      modifies this
      ensures Valid() && registered == old(registered) && lists == old(lists)
      ensures reportInterval == old(reportInterval) && lastReport == newTime && Repr == old(Repr)
      ensures log == old(log) + [Reported]
    {
      lastReport := newTime;
      log := log + [Reported];
    }

    /** The report and reset a due time change starts with (the first half of LogEvent). */
    method ReportIfDue(call: LogCall, now: real)
      requires Valid()
      modifies this, Repr
      ensures Valid() && registered == old(registered) && lists == old(lists) && Repr == old(Repr)
      ensures reportInterval == old(reportInterval)
      ensures lastReport ==
        if Prelude(call, old(reportInterval), old(lastReport), now) != [] then call.newTime else old(lastReport)
      ensures log == old(log) + Prelude(call, old(reportInterval), old(lastReport), now)
      ensures Prelude(call, old(reportInterval), old(lastReport), now) != [] ==>
        forall s | s in registered :: SRepr(s) == old(SRepr(s)) && IsReset(s, now) && ResetKeeps(s)
      ensures Prelude(call, old(reportInterval), old(lastReport), now) == [] ==> unchanged(Repr)
      ensures unchanged(stats)
    {
      if call.TimeChangeCall? && call.newTime >= 0.0 && ReportDue(reportInterval, lastReport, call.newTime) {
        Report(call.newTime);
        ResetAllSensors(now);
      }
    }

    /** Runs a routing on the subscriber lists (the second half of LogEvent). */
    method Dispatch(r: Routing, now: real) returns (ok: bool)
      requires Valid() && (r.FanOut? ==> 0 <= r.list < TraceMax)
      modifies this, Repr, stats
      ensures Valid() && registered == old(registered) && lists == old(lists)
      ensures reportInterval == old(reportInterval) && lastReport == old(lastReport)
      ensures r.WrongAction? ==> !ok
      ensures ok ==> log == old(log) + Steps(r, lists)
      ensures !ok && !r.WrongAction? ==> r.FanOut? && exists s :: s in lists[r.list] && s.UtilizationRef?
      ensures !r.FanOut? ==> Repr == old(Repr) && unchanged(Repr) && unchanged(stats) && log == old(log)
      ensures forall t | t in registered && (!r.FanOut? || t !in lists[r.list] ||
                                             forall e | e in r.events :: !Overrides(t, e)) :: Kept(t)
    {
      match r
      case WrongAction =>
        ok := false;
      case Ignore =>
        ok := true;
      case FanOut(a, evs, rep) =>
        ghost var steps;
        ok, steps := Broadcast(a, evs, now);
        if ok {
          Record(steps + if rep then [Reported] else []);
        }
    }

    /**
     * Any LogEvent overload. A time change first writes a report and
     * resets all sensors when one is due; a call with an action its
     * overload does not know aborts (ok is false); otherwise the routed
     * handlers run on the sensors filed under the call's action, and a
     * scheduler stop ends with a report. A handler can abort too (the
     * utilization sensor's sample check).
     */
    method LogEvent(call: LogCall, now: real) returns (ok: bool)
      requires Valid()
      modifies this, Repr, stats
      ensures Valid() && registered == old(registered) && lists == old(lists)
      ensures reportInterval == old(reportInterval)
      ensures lastReport ==
        if Prelude(call, old(reportInterval), old(lastReport), now) != [] then call.newTime else old(lastReport)
      ensures Route(call, actionFlags).WrongAction? ==> !ok
      ensures ok ==> log == old(log) + Prelude(call, old(reportInterval), old(lastReport), now) +
                            Steps(Route(call, actionFlags), lists)
      ensures !ok && !Route(call, actionFlags).WrongAction? ==>
        Route(call, actionFlags).FanOut? &&
        exists s :: s in lists[Route(call, actionFlags).list] && s.UtilizationRef?
      ensures !Route(call, actionFlags).FanOut? ==> unchanged(stats)
      ensures var r := Route(call, actionFlags);
        forall t | t in registered && (!r.FanOut? || t !in lists[r.list] ||
                                       forall e | e in r.events :: !Overrides(t, e)) ::
          SRepr(t) == old(SRepr(t)) &&
          if Prelude(call, old(reportInterval), old(lastReport), now) == [] then unchanged(SRepr(t))
          else IsReset(t, now) && ResetKeeps(t)
      ensures Prelude(call, old(reportInterval), old(lastReport), now) != [] ==>
        forall t | t in registered :: IsReset(t, now) && ResetKeeps(t)
    {
      ghost var due := Prelude(call, reportInterval, lastReport, now) != [];
      ReportIfDue(call, now);
      var r := Route(call, actionFlags);
      ok := Dispatch(r, now);
      forall t | t in registered && (!r.FanOut? || t !in lists[r.list] ||
                                     forall e | e in r.events :: !Overrides(t, e))
        ensures SRepr(t) == old(SRepr(t)) && if due then IsReset(t, now) && ResetKeeps(t) else unchanged(SRepr(t))
      {
        ReadsOwned(t);
      }
      if due {
        NoTimeChangeSubscribers(registered);
      }
    }
  }
}
