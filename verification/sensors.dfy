/**
 * The sensor interface the dispatcher sees. In the source every sensor
 * derives from one abstract base with virtual NotifyOnEvent, Reset,
 * GetValue, GetData and a no-op virtual handler per event; here the set of
 * concrete sensor classes is closed, so a sensor reference is one case per
 * class and each virtual call is a match over the cases.
 */
module Sensors {
  import opened Entities
  import opened DataTypes
  import opened Accumulators
  import opened Events
  import opened MachineSensors
  import opened ProcessSensors
  import opened ActivitySensors
  import opened Controller

  datatype SensorRef =
    | MachineQueueRef(mq: MachineQueue)
    | RequestWaitTimeRef(rw: RequestWaitTime)
    | RequestThruTimeRef(rt: RequestThruTime)
    | RequestFrequencyRef(rf: RequestFrequency)
    | GlobalRequestFrequencyRef(grf: GlobalRequestFrequency)
    | UtilizationRef(mu: MachineUtilization)
    | ProcessQueueRef(pq: ProcessQueue)
    | SignalWaitTimeRef(sw: SignalWaitTime)
    | SignalFrequencyRef(sf: SignalFrequency)
    | GlobalSignalFrequencyRef(gsf: GlobalSignalFrequency)
    | StateFrequencyRef(st: StateFrequency)
    | ProcessNumberRef(pn: ProcessNumber)
    | EventRef(es: EventSensor)
    | ActivityRef(ac: ActivitySensor)
    | ControllerRef(ctl: ControllerSensor)

  /** The objects whose fields decide a sensor's footprint (the histograms, whose arrays can be replaced). */
  ghost function SReads(s: SensorRef): set<object>
  {
    match s
    case MachineQueueRef(x) => SinkReads(x.sink)
    case RequestFrequencyRef(x) => {x.freq}
    case GlobalRequestFrequencyRef(x) => {x.freq}
    case ProcessQueueRef(x) => SinkReads(x.sink)
    case SignalFrequencyRef(x) => {x.freq}
    case GlobalSignalFrequencyRef(x) => {x.freq}
    case StateFrequencyRef(x) => {x.freq}
    case _ => {}
  }

  /** Every object the sensor owns: the sensor itself and its embedded statistics. */
  ghost function SRepr(s: SensorRef): set<object>
    reads SReads(s)
  {
    match s
    case MachineQueueRef(x) => x.Repr()
    case RequestWaitTimeRef(x) => x.Repr()
    case RequestThruTimeRef(x) => x.Repr()
    case RequestFrequencyRef(x) => x.Repr()
    case GlobalRequestFrequencyRef(x) => x.Repr()
    case UtilizationRef(x) => x.Repr()
    case ProcessQueueRef(x) => x.Repr()
    case SignalWaitTimeRef(x) => x.Repr()
    case SignalFrequencyRef(x) => x.Repr()
    case GlobalSignalFrequencyRef(x) => x.Repr()
    case StateFrequencyRef(x) => x.Repr()
    case ProcessNumberRef(x) => x.Repr()
    case EventRef(x) => x.Repr()
    case ActivityRef(x) => x.Repr()
    case ControllerRef(x) => {x}
  }

  ghost predicate SValid(s: SensorRef)
    reads SReads(s), SRepr(s)
  {
    match s
    case MachineQueueRef(x) => x.Valid()
    case RequestWaitTimeRef(x) => x.Valid()
    case RequestThruTimeRef(x) => x.Valid()
    case RequestFrequencyRef(x) => x.Valid()
    case GlobalRequestFrequencyRef(x) => x.Valid()
    case UtilizationRef(x) => x.Valid()
    case ProcessQueueRef(x) => x.Valid()
    case SignalWaitTimeRef(x) => x.Valid()
    case SignalFrequencyRef(x) => x.Valid()
    case GlobalSignalFrequencyRef(x) => x.Valid()
    case StateFrequencyRef(x) => x.Valid()
    case ProcessNumberRef(x) => x.Valid()
    case EventRef(x) => x.Valid()
    case ActivityRef(x) => x.Valid()
    case ControllerRef(_) => true
  }

  /** The virtual NotifyOnEvent: whether the sensor wants the handlers of `action`. */
  predicate Notify(s: SensorRef, action: int)
  {
    match s
    case MachineQueueRef(x) => x.NotifyOnEvent(action)
    case RequestWaitTimeRef(x) => x.NotifyOnEvent(action)
    case RequestThruTimeRef(x) => x.NotifyOnEvent(action)
    case RequestFrequencyRef(x) => x.NotifyOnEvent(action)
    case GlobalRequestFrequencyRef(x) => x.NotifyOnEvent(action)
    case UtilizationRef(x) => x.NotifyOnEvent(action)
    case ProcessQueueRef(x) => x.NotifyOnEvent(action)
    case SignalWaitTimeRef(x) => x.NotifyOnEvent(action)
    case SignalFrequencyRef(x) => x.NotifyOnEvent(action)
    case GlobalSignalFrequencyRef(x) => x.NotifyOnEvent(action)
    case StateFrequencyRef(x) => x.NotifyOnEvent(action)
    case ProcessNumberRef(x) => x.NotifyOnEvent(action)
    case EventRef(x) => x.NotifyOnEvent(action)
    case ActivityRef(x) => x.NotifyOnEvent(action)
    case ControllerRef(x) => x.NotifyOnEvent(action)
  }

  /** Whether the sensor's class overrides the handler `ev` calls. */
  predicate Overrides(s: SensorRef, ev: Event)
  {
    match s
    case MachineQueueRef(x) => x.Overrides(ev)
    case RequestWaitTimeRef(x) => x.Overrides(ev)
    case RequestThruTimeRef(x) => x.Overrides(ev)
    case RequestFrequencyRef(x) => x.Overrides(ev)
    case GlobalRequestFrequencyRef(x) => x.Overrides(ev)
    case UtilizationRef(x) => x.Overrides(ev)
    case ProcessQueueRef(x) => x.Overrides(ev)
    case SignalWaitTimeRef(x) => x.Overrides(ev)
    case SignalFrequencyRef(x) => x.Overrides(ev)
    case GlobalSignalFrequencyRef(x) => x.Overrides(ev)
    case StateFrequencyRef(x) => x.Overrides(ev)
    case ProcessNumberRef(x) => x.Overrides(ev)
    case EventRef(x) => x.Overrides(ev)
    case ActivityRef(x) => x.Overrides(ev)
    case ControllerRef(_) => ControllerSensor.Overrides(ev)
  }

  /**
   * A virtual handler call. A handler the sensor's class does not override
   * is the base class's empty one and leaves the sensor as it was. Only
   * the utilization sensor can fail (its sample assertion), which aborts.
   * Objects the handler allocates are new, so a sensor stays apart from
   * any objects it was apart from before (`apart`).
   */
  method Deliver(s: SensorRef, ev: Event, now: real, stats: QueueStats, ghost apart: set<object>)
    returns (ok: bool)
    requires SValid(s) && SRepr(s) !! apart
    modifies SRepr(s), stats
    ensures SValid(s) && fresh(SRepr(s) - old(SRepr(s))) && SRepr(s) !! apart
    ensures !ok ==> s.UtilizationRef? && Overrides(s, ev)
    ensures !Overrides(s, ev) ==> ok && SRepr(s) == old(SRepr(s)) && unchanged(SRepr(s)) && unchanged(stats)
  {
    ok := true;
    match s
    case MachineQueueRef(x) => x.Handle(ev, now, stats);
    case RequestWaitTimeRef(x) => x.Handle(ev, now);
    case RequestThruTimeRef(x) => x.Handle(ev, now);
    case RequestFrequencyRef(x) => x.Handle(ev);
    case GlobalRequestFrequencyRef(x) => x.Handle(ev);
    case UtilizationRef(x) => ok := x.Handle(ev, now);
    case ProcessQueueRef(x) => x.Handle(ev, now, stats);
    case SignalWaitTimeRef(x) => x.Handle(ev, now);
    case SignalFrequencyRef(x) => x.Handle(ev);
    case GlobalSignalFrequencyRef(x) => x.Handle(ev);
    case StateFrequencyRef(x) => x.Handle(ev, now);
    case ProcessNumberRef(x) => x.Handle(ev, now);
    case EventRef(x) => x.Handle(ev, now);
    case ActivityRef(x) => x.Handle(ev, now);
    case ControllerRef(x) => x.Handle(ev);
  }

  /** A histogram whose entries and total are all 0. */
  ghost predicate HistogramCleared(f: Frequency)
    reads f, f.data
  {
    f.sum == 0.0 && f.data[..] == Zeros(f.data.Length)
  }

  /**
   * The state a sensor's Reset at `now` leaves it in: every statistic it
   * owns is cleared as if created at `now`, and the clocks that weight
   * samples restart at `now`.
   */
  ghost predicate IsReset(s: SensorRef, now: real)
    reads SReads(s), SRepr(s)
  {
    match s
    case MachineQueueRef(x) => SinkIsReset(x.sink, now)
    case RequestWaitTimeRef(x) => x.tally.State() == Cleared(x.tally.intervalLen, now)
    case RequestThruTimeRef(x) => x.tally.State() == Cleared(x.tally.intervalLen, now)
    case RequestFrequencyRef(x) => HistogramCleared(x.freq)
    case GlobalRequestFrequencyRef(x) => HistogramCleared(x.freq)
    case UtilizationRef(x) => x.tally.State() == Cleared(x.tally.intervalLen, now) && x.lastChange == now
    case ProcessQueueRef(x) => SinkIsReset(x.sink, now)
    case SignalWaitTimeRef(x) => x.tally.State() == Cleared(x.tally.intervalLen, now)
    case SignalFrequencyRef(x) => HistogramCleared(x.freq)
    case GlobalSignalFrequencyRef(x) => HistogramCleared(x.freq)
    case StateFrequencyRef(x) =>
      HistogramCleared(x.freq) && x.currentState.None? && x.stateTable.GetNumOfStates() == 0
    case ProcessNumberRef(x) =>
      x.tally.State() == Cleared(x.tally.intervalLen, now) && (now > 0.0 ==> x.lastChange == now)
    case EventRef(x) =>
      x.tally.State() == Cleared(x.tally.intervalLen, now) &&
      x.counter.State() == CounterCleared(x.counter.intervalLength, now) && x.lastEvent == now
    case ActivityRef(x) =>
      x.tally.State() == Cleared(x.tally.intervalLen, now) &&
      x.counter.State() == CounterCleared(x.counter.intervalLength, now) && x.stopped
    case ControllerRef(_) => true
  }

  /**
   * What a Reset keeps: the entities a sensor has bound, the current
   * length of a queue and the current number of processes; the control
   * window's counts are not touched at all.
   */
  twostate predicate ResetKeeps(s: SensorRef)
    reads SReads(s), SRepr(s)
  {
    match s
    case MachineQueueRef(x) => x.machine == old(x.machine) && SinkQLen(x.sink) == old(SinkQLen(x.sink))
    case RequestWaitTimeRef(x) => x.machine == old(x.machine) && x.requestType == old(x.requestType)
    case RequestThruTimeRef(x) => x.machine == old(x.machine) && x.requestType == old(x.requestType)
    case RequestFrequencyRef(x) => x.machine == old(x.machine) && x.processType == old(x.processType)
    case GlobalRequestFrequencyRef(x) => true
    case UtilizationRef(x) => x.machine == old(x.machine)
    case ProcessQueueRef(x) => x.processType == old(x.processType) && SinkQLen(x.sink) == old(SinkQLen(x.sink))
    case SignalWaitTimeRef(x) => x.processType == old(x.processType) && x.signalType == old(x.signalType)
    case SignalFrequencyRef(x) => x.processType == old(x.processType)
    case GlobalSignalFrequencyRef(x) => true
    case StateFrequencyRef(x) => x.processType == old(x.processType)
    case ProcessNumberRef(x) => x.processType == old(x.processType) && x.count == old(x.count)
    case EventRef(x) => x.runnable == old(x.runnable)
    case ActivityRef(x) => x.runnableStart == old(x.runnableStart) && x.runnableStop == old(x.runnableStop)
    case ControllerRef(x) => unchanged(x)
  }

  /** The virtual Reset. */
  method ResetSensor(s: SensorRef, now: real)
    requires SValid(s)
    modifies SRepr(s)
    ensures SValid(s) && SRepr(s) == old(SRepr(s)) && IsReset(s, now) && ResetKeeps(s)
  {
    match s
    case MachineQueueRef(x) => x.Reset(now);
    case RequestWaitTimeRef(x) => x.Reset(now);
    case RequestThruTimeRef(x) => x.Reset(now);
    case RequestFrequencyRef(x) => x.Reset();
    case GlobalRequestFrequencyRef(x) => x.Reset();
    case UtilizationRef(x) => x.Reset(now);
    case ProcessQueueRef(x) => x.Reset(now);
    case SignalWaitTimeRef(x) => x.Reset(now);
    case SignalFrequencyRef(x) => x.Reset();
    case GlobalSignalFrequencyRef(x) => x.Reset();
    case StateFrequencyRef(x) => x.Reset();
    case ProcessNumberRef(x) => x.Reset(now);
    case EventRef(x) => x.Reset(now);
    case ActivityRef(x) => x.Reset(now);
    case ControllerRef(x) => x.Reset();
  }

  /** The virtual GetValue; the control window's sensor always answers 0. */
  function GetValue(s: SensorRef, index: int, now: real, sqrt: real -> real): (r: Reading)
    requires SValid(s)
    reads SReads(s), SRepr(s)
    ensures s.ControllerRef? ==> r == Value(0.0)
    ensures s.StateFrequencyRef? && index == GanttState && s.st.currentState.None? ==> r == Value(-1.0)
  {
    match s
    case MachineQueueRef(x) => x.GetValue(index, sqrt)
    case RequestWaitTimeRef(x) => x.GetValue(index, sqrt)
    case RequestThruTimeRef(x) => x.GetValue(index, sqrt)
    case RequestFrequencyRef(x) => x.GetValue(index)
    case GlobalRequestFrequencyRef(x) => x.GetValue(index)
    case UtilizationRef(x) => x.GetValue(index, sqrt)
    case ProcessQueueRef(x) => x.GetValue(index, sqrt)
    case SignalWaitTimeRef(x) => x.GetValue(index, sqrt)
    case SignalFrequencyRef(x) => x.GetValue(index)
    case GlobalSignalFrequencyRef(x) => x.GetValue(index)
    case StateFrequencyRef(x) => x.GetValue(index)
    case ProcessNumberRef(x) => x.GetValue(index, sqrt)
    case EventRef(x) => x.GetValue(index, now, sqrt)
    case ActivityRef(x) => x.GetValue(index, now, sqrt)
    case ControllerRef(_) => Value(0.0)
  }

  /**
   * The virtual GetData: the histogram of a frequency sensor, nothing for
   * the others. A histogram is always one the sensor owns.
   */
  function GetData(s: SensorRef): (d: Option<Frequency>)
    ensures d.Some? <==> (
      s.RequestFrequencyRef? || s.GlobalRequestFrequencyRef? ||
      s.SignalFrequencyRef? || s.GlobalSignalFrequencyRef? || s.StateFrequencyRef? ||
      (s.MachineQueueRef? && s.mq.sink.HistogramSink?) ||
      (s.ProcessQueueRef? && s.pq.sink.HistogramSink?))
  {
    match s
    case MachineQueueRef(x) => if x.sink.HistogramSink? then Some(x.sink.hist.freq) else None
    case RequestFrequencyRef(x) => Some(x.freq)
    case GlobalRequestFrequencyRef(x) => Some(x.freq)
    case ProcessQueueRef(x) => if x.sink.HistogramSink? then Some(x.sink.hist.freq) else None
    case SignalFrequencyRef(x) => Some(x.freq)
    case GlobalSignalFrequencyRef(x) => Some(x.freq)
    case StateFrequencyRef(x) => Some(x.freq)
    case _ => None
  }
}
