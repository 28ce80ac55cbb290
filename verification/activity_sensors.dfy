/**
 * Sensors defined by event descriptors: an event sensor counts one kind of
 * signal or request arrival/departure and the time between occurrences;
 * an activity sensor measures the time from a start event to a stop event.
 * The entity a descriptor names is bound on its first create event, and
 * names are compared as `char *` pointers, not as text.
 */
module ActivitySensors {
  import opened Entities
  import opened Accumulators
  import opened Events

  /**
   * An event descriptor: the arrival (`isArrival`) or departure of a
   * signal (`isSignal`) or request, with the name of the signal or request
   * type and of the process type or machine it occurs at. Either name may
   * be a null pointer.
   */
  datatype EventType = EventType(isArrival: bool, isSignal: bool,
                                 nameSigReq: Option<CStr>, nameProcMach: Option<CStr>)

  /** `name == descriptorName` on `char *`: a null descriptor name equals no entity name. */
  predicate SameNamePointer(name: CStr, descriptorName: Option<CStr>)
  {
    descriptorName.Some? && SamePointer(name, descriptorName.value)
  }

  /**
   * A received signal is an occurrence of descriptor `d` for the bound
   * entity: it arrives at it, or (departure) it was sent by it, and the
   * signal type's name is the descriptor's. A signal from the environment
   * has a null sender, which equals a still-null binding.
   */
  predicate SignalOccurs(d: EventType, runnable: Option<Ref>, p: Process, sig: Signal)
  {
    ((d.isArrival && runnable == Some(p.ref)) || (!d.isArrival && sig.sender == runnable)) &&
    SameNamePointer(sig.stype.name, d.nameSigReq)
  }

  /** A service request is an occurrence of `d`: it arrives at the bound machine or was issued by the bound process. */
  predicate RequestOccurs(d: EventType, runnable: Option<Ref>, m: Machine, r: Request)
  {
    ((d.isArrival && runnable == Some(m.ref)) || (!d.isArrival && runnable == Some(r.caller.ref))) &&
    SameNamePointer(r.rtype.name, d.nameSigReq)
  }

  /** Tally indices go to the tally, counter indices to the counter, anything above aborts. */
  function CombinedValue(tally: Tally, counter: Counter, index: int, now: real, sqrt: real -> real): (r: Reading)
    reads tally, counter
    ensures index < TallyEnd ==> r == tally.GetValue(index, sqrt)
    ensures TallyEnd <= index < CounterEnd ==> r == counter.GetValue(index, now)
    ensures r.Aborted? <==> index < Num || index >= CounterEnd
  {
    if index < TallyEnd then tally.GetValue(index, sqrt)
    else if index < CounterEnd then counter.GetValue(index, now)
    else Aborted
  }

  // ---------------------------------------------------------------------
  // PESEvent
  // ---------------------------------------------------------------------

  /**
   * Counts the occurrences of one event and samples the time between
   * consecutive ones. Every occurrence enters both the counter and the
   * tally, so the count always equals the number of samples.
   */
  class EventSensor {
    const evType: EventType
    var runnable: Option<Ref>
    const tally: Tally
    const counter: Counter
    var lastEvent: real

    ghost function Repr(): set<object>
    {
      {this, tally, counter}
    }

    ghost predicate Valid()
      reads tally, counter
    {
      tally.Valid() && counter.Valid() && counter.count as real == tally.numS
    }

    /** PESEvent(Name, EventType, Interval): unbound, then Reset. */
    constructor (evType: EventType, interval: real, now: real)
      requires interval > 0.0
      ensures Valid() && fresh(tally) && fresh(counter)
      ensures this.evType == evType && runnable.None? && lastEvent == now
      ensures tally.State() == Cleared(interval, now) && counter.State() == CounterCleared(interval, now)
    {
      this.evType := evType;
      runnable := None;
      tally := new Tally(interval, now);
      counter := new Counter(interval, now);
      lastEvent := now;
    }

    /** PESEvent::NotifyOnEvent: the create action of the entity kind and the signal or request action. */
    predicate NotifyOnEvent(action: int)
    {
      if action == TraceProcessCreate then evType.isSignal || !evType.isArrival
      else if action == TraceMachineCreate then !evType.isSignal && evType.isArrival
      else if action == TraceSignalReceive then evType.isSignal
      else if action == TraceServiceRequest then !evType.isSignal
      else false
    }

    predicate Overrides(ev: Event)
    {
      ev.ProcessCreate? || ev.MachineCreate? || ev.SignalReceive? || ev.ServiceRequest?
    }

    /** PESEvent::Reset: tally and counter cleared, the last event is now. */
    method Reset(now: real)
      requires Valid()
      modifies this, tally, counter
      ensures Valid() && runnable == old(runnable) && lastEvent == now
      ensures tally.State() == Cleared(tally.intervalLen, now)
      ensures counter.State() == CounterCleared(counter.intervalLength, now)
    {
      tally.Reset(now);
      counter.Reset(now);
      lastEvent := now;
    }

    /** PESEvent::EvProcessCreate: bind the first process whose type name is the descriptor's. */
    method EvProcessCreate(p: Process)
      modifies this
      ensures lastEvent == old(lastEvent)
      ensures runnable == Bind(old(runnable), SameNamePointer(p.ptype.name, evType.nameProcMach), p.ref)
    {
      if runnable.None? && SameNamePointer(p.ptype.name, evType.nameProcMach) {
        runnable := Some(p.ref);
      }
    }

    /** PESEvent::EvMachineCreate: bind the first machine whose name is the descriptor's. */
    method EvMachineCreate(m: Machine)
      modifies this
      ensures lastEvent == old(lastEvent)
      ensures runnable == Bind(old(runnable), SameNamePointer(m.name, evType.nameProcMach), m.ref)
    {
      if runnable.None? && SameNamePointer(m.name, evType.nameProcMach) {
        runnable := Some(m.ref);
      }
    }

    /** One occurrence: count it and sample the time since the previous one. */
    method Occur(now: real)
      requires Valid()
      modifies this, tally, counter
      ensures Valid() && runnable == old(runnable) && lastEvent == now
      ensures counter.State() == Counted(old(counter.State()), counter.intervalLength, now)
      ensures tally.State() == Folded(old(tally.State()), tally.intervalLen, now - old(lastEvent), 1.0, now)
    {
      counter.UpdateCounter(now);
      tally.UpdateTally(now - lastEvent, 1.0, now);
      lastEvent := now;
    }

    /** PESEvent::EvSignalReceive. */
    method EvSignalReceive(p: Process, sig: Signal, now: real)
      requires Valid()
      modifies this, tally, counter
      ensures Valid() && runnable == old(runnable)
      ensures SignalOccurs(evType, runnable, p, sig) ==>
        lastEvent == now && counter.State() == Counted(old(counter.State()), counter.intervalLength, now) &&
        tally.State() == Folded(old(tally.State()), tally.intervalLen, now - old(lastEvent), 1.0, now)
      ensures !SignalOccurs(evType, runnable, p, sig) ==> unchanged(this, tally, counter)
    {
      if SignalOccurs(evType, runnable, p, sig) {
        Occur(now);
      }
    }

    /** PESEvent::EvServiceRequest. */
    method EvServiceRequest(m: Machine, r: Request, now: real)
      requires Valid()
      modifies this, tally, counter
      ensures Valid() && runnable == old(runnable)
      ensures RequestOccurs(evType, runnable, m, r) ==>
        lastEvent == now && counter.State() == Counted(old(counter.State()), counter.intervalLength, now) &&
        tally.State() == Folded(old(tally.State()), tally.intervalLen, now - old(lastEvent), 1.0, now)
      ensures !RequestOccurs(evType, runnable, m, r) ==> unchanged(this, tally, counter)
    {
      if RequestOccurs(evType, runnable, m, r) {
        Occur(now);
      }
    }

    method Handle(ev: Event, now: real)
      requires Valid()
      modifies this, tally, counter
      ensures Valid()
      ensures !Overrides(ev) ==> unchanged(this, tally, counter)
    {
      match ev
      case ProcessCreate(p, _) => EvProcessCreate(p);
      case MachineCreate(m) => EvMachineCreate(m);
      case SignalReceive(p, sig) => EvSignalReceive(p, sig, now);
      case ServiceRequest(m, r) => EvServiceRequest(m, r, now);
      case _ =>
    }

    /** PESEvent::GetValue. */
    function GetValue(index: int, now: real, sqrt: real -> real): (r: Reading)
      reads tally, counter
      ensures r == CombinedValue(tally, counter, index, now, sqrt)
    {
      CombinedValue(tally, counter, index, now, sqrt)
    }
  }

  // ---------------------------------------------------------------------
  // PESActivity
  // ---------------------------------------------------------------------

  /**
   * An activity runs from an occurrence of its start descriptor to the
   * next occurrence of its stop descriptor. While stopped only the start
   * event is looked for, while running only the stop event. The counter
   * counts starts and the tally samples durations, so the count exceeds
   * the number of durations by one exactly while the activity runs.
   */
  class ActivitySensor {
    const evStart: EventType
    const evStop: EventType
    var runnableStart: Option<Ref>
    var runnableStop: Option<Ref>
    var stopped: bool
    var activityStart: real
    const tally: Tally
    const counter: Counter

    ghost function Repr(): set<object>
    {
      {this, tally, counter}
    }

    ghost predicate Valid()
      reads this, tally, counter
    {
      tally.Valid() && counter.Valid() &&
      counter.count as real == tally.numS + (if stopped then 0.0 else 1.0)
    }

    /** PESActivity(Name, Start, Stop, Interval): stopped, nothing bound. */
    constructor (evStart: EventType, evStop: EventType, interval: real, now: real)
      requires interval > 0.0
      ensures Valid() && fresh(tally) && fresh(counter)
      ensures this.evStart == evStart && this.evStop == evStop
      ensures runnableStart.None? && runnableStop.None? && stopped
      ensures tally.State() == Cleared(interval, now) && counter.State() == CounterCleared(interval, now)
    {
      this.evStart := evStart;
      this.evStop := evStop;
      runnableStart := None;
      runnableStop := None;
      stopped := true;
      activityStart := 0.0;
      tally := new Tally(interval, now);
      counter := new Counter(interval, now);
    }

    /**
     * PESActivity::NotifyOnEvent. The MachineCreate case tests the start
     * descriptor's direction in its stop clause, as the source does.
     */
    predicate NotifyOnEvent(action: int)
    {
      if action == TraceProcessCreate then
        (evStart.isSignal || !evStart.isArrival) || (evStop.isSignal || !evStop.isArrival)
      else if action == TraceMachineCreate then
        (!evStart.isSignal && evStart.isArrival) || (!evStop.isSignal && evStart.isArrival)
      else if action == TraceSignalReceive then evStart.isSignal || evStop.isSignal
      else if action == TraceServiceRequest then !evStart.isSignal || !evStop.isSignal
      else false
    }

    predicate Overrides(ev: Event)
    {
      ev.ProcessCreate? || ev.MachineCreate? || ev.SignalReceive? || ev.ServiceRequest?
    }

    /** PESActivity::Reset: tally and counter cleared, the activity is stopped. */
    method Reset(now: real)
      requires Valid()
      modifies this, tally, counter
      ensures Valid() && stopped && tally.State() == Cleared(tally.intervalLen, now)
      ensures counter.State() == CounterCleared(counter.intervalLength, now)
      ensures runnableStart == old(runnableStart) && runnableStop == old(runnableStop)
    {
      tally.Reset(now);
      counter.Reset(now);
      stopped := true;
    }

    /** A descriptor that binds at process creation: a signal, or a request departing from a process. */
    static predicate BindsAtProcess(d: EventType)
    {
      d.isSignal || !d.isArrival
    }

    /** A descriptor that binds at machine creation: a request arriving at a machine. */
    static predicate BindsAtMachine(d: EventType)
    {
      !d.isSignal && d.isArrival
    }

    /** PESActivity::EvProcessCreate: each descriptor of the process kind binds its first process once. */
    method EvProcessCreate(p: Process)
      modifies this
      ensures stopped == old(stopped)
      ensures runnableStart ==
        Bind(old(runnableStart), BindsAtProcess(evStart) && SameNamePointer(p.ptype.name, evStart.nameProcMach), p.ref)
      ensures runnableStop ==
        Bind(old(runnableStop), BindsAtProcess(evStop) && SameNamePointer(p.ptype.name, evStop.nameProcMach), p.ref)
    {
      if BindsAtProcess(evStart) && runnableStart.None? && SameNamePointer(p.ptype.name, evStart.nameProcMach) {
        runnableStart := Some(p.ref);
      }
      if BindsAtProcess(evStop) && runnableStop.None? && SameNamePointer(p.ptype.name, evStop.nameProcMach) {
        runnableStop := Some(p.ref);
      }
    }

    /** PESActivity::EvMachineCreate: each descriptor of the machine kind binds its first machine once. */
    method EvMachineCreate(m: Machine)
      modifies this
      ensures stopped == old(stopped)
      ensures runnableStart ==
        Bind(old(runnableStart), BindsAtMachine(evStart) && SameNamePointer(m.name, evStart.nameProcMach), m.ref)
      ensures runnableStop ==
        Bind(old(runnableStop), BindsAtMachine(evStop) && SameNamePointer(m.name, evStop.nameProcMach), m.ref)
    {
      if BindsAtMachine(evStart) && runnableStart.None? && SameNamePointer(m.name, evStart.nameProcMach) {
        runnableStart := Some(m.ref);
      }
      if BindsAtMachine(evStop) && runnableStop.None? && SameNamePointer(m.name, evStop.nameProcMach) {
        runnableStop := Some(m.ref);
      }
    }

    /** PESActivity::ActivityStart: running from now on, one more start counted. */
    method ActivityStart(now: real)
      requires Valid() && stopped
      modifies this, tally, counter
      ensures Valid() && !stopped && activityStart == now
      ensures counter.State() == Counted(old(counter.State()), counter.intervalLength, now) && unchanged(tally)
      ensures runnableStart == old(runnableStart) && runnableStop == old(runnableStop)
    {
      stopped := false;
      activityStart := now;
      counter.UpdateCounter(now);
    }

    /** PESActivity::ActivityStop: stopped again, the duration since the start sampled. */
    method ActivityStop(now: real)
      requires Valid() && !stopped
      modifies this, tally, counter
      ensures Valid() && stopped && activityStart == old(activityStart)
      ensures tally.State() == Folded(old(tally.State()), tally.intervalLen, now - old(activityStart), 1.0, now)
      ensures unchanged(counter)
      ensures runnableStart == old(runnableStart) && runnableStop == old(runnableStop)
    {
      stopped := true;
      tally.UpdateTally(now - activityStart, 1.0, now);
    }

    /** PESActivity::EvServiceRequest: a request can only start a stopped activity or stop a running one. */
    method EvServiceRequest(m: Machine, r: Request, now: real)
      requires Valid()
      modifies this, tally, counter
      ensures Valid()
      ensures runnableStart == old(runnableStart) && runnableStop == old(runnableStop)
      ensures old(stopped) && !evStart.isSignal && RequestOccurs(evStart, runnableStart, m, r) ==>
        !stopped && activityStart == now && unchanged(tally) &&
        counter.State() == Counted(old(counter.State()), counter.intervalLength, now)
      ensures !old(stopped) && !evStop.isSignal && RequestOccurs(evStop, runnableStop, m, r) ==>
        stopped && unchanged(counter) &&
        tally.State() == Folded(old(tally.State()), tally.intervalLen, now - old(activityStart), 1.0, now)
      ensures !(old(stopped) && !evStart.isSignal && RequestOccurs(evStart, runnableStart, m, r)) &&
              !(!old(stopped) && !evStop.isSignal && RequestOccurs(evStop, runnableStop, m, r)) ==>
        unchanged(this, tally, counter)
    {
      if stopped {
        if !evStart.isSignal && RequestOccurs(evStart, runnableStart, m, r) {
          ActivityStart(now);
        }
      } else {
        if !evStop.isSignal && RequestOccurs(evStop, runnableStop, m, r) {
          ActivityStop(now);
        }
      }
    }

    /** PESActivity::EvSignalReceive: the same two-state step for signal descriptors. */
    method EvSignalReceive(p: Process, sig: Signal, now: real)
      requires Valid()
      modifies this, tally, counter
      ensures Valid()
      ensures runnableStart == old(runnableStart) && runnableStop == old(runnableStop)
      ensures old(stopped) && evStart.isSignal && SignalOccurs(evStart, runnableStart, p, sig) ==>
        !stopped && activityStart == now && unchanged(tally) &&
        counter.State() == Counted(old(counter.State()), counter.intervalLength, now)
      ensures !old(stopped) && evStop.isSignal && SignalOccurs(evStop, runnableStop, p, sig) ==>
        stopped && unchanged(counter) &&
        tally.State() == Folded(old(tally.State()), tally.intervalLen, now - old(activityStart), 1.0, now)
      ensures !(old(stopped) && evStart.isSignal && SignalOccurs(evStart, runnableStart, p, sig)) &&
              !(!old(stopped) && evStop.isSignal && SignalOccurs(evStop, runnableStop, p, sig)) ==>
        unchanged(this, tally, counter)
    {
      if stopped {
        if evStart.isSignal && SignalOccurs(evStart, runnableStart, p, sig) {
          ActivityStart(now);
        }
      } else {
        if evStop.isSignal && SignalOccurs(evStop, runnableStop, p, sig) {
          ActivityStop(now);
        }
      }
    }

    method Handle(ev: Event, now: real)
      requires Valid()
      modifies this, tally, counter
      ensures Valid()
      ensures !Overrides(ev) ==> unchanged(this, tally, counter)
    {
      match ev
      case ProcessCreate(p, _) => EvProcessCreate(p);
      case MachineCreate(m) => EvMachineCreate(m);
      case SignalReceive(p, sig) => EvSignalReceive(p, sig, now);
      case ServiceRequest(m, r) => EvServiceRequest(m, r, now);
      case _ =>
    }

    /** PESActivity::GetValue. */
    function GetValue(index: int, now: real, sqrt: real -> real): (r: Reading)
      reads tally, counter
      ensures r == CombinedValue(tally, counter, index, now, sqrt)
    {
      CombinedValue(tally, counter, index, now, sqrt)
    }
  }
}
