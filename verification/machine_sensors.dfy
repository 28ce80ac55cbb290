/**
 * Sensors that watch one machine (server station): its queue, the wait and
 * throughput times of its requests, the frequencies of request types, and
 * its utilization. Each is configured by the machine's name and binds to
 * the machine on the first MachineCreate event carrying that name.
 */
module MachineSensors {
  import opened Entities
  import opened DataTypes
  import opened Accumulators
  import opened Events

  /**
   * The utilization sample of a machine with `servers` servers of which
   * `free` are free: the busy share. It is non-negative exactly when no
   * more servers are free than exist.
   */
  function UtilizationSample(servers: ServerCount, free: int): (u: real)
    ensures u * (servers as real) == (servers - free) as real
    ensures u >= 0.0 <==> free <= servers
    ensures 0 <= free ==> u <= 1.0
  {
    var s := servers as real;
    var f := free as real;
    assert (1.0 - f / s) * s == s - f;
    1.0 - f / s
  }

  // ---------------------------------------------------------------------
  // PESMachineQueue with PESMachineQLen / PESMachineQLenFrequency
  // ---------------------------------------------------------------------

  /**
   * The queue in front of a machine: a request arriving or an interrupted
   * request returning lengthens it, a service start shortens it. The sink
   * is the statistic the concrete class feeds (length tally or histogram).
   */
  class MachineQueue {
    var machine: Option<Ref>
    const machineName: Option<CStr>
    const sink: QueueSink

    ghost function Repr(): set<object>
      reads SinkReads(sink)
    {
      {this} + SinkRepr(sink)
    }

    ghost predicate Valid()
      reads SinkReads(sink), SinkRepr(sink)
    {
      SinkValid(sink)
    }

    /** `Machine == machine`: the event's machine is the one this sensor is bound to. */
    predicate Watches(m: Machine)
      reads this
    {
      machine == Some(m.ref)
    }

    /** PESMachineQLen(MachineName, Interval). */
    constructor Length(machineName: Option<CStr>, interval: real, now: real)
      requires interval > 0.0
      ensures Valid() && fresh(SinkRepr(sink))
      ensures machine.None? && this.machineName == machineName
      ensures sink.LengthSink? && SinkQLen(sink) == 0 && SinkIsReset(sink, now)
    {
      machine := None;
      this.machineName := machineName;
      var q := new QueueLength(interval, now);
      sink := LengthSink(q);
    }

    /** PESMachineQLenFrequency(MachineName). */
    constructor Histogram(machineName: Option<CStr>, now: real)
      ensures Valid() && fresh(SinkRepr(sink))
      ensures machine.None? && this.machineName == machineName
      ensures sink.HistogramSink? && SinkQLen(sink) == 0 && SinkIsReset(sink, now)
    {
      machine := None;
      this.machineName := machineName;
      var h := new QueueLengthFrequency(now);
      sink := HistogramSink(h);
    }

    /** PESMachineQueue::NotifyOnEvent. */
    predicate NotifyOnEvent(action: int)
    {
      action == TraceServiceRequest || action == TraceServiceStart ||
      action == TraceServiceInterrupt || action == TraceMachineCreate
    }

    /** The handlers this class overrides; every other one is the base class's no-op. */
    predicate Overrides(ev: Event)
    {
      ev.MachineCreate? || ev.ServiceRequest? || ev.ServiceStart? || ev.ServiceInterrupt?
    }

    /** PESMachine::EvMachineCreate: bind by name once. */
    method EvMachineCreate(m: Machine)
      modifies this
      ensures machine == Bind(old(machine), NameMatches(machineName, m.name), m.ref)
    {
      machine := Bind(machine, NameMatches(machineName, m.name), m.ref);
    }

    /** The common body of the three queue handlers: change the length by `diff` if the machine is ours. */
    method Change(m: Machine, diff: int, now: real, stats: QueueStats)
      requires Valid()
      modifies Repr(), stats
      ensures Valid() && fresh(Repr() - old(Repr())) && machine == old(machine)
      ensures Watches(m) ==> SinkStepped(sink, diff, now, stats)
      ensures !Watches(m) ==> Repr() == old(Repr()) && unchanged(Repr()) && unchanged(stats)
    {
      if machine == Some(m.ref) {
        SinkUpdate(sink, diff, now, stats);
      }
    }

    /** PESMachineQueue::EvServiceRequest: a request joins the queue. */
    method EvServiceRequest(m: Machine, now: real, stats: QueueStats)
      requires Valid()
      modifies Repr(), stats
      ensures Valid() && fresh(Repr() - old(Repr())) && machine == old(machine)
      ensures Watches(m) ==> SinkStepped(sink, 1, now, stats)
      ensures !Watches(m) ==> Repr() == old(Repr()) && unchanged(Repr()) && unchanged(stats)
    {
      Change(m, 1, now, stats);
    }

    /** PESMachineQueue::EvServiceStart: a request leaves the queue for a server. */
    method EvServiceStart(m: Machine, now: real, stats: QueueStats)
      requires Valid()
      modifies Repr(), stats
      ensures Valid() && fresh(Repr() - old(Repr())) && machine == old(machine)
      ensures Watches(m) ==> SinkStepped(sink, -1, now, stats)
      ensures !Watches(m) ==> Repr() == old(Repr()) && unchanged(Repr()) && unchanged(stats)
    {
      Change(m, -1, now, stats);
    }

    /** PESMachineQueue::EvServiceInterrupt: an interrupted request returns to the queue. */
    method EvServiceInterrupt(m: Machine, now: real, stats: QueueStats)
      requires Valid()
      modifies Repr(), stats
      ensures Valid() && fresh(Repr() - old(Repr())) && machine == old(machine)
      ensures Watches(m) ==> SinkStepped(sink, 1, now, stats)
      ensures !Watches(m) ==> Repr() == old(Repr()) && unchanged(Repr()) && unchanged(stats)
    {
      Change(m, 1, now, stats);
    }

    /** The sensor's handler table: the overridden handlers, and no-ops for the rest. */
    method Handle(ev: Event, now: real, stats: QueueStats)
      requires Valid()
      modifies Repr(), stats
      ensures Valid() && fresh(Repr() - old(Repr()))
      ensures !Overrides(ev) ==> Repr() == old(Repr()) && unchanged(Repr()) && unchanged(stats)
    {
      match ev
      case MachineCreate(m) => EvMachineCreate(m);
      case ServiceRequest(m, _) => EvServiceRequest(m, now, stats);
      case ServiceStart(m, _) => EvServiceStart(m, now, stats);
      case ServiceInterrupt(m, _) => EvServiceInterrupt(m, now, stats);
      case _ =>
    }

    /** Reset: the queue statistic is cleared; the length and the binding stay. */
    method Reset(now: real)
      requires Valid()
      modifies Repr()
      ensures Valid() && Repr() == old(Repr()) && machine == old(machine)
      ensures SinkQLen(sink) == old(SinkQLen(sink)) && SinkIsReset(sink, now)
    {
      SinkReset(sink, now);
    }

    function GetValue(index: int, sqrt: real -> real): (r: Reading)
      requires Valid()
      reads SinkReads(sink), SinkRepr(sink)
      ensures sink.LengthSink? && index == Cql ==> r == Value(SinkQLen(sink) as real)
      ensures sink.LengthSink? && index != Cql ==> r == sink.len.tally.GetValue(index, sqrt)
      ensures sink.HistogramSink? ==> r == FrequencyValue(sink.hist.freq, index)
    {
      SinkValue(sink, index, sqrt)
    }
  }

  // ---------------------------------------------------------------------
  // PESRequestWaitTime and PESRequestThruTime
  // ---------------------------------------------------------------------

  /**
   * The time requests wait in a machine's queue, sampled when their
   * service starts. An optional request name restricts it to one request
   * type, bound lazily like the machine.
   */
  class RequestWaitTime {
    var machine: Option<Ref>
    const machineName: Option<CStr>
    var requestType: Option<Ref>
    const requestName: Option<CStr>
    const tally: Tally

    ghost function Repr(): set<object>
    {
      {this, tally}
    }

    ghost predicate Valid()
      reads tally
    {
      tally.Valid()
    }

    /** PESRequestWaitTime(MachineName, Interval, RequestName). */
    constructor (machineName: Option<CStr>, interval: real, requestName: Option<CStr>, now: real)
      requires interval > 0.0
      ensures Valid() && fresh(tally) && tally.State() == Cleared(interval, now)
      ensures machine.None? && requestType.None?
      ensures this.machineName == machineName && this.requestName == requestName
    {
      machine := None;
      this.machineName := machineName;
      requestType := None;
      this.requestName := requestName;
      tally := new Tally(interval, now);
    }

    predicate NotifyOnEvent(action: int)
    {
      action == TraceServiceStart || action == TraceMachineCreate
    }

    predicate Overrides(ev: Event)
    {
      ev.MachineCreate? || ev.ServiceStart?
    }

    method EvMachineCreate(m: Machine)
      modifies this
      ensures requestType == old(requestType)
      ensures machine == Bind(old(machine), NameMatches(machineName, m.name), m.ref)
    {
      machine := Bind(machine, NameMatches(machineName, m.name), m.ref);
    }

    /**
     * PESRequestWaitTime::EvServiceStart: the request type binds by name
     * whatever the machine; the wait is recorded for this machine and an
     * admitted type.
     */
    method EvServiceStart(m: Machine, r: Request, now: real)
      requires Valid()
      modifies this, tally
      ensures Valid() && machine == old(machine)
      ensures requestType == Bind(old(requestType), NameMatches(requestName, r.rtype.name), r.rtype.ref)
      ensures machine == Some(m.ref) && TypeAdmits(requestType, r.rtype.ref) ==>
        tally.State() == Folded(old(tally.State()), tally.intervalLen, now - r.waitStartTime, 1.0, now)
      ensures !(machine == Some(m.ref) && TypeAdmits(requestType, r.rtype.ref)) ==> unchanged(tally)
    {
      requestType := Bind(requestType, NameMatches(requestName, r.rtype.name), r.rtype.ref);
      if machine == Some(m.ref) && TypeAdmits(requestType, r.rtype.ref) {
        tally.UpdateTally(now - r.waitStartTime, 1.0, now);
      }
    }

    method Handle(ev: Event, now: real)
      requires Valid()
      modifies this, tally
      ensures Valid()
      ensures !Overrides(ev) ==> unchanged(this, tally)
    {
      match ev
      case MachineCreate(m) => EvMachineCreate(m);
      case ServiceStart(m, r) => EvServiceStart(m, r, now);
      case _ =>
    }

    method Reset(now: real)
      requires Valid()
      modifies tally
      ensures Valid() && tally.State() == Cleared(tally.intervalLen, now)
    {
      tally.Reset(now);
    }

    function GetValue(index: int, sqrt: real -> real): (r: Reading)
      reads tally
      ensures r == tally.GetValue(index, sqrt)
    {
      tally.GetValue(index, sqrt)
    }
  }

  /**
   * The time from a request's creation to the end of its service at a
   * machine, sampled when the service finishes; filtered like the wait time.
   */
  class RequestThruTime {
    var machine: Option<Ref>
    const machineName: Option<CStr>
    var requestType: Option<Ref>
    const requestName: Option<CStr>
    const tally: Tally

    ghost function Repr(): set<object>
    {
      {this, tally}
    }

    ghost predicate Valid()
      reads tally
    {
      tally.Valid()
    }

    /** PESRequestThruTime(MachineName, Interval, RequestName). */
    constructor (machineName: Option<CStr>, interval: real, requestName: Option<CStr>, now: real)
      requires interval > 0.0
      ensures Valid() && fresh(tally) && tally.State() == Cleared(interval, now)
      ensures machine.None? && requestType.None?
      ensures this.machineName == machineName && this.requestName == requestName
    {
      machine := None;
      this.machineName := machineName;
      requestType := None;
      this.requestName := requestName;
      tally := new Tally(interval, now);
    }

    predicate NotifyOnEvent(action: int)
    {
      action == TraceServiceFinish || action == TraceMachineCreate
    }

    predicate Overrides(ev: Event)
    {
      ev.MachineCreate? || ev.ServiceFinish?
    }

    method EvMachineCreate(m: Machine)
      modifies this
      ensures requestType == old(requestType)
      ensures machine == Bind(old(machine), NameMatches(machineName, m.name), m.ref)
    {
      machine := Bind(machine, NameMatches(machineName, m.name), m.ref);
    }

    /** PESRequestThruTime::EvServiceFinish: records the time since the request's creation. */
    method EvServiceFinish(m: Machine, r: Request, now: real)
      requires Valid()
      modifies this, tally
      ensures Valid() && machine == old(machine)
      ensures requestType == Bind(old(requestType), NameMatches(requestName, r.rtype.name), r.rtype.ref)
      ensures machine == Some(m.ref) && TypeAdmits(requestType, r.rtype.ref) ==>
        tally.State() == Folded(old(tally.State()), tally.intervalLen, now - r.creationTime, 1.0, now)
      ensures !(machine == Some(m.ref) && TypeAdmits(requestType, r.rtype.ref)) ==> unchanged(tally)
    {
      requestType := Bind(requestType, NameMatches(requestName, r.rtype.name), r.rtype.ref);
      if machine == Some(m.ref) && TypeAdmits(requestType, r.rtype.ref) {
        tally.UpdateTally(now - r.creationTime, 1.0, now);
      }
    }

    method Handle(ev: Event, now: real)
      requires Valid()
      modifies this, tally
      ensures Valid()
      ensures !Overrides(ev) ==> unchanged(this, tally)
    {
      match ev
      case MachineCreate(m) => EvMachineCreate(m);
      case ServiceFinish(m, r) => EvServiceFinish(m, r, now);
      case _ =>
    }

    method Reset(now: real)
      requires Valid()
      modifies tally
      ensures Valid() && tally.State() == Cleared(tally.intervalLen, now)
    {
      tally.Reset(now);
    }

    function GetValue(index: int, sqrt: real -> real): (r: Reading)
      reads tally
      ensures r == tally.GetValue(index, sqrt)
    {
      tally.GetValue(index, sqrt)
    }
  }

  // ---------------------------------------------------------------------
  // PESRequestFrequency and PESGlobalRequestFrequency
  // ---------------------------------------------------------------------

  /**
   * How often each request type is issued: either the requests arriving
   * at a machine (`reqIn`) or those issued by processes of one type. The
   * histogram is indexed by request type id.
   */
  class RequestFrequency {
    var machine: Option<Ref>
    const machineName: Option<CStr>
    var processType: Option<Ref>
    const processName: Option<CStr>
    const reqIn: bool
    const freq: Frequency

    ghost function Repr(): set<object>
      reads freq
    {
      {this, freq, freq.data}
    }

    ghost predicate Valid()
      reads freq, freq.data
    {
      freq.Valid()
    }

    /** PESRequestFrequency(MachineName, ProcessName, RequestIn). */
    constructor (machineName: Option<CStr>, processName: Option<CStr>, reqIn: bool)
      ensures Valid() && fresh(freq) && fresh(freq.data) && freq.data[..] == Zeros(1)
      ensures machine.None? && processType.None? && this.reqIn == reqIn
      ensures this.machineName == machineName && this.processName == processName
    {
      machine := None;
      this.machineName := machineName;
      processType := None;
      this.processName := processName;
      this.reqIn := reqIn;
      freq := new Frequency(1);
    }

    /** Requests always; the create action of whichever entity the sensor filters by. */
    predicate NotifyOnEvent(action: int)
    {
      action == TraceServiceRequest ||
      (reqIn && action == TraceMachineCreate) ||
      (!reqIn && action == TraceProcessCreate)
    }

    predicate Overrides(ev: Event)
    {
      ev.MachineCreate? || ev.ProcessCreate? || ev.ServiceRequest?
    }

    /** The request is counted: it arrives at our machine, or its caller has our process type. */
    predicate Counts(m: Machine, r: Request)
      reads this
    {
      (reqIn && machine == Some(m.ref)) || (!reqIn && processType == Some(r.caller.ptype.ref))
    }

    method EvMachineCreate(m: Machine)
      modifies this
      ensures processType == old(processType)
      ensures machine == Bind(old(machine), NameMatches(machineName, m.name), m.ref)
    {
      machine := Bind(machine, NameMatches(machineName, m.name), m.ref);
    }

    /** PESProcess::EvProcessCreate: bind the process type by name once. */
    method EvProcessCreate(p: Process)
      modifies this
      ensures machine == old(machine)
      ensures processType == Bind(old(processType), NameMatches(processName, p.ptype.name), p.ptype.ref)
    {
      processType := Bind(processType, NameMatches(processName, p.ptype.name), p.ptype.ref);
    }

    /** PESRequestFrequency::EvServiceRequest: one more request of this type. */
    method EvServiceRequest(m: Machine, r: Request)
      requires Valid()
      modifies freq, freq.data
      ensures Valid() && (freq.data == old(freq.data) || fresh(freq.data))
      ensures Counts(m, r) ==>
        freq.data[..] == Changed(old(freq.data[..]), r.rtype.id, 1.0) && freq.sum == old(freq.sum) + 1.0
      ensures !Counts(m, r) ==> freq.data == old(freq.data) && unchanged(freq, freq.data)
    {
      if (reqIn && machine == Some(m.ref)) || (!reqIn && processType == Some(r.caller.ptype.ref)) {
        freq.ChangeVal(r.rtype.id, 1.0);
      }
    }

    method Handle(ev: Event)
      requires Valid()
      modifies Repr()
      ensures Valid() && fresh(Repr() - old(Repr()))
      ensures !Overrides(ev) ==> Repr() == old(Repr()) && unchanged(Repr())
    {
      match ev
      case MachineCreate(m) => EvMachineCreate(m);
      case ProcessCreate(p, _) => EvProcessCreate(p);
      case ServiceRequest(m, r) => EvServiceRequest(m, r);
      case _ =>
    }

    /** PESFrequency::Reset: every entry back to 0; the length stays. */
    method Reset()
      requires Valid()
      modifies freq, freq.data
      ensures Valid() && freq.data == old(freq.data)
      ensures freq.data[..] == Zeros(freq.data.Length) && freq.sum == 0.0
    {
      freq.Reset();
    }

    function GetValue(index: int): (r: Reading)
      requires Valid()
      reads freq, freq.data
      ensures r == FrequencyValue(freq, index)
    {
      FrequencyValue(freq, index)
    }
  }

  /** Every request issued anywhere, by request type. */
  class GlobalRequestFrequency {
    const freq: Frequency

    ghost function Repr(): set<object>
      reads freq
    {
      {this, freq, freq.data}
    }

    ghost predicate Valid()
      reads freq, freq.data
    {
      freq.Valid()
    }

    constructor ()
      ensures Valid() && fresh(freq) && fresh(freq.data) && freq.data[..] == Zeros(1)
    {
      freq := new Frequency(1);
    }

    predicate NotifyOnEvent(action: int)
    {
      action == TraceServiceRequest
    }

    predicate Overrides(ev: Event)
    {
      ev.ServiceRequest?
    }

    method EvServiceRequest(r: Request)
      requires Valid()
      modifies freq, freq.data
      ensures Valid() && (freq.data == old(freq.data) || fresh(freq.data))
      ensures freq.data[..] == Changed(old(freq.data[..]), r.rtype.id, 1.0)
      ensures freq.sum == old(freq.sum) + 1.0
    {
      freq.ChangeVal(r.rtype.id, 1.0);
    }

    method Handle(ev: Event)
      requires Valid()
      modifies Repr()
      ensures Valid() && fresh(Repr() - old(Repr()))
      ensures !Overrides(ev) ==> Repr() == old(Repr()) && unchanged(Repr())
    {
      match ev
      case ServiceRequest(_, r) => EvServiceRequest(r);
      case _ =>
    }

    method Reset()
      requires Valid()
      modifies freq, freq.data
      ensures Valid() && freq.data == old(freq.data)
      ensures freq.data[..] == Zeros(freq.data.Length) && freq.sum == 0.0
    {
      freq.Reset();
    }

    function GetValue(index: int): (r: Reading)
      requires Valid()
      reads freq, freq.data
      ensures r == FrequencyValue(freq, index)
    {
      FrequencyValue(freq, index)
    }
  }

  // ---------------------------------------------------------------------
  // PESMachineUtilization
  // ---------------------------------------------------------------------

  /**
   * The busy share of a machine's servers, weighted by how long it lasted.
   * The handlers assert that the sample is non-negative; a failed
   * assertion aborts the simulation, which the handlers report by
   * returning `ok == false` before changing anything.
   */
  class MachineUtilization {
    var machine: Option<Ref>
    const machineName: Option<CStr>
    const tally: Tally
    var lastChange: real

    ghost function Repr(): set<object>
    {
      {this, tally}
    }

    ghost predicate Valid()
      reads tally
    {
      tally.Valid()
    }

    /** PESMachineUtilization(MachineName, Interval): the last change is at time 0. */
    constructor (machineName: Option<CStr>, interval: real, now: real)
      requires interval > 0.0
      ensures Valid() && fresh(tally) && tally.State() == Cleared(interval, now)
      ensures machine.None? && this.machineName == machineName && lastChange == 0.0
    {
      machine := None;
      this.machineName := machineName;
      tally := new Tally(interval, now);
      lastChange := 0.0;
    }

    predicate NotifyOnEvent(action: int)
    {
      action == TraceServiceStart || action == TraceServiceInterrupt ||
      action == TraceServiceFinish || action == TraceMachineCreate
    }

    predicate Overrides(ev: Event)
    {
      ev.MachineCreate? || ev.ServiceStart? || ev.ServiceInterrupt? || ev.ServiceFinish?
    }

    method EvMachineCreate(m: Machine)
      modifies this
      ensures lastChange == old(lastChange)
      ensures machine == Bind(old(machine), NameMatches(machineName, m.name), m.ref)
    {
      machine := Bind(machine, NameMatches(machineName, m.name), m.ref);
    }

    /**
     * The common body of the three handlers: for our machine, `free` is the
     * free-server count the handler computes. A negative sample fails the
     * assertion; otherwise it enters the tally weighted by the time since
     * the last change, and the last change moves to `now`.
     */
    method Sample(m: Machine, free: int, now: real) returns (ok: bool)
      requires Valid()
      modifies this, tally
      ensures Valid() && machine == old(machine)
      ensures ok <==> !(machine == Some(m.ref)) || free <= m.numServers
      ensures !(ok && machine == Some(m.ref)) ==> unchanged(this, tally)
      ensures ok && machine == Some(m.ref) ==>
        lastChange == now &&
        tally.State() == Folded(old(tally.State()), tally.intervalLen,
                                UtilizationSample(m.numServers, free), now - old(lastChange), now)
    {
      ok := true;
      if machine == Some(m.ref) {
        var weight := now - lastChange;
        var sample := UtilizationSample(m.numServers, free);
        if sample < 0.0 {
          ok := false;
          return;
        }
        tally.UpdateTally(sample, weight, now);
        lastChange := now;
      }
    }

    /** A service starts: one server fewer is free than the machine reports plus one. */
    method EvServiceStart(m: Machine, now: real) returns (ok: bool)
      requires Valid()
      modifies this, tally
      ensures Valid() && machine == old(machine)
      ensures ok <==> !(machine == Some(m.ref)) || m.numFreeServers + 1 <= m.numServers
      ensures !(ok && machine == Some(m.ref)) ==> unchanged(this, tally)
      ensures ok && machine == Some(m.ref) ==>
        lastChange == now &&
        tally.State() == Folded(old(tally.State()), tally.intervalLen,
                                UtilizationSample(m.numServers, m.numFreeServers + 1), now - old(lastChange), now)
    {
      ok := Sample(m, m.numFreeServers + 1, now);
    }

    method EvServiceInterrupt(m: Machine, now: real) returns (ok: bool)
      requires Valid()
      modifies this, tally
      ensures Valid() && machine == old(machine)
      ensures ok <==> !(machine == Some(m.ref)) || m.numFreeServers - 1 <= m.numServers
      ensures !(ok && machine == Some(m.ref)) ==> unchanged(this, tally)
      ensures ok && machine == Some(m.ref) ==>
        lastChange == now &&
        tally.State() == Folded(old(tally.State()), tally.intervalLen,
                                UtilizationSample(m.numServers, m.numFreeServers - 1), now - old(lastChange), now)
    {
      ok := Sample(m, m.numFreeServers - 1, now);
    }

    method EvServiceFinish(m: Machine, now: real) returns (ok: bool)
      requires Valid()
      modifies this, tally
      ensures Valid() && machine == old(machine)
      ensures ok <==> !(machine == Some(m.ref)) || m.numFreeServers - 1 <= m.numServers
      ensures !(ok && machine == Some(m.ref)) ==> unchanged(this, tally)
      ensures ok && machine == Some(m.ref) ==>
        lastChange == now &&
        tally.State() == Folded(old(tally.State()), tally.intervalLen,
                                UtilizationSample(m.numServers, m.numFreeServers - 1), now - old(lastChange), now)
    {
      ok := Sample(m, m.numFreeServers - 1, now);
    }

    method Handle(ev: Event, now: real) returns (ok: bool)
      requires Valid()
      modifies this, tally
      ensures Valid()
      ensures !Overrides(ev) ==> ok && unchanged(this, tally)
    {
      ok := true;
      match ev
      case MachineCreate(m) => EvMachineCreate(m);
      case ServiceStart(m, _) => ok := EvServiceStart(m, now);
      case ServiceInterrupt(m, _) => ok := EvServiceInterrupt(m, now);
      case ServiceFinish(m, _) => ok := EvServiceFinish(m, now);
      case _ =>
    }

    /** PESMachineUtilization::Reset: the tally is cleared and the last change is now. */
    method Reset(now: real)
      requires Valid()
      modifies this, tally
      ensures Valid() && tally.State() == Cleared(tally.intervalLen, now)
      ensures lastChange == now && machine == old(machine)
    {
      tally.Reset(now);
      lastChange := now;
    }

    function GetValue(index: int, sqrt: real -> real): (r: Reading)
      reads tally
      ensures r == tally.GetValue(index, sqrt)
    {
      tally.GetValue(index, sqrt)
    }
  }
}
