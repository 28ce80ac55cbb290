/**
 * Sensors that watch the processes of one process type: their input
 * queues, the number of live instances, the wait times and frequencies of
 * signals, and how long the processes stay in each state. Each is
 * configured by the type's name and binds to the type on the first
 * ProcessCreate event of a process of that type.
 */
module ProcessSensors {
  import opened Entities
  import opened DataTypes
  import opened Accumulators
  import opened Events

  /** The row a Gantt display asks a state-frequency sensor for. */
  const GanttState: int := 70

  /** `Signal->GetSenderType()` as a possibly null reference. */
  function SenderTypeRef(sig: Signal): (t: Option<Ref>)
    ensures t.None? <==> sig.senderType.None?
    ensures t.Some? ==> t.value == sig.senderType.value.ref
  {
    match sig.senderType
    case None => None
    case Some(pt) => Some(pt.ref)
  }

  // ---------------------------------------------------------------------
  // PESProcessQueue with PESProcessQLen / PESProcessQLenFrequency
  // ---------------------------------------------------------------------

  /**
   * The input queue of the processes of one type: a received signal
   * lengthens it, a consumed or dropped one shortens it.
   */
  class ProcessQueue {
    var processType: Option<Ref>
    const processName: Option<CStr>
    const sink: QueueSink

    ghost function Repr(): set<object>
      reads SinkReads(sink)
    {
      {this} + SinkRepr(sink)
    }

    ghost predicate Valid()
      reads SinkReads(sink), SinkRepr(sink)
    {
      SinkValid(sink)
    }

    /** `Process->GetType() == processType`. */
    predicate Watches(p: Process)
      reads this
    {
      processType == Some(p.ptype.ref)
    }

    /** PESProcessQLen(ProcessName, Interval). */
    constructor Length(processName: Option<CStr>, interval: real, now: real)
      requires interval > 0.0
      ensures Valid() && fresh(SinkRepr(sink))
      ensures processType.None? && this.processName == processName
      ensures sink.LengthSink? && SinkQLen(sink) == 0 && SinkIsReset(sink, now)
    {
      processType := None;
      this.processName := processName;
      var q := new QueueLength(interval, now);
      sink := LengthSink(q);
    }

    /** PESProcessQLenFrequency(ProcessName). */
    constructor Histogram(processName: Option<CStr>, now: real)
      ensures Valid() && fresh(SinkRepr(sink))
      ensures processType.None? && this.processName == processName
      ensures sink.HistogramSink? && SinkQLen(sink) == 0 && SinkIsReset(sink, now)
    {
      processType := None;
      this.processName := processName;
      var h := new QueueLengthFrequency(now);
      sink := HistogramSink(h);
    }

    /** PESProcessQueue::NotifyOnEvent. */
    predicate NotifyOnEvent(action: int)
    {
      action == TraceSignalReceive || action == TraceSignalConsume ||
      action == TraceSignalDrop || action == TraceProcessCreate
    }

    predicate Overrides(ev: Event)
    {
      ev.ProcessCreate? || ev.SignalReceive? || ev.SignalConsume? || ev.SignalDrop?
    }

    /** PESProcess::EvProcessCreate: bind the process type by name once. */
    method EvProcessCreate(p: Process)
      modifies this
      ensures processType == Bind(old(processType), NameMatches(processName, p.ptype.name), p.ptype.ref)
    {
      processType := Bind(processType, NameMatches(processName, p.ptype.name), p.ptype.ref);
    }

    /** The common body of the three queue handlers. */
    method Change(p: Process, diff: int, now: real, stats: QueueStats)
      requires Valid()
      modifies Repr(), stats
      ensures Valid() && fresh(Repr() - old(Repr())) && processType == old(processType)
      ensures Watches(p) ==> SinkStepped(sink, diff, now, stats)
      ensures !Watches(p) ==> Repr() == old(Repr()) && unchanged(Repr()) && unchanged(stats)
    {
      if processType == Some(p.ptype.ref) {
        SinkUpdate(sink, diff, now, stats);
      }
    }

    /** PESProcessQueue::EvSignalReceive: a signal enters the input queue. */
    method EvSignalReceive(p: Process, now: real, stats: QueueStats)
      requires Valid()
      modifies Repr(), stats
      ensures Valid() && fresh(Repr() - old(Repr())) && processType == old(processType)
      ensures Watches(p) ==> SinkStepped(sink, 1, now, stats)
      ensures !Watches(p) ==> Repr() == old(Repr()) && unchanged(Repr()) && unchanged(stats)
    {
      Change(p, 1, now, stats);
    }

    /** PESProcessQueue::EvSignalConsume: a signal is taken from the input queue. */
    method EvSignalConsume(p: Process, now: real, stats: QueueStats)
      requires Valid()
      modifies Repr(), stats
      ensures Valid() && fresh(Repr() - old(Repr())) && processType == old(processType)
      ensures Watches(p) ==> SinkStepped(sink, -1, now, stats)
      ensures !Watches(p) ==> Repr() == old(Repr()) && unchanged(Repr()) && unchanged(stats)
    {
      Change(p, -1, now, stats);
    }

    /** PESProcessQueue::EvSignalDrop: a signal is discarded from the input queue. */
    method EvSignalDrop(p: Process, now: real, stats: QueueStats)
      requires Valid()
      modifies Repr(), stats
      ensures Valid() && fresh(Repr() - old(Repr())) && processType == old(processType)
      ensures Watches(p) ==> SinkStepped(sink, -1, now, stats)
      ensures !Watches(p) ==> Repr() == old(Repr()) && unchanged(Repr()) && unchanged(stats)
    {
      Change(p, -1, now, stats);
    }

    method Handle(ev: Event, now: real, stats: QueueStats)
      requires Valid()
      modifies Repr(), stats
      ensures Valid() && fresh(Repr() - old(Repr()))
      ensures !Overrides(ev) ==> Repr() == old(Repr()) && unchanged(Repr()) && unchanged(stats)
    {
      match ev
      case ProcessCreate(p, _) => EvProcessCreate(p);
      case SignalReceive(p, _) => EvSignalReceive(p, now, stats);
      case SignalConsume(p, _) => EvSignalConsume(p, now, stats);
      case SignalDrop(p, _) => EvSignalDrop(p, now, stats);
      case _ =>
    }

    method Reset(now: real)
      requires Valid()
      modifies Repr()
      ensures Valid() && Repr() == old(Repr()) && processType == old(processType)
      ensures SinkQLen(sink) == old(SinkQLen(sink)) && SinkIsReset(sink, now)
    {
      SinkReset(sink, now);
    }

    function GetValue(index: int, sqrt: real -> real): (r: Reading)
      requires Valid()
      reads SinkReads(sink), SinkRepr(sink)
      ensures sink.LengthSink? && index == Cql ==> r == Value(SinkQLen(sink) as real)
      ensures sink.LengthSink? && index != Cql ==> r == sink.len.tally.GetValue(index, sqrt)
      ensures sink.HistogramSink? ==> r == FrequencyValue(sink.hist.freq, index)
    {
      SinkValue(sink, index, sqrt)
    }
  }

  // ---------------------------------------------------------------------
  // PESSignalWaitTime
  // ---------------------------------------------------------------------

  /**
   * The time signals wait before a process of the watched type consumes
   * them; an optional signal name restricts it to one signal type.
   */
  class SignalWaitTime {
    var processType: Option<Ref>
    const processName: Option<CStr>
    var signalType: Option<Ref>
    const signalName: Option<CStr>
    const tally: Tally

    ghost function Repr(): set<object>
    {
      {this, tally}
    }

    ghost predicate Valid()
      reads tally
    {
      tally.Valid()
    }

    /** PESSignalWaitTime(ProcessName, Interval, SignalName). */
    constructor (processName: Option<CStr>, interval: real, signalName: Option<CStr>, now: real)
      requires interval > 0.0
      ensures Valid() && fresh(tally) && tally.State() == Cleared(interval, now)
      ensures processType.None? && signalType.None?
      ensures this.processName == processName && this.signalName == signalName
    {
      processType := None;
      this.processName := processName;
      signalType := None;
      this.signalName := signalName;
      tally := new Tally(interval, now);
    }

    predicate NotifyOnEvent(action: int)
    {
      action == TraceSignalConsume || action == TraceProcessCreate
    }

    predicate Overrides(ev: Event)
    {
      ev.ProcessCreate? || ev.SignalConsume?
    }

    method EvProcessCreate(p: Process)
      modifies this
      ensures signalType == old(signalType)
      ensures processType == Bind(old(processType), NameMatches(processName, p.ptype.name), p.ptype.ref)
    {
      processType := Bind(processType, NameMatches(processName, p.ptype.name), p.ptype.ref);
    }

    /**
     * PESSignalWaitTime::EvSignalConsume: the signal type binds by name
     * whatever the process; the wait since the signal's creation is
     * recorded for the watched type and an admitted signal type.
     */
    method EvSignalConsume(p: Process, sig: Signal, now: real)
      requires Valid()
      modifies this, tally
      ensures Valid() && processType == old(processType)
      ensures signalType == Bind(old(signalType), NameMatches(signalName, sig.stype.name), sig.stype.ref)
      ensures processType == Some(p.ptype.ref) && TypeAdmits(signalType, sig.stype.ref) ==>
        tally.State() == Folded(old(tally.State()), tally.intervalLen, now - sig.creationTime, 1.0, now)
      ensures !(processType == Some(p.ptype.ref) && TypeAdmits(signalType, sig.stype.ref)) ==> unchanged(tally)
    {
      signalType := Bind(signalType, NameMatches(signalName, sig.stype.name), sig.stype.ref);
      if processType == Some(p.ptype.ref) && TypeAdmits(signalType, sig.stype.ref) {
        tally.UpdateTally(now - sig.creationTime, 1.0, now);
      }
    }

    method Handle(ev: Event, now: real)
      requires Valid()
      modifies this, tally
      ensures Valid()
      ensures !Overrides(ev) ==> unchanged(this, tally)
    {
      match ev
      case ProcessCreate(p, _) => EvProcessCreate(p);
      case SignalConsume(p, sig) => EvSignalConsume(p, sig, now);
      case _ =>
    }

    method Reset(now: real)
      requires Valid()
      modifies tally
      ensures Valid() && tally.State() == Cleared(tally.intervalLen, now)
    {
      tally.Reset(now);
    }

    function GetValue(index: int, sqrt: real -> real): (r: Reading)
      reads tally
      ensures r == tally.GetValue(index, sqrt)
    {
      tally.GetValue(index, sqrt)
    }
  }

  // ---------------------------------------------------------------------
  // PESSignalFrequency and PESGlobalSignalFrequency
  // ---------------------------------------------------------------------

  /**
   * How often each signal type is received: by processes of the watched
   * type (`sigIn`), or sent by them. A signal from the environment has a
   * null sender type, which equals the still-null type of an unbound sensor.
   */
  class SignalFrequency {
    var processType: Option<Ref>
    const processName: Option<CStr>
    const sigIn: bool
    const freq: Frequency

    ghost function Repr(): set<object>
      reads freq
    {
      {this, freq, freq.data}
    }

    ghost predicate Valid()
      reads freq, freq.data
    {
      freq.Valid()
    }

    /** PESSignalFrequency(ProcessName, SignalIn). */
    constructor (processName: Option<CStr>, sigIn: bool)
      ensures Valid() && fresh(freq) && fresh(freq.data) && freq.data[..] == Zeros(1)
      ensures processType.None? && this.processName == processName && this.sigIn == sigIn
    {
      processType := None;
      this.processName := processName;
      this.sigIn := sigIn;
      freq := new Frequency(1);
    }

    predicate NotifyOnEvent(action: int)
    {
      action == TraceSignalReceive || action == TraceProcessCreate
    }

    predicate Overrides(ev: Event)
    {
      ev.ProcessCreate? || ev.SignalReceive?
    }

    /** The signal is counted: its receiver, or its sender, has the watched type. */
    predicate Counts(p: Process, sig: Signal)
      reads this
    {
      (sigIn && processType == Some(p.ptype.ref)) || (!sigIn && SenderTypeRef(sig) == processType)
    }

    method EvProcessCreate(p: Process)
      modifies this
      ensures processType == Bind(old(processType), NameMatches(processName, p.ptype.name), p.ptype.ref)
    {
      processType := Bind(processType, NameMatches(processName, p.ptype.name), p.ptype.ref);
    }

    /** PESSignalFrequency::EvSignalReceive: one more signal of this type. */
    method EvSignalReceive(p: Process, sig: Signal)
      requires Valid()
      modifies freq, freq.data
      ensures Valid() && (freq.data == old(freq.data) || fresh(freq.data))
      ensures Counts(p, sig) ==>
        freq.data[..] == Changed(old(freq.data[..]), sig.stype.id, 1.0) && freq.sum == old(freq.sum) + 1.0
      ensures !Counts(p, sig) ==> freq.data == old(freq.data) && unchanged(freq, freq.data)
    {
      if (sigIn && processType == Some(p.ptype.ref)) || (!sigIn && SenderTypeRef(sig) == processType) {
        freq.ChangeVal(sig.stype.id, 1.0);
      }
    }

    method Handle(ev: Event)
      requires Valid()
      modifies Repr()
      ensures Valid() && fresh(Repr() - old(Repr()))
      ensures !Overrides(ev) ==> Repr() == old(Repr()) && unchanged(Repr())
    {
      match ev
      case ProcessCreate(p, _) => EvProcessCreate(p);
      case SignalReceive(p, sig) => EvSignalReceive(p, sig);
      case _ =>
    }

    method Reset()
      requires Valid()
      modifies freq, freq.data
      ensures Valid() && freq.data == old(freq.data)
      ensures freq.data[..] == Zeros(freq.data.Length) && freq.sum == 0.0
    {
      freq.Reset();
    }

    function GetValue(index: int): (r: Reading)
      requires Valid()
      reads freq, freq.data
      ensures r == FrequencyValue(freq, index)
    {
      FrequencyValue(freq, index)
    }
  }

  /** Every signal received anywhere, by signal type. */
  class GlobalSignalFrequency {
    const freq: Frequency

    ghost function Repr(): set<object>
      reads freq
    {
      {this, freq, freq.data}
    }

    ghost predicate Valid()
      reads freq, freq.data
    {
      freq.Valid()
    }

    constructor ()
      ensures Valid() && fresh(freq) && fresh(freq.data) && freq.data[..] == Zeros(1)
    {
      freq := new Frequency(1);
    }

    predicate NotifyOnEvent(action: int)
    {
      action == TraceSignalReceive
    }

    predicate Overrides(ev: Event)
    {
      ev.SignalReceive?
    }

    method EvSignalReceive(sig: Signal)
      requires Valid()
      modifies freq, freq.data
      ensures Valid() && (freq.data == old(freq.data) || fresh(freq.data))
      ensures freq.data[..] == Changed(old(freq.data[..]), sig.stype.id, 1.0)
      ensures freq.sum == old(freq.sum) + 1.0
    {
      freq.ChangeVal(sig.stype.id, 1.0);
    }

    method Handle(ev: Event)
      requires Valid()
      modifies Repr()
      ensures Valid() && fresh(Repr() - old(Repr()))
      ensures !Overrides(ev) ==> Repr() == old(Repr()) && unchanged(Repr())
    {
      match ev
      case SignalReceive(_, sig) => EvSignalReceive(sig);
      case _ =>
    }

    method Reset()
      requires Valid()
      modifies freq, freq.data
      ensures Valid() && freq.data == old(freq.data)
      ensures freq.data[..] == Zeros(freq.data.Length) && freq.sum == 0.0
    {
      freq.Reset();
    }

    function GetValue(index: int): (r: Reading)
      requires Valid()
      reads freq, freq.data
      ensures r == FrequencyValue(freq, index)
    {
      FrequencyValue(freq, index)
    }
  }

  // ---------------------------------------------------------------------
  // PESStateFrequency
  // ---------------------------------------------------------------------

  /**
   * How long the processes of the watched type spend in each state: the
   * histogram is indexed by state id and holds durations. The state table
   * tracks the range of ids seen, from which a Gantt display takes its row.
   */
  class StateFrequency {
    var processType: Option<Ref>
    const processName: Option<CStr>
    const freq: Frequency
    const stateTable: StateTable
    var currentState: Option<StateType>
    var lastChange: real

    ghost function Repr(): set<object>
      reads freq
    {
      {this, freq, freq.data, stateTable}
    }

    /** The current state is always inside the table's id range. */
    ghost predicate Valid()
      reads this, freq, freq.data, stateTable
    {
      freq.Valid() &&
      (currentState.Some? ==>
         stateTable.minStateId <= currentState.value.id <= stateTable.maxStateId)
    }

    /** PESStateFrequency(ProcessName): no current state, an empty table. */
    constructor (processName: Option<CStr>)
      ensures Valid() && fresh(freq) && fresh(freq.data) && fresh(stateTable)
      ensures freq.data[..] == Zeros(1) && stateTable.GetNumOfStates() == 0
      ensures processType.None? && currentState.None? && this.processName == processName
    {
      processType := None;
      this.processName := processName;
      freq := new Frequency(1);
      stateTable := new StateTable();
      currentState := None;
      lastChange := 0.0;
    }

    predicate NotifyOnEvent(action: int)
    {
      action == TraceStateChange || action == TraceProcessCreate
    }

    predicate Overrides(ev: Event)
    {
      ev.ProcessCreate? || ev.StateChange?
    }

    method EvProcessCreate(p: Process)
      modifies this
      ensures processType == Bind(old(processType), NameMatches(processName, p.ptype.name), p.ptype.ref)
      ensures currentState == old(currentState) && lastChange == old(lastChange)
    {
      processType := Bind(processType, NameMatches(processName, p.ptype.name), p.ptype.ref);
    }

    /**
     * PESStateFrequency::EvStateChange: for the watched type, the time
     * spent in the previous state is added to its entry (the first change
     * only starts the clock), the new state becomes current and is
     * registered in the state table.
     */
    method EvStateChange(p: Process, s: StateType, now: real)
      requires Valid()
      modifies this, freq, freq.data, stateTable
      ensures Valid() && (freq.data == old(freq.data) || fresh(freq.data))
      ensures processType == old(processType)
      ensures processType != Some(p.ptype.ref) ==>
        freq.data == old(freq.data) && unchanged(this, freq, freq.data, stateTable)
      ensures processType == Some(p.ptype.ref) ==>
        currentState == Some(s) && lastChange == now &&
        stateTable.minStateId <= s.id <= stateTable.maxStateId
      ensures processType == Some(p.ptype.ref) && old(currentState).None? ==>
        freq.data == old(freq.data) && unchanged(freq, freq.data)
      ensures processType == Some(p.ptype.ref) && old(currentState).Some? ==>
        freq.data[..] == Changed(old(freq.data[..]), old(currentState).value.id, now - old(lastChange)) &&
        freq.sum == old(freq.sum) + (now - old(lastChange))
    {
      if processType == Some(p.ptype.ref) {
        if currentState.None? {
          lastChange := now;
          currentState := Some(s);
        } else {
          freq.ChangeVal(currentState.value.id, now - lastChange);
          lastChange := now;
          currentState := Some(s);
        }
        stateTable.RegisterState(s.id);
      }
    }

    method Handle(ev: Event, now: real)
      requires Valid()
      modifies Repr()
      ensures Valid() && fresh(Repr() - old(Repr()))
      ensures !Overrides(ev) ==> Repr() == old(Repr()) && unchanged(Repr())
    {
      match ev
      case ProcessCreate(p, _) => EvProcessCreate(p);
      case StateChange(p, s) => EvStateChange(p, s, now);
      case _ =>
    }

    /** PESStateFrequency::Reset: the histogram, the current state and the state table are cleared. */
    method Reset()
      requires Valid()
      modifies this, freq, freq.data, stateTable
      ensures Valid() && freq.data == old(freq.data) && processType == old(processType)
      ensures freq.data[..] == Zeros(freq.data.Length) && freq.sum == 0.0
      ensures currentState.None? && stateTable.GetNumOfStates() == 0
    {
      freq.Reset();
      currentState := None;
      stateTable.Reset();
    }

    /**
     * PESStateFrequency::GetValue: the Gantt row is -1 without a current
     * state and otherwise the state's position in the table's range,
     * between 1 and the number of states; other indices read the histogram.
     */
    function GetValue(index: int): (r: Reading)
      requires Valid()
      reads this, freq, freq.data, stateTable
      ensures index == GanttState && currentState.None? ==> r == Value(-1.0)
      ensures index == GanttState && currentState.Some? ==>
        r.Value? && r.v == (currentState.value.id - stateTable.minStateId + 1) as real &&
        1.0 <= r.v <= stateTable.GetNumOfStates() as real
      ensures index != GanttState ==> r == FrequencyValue(freq, index)
    {
      if index == GanttState then
        if currentState.None? then Value(-1.0)
        else Value((currentState.value.id - stateTable.minStateId + 1) as real)
      else FrequencyValue(freq, index)
    }
  }

  // ---------------------------------------------------------------------
  // PESProcessNumber
  // ---------------------------------------------------------------------

  /**
   * The number of live processes of the watched type, sampled into a
   * tally weighted by how long each count lasted.
   */
  class ProcessNumber {
    var processType: Option<Ref>
    const processName: Option<CStr>
    const tally: Tally
    var lastChange: real
    var count: int

    ghost function Repr(): set<object>
    {
      {this, tally}
    }

    ghost predicate Valid()
      reads tally
    {
      tally.Valid()
    }

    /** PESProcessNumber(ProcessName, Interval): count 0, then Reset. */
    constructor (processName: Option<CStr>, interval: real, now: real)
      requires interval > 0.0
      ensures Valid() && fresh(tally) && tally.State() == Cleared(interval, now)
      ensures processType.None? && this.processName == processName && count == 0
      ensures lastChange == if now > 0.0 then now else 0.0
    {
      processType := None;
      this.processName := processName;
      tally := new Tally(interval, now);
      count := 0;
      lastChange := if now > 0.0 then now else 0.0;
    }

    predicate NotifyOnEvent(action: int)
    {
      action == TraceProcessCreate || action == TraceProcessStop
    }

    predicate Overrides(ev: Event)
    {
      ev.ProcessCreate? || ev.ProcessDelete?
    }

    /** PESProcessNumber::Reset: the tally is cleared; the clock restarts only at a positive time. */
    method Reset(now: real)
      requires Valid()
      modifies this, tally
      ensures Valid() && tally.State() == Cleared(tally.intervalLen, now)
      ensures count == old(count) && processType == old(processType)
      ensures lastChange == if now > 0.0 then now else old(lastChange)
    {
      tally.Reset(now);
      if now > 0.0 {
        lastChange := now;
      }
    }

    /** The old count enters the tally weighted by how long it lasted, then changes by `diff`. */
    method Change(diff: int, now: real)
      requires Valid()
      modifies this, tally
      ensures Valid() && processType == old(processType)
      ensures count == old(count) + diff && lastChange == now
      ensures tally.State() == Folded(old(tally.State()), tally.intervalLen, old(count) as real, now - old(lastChange), now)
    {
      tally.UpdateTally(count as real, now - lastChange, now);
      count := count + diff;
      lastChange := now;
    }

    /** PESProcessNumber::EvProcessCreate: bind by name once, then count a new instance of the type. */
    method EvProcessCreate(p: Process, now: real)
      requires Valid()
      modifies this, tally
      ensures Valid()
      ensures processType == Bind(old(processType), NameMatches(processName, p.ptype.name), p.ptype.ref)
      ensures processType == Some(p.ptype.ref) ==>
        count == old(count) + 1 && lastChange == now &&
        tally.State() == Folded(old(tally.State()), tally.intervalLen, old(count) as real, now - old(lastChange), now)
      ensures processType != Some(p.ptype.ref) ==>
        count == old(count) && lastChange == old(lastChange) && unchanged(tally)
    {
      processType := Bind(processType, NameMatches(processName, p.ptype.name), p.ptype.ref);
      if processType == Some(p.ptype.ref) {
        Change(1, now);
      }
    }

    /** PESProcessNumber::EvProcessDelete: an instance of the type ends. */
    method EvProcessDelete(p: Process, now: real)
      requires Valid()
      modifies this, tally
      ensures Valid() && processType == old(processType)
      ensures processType == Some(p.ptype.ref) ==>
        count == old(count) - 1 && lastChange == now &&
        tally.State() == Folded(old(tally.State()), tally.intervalLen, old(count) as real, now - old(lastChange), now)
      ensures processType != Some(p.ptype.ref) ==> unchanged(this, tally)
    {
      if processType == Some(p.ptype.ref) {
        Change(-1, now);
      }
    }

    method Handle(ev: Event, now: real)
      requires Valid()
      modifies this, tally
      ensures Valid()
      ensures !Overrides(ev) ==> unchanged(this, tally)
    {
      match ev
      case ProcessCreate(p, _) => EvProcessCreate(p, now);
      case ProcessDelete(p) => EvProcessDelete(p, now);
      case _ =>
    }

    function GetValue(index: int, sqrt: real -> real): (r: Reading)
      reads tally
      ensures r == tally.GetValue(index, sqrt)
    {
      tally.GetValue(index, sqrt)
    }
  }
}
