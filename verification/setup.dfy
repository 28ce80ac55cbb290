/**
 * The parts of reading an experiment configuration that decide what is
 * built: the table of named sensors, the table of data already shown for
 * a (sensor, value index) pair, the sensor class each sensor type stands
 * for, and the data a display of a sensor is given.
 */
module Setup {
  import opened Entities
  import opened DataTypes
  import opened Sensors
  import opened MachineSensors
  import opened ProcessSensors
  import opened ActivitySensors
  import opened SensorTypes
  import opened Updater

  /** A configured sensor: its name, the sensor once built, its type, and a state frequency's state table. */
  datatype SensorDef = SensorDef(name: string, sensor: Option<SensorRef>, sensorType: int,
                                 stateTable: Option<StateTable>)

  // ---------------------------------------------------------------------
  // SensorTable
  // ---------------------------------------------------------------------

  /** The first entry named `name`. */
  function Lookup(entries: seq<SensorDef>, name: string): (r: Option<SensorDef>)
    ensures r.Some? ==> r.value in entries && r.value.name == name
    ensures r.None? <==> forall e | e in entries :: e.name != name
  {
    if |entries| == 0 then None
    else if entries[0].name == name then Some(entries[0])
    else Lookup(entries[1..], name)
  }

  /** Appending a new name makes it found, and leaves every other name's entry as it was. */
  lemma {:induction false} LookupAfterAppend(entries: seq<SensorDef>, d: SensorDef, name: string)
    requires Lookup(entries, d.name).None?
    ensures Lookup(entries + [d], name) == if name == d.name then Some(d) else Lookup(entries, name)
  {
    if |entries| > 0 {
      assert (entries + [d])[1..] == entries[1..] + [d];
      LookupAfterAppend(entries[1..], d, name);
    }
  }

  class SensorTable {
    var entries: seq<SensorDef>

    /** No two entries share a name. */
    ghost predicate Valid()
      reads this
    {
      forall i, j | 0 <= i < j < |entries| :: entries[i].name != entries[j].name
    }

    constructor ()
      ensures Valid() && entries == []
    {
      entries := [];
    }

    /** SensorTable::Add: a name already in the table is refused; a new one is appended. */
    method Add(def: SensorDef) returns (added: bool)
      requires Valid()
      modifies this
      ensures Valid()
      ensures added <==> old(Lookup(entries, def.name)).None?
      ensures entries == if added then old(entries) + [def] else old(entries)
    {
      var k := 0;
      while k < |entries|
        invariant 0 <= k <= |entries|
        invariant Lookup(entries, def.name) == Lookup(entries[k..], def.name)
      {
        if entries[k].name == def.name {
          return false;
        }
        assert entries[k..][1..] == entries[k + 1..];
        k := k + 1;
      }
      entries := entries + [def];
      added := true;
    }

    /** SensorTable::Get: the entry with the name of `def`, or `def` unchanged when there is none. */
    method Get(def: SensorDef) returns (found: bool, out: SensorDef)
      ensures found <==> Lookup(entries, def.name).Some?
      ensures out == if found then Lookup(entries, def.name).value else def
    {
      var k := 0;
      while k < |entries|
        invariant 0 <= k <= |entries|
        invariant Lookup(entries, def.name) == Lookup(entries[k..], def.name)
      {
        if entries[k].name == def.name {
          return true, entries[k];
        }
        assert entries[k..][1..] == entries[k + 1..];
        k := k + 1;
      }
      found, out := false, def;
    }
  }

  // ---------------------------------------------------------------------
  // DataTypeTable
  // ---------------------------------------------------------------------

  /** The data a display draws: a curve, or a histogram. */
  datatype DataHandle = CurveData(curve: Curve) | FreqData(freq: Frequency)

  datatype DataEntry = DataEntry(data: DataHandle, sensor: SensorRef, valIndex: int)

  /** The data of the first entry for (sensor, valIndex). */
  function Find(entries: seq<DataEntry>, sensor: SensorRef, valIndex: int): (r: Option<DataHandle>)
    ensures r.Some? <==> exists e | e in entries :: e.sensor == sensor && e.valIndex == valIndex
    ensures r.Some? ==> exists e | e in entries :: e.sensor == sensor && e.valIndex == valIndex && e.data == r.value
  {
    if |entries| == 0 then None
    else if entries[0].sensor == sensor && entries[0].valIndex == valIndex then Some(entries[0].data)
    else Find(entries[1..], sensor, valIndex)
  }

  /** An appended entry is found only for a pair no earlier entry has. */
  lemma {:induction false} FindAfterAppend(entries: seq<DataEntry>, e: DataEntry, sensor: SensorRef, valIndex: int)
    ensures Find(entries + [e], sensor, valIndex) ==
      if Find(entries, sensor, valIndex).Some? then Find(entries, sensor, valIndex)
      else if e.sensor == sensor && e.valIndex == valIndex then Some(e.data)
      else None
  {
    if |entries| > 0 {
      assert (entries + [e])[1..] == entries[1..] + [e];
      FindAfterAppend(entries[1..], e, sensor, valIndex);
    }
  }

  class DataTypeTable {
    var entries: seq<DataEntry>

    constructor ()
      ensures entries == []
    {
      entries := [];
    }

    /** DataTypeTable::Add: appends, whether or not the pair is already there. */
    method Add(sensor: SensorRef, valIndex: int, data: DataHandle)
      modifies this
      ensures entries == old(entries) + [DataEntry(data, sensor, valIndex)]
    {
      entries := entries + [DataEntry(data, sensor, valIndex)];
    }

    /** DataTypeTable::Get: the data of the first entry for the pair (sensor identity and index). */
    method Get(sensor: SensorRef, valIndex: int) returns (found: bool, data: Option<DataHandle>)
      ensures found <==> data.Some?
      ensures data == Find(entries, sensor, valIndex)
    {
      var k := 0;
      while k < |entries|
        invariant 0 <= k <= |entries|
        invariant Find(entries, sensor, valIndex) == Find(entries[k..], sensor, valIndex)
      {
        if entries[k].sensor == sensor && entries[k].valIndex == valIndex {
          return true, Some(entries[k].data);
        }
        assert entries[k..][1..] == entries[k + 1..];
        k := k + 1;
      }
      found, data := false, None;
    }
  }

  // ---------------------------------------------------------------------
  // InstantiateSensor and InstantiateDataType
  // ---------------------------------------------------------------------

  /** The configuration type a sensor object stands for; the control window's sensor has none. */
  function TypeOf(s: SensorRef): (t: Option<int>)
    ensures t.Some? <==> !s.ControllerRef?
    ensures t.Some? ==> 0 <= t.value < NumSensorTypes
  {
    match s
    case ProcessQueueRef(x) => Some(if x.sink.LengthSink? then ProcQLen else ProcQLenFreq)
    case ProcessNumberRef(_) => Some(ProcNumber)
    case SignalWaitTimeRef(_) => Some(ProcSigWaitTime)
    case StateFrequencyRef(_) => Some(ProcStateFreq)
    case SignalFrequencyRef(x) => Some(if x.sigIn then ProcInSigFreq else ProcOutSigFreq)
    case RequestFrequencyRef(x) => Some(if x.reqIn then MachInReqFreq else ProcOutReqFreq)
    case MachineQueueRef(x) => Some(if x.sink.LengthSink? then MachQLen else MachQLenFreq)
    case RequestWaitTimeRef(_) => Some(MachReqWaitTime)
    case RequestThruTimeRef(_) => Some(MachReqThruTime)
    case UtilizationRef(_) => Some(MachUtilization)
    case GlobalSignalFrequencyRef(_) => Some(GlobalSigFreq)
    case GlobalRequestFrequencyRef(_) => Some(GlobalReqFreq)
    case EventRef(_) => Some(SimpleEvent)
    case ActivityRef(_) => Some(SimpleActivity)
    case ControllerRef(_) => None
  }

  /** The sensors of the frequency types are exactly those with a histogram to show. */
  lemma FreqTypesHaveData(s: SensorRef)
    requires !s.ControllerRef?
    ensures IsFreqSensor(TypeOf(s).value) <==> GetData(s).Some?
  {
    FreqTypes(TypeOf(s).value);
  }

  /**
   * Which configuration text a sensor was built from: its entity name is
   * the first buffer, except for the wait-time sensors, which watch the
   * entity named by the second buffer for the type named by the first.
   */
  ghost predicate BuiltFrom(s: SensorRef, buf1: CStr, buf2: CStr, ev1: Option<EventType>, ev2: Option<EventType>)
  {
    match s
    case ProcessQueueRef(x) => x.processName == Some(buf1)
    case ProcessNumberRef(x) => x.processName == Some(buf1)
    case SignalWaitTimeRef(x) => x.processName == Some(buf2) && x.signalName == Some(buf1)
    case StateFrequencyRef(x) => x.processName == Some(buf1)
    case SignalFrequencyRef(x) => x.processName == Some(buf1)
    case RequestFrequencyRef(x) =>
      if x.reqIn then x.machineName == Some(buf1) && x.processName.None?
      else x.machineName.None? && x.processName == Some(buf1)
    case MachineQueueRef(x) => x.machineName == Some(buf1)
    case RequestWaitTimeRef(x) => x.machineName == Some(buf2) && x.requestName == Some(buf1)
    case RequestThruTimeRef(x) => x.machineName == Some(buf2) && x.requestName == Some(buf1)
    case UtilizationRef(x) => x.machineName == Some(buf1)
    case GlobalSignalFrequencyRef(_) => true
    case GlobalRequestFrequencyRef(_) => true
    case EventRef(x) => ev1 == Some(x.evType)
    case ActivityRef(x) => ev1 == Some(x.evStart) && ev2 == Some(x.evStop)
    case ControllerRef(_) => false
  }

  /** `s`, with `table`, is a sensor of type `t` built from the buffers and descriptors. */
  ghost predicate Built(s: SensorRef, table: Option<StateTable>, t: int, buf1: CStr, buf2: CStr,
                        ev1: Option<EventType>, ev2: Option<EventType>)
    reads SReads(s), SRepr(s)
  {
    TypeOf(s) == Some(t) && SValid(s) && BuiltFrom(s, buf1, buf2, ev1, ev2) &&
    table == if s.StateFrequencyRef? then Some(s.st.stateTable) else None
  }

  /**
   * InstantiateSensor: builds the sensor of `def`'s type from the two
   * name buffers, the event descriptors and the interval; only a state
   * frequency sensor also hands out its state table. An unknown type
   * aborts (None). A type with an interval needs a positive one, and the
   * event sensors need their descriptors.
   */
  method InstantiateSensor(def: SensorDef, buf1: CStr, buf2: CStr, ev1: Option<EventType>,
                           ev2: Option<EventType>, interval: real, now: real)
    returns (r: Option<SensorDef>)
    requires 0 <= def.sensorType < NumSensorTypes && SensorHasInterval(def.sensorType) ==> interval > 0.0
    requires def.sensorType == SimpleEvent ==> ev1.Some?
    requires def.sensorType == SimpleActivity ==> ev1.Some? && ev2.Some?
    ensures r.None? <==> !(0 <= def.sensorType < NumSensorTypes)
    ensures r.Some? ==>
      r.value.name == def.name && r.value.sensorType == def.sensorType && r.value.sensor.Some? &&
      var s := r.value.sensor.value;
      TypeOf(s) == Some(def.sensorType) && SValid(s) && fresh(SRepr(s)) &&
      BuiltFrom(s, buf1, buf2, ev1, ev2) &&
      r.value.stateTable == if s.StateFrequencyRef? then Some(s.st.stateTable) else None
  {
    var t := def.sensorType;
    if !(0 <= t < NumSensorTypes) {
      return None;
    }
    IntervalTypes(t);
    var s: SensorRef;
    var table: Option<StateTable>;
    if t < MachQLen {
      s, table := NewProcessSensor(t, buf1, buf2, ev1, ev2, interval, now);
    } else if t < GlobalSigFreq {
      s, table := NewMachineSensor(t, buf1, buf2, ev1, ev2, interval, now);
    } else {
      s, table := NewOtherSensor(t, buf1, buf2, ev1, ev2, interval, now);
    }
    r := Some(def.(sensor := Some(s), stateTable := table));
  }

  /** The sensors of the process types. */
  method NewProcessSensor(t: int, buf1: CStr, buf2: CStr, ev1: Option<EventType>, ev2: Option<EventType>,
                          interval: real, now: real)
    returns (s: SensorRef, table: Option<StateTable>)
    requires 0 <= t < MachQLen && (SensorHasInterval(t) ==> interval > 0.0)
    ensures Built(s, table, t, buf1, buf2, ev1, ev2) && fresh(SRepr(s))
  {
    IntervalTypes(t);
    table := None;
    if t == ProcQLen {
      var x := new ProcessQueue.Length(Some(buf1), interval, now);
      s := ProcessQueueRef(x);
    } else if t == ProcQLenFreq {
      var x := new ProcessQueue.Histogram(Some(buf1), now);
      s := ProcessQueueRef(x);
    } else if t == ProcNumber {
      var x := new ProcessNumber(Some(buf1), interval, now);
      s := ProcessNumberRef(x);
    } else if t == ProcSigWaitTime {
      var x := new SignalWaitTime(Some(buf2), interval, Some(buf1), now);
      s := SignalWaitTimeRef(x);
    } else if t == ProcStateFreq {
      var x := new StateFrequency(Some(buf1));
      s, table := StateFrequencyRef(x), Some(x.stateTable);
    } else if t == ProcInSigFreq {
      var x := new SignalFrequency(Some(buf1), true);
      s := SignalFrequencyRef(x);
    } else if t == ProcOutSigFreq {
      var x := new SignalFrequency(Some(buf1), false);
      s := SignalFrequencyRef(x);
    } else {
      var x := new RequestFrequency(None, Some(buf1), false);
      s := RequestFrequencyRef(x);
    }
  }

  /** The sensors of the machine types. */
  method NewMachineSensor(t: int, buf1: CStr, buf2: CStr, ev1: Option<EventType>, ev2: Option<EventType>,
                          interval: real, now: real)
    returns (s: SensorRef, table: Option<StateTable>)
    requires MachQLen <= t < GlobalSigFreq && (SensorHasInterval(t) ==> interval > 0.0)
    ensures Built(s, table, t, buf1, buf2, ev1, ev2) && fresh(SRepr(s))
  {
    IntervalTypes(t);
    table := None;
    if t == MachQLen {
      var x := new MachineQueue.Length(Some(buf1), interval, now);
      s := MachineQueueRef(x);
    } else if t == MachQLenFreq {
      var x := new MachineQueue.Histogram(Some(buf1), now);
      s := MachineQueueRef(x);
    } else if t == MachReqWaitTime {
      var x := new RequestWaitTime(Some(buf2), interval, Some(buf1), now);
      s := RequestWaitTimeRef(x);
    } else if t == MachReqThruTime {
      var x := new RequestThruTime(Some(buf2), interval, Some(buf1), now);
      s := RequestThruTimeRef(x);
    } else if t == MachInReqFreq {
      var x := new RequestFrequency(Some(buf1), None, true);
      s := RequestFrequencyRef(x);
    } else {
      var x := new MachineUtilization(Some(buf1), interval, now);
      s := UtilizationRef(x);
    }
  }

  /** The global frequency sensors and the event and activity sensors. */
  method NewOtherSensor(t: int, buf1: CStr, buf2: CStr, ev1: Option<EventType>, ev2: Option<EventType>,
                        interval: real, now: real)
    returns (s: SensorRef, table: Option<StateTable>)
    requires GlobalSigFreq <= t < NumSensorTypes && (SensorHasInterval(t) ==> interval > 0.0)
    requires t == SimpleEvent ==> ev1.Some?
    requires t == SimpleActivity ==> ev1.Some? && ev2.Some?
    ensures Built(s, table, t, buf1, buf2, ev1, ev2) && fresh(SRepr(s))
  {
    IntervalTypes(t);
    table := None;
    if t == GlobalSigFreq {
      var x := new GlobalSignalFrequency();
      s := GlobalSignalFrequencyRef(x);
    } else if t == GlobalReqFreq {
      var x := new GlobalRequestFrequency();
      s := GlobalRequestFrequencyRef(x);
    } else if t == SimpleEvent {
      var x := new EventSensor(ev1.value, interval, now);
      s := EventRef(x);
    } else {
      var x := new ActivitySensor(ev1.value, ev2.value, interval, now);
      s := ActivityRef(x);
    }
  }

  /** What a display is given to draw, and the updater that keeps it current. */
  datatype Shown = CurveShown(curve: Curve, updater: CurveUpdater) | FreqShown(freq: Frequency, updater': FreqUpdater)

  /**
   * InstantiateDataType: a Gantt display gets a step curve of the state
   * index, a curve display a step curve for a discrete index and a plain
   * curve otherwise, and any other display the sensor's own histogram.
   * `points` is the number of points a curve keeps; a histogram display
   * needs a sensor that has one.
   */
  method InstantiateDataType(dispType: int, sensor: SensorRef, valIndex: int, points: int)
    returns (d: Shown)
    requires dispType == Gantt ==> 2 * points - 1 > 4
    requires dispType == Curves || dispType == FixedCurves ==>
      0 <= valIndex < 32 && if IsDiscreteValIndex(valIndex) then 2 * points - 1 > 4 else points > 4
    requires dispType != Gantt && dispType != Curves && dispType != FixedCurves ==> GetData(sensor).Some?
    ensures d.CurveShown? <==> dispType == Gantt || dispType == Curves || dispType == FixedCurves
    ensures d.CurveShown? ==>
      fresh(d.curve) && fresh(d.curve.point) && d.curve.Valid() && Stored(d.curve.State()) == [] &&
      d.updater.curve == d.curve && d.updater.sensor == sensor
    ensures dispType == Gantt ==>
      d.curve.discrete && d.curve.maxPoints == 2 * points - 1 && d.updater.valIndex == GanttState
    ensures dispType == Curves || dispType == FixedCurves ==>
      d.curve.discrete == IsDiscreteValIndex(valIndex) && d.updater.valIndex == valIndex &&
      d.curve.maxPoints == if d.curve.discrete then 2 * points - 1 else points
    ensures d.FreqShown? ==>
      d.freq == GetData(sensor).value && d.updater'.freq == d.freq && d.updater'.sensor == sensor
  {
    if dispType == Gantt {
      var c := new Curve.Discrete(points);
      var u := new CurveUpdater(c, sensor, GanttState);
      d := CurveShown(c, u);
    } else if dispType == Curves || dispType == FixedCurves {
      var c: Curve;
      if IsDiscreteValIndex(valIndex) {
        c := new Curve.Discrete(points);
      } else {
        c := new Curve(points);
      }
      var u := new CurveUpdater(c, sensor, valIndex);
      d := CurveShown(c, u);
    } else {
      var f := GetData(sensor).value;
      var u := new FreqUpdater(f, sensor);
      d := FreqShown(f, u);
    }
  }
}
