/**
 * The kinds of sensors, displays and value indices a configuration can
 * name, their keyword tables, and the three bit-mask classifications over
 * them. A mask test is `(1 << t) & mask` on a 32-bit int, read as a truth
 * value; a shift by a negative count or by 32 or more is undefined in C++,
 * so the tests are only defined for 0 <= t < 32.
 */
module SensorTypes {

  // Sensor types, in keyword-table order.
  const ProcQLen: int := 0
  const ProcQLenFreq: int := 1
  const ProcNumber: int := 2
  const ProcSigWaitTime: int := 3
  const ProcStateFreq: int := 4
  const ProcInSigFreq: int := 5
  const ProcOutSigFreq: int := 6
  const ProcOutReqFreq: int := 7
  const MachQLen: int := 8
  const MachQLenFreq: int := 9
  const MachReqWaitTime: int := 10
  const MachReqThruTime: int := 11
  const MachInReqFreq: int := 12
  const MachUtilization: int := 13
  const GlobalSigFreq: int := 14
  const GlobalReqFreq: int := 15
  const SimpleEvent: int := 16
  const SimpleActivity: int := 17
  const NumSensorTypes: int := 18

  // Display types.
  const Curves: int := 0
  const FixedCurves: int := 1
  const Gantt: int := 2
  const Freqs: int := 3
  const NumDisplayTypes: int := 4

  // Value indices; they agree with the tally and counter indices.
  const VNum: int := 0
  const VMin: int := 1
  const VMax: int := 2
  const VAvg: int := 3
  const VAvi: int := 4
  const VVar: int := 5
  const VDev: int := 6
  const VCnt: int := 7
  const VCpt: int := 8
  const VCpi: int := 9
  const VCql: int := 10
  const NumValIndexTypes: int := 11

  /** The sensor type keywords, ended by the empty string. */
  const SensorTypeNames: seq<string> := [
    "ProcessQLen", "ProcessQLenFreq", "ProcessNumber", "ProcessSigWaitTime",
    "ProcessStateFreq", "ProcessInSigFreq", "ProcessOutSigFreq", "ProcessOutReqFreq",
    "MachineQLen", "MachineQLenFreq", "MachineReqWaitTime", "MachineReqThruTime",
    "MachineInReqFreq", "MachineUtilization", "GlobalSigFreq", "GlobalReqFreq",
    "SimpleEvent", "SimpleActivity", ""]

  /** The display type keywords, ended by the empty string. */
  const DisplayTypeNames: seq<string> := ["Curves", "FixedCurves", "Gantt", "Freqs", ""]

  /** The names of the value indices, without an end marker. */
  const ValIndexTypeNames: seq<string> :=
    ["num", "min", "max", "avg", "avi", "var", "dev", "cnt", "cpt", "cpi", "cql"]

  /** The bit of `t` in a 32-bit mask. */
  function Bit(t: int): (b: bv32)
    requires 0 <= t < 32
  {
    (1 as bv32) << t
  }

  const DiscreteMask: bv32 := Bit(VNum) | Bit(VMin) | Bit(VMax) | Bit(VCnt)

  const IntervalMask: bv32 :=
    Bit(ProcQLen) | Bit(ProcNumber) | Bit(ProcSigWaitTime) | Bit(MachQLen) |
    Bit(MachReqWaitTime) | Bit(MachReqThruTime) | Bit(MachUtilization) |
    Bit(SimpleEvent) | Bit(SimpleActivity)

  const FreqMask: bv32 :=
    Bit(ProcQLenFreq) | Bit(ProcStateFreq) | Bit(ProcInSigFreq) | Bit(ProcOutSigFreq) |
    Bit(MachQLenFreq) | Bit(ProcOutReqFreq) | Bit(MachInReqFreq) |
    Bit(GlobalSigFreq) | Bit(GlobalReqFreq)

  /** IsDiscreteValIndex: whether a value index counts things (drawn as steps). */
  predicate IsDiscreteValIndex(v: int)
    requires 0 <= v < 32
  {
    Bit(v) & DiscreteMask != 0
  }

  /** SensorHasInterval: whether a sensor type's configuration gives an interval length. */
  predicate SensorHasInterval(t: int)
    requires 0 <= t < 32
  {
    Bit(t) & IntervalMask != 0
  }

  /** IsFreqSensor: whether a sensor type keeps a histogram. */
  predicate IsFreqSensor(t: int)
    requires 0 <= t < 32
  {
    Bit(t) & FreqMask != 0
  }

  /** The discrete indices are exactly the number of samples, the extremes and the count. */
  lemma DiscreteIndices(v: int)
    requires 0 <= v < 32
    ensures IsDiscreteValIndex(v) <==> v == VNum || v == VMin || v == VMax || v == VCnt
  {
    assert DiscreteMask == 0x87;
  }

  /** The nine sensor types with an interval. */
  lemma IntervalTypes(t: int)
    requires 0 <= t < 32
    ensures SensorHasInterval(t) <==>
      t == ProcQLen || t == ProcNumber || t == ProcSigWaitTime || t == MachQLen ||
      t == MachReqWaitTime || t == MachReqThruTime || t == MachUtilization ||
      t == SimpleEvent || t == SimpleActivity
  {
    assert IntervalMask == 0x32D0D;
  }

  /** The nine sensor types with a histogram. */
  lemma FreqTypes(t: int)
    requires 0 <= t < 32
    ensures IsFreqSensor(t) <==>
      t == ProcQLenFreq || t == ProcStateFreq || t == ProcInSigFreq || t == ProcOutSigFreq ||
      t == MachQLenFreq || t == ProcOutReqFreq || t == MachInReqFreq ||
      t == GlobalSigFreq || t == GlobalReqFreq
  {
    assert FreqMask == 0xD2F2;
  }

  /** Every sensor type has an interval or a histogram, never both; no other bit has either. */
  lemma IntervalOrFreq(t: int)
    requires 0 <= t < 32
    ensures 0 <= t < NumSensorTypes ==> SensorHasInterval(t) != IsFreqSensor(t)
    ensures NumSensorTypes <= t ==> !SensorHasInterval(t) && !IsFreqSensor(t)
  {
    IntervalTypes(t);
    FreqTypes(t);
  }
}
