/**
 * The updaters that carry sensor values to the data a display draws: a
 * curve updater samples one value index of a sensor onto a curve, a
 * histogram updater has nothing to do because the histogram it shows is
 * the sensor's own.
 */
module Updater {
  import opened DataTypes
  import opened Accumulators
  import opened Sensors

  class CurveUpdater {
    const curve: Curve
    const sensor: SensorRef
    const valIndex: int

    /** PCCurveUpdater(Curve, Sensor, ValIndex). */
    constructor (curve: Curve, sensor: SensorRef, valIndex: int)
      ensures this.curve == curve && this.sensor == sensor && this.valIndex == valIndex
    {
      this.curve, this.sensor, this.valIndex := curve, sensor, valIndex;
    }

    /**
     * PCCurveUpdater::Update: reads the sensor's value at the current
     * time `now` and draws (now, value) when the value is not negative.
     * The sensor is only read. A reading the sensor aborts on, or one that
     * is undefined, draws nothing; `r` is the reading.
     */
    method Update(now: real, sqrt: real -> real) returns (r: Reading)
      requires curve.Valid() && SValid(sensor)
      requires curve !in SReads(sensor) + SRepr(sensor) && curve.point !in SReads(sensor) + SRepr(sensor)
      modifies curve`numPoints, curve`first, curve`last, curve.point
      ensures curve.Valid() && r == GetValue(sensor, valIndex, now, sqrt)
      ensures r.Value? && r.v >= 0.0 ==>
        curve.State() == Drawn(old(curve.State()), curve.discrete, Point(now, r.v))
      ensures !(r.Value? && r.v >= 0.0) ==> curve.State() == old(curve.State())
    {
      r := GetValue(sensor, valIndex, now, sqrt);
      if r.Value? && r.v >= 0.0 {
        curve.AddPoint(now, r.v);
      }
    }
  }

  /** A drawn value is the newest point of the curve afterwards, at the time it was read. */
  lemma UpdateDrawsNewest(before: Ring, discrete: bool, now: real, r: Reading)
    requires RingValid(before) && r.Value? && r.v >= 0.0
    ensures var after := Drawn(before, discrete, Point(now, r.v));
      |Stored(after)| > 0 && Stored(after)[|Stored(after)| - 1] == Point(now, r.v)
  {
    DrawnIsNewest(before, discrete, Point(now, r.v));
  }

  /**
   * On a plain curve with room left, a drawn value is appended to the
   * points held and nothing else changes.
   */
  lemma UpdateAppends(before: Ring, now: real, v: real)
    requires RingValid(before) && before.numPoints < before.maxPoints
    ensures Stored(Drawn(before, false, Point(now, v))) == Stored(before) + [Point(now, v)]
  {
    AddRawStored(before, Point(now, v));
  }

  class FreqUpdater {
    const freq: Frequency
    const sensor: SensorRef

    /** PCFreqUpdater(Frequency, Sensor). */
    constructor (freq: Frequency, sensor: SensorRef)
      ensures this.freq == freq && this.sensor == sensor
    {
      this.freq, this.sensor := freq, sensor;
    }

    /** PCFreqUpdater::Update: the histogram is the sensor's own, so there is nothing to carry. */
    method Update()
      ensures freq.data[..] == old(freq.data[..]) && freq.sum == old(freq.sum)
    {
    }
  }
}
