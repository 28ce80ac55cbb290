/**
 * The statistics every sensor is built from: a tally of weighted samples,
 * an event counter, and the bookkeeping of a queue whose length is sampled
 * into a tally or into a histogram. The sensors of the other modules own
 * one or two of these and feed them from the events they receive.
 */
module Accumulators {
  import opened DataTypes

  // Indices a display or report passes to GetValue.
  const Num: int := 0         // number of samples (sum of the weights)
  const Min: int := 1
  const Max: int := 2
  const Avg: int := 3
  const Avi: int := 4         // average over the last closed interval
  const Var: int := 5
  const Dev: int := 6
  const TallyEnd: int := 7
  const Cnt: int := 7         // events counted
  const Cpt: int := 8         // events per time since the last reset
  const Cpi: int := 9         // events per time in the last closed interval
  const CounterEnd: int := 10
  const Cql: int := 10        // current queue length
  const QueueLengthEnd: int := 11

  /**
   * What GetValue gives: a value, the source's abort on an index the sensor
   * does not know, or a read outside a histogram (undefined in the source).
   */
  datatype Reading = Value(v: real) | Aborted | Undefined

  // ---------------------------------------------------------------------
  // Measurement intervals
  // ---------------------------------------------------------------------

  /** Stepping the interval end by one length lowers the termination measure by one. */
  lemma StepMeasure(now: real, stop: real, len: real)
    requires len > 0.0
    ensures ((now - (stop + len)) / len).Floor == ((now - stop) / len).Floor - 1
    ensures now >= stop ==> ((now - stop) / len).Floor >= 0
  {
    var a := now - stop;
    assert (a - len) / len == a / len - len / len;
    assert len / len == 1.0;
    if a >= 0.0 {
      assert a / len * len == a;
    }
  }

  /** The number of interval ends from `stop` on that time `now` has reached. */
  function Crossings(stop: real, len: real, now: real): (n: nat)
    requires len > 0.0
    decreases if now >= stop then ((now - stop) / len).Floor + 1 else 0
  {
    if now >= stop then
      StepMeasure(now, stop, len);
      1 + Crossings(stop + len, len, now)
    else 0
  }

  /** The end of the interval `now` lies in, found by stepping from `stop`. */
  function Advance(stop: real, len: real, now: real): (r: real)
    requires len > 0.0
    decreases if now >= stop then ((now - stop) / len).Floor + 1 else 0
  {
    if now >= stop then
      StepMeasure(now, stop, len);
      Advance(stop + len, len, now)
    else stop
  }

  /**
   * The new interval end lies after `now`, a whole number of intervals
   * after the old one, and it is the first such: one interval earlier is
   * not after `now` unless nothing was crossed.
   */
  lemma {:induction false} AdvanceSpec(stop: real, len: real, now: real)
    requires len > 0.0
    ensures var n := Crossings(stop, len, now);
      var r := Advance(stop, len, now);
      r > now && r == stop + (n as real) * len &&
      (n == 0 <==> now < stop) && (n > 0 ==> r - len <= now)
    decreases if now >= stop then ((now - stop) / len).Floor + 1 else 0
  {
    if now >= stop {
      StepMeasure(now, stop, len);
      AdvanceSpec(stop + len, len, now);
      var n' := Crossings(stop + len, len, now);
      assert stop + len + (n' as real) * len == stop + ((n' + 1) as real) * len;
    }
  }

  /** The average of an interval that has just closed; 0 when it had no weight. */
  function ClosedAvg(sum: real, num: real): (avg: real)
    ensures num > 0.0 && sum >= 0.0 ==> avg >= 0.0
    ensures num <= 0.0 ==> avg == 0.0
  {
    if num > 0.0 then sum / num else 0.0
  }

  // ---------------------------------------------------------------------
  // PESTally
  // ---------------------------------------------------------------------

  /** Everything a tally holds, as one value. */
  datatype TallySummary = TallySummary(
    num: real, sum: real, sum2: real, min: real, max: real,
    intervalAvg: real, intervalNum: real, intervalSum: real, intervalStop: real)

  /** The summary right after a reset at `now`: no samples, the next interval ends one length later. */
  function Cleared(len: real, now: real): TallySummary
  {
    TallySummary(0.0, 0.0, 0.0, 0.0, 0.0, 0.0, 0.0, 0.0, now + len)
  }

  function Lower(a: real, b: real): real { if a < b then a else b }

  function Higher(a: real, b: real): real { if a > b then a else b }

  /**
   * The summary after one more sample `x` of weight `w` at time `now`. The
   * first sample (no weight so far) sets both extremes. The sum of squares
   * takes the square of the weighted sample. Each interval end that `now`
   * has reached closes an interval: the first closes the running one, any
   * further one closes an empty interval whose average is 0.
   */
  function Folded(t: TallySummary, len: real, x: real, w: real, now: real): TallySummary
    requires len > 0.0
  {
    var n := Crossings(t.intervalStop, len, now);
    TallySummary(
      t.num + w, t.sum + x * w, t.sum2 + (x * w) * (x * w),
      if t.num == 0.0 then x else Lower(x, t.min),
      if t.num == 0.0 then x else Higher(x, t.max),
      if n == 0 then t.intervalAvg else if n == 1 then ClosedAvg(t.intervalSum, t.intervalNum) else 0.0,
      (if n == 0 then t.intervalNum else 0.0) + w,
      (if n == 0 then t.intervalSum else 0.0) + x * w,
      Advance(t.intervalStop, len, now))
  }

  /** One recorded sample: its value, its weight and the time it was recorded. */
  datatype Sample = Sample(x: real, w: real, at: real)

  /** The summary after recording `samples` in order. */
  function Replay(t: TallySummary, len: real, samples: seq<Sample>): TallySummary
    requires len > 0.0
    decreases |samples|
  {
    if |samples| == 0 then t
    else Replay(Folded(t, len, samples[0].x, samples[0].w, samples[0].at), len, samples[1..])
  }

  function TotalWeight(samples: seq<Sample>): real
    decreases |samples|
  {
    if |samples| == 0 then 0.0 else samples[0].w + TotalWeight(samples[1..])
  }

  function WeightedTotal(samples: seq<Sample>): real
    decreases |samples|
  {
    if |samples| == 0 then 0.0 else samples[0].x * samples[0].w + WeightedTotal(samples[1..])
  }

  function SquaresTotal(samples: seq<Sample>): real
    decreases |samples|
  {
    if |samples| == 0 then 0.0
    else (samples[0].x * samples[0].w) * (samples[0].x * samples[0].w) + SquaresTotal(samples[1..])
  }

  function LeastSample(samples: seq<Sample>): real
    requires |samples| > 0
    decreases |samples|
  {
    if |samples| == 1 then samples[0].x else Lower(samples[0].x, LeastSample(samples[1..]))
  }

  function GreatestSample(samples: seq<Sample>): real
    requires |samples| > 0
    decreases |samples|
  {
    if |samples| == 1 then samples[0].x else Higher(samples[0].x, GreatestSample(samples[1..]))
  }

  /** Recording samples adds their weights, weighted values and squares to the running sums. */
  lemma {:induction false} ReplaySums(t: TallySummary, len: real, samples: seq<Sample>)
    requires len > 0.0
    ensures var r := Replay(t, len, samples);
      r.num == t.num + TotalWeight(samples) && r.sum == t.sum + WeightedTotal(samples) &&
      r.sum2 == t.sum2 + SquaresTotal(samples)
    decreases |samples|
  {
    if |samples| > 0 {
      ReplaySums(Folded(t, len, samples[0].x, samples[0].w, samples[0].at), len, samples[1..]);
    }
  }

  /** Once the tally has weight, positive weights keep it and the extremes take in every value. */
  lemma {:induction false} ReplayExtremes(t: TallySummary, len: real, samples: seq<Sample>)
    requires len > 0.0 && t.num > 0.0 && |samples| > 0
    requires forall i :: 0 <= i < |samples| ==> samples[i].w > 0.0
    ensures Replay(t, len, samples).min == Lower(LeastSample(samples), t.min)
    ensures Replay(t, len, samples).max == Higher(GreatestSample(samples), t.max)
    decreases |samples|
  {
    var t' := Folded(t, len, samples[0].x, samples[0].w, samples[0].at);
    if |samples| > 1 {
      ReplayExtremes(t', len, samples[1..]);
    }
  }

  /**
   * After a reset, the tally summarises exactly the samples recorded since:
   * its weight, sum and sum of squares are their totals, and when every
   * weight is positive its extremes are the least and the greatest value.
   */
  lemma ReplayFromCleared(len: real, now: real, samples: seq<Sample>)
    requires len > 0.0
    ensures var r := Replay(Cleared(len, now), len, samples);
      r.num == TotalWeight(samples) && r.sum == WeightedTotal(samples) && r.sum2 == SquaresTotal(samples)
    ensures |samples| > 0 && (forall i :: 0 <= i < |samples| ==> samples[i].w > 0.0) ==>
      Replay(Cleared(len, now), len, samples).min == LeastSample(samples) &&
      Replay(Cleared(len, now), len, samples).max == GreatestSample(samples)
  {
    ReplaySums(Cleared(len, now), len, samples);
    if |samples| > 0 && (forall i :: 0 <= i < |samples| ==> samples[i].w > 0.0) {
      var t' := Folded(Cleared(len, now), len, samples[0].x, samples[0].w, samples[0].at);
      if |samples| > 1 {
        ReplayExtremes(t', len, samples[1..]);
      }
    }
  }

  /** Weighted samples: count, sum, sum of squares, extremes, interval average. */
  class Tally {
    var numS: real
    var sumS: real
    var sumS2: real
    var minS: real
    var maxS: real
    var intervalAvg: real
    var intervalNum: real
    var intervalSum: real
    const intervalLen: real
    var intervalStop: real

    ghost predicate Valid()
      reads this
    {
      intervalLen > 0.0 && minS <= maxS
    }

    /**
     * The summary is exact when every weight so far was non-negative: the
     * weights add up to `numS`, and `sumS` lies between `numS` times the
     * smallest and `numS` times the largest sample.
     */
    ghost predicate Consistent()
      reads this`numS, this`sumS, this`minS, this`maxS
    {
      numS >= 0.0 && (numS == 0.0 ==> sumS == 0.0) &&
      minS * numS <= sumS <= maxS * numS
    }

    ghost function State(): TallySummary
      reads this
    {
      TallySummary(numS, sumS, sumS2, minS, maxS, intervalAvg, intervalNum, intervalSum, intervalStop)
    }

    /** PESTally(IntervalLength); the interval loop needs a positive length. */
    constructor (intervalLen: real, now: real)
      requires intervalLen > 0.0
      ensures Valid() && Consistent() && this.intervalLen == intervalLen
      ensures State() == Cleared(intervalLen, now)
    {
      this.intervalLen := intervalLen;
      numS, sumS, sumS2, minS, maxS := 0.0, 0.0, 0.0, 0.0, 0.0;
      intervalStop := now + intervalLen;
      intervalAvg, intervalSum, intervalNum := 0.0, 0.0, 0.0;
    }

    /** Forgets every sample; the next interval ends one length after `now`. */
    method Reset(now: real)
      requires Valid()
      modifies this
      ensures Valid() && Consistent() && State() == Cleared(intervalLen, now)
    {
      numS, sumS, sumS2, minS, maxS := 0.0, 0.0, 0.0, 0.0, 0.0;
      intervalStop := now + intervalLen;
      intervalAvg, intervalSum, intervalNum := 0.0, 0.0, 0.0;
    }

    /** PESTally::Update: records `sample` with `weight` at time `now`. */
    method UpdateTally(sample: real, weight: real, now: real)
      requires Valid()
      modifies this
      ensures Valid() && State() == Folded(old(State()), intervalLen, sample, weight, now)
      ensures old(Consistent()) && weight >= 0.0 ==> Consistent()
    {
      var weighted := Accumulate(sample, weight);
      CloseIntervals(now);
      intervalSum := intervalSum + weighted;
      intervalNum := intervalNum + weight;
    }

    /** The sample part of UpdateTally: extremes, weight, sum and sum of squares. */
    method Accumulate(sample: real, weight: real) returns (weighted: real)
      requires Valid()
      modifies this`numS, this`sumS, this`sumS2, this`minS, this`maxS
      ensures Valid() && weighted == sample * weight
      ensures numS == old(numS) + weight && sumS == old(sumS) + weighted
      ensures sumS2 == old(sumS2) + weighted * weighted
      ensures old(numS) == 0.0 ==> minS == sample == maxS
      ensures old(numS) != 0.0 ==>
        minS == (if sample < old(minS) then sample else old(minS)) &&
        maxS == (if sample > old(maxS) then sample else old(maxS))
      ensures old(Consistent()) && weight >= 0.0 ==> Consistent()
    {
      if numS == 0.0 {
        minS, maxS := sample, sample;
      } else {
        if sample < minS {
          minS := sample;
        } else if sample > maxS {
          maxS := sample;
        }
      }
      if old(Consistent()) && weight >= 0.0 {
        ExtremesBound(numS, sumS, old(minS), old(maxS), minS, maxS, sample, weight);
      }
      numS := numS + weight;
      weighted := sample * weight;
      sumS := sumS + weighted;
      sumS2 := sumS2 + weighted * weighted;
    }

    /** Closes every interval whose end `now` has reached (the loop of UpdateTally). */
    method CloseIntervals(now: real)
      requires Valid()
      modifies this`intervalAvg, this`intervalNum, this`intervalSum, this`intervalStop
      ensures Valid()
      ensures intervalStop == Advance(old(intervalStop), intervalLen, now)
      ensures var n := Crossings(old(intervalStop), intervalLen, now);
        intervalAvg == (if n == 0 then old(intervalAvg)
                        else if n == 1 then ClosedAvg(old(intervalSum), old(intervalNum))
                        else 0.0) &&
        intervalSum == (if n == 0 then old(intervalSum) else 0.0) &&
        intervalNum == (if n == 0 then old(intervalNum) else 0.0)
    {
      ghost var rolls := 0;
      while now >= intervalStop
        invariant Valid()
        invariant Advance(intervalStop, intervalLen, now) == Advance(old(intervalStop), intervalLen, now)
        invariant Crossings(old(intervalStop), intervalLen, now) == rolls + Crossings(intervalStop, intervalLen, now)
        invariant rolls == 0 ==> intervalAvg == old(intervalAvg) && intervalSum == old(intervalSum) && intervalNum == old(intervalNum)
        invariant rolls == 1 ==> intervalAvg == ClosedAvg(old(intervalSum), old(intervalNum))
        invariant rolls >= 2 ==> intervalAvg == 0.0
        invariant rolls >= 1 ==> intervalSum == 0.0 && intervalNum == 0.0
        modifies this`intervalAvg, this`intervalNum, this`intervalSum, this`intervalStop
        decreases if now >= intervalStop then ((now - intervalStop) / intervalLen).Floor + 1 else 0
      {
        StepMeasure(now, intervalStop, intervalLen);
        intervalAvg := if intervalNum > 0.0 then intervalSum / intervalNum else 0.0;
        intervalNum, intervalSum := 0.0, 0.0;
        intervalStop := intervalStop + intervalLen;
        rolls := rolls + 1;
      }
    }

    /**
     * PESTally::GetValue. Extremes and average are 0 while there is no
     * weight; the variance is 0 for a weight of at most 1; the deviation is
     * `sqrt` of a positive variance, else 0. Any other index aborts.
     */
    function GetValue(index: int, sqrt: real -> real): (r: Reading)
      reads this
      ensures r.Aborted? <==> !(Num <= index < TallyEnd)
      ensures r.Undefined? == false
      ensures index == Num ==> r == Value(numS)
      ensures index == Min && numS != 0.0 ==> r == Value(minS)
      ensures index == Max && numS != 0.0 ==> r == Value(maxS)
      ensures index == Avg && numS != 0.0 ==> r == Value(sumS / numS)
      ensures (index == Min || index == Max || index == Avg) && numS == 0.0 ==> r == Value(0.0)
      ensures index == Avi ==> r == Value(intervalAvg)
      ensures index == Var ==> r == Value(Variance(numS, sumS, sumS2))
      ensures index == Dev ==> r == Value(if numS == 0.0 || Variance(numS, sumS, sumS2) <= 0.0 then 0.0
                                         else sqrt(Variance(numS, sumS, sumS2)))
    {
      if index == Num then Value(numS)
      else if index == Min then Value(if numS != 0.0 then minS else 0.0)
      else if index == Max then Value(if numS != 0.0 then maxS else 0.0)
      else if index == Avg then
        Value(if numS != 0.0 then sumS / numS else 0.0)
      else if index == Avi then Value(intervalAvg)
      else if index == Var then Value(Variance(numS, sumS, sumS2))
      else if index == Dev then
        var variance := Variance(numS, sumS, sumS2);
        Value(if numS == 0.0 || variance <= 0.0 then 0.0 else sqrt(variance))
      else Aborted
    }

    /** While the summary is exact, the average lies between the extremes. */
    lemma AvgWithinExtremes(sqrt: real -> real)
      requires Consistent() && numS != 0.0
      ensures GetValue(Min, sqrt).v <= GetValue(Avg, sqrt).v <= GetValue(Max, sqrt).v
    {
      AverageBound(sumS, numS, minS, maxS);
    }
  }

  /** The sample variance the tally reports, with its (n + 1) divisor. */
  function Variance(numS: real, sumS: real, sumS2: real): (v: real)
    ensures numS <= 1.0 ==> v == 0.0
    ensures numS > 1.0 ==> v * (numS + 1.0) == sumS2 - sumS * sumS / numS
  {
    if numS <= 1.0 then 0.0 else (sumS2 - sumS * sumS / numS) / (numS + 1.0)
  }

  /** Adding a sample of non-negative weight keeps the sum between the weighted extremes. */
  lemma ExtremesBound(n: real, s: real, lo: real, hi: real, lo': real, hi': real, x: real, w: real)
    requires n >= 0.0 && (n == 0.0 ==> s == 0.0) && lo * n <= s <= hi * n && w >= 0.0
    requires n == 0.0 ==> lo' == x == hi'
    requires n != 0.0 ==> lo' <= lo && lo' <= x && hi' >= hi && hi' >= x
    ensures n + w >= 0.0 && (n + w == 0.0 ==> s + x * w == 0.0)
    ensures lo' * (n + w) <= s + x * w <= hi' * (n + w)
  {
    if n != 0.0 {
      assert lo' * n <= lo * n;
      assert hi * n <= hi' * n;
      assert lo' * w <= x * w <= hi' * w;
    }
  }

  /** An average of samples lies between their extremes. */
  lemma AverageBound(s: real, n: real, lo: real, hi: real)
    requires n > 0.0 || n < 0.0
    requires n >= 0.0 && lo * n <= s <= hi * n
    ensures lo <= s / n <= hi
  {
    assert s / n * n == s;
  }

  // ---------------------------------------------------------------------
  // PESCounter
  // ---------------------------------------------------------------------

  /** Everything a counter holds, as one value. */
  datatype CounterSummary = CounterSummary(
    count: int, intervalCount: int, creation: real, countsPerInterval: real, intervalStop: real)

  /** The counter right after a reset at `now`: nothing counted, its lifetime starts at `now`. */
  function CounterCleared(len: real, now: real): CounterSummary
  {
    CounterSummary(0, 0, now, 0.0, now + len)
  }

  /**
   * The counter after one more event at `now`: every interval end `now`
   * has reached closes an interval, the first reporting its rate and any
   * further (empty) one a rate of 0; then the event is counted.
   */
  function Counted(c: CounterSummary, len: real, now: real): CounterSummary
    requires len > 0.0
  {
    var n := Crossings(c.intervalStop, len, now);
    CounterSummary(
      c.count + 1,
      (if n == 0 then c.intervalCount else 0) + 1,
      c.creation,
      if n == 0 then c.countsPerInterval else if n == 1 then (c.intervalCount as real) / len else 0.0,
      Advance(c.intervalStop, len, now))
  }

  /** The counter after events at the times `times`, in order. */
  function Recount(c: CounterSummary, len: real, times: seq<real>): CounterSummary
    requires len > 0.0
    decreases |times|
  {
    if |times| == 0 then c else Recount(Counted(c, len, times[0]), len, times[1..])
  }

  /**
   * Counting events adds their number to the lifetime count and leaves the
   * start of the lifetime alone; the running interval never holds more
   * events than the lifetime, and a closed interval's rate is never negative.
   */
  lemma {:induction false} RecountSpec(c: CounterSummary, len: real, times: seq<real>)
    requires len > 0.0
    requires 0 <= c.intervalCount <= c.count && c.countsPerInterval >= 0.0
    ensures var r := Recount(c, len, times);
      r.count == c.count + |times| && r.creation == c.creation &&
      0 <= r.intervalCount <= r.count && r.countsPerInterval >= 0.0
    decreases |times|
  {
    if |times| > 0 {
      var n := Crossings(c.intervalStop, len, times[0]);
      if n == 1 {
        assert (c.intervalCount as real) / len >= 0.0;
      }
      RecountSpec(Counted(c, len, times[0]), len, times[1..]);
    }
  }

  /** Counts events, over the sensor's lifetime and per interval. */
  class Counter {
    var count: int
    var intervalCount: int
    var creation: real
    var countsPerInterval: real
    var intervalStop: real
    const intervalLength: real

    ghost predicate Valid()
      reads this
    {
      intervalLength > 0.0 && count >= 0 && intervalCount >= 0
    }

    ghost function State(): CounterSummary
      reads this
    {
      CounterSummary(count, intervalCount, creation, countsPerInterval, intervalStop)
    }

    /** PESCounter(Interval); the interval loop needs a positive length. */
    constructor (intervalLength: real, now: real)
      requires intervalLength > 0.0
      ensures Valid() && this.intervalLength == intervalLength
      ensures State() == CounterCleared(intervalLength, now)
    {
      this.intervalLength := intervalLength;
      count, intervalCount, countsPerInterval := 0, 0, 0.0;
      creation := now;
      intervalStop := now + intervalLength;
    }

    /** Forgets every event; the lifetime now starts at `now`. */
    method Reset(now: real)
      requires Valid()
      modifies this
      ensures Valid() && State() == CounterCleared(intervalLength, now)
    {
      count, intervalCount, countsPerInterval := 0, 0, 0.0;
      creation := now;
      intervalStop := now + intervalLength;
    }

    /**
     * Counts one event at time `now`, first closing every interval `now`
     * has reached: the first closed interval reports its rate, further
     * (empty) ones a rate of 0.
     */
    method UpdateCounter(now: real)
      requires Valid()
      modifies this
      ensures Valid() && State() == Counted(old(State()), intervalLength, now)
    {
      count := count + 1;
      ghost var rolls := 0;
      while now >= intervalStop
        invariant Valid()
        invariant Advance(intervalStop, intervalLength, now) == Advance(old(intervalStop), intervalLength, now)
        invariant Crossings(old(intervalStop), intervalLength, now) == rolls + Crossings(intervalStop, intervalLength, now)
        invariant rolls == 0 ==> countsPerInterval == old(countsPerInterval) && intervalCount == old(intervalCount)
        invariant rolls == 1 ==> countsPerInterval == (old(intervalCount) as real) / intervalLength
        invariant rolls >= 2 ==> countsPerInterval == 0.0
        invariant rolls >= 1 ==> intervalCount == 0
        modifies this`countsPerInterval, this`intervalCount, this`intervalStop
        decreases if now >= intervalStop then ((now - intervalStop) / intervalLength).Floor + 1 else 0
      {
        StepMeasure(now, intervalStop, intervalLength);
        countsPerInterval := (intervalCount as real) / intervalLength;
        intervalCount := 0;
        intervalStop := intervalStop + intervalLength;
        rolls := rolls + 1;
      }
      intervalCount := intervalCount + 1;
    }

    /** PESCounter::GetValue: count, count per lifetime, count per last interval. */
    function GetValue(index: int, now: real): (r: Reading)
      reads this
      ensures r.Aborted? <==> !(Cnt <= index < CounterEnd)
      ensures r.Undefined? == false
      ensures index == Cnt ==> r == Value(count as real)
      ensures index == Cpt && now > creation ==> r.v * (now - creation) == count as real
      ensures index == Cpt && now <= creation ==> r.v == 0.0
      ensures index == Cpi ==> r == Value(countsPerInterval)
    {
      if index == Cnt then Value(count as real)
      else if index == Cpt then
        Value(if now > creation then (count as real) / (now - creation) else 0.0)
      else if index == Cpi then Value(countsPerInterval)
      else Aborted
    }
  }

  // ---------------------------------------------------------------------
  // PESQueue with PESQueueLength
  // ---------------------------------------------------------------------

  /**
   * A queue length sampled into a tally: each change first records the old
   * length weighted by how long it lasted.
   */
  class QueueLength {
    const tally: Tally
    var qLen: int
    var lastUpdate: real
    /** The time of the last reset, from which the recorded weights add up. */
    ghost var since: real

    ghost predicate Valid()
      reads this, tally
    {
      tally.Valid() && tally.numS == lastUpdate - since
    }

    /** PESQueueLength(Interval): length 0, reset at `now`. */
    constructor (interval: real, now: real)
      requires interval > 0.0
      ensures Valid() && fresh(tally) && qLen == 0 && lastUpdate == now
      ensures tally.Consistent() && tally.intervalLen == interval && tally.State() == Cleared(interval, now)
    {
      tally := new Tally(interval, now);
      qLen := 0;
      lastUpdate := now;
      since := now;
    }

    /**
     * PESQueueLength::Reset: the queue's clock restarts and the tally is
     * emptied; the length itself is kept.
     */
    method Reset(now: real)
      requires Valid()
      modifies this, tally
      ensures Valid() && tally.Consistent() && tally.State() == Cleared(tally.intervalLen, now)
      ensures qLen == old(qLen) && lastUpdate == now
    {
      lastUpdate := now;
      tally.Reset(now);
      since := now;
    }

    /**
     * PESQueueLength::UpdateQLen: the old length enters the tally weighted
     * by the time since the last change, then the length changes by `diff`.
     * The weights recorded always add up to the time observed since the
     * last reset.
     */
    method UpdateQLen(diff: int, now: real)
      requires Valid()
      modifies this, tally
      ensures Valid() && qLen == old(qLen) + diff && lastUpdate == now
      ensures tally.State() == Folded(old(tally.State()), tally.intervalLen, old(qLen) as real, old(Duration(now)), now)
      ensures old(tally.Consistent()) && now >= old(lastUpdate) ==> tally.Consistent()
    {
      tally.UpdateTally(qLen as real, now - lastUpdate, now);
      lastUpdate := now;
      qLen := qLen + diff;
    }

    /** PESQueue::Duration: how long the current length has lasted at `now`. */
    function Duration(now: real): (d: real)
      reads this
      ensures lastUpdate + d == now
    {
      now - lastUpdate
    }

    /** PESQueueLength::GetValue: the current length, else the tally's value. */
    function GetValue(index: int, sqrt: real -> real): (r: Reading)
      reads this, tally
      ensures index == Cql ==> r == Value(qLen as real)
      ensures index != Cql ==> r == tally.GetValue(index, sqrt)
      ensures r.Aborted? <==> !(Num <= index < TallyEnd || index == Cql)
    {
      if index == Cql then Value(qLen as real) else tally.GetValue(index, sqrt)
    }
  }

  // ---------------------------------------------------------------------
  // PESQueue with PESQueueLengthFrequency
  // ---------------------------------------------------------------------

  /** The largest queue length any length-histogram sensor has seen (a class-wide static). */
  class QueueStats {
    var maxNumber: int

    constructor ()
      ensures maxNumber == -1
    {
      maxNumber := -1;
    }
  }

  /**
   * A queue length sampled into a histogram: entry k is the time the
   * length was k. A negative length would index the histogram before its
   * start; the model leaves the histogram alone then and sets `badIndex`.
   */
  class QueueLengthFrequency {
    const freq: Frequency
    var qLen: int
    var lastUpdate: real
    var badIndex: bool

    ghost predicate Valid()
      reads this, freq, freq.data
    {
      freq.Valid()
    }

    ghost function Repr(): set<object>
      reads this, freq
    {
      {this, freq, freq.data}
    }

    /** PESQueue::Duration: how long the current length has lasted at `now`. */
    function Duration(now: real): (d: real)
      reads this
      ensures lastUpdate + d == now
    {
      now - lastUpdate
    }

    /** PESQueueLengthFrequency(): length 0, an empty one-entry histogram. */
    constructor (now: real)
      ensures Valid() && fresh(freq) && fresh(freq.data)
      ensures qLen == 0 && lastUpdate == now && !badIndex && freq.data[..] == Zeros(1) && freq.sum == 0.0
    {
      freq := new Frequency(1);
      qLen := 0;
      lastUpdate := now;
      badIndex := false;
    }

    /** PESQueueLengthFrequency::Reset: the queue's clock restarts, the histogram is emptied. */
    method Reset(now: real)
      requires Valid()
      modifies this, freq, freq.data
      ensures Valid() && freq.data == old(freq.data)
      ensures freq.data[..] == Zeros(freq.data.Length) && freq.sum == 0.0
      ensures qLen == old(qLen) && lastUpdate == now && badIndex == old(badIndex)
    {
      lastUpdate := now;
      freq.Reset();
    }

    /**
     * PESQueueLengthFrequency::UpdateQLen: the time the old length lasted
     * is added to its histogram entry, the length changes by `diff`, and
     * the class-wide maximum follows the new length.
     */
    method UpdateQLen(diff: int, now: real, stats: QueueStats)
      requires Valid()
      modifies this, freq, freq.data, stats
      ensures Valid() && (freq.data == old(freq.data) || fresh(freq.data))
      ensures qLen == old(qLen) + diff && lastUpdate == now
      ensures old(qLen) >= 0 ==>
        freq.data[..] == Changed(old(freq.data[..]), old(qLen), old(Duration(now))) &&
        freq.sum == old(freq.sum) + old(Duration(now)) && badIndex == old(badIndex)
      ensures old(qLen) < 0 ==> freq.data[..] == old(freq.data[..]) && freq.sum == old(freq.sum) && badIndex
      ensures stats.maxNumber == if qLen > old(stats.maxNumber) then qLen else old(stats.maxNumber)
    {
      ghost var before := freq.data[..];
      if qLen >= 0 {
        freq.ChangeVal(qLen, now - lastUpdate);
        assert freq.data[..] == Changed(before, old(qLen), now - old(lastUpdate));
      } else {
        badIndex := true;
      }
      lastUpdate := now;
      qLen := qLen + diff;
      if qLen > stats.maxNumber {
        stats.maxNumber := qLen;
      }
    }
  }

  /**
   * PESFrequency::GetValue: the share of entry `index` in the histogram's
   * total, 0 while the total is 0. An index past the end reads outside the
   * array in the source.
   */
  function FrequencyValue(f: Frequency, index: int): (r: Reading)
    requires f.Valid()
    reads f, f.data
    ensures !r.Aborted?
    ensures f.sum == 0.0 ==> r == Value(0.0)
    ensures f.sum != 0.0 ==> (r.Value? <==> 0 <= index < f.num)
    ensures f.sum != 0.0 && 0 <= index < f.num ==> r.v == Relative(f.data[..])[index]
  {
    if f.sum == 0.0 then Value(0.0)
    else if 0 <= index < f.num then Value(f.GetRelVal(index))
    else Undefined
  }

  // ---------------------------------------------------------------------
  // The statistic a queue sensor feeds
  // ---------------------------------------------------------------------

  /**
   * A machine or process queue sensor hands every length change to its
   * virtual UpdateQLen, which the concrete class binds either to
   * PESQueueLength (a tally) or to PESQueueLengthFrequency (a histogram).
   */
  datatype QueueSink = LengthSink(len: QueueLength) | HistogramSink(hist: QueueLengthFrequency)

  /** The objects whose fields `SinkRepr` looks at. */
  ghost function SinkReads(k: QueueSink): set<object>
  {
    if k.HistogramSink? then {k.hist.freq} else {}
  }

  ghost function SinkRepr(k: QueueSink): set<object>
    reads SinkReads(k)
  {
    match k
    case LengthSink(q) => {q, q.tally}
    case HistogramSink(h) => {h, h.freq, h.freq.data}
  }

  ghost predicate SinkValid(k: QueueSink)
    reads SinkReads(k), SinkRepr(k)
  {
    match k
    case LengthSink(q) => q.Valid()
    case HistogramSink(h) => h.Valid()
  }

  /** PESQueue::QLen. */
  function SinkQLen(k: QueueSink): int
    reads SinkReads(k), SinkRepr(k)
  {
    match k
    case LengthSink(q) => q.qLen
    case HistogramSink(h) => h.qLen
  }

  function SinkLastUpdate(k: QueueSink): real
    reads SinkReads(k), SinkRepr(k)
  {
    match k
    case LengthSink(q) => q.lastUpdate
    case HistogramSink(h) => h.lastUpdate
  }

  /**
   * The effect of one length change by `diff` at `now`: the length and its
   * clock move; a tally records the old length weighted by how long it
   * lasted, a histogram adds that time to the old length's entry (or,
   * for a negative old length, marks the bad index) and the class-wide
   * maximum follows the new length.
   */
  twostate predicate SinkStepped(k: QueueSink, diff: int, now: real, stats: QueueStats)
    reads SinkReads(k), SinkRepr(k), stats
  {
    SinkQLen(k) == old(SinkQLen(k)) + diff && SinkLastUpdate(k) == now &&
    match k
    case LengthSink(q) =>
      q.tally.intervalLen > 0.0 &&
      q.tally.State() == Folded(old(q.tally.State()), q.tally.intervalLen, old(q.qLen) as real, now - old(q.lastUpdate), now) &&
      stats.maxNumber == old(stats.maxNumber)
    case HistogramSink(h) =>
      (old(h.qLen) >= 0 ==>
        h.freq.data[..] == Changed(old(h.freq.data[..]), old(h.qLen), now - old(h.lastUpdate)) &&
        h.freq.sum == old(h.freq.sum) + (now - old(h.lastUpdate)) && h.badIndex == old(h.badIndex)) &&
      (old(h.qLen) < 0 ==>
        h.freq.data[..] == old(h.freq.data[..]) && h.freq.sum == old(h.freq.sum) && h.badIndex) &&
      stats.maxNumber == if h.qLen > old(stats.maxNumber) then h.qLen else old(stats.maxNumber)
  }

  /** The state a queue sensor's Reset leaves its sink in. */
  ghost predicate SinkIsReset(k: QueueSink, now: real)
    reads SinkReads(k), SinkRepr(k)
  {
    SinkLastUpdate(k) == now &&
    match k
    case LengthSink(q) => q.tally.State() == Cleared(q.tally.intervalLen, now)
    case HistogramSink(h) => h.freq.sum == 0.0 && h.freq.data[..] == Zeros(h.freq.data.Length)
  }

  /** The virtual UpdateQLen of a queue sensor. */
  method SinkUpdate(k: QueueSink, diff: int, now: real, stats: QueueStats)
    requires SinkValid(k)
    modifies SinkRepr(k), stats
    ensures SinkValid(k) && fresh(SinkRepr(k) - old(SinkRepr(k)))
    ensures SinkStepped(k, diff, now, stats)
  {
    match k
    case LengthSink(q) => q.UpdateQLen(diff, now);
    case HistogramSink(h) => h.UpdateQLen(diff, now, stats);
  }

  /** The Reset of a queue sensor: the sink's Reset, which keeps the length. */
  method SinkReset(k: QueueSink, now: real)
    requires SinkValid(k)
    modifies SinkRepr(k)
    ensures SinkValid(k) && SinkRepr(k) == old(SinkRepr(k))
    ensures SinkQLen(k) == old(SinkQLen(k)) && SinkIsReset(k, now)
  {
    match k
    case LengthSink(q) => q.Reset(now);
    case HistogramSink(h) => h.Reset(now);
  }

  /** The GetValue of a queue sensor. */
  function SinkValue(k: QueueSink, index: int, sqrt: real -> real): (r: Reading)
    requires SinkValid(k)
    reads SinkReads(k), SinkRepr(k)
    ensures k.LengthSink? && index == Cql ==> r == Value(SinkQLen(k) as real)
    ensures k.LengthSink? && index != Cql ==> r == k.len.tally.GetValue(index, sqrt)
    ensures k.HistogramSink? ==> r == FrequencyValue(k.hist.freq, index)
  {
    match k
    case LengthSink(q) => q.GetValue(index, sqrt)
    case HistogramSink(h) => FrequencyValue(h.freq, index)
  }
}
