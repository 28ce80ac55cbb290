/**
 * The containers the sensors fill and the displays read: a curve of sample
 * points kept in a ring buffer of fixed capacity, an iterator over it, a
 * histogram of reals that grows on demand, and the range of state ids a
 * process type has visited.
 */
module DataTypes {

  datatype Point = Point(x: real, y: real)

  // ---------------------------------------------------------------------
  // PDCurve, as a value: the specification its class implementation follows
  // ---------------------------------------------------------------------

  /**
   * The state of a curve: capacity, slot of the oldest point, slot of the
   * newest point, number of points held, and the slots themselves.
   */
  datatype Ring = Ring(maxPoints: int, first: int, last: int, numPoints: int, slots: seq<Point>)

  /**
   * Until the buffer is full the points sit in slots 0 .. numPoints - 1;
   * once it is full the oldest point follows the newest one around the ring.
   */
  predicate RingValid(r: Ring)
  {
    r.maxPoints > 4 && |r.slots| == r.maxPoints &&
    0 <= r.numPoints <= r.maxPoints &&
    (r.numPoints < r.maxPoints ==> r.first == 0 && r.last == r.numPoints - 1) &&
    (r.numPoints == r.maxPoints ==>
       0 <= r.last < r.maxPoints && r.first == if r.last + 1 == r.maxPoints then 0 else r.last + 1)
  }

  /** The points held, oldest first. */
  function Stored(r: Ring): (s: seq<Point>)
    requires RingValid(r)
    ensures |s| == r.numPoints
  {
    if r.numPoints < r.maxPoints then r.slots[..r.numPoints]
    else r.slots[r.first..] + r.slots[..r.first]
  }

  /** The empty curve of a given capacity. */
  function EmptyRing(slots: seq<Point>): (r: Ring)
    requires |slots| > 4
    ensures RingValid(r) && Stored(r) == [] && r.maxPoints == |slots|
  {
    Ring(|slots|, 0, -1, 0, slots)
  }

  /**
   * The test that stops a full curve from growing: the two newest slots
   * already hold the y value being added. It is only made when `last > 1`.
   */
  predicate Collapses(r: Ring, y: real)
    requires RingValid(r)
  {
    r.numPoints == r.maxPoints && r.last > 1 &&
    r.slots[r.last].y == y && r.slots[r.last - 1].y == y
  }

  /**
   * PDCurve::AddPoint: append while there is room; once full, either
   * overwrite the newest point (collapse) or advance both ends, dropping the
   * oldest point.
   */
  function AddRaw(r: Ring, p: Point): (r': Ring)
    requires RingValid(r)
    ensures RingValid(r') && r'.maxPoints == r.maxPoints
    ensures r'.numPoints == if r.numPoints < r.maxPoints then r.numPoints + 1 else r.maxPoints
    ensures r'.slots == r.slots[r'.last := p]
  {
    if r.numPoints == r.maxPoints then
      if Collapses(r, p.y) then r.(slots := r.slots[r.last := p])
      else
        var f := if r.first + 1 == r.maxPoints then 0 else r.first + 1;
        var l := if r.last + 1 == r.maxPoints then 0 else r.last + 1;
        r.(first := f, last := l, slots := r.slots[l := p])
    else
      r.(last := r.numPoints, numPoints := r.numPoints + 1, slots := r.slots[r.numPoints := p])
  }

  /** The slot `last` holds the newest point. */
  lemma NewestIsLast(r: Ring)
    requires RingValid(r) && r.numPoints > 0
    ensures r.slots[r.last] == Stored(r)[r.numPoints - 1]
  {
    if r.numPoints == r.maxPoints {
      if r.first == 0 {
        assert r.last == r.maxPoints - 1;
      } else {
        assert r.last == r.first - 1;
        assert Stored(r)[r.numPoints - 1] == r.slots[..r.first][r.first - 1];
      }
    }
  }

  /**
   * On a full curve whose newest slot is past 1, the collapse test looks at
   * the two newest points held.
   */
  lemma CollapseSeesNewestTwo(r: Ring, y: real)
    requires RingValid(r) && r.numPoints == r.maxPoints && r.last > 1
    ensures Collapses(r, y) <==>
      Stored(r)[r.numPoints - 1].y == y && Stored(r)[r.numPoints - 2].y == y
  {
    NewestIsLast(r);
    var s := Stored(r);
    if r.first == 0 {
      assert s == r.slots;
    } else {
      assert r.last == r.first - 1;
      assert s[r.numPoints - 2] == r.slots[..r.first][r.first - 2];
    }
  }

  /**
   * What adding a point does to the sequence of points held: it is
   * appended, and on a full curve either the oldest point goes or the
   * newest one is replaced.
   */
  lemma AddRawStored(r: Ring, p: Point)
    requires RingValid(r)
    ensures Stored(AddRaw(r, p)) ==
      if r.numPoints < r.maxPoints then Stored(r) + [p]
      else if Collapses(r, p.y) then Stored(r)[..r.numPoints - 1] + [p]
      else Stored(r)[1..] + [p]
  {
    if r.numPoints < r.maxPoints {
      assert AddRaw(r, p).slots[..r.numPoints + 1] == r.slots[..r.numPoints] + [p];
    } else if Collapses(r, p.y) {
      CollapseReplacesNewest(r, p);
    } else {
      ShiftDropsOldest(r, p);
    }
  }

  /** A collapse on a full curve replaces the newest point held. */
  lemma CollapseReplacesNewest(r: Ring, p: Point)
    requires RingValid(r) && r.numPoints == r.maxPoints && Collapses(r, p.y)
    ensures Stored(AddRaw(r, p)) == Stored(r)[..r.numPoints - 1] + [p]
  {
    var r' := AddRaw(r, p);
    var f := r.first;
    if f == 0 {
      assert r.last == r.numPoints - 1;
      assert Stored(r') == r.slots[..r.numPoints - 1] + [p];
    } else {
      assert r.last == f - 1;
      assert Stored(r)[..r.numPoints - 1] == r.slots[f..] + r.slots[..f - 1];
      assert r'.slots[..f] == r.slots[..f - 1] + [p];
    }
  }

  /** Adding to a full curve without a collapse drops the oldest point held. */
  lemma ShiftDropsOldest(r: Ring, p: Point)
    requires RingValid(r) && r.numPoints == r.maxPoints && !Collapses(r, p.y)
    ensures Stored(AddRaw(r, p)) == Stored(r)[1..] + [p]
  {
    var r' := AddRaw(r, p);
    var f := r.first;
    if f + 1 == r.numPoints {
      assert r'.last == f && r'.first == 0;
      assert Stored(r') == r.slots[..f] + [p];
      assert Stored(r)[1..] == r.slots[..f];
    } else {
      assert r'.last == f && r'.first == f + 1;
      assert r'.slots[f + 1..] == r.slots[f + 1..];
      assert r'.slots[..f + 1] == r.slots[..f] + [p];
      assert Stored(r)[1..] == r.slots[f + 1..] + r.slots[..f];
    }
  }

  /**
   * While it is not close to full, a discrete curve turns each new value
   * into a step: a point at the new x with the previous y, then the new
   * point.
   */
  lemma DiscreteStepStored(r: Ring, x: real, y: real)
    requires RingValid(r) && 0 < r.numPoints && r.numPoints + 2 <= r.maxPoints
    ensures
      var prev := Stored(r)[r.numPoints - 1].y;
      Stored(AddRaw(AddRaw(r, Point(x, prev)), Point(x, y))) ==
        Stored(r) + [Point(x, prev), Point(x, y)]
  {
    var prev := Stored(r)[r.numPoints - 1].y;
    AddRawStored(r, Point(x, prev));
    AddRawStored(AddRaw(r, Point(x, prev)), Point(x, y));
  }

  /**
   * The virtual AddPoint as a value: a discrete curve that already holds a
   * point first repeats the newest y at the new x, then adds the point.
   */
  function Drawn(r: Ring, discrete: bool, p: Point): (r': Ring)
    requires RingValid(r)
    ensures RingValid(r') && r'.maxPoints == r.maxPoints
  {
    if discrete && r.numPoints > 0 then AddRaw(AddRaw(r, Point(p.x, r.slots[r.last].y)), p)
    else AddRaw(r, p)
  }

  /** Whatever the curve, the point drawn is afterwards the newest point held. */
  lemma DrawnIsNewest(r: Ring, discrete: bool, p: Point)
    requires RingValid(r)
    ensures var r' := Drawn(r, discrete, p);
      r'.numPoints > 0 && Stored(r')[r'.numPoints - 1] == p
  {
    var r' := Drawn(r, discrete, p);
    NewestIsLast(r');
  }

  /** Every point held sits in one of the slots 0 .. numPoints - 1, and back. */
  lemma StoredAreLowSlots(r: Ring, p: Point)
    requires RingValid(r)
    ensures p in Stored(r) <==> p in r.slots[..r.numPoints]
  {
    if r.numPoints == r.maxPoints {
      var f := r.first;
      assert r.slots == r.slots[..f] + r.slots[f..];
      assert p in Stored(r) <==> p in r.slots[f..] || p in r.slots[..f];
    }
  }

  // ---------------------------------------------------------------------
  // PDCurve and PDDiscreteCurve
  // ---------------------------------------------------------------------

  /**
   * A curve of at most `maxPoints` points. A discrete curve (PDDiscreteCurve)
   * is one whose `AddPoint` draws steps; its buffer has 2 * n - 1 slots.
   */
  class Curve {
    const maxPoints: int
    const discrete: bool
    const point: array<Point>
    var numPoints: int
    var first: int
    var last: int

    ghost function State(): Ring
      reads this, point
    {
      Ring(maxPoints, first, last, numPoints, point[..])
    }

    ghost predicate Valid()
      reads this, point
    {
      point.Length == maxPoints && RingValid(State())
    }

    /** PDCurve(MaxPoints): an empty curve; the source asserts MaxPoints > 4. */
    constructor (maxPoints: int)
      requires maxPoints > 4
      ensures Valid() && fresh(point) && !discrete
      ensures this.maxPoints == maxPoints && Stored(State()) == []
    {
      this.maxPoints := maxPoints;
      discrete := false;
      point := new Point[maxPoints](_ => Point(0.0, 0.0));
      numPoints, first, last := 0, 0, -1;
    }

    /** PDDiscreteCurve(MaxPoints): an empty curve of 2 * MaxPoints - 1 slots. */
    constructor Discrete(maxPoints: int)
      requires 2 * maxPoints - 1 > 4
      ensures Valid() && fresh(point) && discrete
      ensures this.maxPoints == 2 * maxPoints - 1 && Stored(State()) == []
    {
      this.maxPoints := 2 * maxPoints - 1;
      discrete := true;
      point := new Point[2 * maxPoints - 1](_ => Point(0.0, 0.0));
      numPoints, first, last := 0, 0, -1;
    }

    /** PDCurve::AddPoint. */
    method AddRawPoint(x: real, y: real)
      requires Valid()
      modifies this`numPoints, this`first, this`last, point
      ensures Valid()
      ensures State() == AddRaw(old(State()), Point(x, y))
    {
      if numPoints == maxPoints {
        if !(last > 1 && point[last].y == y && point[last - 1].y == y) {
          first := first + 1;
          if first == maxPoints { first := 0; }
          last := last + 1;
          if last == maxPoints { last := 0; }
        }
      } else {
        last := numPoints;
        numPoints := numPoints + 1;
      }
      point[last] := Point(x, y);
    }

    /**
     * The virtual AddPoint: a discrete curve that already holds a point
     * first repeats the newest y at the new x.
     */
    method AddPoint(x: real, y: real)
      requires Valid()
      modifies this`numPoints, this`first, this`last, point
      ensures Valid()
      ensures State() == Drawn(old(State()), discrete, Point(x, y))
    {
      if discrete && numPoints > 0 {
        AddRawPoint(x, point[last].y);
      }
      AddRawPoint(x, y);
    }

    /**
     * PDCurve::GetMinMax: the bounding box of the points held, each
     * coordinate scanned separately from slot numPoints - 1 down to slot 0
     * and started from slot 0 (whatever it holds when the curve is empty).
     */
    method GetMinMax() returns (min: Point, max: Point)
      requires Valid()
      ensures forall p :: p in Stored(State()) ==>
        min.x <= p.x <= max.x && min.y <= p.y <= max.y
      ensures numPoints > 0 ==>
        (exists p :: p in Stored(State()) && p.x == min.x) &&
        (exists p :: p in Stored(State()) && p.y == min.y) &&
        (exists p :: p in Stored(State()) && p.x == max.x) &&
        (exists p :: p in Stored(State()) && p.y == max.y)
    {
      min, max := point[0], point[0];
      ghost var kx, ky, jx, jy := 0, 0, 0, 0;
      var i := numPoints;
      while i > 0
        invariant 0 <= i <= numPoints
        invariant forall k :: i <= k < numPoints ==>
          min.x <= point[k].x <= max.x && min.y <= point[k].y <= max.y
        invariant 0 <= kx < point.Length && point[kx].x == min.x
        invariant 0 <= ky < point.Length && point[ky].y == min.y
        invariant 0 <= jx < point.Length && point[jx].x == max.x
        invariant 0 <= jy < point.Length && point[jy].y == max.y
        invariant numPoints > 0 ==> kx < numPoints && ky < numPoints && jx < numPoints && jy < numPoints
      {
        i := i - 1;
        if point[i].x < min.x { min, kx := min.(x := point[i].x), i; }
        if point[i].y < min.y { min, ky := min.(y := point[i].y), i; }
        if point[i].x > max.x { max, jx := max.(x := point[i].x), i; }
        if point[i].y > max.y { max, jy := max.(y := point[i].y), i; }
      }
      forall p | p in Stored(State())
        ensures min.x <= p.x <= max.x && min.y <= p.y <= max.y
      {
        StoredAreLowSlots(State(), p);
      }
      if numPoints > 0 {
        StoredAreLowSlots(State(), point[kx]);
        StoredAreLowSlots(State(), point[ky]);
        StoredAreLowSlots(State(), point[jx]);
        StoredAreLowSlots(State(), point[jy]);
      }
    }
  }

  // ---------------------------------------------------------------------
  // PDCurveIter
  // ---------------------------------------------------------------------

  /**
   * Walks the points of a curve oldest first: `cur` is the slot of the
   * current point and `toVisit` the number of points not yet passed.
   */
  class CurveIter {
    const curve: Curve
    var cur: int
    var toVisit: int

    /**
     * While points remain, `cur` is the slot of the point `numPoints - toVisit`
     * places after the oldest one.
     */
    ghost predicate Valid()
      reads this, curve, curve.point
    {
      curve.Valid() && toVisit <= curve.numPoints && 0 <= cur < curve.maxPoints &&
      (toVisit >= 0 ==>
         var k := curve.numPoints - toVisit;
         cur == if curve.first + k < curve.maxPoints then curve.first + k
                else curve.first + k - curve.maxPoints)
    }

    /** Starts at the oldest point with every point still to visit. */
    constructor (curve: Curve)
      requires curve.Valid()
      ensures Valid() && this.curve == curve && toVisit == curve.numPoints
    {
      this.curve := curve;
      cur := curve.first;
      toVisit := curve.numPoints;
    }

    /** operator bool: true while points remain. */
    function HasMore(): (more: bool)
      reads this
    {
      toVisit != 0
    }

    /** operator->: the point the iterator stands on. */
    function Current(): (p: Point)
      requires Valid()
      reads this, curve, curve.point
      ensures 0 < toVisit ==> p == Stored(curve.State())[curve.numPoints - toVisit]
    {
      curve.point[cur]
    }

    /** operator++: one point fewer to visit, next slot around the ring. */
    method Next()
      requires Valid()
      modifies this
      ensures Valid() && toVisit == old(toVisit) - 1
    {
      toVisit := toVisit - 1;
      cur := cur + 1;
      if cur == curve.maxPoints { cur := 0; }
    }
  }

  // ---------------------------------------------------------------------
  // PDFrequency
  // ---------------------------------------------------------------------

  /** The sum of a sequence of reals. */
  function Sum(s: seq<real>): real
  {
    if s == [] then 0.0 else Sum(s[..|s| - 1]) + s[|s| - 1]
  }

  function Zeros(n: nat): (z: seq<real>)
    ensures |z| == n && forall i :: 0 <= i < n ==> z[i] == 0.0
  {
    seq(n, _ => 0.0)
  }

  lemma {:induction false} SumZeros(n: nat)
    ensures Sum(Zeros(n)) == 0.0
  {
    if n > 0 {
      assert Zeros(n)[..n - 1] == Zeros(n - 1);
      SumZeros(n - 1);
    }
  }

  lemma {:induction false} SumAppend(s: seq<real>, t: seq<real>)
    ensures Sum(s + t) == Sum(s) + Sum(t)
  {
    if t != [] {
      assert (s + t)[..|s + t| - 1] == s + t[..|t| - 1];
      SumAppend(s, t[..|t| - 1]);
    } else {
      assert s + t == s;
    }
  }

  /** Adding `c` to one entry adds `c` to the sum. */
  lemma {:induction false} SumUpdate(s: seq<real>, i: nat, c: real)
    requires i < |s|
    ensures Sum(s[i := s[i] + c]) == Sum(s) + c
  {
    var t := s[i := s[i] + c];
    assert s == s[..i] + [s[i]] + s[i + 1..];
    assert t == s[..i] + [s[i] + c] + s[i + 1..];
    SumAppend(s[..i] + [s[i]], s[i + 1..]);
    SumAppend(s[..i], [s[i]]);
    SumAppend(s[..i] + [s[i] + c], s[i + 1..]);
    SumAppend(s[..i], [s[i] + c]);
    assert Sum([s[i]]) == s[i] by { assert [s[i]][..0] == []; }
    assert Sum([s[i] + c]) == s[i] + c by { assert [s[i] + c][..0] == []; }
  }

  /** A new array holding `a` followed by zeros up to and including `index`. */
  method WidenedCopy(a: array<real>, index: nat) returns (d: array<real>)
    requires index >= a.Length
    ensures fresh(d) && d[..] == Widened(a[..], index)
  {
    d := new real[index + 1];
    var i := 0;
    while i < a.Length
      invariant 0 <= i <= a.Length
      invariant forall k :: 0 <= k < i ==> d[k] == a[k]
    {
      d[i] := a[i];
      i := i + 1;
    }
    while i <= index
      invariant a.Length <= i <= index + 1
      invariant forall k :: 0 <= k < a.Length ==> d[k] == a[k]
      invariant forall k :: a.Length <= k < i ==> d[k] == 0.0
    {
      d[i] := 0.0;
      i := i + 1;
    }
  }

  /** The histogram widened, with zeros, so that it has an entry `index`. */
  function Widened(s: seq<real>, index: nat): (w: seq<real>)
    ensures |w| == if index < |s| then |s| else index + 1
    ensures w[..|s|] == s && forall i :: |s| <= i < |w| ==> w[i] == 0.0
    ensures Sum(w) == Sum(s)
  {
    if index < |s| then s
    else
      SumZeros(index + 1 - |s|);
      SumAppend(s, Zeros(index + 1 - |s|));
      s + Zeros(index + 1 - |s|)
  }

  /** The histogram after adding `change` to entry `index`, widened first if need be. */
  function Changed(s: seq<real>, index: nat, change: real): (t: seq<real>)
    ensures |t| == if index < |s| then |s| else index + 1
    ensures t[index] == (if index < |s| then s[index] else 0.0) + change
    ensures forall i :: 0 <= i < |t| && i != index ==> t[i] == if i < |s| then s[i] else 0.0
    ensures Sum(t) == Sum(s) + change
  {
    var w := Widened(s, index);
    SumUpdate(w, index, change);
    w[index := w[index] + change]
  }

  /** The entries divided by their total. */
  function Relative(s: seq<real>): (rel: seq<real>)
    requires Sum(s) != 0.0
    ensures |rel| == |s| && forall i :: 0 <= i < |s| ==> rel[i] == s[i] / Sum(s)
  {
    seq(|s|, i requires 0 <= i < |s| => s[i] / Sum(s))
  }

  lemma {:induction false} SumScaled(s: seq<real>, d: real)
    requires d != 0.0
    ensures Sum(seq(|s|, i requires 0 <= i < |s| => s[i] / d)) == Sum(s) / d
  {
    var q := seq(|s|, i requires 0 <= i < |s| => s[i] / d);
    if s != [] {
      var s' := s[..|s| - 1];
      assert q[..|q| - 1] == seq(|s'|, i requires 0 <= i < |s'| => s'[i] / d);
      SumScaled(s', d);
      assert Sum(q) == Sum(s') / d + s[|s| - 1] / d;
    }
  }

  /** The relative frequencies of a non-empty histogram add up to one. */
  lemma RelativeSumsToOne(s: seq<real>)
    requires Sum(s) != 0.0
    ensures Sum(Relative(s)) == 1.0
  {
    SumScaled(s, Sum(s));
    assert Relative(s) == seq(|s|, i requires 0 <= i < |s| => s[i] / Sum(s));
    assert Sum(s) / Sum(s) == 1.0;
  }

  /**
   * A histogram of reals indexed from 0 that grows when an entry past its
   * end is changed, with the running total of its entries.
   */
  class Frequency {
    var data: array<real>
    var num: int
    var sum: real

    ghost predicate Valid()
      reads this, data
    {
      num == data.Length && sum == Sum(data[..])
    }

    /** PDFrequency(MinNum): `minNum` zero entries. */
    constructor (minNum: nat)
      ensures Valid() && fresh(data) && data[..] == Zeros(minNum) && sum == 0.0
    {
      num := minNum;
      data := new real[minNum];
      sum := 0.0;
      new;
      Reset();
    }

    /** Every entry and the total back to zero. */
    method Reset()
      requires num == data.Length
      modifies this`sum, data
      ensures Valid() && data == old(data) && data[..] == Zeros(data.Length) && sum == 0.0
    {
      var i := data.Length;
      while i > 0
        invariant 0 <= i <= data.Length
        invariant forall k :: i <= k < data.Length ==> data[k] == 0.0
      {
        i := i - 1;
        data[i] := 0.0;
      }
      sum := 0.0;
      assert data[..] == Zeros(data.Length);
      SumZeros(data.Length);
    }

    /**
     * Adds `change` to entry `index`, first widening the histogram with
     * zeros when `index` is past its end.
     */
    method ChangeVal(index: nat, change: real)
      requires Valid()
      modifies this, data
      ensures Valid() && (data == old(data) || fresh(data))
      ensures data[..] == Changed(old(data[..]), index, change)
      ensures sum == old(sum) + change
    {
      if index >= num {
        Widen(index);
      }
      ghost var wide := data[..];
      data[index] := data[index] + change;
      sum := sum + change;
      assert data[..] == wide[index := wide[index] + change];
      SumUpdate(wide, index, change);
    }

    /** Reallocates the entries so that `index` is one, the new ones zero. */
    method Widen(index: nat)
      requires Valid() && index >= num
      modifies this
      ensures Valid() && fresh(data) && sum == old(sum)
      ensures data[..] == Widened(old(data[..]), index)
    {
      data := WidenedCopy(data, index);
      num := index + 1;
    }

    function GetAbsVal(index: nat): (v: real)
      requires Valid() && index < num
      reads this, data
      ensures v == data[..][index]
    {
      data[index]
    }

    /** The share of entry `index` in the total, or 0 while the total is 0. */
    function GetRelVal(index: nat): (v: real)
      requires Valid() && index < num
      reads this, data
      ensures sum != 0.0 ==> v == Relative(data[..])[index]
      ensures sum == 0.0 ==> v == 0.0
    {
      if sum != 0.0 then data[index] / sum else 0.0
    }

    /** Makes this histogram a copy of `from`, entries and total. */
    method Copy(from: Frequency)
      requires Valid() && from.Valid()
      modifies this, data
      ensures Valid() && (data == old(data) || fresh(data))
      ensures data[..] == old(from.data[..]) && sum == old(from.sum)
      ensures from.data[..] == old(from.data[..])
    {
      if num != from.num {
        num := from.num;
        data := new real[num];
      }
      var i := 0;
      while i < num
        invariant 0 <= i <= num == data.Length == from.data.Length
        invariant data == old(data) || fresh(data)
        invariant from.data == old(from.data) && from.sum == old(from.sum)
        invariant from.data[..] == old(from.data[..])
        invariant forall k :: 0 <= k < i ==> data[k] == from.data[k]
      {
        data[i] := from.data[i];
        i := i + 1;
      }
      sum := from.sum;
      assert data[..] == from.data[..];
    }
  }

  // ---------------------------------------------------------------------
  // PDStateTable
  // ---------------------------------------------------------------------

  /** LONG_MAX of a 64-bit `long`. */
  const LongMax: int := 0x7FFF_FFFF_FFFF_FFFF

  /** The number of state ids from `minId` to `maxId`, none when the range is empty. */
  function NumOfStates(minId: int, maxId: int): (n: nat)
    ensures n == 0 <==> maxId < minId
    ensures minId <= maxId ==> n == maxId - minId + 1
  {
    if maxId >= minId then maxId - minId + 1 else 0
  }

  /** The smallest and largest state id registered since the last reset. */
  class StateTable {
    var maxStateId: int
    var minStateId: int

    constructor ()
      ensures maxStateId == -1 && minStateId == LongMax
    {
      maxStateId, minStateId := -1, LongMax;
    }

    /** Empties the range. */
    method Reset()
      modifies this
      ensures maxStateId == -1 && minStateId == LongMax
      ensures GetNumOfStates() == 0
    {
      maxStateId, minStateId := -1, LongMax;
    }

    /** The accessor over the table's own range; `NumOfStates` defines the count. */
    function GetNumOfStates(): nat
      reads this
    {
      NumOfStates(minStateId, maxStateId)
    }

    /** Widens the range so that it holds `id`. */
    method RegisterState(id: int)
      modifies this
      ensures maxStateId == (if id > old(maxStateId) then id else old(maxStateId))
      ensures minStateId == (if id < old(minStateId) then id else old(minStateId))
      ensures minStateId <= id <= maxStateId && 1 <= id - minStateId + 1 <= GetNumOfStates()
    {
      if id > maxStateId { maxStateId := id; }
      if id < minStateId { minStateId := id; }
    }
  }
}
