# QSDL-PEV sensor and statistics layer in Dafny

PEV is the performance-evaluation and visualisation add-on of a QSDL
discrete-event simulator. The simulator reports each trace action to an
event dispatcher. The dispatcher hands the action to the sensors that
subscribed to it. Each sensor folds what it sees into statistics: weighted
tallies, counters, queue lengths and histograms. Updaters carry sensor
values to curves and histograms, which displays draw. A small scanner and
some setup tables decide which sensors and data a configuration builds.

This project models that layer and proves properties of the model:

| file | module | source |
|---|---|---|
| `entities.dfy` | `Entities` | the simulator objects the sensors see (machines, processes, requests, signals, states), as values with an identity `Ref` |
| `datatypes.dfy` | `DataTypes` | `PDCurve`, `PDDiscreteCurve`, `PDCurveIter`, `PDFrequency`, `PDStateTable` |
| `accumulators.dfy` | `Accumulators` | `PESTally`, `PESCounter`, `PESFrequency`, `PESQueueLength`, `PESQueueLengthFrequency`, the value-index layout |
| `events.dfy` | `Events` | the trace actions, the sensor handler calls, lazy name binding |
| `machine_sensors.dfy` | `MachineSensors` | the sensors of `PESMachine.cpp` |
| `process_sensors.dfy` | `ProcessSensors` | the sensors of `PESProcess.cpp` |
| `activity_sensors.dfy` | `ActivitySensors` | `PESEvent` and `PESActivity` |
| `controller.dfy` | `Controller` | the sensor half of `PCController` |
| `sensors.dfy` | `Sensors` | the virtual sensor interface |
| `dispatcher.dfy` | `Dispatcher` | `PEEventDispatcher`: registration, `LogEvent` routing, the report trigger |
| `updater.dfy` | `Updater` | `PCCurveUpdater`, `PCFreqUpdater` |
| `sensor_types.dfy` | `SensorTypes` | sensor, display and value-index types and their bit-mask classifications |
| `setup.dfy` | `Setup` | `SensorTable`, `DataTypeTable`, `InstantiateSensor`, `InstantiateDataType` |
| `scanner.dfy` | `ConfigScanner` | the configuration `Scanner` over one line buffer |

Modelling decisions:

- **Classes and references.** State that the source updates in place is a
  Dafny `class` with `modifies` clauses:
  - the curve's point array and the histogram's data array are `array`s;
  - the subscriber lists and the tables are `seq` fields that the methods
    reassign.
- **Virtual calls.** The sensors' virtual calls become a closed datatype
  `SensorRef` with one case per concrete sensor class. `Notify`, `Deliver`,
  `ResetSensor`, `GetValue` and `GetData` each match on it.
- **Identity and names.**
  - The identity of simulator objects and of `char *` names is an abstract
    `Ref`.
  - `strcmp` on names is equality of the text.
  - The event and activity sensors compare names as pointers (`CStr.ptr`).
- **Parameters.**
  - The simulation clock `Now()` is a `now: real` parameter.
  - `sqrt` in the tally's deviation is a `sqrt: real -> real` parameter.
  - The class-wide `maxNumber` of the queue histograms is a shared
    `QueueStats` object.
- **`abort()`.** A call to `abort()` in the source becomes an outcome:
  - `Reading.Aborted` from `GetValue` on an unknown index;
  - `ok == false` from `LogEvent` on a wrong action, or when the
    utilization sensor's sample assertion fails;
  - `None` from `InstantiateSensor` on an unknown type.
- **Reading outside a histogram.** `GetRelVal` past the end of the
  histogram reads outside the array in the source. The model answers
  `Reading.Undefined`.
- **Abstract statistics.** A tally's fields are summarised by the ghost
  `State()`, a `TallySummary`; a counter's by a `CounterSummary`. The pure
  functions `Cleared`/`Folded` and `CounterCleared`/`Counted` say what a
  reset and one more sample or event make of it. Every constructor, reset
  and handler that feeds a tally or counter states its new summary with
  them, and `Replay`/`Recount` lift them to a run of samples or events.
- **Scanner diagnostics.** The scanner records its diagnostics as a
  sequence of messages, in order.

Where the code and the design description disagree, the model follows the
code:

- `EvEnd` reaches only the sensors subscribed to SchedulerStop.
- The tally's `sumS2` adds the square of the weighted sample, `(w*x)^2`.
- The curve's collapse test is skipped while `last <= 1`.
- In `PESActivity::NotifyOnEvent`, the MachineCreate case tests the start
  descriptor's `isArrival` in its stop clause.
- `GetInt` converts like `%i`, so a leading `0` makes the digits octal.

## Model

| member | source | states |
|---|---|---|
| DataTypes.Stored | PDDataType.h:59-79 | the points held, oldest first, are exactly `numPoints` many |
| DataTypes.EmptyRing | PDDataType.cpp:59-69 | an empty curve is a valid ring holding no point, with capacity the number of slots |
| DataTypes.AddRaw | PDDataType.cpp:78-94 | adding a point keeps the ring valid, grows `numPoints` by one up to the capacity, and writes the point into slot `last` and no other slot |
| DataTypes.NewestIsLast | PDDataType.cpp:78-94 | slot `last` holds the newest point held |
| DataTypes.CollapseSeesNewestTwo | PDDataType.cpp:80-86 | on a full curve with `last > 1`, the collapse test compares `y` with the two newest points held |
| DataTypes.AddRawStored | PDDataType.cpp:78-94 | with room left the point is appended; on a full curve the sequence held either loses its oldest point or has its newest one replaced, and the new point is last |
| DataTypes.CollapseReplacesNewest | PDDataType.cpp:80-93 | a collapse replaces only the newest point held; the others are unchanged |
| DataTypes.ShiftDropsOldest | PDDataType.cpp:80-93 | adding to a full curve without a collapse drops the oldest point and appends the new one |
| DataTypes.DiscreteStepStored | PDDataType.cpp:141-148 | with room for two points, a discrete curve appends `(x, previous y)` and then `(x, y)` |
| DataTypes.Drawn | PDDataType.cpp:141-148 | the virtual AddPoint keeps the ring valid and its capacity |
| DataTypes.DrawnIsNewest | PDDataType.cpp:141-148 | whatever the curve kind, the point added is afterwards the newest point held |
| DataTypes.StoredAreLowSlots | PDDataType.cpp:97-109 | the points held are exactly those in slots `0 .. numPoints-1` |
| DataTypes.Curve.constructor | PDDataType.cpp:59-69 | a new curve is valid, holds no point, and has the requested capacity; requires `MaxPoints > 4` |
| DataTypes.Curve.Discrete | PDDataType.cpp:135-138 | a discrete curve of `n` points has `2n-1` slots and starts empty |
| DataTypes.Curve.AddRawPoint | PDDataType.cpp:78-94 | the in-place ring-buffer update produces exactly the state `AddRaw` describes |
| DataTypes.Curve.AddPoint | PDDataType.cpp:141-148 | the virtual AddPoint produces exactly the state `Drawn` describes, for plain and discrete curves |
| DataTypes.Curve.GetMinMax | PDDataType.cpp:97-109 | every point held lies inside the returned box; on a non-empty curve each bound is attained by a point held |
| DataTypes.CurveIter.constructor | PDDataType.cpp:116-128 | the iterator starts at the oldest point with all `numPoints` points still to visit |
| DataTypes.CurveIter.Current | PDDataType.h:94 | while points remain, the point under the iterator is the `(numPoints - toVisit)`-th point held, oldest first |
| DataTypes.CurveIter.Next | PDDataType.h:92 | one point fewer to visit, and the iterator stays on the points held in order |
| DataTypes.Zeros | PDDataType.cpp:171-176 | `n` entries, all zero |
| DataTypes.SumZeros | PDDataType.cpp:171-176 | a zeroed histogram has total 0 |
| DataTypes.SumAppend | PDDataType.cpp:182-190 | the total of two sequences joined is the sum of their totals |
| DataTypes.SumUpdate | PDDataType.cpp:191-192 | adding `c` to one entry adds `c` to the total |
| DataTypes.WidenedCopy | PDDataType.cpp:182-190 | the reallocated array holds the old entries followed by zeros up to and including the new index |
| DataTypes.Widened | PDDataType.cpp:182-190 | widening keeps the old entries as a prefix, adds only zeros, has an entry at the index, and keeps the total |
| DataTypes.Changed | PDDataType.cpp:179-193 | after ChangeVal the array has an entry `index`, that entry grew by `change`, every other entry is the old one or a new zero, and the total grew by `change` |
| DataTypes.Relative | PDDataType.cpp:196-199 | each relative entry is the entry divided by the total |
| DataTypes.SumScaled | PDDataType.cpp:196-199 | dividing every entry by `d` divides the total by `d` |
| DataTypes.RelativeSumsToOne | PDDataType.cpp:196-199 | the relative frequencies of a histogram with non-zero total add up to 1 |
| DataTypes.Frequency.constructor | PDDataType.cpp:155-161 | a new histogram has `MinNum` zero entries and total 0 |
| DataTypes.Frequency.Reset | PDDataType.cpp:171-176 | every entry and the total are 0, and the length is kept |
| DataTypes.Frequency.ChangeVal | PDDataType.cpp:179-193 | the entries become `Changed(old, index, change)`, the total grows by `change`, and `sum` stays the total of the entries |
| DataTypes.Frequency.Widen | PDDataType.cpp:182-190 | a fresh array with the old entries, zeros up to `index`, and the same total |
| DataTypes.Frequency.GetAbsVal | PDDataType.h:131 | the stored entry, unchanged |
| DataTypes.Frequency.GetRelVal | PDDataType.cpp:196-199 | the entry's share of the total, or 0 while the total is 0 |
| DataTypes.Frequency.Copy | PDDataType.cpp:202-212 | afterwards the entries and total equal the source's, and the source is unchanged |
| DataTypes.NumOfStates | PDDataType.h:183-185 | `max - min + 1` when `max >= min`, and 0 exactly when the range is empty |
| DataTypes.StateTable.constructor | PDDataType.cpp:219-223 | the range starts empty: `max = -1`, `min = LONG_MAX` |
| DataTypes.StateTable.Reset | PDDataType.h:186-187 | the range is emptied, so `GetNumOfStates() == 0` |
| DataTypes.StateTable.RegisterState | PDDataType.cpp:240-251 | the range widens to include `id`, and `id`'s position in it lies between 1 and the number of states |
| Accumulators.StepMeasure | PESensor.cpp:90-95 | moving the interval end by one length lowers the number of intervals still to close by one |
| Accumulators.AdvanceSpec | PESensor.cpp:90-95 | the interval loop ends at the first interval end after `now`, a whole number of lengths after the old one |
| Accumulators.ClosedAvg | PESensor.cpp:92 | a closed interval's average is 0 without weight and non-negative for non-negative sums |
| Accumulators.Tally.constructor | PESensor.cpp:45-49 | `State()` is `Cleared`: no weight, every sum, extreme and interval field 0, and the first interval ends one length after `now` |
| Accumulators.Tally.Reset | PESensor.cpp:52-57 | `State()` is `Cleared` again: every sum, extreme and interval field 0, and `intervalStop = now + intervalLen` |
| Accumulators.Tally.UpdateTally | PESensor.cpp:74-98 | `State()` becomes `Folded(old State(), x, w, now)`: `numS += w`, `sumS += w*x`, `sumS2 += (w*x)^2`; the first sample sets both extremes and later ones widen them; every interval end reached is closed; exactness is kept for non-negative weights |
| Accumulators.Tally.Accumulate | PESensor.cpp:76-88 | the sample half of UpdateTally: extremes, weight, sum and sum of squares |
| Accumulators.Tally.CloseIntervals | PESensor.cpp:90-95 | the interval end advances to the first end after `now`; the first closed interval keeps its average and any further one averages 0 |
| Accumulators.Tally.GetValue | PESensor.cpp:101-134 | `num` is the weight; `min` and `max` are the extremes, or 0 without weight; `avg` is `sumS/numS` (0 without weight); `avi` is the last closed interval's average; `var` is `Variance`; `dev` is the square root of a positive variance and 0 otherwise; any other index aborts |
| Accumulators.Tally.AvgWithinExtremes | PESensor.cpp:101-134 | while the tally is exact, `min <= avg <= max` |
| Accumulators.Variance | PESensor.cpp:120-124 | 0 for a weight of at most 1; above that, the variance times `numS + 1` is `sumS2 - sumS^2/numS` |
| Accumulators.ExtremesBound | PESensor.cpp:76-88 | a sample of non-negative weight keeps the sum between the weighted extremes |
| Accumulators.ReplaySums | PESensor.cpp:76-88 | recording a run of samples adds their total weight, weighted total and total of squared weighted values to the tally's sums |
| Accumulators.ReplayExtremes | PESensor.cpp:78-84 | once the tally has weight, a run of positively weighted samples lowers the minimum to the least value and raises the maximum to the greatest |
| Accumulators.ReplayFromCleared | PESensor.cpp:52-88 | after a reset, the tally's weight and sums are exactly the totals of the samples recorded since, and with positive weights its extremes are their least and greatest value |
| Accumulators.AverageBound | PESensor.cpp:114-115 | an average of samples lies between their extremes |
| Accumulators.Counter.constructor | PESensor.cpp:142-147 | `State()` is `CounterCleared`: count, interval count and rate 0, the lifetime starting at `now`, and the first interval ending one length later |
| Accumulators.Counter.Reset | PESensor.cpp:150-157 | `State()` is `CounterCleared` again: count, interval count and rate 0, and the lifetime and the interval restart at `now` |
| Accumulators.Counter.UpdateCounter | PESensor.cpp:182-192 | `State()` becomes `Counted(old State(), now)`: the count grows by exactly 1; every interval end reached closes, the first with its rate and the others with rate 0 |
| Accumulators.Counter.GetValue | PESensor.cpp:170-179 | `cnt` is the count; `cpt` times the lifetime is the count, or `cpt` is 0 at the creation instant; `cpi` is the last closed interval's rate; any other index aborts |
| Accumulators.RecountSpec | PESensor.cpp:182-192 | counting a run of events adds their number to the count, keeps the start of the lifetime, never lets the running interval hold more events than the lifetime, and never makes a rate negative |
| Accumulators.QueueLength.constructor | PESensor.cpp:265-269 | length 0, last update `now`, and a `Cleared` tally |
| Accumulators.QueueLength.Reset | PESensor.cpp:289-293 | the tally is `Cleared` and the clock restarts; the length is kept |
| Accumulators.QueueLength.UpdateQLen | PESensor.cpp:278-305 | the tally becomes `Folded` with the old length weighted by how long it lasted, then `qLen += d` and `lastUpdate = now` |
| Accumulators.QueueLength.Duration | PESensor.h:230-231 | `lastUpdate + Duration(now) == now` |
| Accumulators.QueueLength.GetValue | PESensor.cpp:295-299 | `cql` gives the current length; every other index is the tally's reading, so one that is neither `cql` nor a tally index aborts |
| Accumulators.QueueStats.constructor | PESensor.cpp:312 | the shared maximum starts at -1 |
| Accumulators.QueueLengthFrequency.Duration | PESensor.h:230-231 | `lastUpdate + Duration(now) == now` |
| Accumulators.QueueLengthFrequency.constructor | PESensor.cpp:314-317 | length 0 and a one-entry, zeroed histogram |
| Accumulators.QueueLengthFrequency.Reset | PESensor.cpp:320-324 | the histogram is zeroed and the clock restarts; the length is kept |
| Accumulators.QueueLengthFrequency.UpdateQLen | PESensor.cpp:327-335 | the time the old length lasted is added to its entry (a negative old length sets `badIndex` and leaves the histogram), the length changes by `d`, and the shared maximum becomes the larger of itself and the new length |
| Accumulators.FrequencyValue | PESensor.cpp:212-215 | the share of entry `index` in the total; 0 while the total is 0; never aborts; an index outside the histogram is undefined |
| Accumulators.SinkUpdate | PESMachine.cpp:142-175 | `SinkStepped`: the length moves by `diff` and the clock to `now`; a tally queue folds the old length weighted by its duration; a histogram queue adds that duration to the old length's entry and to the total (a negative old length sets `badIndex` and leaves the histogram); the shared maximum becomes the larger of itself and the new length |
| Accumulators.SinkReset | PESensor.cpp:289-324 | `SinkIsReset`: the clock restarts at `now` and the tally is `Cleared` or the histogram zeroed; the length is kept |
| Accumulators.SinkValue | PESensor.cpp:295-299 | `cql` reads the length of a tally queue and other indices its tally; a histogram queue reads its histogram |
| Events.Bind | PESMachine.cpp:59-66 | a bound reference never changes; an unbound one binds exactly when the name matches, to the created entity |
| Events.BindAllKeeps | PESMachine.cpp:59-66 | once bound, a reference survives every later create event |
| Events.BindAllFirstMatch | PESProcess.cpp:58-65 | starting unbound, the reference ends up bound to the first matching entity, and stays null if none matched |
| MachineSensors.UtilizationSample | PESMachine.cpp:494-508 | the busy share times the server count is the number of busy servers; it is non-negative exactly when no more servers are free than exist |
| MachineSensors.MachineQueue.Length | PESMachine.cpp:126-139 | unbound, length 0, queue statistic a tally in its reset state |
| MachineSensors.MachineQueue.Histogram | PESMachine.cpp:160-169 | unbound, length 0, queue statistic a zeroed histogram |
| MachineSensors.MachineQueue.EvMachineCreate | PESMachine.cpp:59-66 | the machine binds by name once |
| MachineSensors.MachineQueue.Change | PESMachine.cpp:101-119 | for the bound machine the queue statistic takes one `SinkStepped` step of `diff`; any other machine leaves everything unchanged |
| MachineSensors.MachineQueue.EvServiceRequest | PESMachine.cpp:101-105 | a request at the bound machine is a `SinkStepped` step of +1: the old length enters the tally or the histogram and the length grows by 1; nothing changes otherwise |
| MachineSensors.MachineQueue.EvServiceStart | PESMachine.cpp:108-112 | a service start at the bound machine is a `SinkStepped` step of -1 |
| MachineSensors.MachineQueue.EvServiceInterrupt | PESMachine.cpp:115-119 | an interrupted request at the bound machine is a `SinkStepped` step of +1 |
| MachineSensors.MachineQueue.Handle | PESensor.h:59-108 | an event the class does not override leaves the sensor unchanged |
| MachineSensors.MachineQueue.Reset | PESensor.cpp:289-324 | `SinkIsReset`: the tally is `Cleared` or the histogram zeroed, and the clock restarts; the length and the binding stay |
| MachineSensors.MachineQueue.GetValue | PESensor.cpp:295-299 | a length sensor reads `cql` as the length and other indices from its tally; a histogram sensor reads `FrequencyValue` of its histogram |
| MachineSensors.RequestWaitTime.constructor | PESMachine.cpp:190-212 | machine and request type are unbound, and the tally is `Cleared` |
| MachineSensors.RequestWaitTime.EvMachineCreate | PESMachine.cpp:59-66 | the machine binds by name once; the request type is untouched |
| MachineSensors.RequestWaitTime.EvServiceStart | PESMachine.cpp:231-248 | the request type binds by name whatever the machine; for the bound machine and an admitted type the tally becomes `Folded` with `now - waitStartTime` of weight 1; otherwise the tally is unchanged |
| MachineSensors.RequestWaitTime.Handle | PESensor.h:59-108 | an event the class does not override leaves the sensor unchanged |
| MachineSensors.RequestWaitTime.Reset | PESensor.cpp:52-57 | the tally is `Cleared` |
| MachineSensors.RequestWaitTime.GetValue | PESensor.cpp:101-134 | the tally's reading |
| MachineSensors.RequestThruTime.constructor | PESMachine.cpp:276-298 | machine and request type are unbound, and the tally is `Cleared` |
| MachineSensors.RequestThruTime.EvMachineCreate | PESMachine.cpp:59-66 | the machine binds by name once; the request type is untouched |
| MachineSensors.RequestThruTime.EvServiceFinish | PESMachine.cpp:317-334 | for the bound machine and an admitted type the tally becomes `Folded` with `now - creationTime` of weight 1; otherwise the tally is unchanged |
| MachineSensors.RequestThruTime.Handle | PESensor.h:59-108 | an event the class does not override leaves the sensor unchanged |
| MachineSensors.RequestThruTime.Reset | PESensor.cpp:52-57 | the tally is `Cleared` |
| MachineSensors.RequestThruTime.GetValue | PESensor.cpp:101-134 | the tally's reading |
| MachineSensors.RequestFrequency.constructor | PESMachine.cpp:363-382 | unbound, a one-entry zeroed histogram, and the direction flag as given |
| MachineSensors.RequestFrequency.EvMachineCreate | PESMachine.cpp:59-66 | the machine binds by name once |
| MachineSensors.RequestFrequency.EvProcessCreate | PESProcess.cpp:58-65 | the process type binds by name once |
| MachineSensors.RequestFrequency.EvServiceRequest | PESMachine.cpp:393-401 | when the request arrives at the bound machine (`reqIn`) or its caller has the bound type (otherwise), its type's entry and the total grow by 1; else nothing changes |
| MachineSensors.RequestFrequency.Handle | PESensor.h:59-108 | an event the class does not override leaves the sensor unchanged |
| MachineSensors.RequestFrequency.Reset | PESensor.cpp:206-209 | every entry and the total are 0 |
| MachineSensors.RequestFrequency.GetValue | PESensor.cpp:212-215 | the relative frequency of the index |
| MachineSensors.GlobalRequestFrequency.constructor | PESMachine.cpp:427-431 | a one-entry zeroed histogram |
| MachineSensors.GlobalRequestFrequency.EvServiceRequest | PESMachine.cpp:440-445 | every request adds 1 to its type's entry and to the total |
| MachineSensors.GlobalRequestFrequency.Handle | PESensor.h:59-108 | an event the class does not override leaves the sensor unchanged |
| MachineSensors.GlobalRequestFrequency.Reset | PESensor.cpp:206-209 | every entry and the total are 0 |
| MachineSensors.GlobalRequestFrequency.GetValue | PESensor.cpp:212-215 | the relative frequency of the index |
| MachineSensors.MachineUtilization.constructor | PESMachine.cpp:460-475 | unbound, a `Cleared` tally, and the last change at time 0 |
| MachineSensors.MachineUtilization.EvMachineCreate | PESMachine.cpp:59-66 | the machine binds by name once |
| MachineSensors.MachineUtilization.Sample | PESMachine.cpp:494-542 | for the bound machine: the assertion fails exactly when more servers are free than exist (a negative sample), and nothing changes then; otherwise the tally becomes `Folded` with the busy share weighted by `now - lastChange`, and `lastChange = now`; other machines change nothing |
| MachineSensors.MachineUtilization.EvServiceStart | PESMachine.cpp:494-508 | the same, with the machine's free servers plus one counted as free |
| MachineSensors.MachineUtilization.EvServiceInterrupt | PESMachine.cpp:511-525 | the same, with the free servers minus one |
| MachineSensors.MachineUtilization.EvServiceFinish | PESMachine.cpp:528-542 | the same, with the free servers minus one |
| MachineSensors.MachineUtilization.Handle | PESensor.h:59-108 | an event the class does not override leaves the sensor unchanged and does not fail |
| MachineSensors.MachineUtilization.Reset | PESMachine.cpp:478-482 | the tally is `Cleared` and `lastChange = now` |
| MachineSensors.MachineUtilization.GetValue | PESensor.cpp:101-134 | the tally's reading |
| ProcessSensors.SenderTypeRef | PESProcess.cpp:288-296 | a null sender type gives a null reference, else the type's identity |
| ProcessSensors.ProcessQueue.Length | PESProcess.cpp:115-128 | unbound, length 0, queue statistic a tally in its reset state |
| ProcessSensors.ProcessQueue.Histogram | PESProcess.cpp:149-158 | unbound, length 0, queue statistic a zeroed histogram |
| ProcessSensors.ProcessQueue.EvProcessCreate | PESProcess.cpp:58-65 | the process type binds by name once |
| ProcessSensors.ProcessQueue.Change | PESProcess.cpp:93-108 | for a process of the bound type the queue statistic takes one `SinkStepped` step of `diff`; otherwise nothing changes |
| ProcessSensors.ProcessQueue.EvSignalReceive | PESProcess.cpp:93-96 | a received signal is a `SinkStepped` step of +1 on the watched queue |
| ProcessSensors.ProcessQueue.EvSignalConsume | PESProcess.cpp:99-102 | a consumed signal is a `SinkStepped` step of -1 |
| ProcessSensors.ProcessQueue.EvSignalDrop | PESProcess.cpp:105-108 | a dropped signal is a `SinkStepped` step of -1 |
| ProcessSensors.ProcessQueue.Handle | PESensor.h:59-108 | an event the class does not override leaves the sensor unchanged |
| ProcessSensors.ProcessQueue.Reset | PESensor.cpp:289-324 | `SinkIsReset`: the tally is `Cleared` or the histogram zeroed, and the clock restarts; the length and the binding stay |
| ProcessSensors.ProcessQueue.GetValue | PESensor.cpp:295-299 | a length sensor reads `cql` as the length and other indices from its tally; a histogram sensor reads `FrequencyValue` of its histogram |
| ProcessSensors.SignalWaitTime.constructor | PESProcess.cpp:179-200 | process and signal type are unbound, and the tally is `Cleared` |
| ProcessSensors.SignalWaitTime.EvProcessCreate | PESProcess.cpp:58-65 | the process type binds by name once; the signal type is untouched |
| ProcessSensors.SignalWaitTime.EvSignalConsume | PESProcess.cpp:219-236 | the signal type binds by name whatever the process; for the bound process type and an admitted signal type the tally becomes `Folded` with the signal's wait `now - creationTime` of weight 1; otherwise the tally is unchanged |
| ProcessSensors.SignalWaitTime.Handle | PESensor.h:59-108 | an event the class does not override leaves the sensor unchanged |
| ProcessSensors.SignalWaitTime.Reset | PESensor.cpp:52-57 | the tally is `Cleared` |
| ProcessSensors.SignalWaitTime.GetValue | PESensor.cpp:101-134 | the tally's reading |
| ProcessSensors.SignalFrequency.constructor | PESProcess.cpp:264-279 | unbound, a one-entry zeroed histogram, and the direction flag as given |
| ProcessSensors.SignalFrequency.EvProcessCreate | PESProcess.cpp:58-65 | the process type binds by name once |
| ProcessSensors.SignalFrequency.EvSignalReceive | PESProcess.cpp:288-296 | when the receiver (`sigIn`) or the sender type (otherwise) is the bound type, the signal type's entry and the total grow by 1; else nothing changes |
| ProcessSensors.SignalFrequency.Handle | PESensor.h:59-108 | an event the class does not override leaves the sensor unchanged |
| ProcessSensors.SignalFrequency.Reset | PESensor.cpp:206-209 | every entry and the total are 0 |
| ProcessSensors.SignalFrequency.GetValue | PESensor.cpp:212-215 | the relative frequency of the index |
| ProcessSensors.GlobalSignalFrequency.constructor | PESProcess.cpp:313-317 | a one-entry zeroed histogram |
| ProcessSensors.GlobalSignalFrequency.EvSignalReceive | PESProcess.cpp:326-330 | every received signal adds 1 to its type's entry and to the total |
| ProcessSensors.GlobalSignalFrequency.Handle | PESensor.h:59-108 | an event the class does not override leaves the sensor unchanged |
| ProcessSensors.GlobalSignalFrequency.Reset | PESensor.cpp:206-209 | every entry and the total are 0 |
| ProcessSensors.GlobalSignalFrequency.GetValue | PESensor.cpp:212-215 | the relative frequency of the index |
| ProcessSensors.StateFrequency.constructor | PESProcess.cpp:345-358 | unbound, no current state, a zeroed histogram and an empty state table |
| ProcessSensors.StateFrequency.EvProcessCreate | PESProcess.cpp:58-65 | the process type binds by name once; the current state is untouched |
| ProcessSensors.StateFrequency.EvStateChange | PESProcess.cpp:402-420 | for the bound type: the first change only starts the clock; each later one adds the time spent to the previous state's entry; the new state becomes current and is registered in the state table; other types change nothing |
| ProcessSensors.StateFrequency.Handle | PESensor.h:59-108 | an event the class does not override leaves the sensor unchanged |
| ProcessSensors.StateFrequency.Reset | PESProcess.cpp:386-391 | the histogram, the current state and the state table are cleared |
| ProcessSensors.StateFrequency.GetValue | PESProcess.cpp:372-383 | the Gantt index is -1 without a current state, else the state's position in the table's range (between 1 and the number of states); other indices read the histogram |
| ProcessSensors.ProcessNumber.constructor | PESProcess.cpp:426-450 | count 0, a `Cleared` tally, and the clock starting at `now` when it is positive and at 0 otherwise |
| ProcessSensors.ProcessNumber.Reset | PESProcess.cpp:462-466 | the tally is `Cleared` and the count kept; the clock restarts only at a positive time |
| ProcessSensors.ProcessNumber.Change | PESProcess.cpp:475-500 | the tally becomes `Folded` with the old count weighted by `now - lastChange`, then the count changes by `diff` and `lastChange = now` |
| ProcessSensors.ProcessNumber.EvProcessCreate | PESProcess.cpp:475-490 | the type binds by name once; a process of the bound type folds the old count into the tally and raises the count by 1; other types change nothing |
| ProcessSensors.ProcessNumber.EvProcessDelete | PESProcess.cpp:492-500 | a process of the bound type folds the old count into the tally and lowers the count by 1 |
| ProcessSensors.ProcessNumber.Handle | PESensor.h:59-108 | an event the class does not override leaves the sensor unchanged |
| ProcessSensors.ProcessNumber.GetValue | PESensor.cpp:101-134 | the tally's reading |
| ActivitySensors.CombinedValue | PESActivity.cpp:68-78 | indices below 7 go to the tally and 7..9 to the counter; anything else aborts |
| ActivitySensors.EventSensor.constructor | PESActivity.cpp:25-35 | unbound, a `Cleared` tally, a `CounterCleared` counter, and the last event at `now` |
| ActivitySensors.EventSensor.Reset | PESActivity.cpp:51-56 | the tally is `Cleared`, the counter `CounterCleared` and the last event is `now`; the binding stays |
| ActivitySensors.EventSensor.EvProcessCreate | PESActivity.cpp:81-87 | binds the first process whose type-name pointer is the descriptor's, once |
| ActivitySensors.EventSensor.EvMachineCreate | PESActivity.cpp:90-96 | binds the first machine whose name pointer is the descriptor's, once |
| ActivitySensors.EventSensor.Occur | PESActivity.cpp:99-111 | one occurrence: the counter is `Counted`, the tally `Folded` with the time since the previous occurrence (weight 1), and `lastEvent = now` |
| ActivitySensors.EventSensor.EvSignalReceive | PESActivity.cpp:99-111 | exactly the `Occur` step when the signal matches the descriptor; otherwise nothing changes |
| ActivitySensors.EventSensor.EvServiceRequest | PESActivity.cpp:114-126 | exactly the `Occur` step when the request matches the descriptor; otherwise nothing changes |
| ActivitySensors.EventSensor.Handle | PESensor.h:59-108 | an event the class does not override leaves the sensor unchanged |
| ActivitySensors.EventSensor.GetValue | PESActivity.cpp:68-78 | the tally or counter reading of the index, as `CombinedValue` splits them |
| ActivitySensors.ActivitySensor.constructor | PESActivity.cpp:133-147 | stopped, nothing bound, a `Cleared` tally and a `CounterCleared` counter |
| ActivitySensors.ActivitySensor.Reset | PESActivity.cpp:173-178 | stopped again, the tally `Cleared` and the counter `CounterCleared`; the bindings stay |
| ActivitySensors.ActivitySensor.EvProcessCreate | PESActivity.cpp:203-216 | each descriptor that binds at process creation binds its first matching process once |
| ActivitySensors.ActivitySensor.EvMachineCreate | PESActivity.cpp:219-231 | each descriptor that binds at machine creation binds its first matching machine once |
| ActivitySensors.ActivitySensor.ActivityStart | PESActivity.cpp:233-238 | running, started at `now`, the counter `Counted` once, the tally untouched |
| ActivitySensors.ActivitySensor.ActivityStop | PESActivity.cpp:241-245 | stopped, the tally `Folded` with the duration since the start (weight 1), the counter untouched |
| ActivitySensors.ActivitySensor.EvServiceRequest | PESActivity.cpp:248-275 | a start match while stopped starts (counter `Counted`, tally kept); a stop match while running stops (tally `Folded` with the duration, counter kept); anything else changes nothing |
| ActivitySensors.ActivitySensor.EvSignalReceive | PESActivity.cpp:278-305 | the same two-state step for signal descriptors |
| ActivitySensors.ActivitySensor.Handle | PESensor.h:59-108 | an event the class does not override leaves the sensor unchanged |
| ActivitySensors.ActivitySensor.GetValue | PESActivity.cpp:190-200 | the tally or counter reading of the index, as `CombinedValue` splits them |
| Controller.ControllerSensor.constructor | PCController.cpp:35 | all four counters start at 0 |
| Controller.ControllerSensor.Delta | PCController.cpp:77-128 | exactly the nine overridden handlers move a count, each moves exactly one count, and by exactly one |
| Controller.ControllerSensor.Reset | PCController.h:51 | Reset leaves every count as it was |
| Controller.ControllerSensor.Handle | PCController.cpp:77-128 | each handler changes the counts by its `Delta`; any other event changes nothing |
| Sensors.Deliver | PESensor.h:59-108 | a handler the sensor's class does not override leaves it unchanged and succeeds; only the utilization sensor can fail |
| Sensors.ResetSensor | PESensor.h:44 | after the virtual Reset the sensor is in its class's reset state (`IsReset`: its tally `Cleared`, counter `CounterCleared` or histogram zeroed, its clock at `now`), and its bindings, queue length and process count are kept (`ResetKeeps`) |
| Sensors.GetValue | PESensor.h:46 | the virtual GetValue; the control window answers 0; the state frequency's Gantt index is -1 without a current state |
| Sensors.GetData | PESensor.h:48 | the histogram of exactly the frequency sensors, none for the others |
| Dispatcher.ActionsBelow | PEEventDispatcher.cpp:25-28 | the trace flags set by the constructor are exactly the actions `0 .. scTraceMax-1` |
| Dispatcher.Route | PEEventDispatcher.cpp:228-795 | an overload aborts exactly on an action it does not know (except a negative time change, which is ignored); it fans out on its own action's list; exactly SchedulerStop reports, and it sends two events where every other action sends one; procedure and not-sent calls never fan out; send, timer-fire and state-change fan out exactly when their trace flag is set |
| Dispatcher.ServiceRouting | PEEventDispatcher.cpp:456-507 | the four service actions reach four different handlers, each with the call's machine and request |
| Dispatcher.SignalRouting | PEEventDispatcher.cpp:562-631 | Lose reaches the reject handler; Drop and TimerRemove reach the drop handler |
| Dispatcher.RoutedKinds | PEEventDispatcher.cpp:228-795 | which handler a fanned-out call reaches, action by action: each create, stop, service, signal and state-change action reaches its own handler, TimerRemove reaches the drop handler too, and only SchedulerStop sends two events |
| Dispatcher.MachineQueueSubscription | PESMachine.cpp:85-98 | the machine queue asks for an action exactly when the action reaches one of its handlers |
| Dispatcher.RequestWaitTimeSubscription | PESMachine.cpp:225-228 | the wait-time sensor asks for an action exactly when the action reaches one of its handlers |
| Dispatcher.RequestThruTimeSubscription | PESMachine.cpp:311-314 | the throughput-time sensor asks for an action exactly when the action reaches one of its handlers |
| Dispatcher.RequestFrequencySubscription | PESMachine.cpp:385-390 | the request histogram asks for an action exactly when it reaches one of its handlers, except the create action of the entity kind its direction does not bind |
| Dispatcher.GlobalRequestFrequencySubscription | PESMachine.cpp:434-437 | the global request histogram asks for an action exactly when the action reaches its handler |
| Dispatcher.UtilizationSubscription | PESMachine.cpp:485-491 | the utilization sensor asks for an action exactly when the action reaches one of its handlers |
| Dispatcher.ProcessQueueSubscription | PESProcess.cpp:84-90 | the process queue asks for an action exactly when it reaches one of its handlers, except TimerRemove, which reaches its drop handler unasked |
| Dispatcher.SignalWaitTimeSubscription | PESProcess.cpp:213-216 | the signal wait-time sensor asks for an action exactly when the action reaches one of its handlers |
| Dispatcher.SignalFrequencySubscription | PESProcess.cpp:282-285 | the signal histogram asks for an action exactly when the action reaches one of its handlers |
| Dispatcher.GlobalSignalFrequencySubscription | PESProcess.cpp:320-323 | the global signal histogram asks for an action exactly when the action reaches its handler |
| Dispatcher.StateFrequencySubscription | PESProcess.cpp:366-369 | the state histogram asks for an action exactly when the action reaches one of its handlers; a state change reaches it only while its trace flag is set |
| Dispatcher.ProcessNumberSubscription | PESProcess.cpp:469-472 | the process counter asks for an action exactly when the action reaches one of its handlers |
| Dispatcher.EventSensorSubscription | PESActivity.cpp:37-48 | the event sensor asks only for actions reaching its handlers: the process create action exactly when its descriptor binds at a process, the machine create action exactly when it binds at a machine, and the signal or request action of its kind |
| Dispatcher.ActivitySensorSubscription | PESActivity.cpp:149-170 | the activity sensor asks only for actions reaching its handlers: process creation exactly when a descriptor binds at a process, signal and request actions of either descriptor's kind; machine creation whenever the start descriptor binds at a machine, never when the start descriptor departs, even if the stop descriptor binds at a machine |
| Dispatcher.ControllerSubscription | PCController.cpp:60-74 | the control window asks for an action exactly when it reaches one of its handlers, except TimerRemove, which reaches its drop handler unasked |
| Dispatcher.SubscribedHandled | PESensor.h:43 | whatever any sensor asks for reaches at least one handler its class overrides |
| Dispatcher.Subscribers | PEEventDispatcher.cpp:69-82 | an action has no more subscribers than there are registered sensors |
| Dispatcher.FileFirst | PEEventDispatcher.cpp:75-81 | after the registration loop, each action's list has the sensor in front exactly when the sensor asked for that action |
| Dispatcher.FiledFirst | PEEventDispatcher.cpp:69-82 | registering keeps every list equal to the registered sensors that asked for its action, in registration order |
| Dispatcher.SubscribersExactly | PEEventDispatcher.cpp:69-82 | a sensor is in an action's list iff it is registered and asked for that action |
| Dispatcher.Each | PEEventDispatcher.cpp:240-246 | one handler call per subscriber |
| Dispatcher.Deliveries | PEEventDispatcher.cpp:248-260 | one handler call per subscriber and event |
| Dispatcher.EachStep | PEEventDispatcher.cpp:240-246 | the handler calls grow by one call as the list walk advances by one sensor |
| Dispatcher.EachExactly | PEEventDispatcher.cpp:240-246 | a handler call is made exactly on the subscribers, with the event |
| Dispatcher.DeliveriesExactly | PEEventDispatcher.cpp:248-260 | a handler call is made exactly on the subscribers, with one of the events |
| Dispatcher.Prelude | PEEventDispatcher.cpp:281-316 | a report and a reset happen exactly for a non-negative time change with a non-zero interval that has elapsed since the last report |
| Dispatcher.NoTimeChangeSubscribers | PEEventDispatcher.cpp:281-316 | no sensor asks for TimeChange, so a time change reaches sensors only through the due reset |
| Dispatcher.Steps | PEEventDispatcher.cpp:228-795 | a routing makes one handler call per subscriber and event, plus the report when it has one, and nothing when it does not fan out |
| Dispatcher.RoutedTo | PEEventDispatcher.cpp:228-795 | sensor `s` gets event `e` from a call iff the call fans out, `s` is registered and asked for the call's action, and `e` is one of the routed events |
| Dispatcher.OthersKept | PEEventDispatcher.cpp:91-103 | a call on one sensor leaves every other registered sensor's state as it was |
| Dispatcher.OwnedFirst | PEEventDispatcher.cpp:69-82 | a new sensor apart from the registered ones can join them |
| Dispatcher.ReadsOwned | PEEventDispatcher.cpp:69-82 | a sensor's footprint contains what it reads and is not empty |
| Dispatcher.EventDispatcher.constructor | PEEventDispatcher.cpp:25-58 | no sensors, all trace flags set, no report interval, last report at 0 |
| Dispatcher.EventDispatcher.RegisterSensor | PEEventDispatcher.cpp:69-82 | the sensor heads the registered list and the list of every action it asks for, and no other list changes |
| Dispatcher.EventDispatcher.SetReportInterval | PEEventDispatcher.cpp:166-169 | the interval is set and nothing else changes |
| Dispatcher.EventDispatcher.ResetOne | PEEventDispatcher.cpp:91-103 | one sensor reaches `IsReset` and keeps what `ResetKeeps` names; every other registered sensor keeps its footprint and its objects unchanged |
| Dispatcher.EventDispatcher.ResetAllSensors | PEEventDispatcher.cpp:91-103 | every registered sensor reaches `IsReset` and keeps what `ResetKeeps` names; the lists, the interval and the last report are unchanged |
| Dispatcher.EventDispatcher.DeliverOne | PEEventDispatcher.cpp:240-246 | one handler call on one registered sensor; only a utilization sensor that overrides the handler can fail; a handler the class does not override changes nothing; every other sensor is unchanged |
| Dispatcher.EventDispatcher.DeliverEach | PEEventDispatcher.cpp:240-246 | every subscriber of the action gets the event in list order, exactly `Each`; a failure names a utilization subscriber; sensors outside the list, or not overriding the handler, are unchanged, and so is the shared maximum when no subscriber overrides it |
| Dispatcher.EventDispatcher.Broadcast | PEEventDispatcher.cpp:248-260 | each event in turn reaches every subscriber of the action, exactly `Deliveries`; sensors outside the list, or overriding none of the events, are unchanged |
| Dispatcher.EventDispatcher.Report | PEEventDispatcher.cpp:311-314 | the report time moves to `newTime` and a report is logged |
| Dispatcher.EventDispatcher.ReportIfDue | PEEventDispatcher.cpp:281-316 | when due, `lastReport = newTime`, then report, then every registered sensor reaches `IsReset`; otherwise no sensor changes; the shared maximum never changes |
| Dispatcher.EventDispatcher.Dispatch | PEEventDispatcher.cpp:228-795 | a wrong action aborts; otherwise the routed handler calls and the report happen, exactly as `Steps` lists them; an ignored or wrong call changes no sensor; sensors not subscribed, or overriding none of the routed handlers, are unchanged |
| Dispatcher.EventDispatcher.LogEvent | PEEventDispatcher.cpp:228-795 | any overload: the due report and reset first (every registered sensor then `IsReset`), then an abort on a wrong action, else exactly the routed handler calls on the subscribers in list order; a deadlock or a negative time changes nothing; sensors not reached keep their state, or only the due reset |
| Updater.CurveUpdater.constructor | PCUpdater.cpp:24-31 | the updater holds the curve, the sensor and the index |
| Updater.CurveUpdater.Update | PCUpdater.cpp:34-40 | reads the sensor without changing it; a non-negative value draws `(now, v)` and anything else leaves the curve as it was |
| Updater.UpdateDrawsNewest | PCUpdater.cpp:34-40 | a drawn value is afterwards the newest point of the curve |
| Updater.UpdateAppends | PCUpdater.cpp:34-40 | on a plain curve with room, the drawn point is appended and nothing else changes |
| Updater.FreqUpdater.constructor | PCUpdater.cpp:47-52 | the updater holds the histogram and the sensor |
| Updater.FreqUpdater.Update | PCUpdater.cpp:55-61 | the histogram is unchanged |
| SensorTypes.DiscreteIndices | PESetup.cpp:63-71 | `IsDiscreteValIndex` is true exactly for num, min, max and cnt |
| SensorTypes.IntervalTypes | PEScanner.cpp:22-34 | `SensorHasInterval` is true exactly for the nine interval types |
| SensorTypes.FreqTypes | PEScanner.cpp:36-48 | `IsFreqSensor` is true exactly for the nine histogram types |
| SensorTypes.IntervalOrFreq | PEScanner.cpp:22-48 | the two masks partition the 18 sensor types, and no other bit is in either |
| Setup.Lookup | PESetup.cpp:88-102 | the first entry with the name, or none exactly when no entry has it |
| Setup.LookupAfterAppend | PESetup.cpp:74-86 | appending a new name makes it found and keeps every other name's entry |
| Setup.SensorTable.constructor | PESetup.cpp:74-86 | an empty table |
| Setup.SensorTable.Add | PESetup.cpp:74-86 | a known name is refused and the table is unchanged; a new one is appended; names stay unique |
| Setup.SensorTable.Get | PESetup.cpp:88-102 | found iff an entry has the name; the entry is returned, or the argument unchanged |
| Setup.Find | PESetup.cpp:112-127 | the data of an entry for the pair, found exactly when such an entry exists |
| Setup.FindAfterAppend | PESetup.cpp:105-127 | an appended entry is found only for a pair no earlier entry has |
| Setup.DataTypeTable.constructor | PESetup.cpp:105-109 | an empty table |
| Setup.DataTypeTable.Add | PESetup.cpp:105-109 | the entry is appended, even for a pair already present |
| Setup.DataTypeTable.Get | PESetup.cpp:112-127 | found iff an entry has the same sensor identity and index; the data is `Find`'s, which is the first such entry's |
| Setup.TypeOf | PESetup.cpp:137-225 | every sensor object but the control window stands for one of the 18 sensor types |
| Setup.FreqTypesHaveData | PESetup.cpp:137-225 | the sensors of the histogram types are exactly those with a histogram to show |
| Setup.InstantiateSensor | PESetup.cpp:137-225 | an unknown type aborts; otherwise a fresh, valid sensor of the requested type, built from the given names and descriptors, with a state table only for a state-frequency sensor |
| Setup.NewProcessSensor | PESetup.cpp:147-180 | the same, for the eight process types |
| Setup.NewMachineSensor | PESetup.cpp:181-204 | the same, for the six machine types |
| Setup.NewOtherSensor | PESetup.cpp:205-220 | the same, for the global histograms and the event and activity sensors |
| Setup.InstantiateDataType | PESetup.cpp:281-314 | Gantt: a step curve of the state index; curve displays: a step curve for a discrete index, else a plain one, of the right capacity, with its updater; other displays: the sensor's own histogram |
| ConfigScanner.SkipBlanks | PEScanner.cpp:87-122 | skipping stops at the first non-blank at or after the column, and everything skipped is blank |
| ConfigScanner.SkipReport | PEScanner.cpp:87-122 | no message exactly when skipping stopped at a token character; otherwise one end-of-input or illegal-character error |
| ConfigScanner.CharReport | PEScanner.cpp:72-77 | "expected" is reported exactly when the character found is not the one wanted |
| ConfigScanner.WordEnd | PEScanner.cpp:130 | the word is the longest run of letters, digits and `_`, bounded by the buffer |
| ConfigScanner.StringEnd | PEScanner.cpp:142-144 | the string body runs to the first quote or newline, or to the end of the buffer |
| ConfigScanner.DigitValue | PEScanner.cpp:172 | decimal digits exactly have values below 10 |
| ConfigScanner.RunLength | PEScanner.cpp:172 | the length of the longest run of digits of the base |
| ConfigScanner.ScanOneDigit | PEScanner.cpp:174 | a single digit converts to its value |
| ConfigScanner.ScanDecimal | PEScanner.cpp:174 | a digit run without a leading zero converts to its decimal value |
| ConfigScanner.RunLengthIs | PEScanner.cpp:172 | a run of `n` digits followed by a non-digit has length `n` |
| ConfigScanner.KeyIndex | PEScanner.cpp:226-228 | the lookup stops at the first entry that is the word or the end marker |
| ConfigScanner.KeyIndexFinds | PEScanner.cpp:221-230 | a word is found exactly when it is a table entry before the end marker, and then at its first occurrence |
| ConfigScanner.SensorTypeLookup | PESetup.cpp:32-53 | each sensor type keyword is found at its type; any other word is not found |
| ConfigScanner.ValIndexOf | PEScanner.cpp:314-317 | the position of the value-index name, or 11 exactly when it is none of them |
| ConfigScanner.Scanner.constructor | PEScanner.cpp:51-62 | at column 0 of line 1 with the line in the buffer and no messages |
| ConfigScanner.Scanner.SkipIt | PEScanner.cpp:87-122 | the column moves past the blanks, and a stop not at a token is reported |
| ConfigScanner.Scanner.CheckChar | PEScanner.cpp:80-84 | skips, then tells whether the character comes next, without taking it |
| ConfigScanner.Scanner.GetChar | PEScanner.cpp:72-77 | skips and takes one character; a different character is reported |
| ConfigScanner.Scanner.GetKeyWord | PEScanner.cpp:125-134 | the word is the maximal run of word characters after the blanks, and the column ends just after it |
| ConfigScanner.Scanner.GetString | PEScanner.cpp:137-149 | the text between the opening quote and the closing quote; a missing closing quote is reported; the column moves past the closing quote |
| ConfigScanner.Scanner.GetInt | PEScanner.cpp:167-176 | the digits after the blanks, converted as `%i` converts them; without a digit it is an error and the old value stays |
| ConfigScanner.Scanner.GetKeyWordIndex | PEScanner.cpp:221-230 | found iff the word is an entry before the end marker; the index is its first entry, or the end marker |
| ConfigScanner.Scanner.GetNamedIndex | PEScanner.cpp:313-317 | the index is the name's position in the value-index names; an unknown name is reported |
| ConfigScanner.Scanner.GetNumericIndex | PEScanner.cpp:306-309 | a digit at the column gives the number read there; no digit is reported and the old index stays |
| ConfigScanner.Scanner.GetIndex | PEScanner.cpp:304-318 | a histogram sensor needs a number, any other sensor a known index name; each failure is reported exactly when it happens |
| ConfigScanner.Scanner.OpenParen | PEScanner.cpp:300-301 | takes `(` and reports nothing but scanning errors (end of input, illegal or unexpected character) |
| ConfigScanner.Scanner.GetColor | PEScanner.cpp:320-325 | reading the colour and the closing parenthesis reports nothing but scanning errors, never an index error |
| ConfigScanner.Scanner.GetConParas | PEScanner.cpp:290-328 | Gantt forces the state index; a curve display needs a parenthesised index, reported exactly when missing, unknown or not numeric; other displays keep the index; without `(` the colour is empty |

## Left out

- Drawing, windows and buttons are not part of this model: the X11 displays, the mapper, and the drawing half of the control window.
- Dispatcher pacing and I/O are left out: `Update`, `DoXEvents`, the clock and sleep, and opening and closing the report file.
- Every `Report` and `Underline` is left out. A report is one logged step without its text.
- Floating point is modelled as exact `real` arithmetic, so IEEE rounding is not captured.
- `sqrt` is a parameter, so the deviation is stated only as the parameter applied to a positive variance.
- The simulator kernel is not part of this model. `Now()`, the entity classes and the type-name registry (`SCType::GetObjectName`) become parameters and abstract entity records.
- `PDStateTable::GetStateName` is left out. It needs the kernel's type-name registry.
- `PEEventDispatcher::Setup`, `InstantiateFrame`, `ConnectFrameWithData` and `RegisterUpdater` are left out. They are display wiring.
- `InstantiateDataType` registers each updater it builds with the dispatcher (`RegisterUpdater`). The model builds the updater and leaves the registration out, with the dispatcher's updater list.
- The colour of curves and histograms is left out; it only affects drawing.
- `PDDataType`'s auto-delete collection is left out. It is memory management only.
- The scanner works on one line already in its buffer. The `ifstream` refill at the end of a line and the constructor's file opening are left out.
  - An end of line or a comment is reported as the end of input.
  - An illegal character is reported once, and skipping stops there.
- ConfigScanner.Scanner.GetInt: a sign before the digits is not a token character, so `SkipIt` reports it as an illegal character and the source shuts the scheduler down there; `sscanf` is never reached. `SCScheduler::Shutdown` is not part of this model: the model records `IllegalCharacter`, stops skipping at the sign, then also reports the missing integer and keeps the old value.
- ConfigScanner.Scanner.GetInt: C `int` overflow is not modelled.
- ConfigScanner.Scanner.GetInt: `0x` without a hex digit converts as the octal `0` followed by `x`.
- ConfigScanner.Scanner.GetString: an unclosed string ending at the buffer's end leaves the column at 128. The source moves it one past the buffer.
- DataTypes.CurveIter.Next: `operator bool` is the plain function `HasMore`, which has no contract of its own. `Num()` is the histogram's length field `num`.
- SensorTypes.DiscreteIndices: shifts by a negative count or by 32 or more are undefined in C++, so the mask tests are stated only for `0 <= t < 32`.
- The tally, counter and queue interval loops run forever in the source when the interval length is not positive. Their constructors require a positive interval.
- Accumulators.QueueLengthFrequency.UpdateQLen: a negative length would index the histogram before its start in the source (undefined behaviour). The model leaves the histogram unchanged and sets a `badIndex` flag.
- Dispatcher.EventDispatcher.RegisterSensor: requires that the new sensor shares no object with a registered one. Registering the same sensor twice is not modelled.
- The `actionFlags` of the simulator's trace base class are set once by the constructor. Changing them later is not modelled.
- Dispatcher.EventDispatcher.DeliverOne: the effect of a handler on the sensor it reaches is stated per class, on that class's `Ev*` methods. Through `Deliver`, `DeliverOne`, `DeliverEach`, `Broadcast`, `Dispatch` and `LogEvent` the model states which sensors can change and which cannot, not the per-class effect.
- Dispatcher.ActivitySensorSubscription: PESActivity's machine-create subscription tests the start descriptor's direction in its stop clause, and the model keeps that test. A stop descriptor that binds at a machine therefore never binds when the start descriptor departs.
- Dispatcher.Route: the scheduler-stop report and the report-and-reset of a time change are logged steps. The update and X event calls between them are not modelled.
