# Sensors node: calibration and fusion engine, in Dafny

The model covers the sequential core of the robot's sensors node
(`roller_eye/src/nodes/sensors_node.cpp`):

- **Offset calibration.** `doVector3fOffsetCalibration` makes up to 300
  polls. It keeps a window of samples that are at rest and steady. After
  150 such samples in a row, the offset is their mean minus the base
  vector. The loop is a method, proved against the specification
  functions `Run`/`Calibrate`. Lemmas describe what the window holds and
  what a run yields.
- **The 6-DoF IMU streams.** Each stream is a datatype holding the script
  of its remaining `readEvents` results. It drops the first 50 events after
  `start()` and remaps the axes with the `mDir` sign table.
- **Timestamp alignment.** `IMUData::setData` is a `while (true)` loop
  over the `gyroOk`/`accOk`/`err` flags. It is proved against the function
  `Fuse`, which describes the resync rule.
- **Calibration lifecycle.** The class `Imu` holds:
  - the in-memory offsets;
  - the calibration files, as a map from channel to offset;
  - `mStart`;
  - a trace of motor-inhibit and stream start/stop events.

  Its methods are `doCalibration`, `doGyroCalibraion`, `doAccCalibration`,
  `clearCalibration`, `imu_calib`, `start` and `stop`.
- **Time of flight.** The class `ToFData` covers:
  - `setData`: the offset correction and clamp to `Below | Above | Value(r)`;
  - `doOffsetCalibration`: 30 reads and exactly 20 successes;
  - the load of the stored offset.

Sensor reads are scripts. A read that gets no event, or that finds its
script exhausted, fails. All doubles and floats are `real`.

## Model

| member | source | states |
|---|---|---|
| `Common.Sub` | roller_eye/src/nodes/sensors_node.cpp:191-197 | Subtracting an offset is undone by adding it back: `Add(Sub(a, b), b) == a` |
| `ImuSource.DirFor` | roller_eye/src/nodes/sensors_node.cpp:303-307 | The y sign is always 1; the x and z signs are 1 exactly when the board is flipped |
| `ImuSource.Remap` | roller_eye/src/nodes/sensors_node.cpp:349-351 | The gyro and acc axis remaps keep the event's stamp and lose nothing: `Unmap` recovers the raw event axes |
| `ImuSource.RemapKeepsMagnitude` | roller_eye/src/nodes/sensors_node.cpp:371-373 | The remap is a signed permutation: the squared magnitude of a reading is unchanged |
| `ImuSource.Source.Read` | roller_eye/src/nodes/sensors_node.cpp:334-375 | A read fails when `readEvents` has no event, or while the skip counter is below 50 (then the counter grows by one). Otherwise it returns the remapped event with the counter unchanged. It consumes one script entry |
| `ImuSource.Source.Restart` | roller_eye/src/nodes/sensors_node.cpp:323 | `start()` sets the skip counter to zero and changes nothing else in the stream |
| `ImuSource.FirstReadsDropped` | roller_eye/src/nodes/sensors_node.cpp:340-343 | After `start()`, each of the first 50 reads fails |
| `ImuSource.SkipGrowth` | roller_eye/src/nodes/sensors_node.cpp:361-365 | Each read grows the skip counter by at most one |
| `ImuSource.PollsPrefix` | roller_eye/src/nodes/sensors_node.cpp:85-88 | The first `k` of `n` reads are exactly the results of `k` reads |
| `OffsetCalibration.Run` | roller_eye/src/nodes/sensors_node.cpp:85-122 | A run never reports more reads than it was given |
| `OffsetCalibration.RunStops` | roller_eye/src/nodes/sensors_node.cpp:114-121 | Once an offset has been computed, later reads change nothing (the loop breaks) |
| `OffsetCalibration.NextRead` | roller_eye/src/nodes/sensors_node.cpp:85-112 | One more read extends the accumulator by exactly one loop step |
| `OffsetCalibration.ResumeCompletes` | roller_eye/src/nodes/sensors_node.cpp:85-122 | Resuming the loop after any prefix of reads that produced nothing yields the run's outcome |
| `OffsetCalibration.Finished` | roller_eye/src/nodes/sensors_node.cpp:114-122 | A run that produced an offset, or used all 300 reads, is over: its result and the stream after it are fixed |
| `OffsetCalibration.DoVector3fOffsetCalibration` | roller_eye/src/nodes/sensors_node.cpp:76-125 | The loop over `idx`, `preX/Y/Z` and `sumX/Y/Z` returns exactly the offset and the remaining stream that `Calibrate` specifies |
| `OffsetCalibration.FoldIsWindow` | roller_eye/src/nodes/sensors_node.cpp:100-112 | `idx` is the window's length, the sums are its sum, and `pre` is its last sample |
| `OffsetCalibration.WindowStep` | roller_eye/src/nodes/sensors_node.cpp:86-112 | A failed read changes nothing. A read sample joins the window exactly when it is strictly inside the stationary band and, unless the window is empty, strictly inside the shake band of the previous sample. Any other sample empties the window and zeroes the count and the sums |
| `OffsetCalibration.WindowIsStableRun` | roller_eye/src/nodes/sensors_node.cpp:89-112 | The window is a trailing run of consecutive successful samples, all at rest and each steady relative to the one before |
| `OffsetCalibration.RunResult` | roller_eye/src/nodes/sensors_node.cpp:114-122 | Success comes at the first read after which the window holds 150 samples, and the offset is their mean minus the base. Failure means the window stayed below 150 after every read, and all reads were used |
| `OffsetCalibration.CalibrationOfStableStart` | roller_eye/src/nodes/sensors_node.cpp:85-121 | 150 successful, stable leading samples give the offset mean − base after exactly 150 reads |
| `Fusion.ToInt32` | roller_eye/src/nodes/sensors_node.cpp:150-171 | Storing the drift in the 32-bit `int diff` wraps it: the result lies in [−2³¹, 2³¹), differs from the input by a multiple of 2³², and equals the input when the input fits |
| `Fusion.DriftThreshold` | roller_eye/src/nodes/sensors_node.cpp:171-175 | For stamps less than 2³¹ ms apart, the drift exceeds 8 ms exactly when the stamps are at least 9,000,000 ns apart |
| `Fusion.DriftWrapsAt` | roller_eye/src/nodes/sensors_node.cpp:150-171 | Stamps exactly 2³¹ ms apart, in either order, give the 32-bit drift −2³¹ |
| `Fusion.WrappedPairFused` | roller_eye/src/nodes/sensors_node.cpp:150-183 | Because of that wrap, a gyro and an acc sample 2³¹ ms apart are fused as an aligned pair |
| `Fusion.Fetch` | roller_eye/src/nodes/sensors_node.cpp:153-166 | A held sample is not re-read; a due stream is read once and consumes a script entry when it succeeds |
| `Fusion.AlignedPairIsClose` | roller_eye/src/nodes/sensors_node.cpp:150-183 | A fused pair's stamps are less than 9 ms apart whenever they are less than 2³¹ ms apart. In general, the whole-millisecond drift taken modulo 2³² is at most 8 or at least 2³¹ |
| `Fusion.AccCatchesUp` | roller_eye/src/nodes/sensors_node.cpp:176-177 | While each new acc sample is at least 9 ms (and less than 2³¹ ms) older than the held gyro sample, the gyro sample is kept and the acc stream is re-read |
| `Fusion.GyroCatchesUp` | roller_eye/src/nodes/sensors_node.cpp:178-179 | Symmetrically, the held acc sample is kept while the gyro stream lags by at least 9 ms and less than 2³¹ ms |
| `Fusion.BothStreamsRead` | roller_eye/src/nodes/sensors_node.cpp:153-169 | When both samples are due, both streams are read even if the first read fails, and any failure gives -1 |
| `Fusion.Compose` | roller_eye/src/nodes/sensors_node.cpp:186-197 | Frame `imu` and `w = 1`. The stamp is the midpoint rounded down: it lies between the two stamps, and twice it is the stamps' sum or one less. Angular and linear values plus the offsets give back the raw samples |
| `Fusion.ConvergenceExample` | roller_eye/src/nodes/sensors_node.cpp:152-187 | A gyro sample at 20 ms is kept while acc samples at 0 and 10 ms are dropped, and it is fused with the acc sample at 16 ms, stamped 18 ms |
| `ImuData.LifecycleBracketsCalibration` | roller_eye/src/nodes/sensors_node.cpp:208-222 | A channel is calibrated iff its stored offset did not load. Every calibration run lies after motor disable and `start()` and before `stop()` and motor enable, and no event repeats |
| `ImuData.Saved` | roller_eye/src/nodes/sensors_node.cpp:118 | A found offset is saved under its channel, a failed run changes no file, and other channels' files are untouched |
| `ImuData.Imu.constructor` | roller_eye/src/nodes/sensors_node.cpp:294-313 | Thresholds 5·0.10, 5·0.05, 5·0.45 and 5·0.22, with g = 9.7833 and the sign table. The lifecycle trace is run with the build's policy, and the streams end stopped. Stored offsets stay; each missing channel is calibrated on its fresh stream, and its file and stream are the run's |
| `ImuData.Imu.Start` | roller_eye/src/nodes/sensors_node.cpp:318-325 | `mStart` is set, both skip counters restart, and a start event is traced |
| `ImuData.Imu.Stop` | roller_eye/src/nodes/sensors_node.cpp:326-332 | `mStart` is cleared and a stop event is traced |
| `ImuData.Imu.SetData` | roller_eye/src/nodes/sensors_node.cpp:147-199 | The `while (true)` loop, with its drift narrowed to 32 bits, gives exactly `Fuse`'s outcome and leaves the streams where `Fuse` does. On a read error it returns -1 with the message untouched; otherwise 0 with `Compose` of the aligned pair |
| `ImuData.Imu.DoGyroCalibration` | roller_eye/src/nodes/sensors_node.cpp:239-248 | A run with base 0 and the gyro thresholds. On success the offset is in memory and saved; on failure the offset and files are unchanged |
| `ImuData.Imu.DoAccCalibration` | roller_eye/src/nodes/sensors_node.cpp:249-258 | The same, with base (0, 0, g) and the acc thresholds |
| `ImuData.Imu.ClearCalibration` | roller_eye/src/nodes/sensors_node.cpp:259-263 | Both in-memory offsets become zero |
| `ImuData.Imu.CalibrateMissing` | roller_eye/src/nodes/sensors_node.cpp:208-223 | Only the missing channels are calibrated, on restarted streams, inside the motor/stream bracket; the streams end stopped |
| `ImuData.Imu.DoCalibration` | roller_eye/src/nodes/sensors_node.cpp:201-237 | The result is true iff both stored offsets exist afterwards, and loaded offsets are kept. Only missing channels are calibrated, and a stored offset is kept in memory. Without `useCalibra` both in-memory offsets are zero. Nothing runs when both loaded |
| `ImuData.Imu.ImuCalib` | roller_eye/src/nodes/sensors_node.cpp:265-278 | The stored offsets are removed, both channels are recalibrated on restarted streams, and `mStart` is restored with a `start()` (restarting both streams) if it was set. The result is true iff both offsets were found. With `useCalibra` a found offset is in memory and a missing one leaves memory as it was; without it both are zero |
| `Tof.RangeSource.Read` | roller_eye/src/nodes/sensors_node.cpp:581-589 | A read succeeds iff the driver has an event, and the distance in metres is the reading in millimetres divided by 1000 |
| `Tof.SuccessesAreReads` | roller_eye/src/nodes/sensors_node.cpp:504-512 | There are no more successes than reads, and each is the distance of a successful read |
| `Tof.OneSuccessTooMany` | roller_eye/src/nodes/sensors_node.cpp:504-514 | With no `break`, 21 successes among 30 reads fail, although their first 20 would have succeeded |
| `Tof.Clamp` | roller_eye/src/nodes/sensors_node.cpp:471-478 | Below iff d < min; Above iff min ≤ d and d > max; otherwise exactly `Value(d)`, so both bounds are inclusive |
| `Tof.CorrectionMonotone` | roller_eye/src/nodes/sensors_node.cpp:471-478 | A larger raw reading never gives a smaller corrected range |
| `Tof.CalibrationCentresTarget` | roller_eye/src/nodes/sensors_node.cpp:498-517 | After a successful calibration, a reading equal to the calibration mean corrects to exactly the target distance |
| `Tof.StoredOffsetIgnored` | roller_eye/src/nodes/sensors_node.cpp:522-529 | As written, a successful load leaves the offset at its indeterminate value, whatever was stored |
| `Tof.ToFData.constructor` | roller_eye/src/nodes/sensors_node.cpp:441-449 | With the corrected load, the offset is the stored value, or zero when none can be read |
| `Tof.ToFData.LoadOffsetCalibration` | roller_eye/src/nodes/sensors_node.cpp:522-529 | Corrected load: status 0 iff a value is stored, and then it becomes the offset |
| `Tof.ToFData.SetData` | roller_eye/src/nodes/sensors_node.cpp:457-481 | A failed read gives -1 and an untouched message. Otherwise 0, with type, field of view and bounds copied, and the range `Clamp(raw − offset)` |
| `Tof.ToFData.DoOffsetCalibration` | roller_eye/src/nodes/sensors_node.cpp:498-521 | 30 reads. The result is 0 iff exactly 20 succeed, and then the file holds their mean minus the target distance; otherwise -1 and the file is unchanged. The offset in use is untouched |

## Left out

- The 9-DoF variant (`IMUDataFrom9Dof` and its `LSM9DS1` reads) is not
  modelled. It shares the `IMUData` logic, which is modelled.
- `LightData`, `BatteryStatus`, ROS node handles, service advertisement,
  `DataPulisher` publishing, `main` and logging are outside the
  calibration and fusion core.
- Hardware drivers (`GyroSensor`, `MmaSensor`, `ProximitySensor`, the
  VL53L0X helpers) become scripts of read results.
  - Stamps are the event stamps (the kernel-stamp build). Reading the
    clock is a parameter or left out.
  - The `ToFData` stamp is the `now` parameter.
- The calibration file helpers and their format are not part of this
  model.
  - Files are a map from channel to offset.
  - A save always succeeds, and a failed load leaves the in-memory offset
    as it was.
  - `DoOffsetCalibration` does not model a failed file write, which the
    source reports as -1.
- The `clean_imu_calib.sh` shell call is modelled only as removing both
  stored offsets.
- Floating point is `real`, so rounding is not modelled.
- The 64-bit stamps are unbounded naturals. Overflow of
  `gyro.stamp + acc.stamp` at the midpoint is not modelled.
- Fusion.Fuse: stamps of 2⁶³ ns or more, which the `int64_t` casts turn
  negative, are not modelled. Such stamps are about 292 years after the
  epoch. The 32-bit narrowing of the drift is modelled.
- ImuData.Imu.SetData: the source's `while (true)` loop can spin forever
  on sensors that keep delivering drifted samples. Scripts are finite, so
  the model can only show an arbitrarily long finite run of resyncs, and
  the loop ends with -1 when a script runs out.
- ImuData.Imu.constructor: `mGyroSkip`/`mAccSkip` are uninitialised in
  the source until the first `start()`. The model starts them at zero.
- ImuData.Imu.ImuCalib: the source does not call `stop()` before
  recalibrating; the model follows the code.
- Tof.ToFData.DoOffsetCalibration: success needs exactly 20 successes
  among the 30 reads (`count == 20`, no `break`), not the first 20
  successes. `Tof.OneSuccessTooMany` shows the difference.

## Findings

| source | as written | input that shows it | evidently intended | confidence | as-written member | corrected member |
|---|---|---|---|---|---|---|
| roller_eye/src/nodes/sensors_node.cpp:522-529 | `loadOffsetCalibration` reads the stored value into a local and returns 0, and never assigns `mOffset`. The constructor sets `mOffset` only when the load fails, so after a successful load the offset is uninitialised | an offset file holding 0.05: the constructor leaves `mOffset` at whatever the memory held, not 0.05 | a successful load sets `mOffset` to the stored value | high (not executed) | `Tof.StoredOffsetIgnored` | `Tof.ToFData.LoadOffsetCalibration` |
