/**
 * `IMUData` with its 6-DoF variant `IMUDataFrom6Dof`: the in-memory gyro
 * and accelerometer offsets, the calibration lifecycle run at construction
 * and by the `/imu_calib` service, and the fused reading of `setData`.
 * The calibration files are a map from channel to stored offset; the motor
 * inhibit and the stream start/stop calls are recorded in a trace.
 */
module ImuData {
  import opened Common
  import opened ImuSource
  import opened OffsetCalibration
  import opened Fusion

  /** What the lifecycle does to the outside world, in order. */
  datatype Event = MotorDisable | MotorEnable | StreamsOn | StreamsOff | CalibrationRun(channel: Channel)

  /** The events one lifecycle appends, given which stored offsets loaded:
      nothing when both did; otherwise the motor is disabled and the streams
      started, the missing channels are calibrated (gyro first), and the
      streams are stopped and the motor enabled again. */
  function LifecycleEvents(gyroLoaded: bool, accLoaded: bool): seq<Event> {
    if gyroLoaded && accLoaded then []
    else
      [MotorDisable, StreamsOn] +
      (if gyroLoaded then [] else [CalibrationRun(Gyro)]) +
      (if accLoaded then [] else [CalibrationRun(Acc)]) +
      [StreamsOff, MotorEnable]
  }

  /** A channel is calibrated exactly when its stored offset did not load,
      and every calibration run happens while the motor is disabled and the
      streams are started: after `MotorDisable` and `StreamsOn`, before
      `StreamsOff` and `MotorEnable`. No event happens twice. */
  lemma LifecycleBracketsCalibration(gyroLoaded: bool, accLoaded: bool)
    ensures CalibrationRun(Gyro) in LifecycleEvents(gyroLoaded, accLoaded) <==> !gyroLoaded
    ensures CalibrationRun(Acc) in LifecycleEvents(gyroLoaded, accLoaded) <==> !accLoaded
    ensures var t := LifecycleEvents(gyroLoaded, accLoaded);
      t != [] ==>
        4 <= |t| && t[0] == MotorDisable && t[1] == StreamsOn && t[|t| - 2] == StreamsOff && t[|t| - 1] == MotorEnable &&
        forall i :: 0 <= i < |t| && t[i].CalibrationRun? ==> 1 < i < |t| - 2
    ensures var t := LifecycleEvents(gyroLoaded, accLoaded);
      forall i, j :: 0 <= i < j < |t| ==> t[i] != t[j]
  {
    var t := LifecycleEvents(gyroLoaded, accLoaded);
    if gyroLoaded && accLoaded {
    } else if gyroLoaded {
      assert t == [MotorDisable, StreamsOn, CalibrationRun(Acc), StreamsOff, MotorEnable];
    } else if accLoaded {
      assert t == [MotorDisable, StreamsOn, CalibrationRun(Gyro), StreamsOff, MotorEnable];
    } else {
      assert t == [MotorDisable, StreamsOn, CalibrationRun(Gyro), CalibrationRun(Acc), StreamsOff, MotorEnable];
    }
  }

  /** The calibration files after a run on `ch` that found `c`: a found
      offset is saved under its channel; a failed run changes nothing. */
  function Saved(store: map<Channel, Vec3>, ch: Channel, c: Option<Vec3>): (r: map<Channel, Vec3>)
    ensures ch in r <==> ch in store || c.Some?
    ensures c.Some? ==> r[ch] == c.value
    ensures c.None? ==> r == store
    ensures forall k :: k != ch ==> (k in r <==> k in store) && (k in r ==> r[k] == store[k])
  {
    if c.Some? then store[ch := c.value] else store
  }

  /** Bands of the gyro calibration: at rest means no rotation. */
  function GyroBands(staticT: real, shakeT: real): Bands {
    Bands(Zero, Vec3(staticT, staticT, staticT), Vec3(shakeT, shakeT, shakeT))
  }

  /** Bands of the accelerometer calibration: at rest means gravity on z. */
  function AccBands(staticT: real, shakeT: real, g: real): Bands {
    Bands(Vec3(0.0, 0.0, g), Vec3(staticT, staticT, staticT), Vec3(shakeT, shakeT, shakeT))
  }

  class Imu {
    const gyroStatic: real
    const gyroShake: real
    const accStatic: real
    const accShake: real
    const gValue: real

    var gyro: Source
    var acc: Source
    /** `mGyroCali`, `mAccCali` */
    var gyroCali: Vec3
    var accCali: Vec3
    /** The calibration files: the offset stored for a channel, if any. */
    var store: map<Channel, Vec3>
    /** `mStart` */
    var started: bool
    var trace: seq<Event>

    ghost predicate Valid()
      reads this
    {
      gyro.channel == Gyro && acc.channel == Acc
    }

    /** `IMUDataFrom6Dof(flip)`: the 6-DoF thresholds, the sign table, zero
        offsets, then the lifecycle with the build's calibration policy. */
    constructor (flip: bool, gyroEvents: seq<Option<RawEvent>>, accEvents: seq<Option<RawEvent>>,
                 stored: map<Channel, Vec3>, useCalibra: bool)
      ensures Valid()
      ensures gyroStatic == 5.0 * 0.10 && gyroShake == 5.0 * 0.05
      ensures accStatic == 5.0 * 0.45 && accShake == 5.0 * 0.22 && gValue == 9.7833
      ensures gyro.dir == DirFor(flip) && acc.dir == DirFor(flip)
      ensures trace == LifecycleEvents(Gyro in stored, Acc in stored)
      ensures !useCalibra ==> gyroCali == Zero && accCali == Zero
      ensures useCalibra ==> gyroCali == (if Gyro in store then store[Gyro] else Zero)
      ensures useCalibra ==> accCali == (if Acc in store then store[Acc] else Zero)
      ensures Gyro in stored ==> Gyro in store && store[Gyro] == stored[Gyro]
      ensures Acc in stored ==> Acc in store && store[Acc] == stored[Acc]
      ensures Gyro in stored ==> gyro == Source(Gyro, gyroEvents, 0, DirFor(flip))
      ensures Acc in stored ==> acc == Source(Acc, accEvents, 0, DirFor(flip))
      ensures Gyro !in stored ==>
        var c := Calibrate(Source(Gyro, gyroEvents, 0, DirFor(flip)), GyroBands(gyroStatic, gyroShake));
        (Gyro in store <==> c.0.Some?) && (c.0.Some? ==> store[Gyro] == c.0.value) && gyro == c.1
      ensures Acc !in stored ==>
        var c := Calibrate(Source(Acc, accEvents, 0, DirFor(flip)), AccBands(accStatic, accShake, gValue));
        (Acc in store <==> c.0.Some?) && (c.0.Some? ==> store[Acc] == c.0.value) && acc == c.1
      ensures !started
    {
      gyroStatic, gyroShake := 5.0 * 0.10, 5.0 * 0.05;
      accStatic, accShake := 5.0 * 0.45, 5.0 * 0.22;
      gValue := 9.7833;
      gyro := Source(Gyro, gyroEvents, 0, DirFor(flip));
      acc := Source(Acc, accEvents, 0, DirFor(flip));
      gyroCali, accCali := Zero, Zero;
      store := stored;
      started := false;
      trace := [];
      new;
      var _ := DoCalibration(useCalibra);
    }

    /** `start()`: the streams are enabled and the skip counters restart. */
    method Start()
      requires Valid()
      modifies this`started, this`gyro, this`acc, this`trace
      ensures Valid() && started
      ensures gyro == old(gyro).Restart() && acc == old(acc).Restart()
      ensures trace == old(trace) + [StreamsOn]
    {
      started := true;
      gyro, acc := gyro.Restart(), acc.Restart();
      trace := trace + [StreamsOn];
    }

    /** `stop()`: the streams are disabled. Stopping twice is harmless. */
    method Stop()
      modifies this`started, this`trace
      ensures !started
      ensures trace == old(trace) + [StreamsOff]
    {
      started := false;
      trace := trace + [StreamsOff];
    }

    method ReadGyro() returns (p: Poll<Sample3>)
      modifies this`gyro
      ensures (p, gyro) == old(gyro).Read()
    {
      p := gyro.Read().0;
      gyro := gyro.Read().1;
    }

    method ReadAcc() returns (p: Poll<Sample3>)
      modifies this`acc
      ensures (p, acc) == old(acc).Read()
    {
      p := acc.Read().0;
      acc := acc.Read().1;
    }

    /** `setData`: -1 and the message untouched if a read fails; otherwise 0
        and the message of the aligned pair with the offsets subtracted. */
    method SetData(s: ImuMsg) returns (code: int, out: ImuMsg)
      requires Valid()
      modifies this`gyro, this`acc
      ensures Valid()
      ensures var r := Fuse(old(gyro), old(acc), None, None);
        gyro == r.1 && acc == r.2 &&
        (r.0.ReadError? ==> code == -1 && out == s) &&
        (r.0.Aligned? ==> code == 0 && out == Compose(s, r.0.gyro, r.0.acc, gyroCali, accCali))
    {
      var err, accOk, gyroOk := false, false, false;
      var g, a := Sample3(0, Zero), Sample3(0, Zero);
      while true
        invariant Valid()
        invariant !gyroOk || !accOk
        invariant Fuse(gyro, acc, if gyroOk then Some(g) else None, if accOk then Some(a) else None)
               == Fuse(old(gyro), old(acc), None, None)
        decreases |gyro.events| + |acc.events|
      {
        ghost var g0, a0 := gyro, acc;
        ghost var pg, pa := (if gyroOk then Some(g) else None), (if accOk then Some(a) else None);
        if !gyroOk {
          var p := ReadGyro();
          if p.Err? {
            err := true;
          } else {
            gyroOk, g := true, p.value;
          }
        }
        if !accOk {
          var p := ReadAcc();
          if p.Err? {
            err := true;
          } else {
            accOk, a := true, p.value;
          }
        }
        assert (gyroOk && accOk) == !err;
        if err {
          return -1, s;
        }
        assert Fetch(g0, pg) == (Some(g), gyro) && Fetch(a0, pa) == (Some(a), acc);
        var diff := ToInt32(AbsDiff(g.stamp, a.stamp) / 1000000);
        if diff > 8 {
          if g.stamp > a.stamp {
            accOk := false;
          } else {
            gyroOk := false;
          }
        } else {
          break;
        }
      }
      code := 0;
      out := s.(frameId := IMU_FRAME_ID, stamp := (g.stamp + a.stamp) / 2, orientation := s.orientation.(w := 1.0),
                angular := Sub(g.v, gyroCali), linear := Sub(a.v, accCali));
    }

    /** `doGyroCalibraion`: a calibration run on the gyro stream; on
        success the offset is kept in memory and saved. */
    method DoGyroCalibration()
      requires Valid()
      modifies this`gyro, this`gyroCali, this`store, this`trace
      ensures Valid()
      ensures var c := Calibrate(old(gyro), GyroBands(gyroStatic, gyroShake));
        gyro == c.1 &&
        gyroCali == (if c.0.Some? then c.0.value else old(gyroCali)) &&
        store == Saved(old(store), Gyro, c.0)
      ensures trace == old(trace) + [CalibrationRun(Gyro)]
    {
      var calib, rest := DoVector3fOffsetCalibration(gyro, GyroBands(gyroStatic, gyroShake));
      gyro := rest;
      if calib.Some? {
        gyroCali := calib.value;
        store := store[Gyro := calib.value];
      }
      trace := trace + [CalibrationRun(Gyro)];
    }

    /** `doAccCalibration`: the same on the accelerometer stream, around
        gravity. */
    method DoAccCalibration()
      requires Valid()
      modifies this`acc, this`accCali, this`store, this`trace
      ensures Valid()
      ensures var c := Calibrate(old(acc), AccBands(accStatic, accShake, gValue));
        acc == c.1 &&
        accCali == (if c.0.Some? then c.0.value else old(accCali)) &&
        store == Saved(old(store), Acc, c.0)
      ensures trace == old(trace) + [CalibrationRun(Acc)]
    {
      var calib, rest := DoVector3fOffsetCalibration(acc, AccBands(accStatic, accShake, gValue));
      acc := rest;
      if calib.Some? {
        accCali := calib.value;
        store := store[Acc := calib.value];
      }
      trace := trace + [CalibrationRun(Acc)];
    }

    /** `clearCalibration`: both in-memory offsets become zero; the stored
        ones stay. */
    method ClearCalibration()
      modifies this`gyroCali, this`accCali
      ensures gyroCali == Zero && accCali == Zero
    {
      gyroCali, accCali := Zero, Zero;
    }

    /** The bracket of `doCalibration` when a stored offset is missing: the
        motor is disabled and the streams started, the missing channels are
        calibrated, then the streams are stopped and the motor enabled. */
    method CalibrateMissing(gyroLoaded: bool, accLoaded: bool)
      requires Valid() && !(gyroLoaded && accLoaded)
      modifies this`gyro, this`acc, this`gyroCali, this`accCali, this`store, this`started, this`trace
      ensures Valid() && !started
      ensures trace == old(trace) + LifecycleEvents(gyroLoaded, accLoaded)
      ensures gyroLoaded ==> gyro == old(gyro).Restart() && gyroCali == old(gyroCali)
      ensures accLoaded ==> acc == old(acc).Restart() && accCali == old(accCali)
      ensures !gyroLoaded ==> var c := Calibrate(old(gyro).Restart(), GyroBands(gyroStatic, gyroShake));
        gyro == c.1 && gyroCali == (if c.0.Some? then c.0.value else old(gyroCali))
      ensures !accLoaded ==> var c := Calibrate(old(acc).Restart(), AccBands(accStatic, accShake, gValue));
        acc == c.1 && accCali == (if c.0.Some? then c.0.value else old(accCali))
      ensures store == Saved(Saved(old(store), Gyro, if gyroLoaded then None else Calibrate(old(gyro).Restart(), GyroBands(gyroStatic, gyroShake)).0),
                             Acc, if accLoaded then None else Calibrate(old(acc).Restart(), AccBands(accStatic, accShake, gValue)).0)
    {
      trace := trace + [MotorDisable];
      Start();
      RunMissing(gyroLoaded, accLoaded);
      Stop();
      trace := trace + [MotorEnable];
    }

    /** The calibration runs of the missing channels, gyro first. */
    method RunMissing(gyroLoaded: bool, accLoaded: bool)
      requires Valid()
      modifies this`gyro, this`acc, this`gyroCali, this`accCali, this`store, this`trace
      ensures Valid()
      ensures trace == old(trace) + (if gyroLoaded then [] else [CalibrationRun(Gyro)]) + (if accLoaded then [] else [CalibrationRun(Acc)])
      ensures gyroLoaded ==> gyro == old(gyro) && gyroCali == old(gyroCali)
      ensures accLoaded ==> acc == old(acc) && accCali == old(accCali)
      ensures !gyroLoaded ==> var c := Calibrate(old(gyro), GyroBands(gyroStatic, gyroShake));
        gyro == c.1 && gyroCali == (if c.0.Some? then c.0.value else old(gyroCali))
      ensures !accLoaded ==> var c := Calibrate(old(acc), AccBands(accStatic, accShake, gValue));
        acc == c.1 && accCali == (if c.0.Some? then c.0.value else old(accCali))
      ensures store == Saved(Saved(old(store), Gyro, if gyroLoaded then None else Calibrate(old(gyro), GyroBands(gyroStatic, gyroShake)).0),
                             Acc, if accLoaded then None else Calibrate(old(acc), AccBands(accStatic, accShake, gValue)).0)
    {
      if !gyroLoaded {
        DoGyroCalibration();
      }
      if !accLoaded {
        DoAccCalibration();
      }
    }

    /** `doCalibration`: load both stored offsets; calibrate the channels
        whose offset did not load, with the motor disabled and the streams
        started; zero the in-memory offsets unless `useCalibra`; report
        whether both stored offsets can be read afterwards. */
    method DoCalibration(useCalibra: bool) returns (ok: bool)
      requires Valid()
      modifies this
      ensures Valid()
      ensures trace == old(trace) + LifecycleEvents(Gyro in old(store), Acc in old(store))
      ensures ok <==> Gyro in store && Acc in store
      ensures Gyro in old(store) ==> Gyro in store && store[Gyro] == old(store)[Gyro]
      ensures Acc in old(store) ==> Acc in store && store[Acc] == old(store)[Acc]
      ensures Gyro in old(store) && Acc in old(store) ==> gyro == old(gyro) && acc == old(acc) && started == old(started)
      ensures !(Gyro in old(store) && Acc in old(store)) ==> !started
      ensures Gyro !in old(store) ==>
        var c := Calibrate(old(gyro).Restart(), GyroBands(gyroStatic, gyroShake));
        gyro == c.1 && (Gyro in store <==> c.0.Some?) && (c.0.Some? ==> store[Gyro] == c.0.value)
      ensures Acc !in old(store) ==>
        var c := Calibrate(old(acc).Restart(), AccBands(accStatic, accShake, gValue));
        acc == c.1 && (Acc in store <==> c.0.Some?) && (c.0.Some? ==> store[Acc] == c.0.value)
      ensures Gyro in old(store) && Acc !in old(store) ==> gyro == old(gyro).Restart()
      ensures Acc in old(store) && Gyro !in old(store) ==> acc == old(acc).Restart()
      ensures useCalibra ==> gyroCali == (if Gyro in store then store[Gyro] else old(gyroCali))
      ensures useCalibra ==> accCali == (if Acc in store then store[Acc] else old(accCali))
      ensures !useCalibra ==> gyroCali == Zero && accCali == Zero
      ensures store.Keys <= old(store).Keys + {Gyro, Acc}
    {
      var gyroLoaded := Gyro in store;
      if gyroLoaded {
        gyroCali := store[Gyro];
      }
      var accLoaded := Acc in store;
      if accLoaded {
        accCali := store[Acc];
      }
      if !gyroLoaded || !accLoaded {
        CalibrateMissing(gyroLoaded, accLoaded);
      }
      if !useCalibra {
        ClearCalibration();
      }
      ok := Gyro in store && Acc in store;
    }

    /** The `/imu_calib` service: the stored offsets are removed, the
        lifecycle runs again with the build's policy, and streaming resumes
        if it was on. */
    method ImuCalib(useCalibra: bool) returns (ok: bool)
      requires Valid()
      modifies this
      ensures Valid()
      ensures trace == old(trace) + LifecycleEvents(false, false) + (if old(started) then [StreamsOn] else [])
      ensures started == old(started)
      ensures ok <==> Gyro in store && Acc in store
      ensures var c := Calibrate(old(gyro).Restart(), GyroBands(gyroStatic, gyroShake));
        (Gyro in store <==> c.0.Some?) && (c.0.Some? ==> store[Gyro] == c.0.value)
      ensures var c := Calibrate(old(acc).Restart(), AccBands(accStatic, accShake, gValue));
        (Acc in store <==> c.0.Some?) && (c.0.Some? ==> store[Acc] == c.0.value)
      ensures useCalibra ==> gyroCali == (if Gyro in store then store[Gyro] else old(gyroCali))
      ensures useCalibra ==> accCali == (if Acc in store then store[Acc] else old(accCali))
      ensures !useCalibra ==> gyroCali == Zero && accCali == Zero
      ensures var c := Calibrate(old(gyro).Restart(), GyroBands(gyroStatic, gyroShake));
        gyro == (if old(started) then c.1.Restart() else c.1)
      ensures var c := Calibrate(old(acc).Restart(), AccBands(accStatic, accShake, gValue));
        acc == (if old(started) then c.1.Restart() else c.1)
    {
      store := store - {Gyro, Acc};
      var bStart := started;
      ok := DoCalibration(useCalibra);
      if bStart {
        Start();
      }
    }
  }
}
