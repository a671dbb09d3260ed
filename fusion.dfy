/**
 * The timestamp alignment of `IMUData::setData`: a gyro sample and an
 * accelerometer sample are read; while their stamps are more than
 * `MAX_DRIFT_MS` whole milliseconds apart, the stream whose sample is older
 * is read again and the other sample is kept. Any failed read ends the call
 * with -1 and no output. An aligned pair becomes one IMU message stamped at
 * the midpoint of the two stamps, with each stream's offset subtracted.
 */
module Fusion {
  import opened Common
  import opened ImuSource

  /** The largest drift, in whole milliseconds, accepted between the pair. */
  const MAX_DRIFT_MS: nat := 8
  const NS_PER_MS: nat := 1000000

  function AbsDiff(g: nat, a: nat): nat {
    if g >= a then g - a else a - g
  }

  /** 2^31: the first value that does not fit a signed 32-bit `int`. */
  const INT32_LIMIT: int := 0x8000_0000

  /** Storing a 64-bit value into a 32-bit `int`: two's-complement
      wrap-around into `[-2^31, 2^31)`. */
  function ToInt32(x: int): (r: int)
    ensures -INT32_LIMIT <= r < INT32_LIMIT
    ensures (x - r) % (2 * INT32_LIMIT) == 0
    ensures 0 <= x < INT32_LIMIT ==> r == x
  {
    var m := x % (2 * INT32_LIMIT);
    if m < INT32_LIMIT then m else m - 2 * INT32_LIMIT
  }

  /** `diff = abs((int64_t)gyro.stamp - (int64_t)acc.stamp) / 1000000`: the
      drift truncated to whole milliseconds, stored in the 32-bit `diff`. */
  function DriftMs(g: nat, a: nat): int {
    ToInt32(AbsDiff(g, a) / NS_PER_MS)
  }

  /** Truncation makes the threshold 9 ms of real drift: below 2^31 ms of
      drift, the pair is re-read exactly when the stamps are at least
      9,000,000 ns apart. */
  lemma DriftThreshold(g: nat, a: nat)
    requires AbsDiff(g, a) < INT32_LIMIT * NS_PER_MS
    ensures DriftMs(g, a) > MAX_DRIFT_MS <==> AbsDiff(g, a) >= (MAX_DRIFT_MS + 1) * NS_PER_MS
  {
    var d := AbsDiff(g, a);
    DivMonotone(INT32_LIMIT * NS_PER_MS - 1, d);
    assert (INT32_LIMIT * NS_PER_MS - 1) / NS_PER_MS == INT32_LIMIT - 1;
    if d >= (MAX_DRIFT_MS + 1) * NS_PER_MS {
      DivMonotone(d, (MAX_DRIFT_MS + 1) * NS_PER_MS);
    } else {
      DivMonotone((MAX_DRIFT_MS + 1) * NS_PER_MS - 1, d);
    }
  }

  /** The narrowing to 32 bits: stamps exactly 2^31 ms (about 24.8 days)
      apart give the most negative `diff`, which is not above 8. */
  lemma DriftWrapsAt(g: nat)
    ensures DriftMs(g, g + INT32_LIMIT * NS_PER_MS) == -INT32_LIMIT
    ensures DriftMs(g + INT32_LIMIT * NS_PER_MS, g) == -INT32_LIMIT
  {
    assert AbsDiff(g, g + INT32_LIMIT * NS_PER_MS) / NS_PER_MS == INT32_LIMIT;
    assert AbsDiff(g + INT32_LIMIT * NS_PER_MS, g) / NS_PER_MS == INT32_LIMIT;
  }

  lemma DivMonotone(x: nat, y: nat)
    requires y <= x
    ensures y / NS_PER_MS <= x / NS_PER_MS
  {
  }

  /** The outcome of one call: a read failed, or the pair that was fused. */
  datatype Fused = ReadError | Aligned(gyro: Sample3, acc: Sample3)

  /** Reading a stream whose sample is still needed (`!gyroOk` / `!accOk`);
      a stream whose sample is held is not read. */
  function Fetch(s: Source, held: Option<Sample3>): (r: (Option<Sample3>, Source))
    ensures held.Some? ==> r == (held, s)
    ensures held.None? ==> r.1 == s.Read().1
    ensures held.None? ==> (r.0.Some? <==> s.Read().0.Ok?)
    ensures held.None? && r.0.Some? ==> r.0.value == s.Read().0.value && |r.1.events| == |s.events| - 1
  {
    if held.Some? then (held, s)
    else
      match s.Read().0
      case Ok(x) => (Some(x), s.Read().1)
      case Err => (None, s.Read().1)
  }

  /** The loop of `setData` from the state in which `pg` and `pa` are the
      samples held (at least one stream is due to be read): the outcome and
      the two streams afterwards. Every pass that does not stop reads a
      sample, so the loop ends when a stream's script runs out. */
  function Fuse(g: Source, a: Source, pg: Option<Sample3>, pa: Option<Sample3>): (Fused, Source, Source)
    requires pg.None? || pa.None?
    decreases |g.events| + |a.events|
  {
    var fg := Fetch(g, pg);
    var fa := Fetch(a, pa);
    if fg.0.None? || fa.0.None? then (ReadError, fg.1, fa.1)
    else if DriftMs(fg.0.value.stamp, fa.0.value.stamp) > MAX_DRIFT_MS then
      if fg.0.value.stamp > fa.0.value.stamp then Fuse(fg.1, fa.1, fg.0, None)
      else Fuse(fg.1, fa.1, None, fa.0)
    else (Aligned(fg.0.value, fa.0.value), fg.1, fa.1)
  }

  /** A fused pair is less than 9 ms apart when its drift fits the 32-bit
      `diff`; in general its whole-millisecond drift, taken modulo 2^32,
      is at most 8 or wraps to a negative `diff`. */
  lemma {:induction false} AlignedPairIsClose(g: Source, a: Source, pg: Option<Sample3>, pa: Option<Sample3>)
    requires pg.None? || pa.None?
    ensures var r := Fuse(g, a, pg, pa).0;
      r.Aligned? && AbsDiff(r.gyro.stamp, r.acc.stamp) < INT32_LIMIT * NS_PER_MS ==>
        AbsDiff(r.gyro.stamp, r.acc.stamp) < (MAX_DRIFT_MS + 1) * NS_PER_MS
    ensures var r := Fuse(g, a, pg, pa).0;
      r.Aligned? ==>
        var m := (AbsDiff(r.gyro.stamp, r.acc.stamp) / NS_PER_MS) % (2 * INT32_LIMIT);
        m <= MAX_DRIFT_MS || INT32_LIMIT <= m
    decreases |g.events| + |a.events|
  {
    var fg := Fetch(g, pg);
    var fa := Fetch(a, pa);
    if fg.0.Some? && fa.0.Some? {
      var x, y := fg.0.value, fa.0.value;
      if AbsDiff(x.stamp, y.stamp) < INT32_LIMIT * NS_PER_MS {
        DriftThreshold(x.stamp, y.stamp);
      }
      if DriftMs(x.stamp, y.stamp) > MAX_DRIFT_MS {
        if x.stamp > y.stamp {
          AlignedPairIsClose(fg.1, fa.1, fg.0, None);
        } else {
          AlignedPairIsClose(fg.1, fa.1, None, fa.0);
        }
      }
    }
  }

  /** A held gyro sample is kept, and the accelerometer is read again, for
      as long as each new accelerometer sample is at least 9 ms (and less
      than 2^31 ms) older than it: the older stream is re-read until it
      catches up. */
  lemma {:induction false} AccCatchesUp(g: Source, a: Source, x: Sample3, k: nat)
    requires forall i :: 0 <= i < k ==>
      Polls(a, k)[i].Ok? && Polls(a, k)[i].value.stamp + (MAX_DRIFT_MS + 1) * NS_PER_MS <= x.stamp &&
      x.stamp < Polls(a, k)[i].value.stamp + INT32_LIMIT * NS_PER_MS
    ensures Fuse(g, a, Some(x), None) == Fuse(g, Advance(a, k), Some(x), None)
  {
    if k > 0 {
      PollsPrefix(a, k, k - 1);
      AccCatchesUp(g, a, x, k - 1);
      PollAt(a, k, k - 1);
      var y := Advance(a, k - 1).Read().0.value;
      DriftThreshold(x.stamp, y.stamp);
    }
  }

  /** Symmetrically, a held accelerometer sample is kept while each new
      gyro sample is at least 9 ms (and less than 2^31 ms) older than it (a
      gyro sample that is not newer is the one dropped). */
  lemma {:induction false} GyroCatchesUp(g: Source, a: Source, y: Sample3, k: nat)
    requires forall i :: 0 <= i < k ==>
      Polls(g, k)[i].Ok? && Polls(g, k)[i].value.stamp + (MAX_DRIFT_MS + 1) * NS_PER_MS <= y.stamp &&
      y.stamp < Polls(g, k)[i].value.stamp + INT32_LIMIT * NS_PER_MS
    ensures Fuse(g, a, None, Some(y)) == Fuse(Advance(g, k), a, None, Some(y))
  {
    if k > 0 {
      PollsPrefix(g, k, k - 1);
      GyroCatchesUp(g, a, y, k - 1);
      PollAt(g, k, k - 1);
      var x := Advance(g, k - 1).Read().0.value;
      DriftThreshold(x.stamp, y.stamp);
    }
  }

  /** Because `diff` is 32 bits, a pair exactly 2^31 ms apart is fused at
      once instead of being resynchronised. */
  lemma WrappedPairFused(ge: RawEvent, ae: RawEvent, d: Dir)
    requires ae.stamp == ge.stamp + INT32_LIMIT * NS_PER_MS
    ensures var g := Source(Gyro, [Some(ge)], SKIP_CNT, d);
      var a := Source(Acc, [Some(ae)], SKIP_CNT, d);
      Fuse(g, a, None, None).0 == Aligned(Remap(Gyro, d, ge), Remap(Acc, d, ae))
  {
    DriftWrapsAt(ge.stamp);
  }

  /** One pass when both samples are due: both streams are read, even when
      the gyro read has already failed, and a failure of either ends the call. */
  lemma BothStreamsRead(g: Source, a: Source)
    ensures var r := Fuse(g, a, None, None);
      (g.Read().0.Err? || a.Read().0.Err?) ==> r == (ReadError, g.Read().1, a.Read().1)
  {
  }

  datatype Quaternion = Quaternion(x: real, y: real, z: real, w: real)

  /** The fields of `sensor_msgs::Imu` that the node writes. */
  datatype ImuMsg = ImuMsg(frameId: string, stamp: nat, orientation: Quaternion, angular: Vec3, linear: Vec3)

  const IMU_FRAME_ID: string := "imu"

  /** The message written for an aligned pair: the other fields of the
      orientation are left as the caller had them. */
  function Compose(s: ImuMsg, g: Sample3, a: Sample3, gyroCali: Vec3, accCali: Vec3): (m: ImuMsg)
    ensures m.frameId == IMU_FRAME_ID && m.orientation == s.orientation.(w := 1.0)
    ensures g.stamp <= a.stamp ==> g.stamp <= m.stamp <= a.stamp
    ensures a.stamp <= g.stamp ==> a.stamp <= m.stamp <= g.stamp
    ensures 2 * m.stamp <= g.stamp + a.stamp <= 2 * m.stamp + 1
    ensures Add(m.angular, gyroCali) == g.v && Add(m.linear, accCali) == a.v
  {
    s.(frameId := IMU_FRAME_ID, stamp := (g.stamp + a.stamp) / 2, orientation := s.orientation.(w := 1.0),
       angular := Sub(g.v, gyroCali), linear := Sub(a.v, accCali))
  }

  /** Worked example: one gyro sample stamped 20 ms; accelerometer samples
      stamped 0, 10 and 16 ms. The first two accelerometer samples are 20
      and 10 ms older than the gyro sample and are dropped; the third is
      4 ms away and is fused with the gyro sample, which was kept throughout.
      The message is stamped at 18 ms. */
  lemma ConvergenceExample(s: ImuMsg, gyroCali: Vec3, accCali: Vec3)
    ensures
      var d := DirFor(true);
      var ge := RawEvent(20 * NS_PER_MS, 0.01, 0.02, 0.03);
      var a3 := RawEvent(16 * NS_PER_MS, 0.0, 0.0, 9.8);
      var g := Source(Gyro, [Some(ge)], SKIP_CNT, d);
      var a := Source(Acc, [Some(RawEvent(0, 0.0, 0.0, 9.8)), Some(RawEvent(10 * NS_PER_MS, 0.0, 0.0, 9.8)), Some(a3)], SKIP_CNT, d);
      var r := Fuse(g, a, None, None);
      r.0 == Aligned(Remap(Gyro, d, ge), Remap(Acc, d, a3)) &&
      r.1.events == [] && r.2.events == [] &&
      Compose(s, r.0.gyro, r.0.acc, gyroCali, accCali).stamp == 18 * NS_PER_MS
  {
    var d := DirFor(true);
    var ge := RawEvent(20 * NS_PER_MS, 0.01, 0.02, 0.03);
    var e1 := RawEvent(0, 0.0, 0.0, 9.8);
    var e2 := RawEvent(10 * NS_PER_MS, 0.0, 0.0, 9.8);
    var e3 := RawEvent(16 * NS_PER_MS, 0.0, 0.0, 9.8);
    var g0 := Source(Gyro, [Some(ge)], SKIP_CNT, d);
    var a0 := Source(Acc, [Some(e1), Some(e2), Some(e3)], SKIP_CNT, d);
    var x := Remap(Gyro, d, ge);
    var g1 := g0.(events := []);
    var a1 := a0.(events := [Some(e2), Some(e3)]);
    var a2 := a0.(events := [Some(e3)]);
    var a3 := a0.(events := []);
    DriftThreshold(x.stamp, Remap(Acc, d, e1).stamp);
    assert Fuse(g0, a0, None, None) == Fuse(g1, a1, Some(x), None);
    DriftThreshold(x.stamp, Remap(Acc, d, e2).stamp);
    assert Fuse(g1, a1, Some(x), None) == Fuse(g1, a2, Some(x), None);
    DriftThreshold(x.stamp, Remap(Acc, d, e3).stamp);
    assert Fuse(g1, a2, Some(x), None) == (Aligned(x, Remap(Acc, d, e3)), g1, a3);
  }
}
