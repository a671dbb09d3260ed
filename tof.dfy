/**
 * The time-of-flight range sensor (`ToFData` with the kernel driver of
 * `VL53L0xDataFromKernel`): the offset correction and clamping of
 * `setData`, the offset calibration against a target at a known distance,
 * and the loading of the stored offset. The driver is a script of raw
 * readings in millimetres (`None` for a failed read); the `tof_offset`
 * file is an optional stored value.
 */
module Tof {
  import opened Common

  /** Reads made by one offset calibration. */
  const TOF_OFFSET_CALI_MAX_TIMES: nat := 30
  /** Successful reads one offset calibration needs, exactly. */
  const TOF_OFFSET_CALI_TIMES: nat := 20

  /** The remaining results of `readDistance`: a reading in millimetres, or
      `None` when `readEvents` returns no event. An exhausted script fails. */
  datatype RangeSource = RangeSource(readings: seq<Option<real>>)
  {
    /** One `readDistance`: the distance in metres and the driver after it. */
    function Read(): (r: (Poll<real>, RangeSource))
      ensures readings == [] ==> r == (Err, this)
      ensures readings != [] ==> r.1.readings == readings[1..]
      ensures r.0.Ok? <==> readings != [] && readings[0].Some?
      ensures r.0.Ok? ==> r.0.value * 1000.0 == readings[0].value
    {
      if readings == [] then (Err, this)
      else if readings[0].None? then (Err, RangeSource(readings[1..]))
      else (Ok(readings[0].value / 1000.0), RangeSource(readings[1..]))
    }
  }

  /** The driver after `n` reads. */
  function After(s: RangeSource, n: nat): RangeSource {
    if n == 0 then s else After(s, n - 1).Read().1
  }

  /** The results of `n` successive reads. */
  function Reads(s: RangeSource, n: nat): (ps: seq<Poll<real>>)
    ensures |ps| == n
  {
    if n == 0 then [] else Reads(s, n - 1) + [After(s, n - 1).Read().0]
  }

  /** The distances of the successful reads, in order. */
  function Successes(ps: seq<Poll<real>>): seq<real> {
    if ps == [] then []
    else Successes(ps[..|ps| - 1]) + (if ps[|ps| - 1].Ok? then [ps[|ps| - 1].value] else [])
  }

  function SumOf(s: seq<real>): real {
    if s == [] then 0.0 else SumOf(s[..|s| - 1]) + s[|s| - 1]
  }

  /** What one offset calibration over the reads `ps` writes to the offset
      file: the mean of the successful distances minus the distance of the
      target, when exactly `TOF_OFFSET_CALI_TIMES` reads succeeded. */
  function CalibratedOffset(ps: seq<Poll<real>>, calibraDistance: real): Option<real> {
    var ok := Successes(ps);
    if |ok| == TOF_OFFSET_CALI_TIMES then Some(SumOf(ok) / TOF_OFFSET_CALI_TIMES as real - calibraDistance)
    else None
  }

  /** A successful read adds its distance to the successes; a failed one
      adds nothing. */
  lemma SuccessesStep(ps: seq<Poll<real>>, p: Poll<real>)
    ensures Successes(ps + [p]) == Successes(ps) + (if p.Ok? then [p.value] else [])
  {
    assert (ps + [p])[..|ps|] == ps;
  }

  lemma SumStep(s: seq<real>, d: real)
    ensures SumOf(s + [d]) == SumOf(s) + d
  {
    assert (s + [d])[..|s|] == s;
  }

  /** Every success is one read: no more successes than reads, and each is
      the distance of some successful read. */
  lemma {:induction false} SuccessesAreReads(ps: seq<Poll<real>>)
    ensures |Successes(ps)| <= |ps|
    ensures forall d :: d in Successes(ps) ==> Ok(d) in ps
  {
    if ps != [] {
      var front := ps[..|ps| - 1];
      SuccessesAreReads(front);
      assert ps == front + [ps[|ps| - 1]];
      SuccessesStep(front, ps[|ps| - 1]);
    }
  }

  /** There is no early exit: with one success too many, for instance 21
      successes followed by 9 failures, the calibration fails, although the
      first 20 successes alone would have given an offset. */
  lemma {:induction false} OneSuccessTooMany(d: real, calibraDistance: real)
    ensures var ps := Repeat(Ok(d), 21) + Repeat(Err, 9);
      |ps| == TOF_OFFSET_CALI_MAX_TIMES &&
      CalibratedOffset(ps, calibraDistance) == None &&
      CalibratedOffset(ps[..20], calibraDistance).Some?
  {
    var ps := Repeat(Ok(d), 21) + Repeat(Err, 9);
    AllOk(d, 21);
    AllOk(d, 20);
    assert ps[..20] == Repeat(Ok(d), 20);
    FailuresAddNothing(Repeat(Ok(d), 21), 9);
  }

  function Repeat<T>(p: T, n: nat): (s: seq<T>)
    ensures |s| == n
  {
    if n == 0 then [] else Repeat(p, n - 1) + [p]
  }

  lemma {:induction false} AllOk(d: real, n: nat)
    ensures |Successes(Repeat(Ok(d), n))| == n
  {
    if n > 0 {
      AllOk(d, n - 1);
      SuccessesStep(Repeat(Ok(d), n - 1), Ok(d));
    }
  }

  lemma {:induction false} FailuresAddNothing(ps: seq<Poll<real>>, n: nat)
    ensures Successes(ps + Repeat(Err, n)) == Successes(ps)
  {
    if n > 0 {
      FailuresAddNothing(ps, n - 1);
      assert ps + Repeat(Err, n) == (ps + Repeat(Err, n - 1)) + [Err];
      SuccessesStep(ps + Repeat(Err, n - 1), Err);
    } else {
      assert ps + Repeat(Err, n) == ps;
    }
  }

  /** The range written into the message: a sentinel below or above the
      span the sensor can measure, or the corrected distance. */
  datatype Range = Below | Above | Value(r: real)

  /** The clamp of `setData` after the offset is subtracted: both bounds
      belong to the measurable span. */
  function Clamp(d: real, minRange: real, maxRange: real): (r: Range)
    ensures r == Below <==> d < minRange
    ensures r == Above <==> minRange <= d && maxRange < d
    ensures r.Value? <==> minRange <= d <= maxRange
    ensures r.Value? ==> r.r == d
  {
    if d < minRange then Below
    else if d > maxRange then Above
    else Value(d)
  }

  function Rank(r: Range): int {
    match r
    case Below => -1
    case Value(_) => 0
    case Above => 1
  }

  /** The correction keeps the order of raw distances: a farther raw
      reading never gives a nearer range. */
  lemma CorrectionMonotone(raw1: real, raw2: real, offset: real, minRange: real, maxRange: real)
    requires raw1 <= raw2
    ensures Rank(Clamp(raw1 - offset, minRange, maxRange)) <= Rank(Clamp(raw2 - offset, minRange, maxRange))
    ensures var r1, r2 := Clamp(raw1 - offset, minRange, maxRange), Clamp(raw2 - offset, minRange, maxRange);
      r1.Value? && r2.Value? ==> r1.r <= r2.r
  {
  }

  /** After a calibration, a reading equal to the calibration mean is
      corrected to exactly the target distance, if that lies in the span. */
  lemma CalibrationCentresTarget(ps: seq<Poll<real>>, calibraDistance: real, minRange: real, maxRange: real)
    requires CalibratedOffset(ps, calibraDistance).Some?
    requires minRange <= calibraDistance <= maxRange
    ensures var mean := SumOf(Successes(ps)) / TOF_OFFSET_CALI_TIMES as real;
      Clamp(mean - CalibratedOffset(ps, calibraDistance).value, minRange, maxRange) == Value(calibraDistance)
  {
  }

  /** The fields of `sensor_msgs::Range` that the node writes. */
  datatype RangeMsg = RangeMsg(stamp: nat, radiationType: int, fieldOfView: real, minRange: real, maxRange: real, range: Range)

  /** `loadOffsetCalibration` as written: the stored value is read into a
      local and dropped. The status and the offset afterwards. */
  function LoadAsWritten(stored: Option<real>, offset: real): (int, real) {
    (if stored.Some? then 0 else -1, offset)
  }

  /** The offset the constructor leaves as written: zero when the load
      fails, otherwise whatever the uninitialised member held. */
  function ConstructedOffsetAsWritten(stored: Option<real>, indeterminate: real): real {
    var r := LoadAsWritten(stored, indeterminate);
    if r.0 != 0 then 0.0 else r.1
  }

  /** As written, a successful load does not depend on the stored value:
      with 0.05 m stored the offset is still the indeterminate value. */
  lemma StoredOffsetIgnored(v: real, indeterminate: real)
    ensures ConstructedOffsetAsWritten(Some(v), indeterminate) == indeterminate
    ensures ConstructedOffsetAsWritten(Some(0.05), 1.0) != 0.05
  {
  }

  /** `ToFData` over the kernel driver. */
  class ToFData {
    /** `mType`, `mMinRange`, `mMaxRange`, `mARC`, `mCalibraDistance` */
    const radiationType: int
    const minRange: real
    const maxRange: real
    const arc: real
    const calibraDistance: real

    /** `mOffset` */
    var offset: real
    var src: RangeSource
    /** The `tof_offset` file. */
    var stored: Option<real>

    /** The constructor with the corrected load: the stored offset when it
        can be read, zero otherwise. */
    constructor (radiationType: int, minRange: real, maxRange: real, arc: real, calibraDistance: real,
                 readings: seq<Option<real>>, stored: Option<real>)
      ensures this.radiationType == radiationType && this.minRange == minRange && this.maxRange == maxRange
      ensures this.arc == arc && this.calibraDistance == calibraDistance
      ensures src == RangeSource(readings) && this.stored == stored
      ensures offset == (if stored.Some? then stored.value else 0.0)
    {
      this.radiationType, this.minRange, this.maxRange := radiationType, minRange, maxRange;
      this.arc, this.calibraDistance := arc, calibraDistance;
      src := RangeSource(readings);
      this.stored := stored;
      new;
      var code := LoadOffsetCalibration();
      if code != 0 {
        offset := 0.0;
      }
    }

    /** `loadOffsetCalibration`, corrected: the value read is the offset. */
    method LoadOffsetCalibration() returns (code: int)
      modifies this`offset
      ensures code == 0 <==> stored.Some?
      ensures code == 0 || code == -1
      ensures offset == (if stored.Some? then stored.value else old(offset))
    {
      if stored.Some? {
        offset := stored.value;
        code := 0;
      } else {
        code := -1;
      }
    }

    method ReadDistance() returns (p: Poll<real>)
      modifies this`src
      ensures (p, src) == old(src).Read()
    {
      p := src.Read().0;
      src := src.Read().1;
    }

    /** `setData`: -1 and the message untouched when the read fails;
        otherwise 0 and the message with the corrected, clamped range. */
    method SetData(r: RangeMsg, now: nat) returns (code: int, out: RangeMsg)
      modifies this`src
      ensures src == old(src).Read().1
      ensures old(src).Read().0.Err? ==> code == -1 && out == r
      ensures old(src).Read().0.Ok? ==>
        (code == 0 &&
         out == RangeMsg(now, radiationType, arc, minRange, maxRange,
                         Clamp(old(src).Read().0.value - offset, minRange, maxRange)))
    {
      var p := ReadDistance();
      if p.Err? {
        return -1, r;
      }
      var distance := p.value - offset;
      var range: Range;
      if distance < minRange {
        range := Below;
      } else if distance > maxRange {
        range := Above;
      } else {
        range := Value(distance);
      }
      out := r.(stamp := now, radiationType := radiationType, fieldOfView := arc,
                minRange := minRange, maxRange := maxRange, range := range);
      code := 0;
    }

    /** `doOffsetCalibration`: `TOF_OFFSET_CALI_MAX_TIMES` reads with no
        early exit; 0 and the offset written to the file when exactly
        `TOF_OFFSET_CALI_TIMES` of them succeed, -1 and nothing written
        otherwise. The offset in use is not touched. */
    method DoOffsetCalibration() returns (code: int)
      modifies this`src, this`stored
      ensures src == After(old(src), TOF_OFFSET_CALI_MAX_TIMES)
      ensures var c := CalibratedOffset(Reads(old(src), TOF_OFFSET_CALI_MAX_TIMES), calibraDistance);
        (code == 0 <==> c.Some?) && (c.Some? ==> stored == c) && (c.None? ==> stored == old(stored) && code == -1)
    {
      ghost var src0 := src;
      var count := 0;
      var distance := 0.0;
      var distanceSum := 0.0;
      for i := 0 to TOF_OFFSET_CALI_MAX_TIMES
        modifies this`src
        invariant src == After(src0, i)
        invariant count == |Successes(Reads(src0, i))|
        invariant distanceSum == SumOf(Successes(Reads(src0, i)))
        invariant count == TOF_OFFSET_CALI_TIMES ==> distance == distanceSum / TOF_OFFSET_CALI_TIMES as real
      {
        var p := ReadDistance();
        SuccessesStep(Reads(src0, i), p);
        assert Reads(src0, i + 1) == Reads(src0, i) + [p];
        if p.Err? {
          assert Successes(Reads(src0, i + 1)) == Successes(Reads(src0, i));
          continue;
        }
        distance := p.value;
        distanceSum := distanceSum + distance;
        SumStep(Successes(Reads(src0, i)), distance);
        count := count + 1;
        if count == TOF_OFFSET_CALI_TIMES {
          distance := distanceSum / TOF_OFFSET_CALI_TIMES as real;
        }
      }
      if count == TOF_OFFSET_CALI_TIMES {
        stored := Some(distance - calibraDistance);
        code := 0;
      } else {
        code := -1;
      }
    }
  }
}
