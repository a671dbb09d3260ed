/**
 * The angular-rate and acceleration streams of the 6-DoF IMU
 * (`IMUDataFrom6Dof::readGyro` / `readAcc`). The hardware drivers are not
 * modelled: each stream is a script of the results its successive
 * `readEvents` calls return (`None` for a call that returns no event; an
 * exhausted script also returns none). A read drops the first `SKIP_CNT`
 * events after `start()` and remaps the sensor axes into the robot frame.
 */
module ImuSource {
  import opened Common

  datatype Channel = Gyro | Acc

  /** The fields of a kernel `sensors_event_t` that the node uses. The time
      stamp is the one delivered with the event (nanoseconds). */
  datatype RawEvent = RawEvent(stamp: nat, x: real, y: real, z: real)

  /** `sensor_vector3f`: a time-stamped 3-axis sample in the robot frame. */
  datatype Sample3 = Sample3(stamp: nat, v: Vec3)

  type Sign = i: int | i == 1 || i == -1 witness 1

  /** `mDir`: the sign applied to each robot axis. */
  datatype Dir = Dir(x: Sign, y: Sign, z: Sign)

  /** The sign table set up by the 6-DoF constructor: a flipped board is
      already right/forward/up; otherwise x and z are mirrored. */
  function DirFor(flip: bool): (d: Dir)
    ensures d.y == 1
    ensures flip <==> d.x == 1
    ensures flip <==> d.z == 1
  {
    if flip then Dir(1, 1, 1) else Dir(-1, 1, -1)
  }

  /** `mSkipCnt`: events dropped after every `start()`. */
  const SKIP_CNT: nat := 50

  function NormSq(v: Vec3): real {
    v.x * v.x + v.y * v.y + v.z * v.z
  }

  /** The raw axes of an event as a vector, in the sensor's own frame. */
  function RawVec(e: RawEvent): Vec3 {
    Vec3(e.x, e.y, e.z)
  }

  /** Inverse of `Remap`: from the robot frame back to the sensor frame. */
  function Unmap(ch: Channel, d: Dir, v: Vec3): Vec3 {
    match ch
    case Gyro => Vec3(-(v.y * d.y as real), v.x * d.x as real, v.z * d.z as real)
    case Acc => Vec3(v.x * d.x as real, v.y * d.y as real, v.z * d.z as real)
  }

  lemma SignFacts(a: real, s: Sign)
    ensures (a * s as real) * (a * s as real) == a * a
    ensures (a * s as real) * s as real == a
  {
    if s == 1 {
    } else {
      assert a * s as real == -a;
    }
  }

  /** The axis remap of `readGyro` (robot x from sensor y, robot y from the
      negated sensor x) and of `readAcc` (axis for axis), each robot axis
      multiplied by its sign. It loses nothing: `Unmap` undoes it. */
  function Remap(ch: Channel, d: Dir, e: RawEvent): (s: Sample3)
    ensures s.stamp == e.stamp
    ensures Unmap(ch, d, s.v) == RawVec(e)
  {
    match ch
    case Gyro =>
      SignFacts(e.y, d.x);
      SignFacts(-e.x, d.y);
      SignFacts(e.z, d.z);
      Sample3(e.stamp, Vec3(e.y * d.x as real, (-e.x) * d.y as real, e.z * d.z as real))
    case Acc =>
      SignFacts(e.x, d.x);
      SignFacts(e.y, d.y);
      SignFacts(e.z, d.z);
      Sample3(e.stamp, Vec3(e.x * d.x as real, e.y * d.y as real, e.z * d.z as real))
  }

  /** The remap is a signed permutation of the axes: it does not change the
      magnitude of a reading. */
  lemma RemapKeepsMagnitude(ch: Channel, d: Dir, e: RawEvent)
    ensures NormSq(Remap(ch, d, e).v) == NormSq(RawVec(e))
  {
    SignFacts(e.x, d.x);
    SignFacts(e.y, d.y);
    SignFacts(e.z, d.z);
    SignFacts(e.y, d.x);
    SignFacts(-e.x, d.y);
  }

  /** One stream: its channel, the script of results of its remaining
      `readEvents` calls, the skip counter (`mGyroSkip` / `mAccSkip`) and
      the sign table. */
  datatype Source = Source(channel: Channel, events: seq<Option<RawEvent>>, skipped: nat, dir: Dir)
  {
    /** One call of `readGyro` / `readAcc`: the result and the stream after it. */
    function Read(): (r: (Poll<Sample3>, Source))
      ensures r.1.channel == channel && r.1.dir == dir
      ensures events == [] ==> r == (Err, this)
      ensures events != [] ==> r.1.events == events[1..]
      ensures r.0.Ok? <==> events != [] && events[0].Some? && skipped >= SKIP_CNT
      ensures r.0.Ok? ==> r.0.value == Remap(channel, dir, events[0].value) && r.1.skipped == skipped
      ensures r.1.skipped == if events != [] && events[0].Some? && skipped < SKIP_CNT then skipped + 1 else skipped
    {
      if events == [] || events[0].None? then
        (Err, this.(events := if events == [] then [] else events[1..]))
      else if skipped < SKIP_CNT then
        (Err, this.(events := events[1..], skipped := skipped + 1))
      else
        (Ok(Remap(channel, dir, events[0].value)), this.(events := events[1..]))
    }

    /** What `start()` does to the stream: the skip counter starts again. */
    function Restart(): (s: Source)
      ensures s.skipped == 0 && s.events == events && s.channel == channel && s.dir == dir
    {
      this.(skipped := 0)
    }
  }

  /** The stream after `n` reads. */
  function Advance(s: Source, n: nat): (r: Source)
    ensures r.channel == s.channel && r.dir == s.dir
  {
    if n == 0 then s else Advance(s, n - 1).Read().1
  }

  /** The results of `n` successive reads of the stream. */
  function Polls(s: Source, n: nat): (ps: seq<Poll<Sample3>>)
    ensures |ps| == n
  {
    if n == 0 then [] else Polls(s, n - 1) + [Advance(s, n - 1).Read().0]
  }

  lemma {:induction false} PollAt(s: Source, n: nat, k: nat)
    requires k < n
    ensures Polls(s, n)[k] == Advance(s, k).Read().0
  {
    if k < n - 1 {
      PollAt(s, n - 1, k);
    }
  }

  /** The first `k` of `n` reads are the `k` reads of a shorter run. */
  lemma {:induction false} PollsPrefix(s: Source, n: nat, k: nat)
    requires k <= n
    ensures Polls(s, k) == Polls(s, n)[..k]
  {
    if k < n {
      PollsPrefix(s, n - 1, k);
      assert Polls(s, n)[..n - 1] == Polls(s, n - 1);
    }
  }

  /** Each read drops at most one event, so after `n` reads the skip
      counter has grown by at most `n`. */
  lemma {:induction false} SkipGrowth(s: Source, n: nat)
    ensures Advance(s, n).skipped <= s.skipped + n
  {
    if n > 0 {
      SkipGrowth(s, n - 1);
    }
  }

  /** After `start()` no read succeeds until `SKIP_CNT` events have been
      dropped: the first `SKIP_CNT` reads of a restarted stream all fail. */
  lemma FirstReadsDropped(s: Source, n: nat)
    requires n <= SKIP_CNT
    ensures forall k :: 0 <= k < n ==> Polls(s.Restart(), n)[k] == Err
  {
    forall k | 0 <= k < n
      ensures Polls(s.Restart(), n)[k] == Err
    {
      PollAt(s.Restart(), n, k);
      SkipGrowth(s.Restart(), k);
    }
  }
}
