/**
 * `doVector3fOffsetCalibration`: the windowed, motion-gated averaging that
 * computes the offset of a 3-axis channel. Up to `MAX_WAIT_TIMES` reads are
 * made; a successfully read sample joins the window only if it is at rest
 * (every axis strictly inside the stationary band around the base vector)
 * and, unless the window is empty, steady (every axis strictly inside the
 * shake band around the previous accepted sample). Any other sample empties
 * the window. When the window holds `CALI_BUFFER_SIZE` samples the offset is
 * their mean minus the base vector, and the run stops.
 */
module OffsetCalibration {
  import opened Common
  import opened ImuSource

  const MAX_WAIT_TIMES: nat := 300
  const CALI_BUFFER_SIZE: nat := 150

  /** The `base`, `stationary` and `shake` arrays of one run. */
  datatype Bands = Bands(base: Vec3, stationary: Vec3, shake: Vec3)

  /** The loop's accumulator: `idx`, `sumX/Y/Z` and `preX/Y/Z`. */
  datatype Window = Window(idx: nat, sum: Vec3, pre: Vec3)

  const Empty: Window := Window(0, Zero, Zero)

  /** The test that keeps a sample: at rest, and steady unless it is the
      first sample of the window. */
  predicate Accepts(w: Window, v: Vec3, b: Bands) {
    Near(v, b.base, b.stationary) && (w.idx == 0 || Near(v, w.pre, b.shake))
  }

  /** One iteration of the loop body on the accumulator. A reset clears the
      count and the sums but leaves `preX/Y/Z` as they were. */
  function Step(w: Window, p: Poll<Sample3>, b: Bands): Window {
    match p
    case Err => w
    case Ok(s) =>
      if Accepts(w, s.v, b) then Window(w.idx + 1, Add(w.sum, s.v), s.v)
      else Window(0, Zero, w.pre)
  }

  /** The accumulator after the loop body has seen `ps`. */
  function Fold(ps: seq<Poll<Sample3>>, b: Bands): Window {
    if ps == [] then Empty else Step(Fold(ps[..|ps| - 1], b), ps[|ps| - 1], b)
  }

  /** `calib[i] = sum_i / idx - base[i]`. */
  function Offset(w: Window, base: Vec3): Vec3
    requires w.idx > 0
  {
    Vec3(w.sum.x / w.idx as real - base.x, w.sum.y / w.idx as real - base.y, w.sum.z / w.idx as real - base.z)
  }

  /** What a run over the read results `ps` yields: the offset, if a full
      window was reached, and the number of reads it used. */
  datatype Outcome = Outcome(offset: Option<Vec3>, attempts: nat)

  function Run(ps: seq<Poll<Sample3>>, b: Bands): (o: Outcome)
    ensures o.attempts <= |ps|
  {
    if ps == [] then Outcome(None, 0)
    else
      var prev := Run(ps[..|ps| - 1], b);
      if prev.offset.Some? then prev
      else
        var w := Fold(ps, b);
        if w.idx == CALI_BUFFER_SIZE then Outcome(Some(Offset(w, b.base)), |ps|)
        else Outcome(None, |ps|)
  }

  /** The calibration of a channel read from `src`: the offset it stores,
      if any, and the stream after the reads it made. */
  function Calibrate(src: Source, b: Bands): (Option<Vec3>, Source) {
    var o := Run(Polls(src, MAX_WAIT_TIMES), b);
    (o.offset, Advance(src, o.attempts))
  }

  /** Once a run has produced an offset, later reads change nothing: the
      loop stops at once. */
  lemma {:induction false} RunStops(ps: seq<Poll<Sample3>>, k: nat, b: Bands)
    requires k <= |ps|
    requires Run(ps[..k], b).offset.Some?
    ensures Run(ps, b) == Run(ps[..k], b)
  {
    if k < |ps| {
      var q := ps[..|ps| - 1];
      assert q[..k] == ps[..k];
      RunStops(q, k, b);
    } else {
      assert ps[..k] == ps;
    }
  }

  /** One more read extends the accumulator by one step, and the run
      either stops there or has still produced nothing. */
  lemma NextRead(src: Source, cnt: nat, b: Bands)
    requires Run(Polls(src, cnt), b) == Outcome(None, cnt)
    ensures Polls(src, cnt + 1) == Polls(src, cnt) + [Advance(src, cnt).Read().0]
    ensures Fold(Polls(src, cnt + 1), b) == Step(Fold(Polls(src, cnt), b), Advance(src, cnt).Read().0, b)
    ensures var w := Fold(Polls(src, cnt + 1), b);
      Run(Polls(src, cnt + 1), b) ==
        if w.idx == CALI_BUFFER_SIZE then Outcome(Some(Offset(w, b.base)), cnt + 1) else Outcome(None, cnt + 1)
  {
    assert Polls(src, cnt + 1)[..cnt] == Polls(src, cnt);
  }

  /** The rest of a run: the loop resumed with accumulator `w` on stream
      `s` with `left` attempts to go. */
  function Resume(w: Window, s: Source, left: nat, b: Bands): (Option<Vec3>, Source)
    decreases left
  {
    if left == 0 then (None, s)
    else
      var w' := Step(w, s.Read().0, b);
      if w'.idx == CALI_BUFFER_SIZE then (Some(Offset(w', b.base)), s.Read().1)
      else Resume(w', s.Read().1, left - 1, b)
  }

  /** One more read of a run that has produced nothing yet. */
  lemma ResumeStep(src: Source, cnt: nat, b: Bands)
    requires cnt < MAX_WAIT_TIMES
    requires Run(Polls(src, cnt), b) == Outcome(None, cnt)
    ensures var w := Fold(Polls(src, cnt + 1), b);
      Resume(Fold(Polls(src, cnt), b), Advance(src, cnt), MAX_WAIT_TIMES - cnt, b) ==
        if w.idx == CALI_BUFFER_SIZE then (Some(Offset(w, b.base)), Advance(src, cnt + 1))
        else Resume(w, Advance(src, cnt + 1), MAX_WAIT_TIMES - (cnt + 1), b)
  {
    NextRead(src, cnt, b);
  }

  /** The read after `cnt` fruitless ones fills the window: resuming
      there is the whole calibration. */
  lemma ResumeFills(src: Source, cnt: nat, b: Bands)
    requires cnt < MAX_WAIT_TIMES
    requires Run(Polls(src, cnt), b) == Outcome(None, cnt)
    requires Fold(Polls(src, cnt + 1), b).idx == CALI_BUFFER_SIZE
    ensures Resume(Fold(Polls(src, cnt), b), Advance(src, cnt), MAX_WAIT_TIMES - cnt, b) == Calibrate(src, b)
  {
    ResumeStep(src, cnt, b);
    NextRead(src, cnt, b);
    Finished(src, cnt + 1, b);
  }

  /** Resuming after `cnt` reads that produced no offset completes the
      calibration of the whole run. */
  lemma {:induction false} ResumeCompletes(src: Source, cnt: nat, b: Bands)
    requires cnt <= MAX_WAIT_TIMES
    requires Run(Polls(src, cnt), b) == Outcome(None, cnt)
    ensures Resume(Fold(Polls(src, cnt), b), Advance(src, cnt), MAX_WAIT_TIMES - cnt, b) == Calibrate(src, b)
    decreases MAX_WAIT_TIMES - cnt
  {
    if cnt == MAX_WAIT_TIMES {
      Finished(src, cnt, b);
    } else if Fold(Polls(src, cnt + 1), b).idx == CALI_BUFFER_SIZE {
      ResumeFills(src, cnt, b);
    } else {
      ResumeStep(src, cnt, b);
      NextRead(src, cnt, b);
      ResumeCompletes(src, cnt + 1, b);
    }
  }

  /** The loop of `doVector3fOffsetCalibration`, reading `src` in place of
      the `getData` closure. It returns the offset it computed (which the
      caller stores in `calib` and saves) and the stream after the reads.
      A failed read uses up an attempt and changes nothing else. */
  method DoVector3fOffsetCalibration(src: Source, b: Bands) returns (calib: Option<Vec3>, rest: Source)
    ensures (calib, rest) == Calibrate(src, b)
  {
    ResumeCompletes(src, 0, b);
    var idx: nat := 0;
    var preX, preY, preZ, sumX, sumY, sumZ := 0.0, 0.0, 0.0, 0.0, 0.0, 0.0;
    var s := src;
    var cnt := 0;
    while cnt < MAX_WAIT_TIMES
      invariant cnt <= MAX_WAIT_TIMES && idx < CALI_BUFFER_SIZE
      invariant Resume(Window(idx, Vec3(sumX, sumY, sumZ), Vec3(preX, preY, preZ)), s, MAX_WAIT_TIMES - cnt, b) == Calibrate(src, b)
    {
      var val := s.Read().0;
      s := s.Read().1;
      if val.Err? {
        cnt := cnt + 1;
        continue;
      }
      var v := val.value.v;
      var reset := true;
      if Near(v, b.base, b.stationary) {
        if idx != 0 {
          if Near(v, Vec3(preX, preY, preZ), b.shake) {
            reset := false;
          }
        } else {
          reset := false;
        }
      }
      if reset {
        idx := 0;
        sumX, sumY, sumZ := 0.0, 0.0, 0.0;
      } else {
        preX, preY, preZ := v.x, v.y, v.z;
        sumX, sumY, sumZ := sumX + preX, sumY + preY, sumZ + preZ;
        idx := idx + 1;
      }
      if idx == CALI_BUFFER_SIZE {
        calib := Some(Offset(Window(idx, Vec3(sumX, sumY, sumZ), Vec3(preX, preY, preZ)), b.base));
        rest := s;
        return;
      }
      cnt := cnt + 1;
    }
    calib, rest := None, s;
  }

  /** A run that has produced an offset after `cnt` reads, or has used all
      `MAX_WAIT_TIMES` reads, is over. */
  lemma Finished(src: Source, cnt: nat, b: Bands)
    requires cnt <= MAX_WAIT_TIMES
    requires Run(Polls(src, cnt), b).attempts == cnt
    requires Run(Polls(src, cnt), b).offset.Some? || cnt == MAX_WAIT_TIMES
    ensures Calibrate(src, b) == (Run(Polls(src, cnt), b).offset, Advance(src, cnt))
  {
    PollsPrefix(src, MAX_WAIT_TIMES, cnt);
    if cnt < MAX_WAIT_TIMES {
      RunStops(Polls(src, MAX_WAIT_TIMES), cnt, b);
    }
  }

  // ---------------------------------------------------------------------
  // The window as a list of samples, and what a run computes.
  // ---------------------------------------------------------------------

  /** The samples that were read successfully, in order. */
  function Oks(ps: seq<Poll<Sample3>>): seq<Vec3> {
    if ps == [] then []
    else Oks(ps[..|ps| - 1]) + (if ps[|ps| - 1].Ok? then [ps[|ps| - 1].value.v] else [])
  }

  /** The calibration window as the list of samples it holds. */
  function Kept(ps: seq<Poll<Sample3>>, b: Bands): seq<Vec3> {
    if ps == [] then []
    else
      var k := Kept(ps[..|ps| - 1], b);
      match ps[|ps| - 1]
      case Err => k
      case Ok(s) =>
        if Near(s.v, b.base, b.stationary) && (k == [] || Near(s.v, Last(k), b.shake)) then k + [s.v]
        else []
  }

  /** Every sample at rest, and every sample steady relative to the one
      before it. */
  ghost predicate Chain(ws: seq<Vec3>, b: Bands) {
    (forall i :: 0 <= i < |ws| ==> Near(ws[i], b.base, b.stationary)) &&
    (forall i :: 0 < i < |ws| ==> Near(ws[i], ws[i - 1], b.shake))
  }

  function Mean(ws: seq<Vec3>): Vec3
    requires ws != []
  {
    var s := Sum(ws);
    Vec3(s.x / |ws| as real, s.y / |ws| as real, s.z / |ws| as real)
  }

  /** The accumulator is an exact summary of the window: `idx` is its
      length, the sums are its sum, and `pre` is its last sample. */
  lemma {:induction false} FoldIsWindow(ps: seq<Poll<Sample3>>, b: Bands)
    ensures Fold(ps, b).idx == |Kept(ps, b)|
    ensures Fold(ps, b).sum == Sum(Kept(ps, b))
    ensures Kept(ps, b) != [] ==> Fold(ps, b).pre == Last(Kept(ps, b))
  {
    if ps != [] {
      var q := ps[..|ps| - 1];
      FoldIsWindow(q, b);
      var k := Kept(q, b);
      if ps[|ps| - 1].Ok? {
        var v := ps[|ps| - 1].value.v;
        if Near(v, b.base, b.stationary) && (k == [] || Near(v, Last(k), b.shake)) {
          assert (k + [v])[..|k|] == k;
        }
      }
    }
  }

  /** A failed read leaves the window as it was; a sample read successfully
      joins it exactly when it is at rest and, unless the window is empty,
      steady relative to the previous accepted sample; any other sample
      empties the window and clears the sums. */
  lemma WindowStep(ps: seq<Poll<Sample3>>, s: Sample3, b: Bands)
    ensures Kept(ps + [Err], b) == Kept(ps, b) && Fold(ps + [Err], b) == Fold(ps, b)
    ensures var k := Kept(ps, b);
      Kept(ps + [Ok(s)], b) == k + [s.v] <==>
        Near(s.v, b.base, b.stationary) && (k == [] || Near(s.v, Last(k), b.shake))
    ensures var k := Kept(ps, b);
      Kept(ps + [Ok(s)], b) != k + [s.v] ==>
        Kept(ps + [Ok(s)], b) == [] && Fold(ps + [Ok(s)], b).idx == 0 && Fold(ps + [Ok(s)], b).sum == Zero
  {
    assert (ps + [Err])[..|ps|] == ps;
    assert (ps + [Ok(s)])[..|ps|] == ps;
    FoldIsWindow(ps + [Ok(s)], b);
  }

  /** The window is a run of consecutive successfully read samples (no
      successful read between them was skipped), all at rest and each
      steady relative to its predecessor. */
  lemma {:induction false} WindowIsStableRun(ps: seq<Poll<Sample3>>, b: Bands)
    ensures Chain(Kept(ps, b), b)
    ensures var k, o := Kept(ps, b), Oks(ps); |k| <= |o| && k == o[|o| - |k|..]
  {
    if ps != [] {
      var q := ps[..|ps| - 1];
      WindowIsStableRun(q, b);
      var k, o := Kept(q, b), Oks(q);
      if ps[|ps| - 1].Ok? {
        var v := ps[|ps| - 1].value.v;
        if Near(v, b.base, b.stationary) && (k == [] || Near(v, Last(k), b.shake)) {
          var k' := k + [v];
          forall i | 0 < i < |k'|
            ensures Near(k'[i], k'[i - 1], b.shake)
          {
            if i < |k| {
              assert k'[i] == k[i] && k'[i - 1] == k[i - 1];
            }
          }
          assert (o + [v])[|o + [v]| - |k'|..] == o[|o| - |k|..] + [v];
        }
      }
    }
  }

  /** The window grows by at most one sample per read. */
  lemma {:induction false} WindowGrowth(ps: seq<Poll<Sample3>>, b: Bands)
    requires ps != []
    ensures |Kept(ps, b)| <= |Kept(ps[..|ps| - 1], b)| + 1
  {
  }

  /** What a run computes. It succeeds at the first read after which the
      window holds `CALI_BUFFER_SIZE` samples, and then the offset is the
      mean of those samples minus the base vector; before that read the
      window was always shorter. It fails only if the window stays short
      after every read, and then it has used every read. */
  lemma {:induction false} RunResult(ps: seq<Poll<Sample3>>, b: Bands)
    ensures var o := Run(ps, b);
      o.offset.Some? ==>
        1 <= o.attempts &&
        |Kept(ps[..o.attempts], b)| == CALI_BUFFER_SIZE &&
        o.offset.value == Sub(Mean(Kept(ps[..o.attempts], b)), b.base)
    ensures var o := Run(ps, b);
      o.offset.Some? ==> forall j :: 0 <= j < o.attempts ==> |Kept(ps[..j], b)| < CALI_BUFFER_SIZE
    ensures var o := Run(ps, b);
      o.offset.None? ==>
        o.attempts == |ps| && forall j :: 0 <= j <= |ps| ==> |Kept(ps[..j], b)| < CALI_BUFFER_SIZE
  {
    if ps == [] {
      assert ps[..0] == [];
    } else {
      var q := ps[..|ps| - 1];
      RunResult(q, b);
      var prev := Run(q, b);
      forall j | 0 <= j <= |q|
        ensures ps[..j] == q[..j]
      {
      }
      assert ps[..|ps|] == ps;
      if prev.offset.None? {
        FoldIsWindow(ps, b);
        WindowGrowth(ps, b);
        assert q[..|q|] == q;
      }
    }
  }

  /** A source whose first `CALI_BUFFER_SIZE` reads all succeed with samples
      that form a stable run yields the mean of those samples minus the base
      vector, after exactly `CALI_BUFFER_SIZE` reads. */
  lemma CalibrationOfStableStart(ps: seq<Poll<Sample3>>, ws: seq<Vec3>, b: Bands)
    requires |ws| == CALI_BUFFER_SIZE <= |ps|
    requires forall i :: 0 <= i < |ws| ==> ps[i].Ok? && ps[i].value.v == ws[i]
    requires Chain(ws, b)
    ensures Run(ps, b) == Outcome(Some(Sub(Mean(ws), b.base)), CALI_BUFFER_SIZE)
  {
    forall j | 0 <= j <= |ws|
      ensures Kept(ps[..j], b) == ws[..j]
    {
      StableStartKept(ps, ws, b, j);
    }
    RunResult(ps, b);
    var o := Run(ps, b);
    assert ws[..|ws|] == ws;
    assert |Kept(ps[..CALI_BUFFER_SIZE], b)| == CALI_BUFFER_SIZE;
    if o.offset.None? || o.attempts > CALI_BUFFER_SIZE {
      assert false;
    }
  }

  lemma {:induction false} StableStartKept(ps: seq<Poll<Sample3>>, ws: seq<Vec3>, b: Bands, j: nat)
    requires j <= |ws| <= |ps|
    requires forall i :: 0 <= i < |ws| ==> ps[i].Ok? && ps[i].value.v == ws[i]
    requires Chain(ws, b)
    ensures Kept(ps[..j], b) == ws[..j]
  {
    if j > 0 {
      StableStartKept(ps, ws, b, j - 1);
      assert ps[..j][..j - 1] == ps[..j - 1];
      assert ws[..j] == ws[..j - 1] + [ws[j - 1]];
      if j > 1 {
        assert Last(ws[..j - 1]) == ws[j - 2];
      }
    }
  }
}
