/** A track: the controller fed a sequence of measurements in order. The
    lemmas here relate the whole sequence of kernel calls to the sequence of
    measurements. */
module Track {
  import opened LinAlg
  import opened Measurement
  import opened Fusion

  /** The measurements `ms` fed one after another to `s`; the calls of all
      cycles are concatenated in order */
  function Run(s: FusionEkf, ms: seq<MeasurementPackage>, ext: Externals): (r: Cycle)
    requires IsMatrix(s.ekf.F, 4, 4)
    requires |ms| > 0 && !s.isInitialized ==> InitReadable(ms[0])
    ensures IsMatrix(r.next.ekf.F, 4, 4)
    ensures SameConstants(r.next, s)
    ensures |ms| == 0 ==> r == Cycle(s, [])
    ensures |ms| > 0 ==> r.next.isInitialized && r.next.previousTimestamp == ms[|ms| - 1].timestamp
    decreases |ms|
  {
    if |ms| == 0 then Cycle(s, [])
    else
      var before := Run(s, ms[..|ms| - 1], ext);
      var step := ProcessMeasurement(before.next, ms[|ms| - 1], ext);
      Cycle(step.next, before.calls + step.calls)
  }

  /** The calls of one initialised cycle: a predict, then either a linear
      update, or a Jacobian followed by an extended update */
  predicate IsCycleCalls(calls: seq<Call>) {
    || (|calls| == 2 && calls[0].PredictCall? && calls[1].UpdateCall?)
    || (|calls| == 3 && calls[0].PredictCall? && calls[1].JacobianCall? && calls[2].UpdateEkfCall?)
  }

  /** `calls` splits into whole cycles */
  predicate FollowsProtocol(calls: seq<Call>)
    decreases |calls|
  {
    if |calls| == 0 then true
    else if 2 <= |calls| && IsCycleCalls(calls[..2]) then FollowsProtocol(calls[2..])
    else if 3 <= |calls| && IsCycleCalls(calls[..3]) then FollowsProtocol(calls[3..])
    else false
  }

  /** The number of predict calls in `calls` */
  function PredictCount(calls: seq<Call>): (n: nat)
    decreases |calls|
  {
    if |calls| == 0 then 0 else (if calls[0].PredictCall? then 1 else 0) + PredictCount(calls[1..])
  }

  /** The interval a predict call moved the state over: the transition's
      position-velocity entry */
  function Interval(c: Call): (dt: real) {
    if c.PredictCall? && |c.F| > 0 && |c.F[0]| > 2 then c.F[0][2] else 0.0
  }

  /** The total time covered by the predict calls in `calls` */
  function Elapsed(calls: seq<Call>): (t: real)
    decreases |calls|
  {
    if |calls| == 0 then 0.0 else Interval(calls[0]) + Elapsed(calls[1..])
  }

  lemma {:induction false} FollowsProtocolAppend(a: seq<Call>, b: seq<Call>)
    requires FollowsProtocol(a) && IsCycleCalls(b)
    ensures FollowsProtocol(a + b)
    decreases |a|
  {
    if |a| == 0 {
      assert a + b == b;
      assert b[..|b|] == b && b[|b|..] == [];
    } else if 2 <= |a| && IsCycleCalls(a[..2]) && FollowsProtocol(a[2..]) {
      FollowsProtocolAppend(a[2..], b);
      assert (a + b)[..2] == a[..2];
      assert (a + b)[2..] == a[2..] + b;
    } else {
      FollowsProtocolAppend(a[3..], b);
      assert (a + b)[..3] == a[..3];
      assert (a + b)[3..] == a[3..] + b;
    }
  }

  lemma {:induction false} PredictCountAppend(a: seq<Call>, b: seq<Call>)
    ensures PredictCount(a + b) == PredictCount(a) + PredictCount(b)
    decreases |a|
  {
    if |a| == 0 {
      assert a + b == b;
    } else {
      PredictCountAppend(a[1..], b);
      assert (a + b)[1..] == a[1..] + b;
    }
  }

  lemma {:induction false} ElapsedAppend(a: seq<Call>, b: seq<Call>)
    ensures Elapsed(a + b) == Elapsed(a) + Elapsed(b)
    decreases |a|
  {
    if |a| == 0 {
      assert a + b == b;
    } else {
      ElapsedAppend(a[1..], b);
      assert (a + b)[1..] == a[1..] + b;
    }
  }

  /** One cycle holds exactly one predict, and covers its interval */
  lemma CycleCounts(calls: seq<Call>)
    requires IsCycleCalls(calls)
    ensures PredictCount(calls) == 1
    ensures Elapsed(calls) == Interval(calls[0])
  {
    var tail := calls[1..];
    var tail2 := tail[1..];
    if |calls| == 3 {
      var tail3 := tail2[1..];
      assert PredictCount(tail3) == 0 && Elapsed(tail3) == 0.0;
    }
    assert PredictCount(tail2) == 0 && Elapsed(tail2) == 0.0;
    assert PredictCount(tail) == 0 && Elapsed(tail) == 0.0;
  }

  /** The calls of a run split into whole predict/update cycles: no update
      without the predict right before it, and no predict without an update */
  lemma {:induction false} RunFollowsProtocol(s: FusionEkf, ms: seq<MeasurementPackage>, ext: Externals)
    requires IsMatrix(s.ekf.F, 4, 4)
    requires |ms| > 0 && !s.isInitialized ==> InitReadable(ms[0])
    ensures FollowsProtocol(Run(s, ms, ext).calls)
    decreases |ms|
  {
    if |ms| > 0 {
      var before := Run(s, ms[..|ms| - 1], ext);
      RunFollowsProtocol(s, ms[..|ms| - 1], ext);
      var step := ProcessMeasurement(before.next, ms[|ms| - 1], ext);
      if before.next.isInitialized {
        FollowsProtocolAppend(before.calls, step.calls);
      } else {
        assert before.calls + step.calls == before.calls;
      }
    }
  }

  /** A run of n measurements from a new controller predicts exactly n - 1
      times: once for every measurement but the first */
  lemma {:induction false} RunPredictCount(ms: seq<MeasurementPackage>, ext: Externals)
    requires |ms| > 0 && InitReadable(ms[0])
    ensures PredictCount(Run(Create(), ms, ext).calls) == |ms| - 1
    decreases |ms|
  {
    var s := Create();
    if |ms| > 1 {
      var before := Run(s, ms[..|ms| - 1], ext);
      RunPredictCount(ms[..|ms| - 1], ext);
      var step := ProcessMeasurement(before.next, ms[|ms| - 1], ext);
      PredictCountAppend(before.calls, step.calls);
      CycleCounts(step.calls);
    }
  }

  /** The predict calls of a run from a new controller together cover exactly
      the time from the first timestamp to the last, in seconds, whatever
      the order of the timestamps */
  lemma {:induction false} RunElapsed(ms: seq<MeasurementPackage>, ext: Externals)
    requires |ms| > 0 && InitReadable(ms[0])
    ensures Elapsed(Run(Create(), ms, ext).calls) * MicrosecondsPerSecond
            == (ms[|ms| - 1].timestamp - ms[0].timestamp) as real
    decreases |ms|
  {
    var s := Create();
    if |ms| > 1 {
      var prefix := ms[..|ms| - 1];
      var before := Run(s, prefix, ext);
      RunElapsed(prefix, ext);
      var step := ProcessMeasurement(before.next, ms[|ms| - 1], ext);
      ElapsedAppend(before.calls, step.calls);
      CycleCounts(step.calls);
    }
  }

  /** After a run from a new controller, `F` is the transition over the
      interval between the last two measurements, or over one second (its
      constructed value) after a single measurement */
  lemma {:induction false} RunTransition(ms: seq<MeasurementPackage>, ext: Externals)
    requires |ms| > 0 && InitReadable(ms[0])
    ensures var f := Run(Create(), ms, ext).next.ekf.F;
            if |ms| == 1 then IsTransition(f, 1.0)
            else IsTransition(f, ElapsedSeconds(ms[|ms| - 1].timestamp, ms[|ms| - 2].timestamp))
    decreases |ms|
  {
    var prefix := ms[..|ms| - 1];
    if |ms| > 1 {
      RunTransition(prefix, ext);
    }
  }

  /** A run from a new controller leaves the state covariance at its
      constructed value until the second measurement */
  lemma {:induction false} FirstMeasurementKeepsCovariance(m: MeasurementPackage, ext: Externals)
    requires InitReadable(m)
    ensures Run(Create(), [m], ext).next.ekf.P == Diagonal([1.0, 1.0, 1000.0, 1000.0])
  {
  }

  /** Two laser readings 100000 microseconds apart, at (1, 1) then (1.1, 1):
      the second makes one predict over 0.1 seconds and one linear update
      with the second reading */
  lemma TwoLaserReadings(ext: Externals)
    ensures var first := MeasurementPackage(Laser, 0, [1.0, 1.0]);
            var second := MeasurementPackage(Laser, 100000, [1.1, 1.0]);
            var r := Run(Create(), [first, second], ext);
            && |r.calls| == 2
            && r.calls[0].PredictCall?
            && IsTransition(r.calls[0].F, 0.1)
            && r.calls[0].Q == ProcessNoise(0.1)
            && r.calls[1] == UpdateCall([1.1, 1.0], Create().hLaser, Create().rLaser)
  {
  }
}
