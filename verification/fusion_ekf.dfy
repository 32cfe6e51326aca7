/** The fusion controller: it owns the sensor constants, the initialisation
    flag and the previous timestamp, and runs one predict/update cycle per
    measurement. `ProcessMeasurement` is a pure step from one controller
    state to the next; the calls it makes into the filter kernels are
    returned alongside, in order, so that the call sequence can be stated. */
module Fusion {
  import opened LinAlg
  import opened Measurement
  import opened Kalman

  /** Acceleration noise intensities along the two axes */
  const NoiseAx: real := 9.0
  const NoiseAy: real := 9.0

  const MicrosecondsPerSecond: real := 1000000.0

  /** Code outside this component: the filter kernels, the radar Jacobian,
      and the cosine and sine used to convert a first radar reading. */
  datatype Externals = Externals(
    kernels: Kernels,
    calculateJacobian: Vector -> Matrix,
    cos: real -> real,
    sin: real -> real)

  /** One call into outside code, with the filter fields it reads */
  datatype Call =
    | PredictCall(F: Matrix, Q: Matrix)
    | JacobianCall(at: Vector)
    | UpdateCall(z: Vector, H: Matrix, R: Matrix)
    | UpdateEkfCall(z: Vector, H: Matrix, R: Matrix)

  /** The controller state */
  datatype FusionEkf = FusionEkf(
    isInitialized: bool,
    previousTimestamp: int,
    rLaser: Matrix,
    rRadar: Matrix,
    hLaser: Matrix,
    hj: Matrix,
    ekf: Filter)

  /** The result of one step: the next state and the calls made on the way */
  datatype Cycle = Cycle(next: FusionEkf, calls: seq<Call>)

  /** `f` is the constant-velocity transition over `dt` seconds: the identity
      plus `dt` where a position row meets its velocity column */
  predicate IsTransition(f: Matrix, dt: real) {
    IsMatrix(f, 4, 4) &&
    forall i, j :: 0 <= i < 4 && 0 <= j < 4 ==>
      f[i][j] == (if i == j then 1.0 else if j == i + 2 then dt else 0.0)
  }

  /** The sensor constants are those of `s` */
  predicate SameConstants(t: FusionEkf, s: FusionEkf) {
    t.rLaser == s.rLaser && t.rRadar == s.rRadar && t.hLaser == s.hLaser && t.hj == s.hj
  }

  /** The constructor */
  function Create(): (r: FusionEkf)
    ensures !r.isInitialized && r.previousTimestamp == 0
    ensures r.rLaser == Diagonal([0.0225, 0.0225])
    ensures r.rRadar == Diagonal([0.09, 0.0009, 0.09])
    ensures IsMatrix(r.hLaser, 2, 4) && IsMatrix(r.hj, 3, 4)
    ensures r.ekf.P == Diagonal([1.0, 1.0, 1000.0, 1000.0])
    ensures IsTransition(r.ekf.F, 1.0)
    ensures |r.ekf.x| == 0 && |r.ekf.Q| == 0 && |r.ekf.H| == 0 && |r.ekf.R| == 0
  {
    var rLaser := [[0.0225, 0.0],
                   [0.0, 0.0225]];
    var rRadar := [[0.09, 0.0, 0.0],
                   [0.0, 0.0009, 0.0],
                   [0.0, 0.0, 0.09]];
    var hLaser := [[1.0, 0.0, 0.0, 0.0],
                   [0.0, 1.0, 0.0, 0.0]];
    var hj := [[1.0, 1.0, 0.0, 0.0],
               [1.0, 1.0, 0.0, 0.0],
               [1.0, 1.0, 1.0, 1.0]];
    var p := [[1.0, 0.0, 0.0, 0.0],
              [0.0, 1.0, 0.0, 0.0],
              [0.0, 0.0, 1000.0, 0.0],
              [0.0, 0.0, 0.0, 1000.0]];
    var f := [[1.0, 0.0, 1.0, 0.0],
              [0.0, 1.0, 0.0, 1.0],
              [0.0, 0.0, 1.0, 0.0],
              [0.0, 0.0, 0.0, 1.0]];
    MatrixExtensionality(rLaser, Diagonal([0.0225, 0.0225]), 2, 2);
    MatrixExtensionality(rRadar, Diagonal([0.09, 0.0009, 0.09]), 3, 3);
    MatrixExtensionality(p, Diagonal([1.0, 1.0, 1000.0, 1000.0]), 4, 4);
    FusionEkf(false, 0, rLaser, rRadar, hLaser, hj, Empty().(P := p, F := f))
  }

  /** The laser observation matrix of a new controller picks the position
      out of a state vector */
  lemma LaserObservesPosition(v: Vector)
    requires |v| == 4
    ensures MatVec(Create().hLaser, v) == v[..2]
  {
  }

  /** What the first measurement reads: radar (range, bearing, range rate),
      laser (px, py) */
  predicate InitReadable(m: MeasurementPackage) {
    (m.sensorType == Radar ==> |m.rawMeasurements| >= 3) &&
    (m.sensorType == Laser ==> |m.rawMeasurements| >= 2)
  }

  /** The state set from the first measurement. A radar reading is
      converted from polar to Cartesian position; the range rate is read but
      not used, so velocity starts at zero. A tag other than radar or laser
      leaves the placeholder (1, 1, 1, 1). */
  function InitialState(m: MeasurementPackage, cos: real -> real, sin: real -> real): (x: Vector)
    requires InitReadable(m)
    ensures |x| == 4
    ensures m.sensorType == Laser ==> x[..2] == m.rawMeasurements[..2]
    ensures m.sensorType != Other ==> x[2] == 0.0 && x[3] == 0.0
    ensures m.sensorType == Other ==> x == [1.0, 1.0, 1.0, 1.0]
  {
    match m.sensorType
    case Radar =>
      var ro := m.rawMeasurements[0];
      var phi := m.rawMeasurements[1];
      [ro * cos(phi), ro * sin(phi), 0.0, 0.0]
    case Laser =>
      [m.rawMeasurements[0], m.rawMeasurements[1], 0.0, 0.0]
    case Other =>
      [1.0, 1.0, 1.0, 1.0]
  }

  /** A first laser reading is reproduced exactly by observing the initial
      state through the laser observation matrix */
  lemma LaserInitRoundTrip(m: MeasurementPackage, cos: real -> real, sin: real -> real)
    requires m.sensorType == Laser && |m.rawMeasurements| >= 2
    ensures MatVec(Create().hLaser, InitialState(m, cos, sin)) == m.rawMeasurements[..2]
  {
  }

  /** A first radar reading places the object at distance `range` from the
      sensor, given only that cosine and sine satisfy the Pythagorean
      identity at the bearing */
  lemma RadarInitRange(m: MeasurementPackage, cos: real -> real, sin: real -> real)
    requires m.sensorType == Radar && |m.rawMeasurements| >= 3
    requires var phi := m.rawMeasurements[1]; cos(phi) * cos(phi) + sin(phi) * sin(phi) == 1.0
    ensures var x := InitialState(m, cos, sin);
            x[0] * x[0] + x[1] * x[1] == m.rawMeasurements[0] * m.rawMeasurements[0]
  {
  }

  /** A first radar reading is recovered from the initial position by the
      inverse polar conversion: projecting the position on the bearing's
      direction gives the range, and on its normal gives zero. So the
      position lies at the reported bearing, not merely at the reported
      range, given only the Pythagorean identity at that bearing. */
  lemma RadarInitPolarRoundTrip(m: MeasurementPackage, cos: real -> real, sin: real -> real)
    requires m.sensorType == Radar && |m.rawMeasurements| >= 3
    requires var phi := m.rawMeasurements[1]; cos(phi) * cos(phi) + sin(phi) * sin(phi) == 1.0
    ensures var x := InitialState(m, cos, sin);
            var phi := m.rawMeasurements[1];
            && x[0] * cos(phi) + x[1] * sin(phi) == m.rawMeasurements[0]
            && x[1] * cos(phi) - x[0] * sin(phi) == 0.0
  {
  }

  /** The gap between two timestamps, converted from microseconds to
      seconds. No sign check: an earlier or equal timestamp gives a
      non-positive interval. */
  function ElapsedSeconds(timestamp: int, previous: int): (dt: real)
    ensures dt * MicrosecondsPerSecond == (timestamp - previous) as real
    ensures dt <= 0.0 <==> timestamp <= previous
    ensures dt == 0.0 <==> timestamp == previous
  {
    (timestamp - previous) as real / MicrosecondsPerSecond
  }

  /** Writes `dt` into the two position-velocity entries of `f` */
  function RetimeTransition(f: Matrix, dt: real): (r: Matrix)
    requires IsMatrix(f, 4, 4)
    ensures IsMatrix(r, 4, 4)
    ensures r[0][2] == dt && r[1][3] == dt
    ensures forall i, j :: 0 <= i < 4 && 0 <= j < 4 && !(i == 0 && j == 2) && !(i == 1 && j == 3) ==>
              r[i][j] == f[i][j]
    ensures forall d :: IsTransition(f, d) ==> IsTransition(r, dt)
  {
    f[0 := f[0][2 := dt]][1 := f[1][3 := dt]]
  }

  /** The process noise for an interval of `dt` seconds, built from the
      powers of `dt` and the two noise intensities */
  function ProcessNoise(dt: real): (q: Matrix)
    ensures IsSymmetric(q, 4)
    ensures forall i, j :: 0 <= i < 4 && 0 <= j < 4 && i % 2 != j % 2 ==> q[i][j] == 0.0
    ensures forall i :: 0 <= i < 4 ==> q[i][i] >= 0.0
    ensures dt == 0.0 ==> q == Zero(4, 4)
  {
    var dt2 := dt * dt;
    var dt3 := dt2 * dt;
    var dt4 := dt3 * dt;
    assert dt4 == dt2 * dt2 >= 0.0;
    var q := [[dt4 / 4.0 * NoiseAx, 0.0, dt3 / 2.0 * NoiseAx, 0.0],
              [0.0, dt4 / 4.0 * NoiseAy, 0.0, dt3 / 2.0 * NoiseAy],
              [dt3 / 2.0 * NoiseAx, 0.0, dt2 * NoiseAx, 0.0],
              [0.0, dt3 / 2.0 * NoiseAy, 0.0, dt2 * NoiseAy]];
    if dt == 0.0 then MatrixExtensionality(q, Zero(4, 4), 4, 4); q else q
  }

  /** One measurement. The first one only initialises the state and the
      timestamp; every later one retimes `F`, rebuilds `Q`, predicts, and
      then updates through the radar or the laser model. */
  function ProcessMeasurement(s: FusionEkf, m: MeasurementPackage, ext: Externals): (r: Cycle)
    requires IsMatrix(s.ekf.F, 4, 4)
    requires !s.isInitialized ==> InitReadable(m)
    ensures r.next.isInitialized
    ensures r.next.previousTimestamp == m.timestamp
    ensures SameConstants(r.next, s)
    ensures IsMatrix(r.next.ekf.F, 4, 4)
    // first measurement: no kernel is called and only x changes in the filter
    ensures !s.isInitialized ==>
              && r.calls == []
              && r.next.ekf == s.ekf.(x := InitialState(m, ext.cos, ext.sin))
    // later measurements
    ensures s.isInitialized ==>
              var dt := ElapsedSeconds(m.timestamp, s.previousTimestamp);
              var f, q := r.next.ekf.F, r.next.ekf.Q;
              var predicted := ext.kernels.predict(s.ekf.x, s.ekf.P, f, q);
              && f == RetimeTransition(s.ekf.F, dt)
              && q == ProcessNoise(dt)
              && (m.sensorType == Radar ==>
                    var hj := ext.calculateJacobian(predicted.x);
                    && r.calls == [PredictCall(f, q), JacobianCall(predicted.x),
                                   UpdateEkfCall(m.rawMeasurements, hj, s.rRadar)]
                    && r.next.ekf.H == hj && r.next.ekf.R == s.rRadar
                    && Estimate(r.next.ekf.x, r.next.ekf.P)
                       == ext.kernels.updateEkf(predicted.x, predicted.P, hj, s.rRadar, m.rawMeasurements))
              && (m.sensorType != Radar ==>
                    && r.calls == [PredictCall(f, q), UpdateCall(m.rawMeasurements, s.hLaser, s.rLaser)]
                    && r.next.ekf.H == s.hLaser && r.next.ekf.R == s.rLaser
                    && Estimate(r.next.ekf.x, r.next.ekf.P)
                       == ext.kernels.update(predicted.x, predicted.P, s.hLaser, s.rLaser, m.rawMeasurements))
  {
    if !s.isInitialized then
      var x := InitialState(m, ext.cos, ext.sin);
      Cycle(s.(isInitialized := true, previousTimestamp := m.timestamp, ekf := s.ekf.(x := x)), [])
    else
      var dt := ElapsedSeconds(m.timestamp, s.previousTimestamp);
      var f := RetimeTransition(s.ekf.F, dt);
      var q := ProcessNoise(dt);
      var predicted := Predict(s.ekf.(F := f, Q := q), ext.kernels);
      var next := s.(previousTimestamp := m.timestamp);
      if m.sensorType == Radar then
        var hj := ext.calculateJacobian(predicted.x);
        var updated := UpdateEkf(predicted.(H := hj, R := s.rRadar), m.rawMeasurements, ext.kernels);
        Cycle(next.(ekf := updated),
              [PredictCall(f, q), JacobianCall(predicted.x), UpdateEkfCall(m.rawMeasurements, hj, s.rRadar)])
      else
        var updated := Update(predicted.(H := s.hLaser, R := s.rLaser), m.rawMeasurements, ext.kernels);
        Cycle(next.(ekf := updated),
              [PredictCall(f, q), UpdateCall(m.rawMeasurements, s.hLaser, s.rLaser)])
  }
}
