/** Properties of the matrices the controller builds each cycle: the
    transition moves position along velocity, and the process noise is the
    covariance of a random acceleration held over the interval. */
module FusionProperties {
  import opened LinAlg
  import opened Measurement
  import opened Fusion

  /** Applying the transition for `dt` advances each position by `dt` times
      its velocity and leaves the velocities alone */
  lemma TransitionMotion(f: Matrix, dt: real, x: Vector)
    requires IsTransition(f, dt) && |x| == 4
    ensures MatVec(f, x) == [x[0] + dt * x[2], x[1] + dt * x[3], x[2], x[3]]
  {
    assert f[0][0] == 1.0 && f[0][1] == 0.0 && f[0][2] == dt && f[0][3] == 0.0;
    assert f[1][0] == 0.0 && f[1][1] == 1.0 && f[1][2] == 0.0 && f[1][3] == dt;
    assert f[2][0] == 0.0 && f[2][1] == 0.0 && f[2][2] == 1.0 && f[2][3] == 0.0;
    assert f[3][0] == 0.0 && f[3][1] == 0.0 && f[3][2] == 0.0 && f[3][3] == 1.0;
    Dot4(f[0], x);
    Dot4(f[1], x);
    Dot4(f[2], x);
    Dot4(f[3], x);
    var r := MatVec(f, x);
    assert r[0] == x[0] + dt * x[2] && r[1] == x[1] + dt * x[3] && r[2] == x[2] && r[3] == x[3];
  }

  /** The transition over a zero interval is the identity */
  lemma TransitionAtZeroIsIdentity(f: Matrix)
    requires IsTransition(f, 0.0)
    ensures f == Identity(4)
  {
    MatrixExtensionality(f, Identity(4), 4, 4);
  }

  /** A later measurement with the same timestamp as the previous one makes
      the controller predict with the identity transition and zero noise */
  lemma ZeroIntervalIsStationary(s: FusionEkf, m: MeasurementPackage, ext: Externals, d: real)
    requires s.isInitialized && IsTransition(s.ekf.F, d)
    requires m.timestamp == s.previousTimestamp
    ensures var r := ProcessMeasurement(s, m, ext);
            && r.next.ekf.F == Identity(4)
            && r.next.ekf.Q == Zero(4, 4)
            && r.calls[0] == PredictCall(Identity(4), Zero(4, 4))
  {
    var r := ProcessMeasurement(s, m, ext);
    TransitionAtZeroIsIdentity(r.next.ekf.F);
  }

  /** How a unit acceleration on each axis, held for `dt` seconds, moves the
    state: half `dt` squared into position and `dt` into velocity */
  function NoiseGain(dt: real): (g: Matrix)
    ensures IsMatrix(g, 4, 2)
  {
    [[dt * dt / 2.0, 0.0],
     [0.0, dt * dt / 2.0],
     [dt, 0.0],
     [0.0, dt]]
  }

  /** The process noise written with `c = dt * dt / 2`: one 2-by-2 block per
      axis, interleaved */
  function NoiseBlocks(c: real, dt: real): (q: Matrix) {
    [[c * c * NoiseAx, 0.0, c * dt * NoiseAx, 0.0],
     [0.0, c * c * NoiseAy, 0.0, c * dt * NoiseAy],
     [c * dt * NoiseAx, 0.0, dt * dt * NoiseAx, 0.0],
     [0.0, c * dt * NoiseAy, 0.0, dt * dt * NoiseAy]]
  }

  lemma ProcessNoiseBlocks(dt: real)
    ensures ProcessNoise(dt) == NoiseBlocks(dt * dt / 2.0, dt)
  {
  }

  /** G * diag(ax, ay) with `c = dt * dt / 2` */
  function ScaledGain(c: real, dt: real): (m: Matrix) {
    [[c * NoiseAx, 0.0], [0.0, c * NoiseAy], [dt * NoiseAx, 0.0], [0.0, dt * NoiseAy]]
  }

  lemma ScaledGainProduct(dt: real)
    ensures MatMul(NoiseGain(dt), Diagonal([NoiseAx, NoiseAy]), 2) == ScaledGain(dt * dt / 2.0, dt)
  {
    var g := NoiseGain(dt);
    var d := Diagonal([NoiseAx, NoiseAy]);
    var gq := MatMul(g, d, 2);
    assert Column(d, 0) == [NoiseAx, 0.0];
    assert Column(d, 1) == [0.0, NoiseAy];
    forall i | 0 <= i < 4
      ensures gq[i] == [g[i][0] * NoiseAx, g[i][1] * NoiseAy]
    {
      Dot2(g[i], Column(d, 0));
      Dot2(g[i], Column(d, 1));
    }
    MatrixExtensionality(gq, ScaledGain(dt * dt / 2.0, dt), 4, 2);
  }

  /** G^T with `c = dt * dt / 2` */
  function GainTranspose(c: real, dt: real): (t: Matrix) {
    [[c, 0.0, dt, 0.0], [0.0, c, 0.0, dt]]
  }

  /** Row `i` of the product of an n-by-2 and a 2-by-4 matrix */
  lemma MatMulRow2(a: Matrix, b: Matrix, i: nat)
    requires IsMatrix(a, |a|, 2) && IsMatrix(b, 2, 4) && i < |a|
    ensures forall j :: 0 <= j < 4 ==> MatMul(a, b, 4)[i][j] == a[i][0] * b[0][j] + a[i][1] * b[1][j]
  {
    var p := MatMul(a, b, 4);
    forall j | 0 <= j < 4
      ensures p[i][j] == a[i][0] * b[0][j] + a[i][1] * b[1][j]
    {
      Dot2(a[i], Column(b, j));
    }
  }

  lemma BlockProduct(c: real, dt: real)
    ensures MatMul(ScaledGain(c, dt), GainTranspose(c, dt), 4) == NoiseBlocks(c, dt)
  {
    var a := ScaledGain(c, dt);
    var b := GainTranspose(c, dt);
    var p := MatMul(a, b, 4);
    var q := NoiseBlocks(c, dt);
    MatMulRow2(a, b, 0);
    MatMulRow2(a, b, 1);
    MatMulRow2(a, b, 2);
    MatMulRow2(a, b, 3);
    assert p[0][0] == q[0][0] && p[0][1] == q[0][1] && p[0][2] == q[0][2] && p[0][3] == q[0][3];
    assert p[0] == q[0];
    assert p[1][0] == q[1][0] && p[1][1] == q[1][1] && p[1][2] == q[1][2] && p[1][3] == q[1][3];
    assert p[1] == q[1];
    assert p[2][0] == q[2][0] && p[2][1] == q[2][1] && p[2][2] == q[2][2] && p[2][3] == q[2][3];
    assert p[2] == q[2];
    assert p[3][0] == q[3][0] && p[3][1] == q[3][1] && p[3][2] == q[3][2] && p[3][3] == q[3][3];
    assert p[3] == q[3];
  }

  /** The process noise equals G * diag(ax, ay) * G^T for the gain G above:
      the standard discretisation of a white random acceleration */
  lemma ProcessNoiseFactorization(dt: real)
    ensures ProcessNoise(dt)
            == MatMul(MatMul(NoiseGain(dt), Diagonal([NoiseAx, NoiseAy]), 2), Transpose(NoiseGain(dt), 2), 4)
  {
    var c := dt * dt / 2.0;
    ScaledGainProduct(dt);
    MatrixExtensionality(Transpose(NoiseGain(dt), 2), GainTranspose(c, dt), 2, 4);
    BlockProduct(c, dt);
    ProcessNoiseBlocks(dt);
  }

  /** Each axis block of the process noise, rows and columns (i, i + 2), has
      a zero determinant and, by the contract of `ProcessNoise`, a
      non-negative diagonal: it is a rank-one positive semidefinite block,
      the covariance of a single random acceleration */
  lemma ProcessNoiseAxisBlocksRankOne(dt: real)
    ensures var q := ProcessNoise(dt);
            && q[0][0] * q[2][2] == q[0][2] * q[2][0]
            && q[1][1] * q[3][3] == q[1][3] * q[3][1]
  {
  }
}
