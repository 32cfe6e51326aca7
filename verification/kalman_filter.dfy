/** The Kalman filter object the fusion controller drives. Its numerical
    kernels (the predict and update recurrences) are supplied from outside as
    function values: the model fixes which fields each kernel reads and
    writes, not what it computes. */
module Kalman {
  import opened LinAlg

  /** The filter's fields: state `x`, state covariance `P`, transition `F`,
      process noise `Q`, observation matrix `H`, measurement noise `R`. */
  datatype Filter = Filter(x: Vector, P: Matrix, F: Matrix, Q: Matrix, H: Matrix, R: Matrix)

  /** What a kernel produces: a new state and covariance */
  datatype Estimate = Estimate(x: Vector, P: Matrix)

  /** The three kernels, each a function of the fields it reads:
      predict(x, P, F, Q), update(x, P, H, R, z), updateEkf(x, P, H, R, z). */
  datatype Kernels = Kernels(
    predict: (Vector, Matrix, Matrix, Matrix) -> Estimate,
    update: (Vector, Matrix, Matrix, Matrix, Vector) -> Estimate,
    updateEkf: (Vector, Matrix, Matrix, Matrix, Vector) -> Estimate)

  /** A default-constructed filter: every Eigen member is empty */
  function Empty(): (f: Filter)
    ensures |f.x| == 0 && |f.P| == 0 && |f.F| == 0 && |f.Q| == 0 && |f.H| == 0 && |f.R| == 0
  {
    Filter([], [], [], [], [], [])
  }

  /** Predict: overwrites `x` and `P` from the current `F` and `Q` */
  function Predict(f: Filter, k: Kernels): (r: Filter)
    ensures r.F == f.F && r.Q == f.Q && r.H == f.H && r.R == f.R
    ensures Estimate(r.x, r.P) == k.predict(f.x, f.P, f.F, f.Q)
  {
    var e := k.predict(f.x, f.P, f.F, f.Q);
    f.(x := e.x, P := e.P)
  }

  /** Linear update with measurement `z`: overwrites `x` and `P` */
  function Update(f: Filter, z: Vector, k: Kernels): (r: Filter)
    ensures r.F == f.F && r.Q == f.Q && r.H == f.H && r.R == f.R
    ensures Estimate(r.x, r.P) == k.update(f.x, f.P, f.H, f.R, z)
  {
    var e := k.update(f.x, f.P, f.H, f.R, z);
    f.(x := e.x, P := e.P)
  }

  /** Extended update with measurement `z`: overwrites `x` and `P` */
  function UpdateEkf(f: Filter, z: Vector, k: Kernels): (r: Filter)
    ensures r.F == f.F && r.Q == f.Q && r.H == f.H && r.R == f.R
    ensures Estimate(r.x, r.P) == k.updateEkf(f.x, f.P, f.H, f.R, z)
  {
    var e := k.updateEkf(f.x, f.P, f.H, f.R, z);
    f.(x := e.x, P := e.P)
  }
}
