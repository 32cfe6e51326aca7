# FusionEKF controller, modelled in Dafny

This project models the per-measurement driver of a sensor-fusion Extended
Kalman Filter: the `FusionEKF` class. The filter tracks one object's position
and velocity, `x = (px, py, vx, vy)`, from two sensors. A laser reports
Cartesian position `(px, py)`. A radar reports range, bearing and range rate.

`FusionEKF` holds:
- the initialisation flag and the previous timestamp;
- the fixed sensor constants: laser noise `R_laser_`, radar noise `R_radar_`,
  laser observation matrix `H_laser_`, and the placeholder `Hj_`;
- a Kalman filter object with fields `x`, `P`, `F`, `Q`, `H` and `R`.

For each measurement the controller does one of two things.
- On the first measurement it initialises `x` and the timestamp, and returns.
- On every later measurement it:
  1. converts the timestamp gap from microseconds to seconds;
  2. writes that interval into the transition matrix `F`;
  3. rebuilds the process noise `Q`;
  4. calls the filter's predict;
  5. updates through the radar model (Jacobian, radar noise, extended update)
     or, for every other sensor tag, the laser model (fixed `H`, laser noise,
     linear update).

The model is functional. The controller is an immutable record (`Fusion.FusionEkf`).
`Fusion.ProcessMeasurement` is a pure step that returns the next record and the
calls it made into outside code, in order. Matrices are sequences of rows of
`real`s (`LinAlg`).

The numerical kernels are supplied as function values, not defined here:
- predict, update and extended update (`Kalman.Kernels`);
- the radar Jacobian;
- `cos` and `sin`.

Each kernel receives exactly the filter fields it reads and returns a new `x`
and `P`. Kalman filter and Jacobian bodies are not part of this model. The model
therefore proves the controller's sequencing and its matrix shapes, whatever the
kernels compute.

Modules:
- `LinAlg` (`linalg.dfy`): vectors, matrices, products, transpose, and the
  diagonal, identity and zero matrices.
- `Measurement` (`measurement.dfy`): the measurement package and sensor tag.
- `Kalman` (`kalman_filter.dfy`): the filter record and the kernel interface.
- `Fusion` (`fusion_ekf.dfy`): the controller. It holds the constructor, the
  first-measurement state, the interval, the retimed `F`, the process noise and
  the step function.
- `FusionProperties` (`fusion_properties.dfy`): what `F` and `Q` mean.
  - `F` moves position along velocity.
  - `Q` factors as `G·diag(ax, ay)·Gᵀ`, and each axis block of `Q` is rank one.
- `Track` (`fusion_run.dfy`): the controller fed a sequence of measurements.
  - The calls follow the predict/update protocol.
  - There are n − 1 predicts for n measurements.
  - The predicted intervals add up to the timestamp span.
  - The shape of `F` is kept.

## Model

| member | source | states |
|---|---|---|
| Kalman.Empty | src/FusionEKF.cpp:14 | The filter object as default-constructed before the constructor body runs: x, P, F, Q, H and R are all empty. |
| Kalman.Predict | src/FusionEKF.cpp:128 | The filter's predict keeps F, Q, H and R. Its new x and P are what the predict kernel gives for the current x, P, F and Q. |
| Kalman.UpdateEkf | src/FusionEKF.cpp:139 | The filter's extended update with measurement z keeps F, Q, H and R. Its new x and P are what the extended-update kernel gives for the current x, P, H, R and z. |
| Kalman.Update | src/FusionEKF.cpp:144 | The filter's linear update with measurement z keeps F, Q, H and R. Its new x and P are what the update kernel gives for the current x, P, H, R and z. |
| Fusion.Create | src/FusionEKF.cpp:14-54 | A new controller is uninitialised, with previous timestamp 0. R_laser is diag(0.0225, 0.0225) and R_radar is diag(0.09, 0.0009, 0.09). H_laser is 2×4 and Hj is 3×4. P is diag(1, 1, 1000, 1000). F is the constant-velocity transition over one second. x, Q, H and R are still empty. |
| Fusion.LaserObservesPosition | src/FusionEKF.cpp:35-36 | The constructed laser observation matrix maps any state (px, py, vx, vy) to (px, py). |
| Fusion.InitialState | src/FusionEKF.cpp:75-93 | The first state always has four components. A laser reading gives position (z0, z1). Laser and radar readings both give zero velocity, so the radar range rate is discarded. Any other tag leaves the placeholder (1, 1, 1, 1). |
| Fusion.LaserInitRoundTrip | src/FusionEKF.cpp:88-93 | Observing the state initialised from a laser reading through H_laser gives back exactly that reading. |
| Fusion.RadarInitRange | src/FusionEKF.cpp:78-87 | A state initialised from a radar reading lies at distance `range` from the sensor (px² + py² = ρ²), assuming only that cos² + sin² = 1 at the bearing. |
| Fusion.RadarInitPolarRoundTrip | src/FusionEKF.cpp:78-87 | The inverse polar conversion of a radar-initialised position gives back the reading. Projecting the position on the bearing's direction (cos φ, sin φ) gives ρ, and projecting it on the normal gives 0. So the object sits at the reported bearing, not merely at the reported range. This assumes only that cos² + sin² = 1 at φ. |
| Fusion.ElapsedSeconds | src/FusionEKF.cpp:106 | The interval times 10⁶ equals the timestamp difference. It is non-positive exactly when the new timestamp is not later, and zero exactly when the timestamps are equal. No guard is applied. |
| Fusion.RetimeTransition | src/FusionEKF.cpp:109-110 | Entries (0,2) and (1,3) become dt and every other entry of F keeps its value. A constant-velocity transition for any interval becomes the transition for dt. |
| Fusion.ProcessNoise | src/FusionEKF.cpp:113-122 | Q is a symmetric 4×4 matrix. Its cross-axis entries (different parity of row and column) are zero. Its diagonal is non-negative. It is the zero matrix when dt = 0. |
| Fusion.ProcessMeasurement | src/FusionEKF.cpp:72-145 | After every call the controller is initialised, the previous timestamp is the measurement's, and the constants are unchanged. The first call makes no kernel calls and changes only x. A later call sets F to F retimed by dt = (t − t_prev)/10⁶ and Q to the process noise for dt. It then calls predict once, first, with those F and Q. On radar it takes the Jacobian at the predicted x, sets H to it and R to R_radar, and runs the extended update. Otherwise it sets H to H_laser and R to R_laser and runs the linear update. The new x and P are the update's result. |
| FusionProperties.TransitionMotion | src/FusionEKF.cpp:49-54 | F·x = (px + dt·vx, py + dt·vy, vx, vy) for the transition over dt. |
| FusionProperties.TransitionAtZeroIsIdentity | src/FusionEKF.cpp:109-110 | The transition over a zero interval is the 4×4 identity. |
| FusionProperties.ZeroIntervalIsStationary | src/FusionEKF.cpp:106-128 | A measurement stamped at the same time as the previous one makes the controller predict with F = I and Q = 0. |
| FusionProperties.ProcessNoiseFactorization | src/FusionEKF.cpp:113-122 | Q(dt) = G·diag(ax, ay)·Gᵀ with G = [[dt²/2, 0], [0, dt²/2], [dt, 0], [0, dt]]. This is the discretised white random acceleration. It fixes every entry: dt⁴/4·a on position, dt³/2·a on position-velocity, dt²·a on velocity. |
| FusionProperties.ProcessNoiseAxisBlocksRankOne | src/FusionEKF.cpp:113-122 | Each axis block of Q, rows and columns (i, i+2), has determinant zero. With the non-negative diagonal from `Fusion.ProcessNoise`, each block is a rank-one covariance: one random acceleration drives both the position and the velocity of its axis. |
| Track.Run | src/FusionEKF.cpp:95-107 | After any non-empty run the controller is initialised and holds the last measurement's timestamp. An empty run changes nothing. The constants never change and F stays 4×4. |
| Track.RunFollowsProtocol | src/FusionEKF.cpp:128-145 | The call trace of any run splits into whole cycles. Each cycle is predict then update, or predict then Jacobian then extended update. |
| Track.RunPredictCount | src/FusionEKF.cpp:95-128 | A run of n measurements from a new controller calls predict exactly n − 1 times. |
| Track.RunElapsed | src/FusionEKF.cpp:106-110 | The intervals of all predict calls in a run sum to (last timestamp − first timestamp)/10⁶ seconds, whatever the order of the timestamps. |
| Track.RunTransition | src/FusionEKF.cpp:49-110 | After a run from a new controller, F is the transition over the interval between the last two measurements. After a single measurement it is the transition over one second. |
| Track.TwoLaserReadings | src/FusionEKF.cpp:106-144 | Two laser readings 100000 µs apart, (1, 1) then (1.1, 1), lead to exactly two calls. The first is one predict with the transition over 0.1 s and the process noise for 0.1 s. The second is one linear update with (1.1, 1), H_laser and R_laser. |
| Track.FirstMeasurementKeepsCovariance | src/FusionEKF.cpp:43-47 | After only the first measurement, P still has its constructed value diag(1, 1, 1000, 1000). |

## Left out

- Floating point is left out. The source stores `dt`, its powers and the noise
  intensities as `float`, and the matrices as `double`. The model uses exact
  reals. The constants 0.0225, 0.09 and 0.0009 are their decimal values, not
  their nearest binary ones.
- 64-bit overflow of the timestamp difference is left out. Timestamps are
  unbounded integers.
- The bodies of predict, update and extended update are left out. The Kalman
  filter source is not part of this model. Each kernel is a function value of
  the fields it reads. The model assumes that the kernels write only `x` and
  `P`.
- The radar Jacobian's body is left out, because the tools source is not part
  of this model. It is a function value of the predicted state. The
  near-origin singularity and any fault it raises are also left out.
- `cos` and `sin` are function values. `Fusion.RadarInitRange` assumes the
  Pythagorean identity only at the bearing it uses.
- Console output of the state and covariance is I/O and is left out.
- The sensor tag enumeration is declared in a header that is not part of this
  model. `Other` stands for any further tag value. On the first measurement it
  leaves x = (1, 1, 1, 1). Later, it takes the laser path, which is the `else`
  branch.
- Fusion.ProcessMeasurement requires `F` to be 4×4, which holds from
  construction (`Track.Run` keeps it). On the first call it also requires the
  raw vector to be long enough for the components read: 3 for radar, including
  the unused range rate, and 2 for laser. The source indexes without checking.
  Eigen treats an out-of-range index as undefined.
- This file does none of the following checks, and neither does the model:
  - no bearing-residual wrapping;
  - no singular-matrix or Jacobian-singularity detection;
  - no rejection of malformed measurements;
  - no defined policy for a zero or negative interval.
  The `dt > 0.0001` guard around predict is commented out in the source. So
  predict runs for every interval, including negative ones
  (`Fusion.ElapsedSeconds`, `FusionProperties.ZeroIntervalIsStationary`).
- The destructor does nothing and is not modelled.
