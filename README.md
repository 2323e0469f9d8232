# Vehicle dynamics simulator: evaluator and trajectory integrator

This project models the numeric core of `projeto.py`, a small vehicle-dynamics simulator:

- **State evaluator** `calcular_parametros` (module `Vehicle`): a pure map from speed, steering-wheel angle and longitudinal acceleration to a dynamics record. The record holds the turn radius, lateral acceleration, yaw rate in rad/s and deg/s, speed, slip angle and the four wheel loads.
- **Trajectory integrator** `simular_trajeto` (modules `SteeringProfile` and `Trajectory`): three fixed-step forward-Euler runs. Each run calls the evaluator once per step and appends one sample per step. A selector string picks the run.
  - A drives straight for 100 steps, accelerating to 60 km/h.
  - B locks the steering wheel at -100 degrees and accelerates until 60 km/h.
  - C holds 20 km/h while the steering wheel ramps through 0, -150, 0, 150, 0 degrees.

Arithmetic is exact, over `real`. The host's `tan`, `atan`, `cos` and `sin` are not modelled. They arrive as the fields of a `Trig` value, and lemmas that need a fact about them state it as a requirement, e.g. `atan(0) == 0`.

Python raises `ZeroDivisionError` when a float is divided by zero. The model turns each of those divisions into the result `Err(ZeroDivision)`:
- the radius `L / tan(delta_rad)`;
- the yaw-rate denominator.

Each loop is proved against a recursive specification function: `RunA`, `RunB` or `RunC` gives the integrator's state after k steps. The loop invariant says the loop's variables are exactly that state. Lemmas then prove what the source promises about those states.

Points where the model follows the code exactly, and a reader might expect otherwise:
- The evaluator has no guard against its two divisions by zero. The model returns `Err` and proves exactly when that happens.
- The lateral-transfer divisor is the separate constant `Lr = 1.2` (projeto.py:8), not an axle-to-centre-of-gravity distance (`a1 = a2 = 1.4`).
- The selector is case-sensitive. Upper-casing the input happens at module level (projeto.py:416), outside `simular_trajeto`, so the model takes the selector as given.
- `simular_trajeto` re-declares `L = 2.8` and `steering_ratio = 20` (projeto.py:72-73). They have the evaluator's values, and the model uses one constant for each.

The evaluator's radius test and the loops' radius test are deliberately not symmetric, and the model keeps them as written:
- the evaluator takes the infinite radius when `|delta_rad| < 1e-6`;
- the loops take a finite radius when `|delta_rad| > 1e-6`.

`Trajectory.ThresholdDisagreement` exhibits the angle at which they disagree. The model also keeps run A moving `y` with `vy_const`, and the slip angle using `a2`.

## Model

| member | source | states |
|---|---|---|
| `Vehicle.Evaluate` | projeto.py:5-69 | Fails exactly when one of two things holds: (a) the wheels are turned (at or above 1e-6 rad) onto a tangent of exactly 0; (b) a moving, turning vehicle has a yaw denominator of 0. On success it reports the input speed as speed and vx, and the input ax. The radius is infinite exactly when the road-wheel angle is below 1e-6 rad. |
| `Vehicle.TurnGeometry` | projeto.py:25-30 | On the finite branch the radius is non-zero, `R * tan(delta) == L` at any speed, and `ay * R == V^2`. |
| `Vehicle.StraightBranch` | projeto.py:25-30 | On the infinite-radius branch `ay`, the yaw rate and its degree value are 0. The slip angle is 0 whenever `atan(0) == 0`. |
| `Vehicle.YawAndSlip` | projeto.py:40-54 | At speed 0 the yaw rate, the slip angle and `ay` are 0. Moving and turning, `yaw_rate * denominator == V`. Its two further clauses, the degree conversion of the rate and the slip angle `degrees(atan(yaw_rate * a2 / V))`, are definitional: they restate lines 45 and 50-54. |
| `Vehicle.LoadTransfer` | projeto.py:19-35 | Each axle's inner and outer loads sum to that axle's load for every `ay`. They differ by twice the lateral-transfer term. |
| `Vehicle.AxleLoadsSumToWeight` | projeto.py:6-20 | Front plus rear axle load is `Mv * g` (and the axle masses sum to `Mv`) for every `ax`. |
| `Vehicle.WheelLoadsWithoutLateralTransfer` | projeto.py:32-38 | The four wheel loads sum to `Mv * g`. With `ay == 0` each wheel carries half its axle. |
| `Vehicle.StraightAhead` | projeto.py:25-54 | Steering angle 0 never fails at any speed. It gives an infinite radius, no `ay`, no yaw, no slip and equal loads per axle (given `atan(0) == 0`). |
| `Vehicle.StandingStill` | projeto.py:25-53 | At speed 0 the evaluator fails only on a vanishing tangent. Yaw, slip and `ay` are 0, and a turned wheel still gives the geometric radius `R * tan(delta) == L`. |
| `SteeringProfile.SegmentStepsExact` | projeto.py:301-303 | In exact arithmetic a ramp over d degrees at 5 deg/s and dt 0.1 takes `2 * d` steps. |
| `SteeringProfile.SegmentShape` | projeto.py:298-306 | One target pair gives twice the absolute difference of its targets as its number of angles, none when the targets are equal. The first angle is `start`, consecutive angles differ by `sign * rate * dt`, and all lie between `start` (inclusive) and `end` (exclusive). |
| `SteeringProfile.SegmentsLength` | projeto.py:297-306 | The ramps together have twice the targets' total variation as their length. |
| `SteeringProfile.RampProfileEnds` | projeto.py:297-307 | The profile has `2 * variation + 1` angles, and its last element is the last target. |
| `SteeringProfile.SweepProfileLength` | projeto.py:294-307 | For 0, -150, 0, 150, 0 the profile has `4 * 300 + 1` angles and ends at 0. |
| `SteeringProfile.BuildRampProfile` | projeto.py:294-307 | The nested loops build exactly `RampProfile(targets)`, the ramps of all consecutive pairs followed by the last target. |
| `Trajectory.LoopRadius` | projeto.py:100-102 | The loops' radius is infinite exactly when the road-wheel angle is at most 1e-6 rad. Otherwise it is non-zero with `R * tan(delta) == L`. |
| `Trajectory.ThresholdDisagreement` | projeto.py:25-28 | At a road-wheel angle of exactly 1e-6 rad the loops drive straight while the evaluator reports a finite radius. |
| `Trajectory.SpeedAfterBounds` | projeto.py:95-98 | The capped speed after k steps is non-decreasing in k and never above `V_max`. It equals `V_max` exactly from step 84 on, and 84 is `ceil(V_max / (ax * dt))`. |
| `Trajectory.SpeedStep` | projeto.py:95-98 | One pass of A's guarded speed update takes the speed after k steps to the speed after k + 1. |
| `Trajectory.LockedSpeedStep` | projeto.py:202-205 | While below the cap, B has steps left, and one pass of its update gives the speed after one more step, still within `[0, V_max]`. |
| `Trajectory.LockedSpeedReached` | projeto.py:202 | B's loop stops exactly after 84 passes, the least count whose speed reaches the cap. |
| `Trajectory.LockTurns` | projeto.py:189-191 | The -100 degree lock turns the road wheels by more than 1e-6 rad, so B always takes the finite radius. |
| `Trajectory.YawDenominatorPositive` | projeto.py:43 | For speeds in `[0, V_max]` and `ax` in `[0, 2]` the yaw-rate denominator is positive, so B and C never divide by zero there. |
| `Trajectory.LockEvaluationDefined` | projeto.py:212 | Every evaluator call of B succeeds once the lock's tangent is non-zero. |
| `Trajectory.StepKeepsRow` | projeto.py:110-122 | Appending a step leaves every earlier sample and heading unchanged. |
| `Trajectory.StepNewRow` | projeto.py:104-124 | A step on a consistent state appends the new Euler row built from the evaluator's record, keeps equal list lengths, and advances time by dt. |
| `Trajectory.VyIntegratesAy` | projeto.py:329-330 | If each sample's vy is one Euler step of its ay from the previous vy, then vy is the running forward-Euler integral of ay. |
| `Trajectory.StraightPass` | projeto.py:94-124 | One pass of A's loop body, from the state after k steps, gives the state after k + 1: time, position, heading, speed and the appended sample. |
| `Trajectory.StraightRun` | projeto.py:94-124 | After k steps of A there are k samples and headings, and the speed is the capped speed. Every sample i is an Euler row at the capped speed with steering 0, comes from the evaluator, and has heading 0, y 0 and vy 0. |
| `Trajectory.StraightMotionOf` | projeto.py:94-114 | A row of run A, an Euler row at the capped speed with heading 0 and y and vy 0, has time `i * dt`, vx equal to the capped speed and at most `V_max`, and x advanced along heading 0. |
| `Trajectory.StraightDynamicsOf` | projeto.py:108-122 | A sample that shows the evaluator's record at steering 0 and the capped speed has no `ay`, no yaw and equal inner and outer loads. |
| `Trajectory.StraightRunRows` | projeto.py:83-124 | After k steps of A, every sample shows straight, capped, yaw-free motion, and the heading and y are still 0. |
| `Trajectory.SimulateA` | projeto.py:85-124 | The loop returns exactly the complete run A, with one sample per profile entry (100). |
| `Trajectory.LockedPass` | projeto.py:202-228 | One pass of B's loop body, from the state after k steps, gives the state after k + 1. |
| `Trajectory.LockedRun` | projeto.py:202-228 | After k steps of B there are k samples, and the speed is the capped speed. Every sample is an Euler row at the capped speed and the locked angle, comes from the evaluator, and has vy 0. |
| `Trajectory.LockedRunSpeeds` | projeto.py:202-218 | B's samples: 84 of them, time `i * dt`, vy 0, vx equal to the capped speed and bounded by `V_max`. vx is non-decreasing, and the last sample reaches `V_max`. |
| `Trajectory.SimulateB` | projeto.py:188-228 | Succeeds exactly when the lock's tangent is non-zero and then returns the complete run B. Its length n is 84 and satisfies `(n-1) * ax * dt < V_max <= n * ax * dt`. |
| `Trajectory.SweepPass` | projeto.py:317-346 | One pass of C's loop body, from the state after k steps, gives the state after k + 1. |
| `Trajectory.SweepRun` | projeto.py:317-346 | After k steps of C there are k samples. Every sample is an Euler row at `v_const` and its profile angle, comes from the evaluator with `ax = 0`, and integrates its `ay` into vy. |
| `Trajectory.SweepRunLists` | projeto.py:317-346 | A completed run C has one sample per profile angle. Each has time `i * dt`, vx `v_const`, ax 0 and the evaluator's record at that angle. vy after k steps is the forward-Euler sum of the first k `ay * dt`. |
| `Trajectory.DriveProfile` | projeto.py:309-346 | C's loop over a profile succeeds exactly when no angle turns the wheels onto a vanishing tangent. It then returns the complete run over the profile, one sample per angle. |
| `Trajectory.SimulateC` | projeto.py:292-346 | Builds the ramp profile and drives it. It succeeds exactly when run C is drivable, and then returns the complete run C with `4 * 300 + 1` samples. |
| `Trajectory.SimulateTrajectory` | projeto.py:407-408 | An unknown selector simulates nothing, and only an unknown selector does. 'A', 'B' and 'C' give their complete runs with their lengths. B and C give `Failed(ZeroDivision)` exactly when their run is not defined. |

## Left out

- Plotting (projeto.py:126-182, 230-286, 348-404), the `print` banners (79, 186, 290, 408) and the console input (411-417): rendering and I/O. Only the selector string is a parameter.
- IEEE-754 floating point: values are exact reals. Rounding in `vx += ax*dt` and `t += dt` is not modelled, and neither is the float value of `int(duration / dt)`. Step counts such as 84 and 1201 hold in exact arithmetic.
- `math.radians` and `math.degrees` are the exact linear maps with pi written as `3.141592653589793`.
- The values of `tan`, `atan`, `cos` and `sin` are not modelled. They are parameters of every member, so positions under curvature are stated only as Euler steps of these functions.
- `np.sign` is an integer sign function.
- Python's `float('inf')` radius is the constructor `Inf` of a radius datatype.
- The evaluator's default argument `ax=2` is not modelled: every caller in the loops passes `ax` explicitly.
- The thirteen parallel output lists are one list of samples, one 13-field sample per step. Sample i's fields are entry i of the lists, so their equal length holds by construction.
- The heading of each step is not one of the output lists. The model keeps it as a ghost list beside the samples.
- SteeringProfile.BuildRampProfile: requires a non-empty target list. The source indexes `steering_targets[-1]`, which would fail on an empty list, and it only ever passes the fixed five targets.
