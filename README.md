# PID feedback controller — Dafny model

This project models the PID controller of the robot's motion-control stack
(`src/autonomous/pid.cpp`). The controller is built with fixed gains `kp`,
`ki` and `kd`, output bounds `minimum_output` and `maximum_output`, and an
integral discount `gamma`. It remembers a target, a discounted integral and
the last error. `set_target` picks a new target and clears the history.
`reset` clears the history and keeps the target. `calculate` runs one
control step against a measured value. It takes the derivative as the error
minus the previous last error, then updates the integral and the last error,
and returns `kp·error + ki·(updated integral) + kd·derivative`.
Before returning, it clamps the magnitude of that value into the output
bounds and keeps its sign.

Arithmetic is over `real`, not IEEE doubles.

Files:

- `pid_math.dfy`, module `PidMath`. It holds the controller's arithmetic as
  functions over values:
  - `Config` and `Memory` are the fixed parameters and the changing state.
  - `Diagnose` is the constructor's three checks.
  - `ClampOutput` is the output shaping.
  - `Advance` and `Output` give the effect and the result of one `calculate`.
  - `Run` and `Outputs` chain calls to `calculate`.
  - The lemmas state what a sequence of calls amounts to.
- `pid.dfy`, module `Pid`. It holds the class `PID`, whose fields are updated
  in place by `SetTarget`, `Reset` and `Calculate`. Each method is specified
  by the functions of `PidMath`. `Calculate` rewrites its output step by step
  through the same negate, cap, raise and negate sequence as the source. It is
  proved equal to the declarative `ClampOutput`.

Where this model follows the code rather than the design intent:

- **Invalid configuration is accepted.** The constructor only writes a
  message and returns, and the object keeps the supplied values. The model
  records which message was written in the ghost field `logged`. Nothing is
  rejected.
- **A raw output of zero is not returned as zero.** Zero counts as
  non-negative, so with `minimum_output ≥ 0` it comes back as
  `+minimum_output`.
- **Negative bounds are accepted.** The magnitude bound holds only when
  `maximum_output ≥ 0`. The checks accept ordered bounds that are both
  negative. `include/bot.hpp:65-66` documents the bounds as absolute values,
  so such bounds go against that documentation. With them, a positive raw
  output comes back negative, and its magnitude falls outside the bounds.
  `NegativeMaximumInvertsSign` proves this for every accepted configuration
  with a negative maximum, and `NegativeBoundsInvertSign` shows it on a
  concrete one.
- **The derivative is not divided by elapsed time.** It is the difference
  between this error and the previous one.

## Model

| member | source | states |
|---|---|---|
| `PidMath.Diagnose` | src/autonomous/pid.cpp:7-21 | Nothing is reported exactly when the bounds are ordered, all gains are non-negative and gamma is in [0, 1]. The bounds check takes precedence over the others. A gamma complaint implies the gains passed. |
| `PidMath.ClampOutput` | src/autonomous/pid.cpp:39-50 | With ordered bounds and a non-negative maximum, the magnitude lies in [minimum, maximum]. A magnitude below a non-negative minimum comes back as exactly ±minimum, with the sign of the raw value. With reversed bounds, the result is ±minimum with the sign of the raw value. With ordered bounds that are both negative, the result is ±maximum with the opposite sign. The sign of the raw value is kept unless both bounds are negative. With a non-negative minimum, a raw value of zero gives +minimum. A value already inside the bounds passes unchanged. With ordered bounds, a value beyond the maximum saturates at it. |
| `PidMath.Outputs` | src/autonomous/pid.cpp:30-50 | A run of calls produces one output per measured value. With ordered bounds and a non-negative maximum, every output's magnitude lies in [minimum, maximum], whatever the history. |
| `PidMath.RunKeepsTarget` | src/autonomous/pid.cpp:30-35 | No number of `calculate` calls changes the target. |
| `PidMath.RunLastError` | src/autonomous/pid.cpp:31-35 | After a non-empty run, the last error is the target minus the last measured value. |
| `PidMath.RunIntegral` | src/autonomous/pid.cpp:33-34 | After a run, the integral is a discounted sum. The starting integral is its oldest entry, followed by the errors seen. Each entry is multiplied by gamma once per later call. |
| `PidMath.IntegralBounded` | src/autonomous/pid.cpp:33-34 | Take gamma < 1 and every error at most B in magnitude. An integral that starts within B/(1 − gamma) stays within it for any number of calls, so windup is limited. |
| `PidMath.FreshTarget` | src/autonomous/pid.cpp:24-37 | Right after `set_target(t)`, `calculate(v)` returns the clamp of (kp + ki + kd)·(t − v). |
| `PidMath.ClearedIdempotent` | src/autonomous/pid.cpp:53-56 | Resetting twice leaves the same state as resetting once. A reset keeps the target. |
| `PidMath.NegativeMaximumInvertsSign` | src/autonomous/pid.cpp:7-50 | For every configuration the checks accept whose maximum is negative, from any state and for any measurement, a non-negative raw output is returned as a negative value and a negative raw output as a positive one. |
| `PidMath.NegativeBoundsInvertSign` | src/autonomous/pid.cpp:7-50 | The checks accept kp = 1, ki = kd = 0, bounds [−3, −2] and gamma = 0.5. With that configuration, a raw output of 5 is returned as −2: the sign is flipped and the magnitude 2 is outside [−3, −2]. |
| `Pid.PID.constructor` | src/autonomous/pid.cpp:3-22 | The parameters are stored as given, even when invalid. The integral and the last error are 0. The logged diagnostic is the first failing check. The target is left unassigned. |
| `Pid.PID.SetTarget` | src/autonomous/pid.cpp:24-28 | The target becomes t, and the integral and the last error become 0. The configuration is unchanged. |
| `Pid.PID.Reset` | src/autonomous/pid.cpp:53-56 | The integral and the last error become 0. The target and the configuration are unchanged. |
| `Pid.PID.Calculate` | src/autonomous/pid.cpp:30-51 | The last error becomes target − value. The integral becomes old integral · gamma + error. The target and the configuration are unchanged. The result is the sign-preserving clamp of kp·error + ki·new integral + kd·(error − old last error). |
| `Pid.RetargetForgetsHistory` | src/autonomous/pid.cpp:24-37 | Take two controllers with the same configuration and any histories. Once both get the same target, they return the same output for the same measurement. That output is the one a controller with zero integral and zero last error returns; `FreshTarget` gives its value. |

## Left out

- The error-stream messages of the constructor are not modelled, only which check failed (ghost field `logged`).
- IEEE-754 behaviour (NaN and infinite inputs, rounding) is not modelled. The arithmetic is over `real`.
- The constructor never assigns `target` (src/autonomous/pid.cpp:3-6); any default its declaration might give lives in a header that is not part of this model. In the model, the constructor leaves the field arbitrary, and `Calculate` uses whatever value it has.
- The header `autonomous/pid.hpp`, with the class declaration and field types, is not part of this model. The configuration fields are taken from the constructor's initialiser list (src/autonomous/pid.cpp:3-5). `target`, `integral` and `last_error` are taken from the assignments in `set_target`, `calculate` and `reset` (src/autonomous/pid.cpp:25-27, 33-35, 54-55).
- `src/main.cpp` is not modelled: the side-selection debounce loop, the joystick-to-motor task, the pneumatic toggle, competition registration and `linear_throttling`. It is hardware and teleoperation glue over device calls.
- The `BotBase` motion primitives (`follow_path`, `turn_to`, `turn`, `forward`) in `include/bot.hpp` are not modelled. They are control loops that drive motors until a tolerance is reached, reading a pose written by a background odometry thread; their point is hardware and concurrency. Their source files are not part of this model.
- The path queries in `include/pathing/path.hpp` (`get_segment`, `distance_to_end`, `closest_point`) and the spline fitting are not modelled. They are floating-point geometry outside the controller, and their source files are not part of this model.
- Odometry, pure pursuit and the motor abstraction are not part of this model.
