# pid-go controllers in Dafny

A model of the two controllers of the Go package `pid`:

- `Controller` (module `Pid`, `controller.dfy`): a basic PID controller. `Update`
  ignores non-finite signals. Otherwise it computes the control error and its
  derivative over the sampling interval. It integrates the error subject to a
  timeout / first-call rule, combines the three terms into `ControlSignal`, and
  stamps `LastUpdateTime`. `Reset` restores the zero state.
- `TrackingController` (module `TrackingPid`, `tracking_controller.dfy`): a PIDT1
  controller with feed-forward, output clamping and anti-windup by tracking mode
  (chapter 6 of Åström and Murray, *Feedback Systems*, 2008). `Update` computes
  the P, I, low-pass filtered D and feed-forward parts from the old state. It
  stores the five state variables and returns the unsaturated output clamped to
  `[MinOutput, MaxOutput]`. `Reset` zeroes the state and `GetState` reads it.
- `Durations` (`durations.dfy`): Go's `time.Duration` as integer nanoseconds,
  with `Seconds()` as exact division by 10^9.

Each controller is a class whose fields match the Go struct. Its methods update
the state field in place, in the order the Go code writes it. Each `Update` is
proved equal to a pure function `Next` of the old state; each `Reset` is proved
to give the zero state and keep the configuration. The
properties are stated on `Next`, on `Clamp`, and in lemmas about `Run`, which
folds `Next` over a sequence of calls, as a control loop would make them.

Modelling choices:

- Numbers are `real`. For the basic controller, a `float64` input is
  `Float = Finite(value) | NaN | Inf(positive)`, which is exactly what
  `math.IsNaN` / `math.IsInf` distinguish.
- The clock is a parameter. `Controller.Update` takes `interval`
  (`time.Since(LastUpdateTime)`) and `now` (`time.Now()` at the end of the
  call). `LastUpdateTime` is an `int` in which 0 is Go's zero `time.Time`.
- On the first call after construction or `Reset`, `time.Since` of the zero
  time saturates to the largest `Duration`. `FirstUpdateHoldsIntegral` takes
  that value (`MaxDuration`) as the interval.
- A reading of tracking mode in which `eI` uses the `uV` just computed would
  differ from the code. The code writes `eI` (trackingcontroller.go:64) before
  `uV` (trackingcontroller.go:67), so the old `uV` is used, and the model does
  the same. This is consistent when `actualInput` is what the actuator realised
  from the previous command: `TrackingRunFeedsRawError` and
  `TrackingRunIntegratesRawError` prove that reading.
- The field comment "MaxOutput is the max output from the PID"
  (trackingcontroller.go:31) suggests that the output never exceeds
  `MaxOutput`. `math.Max(Min, math.Min(Max, uV))` guarantees that only when
  `MinOutput <= MaxOutput`; the output is always `>= MinOutput`. The model
  follows the code (`Clamp`).

## Model

| member | source | states |
|---|---|---|
| `Durations.Seconds` | controller.go:59 | `Duration.Seconds()`: positive iff the duration is, zero iff it is, and exactly ns / 10^9 |
| `Pid.Next` | controller.go:51-78 | non-finite reference or actual signal: the whole state is unchanged, timestamp included; otherwise error = reference − actual, derivative × interval = error − previous error, integral grows by error × interval exactly when interval < Timeout, or Timeout == 0 and LastUpdateTime is non-zero, and is held otherwise, signal = Kp·error + Ki·integral + Kd·derivative of the new fields, and `LastUpdateTime = now` |
| `Pid.Controller.constructor` | controller.go:9-14 | a controller literal holds the given config and (possibly seeded) state |
| `Pid.Controller.Update` | controller.go:51-78 | the in-place, field-by-field update leaves the state equal to `Next` of the old state, and the config unchanged |
| `Pid.Controller.Reset` | controller.go:81-83 | the state becomes `ControllerState{}` and the config is unchanged |
| `Pid.ResetIsIdempotent` | controller_test.go:132-158 | from any seeded state, one Reset and two Resets both give the zero state, and the config read back afterwards is the one the controller was built with |
| `Pid.RejectedRunKeepsState` | controller.go:53-56 | any run of calls with a NaN or infinite signal leaves the whole state, `LastUpdateTime` included, unchanged |
| `Pid.TimedOutRunFreezesIntegral` | controller.go:65-70 | with a positive timeout, calls whose interval reaches the timeout never change the integral |
| `Pid.EqualSignalsStayQuiescent` | controller.go:60-74 | from zero error terms, calls with equal reference and actual signals keep error, integral, derivative and signal at zero |
| `Pid.StampedRunKeepsIntegrating` | controller.go:65-76 | without a timeout, once the timestamp is set every later call leaves it non-zero, so every later accepted update integrates |
| `Pid.FirstUpdateHoldsIntegral` | controller.go:58-70 | on the first call (zero timestamp, saturated interval) the integral is held for every int64 timeout, zero included |
| `Pid.EqualSignalsFromZero` | controller_test.go:114-130 | equal signals on the zero state give error 0 and signal 0 |
| `Pid.TimeoutScenario` | controller_test.go:42-64 | gains 2/1/1, timeout 1 s, last update 2 s ago, reference 10, actual 0: error 10, integral frozen at 0, signal 25 |
| `Pid.NoTimeoutScenario` | controller_test.go:66-89 | gains 2/1/1, no timeout, 100 ms interval, reference 10, actual 0: error 10, integral 1, derivative 100, signal 121 |
| `TrackingPid.Clamp` | trackingcontroller.go:69 | result ≥ lo; ≤ hi when lo ≤ hi; equal to x when x is within [lo, hi]; lo below the range or when the limits cross, hi above it |
| `TrackingPid.Next` | trackingcontroller.go:51-70 | e = target − actual; uI = old eI·Ki·dt + old uI; uD·(dt/τ + 1) = (Kd/τ)(e − old e) + old uD; uV = e·Kp + uI + uD + ff, unsaturated; eI = e + Kaw·(actualInput − OLD uV), so eI = e when actualInput equals the old uV |
| `TrackingPid.TrackingController.constructor` | trackingcontroller.go:20-37 | a controller literal holds the given gains and limits and the zero state |
| `TrackingPid.TrackingController.Update` | trackingcontroller.go:51-70 | the new state is `Next` of the old state, the output is `Clamp(uV, Min, Max)` (≥ Min, ≤ Max when Min ≤ Max), and gains and limits are unchanged |
| `TrackingPid.TrackingController.Reset` | trackingcontroller.go:47-49 | all five state variables become 0; gains and limits are unchanged |
| `TrackingPid.TrackingController.GetState` | trackingcontroller.go:72-74 | returns the current state and changes nothing |
| `TrackingPid.QuiescentFromZero` | trackingcontroller.go:58-69 | zero state, target = actual, no feed-forward: e = 0, uV = 0, and output 0 when Min ≤ 0 ≤ Max |
| `TrackingPid.RestingRunStaysZero` | trackingcontroller.go:58-68 | with target = actual, no feed-forward and actual input 0, the zero state is kept call after call |
| `TrackingPid.TrackingRunFeedsRawError` | trackingcontroller.go:58-67 | when every actual input equals the previously stored uV (the actuator realises each command), after any non-empty run eI = e = the last call's target − actual |
| `TrackingPid.TrackingRunIntegratesRawError` | trackingcontroller.go:58-67 | under the same tracking, uI after a run is the starting uI, plus the starting eI × Ki × the first dt, plus the forward-Euler sum of each call's raw error × Ki × the next call's dt: the integrator sees only the raw error (bumpless transfer) |
| `TrackingPid.ResetIsIdempotent` | trackingcontroller.go:47-49 | after any update, one Reset and two Resets both give the zero state, and the gains and limits read back afterwards are the ones the controller was built with |

## Left out

- The wall clock (`time.Since`, `time.Now`). The elapsed interval and the timestamp are parameters of `Pid.Controller.Update`.
- `Pid.Next`: requires `interval != 0`. The derivative divides by the interval, and a zero interval gives an infinite or NaN derivative in IEEE arithmetic, which `real` cannot express. Negative intervals (a seeded `LastUpdateTime` without a monotonic reading and a wall clock that stepped back) are modelled: `interval < Timeout` then holds for any `Timeout >= 0`, and the integral grows by a negative amount, as in Go.
- `TrackingPid.Next`: requires `LowPassTimeConstant > 0` and `dt >= 0`, so that the filter divisions are defined. The Go code does not check either.
- IEEE-754 behaviour: rounding, NaN and infinity propagation in the tracking controller (which has no input guard), and the handling of ±0 and NaN by `math.Max` and `math.Min`.
- `int64` wrap-around of durations and timestamps. Durations are unbounded integers, apart from `MaxDuration` as the saturated first-call interval.
- The derivative on the first call after construction or `Reset` (a division by the saturated interval) has no property stated about it.
- Convergence of the anti-windup scheme under sustained saturation is not proved. It depends on the gains, and the code gives no bound to prove.
- The example program (printing only) and the sleep-based timing of the tests. The test scenarios appear as lemmas with exact intervals.
