/** The basic PID controller of package pid: a configuration, a mutable state
    record, and an Update that advances the state by one sampling interval. */
module Pid {
  import opened Durations

  /** A float64 as far as the input guard can tell: a finite value, NaN, or an
      infinity of either sign. */
  datatype Float = Finite(value: real) | NaN | Inf(positive: bool)

  /** math.IsNaN(x) || math.IsInf(x, 0) is false. */
  predicate IsFinite(x: Float)
  {
    x.Finite?
  }

  /** Gains and the integral-freeze timeout (nanoseconds; 0 means none). */
  datatype ControllerConfig = ControllerConfig(
    proportionalGain: real,
    integralGain: real,
    derivativeGain: real,
    timeout: int)

  /** The controller's state. lastUpdateTime is a timestamp in nanoseconds
      where 0 stands for Go's zero time.Time ("never updated"). */
  datatype ControllerState = ControllerState(
    controlError: real,
    controlErrorIntegral: real,
    controlErrorDerivative: real,
    controlSignal: real,
    lastUpdateTime: int)

  datatype ControllerInput = ControllerInput(referenceSignal: Float, actualSignal: Float)

  /** ControllerState{}: every field at its zero value. */
  const ZeroState := ControllerState(0.0, 0.0, 0.0, 0.0, 0)

  /** Update changes nothing unless both signals are finite. */
  predicate Accepts(input: ControllerInput)
  {
    IsFinite(input.referenceSignal) && IsFinite(input.actualSignal)
  }

  /** The integral-freeze policy: the integral accumulates when the interval
      is shorter than the timeout, or when no timeout is configured and the
      controller has been updated before (Go reads `a || b && c` as
      `a || (b && c)`). */
  predicate IntegralAccumulates(config: ControllerConfig, lastUpdateTime: int, interval: int)
  {
    interval < config.timeout || (config.timeout == 0 && lastUpdateTime != 0)
  }

  /** The state after one call of Update with the given input, given the wall
      clock reading `now` and the time elapsed since lastUpdateTime. */
  function Next(config: ControllerConfig, s: ControllerState, input: ControllerInput,
                now: int, interval: int): (r: ControllerState)
    requires interval != 0
    // a rejected input is a complete no-op, the timestamp included
    ensures !Accepts(input) ==> r == s
    ensures Accepts(input) ==>
      && r.controlError == input.referenceSignal.value - input.actualSignal.value
      // the derivative is the change of the error over the interval
      && r.controlErrorDerivative * Seconds(interval) == r.controlError - s.controlError
      // the integral grows by error times interval, or is held
      && (IntegralAccumulates(config, s.lastUpdateTime, interval) ==>
            r.controlErrorIntegral == s.controlErrorIntegral + r.controlError * Seconds(interval))
      && (!IntegralAccumulates(config, s.lastUpdateTime, interval) ==>
            r.controlErrorIntegral == s.controlErrorIntegral)
      // the signal combines the three freshly updated terms
      && r.controlSignal == config.proportionalGain * r.controlError
                            + config.integralGain * r.controlErrorIntegral
                            + config.derivativeGain * r.controlErrorDerivative
      && r.lastUpdateTime == now
  {
    if !Accepts(input) then s
    else
      var e := input.referenceSignal.value - input.actualSignal.value;
      var dt := Seconds(interval);
      var derivative := (e - s.controlError) / dt;
      var integral :=
        if IntegralAccumulates(config, s.lastUpdateTime, interval)
        then s.controlErrorIntegral + e * dt
        else s.controlErrorIntegral;
      ControllerState(
        e, integral, derivative,
        config.proportionalGain * e + config.integralGain * integral + config.derivativeGain * derivative,
        now)
  }

  /** One call of Update in a control loop: its input and the clock. */
  datatype Sample = Sample(input: ControllerInput, now: int, interval: int)

  /** The clock as Update sees it: a non-zero elapsed interval (negative when
      the wall clock stepped back), and a wall clock reading that is never the
      zero time. */
  predicate ValidClock(samples: seq<Sample>)
  {
    forall i :: 0 <= i < |samples| ==> samples[i].interval != 0 && samples[i].now != 0
  }

  /** The state after calling Update once per sample, in order. */
  function Run(config: ControllerConfig, s: ControllerState, samples: seq<Sample>): ControllerState
    requires ValidClock(samples)
    decreases |samples|
  {
    if samples == [] then s
    else Run(config, Next(config, s, samples[0].input, samples[0].now, samples[0].interval), samples[1..])
  }

  /** The error terms and the output are all zero. */
  predicate Quiescent(s: ControllerState)
  {
    s.controlError == 0.0 && s.controlErrorIntegral == 0.0
    && s.controlErrorDerivative == 0.0 && s.controlSignal == 0.0
  }

  class Controller {
    var config: ControllerConfig
    var state: ControllerState

    /** A Controller literal, optionally with seeded state. */
    constructor (config: ControllerConfig, state: ControllerState)
      ensures this.config == config && this.state == state
    {
      this.config := config;
      this.state := state;
    }

    /** Update the controller state from one pair of signals. The clock is a
        parameter: `interval` is time.Since(lastUpdateTime) and `now` is
        time.Now() at the end of the call. */
    method Update(input: ControllerInput, now: int, interval: int)
      requires interval != 0
      modifies this`state
      ensures state == Next(config, old(state), input, now, interval)
      ensures config == old(config)
    {
      if !IsFinite(input.referenceSignal) || !IsFinite(input.actualSignal) {
        return;
      }
      var intervalSeconds := Seconds(interval);
      var previousError := state.controlError;
      state := state.(controlError := input.referenceSignal.value - input.actualSignal.value);
      state := state.(controlErrorDerivative := (state.controlError - previousError) / intervalSeconds);
      if interval < config.timeout || (config.timeout == 0 && state.lastUpdateTime != 0) {
        state := state.(controlErrorIntegral := state.controlErrorIntegral + state.controlError * intervalSeconds);
      }
      state := state.(controlSignal :=
        config.proportionalGain * state.controlError
        + config.integralGain * state.controlErrorIntegral
        + config.derivativeGain * state.controlErrorDerivative);
      state := state.(lastUpdateTime := now);
    }

    /** Reset the controller state to its zero value. */
    method Reset()
      modifies this`state
      ensures state == ZeroState
      ensures config == old(config)
    {
      state := ControllerState(0.0, 0.0, 0.0, 0.0, 0);
    }
  }

  /** Reset is idempotent and forgets the update history: two resets leave
      the same state as one, whatever came before, and the config is kept. */
  method ResetIsIdempotent(config: ControllerConfig, seeded: ControllerState)
    returns (once: ControllerState, twice: ControllerState, kept: ControllerConfig)
    ensures once == twice == ZeroState
    ensures kept == config
  {
    var c := new Controller(config, seeded);
    c.Reset();
    once := c.state;
    c.Reset();
    twice := c.state;
    kept := c.config;
  }

  /** A run of rejected inputs leaves the whole state alone, lastUpdateTime
      included, so the elapsed time keeps growing until the next valid call. */
  lemma {:induction false} RejectedRunKeepsState(config: ControllerConfig, s: ControllerState, samples: seq<Sample>)
    requires ValidClock(samples)
    requires forall i :: 0 <= i < |samples| ==> !Accepts(samples[i].input)
    ensures Run(config, s, samples) == s
  {
    if samples != [] {
      assert !Accepts(samples[0].input);
      RejectedRunKeepsState(config, s, samples[1..]);
    }
  }

  /** With a positive timeout, a run whose every interval reaches the timeout
      never changes the integral, whatever the signals. */
  lemma {:induction false} TimedOutRunFreezesIntegral(config: ControllerConfig, s: ControllerState, samples: seq<Sample>)
    requires config.timeout > 0
    requires ValidClock(samples)
    requires forall i :: 0 <= i < |samples| ==> samples[i].interval >= config.timeout
    ensures Run(config, s, samples).controlErrorIntegral == s.controlErrorIntegral
    decreases |samples|
  {
    if samples != [] {
      var x := samples[0];
      var s' := Next(config, s, x.input, x.now, x.interval);
      assert s'.controlErrorIntegral == s.controlErrorIntegral;
      TimedOutRunFreezesIntegral(config, s', samples[1..]);
    }
  }

  /** From a quiescent state, equal reference and actual signals keep every
      error term and the control signal at zero, call after call. */
  lemma {:induction false} EqualSignalsStayQuiescent(config: ControllerConfig, s: ControllerState, samples: seq<Sample>)
    requires Quiescent(s)
    requires ValidClock(samples)
    requires forall i :: 0 <= i < |samples| ==>
      samples[i].input.referenceSignal == samples[i].input.actualSignal
    ensures Quiescent(Run(config, s, samples))
    decreases |samples|
  {
    if samples != [] {
      var x := samples[0];
      var s' := Next(config, s, x.input, x.now, x.interval);
      assert x.input.referenceSignal == x.input.actualSignal;
      assert Quiescent(s');
      EqualSignalsStayQuiescent(config, s', samples[1..]);
    }
  }

  /** Once an update has been accepted the timestamp is never the zero time
      again, so without a timeout every later accepted update integrates:
      the first-call exemption applies once per reset. */
  lemma {:induction false} StampedRunKeepsIntegrating(config: ControllerConfig, s: ControllerState,
                                                      samples: seq<Sample>, interval: int)
    requires config.timeout == 0
    requires s.lastUpdateTime != 0
    requires ValidClock(samples)
    ensures Run(config, s, samples).lastUpdateTime != 0
    ensures IntegralAccumulates(config, Run(config, s, samples).lastUpdateTime, interval)
    decreases |samples|
  {
    if samples != [] {
      var x := samples[0];
      var s' := Next(config, s, x.input, x.now, x.interval);
      assert s'.lastUpdateTime != 0;
      StampedRunKeepsIntegrating(config, s', samples[1..], interval);
    }
  }

  /** On the first call after construction or Reset, time.Since of the zero
      time saturates to MaxDuration, which no int64 timeout exceeds: the
      integral is held, whether or not a timeout is configured. */
  lemma FirstUpdateHoldsIntegral(config: ControllerConfig, s: ControllerState, input: ControllerInput, now: int)
    requires IsDuration(config.timeout)
    requires s.lastUpdateTime == 0
    ensures Next(config, s, input, now, MaxDuration).controlErrorIntegral == s.controlErrorIntegral
  {
  }

  /** Equal signals on the zero state give a zero error and a zero signal. */
  lemma EqualSignalsFromZero(config: ControllerConfig, x: real, now: int, interval: int)
    requires interval != 0
    ensures var r := Next(config, ZeroState, ControllerInput(Finite(x), Finite(x)), now, interval);
      r.controlError == 0.0 && r.controlSignal == 0.0
  {
  }

  /** Gains 2, 1, 1 and a one-second timeout; the last update two seconds ago:
      the integral is frozen and the signal is 2*10 + 1*0 + 1*(10/2) = 25. */
  lemma TimeoutScenario(now: int)
    ensures var r := Next(ControllerConfig(2.0, 1.0, 1.0, 1_000_000_000),
                          ControllerState(0.0, 0.0, 0.0, 0.0, now - 2_000_000_000),
                          ControllerInput(Finite(10.0), Finite(0.0)), now, 2_000_000_000);
      r.controlError == 10.0 && r.controlErrorIntegral == 0.0 && r.controlSignal == 25.0
  {
  }

  /** Gains 2, 1, 1, no timeout, last update 100 ms ago: the integral is 1,
      the derivative 100 and the signal 2*10 + 1 + 100 = 121. */
  lemma NoTimeoutScenario(last: int, now: int)
    requires last != 0
    ensures Next(ControllerConfig(2.0, 1.0, 1.0, 0),
                 ControllerState(0.0, 0.0, 0.0, 0.0, last),
                 ControllerInput(Finite(10.0), Finite(0.0)), now, 100_000_000)
         == ControllerState(10.0, 1.0, 100.0, 121.0, now)
  {
  }
}
