/** The PIDT1 tracking controller of package pid: proportional, integral and
    low-pass-filtered derivative parts, a feed-forward term, output clamping,
    and anti-windup / bumpless transfer by tracking mode (chapter 6 of Åström
    and Murray, Feedback Systems, 2008). */
module TrackingPid {
  import opened Durations

  /** The five state variables: the last error e, the tracking-adjusted error
      eI that the integrator consumes on the next call, and the last integral,
      filtered derivative and unsaturated output contributions. */
  datatype TrackingState = TrackingState(e: real, eI: real, uI: real, uD: real, uV: real)

  /** TrackingState{}. */
  const ZeroState := TrackingState(0.0, 0.0, 0.0, 0.0, 0.0)

  /** The controller's gains and limits; the low-pass time constant is a
      duration in nanoseconds. */
  datatype TrackingParameters = TrackingParameters(
    proportionalGain: real,
    integralGain: real,
    derivativeGain: real,
    antiWindUpGain: real,
    lowPassTimeConstant: int,
    maxOutput: real,
    minOutput: real)

  /** math.Max(lo, math.Min(hi, x)): x limited to [lo, hi]; when the limits
      are crossed (lo > hi) the lower one wins. */
  function Clamp(x: real, lo: real, hi: real): (r: real)
    ensures r >= lo
    ensures lo <= hi ==> r <= hi
    ensures lo <= x <= hi ==> r == x
    ensures x < lo ==> r == lo
    ensures lo <= hi < x ==> r == hi
    ensures hi < lo ==> r == lo
  {
    var below := if hi < x then hi else x;
    if lo < below then below else lo
  }

  /** The filter denominator dt/τ + 1 is at least 1 for dt >= 0 and τ > 0. */
  lemma FilterDenominatorPositive(dt: real, tau: real)
    requires dt >= 0.0 && tau > 0.0
    ensures dt / tau + 1.0 >= 1.0
  {
    assert dt / tau >= 0.0;
  }

  /** The state after one Update with target, actual value, feed-forward,
      the actuator's actual input and the sampling interval dt (ns). Every new
      value is computed from the OLD state; in particular eI uses the old uV,
      because uV is only stored after eI. */
  function Next(p: TrackingParameters, s: TrackingState,
                target: real, actual: real, ff: real, actualInput: real, dt: int): (r: TrackingState)
    requires p.lowPassTimeConstant > 0 && dt >= 0
    ensures r.e == target - actual
    // the integrator consumes the previous step's tracking-adjusted error
    ensures r.uI == s.eI * p.integralGain * Seconds(dt) + s.uI
    // first-order low-pass filtered derivative (DT1), in implicit form
    ensures var tau := Seconds(p.lowPassTimeConstant);
      r.uD * (Seconds(dt) / tau + 1.0) == (p.derivativeGain / tau) * (r.e - s.e) + s.uD
    // the stored output is the unsaturated sum of the four parts
    ensures r.uV == r.e * p.proportionalGain + r.uI + r.uD + ff
    // tracking: the gap between the actuator and the OLD unsaturated output
    ensures r.eI == r.e + p.antiWindUpGain * (actualInput - s.uV)
    ensures actualInput == s.uV ==> r.eI == r.e
  {
    var tau := Seconds(p.lowPassTimeConstant);
    var dtSeconds := Seconds(dt);
    FilterDenominatorPositive(dtSeconds, tau);
    var e := target - actual;
    var uP := e * p.proportionalGain;
    var uI := s.eI * p.integralGain * dtSeconds + s.uI;
    var uD := ((p.derivativeGain / tau) * (e - s.e) + s.uD) / (dtSeconds / tau + 1.0);
    var uV := uP + uI + uD + ff;
    TrackingState(e, e + p.antiWindUpGain * (actualInput - s.uV), uI, uD, uV)
  }

  /** One call of Update in a control loop. */
  datatype TrackingSample = TrackingSample(target: real, actual: real, feedForward: real,
                                           actualInput: real, dt: int)

  predicate ValidIntervals(samples: seq<TrackingSample>)
  {
    forall i :: 0 <= i < |samples| ==> samples[i].dt >= 0
  }

  function Step(p: TrackingParameters, s: TrackingState, x: TrackingSample): TrackingState
    requires p.lowPassTimeConstant > 0 && x.dt >= 0
  {
    Next(p, s, x.target, x.actual, x.feedForward, x.actualInput, x.dt)
  }

  /** The state after calling Update once per sample, in order. */
  function Run(p: TrackingParameters, s: TrackingState, samples: seq<TrackingSample>): TrackingState
    requires p.lowPassTimeConstant > 0 && ValidIntervals(samples)
    decreases |samples|
  {
    if samples == [] then s else Run(p, Step(p, s, samples[0]), samples[1..])
  }

  /** The actuator realises every command: each call's actual input is the
      unsaturated output stored by the call before it. */
  predicate Tracks(p: TrackingParameters, s: TrackingState, samples: seq<TrackingSample>)
    requires p.lowPassTimeConstant > 0 && ValidIntervals(samples)
    decreases |samples|
  {
    samples == [] ||
    (samples[0].actualInput == s.uV && Tracks(p, Step(p, s, samples[0]), samples[1..]))
  }

  class TrackingController {
    var proportionalGain: real
    var integralGain: real
    var derivativeGain: real
    var antiWindUpGain: real
    var lowPassTimeConstant: int
    var maxOutput: real
    var minOutput: real
    var state: TrackingState

    /** The gains and limits as one value. */
    function Parameters(): TrackingParameters
      reads this
    {
      TrackingParameters(proportionalGain, integralGain, derivativeGain, antiWindUpGain,
                         lowPassTimeConstant, maxOutput, minOutput)
    }

    /** A TrackingController literal: the given gains and limits, zero state. */
    constructor (p: TrackingParameters)
      ensures Parameters() == p && state == ZeroState
    {
      proportionalGain := p.proportionalGain;
      integralGain := p.integralGain;
      derivativeGain := p.derivativeGain;
      antiWindUpGain := p.antiWindUpGain;
      lowPassTimeConstant := p.lowPassTimeConstant;
      maxOutput := p.maxOutput;
      minOutput := p.minOutput;
      state := TrackingState(0.0, 0.0, 0.0, 0.0, 0.0);
    }

    /** Zero all five state variables; gains and limits stay. */
    method Reset()
      modifies this`state
      ensures state == ZeroState
      ensures Parameters() == old(Parameters())
    {
      state := TrackingState(0.0, 0.0, 0.0, 0.0, 0.0);
    }

    /** Advance by one sampling interval and return the clamped output. */
    method Update(target: real, actual: real, ff: real, actualInput: real, dt: int)
      returns (output: real)
      requires lowPassTimeConstant > 0 && dt >= 0
      modifies this`state
      ensures state == Next(Parameters(), old(state), target, actual, ff, actualInput, dt)
      ensures output == Clamp(state.uV, minOutput, maxOutput)
      ensures output >= minOutput && (minOutput <= maxOutput ==> output <= maxOutput)
      ensures Parameters() == old(Parameters())
    {
      var tau := Seconds(lowPassTimeConstant);
      var dtSeconds := Seconds(dt);
      FilterDenominatorPositive(dtSeconds, tau);
      var e := target - actual;
      var uP := e * proportionalGain;
      var uI := state.eI * integralGain * dtSeconds + state.uI;
      var uD := ((derivativeGain / tau) * (e - state.e) + state.uD) / (dtSeconds / tau + 1.0);
      var uV := uP + uI + uD + ff;
      state := state.(eI := e + antiWindUpGain * (actualInput - state.uV));
      state := state.(uI := uI);
      state := state.(uD := uD);
      state := state.(uV := uV);
      state := state.(e := e);
      output := Clamp(uV, minOutput, maxOutput);
    }

    /** A snapshot of the state; nothing changes. */
    method GetState() returns (s: TrackingState)
      ensures s == state
    {
      s := state;
    }
  }

  /** Zero state, target equal to actual and no feed-forward: the stored
      unsaturated output is 0, and so is the output when 0 is within limits. */
  lemma QuiescentFromZero(p: TrackingParameters, x: real, actualInput: real, dt: int)
    requires p.lowPassTimeConstant > 0 && dt >= 0
    ensures var r := Next(p, ZeroState, x, x, 0.0, actualInput, dt);
      r.e == 0.0 && r.uV == 0.0
      && (p.minOutput <= 0.0 <= p.maxOutput ==> Clamp(r.uV, p.minOutput, p.maxOutput) == 0.0)
  {
  }

  /** An actuator at rest under a controller at rest: with target equal to
      actual, no feed-forward and an actual input of 0, the zero state is
      kept call after call. */
  lemma {:induction false} RestingRunStaysZero(p: TrackingParameters, samples: seq<TrackingSample>)
    requires p.lowPassTimeConstant > 0 && ValidIntervals(samples)
    requires forall i :: 0 <= i < |samples| ==>
      samples[i].target == samples[i].actual && samples[i].feedForward == 0.0 && samples[i].actualInput == 0.0
    ensures Run(p, ZeroState, samples) == ZeroState
  {
    if samples != [] {
      var x := samples[0];
      assert x.target == x.actual && x.feedForward == 0.0 && x.actualInput == 0.0;
      QuiescentFromZero(p, x.target, x.actualInput, x.dt);
      assert Step(p, ZeroState, x) == ZeroState;
      RestingRunStaysZero(p, samples[1..]);
    }
  }

  /** Forward-Euler integral of the raw errors of a run: each call's error
      target - actual, times Ki, times the interval of the call after it. */
  function EulerIntegral(p: TrackingParameters, samples: seq<TrackingSample>): real
    decreases |samples|
  {
    if |samples| < 2 then 0.0
    else (samples[0].target - samples[0].actual) * p.integralGain * Seconds(samples[1].dt)
         + EulerIntegral(p, samples[1..])
  }

  /** Bumpless tracking: when the actuator realises every command, the
      tracking term vanishes, so after any non-empty run eI equals the last
      raw error target - actual. */
  lemma {:induction false} TrackingRunFeedsRawError(p: TrackingParameters, s: TrackingState,
                                                    samples: seq<TrackingSample>)
    requires p.lowPassTimeConstant > 0 && ValidIntervals(samples)
    requires samples != [] && Tracks(p, s, samples)
    ensures Run(p, s, samples).eI == Run(p, s, samples).e
         == samples[|samples| - 1].target - samples[|samples| - 1].actual
    decreases |samples|
  {
    var s' := Step(p, s, samples[0]);
    if |samples| == 1 {
      assert Run(p, s', samples[1..]) == s';
    } else {
      TrackingRunFeedsRawError(p, s', samples[1..]);
      assert samples[1..][|samples| - 2] == samples[|samples| - 1];
    }
  }

  /** Under the same tracking, the integrator is plain forward-Euler
      integration of the raw error: after the first call (which consumes the
      eI it found), uI grows by each call's raw error times Ki times the
      interval of the call after it. */
  lemma {:induction false} TrackingRunIntegratesRawError(p: TrackingParameters, s: TrackingState,
                                                         samples: seq<TrackingSample>)
    requires p.lowPassTimeConstant > 0 && ValidIntervals(samples)
    requires samples != [] && Tracks(p, s, samples)
    ensures Run(p, s, samples).uI
         == s.uI + s.eI * p.integralGain * Seconds(samples[0].dt) + EulerIntegral(p, samples)
    decreases |samples|
  {
    var x := samples[0];
    var s' := Step(p, s, x);
    var rest := samples[1..];
    assert Run(p, s, samples) == Run(p, s', rest);
    if |samples| > 1 {
      TrackingRunIntegratesRawError(p, s', rest);
      IntegratorStep(p, s, x, rest[0].dt);
      assert EulerIntegral(p, samples)
          == (x.target - x.actual) * p.integralGain * Seconds(rest[0].dt) + EulerIntegral(p, rest);
    }
  }

  /** One tracking call: uI takes the eI it found, and the next call's
      integrator increment is this call's raw error times Ki times dt. */
  lemma IntegratorStep(p: TrackingParameters, s: TrackingState, x: TrackingSample, nextDt: int)
    requires p.lowPassTimeConstant > 0 && x.dt >= 0
    requires x.actualInput == s.uV
    ensures var s' := Step(p, s, x);
      s'.uI + s'.eI * p.integralGain * Seconds(nextDt)
      == s.uI + s.eI * p.integralGain * Seconds(x.dt)
         + (x.target - x.actual) * p.integralGain * Seconds(nextDt)
  {
    var s' := Step(p, s, x);
    assert s'.eI == x.target - x.actual;
  }

  /** Reset zeroes the state whatever it held, keeps gains and limits, and a
      second Reset changes nothing more. */
  method ResetIsIdempotent(p: TrackingParameters, target: real, actual: real, ff: real, actualInput: real, dt: int)
    returns (once: TrackingState, twice: TrackingState, kept: TrackingParameters)
    requires p.lowPassTimeConstant > 0 && dt >= 0
    ensures once == twice == ZeroState
    ensures kept == p
  {
    var c := new TrackingController(p);
    var _ := c.Update(target, actual, ff, actualInput, dt);
    c.Reset();
    once := c.GetState();
    c.Reset();
    twice := c.GetState();
    kept := c.Parameters();
  }
}
