/** The dual-regime scalar filter: a slow and a fast Kalman filter run side by side on the
    same measurements, and the regime decides whose estimate is surfaced. */
module DualMode {
  import opened Wrappers
  import opened ScalarKalman

  /** Process noise covariances: 0 for the slow filter, 0.01 for the fast one. */
  const SlowProcessNoise: real := 0.0
  const FastProcessNoise: real := 0.01

  datatype FilterRegime = Slow | Fast

  /** The states of both inner filters and the current regime. */
  datatype DualState = DualState(slow: FilterState<real>, fast: FilterState<real>, regime: FilterRegime)

  const InitialDualState: DualState := DualState(InitialState, InitialState, Slow)

  /** Error covariances are never negative in any state the filter reaches. */
  predicate ValidState(d: DualState) {
    d.slow.errorCovariance >= 0.0 && d.fast.errorCovariance >= 0.0
  }

  /** One `Filter` call: the new state and the value returned. */
  function DualFilter(d: DualState, measurement: Option<real>): (r: (DualState, real))
    requires ValidState(d)
    ensures ValidState(r.0)
    // the regime after the call is Fast exactly when the measurement exceeds the slow filter's new estimate
    ensures var z := measurement.GetOr(0.0);
      r.0.regime == (if z > Step(d.slow, SlowProcessNoise, z).estimate then Fast else Slow)
    // the returned value is the stored estimate of the filter of the new regime
    ensures r.1 == (if r.0.regime == Fast then r.0.fast.estimate else r.0.slow.estimate)
    // no regime change: both filters were advanced once by the same measurement, nothing was reset
    ensures var z := measurement.GetOr(0.0);
      r.0.regime == d.regime ==>
        r.0.slow == Step(d.slow, SlowProcessNoise, z) && r.0.fast == Step(d.fast, FastProcessNoise, z)
    // Slow to Fast: the slow filter advanced once, the fast filter restarted from (z, 0), the output is z
    ensures var z := measurement.GetOr(0.0);
      d.regime == Slow && r.0.regime == Fast ==>
        r.0.slow == Step(d.slow, SlowProcessNoise, z) &&
        r.0.fast == Step(FilterState(z, 0.0), FastProcessNoise, z) &&
        r.0.fast.estimate == z && r.1 == z
    // Fast to Slow: the slow filter continues from the fast filter's updated state, re-run on z
    ensures var z := measurement.GetOr(0.0);
      d.regime == Fast && r.0.regime == Slow ==>
        r.0.fast == Step(d.fast, FastProcessNoise, z) &&
        r.0.slow == Step(Step(d.fast, FastProcessNoise, z), SlowProcessNoise, z)
  {
    var z := measurement.GetOr(0.0);
    var slow := Step(d.slow, SlowProcessNoise, z);
    var fast := Step(d.fast, FastProcessNoise, z);
    if z > slow.estimate then
      if d.regime == Slow then
        var restarted := Step(FilterState(z, 0.0), FastProcessNoise, z);
        (DualState(slow, restarted, Fast), restarted.estimate)
      else
        (DualState(slow, fast, Fast), fast.estimate)
    else
      if d.regime == Fast then
        var continued := Step(fast, SlowProcessNoise, z);
        (DualState(continued, fast, Slow), continued.estimate)
      else
        (DualState(slow, fast, Slow), slow.estimate)
  }

  /** A missing measurement is filtered as 0. */
  lemma MissingMeasurementIsZero(d: DualState)
    requires ValidState(d)
    ensures DualFilter(d, None) == DualFilter(d, Some(0.0))
  {
  }

  /** A signal that has settled on the value both filters estimate stays there, in the slow regime. */
  lemma SettledSignalIsFixedPoint(d: DualState, m: real)
    requires ValidState(d) && d.regime == Slow && d.slow.estimate == m && d.fast.estimate == m
    ensures DualFilter(d, Some(m)).1 == m
    ensures DualFilter(d, Some(m)).0.regime == Slow
    ensures DualFilter(d, Some(m)).0.slow.estimate == m && DualFilter(d, Some(m)).0.fast.estimate == m
  {
  }

  /** The inner filter: `PriorEstimate` and `PriorErrorCovariance` are overwritten by every call. */
  class KalmanFilter {
    const processNoiseCovariance: real
    var priorEstimate: real
    var priorErrorCovariance: real

    function State(): FilterState<real>
      reads this
    {
      FilterState(priorEstimate, priorErrorCovariance)
    }

    constructor (processNoiseCovariance: real)
      ensures this.processNoiseCovariance == processNoiseCovariance
      ensures State() == InitialState
    {
      this.processNoiseCovariance := processNoiseCovariance;
      priorEstimate := 0.0;
      priorErrorCovariance := 1.0;
    }

    method SetState(estimate: real, errorCovariance: real)
      modifies this
      ensures State() == FilterState(estimate, errorCovariance)
    {
      priorEstimate := estimate;
      priorErrorCovariance := errorCovariance;
    }

    method Filter(measurement: real) returns (newEstimate: real)
      requires priorErrorCovariance + processNoiseCovariance + 1.0 != 0.0
      modifies this
      ensures State() == Step(old(State()), processNoiseCovariance, measurement)
      ensures newEstimate == priorEstimate
    {
      var estimate := priorEstimate;
      var errorCovariance := priorErrorCovariance + processNoiseCovariance;
      var gain := errorCovariance / (errorCovariance + 1.0);
      newEstimate := estimate + gain * (measurement - estimate);
      var newErrorCovariance := (1.0 - gain) * errorCovariance;
      ghost var s := State();
      assert Gain(errorCovariance) == gain;
      assert Step(s, processNoiseCovariance, measurement).estimate == newEstimate;
      assert Step(s, processNoiseCovariance, measurement).errorCovariance == newErrorCovariance;
      priorEstimate := newEstimate;
      priorErrorCovariance := newErrorCovariance;
    }
  }

  class DualModeKalmanFilter {
    const slowFilter: KalmanFilter
    const fastFilter: KalmanFilter
    var regime: FilterRegime

    ghost predicate Valid()
      reads this, slowFilter, fastFilter
    {
      slowFilter != fastFilter &&
      slowFilter.processNoiseCovariance == SlowProcessNoise &&
      fastFilter.processNoiseCovariance == FastProcessNoise &&
      ValidState(State())
    }

    function State(): DualState
      reads this, slowFilter, fastFilter
    {
      DualState(slowFilter.State(), fastFilter.State(), regime)
    }

    constructor ()
      ensures Valid() && fresh(slowFilter) && fresh(fastFilter)
      ensures State() == InitialDualState
    {
      slowFilter := new KalmanFilter(SlowProcessNoise);
      fastFilter := new KalmanFilter(FastProcessNoise);
      regime := Slow;
    }

    method Filter(measurement: Option<real>) returns (r: real)
      requires Valid()
      modifies this, slowFilter, fastFilter
      ensures Valid()
      ensures (State(), r) == DualFilter(old(State()), measurement)
    {
      var z := measurement.GetOr(0.0);
      var slowEstimate := slowFilter.Filter(z);
      var fastEstimate := fastFilter.Filter(z);
      if z > slowEstimate {
        if regime == Slow {
          fastFilter.SetState(z, 0.0);
          fastEstimate := fastFilter.Filter(z);
          regime := Fast;
        }
        r := fastEstimate;
      } else {
        if regime == Fast {
          slowFilter.SetState(fastFilter.priorEstimate, fastFilter.priorErrorCovariance);
          slowEstimate := slowFilter.Filter(z);
          regime := Slow;
        }
        r := slowEstimate;
      }
    }
  }
}
