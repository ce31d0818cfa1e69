/** The older dual filter used by the adaptive director. Unlike the dual-regime filter it never
    resets a filter to the measurement: on a switch one inner filter copies the other's state, and
    the value returned is the one computed before the copy. The C# class is generic; it is
    instantiated with `float` and with `long`, and both instantiations are modelled. */
module StatisticsFilters {
  import opened Wrappers
  import opened Numerics
  import opened ScalarKalman

  const SlowProcessNoise: real := 0.0
  const FastProcessNoise: real := 0.01

  /** `T.CreateChecked(0.01)` for `T = long` truncates to 0; the slow filter's `T.Zero` is 0 too. */
  const LongSlowProcessNoise: int := 0
  const LongFastProcessNoise: int := TruncateToInt(0.01)

  /** The states of both inner filters and the `useFastFilter` flag. */
  datatype StatState<T> = StatState(slow: FilterState<T>, fast: FilterState<T>, useFastFilter: bool)

  const InitialStatState: StatState<real> := StatState(InitialState, InitialState, false)
  const LongInitialStatState: StatState<int> := StatState(LongInitialState, LongInitialState, false)

  predicate ValidState(d: StatState<real>) {
    d.slow.errorCovariance >= 0.0 && d.fast.errorCovariance >= 0.0
  }

  predicate LongValidState(d: StatState<int>) {
    d.slow.errorCovariance >= 0 && d.fast.errorCovariance >= 0
  }

  /** One `Filter` call of `StatisticsFilter<float>`. */
  function StatFilter(d: StatState<real>, measurement: Option<real>): (r: (StatState<real>, real))
    requires ValidState(d)
    ensures ValidState(r.0)
    ensures var z := measurement.GetOr(0.0);
      var slow := Step(d.slow, SlowProcessNoise, z);
      var fast := Step(d.fast, FastProcessNoise, z);
      // the flag is set exactly when the measurement exceeds the slow filter's new estimate,
      // and the value returned is the fast estimate in that case and the slow one otherwise
      && r.0.useFastFilter == (z > slow.estimate)
      && r.1 == (if z > slow.estimate then fast.estimate else slow.estimate)
      // switching on: the fast filter copies the updated slow filter; the returned value is the
      // fast estimate computed before the copy
      && (!d.useFastFilter && r.0.useFastFilter ==> r.0.slow == slow && r.0.fast == slow)
      // switching off: the slow filter copies the updated fast filter
      && (d.useFastFilter && !r.0.useFastFilter ==> r.0.slow == fast && r.0.fast == fast)
      // no switch: both filters advanced once with the same measurement
      && (d.useFastFilter == r.0.useFastFilter ==> r.0.slow == slow && r.0.fast == fast)
  {
    var z := measurement.GetOr(0.0);
    var slow := Step(d.slow, SlowProcessNoise, z);
    var fast := Step(d.fast, FastProcessNoise, z);
    if z > slow.estimate then
      if !d.useFastFilter then (StatState(slow, slow, true), fast.estimate)
      else (StatState(slow, fast, true), fast.estimate)
    else
      if d.useFastFilter then (StatState(fast, fast, false), slow.estimate)
      else (StatState(slow, fast, false), slow.estimate)
  }

  /** One `Filter` call of `StatisticsFilter<long>`: the same control flow on integers. */
  function LongStatFilter(d: StatState<int>, measurement: Option<int>): (r: (StatState<int>, int))
    requires LongValidState(d)
    ensures LongValidState(r.0)
    // with integer division the gain is 0: no estimate moves and the output is a prior estimate
    ensures r.1 == d.slow.estimate || r.1 == d.fast.estimate
    // from inner filters in their initial state, they stay there and the output is 0
    ensures d.slow == LongInitialState && d.fast == LongInitialState ==>
      r.0.slow == LongInitialState && r.0.fast == LongInitialState && r.1 == 0
  {
    var z := measurement.GetOr(0);
    var slow := LongStep(d.slow, LongSlowProcessNoise, z);
    var fast := LongStep(d.fast, LongFastProcessNoise, z);
    if z > slow.estimate then
      if !d.useFastFilter then (StatState(slow, slow, true), fast.estimate)
      else (StatState(slow, fast, true), fast.estimate)
    else
      if d.useFastFilter then (StatState(fast, fast, false), slow.estimate)
      else (StatState(slow, fast, false), slow.estimate)
  }

  /** The states and outputs of successive `Filter` calls of `StatisticsFilter<long>`. */
  function LongRun(d: StatState<int>, measurements: seq<Option<int>>): (r: (StatState<int>, seq<int>))
    requires LongValidState(d)
    decreases |measurements|
  {
    if measurements == [] then (d, [])
    else
      var (next, out) := LongStatFilter(d, measurements[0]);
      var (last, outs) := LongRun(next, measurements[1..]);
      (last, [out] + outs)
  }

  /** However long it runs, `StatisticsFilter<long>` keeps both inner filters at (0, 1) and
      returns 0; only the `useFastFilter` flag moves. */
  lemma {:induction false} LongFilterAlwaysReturnsZero(d: StatState<int>, measurements: seq<Option<int>>)
    requires d.slow == LongInitialState && d.fast == LongInitialState
    ensures LongRun(d, measurements).0.slow == LongInitialState
    ensures LongRun(d, measurements).0.fast == LongInitialState
    ensures |LongRun(d, measurements).1| == |measurements|
    ensures forall i :: 0 <= i < |measurements| ==> LongRun(d, measurements).1[i] == 0
    decreases |measurements|
  {
    if measurements != [] {
      LongFilterAlwaysReturnsZero(LongStatFilter(d, measurements[0]).0, measurements[1..]);
    }
  }

  /** A missing measurement is filtered as 0. */
  lemma MissingMeasurementIsZero(d: StatState<real>)
    requires ValidState(d)
    ensures StatFilter(d, None) == StatFilter(d, Some(0.0))
  {
  }

  /** The inner filter of `StatisticsFilter<float>`. */
  class KalmanFilter {
    const measurementNoiseCovariance: real
    const processNoiseCovariance: real
    var priorEstimate: real
    var priorErrorCovariance: real

    function State(): FilterState<real>
      reads this
    {
      FilterState(priorEstimate, priorErrorCovariance)
    }

    constructor (processNoiseCovariance: real)
      ensures this.processNoiseCovariance == processNoiseCovariance
      ensures measurementNoiseCovariance == MeasurementNoiseCovariance
      ensures State() == InitialState
    {
      measurementNoiseCovariance := 1.0;
      this.processNoiseCovariance := processNoiseCovariance;
      priorEstimate := 0.0;
      priorErrorCovariance := 1.0;
    }

    /** Takes over the other filter's estimate and error covariance. */
    method CopyState(otherFilter: KalmanFilter)
      modifies this
      ensures State() == old(otherFilter.State()) && State() == otherFilter.State()
    {
      priorEstimate := otherFilter.priorEstimate;
      priorErrorCovariance := otherFilter.priorErrorCovariance;
    }

    /** Does nothing. */
    method BeginReset()
      ensures unchanged(this)
    {
    }

    method Filter(measurement: real) returns (r: real)
      requires measurementNoiseCovariance == MeasurementNoiseCovariance
      requires priorErrorCovariance + processNoiseCovariance + 1.0 != 0.0
      modifies this
      ensures State() == Step(old(State()), processNoiseCovariance, measurement)
      ensures r == priorEstimate
    {
      ghost var s := State();
      var estimate := priorEstimate;
      var errorCovariance := priorErrorCovariance + processNoiseCovariance;
      var gain := errorCovariance / (errorCovariance + measurementNoiseCovariance);
      assert gain == Gain(errorCovariance);
      priorEstimate := estimate + gain * (measurement - estimate);
      priorErrorCovariance := (1.0 - gain) * errorCovariance;
      assert priorEstimate == Step(s, processNoiseCovariance, measurement).estimate;
      assert priorErrorCovariance == Step(s, processNoiseCovariance, measurement).errorCovariance;
      r := priorEstimate;
    }
  }

  class StatisticsFilter {
    var useFastFilter: bool
    const slowFilter: KalmanFilter
    const fastFilter: KalmanFilter

    /** The objects a call may change. */
    ghost function Repr(): set<object> {
      {this, slowFilter, fastFilter}
    }

    ghost predicate Valid()
      reads Repr()
    {
      slowFilter != fastFilter &&
      slowFilter.processNoiseCovariance == SlowProcessNoise &&
      fastFilter.processNoiseCovariance == FastProcessNoise &&
      slowFilter.measurementNoiseCovariance == MeasurementNoiseCovariance &&
      fastFilter.measurementNoiseCovariance == MeasurementNoiseCovariance &&
      ValidState(State())
    }

    function State(): StatState<real>
      reads Repr()
    {
      StatState(slowFilter.State(), fastFilter.State(), useFastFilter)
    }

    constructor ()
      ensures Valid() && fresh(slowFilter) && fresh(fastFilter)
      ensures State() == InitialStatState
    {
      useFastFilter := false;
      slowFilter := new KalmanFilter(SlowProcessNoise);
      fastFilter := new KalmanFilter(FastProcessNoise);
    }

    method Filter(measurement: Option<real>) returns (r: real)
      requires Valid()
      modifies Repr()
      ensures Valid()
      ensures (State(), r) == StatFilter(old(State()), measurement)
    {
      var z := measurement.GetOr(0.0);
      var slowEstimate := slowFilter.Filter(z);
      var fastEstimate := fastFilter.Filter(z);
      if z > slowEstimate {
        if !useFastFilter {
          fastFilter.CopyState(slowFilter);
          useFastFilter := true;
        }
        r := fastEstimate;
      } else {
        if useFastFilter {
          slowFilter.CopyState(fastFilter);
          useFastFilter := false;
        }
        r := slowEstimate;
      }
    }
  }

  /** The inner filter of `StatisticsFilter<long>`: integer fields, truncating division. */
  class LongKalmanFilter {
    const measurementNoiseCovariance: int
    const processNoiseCovariance: int
    var priorEstimate: int
    var priorErrorCovariance: int

    function State(): FilterState<int>
      reads this
    {
      FilterState(priorEstimate, priorErrorCovariance)
    }

    constructor (processNoiseCovariance: int)
      ensures this.processNoiseCovariance == processNoiseCovariance
      ensures measurementNoiseCovariance == 1
      ensures State() == LongInitialState
    {
      measurementNoiseCovariance := 1;
      this.processNoiseCovariance := processNoiseCovariance;
      priorEstimate := 0;
      priorErrorCovariance := 1;
    }

    method CopyState(otherFilter: LongKalmanFilter)
      modifies this
      ensures State() == old(otherFilter.State()) && State() == otherFilter.State()
    {
      priorEstimate := otherFilter.priorEstimate;
      priorErrorCovariance := otherFilter.priorErrorCovariance;
    }

    method BeginReset()
      ensures unchanged(this)
    {
    }

    method Filter(measurement: int) returns (r: int)
      requires measurementNoiseCovariance == 1
      requires priorErrorCovariance + processNoiseCovariance + 1 != 0
      modifies this
      ensures State() == LongStep(old(State()), processNoiseCovariance, measurement)
      ensures r == priorEstimate
    {
      var estimate := priorEstimate;
      var errorCovariance := priorErrorCovariance + processNoiseCovariance;
      var gain := TruncDiv(errorCovariance, errorCovariance + measurementNoiseCovariance);
      priorEstimate := estimate + gain * (measurement - estimate);
      priorErrorCovariance := (1 - gain) * errorCovariance;
      r := priorEstimate;
    }
  }

  class LongStatisticsFilter {
    var useFastFilter: bool
    const slowFilter: LongKalmanFilter
    const fastFilter: LongKalmanFilter

    ghost function Repr(): set<object> {
      {this, slowFilter, fastFilter}
    }

    ghost predicate Valid()
      reads Repr()
    {
      slowFilter != fastFilter &&
      slowFilter.processNoiseCovariance == LongSlowProcessNoise &&
      fastFilter.processNoiseCovariance == LongFastProcessNoise &&
      slowFilter.measurementNoiseCovariance == 1 &&
      fastFilter.measurementNoiseCovariance == 1 &&
      LongValidState(State())
    }

    function State(): StatState<int>
      reads Repr()
    {
      StatState(slowFilter.State(), fastFilter.State(), useFastFilter)
    }

    constructor ()
      ensures Valid() && fresh(slowFilter) && fresh(fastFilter)
      ensures State() == LongInitialStatState
    {
      useFastFilter := false;
      slowFilter := new LongKalmanFilter(LongSlowProcessNoise);
      fastFilter := new LongKalmanFilter(LongFastProcessNoise);
    }

    method Filter(measurement: Option<int>) returns (r: int)
      requires Valid()
      modifies Repr()
      ensures Valid()
      ensures (State(), r) == LongStatFilter(old(State()), measurement)
    {
      var z := measurement.GetOr(0);
      var slowEstimate := slowFilter.Filter(z);
      var fastEstimate := fastFilter.Filter(z);
      if z > slowEstimate {
        if !useFastFilter {
          fastFilter.CopyState(slowFilter);
          useFastFilter := true;
        }
        r := fastEstimate;
      } else {
        if useFastFilter {
          slowFilter.CopyState(fastFilter);
          useFastFilter := false;
        }
        r := slowEstimate;
      }
    }
  }
}
