/** The bare scalar Kalman filter of the KalmanTest program: no process noise, measurement noise 1,
    starting from estimate 0 and error covariance 1. Its n-step behaviour has a closed form:
    the estimate is the mean of the measurements together with the initial 0. */
module DKalman {
  import opened ScalarKalman

  /** z1 + ... + zn. */
  function Sum(zs: seq<real>): real
    decreases |zs|
  {
    if zs == [] then 0.0 else Sum(zs[..|zs| - 1]) + zs[|zs| - 1]
  }

  /** The state after filtering `zs` in order, from the initial state. There is no process
      noise, which is a process noise covariance of 0. */
  function Run(zs: seq<real>): (s: FilterState<real>)
    ensures s.errorCovariance > 0.0
    decreases |zs|
  {
    if zs == [] then InitialState
    else Step(Run(zs[..|zs| - 1]), 0.0, zs[|zs| - 1])
  }

  /** With covariance 1/m the gain is 1/(m+1). */
  lemma GainAtReciprocal(m: real)
    requires m >= 1.0
    ensures Gain(1.0 / m) == 1.0 / (m + 1.0)
  {
    var p := 1.0 / m;
    var k := Gain(p);
    assert k * (p + 1.0) == p;
    assert p * m == 1.0;
    assert (p + 1.0) * m == m + 1.0;
    assert k * (m + 1.0) == k * ((p + 1.0) * m) == p * m;
  }

  /** Mixing the mean S/m of m values with one more value z at gain 1/(m+1) gives the mean of m+1 values. */
  lemma MeanStep(total: real, z: real, m: real)
    requires m >= 1.0
    ensures total / m + (1.0 / (m + 1.0)) * (z - total / m) == (total + z) / (m + 1.0)
  {
    var x := total / m;
    assert x * m == total;
    calc {
      (x + (1.0 / (m + 1.0)) * (z - x)) * (m + 1.0);
      x * (m + 1.0) + (z - x);
      x * m + z;
      total + z;
    }
  }

  /** After measurements z1..zn the estimate is (z1 + ... + zn)/(n+1) and the covariance 1/(n+1). */
  lemma {:induction false} RunningMean(zs: seq<real>)
    ensures Run(zs) == FilterState(Sum(zs) / (|zs| + 1) as real, 1.0 / (|zs| + 1) as real)
    decreases |zs|
  {
    if zs != [] {
      var prefix := zs[..|zs| - 1];
      var z := zs[|zs| - 1];
      var m := (|prefix| + 1) as real;
      RunningMean(prefix);
      StepFromMean(Sum(prefix), z, m);
      assert (|zs| + 1) as real == m + 1.0;
    }
  }

  /** One call from the mean of m values (covariance 1/m) gives the mean of m+1 values. */
  lemma StepFromMean(total: real, z: real, m: real)
    requires m >= 1.0
    ensures Step(FilterState(total / m, 1.0 / m), 0.0, z) == FilterState((total + z) / (m + 1.0), 1.0 / (m + 1.0))
  {
    var prev := FilterState(total / m, 1.0 / m);
    var next := Step(prev, 0.0, z);
    var k := Gain(prev.errorCovariance + 0.0);
    assert k == 1.0 / (m + 1.0) by {
      GainAtReciprocal(m);
    }
    assert next.errorCovariance == 1.0 / (m + 1.0);
    assert next.estimate == prev.estimate + k * (z - prev.estimate);
    MeanStep(total, z, m);
    assert next.estimate == (total + z) / (m + 1.0);
  }

  /** The gain of the next call is 1/(n+2): strictly between 0 and 1. */
  lemma {:induction false} GainStrictlyInsideUnitInterval(zs: seq<real>)
    ensures Gain(Run(zs).errorCovariance) == 1.0 / (|zs| + 2) as real
    ensures 0.0 < Gain(Run(zs).errorCovariance) < 1.0
  {
    RunningMean(zs);
    GainAtReciprocal((|zs| + 1) as real);
    assert (|zs| + 1) as real + 1.0 == (|zs| + 2) as real;
  }

  /** A call without process noise, spelled out. */
  lemma StepWithoutProcessNoise(estimate: real, errorCovariance: real, z: real)
    requires errorCovariance + 1.0 != 0.0
    ensures Step(FilterState(estimate, errorCovariance), 0.0, z).estimate ==
      estimate + Gain(errorCovariance + 0.0) * (z - estimate)
    ensures Step(FilterState(estimate, errorCovariance), 0.0, z).errorCovariance ==
      (1.0 - Gain(errorCovariance + 0.0)) * errorCovariance
  {
    assert errorCovariance + 0.0 == errorCovariance;
  }

  /** One more measurement is one more call from the current state. */
  lemma RunOneMore(zs: seq<real>, z: real)
    ensures Run(zs + [z]) == Step(Run(zs), 0.0, z)
  {
    assert (zs + [z])[..|zs|] == zs;
  }

  class DKalmanFilter {
    const estimatedMeasurementNoiseCovariance: real
    var priorEstimate: real
    var priorErrorCovariance: real
    /** The measurements filtered so far, oldest first. */
    ghost var measurements: seq<real>

    ghost predicate Valid()
      reads this
    {
      estimatedMeasurementNoiseCovariance == MeasurementNoiseCovariance &&
      FilterState(priorEstimate, priorErrorCovariance) == Run(measurements)
    }

    constructor ()
      ensures Valid() && measurements == []
      ensures priorEstimate == 0.0 && priorErrorCovariance == 1.0
    {
      estimatedMeasurementNoiseCovariance := 1.0;
      priorEstimate := 0.0;
      priorErrorCovariance := 1.0;
      measurements := [];
    }

    /** One call: the state moves by one scalar Kalman step without process noise, so the
        estimate is the mean of the measurements so far and the initial 0 (`RunningMean`). */
    method Filter(measurement: real) returns (r: real)
      requires Valid()
      modifies this
      ensures Valid() && measurements == old(measurements) + [measurement]
      ensures FilterState(priorEstimate, priorErrorCovariance) ==
              Step(FilterState(old(priorEstimate), old(priorErrorCovariance)), 0.0, measurement)
      ensures r == priorEstimate
    {
      ghost var s := FilterState(priorEstimate, priorErrorCovariance);
      // prediction
      var estimate := priorEstimate;
      var errorCovariance := priorErrorCovariance;
      // correction
      var gain := errorCovariance / (errorCovariance + estimatedMeasurementNoiseCovariance);
      assert gain == Gain(errorCovariance + 0.0);
      var estimateCorrected := estimate + gain * (measurement - estimate);
      var errorCovarianceCorrected := (1.0 - gain) * errorCovariance;
      StepWithoutProcessNoise(estimate, errorCovariance, measurement);
      assert estimateCorrected == Step(s, 0.0, measurement).estimate;
      assert errorCovarianceCorrected == Step(s, 0.0, measurement).errorCovariance;
      RunOneMore(measurements, measurement);
      measurements := measurements + [measurement];
      priorErrorCovariance := errorCovarianceCorrected;
      priorEstimate := estimateCorrected;
      r := priorEstimate;
    }
  }
}
