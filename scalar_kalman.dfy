/** The one-dimensional Kalman step shared by the scalar filters: unit state transition,
    no control input, unit observation and a measurement noise covariance R of 1. */
module ScalarKalman {
  import opened Numerics

  /** The prior estimate and prior error covariance a filter keeps between calls. */
  datatype FilterState<T> = FilterState(estimate: T, errorCovariance: T)

  /** Every scalar filter starts with estimate 0 and error covariance 1. */
  const InitialState: FilterState<real> := FilterState(0.0, 1.0)
  const LongInitialState: FilterState<int> := FilterState(0, 1)

  const MeasurementNoiseCovariance: real := 1.0

  /** The gain K = P / (P + R). */
  function Gain(predictedCovariance: real): (k: real)
    requires predictedCovariance + MeasurementNoiseCovariance != 0.0
    ensures predictedCovariance >= 0.0 ==> 0.0 <= k < 1.0
    ensures predictedCovariance > 0.0 ==> 0.0 < k
    ensures k * (predictedCovariance + 1.0) == predictedCovariance
  {
    predictedCovariance / (predictedCovariance + MeasurementNoiseCovariance)
  }

  /** One `Filter` call on `float` state with process noise `q`: predict P' = P + q, take the
      gain K = P'/(P'+1), correct the estimate x' = x + K(z - x) and the covariance (1 - K)P'. */
  function Step(s: FilterState<real>, q: real, z: real): (r: FilterState<real>)
    requires s.errorCovariance + q + 1.0 != 0.0
    ensures r.errorCovariance == Gain(s.errorCovariance + q)
    ensures r.estimate - z == (1.0 - Gain(s.errorCovariance + q)) * (s.estimate - z)
    ensures s.errorCovariance + q >= 0.0 ==>
      0.0 <= r.errorCovariance < 1.0 && r.errorCovariance <= s.errorCovariance + q &&
      Between(r.estimate, s.estimate, z)
  {
    var estimate := s.estimate;
    var errorCovariance := s.errorCovariance + q;
    var gain := Gain(errorCovariance);
    var newEstimate := estimate + gain * (z - estimate);
    var newErrorCovariance := (1.0 - gain) * errorCovariance;
    assert newErrorCovariance == gain by {
      calc {
        newErrorCovariance;
        errorCovariance - gain * errorCovariance;
        gain * (errorCovariance + 1.0) - gain * errorCovariance;
        gain;
      }
    }
    FilterState(newEstimate, newErrorCovariance)
  }

  /** The same call on `long` state: every operation is integer arithmetic and the gain is a
      truncating division, so with a non-negative predicted covariance the gain is 0 and the
      estimate never moves toward the measurement. */
  function LongStep(s: FilterState<int>, q: int, z: int): (r: FilterState<int>)
    requires s.errorCovariance + q + 1 != 0
    ensures s.errorCovariance + q >= 0 ==>
      r == FilterState(s.estimate, s.errorCovariance + q)
  {
    var estimate := s.estimate;
    var errorCovariance := s.errorCovariance + q;
    var gain := TruncDiv(errorCovariance, errorCovariance + 1);
    FilterState(estimate + gain * (z - estimate), (1 - gain) * errorCovariance)
  }
}
