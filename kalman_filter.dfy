/** The four-dimensional Kalman filter over hand-written `float[,]` helpers. Every matrix it
    starts from is the 4x4 identity and `Inverse` returns its argument, so each matrix in
    `Update` stays a multiple of the identity: the filter acts on the four statistics as four
    identical scalar filters whose gain is P'·S = (p+1)(p+2) rather than P'/S. */
module MatrixKalman {
  import opened Wrappers
  import opened Numerics
  import opened Statistics

  /** `m` is the 4x4 matrix c·I. */
  ghost predicate IsScaledIdentity(m: array2<real>, c: real)
    reads m
  {
    m.Length0 == 4 && m.Length1 == 4 &&
    forall i, j :: 0 <= i < 4 && 0 <= j < 4 ==> m[i, j] == (if i == j then c else 0.0)
  }

  /** a[i,0]·b[0,j] + ... + a[i,n-1]·b[n-1,j]. */
  ghost function SumProd(a: array2<real>, b: array2<real>, i: nat, j: nat, n: nat): real
    reads a, b
    requires i < a.Length0 && j < b.Length1 && n <= a.Length1 && n <= b.Length0
  {
    if n == 0 then 0.0 else SumProd(a, b, i, j, n - 1) + a[i, n - 1] * b[n - 1, j]
  }

  /** `r` is the product a·b over the first a.Length1 rows of `b`. */
  ghost predicate IsProduct(r: array2<real>, a: array2<real>, b: array2<real>)
    reads r, a, b
  {
    a.Length1 <= b.Length0 && r.Length0 == a.Length0 && r.Length1 == b.Length1 &&
    forall i, j {:trigger r[i, j]} :: 0 <= i < r.Length0 && 0 <= j < r.Length1 ==> r[i, j] == SumProd(a, b, i, j, a.Length1)
  }

  /** `r` has the shape of `a` and holds a + b (or a - b when `subtract`) elementwise. */
  ghost predicate IsElementwise(r: array2<real>, a: array2<real>, b: array2<real>, subtract: bool)
    reads r, a, b
  {
    r.Length0 == a.Length0 && r.Length1 == a.Length1 &&
    a.Length0 <= b.Length0 && a.Length1 <= b.Length1 &&
    forall i, j {:trigger r[i, j]} :: 0 <= i < r.Length0 && 0 <= j < r.Length1 ==>
      r[i, j] == (if subtract then a[i, j] - b[i, j] else a[i, j] + b[i, j])
  }

  /** A fresh 4x4 array with 1 on the diagonal and 0 elsewhere. */
  method Identity() returns (result: array2<real>)
    ensures fresh(result)
    ensures IsScaledIdentity(result, 1.0)
  {
    result := new real[4, 4]((_, _) => 0.0);
    for i := 0 to 4
      invariant forall r, c :: 0 <= r < 4 && 0 <= c < 4 ==>
        result[r, c] == (if r == c && r < i then 1.0 else 0.0)
    {
      result[i, i] := 1.0;
    }
  }

  /** The result has the transposed shape, but only the top-left 4x4 block is copied (the loop
      bounds are fixed at 4); the rest stays 0. An input smaller than 4x4 would throw. */
  method Transpose(matrix: array2<real>) returns (result: array2<real>)
    requires matrix.Length0 >= 4 && matrix.Length1 >= 4
    ensures fresh(result)
    ensures result.Length0 == matrix.Length1 && result.Length1 == matrix.Length0
    ensures forall j, i :: 0 <= j < result.Length0 && 0 <= i < result.Length1 ==>
      result[j, i] == (if i < 4 && j < 4 then matrix[i, j] else 0.0)
  {
    var rows := matrix.Length0;
    var cols := matrix.Length1;
    result := new real[cols, rows]((_, _) => 0.0);
    for i := 0 to 4
      invariant forall c, r :: 0 <= c < cols && 0 <= r < rows ==>
        result[c, r] == (if r < i && c < 4 then matrix[r, c] else 0.0)
    {
      for j := 0 to 4
        invariant forall c, r :: 0 <= c < cols && 0 <= r < rows ==>
          result[c, r] == (if (r < i || (r == i && c < j)) && c < 4 then matrix[r, c] else 0.0)
      {
        result[j, i] := matrix[i, j];
      }
    }
  }

  /** rowsA x colsB, entry (i, j) the sum over k < colsA of a[i,k]·b[k,j]; `b` needs at least colsA rows. */
  method Multiply(a: array2<real>, b: array2<real>) returns (result: array2<real>)
    requires a.Length1 <= b.Length0
    ensures fresh(result)
    ensures IsProduct(result, a, b)
  {
    var rowsA := a.Length0;
    var colsA := a.Length1;
    var colsB := b.Length1;
    result := new real[rowsA, colsB];
    for i := 0 to rowsA
      invariant forall r, c :: 0 <= r < i && 0 <= c < colsB ==> result[r, c] == SumProd(a, b, r, c, colsA)
    {
      for j := 0 to colsB
        invariant forall r, c :: 0 <= r < i && 0 <= c < colsB ==> result[r, c] == SumProd(a, b, r, c, colsA)
        invariant forall c :: 0 <= c < j ==> result[i, c] == SumProd(a, b, i, c, colsA)
      {
        var sum := 0.0;
        for k := 0 to colsA
          invariant sum == SumProd(a, b, i, j, k)
        {
          sum := sum + a[i, k] * b[k, j];
        }
        result[i, j] := sum;
      }
    }
  }

  /** The elementwise sum, shaped like `a`; `b` must be at least as large. */
  method Add(a: array2<real>, b: array2<real>) returns (result: array2<real>)
    requires a.Length0 <= b.Length0 && a.Length1 <= b.Length1
    ensures fresh(result)
    ensures IsElementwise(result, a, b, false)
  {
    var rows := a.Length0;
    var cols := a.Length1;
    result := new real[rows, cols];
    for i := 0 to rows
      invariant forall r, c :: 0 <= r < i && 0 <= c < cols ==> result[r, c] == a[r, c] + b[r, c]
    {
      for j := 0 to cols
        invariant forall r, c :: 0 <= r < i && 0 <= c < cols ==> result[r, c] == a[r, c] + b[r, c]
        invariant forall c :: 0 <= c < j ==> result[i, c] == a[i, c] + b[i, c]
      {
        result[i, j] := a[i, j] + b[i, j];
      }
    }
  }

  /** The elementwise difference, shaped like `a`; `b` must be at least as large. */
  method Subtract(a: array2<real>, b: array2<real>) returns (result: array2<real>)
    requires a.Length0 <= b.Length0 && a.Length1 <= b.Length1
    ensures fresh(result)
    ensures IsElementwise(result, a, b, true)
  {
    var rows := a.Length0;
    var cols := a.Length1;
    result := new real[rows, cols];
    for i := 0 to rows
      invariant forall r, c :: 0 <= r < i && 0 <= c < cols ==> result[r, c] == a[r, c] - b[r, c]
    {
      for j := 0 to cols
        invariant forall r, c :: 0 <= r < i && 0 <= c < cols ==> result[r, c] == a[r, c] - b[r, c]
        invariant forall c :: 0 <= c < j ==> result[i, c] == a[i, c] - b[i, c]
      {
        result[i, j] := a[i, j] - b[i, j];
      }
    }
  }

  /** The inversion is a stub: the very same array comes back, not a copy and not an inverse. */
  method Inverse(matrix: array2<real>) returns (result: array2<real>)
    ensures result == matrix
  {
    result := matrix;
  }

  /** Summing a row of c·I against a column of `b` picks c·b[i,j] once k has passed i. */
  lemma {:induction false} SumProdScaled(a: array2<real>, b: array2<real>, c: real, i: nat, j: nat, n: nat)
    requires IsScaledIdentity(a, c) && i < 4 && j < b.Length1 && n <= 4 <= b.Length0
    ensures SumProd(a, b, i, j, n) == (if i < n then c * b[i, j] else 0.0)
  {
    if n > 0 {
      SumProdScaled(a, b, c, i, j, n - 1);
    }
  }

  /** c·I times `b` is c·b. */
  lemma ScaledProduct(r: array2<real>, a: array2<real>, b: array2<real>, c: real)
    requires IsScaledIdentity(a, c) && IsProduct(r, a, b)
    ensures r.Length0 == 4 && r.Length1 == b.Length1
    ensures forall i, j :: 0 <= i < 4 && 0 <= j < r.Length1 ==> r[i, j] == c * b[i, j]
  {
    forall i, j | 0 <= i < 4 && 0 <= j < r.Length1
      ensures r[i, j] == c * b[i, j]
    {
      SumProdScaled(a, b, c, i, j, 4);
    }
  }

  /** `Multiply(Identity(), m) = m` for every `m` with four rows. */
  lemma IdentityProduct(r: array2<real>, identity: array2<real>, m: array2<real>)
    requires IsScaledIdentity(identity, 1.0) && IsProduct(r, identity, m) && m.Length0 == 4
    ensures r.Length0 == m.Length0 && r.Length1 == m.Length1
    ensures forall i, j :: 0 <= i < 4 && 0 <= j < m.Length1 ==> r[i, j] == m[i, j]
  {
    ScaledProduct(r, identity, m, 1.0);
  }

  /** c·I times d·I is e·I for e = c·d. */
  lemma ScaledTimesScaled(r: array2<real>, a: array2<real>, b: array2<real>, c: real, d: real, e: real)
    requires IsScaledIdentity(a, c) && IsScaledIdentity(b, d) && IsProduct(r, a, b) && e == c * d
    ensures IsScaledIdentity(r, e)
  {
    ScaledProduct(r, a, b, c);
  }

  /** c·I plus (or minus) d·I is e·I for e = c + d (or c - d). */
  lemma ScaledElementwise(r: array2<real>, a: array2<real>, b: array2<real>, c: real, d: real, subtract: bool, e: real)
    requires IsScaledIdentity(a, c) && IsScaledIdentity(b, d) && IsElementwise(r, a, b, subtract)
    requires e == if subtract then c - d else c + d
    ensures IsScaledIdentity(r, e)
  {
  }

  lemma ScaledTranspose(r: array2<real>, m: array2<real>, c: real)
    requires IsScaledIdentity(m, c)
    requires r.Length0 == 4 && r.Length1 == 4
    requires forall j, i :: 0 <= j < 4 && 0 <= i < 4 ==> r[j, i] == m[i, j]
    ensures IsScaledIdentity(r, c)
  {
  }

  /** `from` moved the fraction `gain` of the way to `to`. */
  function Toward(from: real, gain: real, to: real): real {
    from + gain * (to - from)
  }

  /** x + K·(z - H·x) with H·x = x and K·v = g·v moves each entry the fraction g towards z. */
  lemma Corrected(xNew: array2<real>, x0: array2<real>, ky: array2<real>, y: array2<real>,
                  hx: array2<real>, z: array2<real>, g: real)
    requires x0.Length0 == 4 && x0.Length1 == 1 && z.Length0 == 4 && z.Length1 == 1
    requires hx.Length0 == 4 && hx.Length1 == 1
    requires forall i, j :: 0 <= i < 4 && 0 <= j < x0.Length1 ==> hx[i, j] == x0[i, j]
    requires IsElementwise(y, z, hx, true)
    requires ky.Length0 == 4 && ky.Length1 == y.Length1
    requires forall i, j :: 0 <= i < 4 && 0 <= j < ky.Length1 ==> ky[i, j] == g * y[i, j]
    requires IsElementwise(xNew, x0, ky, false)
    ensures xNew.Length0 == 4 && xNew.Length1 == 1
    ensures forall i :: 0 <= i < 4 ==> xNew[i, 0] == Toward(x0[i, 0], g, z[i, 0])
  {
    forall i | 0 <= i < 4
      ensures xNew[i, 0] == Toward(x0[i, 0], g, z[i, 0])
    {
      assert y[i, 0] == z[i, 0] - x0[i, 0];
      assert ky[i, 0] == g * y[i, 0];
    }
  }

  /** The measurement as a vector, missing fields as 0. */
  function MeasurementVector(stats: SiloRuntimeStatistics): seq<real> {
    [stats.cpuUsage.GetOr(0.0), stats.availableMemory.GetOr(0.0),
     ToReal(stats.memoryUsage).GetOr(0.0), ToReal(stats.totalPhysicalMemory).GetOr(0.0)]
  }

  /** A fresh 4x1 column of the four statistics, a missing one as 0. */
  method ConvertToVector(stats: SiloRuntimeStatistics) returns (result: array2<real>)
    ensures fresh(result)
    ensures result.Length0 == 4 && result.Length1 == 1
    ensures forall i :: 0 <= i < 4 ==> result[i, 0] == MeasurementVector(stats)[i]
    ensures stats.cpuUsage.None? ==> result[0, 0] == 0.0
    ensures stats.availableMemory.None? ==> result[1, 0] == 0.0
    ensures stats.memoryUsage.None? ==> result[2, 0] == 0.0
    ensures stats.totalPhysicalMemory.None? ==> result[3, 0] == 0.0
  {
    result := new real[4, 1];
    result[0, 0] := stats.cpuUsage.GetOr(0.0);
    result[1, 0] := stats.availableMemory.GetOr(0.0);
    result[2, 0] := ToReal(stats.memoryUsage).GetOr(0.0);
    result[3, 0] := ToReal(stats.totalPhysicalMemory).GetOr(0.0);
  }

  /** The statistics read back from a state vector: every field present, the two `float` fields
      as stored, the two `long` fields truncated toward zero. */
  function ConvertToStatistics(vector: array2<real>, isOverloaded: bool): (r: ResourceStatistics)
    reads vector
    requires vector.Length0 >= 4 && vector.Length1 >= 1
    ensures r.cpuUsage == Some(vector[0, 0]) && r.availableMemory == Some(vector[1, 0])
    ensures r.memoryUsage.Some? && r.totalPhysicalMemory.Some?
    ensures r.memoryUsage == Some(TruncateToInt(vector[2, 0]))
    ensures r.totalPhysicalMemory == Some(TruncateToInt(vector[3, 0]))
    ensures Abs(r.memoryUsage.value) as real <= if vector[2, 0] < 0.0 then -vector[2, 0] else vector[2, 0]
    ensures Abs(r.totalPhysicalMemory.value) as real <= if vector[3, 0] < 0.0 then -vector[3, 0] else vector[3, 0]
    ensures r.isOverloaded == isOverloaded
  {
    ResourceStatistics(
      Some(vector[0, 0]),
      Some(vector[1, 0]),
      Some(TruncateToInt(vector[2, 0])),
      Some(TruncateToInt(vector[3, 0])),
      isOverloaded)
  }

  /** The gain each diagonal entry gets from the predicted covariance P' = predicted·I:
      K = P'·H'·Inverse(S) with S = H·P'·H' + R = (predicted + 1)·I, and Inverse hands S back
      unchanged, so K = predicted·(predicted + 1)·I instead of predicted/(predicted + 1)·I. */
  function StubGain(predicted: real): real {
    predicted * (predicted + 1.0)
  }

  class KalmanFilter {
    const H: array2<real>
    const F: array2<real>
    const Q: array2<real>
    const R: array2<real>
    var P: array2<real>
    var x: array2<real>
    /** The error covariance is p·I. */
    ghost var p: real

    ghost predicate Valid()
      reads this, H, F, Q, R, P, x
    {
      IsScaledIdentity(H, 1.0) && IsScaledIdentity(F, 1.0) &&
      IsScaledIdentity(Q, 1.0) && IsScaledIdentity(R, 1.0) &&
      IsScaledIdentity(P, p) && x.Length0 == 4 && x.Length1 == 1
    }

    /** The state vector as a sequence. */
    ghost function Estimate(): seq<real>
      reads this, x
      requires x.Length0 == 4 && x.Length1 == 1
    {
      [x[0, 0], x[1, 0], x[2, 0], x[3, 0]]
    }

    constructor ()
      ensures Valid() && p == 1.0 && Estimate() == [0.0, 0.0, 0.0, 0.0]
    {
      var h := Identity();
      var f := Identity();
      var q := Identity();
      var rr := Identity();
      var p0 := Identity();
      H, F, Q, R, P := h, f, q, rr, p0;
      x := new real[4, 1]((_, _) => 0.0);
      p := 1.0;
    }

    method Update(measurement: SiloRuntimeStatistics) returns (r: ResourceStatistics)
      requires Valid()
      modifies this
      ensures Valid()
      ensures p == (1.0 - StubGain(old(p) + 1.0)) * (old(p) + 1.0)
      ensures forall i :: 0 <= i < 4 ==>
        x[i, 0] == Toward(old(x[i, 0]), StubGain(old(p) + 1.0), MeasurementVector(measurement)[i])
      ensures r == ConvertToStatistics(x, measurement.isOverloaded)
    {
      var z := ConvertToVector(measurement);
      Predict();
      ghost var predicted := p;
      ghost var x1 := x;
      Correct(z);
      assert forall i :: 0 <= i < 4 ==> x1[i, 0] == old(x[i, 0]);
      r := ConvertToStatistics(x, measurement.isOverloaded);
    }

    /** The prediction step of `Update`: x = F·x and P = F·P·F' + Q. */
    method Predict()
      requires Valid()
      modifies this
      ensures Valid()
      ensures p == old(p) + 1.0
      ensures forall i :: 0 <= i < 4 ==> x[i, 0] == old(x[i, 0])
    {
      ghost var x0 := x;
      ghost var p0 := p;
      x := Multiply(F, x);
      IdentityProduct(x, F, x0);
      var fp := Multiply(F, P);
      ScaledTimesScaled(fp, F, P, 1.0, p0, p0);
      var ft := Transpose(F);
      ScaledTranspose(ft, F, 1.0);
      var fpft := Multiply(fp, ft);
      ScaledTimesScaled(fpft, fp, ft, p0, 1.0, p0);
      P := Add(fpft, Q);
      ScaledElementwise(P, fpft, Q, p0, 1.0, false, p0 + 1.0);
      p := p0 + 1.0;
    }

    /** The correction step of `Update` with measurement vector `z`: y = z - H·x,
        S = H·P·H' + R, K = P·H'·Inverse(S), x = x + K·y and P = (I - K·H)·P. */
    method Correct(z: array2<real>)
      requires Valid() && z.Length0 == 4 && z.Length1 == 1
      modifies this
      ensures Valid()
      ensures p == (1.0 - StubGain(old(p))) * old(p)
      ensures forall i :: 0 <= i < 4 ==> x[i, 0] == Toward(old(x[i, 0]), StubGain(old(p)), z[i, 0])
    {
      ghost var predicted := p;
      ghost var g := StubGain(predicted);
      var k := Gain(predicted);
      var xNew := CorrectedEstimate(z, k, g);
      var pNew := CorrectedCovariance(k, g);
      x, P := xNew, pNew;
      p := (1.0 - g) * predicted;
    }

    /** x + K·(z - H·x) for a gain K = g·I: each entry moves the fraction g towards z. */
    method CorrectedEstimate(z: array2<real>, k: array2<real>, ghost g: real) returns (xNew: array2<real>)
      requires IsScaledIdentity(H, 1.0) && x.Length0 == 4 && x.Length1 == 1
      requires z.Length0 == 4 && z.Length1 == 1 && IsScaledIdentity(k, g)
      ensures xNew.Length0 == 4 && xNew.Length1 == 1
      ensures forall i :: 0 <= i < 4 ==> xNew[i, 0] == Toward(x[i, 0], g, z[i, 0])
    {
      var hx := Multiply(H, x);
      IdentityProduct(hx, H, x);
      var y := Subtract(z, hx);
      var ky := Multiply(k, y);
      ScaledProduct(ky, k, y, g);
      xNew := Add(x, ky);
      Corrected(xNew, x, ky, y, hx, z, g);
    }

    /** (I - K·H)·P for a gain K = g·I and P = p·I: the covariance becomes (1 - g)·p·I. */
    method CorrectedCovariance(k: array2<real>, ghost g: real) returns (pNew: array2<real>)
      requires IsScaledIdentity(H, 1.0) && IsScaledIdentity(P, p) && IsScaledIdentity(k, g)
      ensures IsScaledIdentity(pNew, (1.0 - g) * p)
    {
      var ikh := IdentityMinusGain(k, g);
      pNew := Multiply(ikh, P);
      ScaledTimesScaled(pNew, ikh, P, 1.0 - g, p, (1.0 - g) * p);
    }

    /** I - K·H for a gain K = g·I. */
    method IdentityMinusGain(k: array2<real>, ghost g: real) returns (ikh: array2<real>)
      requires IsScaledIdentity(H, 1.0) && IsScaledIdentity(k, g)
      ensures IsScaledIdentity(ikh, 1.0 - g)
    {
      var kh := Multiply(k, H);
      ScaledTimesScaled(kh, k, H, g, 1.0, g);
      var identity := Identity();
      ikh := Subtract(identity, kh);
      ScaledElementwise(ikh, identity, kh, 1.0, g, true, 1.0 - g);
    }

    /** The gain K = P·H'·Inverse(S) with S = H·P·H' + R, for P = predicted·I. */
    method Gain(ghost predicted: real) returns (k: array2<real>)
      requires Valid() && p == predicted
      ensures IsScaledIdentity(k, StubGain(predicted))
    {
      var hp := Multiply(H, P);
      ScaledTimesScaled(hp, H, P, 1.0, predicted, predicted);
      var ht := Transpose(H);
      ScaledTranspose(ht, H, 1.0);
      var hpht := Multiply(hp, ht);
      ScaledTimesScaled(hpht, hp, ht, predicted, 1.0, predicted);
      var s := Add(hpht, R);
      ScaledElementwise(s, hpht, R, predicted, 1.0, false, predicted + 1.0);
      var pht := Multiply(P, ht);
      ScaledTimesScaled(pht, P, ht, predicted, 1.0, predicted);
      var sInverse := Inverse(s);
      k := Multiply(pht, sInverse);
      ScaledTimesScaled(k, pht, sInverse, predicted, predicted + 1.0, StubGain(predicted));
    }
  }

  /** The first `Update` of a new filter returns six times the measurement, because the stub
      inverse turns the gain 2/3 into 6; the covariance becomes -10·I. */
  method FirstUpdateScalesMeasurement(measurement: SiloRuntimeStatistics) returns (r: ResourceStatistics)
    ensures r.cpuUsage == Some(6.0 * measurement.cpuUsage.GetOr(0.0))
    ensures r.availableMemory == Some(6.0 * measurement.availableMemory.GetOr(0.0))
    ensures r.memoryUsage == Some(6 * measurement.memoryUsage.GetOr(0))
    ensures r.totalPhysicalMemory == Some(6 * measurement.totalPhysicalMemory.GetOr(0))
    ensures r.isOverloaded == measurement.isOverloaded
  {
    var filter := new KalmanFilter();
    r := filter.Update(measurement);
    assert StubGain(2.0) == 6.0;
    assert filter.Estimate()[2] == 6.0 * MeasurementVector(measurement)[2];
    assert filter.Estimate()[3] == 6.0 * MeasurementVector(measurement)[3];
  }

  /** The covariance factor of a new filter after `n` updates, following `Update`'s recurrence
      p ↦ (1 − StubGain(p + 1))·(p + 1) from p = 1. */
  function CovarianceAfter(n: nat): real {
    if n == 0 then 1.0
    else
      var predicted := CovarianceAfter(n - 1) + 1.0;
      (1.0 - StubGain(predicted)) * predicted
  }

  /** `n` updates of a new filter leave its covariance at `CovarianceAfter(n)`·I. */
  method UpdateRepeatedly(measurement: SiloRuntimeStatistics, n: nat) returns (filter: KalmanFilter)
    ensures fresh(filter) && filter.Valid() && filter.p == CovarianceAfter(n)
  {
    filter := new KalmanFilter();
    for i := 0 to n
      invariant filter.Valid() && filter.p == CovarianceAfter(i)
    {
      var _ := filter.Update(measurement);
    }
  }

  /** The covariance alternates in sign and grows without bound: 1, −10, 639, −262552960, then
      above 10^25, so the gain of the fifth update exceeds the largest finite `float`
      (about 3.4·10^38). */
  lemma CovarianceDiverges()
    ensures CovarianceAfter(1) == -10.0 && CovarianceAfter(2) == 639.0
    ensures CovarianceAfter(3) == -262552960.0
    ensures CovarianceAfter(4) > 10000000000000000000000000.0
    ensures StubGain(CovarianceAfter(4) + 1.0) > 340282346638528859811704183484516925440.0
  {
    assert CovarianceAfter(1) == -10.0;
    assert CovarianceAfter(2) == 639.0;
    assert CovarianceAfter(3) == -262552960.0;
    var p4 := CovarianceAfter(4);
    assert p4 == (1.0 - StubGain(-262552959.0)) * -262552959.0;
    assert p4 > 10000000000000000000000000.0;
    assert StubGain(p4 + 1.0) == (p4 + 1.0) * (p4 + 2.0);
  }
}
