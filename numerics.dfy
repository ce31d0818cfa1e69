/** The integer and conversion semantics of C# that the model needs on top of Dafny's unbounded `int`. */
module Numerics {

  function Abs(x: int): int {
    if x < 0 then -x else x
  }

  function Min(a: real, b: real): real {
    if a <= b then a else b
  }

  function Max(a: real, b: real): real {
    if a <= b then b else a
  }

  /** `v` lies between `a` and `b`, in whichever order they come. */
  predicate Between(v: real, a: real, b: real) {
    Min(a, b) <= v <= Max(a, b)
  }

  /** 1 GiB, the constant `1024 * 1024 * 1024` of the score. */
  const Gibibyte: int := 1024 * 1024 * 1024

  /** C# `long` division `a / b`: the quotient of the magnitudes, truncated toward zero, with
      the sign of the quotient. */
  function TruncDiv(a: int, b: int): int
    requires b != 0
  {
    if a >= 0 then
      if b > 0 then a / b else -(a / -b)
    else
      if b > 0 then -((-a) / b) else (-a) / (-b)
  }

  /** The remainder that goes with `TruncDiv` is smaller than the divisor in magnitude and has
      the sign of the dividend, as for C#'s `%`. */
  lemma TruncDivRemainder(a: int, b: int)
    requires b != 0
    ensures Abs(a - b * TruncDiv(a, b)) < Abs(b)
    ensures a >= 0 ==> a - b * TruncDiv(a, b) >= 0
    ensures a <= 0 ==> a - b * TruncDiv(a, b) <= 0
  {
    var q := TruncDiv(a, b);
    if a >= 0 && b > 0 {
      RemainderBound(a, b);
      assert 0 <= a - b * q < b;
    } else if a >= 0 {
      RemainderBound(a, -b);
      assert a - b * q == a - (-b) * (a / -b);
      assert 0 <= a - b * q < -b;
    } else if b > 0 {
      RemainderBound(-a, b);
      assert a - b * q == -((-a) - b * ((-a) / b));
      assert -b < a - b * q <= 0;
    } else {
      RemainderBound(-a, -b);
      assert a - b * q == -((-a) - (-b) * ((-a) / (-b)));
      assert b < a - b * q <= 0;
    }
  }

  /** Euclidean division of a non-negative dividend leaves a remainder below the divisor. */
  lemma RemainderBound(x: int, y: int)
    requires x >= 0 && y > 0
    ensures 0 <= x - y * (x / y) < y
  {
  }

  lemma ProductNonNegative(a: int, b: int)
    requires a >= 0 && b >= 0
    ensures a * b >= 0
  {
  }

  /** A value scaled by a weight. */
  function Weigh(weight: real, value: real): real {
    weight * value
  }

  /** Scaling by a non-negative weight keeps the order. */
  lemma WeighMonotone(weight: real, x: real, y: real)
    requires weight >= 0.0 && x <= y
    ensures Weigh(weight, x) <= Weigh(weight, y)
  {
    assert weight * y - weight * x == weight * (y - x);
  }

  /** Euclidean division of non-negative numbers by a positive divisor is monotone. */
  lemma DivMonotone(x: int, y: int, b: int)
    requires 0 <= x <= y && b > 0
    ensures x / b <= y / b
  {
    var qx, qy := x / b, y / b;
    if qx > qy {
      ProductNonNegative(b, qx - qy - 1);
      assert false;
    }
  }

  /** A non-negative dividend below the divisor has quotient 0. */
  lemma TruncDivSmall(a: int, b: int)
    requires 0 <= a < b
    ensures TruncDiv(a, b) == 0
  {
    var q := a / b;
    if q > 0 {
      ProductNonNegative(b, q - 1);
      assert false;
    } else if q < 0 {
      ProductNonNegative(b, -q - 1);
      assert false;
    }
  }

  /** Truncating division by a positive divisor never decreases as the dividend grows. */
  lemma TruncDivMonotone(a1: int, a2: int, b: int)
    requires b > 0 && a1 <= a2
    ensures TruncDiv(a1, b) <= TruncDiv(a2, b)
  {
    if a1 >= 0 {
      DivMonotone(a1, a2, b);
    } else if a2 < 0 {
      DivMonotone(-a2, -a1, b);
    } else {
      DivMonotone(0, -a1, b);
      DivMonotone(0, a2, b);
    }
  }

  /** Dividing by a positive divisor keeps the order. */
  lemma QuotientMonotone(x: real, y: real, d: real)
    requires x <= y && d > 0.0
    ensures x / d <= y / d
  {
    assert y / d - x / d == (y - x) / d;
  }

  /** The C# cast `(long)x` of a floating-point value: truncation toward zero. */
  function TruncateToInt(x: real): (r: int)
    ensures x >= 0.0 ==> r >= 0 && r as real <= x < r as real + 1.0
    ensures x < 0.0 ==> r <= 0 && r as real - 1.0 < x <= r as real
  {
    if x >= 0.0 then x.Floor else -((-x).Floor)
  }

  /** A C# `float`: a finite value, one of the two infinities, or NaN. Rounding is not modelled:
      a finite value is an exact real, and the sign of a zero is not kept. */
  datatype Float = NaN | NegativeInfinity | Finite(value: real) | PositiveInfinity

  /** The quotient `x / y` of two finite `float`s. A zero divisor gives the infinity of the
      dividend's sign, or NaN when the dividend is 0 as well. */
  function FloatDiv(x: real, y: real): (r: Float)
    ensures r.Finite? <==> y != 0.0
    ensures r.Finite? ==> r.value * y == x
    ensures r == NaN <==> x == 0.0 && y == 0.0
  {
    if y != 0.0 then Finite(x / y)
    else if x > 0.0 then PositiveInfinity
    else if x < 0.0 then NegativeInfinity
    else NaN
  }

  /** The product `w * x` of a finite weight and a `float`: an infinity keeps or flips its sign
      with the weight's sign, and 0 times an infinity is NaN. */
  function Times(w: real, x: Float): (r: Float)
    ensures r.Finite? <==> x.Finite?
    ensures r.Finite? ==> r.value == Weigh(w, x.value)
    ensures r == NaN <==> x == NaN || (w == 0.0 && !x.Finite?)
  {
    match x
    case Finite(v) => Finite(Weigh(w, v))
    case NaN => NaN
    case PositiveInfinity => if w > 0.0 then PositiveInfinity else if w < 0.0 then NegativeInfinity else NaN
    case NegativeInfinity => if w > 0.0 then NegativeInfinity else if w < 0.0 then PositiveInfinity else NaN
  }

  /** The sum `x + y` of two `float`s: NaN wins, opposite infinities give NaN, and an infinity
      absorbs any finite value. */
  function Plus(x: Float, y: Float): (r: Float)
    ensures r.Finite? <==> x.Finite? && y.Finite?
    ensures r.Finite? ==> r.value == x.value + y.value
    ensures r == NaN <==> (x == NaN || y == NaN ||
                           (x == PositiveInfinity && y == NegativeInfinity) ||
                           (x == NegativeInfinity && y == PositiveInfinity))
  {
    match (x, y)
    case (NaN, _) => NaN
    case (_, NaN) => NaN
    case (Finite(a), Finite(b)) => Finite(a + b)
    case (PositiveInfinity, NegativeInfinity) => NaN
    case (NegativeInfinity, PositiveInfinity) => NaN
    case (PositiveInfinity, _) => PositiveInfinity
    case (_, PositiveInfinity) => PositiveInfinity
    case _ => NegativeInfinity
  }

  /** The position of a value's class in the order `float` compares in. */
  function Rank(x: Float): int {
    match x
    case NaN => 0
    case NegativeInfinity => 1
    case Finite(_) => 2
    case PositiveInfinity => 3
  }

  /** `x.CompareTo(y) < 0`, the order `Comparer<float>.Default` sorts by: NaN below everything
      else and equal to itself, then the negative infinity, the finite values by size, and the
      positive infinity on top. */
  predicate Below(x: Float, y: Float) {
    Rank(x) < Rank(y) || (x.Finite? && y.Finite? && x.value < y.value)
  }

  /** `Below` is a strict total order, so descending sorting by it is well defined. */
  lemma BelowIsStrictTotalOrder(x: Float, y: Float, z: Float)
    ensures !Below(x, x)
    ensures Below(x, y) && Below(y, z) ==> Below(x, z)
    ensures x == y || Below(x, y) || Below(y, x)
  {
  }

  /** Nothing compares above the positive infinity, and only the positive infinity compares at
      least as high as it. */
  lemma PositiveInfinityIsTop(x: Float)
    ensures !Below(PositiveInfinity, x)
    ensures !Below(x, PositiveInfinity) <==> x == PositiveInfinity
  {
  }
}
