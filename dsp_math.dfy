/** Numeric vocabulary shared by every stage of the tape chain.
    Samples are modelled as `real`. The C math library calls of the DSP code
    (tan, exp, sin, cos, sqrt, pow) are uninterpreted: they are the fields of a
    `MathLib` value, so every property proved here holds whatever they return. */
module DspMath {

  /** The transcendental functions the DSP code calls, as arbitrary total functions. */
  datatype MathLib = MathLib(
    tan: real -> real,
    exp: real -> real,
    sin: real -> real,
    cos: real -> real,
    sqrt: real -> real,
    pow: (real, real) -> real)

  /** M_PI as the sources define it. */
  const Pi: real := 3.14159265358979323846

  /** std::abs / std::fabs on a sample. */
  function Abs(x: real): (r: real)
    ensures r >= 0.0 && (r == x || r == -x)
  {
    if x < 0.0 then -x else x
  }

  /** std::min / std::fmin on samples. */
  function Min(a: real, b: real): (r: real)
    ensures r <= a && r <= b && (r == a || r == b)
  {
    if a <= b then a else b
  }

  /** std::max on samples. */
  function Max(a: real, b: real): (r: real)
    ensures r >= a && r >= b && (r == a || r == b)
  {
    if a >= b then a else b
  }

  /** std::min on ints. */
  function MinInt(a: int, b: int): (r: int)
    ensures r <= a && r <= b && (r == a || r == b)
  {
    if a <= b then a else b
  }

  /** Division as the float code performs it for a nonzero divisor; a zero
      divisor (an infinity or NaN in IEEE arithmetic) yields 0 in the model. */
  function Div(a: real, b: real): (r: real)
    ensures b != 0.0 ==> r * b == a
  {
    if b == 0.0 then 0.0 else a / b
  }

  /** The product of two non-negative numbers is non-negative. */
  lemma MulNonNeg(x: real, y: real)
    requires x >= 0.0 && y >= 0.0
    ensures x * y >= 0.0
  {
  }

  /** `n` zero samples. */
  function Zeros(n: nat): (r: seq<real>)
    ensures |r| == n && forall i :: 0 <= i < n ==> r[i] == 0.0
  {
    seq(n, _ => 0.0)
  }

  /** Sum of c[i] * w[i] over the first n indices, accumulated in index order. */
  function DotN(c: seq<real>, w: seq<real>, n: nat): real
    requires n <= |c| && n <= |w|
  {
    if n == 0 then 0.0 else DotN(c, w, n - 1) + c[n - 1] * w[n - 1]
  }

  /** Sum of a sequence of naturals (block and chunk sizes). */
  function SumNat(s: seq<nat>): nat
  {
    if s == [] then 0 else s[0] + SumNat(s[1..])
  }

  lemma {:induction false} SumNatAppend(a: seq<nat>, b: seq<nat>)
    ensures SumNat(a + b) == SumNat(a) + SumNat(b)
  {
    if a == [] {
      assert a + b == b;
    } else {
      assert (a + b)[1..] == a[1..] + b;
      SumNatAppend(a[1..], b);
    }
  }
}
