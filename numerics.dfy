/**
 * Real-valued stand-ins for the single- and double-precision arithmetic of the
 * C# sources, and the transcendental functions they call.
 *
 * `Math.Pow(10, x)`, `Math.Exp`, `Math.Log10` and `Math.Sqrt` are not given
 * bodies: they are passed around as function values bundled in `MathLib`, and
 * `Lawful` lists the only facts about them that the proofs use.
 */
module Numerics {

  function Abs(x: real): (r: real)
    ensures r >= 0.0
    ensures r == x || r == -x
  {
    if x < 0.0 then -x else x
  }

  function Min(a: real, b: real): (r: real)
    ensures r <= a && r <= b
    ensures r == a || r == b
  {
    if a <= b then a else b
  }

  function Max(a: real, b: real): (r: real)
    ensures r >= a && r >= b
    ensures r == a || r == b
  {
    if a >= b then a else b
  }

  /** `Math.Clamp(value, lo, hi)` for a valid range (lo <= hi). */
  function Clamp(value: real, lo: real, hi: real): (r: real)
    requires lo <= hi
    ensures lo <= r <= hi
    ensures lo <= value <= hi ==> r == value
    ensures value < lo ==> r == lo
    ensures value > hi ==> r == hi
  {
    if value < lo then lo else if value > hi then hi else value
  }

  /** x raised to a natural power, the value `Math.Pow(x, n)` approximates. */
  function IntPow(x: real, n: nat): real
  {
    if n == 0 then 1.0 else x * IntPow(x, n - 1)
  }

  lemma {:induction false} IntPowUnitInterval(x: real, n: nat)
    requires 0.0 <= x <= 1.0
    ensures 0.0 <= IntPow(x, n) <= 1.0
  {
    if n > 0 {
      IntPowUnitInterval(x, n - 1);
      var p := IntPow(x, n - 1);
      MulMonotone(0.0, x, p);
      MulMonotone(x, 1.0, p);
      assert 0.0 * p == 0.0 && 1.0 * p == p;
      assert 0.0 <= x * p <= p <= 1.0;
      assert IntPow(x, n) == x * p;
    } else {
      assert IntPow(x, n) == 1.0;
    }
  }

  lemma {:induction false} IntPowMonotone(x: real, y: real, n: nat)
    requires 0.0 <= x <= y
    ensures 0.0 <= IntPow(x, n) <= IntPow(y, n)
  {
    if n > 0 {
      IntPowMonotone(x, y, n - 1);
      var px, py := IntPow(x, n - 1), IntPow(y, n - 1);
      MulMonotone(x, y, px);
      MulMonotone(px, py, y);
      assert x * px <= y * px <= y * py;
    }
  }

  lemma MulMonotone(a: real, b: real, c: real)
    requires a <= b && c >= 0.0
    ensures a * c <= b * c
  {
    assert b * c - a * c == (b - a) * c;
  }

  /** The transcendental functions of System.Math that the sources call. */
  datatype MathLib = MathLib(
    pow10: real -> real,   // Math.Pow(10, x)
    exp: real -> real,     // Math.Exp(x)
    log10: real -> real,   // Math.Log10(x)
    sqrt: real -> real)    // Math.Sqrt(x)

  /** The facts about the library functions that the proofs rely on. */
  ghost predicate Lawful(m: MathLib)
  {
    && (forall x :: m.pow10(x) > 0.0)
    && (forall x :: x < 0.0 ==> 0.0 < m.exp(x) < 1.0)
  }
}
