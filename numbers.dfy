/**
 * The numbers the estimator computes with. A JavaScript number is modelled as an
 * exact real, and every infinity or NaN as the single value `NonFinite`, which
 * absorbs every operation it takes part in.
 *
 * The absorption is exact for the estimator. Two rules of JavaScript would let a
 * non-finite value vanish. The first is `x / Infinity == 0`; it never applies,
 * because besides the constant 100 the only divisors are the parsed acquisition
 * cost and revenue, which are finite reals (see `Div`). The second is
 * `Math.pow(NaN, 0) == 1`; `NumPow` models it. Meanwhile `0 * Infinity` and
 * `Infinity + -Infinity` are NaN and stay non-finite.
 */
module Numbers {

  datatype Num = Finite(value: real) | NonFinite

  function Add(a: Num, b: Num): Num {
    if a.Finite? && b.Finite? then Finite(a.value + b.value) else NonFinite
  }

  function Sub(a: Num, b: Num): Num {
    if a.Finite? && b.Finite? then Finite(a.value - b.value) else NonFinite
  }

  function Mul(a: Num, b: Num): Num {
    if a.Finite? && b.Finite? then Finite(a.value * b.value) else NonFinite
  }

  /** Division by a finite divisor: dividing by zero gives an infinity or NaN. */
  function Div(a: Num, d: real): (r: Num)
    ensures r.Finite? <==> a.Finite? && d != 0.0
    ensures r.Finite? ==> r.value * d == a.value
  {
    if a.Finite? && d != 0.0 then Finite(a.value / d) else NonFinite
  }

  /** x to the power n, for a whole exponent. */
  function Pow(x: real, n: nat): real {
    if n == 0 then 1.0 else x * Pow(x, n - 1)
  }

  /** `Math.pow(a, n)` for a whole exponent: any value to the power 0 is 1, NaN and the infinities included. */
  function NumPow(a: Num, n: nat): (r: Num)
    ensures r.Finite? <==> a.Finite? || n == 0
    ensures n == 0 ==> r == Finite(1.0)
    ensures n == 1 ==> r == a
  {
    match a
    case Finite(x) =>
      assert n == 1 ==> Pow(x, n) == x * Pow(x, 0);
      Finite(Pow(x, n))
    case NonFinite => if n == 0 then Finite(1.0) else NonFinite
  }

  lemma {:induction false} PowPositive(x: real, n: nat)
    requires x > 0.0
    ensures Pow(x, n) > 0.0
  {
    if n > 0 {
      PowPositive(x, n - 1);
      assert x * Pow(x, n - 1) > 0.0;
    }
  }

  /** Multiplying by a positive factor keeps a strict order. */
  lemma ScaleStrict(r: real, a: real, b: real)
    requires r > 0.0 && a < b
    ensures r * a < r * b
  {
    assert r * b - r * a == r * (b - a);
  }

  lemma PowStep(x: real, k: nat)
    requires x > 1.0
    ensures Pow(x, k) < Pow(x, k + 1)
  {
    PowPositive(x, k);
    ScaleStrict(Pow(x, k), 1.0, x);
    assert Pow(x, k + 1) == x * Pow(x, k);
  }

  /** A base above 1 makes the powers strictly increasing in the exponent. */
  lemma {:induction false} PowStrictlyIncreasing(x: real, m: nat, n: nat)
    requires x > 1.0 && m < n
    ensures Pow(x, m) < Pow(x, n)
  {
    PowStep(x, n - 1);
    if m < n - 1 {
      PowStrictlyIncreasing(x, m, n - 1);
    }
  }
}
