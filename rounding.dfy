/** Exact rounding of a rational n/d to an integer, in the two flavours the application
    uses: Java's `RoundingMode.HALF_UP` (ties away from zero) and JavaScript's
    `Math.round` (ties toward +infinity). */
module Rounding {

  function Abs(x: int): nat {
    if x < 0 then -x else x
  }

  /** Multiplying both sides by a positive factor keeps a strict order. */
  lemma MulStrict(a: int, b: int, k: int)
    ensures k > 0 && a < b ==> a * k < b * k
  {
    assert b * k - a * k == (b - a) * k;
  }

  /** Multiplying both sides by a positive factor keeps an order. */
  lemma MulLe(a: int, b: int, k: int)
    ensures k > 0 && a <= b ==> a * k <= b * k
  {
    MulStrict(a, b, k);
  }

  /** One more step of k. */
  lemma SuccMul(a: int, k: int)
    ensures (a + 1) * k == a * k + k
  {
  }

  /** Floor of (2a + b) / 2b, the magnitude HALF_UP rounding gives for a/b >= 0. */
  lemma HalfUpMagnitude(a: int, b: int)
    requires b > 0
    ensures var q := (2 * a + b) / (2 * b); -b <= 2 * (a - q * b) < b
  {
    var q := (2 * a + b) / (2 * b);
    var m := (2 * a + b) % (2 * b);
    assert 2 * a + b == (2 * b) * q + m && 0 <= m < 2 * b;
    assert (2 * b) * q == 2 * (q * b);
  }

  /** `x.divide(y, 0, RoundingMode.HALF_UP)` for the exact quotient n/d: the nearest
      integer, and on a tie the one farther from zero. */
  function DivideHalfUp(n: int, d: int): (r: int)
    requires d != 0
    ensures 2 * Abs(n - r * d) <= Abs(d)
    ensures 2 * Abs(n - r * d) == Abs(d) ==> Abs(r * d) > Abs(n)
  {
    var q := (2 * Abs(n) + Abs(d)) / (2 * Abs(d));
    HalfUpNearest(n, d, q);
    if (n < 0) == (d < 0) then q else -q
  }

  /** The signed HALF_UP quotient is within half a step of n/d, and a tie is resolved away
      from zero. */
  lemma HalfUpNearest(n: int, d: int, q: int)
    requires d != 0 && q == (2 * Abs(n) + Abs(d)) / (2 * Abs(d))
    ensures var r := if (n < 0) == (d < 0) then q else -q;
      && 2 * Abs(n - r * d) <= Abs(d)
      && (2 * Abs(n - r * d) == Abs(d) ==> Abs(r * d) > Abs(n))
  {
    var a := Abs(n);
    var b := Abs(d);
    HalfUpMagnitude(a, b);
    assert q >= 0;
    SignedProduct(n, d, q, a, b);
  }

  /** The signed quotient differs from n by plus or minus the unsigned remainder. */
  lemma SignedProduct(n: int, d: int, q: int, a: int, b: int)
    requires d != 0 && a == Abs(n) && b == Abs(d) && q >= 0
    ensures var r := if (n < 0) == (d < 0) then q else -q;
      Abs(n - r * d) == Abs(a - q * b) && Abs(r * d) == q * b
  {
    var r := if (n < 0) == (d < 0) then q else -q;
    if n >= 0 && d > 0 {
    } else if n < 0 && d < 0 {
      assert r * d == q * (-b) == -(q * b);
    } else if n >= 0 && d < 0 {
      assert r * d == (-q) * (-b) == q * b;
    } else {
      assert r * d == (-q) * b == -(q * b);
    }
  }

  /** JavaScript's `Math.round(n / d)` for a positive denominator: floor(n/d + 1/2). */
  function MathRound(n: int, d: int): (r: int)
    requires d > 0
    ensures -d <= 2 * (n - r * d) < d
  {
    var r := (2 * n + d) / (2 * d);
    HalfUpMagnitude(n, d);
    r
  }

  /** The bounds of `MathRound` single out one integer. */
  lemma MathRoundUnique(n: int, d: int, r: int)
    requires d > 0
    requires -d <= 2 * (n - r * d) < d
    ensures r == MathRound(n, d)
  {
    var s := MathRound(n, d);
    SuccMul(r, d);
    SuccMul(s, d);
    MulLe(r + 1, s, d);
    MulLe(s + 1, r, d);
  }

  /** For a non-negative quotient the two rounding rules agree, since a tie goes up in both. */
  lemma HalfUpAgreesWithMathRound(n: int, d: int)
    requires n >= 0 && d > 0
    ensures DivideHalfUp(n, d) == MathRound(n, d)
  {
  }

  /** `MathRound` never decreases when the numerator grows. */
  lemma MathRoundMonotone(n1: int, n2: int, d: int)
    requires d > 0 && n1 <= n2
    ensures MathRound(n1, d) <= MathRound(n2, d)
  {
    var r1 := MathRound(n1, d);
    var r2 := MathRound(n2, d);
    SuccMul(r2, d);
    MulLe(r2 + 1, r1, d);
  }
}
