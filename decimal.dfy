/** Fixed-point decimal columns (a `DecimalField(max_digits, decimal_places)`).
    An amount is held as an integer count of units of 10^-places, so the
    places part of the rule holds by construction; what remains is the
    whole-digit limit max_digits - places that Django's decimal validator applies. */
module Decimal {

  function Pow10(n: nat): (r: nat)
    ensures r >= 1
  {
    if n == 0 then 1 else 10 * Pow10(n - 1)
  }

  /** Number of decimal digits of n; zero has none. */
  function Digits(n: nat): (d: nat)
    ensures n < Pow10(d)
    ensures d > 0 ==> Pow10(d - 1) <= n
    ensures n == 0 <==> d == 0
  {
    if n == 0 then 0 else 1 + Digits(n / 10)
  }

  function Abs(x: int): nat { if x < 0 then -x else x }

  /** n shifted right by k decimal places (the whole part of n * 10^-k). */
  function Shift(n: nat, k: nat): nat
  {
    if k == 0 then n else Shift(n / 10, k - 1)
  }

  lemma {:induction false} Pow10Monotonic(a: nat, b: nat)
    requires a <= b
    ensures Pow10(a) <= Pow10(b)
  {
    if a < b {
      Pow10Monotonic(a, b - 1);
    }
  }

  /** Having at most k digits is being below 10^k. */
  lemma DigitsAtMost(n: nat, k: nat)
    ensures Digits(n) <= k <==> n < Pow10(k)
  {
    var d := Digits(n);
    if d <= k {
      Pow10Monotonic(d, k);
    } else {
      Pow10Monotonic(k, d - 1);
    }
  }

  /** Shifting by k places removes k digits, down to none. */
  lemma {:induction false} ShiftDigits(n: nat, k: nat, w: nat)
    ensures Digits(Shift(n, k)) <= w <==> Digits(n) <= k + w
  {
    if k > 0 {
      ShiftDigits(n / 10, k - 1, w);
    }
  }

  /** The whole part of the amount has at most max_digits - places digits;
      that is exactly a magnitude bound, |units| < 10^max_digits. */
  predicate FitsDecimal(units: int, maxDigits: nat, places: nat)
    requires places <= maxDigits
    ensures FitsDecimal(units, maxDigits, places) <==> Abs(units) < Pow10(maxDigits)
  {
    ShiftDigits(Abs(units), places, maxDigits - places);
    DigitsAtMost(Abs(units), maxDigits);
    Digits(Shift(Abs(units), places)) <= maxDigits - places
  }
}
