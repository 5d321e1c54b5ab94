/**
  The zero-guard shared by every derived ratio of the dashboard
  (`denominator > 0 ? numerator / denominator : 0`), and the percentage form
  used for click-through and conversion rates (`a / b * 100`, guarded).
  Money and ratios are exact reals here: IEEE-754 rounding is not modelled.
 */
module Ratios {

  /** `d > 0 ? n / d : 0` */
  function SafeDiv(n: real, d: real): (r: real)
    ensures d > 0.0 ==> r * d == n
    ensures d <= 0.0 ==> r == 0.0
  {
    if d > 0.0 then n / d else 0.0
  }

  /** `d > 0 ? (n / d * 100) : 0`, as used for ctr, conversion rate and revenue share. */
  function Percent(n: real, d: real): (r: real)
    ensures d > 0.0 ==> r * d == n * 100.0
    ensures d <= 0.0 ==> r == 0.0
  {
    SafeDiv(n, d) * 100.0
  }

  /** Percentages of the same whole add up. */
  lemma PercentAdd(a: real, b: real, d: real)
    ensures Percent(a, d) + Percent(b, d) == Percent(a + b, d)
  {
    if d > 0.0 {
      assert a / d + b / d == (a + b) / d;
    }
  }

  /** A part of a non-negative whole is a fraction in [0, 1] of it. */
  lemma SafeDivFraction(n: real, d: real)
    requires 0.0 <= n <= d
    ensures 0.0 <= SafeDiv(n, d) <= 1.0
  {
  }

  /** Hence a part of a non-negative whole is between 0 and 100 percent of it. */
  lemma PercentOfWhole(n: real, d: real)
    requires 0.0 <= n <= d
    ensures 0.0 <= Percent(n, d) <= 100.0
  {
    SafeDivFraction(n, d);
  }
}
