/** The guarded ratios the reports compute: a share as a percentage, or a
    plain quotient, both 0 when the denominator is not positive. */
module Rates {

  /** `whole > 0 ? (part / whole) * 100 : 0`. */
  function Percent(part: real, whole: real): (r: real)
    ensures whole > 0.0 ==> r * whole == part * 100.0
    ensures whole <= 0.0 ==> r == 0.0
    ensures 0.0 <= part <= whole ==> 0.0 <= r <= 100.0
    ensures whole > 0.0 && part == whole ==> r == 100.0
  {
    if whole > 0.0 then part / whole * 100.0 else 0.0
  }

  /** `rate` is `part` out of `whole` as a percentage: 0 for an empty whole,
      and within 0..100 when the part is. */
  predicate IsPercentOf(rate: real, part: nat, whole: nat) {
    && (whole == 0 ==> rate == 0.0)
    && (whole > 0 ==> rate * (whole as real) == (part as real) * 100.0)
    && (part <= whole ==> 0.0 <= rate <= 100.0)
  }

  /** `Percent` on counts. */
  lemma PercentOfCounts(part: nat, whole: nat)
    ensures IsPercentOf(Percent(part as real, whole as real), part, whole)
  {
  }

  /** `whole > 0 ? part / whole : 0`. */
  function Ratio(part: real, whole: real): (r: real)
    ensures whole > 0.0 ==> r * whole == part
    ensures whole <= 0.0 ==> r == 0.0
    ensures whole > 0.0 && part >= 0.0 ==> r >= 0.0
  {
    if whole > 0.0 then part / whole else 0.0
  }
}
