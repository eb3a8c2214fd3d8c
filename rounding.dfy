/**
 * Rounding at the reporting boundary of the ledger: `round(d, 6)` on a Python
 * `Decimal` quantizes `d` to six fractional digits, breaking ties towards the
 * even neighbour (the default context's ROUND_HALF_EVEN). Amounts are exact
 * rationals here, so the rounding is written out on `real`.
 */
module Rounding {

  /** Units per whole: six fractional decimal digits. */
  const Scale: real := 1000000.0

  /** Half of the smallest reported unit, the largest error `Round6` makes. */
  const HalfUnit: real := 0.0000005

  /** `x` has at most six fractional decimal digits. */
  predicate SixPlaces(x: real) {
    (x * Scale).Floor as real == x * Scale
  }

  /** Round `x` to the nearest multiple of 10^-6; on a tie, to the even multiple. */
  function Round6(x: real): (r: real)
    ensures SixPlaces(r)
    ensures x - HalfUnit <= r <= x + HalfUnit
    ensures x >= 0.0 ==> r >= 0.0
  {
    var scaled := x * Scale;
    var low := scaled.Floor;
    var frac := scaled - low as real;
    var units :=
      if frac < 0.5 then low
      else if frac > 0.5 then low + 1
      else if low % 2 == 0 then low
      else low + 1;
    assert (units as real / Scale) * Scale == units as real;
    units as real / Scale
  }

  /** An amount that already has six places is reported unchanged. */
  lemma Round6Keeps(x: real)
    requires SixPlaces(x)
    ensures Round6(x) == x
  {
    var scaled := x * Scale;
    assert scaled - scaled.Floor as real == 0.0;
    assert scaled.Floor as real / Scale == x;
  }
}
