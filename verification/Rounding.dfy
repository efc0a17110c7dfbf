/**
  Integer rounding shared by the ledgers: `_round_ratio` and `_line_value` of
  backend/app/features/inventory.py, and the facts about products and quotients they need.
*/
module Rounding {
  const SQLITE_MAX_INTEGER: int := 0x7FFF_FFFF_FFFF_FFFF

  /**
    Half up, in integers: `(numerator * 2 + denominator) // (denominator * 2)`. The result is
    the nearest integer to the quotient, and a tie goes up.
  */
  function RoundRatio(numerator: nat, denominator: nat): (r: nat)
    requires denominator > 0
    ensures 2 * numerator < 2 * (r * denominator) + denominator
    ensures 2 * (r * denominator) <= 2 * numerator + denominator
  {
    Euclid(numerator * 2 + denominator, denominator * 2);
    var r := (numerator * 2 + denominator) / (denominator * 2);
    assert r * (denominator * 2) == 2 * (r * denominator);
    r
  }

  lemma Euclid(n: nat, d: nat)
    requires d > 0
    ensures n / d * d <= n < n / d * d + d
    ensures n / d >= 0
  {
    assert n == n / d * d + n % d;
  }

  lemma MulLe(a: nat, b: nat, c: nat)
    requires a <= b
    ensures a * c <= b * c
  {
    assert (b - a) * c >= 0;
  }

  /** Rounding a share of a whole never exceeds the whole. */
  lemma ShareWithinWhole(whole: nat, part: nat, total: nat)
    requires 0 < total && part <= total
    ensures RoundRatio(whole * part, total) <= whole
  {
    var r := RoundRatio(whole * part, total);
    MulLe(part, total, whole);
    assert whole * part == part * whole && whole * total == total * whole;
    assert (whole + 1) * total == whole * total + total;
    if r > whole {
      MulLe(whole + 1, r, total);
    }
  }

  /** Cents for a quantity in thousandths at a unit price in cents, to the nearest cent. */
  function LineValue(unitCostCents: nat, quantityMilli: nat): (r: nat)
    ensures -500 < 1000 * r - unitCostCents * quantityMilli <= 500
  {
    RoundRatio(unitCostCents * quantityMilli, 1000)
  }

  /** Whole units cost exactly their price. */
  lemma WholeUnitsAreExact(unitCostCents: nat, units: nat)
    ensures LineValue(unitCostCents, 1000 * units) == unitCostCents * units
  {
    var exact := unitCostCents * units;
    assert unitCostCents * (1000 * units) == 1000 * exact;
  }
}
