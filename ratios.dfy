/**
 * The zero-guarded ratios every report derives from its sums and counts.
 * Python's `x or 0` turns a missing (NULL) aggregate into 0, and every
 * division is guarded so that an empty period yields 0 rather than an error.
 */
module Ratios {

  /**
   * `calc_change`: the percentage change from `previous` to `current`, and
   * 0 whenever `previous` is 0, missing or negative.
   */
  function CalcChange(current: real, previous: real): (r: real)
    ensures previous <= 0.0 ==> r == 0.0
    ensures previous > 0.0 ==> previous + previous * r / 100.0 == current
    ensures previous > 0.0 ==> (r > 0.0 <==> current > previous) && (r < 0.0 <==> current < previous)
  {
    if previous > 0.0 then (current - previous) / previous * 100.0 else 0.0
  }

  /** A non-negative figure can fall by at most 100 percent. */
  lemma CalcChangeAtLeastMinus100(current: real, previous: real)
    requires current >= 0.0
    ensures CalcChange(current, previous) >= -100.0
  {
    if previous > 0.0 {
      var q := current / previous;
      assert (q - 1.0) * previous == current - previous;
      DivideBack(q - 1.0, current - previous, previous);
      assert q >= 0.0;
    }
  }

  lemma DivideBack(x: real, y: real, d: real)
    requires d != 0.0 && x * d == y
    ensures y / d == x
  {
  }

  /** `num / den if den > 0 else 0` (average basket, items per ticket, per-day basket). */
  function Ratio(num: real, den: real): (r: real)
    ensures den <= 0.0 ==> r == 0.0
    ensures den > 0.0 ==> r * den == num
  {
    if den > 0.0 then num / den else 0.0
  }

  /** A positive denominator no larger than the numerator gives a ratio of at least one. */
  lemma RatioAtLeastOne(num: real, den: real)
    requires 0.0 < den <= num
    ensures Ratio(num, den) >= 1.0
  {
    var r := Ratio(num, den);
    if r < 1.0 {
      assert r * den < den;
    }
  }

  /** `part / whole * 100 if whole > 0 else 0` (cross-sell shares, bucket shares, conversion rate). */
  function Percent(part: real, whole: real): (r: real)
    ensures whole <= 0.0 ==> r == 0.0
    ensures whole > 0.0 ==> r * whole == part * 100.0
    ensures 0.0 <= part <= whole ==> 0.0 <= r <= 100.0
  {
    if whole > 0.0 then
      var q := part / whole;
      assert 0.0 <= part <= whole ==> q <= 1.0;
      q * 100.0
    else 0.0
  }

  /** Multiplying by a positive number keeps numbers apart. */
  lemma ScaleCancel(x: real, y: real, w: real)
    requires w > 0.0 && x * w == y * w
    ensures x == y
  {
    assert (x - y) * w == 0.0;
  }

  /** Percentages of the same whole add up as their parts do. */
  lemma PercentAdds(a: real, b: real, whole: real)
    ensures Percent(a, whole) + Percent(b, whole) == Percent(a + b, whole)
  {
    if whole > 0.0 {
      var p, q, r := Percent(a, whole), Percent(b, whole), Percent(a + b, whole);
      calc {
        (p + q) * whole;
        p * whole + q * whole;
        a * 100.0 + b * 100.0;
        (a + b) * 100.0;
        r * whole;
      }
      ScaleCancel(p + q, r, whole);
    }
  }

  /**
   * The dashboard's discount share, guarded by `std_price_total != 0`: the
   * percentage of the standard price that was NOT charged as discount price.
   */
  function DiscountShare(discountTotal: real, stdTotal: real): (r: real)
    ensures stdTotal == 0.0 ==> r == 0.0
    ensures stdTotal != 0.0 ==> stdTotal * (100.0 - r) == discountTotal * 100.0
  {
    if stdTotal != 0.0 then (1.0 - discountTotal / stdTotal) * 100.0 else 0.0
  }

  /**
   * The employee pages' and insights' discount rate, guarded by
   * `std_price_total and std_price_total > 0`.
   */
  function DiscountRate(discountTotal: real, stdTotal: real): (r: real)
    ensures stdTotal <= 0.0 ==> r == 0.0
    ensures stdTotal > 0.0 ==> stdTotal * (100.0 - r) == discountTotal * 100.0
  {
    if stdTotal > 0.0 then (1.0 - discountTotal / stdTotal) * 100.0 else 0.0
  }

  /**
   * The two guards agree unless the standard-price total is negative; when
   * the discounted total lies between 0 and the standard total the share is a
   * percentage.
   */
  lemma DiscountGuardsAgree(discountTotal: real, stdTotal: real)
    ensures stdTotal >= 0.0 ==> DiscountShare(discountTotal, stdTotal) == DiscountRate(discountTotal, stdTotal)
    ensures stdTotal < 0.0 ==>
      DiscountRate(discountTotal, stdTotal) == 0.0 &&
      (DiscountShare(discountTotal, stdTotal) == 0.0 <==> discountTotal == stdTotal)
    ensures 0.0 <= discountTotal <= stdTotal && stdTotal > 0.0 ==>
      0.0 <= DiscountShare(discountTotal, stdTotal) <= 100.0
  {
    if stdTotal != 0.0 {
      var q := discountTotal / stdTotal;
      assert q * stdTotal == discountTotal;
      if 0.0 <= discountTotal <= stdTotal {
        assert 0.0 <= q <= 1.0;
      }
    }
  }

  /** The conversion rate: tickets per item, as a percentage (0 with no items). */
  function ConversionRate(tickets: nat, items: nat): (r: real)
    ensures items == 0 ==> r == 0.0
    ensures items > 0 ==> r * (items as real) == (tickets as real) * 100.0
    ensures 0 < items && tickets <= items ==> 0.0 <= r <= 100.0
  {
    Percent(tickets as real, items as real)
  }
}
