/** Paise. `quantize(Decimal("0.01"))` rounds to the nearest paisa, halves to the even one
    (kite-momentum-rebalancer/app/fno_execute.py, `money`). Amounts are reals in paise before it
    and integers after. */
module Money {

  function Abs(x: real): (r: real)
    ensures r >= 0.0
  {
    if x < 0.0 then -x else x
  }

  function Quantize(x: real): int {
    var f := x.Floor;
    var d := x - f as real;
    if d < 0.5 || (d == 0.5 && f % 2 == 0) then f else f + 1
  }

  /** At most half a paisa away, and exact on whole paise. */
  lemma QuantizeError(x: real)
    ensures Abs(Quantize(x) as real - x) <= 0.5
    ensures x == x.Floor as real ==> Quantize(x) as real == x
  {
  }

  /** A tie goes to the even paisa. */
  lemma QuantizeTies(x: real)
    ensures Abs(Quantize(x) as real - x) == 0.5 ==> Quantize(x) % 2 == 0
  {
  }

  /** Rounding is monotone, so a rounded price never crosses a whole-paisa limit. */
  lemma QuantizeMonotone(x: real, y: real)
    requires x <= y
    ensures Quantize(x) <= Quantize(y)
  {
  }

  /** A price times units: exact, and in whole paise. */
  function Times(x: real, units: real): real {
    x * units
  }

  function Whole(price: int, units: int): int {
    price * units
  }

  lemma WholeIsTimes(price: int, units: int)
    ensures Whole(price, units) as real == Times(price as real, units as real)
  {
  }

  /** Units of a price against the same units of another at most half a paisa away. */
  lemma ScaledGap(q: real, x: real, u: real)
    requires -0.5 <= q - x <= 0.5 && u >= 0.0
    ensures -(0.5 * u) <= Times(q, u) - Times(x, u) <= 0.5 * u
  {
    var e := q - x;
    assert e * u == q * u - x * u;
    Half(e, u);
    assert Times(e, u) == Times(q, u) - Times(x, u);
  }

  lemma Half(e: real, u: real)
    requires -0.5 <= e <= 0.5 && u >= 0.0
    ensures -(0.5 * u) <= Times(e, u) <= 0.5 * u
  {
    Nonnegative(0.5 - e, u);
    Nonnegative(0.5 + e, u);
    assert Times(0.5 - e, u) == 0.5 * u - e * u;
    assert Times(0.5 + e, u) == 0.5 * u + e * u;
  }

  lemma Nonnegative(x: real, u: real)
    requires x >= 0.0 && u >= 0.0
    ensures Times(x, u) >= 0.0
  {
  }

  /** So units of a rounded price are off by at most half a paisa each. */
  lemma RoundedUnits(x: real, units: nat)
    ensures var u := units as real; -(0.5 * u) <= Whole(Quantize(x), units) as real - Times(x, u) <= 0.5 * u
  {
    QuantizeError(x);
    GapOf(Quantize(x), x, units);
  }

  lemma GapOf(r: int, x: real, units: nat)
    requires -0.5 <= r as real - x <= 0.5
    ensures var u := units as real; -(0.5 * u) <= Whole(r, units) as real - Times(x, u) <= 0.5 * u
  {
    ScaledGap(r as real, x, units as real);
    WholeIsTimes(r, units);
  }

  /** An average, rounded, times its units. */
  lemma RoundedAverage(value: real, units: nat)
    requires units > 0
    ensures var u := units as real; -(0.5 * u) <= Whole(Quantize(value / u), units) as real - value <= 0.5 * u
  {
    RoundedUnits(value / units as real, units);
    Divided(value, units as real);
  }

  lemma Divided(value: real, u: real)
    requires u > 0.0
    ensures Times(value / u, u) == value
  {
  }

  lemma Triangle(x: real, y: real)
    ensures Abs(x + y) <= Abs(x) + Abs(y)
  {
  }
}
