/**
 * Conversion of an amount to the provider's minor unit:
 * `int(Decimal(total_amount) * 100)`.
 */
module Money {

  /** A Python `Decimal`: `coefficient` × 10^(-places). */
  datatype Decimal = Decimal(coefficient: int, places: nat)

  function Pow10(k: nat): (p: nat)
    ensures p >= 1
  {
    if k == 0 then 1 else 10 * Pow10(k - 1)
  }

  /** Integer division truncating toward zero, as `int()` of a `Decimal` does. */
  function TruncDiv(a: int, b: int): (q: int)
    requires b > 0
    ensures a >= 0 ==> 0 <= q && q * b <= a < q * b + b
    ensures a < 0 ==> q <= 0 && q * b - b < a <= q * b
  {
    if a >= 0 then a / b else -((-a) / b)
  }

  /** The value of a column with two decimal places, holding `cents`. */
  function Cents(cents: int): Decimal {
    Decimal(cents, 2)
  }

  /** `int(d * 100)`: the amount in minor units, truncated toward zero. */
  function MinorUnits(d: Decimal): int {
    TruncDiv(d.coefficient * 100, Pow10(d.places))
  }

  /** For an amount with two decimal places the conversion is exact: it gives the cents. */
  lemma MinorUnitsOfCents(cents: int)
    ensures MinorUnits(Cents(cents)) == cents
  {
    assert Pow10(2) == 100;
  }
}
