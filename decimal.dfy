/** The external fixed-precision decimal number, modelled as an exact rational.
    Only the operations the money algebra calls on it are given here. */
module Decimals {
  import opened StdTypes

  type Decimal = real

  /** Absolute value of a decimal. */
  function DecAbs(x: Decimal): (r: Decimal)
    ensures r >= 0.0
    ensures r == x || r == -x
  {
    if x < 0.0 then -x else x
  }

  predicate DecIsZero(x: Decimal) {
    x == 0.0
  }

  /** Quotient of the decimal library; callers check the divisor first. */
  function DecQuotient(x: Decimal, d: Decimal): Decimal
    requires !DecIsZero(d)
  {
    x / d
  }

  /** Total comparison of two decimals. */
  function DecCompare(x: Decimal, y: Decimal): (o: Ordering)
    ensures o == Less <==> x < y
    ensures o == Equal <==> x == y
    ensures o == Greater <==> x > y
  {
    if x < y then Less else if x == y then Equal else Greater
  }
}
