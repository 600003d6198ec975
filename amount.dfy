/** An amount of money: an immutable pair of a decimal quantity and a currency. */
module Amounts {
  import opened StdTypes
  import opened Decimals
  import opened Currencies

  /** Equality is structural: both the value and the currency must agree. */
  datatype Amount = Amount(value: Decimal, currency: Currency)

  /** Builds an amount; the accessors give back exactly the two arguments. */
  function New(value: Decimal, currency: Currency): (a: Amount)
    ensures a.value == value && a.currency == currency
  {
    Amount(value, currency)
  }

  /** Taking an amount apart with the accessors and rebuilding it with `New`
      gives the same amount, and two amounts are equal exactly when both
      accessors agree. */
  lemma NewFromAccessors(a: Amount, b: Amount)
    ensures New(a.value, a.currency) == a
    ensures a == b <==> a.value == b.value && a.currency == b.currency
  {
  }

  /** The absolute value, in the same currency. */
  function Abs(a: Amount): (r: Amount)
    ensures r.currency == a.currency
    ensures r.value >= 0.0
    ensures r.value == a.value || r.value == -a.value
  {
    New(DecAbs(a.value), a.currency)
  }

  /** Taking the absolute value twice changes nothing more. */
  lemma AbsIdempotent(a: Amount)
    ensures Abs(Abs(a)) == Abs(a)
  {
  }

  /** The amount re-expressed in `target` at the caller's `rate`; neither the
      rate nor the target is validated. */
  function ConvertedTo(a: Amount, target: Currency, rate: Decimal): (r: Amount)
    ensures r.currency == target
    ensures r.value == a.value * rate
  {
    New(a.value * rate, target)
  }

  /** Converting into one's own currency at rate one is the identity. */
  lemma ConvertedToSameAtParIsIdentity(a: Amount)
    ensures ConvertedTo(a, a.currency, 1.0) == a
  {
  }

  /** The `Display` text: the currency symbol, a space and the quantity as
      formatted by the decimal library at the requested precision (two
      fractional digits when none is requested). The formatter is a foreign
      call and is taken as a parameter. */
  function DisplayAmount(a: Amount, precision: Option<nat>, format: (Decimal, nat) -> string): string {
    Symbol(a.currency) + " " + format(a.value, precision.UnwrapOr(2))
  }

  /** With no precision requested, two fractional digits are used. */
  lemma DisplayDefaultPrecision(a: Amount, format: (Decimal, nat) -> string)
    ensures DisplayAmount(a, None, format) == DisplayAmount(a, Some(2), format)
  {
  }

  /** The partial order: amounts compare by value only within one currency. */
  function PartialCmp(a: Amount, b: Amount): (o: Option<Ordering>)
    ensures o.None? <==> a.currency != b.currency
    ensures o == Some(Less) <==> a.currency == b.currency && a.value < b.value
    ensures o == Some(Greater) <==> a.currency == b.currency && a.value > b.value
    ensures o == Some(Equal) <==> a == b
  {
    if a.currency == b.currency then Some(DecCompare(a.value, b.value)) else None
  }

  /** `<` and `<=` as the partial order defines them. */
  predicate Lt(a: Amount, b: Amount) {
    PartialCmp(a, b) == Some(Less)
  }

  predicate Le(a: Amount, b: Amount) {
    PartialCmp(a, b) == Some(Less) || PartialCmp(a, b) == Some(Equal)
  }

  /** Comparing the other way round reverses the ordering, and incomparable
      stays incomparable. */
  lemma PartialCmpAntisymmetric(a: Amount, b: Amount)
    ensures PartialCmp(b, a) == if a.currency == b.currency then Some(PartialCmp(a, b).value.Reverse()) else None
  {
  }

  /** Amounts in different currencies are neither equal, smaller nor larger. */
  lemma CrossCurrencyIncomparable(a: Amount, b: Amount)
    requires a.currency != b.currency
    ensures a != b && !Lt(a, b) && !Lt(b, a) && !Le(a, b) && !Le(b, a)
  {
  }

  /** Within one currency `<` is transitive. */
  lemma LtTransitive(a: Amount, b: Amount, c: Amount)
    requires Lt(a, b) && Lt(b, c)
    ensures Lt(a, c)
  {
  }

  /** The comparisons the amount type is documented to make. */
  lemma PartialCmpExamples()
    ensures PartialCmp(Amount(1.0, EUR), Amount(1.0, EUR)) == Some(Equal)
    ensures PartialCmp(Amount(1.0, EUR), Amount(2.0, EUR)) == Some(Less)
    ensures PartialCmp(Amount(3.0, EUR), Amount(2.0, EUR)) == Some(Greater)
    ensures PartialCmp(Amount(1.0, EUR), Amount(1.0, USD)) == None
    ensures PartialCmp(Amount(1.0, EUR), Amount(2.0, USD)) == None
    ensures PartialCmp(Amount(3.0, EUR), Amount(2.0, USD)) == None
  {
  }
}
