/** Scaling amounts and outcomes by a decimal factor. */
module Multiplication {
  import opened Decimals
  import opened Currencies
  import opened Errors
  import opened Amounts
  import opened Results
  import opened Negation

  /** Amount * factor: cannot fail; the currency is kept. */
  function MulAmount(a: Amount, factor: Decimal): (m: Amount)
    ensures m.currency == a.currency
    ensures m.value == a.value * factor
  {
    New(a.value * factor, a.currency)
  }

  /** AmountResult * factor: scales a wrapped amount; every error, `Unknown`
      included, passes through unchanged. */
  function MulResult(r: AmountResult, factor: Decimal): (s: AmountResult)
    ensures s.inner.Ok? <==> r.inner.Ok?
    ensures r.inner.Ok? ==> s == FromAmount(MulAmount(r.inner.value, factor))
    ensures r.inner.Err? ==> s == r
  {
    match r.inner
    case Ok(a) => FromAmount(MulAmount(a, factor))
    case Err(e) => FromError(e)
  }

  /** Scaling by one changes nothing and scaling by minus one negates, for
      amounts and for outcomes. */
  lemma MulByUnitAndMinusUnit(a: Amount, r: AmountResult)
    ensures MulAmount(a, 1.0) == a
    ensures MulAmount(a, -1.0) == NegAmount(a)
    ensures MulResult(r, 1.0) == r
    ensures MulResult(r, -1.0) == NegResult(r)
  {
  }

  /** Conversion is scaling followed by relabelling the currency. */
  lemma ConvertedToIsScaling(a: Amount, target: Currency, rate: Decimal)
    ensures ConvertedTo(a, target, rate) == MulAmount(New(a.value, target), rate)
    ensures ConvertedTo(a, a.currency, rate) == MulAmount(a, rate)
  {
  }

  /** The documented cases. */
  lemma MulExamples()
    ensures MulAmount(Amount(2.0, EUR), 3.0) == Amount(6.0, EUR)
    ensures MulAmount(Amount(-2.0, EUR), 3.0) == Amount(-6.0, EUR)
    ensures MulAmount(MulAmount(Amount(1.2, EUR), -1.0), 10.0) == NegAmount(Amount(12.0, EUR))
    ensures MulResult(MismatchResult(USD, EUR), 3.0) == MismatchResult(USD, EUR)
    ensures MulResult(UnknownResult(), 3.0) == UnknownResult()
  {
  }
}
