/** Equality between an outcome and a bare amount or a bare error. */
module MixedEquality {
  import opened Currencies
  import opened Errors
  import opened Amounts
  import opened Results

  /** Amount == AmountResult: true exactly for a success wrapping an equal amount. */
  function AmountEqResult(a: Amount, r: AmountResult): (eq: bool)
    ensures eq <==> r == FromAmount(a)
    ensures r.inner.Err? ==> !eq
  {
    match r.inner
    case Ok(b) => a == b
    case Err(_) => false
  }

  /** AmountResult == Amount. */
  function ResultEqAmount(r: AmountResult, a: Amount): (eq: bool)
    ensures eq <==> r == FromAmount(a)
    ensures r.inner.Err? ==> !eq
  {
    match r.inner
    case Ok(b) => b == a
    case Err(_) => false
  }

  /** CurrencyError == AmountResult: true exactly for a failure wrapping an
      equal error; never for a success. */
  function ErrorEqResult(e: CurrencyError, r: AmountResult): (eq: bool)
    ensures eq <==> r == FromError(e)
    ensures r.inner.Ok? ==> !eq
  {
    match r.inner
    case Ok(_) => false
    case Err(f) => e == f
  }

  /** AmountResult == CurrencyError. */
  function ResultEqError(r: AmountResult, e: CurrencyError): (eq: bool)
    ensures eq <==> r == FromError(e)
    ensures r.inner.Ok? ==> !eq
  {
    match r.inner
    case Ok(_) => false
    case Err(f) => f == e
  }

  /** Both mixed equalities give the same answer whichever side the outcome
      is on. */
  lemma MixedEqualitySymmetric(a: Amount, e: CurrencyError, r: AmountResult)
    ensures AmountEqResult(a, r) == ResultEqAmount(r, a)
    ensures ErrorEqResult(e, r) == ResultEqError(r, e)
  {
  }

  /** No outcome equals both an amount and an error. */
  lemma NeverAmountAndError(a: Amount, e: CurrencyError, r: AmountResult)
    ensures !(ResultEqAmount(r, a) && ResultEqError(r, e))
  {
  }

  /** The order of the currencies of a mismatch matters to equality. */
  lemma MismatchOrderMatters()
    ensures ResultEqError(MismatchResult(EUR, USD), Mismatch(EUR, USD))
    ensures !ResultEqError(MismatchResult(EUR, USD), Mismatch(USD, EUR))
    ensures !ErrorEqResult(Mismatch(USD, EUR), MismatchResult(EUR, USD))
    ensures !AmountEqResult(Amount(10.0, EUR), FromAmount(Amount(10.0, USD)))
    ensures !AmountEqResult(Amount(10.0, EUR), UnknownResult())
  {
  }
}
