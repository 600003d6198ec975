/** Division of amounts and outcomes by a decimal divisor. */
module Division {
  import opened Decimals
  import opened Currencies
  import opened Errors
  import opened Amounts
  import opened Results

  /** Amount / divisor: `DivideByZero` exactly when the divisor is zero,
      otherwise the quotient in the same currency. It never reports a
      mismatch nor `Unknown`. */
  function DivAmount(a: Amount, divisor: Decimal): (r: AmountResult)
    ensures r.inner.Err? <==> DecIsZero(divisor)
    ensures r.inner.Err? ==> r == DivideByZeroResult()
    ensures r.inner.Ok? ==> r.inner.value == Amount(DecQuotient(a.value, divisor), a.currency)
    ensures !IsMismatch(r) && !IsUnknown(r)
  {
    if DecIsZero(divisor) then
      FromError(DivideByZero)
    else
      FromAmount(New(DecQuotient(a.value, divisor), a.currency))
  }

  /** AmountResult / divisor: an existing error, `Unknown` included, is
      returned for every divisor, zero too, since it is looked at before the
      divisor is. */
  function DivResult(r: AmountResult, divisor: Decimal): (s: AmountResult)
    ensures r.inner.Err? ==> s == r
    ensures r.inner.Ok? ==> s == DivAmount(r.inner.value, divisor)
  {
    match r.inner
    case Ok(a) => DivAmount(a, divisor)
    case Err(e) => FromError(e)
  }

  /** Dividing an outcome by zero reports `DivideByZero` only when it held an
      amount; otherwise it keeps its own error. */
  lemma DivByZeroChecksSuccessOnly(r: AmountResult)
    ensures DivResult(r, 0.0) == if r.inner.Ok? then DivideByZeroResult() else r
  {
  }

  /** A wrapped amount divides exactly like a bare one. */
  lemma DivWrapped(a: Amount, divisor: Decimal)
    ensures DivResult(FromAmount(a), divisor) == DivAmount(a, divisor)
  {
  }

  /** The documented cases. */
  lemma DivExamples()
    ensures DivAmount(Amount(6.3, EUR), 3.0) == FromAmount(Amount(2.1, EUR))
    ensures DivAmount(Amount(-6.3, EUR), 3.0) == FromAmount(Amount(-2.1, EUR))
    ensures DivAmount(Amount(6.3, EUR), -3.0) == FromAmount(Amount(-2.1, EUR))
    ensures DivAmount(Amount(6.3, EUR), 0.0) == DivideByZeroResult()
    ensures DivResult(FromAmount(Amount(10.0, EUR)), 5.0) == FromAmount(Amount(2.0, EUR))
    ensures DivResult(FromAmount(Amount(10.0, EUR)), 0.0) == DivideByZeroResult()
    ensures DivResult(MismatchResult(USD, EUR), 3.0) == MismatchResult(USD, EUR)
    ensures DivResult(UnknownResult(), 3.0) == UnknownResult()
    ensures DivResult(DivideByZeroResult(), 3.0) == DivideByZeroResult()
  {
  }
}
