/** The `+` table over every mix of amounts and outcomes. */
module Addition {
  import opened Currencies
  import opened Errors
  import opened Amounts
  import opened Results

  /** Amount + Amount: the sum when the currencies agree, otherwise a mismatch
      naming the left currency first. It is never `Unknown` nor a division
      error. */
  function AddAmounts(a: Amount, b: Amount): (r: AmountResult)
    ensures r.inner.Ok? <==> a.currency == b.currency
    ensures r.inner.Ok? ==> r.inner.value == Amount(a.value + b.value, a.currency)
    ensures r.inner.Err? ==> r == MismatchResult(a.currency, b.currency)
    ensures !IsUnknown(r) && !IsDivideByZero(r)
  {
    if a.currency == b.currency then
      FromAmount(New(a.value + b.value, a.currency))
    else
      FromError(Mismatch(a.currency, b.currency))
  }

  /** Amount + AmountResult. With a bare amount on the left the result is
      never `Unknown`; an absorbing error on the right is returned as is. */
  function AddAmountResult(a: Amount, r: AmountResult): (s: AmountResult)
    ensures !IsUnknown(s)
    ensures IsAbsorbing(r) ==> s == r
  {
    match r.inner
    case Ok(b) => AddAmounts(a, b)
    case Err(Unknown) => FromAmount(a)
    case Err(e) => FromError(e)
  }

  /** AmountResult + AmountResult. The result is `Unknown` exactly when both
      operands are; an absorbing error on the left wins, and one on the right
      wins over anything that is not itself absorbing. */
  function AddResults(l: AmountResult, r: AmountResult): (s: AmountResult)
    ensures IsUnknown(s) <==> IsUnknown(l) && IsUnknown(r)
    ensures IsAbsorbing(l) ==> s == l
    ensures IsAbsorbing(r) && !IsAbsorbing(l) ==> s == r
  {
    match l.inner
    case Ok(a) => AddAmountResult(a, r)
    case Err(Unknown) => r
    case Err(e) => FromError(e)
  }

  /** AmountResult + Amount. Never `Unknown`; an absorbing error on the left
      is returned as is. */
  function AddResultAmount(l: AmountResult, b: Amount): (s: AmountResult)
    ensures !IsUnknown(s)
    ensures IsAbsorbing(l) ==> s == l
  {
    match l.inner
    case Ok(a) => AddAmounts(a, b)
    case Err(Unknown) => FromAmount(b)
    case Err(e) => FromError(e)
  }

  /** Every mixed form is the outcome form applied to the wrapped operands,
      and wrapped amounts add exactly like bare ones. */
  lemma AddKindsAgree(a: Amount, b: Amount, l: AmountResult, r: AmountResult)
    ensures AddAmountResult(a, r) == AddResults(FromAmount(a), r)
    ensures AddResultAmount(l, b) == AddResults(l, FromAmount(b))
    ensures AddAmountResult(a, FromAmount(b)) == AddAmounts(a, b)
    ensures AddResultAmount(FromAmount(a), b) == AddAmounts(a, b)
    ensures AddResults(FromAmount(a), FromAmount(b)) == AddAmounts(a, b)
  {
  }

  /** `Unknown` is a two-sided identity of `+`, for outcomes and for bare
      amounts alike. */
  lemma UnknownIsAddIdentity(a: Amount, x: AmountResult)
    ensures AddResults(UnknownResult(), x) == x
    ensures AddResults(x, UnknownResult()) == x
    ensures AddAmountResult(a, UnknownResult()) == FromAmount(a)
    ensures AddResultAmount(UnknownResult(), a) == FromAmount(a)
  {
  }

  /** `Unknown` on the left of `+` gives the right operand back. */
  lemma UnknownLeftIdentity(x: AmountResult)
    ensures AddResults(UnknownResult(), x) == x
  {
  }

  /** `Unknown` on the right of `+` gives the left operand back. */
  lemma UnknownRightIdentity(x: AmountResult)
    ensures AddResults(x, UnknownResult()) == x
  {
  }

  /** `Unknown + a` is the wrapped amount. */
  lemma UnknownPlusAmount(a: Amount)
    ensures AddResultAmount(UnknownResult(), a) == FromAmount(a)
  {
  }

  /** Adding a bare amount to an outcome is adding the wrapped amount. */
  lemma ResultPlusAmountIsWrapped(l: AmountResult, b: Amount)
    ensures AddResultAmount(l, b) == AddResults(l, FromAmount(b))
  {
  }

  /** Swapping the operands keeps a same-currency sum and swaps the
      currencies of a mismatch. */
  lemma AddAmountsSwap(a: Amount, b: Amount)
    ensures AddAmounts(b, a) ==
      if a.currency == b.currency then AddAmounts(a, b) else MismatchResult(b.currency, a.currency)
  {
  }

  /** Addition of outcomes is not associative across three currencies: the
      mismatch reported depends on the grouping, so the order of a sum matters. */
  lemma AddNotAssociative()
    ensures AddResults(AddAmounts(Amount(1.0, USD), Amount(1.0, EUR)), FromAmount(Amount(1.0, GBP)))
         != AddAmountResult(Amount(1.0, USD), AddAmounts(Amount(1.0, EUR), Amount(1.0, GBP)))
  {
  }

  /** The documented cases of the table. */
  lemma AddExamples()
    ensures AddAmounts(Amount(3.0, EUR), Amount(5.0, EUR)) == FromAmount(Amount(8.0, EUR))
    ensures AddAmounts(Amount(3.0, EUR), Amount(5.0, USD)) == MismatchResult(EUR, USD)
    ensures AddAmountResult(Amount(3.0, EUR), DivideByZeroResult()) == DivideByZeroResult()
    ensures AddResultAmount(MismatchResult(EUR, USD), Amount(1.0, EUR)) == MismatchResult(EUR, USD)
  {
  }
}
