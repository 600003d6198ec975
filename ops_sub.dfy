/** The `-` table over every mix of amounts and outcomes. */
module Subtraction {
  import opened Currencies
  import opened Errors
  import opened Amounts
  import opened Results
  import opened Negation
  import opened Addition

  /** Amount - Amount: the difference when the currencies agree, otherwise a
      mismatch naming the left currency first. */
  function SubAmounts(a: Amount, b: Amount): (r: AmountResult)
    ensures r.inner.Ok? <==> a.currency == b.currency
    ensures r.inner.Ok? ==> r.inner.value == Amount(a.value - b.value, a.currency)
    ensures r.inner.Err? ==> r == MismatchResult(a.currency, b.currency)
    ensures !IsUnknown(r) && !IsDivideByZero(r)
  {
    if a.currency == b.currency then
      FromAmount(New(a.value - b.value, a.currency))
    else
      FromError(Mismatch(a.currency, b.currency))
  }

  /** Amount - AmountResult: never `Unknown`; `Unknown` on the right leaves the
      amount, an absorbing error on the right is returned as is. */
  function SubAmountResult(a: Amount, r: AmountResult): (s: AmountResult)
    ensures !IsUnknown(s)
    ensures IsAbsorbing(r) ==> s == r
  {
    match r.inner
    case Ok(b) => SubAmounts(a, b)
    case Err(Unknown) => FromAmount(a)
    case Err(e) => FromError(e)
  }

  /** AmountResult - AmountResult. `Unknown` on the left negates the right
      operand. The result is `Unknown` exactly when both operands are; an
      absorbing error on the left wins. */
  function SubResults(l: AmountResult, r: AmountResult): (s: AmountResult)
    ensures IsUnknown(s) <==> IsUnknown(l) && IsUnknown(r)
    ensures IsAbsorbing(l) ==> s == l
    ensures IsAbsorbing(r) && !IsAbsorbing(l) ==> s == r
  {
    match l.inner
    case Ok(a) => SubAmountResult(a, r)
    case Err(Unknown) => NegResult(r)
    case Err(e) => FromError(e)
  }

  /** AmountResult - Amount: never `Unknown`; from `Unknown` it is the negated
      amount. */
  function SubResultAmount(l: AmountResult, b: Amount): (s: AmountResult)
    ensures !IsUnknown(s)
    ensures IsAbsorbing(l) ==> s == l
  {
    match l.inner
    case Ok(a) => SubAmounts(a, b)
    case Err(Unknown) => FromAmount(NegAmount(b))
    case Err(e) => FromError(e)
  }

  /** Subtraction is addition of the negation, for every mix of operands.
      This is what the rule `Unknown - x == -x` buys: with it, a chain of
      subtractions is a left fold of `+` over negated operands. */
  lemma SubIsAddNeg(a: Amount, b: Amount, l: AmountResult, r: AmountResult)
    ensures SubAmounts(a, b) == AddAmounts(a, NegAmount(b))
    ensures SubAmountResult(a, r) == AddAmountResult(a, NegResult(r))
    ensures SubResultAmount(l, b) == AddResultAmount(l, NegAmount(b))
    ensures SubResults(l, r) == AddResults(l, NegResult(r))
  {
  }

  /** Subtracting one outcome from another is adding its negation. */
  lemma SubResultsIsAddNeg(l: AmountResult, r: AmountResult)
    ensures SubResults(l, r) == AddResults(l, NegResult(r))
  {
  }

  /** Every mixed form is the outcome form applied to the wrapped operands. */
  lemma SubKindsAgree(a: Amount, b: Amount, l: AmountResult, r: AmountResult)
    ensures SubAmountResult(a, r) == SubResults(FromAmount(a), r)
    ensures SubResultAmount(l, b) == SubResults(l, FromAmount(b))
    ensures SubResults(FromAmount(a), FromAmount(b)) == SubAmounts(a, b)
  {
  }

  /** `Unknown` is a right identity of `-`, and `Unknown - x` is `-x`. */
  lemma UnknownInSub(a: Amount, x: AmountResult)
    ensures SubResults(x, UnknownResult()) == x
    ensures SubAmountResult(a, UnknownResult()) == FromAmount(a)
    ensures SubResults(UnknownResult(), x) == NegResult(x)
    ensures SubResultAmount(UnknownResult(), a) == FromAmount(NegAmount(a))
  {
  }

  /** Subtracting what was added gives back the original amount. */
  lemma SubUndoesAdd(a: Amount, b: Amount)
    requires a.currency == b.currency
    ensures SubResultAmount(AddAmounts(a, b), b) == FromAmount(a)
  {
  }

  /** The documented cases, including the ones where errors meet errors. */
  lemma SubExamples()
    ensures SubAmounts(Amount(3.0, EUR), Amount(5.0, EUR)) == FromAmount(NegAmount(Amount(2.0, EUR)))
    ensures SubAmounts(Amount(10.0, EUR), Amount(5.0, EUR)) == FromAmount(Amount(5.0, EUR))
    ensures SubAmounts(Amount(3.0, EUR), Amount(5.0, USD)) == MismatchResult(EUR, USD)
    ensures SubResultAmount(SubAmounts(Amount(1.0, EUR), Amount(2.0, EUR)), Amount(3.0, EUR)) == FromAmount(Amount(-4.0, EUR))
    ensures SubAmountResult(Amount(1.0, EUR), SubAmounts(Amount(2.0, EUR), Amount(3.0, EUR))) == FromAmount(Amount(2.0, EUR))
    ensures SubResults(UnknownResult(), MismatchResult(USD, EUR)) == MismatchResult(USD, EUR)
    ensures SubResults(MismatchResult(USD, EUR), MismatchResult(EUR, USD)) == MismatchResult(USD, EUR)
    ensures SubResults(MismatchResult(EUR, USD), MismatchResult(USD, EUR)) == MismatchResult(EUR, USD)
  {
  }
}
