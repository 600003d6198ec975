/** Unary minus on amounts and on outcomes. */
module Negation {
  import opened Decimals
  import opened Errors
  import opened Amounts
  import opened Results

  /** The quantity negated, the currency kept; it cannot fail. */
  function NegAmount(a: Amount): (n: Amount)
    ensures n.currency == a.currency
    ensures n.value == -a.value
  {
    New(-a.value, a.currency)
  }

  /** Negates a wrapped amount; every error, `Unknown` included, passes
      through, so a success stays a success and a failure stays a failure. */
  function NegResult(r: AmountResult): (n: AmountResult)
    ensures n.inner.Ok? <==> r.inner.Ok?
    ensures r.inner.Ok? ==> n == FromAmount(NegAmount(r.inner.value))
    ensures r.inner.Err? ==> n == r
  {
    match r.inner
    case Ok(a) => FromAmount(NegAmount(a))
    case Err(e) => FromError(e)
  }

  /** Negation is an involution on amounts and on outcomes. */
  lemma NegInvolution(a: Amount, r: AmountResult)
    ensures NegAmount(NegAmount(a)) == a
    ensures NegResult(NegResult(r)) == r
  {
  }

  /** Negation commutes with wrapping, and leaves every error alone. */
  lemma NegWrapped(a: Amount, e: CurrencyError)
    ensures NegResult(FromAmount(a)) == FromAmount(NegAmount(a))
    ensures NegResult(FromError(e)) == FromError(e)
  {
  }

  /** An amount and its negation have the same absolute value. */
  lemma AbsOfNeg(a: Amount, r: AmountResult)
    ensures Abs(NegAmount(a)) == Abs(a)
    ensures AbsResult(NegResult(r)) == AbsResult(r)
  {
    AbsOfNegValue(a.value);
    if r.inner.Ok? {
      AbsOfNegValue(r.inner.value.value);
    }
  }

  lemma AbsOfNegValue(x: Decimal)
    ensures DecAbs(-x) == DecAbs(x)
  {
    if x < 0.0 {
      assert DecAbs(-x) == -x;
    } else {
      assert DecAbs(-x) == x;
    }
  }
}
