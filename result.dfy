/** The outcome of a monetary computation: either an amount or a currency
    error. Errors are values that travel through further arithmetic. */
module Results {
  import opened StdTypes
  import opened Decimals
  import opened Currencies
  import opened Errors
  import opened Amounts

  /** A thin wrapper around `Result<Amount, CurrencyError>`. */
  datatype AmountResult = AmountResult(inner: Result<Amount, CurrencyError>)

  /** The conversion from an amount: always a success. */
  function FromAmount(a: Amount): (r: AmountResult)
    ensures r.inner.Ok? && r.inner.value == a
  {
    AmountResult(Ok(a))
  }

  /** The conversion from an error: always a failure. */
  function FromError(e: CurrencyError): (r: AmountResult)
    ensures r.inner.Err? && r.inner.error == e
  {
    AmountResult(Err(e))
  }

  function UnknownResult(): (r: AmountResult)
    ensures r.inner == Err(Unknown)
  {
    FromError(Unknown)
  }

  /** The mismatch keeps its arguments in the order given. */
  function MismatchResult(c1: Currency, c2: Currency): (r: AmountResult)
    ensures r.inner == Err(Mismatch(c1, c2))
  {
    FromError(Mismatch(c1, c2))
  }

  function DivideByZeroResult(): (r: AmountResult)
    ensures r.inner == Err(DivideByZero)
  {
    FromError(DivideByZero)
  }

  predicate IsUnknown(r: AmountResult) {
    r.inner.Err? && r.inner.error.Unknown?
  }

  predicate IsMismatch(r: AmountResult) {
    r.inner.Err? && r.inner.error.Mismatch?
  }

  predicate IsDivideByZero(r: AmountResult) {
    r.inner.Err? && r.inner.error.DivideByZero?
  }

  /** An error that no later operand can clear: every error but `Unknown`. */
  predicate IsAbsorbing(r: AmountResult) {
    r.inner.Err? && !r.inner.error.Unknown?
  }

  /** A failure satisfies exactly one of the three variant tests; a success
      satisfies none. */
  lemma VariantTestsPartition(r: AmountResult)
    ensures r.inner.Ok? ==> !IsUnknown(r) && !IsMismatch(r) && !IsDivideByZero(r)
    ensures r.inner.Err? ==>
      (IsUnknown(r) && !IsMismatch(r) && !IsDivideByZero(r)) ||
      (!IsUnknown(r) && IsMismatch(r) && !IsDivideByZero(r)) ||
      (!IsUnknown(r) && !IsMismatch(r) && IsDivideByZero(r))
  {
  }

  /** The three error constructors each satisfy their own variant test only. */
  lemma ConstructorsVariants(c1: Currency, c2: Currency)
    ensures IsUnknown(UnknownResult()) && !IsMismatch(UnknownResult()) && !IsDivideByZero(UnknownResult())
    ensures IsMismatch(MismatchResult(c1, c2)) && !IsUnknown(MismatchResult(c1, c2)) && !IsDivideByZero(MismatchResult(c1, c2))
    ensures IsDivideByZero(DivideByZeroResult()) && !IsUnknown(DivideByZeroResult()) && !IsMismatch(DivideByZeroResult())
  {
  }

  /** Absolute value of a wrapped amount; every error, `Unknown` included,
      comes back unchanged. */
  function AbsResult(r: AmountResult): (s: AmountResult)
    ensures s.inner.Ok? <==> r.inner.Ok?
    ensures r.inner.Ok? ==> s == FromAmount(Abs(r.inner.value))
    ensures r.inner.Err? ==> s == r
  {
    match r.inner
    case Ok(a) => FromAmount(Abs(a))
    case Err(e) => FromError(e)
  }

  /** Conversion of a wrapped amount; every error comes back unchanged. */
  function ConvertedToResult(r: AmountResult, target: Currency, rate: Decimal): (s: AmountResult)
    ensures s.inner.Ok? <==> r.inner.Ok?
    ensures r.inner.Ok? ==> s == FromAmount(ConvertedTo(r.inner.value, target, rate))
    ensures r.inner.Err? ==> s == r
  {
    match r.inner
    case Ok(a) => FromAmount(ConvertedTo(a, target, rate))
    case Err(e) => FromError(e)
  }

  /** The absolute value of an outcome is already its own absolute value. */
  lemma AbsResultIdempotent(r: AmountResult)
    ensures AbsResult(AbsResult(r)) == AbsResult(r)
  {
  }

  /** The underlying two-case result, for ordinary error propagation. */
  function IntoInner(r: AmountResult): (res: Result<Amount, CurrencyError>)
    ensures AmountResult(res) == r
  {
    r.inner
  }

  /** The fallible conversion of an outcome back into an amount (defined next
      to `Amount` in the source). */
  function TryIntoAmount(r: AmountResult): (res: Result<Amount, CurrencyError>)
    ensures res.Ok? <==> r.inner.Ok?
    ensures res == IntoInner(r)
  {
    if r.inner.Ok? then Ok(r.inner.value) else Err(r.inner.error)
  }

  /** Wrapping and unwrapping are inverse: an amount comes back as `Ok` of
      itself, an error as `Err` of itself. */
  lemma FromTryIntoRoundTrip(a: Amount, e: CurrencyError)
    ensures TryIntoAmount(FromAmount(a)) == Ok(a)
    ensures TryIntoAmount(FromError(e)) == Err(e)
    ensures IntoInner(FromAmount(a)) == Ok(a)
    ensures IntoInner(FromError(e)) == Err(e)
  {
  }

  /** The `Display` text: an amount's own text, or the error's. */
  function DisplayResult(r: AmountResult, precision: Option<nat>, format: (Decimal, nat) -> string): string {
    match r.inner
    case Ok(a) => DisplayAmount(a, precision, format)
    case Err(e) => Render(e)
  }

  /** A success displays as its amount; a failure displays as its error, at
      any requested precision. */
  lemma DisplayDispatch(a: Amount, e: CurrencyError, precision: Option<nat>, format: (Decimal, nat) -> string)
    ensures DisplayResult(FromAmount(a), precision, format) == DisplayAmount(a, precision, format)
    ensures DisplayResult(FromError(e), precision, format) == Render(e)
  {
  }
}
