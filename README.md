# Money algebra of `oxydized-money`, modelled in Dafny

The crate gives money a type. An `Amount` is an immutable pair of a decimal
quantity and a currency. A `CurrencyError` is one of `Mismatch(c1, c2)`,
`DivideByZero` or `Unknown`. An `AmountResult` wraps
`Result<Amount, CurrencyError>`. `+` and `-` accept any mix of `Amount` and
`AmountResult` operands; `+=` and `-=` update an `AmountResult`, with either
kind on the right. Unary `-` applies to either
of those two. `* Decimal` and `/ Decimal` take one of those two on the left and
a decimal on the right. Only the mixed `==` involves a bare `CurrencyError`,
compared with an `AmountResult`. Errors become values that travel through
later arithmetic:

- `Unknown` is the identity of `+`.
- Any other error on the left absorbs the right operand.
- A mismatch names the left currency first.
- `Sum` over a sequence is a left fold of `+` that yields `Unknown` for an
  empty sequence.

This project models that algebra as Dafny datatypes and functions, one module
per source file:

- `std_types.dfy`: `Option`, `Result` and `Ordering`.
- `decimal.dfy`: the decimal library, as exact rationals.
- `currency.dfy`: a four-currency stand-in for the ISO catalog.
- `error.dfy`: `CurrencyError` and its text.
- `amount.dfy`: `Amount` and its partial order.
- `result.dfy`: `AmountResult`, its constructors, variant tests, conversions,
  `TryFrom` and `Display`.
- `ops_neg.dfy`, `ops_add.dfy`, `ops_sub.dfy`, `ops_mul.dfy`, `ops_div.dfy`,
  `ops_eq.dfy`: the operator table.
- `sum.dfy`: the two `Sum` impls. Each is a loop method proved equal to the
  fold of `+` from `Unknown`, with lemmas about that fold.
- `assign.dfy`: `+=` and `-=` as methods of a class that holds a mutable
  `AmountResult`, plus chains of operations.

Dafny modules cannot import each other in a cycle. So
`TryFrom<AmountResult> for Amount` (in `src/amount.rs`) is
`Results.TryIntoAmount`, and the `Sum` impls (in `src/result.rs`) live in
`Sums`, after `+` is defined.

`Unknown / 0` is `Unknown`, not `DivideByZero`: `src/ops/div.rs:19-24`
returns every existing error, `Unknown` included, before it looks at the
divisor. `Division.DivByZeroChecksSuccessOnly` states it.

## Model

| member | source | states |
|---|---|---|
| `Errors.RenderMismatchCodes` | src/error.rs:48 | the text of `Mismatch(c1, c2)` has the code of `c1` before the code of `c2`, at fixed positions |
| `Errors.RenderInjective` | src/error.rs:44-53 | `Render`, the `Display` text of an error: two errors have the same text iff they are equal, so the text tells the variants and the two orders of a mismatch apart |
| `Errors.RenderExamples` | src/error.rs:59-74 | the texts "unknown currency", "divide by zero" and "mismatch currency 'USD' and 'EUR'"; `Mismatch(EUR,USD)` and `Mismatch(USD,EUR)` render differently |
| `Errors.ErrorEquality` | src/error.rs:11-25 | error equality is structural: same variant and, for a mismatch, the same two currencies in the same order |
| `Amounts.New` | src/amount.rs:28-58 | the `value` and `currency` accessors of a new amount give back exactly the arguments |
| `Amounts.NewFromAccessors` | src/amount.rs:14-19 | rebuilding an amount from its accessors gives it back; two amounts are equal iff value and currency both are |
| `Amounts.Abs` | src/amount.rs:72-74 | same currency, a value that is non-negative and equals the value or its negation |
| `Amounts.AbsIdempotent` | src/amount.rs:72-74 | taking the absolute value twice is taking it once |
| `Amounts.ConvertedTo` | src/amount.rs:93-95 | the result has the target currency and the value times the rate, with no check on either |
| `Amounts.ConvertedToSameAtParIsIdentity` | src/amount.rs:93-95 | converting into one's own currency at rate 1 is the identity |
| `Amounts.DisplayDefaultPrecision` | src/amount.rs:98-109 | `DisplayAmount`, the `Display` of an amount through the decimal formatter: with no precision requested an amount is displayed as with precision 2 |
| `Amounts.PartialCmp` | src/amount.rs:123-131 | `None` iff the currencies differ; `Some(Less)`/`Some(Greater)` iff same currency and smaller/larger value; `Some(Equal)` iff the amounts are equal |
| `Amounts.PartialCmpAntisymmetric` | src/amount.rs:123-131 | comparing the other way round reverses the ordering and keeps `None` |
| `Amounts.CrossCurrencyIncomparable` | src/amount.rs:123-131 | amounts in different currencies are neither equal nor `<` nor `<=` in either direction |
| `Amounts.LtTransitive` | src/amount.rs:123-131 | `<` is transitive |
| `Amounts.PartialCmpExamples` | src/amount.rs:181-188 | all six documented comparisons of EUR and USD amounts |
| `Results.FromAmount` | src/result.rs:205-209 | converting an amount gives `Ok` of that amount |
| `Results.FromError` | src/result.rs:235-239 | converting an error gives `Err` of that error |
| `Results.UnknownResult` | src/result.rs:36-38 | yields `Err(Unknown)` |
| `Results.MismatchResult` | src/result.rs:50-52 | yields `Err(Mismatch(c1, c2))` with the arguments in the given order |
| `Results.DivideByZeroResult` | src/result.rs:64-66 | yields `Err(DivideByZero)` |
| `Results.VariantTestsPartition` | src/result.rs:147-179 | `IsUnknown`, `IsMismatch` and `IsDivideByZero`, the `is_*` tests: an `Ok` satisfies none of `is_unknown`, `is_mismatch`, `is_divide_by_zero`; an `Err` satisfies exactly one |
| `Results.ConstructorsVariants` | src/result.rs:36-66 | each error constructor satisfies its own variant test and no other |
| `Results.AbsResult` | src/result.rs:82-84 | `Ok`/`Err` is kept; a wrapped amount gets its absolute value; every error, `Unknown` included, comes back unchanged |
| `Results.ConvertedToResult` | src/result.rs:110-112 | `Ok`/`Err` is kept; a wrapped amount is converted; every error comes back unchanged |
| `Results.AbsResultIdempotent` | src/result.rs:82-84 | `abs` of an outcome is idempotent |
| `Results.IntoInner` | src/result.rs:132-134 | wrapping the returned inner result gives back the outcome |
| `Results.TryIntoAmount` | src/amount.rs:111-121 | `Ok` exactly for a success, and the returned result is the inner result |
| `Results.FromTryIntoRoundTrip` | src/result.rs:333-341 | `try_from(from(a)) == Ok(a)`, `try_from(from(e)) == Err(e)`, and the same for `into_inner` |
| `Results.DisplayDispatch` | src/result.rs:182-189 | `DisplayResult`, the `Display` of an outcome: a success displays as its amount; a failure displays as its error's text at any precision |
| `Negation.NegAmount` | src/ops/neg.rs:7-9 | keeps the currency and negates the value |
| `Negation.NegResult` | src/ops/neg.rs:14-19 | never switches between `Ok` and `Err`; negates a wrapped amount; every error passes through unchanged |
| `Negation.NegInvolution` | src/ops/neg.rs:30-34 | `-(-a) == a` for amounts and for outcomes |
| `Negation.NegWrapped` | src/ops/neg.rs:37-42 | `-Ok(a) == Ok(-a)` and `-Err(e) == Err(e)` for every error |
| `Negation.AbsOfNeg` | src/amount.rs:72-74 | an amount or outcome and its negation have the same absolute value |
| `Addition.AddAmounts` | src/ops/add.rs:8-14 | `Ok` iff the currencies agree, then the summed value in that currency; otherwise `Mismatch(left, right)`; never `Unknown` or `DivideByZero` |
| `Addition.AddAmountResult` | src/ops/add.rs:20-26 | with an amount on the left the sum is never `Unknown`; a non-`Unknown` error on the right is returned unchanged |
| `Addition.AddResults` | src/ops/add.rs:32-38 | the sum is `Unknown` iff both operands are; a non-`Unknown` error on the left is returned unchanged; one on the right wins unless the left holds one |
| `Addition.AddResultAmount` | src/ops/add.rs:44-50 | never `Unknown`; a non-`Unknown` error on the left is returned unchanged |
| `Addition.AddKindsAgree` | src/ops/add.rs:17-51 | each mixed impl equals the outcome impl on wrapped operands; `W(a)+b`, `a+W(b)` and `W(a)+W(b)` all equal `a+b` |
| `Addition.UnknownIsAddIdentity` | src/ops/add.rs:81-104 | `Unknown + x == x` and `x + Unknown == x` for every outcome and every amount |
| `Addition.UnknownLeftIdentity` | src/ops/add.rs:35 | `Unknown + x == x` for every outcome `x` |
| `Addition.UnknownRightIdentity` | src/ops/add.rs:17-38 | `x + Unknown == x` for every outcome `x`, through the success arm and the error arms |
| `Addition.UnknownPlusAmount` | src/ops/add.rs:47 | `Unknown + a` is the wrapped amount `a` |
| `Addition.ResultPlusAmountIsWrapped` | src/ops/add.rs:41-51 | adding a bare amount to an outcome equals adding the wrapped amount |
| `Addition.AddAmountsSwap` | src/ops/add.rs:8-14 | swapping the operands keeps a same-currency sum and swaps the currencies of the mismatch |
| `Addition.AddNotAssociative` | src/ops/add.rs:29-38 | with three currencies, the grouping decides which mismatch is reported |
| `Addition.AddExamples` | src/ops/add.rs:72-95 | the documented cases: `eur3+eur5`, `eur3+usd5`, and error passthrough |
| `Subtraction.SubAmounts` | src/ops/sub.rs:7-13 | `Ok` iff the currencies agree, then the difference in that currency; otherwise `Mismatch(left, right)`; never `Unknown` or `DivideByZero` |
| `Subtraction.SubAmountResult` | src/ops/sub.rs:19-25 | never `Unknown`; a non-`Unknown` error on the right is returned unchanged |
| `Subtraction.SubResults` | src/ops/sub.rs:31-37 | `Unknown` iff both operands are; a non-`Unknown` error on the left wins; one on the right wins unless the left holds one |
| `Subtraction.SubResultAmount` | src/ops/sub.rs:43-49 | never `Unknown`; a non-`Unknown` error on the left is returned unchanged |
| `Subtraction.SubIsAddNeg` | src/ops/sub.rs:4-50 | `x - y == x + (-y)` for all four mixes of operand kinds, which justifies `Unknown - x == -x` |
| `Subtraction.SubResultsIsAddNeg` | src/ops/sub.rs:28-38 | `l - r == l + (-r)` for every two outcomes |
| `Subtraction.SubKindsAgree` | src/ops/sub.rs:16-50 | each mixed impl equals the outcome impl on wrapped operands |
| `Subtraction.UnknownInSub` | src/ops/sub.rs:22-46 | `x - Unknown == x`, `Unknown - x == -x` for outcomes, and `Unknown - a == Ok(-a)` for amounts |
| `Subtraction.SubUndoesAdd` | src/ops/sub.rs:7-13 | `(a + b) - b == a` for same-currency amounts |
| `Subtraction.SubExamples` | src/result.rs:386-406 | the documented cases, including `Unknown - Mismatch == Mismatch` and a left mismatch winning over a right one |
| `Multiplication.MulAmount` | src/ops/mul.rs:7-9 | never fails; keeps the currency; the value is multiplied by the factor |
| `Multiplication.MulResult` | src/ops/mul.rs:15-20 | `Ok(a) * r == Ok(a * r)`; every error, `Unknown` included, passes through |
| `Multiplication.MulByUnitAndMinusUnit` | src/amount.rs:157-162 | `* 1` is the identity and `* -1` is negation, for amounts and outcomes |
| `Multiplication.ConvertedToIsScaling` | src/amount.rs:93-95 | conversion equals scaling the amount relabelled in the target currency |
| `Multiplication.MulExamples` | src/ops/mul.rs:32-44 | the documented products and error passthrough |
| `Division.DivAmount` | src/ops/div.rs:7-13 | `Err(DivideByZero)` iff the divisor is zero, else the quotient in the same currency; never `Mismatch` or `Unknown` |
| `Division.DivResult` | src/ops/div.rs:19-24 | every existing error is returned unchanged for every divisor; a success divides like a bare amount |
| `Division.DivByZeroChecksSuccessOnly` | src/ops/div.rs:19-24 | dividing by zero gives `DivideByZero` only for a success; an error, `Unknown` included, is kept |
| `Division.DivWrapped` | src/ops/div.rs:21 | `Ok(a) / d == a / d` for every divisor |
| `Division.DivExamples` | src/ops/div.rs:36-51 | all documented cases: `6.3/3`, `-6.3/3` and `6.3/-3` of an amount, the zero divisor, and division of wrapped amounts and of each error |
| `MixedEquality.AmountEqResult` | src/ops/eq.rs:3-10 | true iff the outcome is `Ok` of that amount; false for every `Err` |
| `MixedEquality.ResultEqAmount` | src/ops/eq.rs:12-19 | true iff the outcome is `Ok` of that amount; false for every `Err` |
| `MixedEquality.ErrorEqResult` | src/ops/eq.rs:21-28 | true iff the outcome is `Err` of that error; false for every `Ok` |
| `MixedEquality.ResultEqError` | src/ops/eq.rs:30-37 | true iff the outcome is `Err` of that error; false for every `Ok` |
| `MixedEquality.MixedEqualitySymmetric` | src/ops/eq.rs:3-37 | both mixed equalities give the same answer on either side |
| `MixedEquality.NeverAmountAndError` | src/ops/eq.rs:3-37 | no outcome equals both an amount and an error |
| `MixedEquality.MismatchOrderMatters` | src/ops/eq.rs:84-103 | `W(Mismatch(EUR,USD)) != Mismatch(USD,EUR)`; an amount differs from another currency's amount and from `Unknown` |
| `Sums.SumResults` | src/result.rs:269-277 | folding from the first element equals the fold of `+` from `Unknown`; an empty sum is `Unknown` |
| `Sums.SumAmounts` | src/result.rs:253-261 | the sum of amounts equals the sum of the wrapped amounts; it is `Unknown` iff the sequence is empty |
| `Sums.FoldLatches` | src/ops/add.rs:36 | once the running total is a non-`Unknown` error, it is the final result |
| `Sums.FoldPoisoned` | src/result.rs:377-383 | a non-`Unknown` error anywhere makes the fold a non-`Unknown` error |
| `Sums.SumPoisoned` | src/result.rs:377-383 | a `Mismatch` or `DivideByZero` element makes the sum a non-`Unknown` error |
| `Sums.FoldSkipsUnknown` | src/result.rs:372-375 | removing the `Unknown` elements does not change a fold |
| `Sums.SumSkipsUnknown` | src/result.rs:372-375 | `Unknown` elements are skipped by the sum |
| `Sums.FoldAppend` | src/result.rs:269-277 | folding a concatenation is folding the second part from the total of the first |
| `Sums.SumSnoc` | src/ops/add.rs:59-63 | summing one more element is `+=` on the sum so far |
| `Sums.FoldSameCurrency` | src/result.rs:344-349 | a fold of same-currency amounts from a same-currency success adds up their values |
| `Sums.SumSameCurrency` | src/result.rs:344-349 | a non-empty sequence of amounts in one currency sums to `Ok` of the total value in that currency |
| `Sums.SumExamples` | src/result.rs:343-384 | the documented sums, including `[eur2, usd3, usd4]` giving `Mismatch(EUR, USD)` |
| `Assignment.Accumulator.AddAssign` | src/ops/add.rs:59-63 | `acc += r` sets `acc` to `acc + r` and keeps a non-`Unknown` error |
| `Assignment.Accumulator.AddAssignAmount` | src/ops/add.rs:53-57 | `acc += a` sets `acc` to `acc + a` and keeps a non-`Unknown` error |
| `Assignment.Accumulator.SubAssign` | src/ops/sub.rs:58-62 | `acc -= r` sets `acc` to `acc - r` and keeps a non-`Unknown` error |
| `Assignment.Accumulator.SubAssignAmount` | src/ops/sub.rs:52-56 | `acc -= a` sets `acc` to `acc - a` and keeps a non-`Unknown` error |
| `Assignment.ChainLatches` | src/ops/add.rs:53-63 | after a non-`Unknown` error, no sequence of `+`, `-`, `*`, `/` steps with any operands changes it |
| `Assignment.RepeatedAddAssignIsFold` | src/ops/add.rs:53-63 | repeated `+=` equals the fold of `+` over the operands, so from `Unknown` it is their sum |
| `Assignment.MinusStepAddsNegation` | src/ops/sub.rs:52-62 | a `-=` step equals a `+=` step with the negated operand |
| `Assignment.RepeatedSubAssignIsFoldOfNegated` | src/ops/sub.rs:52-62 | repeated `-=` equals the fold of `+` over the negated operands |

## Left out

- `macros/build.rs` is not part of this model. It generates per-currency literal macros from the currency list at build time, which is file I/O with no algorithm.
- `src/lib.rs` and `src/ops/mod.rs` hold only module declarations, re-exports and a test macro.
- The decimal library's internals are modelled as exact rationals: its 28-digit scale, its rounding in `*` and `/`, the rounding of `+` and `-` when the two scales cannot be aligned within its 96-bit mantissa, and its overflow panics are not. No property is stated that depends on exact division, such as `(x / d) * d == x`.
- Subtraction.SubUndoesAdd: `(a + b) - b == a` is stated for exact decimals. With the decimal library's rounding at the 28-digit limit it can fail.
- Decimal formatting is a foreign call. `DisplayAmount` takes it as a parameter. The precision-dependent test texts ("€ 2.00", "$ 1.66", "$ 1.666") depend on that formatter and are not stated.
- The ISO currency catalog is modelled by four currencies with their codes and symbols. Only currency identity and the codes in error texts matter to the algebra.
- serde serialization of `Amount` and `CurrencyError` and its JSON tests are an external library's encoding.
- `Deref`/`DerefMut` of `Amount` to `Decimal` and of `AmountResult` to `Result` are borrow plumbing. So are the methods reached through them (`is_ok`, `unwrap`, `is_zero`, `is_sign_negative`).
- The `&`/`&mut` variants of the `From` conversions (`src/error.rs:29-39`, `src/result.rs:211-233`, `src/result.rs:241-251`) are plain copies, the same as the by-value conversions.
- The `Sum` impls over references (`src/result.rs:263-267`, `src/result.rs:279-283`) copy each element and call the by-value impls. They are the same methods in the model.
- `Sum` takes a finite sequence rather than a lazy iterator.
- The `Hash`, `Debug`, `Clone` and `Copy` derives and `impl Error` carry no behaviour beyond what the datatypes already have.
- `Assignment.Accumulator` stands for any mutable `AmountResult` place that `+=`/`-=` writes. `AmountResult` is a `Copy` value, so aliasing does not arise.
