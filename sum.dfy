/** Reduction of a sequence of amounts or outcomes with `+`. */
module Sums {
  import opened Decimals
  import opened Currencies
  import opened Errors
  import opened Amounts
  import opened Results
  import opened Addition

  /** The left fold of `+` over `xs`, starting from `acc`. */
  function FoldAdd(acc: AmountResult, xs: seq<AmountResult>): AmountResult
    decreases |xs|
  {
    if xs == [] then acc else FoldAdd(AddResults(acc, xs[0]), xs[1..])
  }

  /** The reference reduction: the left fold of `+` started from `Unknown`. */
  function SumSpec(xs: seq<AmountResult>): AmountResult {
    FoldAdd(UnknownResult(), xs)
  }

  /** Every amount of `xs` turned into a success. */
  function Wrapped(xs: seq<Amount>): (ws: seq<AmountResult>)
    ensures |ws| == |xs|
    ensures forall i :: 0 <= i < |xs| ==> ws[i] == FromAmount(xs[i])
  {
    seq(|xs|, i requires 0 <= i < |xs| => FromAmount(xs[i]))
  }

  /** The sum of an iterator of outcomes: the first element, if any, is the
      seed of a fold of `+` over the rest; an empty iterator gives `Unknown`.
      Because `Unknown` is the identity of `+`, this is the fold from
      `Unknown`. */
  method SumResults(xs: seq<AmountResult>) returns (total: AmountResult)
    ensures total == SumSpec(xs)
    ensures xs == [] ==> total == UnknownResult()
  {
    if |xs| == 0 {
      return FromError(Unknown);
    }
    UnknownLeftIdentity(xs[0]);
    total := xs[0];
    var i := 1;
    while i < |xs|
      invariant 1 <= i <= |xs|
      invariant FoldAdd(total, xs[i..]) == SumSpec(xs)
    {
      assert xs[i..][0] == xs[i] && xs[i..][1..] == xs[i + 1..];
      total := AddResults(total, xs[i]);
      i := i + 1;
    }
    assert xs[i..] == [];
  }

  /** The sum of an iterator of amounts: the first amount is wrapped and seeds
      a fold of `+` over the rest. It equals the reduction of the wrapped
      amounts, and it is `Unknown` only for an empty iterator. */
  method SumAmounts(xs: seq<Amount>) returns (total: AmountResult)
    ensures total == SumSpec(Wrapped(xs))
    ensures IsUnknown(total) <==> xs == []
  {
    ghost var ws := Wrapped(xs);
    if |xs| == 0 {
      return FromError(Unknown);
    }
    UnknownLeftIdentity(ws[0]);
    total := FromAmount(xs[0]);
    var i := 1;
    while i < |xs|
      invariant 1 <= i <= |xs|
      invariant !IsUnknown(total)
      invariant FoldAdd(total, ws[i..]) == SumSpec(ws)
    {
      assert ws[i..][0] == FromAmount(xs[i]) && ws[i..][1..] == ws[i + 1..];
      ResultPlusAmountIsWrapped(total, xs[i]);
      total := AddResultAmount(total, xs[i]);
      i := i + 1;
    }
    assert ws[i..] == [];
  }

  /** Once the running total holds an absorbing error, it is the result. */
  lemma {:induction false} FoldLatches(acc: AmountResult, xs: seq<AmountResult>)
    requires IsAbsorbing(acc)
    ensures FoldAdd(acc, xs) == acc
    decreases |xs|
  {
    if xs != [] {
      FoldLatches(AddResults(acc, xs[0]), xs[1..]);
    }
  }

  /** One absorbing error anywhere in the sequence (a mismatch or a division
      by zero) makes the whole reduction an absorbing error. */
  lemma {:induction false} FoldPoisoned(acc: AmountResult, xs: seq<AmountResult>, k: nat)
    requires k < |xs| && IsAbsorbing(xs[k])
    ensures IsAbsorbing(FoldAdd(acc, xs))
    decreases k
  {
    var next := AddResults(acc, xs[0]);
    if k == 0 {
      FoldLatches(next, xs[1..]);
    } else {
      FoldPoisoned(next, xs[1..], k - 1);
    }
  }

  lemma SumPoisoned(xs: seq<AmountResult>, k: nat)
    requires k < |xs| && IsAbsorbing(xs[k])
    ensures IsAbsorbing(SumSpec(xs))
  {
    FoldPoisoned(UnknownResult(), xs, k);
  }

  /** `xs` without its `Unknown` elements. */
  function WithoutUnknown(xs: seq<AmountResult>): (ys: seq<AmountResult>)
    ensures forall i :: 0 <= i < |ys| ==> !IsUnknown(ys[i])
    ensures |ys| <= |xs|
  {
    if xs == [] then []
    else if IsUnknown(xs[0]) then WithoutUnknown(xs[1..])
    else [xs[0]] + WithoutUnknown(xs[1..])
  }

  /** `Unknown` elements do not change a reduction. */
  lemma {:induction false} FoldSkipsUnknown(acc: AmountResult, xs: seq<AmountResult>)
    ensures FoldAdd(acc, xs) == FoldAdd(acc, WithoutUnknown(xs))
    decreases |xs|
  {
    if xs != [] {
      var rest := WithoutUnknown(xs[1..]);
      if IsUnknown(xs[0]) {
        assert xs[0] == UnknownResult();
        UnknownRightIdentity(acc);
        FoldSkipsUnknown(acc, xs[1..]);
      } else {
        var ys := [xs[0]] + rest;
        assert ys[0] == xs[0] && ys[1..] == rest;
        FoldSkipsUnknown(AddResults(acc, xs[0]), xs[1..]);
      }
    }
  }

  lemma SumSkipsUnknown(xs: seq<AmountResult>)
    ensures SumSpec(xs) == SumSpec(WithoutUnknown(xs))
  {
    FoldSkipsUnknown(UnknownResult(), xs);
  }

  /** Reducing a concatenation is reducing the second part from the total of
      the first. */
  lemma {:induction false} FoldAppend(acc: AmountResult, xs: seq<AmountResult>, ys: seq<AmountResult>)
    ensures FoldAdd(acc, xs + ys) == FoldAdd(FoldAdd(acc, xs), ys)
    decreases |xs|
  {
    if xs == [] {
      assert xs + ys == ys;
    } else {
      assert (xs + ys)[0] == xs[0] && (xs + ys)[1..] == xs[1..] + ys;
      FoldAppend(AddResults(acc, xs[0]), xs[1..], ys);
    }
  }

  /** Adding one more element to a sum is `+=` on the total so far. */
  lemma SumSnoc(xs: seq<AmountResult>, x: AmountResult)
    ensures SumSpec(xs + [x]) == AddResults(SumSpec(xs), x)
  {
    FoldAppend(UnknownResult(), xs, [x]);
    assert [x][1..] == [];
  }

  /** The total of the values of `xs`, ignoring currencies. */
  function TotalValue(xs: seq<Amount>): Decimal {
    if xs == [] then 0.0 else xs[0].value + TotalValue(xs[1..])
  }

  predicate AllIn(xs: seq<Amount>, c: Currency) {
    forall i :: 0 <= i < |xs| ==> xs[i].currency == c
  }

  lemma {:induction false} FoldSameCurrency(v: Decimal, c: Currency, xs: seq<Amount>)
    requires AllIn(xs, c)
    ensures FoldAdd(FromAmount(Amount(v, c)), Wrapped(xs)) == FromAmount(Amount(v + TotalValue(xs), c))
    decreases |xs|
  {
    if xs != [] {
      assert Wrapped(xs)[1..] == Wrapped(xs[1..]);
      assert AllIn(xs[1..], c);
      FoldSameCurrency(v + xs[0].value, c, xs[1..]);
    }
  }

  /** Amounts all in one currency sum to a success holding the total of their
      values in that currency. */
  lemma SumSameCurrency(xs: seq<Amount>, c: Currency)
    requires xs != [] && AllIn(xs, c)
    ensures SumSpec(Wrapped(xs)) == FromAmount(Amount(TotalValue(xs), c))
  {
    var ws := Wrapped(xs);
    UnknownLeftIdentity(ws[0]);
    assert ws[1..] == Wrapped(xs[1..]);
    assert AllIn(xs[1..], c);
    FoldSameCurrency(xs[0].value, c, xs[1..]);
  }

  /** The documented reductions. */
  lemma SumExamples()
    ensures SumSpec([]) == UnknownResult()
    ensures SumSpec(Wrapped([Amount(1.0, EUR), Amount(2.0, EUR)])) == FromAmount(Amount(3.0, EUR))
    ensures SumSpec(Wrapped([Amount(2.0, EUR), Amount(3.0, USD), Amount(4.0, USD)])) == MismatchResult(EUR, USD)
    ensures SumSpec([FromAmount(Amount(1.0, EUR)), UnknownResult(), FromAmount(Amount(2.0, EUR))]) == FromAmount(Amount(3.0, EUR))
    ensures SumSpec([FromAmount(Amount(1.0, EUR)), MismatchResult(USD, EUR), FromAmount(Amount(2.0, EUR))]) == MismatchResult(USD, EUR)
  {
  }
}
