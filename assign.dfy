/** In-place accumulation: `+=` and `-=` overwrite an outcome variable with
    the outcome of the operator. */
module Assignment {
  import opened Decimals
  import opened Currencies
  import opened Errors
  import opened Amounts
  import opened Results
  import opened Addition
  import opened Subtraction
  import opened Multiplication
  import opened Division
  import opened Negation
  import opened Sums

  /** A mutable outcome variable, the target of `+=` and `-=`. */
  class Accumulator {
    var total: AmountResult

    constructor (init: AmountResult)
      ensures total == init
    {
      total := init;
    }

    /** `total += rhs` with an outcome on the right. */
    method AddAssign(rhs: AmountResult)
      modifies this
      ensures total == AddResults(old(total), rhs)
      ensures IsAbsorbing(old(total)) ==> total == old(total)
    {
      total := AddResults(total, rhs);
    }

    /** `total += rhs` with an amount on the right. */
    method AddAssignAmount(rhs: Amount)
      modifies this
      ensures total == AddResultAmount(old(total), rhs)
      ensures IsAbsorbing(old(total)) ==> total == old(total)
    {
      total := AddResultAmount(total, rhs);
    }

    /** `total -= rhs` with an outcome on the right. */
    method SubAssign(rhs: AmountResult)
      modifies this
      ensures total == SubResults(old(total), rhs)
      ensures IsAbsorbing(old(total)) ==> total == old(total)
    {
      total := SubResults(total, rhs);
    }

    /** `total -= rhs` with an amount on the right. */
    method SubAssignAmount(rhs: Amount)
      modifies this
      ensures total == SubResultAmount(old(total), rhs)
      ensures IsAbsorbing(old(total)) ==> total == old(total)
    {
      total := SubResultAmount(total, rhs);
    }
  }

  /** What callers can conclude from the contracts alone: the documented
      accumulation that ends in a latched mismatch. */
  method AccumulateExample() {
    var acc := new Accumulator(FromAmount(Amount(2.0, EUR)));
    acc.AddAssignAmount(Amount(12.0, EUR));
    assert acc.total == FromAmount(Amount(14.0, EUR));
    acc.AddAssignAmount(Amount(1.0, USD));
    assert acc.total == MismatchResult(EUR, USD);
    acc.SubAssign(FromAmount(Amount(1.0, EUR)));
    acc.AddAssign(UnknownResult());
    assert acc.total == MismatchResult(EUR, USD);
  }

  /** One step of an arithmetic chain applied to a running outcome. */
  datatype Step = Plus(r: AmountResult) | Minus(r: AmountResult) | Times(factor: Decimal) | DividedBy(divisor: Decimal)

  function ApplyStep(acc: AmountResult, step: Step): AmountResult {
    match step
    case Plus(r) => AddResults(acc, r)
    case Minus(r) => SubResults(acc, r)
    case Times(f) => MulResult(acc, f)
    case DividedBy(d) => DivResult(acc, d)
  }

  /** A chain of steps applied left to right. */
  function Chain(acc: AmountResult, steps: seq<Step>): AmountResult
    decreases |steps|
  {
    if steps == [] then acc else Chain(ApplyStep(acc, steps[0]), steps[1..])
  }

  /** Once an absorbing error is in the running outcome, no later `+`, `-`,
      `*` or `/`, with any operand, changes it. */
  lemma {:induction false} ChainLatches(acc: AmountResult, steps: seq<Step>)
    requires IsAbsorbing(acc)
    ensures Chain(acc, steps) == acc
    decreases |steps|
  {
    if steps != [] {
      assert ApplyStep(acc, steps[0]) == acc;
      ChainLatches(acc, steps[1..]);
    }
  }

  /** `+=` with each element of `xs` in turn. */
  function PlusSteps(xs: seq<AmountResult>): (steps: seq<Step>)
    ensures |steps| == |xs|
    ensures forall i :: 0 <= i < |xs| ==> steps[i] == Plus(xs[i])
  {
    seq(|xs|, i requires 0 <= i < |xs| => Plus(xs[i]))
  }

  /** `-=` with each element of `xs` in turn. */
  function MinusSteps(xs: seq<AmountResult>): (steps: seq<Step>)
    ensures |steps| == |xs|
    ensures forall i :: 0 <= i < |xs| ==> steps[i] == Minus(xs[i])
  {
    seq(|xs|, i requires 0 <= i < |xs| => Minus(xs[i]))
  }

  /** Every element of `xs` negated. */
  function Negated(xs: seq<AmountResult>): (ys: seq<AmountResult>)
    ensures |ys| == |xs|
    ensures forall i :: 0 <= i < |xs| ==> ys[i] == NegResult(xs[i])
  {
    seq(|xs|, i requires 0 <= i < |xs| => NegResult(xs[i]))
  }

  /** Repeated `+=` is the reduction of the operands from the initial value;
      started from `Unknown`, it is their sum (`SumSpec`). */
  lemma {:induction false} RepeatedAddAssignIsFold(acc: AmountResult, xs: seq<AmountResult>)
    ensures Chain(acc, PlusSteps(xs)) == FoldAdd(acc, xs)
    decreases |xs|
  {
    if xs != [] {
      assert PlusSteps(xs)[1..] == PlusSteps(xs[1..]);
      RepeatedAddAssignIsFold(AddResults(acc, xs[0]), xs[1..]);
    }
  }

  /** A `-=` step is a `+=` step with the negated operand. */
  lemma MinusStepAddsNegation(acc: AmountResult, x: AmountResult)
    ensures ApplyStep(acc, Minus(x)) == AddResults(acc, NegResult(x))
  {
    SubResultsIsAddNeg(acc, x);
  }

  /** Repeated `-=` is the reduction of the negated operands. */
  lemma {:induction false} RepeatedSubAssignIsFoldOfNegated(acc: AmountResult, xs: seq<AmountResult>)
    ensures Chain(acc, MinusSteps(xs)) == FoldAdd(acc, Negated(xs))
    decreases |xs|
  {
    if xs != [] {
      var next := AddResults(acc, NegResult(xs[0]));
      var steps := MinusSteps(xs);
      assert steps[0] == Minus(xs[0]);
      MinusStepAddsNegation(acc, xs[0]);
      assert steps[1..] == MinusSteps(xs[1..]);
      assert Chain(acc, steps) == Chain(next, MinusSteps(xs[1..]));
      assert Negated(xs)[1..] == Negated(xs[1..]);
      assert FoldAdd(acc, Negated(xs)) == FoldAdd(next, Negated(xs[1..]));
      RepeatedSubAssignIsFoldOfNegated(next, xs[1..]);
    }
  }
}
