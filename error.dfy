/** The closed taxonomy of failures of monetary arithmetic, with its text form. */
module Errors {
  import opened Currencies

  /** `Mismatch` keeps the left operand's currency first. `Unknown` means
      "no amount known yet" and is the identity of addition. Equality is the
      structural equality of the datatype. */
  datatype CurrencyError = Mismatch(left: Currency, right: Currency) | DivideByZero | Unknown

  /** The `Display` text of an error. */
  function Render(e: CurrencyError): string {
    match e
    case Mismatch(c1, c2) => "mismatch currency '" + Code(c1) + "' and '" + Code(c2) + "'"
    case DivideByZero => "divide by zero"
    case Unknown => "unknown currency"
  }

  /** The rendered text of a mismatch holds the left code, then the right one. */
  lemma RenderMismatchCodes(c1: Currency, c2: Currency)
    ensures |Render(Mismatch(c1, c2))| == 33
    ensures Render(Mismatch(c1, c2))[0] == 'm'
    ensures Render(Mismatch(c1, c2))[19..22] == Code(c1)
    ensures Render(Mismatch(c1, c2))[29..32] == Code(c2)
  {
    var s := Render(Mismatch(c1, c2));
    var prefix, middle := "mismatch currency '", "' and '";
    assert |prefix| == 19 && |middle| == 7;
    assert s == prefix + Code(c1) + middle + Code(c2) + "'";
  }

  /** Two errors render to the same text exactly when they are equal; in
      particular the order of the currencies of a mismatch shows in its text. */
  lemma RenderInjective(e1: CurrencyError, e2: CurrencyError)
    ensures Render(e1) == Render(e2) <==> e1 == e2
  {
    if e1.Mismatch? {
      RenderMismatchCodes(e1.left, e1.right);
    }
    if e2.Mismatch? {
      RenderMismatchCodes(e2.left, e2.right);
    }
    if e1.Mismatch? && e2.Mismatch? && Render(e1) == Render(e2) {
      CodeInjective(e1.left, e2.left);
      CodeInjective(e1.right, e2.right);
    }
    if e1.Mismatch? != e2.Mismatch? || e1.DivideByZero? != e2.DivideByZero? {
      assert Render(e1)[0] != Render(e2)[0];
    }
  }

  /** The three texts of the error type, as its own examples give them. */
  lemma RenderExamples()
    ensures Render(Unknown) == "unknown currency"
    ensures Render(DivideByZero) == "divide by zero"
    ensures Render(Mismatch(USD, EUR)) == "mismatch currency 'USD' and 'EUR'"
    ensures Render(Mismatch(EUR, USD)) == "mismatch currency 'EUR' and 'USD'"
    ensures Render(Mismatch(EUR, USD)) != Render(Mismatch(USD, EUR))
  {
  }

  /** Errors are equal only when their variants and payloads are. */
  lemma ErrorEquality(e1: CurrencyError, e2: CurrencyError)
    ensures e1 == e2 <==>
      (e1.Mismatch? && e2.Mismatch? && e1.left == e2.left && e1.right == e2.right) ||
      (e1.DivideByZero? && e2.DivideByZero?) ||
      (e1.Unknown? && e2.Unknown?)
  {
  }
}
