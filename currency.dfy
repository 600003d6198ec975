/** A stand-in for the ISO 4217 currency catalog. The algebra only compares
    currencies for identity and asks for their code and symbol. */
module Currencies {

  datatype Currency = EUR | USD | GBP | JPY

  /** The three-letter ISO code. */
  function Code(c: Currency): (s: string)
    ensures |s| == 3
  {
    match c
    case EUR => "EUR"
    case USD => "USD"
    case GBP => "GBP"
    case JPY => "JPY"
  }

  /** The display symbol. */
  function Symbol(c: Currency): string {
    match c
    case EUR => "€"
    case USD => "$"
    case GBP => "£"
    case JPY => "¥"
  }

  /** Distinct currencies have distinct codes. */
  lemma CodeInjective(c1: Currency, c2: Currency)
    ensures Code(c1) == Code(c2) <==> c1 == c2
  {
  }
}
