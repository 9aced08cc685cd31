/** Java `String` references as the sms-sender code sees them: a reference may be null,
    and the `+` operator renders a null operand as the four characters "null". */
module JavaStrings {

  datatype Option<+T> = None | Some(value: T)

  /** A Java `String` reference; `None` stands for null. */
  type JString = Option<string>

  /** The text that string concatenation appends for a `String` operand. */
  function Render(s: JString): string {
    match s
    case None => "null"
    case Some(v) => v
  }

  /** Java's `prefix + s` for a non-null literal prefix and a possibly-null `s`. */
  function Concat(prefix: string, s: JString): string {
    prefix + Render(s)
  }

  /** Concatenation behind a fixed prefix identifies the rendered operand: two operands give
      the same string exactly when they render the same. */
  lemma ConcatInjective(prefix: string, a: JString, b: JString)
    ensures Concat(prefix, a) == Concat(prefix, b) <==> Render(a) == Render(b)
  {
    if Concat(prefix, a) == Concat(prefix, b) {
      assert Render(a) == Concat(prefix, a)[|prefix|..];
      assert Render(b) == Concat(prefix, b)[|prefix|..];
    }
  }

  /** A null reference and the literal "null" render alike, so they concatenate alike. */
  lemma NullRendersAsLiteral(prefix: string)
    ensures Concat(prefix, None) == Concat(prefix, Some("null"))
  {
  }
}
