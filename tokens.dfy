/** The token record (token/token.go) and the literal payload a token or AST literal carries. */
module Tokens {
  import opened TokenTypes

  datatype Option<T> = None | Some(value: T)

  /**
   * The Go `Object` as it appears in tokens and AST literals: nil, a boolean, a float64
   * (modelled as a real) or a string.
   */
  datatype Object = Null | Boolean(b: bool) | Num(n: real) | Str(s: string)

  datatype Token = Token(ttype: TokenType, lexeme: string, literal: Object, line: int)

  /** The Go zero value `Token{}`. */
  const ZeroToken := Token(NoType, "", Null, 0)

  /**
   * The text `%v` gives for an object, except that nil is written "nil" as both the
   * interpreter's stringify and the AST printer do. `numText` is Go's `%v` formatting of a
   * float64, which is not modelled.
   */
  function ObjectText(o: Object, numText: real -> string): string
  {
    match o
    case Null => "nil"
    case Boolean(b) => if b then "true" else "false"
    case Num(n) => numText(n)
    case Str(s) => s
  }
}
