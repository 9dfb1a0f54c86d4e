/** Character classes and the global error flags (util/util.go). */
module Util {

  /** ASCII letter or underscore. */
  predicate IsAlpha(c: char)
  {
    ('a' <= c <= 'z') || ('A' <= c <= 'Z') || c == '_'
  }

  /** ASCII decimal digit. */
  predicate IsDigit(c: char)
  {
    '0' <= c <= '9'
  }

  predicate IsAlphaNumeric(c: char)
  {
    IsAlpha(c) || IsDigit(c)
  }

  /** The digits are exactly the ten characters '0'..'9'. */
  lemma DigitsAreExactly(c: char)
    ensures IsDigit(c) <==> c in "0123456789"
  {
    if IsDigit(c) {
      var k := c as int - '0' as int;
      assert 0 <= k < 10 && "0123456789"[k] == c;
    }
  }

  /** A letter is never a digit, so the scanner's dispatch on digit-then-letter is unambiguous. */
  lemma AlphaDigitDisjoint(c: char)
    ensures !(IsAlpha(c) && IsDigit(c))
    ensures IsAlphaNumeric(c) <==> IsAlpha(c) || IsDigit(c)
  {
  }

  /** The package-level flags HadError and HadRuntimeError. */
  class ErrorFlags {
    var hadError: bool
    var hadRuntimeError: bool

    constructor ()
      ensures !hadError && !hadRuntimeError
    {
      hadError := false;
      hadRuntimeError := false;
    }

    /** Report a diagnostic; the text itself goes to standard error and is not modelled. */
    method Report(line: int, where: string, msg: string)
      modifies this`hadError
      ensures hadError
    {
      hadError := true;
    }

    method Error(line: int, msg: string)
      modifies this`hadError
      ensures hadError
    {
      Report(line, "", msg);
    }

    /** ErrorRuntime: report a runtime error; only the flag is modelled, not the text. */
    method ErrorRuntime(line: int, msg: string)
      modifies this`hadRuntimeError
      ensures hadRuntimeError
    {
      hadRuntimeError := true;
    }
  }
}
