/**
 * The lexer (scanner/scanner.go). The pure functions Step and Scan say what one call of
 * scanToken and a whole ScanTokens produce; the class Scanner is the byte-cursor state
 * machine of the source, proved to follow them.
 */
module Scanner {
  import opened Util
  import opened TokenTypes
  import opened Tokens

  // ---------------------------------------------------------------------------------------
  // Character-level helpers

  /** The character at i, or NUL past the end, as peek and peekNext return. */
  function CharAt(src: string, i: nat): char
  {
    if i < |src| then src[i] else '\0'
  }

  predicate NotNewline(c: char) { c != '\n' }

  predicate NotQuote(c: char) { c != '"' }

  predicate NotDot(c: char) { c != '.' }

  /** The end of the longest run of `inRun` characters starting at i. */
  function RunEnd(src: string, i: nat, inRun: char -> bool): (j: nat)
    requires i <= |src|
    ensures i <= j <= |src|
    ensures forall k | i <= k < j :: inRun(src[k])
    ensures j == |src| || !inRun(src[j])
    decreases |src| - i
  {
    if i == |src| || !inRun(src[i]) then i else RunEnd(src, i + 1, inRun)
  }

  /** RunEnd is the first position of the run where the run stops. */
  lemma {:induction false} RunEndFrom(src: string, i: nat, k: nat, inRun: char -> bool)
    requires i <= |src| && i <= k <= RunEnd(src, i, inRun)
    ensures RunEnd(src, k, inRun) == RunEnd(src, i, inRun)
    decreases k - i
  {
    if i < k {
      RunEndFrom(src, i + 1, k, inRun);
    }
  }

  /** Number of newline characters in s. */
  function Newlines(s: string): nat
  {
    if s == [] then 0 else (if s[0] == '\n' then 1 else 0) + Newlines(s[1..])
  }

  lemma {:induction false} NewlinesAppend(a: string, b: string)
    ensures Newlines(a + b) == Newlines(a) + Newlines(b)
  {
    if a != [] {
      assert (a + b)[0] == a[0] && (a + b)[1..] == a[1..] + b;
      NewlinesAppend(a[1..], b);
    } else {
      assert a + b == b;
    }
  }

  lemma NewlinesExtend(src: string, a: nat, b: nat)
    requires a <= b < |src|
    ensures Newlines(src[a..b + 1]) == Newlines(src[a..b]) + (if src[b] == '\n' then 1 else 0)
  {
    assert src[a..b + 1] == src[a..b] + [src[b]];
    NewlinesAppend(src[a..b], [src[b]]);
  }

  lemma {:induction false} NoNewlines(s: string)
    requires forall k | 0 <= k < |s| :: s[k] != '\n'
    ensures Newlines(s) == 0
  {
    if s != [] {
      NoNewlines(s[1..]);
    }
  }

  /** The value of a string of digits; any other character counts as 0. */
  function Whole(s: string): nat
  {
    if s == [] then 0
    else Whole(s[..|s| - 1]) * 10 + (if IsDigit(s[|s| - 1]) then s[|s| - 1] as int - '0' as int else 0)
  }

  function Pow10(n: nat): (p: nat)
    ensures p >= 1
  {
    if n == 0 then 1 else 10 * Pow10(n - 1)
  }

  /**
   * The exact value of a number lexeme `digits` or `digits.digits`. The source converts the
   * lexeme with strconv.ParseFloat; the model keeps numbers as exact reals.
   */
  function Decimal(lexeme: string): (r: real)
    ensures var w := Whole(lexeme[..RunEnd(lexeme, 0, NotDot)]) as real; w <= r < w + 1.0
  {
    var k := RunEnd(lexeme, 0, NotDot);
    if k == |lexeme| then
      assert lexeme[..k] == lexeme;
      Whole(lexeme) as real
    else
      var frac := lexeme[k + 1..];
      WholeBelowPow10(frac);
      FractionBelowOne(Whole(frac), Pow10(|frac|));
      Whole(lexeme[..k]) as real + Whole(frac) as real / Pow10(|lexeme| - k - 1) as real
  }

  /** The digits after the dot are worth less than one. */
  lemma {:induction false} WholeBelowPow10(s: string)
    ensures Whole(s) < Pow10(|s|)
    decreases |s|
  {
    if s != [] {
      WholeBelowPow10(s[..|s| - 1]);
    }
  }

  lemma FractionBelowOne(f: nat, p: nat)
    requires f < p
    ensures 0.0 <= f as real / p as real < 1.0
  {
  }

  // ---------------------------------------------------------------------------------------
  // One scanning step

  /** A token to append: its kind and literal (the lexeme and line are fixed by the step). */
  datatype Lexed = Lexed(kind: TokenType, literal: Object)

  /**
   * What one scanToken call does from `start`: the token it appends (if any), where the
   * cursor ends, the new line counter and whether it reported an error; or Abort when the
   * source panics.
   */
  datatype StepResult = Next(emit: Option<Lexed>, end: nat, line: int, error: bool) | Abort

  function Emit(kind: TokenType, end: nat, line: int): StepResult
  {
    Next(Some(Lexed(kind, Null)), end, line, false)
  }

  function Skip(end: nat, line: int): StepResult
  {
    Next(None, end, line, false)
  }

  /** Keyword lookup after the whole identifier is consumed; NO_TYPE becomes IDENTIFIER. */
  function IdentifierKind(text: string): (k: TokenType)
    ensures text in Keywords ==> k == Keywords[text]
    ensures text !in Keywords ==> k == Identifier
  {
    var t := KeywordLookup(text);
    if t == NoType then Identifier else t
  }

  /** The end of a number lexeme whose first digit is at `start`. */
  function NumberEnd(src: string, start: nat): (j: nat)
    requires start < |src|
    ensures start < j <= |src|
  {
    var i := RunEnd(src, start + 1, IsDigit);
    if CharAt(src, i) == '.' && IsDigit(CharAt(src, i + 1)) then RunEnd(src, i + 1, IsDigit) else i
  }

  /** A string literal whose opening quote is at `start`. */
  function StringStep(src: string, start: nat, line: int): (r: StepResult)
    requires start < |src|
    ensures r.Abort? <==> forall k | start < k < |src| :: src[k] != '"'
    ensures r.Next? ==>
              && start + 2 <= r.end <= |src| && src[r.end - 1] == '"' && !r.error
              && (forall k | start < k < r.end - 1 :: src[k] != '"')
              && r.line == line + Newlines(src[start + 1..r.end - 1])
  {
    var j := RunEnd(src, start + 1, NotQuote);
    if j == |src| then Abort
    else Next(Some(Lexed(String, Str(src[start + 1..j]))), j + 1, line + Newlines(src[start + 1..j]), false)
  }

  function Step(src: string, start: nat, line: int): (r: StepResult)
    requires start < |src|
    ensures r.Next? ==> start < r.end <= |src|
  {
    var i := start + 1;
    match src[start]
    case '(' => Emit(LeftParen, i, line)
    case ')' => Emit(RightParen, i, line)
    case '{' => Emit(LeftBrace, i, line)
    case '}' => Emit(RightBrace, i, line)
    case ',' => Emit(Comma, i, line)
    case '.' => Emit(Dot, i, line)
    case '-' => Emit(Minus, i, line)
    case '+' => Emit(Plus, i, line)
    case ';' => Emit(Semicolon, i, line)
    case '*' => Emit(Star, i, line)
    case '!' => if CharAt(src, i) == '=' then Emit(BangEqual, i + 1, line) else Emit(Bang, i, line)
    case '=' => if CharAt(src, i) == '=' then Emit(EqualEqual, i + 1, line) else Emit(Equal, i, line)
    case '<' => if CharAt(src, i) == '=' then Emit(LessEqual, i + 1, line) else Emit(Less, i, line)
    case '>' => if CharAt(src, i) == '=' then Emit(GreatEqual, i + 1, line) else Emit(Great, i, line)
    case '/' =>
      if CharAt(src, i) == '/' then Skip(RunEnd(src, i + 1, NotNewline), line) else Emit(Slash, i, line)
    case ' ' => Skip(i, line)
    case '\r' => Skip(i, line)
    case '\t' => Skip(i, line)
    case '\n' => Skip(i, line + 1)
    case '"' => StringStep(src, start, line)
    case c =>
      if IsDigit(c) then
        var j := NumberEnd(src, start);
        Next(Some(Lexed(Number, Num(Decimal(src[start..j])))), j, line, false)
      else if IsAlpha(c) then
        var j := RunEnd(src, i, IsAlphaNumeric);
        Emit(IdentifierKind(src[start..j]), j, line)
      else
        Next(None, i, line, true)
  }

  /** The tokens a step appends: its lexeme is the span it consumed, its line the new line. */
  function Emitted(src: string, start: nat, s: StepResult): seq<Token>
    requires s.Next? && start <= s.end <= |src|
  {
    match s.emit
    case None => []
    case Some(l) => [Token(l.kind, src[start..s.end], l.literal, s.line)]
  }

  // ---------------------------------------------------------------------------------------
  // The whole scan

  datatype ScanResult = Scanned(tokens: seq<Token>, hadError: bool) | Crashed

  const EofLexeme: string := ""

  /** ScanTokens from cursor `pos` with line counter `line`. */
  function Scan(src: string, pos: nat, line: int): (r: ScanResult)
    requires pos <= |src|
    ensures r.Scanned? ==> 1 <= |r.tokens| <= |src| - pos + 1
    decreases |src| - pos
  {
    if pos == |src| then Scanned([Token(Eof, EofLexeme, Null, line)], false)
    else
      var s := Step(src, pos, line);
      if s.Abort? then Crashed
      else match Scan(src, s.end, s.line)
        case Crashed => Crashed
        case Scanned(ts, e) => Scanned(Emitted(src, pos, s) + ts, s.error || e)
  }

  /** Tokens already appended before the rest of the scan. */
  function Prepend(done: seq<Token>, err: bool, r: ScanResult): ScanResult
  {
    match r
    case Crashed => Crashed
    case Scanned(ts, e) => Scanned(done + ts, err || e)
  }

  /** One unfolding of Scan, named so that callers need not see Step's body. */
  lemma ScanUnfold(src: string, pos: nat, line: int)
    requires pos < |src|
    ensures var s := Step(src, pos, line);
            Scan(src, pos, line) == if s.Abort? then Crashed
                                    else Prepend(Emitted(src, pos, s), s.error, Scan(src, s.end, s.line))
  {
  }

  lemma PrependStep(done: seq<Token>, err: bool, more: seq<Token>, err2: bool, rest: ScanResult)
    ensures Prepend(done, err, Prepend(more, err2, rest)) == Prepend(done + more, err || err2, rest)
  {
    if rest.Scanned? {
      assert done + (more + rest.tokens) == (done + more) + rest.tokens;
    }
  }

  // ---------------------------------------------------------------------------------------
  // Properties of a step and of the whole scan

  /** The line counter after a step grew by the newlines of the consumed span. */
  lemma StepLine(src: string, start: nat, line: int)
    requires start < |src|
    ensures var s := Step(src, start, line);
            s.Next? ==> s.line == line + Newlines(src[start..s.end])
  {
    var s := Step(src, start, line);
    if s.Next? {
      var c := src[start];
      if c == '"' {
        var j := s.end - 1;
        assert src[start..s.end] == [c] + src[start + 1..j] + [src[j]];
        NewlinesAppend([c] + src[start + 1..j], [src[j]]);
        NewlinesAppend([c], src[start + 1..j]);
      } else if c == '\n' {
        assert src[start..s.end] == [c];
      } else {
        StepSpanNoNewline(src, start, line);
        NoNewlines(src[start..s.end]);
      }
    }
  }

  lemma StepSpanNoNewline(src: string, start: nat, line: int)
    requires start < |src| && src[start] != '"' && src[start] != '\n'
    ensures var s := Step(src, start, line);
            s.Next? && s.line == line && forall k | start <= k < s.end :: src[k] != '\n'
  {
    var c := src[start];
    if IsDigit(c) {
      NumberSpan(src, start, line);
    } else if c == '/' {
      SlashSpan(src, start, line);
    } else if IsAlpha(c) {
      WordSpan(src, start, line);
    } else {
      OtherSpan(src, start, line);
    }
  }

  lemma NumberSpan(src: string, start: nat, line: int)
    requires start < |src| && IsDigit(src[start])
    ensures var s := Step(src, start, line);
            s.Next? && s.line == line && forall k | start <= k < s.end :: src[k] != '\n'
  {
    var i := RunEnd(src, start + 1, IsDigit);
    if CharAt(src, i) == '.' && IsDigit(CharAt(src, i + 1)) {
      var j := RunEnd(src, i + 1, IsDigit);
      assert forall k | start <= k < j :: src[k] != '\n' by {
        forall k | start <= k < j ensures src[k] != '\n' {
          if i < k { assert IsDigit(src[k]); }
        }
      }
    }
  }

  lemma SlashSpan(src: string, start: nat, line: int)
    requires start < |src| && src[start] == '/'
    ensures var s := Step(src, start, line);
            s.Next? && s.line == line && forall k | start <= k < s.end :: src[k] != '\n'
  {
  }

  lemma WordSpan(src: string, start: nat, line: int)
    requires start < |src| && IsAlpha(src[start]) && !IsDigit(src[start])
    ensures var s := Step(src, start, line);
            s.Next? && s.line == line && forall k | start <= k < s.end :: src[k] != '\n'
  {
  }

  lemma OtherSpan(src: string, start: nat, line: int)
    requires start < |src| && src[start] != '"' && src[start] != '\n' && src[start] != '/'
    requires !IsDigit(src[start]) && !IsAlpha(src[start])
    ensures var s := Step(src, start, line);
            s.Next? && s.line == line && (s.end == start + 1 || (s.end == start + 2 && src[start + 1] == '='))
  {
  }

  /** No step emits an EOF token: the only EOF is the one ScanTokens appends. */
  lemma StepNotEof(src: string, start: nat, line: int)
    requires start < |src|
    ensures var s := Step(src, start, line);
            s.Next? && s.emit.Some? ==> s.emit.value.kind != Eof
  {
    var c := src[start];
    if IsAlpha(c) && !IsDigit(c) {
      var j := RunEnd(src, start + 1, IsAlphaNumeric);
      var text := src[start..j];
      if text in Keywords {
        KeywordsInBlock();
        assert IsKeywordKind(Keywords[text]);
      }
    }
  }

  /**
   * A completed scan ends with exactly one EOF token, with empty lexeme, nil literal and the
   * line count after the whole source.
   */
  lemma {:induction false} ScanEndsWithEof(src: string, pos: nat, line: int)
    requires pos <= |src|
    ensures Scan(src, pos, line).Scanned? ==>
              EofLast(Scan(src, pos, line).tokens, Token(Eof, "", Null, line + Newlines(src[pos..])))
    decreases |src| - pos
  {
    if pos < |src| {
      var s := Step(src, pos, line);
      ScanUnfold(src, pos, line);
      if s.Next? {
        var rest := Scan(src, s.end, s.line);
        ScanEndsWithEof(src, s.end, s.line);
        if rest.Scanned? {
          var last := Token(Eof, "", Null, line + Newlines(src[pos..]));
          assert last == Token(Eof, "", Null, s.line + Newlines(src[s.end..])) by {
            StepLine(src, pos, line);
            NewlinesSplit(src, pos, s.end);
          }
          StepNotEof(src, pos, line);
          EofStaysLast(Emitted(src, pos, s), rest.tokens, last);
        }
      }
    }
  }

  lemma NewlinesSplit(src: string, i: nat, j: nat)
    requires i <= j <= |src|
    ensures Newlines(src[i..]) == Newlines(src[i..j]) + Newlines(src[j..])
  {
    assert src[i..] == src[i..j] + src[j..];
    NewlinesAppend(src[i..j], src[j..]);
  }

  /** Prepending at most one non-EOF token keeps the EOF last and alone. */
  /** ts ends with `last`, and no token before it is an EOF. */
  predicate EofLast(ts: seq<Token>, last: Token)
  {
    |ts| >= 1 && ts[|ts| - 1] == last && forall k | 0 <= k < |ts| - 1 :: ts[k].ttype != Eof
  }

  lemma EofStaysLast(e: seq<Token>, rest: seq<Token>, last: Token)
    requires |e| <= 1 && (|e| == 1 ==> e[0].ttype != Eof)
    requires EofLast(rest, last)
    ensures EofLast(e + rest, last)
  {
    var ts := e + rest;
    forall k | 0 <= k < |ts| - 1 ensures ts[k].ttype != Eof {
      if k >= |e| {
        assert ts[k] == rest[k - |e|];
      }
    }
  }

  /** The one-character kind of `!`, `=`, `<`, `>` and the kind of the same character followed by `=`. */
  function OneCharKind(c: char): TokenType
  {
    match c
    case '!' => Bang
    case '=' => Equal
    case '<' => Less
    case _ => Great
  }

  function TwoCharKind(c: char): TokenType
  {
    match c
    case '!' => BangEqual
    case '=' => EqualEqual
    case '<' => LessEqual
    case _ => GreatEqual
  }

  /** Maximal munch: `!`, `=`, `<`, `>` take a following `=` into a two-character token. */
  lemma TwoCharOperators(src: string, start: nat, line: int)
    requires start < |src| && src[start] in "!=<>"
    ensures var s := Step(src, start, line);
            var two := start + 1 < |src| && src[start + 1] == '=';
            && s.Next? && !s.error && s.line == line
            && s.end == start + (if two then 2 else 1)
            && Emitted(src, start, s)
               == [Token(if two then TwoCharKind(src[start]) else OneCharKind(src[start]),
                         if two then [src[start], '='] else [src[start]], Null, line)]
  {
    var s := Step(src, start, line);
    var c := src[start];
    if start + 1 < |src| && src[start + 1] == '=' {
      assert s == Emit(TwoCharKind(c), start + 2, line);
      assert src[start..s.end] == [c, '='];
    } else {
      assert s == Emit(OneCharKind(c), start + 1, line);
      assert src[start..s.end] == [c];
    }
  }

  /** `//` emits nothing and stops at (not past) the next newline, or at the end of the source. */
  lemma CommentSkipped(src: string, start: nat, line: int)
    requires start + 1 < |src| && src[start] == '/' && src[start + 1] == '/'
    ensures var s := Step(src, start, line);
            && s.Next? && s.emit.None? && !s.error && s.line == line
            && (s.end == |src| || src[s.end] == '\n')
            && forall k | start + 2 <= k < s.end :: src[k] != '\n'
  {
  }

  lemma LoneSlash(src: string, start: nat, line: int)
    requires start < |src| && src[start] == '/' && !(start + 1 < |src| && src[start + 1] == '/')
    ensures var s := Step(src, start, line);
            s.Next? && Emitted(src, start, s) == [Token(Slash, "/", Null, line)] && s == Emit(Slash, start + 1, line)
  {
    assert src[start..start + 1] == "/";
  }

  /** Space, CR and tab are dropped; a newline is dropped and counted. */
  lemma WhitespaceSkipped(src: string, start: nat, line: int)
    requires start < |src| && src[start] in " \r\t\n"
    ensures Step(src, start, line) == Skip(start + 1, if src[start] == '\n' then line + 1 else line)
  {
  }

  /** The characters scanToken has a case for, besides digits and letters. */
  predicate Handled(c: char)
  {
    c in "(){},.-+;*!=<>/ \r\t\n\""
  }

  /** A digit starts a number lexeme, up to NumberEnd. */
  lemma StepDigit(src: string, start: nat, line: int)
    requires start < |src| && IsDigit(src[start])
    ensures var j := NumberEnd(src, start);
            Step(src, start, line) == Next(Some(Lexed(Number, Num(Decimal(src[start..j])))), j, line, false)
  {
  }

  /** A letter or underscore starts an identifier or keyword, up to the end of the word. */
  lemma StepWord(src: string, start: nat, line: int)
    requires start < |src| && IsAlpha(src[start]) && !IsDigit(src[start])
    ensures var j := RunEnd(src, start + 1, IsAlphaNumeric);
            Step(src, start, line) == Emit(IdentifierKind(src[start..j]), j, line)
  {
  }

  /** Any other character emits no token, is consumed, and reports an error. */
  lemma UnexpectedCharacter(src: string, start: nat, line: int)
    requires start < |src| && !Handled(src[start]) && !IsDigit(src[start]) && !IsAlpha(src[start])
    ensures Step(src, start, line) == Next(None, start + 1, line, true)
  {
  }

  /**
   * An identifier is the longest alphanumeric run from a letter; only then is it looked up
   * among the keywords.
   */
  lemma IdentifierMaximal(src: string, start: nat, line: int)
    requires start < |src| && IsAlpha(src[start])
    ensures var s := Step(src, start, line);
            && s.Next? && !s.error && s.line == line
            && (forall k | start <= k < s.end :: IsAlphaNumeric(src[k]))
            && (s.end == |src| || !IsAlphaNumeric(src[s.end]))
            && var text := src[start..s.end];
               Emitted(src, start, s)
               == [Token(if text in Keywords then Keywords[text] else Identifier, text, Null, line)]
  {
    AlphaDigitDisjoint(src[start]);
  }

  /** A keyword prefix does not split an identifier: `forever` is one IDENTIFIER token. */
  lemma ForeverIsIdentifier()
    ensures Scan("forever", 0, 1) == Scanned([Token(Identifier, "forever", Null, 1), Token(Eof, "", Null, 1)], false)
  {
    var src := "forever";
    assert RunEnd(src, 1, IsAlphaNumeric) == 7 by {
      RunEndAllIn(src, 1, IsAlphaNumeric);
    }
    assert src[0..7] == "forever";
    KeywordsDomain("forever");
    IdentifierMaximal(src, 0, 1);
    assert Step(src, 0, 1) == Emit(Identifier, 7, 1);
    assert Scan(src, 7, 1) == Scanned([Token(Eof, "", Null, 1)], false);
    ScanUnfold(src, 0, 1);
  }

  lemma {:induction false} RunEndAllIn(src: string, i: nat, inRun: char -> bool)
    requires i <= |src| && forall k | i <= k < |src| :: inRun(src[k])
    ensures RunEnd(src, i, inRun) == |src|
    decreases |src| - i
  {
    if i < |src| {
      RunEndAllIn(src, i + 1, inRun);
    }
  }

  /**
   * A string literal runs to the first closing quote and its value is the text between the
   * quotes; without a closing quote the scanner panics.
   */
  lemma StringLiteral(src: string, start: nat, line: int)
    requires start < |src| && src[start] == '"'
    ensures var s := Step(src, start, line);
            && (s.Abort? <==> forall k | start < k < |src| :: src[k] != '"')
            && (s.Next? ==>
                  && start + 2 <= s.end && src[s.end - 1] == '"' && !s.error
                  && (forall k | start < k < s.end - 1 :: src[k] != '"')
                  && Emitted(src, start, s)
                     == [Token(String, "\"" + src[start + 1..s.end - 1] + "\"", Str(src[start + 1..s.end - 1]), s.line)])
  {
    var s := Step(src, start, line);
    if s.Next? {
      assert src[start..s.end] == "\"" + src[start + 1..s.end - 1] + "\"";
    }
  }

  /** A number takes a fraction only when the dot after its digits is followed by a digit. */
  lemma NumberFraction(src: string, start: nat, line: int)
    requires start < |src| && IsDigit(src[start])
    ensures var s := Step(src, start, line);
            var i := RunEnd(src, start + 1, IsDigit);
            var frac := i + 1 < |src| && src[i] == '.' && IsDigit(src[i + 1]);
            && s.Next? && !s.error && s.line == line && s.emit.Some? && s.emit.value.kind == Number
            && (frac ==> s.end == RunEnd(src, i + 1, IsDigit) && s.end > i + 1)
            && (!frac ==> s.end == i)
  {
    AlphaDigitDisjoint(src[start]);
  }

  /** `1.` is the number 1 followed by a DOT token. */
  lemma OneDotIsNumberThenDot()
    ensures Scan("1.", 0, 1)
            == Scanned([Token(Number, "1", Num(1.0), 1), Token(Dot, ".", Null, 1), Token(Eof, "", Null, 1)], false)
  {
    var src := "1.";
    assert RunEnd(src, 1, IsDigit) == 1;
    assert src[0..1] == "1" && src[1..2] == ".";
    assert Decimal("1") == 1.0 by {
      assert RunEnd("1", 0, NotDot) == 1;
      assert "1"[..0] == [];
    }
  }

  // ---------------------------------------------------------------------------------------
  // The scanner object

  class Scanner {
    const src: string
    const flags: ErrorFlags
    var tokens: seq<Token>
    var start: nat
    var current: nat
    var line: int

    ghost predicate Valid()
      reads this
    {
      start <= current <= |src|
    }

    /** NewScanner: an empty token list, both cursors at 0 and line 1. */
    constructor (src: string, flags: ErrorFlags)
      ensures Valid() && this.src == src && this.flags == flags
      ensures tokens == [] && start == 0 && current == 0 && line == 1
    {
      this.src := src;
      this.flags := flags;
      tokens := [];
      start := 0;
      current := 0;
      line := 1;
    }

    function IsAtEnd(): (b: bool)
      reads this
      ensures b <==> current >= |src|
    {
      current >= |src|
    }

    /** peek: the character at the cursor, or 0 once the cursor is at the end. */
    function Peek(): (c: char)
      reads this
      ensures current < |src| ==> c == src[current]
      ensures current >= |src| ==> c == '\0'
    {
      CharAt(src, current)
    }

    /** peekNext: the character after the cursor, or 0 when there is none. */
    function PeekNext(): (c: char)
      reads this
      ensures current + 1 < |src| ==> c == src[current + 1]
      ensures current + 1 >= |src| ==> c == '\0'
    {
      CharAt(src, current + 1)
    }

    method Advance() returns (c: char)
      requires current < |src|
      modifies this`current
      ensures current == old(current) + 1 && c == src[old(current)]
    {
      c := src[current];
      current := current + 1;
    }

    /** Consume the next character only if it is `expected`. */
    method Match(expected: char) returns (b: bool)
      requires current <= |src|
      modifies this`current
      ensures b == (old(current) < |src| && src[old(current)] == expected)
      ensures current == old(current) + (if b then 1 else 0)
    {
      if IsAtEnd() || src[current] != expected {
        return false;
      }
      current := current + 1;
      return true;
    }

    method AddToken(kind: TokenType, literal: Object)
      requires Valid()
      modifies this`tokens
      ensures tokens == old(tokens) + [Token(kind, src[start..current], literal, line)]
    {
      var text := src[start..current];
      tokens := tokens + [Token(kind, text, literal, line)];
    }

    /**
     * The loop `for inRun(peek()) && !isAtEnd() { advance() }` of the comment case of
     * scanToken, which identifier and number also run without the end test (peek gives NUL
     * at the end, which is neither a digit nor a letter).
     */
    method AdvanceWhile(inRun: char -> bool)
      requires Valid()
      modifies this`current
      ensures Valid() && current == RunEnd(src, old(current), inRun)
    {
      while inRun(Peek()) && !IsAtEnd()
        invariant Valid() && old(current) <= current
        invariant RunEnd(src, current, inRun) == RunEnd(src, old(current), inRun)
        decreases |src| - current
      {
        var skipped := Advance();
      }
    }

    method ScanIdentifier()
      requires Valid() && start + 1 == current && IsAlpha(src[start])
      modifies this`current, this`tokens
      ensures Valid() && current == RunEnd(src, old(current), IsAlphaNumeric)
      ensures tokens == old(tokens) + [Token(IdentifierKind(src[start..current]), src[start..current], Null, line)]
    {
      AdvanceWhile(IsAlphaNumeric);
      var text := src[start..current];
      var kind := KeywordLookup(text);
      if kind == NoType {
        kind := Identifier;
      }
      AddToken(kind, Null);
    }

    /** The loop of string(): up to the closing quote or the end, counting newlines. */
    method StringBody()
      requires Valid()
      modifies this`current, this`line
      ensures Valid() && current == RunEnd(src, old(current), NotQuote)
      ensures line == old(line) + Newlines(src[old(current)..current])
    {
      while Peek() != '"' && !IsAtEnd()
        invariant Valid() && old(current) <= current
        invariant RunEnd(src, current, NotQuote) == RunEnd(src, old(current), NotQuote)
        invariant line == old(line) + Newlines(src[old(current)..current])
        decreases |src| - current
      {
        if Peek() == '\n' {
          line := line + 1;
        }
        NewlinesExtend(src, old(current), current);
        var skipped := Advance();
      }
    }

    /** Returns false where the source panics: advance() past the end of an unterminated string. */
    method ScanString() returns (ok: bool)
      requires Valid() && start + 1 == current && src[start] == '"'
      modifies this`current, this`tokens, this`line, flags`hadError
      ensures Valid()
      ensures StringStep(src, start, old(line)).Abort? ==> !ok && flags.hadError
      ensures StringStep(src, start, old(line)).Next? ==>
                && ok && current == StringStep(src, start, old(line)).end
                && line == StringStep(src, start, old(line)).line
                && tokens == old(tokens) + Emitted(src, start, StringStep(src, start, old(line)))
                && flags.hadError == old(flags.hadError)
    {
      StringBody();
      if IsAtEnd() {
        flags.Error(line, "Unterminated string.");
        return false;
      }
      var quote := Advance();
      var value := src[start + 1..current - 1];
      AddToken(String, Str(value));
      return true;
    }

    method ScanNumber()
      requires Valid() && start + 1 == current && IsDigit(src[start])
      modifies this`current, this`tokens
      ensures Valid() && current == NumberEnd(src, start)
      ensures tokens == old(tokens) + [Token(Number, src[start..current], Num(Decimal(src[start..current])), line)]
    {
      AdvanceWhile(IsDigit);
      if Peek() == '.' && IsDigit(PeekNext()) {
        var dot := Advance();
        AdvanceWhile(IsDigit);
      }
      var value := Decimal(src[start..current]);
      AddToken(Number, Num(value));
    }

    /**
     * The state after a step `s` from `from` that began with `toks` and error flag `err`:
     * ok exactly when the step did not panic, and then the cursor, line, token list and
     * error flag are those the step describes.
     */
    ghost predicate Stepped(s: StepResult, ok: bool, from: nat, toks: seq<Token>, err: bool)
      reads this, flags
    {
      && (ok <==> s.Next?)
      && (s.Next? ==>
            && from <= s.end <= |src| && current == s.end && line == s.line
            && tokens == toks + Emitted(src, from, s)
            && flags.hadError == (err || s.error))
    }

    /** The one-character tokens. */
    method ScanSingle(c: char)
      requires Valid() && start + 1 == current && src[start] == c && c in "(){},.-+;*"
      modifies this`tokens
      ensures Valid() && Stepped(Step(src, start, line), true, start, old(tokens), flags.hadError)
    {
      match c {
        case '(' => AddToken(LeftParen, Null);
        case ')' => AddToken(RightParen, Null);
        case '{' => AddToken(LeftBrace, Null);
        case '}' => AddToken(RightBrace, Null);
        case ',' => AddToken(Comma, Null);
        case '.' => AddToken(Dot, Null);
        case '-' => AddToken(Minus, Null);
        case '+' => AddToken(Plus, Null);
        case ';' => AddToken(Semicolon, Null);
        case '*' => AddToken(Star, Null);
      }
    }

    /** The cases `!`, `=`, `<`, `>`: a following `=` is taken into the token. */
    method ScanOperator(c: char)
      requires Valid() && start + 1 == current && src[start] == c && c in "!=<>"
      modifies this`current, this`tokens
      ensures Valid() && Stepped(Step(src, start, line), true, start, old(tokens), flags.hadError)
    {
      ghost var s := Step(src, start, line);
      TwoCharOperators(src, start, line);
      var m := Match('=');
      assert src[start..current] == if m then [c, '='] else [c];
      match c {
        case '!' => if m { AddToken(BangEqual, Null); } else { AddToken(Bang, Null); }
        case '=' => if m { AddToken(EqualEqual, Null); } else { AddToken(Equal, Null); }
        case '<' => if m { AddToken(LessEqual, Null); } else { AddToken(Less, Null); }
        case '>' => if m { AddToken(GreatEqual, Null); } else { AddToken(Great, Null); }
      }
    }

    /** The case `/`: a comment up to the newline, or SLASH. */
    method ScanSlash()
      requires Valid() && start + 1 == current && src[start] == '/'
      modifies this`current, this`tokens
      ensures Valid() && Stepped(Step(src, start, line), true, start, old(tokens), flags.hadError)
    {
      var m := Match('/');
      if m {
        AdvanceWhile(NotNewline);
      } else {
        AddToken(Slash, Null);
      }
    }

    /** The default case: a number, an identifier, or an unexpected character. */
    method ScanOther(c: char)
      requires Valid() && start + 1 == current && src[start] == c && !Handled(c)
      modifies this`current, this`tokens, flags`hadError
      ensures Valid() && Stepped(Step(src, start, old(line)), true, start, old(tokens), old(flags.hadError))
      ensures line == old(line)
    {
      if IsDigit(c) || IsAlpha(c) {
        ScanWord(c);
      } else {
        UnexpectedCharacter(src, start, line);
        flags.Error(line, "Unexpected character.");
      }
    }

    /** The number and identifier branches of the default case. */
    method ScanWord(c: char)
      requires Valid() && start + 1 == current && src[start] == c && !Handled(c)
      requires IsDigit(c) || IsAlpha(c)
      modifies this`current, this`tokens
      ensures Valid() && Stepped(Step(src, start, line), true, start, old(tokens), flags.hadError)
    {
      ghost var s := Step(src, start, line);
      if IsDigit(c) {
        StepDigit(src, start, line);
        ScanNumber();
        assert tokens == old(tokens) + Emitted(src, start, s);
      } else {
        AlphaDigitDisjoint(c);
        StepWord(src, start, line);
        ScanIdentifier();
        assert tokens == old(tokens) + Emitted(src, start, s);
      }
    }

    /** One scanToken call from `start == current`; false where the source panics. */
    method ScanToken() returns (ok: bool)
      requires Valid() && start == current < |src|
      modifies this`current, this`tokens, this`line, flags`hadError
      ensures Valid()
      ensures Stepped(Step(src, old(current), old(line)), ok, old(current), old(tokens), old(flags.hadError))
    {
      ok := true;
      var c := Advance();
      if c in "(){},.-+;*" {
        ScanSingle(c);
      } else if c in "!=<>" {
        ScanOperator(c);
      } else if c == '/' {
        ScanSlash();
      } else if c == '\n' {
        line := line + 1;
      } else if c == '"' {
        ok := ScanString();
      } else if !(c in " \r\t") {
        ScanOther(c);
      }
    }

    /** Scan the rest of the source and append the EOF token. */
    method ScanTokens() returns (r: ScanResult)
      requires Valid() && start == current
      modifies this`start, this`current, this`tokens, this`line, flags`hadError
      ensures r == Prepend(old(tokens), old(flags.hadError), Scan(src, old(current), old(line)))
      ensures r.Scanned? ==> tokens == r.tokens && flags.hadError == r.hadError
    {
      while !IsAtEnd()
        invariant Valid() && start == current
        invariant Prepend(old(tokens), old(flags.hadError), Scan(src, old(current), old(line)))
                  == Prepend(tokens, flags.hadError, Scan(src, current, line))
        decreases |src| - current
      {
        start := current;
        ghost var before, hadErr := tokens, flags.hadError;
        ghost var s := Step(src, current, line);
        ScanUnfold(src, current, line);
        var ok := ScanToken();
        if !ok {
          return Crashed;
        }
        assert current == s.end && line == s.line;
        PrependStep(before, hadErr, Emitted(src, start, s), s.error,
                    Scan(src, current, line));
        start := current;
      }
      tokens := tokens + [Token(Eof, EofLexeme, Null, line)];
      return Scanned(tokens, flags.hadError);
    }
  }
}
