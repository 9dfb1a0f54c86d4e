/**
 * The recursive-descent expression parser (parser/parser.go). The pure functions ending in
 * `At` say what each grammar rule returns when started at a token position; the class Parser
 * is the cursor-mutating parser of the source, proved to follow them.
 *
 * The four binary rules equality, comparison, term and factor differ only in their operator
 * kinds and in the rule they call for operands, so they are one rule over a `Level`.
 */
module Parser {
  import opened TokenTypes
  import opened Tokens
  import opened Ast

  datatype ParseError = ParseError(token: Token, msg: string)

  /** A rule's `(Expr, error)` result: the value and where the cursor stopped, or the error. */
  datatype Parsed<T> = Parsed(value: T, next: nat) | Failed(error: ParseError)

  const ExpectExpression: string := "Expect expression."
  const ExpectRightParen: string := "Expect ')' after expression."

  /** What the parser needs of its input: a token list that ends with EOF, as the scanner makes. */
  predicate EndsWithEof(tokens: seq<Token>)
  {
    |tokens| > 0 && tokens[|tokens| - 1].ttype == Eof
  }

  // ---------------------------------------------------------------------------------------
  // Cursor helpers on positions

  predicate AtEnd(tokens: seq<Token>, pos: nat)
    requires pos < |tokens|
  {
    tokens[pos].ttype == Eof
  }

  /** check: the token at pos has kind t, and pos is not the EOF. */
  predicate CheckAt(tokens: seq<Token>, pos: nat, t: TokenType)
    requires pos < |tokens|
  {
    !AtEnd(tokens, pos) && tokens[pos].ttype == t
  }

  /** match succeeds: the token at pos is not the EOF and its kind is among `types`. */
  predicate MatchAt(tokens: seq<Token>, pos: nat, types: seq<TokenType>)
    requires pos < |tokens|
  {
    !AtEnd(tokens, pos) && tokens[pos].ttype in types
  }

  /** previous: the token before pos, or the zero token at the very start. */
  function PreviousAt(tokens: seq<Token>, pos: nat): Token
    requires pos <= |tokens|
  {
    if pos == 0 then ZeroToken else tokens[pos - 1]
  }

  /** Where advance leaves the cursor: one further, except at EOF. */
  function AdvanceAt(tokens: seq<Token>, pos: nat): nat
    requires pos < |tokens|
  {
    if AtEnd(tokens, pos) then pos else pos + 1
  }

  // ---------------------------------------------------------------------------------------
  // The grammar, as functions of the start position

  datatype Level = Equality | Comparison | Term | Factor

  /** The operator kinds a binary level loops on, in the order match tries them. */
  function Ops(l: Level): seq<TokenType>
  {
    match l
    case Equality => [BangEqual, EqualEqual]
    case Comparison => [Great, GreatEqual, Less, LessEqual]
    case Term => [Minus, Plus]
    case Factor => [Slash, Star]
  }

  /** Binding strength: factor binds tightest; unary sits below at rank 0. */
  function Rank(l: Level): nat
  {
    match l
    case Equality => 4
    case Comparison => 3
    case Term => 2
    case Factor => 1
  }

  function Lower(l: Level): Level
    requires l != Factor
  {
    match l
    case Equality => Comparison
    case Comparison => Term
    case Term => Factor
  }

  const UnaryOps: seq<TokenType> := [Bang, Minus]

  /** expression: equality. */
  function ExpressionAt(tokens: seq<Token>, pos: nat): (r: Parsed<Expr>)
    requires EndsWithEof(tokens) && pos < |tokens|
    ensures r.Parsed? ==> pos < r.next < |tokens|
    decreases |tokens| - pos, 5, 0
  {
    BinaryAt(tokens, pos, Equality)
  }

  /** The rule a binary level calls for each operand: the next level, or unary below factor. */
  function OperandAt(tokens: seq<Token>, pos: nat, l: Level): (r: Parsed<Expr>)
    requires EndsWithEof(tokens) && pos < |tokens|
    ensures r.Parsed? ==> pos < r.next < |tokens|
    decreases |tokens| - pos, Rank(l), 0
  {
    if l == Factor then UnaryAt(tokens, pos) else BinaryAt(tokens, pos, Lower(l))
  }

  /** A binary level: an operand, then `( op operand )*` folded to the left. */
  function BinaryAt(tokens: seq<Token>, pos: nat, l: Level): (r: Parsed<Expr>)
    requires EndsWithEof(tokens) && pos < |tokens|
    ensures r.Parsed? ==> pos < r.next < |tokens|
    decreases |tokens| - pos, Rank(l), 1
  {
    match OperandAt(tokens, pos, l)
    case Failed(e) => Failed(e)
    case Parsed(left, next) => BinaryRest(tokens, l, left, next)
  }

  /** The loop of a binary level with `left` built so far and the cursor at pos. */
  function BinaryRest(tokens: seq<Token>, l: Level, left: Expr, pos: nat): (r: Parsed<Expr>)
    requires EndsWithEof(tokens) && pos < |tokens|
    ensures r.Parsed? ==> pos <= r.next < |tokens|
    decreases |tokens| - pos, 0, 0
  {
    if !MatchAt(tokens, pos, Ops(l)) then Parsed(left, pos)
    else
      match OperandAt(tokens, pos + 1, l)
      case Failed(e) => Failed(e)
      case Parsed(right, next) => BinaryRest(tokens, l, Binary(left, tokens[pos], right), next)
  }

  /** unary: `( "!" | "-" ) unary | primary`. */
  function UnaryAt(tokens: seq<Token>, pos: nat): (r: Parsed<Expr>)
    requires EndsWithEof(tokens) && pos < |tokens|
    ensures r.Parsed? ==> pos < r.next < |tokens|
    decreases |tokens| - pos, 0, 1
  {
    if MatchAt(tokens, pos, UnaryOps) then
      match UnaryAt(tokens, pos + 1)
      case Failed(e) => Failed(e)
      case Parsed(right, next) => Parsed(Unary(tokens[pos], right), next)
    else PrimaryAt(tokens, pos)
  }

  /** primary: `NUMBER | STRING | "true" | "false" | "nil" | "(" expression ")"`. */
  function PrimaryAt(tokens: seq<Token>, pos: nat): (r: Parsed<Expr>)
    requires EndsWithEof(tokens) && pos < |tokens|
    ensures r.Parsed? ==> pos < r.next < |tokens|
    decreases |tokens| - pos, 0, 0
  {
    if MatchAt(tokens, pos, [False]) then Parsed(Literal(Boolean(false)), pos + 1)
    else if MatchAt(tokens, pos, [True]) then Parsed(Literal(Boolean(true)), pos + 1)
    else if MatchAt(tokens, pos, [Nil]) then Parsed(Literal(Null), pos + 1)
    else if MatchAt(tokens, pos, [Number, String]) then Parsed(Literal(tokens[pos].literal), pos + 1)
    else if MatchAt(tokens, pos, [LeftParen]) then GroupAt(tokens, pos + 1)
    else Failed(ParseError(tokens[pos], ExpectExpression))
  }

  /** The rest of primary after `(`: an expression, then `)`, else "Expect ')' after expression.". */
  function GroupAt(tokens: seq<Token>, pos: nat): (r: Parsed<Expr>)
    requires EndsWithEof(tokens) && pos < |tokens|
    ensures r.Parsed? ==> pos < r.next < |tokens|
    decreases |tokens| - pos, 6, 0
  {
    match ExpressionAt(tokens, pos)
    case Failed(e) => Failed(e)
    case Parsed(inner, next) =>
      if CheckAt(tokens, next, RightParen) then Parsed(Grouping(inner), next + 1)
      else Failed(ParseError(tokens[next], ExpectRightParen))
  }

  /** Parse: the expression, or nil (None) when any rule reported a ParseError. */
  function ParseAt(tokens: seq<Token>, pos: nat): (r: Option<Expr>)
    requires EndsWithEof(tokens) && pos < |tokens|
    ensures r.None? <==> ExpressionAt(tokens, pos).Failed?
    ensures r.Some? ==> r.value == ExpressionAt(tokens, pos).value
  {
    match ExpressionAt(tokens, pos)
    case Parsed(e, _) => Some(e)
    case Failed(_) => None
  }

  // ---------------------------------------------------------------------------------------
  // Tree shape: precedence and associativity

  /** The binary level whose operators include t, if any. */
  function LevelOf(t: TokenType): (r: Option<Level>)
    ensures r.Some? ==> t in Ops(r.value)
    ensures r.None? ==> forall l: Level :: t !in Ops(l)
  {
    if t in Ops(Equality) then Some(Equality)
    else if t in Ops(Comparison) then Some(Comparison)
    else if t in Ops(Term) then Some(Term)
    else if t in Ops(Factor) then Some(Factor)
    else None
  }

  /**
   * An expression that binds no looser than `rank` (4 equality ... 1 factor, 0 unary): every
   * binary node's operator belongs to a level of at most that rank, its left operand binds no
   * looser than that level, and its right operand binds strictly tighter, so a chain of
   * operators of one level can only nest to the left. A grouping resets the rank.
   */
  predicate Shaped(e: Expr, rank: nat)
  {
    match e
    case Binary(left, op, right) =>
      var lv := LevelOf(op.ttype);
      && lv.Some? && Rank(lv.value) <= rank
      && Shaped(left, Rank(lv.value)) && Shaped(right, Rank(lv.value) - 1)
    case Unary(op, right) => op.ttype in UnaryOps && Shaped(right, 0)
    case Grouping(inner) => Shaped(inner, 4)
    case Literal(_) => true
  }

  /** The token kinds primary accepts. */
  const PrimaryStarts: seq<TokenType> := [False, True, Nil, Number, String, LeftParen]

  /**
   * What any rule returns: a tree shaped for its rank, or one of the two parse errors, at a
   * token of the input that the rule could not accept there.
   */
  predicate Outcome(tokens: seq<Token>, r: Parsed<Expr>, rank: nat)
  {
    match r
    case Parsed(e, _) => Shaped(e, rank)
    case Failed(err) =>
      && err.token in tokens
      && (|| (err.msg == ExpectExpression && err.token.ttype !in PrimaryStarts)
          || (err.msg == ExpectRightParen && err.token.ttype != RightParen))
  }

  lemma {:induction false} ExpressionOutcome(tokens: seq<Token>, pos: nat)
    requires EndsWithEof(tokens) && pos < |tokens|
    ensures Outcome(tokens, ExpressionAt(tokens, pos), 4)
    ensures Covers(tokens, pos, ExpressionAt(tokens, pos))
    decreases |tokens| - pos, 5, 0
  {
    BinaryOutcome(tokens, pos, Equality);
  }

  lemma {:induction false} OperandOutcome(tokens: seq<Token>, pos: nat, l: Level)
    requires EndsWithEof(tokens) && pos < |tokens|
    ensures Outcome(tokens, OperandAt(tokens, pos, l), Rank(l) - 1)
    decreases |tokens| - pos, Rank(l), 0
  {
    if l == Factor {
      UnaryOutcome(tokens, pos);
    } else {
      BinaryOutcome(tokens, pos, Lower(l));
    }
  }

  lemma {:induction false} BinaryOutcome(tokens: seq<Token>, pos: nat, l: Level)
    requires EndsWithEof(tokens) && pos < |tokens|
    ensures Outcome(tokens, BinaryAt(tokens, pos, l), Rank(l))
    ensures Covers(tokens, pos, BinaryAt(tokens, pos, l))
    decreases |tokens| - pos, Rank(l), 1
  {
    BinaryYield(tokens, pos, l);
    OperandOutcome(tokens, pos, l);
    var first := OperandAt(tokens, pos, l);
    if first.Parsed? {
      ShapedLooser(first.value, Rank(l) - 1, Rank(l));
      RestOutcome(tokens, l, first.value, first.next);
    }
  }

  lemma {:induction false} RestOutcome(tokens: seq<Token>, l: Level, left: Expr, pos: nat)
    requires EndsWithEof(tokens) && pos < |tokens| && Shaped(left, Rank(l))
    ensures Outcome(tokens, BinaryRest(tokens, l, left, pos), Rank(l))
    decreases |tokens| - pos, 0, 0
  {
    if MatchAt(tokens, pos, Ops(l)) {
      OperandOutcome(tokens, pos + 1, l);
      var right := OperandAt(tokens, pos + 1, l);
      if right.Parsed? {
        OpsDisjoint(tokens[pos].ttype, l);
        RestOutcome(tokens, l, Binary(left, tokens[pos], right.value), right.next);
      }
    }
  }

  lemma {:induction false} UnaryOutcome(tokens: seq<Token>, pos: nat)
    requires EndsWithEof(tokens) && pos < |tokens|
    ensures Outcome(tokens, UnaryAt(tokens, pos), 0)
    ensures Covers(tokens, pos, UnaryAt(tokens, pos))
    decreases |tokens| - pos, 0, 1
  {
    UnaryYield(tokens, pos);
    if MatchAt(tokens, pos, UnaryOps) {
      UnaryOutcome(tokens, pos + 1);
    } else {
      PrimaryOutcome(tokens, pos);
    }
  }

  lemma {:induction false} PrimaryOutcome(tokens: seq<Token>, pos: nat)
    requires EndsWithEof(tokens) && pos < |tokens|
    ensures Outcome(tokens, PrimaryAt(tokens, pos), 0)
    ensures PrimaryAt(tokens, pos).Parsed? ==>
              PrimaryAt(tokens, pos).value.Literal? || PrimaryAt(tokens, pos).value.Grouping?
    decreases |tokens| - pos, 0, 0
  {
    if MatchAt(tokens, pos, [LeftParen]) {
      GroupOutcome(tokens, pos + 1);
    }
  }

  lemma {:induction false} GroupOutcome(tokens: seq<Token>, pos: nat)
    requires EndsWithEof(tokens) && pos < |tokens|
    ensures Outcome(tokens, GroupAt(tokens, pos), 0)
    decreases |tokens| - pos, 6, 0
  {
    ExpressionOutcome(tokens, pos);
  }

  lemma ShapedLooser(e: Expr, rank: nat, looser: nat)
    requires Shaped(e, rank) && rank <= looser
    ensures Shaped(e, looser)
  {
  }

  /** The operator lists of the levels are disjoint. */
  lemma OpsDisjoint(t: TokenType, l: Level)
    requires t in Ops(l)
    ensures LevelOf(t) == Some(l)
  {
  }

  /**
   * The whole parse result: a tree shaped for equality that reads back as the tokens it
   * consumed, or one of the two parse errors.
   */
  lemma ParseOutcome(tokens: seq<Token>)
    requires EndsWithEof(tokens)
    ensures Outcome(tokens, ExpressionAt(tokens, 0), 4)
    ensures ParseAt(tokens, 0).Some? ==>
              && Shaped(ParseAt(tokens, 0).value, 4)
              && Yield(ParseAt(tokens, 0).value) == Symbols(tokens, 0, ExpressionAt(tokens, 0).next)
  {
    ExpressionOutcome(tokens, 0);
  }

  // ---------------------------------------------------------------------------------------
  // Tree and tokens: a parsed tree reads back as exactly the tokens its rule consumed

  /**
   * What a token contributes when a tree is read back: a literal token its value, `(` and `)`
   * themselves, and an operator token the token itself.
   */
  datatype Symbol = LitSym(value: Object) | OpSym(token: Token) | Open | Close

  function SymbolOf(t: Token): Symbol
  {
    if t.ttype == False then LitSym(Boolean(false))
    else if t.ttype == True then LitSym(Boolean(true))
    else if t.ttype == Nil then LitSym(Null)
    else if t.ttype == Number || t.ttype == String then LitSym(t.literal)
    else if t.ttype == LeftParen then Open
    else if t.ttype == RightParen then Close
    else OpSym(t)
  }

  /** The symbols of tokens[i..j]. */
  function Symbols(tokens: seq<Token>, i: nat, j: nat): (s: seq<Symbol>)
    requires i <= j <= |tokens|
    ensures |s| == j - i
    decreases j - i
  {
    if i == j then [] else [SymbolOf(tokens[i])] + Symbols(tokens, i + 1, j)
  }

  lemma {:induction false} SymbolsSplit(tokens: seq<Token>, i: nat, k: nat, j: nat)
    requires i <= k <= j <= |tokens|
    ensures Symbols(tokens, i, j) == Symbols(tokens, i, k) + Symbols(tokens, k, j)
    decreases k - i
  {
    if i < k {
      SymbolsSplit(tokens, i + 1, k, j);
    }
  }

  /** A tree read back left to right, a grouping between parentheses. */
  function Yield(e: Expr): seq<Symbol>
  {
    match e
    case Literal(o) => [LitSym(o)]
    case Grouping(inner) => [Open] + (Yield(inner) + [Close])
    case Unary(op, right) => [OpSym(op)] + Yield(right)
    case Binary(left, op, right) => Yield(left) + ([OpSym(op)] + Yield(right))
  }

  /** A rule started at pos that parses a tree reads back as the tokens from pos to its stop. */
  predicate Covers(tokens: seq<Token>, pos: nat, r: Parsed<Expr>)
  {
    r.Parsed? && pos <= r.next <= |tokens| ==> Yield(r.value) == Symbols(tokens, pos, r.next)
  }

  lemma {:induction false} ExpressionYield(tokens: seq<Token>, pos: nat)
    requires EndsWithEof(tokens) && pos < |tokens|
    ensures Covers(tokens, pos, ExpressionAt(tokens, pos))
    decreases |tokens| - pos, 5, 0
  {
    BinaryYield(tokens, pos, Equality);
  }

  lemma {:induction false} OperandYield(tokens: seq<Token>, pos: nat, l: Level)
    requires EndsWithEof(tokens) && pos < |tokens|
    ensures Covers(tokens, pos, OperandAt(tokens, pos, l))
    decreases |tokens| - pos, Rank(l), 0
  {
    if l == Factor {
      UnaryYield(tokens, pos);
    } else {
      BinaryYield(tokens, pos, Lower(l));
    }
  }

  lemma {:induction false} BinaryYield(tokens: seq<Token>, pos: nat, l: Level)
    requires EndsWithEof(tokens) && pos < |tokens|
    ensures Covers(tokens, pos, BinaryAt(tokens, pos, l))
    decreases |tokens| - pos, Rank(l), 1
  {
    OperandYield(tokens, pos, l);
    var first := OperandAt(tokens, pos, l);
    if first.Parsed? {
      RestYield(tokens, l, first.value, pos, first.next);
    }
  }

  /** The loop extends the tokens read so far, from `start`, by each operator and operand. */
  lemma {:induction false} RestYield(tokens: seq<Token>, l: Level, left: Expr, start: nat, pos: nat)
    requires EndsWithEof(tokens) && start <= pos < |tokens|
    requires Yield(left) == Symbols(tokens, start, pos)
    ensures Covers(tokens, start, BinaryRest(tokens, l, left, pos))
    decreases |tokens| - pos, 0, 0
  {
    if !MatchAt(tokens, pos, Ops(l)) {
      RestStops(tokens, l, left, pos);
    } else {
      assert pos + 1 < |tokens|;
      OperandYield(tokens, pos + 1, l);
      var right := OperandAt(tokens, pos + 1, l);
      if right.Failed? {
        RestFails(tokens, l, left, pos);
      } else {
        OperatorSymbol(tokens[pos], Ops(l));
        BinaryReadsBack(tokens, start, pos, right.next, Yield(left), Yield(right.value));
        RestStep(tokens, l, left, pos, right.value, right.next);
        RestYield(tokens, l, Binary(left, tokens[pos], right.value), start, right.next);
      }
    }
  }

  /** The tokens of `left op right`, with the operator at pos. */
  lemma BinaryReadsBack(tokens: seq<Token>, start: nat, pos: nat, next: nat, left: seq<Symbol>, right: seq<Symbol>)
    requires start <= pos < next <= |tokens|
    requires Symbols(tokens, start, pos) == left && Symbols(tokens, pos + 1, next) == right
    ensures Symbols(tokens, start, next) == left + ([SymbolOf(tokens[pos])] + right)
  {
    SymbolsSplit(tokens, start, pos, next);
    SymbolsCons(tokens, pos, next);
  }

  lemma {:induction false} UnaryYield(tokens: seq<Token>, pos: nat)
    requires EndsWithEof(tokens) && pos < |tokens|
    ensures Covers(tokens, pos, UnaryAt(tokens, pos))
    decreases |tokens| - pos, 0, 1
  {
    if MatchAt(tokens, pos, UnaryOps) {
      UnaryYield(tokens, pos + 1);
      OperatorSymbol(tokens[pos], UnaryOps);
      var right := UnaryAt(tokens, pos + 1);
      if right.Parsed? {
        SymbolsCons(tokens, pos, right.next);
      }
    } else {
      PrimaryYield(tokens, pos);
    }
  }

  lemma {:induction false} PrimaryYield(tokens: seq<Token>, pos: nat)
    requires EndsWithEof(tokens) && pos < |tokens|
    ensures Covers(tokens, pos, PrimaryAt(tokens, pos))
    decreases |tokens| - pos, 0, 0
  {
    if MatchAt(tokens, pos, [LeftParen]) {
      GroupYield(tokens, pos + 1);
    } else {
      SymbolsOne(tokens, pos);
    }
  }

  /** After `(` at pos - 1: the grouping reads back as that `(`, the inner tokens and `)`. */
  lemma {:induction false} GroupYield(tokens: seq<Token>, pos: nat)
    requires EndsWithEof(tokens) && 0 < pos < |tokens| && tokens[pos - 1].ttype == LeftParen
    ensures Covers(tokens, pos - 1, GroupAt(tokens, pos))
    decreases |tokens| - pos, 6, 0
  {
    ExpressionYield(tokens, pos);
    GroupParsed(tokens, pos);
    var r := GroupAt(tokens, pos);
    if r.Parsed? {
      var inner := ExpressionAt(tokens, pos);
      var ys := Yield(inner.value);
      assert ys == Symbols(tokens, pos, inner.next);
      GroupReadsBack(tokens, pos, inner.next, ys);
      assert Yield(r.value) == [Open] + (ys + [Close]);
    }
  }

  /** A parsed grouping is the inner expression followed by `)`. */
  lemma GroupParsed(tokens: seq<Token>, pos: nat)
    requires EndsWithEof(tokens) && pos < |tokens|
    ensures GroupAt(tokens, pos).Parsed? ==>
              && ExpressionAt(tokens, pos).Parsed?
              && tokens[ExpressionAt(tokens, pos).next].ttype == RightParen
              && GroupAt(tokens, pos) == Parsed(Grouping(ExpressionAt(tokens, pos).value), ExpressionAt(tokens, pos).next + 1)
  {
  }

  /** The tokens of `( inner )`, with the parentheses at pos - 1 and n. */
  lemma GroupReadsBack(tokens: seq<Token>, pos: nat, n: nat, inner: seq<Symbol>)
    requires 0 < pos <= n < |tokens|
    requires tokens[pos - 1].ttype == LeftParen && tokens[n].ttype == RightParen
    requires Symbols(tokens, pos, n) == inner
    ensures Symbols(tokens, pos - 1, n + 1) == [Open] + (inner + [Close])
  {
    assert SymbolOf(tokens[pos - 1]) == Open && SymbolOf(tokens[n]) == Close;
    SymbolsOne(tokens, n);
    SymbolsSplit(tokens, pos, n, n + 1);
    SymbolsCons(tokens, pos - 1, n + 1);
  }

  lemma SymbolsOne(tokens: seq<Token>, i: nat)
    requires i < |tokens|
    ensures Symbols(tokens, i, i + 1) == [SymbolOf(tokens[i])]
  {
  }

  lemma SymbolsCons(tokens: seq<Token>, i: nat, j: nat)
    requires i < j <= |tokens|
    ensures Symbols(tokens, i, j) == [SymbolOf(tokens[i])] + Symbols(tokens, i + 1, j)
  {
  }

  /** Operator tokens read back as themselves. */
  lemma OperatorSymbol(t: Token, types: seq<TokenType>)
    requires t.ttype in types
    requires forall k | 0 <= k < |types| :: types[k] !in PrimaryStarts && types[k] != RightParen
    ensures SymbolOf(t) == OpSym(t)
  {
  }

  // ---------------------------------------------------------------------------------------
  // Worked examples

  function NumberToken(lexeme: string, v: real): Token
  {
    Token(Number, lexeme, Num(v), 1)
  }

  function OpToken(t: TokenType, lexeme: string): Token
  {
    Token(t, lexeme, Null, 1)
  }

  const EofToken: Token := Token(Eof, "", Null, 1)

  /** t is an operator of no level whose rank lies in lo+1..hi. */
  predicate NoOperatorIn(t: TokenType, lo: nat, hi: nat)
  {
    LevelOf(t).None? || Rank(LevelOf(t).value) <= lo || hi < Rank(LevelOf(t).value)
  }

  lemma NotMatched(tokens: seq<Token>, pos: nat, m: Level, lo: nat, hi: nat)
    requires pos < |tokens| && NoOperatorIn(tokens[pos].ttype, lo, hi) && lo < Rank(m) <= hi
    ensures !MatchAt(tokens, pos, Ops(m))
  {
    if MatchAt(tokens, pos, Ops(m)) {
      OpsDisjoint(tokens[pos].ttype, m);
    }
  }

  /**
   * A number token followed by no operator of a level below l is a whole operand of level l:
   * each lower level's loop stops at once.
   */
  lemma {:induction false} NumberOperand(tokens: seq<Token>, pos: nat, l: Level)
    requires EndsWithEof(tokens) && pos + 1 < |tokens| && tokens[pos].ttype == Number
    requires NoOperatorIn(tokens[pos + 1].ttype, 0, Rank(l) - 1)
    ensures OperandAt(tokens, pos, l) == Parsed(Literal(tokens[pos].literal), pos + 1)
    decreases Rank(l)
  {
    var lit := Literal(tokens[pos].literal);
    if l == Factor {
      assert !MatchAt(tokens, pos, UnaryOps);
      assert PrimaryAt(tokens, pos) == Parsed(lit, pos + 1);
    } else {
      NumberOperand(tokens, pos, Lower(l));
      NotMatched(tokens, pos + 1, Lower(l), 0, Rank(l) - 1);
      RestStops(tokens, Lower(l), lit, pos + 1);
    }
  }

  /** A failure of the first unary operand is the failure of every binary level. */
  lemma {:induction false} FirstOperandFails(tokens: seq<Token>, pos: nat, l: Level, err: ParseError)
    requires EndsWithEof(tokens) && pos < |tokens| && UnaryAt(tokens, pos) == Failed(err)
    ensures OperandAt(tokens, pos, l) == Failed(err) && BinaryAt(tokens, pos, l) == Failed(err)
    decreases Rank(l)
  {
    if l != Factor {
      FirstOperandFails(tokens, pos, Lower(l), err);
    }
  }

  /** One turn of a binary level's loop. */
  lemma RestStep(tokens: seq<Token>, l: Level, left: Expr, pos: nat, right: Expr, next: nat)
    requires EndsWithEof(tokens) && pos + 1 < |tokens| && MatchAt(tokens, pos, Ops(l))
    requires OperandAt(tokens, pos + 1, l) == Parsed(right, next)
    ensures BinaryRest(tokens, l, left, pos) == BinaryRest(tokens, l, Binary(left, tokens[pos], right), next)
  {
  }

  /** The loop of a binary level ends when no operator of the level follows. */
  lemma RestStops(tokens: seq<Token>, l: Level, left: Expr, pos: nat)
    requires EndsWithEof(tokens) && pos < |tokens| && !MatchAt(tokens, pos, Ops(l))
    ensures BinaryRest(tokens, l, left, pos) == Parsed(left, pos)
  {
  }

  /** A failed right operand is the failure of the whole level. */
  lemma RestFails(tokens: seq<Token>, l: Level, left: Expr, pos: nat)
    requires EndsWithEof(tokens) && pos + 1 < |tokens| && MatchAt(tokens, pos, Ops(l))
    requires OperandAt(tokens, pos + 1, l).Failed?
    ensures BinaryRest(tokens, l, left, pos) == Failed(OperandAt(tokens, pos + 1, l).error)
  {
  }

  /**
   * An expression parsed at one level is the result of every looser level too when no
   * operator of those levels follows it.
   */
  lemma {:induction false} Climb(tokens: seq<Token>, pos: nat, e: Expr, next: nat, from: Level, to: Level)
    requires EndsWithEof(tokens) && pos < next < |tokens| && Rank(from) <= Rank(to)
    requires BinaryAt(tokens, pos, from) == Parsed(e, next)
    requires NoOperatorIn(tokens[next].ttype, Rank(from), Rank(to))
    ensures BinaryAt(tokens, pos, to) == Parsed(e, next)
    decreases Rank(to) - Rank(from)
  {
    if Rank(from) < Rank(to) {
      Climb(tokens, pos, e, next, from, Lower(to));
      assert OperandAt(tokens, pos, to) == Parsed(e, next);
      NotMatched(tokens, next, to, Rank(from), Rank(to));
      RestStops(tokens, to, e, next);
    }
  }

  /** A level whose first operand parsed continues with its loop. */
  lemma BinaryStart(tokens: seq<Token>, pos: nat, l: Level, left: Expr, next: nat)
    requires EndsWithEof(tokens) && pos < |tokens| && OperandAt(tokens, pos, l) == Parsed(left, next)
    ensures BinaryAt(tokens, pos, l) == BinaryRest(tokens, l, left, next)
  {
  }

  /** The tokens of `1 - 2 - 3`. */
  const MinusTokens: seq<Token> :=
    [NumberToken("1", 1.0), OpToken(Minus, "-"), NumberToken("2", 2.0), OpToken(Minus, "-"),
     NumberToken("3", 3.0), EofToken]

  /** `1 - 2 - 3` groups to the left. */
  lemma MinusIsLeftAssociative()
    ensures ExpressionAt(MinusTokens, 0)
            == Parsed(Binary(Binary(Literal(Num(1.0)), OpToken(Minus, "-"), Literal(Num(2.0))),
                             OpToken(Minus, "-"), Literal(Num(3.0))), 5)
  {
    var ts, minus := MinusTokens, OpToken(Minus, "-");
    var e := Binary(Binary(Literal(Num(1.0)), minus, Literal(Num(2.0))), minus, Literal(Num(3.0)));
    MinusTerm();
    assert NoOperatorIn(ts[5].ttype, Rank(Term), Rank(Equality));
    Climb(ts, 0, e, 5, Term, Equality);
  }

  /** The term level of `1 - 2 - 3`: each `-` takes the next number as its right operand. */
  lemma MinusTerm()
    ensures BinaryAt(MinusTokens, 0, Term)
            == Parsed(Binary(Binary(Literal(Num(1.0)), OpToken(Minus, "-"), Literal(Num(2.0))),
                             OpToken(Minus, "-"), Literal(Num(3.0))), 5)
  {
    var ts, minus := MinusTokens, OpToken(Minus, "-");
    var one, two, three := Literal(Num(1.0)), Literal(Num(2.0)), Literal(Num(3.0));
    NumberOperand(ts, 0, Term);
    BinaryStart(ts, 0, Term, one, 1);
    NumberOperand(ts, 2, Term);
    RestStep(ts, Term, one, 1, two, 3);
    MinusRest();
  }

  lemma MinusRest()
    ensures var minus := OpToken(Minus, "-");
            var one, two, three := Literal(Num(1.0)), Literal(Num(2.0)), Literal(Num(3.0));
            BinaryRest(MinusTokens, Term, Binary(one, minus, two), 3)
            == Parsed(Binary(Binary(one, minus, two), minus, three), 5)
  {
    var ts, minus := MinusTokens, OpToken(Minus, "-");
    var one, two, three := Literal(Num(1.0)), Literal(Num(2.0)), Literal(Num(3.0));
    NumberOperand(ts, 4, Term);
    RestStep(ts, Term, Binary(one, minus, two), 3, three, 5);
    RestStops(ts, Term, Binary(Binary(one, minus, two), minus, three), 5);
  }

  /** The tokens of `1 + 2 * 3 == 7`. */
  const PrecedenceTokens: seq<Token> :=
    [NumberToken("1", 1.0), OpToken(Plus, "+"), NumberToken("2", 2.0), OpToken(Star, "*"),
     NumberToken("3", 3.0), OpToken(EqualEqual, "=="), NumberToken("7", 7.0), EofToken]

  /** In `1 + 2 * 3 == 7`, `2 * 3` is one factor operand of `+`. */
  lemma ProductIsOneOperand()
    ensures OperandAt(PrecedenceTokens, 2, Term)
            == Parsed(Binary(Literal(Num(2.0)), OpToken(Star, "*"), Literal(Num(3.0))), 5)
  {
    var ts := PrecedenceTokens;
    var two, three := Literal(Num(2.0)), Literal(Num(3.0));
    var product := Binary(two, OpToken(Star, "*"), three);
    NumberOperand(ts, 2, Factor);
    BinaryStart(ts, 2, Factor, two, 3);
    ProductRest();
  }

  lemma ProductRest()
    ensures BinaryRest(PrecedenceTokens, Factor, Literal(Num(2.0)), 3)
            == Parsed(Binary(Literal(Num(2.0)), OpToken(Star, "*"), Literal(Num(3.0))), 5)
  {
    var ts := PrecedenceTokens;
    var two, three := Literal(Num(2.0)), Literal(Num(3.0));
    assert OperandAt(ts, 4, Factor) == Parsed(three, 5) by {
      NumberOperand(ts, 4, Factor);
    }
    RestStep(ts, Factor, two, 3, three, 5);
    RestStops(ts, Factor, Binary(two, OpToken(Star, "*"), three), 5);
  }

  /** In `1 + 2 * 3 == 7`, `1 + 2 * 3` is one comparison operand of `==`. */
  lemma SumIsOneOperand()
    ensures OperandAt(PrecedenceTokens, 0, Equality)
            == Parsed(Binary(Literal(Num(1.0)), OpToken(Plus, "+"),
                             Binary(Literal(Num(2.0)), OpToken(Star, "*"), Literal(Num(3.0)))), 5)
  {
    var ts := PrecedenceTokens;
    var product := Binary(Literal(Num(2.0)), OpToken(Star, "*"), Literal(Num(3.0)));
    var sum := Binary(Literal(Num(1.0)), OpToken(Plus, "+"), product);
    SumTerm();
    assert NoOperatorIn(ts[5].ttype, Rank(Term), Rank(Comparison));
    Climb(ts, 0, sum, 5, Term, Comparison);
  }

  lemma SumTerm()
    ensures BinaryAt(PrecedenceTokens, 0, Term)
            == Parsed(Binary(Literal(Num(1.0)), OpToken(Plus, "+"),
                             Binary(Literal(Num(2.0)), OpToken(Star, "*"), Literal(Num(3.0)))), 5)
  {
    var ts := PrecedenceTokens;
    var one := Literal(Num(1.0));
    var product := Binary(Literal(Num(2.0)), OpToken(Star, "*"), Literal(Num(3.0)));
    NumberOperand(ts, 0, Term);
    BinaryStart(ts, 0, Term, one, 1);
    ProductIsOneOperand();
    RestStep(ts, Term, one, 1, product, 5);
    RestStops(ts, Term, Binary(one, OpToken(Plus, "+"), product), 5);
  }

  /** `1 + 2 * 3 == 7` groups as `(1 + (2 * 3)) == 7`. */
  lemma FactorBindsTighterThanTermAndEquality()
    ensures ExpressionAt(PrecedenceTokens, 0)
            == Parsed(Binary(Binary(Literal(Num(1.0)), OpToken(Plus, "+"),
                                    Binary(Literal(Num(2.0)), OpToken(Star, "*"), Literal(Num(3.0)))),
                             OpToken(EqualEqual, "=="), Literal(Num(7.0))), 7)
  {
    var ts := PrecedenceTokens;
    var sum := Binary(Literal(Num(1.0)), OpToken(Plus, "+"),
                      Binary(Literal(Num(2.0)), OpToken(Star, "*"), Literal(Num(3.0))));
    SumIsOneOperand();
    BinaryStart(ts, 0, Equality, sum, 5);
    NumberOperand(ts, 6, Equality);
    RestStep(ts, Equality, sum, 5, Literal(Num(7.0)), 7);
    RestStops(ts, Equality, Binary(sum, OpToken(EqualEqual, "=="), Literal(Num(7.0))), 7);
  }

  /** `!-1` nests to the right: `Unary(!, Unary(-, 1))`. */
  lemma UnaryIsRightRecursive()
    ensures var bang, minus := OpToken(Bang, "!"), OpToken(Minus, "-");
            var ts := [bang, minus, NumberToken("1", 1.0), EofToken];
            UnaryAt(ts, 0) == Parsed(Unary(bang, Unary(minus, Literal(Num(1.0)))), 3)
  {
    var bang, minus := OpToken(Bang, "!"), OpToken(Minus, "-");
    var ts := [bang, minus, NumberToken("1", 1.0), EofToken];
    assert UnaryAt(ts, 2) == Parsed(Literal(Num(1.0)), 3) by {
      assert !MatchAt(ts, 2, UnaryOps);
    }
    assert UnaryAt(ts, 1) == Parsed(Unary(minus, Literal(Num(1.0))), 3);
  }

  /** A missing `)` is reported at the token found instead. */
  lemma MissingParenExample()
    ensures ExpressionAt([OpToken(LeftParen, "("), NumberToken("1", 1.0), EofToken], 0)
            == Failed(ParseError(EofToken, ExpectRightParen))
  {
    var ts := [OpToken(LeftParen, "("), NumberToken("1", 1.0), EofToken];
    NumberOperand(ts, 1, Equality);
    assert OperandAt(ts, 1, Equality) == Parsed(Literal(Num(1.0)), 2);
    assert BinaryAt(ts, 1, Equality) == BinaryRest(ts, Equality, Literal(Num(1.0)), 2);
    assert !MatchAt(ts, 2, Ops(Equality));
    assert BinaryRest(ts, Equality, Literal(Num(1.0)), 2) == Parsed(Literal(Num(1.0)), 2);
    assert ExpressionAt(ts, 1) == Parsed(Literal(Num(1.0)), 2);
    assert PrimaryAt(ts, 0) == Failed(ParseError(EofToken, ExpectRightParen));
    FirstOperandFails(ts, 0, Equality, ParseError(EofToken, ExpectRightParen));
  }

  /** A token no primary starts with is reported as "Expect expression.". */
  lemma ExpectExpressionExample()
    ensures ExpressionAt([OpToken(Star, "*"), EofToken], 0) == Failed(ParseError(OpToken(Star, "*"), ExpectExpression))
  {
    var ts := [OpToken(Star, "*"), EofToken];
    assert UnaryAt(ts, 0) == Failed(ParseError(OpToken(Star, "*"), ExpectExpression));
    FirstOperandFails(ts, 0, Equality, ParseError(OpToken(Star, "*"), ExpectExpression));
  }

  // ---------------------------------------------------------------------------------------
  // Panic-mode recovery

  const StatementStarts: seq<TokenType> := [Class, Fun, TokenType.Var, For, TokenType.If, TokenType.While, TokenType.Print, Return]

  /** A place where synchronize stops: EOF, just after `;`, or just before a statement keyword. */
  predicate Boundary(tokens: seq<Token>, pos: nat)
    requires pos < |tokens|
  {
    AtEnd(tokens, pos) || PreviousAt(tokens, pos).ttype == Semicolon || tokens[pos].ttype in StatementStarts
  }

  /** The loop of synchronize from pos. */
  function SyncFrom(tokens: seq<Token>, pos: nat): nat
    requires EndsWithEof(tokens) && pos < |tokens|
    decreases |tokens| - pos
  {
    if AtEnd(tokens, pos) then pos
    else if PreviousAt(tokens, pos).ttype == Semicolon then pos
    else if tokens[pos].ttype in StatementStarts then pos
    else SyncFrom(tokens, pos + 1)
  }

  /** synchronize: one advance, then the loop. */
  function SynchronizeAt(tokens: seq<Token>, pos: nat): nat
    requires EndsWithEof(tokens) && pos < |tokens|
  {
    SyncFrom(tokens, AdvanceAt(tokens, pos))
  }

  /** synchronize stops at the first boundary after skipping at least the current token. */
  lemma {:induction false} SyncFromFirstBoundary(tokens: seq<Token>, pos: nat)
    requires EndsWithEof(tokens) && pos < |tokens|
    ensures var r := SyncFrom(tokens, pos);
            && pos <= r < |tokens| && Boundary(tokens, r)
            && forall k | pos <= k < r :: !Boundary(tokens, k)
    decreases |tokens| - pos
  {
    if !Boundary(tokens, pos) {
      SyncFromFirstBoundary(tokens, pos + 1);
    }
  }

  lemma SynchronizeStops(tokens: seq<Token>, pos: nat)
    requires EndsWithEof(tokens) && pos < |tokens|
    ensures var start := AdvanceAt(tokens, pos);
            var r := SynchronizeAt(tokens, pos);
            && (AtEnd(tokens, pos) ==> start == pos) && (!AtEnd(tokens, pos) ==> start == pos + 1)
            && start <= r < |tokens| && Boundary(tokens, r)
            && forall k | start <= k < r :: !Boundary(tokens, k)
  {
    SyncFromFirstBoundary(tokens, AdvanceAt(tokens, pos));
  }

  // ---------------------------------------------------------------------------------------
  // The parser object

  class Parser {
    const tokens: seq<Token>
    var curr: nat

    /** The cursor never passes the EOF at the end. */
    ghost predicate Valid()
      reads this
    {
      EndsWithEof(tokens) && curr < |tokens|
    }

    /** NewParser: the cursor at the first token. */
    constructor (tokens: seq<Token>)
      requires EndsWithEof(tokens)
      ensures Valid() && this.tokens == tokens && curr == 0
    {
      this.tokens := tokens;
      curr := 0;
    }

    /** peek: the token at the cursor, which is the EOF once the cursor is on the last one. */
    function Peek(): (t: Token)
      reads this
      requires Valid()
      ensures t == tokens[curr]
      ensures curr == |tokens| - 1 ==> t.ttype == Eof
    {
      tokens[curr]
    }

    function IsAtEnd(): (b: bool)
      reads this
      requires Valid()
      ensures b <==> AtEnd(tokens, curr)
    {
      Peek().ttype == Eof
    }

    /** check: false at EOF whatever kind is asked for. */
    function Check(t: TokenType): (b: bool)
      reads this
      requires Valid()
      ensures IsAtEnd() ==> !b
      ensures !IsAtEnd() ==> (b <==> Peek().ttype == t)
    {
      if IsAtEnd() then false else Peek().ttype == t
    }

    /** previous: the token before the cursor, or the zero token at the very start. */
    function Previous(): (t: Token)
      reads this
      requires curr <= |tokens|
      ensures curr == 0 ==> t == ZeroToken
      ensures curr > 0 ==> t == tokens[curr - 1]
    {
      PreviousAt(tokens, curr)
    }

    /** advance: returns the token just consumed; at EOF stays put and returns previous(). */
    method Advance() returns (t: Token)
      requires Valid()
      modifies this`curr
      ensures Valid() && curr == AdvanceAt(tokens, old(curr)) && t == Previous()
      ensures !AtEnd(tokens, old(curr)) ==> curr == old(curr) + 1 && t == tokens[old(curr)]
      ensures AtEnd(tokens, old(curr)) ==> curr == old(curr) && t == PreviousAt(tokens, old(curr))
    {
      if !IsAtEnd() {
        curr := curr + 1;
      }
      return Previous();
    }

    /** match: consumes one token exactly when its kind is among `types`. */
    method Match(types: seq<TokenType>) returns (b: bool)
      requires Valid()
      modifies this`curr
      ensures Valid() && b == MatchAt(tokens, old(curr), types)
      ensures curr == old(curr) + (if b then 1 else 0)
    {
      for i := 0 to |types|
        invariant curr == old(curr)
        invariant forall j | 0 <= j < i :: !CheckAt(tokens, curr, types[j])
      {
        if Check(types[i]) {
          var consumed := Advance();
          return true;
        }
      }
      return false;
    }

    /** consume: the expected token, advancing past it, or an error at the current token. */
    method Consume(t: TokenType, msg: string) returns (r: Parsed<Token>)
      requires Valid()
      modifies this`curr
      ensures Valid()
      ensures CheckAt(tokens, old(curr), t) ==> curr == old(curr) + 1 && r == Parsed(tokens[old(curr)], curr)
      ensures !CheckAt(tokens, old(curr), t) ==> curr == old(curr) && r == Failed(ParseError(tokens[curr], msg))
    {
      if Check(t) {
        var tok := Advance();
        return Parsed(tok, curr);
      }
      return Failed(ParseError(Peek(), msg));
    }

    method ExpressionRule() returns (r: Parsed<Expr>)
      requires Valid()
      modifies this`curr
      ensures Valid() && r == ExpressionAt(tokens, old(curr)) && (r.Parsed? ==> curr == r.next)
      decreases |tokens| - curr, 5, 0
    {
      r := BinaryRule(Equality);
    }

    method OperandRule(l: Level) returns (r: Parsed<Expr>)
      requires Valid()
      modifies this`curr
      ensures Valid() && r == OperandAt(tokens, old(curr), l) && (r.Parsed? ==> curr == r.next)
      decreases |tokens| - curr, Rank(l), 0
    {
      if l == Factor {
        r := UnaryRule();
      } else {
        r := BinaryRule(Lower(l));
      }
    }

    /** equality, comparison, term and factor. */
    method BinaryRule(l: Level) returns (r: Parsed<Expr>)
      requires Valid()
      modifies this`curr
      ensures Valid() && r == BinaryAt(tokens, old(curr), l) && (r.Parsed? ==> curr == r.next)
      decreases |tokens| - curr, Rank(l), 1
    {
      var first := OperandRule(l);
      if first.Failed? {
        return Failed(first.error);
      }
      var expr := first.value;
      ghost var pos := curr;
      ghost var goal := BinaryAt(tokens, old(curr), l);
      var more := Match(Ops(l));
      while more
        invariant Valid() && pos < |tokens|
        invariant BinaryRest(tokens, l, expr, pos) == goal
        invariant more == MatchAt(tokens, pos, Ops(l)) && curr == pos + (if more then 1 else 0)
        decreases |tokens| - pos
      {
        var step := NextOperand(l, expr, pos);
        if step.Failed? {
          return step;
        }
        expr := step.value;
        pos := curr;
        more := Match(Ops(l));
      }
      RestStops(tokens, l, expr, pos);
      return Parsed(expr, curr);
    }

    /** One turn of the loop: the operator just matched and its right operand. */
    method NextOperand(l: Level, left: Expr, ghost pos: nat) returns (r: Parsed<Expr>)
      requires Valid() && pos + 1 == curr && MatchAt(tokens, pos, Ops(l))
      modifies this`curr
      ensures Valid()
      ensures r.Failed? ==> r == BinaryRest(tokens, l, left, pos)
      ensures r.Parsed? ==> pos < curr == r.next && BinaryRest(tokens, l, r.value, curr) == BinaryRest(tokens, l, left, pos)
      decreases |tokens| - curr, Rank(l), 1
    {
      var operator := Previous();
      var right := OperandRule(l);
      if right.Failed? {
        RestFails(tokens, l, left, pos);
        return Failed(right.error);
      }
      RestStep(tokens, l, left, pos, right.value, curr);
      return Parsed(Binary(left, operator, right.value), curr);
    }

    method UnaryRule() returns (r: Parsed<Expr>)
      requires Valid()
      modifies this`curr
      ensures Valid() && r == UnaryAt(tokens, old(curr)) && (r.Parsed? ==> curr == r.next)
      decreases |tokens| - curr, 0, 1
    {
      var m := Match(UnaryOps);
      if m {
        var operator := Previous();
        var right := UnaryRule();
        if right.Failed? {
          return Failed(right.error);
        }
        return Parsed(Unary(operator, right.value), curr);
      }
      r := PrimaryRule();
    }

    method PrimaryRule() returns (r: Parsed<Expr>)
      requires Valid()
      modifies this`curr
      ensures Valid() && r == PrimaryAt(tokens, old(curr)) && (r.Parsed? ==> curr == r.next)
      decreases |tokens| - curr, 0, 0
    {
      var m := Match([False]);
      if m {
        return Parsed(Literal(Boolean(false)), curr);
      }
      m := Match([True]);
      if m {
        return Parsed(Literal(Boolean(true)), curr);
      }
      m := Match([Nil]);
      if m {
        return Parsed(Literal(Null), curr);
      }
      m := Match([Number, String]);
      if m {
        return Parsed(Literal(Previous().literal), curr);
      }
      m := Match([LeftParen]);
      if m {
        r := GroupRule();
        return;
      }
      return Failed(ParseError(Peek(), ExpectExpression));
    }

    /** The rest of primary after `(`: an expression, then the closing parenthesis. */
    method GroupRule() returns (r: Parsed<Expr>)
      requires Valid()
      modifies this`curr
      ensures Valid() && r == GroupAt(tokens, old(curr)) && (r.Parsed? ==> curr == r.next)
      decreases |tokens| - curr, 6, 0
    {
      var inner := ExpressionRule();
      if inner.Failed? {
        return Failed(inner.error);
      }
      var closing := Consume(RightParen, ExpectRightParen);
      if closing.Failed? {
        return Failed(closing.error);
      }
      return Parsed(Grouping(inner.value), curr);
    }

    /** Parse: the expression, or None when a ParseError came back. */
    method Parse() returns (r: Option<Expr>)
      requires Valid()
      modifies this`curr
      ensures Valid() && r == ParseAt(tokens, old(curr))
    {
      var e := ExpressionRule();
      if e.Failed? {
        return None;
      }
      return Some(e.value);
    }

    /** synchronize: skip to the next statement boundary. */
    method Synchronize()
      requires Valid()
      modifies this`curr
      ensures Valid() && curr == SynchronizeAt(tokens, old(curr))
    {
      var skipped := Advance();
      while !IsAtEnd()
        invariant Valid() && SyncFrom(tokens, curr) == SynchronizeAt(tokens, old(curr))
        decreases |tokens| - curr
      {
        if Previous().ttype == Semicolon {
          return;
        }
        if Peek().ttype in StatementStarts {
          return;
        }
        skipped := Advance();
      }
    }
  }
}
