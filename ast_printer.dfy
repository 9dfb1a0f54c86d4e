/**
 * The AST printer (ast/astPrinter.go): every node prints as a prefix form in parentheses.
 * Show is what Print returns; the class-free methods Print and Parenthesize are the
 * printer's recursive dispatch and its string-building loop, proved to produce it.
 */
module AstPrinter {
  import opened TokenTypes
  import opened Tokens
  import opened Ast

  // ---------------------------------------------------------------------------------------
  // What the printer produces

  /** `" " + part` for every part, in order. */
  function Spaced(parts: seq<string>): string
  {
    if parts == [] then "" else Spaced(parts[..|parts| - 1]) + " " + parts[|parts| - 1]
  }

  /** parenthesize's result for a name and the printed forms of its operands. */
  function Paren(name: string, parts: seq<string>): string
  {
    "(" + name + Spaced(parts) + ")"
  }

  /** What a literal prints: "nil" for nil, otherwise `%v` of its value. */
  function LiteralText(o: Object, numText: real -> string): string
  {
    if o.Null? then "nil" else ObjectText(o, numText)
  }

  /** The operands a node prints after its name, and the name. */
  function Children(e: Expr): seq<Expr>
  {
    match e
    case Binary(left, _, right) => [left, right]
    case Grouping(inner) => [inner]
    case Unary(_, right) => [right]
    case Literal(_) => []
  }

  function Name(e: Expr): string
    requires !e.Literal?
  {
    match e
    case Binary(_, op, _) => op.lexeme
    case Grouping(_) => "group"
    case Unary(op, _) => op.lexeme
  }

  /** Print's result. */
  function Show(e: Expr, numText: real -> string): string
  {
    match e
    case Literal(o) => LiteralText(o, numText)
    case Binary(left, op, right) => Paren(op.lexeme, [Show(left, numText), Show(right, numText)])
    case Grouping(inner) => Paren("group", [Show(inner, numText)])
    case Unary(op, right) => Paren(op.lexeme, [Show(right, numText)])
  }

  function ShowAll(es: seq<Expr>, numText: real -> string): (r: seq<string>)
    ensures |r| == |es| && forall i | 0 <= i < |es| :: r[i] == Show(es[i], numText)
  {
    if es == [] then [] else ShowAll(es[..|es| - 1], numText) + [Show(es[|es| - 1], numText)]
  }

  /** A node's text is its name's parenthesize over its operands' texts. */
  lemma ShowIsParen(e: Expr, numText: real -> string)
    requires !e.Literal?
    ensures Show(e, numText) == Paren(Name(e), ShowAll(Children(e), numText))
  {
    var shown := ShowAll(Children(e), numText);
    if e.Binary? {
      assert shown == [Show(e.left, numText), Show(e.right, numText)];
    } else if e.Grouping? {
      assert shown == [Show(e.expression, numText)];
    } else {
      assert shown == [Show(e.right, numText)];
    }
  }

  lemma Assoc(a: string, b: string, c: string)
    ensures a + (b + c) == a + b + c
  {
  }

  lemma SpacedTwo(a: string, b: string)
    ensures Spaced([a, b]) == " " + a + " " + b
  {
    assert [a, b][..1] == [a];
    assert Spaced([a]) == " " + a by {
      assert [a][..0] == [];
    }
  }

  lemma SpacedOne(a: string)
    ensures Spaced([a]) == " " + a
  {
    assert [a][..0] == [];
  }

  /** A binary node prints as "(" + operator + " " + left + " " + right + ")". */
  lemma ShowBinary(left: Expr, op: Token, right: Expr, numText: real -> string)
    ensures Show(Binary(left, op, right), numText)
            == "(" + op.lexeme + " " + Show(left, numText) + " " + Show(right, numText) + ")"
  {
    var l, r := Show(left, numText), Show(right, numText);
    var a := "(" + op.lexeme;
    SpacedTwo(l, r);
    Assoc(a, " " + l + " ", r);
    Assoc(a, " " + l, " ");
    Assoc(a, " ", l);
  }

  /** A grouping prints as "(group " + inner + ")". */
  lemma ShowGrouping(inner: Expr, numText: real -> string)
    ensures Show(Grouping(inner), numText) == "(group " + Show(inner, numText) + ")"
  {
    SpacedOne(Show(inner, numText));
  }

  /** A unary node prints as "(" + operator + " " + operand + ")". */
  lemma ShowUnary(op: Token, right: Expr, numText: real -> string)
    ensures Show(Unary(op, right), numText) == "(" + op.lexeme + " " + Show(right, numText) + ")"
  {
    SpacedOne(Show(right, numText));
  }

  /** `-123 * (45.67)` prints as "(* (- 123) (group 45.67))". */
  lemma PrintExample(numText: real -> string)
    requires numText(123.0) == "123" && numText(45.67) == "45.67"
    ensures var minus, star := Token(TokenType.Minus, "-", Null, 1), Token(TokenType.Star, "*", Null, 1);
            Show(Binary(Unary(minus, Literal(Num(123.0))), star, Grouping(Literal(Num(45.67)))), numText)
            == "(* (- 123) (group 45.67))"
  {
    var minus, star := Token(TokenType.Minus, "-", Null, 1), Token(TokenType.Star, "*", Null, 1);
    ShowUnary(minus, Literal(Num(123.0)), numText);
    ShowGrouping(Literal(Num(45.67)), numText);
    ShowBinary(Unary(minus, Literal(Num(123.0))), star, Grouping(Literal(Num(45.67))), numText);
  }

  // ---------------------------------------------------------------------------------------
  // Balanced parentheses

  function Delta(c: char): int
  {
    if c == '(' then 1 else if c == ')' then -1 else 0
  }

  /** Opening minus closing parentheses in s. */
  function Net(s: string): int
  {
    if s == [] then 0 else Delta(s[0]) + Net(s[1..])
  }

  /** Scanning s from depth d never closes more parentheses than are open. */
  predicate NeverBelow(s: string, d: int)
  {
    s == [] || (d + Delta(s[0]) >= 0 && NeverBelow(s[1..], d + Delta(s[0])))
  }

  predicate Balanced(s: string)
  {
    Net(s) == 0 && NeverBelow(s, 0)
  }

  predicate ParenFree(s: string)
  {
    forall i | 0 <= i < |s| :: s[i] != '(' && s[i] != ')'
  }

  /** No lexeme and no literal text in e contains a parenthesis. */
  predicate TextsParenFree(e: Expr, numText: real -> string)
  {
    match e
    case Literal(o) => ParenFree(LiteralText(o, numText))
    case Binary(left, op, right) => ParenFree(op.lexeme) && TextsParenFree(left, numText) && TextsParenFree(right, numText)
    case Grouping(inner) => TextsParenFree(inner, numText)
    case Unary(op, right) => ParenFree(op.lexeme) && TextsParenFree(right, numText)
  }

  lemma {:induction false} NetAppend(a: string, b: string)
    ensures Net(a + b) == Net(a) + Net(b)
  {
    if a == [] {
      assert a + b == b;
    } else {
      assert (a + b)[0] == a[0] && (a + b)[1..] == a[1..] + b;
      NetAppend(a[1..], b);
    }
  }

  lemma {:induction false} NeverBelowAppend(a: string, b: string, d: int)
    requires NeverBelow(a, d) && NeverBelow(b, d + Net(a))
    ensures NeverBelow(a + b, d)
  {
    if a == [] {
      assert a + b == b;
    } else {
      assert (a + b)[0] == a[0] && (a + b)[1..] == a[1..] + b;
      NeverBelowAppend(a[1..], b, d + Delta(a[0]));
    }
  }

  lemma {:induction false} NeverBelowDeeper(s: string, d: int, e: int)
    requires NeverBelow(s, d) && d <= e
    ensures NeverBelow(s, e)
  {
    if s != [] {
      NeverBelowDeeper(s[1..], d + Delta(s[0]), e + Delta(s[0]));
    }
  }

  lemma {:induction false} ParenFreeNeutral(s: string, d: int)
    requires ParenFree(s) && d >= 0
    ensures Net(s) == 0 && NeverBelow(s, d)
  {
    if s != [] {
      assert ParenFree(s[1..]) by {
        assert forall i | 0 <= i < |s[1..]| :: s[1..][i] == s[i + 1];
      }
      ParenFreeNeutral(s[1..], d);
    }
  }

  /** Balanced operands after a parenthesis-free name, from depth 1: the interior of a node. */
  lemma {:induction false} SpacedBalanced(parts: seq<string>)
    requires forall i | 0 <= i < |parts| :: Balanced(parts[i])
    ensures Net(Spaced(parts)) == 0 && NeverBelow(Spaced(parts), 1)
    decreases |parts|
  {
    if parts != [] {
      var init, last := parts[..|parts| - 1], parts[|parts| - 1];
      assert forall i | 0 <= i < |init| :: init[i] == parts[i];
      SpacedBalanced(init);
      ParenFreeNeutral(" ", 1);
      NeverBelowDeeper(last, 0, 1);
      NetAppend(Spaced(init), " ");
      NetAppend(Spaced(init) + " ", last);
      NeverBelowAppend(Spaced(init), " ", 1);
      NeverBelowAppend(Spaced(init) + " ", last, 1);
    }
  }

  lemma ParenBalanced(name: string, parts: seq<string>)
    requires ParenFree(name) && forall i | 0 <= i < |parts| :: Balanced(parts[i])
    ensures Balanced(Paren(name, parts))
  {
    var inner := Spaced(parts);
    SpacedBalanced(parts);
    ParenFreeNeutral(name, 1);
    NetAppend(name, inner);
    NeverBelowAppend(name, inner, 1);
    var body := name + inner + ")";
    assert NeverBelow(")", 1) && Net(")") == -1;
    NetAppend(name + inner, ")");
    NeverBelowAppend(name + inner, ")", 1);
    var whole := "(" + body;
    assert whole == Paren(name, parts);
    assert whole[0] == '(' && whole[1..] == body;
  }

  /** If no lexeme or literal text contains a parenthesis, the printed form is balanced. */
  lemma {:induction false} ShowBalanced(e: Expr, numText: real -> string)
    requires TextsParenFree(e, numText)
    ensures Balanced(Show(e, numText))
    decreases e
  {
    match e
    case Literal(o) =>
      ParenFreeNeutral(LiteralText(o, numText), 0);
    case Binary(left, op, right) =>
      ShowBalanced(left, numText);
      ShowBalanced(right, numText);
      ParenBalanced(op.lexeme, [Show(left, numText), Show(right, numText)]);
    case Grouping(inner) =>
      ShowBalanced(inner, numText);
      assert ParenFree("group");
      ParenBalanced("group", [Show(inner, numText)]);
    case Unary(op, right) =>
      ShowBalanced(right, numText);
      ParenBalanced(op.lexeme, [Show(right, numText)]);
  }

  // ---------------------------------------------------------------------------------------
  // The printer

  function Size(e: Expr): nat
  {
    match e
    case Literal(_) => 1
    case Binary(left, _, right) => 1 + Size(left) + Size(right)
    case Grouping(inner) => 1 + Size(inner)
    case Unary(_, right) => 1 + Size(right)
  }

  /** Print and the Visit methods: dispatch on the node kind. */
  method Print(e: Expr, numText: real -> string) returns (s: string)
    ensures s == Show(e, numText)
    decreases Size(e), 1
  {
    match e {
      case Literal(o) =>
        if o.Null? {
          return "nil";
        }
        return ObjectText(o, numText);
      case Binary(left, op, right) =>
        s := Parenthesize(op.lexeme, [left, right], numText, Size(e));
      case Grouping(inner) =>
        s := Parenthesize("group", [inner], numText, Size(e));
      case Unary(op, right) =>
        s := Parenthesize(op.lexeme, [right], numText, Size(e));
    }
    ShowIsParen(e, numText);
  }

  /** parenthesize: "(" + name, then " " and the printed form of each operand in turn, then ")". */
  method Parenthesize(name: string, exprs: seq<Expr>, numText: real -> string, ghost bound: nat) returns (s: string)
    requires forall i | 0 <= i < |exprs| :: Size(exprs[i]) < bound
    ensures s == Paren(name, ShowAll(exprs, numText))
    decreases bound, 0
  {
    s := "(" + name;
    for i := 0 to |exprs|
      invariant s == "(" + name + Spaced(ShowAll(exprs[..i], numText))
    {
      s := s + " ";
      var val := Print(exprs[i], numText);
      s := s + val;
      assert exprs[..i + 1][..i] == exprs[..i];
    }
    assert exprs[..|exprs|] == exprs;
    s := s + ")";
  }
}
