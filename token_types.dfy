/** The token-kind enumeration and the keyword table (util/types.go). */
module TokenTypes {

  /** Token kinds in declaration order; `NoType` is the sentinel that a failed keyword lookup yields. */
  datatype TokenType =
    | NoType
    // single-character tokens
    | LeftParen | RightParen | LeftBrace | RightBrace
    | Comma | Dot | Minus | Plus | Semicolon | Slash | Star
    // one- or two-character tokens
    | Bang | BangEqual | Equal | EqualEqual
    | Great | GreatEqual | Less | LessEqual
    // literals
    | Identifier | String | Number
    // keywords
    | And | Class | Else | False | Fun | For | If | Nil | Or
    | Print | Return | Super | This | True | Var | While
    // end of input
    | Eof

  /** The integer the Go `iota` enumeration assigns to each kind. */
  function Ordinal(t: TokenType): nat
  {
    match t
    case NoType => 0
    case LeftParen => 1 case RightParen => 2 case LeftBrace => 3 case RightBrace => 4
    case Comma => 5 case Dot => 6 case Minus => 7 case Plus => 8
    case Semicolon => 9 case Slash => 10 case Star => 11
    case Bang => 12 case BangEqual => 13 case Equal => 14 case EqualEqual => 15
    case Great => 16 case GreatEqual => 17 case Less => 18 case LessEqual => 19
    case Identifier => 20 case String => 21 case Number => 22
    case And => 23 case Class => 24 case Else => 25 case False => 26
    case Fun => 27 case For => 28 case If => 29 case Nil => 30
    case Or => 31 case Print => 32 case Return => 33 case Super => 34
    case This => 35 case True => 36 case Var => 37 case While => 38
    case Eof => 39
  }

  /** Inverse of Ordinal on 0..39. */
  function FromOrdinal(n: nat): TokenType
    requires n <= 39
  {
    match n
    case 0 => NoType case 1 => LeftParen case 2 => RightParen case 3 => LeftBrace
    case 4 => RightBrace case 5 => Comma case 6 => Dot case 7 => Minus
    case 8 => Plus case 9 => Semicolon case 10 => Slash case 11 => Star
    case 12 => Bang case 13 => BangEqual case 14 => Equal case 15 => EqualEqual
    case 16 => Great case 17 => GreatEqual case 18 => Less case 19 => LessEqual
    case 20 => Identifier case 21 => String case 22 => Number case 23 => And
    case 24 => Class case 25 => Else case 26 => False case 27 => Fun
    case 28 => For case 29 => If case 30 => Nil case 31 => Or
    case 32 => Print case 33 => Return case 34 => Super case 35 => This
    case 36 => True case 37 => Var case 38 => While case _ => Eof
  }

  /** Distinct kinds have distinct ordinals: the ordinal determines the kind. */
  lemma OrdinalInjective(t: TokenType)
    ensures Ordinal(t) <= 39 && FromOrdinal(Ordinal(t)) == t
  {
    match t
    case NoType =>
    case LeftParen => case RightParen => case LeftBrace => case RightBrace =>
    case Comma => case Dot => case Minus => case Plus =>
    case Semicolon => case Slash => case Star =>
    case Bang => case BangEqual => case Equal => case EqualEqual =>
    case Great => case GreatEqual => case Less => case LessEqual =>
    case Identifier => case String => case Number =>
    case And => case Class => case Else => case False =>
    case Fun => case For => case If => case Nil =>
    case Or => case Print => case Return => case Super =>
    case This => case True => case Var => case While =>
    case Eof =>
  }

  /** NO_TYPE is the zero value, so no real kind (in particular LEFT_PAREN) is 0. */
  lemma NoTypeIsZero(t: TokenType)
    ensures Ordinal(NoType) == 0
    ensures t != NoType ==> Ordinal(t) != 0
  {
    OrdinalInjective(t);
  }

  /** The reserved words. */
  const Keywords: map<string, TokenType> := map[
    "and" := And, "class" := Class, "else" := Else, "false" := False,
    "for" := For, "fun" := Fun, "if" := If, "nil" := Nil,
    "or" := Or, "print" := Print, "return" := Return, "super" := Super,
    "this" := This, "true" := True, "var" := Var, "while" := While]

  /** True of the sixteen keyword kinds, AND..WHILE. */
  predicate IsKeywordKind(t: TokenType)
  {
    Ordinal(And) <= Ordinal(t) <= Ordinal(While)
  }

  /** The reserved word of a keyword kind, the inverse of the table. */
  function KeywordText(t: TokenType): string
  {
    match t
    case And => "and" case Class => "class" case Else => "else" case False => "false"
    case For => "for" case Fun => "fun" case If => "if" case Nil => "nil"
    case Or => "or" case Print => "print" case Return => "return" case Super => "super"
    case This => "this" case True => "true" case Var => "var" case While => "while"
    case _ => ""
  }

  /** The table holds exactly the sixteen reserved words. */
  lemma KeywordsDomain(w: string)
    ensures w in Keywords <==> w == "and" || w == "class" || w == "else" || w == "false" || w == "for" || w == "fun" || w == "if" || w == "nil" || w == "or" || w == "print" || w == "return" || w == "super" || w == "this" || w == "true" || w == "var" || w == "while"
  {
  }

  /** Each entry names a kind whose reserved word is the entry's word: the table is injective. */
  lemma KeywordsInjective()
    ensures forall w | w in Keywords :: KeywordText(Keywords[w]) == w
    ensures forall w, w' | w in Keywords && w' in Keywords && Keywords[w] == Keywords[w'] :: w == w'
  {
    forall w | w in Keywords
      ensures KeywordText(Keywords[w]) == w
    {
      KeywordsDomain(w);
      if w == "and" || w == "class" || w == "else" || w == "false" {
        KeywordEntries1(w);
      } else if w == "for" || w == "fun" || w == "if" || w == "nil" {
        KeywordEntries2(w);
      } else if w == "or" || w == "print" || w == "return" || w == "super" {
        KeywordEntries3(w);
      } else {
        KeywordEntries4(w);
      }
    }
  }

  /** The table entries, four at a time: each maps back to its word. */
  lemma KeywordEntries1(w: string)
    requires w == "and" || w == "class" || w == "else" || w == "false"
    ensures w in Keywords && KeywordText(Keywords[w]) == w
  {
  }

  lemma KeywordEntries2(w: string)
    requires w == "for" || w == "fun" || w == "if" || w == "nil"
    ensures w in Keywords && KeywordText(Keywords[w]) == w
  {
  }

  lemma KeywordEntries3(w: string)
    requires w == "or" || w == "print" || w == "return" || w == "super"
    ensures w in Keywords && KeywordText(Keywords[w]) == w
  {
  }

  lemma KeywordEntries4(w: string)
    requires w == "this" || w == "true" || w == "var" || w == "while"
    ensures w in Keywords && KeywordText(Keywords[w]) == w
  {
  }

  /** Every value of the table lies in the AND..WHILE block, so none is NO_TYPE. */
  lemma KeywordsInBlock()
    ensures forall w | w in Keywords :: IsKeywordKind(Keywords[w])
    ensures NoType !in Keywords.Values
  {
    forall w | w in Keywords
      ensures IsKeywordKind(Keywords[w])
    {
      KeywordsInjective();
      KeywordTextIsKeyword(Keywords[w]);
    }
  }

  /** Only the sixteen keyword kinds have a non-empty reserved word. */
  lemma KeywordTextIsKeyword(t: TokenType)
    ensures KeywordText(t) != "" ==> IsKeywordKind(t)
  {
  }

  /** `Keywords[text]` in Go: the kind of a reserved word, else the zero value NO_TYPE. */
  function KeywordLookup(text: string): (t: TokenType)
    ensures t == NoType <==> text !in Keywords
    ensures text in Keywords ==> t == Keywords[text]
  {
    KeywordsInBlock();
    if text in Keywords then Keywords[text] else NoType
  }
}
