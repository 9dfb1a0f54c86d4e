# Glox core in Dafny

This project models the core of Glox, a tree-walking interpreter for the Lox language
written in Go. The core is a pipeline:

- **Lexer** (`scanner.dfy`). A byte cursor turns source text into tokens.
- **Parser** (`parser.dfy`). A recursive-descent parser turns tokens into an expression tree.
- **Environment** (`environment.dfy`). A chain of scopes binds names to values.
- **Evaluator** (`interpreter.dfy`). It computes the value of an expression, and holds user
  functions with their call.
- **AST printer** (`ast_printer.dfy`). It prints a tree in parenthesised prefix form.

The shared data lives in the remaining files:

- `util.dfy`: the character classes and the global error flags.
- `token_types.dfy`: the token kinds and the keyword table.
- `tokens.dfy`: tokens and literal objects.
- `ast.dfy`: expression and statement nodes.
- `lox_error.dfy`: the runtime-error and return signals.

Where the Go code changes state, the model keeps that form.

- `Scanner.Scanner`, `Parser.Parser` and `Environment.Environment` are classes. Their fields
  are updated in place.
- Each method is proved against a pure specification function:
  - the scanner's `Step` and `Scan`;
  - the parser's `ExpressionAt`, `BinaryAt`, `UnaryAt`, `PrimaryAt`, `GroupAt` and
    `SynchronizeAt`;
  - the environment's `Lookup`, `DefineIn` and `AssignIn` on a sequence of scopes,
    innermost first.
- The properties are proved as lemmas about those functions.

The evaluator is pure in the Go code, and so it is here:

- Evaluation is a total function. Its result is one of three outcomes.
  - `Ok(value)` is a value.
  - `Err(RuntimeErr(token, msg))` is a runtime error.
  - `Panic(reason)` is a point where the Go program would panic: `reflect.TypeOf(nil)`, or a
    failed `.(string)` assertion.
- `LoxFunction.Call` is a method. It allocates a fresh `Environment` around the closure.
  It then runs the body through a parameter `exec`, which stands for `executeBlock`.

The Go sources disagree with the language description in a few places. The model follows
the code:

- An unterminated string is reported, and then the scanner reads past the end of the input.
  That read panics, so a whole scan with an unterminated string is `Crashed`.
- `nil` can make an operator panic in `typeOf` instead of giving a runtime error.
  - Unary `-` on `nil` panics.
  - `- * / < <= > >=` check the right operand, then the left. The first one that is not a
    number decides. If it is `nil`, the operator panics. Otherwise the result is the
    runtime error "Operand(s) must be a number". So `nil - 1` and `1 - nil` panic, but
    `nil - "a"` and `nil < true` are runtime errors.
  - `+` panics whenever either operand is `nil`.
  - `"a" + true` panics in the string assertion.
- `Call` does not check the argument count, and it indexes `args[k]` for every parameter.
  So the model requires `|args| >= Arity(f)`.
- `Parse` parses a single expression and gives `nil` on the first error. `synchronize`
  exists, but no rule calls it.

## Model

| member | source | states |
|---|---|---|
| Util.IsAlpha | util/util.go:35-37 | a letter is `a`..`z`, `A`..`Z` or `_`, as the source defines it |
| Util.IsDigit | util/util.go:43-45 | a digit is `0`..`9`, as the source defines it |
| Util.IsAlphaNumeric | util/util.go:39-41 | alphanumeric is letter or digit, as the source defines it |
| Util.DigitsAreExactly | util/util.go:43-45 | IsDigit holds exactly for the ten characters '0'..'9' |
| Util.AlphaDigitDisjoint | util/util.go:35-45 | no character is both a letter and a digit, and IsAlphaNumeric is exactly letter-or-digit |
| Util.ErrorFlags.constructor | util/util.go:8-9 | both error flags start false |
| Util.ErrorFlags.Report | util/util.go:25-31 | Report sets HadError, and changes nothing else |
| Util.ErrorFlags.Error | util/util.go:19-21 | Error goes through Report, so HadError is set |
| Util.ErrorFlags.ErrorRuntime | interpreter/interpreter.go:22-25 | reporting a runtime error sets HadRuntimeError and nothing else |
| TokenTypes.OrdinalInjective | util/types.go:8-63 | the iota ordinals 0..39 are distinct, and FromOrdinal inverts them |
| TokenTypes.NoTypeIsZero | util/types.go:9-13 | NO_TYPE is 0, and every other kind (LEFT_PAREN included) is non-zero |
| TokenTypes.KeywordsDomain | util/types.go:74-91 | the table's keys are exactly the sixteen reserved words |
| TokenTypes.KeywordsInjective | util/types.go:74-91 | each entry maps back to its own word through KeywordText, so no two words share a kind |
| TokenTypes.KeywordsInBlock | util/types.go:43-59 | every value of the table lies in the AND..WHILE block, so none is NO_TYPE |
| TokenTypes.KeywordLookup | util/types.go:74-91 | the lookup yields NO_TYPE exactly when the text is not a keyword, and the table's kind otherwise |
| Scanner.Decimal | scanner/scanner.go:169-171 | a number lexeme's value lies between its whole part and the next integer: the digits after the dot add less than one |
| Scanner.WholeBelowPow10 | scanner/scanner.go:169 | n digits are worth less than 10^n |
| Scanner.StringStep | scanner/scanner.go:133-151 | a string panics exactly when no quote follows; otherwise it ends just after the first closing quote, with no error, and the line grows by the newlines between the quotes |
| Scanner.Scan | scanner/scanner.go:29-37 | a completed scan yields at least the EOF and at most one token per remaining character plus the EOF |
| Scanner.RunEnd | scanner/scanner.go:119-121 | the end of a maximal run: every character before it is in the run, and the next one is not |
| Scanner.IdentifierKind | scanner/scanner.go:123-127 | a keyword's text gets the keyword kind; any other text gets IDENTIFIER |
| Scanner.NumberEnd | scanner/scanner.go:154-166 | a number lexeme ends within the source, after its first digit |
| Scanner.Step | scanner/scanner.go:40-114 | a scanToken that does not panic consumes at least one character and stays within the source |
| Scanner.StepLine | scanner/scanner.go:101-102 | after a step the line has grown by exactly the newlines in the consumed span, counting those inside strings |
| Scanner.ScanEndsWithEof | scanner/scanner.go:29-37 | a completed scan ends with exactly one EOF, with empty lexeme, nil literal and the final line |
| Scanner.TwoCharOperators | scanner/scanner.go:63-86 | `!` `=` `<` `>` followed by `=` give the two-character kind and lexeme; otherwise the one-character kind |
| Scanner.CommentSkipped | scanner/scanner.go:87-91 | `//` emits nothing, reports nothing, and stops at the next newline (not past it) or at the end |
| Scanner.LoneSlash | scanner/scanner.go:92-94 | a `/` not followed by `/` emits SLASH with lexeme "/" |
| Scanner.WhitespaceSkipped | scanner/scanner.go:95-102 | space, CR and tab are dropped; a newline is dropped and adds one to the line |
| Scanner.UnexpectedCharacter | scanner/scanner.go:105-112 | any other character emits no token, is consumed, and is reported |
| Scanner.IdentifierMaximal | scanner/scanner.go:118-130 | an identifier is the longest alphanumeric run, and only that whole text is looked up as a keyword |
| Scanner.ForeverIsIdentifier | scanner/scanner.go:118-130 | `forever` scans to a single IDENTIFIER and then EOF |
| Scanner.StringLiteral | scanner/scanner.go:133-151 | a string runs to the first closing quote, and its literal is the text between the quotes; it panics exactly when no quote follows |
| Scanner.NumberFraction | scanner/scanner.go:154-166 | a number takes a fraction only when the dot after its digits is followed by a digit |
| Scanner.OneDotIsNumberThenDot | scanner/scanner.go:154-166 | `1.` scans to NUMBER 1, then DOT, then EOF |
| Scanner.Scanner.constructor | scanner/scanner.go:18-25 | a new scanner has no tokens, both cursors at 0 and line 1 |
| Scanner.Scanner.IsAtEnd | scanner/scanner.go:203-205 | at end exactly when the cursor is at or past the end of the source |
| Scanner.Scanner.Peek | scanner/scanner.go:185-191 | peek is the character at the cursor, or 0 at the end |
| Scanner.Scanner.PeekNext | scanner/scanner.go:194-200 | peekNext is the character after the cursor, or 0 when there is none |
| Scanner.Scanner.Advance | scanner/scanner.go:208-212 | advance returns the current character and moves the cursor by one |
| Scanner.Scanner.Match | scanner/scanner.go:175-182 | match advances by one exactly when the next character is the expected one |
| Scanner.Scanner.AddToken | scanner/scanner.go:215-218 | the appended token's lexeme is exactly src[start:current], at the current line |
| Scanner.Scanner.AdvanceWhile | scanner/scanner.go:89-91 | the skipping loop stops at the end of the run (RunEnd) |
| Scanner.Scanner.ScanIdentifier | scanner/scanner.go:118-130 | identifier consumes the alphanumeric run and appends the keyword or IDENTIFIER token |
| Scanner.Scanner.StringBody | scanner/scanner.go:134-139 | the string loop stops at the closing quote or the end, counting the newlines it passed |
| Scanner.Scanner.ScanString | scanner/scanner.go:133-151 | string either appends the token its step describes, or reports and signals the panic |
| Scanner.Scanner.ScanNumber | scanner/scanner.go:154-172 | number consumes up to NumberEnd and appends NUMBER with the lexeme's value |
| Scanner.Scanner.ScanSingle | scanner/scanner.go:43-62 | each single-character case appends its kind, as Step says |
| Scanner.Scanner.ScanOperator | scanner/scanner.go:63-86 | the four operator cases follow Step |
| Scanner.Scanner.ScanSlash | scanner/scanner.go:87-94 | a comment or SLASH, as Step says |
| Scanner.Scanner.ScanOther | scanner/scanner.go:105-113 | a number, an identifier or an error report, as Step says |
| Scanner.Scanner.ScanWord | scanner/scanner.go:106-109 | a digit starts a number and a letter an identifier; each appends the token Step describes |
| Scanner.Scanner.ScanToken | scanner/scanner.go:40-114 | one scanToken leaves the cursor, line, tokens and error flag that Step describes, or signals the panic |
| Scanner.Scanner.ScanTokens | scanner/scanner.go:29-37 | the whole scan's tokens and error flag are those of Scan, with EOF appended |
| Parser.ExpressionAt | parser/parser.go:42-44 | a parsed expression consumes at least one token and stops before the EOF |
| Parser.OperandAt | parser/parser.go:48 | the operand rule of a level consumes at least one token and stays before the EOF |
| Parser.BinaryAt | parser/parser.go:47-120 | a binary level consumes at least one token and stays before the EOF |
| Parser.BinaryRest | parser/parser.go:53-60 | the operator loop never moves the cursor back or past the EOF |
| Parser.UnaryAt | parser/parser.go:123-134 | unary consumes at least one token and stays before the EOF |
| Parser.PrimaryAt | parser/parser.go:137-160 | primary consumes at least one token and stays before the EOF |
| Parser.GroupAt | parser/parser.go:147-156 | a parenthesised expression consumes its tokens and the `)`, staying before the EOF |
| Parser.ParseAt | parser/parser.go:30-39 | Parse gives nil exactly when the expression rule failed, and the tree otherwise |
| Parser.ExpressionOutcome | parser/parser.go:42-44 | the tree respects precedence and reads back as exactly the tokens consumed, or the error is one of the two messages at an offending token |
| Parser.OperandOutcome | parser/parser.go:48 | an operand binds tighter than its level |
| Parser.BinaryOutcome | parser/parser.go:47-120 | a level's tree has operators of that level or tighter, nested to the left, and reads back as exactly the tokens consumed |
| Parser.RestOutcome | parser/parser.go:53-60 | the loop folds to the left: each new node's right operand binds strictly tighter |
| Parser.UnaryOutcome | parser/parser.go:123-134 | unary yields a unary chain over a primary that reads back as the tokens consumed, or a parse error |
| Parser.PrimaryOutcome | parser/parser.go:137-160 | primary yields a literal or grouping; "Expect expression." only at a token no primary starts with |
| Parser.GroupOutcome | parser/parser.go:147-156 | "Expect ')' after expression." only at a token other than `)` |
| Parser.ParseOutcome | parser/parser.go:30-44 | the whole parse is a precedence-shaped tree that reads back as the tokens it consumed, or a ParseError at an offending token |
| Parser.Symbols | parser/parser.go:137-156 | the read-back of a token range has one symbol per token |
| Parser.SymbolsSplit | parser/parser.go:47-60 | the read-back of a range is the read-back of its two halves, concatenated |
| Parser.ExpressionYield | parser/parser.go:42-44 | a parsed expression, read back, is exactly the tokens from its start to where the cursor stopped |
| Parser.OperandYield | parser/parser.go:48 | an operand, read back, is exactly the tokens it consumed |
| Parser.BinaryYield | parser/parser.go:47-120 | a binary level's tree, read back, is exactly the tokens it consumed |
| Parser.RestYield | parser/parser.go:53-60 | each loop turn appends its operator token and its operand's tokens to the read-back of the left tree |
| Parser.UnaryYield | parser/parser.go:123-134 | a unary tree, read back, is its operator tokens followed by its operand's tokens |
| Parser.PrimaryYield | parser/parser.go:137-160 | a literal reads back as its one token; a grouping as its parentheses around the inner tokens |
| Parser.GroupYield | parser/parser.go:147-156 | after `(`, a grouping reads back as the `(`, the inner expression's tokens and the `)` |
| Parser.MinusIsLeftAssociative | parser/parser.go:85-101 | `1 - 2 - 3` parses as `(1 - 2) - 3` |
| Parser.FactorBindsTighterThanTermAndEquality | parser/parser.go:42-120 | `1 + 2 * 3 == 7` parses as `(1 + (2 * 3)) == 7` |
| Parser.UnaryIsRightRecursive | parser/parser.go:123-134 | `!-1` parses as `!(-1)` |
| Parser.MissingParenExample | parser/parser.go:147-156 | `(1` fails with "Expect ')' after expression." at the EOF |
| Parser.ExpectExpressionExample | parser/parser.go:159 | `*` fails with "Expect expression." at the `*` |
| Parser.SynchronizeStops | parser/parser.go:224-253 | synchronize skips the current token, then stops at the first position after a `;`, before a statement keyword, or at EOF |
| Parser.Parser.constructor | parser/parser.go:26-28 | a new parser starts at token 0 |
| Parser.Parser.Peek | parser/parser.go:207-209 | peek is the token at the cursor, and on the last position it is the EOF |
| Parser.Parser.Previous | parser/parser.go:212-217 | previous is the token before the cursor, or the zero token at position 0 |
| Parser.Parser.IsAtEnd | parser/parser.go:202-204 | at end exactly when the current token is EOF |
| Parser.Parser.Check | parser/parser.go:184-190 | check is false at EOF for every kind; otherwise it compares the current kind |
| Parser.Parser.Advance | parser/parser.go:193-199 | advance returns the consumed token and moves by one; at EOF it stays and returns previous() |
| Parser.Parser.Match | parser/parser.go:164-173 | match consumes one token exactly when the current kind is among the arguments, and otherwise leaves the cursor |
| Parser.Parser.Consume | parser/parser.go:175-181 | consume returns the expected token and advances, or returns a ParseError at the current token without moving |
| Parser.Parser.ExpressionRule | parser/parser.go:42-44 | expression returns what ExpressionAt says, with the cursor after it |
| Parser.Parser.OperandRule | parser/parser.go:47-120 | each level calls the next tighter rule, as OperandAt says |
| Parser.Parser.BinaryRule | parser/parser.go:47-120 | equality, comparison, term and factor return what BinaryAt says |
| Parser.Parser.NextOperand | parser/parser.go:53-60 | one loop turn builds the node BinaryRest folds, or returns its error |
| Parser.Parser.UnaryRule | parser/parser.go:123-134 | unary returns what UnaryAt says |
| Parser.Parser.PrimaryRule | parser/parser.go:137-160 | primary returns what PrimaryAt says |
| Parser.Parser.GroupRule | parser/parser.go:147-156 | the parenthesised case returns what GroupAt says |
| Parser.Parser.Parse | parser/parser.go:30-39 | Parse returns what ParseAt says |
| Parser.Parser.Synchronize | parser/parser.go:224-253 | synchronize leaves the cursor where SynchronizeAt says |
| Environment.Resolve | environment/environment.go:40-47 | the index found is the innermost scope binding the name; None means no scope binds it |
| Environment.Lookup | environment/environment.go:40-49 | lookup succeeds exactly when some scope binds the name; otherwise "Undefined variable '<name>'" on the token |
| Environment.DefineThenGet | environment/environment.go:34-43 | after Define(n, v), Get(n) gives v, and every other name resolves as before |
| Environment.AssignThenGet | environment/environment.go:54-65 | Assign fails exactly when Get fails; on success only the innermost binding scope changes, no key is added, Get(n) gives v and other names are untouched |
| Environment.Environment.constructor | environment/environment.go:24-31 | a new scope has no bindings and encloses exactly the given scope, or none |
| Environment.Environment.Define | environment/environment.go:34-36 | Define rebinds the name in this scope only |
| Environment.Environment.Get | environment/environment.go:40-50 | Get returns Lookup of the scope chain |
| Environment.Environment.Assign | environment/environment.go:54-65 | Assign leaves the chain as AssignIn says, or fails with the undefined-variable error and changes nothing |
| Interpreter.ValueOf | interpreter/interpreter.go:42-44 | a literal evaluates to its own object, never a function, nil exactly for nil |
| Interpreter.IsTruthy | interpreter/interpreter.go:164-174 | only nil and false are falsey; every other value, 0 and "" included, is truthy |
| Interpreter.IsEqual | interpreter/interpreter.go:176-184 | isEqual is exactly equality of the values (nil equals only nil) |
| Interpreter.EqualitySymmetric | interpreter/interpreter.go:176-184 | isEqual is symmetric, and nil equals exactly nil |
| Interpreter.VerifyNumbers | interpreter/interpreter.go:198-206 | succeeds exactly when every operand is a number; otherwise the first non-number gives "Operand(s) must be a number", or a panic if it is nil |
| Interpreter.UnaryOp | interpreter/interpreter.go:56-67 | `!` negates truthiness; `-` negates a number, panics on nil, errors on other values; other operators give nil |
| Interpreter.Add | interpreter/interpreter.go:122-137 | `+` is an error exactly when neither side is nil or a string and not both are numbers; a value is the number sum or a string |
| Interpreter.BinaryOp | interpreter/interpreter.go:80-157 | an error is a runtime error on the operator; `==` and `!=` never fail and give booleans; comparisons give booleans, arithmetic numbers; an unknown operator gives nil |
| Interpreter.NumericOp | interpreter/interpreter.go:80-154 | a numeric operator errors on its own token and succeeds only on two numbers |
| Interpreter.Arithmetic | interpreter/interpreter.go:80-154 | on two numbers only division by zero fails; comparisons give booleans, arithmetic numbers |
| Interpreter.Evaluate | interpreter/interpreter.go:42-162 | an expression never raises a return signal, and every runtime error it raises is on one of its own operator tokens |
| Interpreter.NotEqualIsNegation | interpreter/interpreter.go:109-113 | `==` never fails and is value equality; `!=` is its negation |
| Interpreter.NumericOperatorsNeedNumbers | interpreter/interpreter.go:80-154 | `- * / > >= < <=` succeed only on two numbers; a non-number is an error on the operator, checked right before left |
| Interpreter.DivisionByZero | interpreter/interpreter.go:139-147 | division by zero is "Cannot divide by zero"; otherwise the quotient |
| Interpreter.PlusOverloads | interpreter/interpreter.go:122-137 | `+` adds numbers, concatenates when a side is a string (a number side turned to text), and errors otherwise |
| Interpreter.LeftEvaluatedFirst | interpreter/interpreter.go:70-74 | a failing left operand is the result of the binary expression, whatever the right |
| Interpreter.RightErrorPropagates | interpreter/interpreter.go:75-78 | a failing right operand after a good left one is the result |
| Interpreter.UnaryOperators | interpreter/interpreter.go:50-65 | evaluating a unary node applies the operator to the operand's value |
| Interpreter.LiteralsNeverFail | interpreter/interpreter.go:42-48 | literals and groupings of literals always evaluate to a value |
| Interpreter.Stringify | interpreter/interpreter.go:186-192 | nil prints "nil", booleans "true"/"false", strings as themselves |
| Interpreter.Interpret | interpreter/interpreter.go:32-40 | a runtime error is reported with its own token and message, not printed; a panic aborts; a value is printed in its stringified form |
| Interpreter.Arity | interpreter/loxFunction.go:37-39 | arity is the number of declared parameters |
| Interpreter.ToString | interpreter/loxFunction.go:41-43 | the text is "<fn " + name lexeme + ">" |
| Interpreter.Bindings | interpreter/loxFunction.go:22-24 | the fresh scope binds exactly the parameter names |
| Interpreter.BindingsHoldArguments | interpreter/loxFunction.go:22-24 | parameter k is bound to args[k], unless a later parameter has the same name |
| Interpreter.CallResult | interpreter/loxFunction.go:26-34 | a return signal becomes the call's value; another error propagates; normal completion gives nil |
| Interpreter.Call | interpreter/loxFunction.go:20-35 | the body runs in a fresh scope holding the parameters that encloses the closure; the closure is unchanged |
| AstPrinter.ShowIsParen | ast/astPrinter.go:20-38 | every non-literal node prints as parenthesize of its name over its operands |
| AstPrinter.ShowBinary | ast/astPrinter.go:20-22 | a binary node prints as "(" + operator + " " + left + " " + right + ")" |
| AstPrinter.ShowGrouping | ast/astPrinter.go:24-26 | a grouping prints as "(group " + inner + ")" |
| AstPrinter.ShowUnary | ast/astPrinter.go:36-38 | a unary node prints as "(" + operator + " " + operand + ")" |
| AstPrinter.PrintExample | ast/astPrinter.go:13-52 | `-123 * (45.67)` prints as "(* (- 123) (group 45.67))" |
| AstPrinter.ParenBalanced | ast/astPrinter.go:41-52 | parenthesize of a parenthesis-free name over balanced parts is balanced |
| AstPrinter.ShowBalanced | ast/astPrinter.go:41-52 | if no lexeme or literal text holds a parenthesis, the printed form is balanced |
| AstPrinter.Print | ast/astPrinter.go:13-38 | Print returns Show of the tree ("nil" for a nil literal) |
| AstPrinter.Parenthesize | ast/astPrinter.go:41-52 | "(" + name, then one space and the printed form of each operand in order, then ")" |

## Left out

- lox.go is not part of this model. It holds the command line, file reading, the REPL and
  the exit codes, which are I/O.
- tools/generateAst.go writes Go source files. Only its node table gives the shape of `Ast`.
- interpreter/nativeFuncs.go reads the wall clock, so it is left out.
- interpreter/function.go is an older copy of LoxFunction in the same package. It conflicts
  with loxFunction.go and is left out.
- interpreter/callable.go is an interface with no logic. A callable is the `FnVal` variant.
- Printing to stdout and stderr is left out. This covers `Report`, `ErrorRuntime`,
  `Interpret`'s `Println` and the `Error()` methods that format errors. Only the
  returned results and the flags are modelled.
- The parser's `err` helper calls `TokenError`, which is not defined in any of these files.
  The model keeps only the `ParseError` value it returns.
- `util.Check` panics on a non-nil error. Its only use is after `ParseFloat`, whose error is
  not modelled (next line).
- Number literals are exact reals: `Decimal` gives the exact decimal value of the lexeme.
  `strconv.ParseFloat`'s rounding and its out-of-range error are not modelled.
- Go's `%v` formatting of a float64 is the parameter `numText`, and that of a function value
  is the parameter `fnText`. Neither is interpreted.
- `reflect.DeepEqual` is datatype equality. For two function values this compares the
  declaration and the closure reference. Go's `DeepEqual` follows pointers, so it would
  compare the closures' scope contents instead. Function values only come from
  declarations, which the modelled grammar does not parse, so no modelled expression
  compares two of them.
- Source text is a `seq<char>`, one char per Go byte. Multi-byte UTF-8 is not modelled.
- Statements, assignment, logical operators, variables and calls are not parsed or evaluated
  by the Go files modelled here. Only the statement datatype exists, for function bodies.
- Interpreter.Call: `executeBlock` is not defined in these files. It is the parameter
  `exec`, a pure function of the body and the scope chain. So the model does not capture a
  body that changes the closure's bindings.
- Interpreter.Call: requires `|args| >= Arity(f)`. With fewer arguments the Go code panics
  on `args[k]`.
- Parser.Parser.constructor: requires a token list that ends with EOF, as `ScanTokens` always
  produces (Scanner.ScanEndsWithEof). On other input, `peek` would index out of range.
- Parser.ParseOutcome: the tree is shown to be precedence-shaped and to read back as the
  consumed tokens. That a shaped tree with a given read-back is unique is not proved.
- Parser.Parser.BinaryRule: the four methods `equality`, `comparison`, `term` and `factor` are
  one method over a `Level`. Each level has its operator list and the next tighter rule.
- Parser.Parser.GroupRule: the `(` case of `primary` is split into this method, and the body
  of the `for p.match(...)` loop into Parser.Parser.NextOperand.
- Scanner.Scanner.ScanToken: the cases of the `switch` are grouped into ScanSingle,
  ScanOperator, ScanSlash and ScanOther, and ScanOther's number and identifier cases into
  ScanWord. A panic (advancing past the end after an
  unterminated string) is signalled by `ok == false` instead of aborting.
