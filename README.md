# calculator, modelled in Dafny

A model of the Go arithmetic calculator wangkekekexili/calculator. It has two cores.

**The expression pipeline.**
- **Scanner** (lexer.go). A cursor `pos` over the input. It skips `' '` and yields one token per call: a Number for a maximal digit run, one of `+ - * / ( )`, EOF at the end, or an Error token for any other character.
- **Tree parser** (parser.go) and **interpreter** (interpreter.go). Both are recursive descent with one token of lookahead, `currentToken`, which `eat` advances. They share one grammar:
  - `expr := term (('+'|'-') term)*`
  - `term := factor (('*'|'/') factor)*`
  - `factor := number ('^' number)?`
  - `number := Number | '(' expr ')'`
  
  The parser builds a tree and the interpreter computes a value.
- **Tokens** (token.go). The token kinds, the unexpected-token error and its message.
- **Entry point** (calculator.go). `Do` runs `expr` on a fresh interpreter.

**The stack.** util/stack/stack.go is a LIFO over a slice that gives nil when it is empty.

How the model is built:
- Each grammar rule has a pure meaning: the `Parse*` and `Interp*` functions, over any token source that behaves like the scanner (`Lookahead.Steps`). `Lookahead.Lex` is the scanner itself, `Lexing.Next`.
- The Go objects are Dafny classes: `Lexing.Lexer`, `Parsing.Parser`, `Interpreting.Interpreter` and `Stacks.Stack`. Their methods update the fields as the Go code does, with the same loops. Each `Parser` and `Interpreter` method is proved to follow its pure rule (`Lookahead.Follows`). The `Lexer` methods are proved against `Next`, `SkipSpaces` and `DigitRunEnd`, and the `Stack` methods against `Top` and `Rest`.
- Two partner definitions sit beside the source:
  - `Evaluation.Eval`, a tree evaluator. The interpreter is proved to compute `Eval` of the tree the parser builds, with the same state and the same errors.
  - `Printing.PrintExpr`, a printer with minimal parentheses. The parser is proved to read any printed tree back as that very tree, which pins down precedence and left association.

Where the code departs from what its names or grammar suggest, the model follows the code:
- `tokenTypePower`, `tokenTypeLParen` and `tokenTypeRParen` are used by parser.go and interpreter.go but not declared in token.go:10-19. They are added after the seven declared kinds, with constants 8 to 10 and no entry in the name table, so their name is `""`.
- The scanner has no case for `^`, so `^` is an Error token. The power branch of `factor` is reached only from a token list (`Streams`).
- There are no unary signs and no decimal points, so `-3` starts with a Minus token and `.` is an Error token.
- `Do` calls `expr()`, not `calculate()`, so tokens after a complete expression are ignored: `"1 2"` gives 1.

## Model

| member | source | states |
|---|---|---|
| Decimal.NatToString | token.go:50 | The `%d` rendering of an index is a non-empty digit string with no leading zero |
| Decimal.DecimalOfNatToString | token.go:50 | Reading a rendered number back gives the number |
| Decimal.NatToStringInjective | token.go:50 | Distinct naturals render differently |
| Decimal.IntToString | token.go:50 | `%d` of an integer: a leading `-` exactly when it is negative, then the digits of its magnitude |
| Decimal.IntToStringInjective | token.go:50 | Distinct indices render differently, so a message names its index unambiguously |
| Decimal.DecimalValue | lexer.go:37 | The value read from a digit run of length n lies below 10^n |
| Decimal.DigitChar | token.go:50 | A digit below ten renders as a digit character of that value |
| Decimal.DigitValue | lexer.go:31 | A digit character has a value below ten |
| Tokens.Code | token.go:10-19 | Kind constants run from 1 (iota after `_`), so 0 is no kind. The seven declared kinds take 1..7 and the three added ones take 8..10 |
| Tokens.CodeInjective | token.go:10-19 | Distinct kinds have distinct constants |
| Tokens.TypeNames | token.go:21-31 | `TypeName` is the name table: exactly the seven declared kinds have names; those names are distinct; the added kinds read as `""` |
| Tokens.NewUnexpectedTokenError | token.go:39-45 | The error stores the index, the token and the expected kinds in the order given |
| Tokens.Names | token.go:53-55 | One name per expected kind, in list order, each taken from the table |
| Tokens.Join | token.go:56 | `strings.Join`: empty for no parts; otherwise it starts with the first part, and its length is that of the parts plus one separator fewer than the parts |
| Tokens.JoinSnoc | token.go:56 | Joining one more part appends the separator and that part |
| Tokens.ExpectedInOrder | token.go:53-56 | The expected names appear in list order: one more expected kind adds `" or "` and its name at the end |
| Tokens.Message | token.go:47-57 | Both forms of the message open with `"Index: <i>. "` and close with `" token <name>."` for the token found |
| Tokens.ErrorMessage | token.go:47-57 | The loop that collects names, then joins them, renders exactly `Message` |
| Tokens.MessageWithoutExpected | token.go:49-51 | With no expected kinds: `"Index: 3. Unexpected token plus."` |
| Tokens.MessageWithExpected | token.go:52-56 | Expected names are joined with `" or "` in order, using the table's `"devide"` and `"EOF"` |
| Tokens.MessageWithUnnamedKind | token.go:48 | A kind missing from the table (RParen) renders as the empty string |
| Lexing.SkipSpaces | lexer.go:20-24 | The first position at or after i that is the end or not a `' '`; everything skipped is `' '` |
| Lexing.SkipSpacesUnique | lexer.go:21 | That position is the only one with those properties |
| Lexing.DigitRunEnd | lexer.go:28-36 | The end of the maximal digit run: all digits before it, no digit at it |
| Lexing.DigitRunEndUnique | lexer.go:29-36 | That end is the only one with those properties |
| Lexing.Next | lexer.go:45-78 | One GetToken call: the position never moves back or past the end, and every token but EOF and Error moves it forward |
| Lexing.NextSkipsSpaces | lexer.go:47 | Starting anywhere inside a run of spaces gives the same token and position |
| Lexing.NextEof | lexer.go:47-50 | EOF comes exactly when only spaces remain. It leaves pos at the end, and the next call gives EOF again |
| Lexing.NextNumber | lexer.go:54-55 | A Number comes exactly when the first non-space is a digit. Its value is the decimal value of the maximal run, and pos ends just past the run |
| Lexing.NextPunctuation | lexer.go:56-73 | Each of `+ - * / ( )` gives its own kind and takes exactly one character |
| Lexing.NextError | lexer.go:74-76 | Any other character gives Error exactly then, does not move pos, and the next call gives the same Error |
| Lexing.NextNeverPower | lexer.go:53-76 | The scanner never yields Power, and only Number tokens carry a non-zero value |
| Lexing.NextExamples | lexer.go:20-76 | A tab, `^` and `.` are Error tokens; `-3` starts with Minus; `"  42+"` reads 42 and stops at `+` |
| Lexing.Lexer.constructor | lexer.go:10-12 | A fresh scanner holds the input at position 0 |
| Lexing.Lexer.Advance | lexer.go:14-18 | pos goes up by exactly one before the end and stays put at the end |
| Lexing.Lexer.SkipWhitespace | lexer.go:20-24 | The loop leaves pos at `SkipSpaces` of the old pos |
| Lexing.Lexer.GetNumber | lexer.go:26-43 | From a digit at pos, the loop moves pos to the end of the maximal digit run and returns the exact decimal value of that run |
| Lexing.Lexer.GetToken | lexer.go:45-78 | The token and the new pos are `Next` of the old pos |
| Lookahead.Lex | lexer.go:14-78 | The token source of an input reads exactly the tokens `Next` gives, and it behaves like a token source: no position moves back or past the end, and every consumed token moves forward |
| Lookahead.At | parser.go:25 | Reading a token from position q stays inside the input and does not move back |
| Lookahead.Advance | parser.go:34 | Pulling the next token lowers the termination rank whenever the current token was made of input characters |
| Lookahead.Eat | parser.go:30-36 | eat on a match never raises the rank |
| Parsing.ParseNumber | parser.go:38-61 | On success the rank does not rise and the tree is well formed (Number leaves, operator nodes) |
| Parsing.ParseFactor | parser.go:63-80 | Same guarantee for factor |
| Parsing.ParseTerm | parser.go:82-102 | Same guarantee for term |
| Parsing.ParseTermRest | parser.go:87-100 | Same guarantee for the loop of term |
| Parsing.ParseExpr | parser.go:104-124 | Same guarantee for expr |
| Parsing.ParseExprRest | parser.go:109-122 | Same guarantee for the loop of expr |
| Parsing.ParseInput | parser.go:126-135 | Same guarantee for parse |
| Parsing.ParseNeedsEof | parser.go:126-135 | parse succeeds iff expr succeeds with EOF next, and then yields expr's tree. Otherwise it gives expr's error, or an error at the EOF check naming the token found and `[EOF]` |
| Parsing.Parser.constructor | parser.go:21-27 | newParser: a fresh scanner over the input with exactly one token read (`Start`) |
| Parsing.Parser.Eat | parser.go:30-36 | Succeeds iff the current kind is t, and then moves to the next token. Otherwise the error holds `lexer.pos`, the current token and `[t]`, and the state is unchanged |
| Parsing.Parser.Number | parser.go:38-61 | Result and new state follow `ParseNumber` on the old state; on error, the same error |
| Parsing.Parser.Factor | parser.go:63-80 | Result and new state follow `ParseFactor` |
| Parsing.Parser.Term | parser.go:82-102 | The loop's result and state follow `ParseTerm`: a left fold of factors |
| Parsing.Parser.Expr | parser.go:104-124 | The loop's result and state follow `ParseExpr`: a left fold of terms |
| Parsing.Parser.Parse | parser.go:126-135 | Result and state follow `ParseInput`: an expr followed by EOF, or the first error |
| Interpreting.Literal | interpreter.go:35 | A Number token is worth the exact, finite, non-negative value of its digit run |
| Interpreting.Neg | interpreter.go:116 | Negation keeps NaN, infinities and finite values apart, flips the sign bit and negates the real |
| Interpreting.Add | interpreter.go:109 | The exact sum of finite values. NaN exactly for a NaN operand or opposite infinities; infinite exactly when an operand is, and then it is that operand's infinity; -0 exactly for -0 + -0 |
| Interpreting.Sub | interpreter.go:116 | The exact difference of finite values. NaN exactly for a NaN operand or equal infinities; infinite exactly when an operand is, and then it is a's infinity or the negation of b's; -0 exactly for -0 - +0 |
| Interpreting.Mul | interpreter.go:83 | The exact product of finite values. NaN exactly for a NaN operand or zero times infinity; infinite exactly when an operand is; otherwise the sign is the exclusive or of the operands' signs |
| Interpreting.Div | interpreter.go:90 | The exact quotient by a nonzero finite value. NaN exactly for a NaN operand, inf/inf or 0/0; infinite exactly for an infinite dividend or a zero divisor; zero exactly for a zero dividend or an infinite divisor; otherwise the sign is the exclusive or |
| Interpreting.InterpNumber | interpreter.go:27-50 | On success the rank does not rise |
| Interpreting.InterpFactor | interpreter.go:52-68 | Same guarantee for factor |
| Interpreting.InterpTerm | interpreter.go:70-94 | Same guarantee for term |
| Interpreting.InterpTermRest | interpreter.go:75-92 | Same guarantee for the loop of term |
| Interpreting.InterpExpr | interpreter.go:96-120 | Same guarantee for expr |
| Interpreting.InterpExprRest | interpreter.go:101-118 | Same guarantee for the loop of expr |
| Interpreting.InterpCalculate | interpreter.go:122-131 | Same guarantee for calculate |
| Interpreting.CalculateNeedsEof | interpreter.go:122-131 | calculate succeeds iff expr succeeds with EOF next, and then yields expr's value. Otherwise it gives expr's error, or an error at the EOF check naming the token found and `[EOF]` |
| Interpreting.Interpreter.constructor | interpreter.go:10-16 | newInterpreter: a fresh scanner with exactly one token read |
| Interpreting.Interpreter.Eat | interpreter.go:19-25 | Same contract as the parser's eat |
| Interpreting.Interpreter.Number | interpreter.go:27-50 | Value and new state follow `InterpNumber`: the literal, a parenthesised expr followed by `)`, or an error expecting Number or LParen |
| Interpreting.Interpreter.Factor | interpreter.go:52-68 | Follows `InterpFactor`: at most one power of two numbers |
| Interpreting.Interpreter.Term | interpreter.go:70-94 | The loop follows `InterpTerm`: `*` and `/` folded from the left |
| Interpreting.Interpreter.Expr | interpreter.go:96-120 | The loop follows `InterpExpr`: `+` and `-` folded from the left |
| Interpreting.Interpreter.Calculate | interpreter.go:122-131 | Follows `InterpCalculate`: the value only if EOF follows, otherwise the first error |
| Evaluation.NumberAgrees | interpreter.go:27-50 | The interpreter's number is `Eval` of the parser's number tree, with the same state or the same error |
| Evaluation.FactorAgrees | interpreter.go:52-68 | The same for factor (the power is `pow` of both values) |
| Evaluation.TermRestAgrees | interpreter.go:75-92 | The same for the loop of term, from any accumulated tree |
| Evaluation.TermAgrees | interpreter.go:70-94 | The same for term |
| Evaluation.ExprRestAgrees | interpreter.go:101-118 | The same for the loop of expr, from any accumulated tree |
| Evaluation.ExprAgrees | interpreter.go:96-120 | The interpreter's expr is `Eval` of parser.go's expr tree, on every source and state |
| Evaluation.CalculateAgrees | interpreter.go:122-131 | calculate is `Eval` of what parse builds, or the same error |
| Printing.PrintableIsWellFormed | parser.go:99 | The printable trees (+ - * / over Number leaves) are trees the parser builds |
| Printing.OperatorAt | lexer.go:56-67 | An operator printed with surrounding spaces reads as its token, and the next token starts after the spaces |
| Printing.NumberAt | lexer.go:54-55 | A rendered number that no digit follows reads back as a Number token of that value |
| Printing.ParensAt | lexer.go:68-73 | Printed parentheses read as LParen and RParen tokens |
| Printing.TermRestStep | parser.go:87-100 | One iteration of term's loop: on `*` or `/`, folding continues with the new left-nested node |
| Printing.ExprRestStep | parser.go:109-122 | One iteration of expr's loop, likewise for `+` or `-` |
| Printing.TermRestStops | parser.go:87 | term's loop stops on any token other than `*` and `/` |
| Printing.ExprRestStops | parser.go:109 | expr's loop stops on any token other than `+` and `-` |
| Printing.ParenStep | parser.go:47-55 | `(` expr `)` yields the inner tree and consumes the `)` |
| Printing.NumberRoundTrip | parser.go:38-61 | number reads a printed factor back as its tree |
| Printing.ParenRoundTrip | parser.go:47-55 | number reads a parenthesised tree back as that tree |
| Printing.FactorRoundTrip | parser.go:63-80 | factor reads a printed factor back, with no power |
| Printing.TermRoundTrip | parser.go:82-102 | term reads a printed term back as the left-nested tree, then continues from the end |
| Printing.TermSplit | parser.go:87-100 | A printed `l op r` at term level folds to `Binary(l, r, op)` |
| Printing.ExprRoundTrip | parser.go:104-124 | expr reads a printed expression back: `*` `/` under `+` `-`, grouped from the left |
| Printing.ExprSplit | parser.go:109-122 | A printed `l op r` at expr level folds to `Binary(l, r, op)` |
| Printing.InnerRoundTrip | parser.go:49 | expr inside parentheses reads the inner tree and stops at `)` |
| Printing.ParsePrinted | parser.go:104-135 | A printed tree, with a space run before and another after it, and the same run a before and b after every operator, parses back to exactly that tree; parse accepts it with EOF at the end |
| Calculator.Outcome | calculator.go:3-6 | What Do returns is the value of the tree the parser's expr builds from the input, or the same error |
| Calculator.Do | calculator.go:3-6 | A fresh interpreter's expr returns `Outcome` of the input, which depends only on the input |
| Calculator.DoPrinted | calculator.go:5 | Any printed tree calculates to its value, and calculate agrees with it |
| Calculator.ListedOnePlusTwo | calculator_test.go:10-11 | `"1+2"` gives 3 |
| Calculator.ListedTwoHundredMinusHundred | calculator_test.go:13-14 | `"200-100"` gives 100 |
| Calculator.ListedSpacedSum | calculator_test.go:16-17 | `" 10 +  11 "` gives 21 |
| Calculator.ListedChainedSum | calculator_test.go:19-20 | `"1+2+3"` gives 6 |
| Calculator.ListedProductFirst | calculator_test.go:22-23 | `"2 + 7 * 4"` gives 30: `*` binds tighter |
| Calculator.ListedQuotientFirst | calculator_test.go:25-26 | `"7 - 8 / 4"` gives 5: `/` binds tighter |
| Calculator.ListedMixed | calculator_test.go:28-29 | `"14 + 2 * 3 - 6 / 2"` gives 17 |
| Calculator.ListedParentheses | calculator_test.go:31-32 | `"7 + 3 * (10 / (12 / (3 + 1) - 1))"` gives 22 |
| Calculator.SubtractionFoldsLeft | interpreter.go:101-118 | `"8-4-2"` gives (8-4)-2 = 2 |
| Calculator.DivisionFoldsLeft | interpreter.go:75-92 | `"8/4/2"` gives (8/4)/2 = 1 |
| Calculator.DivisionByInfinity | interpreter.go:90 | `"1/(1/0)"` gives 0: 1/0 is +inf, and 1 divided by +inf is 0, with no error |
| Calculator.DivisionByNegativeZero | interpreter.go:83-90 | `"1/((0-1)*0)"` gives -inf: -1 * 0 is -0, and 1 divided by -0 is -inf |
| Calculator.ZeroDividedByZero | interpreter.go:90 | `"0/0"` gives NaN, with no error |
| Calculator.TrailingParse | parser.go:126-135 | Over two Number tokens, expr takes the first and parse fails on the second, expecting EOF |
| Calculator.TrailingNumber | calculator.go:5 | `"1 2"` gives 1 with no error, while calculate fails at index 3 expecting EOF |
| Calculator.DanglingParse | parser.go:56-57 | After `1 +`, EOF where an operand should start is an error expecting Number or LParen |
| Calculator.MissingOperand | interpreter.go:45-46 | `"1+"` gives that error at index 2 and no value |
| Calculator.UnclosedParse | parser.go:53-55 | After `( 1 + 2`, EOF where `)` is required is an error expecting RParen |
| Calculator.MissingParenthesis | interpreter.go:42-44 | `"(1+2"` gives that error at index 4 and no value |
| Streams.PowerOnce | parser.go:63-80 | Over the tokens `2 ^ 3 ^ 4`, factor takes one power and leaves the second `^` unconsumed. expr stops there, parse and calculate fail expecting EOF, and the interpreter's value is `pow(2, 3)` |
| Stacks.Top | util/stack/stack.go:11-16 | Empty iff no elements, otherwise the last pushed element |
| Stacks.Rest | util/stack/stack.go:18-25 | An empty stack is unchanged; otherwise only the last element is removed |
| Stacks.PopUndoesPush | util/stack/stack.go:27-29 | After a push, the top is the pushed element, and popping it restores the old contents |
| Stacks.Stack.constructor | util/stack/stack.go:7-9 | New gives an empty stack |
| Stacks.Stack.Peek | util/stack/stack.go:11-16 | Returns `Top` and changes nothing |
| Stacks.Stack.Pop | util/stack/stack.go:18-25 | Returns `Top` of the old contents and leaves `Rest` of them |
| Stacks.Stack.Push | util/stack/stack.go:27-29 | Appends v and leaves earlier elements unchanged |
| Stacks.Stack.Size | util/stack/stack.go:31-33 | The number of stored elements |
| Stacks.LastInFirstOut | util/stack/stack_test.go:5-21 | Push 1 and then 2: pops give 2, then 1, then nothing, and the size ends at 0 |

## Left out

- cmd/main.go is not part of this model. It is the stdin read loop and output formatting, which is I/O.
- ast.go is not part of this model. It redeclares `node` as an interface, and its only behaviour is reflection-based type names. The tree is parser.go's `node`, modelled as `Parsing.Node`.
- Interpreting.Add: float64 rounding and overflow are not modelled. Finite values are exact reals, so an overflowing result of finite operands stays finite here, where Go gives an infinity. The same holds for Sub, Mul and Div. The special values (the signed zeros, both infinities and NaN) follow the IEEE 754 rules, including division by zero and by an infinity.
- Interpreting.Value: NaN is one value. NaN payloads and the sign of a NaN are not modelled, and nothing in the core observes them.
- Interpreting.InterpFactor: `math.Pow` (interpreter.go:64) is the parameter `pow`, left uninterpreted. It may return any value, a special one included.
- Lexing.Lexer.GetNumber: `strconv.ParseFloat` and its panic (lexer.go:37-40) are not modelled. A digit run is read as its exact decimal value, so a run too large for float64 is not an error here. The method requires a digit at pos, as the source's comment (lexer.go:26) asks of its caller.
- token.String (token.go:64-66) is not modelled. It is `%v` formatting of a float for debugging, and nothing in the core calls it.
- Tokens.Code: the constants 8..10 of the added kinds are this model's choice, because the code never declares those kinds.
- Parsing.Parser.Number: after an error, the state is left unspecified, and only the error is stated. The Go code abandons the parser after an error.
- Parsing.Parser.Factor: the state after an error is unspecified, as for Number.
- Parsing.Parser.Term: the state after an error is unspecified, as for Number.
- Parsing.Parser.Expr: the state after an error is unspecified, as for Number.
- Parsing.Parser.Parse: the state after an error is unspecified, as for Number.
- Interpreting.Interpreter.Number: the state after an error is unspecified, as in the parser.
- Interpreting.Interpreter.Factor: the state after an error is unspecified.
- Interpreting.Interpreter.Term: the state after an error is unspecified.
- Interpreting.Interpreter.Expr: the state after an error is unspecified.
- Interpreting.Interpreter.Calculate: the state after an error is unspecified.
- The nil node or the 0 returned beside an error is not modelled: a `Result` holds either a value or an error.
- The identity of `*token` and `*node` values, and `newNode` calls with only one nil child, are not modelled. Tokens and trees are values, and the parser only ever builds leaves and two-child nodes.
- Stacks.Stack: elements are a type parameter T, so pushing nil (an `interface{}` value) is not modelled. `Option` stands for the nil returned on an empty stack.
- Stacks.Stack.Size: the result is a `nat`; Go's `int` cannot overflow for a slice length.
- Printing and Evaluation have no counterpart in the code. They are reference definitions that give the parser and the interpreter something to be proved against.
