# RPDC interpreter front end and object model, in Dafny

RPDC is a small tree-walking interpreter for a Lox-like language whose token kinds have Romanian names.
This project models three of its parts:

- The scanner (`Scanner`). It reads the source left to right with the cursors `start`, `current` and `line`, and produces a token list that ends in EOF.
- The recursive-descent parser (`Parser`). It has one token of lookahead and turns the token list into statements. Precedence climbs from assignment down to primary. `for` loops are rewritten into `while` loops and blocks. After a failed declaration it resynchronises and leaves a `null` slot.
- The object model (`RpdcClass`, `RpdcInstance`, `RpdcFunction`). It covers method lookup along the superclass chain, class arity from `init`, field tables that shadow methods, binding of `acesta` ("this"), and initializers that return their receiver.

Each imperative part is written twice:

- A pure specification: a function per step or per grammar rule, with lemmas about it. Module `Lexical` specifies the scanner, and module `Grammar` specifies the parser.
- A class whose methods change their fields as the source does: `Scanning.Scanner` and `Parsing.Parser`. Every method is proved to produce exactly what its specification function gives.

Modules:

| module | file | contents |
|---|---|---|
| Wrappers | wrappers.dfy | `Option` and `Res` (Java's `null` and thrown `ParseError`) |
| Tokens | tokens.dfy | `TokenType` (TokenType.java), literals, `Token` |
| Syntax | syntax.dfy | the `Expr` and `Stmt` trees the parser builds, and function declarations |
| Lexical | lexical.dfy | one scan step as a function, the whole scan, and their properties |
| Scanning | scanning.dfy | class `Scanner`, proved equal to `Lexical` |
| Grammar | grammar.dfy | one function per parser rule; the tokens consumed are the termination measure |
| Parsing | parsing.dfy | class `Parser`, proved equal to `Grammar` |
| Precedence | precedence.dfy | every parsed expression has the shape its rule promises: associativity and precedence |
| ParseExamples | parse_examples.dfy | the trees for `a - b - c`, `2 + 3 * 4`, `a = b = c` and `1 = 2` |
| Runtime | runtime.dfy | `Environment`, `RpdcFunction`, `RpdcClass`, `RpdcInstance` |

The code does not agree with itself on three token names.
Scanner.java:86 emits `EGAL` for `=`.
The keyword table maps "print" to `AFISEAZA` and "return" to `RETURNARE` (Scanner.java:26-27), and Parser.java:290 tests `RETURNARE`.
None of these three is declared in TokenType.java.
They are read as the declared kinds of the same role: `ATRIBUIRE`, `SCRIE` and `INTOARCE`.

In two places the model follows the code rather than the apparent design:

- Scanner.java:129-130 looks the word up in the keyword table, but line 131 then emits `IDENTIFICATOR` for every word. So the scanner never produces a keyword token. `Lexical.ScanNoKeywordTokens` proves this, and the parser's keyword branches are reachable only from token lists built some other way.
- The line counter starts at 0 (Scanner.java:12).

## Model

Some members carry no contract of their own and have no row:

- The lookahead functions `Scanning.Scanner.IsAtEnd`, `Peek` and `PeekNext` (Scanner.java:170-198) are covered by the rows of `Scanning.Scanner.Match`, `Skip` and `SkipStringBody`, whose loops and tests use them.
- `Parsing.Parser.IsAtEnd`, `Peek`, `Previous` and `Check` (Parser.java:175-195) are covered by the rows of `Grammar.AdvanceNeverPassesEof`, `Parsing.Parser.Advance`, `Parsing.Parser.Match` and `Parsing.Parser.Consume`.
- `Grammar.Desugar` (Parser.java:57-71) is the rewriting of a `for` loop. The rows of `Grammar.ForStatement`, `Grammar.ForCondition` and `Grammar.ForIncrement` state that the result is built by it.
- `Runtime.RpdcInstance.Property` is `Runtime.PropertyIn` over the instance's own fields and class, and that row covers it.
- `Runtime.Environment.GetAt` and `Runtime.RpdcFunction.Arity` only compute. What `getAt` gives is stated by the rows of `Runtime.Environment.Define` and `Runtime.BoundInitializerReturnsReceiver`. What `arity` means is stated by the rows of `Runtime.RpdcFunction.Call` and `Runtime.RpdcClass.Arity`.

| member | source | states |
|---|---|---|
| Lexical.SkipWhileStops | com/interpreter/rpdc/Scanner.java:125-149 | a scanning loop stops at the first character outside its run, or at the end; every character it passed belongs to the run |
| Lexical.Step | com/interpreter/rpdc/Scanner.java:49-123 | one call of `scanToken` consumes at least one character, never lowers `line`, and never both adds a token and reports an error |
| Lexical.StepToken | com/interpreter/rpdc/Scanner.java:205-212 | a token's lexeme is the source text from `start` to `current`; it is never EOF or a keyword kind, and it carries the current line |
| Lexical.StepOperator | com/interpreter/rpdc/Scanner.java:82-93 | `! = < >` followed by `=` give the two-character kind and consume two characters; otherwise they give the one-character kind |
| Lexical.StepPunctuation | com/interpreter/rpdc/Scanner.java:52-81 | each single-character punctuation consumes one character and gives a one-character token of its own kind with no literal; `.` gives `PUNCT` |
| Lexical.StepComment | com/interpreter/rpdc/Scanner.java:94-97 | `//` adds no token and no error, and consumes up to but not including the next line break, or to the end |
| Lexical.StepNumber | com/interpreter/rpdc/Scanner.java:134-143 | a number lexeme is `digit+` or `digit+ . digit+`, with the digit text as its literal; a `.` is taken only when a digit follows it, and the number stops at a non-digit |
| Lexical.StringEndClosed | com/interpreter/rpdc/Scanner.java:156-159 | a closed string gives `SIR`; its literal is the lexeme without its two quotes and contains no quote |
| Lexical.StepString | com/interpreter/rpdc/Scanner.java:145-159 | a terminated string gives a `SIR` token without quotes in its literal, and `line` grows by the line breaks inside it |
| Lexical.StepUnterminatedString | com/interpreter/rpdc/Scanner.java:146-154 | an unterminated string adds no token, runs to the end, counts its line breaks and reports "Unterminated string." at the final line |
| Lexical.StepIdentifier | com/interpreter/rpdc/Scanner.java:125-132 | a word is the longest run of letters, digits and `_`, and always gives `IDENTIFICATOR` with no literal |
| Lexical.StepUnexpected | com/interpreter/rpdc/Scanner.java:112-120 | any other character is consumed with one "Unexpected character." error and no token |
| Lexical.StepWhitespace | com/interpreter/rpdc/Scanner.java:101-108 | blanks, tabs and carriage returns are skipped; a line break adds one to `line` |
| Lexical.ScanEndsWithEof | com/interpreter/rpdc/Scanner.java:39-47 | the token list ends with exactly one EOF token, with an empty lexeme and no literal, and no earlier token is EOF |
| Lexical.ScanLexemesAreSlices | com/interpreter/rpdc/Scanner.java:39-47 | every token before EOF has a span of the source whose text is its lexeme; the spans are non-empty, in source order and do not overlap |
| Lexical.ScanLinesNondecreasing | com/interpreter/rpdc/Scanner.java:106-107 | token lines start at the initial line and never decrease along the list |
| Lexical.ScanNoKeywordTokens | com/interpreter/rpdc/Scanner.java:125-132 | no scanned token has a keyword kind |
| Lexical.UnterminatedStringAtEnd | com/interpreter/rpdc/Scanner.java:146-154 | an unterminated string ends the scan: exactly one error and only the EOF token follow it |
| Scanning.Scanner.constructor | com/interpreter/rpdc/Scanner.java:8-37 | a new scanner has empty lists and all three cursors at 0 |
| Scanning.Scanner.Advance | com/interpreter/rpdc/Scanner.java:200-203 | returns the character at `current` and moves past it, changing nothing else |
| Scanning.Scanner.Match | com/interpreter/rpdc/Scanner.java:162-168 | true exactly when the next character is the expected one, and then consumed; otherwise nothing moves |
| Scanning.Scanner.AddToken | com/interpreter/rpdc/Scanner.java:205-212 | appends the token of kind and literal with lexeme `source[start..current]` at the current line |
| Scanning.Scanner.Error | com/interpreter/rpdc/Scanner.java:118-120 | appends one error at the current line; the token list and cursors are unchanged |
| Scanning.Scanner.Skip | com/interpreter/rpdc/Scanner.java:125-139 | the cursor ends where `Lexical.SkipWhile` says |
| Scanning.Scanner.Identifier | com/interpreter/rpdc/Scanner.java:125-132 | adds exactly what `Lexical.Step` gives for a word |
| Scanning.Scanner.Number | com/interpreter/rpdc/Scanner.java:134-143 | adds exactly what `Lexical.Step` gives for a number |
| Scanning.Scanner.SkipStringBody | com/interpreter/rpdc/Scanner.java:146-149 | goes to the closing quote or the end, and counts the line breaks it passes |
| Scanning.Scanner.StringLiteral | com/interpreter/rpdc/Scanner.java:145-160 | adds the token or the error that `Lexical.Step` gives for a string |
| Scanning.Scanner.ScanToken | com/interpreter/rpdc/Scanner.java:49-123 | the new cursors, tokens and errors are those of `Lexical.Step` from `start` |
| Scanning.Scanner.ScanTokens | com/interpreter/rpdc/Scanner.java:39-47 | the output is what was there before followed by `Lexical.ScanFrom` of the rest, EOF included |
| Scanning.Tokenize | com/interpreter/rpdc/Scanner.java:35-47 | `new Scanner(src).scanTokens()` is `Lexical.Scan(src).tokens` |
| Grammar.Advance | com/interpreter/rpdc/Parser.java:180-187 | the cursor stays inside the list, and stays put exactly at EOF |
| Grammar.CheckBeforeEnd | com/interpreter/rpdc/Parser.java:175-178 | a kind that `check` accepts is never the last token |
| Grammar.AdvanceNeverPassesEof | com/interpreter/rpdc/Parser.java:175-187 | at EOF `advance` does not move and `check` is false; elsewhere `advance` moves one token and stays before the end |
| Grammar.Consume | com/interpreter/rpdc/Parser.java:265-274 | succeeds exactly when `check` does, returning that token and moving past it; otherwise it reports the message at the current token and does not move |
| Grammar.Primary | com/interpreter/rpdc/Parser.java:243-263 | stays inside the list; earlier diagnostics are kept as a prefix and new ones follow; success consumes a token and failure reports one |
| Grammar.Grouping | com/interpreter/rpdc/Parser.java:256-260 | a parenthesised expression is a Grouping node |
| Grammar.Unary | com/interpreter/rpdc/Parser.java:233-241 | as `Grammar.Primary` |
| Grammar.Operand | com/interpreter/rpdc/Parser.java:128-231 | as `Grammar.Primary` |
| Grammar.Level | com/interpreter/rpdc/Parser.java:128-231 | as `Grammar.Primary` |
| Grammar.LevelRest | com/interpreter/rpdc/Parser.java:128-231 | the loop of a binary level stays inside the list; a failure reports a diagnostic |
| Grammar.Assignment | com/interpreter/rpdc/Parser.java:111-126 | as `Grammar.Primary` |
| Grammar.Expression | com/interpreter/rpdc/Parser.java:18-20 | as `Grammar.Primary` |
| Grammar.ExpressionStatement | com/interpreter/rpdc/Parser.java:94-98 | gives an Expression statement |
| Grammar.PrintStatement | com/interpreter/rpdc/Parser.java:88-92 | gives a Print statement |
| Grammar.VarDeclaration | com/interpreter/rpdc/Parser.java:317-327 | gives a Var statement named by the identifier token after `var` |
| Grammar.Condition | com/interpreter/rpdc/Parser.java:74-77 | a parenthesised condition consumes tokens or reports a diagnostic |
| Grammar.WhileStatement | com/interpreter/rpdc/Parser.java:329-336 | gives a While statement |
| Grammar.IfStatement | com/interpreter/rpdc/Parser.java:74-86 | gives an If statement |
| Grammar.IfBranches | com/interpreter/rpdc/Parser.java:79-85 | gives an If statement over the condition already parsed |
| Grammar.ForInitializer | com/interpreter/rpdc/Parser.java:34-41 | the initializer clause consumes tokens or reports a diagnostic |
| Grammar.OptionalExpression | com/interpreter/rpdc/Parser.java:43-53 | a clause is absent exactly when the closing token follows; an absent clause consumes nothing and reports nothing |
| Grammar.ForStatement | com/interpreter/rpdc/Parser.java:31-72 | a `for` loop gives `Desugar` of its clauses: no for-node exists |
| Grammar.ForCondition | com/interpreter/rpdc/Parser.java:43-72 | gives `Desugar` over the initializer already parsed |
| Grammar.ForIncrement | com/interpreter/rpdc/Parser.java:49-71 | gives `Desugar` over the initializer and condition already parsed |
| Grammar.BlockItems | com/interpreter/rpdc/Parser.java:103-105 | the loop of a block never fails, and stops at `}` or at EOF |
| Grammar.Block | com/interpreter/rpdc/Parser.java:100-109 | as `Grammar.Primary` |
| Grammar.Statement | com/interpreter/rpdc/Parser.java:22-29 | as `Grammar.Primary` |
| Grammar.SyncFrom | com/interpreter/rpdc/Parser.java:279-295 | the first resynchronisation point at or after a position: the token after a `;`, a statement keyword, or EOF |
| Grammar.Synchronize | com/interpreter/rpdc/Parser.java:276-296 | `syncronize` skips one token, then stops at the first resynchronisation point; it moves unless already at EOF |
| Grammar.Declared | com/interpreter/rpdc/Parser.java:309-310 | as `Grammar.Primary` |
| Grammar.Declaration | com/interpreter/rpdc/Parser.java:307-315 | a declaration never throws and consumes a token unless at EOF; it is `null` exactly when the `var` declaration or statement failed, and then it has reported a diagnostic and the cursor is where `syncronize` leaves it, a resynchronisation point; otherwise it is that statement, at the cursor and with the diagnostics it left |
| Grammar.ProgramFrom | com/interpreter/rpdc/Parser.java:298-305 | `parse` ends at EOF; it gives at most one entry per token consumed, and no more `null` entries than diagnostics |
| Parsing.Parser.constructor | com/interpreter/rpdc/Parser.java:11-16 | the cursor starts at 0 with nothing reported |
| Parsing.Parser.Advance | com/interpreter/rpdc/Parser.java:180-183 | moves as `Grammar.Advance` and returns the token before the cursor |
| Parsing.Parser.Match | com/interpreter/rpdc/Parser.java:164-173 | true exactly when one of the kinds is next, and then that token is consumed; otherwise nothing moves |
| Parsing.Parser.Error | com/interpreter/rpdc/Parser.java:271-274 | appends one diagnostic at the token |
| Parsing.Parser.Consume | com/interpreter/rpdc/Parser.java:265-269 | the result, cursor and diagnostics are those of `Grammar.Consume` |
| Parsing.Parser.Expression | com/interpreter/rpdc/Parser.java:18-20 | agrees with `Grammar.Expression` |
| Parsing.Parser.Assignment | com/interpreter/rpdc/Parser.java:111-126 | agrees with `Grammar.Assignment` |
| Parsing.Parser.Level | com/interpreter/rpdc/Parser.java:128-231 | agrees with `Grammar.Level` |
| Parsing.Parser.LevelLoop | com/interpreter/rpdc/Parser.java:128-231 | the while loop of a binary level agrees with `Grammar.LevelRest` |
| Parsing.Parser.Operand | com/interpreter/rpdc/Parser.java:128-231 | agrees with `Grammar.Operand` |
| Parsing.Parser.Unary | com/interpreter/rpdc/Parser.java:233-241 | agrees with `Grammar.Unary` |
| Parsing.Parser.Primary | com/interpreter/rpdc/Parser.java:243-263 | agrees with `Grammar.Primary` |
| Parsing.Parser.Grouping | com/interpreter/rpdc/Parser.java:256-260 | agrees with `Grammar.Grouping` |
| Parsing.Parser.ExpressionStatement | com/interpreter/rpdc/Parser.java:94-98 | agrees with `Grammar.ExpressionStatement` |
| Parsing.Parser.PrintStatement | com/interpreter/rpdc/Parser.java:88-92 | agrees with `Grammar.PrintStatement` |
| Parsing.Parser.VarDeclaration | com/interpreter/rpdc/Parser.java:317-327 | agrees with `Grammar.VarDeclaration` |
| Parsing.Parser.Condition | com/interpreter/rpdc/Parser.java:74-77 | agrees with `Grammar.Condition` |
| Parsing.Parser.WhileStatement | com/interpreter/rpdc/Parser.java:329-336 | agrees with `Grammar.WhileStatement` |
| Parsing.Parser.IfStatement | com/interpreter/rpdc/Parser.java:74-86 | agrees with `Grammar.IfStatement` |
| Parsing.Parser.IfBranches | com/interpreter/rpdc/Parser.java:79-85 | agrees with `Grammar.IfBranches` |
| Parsing.Parser.ForStatement | com/interpreter/rpdc/Parser.java:31-72 | agrees with `Grammar.ForStatement` |
| Parsing.Parser.ForInitializer | com/interpreter/rpdc/Parser.java:34-41 | agrees with `Grammar.ForInitializer` |
| Parsing.Parser.ForCondition | com/interpreter/rpdc/Parser.java:43-47 | agrees with `Grammar.ForCondition` |
| Parsing.Parser.ForIncrement | com/interpreter/rpdc/Parser.java:49-71 | agrees with `Grammar.ForIncrement` |
| Parsing.Parser.OptionalExpression | com/interpreter/rpdc/Parser.java:43-53 | agrees with `Grammar.OptionalExpression` |
| Parsing.Parser.Block | com/interpreter/rpdc/Parser.java:100-109 | agrees with `Grammar.Block` |
| Parsing.Parser.Statement | com/interpreter/rpdc/Parser.java:22-29 | agrees with `Grammar.Statement` |
| Parsing.Parser.Synchronize | com/interpreter/rpdc/Parser.java:276-296 | the cursor ends at `Grammar.Synchronize` and nothing is reported |
| Parsing.Parser.Declaration | com/interpreter/rpdc/Parser.java:307-315 | agrees with `Grammar.Declaration` |
| Parsing.Parser.Parse | com/interpreter/rpdc/Parser.java:298-305 | the statement list agrees with `Grammar.ProgramFrom` |
| Parsing.ParseTokens | com/interpreter/rpdc/Parser.java:298-305 | `new Parser(tokens).parse()` gives `Grammar.Parse(tokens)`, together with what it reported |
| Precedence.PrimaryForm | com/interpreter/rpdc/Parser.java:243-263 | a primary has the shape of the primary rule |
| Precedence.GroupingForm | com/interpreter/rpdc/Parser.java:256-260 | a parenthesised expression is a primary whose inside starts over at assignment |
| Precedence.UnaryForm | com/interpreter/rpdc/Parser.java:233-241 | unary operators nest to the right over a primary |
| Precedence.OperandForm | com/interpreter/rpdc/Parser.java:128-231 | the operand of a binary level binds tighter than that level |
| Precedence.LevelForm | com/interpreter/rpdc/Parser.java:128-231 | a binary level gives a left-associative chain of its own operators over tighter operands |
| Precedence.LevelRestForm | com/interpreter/rpdc/Parser.java:128-231 | each turn of a binary level's loop keeps that shape |
| Precedence.AssignmentForm | com/interpreter/rpdc/Parser.java:111-126 | assignment nests to the right over an `or` expression |
| Precedence.ExpressionForm | com/interpreter/rpdc/Parser.java:18-20 | every expression the parser returns has the assignment shape |
| Precedence.FormLoosens | com/interpreter/rpdc/Parser.java:128-241 | a tree of a tight rule also fits every looser rule |
| Precedence.LeftAssociative | com/interpreter/rpdc/Parser.java:128-231 | in a binary node, the left operand binds no looser than the node and the right operand strictly tighter; `or < and < equality < comparison < term < factor` |
| ParseExamples.AtomOperand | com/interpreter/rpdc/Parser.java:243-254 | a name or number with no tighter operator after it is, as an operand, just that atom |
| ParseExamples.LevelRestTurn | com/interpreter/rpdc/Parser.java:212-216 | one turn of a binary level's loop folds the operator and the next operand into the left tree |
| ParseExamples.ExpressionAtEnd | com/interpreter/rpdc/Parser.java:18-20 | a binary-level tree followed by EOF is the whole expression |
| ParseExamples.SubtractionIsLeftAssociative | com/interpreter/rpdc/Parser.java:209-219 | `a - b - c` is `(a - b) - c` |
| ParseExamples.ProductBindsTighter | com/interpreter/rpdc/Parser.java:209-231 | `2 + 3 * 4` is `2 + (3 * 4)` |
| ParseExamples.AtomLevel | com/interpreter/rpdc/Parser.java:128-138 | an atom followed by no operator is a whole `or` expression |
| ParseExamples.AssignmentIsRightAssociative | com/interpreter/rpdc/Parser.java:111-121 | `a = b = c` is `a = (b = c)` |
| ParseExamples.InvalidAssignmentTarget | com/interpreter/rpdc/Parser.java:118-125 | `1 = 2` reports "Invalid assignment target." at the `=`, does not fail, and keeps the left-hand side |
| Runtime.Environment.constructor | com/interpreter/rpdc/RpdcFunction.java:31 | a new scope is empty and nested in the given one |
| Runtime.Environment.Define | com/interpreter/rpdc/RpdcFunction.java:31-34 | `define` adds or replaces one binding in this scope only; `getAt(0, name)` then gives the new value, and `getAt(0, other)` what it gave before for every other name |
| Runtime.BindingsNames | com/interpreter/rpdc/RpdcFunction.java:31-35 | the call scope binds exactly the parameter names |
| Runtime.BindingsAt | com/interpreter/rpdc/RpdcFunction.java:31-35 | the i-th parameter is bound to the i-th argument unless a later parameter has the same name |
| Runtime.RpdcFunction.constructor | com/interpreter/rpdc/RpdcFunction.java:10-15 | keeps the declaration, the closure and the initializer flag |
| Runtime.RpdcFunction.Bind | com/interpreter/rpdc/RpdcFunction.java:17-22 | a new function with the same declaration and flag, over a new scope nested in the closure that binds only `acesta` to the instance |
| Runtime.RpdcFunction.Call | com/interpreter/rpdc/RpdcFunction.java:29-46 | the parameters are bound in a new scope nested in the closure, and the closure is not changed; an initializer returns `acesta` of its closure; any other function returns the returned value, or null when the body falls through |
| Runtime.BoundInitializerReturnsReceiver | com/interpreter/rpdc/RpdcFunction.java:17-22 | a bound initializer's `getAt(0, "acesta")` is its receiver |
| Runtime.RpdcClass.constructor | com/interpreter/rpdc/RpdcClass.java:11-16 | keeps the name, the superclass and the method table |
| Runtime.RpdcClass.FindMethod | com/interpreter/rpdc/RpdcClass.java:18-28 | a class's own method wins; otherwise the result is the method of the nearest ancestor that has one, and none exactly when no class of the chain has it |
| Runtime.ChainFirst | com/interpreter/rpdc/RpdcClass.java:23-25 | a class without the method finds it exactly where its superclass does, one place further along the chain |
| Runtime.RpdcClass.Arity | com/interpreter/rpdc/RpdcClass.java:42-47 | 0 when no class of the chain has `init`, otherwise the arity of the `init` that `findMethod` finds |
| Runtime.RpdcClass.Call | com/interpreter/rpdc/RpdcClass.java:30-40 | a fresh instance of this class, with no fields when the chain has no `init`; the `init` found, if any, is bound to it and called with the same arguments, and a bound initializer gives back the instance, which `call` discards |
| Runtime.RpdcInstance.constructor | com/interpreter/rpdc/RpdcInstance.java:8-12 | a new instance refers to its class and has no fields |
| Runtime.RpdcInstance.Get | com/interpreter/rpdc/RpdcInstance.java:14-24 | a field wins; otherwise the chain's method is bound to the instance; otherwise it fails with "Undefined property '<name>'." at the name |
| Runtime.RpdcInstance.Set | com/interpreter/rpdc/RpdcInstance.java:26-28 | creates or overwrites only the named field, which `get` then returns; every other name means what it did before |
| Runtime.PropertyIn | com/interpreter/rpdc/RpdcInstance.java:14-24 | the lookup order of `get`: a field exactly when the name is in the field table; otherwise a method exactly when the chain declares one, namely what `findMethod` gives |

## Left out

- Output: `Main.error` is not shown. The scanner's and the parser's reports become lists of errors that are appended to in order. Nothing is printed.
- Lexical.Step: a Dafny `string` holds Unicode scalar values, while Java's `charAt` walks UTF-16 code units (Scanner.java:174, 200-203). A character outside the Basic Multilingual Plane, such as U+1F600, is two code units in the source. Outside a string it gives two "Unexpected character." errors there, and one in the model. Inside a string or a comment the two readings agree.
- Number values: `Double.parseDouble` (Scanner.java:142) is floating point. A number token keeps its digit text as its literal.
- The evaluator: `Interpreter`, `Interpreter.executeBlock` and `Environment.java` are not part of this model. `Runtime.RpdcFunction.Call` takes the way the body ended (`Normal` or `Returned(v)`) as a parameter, and the frame it built is handed back so that a caller can run the body in it. An environment is a map plus an optional enclosing scope.
- Runtime.RpdcClass.Call: the initializer's body is not run. It is called as if its body fell through (`Normal`). The contract says nothing about the fields of an instance whose class has an `init`, because in the program that body usually sets them. The value the initializer returns is discarded, as in the source.
- Runtime.Environment.GetAt: the source calls `getAt` only at distance 0, which is all this model relies on. Environment.java is not part of this model.
- `RpdcCallable.java` is an interface with two methods. `Arity` and `Call` are members of each class, and there is no common type.
- The `toString` methods only format text.
- Calls, property access, `fun`/`class`/`return` declarations and `this`/`super` expressions are not parsed by Parser.java, so the model does not parse them either. The function declarations a class holds are given values.
- Java exceptions: `ParseError` becomes `Err` in `Res`, `RuntimeError` becomes `Failure`, and the `Return` signal becomes `Returned`.
- Grammar.Primary: the contract states only how the rule moves the cursor and the diagnostics. The tree's shape is stated by `Precedence.PrimaryForm`.
- Grammar.Unary: the contract states only how the rule moves the cursor and the diagnostics. The tree's shape is stated by `Precedence.UnaryForm`.
- Grammar.Operand: the contract states only how the rule moves the cursor and the diagnostics. The tree's shape is stated by `Precedence.OperandForm`.
- Grammar.Level: the contract states only how the rule moves the cursor and the diagnostics. The tree's shape is stated by `Precedence.LevelForm`.
- Grammar.Assignment: the contract states only how the rule moves the cursor and the diagnostics. The tree's shape is stated by `Precedence.AssignmentForm`, and the invalid target by `ParseExamples.InvalidAssignmentTarget`.
- Grammar.Expression: the contract states only how the rule moves the cursor and the diagnostics. The tree's shape is stated by `Precedence.ExpressionForm`.
- Grammar.Block: the contract states only how the rule moves the cursor and the diagnostics. The statements are those of `Grammar.BlockItems`.
- Grammar.Statement: the contract states only how the rule moves the cursor and the diagnostics. The statement built is stated by the rows of the statement rules it dispatches to.
- Grammar.Declared: the contract states only how the rule moves the cursor and the diagnostics. Its statement is what `Grammar.Declaration` returns.
- Grammar.ForStatement: its contract says a loop is `Desugar` of some clauses, not which ones. `Parsing.Parser.ForStatement` equals this function, which builds `Desugar` from the clauses it parsed.
- Grammar.ProgramFrom: one entry per declaration is stated as a bound. There are at most as many entries as tokens consumed, and no more `null` entries than diagnostics.
- ParseExamples: each input is described by the kinds of its tokens, not by source text, so each lemma holds for every name and number.
