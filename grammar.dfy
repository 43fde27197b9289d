/**
 * What the recursive-descent parser of com/interpreter/rpdc/Parser.java
 * computes, as pure functions over the token list and a cursor position.
 *
 * Every parsing routine of the class becomes a function of the tokens, the
 * cursor `pos` it starts at and the diagnostics `ds` reported so far; it
 * gives back a `Parsed` value: the node built (or `Err` when a ParseError
 * was thrown), the cursor where the routine left it, and the diagnostics
 * reported by then. Termination is by the pair (tokens left, rank): a routine
 * only calls one of lower rank at the same position, and any routine once it
 * has consumed a token.
 */
module Grammar {
  import opened Wrappers
  import opened Tokens
  import Syntax

  type Expr = Syntax.Expr
  type Stmt = Syntax.Stmt

  /** `Main.error(token, message)` as reported by the parser. */
  datatype Diagnostic = Diagnostic(token: Token, message: string)

  /** What a parsing routine leaves behind: its result, the cursor, and all
      diagnostics reported so far. */
  datatype Parsed<T> = Parsed(res: Res<T>, pos: nat, diags: seq<Diagnostic>)

  /** The parser is handed a token list that ends with EOF, as `scanTokens` makes it. */
  predicate ValidTokens(ts: seq<Token>)
  {
    |ts| > 0 && ts[|ts| - 1].kind == EOF
  }

  // ---------------------------------------------------------------------------
  // The cursor primitives

  predicate IsAtEnd(ts: seq<Token>, pos: nat)
    requires pos < |ts|
  {
    ts[pos].kind == EOF
  }

  predicate Check(ts: seq<Token>, pos: nat, kind: TokenType)
    requires pos < |ts|
  {
    !IsAtEnd(ts, pos) && ts[pos].kind == kind
  }

  /** `match(types...)`: the next token has one of the kinds and is not EOF. */
  predicate Matches(ts: seq<Token>, pos: nat, kinds: seq<TokenType>)
    requires pos < |ts|
  {
    !IsAtEnd(ts, pos) && ts[pos].kind in kinds
  }

  /** `advance()`: the cursor moves on unless it is at EOF. */
  function Advance(ts: seq<Token>, pos: nat): (p: nat)
    requires ValidTokens(ts) && pos < |ts|
    ensures p < |ts|
    ensures p == pos <==> IsAtEnd(ts, pos)
  {
    if IsAtEnd(ts, pos) then pos else pos + 1
  }

  /** A token that `check` accepts is never the last one. */
  lemma {:induction false} CheckBeforeEnd(ts: seq<Token>, pos: nat, kind: TokenType)
    requires ValidTokens(ts) && pos < |ts| && Check(ts, pos, kind)
    ensures pos + 1 < |ts|
  {
  }

  lemma {:induction false} AdvanceNeverPassesEof(ts: seq<Token>, pos: nat, kind: TokenType)
    requires ValidTokens(ts) && pos < |ts|
    ensures IsAtEnd(ts, pos) ==> Advance(ts, pos) == pos && !Check(ts, pos, kind)
    ensures !IsAtEnd(ts, pos) ==> Advance(ts, pos) == pos + 1 < |ts|
  {
  }

  /** What a routine that may throw promises: the cursor moves forward and
      stays on the list, diagnostics are never taken back, a success has consumed
      a token, and a ParseError comes after at least one new report. */
  predicate Outcome<T>(ts: seq<Token>, pos: nat, ds: seq<Diagnostic>, r: Parsed<T>)
  {
    && pos <= r.pos < |ts|
    && ds <= r.diags
    && (r.res.Ok? ==> pos < r.pos)
    && (r.res.Err? ==> |ds| < |r.diags|)
  }

  /** The ParseError of `r`, passed on unchanged. */
  function Fail<T, U>(r: Parsed<T>): (f: Parsed<U>)
    requires r.res.Err?
    ensures f.res.Err? && f.pos == r.pos && f.diags == r.diags
  {
    Parsed(Err, r.pos, r.diags)
  }

  /** `consume(kind, message)` */
  function Consume(ts: seq<Token>, pos: nat, kind: TokenType, message: string, ds: seq<Diagnostic>): (r: Parsed<Token>)
    requires ValidTokens(ts) && pos < |ts|
    ensures Outcome(ts, pos, ds, r)
    ensures r.res.Ok? <==> Check(ts, pos, kind)
    ensures r.res.Ok? ==> r.res.value == ts[pos] && r.pos == pos + 1 && r.diags == ds
    ensures r.res.Err? ==> r.pos == pos && r.diags == ds + [Diagnostic(ts[pos], message)]
  {
    if Check(ts, pos, kind) then Parsed(Ok(ts[pos]), pos + 1, ds)
    else Parsed(Err, pos, ds + [Diagnostic(ts[pos], message)])
  }

  /** `value` once `consume(kind, message)` has succeeded after it. */
  function Closed<T>(ts: seq<Token>, pos: nat, value: T, kind: TokenType, message: string, ds: seq<Diagnostic>): (r: Parsed<T>)
    requires ValidTokens(ts) && pos < |ts|
    ensures Outcome(ts, pos, ds, r)
    ensures r.res.Ok? ==> r.res.value == value
  {
    var c := Consume(ts, pos, kind, message, ds);
    Parsed(if c.res.Ok? then Ok(value) else Err, c.pos, c.diags)
  }

  // ---------------------------------------------------------------------------
  // Precedence

  /** The operators of the binary levels: 1 or, 2 and, 3 equality,
      4 comparison, 5 term, 6 factor. */
  function Ops(level: nat): seq<TokenType>
  {
    match level
    case 1 => [SAU]
    case 2 => [SI]
    case 3 => [NEGARE_EGAL, EGAL_EGAL]
    case 4 => [MAI_MARE, MAI_MARE_EGAL, MAI_MIC, MAI_MIC_EGAL]
    case 5 => [MINUS, PLUS]
    case _ => [SLASH, STAR]
  }

  /** `or` and `and` build Logical nodes, the other levels Binary nodes. */
  function Combine(level: nat, left: Expr, op: Token, right: Expr): Expr
  {
    if level <= 2 then Syntax.Logical(left, op, right) else Syntax.Binary(left, op, right)
  }

  const UnaryLevel: nat := 7
  const PrimaryLevel: nat := 8

  /** The binary level an operator kind belongs to; 0 for other kinds. */
  function OpLevel(k: TokenType): (level: nat)
    ensures level <= 6
    ensures forall l :: 1 <= l <= 6 ==> (k in Ops(l) <==> level == l)
  {
    match k
    case SAU => 1
    case SI => 2
    case NEGARE_EGAL | EGAL_EGAL => 3
    case MAI_MARE | MAI_MARE_EGAL | MAI_MIC | MAI_MIC_EGAL => 4
    case MINUS | PLUS => 5
    case SLASH | STAR => 6
    case _ => 0
  }

  /** How tightly the node at the root of `e` binds: 0 assignment, 1..6 the
      level of its binary operator, 7 unary, 8 the primaries. */
  function Binding(e: Expr): nat
  {
    match e
    case Assign(_, _) => 0
    case Binary(_, op, _) => OpLevel(op.kind)
    case Logical(_, op, _) => OpLevel(op.kind)
    case Unary(_, _) => UnaryLevel
    case _ => PrimaryLevel
  }

  /** The shape of a tree that the rule of `level` (0 assignment, 1..6 the
      binary levels, 7 unary, 8 primary) gives: its root binds at least as
      tightly as `level`; the left operand of a binary node binds at least as
      tightly as the node and the right operand strictly more, so chains are
      left-associative and tighter operators sit below looser ones; assignment
      and unary nest to the right; a parenthesis starts over at assignment. */
  predicate Form(e: Expr, level: nat)
    decreases e
  {
    level <= Binding(e) &&
    match e
    case Assign(_, value) => Form(value, 0)
    case Binary(left, op, right) =>
      3 <= Binding(e) && Form(left, Binding(e)) && Form(right, Binding(e) + 1)
    case Logical(left, op, right) =>
      1 <= Binding(e) <= 2 && Form(left, Binding(e)) && Form(right, Binding(e) + 1)
    case Unary(op, right) => op.kind in [NEGARE, MINUS] && Form(right, UnaryLevel)
    case Literal(_) => true
    case Variable(name) => name.kind == IDENTIFICATOR
    case Grouping(inner) => Form(inner, 0)
  }

  // ---------------------------------------------------------------------------
  // Expressions

  /** The kinds `primary()` turns into a node by themselves. */
  function AtomKinds(): seq<TokenType> { [FALS, ADEVARAT, NIMIC, NUMAR, SIR, IDENTIFICATOR] }

  /** The node `primary()` builds for a token of one of `AtomKinds`: the
      three constant literals, the scanned literal of a number or a string,
      or a variable. */
  function Atom(t: Token): Expr
  {
    match t.kind
    case FALS => Syntax.Literal(Bool(false))
    case ADEVARAT => Syntax.Literal(Bool(true))
    case NIMIC => Syntax.Literal(Null)
    case IDENTIFICATOR => Syntax.Variable(t)
    case _ => Syntax.Literal(t.literal)
  }

  /** `primary()`: its first five cases test distinct kinds, so they are
      taken together. */
  function Primary(ts: seq<Token>, pos: nat, ds: seq<Diagnostic>): (r: Parsed<Expr>)
    requires ValidTokens(ts) && pos < |ts|
    ensures Outcome(ts, pos, ds, r)
    decreases |ts| - pos, 1
  {
    if Matches(ts, pos, AtomKinds()) then Parsed(Ok(Atom(ts[pos])), pos + 1, ds)
    else if Matches(ts, pos, [PARANTEZA_STANGA]) then Grouping(ts, pos + 1, ds)
    else Parsed(Err, pos, ds + [Diagnostic(ts[pos], "Expect expression.")])
  }

  /** The parenthesised case of `primary()`, after `(`. */
  function Grouping(ts: seq<Token>, pos: nat, ds: seq<Diagnostic>): (r: Parsed<Expr>)
    requires ValidTokens(ts) && pos < |ts|
    ensures Outcome(ts, pos, ds, r)
    ensures r.res.Ok? ==> r.res.value.Grouping?
    decreases |ts| - pos, 23
  {
    var e := Expression(ts, pos, ds);
    if e.res.Err? then Fail(e)
    else Closed(ts, e.pos, Syntax.Grouping(e.res.value), PARANTEZA_DREAPTA, "Expect ')' after expression.", e.diags)
  }

  /** `unary()` */
  function Unary(ts: seq<Token>, pos: nat, ds: seq<Diagnostic>): (r: Parsed<Expr>)
    requires ValidTokens(ts) && pos < |ts|
    ensures Outcome(ts, pos, ds, r)
    decreases |ts| - pos, 2
  {
    if Matches(ts, pos, [NEGARE, MINUS]) then
      var right := Unary(ts, pos + 1, ds);
      if right.res.Err? then Fail(right)
      else Parsed(Ok(Syntax.Unary(ts[pos], right.res.value)), right.pos, right.diags)
    else Primary(ts, pos, ds)
  }

  /** The operand of a binary level: the next level up, or `unary()` for `factor()`. */
  function Operand(ts: seq<Token>, pos: nat, level: nat, ds: seq<Diagnostic>): (r: Parsed<Expr>)
    requires ValidTokens(ts) && pos < |ts| && 1 <= level <= 6
    ensures Outcome(ts, pos, ds, r)
    decreases |ts| - pos, 4 + 3 * (6 - level)
  {
    if level == 6 then Unary(ts, pos, ds) else Level(ts, pos, level + 1, ds)
  }

  /** `or()`, `and()`, `equality()`, `comparison()`, `term()` and `factor()`:
      one operand, then the loop. */
  function Level(ts: seq<Token>, pos: nat, level: nat, ds: seq<Diagnostic>): (r: Parsed<Expr>)
    requires ValidTokens(ts) && pos < |ts| && 1 <= level <= 6
    ensures Outcome(ts, pos, ds, r)
    decreases |ts| - pos, 5 + 3 * (6 - level)
  {
    var first := Operand(ts, pos, level, ds);
    if first.res.Err? then first
    else LevelRest(ts, first.pos, level, first.res.value, first.diags)
  }

  /** The loop of a binary level: while an operator of the level follows,
      `left` becomes the node of `left`, the operator and the next operand. */
  function LevelRest(ts: seq<Token>, pos: nat, level: nat, left: Expr, ds: seq<Diagnostic>): (r: Parsed<Expr>)
    requires ValidTokens(ts) && pos < |ts| && 1 <= level <= 6
    ensures pos <= r.pos < |ts| && ds <= r.diags
    ensures r.res.Err? ==> |ds| < |r.diags|
    decreases |ts| - pos, 3 + 3 * (6 - level)
  {
    if Matches(ts, pos, Ops(level)) then
      var right := Operand(ts, pos + 1, level, ds);
      if right.res.Err? then Fail(right)
      else LevelRest(ts, right.pos, level, Combine(level, left, ts[pos], right.res.value), right.diags)
    else Parsed(Ok(left), pos, ds)
  }

  /** `assignment()`: an invalid target is reported without throwing and the
      left-hand expression is kept. */
  function Assignment(ts: seq<Token>, pos: nat, ds: seq<Diagnostic>): (r: Parsed<Expr>)
    requires ValidTokens(ts) && pos < |ts|
    ensures Outcome(ts, pos, ds, r)
    decreases |ts| - pos, 21
  {
    var target := Level(ts, pos, 1, ds);
    if target.res.Err? || !Check(ts, target.pos, ATRIBUIRE) then target
    else
      var equals := ts[target.pos];
      var value := Assignment(ts, target.pos + 1, target.diags);
      if value.res.Err? then Fail(value)
      else if target.res.value.Variable? then
        Parsed(Ok(Syntax.Assign(target.res.value.name, value.res.value)), value.pos, value.diags)
      else
        Parsed(Ok(target.res.value), value.pos, value.diags + [Diagnostic(equals, "Invalid assignment target.")])
  }

  /** `expression()` */
  function Expression(ts: seq<Token>, pos: nat, ds: seq<Diagnostic>): (r: Parsed<Expr>)
    requires ValidTokens(ts) && pos < |ts|
    ensures Outcome(ts, pos, ds, r)
    decreases |ts| - pos, 22
  {
    Assignment(ts, pos, ds)
  }

  // ---------------------------------------------------------------------------
  // Statements

  /** `expressionStatement()` */
  function ExpressionStatement(ts: seq<Token>, pos: nat, ds: seq<Diagnostic>): (r: Parsed<Stmt>)
    requires ValidTokens(ts) && pos < |ts|
    ensures Outcome(ts, pos, ds, r)
    ensures r.res.Ok? ==> r.res.value.Expression?
    decreases |ts| - pos, 23
  {
    var e := Expression(ts, pos, ds);
    if e.res.Err? then Fail(e)
    else Closed(ts, e.pos, Syntax.Expression(e.res.value), PUNCT_SI_VIRGULA, "Expect ';' after expression.", e.diags)
  }

  /** `printStatement()`, after `print` */
  function PrintStatement(ts: seq<Token>, pos: nat, ds: seq<Diagnostic>): (r: Parsed<Stmt>)
    requires ValidTokens(ts) && pos < |ts|
    ensures Outcome(ts, pos, ds, r)
    ensures r.res.Ok? ==> r.res.value.Print?
    decreases |ts| - pos, 23
  {
    var e := Expression(ts, pos, ds);
    if e.res.Err? then Fail(e)
    else Closed(ts, e.pos, Syntax.Print(e.res.value), PUNCT_SI_VIRGULA, "Expect ';' after value.", e.diags)
  }

  /** `varDeclaration()`, after `var` */
  function VarDeclaration(ts: seq<Token>, pos: nat, ds: seq<Diagnostic>): (r: Parsed<Stmt>)
    requires ValidTokens(ts) && pos < |ts|
    ensures Outcome(ts, pos, ds, r)
    ensures r.res.Ok? ==> r.res.value.Var? && r.res.value.name == ts[pos] && ts[pos].kind == IDENTIFICATOR
    decreases |ts| - pos, 23
  {
    var name := Consume(ts, pos, IDENTIFICATOR, "Expect variable name.", ds);
    if name.res.Err? then Fail(name)
    else if Check(ts, name.pos, ATRIBUIRE) then
      assert pos < name.pos + 1 < |ts|;
      var init := Expression(ts, name.pos + 1, name.diags);
      if init.res.Err? then Fail(init)
      else Closed(ts, init.pos, Syntax.Var(name.res.value, Some(init.res.value)),
                  PUNCT_SI_VIRGULA, "Expect ';' after variable declaration.", init.diags)
    else
      Closed(ts, name.pos, Syntax.Var(name.res.value, None),
             PUNCT_SI_VIRGULA, "Expect ';' after variable declaration.", name.diags)
  }

  /** `( expression )` as `whileStatement()` and `ifStatement()` read their
      condition, each with its own two messages. */
  function Condition(ts: seq<Token>, pos: nat, openMessage: string, closeMessage: string, ds: seq<Diagnostic>): (r: Parsed<Expr>)
    requires ValidTokens(ts) && pos < |ts|
    ensures Outcome(ts, pos, ds, r)
    decreases |ts| - pos, 23
  {
    var open := Consume(ts, pos, PARANTEZA_STANGA, openMessage, ds);
    if open.res.Err? then Fail(open) else
    var cond := Expression(ts, open.pos, open.diags);
    if cond.res.Err? then Fail(cond)
    else Closed(ts, cond.pos, cond.res.value, PARANTEZA_DREAPTA, closeMessage, cond.diags)
  }

  /** `whileStatement()`, after `while` */
  function WhileStatement(ts: seq<Token>, pos: nat, ds: seq<Diagnostic>): (r: Parsed<Stmt>)
    requires ValidTokens(ts) && pos < |ts|
    ensures Outcome(ts, pos, ds, r)
    ensures r.res.Ok? ==> r.res.value.While?
    decreases |ts| - pos, 23
  {
    var cond := Condition(ts, pos, "Expect '(' after 'while'.", "Expect ')' after condition.", ds);
    if cond.res.Err? then Fail(cond) else
    var body := Statement(ts, cond.pos, cond.diags);
    if body.res.Err? then Fail(body)
    else Parsed(Ok(Syntax.While(cond.res.value, body.res.value)), body.pos, body.diags)
  }

  /** `ifStatement()`, after `if` */
  function IfStatement(ts: seq<Token>, pos: nat, ds: seq<Diagnostic>): (r: Parsed<Stmt>)
    requires ValidTokens(ts) && pos < |ts|
    ensures Outcome(ts, pos, ds, r)
    ensures r.res.Ok? ==> r.res.value.If?
    decreases |ts| - pos, 23
  {
    var cond := Condition(ts, pos, "Expect '(' after 'if'.", "Expect ')' after if condition.", ds);
    if cond.res.Err? then Fail(cond) else IfBranches(ts, cond.pos, cond.res.value, cond.diags)
  }

  /** The rest of `ifStatement()` once the condition is read: an `else`
      binds to the nearest `if`. */
  function IfBranches(ts: seq<Token>, pos: nat, cond: Expr, ds: seq<Diagnostic>): (r: Parsed<Stmt>)
    requires ValidTokens(ts) && pos < |ts|
    ensures Outcome(ts, pos, ds, r)
    ensures r.res.Ok? ==> r.res.value.If? && r.res.value.condition == cond
    decreases |ts| - pos, 25
  {
    var thenBranch := Statement(ts, pos, ds);
    if thenBranch.res.Err? then Fail(thenBranch)
    else if Check(ts, thenBranch.pos, ALTFEL) then
      assert pos < thenBranch.pos + 1 < |ts|;
      var elseBranch := Statement(ts, thenBranch.pos + 1, thenBranch.diags);
      if elseBranch.res.Err? then Fail(elseBranch)
      else Parsed(Ok(Syntax.If(cond, thenBranch.res.value, Some(elseBranch.res.value))), elseBranch.pos, elseBranch.diags)
    else Parsed(Ok(Syntax.If(cond, thenBranch.res.value, None)), thenBranch.pos, thenBranch.diags)
  }

  /** The initializer clause of `forStatement()`: `;`, a `var` declaration or
      an expression statement. */
  function ForInitializer(ts: seq<Token>, pos: nat, ds: seq<Diagnostic>): (r: Parsed<Option<Stmt>>)
    requires ValidTokens(ts) && pos < |ts|
    ensures Outcome(ts, pos, ds, r)
    decreases |ts| - pos, 24
  {
    if Check(ts, pos, PUNCT_SI_VIRGULA) then Parsed(Ok(None), pos + 1, ds)
    else
      var s := if Check(ts, pos, VARIABILA) then VarDeclaration(ts, pos + 1, ds) else ExpressionStatement(ts, pos, ds);
      if s.res.Err? then Fail(s) else Parsed(Ok(Some(s.res.value)), s.pos, s.diags)
  }

  /** The condition or increment clause of `forStatement()`: absent when the
      token that ends the clause comes next. */
  function OptionalExpression(ts: seq<Token>, pos: nat, end: TokenType, ds: seq<Diagnostic>): (r: Parsed<Option<Expr>>)
    requires ValidTokens(ts) && pos < |ts|
    ensures pos <= r.pos < |ts| && ds <= r.diags
    ensures r.res.Err? ==> |ds| < |r.diags|
    ensures r.res == Ok(None) <==> Check(ts, pos, end)
    ensures r.res.Ok? && r.res.value.None? ==> r.pos == pos && r.diags == ds
    decreases |ts| - pos, 23
  {
    if Check(ts, pos, end) then Parsed(Ok(None), pos, ds)
    else
      var e := Expression(ts, pos, ds);
      if e.res.Err? then Fail(e) else Parsed(Ok(Some(e.res.value)), e.pos, e.diags)
  }

  /** The statement a `for` loop stands for: the body followed by the
      increment, repeated while the condition (true when absent) holds, after
      the initializer; each wrapper is left out when its clause is. */
  function Desugar(init: Option<Stmt>, cond: Option<Expr>, incr: Option<Expr>, body: Stmt): Stmt
  {
    var inner := if incr.Some? then Syntax.Block([Some(body), Some(Syntax.Expression(incr.value))]) else body;
    var loop := Syntax.While(if cond.Some? then cond.value else Syntax.Literal(Bool(true)), inner);
    if init.Some? then Syntax.Block([init, Some(loop)]) else loop
  }

  /** `forStatement()`, after `for`: the opening parenthesis and the initializer. */
  function ForStatement(ts: seq<Token>, pos: nat, ds: seq<Diagnostic>): (r: Parsed<Stmt>)
    requires ValidTokens(ts) && pos < |ts|
    ensures Outcome(ts, pos, ds, r)
    ensures r.res.Ok? ==> exists init, cond, incr, body :: r.res.value == Desugar(init, cond, incr, body)
    decreases |ts| - pos, 25
  {
    var open := Consume(ts, pos, PARANTEZA_STANGA, "Expect '(' after 'for'.", ds);
    if open.res.Err? then Fail(open) else
    var init := ForInitializer(ts, open.pos, open.diags);
    if init.res.Err? then Fail(init)
    else ForCondition(ts, init.pos, init.res.value, init.diags)
  }

  /** The rest of `forStatement()` once the initializer is read: the
      condition and its `;`. */
  function ForCondition(ts: seq<Token>, pos: nat, init: Option<Stmt>, ds: seq<Diagnostic>): (r: Parsed<Stmt>)
    requires ValidTokens(ts) && pos < |ts|
    ensures Outcome(ts, pos, ds, r)
    ensures r.res.Ok? ==> exists cond, incr, body :: r.res.value == Desugar(init, cond, incr, body)
    decreases |ts| - pos, 24
  {
    var cond := OptionalExpression(ts, pos, PUNCT_SI_VIRGULA, ds);
    if cond.res.Err? then Fail(cond) else
    var semi := Consume(ts, cond.pos, PUNCT_SI_VIRGULA, "Expect ';' after loop condition.", cond.diags);
    if semi.res.Err? then Fail(semi)
    else ForIncrement(ts, semi.pos, init, cond.res.value, semi.diags)
  }

  /** The rest of `forStatement()` once the condition is read: the
      increment, the closing parenthesis, the body, and the loop it stands for. */
  function ForIncrement(ts: seq<Token>, pos: nat, init: Option<Stmt>, cond: Option<Expr>, ds: seq<Diagnostic>): (r: Parsed<Stmt>)
    requires ValidTokens(ts) && pos < |ts|
    ensures Outcome(ts, pos, ds, r)
    ensures r.res.Ok? ==> exists incr, body :: r.res.value == Desugar(init, cond, incr, body)
    decreases |ts| - pos, 24
  {
    var incr := OptionalExpression(ts, pos, PARANTEZA_DREAPTA, ds);
    if incr.res.Err? then Fail(incr) else
    var close := Consume(ts, incr.pos, PARANTEZA_DREAPTA, "Expect ')' after for clauses.", incr.diags);
    if close.res.Err? then Fail(close) else
    var body := Statement(ts, close.pos, close.diags);
    if body.res.Err? then Fail(body)
    else Parsed(Ok(Desugar(init, cond, incr.res.value, body.res.value)), body.pos, body.diags)
  }

  /** The loop of `block()`: declarations up to `}` or EOF. */
  function BlockItems(ts: seq<Token>, pos: nat, ds: seq<Diagnostic>): (r: Parsed<seq<Option<Stmt>>>)
    requires ValidTokens(ts) && pos < |ts|
    ensures r.res.Ok? && pos <= r.pos < |ts| && ds <= r.diags
    ensures Check(ts, r.pos, ACOLADA_DREAPTA) || IsAtEnd(ts, r.pos)
    decreases |ts| - pos, 27
  {
    if Check(ts, pos, ACOLADA_DREAPTA) || IsAtEnd(ts, pos) then Parsed(Ok([]), pos, ds)
    else
      var d := Declaration(ts, pos, ds);
      var rest := BlockItems(ts, d.pos, d.diags);
      Parsed(Ok([d.res.value] + rest.res.value), rest.pos, rest.diags)
  }

  /** `block()`, after `{` */
  function Block(ts: seq<Token>, pos: nat, ds: seq<Diagnostic>): (r: Parsed<seq<Option<Stmt>>>)
    requires ValidTokens(ts) && pos < |ts|
    ensures Outcome(ts, pos, ds, r)
    decreases |ts| - pos, 28
  {
    var items := BlockItems(ts, pos, ds);
    Closed(ts, items.pos, items.res.value, ACOLADA_DREAPTA, "Expect '}' after block.", items.diags)
  }

  /** `statement()` */
  function Statement(ts: seq<Token>, pos: nat, ds: seq<Diagnostic>): (r: Parsed<Stmt>)
    requires ValidTokens(ts) && pos < |ts|
    ensures Outcome(ts, pos, ds, r)
    decreases |ts| - pos, 24
  {
    if Check(ts, pos, PENTRU) then ForStatement(ts, pos + 1, ds)
    else if Check(ts, pos, DACA) then IfStatement(ts, pos + 1, ds)
    else if Check(ts, pos, SCRIE) then PrintStatement(ts, pos + 1, ds)
    else if Check(ts, pos, CAT_TIMP) then WhileStatement(ts, pos + 1, ds)
    else if Check(ts, pos, ACOLADA_STANGA) then
      var b := Block(ts, pos + 1, ds);
      if b.res.Err? then Fail(b) else Parsed(Ok(Syntax.Block(b.res.value)), b.pos, b.diags)
    else ExpressionStatement(ts, pos, ds)
  }

  // ---------------------------------------------------------------------------
  // Error recovery and the program

  /** The kinds `syncronize()` stops in front of (`return` is INTOARCE). */
  predicate IsStatementStart(k: TokenType)
  {
    k in {CLASA, FUNCTIE, VARIABILA, PENTRU, DACA, CAT_TIMP, SCRIE, INTOARCE}
  }

  /** Where the loop of `syncronize()` returns: at EOF, just after a `;`, or
      just before a token that starts a statement. */
  predicate SyncPoint(ts: seq<Token>, p: nat)
    requires p < |ts|
  {
    IsAtEnd(ts, p) || (p > 0 && ts[p - 1].kind == PUNCT_SI_VIRGULA) || IsStatementStart(ts[p].kind)
  }

  function SyncFrom(ts: seq<Token>, p: nat): (q: nat)
    requires ValidTokens(ts) && p < |ts|
    ensures p <= q < |ts| && SyncPoint(ts, q)
    ensures forall i :: p <= i < q ==> !SyncPoint(ts, i)
    decreases |ts| - p
  {
    if SyncPoint(ts, p) then p else SyncFrom(ts, p + 1)
  }

  /** `syncronize()`: skips the token that failed, then stops at the first
      synchronisation point. */
  function Synchronize(ts: seq<Token>, pos: nat): (q: nat)
    requires ValidTokens(ts) && pos < |ts|
    ensures pos <= q < |ts| && SyncPoint(ts, q)
    ensures !IsAtEnd(ts, pos) ==> pos < q
    ensures forall i :: Advance(ts, pos) <= i < q ==> !SyncPoint(ts, i)
  {
    SyncFrom(ts, Advance(ts, pos))
  }

  /** The `try` part of `declaration()`: a `var` declaration or a statement. */
  function Declared(ts: seq<Token>, pos: nat, ds: seq<Diagnostic>): (r: Parsed<Stmt>)
    requires ValidTokens(ts) && pos < |ts|
    ensures Outcome(ts, pos, ds, r)
    decreases |ts| - pos, 25
  {
    if Check(ts, pos, VARIABILA) then VarDeclaration(ts, pos + 1, ds) else Statement(ts, pos, ds)
  }

  /** `declaration()`: a failed declaration is caught, the parser
      resynchronises and the slot is `null` (None). */
  function Declaration(ts: seq<Token>, pos: nat, ds: seq<Diagnostic>): (r: Parsed<Option<Stmt>>)
    requires ValidTokens(ts) && pos < |ts|
    ensures r.res.Ok? && pos <= r.pos < |ts| && ds <= r.diags
    ensures !IsAtEnd(ts, pos) ==> pos < r.pos
    ensures r.res.value.None? ==> |ds| < |r.diags| && SyncPoint(ts, r.pos)
    ensures r.res.value.None? <==> Declared(ts, pos, ds).res.Err?
    ensures Declared(ts, pos, ds).res.Ok? ==>
      r == Parsed(Ok(Some(Declared(ts, pos, ds).res.value)), Declared(ts, pos, ds).pos, Declared(ts, pos, ds).diags)
    ensures Declared(ts, pos, ds).res.Err? ==>
      r.pos == Synchronize(ts, Declared(ts, pos, ds).pos) && r.diags == Declared(ts, pos, ds).diags
    decreases |ts| - pos, 26
  {
    var s := Declared(ts, pos, ds);
    if s.res.Ok? then Parsed(Ok(Some(s.res.value)), s.pos, s.diags)
    else Parsed(Ok(None), Synchronize(ts, s.pos), s.diags)
  }

  /** The number of failed declarations. */
  function Failures(stmts: seq<Option<Stmt>>): nat
  {
    if stmts == [] then 0 else (if stmts[0].None? then 1 else 0) + Failures(stmts[1..])
  }

  /** The loop of `parse()` from `pos`. */
  function ProgramFrom(ts: seq<Token>, pos: nat, ds: seq<Diagnostic>): (r: Parsed<seq<Option<Stmt>>>)
    requires ValidTokens(ts) && pos < |ts|
    ensures r.res.Ok? && pos <= r.pos < |ts| && IsAtEnd(ts, r.pos) && ds <= r.diags
    ensures |r.res.value| <= r.pos - pos
    ensures Failures(r.res.value) <= |r.diags| - |ds|
    decreases |ts| - pos
  {
    if IsAtEnd(ts, pos) then Parsed(Ok([]), pos, ds)
    else
      var d := Declaration(ts, pos, ds);
      var rest := ProgramFrom(ts, d.pos, d.diags);
      assert ([d.res.value] + rest.res.value)[1..] == rest.res.value;
      Parsed(Ok([d.res.value] + rest.res.value), rest.pos, rest.diags)
  }

  /** `new Parser(tokens).parse()` */
  function Parse(ts: seq<Token>): Parsed<seq<Option<Stmt>>>
    requires ValidTokens(ts)
  {
    ProgramFrom(ts, 0, [])
  }
}
