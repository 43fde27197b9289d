/**
 * The parser of com/interpreter/rpdc/Parser.java as a class whose cursor
 * `current` moves over a fixed token list and whose `diagnostics` list grows
 * as errors are reported. A thrown ParseError is an `Err` result that every
 * routine passes on until `Declaration` catches it.
 *
 * Every routine is proved to leave the cursor, the diagnostics and its result
 * exactly as the function of the same name in module Grammar says.
 */
module Parsing {
  import opened Wrappers
  import opened Tokens
  import Syntax
  import Grammar

  type Expr = Syntax.Expr
  type Stmt = Syntax.Stmt

  class Parser {
    const tokens: seq<Token>
    var current: nat
    /** What was handed to `Main.error`, in order. */
    var diagnostics: seq<Grammar.Diagnostic>

    ghost predicate Valid()
      reads this
    {
      Grammar.ValidTokens(tokens) && current < |tokens|
    }

    constructor (tokens: seq<Token>)
      requires Grammar.ValidTokens(tokens)
      ensures Valid() && this.tokens == tokens && current == 0 && diagnostics == []
    {
      this.tokens := tokens;
      current := 0;
      diagnostics := [];
    }

    function IsAtEnd(): bool
      requires Valid()
      reads this
    {
      Grammar.IsAtEnd(tokens, current)
    }

    function Peek(): Token
      requires Valid()
      reads this
    {
      tokens[current]
    }

    function Previous(): Token
      requires Valid() && current > 0
      reads this
    {
      tokens[current - 1]
    }

    function Check(kind: TokenType): bool
      requires Valid()
      reads this
    {
      if IsAtEnd() then false else Peek().kind == kind
    }

    /** Java's `advance()`: it returns `previous()`, so at EOF it needs a
        token before the cursor. */
    method Advance() returns (t: Token)
      requires Valid() && (current > 0 || !IsAtEnd())
      modifies this
      ensures Valid() && current == Grammar.Advance(tokens, old(current)) && diagnostics == old(diagnostics)
      ensures current > 0 && t == tokens[current - 1]
    {
      if !IsAtEnd() {
        current := current + 1;
      }
      t := Previous();
    }

    /** Java's `match(types...)`: tries the kinds in turn. */
    method Match(kinds: seq<TokenType>) returns (b: bool)
      requires Valid()
      modifies this
      ensures Valid() && b == Grammar.Matches(tokens, old(current), kinds) && diagnostics == old(diagnostics)
      ensures current == if b then old(current) + 1 else old(current)
    {
      for i := 0 to |kinds|
        invariant current == old(current) && diagnostics == old(diagnostics)
        invariant forall j :: 0 <= j < i ==> !Check(kinds[j])
      {
        if Check(kinds[i]) {
          var t := Advance();
          return true;
        }
      }
      return false;
    }

    /** `Main.error(token, message)`. */
    method Error(token: Token, message: string)
      modifies this
      ensures current == old(current) && diagnostics == old(diagnostics) + [Grammar.Diagnostic(token, message)]
    {
      diagnostics := diagnostics + [Grammar.Diagnostic(token, message)];
    }

    method Consume(kind: TokenType, message: string) returns (r: Res<Token>)
      requires Valid()
      modifies this
      ensures Valid() && Grammar.Consume(tokens, old(current), kind, message, old(diagnostics)) == Grammar.Parsed(r, current, diagnostics)
    {
      if Check(kind) {
        var t := Advance();
        return Ok(t);
      }
      Error(Peek(), message);
      return Err;
    }

    // -------------------------------------------------------------------------
    // Expressions

    method Expression() returns (r: Res<Expr>)
      requires Valid()
      modifies this
      ensures Valid() && Grammar.Expression(tokens, old(current), old(diagnostics)) == Grammar.Parsed(r, current, diagnostics)
      decreases |tokens| - current, 22
    {
      r := Assignment();
    }

    method Assignment() returns (r: Res<Expr>)
      requires Valid()
      modifies this
      ensures Valid() && Grammar.Assignment(tokens, old(current), old(diagnostics)) == Grammar.Parsed(r, current, diagnostics)
      decreases |tokens| - current, 21
    {
      ghost var start, reported := current, diagnostics;
      var expr := Level(1);
      if expr.Err? { return Err; }
      assert Grammar.Level(tokens, start, 1, reported) == Grammar.Parsed(expr, current, diagnostics);
      if Check(ATRIBUIRE) {
        var equals := Advance();
        assert equals == tokens[current - 1];
        var value := Assignment();
        if value.Err? { return Err; }
        if expr.value.Variable? {
          return Ok(Syntax.Assign(expr.value.name, value.value));
        }
        Error(equals, "Invalid assignment target.");
      }
      return expr;
    }

    /** `or()`, `and()`, `equality()`, `comparison()`, `term()` and `factor()`. */
    method Level(level: nat) returns (r: Res<Expr>)
      requires Valid() && 1 <= level <= 6
      modifies this
      ensures Valid() && Grammar.Level(tokens, old(current), level, old(diagnostics)) == Grammar.Parsed(r, current, diagnostics)
      decreases |tokens| - current, 5 + 3 * (6 - level)
    {
      var first := Operand(level);
      if first.Err? { return Err; }
      r := LevelLoop(level, first.value);
    }

    /** The while loop of a binary level. */
    method LevelLoop(level: nat, left: Expr) returns (r: Res<Expr>)
      requires Valid() && 1 <= level <= 6
      modifies this
      ensures Valid() && Grammar.LevelRest(tokens, old(current), level, left, old(diagnostics)) == Grammar.Parsed(r, current, diagnostics)
      decreases |tokens| - current, 3 + 3 * (6 - level)
    {
      var expr := left;
      while Grammar.Matches(tokens, current, Grammar.Ops(level))
        invariant Valid() && old(current) <= current
        invariant Grammar.LevelRest(tokens, current, level, expr, diagnostics)
               == Grammar.LevelRest(tokens, old(current), level, left, old(diagnostics))
        decreases |tokens| - current
      {
        var operator := Advance();
        var right := Operand(level);
        if right.Err? { return Err; }
        expr := Grammar.Combine(level, expr, operator, right.value);
      }
      return Ok(expr);
    }

    /** What a binary level reads between its operators. */
    method Operand(level: nat) returns (r: Res<Expr>)
      requires Valid() && 1 <= level <= 6
      modifies this
      ensures Valid() && Grammar.Operand(tokens, old(current), level, old(diagnostics)) == Grammar.Parsed(r, current, diagnostics)
      decreases |tokens| - current, 4 + 3 * (6 - level)
    {
      if level == 6 {
        r := Unary();
      } else {
        r := Level(level + 1);
      }
    }

    method Unary() returns (r: Res<Expr>)
      requires Valid()
      modifies this
      ensures Valid() && Grammar.Unary(tokens, old(current), old(diagnostics)) == Grammar.Parsed(r, current, diagnostics)
      decreases |tokens| - current, 2
    {
      var m := Match([NEGARE, MINUS]);
      if m {
        var operator := Previous();
        var right := Unary();
        if right.Err? { return Err; }
        return Ok(Syntax.Unary(operator, right.value));
      }
      r := Primary();
    }

    /** Java's `primary()`, whose first five `match` calls test distinct
        kinds and are taken as one. */
    method Primary() returns (r: Res<Expr>)
      requires Valid()
      modifies this
      ensures Valid() && Grammar.Primary(tokens, old(current), old(diagnostics)) == Grammar.Parsed(r, current, diagnostics)
      decreases |tokens| - current, 1
    {
      var m := Match(Grammar.AtomKinds());
      if m {
        return Ok(Grammar.Atom(Previous()));
      }
      m := Match([PARANTEZA_STANGA]);
      if m {
        r := Grouping();
        return;
      }
      Error(Peek(), "Expect expression.");
      return Err;
    }
  
    /** The parenthesised case of `primary()`, after `(`. */
    method Grouping() returns (r: Res<Expr>)
      requires Valid()
      modifies this
      ensures Valid() && Grammar.Grouping(tokens, old(current), old(diagnostics)) == Grammar.Parsed(r, current, diagnostics)
      decreases |tokens| - current, 23
    {
      var expr := Expression();
      if expr.Err? { return Err; }
      var close := Consume(PARANTEZA_DREAPTA, "Expect ')' after expression.");
      if close.Err? { return Err; }
      return Ok(Syntax.Grouping(expr.value));
    }
    // -------------------------------------------------------------------------
    // Statements

    method ExpressionStatement() returns (r: Res<Stmt>)
      requires Valid()
      modifies this
      ensures Valid() && Grammar.ExpressionStatement(tokens, old(current), old(diagnostics)) == Grammar.Parsed(r, current, diagnostics)
      decreases |tokens| - current, 23
    {
      var expr := Expression();
      if expr.Err? { return Err; }
      var semicolon := Consume(PUNCT_SI_VIRGULA, "Expect ';' after expression.");
      if semicolon.Err? { return Err; }
      return Ok(Syntax.Expression(expr.value));
    }

    /** After `print`. */
    method PrintStatement() returns (r: Res<Stmt>)
      requires Valid()
      modifies this
      ensures Valid() && Grammar.PrintStatement(tokens, old(current), old(diagnostics)) == Grammar.Parsed(r, current, diagnostics)
      decreases |tokens| - current, 23
    {
      var value := Expression();
      if value.Err? { return Err; }
      var semicolon := Consume(PUNCT_SI_VIRGULA, "Expect ';' after value.");
      if semicolon.Err? { return Err; }
      return Ok(Syntax.Print(value.value));
    }

    /** After `var`. */
    method VarDeclaration() returns (r: Res<Stmt>)
      requires Valid()
      modifies this
      ensures Valid() && Grammar.VarDeclaration(tokens, old(current), old(diagnostics)) == Grammar.Parsed(r, current, diagnostics)
      decreases |tokens| - current, 23
    {
      var name := Consume(IDENTIFICATOR, "Expect variable name.");
      if name.Err? { return Err; }
      var initializer: Option<Expr> := None;
      if Check(ATRIBUIRE) {
        var equals := Advance();
        var e := Expression();
        if e.Err? { return Err; }
        initializer := Some(e.value);
      }
      var semicolon := Consume(PUNCT_SI_VIRGULA, "Expect ';' after variable declaration.");
      if semicolon.Err? { return Err; }
      return Ok(Syntax.Var(name.value, initializer));
    }

    /** The parenthesised condition of `while` and `if`. */
    method Condition(openMessage: string, closeMessage: string) returns (r: Res<Expr>)
      requires Valid()
      modifies this
      ensures Valid() && Grammar.Condition(tokens, old(current), openMessage, closeMessage, old(diagnostics)) == Grammar.Parsed(r, current, diagnostics)
      decreases |tokens| - current, 23
    {
      var open := Consume(PARANTEZA_STANGA, openMessage);
      if open.Err? { return Err; }
      r := Expression();
      if r.Err? { return; }
      var close := Consume(PARANTEZA_DREAPTA, closeMessage);
      if close.Err? { return Err; }
    }

    /** After `while`. */
    method WhileStatement() returns (r: Res<Stmt>)
      requires Valid()
      modifies this
      ensures Valid() && Grammar.WhileStatement(tokens, old(current), old(diagnostics)) == Grammar.Parsed(r, current, diagnostics)
      decreases |tokens| - current, 23
    {
      var condition := Condition("Expect '(' after 'while'.", "Expect ')' after condition.");
      if condition.Err? { return Err; }
      var body := Statement();
      if body.Err? { return Err; }
      return Ok(Syntax.While(condition.value, body.value));
    }

    /** After `if`. */
    method IfStatement() returns (r: Res<Stmt>)
      requires Valid()
      modifies this
      ensures Valid() && Grammar.IfStatement(tokens, old(current), old(diagnostics)) == Grammar.Parsed(r, current, diagnostics)
      decreases |tokens| - current, 23
    {
      var condition := Condition("Expect '(' after 'if'.", "Expect ')' after if condition.");
      if condition.Err? { return Err; }
      r := IfBranches(condition.value);
    }

    /** The branches of `ifStatement()`. */
    method IfBranches(condition: Expr) returns (r: Res<Stmt>)
      requires Valid()
      modifies this
      ensures Valid() && Grammar.IfBranches(tokens, old(current), condition, old(diagnostics)) == Grammar.Parsed(r, current, diagnostics)
      decreases |tokens| - current, 25
    {
      ghost var start, reported := current, diagnostics;
      var thenBranch := Statement();
      if thenBranch.Err? { return Err; }
      assert Grammar.Statement(tokens, start, reported) == Grammar.Parsed(thenBranch, current, diagnostics);
      if Check(ALTFEL) {
        var keyword := Advance();
        var s := Statement();
        if s.Err? { return Err; }
        return Ok(Syntax.If(condition, thenBranch.value, Some(s.value)));
      }
      return Ok(Syntax.If(condition, thenBranch.value, None));
    }

    /** After `for`: the opening parenthesis and the initializer. */
    method ForStatement() returns (r: Res<Stmt>)
      requires Valid()
      modifies this
      ensures Valid() && Grammar.ForStatement(tokens, old(current), old(diagnostics)) == Grammar.Parsed(r, current, diagnostics)
      decreases |tokens| - current, 25
    {
      var open := Consume(PARANTEZA_STANGA, "Expect '(' after 'for'.");
      if open.Err? { return Err; }
      var initializer := ForInitializer();
      if initializer.Err? { return Err; }
      r := ForCondition(initializer.value);
    }

    method ForInitializer() returns (r: Res<Option<Stmt>>)
      requires Valid()
      modifies this
      ensures Valid() && Grammar.ForInitializer(tokens, old(current), old(diagnostics)) == Grammar.Parsed(r, current, diagnostics)
      decreases |tokens| - current, 24
    {
      if Check(PUNCT_SI_VIRGULA) {
        var semicolon := Advance();
        return Ok(None);
      }
      var s: Res<Stmt>;
      if Check(VARIABILA) {
        var keyword := Advance();
        s := VarDeclaration();
      } else {
        s := ExpressionStatement();
      }
      if s.Err? { return Err; }
      return Ok(Some(s.value));
    }

    /** The condition clause and its `;`. */
    method ForCondition(initializer: Option<Stmt>) returns (r: Res<Stmt>)
      requires Valid()
      modifies this
      ensures Valid() && Grammar.ForCondition(tokens, old(current), initializer, old(diagnostics)) == Grammar.Parsed(r, current, diagnostics)
      decreases |tokens| - current, 24
    {
      var condition := OptionalExpression(PUNCT_SI_VIRGULA);
      if condition.Err? { return Err; }
      var semicolon := Consume(PUNCT_SI_VIRGULA, "Expect ';' after loop condition.");
      if semicolon.Err? { return Err; }
      r := ForIncrement(initializer, condition.value);
    }

    /** The increment clause, its `)`, the body, and the loop they stand for. */
    method ForIncrement(initializer: Option<Stmt>, condition: Option<Expr>) returns (r: Res<Stmt>)
      requires Valid()
      modifies this
      ensures Valid() && Grammar.ForIncrement(tokens, old(current), initializer, condition, old(diagnostics)) == Grammar.Parsed(r, current, diagnostics)
      decreases |tokens| - current, 24
    {
      var increment := OptionalExpression(PARANTEZA_DREAPTA);
      if increment.Err? { return Err; }
      var close := Consume(PARANTEZA_DREAPTA, "Expect ')' after for clauses.");
      if close.Err? { return Err; }
      var body := Statement();
      if body.Err? { return Err; }
      return Ok(Grammar.Desugar(initializer, condition, increment.value, body.value));
    }

    /** A clause of `for` that is absent when `end` comes next. */
    method OptionalExpression(end: TokenType) returns (r: Res<Option<Expr>>)
      requires Valid()
      modifies this
      ensures Valid() && Grammar.OptionalExpression(tokens, old(current), end, old(diagnostics)) == Grammar.Parsed(r, current, diagnostics)
      decreases |tokens| - current, 23
    {
      if Check(end) { return Ok(None); }
      var e := Expression();
      if e.Err? { return Err; }
      return Ok(Some(e.value));
    }

    /** After `{`. */
    method Block() returns (r: Res<seq<Option<Stmt>>>)
      requires Valid()
      modifies this
      ensures Valid() && Grammar.Block(tokens, old(current), old(diagnostics)) == Grammar.Parsed(r, current, diagnostics)
      decreases |tokens| - current, 28
    {
      ghost var whole := Grammar.BlockItems(tokens, current, diagnostics);
      var statements: seq<Option<Stmt>> := [];
      assert whole.res.value == statements + whole.res.value;
      while !Check(ACOLADA_DREAPTA) && !IsAtEnd()
        invariant Valid() && old(current) <= current
        invariant whole.res.value == statements + Grammar.BlockItems(tokens, current, diagnostics).res.value
        invariant whole.pos == Grammar.BlockItems(tokens, current, diagnostics).pos
        invariant whole.diags == Grammar.BlockItems(tokens, current, diagnostics).diags
        decreases |tokens| - current
      {
        ghost var before := Grammar.BlockItems(tokens, current, diagnostics);
        var d := Declaration();
        assert before.res.value == [d] + Grammar.BlockItems(tokens, current, diagnostics).res.value;
        AppendAssociates(statements, [d], Grammar.BlockItems(tokens, current, diagnostics).res.value);
        statements := statements + [d];
      }
      assert whole.res == Ok(statements + []) && statements + [] == statements;
      var close := Consume(ACOLADA_DREAPTA, "Expect '}' after block.");
      if close.Err? { return Err; }
      return Ok(statements);
    }

    /** Java's `statement()`. Each `match(K)` there is a `check(K)` followed
        by an `advance()` that consumes the keyword. */
    method Statement() returns (r: Res<Stmt>)
      requires Valid()
      modifies this
      ensures Valid() && Grammar.Statement(tokens, old(current), old(diagnostics)) == Grammar.Parsed(r, current, diagnostics)
      decreases |tokens| - current, 24
    {
      if Check(PENTRU) {
        var keyword := Advance();
        r := ForStatement();
      } else if Check(DACA) {
        var keyword := Advance();
        r := IfStatement();
      } else if Check(SCRIE) {
        var keyword := Advance();
        r := PrintStatement();
      } else if Check(CAT_TIMP) {
        var keyword := Advance();
        r := WhileStatement();
      } else if Check(ACOLADA_STANGA) {
        var keyword := Advance();
        var b := Block();
        r := if b.Ok? then Ok(Syntax.Block(b.value)) else Err;
      } else {
        r := ExpressionStatement();
      }
    }

    // -------------------------------------------------------------------------
    // Error recovery and the program

    /** Java's `syncronize()`. */
    method Synchronize()
      requires Valid() && (current > 0 || !IsAtEnd())
      modifies this
      ensures Valid() && current == Grammar.Synchronize(tokens, old(current)) && diagnostics == old(diagnostics)
    {
      var skipped := Advance();
      while !IsAtEnd()
        invariant Valid() && current > 0 && diagnostics == old(diagnostics)
        invariant Grammar.SyncFrom(tokens, current) == Grammar.Synchronize(tokens, old(current))
        decreases |tokens| - current
      {
        if Previous().kind == PUNCT_SI_VIRGULA { return; }
        if Grammar.IsStatementStart(Peek().kind) { return; }
        skipped := Advance();
      }
    }

    /** A ParseError is caught here: the parser resynchronises and the slot
        is `null` (None). `syncronize()` reads the token before the one it
        skips, so there must be one: `parse()` and `block()` call this only
        while the next token is not EOF, so the token list is not empty. */
    method Declaration() returns (r: Option<Stmt>)
      requires Valid() && (current > 0 || !IsAtEnd())
      modifies this
      ensures Valid() && Grammar.Declaration(tokens, old(current), old(diagnostics)) == Grammar.Parsed(Ok(r), current, diagnostics)
      decreases |tokens| - current, 26
    {
      var s: Res<Stmt>;
      if Check(VARIABILA) {
        var keyword := Advance();
        s := VarDeclaration();
      } else {
        s := Statement();
      }
      if s.Ok? { return Some(s.value); }
      Synchronize();
      return None;
    }

    /** Java's `parse()`: declarations up to EOF. */
    method Parse() returns (statements: seq<Option<Stmt>>)
      requires Valid()
      modifies this
      ensures Valid() && Grammar.ProgramFrom(tokens, old(current), old(diagnostics)) == Grammar.Parsed(Ok(statements), current, diagnostics)
    {
      ghost var whole := Grammar.ProgramFrom(tokens, current, diagnostics);
      statements := [];
      assert whole.res.value == statements + whole.res.value;
      while !IsAtEnd()
        invariant Valid() && old(current) <= current
        invariant whole.res.value == statements + Grammar.ProgramFrom(tokens, current, diagnostics).res.value
        invariant whole.pos == Grammar.ProgramFrom(tokens, current, diagnostics).pos
        invariant whole.diags == Grammar.ProgramFrom(tokens, current, diagnostics).diags
        decreases |tokens| - current
      {
        ghost var before := Grammar.ProgramFrom(tokens, current, diagnostics);
        var d := Declaration();
        assert before.res.value == [d] + Grammar.ProgramFrom(tokens, current, diagnostics).res.value;
        AppendAssociates(statements, [d], Grammar.ProgramFrom(tokens, current, diagnostics).res.value);
        statements := statements + [d];
      }
      assert whole.res == Ok(statements + []) && statements + [] == statements;
    }
  }

  lemma {:induction false} AppendAssociates<T>(a: seq<T>, b: seq<T>, c: seq<T>)
    ensures a + (b + c) == (a + b) + c
  {
  }

  /** `new Parser(tokens).parse()`, with what it reported through `Main.error`. */
  method ParseTokens(tokens: seq<Token>) returns (statements: seq<Option<Stmt>>, diagnostics: seq<Grammar.Diagnostic>)
    requires Grammar.ValidTokens(tokens)
    ensures Grammar.Parse(tokens).res == Ok(statements) && Grammar.Parse(tokens).diags == diagnostics
  {
    var parser := new Parser(tokens);
    statements := parser.Parse();
    diagnostics := parser.diagnostics;
  }
}
