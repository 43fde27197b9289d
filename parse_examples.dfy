/**
 * The trees the parser builds for a few small inputs, worked through the
 * functions of module Grammar. Each input is described by the kinds of its
 * tokens, so the lemmas hold whatever the names and numbers are.
 */
module ParseExamples {
  import opened Wrappers
  import opened Tokens
  import opened Grammar
  import Syntax

  /** A name or a number followed by no operator tighter than `level` is,
      as the operand of `level`, just that atom. */
  lemma {:induction false} AtomOperand(ts: seq<Token>, p: nat, level: nat, ds: seq<Diagnostic>)
    requires ValidTokens(ts) && p + 1 < |ts| && 1 <= level <= 6
    requires ts[p].kind == IDENTIFICATOR || ts[p].kind == NUMAR
    requires OpLevel(ts[p + 1].kind) <= level
    ensures Operand(ts, p, level, ds) == Parsed(Ok(Atom(ts[p])), p + 1, ds)
    decreases 6 - level
  {
    if level < 6 {
      AtomOperand(ts, p, level + 1, ds);
      assert !Matches(ts, p + 1, Ops(level + 1));
      assert LevelRest(ts, p + 1, level + 1, Atom(ts[p]), ds) == Parsed(Ok(Atom(ts[p])), p + 1, ds);
    } else {
      assert Primary(ts, p, ds) == Parsed(Ok(Atom(ts[p])), p + 1, ds);
      assert Unary(ts, p, ds) == Primary(ts, p, ds);
    }
  }

  /** One turn of the loop of a binary level. */
  lemma {:induction false} LevelRestTurn(ts: seq<Token>, p: nat, level: nat, left: Expr, ds: seq<Diagnostic>, right: Parsed<Expr>, r: Parsed<Expr>)
    requires ValidTokens(ts) && p + 1 < |ts| && 1 <= level <= 6
    requires Matches(ts, p, Ops(level))
    requires Operand(ts, p + 1, level, ds) == right && right.res.Ok?
    requires LevelRest(ts, right.pos, level, Combine(level, left, ts[p], right.res.value), right.diags) == r
    ensures LevelRest(ts, p, level, left, ds) == r
  {
  }

  /** A tree of a binary level, ending at EOF, is the whole expression. */
  lemma {:induction false} ExpressionAtEnd(ts: seq<Token>, p: nat, level: nat, ds: seq<Diagnostic>, first: Parsed<Expr>, r: Parsed<Expr>)
    requires ValidTokens(ts) && p < |ts| && 1 <= level <= 6
    requires Operand(ts, p, level, ds) == first && first.res.Ok?
    requires LevelRest(ts, first.pos, level, first.res.value, first.diags) == r
    requires r.res.Ok? && IsAtEnd(ts, r.pos)
    ensures Expression(ts, p, ds) == r
    decreases level
  {
    assert Level(ts, p, level, ds) == r;
    if level > 1 {
      assert LevelRest(ts, r.pos, level - 1, r.res.value, r.diags) == r;
      ExpressionAtEnd(ts, p, level - 1, ds, r, r);
    }
  }

  /** `a - b - c` is `(a - b) - c`. */
  lemma {:induction false} SubtractionIsLeftAssociative(ts: seq<Token>)
    requires ValidTokens(ts) && |ts| == 6
    requires ts[0].kind == ts[2].kind == ts[4].kind == IDENTIFICATOR && ts[1].kind == ts[3].kind == MINUS
    ensures Expression(ts, 0, []).res
        == Ok(Syntax.Binary(Syntax.Binary(Syntax.Variable(ts[0]), ts[1], Syntax.Variable(ts[2])), ts[3], Syntax.Variable(ts[4])))
  {
    var a, b, c := Atom(ts[0]), Atom(ts[2]), Atom(ts[4]);
    AtomOperand(ts, 0, 5, []);
    AtomOperand(ts, 2, 5, []);
    AtomOperand(ts, 4, 5, []);
    var ab := Syntax.Binary(a, ts[1], b);
    var r := Parsed(Ok(Syntax.Binary(ab, ts[3], c)), 5, []);
    assert LevelRest(ts, 5, 5, r.res.value, []) == r;
    LevelRestTurn(ts, 3, 5, ab, [], Parsed(Ok(c), 5, []), r);
    LevelRestTurn(ts, 1, 5, a, [], Parsed(Ok(b), 3, []), r);
    ExpressionAtEnd(ts, 0, 5, [], Parsed(Ok(a), 1, []), r);
  }

  /** `2 + 3 * 4` is `2 + (3 * 4)`. */
  lemma {:induction false} ProductBindsTighter(ts: seq<Token>)
    requires ValidTokens(ts) && |ts| == 6
    requires ts[0].kind == ts[2].kind == ts[4].kind == NUMAR && ts[1].kind == PLUS && ts[3].kind == STAR
    ensures Expression(ts, 0, []).res
        == Ok(Syntax.Binary(Syntax.Literal(ts[0].literal), ts[1], Syntax.Binary(Syntax.Literal(ts[2].literal), ts[3], Syntax.Literal(ts[4].literal))))
  {
    var a, b, c := Atom(ts[0]), Atom(ts[2]), Atom(ts[4]);
    AtomOperand(ts, 0, 5, []);
    AtomOperand(ts, 2, 6, []);
    AtomOperand(ts, 4, 6, []);
    var bc := Parsed(Ok(Syntax.Binary(b, ts[3], c)), 5, []);
    assert LevelRest(ts, 5, 6, bc.res.value, []) == bc;
    LevelRestTurn(ts, 3, 6, b, [], Parsed(Ok(c), 5, []), bc);
    assert Operand(ts, 2, 5, []) == bc;
    var r := Parsed(Ok(Syntax.Binary(a, ts[1], bc.res.value)), 5, []);
    assert LevelRest(ts, 5, 5, r.res.value, []) == r;
    LevelRestTurn(ts, 1, 5, a, [], bc, r);
    ExpressionAtEnd(ts, 0, 5, [], Parsed(Ok(a), 1, []), r);
  }

  /** A name or a number followed by no operator is the whole disjunction. */
  lemma {:induction false} AtomLevel(ts: seq<Token>, p: nat, ds: seq<Diagnostic>)
    requires ValidTokens(ts) && p + 1 < |ts|
    requires ts[p].kind == IDENTIFICATOR || ts[p].kind == NUMAR
    requires OpLevel(ts[p + 1].kind) == 0
    ensures Level(ts, p, 1, ds) == Parsed(Ok(Atom(ts[p])), p + 1, ds)
  {
    AtomOperand(ts, p, 1, ds);
    assert LevelRest(ts, p + 1, 1, Atom(ts[p]), ds) == Parsed(Ok(Atom(ts[p])), p + 1, ds);
  }

  /** `a = b = c` is `a = (b = c)`. */
  lemma {:induction false} AssignmentIsRightAssociative(ts: seq<Token>)
    requires ValidTokens(ts) && |ts| == 6
    requires ts[0].kind == ts[2].kind == ts[4].kind == IDENTIFICATOR && ts[1].kind == ts[3].kind == ATRIBUIRE
    ensures Expression(ts, 0, []).res
        == Ok(Syntax.Assign(ts[0], Syntax.Assign(ts[2], Syntax.Variable(ts[4]))))
  {
    AtomLevel(ts, 4, []);
    var c := Parsed(Ok(Syntax.Variable(ts[4])), 5, []);
    assert Assignment(ts, 4, []) == c;
    AtomLevel(ts, 2, []);
    var bc := Parsed(Ok(Syntax.Assign(ts[2], c.res.value)), 5, []);
    assert Assignment(ts, 2, []) == bc;
    AtomLevel(ts, 0, []);
    assert Assignment(ts, 0, []) == Parsed(Ok(Syntax.Assign(ts[0], bc.res.value)), 5, []);
  }

  /** `1 = 2` reports an invalid target at the `=` without a ParseError and
      keeps the left-hand side. */
  lemma {:induction false} InvalidAssignmentTarget(ts: seq<Token>)
    requires ValidTokens(ts) && |ts| == 4
    requires ts[0].kind == ts[2].kind == NUMAR && ts[1].kind == ATRIBUIRE
    ensures Expression(ts, 0, []) == Parsed(Ok(Syntax.Literal(ts[0].literal)), 3, [Diagnostic(ts[1], "Invalid assignment target.")])
  {
    AtomLevel(ts, 2, []);
    assert Assignment(ts, 2, []) == Parsed(Ok(Atom(ts[2])), 3, []);
    AtomLevel(ts, 0, []);
  }
}
