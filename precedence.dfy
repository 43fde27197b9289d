/**
 * Every expression the routines of com/interpreter/rpdc/Parser.java build
 * has the shape `Form` of module Grammar for the rule that built it, and what
 * that shape says about associativity and precedence.
 */
module Precedence {
  import opened Tokens
  import opened Grammar
  import Syntax

  // ---------------------------------------------------------------------------
  // The parsed trees have the shape of their rule

  lemma {:induction false} PrimaryForm(ts: seq<Token>, pos: nat, ds: seq<Diagnostic>)
    requires ValidTokens(ts) && pos < |ts|
    ensures var r := Primary(ts, pos, ds); r.res.Ok? ==> Form(r.res.value, PrimaryLevel)
    decreases |ts| - pos, 1
  {
    if !Matches(ts, pos, AtomKinds()) && Matches(ts, pos, [PARANTEZA_STANGA]) {
      GroupingForm(ts, pos + 1, ds);
    }
  }

  lemma {:induction false} GroupingForm(ts: seq<Token>, pos: nat, ds: seq<Diagnostic>)
    requires ValidTokens(ts) && pos < |ts|
    ensures var r := Grouping(ts, pos, ds); r.res.Ok? ==> Form(r.res.value, PrimaryLevel)
    decreases |ts| - pos, 23
  {
    ExpressionForm(ts, pos, ds);
  }

  lemma {:induction false} UnaryForm(ts: seq<Token>, pos: nat, ds: seq<Diagnostic>)
    requires ValidTokens(ts) && pos < |ts|
    ensures var r := Unary(ts, pos, ds); r.res.Ok? ==> Form(r.res.value, UnaryLevel)
    decreases |ts| - pos, 2
  {
    if Matches(ts, pos, [NEGARE, MINUS]) {
      UnaryForm(ts, pos + 1, ds);
    } else {
      PrimaryForm(ts, pos, ds);
    }
  }

  lemma {:induction false} OperandForm(ts: seq<Token>, pos: nat, level: nat, ds: seq<Diagnostic>)
    requires ValidTokens(ts) && pos < |ts| && 1 <= level <= 6
    ensures var r := Operand(ts, pos, level, ds); r.res.Ok? ==> Form(r.res.value, level + 1)
    decreases |ts| - pos, 4 + 3 * (6 - level)
  {
    if level == 6 {
      UnaryForm(ts, pos, ds);
    } else {
      LevelForm(ts, pos, level + 1, ds);
    }
  }

  lemma {:induction false} LevelForm(ts: seq<Token>, pos: nat, level: nat, ds: seq<Diagnostic>)
    requires ValidTokens(ts) && pos < |ts| && 1 <= level <= 6
    ensures var r := Level(ts, pos, level, ds); r.res.Ok? ==> Form(r.res.value, level)
    decreases |ts| - pos, 5 + 3 * (6 - level)
  {
    OperandForm(ts, pos, level, ds);
    var first := Operand(ts, pos, level, ds);
    if first.res.Ok? {
      LevelRestForm(ts, first.pos, level, first.res.value, first.diags);
    }
  }

  /** The loop of a binary level keeps the shape of the tree it extends. */
  lemma {:induction false} LevelRestForm(ts: seq<Token>, pos: nat, level: nat, left: Expr, ds: seq<Diagnostic>)
    requires ValidTokens(ts) && pos < |ts| && 1 <= level <= 6 && Form(left, level)
    ensures var r := LevelRest(ts, pos, level, left, ds); r.res.Ok? ==> Form(r.res.value, level)
    decreases |ts| - pos, 3 + 3 * (6 - level)
  {
    if Matches(ts, pos, Ops(level)) {
      OperandForm(ts, pos + 1, level, ds);
      var right := Operand(ts, pos + 1, level, ds);
      if right.res.Ok? {
        assert OpLevel(ts[pos].kind) == level;
        LevelRestForm(ts, right.pos, level, Combine(level, left, ts[pos], right.res.value), right.diags);
      }
    }
  }

  lemma {:induction false} AssignmentForm(ts: seq<Token>, pos: nat, ds: seq<Diagnostic>)
    requires ValidTokens(ts) && pos < |ts|
    ensures var r := Assignment(ts, pos, ds); r.res.Ok? ==> Form(r.res.value, 0)
    decreases |ts| - pos, 21
  {
    LevelForm(ts, pos, 1, ds);
    var target := Level(ts, pos, 1, ds);
    if target.res.Ok? && Check(ts, target.pos, ATRIBUIRE) {
      AssignmentForm(ts, target.pos + 1, target.diags);
      var value := Assignment(ts, target.pos + 1, target.diags);
      if value.res.Ok? {
        assert Assignment(ts, pos, ds).res.value
          == if target.res.value.Variable? then Syntax.Assign(target.res.value.name, value.res.value) else target.res.value;
      }
    } else {
      assert Assignment(ts, pos, ds) == target;
    }
  }

  /** Every expression the parser returns has the shape of an assignment. */
  lemma {:induction false} ExpressionForm(ts: seq<Token>, pos: nat, ds: seq<Diagnostic>)
    requires ValidTokens(ts) && pos < |ts|
    ensures var r := Expression(ts, pos, ds); r.res.Ok? ==> Form(r.res.value, 0)
    decreases |ts| - pos, 22
  {
    AssignmentForm(ts, pos, ds);
  }

  // ---------------------------------------------------------------------------
  // What the shape says

  /** A tree that fits a rule fits every looser rule. */
  lemma {:induction false} FormLoosens(e: Expr, tight: nat, loose: nat)
    requires loose <= tight && Form(e, tight)
    ensures Form(e, loose)
  {
  }

  /** At a binary level the left operand binds no looser than the node and
      the right operand strictly tighter: `a - b - c` can only be
      `(a - b) - c`, and `a * b + c` only `(a * b) + c`. */
  lemma {:induction false} LeftAssociative(e: Expr, level: nat)
    requires Form(e, level) && (e.Binary? || e.Logical?)
    ensures level <= Binding(e) && 1 <= Binding(e) <= 6 && e.op.kind in Ops(Binding(e))
    ensures level <= Binding(e.left) && Binding(e) < Binding(e.right)
  {
  }
}
