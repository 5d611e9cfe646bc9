// The table-driven loop of calc.rs computes what the recursive-descent
// reference computes: every phrase parser of module Reference is matched by
// a run of the loop that replaces the phrase's non-terminal on top of the
// parse stack by the phrase's value on top of the value stack (and consumes
// the same tokens), or that reaches a syntax error (lexeme RESET) at the
// cursor the reference reports. Whole sessions then end, or hang, with the
// same output.

module Simulation {
  import opened Tokens
  import opened Lexer
  import opened ParseTable
  import opened Machine
  import opened Reference

  /** The lookahead part of a machine state. */
  function LookOf(s: State): Look {
    Look(s.cursor, s.lexeme, s.value)
  }

  /** A right-hand side pushed onto rest, seen with its last symbol on top. */
  lemma Push2(rest: seq<Token>, a: Token, b: Token)
    ensures rest + [a, b] == (rest + [a]) + [b]
  {
  }

  lemma Push3(rest: seq<Token>, a: Token, b: Token, c: Token)
    ensures rest + [a, b, c] == (rest + [a, b]) + [c]
  {
  }

  /** s with the given stacks and lookahead, its output unchanged. */
  function Resume(s: State, stack: seq<Token>, values: seq<Value>, l: Look): State {
    State(stack, values, l.cursor, l.lexeme, l.value, s.out)
  }

  /** The loop gets from s to a syntax error detected at cursor c, with out
      printed so far. */
  ghost predicate FailsWith(input: seq<char>, s: State, c: nat, out: seq<Output>)
    requires s.cursor <= |input|
  {
    exists t: State :: Reaches(input, s, t) && t.lexeme == RESET && t.cursor == c && t.out == out
  }

  lemma FailsAfter(input: seq<char>, s: State, s1: State, c: nat, out: seq<Output>)
    requires s.cursor <= |input| && s1.cursor <= |input|
    requires Reaches(input, s, s1) && FailsWith(input, s1, c, out)
    ensures FailsWith(input, s, c, out)
  {
    var t: State :| Reaches(input, s1, t) && t.lexeme == RESET && t.cursor == c && t.out == out;
    ReachesTrans(input, s, s1, t);
  }

  /** Filling the cell of a state is peeking at its lookahead. */
  lemma FillIsPeek(input: seq<char>, s: State)
    requires s.cursor <= |input|
    ensures Fill(input, s) == Resume(s, s.stack, s.values, Peek(input, LookOf(s)))
  {
  }

  // ---------------------------------------------------------------------------
  // Single iterations, stated as reachability

  /** Expanding the non-terminal on top: a table hit pushes the reversed
      production, a miss is a syntax error where the lookahead was read. */
  lemma Expand(input: seq<char>, s: State, rest: seq<Token>, n: ENonTerminal)
    requires s.cursor <= |input| && s.lexeme != RESET && s.stack == rest + [NonTerminal(n)]
    ensures var p := Peek(input, LookOf(s));
            match Table(p.lexeme, n)
            case Some(rhs) => Reaches(input, s, Resume(s, rest + Reverse(rhs), s.values, p))
            case None => FailsWith(input, s, p.cursor, s.out)
  {
    var p := Peek(input, LookOf(s));
    ExpandStep(input, s, rest, n);
    FillIsPeek(input, s);
    var t := Step(input, s).s;
    ReachesStep(input, s, t);
  }

  /** Matching the terminal on top: the token in the cell is consumed if it
      is the one expected; otherwise a syntax error where it was read. */
  lemma Match(input: seq<char>, s: State, rest: seq<Token>, term: ETerminal)
    requires s.cursor <= |input| && s.lexeme != RESET && s.stack == rest + [Terminal(term)]
    ensures var p := Peek(input, LookOf(s));
            && (p.lexeme == term ==> Reaches(input, s, Resume(s, rest, s.values, Consume(p))))
            && (p.lexeme != term ==> FailsWith(input, s, p.cursor, s.out))
  {
    MatchStep(input, s, rest, term);
    FillIsPeek(input, s);
    var t := Step(input, s).s;
    ReachesStep(input, s, t);
  }

  lemma ExpandSome(input: seq<char>, s: State, rest: seq<Token>, n: ENonTerminal, rhs: seq<Token>)
    requires s.cursor <= |input| && s.lexeme != RESET && s.stack == rest + [NonTerminal(n)]
    requires Table(Peek(input, LookOf(s)).lexeme, n) == Some(rhs)
    ensures Reaches(input, s, Resume(s, rest + Reverse(rhs), s.values, Peek(input, LookOf(s))))
  {
    Expand(input, s, rest, n);
  }

  /** An empty production: the non-terminal is popped and nothing pushed. */
  lemma ExpandEmpty(input: seq<char>, s: State, rest: seq<Token>, n: ENonTerminal)
    requires s.cursor <= |input| && s.lexeme != RESET && s.stack == rest + [NonTerminal(n)]
    requires Table(Peek(input, LookOf(s)).lexeme, n) == Some([])
    ensures Reaches(input, s, Resume(s, rest, s.values, Peek(input, LookOf(s))))
  {
    Expand(input, s, rest, n);
    assert rest + Reverse([]) == rest;
  }

  lemma ExpandMiss(input: seq<char>, s: State, rest: seq<Token>, n: ENonTerminal)
    requires s.cursor <= |input| && s.lexeme != RESET && s.stack == rest + [NonTerminal(n)]
    requires Table(Peek(input, LookOf(s)).lexeme, n) == None
    ensures FailsWith(input, s, Peek(input, LookOf(s)).cursor, s.out)
  {
    Expand(input, s, rest, n);
  }

  /** A production that starts with the lookahead terminal: expand, then
      match that terminal at once. */
  lemma ExpandMatch(input: seq<char>, s: State, rest: seq<Token>, n: ENonTerminal, more: seq<Token>)
    requires s.cursor <= |input| && s.lexeme != RESET && s.stack == rest + [NonTerminal(n)]
    requires var p := Peek(input, LookOf(s));
             Table(p.lexeme, n) == Some([Terminal(p.lexeme)] + more)
    ensures Reaches(input, s, Resume(s, rest + Reverse(more), s.values, Consume(Peek(input, LookOf(s)))))
  {
    var p := Peek(input, LookOf(s));
    var rhs := [Terminal(p.lexeme)] + more;
    Expand(input, s, rest, n);
    assert rhs[1..] == more;
    var s1 := Resume(s, rest + Reverse(rhs), s.values, p);
    assert rest + Reverse(rhs) == (rest + Reverse(more)) + [Terminal(p.lexeme)];
    Match(input, s1, rest + Reverse(more), p.lexeme);
    ReachesTrans(input, s, s1, Resume(s, rest + Reverse(more), s.values, Consume(p)));
  }

  /** The opening steps of ExprP -> + Term Add ExprP (or its '-' twin):
      expand and match the operator. */
  lemma OpenExprTail(input: seq<char>, s: State, rest: seq<Token>)
    requires s.cursor <= |input| && s.lexeme != RESET && s.stack == rest + [NonTerminal(ExprP)]
    requires Peek(input, LookOf(s)).lexeme == PLUS || Peek(input, LookOf(s)).lexeme == MINUS
    ensures var p := Peek(input, LookOf(s));
            var act := if p.lexeme == PLUS then Add else Subtract;
            Reaches(input, s, Resume(s, rest + [NonTerminal(ExprP), Action(act), NonTerminal(Term)], s.values, Consume(p)))
  {
    var p := Peek(input, LookOf(s));
    var act := if p.lexeme == PLUS then Add else Subtract;
    var more := [NonTerminal(Term), Action(act), NonTerminal(ExprP)];
    ExprPRow(p.lexeme);
    assert [Terminal(p.lexeme)] + more == Table(p.lexeme, ExprP).value;
    assert Reverse(more) == [NonTerminal(ExprP), Action(act), NonTerminal(Term)];
    ExpandMatch(input, s, rest, ExprP, more);
  }

  /** The opening steps of TermP -> * Fact Times TermP (or its '/' twin). */
  lemma OpenTermTail(input: seq<char>, s: State, rest: seq<Token>)
    requires s.cursor <= |input| && s.lexeme != RESET && s.stack == rest + [NonTerminal(TermP)]
    requires Peek(input, LookOf(s)).lexeme == TIMES || Peek(input, LookOf(s)).lexeme == DIVIDE
    ensures var p := Peek(input, LookOf(s));
            var act := if p.lexeme == TIMES then Times else Divide;
            Reaches(input, s, Resume(s, rest + [NonTerminal(TermP), Action(act), NonTerminal(Fact)], s.values, Consume(p)))
  {
    var p := Peek(input, LookOf(s));
    var act := if p.lexeme == TIMES then Times else Divide;
    var more := [NonTerminal(Fact), Action(act), NonTerminal(TermP)];
    TermPRow(p.lexeme);
    assert [Terminal(p.lexeme)] + more == Table(p.lexeme, TermP).value;
    assert Reverse(more) == [NonTerminal(TermP), Action(act), NonTerminal(Fact)];
    ExpandMatch(input, s, rest, TermP, more);
  }

  /** The opening steps of Fact -> - Fact Negate. */
  lemma OpenFactNeg(input: seq<char>, s: State, rest: seq<Token>)
    requires s.cursor <= |input| && s.lexeme != RESET && s.stack == rest + [NonTerminal(Fact)]
    requires Peek(input, LookOf(s)).lexeme == MINUS
    ensures Reaches(input, s, Resume(s, rest + [Action(Negate), NonTerminal(Fact)], s.values, Consume(Peek(input, LookOf(s)))))
  {
    var more := [NonTerminal(Fact), Action(Negate)];
    FactRow(MINUS);
    assert [Terminal(MINUS)] + more == Table(MINUS, Fact).value;
    assert Reverse(more) == [Action(Negate), NonTerminal(Fact)];
    ExpandMatch(input, s, rest, Fact, more);
  }

  /** The opening steps of Fact -> ( Expr ). */
  lemma OpenFactParen(input: seq<char>, s: State, rest: seq<Token>)
    requires s.cursor <= |input| && s.lexeme != RESET && s.stack == rest + [NonTerminal(Fact)]
    requires Peek(input, LookOf(s)).lexeme == OP
    ensures Reaches(input, s, Resume(s, rest + [Terminal(CP), NonTerminal(Expr)], s.values, Consume(Peek(input, LookOf(s)))))
  {
    var more := [NonTerminal(Expr), Terminal(CP)];
    FactRow(OP);
    assert [Terminal(OP)] + more == Table(OP, Fact).value;
    assert Reverse(more) == [Terminal(CP), NonTerminal(Expr)];
    ExpandMatch(input, s, rest, Fact, more);
  }

  lemma Act(input: seq<char>, s: State, rest: seq<Token>, act: EAction, vs: seq<Value>, a: Value, b: Value)
    requires s.cursor <= |input| && s.lexeme != RESET && s.stack == rest + [Action(act)]
    ensures act == Add && s.values == vs + [a, b] ==> Reaches(input, s, s.(stack := rest, values := vs + [Plus(a, b)]))
    ensures act == Subtract && s.values == vs + [a, b] ==> Reaches(input, s, s.(stack := rest, values := vs + [Minus(a, b)]))
    ensures act == Times && s.values == vs + [a, b] ==> Reaches(input, s, s.(stack := rest, values := vs + [Mul(a, b)]))
    ensures act == Divide && s.values == vs + [a, b] ==> Reaches(input, s, s.(stack := rest, values := vs + [Quot(a, b)]))
    ensures act == Negate && s.values == vs + [a] ==> Reaches(input, s, s.(stack := rest, values := vs + [Neg(a)]))
    ensures act == Push ==> Reaches(input, s, s.(stack := rest, values := s.values + [Finite(s.value)]))
    ensures act == Print && s.values == vs + [a] ==>
              Reaches(input, s, s.(stack := rest, values := vs, out := s.out + [Printed(a)]))
  {
    ActionStep(input, s, rest, act, vs, a, b);
    if Step(input, s).Next? {
      ReachesStep(input, s, Step(input, s).s);
    }
  }

  /** A binary action pops its two operands and pushes the result. */
  lemma ActBinary(input: seq<char>, s: State, rest: seq<Token>, act: EAction, vs: seq<Value>, a: Value, b: Value)
    requires s.cursor <= |input| && s.lexeme != RESET && s.stack == rest + [Action(act)]
    requires s.values == vs + [a, b]
    requires act == Add || act == Subtract || act == Times || act == Divide
    ensures Reaches(input, s, s.(stack := rest, values := vs + [Arith(act, a, b)]))
  {
    Act(input, s, rest, act, vs, a, b);
  }

  // ---------------------------------------------------------------------------
  // Phrases

  /** The run that parses one phrase: from s, whose parse stack is rest plus
      the phrase's non-terminal, to the phrase's value pushed onto vs with
      rest left; or to the syntax error the reference reports. */
  ghost predicate Sim(input: seq<char>, s: State, rest: seq<Token>, vs: seq<Value>, r: Parsed)
    requires s.cursor <= |input|
  {
    match r
    case Ok(v, l) => Reaches(input, s, Resume(s, rest, vs + [v], l))
    case Err(c) => FailsWith(input, s, c, s.out)
  }

  /** A run to s1 followed by a phrase from s1. */
  lemma SimAfter(input: seq<char>, s: State, s1: State, rest: seq<Token>, vs: seq<Value>, r: Parsed)
    requires s.cursor <= |input| && s1.cursor <= |input| && s1.out == s.out
    requires Reaches(input, s, s1) && Sim(input, s1, rest, vs, r)
    ensures Sim(input, s, rest, vs, r)
  {
    match r
    case Ok(v, l) => ReachesTrans(input, s, s1, Resume(s1, rest, vs + [v], l));
    case Err(c) => FailsAfter(input, s, s1, c, s.out);
  }

  lemma ExprSim(input: seq<char>, s: State, rest: seq<Token>)
    requires s.cursor <= |input| && s.lexeme != RESET && s.stack == rest + [NonTerminal(Expr)]
    ensures Sim(input, s, rest, s.values, EvalExpr(input, LookOf(s)))
    decreases Measure(input, LookOf(s)), 4
  {
    var p := Peek(input, LookOf(s));
    if StartsFact(p.lexeme) {
      OpenExpr(input, s, rest);
      var s1 := Resume(s, rest + [NonTerminal(ExprP), NonTerminal(Term)], s.values, p);
      Push2(rest, NonTerminal(ExprP), NonTerminal(Term));
      assert LookOf(s1) == p;
      TermSim(input, s1, rest + [NonTerminal(ExprP)]);
      ExprCase(input, LookOf(s));
      ExprAfter(input, s, rest, p, EvalTerm(input, p));
    } else {
      ExprMiss(input, s, rest);
    }
  }

  /** A token that cannot start an expression is a syntax error where it
      was read. */
  lemma ExprMiss(input: seq<char>, s: State, rest: seq<Token>)
    requires s.cursor <= |input| && s.lexeme != RESET && s.stack == rest + [NonTerminal(Expr)]
    requires !StartsFact(Peek(input, LookOf(s)).lexeme)
    ensures Sim(input, s, rest, s.values, EvalExpr(input, LookOf(s)))
  {
    var p := Peek(input, LookOf(s));
    assert Table(p.lexeme, Expr) == None by {
      ExprRow(p.lexeme);
    }
    ExpandMiss(input, s, rest, Expr);
  }

  /** The Term has been parsed, or has failed, from lookahead l; then the tail. */
  lemma ExprAfter(input: seq<char>, s: State, rest: seq<Token>, l: Look, r: Parsed)
    requires s.cursor <= |input| && s.lexeme != RESET
    requires ValidLook(input, l) && Measure(input, l) <= Measure(input, LookOf(s)) && Sound(input, l, r)
    requires r.Ok? ==> Measure(input, r.rest) < Measure(input, l)
    requires var s1 := Resume(s, rest + [NonTerminal(ExprP), NonTerminal(Term)], s.values, l);
             Reaches(input, s, s1) && Sim(input, s1, rest + [NonTerminal(ExprP)], s.values, r)
    ensures Sim(input, s, rest, s.values, if r.Err? then r else EvalExprTail(input, r.v, r.rest))
    decreases Measure(input, LookOf(s)), 0
  {
    var s1 := Resume(s, rest + [NonTerminal(ExprP), NonTerminal(Term)], s.values, l);
    if r.Err? {
      FailsAfter(input, s, s1, r.at, s.out);
    } else {
      var s2 := Resume(s, rest + [NonTerminal(ExprP)], s.values + [r.v], r.rest);
      ReachesTrans(input, s, s1, s2);
      assert LookOf(s2) == r.rest;
      ExprTailSim(input, s2, rest, s.values, r.v);
      SimAfter(input, s, s2, rest, s.values, EvalExprTail(input, r.v, r.rest));
    }
  }

  /** EvalExpr on a lookahead that starts a factor. */
  lemma ExprCase(input: seq<char>, l: Look)
    requires ValidLook(input, l) && StartsFact(Peek(input, l).lexeme)
    ensures var r := EvalTerm(input, Peek(input, l));
            EvalExpr(input, l) == if r.Err? then r else EvalExprTail(input, r.v, r.rest)
  {
    match EvalTerm(input, Peek(input, l))
    case Err(c) =>
    case Ok(v, l1) =>
      assert EvalExpr(input, l) == EvalExprTail(input, v, l1);
  }

  /** The opening step of Expr -> Term ExprP. */
  lemma OpenExpr(input: seq<char>, s: State, rest: seq<Token>)
    requires s.cursor <= |input| && s.lexeme != RESET && s.stack == rest + [NonTerminal(Expr)]
    requires StartsFact(Peek(input, LookOf(s)).lexeme)
    ensures Reaches(input, s, Resume(s, rest + [NonTerminal(ExprP), NonTerminal(Term)], s.values, Peek(input, LookOf(s))))
  {
    var p := Peek(input, LookOf(s));
    var rhs := [NonTerminal(Term), NonTerminal(ExprP)];
    assert Table(p.lexeme, Expr) == Some(rhs) by {
      ExprRow(p.lexeme);
    }
    assert rest + Reverse(rhs) == rest + [NonTerminal(ExprP), NonTerminal(Term)];
    ExpandSome(input, s, rest, Expr, rhs);
  }

  lemma ExprTailSim(input: seq<char>, s: State, rest: seq<Token>, vs: seq<Value>, acc: Value)
    requires s.cursor <= |input| && s.lexeme != RESET && s.stack == rest + [NonTerminal(ExprP)]
    requires s.values == vs + [acc]
    ensures Sim(input, s, rest, vs, EvalExprTail(input, acc, LookOf(s)))
    decreases Measure(input, LookOf(s)), 3
  {
    var p := Peek(input, LookOf(s));
    if p.lexeme == PLUS || p.lexeme == MINUS {
      ExprTailOp(input, s, rest, vs, acc);
    } else if p.lexeme == CP || p.lexeme == NL {
      ExprPRow(p.lexeme);
      ExpandEmpty(input, s, rest, ExprP);
    } else {
      ExprPRow(p.lexeme);
      ExpandMiss(input, s, rest, ExprP);
    }
  }

  /** ExprP -> + Term Add ExprP and ExprP -> - Term Subtract ExprP. */
  lemma ExprTailOp(input: seq<char>, s: State, rest: seq<Token>, vs: seq<Value>, acc: Value)
    requires s.cursor <= |input| && s.lexeme != RESET && s.stack == rest + [NonTerminal(ExprP)]
    requires s.values == vs + [acc]
    requires Peek(input, LookOf(s)).lexeme == PLUS || Peek(input, LookOf(s)).lexeme == MINUS
    ensures Sim(input, s, rest, vs, EvalExprTail(input, acc, LookOf(s)))
    decreases Measure(input, LookOf(s)), 2
  {
    var p := Peek(input, LookOf(s));
    var act := if p.lexeme == PLUS then Add else Subtract;
    OpenExprTail(input, s, rest);
    var s2 := Resume(s, rest + [NonTerminal(ExprP), Action(act), NonTerminal(Term)], s.values, Consume(p));
    Push3(rest, NonTerminal(ExprP), Action(act), NonTerminal(Term));
    assert LookOf(s2) == Consume(p);
    TermSim(input, s2, rest + [NonTerminal(ExprP), Action(act)]);
    ExprTailCase(input, acc, LookOf(s));
    ExprTailAfter(input, s, rest, vs, acc, act, Consume(p), EvalTerm(input, Consume(p)));
  }

  /** The operand has been parsed, or has failed, from lookahead l. */
  lemma ExprTailAfter(input: seq<char>, s: State, rest: seq<Token>, vs: seq<Value>, acc: Value,
                      act: EAction, l: Look, r: Parsed)
    requires s.cursor <= |input| && s.lexeme != RESET && s.values == vs + [acc]
    requires act == Add || act == Subtract
    requires ValidLook(input, l) && Measure(input, l) < Measure(input, LookOf(s)) && Sound(input, l, r)
    requires var s2 := Resume(s, rest + [NonTerminal(ExprP), Action(act), NonTerminal(Term)], s.values, l);
             Reaches(input, s, s2) && Sim(input, s2, rest + [NonTerminal(ExprP), Action(act)], s.values, r)
    ensures Sim(input, s, rest, vs, if r.Err? then Err(r.at) else EvalExprTail(input, Arith(act, acc, r.v), r.rest))
    decreases Measure(input, LookOf(s)), 1
  {
    var s2 := Resume(s, rest + [NonTerminal(ExprP), Action(act), NonTerminal(Term)], s.values, l);
    if r.Err? {
      FailsAfter(input, s, s2, r.at, s.out);
    } else {
      ReachesTrans(input, s, s2, Resume(s, rest + [NonTerminal(ExprP), Action(act)], s.values + [r.v], r.rest));
      assert s.values + [r.v] == vs + [acc, r.v];
      ExprTailFold(input, s, rest, vs, acc, act, r.v, r.rest);
    }
  }

  /** EvalExprTail on a lookahead PLUS or MINUS, with the operator as its action. */
  lemma ExprTailCase(input: seq<char>, acc: Value, l: Look)
    requires ValidLook(input, l)
    requires Peek(input, l).lexeme == PLUS || Peek(input, l).lexeme == MINUS
    ensures var p := Peek(input, l);
            var r := EvalTerm(input, Consume(p));
            EvalExprTail(input, acc, l) ==
              if r.Err? then Err(r.at)
              else EvalExprTail(input, Arith(if p.lexeme == PLUS then Add else Subtract, acc, r.v), r.rest)
  {
    var p := Peek(input, l);
    match EvalTerm(input, Consume(p))
    case Err(c) =>
    case Ok(v, l1) =>
      var acc' := if p.lexeme == PLUS then Plus(acc, v) else Minus(acc, v);
      assert Arith(if p.lexeme == PLUS then Add else Subtract, acc, v) == acc';
      assert EvalExprTail(input, acc, l) == EvalExprTail(input, acc', l1);
  }

  /** EvalTermTail on a lookahead TIMES or DIVIDE, with the operator as its action. */
  lemma TermTailCase(input: seq<char>, acc: Value, l: Look)
    requires ValidLook(input, l)
    requires Peek(input, l).lexeme == TIMES || Peek(input, l).lexeme == DIVIDE
    ensures var p := Peek(input, l);
            var r := EvalFact(input, Consume(p));
            EvalTermTail(input, acc, l) ==
              if r.Err? then Err(r.at)
              else EvalTermTail(input, Arith(if p.lexeme == TIMES then Times else Divide, acc, r.v), r.rest)
  {
    var p := Peek(input, l);
    match EvalFact(input, Consume(p))
    case Err(c) =>
    case Ok(v, l1) =>
      var acc' := if p.lexeme == TIMES then Mul(acc, v) else Quot(acc, v);
      assert Arith(if p.lexeme == TIMES then Times else Divide, acc, v) == acc';
      assert EvalTermTail(input, acc, l) == EvalTermTail(input, acc', l1);
  }

  /** After the operand: the action folds it into acc and the tail goes on. */
  lemma ExprTailFold(input: seq<char>, s: State, rest: seq<Token>, vs: seq<Value>, acc: Value,
                     act: EAction, v: Value, l1: Look)
    requires s.cursor <= |input| && s.lexeme != RESET
    requires act == Add || act == Subtract
    requires ValidLook(input, l1) && Measure(input, l1) < Measure(input, LookOf(s))
    requires Reaches(input, s, Resume(s, rest + [NonTerminal(ExprP), Action(act)], vs + [acc, v], l1))
    ensures Sim(input, s, rest, vs, EvalExprTail(input, Arith(act, acc, v), l1))
    decreases Measure(input, LookOf(s)), 0
  {
    var s3 := Resume(s, rest + [NonTerminal(ExprP), Action(act)], vs + [acc, v], l1);
    assert s3.stack == (rest + [NonTerminal(ExprP)]) + [Action(act)];
    ActBinary(input, s3, rest + [NonTerminal(ExprP)], act, vs, acc, v);
    var s4 := Resume(s, rest + [NonTerminal(ExprP)], vs + [Arith(act, acc, v)], l1);
    assert s3.(stack := rest + [NonTerminal(ExprP)], values := vs + [Arith(act, acc, v)]) == s4;
    ReachesTrans(input, s, s3, s4);
    ExprTailSim(input, s4, rest, vs, Arith(act, acc, v));
    SimAfter(input, s, s4, rest, vs, EvalExprTail(input, Arith(act, acc, v), l1));
  }

  lemma TermSim(input: seq<char>, s: State, rest: seq<Token>)
    requires s.cursor <= |input| && s.lexeme != RESET && s.stack == rest + [NonTerminal(Term)]
    ensures Sim(input, s, rest, s.values, EvalTerm(input, LookOf(s)))
    decreases Measure(input, LookOf(s)), 3
  {
    var p := Peek(input, LookOf(s));
    if StartsFact(p.lexeme) {
      OpenTerm(input, s, rest);
      var s1 := Resume(s, rest + [NonTerminal(TermP), NonTerminal(Fact)], s.values, p);
      Push2(rest, NonTerminal(TermP), NonTerminal(Fact));
      assert LookOf(s1) == p;
      FactSim(input, s1, rest + [NonTerminal(TermP)]);
      TermCase(input, LookOf(s));
      TermAfter(input, s, rest, p, EvalFact(input, p));
    } else {
      TermMiss(input, s, rest);
    }
  }

  /** A token that cannot start a term is a syntax error where it was read. */
  lemma TermMiss(input: seq<char>, s: State, rest: seq<Token>)
    requires s.cursor <= |input| && s.lexeme != RESET && s.stack == rest + [NonTerminal(Term)]
    requires !StartsFact(Peek(input, LookOf(s)).lexeme)
    ensures Sim(input, s, rest, s.values, EvalTerm(input, LookOf(s)))
  {
    var p := Peek(input, LookOf(s));
    assert Table(p.lexeme, Term) == None by {
      TermRow(p.lexeme);
    }
    ExpandMiss(input, s, rest, Term);
  }

  /** The Fact has been parsed, or has failed, from lookahead l; then the tail. */
  lemma TermAfter(input: seq<char>, s: State, rest: seq<Token>, l: Look, r: Parsed)
    requires s.cursor <= |input| && s.lexeme != RESET
    requires ValidLook(input, l) && Measure(input, l) <= Measure(input, LookOf(s)) && Sound(input, l, r)
    requires r.Ok? ==> Measure(input, r.rest) < Measure(input, l)
    requires var s1 := Resume(s, rest + [NonTerminal(TermP), NonTerminal(Fact)], s.values, l);
             Reaches(input, s, s1) && Sim(input, s1, rest + [NonTerminal(TermP)], s.values, r)
    ensures Sim(input, s, rest, s.values, if r.Err? then r else EvalTermTail(input, r.v, r.rest))
    decreases Measure(input, LookOf(s)), 0
  {
    var s1 := Resume(s, rest + [NonTerminal(TermP), NonTerminal(Fact)], s.values, l);
    if r.Err? {
      FailsAfter(input, s, s1, r.at, s.out);
    } else {
      var s2 := Resume(s, rest + [NonTerminal(TermP)], s.values + [r.v], r.rest);
      ReachesTrans(input, s, s1, s2);
      assert LookOf(s2) == r.rest;
      TermTailSim(input, s2, rest, s.values, r.v);
      SimAfter(input, s, s2, rest, s.values, EvalTermTail(input, r.v, r.rest));
    }
  }

  /** EvalTerm on a lookahead that starts a factor. */
  lemma TermCase(input: seq<char>, l: Look)
    requires ValidLook(input, l) && StartsFact(Peek(input, l).lexeme)
    ensures var r := EvalFact(input, Peek(input, l));
            EvalTerm(input, l) == if r.Err? then r else EvalTermTail(input, r.v, r.rest)
  {
    match EvalFact(input, Peek(input, l))
    case Err(c) =>
    case Ok(v, l1) =>
      assert EvalTerm(input, l) == EvalTermTail(input, v, l1);
  }

  /** The opening step of Term -> Fact TermP. */
  lemma OpenTerm(input: seq<char>, s: State, rest: seq<Token>)
    requires s.cursor <= |input| && s.lexeme != RESET && s.stack == rest + [NonTerminal(Term)]
    requires StartsFact(Peek(input, LookOf(s)).lexeme)
    ensures Reaches(input, s, Resume(s, rest + [NonTerminal(TermP), NonTerminal(Fact)], s.values, Peek(input, LookOf(s))))
  {
    var p := Peek(input, LookOf(s));
    var rhs := [NonTerminal(Fact), NonTerminal(TermP)];
    assert Table(p.lexeme, Term) == Some(rhs) by {
      TermRow(p.lexeme);
    }
    assert rest + Reverse(rhs) == rest + [NonTerminal(TermP), NonTerminal(Fact)];
    ExpandSome(input, s, rest, Term, rhs);
  }

  lemma TermTailSim(input: seq<char>, s: State, rest: seq<Token>, vs: seq<Value>, acc: Value)
    requires s.cursor <= |input| && s.lexeme != RESET && s.stack == rest + [NonTerminal(TermP)]
    requires s.values == vs + [acc]
    ensures Sim(input, s, rest, vs, EvalTermTail(input, acc, LookOf(s)))
    decreases Measure(input, LookOf(s)), 3
  {
    var p := Peek(input, LookOf(s));
    if p.lexeme == TIMES || p.lexeme == DIVIDE {
      TermTailOp(input, s, rest, vs, acc);
    } else if p.lexeme == CP || p.lexeme == PLUS || p.lexeme == MINUS || p.lexeme == NL {
      TermPRow(p.lexeme);
      ExpandEmpty(input, s, rest, TermP);
    } else {
      TermPRow(p.lexeme);
      ExpandMiss(input, s, rest, TermP);
    }
  }

  /** TermP -> * Fact Times TermP and TermP -> / Fact Divide TermP. */
  lemma TermTailOp(input: seq<char>, s: State, rest: seq<Token>, vs: seq<Value>, acc: Value)
    requires s.cursor <= |input| && s.lexeme != RESET && s.stack == rest + [NonTerminal(TermP)]
    requires s.values == vs + [acc]
    requires Peek(input, LookOf(s)).lexeme == TIMES || Peek(input, LookOf(s)).lexeme == DIVIDE
    ensures Sim(input, s, rest, vs, EvalTermTail(input, acc, LookOf(s)))
    decreases Measure(input, LookOf(s)), 2
  {
    var p := Peek(input, LookOf(s));
    var act := if p.lexeme == TIMES then Times else Divide;
    OpenTermTail(input, s, rest);
    var s2 := Resume(s, rest + [NonTerminal(TermP), Action(act), NonTerminal(Fact)], s.values, Consume(p));
    Push3(rest, NonTerminal(TermP), Action(act), NonTerminal(Fact));
    assert LookOf(s2) == Consume(p);
    FactSim(input, s2, rest + [NonTerminal(TermP), Action(act)]);
    TermTailCase(input, acc, LookOf(s));
    TermTailAfter(input, s, rest, vs, acc, act, Consume(p), EvalFact(input, Consume(p)));
  }

  /** The operand has been parsed, or has failed, from lookahead l. */
  lemma TermTailAfter(input: seq<char>, s: State, rest: seq<Token>, vs: seq<Value>, acc: Value,
                      act: EAction, l: Look, r: Parsed)
    requires s.cursor <= |input| && s.lexeme != RESET && s.values == vs + [acc]
    requires act == Times || act == Divide
    requires ValidLook(input, l) && Measure(input, l) < Measure(input, LookOf(s)) && Sound(input, l, r)
    requires var s2 := Resume(s, rest + [NonTerminal(TermP), Action(act), NonTerminal(Fact)], s.values, l);
             Reaches(input, s, s2) && Sim(input, s2, rest + [NonTerminal(TermP), Action(act)], s.values, r)
    ensures Sim(input, s, rest, vs, if r.Err? then Err(r.at) else EvalTermTail(input, Arith(act, acc, r.v), r.rest))
    decreases Measure(input, LookOf(s)), 1
  {
    var s2 := Resume(s, rest + [NonTerminal(TermP), Action(act), NonTerminal(Fact)], s.values, l);
    if r.Err? {
      FailsAfter(input, s, s2, r.at, s.out);
    } else {
      ReachesTrans(input, s, s2, Resume(s, rest + [NonTerminal(TermP), Action(act)], s.values + [r.v], r.rest));
      assert s.values + [r.v] == vs + [acc, r.v];
      TermTailFold(input, s, rest, vs, acc, act, r.v, r.rest);
    }
  }

  /** After the operand: the action folds it into acc and the tail goes on. */
  lemma TermTailFold(input: seq<char>, s: State, rest: seq<Token>, vs: seq<Value>, acc: Value,
                     act: EAction, v: Value, l1: Look)
    requires s.cursor <= |input| && s.lexeme != RESET
    requires act == Times || act == Divide
    requires ValidLook(input, l1) && Measure(input, l1) < Measure(input, LookOf(s))
    requires Reaches(input, s, Resume(s, rest + [NonTerminal(TermP), Action(act)], vs + [acc, v], l1))
    ensures Sim(input, s, rest, vs, EvalTermTail(input, Arith(act, acc, v), l1))
    decreases Measure(input, LookOf(s)), 0
  {
    var s3 := Resume(s, rest + [NonTerminal(TermP), Action(act)], vs + [acc, v], l1);
    assert s3.stack == (rest + [NonTerminal(TermP)]) + [Action(act)];
    ActBinary(input, s3, rest + [NonTerminal(TermP)], act, vs, acc, v);
    var s4 := Resume(s, rest + [NonTerminal(TermP)], vs + [Arith(act, acc, v)], l1);
    assert s3.(stack := rest + [NonTerminal(TermP)], values := vs + [Arith(act, acc, v)]) == s4;
    ReachesTrans(input, s, s3, s4);
    TermTailSim(input, s4, rest, vs, Arith(act, acc, v));
    SimAfter(input, s, s4, rest, vs, EvalTermTail(input, Arith(act, acc, v), l1));
  }

  lemma FactSim(input: seq<char>, s: State, rest: seq<Token>)
    requires s.cursor <= |input| && s.lexeme != RESET && s.stack == rest + [NonTerminal(Fact)]
    ensures Sim(input, s, rest, s.values, EvalFact(input, LookOf(s)))
    decreases Measure(input, LookOf(s)), 2
  {
    var p := Peek(input, LookOf(s));
    if p.lexeme == MINUS {
      FactNeg(input, s, rest);
    } else if p.lexeme == NUMBER {
      FactNumber(input, s, rest);
    } else if p.lexeme == OP {
      FactParen(input, s, rest);
    } else {
      FactRow(p.lexeme);
      ExpandMiss(input, s, rest, Fact);
    }
  }

  /** Fact -> - Fact Negate. */
  lemma FactNeg(input: seq<char>, s: State, rest: seq<Token>)
    requires s.cursor <= |input| && s.lexeme != RESET && s.stack == rest + [NonTerminal(Fact)]
    requires Peek(input, LookOf(s)).lexeme == MINUS
    ensures Sim(input, s, rest, s.values, EvalFact(input, LookOf(s)))
    decreases Measure(input, LookOf(s)), 1
  {
    var p := Peek(input, LookOf(s));
    OpenFactNeg(input, s, rest);
    var s2 := Resume(s, rest + [Action(Negate), NonTerminal(Fact)], s.values, Consume(p));
    Push2(rest, Action(Negate), NonTerminal(Fact));
    assert LookOf(s2) == Consume(p);
    FactSim(input, s2, rest + [Action(Negate)]);
    FactNegCase(input, LookOf(s));
    FactNegAfter(input, s, rest, Consume(p), EvalFact(input, Consume(p)));
  }

  /** The operand of '-' has been parsed, or has failed, from lookahead l. */
  lemma FactNegAfter(input: seq<char>, s: State, rest: seq<Token>, l: Look, r: Parsed)
    requires s.cursor <= |input| && ValidLook(input, l) && Sound(input, l, r)
    requires var s2 := Resume(s, rest + [Action(Negate), NonTerminal(Fact)], s.values, l);
             Reaches(input, s, s2) && Sim(input, s2, rest + [Action(Negate)], s.values, r)
    ensures Sim(input, s, rest, s.values, if r.Err? then r else Ok(Neg(r.v), r.rest))
  {
    var s2 := Resume(s, rest + [Action(Negate), NonTerminal(Fact)], s.values, l);
    if r.Err? {
      FailsAfter(input, s, s2, r.at, s.out);
    } else {
      var s3 := Resume(s, rest + [Action(Negate)], s.values + [r.v], r.rest);
      ReachesTrans(input, s, s2, s3);
      Act(input, s3, rest, Negate, s.values, r.v, r.v);
      assert s3.(stack := rest, values := s.values + [Neg(r.v)]) == Resume(s, rest, s.values + [Neg(r.v)], r.rest);
      ReachesTrans(input, s, s3, Resume(s, rest, s.values + [Neg(r.v)], r.rest));
    }
  }

  /** EvalFact on a lookahead '-'. */
  lemma FactNegCase(input: seq<char>, l: Look)
    requires ValidLook(input, l) && Peek(input, l).lexeme == MINUS
    ensures var r := EvalFact(input, Consume(Peek(input, l)));
            EvalFact(input, l) == if r.Err? then r else Ok(Neg(r.v), r.rest)
  {
    match EvalFact(input, Consume(Peek(input, l)))
    case Err(c) =>
    case Ok(v, l1) =>
      assert EvalFact(input, l) == Ok(Neg(v), l1);
  }

  /** Fact -> NUMBER Push: the number's value is pushed. */
  lemma FactNumber(input: seq<char>, s: State, rest: seq<Token>)
    requires s.cursor <= |input| && s.lexeme != RESET && s.stack == rest + [NonTerminal(Fact)]
    requires Peek(input, LookOf(s)).lexeme == NUMBER
    ensures Sim(input, s, rest, s.values, EvalFact(input, LookOf(s)))
  {
    var p := Peek(input, LookOf(s));
    OpenFactNumber(input, s, rest);
    var s2 := Resume(s, rest + [Action(Push)], s.values, Consume(p));
    var s3 := Resume(s, rest, s.values + [Finite(p.value)], Consume(p));
    assert Reaches(input, s2, s3) by {
      Act(input, s2, rest, Push, [], Finite(p.value), Finite(p.value));
      assert s2.(stack := rest, values := s2.values + [Finite(s2.value)]) == s3;
    }
    ReachesTrans(input, s, s2, s3);
  }

  /** The opening steps of Fact -> NUMBER Push: expand and match the number. */
  lemma OpenFactNumber(input: seq<char>, s: State, rest: seq<Token>)
    requires s.cursor <= |input| && s.lexeme != RESET && s.stack == rest + [NonTerminal(Fact)]
    requires Peek(input, LookOf(s)).lexeme == NUMBER
    ensures Reaches(input, s, Resume(s, rest + [Action(Push)], s.values, Consume(Peek(input, LookOf(s)))))
  {
    var more := [Action(Push)];
    assert Table(NUMBER, Fact).value == [Terminal(NUMBER)] + more by {
      FactRow(NUMBER);
    }
    assert Reverse(more) == [Action(Push)];
    ExpandMatch(input, s, rest, Fact, more);
  }

  /** Fact -> ( Expr ): the closing parenthesis is matched after the
      expression, where its absence is the error. */
  lemma FactParen(input: seq<char>, s: State, rest: seq<Token>)
    requires s.cursor <= |input| && s.lexeme != RESET && s.stack == rest + [NonTerminal(Fact)]
    requires Peek(input, LookOf(s)).lexeme == OP
    ensures Sim(input, s, rest, s.values, EvalFact(input, LookOf(s)))
    decreases Measure(input, LookOf(s)), 1
  {
    var p := Peek(input, LookOf(s));
    OpenFactParen(input, s, rest);
    var s2 := Resume(s, rest + [Terminal(CP), NonTerminal(Expr)], s.values, Consume(p));
    Push2(rest, Terminal(CP), NonTerminal(Expr));
    assert LookOf(s2) == Consume(p);
    ExprSim(input, s2, rest + [Terminal(CP)]);
    FactParenCase(input, LookOf(s));
    FactParenAfter(input, s, rest, Consume(p), EvalExpr(input, Consume(p)));
  }

  /** The expression in parentheses has been parsed, or has failed, from l. */
  lemma FactParenAfter(input: seq<char>, s: State, rest: seq<Token>, l: Look, r: Parsed)
    requires s.cursor <= |input| && ValidLook(input, l) && Sound(input, l, r)
    requires var s2 := Resume(s, rest + [Terminal(CP), NonTerminal(Expr)], s.values, l);
             Reaches(input, s, s2) && Sim(input, s2, rest + [Terminal(CP)], s.values, r)
    ensures Sim(input, s, rest, s.values, if r.Err? then r else CloseParenResult(input, r.v, r.rest))
  {
    var s2 := Resume(s, rest + [Terminal(CP), NonTerminal(Expr)], s.values, l);
    if r.Err? {
      FailsAfter(input, s, s2, r.at, s.out);
    } else {
      ReachesTrans(input, s, s2, Resume(s, rest + [Terminal(CP)], s.values + [r.v], r.rest));
      CloseParen(input, s, rest, r.v, r.rest);
    }
  }

  /** EvalFact on a lookahead '(': the expression, then ')'. */
  lemma FactParenCase(input: seq<char>, l: Look)
    requires ValidLook(input, l) && Peek(input, l).lexeme == OP
    ensures var r := EvalExpr(input, Consume(Peek(input, l)));
            EvalFact(input, l) == if r.Err? then r else CloseParenResult(input, r.v, r.rest)
  {
    match EvalExpr(input, Consume(Peek(input, l)))
    case Err(c) =>
    case Ok(v, l1) =>
      assert EvalFact(input, l) == CloseParenResult(input, v, l1);
  }

  /** What is left of Fact -> ( Expr ) once the expression has value v. */
  function CloseParenResult(input: seq<char>, v: Value, l: Look): Parsed
    requires ValidLook(input, l)
  {
    var q := Peek(input, l);
    if q.lexeme == CP then Ok(v, Consume(q)) else Err(q.cursor)
  }

  /** The closing parenthesis is matched after the expression. */
  lemma CloseParen(input: seq<char>, s: State, rest: seq<Token>, v: Value, l1: Look)
    requires s.cursor <= |input| && ValidLook(input, l1)
    requires Reaches(input, s, Resume(s, rest + [Terminal(CP)], s.values + [v], l1))
    ensures Sim(input, s, rest, s.values, CloseParenResult(input, v, l1))
  {
    var s3 := Resume(s, rest + [Terminal(CP)], s.values + [v], l1);
    assert LookOf(s3) == l1;
    Match(input, s3, rest, CP);
    var q := Peek(input, l1);
    if q.lexeme == CP {
      ReachesTrans(input, s, s3, Resume(s, rest, s.values + [v], Consume(q)));
    } else {
      FailsAfter(input, s, s3, q.cursor, s.out);
    }
  }

  // ---------------------------------------------------------------------------
  // Lines

  /** The run that parses one line: from s, whose parse stack is rest plus
      Line, to rest with the value stack as before and the line's output
      printed; or to the syntax error the reference reports, after printing
      what the reference prints before it. */
  ghost predicate LineSim(input: seq<char>, s: State, rest: seq<Token>, r: LineResult)
    requires s.cursor <= |input|
  {
    match r
    case LineOk(o, l) => Reaches(input, s, Resume(s, rest, s.values, l).(out := s.out + o))
    case LineErr(o, c) => FailsWith(input, s, c, s.out + o)
  }

  /** Line -> NL: an empty line prints nothing. */
  lemma LineEmpty(input: seq<char>, s: State, rest: seq<Token>)
    requires s.cursor <= |input| && s.lexeme != RESET && s.stack == rest + [NonTerminal(Line)]
    requires Peek(input, LookOf(s)).lexeme == NL
    ensures LineSim(input, s, rest, EvalLine(input, LookOf(s)))
  {
    LineRow(NL);
    assert [Terminal(NL)] + [] == Table(NL, Line).value;
    assert rest + Reverse([]) == rest;
    ExpandMatch(input, s, rest, Line, []);
    assert s.out + [] == s.out;
  }

  /** Line -> Expr Print NL: the value is printed, then the newline is
      matched, where its absence is the error. */
  lemma LineExpr(input: seq<char>, s: State, rest: seq<Token>)
    requires s.cursor <= |input| && s.lexeme != RESET && s.stack == rest + [NonTerminal(Line)]
    requires StartsFact(Peek(input, LookOf(s)).lexeme)
    ensures LineSim(input, s, rest, EvalLine(input, LookOf(s)))
  {
    var p := Peek(input, LookOf(s));
    var rhs := [NonTerminal(Expr), Action(Print), Terminal(NL)];
    assert Table(p.lexeme, Line) == Some(rhs) by {
      LineRow(p.lexeme);
    }
    assert Reverse(rhs) == [Terminal(NL), Action(Print), NonTerminal(Expr)];
    ExpandSome(input, s, rest, Line, rhs);
    var s1 := Resume(s, rest + [Terminal(NL), Action(Print), NonTerminal(Expr)], s.values, p);
    assert s1.stack == (rest + [Terminal(NL), Action(Print)]) + [NonTerminal(Expr)];
    assert LookOf(s1) == p;
    ExprSim(input, s1, rest + [Terminal(NL), Action(Print)]);
    LineExprCase(input, LookOf(s));
    LineExprAfter(input, s, rest, p, EvalExpr(input, p));
  }

  /** The line's expression has been parsed, or has failed, from l. */
  lemma LineExprAfter(input: seq<char>, s: State, rest: seq<Token>, l: Look, r: Parsed)
    requires s.cursor <= |input| && ValidLook(input, l) && Sound(input, l, r)
    requires var s1 := Resume(s, rest + [Terminal(NL), Action(Print), NonTerminal(Expr)], s.values, l);
             Reaches(input, s, s1) && Sim(input, s1, rest + [Terminal(NL), Action(Print)], s.values, r)
    ensures LineSim(input, s, rest, if r.Err? then LineErr([], r.at) else PrintLineResult(input, r.v, r.rest))
  {
    var s1 := Resume(s, rest + [Terminal(NL), Action(Print), NonTerminal(Expr)], s.values, l);
    if r.Err? {
      assert s.out + [] == s.out;
      FailsAfter(input, s, s1, r.at, s.out);
    } else {
      ReachesTrans(input, s, s1, Resume(s, rest + [Terminal(NL), Action(Print)], s.values + [r.v], r.rest));
      PrintLine(input, s, rest, r.v, r.rest);
    }
  }

  /** EvalLine on a lookahead that starts a factor. */
  lemma LineExprCase(input: seq<char>, l: Look)
    requires ValidLook(input, l) && StartsFact(Peek(input, l).lexeme)
    ensures var r := EvalExpr(input, Peek(input, l));
            EvalLine(input, l) == if r.Err? then LineErr([], r.at) else PrintLineResult(input, r.v, r.rest)
  {
    match EvalExpr(input, Peek(input, l))
    case Err(c) =>
    case Ok(v, l1) =>
      assert EvalLine(input, l) == PrintLineResult(input, v, l1);
  }

  /** What is left of Line -> Expr NL once the expression has value v. */
  function PrintLineResult(input: seq<char>, v: Value, l: Look): LineResult
    requires ValidLook(input, l)
  {
    var q := Peek(input, l);
    if q.lexeme == NL then LineOk([Printed(v)], Consume(q)) else LineErr([Printed(v)], q.cursor)
  }

  /** Print, then match the newline. */
  lemma PrintLine(input: seq<char>, s: State, rest: seq<Token>, v: Value, l1: Look)
    requires s.cursor <= |input| && ValidLook(input, l1)
    requires Reaches(input, s, Resume(s, rest + [Terminal(NL), Action(Print)], s.values + [v], l1))
    ensures LineSim(input, s, rest, PrintLineResult(input, v, l1))
  {
    var s2 := Resume(s, rest + [Terminal(NL), Action(Print)], s.values + [v], l1);
    Push2(rest, Terminal(NL), Action(Print));
    Act(input, s2, rest + [Terminal(NL)], Print, s.values, v, v);
    var s3 := s2.(stack := rest + [Terminal(NL)], values := s.values, out := s.out + [Printed(v)]);
    ReachesTrans(input, s, s2, s3);
    Match(input, s3, rest, NL);
    assert LookOf(s3) == l1;
    var q := Peek(input, l1);
    if q.lexeme == NL {
      ReachesTrans(input, s, s3, Resume(s3, rest, s.values, Consume(q)));
    } else {
      FailsAfter(input, s, s3, q.cursor, s3.out);
    }
  }

  lemma LineOkReaches(input: seq<char>, s: State, rest: seq<Token>, r: LineResult)
    requires s.cursor <= |input| && LineSim(input, s, rest, r) && r.LineOk?
    ensures Reaches(input, s, Resume(s, rest, s.values, r.rest).(out := s.out + r.out))
  {
  }

  lemma LineErrFails(input: seq<char>, s: State, rest: seq<Token>, r: LineResult)
    requires s.cursor <= |input| && LineSim(input, s, rest, r) && r.LineErr?
    ensures FailsWith(input, s, r.at, s.out + r.out)
  {
  }

  lemma LineSimulated(input: seq<char>, s: State, rest: seq<Token>)
    requires s.cursor <= |input| && s.lexeme != RESET && s.stack == rest + [NonTerminal(Line)]
    ensures LineSim(input, s, rest, EvalLine(input, LookOf(s)))
  {
    var p := Peek(input, LookOf(s));
    if p.lexeme == NL {
      LineEmpty(input, s, rest);
    } else if StartsFact(p.lexeme) {
      LineExpr(input, s, rest);
    } else {
      LineRow(p.lexeme);
      ExpandMiss(input, s, rest, Line);
      assert s.out + [] == s.out;
    }
  }

  // ---------------------------------------------------------------------------
  // Sessions

  /** The loop from s ends the way r says, after printing r's output. */
  ghost predicate Outcome(input: seq<char>, s: State, r: SessionResult)
    requires s.cursor <= |input|
  {
    match r
    case Finished(o) => Finishes(input, s, s.out + o)
    case Hangs(o) => HangsWith(input, s, s.out + o)
  }

  /** Output printed before a session result can be moved to the front. */
  lemma ThenShift(a: seq<Output>, o: seq<Output>, b: seq<Output>, r: SessionResult)
    ensures a + Then(o + b, r).out == (a + o) + Then(b, r).out
  {
  }

  lemma ThenOut(a: seq<Output>, o: seq<Output>, r: SessionResult)
    ensures a + Then(o, r).out == (a + o) + r.out
  {
  }

  /** A run to t, then t's outcome after o more output. */
  lemma OutcomeAfter(input: seq<char>, s: State, t: State, o: seq<Output>, r: SessionResult)
    requires s.cursor <= |input| && t.cursor <= |input| && t.out == s.out + o
    requires Reaches(input, s, t) && Outcome(input, t, r)
    ensures Outcome(input, s, Then(o, r))
  {
    ThenOut(s.out, o, r);
    ReachesEnding(input, s, t, t.out + r.out);
  }

  /** END with the stack at [Start]: Start -> (END), after which the loop is
      left with nothing more printed. */
  lemma SessionEnd(input: seq<char>, s: State)
    requires s.cursor <= |input| && s.lexeme != RESET && s.stack == [NonTerminal(Start)]
    requires Peek(input, LookOf(s)).lexeme == END
    ensures Outcome(input, s, Session(input, LookOf(s)))
  {
    StartEnd(input, s);
    assert Session(input, LookOf(s)) == Finished([]);
    assert s.out + [] == s.out;
  }

  /** At END, Start expands to nothing and the loop is left. */
  lemma StartEnd(input: seq<char>, s: State)
    requires s.cursor <= |input| && s.lexeme != RESET && s.stack == [NonTerminal(Start)]
    requires Peek(input, LookOf(s)).lexeme == END
    ensures Finishes(input, s, s.out)
  {
    var p := Peek(input, LookOf(s));
    StartRow(END);
    assert [NonTerminal(Start)] == [] + [NonTerminal(Start)];
    ExpandEmpty(input, s, [], Start);
    var t := Resume(s, [], s.values, p);
    ReachesHalt(input, s, t);
  }

  /** A session in state s, at the start of a line (the parse stack is
      [Start]), ends as the reference session from s's lookahead does. */
  lemma SessionSim(input: seq<char>, s: State)
    requires s.cursor <= |input| && s.lexeme != RESET && s.stack == [NonTerminal(Start)]
    ensures Outcome(input, s, Session(input, LookOf(s)))
    decreases Measure(input, LookOf(s)), 4
  {
    var p := Peek(input, LookOf(s));
    if p.lexeme == END {
      SessionEnd(input, s);
    } else if p.lexeme == NL || StartsFact(p.lexeme) {
      SessionLine(input, s);
    } else {
      SessionBad(input, s);
    }
  }

  /** A token that cannot start a line: Start has no production for it. */
  lemma SessionBad(input: seq<char>, s: State)
    requires s.cursor <= |input| && s.lexeme != RESET && s.stack == [NonTerminal(Start)]
    requires var t := Peek(input, LookOf(s)).lexeme; t != END && t != NL && !StartsFact(t)
    ensures Outcome(input, s, Session(input, LookOf(s)))
    decreases Measure(input, LookOf(s)), 2
  {
    var p := Peek(input, LookOf(s));
    StartMiss(input, s);
    SessionFail(input, s, LookOf(s), p.cursor, []);
    SessionBadCase(input, LookOf(s));
  }

  /** A token that neither starts a line nor ends the input is a syntax
      error where it was read. */
  lemma StartMiss(input: seq<char>, s: State)
    requires s.cursor <= |input| && s.lexeme != RESET && s.stack == [NonTerminal(Start)]
    requires var t := Peek(input, LookOf(s)).lexeme; t != END && t != NL && !StartsFact(t)
    ensures FailsWith(input, s, Peek(input, LookOf(s)).cursor, s.out + [])
  {
    var p := Peek(input, LookOf(s));
    StartRow(p.lexeme);
    assert [NonTerminal(Start)] == [] + [NonTerminal(Start)];
    ExpandMiss(input, s, [], Start);
    assert s.out + [] == s.out;
  }

  /** The opening step of Start -> Line Start. */
  lemma OpenSession(input: seq<char>, s: State)
    requires s.cursor <= |input| && s.lexeme != RESET && s.stack == [NonTerminal(Start)]
    requires Peek(input, LookOf(s)).lexeme == NL || StartsFact(Peek(input, LookOf(s)).lexeme)
    ensures Reaches(input, s, Resume(s, [NonTerminal(Start), NonTerminal(Line)], s.values, Peek(input, LookOf(s))))
  {
    var p := Peek(input, LookOf(s));
    var rhs := [NonTerminal(Line), NonTerminal(Start)];
    assert Table(p.lexeme, Start) == Some(rhs) by {
      StartRow(p.lexeme);
    }
    assert [] + Reverse(rhs) == [NonTerminal(Start), NonTerminal(Line)];
    assert s.stack == [] + [NonTerminal(Start)];
    ExpandSome(input, s, [], Start, rhs);
  }

  /** Start -> Line Start: a line, then the rest of the session. */
  lemma SessionLine(input: seq<char>, s: State)
    requires s.cursor <= |input| && s.lexeme != RESET && s.stack == [NonTerminal(Start)]
    requires Peek(input, LookOf(s)).lexeme == NL || StartsFact(Peek(input, LookOf(s)).lexeme)
    ensures Outcome(input, s, Session(input, LookOf(s)))
    decreases Measure(input, LookOf(s)), 3
  {
    var p := Peek(input, LookOf(s));
    StartLine(input, s);
    SessionLineCase(input, LookOf(s));
    SessionLineAfter(input, s, Resume(s, [NonTerminal(Start), NonTerminal(Line)], s.values, p), EvalLine(input, p));
  }

  /** Start -> Line Start has been expanded and the line run. */
  lemma StartLine(input: seq<char>, s: State)
    requires s.cursor <= |input| && s.lexeme != RESET && s.stack == [NonTerminal(Start)]
    requires Peek(input, LookOf(s)).lexeme == NL || StartsFact(Peek(input, LookOf(s)).lexeme)
    ensures var p := Peek(input, LookOf(s));
            var s1 := Resume(s, [NonTerminal(Start), NonTerminal(Line)], s.values, p);
            Reaches(input, s, s1) && LineSim(input, s1, [NonTerminal(Start)], EvalLine(input, p))
  {
    var p := Peek(input, LookOf(s));
    OpenSession(input, s);
    var s1 := Resume(s, [NonTerminal(Start), NonTerminal(Line)], s.values, p);
    assert s1.stack == [NonTerminal(Start)] + [NonTerminal(Line)];
    LineSimulated(input, s1, [NonTerminal(Start)]);
  }

  /** The session after the loop has run a line with result r from s1, the
      state with Line on top of Start. */
  lemma SessionLineAfter(input: seq<char>, s: State, s1: State, r: LineResult)
    requires s.cursor <= |input| && s.lexeme != RESET && s1.cursor <= |input|
    requires s1.out == s.out && Reaches(input, s, s1) && LineSim(input, s1, [NonTerminal(Start)], r)
    requires r.LineOk? ==> ValidLook(input, r.rest) && Measure(input, r.rest) < Measure(input, LookOf(s))
    requires r.LineErr? ==> s.cursor <= r.at <= |input|
    ensures Outcome(input, s, if r.LineOk? then Then(r.out, Session(input, r.rest))
                              else Then(r.out + [SyntaxError], Resync(input, LookOf(s), r.at)))
    decreases Measure(input, LookOf(s)), 2
  {
    if r.LineOk? {
      LineOkReaches(input, s1, [NonTerminal(Start)], r);
      var s2 := Resume(s1, [NonTerminal(Start)], s1.values, r.rest).(out := s1.out + r.out);
      assert LookOf(s2) == r.rest;
      ReachesTrans(input, s, s1, s2);
      SessionNext(input, s, s2, r.out);
    } else {
      LineErrFails(input, s1, [NonTerminal(Start)], r);
      FailsAfter(input, s, s1, r.at, s.out + r.out);
      SessionFail(input, s, LookOf(s), r.at, r.out);
    }
  }

  /** A run from s to the start of the next line, then the session there. */
  lemma SessionNext(input: seq<char>, s: State, s2: State, o: seq<Output>)
    requires s.cursor <= |input| && s.lexeme != RESET
    requires s2.cursor <= |input| && s2.lexeme != RESET && s2.stack == [NonTerminal(Start)]
    requires s2.out == s.out + o && Reaches(input, s, s2)
    requires Measure(input, LookOf(s2)) < Measure(input, LookOf(s))
    ensures Outcome(input, s, Then(o, Session(input, LookOf(s2))))
    decreases Measure(input, LookOf(s)), 1
  {
    SessionSim(input, s2);
    OutcomeAfter(input, s, s2, o, Session(input, LookOf(s2)));
  }

  /** A syntax error detected at c after o more output: "syntax error" is
      printed and the loop resynchronises as the reference does. */
  lemma SessionFail(input: seq<char>, s: State, l: Look, c: nat, o: seq<Output>)
    requires s.cursor <= |input| && ValidLook(input, l)
    requires l.cursor <= c && FailsWith(input, s, c, s.out + o)
    ensures Outcome(input, s, Then(o + [SyntaxError], Resync(input, l, c)))
    decreases Measure(input, l), 1
  {
    var t: State :| Reaches(input, s, t) && t.lexeme == RESET && t.cursor == c && t.out == s.out + o;
    ResyncSim(input, l, t);
    var r := Resync(input, l, c);
    ThenShift(s.out, o, [SyntaxError], r);
    ReachesEnding(input, s, t, t.out + Then([SyntaxError], r).out);
  }

  /** Recovery: with a newline ahead the loop restarts after it as a fresh
      session; without one it hangs, having printed "syntax error". */
  lemma ResyncSim(input: seq<char>, l: Look, t: State)
    requires t.cursor <= |input| && t.lexeme == RESET && ValidLook(input, l) && l.cursor <= t.cursor
    ensures Outcome(input, t, Then([SyntaxError], Resync(input, l, t.cursor)))
    decreases Measure(input, l), 0
  {
    RecoverEnding(input, t);
    if NewlineAhead(input, t.cursor) {
      var r := SkipLine(input, t.cursor);
      var u := State([NonTerminal(Start)], [], r.next, NONE, r.value, t.out + [SyntaxError]);
      assert LookOf(u) == Look(r.next, NONE, r.value);
      SessionSim(input, u);
      var o := Session(input, LookOf(u)).out;
      ThenOut(t.out, [SyntaxError], Session(input, LookOf(u)));
      SameStepEnding(input, t, u, u.out + o);
    } else {
      assert t.out + ([SyntaxError] + []) == t.out + [SyntaxError];
    }
  }

  /** The program prints what the reference prints, and ends, or hangs, as
      the reference says; it ends or hangs in no other way. */
  lemma Correct(input: seq<char>, out: seq<Output>)
    ensures Finishes(input, Init(), out) <==> Run(input) == Finished(out)
    ensures HangsWith(input, Init(), out) <==> Run(input) == Hangs(out)
  {
    assert LookOf(Init()) == Look(0, NONE, 0.0);
    SessionSim(input, Init());
    var r := Run(input);
    assert Init().out + r.out == r.out;
    EndingUnique(input, Init(), out, r.out);
    EndingUnique(input, Init(), r.out, out);
  }
}
