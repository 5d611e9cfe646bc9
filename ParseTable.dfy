// The LL(1) parse table of calc.rs (the `table` HashMap built at the top of
// `main`) and the bookkeeping that shows its productions keep the value
// stack in balance: every grammar symbol and action has a demand (how many
// values must be on the value stack when it is processed) and a net effect
// (how the height of the value stack changes once it has been processed).

module ParseTable {
  import opened Tokens

  datatype Option<T> = None | Some(value: T)

  /** The production for lookahead terminal t and non-terminal n, as a
      right-hand side read left to right; None when the table has no entry. */
  function Table(t: ETerminal, n: ENonTerminal): (r: Option<seq<Token>>)
    // NONE and RESET are never keys
    ensures r.Some? ==> t != NONE && t != RESET
    // only END maps Start to the empty production
    ensures n == Start ==> (r == Some([]) <==> t == END)
    // predictive: a production that starts with a terminal starts with the lookahead
    ensures r.Some? && r.value != [] && r.value[0].Terminal? ==> r.value[0].t == t
    // Start occurs in a production only as the last symbol of Start -> Line Start
    ensures r.Some? && NonTerminal(Start) in r.value ==>
              n == Start && r.value == [NonTerminal(Line), NonTerminal(Start)]
  {
    match (t, n)
    case (CP, ExprP) => Some([])
    case (CP, TermP) => Some([])
    case (DIVIDE, TermP) => Some([Terminal(DIVIDE), NonTerminal(Fact), Action(Divide), NonTerminal(TermP)])
    case (END, Start) => Some([])
    case (MINUS, Expr) => Some([NonTerminal(Term), NonTerminal(ExprP)])
    case (MINUS, ExprP) => Some([Terminal(MINUS), NonTerminal(Term), Action(Subtract), NonTerminal(ExprP)])
    case (MINUS, Fact) => Some([Terminal(MINUS), NonTerminal(Fact), Action(Negate)])
    case (MINUS, Line) => Some([NonTerminal(Expr), Action(Print), Terminal(NL)])
    case (MINUS, Start) => Some([NonTerminal(Line), NonTerminal(Start)])
    case (MINUS, Term) => Some([NonTerminal(Fact), NonTerminal(TermP)])
    case (MINUS, TermP) => Some([])
    case (NL, ExprP) => Some([])
    case (NL, Line) => Some([Terminal(NL)])
    case (NL, Start) => Some([NonTerminal(Line), NonTerminal(Start)])
    case (NL, TermP) => Some([])
    case (NUMBER, Expr) => Some([NonTerminal(Term), NonTerminal(ExprP)])
    case (NUMBER, Fact) => Some([Terminal(NUMBER), Action(Push)])
    case (NUMBER, Line) => Some([NonTerminal(Expr), Action(Print), Terminal(NL)])
    case (NUMBER, Start) => Some([NonTerminal(Line), NonTerminal(Start)])
    case (NUMBER, Term) => Some([NonTerminal(Fact), NonTerminal(TermP)])
    case (OP, Expr) => Some([NonTerminal(Term), NonTerminal(ExprP)])
    case (OP, Fact) => Some([Terminal(OP), NonTerminal(Expr), Terminal(CP)])
    case (OP, Line) => Some([NonTerminal(Expr), Action(Print), Terminal(NL)])
    case (OP, Start) => Some([NonTerminal(Line), NonTerminal(Start)])
    case (OP, Term) => Some([NonTerminal(Fact), NonTerminal(TermP)])
    case (PLUS, ExprP) => Some([Terminal(PLUS), NonTerminal(Term), Action(Add), NonTerminal(ExprP)])
    case (PLUS, TermP) => Some([])
    case (TIMES, TermP) => Some([Terminal(TIMES), NonTerminal(Fact), Action(Times), NonTerminal(TermP)])
    case _ => None
  }

  function Max(a: int, b: int): int {
    if a < b then b else a
  }

  /** How many values must be on the value stack when x is processed. */
  function Need(x: Token): nat {
    match x
    case Terminal(_) => 0
    case NonTerminal(n) => if n == ExprP || n == TermP then 1 else 0
    case Action(a) =>
      match a
      case Negate => 1
      case Push => 0
      case Print => 1
      case _ => 2
  }

  /** How the height of the value stack changes once x has been processed:
      an expression-like non-terminal leaves its value, a tail folds the
      value below it into one, a binary action and Print consume one. */
  function Net(x: Token): int {
    match x
    case Terminal(_) => 0
    case NonTerminal(n) => if n == Expr || n == Term || n == Fact then 1 else 0
    case Action(a) =>
      match a
      case Negate => 0
      case Push => 1
      case _ => -1
  }

  /** The net effect of a parse stack (its bottom first, its top at the end). */
  function NetSum(stack: seq<Token>): int {
    if stack == [] then 0 else Net(stack[0]) + NetSum(stack[1..])
  }

  /** The least value-stack height from which processing all of stack, top
      (the end) first, never pops an empty value stack: what the part above
      the bottom symbol needs, and what the bottom symbol needs less what the
      part above it leaves behind. */
  function Demand(stack: seq<Token>): nat {
    if stack == [] then 0
    else Max(Demand(stack[1..]), Need(stack[0]) - NetSum(stack[1..]))
  }

  function Reverse(s: seq<Token>): (r: seq<Token>)
    ensures |r| == |s|
    ensures forall i :: 0 <= i < |s| ==> r[i] == s[|s| - 1 - i]
  {
    if s == [] then [] else Reverse(s[1..]) + [s[0]]
  }

  lemma {:induction false} NetSumAppend(a: seq<Token>, b: seq<Token>)
    ensures NetSum(a + b) == NetSum(a) + NetSum(b)
  {
    if a != [] {
      assert (a + b)[1..] == a[1..] + b;
      NetSumAppend(a[1..], b);
    } else {
      assert a + b == b;
    }
  }

  /** Demand composes: a stack on top of another needs what its top part needs,
      and what the lower part needs less what the top part leaves behind. */
  lemma {:induction false} DemandAppend(a: seq<Token>, b: seq<Token>)
    ensures Demand(a + b) == Max(Demand(b), Demand(a) - NetSum(b))
  {
    if a != [] {
      assert (a + b)[1..] == a[1..] + b;
      DemandAppend(a[1..], b);
      NetSumAppend(a[1..], b);
    } else {
      assert a + b == b;
    }
  }

  /** The rows of the table, one non-terminal at a time. */
  lemma StartRow(t: ETerminal)
    ensures Table(t, Start) == if t == END then Some([])
                               else if t == MINUS || t == NL || t == NUMBER || t == OP then
                                 Some([NonTerminal(Line), NonTerminal(Start)])
                               else None
  {
  }

  lemma LineRow(t: ETerminal)
    ensures Table(t, Line) == if t == NL then Some([Terminal(NL)])
                              else if t == MINUS || t == NUMBER || t == OP then
                                Some([NonTerminal(Expr), Action(Print), Terminal(NL)])
                              else None
  {
  }

  lemma ExprRow(t: ETerminal)
    ensures Table(t, Expr) == if t == MINUS || t == NUMBER || t == OP then
                                Some([NonTerminal(Term), NonTerminal(ExprP)])
                              else None
  {
  }

  lemma ExprPRow(t: ETerminal)
    ensures Table(t, ExprP) == if t == PLUS then Some([Terminal(PLUS), NonTerminal(Term), Action(Add), NonTerminal(ExprP)])
                               else if t == MINUS then Some([Terminal(MINUS), NonTerminal(Term), Action(Subtract), NonTerminal(ExprP)])
                               else if t == CP || t == NL then Some([])
                               else None
  {
  }

  lemma TermRow(t: ETerminal)
    ensures Table(t, Term) == if t == MINUS || t == NUMBER || t == OP then
                                Some([NonTerminal(Fact), NonTerminal(TermP)])
                              else None
  {
  }

  lemma TermPRow(t: ETerminal)
    ensures Table(t, TermP) == if t == TIMES then Some([Terminal(TIMES), NonTerminal(Fact), Action(Times), NonTerminal(TermP)])
                               else if t == DIVIDE then Some([Terminal(DIVIDE), NonTerminal(Fact), Action(Divide), NonTerminal(TermP)])
                               else if t == CP || t == MINUS || t == NL || t == PLUS then Some([])
                               else None
  {
  }

  lemma FactRow(t: ETerminal)
    ensures Table(t, Fact) == if t == MINUS then Some([Terminal(MINUS), NonTerminal(Fact), Action(Negate)])
                              else if t == NUMBER then Some([Terminal(NUMBER), Action(Push)])
                              else if t == OP then Some([Terminal(OP), NonTerminal(Expr), Terminal(CP)])
                              else None
  {
  }

  /** The demand and net effect of a short stack, bottom first. */
  lemma Effect1(a: Token)
    ensures NetSum([a]) == Net(a) && Demand([a]) == Need(a)
  {
    assert [a][1..] == [];
  }

  lemma Effect2(a: Token, b: Token)
    ensures NetSum([a, b]) == Net(a) + Net(b)
    ensures Demand([a, b]) == Max(Need(b), Need(a) - Net(b))
  {
    assert [a, b][1..] == [b];
    Effect1(b);
  }

  lemma Effect3(a: Token, b: Token, c: Token)
    ensures NetSum([a, b, c]) == Net(a) + Net(b) + Net(c)
    ensures Demand([a, b, c]) == Max(Demand([b, c]), Need(a) - Net(b) - Net(c))
  {
    assert [a, b, c][1..] == [b, c];
    Effect2(b, c);
  }

  lemma Effect4(a: Token, b: Token, c: Token, d: Token)
    ensures NetSum([a, b, c, d]) == Net(a) + Net(b) + Net(c) + Net(d)
    ensures Demand([a, b, c, d]) == Max(Demand([b, c, d]), Need(a) - Net(b) - Net(c) - Net(d))
  {
    assert [a, b, c, d][1..] == [b, c, d];
    Effect3(b, c, d);
  }

  /** Every production, pushed reversed, has the net effect of the
      non-terminal it replaces and needs no more than it. */
  lemma ProductionBalanced(t: ETerminal, n: ENonTerminal)
    requires Table(t, n).Some?
    ensures NetSum(Reverse(Table(t, n).value)) == Net(NonTerminal(n))
    ensures Demand(Reverse(Table(t, n).value)) <= Need(NonTerminal(n))
  {
    match n
    case Start => StartBalanced(t);
    case Line => LineBalanced(t);
    case Expr => ExprBalanced(t);
    case ExprP => ExprPBalanced(t);
    case Term => TermBalanced(t);
    case TermP => TermPBalanced(t);
    case Fact => FactBalanced(t);
  }

  /** Start -> Line Start | (END). */
  lemma StartBalanced(t: ETerminal)
    requires Table(t, Start).Some?
    ensures NetSum(Reverse(Table(t, Start).value)) == Net(NonTerminal(Start))
    ensures Demand(Reverse(Table(t, Start).value)) <= Need(NonTerminal(Start))
  {
    StartRow(t);
    if t != END {
      assert Reverse([NonTerminal(Line), NonTerminal(Start)]) == [NonTerminal(Start), NonTerminal(Line)];
      Effect2(NonTerminal(Start), NonTerminal(Line));
    }
  }

  /** Line -> Expr Print NL | NL: Print consumes the expression's value. */
  lemma LineBalanced(t: ETerminal)
    requires Table(t, Line).Some?
    ensures NetSum(Reverse(Table(t, Line).value)) == Net(NonTerminal(Line))
    ensures Demand(Reverse(Table(t, Line).value)) <= Need(NonTerminal(Line))
  {
    LineRow(t);
    if t == NL {
      assert Reverse([Terminal(NL)]) == [Terminal(NL)];
      Effect1(Terminal(NL));
    } else {
      assert Reverse([NonTerminal(Expr), Action(Print), Terminal(NL)]) ==
             [Terminal(NL), Action(Print), NonTerminal(Expr)];
      Effect3(Terminal(NL), Action(Print), NonTerminal(Expr));
      Effect2(Action(Print), NonTerminal(Expr));
    }
  }

  /** Expr -> Term ExprP: the tail folds the term's value. */
  lemma ExprBalanced(t: ETerminal)
    requires Table(t, Expr).Some?
    ensures NetSum(Reverse(Table(t, Expr).value)) == Net(NonTerminal(Expr))
    ensures Demand(Reverse(Table(t, Expr).value)) <= Need(NonTerminal(Expr))
  {
    ExprRow(t);
    assert Reverse([NonTerminal(Term), NonTerminal(ExprP)]) == [NonTerminal(ExprP), NonTerminal(Term)];
    Effect2(NonTerminal(ExprP), NonTerminal(Term));
  }

  /** Term -> Fact TermP. */
  lemma TermBalanced(t: ETerminal)
    requires Table(t, Term).Some?
    ensures NetSum(Reverse(Table(t, Term).value)) == Net(NonTerminal(Term))
    ensures Demand(Reverse(Table(t, Term).value)) <= Need(NonTerminal(Term))
  {
    TermRow(t);
    assert Reverse([NonTerminal(Fact), NonTerminal(TermP)]) == [NonTerminal(TermP), NonTerminal(Fact)];
    Effect2(NonTerminal(TermP), NonTerminal(Fact));
  }

  /** Op Operand Action Tail, pushed reversed: the operand's value is folded
      into the one below it, which the tail then folds further. */
  lemma OperatorTailBalanced(op: ETerminal, operand: ENonTerminal, act: EAction, tail: ENonTerminal)
    requires (operand == Term && tail == ExprP) || (operand == Fact && tail == TermP)
    requires act == Add || act == Subtract || act == Times || act == Divide
    ensures var r := Reverse([Terminal(op), NonTerminal(operand), Action(act), NonTerminal(tail)]);
            NetSum(r) == 0 && Demand(r) <= 1
  {
    assert Reverse([Terminal(op), NonTerminal(operand), Action(act), NonTerminal(tail)]) ==
           [NonTerminal(tail), Action(act), NonTerminal(operand), Terminal(op)];
    Effect4(NonTerminal(tail), Action(act), NonTerminal(operand), Terminal(op));
    Effect3(Action(act), NonTerminal(operand), Terminal(op));
    Effect2(NonTerminal(operand), Terminal(op));
  }

  /** ExprP -> + Term Add ExprP | - Term Subtract ExprP | (). */
  lemma ExprPBalanced(t: ETerminal)
    requires Table(t, ExprP).Some?
    ensures NetSum(Reverse(Table(t, ExprP).value)) == Net(NonTerminal(ExprP))
    ensures Demand(Reverse(Table(t, ExprP).value)) <= Need(NonTerminal(ExprP))
  {
    ExprPRow(t);
    if t == PLUS {
      OperatorTailBalanced(PLUS, Term, Add, ExprP);
    } else if t == MINUS {
      OperatorTailBalanced(MINUS, Term, Subtract, ExprP);
    }
  }

  /** TermP -> * Fact Times TermP | / Fact Divide TermP | (). */
  lemma TermPBalanced(t: ETerminal)
    requires Table(t, TermP).Some?
    ensures NetSum(Reverse(Table(t, TermP).value)) == Net(NonTerminal(TermP))
    ensures Demand(Reverse(Table(t, TermP).value)) <= Need(NonTerminal(TermP))
  {
    TermPRow(t);
    if t == TIMES {
      OperatorTailBalanced(TIMES, Fact, Times, TermP);
    } else if t == DIVIDE {
      OperatorTailBalanced(DIVIDE, Fact, Divide, TermP);
    }
  }

  /** Fact -> - Fact Negate | NUMBER Push | ( Expr ). */
  lemma FactBalanced(t: ETerminal)
    requires Table(t, Fact).Some?
    ensures NetSum(Reverse(Table(t, Fact).value)) == Net(NonTerminal(Fact))
    ensures Demand(Reverse(Table(t, Fact).value)) <= Need(NonTerminal(Fact))
  {
    FactRow(t);
    if t == MINUS {
      assert Reverse([Terminal(MINUS), NonTerminal(Fact), Action(Negate)]) ==
             [Action(Negate), NonTerminal(Fact), Terminal(MINUS)];
      Effect3(Action(Negate), NonTerminal(Fact), Terminal(MINUS));
      Effect2(NonTerminal(Fact), Terminal(MINUS));
    } else if t == NUMBER {
      assert Reverse([Terminal(NUMBER), Action(Push)]) == [Action(Push), Terminal(NUMBER)];
      Effect2(Action(Push), Terminal(NUMBER));
    } else {
      assert Reverse([Terminal(OP), NonTerminal(Expr), Terminal(CP)]) ==
             [Terminal(CP), NonTerminal(Expr), Terminal(OP)];
      Effect3(Terminal(CP), NonTerminal(Expr), Terminal(OP));
      Effect2(NonTerminal(Expr), Terminal(OP));
    }
  }

  /** Replacing the top symbol x of a stack by symbols with x's net effect
      and no greater demand keeps both for the whole stack. */
  lemma ReplaceBalanced(rest: seq<Token>, x: Token, rhs: seq<Token>)
    requires NetSum(rhs) == Net(x) && Demand(rhs) <= Need(x)
    ensures Demand(rest + rhs) <= Demand(rest + [x])
    ensures NetSum(rest + rhs) == NetSum(rest + [x])
  {
    DemandAppend(rest, rhs);
    DemandAppend(rest, [x]);
    NetSumAppend(rest, rhs);
    NetSumAppend(rest, [x]);
    Effect1(x);
  }

  /** Expanding the non-terminal on top of a stack neither raises the stack's
      demand on the value stack nor changes its net effect. */
  lemma ExpansionBalanced(rest: seq<Token>, t: ETerminal, n: ENonTerminal)
    requires Table(t, n).Some?
    ensures Demand(rest + Reverse(Table(t, n).value)) <= Demand(rest + [NonTerminal(n)])
    ensures NetSum(rest + Reverse(Table(t, n).value)) == NetSum(rest + [NonTerminal(n)])
  {
    ProductionBalanced(t, n);
    ReplaceBalanced(rest, NonTerminal(n), Reverse(Table(t, n).value));
  }
}
