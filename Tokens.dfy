// The symbol alphabet of the calculator: terminals, non-terminals, semantic
// actions, the tagged union of the three that lives on the parse stack, the
// numeric values the actions compute with, and what the program prints.

module Tokens {

  /** Terminals produced by the lexer. NONE marks an empty lookahead cell and
      RESET a syntax error (a bad character or a failed match); neither ever
      appears in a production. */
  datatype ETerminal = NONE | OP | CP | NUMBER | PLUS | MINUS | TIMES | DIVIDE | NL | END | RESET

  datatype ENonTerminal = Start | Expr | ExprP | Term | TermP | Fact | Line

  datatype EAction = Negate | Add | Subtract | Times | Divide | Push | Print

  /** One entry of the parse stack. */
  datatype Token = Terminal(t: ETerminal) | NonTerminal(n: ENonTerminal) | Action(a: EAction)

  /** A computed value. Arithmetic is exact; a division by zero, and anything
      computed from its result, is NotFinite (an infinity or NaN in the
      program's floating point). */
  datatype Value = Finite(x: real) | NotFinite

  function Neg(a: Value): (r: Value)
    ensures r.Finite? <==> a.Finite?
    ensures r.Finite? ==> r.x == -a.x
  {
    if a.Finite? then Finite(-a.x) else NotFinite
  }

  function Plus(a: Value, b: Value): (r: Value)
    ensures r.Finite? <==> a.Finite? && b.Finite?
    ensures r.Finite? ==> r.x == a.x + b.x
  {
    if a.Finite? && b.Finite? then Finite(a.x + b.x) else NotFinite
  }

  function Minus(a: Value, b: Value): (r: Value)
    ensures r.Finite? <==> a.Finite? && b.Finite?
    ensures r.Finite? ==> r.x == a.x - b.x
  {
    if a.Finite? && b.Finite? then Finite(a.x - b.x) else NotFinite
  }

  function Mul(a: Value, b: Value): (r: Value)
    ensures r.Finite? <==> a.Finite? && b.Finite?
    ensures r.Finite? ==> r.x == a.x * b.x
  {
    if a.Finite? && b.Finite? then Finite(a.x * b.x) else NotFinite
  }

  function Quot(a: Value, b: Value): (r: Value)
    ensures r.Finite? <==> a.Finite? && b.Finite? && b.x != 0.0
    ensures r.Finite? ==> r.x * b.x == a.x
  {
    if a.Finite? && b.Finite? && b.x != 0.0 then Finite(a.x / b.x) else NotFinite
  }

  /** One line of output: "result = <value>" or "syntax error". */
  datatype Output = Printed(v: Value) | SyntaxError
}
