// A reference for what calc.rs computes, written independently of its parse
// table: a recursive-descent evaluator for the grammar the table encodes,
//
//   Start -> Line Start | (END)
//   Line  -> Expr NL | NL               (the result is printed before NL)
//   Expr  -> Term ExprP                 ExprP -> + Term ExprP | - Term ExprP | ()
//   Term  -> Fact TermP                 TermP -> * Fact TermP | / Fact TermP | ()
//   Fact  -> - Fact | NUMBER | ( Expr )
//
// with the same one-token lookahead as the program: which terminals select a
// production, which let an empty tail end, and where a syntax error is
// reported. Module Simulation proves the table-driven loop computes exactly
// this.

module Reference {
  import opened Tokens
  import opened Lexer

  /** The lookahead: the cursor of the lexer, and the cell `lexeme`/`value`
      (lexeme NONE = empty; RESET never sits in it between symbols). */
  datatype Look = Look(cursor: nat, lexeme: ETerminal, value: real)

  predicate ValidLook(input: seq<char>, l: Look) {
    l.cursor <= |input| && l.lexeme != RESET
  }

  /** Twice the unread input, plus one for a token held in the cell (END does
      not count: it is never consumed). Lexing never raises it, consuming a
      token lowers it. */
  function Measure(input: seq<char>, l: Look): nat
    requires l.cursor <= |input|
  {
    2 * (|input| - l.cursor) + (if l.lexeme == NONE || l.lexeme == END then 0 else 1)
  }

  /** Fill the cell if it is empty. */
  function Peek(input: seq<char>, l: Look): (p: Look)
    requires l.cursor <= |input|
    ensures p.cursor <= |input| && p.lexeme != NONE
    ensures l.cursor <= p.cursor && Measure(input, p) <= Measure(input, l)
    ensures l.lexeme != NONE ==> p == l
  {
    if l.lexeme == NONE then
      var r := Scan(input, l.cursor);
      Look(r.next, r.terminal, r.value)
    else l
  }

  /** Consume the token in the cell; the value stays. */
  function Consume(p: Look): Look {
    p.(lexeme := NONE)
  }

  /** A parsed phrase: its value and the lookahead after it, or the cursor
      at which a syntax error is detected. */
  datatype Parsed = Ok(v: Value, rest: Look) | Err(at: nat)

  /** What every phrase parser promises: an error is reported at or after
      where the phrase started, a success leaves a valid lookahead and has
      not moved backwards. */
  predicate Sound(input: seq<char>, l: Look, r: Parsed)
    requires l.cursor <= |input|
  {
    && (r.Err? ==> l.cursor <= r.at <= |input|)
    && (r.Ok? ==> ValidLook(input, r.rest) && l.cursor <= r.rest.cursor &&
                  Measure(input, r.rest) <= Measure(input, l))
  }

  predicate StartsFact(t: ETerminal) {
    t == MINUS || t == NUMBER || t == OP
  }

  /** Expr -> Term ExprP, on a lookahead that can start a factor. */
  function EvalExpr(input: seq<char>, l: Look): (r: Parsed)
    requires ValidLook(input, l)
    ensures Sound(input, l, r)
    ensures r.Ok? ==> Measure(input, r.rest) < Measure(input, l)
    decreases Measure(input, l), 2
  {
    var p := Peek(input, l);
    if StartsFact(p.lexeme) then
      match EvalTerm(input, p)
      case Err(c) => Err(c)
      case Ok(v, l1) => EvalExprTail(input, v, l1)
    else Err(p.cursor)
  }

  /** ExprP: fold further `+ Term` and `- Term` into acc, left to right; an
      empty tail ends at ')' or a newline. */
  function EvalExprTail(input: seq<char>, acc: Value, l: Look): (r: Parsed)
    requires ValidLook(input, l)
    ensures Sound(input, l, r)
    decreases Measure(input, l), 0
  {
    var p := Peek(input, l);
    if p.lexeme == PLUS || p.lexeme == MINUS then
      match EvalTerm(input, Consume(p))
      case Err(c) => Err(c)
      case Ok(v, l1) => EvalExprTail(input, if p.lexeme == PLUS then Plus(acc, v) else Minus(acc, v), l1)
    else if p.lexeme == CP || p.lexeme == NL then Ok(acc, p)
    else Err(p.cursor)
  }

  /** Term -> Fact TermP. */
  function EvalTerm(input: seq<char>, l: Look): (r: Parsed)
    requires ValidLook(input, l)
    ensures Sound(input, l, r)
    ensures r.Ok? ==> Measure(input, r.rest) < Measure(input, l)
    decreases Measure(input, l), 1
  {
    var p := Peek(input, l);
    if StartsFact(p.lexeme) then
      match EvalFact(input, p)
      case Err(c) => Err(c)
      case Ok(v, l1) => EvalTermTail(input, v, l1)
    else Err(p.cursor)
  }

  /** TermP: fold further `* Fact` and `/ Fact` into acc; an empty tail ends
      at ')', '+', '-' or a newline. */
  function EvalTermTail(input: seq<char>, acc: Value, l: Look): (r: Parsed)
    requires ValidLook(input, l)
    ensures Sound(input, l, r)
    decreases Measure(input, l), 0
  {
    var p := Peek(input, l);
    if p.lexeme == TIMES || p.lexeme == DIVIDE then
      match EvalFact(input, Consume(p))
      case Err(c) => Err(c)
      case Ok(v, l1) => EvalTermTail(input, if p.lexeme == TIMES then Mul(acc, v) else Quot(acc, v), l1)
    else if p.lexeme == CP || p.lexeme == PLUS || p.lexeme == MINUS || p.lexeme == NL then Ok(acc, p)
    else Err(p.cursor)
  }

  /** Fact -> - Fact | NUMBER | ( Expr ). */
  function EvalFact(input: seq<char>, l: Look): (r: Parsed)
    requires ValidLook(input, l)
    ensures Sound(input, l, r)
    ensures r.Ok? ==> Measure(input, r.rest) < Measure(input, l)
    decreases Measure(input, l), 0
  {
    var p := Peek(input, l);
    if p.lexeme == MINUS then
      match EvalFact(input, Consume(p))
      case Err(c) => Err(c)
      case Ok(v, l1) => Ok(Neg(v), l1)
    else if p.lexeme == NUMBER then Ok(Finite(p.value), Consume(p))
    else if p.lexeme == OP then
      match EvalExpr(input, Consume(p))
      case Err(c) => Err(c)
      case Ok(v, l1) =>
        var q := Peek(input, l1);
        if q.lexeme == CP then Ok(v, Consume(q)) else Err(q.cursor)
    else Err(p.cursor)
  }

  /** A line: what it prints and the lookahead after its newline, or what it
      printed before the error and where the error was detected. */
  datatype LineResult = LineOk(out: seq<Output>, rest: Look) | LineErr(out: seq<Output>, at: nat)

  /** Line -> Expr NL | NL. The result is printed as soon as the expression
      is complete, before the newline is checked. */
  function EvalLine(input: seq<char>, l: Look): (r: LineResult)
    requires ValidLook(input, l)
    ensures r.LineErr? ==> l.cursor <= r.at <= |input|
    ensures r.LineOk? ==> ValidLook(input, r.rest) && l.cursor <= r.rest.cursor &&
                          Measure(input, r.rest) < Measure(input, l)
    ensures |r.out| <= 1
  {
    var p := Peek(input, l);
    if p.lexeme == NL then LineOk([], Consume(p))
    else if StartsFact(p.lexeme) then
      match EvalExpr(input, p)
      case Err(c) => LineErr([], c)
      case Ok(v, l1) =>
        var q := Peek(input, l1);
        if q.lexeme == NL then LineOk([Printed(v)], Consume(q)) else LineErr([Printed(v)], q.cursor)
    else LineErr([], p.cursor)
  }

  /** How a session ends: by END, having printed out, or by looping forever in
      recovery after printing out (a syntax error with no newline left). */
  datatype SessionResult = Finished(out: seq<Output>) | Hangs(out: seq<Output>)

  function Then(o: seq<Output>, r: SessionResult): (r': SessionResult)
    ensures r'.Finished? <==> r.Finished?
    ensures r'.out == o + r.out
  {
    if r.Finished? then Finished(o + r.out) else Hangs(o + r.out)
  }

  /** Start -> Line Start | (END): lines until END. After a syntax error the
      rest of the line is skipped and the next line starts afresh. */
  function Session(input: seq<char>, l: Look): (r: SessionResult)
    requires ValidLook(input, l)
    decreases Measure(input, l)
  {
    var p := Peek(input, l);
    if p.lexeme == END then Finished([])
    else if p.lexeme == NL || StartsFact(p.lexeme) then
      match EvalLine(input, p)
      case LineOk(o, l1) => Then(o, Session(input, l1))
      case LineErr(o, c) => Then(o + [SyntaxError], Resync(input, l, c))
    else Then([SyntaxError], Resync(input, l, p.cursor))
  }

  /** Session on a lookahead that starts a line. */
  lemma SessionLineCase(input: seq<char>, l: Look)
    requires ValidLook(input, l)
    requires Peek(input, l).lexeme == NL || StartsFact(Peek(input, l).lexeme)
    ensures var r := EvalLine(input, Peek(input, l));
            Session(input, l) == if r.LineOk? then Then(r.out, Session(input, r.rest))
                                 else Then(r.out + [SyntaxError], Resync(input, l, r.at))
  {
  }

  /** Session on a lookahead that can neither start a line nor end input. */
  lemma SessionBadCase(input: seq<char>, l: Look)
    requires ValidLook(input, l)
    requires var t := Peek(input, l).lexeme; t != END && t != NL && !StartsFact(t)
    ensures Session(input, l) == Then([] + [SyntaxError], Resync(input, l, Peek(input, l).cursor))
  {
  }

  /** Skip through the next newline and start a new session there. */
  function Resync(input: seq<char>, l: Look, c: nat): (r: SessionResult)
    requires ValidLook(input, l) && l.cursor <= c <= |input|
    decreases Measure(input, l), 0
  {
    if NewlineAhead(input, c) then
      var r := SkipLine(input, c);
      Session(input, Look(r.next, NONE, r.value))
    else Hangs([])
  }

  /** The whole input, from the program's initial lookahead. */
  function Run(input: seq<char>): SessionResult {
    Session(input, Look(0, NONE, 0.0))
  }
}
