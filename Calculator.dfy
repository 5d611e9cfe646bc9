// The `main` function of calc.rs as an imperative method: the parse stack,
// the value stack, the lexer state and the lookahead cell are local
// variables updated in one `loop`, exactly as in the source. Each pass
// through the loop is proved to perform one Machine.Step, so the lines it
// prints are those of the reference evaluator (Simulation.Correct).

module Calculator {
  import opened Tokens
  import opened Lexer
  import opened ParseTable
  import opened Machine
  import opened Reference
  import opened Simulation

  /** `for token in tokens.iter().rev() { stack.push(*token) }`: the right-hand
      side is pushed last symbol first, so its first symbol ends on top. */
  method PushReversed(stack: seq<Token>, rhs: seq<Token>) returns (r: seq<Token>)
    ensures r == stack + Reverse(rhs)
    ensures rhs != [] ==> r[|r| - 1] == rhs[0]
  {
    r := stack;
    var i := |rhs|;
    while i > 0
      invariant 0 <= i <= |rhs|
      invariant r == stack + Reverse(rhs[i..])
    {
      i := i - 1;
      assert rhs[i..][1..] == rhs[i + 1..];
      r := r + [rhs[i]];
    }
    assert rhs[0..] == rhs;
  }

  /** The recovery loop `while lexeme != NL { (lexeme, value) = lex(&mut c) }`,
      entered with lexeme = RESET: tokens are read and dropped through the
      next newline. */
  method SkipToNewline(lx: LexState) returns (lexeme: ETerminal, value: real)
    requires lx.Valid() && NewlineAhead(lx.input, lx.Cursor())
    modifies lx`pos, lx`c
    ensures lx.Valid()
    ensures Scanned(lexeme, value, lx.Cursor()) == SkipLine(lx.input, old(lx.Cursor()))
  {
    ghost var q := lx.Cursor();
    lexeme, value := RESET, 0.0;
    while lexeme != NL
      invariant lx.Valid()
      invariant lexeme != NL ==> NewlineAhead(lx.input, lx.Cursor()) &&
                                 SkipLine(lx.input, q) == SkipLine(lx.input, lx.Cursor())
      invariant lexeme == NL ==> SkipLine(lx.input, q) == Scanned(NL, value, lx.Cursor())
      decreases |lx.input| - lx.Cursor(), if lexeme == NL then 0 else 1
    {
      ghost var q1 := lx.Cursor();
      lexeme, value := lx.Lex();
      if lexeme != NL {
        ScanKeepsNewlineAhead(lx.input, q1);
      }
    }
  }

  /** One action, popping with `epop` and pushing the result; ok is false
      where `epop` would panic on an empty value stack. */
  method Perform(act: EAction, values: seq<Value>, value: real, out: seq<Output>, ghost s: State)
    returns (ok: bool, values': seq<Value>, out': seq<Output>)
    requires s.values == values && s.value == value && s.out == out
    ensures ok <==> |values| >= Need(Action(act))
    ensures ok ==> Apply(act, s) == Next(s.(values := values', out := out'))
    ensures !ok ==> Apply(act, s).Panic?
  {
    values', out' := values, out;
    match act {
      case Push =>
        values' := values' + [Finite(value)];
        return true, values', out';
      case Negate =>
        if values' == [] { return false, values', out'; }
        var a := values'[|values'| - 1];
        values' := values'[..|values'| - 1];
        values' := values' + [Neg(a)];
      case Print =>
        if values' == [] { return false, values', out'; }
        var a := values'[|values'| - 1];
        values' := values'[..|values'| - 1];
        out' := out' + [Printed(a)];
      case _ =>
        if values' == [] { return false, values', out'; }
        var b := values'[|values'| - 1];
        values' := values'[..|values'| - 1];
        if values' == [] { return false, values', out'; }
        var a := values'[|values'| - 1];
        values' := values'[..|values'| - 1];
        assert values == values' + [a, b];
        BinaryValues(s, act, values', a, b);
        values' := values' + [Arith(act, a, b)];
    }
    ok := true;
  }

  /** The body of the loop once no error is pending: pop the top of the
      parse stack and match it, expand it or run it. ok is false where
      `epop` would panic. */
  method DispatchTop(lx: LexState, stack: seq<Token>, values: seq<Value>, lexeme: ETerminal,
                     value: real, out: seq<Output>, ghost s: State)
    returns (ok: bool, stack': seq<Token>, values': seq<Value>, lexeme': ETerminal,
             value': real, out': seq<Output>)
    requires lx.Valid() && s == State(stack, values, lx.Cursor(), lexeme, value, out)
    requires lexeme != RESET && stack != []
    modifies lx`pos, lx`c
    ensures lx.Valid()
    ensures ok <==> !Step(lx.input, s).Panic?
    ensures ok ==> Step(lx.input, s) == Next(State(stack', values', lx.Cursor(), lexeme', value', out'))
  {
    ok, stack', values', lexeme', value', out' := true, stack, values, lexeme, value, out;
    var top := stack'[|stack'| - 1];
    stack' := stack'[..|stack'| - 1];
    assert s.stack == stack' + [top];
    match top {
      case Terminal(t) =>
        MatchStep(lx.input, s, stack', t);
        if lexeme' == NONE {
          lexeme', value' := lx.Lex();
        }
        if t != lexeme' {
          lexeme' := RESET;
        } else {
          lexeme' := NONE;
        }
      case NonTerminal(nt) =>
        ExpandStep(lx.input, s, stack', nt);
        if lexeme' == NONE {
          lexeme', value' := lx.Lex();
        }
        match Table(lexeme', nt) {
          case Some(rhs) =>
            stack' := PushReversed(stack', rhs);
          case None =>
            lexeme' := RESET;
        }
      case Action(act) =>
        ActionDispatch(lx.input, s, stack', act);
        ok, values', out' := Perform(act, values', value', out', s.(stack := stack'));
    }
  }

  /** One pass through the body of the loop: recover if an error is
      pending, then leave on an empty stack or dispatch on its top. done is
      true where the pass leaves the loop, ok false where `epop` panics. */
  method Iteration(lx: LexState, stack: seq<Token>, values: seq<Value>, lexeme: ETerminal,
                   value: real, out: seq<Output>, ghost s: State)
    returns (done: bool, ok: bool, stack': seq<Token>, values': seq<Value>, lexeme': ETerminal,
             value': real, out': seq<Output>)
    requires lx.Valid() && s == State(stack, values, lx.Cursor(), lexeme, value, out)
    requires lexeme == RESET ==> NewlineAhead(lx.input, lx.Cursor())
    modifies lx`pos, lx`c
    ensures lx.Valid()
    ensures done ==> Step(lx.input, s) == Done(State(stack', values', lx.Cursor(), lexeme', value', out'))
    ensures !done ==> (ok <==> !Step(lx.input, s).Panic?)
    ensures !done && ok ==> Step(lx.input, s) == Next(State(stack', values', lx.Cursor(), lexeme', value', out'))
  {
    done, ok, stack', values', lexeme', value', out' := false, true, stack, values, lexeme, value, out;
    if lexeme' == RESET {
      RecoverEnding(lx.input, s);
      out' := out' + [SyntaxError];
      lexeme', value' := SkipToNewline(lx);
      stack' := [NonTerminal(Start)];
      values' := [];
      lexeme' := NONE;
    }
    ghost var s1 := State(stack', values', lx.Cursor(), lexeme', value', out');
    assert Step(lx.input, s) == Step(lx.input, s1);
    if stack' == [] {
      EmptyStackStep(lx.input, s1);
      return true, ok, stack', values', lexeme', value', out';
    }
    ok, stack', values', lexeme', value', out' := DispatchTop(lx, stack', values', lexeme', value', out', s1);
  }

  /** Iteration within a run that leaves the loop within n iterations: the
      pass either leaves the loop with the run's final state, or leaves a
      state from which fewer iterations remain to the same end. */
  method Advance(lx: LexState, stack: seq<Token>, values: seq<Value>, lexeme: ETerminal,
                 value: real, out: seq<Output>, ghost s: State, ghost n: nat)
    returns (done: bool, stack': seq<Token>, values': seq<Value>, lexeme': ETerminal,
             value': real, out': seq<Output>, ghost t: State, ghost n': nat)
    requires lx.Valid() && s == State(stack, values, lx.Cursor(), lexeme, value, out)
    requires Steps(lx.input, s, n).Done?
    modifies lx`pos, lx`c
    ensures lx.Valid() && t == State(stack', values', lx.Cursor(), lexeme', value', out')
    ensures done ==> Steps(lx.input, s, n) == Done(t)
    ensures !done ==> n' < n && t.cursor <= |lx.input| && Steps(lx.input, t, n') == Steps(lx.input, s, n)
  {
    if lexeme == RESET {
      DoneRecovers(lx.input, s, n);
    }
    var ok;
    done, ok, stack', values', lexeme', value', out' := Iteration(lx, stack, values, lexeme, value, out, s);
    t := State(stack', values', lx.Cursor(), lexeme', value', out');
    DoneAdvance(lx.input, s, t, n, done, ok);
    n' := if done then 0 else n - 1;
  }

  /** The driving loop of `main`, on the whole input. The source loops forever
      in recovery when a syntax error has no newline after it; this method is
      for the inputs on which the program terminates, and prints exactly
      what the reference evaluator prints. */
  method Calculate(input: seq<char>) returns (out: seq<Output>)
    requires Run(input).Finished?
    ensures out == Run(input).out
  {
    ghost var fin := Run(input).out;
    Correct(input, fin);
    ghost var n: nat :| Steps(input, Init(), n).Done? && Steps(input, Init(), n).s.out == fin;

    var lx := new LexState(input);
    var stack := [NonTerminal(Start)];
    var values: seq<Value> := [];
    var lexeme := NONE;
    var value := 0.0;
    out := [];

    ghost var cur := State(stack, values, lx.Cursor(), lexeme, value, out);
    while true
      invariant lx.Valid() && lx.input == input
      invariant cur == State(stack, values, lx.Cursor(), lexeme, value, out)
      invariant Steps(input, cur, n).Done? && Steps(input, cur, n).s.out == fin
      decreases n
    {
      var done;
      ghost var t, n';
      done, stack, values, lexeme, value, out, t, n' := Advance(lx, stack, values, lexeme, value, out, cur, n);
      if done {
        break;
      }
      cur, n := t, n';
    }
  }
}
