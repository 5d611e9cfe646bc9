// The driving loop of calc.rs's `main`, one iteration at a time, as a pure
// state machine: `Step` is one pass through the body of the `loop`, `Steps`
// runs it k times. The imperative loop in module Calculator is proved to
// follow it.

module Machine {
  import opened Tokens
  import opened Lexer
  import opened ParseTable

  /** The variables of `main`: the parse stack (top at the end, as in the Vec),
      the value stack, the lexer's cursor (its pending character and input
      position), the lookahead cell `lexeme`/`value`, and the lines printed. */
  datatype State = State(stack: seq<Token>, values: seq<Value>, cursor: nat,
                         lexeme: ETerminal, value: real, out: seq<Output>)

  /** stack = [Start], no values, nothing pending, lexeme = NONE. */
  function Init(): (s: State)
    ensures Balanced(s) && s.stack == [NonTerminal(Start)]
    ensures s.cursor == 0 && s.lexeme == NONE && s.out == []
  {
    assert [NonTerminal(Start)][1..] == [];
    State([NonTerminal(Start)], [], 0, NONE, 0.0, [])
  }

  /** The outcome of one iteration: go on, leave the loop (the parse stack was
      empty), loop forever in recovery (no newline left), or panic in `epop`. */
  datatype StepResult = Next(s: State) | Done(s: State) | Hang(s: State) | Panic(s: State)

  /** The RESET branch at the top of the loop: print "syntax error", discard
      tokens through the next NL, and restart with stack = [Start] and an
      empty value stack. With no newline left, `lex` returns END forever and
      the discard never ends. */
  function Recover(input: seq<char>, s: State): (r: StepResult)
    requires s.cursor <= |input|
    ensures r.Next? || r.Hang?
    ensures r.s.out == s.out + [SyntaxError]
    ensures r.Next? <==> NewlineAhead(input, s.cursor)
    ensures r.Next? ==> r.s.stack == [NonTerminal(Start)] && r.s.values == [] && r.s.lexeme == NONE
    ensures r.Next? ==> s.cursor < r.s.cursor <= |input| && input[r.s.cursor - 1] == '\n'
    ensures r.Next? ==> forall k :: s.cursor <= k < r.s.cursor - 1 ==> input[k] != '\n'
    ensures r.Hang? ==> r.s.cursor == s.cursor
  {
    if NewlineAhead(input, s.cursor) then
      var r := SkipLine(input, s.cursor);
      Next(State([NonTerminal(Start)], [], r.next, NONE, r.value, s.out + [SyntaxError]))
    else
      Hang(s.(out := s.out + [SyntaxError]))
  }

  /** `if lexeme == NONE { (lexeme, value) = lex(&mut c) }` */
  function Fill(input: seq<char>, s: State): (r: State)
    requires s.cursor <= |input|
    ensures r.cursor <= |input| && r.lexeme != NONE
    ensures r.stack == s.stack && r.values == s.values && r.out == s.out
    ensures s.lexeme != NONE ==> r == s
    ensures s.lexeme == NONE ==>
              Scan(input, s.cursor) == Scanned(r.lexeme, r.value, r.cursor)
  {
    if s.lexeme == NONE then
      var r := Scan(input, s.cursor);
      s.(lexeme := r.terminal, value := r.value, cursor := r.next)
    else s
  }

  /** `epop`: the top value and the rest, or nothing (the panic). */
  function EPop(values: seq<Value>): (r: Option<(Value, seq<Value>)>)
    ensures r.Some? <==> values != []
    ensures r.Some? ==> values == r.value.1 + [r.value.0]
  {
    if values == [] then None else Some((values[|values| - 1], values[..|values| - 1]))
  }

  /** The arithmetic of a binary action, left operand first. */
  function Arith(a: EAction, x: Value, y: Value): (r: Value)
    ensures r.Finite? ==> x.Finite? && y.Finite?
    ensures a == Add && r.Finite? ==> r.x == x.x + y.x
    ensures a == Subtract && r.Finite? ==> r.x == x.x - y.x
    ensures a == Times && r.Finite? ==> r.x == x.x * y.x
    ensures a != Add && a != Subtract && a != Times && r.Finite? ==> y.x != 0.0 && r.x * y.x == x.x
  {
    match a
    case Add => Plus(x, y)
    case Subtract => Minus(x, y)
    case Times => Mul(x, y)
    case _ => Quot(x, y)
  }

  /** A binary action: pop b (the right operand), then a, push a op b. */
  function Binary(s: State, op: EAction): (r: StepResult)
    ensures r.Panic? <==> |s.values| < 2
    ensures r.Next? || r.Panic?
  {
    match EPop(s.values)
    case None => Panic(s)
    case Some((b, vs)) =>
      match EPop(vs)
      case None => Panic(s)
      case Some((a, rest)) => Next(s.(values := rest + [Arith(op, a, b)]))
  }

  /** Negate: pop a, push -a. */
  function Negation(s: State): (r: StepResult)
    ensures r.Panic? <==> s.values == []
    ensures r.Next? || r.Panic?
  {
    match EPop(s.values)
    case None => Panic(s)
    case Some((x, rest)) => Next(s.(values := rest + [Neg(x)]))
  }

  /** Print: pop a and print "result = a". */
  function PrintTop(s: State): (r: StepResult)
    ensures r.Panic? <==> s.values == []
    ensures r.Next? || r.Panic?
  {
    match EPop(s.values)
    case None => Panic(s)
    case Some((x, rest)) => Next(s.(values := rest, out := s.out + [Printed(x)]))
  }

  /** Run an action against the value stack (the action already popped). */
  function Apply(a: EAction, s: State): (r: StepResult)
    ensures r.Next? || r.Panic?
    ensures r.Panic? <==> |s.values| < Need(Action(a))
  {
    match a
    case Negate => Negation(s)
    case Add => Binary(s, Add)
    case Subtract => Binary(s, Subtract)
    case Times => Binary(s, Times)
    case Divide => Binary(s, Divide)
    case Push => Next(s.(values := s.values + [Finite(s.value)]))
    case Print => PrintTop(s)
  }

  /** An action changes the height of the value stack by its net effect and
      leaves everything but the value stack and the output alone. */
  lemma ApplyShape(a: EAction, s: State)
    requires Apply(a, s).Next?
    ensures |Apply(a, s).s.values| == |s.values| + Net(Action(a))
    ensures Apply(a, s).s.(values := s.values, out := s.out) == s
  {
  }

  /** `match stack.pop()`: leave the loop on an empty stack; otherwise match a
      terminal, expand a non-terminal, or run an action. */
  function Dispatch(input: seq<char>, s: State): (r: StepResult)
    requires s.cursor <= |input|
    ensures r.s.cursor <= |input|
    ensures !r.Hang?
    ensures r.Done? <==> s.stack == []
    ensures r.Done? ==> r.s == s
  {
    if s.stack == [] then Done(s)
    else
      var top := s.stack[|s.stack| - 1];
      var popped := s.(stack := s.stack[..|s.stack| - 1]);
      match top
      case Terminal(t) =>
        var f := Fill(input, popped);
        if t != f.lexeme then Next(f.(lexeme := RESET)) else Next(f.(lexeme := NONE))
      case NonTerminal(n) =>
        var f := Fill(input, popped);
        (match Table(f.lexeme, n)
         case Some(rhs) => Next(f.(stack := f.stack + Reverse(rhs)))
         case None => Next(f.(lexeme := RESET)))
      case Action(a) => Apply(a, popped)
  }

  /** One iteration of the loop in `main`. */
  function Step(input: seq<char>, s: State): (r: StepResult)
    requires s.cursor <= |input|
    ensures r.s.cursor <= |input|
  {
    if s.lexeme == RESET then
      var r := Recover(input, s);
      if r.Next? then Dispatch(input, r.s) else r
    else Dispatch(input, s)
  }

  /** k iterations of a step function f that keeps the cursor within n,
      stopping early when f leaves the loop. */
  function Iterate(f: State --> StepResult, n: nat, s: State, k: nat): (r: StepResult)
    requires s.cursor <= n
    requires forall t: State :: t.cursor <= n ==> f.requires(t) && f(t).s.cursor <= n
    ensures r.s.cursor <= n
    decreases k
  {
    if k == 0 then Next(s)
    else
      var r := f(s);
      if r.Next? then Iterate(f, n, r.s, k - 1) else r
  }

  /** a + b iterations are a iterations followed by b more, unless the loop
      was left within the first a; from then on nothing changes. */
  lemma {:induction false} IterateAdd(f: State --> StepResult, n: nat, s: State, a: nat, b: nat)
    requires s.cursor <= n
    requires forall t: State :: t.cursor <= n ==> f.requires(t) && f(t).s.cursor <= n
    ensures Iterate(f, n, s, a).Next? ==> Iterate(f, n, s, a + b) == Iterate(f, n, Iterate(f, n, s, a).s, b)
    ensures !Iterate(f, n, s, a).Next? ==> Iterate(f, n, s, a + b) == Iterate(f, n, s, a)
    decreases a
  {
    if a > 0 {
      var r := f(s);
      if r.Next? {
        IterateAdd(f, n, r.s, a - 1, b);
      }
    }
  }

  /** Once f has left the loop, further iterations change nothing. */
  lemma IterateHalted(f: State --> StepResult, n: nat, s: State, a: nat, b: nat)
    requires s.cursor <= n && a <= b
    requires forall t: State :: t.cursor <= n ==> f.requires(t) && f(t).s.cursor <= n
    requires !Iterate(f, n, s, a).Next?
    ensures Iterate(f, n, s, b) == Iterate(f, n, s, a)
  {
    IterateAdd(f, n, s, a, b - a);
  }

  /** Two states whose first step agrees agree from then on. */
  lemma IterateSameFirst(f: State --> StepResult, n: nat, t: State, r: State, k: nat)
    requires t.cursor <= n && r.cursor <= n && k > 0
    requires forall u: State :: u.cursor <= n ==> f.requires(u) && f(u).s.cursor <= n
    requires f(t) == f(r)
    ensures Iterate(f, n, t, k) == Iterate(f, n, r, k)
  {
  }

  function StepOf(input: seq<char>): State --> StepResult {
    (t: State) requires t.cursor <= |input| => Step(input, t)
  }

  /** k iterations of the loop. */
  function Steps(input: seq<char>, s: State, k: nat): (r: StepResult)
    requires s.cursor <= |input|
    ensures r.s.cursor <= |input|
  {
    Iterate(StepOf(input), |input|, s, k)
  }

  lemma StepsAdd(input: seq<char>, s: State, a: nat, b: nat)
    requires s.cursor <= |input|
    ensures Steps(input, s, a).Next? ==> Steps(input, s, a + b) == Steps(input, Steps(input, s, a).s, b)
    ensures !Steps(input, s, a).Next? ==> Steps(input, s, a + b) == Steps(input, s, a)
  {
    IterateAdd(StepOf(input), |input|, s, a, b);
  }

  /** The first of k + 1 iterations. */
  lemma StepsFirst(input: seq<char>, s: State, k: nat)
    requires s.cursor <= |input|
    ensures Step(input, s).Next? ==> Steps(input, s, k + 1) == Steps(input, Step(input, s).s, k)
    ensures !Step(input, s).Next? ==> Steps(input, s, k + 1) == Step(input, s)
  {
  }

  /** The loop gets from s to t in some number of iterations. */
  ghost predicate Reaches(input: seq<char>, s: State, t: State)
    requires s.cursor <= |input|
  {
    exists k: nat :: Steps(input, s, k) == Next(t)
  }

  lemma ReachesRefl(input: seq<char>, s: State)
    requires s.cursor <= |input|
    ensures Reaches(input, s, s)
  {
    assert Steps(input, s, 0) == Next(s);
  }

  lemma ReachesStep(input: seq<char>, s: State, t: State)
    requires s.cursor <= |input| && Step(input, s) == Next(t)
    ensures Reaches(input, s, t)
  {
    StepsFirst(input, s, 0);
    assert Steps(input, t, 0) == Next(t);
    assert Steps(input, s, 1) == Next(t);
  }

  lemma ReachesTrans(input: seq<char>, s: State, t: State, u: State)
    requires s.cursor <= |input| && t.cursor <= |input|
    requires Reaches(input, s, t) && Reaches(input, t, u)
    ensures Reaches(input, s, u)
  {
    var a: nat :| Steps(input, s, a) == Next(t);
    var b: nat :| Steps(input, t, b) == Next(u);
    StepsAdd(input, s, a, b);
    assert Steps(input, s, a + b) == Next(u);
  }

  /** The loop, started in s, is left after printing out. */
  ghost predicate Finishes(input: seq<char>, s: State, out: seq<Output>)
    requires s.cursor <= |input|
  {
    exists k: nat :: Steps(input, s, k).Done? && Steps(input, s, k).s.out == out
  }

  /** The loop, started in s, gets stuck in recovery after printing out. */
  ghost predicate HangsWith(input: seq<char>, s: State, out: seq<Output>)
    requires s.cursor <= |input|
  {
    exists k: nat :: Steps(input, s, k).Hang? && Steps(input, s, k).s.out == out
  }

  /** Once the loop is left, the way it was left and the state it was left
      in are the only ones. */
  lemma HaltUnique(input: seq<char>, s: State, a: nat, b: nat)
    requires s.cursor <= |input|
    requires !Steps(input, s, a).Next? && !Steps(input, s, b).Next?
    ensures Steps(input, s, a) == Steps(input, s, b)
  {
    if a <= b {
      IterateHalted(StepOf(input), |input|, s, a, b);
    } else {
      IterateHalted(StepOf(input), |input|, s, b, a);
    }
  }

  /** A run ends in at most one way, with one output. */
  lemma EndingUnique(input: seq<char>, s: State, o1: seq<Output>, o2: seq<Output>)
    requires s.cursor <= |input|
    ensures Finishes(input, s, o1) && Finishes(input, s, o2) ==> o1 == o2
    ensures HangsWith(input, s, o1) && HangsWith(input, s, o2) ==> o1 == o2
    ensures !(Finishes(input, s, o1) && HangsWith(input, s, o2))
  {
    if Finishes(input, s, o1) && Finishes(input, s, o2) {
      var a: nat :| Steps(input, s, a).Done? && Steps(input, s, a).s.out == o1;
      var b: nat :| Steps(input, s, b).Done? && Steps(input, s, b).s.out == o2;
      HaltUnique(input, s, a, b);
    }
    if HangsWith(input, s, o1) && HangsWith(input, s, o2) {
      var a: nat :| Steps(input, s, a).Hang? && Steps(input, s, a).s.out == o1;
      var b: nat :| Steps(input, s, b).Hang? && Steps(input, s, b).s.out == o2;
      HaltUnique(input, s, a, b);
    }
    if Finishes(input, s, o1) && HangsWith(input, s, o2) {
      var a: nat :| Steps(input, s, a).Done? && Steps(input, s, a).s.out == o1;
      var b: nat :| Steps(input, s, b).Hang? && Steps(input, s, b).s.out == o2;
      HaltUnique(input, s, a, b);
    }
  }

  /** A run to t, then an iteration that ends the loop. */
  lemma ReachesHalt(input: seq<char>, s: State, t: State)
    requires s.cursor <= |input| && t.cursor <= |input| && Reaches(input, s, t)
    ensures Step(input, t).Done? ==> Finishes(input, s, Step(input, t).s.out)
    ensures Step(input, t).Hang? ==> HangsWith(input, s, Step(input, t).s.out)
  {
    var k: nat :| Steps(input, s, k) == Next(t);
    ReachesOne(input, s, t, k);
    StepsOne(input, t);
    var r := Step(input, t);
    if r.Done? {
      assert Steps(input, s, k + 1).Done? && Steps(input, s, k + 1).s.out == r.s.out;
    } else if r.Hang? {
      assert Steps(input, s, k + 1).Hang? && Steps(input, s, k + 1).s.out == r.s.out;
    }
  }

  /** k iterations to t, then one more. */
  lemma ReachesOne(input: seq<char>, s: State, t: State, k: nat)
    requires s.cursor <= |input| && t.cursor <= |input| && Steps(input, s, k) == Next(t)
    ensures Steps(input, s, k + 1) == Steps(input, t, 1)
  {
    StepsAdd(input, s, k, 1);
    assert Steps(input, s, k).s == t;
  }

  /** One iteration is one step. */
  lemma StepsOne(input: seq<char>, t: State)
    requires t.cursor <= |input|
    ensures Steps(input, t, 1) == Step(input, t)
  {
    StepsFirst(input, t, 0);
  }

  /** A run to t, then t's ending. */
  lemma ReachesEnding(input: seq<char>, s: State, t: State, out: seq<Output>)
    requires s.cursor <= |input| && t.cursor <= |input| && Reaches(input, s, t)
    ensures Finishes(input, t, out) ==> Finishes(input, s, out)
    ensures HangsWith(input, t, out) ==> HangsWith(input, s, out)
  {
    var k: nat :| Steps(input, s, k) == Next(t);
    if Finishes(input, t, out) {
      var b: nat :| Steps(input, t, b).Done? && Steps(input, t, b).s.out == out;
      StepsAdd(input, s, k, b);
    }
    if HangsWith(input, t, out) {
      var b: nat :| Steps(input, t, b).Hang? && Steps(input, t, b).s.out == out;
      StepsAdd(input, s, k, b);
    }
  }

  /** Two states whose next iteration is the same take the same k-th
      iteration, for every k > 0. */
  lemma SameStepSteps(input: seq<char>, t: State, r: State, k: nat)
    requires t.cursor <= |input| && r.cursor <= |input| && Step(input, t) == Step(input, r)
    requires k > 0
    ensures Steps(input, t, k) == Steps(input, r, k)
  {
    IterateSameFirst(StepOf(input), |input|, t, r, k);
  }

  /** Two states whose next iteration is the same end the same way. */
  lemma SameStepEnding(input: seq<char>, t: State, r: State, out: seq<Output>)
    requires t.cursor <= |input| && r.cursor <= |input| && Step(input, t) == Step(input, r)
    ensures Finishes(input, r, out) ==> Finishes(input, t, out)
    ensures HangsWith(input, r, out) ==> HangsWith(input, t, out)
  {
    if Finishes(input, r, out) {
      var k: nat :| Steps(input, r, k).Done? && Steps(input, r, k).s.out == out;
      assert k > 0;
      SameStepSteps(input, t, r, k);
    }
    if HangsWith(input, r, out) {
      var k: nat :| Steps(input, r, k).Hang? && Steps(input, r, k).s.out == out;
      assert k > 0;
      SameStepSteps(input, t, r, k);
    }
  }

  /** Recovery from a syntax error: with a newline ahead, the next iteration
      is that of a fresh [Start] state after the newline that has printed
      "syntax error"; without one, the loop hangs after printing it. */
  lemma RecoverEnding(input: seq<char>, t: State)
    requires t.cursor <= |input| && t.lexeme == RESET
    ensures NewlineAhead(input, t.cursor) ==>
              var r := SkipLine(input, t.cursor);
              Step(input, t) == Step(input, State([NonTerminal(Start)], [], r.next, NONE, r.value, t.out + [SyntaxError]))
    ensures !NewlineAhead(input, t.cursor) ==> HangsWith(input, t, t.out + [SyntaxError])
  {
    StepsFirst(input, t, 0);
  }

  /** The first iteration of a run that leaves the loop within n
      iterations: it neither panics nor hangs, and the rest of the run
      follows from its result. */
  lemma DoneFirst(input: seq<char>, s: State, n: nat)
    requires s.cursor <= |input| && Steps(input, s, n).Done?
    ensures n > 0 && !Step(input, s).Panic? && !Step(input, s).Hang?
    ensures Step(input, s).Done? ==> Step(input, s) == Steps(input, s, n)
    ensures Step(input, s).Next? ==> Steps(input, Step(input, s).s, n - 1) == Steps(input, s, n)
  {
    StepsFirst(input, s, n - 1);
  }

  /** What one pass through the loop leaves (t, or the loop left) within a
      run that leaves the loop within n iterations. */
  lemma DoneAdvance(input: seq<char>, s: State, t: State, n: nat, done: bool, ok: bool)
    requires s.cursor <= |input| && Steps(input, s, n).Done?
    requires done ==> Step(input, s) == Done(t)
    requires !done ==> (ok <==> !Step(input, s).Panic?)
    requires !done && ok ==> Step(input, s) == Next(t)
    ensures if done then Steps(input, s, n) == Done(t)
            else n > 0 && t.cursor <= |input| && Steps(input, t, n - 1) == Steps(input, s, n)
  {
    DoneFirst(input, s, n);
  }

  /** A run that finishes never meets a syntax error without a newline
      after it. */
  lemma DoneRecovers(input: seq<char>, t: State, k: nat)
    requires t.cursor <= |input| && t.lexeme == RESET && Steps(input, t, k).Done?
    ensures NewlineAhead(input, t.cursor)
  {
    RecoverEnding(input, t);
    assert Finishes(input, t, Steps(input, t, k).s.out);
    EndingUnique(input, t, Steps(input, t, k).s.out, t.out + [SyntaxError]);
  }

  // ---------------------------------------------------------------------------
  // The invariant: no underflow, each line balances, Start stays at the bottom

  predicate StartAtBottom(stack: seq<Token>) {
    stack == [] || (stack[0] == NonTerminal(Start) && NonTerminal(Start) !in stack[1..])
  }

  /** The value stack holds what the rest of the parse stack will consume, and
      exactly that: it is empty once the parse stack is processed. */
  ghost predicate Balanced(s: State) {
    && |s.values| >= Demand(s.stack)
    && |s.values| + NetSum(s.stack) == 0
    && StartAtBottom(s.stack)
    && (s.stack == [] ==> s.lexeme == END)
  }

  /** A RESET state is about to be recovered, so only the cursor matters. */
  ghost predicate Inv(input: seq<char>, s: State) {
    s.cursor <= |input| && (s.lexeme != RESET ==> Balanced(s))
  }

  /** Popping the top symbol off a parse stack. */
  lemma PopBalance(front: seq<Token>, top: Token)
    ensures Demand(front + [top]) == Max(Need(top), Demand(front) - Net(top))
    ensures NetSum(front + [top]) == NetSum(front) + Net(top)
  {
    DemandAppend(front, [top]);
    NetSumAppend(front, [top]);
    assert [top][1..] == [];
  }

  /** Below a top symbol other than Start lies the rest of the stack, with
      Start still at its bottom. */
  lemma PopStartAtBottom(front: seq<Token>, top: Token)
    requires StartAtBottom(front + [top]) && top != NonTerminal(Start)
    ensures front != [] && StartAtBottom(front)
  {
    var stack := front + [top];
    assert stack[0] == NonTerminal(Start);
    assert front != [];
    assert front[1..] == stack[1..|stack| - 1];
  }

  /** Start can only be popped as the sole symbol of the stack. */
  lemma PopStart(front: seq<Token>)
    requires StartAtBottom(front + [NonTerminal(Start)])
    ensures front == []
  {
    var stack := front + [NonTerminal(Start)];
    assert stack[|stack| - 1] in stack[1..] || |stack| == 1;
  }

  lemma MatchKeepsInv(input: seq<char>, s: State, front: seq<Token>, t: ETerminal)
    requires s.cursor <= |input| && Balanced(s) && s.stack == front + [Terminal(t)]
    ensures Dispatch(input, s).Next? && Inv(input, Dispatch(input, s).s)
  {
    PopBalance(front, Terminal(t));
    PopStartAtBottom(front, Terminal(t));
    assert s.stack[..|s.stack| - 1] == front;
  }

  /** Expanding Start, the sole symbol: the stack becomes [Start, Line] or,
      on END, empty. */
  lemma ExpandStartKeepsInv(input: seq<char>, s: State)
    requires s.cursor <= |input| && Balanced(s) && s.stack == [NonTerminal(Start)]
    ensures Dispatch(input, s).Next? && Inv(input, Dispatch(input, s).s)
  {
    assert s.stack[..0] == [];
    var f := Fill(input, s.(stack := []));
    var r := Table(f.lexeme, Start);
    if r.Some? && r.value != [] {
      assert Reverse(r.value) == [NonTerminal(Start), NonTerminal(Line)];
      assert [NonTerminal(Start), NonTerminal(Line)][1..] == [NonTerminal(Line)];
    }
  }

  /** Expanding any other non-terminal: the production's symbols go above
      the rest of the stack, and none of them is Start. */
  lemma ExpandOtherKeepsInv(input: seq<char>, s: State, front: seq<Token>, n: ENonTerminal)
    requires s.cursor <= |input| && Balanced(s) && s.stack == front + [NonTerminal(n)] && n != Start
    ensures Dispatch(input, s).Next? && Inv(input, Dispatch(input, s).s)
  {
    var f := Fill(input, s.(stack := front));
    ExpandResult(input, s, front, n);
    if Table(f.lexeme, n).Some? {
      ExpandKeepsBalance(s, Dispatch(input, s).s, front, f.lexeme, n);
    }
  }

  /** Expanding n: the stack has n replaced by its production, or the token
      is marked RESET; the value stack is untouched. */
  lemma ExpandResult(input: seq<char>, s: State, front: seq<Token>, n: ENonTerminal)
    requires s.cursor <= |input| && s.stack == front + [NonTerminal(n)]
    ensures Dispatch(input, s).Next? && Dispatch(input, s).s.values == s.values
    ensures Table(Fill(input, s.(stack := front)).lexeme, n).Some? ==>
              Dispatch(input, s).s.stack == front + Reverse(Table(Fill(input, s.(stack := front)).lexeme, n).value)
    ensures Table(Fill(input, s.(stack := front)).lexeme, n).None? ==> Dispatch(input, s).s.lexeme == RESET
  {
    assert s.stack[..|s.stack| - 1] == front;
  }

  /** Replacing a non-terminal other than Start by its production keeps the
      balance. */
  lemma ExpandKeepsBalance(s: State, t: State, front: seq<Token>, la: ETerminal, n: ENonTerminal)
    requires Balanced(s) && s.stack == front + [NonTerminal(n)] && n != Start && Table(la, n).Some?
    requires t.stack == front + Reverse(Table(la, n).value) && t.values == s.values
    ensures Balanced(t)
  {
    PopStartAtBottom(front, NonTerminal(n));
    ExpansionBalanced(front, la, n);
    var rhs := Reverse(Table(la, n).value);
    assert NonTerminal(Start) !in rhs;
    assert t.stack[1..] == front[1..] + rhs;
  }

  /** Popping a symbol other than Start and applying its effect to the value
      stack keeps the balance. */
  lemma PopKeepsBalance(s: State, t: State, front: seq<Token>, top: Token)
    requires Balanced(s) && s.stack == front + [top] && top != NonTerminal(Start)
    requires t.stack == front && |t.values| == |s.values| + Net(top)
    ensures |s.values| >= Need(top) && Balanced(t)
  {
    PopBalance(front, top);
    PopStartAtBottom(front, top);
    var net, dem := Net(top), Demand(front);
    assert |s.values| >= Max(Need(top), dem - net);
    assert |t.values| >= dem;
  }

  /** Running an action that has its operands pops it and changes only the
      value stack (by the action's net effect) and the output. */
  lemma ActionResult(input: seq<char>, s: State, front: seq<Token>, a: EAction)
    requires s.cursor <= |input| && s.stack == front + [Action(a)]
    requires |s.values| >= Need(Action(a))
    ensures var r := Dispatch(input, s);
            && r.Next? && r.s.stack == front && r.s.lexeme == s.lexeme && r.s.cursor == s.cursor
            && |r.s.values| == |s.values| + Net(Action(a))
  {
    assert s.stack[..|s.stack| - 1] == front;
    assert Dispatch(input, s) == Apply(a, s.(stack := front));
    ApplyShape(a, s.(stack := front));
  }

  lemma ActionKeepsInv(input: seq<char>, s: State, front: seq<Token>, a: EAction)
    requires s.cursor <= |input| && Balanced(s) && s.stack == front + [Action(a)]
    ensures Dispatch(input, s).Next? && Inv(input, Dispatch(input, s).s)
  {
    PopBalance(front, Action(a));
    ActionResult(input, s, front, a);
    PopKeepsBalance(s, Dispatch(input, s).s, front, Action(a));
  }

  lemma DispatchKeepsInv(input: seq<char>, s: State)
    requires s.cursor <= |input| && Balanced(s)
    ensures !Dispatch(input, s).Panic?
    ensures Dispatch(input, s).Next? ==> Inv(input, Dispatch(input, s).s)
  {
    if s.stack != [] {
      var front, top := s.stack[..|s.stack| - 1], s.stack[|s.stack| - 1];
      assert s.stack == front + [top];
      match top
      case Terminal(t) => MatchKeepsInv(input, s, front, t);
      case NonTerminal(n) =>
        if n == Start {
          PopStart(front);
          ExpandStartKeepsInv(input, s);
        } else {
          ExpandOtherKeepsInv(input, s, front, n);
        }
      case Action(a) => ActionKeepsInv(input, s, front, a);
    }
  }

  /** One iteration keeps the invariant, never panics, and leaves the loop
      only with an empty value stack right after END was seen. */
  lemma StepKeepsInv(input: seq<char>, s: State)
    requires Inv(input, s)
    ensures !Step(input, s).Panic?
    ensures Step(input, s).Next? ==> Inv(input, Step(input, s).s)
    ensures Step(input, s).Done? ==>
              Step(input, s).s == s && s.stack == [] && s.values == [] && s.lexeme == END
  {
    if s.lexeme == RESET {
      var r := Recover(input, s);
      if r.Next? {
        DispatchKeepsInv(input, r.s);
      }
    } else {
      DispatchKeepsInv(input, s);
    }
  }

  lemma {:induction false} StepsKeepInv(input: seq<char>, s: State, k: nat)
    requires Inv(input, s)
    ensures !Steps(input, s, k).Panic?
    ensures Steps(input, s, k).Next? ==> Inv(input, Steps(input, s, k).s)
    ensures Steps(input, s, k).Done? ==> Steps(input, s, k).s.values == []
    decreases k
  {
    if k > 0 {
      StepsFirst(input, s, k - 1);
      StepKeepsInv(input, s);
      if Step(input, s).Next? {
        StepsKeepInv(input, Step(input, s).s, k - 1);
      }
    }
  }

  /** No underflow: from the initial state the panic in `epop` is unreachable,
      however many iterations run and whatever the input; the loop is left
      only with an empty value stack. */
  lemma NoPanic(input: seq<char>, k: nat)
    ensures !Steps(input, Init(), k).Panic?
    ensures Steps(input, Init(), k).Done? ==> Steps(input, Init(), k).s.values == []
  {
    assert [NonTerminal(Start)][1..] == [];
    StepsKeepInv(input, Init(), k);
  }

  /** Each line balances: whenever the parse stack is back to [Start] the value
      stack is empty again. */
  lemma LineBalances(input: seq<char>, s: State)
    requires Inv(input, s) && s.lexeme != RESET && s.stack == [NonTerminal(Start)]
    ensures s.values == []
  {
    assert [NonTerminal(Start)][1..] == [];
  }

  /** Clean exit: unless a syntax error is pending, the parse stack becomes
      empty only by expanding Start, then the sole symbol, on END; the next
      iteration leaves the loop with nothing left on the value stack. */
  lemma CleanExit(input: seq<char>, s: State)
    requires Inv(input, s) && s.lexeme != RESET
    requires Step(input, s).Next? && Step(input, s).s.stack == [] && Step(input, s).s.lexeme != RESET
    ensures s.stack == [NonTerminal(Start)]
    ensures Step(input, s).s.lexeme == END && Step(input, s).s.values == []
    ensures Step(input, Step(input, s).s) == Done(Step(input, s).s)
  {
    StepKeepsInv(input, s);
    assert s.stack != [];
    var front, top := s.stack[..|s.stack| - 1], s.stack[|s.stack| - 1];
    assert s.stack == front + [top];
    if top != NonTerminal(Start) {
      PopStartAtBottom(front, top);
      assert false;
    }
    PopStart(front);
  }

  // ---------------------------------------------------------------------------
  // One step at a time: expansion, matching, actions

  /** Expansion: on a table hit the right-hand side is pushed reversed, so its
      leftmost symbol is on top and the rest of the stack is unchanged; on a
      miss nothing is pushed and lexeme becomes RESET. Neither lexes unless
      the lookahead cell was empty. */
  lemma ExpandStep(input: seq<char>, s: State, rest: seq<Token>, n: ENonTerminal)
    requires s.cursor <= |input| && s.lexeme != RESET
    requires s.stack == rest + [NonTerminal(n)]
    ensures var f := Fill(input, s);
            match Table(f.lexeme, n)
            case Some(rhs) =>
              && Step(input, s) == Next(f.(stack := rest + Reverse(rhs)))
              && (rhs != [] ==> Last(Step(input, s).s.stack) == rhs[0])
            case None => Step(input, s) == Next(f.(stack := rest, lexeme := RESET))
  {
    assert s.stack[..|s.stack| - 1] == rest;
  }

  function Last(s: seq<Token>): Token
    requires s != []
  {
    s[|s| - 1]
  }

  /** Matching a terminal: lex only if the cell is empty; a match empties the
      cell (each matched terminal consumes exactly one token), a mismatch sets
      RESET. The terminal is popped either way. */
  lemma MatchStep(input: seq<char>, s: State, rest: seq<Token>, t: ETerminal)
    requires s.cursor <= |input| && s.lexeme != RESET
    requires s.stack == rest + [Terminal(t)]
    ensures var f := Fill(input, s);
            Step(input, s) == Next(f.(stack := rest, lexeme := if t == f.lexeme then NONE else RESET))
  {
    assert s.stack[..|s.stack| - 1] == rest;
  }

  /** An action on top is popped and run; nothing is lexed. */
  lemma ActionDispatch(input: seq<char>, s: State, rest: seq<Token>, act: EAction)
    requires s.cursor <= |input| && s.lexeme != RESET
    requires s.stack == rest + [Action(act)]
    ensures Step(input, s) == Apply(act, s.(stack := rest))
  {
    assert s.stack[..|s.stack| - 1] == rest;
  }

  /** With the parse stack empty and no error pending, the loop is left. */
  lemma EmptyStackStep(input: seq<char>, s: State)
    requires s.cursor <= |input| && s.lexeme != RESET && s.stack == []
    ensures Step(input, s) == Done(s)
  {
  }

  /** Actions never lex, and compute on the value stack with the right operand
      on top: Subtract gives a - b, Divide a / b. */
  lemma ActionStep(input: seq<char>, s: State, rest: seq<Token>, act: EAction, vs: seq<Value>, a: Value, b: Value)
    requires s.cursor <= |input| && s.lexeme != RESET
    requires s.stack == rest + [Action(act)]
    ensures act == Add && s.values == vs + [a, b] ==> Step(input, s) == Next(s.(stack := rest, values := vs + [Plus(a, b)]))
    ensures act == Subtract && s.values == vs + [a, b] ==> Step(input, s) == Next(s.(stack := rest, values := vs + [Minus(a, b)]))
    ensures act == Times && s.values == vs + [a, b] ==> Step(input, s) == Next(s.(stack := rest, values := vs + [Mul(a, b)]))
    ensures act == Divide && s.values == vs + [a, b] ==> Step(input, s) == Next(s.(stack := rest, values := vs + [Quot(a, b)]))
    ensures act == Negate && s.values == vs + [a] ==> Step(input, s) == Next(s.(stack := rest, values := vs + [Neg(a)]))
    ensures act == Push ==> Step(input, s) == Next(s.(stack := rest, values := s.values + [Finite(s.value)]))
    ensures act == Print && s.values == vs + [a] ==> Step(input, s) == Next(s.(stack := rest, values := vs, out := s.out + [Printed(a)]))
  {
    ActionDispatch(input, s, rest, act);
    ApplyValues(act, s.(stack := rest), vs, a, b);
  }

  /** The effect of each action on the top of the value stack. */
  lemma ApplyValues(act: EAction, s: State, vs: seq<Value>, a: Value, b: Value)
    ensures act == Add && s.values == vs + [a, b] ==> Apply(act, s) == Next(s.(values := vs + [Plus(a, b)]))
    ensures act == Subtract && s.values == vs + [a, b] ==> Apply(act, s) == Next(s.(values := vs + [Minus(a, b)]))
    ensures act == Times && s.values == vs + [a, b] ==> Apply(act, s) == Next(s.(values := vs + [Mul(a, b)]))
    ensures act == Divide && s.values == vs + [a, b] ==> Apply(act, s) == Next(s.(values := vs + [Quot(a, b)]))
    ensures act == Negate && s.values == vs + [a] ==> Apply(act, s) == Next(s.(values := vs + [Neg(a)]))
    ensures act == Push ==> Apply(act, s) == Next(s.(values := s.values + [Finite(s.value)]))
    ensures act == Print && s.values == vs + [a] ==> Apply(act, s) == Next(s.(values := vs, out := s.out + [Printed(a)]))
  {
    if s.values == vs + [a, b] {
      BinaryValues(s, act, vs, a, b);
    }
    if s.values == vs + [a] {
      assert s.values[..|s.values| - 1] == vs;
    }
  }

  /** A binary action pops b, then a, and pushes a op b. */
  lemma BinaryValues(s: State, op: EAction, vs: seq<Value>, a: Value, b: Value)
    requires s.values == vs + [a, b]
    ensures Binary(s, op) == Next(s.(values := vs + [Arith(op, a, b)]))
  {
    assert s.values[..|s.values| - 1] == vs + [a];
    assert (vs + [a])[..|vs + [a]| - 1] == vs;
  }
}
