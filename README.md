# calc.rs in Dafny

`calc.rs` is a line-oriented desk calculator. It reads arithmetic
expressions from standard input and prints `result = <value>` for each line,
or `syntax error`. It is a table-driven LL(1) predictive parser that
evaluates while it parses. A parse stack of grammar symbols and semantic
actions, a value stack and a one-token lookahead cell are driven by a
single loop. A 28-entry table maps (lookahead terminal, non-terminal) to a
production, and a lexer reads one token at a time, keeping one pending
character instead of un-reading.

This project models that program and proves what it computes.

- **Tokens** (`Tokens.dfy`): the terminal, non-terminal, action and token
  enums, and the values and output lines.
  - A value is an exact real number, or `NotFinite` for the result of a
    division by zero and anything computed from it.
  - An output line is `Printed(v)` or `SyntaxError`.
- **Lexer** (`Lexer.dfy`): `lex` as the method `LexState.Lex`, on a class
  holding the input position and the pending character `c`. It is proved
  against the pure function `Scan`, which says what one call of `lex`
  returns from a cursor into the input. Properties proved:
  - A digit run is accumulated as `val * 10 + digit` and this equals its
    decimal (positional) value.
  - The character that ends a number stays pending.
  - Every other token consumes its character.
  - At end of input `lex` returns `END` forever.
  - `SkipLine` is the recovery discard: it reads through the first newline
    and no further.
- **ParseTable** (`ParseTable.dfy`): the table as a function. Its contract
  states the facts needed later:
  - `NONE` and `RESET` are never keys.
  - Only `END` maps `Start` to the empty production.
  - A production beginning with a terminal begins with the lookahead.
  - `Start` occurs only in `Start -> Line Start`.

  Every symbol gets a demand and a net effect on the value stack, and every
  production is proved to keep both. This is what rules out the `epop`
  panic.
- **Machine** (`Machine.dfy`): one pass through the body of `main`'s loop
  as the pure function `Step`, and `Steps` for k passes. A pass ends in one
  of four ways: go on, leave the loop, loop forever in recovery (`Hang`), or
  panic in `epop`. Properties proved:
  - The value stack balances against the parse stack (`StepKeepsInv`).
  - The panic is unreachable from the initial state (`NoPanic`).
  - Each line leaves the value stack empty (`LineBalances`).
  - The loop is left only after `Start` is expanded on `END` (`CleanExit`).
  - The step lemmas: expansion pushes the production reversed, a match
    consumes exactly one token, actions never lex, and the binary actions
    take the right operand from the top.
- **Reference** (`Reference.dfy`): a recursive-descent evaluator for the
  grammar the table encodes, written without the table. It uses the same
  one-token lookahead, the same error positions and the same resynchronise
  at the next newline. `Run(input)` says whether the session finishes or
  hangs, and what it prints.
- **Simulation** (`Simulation.dfy`): the theorem `Correct`. From the
  initial state, the loop finishes printing `out` exactly when
  `Run(input) == Finished(out)`, and hangs printing `out` exactly when
  `Run(input) == Hangs(out)`.
- **Calculator** (`Calculator.dfy`): `main`'s loop as an imperative method.
  It works on local stacks and the lookahead cell and calls `LexState.Lex`.
  Each pass is proved to perform one `Step`, so `Calculate` prints what
  `Run` says.
- **Examples** (`Examples.dfy`): whole sessions on small inputs:
  - `20-5-3` prints 12;
  - `3+4*2` prints 11;
  - `-(2+3)` prints -5;
  - an empty line prints nothing;
  - a syntax error followed by a good line prints the error, then the
    result;
  - `7` with no newline hangs.

Behaviour of the code that the model keeps:

- **Hang with no trailing newline.** Recovery reads tokens until `NL`, and
  at end of input `lex` returns `END` forever. A syntax error with no
  newline after it therefore loops forever. Input `7` with no newline is
  such a case: `Line -> Expr Print NL` fails on `END`.
- **Error at a newline swallows the next line.** When the error is detected
  on the `NL` token itself, that `NL` has already been consumed, so the
  discard runs through the following line. `1+\n2\n` prints only
  `syntax error`.
- **NUL characters.** A `'\0'` character in the input reads as `END`. A
  `'\0'` right after a digit run is taken for "nothing pending" and
  dropped.
- **28 table entries.** Besides the productions of the expression grammar,
  the table holds `(NL, Line) -> [NL]` (calc.rs:205), which makes an
  empty line legal.

## Model

| member | source | states |
|---|---|---|
| Tokens.Neg | calc.rs:288-291 | `-a` is finite exactly when a is, and is then the negation |
| Tokens.Plus | calc.rs:292-296 | `a + b` is finite exactly when both operands are, and is then their sum |
| Tokens.Minus | calc.rs:297-301 | `a - b` is finite exactly when both operands are, and is then their difference, left minus right |
| Tokens.Mul | calc.rs:302-306 | `a * b` is finite exactly when both operands are, and is then their product |
| Tokens.Quot | calc.rs:307-311 | `a / b` is finite exactly when both operands are finite and b is not zero, and then the quotient times b is a |
| Lexer.At | calc.rs:133-138 | the character read at index i: the input's character there, and '\0' exactly at end of input or for a NUL character in the input |
| Lexer.CharTerminal | calc.rs:147-168 | a non-blank non-digit character gives END exactly for '\0', NL exactly for '\n', RESET exactly for a character outside `+-*/()`, and never NONE or NUMBER |
| Lexer.DigitsValueIsPositional | calc.rs:154-160 | the left-to-right accumulation `val * 10 + digit` over a digit run equals the run's decimal value |
| Lexer.DigitsValueBound | calc.rs:154-160 | a run of k digits has a value below 10^k |
| Lexer.Scan | calc.rs:141-172 | one call of `lex`: the cursor advances exactly when input remains; at end of input the token is END and the cursor stays; a non-number has value 0; only an NL token consumes a newline, and it ends on one |
| Lexer.ScanEnd | calc.rs:143-152 | `lex` returns END exactly when the first character after the blanks is '\0', which is at end of input or on a NUL character with input still left |
| Lexer.ScanNumber | calc.rs:154-160 | after blanks, a maximal digit run gives NUMBER with its positional value; the first non-digit is not consumed (a '\0' there is dropped) |
| Lexer.ScanSymbol | calc.rs:147-170 | after blanks, a non-digit character is consumed and classified by CharTerminal, with value 0 |
| Lexer.ScanAtEnd | calc.rs:143-152 | with only blanks left, `lex` returns END, and returns END again forever |
| Lexer.ScanKeepsNewlineAhead | calc.rs:246-248 | a token other than NL moves the cursor and leaves a pending newline ahead |
| Lexer.SkipLine | calc.rs:246-248 | the recovery discard ends on an NL token, whose newline is the first one at or after the cursor |
| Lexer.LexState.Getc | calc.rs:133-138 | reads the next character and advances, or gives '\0' at end of input without advancing |
| Lexer.LexState.SkipBlanks | calc.rs:146-151 | reads past spaces and tabs to the first other character |
| Lexer.LexState.LexDigits | calc.rs:154-160 | accumulates the digit run's value and leaves its first non-digit pending in c |
| Lexer.LexState.Lex | calc.rs:141-172 | one token, equal to Scan from the cursor before the call; every token other than NUMBER clears the pending character |
| ParseTable.Table | calc.rs:192-221 | the 28 productions; NONE and RESET are never keys; only END maps Start to the empty production; a production that starts with a terminal starts with the lookahead; Start appears only in `Start -> Line Start` |
| ParseTable.Reverse | calc.rs:276-278 | the right-hand side in reverse order, element by element |
| ParseTable.ProductionBalanced | calc.rs:192-221 | every production, pushed reversed, has the net value-stack effect of its non-terminal and needs no more values than it |
| ParseTable.ExpansionBalanced | calc.rs:268-279 | replacing the top non-terminal by its production raises neither the stack's demand nor its net effect |
| Machine.Init | calc.rs:224-233 | stack [Start], no values, nothing read, lexeme NONE, nothing printed; this state satisfies the balance invariant |
| Machine.Arith | calc.rs:292-311 | the result of a binary action is finite only for finite operands, and is then a + b, a - b, a * b, or the quotient q with q * b = a and b nonzero, the left operand first |
| Machine.EPop | calc.rs:174-188 | gives the last value and the rest exactly when the value stack is not empty; None is the panic |
| Machine.Recover | calc.rs:244-252 | adds "syntax error"; with a newline ahead, discards through the first newline and resets to stack [Start], no values, lexeme NONE; with none, hangs |
| Machine.Fill | calc.rs:257-259 | lexes only when the cell is empty, and then fills it with Scan's token |
| Machine.Binary | calc.rs:292-311 | panics exactly when fewer than two values are on the stack |
| Machine.Negation | calc.rs:288-291 | panics exactly when the value stack is empty |
| Machine.PrintTop | calc.rs:315-318 | panics exactly when the value stack is empty |
| Machine.Apply | calc.rs:286-319 | an action panics exactly when the value stack holds fewer values than it pops |
| Machine.ApplyShape | calc.rs:286-319 | an action changes the value-stack height by its net effect and changes nothing but the values and the output |
| Machine.Dispatch | calc.rs:254-332 | the loop is left exactly when the parse stack is empty, in the same state; a popped symbol never hangs |
| Machine.Step | calc.rs:235-333 | one iteration keeps the cursor within the input |
| Machine.EndingUnique | calc.rs:235-333 | a run ends in at most one way and with one output |
| Machine.StepKeepsInv | calc.rs:235-333 | one iteration keeps the balance invariant and never panics; the loop is left only with both stacks empty and lexeme END |
| Machine.NoPanic | calc.rs:174-188 | from stack [Start] and no values, no number of iterations reaches the `epop` panic, and the loop is left with an empty value stack |
| Machine.LineBalances | calc.rs:200 | whenever the parse stack is back to [Start] with no error pending, the value stack is empty |
| Machine.CleanExit | calc.rs:329-331 | the parse stack empties only by expanding the sole symbol Start on END, and the next iteration leaves the loop with no values left |
| Machine.ExpandStep | calc.rs:268-285 | on a hit the production is pushed reversed above the unchanged rest, leftmost symbol on top; on a miss nothing is pushed and lexeme becomes RESET |
| Machine.MatchStep | calc.rs:255-267 | the terminal is popped; a match empties the cell, a mismatch sets RESET |
| Machine.ActionDispatch | calc.rs:286-287 | an action is popped and run without lexing |
| Machine.EmptyStackStep | calc.rs:329-331 | an empty parse stack leaves the loop |
| Machine.ActionStep | calc.rs:286-318 | Add, Subtract, Times and Divide take b from the top and a below it and push a op b; Negate replaces the top by its negation; Push pushes the last NUMBER's value; Print pops and prints |
| Machine.BinaryValues | calc.rs:292-311 | a binary action on `vs + [a, b]` leaves `vs + [a op b]` |
| Reference.EvalExpr | calc.rs:197-213 | an expression either fails at or after where it started or consumes input and leaves a valid lookahead |
| Reference.EvalFact | calc.rs:199-214 | a factor either fails at or after where it started or consumes input and leaves a valid lookahead |
| Reference.EvalLine | calc.rs:200-215 | a line prints at most one result, and either fails at or after where it started or consumes input |
| Simulation.Correct | calc.rs:224-333 | from the initial state the loop finishes printing out exactly when the reference session finishes with out, and hangs printing out exactly when the reference hangs with out |
| Calculator.PushReversed | calc.rs:276-278 | pushes the right-hand side reversed, ending with its first symbol on top |
| Calculator.SkipToNewline | calc.rs:246-248 | the recovery loop returns SkipLine's NL and cursor |
| Calculator.Perform | calc.rs:286-318 | runs an action exactly as Apply; fails exactly where `epop` would panic |
| Calculator.DispatchTop | calc.rs:254-328 | pops and matches, expands or runs the top symbol as one Step; fails exactly where Step panics |
| Calculator.Iteration | calc.rs:244-333 | one pass through the loop body is one Step: it leaves the loop as Step does, fails exactly where Step panics, and otherwise reaches Step's state |
| Calculator.Advance | calc.rs:235-333 | in a run that ends, a pass either ends it with the run's final state or comes strictly closer to the end |
| Calculator.Calculate | calc.rs:224-333 | on every input on which the program terminates, the lines printed are those of the reference session |
| Examples.SymbolAt | calc.rs:161-170 | a single operator, parenthesis, newline or bad character is one token of value 0 |
| Examples.DigitAt | calc.rs:154-160 | a single digit is a NUMBER of that digit's value |
| Examples.EmptyLine | calc.rs:205 | the input "\n" finishes and prints nothing |
| Examples.TwentyAt | calc.rs:154-160 | "20" lexes as the number 20 |
| Examples.LeftToRight | calc.rs:198 | "20-5-3\n" prints 12: subtraction associates to the left |
| Examples.Precedence | calc.rs:197-220 | "3+4*2\n" prints 11: multiplication binds tighter than addition |
| Examples.NegatedSum | calc.rs:199-214 | "-(2+3)\n" prints -5: Negate applies to a parenthesised factor |
| Examples.ErrorAtNewlineSwallowsNextLine | calc.rs:244-248 | "1+\n2\n" prints only "syntax error": the error is seen on the newline and the discard eats the next line |
| Examples.MissingNewlineHangs | calc.rs:246-248 | "7" with no newline prints "syntax error" and hangs in recovery |
| Examples.ErrorThenResume | calc.rs:244-252 | "+\n3\n" prints "syntax error", then resumes and prints 3 |

## Left out

- Standard input (calc.rs:133-138) is a fixed character sequence read by
  index, with `'\0'` past its end. A read error, which the source ignores
  and so treats as end of input, is not modelled separately.
- The source reads bytes and turns each into a `char`. The model takes the
  resulting character sequence directly, so no encoding is modelled.
- `TRACE` diagnostics (calc.rs:26, 236-242, 320-326) are development-only
  printing and are left out.
- Floating point: values are exact reals.
  - `f64` rounding is not modelled, nor overflow to infinity, nor the
    inexactness of `val * 10 + d` beyond 2^53.
  - Every infinity and NaN is the one value `NotFinite`. An `f64`
    expression such as `1/(1/0)`, which gives 0, gives `NotFinite` here.
- Output formatting is not modelled. `println!("result = {}")`
  (calc.rs:317) and `println!("syntax error")` become `Printed(v)` and
  `SyntaxError` entries of an output sequence.
- The `token_vec!` macro, the `MakeToken` trait and the `Hash`/`PartialEq`
  impls (calc.rs:28-30, 50-63, 98-131) are library plumbing. The table is
  a function, and equality on terminals is datatype equality, which is what
  comparing discriminants amounts to.
- `ExitCode` (calc.rs:23, 334) is process plumbing and is left out.
- The `epop` panic is a `Panic` outcome of `Step`, proved unreachable
  (`Machine.NoPanic`). The imperative method therefore has no panic path
  to take.
- Calculator.Calculate: requires `Run(input).Finished?`, i.e. that the
  program terminates. On an input where a syntax error has no newline after
  it, the source loops forever, and a Dafny method must terminate. That
  behaviour is captured by `Machine.Step`'s `Hang` outcome and by
  `Simulation.Correct` instead.
