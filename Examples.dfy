// Whole sessions of the calculator on small inputs, computed from the
// reference; by Simulation.Correct the program prints exactly these lines.

module Examples {
  import opened Tokens
  import opened Lexer
  import opened Reference

  /** A one-character token other than a number. */
  lemma SymbolAt(input: seq<char>, i: nat)
    requires i < |input| && !IsBlank(input[i]) && !IsDigit(input[i])
    ensures Scan(input, i) == Scanned(CharTerminal(input[i]), 0.0, i + 1)
  {
    ScanSymbol(input, i, i);
  }

  /** A one-digit number followed by a character that is neither a digit
      nor '\0'. */
  lemma DigitAt(input: seq<char>, i: nat)
    requires i + 1 < |input| && IsDigit(input[i]) && !IsDigit(input[i + 1]) && input[i + 1] != '\0'
    ensures Scan(input, i) == Scanned(NUMBER, DigitOf(input[i]) as real, i + 1)
  {
    ScanNumber(input, i, i, i + 1);
    assert input[i..i + 1] == [input[i]];
    assert [input[i]][1..] == [];
  }

  /** An empty line prints nothing, and END then ends the session. */
  lemma EmptyLine(input: seq<char>)
    requires input == "\n"
    ensures Run(input) == Finished([])
  {
    SymbolAt(input, 0);
    ScanAtEnd(input, 1);
    assert EvalLine(input, Look(1, NL, 0.0)) == LineOk([], Look(1, NONE, 0.0));
    assert Session(input, Look(1, NONE, 0.0)) == Finished([]);
  }

  /** A two-digit number: the digits are accumulated as 2 * 10 + 0. */
  lemma TwentyAt(input: seq<char>)
    requires input == "20-5-3\n"
    ensures Scan(input, 0) == Scanned(NUMBER, 20.0, 2)
  {
    ScanNumber(input, 0, 0, 2);
    assert input[0..2] == "20";
    assert "20"[1..] == "0" && "0"[1..] == [];
  }

  lemma LeftToRightScans(input: seq<char>)
    requires input == "20-5-3\n"
    ensures Scan(input, 0) == Scanned(NUMBER, 20.0, 2)
    ensures Scan(input, 2) == Scanned(MINUS, 0.0, 3)
    ensures Scan(input, 3) == Scanned(NUMBER, 5.0, 4)
    ensures Scan(input, 4) == Scanned(MINUS, 0.0, 5)
    ensures Scan(input, 5) == Scanned(NUMBER, 3.0, 6)
    ensures Scan(input, 6) == Scanned(NL, 0.0, 7)
    ensures Scan(input, 7) == Scanned(END, 0.0, 7)
  {
    TwentyAt(input);
    SymbolAt(input, 2);
    DigitAt(input, 3);
    SymbolAt(input, 4);
    DigitAt(input, 5);
    SymbolAt(input, 6);
    ScanAtEnd(input, 7);
  }

  /** The two subtractions, from the first '-' on. */
  lemma LeftToRightTail(input: seq<char>)
    requires input == "20-5-3\n"
    ensures EvalExprTail(input, Finite(20.0), Look(3, MINUS, 0.0)) == Ok(Finite(12.0), Look(7, NL, 0.0))
  {
    LeftToRightScans(input);
    var nl := Look(7, NL, 0.0);
    assert EvalFact(input, Look(6, NUMBER, 3.0)) == Ok(Finite(3.0), Look(6, NONE, 3.0));
    assert EvalTermTail(input, Finite(3.0), Look(6, NONE, 3.0)) == Ok(Finite(3.0), nl);
    assert EvalTerm(input, Look(5, NONE, 0.0)) == Ok(Finite(3.0), nl);
    assert Minus(Finite(15.0), Finite(3.0)) == Finite(12.0);
    assert EvalExprTail(input, Finite(12.0), nl) == Ok(Finite(12.0), nl);
    assert EvalExprTail(input, Finite(15.0), Look(5, MINUS, 0.0)) == Ok(Finite(12.0), nl);
    assert EvalFact(input, Look(4, NUMBER, 5.0)) == Ok(Finite(5.0), Look(4, NONE, 5.0));
    assert EvalTermTail(input, Finite(5.0), Look(4, NONE, 5.0)) == Ok(Finite(5.0), Look(5, MINUS, 0.0));
    assert EvalTerm(input, Look(3, NONE, 0.0)) == Ok(Finite(5.0), Look(5, MINUS, 0.0));
    assert Minus(Finite(20.0), Finite(5.0)) == Finite(15.0);
  }

  /** Subtraction associates to the left: 20-5-3 is (20-5)-3. */
  lemma LeftToRight(input: seq<char>)
    requires input == "20-5-3\n"
    ensures Run(input) == Finished([Printed(Finite(12.0))])
  {
    LeftToRightScans(input);
    LeftToRightTail(input);
    var first := Look(2, NUMBER, 20.0);
    assert EvalFact(input, first) == Ok(Finite(20.0), Look(2, NONE, 20.0));
    assert EvalTermTail(input, Finite(20.0), Look(2, NONE, 20.0)) == Ok(Finite(20.0), Look(3, MINUS, 0.0));
    assert EvalTerm(input, first) == Ok(Finite(20.0), Look(3, MINUS, 0.0));
    assert EvalExpr(input, first) == Ok(Finite(12.0), Look(7, NL, 0.0));
    assert EvalLine(input, first) == LineOk([Printed(Finite(12.0))], Look(7, NONE, 0.0));
    assert Session(input, Look(7, NONE, 0.0)) == Finished([]);
  }

  lemma PrecedenceScans(input: seq<char>)
    requires input == "3+4*2\n"
    ensures Scan(input, 0) == Scanned(NUMBER, 3.0, 1)
    ensures Scan(input, 1) == Scanned(PLUS, 0.0, 2)
    ensures Scan(input, 2) == Scanned(NUMBER, 4.0, 3)
    ensures Scan(input, 3) == Scanned(TIMES, 0.0, 4)
    ensures Scan(input, 4) == Scanned(NUMBER, 2.0, 5)
    ensures Scan(input, 5) == Scanned(NL, 0.0, 6)
    ensures Scan(input, 6) == Scanned(END, 0.0, 6)
  {
    PrecedenceScansFirst(input);
    DigitAt(input, 4);
    SymbolAt(input, 5);
    ScanAtEnd(input, 6);
  }

  lemma PrecedenceScansFirst(input: seq<char>)
    requires input == "3+4*2\n"
    ensures Scan(input, 0) == Scanned(NUMBER, 3.0, 1)
    ensures Scan(input, 1) == Scanned(PLUS, 0.0, 2)
    ensures Scan(input, 2) == Scanned(NUMBER, 4.0, 3)
    ensures Scan(input, 3) == Scanned(TIMES, 0.0, 4)
  {
    DigitAt(input, 0);
    SymbolAt(input, 1);
    DigitAt(input, 2);
    SymbolAt(input, 3);
  }

  /** The product 4*2, as the operand of '+'. */
  lemma PrecedenceTerm(input: seq<char>)
    requires input == "3+4*2\n"
    ensures EvalTerm(input, Look(2, NONE, 0.0)) == Ok(Finite(8.0), Look(6, NL, 0.0))
  {
    PrecedenceScans(input);
    var nl := Look(6, NL, 0.0);
    assert EvalFact(input, Look(4, NONE, 0.0)) == Ok(Finite(2.0), Look(5, NONE, 2.0));
    assert EvalTermTail(input, Finite(8.0), Look(5, NONE, 2.0)) == Ok(Finite(8.0), nl);
    assert Mul(Finite(4.0), Finite(2.0)) == Finite(8.0);
    assert EvalTermTail(input, Finite(4.0), Look(3, NONE, 4.0)) == Ok(Finite(8.0), nl);
    assert EvalFact(input, Look(3, NUMBER, 4.0)) == Ok(Finite(4.0), Look(3, NONE, 4.0));
  }

  /** Multiplication binds tighter than addition: 3+4*2 is 3+(4*2). */
  lemma Precedence(input: seq<char>)
    requires input == "3+4*2\n"
    ensures Run(input) == Finished([Printed(Finite(11.0))])
  {
    PrecedenceScans(input);
    PrecedenceTerm(input);
    var nl := Look(6, NL, 0.0);
    var first := Look(1, NUMBER, 3.0);
    assert EvalExprTail(input, Finite(11.0), nl) == Ok(Finite(11.0), nl);
    assert Plus(Finite(3.0), Finite(8.0)) == Finite(11.0);
    assert EvalExprTail(input, Finite(3.0), Look(2, PLUS, 0.0)) == Ok(Finite(11.0), nl);
    assert EvalTermTail(input, Finite(3.0), Look(1, NONE, 3.0)) == Ok(Finite(3.0), Look(2, PLUS, 0.0));
    assert EvalFact(input, first) == Ok(Finite(3.0), Look(1, NONE, 3.0));
    assert EvalTerm(input, first) == Ok(Finite(3.0), Look(2, PLUS, 0.0));
    assert EvalExpr(input, first) == Ok(Finite(11.0), nl);
    assert EvalLine(input, first) == LineOk([Printed(Finite(11.0))], Look(6, NONE, 0.0));
    assert Session(input, Look(6, NONE, 0.0)) == Finished([]);
  }

  lemma NegatedSumScans(input: seq<char>)
    requires input == "-(2+3)\n"
    ensures Scan(input, 0) == Scanned(MINUS, 0.0, 1)
    ensures Scan(input, 1) == Scanned(OP, 0.0, 2)
    ensures Scan(input, 2) == Scanned(NUMBER, 2.0, 3)
    ensures Scan(input, 3) == Scanned(PLUS, 0.0, 4)
    ensures Scan(input, 4) == Scanned(NUMBER, 3.0, 5)
    ensures Scan(input, 5) == Scanned(CP, 0.0, 6)
    ensures Scan(input, 6) == Scanned(NL, 0.0, 7)
    ensures Scan(input, 7) == Scanned(END, 0.0, 7)
  {
    NegatedSumScansFirst(input);
    DigitAt(input, 4);
    SymbolAt(input, 5);
    SymbolAt(input, 6);
    ScanAtEnd(input, 7);
  }

  lemma NegatedSumScansFirst(input: seq<char>)
    requires input == "-(2+3)\n"
    ensures Scan(input, 0) == Scanned(MINUS, 0.0, 1)
    ensures Scan(input, 1) == Scanned(OP, 0.0, 2)
    ensures Scan(input, 2) == Scanned(NUMBER, 2.0, 3)
    ensures Scan(input, 3) == Scanned(PLUS, 0.0, 4)
  {
    SymbolAt(input, 0);
    SymbolAt(input, 1);
    DigitAt(input, 2);
    SymbolAt(input, 3);
  }

  /** The parenthesised sum 2+3, up to the ')'. */
  lemma NegatedSumInner(input: seq<char>)
    requires input == "-(2+3)\n"
    ensures EvalExpr(input, Look(2, NONE, 0.0)) == Ok(Finite(5.0), Look(6, CP, 0.0))
  {
    NegatedSumScans(input);
    var cp := Look(6, CP, 0.0);
    assert EvalFact(input, Look(5, NUMBER, 3.0)) == Ok(Finite(3.0), Look(5, NONE, 3.0));
    assert EvalTermTail(input, Finite(3.0), Look(5, NONE, 3.0)) == Ok(Finite(3.0), cp);
    assert EvalTerm(input, Look(4, NONE, 0.0)) == Ok(Finite(3.0), cp);
    assert Plus(Finite(2.0), Finite(3.0)) == Finite(5.0);
    assert EvalExprTail(input, Finite(5.0), cp) == Ok(Finite(5.0), cp);
    assert EvalExprTail(input, Finite(2.0), Look(4, PLUS, 0.0)) == Ok(Finite(5.0), cp);
    assert EvalFact(input, Look(3, NUMBER, 2.0)) == Ok(Finite(2.0), Look(3, NONE, 2.0));
    assert EvalTermTail(input, Finite(2.0), Look(3, NONE, 2.0)) == Ok(Finite(2.0), Look(4, PLUS, 0.0));
    assert EvalTerm(input, Look(3, NUMBER, 2.0)) == Ok(Finite(2.0), Look(4, PLUS, 0.0));
  }

  /** Unary minus applies to a parenthesised factor: -(2+3) prints -5. */
  lemma NegatedSum(input: seq<char>)
    requires input == "-(2+3)\n"
    ensures Run(input) == Finished([Printed(Finite(-5.0))])
  {
    NegatedSumScans(input);
    NegatedSumInner(input);
    var first := Look(1, MINUS, 0.0);
    var nl := Look(7, NL, 0.0);
    assert EvalFact(input, Look(1, NONE, 0.0)) == Ok(Finite(5.0), Look(6, NONE, 0.0));
    assert Neg(Finite(5.0)) == Finite(-5.0);
    assert EvalFact(input, first) == Ok(Finite(-5.0), Look(6, NONE, 0.0));
    assert EvalTermTail(input, Finite(-5.0), Look(6, NONE, 0.0)) == Ok(Finite(-5.0), nl);
    assert EvalTerm(input, first) == Ok(Finite(-5.0), nl);
    assert EvalExprTail(input, Finite(-5.0), nl) == Ok(Finite(-5.0), nl);
    assert EvalExpr(input, first) == Ok(Finite(-5.0), nl);
    assert EvalLine(input, first) == LineOk([Printed(Finite(-5.0))], Look(7, NONE, 0.0));
    assert Session(input, Look(7, NONE, 0.0)) == Finished([]);
  }

  lemma SwallowScans(input: seq<char>)
    requires input == "1+\n2\n"
    ensures Scan(input, 0) == Scanned(NUMBER, 1.0, 1)
    ensures Scan(input, 1) == Scanned(PLUS, 0.0, 2)
    ensures Scan(input, 2) == Scanned(NL, 0.0, 3)
    ensures Scan(input, 3) == Scanned(NUMBER, 2.0, 4)
    ensures Scan(input, 4) == Scanned(NL, 0.0, 5)
    ensures Scan(input, 5) == Scanned(END, 0.0, 5)
  {
    DigitAt(input, 0);
    SymbolAt(input, 1);
    SymbolAt(input, 2);
    DigitAt(input, 3);
    SymbolAt(input, 4);
    ScanAtEnd(input, 5);
  }

  /** A syntax error detected at a newline: that newline was consumed as the
      offending token, so recovery discards the whole next line too. */
  lemma ErrorAtNewlineSwallowsNextLine(input: seq<char>)
    requires input == "1+\n2\n"
    ensures Run(input) == Finished([SyntaxError])
  {
    SwallowScans(input);
    var first := Look(1, NUMBER, 1.0);
    assert EvalTerm(input, Look(2, NONE, 0.0)) == Err(3);
    assert EvalExprTail(input, Finite(1.0), Look(2, PLUS, 0.0)) == Err(3);
    assert EvalFact(input, first) == Ok(Finite(1.0), Look(1, NONE, 1.0));
    assert EvalTermTail(input, Finite(1.0), Look(1, NONE, 1.0)) == Ok(Finite(1.0), Look(2, PLUS, 0.0));
    assert EvalTerm(input, first) == Ok(Finite(1.0), Look(2, PLUS, 0.0));
    assert EvalExpr(input, first) == Err(3);
    assert EvalLine(input, first) == LineErr([], 3);
    assert NewlineAhead(input, 4) by { assert input[4] == '\n'; }
    assert SkipLine(input, 4) == Scanned(NL, 0.0, 5);
    assert SkipLine(input, 3) == Scanned(NL, 0.0, 5);
    assert Session(input, Look(5, NONE, 0.0)) == Finished([]);
    assert Resync(input, Look(0, NONE, 0.0), 3) == Finished([]);
    SessionLineCase(input, Look(0, NONE, 0.0));
  }

  /** A last line without its newline: END cannot follow a term (the table
      has no entry for it under TermP), so the line is a syntax error, and
      recovery never finds a newline: the program hangs. */
  lemma MissingNewlineHangs(input: seq<char>)
    requires input == "7"
    ensures Run(input) == Hangs([SyntaxError])
  {
    MissingNewlineLine(input);
    assert !NewlineAhead(input, 1);
    assert Resync(input, Look(0, NONE, 0.0), 1) == Hangs([]);
    SessionLineCase(input, Look(0, NONE, 0.0));
  }

  /** The line "7" fails where END is read. */
  lemma MissingNewlineLine(input: seq<char>)
    requires input == "7"
    ensures Peek(input, Look(0, NONE, 0.0)) == Look(1, NUMBER, 7.0)
    ensures EvalLine(input, Look(1, NUMBER, 7.0)) == LineErr([], 1)
  {
    ScanNumber(input, 0, 0, 1);
    assert input[0..1] == "7" && "7"[1..] == [];
    ScanAtEnd(input, 1);
    NumberThenEnd(input);
  }

  /** A number followed by END (no newline) is an error at END. */
  lemma NumberThenEnd(input: seq<char>)
    requires |input| == 1 && Scan(input, 1) == Scanned(END, 0.0, 1)
    ensures EvalLine(input, Look(1, NUMBER, 7.0)) == LineErr([], 1)
  {
    var first := Look(1, NUMBER, 7.0);
    assert EvalFact(input, first) == Ok(Finite(7.0), Look(1, NONE, 7.0));
    assert EvalTermTail(input, Finite(7.0), Look(1, NONE, 7.0)) == Err(1);
    assert EvalTerm(input, first) == Err(1);
    assert EvalExpr(input, first) == Err(1);
  }

  lemma ResumeScans(input: seq<char>)
    requires input == "+\n3\n"
    ensures Scan(input, 0) == Scanned(PLUS, 0.0, 1)
    ensures Scan(input, 1) == Scanned(NL, 0.0, 2)
    ensures Scan(input, 2) == Scanned(NUMBER, 3.0, 3)
    ensures Scan(input, 3) == Scanned(NL, 0.0, 4)
    ensures Scan(input, 4) == Scanned(END, 0.0, 4)
  {
    SymbolAt(input, 0);
    SymbolAt(input, 1);
    DigitAt(input, 2);
    SymbolAt(input, 3);
    ScanAtEnd(input, 4);
  }

  /** After a syntax error the next line is evaluated afresh. */
  lemma ErrorThenResume(input: seq<char>)
    requires input == "+\n3\n"
    ensures Run(input) == Finished([SyntaxError, Printed(Finite(3.0))])
  {
    ResumeScans(input);
    SessionBadCase(input, Look(0, NONE, 0.0));
    ResumeRecovery(input);
  }

  /** Recovery from the '+' skips its line, and the next one prints 3. */
  lemma ResumeRecovery(input: seq<char>)
    requires input == "+\n3\n"
    ensures Resync(input, Look(0, NONE, 0.0), 1) == Finished([Printed(Finite(3.0))])
  {
    ResumeScans(input);
    assert NewlineAhead(input, 1) by { assert input[1] == '\n'; }
    assert SkipLine(input, 1) == Scanned(NL, 0.0, 2);
    ResumeSecondLine(input);
  }

  lemma ResumeSecondLine(input: seq<char>)
    requires input == "+\n3\n"
    ensures Session(input, Look(2, NONE, 0.0)) == Finished([Printed(Finite(3.0))])
  {
    ResumeScans(input);
    var first := Look(3, NUMBER, 3.0);
    var nl := Look(4, NL, 0.0);
    assert EvalFact(input, first) == Ok(Finite(3.0), Look(3, NONE, 3.0));
    assert EvalTermTail(input, Finite(3.0), Look(3, NONE, 3.0)) == Ok(Finite(3.0), nl);
    assert EvalTerm(input, first) == Ok(Finite(3.0), nl);
    assert EvalExprTail(input, Finite(3.0), nl) == Ok(Finite(3.0), nl);
    assert EvalExpr(input, first) == Ok(Finite(3.0), nl);
    assert EvalLine(input, first) == LineOk([Printed(Finite(3.0))], Look(4, NONE, 0.0));
    assert Session(input, Look(4, NONE, 0.0)) == Finished([]);
  }
}
