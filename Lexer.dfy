// The lexer of calc.rs: `lex` turns the character stream into terminals plus
// the value of a number. Standard input is modelled as a fixed sequence of
// characters read by an index; reading past its end gives '\0', as `getc`
// does at end of file.
//
// `lex` keeps one pending character `c` ('\0' = nothing pending). A pending
// character is always the one `getc` returned last, so the state (pos, c) is
// equivalent to a single cursor into the input: the index of the first
// character not yet consumed. `Scan` specifies one call of `lex` on that
// cursor; `LexState.Lex` is the imperative lexer proved against it.

module Lexer {
  import opened Tokens

  /** The character `getc` yields at index i: '\0' past the end of input. */
  function At(input: seq<char>, i: nat): (ch: char)
    ensures i < |input| ==> ch == input[i]
    // '\0' both at end of input and for a NUL character in it
    ensures ch == '\0' <==> i >= |input| || input[i] == '\0'
  {
    if i < |input| then input[i] else '\0'
  }

  predicate IsBlank(ch: char) {
    ch == ' ' || ch == '\t'
  }

  predicate IsDigit(ch: char) {
    '0' <= ch <= '9'
  }

  function DigitOf(ch: char): (d: nat)
    requires IsDigit(ch)
    ensures d < 10
  {
    (ch as int) - ('0' as int)
  }

  predicate AllDigits(ds: seq<char>) {
    forall k :: 0 <= k < |ds| ==> IsDigit(ds[k])
  }

  /** A digit run extended by one more digit. */
  lemma AllDigitsSnoc(ds: seq<char>)
    requires ds != [] && AllDigits(ds[..|ds| - 1]) && IsDigit(ds[|ds| - 1])
    ensures AllDigits(ds)
  {
    assert forall k :: 0 <= k < |ds| - 1 ==> ds[k] == ds[..|ds| - 1][k];
  }

  /** The value `lex` accumulates over a run of digits, left to right, as
      val * 10 + digit. */
  function DigitsValue(ds: seq<char>): nat
    requires AllDigits(ds)
  {
    if ds == [] then 0 else DigitsValue(ds[..|ds| - 1]) * 10 + DigitOf(ds[|ds| - 1])
  }

  /** One more digit: the accumulated value times ten, plus the digit. */
  lemma DigitsValueSnoc(ds: seq<char>)
    requires ds != [] && AllDigits(ds)
    ensures DigitsValue(ds) == DigitsValue(ds[..|ds| - 1]) * 10 + DigitOf(ds[|ds| - 1])
  {
  }

  function Pow10(k: nat): (p: nat)
    ensures p >= 1
  {
    if k == 0 then 1 else 10 * Pow10(k - 1)
  }

  /** Positional notation: digit i of n counts 10^(n-1-i) times. */
  function PositionalValue(ds: seq<char>): nat
    requires AllDigits(ds)
  {
    if ds == [] then 0 else DigitOf(ds[0]) * Pow10(|ds| - 1) + PositionalValue(ds[1..])
  }

  lemma {:induction false} PositionalValueSnoc(ds: seq<char>)
    requires AllDigits(ds) && ds != []
    ensures PositionalValue(ds) == PositionalValue(ds[..|ds| - 1]) * 10 + DigitOf(ds[|ds| - 1])
  {
    if |ds| > 1 {
      var tail, init := ds[1..], ds[..|ds| - 1];
      var d0, p := DigitOf(ds[0]), Pow10(|ds| - 2);
      PositionalValueSnoc(tail);
      assert tail[..|tail| - 1] == init[1..];
      assert PositionalValue(init) == d0 * p + PositionalValue(init[1..]);
      assert Pow10(|ds| - 1) == 10 * p;
      assert d0 * (10 * p) == (d0 * p) * 10;
    }
  }

  /** The left-to-right accumulation of `lex` computes the decimal value of the
      digit run. */
  lemma {:induction false} DigitsValueIsPositional(ds: seq<char>)
    requires AllDigits(ds)
    ensures DigitsValue(ds) == PositionalValue(ds)
  {
    if ds != [] {
      DigitsValueIsPositional(ds[..|ds| - 1]);
      PositionalValueSnoc(ds);
    }
  }

  /** A run of k digits has a value below 10^k. */
  lemma {:induction false} DigitsValueBound(ds: seq<char>)
    requires AllDigits(ds)
    ensures DigitsValue(ds) < Pow10(|ds|)
  {
    if ds != [] {
      DigitsValueBound(ds[..|ds| - 1]);
    }
  }

  /** The first index at or after i that does not hold a space or a tab. */
  function BlanksEnd(input: seq<char>, i: nat): (j: nat)
    requires i <= |input|
    ensures i <= j <= |input|
    ensures forall k :: i <= k < j ==> IsBlank(input[k])
    ensures !IsBlank(At(input, j))
    decreases |input| - i
  {
    if i < |input| && IsBlank(input[i]) then BlanksEnd(input, i + 1) else i
  }

  /** The first index at or after i that does not hold a digit. */
  function DigitsEnd(input: seq<char>, i: nat): (j: nat)
    requires i <= |input|
    ensures i <= j <= |input|
    ensures AllDigits(input[i..j])
    ensures !IsDigit(At(input, j))
    decreases |input| - i
  {
    if i < |input| && IsDigit(input[i]) then
      var j := DigitsEnd(input, i + 1);
      assert forall k :: 0 <= k < j - i ==> input[i..j][k] == input[k + i];
      j
    else i
  }

  /** The terminal of a character that is neither blank nor a digit. */
  function CharTerminal(ch: char): (t: ETerminal)
    ensures t != NONE && t != NUMBER
    ensures t == END <==> ch == '\0'
    ensures t == NL <==> ch == '\n'
    ensures t == RESET <==> ch !in "\0\n+-*/()"
  {
    match ch
    case '\0' => END
    case '\n' => NL
    case '+' => PLUS
    case '-' => MINUS
    case '*' => TIMES
    case '/' => DIVIDE
    case '(' => OP
    case ')' => CP
    case _ => RESET
  }

  /** One token: its terminal, its value (0 unless a number) and the cursor
      after it. */
  datatype Scanned = Scanned(terminal: ETerminal, value: real, next: nat)

  /** What one call of `lex` returns when the first unconsumed character is at
      index q: blanks are skipped; a maximal digit run is a NUMBER, and the
      character that ends it stays pending (unless it is '\0', which is then
      dropped); any other character is consumed and classified. */
  function Scan(input: seq<char>, q: nat): (r: Scanned)
    requires q <= |input|
    ensures q <= r.next <= |input|
    ensures r.next == q <==> q == |input|
    ensures q == |input| ==> r == Scanned(END, 0.0, q)
    ensures r.terminal != NONE
    ensures r.terminal != NUMBER ==> r.value == 0.0
    ensures r.terminal == NUMBER ==> r.value >= 0.0
    ensures r.terminal != NL ==> forall k :: q <= k < r.next ==> input[k] != '\n'
    ensures r.terminal == NL ==> input[r.next - 1] == '\n'
  {
    var i := BlanksEnd(input, q);
    var ch := At(input, i);
    if IsDigit(ch) then
      var j := DigitsEnd(input, i);
      Scanned(NUMBER, DigitsValue(input[i..j]) as real, if j < |input| && input[j] == '\0' then j + 1 else j)
    else
      Scanned(CharTerminal(ch), 0.0, if i < |input| then i + 1 else i)
  }

  /** `lex` returns END exactly when the first character after the blanks is
      '\0': at end of input, and also on a NUL character with input left. */
  lemma ScanEnd(input: seq<char>, q: nat)
    requires q <= |input|
    ensures Scan(input, q).terminal == END <==> At(input, BlanksEnd(input, q)) == '\0'
  {
    var ch := At(input, BlanksEnd(input, q));
    if !IsDigit(ch) {
      assert Scan(input, q).terminal == CharTerminal(ch);
    }
  }

  /** Some '\n' lies at or after the cursor q. */
  predicate NewlineAhead(input: seq<char>, q: nat) {
    exists k :: q <= k < |input| && input[k] == '\n'
  }

  /** A token other than NL never consumes a newline, so a newline still ahead
      is still ahead after it, and the cursor has moved. */
  lemma ScanKeepsNewlineAhead(input: seq<char>, q: nat)
    requires q <= |input| && NewlineAhead(input, q)
    requires Scan(input, q).terminal != NL
    ensures q < Scan(input, q).next && NewlineAhead(input, Scan(input, q).next)
  {
    var r := Scan(input, q);
    var k :| q <= k < |input| && input[k] == '\n';
    assert r.next <= k;
  }

  /** The recovery loop `while lexeme != NL { lex }`, started after the
      offending token was already read: what the last `lex` returns. */
  function SkipLine(input: seq<char>, q: nat): (r: Scanned)
    requires q <= |input| && NewlineAhead(input, q)
    ensures r.terminal == NL && q < r.next <= |input|
    // it discards through the first newline at or after q, and no further
    ensures input[r.next - 1] == '\n'
    ensures forall k :: q <= k < r.next - 1 ==> input[k] != '\n'
    decreases |input| - q
  {
    var r := Scan(input, q);
    if r.terminal == NL then r
    else
      ScanKeepsNewlineAhead(input, q);
      SkipLine(input, r.next)
  }

  lemma {:induction false} BlanksEndAt(input: seq<char>, q: nat, i: nat)
    requires q <= i <= |input|
    requires forall k :: q <= k < i ==> IsBlank(input[k])
    requires !IsBlank(At(input, i))
    ensures BlanksEnd(input, q) == i
    decreases i - q
  {
    if q < i {
      BlanksEndAt(input, q + 1, i);
    }
  }

  lemma {:induction false} DigitsEndAt(input: seq<char>, i: nat, j: nat)
    requires i <= j <= |input|
    requires forall k :: i <= k < j ==> IsDigit(input[k])
    requires !IsDigit(At(input, j))
    ensures DigitsEnd(input, i) == j
    decreases j - i
  {
    if i < j {
      DigitsEndAt(input, i + 1, j);
    }
  }

  /** Number lexing: after blanks, a maximal run of digits input[i..j] gives
      NUMBER with the run's decimal value; the character that ends the run is
      not consumed (a '\0' there is dropped). */
  lemma ScanNumber(input: seq<char>, q: nat, i: nat, j: nat)
    requires q <= i < j <= |input|
    requires forall k :: q <= k < i ==> IsBlank(input[k])
    requires forall k :: i <= k < j ==> IsDigit(input[k])
    requires !IsDigit(At(input, j))
    ensures AllDigits(input[i..j])
    ensures Scan(input, q) == Scanned(NUMBER, PositionalValue(input[i..j]) as real,
                                      if j < |input| && input[j] == '\0' then j + 1 else j)
  {
    BlanksEndAt(input, q, i);
    DigitsEndAt(input, i, j);
    DigitsValueIsPositional(input[i..j]);
  }

  /** Other lexing: after blanks, a character that is not a digit is consumed
      and gives END ('\0'), NL ('\n'), an operator or parenthesis, or RESET. */
  lemma ScanSymbol(input: seq<char>, q: nat, i: nat)
    requires q <= i < |input|
    requires forall k :: q <= k < i ==> IsBlank(input[k])
    requires !IsBlank(input[i]) && !IsDigit(input[i])
    ensures Scan(input, q) == Scanned(CharTerminal(input[i]), 0.0, i + 1)
  {
    BlanksEndAt(input, q, i);
  }

  /** At end of input, after blanks only, every call returns END and stays. */
  lemma ScanAtEnd(input: seq<char>, q: nat)
    requires q <= |input|
    requires forall k :: q <= k < |input| ==> IsBlank(input[k])
    ensures Scan(input, q) == Scanned(END, 0.0, |input|)
    ensures Scan(input, |input|) == Scanned(END, 0.0, |input|)
  {
    BlanksEndAt(input, q, |input|);
  }

  /** The lexer's state: the input, the index of the next character `getc`
      will read, and the pending character `c` ('\0' = none). */
  class LexState {
    const input: seq<char>
    var pos: nat
    var c: char

    ghost predicate Valid()
      reads this
    {
      pos <= |input| && (c == '\0' || (0 < pos && input[pos - 1] == c))
    }

    /** The index of the first character not yet consumed. */
    ghost function Cursor(): (q: nat)
      reads this
      requires Valid()
      ensures q <= |input|
    {
      if c == '\0' then pos else pos - 1
    }

    constructor (input: seq<char>)
      ensures Valid() && this.input == input && pos == 0 && c == '\0' && Cursor() == 0
    {
      this.input := input;
      pos := 0;
      c := '\0';
    }

    /** Read one character, '\0' at end of input. */
    method Getc() returns (ch: char)
      requires pos <= |input|
      modifies this`pos
      ensures ch == At(input, old(pos))
      ensures pos == if old(pos) < |input| then old(pos) + 1 else old(pos)
    {
      if pos < |input| {
        ch := input[pos];
        pos := pos + 1;
      } else {
        ch := '\0';
      }
    }

    /** The whitespace loop of `lex`: `getc` until c holds the first character
        at or after index q that is neither a space nor a tab. */
    method SkipBlanks(ghost q: nat) returns (ghost e: nat)
      requires q <= |input| && c == At(input, q)
      requires pos == if q < |input| then q + 1 else |input|
      modifies this`pos, this`c
      ensures e == BlanksEnd(input, q) && c == At(input, e)
      ensures pos == if e < |input| then e + 1 else |input|
    {
      e := q;
      while c == ' ' || c == '\t'
        invariant q <= e <= |input|
        invariant c == At(input, e)
        invariant pos == if e < |input| then e + 1 else |input|
        invariant BlanksEnd(input, e) == BlanksEnd(input, q)
        decreases |input| - e
      {
        c := Getc();
        e := e + 1;
      }
    }

    /** The digit loop of `lex`: accumulate val * 10 + digit over the digit run
        starting at index i, leaving its first non-digit in c. */
    method LexDigits(ghost i: nat) returns (val: real, ghost e: nat)
      requires i <= |input| && c == At(input, i)
      requires pos == if i < |input| then i + 1 else |input|
      modifies this`pos, this`c
      ensures e == DigitsEnd(input, i) && c == At(input, e)
      ensures pos == if e < |input| then e + 1 else |input|
      ensures val == DigitsValue(input[i..e]) as real
    {
      val := 0.0;
      e := i;
      while IsDigit(c)
        invariant i <= e <= |input|
        invariant c == At(input, e)
        invariant pos == if e < |input| then e + 1 else |input|
        invariant AllDigits(input[i..e])
        invariant val == DigitsValue(input[i..e]) as real
        invariant DigitsEnd(input, e) == DigitsEnd(input, i)
        decreases |input| - e
      {
        ghost var ds := input[i..e + 1];
        assert ds[..|ds| - 1] == input[i..e] && ds[|ds| - 1] == c;
        AllDigitsSnoc(ds);
        DigitsValueSnoc(ds);
        val := val * 10.0 + DigitOf(c) as real;
        c := Getc();
        e := e + 1;
      }
    }

    /** Read one token. */
    method Lex() returns (terminal: ETerminal, val: real)
      requires Valid()
      modifies this`pos, this`c
      ensures Valid()
      ensures Scanned(terminal, val, Cursor()) == Scan(input, old(Cursor()))
      ensures terminal != NUMBER ==> c == '\0'
    {
      ghost var q := Cursor();
      val := 0.0;
      if c == '\0' {
        c := Getc();
      }
      ghost var e := SkipBlanks(q);
      if IsDigit(c) {
        val, e := LexDigits(e);
        return NUMBER, val;
      }
      terminal := CharTerminal(c);
      c := '\0';
    }
  }
}
