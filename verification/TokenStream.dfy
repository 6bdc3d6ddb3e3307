/** Whole texts: where semicolons come in, how many tokens there are, and that printed tokens are read
    back. */
module TokenStream {
  import opened Lexical

  // ----- operators -----

  const OPERATORS: set<string> := {
    "=", "==", "+", "++", "+=", "-", "--", "-=", "*", "*=", "/", "/=", "%", "!", "!=", "<", "<<", "<<=", "<-", "<=",
    ">", ">>", ">>=", ">=", "&", "&&", "&=", "|", "||", "|=", "^", "^=", ":", ":=", ".", "...", ";", ",", "(", ")",
    "{", "}", "[", "]"}

  /** The operator that is read is the longest one the text starts with. */
  lemma {:induction false} MaximalMunch(s: string)
    ensures var op := OperatorAt(s);
      (op != "" ==> op in OPERATORS && op <= s) &&
      forall other :: other in OPERATORS && other <= s ==> |other| <= |op|
  {
  }

  // ----- semicolons -----

  /** All tokens up to the end of the text. */
  function LexAll(s: string, prev: string): (r: seq<Token>)
    ensures |r| <= 2 * |s| + 1 + (if CanInsertSemi(prev) then 1 else 0)
    ensures r != [] && r[|r| - 1] == EOF
    decreases |s|, CanInsertSemi(prev)
  {
    var (t, rest) := Next(s, prev);
    if t == EOF then [t] else [t] + LexAll(rest, t.kind)
  }

  /** The blanks, line breaks and comments before the next token, and whether they break the line. */
  function Gap(s: string): (r: (string, bool))
    ensures |r.0| <= |s|
    decreases |s|
  {
    var p := SkipPlain(s);
    if "/*" <= p then
      var (newline, rest) := SkipBlock(p[2..]);
      var (g, more) := Gap(rest);
      (g, newline || more)
    else if At(p, 0) == '\n' then (Gap(p[1..]).0, true)
    else (p, false)
  }

  /** The tokens by the rule of the language: a semicolon after a token that allows one, exactly where a
      line break or the end of the text follows before the next token. */
  function ByRule(s: string, prev: string): seq<Token>
    decreases |s|
  {
    var (g, newline) := Gap(s);
    (if CanInsertSemi(prev) && (newline || AtEnd(g)) then [SEMICOLON] else []) +
    if AtEnd(g) then [EOF] else
    var (t, rest) := Scan(g);
    [t] + ByRule(rest, t.kind)
  }

  lemma {:induction false} SkipTriviaGap(s: string, prev: string)
    ensures var (g, newline) := Gap(s);
      var stop := SkipTrivia(s, prev);
      if CanInsertSemi(prev) && newline then stop.Semi? && Gap(stop.rest).0 == g else stop == Start(g)
    decreases |s|
  {
    hide SkipPlain, SkipBlock, CanInsertSemi;
    var p := SkipPlain(s);
    if "/*" <= p {
      var (newline, rest) := SkipBlock(p[2..]);
      SkipTriviaGap(rest, prev);
    } else if At(p, 0) == '\n' {
      SkipTriviaGap(p[1..], prev);
    }
  }

  lemma {:induction false} GapStops(s: string)
    ensures Gap(Gap(s).0) == (Gap(s).0, false)
    decreases |s|
  {
    var p := SkipPlain(s);
    if "/*" <= p {
      GapStops(SkipBlock(p[2..]).1);
    } else if At(p, 0) == '\n' {
      GapStops(p[1..]);
    } else {
      PlainTwice(s);
    }
  }

  lemma {:induction false} PlainTwice(s: string)
    ensures SkipPlain(SkipPlain(s)) == SkipPlain(s)
  {
    BlanksTwice(s);
  }

  lemma {:induction false} BlanksTwice(s: string)
    ensures SkipBlanks(SkipBlanks(s)) == SkipBlanks(s)
  {
    if At(s, 0) in " \t\r" { BlanksTwice(s[1..]); }
  }

  lemma {:induction false} ScanReal(s: string)
    requires !AtEnd(s)
    ensures Scan(s).0.kind != "EOF"
  {
    hide Number, Quoted, Raw, Run, Keyword, Operator;
  }

  /** The lexer follows the rule: an unwritten semicolon appears exactly once where the rule asks for
      one, and nowhere else. */
  lemma {:induction false} LexFollowsRule(s: string, prev: string)
    ensures LexAll(s, prev) == ByRule(s, prev)
    decreases |s|, CanInsertSemi(prev)
  {
    hide Gap, SkipTrivia, Scan, CanInsertSemi;
    var (g, newline) := Gap(s);
    SkipTriviaGap(s, prev);
    GapStops(s);
    var (t, rest) := Next(s, prev);
    if CanInsertSemi(prev) && (newline || AtEnd(g)) {
      AfterSemi();
      LexFollowsRule(rest, ";");
    } else if !AtEnd(g) {
      ScanReal(g);
      LexFollowsRule(rest, t.kind);
    }
  }

  lemma {:induction false} AfterSemi()
    ensures !CanInsertSemi(";")
  {
  }

  /** At the end of the text the lexer stays there. */
  lemma {:induction false} EndStays(s: string, prev: string)
    requires Next(s, prev).0 == EOF
    ensures var rest := Next(s, prev).1; AtEnd(rest) && Next(rest, "EOF") == (EOF, rest)
  {
    hide Gap, Scan, SkipTrivia;
    SkipTriviaGap(s, prev);
    var (g, _) := Gap(s);
    GapStops(s);
    SkipTriviaGap(g, "EOF");
    assert |SEMICOLON.kind| == 1 && |EOF.kind| == 3;
    assert !CanInsertSemi("EOF") by { assert "EOF"[0] == 'E'; }
    if !AtEnd(g) { ScanReal(g); }
  }
}
