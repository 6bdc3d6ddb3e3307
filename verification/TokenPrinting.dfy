/** Printed tokens are read back. */
module TokenPrinting {
  import opened Lexical
  import opened TokenStream

  // ----- tokens that can be printed -----

  predicate AllOf(s: string, accept: char -> bool) {
    forall i :: 0 <= i < |s| ==> accept(s[i])
  }

  function IsDecimalPart(c: char): bool { IsDigit(c) || c == '_' }

  // The characters of words and numbers, by their ASCII codes.

  predicate LetterCode(n: int) {
    0x41 <= n <= 0x5A || n == 0x5F || 0x61 <= n <= 0x7A
  }

  predicate DigitCode(n: int) {
    0x30 <= n <= 0x39
  }

  predicate HexCode(n: int) {
    DigitCode(n) || 0x41 <= n <= 0x46 || n == 0x5F || 0x61 <= n <= 0x66
  }

  predicate IsWord(s: string) {
    && s != "" && LetterCode(s[0] as int) && !("__asm__" <= s)
    && forall i :: 0 <= i < |s| ==> LetterCode(s[i] as int) || DigitCode(s[i] as int)
  }

  predicate IsDigits(s: string) {
    && s != "" && DigitCode(s[0] as int)
    && forall i :: 0 <= i < |s| ==> DigitCode(s[i] as int) || s[i] as int == 0x5F
  }

  /** A number in base 16, 2 or 8 behind its prefix. */
  predicate IsBased(s: string) {
    && |s| >= 2 && s[0] as int == 0x30
    && match s[1]
       case 'x' => HexCodes(s[2..])
       case 'X' => HexCodes(s[2..])
       case 'b' => DigitsBelow(s[2..], 2)
       case 'B' => DigitsBelow(s[2..], 2)
       case 'o' => DigitsBelow(s[2..], 8)
       case 'O' => DigitsBelow(s[2..], 8)
       case _ => false
  }

  predicate HexCodes(s: string) {
    forall i :: 0 <= i < |s| ==> HexCode(s[i] as int)
  }

  predicate DigitsBelow(s: string, base: int) {
    forall i :: 0 <= i < |s| ==> 0x30 <= s[i] as int < 0x30 + base || s[i] as int == 0x5F
  }

  /** A keyword's kind is the keyword in capitals. */
  function WordKind(s: string): string {
    if s in KEYWORDS then seq(|s|, i requires 0 <= i < |s| => Capital(s[i])) else "IDENT"
  }

  predicate IsFloat(s: string) {
    exists k :: 0 < k < |s| && s[k] == '.' && IsDigits(s[..k]) && IsDigits(s[k + 1..])
  }

  predicate Printable(t: Token) {
    || t == Token("INLINEASM", "__asm__")
    || (t.kind == t.literal && t.kind in OPERATORS)
    || t.kind == "STRING" || t.kind == "CHAR"
    || (t.kind == "INT" && (IsDigits(t.literal) || IsBased(t.literal)))
    || (t.kind == "FLOAT" && IsFloat(t.literal))
    || (IsWord(t.literal) && t.kind == WordKind(t.literal))
  }

  function Escape(c: char, quote: char): string {
    if c == '\n' then "\\n" else if c == '\t' then "\\t" else if c == '\r' then "\\r"
    else if c == '"' || c == '\\' || c == quote then ['\\', c]
    else if c == END then "\\0"
    else [c]
  }

  function Escaped(s: string, quote: char): string {
    if s == "" then "" else Escape(s[0], quote) + Escaped(s[1..], quote)
  }

  function Shown(t: Token): string {
    if t.kind == "STRING" then "\"" + (Escaped(t.literal, '"') + "\"")
    else if t.kind == "CHAR" then "'" + (Escaped(t.literal, '\'') + "'")
    else t.literal
  }

  /** Tokens with single spaces between them. */
  function Print(ts: seq<Token>): string
    decreases |ts|, 0
  {
    if ts == [] then "" else Shown(ts[0]) + More(ts[1..])
  }

  function More(ts: seq<Token>): (r: string)
    ensures Apart(r)
    decreases |ts|, 1
  {
    if ts == [] then "" else " " + Print(ts)
  }

  /** What may follow a printed token. */
  predicate Apart(rest: string) {
    rest == "" || rest[0] == ' '
  }

  // ----- reading one back -----

  lemma {:induction false} RunShown(s: string, rest: string, accept: char -> bool)
    requires AllOf(s, accept) && Apart(rest) && !accept(' ')
    ensures Run(s + rest, accept) == |s|
    decreases |s|
  {
    if s == "" {
      assert s + rest == rest;
    } else {
      assert (s + rest)[1..] == s[1..] + rest;
      RunShown(s[1..], rest, accept);
    }
  }

  lemma {:induction false} WordParts(s: string)
    requires IsWord(s)
    ensures IsLetter(s[0]) && AllOf(s, IsWordChar)
  {
  }

  lemma {:induction false} DigitsParts(s: string)
    requires IsDigits(s)
    ensures s != "" && IsDigit(s[0]) && AllOf(s, IsDecimalPart)
  {
  }

  lemma {:induction false} BasedParts(s: string)
    requires IsBased(s)
    ensures s[0] == '0' && s[1] in "xXbBoO"
    ensures s[1] in "xX" ==> AllOf(s[2..], IsHexPart)
    ensures s[1] in "bB" ==> AllOf(s[2..], IsBinaryPart)
    ensures s[1] in "oO" ==> AllOf(s[2..], IsOctalPart)
  {
  }

  lemma {:induction false} NoSpaces()
    ensures forall op, i :: op in OPERATORS && 0 <= i < |op| ==> op[i] != ' '
  {
  }

  /** What the text starts with and has no space in it, the printed token starts with. */
  lemma {:induction false} PrefixShown(w: string, s: string, rest: string)
    requires w <= s + rest && Apart(rest) && forall i :: 0 <= i < |w| ==> w[i] != ' '
    ensures w <= s
  {
    assert forall i :: 0 <= i < |w| ==> w[i] == (s + rest)[i];
    var next := At(w, |s|);
    assert |w| <= |s|;
  }

  lemma {:induction false} OperatorShown(op: string, rest: string)
    requires op in OPERATORS && Apart(rest)
    ensures OperatorAt(op + rest) == op
  {
    hide OperatorAt;
    var s := op + rest;
    var r := OperatorAt(s);
    MaximalMunch(s);
    assert op <= s;
    NoSpaces();
    PrefixShown(r, op, rest);
  }

  lemma {:induction false} WordStart(s: string)
    requires IsWord(s)
    ensures s != "" && !("__asm__" <= s)
  {
  }

  lemma {:induction false} DeclarationListed(s: string)
    ensures DeclarationWord(s) != "" <==> s in DECLARATION_WORDS
  {
    hide InCapitals;
  }

  lemma {:induction false} TypeListed(s: string)
    ensures TypeWord(s) != "" <==> s in TYPE_WORDS
  {
    hide InCapitals;
  }

  lemma {:induction false} StatementListed(s: string)
    ensures StatementWord(s) != "" <==> s in STATEMENT_WORDS
  {
    hide InCapitals;
  }

  /** The kind of a word. */
  lemma {:induction false} KeywordExact(s: string)
    ensures Keyword(s) == WordKind(s)
  {
    hide DeclarationWord, TypeWord, StatementWord, InCapitals;
    DeclarationListed(s);
    TypeListed(s);
    StatementListed(s);
    assert InCapitals(s, Keyword(s)) ==> Keyword(s) == seq(|s|, i requires 0 <= i < |s| => Capital(s[i])) by {
      CapitalsOnce(s, Keyword(s));
    }
  }

  lemma {:induction false} CapitalsOnce(s: string, t: string)
    ensures InCapitals(s, t) ==> t == seq(|s|, i requires 0 <= i < |s| => Capital(s[i]))
  {
  }

  /** Letters, digits and quotes start no operator. */
  lemma {:induction false} NoOperator(s: string)
    requires s != "" && (IsLetter(s[0]) || IsDigit(s[0]) || s[0] in "\"'")
    ensures OperatorAt(s) == ""
  {
  }

  lemma {:induction false} WordShown(s: string, rest: string)
    requires IsWord(s) && Apart(rest)
    ensures Scan(s + rest) == (Token(WordKind(s), s), rest)
  {
    hide Keyword, WordKind, IsWord, OperatorAt, Quoted, Raw, Number;
    WordParts(s);
    WordStart(s);
    KeywordExact(s);
    NoOperator(s + rest);
    RunShown(s, rest, IsWordChar);
    assert (s + rest)[..|s|] == s && (s + rest)[|s|..] == rest;
    if "__asm__" <= s + rest { PrefixShown("__asm__", s, rest); }
  }

  lemma {:induction false} DecimalShown(s: string, rest: string, point: bool)
    requires AllOf(s, IsDecimalPart) && Apart(rest)
    ensures Decimal(s + rest, point) == (|s|, point)
    decreases |s|
  {
    if s == "" {
      assert s + rest == rest;
    } else {
      assert (s + rest)[1..] == s[1..] + rest;
      DecimalShown(s[1..], rest, point);
    }
  }

  lemma {:induction false} FloatShown(a: string, b: string, rest: string)
    requires AllOf(a, IsDecimalPart) && b != "" && IsDigit(b[0]) && AllOf(b, IsDecimalPart) && Apart(rest)
    ensures Decimal(a + ("." + (b + rest)), false) == (|a| + 1 + |b|, true)
    decreases |a|
  {
    var s := a + ("." + (b + rest));
    if a == "" {
      assert s == "." + (b + rest) && s[1..] == b + rest;
      DecimalShown(b, rest, true);
    } else {
      assert s[1..] == a[1..] + ("." + (b + rest));
      FloatShown(a[1..], b, rest);
    }
  }

  lemma {:induction false} BasedShown(s: string, rest: string)
    requires IsBased(s) && Apart(rest)
    ensures s != "" && IsDigit(s[0]) && Number(s + rest) == (|s|, "INT")
  {
    hide Decimal;
    BasedParts(s);
    assert (s + rest)[2..] == s[2..] + rest;
    if s[1] in "xX" { RunShown(s[2..], rest, IsHexPart); }
    else if s[1] in "bB" { RunShown(s[2..], rest, IsBinaryPart); }
    else { RunShown(s[2..], rest, IsOctalPart); }
  }

  /** The number that a float is read as. */
  lemma {:induction false} PointShown(s: string, rest: string)
    requires IsFloat(s) && Apart(rest)
    ensures s != "" && IsDigit(s[0]) && Number(s + rest) == (|s|, "FLOAT")
  {
    hide Decimal, Run, IsHexPart, IsBinaryPart, IsOctalPart, IsDigits;
    var k :| 0 < k < |s| && s[k] == '.' && IsDigits(s[..k]) && IsDigits(s[k + 1..]);
    DigitsParts(s[..k]);
    DigitsParts(s[k + 1..]);
    assert s + rest == s[..k] + ("." + (s[k + 1..] + rest));
    FloatShown(s[..k], s[k + 1..], rest);
    assert k == 1 || IsDecimalPart(s[..k][1]);
    assert (s + rest)[0] == s[..k][0] && (s + rest)[1] == s[1];
  }

  lemma {:induction false} DigitsShown(s: string, rest: string)
    requires IsDigits(s) && Apart(rest)
    ensures s != "" && IsDigit(s[0]) && Number(s + rest) == (|s|, "INT")
  {
    hide Decimal, Run, IsHexPart, IsBinaryPart, IsOctalPart;
    DigitsParts(s);
    DecimalShown(s, rest, false);
    assert |s| == 1 || IsDecimalPart(s[1]);
    assert |s + rest| > 1 ==> (s + rest)[1] == if |s| > 1 then s[1] else ' ';
  }

  lemma {:induction false} NumberShown(t: Token, rest: string)
    requires (t.kind == "INT" && (IsDigits(t.literal) || IsBased(t.literal))) || (t.kind == "FLOAT" &&
                                                                                  IsFloat(t.literal))
    requires Apart(rest)
    ensures Scan(t.literal + rest) == (t, rest)
  {
    hide OperatorAt, Quoted, Raw, Keyword, Number, IsBased, IsFloat, Run;
    var n := t.literal;
    if t.kind == "FLOAT" {
      PointShown(n, rest);
    } else if IsBased(n) {
      BasedShown(n, rest);
    } else {
      DigitsShown(n, rest);
    }
    NoOperator(n + rest);
    assert (n + rest)[..|n|] == n && (n + rest)[|n|..] == rest;
  }

  /** A character is read back from its escape. */
  lemma {:induction false} EscapeShown(c: char, quote: char, more: string)
    requires quote == '"' || quote == '\''
    ensures var (text, rest) := Quoted(more, quote);
      Quoted(Escape(c, quote) + more, quote) == ([c] + text, rest)
  {
    var e := Escape(c, quote);
    if |e| == 2 {
      assert Drop(e + more, 2) == more;
    } else {
      assert (e + more)[1..] == more;
    }
  }

  lemma {:induction false} QuotedShown(s: string, quote: char, rest: string)
    requires quote == '"' || quote == '\''
    ensures Quoted(Escaped(s, quote) + ([quote] + rest), quote) == (s, [quote] + rest)
    decreases |s|
  {
    var tail := [quote] + rest;
    if s == "" {
      assert Escaped(s, quote) + tail == tail;
    } else {
      hide Quoted, Escape;
      var more := Escaped(s[1..], quote) + tail;
      assert Escaped(s, quote) + tail == Escape(s[0], quote) + more;
      QuotedShown(s[1..], quote, rest);
      EscapeShown(s[0], quote, more);
      assert s == [s[0]] + s[1..];
    }
  }

  lemma {:induction false} StringShown(t: Token, rest: string)
    requires t.kind == "STRING" || t.kind == "CHAR"
    ensures Scan(Shown(t) + rest) == (t, rest)
  {
    hide OperatorAt, Quoted, Raw, Keyword, WordKind, Number, Escaped;
    var quote := if t.kind == "STRING" then '"' else '\'';
    var s := Shown(t) + rest;
    NoOperator(s);
    QuotedShown(t.literal, quote, rest);
    assert s[1..] == Escaped(t.literal, quote) + ([quote] + rest);
    assert ([quote] + rest)[1..] == rest;
  }

  lemma {:induction false} ScanShown(t: Token, rest: string)
    requires Printable(t) && Apart(rest)
    ensures Shown(t) != "" && !AtEnd(Shown(t) + rest) && Scan(Shown(t) + rest) == (t, rest)
  {
    hide OperatorAt, Quoted, Raw, Keyword, WordKind, Number, Escaped;
    var s := Shown(t) + rest;
    if t.kind == "STRING" || t.kind == "CHAR" {
      StringShown(t, rest);
    } else if t.kind == t.literal && t.kind in OPERATORS {
      OperatorShown(t.kind, rest);
      OperatorStart(t.kind);
      assert Drop(s, |t.kind|) == rest;
    } else if t == Token("INLINEASM", "__asm__") {
      assert s[7..] == rest;
    } else if IsWord(t.literal) && t.kind == WordKind(t.literal) {
      WordShown(t.literal, rest);
    } else {
      NumberShown(t, rest);
    }
  }

  lemma {:induction false} OperatorStart(op: string)
    requires op in OPERATORS
    ensures op != "" && op[0] != END && !IsLetter(op[0]) && op[0] !in " \t\r\n" && op != "//" && op != "/*"
  {
  }

  // ----- reading them all back -----

  /** A printed token starts with itself: nothing in front of it is skipped. */
  lemma {:induction false} GapShown(t: Token, rest: string)
    requires Printable(t) && Apart(rest)
    ensures Gap(Shown(t) + rest) == (Shown(t) + rest, false)
  {
    hide Scan, OperatorAt, Quoted, Raw, Keyword, WordKind, Number, Escaped, IsFloat, AllOf;
    ShownStart(t);
    var s := Shown(t) + rest;
    ScanShown(t, rest);
    assert s[0] == Shown(t)[0];
    assert SkipBlanks(s) == s;
    if "//" <= s { PrefixShown("//", Shown(t), rest); }
    if "/*" <= s { PrefixShown("/*", Shown(t), rest); }
  }

  lemma {:induction false} ShownStart(t: Token)
    requires Printable(t)
    ensures var s := Shown(t); s != "" && s[0] !in " \t\r\n" && !("//" <= s) && !("/*" <= s)
  {
    hide AllOf, Keyword, WordKind, Escaped, HexCodes;
    if t.kind == t.literal && t.kind in OPERATORS {
      OperatorSlash(t.kind);
      OperatorStart(t.kind);
    } else if t.kind == "FLOAT" && IsFloat(t.literal) {
      var k :| 0 < k < |t.literal| && t.literal[k] == '.' && IsDigits(t.literal[..k]) && IsDigits(t.literal[k + 1..]);
      assert t.literal[0] == t.literal[..k][0];
    }
  }

  lemma {:induction false} OperatorSlash(op: string)
    requires op in OPERATORS
    ensures !("//" <= op) && !("/*" <= op)
  {
    assert |op| >= 2 && op[0] == '/' ==> op[1] == '=';
  }

  lemma {:induction false} GapSpace(s: string)
    ensures Gap(" " + s) == Gap(s)
  {
    assert (" " + s)[1..] == s;
    assert SkipPlain(" " + s) == SkipPlain(s);
  }

  lemma {:induction false} RuleToken(t: Token, more: string, prev: string)
    requires Printable(t) && Apart(more)
    ensures ByRule(Shown(t) + more, prev) == [t] + ByRule(more, t.kind)
  {
    hide Gap, Scan, Printable, Shown, CanInsertSemi;
    GapShown(t, more);
    ScanShown(t, more);
  }

  lemma {:induction false} RuleSpace(s: string, prev: string)
    ensures ByRule(" " + s, prev) == ByRule(s, prev)
  {
    hide Gap, Scan, CanInsertSemi;
    GapSpace(s);
  }

  lemma {:induction false} RuleEnd(prev: string)
    ensures ByRule("", prev) == (if CanInsertSemi(prev) then [SEMICOLON] else []) + [EOF]
  {
    hide CanInsertSemi;
    assert Gap("") == ("", false);
  }

  /** The rule gives back the printed tokens, and a semicolon at the end if the last one allows it. */
  lemma {:induction false} PrintedByRule(ts: seq<Token>, prev: string)
    requires forall i :: 0 <= i < |ts| ==> Printable(ts[i])
    ensures var last := if ts == [] then prev else ts[|ts| - 1].kind;
      ByRule(Print(ts), prev) == ts + (if CanInsertSemi(last) then [SEMICOLON] else []) + [EOF]
    decreases |ts|
  {
    hide ByRule, Printable, Shown, CanInsertSemi, More, Apart;
    if ts == [] {
      RuleEnd(prev);
    } else {
      var rest := ts[1..];
      RuleToken(ts[0], More(rest), prev);
      RuleMore(rest, ts[0].kind);
      PrintedByRule(rest, ts[0].kind);
      Prepend(ts, (if CanInsertSemi(ts[|ts| - 1].kind) then [SEMICOLON] else []));
    }
  }

  lemma {:induction false} RuleMore(ts: seq<Token>, prev: string)
    ensures ByRule(More(ts), prev) == ByRule(Print(ts), prev)
  {
    hide ByRule;
    if ts != [] { RuleSpace(Print(ts), prev); }
  }

  lemma {:induction false} Prepend(ts: seq<Token>, semi: seq<Token>)
    requires ts != []
    ensures [ts[0]] + (ts[1..] + semi + [EOF]) == ts + semi + [EOF]
  {
    assert ts == [ts[0]] + ts[1..];
  }

  /** Printing tokens and lexing the text gives the tokens back, with the semicolon that the end of
      the text stands for after a last token that allows one. */
  lemma {:induction false} RoundTrip(ts: seq<Token>)
    requires forall i :: 0 <= i < |ts| ==> Printable(ts[i])
    ensures var semi := if ts != [] && CanInsertSemi(ts[|ts| - 1].kind) then [SEMICOLON] else [];
      LexAll(Print(ts), "ILLEGAL") == ts + semi + [EOF]
  {
    hide ByRule, LexAll, Printable;
    LexFollowsRule(Print(ts), "ILLEGAL");
    PrintedByRule(ts, "ILLEGAL");
    assert "ILLEGAL"[1] == 'L';
  }
}
