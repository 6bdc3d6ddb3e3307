/** Literals and characters that printing does not produce: raw strings, escapes that mean nothing,
    literals that the line or the text ends in, where numbers stop, and characters that start no token. */
module Literals {
  import opened Lexical
  import opened TokenStream
  import opened TokenPrinting

  /** A raw string is its contents, line breaks and backslashes included. */
  lemma {:induction false} RawRead(s: string, rest: string)
    requires forall i :: 0 <= i < |s| ==> s[i] != '`' && s[i] != '\0'
    ensures Scan("`" + (s + ("`" + rest))) == (Token("STRING", s), rest)
  {
    hide Raw;
    var text := "`" + (s + ("`" + rest));
    assert text[0] == '`' && text[1..] == s + ("`" + rest);
    RawContents(s, rest);
    assert ("`" + rest)[1..] == rest;
  }

  lemma {:induction false} RawContents(s: string, rest: string)
    requires forall i :: 0 <= i < |s| ==> s[i] != '`' && s[i] != '\0'
    ensures Raw(s + ("`" + rest)) == (s, "`" + rest)
    decreases |s|
  {
    var text := s + ("`" + rest);
    if s == "" {
      assert text == "`" + rest;
    } else {
      assert text[1..] == s[1..] + ("`" + rest);
      RawContents(s[1..], rest);
      assert s == [s[0]] + s[1..];
    }
  }

  /** An escape without a meaning keeps its backslash; an escaped single quote has none in a string. */
  lemma {:induction false} UnknownEscape(c: char, quote: char, more: string)
    requires quote == '"' || quote == '\''
    requires c !in ['n', 't', 'r', '0', '"', '\\'] && (c == '\'' ==> quote == '"')
    ensures var (text, rest) := Quoted(more, quote);
      Quoted("\\" + ([c] + more), quote) == (['\\', c] + text, rest)
  {
    var s := "\\" + ([c] + more);
    assert s[0] == '\\' && s[1] == c && s[2..] == more;
  }

  /** The escapes and the codes of the characters they stand for. */
  const ESCAPES: set<(char, int)> := {('n', 10), ('t', 9), ('r', 13), ('0', 0), ('"', 34), ('\\', 92)}

  lemma {:induction false} EscapesRead(c: char, code: int, quote: char, more: string)
    requires quote == '"' || quote == '\''
    requires (c, code) in ESCAPES || ((c, code) == ('\'', 39) && quote == '\'')
    ensures var (text, rest) := Quoted(more, quote);
      Quoted("\\" + ([c] + more), quote) == ([code as char] + text, rest)
  {
    var s := "\\" + ([c] + more);
    assert s[0] == '\\' && s[1] == c && s[2..] == more;
  }

  /** A character literal ends with its line, a string does not. */
  lemma {:induction false} LineInLiteral(s: string)
    ensures Quoted("\n" + s, '\'') == ("", "\n" + s)
    ensures var (text, rest) := Quoted(s, '"'); Quoted("\n" + s, '"') == ("\n" + text, rest)
  {
    assert ("\n" + s)[1..] == s;
  }

  /** A literal that the text ends in is read up to there. */
  lemma {:induction false} UnclosedRead(s: string, quote: char)
    requires quote == '"' || quote == '\''
    ensures Quoted(Escaped(s, quote), quote) == (s, "")
    decreases |s|
  {
    if s != "" {
      hide Quoted, Escape;
      UnclosedRead(s[1..], quote);
      EscapeShown(s[0], quote, Escaped(s[1..], quote));
      assert s == [s[0]] + s[1..];
    }
  }

  predicate DecimalCode(n: int) {
    DigitCode(n) || n == 0x5F
  }

  /** A decimal number goes on as long as it can: over digits and underscores, and over the first point
      that a digit follows. */
  lemma {:induction false} DecimalMaximal(s: string, point: bool)
    ensures var (n, p) := Decimal(s, point);
      && n <= |s| && !DecimalCode(At(s, n) as int)
      && (At(s, n) == '.' ==> p || !DigitCode(At(s, n + 1) as int))
      && (forall i :: 0 <= i < n ==> DecimalCode(s[i] as int) || s[i] == '.')
      && (p <==> point || exists i :: 0 <= i < n && s[i] == '.')
      && (forall i, j :: 0 <= i < j < n && s[i] == '.' ==> s[j] != '.')
      && (point ==> forall i :: 0 <= i < n ==> s[i] != '.')
    decreases |s|
  {
    var c := At(s, 0);
    if IsDigit(c) || c == '_' {
      DecimalMaximal(s[1..], point);
      DecimalLonger(s, point, point);
    } else if c == '.' && !point && IsDigit(At(s, 1)) {
      DecimalMaximal(s[1..], true);
      DecimalLonger(s, point, true);
    }
  }

  /** What is said of the number behind its first character holds with it. */
  lemma {:induction false} DecimalLonger(s: string, point: bool, later: bool)
    requires s != "" && (later <==> point || s[0] == '.') && (point ==> s[0] != '.')
    requires DecimalCode(s[0] as int) || s[0] == '.'
    requires var (n, p) := Decimal(s[1..], later);
      && Decimal(s, point) == (n + 1, p)
      && n <= |s| - 1
      && (forall i :: 0 <= i < n ==> DecimalCode(s[1..][i] as int) || s[1..][i] == '.')
      && (p <==> later || exists i :: 0 <= i < n && s[1..][i] == '.')
      && (forall i, j :: 0 <= i < j < n && s[1..][i] == '.' ==> s[1..][j] != '.')
      && (later ==> forall i :: 0 <= i < n ==> s[1..][i] != '.')
    ensures var (n, p) := Decimal(s, point);
      && At(s, n) == At(s[1..], n - 1) && At(s, n + 1) == At(s[1..], n)
      && (forall i :: 0 <= i < n ==> DecimalCode(s[i] as int) || s[i] == '.')
      && (p <==> point || exists i :: 0 <= i < n && s[i] == '.')
      && (forall i, j :: 0 <= i < j < n && s[i] == '.' ==> s[j] != '.')
      && (point ==> forall i :: 0 <= i < n ==> s[i] != '.')
  {
    hide Decimal;
    var (n, p) := Decimal(s[1..], later);
    forall i | 0 < i <= n ensures s[i] == s[1..][i - 1] { }
    if exists i :: 0 <= i < n && s[1..][i] == '.' {
      var i :| 0 <= i < n && s[1..][i] == '.';
      assert s[i + 1] == '.';
    }
  }

  /** The characters that start no token are each an illegal one, in UTF-8. */
  lemma {:induction false} IllegalRead(c: char, rest: string)
    requires !LetterCode(c as int) && !DigitCode(c as int)
    requires c !in "=+-*/%!<>&|^:.;,(){}[]\"'`" && c !in " \t\r\n\0"
    ensures var (t, s) := Scan([c] + rest);
      && t.kind == "ILLEGAL" && s == rest
      && (c as int < 0x80 ==> t.literal == [c])
      && (0x80 <= c as int <= 0xFF ==>
            && |t.literal| == 2
            && 0xC0 <= t.literal[0] as int < 0xE0 && 0x80 <= t.literal[1] as int < 0xC0
            && (t.literal[0] as int - 0xC0) * 64 + (t.literal[1] as int - 0x80) == c as int)
  {
    hide Quoted, Raw, Run, Number, Keyword;
    var s := [c] + rest;
    assert s[0] == c && s[1..] == rest;
    assert !("__asm__" <= s) && OperatorAt(s) == "";
  }
}
