/** What the lexer makes of a text, as functions on the text that is left. Text is a sequence of bytes;
    the NUL byte reads like the end of the text. */
module Lexical {

  /** A token; an operator's kind is the operator itself. */
  datatype Token = Token(kind: string, literal: string)

  const END: char := '\0'
  const SEMICOLON := Token(";", ";")
  const EOF := Token("EOF", "")

  function At(s: string, k: nat): char {
    if k < |s| then s[k] else END
  }

  function Drop(s: string, k: nat): (r: string)
    ensures |r| <= |s| && (0 < k && s != "" ==> |r| < |s|)
  {
    if k <= |s| then s[k..] else ""
  }

  predicate AtEnd(s: string) {
    At(s, 0) == END
  }

  predicate IsLetter(c: char) {
    'a' <= c <= 'z' || 'A' <= c <= 'Z' || c == '_'
  }

  predicate IsDigit(c: char) {
    '0' <= c <= '9'
  }

  predicate IsHexDigit(c: char) {
    '0' <= c <= '9' || 'a' <= c <= 'f' || 'A' <= c <= 'F'
  }

  /** The kinds after which a line break stands for a semicolon. */
  predicate CanInsertSemi(kind: string) {
    kind in {"IDENT", "INT", "FLOAT", "CHAR", "STRING", "BREAK", "CONTINUE", "RETURN", "++", "--", ")", "]", "}"}
  }

  // ----- between tokens -----

  function SkipBlanks(s: string): (r: string)
    ensures |r| <= |s|
  {
    if At(s, 0) in " \t\r" then SkipBlanks(s[1..]) else s
  }

  function SkipLine(s: string): (r: string)
    ensures |r| <= |s| && At(r, 0) in "\n\0"
  {
    if At(s, 0) in "\n\0" then s else SkipLine(s[1..])
  }

  /** The rest of a block comment: whether it has a line break, and what follows it. */
  function SkipBlock(s: string): (r: (bool, string))
    ensures |r.1| <= |s|
  {
    if AtEnd(s) then (false, s)
    else if "*/" <= s then (false, s[2..])
    else
      var (newline, rest) := SkipBlock(s[1..]);
      (s[0] == '\n' || newline, rest)
  }

  /** Blanks and a line comment. */
  function SkipPlain(s: string): (r: string)
    ensures |r| <= |s|
  {
    var r := SkipBlanks(s);
    if "//" <= r then SkipLine(r) else r
  }

  datatype Stop = Semi(rest: string) | Start(rest: string)

  /** Skips what separates tokens; stops behind a line break, or a comment with one, when that stands
      for a semicolon after a token of the kind `prev`. */
  function SkipTrivia(s: string, prev: string): (r: Stop)
    ensures |r.rest| <= |s|
    decreases |s|
  {
    var r := SkipPlain(s);
    if "/*" <= r then
      var (newline, rest) := SkipBlock(r[2..]);
      if newline && CanInsertSemi(prev) then Semi(rest) else SkipTrivia(rest, prev)
    else if At(r, 0) == '\n' then
      if CanInsertSemi(prev) then Semi(r[1..]) else SkipTrivia(r[1..], prev)
    else Start(r)
  }

  // ----- tokens -----

  /** The operator or delimiter that starts with these three characters; empty if there is none. */
  function Operator(a: char, b: char, c: char): (op: string)
    ensures |op| <= 3 && (op != "" ==> op[0] == a) && op != "EOF"
  {
    if a == '=' then (if b == '=' then "==" else "=")
    else if a == '+' then (if b == '+' then "++" else if b == '=' then "+=" else "+")
    else if a == '-' then (if b == '-' then "--" else if b == '=' then "-=" else "-")
    else if a == '*' then (if b == '=' then "*=" else "*")
    else if a == '/' then (if b == '=' then "/=" else "/")
    else if a == '%' then "%"
    else if a == '!' then (if b == '=' then "!=" else "!")
    else if a == '<' then
      (if b == '<' then (if c == '=' then "<<=" else "<<")
       else if b == '-' then "<-" else if b == '=' then "<=" else "<")
    else if a == '>' then
      (if b == '>' then (if c == '=' then ">>=" else ">>") else if b == '=' then ">=" else ">")
    else if a == '&' then (if b == '&' then "&&" else if b == '=' then "&=" else "&")
    else if a == '|' then (if b == '|' then "||" else if b == '=' then "|=" else "|")
    else if a == '^' then (if b == '=' then "^=" else "^")
    else if a == ':' then (if b == '=' then ":=" else ":")
    else if a == '.' then (if b == '.' && c == '.' then "..." else ".")
    else if a in ";,(){}[]" then [a]
    else ""
  }

  function OperatorAt(s: string): string {
    Operator(At(s, 0), At(s, 1), At(s, 2))
  }

  function Capital(c: char): char {
    if 0x61 <= c as int <= 0x7A then (c as int - 0x20) as char else c
  }

  predicate InCapitals(s: string, t: string) {
    |s| == |t| && forall i :: 0 <= i < |s| ==> t[i] == Capital(s[i])
  }

  const DECLARATION_WORDS: set<string> := {
    "package", "import", "func", "cfunc", "extern", "jfunc", "passthrough", "var", "const", "iota"}

  const TYPE_WORDS: set<string> := {
    "type", "struct", "interface", "map", "stable", "chan", "Async", "async", "nil", "threadable", "concurrent"}

  const STATEMENT_WORDS: set<string> := {
    "return", "if", "else", "for", "range", "switch", "case", "default", "defer", "lock", "area", "break", "continue"}

  const KEYWORDS: set<string> := DECLARATION_WORDS + TYPE_WORDS + STATEMENT_WORDS

  function DeclarationWord(s: string): (kind: string)
    ensures (kind == "" || InCapitals(s, kind)) && kind != "EOF"
  {
    if s == "package" then "PACKAGE" else if s == "import" then "IMPORT" else if s == "func" then "FUNC"
    else if s == "cfunc" then "CFUNC" else if s == "extern" then "EXTERN" else if s == "jfunc" then "JFUNC"
    else if s == "passthrough" then "PASSTHROUGH" else if s == "var" then "VAR"
    else if s == "const" then "CONST" else if s == "iota" then "IOTA" else ""
  }

  function TypeWord(s: string): (kind: string)
    ensures (kind == "" || InCapitals(s, kind)) && kind != "EOF"
  {
    if s == "type" then "TYPE" else if s == "struct" then "STRUCT" else if s == "interface" then "INTERFACE"
    else if s == "map" then "MAP" else if s == "stable" then "STABLE" else if s == "chan" then "CHAN"
    else if s == "Async" || s == "async" then "ASYNC" else if s == "nil" then "NIL"
    else if s == "threadable" then "THREADABLE" else if s == "concurrent" then "CONCURRENT" else ""
  }

  function StatementWord(s: string): (kind: string)
    ensures (kind == "" || InCapitals(s, kind)) && kind != "EOF"
  {
    if s == "return" then "RETURN" else if s == "if" then "IF" else if s == "else" then "ELSE"
    else if s == "for" then "FOR" else if s == "range" then "RANGE" else if s == "switch" then "SWITCH"
    else if s == "case" then "CASE" else if s == "default" then "DEFAULT" else if s == "defer" then "DEFER"
    else if s == "lock" then "LOCK" else if s == "area" then "AREA" else if s == "break" then "BREAK"
    else if s == "continue" then "CONTINUE" else ""
  }

  /** The kind of a word. */
  function Keyword(s: string): (kind: string)
    ensures (kind == "IDENT" || InCapitals(s, kind)) && kind != "EOF"
  {
    if DeclarationWord(s) != "" then DeclarationWord(s)
    else if TypeWord(s) != "" then TypeWord(s)
    else if StatementWord(s) != "" then StatementWord(s)
    else "IDENT"
  }

  /** The length of the longest prefix of the given characters. */
  function Run(s: string, accept: char -> bool): (n: nat)
    ensures n <= |s| && (forall i :: 0 <= i < n ==> accept(s[i])) && (n < |s| ==> !accept(s[n]))
  {
    if s == "" || !accept(s[0]) then 0 else 1 + Run(s[1..], accept)
  }

  function IsWordChar(c: char): bool { IsLetter(c) || IsDigit(c) }
  function IsHexPart(c: char): bool { IsHexDigit(c) || c == '_' }
  function IsBinaryPart(c: char): bool { c == '0' || c == '1' || c == '_' }
  function IsOctalPart(c: char): bool { '0' <= c <= '7' || c == '_' }

  /** The length of a decimal number, and whether it has a point. */
  function Decimal(s: string, point: bool): (r: (nat, bool))
    ensures r.0 <= |s| && (point ==> r.1)
  {
    var c := At(s, 0);
    if IsDigit(c) || c == '_' then
      var (n, p) := Decimal(s[1..], point);
      (n + 1, p)
    else if c == '.' && !point && IsDigit(At(s, 1)) then
      var (n, p) := Decimal(s[1..], true);
      (n + 1, p)
    else (0, point)
  }

  /** The length and the kind of a number. */
  function Number(s: string): (r: (nat, string))
    requires s != "" && IsDigit(s[0])
    ensures 0 < r.0 <= |s| && r.1 in {"INT", "FLOAT"}
  {
    if s[0] == '0' && |s| > 1 && s[1] in "xX" then (2 + Run(s[2..], IsHexPart), "INT")
    else if s[0] == '0' && |s| > 1 && s[1] in "bB" then (2 + Run(s[2..], IsBinaryPart), "INT")
    else if s[0] == '0' && |s| > 1 && s[1] in "oO" then (2 + Run(s[2..], IsOctalPart), "INT")
    else
      var (n, point) := Decimal(s, false);
      (n, if point then "FLOAT" else "INT")
  }

  /** What a backslash and a character mean; only a character literal has an escaped single quote. */
  function Unescaped(c: char, quote: char): string {
    if c == 'n' then "\n" else if c == 't' then "\t" else if c == 'r' then "\r"
    else if c == '"' || c == '\\' then [c]
    else if c == '\'' && quote == '\'' then [c]
    else if c == '0' then [END]
    else ['\\', c]
  }

  /** Whether a literal with this quote ends here; a character literal ends with its line. */
  predicate Ends(c: char, quote: char) {
    c == quote || c == END || (quote == '\'' && c == '\n')
  }

  /** The contents of a string or character literal behind its quote, and the rest from its end. */
  function Quoted(s: string, quote: char): (r: (string, string))
    ensures |r.1| <= |s|
    decreases |s|
  {
    var c := At(s, 0);
    if Ends(c, quote) then ("", s)
    else if c == '\\' then
      var (text, rest) := Quoted(Drop(s, 2), quote);
      (Unescaped(At(s, 1), quote) + text, rest)
    else
      var (text, rest) := Quoted(s[1..], quote);
      ([c] + text, rest)
  }

  function Raw(s: string): (r: (string, string))
    ensures |r.1| <= |s|
  {
    if At(s, 0) in "`\0" then ("", s) else
    var (text, rest) := Raw(s[1..]);
    ([s[0]] + text, rest)
  }

  /** The character with the number of a byte, in UTF-8. */
  function Character(c: char): string {
    if c as int < 0x80 then [c] else [(0xC0 + c as int / 64) as char, (0x80 + c as int % 64) as char]
  }

  /** The token a text starts with, and what is left behind it. */
  function Scan(s: string): (r: (Token, string))
    requires !AtEnd(s)
    ensures |r.1| < |s|
  {
    var op := OperatorAt(s);
    if "__asm__" <= s then (Token("INLINEASM", "__asm__"), s[7..])
    else if op != "" then (Token(op, op), Drop(s, |op|))
    else if s[0] == '"' then
      var (text, rest) := Quoted(s[1..], '"');
      (Token("STRING", text), Drop(rest, 1))
    else if s[0] == '\'' then
      var (text, rest) := Quoted(s[1..], '\'');
      (Token("CHAR", text), if At(rest, 0) == '\'' then rest[1..] else rest)
    else if s[0] == '`' then
      var (text, rest) := Raw(s[1..]);
      (Token("STRING", text), Drop(rest, 1))
    else if IsLetter(s[0]) then
      var n := Run(s, IsWordChar);
      (Token(Keyword(s[..n]), s[..n]), s[n..])
    else if IsDigit(s[0]) then
      var (n, kind) := Number(s);
      (Token(kind, s[..n]), s[n..])
    else (Token("ILLEGAL", Character(s[0])), s[1..])
  }

  /** One call of the lexer after a token of the kind `prev`. */
  function Next(s: string, prev: string): (r: (Token, string))
    ensures |r.1| <= |s|
  {
    match SkipTrivia(s, prev)
    case Semi(rest) => (SEMICOLON, rest)
    case Start(rest) =>
      if !AtEnd(rest) then Scan(rest)
      else if CanInsertSemi(prev) then (SEMICOLON, rest)
      else (EOF, rest)
  }
}
