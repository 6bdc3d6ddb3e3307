/** What may stand between tokens, written out as text: blanks, line breaks and comments are skipped, and
    a semicolon comes in exactly where the line is broken behind a token that can end a statement. */
module Spacing {
  import opened Lexical
  import opened TokenStream
  import opened TokenPrinting

  datatype Space = Blank(c: char) | Break | LineComment(note: string) | BlockComment(note: string)

  /** A note of a line comment stays in its line, one of a block comment does not end it. */
  predicate Proper(sp: Space) {
    match sp
    case Blank(c) => c == ' ' || c == '\t' || c == '\r'
    case Break => true
    case LineComment(n) => forall i :: 0 <= i < |n| ==> n[i] != '\n' && n[i] != '\0'
    case BlockComment(n) =>
      && (forall i :: 0 <= i < |n| ==> n[i] != '\0')
      && (forall i :: 0 < i < |n| ==> n[i - 1] != '*' || n[i] != '/')
  }

  function Text(sp: Space): string {
    match sp
    case Blank(c) => [c]
    case Break => "\n"
    case LineComment(n) => "//" + (n + "\n")
    case BlockComment(n) => "/*" + (n + "*/")
  }

  predicate BreaksLine(sp: Space) {
    sp.Break? || sp.LineComment? || (sp.BlockComment? && '\n' in sp.note)
  }

  function Texts(sps: seq<Space>): string {
    if sps == [] then "" else Text(sps[0]) + Texts(sps[1..])
  }

  predicate AllProper(sps: seq<Space>) {
    forall i :: 0 <= i < |sps| ==> Proper(sps[i])
  }

  predicate SomeBreak(sps: seq<Space>) {
    exists i :: 0 <= i < |sps| && BreaksLine(sps[i])
  }

  /** The kinds of the tokens that can end a statement. */
  const ENDINGS: set<string> := {
    "IDENT", "INT", "FLOAT", "CHAR", "STRING", "BREAK", "CONTINUE", "RETURN", "++", "--", ")", "]", "}"}

  lemma {:induction false} EndingsExact(kind: string)
    ensures CanInsertSemi(kind) <==> kind in ENDINGS
  {
  }

  // ----- one piece -----

  lemma {:induction false} LineSkipped(n: string, s: string)
    requires forall i :: 0 <= i < |n| ==> n[i] != '\n' && n[i] != '\0'
    requires s == "" || s[0] == '\n'
    ensures SkipLine(n + s) == s
    decreases |n|
  {
    if n == "" {
      assert n + s == s;
    } else {
      assert (n + s)[1..] == n[1..] + s;
      LineSkipped(n[1..], s);
    }
  }

  lemma {:induction false} BlockSkipped(n: string, s: string)
    requires Proper(BlockComment(n))
    ensures SkipBlock(n + ("*/" + s)) == ('\n' in n, s)
    decreases |n|
  {
    var text := n + ("*/" + s);
    if n == "" {
      assert text == "*/" + s && text[2..] == s;
    } else {
      assert text[1..] == n[1..] + ("*/" + s);
      assert text[0] == n[0] && text[1] == if |n| > 1 then n[1] else '*';
      BlockSkipped(n[1..], s);
      assert n == [n[0]] + n[1..];
    }
  }

  /** Nothing but a comment starts with its two characters. */
  lemma {:induction false} CommentPlain(s: string)
    requires |s| >= 2 && s[0] == '/'
    ensures s[1] == '/' ==> SkipPlain(s) == SkipLine(s[2..])
    ensures s[1] == '*' ==> SkipPlain(s) == s
  {
    assert SkipBlanks(s) == s;
    if s[1] == '/' {
      assert s[1..][1..] == s[2..];
      assert SkipLine(s) == SkipLine(s[1..]) == SkipLine(s[2..]);
    }
  }

  lemma {:induction false} BlankPlain(c: char, s: string)
    requires Proper(Blank(c))
    ensures SkipPlain([c] + s) == SkipPlain(s)
  {
    assert ([c] + s)[1..] == s;
  }

  lemma {:induction false} BreakPlain(s: string)
    ensures SkipPlain("\n" + s) == "\n" + s
  {
  }

  /** The text at a line break. */
  predicate AtBreak(p: string, s: string) {
    !("/*" <= p) && p != "" && p[0] == '\n' && p[1..] == s
  }

  lemma {:induction false} BreakAt(s: string)
    ensures AtBreak("\n" + s, s)
  {
    assert ("\n" + s)[0] == '\n' && ("\n" + s)[1..] == s;
  }

  lemma {:induction false} LinePlain(n: string, s: string)
    requires Proper(LineComment(n))
    ensures SkipPlain(Text(LineComment(n)) + s) == "\n" + s
  {
    hide SkipPlain, SkipLine;
    var text := Text(LineComment(n)) + s;
    assert text == "//" + (n + ("\n" + s)) && text[2..] == n + ("\n" + s);
    CommentPlain(text);
    LineSkipped(n, "\n" + s);
  }

  lemma {:induction false} BlockPlain(n: string, s: string)
    requires Proper(BlockComment(n))
    ensures var p := SkipPlain(Text(BlockComment(n)) + s); "/*" <= p && SkipBlock(p[2..]) == ('\n' in n, s)
  {
    hide SkipPlain, SkipBlock, Proper;
    var text := Text(BlockComment(n)) + s;
    assert text == "/*" + (n + ("*/" + s)) && text[2..] == n + ("*/" + s);
    CommentPlain(text);
    assert "/*" <= text;
    BlockSkipped(n, s);
  }

  /** What the lexer is at when it has skipped blanks and line comments of such a text. */
  lemma {:induction false} SpacePlain(sp: Space, s: string)
    requires Proper(sp)
    ensures var p := SkipPlain(Text(sp) + s);
      match sp
      case Blank(_) => p == SkipPlain(s)
      case BlockComment(n) => "/*" <= p && SkipBlock(p[2..]) == ('\n' in n, s)
      case _ => AtBreak(p, s)
  {
    hide SkipPlain, SkipBlock, AtBreak;
    BreakAt(s);
    match sp {
      case Blank(c) => BlankPlain(c, s);
      case Break => BreakPlain(s);
      case LineComment(n) => LinePlain(n, s);
      case BlockComment(n) => BlockPlain(n, s);
    }
  }

  /** A blank changes nothing; a break or a comment with one is a semicolon behind a token that can end a
      statement, and nothing otherwise; a comment in one line is nothing. */
  lemma {:induction false} NextSkips(sp: Space, s: string, prev: string)
    requires Proper(sp)
    ensures Next(Text(sp) + s, prev) ==
      if BreaksLine(sp) && prev in ENDINGS then (Token(";", ";"), s) else Next(s, prev)
  {
    hide Scan, CanInsertSemi, SkipBlock, SkipPlain, SkipTrivia, Proper, Text;
    EndingsExact(prev);
    SpacePlain(sp, s);
    TriviaOnce(Text(sp) + s, prev);
    TriviaOnce(s, prev);
  }

  lemma {:induction false} TriviaOnce(s: string, prev: string)
    ensures var p := SkipPlain(s);
      SkipTrivia(s, prev) ==
      if "/*" <= p then
        (if SkipBlock(p[2..]).0 && CanInsertSemi(prev) then Semi(SkipBlock(p[2..]).1)
         else SkipTrivia(SkipBlock(p[2..]).1, prev))
      else if At(p, 0) == '\n' then (if CanInsertSemi(prev) then Semi(p[1..]) else SkipTrivia(p[1..], prev))
      else Start(p)
  {
    hide SkipPlain, SkipBlock, CanInsertSemi;
  }

  /** A line comment that the text ends in is like the end of the text. */
  lemma {:induction false} LastComment(n: string, prev: string)
    requires Proper(LineComment(n))
    ensures Next("//" + n, prev) == Next("", prev)
    ensures Next("", prev) == (if prev in ENDINGS then Token(";", ";") else Token("EOF", ""), "")
  {
    hide Scan, CanInsertSemi, SkipBlock, SkipPlain;
    EndingsExact(prev);
    CommentPlain("//" + n);
    assert ("//" + n)[2..] == n + "";
    LineSkipped(n, "");
    assert SkipPlain("") == "" by { NothingPlain(); }
  }

  lemma {:induction false} NothingPlain()
    ensures SkipPlain("") == ""
  {
  }

  // ----- whole texts -----

  lemma {:induction false} SpaceGap(sp: Space, s: string)
    requires Proper(sp)
    ensures Gap(Text(sp) + s) == (Gap(s).0, BreaksLine(sp) || Gap(s).1)
  {
    hide SkipBlock, SkipPlain, Gap, Proper, Text;
    SpacePlain(sp, s);
    GapOnce(Text(sp) + s);
    GapOnce(s);
  }

  lemma {:induction false} GapOnce(s: string)
    ensures var p := SkipPlain(s);
      Gap(s) ==
      if "/*" <= p then (Gap(SkipBlock(p[2..]).1).0, SkipBlock(p[2..]).0 || Gap(SkipBlock(p[2..]).1).1)
      else if At(p, 0) == '\n' then (Gap(p[1..]).0, true)
      else (p, false)
  {
    hide SkipPlain, SkipBlock;
  }

  lemma {:induction false} SpacesGap(sps: seq<Space>, s: string)
    requires AllProper(sps)
    ensures Gap(Texts(sps) + s) == (Gap(s).0, SomeBreak(sps) || Gap(s).1)
    decreases |sps|
  {
    hide Gap, Text, Proper, BreaksLine;
    if sps == [] {
      assert Texts(sps) + s == s;
    } else {
      var rest := sps[1..];
      assert Texts(sps) + s == Text(sps[0]) + (Texts(rest) + s);
      SpaceGap(sps[0], Texts(rest) + s);
      SpacesGap(rest, s);
      if SomeBreak(sps) {
        var i :| 0 <= i < |sps| && BreaksLine(sps[i]);
        assert i == 0 || BreaksLine(rest[i - 1]);
      }
      if SomeBreak(rest) {
        var i :| 0 <= i < |rest| && BreaksLine(rest[i]);
        assert BreaksLine(sps[i + 1]);
      }
    }
  }

  /** Tokens with what stands between them: `gaps[0]` in front, `gaps[i + 1]` behind token `i`. */
  function Laid(ts: seq<Token>, gaps: seq<seq<Space>>): string
    requires |gaps| == |ts| + 1
    decreases |ts|
  {
    Texts(gaps[0]) + if ts == [] then "" else Shown(ts[0]) + Laid(ts[1..], gaps[1..])
  }

  /** Behind a token there is a space, unless the text ends. */
  predicate Spaced(gaps: seq<seq<Space>>) {
    && (forall i :: 0 <= i < |gaps| ==> AllProper(gaps[i]))
    && (forall i :: 0 < i < |gaps| ==>
          if gaps[i] == [] then i == |gaps| - 1 else gaps[i][0] == Blank(' '))
  }

  /** The tokens with the semicolons that breaks and the end of the text stand for. */
  function Completed(ts: seq<Token>, gaps: seq<seq<Space>>, prev: string): seq<Token>
    requires |gaps| == |ts| + 1
    decreases |ts|
  {
    if ts == [] then
      if prev in ENDINGS then [Token(";", ";"), Token("EOF", "")] else [Token("EOF", "")]
    else
      (if SomeBreak(gaps[0]) && prev in ENDINGS then [Token(";", ";")] else [])
      + ([ts[0]] + Completed(ts[1..], gaps[1..], ts[0].kind))
  }

  lemma {:induction false} LaidApart(ts: seq<Token>, gaps: seq<seq<Space>>)
    requires |gaps| == |ts| + 1 && Spaced(gaps) && ts != []
    ensures Spaced(gaps[1..]) && TokenPrinting.Apart(Laid(ts[1..], gaps[1..]))
  {
    hide AllProper, Shown;
    var g := gaps[1..];
    forall i | 0 <= i < |g| ensures AllProper(g[i]) {
      assert g[i] == gaps[i + 1];
    }
    forall i | 0 < i < |g| ensures if g[i] == [] then i == |g| - 1 else g[i][0] == Blank(' ') {
      assert g[i] == gaps[i + 1];
    }
    if g[0] == [] {
      assert |ts| == 1 && ts[1..] == [];
    } else {
      assert Texts(g[0])[0] == Text(g[0][0])[0] == ' ';
    }
  }

  lemma {:induction false} LaidByRule(ts: seq<Token>, gaps: seq<seq<Space>>, prev: string)
    requires |gaps| == |ts| + 1 && Spaced(gaps)
    requires forall i :: 0 <= i < |ts| ==> Printable(ts[i])
    ensures ByRule(Laid(ts, gaps), prev) == Completed(ts, gaps, prev)
    decreases |ts|
  {
    hide Printable, Shown, CanInsertSemi, Scan, Gap, Spaced, SomeBreak;
    EndingsExact(prev);
    FirstProper(gaps);
    if ts == [] {
      SpacesGap(gaps[0], "");
      NothingGap();
      assert Texts(gaps[0]) + "" == Texts(gaps[0]);
    } else {
      var more := Laid(ts[1..], gaps[1..]);
      LaidApart(ts, gaps);
      LaidByRule(ts[1..], gaps[1..], ts[0].kind);
      SpacesGap(gaps[0], Shown(ts[0]) + more);
      GapShown(ts[0], more);
      ScanShown(ts[0], more);
    }
  }

  lemma {:induction false} FirstProper(gaps: seq<seq<Space>>)
    requires gaps != [] && Spaced(gaps)
    ensures AllProper(gaps[0])
  {
  }

  lemma {:induction false} NothingGap()
    ensures Gap("") == ("", false)
  {
  }

  /** Tokens written with blanks, line breaks and comments between them are read back with exactly the
      semicolons that the breaks and the end of the text stand for. */
  lemma {:induction false} LaidOutRead(ts: seq<Token>, gaps: seq<seq<Space>>)
    requires |gaps| == |ts| + 1 && Spaced(gaps)
    requires forall i :: 0 <= i < |ts| ==> Printable(ts[i])
    ensures LexAll(Laid(ts, gaps), "ILLEGAL") == Completed(ts, gaps, "ILLEGAL")
  {
    hide ByRule, LexAll, Printable, Spaced;
    LexFollowsRule(Laid(ts, gaps), "ILLEGAL");
    LaidByRule(ts, gaps, "ILLEGAL");
  }
}
