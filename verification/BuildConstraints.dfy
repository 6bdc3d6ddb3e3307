/** Evaluation of `//go:build` expressions: a tokenizer that skips what it does not know, and a
    recursive-descent parser that computes the truth value as it goes. Text is a sequence of bytes,
    each classified as the Latin-1 character with its code. */
module BuildConstraints {

  datatype Token = Open | Close | Bang | AndAnd | OrOr | Tag(name: string)

  datatype Formula =
    | Atom(name: string)
    | Not(f: Formula)
    | And(l: Formula, r: Formula)
    | Or(l: Formula, r: Formula)

  function Value(f: Formula, tags: map<string, bool>): bool {
    match f
    case Atom(n) => n in tags && tags[n]
    case Not(g) => !Value(g, tags)
    case And(l, r) => Value(l, tags) && Value(r, tags)
    case Or(l, r) => Value(l, tags) || Value(r, tags)
  }

  // ----- characters -----

  predicate IsSpace(c: char) {
    '\t' <= c <= '\r' || c == ' ' || c == 0x85 as char || c == 0xA0 as char
  }

  predicate IsLetter(c: char) {
    || 'a' <= c <= 'z' || 'A' <= c <= 'Z'
    || c == 0xAA as char || c == 0xB5 as char || c == 0xBA as char
    || (0xC0 as char <= c <= 0xFF as char && c != 0xD7 as char && c != 0xF7 as char)
  }

  predicate IsTagChar(c: char) {
    IsLetter(c) || '0' <= c <= '9' || c == '_'
  }

  /** The characters of tags by their codes: ASCII letters, digits and the underscore, and the letters of
      Latin-1. */
  predicate TagCode(n: int) {
    || 0x30 <= n <= 0x39 || 0x41 <= n <= 0x5A || n == 0x5F || 0x61 <= n <= 0x7A
    || n == 0xAA || n == 0xB5 || n == 0xBA || 0xC0 <= n <= 0xD6 || 0xD8 <= n <= 0xF6 || 0xF8 <= n <= 0xFF
  }

  lemma {:induction false} TagCharExact(c: char)
    ensures IsTagChar(c) <==> TagCode(c as int)
  {
  }

  predicate IsTag(s: string) {
    s != "" && forall i :: 0 <= i < |s| ==> TagCode(s[i] as int)
  }

  lemma {:induction false} TagChars(s: string)
    requires IsTag(s)
    ensures forall i :: 0 <= i < |s| ==> IsTagChar(s[i])
  {
    hide IsTagChar, TagCode;
    forall i | 0 <= i < |s| ensures IsTagChar(s[i]) {
      TagCharExact(s[i]);
    }
  }

  predicate Tagged(f: Formula) {
    match f
    case Atom(n) => IsTag(n)
    case Not(g) => Tagged(g)
    case And(l, r) => Tagged(l) && Tagged(r)
    case Or(l, r) => Tagged(l) && Tagged(r)
  }

  // ----- the tokenizer -----

  /** The length of the run of tag characters at the start. */
  function TagLength(s: string): (n: nat)
    ensures n <= |s| && (forall i :: 0 <= i < n ==> IsTagChar(s[i])) && (n < |s| ==> !IsTagChar(s[n]))
  {
    if s == "" || !IsTagChar(s[0]) then 0 else 1 + TagLength(s[1..])
  }

  function Tokens(s: string): seq<Token> {
    if s == "" then []
    else if IsSpace(s[0]) then Tokens(s[1..])
    else if s[0] == '(' then [Open] + Tokens(s[1..])
    else if s[0] == ')' then [Close] + Tokens(s[1..])
    else if s[0] == '!' then [Bang] + Tokens(s[1..])
    else if "&&" <= s then [AndAnd] + Tokens(s[2..])
    else if "||" <= s then [OrOr] + Tokens(s[2..])
    else
      var n := TagLength(s);
      if n == 0 then Tokens(s[1..]) else [Tag(s[..n])] + Tokens(s[n..])
  }

  /** One step of the tokenizer, in terms of the whole text. */
  lemma {:induction false} TokensAt(s: string, i: nat)
    requires i < |s|
    ensures var rest := s[i..];
      Tokens(rest) ==
      if IsSpace(s[i]) then Tokens(s[i + 1..])
      else if s[i] == '(' then [Open] + Tokens(s[i + 1..])
      else if s[i] == ')' then [Close] + Tokens(s[i + 1..])
      else if s[i] == '!' then [Bang] + Tokens(s[i + 1..])
      else if "&&" <= rest then [AndAnd] + Tokens(s[i + 2..])
      else if "||" <= rest then [OrOr] + Tokens(s[i + 2..])
      else
        var j := i + TagLength(rest);
        if j == i then Tokens(s[i + 1..]) else [Tag(s[i..j])] + Tokens(s[j..])
  {
    hide IsSpace, IsTagChar, TagLength;
    var rest := s[i..];
    assert rest[1..] == s[i + 1..];
    if "&&" <= rest || "||" <= rest {
      assert rest[2..] == s[i + 2..];
    }
    var n := TagLength(rest);
    assert rest[n..] == s[i + n..] && rest[..n] == s[i..i + n];
  }

  /** Where the tag characters from position `i` on end. */
  method TagEnd(s: string, i: nat) returns (j: nat)
    requires i <= |s|
    ensures j == i + TagLength(s[i..])
  {
    hide IsTagChar, TagLength;
    j := i;
    while j < |s| && IsTagChar(s[j])
      invariant i <= j <= |s| && TagLength(s[i..]) == j - i + TagLength(s[j..])
    {
      TagLengthAt(s, j);
      j := j + 1;
    }
    TagLengthAt(s, j);
  }

  lemma {:induction false} TagLengthAt(s: string, j: nat)
    requires j <= |s|
    ensures TagLength(s[j..]) == if j < |s| && IsTagChar(s[j]) then 1 + TagLength(s[j + 1..]) else 0
  {
    hide IsTagChar;
    assert j < |s| ==> s[j..][1..] == s[j + 1..];
  }

  method Tokenize(s: string) returns (out: seq<Token>)
    ensures out == Tokens(s)
  {
    hide Tokens, IsSpace, IsTagChar, TagLength;
    out := [];
    var i := 0;
    assert s[0..] == s && [] + Tokens(s) == Tokens(s);
    while i < |s|
      invariant 0 <= i <= |s| && out + Tokens(s[i..]) == Tokens(s)
    {
      ghost var rest := s[i..];
      TokensAt(s, i);
      if IsSpace(s[i]) {
        i := i + 1;
      } else if s[i] == '(' || s[i] == ')' || s[i] == '!' {
        var t := if s[i] == '(' then Open else if s[i] == ')' then Close else Bang;
        Move(out, t, Tokens(s[i + 1..]));
        out := out + [t];
        i := i + 1;
      } else if "&&" <= s[i..] || "||" <= s[i..] {
        var t := if "&&" <= s[i..] then AndAnd else OrOr;
        Move(out, t, Tokens(s[i + 2..]));
        out := out + [t];
        i := i + 2;
      } else {
        var j := TagEnd(s, i);
        if j == i {
          i := i + 1;
        } else {
          Move(out, Tag(s[i..j]), Tokens(s[j..]));
          out := out + [Tag(s[i..j])];
          i := j;
        }
      }
    }
    assert s[i..] == "";
    TokensEnd(out);
  }

  lemma {:induction false} TokensEnd(out: seq<Token>)
    ensures out + Tokens("") == out
  {
  }

  lemma {:induction false} Move(out: seq<Token>, t: Token, rest: seq<Token>)
    ensures out + ([t] + rest) == (out + [t]) + rest
  {
  }

  // ----- the parser -----

  predicate Peek(ts: seq<Token>, pos: nat, t: Token) {
    pos < |ts| && ts[pos] == t
  }

  /** The truth value of an or-expression from `pos` on, and where it ends. */
  function ParseOr(ts: seq<Token>, pos: nat, tags: map<string, bool>): (r: (bool, nat))
    requires pos <= |ts|
    ensures pos <= r.1 <= |ts|
    decreases |ts| - pos, 4
  {
    var (v, p) := ParseAnd(ts, pos, tags);
    OrLoop(ts, v, p, tags)
  }

  function OrLoop(ts: seq<Token>, v: bool, pos: nat, tags: map<string, bool>): (r: (bool, nat))
    requires pos <= |ts|
    ensures pos <= r.1 <= |ts|
    decreases |ts| - pos, 3
  {
    if !Peek(ts, pos, OrOr) then (v, pos) else
    var (u, p) := ParseAnd(ts, pos + 1, tags);
    OrLoop(ts, u || v, p, tags)
  }

  function ParseAnd(ts: seq<Token>, pos: nat, tags: map<string, bool>): (r: (bool, nat))
    requires pos <= |ts|
    ensures pos <= r.1 <= |ts|
    decreases |ts| - pos, 2
  {
    var (v, p) := ParseUnary(ts, pos, tags);
    AndLoop(ts, v, p, tags)
  }

  function AndLoop(ts: seq<Token>, v: bool, pos: nat, tags: map<string, bool>): (r: (bool, nat))
    requires pos <= |ts|
    ensures pos <= r.1 <= |ts|
    decreases |ts| - pos, 1
  {
    if !Peek(ts, pos, AndAnd) then (v, pos) else
    var (u, p) := ParseUnary(ts, pos + 1, tags);
    AndLoop(ts, u && v, p, tags)
  }

  function ParseUnary(ts: seq<Token>, pos: nat, tags: map<string, bool>): (r: (bool, nat))
    requires pos <= |ts|
    ensures pos <= r.1 <= |ts|
    decreases |ts| - pos, 0
  {
    if pos == |ts| then (false, pos) else
    match ts[pos]
    case Bang =>
      var (v, p) := ParseUnary(ts, pos + 1, tags);
      (!v, p)
    case Open =>
      var (v, p) := ParseOr(ts, pos + 1, tags);
      (v, if Peek(ts, p, Close) then p + 1 else p)
    case Tag(n) => (n in tags && tags[n], pos + 1)
    case _ => (false, pos + 1)
  }

  class BuildParser {
    const tokens: seq<Token>
    const tags: map<string, bool>
    var pos: nat

    constructor (ts: seq<Token>, selected: map<string, bool>)
      ensures tokens == ts && tags == selected && pos == 0
    {
      tokens, tags, pos := ts, selected, 0;
    }

    method Or() returns (v: bool)
      requires pos <= |tokens|
      modifies this
      ensures (v, pos) == ParseOr(tokens, old(pos), tags) && old(pos) <= pos <= |tokens|
      decreases |tokens| - pos, 2
    {
      v := And();
      while Peek(tokens, pos, OrOr)
        invariant old(pos) <= pos <= |tokens|
        invariant OrLoop(tokens, v, pos, tags) == ParseOr(tokens, old(pos), tags)
        decreases |tokens| - pos
      {
        pos := pos + 1;
        var u := And();
        v := u || v;
      }
    }

    method And() returns (v: bool)
      requires pos <= |tokens|
      modifies this
      ensures (v, pos) == ParseAnd(tokens, old(pos), tags) && old(pos) <= pos <= |tokens|
      decreases |tokens| - pos, 1
    {
      v := Unary();
      while Peek(tokens, pos, AndAnd)
        invariant old(pos) <= pos <= |tokens|
        invariant AndLoop(tokens, v, pos, tags) == ParseAnd(tokens, old(pos), tags)
        decreases |tokens| - pos
      {
        pos := pos + 1;
        var u := Unary();
        v := u && v;
      }
    }

    method Unary() returns (v: bool)
      requires pos <= |tokens|
      modifies this
      ensures (v, pos) == ParseUnary(tokens, old(pos), tags) && old(pos) <= pos <= |tokens|
      decreases |tokens| - pos, 0
    {
      if Peek(tokens, pos, Bang) {
        pos := pos + 1;
        v := Unary();
        v := !v;
      } else if Peek(tokens, pos, Open) {
        pos := pos + 1;
        v := Or();
        if Peek(tokens, pos, Close) {
          pos := pos + 1;
        }
      } else if pos < |tokens| && tokens[pos].Tag? {
        v := tokens[pos].name in tags && tags[tokens[pos].name];
        pos := pos + 1;
      } else {
        if pos < |tokens| {
          pos := pos + 1;
        }
        v := false;
      }
    }
  }

  method EvalBuildExpr(text: string, tags: map<string, bool>) returns (v: bool)
    ensures v == ParseOr(Tokens(text), 0, tags).0
  {
    var tokens := Tokenize(text);
    var p := new BuildParser(tokens, tags);
    v := p.Or();
  }

  // ----- printing -----

  /** The operand positions, from loosest to tightest. */
  datatype Level = OrLevel | AndLevel | UnaryLevel

  /** Whether a formula can stand in a position without parentheses. */
  predicate Fits(f: Formula, at: Level) {
    match f
    case Or(_, _) => at.OrLevel?
    case And(_, _) => !at.UnaryLevel?
    case _ => true
  }

  function Printed(f: Formula, at: Level): seq<Token>
    decreases f, if Fits(f, at) then 0 else 1
  {
    if !Fits(f, at) then [Open] + Printed(f, OrLevel) + [Close] else
    match f
    case Atom(n) => [Tag(n)]
    case Not(g) => [Bang] + Printed(g, UnaryLevel)
    case And(l, r) => Printed(l, AndLevel) + [AndAnd] + Printed(r, AndLevel)
    case Or(l, r) => Printed(l, OrLevel) + [OrOr] + Printed(r, OrLevel)
  }

  function Text(f: Formula, at: Level): string
    decreases f, if Fits(f, at) then 0 else 1
  {
    if !Fits(f, at) then "(" + Text(f, OrLevel) + ")" else
    match f
    case Atom(n) => n
    case Not(g) => "!" + Text(g, UnaryLevel)
    case And(l, r) => Text(l, AndLevel) + " && " + Text(r, AndLevel)
    case Or(l, r) => Text(l, OrLevel) + " || " + Text(r, OrLevel)
  }

  // ----- parsing what was printed -----

  predicate At(ts: seq<Token>, pos: nat, code: seq<Token>) {
    pos + |code| <= |ts| && ts[pos..pos + |code|] == code
  }

  lemma {:induction false} AtSplit(ts: seq<Token>, pos: nat, a: seq<Token>, t: Token, b: seq<Token>)
    requires At(ts, pos, a + [t] + b)
    ensures At(ts, pos, a) && Peek(ts, pos + |a|, t) && At(ts, pos + |a| + 1, b)
  {
    var c := a + [t] + b;
    assert ts[pos..pos + |c|][..|a|] == ts[pos..pos + |a|];
    assert ts[pos..pos + |c|][|a| + 1..] == ts[pos + |a| + 1..pos + |c|];
    assert ts[pos + |a|] == c[|a|];
  }

  lemma {:induction false} UnaryBang(ts: seq<Token>, pos: nat, tags: map<string, bool>)
    requires Peek(ts, pos, Bang)
    ensures ParseUnary(ts, pos, tags) == (!ParseUnary(ts, pos + 1, tags).0, ParseUnary(ts, pos + 1, tags).1)
  {
  }

  lemma {:induction false} UnaryOpen(ts: seq<Token>, pos: nat, tags: map<string, bool>)
    requires Peek(ts, pos, Open) && Peek(ts, ParseOr(ts, pos + 1, tags).1, Close)
    ensures ParseUnary(ts, pos, tags) == (ParseOr(ts, pos + 1, tags).0, ParseOr(ts, pos + 1, tags).1 + 1)
  {
  }

  /** In the place of an operand of `!`. */
  lemma {:induction false} UnaryPrinted(f: Formula, ts: seq<Token>, pos: nat, tags: map<string, bool>)
    requires At(ts, pos, Printed(f, UnaryLevel))
    ensures pos <= |ts| && ParseUnary(ts, pos, tags) == (Value(f, tags), pos + |Printed(f, UnaryLevel)|)
    decreases f, if Fits(f, UnaryLevel) then 0 else 4
  {
    if f.Not? {
      hide At, ParseUnary;
      var code := Printed(f.f, UnaryLevel);
      assert [] + [Bang] + code == [Bang] + code;
      AtSplit(ts, pos, [], Bang, code);
      UnaryPrinted(f.f, ts, pos + 1, tags);
      UnaryBang(ts, pos, tags);
    } else if f.Atom? {
      assert [] + [Tag(f.name)] + [] == [Tag(f.name)];
      AtSplit(ts, pos, [], Tag(f.name), []);
    } else {
      ParenthesisPrinted(f, ts, pos, tags);
    }
  }

  lemma {:induction false} ParenthesisPrinted(f: Formula, ts: seq<Token>, pos: nat, tags: map<string, bool>)
    requires !Fits(f, UnaryLevel) && At(ts, pos, Printed(f, UnaryLevel))
    ensures pos <= |ts| && ParseUnary(ts, pos, tags) == (Value(f, tags), pos + |Printed(f, UnaryLevel)|)
    decreases f, 3
  {
    hide At, ParseUnary, ParseOr, Value;
    var code := Printed(f, OrLevel);
    assert [Open] + code + [Close] == [] + [Open] + (code + [Close]);
    AtSplit(ts, pos, [], Open, code + [Close]);
    assert code + [Close] == code + [Close] + [];
    AtSplit(ts, pos + 1, code, Close, []);
    OrPrinted(f, ts, pos + 1, tags);
    UnaryOpen(ts, pos, tags);
  }

  /** At the start of an and-expression: the loop over `&&` is left where the printed part ends. */
  lemma {:induction false} AndPrinted(f: Formula, ts: seq<Token>, pos: nat, tags: map<string, bool>)
    requires At(ts, pos, Printed(f, AndLevel))
    ensures var q := pos + |Printed(f, AndLevel)|;
      ParseAnd(ts, pos, tags) == AndLoop(ts, Value(f, tags), q, tags)
    decreases f, if f.Or? then 5 else 1
  {
    hide At, Peek, ParseUnary, AndLoop;
    if f.And? {
      var l, r := Printed(f.l, AndLevel), Printed(f.r, AndLevel);
      AtSplit(ts, pos, l, AndAnd, r);
      AndPrinted(f.l, ts, pos, tags);
      AndAgain(f.r, ts, Value(f.l, tags), pos + |l|, tags);
    } else {
      assert Printed(f, AndLevel) == Printed(f, UnaryLevel);
      UnaryPrinted(f, ts, pos, tags);
    }
  }

  /** In the loop over `&&`: a right operand joins what came before, however it nests. */
  lemma {:induction false} AndAgain(f: Formula, ts: seq<Token>, v: bool, pos: nat, tags: map<string, bool>)
    requires Peek(ts, pos, AndAnd) && At(ts, pos + 1, Printed(f, AndLevel))
    ensures var q := pos + 1 + |Printed(f, AndLevel)|;
      AndLoop(ts, v, pos, tags) == AndLoop(ts, v && Value(f, tags), q, tags)
    decreases f, if f.Or? then 5 else 1
  {
    hide At, Peek, ParseUnary;
    if f.And? {
      hide AndLoop;
      var l, r := Printed(f.l, AndLevel), Printed(f.r, AndLevel);
      AtSplit(ts, pos + 1, l, AndAnd, r);
      AndAgain(f.l, ts, v, pos, tags);
      AndAgain(f.r, ts, v && Value(f.l, tags), pos + 1 + |l|, tags);
    } else {
      assert Printed(f, AndLevel) == Printed(f, UnaryLevel);
      UnaryPrinted(f, ts, pos + 1, tags);
    }
  }

  /** At the start of an or-expression that no further operator follows. */
  lemma {:induction false} OrPrinted(f: Formula, ts: seq<Token>, pos: nat, tags: map<string, bool>)
    requires At(ts, pos, Printed(f, OrLevel))
    requires var q := pos + |Printed(f, OrLevel)|; !Peek(ts, q, AndAnd) && !Peek(ts, q, OrOr)
    ensures ParseOr(ts, pos, tags) == (Value(f, tags), pos + |Printed(f, OrLevel)|)
    decreases f, 2
  {
    hide ParseAnd, At;
    if f.Or? {
      hide At, Peek, ParseAnd, AndLoop;
      var l, r := Printed(f.l, OrLevel), Printed(f.r, OrLevel);
      AtSplit(ts, pos, l, OrOr, r);
      OrStart(f.l, ts, pos, tags);
      OrAgain(f.r, ts, Value(f.l, tags), pos + |l|, tags);
    } else {
      AndPrinted(f, ts, pos, tags);
    }
  }

  lemma {:induction false} OrStart(f: Formula, ts: seq<Token>, pos: nat, tags: map<string, bool>)
    requires At(ts, pos, Printed(f, OrLevel)) && !Peek(ts, pos + |Printed(f, OrLevel)|, AndAnd)
    ensures var q := pos + |Printed(f, OrLevel)|;
      ParseOr(ts, pos, tags) == OrLoop(ts, Value(f, tags), q, tags)
    decreases f, 2
  {
    hide At, OrLoop, ParseUnary;
    if f.Or? {
      hide ParseOr;
      var l, r := Printed(f.l, OrLevel), Printed(f.r, OrLevel);
      AtSplit(ts, pos, l, OrOr, r);
      OrStart(f.l, ts, pos, tags);
      OrAgain(f.r, ts, Value(f.l, tags), pos + |l|, tags);
    } else {
      AndPrinted(f, ts, pos, tags);
    }
  }

  /** In the loop over `||`. */
  lemma {:induction false} OrAgain(f: Formula, ts: seq<Token>, v: bool, pos: nat, tags: map<string, bool>)
    requires Peek(ts, pos, OrOr) && At(ts, pos + 1, Printed(f, OrLevel))
    requires !Peek(ts, pos + 1 + |Printed(f, OrLevel)|, AndAnd)
    ensures var q := pos + 1 + |Printed(f, OrLevel)|;
      OrLoop(ts, v, pos, tags) == OrLoop(ts, v || Value(f, tags), q, tags)
    decreases f, 2
  {
    hide At, ParseUnary, ParseAnd, OrLoop, AndLoop;
    if f.Or? {
      var l, r := Printed(f.l, OrLevel), Printed(f.r, OrLevel);
      AtSplit(ts, pos + 1, l, OrOr, r);
      OrAgain(f.l, ts, v, pos, tags);
      OrAgain(f.r, ts, v || Value(f.l, tags), pos + 1 + |l|, tags);
    } else {
      AndPrinted(f, ts, pos + 1, tags);
      AndLoopEnds(ts, Value(f, tags), pos + 1 + |Printed(f, OrLevel)|, tags);
      OrLoopGoes(ts, v, pos, tags);
      assert (Value(f, tags) || v) == (v || Value(f, tags));
    }
  }

  lemma {:induction false} AndLoopEnds(ts: seq<Token>, v: bool, pos: nat, tags: map<string, bool>)
    requires pos <= |ts| && !Peek(ts, pos, AndAnd)
    ensures AndLoop(ts, v, pos, tags) == (v, pos)
  {
  }

  lemma {:induction false} OrLoopGoes(ts: seq<Token>, v: bool, pos: nat, tags: map<string, bool>)
    requires Peek(ts, pos, OrOr)
    ensures var (u, p) := ParseAnd(ts, pos + 1, tags);
      OrLoop(ts, v, pos, tags) == OrLoop(ts, u || v, p, tags)
  {
    hide ParseAnd;
  }

  // ----- tokenizing what was printed -----

  predicate StartsClean(s: string) {
    s != "" ==> !IsTagChar(s[0])
  }

  lemma {:induction false} TagLengthOf(n: string, rest: string)
    requires (forall i :: 0 <= i < |n| ==> IsTagChar(n[i])) && StartsClean(rest)
    ensures TagLength(n + rest) == |n|
    decreases |n|
  {
    if n == "" {
      assert n + rest == rest;
    } else {
      assert (n + rest)[1..] == n[1..] + rest;
      TagLengthOf(n[1..], rest);
    }
  }

  lemma {:induction false} SymbolTokens(c: char, t: Token, rest: string)
    requires (c == '(' && t == Open) || (c == ')' && t == Close) || (c == '!' && t == Bang)
    ensures Tokens([c] + rest) == [t] + Tokens(rest)
  {
    assert ([c] + rest)[1..] == rest;
  }

  lemma {:induction false} SpaceTokens(rest: string)
    ensures Tokens([' '] + rest) == Tokens(rest)
  {
    assert ([' '] + rest)[1..] == rest;
  }

  lemma {:induction false} DoubleTokens(op: string, t: Token, rest: string)
    requires (op == "&&" && t == AndAnd) || (op == "||" && t == OrOr)
    ensures Tokens(op + rest) == [t] + Tokens(rest)
  {
    var s := op + rest;
    assert s[2..] == rest && op <= s && s[0] == op[0];
    assert "&&" <= s ==> s[0] == "&&"[0];
  }

  lemma {:induction false} OperatorTokens(op: string, t: Token, rest: string)
    requires (op == "&&" && t == AndAnd) || (op == "||" && t == OrOr)
    ensures Tokens([' '] + (op + ([' '] + rest))) == [t] + Tokens(rest)
  {
    hide Tokens;
    SpaceTokens(op + ([' '] + rest));
    DoubleTokens(op, t, [' '] + rest);
    SpaceTokens(rest);
  }

  lemma {:induction false} TextTokens(f: Formula, at: Level, rest: string)
    requires Tagged(f) && StartsClean(rest)
    ensures Tokens(Text(f, at) + rest) == Printed(f, at) + Tokens(rest)
    decreases f, if Fits(f, at) then 1 else 2
  {
    hide Tokens;
    if !Fits(f, at) {
      var inner, code := Text(f, OrLevel), Printed(f, OrLevel);
      assert Text(f, at) + rest == ['('] + (inner + ([')'] + rest));
      SymbolTokens('(', Open, inner + ([')'] + rest));
      TextTokens(f, OrLevel, [')'] + rest);
      SymbolTokens(')', Close, rest);
      assert [Open] + (code + ([Close] + Tokens(rest))) == ([Open] + code + [Close]) + Tokens(rest);
    } else {
      match f {
        case Atom(n) => AtomTokens(n, rest);
        case Not(g) =>
          var inner, code := Text(g, UnaryLevel), Printed(g, UnaryLevel);
          assert Text(f, at) + rest == ['!'] + (inner + rest);
          SymbolTokens('!', Bang, inner + rest);
          TextTokens(g, UnaryLevel, rest);
          assert [Bang] + (code + Tokens(rest)) == ([Bang] + code) + Tokens(rest);
        case And(_, _) => InfixTokens(f, at, rest);
        case Or(_, _) => InfixTokens(f, at, rest);
      }
    }
  }

  lemma {:induction false} AtomTokens(n: string, rest: string)
    requires IsTag(n) && StartsClean(rest)
    ensures Tokens(n + rest) == [Tag(n)] + Tokens(rest)
  {
    var s := n + rest;
    TagChars(n);
    assert s[0] == n[0] && IsTagChar(s[0]);
    TagLengthOf(n, rest);
    assert s[..|n|] == n && s[|n|..] == rest;
    assert s[0] != '&' && s[0] != '|';
  }

  /** A word of letters, digits and underscores is one tag, up to what is none. */
  lemma {:induction false} WordIsTag(n: string, rest: string)
    requires n != "" && forall i :: 0 <= i < |n| ==>
      'a' <= n[i] <= 'z' || 'A' <= n[i] <= 'Z' || '0' <= n[i] <= '9' || n[i] == '_'
    requires rest == "" || !TagCode(rest[0] as int)
    ensures Tokens(n + rest) == [Tag(n)] + Tokens(rest) && Tokens(n) == [Tag(n)]
  {
    hide Tokens, IsTagChar;
    if rest != "" { TagCharExact(rest[0]); }
    AtomTokens(n, rest);
    AtomTokens(n, "");
    assert n + "" == n && Tokens("") == [] by { NoTokens(); }
  }

  lemma {:induction false} NoTokens()
    ensures Tokens("") == []
  {
  }

  /** Everything else but parentheses and operators is passed over, character by character. */
  lemma {:induction false} OtherTokens(c: char, rest: string)
    requires !TagCode(c as int) && c != '(' && c != ')' && c != '!'
    requires (c == '&' || c == '|') ==> rest == "" || rest[0] != c
    ensures Tokens([c] + rest) == Tokens(rest)
  {
    hide IsTagChar;
    var s := [c] + rest;
    TagCharExact(c);
    assert s[0] == c && s[1..] == rest;
    assert !("&&" <= s) && !("||" <= s) by { NotDouble(c, rest); }
  }

  lemma {:induction false} NotDouble(c: char, rest: string)
    requires (c == '&' || c == '|') ==> rest == "" || rest[0] != c
    ensures !("&&" <= [c] + rest) && !("||" <= [c] + rest)
  {
    var s := [c] + rest;
    assert |s| > 1 ==> s[1] == rest[0];
    TwoFirst("&&", s);
    TwoFirst("||", s);
  }

  lemma {:induction false} TwoFirst(op: string, s: string)
    requires |op| == 2
    ensures op <= s <==> |s| >= 2 && s[0] == op[0] && s[1] == op[1]
  {
  }

  /** An operator with a space on either side. */
  lemma {:induction false} InfixTokens(f: Formula, at: Level, rest: string)
    requires (f.And? || f.Or?) && Fits(f, at) && Tagged(f) && StartsClean(rest)
    ensures Tokens(Text(f, at) + rest) == Printed(f, at) + Tokens(rest)
    decreases f, 0
  {
    hide Tokens;
    var (level, op, t) := if f.And? then (AndLevel, "&&", AndAnd) else (OrLevel, "||", OrOr);
    var l, r := Text(f.l, level), Text(f.r, level);
    var tail := [' '] + (op + ([' '] + (r + rest)));
    assert Text(f, at) + rest == l + tail;
    TextTokens(f.l, level, tail);
    OperatorTokens(op, t, r + rest);
    TextTokens(f.r, level, rest);
    var pl, pr := Printed(f.l, level), Printed(f.r, level);
    assert pl + ([t] + (pr + Tokens(rest))) == (pl + [t] + pr) + Tokens(rest);
  }

  /** Printing a formula with only the parentheses that precedence asks for and evaluating the text
      gives the formula's truth value. */
  lemma {:induction false} EvalPrinted(f: Formula, tags: map<string, bool>)
    requires Tagged(f)
    ensures ParseOr(Tokens(Text(f, OrLevel)), 0, tags) == (Value(f, tags), |Tokens(Text(f, OrLevel))|)
  {
    hide IsTagChar, Fits;
    var ts := Printed(f, OrLevel);
    TextTokens(f, OrLevel, "");
    assert Text(f, OrLevel) + "" == Text(f, OrLevel) && ts + [] == ts;
    assert ts[0..0 + |ts|] == ts;
    OrPrinted(f, ts, 0, tags);
  }

  // ----- texts that are no formula -----

  /** Without its closing parenthesis a formula has its value all the same. */
  lemma {:induction false} Unclosed(f: Formula, tags: map<string, bool>)
    ensures var ts := [Open] + Printed(f, OrLevel);
      ParseOr(ts, 0, tags) == (Value(f, tags), |ts|)
  {
    hide ParseUnary, Value, Printed;
    var code := Printed(f, OrLevel);
    var ts := [Open] + code;
    assert ts[1..1 + |code|] == code;
    OrPrinted(f, ts, 1, tags);
    UnaryUnclosed(ts, 0, tags);
    OrEnds(ts, 0, tags, Value(f, tags), |ts|);
  }

  lemma {:induction false} UnaryUnclosed(ts: seq<Token>, pos: nat, tags: map<string, bool>)
    requires Peek(ts, pos, Open) && ParseOr(ts, pos + 1, tags).1 == |ts|
    ensures ParseUnary(ts, pos, tags) == ParseOr(ts, pos + 1, tags)
  {
  }

  lemma {:induction false} OrEnds(ts: seq<Token>, pos: nat, tags: map<string, bool>, v: bool, q: nat)
    requires pos <= |ts| && ParseUnary(ts, pos, tags) == (v, q) && !Peek(ts, q, AndAnd) && !Peek(ts, q, OrOr)
    ensures ParseOr(ts, pos, tags) == (v, q)
  {
    hide ParseUnary;
    AndLoopEnds(ts, v, q, tags);
    assert ParseAnd(ts, pos, tags) == (v, q);
  }

  /** Anything but an operator behind a formula ends it, and the rest is not looked at. */
  lemma {:induction false} Trailing(f: Formula, t: Token, rest: seq<Token>, tags: map<string, bool>)
    requires t != AndAnd && t != OrOr
    ensures ParseOr(Printed(f, OrLevel) + [t] + rest, 0, tags) == (Value(f, tags), |Printed(f, OrLevel)|)
  {
    hide ParseOr, Value, Printed;
    var code := Printed(f, OrLevel);
    var ts := code + [t] + rest;
    assert ts[0..0 + |code|] == code;
    OrPrinted(f, ts, 0, tags);
  }

  /** What is missing counts as false: an operand at the end, or one that another token stands for, which
      is passed over. */
  lemma {:induction false} OperandMissing(ts: seq<Token>, pos: nat, tags: map<string, bool>)
    requires pos == |ts| || (pos < |ts| && ts[pos] in {Close, AndAnd, OrOr})
    ensures ParseUnary(ts, pos, tags) == (false, if pos == |ts| then pos else pos + 1)
  {
  }

  lemma {:induction false} AndMissing(f: Formula, tags: map<string, bool>)
    ensures var ts := Printed(f, AndLevel) + [AndAnd];
      ParseOr(ts, 0, tags) == (false, |ts|)
  {
    hide ParseUnary, Value, Printed, AndLoop;
    var code := Printed(f, AndLevel);
    var ts := code + [AndAnd];
    assert ts[0..0 + |code|] == code;
    AndPrinted(f, ts, 0, tags);
    OperandMissing(ts, |ts|, tags);
    AndLoopGoes(ts, Value(f, tags), |code|, tags, false, |ts|);
    AndLoopEnds(ts, false, |ts|, tags);
  }

  lemma {:induction false} AndLoopGoes(ts: seq<Token>, v: bool, pos: nat, tags: map<string, bool>, u: bool, p: nat)
    requires Peek(ts, pos, AndAnd) && ParseUnary(ts, pos + 1, tags) == (u, p)
    ensures AndLoop(ts, v, pos, tags) == AndLoop(ts, u && v, p, tags)
  {
    hide ParseUnary;
  }

  lemma {:induction false} OrMissing(f: Formula, tags: map<string, bool>)
    ensures var ts := Printed(f, OrLevel) + [OrOr];
      ParseOr(ts, 0, tags) == (Value(f, tags), |ts|)
  {
    hide ParseUnary, Value, Printed, ParseOr, ParseAnd, OrLoop;
    var code := Printed(f, OrLevel);
    var ts := code + [OrOr];
    assert ts[0..0 + |code|] == code;
    OrStart(f, ts, 0, tags);
    AndNothing(ts, tags);
    OrLoopGoes(ts, Value(f, tags), |code|, tags);
    OrLoopEnds(ts, Value(f, tags), |ts|, tags);
  }

  lemma {:induction false} AndNothing(ts: seq<Token>, tags: map<string, bool>)
    ensures ParseAnd(ts, |ts|, tags) == (false, |ts|)
  {
  }

  lemma {:induction false} OrLoopEnds(ts: seq<Token>, v: bool, pos: nat, tags: map<string, bool>)
    requires pos <= |ts| && !Peek(ts, pos, OrOr)
    ensures OrLoop(ts, v, pos, tags) == (v, pos)
  {
  }
}
