/** The lexer itself: a position in the text that moves on, its line and column, and the kind of the
    last token. */
module LexerState {
  import opened Lexical
  import opened Positions

  lemma {:induction false} AtDrop(s: string, p: nat, k: nat)
    ensures At(Drop(s, p), k) == At(s, p + k)
  {
  }

  lemma {:induction false} DropDrop(s: string, p: nat, k: nat)
    ensures Drop(Drop(s, p), k) == Drop(s, p + k)
  {
  }

  lemma {:induction false} DropFirst(s: string, p: nat)
    ensures At(s, p) != END ==> Drop(s, p) == [s[p]] + Drop(s, p + 1)
  {
  }

  class Lexer {
    const input: string
    var position: nat
    var readPosition: nat
    var ch: char
    var line: nat
    var col: nat
    var prevToken: string

    /** The text that is left. */
    ghost function Rest(): (r: string)
      reads `position
      ensures At(r, 0) == At(input, position)
    {
      AtDrop(input, position, 0);
      Drop(input, position)
    }

    ghost predicate Valid()
      reads `position, `readPosition, `ch
    {
      readPosition == position + 1 && ch == At(input, position)
    }

    ghost function Here(): Spot
      reads `line, `col
    {
      Spot(line, col)
    }

    /** Lines and columns have been counted right since the character `p` at `at`. */
    ghost predicate Counted(at: Spot, p: nat)
      reads `position, `line, `col
    {
      p <= position && Here() == Moved(input, at, p, position)
    }

    constructor (text: string)
      ensures Valid() && input == text && Rest() == text && prevToken == "ILLEGAL"
      ensures position == 0 && Here() == FIRST
    {
      input, position, readPosition, prevToken := text, 0, 1, "ILLEGAL";
      ch := At(text, 0);
      line, col := 1, 1;
    }

    method ReadChar()
      requires Valid()
      modifies `position, `readPosition, `ch, `col
      ensures Valid() && col == old(col) + 1 && position == old(position) + 1 && Rest() == Drop(old(Rest()), 1)
      ensures old(ch) != END ==> old(Rest()) == [old(ch)] + Rest()
      ensures forall at, p :: old(Counted(at, p)) && old(ch) != '\n' ==> Counted(at, p)
    {
      hide Moved, Drop;
      DropDrop(input, position, 1);
      DropFirst(input, position);
      forall at, p | Counted(at, p) && ch != '\n'
        ensures Moved(input, at, p, position + 1) == Slid(Here(), 1)
      {
        MovedStep(input, at, p, position);
      }
      ch := if readPosition >= |input| then END else input[readPosition];
      position := readPosition;
      readPosition := readPosition + 1;
      col := col + 1;
    }

    method ReadPair()
      requires Valid() && ch !in "\n\0" && PeekAhead(1) !in "\n\0"
      modifies `position, `readPosition, `ch, `line, `col
      ensures Valid() && |old(Rest())| >= 2 && Rest() == old(Rest())[2..]
      ensures position == old(position) + 2 && Counted(old(Here()), old(position))
    {
      hide Moved;
      MovedNone(input, Here(), position);
      ReadChar();
      ReadChar();
    }

    /** Moves over a character, line breaks included. */
    method ReadAny()
      requires Valid() && ch != END
      modifies `position, `readPosition, `ch, `line, `col
      ensures Valid() && position == old(position) + 1
      ensures old(Rest()) == [old(ch)] + Rest() && Rest() == Drop(old(Rest()), 1)
      ensures forall at, p :: old(Counted(at, p)) ==> Counted(at, p)
    {
      hide Moved;
      forall at, p | Counted(at, p)
        ensures Moved(input, at, p, position + 1) == Step(Here(), ch)
      {
        MovedStep(input, at, p, position);
      }
      if ch == '\n' {
        line := line + 1;
        col := 0;
      }
      ReadChar();
    }

    function PeekAhead(offset: nat): (c: char)
      requires Valid()
      reads `position, `readPosition, `ch
      ensures c == At(Rest(), offset)
    {
      AtDrop(input, position, offset);
      if position + offset >= |input| then END else input[position + offset]
    }

    method SkipSpaces()
      requires Valid()
      modifies `position, `readPosition, `ch, `line, `col
      ensures Valid() && Rest() == SkipBlanks(old(Rest()))
      ensures Counted(old(Here()), old(position))
    {
      hide Moved, SkipBlanks, Drop;
      MovedNone(input, Here(), position);
      while ch == ' ' || ch == '\t' || ch == '\r'
        invariant Valid() && SkipBlanks(Rest()) == SkipBlanks(old(Rest()))
        invariant Counted(old(Here()), old(position))
        decreases |input| - position
      {
        BlanksStep(Rest());
        ReadChar();
      }
      BlanksStep(Rest());
    }

    method SkipSingleLineComment()
      requires Valid()
      modifies `position, `readPosition, `ch, `line, `col
      ensures Valid() && Rest() == SkipLine(old(Rest()))
      ensures Counted(old(Here()), old(position))
    {
      hide Moved, SkipLine, Drop;
      MovedNone(input, Here(), position);
      while ch != '\n' && ch != END
        invariant Valid() && SkipLine(Rest()) == SkipLine(old(Rest()))
        invariant Counted(old(Here()), old(position))
        decreases |input| - position
      {
        LineStep(Rest());
        ReadChar();
      }
      LineStep(Rest());
    }

    method SkipMultiLineComment() returns (hasNewline: bool)
      requires Valid() && "/*" <= Rest()
      modifies `position, `readPosition, `ch, `line, `col
      ensures Valid() && (hasNewline, Rest()) == SkipBlock(old(Rest())[2..])
      ensures Counted(old(Here()), old(position))
    {
      hide SkipBlock, Moved;
      assert PeekAhead(1) == At(Rest(), 1);
      ReadPair();
      ghost var p := position;
      hasNewline := SkipComment();
      MovedTrans(input, old(Here()), old(position), p, position);
    }

    /** From behind the start of the comment. */
    method SkipComment() returns (hasNewline: bool)
      requires Valid()
      modifies `position, `readPosition, `ch, `line, `col
      ensures Valid() && (hasNewline, Rest()) == SkipBlock(old(Rest()))
      ensures Counted(old(Here()), old(position))
    {
      hide SkipBlock, Moved, Drop;
      hasNewline := false;
      ghost var body := Rest();
      MovedNone(input, Here(), position);
      while ch != END && !(ch == '*' && PeekAhead(1) == '/')
        invariant Valid() && SkipBlock(body) == (hasNewline || SkipBlock(Rest()).0, SkipBlock(Rest()).1)
        invariant Counted(old(Here()), old(position))
        decreases |input| - position
      {
        BlockStep(Rest());
        if ch == '\n' {
          hasNewline := true;
        }
        ReadAny();
      }
      BlockEnd(Rest());
      if ch != END {
        ghost var p := position;
        DropTwo(Rest());
        ReadPair();
        MovedTrans(input, old(Here()), old(position), p, position);
      }
    }

    method ReadRun(accept: char -> bool)
      requires Valid() && !accept(END) && !accept('\n')
      modifies `position, `readPosition, `ch, `line, `col
      ensures Valid() && position == old(position) + Run(old(Rest()), accept)
      ensures Counted(old(Here()), old(position))
    {
      hide Moved, Run, Drop;
      MovedNone(input, Here(), position);
      while accept(ch)
        invariant Valid() && old(position) <= position
        invariant Run(old(Rest()), accept) == position - old(position) + Run(Rest(), accept)
        invariant Counted(old(Here()), old(position))
        decreases |input| - position
      {
        RunStep(Rest(), accept);
        ReadChar();
      }
      RunStep(Rest(), accept);
    }

    method ReadIdentifier() returns (literal: string)
      requires Valid() && !AtEnd(Rest())
      modifies `position, `readPosition, `ch, `line, `col
      ensures Valid() && var n := Run(old(Rest()), IsWordChar);
        literal == old(Rest())[..n] && Rest() == old(Rest())[n..]
      ensures Counted(old(Here()), old(position))
    {
      var start := position;
      ReadRun(IsWordChar);
      literal := input[start..position];
    }

    method ReadNumber() returns (literal: string, kind: string)
      requires Valid() && IsDigit(ch)
      modifies `position, `readPosition, `ch, `line, `col
      ensures Valid() && old(Rest()) != "" && var (n, k) := Number(old(Rest()));
        literal == old(Rest())[..n] && kind == k && Rest() == old(Rest())[n..]
      ensures Counted(old(Here()), old(position))
    {
      hide Number;
      var start := position;
      kind := ReadDigits();
      literal := input[start..position];
    }

    /** Moves behind a number and gives its kind. */
    method ReadDigits() returns (kind: string)
      requires Valid() && IsDigit(ch)
      modifies `position, `readPosition, `ch, `line, `col
      ensures Valid() && old(Rest()) != "" && position == old(position) + Number(old(Rest())).0 &&
        kind == Number(old(Rest())).1
      ensures Counted(old(Here()), old(position))
    {
      hide Run, Decimal, IsHexPart, IsBinaryPart, IsOctalPart, Number;
      NumberCases(Rest());
      assert !IsHexPart(END) && !IsBinaryPart(END) && !IsOctalPart(END) by { NoDigit(); }
      assert !IsHexPart('\n') && !IsBinaryPart('\n') && !IsOctalPart('\n') by { NoDigit(); }
      var next := PeekAhead(1);
      kind := "INT";
      if ch == '0' && (next == 'x' || next == 'X') {
        ReadBased(IsHexPart);
      } else if ch == '0' && (next == 'b' || next == 'B') {
        ReadBased(IsBinaryPart);
      } else if ch == '0' && (next == 'o' || next == 'O') {
        ReadBased(IsOctalPart);
      } else {
        var isFloat := ReadDecimal();
        kind := if isFloat then "FLOAT" else "INT";
      }
    }

    /** A prefix of two characters and the digits behind it. */
    method ReadBased(accept: char -> bool)
      requires Valid() && ch !in "\n\0" && PeekAhead(1) !in "\n\0" && !accept(END) && !accept('\n')
      modifies `position, `readPosition, `ch, `line, `col
      ensures Valid() && |old(Rest())| >= 2 && position == old(position) + 2 + Run(old(Rest())[2..], accept)
      ensures Counted(old(Here()), old(position))
    {
      hide Run, Moved;
      ReadPair();
      ghost var p := position;
      ReadRun(accept);
      MovedTrans(input, old(Here()), old(position), p, position);
    }

    method ReadDecimal() returns (isFloat: bool)
      requires Valid()
      modifies `position, `readPosition, `ch, `line, `col
      ensures Valid() && position == old(position) + Decimal(old(Rest()), false).0 &&
        isFloat == Decimal(old(Rest()), false).1
      ensures Counted(old(Here()), old(position))
    {
      hide Moved, Decimal, Drop;
      isFloat := false;
      MovedNone(input, Here(), position);
      while IsDigit(ch) || ch == '_' || (ch == '.' && !isFloat && IsDigit(PeekAhead(1)))
        invariant Valid() && old(position) <= position
        invariant Decimal(old(Rest()), false) ==
          (position - old(position) + Decimal(Rest(), isFloat).0, Decimal(Rest(), isFloat).1)
        invariant Counted(old(Here()), old(position))
        decreases |input| - position
      {
        DecimalStep(Rest(), isFloat);
        if ch == '.' {
          isFloat := true;
        }
        ReadChar();
      }
      DecimalStep(Rest(), isFloat);
    }

    /** Reads a string or character literal up to what ends it. */
    method ReadQuoted(quote: char) returns (literal: string)
      requires Valid() && (quote == '"' || quote == '\'') && ch != END
      modifies `position, `readPosition, `ch, `line, `col
      ensures Valid() && (literal, Rest()) == Quoted(old(Rest())[1..], quote)
      ensures old(position) <= position && Here() == Slid(old(Here()), position - old(position))
    {
      hide Quoted, Drop, Unescaped;
      ghost var body := old(Rest())[1..];
      literal := "";
      ReadChar();
      assert body == Rest() && literal + Quoted(body, quote).0 == Quoted(body, quote).0;
      while !Ends(ch, quote)
        invariant Valid()
        invariant Quoted(body, quote) == (literal + Quoted(Rest(), quote).0, Quoted(Rest(), quote).1)
        invariant old(position) <= position && Here() == Slid(old(Here()), position - old(position))
        decreases |input| - position
      {
        QuotedStep(Rest(), quote, literal);
        if ch == '\\' {
          DropDrop(Rest(), 1, 1);
          AtDrop(Rest(), 1, 0);
          ReadChar();
          literal := literal + Unescaped(ch, quote);
        } else {
          literal := literal + [ch];
        }
        ReadChar();
      }
      assert Quoted(Rest(), quote) == ("", Rest()) by { QuotedEnd(Rest(), quote); }
      assert literal + "" == literal;
    }

    method ReadRawString() returns (literal: string)
      requires Valid() && ch == '`'
      modifies `position, `readPosition, `ch, `line, `col
      ensures Valid() && (literal, Rest()) == Raw(old(Rest())[1..]) && ch in "`\0"
      ensures Counted(old(Here()), old(position))
    {
      hide Raw, Drop, Moved;
      ghost var body := old(Rest())[1..];
      literal := "";
      MovedNone(input, Here(), position);
      ReadChar();
      assert body == Rest() && literal + Raw(body).0 == Raw(body).0;
      while ch != '`' && ch != END
        invariant Valid() && Raw(body) == (literal + Raw(Rest()).0, Raw(Rest()).1)
        invariant Counted(old(Here()), old(position))
        decreases |input| - position
      {
        RawStep(Rest(), literal);
        literal := literal + [ch];
        ReadAny();
      }
      assert Raw(Rest()) == ("", Rest()) by { RawEnd(Rest()); }
      assert literal + "" == literal;
    }

    method SkipBlanksAndLineComment()
      requires Valid()
      modifies `position, `readPosition, `ch, `line, `col
      ensures Valid() && Rest() == SkipPlain(old(Rest()))
      ensures Counted(old(Here()), old(position))
    {
      hide SkipBlanks, SkipLine, Moved;
      SkipSpaces();
      ghost var p := position;
      if ch == '/' && PeekAhead(1) == '/' {
        SkipSingleLineComment();
        MovedTrans(input, old(Here()), old(position), p, position);
      }
    }

    /** Skips to the next token; whether a line break on the way stands for a semicolon. The place is
        that of the token: of the line break or comment for a semicolon. */
    method SkipToToken() returns (semi: bool, at: Spot, ghost start: nat)
      requires Valid()
      modifies `position, `readPosition, `ch, `line, `col
      ensures Valid() && SkipTrivia(old(Rest()), prevToken) == if semi then Semi(Rest()) else Start(Rest())
      ensures Counted(old(Here()), old(position)) && old(position) <= start <= position
      ensures at == Moved(input, old(Here()), old(position), start)
      ensures Begins(Drop(input, start), prevToken)
      ensures SkipTrivia(old(Rest()), prevToken) == SkipTrivia(Drop(input, start), prevToken)
      ensures !semi ==> start == position
    {
      hide SkipBlock, CanInsertSemi, SkipPlain, SkipTrivia, Moved;
      MovedNone(input, Here(), position);
      while true
        invariant Valid() && SkipTrivia(old(Rest()), prevToken) == SkipTrivia(Rest(), prevToken)
        invariant Counted(old(Here()), old(position))
        decreases |Rest()|
      {
        TriviaStep(Rest(), prevToken);
        ghost var p, first := position, Rest();
        SkipBlanksAndLineComment();
        MovedTrans(input, old(Here()), old(position), p, position);
        PlainTwice(first, prevToken);
        start, at := position, Spot(line, col);
        if ch == '/' && PeekAhead(1) == '*' {
          var hasNewline := SkipMultiLineComment();
          MovedTrans(input, old(Here()), old(position), start, position);
          if hasNewline && CanInsertSemi(prevToken) {
            return true, at, start;
          }
        } else if ch == '\n' {
          ReadAny();
          if CanInsertSemi(prevToken) {
            return true, at, start;
          }
        } else {
          return false, at, start;
        }
      }
    }

    /** The next token and its place. Lines and columns are counted right from there to the end of the
        token unless it is a string or character literal, in which they go on as if it had no line
        break. */
    method NextToken() returns (t: Token, at: Spot, ghost start: nat)
      requires Valid()
      modifies this
      ensures Valid() && (t, Rest()) == Next(old(Rest()), old(prevToken)) && prevToken == t.kind
      ensures old(position) <= start <= position && Begins(Drop(input, start), old(prevToken))
      ensures SkipTrivia(old(Rest()), old(prevToken)) == SkipTrivia(Drop(input, start), old(prevToken))
      ensures at == Moved(input, old(Here()), old(position), start)
      ensures Here() == After(input, old(Here()), old(position), start, position)
    {
      hide SkipTrivia, Scan, CanInsertSemi, Moved, Begins;
      var semi;
      semi, at, start := SkipToToken();
      MovedTrans(input, old(Here()), old(position), start, position);
      if semi {
        t := SEMICOLON;
        NoQuote(Drop(input, start), prevToken);
        AtDrop(input, start, 0);
      } else if ch == END {
        t := if CanInsertSemi(prevToken) then SEMICOLON else EOF;
      } else {
        NoBreak(Rest(), prevToken);
        t := ReadToken();
      }
      prevToken := t.kind;
    }

    /** The token that starts here. */
    method ReadToken() returns (t: Token)
      requires Valid() && ch !in "\n\0"
      modifies `position, `readPosition, `ch, `line, `col
      ensures Valid() && !AtEnd(old(Rest())) && (t, Rest()) == Scan(old(Rest()))
      ensures old(position) <= position
      ensures Here() == if old(ch) in "\"'" then Slid(old(Here()), position - old(position))
                        else Moved(input, old(Here()), old(position), position)
    {
      hide Operator, Scan, Moved;
      var op := Operator(ch, PeekAhead(1), PeekAhead(2));
      OperatorPlain(ch, PeekAhead(1), PeekAhead(2));
      if ch == '_' && "__asm__" <= input[position..] {
        t := ReadAsm();
      } else if op != "" {
        t := ReadOperator(op);
      } else if ch == '"' || ch == '\'' {
        t := ReadQuotedToken();
      } else if ch == '`' {
        t := ReadRawToken();
      } else {
        t := ReadWord();
      }
    }

    method ReadAsm() returns (t: Token)
      requires Valid() && ch == '_' && "__asm__" <= Rest()
      modifies `position, `readPosition, `ch, `line, `col
      ensures Valid() && !AtEnd(old(Rest())) && (t, Rest()) == Scan(old(Rest()))
      ensures Counted(old(Here()), old(position))
    {
      hide Operator, Quoted, Raw, Run, Number, Keyword, Moved;
      forall k | position <= k < position + 7 ensures At(input, k) != '\n' {
        AtDrop(input, position, k - position);
        assert Rest()[k - position] == "__asm__"[k - position];
      }
      MovedExact(input, Here(), position, position + 7);
      ReadMany(7);
      t := Token("INLINEASM", "__asm__");
    }

    method ReadOperator(op: string) returns (t: Token)
      requires Valid() && op != "" && op == Operator(ch, PeekAhead(1), PeekAhead(2))
      requires ch != END && !("__asm__" <= Rest())
      modifies `position, `readPosition, `ch, `line, `col
      ensures Valid() && !AtEnd(old(Rest())) && (t, Rest()) == Scan(old(Rest()))
      ensures Counted(old(Here()), old(position))
    {
      hide Operator, Quoted, Raw, Run, Number, Keyword, Moved;
      OperatorPlain(ch, PeekAhead(1), PeekAhead(2));
      assert At(input, position) == ch;
      AtDrop(input, position, 1);
      AtDrop(input, position, 2);
      MovedExact(input, Here(), position, position + |op|);
      ReadMany(|op|);
      t := Token(op, op);
    }

    /** A word, a number or a character that starts no token. */
    method ReadWord() returns (t: Token)
      requires Valid() && ch !in "\n\0\"'`" && !("__asm__" <= Rest())
      requires Operator(ch, PeekAhead(1), PeekAhead(2)) == ""
      modifies `position, `readPosition, `ch, `line, `col
      ensures Valid() && !AtEnd(old(Rest())) && (t, Rest()) == Scan(old(Rest()))
      ensures Counted(old(Here()), old(position))
    {
      hide Operator, Quoted, Raw, Run, Number, Keyword, Moved;
      if IsLetter(ch) {
        var literal := ReadIdentifier();
        t := Token(Keyword(literal), literal);
      } else if IsDigit(ch) {
        var literal, kind := ReadNumber();
        t := Token(kind, literal);
      } else {
        t := Token("ILLEGAL", Character(ch));
        MovedNone(input, Here(), position);
        ReadChar();
      }
    }

    method ReadRawToken() returns (t: Token)
      requires Valid() && ch == '`'
      modifies `position, `readPosition, `ch, `line, `col
      ensures Valid() && !AtEnd(old(Rest())) && (t, Rest()) == Scan(old(Rest()))
      ensures Counted(old(Here()), old(position))
    {
      hide Raw, Moved, Scan, Drop;
      ScanRaw(Rest());
      var text := ReadRawString();
      ReadChar();
      t := Token("STRING", text);
    }

    method ReadQuotedToken() returns (t: Token)
      requires Valid() && ch in "\"'"
      modifies `position, `readPosition, `ch, `line, `col
      ensures Valid() && !AtEnd(old(Rest())) && (t, Rest()) == Scan(old(Rest()))
      ensures old(position) <= position && Here() == Slid(old(Here()), position - old(position))
    {
      hide Quoted, Scan, Drop;
      ScanQuoted(Rest());
      var quote := ch;
      var text := ReadQuoted(quote);
      if quote == '"' {
        ReadChar();
        t := Token("STRING", text);
      } else {
        if ch == '\'' {
          ReadChar();
        }
        t := Token("CHAR", text);
      }
    }

    method ReadMany(n: nat)
      requires Valid() && Breaks(input, position, position + n) == 0
      modifies `position, `readPosition, `ch, `line, `col
      ensures Valid() && Rest() == Drop(old(Rest()), n)
      ensures Counted(old(Here()), old(position)) && old(position) <= position
    {
      for i := 0 to n
        invariant Valid() && position == old(position) + i && Here() == Slid(old(Here()), i)
      {
        ReadChar();
      }
      SlidExact(input, old(Here()), old(position), position);
      DropDrop(input, old(position), n);
    }
  }

  /** A token or the semicolon that a line break stands for begins here, with nothing to skip before. */
  ghost predicate Begins(s: string, prev: string) {
    && SkipPlain(s) == s
    && (if "/*" <= s then SkipBlock(s[2..]).0 && CanInsertSemi(prev)
        else At(s, 0) == '\n' ==> CanInsertSemi(prev))
  }

  lemma {:induction false} ScanQuoted(s: string)
    requires At(s, 0) in "\"'"
    ensures !AtEnd(s)
    ensures s[0] == '"' ==>
      var (text, rest) := Quoted(s[1..], '"'); Scan(s) == (Token("STRING", text), Drop(rest, 1))
    ensures s[0] == '\'' ==>
      var (text, rest) := Quoted(s[1..], '\'');
      Scan(s) == (Token("CHAR", text), if At(rest, 0) == '\'' then Drop(rest, 1) else rest)
  {
    hide Quoted;
    assert OperatorAt(s) == "";
  }

  lemma {:induction false} ScanRaw(s: string)
    requires At(s, 0) == '`'
    ensures !AtEnd(s)
    ensures var (text, rest) := Raw(s[1..]); Scan(s) == (Token("STRING", text), Drop(rest, 1))
  {
    hide Raw;
    assert OperatorAt(s) == "";
  }

  lemma {:induction false} DropTwo(s: string)
    requires |s| >= 2
    ensures Drop(s, 2) == s[2..]
  {
  }

  lemma {:induction false} BlanksStep(s: string)
    ensures SkipBlanks(s) == if At(s, 0) in " \t\r" then SkipBlanks(Drop(s, 1)) else s
  {
  }

  lemma {:induction false} LineStep(s: string)
    ensures SkipLine(s) == if At(s, 0) in "\n\0" then s else SkipLine(Drop(s, 1))
  {
  }

  lemma {:induction false} RunStep(s: string, accept: char -> bool)
    requires !accept(END)
    ensures Run(s, accept) == if accept(At(s, 0)) then 1 + Run(Drop(s, 1), accept) else 0
  {
  }

  lemma {:induction false} DecimalStep(s: string, point: bool)
    ensures var c, t := At(s, 0), Drop(s, 1);
      Decimal(s, point) ==
        if IsDigit(c) || c == '_' then (Decimal(t, point).0 + 1, Decimal(t, point).1)
        else if c == '.' && !point && IsDigit(At(s, 1)) then (Decimal(t, true).0 + 1, Decimal(t, true).1)
        else (0, point)
  {
  }

  lemma {:induction false} QuotedEnd(s: string, quote: char)
    requires Ends(At(s, 0), quote)
    ensures Quoted(s, quote) == ("", s)
  {
  }

  lemma {:induction false} RawEnd(s: string)
    requires At(s, 0) in "`\0"
    ensures Raw(s) == ("", s)
  {
  }

  /** A step through a literal, of which `text` has been read. */
  lemma {:induction false} QuotedStep(s: string, quote: char, text: string)
    requires !Ends(At(s, 0), quote)
    ensures var more := if s[0] == '\\' then Quoted(Drop(s, 2), quote) else Quoted(Drop(s, 1), quote);
      var c := if s[0] == '\\' then Unescaped(At(s, 1), quote) else [s[0]];
      (text + Quoted(s, quote).0, Quoted(s, quote).1) == ((text + c) + more.0, more.1)
  {
    var more := if s[0] == '\\' then Quoted(Drop(s, 2), quote) else Quoted(Drop(s, 1), quote);
    var c := if s[0] == '\\' then Unescaped(At(s, 1), quote) else [s[0]];
    assert Quoted(s, quote) == (c + more.0, more.1);
    assert text + (c + more.0) == (text + c) + more.0;
  }

  lemma {:induction false} RawStep(s: string, text: string)
    requires At(s, 0) !in "`\0"
    ensures (text + Raw(s).0, Raw(s).1) == ((text + [s[0]]) + Raw(Drop(s, 1)).0, Raw(Drop(s, 1)).1)
  {
    var more := Raw(Drop(s, 1));
    assert Raw(s) == ([s[0]] + more.0, more.1);
    assert text + ([s[0]] + more.0) == (text + [s[0]]) + more.0;
  }

  lemma {:induction false} BlockStep(s: string)
    requires !AtEnd(s) && !(At(s, 0) == '*' && At(s, 1) == '/')
    ensures SkipBlock(s) == (s[0] == '\n' || SkipBlock(Drop(s, 1)).0, SkipBlock(Drop(s, 1)).1)
  {
  }

  lemma {:induction false} BlockEnd(s: string)
    requires AtEnd(s) || (At(s, 0) == '*' && At(s, 1) == '/')
    ensures SkipBlock(s) == (false, if AtEnd(s) then s else Drop(s, 2))
  {
  }

  /** What has been skipped need not be skipped again. */
  lemma {:induction false} PlainTwice(s: string, prev: string)
    ensures SkipPlain(SkipPlain(s)) == SkipPlain(s) && SkipTrivia(SkipPlain(s), prev) == SkipTrivia(s, prev)
  {
    hide SkipPlain, SkipBlock, CanInsertSemi, SkipTrivia;
    PlainStays(s);
    TriviaStep(s, prev);
    TriviaStep(SkipPlain(s), prev);
  }

  lemma {:induction false} PlainStays(s: string)
    ensures SkipPlain(SkipPlain(s)) == SkipPlain(s)
  {
    hide SkipLine;
    NoBlanks(s);
    var r := SkipBlanks(s);
    if "//" <= r { assert SkipBlanks(SkipLine(r)) == SkipLine(r); }
  }

  lemma {:induction false} NoBlanks(s: string)
    ensures At(SkipBlanks(s), 0) !in " \t\r" && SkipBlanks(SkipBlanks(s)) == SkipBlanks(s)
  {
    if At(s, 0) in " \t\r" { NoBlanks(s[1..]); }
  }

  /** Only a line break or a comment stands for a semicolon. */
  lemma {:induction false} NoQuote(s: string, prev: string)
    requires Begins(s, prev) && SkipTrivia(s, prev).Semi?
    ensures At(s, 0) in "/\n"
  {
    hide SkipPlain, SkipBlock, CanInsertSemi, SkipTrivia;
    TriviaStep(s, prev);
  }

  lemma {:induction false} NoBreak(s: string, prev: string)
    requires Begins(s, prev) && SkipTrivia(s, prev).Start?
    ensures At(s, 0) != '\n'
  {
    hide SkipPlain, SkipBlock, CanInsertSemi, SkipTrivia;
    TriviaStep(s, prev);
  }

  lemma {:induction false} NoDigit()
    ensures !IsHexPart(END) && !IsBinaryPart(END) && !IsOctalPart(END)
    ensures !IsHexPart('\n') && !IsBinaryPart('\n') && !IsOctalPart('\n')
  {
  }

  lemma {:induction false} NumberCases(s: string)
    requires s != "" && IsDigit(s[0])
    ensures Number(s) ==
      if s[0] == '0' && (At(s, 1) == 'x' || At(s, 1) == 'X') then (2 + Run(s[2..], IsHexPart), "INT")
      else if s[0] == '0' && (At(s, 1) == 'b' || At(s, 1) == 'B') then (2 + Run(s[2..], IsBinaryPart), "INT")
      else if s[0] == '0' && (At(s, 1) == 'o' || At(s, 1) == 'O') then (2 + Run(s[2..], IsOctalPart), "INT")
      else (Decimal(s, false).0, if Decimal(s, false).1 then "FLOAT" else "INT")
  {
    hide Run, Decimal, IsHexPart, IsBinaryPart, IsOctalPart;
  }

  /** One round of skipping, with the plain part already skipped. */
  lemma {:induction false} TriviaStep(s: string, prev: string)
    ensures var p := SkipPlain(s);
      SkipTrivia(s, prev) ==
      if At(p, 0) == '/' && At(p, 1) == '*' then
        (if SkipBlock(p[2..]).0 && CanInsertSemi(prev) then Semi(SkipBlock(p[2..]).1)
         else SkipTrivia(SkipBlock(p[2..]).1, prev))
      else if At(p, 0) == '\n' then
        (if CanInsertSemi(prev) then Semi(Drop(p, 1)) else SkipTrivia(Drop(p, 1), prev))
      else Start(p)
  {
    hide SkipPlain, SkipBlock, CanInsertSemi;
  }
}
