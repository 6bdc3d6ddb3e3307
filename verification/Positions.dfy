/** Lines and columns of a text, both counted from 1. */
module Positions {
  import opened Lexical

  datatype Spot = Spot(line: nat, col: nat)

  const FIRST := Spot(1, 1)

  function Step(at: Spot, c: char): Spot {
    if c == '\n' then Spot(at.line + 1, 1) else Spot(at.line, at.col + 1)
  }

  /** The place of the character `q` when `at` is that of the character `p`. */
  function Moved(s: string, at: Spot, p: nat, q: nat): Spot
    requires p <= q
    decreases q - p
  {
    if p == q then at else Step(Moved(s, at, p, q - 1), At(s, q - 1))
  }

  /** The place where the same line would have gone on. */
  function Slid(at: Spot, n: nat): Spot {
    Spot(at.line, at.col + n)
  }

  /** The number of line breaks from `p` up to `q`. */
  function Breaks(s: string, p: nat, q: nat): nat
    requires p <= q
    decreases q - p
  {
    if p == q then 0 else Breaks(s, p, q - 1) + if At(s, q - 1) == '\n' then 1 else 0
  }

  lemma {:induction false} MovedTrans(s: string, at: Spot, p: nat, q: nat, r: nat)
    requires p <= q <= r
    ensures Moved(s, Moved(s, at, p, q), q, r) == Moved(s, at, p, r)
    ensures Breaks(s, p, q) + Breaks(s, q, r) == Breaks(s, p, r)
    decreases r - q
  {
    if q < r { MovedTrans(s, at, p, q, r - 1); }
  }

  lemma {:induction false} MovedNone(s: string, at: Spot, p: nat)
    ensures Moved(s, at, p, p) == at
  {
  }

  lemma {:induction false} MovedStep(s: string, at: Spot, p: nat, q: nat)
    requires p <= q
    ensures Moved(s, at, p, q + 1) == Step(Moved(s, at, p, q), At(s, q))
  {
  }

  /** Lines count the breaks; a column is the distance from the last break, or goes on where there is
      none. */
  lemma {:induction false} MovedExact(s: string, at: Spot, p: nat, q: nat)
    requires p <= q
    ensures Moved(s, at, p, q).line == at.line + Breaks(s, p, q)
    ensures Breaks(s, p, q) == 0 <==> forall k :: p <= k < q ==> At(s, k) != '\n'
    ensures Breaks(s, p, q) == 0 ==> Moved(s, at, p, q) == Slid(at, q - p)
    ensures forall b :: p <= b < q && At(s, b) == '\n' && Breaks(s, b + 1, q) == 0 ==>
      Moved(s, at, p, q).col == q - b
    decreases q - p
  {
    if p < q {
      MovedExact(s, at, p, q - 1);
      forall b | p <= b < q && At(s, b) == '\n' && Breaks(s, b + 1, q) == 0
        ensures Moved(s, at, p, q).col == q - b
      {
        if b < q - 1 { assert Breaks(s, b + 1, q - 1) == 0; }
      }
    }
  }

  /** Going on in the same line is right exactly when there is no line break. */
  lemma {:induction false} SlidExact(s: string, at: Spot, p: nat, q: nat)
    requires p <= q
    ensures Slid(at, q - p) == Moved(s, at, p, q) <==> Breaks(s, p, q) == 0
  {
    MovedExact(s, at, p, q);
  }

  /** Where the lexer takes itself to be at `q` after a token that starts at `start`, from the place
      `at` at `p`. */
  function After(s: string, at: Spot, p: nat, start: nat, q: nat): Spot
    requires p <= start <= q
  {
    var first := Moved(s, at, p, start);
    if At(s, start) in "\"'" then Slid(first, q - start) else Moved(s, first, start, q)
  }

  /** How many line breaks the lexer has missed. */
  function Missed(s: string, at: Spot, p: nat): int {
    Moved(s, FIRST, 0, p).line - at.line
  }

  /** Exactly the line breaks in string and character literals are missed, and all later lines are too
      small by them; places stay right exactly as long as there are none. */
  lemma {:induction false} MissedExact(s: string, at: Spot, p: nat, start: nat, q: nat)
    requires p <= start <= q
    ensures var quoted := At(s, start) in "\"'";
      && Missed(s, After(s, at, p, start, q), q) == Missed(s, at, p) + (if quoted then Breaks(s, start, q) else 0)
      && (at == Moved(s, FIRST, 0, p) ==>
            (After(s, at, p, start, q) == Moved(s, FIRST, 0, q) <==> !quoted || Breaks(s, start, q) == 0))
  {
    hide Moved, Breaks, Slid;
    MovedTrans(s, FIRST, 0, p, start);
    MovedTrans(s, FIRST, 0, start, q);
    MovedTrans(s, at, p, start, q);
    MovedTrans(s, FIRST, 0, p, q);
    MovedExact(s, FIRST, 0, p);
    MovedExact(s, FIRST, 0, q);
    MovedExact(s, at, p, start);
    MovedExact(s, at, p, q);
    SlidExact(s, Moved(s, at, p, start), start, q);
    SlidLine(s, at, p, start, q);
  }

  lemma {:induction false} SlidLine(s: string, at: Spot, p: nat, start: nat, q: nat)
    requires p <= start <= q
    ensures Slid(Moved(s, at, p, start), q - start).line == Moved(s, at, p, start).line
  {
  }

  /** No line break or quote is among the characters of an operator. */
  lemma {:induction false} OperatorPlain(a: char, b: char, c: char)
    ensures var op := Operator(a, b, c);
      && (op != "" ==> a !in "\n\"'") && (|op| >= 2 ==> b != '\n') && (|op| >= 3 ==> c != '\n')
  {
  }
}
