/** What fuel means for the source semantics, and where the jumps of a statement end. */
module Fuel {
  import opened Source
  import SwitchTable

  /** Fuel is only a bound: more of it changes nothing about a run that ends, and lets a run that was
      stopped go on from what it had done. */
  lemma {:induction false} ExecMonotone(w: World, open: seq<int>, c: Stmt, s: Memory, fuel: nat)
    ensures Extends(Exec(w, open, c, s, fuel), Exec(w, open, c, s, fuel + 1))
    decreases fuel, c, 1
  {
    match c {
      case Seq(a, b) =>
        ExecMonotone(w, open, a, s, fuel);
        ExecMonotone(w, open, b, Exec(w, open, a, s, fuel).s, fuel);
        ExecTrace(w, open, b, Exec(w, open, a, s, fuel + 1).s, fuel + 1);
      case If(init, cond, thn, els) =>
        var s1 := Eval(w, cond, ExecSimple(w, open, init, s)).1;
        ExecMonotone(w, open, thn, s1, fuel);
        ExecMonotone(w, open, els, s1, fuel);
      case For(init, test, post, body) => ForMonotone(w, open, test, post, body, ExecSimple(w, open, init, s), fuel);
      case Switch(text, value, clauses) =>
        var (v, s1) := Eval(w, value, s);
        var k := SwitchTable.Selected(Keys(clauses), KeyOf(w, text, v));
        if k < |clauses| { ExecMonotone(w, open, clauses[k].body, s1, fuel); }
      case Area(size, body) =>
        var (h, s1) := Entered(w, open, size, s);
        ExecMonotone(w, open + [h], body, s1, fuel);
      case _ =>
    }
  }

  /** A run that ends is the same with any larger bound, and one that is stopped has done no more. */
  lemma {:induction false} ExecStable(w: World, open: seq<int>, c: Stmt, s: Memory, fuel: nat, more: nat)
    requires fuel <= more
    ensures Extends(Exec(w, open, c, s, fuel), Exec(w, open, c, s, more))
    decreases more - fuel
  {
    hide Exec;
    if fuel < more {
      ExecMonotone(w, open, c, s, fuel);
      ExecStable(w, open, c, s, fuel + 1, more);
      var a, b := Exec(w, open, c, s, fuel).s.trace, Exec(w, open, c, s, fuel + 1).s.trace;
      var d := Exec(w, open, c, s, more).s.trace;
      assert a <= b && b <= d ==> a <= d;
    }
  }

  /** `b` is `a`, unless `a` was stopped; then `b` has done at least as much. */
  ghost predicate Extends(a: Outcome, b: Outcome) {
    if a.OutOfFuel? then a.s.trace <= b.s.trace else b == a
  }

  /** The handle of an area that is opened, and the state in which its body starts. */
  function Entered(w: World, open: seq<int>, size: Option<Expr>, s: Memory): (int, Memory) {
    var (bytes, s1) := AreaSize(w, size, s);
    (|s1.trace|, Did(s1, [AreaBegun(|s1.trace|, bytes, Innermost(open))]))
  }

  lemma {:induction false} EvalTrace(w: World, e: Expr, s: Memory)
    ensures s.trace <= Eval(w, e, s).1.trace
  {
    match e {
      case Bin(_, l, r) => EvalTrace(w, l, s); EvalTrace(w, r, Eval(w, l, s).1);
      case Call(_, a) => EvalTrace(w, a, s);
      case And(l, r) => EvalTrace(w, l, s); EvalTrace(w, r, Eval(w, l, s).1);
      case Or(l, r) => EvalTrace(w, l, s); EvalTrace(w, r, Eval(w, l, s).1);
      case _ =>
    }
  }

  lemma {:induction false} SimpleTrace(w: World, open: seq<int>, c: Simple, s: Memory)
    ensures s.trace <= ExecSimple(w, open, c, s).trace
  {
    if !c.Nothing? { EvalTrace(w, c.e, s); }
  }

  lemma {:induction false} ExecTrace(w: World, open: seq<int>, c: Stmt, s: Memory, fuel: nat)
    ensures s.trace <= Exec(w, open, c, s, fuel).s.trace
    decreases fuel, c, 1
  {
    match c {
      case Plain(p) => SimpleTrace(w, open, p, s);
      case Seq(a, b) =>
        ExecTrace(w, open, a, s, fuel);
        ExecTrace(w, open, b, Exec(w, open, a, s, fuel).s, fuel);
      case If(init, cond, thn, els) =>
        var s0 := ExecSimple(w, open, init, s);
        SimpleTrace(w, open, init, s);
        EvalTrace(w, cond, s0);
        var s1 := Eval(w, cond, s0).1;
        ExecTrace(w, open, thn, s1, fuel);
        ExecTrace(w, open, els, s1, fuel);
      case For(init, test, post, body) =>
        SimpleTrace(w, open, init, s);
        ForTrace(w, open, test, post, body, ExecSimple(w, open, init, s), fuel);
      case Switch(text, value, clauses) =>
        EvalTrace(w, value, s);
        var (v, s1) := Eval(w, value, s);
        var k := SwitchTable.Selected(Keys(clauses), KeyOf(w, text, v));
        if k < |clauses| { ExecTrace(w, open, clauses[k].body, s1, fuel); }
      case Return(e) => EvalTrace(w, e, s);
      case Panic(e) => EvalTrace(w, e, s);
      case Area(size, body) =>
        if size.Some? { EvalTrace(w, size.value, s); }
        var (h, s1) := Entered(w, open, size, s);
        ExecTrace(w, open + [h], body, s1, fuel);
      case _ =>
    }
  }

  lemma {:induction false} ForTrace(w: World, open: seq<int>, test: Option<Expr>, post: Simple, body: Stmt, s: Memory,
                                    fuel: nat)
    ensures s.trace <= ExecFor(w, open, test, post, body, s, fuel).s.trace
    decreases fuel, body, 2
  {
    if fuel > 0 {
      if test.Some? { EvalTrace(w, test.value, s); }
      var s1 := if test.Some? then Eval(w, test.value, s).1 else s;
      ExecTrace(w, open, body, s1, fuel);
      var s2 := Exec(w, open, body, s1, fuel).s;
      SimpleTrace(w, open, post, s2);
      ForTrace(w, open, test, post, body, ExecSimple(w, open, post, s2), fuel - 1);
    }
  }

  lemma {:induction false} ForMonotone(w: World, open: seq<int>, test: Option<Expr>, post: Simple, body: Stmt,
                                       s: Memory, fuel: nat)
    ensures Extends(ExecFor(w, open, test, post, body, s, fuel), ExecFor(w, open, test, post, body, s, fuel + 1))
    decreases fuel, body, 2
  {
    ForTrace(w, open, test, post, body, s, fuel + 1);
    if fuel > 0 {
      var s1 := if test.Some? then Eval(w, test.value, s).1 else s;
      ExecMonotone(w, open, body, s1, fuel);
      var r := Exec(w, open, body, s1, fuel);
      if r.Normal? || r.Continued? {
        ForMonotone(w, open, test, post, body, ExecSimple(w, open, post, r.s), fuel - 1);
      } else if r.OutOfFuel? {
        ForStopped(w, open, test, post, body, s, fuel + 1);
        var b, c := Exec(w, open, body, s1, fuel + 1).s.trace, ExecFor(w, open, test, post, body, s, fuel + 1).s.trace;
        assert r.s.trace <= b && (b <= c ==> r.s.trace <= c);
      }
    }
  }

  /** What an iteration has done is part of what the loop has done. */
  lemma {:induction false} ForStopped(w: World, open: seq<int>, test: Option<Expr>, post: Simple, body: Stmt,
                                      s: Memory, fuel: nat)
    requires fuel > 0
    ensures var (v, s1) := if test.Some? then Eval(w, test.value, s) else (1, s);
      Truth(v) ==> Exec(w, open, body, s1, fuel).s.trace <= ExecFor(w, open, test, post, body, s, fuel).s.trace
  {
    var s1 := if test.Some? then Eval(w, test.value, s).1 else s;
    var r := Exec(w, open, body, s1, fuel);
    if r.Normal? || r.Continued? {
      SimpleTrace(w, open, post, r.s);
      ForTrace(w, open, test, post, body, ExecSimple(w, open, post, r.s), fuel - 1);
    }
  }

  /** A loop's jumps do not get out of what the scoping allows. */
  lemma {:induction false} NeverLoose(w: World, open: seq<int>, c: Stmt, canBreak: bool, canContinue: bool, s: Memory,
                                      fuel: nat)
    requires WellScoped(c, canBreak, canContinue)
    ensures Exec(w, open, c, s, fuel).Broke? ==> canBreak
    ensures Exec(w, open, c, s, fuel).Continued? ==> canContinue
    decreases fuel, c
  {
    match c {
      case Seq(a, b) =>
        NeverLoose(w, open, a, canBreak, canContinue, s, fuel);
        NeverLoose(w, open, b, canBreak, canContinue, Exec(w, open, a, s, fuel).s, fuel);
      case If(init, cond, thn, els) =>
        var s1 := Eval(w, cond, ExecSimple(w, open, init, s)).1;
        NeverLoose(w, open, thn, canBreak, canContinue, s1, fuel);
        NeverLoose(w, open, els, canBreak, canContinue, s1, fuel);
      case For(init, test, post, body) => ForNeverLoose(w, open, test, post, body, ExecSimple(w, open, init, s), fuel);
      case Switch(text, value, clauses) =>
        var (v, s1) := Eval(w, value, s);
        var k := SwitchTable.Selected(Keys(clauses), KeyOf(w, text, v));
        if k < |clauses| { NeverLoose(w, open, clauses[k].body, true, false, s1, fuel); }
      case Area(size, body) =>
        var (h, s1) := Entered(w, open, size, s);
        NeverLoose(w, open + [h], body, false, false, s1, fuel);
      case _ =>
    }
  }

  lemma {:induction false} ForNeverLoose(w: World, open: seq<int>, test: Option<Expr>, post: Simple, body: Stmt,
                                         s: Memory, fuel: nat)
    ensures var r := ExecFor(w, open, test, post, body, s, fuel); !r.Broke? && !r.Continued?
    decreases fuel
  {
    if fuel > 0 {
      var s1 := if test.Some? then Eval(w, test.value, s).1 else s;
      var r := Exec(w, open, body, s1, fuel);
      ForNeverLoose(w, open, test, post, body, ExecSimple(w, open, post, r.s), fuel - 1);
    }
  }
}
