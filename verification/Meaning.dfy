/** What the semantics of the source comes to on programs whose meaning is known otherwise. */
module Meaning {
  import opened Source
  import opened Structured
  import Compile
  import ControlTable
  import opened Writing
  import SwitchTable

  // ----- a loop that counts -----

  const STEP := Assign("i", Bin(Add, Var("i"), Lit(1)))

  function Below(n: int): Expr {
    Bin(Lt, Var("i"), Lit(n))
  }

  function Round(k: int, leave: Stmt): Stmt {
    Seq(If(Nothing, Bin(Eq, Var("i"), Lit(k)), leave, Plain(Nothing)), Plain(Do(Call("f", Var("i")))))
  }

  /** `for i = 0; i < n; i = i + 1 { if i == k { leave }; f(i) }` */
  function Counting(n: int, k: int, leave: Stmt): Stmt {
    For(Assign("i", Lit(0)), Some(Below(n)), STEP, Round(k, leave))
  }

  /** The calls f(i), ..., f(n - 1), without f(k). */
  function Calls(i: int, n: int, k: int): seq<Event>
    decreases n - i
  {
    if i >= n then [] else (if i == k then [] else [Event("f", i)]) + Calls(i + 1, n, k)
  }

  /** Where the loop ends: at `k` if it is left there, else at `n`. */
  function Last(i: int, n: int, k: int, leave: Stmt): int {
    if leave == Break && i <= k < n then k else n
  }

  function At(s: Memory, i: int): Memory {
    s.(vars := s.vars["i" := i])
  }

  lemma {:induction false} RoundRuns(w: World, i: int, k: int, leave: Stmt, s: Memory, fuel: nat)
    requires leave in {Break, Continue} && s == At(s, i)
    ensures Exec(w, [], Round(k, leave), s, fuel) ==
      if i != k then Normal(Did(s, [Event("f", i)])) else if leave == Break then Broke(s) else Continued(s)
  {
    var test := If(Nothing, Bin(Eq, Var("i"), Lit(k)), leave, Plain(Nothing));
    assert Eval(w, Bin(Eq, Var("i"), Lit(k)), s) == (if i == k then 1 else 0, s);
    assert Exec(w, [], test, s, fuel) ==
      if i != k then Normal(s) else if leave == Break then Broke(s) else Continued(s);
  }

  lemma {:induction false} TestRuns(w: World, i: int, n: int, s: Memory)
    requires s == At(s, i)
    ensures Eval(w, Below(n), s) == (if i < n then 1 else 0, s)
  {
  }

  lemma {:induction false} StepRuns(w: World, i: int, s: Memory)
    requires s == At(s, i) && 0 <= i < TWO63 - 1
    ensures ExecSimple(w, [], STEP, s) == At(s, i + 1)
  {
    assert Wrap(i + 1) == i + 1;
    assert Eval(w, Var("i"), s) == (i, s) && Eval(w, Lit(1), s) == (1, s);
    assert Eval(w, Bin(Add, Var("i"), Lit(1)), s) == (i + 1, s);
  }

  lemma {:induction false} CountsFrom(w: World, i: int, n: int, k: int, leave: Stmt, s: Memory, fuel: nat)
    requires leave in {Break, Continue} && 0 <= i <= n < TWO63 && fuel > n - i && s == At(s, i)
    ensures var last := Last(i, n, k, leave);
      ExecFor(w, [], Some(Below(n)), STEP, Round(k, leave), s, fuel) == Normal(At(Did(s, Calls(i, last, k)), last))
    decreases n - i
  {
    hide Exec, Eval, ExecSimple;
    TestRuns(w, i, n, s);
    if i < n {
      RoundRuns(w, i, k, leave, s, fuel);
      var s' := if i == k then s else Did(s, [Event("f", i)]);
      StepRuns(w, i, s');
      if i != k || leave == Continue {
        CountsFrom(w, i + 1, n, k, leave, At(s', i + 1), fuel - 1);
        Joined(s, i, Last(i, n, k, leave), k);
      } else {
        NothingDone(s, i);
      }
    } else {
      NothingDone(s, i);
    }
  }

  lemma {:induction false} Joined(s: Memory, i: int, last: int, k: int)
    requires i < last
    ensures var s' := if i == k then s else Did(s, [Event("f", i)]);
      At(Did(At(s', i + 1), Calls(i + 1, last, k)), last) == At(Did(s, Calls(i, last, k)), last)
  {
    var rest := Calls(i + 1, last, k);
    assert s.vars["i" := i + 1]["i" := last] == s.vars["i" := last];
    assert s.trace + [Event("f", i)] + rest == s.trace + ([Event("f", i)] + rest);
    assert [] + rest == rest;
  }

  lemma {:induction false} NothingDone(s: Memory, i: int)
    ensures forall k :: Did(s, Calls(i, i, k)) == s
  {
  }

  /** `continue` leaves out the rest of the round but not the step, `break` all that would follow. */
  lemma {:induction false} CountingRuns(w: World, n: int, k: int, leave: Stmt, s: Memory, fuel: nat)
    requires leave in {Break, Continue} && 0 <= n < TWO63 && fuel > n
    ensures var last := Last(0, n, k, leave);
      Exec(w, [], Counting(n, k, leave), s, fuel) == Normal(At(Did(s, Calls(0, last, k)), last))
  {
    hide ExecFor, Round;
    var last := Last(0, n, k, leave);
    CountsFrom(w, 0, n, k, leave, At(s, 0), fuel);
    assert s.vars["i" := 0]["i" := last] == s.vars["i" := last];
  }

  /** So does the finished function. */
  lemma {:induction false} CountingCompiled(w: World, n: int, k: int, leave: Stmt, table: seq<ControlTable.Entry>,
                                            st: State, fuel: nat)
    requires leave in {Break, Continue} && 0 <= n < TWO63 && fuel > n
    ensures var r, last := Run(w, Compile.Compiled(Counting(n, k, leave), table), st, fuel), Last(0, n, k, leave);
      r.Ret? && r.value == 0 && MemoryOf(r.st) == At(Did(MemoryOf(st), Calls(0, last, k)), last)
  {
    hide Run, Exec, Compile.Compiled, Calls, Last, WellScoped;
    CountingScoped(n, k, leave);
    Compile.CompiledCorrect(w, Counting(n, k, leave), table, st, fuel);
    CountingRuns(w, n, k, leave, MemoryOf(st), fuel);
  }

  lemma {:induction false} CountingScoped(n: int, k: int, leave: Stmt)
    requires leave in {Break, Continue}
    ensures WellScoped(Counting(n, k, leave), false, false)
  {
    var test, call := If(Nothing, Bin(Eq, Var("i"), Lit(k)), leave, Plain(Nothing)), Plain(Do(Call("f", Var("i"))));
    assert WellScoped(leave, true, true) && WellScoped(Plain(Nothing), true, true);
    assert WellScoped(test, true, true);
    assert WellScoped(call, true, true);
    assert Round(k, leave) == Seq(test, call);
  }

  // ----- single constructs -----

  /** The right operand is called only when the left one leaves the answer open. */
  lemma {:induction false} OperandsRun(w: World, n: int, s: Memory)
    ensures var call := Call("f", Lit(0));
      var called := (w.call("f", 0, s.trace), Did(s, [Event("f", 0)]));
      && Eval(w, And(Lit(n), call), s) == (if n == 0 then (0, s) else called)
      && Eval(w, Or(Lit(n), call), s) == (if n == 0 then called else (1, s))
  {
    CallRuns(w, "f", Lit(0), 0, s, s);
    assert Eval(w, Lit(n), s) == (n, s);
  }

  lemma {:induction false} CallRuns(w: World, f: string, arg: Expr, v: int, s: Memory, s': Memory)
    requires Eval(w, arg, s) == (v, s')
    ensures Eval(w, Call(f, arg), s) == (w.call(f, v, s'.trace), Did(s', [Event(f, v)]))
  {
  }

  /** Operands are evaluated from left to right, and the argument before the call. */
  lemma {:induction false} OrderRuns(w: World, op: Op, s: Memory)
    ensures var e := Call("h", Bin(op, Call("f", Lit(1)), Call("g", Lit(2))));
      var r := Eval(w, e, s).1;
      exists v :: r == Did(s, [Event("f", 1), Event("g", 2), Event("h", v)])
  {
    hide Apply;
    var a, s1 := w.call("f", 1, s.trace), Did(s, [Event("f", 1)]);
    CallRuns(w, "f", Lit(1), 1, s, s);
    var b, s2 := w.call("g", 2, s1.trace), Did(s1, [Event("g", 2)]);
    CallRuns(w, "g", Lit(2), 2, s1, s1);
    var v := Apply(op, a, b);
    var e := Bin(op, Call("f", Lit(1)), Call("g", Lit(2)));
    assert Eval(w, e, s) == (v, s2);
    CallRuns(w, "h", e, v, s, s2);
    assert s.trace + [Event("f", 1)] + [Event("g", 2)] + [Event("h", v)] ==
      s.trace + [Event("f", 1), Event("g", 2), Event("h", v)];
  }

  /** `switch n { case 1: break  case 2: f(2)  default: f(0) }` runs one clause, and `break` leaves it. */
  lemma {:induction false} SwitchRuns(w: World, n: int, s: Memory, fuel: nat)
    ensures Exec(w, [], Choice(n), s, fuel) ==
      Normal(if n == 1 then s else Did(s, [Event("f", if n == 2 then 2 else 0)]))
  {
    hide SwitchTable.Selected;
    var c := Choice(n);
    var ks := Keys(c.clauses);
    assert ks == [[IntKey(1)], [IntKey(2)], []];
    SwitchTable.SelectedExact(ks, IntKey(n));
    var k := SwitchTable.Selected(ks, IntKey(n));
    assert n == 1 ==> IntKey(n) in ks[0];
    assert n == 2 ==> IntKey(n) in ks[1];
    assert ks[2] == [] && forall i :: 0 <= i < 2 ==> (IntKey(n) in ks[i] <==> n == i + 1);
    assert k == if n == 1 then 0 else if n == 2 then 1 else 2;
    assert Eval(w, Lit(n), s) == (n, s);
    if k == 0 {
      assert Exec(w, [], c.clauses[0].body, s, fuel) == Broke(s);
    } else {
      DoRuns(w, if n == 2 then 2 else 0, s, fuel);
    }
  }

  lemma {:induction false} DoRuns(w: World, m: int, s: Memory, fuel: nat)
    ensures Exec(w, [], Plain(Do(Call("f", Lit(m)))), s, fuel) == Normal(Did(s, [Event("f", m)]))
  {
    CallRuns(w, "f", Lit(m), m, s, s);
  }

  function Choice(n: int): Stmt {
    Switch(false, Lit(n), [Clause([IntKey(1)], Break), Clause([IntKey(2)], Plain(Do(Call("f", Lit(2))))),
                           Clause([], Plain(Do(Call("f", Lit(0)))))])
  }
}
