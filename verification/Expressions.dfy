/** The code written for an expression computes the expression. */
module Expressions {
  import opened Source
  import opened Structured
  import opened Opening
  import opened Lowering
  import opened Writing

  /** What a step that writes no branch does to the body under construction. */
  ghost predicate Quiet(l: Build, m: Build, lo: int) {
    Shaped(m, lo) && Targets(m.body) == Targets(l.body) && l.next <= m.next && l.regs <= m.regs
  }

  lemma {:induction false} EmitQuiet(l: Build, r: nat, i: Instr, lo: int)
    requires Shaped(l, lo) && lo <= l.next && l.regs <= r
    ensures Quiet(l, EmitInstr(l.(regs := r), i), lo)
  {
    EmitShaped(l.(regs := r), Instruction(i), lo);
  }

  lemma {:induction false} OpenSlotQuiet(l: Build, n: int, lo: int)
    requires Shaped(l, lo) && lo <= l.next
    ensures Quiet(l, OpenSlot(l, n), lo)
  {
    hide Shaped, Emit;
    EmitQuiet(l, l.regs + 1, Alloca(l.regs), lo);
    var m := EmitInstr(l.(regs := l.regs + 1), Alloca(l.regs));
    EmitQuiet(m, m.regs, StoreTo(Const(n), Temp(l.regs)), lo);
  }

  lemma {:induction false} ExprQuiet(e: Expr, l: Build, lo: int)
    requires Shaped(l, lo) && lo <= l.next
    ensures Quiet(l, LowerExpr(e, l).1, lo)
    decreases e, 1
  {
    hide Shaped, Emit;
    match e {
      case Lit(_) =>
      case Var(x) => EmitQuiet(l, l.regs + 1, Load(l.regs, Named(x)), lo);
      case Bin(op, a, b) =>
        ExprQuiet(a, l, lo);
        var (va, l1) := LowerExpr(a, l);
        ExprQuiet(b, l1, lo);
        var (vb, l2) := LowerExpr(b, l1);
        EmitQuiet(l2, l2.regs + 1, Binary(l2.regs, op, va, vb), lo);
      case Call(f, a) =>
        ExprQuiet(a, l, lo);
        var (va, l1) := LowerExpr(a, l);
        EmitQuiet(l1, l1.regs + 1, CallStatic(l1.regs, f, va), lo);
      case And(_, _) => ShortCircuitQuiet(e, l, lo);
      case Or(_, _) => ShortCircuitQuiet(e, l, lo);
    }
  }

  lemma {:induction false} ShortCircuitQuiet(e: Expr, l: Build, lo: int)
    requires e.And? || e.Or?
    requires Shaped(l, lo) && lo <= l.next
    ensures Quiet(l, LowerShortCircuit(e, l).1, lo)
    decreases e, 0
  {
    hide Shaped, Emit, Place, LowerExpr, Tidy, Targets;
    var l0 := OpenSlot(l, if e.And? then 0 else 1);
    OpenSlotQuiet(l, if e.And? then 0 else 1, lo);
    ExprQuiet(e.left, l0, lo);
    var (va, l1) := LowerExpr(e.left, l0);
    var (ctl, r) := LowerRight(e, l.regs, va, l1);
    RightQuiet(e, l.regs, va, l1);
    PlaceShaped(l1, ctl, r.next, lo);
    var l2 := Build(Place(l1.body, l1.next, ctl), r.next, r.regs);
    ShapedRegs(l2.(regs := l1.regs), r.regs, lo);
    EmitQuiet(l2, l2.regs + 1, Load(l2.regs, Temp(l.regs)), lo);
  }

  lemma {:induction false} RightQuiet(e: Expr, slot: nat, va: Value, l1: Build)
    requires e.And? || e.Or?
    ensures var (ctl, r) := LowerRight(e, slot, va, l1);
      l1.next < r.next && l1.regs <= r.regs &&
      TidyNode(Control(l1.next, -1, ctl)) && NodeTargets(Control(l1.next, -1, ctl)) == {}
    decreases e, 0, 0
  {
    hide Emit, LowerExpr;
    var r0 := Build([], l1.next + 1, l1.regs);
    ExprQuiet(e.right, r0, l1.next + 1);
    var (vb, r) := LowerExpr(e.right, r0);
    EmitQuiet(r, r.regs, StoreTo(vb, Temp(slot)), l1.next + 1);
  }

  /** Registers and slots older than `k` are unchanged. */
  ghost predicate KeepsOld(a: State, b: State, k: nat) {
    && (forall r: nat :: r < k ==> Lookup(a.regs, r) == Lookup(b.regs, r))
    && (forall t: nat :: t < k ==> Lookup(a.temps, t) == Lookup(b.temps, t))
  }

  /** The step from `l` to `m` computes `e` into `v`: run from `st`, its code falls through with the
      value in `v` and the memory `e` leaves behind, and touches nothing older than itself. */
  ghost predicate Computes(w: World, e: Expr, l: Build, v: Value, m: Build, st: State, fuel: nat) {
    var r := Run(w, Delta(l, m), st, fuel);
    && Grows(l, m)
    && r.Fall?
    && (ValueOf(v, r.st), MemoryOf(r.st)) == Eval(w, e, MemoryOf(st))
    && (v.Reg? ==> v.r < m.regs)
    && KeepsOld(st, r.st, l.regs)
  }

  lemma {:induction false} ExprRun(w: World, e: Expr, l: Build, lo: int, st: State, fuel: nat)
    requires Shaped(l, lo) && lo <= l.next
    ensures var (v, m) := LowerExpr(e, l); Computes(w, e, l, v, m, st, fuel)
    decreases e, 1
  {
    hide Emit;
    match e {
      case Lit(_) =>
        assert Delta(l, l) == [];
      case Var(x) =>
        EmitInstrRun(w, l, l.regs + 1, Load(l.regs, Named(x)), st, fuel);
      case Bin(_, _, _) => BinRun(w, e, l, lo, st, fuel);
      case Call(_, _) => CallRun(w, e, l, lo, st, fuel);
      case And(_, _) => ShortCircuitRun(w, e, l, lo, st, fuel);
      case Or(_, _) => ShortCircuitRun(w, e, l, lo, st, fuel);
    }
  }

  lemma {:induction false} BinRun(w: World, e: Expr, l: Build, lo: int, st: State, fuel: nat)
    requires e.Bin? && Shaped(l, lo) && lo <= l.next
    ensures var (v, m) := LowerExpr(e, l); Computes(w, e, l, v, m, st, fuel)
    decreases e, 0
  {
    hide Grows, Delta, Shaped, Emit, Run;
    var (va, l1) := LowerExpr(e.left, l);
    var (vb, l2) := LowerExpr(e.right, l1);
    var i := Binary(l2.regs, e.op, va, vb);
    var m := EmitInstr(l2.(regs := l2.regs + 1), i);
    ExprQuiet(e.left, l, lo);
    ExprQuiet(e.right, l1, lo);
    ExprRun(w, e.left, l, lo, st, fuel);
    var s1 := Run(w, Delta(l, l1), st, fuel).st;
    ExprRun(w, e.right, l1, lo, s1, fuel);
    var s2 := Run(w, Delta(l1, l2), s1, fuel).st;
    EmitInstrRun(w, l2, l2.regs + 1, i, s2, fuel);
    RunThen(w, l1, l2, m, s1, fuel);
    RunThen(w, l, l1, m, st, fuel);
  }

  lemma {:induction false} CallRun(w: World, e: Expr, l: Build, lo: int, st: State, fuel: nat)
    requires e.Call? && Shaped(l, lo) && lo <= l.next
    ensures var (v, m) := LowerExpr(e, l); Computes(w, e, l, v, m, st, fuel)
    decreases e, 0
  {
    hide Grows, Delta, Shaped, Emit, Run;
    var (va, l1) := LowerExpr(e.arg, l);
    var i := CallStatic(l1.regs, e.callee, va);
    var m := EmitInstr(l1.(regs := l1.regs + 1), i);
    ExprQuiet(e.arg, l, lo);
    ExprRun(w, e.arg, l, lo, st, fuel);
    var s1 := Run(w, Delta(l, l1), st, fuel).st;
    EmitInstrRun(w, l1, l1.regs + 1, i, s1, fuel);
    RunThen(w, l, l1, m, st, fuel);
  }

  lemma {:induction false} OpenSlotRun(w: World, l: Build, n: int, st: State, fuel: nat)
    ensures var m := OpenSlot(l, n);
      Grows(l, m) && m.regs == l.regs + 1 &&
      Run(w, Delta(l, m), st, fuel) == Fall(st.(temps := st.temps[l.regs := 0][l.regs := n]))
  {
    hide Grows, Delta, Emit;
    var i, j := Alloca(l.regs), StoreTo(Const(n), Temp(l.regs));
    var l1 := EmitInstr(l.(regs := l.regs + 1), i);
    EmitInstrRun(w, l, l.regs + 1, i, st, fuel);
    EmitInstrRun(w, l1, l1.regs, j, Step(w, i, st), fuel);
    RunThen(w, l, l1, OpenSlot(l, n), st, fuel);
  }

  /** Whether evaluation goes on to the right operand. */
  predicate TakesRight(e: Expr, left: int) {
    if e.And? then Truth(left) else !Truth(left)
  }

  lemma {:induction false} RightRun(w: World, e: Expr, slot: nat, va: Value, l1: Build, st: State, fuel: nat)
    requires e.And? || e.Or?
    requires slot < l1.regs
    ensures var (ctl, m) := LowerRight(e, slot, va, l1);
      var r := RunNode(w, Control(l1.next, -1, ctl), st, fuel);
      var right := Eval(w, e.right, MemoryOf(st));
      r.Fall? && KeepsOld(st, r.st, slot) &&
      (Lookup(r.st.temps, slot), MemoryOf(r.st)) ==
        if TakesRight(e, ValueOf(va, st)) then right else (Lookup(st.temps, slot), MemoryOf(st))
    decreases e, 0, 0
  {
    hide Emit, LowerExpr, Run, KeepsOld;
    var (ctl, m) := LowerRight(e, slot, va, l1);
    RightQuiet(e, slot, va, l1);
    assert m.body == if e.And? then ctl.thn else ctl.els;
    RunNone(w, st, fuel);
    NothingOlder(st, slot);
    if TakesRight(e, ValueOf(va, st)) {
      RightTaken(w, e, slot, va, l1, st, fuel);
    }
  }

  lemma {:induction false} NothingOlder(st: State, k: nat)
    ensures KeepsOld(st, st, k)
  {
  }

  /** The arm with the right operand, which is stored in the slot. */
  lemma {:induction false} RightTaken(w: World, e: Expr, slot: nat, va: Value, l1: Build, st: State, fuel: nat)
    requires (e.And? || e.Or?) && slot < l1.regs
    ensures var m := LowerRight(e, slot, va, l1).1;
      var r := Run(w, m.body, st, fuel);
      r.Fall? && KeepsOld(st, r.st, slot) &&
      (Lookup(r.st.temps, slot), MemoryOf(r.st)) == Eval(w, e.right, MemoryOf(st))
    decreases e, 0, 0, 0
  {
    hide Grows, Delta, Shaped, Emit, LowerExpr, Run, Tidy, Eval;
    var l0 := Build([], l1.next + 1, l1.regs);
    var (vb, r) := LowerExpr(e.right, l0);
    var i := StoreTo(vb, Temp(slot));
    var m := EmitInstr(r, i);
    RightQuiet(e, slot, va, l1);
    RightTidy(e, slot, va, l1);
    FreshShaped(l0);
    ExprRun(w, e.right, l0, l0.next, st, fuel);
    var s1 := Run(w, Delta(l0, r), st, fuel).st;
    EmitInstrRun(w, r, r.regs, i, s1, fuel);
    RunThen(w, l0, r, m, st, fuel);
    FreshRun(w, l0, m, st, fuel);
  }

  lemma {:induction false} RightTidy(e: Expr, slot: nat, va: Value, l1: Build)
    requires e.And? || e.Or?
    ensures Tidy(LowerRight(e, slot, va, l1).1.body)
  {
    hide Emit, LowerExpr, Tidy;
    RightQuiet(e, slot, va, l1);
    assert TidyNode(Control(l1.next, -1, LowerRight(e, slot, va, l1).0));
  }

  /** The part before the branch: the slot holds the short answer and the left operand is known. */
  lemma {:induction false} LeftRun(w: World, e: Expr, l: Build, lo: int, st: State, fuel: nat)
    requires e.And? || e.Or?
    requires Shaped(l, lo) && lo <= l.next
    ensures var n := if e.And? then 0 else 1;
      var (va, l1) := LowerExpr(e.left, OpenSlot(l, n));
      Shaped(l1, lo) && lo <= l1.next && l.regs < l1.regs &&
      Computes(w, e.left, l, va, l1, st, fuel) &&
      Lookup(Run(w, Delta(l, l1), st, fuel).st.temps, l.regs) == n
    decreases e, 0, 0
  {
    hide Grows, Delta, Shaped, Emit, LowerExpr;
    var n := if e.And? then 0 else 1;
    var l0 := OpenSlot(l, n);
    OpenSlotQuiet(l, n, lo);
    OpenSlotRun(w, l, n, st, fuel);
    var s0 := Run(w, Delta(l, l0), st, fuel).st;
    var (va, l1) := LowerExpr(e.left, l0);
    ExprQuiet(e.left, l0, lo);
    ExprRun(w, e.left, l0, lo, s0, fuel);
    RunThen(w, l, l0, l1, st, fuel);
  }

  lemma {:induction false} ShortCircuitRun(w: World, e: Expr, l: Build, lo: int, st: State, fuel: nat)
    requires e.And? || e.Or?
    requires Shaped(l, lo) && lo <= l.next
    ensures var (v, m) := LowerShortCircuit(e, l); Computes(w, e, l, v, m, st, fuel)
    decreases e, 0, 1
  {
    hide Grows, Delta, Shaped, Emit, LowerExpr, Place, LowerRight, RunNode, Run, TidyNode;
    var slot := l.regs;
    var (va, l1) := LowerExpr(e.left, OpenSlot(l, if e.And? then 0 else 1));
    LeftRun(w, e, l, lo, st, fuel);
    var s1 := Run(w, Delta(l, l1), st, fuel).st;
    var (ctl, r) := LowerRight(e, slot, va, l1);
    var l2 := Build(Place(l1.body, l1.next, ctl), r.next, r.regs);
    RightQuiet(e, slot, va, l1);
    RightShape(e, slot, va, l1, lo);
    RightRun(w, e, slot, va, l1, s1, fuel);
    PlaceRun(w, l1, ctl, l2, s1, fuel);
    RunThen(w, l, l1, l2, st, fuel);
    var s2 := Run(w, Delta(l1, l2), s1, fuel).st;
    EmitInstrRun(w, l2, l2.regs + 1, Load(l2.regs, Temp(slot)), s2, fuel);
    RunThen(w, l, l2, LowerShortCircuit(e, l).1, st, fuel);
  }

  lemma {:induction false} RightShape(e: Expr, slot: nat, va: Value, l1: Build, lo: int)
    requires e.And? || e.Or?
    requires Shaped(l1, lo)
    ensures Tidy(l1.body) && !IsPlaceholder(Control(l1.next, -1, LowerRight(e, slot, va, l1).0))
  {
  }
}
