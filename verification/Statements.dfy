/** The code written for a statement does what the statement does. */
module Statements {
  import opened Source
  import opened Structured
  import opened Opening
  import opened Lowering
  import opened Writing
  import opened Expressions
  import opened StatementShape
  import Fuel
  import SwitchTable
  import StringSwitch
  import opened Dispatch

  /** The ending of a statement and the ending of its code say the same. */
  ghost predicate Agrees(out: Outcome, r: Result, ctx: Option<LoopContext>) {
    && out.s == MemoryOf(r.st)
    && match out
       case Normal(_) => r.Fall?
       case Broke(_) => ctx.Some? && r.Branch? && r.target == ctx.value.breakTarget
       case Continued(_) => ctx.Some? && r.Branch? && r.target == ctx.value.continueTarget
       case Returned(v, _) => r.Ret? && r.value == v
       case Panicked(v, _) => r.Panics? && r.value == v
       case OutOfFuel(_) => r.Timeout?
  }

  /** The areas' registers are older than `k`. */
  predicate Held(areas: seq<nat>, k: nat) {
    forall i :: 0 <= i < |areas| ==> areas[i] < k
  }

  /** The areas that are open: what their registers hold. */
  function Handles(areas: seq<nat>, st: State): seq<int> {
    seq(|areas|, i requires 0 <= i < |areas| => Lookup(st.regs, areas[i]))
  }

  lemma {:induction false} SameHandles(areas: seq<nat>, a: State, b: State, k: nat)
    requires KeepsOld(a, b, k) && Held(areas, k)
    ensures Handles(areas, a) == Handles(areas, b)
  {
  }

  lemma {:induction false} KeepsTrans(a: State, b: State, c: State, k: nat, j: nat)
    requires KeepsOld(a, b, k) && KeepsOld(b, c, j) && k <= j
    ensures KeepsOld(a, c, k)
  {
  }

  lemma {:induction false} KeepsLess(a: State, b: State, k: nat, j: nat)
    requires KeepsOld(a, b, j) && k <= j
    ensures KeepsOld(a, b, k)
  {
  }

  lemma {:induction false} SimpleRun(w: World, areas: seq<nat>, c: Simple, l: Build, lo: int, st: State, fuel: nat)
    requires Held(areas, l.regs)
    requires Shaped(l, lo) && lo <= l.next
    ensures var m := LowerSimple(areas, c, l);
      var r := Run(w, Delta(l, m), st, fuel);
      Grows(l, m) && r.Fall? && MemoryOf(r.st) == ExecSimple(w, Handles(areas, st), c, MemoryOf(st)) &&
        KeepsOld(st, r.st, l.regs)
  {
    hide Grows, Delta, Shaped, Emit, LowerExpr, Handles;
    match c {
      case Nothing => NoStep(w, l, st, fuel);
      case Do(e) => ExprRun(w, e, l, lo, st, fuel);
      case Assign(x, e) =>
        var (v, l1) := LowerExpr(e, l);
        ExprRun(w, e, l, lo, st, fuel);
        var s1 := Run(w, Delta(l, l1), st, fuel).st;
        EmitInstrRun(w, l1, l1.regs, StoreTo(v, Named(x)), s1, fuel);
        RunThen(w, l, l1, LowerSimple(areas, c, l), st, fuel);
      case New(_, _) => NewRun(w, areas, c, l, lo, st, fuel);
    }
  }

  lemma {:induction false} NewRun(w: World, areas: seq<nat>, c: Simple, l: Build, lo: int, st: State, fuel: nat)
    requires c.New? && Held(areas, l.regs) && Shaped(l, lo) && lo <= l.next
    ensures var m := LowerSimple(areas, c, l);
      var r := Run(w, Delta(l, m), st, fuel);
      Grows(l, m) && r.Fall? && MemoryOf(r.st) == ExecSimple(w, Handles(areas, st), c, MemoryOf(st)) &&
        KeepsOld(st, r.st, l.regs)
  {
    hide Grows, Delta, Shaped, Emit, LowerExpr, Run;
    var (v, l1) := LowerExpr(c.e, l);
    ExprQuiet(c.e, l, lo);
    ExprRun(w, c.e, l, lo, st, fuel);
    var s1 := Run(w, Delta(l, l1), st, fuel).st;
    SameHandles(areas, st, s1, l.regs);
    var i, j := Allocate(areas, l1.regs), StoreTo(v, Named(c.name));
    var l2 := EmitInstr(l1.(regs := l1.regs + 1), i);
    EmitInstrRun(w, l1, l1.regs + 1, i, s1, fuel);
    var s2 := Step(w, i, s1);
    EmitInstrRun(w, l2, l2.regs, j, s2, fuel);
    assert l2.(regs := l2.regs) == l2;
    RunThen(w, l1, l2, LowerSimple(areas, c, l), s1, fuel);
    RunThen(w, l, l1, LowerSimple(areas, c, l), st, fuel);
    assert ValueOf(v, s2) == ValueOf(v, s1);
  }

  lemma {:induction false} StmtRun(w: World, areas: seq<nat>, c: Stmt, l: Build, lo: int, ctx: Option<LoopContext>,
                                   cc: bool, st: State, fuel: nat)
    requires Held(areas, l.regs)
    requires Shaped(l, lo) && lo <= l.next && Outer(ctx, lo) && WellScoped(c, ctx.Some?, cc) && (cc ==> ctx.Some?)
    ensures var m := LowerStmt(areas, c, l, ctx);
      Grows(l, m) && Agrees(Exec(w, Handles(areas, st), c, MemoryOf(st), fuel), Run(w, Delta(l, m), st, fuel), ctx) &&
      KeepsOld(st, Run(w, Delta(l, m), st, fuel).st, l.regs)
    decreases fuel, c, 1
  {
    hide Grows, Delta, Shaped, Emit, LowerExpr, Place, Tidy, LowerSimple, LowerFor, LowerSwitch, Handles, KeepsOld,
         Run, MemoryOf;
    var m := LowerStmt(areas, c, l, ctx);
    match c {
      case Plain(p) => SimpleRun(w, areas, p, l, lo, st, fuel);
      case Seq(a, b) =>
        var l1 := LowerStmt(areas, a, l, ctx);
        StmtSound(areas, a, l, ctx, lo);
        StmtRun(w, areas, a, l, lo, ctx, cc, st, fuel);
        var r := Run(w, Delta(l, l1), st, fuel);
        SameHandles(areas, st, r.st, l.regs);
        StmtRun(w, areas, b, l1, lo, ctx, cc, r.st, fuel);
        RunThen(w, l, l1, m, st, fuel);
        KeepsTrans(st, r.st, Run(w, Delta(l1, m), r.st, fuel).st, l.regs, l1.regs);
      case If(_, _, _, _) => IfRun(w, areas, c, l, lo, ctx, cc, st, fuel);
      case For(_, _, _, _) => ForRun(w, areas, c, l, lo, ctx, cc, st, fuel);
      case Switch(_, _, _) => SwitchRun(w, areas, c, l, lo, ctx, cc, st, fuel);
      case Break => JumpRun(w, l, lo, ctx.value.breakTarget, st, fuel); KeepsSelf(st, l.regs);
      case Continue => JumpRun(w, l, lo, ctx.value.continueTarget, st, fuel); KeepsSelf(st, l.regs);
      case Return(_) => ReturnRun(w, areas, c, l, lo, st, fuel);
      case Panic(_) => PanicRun(w, areas, c, l, lo, st, fuel);
      case Area(_, _) => AreaRun(w, areas, c, l, lo, ctx, st, fuel);
    }
  }

  lemma {:induction false} KeepsSelf(st: State, k: nat)
    ensures KeepsOld(st, st, k)
  {
  }

  /** The ends of all open areas: only the trace grows. */
  lemma {:induction false} EndsRun(w: World, areas: seq<nat>, l: Build, st: State, fuel: nat)
    ensures var m := EmitEnds(areas, l);
      Grows(l, m) && Run(w, Delta(l, m), st, fuel) == Fall(st.(trace := st.trace + Ends(Handles(areas, st))))
    decreases |areas|
  {
    hide Grows, Delta, Emit, Run;
    var o := Handles(areas, st);
    if areas == [] {
      NoStep(w, l, st, fuel);
      assert st.trace + [] == st.trace;
    } else {
      var init := areas[..|areas| - 1];
      var i := AreaEnd(areas[|areas| - 1]);
      var l1 := EmitInstr(l, i);
      assert l.(regs := l.regs) == l;
      EmitInstrRun(w, l, l.regs, i, st, fuel);
      var s1 := Step(w, i, st);
      EndsRun(w, init, l1, s1, fuel);
      RunThen(w, l, l1, EmitEnds(areas, l), st, fuel);
      assert Handles(init, s1) == o[..|o| - 1];
      assert st.trace + Ends(o) == s1.trace + Ends(o[..|o| - 1]);
    }
  }

  /** Ending all areas and then leaving the function. */
  lemma {:induction false} LeaveRun(w: World, areas: seq<nat>, l: Build, node: Node, st: State, fuel: nat)
    requires node.ReturnNode? || node.PanicNode?
    ensures var m := Emit(EmitEnds(areas, l), node);
      var s1 := st.(trace := st.trace + Ends(Handles(areas, st)));
      Grows(l, m) &&
      Run(w, Delta(l, m), st, fuel) == if node.ReturnNode? then Ret(ValueOf(node.v, st), s1)
        else Panics(ValueOf(node.v, st), s1)
  {
    hide Grows, Delta, Emit, EmitEnds, Handles;
    var l1 := EmitEnds(areas, l);
    EndsRun(w, areas, l, st, fuel);
    var s1 := Run(w, Delta(l, l1), st, fuel).st;
    EmitRun(w, l1, node, s1, fuel);
    RunThen(w, l, l1, Emit(l1, node), st, fuel);
  }

  lemma {:induction false} ReturnRun(w: World, areas: seq<nat>, c: Stmt, l: Build, lo: int, st: State, fuel: nat)
    requires c.Return? && Held(areas, l.regs) && Shaped(l, lo) && lo <= l.next
    ensures var m := LowerStmt(areas, c, l, None);
      Grows(l, m) && Agrees(Exec(w, Handles(areas, st), c, MemoryOf(st), fuel), Run(w, Delta(l, m), st, fuel), None) &&
      KeepsOld(st, Run(w, Delta(l, m), st, fuel).st, l.regs)
  {
    hide Grows, Delta, Shaped, Emit, LowerExpr, EmitEnds, Handles;
    var (v, l1) := LowerExpr(c.e, l);
    ExprQuiet(c.e, l, lo);
    ExprRun(w, c.e, l, lo, st, fuel);
    var s1 := Run(w, Delta(l, l1), st, fuel).st;
    SameHandles(areas, st, s1, l.regs);
    LeaveRun(w, areas, l1, ReturnNode(v), s1, fuel);
    RunThen(w, l, l1, LowerStmt(areas, c, l, None), st, fuel);
  }

  lemma {:induction false} PanicRun(w: World, areas: seq<nat>, c: Stmt, l: Build, lo: int, st: State, fuel: nat)
    requires c.Panic? && Held(areas, l.regs) && Shaped(l, lo) && lo <= l.next
    ensures var m := LowerStmt(areas, c, l, None);
      Grows(l, m) && Agrees(Exec(w, Handles(areas, st), c, MemoryOf(st), fuel), Run(w, Delta(l, m), st, fuel), None) &&
      KeepsOld(st, Run(w, Delta(l, m), st, fuel).st, l.regs)
  {
    hide Grows, Delta, Shaped, Emit, LowerExpr, EmitEnds, Handles, Run, Ends, LowerSwitch;
    var (v, l1) := LowerExpr(c.e, l);
    ExprQuiet(c.e, l, lo);
    ExprRun(w, c.e, l, lo, st, fuel);
    var s1 := Run(w, Delta(l, l1), st, fuel).st;
    SameHandles(areas, st, s1, l.regs);
    var l2 := EmitInstr(l1, SetPanic(v));
    assert l1.(regs := l1.regs) == l1;
    EmitInstrRun(w, l1, l1.regs, SetPanic(v), s1, fuel);
    var s2 := Step(w, SetPanic(v), s1);
    SameHandles(areas, s1, s2, l1.regs);
    LeaveRun(w, areas, l2, PanicNode(v), s2, fuel);
    var m := LowerStmt(areas, c, l, None);
    RunThen(w, l1, l2, m, s1, fuel);
    RunThen(w, l, l1, m, st, fuel);
    var o := Handles(areas, s1);
    assert (s1.trace + [PanicSet(ValueOf(v, s1))]) + Ends(o) == s1.trace + ([PanicSet(ValueOf(v, s1))] + Ends(o));
  }

  lemma {:induction false} AreaSizeRun(w: World, size: Option<Expr>, l: Build, lo: int, st: State, fuel: nat)
    requires Shaped(l, lo) && lo <= l.next
    ensures var (bytes, m) := LowerAreaSize(size, l);
      var r := Run(w, Delta(l, m), st, fuel);
      var n := if bytes.Some? then Some(ValueOf(bytes.value, r.st)) else None;
      Grows(l, m) && r.Fall? && KeepsOld(st, r.st, l.regs) && (n, MemoryOf(r.st)) == AreaSize(w, size, MemoryOf(st))
  {
    hide Grows, Delta, Shaped, Emit, LowerExpr, Run;
    if size.None? {
      NoStep(w, l, st, fuel);
    } else {
      var (v, l1) := LowerExpr(size.value, l);
      ExprRun(w, size.value, l, lo, st, fuel);
      var s1 := Run(w, Delta(l, l1), st, fuel).st;
      GrowsRegs(l, l1);
      var i := Binary(l1.regs, Mul, v, Const(1024));
      EmitInstrRun(w, l1, l1.regs + 1, i, s1, fuel);
      RunThen(w, l, l1, LowerAreaSize(size, l).1, st, fuel);
    }
  }

  /** Opening an area: its register holds the handle, what was open before stays as it was. */
  lemma {:induction false} AreaBeginRun(w: World, areas: seq<nat>, size: Option<Expr>, l: Build, lo: int, st: State,
                                        fuel: nat)
    requires Held(areas, l.regs) && Shaped(l, lo) && lo <= l.next
    ensures var (a, m) := LowerAreaBegin(areas, size, l);
      var r := Run(w, Delta(l, m), st, fuel);
      var (h, s) := Fuel.Entered(w, Handles(areas, st), size, MemoryOf(st));
      Grows(l, m) && r.Fall? && KeepsOld(st, r.st, l.regs) && MemoryOf(r.st) == s &&
      Held(areas + [a], m.regs) && Handles(areas + [a], r.st) == Handles(areas, st) + [h]
  {
    hide Grows, Delta, Shaped, Emit, LowerAreaSize, Run, OpenNode;
    var (bytes, l1) := LowerAreaSize(size, l);
    AreaSizeRun(w, size, l, lo, st, fuel);
    var s1 := Run(w, Delta(l, l1), st, fuel).st;
    SameHandles(areas, st, s1, l.regs);
    GrowsRegs(l, l1);
    var parent := if areas == [] then None else Some(areas[|areas| - 1]);
    var i := AreaBegin(l1.regs, bytes, parent);
    EmitInstrRun(w, l1, l1.regs + 1, i, s1, fuel);
    var s2 := Step(w, i, s1);
    RunThen(w, l, l1, LowerAreaBegin(areas, size, l).1, st, fuel);
    assert Handles(areas, s2) == Handles(areas, s1);
    assert Handles(areas + [l1.regs], s2) == Handles(areas, s2) + [|s1.trace|];
  }

  lemma {:induction false} GrowsRegs(l: Build, m: Build)
    requires Grows(l, m)
    ensures l.regs <= m.regs && l.next <= m.next
  {
  }

  lemma {:induction false} LastHandle(areas: seq<nat>, a: nat, st: State, open: seq<int>, h: int)
    requires Handles(areas + [a], st) == open + [h]
    ensures Lookup(st.regs, a) == h
  {
    assert (open + [h])[|areas|] == Handles(areas + [a], st)[|areas|];
  }

  lemma {:induction false} SameRegs(a: State, b: State, c: State, k: nat)
    requires KeepsOld(a, b, k) && b.regs == c.regs && b.temps == c.temps
    ensures KeepsOld(a, c, k)
  {
  }

  lemma {:induction false} AreaExec(w: World, open: seq<int>, c: Stmt, s: Memory, fuel: nat)
    requires c.Area?
    ensures var (h, s1) := Fuel.Entered(w, open, c.size, s);
      Exec(w, open, c, s, fuel) == EndArea(Exec(w, open + [h], c.body, s1, fuel), h)
  {
  }

  lemma {:induction false} WellScopedMore(c: Stmt, canBreak: bool)
    requires WellScoped(c, false, false)
    ensures WellScoped(c, canBreak, false)
  {
    match c {
      case Seq(a, b) => WellScopedMore(a, canBreak); WellScopedMore(b, canBreak);
      case If(_, _, t, e) => WellScopedMore(t, canBreak); WellScopedMore(e, canBreak);
      case _ =>
    }
  }

  /** What the code of an area does, exactly: what its body does, with the end of the area behind it
      when control gets there. Where a `break` or `continue` leaves the body, the source ends the area
      and the code does not. */
  lemma {:induction false} AreaExact(w: World, areas: seq<nat>, c: Stmt, l: Build, lo: int, ctx: Option<LoopContext>,
                                     cc: bool, st: State, fuel: nat)
    requires c.Area? && Held(areas, l.regs) && Shaped(l, lo) && lo <= l.next && Outer(ctx, lo)
    requires WellScoped(c.body, ctx.Some?, cc) && (cc ==> ctx.Some?)
    ensures var m := LowerStmt(areas, c, l, ctx);
      var r := Run(w, Delta(l, m), st, fuel);
      var (h, s1) := Fuel.Entered(w, Handles(areas, st), c.size, MemoryOf(st));
      var out := Exec(w, Handles(areas, st) + [h], c.body, s1, fuel);
      Grows(l, m) && KeepsOld(st, r.st, l.regs) &&
      Agrees(if out.Broke? || out.Continued? then out else EndArea(out, h), r, ctx) &&
      (Agrees(Exec(w, Handles(areas, st), c, MemoryOf(st), fuel), r, ctx) <==> !out.Broke? && !out.Continued?)
    decreases fuel, c, 0, 0
  {
    hide Grows, Delta, Shaped, Emit, LowerAreaBegin, Handles, KeepsOld, Exec, Run, LowerSwitch, Fuel.Entered,
         WellScoped, MarksWithin, LowerExpr;
    var m := LowerStmt(areas, c, l, ctx);
    var (a, l1) := LowerAreaBegin(areas, c.size, l);
    AreaBeginQuiet(areas, c.size, l, lo);
    AreaBeginRun(w, areas, c.size, l, lo, st, fuel);
    var s1 := Run(w, Delta(l, l1), st, fuel).st;
    var (h, _) := Fuel.Entered(w, Handles(areas, st), c.size, MemoryOf(st));
    var l2 := LowerStmt(areas + [a], c.body, l1, ctx);
    StmtSound(areas + [a], c.body, l1, ctx, lo);
    StmtRun(w, areas + [a], c.body, l1, lo, ctx, cc, s1, fuel);
    var r := Run(w, Delta(l1, l2), s1, fuel);
    SameHandles(areas + [a], s1, r.st, l1.regs);
    LastHandle(areas, a, r.st, Handles(areas, st), h);
    assert l2.(regs := l2.regs) == l2;
    EmitInstrRun(w, l2, l2.regs, AreaEnd(a), r.st, fuel);
    RunThen(w, l1, l2, m, s1, fuel);
    RunThen(w, l, l1, m, st, fuel);
    KeepsTrans(st, s1, r.st, l.regs, l1.regs);
    SameRegs(st, r.st, Step(w, AreaEnd(a), r.st), l.regs);
    AreaExec(w, Handles(areas, st), c, MemoryOf(st), fuel);
  }

  /** An area that no `break` or `continue` leaves. */
  lemma {:induction false} AreaRun(w: World, areas: seq<nat>, c: Stmt, l: Build, lo: int, ctx: Option<LoopContext>,
                                   st: State, fuel: nat)
    requires c.Area? && Held(areas, l.regs) && Shaped(l, lo) && lo <= l.next && Outer(ctx, lo) &&
      WellScoped(c.body, false, false)
    ensures var m := LowerStmt(areas, c, l, ctx);
      Grows(l, m) && Agrees(Exec(w, Handles(areas, st), c, MemoryOf(st), fuel), Run(w, Delta(l, m), st, fuel), ctx) &&
      KeepsOld(st, Run(w, Delta(l, m), st, fuel).st, l.regs)
    decreases fuel, c, 0, 1
  {
    hide Grows, Delta, Shaped, LowerStmt, Handles, KeepsOld, Exec;
    WellScopedMore(c.body, ctx.Some?);
    AreaExact(w, areas, c, l, lo, ctx, false, st, fuel);
    var (h, s1) := Fuel.Entered(w, Handles(areas, st), c.size, MemoryOf(st));
    Fuel.NeverLoose(w, Handles(areas, st) + [h], c.body, false, false, s1, fuel);
    AreaExec(w, Handles(areas, st), c, MemoryOf(st), fuel);
  }

  /** A body written from scratch. */
  lemma {:induction false} BodyRun(w: World, areas: seq<nat>, c: Stmt, l: Build, ctx: Option<LoopContext>, cc: bool,
                                   st: State, fuel: nat)
    requires Held(areas, l.regs)
    requires l.body == [] && Outer(ctx, l.next) && WellScoped(c, ctx.Some?, cc) && (cc ==> ctx.Some?)
    ensures var r := Run(w, LowerStmt(areas, c, l, ctx).body, st, fuel);
      Agrees(Exec(w, Handles(areas, st), c, MemoryOf(st), fuel), r, ctx) && KeepsOld(st, r.st, l.regs)
    decreases fuel, c, 2
  {
    hide Grows, Delta, LowerStmt, Exec, Run, KeepsOld, Handles;
    FreshShaped(l);
    BodySound(areas, c, l, ctx);
    StmtRun(w, areas, c, l, l.next, ctx, cc, st, fuel);
    FreshRun(w, l, LowerStmt(areas, c, l, ctx), st, fuel);
  }

  lemma {:induction false} IfRun(w: World, areas: seq<nat>, c: Stmt, l: Build, lo: int, ctx: Option<LoopContext>,
                                 cc: bool, st: State, fuel: nat)
    requires Held(areas, l.regs)
    requires c.If? && Shaped(l, lo) && lo <= l.next && Outer(ctx, lo) && WellScoped(c, ctx.Some?, cc) &&
      (cc ==> ctx.Some?)
    ensures var m := LowerStmt(areas, c, l, ctx);
      Grows(l, m) && Agrees(Exec(w, Handles(areas, st), c, MemoryOf(st), fuel), Run(w, Delta(l, m), st, fuel), ctx) &&
      KeepsOld(st, Run(w, Delta(l, m), st, fuel).st, l.regs)
    decreases fuel, c, 0
  {
    hide Grows, Delta, Shaped, Emit, LowerExpr, Place, Tidy, LowerSimple, LowerFor, Run, RunNode, Exec, Agrees, Handles,
         KeepsOld;
    var m := LowerStmt(areas, c, l, ctx);
    var l0 := LowerSimple(areas, c.init, l);
    SimpleQuiet(areas, c.init, l, lo);
    SimpleRun(w, areas, c.init, l, lo, st, fuel);
    var s0 := Run(w, Delta(l, l0), st, fuel).st;
    SameHandles(areas, st, s0, l.regs);
    var (v, l1) := LowerExpr(c.cond, l0);
    ExprQuiet(c.cond, l0, lo);
    ExprRun(w, c.cond, l0, lo, s0, fuel);
    var s1 := Run(w, Delta(l0, l1), s0, fuel).st;
    KeepsTrans(st, s0, s1, l.regs, l0.regs);
    SameHandles(areas, st, s1, l.regs);
    var t := LowerStmt(areas, c.thn, Build([], l1.next + 2, l1.regs), ctx);
    var e := LowerStmt(areas, c.els, Build([], t.next, t.regs), ctx);
    ShapedTidy(l1, lo);
    IfNodeRun(w, areas, c, v, l1, ctx, cc, s1, fuel);
    PlacedRun(w, l1, IfNode(v, t.body, e.body), l1.next + 1, m, s1, fuel);
    var r := RunNode(w, Control(l1.next, -1, IfNode(v, t.body, e.body)), s1, fuel);
    IfExec(w, Handles(areas, st), c, MemoryOf(st), fuel);
    NotOwn(IfTaken(w, Handles(areas, st), c, ValueOf(v, s1), MemoryOf(s1), fuel), r, ctx, l1.next + 1);
    RunThen(w, l0, l1, m, s0, fuel);
    RunThen(w, l, l0, m, st, fuel);
    KeepsTrans(st, s1, r.st, l.regs, l1.regs);
  }

  /** What the source does behind the condition. */
  function IfTaken(w: World, open: seq<int>, c: Stmt, v: int, s: Memory, fuel: nat): Outcome
    requires c.If?
  {
    if Truth(v) then Exec(w, open, c.thn, s, fuel) else Exec(w, open, c.els, s, fuel)
  }

  lemma {:induction false} IfExec(w: World, open: seq<int>, c: Stmt, s: Memory, fuel: nat)
    requires c.If?
    ensures var (v, s1) := Eval(w, c.cond, ExecSimple(w, open, c.init, s));
      Exec(w, open, c, s, fuel) == IfTaken(w, open, c, v, s1, fuel)
  {
  }

  /** An ending that agrees does not branch to something inside. */
  lemma {:induction false} NotOwn(out: Outcome, r: Result, ctx: Option<LoopContext>, id: nat)
    requires Agrees(out, r, ctx) && Outer(ctx, id)
    ensures !(r.Branch? && r.target == id)
    ensures Agrees(out, Leave(r, id), ctx) && Leave(r, id).st == r.st
  {
  }

  /** The `if` node with the condition's value in `v`. */
  lemma {:induction false} IfNodeRun(w: World, areas: seq<nat>, c: Stmt, v: Value, l1: Build, ctx: Option<LoopContext>,
                                     cc: bool, st: State, fuel: nat)
    requires Held(areas, l1.regs) && c.If? && Outer(ctx, l1.next) && WellScoped(c, ctx.Some?, cc) && (cc ==> ctx.Some?)
    ensures var t := LowerStmt(areas, c.thn, Build([], l1.next + 2, l1.regs), ctx);
      var e := LowerStmt(areas, c.els, Build([], t.next, t.regs), ctx);
      var n := Control(l1.next, -1, IfNode(v, t.body, e.body));
      var r := RunNode(w, n, st, fuel);
      Agrees(IfTaken(w, Handles(areas, st), c, ValueOf(v, st), MemoryOf(st), fuel), r, ctx) &&
      KeepsOld(st, r.st, l1.regs) && TidyNode(n) && l1.next + 2 <= t.next <= e.next && l1.regs <= t.regs <= e.regs
    decreases fuel, c, 0, 0
  {
    hide Tidy, LowerStmt, Run, Exec, Agrees, Handles, KeepsOld;
    var t0 := Build([], l1.next + 2, l1.regs);
    var t := LowerStmt(areas, c.thn, t0, ctx);
    var e0 := Build([], t.next, t.regs);
    var e := LowerStmt(areas, c.els, e0, ctx);
    BodySound(areas, c.thn, t0, ctx);
    BodySound(areas, c.els, e0, ctx);
    var out := IfTaken(w, Handles(areas, st), c, ValueOf(v, st), MemoryOf(st), fuel);
    if Truth(ValueOf(v, st)) {
      BodyRun(w, areas, c.thn, t0, ctx, cc, st, fuel);
      NotOwn(out, Run(w, t.body, st, fuel), ctx, l1.next);
    } else {
      BodyRun(w, areas, c.els, e0, ctx, cc, st, fuel);
      KeepsLess(st, Run(w, e.body, st, fuel).st, l1.regs, e0.regs);
      NotOwn(out, Run(w, e.body, st, fuel), ctx, l1.next);
    }
  }

  lemma {:induction false} ForRun(w: World, areas: seq<nat>, c: Stmt, l: Build, lo: int, ctx: Option<LoopContext>,
                                  cc: bool, st: State, fuel: nat)
    requires Held(areas, l.regs)
    requires c.For? && Shaped(l, lo) && lo <= l.next && Outer(ctx, lo) && WellScoped(c, ctx.Some?, cc) &&
      (cc ==> ctx.Some?)
    ensures var m := LowerStmt(areas, c, l, ctx);
      Grows(l, m) && Agrees(Exec(w, Handles(areas, st), c, MemoryOf(st), fuel), Run(w, Delta(l, m), st, fuel), ctx) &&
      KeepsOld(st, Run(w, Delta(l, m), st, fuel).st, l.regs)
    decreases fuel, c, 0
  {
    hide Grows, Delta, Shaped, Place, LowerSimple, LowerLoopNode, Run, RunLoop, ExecFor, KeepsOld, Handles,
         LowerSwitch, Exec;
    var m := LowerStmt(areas, c, l, ctx);
    assert m == LowerFor(areas, c, l);
    var (loop, p) := LowerLoopNode(areas, c, l);
    LoopNodeSound(areas, c, l);
    TargetsOne(loop);
    ShapedTidy(l, lo);
    OneTidy(loop);
    PlacedRun(w, l, BlockNode(Ordinary, [loop]), l.next + 2, m, st, fuel);
    RunSingle(w, loop, st, fuel);
    LoopNodeRun(w, areas, c, l, st, fuel);
  }

  /** How the loop inside its block ends: a loop that is done leaves the block, by the failing test
      or by `break`. */
  ghost predicate LoopAgrees(out: Outcome, r: Result, blockId: nat) {
    && out.s == MemoryOf(r.st)
    && match out
       case Normal(_) => r.Branch? && (r.target == blockId || r.target == blockId + 2)
       case Returned(v, _) => r.Ret? && r.value == v
       case Panicked(v, _) => r.Panics? && r.value == v
       case OutOfFuel(_) => r.Timeout?
       case _ => false
  }

  lemma {:induction false} LoopNodeRun(w: World, areas: seq<nat>, c: Stmt, l: Build, st: State, fuel: nat)
    requires Held(areas, l.regs)
    requires c.For? && WellScoped(c, true, true)
    ensures var r := RunNode(w, LowerLoopNode(areas, c, l).0, st, fuel);
      LoopAgrees(Exec(w, Handles(areas, st), c, MemoryOf(st), fuel), r, l.next) && KeepsOld(st, r.st, l.regs)
    decreases fuel, c, 0, 1
  {
    hide Grows, Delta, Shaped, LowerSimple, Run, RunLoop, ExecFor, KeepsOld, Handles;
    var i0 := Build([], l.next + 3, l.regs);
    var i := LowerSimple(areas, c.init, i0);
    FreshShaped(i0);
    SimpleQuiet(areas, c.init, i0, i0.next);
    ShapedTidy(i, i0.next);
    SimpleRun(w, areas, c.init, i0, i0.next, st, fuel);
    FreshRun(w, i0, i, st, fuel);
    var s0 := Run(w, i.body, st, fuel).st;
    SameHandles(areas, st, s0, l.regs);
    LoopRun(w, areas, c, l, i, s0, fuel);
    KeepsTrans(st, s0, RunNode(w, LowerLoopNode(areas, c, l).0, st, fuel).st, l.regs, l.regs);
  }

  lemma {:induction false} LoopRun(w: World, areas: seq<nat>, c: Stmt, l: Build, i: Build, st: State, fuel: nat)
    requires Held(areas, l.regs)
    requires c.For? && WellScoped(c, true, true) && i.next >= l.next + 3 && l.regs <= i.regs
    ensures var (loopId, contId) := (l.next + 1, l.next + 2);
      var b := LowerLoopBody(areas, c, l.next, Some(LoopContext(contId, loopId)), Build([], i.next, i.regs));
      var p := Jump(LowerSimple(areas, c.post, Build([], b.next, b.regs)), loopId);
      var r := RunLoop(w, loopId, b.body, p.body, st, fuel);
      LoopAgrees(ExecFor(w, Handles(areas, st), c.test, c.post, c.body, MemoryOf(st), fuel), r, l.next) &&
        KeepsOld(st, r.st, l.regs)
    decreases fuel, c, 0, 0
  {
    hide Grows, Delta, Shaped, LowerSimple, Run, LowerLoopBody, KeepsOld, Handles;
    var (loopId, contId) := (l.next + 1, l.next + 2);
    var ctx := Some(LoopContext(contId, loopId));
    var b := LowerLoopBody(areas, c, l.next, ctx, Build([], i.next, i.regs));
    KeepsSelf(st, l.regs);
    if fuel > 0 {
      LoopBodyRun(w, areas, c, l.next, ctx, Build([], i.next, i.regs), st, fuel);
      LoopBodySound(areas, c, l.next, ctx, Build([], i.next, i.regs));
      var r := Leave(Run(w, b.body, st, fuel), loopId);
      KeepsLess(st, Run(w, b.body, st, fuel).st, l.regs, i.regs);
      if r.Fall? {
        SameHandles(areas, st, r.st, l.regs);
        var p0 := Build([], b.next, b.regs);
        PostRun(w, areas, c.post, p0, loopId, r.st, fuel - 1);
        var q := Run(w, Jump(LowerSimple(areas, c.post, p0), loopId).body, r.st, fuel - 1);
        KeepsTrans(st, r.st, q.st, l.regs, p0.regs);
        SameHandles(areas, st, q.st, l.regs);
        LoopRun(w, areas, c, l, i, q.st, fuel - 1);
        var p := Jump(LowerSimple(areas, c.post, p0), loopId);
        KeepsTrans(st, q.st, RunLoop(w, loopId, b.body, p.body, q.st, fuel - 1).st, l.regs, l.regs);
      }
    }
  }

  lemma {:induction false} PostRun(w: World, areas: seq<nat>, post: Simple, l: Build, loopId: nat, st: State, fuel: nat)
    requires Held(areas, l.regs)
    requires l.body == [] && loopId < l.next
    ensures var r := Run(w, Jump(LowerSimple(areas, post, l), loopId).body, st, fuel);
      r.Branch? && r.target == loopId && MemoryOf(r.st) == ExecSimple(w, Handles(areas, st), post, MemoryOf(st)) &&
        KeepsOld(st, r.st, l.regs)
  {
    hide Grows, Delta, Shaped, LowerSimple, Run, KeepsOld, Handles;
    var m := LowerSimple(areas, post, l);
    FreshShaped(l);
    SimpleQuiet(areas, post, l, l.next);
    SimpleRun(w, areas, post, l, l.next, st, fuel);
    var s1 := Run(w, Delta(l, m), st, fuel).st;
    JumpRun(w, m, l.next, loopId, s1, fuel);
    RunThen(w, l, m, Jump(m, loopId), st, fuel);
    PlaceShaped(m, BrNode(loopId), m.next + 1, l.next);
    ShapedTidy(Jump(m, loopId), l.next);
    FreshRun(w, l, Jump(m, loopId), st, fuel);
  }

  /** One iteration without Post: a failing test leaves the block, otherwise the source body runs. */
  lemma {:induction false} LoopBodyRun(w: World, areas: seq<nat>, c: Stmt, blockId: nat, ctx: Option<LoopContext>,
                                       l: Build, st: State, fuel: nat)
    requires Held(areas, l.regs)
    requires c.For? && l.body == [] && ctx.Some? && Outer(ctx, l.next) && blockId < l.next && WellScoped(c, true, true)
    ensures var r := Run(w, LowerLoopBody(areas, c, blockId, ctx, l).body, st, fuel);
      var (v, s1) := if c.test.Some? then Eval(w, c.test.value, MemoryOf(st)) else (1, MemoryOf(st));
      KeepsOld(st, r.st, l.regs) &&
      if Truth(v) then Agrees(Exec(w, Handles(areas, st), c.body, s1, fuel), r, ctx)
      else r.Branch? && r.target == blockId && MemoryOf(r.st) == s1
    decreases fuel, c.body, 3
  {
    hide Grows, Delta, Shaped, Emit, LowerExpr, Place, Tidy, LowerStmt, Run, KeepsOld, Handles;
    if c.test.None? {
      BodyRun(w, areas, c.body, l, ctx, true, st, fuel);
    } else {
      var m := LowerLoopBody(areas, c, blockId, ctx, l);
      var (v, l1) := LowerExpr(c.test.value, l);
      FreshShaped(l);
      ExprQuiet(c.test.value, l, l.next);
      ExprRun(w, c.test.value, l, l.next, st, fuel);
      var s1 := Run(w, Delta(l, l1), st, fuel).st;
      SameHandles(areas, st, s1, l.regs);
      var t0 := Build([], l1.next + 2, l1.regs);
      var t := LowerStmt(areas, c.body, t0, ctx);
      BodySound(areas, c.body, t0, ctx);
      var exit := Control(l1.next + 1, -1, BrNode(blockId));
      OneTidy(exit);
      ShapedTidy(l1, l.next);
      PlaceRun(w, l1, IfNode(v, t.body, [exit]), m, s1, fuel);
      if Truth(ValueOf(v, s1)) {
        BodyRun(w, areas, c.body, t0, ctx, true, s1, fuel);
      } else {
        RunSingle(w, exit, s1, fuel);
        KeepsSelf(s1, l1.regs);
      }
      RunThen(w, l, l1, m, st, fuel);
      KeepsTrans(st, s1, Run(w, Delta(l1, m), s1, fuel).st, l.regs, l1.regs);
      LoopBodySound(areas, c, blockId, ctx, l);
      FreshRun(w, l, m, st, fuel);
    }
  }

  /** Where the block has ended, control does not get past the statement. */
  lemma {:induction false} EndedStops(w: World, open: seq<int>, c: Stmt, inLoop: bool, s: Memory, fuel: nat)
    requires Ended(c, false, inLoop)
    ensures !Exec(w, open, c, s, fuel).Normal?
    decreases c
  {
    if c.Seq? {
      if Ended(c.first, false, inLoop) {
        EndedStops(w, open, c.first, inLoop, s, fuel);
      } else {
        var r := Exec(w, open, c.first, s, fuel);
        EndedStops(w, open, c.second, inLoop, r.s, fuel);
      }
    } else if c.Area? {
      var (h, s1) := Fuel.Entered(w, open, c.size, s);
      EndedStops(w, open + [h], c.body, inLoop, s1, fuel);
    }
  }

  /** What a caller sees of a function body: falling off its end returns the default value. */
  function Call(out: Outcome): Outcome {
    if out.Normal? then Returned(0, out.s) else out
  }

  /** The lowered function does what the source does: same result, same variables, same calls in the
      same order, and the same state wherever either one is stopped for lack of fuel. */
  lemma {:induction false} FunctionCorrect(w: World, c: Stmt, regs: nat, st: State, fuel: nat)
    requires WellScoped(c, false, false)
    ensures Agrees(Call(Exec(w, [], c, MemoryOf(st), fuel)), RunNode(w, LowerFunction(c, regs), st, fuel), None)
  {
    hide Grows, Delta, Shaped, Run, Exec, LowerStmt, Emit, WellScoped, KeepsOld, HasShortCircuit, Step;
    var l0 := Build([], 2, regs);
    var l := LowerStmt([], c, l0, None);
    var m := if Ended(c, false, false) then l else Emit(l, ReturnNode(Const(0)));
    FreshShaped(l0);
    StmtSound([], c, l0, None, 2);
    StmtRun(w, [], c, l0, 2, None, false, st, fuel);
    Fuel.NeverLoose(w, [], c, false, false, MemoryOf(st), fuel);
    assert Handles([], st) == [];
    var r := Run(w, Delta(l0, l), st, fuel);
    if Ended(c, false, false) {
      EndedStops(w, [], c, false, MemoryOf(st), fuel);
      ShapedTidy(l, 2);
    } else {
      EmitRun(w, l, ReturnNode(Const(0)), r.st, fuel);
      RunThen(w, l0, l, m, st, fuel);
      EmitShaped(l, ReturnNode(Const(0)), 2);
      ShapedTidy(m, 2);
    }
    FreshRun(w, l0, m, st, fuel);
    RunAppend(w, m.body, [ExitNode()], st, fuel);
  }

  /** What clause `k` does; past the last clause nothing happens. */
  function ExecClause(w: World, open: seq<int>, clauses: seq<Clause>, k: nat, s: Memory, fuel: nat): Outcome {
    if k >= |clauses| then Normal(s) else
    var r := Exec(w, open, clauses[k].body, s, fuel);
    if r.Broke? then Normal(r.s) else r
  }

  /** A switch that is done falls through, or branches to its block or to the continuation. */
  ghost predicate SwitchAgrees(out: Outcome, r: Result, blockId: nat) {
    && out.s == MemoryOf(r.st)
    && match out
       case Normal(_) => r.Fall? || (r.Branch? && (r.target == blockId || r.target == blockId + 1))
       case Continued(_) => r.Branch? && r.target == 0
       case Returned(v, _) => r.Ret? && r.value == v
       case Panicked(v, _) => r.Panics? && r.value == v
       case OutOfFuel(_) => r.Timeout?
       case Broke(_) => false
  }

  /** The dispatch index is the run-time bucket of the switch value. */
  lemma {:induction false} DispatchRun(w: World, text: bool, v: Value, size: nat, l: Build, st: State, fuel: nat)
    requires size > 0 && (v.Reg? ==> v.r < l.regs)
    ensures var (x, m) := LowerDispatch(text, v, size, l);
      var r := Run(w, Delta(l, m), st, fuel);
      Grows(l, m) && m.regs > l.regs && r.Fall? && MemoryOf(r.st) == MemoryOf(st) && KeepsOld(st, r.st, l.regs) &&
      ValueOf(v, r.st) == ValueOf(v, st) && ValueOf(x, r.st) == RunBucketOf(w, text, size, ValueOf(v, st))
  {
    hide Grows, Delta, Emit, StringSwitch.Hash, Run;
    if text {
      var i := HashText(l.regs, v);
      var l0 := EmitInstr(l.(regs := l.regs + 1), i);
      EmitInstrRun(w, l, l.regs + 1, i, st, fuel);
      var s0 := Step(w, i, st);
      ReduceRun(w, Reg(l.regs), size, l0, s0, fuel);
      RunThen(w, l, l0, LowerDispatch(text, v, size, l).1, st, fuel);
    } else {
      ReduceRun(w, v, size, l, st, fuel);
    }
  }

  /** Cast to unsigned, then the remainder. */
  lemma {:induction false} ReduceRun(w: World, h: Value, size: nat, l: Build, st: State, fuel: nat)
    requires size > 0 && (h.Reg? ==> h.r < l.regs)
    ensures var (x, m) := LowerDispatch(false, h, size, l);
      var r := Run(w, Delta(l, m), st, fuel);
      Grows(l, m) && m.regs > l.regs && r.Fall? && MemoryOf(r.st) == MemoryOf(st) && KeepsOld(st, r.st, l.regs) &&
      ValueOf(h, r.st) == ValueOf(h, st) && ValueOf(x, r.st) == SwitchTable.RunBucket(size, ValueOf(h, st))
  {
    hide Grows, Delta, Emit, Run;
    var i := CastUnsigned(l.regs, h);
    var l1 := EmitInstr(l.(regs := l.regs + 1), i);
    EmitInstrRun(w, l, l.regs + 1, i, st, fuel);
    EmitInstrRun(w, l1, l1.regs + 1, RemUnsigned(l1.regs, Reg(l.regs), size), Step(w, i, st), fuel);
    RunThen(w, l, l1, LowerDispatch(false, h, size, l).1, st, fuel);
  }

  /** The step computes the flag `x`: run from `st` its code falls through with the flag in a
      register of its own and nothing older, and no memory, changed. */
  ghost predicate Flags(w: World, l: Build, x: Value, m: Build, st: State, fuel: nat, flag: bool) {
    var r := Run(w, Delta(l, m), st, fuel);
    && Grows(l, m) && l.regs <= m.regs
    && r.Fall? && MemoryOf(r.st) == MemoryOf(st) && KeepsOld(st, r.st, l.regs)
    && x.Reg? && l.regs <= x.r < m.regs && ValueOf(x, r.st) == if flag then 1 else 0
  }

  lemma {:induction false} TestRun(w: World, text: bool, v: Value, k: Key, l: Build, st: State, fuel: nat)
    requires (v.Reg? ==> v.r < l.regs) && k.TextKey? == text
    ensures var m := EmitInstr(l.(regs := l.regs + 1), Compare(l.regs, v, k));
      Flags(w, l, Reg(l.regs), m, st, fuel, KeyOf(w, text, ValueOf(v, st)) == k)
  {
    hide Grows, Delta, Emit;
    EmitInstrRun(w, l, l.regs + 1, Compare(l.regs, v, k), st, fuel);
  }

  /** Two flags computed one after the other, and their or. */
  lemma {:induction false} OrRun(w: World, l: Build, x: Value, l1: Build, l2: Build, st: State, fuel: nat, p: bool,
                                 q: bool)
    requires Flags(w, l, x, l1, st, fuel, p)
    requires Flags(w, l1, Reg(l1.regs), l2, Run(w, Delta(l, l1), st, fuel).st, fuel, q)
    ensures var m := EmitInstr(l2.(regs := l2.regs + 1), Binary(l2.regs, OrBool, x, Reg(l1.regs)));
      Flags(w, l, Reg(l2.regs), m, st, fuel, p || q)
  {
    hide Grows, Delta, Emit;
    var i := Binary(l2.regs, OrBool, x, Reg(l1.regs));
    var m := EmitInstr(l2.(regs := l2.regs + 1), i);
    var s1 := Run(w, Delta(l, l1), st, fuel).st;
    var s2 := Run(w, Delta(l1, l2), s1, fuel).st;
    RunThen(w, l, l1, l2, st, fuel);
    EmitInstrRun(w, l2, l2.regs + 1, i, s2, fuel);
    RunThen(w, l, l2, m, st, fuel);
  }

  /** The tests of a bucket's keys tell whether the switch value is among them. */
  lemma {:induction false} TestsRun(w: World, text: bool, v: Value, keys: seq<Key>, l: Build, st: State, fuel: nat)
    requires keys != [] && (v.Reg? ==> v.r < l.regs) && forall i :: 0 <= i < |keys| ==> keys[i].TextKey? == text
    ensures var (x, m) := LowerTests(v, keys, l);
      Flags(w, l, x, m, st, fuel, KeyOf(w, text, ValueOf(v, st)) in keys)
    decreases |keys|
  {
    hide Grows, Delta, Emit, Run, KeyOf;
    var k := keys[|keys| - 1];
    if |keys| == 1 {
      TestRun(w, text, v, k, l, st, fuel);
    } else {
      var init, key := keys[..|keys| - 1], KeyOf(w, text, ValueOf(v, st));
      assert keys == init + [k];
      TestsRun(w, text, v, init, l, st, fuel);
      var (x, l1) := LowerTests(v, init, l);
      var s1 := Run(w, Delta(l, l1), st, fuel).st;
      TestRun(w, text, v, k, l1, s1, fuel);
      assert ValueOf(v, s1) == ValueOf(v, st);
      var l2 := EmitInstr(l1.(regs := l1.regs + 1), Compare(l1.regs, v, k));
      OrRun(w, l, x, l1, l2, st, fuel, key in init, key == k);
    }
  }

  /** The keys of a bucket are of the switch's kind. */
  lemma {:induction false} BucketKeysAlike(c: Stmt, b: nat, i: nat)
    requires Switchable(c) && i < |c.clauses|
    ensures forall j :: 0 <= j < |BucketKeys(c, b, i)| ==> BucketKeys(c, b, i)[j].TextKey? == c.text
  {
    var keys := BucketKeys(c, b, i);
    forall j | 0 <= j < |keys| ensures keys[j].TextKey? == c.text {
      assert keys[j] in keys;
      SwitchTable.FlattenHas(Keys(c.clauses), i, keys[j]);
    }
  }

  predicate ClausesScoped(clauses: seq<Clause>, canContinue: bool) {
    forall i :: 0 <= i < |clauses| ==> WellScoped(clauses[i].body, true, canContinue)
  }

  lemma {:induction false} ChainClauseStep(c: Stmt, b: nat, i: nat, key: Key)
    requires c.Switch? && i <= |c.clauses|
    ensures i == |c.clauses| ==> ChainClause(c, b, i, key) == SwitchTable.DefaultClause(Keys(c.clauses))
    ensures i < |c.clauses| ==>
      ChainClause(c, b, i, key) == if key in BucketKeys(c, b, i) then i else ChainClause(c, b, i + 1, key)
  {
    hide SwitchTable.DefaultClause, BucketOf, SwitchTable.InBucket;
  }

  /** The chain passes over clauses without a key in the bucket. */
  lemma {:induction false} ChainSkips(areas: seq<nat>, c: Stmt, v: Value, b: nat, i: nat, blockId: nat,
                                      ctx: Option<LoopContext>, l: Build)
    requires c.Switch? && i <= |c.clauses|
    ensures i == |c.clauses| ==>
      LowerChain(areas, c, v, b, i, blockId, ctx, l) == LowerDefault(areas, c, blockId, ctx, l)
    ensures i < |c.clauses| && BucketKeys(c, b, i) == [] ==>
      LowerChain(areas, c, v, b, i, blockId, ctx, l) == LowerChain(areas, c, v, b, i + 1, blockId, ctx, l)
  {
    hide LowerDefault, LowerStmt, BucketKeys;
  }

  lemma {:induction false} ChainRun(w: World, areas: seq<nat>, c: Stmt, v: Value, b: nat, i: nat, blockId: nat,
                                    cc: bool, l: Build, st: State, fuel: nat)
    requires Held(areas, l.regs)
    requires Switchable(c) && i <= |c.clauses| && l.body == [] && 0 < blockId && blockId + 1 < l.next
    requires ClausesScoped(c.clauses, cc) && (v.Reg? ==> v.r < l.regs)
    ensures var m := LowerChain(areas, c, v, b, i, blockId, Some(LoopContext(blockId + 1, 0)), l);
      var r := Run(w, m.body, st, fuel);
      SwitchAgrees(ExecClause(w, Handles(areas, st), c.clauses, ChainClause(c, b, i, KeyOf(w, c.text, ValueOf(v, st))),
                              MemoryOf(st), fuel), r, blockId) &&
      KeepsOld(st, r.st, l.regs)
    decreases fuel, c, 0, 3 * (|c.clauses| - i) + 2
  {
    hide LowerChain, Run, ExecClause, ChainClause, KeepsOld, Handles, SwitchAgrees, GetsTable;
    var ctx := Some(LoopContext(blockId + 1, 0));
    ChainClauseStep(c, b, i, KeyOf(w, c.text, ValueOf(v, st)));
    ChainSkips(areas, c, v, b, i, blockId, ctx, l);
    if i == |c.clauses| {
      DefaultRun(w, areas, c, blockId, cc, l, st, fuel);
    } else {
      var keys := BucketKeys(c, b, i);
      if keys == [] {
        ChainRun(w, areas, c, v, b, i + 1, blockId, cc, l, st, fuel);
      } else {
        LinkRun(w, areas, c, v, b, i, blockId, cc, l, st, fuel);
      }
    }
  }

  /** A clause of the chain with keys in the bucket. */
  lemma {:induction false} LinkRun(w: World, areas: seq<nat>, c: Stmt, v: Value, b: nat, i: nat, blockId: nat,
                                   cc: bool, l: Build, st: State, fuel: nat)
    requires Held(areas, l.regs)
    requires Switchable(c) && i < |c.clauses| && l.body == [] && 0 < blockId && blockId + 1 < l.next
    requires ClausesScoped(c.clauses, cc) && (v.Reg? ==> v.r < l.regs) && BucketKeys(c, b, i) != []
    ensures var m := LowerChain(areas, c, v, b, i, blockId, Some(LoopContext(blockId + 1, 0)), l);
      var r := Run(w, m.body, st, fuel);
      SwitchAgrees(ExecClause(w, Handles(areas, st), c.clauses, ChainClause(c, b, i, KeyOf(w, c.text, ValueOf(v, st))),
                              MemoryOf(st), fuel), r, blockId) &&
      KeepsOld(st, r.st, l.regs)
    decreases fuel, c, 0, 3 * (|c.clauses| - i) + 1
  {
    hide Grows, Delta, Shaped, Emit, Place, LowerStmt, LowerTests, Run, RunNode, ExecClause, ChainClause, Tidy,
         Targets, Bounded, KeepsOld, Handles, SwitchAgrees, GetsTable;
    var ctx, keys := Some(LoopContext(blockId + 1, 0)), BucketKeys(c, b, i);
    var m := LowerChain(areas, c, v, b, i, blockId, ctx, l);
    var (x, l1) := LowerTests(v, keys, l);
    FreshShaped(l);
    TestsQuiet(v, keys, l, l.next);
    BucketKeysAlike(c, b, i);
    TestsRun(w, c.text, v, keys, l, st, fuel);
    var s1 := Run(w, Delta(l, l1), st, fuel).st;
    SameValue(v, st, s1, l.regs);
    SameHandles(areas, st, s1, l.regs);
    var t := Jump(LowerStmt(areas, c.clauses[i].body, Build([], l1.next + 1, l1.regs), ctx), blockId);
    var e := LowerChain(areas, c, v, b, i + 1, blockId, ctx, Build([], t.next, t.regs));
    LinkNodeRun(w, areas, c, v, x, b, i, blockId, cc, l1, s1, fuel);
    ShapedTidy(l1, l.next);
    PlaceRun(w, l1, IfNode(x, t.body, e.body), m, s1, fuel);
    KeepsTrans(st, s1, Run(w, Delta(l1, m), s1, fuel).st, l.regs, l1.regs);
    RunThen(w, l, l1, m, st, fuel);
    ChainSound(areas, c, v, b, i, blockId, ctx, l);
    FreshRun(w, l, m, st, fuel);
  }

  /** The `if` of such a clause, when its flag tells whether the switch value is among the keys. */
  lemma {:induction false} LinkNodeRun(w: World, areas: seq<nat>, c: Stmt, v: Value, x: Value, b: nat, i: nat,
                                       blockId: nat, cc: bool, l1: Build, st: State, fuel: nat)
    requires Held(areas, l1.regs)
    requires Switchable(c) && i < |c.clauses| && 0 < blockId && blockId + 1 < l1.next
    requires ClausesScoped(c.clauses, cc) && (v.Reg? ==> v.r < l1.regs)
    requires Truth(ValueOf(x, st)) <==> KeyOf(w, c.text, ValueOf(v, st)) in BucketKeys(c, b, i)
    ensures var ctx := Some(LoopContext(blockId + 1, 0));
      var t := Jump(LowerStmt(areas, c.clauses[i].body, Build([], l1.next + 1, l1.regs), ctx), blockId);
      var e := LowerChain(areas, c, v, b, i + 1, blockId, ctx, Build([], t.next, t.regs));
      var n := Control(l1.next, -1, IfNode(x, t.body, e.body));
      var r := RunNode(w, n, st, fuel);
      SwitchAgrees(ExecClause(w, Handles(areas, st), c.clauses, ChainClause(c, b, i, KeyOf(w, c.text, ValueOf(v, st))),
                              MemoryOf(st), fuel), r, blockId) &&
      KeepsOld(st, r.st, l1.regs) && TidyNode(n) && l1.regs <= e.regs && l1.next < e.next
    decreases fuel, c, 0, 3 * (|c.clauses| - i)
  {
    hide Shaped, Place, LowerStmt, LowerChain, Run, ExecClause, ChainClause, Tidy, Targets, Bounded, KeepsOld, Handles,
         SwitchAgrees, GetsTable, BucketKeys;
    var ctx := Some(LoopContext(blockId + 1, 0));
    ChainClauseStep(c, b, i, KeyOf(w, c.text, ValueOf(v, st)));
    var t0 := Build([], l1.next + 1, l1.regs);
    var t := Jump(LowerStmt(areas, c.clauses[i].body, t0, ctx), blockId);
    ClauseSound(areas, c.clauses[i].body, blockId, ctx, t0);
    var e0 := Build([], t.next, t.regs);
    var e := LowerChain(areas, c, v, b, i + 1, blockId, ctx, e0);
    ChainSound(areas, c, v, b, i + 1, blockId, ctx, e0);
    var out := ExecClause(w, Handles(areas, st), c.clauses, ChainClause(c, b, i, KeyOf(w, c.text, ValueOf(v, st))),
                          MemoryOf(st), fuel);
    if KeyOf(w, c.text, ValueOf(v, st)) in BucketKeys(c, b, i) {
      ClauseRun(w, areas, c.clauses, i, blockId, cc, t0, st, fuel);
      TableLeave(out, Run(w, t.body, st, fuel), l1.next, blockId);
    } else {
      ChainRun(w, areas, c, v, b, i + 1, blockId, cc, e0, st, fuel);
      KeepsLess(st, Run(w, e.body, st, fuel).st, l1.regs, e0.regs);
      TableLeave(out, Run(w, e.body, st, fuel), l1.next, blockId);
    }
  }

  lemma {:induction false} SameValue(v: Value, a: State, b: State, k: nat)
    requires KeepsOld(a, b, k) && (v.Reg? ==> v.r < k)
    ensures ValueOf(v, a) == ValueOf(v, b)
  {
  }

  lemma {:induction false} ClauseRun(w: World, areas: seq<nat>, clauses: seq<Clause>, i: nat, blockId: nat, cc: bool,
                                     l: Build, st: State, fuel: nat)
    requires Held(areas, l.regs)
    requires i < |clauses| && l.body == [] && 0 < blockId && blockId + 1 < l.next && ClausesScoped(clauses, cc)
    ensures var m := Jump(LowerStmt(areas, clauses[i].body, l, Some(LoopContext(blockId + 1, 0))), blockId);
      var r := Run(w, m.body, st, fuel);
      SwitchAgrees(ExecClause(w, Handles(areas, st), clauses, i, MemoryOf(st), fuel), r, blockId) &&
        KeepsOld(st, r.st, l.regs)
    decreases fuel, clauses[i].body, 2
  {
    hide Grows, Delta, Shaped, Place, LowerStmt, Run, Exec, KeepsOld, Handles;
    var ctx, body := Some(LoopContext(blockId + 1, 0)), clauses[i].body;
    var t := LowerStmt(areas, body, l, ctx);
    FreshShaped(l);
    StmtSound(areas, body, l, ctx, l.next);
    StmtRun(w, areas, body, l, l.next, ctx, cc, st, fuel);
    var r := Run(w, Delta(l, t), st, fuel);
    JumpRun(w, t, l.next, blockId, r.st, fuel);
    RunThen(w, l, t, Jump(t, blockId), st, fuel);
    ClauseSound(areas, body, blockId, ctx, l);
    FreshRun(w, l, Jump(t, blockId), st, fuel);
  }

  lemma {:induction false} DefaultRun(w: World, areas: seq<nat>, c: Stmt, blockId: nat, cc: bool, l: Build, st: State,
                                      fuel: nat)
    requires Held(areas, l.regs)
    requires c.Switch? && l.body == [] && 0 < blockId && blockId + 1 < l.next && ClausesScoped(c.clauses, cc)
    ensures var d := SwitchTable.DefaultClause(Keys(c.clauses));
      var m := LowerDefault(areas, c, blockId, Some(LoopContext(blockId + 1, 0)), l);
      var r := Run(w, m.body, st, fuel);
      SwitchAgrees(ExecClause(w, Handles(areas, st), c.clauses, d, MemoryOf(st), fuel), r, blockId) &&
        KeepsOld(st, r.st, l.regs)
    decreases fuel, c, 0, 0
  {
    hide Grows, Delta, Shaped, Place, LowerStmt, Run, Exec, KeepsOld, Handles;
    var ctx, d := Some(LoopContext(blockId + 1, 0)), SwitchTable.DefaultClause(Keys(c.clauses));
    if d < |c.clauses| {
      BodyRun(w, areas, c.clauses[d].body, l, ctx, cc, st, fuel);
    } else {
      FreshShaped(l);
      KeepsSelf(st, l.regs);
      JumpRun(w, l, l.next, blockId, st, fuel);
      DefaultSound(areas, c, blockId, ctx, l);
      FreshRun(w, l, Jump(l, blockId), st, fuel);
    }
  }

  /** The body in the table for bucket number `j` is the chain of that bucket. */
  lemma {:induction false} BucketAt(areas: seq<nat>, c: Stmt, v: Value, order: seq<nat>, blockId: nat,
                                    ctx: Option<LoopContext>, l: Build, j: nat) returns (at: Build)
    requires c.Switch? && j < |order| && l.body == [] && Outer(ctx, l.next) && blockId < l.next
    ensures at.body == [] && l.next <= at.next && l.regs <= at.regs
    ensures LowerBuckets(areas, c, v, order, blockId, ctx, l).0[j].body ==
      LowerChain(areas, c, v, order[j], 0, blockId, ctx, at).body
    decreases |order|
  {
    hide LowerChain, Tidy, Targets, Bounded;
    if j == 0 {
      at := l;
    } else {
      ChainSound(areas, c, v, order[0], 0, blockId, ctx, l);
      var chain := LowerChain(areas, c, v, order[0], 0, blockId, ctx, l);
      at := BucketAt(areas, c, v, order[1..], blockId, ctx, Build([], chain.next, chain.regs), j - 1);
    }
  }

  lemma {:induction false} TableLeave(out: Outcome, r: Result, id: nat, blockId: nat)
    requires SwitchAgrees(out, r, blockId) && blockId + 1 < id
    ensures SwitchAgrees(out, Leave(r, id), blockId) && Leave(r, id).st == r.st
  {
  }

  /** Which body a table node runs. */
  lemma {:induction false} TableChoice(w: World, c: Stmt, x: Value, cases: seq<TableCase>, d: seq<Node>, id: nat,
                                       st: State, fuel: nat)
    requires c.Switch? && |cases| == |Buckets(c).0| && 0 <= ValueOf(x, st) < Size(c)
    ensures var (order, targets) := Buckets(c);
      var b := ValueOf(x, st);
      RunNode(w, Control(id, -1, TableNode(x, targets, cases, d)), st, fuel) ==
      Leave(Run(w, if b in order then cases[SwitchTable.IndexOf(order, b)].body else d, st, fuel), id)
  {
    hide Run, Leave, Size, BucketOf, SwitchTable.Flatten, SwitchTable.BucketOrder, Keys;
  }

  /** The body of bucket `b` among the bodies of all buckets. */
  lemma {:induction false} BucketRun(w: World, areas: seq<nat>, c: Stmt, v: Value, b: nat, blockId: nat, cc: bool,
                                     l: Build, st: State, fuel: nat)
    requires Switchable(c) && ClausesScoped(c.clauses, cc) && 0 < blockId && blockId + 1 < l.next
    requires Held(areas, l.regs) && l.body == [] && (v.Reg? ==> v.r < l.regs) && b in Buckets(c).0
    ensures var order := Buckets(c).0;
      var cases := LowerBuckets(areas, c, v, order, blockId, Some(LoopContext(blockId + 1, 0)), l).0;
      var r := Run(w, cases[SwitchTable.IndexOf(order, b)].body, st, fuel);
      SwitchAgrees(ExecClause(w, Handles(areas, st), c.clauses, ChainClause(c, b, 0, KeyOf(w, c.text, ValueOf(v, st))),
                              MemoryOf(st), fuel), r, blockId) &&
      KeepsOld(st, r.st, l.regs)
    decreases fuel, c, 0, 3 * |c.clauses| + 3
  {
    hide LowerBuckets, LowerChain, Run, ExecClause, SwitchAgrees, ChainClause, KeepsOld, Handles, Buckets;
    var ctx := Some(LoopContext(blockId + 1, 0));
    var order := Buckets(c).0;
    var j := SwitchTable.IndexOf(order, b);
    var at := BucketAt(areas, c, v, order, blockId, ctx, l, j);
    ChainRun(w, areas, c, v, b, 0, blockId, cc, at, st, fuel);
    KeepsLess(st, Run(w, LowerChain(areas, c, v, b, 0, blockId, ctx, at).body, st, fuel).st, l.regs, at.regs);
  }

  /** The table node, with the dispatch index of `v` in `x`. */
  lemma {:induction false} TableNodeRun(w: World, areas: seq<nat>, c: Stmt, v: Value, x: Value, blockId: nat, cc: bool,
                                        id: nat, b0: Build, d0: Build, st: State, fuel: nat)
    requires Switchable(c) && ClausesScoped(c.clauses, cc) && 0 < blockId && blockId + 1 < id
    requires Held(areas, b0.regs) && b0.regs <= d0.regs
    requires b0.body == [] && d0.body == [] && id < b0.next && id < d0.next && (v.Reg? ==> v.r < b0.regs)
    requires ValueOf(x, st) == RunBucketOf(w, c.text, Size(c), ValueOf(v, st))
    ensures var ctx := Some(LoopContext(blockId + 1, 0));
      var (order, targets) := Buckets(c);
      var cases := LowerBuckets(areas, c, v, order, blockId, ctx, b0).0;
      var d := LowerDefault(areas, c, blockId, ctx, d0).body;
      var k := DispatchedClause(w, c, ValueOf(v, st));
      var r := RunNode(w, Control(id, -1, TableNode(x, targets, cases, d)), st, fuel);
      SwitchAgrees(ExecClause(w, Handles(areas, st), c.clauses, k, MemoryOf(st), fuel), r, blockId) &&
        KeepsOld(st, r.st, b0.regs)
    decreases fuel, c, 0, 3 * |c.clauses| + 4
  {
    hide LowerBuckets, LowerDefault, Run, RunNode, ExecClause, SwitchAgrees, ChainClause, DispatchedClause, KeepsOld,
         Handles, Buckets, GetsTable, Leave;
    var ctx, key := Some(LoopContext(blockId + 1, 0)), ValueOf(v, st);
    var order := Buckets(c).0;
    var cases := LowerBuckets(areas, c, v, order, blockId, ctx, b0).0;
    var d := LowerDefault(areas, c, blockId, ctx, d0).body;
    var b := RunBucketOf(w, c.text, Size(c), key);
    DispatchedBucket(w, c, key);
    TableChoice(w, c, x, cases, d, id, st, fuel);
    var out := ExecClause(w, Handles(areas, st), c.clauses, DispatchedClause(w, c, key), MemoryOf(st), fuel);
    if b in order {
      BucketRun(w, areas, c, v, b, blockId, cc, b0, st, fuel);
      TableLeave(out, Run(w, cases[SwitchTable.IndexOf(order, b)].body, st, fuel), id, blockId);
    } else {
      DefaultRun(w, areas, c, blockId, cc, d0, st, fuel);
      KeepsLess(st, Run(w, d, st, fuel).st, b0.regs, d0.regs);
      TableLeave(out, Run(w, d, st, fuel), id, blockId);
    }
  }

  lemma {:induction false} TableSize(c: Stmt)
    requires c.Switch?
    ensures |Buckets(c).1| == Size(c)
  {
  }

  lemma {:induction false} TableRun(w: World, areas: seq<nat>, c: Stmt, v: Value, blockId: nat, cc: bool, l: Build,
                                    st: State, fuel: nat)
    requires Held(areas, l.regs)
    requires Switchable(c) && ClausesScoped(c.clauses, cc)
    requires l.body == [] && 0 < blockId && l.next == blockId + 2 && (v.Reg? ==> v.r < l.regs)
    ensures var k := DispatchedClause(w, c, ValueOf(v, st));
      var r := Run(w, LowerSwitchBlock(areas, c, v, blockId, l).0, st, fuel);
      SwitchAgrees(ExecClause(w, Handles(areas, st), c.clauses, k, MemoryOf(st), fuel), r, blockId) &&
        KeepsOld(st, r.st, l.regs)
    decreases fuel, c, 0, 3 * |c.clauses| + 5
  {
    hide Grows, Delta, Shaped, Emit, Place, LowerDispatch, LowerBuckets, LowerDefault, LowerChain, Run, RunNode,
         ExecClause, ChainClause, KeepsOld, Handles, SwitchAgrees, DispatchedClause, GetsTable, Buckets, Size, Tidy;
    var (order, targets) := Buckets(c);
    assert |targets| == Size(c) by { TableSize(c); }
    var (x, l1) := LowerDispatch(c.text, v, |targets|, l);
    FreshShaped(l);
    DispatchQuiet(c.text, v, |targets|, l, l.next);
    DispatchRun(w, c.text, v, |targets|, l, st, fuel);
    var s1 := Run(w, Delta(l, l1), st, fuel).st;
    SameHandles(areas, st, s1, l.regs);
    var ctx := Some(LoopContext(blockId + 1, 0));
    var b0 := Build([], l1.next + 1, l1.regs);
    var (cases, l2) := LowerBuckets(areas, c, v, order, blockId, ctx, b0);
    BucketsSound(areas, c, v, order, blockId, ctx, b0);
    var d0 := Build([], l2.next, l2.regs);
    var d := LowerDefault(areas, c, blockId, ctx, d0);
    DefaultSound(areas, c, blockId, ctx, d0);
    var ctl := TableNode(x, targets, cases, d.body);
    var m := Build(Place(l1.body, l1.next, ctl), d.next, d.regs);
    ShapedTidy(l1, l.next);
    PlaceRun(w, l1, ctl, m, s1, fuel);
    TableNodeRun(w, areas, c, v, x, blockId, cc, l1.next, b0, d0, s1, fuel);
    RunThen(w, l, l1, m, st, fuel);
    KeepsTrans(st, s1, Run(w, Delta(l1, m), s1, fuel).st, l.regs, b0.regs);
    SwitchBlockSound(areas, c, v, blockId, l);
    FreshRun(w, l, m, st, fuel);
  }

  /** What a switch does that runs the clause the code dispatches to. */
  function ExecDispatched(w: World, open: seq<int>, c: Stmt, s: Memory, fuel: nat): Outcome
    requires c.Switch?
  {
    var (v, s1) := Eval(w, c.value, s);
    ExecClause(w, open, c.clauses, DispatchedClause(w, c, v), s1, fuel)
  }

  /** What the code of a switch does, exactly: the clause that dispatch finds runs, and a `continue`
      that leaves the switch becomes a branch to ID 0, whatever loop is around. */
  lemma {:induction false} SwitchExact(w: World, areas: seq<nat>, c: Stmt, l: Build, lo: int, ctx: Option<LoopContext>,
                                       cc: bool, st: State, fuel: nat)
    requires Held(areas, l.regs)
    requires Switchable(c) && ClausesScoped(c.clauses, cc) && Shaped(l, lo) && lo <= l.next && Outer(ctx, lo)
    ensures var m := LowerStmt(areas, c, l, ctx);
      var out, r := ExecDispatched(w, Handles(areas, st), c, MemoryOf(st), fuel), Run(w, Delta(l, m), st, fuel);
      Grows(l, m) && KeepsOld(st, r.st, l.regs) && !out.Broke? &&
      if out.Continued? then r.Branch? && r.target == 0 && out.s == MemoryOf(r.st) else Agrees(out, r, ctx)
    decreases fuel, c, 0, 3 * |c.clauses| + 6
  {
    hide Grows, Delta, Shaped, Emit, LowerExpr, Place, LowerSwitchBlock, Run, KeepsOld, Handles, ExecClause,
         DispatchedClause, GetsTable;
    var m := LowerStmt(areas, c, l, ctx);
    assert m == LowerSwitch(areas, c, l);
    var (v, l1) := LowerExpr(c.value, l);
    ExprQuiet(c.value, l, lo);
    ExprRun(w, c.value, l, lo, st, fuel);
    var s1 := Run(w, Delta(l, l1), st, fuel).st;
    SameHandles(areas, st, s1, l.regs);
    var b0 := Build([], l1.next + 2, l1.regs);
    var (body, _) := LowerSwitchBlock(areas, c, v, l1.next, b0);
    SwitchBlockSound(areas, c, v, l1.next, b0);
    TableRun(w, areas, c, v, l1.next, cc, b0, s1, fuel);
    ShapedTidy(l1, lo);
    PlacedRun(w, l1, BlockNode(Ordinary, body), l1.next + 1, m, s1, fuel);
    KeepsTrans(st, s1, Run(w, Delta(l1, m), s1, fuel).st, l.regs, b0.regs);
    RunThen(w, l, l1, m, st, fuel);
  }

  /** Whether dispatch finds the clause of the source for the value that the switch has in `s`. */
  predicate DispatchesRight(w: World, c: Stmt, s: Memory)
    requires c.Switch?
  {
    var v := Eval(w, c.value, s).0;
    c.text || !Listed(w, c, v) || v >= 0
  }

  lemma {:induction false} ExecSelected(w: World, open: seq<int>, c: Stmt, s: Memory, fuel: nat)
    requires Switchable(c) && DispatchesRight(w, c, s)
    ensures ExecDispatched(w, open, c, s, fuel) == Exec(w, open, c, s, fuel)
  {
    hide DispatchedClause, SwitchTable.Selected, GetsTable, Listed;
    var v := Eval(w, c.value, s).0;
    DispatchSelects(w, c, v);
  }

  /** A switch whose value is no negative key does what the source does exactly when no `continue` leaves
      it, or the loop around it happens to have the target 0. */
  lemma {:induction false} SwitchMeets(w: World, areas: seq<nat>, c: Stmt, l: Build, lo: int, ctx: Option<LoopContext>,
                                       cc: bool, st: State, fuel: nat)
    requires Held(areas, l.regs)
    requires Switchable(c) && ClausesScoped(c.clauses, cc) && Shaped(l, lo) && lo <= l.next && Outer(ctx, lo)
    requires DispatchesRight(w, c, MemoryOf(st))
    ensures var m := LowerStmt(areas, c, l, ctx);
      var out, r := Exec(w, Handles(areas, st), c, MemoryOf(st), fuel), Run(w, Delta(l, m), st, fuel);
      Agrees(out, r, ctx) <==> !out.Continued? || (ctx.Some? && ctx.value.continueTarget == 0)
  {
    hide Grows, Delta, Shaped, LowerStmt, Run, KeepsOld, Handles, Exec, ExecDispatched, GetsTable;
    SwitchExact(w, areas, c, l, lo, ctx, cc, st, fuel);
    ExecSelected(w, Handles(areas, st), c, MemoryOf(st), fuel);
  }

  lemma {:induction false} SwitchRun(w: World, areas: seq<nat>, c: Stmt, l: Build, lo: int, ctx: Option<LoopContext>,
                                     cc: bool, st: State, fuel: nat)
    requires Held(areas, l.regs)
    requires c.Switch? && Shaped(l, lo) && lo <= l.next && Outer(ctx, lo) && WellScoped(c, ctx.Some?, cc) &&
      (cc ==> ctx.Some?)
    ensures var m := LowerStmt(areas, c, l, ctx);
      Grows(l, m) && Agrees(Exec(w, Handles(areas, st), c, MemoryOf(st), fuel), Run(w, Delta(l, m), st, fuel), ctx) &&
      KeepsOld(st, Run(w, Delta(l, m), st, fuel).st, l.regs)
    decreases fuel, c, 0, 3 * |c.clauses| + 7
  {
    hide Grows, Delta, Shaped, LowerStmt, Run, KeepsOld, Handles, GetsTable, NoNegativeKey;
    SwitchExact(w, areas, c, l, lo, ctx, false, st, fuel);
    if !c.text { ListedNonNegative(w, c, Eval(w, c.value, MemoryOf(st)).0); }
    ExecSelected(w, Handles(areas, st), c, MemoryOf(st), fuel);
    Fuel.NeverLoose(w, Handles(areas, st), c, false, false, MemoryOf(st), fuel);
  }
}
