/** The IDs that lowering gives out: every one goes to one node, and a placeholder whose place a node
    takes leaves its ID with that node. */
module ControlIds {
  import opened Source
  import opened Structured
  import opened Opening
  import opened Lowering
  import SwitchTable

  // ----- the IDs in a body -----

  /** How often each ID is used in a body: by a node, or by the placeholder whose place a node took. */
  function Uses(body: seq<Node>): multiset<int> {
    if body == [] then multiset{} else NodeUses(body[0]) + Uses(body[1..])
  }

  function NodeUses(n: Node): multiset<int> {
    if !n.Control? then multiset{} else
    multiset{n.id} + (if n.stood >= 0 then multiset{n.stood} else multiset{}) + CtlUses(n.ctl)
  }

  function CtlUses(c: Ctl): multiset<int> {
    match c
    case BlockNode(_, b) => Uses(b)
    case LoopNode(i, b, p) => Uses(i) + Uses(b) + Uses(p)
    case IfNode(_, t, e) => Uses(t) + Uses(e)
    case TableNode(_, _, cs, d) => CaseUses(cs) + Uses(d)
    case BrNode(_) => multiset{}
  }

  function CaseUses(cs: seq<TableCase>): multiset<int> {
    if cs == [] then multiset{} else Uses(cs[0].body) + CaseUses(cs[1..])
  }

  /** The IDs from `a` on below `b`, each once. */
  function Range(a: nat, b: nat): (r: multiset<int>)
    ensures forall x :: r[x] == if a <= x < b then 1 else 0
    decreases b
  {
    if b <= a then multiset{} else Range(a, b - 1) + multiset{b - 1}
  }

  lemma {:induction false} RangeSplit(a: nat, b: nat, c: nat)
    requires a <= b <= c
    ensures Range(a, b) + Range(b, c) == Range(a, c)
  {
  }

  lemma {:induction false} RangeOne(a: nat)
    ensures Range(a, a) == multiset{} && Range(a, a + 1) == multiset{a}
  {
  }

  lemma {:induction false} UsesAppend(a: seq<Node>, b: seq<Node>)
    ensures Uses(a + b) == Uses(a) + Uses(b)
  {
    if a == [] {
      assert a + b == b;
    } else {
      assert (a + b)[1..] == a[1..] + b;
      UsesAppend(a[1..], b);
    }
  }

  lemma {:induction false} UsesOne(n: Node)
    ensures Uses([n]) == NodeUses(n)
  {
    assert [n][1..] == [];
  }

  lemma {:induction false} UsesPush(b: seq<Node>, n: Node)
    ensures Uses(b + [n]) == Uses(b) + NodeUses(n)
  {
    UsesAppend(b, [n]);
    UsesOne(n);
  }

  lemma {:induction false} UsesLast(b: seq<Node>)
    requires b != []
    ensures Uses(b) == Uses(b[..|b| - 1]) + NodeUses(b[|b| - 1])
  {
    UsesPush(b[..|b| - 1], b[|b| - 1]);
    assert b == b[..|b| - 1] + [b[|b| - 1]];
  }

  // ----- a step uses the IDs it takes -----

  /** From `l` to `m` the IDs `l.next`, ..., `m.next - 1` were given out, and each is used once. */
  ghost predicate Adds(l: Build, m: Build) {
    l.next <= m.next && (Neat(l.body) ==> Neat(m.body) && Uses(m.body) == Uses(l.body) + Range(l.next, m.next))
  }

  lemma {:induction false} AddsTrans(l: Build, m: Build, r: Build)
    requires Adds(l, m) && Adds(m, r)
    ensures Adds(l, r)
  {
    hide Neat;
    RangeSplit(l.next, m.next, r.next);
  }

  /** Code written from scratch. */
  lemma {:induction false} AddsFresh(l: Build, m: Build)
    requires Adds(l, m) && l.body == []
    ensures l.next <= m.next && Neat(m.body) && Uses(m.body) == Range(l.next, m.next)
  {
  }

  /** A placeholder that takes a node in. */
  lemma {:induction false} GrownUses(p: Node, n: Node)
    requires IsPlaceholder(p) && NeatNode(p) && (n.Control? ==> n.stood < 0 && !IsPlaceholder(n))
    ensures NeatNode(Grown(p, n)) && NodeUses(Grown(p, n)) == NodeUses(p) + NodeUses(n)
  {
    UsesPush(p.ctl.body, n);
  }

  /** Another node at the end of a body. */
  lemma {:induction false} LastUses(b: seq<Node>, n: Node)
    requires b != [] && Neat(b) && NeatNode(n)
    ensures var r := b[..|b| - 1] + [n];
      Neat(r) && Uses(r) == Uses(b[..|b| - 1]) + NodeUses(n) && Uses(b) == Uses(b[..|b| - 1]) + NodeUses(b[|b| - 1])
  {
    UsesLast(b);
    UsesPush(b[..|b| - 1], n);
  }

  lemma {:induction false} PushUses(b: seq<Node>, n: Node)
    requires Neat(b) && NeatNode(n)
    ensures Neat(b + [n]) && Uses(b + [n]) == Uses(b) + NodeUses(n)
  {
    UsesPush(b, n);
  }

  lemma {:induction false} EmitAdds(l: Build, node: Node)
    requires !node.Control?
    ensures Adds(l, Emit(l, node))
  {
    hide Neat, Uses, NeatNode, NodeUses, Range;
    var b := l.body;
    RangeOne(l.next);
    if Neat(b) {
      if b != [] && IsPlaceholder(b[|b| - 1]) {
        var p := b[|b| - 1];
        assert NeatNode(p) by { LastNeat(b); }
        NoUses(node);
        GrownUses(p, node);
        LastUses(b, Grown(p, node));
      } else {
        FreshUses(l.next, node);
        PushUses(b, Control(l.next, -1, BlockNode(Placeholder, [node])));
      }
    }
  }

  lemma {:induction false} LastNeat(b: seq<Node>)
    requires b != [] && Neat(b)
    ensures NeatNode(b[|b| - 1])
  {
  }

  lemma {:induction false} NoUses(node: Node)
    requires !node.Control?
    ensures NodeUses(node) == multiset{}
  {
  }

  lemma {:induction false} FreshUses(id: nat, node: Node)
    requires !node.Control?
    ensures var n := Control(id, -1, BlockNode(Placeholder, [node])); NeatNode(n) && NodeUses(n) == multiset{id}
  {
    UsesOne(node);
  }

  lemma {:induction false} EmitInstrAdds(l: Build, r: nat, i: Instr)
    ensures Adds(l, EmitInstr(l.(regs := r), i)) && EmitInstr(l.(regs := r), i).regs == r
  {
    EmitAdds(l.(regs := r), Instruction(i));
  }

  /** A control node brings its own ID and those in it. */
  lemma {:induction false} PlaceUses(b: seq<Node>, id: nat, ctl: Ctl)
    requires Neat(b) && !IsPlaceholder(Control(id, -1, ctl))
    ensures Neat(Place(b, id, ctl)) && Uses(Place(b, id, ctl)) == Uses(b) + multiset{id} + CtlUses(ctl)
  {
    hide Neat, Uses, NeatNode, NodeUses, CtlUses;
    var n := Control(id, -1, ctl);
    ControlUses(id, -1, ctl);
    if b != [] && IsPlaceholder(b[|b| - 1]) {
      var p := b[|b| - 1];
      LastNeat(b);
      if p.ctl.body == [] {
        ControlUses(id, p.id, ctl);
        EmptyUses(p);
        LastUses(b, Control(id, p.id, ctl));
      } else {
        GrownUses(p, n);
        LastUses(b, Grown(p, n));
      }
    } else {
      PushUses(b, n);
    }
  }

  lemma {:induction false} ControlUses(id: nat, stood: int, ctl: Ctl)
    requires !IsPlaceholder(Control(id, stood, ctl))
    ensures var n := Control(id, stood, ctl);
      NeatNode(n) && NodeUses(n) == multiset{id} + (if stood >= 0 then multiset{stood} else multiset{}) + CtlUses(ctl)
  {
  }

  lemma {:induction false} EmptyUses(p: Node)
    requires IsPlaceholder(p) && p.ctl.body == [] && NeatNode(p)
    ensures NodeUses(p) == multiset{p.id}
  {
    assert Uses(p.ctl.body) == multiset{};
  }

  lemma {:induction false} ContinuationUses(b: seq<Node>, cont: nat)
    requires Neat(b)
    ensures Neat(b + [Continuation(cont)]) && Uses(b + [Continuation(cont)]) == Uses(b) + multiset{cont}
  {
    EmptyUses(Continuation(cont));
    PushUses(b, Continuation(cont));
  }

  /** Placing a node whose contents took the IDs behind its own. */
  lemma {:induction false} PlaceAdds(l: Build, ctl: Ctl, m: Build)
    requires !IsPlaceholder(Control(l.next, -1, ctl)) && m.body == Place(l.body, l.next, ctl)
    requires l.next < m.next && CtlUses(ctl) == Range(l.next + 1, m.next)
    ensures Adds(l, m)
  {
    hide Uses, Range, Neat, Place, CtlUses;
    if Neat(l.body) {
      PlaceUses(l.body, l.next, ctl);
      RangeOne(l.next);
      RangeSplit(l.next, l.next + 1, m.next);
    }
  }

  /** The same with the node's continuation, whose ID comes before those of the contents. */
  lemma {:induction false} PlaceWithContinuationAdds(l: Build, ctl: Ctl, cont: nat, m: Build)
    requires !IsPlaceholder(Control(l.next, -1, ctl)) && m.body == Place(l.body, l.next, ctl) + [Continuation(cont)]
    requires l.next < m.next && CtlUses(ctl) + multiset{cont} == Range(l.next + 1, m.next)
    ensures Adds(l, m)
  {
    hide Uses, Range, Neat, Place, CtlUses;
    if Neat(l.body) {
      PlaceUses(l.body, l.next, ctl);
      ContinuationUses(Place(l.body, l.next, ctl), cont);
      RangeOne(l.next);
      RangeSplit(l.next, l.next + 1, m.next);
    }
  }

  lemma {:induction false} AddsNothing(l: Build, r: nat)
    ensures Adds(l, l.(regs := r))
  {
    RangeOne(l.next);
  }

  // ----- expressions -----

  lemma {:induction false} ExprAdds(e: Expr, l: Build)
    ensures Adds(l, LowerExpr(e, l).1)
    decreases e, 1
  {
    hide Adds, Emit;
    match e {
      case Lit(_) => AddsNothing(l, l.regs); assert l.(regs := l.regs) == l;
      case Var(x) => EmitInstrAdds(l, l.regs + 1, Load(l.regs, Named(x)));
      case Bin(op, a, b) =>
        var (va, l1) := LowerExpr(a, l);
        var (vb, l2) := LowerExpr(b, l1);
        var i := Binary(l2.regs, op, va, vb);
        ExprAdds(a, l);
        ExprAdds(b, l1);
        EmitInstrAdds(l2, l2.regs + 1, i);
        AddsTrans(l, l1, l2);
        AddsTrans(l, l2, EmitInstr(l2.(regs := l2.regs + 1), i));
      case Call(f, a) =>
        var (va, l1) := LowerExpr(a, l);
        var i := CallStatic(l1.regs, f, va);
        ExprAdds(a, l);
        EmitInstrAdds(l1, l1.regs + 1, i);
        AddsTrans(l, l1, EmitInstr(l1.(regs := l1.regs + 1), i));
      case And(_, _) => ShortCircuitAdds(e, l);
      case Or(_, _) => ShortCircuitAdds(e, l);
    }
  }

  lemma {:induction false} OpenSlotAdds(l: Build, n: int)
    ensures Adds(l, OpenSlot(l, n))
  {
    hide Adds, Emit;
    var i := Alloca(l.regs);
    var m := EmitInstr(l.(regs := l.regs + 1), i);
    EmitInstrAdds(l, l.regs + 1, i);
    EmitInstrAdds(m, m.regs, StoreTo(Const(n), Temp(l.regs)));
    assert m.(regs := m.regs) == m;
    AddsTrans(l, m, OpenSlot(l, n));
  }

  lemma {:induction false} RightAdds(e: Expr, slot: nat, va: Value, l1: Build)
    requires e.And? || e.Or?
    ensures var (ctl, r) := LowerRight(e, slot, va, l1);
      l1.next + 1 < r.next && CtlUses(ctl) == Range(l1.next + 1, r.next) && !IsPlaceholder(Control(l1.next, -1, ctl))
    decreases e, 0, 0
  {
    hide Adds, Emit, LowerExpr, Uses, Range;
    var r0 := Build([], l1.next + 1, l1.regs);
    var (vb, r) := LowerExpr(e.right, r0);
    var i := StoreTo(vb, Temp(slot));
    var m := EmitInstr(r, i);
    ExprAdds(e.right, r0);
    EmitInstrAdds(r, r.regs, i);
    assert r.(regs := r.regs) == r;
    AddsTrans(r0, r, m);
    AddsFresh(r0, m);
    NotEmpty(r, Instruction(i));
    RangeOne(r0.next);
    NoneUsed();
  }

  lemma {:induction false} NoneUsed()
    ensures Uses([]) == multiset{}
  {
  }

  /** A body that something was sent to uses an ID. */
  lemma {:induction false} NotEmpty(l: Build, node: Node)
    requires !node.Control?
    ensures Uses(Emit(l, node).body) != multiset{}
  {
    var b := Emit(l, node).body;
    UsesLast(b);
    assert b[|b| - 1].id in NodeUses(b[|b| - 1]);
  }

  lemma {:induction false} ShortCircuitAdds(e: Expr, l: Build)
    requires e.And? || e.Or?
    ensures Adds(l, LowerShortCircuit(e, l).1)
    decreases e, 0, 1
  {
    hide Adds, Emit, LowerExpr, Place, LowerRight, OpenSlot;
    var l0 := OpenSlot(l, if e.And? then 0 else 1);
    OpenSlotAdds(l, if e.And? then 0 else 1);
    var (va, l1) := LowerExpr(e.left, l0);
    ExprAdds(e.left, l0);
    var (ctl, r) := LowerRight(e, l.regs, va, l1);
    RightAdds(e, l.regs, va, l1);
    var l2 := Build(Place(l1.body, l1.next, ctl), r.next, r.regs);
    PlaceAdds(l1, ctl, l2);
    EmitInstrAdds(l2, l2.regs + 1, Load(l2.regs, Temp(l.regs)));
    AddsTrans(l, l0, l1);
    AddsTrans(l, l1, l2);
    AddsTrans(l, l2, LowerShortCircuit(e, l).1);
  }

  // ----- statements -----

  lemma {:induction false} SimpleAdds(areas: seq<nat>, c: Simple, l: Build)
    ensures Adds(l, LowerSimple(areas, c, l))
  {
    hide Adds, Emit, LowerExpr;
    AddsNothing(l, l.regs);
    assert l.(regs := l.regs) == l;
    if !c.Nothing? {
      var (v, l1) := LowerExpr(c.e, l);
      ExprAdds(c.e, l);
      if c.New? {
        var l2 := EmitInstr(l1.(regs := l1.regs + 1), Allocate(areas, l1.regs));
        EmitInstrAdds(l1, l1.regs + 1, Allocate(areas, l1.regs));
        AddsTrans(l, l1, l2);
        EmitInstrAdds(l2, l2.regs, StoreTo(v, Named(c.name)));
        assert l2.(regs := l2.regs) == l2;
        AddsTrans(l, l2, LowerSimple(areas, c, l));
      } else if c.Assign? {
        EmitInstrAdds(l1, l1.regs, StoreTo(v, Named(c.name)));
        assert l1.(regs := l1.regs) == l1;
        AddsTrans(l, l1, LowerSimple(areas, c, l));
      }
    }
  }

  lemma {:induction false} EndsAdds(areas: seq<nat>, l: Build)
    ensures Adds(l, EmitEnds(areas, l))
    decreases |areas|
  {
    hide Adds, Emit;
    AddsNothing(l, l.regs);
    assert l.(regs := l.regs) == l;
    if areas != [] {
      var i := AreaEnd(areas[|areas| - 1]);
      EmitInstrAdds(l, l.regs, i);
      EndsAdds(areas[..|areas| - 1], EmitInstr(l, i));
      AddsTrans(l, EmitInstr(l, i), EmitEnds(areas, l));
    }
  }

  lemma {:induction false} AreaBeginAdds(areas: seq<nat>, size: Option<Expr>, l: Build)
    ensures Adds(l, LowerAreaBegin(areas, size, l).1)
  {
    hide Adds, Emit, LowerExpr;
    AddsNothing(l, l.regs);
    assert l.(regs := l.regs) == l;
    var (bytes, l1) := LowerAreaSize(size, l);
    if size.Some? {
      var (v, l0) := LowerExpr(size.value, l);
      var i := Binary(l0.regs, Mul, v, Const(1024));
      ExprAdds(size.value, l);
      EmitInstrAdds(l0, l0.regs + 1, i);
      AddsTrans(l, l0, l1);
    }
    var i := AreaBegin(l1.regs, bytes, if areas == [] then None else Some(areas[|areas| - 1]));
    EmitInstrAdds(l1, l1.regs + 1, i);
    AddsTrans(l, l1, LowerAreaBegin(areas, size, l).1);
  }

  lemma {:induction false} JumpAdds(l: Build, target: int)
    ensures Adds(l, Jump(l, target)) && l.next < Jump(l, target).next
  {
    RangeOne(l.next + 1);
    PlaceAdds(l, BrNode(target), Jump(l, target));
  }

  lemma {:induction false} StmtAdds(areas: seq<nat>, c: Stmt, l: Build, ctx: Option<LoopContext>)
    ensures Adds(l, LowerStmt(areas, c, l, ctx))
    decreases c, 1
  {
    hide Adds, Emit, LowerExpr, Place, LowerSimple, LowerFor, LowerSwitch, Jump, EmitEnds, LowerAreaBegin;
    AddsNothing(l, l.regs);
    assert l.(regs := l.regs) == l;
    var m := LowerStmt(areas, c, l, ctx);
    match c {
      case Plain(p) => SimpleAdds(areas, p, l);
      case Seq(a, b) =>
        StmtAdds(areas, a, l, ctx);
        StmtAdds(areas, b, LowerStmt(areas, a, l, ctx), ctx);
        AddsTrans(l, LowerStmt(areas, a, l, ctx), m);
      case If(_, _, _, _) => IfAdds(areas, c, l, ctx);
      case For(_, _, _, _) => ForAdds(areas, c, l);
      case Switch(_, _, _) => SwitchAdds(areas, c, l);
      case Break => if ctx.Some? { JumpAdds(l, ctx.value.breakTarget); }
      case Continue => if ctx.Some? { JumpAdds(l, ctx.value.continueTarget); }
      case Return(e) => ExitAdds(areas, c, l, ctx);
      case Panic(e) => ExitAdds(areas, c, l, ctx);
      case Area(size, body) =>
        var (a, l1) := LowerAreaBegin(areas, size, l);
        AreaBeginAdds(areas, size, l);
        var l2 := LowerStmt(areas + [a], body, l1, ctx);
        StmtAdds(areas + [a], body, l1, ctx);
        EmitInstrAdds(l2, l2.regs, AreaEnd(a));
        assert l2.(regs := l2.regs) == l2;
        AddsTrans(l, l1, l2);
        AddsTrans(l, l2, m);
    }
  }

  lemma {:induction false} ExitAdds(areas: seq<nat>, c: Stmt, l: Build, ctx: Option<LoopContext>)
    requires c.Return? || c.Panic?
    ensures Adds(l, LowerStmt(areas, c, l, ctx))
  {
    hide Adds, Emit, LowerExpr, EmitEnds;
    var (v, l1) := LowerExpr(c.e, l);
    ExprAdds(c.e, l);
    var l2 := if c.Panic? then EmitInstr(l1, SetPanic(v)) else l1;
    EmitInstrAdds(l1, l1.regs, SetPanic(v));
    AddsNothing(l1, l1.regs);
    assert l1.(regs := l1.regs) == l1;
    EndsAdds(areas, l2);
    var node := if c.Panic? then PanicNode(v) else ReturnNode(v);
    EmitAdds(EmitEnds(areas, l2), node);
    AddsTrans(l, l1, l2);
    AddsTrans(l, l2, EmitEnds(areas, l2));
    AddsTrans(l, EmitEnds(areas, l2), Emit(EmitEnds(areas, l2), node));
  }

  lemma {:induction false} BodyAdds(areas: seq<nat>, c: Stmt, l: Build, ctx: Option<LoopContext>)
    requires l.body == []
    ensures var m := LowerStmt(areas, c, l, ctx); l.next <= m.next && Uses(m.body) == Range(l.next, m.next)
    decreases c, 2
  {
    StmtAdds(areas, c, l, ctx);
    AddsFresh(l, LowerStmt(areas, c, l, ctx));
  }

  lemma {:induction false} IfAdds(areas: seq<nat>, c: Stmt, l: Build, ctx: Option<LoopContext>)
    requires c.If?
    ensures Adds(l, LowerStmt(areas, c, l, ctx))
    decreases c, 0, 1
  {
    hide Adds, Emit, LowerExpr, Place, LowerSimple;
    var l0 := LowerSimple(areas, c.init, l);
    SimpleAdds(areas, c.init, l);
    var (v, l1) := LowerExpr(c.cond, l0);
    ExprAdds(c.cond, l0);
    BranchesAdd(areas, c, v, l1, ctx);
    AddsTrans(l, l0, l1);
    AddsTrans(l, l1, LowerStmt(areas, c, l, ctx));
  }

  lemma {:induction false} BranchesAdd(areas: seq<nat>, c: Stmt, v: Value, l1: Build, ctx: Option<LoopContext>)
    requires c.If?
    ensures var t := LowerStmt(areas, c.thn, Build([], l1.next + 2, l1.regs), ctx);
      var e := LowerStmt(areas, c.els, Build([], t.next, t.regs), ctx);
      l1.next + 2 <= t.next <= e.next && CtlUses(IfNode(v, t.body, e.body)) == Range(l1.next + 2, e.next) &&
      Adds(l1, Build(Place(l1.body, l1.next, IfNode(v, t.body, e.body)) + [Continuation(l1.next + 1)], e.next, e.regs))
    decreases c, 0, 0
  {
    hide Uses, Range, Adds, Place, LowerStmt;
    var t0 := Build([], l1.next + 2, l1.regs);
    var t := LowerStmt(areas, c.thn, t0, ctx);
    BodyAdds(areas, c.thn, t0, ctx);
    var e0 := Build([], t.next, t.regs);
    var e := LowerStmt(areas, c.els, e0, ctx);
    BodyAdds(areas, c.els, e0, ctx);
    RangeSplit(l1.next + 2, t.next, e.next);
    RangeOne(l1.next + 1);
    RangeSplit(l1.next + 1, l1.next + 2, e.next);
    var ctl := IfNode(v, t.body, e.body);
    var m := Build(Place(l1.body, l1.next, ctl) + [Continuation(l1.next + 1)], e.next, e.regs);
    PlaceWithContinuationAdds(l1, ctl, l1.next + 1, m);
  }

  /** The IDs of a loop's block: the loop, the continuation and the contents come behind its own. */
  lemma {:induction false} LoopBlockUses(areas: seq<nat>, c: Stmt, l: Build)
    requires c.For?
    ensures var (loop, p) := LowerLoopNode(areas, c, l);
      l.next + 3 < p.next && CtlUses(BlockNode(Ordinary, [loop])) + multiset{l.next + 2} == Range(l.next + 1, p.next)
    decreases c, 0, 1
  {
    hide Uses, Range, LowerLoopNode;
    var (loop, p) := LowerLoopNode(areas, c, l);
    LoopNodeAdds(areas, c, l);
    UsesOne(loop);
    RangeOne(l.next + 1);
    RangeOne(l.next + 2);
    RangeSplit(l.next + 1, l.next + 2, l.next + 3);
    RangeSplit(l.next + 1, l.next + 3, p.next);
  }

  lemma {:induction false} ForAdds(areas: seq<nat>, c: Stmt, l: Build)
    requires c.For?
    ensures Adds(l, LowerFor(areas, c, l))
    decreases c, 0, 2
  {
    hide Uses, Range, Adds, Place, LowerLoopNode;
    var (loop, p) := LowerLoopNode(areas, c, l);
    LoopBlockUses(areas, c, l);
    PlaceWithContinuationAdds(l, BlockNode(Ordinary, [loop]), l.next + 2, LowerFor(areas, c, l));
  }

  /** The loop's ID, and behind the continuation's ID those of Init, Body and Post. */
  lemma {:induction false} LoopNodeAdds(areas: seq<nat>, c: Stmt, l: Build)
    requires c.For?
    ensures var (loop, p) := LowerLoopNode(areas, c, l);
      l.next + 3 < p.next && NodeUses(loop) == multiset{l.next + 1} + Range(l.next + 3, p.next)
    decreases c, 0, 0
  {
    hide Adds, LowerSimple, LowerLoopBody, Jump, Uses, Range;
    var ctx := Some(LoopContext(l.next + 2, l.next + 1));
    var i0 := Build([], l.next + 3, l.regs);
    var i := LowerSimple(areas, c.init, i0);
    SimpleAdds(areas, c.init, i0);
    AddsFresh(i0, i);
    var b0 := Build([], i.next, i.regs);
    var b := LowerLoopBody(areas, c, l.next, ctx, b0);
    LoopBodyAdds(areas, c, l.next, ctx, b0);
    AddsFresh(b0, b);
    var p0 := Build([], b.next, b.regs);
    var p := LowerSimple(areas, c.post, p0);
    SimpleAdds(areas, c.post, p0);
    JumpAdds(p, l.next + 1);
    var q := Jump(p, l.next + 1);
    AddsTrans(p0, p, q);
    AddsFresh(p0, p);
    AddsFresh(p0, q);
    RangeSplit(l.next + 3, i.next, b.next);
    RangeSplit(l.next + 3, b.next, q.next);
  }

  lemma {:induction false} LoopBodyAdds(areas: seq<nat>, c: Stmt, blockId: nat, ctx: Option<LoopContext>, l: Build)
    requires c.For?
    ensures Adds(l, LowerLoopBody(areas, c, blockId, ctx, l))
    decreases c.body, 4
  {
    hide Uses, Range, Adds, LowerExpr, LowerStmt, Place;
    if c.test.None? {
      StmtAdds(areas, c.body, l, ctx);
    } else {
      var (v, l1) := LowerExpr(c.test.value, l);
      ExprAdds(c.test.value, l);
      TestUses(areas, c, v, blockId, ctx, l1);
      var t := LowerStmt(areas, c.body, Build([], l1.next + 2, l1.regs), ctx);
      var exit := [Control(l1.next + 1, -1, BrNode(blockId))];
      PlaceAdds(l1, IfNode(v, t.body, exit), LowerLoopBody(areas, c, blockId, ctx, l));
      AddsTrans(l, l1, LowerLoopBody(areas, c, blockId, ctx, l));
    }
  }

  /** The `if` on a loop's test: the branch out of the loop, then the source body. */
  lemma {:induction false} TestUses(areas: seq<nat>, c: Stmt, v: Value, blockId: nat, ctx: Option<LoopContext>,
                                    l1: Build)
    requires c.For?
    ensures var t := LowerStmt(areas, c.body, Build([], l1.next + 2, l1.regs), ctx);
      l1.next + 2 <= t.next &&
      CtlUses(IfNode(v, t.body, [Control(l1.next + 1, -1, BrNode(blockId))])) == Range(l1.next + 1, t.next)
    decreases c.body, 3
  {
    hide Uses, Range, LowerStmt;
    var t0 := Build([], l1.next + 2, l1.regs);
    var t := LowerStmt(areas, c.body, t0, ctx);
    BodyAdds(areas, c.body, t0, ctx);
    UsesOne(Control(l1.next + 1, -1, BrNode(blockId)));
    RangeOne(l1.next + 1);
    RangeSplit(l1.next + 1, l1.next + 2, t.next);
  }

  lemma {:induction false} SwitchAdds(areas: seq<nat>, c: Stmt, l: Build)
    requires c.Switch?
    ensures Adds(l, LowerSwitch(areas, c, l))
    decreases c, 0, 4
  {
    hide Uses, Range, Adds, LowerExpr, LowerSwitchBlock, Place;
    var (v, l1) := LowerExpr(c.value, l);
    ExprAdds(c.value, l);
    var b0 := Build([], l1.next + 2, l1.regs);
    var (body, m) := LowerSwitchBlock(areas, c, v, l1.next, b0);
    SwitchBlockAdds(areas, c, v, l1.next, b0);
    RangeOne(l1.next + 1);
    RangeSplit(l1.next + 1, l1.next + 2, m.next);
    PlaceWithContinuationAdds(l1, BlockNode(Ordinary, body), l1.next + 1, LowerSwitch(areas, c, l));
    AddsTrans(l, l1, LowerSwitch(areas, c, l));
  }

  lemma {:induction false} SwitchBlockAdds(areas: seq<nat>, c: Stmt, v: Value, blockId: nat, l: Build)
    requires c.Switch? && l.body == []
    ensures var (body, m) := LowerSwitchBlock(areas, c, v, blockId, l);
      l.next < m.next && Uses(body) == Range(l.next, m.next)
    decreases c, 0, 3
  {
    hide Adds, LowerDispatch, LowerBuckets, LowerDefault, Buckets, Place, Range, Uses, CaseUses;
    var (order, targets) := Buckets(c);
    var (x, l1) := LowerDispatch(c.text, v, |targets|, l);
    DispatchAdds(c.text, v, |targets|, l);
    var ctx := Some(LoopContext(blockId + 1, 0));
    var b0 := Build([], l1.next + 1, l1.regs);
    TableUses(areas, c, v, x, order, targets, blockId, ctx, b0);
    var (cases, l2) := LowerBuckets(areas, c, v, order, blockId, ctx, b0);
    var d := LowerDefault(areas, c, blockId, ctx, Build([], l2.next, l2.regs));
    var ctl := TableNode(x, targets, cases, d.body);
    var m := Build(Place(l1.body, l1.next, ctl), d.next, d.regs);
    PlaceAdds(l1, ctl, m);
    AddsTrans(l, l1, m);
    AddsFresh(l, l1);
    AddsFresh(l, m);
  }

  /** The table's contents, behind its ID. */
  lemma {:induction false} TableUses(areas: seq<nat>, c: Stmt, v: Value, x: Value, order: seq<nat>, targets: seq<int>,
                                     blockId: nat, ctx: Option<LoopContext>, b0: Build)
    requires c.Switch? && b0.body == []
    ensures var (cases, l2) := LowerBuckets(areas, c, v, order, blockId, ctx, b0);
      var d := LowerDefault(areas, c, blockId, ctx, Build([], l2.next, l2.regs));
      b0.next <= l2.next <= d.next && CaseUses(cases) == Range(b0.next, l2.next) &&
      CtlUses(TableNode(x, targets, cases, d.body)) == Range(b0.next, d.next)
    decreases c, 0, 2, |order| + 1
  {
    hide Adds, LowerBuckets, LowerDefault, Range, Uses, CaseUses;
    var (cases, l2) := LowerBuckets(areas, c, v, order, blockId, ctx, b0);
    BucketsAdd(areas, c, v, order, blockId, ctx, b0);
    var d0 := Build([], l2.next, l2.regs);
    var d := LowerDefault(areas, c, blockId, ctx, d0);
    DefaultAdds(areas, c, blockId, ctx, d0);
    AddsFresh(d0, d);
    RangeSplit(b0.next, l2.next, d.next);
  }

  lemma {:induction false} DispatchAdds(text: bool, v: Value, size: nat, l: Build)
    ensures Adds(l, LowerDispatch(text, v, size, l).1)
  {
    hide Adds, Emit;
    AddsNothing(l, l.regs);
    assert l.(regs := l.regs) == l;
    var (h, l0) := if text then (Reg(l.regs), EmitInstr(l.(regs := l.regs + 1), HashText(l.regs, v))) else (v, l);
    EmitInstrAdds(l, l.regs + 1, HashText(l.regs, v));
    var l1 := EmitInstr(l0.(regs := l0.regs + 1), CastUnsigned(l0.regs, h));
    EmitInstrAdds(l0, l0.regs + 1, CastUnsigned(l0.regs, h));
    EmitInstrAdds(l1, l1.regs + 1, RemUnsigned(l1.regs, Reg(l0.regs), size));
    AddsTrans(l, l0, l1);
    AddsTrans(l, l1, LowerDispatch(text, v, size, l).1);
  }

  lemma {:induction false} BucketsAdd(areas: seq<nat>, c: Stmt, v: Value, order: seq<nat>, blockId: nat,
                                      ctx: Option<LoopContext>, l: Build)
    requires c.Switch? && l.body == []
    ensures var (cases, m) := LowerBuckets(areas, c, v, order, blockId, ctx, l);
      l.next <= m.next && CaseUses(cases) == Range(l.next, m.next)
    decreases c, 0, 2, |order|
  {
    hide Adds, LowerChain;
    RangeOne(l.next);
    if order != [] {
      var chain := LowerChain(areas, c, v, order[0], 0, blockId, ctx, l);
      ChainAdds(areas, c, v, order[0], 0, blockId, ctx, l);
      AddsFresh(l, chain);
      var l1 := Build([], chain.next, chain.regs);
      var (cases, m) := LowerBuckets(areas, c, v, order[1..], blockId, ctx, l1);
      BucketsAdd(areas, c, v, order[1..], blockId, ctx, l1);
      RangeSplit(l.next, chain.next, m.next);
      assert ([TableCase(chain.body)] + cases)[1..] == cases;
    }
  }

  lemma {:induction false} ChainAdds(areas: seq<nat>, c: Stmt, v: Value, b: nat, i: nat, blockId: nat,
                                     ctx: Option<LoopContext>, l: Build)
    requires c.Switch? && i <= |c.clauses|
    ensures Adds(l, LowerChain(areas, c, v, b, i, blockId, ctx, l))
    decreases c, 0, 1, 2 * (|c.clauses| - i) + 1
  {
    hide Adds, LowerTests, LowerStmt, Jump, Place, LowerDefault, Uses, Range, CtlUses, BucketKeys;
    if i == |c.clauses| {
      DefaultAdds(areas, c, blockId, ctx, l);
    } else {
      var keys := BucketKeys(c, b, i);
      if keys == [] {
        ChainAdds(areas, c, v, b, i + 1, blockId, ctx, l);
      } else {
        var (x, l1) := LowerTests(v, keys, l);
        TestsAdd(v, keys, l);
        LinkAdds(areas, c, v, x, b, i, blockId, ctx, l1);
        AddsTrans(l, l1, LowerChain(areas, c, v, b, i, blockId, ctx, l));
      }
    }
  }

  lemma {:induction false} LinkAdds(areas: seq<nat>, c: Stmt, v: Value, x: Value, b: nat, i: nat, blockId: nat,
                                    ctx: Option<LoopContext>, l1: Build)
    requires c.Switch? && i < |c.clauses|
    ensures var t := Jump(LowerStmt(areas, c.clauses[i].body, Build([], l1.next + 1, l1.regs), ctx), blockId);
      var e := LowerChain(areas, c, v, b, i + 1, blockId, ctx, Build([], t.next, t.regs));
      l1.next + 1 < t.next <= e.next && CtlUses(IfNode(x, t.body, e.body)) == Range(l1.next + 1, e.next) &&
      Adds(l1, Build(Place(l1.body, l1.next, IfNode(x, t.body, e.body)), e.next, e.regs))
    decreases c, 0, 1, 2 * (|c.clauses| - i)
  {
    hide Uses, Range, Adds, LowerStmt, LowerChain, Jump, Place;
    var t0 := Build([], l1.next + 1, l1.regs);
    var t1 := LowerStmt(areas, c.clauses[i].body, t0, ctx);
    StmtAdds(areas, c.clauses[i].body, t0, ctx);
    AddsFresh(t0, t1);
    JumpAdds(t1, blockId);
    var t := Jump(t1, blockId);
    AddsTrans(t0, t1, t);
    AddsFresh(t0, t);
    var e0 := Build([], t.next, t.regs);
    var e := LowerChain(areas, c, v, b, i + 1, blockId, ctx, e0);
    ChainAdds(areas, c, v, b, i + 1, blockId, ctx, e0);
    AddsFresh(e0, e);
    RangeSplit(l1.next + 1, t.next, e.next);
    var ctl := IfNode(x, t.body, e.body);
    PlaceAdds(l1, ctl, Build(Place(l1.body, l1.next, ctl), e.next, e.regs));
  }

  lemma {:induction false} TestsAdd(v: Value, keys: seq<Key>, l: Build)
    requires keys != []
    ensures Adds(l, LowerTests(v, keys, l).1)
    decreases |keys|
  {
    hide Adds, Emit;
    var k := keys[|keys| - 1];
    if |keys| == 1 {
      EmitInstrAdds(l, l.regs + 1, Compare(l.regs, v, k));
    } else {
      TestsAdd(v, keys[..|keys| - 1], l);
      var (x, l1) := LowerTests(v, keys[..|keys| - 1], l);
      var l2 := EmitInstr(l1.(regs := l1.regs + 1), Compare(l1.regs, v, k));
      EmitInstrAdds(l1, l1.regs + 1, Compare(l1.regs, v, k));
      EmitInstrAdds(l2, l2.regs + 1, Binary(l2.regs, OrBool, x, Reg(l1.regs)));
      AddsTrans(l, l1, l2);
      AddsTrans(l, l2, LowerTests(v, keys, l).1);
    }
  }

  lemma {:induction false} DefaultAdds(areas: seq<nat>, c: Stmt, blockId: nat, ctx: Option<LoopContext>, l: Build)
    requires c.Switch?
    ensures Adds(l, LowerDefault(areas, c, blockId, ctx, l))
    decreases c, 0, 1, 0
  {
    hide Adds, LowerStmt, Jump;
    var d := SwitchTable.DefaultClause(Keys(c.clauses));
    if d < |c.clauses| {
      StmtAdds(areas, c.clauses[d].body, l, ctx);
    } else {
      JumpAdds(l, blockId);
    }
  }
}
