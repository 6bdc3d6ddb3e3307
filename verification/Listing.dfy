/** What a body holds after any sequence of writes: everything sent to it, in the order sent, and for
    every continuation ever reserved exactly what was sent after it. */
module Listing {
  import opened Source
  import opened Structured
  import opened Opening
  import opened Lowering
  import opened Writing
  import ControlIds

  /** One write to a body: an instruction or return, a finished control node, or a continuation; in
      between, writes to other bodies take IDs and registers. */
  datatype Write =
    | Send(node: Node)
    | SendControl(ctl: Ctl)
    | Reserve
    | Elsewhere(next: nat, regs: nat)

  predicate Proper(op: Write) {
    match op
    case Send(n) => !n.Control?
    case SendControl(ctl) => !(ctl.BlockNode? && ctl.kind == Placeholder)
    case _ => true
  }

  function Perform(op: Write, l: Build): Build {
    match op
    case Send(n) => Emit(l, n)
    case SendControl(ctl) => Build(Place(l.body, l.next, ctl), l.next + 1, l.regs)
    case Reserve => Build(l.body + [Continuation(l.next)], l.next + 1, l.regs)
    case Elsewhere(next, regs) => Build(l.body, if next < l.next then l.next else next, regs)
  }

  function PerformAll(ops: seq<Write>, l: Build): Build {
    if ops == [] then l else PerformAll(ops[1..], Perform(ops[0], l))
  }

  /** What the writes send: control nodes get their IDs as they come, continuations send nothing. */
  function Sent(ops: seq<Write>, l: Build): seq<Node> {
    if ops == [] then [] else
    (match ops[0]
     case Send(n) => [n]
     case SendControl(ctl) => [Control(l.next, -1, OpenCtl(ctl))]
     case _ => []) + Sent(ops[1..], Perform(ops[0], l))
  }

  /** Opened code without its marks. */
  function Unmarked(code: seq<Node>): seq<Node> {
    if code == [] then [] else (if IsPlaceholder(code[0]) then [] else [code[0]]) + Unmarked(code[1..])
  }

  /** The contents of a body in order, looking through its placeholders. */
  function List(body: seq<Node>): seq<Node> {
    Unmarked(Open(body))
  }

  lemma {:induction false} UnmarkedAppend(a: seq<Node>, b: seq<Node>)
    ensures Unmarked(a + b) == Unmarked(a) + Unmarked(b)
  {
    if a == [] {
      assert a + b == b;
    } else {
      assert (a + b)[1..] == a[1..] + b;
      UnmarkedAppend(a[1..], b);
    }
  }

  /** A write appends to the opened body what it sends, perhaps with a new mark. */
  lemma {:induction false} PerformOpen(op: Write, l: Build)
    requires Proper(op) && Neat(l.body)
    ensures var m := Perform(op, l);
      Neat(m.body) && Open(l.body) <= Open(m.body) && l.next <= m.next &&
      Unmarked(Delta(l, m)) == Sent([op], l)
  {
    hide Neat, Open, Emit;
    assert [op][1..] == [];
    match op {
      case Send(n) => SendOpen(l, n);
      case SendControl(ctl) => PlaceOpen(l.body, l.next, ctl); NeatPlace(l.body, l.next, ctl);
      case Reserve => OpenPush(l.body, Continuation(l.next)); NeatPush(l.body, l.next);
      case Elsewhere(_, _) =>
    }
  }

  lemma {:induction false} NeatPush(b: seq<Node>, id: nat)
    requires Neat(b)
    ensures Neat(b + [Continuation(id)]) && OpenNode(Continuation(id)) == [Mark(id)]
  {
  }

  lemma {:induction false} SendOpen(l: Build, node: Node)
    requires !node.Control? && Neat(l.body)
    ensures var m := Emit(l, node);
      Neat(m.body) && Open(l.body) <= Open(m.body) && l.next <= m.next && Unmarked(Delta(l, m)) == [node]
  {
    hide Neat, Open;
    var m := Emit(l, node);
    EmitOpen(l, node);
    NeatEmit(l, node);
    assert [node][1..] == [];
    if Open(m.body) == Open(l.body) + [node] {
      assert Delta(l, m) == [node];
    } else {
      assert Delta(l, m) == [Mark(l.next)] + [node];
      UnmarkedAppend([Mark(l.next)], [node]);
    }
  }

  lemma {:induction false} NeatEmit(l: Build, n: Node)
    requires Neat(l.body) && !n.Control?
    ensures Neat(Emit(l, n).body)
  {
    var b := l.body;
    if b != [] && IsPlaceholder(b[|b| - 1]) { assert NeatNode(Grown(b[|b| - 1], n)); }
  }

  lemma {:induction false} NeatPlace(b: seq<Node>, id: nat, ctl: Ctl)
    requires Neat(b) && !IsPlaceholder(Control(id, -1, ctl))
    ensures Neat(Place(b, id, ctl))
  {
    if b != [] && IsPlaceholder(b[|b| - 1]) { assert NeatNode(Grown(b[|b| - 1], Control(id, -1, ctl))); }
  }

  lemma {:induction false} UnmarkedNone(l: Build)
    ensures Delta(l, l) == [] && Unmarked([]) == []
  {
  }

  lemma {:induction false} PerformAllOpen(ops: seq<Write>, l: Build)
    requires (forall i :: 0 <= i < |ops| ==> Proper(ops[i])) && Neat(l.body)
    ensures var m := PerformAll(ops, l);
      Neat(m.body) && Open(l.body) <= Open(m.body) && Unmarked(Delta(l, m)) == Sent(ops, l)
    decreases |ops|
  {
    hide Open, Neat, Perform, Proper, Unmarked;
    if ops == [] {
      assert Delta(l, l) == [] && Unmarked([]) == [] by { UnmarkedNone(l); }
    } else {
      var l1, m := Perform(ops[0], l), PerformAll(ops, l);
      PerformOpen(ops[0], l);
      assert [ops[0]][1..] == [];
      PerformAllOpen(ops[1..], l1);
      DeltaTrans(l, l1, m);
    }
  }

  lemma {:induction false} DeltaTrans(l: Build, m: Build, r: Build)
    requires Open(l.body) <= Open(m.body) <= Open(r.body)
    ensures Open(l.body) <= Open(r.body)
    ensures Unmarked(Delta(l, r)) == Unmarked(Delta(l, m)) + Unmarked(Delta(m, r))
  {
    assert Delta(l, r) == Delta(l, m) + Delta(m, r);
    UnmarkedAppend(Delta(l, m), Delta(m, r));
  }

  /** Order is kept: the body lists what it listed before and then everything sent, in order. */
  lemma {:induction false} OrderKept(ops: seq<Write>, l: Build)
    requires (forall i :: 0 <= i < |ops| ==> Proper(ops[i])) && Neat(l.body)
    ensures List(PerformAll(ops, l).body) == List(l.body) + Sent(ops, l)
  {
    var m := PerformAll(ops, l);
    PerformAllOpen(ops, l);
    assert Open(m.body) == Open(l.body) + Delta(l, m);
    UnmarkedAppend(Open(l.body), Delta(l, m));
  }

  /** A continuation stays where it was reserved: some live node of the body keeps carrying it, and
      what stands from there on is what stood there before and then everything sent since. */
  lemma {:induction false} ContinuationStays(ops: seq<Write>, l: Build, t: int)
    requires (forall i :: 0 <= i < |ops| ==> Proper(ops[i])) && Neat(l.body)
    requires Seek(l.body, t) < |l.body|
    ensures var m := PerformAll(ops, l);
      Seek(m.body, t) < |m.body| &&
      List(m.body[Seek(m.body, t)..]) == List(l.body[Seek(l.body, t)..]) + Sent(ops, l)
  {
    hide Perform, Proper, PerformAll, Neat, Unmarked, Sent, Open, Seek;
    var m := PerformAll(ops, l);
    PerformAllOpen(ops, l);
    var o, d := Open(l.body), Delta(l, m);
    assert Open(m.body) == o + d;
    SeekOpen(l.body, t);
    SeekOpen(m.body, t);
    SeekAppend(o, d, t);
    var k := Seek(o, t);
    assert (o + d)[k..] == o[k..] + d;
    UnmarkedAppend(o[k..], d);
  }

  /** A continuation that has just been reserved is found: nothing stands behind it yet. */
  lemma {:induction false} ReservedFound(l: Build)
    requires forall i :: 0 <= i < |l.body| ==> !Continues(l.body[i], l.next)
    ensures var b := Perform(Reserve, l).body;
      Seek(b, l.next) == |b| - 1 && List(b[|b| - 1..]) == []
  {
    SeekAppend(l.body, [Continuation(l.next)], l.next);
    assert (l.body + [Continuation(l.next)])[|l.body|..] == [Continuation(l.next)];
    OpenOne(Continuation(l.next));
    UnmarkedAppend([Mark(l.next)], []);
  }

  // ----- what lowering writes to a body -----

  lemma {:induction false} PerformAllAppend(a: seq<Write>, b: seq<Write>, l: Build)
    ensures PerformAll(a + b, l) == PerformAll(b, PerformAll(a, l))
    decreases |a|
  {
    hide Perform;
    if a == [] {
      assert a + b == b;
    } else {
      assert (a + b)[1..] == a[1..] + b;
      PerformAllAppend(a[1..], b, Perform(a[0], l));
    }
  }

  lemma {:induction false} PerformOne(op: Write, l: Build)
    ensures PerformAll([op], l) == Perform(op, l)
  {
    assert [op][1..] == [];
    assert PerformAll([op][1..], Perform(op, l)) == Perform(op, l);
  }

  lemma {:induction false} PerformTwo(a: Write, b: Write, l: Build)
    ensures PerformAll([a, b], l) == Perform(b, Perform(a, l))
  {
    hide Perform;
    assert [a] + [b] == [a, b];
    PerformAllAppend([a], [b], l);
    PerformOne(a, l);
    PerformOne(b, Perform(a, l));
  }

  predicate AllProper(ops: seq<Write>) {
    forall i :: 0 <= i < |ops| ==> Proper(ops[i])
  }

  /** The step from `l` to `m` is a sequence of writes. */
  ghost predicate Writes(ops: seq<Write>, l: Build, m: Build) {
    AllProper(ops) && PerformAll(ops, l) == m
  }

  lemma {:induction false} WritesTrans(a: seq<Write>, b: seq<Write>, l: Build, m: Build, r: Build)
    requires Writes(a, l, m) && Writes(b, m, r)
    ensures Writes(a + b, l, r)
  {
    PerformAllAppend(a, b, l);
  }

  lemma {:induction false} InstrWritten(l: Build, r: nat, i: Instr) returns (ops: seq<Write>)
    ensures Writes(ops, l, EmitInstr(l.(regs := r), i))
  {
    hide Emit;
    ops := [Elsewhere(l.next, r), Send(Instruction(i))];
    PerformTwo(ops[0], ops[1], l);
  }

  lemma {:induction false} NothingWritten(l: Build) returns (ops: seq<Write>)
    ensures Writes(ops, l, l)
  {
    ops := [];
  }

  lemma {:induction false} NodeWritten(l: Build, node: Node) returns (ops: seq<Write>)
    requires !node.Control?
    ensures Writes(ops, l, Emit(l, node))
  {
    hide Emit;
    ops := [Send(node)];
    PerformOne(ops[0], l);
  }

  /** A control node whose contents were written elsewhere. */
  lemma {:induction false} ControlWritten(l: Build, ctl: Ctl, next: nat, regs: nat) returns (ops: seq<Write>)
    requires l.next < next && !(ctl.BlockNode? && ctl.kind == Placeholder)
    ensures Writes(ops, l, Build(Place(l.body, l.next, ctl), next, regs))
  {
    hide Place;
    ops := [SendControl(ctl), Elsewhere(next, regs)];
    PerformTwo(ops[0], ops[1], l);
  }

  /** The same with its continuation. */
  lemma {:induction false} ConstructWritten(l: Build, ctl: Ctl, cont: nat, next: nat, regs: nat)
    returns (ops: seq<Write>)
    requires l.next < cont < next && !(ctl.BlockNode? && ctl.kind == Placeholder)
    ensures Writes(ops, l, Build(Place(l.body, l.next, ctl) + [Continuation(cont)], next, regs))
  {
    hide Place;
    var a, b := [SendControl(ctl), Elsewhere(cont, regs)], [Reserve, Elsewhere(next, regs)];
    ops := a + b;
    PerformAllAppend(a, b, l);
    PerformTwo(a[0], a[1], l);
    PerformTwo(b[0], b[1], PerformAll(a, l));
  }

  lemma {:induction false} ExprWritten(e: Expr, l: Build) returns (ops: seq<Write>)
    ensures Writes(ops, l, LowerExpr(e, l).1)
    decreases e, 1
  {
    hide Writes, Emit;
    match e {
      case Lit(_) => ops := NothingWritten(l);
      case Var(x) => ops := InstrWritten(l, l.regs + 1, Load(l.regs, Named(x)));
      case Bin(op, a, b) =>
        var (va, l1) := LowerExpr(a, l);
        var (vb, l2) := LowerExpr(b, l1);
        var i := Binary(l2.regs, op, va, vb);
        var x := ExprWritten(a, l);
        var y := ExprWritten(b, l1);
        var z := InstrWritten(l2, l2.regs + 1, i);
        WritesTrans(x, y, l, l1, l2);
        WritesTrans(x + y, z, l, l2, EmitInstr(l2.(regs := l2.regs + 1), i));
        ops := x + y + z;
      case Call(f, a) =>
        var (va, l1) := LowerExpr(a, l);
        var i := CallStatic(l1.regs, f, va);
        var x := ExprWritten(a, l);
        var y := InstrWritten(l1, l1.regs + 1, i);
        WritesTrans(x, y, l, l1, EmitInstr(l1.(regs := l1.regs + 1), i));
        ops := x + y;
      case And(_, _) => ops := ShortCircuitWritten(e, l);
      case Or(_, _) => ops := ShortCircuitWritten(e, l);
    }
  }

  lemma {:induction false} ShortCircuitWritten(e: Expr, l: Build) returns (ops: seq<Write>)
    requires e.And? || e.Or?
    ensures Writes(ops, l, LowerShortCircuit(e, l).1)
    decreases e, 0
  {
    hide Writes, Emit, LowerExpr, Place, LowerRight;
    var n := if e.And? then 0 else 1;
    var a1 := EmitInstr(l.(regs := l.regs + 1), Alloca(l.regs));
    var l0 := OpenSlot(l, n);
    var x := InstrWritten(l, l.regs + 1, Alloca(l.regs));
    var y := InstrWritten(a1, a1.regs, StoreTo(Const(n), Temp(l.regs)));
    assert a1.(regs := a1.regs) == a1;
    WritesTrans(x, y, l, a1, l0);
    var (va, l1) := LowerExpr(e.left, l0);
    var z := ExprWritten(e.left, l0);
    WritesTrans(x + y, z, l, l0, l1);
    var (ctl, r) := LowerRight(e, l.regs, va, l1);
    ControlIds.RightAdds(e, l.regs, va, l1);
    var l2 := Build(Place(l1.body, l1.next, ctl), r.next, r.regs);
    var u := ControlWritten(l1, ctl, r.next, r.regs);
    WritesTrans(x + y + z, u, l, l1, l2);
    var v := InstrWritten(l2, l2.regs + 1, Load(l2.regs, Temp(l.regs)));
    WritesTrans(x + y + z + u, v, l, l2, LowerShortCircuit(e, l).1);
    ops := x + y + z + u + v;
  }

  lemma {:induction false} SimpleWritten(areas: seq<nat>, c: Simple, l: Build) returns (ops: seq<Write>)
    ensures Writes(ops, l, LowerSimple(areas, c, l))
  {
    hide Writes, Emit, LowerExpr;
    if c.Nothing? {
      ops := NothingWritten(l);
    } else {
      var (v, l1) := LowerExpr(c.e, l);
      ops := ExprWritten(c.e, l);
      if c.New? {
        var l2 := EmitInstr(l1.(regs := l1.regs + 1), Allocate(areas, l1.regs));
        var x := InstrWritten(l1, l1.regs + 1, Allocate(areas, l1.regs));
        WritesTrans(ops, x, l, l1, l2);
        var y := InstrWritten(l2, l2.regs, StoreTo(v, Named(c.name)));
        assert l2.(regs := l2.regs) == l2;
        WritesTrans(ops + x, y, l, l2, LowerSimple(areas, c, l));
        ops := ops + x + y;
      } else if c.Assign? {
        var x := InstrWritten(l1, l1.regs, StoreTo(v, Named(c.name)));
        assert l1.(regs := l1.regs) == l1;
        WritesTrans(ops, x, l, l1, LowerSimple(areas, c, l));
        ops := ops + x;
      }
    }
  }

  lemma {:induction false} EndsWritten(areas: seq<nat>, l: Build) returns (ops: seq<Write>)
    ensures Writes(ops, l, EmitEnds(areas, l))
    decreases |areas|
  {
    hide Writes, Emit;
    if areas == [] {
      ops := NothingWritten(l);
    } else {
      var i := AreaEnd(areas[|areas| - 1]);
      var x := InstrWritten(l, l.regs, i);
      assert l.(regs := l.regs) == l;
      var y := EndsWritten(areas[..|areas| - 1], EmitInstr(l, i));
      WritesTrans(x, y, l, EmitInstr(l, i), EmitEnds(areas, l));
      ops := x + y;
    }
  }

  lemma {:induction false} AreaBeginWritten(areas: seq<nat>, size: Option<Expr>, l: Build) returns (ops: seq<Write>)
    ensures Writes(ops, l, LowerAreaBegin(areas, size, l).1)
  {
    hide Writes, Emit, LowerExpr;
    var (bytes, l1) := LowerAreaSize(size, l);
    ops := NothingWritten(l);
    if size.Some? {
      var (v, l0) := LowerExpr(size.value, l);
      var i := Binary(l0.regs, Mul, v, Const(1024));
      var x := ExprWritten(size.value, l);
      var y := InstrWritten(l0, l0.regs + 1, i);
      WritesTrans(x, y, l, l0, l1);
      ops := x + y;
    }
    var i := AreaBegin(l1.regs, bytes, if areas == [] then None else Some(areas[|areas| - 1]));
    var z := InstrWritten(l1, l1.regs + 1, i);
    WritesTrans(ops, z, l, l1, LowerAreaBegin(areas, size, l).1);
    ops := ops + z;
  }

  /** Lowering a statement is a sequence of writes to the body on top, whatever it writes elsewhere; with
      `OrderKept` and `ContinuationStays` nothing written before is moved or lost. */
  lemma {:induction false} StatementWritten(areas: seq<nat>, c: Stmt, l: Build, ctx: Option<LoopContext>)
    returns (ops: seq<Write>)
    ensures Writes(ops, l, LowerStmt(areas, c, l, ctx))
    decreases c
  {
    hide Writes, Emit, LowerExpr, Place, LowerSimple, EmitEnds, LowerAreaBegin, LowerLoopNode, LowerSwitchBlock;
    var m := LowerStmt(areas, c, l, ctx);
    ops := NothingWritten(l);
    match c {
      case Plain(p) => ops := SimpleWritten(areas, p, l);
      case Seq(a, b) =>
        var l1 := LowerStmt(areas, a, l, ctx);
        var x := StatementWritten(areas, a, l, ctx);
        var y := StatementWritten(areas, b, l1, ctx);
        WritesTrans(x, y, l, l1, m);
        ops := x + y;
      case If(_, _, _, _) => ops := IfWritten(areas, c, l, ctx);
      case For(_, _, _, _) =>
        ControlIds.LoopBlockUses(areas, c, l);
        var (loop, p) := LowerLoopNode(areas, c, l);
        ops := ConstructWritten(l, BlockNode(Ordinary, [loop]), l.next + 2, p.next, p.regs);
      case Switch(_, _, _) => ops := SwitchWritten(areas, c, l);
      case Break => if ctx.Some? { ops := ControlWritten(l, BrNode(ctx.value.breakTarget), l.next + 1, l.regs); }
      case Continue => if ctx.Some? { ops := ControlWritten(l, BrNode(ctx.value.continueTarget), l.next + 1, l.regs); }
      case Return(_) => ops := ExitWritten(areas, c, l, ctx);
      case Panic(_) => ops := ExitWritten(areas, c, l, ctx);
      case Area(size, body) =>
        var (a, l1) := LowerAreaBegin(areas, size, l);
        var x := AreaBeginWritten(areas, size, l);
        var l2 := LowerStmt(areas + [a], body, l1, ctx);
        var y := StatementWritten(areas + [a], body, l1, ctx);
        WritesTrans(x, y, l, l1, l2);
        var z := InstrWritten(l2, l2.regs, AreaEnd(a));
        assert l2.(regs := l2.regs) == l2;
        WritesTrans(x + y, z, l, l2, m);
        ops := x + y + z;
    }
  }

  lemma {:induction false} IfWritten(areas: seq<nat>, c: Stmt, l: Build, ctx: Option<LoopContext>)
    returns (ops: seq<Write>)
    requires c.If?
    ensures Writes(ops, l, LowerStmt(areas, c, l, ctx))
  {
    hide Writes, Emit, LowerExpr, Place, LowerSimple;
    var l0 := LowerSimple(areas, c.init, l);
    var x := SimpleWritten(areas, c.init, l);
    var (v, l1) := LowerExpr(c.cond, l0);
    var y := ExprWritten(c.cond, l0);
    WritesTrans(x, y, l, l0, l1);
    ControlIds.BranchesAdd(areas, c, v, l1, ctx);
    var t := LowerStmt(areas, c.thn, Build([], l1.next + 2, l1.regs), ctx);
    var e := LowerStmt(areas, c.els, Build([], t.next, t.regs), ctx);
    var z := ConstructWritten(l1, IfNode(v, t.body, e.body), l1.next + 1, e.next, e.regs);
    WritesTrans(x + y, z, l, l1, LowerStmt(areas, c, l, ctx));
    ops := x + y + z;
  }

  lemma {:induction false} SwitchWritten(areas: seq<nat>, c: Stmt, l: Build) returns (ops: seq<Write>)
    requires c.Switch?
    ensures Writes(ops, l, LowerSwitch(areas, c, l))
  {
    hide Writes, LowerExpr, Place, LowerSwitchBlock;
    var (v, l1) := LowerExpr(c.value, l);
    var x := ExprWritten(c.value, l);
    var b0 := Build([], l1.next + 2, l1.regs);
    ControlIds.SwitchBlockAdds(areas, c, v, l1.next, b0);
    var (body, m) := LowerSwitchBlock(areas, c, v, l1.next, b0);
    var y := ConstructWritten(l1, BlockNode(Ordinary, body), l1.next + 1, m.next, m.regs);
    WritesTrans(x, y, l, l1, LowerSwitch(areas, c, l));
    ops := x + y;
  }

  lemma {:induction false} ExitWritten(areas: seq<nat>, c: Stmt, l: Build, ctx: Option<LoopContext>)
    returns (ops: seq<Write>)
    requires c.Return? || c.Panic?
    ensures Writes(ops, l, LowerStmt(areas, c, l, ctx))
  {
    hide Writes, Emit, LowerExpr, EmitEnds;
    var (v, l1) := LowerExpr(c.e, l);
    ops := ExprWritten(c.e, l);
    var l2 := l1;
    if c.Panic? {
      l2 := EmitInstr(l1, SetPanic(v));
      var x := InstrWritten(l1, l1.regs, SetPanic(v));
      assert l1.(regs := l1.regs) == l1;
      WritesTrans(ops, x, l, l1, l2);
      ops := ops + x;
    }
    var l3 := EmitEnds(areas, l2);
    var y := EndsWritten(areas, l2);
    WritesTrans(ops, y, l, l2, l3);
    var node := if c.Panic? then PanicNode(v) else ReturnNode(v);
    var z := NodeWritten(l3, node);
    WritesTrans(ops + y, z, l, l3, Emit(l3, node));
    ops := ops + y + z;
  }

  /** So a statement leaves what was listed in its order, writes its own code behind it, and every
      continuation that could be found is found, with the new code behind it. */
  lemma {:induction false} StatementListed(areas: seq<nat>, c: Stmt, l: Build, ctx: Option<LoopContext>)
    requires Neat(l.body)
    ensures exists ops ::
      var m := LowerStmt(areas, c, l, ctx);
      && Writes(ops, l, m) && List(m.body) == List(l.body) + Sent(ops, l)
      && forall t :: Seek(l.body, t) < |l.body| ==>
           Seek(m.body, t) < |m.body| &&
           List(m.body[Seek(m.body, t)..]) == List(l.body[Seek(l.body, t)..]) + Sent(ops, l)
  {
    hide LowerStmt, Neat, Sent, Seek, List, PerformAll, Proper;
    var m := LowerStmt(areas, c, l, ctx);
    var ops := StatementWritten(areas, c, l, ctx);
    OrderKept(ops, l);
    forall t | Seek(l.body, t) < |l.body|
      ensures Seek(m.body, t) < |m.body|
      ensures List(m.body[Seek(m.body, t)..]) == List(l.body[Seek(l.body, t)..]) + Sent(ops, l)
    {
      ContinuationStays(ops, l, t);
    }
  }
}
