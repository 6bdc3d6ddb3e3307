/** The code written for a statement keeps bodies tidy and branches only to its own nodes and to the
    targets of the enclosing loop. */
module StatementShape {
  import opened Source
  import opened Structured
  import opened Opening
  import opened Lowering
  import opened Writing
  import opened Expressions
  import SwitchTable

  /** Branch targets are those of the enclosing loop or nodes of the code's own. */
  ghost predicate Bounded(ts: set<int>, base: set<int>, ctx: Option<LoopContext>, lo: int, hi: int) {
    forall t :: t in ts ==>
      (t == 0 || t in base || lo <= t < hi
       || (ctx.Some? && (t == ctx.value.breakTarget || t == ctx.value.continueTarget)))
  }

  /** The targets of the enclosing loop are older than anything in the body. */
  predicate Outer(ctx: Option<LoopContext>, lo: int) {
    0 < lo && (ctx.Some? ==> 0 <= ctx.value.breakTarget < lo && 0 <= ctx.value.continueTarget < lo)
  }

  ghost predicate Sound(l: Build, m: Build, ctx: Option<LoopContext>, lo: int) {
    && Shaped(m, lo) && l.next <= m.next && l.regs <= m.regs
    && Bounded(Targets(m.body), Targets(l.body), ctx, l.next, m.next)
  }

  lemma {:induction false} SimpleQuiet(areas: seq<nat>, c: Simple, l: Build, lo: int)
    requires Shaped(l, lo) && lo <= l.next
    ensures Quiet(l, LowerSimple(areas, c, l), lo)
  {
    hide Shaped, Emit, LowerExpr;
    match c {
      case Nothing =>
      case Assign(x, e) =>
        ExprQuiet(e, l, lo);
        var (v, l1) := LowerExpr(e, l);
        EmitQuiet(l1, l1.regs, StoreTo(v, Named(x)), lo);
      case New(x, e) =>
        ExprQuiet(e, l, lo);
        var (v, l1) := LowerExpr(e, l);
        EmitQuiet(l1, l1.regs + 1, Allocate(areas, l1.regs), lo);
        var l2 := EmitInstr(l1.(regs := l1.regs + 1), Allocate(areas, l1.regs));
        EmitQuiet(l2, l2.regs, StoreTo(v, Named(x)), lo);
      case Do(e) => ExprQuiet(e, l, lo);
    }
  }

  /** Placing a finished node whose code was written between `l.next` and `next`. */
  lemma {:induction false} PlaceSound(l: Build, ctl: Ctl, next: nat, regs: nat, ctx: Option<LoopContext>, lo: int)
    requires Shaped(l, lo) && lo <= l.next < next && Outer(ctx, lo) && l.regs <= regs
    requires !IsPlaceholder(Control(l.next, -1, ctl)) && TidyNode(Control(l.next, -1, ctl))
    requires Bounded(NodeTargets(Control(l.next, -1, ctl)), {}, ctx, l.next, next)
    ensures Sound(l, Build(Place(l.body, l.next, ctl), next, regs), ctx, lo)
  {
    hide Tidy, TidyNode;
    PlaceShaped(l, ctl, next, lo);
  }

  lemma {:induction false} ContinuationSound(l: Build, m: Build, id: nat, ctx: Option<LoopContext>, lo: int)
    requires Sound(l, m, ctx, lo) && lo <= id < m.next
    ensures Sound(l, m.(body := m.body + [Continuation(id)]), ctx, lo)
  {
    assert TidyNode(Continuation(id)) by { assert Tidy([]); }
    PushShaped(m, |m.body|, Continuation(id), m.next, lo);
    assert m.body[..|m.body|] == m.body;
  }

  lemma {:induction false} SoundTrans(l: Build, m: Build, r: Build, ctx: Option<LoopContext>, lo: int)
    requires Sound(l, m, ctx, lo) && Sound(m, r, ctx, lo)
    ensures Sound(l, r, ctx, lo)
  {
  }

  lemma {:induction false} StmtSound(areas: seq<nat>, c: Stmt, l: Build, ctx: Option<LoopContext>, lo: int)
    requires Shaped(l, lo) && lo <= l.next && Outer(ctx, lo)
    ensures Sound(l, LowerStmt(areas, c, l, ctx), ctx, lo)
    decreases c, 1
  {
    hide Shaped, Emit, LowerExpr, Place, Tidy, LowerSimple, LowerFor, LowerSwitch;
    match c {
      case Plain(p) => SimpleQuiet(areas, p, l, lo);
      case Seq(a, b) =>
        StmtSound(areas, a, l, ctx, lo);
        StmtSound(areas, b, LowerStmt(areas, a, l, ctx), ctx, lo);
        SoundTrans(l, LowerStmt(areas, a, l, ctx), LowerStmt(areas, c, l, ctx), ctx, lo);
      case If(_, _, _, _) => IfSound(areas, c, l, ctx, lo);
      case For(_, _, _, _) => ForSound(areas, c, l, ctx, lo);
      case Switch(_, _, _) => SwitchSound(areas, c, l, ctx, lo);
      case Break => if ctx.Some? { PlaceSound(l, BrNode(ctx.value.breakTarget), l.next + 1, l.regs, ctx, lo); }
      case Continue => if ctx.Some? { PlaceSound(l, BrNode(ctx.value.continueTarget), l.next + 1, l.regs, ctx, lo); }
      case Return(e) =>
        ExprQuiet(e, l, lo);
        var (v, l1) := LowerExpr(e, l);
        EndsQuiet(areas, l1, lo);
        EmitShaped(EmitEnds(areas, l1), ReturnNode(v), lo);
      case Panic(e) => PanicSound(areas, c, l, ctx, lo);
      case Area(_, _) => AreaSound(areas, c, l, ctx, lo);
    }
  }

  lemma {:induction false} EndsQuiet(areas: seq<nat>, l: Build, lo: int)
    requires Shaped(l, lo) && lo <= l.next
    ensures Quiet(l, EmitEnds(areas, l), lo) && EmitEnds(areas, l).regs == l.regs
    decreases |areas|
  {
    hide Shaped;
    if areas != [] {
      var i := AreaEnd(areas[|areas| - 1]);
      EmitQuiet(l, l.regs, i, lo);
      assert l.(regs := l.regs) == l;
      EndsQuiet(areas[..|areas| - 1], EmitInstr(l, i), lo);
    }
  }

  lemma {:induction false} PanicSound(areas: seq<nat>, c: Stmt, l: Build, ctx: Option<LoopContext>, lo: int)
    requires c.Panic? && Shaped(l, lo) && lo <= l.next && Outer(ctx, lo)
    ensures Sound(l, LowerStmt(areas, c, l, ctx), ctx, lo)
  {
    hide Shaped, Emit, LowerExpr;
    ExprQuiet(c.e, l, lo);
    var (v, l1) := LowerExpr(c.e, l);
    EmitQuiet(l1, l1.regs, SetPanic(v), lo);
    var l2 := EmitInstr(l1, SetPanic(v));
    assert l1.(regs := l1.regs) == l1;
    EndsQuiet(areas, l2, lo);
    EmitShaped(EmitEnds(areas, l2), PanicNode(v), lo);
  }

  lemma {:induction false} AreaBeginQuiet(areas: seq<nat>, size: Option<Expr>, l: Build, lo: int)
    requires Shaped(l, lo) && lo <= l.next
    ensures var (a, m) := LowerAreaBegin(areas, size, l); Quiet(l, m, lo) && l.regs <= a < m.regs
  {
    hide Shaped, Emit, LowerExpr;
    if size.Some? {
      ExprQuiet(size.value, l, lo);
      var (v, l0) := LowerExpr(size.value, l);
      EmitQuiet(l0, l0.regs + 1, Binary(l0.regs, Mul, v, Const(1024)), lo);
      EmitInstrRegs(l0.(regs := l0.regs + 1), Binary(l0.regs, Mul, v, Const(1024)));
    }
    var (bytes, l1) := LowerAreaSize(size, l);
    var i := AreaBegin(l1.regs, bytes, if areas == [] then None else Some(areas[|areas| - 1]));
    EmitQuiet(l1, l1.regs + 1, i, lo);
    EmitInstrRegs(l1.(regs := l1.regs + 1), i);
  }

  lemma {:induction false} EmitInstrRegs(l: Build, i: Instr)
    ensures EmitInstr(l, i).regs == l.regs
  {
  }

  lemma {:induction false} AreaSound(areas: seq<nat>, c: Stmt, l: Build, ctx: Option<LoopContext>, lo: int)
    requires c.Area? && Shaped(l, lo) && lo <= l.next && Outer(ctx, lo)
    ensures Sound(l, LowerStmt(areas, c, l, ctx), ctx, lo)
    decreases c, 0
  {
    hide Shaped, Emit, LowerExpr, LowerAreaBegin;
    AreaBeginQuiet(areas, c.size, l, lo);
    var (a, l1) := LowerAreaBegin(areas, c.size, l);
    StmtSound(areas + [a], c.body, l1, ctx, lo);
    var l2 := LowerStmt(areas + [a], c.body, l1, ctx);
    EmitQuiet(l2, l2.regs, AreaEnd(a), lo);
    assert l2.(regs := l2.regs) == l2;
  }

  lemma {:induction false} IfSound(areas: seq<nat>, c: Stmt, l: Build, ctx: Option<LoopContext>, lo: int)
    requires c.If? && Shaped(l, lo) && lo <= l.next && Outer(ctx, lo)
    ensures Sound(l, LowerStmt(areas, c, l, ctx), ctx, lo)
    decreases c, 0
  {
    hide Shaped, Emit, LowerExpr, Place, LowerSimple, LowerFor;
    var l0 := LowerSimple(areas, c.init, l);
    SimpleQuiet(areas, c.init, l, lo);
    var (v, l1) := LowerExpr(c.cond, l0);
    ExprQuiet(c.cond, l0, lo);
    var id := l1.next;
    BodySound(areas, c.thn, Build([], id + 2, l1.regs), ctx);
    var t := LowerStmt(areas, c.thn, Build([], id + 2, l1.regs), ctx);
    BodySound(areas, c.els, Build([], t.next, t.regs), ctx);
    var e := LowerStmt(areas, c.els, Build([], t.next, t.regs), ctx);
    var ctl := IfNode(v, t.body, e.body);
    PlaceSound(l1, ctl, e.next, e.regs, ctx, lo);
    ContinuationSound(l1, Build(Place(l1.body, id, ctl), e.next, e.regs), id + 1, ctx, lo);
  }

  /** A body written from scratch. */
  lemma {:induction false} BodySound(areas: seq<nat>, c: Stmt, l: Build, ctx: Option<LoopContext>)
    requires l.body == [] && Outer(ctx, l.next)
    ensures var m := LowerStmt(areas, c, l, ctx);
      Tidy(m.body) && l.next <= m.next && l.regs <= m.regs && Bounded(Targets(m.body), {}, ctx, l.next, m.next)
    decreases c, 2
  {
    FreshShaped(l);
    StmtSound(areas, c, l, ctx, l.next);
  }

  lemma {:induction false} LoopBodySound(areas: seq<nat>, c: Stmt, blockId: nat, ctx: Option<LoopContext>, l: Build)
    requires c.For? && l.body == [] && Outer(ctx, l.next) && blockId < l.next
    ensures var m := LowerLoopBody(areas, c, blockId, ctx, l);
      Tidy(m.body) && l.next <= m.next && l.regs <= m.regs &&
      Bounded(Targets(m.body), {blockId}, ctx, l.next, m.next)
    decreases c.body, 3
  {
    hide Shaped, Emit, LowerExpr, Place, LowerSimple, LowerFor;
    if c.test.None? {
      BodySound(areas, c.body, l, ctx);
    } else {
      var (v, l1) := LowerExpr(c.test.value, l);
      FreshShaped(l);
      ExprQuiet(c.test.value, l, l.next);
      var t0 := Build([], l1.next + 2, l1.regs);
      BodySound(areas, c.body, t0, ctx);
      var t := LowerStmt(areas, c.body, t0, ctx);
      var exit := Control(l1.next + 1, -1, BrNode(blockId));
      TargetsOne(exit);
      assert TidyNode(exit) && Tidy([exit]);
      PlaceShaped(l1, IfNode(v, t.body, [exit]), t.next, l.next);
      ShapedTidy(Build(Place(l1.body, l1.next, IfNode(v, t.body, [exit])), t.next, l1.regs), l.next);
    }
  }

  lemma {:induction false} ForSound(areas: seq<nat>, c: Stmt, l: Build, ctx: Option<LoopContext>, lo: int)
    requires c.For? && Shaped(l, lo) && lo <= l.next && Outer(ctx, lo)
    ensures Sound(l, LowerFor(areas, c, l), ctx, lo)
    decreases c, 0, 1
  {
    hide Shaped, Emit, LowerExpr, Place, LowerSimple, LowerLoopBody;
    LoopNodeSound(areas, c, l);
    var (loop, p) := LowerLoopNode(areas, c, l);
    var ctl := BlockNode(Ordinary, [loop]);
    TargetsOne(loop);
    assert Tidy([loop]) && TidyNode(Control(l.next, -1, ctl));
    PlaceSound(l, ctl, p.next, p.regs, ctx, lo);
    ContinuationSound(l, Build(Place(l.body, l.next, ctl), p.next, p.regs), l.next + 2, ctx, lo);
  }

  lemma {:induction false} LoopNodeSound(areas: seq<nat>, c: Stmt, l: Build)
    requires c.For?
    ensures var (loop, p) := LowerLoopNode(areas, c, l);
      TidyNode(loop) && l.next + 2 < p.next && l.regs <= p.regs &&
      Bounded(NodeTargets(loop), {}, None, l.next, p.next)
    decreases c, 0, 0
  {
    hide Shaped, Emit, LowerExpr, LowerSimple, LowerLoopBody;
    var blockId, loopId, contId := l.next, l.next + 1, l.next + 2;
    var i0 := Build([], l.next + 3, l.regs);
    FreshShaped(i0);
    SimpleQuiet(areas, c.init, i0, i0.next);
    var i := LowerSimple(areas, c.init, i0);
    ShapedTidy(i, i0.next);
    var inner := Some(LoopContext(contId, loopId));
    var b0 := Build([], i.next, i.regs);
    LoopBodySound(areas, c, blockId, inner, b0);
    var b := LowerLoopBody(areas, c, blockId, inner, b0);
    var p0 := Build([], b.next, b.regs);
    FreshShaped(p0);
    SimpleQuiet(areas, c.post, p0, p0.next);
    var p := LowerSimple(areas, c.post, p0);
    PlaceShaped(p, BrNode(loopId), p.next + 1, p0.next);
    ShapedTidy(Build(Place(p.body, p.next, BrNode(loopId)), p.next + 1, p.regs), p0.next);
  }

  lemma {:induction false} SwitchSound(areas: seq<nat>, c: Stmt, l: Build, ctx: Option<LoopContext>, lo: int)
    requires c.Switch? && Shaped(l, lo) && lo <= l.next && Outer(ctx, lo)
    ensures Sound(l, LowerSwitch(areas, c, l), ctx, lo)
    decreases c, 0, 4
  {
    hide Shaped, Emit, LowerExpr, Place, LowerSwitchBlock;
    var (v, l1) := LowerExpr(c.value, l);
    ExprQuiet(c.value, l, lo);
    var b0 := Build([], l1.next + 2, l1.regs);
    var (body, m) := LowerSwitchBlock(areas, c, v, l1.next, b0);
    SwitchBlockSound(areas, c, v, l1.next, b0);
    var ctl := BlockNode(Ordinary, body);
    PlaceSound(l1, ctl, m.next, m.regs, ctx, lo);
    ContinuationSound(l1, Build(Place(l1.body, l1.next, ctl), m.next, m.regs), l1.next + 1, ctx, lo);
  }

  lemma {:induction false} SwitchBlockSound(areas: seq<nat>, c: Stmt, v: Value, blockId: nat, l: Build)
    requires c.Switch? && l.body == [] && l.next == blockId + 2
    ensures var (body, m) := LowerSwitchBlock(areas, c, v, blockId, l);
      Tidy(body) && l.next < m.next && l.regs <= m.regs && Bounded(Targets(body), {}, None, blockId, m.next)
    decreases c, 0, 3
  {
    hide Shaped, Emit, Place, LowerBuckets, LowerDefault, LowerDispatch, Tidy;
    var (order, targets) := Buckets(c);
    var (x, l1) := LowerDispatch(c.text, v, |targets|, l);
    FreshShaped(l);
    DispatchQuiet(c.text, v, |targets|, l, l.next);
    var ctx := Some(LoopContext(blockId + 1, 0));
    var b0 := Build([], l1.next + 1, l1.regs);
    BucketsSound(areas, c, v, order, blockId, ctx, b0);
    var (cases, l2) := LowerBuckets(areas, c, v, order, blockId, ctx, b0);
    var d0 := Build([], l2.next, l2.regs);
    DefaultSound(areas, c, blockId, ctx, d0);
    var d := LowerDefault(areas, c, blockId, ctx, d0);
    var ctl := TableNode(x, targets, cases, d.body);
    PlaceShaped(l1, ctl, d.next, l.next);
    ShapedTidy(Build(Place(l1.body, l1.next, ctl), d.next, l1.regs), l.next);
  }

  lemma {:induction false} DispatchQuiet(text: bool, v: Value, size: nat, l: Build, lo: int)
    requires Shaped(l, lo) && lo <= l.next
    ensures Quiet(l, LowerDispatch(text, v, size, l).1, lo)
  {
    hide Shaped, Emit;
    var (h, l0) := if text then (Reg(l.regs), EmitInstr(l.(regs := l.regs + 1), HashText(l.regs, v))) else (v, l);
    if text { EmitQuiet(l, l.regs + 1, HashText(l.regs, v), lo); }
    EmitQuiet(l0, l0.regs + 1, CastUnsigned(l0.regs, h), lo);
    var l1 := EmitInstr(l0.(regs := l0.regs + 1), CastUnsigned(l0.regs, h));
    EmitQuiet(l1, l1.regs + 1, RemUnsigned(l1.regs, Reg(l0.regs), size), lo);
  }

  lemma {:induction false} BucketsSound(areas: seq<nat>, c: Stmt, v: Value, order: seq<nat>, blockId: nat,
                                        ctx: Option<LoopContext>, l: Build)
    requires c.Switch? && l.body == [] && Outer(ctx, l.next) && blockId < l.next
    ensures var (cases, m) := LowerBuckets(areas, c, v, order, blockId, ctx, l);
      (forall i :: 0 <= i < |cases| ==> Tidy(cases[i].body)) && l.next <= m.next && l.regs <= m.regs &&
      Bounded(CaseTargets(cases), {blockId}, ctx, l.next, m.next)
    decreases c, 0, 2, |order|
  {
    hide Shaped, LowerChain, Tidy;
    if order != [] {
      ChainSound(areas, c, v, order[0], 0, blockId, ctx, l);
      var chain := LowerChain(areas, c, v, order[0], 0, blockId, ctx, l);
      BucketsSound(areas, c, v, order[1..], blockId, ctx, Build([], chain.next, chain.regs));
      var (cases, _) := LowerBuckets(areas, c, v, order[1..], blockId, ctx, Build([], chain.next, chain.regs));
      var all := [TableCase(chain.body)] + cases;
      assert all[1..] == cases;
    }
  }

  lemma {:induction false} ChainSound(areas: seq<nat>, c: Stmt, v: Value, b: nat, i: nat, blockId: nat,
                                      ctx: Option<LoopContext>, l: Build)
    requires c.Switch? && i <= |c.clauses| && l.body == [] && Outer(ctx, l.next) && blockId < l.next
    ensures var m := LowerChain(areas, c, v, b, i, blockId, ctx, l);
      Tidy(m.body) && l.next <= m.next && l.regs <= m.regs && Bounded(Targets(m.body), {blockId}, ctx, l.next, m.next)
    decreases c, 0, 1, |c.clauses| - i + 1
  {
    hide Shaped, Emit, Place, LowerStmt, LowerTests, Tidy, Targets, Bounded, BucketKeys;
    if i == |c.clauses| {
      DefaultSound(areas, c, blockId, ctx, l);
    } else {
      var keys := BucketKeys(c, b, i);
      if keys == [] {
        ChainSound(areas, c, v, b, i + 1, blockId, ctx, l);
      } else {
        var (x, l1) := LowerTests(v, keys, l);
        var t0 := Build([], l1.next + 1, l1.regs);
        FreshShaped(l);
        TestsQuiet(v, keys, l, l.next);
        ClauseSound(areas, c.clauses[i].body, blockId, ctx, t0);
        var t := Jump(LowerStmt(areas, c.clauses[i].body, t0, ctx), blockId);
        var e0 := Build([], t.next, t.regs);
        ChainSound(areas, c, v, b, i + 1, blockId, ctx, e0);
        var e := LowerChain(areas, c, v, b, i + 1, blockId, ctx, e0);
        TestSound(l, l1, x, t, e, blockId, ctx);
      }
    }
  }

  lemma {:induction false} TestSound(l: Build, l1: Build, x: Value, t: Build, e: Build, blockId: nat,
                                     ctx: Option<LoopContext>)
    requires l.body == [] && Outer(ctx, l.next) && blockId < l.next && Quiet(l, l1, l.next)
    requires l1.next + 1 <= t.next <= e.next && Tidy(t.body) && Tidy(e.body)
    requires Bounded(Targets(t.body), {blockId}, ctx, l1.next + 1, t.next)
    requires Bounded(Targets(e.body), {blockId}, ctx, t.next, e.next)
    ensures var b := Place(l1.body, l1.next, IfNode(x, t.body, e.body));
      Tidy(b) && Bounded(Targets(b), {blockId}, ctx, l.next, e.next)
  {
    hide Shaped, Place;
    var ctl := IfNode(x, t.body, e.body);
    PlaceShaped(l1, ctl, e.next, l.next);
    ShapedTidy(Build(Place(l1.body, l1.next, ctl), e.next, l1.regs), l.next);
  }

  /** The body of a clause with the branch out of the switch behind it. */
  lemma {:induction false} ClauseSound(areas: seq<nat>, body: Stmt, blockId: nat, ctx: Option<LoopContext>, l: Build)
    requires l.body == [] && Outer(ctx, l.next) && blockId < l.next
    ensures var m := Jump(LowerStmt(areas, body, l, ctx), blockId);
      Tidy(m.body) && l.next <= m.next && l.regs <= m.regs && Bounded(Targets(m.body), {blockId}, ctx, l.next, m.next)
    decreases body, 2
  {
    hide Shaped, LowerStmt, Place;
    FreshShaped(l);
    StmtSound(areas, body, l, ctx, l.next);
    var t := LowerStmt(areas, body, l, ctx);
    PlaceShaped(t, BrNode(blockId), t.next + 1, l.next);
    ShapedTidy(Jump(t, blockId), l.next);
  }

  lemma {:induction false} DefaultSound(areas: seq<nat>, c: Stmt, blockId: nat, ctx: Option<LoopContext>, l: Build)
    requires c.Switch? && l.body == [] && Outer(ctx, l.next) && blockId < l.next
    ensures var m := LowerDefault(areas, c, blockId, ctx, l);
      Tidy(m.body) && l.next <= m.next && l.regs <= m.regs && Bounded(Targets(m.body), {blockId}, ctx, l.next, m.next)
    decreases c, 0, 1, 0
  {
    hide Shaped, LowerStmt, Place;
    var d := SwitchTable.DefaultClause(Keys(c.clauses));
    if d < |c.clauses| {
      BodySound(areas, c.clauses[d].body, l, ctx);
    } else {
      FreshShaped(l);
      PlaceShaped(l, BrNode(blockId), l.next + 1, l.next);
      ShapedTidy(Jump(l, blockId), l.next);
    }
  }

  lemma {:induction false} TestsQuiet(v: Value, keys: seq<Key>, l: Build, lo: int)
    requires keys != [] && Shaped(l, lo) && lo <= l.next
    ensures Quiet(l, LowerTests(v, keys, l).1, lo)
    decreases |keys|
  {
    hide Shaped, Emit;
    var k := keys[|keys| - 1];
    if |keys| == 1 {
      EmitQuiet(l, l.regs + 1, Compare(l.regs, v, k), lo);
    } else {
      TestsQuiet(v, keys[..|keys| - 1], l, lo);
      var (x, l1) := LowerTests(v, keys[..|keys| - 1], l);
      EmitQuiet(l1, l1.regs + 1, Compare(l1.regs, v, k), lo);
      var l2 := EmitInstr(l1.(regs := l1.regs + 1), Compare(l1.regs, v, k));
      EmitQuiet(l2, l2.regs + 1, Binary(l2.regs, OrBool, x, Reg(l1.regs)), lo);
    }
  }
}
