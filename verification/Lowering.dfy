/** Lowering of statements and expressions to the structured tree, as functions on the body that is
    being written. `Build` below is the part of the lowerer's state that matters: the body on top
    of the body stack, the length of the control table and the number of registers. */
module Lowering {
  import opened Source
  import opened Structured
  import SwitchTable
  import StringSwitch

  datatype Build = Build(body: seq<Node>, next: nat, regs: nat)

  /** Where `break` and `continue` of the innermost loop branch to. */
  datatype LoopContext = LoopContext(breakTarget: int, continueTarget: int)

  // ----- writing to a body -----

  /** Sends an instruction or a return: into the open placeholder, or into a fresh one. */
  function Emit(l: Build, node: Node): Build {
    var b := l.body;
    if b != [] && IsPlaceholder(b[|b| - 1]) then
      l.(body := b[..|b| - 1] + [Grown(b[|b| - 1], node)])
    else
      l.(body := b + [Control(l.next, -1, BlockNode(Placeholder, [node]))], next := l.next + 1)
  }

  function Grown(p: Node, node: Node): Node
    requires IsPlaceholder(p)
  {
    Control(p.id, p.stood, BlockNode(Placeholder, p.ctl.body + [node]))
  }

  /** Sends a control node: an empty placeholder gives up its place, a filled one takes the node in. */
  function Place(b: seq<Node>, id: nat, ctl: Ctl): seq<Node> {
    if b != [] && IsPlaceholder(b[|b| - 1]) then
      var p := b[|b| - 1];
      b[..|b| - 1] + [if p.ctl.body == [] then Control(id, p.id, ctl) else Grown(p, Control(id, -1, ctl))]
    else
      b + [Control(id, -1, ctl)]
  }

  function Continuation(id: nat): Node {
    Control(id, -1, BlockNode(Placeholder, []))
  }

  // ----- expressions -----

  function EmitInstr(l: Build, i: Instr): Build {
    Emit(l, Instruction(i))
  }

  function LowerExpr(e: Expr, l: Build): (Value, Build)
    decreases e, 1
  {
    match e
    case Lit(n) => (Const(n), l)
    case Var(x) => LoadInto(l, Named(x))
    case Bin(op, a, b) =>
      var (va, l1) := LowerExpr(a, l);
      var (vb, l2) := LowerExpr(b, l1);
      (Reg(l2.regs), EmitInstr(l2.(regs := l2.regs + 1), Binary(l2.regs, op, va, vb)))
    case Call(f, a) =>
      var (va, l1) := LowerExpr(a, l);
      (Reg(l1.regs), EmitInstr(l1.(regs := l1.regs + 1), CallStatic(l1.regs, f, va)))
    case And(_, _) => LowerShortCircuit(e, l)
    case Or(_, _) => LowerShortCircuit(e, l)
  }

  /** The result lives in a slot that holds the answer of the short way (false for `&&`, true for
      `||`) until the right operand, lowered in one branch of an `if` on the left one, replaces it. */
  function LowerShortCircuit(e: Expr, l: Build): (Value, Build)
    requires e.And? || e.Or?
    decreases e, 0, 1
  {
    var l0 := OpenSlot(l, if e.And? then 0 else 1);
    var (va, l1) := LowerExpr(e.left, l0);
    var (ctl, r) := LowerRight(e, l.regs, va, l1);
    LoadInto(Build(Place(l1.body, l1.next, ctl), r.next, r.regs), Temp(l.regs))
  }

  /** The `if` that evaluates the right operand into the slot, with the state after writing it. */
  function LowerRight(e: Expr, slot: nat, va: Value, l1: Build): (Ctl, Build)
    requires e.And? || e.Or?
    decreases e, 0, 0
  {
    var (vb, r) := LowerExpr(e.right, Build([], l1.next + 1, l1.regs));
    var m := EmitInstr(r, StoreTo(vb, Temp(slot)));
    (if e.And? then IfNode(va, m.body, []) else IfNode(va, [], m.body), m)
  }

  function OpenSlot(l: Build, n: int): Build {
    EmitInstr(EmitInstr(l.(regs := l.regs + 1), Alloca(l.regs)), StoreTo(Const(n), Temp(l.regs)))
  }

  function LoadInto(l: Build, from: Slot): (Value, Build) {
    (Reg(l.regs), EmitInstr(l.(regs := l.regs + 1), Load(l.regs, from)))
  }

  // ----- statements -----

  function LowerSimple(areas: seq<nat>, c: Simple, l: Build): Build {
    match c
    case Nothing => l
    case Assign(x, e) => var (v, l1) := LowerExpr(e, l); EmitInstr(l1, StoreTo(v, Named(x)))
    case New(x, e) =>
      var (v, l1) := LowerExpr(e, l);
      EmitInstr(EmitInstr(l1.(regs := l1.regs + 1), Allocate(areas, l1.regs)), StoreTo(v, Named(x)))
    case Do(e) => LowerExpr(e, l).1
  }

  /** Storage comes from the innermost area, or from the heap outside of all areas. */
  function Allocate(areas: seq<nat>, dst: nat): Instr {
    if areas == [] then HeapAlloc(dst) else AreaAlloc(dst, areas[|areas| - 1])
  }

  /** `areas` are the registers of the areas around the statement, innermost last, `ctx` is the top of
      the loop stack; a `break` or `continue` without a loop writes nothing. */
  function LowerStmt(areas: seq<nat>, c: Stmt, l: Build, ctx: Option<LoopContext>): Build
    decreases c, 1
  {
    match c
    case Plain(p) => LowerSimple(areas, p, l)
    case Seq(a, b) => LowerStmt(areas, b, LowerStmt(areas, a, l, ctx), ctx)
    case If(init, cond, thn, els) =>
      var (v, l1) := LowerExpr(cond, LowerSimple(areas, init, l));
      var id := l1.next;
      var t := LowerStmt(areas, thn, Build([], id + 2, l1.regs), ctx);
      var e := LowerStmt(areas, els, Build([], t.next, t.regs), ctx);
      Build(Place(l1.body, id, IfNode(v, t.body, e.body)) + [Continuation(id + 1)], e.next, e.regs)
    case For(init, test, post, body) => LowerFor(areas, c, l)
    case Switch(_, _, _) => LowerSwitch(areas, c, l)
    case Break => if ctx.Some? then Jump(l, ctx.value.breakTarget) else l
    case Continue => if ctx.Some? then Jump(l, ctx.value.continueTarget) else l
    case Return(e) => var (v, l1) := LowerExpr(e, l); Emit(EmitEnds(areas, l1), ReturnNode(v))
    case Panic(e) => var (v, l1) := LowerExpr(e, l); Emit(EmitEnds(areas, EmitInstr(l1, SetPanic(v))), PanicNode(v))
    case Area(size, body) =>
      var (a, l1) := LowerAreaBegin(areas, size, l);
      EmitInstr(LowerStmt(areas + [a], body, l1, ctx), AreaEnd(a))
  }

  /** Ends all areas, innermost first. */
  function EmitEnds(areas: seq<nat>, l: Build): Build {
    if areas == [] then l else EmitEnds(areas[..|areas| - 1], EmitInstr(l, AreaEnd(areas[|areas| - 1])))
  }

  /** Opens an area and gives its register. */
  function LowerAreaBegin(areas: seq<nat>, size: Option<Expr>, l: Build): (nat, Build) {
    var (bytes, l1) := LowerAreaSize(size, l);
    var parent := if areas == [] then None else Some(areas[|areas| - 1]);
    (l1.regs, EmitInstr(l1.(regs := l1.regs + 1), AreaBegin(l1.regs, bytes, parent)))
  }

  /** The size in KiB, times 1024. */
  function LowerAreaSize(size: Option<Expr>, l: Build): (Option<Value>, Build) {
    if size.None? then (None, l) else
    var (v, l1) := LowerExpr(size.value, l);
    (Some(Reg(l1.regs)), EmitInstr(l1.(regs := l1.regs + 1), Binary(l1.regs, Mul, v, Const(1024))))
  }

  function Jump(l: Build, target: int): Build {
    Build(Place(l.body, l.next, BrNode(target)), l.next + 1, l.regs)
  }

  /** A loop becomes block{loop{...}} followed by its continuation. The IDs are given out in the
      order block, loop, continuation, contents. */
  function LowerFor(areas: seq<nat>, c: Stmt, l: Build): Build
    requires c.For?
    decreases c, 0, 1
  {
    var (loop, m) := LowerLoopNode(areas, c, l);
    Build(Place(l.body, l.next, BlockNode(Ordinary, [loop])) + [Continuation(l.next + 2)], m.next, m.regs)
  }

  /** The loop node, with the state after writing its Init, Body and Post. */
  function LowerLoopNode(areas: seq<nat>, c: Stmt, l: Build): (Node, Build)
    requires c.For?
    decreases c, 0, 0
  {
    var blockId, loopId, contId := l.next, l.next + 1, l.next + 2;
    var i := LowerSimple(areas, c.init, Build([], l.next + 3, l.regs));
    var b := LowerLoopBody(areas, c, blockId, Some(LoopContext(contId, loopId)), Build([], i.next, i.regs));
    var p := Jump(LowerSimple(areas, c.post, Build([], b.next, b.regs)), loopId);
    (Control(loopId, -1, LoopNode(i.body, b.body, p.body)), p)
  }

  /** The loop's Body: the test, then an `if` that holds the source body and leaves the block when
      the test fails; without a test just the source body. */
  function LowerLoopBody(areas: seq<nat>, c: Stmt, blockId: nat, ctx: Option<LoopContext>, l: Build): Build
    requires c.For?
    decreases c.body, 2
  {
    if c.test.None? then LowerStmt(areas, c.body, l, ctx) else
    var (v, l1) := LowerExpr(c.test.value, l);
    var t := LowerStmt(areas, c.body, Build([], l1.next + 2, l1.regs), ctx);
    var exit := [Control(l1.next + 1, -1, BrNode(blockId))];
    Build(Place(l1.body, l1.next, IfNode(v, t.body, exit)), t.next, t.regs)
  }

  // ----- integer switches with a bucket table -----

  /** block{dispatch index, table} followed by its continuation. The slot of a bucket in the table
      leads to the chain of its keys. `continue` inside the switch has the target 0, which the
      switch context leaves unset. */
  function LowerSwitch(areas: seq<nat>, c: Stmt, l: Build): Build
    requires c.Switch?
    decreases c, 0, 3
  {
    var (v, l1) := LowerExpr(c.value, l);
    var (body, m) := LowerSwitchBlock(areas, c, v, l1.next, Build([], l1.next + 2, l1.regs));
    Build(Place(l1.body, l1.next, BlockNode(Ordinary, body)) + [Continuation(l1.next + 1)], m.next, m.regs)
  }

  /** The contents of the block with ID `blockId`, whose continuation is the next ID. */
  function LowerSwitchBlock(areas: seq<nat>, c: Stmt, v: Value, blockId: nat, l: Build): (seq<Node>, Build)
    requires c.Switch?
    decreases c, 0, 2
  {
    var (order, targets) := Buckets(c);
    var (x, l1) := LowerDispatch(c.text, v, |targets|, l);
    var ctx := Some(LoopContext(blockId + 1, 0));
    var (cases, l2) := LowerBuckets(areas, c, v, order, blockId, ctx, Build([], l1.next + 1, l1.regs));
    var d := LowerDefault(areas, c, blockId, ctx, Build([], l2.next, l2.regs));
    (Place(l1.body, l1.next, TableNode(x, targets, cases, d.body)), d)
  }

  /** The size of the table: from the number of keys. */
  function Size(c: Stmt): (r: nat)
    requires c.Switch?
    ensures r > 0
  {
    SwitchTable.TableSize(|SwitchTable.Flatten(Keys(c.clauses))|)
  }

  /** The bucket a key is filed under. */
  function KeyBucket(size: nat, k: Key): nat
    requires size > 0
  {
    match k
    case IntKey(n) => SwitchTable.IntBucket(size, n)
    case TextKey(t) => StringSwitch.Hash(t, false) % size
  }

  function BucketOf(c: Stmt): Key -> nat
    requires c.Switch?
  {
    var size := Size(c);
    k => KeyBucket(size, k)
  }

  /** The buckets in order of appearance, and the table slot of every bucket. */
  function Buckets(c: Stmt): (seq<nat>, seq<int>)
    requires c.Switch?
  {
    var order := SwitchTable.BucketOrder(SwitchTable.Flatten(Keys(c.clauses)), BucketOf(c));
    (order, seq(Size(c), b requires 0 <= b < Size(c) => SwitchTable.Target(order, b)))
  }

  /** The dispatch index: a string is hashed first; then cast to unsigned and reduced. */
  function LowerDispatch(text: bool, v: Value, size: nat, l: Build): (Value, Build) {
    var (h, l0) := if text then (Reg(l.regs), EmitInstr(l.(regs := l.regs + 1), HashText(l.regs, v))) else (v, l);
    var l1 := EmitInstr(l0.(regs := l0.regs + 1), CastUnsigned(l0.regs, h));
    (Reg(l1.regs), EmitInstr(l1.(regs := l1.regs + 1), RemUnsigned(l1.regs, Reg(l0.regs), size)))
  }

  function LowerBuckets(areas: seq<nat>, c: Stmt, v: Value, order: seq<nat>, blockId: nat, ctx: Option<LoopContext>,
                        l: Build): (r: (seq<TableCase>, Build))
    requires c.Switch?
    ensures |r.0| == |order|
    decreases c, 0, 1, |order|
  {
    if order == [] then ([], l) else
    var chain := LowerChain(areas, c, v, order[0], 0, blockId, ctx, l);
    var (cases, m) := LowerBuckets(areas, c, v, order[1..], blockId, ctx, Build([], chain.next, chain.regs));
    ([TableCase(chain.body)] + cases, m)
  }

  /** The clauses from `i` on that have keys in bucket `b`: an `if` each, the next one in its Else,
      and what happens without a match at the end. */
  function LowerChain(areas: seq<nat>, c: Stmt, v: Value, b: nat, i: nat, blockId: nat, ctx: Option<LoopContext>,
                      l: Build): Build
    requires c.Switch? && i <= |c.clauses|
    decreases c, 0, 0, |c.clauses| - i + 1
  {
    if i == |c.clauses| then LowerDefault(areas, c, blockId, ctx, l) else
    var keys := BucketKeys(c, b, i);
    if keys == [] then LowerChain(areas, c, v, b, i + 1, blockId, ctx, l) else
    var (x, l1) := LowerTests(v, keys, l);
    var t := Jump(LowerStmt(areas, c.clauses[i].body, Build([], l1.next + 1, l1.regs), ctx), blockId);
    var e := LowerChain(areas, c, v, b, i + 1, blockId, ctx, Build([], t.next, t.regs));
    Build(Place(l1.body, l1.next, IfNode(x, t.body, e.body)), e.next, e.regs)
  }

  function BucketKeys(c: Stmt, b: nat, i: nat): seq<Key>
    requires c.Switch? && i < |c.clauses|
  {
    SwitchTable.InBucket(c.clauses[i].keys, BucketOf(c), b)
  }

  function Compare(dst: nat, v: Value, k: Key): Instr {
    match k
    case IntKey(n) => Binary(dst, Eq, v, Const(n))
    case TextKey(t) => EqualText(dst, v, t)
  }

  /** The keys compared with the switch value one by one, and the answers or-ed together. */
  function LowerTests(v: Value, keys: seq<Key>, l: Build): (Value, Build)
    requires keys != []
  {
    var k := keys[|keys| - 1];
    if |keys| == 1 then
      (Reg(l.regs), EmitInstr(l.(regs := l.regs + 1), Compare(l.regs, v, k)))
    else
      var (x, l1) := LowerTests(v, keys[..|keys| - 1], l);
      var l2 := EmitInstr(l1.(regs := l1.regs + 1), Compare(l1.regs, v, k));
      (Reg(l2.regs), EmitInstr(l2.(regs := l2.regs + 1), Binary(l2.regs, OrBool, x, Reg(l1.regs))))
  }

  /** The default clause, written again wherever no key matches; without one, a branch out. */
  function LowerDefault(areas: seq<nat>, c: Stmt, blockId: nat, ctx: Option<LoopContext>, l: Build): Build
    requires c.Switch?
    decreases c, 0, 0, 0
  {
    var d := SwitchTable.DefaultClause(Keys(c.clauses));
    if d < |c.clauses| then LowerStmt(areas, c.clauses[d].body, l, ctx) else Jump(l, blockId)
  }

  // ----- functions -----

  /** Whether the legacy basic block that lowering is in ends up with a terminator: set by return and
      by jumps, cleared by every construct that starts a new block. */
  function Ended(c: Stmt, t: bool, inLoop: bool): bool {
    match c
    case Plain(p) => SimpleEnded(p, t)
    case Seq(a, b) => Ended(b, Ended(a, t, inLoop), inLoop)
    case If(_, _, _, _) => false
    case For(_, _, _, _) => false
    case Switch(_, _, _) => false
    case Break => t || inLoop
    case Continue => t || inLoop
    case Return(_) => true
    case Panic(_) => true
    case Area(size, body) => Ended(body, t && (size.None? || !HasShortCircuit(size.value)), inLoop)
  }

  function SimpleEnded(p: Simple, t: bool): bool {
    t && (p.Nothing? || !HasShortCircuit(p.e))
  }

  predicate HasShortCircuit(e: Expr) {
    match e
    case Bin(_, l, r) => HasShortCircuit(l) || HasShortCircuit(r)
    case Call(_, a) => HasShortCircuit(a)
    case And(_, _) => true
    case Or(_, _) => true
    case _ => false
  }

  const ROOT_ID: nat := 0
  const EXIT_ID: nat := 1

  function ExitNode(): Node {
    Control(EXIT_ID, -1, BlockNode(FunctionExit, []))
  }

  /** A function: the root block holds the code and, as its last node, the function exit. A default
      return is written unless the current block already ended. */
  function LowerFunction(c: Stmt, regs: nat): (r: Node)
    ensures r.Control? && r.id == ROOT_ID && r.ctl.BlockNode? && r.ctl.kind == Ordinary
  {
    var l := LowerStmt([], c, Build([], 2, regs), None);
    var m := if Ended(c, false, false) then l else Emit(l, ReturnNode(Const(0)));
    Control(ROOT_ID, -1, BlockNode(Ordinary, m.body + [ExitNode()]))
  }
}
