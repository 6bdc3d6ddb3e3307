/** The structured control tree of the HIR and what running it means.

    A body is a sequence of nodes. A branch carries the ID of its target:
    a branch to an enclosing block, `if` or table leaves it; a branch to an enclosing loop runs the
    loop's Post when it comes from Body and re-tests the condition when it comes from Post; a branch
    to a continuation that stands later in a body on the way out resumes there. */
module Structured {
  import opened Source
  import StringSwitch

  /** Where an instruction reads or writes: a source variable or a slot made by `alloca`. */
  datatype Slot = Named(name: string) | Temp(reg: nat)

  datatype Value = Const(n: int) | Reg(r: nat)

  datatype Instr =
    | Alloca(slot: nat)
    | Load(dst: nat, from: Slot)
    | StoreTo(val: Value, to: Slot)
    | Binary(dst: nat, op: Op, l: Value, r: Value)
    | CallStatic(dst: nat, callee: string, arg: Value)
    | CastUnsigned(dst: nat, val: Value)
    | RemUnsigned(dst: nat, val: Value, size: nat)
    | HashText(dst: nat, val: Value)
    | EqualText(dst: nat, val: Value, key: StringSwitch.Text)
    | AreaBegin(dst: nat, bytes: Option<Value>, parent: Option<nat>)
    | AreaEnd(area: nat)
    | HeapAlloc(dst: nat)
    | AreaAlloc(dst: nat, area: nat)
    | SetPanic(val: Value)

  datatype BlockKind = Ordinary | Placeholder | FunctionExit

  /** `stood` is the ID of the placeholder whose place the node took, the one whose ReplacedByID
      names this node; -1 when it replaced none. */
  datatype Node =
    | Instruction(i: Instr)
    | ReturnNode(v: Value)
    | PanicNode(v: Value)
    | Control(id: nat, stood: int, ctl: Ctl)

  datatype Ctl =
    | BlockNode(kind: BlockKind, body: seq<Node>)
    | LoopNode(init: seq<Node>, body: seq<Node>, post: seq<Node>)
    | IfNode(cond: Value, thn: seq<Node>, els: seq<Node>)
    | TableNode(index: Value, targets: seq<int>, cases: seq<TableCase>, default: seq<Node>)
    | BrNode(target: int)

  datatype TableCase = TableCase(body: seq<Node>)

  datatype State = State(regs: map<nat, int>, vars: map<string, int>, temps: map<nat, int>, trace: seq<Event>)

  datatype Result =
    | Fall(st: State)
    | Branch(target: int, st: State)
    | Ret(value: int, st: State)
    | Panics(value: int, st: State)
    | Timeout(st: State)

  function ValueOf(v: Value, st: State): int {
    match v
    case Const(n) => n
    case Reg(r) => Lookup(st.regs, r)
  }

  function Read(slot: Slot, st: State): int {
    match slot
    case Named(x) => Lookup(st.vars, x)
    case Temp(t) => Lookup(st.temps, t)
  }

  function Write(slot: Slot, n: int, st: State): State {
    match slot
    case Named(x) => st.(vars := st.vars[x := n])
    case Temp(t) => st.(temps := st.temps[t := n])
  }

  function Step(w: World, i: Instr, st: State): State {
    match i
    case Alloca(t) => st.(temps := st.temps[t := 0])
    case Load(d, from) => st.(regs := st.regs[d := Read(from, st)])
    case StoreTo(v, to) => Write(to, ValueOf(v, st), st)
    case Binary(d, op, l, r) => st.(regs := st.regs[d := Apply(op, ValueOf(l, st), ValueOf(r, st))])
    case CallStatic(d, f, arg) =>
      var a := ValueOf(arg, st);
      st.(regs := st.regs[d := w.call(f, a, st.trace)], trace := st.trace + [Event(f, a)])
    case CastUnsigned(d, v) => st.(regs := st.regs[d := ValueOf(v, st) % TWO64])
    case RemUnsigned(d, v, m) => st.(regs := st.regs[d := if m == 0 then 0 else ValueOf(v, st) % m])
    case HashText(d, v) =>
      var h := StringSwitch.Hash(w.text(ValueOf(v, st)), false);
      st.(regs := st.regs[d := StringSwitch.Signed(h, false)])
    case EqualText(d, v, key) => st.(regs := st.regs[d := if w.text(ValueOf(v, st)) == key then 1 else 0])
    case AreaBegin(d, bytes, parent) =>
      var n := if bytes.Some? then Some(ValueOf(bytes.value, st)) else None;
      var p := if parent.Some? then Some(Lookup(st.regs, parent.value)) else None;
      st.(regs := st.regs[d := |st.trace|], trace := st.trace + [AreaBegun(|st.trace|, n, p)])
    case AreaEnd(a) => st.(trace := st.trace + [AreaEnded(Lookup(st.regs, a))])
    case HeapAlloc(d) => st.(regs := st.regs[d := |st.trace|], trace := st.trace + [Allocated(None)])
    case AreaAlloc(d, a) =>
      st.(regs := st.regs[d := |st.trace|], trace := st.trace + [Allocated(Some(Lookup(st.regs, a)))])
    case SetPanic(v) => st.(trace := st.trace + [PanicSet(ValueOf(v, st))])
  }

  predicate IsPlaceholder(n: Node) {
    n.Control? && n.ctl.BlockNode? && n.ctl.kind == Placeholder
  }

  /** Whether a branch to the continuation `t` resumes at `n`: it is the placeholder itself or the
      node that replaced it. */
  predicate Continues(n: Node, t: int) {
    n.Control? && ((IsPlaceholder(n) && n.id == t) || (n.stood >= 0 && n.stood == t))
  }

  /** The first position where the continuation `t` stands, or the length. */
  function Seek(body: seq<Node>, t: int): (k: nat)
    ensures k <= |body|
    ensures forall j :: 0 <= j < k ==> !Continues(body[j], t)
    ensures k < |body| ==> Continues(body[k], t)
  {
    if body == [] || Continues(body[0], t) then 0 else 1 + Seek(body[1..], t)
  }

  /** Runs a body. */
  function Run(w: World, body: seq<Node>, st: State, fuel: nat): Result
    decreases fuel, body, 0
  {
    if body == [] then Fall(st) else
    match RunNode(w, body[0], st, fuel)
    case Fall(s1) => Run(w, body[1..], s1, fuel)
    case Branch(t, s1) =>
      var k := Seek(body[1..], t);
      if k < |body| - 1 then Run(w, body[1 + k..], s1, fuel) else Branch(t, s1)
    case Ret(v, s1) => Ret(v, s1)
    case Panics(v, s1) => Panics(v, s1)
    case Timeout(s1) => Timeout(s1)
  }

  /** A branch that names the node just left ends there. */
  function Leave(r: Result, id: nat): Result {
    if r.Branch? && r.target == id then Fall(r.st) else r
  }

  function RunNode(w: World, n: Node, st: State, fuel: nat): Result
    decreases fuel, n, 2
  {
    match n
    case Instruction(i) => Fall(Step(w, i, st))
    case ReturnNode(v) => Ret(ValueOf(v, st), st)
    case PanicNode(v) => Panics(ValueOf(v, st), st)
    case Control(id, _, ctl) =>
      match ctl
      case BlockNode(_, body) => Leave(Run(w, body, st, fuel), id)
      case IfNode(c, thn, els) =>
        Leave(if Truth(ValueOf(c, st)) then Run(w, thn, st, fuel) else Run(w, els, st, fuel), id)
      case TableNode(x, targets, cases, default) =>
        var i := ValueOf(x, st);
        Leave(if 0 <= i < |targets| && 0 <= targets[i] < |cases|
              then Run(w, cases[targets[i]].body, st, fuel) else Run(w, default, st, fuel), id)
      case BrNode(t) => Branch(t, st)
      case LoopNode(init, body, post) =>
        var r := Run(w, init, st, fuel);
        if r.Fall? then RunLoop(w, id, body, post, r.st, fuel) else r
  }

  /** The iterations of a loop; each one costs a unit of fuel. */
  function RunLoop(w: World, id: nat, body: seq<Node>, post: seq<Node>, st: State, fuel: nat): Result
    decreases fuel, body, 1
  {
    if fuel == 0 then Timeout(st) else
    match Leave(Run(w, body, st, fuel), id)
    case Fall(s1) =>
      (match Leave(Run(w, post, s1, fuel - 1), id)
       case Fall(s2) => RunLoop(w, id, body, post, s2, fuel - 1)
       case Branch(t, s2) => Branch(t, s2)
       case Ret(v, s2) => Ret(v, s2)
       case Panics(v, s2) => Panics(v, s2)
       case Timeout(s2) => Timeout(s2))
    case Branch(t, s1) => Branch(t, s1)
    case Ret(v, s1) => Ret(v, s1)
    case Panics(v, s1) => Panics(v, s1)
    case Timeout(s1) => Timeout(s1)
  }
}
