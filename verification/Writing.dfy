/** What writing to a body does to the opened body, to its shape and to its behaviour. */
module Writing {
  import opened Source
  import opened Structured
  import opened Opening
  import opened Lowering

  /** The opened code that a step from `l` to `m` appended. */
  function Delta(l: Build, m: Build): seq<Node> {
    if |Open(l.body)| <= |Open(m.body)| then Open(m.body)[|Open(l.body)|..] else []
  }

  /** Continuations on the top level of the code lie between the given IDs. */
  ghost predicate MarksWithin(code: seq<Node>, lo: int, hi: int) {
    forall i :: 0 <= i < |code| && code[i].Control? ==>
      code[i].stood < 0 && (IsPlaceholder(code[i]) ==> lo <= code[i].id < hi)
  }

  /** A step only appends to the opened body, and its continuations are new. */
  ghost predicate Grows(l: Build, m: Build) {
    && Open(l.body) <= Open(m.body)
    && l.next <= m.next && l.regs <= m.regs
    && MarksWithin(Delta(l, m), l.next, m.next)
  }

  lemma {:induction false} GrowsTrans(l: Build, m: Build, r: Build)
    requires Grows(l, m) && Grows(m, r)
    ensures Grows(l, r) && Delta(l, r) == Delta(l, m) + Delta(m, r)
  {
    var d := Delta(l, m) + Delta(m, r);
    assert Delta(l, r) == d;
    forall i | 0 <= i < |d| && d[i].Control?
      ensures d[i].stood < 0 && (IsPlaceholder(d[i]) ==> l.next <= d[i].id < r.next)
    {
      if i < |Delta(l, m)| { assert d[i] == Delta(l, m)[i]; } else { assert d[i] == Delta(m, r)[i - |Delta(l, m)|]; }
    }
  }

  lemma {:induction false} SeekOutside(code: seq<Node>, lo: int, hi: int, t: int)
    requires MarksWithin(code, lo, hi) && 0 <= t && !(lo <= t < hi)
    ensures Seek(code, t) == |code|
  {
    if Seek(code, t) < |code| { assert Continues(code[Seek(code, t)], t); }
  }

  /** Running two steps: the second one runs when the first falls through; a branch to something
      older, or any other ending, is the ending of both. */
  lemma {:induction false} RunThen(w: World, l: Build, m: Build, r: Build, st: State, fuel: nat)
    requires Grows(l, m) && Grows(m, r)
    ensures Grows(l, r)
    ensures var a := Run(w, Delta(l, m), st, fuel);
      (a.Fall? ==> Run(w, Delta(l, r), st, fuel) == Run(w, Delta(m, r), a.st, fuel)) &&
      (a.Branch? && 0 <= a.target < m.next ==> Run(w, Delta(l, r), st, fuel) == a) &&
      (a.Ret? || a.Panics? || a.Timeout? ==> Run(w, Delta(l, r), st, fuel) == a)
  {
    GrowsTrans(l, m, r);
    RunAppend(w, Delta(l, m), Delta(m, r), st, fuel);
    var a := Run(w, Delta(l, m), st, fuel);
    if a.Branch? && 0 <= a.target < m.next {
      SeekOutside(Delta(m, r), m.next, r.next, a.target);
    }
  }

  lemma {:induction false} OpenLast(b: seq<Node>)
    requires b != []
    ensures Open(b) == Open(b[..|b| - 1]) + OpenNode(b[|b| - 1])
  {
    assert b == b[..|b| - 1] + [b[|b| - 1]];
    OpenAppend(b[..|b| - 1], [b[|b| - 1]]);
    OpenOne(b[|b| - 1]);
  }

  lemma {:induction false} OpenOne(n: Node)
    ensures Open([n]) == OpenNode(n)
  {
    assert [n][1..] == [];
    assert Open([n]) == OpenNode(n) + Open([n][1..]);
  }

  lemma {:induction false} OpenPush(b: seq<Node>, n: Node)
    ensures Open(b + [n]) == Open(b) + OpenNode(n)
  {
    OpenAppend(b, [n]);
    OpenOne(n);
  }

  lemma {:induction false} OpenGrown(p: Node, n: Node)
    requires IsPlaceholder(p)
    ensures OpenNode(Grown(p, n)) == OpenNode(p) + OpenNode(n)
  {
    OpenPush(p.ctl.body, n);
  }

  lemma {:induction false} EmitOpen(l: Build, node: Node)
    requires !node.Control?
    ensures var m := Emit(l, node);
      Open(m.body) == Open(l.body) + [node] ||
      (m.next == l.next + 1 && Open(m.body) == Open(l.body) + [Mark(l.next), node])
  {
    var b := l.body;
    if b != [] && IsPlaceholder(b[|b| - 1]) {
      OpenLast(b);
      OpenPush(b[..|b| - 1], Grown(b[|b| - 1], node));
      OpenGrown(b[|b| - 1], node);
    } else {
      OpenPush(b, Control(l.next, -1, BlockNode(Placeholder, [node])));
      OpenOne(node);
    }
  }

  lemma {:induction false} EmitRun(w: World, l: Build, node: Node, st: State, fuel: nat)
    requires !node.Control?
    ensures Grows(l, Emit(l, node))
    ensures Run(w, Delta(l, Emit(l, node)), st, fuel) == RunNode(w, node, st, fuel)
  {
    hide Run, RunNode, Open;
    var m := Emit(l, node);
    EmitOpen(l, node);
    RunSingle(w, node, st, fuel);
    if Open(m.body) == Open(l.body) + [node] {
      assert Delta(l, m) == [node];
    } else {
      assert Delta(l, m) == [Mark(l.next)] + [node];
      RunAppend(w, [Mark(l.next)], [node], st, fuel);
      RunMark(w, l.next, st, fuel);
    }
  }

  lemma {:induction false} PlaceOpen(b: seq<Node>, id: nat, ctl: Ctl)
    requires Neat(b) && !IsPlaceholder(Control(id, -1, ctl))
    ensures Open(Place(b, id, ctl)) == Open(b) + [Control(id, -1, OpenCtl(ctl))]
  {
    var n := Control(id, -1, ctl);
    if b != [] && IsPlaceholder(b[|b| - 1]) {
      var p := b[|b| - 1];
      assert NeatNode(p);
      OpenLast(b);
      if p.ctl.body == [] {
        OpenPush(b[..|b| - 1], Control(id, p.id, ctl));
      } else {
        OpenPush(b[..|b| - 1], Grown(p, n));
        OpenGrown(p, n);
      }
    } else {
      OpenPush(b, n);
    }
  }

  /** The shape a body under construction keeps: tidy, and its placeholders are older than `next`
      and not among the targets its code may branch to. */
  ghost predicate Shaped(l: Build, lo: int) {
    && Tidy(l.body)
    && forall i :: 0 <= i < |l.body| && IsPlaceholder(l.body[i]) ==> lo <= l.body[i].id < l.next
  }

  lemma {:induction false} TargetsAppend(a: seq<Node>, b: seq<Node>)
    ensures Targets(a + b) == Targets(a) + Targets(b)
  {
    if a == [] {
      assert a + b == b;
    } else {
      assert (a + b)[1..] == a[1..] + b;
      TargetsAppend(a[1..], b);
    }
  }

  lemma {:induction false} TargetsOne(n: Node)
    ensures Targets([n]) == NodeTargets(n)
  {
    assert [n][1..] == [];
  }

  lemma {:induction false} TargetsPush(b: seq<Node>, n: Node)
    ensures Targets(b + [n]) == Targets(b) + NodeTargets(n)
  {
    TargetsAppend(b, [n]);
    TargetsOne(n);
  }

  lemma {:induction false} TargetsLast(b: seq<Node>)
    requires b != []
    ensures Targets(b) == Targets(b[..|b| - 1]) + NodeTargets(b[|b| - 1])
  {
    TargetsPush(b[..|b| - 1], b[|b| - 1]);
    assert b == b[..|b| - 1] + [b[|b| - 1]];
  }

  lemma {:induction false} GrownTidy(p: Node, n: Node)
    requires IsPlaceholder(p) && TidyNode(p) && TidyNode(n)
    requires n.Control? ==> n.stood < 0 && !IsPlaceholder(n)
    requires p.id !in NodeTargets(n)
    ensures TidyNode(Grown(p, n)) && NodeTargets(Grown(p, n)) == NodeTargets(p) + NodeTargets(n)
  {
    TargetsPush(p.ctl.body, n);
    assert Tidy(p.ctl.body + [n]);
    assert NoContinuation(p.ctl.body + [n]);
  }

  /** Putting a tidy node at the end of a body, in the place of the last one or behind it. */
  lemma {:induction false} PushShaped(l: Build, k: nat, n: Node, next: nat, lo: int)
    requires Shaped(l, lo) && l.next <= next && k <= |l.body|
    requires TidyNode(n) && (IsPlaceholder(n) ==> lo <= n.id < next)
    ensures Shaped(Build(l.body[..k] + [n], next, l.regs), lo)
    ensures Targets(l.body[..k] + [n]) == Targets(l.body[..k]) + NodeTargets(n)
  {
    TargetsPush(l.body[..k], n);
  }

  lemma {:induction false} EmitShaped(l: Build, node: Node, lo: int)
    requires !node.Control? && Shaped(l, lo) && lo <= l.next
    ensures Shaped(Emit(l, node), lo) && Targets(Emit(l, node).body) == Targets(l.body)
    ensures l.next <= Emit(l, node).next && l.regs == Emit(l, node).regs
  {
    hide Targets;
    var b := l.body;
    if b != [] && IsPlaceholder(b[|b| - 1]) {
      TargetsLast(b);
      GrownTidy(b[|b| - 1], node);
      PushShaped(l, |b| - 1, Grown(b[|b| - 1], node), l.next, lo);
    } else {
      var p := Control(l.next, -1, BlockNode(Placeholder, [node]));
      TargetsOne(node);
      assert TidyNode(node) && Tidy([node]);
      PushShaped(l, |b|, p, l.next + 1, lo);
      assert b[..|b|] == b;
    }
  }

  /** The shape does not depend on the registers. */
  lemma {:induction false} ShapedRegs(l: Build, regs: nat, lo: int)
    requires Shaped(l, lo)
    ensures Shaped(l.(regs := regs), lo)
  {
  }

  lemma {:induction false} PlaceShaped(l: Build, ctl: Ctl, next: nat, lo: int)
    requires Shaped(l, lo) && lo <= l.next < next
    requires !IsPlaceholder(Control(l.next, -1, ctl)) && TidyNode(Control(l.next, -1, ctl))
    requires forall t :: t in NodeTargets(Control(l.next, -1, ctl)) ==> t < lo || l.next <= t
    ensures Shaped(Build(Place(l.body, l.next, ctl), next, l.regs), lo)
    ensures Targets(Place(l.body, l.next, ctl)) == Targets(l.body) + NodeTargets(Control(l.next, -1, ctl))
  {
    hide CaseTargets;
    var b, n := l.body, Control(l.next, -1, ctl);
    if b != [] && IsPlaceholder(b[|b| - 1]) {
      var p := b[|b| - 1];
      TargetsLast(b);
      GrownTidy(p, n);
      if p.ctl.body == [] {
        var taker := Control(l.next, p.id, ctl);
        assert TidyNode(taker) && NodeTargets(p) == {};
        PushShaped(l, |b| - 1, taker, next, lo);
      } else {
        PushShaped(l, |b| - 1, Grown(p, n), next, lo);
      }
    } else {
      PushShaped(l, |b|, n, next, lo);
      assert b[..|b|] == b;
    }
  }

  function MemoryOf(st: State): Memory {
    Memory(st.vars, st.trace)
  }

  lemma {:induction false} NoStep(w: World, l: Build, st: State, fuel: nat)
    ensures Grows(l, l) && Run(w, Delta(l, l), st, fuel) == Fall(st)
  {
    assert Delta(l, l) == [];
  }

  lemma {:induction false} PlaceRun(w: World, l: Build, ctl: Ctl, m: Build, st: State, fuel: nat)
    requires Tidy(l.body) && !IsPlaceholder(Control(l.next, -1, ctl))
    requires TidyNode(Control(l.next, -1, ctl))
    requires m.body == Place(l.body, l.next, ctl) && l.next <= m.next && l.regs <= m.regs
    ensures Grows(l, m)
    ensures Run(w, Delta(l, m), st, fuel) == RunNode(w, Control(l.next, -1, ctl), st, fuel)
  {
    TidyNeat(l.body);
    PlaceOpen(l.body, l.next, ctl);
    assert Delta(l, m) == [Control(l.next, -1, OpenCtl(ctl))];
    RunSingle(w, Control(l.next, -1, OpenCtl(ctl)), st, fuel);
    OpenCtlRun(w, Control(l.next, -1, ctl), st, fuel);
  }

  /** The code of a body written from scratch is the body itself. */
  lemma {:induction false} FreshRun(w: World, l: Build, m: Build, st: State, fuel: nat)
    requires l.body == [] && Tidy(m.body)
    ensures Run(w, Delta(l, m), st, fuel) == Run(w, m.body, st, fuel)
  {
    assert Delta(l, m) == Open(m.body);
    OpenRun(w, m.body, st, fuel);
  }

  lemma {:induction false} FreshShaped(l: Build)
    requires l.body == []
    ensures Shaped(l, l.next)
  {
  }

  lemma {:induction false} ShapedTidy(l: Build, lo: int)
    requires Shaped(l, lo)
    ensures Tidy(l.body)
  {
  }

  lemma {:induction false} OneTidy(n: Node)
    requires TidyNode(n)
    ensures Tidy([n])
  {
  }

  /** After a placed node comes its continuation: what falls through or branches there goes on. */
  lemma {:induction false} PlacedRun(w: World, l: Build, ctl: Ctl, contId: nat, m: Build, st: State, fuel: nat)
    requires Tidy(l.body) && !IsPlaceholder(Control(l.next, -1, ctl)) && TidyNode(Control(l.next, -1, ctl))
    requires l.next < contId < m.next && l.regs <= m.regs
    requires m.body == Place(l.body, l.next, ctl) + [Continuation(contId)]
    ensures Grows(l, m)
    ensures var r := RunNode(w, Control(l.next, -1, ctl), st, fuel);
      Run(w, Delta(l, m), st, fuel) == if r.Branch? && r.target == contId then Fall(r.st) else r
  {
    var b := Place(l.body, l.next, ctl);
    var m1 := Build(b, contId, m.regs);
    PlaceRun(w, l, ctl, m1, st, fuel);
    OpenPush(b, Continuation(contId));
    assert Delta(m1, m) == [Mark(contId)];
    GrowsTrans(l, m1, m);
    RunAppend(w, Delta(l, m1), [Mark(contId)], st, fuel);
    var r := Run(w, Delta(l, m1), st, fuel);
    RunMark(w, contId, r.st, fuel);
    if r.Branch? && r.target == contId {
      assert [Mark(contId)][0..] == [Mark(contId)];
    }
  }

  lemma {:induction false} JumpRun(w: World, l: Build, lo: int, target: int, st: State, fuel: nat)
    requires Shaped(l, lo)
    ensures var m := Jump(l, target);
      Grows(l, m) && Run(w, Delta(l, m), st, fuel) == Branch(target, st)
  {
    PlaceRun(w, l, BrNode(target), Jump(l, target), st, fuel);
  }

  lemma {:induction false} EmitInstrRun(w: World, l: Build, r: nat, i: Instr, st: State, fuel: nat)
    requires l.regs <= r
    ensures var m := EmitInstr(l.(regs := r), i);
      Grows(l, m) && m.regs == r && Run(w, Delta(l, m), st, fuel) == Fall(Step(w, i, st))
  {
    EmitRun(w, l.(regs := r), Instruction(i), st, fuel);
    assert Delta(l, EmitInstr(l.(regs := r), i)) == Delta(l.(regs := r), EmitInstr(l.(regs := r), i));
  }
}
