/** Programs on which the emitted code does not do what the source does. Both kinds are excluded by
    `WellScoped`, which looks at the program text only. */
module Departures {
  import opened Source
  import opened Structured
  import opened Opening
  import opened Lowering
  import opened Writing
  import opened StatementShape
  import opened Dispatch
  import Statements
  import Fuel
  import Areas
  import SwitchTable

  /** `for { body }` as a function body: the code of its loop's Body, and where it branches to. */
  function LoopOf(body: Stmt): Stmt {
    For(Nothing, None, Nothing, body)
  }

  const LOOP_CONTEXT := LoopContext(4, 3)

  function LoopBody(body: Stmt, regs: nat): Build {
    LowerStmt([], body, Build([], 5, regs), Some(LOOP_CONTEXT))
  }

  /** The first round of the loop branches to something that is not the loop. */
  lemma {:induction false} LoopLeft(w: World, body: Stmt, regs: nat, st: State, fuel: nat)
    requires fuel > 0
    requires var r := Run(w, LoopBody(body, regs).body, st, fuel); r.Branch? && r.target != 3
    ensures var l := Build([], 2, regs);
      var r := Run(w, LoopBody(body, regs).body, st, fuel);
      Grows(l, LowerFor([], LoopOf(body), l)) &&
      Run(w, Delta(l, LowerFor([], LoopOf(body), l)), st, fuel) == if r.target == 2 || r.target == 4 then Fall(r.st)
        else r
  {
    hide Grows, Delta, Shaped, Place, LowerStmt, Run, RunLoop;
    var l, c := Build([], 2, regs), LoopOf(body);
    var m := LowerFor([], c, l);
    var (loop, p) := LowerLoopNode([], c, l);
    LoopNodeSound([], c, l);
    TargetsOne(loop);
    OneTidy(loop);
    PlacedRun(w, l, BlockNode(Ordinary, [loop]), 4, m, st, fuel);
    RunSingle(w, loop, st, fuel);
    LoopBodyIs(body, regs);
    RunNone(w, st, fuel);
    LoopNodeLeft(w, loop.ctl.body, loop.ctl.post, st, fuel);
  }

  lemma {:induction false} LoopBodyIs(body: Stmt, regs: nat)
    ensures var loop := LowerLoopNode([], LoopOf(body), Build([], 2, regs)).0;
      loop == Control(3, -1, LoopNode([], LoopBody(body, regs).body, loop.ctl.post))
  {
    hide LowerStmt;
  }

  lemma {:induction false} LoopNodeLeft(w: World, body: seq<Node>, post: seq<Node>, st: State, fuel: nat)
    requires fuel > 0
    requires var r := Run(w, body, st, fuel); r.Branch? && r.target != 3
    ensures RunNode(w, Control(3, -1, LoopNode([], body, post)), st, fuel) == Run(w, body, st, fuel)
  {
    hide Run;
    RunNone(w, st, fuel);
  }

  /** So does the function: a branch to the loop's block or continuation reaches the default return, and
      one to ID 0 falls out of the root block. */
  lemma {:induction false} FunctionLeft(w: World, body: Stmt, regs: nat, st: State, fuel: nat)
    requires fuel > 0
    requires var r := Run(w, LoopBody(body, regs).body, st, fuel); r.Branch? && r.target in {0, 2, 4}
    ensures var r := Run(w, LoopBody(body, regs).body, st, fuel);
      RunNode(w, LowerFunction(LoopOf(body), regs), st, fuel) == if r.target == 0 then Fall(r.st) else Ret(0, r.st)
  {
    hide Grows, Delta, Shaped, Run, LowerStmt, Emit, LowerFor;
    var l0, c := Build([], 2, regs), LoopOf(body);
    var l := LowerFor([], c, l0);
    assert LowerStmt([], c, l0, None) == l by { ForIs(c, l0); }
    var m := Emit(l, ReturnNode(Const(0)));
    FreshShaped(l0);
    StmtSound([], c, l0, None, 2);
    LoopLeft(w, body, regs, st, fuel);
    var r := Run(w, Delta(l0, l), st, fuel);
    EmitRun(w, l, ReturnNode(Const(0)), r.st, fuel);
    RunThen(w, l0, l, m, st, fuel);
    EmitShaped(l, ReturnNode(Const(0)), 2);
    ShapedTidy(m, 2);
    FreshRun(w, l0, m, st, fuel);
    RunAppend(w, m.body, [ExitNode()], st, fuel);
    RunExit(w, r.st, fuel);
    assert LowerFunction(c, regs) == Control(ROOT_ID, -1, BlockNode(Ordinary, m.body + [ExitNode()]));
  }

  lemma {:induction false} ForIs(c: Stmt, l: Build)
    requires c.For?
    ensures LowerStmt([], c, l, None) == LowerFor([], c, l)
  {
  }

  lemma {:induction false} RunExit(w: World, st: State, fuel: nat)
    ensures Run(w, [ExitNode()], st, fuel) == Fall(st) && Seek([ExitNode()], 0) == 1
  {
    RunSingle(w, ExitNode(), st, fuel);
    RunNone(w, st, fuel);
    assert [ExitNode()][1..] == [];
  }

  // ----- `continue` leaves a switch -----

  /** A loop around a switch that the code continues from in the first round is left, and with it the
      function, without a return. */
  lemma {:induction false} ContinueFallsOut(w: World, c: Stmt, regs: nat, st: State, fuel: nat)
    requires fuel > 0 && Switchable(c) && Statements.ClausesScoped(c.clauses, true)
    requires Statements.ExecDispatched(w, [], c, MemoryOf(st), fuel).Continued?
    ensures var r := RunNode(w, LowerFunction(LoopOf(c), regs), st, fuel);
      r.Fall? && MemoryOf(r.st) == Statements.ExecDispatched(w, [], c, MemoryOf(st), fuel).s
  {
    hide Grows, Delta, Shaped, Run, LowerStmt, LowerFunction, Statements.ExecDispatched, GetsTable;
    var l := Build([], 5, regs);
    FreshShaped(l);
    Statements.SwitchExact(w, [], c, l, 5, Some(LOOP_CONTEXT), true, st, fuel);
    assert Statements.Handles([], st) == [];
    BodySound([], c, l, Some(LOOP_CONTEXT));
    FreshRun(w, l, LoopBody(c, regs), st, fuel);
    FunctionLeft(w, c, regs, st, fuel);
  }

  /** `for { switch 1 { case 1: continue } }` */
  const ENDLESS := LoopOf(CONTINUES)

  const CONTINUES := Switch(false, Lit(1), [Clause([IntKey(1)], Continue)])

  lemma {:induction false} ContinuesAlways(w: World, s: Memory, fuel: nat)
    ensures Switchable(CONTINUES) && NoNegativeKey(CONTINUES.clauses) &&
      Statements.ClausesScoped(CONTINUES.clauses, true)
    ensures !WellScoped(CONTINUES, true, true)
    ensures Exec(w, [], CONTINUES, s, fuel) == Continued(s) == Statements.ExecDispatched(w, [], CONTINUES, s, fuel)
  {
    hide DispatchedClause;
    var cs := Keys(CONTINUES.clauses);
    assert cs == [[IntKey(1)]];
    assert Flat(cs) by { Flattened(cs, IntKey(1)); }
    assert KeyOf(w, false, 1) in cs[0];
    Statements.ExecSelected(w, [], CONTINUES, s, fuel);
  }

  predicate Flat(cs: seq<seq<Key>>) {
    SwitchTable.Flatten(cs) == [IntKey(1)]
  }

  lemma {:induction false} Flattened(cs: seq<seq<Key>>, k: Key)
    requires cs == [[k]]
    ensures SwitchTable.Flatten(cs) == [k]
  {
    assert cs[1..] == [];
  }

  lemma {:induction false} ContinuesExec(w: World, s: Memory, fuel: nat)
    ensures Exec(w, [], CONTINUES, s, fuel) == Continued(s)
  {
    hide Exec;
    ContinuesAlways(w, s, fuel);
  }

  lemma {:induction false} SourceEndless(w: World, s: Memory, fuel: nat)
    ensures ExecFor(w, [], None, Nothing, CONTINUES, s, fuel) == OutOfFuel(s)
    decreases fuel
  {
    hide Exec;
    if fuel > 0 {
      ContinuesExec(w, s, fuel);
      SourceEndless(w, s, fuel - 1);
    }
  }

  /** The source never ends; its code falls out of the function in the first round. */
  lemma {:induction false} EndlessWitness(w: World, regs: nat, st: State, fuel: nat)
    requires fuel > 0
    ensures !WellScoped(ENDLESS, false, false)
    ensures Exec(w, [], ENDLESS, MemoryOf(st), fuel) == OutOfFuel(MemoryOf(st))
    ensures RunNode(w, LowerFunction(ENDLESS, regs), st, fuel).Fall?
  {
    hide Run, LowerStmt, LowerFunction, RunNode, GetsTable, Statements.ExecDispatched;
    ContinuesAlways(w, MemoryOf(st), fuel);
    SourceEndless(w, MemoryOf(st), fuel);
    ContinueFallsOut(w, CONTINUES, regs, st, fuel);
  }

  // ----- `break` leaves an area -----

  /** `for { area { break } }` */
  const LEAVES := LoopOf(Area(None, Break))

  lemma {:induction false} LeavesExec(w: World, s: Memory, fuel: nat)
    requires fuel > 0
    ensures !WellScoped(LEAVES, false, false) && WellScoped(Break, true, false)
    ensures var h := |s.trace|;
      var begun := Did(s, [AreaBegun(h, None, None)]);
      && Fuel.Entered(w, [], None, s) == (h, begun)
      && Exec(w, [h], Break, begun, fuel) == Broke(begun)
      && Exec(w, [], LEAVES, s, fuel) == Normal(Did(begun, [AreaEnded(h)]))
  {
    var h := |s.trace|;
    var begun := Did(s, [AreaBegun(h, None, None)]);
    assert [] + [h] == [h];
    assert Exec(w, [h], Break, begun, fuel) == Broke(begun);
    assert Exec(w, [], Area(None, Break), s, fuel) == Broke(Did(begun, [AreaEnded(h)]));
  }

  /** The source ends the area; the code returns with the area open. */
  lemma {:induction false} OpenAreaWitness(w: World, regs: nat, st: State, fuel: nat)
    requires fuel > 0
    ensures !WellScoped(LEAVES, false, false)
    ensures var h := |st.trace|;
      var r := RunNode(w, LowerFunction(LEAVES, regs), st, fuel);
      && Exec(w, [], LEAVES, MemoryOf(st), fuel) ==
           Normal(Did(Did(MemoryOf(st), [AreaBegun(h, None, None)]), [AreaEnded(h)]))
      && r.Ret? && MemoryOf(r.st) == Did(MemoryOf(st), [AreaBegun(h, None, None)])
      && Areas.Follow(r.st.trace[|st.trace|..], []) == Some([h])
  {
    hide Grows, Delta, Shaped, Run, LowerStmt, LowerFunction, Exec;
    LeavesExec(w, MemoryOf(st), fuel);
    var l, c, h := Build([], 5, regs), Area(None, Break), |st.trace|;
    FreshShaped(l);
    Statements.AreaExact(w, [], c, l, 5, Some(LOOP_CONTEXT), false, st, fuel);
    assert Statements.Handles([], st) == [] && [] + [h] == [h];
    BodySound([], c, l, Some(LOOP_CONTEXT));
    FreshRun(w, l, LoopBody(c, regs), st, fuel);
    FunctionLeft(w, c, regs, st, fuel);
    var r := RunNode(w, LowerFunction(LEAVES, regs), st, fuel);
    var event := AreaBegun(h, None, None);
    assert r.st.trace == st.trace + [event] && r.st.trace[h..] == [event] && [event][1..] == [];
    assert [] + [h] == [h];
  }
}
