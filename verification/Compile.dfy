/** A whole function: lowered, then normalised. */
module Compile {
  import opened Source
  import opened Structured
  import opened Opening
  import opened Lowering
  import opened Writing
  import Normalize
  import LowererState
  import ControlTable
  import Threading
  import Transparency
  import Statements
  import Areas
  import Fuel

  /** Lowers a function body with a fresh lowerer and flattens its transparent blocks. */
  method CompileFunction(c: Stmt) returns (fn: Normalize.Function)
    ensures fn.body == Compiled(c, fn.controlNodes)
    ensures Transparency.LoneFree(fn.body, Normalize.LinkIds(fn.controlNodes) + Normalize.NamedBy(fn.body))
    ensures var root := LowerFunction(c, 0);
      && ControlTable.Recorded(root, fn.controlNodes)
      && Threading.Threaded(root.ctl.body[..|root.ctl.body| - 1], fn.controlNodes)
  {
    hide LowerFunction, Normalize.Flatten, Normalize.LinkIds, Normalize.NamedBy, LowererState.StackValid,
         ControlTable.TableValid, ControlTable.Recorded, Threading.Threads, Threading.Threaded, Transparency.LoneFree;
    var lowerer := new LowererState.Lowerer();
    var root := lowerer.LowerFunctionBody(c);
    fn := new Normalize.Function(lowerer.table, [root]);
    fn.FlattenTransparentBlocks();
  }

  /** The body of the finished function: the root block, flattened. */
  function Compiled(c: Stmt, table: seq<ControlTable.Entry>): seq<Node> {
    var body := [LowerFunction(c, 0)];
    Normalize.Flatten(body, Normalize.LinkIds(table) + Normalize.NamedBy(body))
  }

  /** The finished function does what the source does, and its areas match. */
  lemma {:induction false} CompiledCorrect(w: World, c: Stmt, table: seq<ControlTable.Entry>, st: State, fuel: nat)
    requires WellScoped(c, false, false)
    ensures var r := Run(w, Compiled(c, table), st, fuel);
      && Statements.Agrees(Statements.Call(Exec(w, [], c, MemoryOf(st), fuel)), r, None)
      && st.trace <= r.st.trace
      && var open := Areas.Follow(r.st.trace[|st.trace|..], []);
         open.Some? && (!r.Timeout? ==> open.value == [])
  {
    hide Run, Exec, Normalize.Flatten, Areas.Follow;
    var root := LowerFunction(c, 0);
    var refs := Normalize.LinkIds(table) + Normalize.NamedBy([root]);
    Statements.FunctionCorrect(w, c, 0, st, fuel);
    Areas.AreasMatched(w, c, 0, st, fuel);
    Normalize.FlattenRun(w, [root], refs, st, fuel);
    RunSingle(w, root, st, fuel);
  }

  /** The bound on loops does not matter: a run of the finished function that ends, ends alike with
      every larger bound and like the source, and one that is stopped has made a part of the calls of
      every longer one. So it runs forever exactly when the source does, with the same effects. */
  lemma {:induction false} BoundDoesNotMatter(w: World, c: Stmt, table: seq<ControlTable.Entry>, st: State, fuel: nat,
                                              more: nat)
    requires WellScoped(c, false, false) && fuel <= more
    ensures var a, b := Run(w, Compiled(c, table), st, fuel), Run(w, Compiled(c, table), st, more);
      && (a.Timeout? <==> Exec(w, [], c, MemoryOf(st), fuel).OutOfFuel?)
      && (if a.Timeout? then a.st.trace <= b.st.trace else Same(a, b))
  {
    hide Run, Exec, Compiled;
    CompiledCorrect(w, c, table, st, fuel);
    CompiledCorrect(w, c, table, st, more);
    Fuel.ExecStable(w, [], c, MemoryOf(st), fuel, more);
  }

  /** Two endings that look alike from outside. */
  predicate Same(a: Result, b: Result) {
    MemoryOf(a.st) == MemoryOf(b.st) &&
    match a
    case Fall(_) => b.Fall?
    case Branch(t, _) => b.Branch? && b.target == t
    case Ret(v, _) => b.Ret? && b.value == v
    case Panics(v, _) => b.Panics? && b.value == v
    case Timeout(_) => b.Timeout?
  }
}
