/** Opening the placeholders of a body: every placeholder becomes an empty mark followed by its
    contents, and a node that replaced a placeholder follows the mark it took the place of. The
    opened body lists plainly, in order, what was sent to the body; running it means the same. */
module Opening {
  import opened Source
  import opened Structured

  function Mark(id: nat): Node {
    Control(id, -1, BlockNode(Placeholder, []))
  }

  function Open(body: seq<Node>): seq<Node> {
    if body == [] then [] else OpenNode(body[0]) + Open(body[1..])
  }

  function OpenNode(n: Node): seq<Node> {
    if !n.Control? then [n] else
    (if n.stood >= 0 then [Mark(n.stood)] else []) +
    if IsPlaceholder(n) then [Mark(n.id)] + Open(n.ctl.body) else [Control(n.id, -1, OpenCtl(n.ctl))]
  }

  function OpenCtl(c: Ctl): Ctl {
    match c
    case BlockNode(k, b) => BlockNode(k, Open(b))
    case LoopNode(i, b, p) => LoopNode(Open(i), Open(b), Open(p))
    case IfNode(v, t, e) => IfNode(v, Open(t), Open(e))
    case TableNode(x, ts, cs, d) => TableNode(x, ts, OpenCases(cs), Open(d))
    case BrNode(t) => BrNode(t)
  }

  function OpenCases(cs: seq<TableCase>): (r: seq<TableCase>)
    ensures |r| == |cs|
    ensures forall i :: 0 <= i < |cs| ==> r[i].body == Open(cs[i].body)
  {
    if cs == [] then [] else [TableCase(Open(cs[0].body))] + OpenCases(cs[1..])
  }

  /** Every branch target written in a body. */
  function Targets(body: seq<Node>): set<int> {
    if body == [] then {} else NodeTargets(body[0]) + Targets(body[1..])
  }

  function NodeTargets(n: Node): set<int> {
    if !n.Control? then {} else
    match n.ctl
    case BlockNode(_, b) => Targets(b)
    case LoopNode(i, b, p) => Targets(i) + Targets(b) + Targets(p)
    case IfNode(_, t, e) => Targets(t) + Targets(e)
    case TableNode(_, _, cs, d) => CaseTargets(cs) + Targets(d)
    case BrNode(t) => {t}
  }

  function CaseTargets(cs: seq<TableCase>): (r: set<int>)
    ensures forall i :: 0 <= i < |cs| ==> Targets(cs[i].body) <= r
  {
    if cs == [] then {} else Targets(cs[0].body) + CaseTargets(cs[1..])
  }

  /** No continuation hides inside a placeholder, and nothing inside branches to it. */
  predicate Tidy(body: seq<Node>) {
    forall i :: 0 <= i < |body| ==> TidyNode(body[i])
  }

  predicate TidyNode(n: Node) {
    n.Control? ==>
    match n.ctl
    case BlockNode(k, b) =>
      Tidy(b) && (k == Placeholder ==> n.stood < 0 && n.id !in Targets(b) && NoContinuation(b))
    case LoopNode(i, b, p) => Tidy(i) && Tidy(b) && Tidy(p)
    case IfNode(_, t, e) => Tidy(t) && Tidy(e)
    case TableNode(_, _, cs, d) => (forall i :: 0 <= i < |cs| ==> Tidy(cs[i].body)) && Tidy(d)
    case BrNode(_) => true
  }

  /** The part of tidiness that finding continuations rests on. */
  predicate Neat(body: seq<Node>) {
    forall i :: 0 <= i < |body| ==> NeatNode(body[i])
  }

  predicate NeatNode(n: Node) {
    IsPlaceholder(n) ==> n.stood < 0 && NoContinuation(n.ctl.body)
  }

  predicate NoContinuation(body: seq<Node>) {
    forall i :: 0 <= i < |body| ==> body[i].Control? ==> body[i].stood < 0 && !IsPlaceholder(body[i])
  }

  // ----- running a concatenation -----

  lemma {:induction false} DropAppend(a: seq<Node>, b: seq<Node>, k: nat)
    requires k <= |b|
    ensures (a + b)[|a| + k..] == b[k..]
  {
  }

  lemma {:induction false} SeekAppend(a: seq<Node>, b: seq<Node>, t: int)
    ensures Seek(a + b, t) == if Seek(a, t) < |a| then Seek(a, t) else |a| + Seek(b, t)
  {
    if a == [] {
      assert a + b == b;
    } else if !Continues(a[0], t) {
      SeekAppend(a[1..], b, t);
      assert (a + b)[1..] == a[1..] + b;
    }
  }

  /** What happens after a body that is followed by another one has ended. */
  function After(w: World, r: Result, b: seq<Node>, fuel: nat): Result {
    match r
    case Fall(s) => Run(w, b, s, fuel)
    case Branch(t, s) => var k := Seek(b, t); if k < |b| then Run(w, b[k..], s, fuel) else Branch(t, s)
    case _ => r
  }

  lemma {:induction false} RunStep(w: World, body: seq<Node>, st: State, fuel: nat)
    requires body != []
    ensures Run(w, body, st, fuel) == After(w, RunNode(w, body[0], st, fuel), body[1..], fuel)
  {
    hide RunNode, Seek;
    var r := RunNode(w, body[0], st, fuel);
    if r.Branch? {
      var k := Seek(body[1..], r.target);
      assert body[1 + k..] == body[1..][k..];
    }
  }

  lemma {:induction false} RunNone(w: World, st: State, fuel: nat)
    ensures Run(w, [], st, fuel) == Fall(st)
  {
  }

  lemma {:induction false} RunAppend(w: World, a: seq<Node>, b: seq<Node>, st: State, fuel: nat)
    ensures Run(w, a + b, st, fuel) == After(w, Run(w, a, st, fuel), b, fuel)
    decreases |a|
  {
    hide Run, RunNode, Seek;
    if a == [] {
      assert a + b == b;
      RunNone(w, st, fuel);
    } else {
      var r := RunNode(w, a[0], st, fuel);
      var rest := a[1..];
      assert (a + b)[1..] == rest + b;
      RunStep(w, a + b, st, fuel);
      RunStep(w, a, st, fuel);
      if r.Fall? {
        RunAppend(w, rest, b, r.st, fuel);
      } else if r.Branch? {
        SeekAppend(rest, b, r.target);
        var k := Seek(rest, r.target);
        if k < |rest| {
          assert (rest + b)[k..] == rest[k..] + b;
          RunAppend(w, rest[k..], b, r.st, fuel);
        } else {
          DropAppend(rest, b, Seek(b, r.target));
        }
      }
    }
  }

  lemma {:induction false} OpenAppend(a: seq<Node>, b: seq<Node>)
    ensures Open(a + b) == Open(a) + Open(b)
  {
    if a == [] {
      assert a + b == b;
    } else {
      assert (a + b)[1..] == a[1..] + b;
      OpenAppend(a[1..], b);
    }
  }

  // ----- a body only branches to targets written in it -----

  lemma {:induction false} RunTargets(w: World, body: seq<Node>, st: State, fuel: nat)
    ensures var r := Run(w, body, st, fuel); r.Branch? ==> r.target in Targets(body)
    decreases fuel, body, 0
  {
    hide RunNode, NodeTargets;
    if body != [] {
      NodeRunTargets(w, body[0], st, fuel);
      match RunNode(w, body[0], st, fuel) {
        case Fall(s) => RunTargets(w, body[1..], s, fuel);
        case Branch(t, s) =>
          var k := Seek(body[1..], t);
          if k < |body| - 1 {
            RunTargets(w, body[1 + k..], s, fuel);
            TargetsSuffix(body, 1 + k);
          }
        case _ =>
      }
    }
  }

  lemma {:induction false} TargetsSuffix(body: seq<Node>, k: nat)
    requires k <= |body|
    ensures Targets(body[k..]) <= Targets(body)
  {
    if k > 0 {
      TargetsSuffix(body[1..], k - 1);
      assert body[1..][k - 1..] == body[k..];
    }
  }

  lemma {:induction false} NodeRunTargets(w: World, n: Node, st: State, fuel: nat)
    ensures var r := RunNode(w, n, st, fuel); r.Branch? ==> r.target in NodeTargets(n)
    decreases fuel, n, 2
  {
    if n.Control? {
      match n.ctl {
        case BlockNode(_, b) => RunTargets(w, b, st, fuel);
        case IfNode(_, t, e) => RunTargets(w, t, st, fuel); RunTargets(w, e, st, fuel);
        case TableNode(x, ts, cs, d) =>
          var i := ValueOf(x, st);
          if 0 <= i < |ts| && 0 <= ts[i] < |cs| {
            RunTargets(w, cs[ts[i]].body, st, fuel);
          }
          RunTargets(w, d, st, fuel);
        case BrNode(_) =>
        case LoopNode(i, b, p) =>
          RunTargets(w, i, st, fuel);
          var r := Run(w, i, st, fuel);
          if r.Fall? {
            LoopRunTargets(w, n.id, b, p, r.st, fuel);
          }
      }
    }
  }

  lemma {:induction false} LoopRunTargets(w: World, id: nat, body: seq<Node>, post: seq<Node>, st: State, fuel: nat)
    ensures var r := RunLoop(w, id, body, post, st, fuel);
      r.Branch? ==> r.target in Targets(body) + Targets(post)
    decreases fuel, body, 1
  {
    if fuel > 0 {
      RunTargets(w, body, st, fuel);
      var r := Leave(Run(w, body, st, fuel), id);
      if r.Fall? {
        RunTargets(w, post, r.st, fuel - 1);
        var q := Leave(Run(w, post, r.st, fuel - 1), id);
        if q.Fall? {
          LoopRunTargets(w, id, body, post, q.st, fuel - 1);
        }
      }
    }
  }

  // ----- opening keeps the meaning -----

  lemma {:induction false} NoContinuationSeek(b: seq<Node>, t: int)
    requires NoContinuation(b)
    ensures Seek(Open(b), t) == |Open(b)|
  {
    if b != [] {
      assert Open(b) == OpenNode(b[0]) + Open(b[1..]);
      SeekAppend(OpenNode(b[0]), Open(b[1..]), t);
      NoContinuationSeek(b[1..], t);
    }
  }

  /** A continuation that is sought in the opened body is found where the node stands that carries it. */
  lemma {:induction false} SeekFirst(body: seq<Node>, t: int)
    requires body != []
    ensures Seek(body, t) == if Continues(body[0], t) then 0 else 1 + Seek(body[1..], t)
  {
  }

  lemma {:induction false} OpenNodeSome(n: Node, t: int)
    requires Continues(n, t)
    ensures OpenNode(n) != []
  {
  }

  lemma {:induction false} SeekOpen(body: seq<Node>, t: int)
    requires Neat(body)
    ensures Seek(body, t) == |body| <==> Seek(Open(body), t) == |Open(body)|
    ensures Open(body)[Seek(Open(body), t)..] == Open(body[Seek(body, t)..])
  {
    hide NeatNode, OpenNode, Continues;
    if body != [] {
      var h, rest := OpenNode(body[0]), body[1..];
      assert Open(body) == h + Open(rest);
      hide Open;
      SeekAppend(h, Open(rest), t);
      SeekOpen(rest, t);
      SeekOpenNode(body[0], t);
      SeekFirst(body, t);
      hide Seek;
      if Continues(body[0], t) {
        OpenNodeSome(body[0], t);
        assert body[0..] == body;
      } else {
        assert body[1 + Seek(rest, t)..] == rest[Seek(rest, t)..];
        DropAppend(h, Open(rest), Seek(Open(rest), t));
      }
    }
  }

  lemma {:induction false} SeekOpenNode(n: Node, t: int)
    requires NeatNode(n)
    ensures Seek(OpenNode(n), t) == if Continues(n, t) then 0 else |OpenNode(n)|
  {
    if n.Control? {
      if IsPlaceholder(n) {
        NoContinuationSeek(n.ctl.body, t);
        SeekAppend([Mark(n.id)], Open(n.ctl.body), t);
      }
    }
  }

  lemma {:induction false} TidyNeat(body: seq<Node>)
    requires Tidy(body)
    ensures Neat(body)
  {
    forall i | 0 <= i < |body| ensures NeatNode(body[i]) { assert TidyNode(body[i]); }
  }

  lemma {:induction false} OpenRun(w: World, body: seq<Node>, st: State, fuel: nat)
    requires Tidy(body)
    ensures Run(w, Open(body), st, fuel) == Run(w, body, st, fuel)
    decreases fuel, body, 0
  {
    if body != [] {
      var rest := body[1..];
      RunAppend(w, OpenNode(body[0]), Open(rest), st, fuel);
      OpenNodeRun(w, body[0], st, fuel);
      match RunNode(w, body[0], st, fuel) {
        case Fall(s) => OpenRun(w, rest, s, fuel);
        case Branch(t, s) =>
          TidyNeat(rest);
          SeekOpen(rest, t);
          var k := Seek(rest, t);
          assert rest[k..] == body[1 + k..];
          if k < |rest| {
            OpenRun(w, body[1 + k..], s, fuel);
          }
        case _ =>
      }
    }
  }

  lemma {:induction false} OpenNodeRun(w: World, n: Node, st: State, fuel: nat)
    requires TidyNode(n)
    ensures Run(w, OpenNode(n), st, fuel) == RunNode(w, n, st, fuel)
    decreases fuel, n, 2
  {
    if !n.Control? {
      RunSingle(w, n, st, fuel);
    } else if IsPlaceholder(n) {
      OpenRun(w, n.ctl.body, st, fuel);
      RunTargets(w, n.ctl.body, st, fuel);
      RunAppend(w, [Mark(n.id)], Open(n.ctl.body), st, fuel);
      RunMark(w, n.id, st, fuel);
      assert n.stood < 0;
      assert OpenNode(n) == [] + ([Mark(n.id)] + Open(n.ctl.body)) == [Mark(n.id)] + Open(n.ctl.body);
    } else {
      var m := Control(n.id, -1, OpenCtl(n.ctl));
      OpenCtlRun(w, n, st, fuel);
      RunSingle(w, m, st, fuel);
      if n.stood >= 0 {
        RunAppend(w, [Mark(n.stood)], [m], st, fuel);
        RunMark(w, n.stood, st, fuel);
        assert OpenNode(n) == [Mark(n.stood)] + [m];
      }
    }
  }

  lemma {:induction false} RunSingle(w: World, n: Node, st: State, fuel: nat)
    ensures Run(w, [n], st, fuel) == RunNode(w, n, st, fuel)
  {
    assert [n][1..] == [];
  }

  lemma {:induction false} RunMark(w: World, id: nat, st: State, fuel: nat)
    ensures Run(w, [Mark(id)], st, fuel) == Fall(st)
  {
    RunSingle(w, Mark(id), st, fuel);
  }

  lemma {:induction false} OpenCtlRun(w: World, n: Node, st: State, fuel: nat)
    requires n.Control? && TidyNode(n)
    ensures RunNode(w, Control(n.id, -1, OpenCtl(n.ctl)), st, fuel) == RunNode(w, n, st, fuel)
    decreases fuel, n, 1
  {
    match n.ctl {
      case BlockNode(_, b) => OpenRun(w, b, st, fuel);
      case IfNode(_, t, e) => OpenRun(w, t, st, fuel); OpenRun(w, e, st, fuel);
      case TableNode(x, ts, cs, d) =>
        var i := ValueOf(x, st);
        if 0 <= i < |ts| && 0 <= ts[i] < |cs| {
          OpenRun(w, cs[ts[i]].body, st, fuel);
        }
        OpenRun(w, d, st, fuel);
      case BrNode(_) =>
      case LoopNode(i, b, p) =>
        OpenRun(w, i, st, fuel);
        var r := Run(w, i, st, fuel);
        if r.Fall? {
          OpenLoopRun(w, n.id, b, p, r.st, fuel);
        }
    }
  }

  lemma {:induction false} OpenLoopRun(w: World, id: nat, body: seq<Node>, post: seq<Node>, st: State, fuel: nat)
    requires Tidy(body) && Tidy(post)
    ensures RunLoop(w, id, Open(body), Open(post), st, fuel) == RunLoop(w, id, body, post, st, fuel)
    decreases fuel, body, 1
  {
    hide Run, Open, Tidy;
    if fuel > 0 {
      OpenRun(w, body, st, fuel);
      var r := Leave(Run(w, body, st, fuel), id);
      if r.Fall? {
        OpenRun(w, post, r.st, fuel - 1);
        var q := Leave(Run(w, post, r.st, fuel - 1), id);
        if q.Fall? {
          OpenLoopRun(w, id, body, post, q.st, fuel - 1);
        }
      }
    }
  }
}
