/** Removing transparent blocks: a body that is nothing but one synthetic, unreferenced container of
    instructions becomes those instructions. The control table is left alone. */
module Normalize {
  import opened Source
  import opened Structured
  import opened Opening
  import opened ControlTable
  import opened Transparency

  // ----- the result, as functions -----

  /** The IDs that the branches of a body name; -1 names nothing. */
  function NamedBy(body: seq<Node>): set<int> {
    set t | t in Targets(body) && t >= 0
  }

  /** The IDs that the links of the control table name. */
  function LinkIds(table: seq<Entry>): (r: set<int>)
    ensures forall i :: 0 <= i < |table| && table[i].next >= 0 ==> table[i].next in r
    ensures forall i :: 0 <= i < |table| && table[i].breakTarget >= 0 ==> table[i].breakTarget in r
    ensures forall i :: 0 <= i < |table| && table[i].continueTarget >= 0 ==> table[i].continueTarget in r
  {
    if table == [] then {} else
    var e := table[|table| - 1];
    LinkIds(table[..|table| - 1]) + Id(e.next) + Id(e.breakTarget) + Id(e.continueTarget)
  }

  predicate Links(e: Entry, t: int) {
    t >= 0 && (e.next == t || e.breakTarget == t || e.continueTarget == t)
  }

  lemma {:induction false} LinkIdsExact(table: seq<Entry>, t: int)
    ensures t in LinkIds(table) <==> exists i :: 0 <= i < |table| && Links(table[i], t)
    decreases |table|
  {
    hide Links;
    if table != [] {
      var n := |table| - 1;
      LinkIdsExact(table[..n], t);
      var e := table[n];
      assert t in Id(e.next) + Id(e.breakTarget) + Id(e.continueTarget) <==> Links(e, t) by {
        LinksOne(e, t);
      }
      if exists i :: 0 <= i < |table| && Links(table[i], t) {
        var i :| 0 <= i < |table| && Links(table[i], t);
        assert i < n ==> Links(table[..n][i], t);
      }
    }
  }

  lemma {:induction false} LinksOne(e: Entry, t: int)
    ensures t in Id(e.next) + Id(e.breakTarget) + Id(e.continueTarget) <==> Links(e, t)
  {
  }

  function Id(t: int): set<int> {
    if t >= 0 then {t} else {}
  }

  predicate InstructionOnly(body: seq<Node>) {
    forall i :: 0 <= i < |body| ==> body[i].Instruction? || body[i].ReturnNode?
  }

  predicate Transparent(n: Node, refs: set<int>) {
    IsPlaceholder(n) && n.id !in refs && InstructionOnly(n.ctl.body)
  }

  function Squeeze(body: seq<Node>, refs: set<int>): seq<Node> {
    if |body| == 1 && Transparent(body[0], refs) then body[0].ctl.body else body
  }

  function Flatten(body: seq<Node>, refs: set<int>): seq<Node>
    decreases body, 2
  {
    Squeeze(FlattenEach(body, refs), refs)
  }

  function FlattenEach(body: seq<Node>, refs: set<int>): (r: seq<Node>)
    ensures |r| == |body|
    decreases body, 1
  {
    if body == [] then [] else [FlattenNode(body[0], refs)] + FlattenEach(body[1..], refs)
  }

  function FlattenNode(n: Node, refs: set<int>): Node
    decreases n, 2
  {
    if !n.Control? then n else Control(n.id, n.stood, FlattenCtl(n.ctl, refs))
  }

  function FlattenCtl(c: Ctl, refs: set<int>): Ctl
    decreases c, 1
  {
    match c
    case BlockNode(k, b) => BlockNode(k, Flatten(b, refs))
    case LoopNode(i, b, p) => LoopNode(Flatten(i, refs), Flatten(b, refs), Flatten(p, refs))
    case IfNode(v, t, e) => IfNode(v, Flatten(t, refs), Flatten(e, refs))
    case TableNode(x, ts, cs, d) => TableNode(x, ts, FlattenCases(cs, refs), Flatten(d, refs))
    case BrNode(_) => c
  }

  function FlattenCases(cs: seq<TableCase>, refs: set<int>): (r: seq<TableCase>)
    ensures |r| == |cs|
    ensures forall i :: 0 <= i < |cs| ==> r[i].body == Flatten(cs[i].body, refs)
    decreases cs, 0
  {
    if cs == [] then [] else [TableCase(Flatten(cs[0].body, refs))] + FlattenCases(cs[1..], refs)
  }

  // ----- the pass, in place -----

  class Function {
    var controlNodes: seq<Entry>
    var body: seq<Node>

    constructor (table: seq<Entry>, code: seq<Node>)
      ensures controlNodes == table && body == code
    {
      controlNodes := table;
      body := code;
    }

    /** Marks what links and branches name, then rewrites the body. */
    method FlattenTransparentBlocks()
      modifies `body
      ensures body == Flatten(old(body), LinkIds(controlNodes) + NamedBy(old(body)))
      ensures LoneFree(body, LinkIds(controlNodes) + NamedBy(body))
      ensures Census(old(body)) == Census(body) + Gone(old(body), LinkIds(controlNodes) + NamedBy(body))
    {
      hide Flatten, LoneFree, Census, Gone;
      var pass := new Pass();
      for i := 0 to |controlNodes|
        invariant pass.referenced == LinkIds(controlNodes[..i])
        invariant body == old(body)
      {
        assert controlNodes[..i + 1][..i] == controlNodes[..i];
        pass.MarkId(controlNodes[i].next);
        pass.MarkId(controlNodes[i].breakTarget);
        pass.MarkId(controlNodes[i].continueTarget);
      }
      assert controlNodes[..|controlNodes|] == controlNodes;
      pass.MarkBody(body);
      FlattenKeeps(body, pass.referenced);
      NoneLeft(body, pass.referenced);
      ExactlyGone(body, pass.referenced);
      body := pass.Rewrite(body);
    }
  }

  class Pass {
    var referenced: set<int>

    constructor ()
      ensures referenced == {}
    {
      referenced := {};
    }

    method MarkId(id: int)
      modifies this
      ensures referenced == old(referenced) + Id(id)
    {
      if id >= 0 {
        referenced := referenced + {id};
      }
    }

    method MarkBody(body: seq<Node>)
      modifies this
      ensures referenced == old(referenced) + NamedBy(body)
      decreases body, 1
    {
      for i := 0 to |body|
        invariant referenced == old(referenced) + NamedBy(body[..i])
      {
        TargetsStep(body, i);
        MarkNode(body[i]);
      }
      assert body[..|body|] == body;
    }

    method MarkNode(n: Node)
      modifies this
      ensures referenced == old(referenced) + set t | t in NodeTargets(n) && t >= 0
      decreases n, 2
    {
      if n.Control? {
        match n.ctl {
          case BlockNode(_, b) => MarkBody(b);
          case LoopNode(i, b, p) => MarkBody(i); MarkBody(b); MarkBody(p);
          case IfNode(_, t, e) => MarkBody(t); MarkBody(e);
          case TableNode(_, _, cs, d) =>
            for i := 0 to |cs|
              invariant referenced == old(referenced) + set t | t in CaseTargets(cs[..i]) && t >= 0
            {
              CaseTargetsStep(cs, i);
              MarkBody(cs[i].body);
            }
            assert cs[..|cs|] == cs;
            MarkBody(d);
          case BrNode(t) => MarkId(t);
        }
      }
    }

    method Rewrite(body: seq<Node>) returns (r: seq<Node>)
      ensures r == Flatten(body, referenced)
      decreases body, 1
    {
      r := [];
      for i := 0 to |body|
        invariant r == FlattenEach(body[..i], referenced)
      {
        FlattenEachStep(body, i, referenced);
        var n := RewriteNode(body[i]);
        r := r + [n];
      }
      assert body[..|body|] == body;
      if |r| == 1 && Transparent(r[0], referenced) {
        r := r[0].ctl.body;
      }
    }

    method RewriteNode(n: Node) returns (r: Node)
      ensures r == FlattenNode(n, referenced)
      decreases n, 2
    {
      r := n;
      if n.Control? {
        match n.ctl {
          case BlockNode(k, b) =>
            var b' := Rewrite(b);
            r := Control(n.id, n.stood, BlockNode(k, b'));
          case LoopNode(i, b, p) =>
            var i' := Rewrite(i);
            var b' := Rewrite(b);
            var p' := Rewrite(p);
            r := Control(n.id, n.stood, LoopNode(i', b', p'));
          case IfNode(v, t, e) =>
            var t' := Rewrite(t);
            var e' := Rewrite(e);
            r := Control(n.id, n.stood, IfNode(v, t', e'));
          case TableNode(x, ts, cs, d) =>
            var cs' := [];
            for i := 0 to |cs|
              invariant cs' == FlattenCases(cs[..i], referenced)
            {
              FlattenCasesStep(cs, i, referenced);
              var b := Rewrite(cs[i].body);
              cs' := cs' + [TableCase(b)];
            }
            assert cs[..|cs|] == cs;
            var d' := Rewrite(d);
            r := Control(n.id, n.stood, TableNode(x, ts, cs', d'));
          case BrNode(_) =>
        }
      }
    }
  }

  lemma {:induction false} TargetsStep(body: seq<Node>, i: nat)
    requires i < |body|
    ensures Targets(body[..i + 1]) == Targets(body[..i]) + NodeTargets(body[i])
    decreases i
  {
    if i == 0 {
      assert body[..1] == [body[0]];
      assert Targets(body[..1]) == NodeTargets(body[0]) + Targets(body[..1][1..]);
    } else {
      TargetsStep(body[1..], i - 1);
      assert body[..i + 1][1..] == body[1..][..i] && body[..i][1..] == body[1..][..i - 1];
    }
  }

  lemma {:induction false} CaseTargetsStep(cs: seq<TableCase>, i: nat)
    requires i < |cs|
    ensures CaseTargets(cs[..i + 1]) == CaseTargets(cs[..i]) + Targets(cs[i].body)
    decreases i
  {
    if i == 0 {
      assert cs[..1] == [cs[0]] && cs[..1][1..] == [];
    } else {
      CaseTargetsStep(cs[1..], i - 1);
      assert cs[..i + 1][1..] == cs[1..][..i] && cs[..i][1..] == cs[1..][..i - 1];
    }
  }

  lemma {:induction false} FlattenEachStep(body: seq<Node>, i: nat, refs: set<int>)
    requires i < |body|
    ensures FlattenEach(body[..i + 1], refs) == FlattenEach(body[..i], refs) + [FlattenNode(body[i], refs)]
    decreases i
  {
    if i == 0 {
      assert body[..1] == [body[0]] && body[..1][1..] == [];
    } else {
      FlattenEachStep(body[1..], i - 1, refs);
      assert body[..i + 1][1..] == body[1..][..i] && body[..i][1..] == body[1..][..i - 1];
    }
  }

  lemma {:induction false} FlattenCasesStep(cs: seq<TableCase>, i: nat, refs: set<int>)
    requires i < |cs|
    ensures FlattenCases(cs[..i + 1], refs) == FlattenCases(cs[..i], refs) + [TableCase(Flatten(cs[i].body, refs))]
  {
    hide Flatten;
    var a, b := FlattenCases(cs[..i + 1], refs), FlattenCases(cs[..i], refs) + [TableCase(Flatten(cs[i].body, refs))];
    forall k | 0 <= k < |a| ensures a[k] == b[k] {
      assert a[k].body == Flatten(cs[..i + 1][k].body, refs);
      assert k < i ==> FlattenCases(cs[..i], refs)[k].body == Flatten(cs[..i][k].body, refs);
    }
  }

  // ----- the meaning stays -----

  lemma {:induction false} InstructionsRun(w: World, body: seq<Node>, st: State, fuel: nat)
    requires InstructionOnly(body)
    ensures !Run(w, body, st, fuel).Branch?
    decreases |body|
  {
    if body != [] && body[0].Instruction? {
      InstructionsRun(w, body[1..], RunNode(w, body[0], st, fuel).st, fuel);
    }
  }

  lemma {:induction false} SqueezeRun(w: World, body: seq<Node>, refs: set<int>, st: State, fuel: nat)
    ensures Run(w, Squeeze(body, refs), st, fuel) == Run(w, body, st, fuel)
  {
    if |body| == 1 && Transparent(body[0], refs) {
      InstructionsRun(w, body[0].ctl.body, st, fuel);
      assert body == [body[0]];
      RunSingle(w, body[0], st, fuel);
      assert RunNode(w, body[0], st, fuel) == Leave(Run(w, body[0].ctl.body, st, fuel), body[0].id);
    }
  }

  lemma {:induction false} SeekFlatten(body: seq<Node>, refs: set<int>, t: int)
    ensures Seek(FlattenEach(body, refs), t) == Seek(body, t)
    decreases |body|
  {
    if body != [] {
      SeekFlatten(body[1..], refs, t);
      assert FlattenEach(body, refs)[1..] == FlattenEach(body[1..], refs);
      assert Continues(FlattenNode(body[0], refs), t) == Continues(body[0], t);
    }
  }

  lemma {:induction false} FlattenEachSuffix(body: seq<Node>, k: nat, refs: set<int>)
    requires k <= |body|
    ensures FlattenEach(body, refs)[k..] == FlattenEach(body[k..], refs)
    decreases |body|
  {
    if k > 0 {
      FlattenEachSuffix(body[1..], k - 1, refs);
      assert body[1..][k - 1..] == body[k..];
    }
  }

  /** Running the flattened body is running the body, whatever the blocks it still refers to. */
  lemma {:induction false} FlattenRun(w: World, body: seq<Node>, refs: set<int>, st: State, fuel: nat)
    ensures Run(w, Flatten(body, refs), st, fuel) == Run(w, body, st, fuel)
    decreases fuel, body, 1
  {
    FlattenEachRun(w, body, refs, st, fuel);
    SqueezeRun(w, FlattenEach(body, refs), refs, st, fuel);
  }

  lemma {:induction false} FlattenEachRun(w: World, body: seq<Node>, refs: set<int>, st: State, fuel: nat)
    ensures Run(w, FlattenEach(body, refs), st, fuel) == Run(w, body, st, fuel)
    decreases fuel, body, 0
  {
    if body != [] {
      var rest := body[1..];
      FlattenNodeRun(w, body[0], refs, st, fuel);
      RunStep(w, body, st, fuel);
      RunStep(w, FlattenEach(body, refs), st, fuel);
      assert FlattenEach(body, refs)[1..] == FlattenEach(rest, refs);
      match RunNode(w, body[0], st, fuel) {
        case Fall(s) => FlattenEachRun(w, rest, refs, s, fuel);
        case Branch(t, s) =>
          SeekFlatten(rest, refs, t);
          var k := Seek(rest, t);
          FlattenEachSuffix(rest, k, refs);
          assert rest[k..] == body[1 + k..];
          FlattenEachRun(w, rest[k..], refs, s, fuel);
        case _ =>
      }
    }
  }

  lemma {:induction false} FlattenNodeRun(w: World, n: Node, refs: set<int>, st: State, fuel: nat)
    ensures RunNode(w, FlattenNode(n, refs), st, fuel) == RunNode(w, n, st, fuel)
    decreases fuel, n, 2
  {
    if n.Control? {
      match n.ctl {
        case BlockNode(_, b) => FlattenRun(w, b, refs, st, fuel);
        case IfNode(_, t, e) => FlattenRun(w, t, refs, st, fuel); FlattenRun(w, e, refs, st, fuel);
        case TableNode(x, ts, cs, d) =>
          var i := ValueOf(x, st);
          if 0 <= i < |ts| && 0 <= ts[i] < |cs| {
            FlattenRun(w, cs[ts[i]].body, refs, st, fuel);
          }
          FlattenRun(w, d, refs, st, fuel);
        case BrNode(_) =>
        case LoopNode(i, b, p) =>
          FlattenRun(w, i, refs, st, fuel);
          var r := Run(w, i, st, fuel);
          if r.Fall? {
            FlattenLoopRun(w, n.id, b, p, refs, r.st, fuel);
          }
      }
    }
  }

  lemma {:induction false} FlattenLoopRun(w: World, id: nat, body: seq<Node>, post: seq<Node>, refs: set<int>,
                                          st: State, fuel: nat)
    ensures RunLoop(w, id, Flatten(body, refs), Flatten(post, refs), st, fuel) == RunLoop(w, id, body, post, st, fuel)
    decreases fuel, body, 2
  {
    hide Run, Flatten;
    if fuel > 0 {
      FlattenRun(w, body, refs, st, fuel);
      var r := Leave(Run(w, body, st, fuel), id);
      if r.Fall? {
        FlattenRun(w, post, refs, r.st, fuel - 1);
        var q := Leave(Run(w, post, r.st, fuel - 1), id);
        if q.Fall? {
          FlattenLoopRun(w, id, body, post, refs, q.st, fuel - 1);
        }
      }
    }
  }

  // ----- what is kept -----

  /** What a pass over a body keeps: it adds no node, removes none that is referenced, and the
      branches say what they said. */
  predicate Keeps(ids: set<int>, ids': set<int>, targets: set<int>, targets': set<int>, refs: set<int>) {
    ids' <= ids && ids * refs <= ids' && targets' == targets
  }

  lemma {:induction false} InstructionsEmpty(body: seq<Node>)
    requires InstructionOnly(body)
    ensures Ids(body) == {} && Targets(body) == {}
    decreases |body|
  {
    if body != [] { InstructionsEmpty(body[1..]); }
  }

  lemma {:induction false} FlattenKeeps(body: seq<Node>, refs: set<int>)
    ensures Keeps(Ids(body), Ids(Flatten(body, refs)), Targets(body), Targets(Flatten(body, refs)), refs)
    decreases body, 1
  {
    FlattenEachKeeps(body, refs);
    var b := FlattenEach(body, refs);
    if |b| == 1 && Transparent(b[0], refs) {
      InstructionsEmpty(b[0].ctl.body);
      var inner := b[0].ctl.body;
      assert b[1..] == [] && b[0].ctl == BlockNode(Placeholder, inner);
      assert NodeTargets(b[0]) == Targets(inner) && CtlIds(b[0].ctl) == Ids(inner);
      assert Ids(b) == NodeIds(b[0]) + Ids(b[1..]) && Targets(b) == NodeTargets(b[0]) + Targets(b[1..]);
    }
  }

  lemma {:induction false} FlattenEachKeeps(body: seq<Node>, refs: set<int>)
    ensures Keeps(Ids(body), Ids(FlattenEach(body, refs)), Targets(body), Targets(FlattenEach(body, refs)), refs)
    decreases body, 0
  {
    if body != [] {
      FlattenNodeKeeps(body[0], refs);
      FlattenEachKeeps(body[1..], refs);
      assert FlattenEach(body, refs)[1..] == FlattenEach(body[1..], refs);
    }
  }

  lemma {:induction false} FlattenNodeKeeps(n: Node, refs: set<int>)
    ensures var m := FlattenNode(n, refs); Keeps(NodeIds(n), NodeIds(m), NodeTargets(n), NodeTargets(m), refs)
    decreases n, 2
  {
    if n.Control? {
      match n.ctl {
        case BlockNode(_, b) => FlattenKeeps(b, refs);
        case LoopNode(i, b, p) => FlattenKeeps(i, refs); FlattenKeeps(b, refs); FlattenKeeps(p, refs);
        case IfNode(_, t, e) => FlattenKeeps(t, refs); FlattenKeeps(e, refs);
        case TableNode(_, _, cs, d) => FlattenCasesKeep(cs, refs); FlattenKeeps(d, refs);
        case BrNode(_) =>
      }
    }
  }

  lemma {:induction false} FlattenCasesKeep(cs: seq<TableCase>, refs: set<int>)
    ensures var r := FlattenCases(cs, refs); Keeps(CaseIds(cs), CaseIds(r), CaseTargets(cs), CaseTargets(r), refs)
    decreases cs, 0
  {
    if cs != [] {
      FlattenKeeps(cs[0].body, refs);
      FlattenCasesKeep(cs[1..], refs);
      assert FlattenCases(cs, refs)[1..] == FlattenCases(cs[1..], refs);
    }
  }

  // ----- what is removed -----

  lemma {:induction false} EachAt(body: seq<Node>, i: nat, refs: set<int>)
    requires i < |body|
    ensures FlattenEach(body, refs)[i] == FlattenNode(body[i], refs)
    decreases |body|
  {
    if i > 0 { EachAt(body[1..], i - 1, refs); }
  }

  lemma {:induction false} SimpleFree(body: seq<Node>, refs: set<int>)
    requires forall i :: 0 <= i < |body| ==> Straight(body[i])
    ensures LoneFree(body, refs)
  {
  }

  /** No body is left that is nothing but one unnamed placeholder of instructions. */
  lemma {:induction false} NoneLeft(body: seq<Node>, refs: set<int>)
    ensures LoneFree(Flatten(body, refs), refs)
    decreases body, 2
  {
    hide LoneFreeInside, FlattenNode;
    var b := FlattenEach(body, refs);
    forall i | 0 <= i < |b| ensures LoneFreeInside(b[i], refs) {
      EachAt(body, i, refs);
      NoneLeftInside(body[i], refs);
    }
    if Lone(b, refs) {
      SimpleFree(b[0].ctl.body, refs);
    }
  }

  lemma {:induction false} NoneLeftInside(n: Node, refs: set<int>)
    ensures LoneFreeInside(FlattenNode(n, refs), refs)
    decreases n, 1
  {
    hide Flatten, LoneFree;
    if n.Control? {
      match n.ctl {
        case BlockNode(_, b) => NoneLeft(b, refs);
        case LoopNode(i, b, p) => NoneLeft(i, refs); NoneLeft(b, refs); NoneLeft(p, refs);
        case IfNode(_, t, e) => NoneLeft(t, refs); NoneLeft(e, refs);
        case TableNode(_, _, cs, d) =>
          forall i | 0 <= i < |cs| ensures LoneFree(FlattenCases(cs, refs)[i].body, refs) {
            NoneLeft(cs[i].body, refs);
          }
          NoneLeft(d, refs);
        case BrNode(_) =>
      }
    }
  }

  /** A body ends up as instructions exactly when it is plain. */
  lemma {:induction false} PlainExact(body: seq<Node>, refs: set<int>)
    ensures (forall i :: 0 <= i < |Flatten(body, refs)| ==> Straight(Flatten(body, refs)[i])) <==> Melts(body, refs)
    decreases body, 2
  {
    hide FlattenNode, Hollow;
    var b := FlattenEach(body, refs);
    forall i | 0 <= i < |body| ensures Straight(b[i]) <==> Straight(body[i]) {
      EachAt(body, i, refs);
      SimpleStays(body[i], refs);
    }
    if |body| == 1 {
      EachAt(body, 0, refs);
      HollowExact(body[0], refs);
    }
    if |b| == 1 && Transparent(b[0], refs) {
      assert Flatten(body, refs) == b[0].ctl.body && Hollow(body[0], refs);
    } else {
      assert Flatten(body, refs) == b;
      if forall i :: 0 <= i < |b| ==> Straight(b[i]) {
        forall i | 0 <= i < |body| ensures Straight(body[i]) {
          assert Straight(b[i]);
        }
      }
    }
  }

  lemma {:induction false} SimpleStays(n: Node, refs: set<int>)
    ensures Straight(FlattenNode(n, refs)) <==> Straight(n)
    ensures n.Control? ==> FlattenNode(n, refs).Control? && FlattenNode(n, refs).id == n.id
  {
  }

  /** A placeholder becomes a transparent one exactly when it is hollow. */
  lemma {:induction false} HollowExact(n: Node, refs: set<int>)
    ensures Transparent(FlattenNode(n, refs), refs) <==> Hollow(n, refs)
    decreases n, 1
  {
    hide Flatten, Melts;
    if n.Control? && n.ctl.BlockNode? {
      PlainExact(n.ctl.body, refs);
    }
  }

  lemma {:induction false} SimpleCensus(body: seq<Node>)
    requires forall i :: 0 <= i < |body| ==> Straight(body[i])
    ensures Census(body) == multiset{}
    decreases |body|
  {
    if body != [] { SimpleCensus(body[1..]); }
  }

  lemma {:induction false} CensusOne(n: Node)
    ensures Census([n]) == CensusOf(n)
  {
    assert [n][1..] == [];
  }

  /** The IDs that disappear are exactly those of the hollow placeholders that stand alone. */
  lemma {:induction false} ExactlyGone(body: seq<Node>, refs: set<int>)
    ensures Census(body) == Census(Flatten(body, refs)) + Gone(body, refs)
    decreases body, 2
  {
    hide FlattenNode, Hollow, GoneEach;
    var b := FlattenEach(body, refs);
    GoneFromEach(body, refs);
    if |body| == 1 {
      EachAt(body, 0, refs);
      HollowExact(body[0], refs);
      if Hollow(body[0], refs) {
        SimpleStays(body[0], refs);
        SimpleCensus(b[0].ctl.body);
        CensusOne(b[0]);
        assert b == [b[0]];
      }
    }
  }

  lemma {:induction false} GoneFromEach(body: seq<Node>, refs: set<int>)
    ensures Census(body) == Census(FlattenEach(body, refs)) + GoneEach(body, refs)
    decreases body, 1
  {
    hide FlattenNode, GoneInside, CensusOf;
    if body != [] {
      GoneFromInside(body[0], refs);
      GoneFromEach(body[1..], refs);
      assert FlattenEach(body, refs)[1..] == FlattenEach(body[1..], refs);
    }
  }

  lemma {:induction false} GoneFromInside(n: Node, refs: set<int>)
    ensures CensusOf(n) == CensusOf(FlattenNode(n, refs)) + GoneInside(n, refs)
    decreases n, 1
  {
    hide Flatten, Gone, Census;
    if n.Control? {
      match n.ctl {
        case BlockNode(_, b) => ExactlyGone(b, refs);
        case LoopNode(i, b, p) => ExactlyGone(i, refs); ExactlyGone(b, refs); ExactlyGone(p, refs);
        case IfNode(_, t, e) => ExactlyGone(t, refs); ExactlyGone(e, refs);
        case TableNode(_, _, cs, d) => GoneFromCases(cs, refs); ExactlyGone(d, refs);
        case BrNode(_) =>
      }
    }
  }

  lemma {:induction false} GoneFromCases(cs: seq<TableCase>, refs: set<int>)
    ensures CensusCases(cs) == CensusCases(FlattenCases(cs, refs)) + GoneCases(cs, refs)
    decreases cs, 0
  {
    hide Flatten, Gone, Census;
    if cs != [] {
      ExactlyGone(cs[0].body, refs);
      GoneFromCases(cs[1..], refs);
      assert FlattenCases(cs, refs)[1..] == FlattenCases(cs[1..], refs);
    }
  }

  // ----- a second run changes nothing -----

  lemma {:induction false} FlattenInstructions(body: seq<Node>, refs: set<int>)
    requires InstructionOnly(body)
    ensures FlattenEach(body, refs) == body
    decreases |body|
  {
    if body != [] { FlattenInstructions(body[1..], refs); }
  }

  lemma {:induction false} FlattenTwice(body: seq<Node>, refs: set<int>)
    ensures Flatten(Flatten(body, refs), refs) == Flatten(body, refs)
    decreases body, 1
  {
    FlattenEachTwice(body, refs);
    var b := FlattenEach(body, refs);
    if |b| == 1 && Transparent(b[0], refs) {
      FlattenInstructions(b[0].ctl.body, refs);
    }
  }

  lemma {:induction false} FlattenEachTwice(body: seq<Node>, refs: set<int>)
    ensures FlattenEach(FlattenEach(body, refs), refs) == FlattenEach(body, refs)
    decreases body, 0
  {
    if body != [] {
      FlattenNodeTwice(body[0], refs);
      FlattenEachTwice(body[1..], refs);
      assert FlattenEach(body, refs)[1..] == FlattenEach(body[1..], refs);
    }
  }

  lemma {:induction false} FlattenNodeTwice(n: Node, refs: set<int>)
    ensures FlattenNode(FlattenNode(n, refs), refs) == FlattenNode(n, refs)
    decreases n, 2
  {
    if n.Control? {
      match n.ctl {
        case BlockNode(_, b) => FlattenTwice(b, refs);
        case LoopNode(i, b, p) => FlattenTwice(i, refs); FlattenTwice(b, refs); FlattenTwice(p, refs);
        case IfNode(_, t, e) => FlattenTwice(t, refs); FlattenTwice(e, refs);
        case TableNode(_, _, cs, d) => FlattenCasesTwice(cs, refs); FlattenTwice(d, refs);
        case BrNode(_) =>
      }
    }
  }

  lemma {:induction false} FlattenCasesTwice(cs: seq<TableCase>, refs: set<int>)
    ensures FlattenCases(FlattenCases(cs, refs), refs) == FlattenCases(cs, refs)
    decreases cs, 0
  {
    if cs != [] {
      FlattenTwice(cs[0].body, refs);
      FlattenCasesTwice(cs[1..], refs);
      assert FlattenCases(cs, refs)[1..] == FlattenCases(cs[1..], refs);
    }
  }

  /** The whole pass once more: the branches name what they named, so it sees the same references. */
  lemma {:induction false} PassTwice(table: seq<Entry>, body: seq<Node>)
    ensures var once := Flatten(body, LinkIds(table) + NamedBy(body));
      Flatten(once, LinkIds(table) + NamedBy(once)) == once
  {
    var refs := LinkIds(table) + NamedBy(body);
    FlattenKeeps(body, refs);
    FlattenTwice(body, refs);
  }

  // ----- the validator still accepts -----

  /** The names of a function: the label of the node with an ID, and the label that a branch, given by
      its own ID, is written with. */
  datatype Labels = Labels(own: nat -> string, target: nat -> string)

  /** The structural validator: labels are there and not shadowed, branches go to visible ones. The
      validator knows no panic nodes and looks into a loop's Body only. */
  predicate Accepts(body: seq<Node>, visible: set<string>, names: Labels) {
    forall i :: 0 <= i < |body| ==> AcceptsNode(body[i], visible, names)
  }

  predicate AcceptsNode(n: Node, visible: set<string>, names: Labels) {
    if !n.Control? then !n.PanicNode?
    else if n.ctl.BrNode? then names.target(n.id) in visible
    else
      var inner := visible + {names.own(n.id)};
      && names.own(n.id) != "" && names.own(n.id) !in visible
      && match n.ctl
         case BlockNode(_, b) => Accepts(b, inner, names)
         case LoopNode(_, b, _) => Accepts(b, inner, names)
         case IfNode(_, t, e) => Accepts(t, inner, names) && Accepts(e, inner, names)
         case TableNode(_, _, cs, d) =>
           (forall i :: 0 <= i < |cs| ==> Accepts(cs[i].body, inner, names)) && Accepts(d, inner, names)
  }

  /** The bodies of a node that the validator looks into. */
  predicate Examined(n: Node, body: seq<Node>) {
    n.Control? &&
    match n.ctl
    case BlockNode(_, b) => body == b
    case LoopNode(_, b, _) => body == b
    case IfNode(_, t, e) => body == t || body == e
    case TableNode(_, _, cs, d) => body == d || exists i :: 0 <= i < |cs| && cs[i].body == body
    case BrNode(_) => false
  }

  /** `n` lies in `body` inside the nodes `above`, the outermost first. */
  ghost predicate Lies(n: Node, above: seq<Node>, body: seq<Node>)
    decreases |above|
  {
    if above == [] then n in body
    else above[0] in body && exists b :: Examined(above[0], b) && Lies(n, above[1..], b)
  }

  /** The label is that of a node around. */
  predicate Around(name: string, above: seq<Node>, names: Labels) {
    exists k :: 0 <= k < |above| && above[k].Control? && names.own(above[k].id) == name
  }

  /** What is asked of a single node: a branch goes to a label that is visible or around, and what can be
      branched to has a label that is neither. */
  predicate Fine(n: Node, above: seq<Node>, visible: set<string>, names: Labels) {
    if !n.Control? then !n.PanicNode?
    else if n.ctl.BrNode? then names.target(n.id) in visible || Around(names.target(n.id), above, names)
    else names.own(n.id) != "" && names.own(n.id) !in visible && !Around(names.own(n.id), above, names)
  }

  /** The validator accepts just the bodies in which every node it looks at is fine. */
  lemma {:induction false} AcceptsExact(body: seq<Node>, visible: set<string>, names: Labels)
    ensures Accepts(body, visible, names) <==>
      forall n, above :: Lies(n, above, body) ==> Fine(n, above, visible, names)
  {
    hide Accepts, Lies, Fine;
    if Accepts(body, visible, names) {
      forall n, above | Lies(n, above, body) ensures Fine(n, above, visible, names) {
        AcceptedFine(n, above, body, visible, names);
      }
    } else if forall n, above :: Lies(n, above, body) ==> Fine(n, above, visible, names) {
      FineAccepted(body, visible, names);
    }
  }

  lemma {:induction false} AcceptedFine(n: Node, above: seq<Node>, body: seq<Node>, visible: set<string>, names: Labels)
    requires Accepts(body, visible, names) && Lies(n, above, body)
    ensures Fine(n, above, visible, names)
    decreases |above|
  {
    hide Around;
    if above == [] {
      NoneAround(names);
      var i :| 0 <= i < |body| && body[i] == n;
      assert AcceptsNode(body[i], visible, names);
    } else {
      hide Fine;
      var a := above[0];
      var i :| 0 <= i < |body| && body[i] == a;
      assert AcceptsNode(body[i], visible, names);
      var b :| Examined(a, b) && Lies(n, above[1..], b);
      AcceptedFine(n, above[1..], b, visible + {names.own(a.id)}, names);
      FineInside(n, a, above[1..], visible, names);
      assert [a] + above[1..] == above;
    }
  }

  lemma {:induction false} NoneAround(names: Labels)
    ensures forall name :: !Around(name, [], names)
  {
  }

  /** Looking for a label around or among the visible ones comes to the same. */
  lemma {:induction false} FineInside(n: Node, a: Node, above: seq<Node>, visible: set<string>, names: Labels)
    requires a.Control?
    ensures Fine(n, above, visible + {names.own(a.id)}, names) <==> Fine(n, [a] + above, visible, names)
  {
    hide Around;
    if n.Control? {
      AroundOne(names.own(n.id), a, above, names);
      AroundOne(names.target(n.id), a, above, names);
    }
  }

  lemma {:induction false} AroundOne(name: string, a: Node, above: seq<Node>, names: Labels)
    requires a.Control?
    ensures Around(name, [a] + above, names) <==> name == names.own(a.id) || Around(name, above, names)
  {
    var all := [a] + above;
    if Around(name, above, names) {
      var k :| 0 <= k < |above| && above[k].Control? && names.own(above[k].id) == name;
      assert all[k + 1] == above[k];
    }
    assert all[0] == a;
    assert all[1..] == above;
  }

  lemma {:induction false} FineAccepted(body: seq<Node>, visible: set<string>, names: Labels)
    requires forall n, above :: Lies(n, above, body) ==> Fine(n, above, visible, names)
    ensures Accepts(body, visible, names)
    decreases body, 1
  {
    hide Accepts, Fine, Examined, Lies;
    forall i | 0 <= i < |body| ensures AcceptsNode(body[i], visible, names) {
      Directly(body[i], body);
      assert Fine(body[i], [], visible, names);
      ExaminedFine(body[i], body, visible, names);
      FineNodeAccepted(body[i], visible, names);
    }
    AcceptsAll(body, visible, names);
  }

  lemma {:induction false} FineNodeAccepted(n: Node, visible: set<string>, names: Labels)
    requires Fine(n, [], visible, names)
    requires forall b, m, above :: Examined(n, b) && Lies(m, above, b) ==>
      Fine(m, above, visible + {names.own(n.id)}, names)
    ensures AcceptsNode(n, visible, names)
    decreases n, 2
  {
    hide Accepts, Fine, Examined, Lies;
    FineNode(n, visible, names);
    if n.Control? && !n.ctl.BrNode? {
      BodiesExamined(n);
      var inner := visible + {names.own(n.id)};
      match n.ctl {
        case BlockNode(_, b) => FineAccepted(b, inner, names);
        case LoopNode(_, b, _) => FineAccepted(b, inner, names);
        case IfNode(_, t, e) => FineAccepted(t, inner, names); FineAccepted(e, inner, names);
        case TableNode(_, _, cs, d) =>
          forall k | 0 <= k < |cs| ensures Accepts(cs[k].body, inner, names) {
            FineAccepted(cs[k].body, inner, names);
          }
          FineAccepted(d, inner, names);
      }
    }
  }

  lemma {:induction false} AcceptsAll(body: seq<Node>, visible: set<string>, names: Labels)
    requires forall i :: 0 <= i < |body| ==> AcceptsNode(body[i], visible, names)
    ensures Accepts(body, visible, names)
  {
  }

  lemma {:induction false} Directly(n: Node, body: seq<Node>)
    requires n in body
    ensures Lies(n, [], body)
  {
  }

  lemma {:induction false} FineNode(n: Node, visible: set<string>, names: Labels)
    requires Fine(n, [], visible, names)
    ensures !n.Control? || n.ctl.BrNode? ==> AcceptsNode(n, visible, names)
    ensures n.Control? && !n.ctl.BrNode? ==> names.own(n.id) != "" && names.own(n.id) !in visible
  {
    NoneAround(names);
  }

  lemma {:induction false} BodiesExamined(n: Node)
    requires n.Control? && !n.ctl.BrNode?
    ensures match n.ctl
      case BlockNode(_, b) => Examined(n, b)
      case LoopNode(_, b, _) => Examined(n, b)
      case IfNode(_, t, e) => Examined(n, t) && Examined(n, e)
      case TableNode(_, _, cs, d) => Examined(n, d) && forall k :: 0 <= k < |cs| ==> Examined(n, cs[k].body)
      case BrNode(_) => true
  {
  }

  lemma {:induction false} ExaminedFine(n: Node, body: seq<Node>, visible: set<string>, names: Labels)
    requires n in body
    requires forall m, above :: Lies(m, above, body) ==> Fine(m, above, visible, names)
    ensures forall b, m, above :: Examined(n, b) && Lies(m, above, b) ==>
      Fine(m, above, visible + {names.own(n.id)}, names)
  {
    hide Fine;
    forall b, m, above | Examined(n, b) && Lies(m, above, b)
      ensures Fine(m, above, visible + {names.own(n.id)}, names)
    {
      assert ([n] + above)[0] == n && ([n] + above)[1..] == above;
      assert Lies(m, [n] + above, body);
      FineInside(m, n, above, visible, names);
    }
  }

  lemma {:induction false} FlattenAccepted(body: seq<Node>, visible: set<string>, names: Labels, refs: set<int>)
    requires Accepts(body, visible, names)
    ensures Accepts(Flatten(body, refs), visible, names)
    decreases body, 1
  {
    var b := FlattenEach(body, refs);
    forall i | 0 <= i < |b|
      ensures AcceptsNode(b[i], visible, names)
    {
      FlattenEachAt(body, i, refs);
      FlattenNodeAccepted(body[i], visible, names, refs);
    }
  }

  lemma {:induction false} FlattenEachAt(body: seq<Node>, i: nat, refs: set<int>)
    requires i < |body|
    ensures FlattenEach(body, refs)[i] == FlattenNode(body[i], refs)
    decreases |body|
  {
    if i > 0 { FlattenEachAt(body[1..], i - 1, refs); }
  }

  lemma {:induction false} FlattenNodeAccepted(n: Node, visible: set<string>, names: Labels, refs: set<int>)
    requires AcceptsNode(n, visible, names)
    ensures AcceptsNode(FlattenNode(n, refs), visible, names)
    decreases n, 2
  {
    if n.Control? && !n.ctl.BrNode? {
      var inner := visible + {names.own(n.id)};
      match n.ctl {
        case BlockNode(_, b) => FlattenAccepted(b, inner, names, refs);
        case LoopNode(_, b, _) => FlattenAccepted(b, inner, names, refs);
        case IfNode(_, t, e) => FlattenAccepted(t, inner, names, refs); FlattenAccepted(e, inner, names, refs);
        case TableNode(_, _, cs, d) =>
          FlattenAccepted(d, inner, names, refs);
          var r := FlattenCases(cs, refs);
          forall i | 0 <= i < |r| ensures Accepts(r[i].body, inner, names) {
            FlattenAccepted(cs[i].body, inner, names, refs);
          }
      }
    }
  }
}
