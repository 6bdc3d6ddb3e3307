/** The lowerer itself: a control table that grows, a stack of bodies under construction, a loop stack
    and a register counter, all updated in place. Every method is proved against the function of
    module Lowering that says what it writes. */
module LowererState {
  import opened Source
  import opened Structured
  import opened Lowering
  import opened Opening
  import opened ControlIds
  import opened ControlTable
  import opened Threading
  import StatementShape
  import Writing
  import SwitchTable

  predicate IsExit(n: Node) {
    n.Control? && n.ctl.BlockNode? && n.ctl.kind == FunctionExit
  }

  /** A body without the function exit at its end. */
  function Content(b: seq<Node>): (r: seq<Node>)
    ensures r <= b
  {
    if b != [] && IsExit(b[|b| - 1]) then b[..|b| - 1] else b
  }

  /** The last position before the function exit; -1 when there is none. */
  function LastContinuationIndex(b: seq<Node>): int {
    |Content(b)| - 1
  }

  /** Puts a node at the end of a body, but before the function exit. */
  function Insert(b: seq<Node>, n: Node): seq<Node> {
    Content(b) + [n] + b[|Content(b)|..]
  }

  lemma {:induction false} ContentInsert(b: seq<Node>, n: Node)
    requires !IsExit(n)
    ensures Content(Insert(b, n)) == Content(b) + [n]
  {
    if b != [] && IsExit(b[|b| - 1]) {
      assert Insert(b, n)[|b|] == b[|b| - 1];
    } else {
      assert b[|b|..] == [];
    }
  }

  // ----- nodes that are not finished yet -----

  /** Gives the control node `id` of a body, or of a placeholder in it, its contents. */
  function Fill(b: seq<Node>, id: nat, ctl: Ctl): seq<Node> {
    seq(|b|, i requires 0 <= i < |b| => FillNode(b[i], id, ctl))
  }

  function FillNode(n: Node, id: nat, ctl: Ctl): Node {
    if !n.Control? then n
    else if n.id == id && !IsPlaceholder(n) then Control(id, n.stood, ctl)
    else if IsPlaceholder(n) then Control(n.id, n.stood, BlockNode(Placeholder, FillFlat(n.ctl.body, id, ctl)))
    else n
  }

  function FillFlat(b: seq<Node>, id: nat, ctl: Ctl): seq<Node> {
    seq(|b|, i requires 0 <= i < |b| => if b[i].Control? && b[i].id == id then Control(id, b[i].stood, ctl) else b[i])
  }

  /** All IDs that filling looks at are older than `n`. */
  predicate Known(b: seq<Node>, n: nat) {
    forall i :: 0 <= i < |b| && b[i].Control? ==>
      b[i].id < n && (IsPlaceholder(b[i]) ==> KnownFlat(b[i].ctl.body, n))
  }

  predicate KnownFlat(b: seq<Node>, n: nat) {
    forall i :: 0 <= i < |b| && b[i].Control? ==> b[i].id < n
  }

  lemma {:induction false} FillKnown(b: seq<Node>, id: nat, ctl: Ctl)
    requires Known(b, id)
    ensures Fill(b, id, ctl) == b
  {
    forall i | 0 <= i < |b|
      ensures FillNode(b[i], id, ctl) == b[i]
    {
      if b[i].Control? && IsPlaceholder(b[i]) { assert FillFlat(b[i].ctl.body, id, ctl) == b[i].ctl.body; }
    }
  }

  /** A node placed empty and filled later is the node placed full. */
  lemma {:induction false} FillPlaced(b: seq<Node>, id: nat, c0: Ctl, c1: Ctl, rest: seq<Node>)
    requires Known(b, id) && !IsPlaceholder(Control(id, -1, c0))
    requires forall i :: 0 <= i < |rest| ==> rest[i].Control? && rest[i].id > id && rest[i] == Continuation(rest[i].id)
    ensures Fill(Place(b, id, c0) + rest, id, c1) == Place(b, id, c1) + rest
  {
    var p0, p1 := Place(b, id, c0), Place(b, id, c1);
    FillKnown(b, id, c1);
    forall i | 0 <= i < |b| ensures FillNode(b[i], id, c1) == b[i] {
      assert Fill(b, id, c1)[i] == b[i];
    }
    forall i | 0 <= i < |p0| + |rest|
      ensures Fill(p0 + rest, id, c1)[i] == (p1 + rest)[i]
    {
      if i >= |p0| {
        assert FillFlat([], id, c1) == [];
      } else if i < |b| && i < |p0| - 1 {
        assert p0[i] == b[i] == p1[i];
      } else if i < |b| {
        var p := b[i];
        if p.ctl.body != [] {
          assert FillFlat(p.ctl.body + [Control(id, -1, c0)], id, c1) == p.ctl.body + [Control(id, -1, c1)];
        }
      }
    }
  }

  lemma {:induction false} FillAlone(b: seq<Node>, id: nat, c0: Ctl, c1: Ctl)
    requires Known(b, id) && !IsPlaceholder(Control(id, -1, c0))
    ensures Fill(Place(b, id, c0), id, c1) == Place(b, id, c1)
  {
    FillPlaced(b, id, c0, c1, []);
    assert Place(b, id, c0) + [] == Place(b, id, c0);
    assert Place(b, id, c1) + [] == Place(b, id, c1);
  }

  /** The same with the node's continuation behind it. */
  lemma {:induction false} FillIf(b: seq<Node>, id: nat, c0: Ctl, c1: Ctl, cont: nat)
    requires Known(b, id) && !IsPlaceholder(Control(id, -1, c0)) && cont > id
    ensures Fill(Place(b, id, c0) + [Continuation(cont)], id, c1) == Place(b, id, c1) + [Continuation(cont)]
  {
    FillPlaced(b, id, c0, c1, [Continuation(cont)]);
  }

  lemma {:induction false} ContentFill(b: seq<Node>, id: nat, ctl: Ctl)
    requires b != [] && IsExit(b[|b| - 1]) ==> b[|b| - 1].id != id
    requires forall i :: 0 <= i < |b| && b[i].Control? && b[i].id == id ==> !IsExit(Control(id, -1, ctl))
    ensures Content(Fill(b, id, ctl)) == Fill(Content(b), id, ctl)
  {
  }

  // ----- the invariant -----

  /** The function exit is the last node of the bottom body and stands nowhere else. */
  predicate BodyValid(b: seq<Node>, bottom: bool, n: nat) {
    && Known(b, n)
    && (forall i :: 0 <= i < |b| - 1 ==> !IsExit(b[i]))
    && (if bottom then b != [] && b[|b| - 1] == ExitNode() else b != [] ==> !IsExit(b[|b| - 1]))
  }

  predicate StackValid(stack: seq<seq<Node>>, n: nat) {
    && stack != []
    && forall k :: 0 <= k < |stack| ==> BodyValid(stack[k], k == 0, n)
  }

  lemma {:induction false} BodyOlder(b: seq<Node>, bottom: bool, n: nat, m: nat)
    requires BodyValid(b, bottom, n) && n <= m
    ensures BodyValid(b, bottom, m)
  {
  }

  lemma {:induction false} StackOlder(stack: seq<seq<Node>>, n: nat, m: nat)
    requires StackValid(stack, n) && n <= m
    ensures StackValid(stack, m)
  {
    forall k | 0 <= k < |stack| ensures BodyValid(stack[k], k == 0, m) { BodyOlder(stack[k], k == 0, n, m); }
  }

  /** Whether a node may be put into a body. */
  predicate NodeKnown(n: Node, m: nat) {
    !IsExit(n) && (n.Control? ==> n.id < m && (IsPlaceholder(n) ==> KnownFlat(n.ctl.body, m)))
  }

  lemma {:induction false} InsertValid(b: seq<Node>, bottom: bool, n: nat, node: Node)
    requires BodyValid(b, bottom, n) && NodeKnown(node, n)
    ensures BodyValid(Insert(b, node), bottom, n) && Content(Insert(b, node)) == Content(b) + [node]
  {
    ContentInsert(b, node);
    if bottom { assert Insert(b, node) == Content(b) + [node] + [ExitNode()]; }
    else { assert Insert(b, node) == b + [node]; }
  }

  /** Replacing the last node before the function exit. */
  lemma {:induction false} UpdateValid(b: seq<Node>, bottom: bool, n: nat, node: Node)
    requires BodyValid(b, bottom, n) && NodeKnown(node, n) && Content(b) != []
    ensures var k := |Content(b)| - 1;
      BodyValid(b[k := node], bottom, n) && Content(b[k := node]) == Content(b)[..k] + [node]
  {
  }

  lemma {:induction false} BodyOf(stack: seq<seq<Node>>, n: nat, k: nat)
    requires StackValid(stack, n) && k < |stack|
    ensures BodyValid(stack[k], k == 0, n)
  {
  }

  lemma {:induction false} PutValid(stack: seq<seq<Node>>, n: nat, k: nat, b: seq<Node>)
    requires StackValid(stack, n) && k < |stack| && BodyValid(b, k == 0, n)
    ensures StackValid(stack[k := b], n)
  {
  }

  lemma {:induction false} RootBody(stack: seq<seq<Node>>, n: nat)
    requires StackValid(stack, n)
    ensures stack[0] == Content(stack[0]) + [ExitNode()]
  {
    BodyOf(stack, n, 0);
  }

  lemma {:induction false} PushValid(stack: seq<seq<Node>>, n: nat)
    requires StackValid(stack, n)
    ensures StackValid(stack + [[]], n)
  {
    assert BodyValid([], false, n);
  }

  lemma {:induction false} PopValid(stack: seq<seq<Node>>, n: nat)
    requires StackValid(stack, n) && |stack| > 1
    ensures StackValid(stack[..|stack| - 1], n) && Content(stack[|stack| - 1]) == stack[|stack| - 1]
  {
    BodyOf(stack, n, |stack| - 1);
  }

  lemma {:induction false} FillValid(b: seq<Node>, bottom: bool, n: nat, id: nat, ctl: Ctl)
    requires BodyValid(b, bottom, n) && 2 <= id < n && !IsExit(Control(id, -1, ctl)) &&
      !IsPlaceholder(Control(id, -1, ctl))
    ensures BodyValid(Fill(b, id, ctl), bottom, n) && Content(Fill(b, id, ctl)) == Fill(Content(b), id, ctl)
  {
    ContentFill(b, id, ctl);
  }

  lemma {:induction false} ContentKnown(b: seq<Node>, bottom: bool, n: nat)
    requires BodyValid(b, bottom, n)
    ensures Known(Content(b), n)
  {
  }

  /** The loop node does not depend on the body around it. */
  lemma {:induction false} LoopNodeAlone(areaStack: seq<nat>, c: Stmt, l: Build)
    requires c.For?
    ensures LowerLoopNode(areaStack, c, l) == LowerLoopNode(areaStack, c, Build([], l.next, l.regs))
  {
    hide LowerSimple, LowerLoopBody, Place;
  }

  lemma {:induction false} GrownFresh(id: nat, node: Node)
    ensures Grown(Continuation(id), node) == Control(id, -1, BlockNode(Placeholder, [node]))
  {
    var body: seq<Node> := [];
    assert body + [node] == [node];
  }

  lemma {:induction false} BucketsStep(areas: seq<nat>, c: Stmt, v: Value, order: seq<nat>, blockId: nat,
                                       ctx: Option<LoopContext>, l: Build)
    requires c.Switch? && order != []
    ensures var chain := LowerChain(areas, c, v, order[0], 0, blockId, ctx, l);
      var (cases, m) := LowerBuckets(areas, c, v, order[1..], blockId, ctx, Build([], chain.next, chain.regs));
      LowerBuckets(areas, c, v, order, blockId, ctx, l) == ([TableCase(chain.body)] + cases, m)
  {
    hide LowerChain;
  }

  lemma {:induction false} BucketsNone(areas: seq<nat>, c: Stmt, v: Value, blockId: nat, ctx: Option<LoopContext>,
                                       l: Build)
    requires c.Switch?
    ensures LowerBuckets(areas, c, v, [], blockId, ctx, l) == ([], l)
  {
  }

  // ----- what writing does to the table -----

  predicate EndsInPlaceholder(b: seq<Node>) {
    b != [] && IsPlaceholder(b[|b| - 1])
  }

  /** What a fresh placeholder continues: the root before the function exit, otherwise the last control
      node, or nothing. */
  function PredecessorOf(b: seq<Node>): int {
    if b == [] || !b[|b| - 1].Control? then -1 else if IsExit(b[|b| - 1]) then ROOT_ID else b[|b| - 1].id
  }

  /** The table when an instruction has been sent to `b`: a fresh placeholder has a row. */
  function EmitRows(table: seq<Entry>, b: seq<Node>): seq<Entry> {
    if EndsInPlaceholder(Content(b)) then table else ContinuationRows(table, PredecessorOf(b))
  }

  /** The table when a control node has been sent to `b`: what was to lead to the empty placeholder, or to
      the function exit, leads to the node, and the placeholder's row names it. */
  function PlaceRows(table: seq<Entry>, b: seq<Node>): seq<Entry> {
    var c, id, rows := Content(b), |table|, table + [FRESH];
    if EndsInPlaceholder(c) then
      var p := c[|c| - 1];
      if p.ctl.body == [] then TakenBy(NextSet(rows, OfRow(table, p.id), id), p.id, id) else rows
    else if b != [] && IsExit(b[|b| - 1]) then NextSet(rows, ROOT_ID, id)
    else rows
  }

  lemma {:induction false} EmitRowsLater(table: seq<Entry>, b: seq<Node>)
    ensures var rows := EmitRows(table, b);
      Later(table, rows, -1) && (|rows| > |table| ==> HasLinks(rows[|table|], -1, 0, 0))
  {
  }

  lemma {:induction false} PlaceRowsLater(table: seq<Entry>, b: seq<Node>)
    requires OpenEnd(Content(b)) < |table|
    ensures var rows := PlaceRows(table, b);
      |rows| == |table| + 1 && HasLinks(rows[|table|], -1, 0, 0) && Sent(Content(b), table, rows)
  {
  }

  /** The same by cases. */
  lemma {:induction false} PlaceRowsCases(table: seq<Entry>, b: seq<Node>, ctl: Ctl)
    requires Known(Content(b), |table|)
    ensures var c, id, rows := Content(b), |table|, table + [FRESH];
      if EndsInPlaceholder(c) then
        PlaceRows(table, b) ==
          if c[|c| - 1].ctl.body == [] then TakenBy(NextSet(rows, OfRow(rows, c[|c| - 1].id), id), c[|c| - 1].id, id)
            else rows
      else
        PlaceRows(table, b) == (if b != [] && IsExit(b[|b| - 1]) then NextSet(rows, ROOT_ID, id) else rows) &&
        Place(c, id, ctl) == c + [Control(id, -1, ctl)]
  {
    hide TakenBy, NextSet;
    if EndsInPlaceholder(Content(b)) { LastKnown(Content(b), |table|); }
  }

  lemma {:induction false} LastKnown(b: seq<Node>, n: nat)
    requires Known(b, n) && EndsInPlaceholder(b)
    ensures b[|b| - 1].id < n
  {
  }

  lemma {:induction false} KnownEnd(b: seq<Node>, n: nat)
    requires Known(b, n)
    ensures OpenEnd(b) < n
  {
  }

  // ----- the finished constructs -----

  lemma {:induction false} RightAdvances(e: Expr, slot: nat, va: Value, l1: Build, t0: seq<Entry>, t1: seq<Entry>,
                                         b: seq<Node>, t2: seq<Entry>)
    requires e.And? || e.Or?
    requires |t0| == l1.next && Sent(l1.body, t0, t1) && HasLinks(t1[|t0|], -1, 0, 0)
    requires Advances(Point([], t1), Point(b, t2))
    requires var (ctl, r) := LowerRight(e, slot, va, l1);
      |t2| == r.next && ctl == if e.And? then IfNode(va, b, []) else IfNode(va, [], b)
    ensures Advances(Point(l1.body, t0), Point(Place(l1.body, l1.next, LowerRight(e, slot, va, l1).0), t2))
  {
    hide Advances, Later, HasLinks, KeptCtl, CtlUses, LowerRight, Place, OpenEnd, TakenBy;
    AdvancesFresh(t1, b, t2);
    ArmKept(va, b, e.And?, t2);
    RightAdds(e, slot, va, l1);
    PlainAdvances(l1.body, t0, LowerRight(e, slot, va, l1).0, t1, t2);
  }

  lemma {:induction false} BranchAdvances(l: Build, target: int, t0: seq<Entry>, t1: seq<Entry>)
    requires |t0| == l.next && |t1| == l.next + 1 && Sent(l.body, t0, t1) && HasLinks(t1[|t0|], -1, 0, 0)
    ensures Advances(Point(l.body, t0), Point(Jump(l, target).body, t1))
  {
    hide Advances, Later, HasLinks, Place, OpenEnd, TakenBy;
    LaterSame(t1);
    RangeOne(|t1|);
    PlainAdvances(l.body, t0, BrNode(target), t1, t1);
  }

  lemma {:induction false} BranchesAdvance(areas: seq<nat>, c: Stmt, v: Value, l1: Build, ctx: Option<LoopContext>,
                                           t0: seq<Entry>,
                                           t1: seq<Entry>, t2: seq<Entry>, t3: seq<Entry>, t: seq<Node>, e: seq<Node>)
    requires c.If? && |t0| == l1.next && |t1| == l1.next + 2 && Sent(l1.body, t0, t1)
    requires HasLinks(t1[l1.next], -1, l1.next + 1, -1) && HasLinks(t1[l1.next + 1], -1, 0, 0)
    requires Advances(Point([], t1), Point(t, t2)) && Advances(Point([], t2), Point(e, t3))
    requires var tm := LowerStmt(areas, c.thn, Build([], l1.next + 2, l1.regs), ctx);
      var em := LowerStmt(areas, c.els, Build([], tm.next, tm.regs), ctx);
      t == tm.body && e == em.body && |t3| == em.next
    ensures Advances(Point(l1.body, t0),
                     Point(Place(l1.body, l1.next, IfNode(v, t, e)) + [Continuation(l1.next + 1)], t3))
    ensures |t3| > l1.next && HasLinks(t3[l1.next], -1, l1.next + 1, -1)
  {
    hide Advances, Later, HasLinks, Kept, Uses, LowerStmt, Place, OpenEnd, TakenBy;
    var id, ctl := l1.next, IfNode(v, t, e);
    AdvancesFresh(t2, e, t3);
    FreshLater(t1, t, t2, t3);
    LaterLonger(t1, t3);
    LinksLater(t1, t3, id, id + 1, -1);
    BranchesAdd(areas, c, v, l1, ctx);
    RangeOne(id + 1);
    RangeSplit(id + 1, id + 2, |t3|);
    ContinuedAdvances(l1.body, t0, ctl, id + 1, t1, t3);
  }

  lemma {:induction false} PartsKept(t0: seq<Entry>, i: seq<Node>, t1: seq<Entry>, b: seq<Node>, t2: seq<Entry>,
                                     p: seq<Node>, t3: seq<Entry>)
    requires Advances(Point([], t0), Point(i, t1)) && Advances(Point([], t1), Point(b, t2)) &&
      Advances(Point([], t2), Point(p, t3))
    ensures KeptCtl(LoopNode(i, b, p), t3) && Later(t0, t3, -1)
  {
    hide Advances, Later, Kept, Uses;
    AdvancesFresh(t2, p, t3);
    FreshLater(t1, b, t2, t3);
    FreshLater(t0, i, t1, t3);
  }

  lemma {:induction false} ForAdvances(areas: seq<nat>, c: Stmt, l: Build, t0: seq<Entry>, t1: seq<Entry>, loop: Node,
                                       t2: seq<Entry>)
    requires c.For? && |t0| == l.next && |t1| == l.next + 3 && Sent(l.body, t0, t1)
    requires HasLinks(t1[l.next], -1, l.next + 2, -1) && HasLinks(t1[l.next + 1], -1, l.next + 2, l.next + 1)
    requires HasLinks(t1[l.next + 2], -1, 0, 0) && Later(t1, t2, -1)
    requires var (n, m) := LowerLoopNode(areas, c, l); loop == n && |t2| == m.next && KeptCtl(n.ctl, t2)
    ensures Advances(Point(l.body, t0),
                     Point(Place(l.body, l.next, BlockNode(Ordinary, [loop])) + [Continuation(l.next + 2)], t2))
    ensures |t2| > l.next + 1 && HasLinks(t2[l.next], -1, l.next + 2, -1) &&
      HasLinks(t2[l.next + 1], -1, l.next + 2, l.next + 1)
  {
    hide Advances, Later, HasLinks, KeptCtl, CtlUses, Place, OpenEnd, TakenBy;
    var id := l.next;
    LoopIs(areas, c, l);
    LaterLonger(t1, t2);
    LinksLater(t1, t2, id, id + 2, -1);
    LinksLater(t1, t2, id + 1, id + 2, id + 1);
    LoopBlockUses(areas, c, l);
    OneKept(loop, t2);
    ContinuedAdvances(l.body, t0, BlockNode(Ordinary, [loop]), id + 2, t1, t2);
  }

  lemma {:induction false} LoopIs(areas: seq<nat>, c: Stmt, l: Build)
    requires c.For?
    ensures var n := LowerLoopNode(areas, c, l).0; n.Control? && n.id == l.next + 1 && n.stood == -1 && n.ctl.LoopNode?
  {
    hide LowerSimple, LowerLoopBody, Jump;
  }

  lemma {:induction false} OneKept(n: Node, t: seq<Entry>)
    requires n.Control? && KeptRow(n, t) && KeptCtl(n.ctl, t)
    ensures KeptCtl(BlockNode(Ordinary, [n]), t)
  {
    assert KeptNode(n, t);
    assert Kept([n], t);
  }

  lemma {:induction false} TestAdvances(areas: seq<nat>, c: Stmt, v: Value, blockId: nat, ctx: Option<LoopContext>,
                                        l1: Build,
                                        t0: seq<Entry>, sent: seq<Entry>, t1: seq<Entry>, t: seq<Node>, t2: seq<Entry>)
    requires c.For? && |t0| == l1.next && |sent| == l1.next + 1 && Sent(l1.body, t0, sent) &&
      HasLinks(sent[l1.next], -1, 0, 0)
    requires t1 == sent + [FRESH] && Advances(Point([], t1), Point(t, t2))
    requires var m := LowerStmt(areas, c.body, Build([], l1.next + 2, l1.regs), ctx); t == m.body && |t2| == m.next
    ensures var exit := [Control(l1.next + 1, -1, BrNode(blockId))];
      Advances(Point(l1.body, t0), Point(Place(l1.body, l1.next, IfNode(v, t, exit)), t2))
  {
    hide Advances, CtlUses, Kept, LowerStmt, Place, OpenEnd, TakenBy;
    var exit := Control(l1.next + 1, -1, BrNode(blockId));
    AdvancesFresh(t1, t, t2);
    assert Later(sent, t1, -1);
    LaterTrans(sent, t1, t2, -1);
    LinksLater(t1, t2, l1.next + 1, 0, 0);
    OneKept(exit, t2);
    TestUses(areas, c, v, blockId, ctx, l1);
    PlainAdvances(l1.body, t0, IfNode(v, t, [exit]), sent, t2);
  }

  lemma {:induction false} SwitchAdvances(areas: seq<nat>, c: Stmt, v: Value, l1: Build, t0: seq<Entry>, t1: seq<Entry>,
                                          b: seq<Node>, t2: seq<Entry>)
    requires c.Switch? && |t0| == l1.next && |t1| == l1.next + 2 && Sent(l1.body, t0, t1)
    requires HasLinks(t1[l1.next], -1, l1.next + 1, -1) && HasLinks(t1[l1.next + 1], -1, 0, 0)
    requires Advances(Point([], t1), Point(b, t2))
    requires var (body, m) := LowerSwitchBlock(areas, c, v, l1.next, Build([], l1.next + 2, l1.regs));
      b == body && |t2| == m.next
    ensures Advances(Point(l1.body, t0),
                     Point(Place(l1.body, l1.next, BlockNode(Ordinary, b)) + [Continuation(l1.next + 1)], t2))
    ensures |t2| > l1.next && HasLinks(t2[l1.next], -1, l1.next + 1, -1)
  {
    hide Advances, Later, HasLinks, Kept, Uses, LowerSwitchBlock, Place, OpenEnd, TakenBy;
    var id, l := l1.next, Build([], l1.next + 2, l1.regs);
    AdvancesFresh(t1, b, t2);
    LaterLonger(t1, t2);
    LinksLater(t1, t2, id, id + 1, -1);
    SwitchBlockAdds(areas, c, v, id, l);
    RangeOne(id + 1);
    RangeSplit(id + 1, id + 2, |t2|);
    SwitchHoldsNoLoop(areas, c, v, id, l);
    ContinuedAdvances(l1.body, t0, BlockNode(Ordinary, b), id + 1, t1, t2);
  }

  lemma {:induction false} SwitchHoldsNoLoop(areas: seq<nat>, c: Stmt, v: Value, blockId: nat, l: Build)
    requires c.Switch?
    ensures !HoldsLoop(LowerSwitchBlock(areas, c, v, blockId, l).0)
  {
    hide LowerBuckets, LowerDefault, LowerDispatch, Buckets;
  }

  lemma {:induction false} NoCasesKept(v: Value, t: seq<Entry>)
    ensures KeptCtl(TableNode(v, [], [], []), t) && Later(t, t, -1) && -1 !in CaseUses([])
  {
  }

  lemma {:induction false} CaseKept(v: Value, cases: seq<TableCase>, b: seq<Node>, t1: seq<Entry>, t2: seq<Entry>)
    requires KeptCtl(TableNode(v, [], cases, []), t1) && -1 !in CaseUses(cases) && Advances(Point([], t1), Point(b, t2))
    ensures var more := cases + [TableCase(b)];
      Later(t1, t2, -1) && KeptCtl(TableNode(v, [], more, []), t2) && -1 !in CaseUses(more)
  {
    hide Advances, Later, Kept, Uses;
    AdvancesFresh(t1, b, t2);
    NoneUsed();
    KeptCtlLater(TableNode(v, [], cases, []), t1, t2, -1);
    CaseUsesPush(cases, TableCase(b));
  }

  lemma {:induction false} CaseUsesPush(cs: seq<TableCase>, c: TableCase)
    ensures CaseUses(cs + [c]) == CaseUses(cs) + Uses(c.body)
    decreases |cs|
  {
    if cs == [] {
      assert cs + [c] == [c] && [c][1..] == [];
    } else {
      assert (cs + [c])[1..] == cs[1..] + [c];
      CaseUsesPush(cs[1..], c);
    }
  }

  lemma {:induction false} TableAdvances(areas: seq<nat>, c: Stmt, v: Value, x: Value, order: seq<nat>,
                                         targets: seq<int>, blockId: nat,
                                         ctx: Option<LoopContext>, l1: Build, t0: seq<Entry>, t1: seq<Entry>,
                                         cases: seq<TableCase>, t2: seq<Entry>, d: seq<Node>, t3: seq<Entry>)
    requires c.Switch? && |t0| == l1.next && |t1| == l1.next + 1 && Sent(l1.body, t0, t1) &&
      HasLinks(t1[l1.next], -1, 0, 0)
    requires Later(t1, t2, -1) && KeptCtl(TableNode(v, [], cases, []), t2) && Advances(Point([], t2), Point(d, t3))
    requires var (cs, l2) := LowerBuckets(areas, c, v, order, blockId, ctx, Build([], l1.next + 1, l1.regs));
      var dm := LowerDefault(areas, c, blockId, ctx, Build([], l2.next, l2.regs));
      cases == cs && d == dm.body && |t3| == dm.next
    ensures Advances(Point(l1.body, t0), Point(Place(l1.body, l1.next, TableNode(x, targets, cases, d)), t3))
  {
    hide Advances, Later, HasLinks, Kept, Uses, CaseUses, LowerBuckets, LowerDefault, Place, OpenEnd, TakenBy;
    TableUses(areas, c, v, x, order, targets, blockId, ctx, Build([], l1.next + 1, l1.regs));
    AdvancesFresh(t2, d, t3);
    NoneUsed();
    KeptCtlLater(TableNode(v, [], cases, []), t2, t3, -1);
    LaterTrans(t1, t2, t3, -1);
    PlainAdvances(l1.body, t0, TableNode(x, targets, cases, d), t1, t3);
  }

  lemma {:induction false} LinkAdvances(areas: seq<nat>, c: Stmt, v: Value, x: Value, b: nat, i: nat, blockId: nat,
                                        ctx: Option<LoopContext>, l1: Build, t0: seq<Entry>, t1: seq<Entry>,
                                        t: seq<Node>, t2: seq<Entry>, e: seq<Node>, t3: seq<Entry>)
    requires c.Switch? && i < |c.clauses|
    requires |t0| == l1.next && |t1| == l1.next + 1 && Sent(l1.body, t0, t1) && HasLinks(t1[l1.next], -1, 0, 0)
    requires Advances(Point([], t1), Point(t, t2)) && Advances(Point([], t2), Point(e, t3))
    requires var tm := Jump(LowerStmt(areas, c.clauses[i].body, Build([], l1.next + 1, l1.regs), ctx), blockId);
      var em := LowerChain(areas, c, v, b, i + 1, blockId, ctx, Build([], tm.next, tm.regs));
      t == tm.body && e == em.body && |t3| == em.next
    ensures Advances(Point(l1.body, t0), Point(Place(l1.body, l1.next, IfNode(x, t, e)), t3))
  {
    hide Advances, Later, HasLinks, Kept, Uses, LowerStmt, LowerChain, Jump, Place, OpenEnd, TakenBy;
    LinkAdds(areas, c, v, x, b, i, blockId, ctx, l1);
    AdvancesFresh(t2, e, t3);
    FreshLater(t1, t, t2, t3);
    PlainAdvances(l1.body, t0, IfNode(x, t, e), t1, t3);
  }

  /** The finished function and its table. */
  lemma {:induction false} FunctionRecorded(c: Stmt, l0: Build, root: Node, t0: seq<Entry>, t1: seq<Entry>)
    requires l0 == Build([], 2, l0.regs) && root == LowerFunction(c, l0.regs) && TableValid(t1)
    requires t0 == [Entry(EXIT_ID, EXIT_ID, -1, -1, -1), Entry(0, 0, 0, ROOT_ID, -1)]
    requires var body := root.ctl.body[..|root.ctl.body| - 1];
      var l := LowerStmt([], c, l0, None);
      var m := if Ended(c, false, false) then l else Emit(l, ReturnNode(Const(0)));
      body == m.body && |t1| == m.next && Advances(Point([], t0), Point(body, t1))
    ensures Recorded(root, t1)
  {
    hide Advances, LowerStmt, Emit, Uses, Recorded, Kept, StatementShape.Bounded, NodeTargets, Targets, TableValid;
    var l := LowerStmt([], c, l0, None);
    var m := if Ended(c, false, false) then l else Emit(l, ReturnNode(Const(0)));
    StmtAdds([], c, l0, None);
    EmitAdds(l, ReturnNode(Const(0)));
    AddsSame(l);
    AddsTrans(l0, l, m);
    AddsFresh(l0, m);
    AdvancesFresh(t0, m.body, t1);
    FunctionTargets(c, l0, m);
    LinksLater(t0, t1, ROOT_ID, EXIT_ID, -1);
    LinksLater(t0, t1, EXIT_ID, 0, 0);
    RecordedFrom(root, m.body, t1);
  }

  lemma {:induction false} AddsSame(l: Build)
    ensures Adds(l, l)
  {
    AddsNothing(l, l.regs);
    assert l.(regs := l.regs) == l;
  }

  /** A function's branches go to its own nodes or to ID 0. */
  lemma {:induction false} FunctionTargets(c: Stmt, l0: Build, m: Build)
    requires l0 == Build([], 2, l0.regs)
    requires var l := LowerStmt([], c, l0, None);
      m == if Ended(c, false, false) then l else Emit(l, ReturnNode(Const(0)))
    ensures forall t :: t in NodeTargets(Control(ROOT_ID, -1, BlockNode(Ordinary, m.body + [ExitNode()]))) ==>
      0 <= t < m.next
  {
    hide LowerStmt, Emit, Writing.Shaped;
    var l := LowerStmt([], c, l0, None);
    Writing.FreshShaped(l0);
    StatementShape.StmtSound([], c, l0, None, 2);
    Writing.EmitShaped(l, ReturnNode(Const(0)), 2);
    Writing.TargetsPush(m.body, ExitNode());
  }

  /** A comparison with `k`, or-ed to the flag `x`. */
  function WithTest(v: Value, k: Key, x: Value, l: Build): (Value, Build) {
    var m := EmitInstr(l.(regs := l.regs + 1), Compare(l.regs, v, k));
    (Reg(m.regs), EmitInstr(m.(regs := m.regs + 1), Binary(m.regs, OrBool, x, Reg(l.regs))))
  }

  lemma {:induction false} TestsOne(v: Value, keys: seq<Key>, l: Build)
    requires |keys| == 1
    ensures LowerTests(v, keys, l) == (Reg(l.regs), EmitInstr(l.(regs := l.regs + 1), Compare(l.regs, v, keys[0])))
  {
  }

  lemma {:induction false} TestsStep(v: Value, keys: seq<Key>, l: Build)
    requires |keys| > 1
    ensures var (x, m) := LowerTests(v, keys[..|keys| - 1], l);
      LowerTests(v, keys, l) == WithTest(v, keys[|keys| - 1], x, m)
  {
    hide Emit;
  }

  /** The rows after the registered control node `id` has been sent to the body `b`. */
  function PlacedRows(rows: seq<Entry>, b: seq<Node>, id: nat): seq<Entry> {
    var c := Content(b);
    if EndsInPlaceholder(c) then
      var p := c[|c| - 1];
      if p.ctl.body == [] then TakenBy(NextSet(rows, OfRow(rows, p.id), id), p.id, id) else rows
    else if b != [] && IsExit(b[|b| - 1]) then NextSet(rows, ROOT_ID, id)
    else rows
  }

  lemma {:induction false} PlacedAtEnd(b: seq<Node>, id: nat, ctl: Ctl)
    requires !EndsInPlaceholder(b)
    ensures Place(b, id, ctl) == b + [Control(id, -1, ctl)]
  {
  }

  /** What appending a control node to the top body does to the rows. */
  lemma {:induction false} AppendFacts(table: seq<Entry>, stack: seq<seq<Node>>, ctl: Ctl)
    requires StackValid(stack, |table|)
    ensures var b := stack[|stack| - 1];
      var c, id, rows := Content(b), |table|, table + [FRESH];
      && Known(c, id)
      && PlaceRows(table, b) == PlacedRows(rows, b, id)
      && |PlaceRows(table, b)| == id + 1 && HasLinks(PlaceRows(table, b)[id], -1, 0, 0)
      && Sent(c, table, PlaceRows(table, b))
  {
    hide BodyValid, Content, Sent, NextSet, TakenBy, Known, PlaceRows, Place, OfRow, EndsInPlaceholder, HasLinks;
    var top := |stack| - 1;
    ContentKnown(stack[top], top == 0, |table|);
    KnownEnd(Content(stack[top]), |table|);
    PlaceRowsLater(table, stack[top]);
    PlaceRowsCases(table, stack[top], ctl);
  }

  // ----- Next links -----

  /** The bodies under construction without the function exit. */
  function Bodies(stack: seq<seq<Node>>): seq<seq<Node>> {
    seq(|stack|, k requires 0 <= k < |stack| => Content(stack[k]))
  }

  lemma {:induction false} BodiesPut(stack: seq<seq<Node>>, k: nat, b: seq<Node>)
    requires k < |stack|
    ensures Bodies(stack[k := b]) == Bodies(stack)[k := Content(b)]
  {
  }

  lemma {:induction false} BodiesPush(stack: seq<seq<Node>>)
    ensures Bodies(stack + [[]]) == Bodies(stack) + [[]]
  {
  }

  lemma {:induction false} BodiesPop(stack: seq<seq<Node>>)
    requires stack != []
    ensures Bodies(stack[..|stack| - 1]) == Bodies(stack)[..|stack| - 1]
  {
  }

  lemma {:induction false} InitialThreads()
    ensures Threads(Bodies([[ExitNode()]]), [Entry(EXIT_ID, EXIT_ID, -1, -1, -1), Entry(0, 0, 0, ROOT_ID, -1)])
  {
    assert Bodies([[ExitNode()]]) == [[]];
  }

  /** The function exit stands in the bottom body, so that the rows are those of `Threading`. */
  lemma {:induction false} PlaceRowsThread(table: seq<Entry>, b: seq<Node>, bottom: bool)
    requires BodyValid(b, bottom, |table|)
    ensures PlaceRows(table, b) == PlaceThread(table, Content(b), bottom)
  {
    hide TakenBy, NextSet;
    ContentKnown(b, bottom, |table|);
    if EndsInPlaceholder(Content(b)) { LastKnown(Content(b), |table|); }
  }

  /** What a fresh placeholder would continue has no continuation yet. */
  lemma {:induction false} PredecessorFree(stack: seq<seq<Node>>, table: seq<Entry>)
    requires StackValid(stack, |table|) && Threads(Bodies(stack), table)
    requires !EndsInPlaceholder(Content(stack[|stack| - 1]))
    ensures var top := |stack| - 1;
      var p := PredecessorOf(stack[top]);
      && (p > 0 ==> Uncontinued(table, p)) && (p == ROOT_ID ==> top == 0)
      && forall j :: 0 <= j < top && p > 0 ==> EndOf(Bodies(stack)[j]) != p
  {
    hide Threaded, RowsOf, Uncontinued;
    var top := |stack| - 1;
    BodyOf(stack, |table|, top);
    assert EndFree(Bodies(stack)[top], top == 0, table);
    PredecessorEnd(stack[top], top == 0, |table|);
  }

  lemma {:induction false} PredecessorEnd(b: seq<Node>, bottom: bool, n: nat)
    requires BodyValid(b, bottom, n) && !EndsInPlaceholder(Content(b))
    ensures if bottom then PredecessorOf(b) == ROOT_ID else PredecessorOf(b) == EndOf(Content(b))
  {
  }

  /** Sending a control node to the top body keeps the links. */
  lemma {:induction false} AppendThreads(table: seq<Entry>, stack: seq<seq<Node>>, ctl: Ctl)
    requires StackValid(stack, |table|) && TableValid(table) && |table| >= 2 && Threads(Bodies(stack), table)
    requires ctl.BlockNode? ==> ctl.kind == Ordinary
    ensures var top := |stack| - 1;
      var b, t := Content(stack[top]), PlaceRows(table, stack[top]);
      && Threads(Bodies(stack)[top := Place(b, |table|, ctl)], t) && Uncontinued(t, |table|)
      && (forall j :: 0 <= j < top ==> EndOf(Bodies(stack)[j]) != |table|)
      && |t| == |table| + 1
      && if EndsInPlaceholder(b) then
           b[|b| - 1].ctl.body == [] ==>
             var p := b[|b| - 1].id;
             && p < |table| && t[p].replacedBy == |table|
             && (0 <= table[p].of < |table| ==> t[table[p].of].next == |table|)
         else top == 0 ==> t[ROOT_ID].next == |table|
  {
    hide BodyValid, Threads, Uncontinued, EndOf, Place, Content;
    var top := |stack| - 1;
    BodyOf(stack, |table|, top);
    PlaceRowsThread(table, stack[top], top == 0);
    ContentKnown(stack[top], top == 0, |table|);
    PlaceThreads(Bodies(stack), table, ctl);
    if EndsInPlaceholder(Content(stack[top])) { LastKnown(Content(stack[top]), |table|); }
    PlaceLeads(table, Content(stack[top]), top == 0);
  }

  lemma {:induction false} PlaceLeads(table: seq<Entry>, b: seq<Node>, bottom: bool)
    requires |table| >= 2 && LastPlaceholder(b) < |table|
    ensures var t := PlaceThread(table, b, bottom);
      if EndsInPlaceholder(b) then
        b[|b| - 1].ctl.body == [] ==>
          var p := b[|b| - 1].id;
          && t[p].replacedBy == |table|
          && (0 <= table[p].of < |table| ==> t[table[p].of].next == |table|)
      else bottom ==> t[ROOT_ID].next == |table|
  {
  }

  /** A node that had no continuation has just the one that was put behind it. */
  lemma {:induction false} OnlyContinuation(table: seq<Entry>, before: seq<Entry>, id: nat)
    requires table == ContinuationRows(before, id) && id < |before| && Uncontinued(before, id)
    ensures forall i :: 0 <= i < |table| && table[i].of == id ==> i == |before| && Standing(table, i) == i
  {
  }

  /** A loop has no continuation of its own. */
  lemma {:induction false} LoopUncontinued(sent: seq<Entry>, blockId: nat)
    requires TableValid(sent) && blockId < |sent| && Uncontinued(sent, blockId)
    ensures Uncontinued(sent + [FRESH], blockId)
    ensures Uncontinued(ContinuationRows(sent + [FRESH], blockId), |sent|)
  {
    var t := ContinuationRows(sent + [FRESH], blockId);
    forall i | 0 <= i < |t| ensures t[i].of != |sent| {
      assert i < |sent| ==> RowValid(sent[i], i, |sent|);
    }
  }

  lemma {:induction false} LinksUncontinued(table: seq<Entry>, id: nat, next: int, breakTarget: int,
                                            continueTarget: int, other: nat)
    requires id < |table| && Uncontinued(table, other)
    ensures Uncontinued(LinksSet(table, id, next, breakTarget, continueTarget), other)
    ensures forall i :: 0 <= i < |table| ==> LinksSet(table, id, next, breakTarget, continueTarget)[i].of != other
  {
  }

  lemma {:induction false} EndOfNothing()
    ensures EndOf([]) == -1
  {
  }

  lemma {:induction false} GrowThreads(bodies: seq<seq<Node>>, table: seq<Entry>, b: seq<Node>, node: Node)
    requires bodies != [] && b == bodies[|bodies| - 1] && b != [] && IsPlaceholder(b[|b| - 1])
    ensures var after := bodies[|bodies| - 1 := b[..|b| - 1] + [Grown(b[|b| - 1], node)]];
      Threads(bodies, table) ==> Threads(after, table)
  {
    hide Threads;
    GrownTops(b, node);
    if Threads(bodies, table) {
      TopsThreads(bodies, table, |bodies| - 1, b[..|b| - 1] + [Grown(b[|b| - 1], node)]);
    }
  }

  lemma {:induction false} GrowKnown(stack: seq<seq<Node>>, n: nat, node: Node)
    requires StackValid(stack, n) && (node.Control? ==> node.id < n)
    ensures var b := Content(stack[|stack| - 1]);
      b != [] && IsPlaceholder(b[|b| - 1]) ==> NodeKnown(Grown(b[|b| - 1], node), n)
  {
    hide BodyValid, Content;
    var b := Content(stack[|stack| - 1]);
    BodyOf(stack, n, |stack| - 1);
    ContentKnown(stack[|stack| - 1], |stack| == 1, n);
    if b != [] && IsPlaceholder(b[|b| - 1]) {
      assert KnownFlat(b[|b| - 1].ctl.body + [node], n);
    }
  }

  lemma {:induction false} RootThreaded(stack: seq<seq<Node>>, table: seq<Entry>)
    requires StackValid(stack, |table|) && Threads(Bodies(stack), table)
    ensures Threaded(stack[0][..|stack[0]| - 1], table)
  {
    hide Threaded;
    RootBody(stack, |table|);
    assert Bodies(stack)[0] == Content(stack[0]) == stack[0][..|stack[0]| - 1];
  }

  lemma {:induction false} FillTops(b: seq<Node>, id: nat, ctl: Ctl)
    requires !IsPlaceholder(Control(id, -1, ctl))
    ensures SameTops(b, Fill(b, id, ctl))
  {
  }

  lemma {:induction false} GrownTops(b: seq<Node>, node: Node)
    requires b != [] && IsPlaceholder(b[|b| - 1])
    ensures SameTops(b, b[..|b| - 1] + [Grown(b[|b| - 1], node)])
  {
  }

  // ----- the state -----

  class Lowerer {
    var table: seq<Entry>
    var stack: seq<seq<Node>>
    var loops: seq<LoopContext>
    var areaStack: seq<nat>
    var regs: nat
    var ended: bool

    /** Table and bodies fit together row by row. */
    ghost predicate Framed()
      reads `table, `stack
      ensures Framed() ==> stack != [] && |table| >= 2
    {
      stack != [] && |table| >= 2 && TableValid(table) && StackValid(stack, |table|)
    }

    /** The Next links are those of the bodies, too. */
    ghost predicate Valid()
      reads `table, `stack
      ensures Valid() ==> stack != [] && |table| >= 2
    {
      Framed() && Threads(Bodies(stack), table)
    }

    /** The state in the terms of module Lowering: the top body without the function exit. */
    ghost function Top(): Build
      reads `table, `stack, `regs
      requires stack != []
    {
      Build(Content(stack[|stack| - 1]), |table|, regs)
    }

    /** The top body and the table. */
    ghost function Here(): Point
      reads `table, `stack
      requires stack != []
    {
      Point(Content(stack[|stack| - 1]), table)
    }

    /** The bodies below the top one. */
    ghost function Below(): seq<seq<Node>>
      reads `stack
      requires stack != []
    {
      stack[..|stack| - 1]
    }

    constructor ()
      ensures Valid() && Top() == Build([], 2, 0) && Below() == [] && loops == [] && areaStack == [] && !ended
      ensures table == [Entry(EXIT_ID, EXIT_ID, -1, -1, -1), Entry(0, 0, 0, ROOT_ID, -1)]
    {
      table := [FRESH.(next := EXIT_ID, breakTarget := EXIT_ID, continueTarget := -1), FRESH.(of := ROOT_ID)];
      stack := [[ExitNode()]];
      loops := [];
      areaStack := [];
      regs := 0;
      ended := false;
      new;
      InitialThreads();
    }

    // ----- the control table -----

    method Register() returns (id: nat)
      requires Valid()
      modifies `table
      ensures Valid() && id == |old(table)| && table == old(table) + [FRESH]
    {
      hide StackValid, Threads;
      FreshThreads(Bodies(stack), table);
      id := |table|;
      StackOlder(stack, |table|, |table| + 1);
      table := table + [FRESH];
    }

    method SetLinks(id: nat, next: int, breakTarget: int, continueTarget: int)
      requires Framed() && id < |table|
      requires -1 <= next < |table| && -1 <= breakTarget < |table| && -1 <= continueTarget < |table|
      modifies `table
      ensures Framed() && table == LinksSet(old(table), id, next, breakTarget, continueTarget)
    {
      hide StackValid;
      table := table[id := table[id].(next := next, breakTarget := breakTarget, continueTarget := continueTarget)];
    }

    /** The ID that control reaches after `id`, if there is such a row. */
    method SetNext(id: int, next: int)
      requires Framed() && -1 <= id < |table| && -1 <= next < |table|
      modifies `table
      ensures Framed() && table == NextSet(old(table), id, next)
      ensures id >= 0 ==> table[id].next == next
    {
      if id >= 0 {
        SetLinks(id, next, table[id].breakTarget, table[id].continueTarget);
      }
    }

    // ----- writing -----

    /** Puts an empty placeholder after `predecessor`, which has none yet, at the end of body `k`. */
    method AppendContinuationAfter(k: nat, predecessor: int) returns (id: nat)
      requires Valid() && k < |stack| && -1 <= predecessor < |table|
      requires (predecessor > 0 ==> Uncontinued(table, predecessor)) && (predecessor == ROOT_ID ==> k == 0)
      requires forall j :: 0 <= j < |stack| && j != k && predecessor > 0 ==> EndOf(Bodies(stack)[j]) != predecessor
      modifies `table, `stack
      ensures Valid() && id == |old(table)| && table == ContinuationRows(old(table), predecessor)
      ensures table[id].of == predecessor && (predecessor >= 0 ==> table[predecessor].next == id)
      ensures |stack| == |old(stack)| && stack == old(stack)[k := stack[k]]
      ensures Content(stack[k]) == Content(old(stack)[k]) + [Continuation(id)]
    {
      hide StackValid, BodyValid, Insert, Content, Threads;
      ghost var bodies := Bodies(stack);
      ContinuationThreads(bodies, table, k, predecessor);
      id := Register();
      table := table[id := table[id].(of := predecessor)];
      SetNext(predecessor, id);
      assert BodyValid(stack[k], k == 0, |table|) by { BodyOf(stack, |table|, k); }
      InsertValid(stack[k], k == 0, |table|, Continuation(id));
      PutValid(stack, |table|, k, Insert(stack[k], Continuation(id)));
      BodiesPut(stack, k, Insert(stack[k], Continuation(id)));
      stack := stack[k := Insert(stack[k], Continuation(id))];
      assert Bodies(stack) == bodies[k := bodies[k] + [Continuation(id)]];
      assert table == ContinuationRows(old(table), predecessor);
    }

    /** Whether the top body has an open placeholder before the function exit. */
    ghost predicate PlaceholderOpen()
      reads `table, `stack, `regs
      requires stack != []
    {
      Top().body != [] && IsPlaceholder(Top().body[|Top().body| - 1])
    }

    /** Replaces the last node before the function exit of the top body. */
    method ReplaceLast(node: Node)
      requires Framed() && Top().body != [] && NodeKnown(node, |table|)
      modifies `stack
      ensures Framed() && Below() == old(Below())
      ensures Top() == old(Top()).(body := old(Top()).body[..|old(Top()).body| - 1] + [node])
      ensures Bodies(stack) == Bodies(old(stack))[|stack| - 1 := Top().body]
    {
      hide StackValid, BodyValid, NodeKnown, Content;
      var top := |stack| - 1;
      var b := stack[top];
      var idx := LastContinuationIndex(b);
      BodiesPut(stack, top, b[idx := node]);
      BodyOf(stack, |table|, top);
      UpdateValid(b, top == 0, |table|, node);
      PutValid(stack, |table|, top, b[idx := node]);
      stack := stack[top := b[idx := node]];
    }

    /** Sends a node into the open placeholder. */
    method Grow(node: Node)
      requires Framed() && PlaceholderOpen() && (node.Control? ==> node.id < |table|)
      modifies `stack
      ensures Framed() && (old(Valid()) ==> Valid()) && Below() == old(Below())
      ensures var b := old(Top()).body;
        Top() == old(Top()).(body := b[..|b| - 1] + [Grown(b[|b| - 1], node)])
    {
      hide StackValid, BodyValid, Content, Threads;
      ghost var b := Top().body;
      GrowThreads(Bodies(stack), table, b, node);
      GrowKnown(stack, |table|, node);
      var top := stack[|stack| - 1];
      ReplaceLast(Grown(top[LastContinuationIndex(top)], node));
    }

    /** Sends an instruction or a return to the top body: to its open placeholder, or to a fresh one
        that continues the last control node. */
    method EmitNode(node: Node)
      requires Valid() && !node.Control?
      modifies `table, `stack
      ensures Valid() && Below() == old(Below()) && Top() == Emit(old(Top()), node) && |old(table)| <= |table|
      ensures table == EmitRows(old(table), old(stack)[|old(stack)| - 1])
      ensures |table| > |old(table)| ==>
        var p := PredecessorOf(old(stack)[|old(stack)| - 1]);
        table[|old(table)|].of == p && (0 <= p < |old(table)| ==> table[p].next == |old(table)|)
      ensures Advances(old(Here()), Here())
    {
      hide Content, Emit, Advances, Later, HasLinks, EmitRows, TableValid, StackValid, Threads;
      ghost var l := Top();
      EmitRowsLater(table, stack[|stack| - 1]);
      SendNode(node);
      EmitAdvances(l.body, old(table), node, l.regs, table);
    }

    method SendNode(node: Node)
      requires Valid() && !node.Control?
      modifies `table, `stack
      ensures Valid() && Below() == old(Below()) && Top() == Emit(old(Top()), node) && |old(table)| <= |table|
      ensures table == EmitRows(old(table), old(stack)[|old(stack)| - 1])
      ensures |table| > |old(table)| ==>
        var p := PredecessorOf(old(stack)[|old(stack)| - 1]);
        table[|old(table)|].of == p && (0 <= p < |old(table)| ==> table[p].next == |old(table)|)
    {
      hide StackValid, BodyValid, Content, TableValid, ContinuationRows, Threads;
      var top := |stack| - 1;
      var b := stack[top];
      var idx := LastContinuationIndex(b);
      if idx >= 0 && IsPlaceholder(Content(b)[idx]) {
        Grow(node);
      } else {
        SendFresh(node);
      }
    }

    /** The same when there is no open placeholder. */
    method SendFresh(node: Node)
      requires Valid() && !node.Control? && !EndsInPlaceholder(Top().body)
      modifies `table, `stack
      ensures Valid() && Below() == old(Below())
      ensures Top() ==
        Build(old(Top()).body + [Control(|old(table)|, -1, BlockNode(Placeholder, [node]))], |old(table)| + 1, regs)
      ensures table == ContinuationRows(old(table), PredecessorOf(old(stack)[|old(stack)| - 1]))
      ensures var p := PredecessorOf(old(stack)[|old(stack)| - 1]);
        table[|old(table)|].of == p && (0 <= p < |old(table)| ==> table[p].next == |old(table)|)
    {
      hide StackValid, BodyValid, Content, TableValid, ContinuationRows, PredecessorOf, Threads, Uncontinued, EndOf;
      var top := |stack| - 1;
      PredecessorFree(stack, table);
      var predecessor := Predecessor();
      var p := AppendContinuationAfter(top, predecessor);
      assert stack[..top] == old(stack)[..top];
      GrowFresh(old(Top()).body, p, node);
    }

    /** The placeholder that has just been put at the end takes a node in. */
    method GrowFresh(ghost b: seq<Node>, p: nat, node: Node)
      requires Valid() && !node.Control? && Top().body == b + [Continuation(p)]
      modifies `stack
      ensures Valid() && Below() == old(Below())
      ensures Top() == old(Top()).(body := b + [Control(p, -1, BlockNode(Placeholder, [node]))])
    {
      hide StackValid, BodyValid, Content, TableValid, Threads;
      Grow(node);
      GrownFresh(p, node);
    }

    /** What a fresh placeholder continues: the root before the function exit, otherwise the last
        control node, or nothing. */
    method Predecessor() returns (id: int)
      requires Framed()
      ensures id == PredecessorOf(stack[|stack| - 1]) && -1 <= id < |table|
    {
      hide StackValid, Content;
      var b := stack[|stack| - 1];
      BodyOf(stack, |table|, |stack| - 1);
      if b == [] || !b[|b| - 1].Control? {
        id := -1;
      } else if IsExit(b[|b| - 1]) {
        id := ROOT_ID;
      } else {
        id := b[|b| - 1].id;
      }
    }

    method EmitInstruction(i: Instr)
      requires Valid()
      modifies `table, `stack
      ensures Valid() && Below() == old(Below()) && Top() == EmitInstr(old(Top()), i) && |old(table)| <= |table|
      ensures Advances(old(Here()), Here())
    {
      EmitNode(Instruction(i));
    }

    /** Sends an instruction that writes a new register. */
    method Compute(i: Instr)
      requires Valid()
      modifies `table, `stack, `regs
      ensures Valid() && Below() == old(Below()) && regs == old(regs) + 1 && |old(table)| <= |table|
      ensures Top() == EmitInstr(old(Top()).(regs := old(regs) + 1), i)
      ensures Advances(old(Here()), Here())
    {
      hide Valid, Content, Emit, Advances;
      regs := regs + 1;
      EmitInstruction(i);
    }

    /** Sends a control node to the top body and registers it. An empty placeholder gives up its
        place to the node and remembers it; a filled one takes the node in. */
    method AppendNode(ctl: Ctl) returns (id: nat)
      requires Valid() && (ctl.BlockNode? ==> ctl.kind == Ordinary)
      modifies `table, `stack
      ensures Valid() && Below() == old(Below()) && id == |old(table)|
      ensures Top() == Build(Place(old(Top()).body, id, ctl), id + 1, regs)
      ensures Known(old(Top()).body, id)
      ensures table == PlaceRows(old(table), old(stack)[|old(stack)| - 1])
      ensures Sent(old(Top()).body, old(table), table) && HasLinks(table[id], -1, 0, 0)
      ensures var b := old(Top()).body;
        if EndsInPlaceholder(b) then
          b[|b| - 1].ctl.body == [] ==>
            var p := b[|b| - 1].id;
            && p < |old(table)| && table[p].replacedBy == id
            && (0 <= old(table)[p].of < |old(table)| ==> table[old(table)[p].of].next == id)
        else |old(stack)| == 1 ==> table[ROOT_ID].next == id
      ensures Uncontinued(table, id) && forall j :: 0 <= j < |stack| - 1 ==> EndOf(Bodies(stack)[j]) != id
    {
      hide StackValid, BodyValid, Content, TableValid, Sent, Known, PlaceRows, PlacedRows, Place, HasLinks, Threads,
           Uncontinued, EndOf, PlaceThread;
      AppendFacts(table, stack, ctl);
      AppendThreads(table, stack, ctl);
      ghost var bodies := Bodies(stack);
      id := Register();
      SendControl(id, ctl);
      assert Bodies(stack) == bodies[|stack| - 1 := Top().body];
    }

    /** Sends a registered control node to the top body. */
    method SendControl(id: nat, ctl: Ctl)
      requires Framed() && (ctl.BlockNode? ==> ctl.kind == Ordinary) && id < |table| && Known(Top().body, id)
      modifies `table, `stack
      ensures Framed() && Below() == old(Below()) && Top() == old(Top()).(body := Place(old(Top()).body, id, ctl))
      ensures table == PlacedRows(old(table), old(stack)[|old(stack)| - 1], id)
    {
      hide StackValid, BodyValid, Content, TableValid, NextSet, TakenBy, Known, Place, OfRow, EndsInPlaceholder;
      if EndsInPlaceholder(Content(stack[|stack| - 1])) {
        LastKnown(Content(stack[|stack| - 1]), id);
        AppendAtPlaceholder(id, ctl);
      } else {
        PlacedAtEnd(Content(stack[|stack| - 1]), id, ctl);
        InsertControl(id, ctl);
      }
    }

    /** Sends a registered control node to the placeholder at the end of the top body. */
    method AppendAtPlaceholder(id: nat, ctl: Ctl)
      requires Framed() && (ctl.BlockNode? ==> ctl.kind == Ordinary) && id < |table|
      requires EndsInPlaceholder(Top().body) && Top().body[|Top().body| - 1].id < id
      modifies `table, `stack
      ensures Framed() && Below() == old(Below()) && Top() == old(Top()).(body := Place(old(Top()).body, id, ctl))
      ensures var p := old(Top()).body[|old(Top()).body| - 1];
        table == if p.ctl.body == [] then TakenBy(NextSet(old(table), OfRow(old(table), p.id), id), p.id, id)
          else old(table)
    {
      hide StackValid, BodyValid, Content, TableValid, NextSet, TakenBy, Known;
      var b := stack[|stack| - 1];
      var p := Content(b)[LastContinuationIndex(b)];
      if p.ctl.body == [] {
        TakePlace(p.id, id, ctl);
      } else {
        Grow(Control(id, -1, ctl));
      }
    }

    /** Puts a registered node at the end of the top body; the root leads to it when it stands before the
        function exit. */
    method InsertControl(id: nat, ctl: Ctl)
      requires Framed() && id < |table| && NodeKnown(Control(id, -1, ctl), |table|)
      modifies `table, `stack
      ensures Framed() && Below() == old(Below())
      ensures Top() == old(Top()).(body := old(Top()).body + [Control(id, -1, ctl)])
      ensures var b := old(stack)[|old(stack)| - 1];
        table == if b != [] && IsExit(b[|b| - 1]) then NextSet(old(table), ROOT_ID, id) else old(table)
    {
      hide StackValid, BodyValid, Content, TableValid, NodeKnown;
      var b := stack[|stack| - 1];
      if b != [] && IsExit(b[|b| - 1]) {
        SetNext(ROOT_ID, id);
      }
      InsertTop(Control(id, -1, ctl));
    }

    /** Puts a registered node in the place of the empty placeholder `p` at the end of the top body. */
    method TakePlace(p: nat, id: nat, ctl: Ctl)
      requires Framed() && p < id < |table| && NodeKnown(Control(id, p, ctl), |table|) && Top().body != []
      modifies `table, `stack
      ensures Framed() && Below() == old(Below()) && |table| == |old(table)|
      ensures Top() == old(Top()).(body := old(Top()).body[..|old(Top()).body| - 1] + [Control(id, p, ctl)])
      ensures table == TakenBy(NextSet(old(table), old(table)[p].of, id), p, id)
      ensures table[p].replacedBy == id && (old(table)[p].of >= 0 ==> table[old(table)[p].of].next == id)
    {
      hide StackValid, BodyValid, Content, NodeKnown;
      SetNext(table[p].of, id);
      SetReplaced(p, id);
      ReplaceLast(Control(id, p, ctl));
    }

    method SetReplaced(p: nat, id: nat)
      requires Framed() && p < id < |table|
      modifies `table
      ensures Framed() && table == TakenBy(old(table), p, id) && table[p].replacedBy == id
    {
      hide StackValid;
      table := table[p := table[p].(replacedBy := id)];
    }

    method InsertTop(node: Node)
      requires Framed() && NodeKnown(node, |table|)
      modifies `stack
      ensures Framed() && Below() == old(Below()) && Top() == old(Top()).(body := old(Top()).body + [node])
    {
      hide StackValid, BodyValid, NodeKnown, Insert, Content;
      var top := |stack| - 1;
      BodyOf(stack, |table|, top);
      InsertValid(stack[top], top == 0, |table|, node);
      PutValid(stack, |table|, top, Insert(stack[top], node));
      stack := stack[top := Insert(stack[top], node)];
    }

    /** Fills in a control node of the top body whose own bodies are finished. */
    method Complete(id: nat, ctl: Ctl)
      requires Valid() && 2 <= id < |table| && (ctl.BlockNode? ==> ctl.kind == Ordinary)
      modifies `stack
      ensures Valid() && Below() == old(Below()) && Top() == old(Top()).(body := Fill(old(Top()).body, id, ctl))
    {
      hide StackValid, BodyValid, Fill, Content, Threads;
      var top := |stack| - 1;
      BodyOf(stack, |table|, top);
      FillValid(stack[top], top == 0, |table|, id, ctl);
      FillTops(Content(stack[top]), id, ctl);
      TopsThreads(Bodies(stack), table, top, Fill(Content(stack[top]), id, ctl));
      BodiesPut(stack, top, Fill(stack[top], id, ctl));
      PutValid(stack, |table|, top, Fill(stack[top], id, ctl));
      stack := stack[top := Fill(stack[top], id, ctl)];
    }

    method PushBody()
      requires Valid()
      modifies `stack
      ensures Valid() && Below() == old(stack) && Top() == old(Top()).(body := [])
    {
      hide StackValid, Threads;
      PushValid(stack, |table|);
      PushThreads(Bodies(stack), table);
      BodiesPush(stack);
      stack := stack + [[]];
    }

    method PopBody() returns (b: seq<Node>)
      requires Valid() && |stack| > 1
      modifies `stack
      ensures Valid() && stack == old(Below()) && b == old(Top()).body
    {
      hide StackValid, Content, Threads;
      PopValid(stack, |table|);
      PopThreads(Bodies(stack), table);
      BodiesPop(stack);
      b := stack[|stack| - 1];
      stack := stack[..|stack| - 1];
    }

    // ----- expressions -----

    method LoadSlot(from: Slot) returns (v: Value)
      requires Valid()
      modifies `table, `stack, `regs
      ensures Valid() && Below() == old(Below()) && (v, Top()) == LoadInto(old(Top()), from) && |old(table)| <= |table|
      ensures Advances(old(Here()), Here())
    {
      hide Valid, Content, Emit, Advances;
      v := Reg(regs);
      Compute(Load(regs, from));
    }

    method LowerExpression(e: Expr) returns (v: Value)
      requires Valid()
      modifies `table, `stack, `regs, `ended
      ensures Valid() && Below() == old(Below()) && (v, Top()) == LowerExpr(e, old(Top())) && |old(table)| <= |table|
      ensures ended == (old(ended) && !HasShortCircuit(e))
      ensures Advances(old(Here()), Here())
      decreases e, 1
    {
      hide Valid, Content, Emit, Place, Advances;
      ghost var start := Here();
      AdvancesSame(start);
      match e {
        case Lit(n) => v := Const(n);
        case Var(x) => v := LoadSlot(Named(x));
        case Bin(op, a, b) =>
          var va := LowerExpression(a);
          ghost var left := Here();
          var vb := LowerExpression(b);
          ghost var right := Here();
          v := Reg(regs);
          Compute(Binary(regs, op, va, vb));
          AdvancesTrans(start, left, right);
          AdvancesTrans(start, right, Here());
        case Call(f, a) =>
          var va := LowerExpression(a);
          ghost var left := Here();
          v := Reg(regs);
          Compute(CallStatic(regs, f, va));
          AdvancesTrans(start, left, Here());
        case And(_, _) => v := LowerLogical(e);
        case Or(_, _) => v := LowerLogical(e);
      }
    }

    method LowerLogical(e: Expr) returns (v: Value)
      requires Valid() && (e.And? || e.Or?)
      modifies `table, `stack, `regs, `ended
      ensures Valid() && Below() == old(Below()) && (v, Top()) == LowerShortCircuit(e, old(Top())) && !ended &&
        |old(table)| <= |table|
      ensures Advances(old(Here()), Here())
      decreases e, 0, 1
    {
      hide Valid, Content, Emit, Place, LowerExpr, LowerRight, Advances;
      ghost var p0 := Here();
      var slot := regs;
      Compute(Alloca(slot));
      ghost var p1 := Here();
      EmitInstruction(StoreTo(Const(if e.And? then 0 else 1), Temp(slot)));
      ghost var p2 := Here();
      AdvancesTrans(p0, p1, p2);
      var va := LowerExpression(e.left);
      ghost var p3 := Here();
      AdvancesTrans(p0, p2, p3);
      LowerRightOperand(e, slot, va);
      ghost var p4 := Here();
      AdvancesTrans(p0, p3, p4);
      v := LoadSlot(Temp(slot));
      AdvancesTrans(p0, p4, Here());
      ended := false;
    }

    /** Writes the `if` on the left operand whose one branch evaluates the right one into the slot. */
    method LowerRightOperand(e: Expr, slot: nat, va: Value)
      requires Valid() && (e.And? || e.Or?)
      modifies `table, `stack, `regs, `ended
      ensures Valid() && Below() == old(Below()) && |old(table)| <= |table|
      ensures var (ctl, m) := LowerRight(e, slot, va, old(Top()));
        Top() == m.(body := Place(old(Top()).body, |old(table)|, ctl))
      ensures Advances(old(Here()), Here())
      decreases e, 0, 0
    {
      hide Valid, Content, Emit, Place, LowerExpr, Fill, Known, Advances, Later, HasLinks, Sent, PlaceRows, Sound,
           EndFree;
      ghost var t0 := table;
      ghost var l1 := Top();
      var id := AppendNode(IfNode(va, [], []));
      ghost var saved, t1 := stack, table;
      PushBody();
      var vb := LowerExpression(e.right);
      ghost var p := Here();
      EmitInstruction(StoreTo(vb, Temp(slot)));
      AdvancesTrans(Point([], t1), p, Here());
      var b := PopBody();
      assert stack == saved;
      var ctl := if e.And? then IfNode(va, b, []) else IfNode(va, [], b);
      FillAlone(l1.body, id, IfNode(va, [], []), ctl);
      Complete(id, ctl);
      RightAdvances(e, slot, va, l1, t0, t1, b, table);
    }

    // ----- statements -----

    method LowerSimpleStmt(c: Simple)
      requires Valid()
      modifies `table, `stack, `regs, `ended
      ensures Valid() && Below() == old(Below()) && Top() == LowerSimple(areaStack, c, old(Top())) &&
        |old(table)| <= |table|
      ensures ended == SimpleEnded(c, old(ended))
      ensures Advances(old(Here()), Here())
    {
      hide Valid, Content, Emit, LowerExpr, Advances;
      ghost var p0 := Here();
      AdvancesSame(p0);
      match c {
        case Nothing =>
        case Assign(x, e) =>
          var v := LowerExpression(e);
          ghost var p1 := Here();
          EmitInstruction(StoreTo(v, Named(x)));
          AdvancesTrans(p0, p1, Here());
        case New(x, e) =>
          var v := LowerExpression(e);
          ghost var p1 := Here();
          Compute(Allocate(areaStack, regs));
          ghost var p2 := Here();
          AdvancesTrans(p0, p1, p2);
          EmitInstruction(StoreTo(v, Named(x)));
          AdvancesTrans(p0, p2, Here());
        case Do(e) => var _ := LowerExpression(e);
      }
    }

    /** The innermost loop or switch, if there is one. */
    function Context(): Option<LoopContext>
      reads `loops
    {
      if loops == [] then None else Some(loops[|loops| - 1])
    }

    method LowerStatement(c: Stmt)
      requires Valid()
      modifies this
      ensures Valid() && Below() == old(Below()) && loops == old(loops) && areaStack == old(areaStack) &&
        |old(table)| <= |table|
      ensures Top() == LowerStmt(areaStack, c, old(Top()), old(Context()))
      ensures ended == Ended(c, old(ended), old(loops) != [])
      ensures Advances(old(Here()), Here())
      decreases c, 1
    {
      hide Valid, Content, Emit, LowerExpr, LowerSimple, LowerFor, LowerSwitch, Place, Advances, BodyValid;
      ghost var start := Here();
      AdvancesSame(start);
      match c {
        case Plain(p) => LowerSimpleStmt(p);
        case Seq(a, b) =>
          LowerStatement(a);
          ghost var middle := Here();
          LowerStatement(b);
          AdvancesTrans(start, middle, Here());
        case If(_, _, _, _) => LowerIfStmt(c);
        case For(_, _, _, _) => LowerForStmt(c);
        case Switch(_, _, _) => LowerSwitchStmt(c);
        case Break =>
          if loops != [] {
            AppendBranch(loops[|loops| - 1].breakTarget);
            ended := true;
          }
        case Continue =>
          if loops != [] {
            AppendBranch(loops[|loops| - 1].continueTarget);
            ended := true;
          }
        case Return(e) =>
          var v := LowerExpression(e);
          ghost var middle := Here();
          Terminate(ReturnNode(v));
          AdvancesTrans(start, middle, Here());
        case Panic(e) =>
          var v := LowerExpression(e);
          ghost var middle := Here();
          EmitInstruction(SetPanic(v));
          ghost var later := Here();
          AdvancesTrans(start, middle, later);
          Terminate(PanicNode(v));
          AdvancesTrans(start, later, Here());
        case Area(_, _) => LowerAreaStmt(c);
      }
    }

    /** Sends a branch. */
    method AppendBranch(target: int)
      requires Valid()
      modifies `table, `stack
      ensures Valid() && Below() == old(Below()) && Top() == Jump(old(Top()), target) && |old(table)| <= |table|
      ensures Advances(old(Here()), Here())
    {
      hide Valid, Content, Place, Advances, Later, HasLinks, Sent, PlaceRows;
      ghost var l, t0 := Top(), table;
      var _ := AppendNode(BrNode(target));
      BranchAdvances(l, target, t0, table);
    }

    /** Leaves the function: all areas are ended, innermost first, and stay on the stack. */
    method Terminate(node: Node)
      requires Valid() && !node.Control?
      modifies `table, `stack, `ended
      ensures Valid() && Below() == old(Below()) && |old(table)| <= |table| && ended
      ensures Top() == Emit(EmitEnds(areaStack, old(Top())), node)
      ensures Advances(old(Here()), Here())
    {
      hide Valid, Content, Emit, Advances;
      ghost var start := Here();
      AdvancesSame(start);
      var i := |areaStack|;
      assert areaStack[..i] == areaStack;
      while i > 0
        invariant 0 <= i <= |areaStack|
        invariant Valid() && Below() == old(Below()) && |old(table)| <= |table|
        invariant Advances(start, Here())
        invariant EmitEnds(areaStack[..i], Top()) == EmitEnds(areaStack, old(Top()))
      {
        i := i - 1;
        assert areaStack[..i + 1][..i] == areaStack[..i];
        ghost var before := Here();
        EmitInstruction(AreaEnd(areaStack[i]));
        AdvancesTrans(start, before, Here());
      }
      ghost var before := Here();
      EmitNode(node);
      AdvancesTrans(start, before, Here());
      ended := true;
    }

    method LowerAreaStmt(c: Stmt)
      requires Valid() && c.Area?
      modifies this
      ensures Valid() && Below() == old(Below()) && loops == old(loops) && areaStack == old(areaStack) &&
        |old(table)| <= |table|
      ensures Top() == LowerStmt(areaStack, c, old(Top()), old(Context()))
      ensures ended == Ended(c, old(ended), old(loops) != [])
      ensures Advances(old(Here()), Here())
      decreases c, 0
    {
      hide Valid, Content, Emit, LowerExpr, LowerAreaBegin, Advances, LowerSimple, LowerFor, LowerSwitch, EmitEnds,
           Place;
      ghost var p0 := Here();
      var area := BeginArea(c.size);
      ghost var p2 := Here();
      areaStack := areaStack + [area];
      LowerStatement(c.body);
      ghost var p3 := Here();
      AdvancesTrans(p0, p2, p3);
      EmitInstruction(AreaEnd(area));
      AdvancesTrans(p0, p3, Here());
      areaStack := areaStack[..|areaStack| - 1];
    }

    /** Opens an area; gives the register that holds its handle. */
    method BeginArea(size: Option<Expr>) returns (area: nat)
      requires Valid()
      modifies `table, `stack, `regs, `ended
      ensures Valid() && Below() == old(Below()) && |old(table)| <= |table|
      ensures (area, Top()) == LowerAreaBegin(areaStack, size, old(Top()))
      ensures ended == (old(ended) && (size.None? || !HasShortCircuit(size.value)))
      ensures Advances(old(Here()), Here())
    {
      hide Valid, Content, Emit, LowerExpr, Advances;
      ghost var p0 := Here();
      var bytes := LowerSize(size);
      ghost var p1 := Here();
      area := regs;
      Compute(AreaBegin(area, bytes, if areaStack == [] then None else Some(areaStack[|areaStack| - 1])));
      AdvancesTrans(p0, p1, Here());
    }

    method LowerSize(size: Option<Expr>) returns (bytes: Option<Value>)
      requires Valid()
      modifies `table, `stack, `regs, `ended
      ensures Valid() && Below() == old(Below()) && (bytes, Top()) == LowerAreaSize(size, old(Top())) &&
        |old(table)| <= |table|
      ensures ended == (old(ended) && (size.None? || !HasShortCircuit(size.value)))
      ensures Advances(old(Here()), Here())
    {
      hide Valid, Content, Emit, LowerExpr, Advances;
      ghost var p0 := Here();
      AdvancesSame(p0);
      bytes := None;
      if size.Some? {
        var v := LowerExpression(size.value);
        ghost var p1 := Here();
        Compute(Binary(regs, Mul, v, Const(1024)));
        AdvancesTrans(p0, p1, Here());
        bytes := Some(Reg(regs - 1));
      }
    }

    /** A body of its own for a statement. */
    method LowerBody(c: Stmt) returns (b: seq<Node>)
      requires Valid()
      modifies this
      ensures Valid() && stack == old(stack) && loops == old(loops) && areaStack == old(areaStack) &&
        |old(table)| <= |table|
      ensures var m := LowerStmt(areaStack, c, old(Scratch()), old(Context()));
        m == Scratch().(body := b)
      ensures Advances(Point([], old(table)), Point(b, table))
      decreases c, 2
    {
      hide Valid, Content, LowerStmt, Advances;
      PushBody();
      LowerStatement(c);
      b := PopBody();
    }

    method LowerIfStmt(c: Stmt)
      requires Valid() && c.If?
      modifies this
      ensures Valid() && Below() == old(Below()) && loops == old(loops) && areaStack == old(areaStack) &&
        |old(table)| <= |table|
      ensures Top() == LowerStmt(areaStack, c, old(Top()), old(Context())) && !ended
      ensures Advances(old(Here()), Here())
      decreases c, 0, 1
    {
      hide Valid, Content, LowerExpr, LowerSimple, Place, Advances;
      ghost var p0 := Here();
      LowerSimpleStmt(c.init);
      ghost var p1 := Here();
      var v := LowerExpression(c.cond);
      ghost var p2 := Here();
      AdvancesTrans(p0, p1, p2);
      LowerBranches(c, v);
      AdvancesTrans(p0, p2, Here());
      ended := false;
    }

    /** Appends a control node with its continuation, to which it is linked. */
    method AppendLinked(ctl: Ctl) returns (id: nat)
      requires Valid() && (ctl.BlockNode? ==> ctl.kind == Ordinary)
      modifies `table, `stack
      ensures Valid() && Below() == old(Below()) && id == |old(table)| && |table| == id + 2
      ensures Top() == Build(Place(old(Top()).body, id, ctl) + [Continuation(id + 1)], id + 2, regs)
      ensures Known(old(Top()).body, id) && Sent(old(Top()).body, old(table), table)
      ensures HasLinks(table[id], -1, id + 1, -1) && HasLinks(table[id + 1], -1, 0, 0)
    {
      hide Framed, Threads, Content, Place, Known, HasLinks, Sent, PlaceRows, ContinuationRows, Uncontinued, EndOf;
      ghost var b := Top().body;
      id := AppendNode(ctl);
      ghost var sent := table;
      var cont := AppendContinuationAfter(|stack| - 1, id);
      OnlyContinuation(table, sent, id);
      LinksThreads(Bodies(stack), table, id, cont, cont, -1);
      SetLinks(id, cont, cont, -1);
      BlockRows(b, old(table), sent, id);
    }

    /** The `if` node on `v`, its continuation, and its two bodies. */
    method LowerBranches(c: Stmt, v: Value)
      requires Valid() && c.If?
      modifies this
      ensures Valid() && Below() == old(Below()) && loops == old(loops) && areaStack == old(areaStack) &&
        |old(table)| <= |table|
      ensures var l1 := old(Top());
        var t := LowerStmt(areaStack, c.thn, Build([], l1.next + 2, l1.regs), old(Context()));
        var e := LowerStmt(areaStack, c.els, Build([], t.next, t.regs), old(Context()));
        Top() == Build(Place(l1.body, l1.next, IfNode(v, t.body, e.body)) + [Continuation(l1.next + 1)], e.next, e.regs)
      ensures |table| > |old(table)| && HasLinks(table[|old(table)|], -1, |old(table)| + 1, -1)
      ensures Advances(old(Here()), Here())
      decreases c, 0, 0
    {
      hide Valid, Content, LowerStmt, Place, Fill, Known, Advances, HasLinks, Sent;
      ghost var t0 := table;
      ghost var l1 := Top();
      var id := AppendLinked(IfNode(v, [], []));
      ghost var t1, cont := table, id + 1;
      var t := LowerBody(c.thn);
      FillIf(l1.body, id, IfNode(v, [], []), IfNode(v, t, []), cont);
      Complete(id, IfNode(v, t, []));
      ghost var t2 := table;
      var e := LowerBody(c.els);
      FillIf(l1.body, id, IfNode(v, t, []), IfNode(v, t, e), cont);
      Complete(id, IfNode(v, t, e));
      BranchesAdvance(areaStack, c, v, l1, Context(), t0, t1, t2, table, t, e);
    }

    /** Appends the block of a loop and its continuation, gives the loop its ID and begins its body. */
    method OpenLoop() returns (blockId: nat)
      requires Valid()
      modifies `table, `stack
      ensures Valid() && blockId == |old(table)| && |table| == blockId + 3
      ensures |stack| == |old(stack)| + 1 && stack[..|stack| - 2] == old(Below()) && Top().body == []
      ensures Content(stack[|stack| - 2]) ==
        Place(old(Top()).body, blockId, BlockNode(Ordinary, [])) + [Continuation(blockId + 2)]
      ensures Known(old(Top()).body, blockId) && Sent(old(Top()).body, old(table), table)
      ensures HasLinks(table[blockId], -1, blockId + 2, -1)
      ensures HasLinks(table[blockId + 1], -1, blockId + 2, blockId + 1) && HasLinks(table[blockId + 2], -1, 0, 0)
    {
      hide StackValid, TableValid, Threads, Content, Place, Known, HasLinks, Sent, PlaceRows, ContinuationRows,
           Uncontinued, EndOf, EndsInPlaceholder;
      ghost var b := Top().body;
      var parent := |stack| - 1;
      blockId := AppendNode(BlockNode(Ordinary, []));
      ghost var sent := table;
      LoopUncontinued(sent, blockId);
      var loopId := Register();
      BodiesPush(stack);
      ghost var bodies := Bodies(stack);
      PushBody();
      ghost var begun := table;
      EndOfNothing();
      assert Bodies(stack) == bodies + [[]];
      assert forall j :: 0 <= j < |stack| && j != parent ==> EndOf(Bodies(stack)[j]) != blockId;
      var contId := AppendContinuationAfter(parent, blockId);
      OnlyContinuation(table, begun, blockId);
      LinkLoop(blockId, loopId, contId);
      LoopRows(b, old(table), sent, blockId);
    }

    /** Links the block of a loop to its continuation, and the loop to it and to itself. */
    method LinkLoop(blockId: nat, loopId: nat, contId: nat)
      requires Valid() && 0 < blockId < |table| && 0 < loopId < |table| && contId < |table|
      requires forall i :: 0 <= i < |table| && table[i].of == blockId ==> contId == Standing(table, i)
      requires table[contId].of == blockId && Uncontinued(table, loopId)
      modifies `table
      ensures Valid()
      ensures var block := LinksSet(old(table), blockId, contId, contId, -1);
        table == LinksSet(block, loopId, contId, contId, loopId)
    {
      hide StackValid, TableValid, Threads, LinksSet;
      LinksThreads(Bodies(stack), table, blockId, contId, contId, -1);
      LinksUncontinued(table, blockId, contId, contId, -1, loopId);
      SetLinks(blockId, contId, contId, -1);
      LinksThreads(Bodies(stack), table, loopId, contId, contId, loopId);
      SetLinks(loopId, contId, contId, loopId);
    }

    method LowerForStmt(c: Stmt)
      requires Valid() && c.For?
      modifies this
      ensures Valid() && Below() == old(Below()) && loops == old(loops) && areaStack == old(areaStack) &&
        |old(table)| <= |table|
      ensures Top() == LowerFor(areaStack, c, old(Top())) && !ended
      ensures |table| > |old(table)| + 1 && HasLinks(table[|old(table)|], -1, |old(table)| + 2, -1)
      ensures HasLinks(table[|old(table)| + 1], -1, |old(table)| + 2, |old(table)| + 1)
      ensures Advances(old(Here()), Here())
      decreases c, 0, 1
    {
      hide Valid, Content, LowerLoopNode, Place, Fill, Known, Advances, Later, HasLinks, Sent, KeptCtl;
      ghost var t0 := table;
      ghost var l := Top();
      var blockId := OpenLoop();
      var loopId, contId := blockId + 1, blockId + 2;
      ghost var t1 := table;
      loops := loops + [LoopContext(contId, loopId)];
      var loop := LowerLoopParts(c, blockId);
      loops := loops[..|loops| - 1];
      LoopNodeAlone(areaStack, c, l);
      FillIf(l.body, blockId, BlockNode(Ordinary, []), BlockNode(Ordinary, [loop]), contId);
      Complete(blockId, BlockNode(Ordinary, [loop]));
      ForAdvances(areaStack, c, l, t0, t1, loop, table);
      ended := false;
    }

    /** The loop node, whose Body is on top and is taken off. */
    method LowerLoopParts(c: Stmt, blockId: nat) returns (loop: Node)
      requires Valid() && c.For? && |stack| > 1 && Top().body == [] && |table| == blockId + 3
      requires Context() == Some(LoopContext(blockId + 2, blockId + 1))
      modifies this
      ensures Valid() && stack == old(Below()) && loops == old(loops) && areaStack == old(areaStack) &&
        |old(table)| <= |table|
      ensures var (n, m) := LowerLoopNode(areaStack, c, Build([], blockId, old(regs)));
        loop == n && |table| == m.next && regs == m.regs
      ensures KeptCtl(loop.ctl, table) && Later(old(table), table, -1)
      decreases c, 0, 0
    {
      hide Valid, Content, LowerSimple, LowerLoopBody, Place, Advances, Later, Kept, Jump;
      ghost var t0 := table;
      var i := LowerSimpleBody(c.init);
      ghost var t1 := table;
      LowerLoop(c, blockId);
      ghost var t2 := table;
      var p := LowerPost(c.post, blockId + 1);
      var b := PopBody();
      loop := Control(blockId + 1, -1, LoopNode(i, b, p));
      PartsKept(t0, i, t1, b, t2, p, table);
    }

    method LowerSimpleBody(c: Simple) returns (b: seq<Node>)
      requires Valid()
      modifies `table, `stack, `regs, `ended
      ensures Valid() && stack == old(stack) && |old(table)| <= |table|
      ensures LowerSimple(areaStack, c, old(Scratch())) == Scratch().(body := b)
      ensures Advances(Point([], old(table)), Point(b, table))
    {
      hide Valid, Content, LowerSimple, Advances;
      PushBody();
      LowerSimpleStmt(c);
      b := PopBody();
    }

    /** Post ends with the branch back to the loop. */
    method LowerPost(c: Simple, loopId: nat) returns (b: seq<Node>)
      requires Valid()
      modifies `table, `stack, `regs, `ended
      ensures Valid() && stack == old(stack) && |old(table)| <= |table|
      ensures Jump(LowerSimple(areaStack, c, old(Scratch())), loopId) == Scratch().(body := b)
      ensures Advances(Point([], old(table)), Point(b, table))
    {
      hide Valid, Content, LowerSimple, Jump, Advances;
      ghost var t0 := table;
      PushBody();
      LowerSimpleStmt(c);
      ghost var p := Here();
      AppendBranch(loopId);
      AdvancesTrans(Point([], t0), p, Here());
      b := PopBody();
    }

    /** Writes the test and the source body into the loop's Body, which is on top. */
    method LowerLoop(c: Stmt, blockId: nat)
      requires Valid() && c.For?
      modifies this
      ensures Valid() && Below() == old(Below()) && loops == old(loops) && areaStack == old(areaStack) &&
        |old(table)| <= |table|
      ensures Top() == LowerLoopBody(areaStack, c, blockId, old(Context()), old(Top()))
      ensures Advances(old(Here()), Here())
      decreases c.body, 3
    {
      hide Valid, Content, Emit, LowerExpr, LowerStmt, Place, Fill, Known, Advances, Later, HasLinks, Sent, PlaceRows;
      ghost var p0 := Here();
      if c.test.None? {
        LowerStatement(c.body);
      } else {
        var v := LowerExpression(c.test.value);
        ghost var p1 := Here();
        LowerTest(c, v, blockId);
        AdvancesTrans(p0, p1, Here());
      }
    }

    /** The test of a loop: the body in one arm, the branch out of the block in the other. */
    method LowerTest(c: Stmt, v: Value, blockId: nat)
      requires Valid() && c.For?
      modifies this
      ensures Valid() && Below() == old(Below()) && loops == old(loops) && areaStack == old(areaStack) &&
        |old(table)| <= |table|
      ensures var l1 := old(Top());
        var t := LowerStmt(areaStack, c.body, Build([], l1.next + 2, l1.regs), old(Context()));
        var exit := [Control(l1.next + 1, -1, BrNode(blockId))];
        Top() == Build(Place(l1.body, l1.next, IfNode(v, t.body, exit)), t.next, t.regs)
      ensures Advances(old(Here()), Here())
      decreases c.body, 3, 0
    {
      hide Valid, Content, Emit, LowerStmt, Place, Fill, Known, Advances, Later, HasLinks, Sent, PlaceRows;
      ghost var l1, t0 := Top(), table;
      var id := AppendNode(IfNode(v, [], []));
      ghost var sent := table;
      var exitId := Register();
      var exit := [Control(exitId, -1, BrNode(blockId))];
      ghost var t1 := table;
      var t := LowerBody(c.body);
      FillAlone(l1.body, id, IfNode(v, [], []), IfNode(v, t, exit));
      Complete(id, IfNode(v, t, exit));
      TestAdvances(areaStack, c, v, blockId, Context(), l1, t0, sent, t1, t, table);
    }

    method LowerSwitchStmt(c: Stmt)
      requires Valid() && c.Switch?
      modifies this
      ensures Valid() && Below() == old(Below()) && loops == old(loops) && areaStack == old(areaStack) &&
        |old(table)| <= |table|
      ensures Top() == LowerSwitch(areaStack, c, old(Top())) && !ended
      ensures Advances(old(Here()), Here())
      decreases c, 0, 5
    {
      hide Valid, Content, Emit, LowerExpr, LowerSwitchBlock, Place, Fill, Known, Advances;
      ghost var p0 := Here();
      var v := LowerExpression(c.value);
      ghost var p1 := Here();
      LowerSwitchNode(c, v);
      AdvancesTrans(p0, p1, Here());
      ended := false;
    }

    /** The switch block on the value `v`, and its continuation. */
    method LowerSwitchNode(c: Stmt, v: Value)
      requires Valid() && c.Switch?
      modifies this
      ensures Valid() && Below() == old(Below()) && loops == old(loops) && areaStack == old(areaStack) &&
        |old(table)| <= |table|
      ensures var l1 := old(Top());
        var (body, m) := LowerSwitchBlock(areaStack, c, v, l1.next, Build([], l1.next + 2, l1.regs));
        Top() == Build(Place(l1.body, l1.next, BlockNode(Ordinary, body)) + [Continuation(l1.next + 1)], m.next, m.regs)
      ensures |table| > |old(table)| && HasLinks(table[|old(table)|], -1, |old(table)| + 1, -1)
      ensures Advances(old(Here()), Here())
      decreases c, 0, 4, 1
    {
      hide Valid, Content, LowerSwitchBlock, Place, Fill, Known, Advances, HasLinks, Sent;
      ghost var l1, t0 := Top(), table;
      var blockId := AppendLinked(BlockNode(Ordinary, []));
      var contId := blockId + 1;
      ghost var t1 := table;
      var b := LowerSwitchContents(c, v, blockId, contId);
      FillIf(l1.body, blockId, BlockNode(Ordinary, []), BlockNode(Ordinary, b), contId);
      Complete(blockId, BlockNode(Ordinary, b));
      SwitchAdvances(areaStack, c, v, l1, t0, t1, b, table);
    }

    /** What stands inside the switch block; `break` leads to the continuation. */
    method LowerSwitchContents(c: Stmt, v: Value, blockId: nat, contId: nat) returns (b: seq<Node>)
      requires Valid() && c.Switch? && contId == blockId + 1
      modifies this
      ensures Valid() && stack == old(stack) && loops == old(loops) && areaStack == old(areaStack) &&
        |old(table)| <= |table|
      ensures var (body, m) := LowerSwitchBlock(areaStack, c, v, blockId, old(Scratch()));
        b == body && |table| == m.next && regs == m.regs
      ensures Advances(Point([], old(table)), Point(b, table))
      decreases c, 0, 4, 0
    {
      hide Valid, Content, LowerSwitchBlock, Advances;
      PushBody();
      loops := loops + [LoopContext(contId, 0)];
      LowerTable(c, v, blockId);
      loops := loops[..|loops| - 1];
      b := PopBody();
    }

    /** Files the keys of all clauses under their buckets and fills the table. */
    method GroupCases(c: Stmt) returns (order: seq<nat>, targets: seq<int>)
      requires c.Switch?
      ensures (order, targets) == Buckets(c)
    {
      hide SwitchTable.Flatten, SwitchTable.BucketOrder, SwitchTable.Target;
      ghost var ks := Keys(c.clauses);
      var size := CountedSize(c);
      order := [];
      SwitchTable.NothingFiled(BucketOf(c));
      for i := 0 to |c.clauses|
        invariant order == SwitchTable.BucketOrder(SwitchTable.Flatten(ks[..i]), BucketOf(c))
      {
        SwitchTable.FlattenStep(ks, i);
        order := FileKeys(c, i, order, SwitchTable.Flatten(ks[..i]));
      }
      assert ks[..|ks|] == ks;
      forall k | 0 <= k < |order| ensures order[k] < size {
        assert order[k] in order;
      }
      targets := TableTargets(order, size);
      assert targets == Buckets(c).1;
    }

    /** The table size from the number of keys. */
    method CountedSize(c: Stmt) returns (size: nat)
      requires c.Switch?
      ensures size == Size(c)
    {
      hide SwitchTable.TableSize;
      ghost var ks := Keys(c.clauses);
      var n := 0;
      for i := 0 to |c.clauses|
        invariant n == |SwitchTable.Flatten(ks[..i])|
      {
        SwitchTable.FlattenStep(ks, i);
        n := n + |c.clauses[i].keys|;
      }
      assert ks[..|ks|] == ks;
      size := SwitchTable.TableSize(n);
    }

    /** Files the keys of clause `i`, after those in `before`. */
    method FileKeys(c: Stmt, i: nat, order: seq<nat>, ghost before: seq<Key>) returns (longer: seq<nat>)
      requires c.Switch? && i < |c.clauses| && order == SwitchTable.BucketOrder(before, BucketOf(c))
      ensures longer == SwitchTable.BucketOrder(before + c.clauses[i].keys, BucketOf(c))
    {
      hide SwitchTable.BucketOrder;
      longer := order;
      var keys := c.clauses[i].keys;
      assert before + keys[..0] == before;
      for j := 0 to |keys|
        invariant longer == SwitchTable.BucketOrder(before + keys[..j], BucketOf(c))
      {
        assert before + keys[..j + 1] == (before + keys[..j]) + [keys[j]];
        SwitchTable.BucketOrderStep(before + keys[..j], keys[j], BucketOf(c));
        var b := BucketOf(c)(keys[j]);
        if b !in longer {
          longer := longer + [b];
        }
      }
      assert keys[..|keys|] == keys;
    }

    /** Slot `b` of the table: the position of the bucket's body, or -1 where no key was filed. */
    method TableTargets(order: seq<nat>, size: nat) returns (targets: seq<int>)
      requires forall k :: 0 <= k < |order| ==> order[k] < size
      requires forall i, j :: 0 <= i < j < |order| ==> order[i] != order[j]
      ensures targets == seq(size, b requires 0 <= b < size => SwitchTable.Target(order, b))
    {
      var t := new int[size](_ => -1);
      for k := 0 to |order|
        invariant forall b :: 0 <= b < size ==> t[b] == SwitchTable.Target(order[..k], b)
      {
        t[order[k]] := k;
        forall b | 0 <= b < size ensures t[b] == SwitchTable.Target(order[..k + 1], b) {
          SwitchTable.TargetStep(order, k, b);
        }
      }
      assert order[..|order|] == order;
      targets := t[..];
    }

    /** Writes the dispatch index and the table into the switch block, which is on top. */
    method LowerTable(c: Stmt, v: Value, blockId: nat)
      requires Valid() && c.Switch? && loops != [] && loops[|loops| - 1] == LoopContext(blockId + 1, 0)
      modifies this
      ensures Valid() && Below() == old(Below()) && loops == old(loops) && areaStack == old(areaStack) &&
        |old(table)| <= |table|
      ensures var (body, m) := LowerSwitchBlock(areaStack, c, v, blockId, old(Top()));
        Top().body == body && |table| == m.next && regs == m.regs
      ensures Advances(old(Here()), Here())
      decreases c, 0, 3
    {
      hide Valid, Content, Emit, LowerBuckets, LowerDefault, LowerDispatch, Buckets, Place, Fill, Known, Advances,
           Later, HasLinks, Sent, PlaceRows, KeptCtl;
      ghost var p0 := Here();
      var order, targets := GroupCases(c);
      var x := LowerIndex(c.text, v, |targets|);
      ghost var l1, p1, t0 := Top(), Here(), table;
      var id := AppendNode(TableNode(x, targets, [], []));
      ghost var t1 := table;
      var cases := LowerAllBuckets(c, v, order, blockId);
      ghost var t2 := table;
      var d := LowerDefaultBody(c, blockId);
      FillAlone(l1.body, id, TableNode(x, targets, [], []), TableNode(x, targets, cases, d));
      Complete(id, TableNode(x, targets, cases, d));
      TableAdvances(areaStack, c, v, x, order, targets, blockId, Context(), l1, t0, t1, cases, t2, d, table);
      AdvancesTrans(p0, p1, Here());
    }

    method LowerIndex(text: bool, v: Value, size: nat) returns (x: Value)
      requires Valid()
      modifies `table, `stack, `regs
      ensures Valid() && Below() == old(Below()) && (x, Top()) == LowerDispatch(text, v, size, old(Top())) &&
        |old(table)| <= |table|
      ensures Advances(old(Here()), Here())
    {
      hide Valid, Content, Emit, Advances;
      ghost var p0 := Here();
      AdvancesSame(p0);
      var h := v;
      if text {
        Compute(HashText(regs, v));
        h := Reg(regs - 1);
      }
      ghost var p1 := Here();
      Compute(CastUnsigned(regs, h));
      ghost var p2 := Here();
      AdvancesTrans(p0, p1, p2);
      Compute(RemUnsigned(regs, Reg(regs - 1), size));
      AdvancesTrans(p0, p2, Here());
      x := Reg(regs - 1);
    }

    method LowerAllBuckets(c: Stmt, v: Value, order: seq<nat>, blockId: nat) returns (cases: seq<TableCase>)
      requires Valid() && c.Switch?
      modifies this
      ensures Valid() && stack == old(stack) && loops == old(loops) && areaStack == old(areaStack) &&
        |old(table)| <= |table|
      ensures LowerBuckets(areaStack, c, v, order, blockId, old(Context()), old(Scratch())) == (cases, Scratch())
      ensures Later(old(table), table, -1) && KeptCtl(TableNode(v, [], cases, []), table)
      decreases c, 0, 2
    {
      hide Valid, Content, LowerChain, LowerBuckets, Advances, Later, KeptCtl, CaseUses;
      NoCasesKept(v, table);
      cases := [];
      ghost var all := LowerBuckets(areaStack, c, v, order, blockId, Context(), Scratch());
      assert order[0..] == order && cases + all.0 == all.0;
      for i := 0 to |order|
        invariant Valid() && stack == old(stack) && loops == old(loops) && areaStack == old(areaStack) &&
          |old(table)| <= |table|
        invariant Later(old(table), table, -1) && KeptCtl(TableNode(v, [], cases, []), table) && -1 !in CaseUses(cases)
        invariant var (rest, m) := LowerBuckets(areaStack, c, v, order[i..], blockId, Context(), Scratch());
          all == (cases + rest, m)
      {
        assert order[i..][0] == order[i] && order[i..][1..] == order[i + 1..];
        ghost var before, t1 := Scratch(), table;
        PushBody();
        LowerChainFrom(c, v, order[i], 0, blockId);
        var b := PopBody();
        ghost var (rest, m) := LowerBuckets(areaStack, c, v, order[i + 1..], blockId, Context(), Scratch());
        BucketsStep(areaStack, c, v, order[i..], blockId, Context(), before);
        assert cases + ([TableCase(b)] + rest) == (cases + [TableCase(b)]) + rest;
        CaseKept(v, cases, b, t1, table);
        LaterTrans(old(table), t1, table, -1);
        cases := cases + [TableCase(b)];
      }
      assert cases + [] == cases;
      BucketsNone(areaStack, c, v, blockId, Context(), Scratch());
    }

    /** A body from scratch at this point. */
    ghost function Scratch(): Build
      reads `table, `regs
    {
      Build([], |table|, regs)
    }

    /** Writes the tests of the clauses from `i` on that have keys in bucket `b`; the rest of the
        chain goes into the Else of the first of them. */
    method LowerChainFrom(c: Stmt, v: Value, b: nat, i: nat, blockId: nat)
      requires Valid() && c.Switch? && i <= |c.clauses|
      modifies this
      ensures Valid() && Below() == old(Below()) && loops == old(loops) && areaStack == old(areaStack) &&
        |old(table)| <= |table|
      ensures Top() == LowerChain(areaStack, c, v, b, i, blockId, old(Context()), old(Top()))
      ensures Advances(old(Here()), Here())
      decreases c, 0, 1, 2 * (|c.clauses| - i) + 1
    {
      hide Valid, Content, LowerStmt, LowerTests, Place, Jump, Advances;
      ghost var p0 := Here();
      if i == |c.clauses| {
        LowerDefaultClause(c, blockId);
      } else {
        var keys := BucketKeys(c, b, i);
        if keys == [] {
          LowerChainFrom(c, v, b, i + 1, blockId);
        } else {
          var x := LowerKeyTests(v, keys);
          ghost var p1 := Here();
          LowerLink(c, v, b, i, blockId, x);
          AdvancesTrans(p0, p1, Here());
        }
      }
    }

    /** The `if` on the tests `x` of clause `i`, and the rest of the chain in its Else. */
    method LowerLink(c: Stmt, v: Value, b: nat, i: nat, blockId: nat, x: Value)
      requires Valid() && c.Switch? && i < |c.clauses|
      modifies this
      ensures Valid() && Below() == old(Below()) && loops == old(loops) && areaStack == old(areaStack) &&
        |old(table)| <= |table|
      ensures var l1 := old(Top());
        var t := Jump(LowerStmt(areaStack, c.clauses[i].body, Build([], l1.next + 1, l1.regs), old(Context())),
                      blockId);
        var e := LowerChain(areaStack, c, v, b, i + 1, blockId, old(Context()), Build([], t.next, t.regs));
        Top() == Build(Place(l1.body, l1.next, IfNode(x, t.body, e.body)), e.next, e.regs)
      ensures Advances(old(Here()), Here())
      decreases c, 0, 1, 2 * (|c.clauses| - i)
    {
      hide Valid, Content, LowerStmt, LowerTests, LowerChain, Place, Fill, Known, Jump, Advances, Later, HasLinks,
           Sent, PlaceRows;
      ghost var t0 := table;
      ghost var l1 := Top();
      var id := AppendNode(IfNode(x, [], []));
      ghost var saved, t1 := stack, table;
      var t := LowerClause(c.clauses[i].body, blockId);
      ghost var t2 := table;
      PushBody();
      LowerChainFrom(c, v, b, i + 1, blockId);
      var e := PopBody();
      assert stack == saved;
      FillAlone(l1.body, id, IfNode(x, [], []), IfNode(x, t, e));
      Complete(id, IfNode(x, t, e));
      LinkAdvances(areaStack, c, v, x, b, i, blockId, Context(), l1, t0, t1, t, t2, e, table);
    }

    /** The body of a clause, with the branch out of the switch behind it. */
    method LowerClause(body: Stmt, blockId: nat) returns (b: seq<Node>)
      requires Valid()
      modifies this
      ensures Valid() && stack == old(stack) && loops == old(loops) && areaStack == old(areaStack) &&
        |old(table)| <= |table|
      ensures Jump(LowerStmt(areaStack, body, old(Scratch()), old(Context())), blockId) == Scratch().(body := b)
      ensures Advances(Point([], old(table)), Point(b, table))
      decreases body, 2
    {
      hide Valid, Content, LowerStmt, Jump, Advances;
      ghost var t0 := table;
      PushBody();
      LowerStatement(body);
      ghost var p := Here();
      AppendBranch(blockId);
      AdvancesTrans(Point([], t0), p, Here());
      b := PopBody();
    }

    /** Compares the switch value with one key after the other. */
    method LowerKeyTests(v: Value, keys: seq<Key>) returns (x: Value)
      requires Valid() && keys != []
      modifies `table, `stack, `regs
      ensures Valid() && Below() == old(Below()) && (x, Top()) == LowerTests(v, keys, old(Top())) &&
        |old(table)| <= |table|
      ensures Advances(old(Here()), Here())
    {
      hide Valid, Content, Emit, Advances, LowerTests;
      ghost var p0 := Here();
      x := Reg(regs);
      TestsOne(v, keys[..1], Top());
      Compute(Compare(regs, v, keys[0]));
      for j := 1 to |keys|
        invariant Valid() && Below() == old(Below()) && |old(table)| <= |table|
        invariant Advances(p0, Here())
        invariant (x, Top()) == LowerTests(v, keys[..j], old(Top()))
      {
        assert keys[..j + 1][..j] == keys[..j];
        TestsStep(v, keys[..j + 1], old(Top()));
        ghost var p1 := Here();
        x := OrTest(v, keys[j], x);
        AdvancesTrans(p0, p1, Here());
      }
      assert keys[..|keys|] == keys;
    }

    /** One more comparison, or-ed to the ones before. */
    method OrTest(v: Value, k: Key, x: Value) returns (y: Value)
      requires Valid()
      modifies `table, `stack, `regs
      ensures Valid() && Below() == old(Below()) && |old(table)| <= |table|
      ensures (y, Top()) == WithTest(v, k, x, old(Top()))
      ensures Advances(old(Here()), Here())
    {
      hide Valid, Content, Emit, Advances;
      ghost var p0 := Here();
      Compute(Compare(regs, v, k));
      ghost var p1 := Here();
      Compute(Binary(regs, OrBool, x, Reg(regs - 1)));
      AdvancesTrans(p0, p1, Here());
      y := Reg(regs - 1);
    }

    /** The body of the default, on its own. */
    method LowerDefaultBody(c: Stmt, blockId: nat) returns (d: seq<Node>)
      requires Valid() && c.Switch?
      modifies this
      ensures Valid() && stack == old(stack) && loops == old(loops) && areaStack == old(areaStack) &&
        |old(table)| <= |table|
      ensures LowerDefault(areaStack, c, blockId, old(Context()), old(Scratch())) == Scratch().(body := d)
      ensures Advances(Point([], old(table)), Point(d, table))
      decreases c, 0, 0, 1
    {
      hide Valid, Content, LowerDefault, Advances;
      PushBody();
      LowerDefaultClause(c, blockId);
      d := PopBody();
    }

    method LowerDefaultClause(c: Stmt, blockId: nat)
      requires Valid() && c.Switch?
      modifies this
      ensures Valid() && Below() == old(Below()) && loops == old(loops) && areaStack == old(areaStack) &&
        |old(table)| <= |table|
      ensures Top() == LowerDefault(areaStack, c, blockId, old(Context()), old(Top()))
      ensures Advances(old(Here()), Here())
      decreases c, 0, 0, 0
    {
      hide Valid, Content, LowerStmt, Jump, Advances;
      var d := SwitchTable.DefaultClause(Keys(c.clauses));
      if d < |c.clauses| {
        LowerStatement(c.clauses[d].body);
      } else {
        AppendBranch(blockId);
      }
    }

    // ----- functions -----

    /** Lowers a function body from the initial state and closes the root block. */
    method LowerFunctionBody(c: Stmt) returns (root: Node)
      requires Valid() && Top() == Build([], 2, regs) && Below() == [] && loops == [] && areaStack == [] && !ended
      requires table == [Entry(EXIT_ID, EXIT_ID, -1, -1, -1), Entry(0, 0, 0, ROOT_ID, -1)]
      modifies this
      ensures Valid() && root == LowerFunction(c, old(regs)) && Recorded(root, table)
      ensures Threaded(root.ctl.body[..|root.ctl.body| - 1], table)
    {
      hide Content, LowerStmt, Emit, StackValid, Advances, TableValid, Recorded, Threads, Threaded;
      ghost var p0, l0 := Here(), Top();
      LowerStatement(c);
      ghost var p1 := Here();
      AdvancesSame(p1);
      if !ended {
        EmitNode(ReturnNode(Const(0)));
      }
      AdvancesTrans(p0, p1, Here());
      RootBody(stack, |table|);
      root := Control(ROOT_ID, -1, BlockNode(Ordinary, stack[0]));
      RootThreaded(stack, table);
      FunctionRecorded(c, l0, root, p0.table, table);
    }
  }
}
