/** The control table, and what it has to say about the tree: which node took the place of which
    placeholder, and where `break` and `continue` of a construct lead. */
module ControlTable {
  import opened Source
  import opened Structured
  import opened Opening
  import opened Lowering
  import opened ControlIds

  /** A row of the control table; the element with ID i owns row i. `of` is the predecessor of a
      placeholder, `replacedBy` the node that took its place; -1 where there is none. */
  datatype Entry = Entry(next: int, breakTarget: int, continueTarget: int, of: int, replacedBy: int)

  const FRESH := Entry(0, 0, 0, -1, -1)

  /** Links stay within the table, and what replaced a placeholder is younger than it. */
  predicate TableValid(table: seq<Entry>) {
    forall i :: 0 <= i < |table| ==> RowValid(table[i], i, |table|)
  }

  predicate RowValid(e: Entry, i: nat, n: nat) {
    && -1 <= e.next < n && -1 <= e.breakTarget < n && -1 <= e.continueTarget < n && -1 <= e.of < n
    && (e.replacedBy == -1 || i < e.replacedBy < n)
  }

  /** The node that stands where `id` stood in the end: replacements are followed until one is live. */
  function Live(table: seq<Entry>, id: nat): (r: nat)
    requires TableValid(table) && id < |table|
    ensures id <= r < |table| && table[r].replacedBy == -1
    decreases |table| - id
  {
    var e := table[id];
    assert RowValid(e, id, |table|);
    if e.replacedBy == -1 then id else Live(table, e.replacedBy)
  }

  // ----- changes of rows -----

  /** Control reaches `next` after `id`, if there is such a row. */
  function NextSet(table: seq<Entry>, id: int, next: int): (r: seq<Entry>)
    ensures |r| == |table|
  {
    if 0 <= id < |table| then table[id := table[id].(next := next)] else table
  }

  /** The node `id` takes the place of `p`, if there is such a row. */
  function TakenBy(table: seq<Entry>, p: int, id: int): (r: seq<Entry>)
    ensures |r| == |table|
  {
    if 0 <= p < |table| then table[p := table[p].(replacedBy := id)] else table
  }

  /** A placeholder behind `predecessor`, which leads to it. */
  function ContinuationRows(table: seq<Entry>, predecessor: int): (r: seq<Entry>)
    ensures |r| == |table| + 1
  {
    NextSet(table + [FRESH.(of := predecessor)], predecessor, |table|)
  }

  function OfRow(table: seq<Entry>, id: nat): int {
    if id < |table| then table[id].of else -1
  }

  // ----- the links of a node -----

  predicate HoldsLoop(b: seq<Node>) {
    |b| == 1 && b[0].Control? && b[0].ctl.LoopNode?
  }

  /** Where `break` leads, or control behind the construct: the continuation. Its ID follows the node's
      own; that of a loop comes behind the block and the loop inside it. An `if` that is part of an
      expression, a loop test or a switch has none: the ID behind its own lies in its contents. */
  function BreakOf(n: Node): int
    requires n.Control?
  {
    match n.ctl
    case BlockNode(k, b) => if k != Ordinary then 0 else if HoldsLoop(b) then n.id + 2 else n.id + 1
    case LoopNode(_, _, _) => n.id + 1
    case IfNode(_, _, _) => if n.id + 1 in CtlUses(n.ctl) then 0 else n.id + 1
    case _ => 0
  }

  /** Where `continue` leads: a loop itself; a block or an `if` with a continuation has no such place. */
  function ContinueOf(n: Node): int
    requires n.Control?
  {
    match n.ctl
    case LoopNode(_, _, _) => n.id
    case _ => if BreakOf(n) == 0 then 0 else -1
  }

  // ----- what the table says about a body -----

  /** Every node's row is live and has the links of the node, and the row of the placeholder whose place
      it took names it. */
  predicate Kept(body: seq<Node>, table: seq<Entry>) {
    forall i :: 0 <= i < |body| ==> KeptNode(body[i], table)
  }

  predicate KeptNode(n: Node, table: seq<Entry>) {
    n.Control? ==> KeptRow(n, table) && KeptCtl(n.ctl, table)
  }

  predicate KeptCtl(c: Ctl, table: seq<Entry>) {
    match c
    case BlockNode(_, b) => Kept(b, table)
    case LoopNode(i, b, p) => Kept(i, table) && Kept(b, table) && Kept(p, table)
    case IfNode(_, t, e) => Kept(t, table) && Kept(e, table)
    case TableNode(_, _, cs, d) => (forall i :: 0 <= i < |cs| ==> Kept(cs[i].body, table)) && Kept(d, table)
    case BrNode(_) => true
  }

  predicate KeptRow(n: Node, table: seq<Entry>)
    requires n.Control?
  {
    && n.id < |table| && HasLinks(table[n.id], -1, BreakOf(n), ContinueOf(n))
    && (n.stood >= 0 ==> n.stood < |table| && HasLinks(table[n.stood], n.id, 0, 0))
  }

  predicate HasLinks(e: Entry, replacedBy: int, breakTarget: int, continueTarget: int) {
    e.replacedBy == replacedBy && e.breakTarget == breakTarget && e.continueTarget == continueTarget
  }

  // ----- later tables -----

  /** Rows keep their links, and only the placeholder `open` may have been replaced. */
  predicate Later(a: seq<Entry>, b: seq<Entry>, open: int) {
    && |a| <= |b|
    && forall i :: 0 <= i < |a| ==>
         b[i].breakTarget == a[i].breakTarget && b[i].continueTarget == a[i].continueTarget &&
         (b[i].replacedBy == a[i].replacedBy || i == open)
  }

  lemma {:induction false} LaterTrans(a: seq<Entry>, b: seq<Entry>, c: seq<Entry>, open: int)
    requires Later(a, b, open) && Later(b, c, -1)
    ensures Later(a, c, open)
  {
  }

  lemma {:induction false} LaterSame(a: seq<Entry>)
    ensures Later(a, a, -1)
  {
  }

  lemma {:induction false} NodeInUses(body: seq<Node>, i: nat)
    requires i < |body|
    ensures NodeUses(body[i]) <= Uses(body)
    decreases i
  {
    if i > 0 { NodeInUses(body[1..], i - 1); }
  }

  lemma {:induction false} CaseInUses(cs: seq<TableCase>, i: nat)
    requires i < |cs|
    ensures Uses(cs[i].body) <= CaseUses(cs)
    decreases i
  {
    if i > 0 { CaseInUses(cs[1..], i - 1); }
  }

  lemma {:induction false} KeptLater(body: seq<Node>, a: seq<Entry>, b: seq<Entry>, open: int)
    requires Kept(body, a) && Later(a, b, open) && open !in Uses(body)
    ensures Kept(body, b)
    decreases body, 0
  {
    forall i | 0 <= i < |body| ensures KeptNode(body[i], b) {
      NodeInUses(body, i);
      KeptNodeLater(body[i], a, b, open);
    }
  }

  lemma {:induction false} KeptNodeLater(n: Node, a: seq<Entry>, b: seq<Entry>, open: int)
    requires KeptNode(n, a) && Later(a, b, open) && open !in NodeUses(n)
    ensures KeptNode(n, b)
    decreases n, 2
  {
    if n.Control? {
      assert n.id in NodeUses(n) && (n.stood >= 0 ==> n.stood in NodeUses(n));
      KeptCtlLater(n.ctl, a, b, open);
    }
  }

  lemma {:induction false} KeptCtlLater(c: Ctl, a: seq<Entry>, b: seq<Entry>, open: int)
    requires KeptCtl(c, a) && Later(a, b, open) && open !in CtlUses(c)
    ensures KeptCtl(c, b)
    decreases c, 1
  {
    match c {
      case BlockNode(_, x) => KeptLater(x, a, b, open);
      case LoopNode(x, y, z) => KeptLater(x, a, b, open); KeptLater(y, a, b, open); KeptLater(z, a, b, open);
      case IfNode(_, x, y) => KeptLater(x, a, b, open); KeptLater(y, a, b, open);
      case TableNode(_, _, cs, d) =>
        forall i | 0 <= i < |cs| ensures Kept(cs[i].body, b) {
          CaseInUses(cs, i);
          KeptLater(cs[i].body, a, b, open);
        }
        KeptLater(d, a, b, open);
      case BrNode(_) =>
    }
  }

  // ----- writing to a body -----

  /** The IDs in a body are in the table, and none is used twice. */
  predicate Distinct(body: seq<Node>, n: nat) {
    forall x :: x in Uses(body) ==> 0 <= x < n && Uses(body)[x] == 1
  }

  predicate Sound(body: seq<Node>, table: seq<Entry>) {
    Neat(body) && Distinct(body, |table|) && Kept(body, table)
  }

  /** The placeholder at the end of a body that the next control node will replace; -1 if there is none. */
  function OpenEnd(body: seq<Node>): int {
    if body != [] && IsPlaceholder(body[|body| - 1]) && body[|body| - 1].ctl.body == [] then body[|body| - 1].id else -1
  }

  /** A body under construction and the table at that time. */
  datatype Point = Point(body: seq<Node>, table: seq<Entry>)

  /** From one point to a later one: the table keeps saying about the body what it has to. */
  predicate Advances(p: Point, q: Point) {
    && |p.table| <= |q.table|
    && (Sound(p.body, p.table) ==>
          && Sound(q.body, q.table) && Later(p.table, q.table, OpenEnd(p.body))
          && (OpenEnd(q.body) == OpenEnd(p.body) || OpenEnd(q.body) == -1 || OpenEnd(q.body) >= |p.table|))
  }

  lemma {:induction false} AdvancesTrans(p: Point, q: Point, r: Point)
    requires Advances(p, q) && Advances(q, r)
    ensures Advances(p, r)
  {
    hide Sound, OpenEnd;
  }

  lemma {:induction false} AdvancesSame(p: Point)
    ensures Advances(p, p)
  {
    hide Sound;
  }

  /** A body written from scratch. */
  lemma {:induction false} AdvancesFresh(t0: seq<Entry>, b: seq<Node>, t1: seq<Entry>)
    requires Advances(Point([], t0), Point(b, t1))
    ensures Sound(b, t1) && Later(t0, t1, -1) && -1 !in Uses(b)
  {
    assert Sound([], t0);
  }

  lemma {:induction false} FreshLater(t0: seq<Entry>, b: seq<Node>, t1: seq<Entry>, t2: seq<Entry>)
    requires Advances(Point([], t0), Point(b, t1)) && Later(t1, t2, -1)
    ensures Kept(b, t2) && Later(t0, t2, -1)
  {
    AdvancesFresh(t0, b, t1);
    KeptLater(b, t1, t2, -1);
    LaterTrans(t0, t1, t2, -1);
  }

  lemma {:induction false} DistinctAdds(l: Build, m: Build, n: nat)
    requires Neat(l.body) && Adds(l, m) && Distinct(l.body, l.next) && n == m.next
    ensures Distinct(m.body, n)
  {
    forall x | x in Uses(m.body) ensures 0 <= x < n && Uses(m.body)[x] == 1 {
      assert Uses(m.body)[x] == Uses(l.body)[x] + Range(l.next, m.next)[x];
      assert x in Uses(l.body) || x in Range(l.next, m.next);
    }
  }

  /** Sending an instruction or a return. */
  lemma {:induction false} EmitAdvances(b0: seq<Node>, t0: seq<Entry>, node: Node, regs: nat, t1: seq<Entry>)
    requires !node.Control? && Later(t0, t1, -1)
    requires var m := Emit(Build(b0, |t0|, regs), node);
      |t1| == m.next && (m.next > |t0| ==> HasLinks(t1[|t0|], -1, 0, 0))
    ensures Advances(Point(b0, t0), Point(Emit(Build(b0, |t0|, regs), node).body, t1))
  {
    hide Adds, Distinct, Neat, Uses;
    var l := Build(b0, |t0|, regs);
    var m := Emit(l, node);
    if Sound(b0, t0) {
      EmitAdds(l, node);
      DistinctAdds(l, m, |t1|);
      assert Neat(m.body) by { AddsNeat(l, m); }
      assert -1 !in Uses(b0) by { NoMinusOne(b0, |t0|); }
      KeptLater(b0, t0, t1, -1);
      if b0 != [] && IsPlaceholder(b0[|b0| - 1]) {
        assert KeptNode(b0[|b0| - 1], t1);
        GrownKept(b0[|b0| - 1], node, t1);
      } else {
        FreshKept(|t0|, node, t1);
      }
      assert Kept(m.body, t1);
    }
  }

  lemma {:induction false} FreshKept(id: nat, node: Node, t: seq<Entry>)
    requires !node.Control? && id < |t| && HasLinks(t[id], -1, 0, 0)
    ensures KeptNode(Control(id, -1, BlockNode(Placeholder, [node])), t)
  {
    assert Kept([node], t);
  }

  lemma {:induction false} AddsNeat(l: Build, m: Build)
    requires Adds(l, m) && Neat(l.body)
    ensures Neat(m.body) && Uses(m.body) == Uses(l.body) + Range(l.next, m.next)
  {
  }

  lemma {:induction false} NoMinusOne(b: seq<Node>, n: nat)
    requires Distinct(b, n)
    ensures -1 !in Uses(b)
  {
  }

  function Rest(cont: int): seq<Node> {
    if cont < 0 then [] else [Continuation(cont)]
  }

  /** Sending a control node, whose contents were written meanwhile, with its continuation if it has
      one: in the end the table says about the longer body what it has to. */
  lemma {:induction false} PlaceAdvances(b0: seq<Node>, t0: seq<Entry>, ctl: Ctl, cont: int, t1: seq<Entry>)
    requires |t0| < |t1| && (ctl.BlockNode? ==> ctl.kind == Ordinary)
    requires OpenEnd(b0) < |t0| && Later(TakenBy(t0, OpenEnd(b0), |t0|), t1, -1)
    requires var n := Control(|t0|, -1, ctl); HasLinks(t1[|t0|], -1, BreakOf(n), ContinueOf(n))
    requires cont >= 0 ==> |t0| < cont < |t1| && HasLinks(t1[cont], -1, 0, 0)
    requires KeptCtl(ctl, t1) && CtlUses(ctl) + Uses(Rest(cont)) == Range(|t0| + 1, |t1|)
    ensures Advances(Point(b0, t0), Point(Place(b0, |t0|, ctl) + Rest(cont), t1))
  {
    hide Distinct, Sound, Kept, KeptCtl, Range, Uses, CtlUses, Neat, BreakOf, ContinueOf, Place;
    var id, b1 := |t0|, Place(b0, |t0|, ctl) + Rest(cont);
    if Sound(b0, t0) {
      PlaceDistinct(b0, ctl, cont, id, |t1|) by { SoundParts(b0, t0); }
      PlaceKept(b0, t0, ctl, t1);
      RestKept(Place(b0, id, ctl), cont, t1);
      assert Sound(b1, t1) by { SoundFrom(b1, t1); }
      PlaceEnd(b0, id, ctl, cont);
    }
  }

  /** The same for a node without a continuation. */
  lemma {:induction false} PlaceAloneAdvances(b0: seq<Node>, t0: seq<Entry>, ctl: Ctl, t1: seq<Entry>)
    requires |t0| < |t1| && (ctl.BlockNode? ==> ctl.kind == Ordinary)
    requires OpenEnd(b0) < |t0| && Later(TakenBy(t0, OpenEnd(b0), |t0|), t1, -1)
    requires var n := Control(|t0|, -1, ctl); HasLinks(t1[|t0|], -1, BreakOf(n), ContinueOf(n))
    requires KeptCtl(ctl, t1) && CtlUses(ctl) == Range(|t0| + 1, |t1|)
    ensures Advances(Point(b0, t0), Point(Place(b0, |t0|, ctl), t1))
  {
    hide Kept, KeptCtl, Uses, CtlUses, BreakOf, ContinueOf, Place, Advances, OpenEnd;
    assert Rest(-1) == [] && Uses([]) == multiset{} by { NoneUsed(); }
    PlaceAdvances(b0, t0, ctl, -1, t1);
    assert Place(b0, |t0|, ctl) + [] == Place(b0, |t0|, ctl);
  }

  lemma {:induction false} SoundParts(b: seq<Node>, t: seq<Entry>)
    requires Sound(b, t)
    ensures Neat(b) && Distinct(b, |t|) && Kept(b, t)
  {
  }

  lemma {:induction false} SoundFrom(b: seq<Node>, t: seq<Entry>)
    requires Neat(b) && Distinct(b, |t|) && Kept(b, t)
    ensures Sound(b, t)
  {
  }

  lemma {:induction false} PlaceDistinct(b0: seq<Node>, ctl: Ctl, cont: int, id: nat, n: nat)
    requires Neat(b0) && Distinct(b0, id) && id < n && !IsPlaceholder(Control(id, -1, ctl))
    requires CtlUses(ctl) + Uses(Rest(cont)) == Range(id + 1, n)
    ensures var b1 := Place(b0, id, ctl) + Rest(cont); Neat(b1) && Distinct(b1, n)
  {
    hide CtlUses, Uses, Range, Place, Distinct;
    var b := Place(b0, id, ctl);
    PlaceUses(b0, id, ctl);
    UsesAppend(b, Rest(cont));
    RangeOne(id);
    RangeSplit(id, id + 1, n);
    assert Uses(b + Rest(cont)) == Uses(b0) + Range(id, n);
    var l, m := Build(b0, id, 0), Build(b + Rest(cont), n, 0);
    assert Adds(l, m);
    DistinctAdds(l, m, n);
  }

  lemma {:induction false} RestKept(b: seq<Node>, cont: int, t: seq<Entry>)
    requires Kept(b, t) && (cont >= 0 ==> cont < |t| && HasLinks(t[cont], -1, 0, 0))
    ensures Kept(b + Rest(cont), t)
  {
    if cont >= 0 {
      assert Kept([], t);
      assert KeptNode(Continuation(cont), t);
    }
  }

  lemma {:induction false} PlaceEnd(b0: seq<Node>, id: nat, ctl: Ctl, cont: int)
    requires !IsPlaceholder(Control(id, -1, ctl)) && (cont >= 0 ==> cont > id)
    ensures var e := OpenEnd(Place(b0, id, ctl) + Rest(cont)); e == -1 || e >= id
  {
  }

  lemma {:induction false} PlaceKept(b0: seq<Node>, t0: seq<Entry>, ctl: Ctl, t1: seq<Entry>)
    requires |t0| < |t1| && (ctl.BlockNode? ==> ctl.kind == Ordinary)
    requires OpenEnd(b0) < |t0| && Later(TakenBy(t0, OpenEnd(b0), |t0|), t1, -1)
    requires var n := Control(|t0|, -1, ctl); HasLinks(t1[|t0|], -1, BreakOf(n), ContinueOf(n))
    requires KeptCtl(ctl, t1) && Sound(b0, t0)
    ensures Kept(Place(b0, |t0|, ctl), t1) && Later(t0, t1, OpenEnd(b0))
  {
    hide KeptCtl, Uses, CtlUses;
    var id, open := |t0|, OpenEnd(b0);
    var n := Control(id, -1, ctl);
    NoMinusOne(b0, id);
    if open >= 0 {
      var init, p := b0[..|b0| - 1], b0[|b0| - 1];
      OpenUsedOnce(b0, id);
      assert Later(t0, t1, open);
      assert Kept(init, t0) && KeptNode(p, t0);
      KeptLater(init, t0, t1, open);
      SameLinks(id, open, ctl);
      assert KeptNode(Control(id, open, ctl), t1);
    } else {
      assert Later(t0, t1, -1);
      KeptLater(b0, t0, t1, -1);
      assert KeptNode(n, t1);
      if b0 != [] && IsPlaceholder(b0[|b0| - 1]) {
        assert KeptNode(b0[|b0| - 1], t1);
        assert KeptNode(Grown(b0[|b0| - 1], n), t1) by { GrownKept(b0[|b0| - 1], n, t1); }
      }
    }
  }

  lemma {:induction false} SameLinks(id: nat, stood: int, ctl: Ctl)
    ensures BreakOf(Control(id, stood, ctl)) == BreakOf(Control(id, -1, ctl))
    ensures ContinueOf(Control(id, stood, ctl)) == ContinueOf(Control(id, -1, ctl))
  {
    var n, m := Control(id, stood, ctl), Control(id, -1, ctl);
    assert n.ctl == m.ctl && n.id == m.id;
    assert BreakOf(n) == BreakOf(m);
  }

  lemma {:induction false} GrownKept(p: Node, n: Node, t: seq<Entry>)
    requires IsPlaceholder(p) && KeptNode(p, t) && KeptNode(n, t)
    ensures KeptNode(Grown(p, n), t)
  {
    var b := p.ctl.body + [n];
    assert Kept(p.ctl.body, t);
    forall i | 0 <= i < |b| ensures KeptNode(b[i], t) {
      assert i < |p.ctl.body| ==> b[i] == p.ctl.body[i];
    }
    assert BreakOf(Grown(p, n)) == 0 && BreakOf(p) == 0;
  }

  lemma {:induction false} OpenUsedOnce(b: seq<Node>, n: nat)
    requires Distinct(b, n) && OpenEnd(b) >= 0
    ensures OpenEnd(b) !in Uses(b[..|b| - 1])
  {
    var p := b[|b| - 1];
    UsesLast(b);
    assert p.id in NodeUses(p);
    assert Uses(b)[p.id] == Uses(b[..|b| - 1])[p.id] + NodeUses(p)[p.id];
  }

  // ----- the constructs -----

  lemma {:induction false} LinksLater(a: seq<Entry>, b: seq<Entry>, i: nat, breakTarget: int, continueTarget: int)
    requires Later(a, b, -1) && i < |a| && HasLinks(a[i], -1, breakTarget, continueTarget)
    ensures HasLinks(b[i], -1, breakTarget, continueTarget)
  {
  }

  /** A construct without a continuation: `t1` is the table when its node was sent, `t2` when its contents
      were written too. */
  lemma {:induction false} PlainAdvances(b0: seq<Node>, t0: seq<Entry>, ctl: Ctl, t1: seq<Entry>, t2: seq<Entry>)
    requires ctl.BrNode? || ctl.TableNode? || (ctl.IfNode? && |t2| > |t0| + 1)
    requires |t0| < |t1| && OpenEnd(b0) < |t0| && Later(TakenBy(t0, OpenEnd(b0), |t0|), t1, -1)
    requires HasLinks(t1[|t0|], -1, 0, 0) && Later(t1, t2, -1)
    requires KeptCtl(ctl, t2) && CtlUses(ctl) == Range(|t0| + 1, |t2|)
    ensures Advances(Point(b0, t0), Point(Place(b0, |t0|, ctl), t2))
  {
    hide Kept, KeptCtl, Uses, CtlUses, Place, Advances, OpenEnd, Later, HasLinks;
    assert |t1| <= |t2| by { LaterLonger(t1, t2); }
    LaterTrans(TakenBy(t0, OpenEnd(b0), |t0|), t1, t2, -1);
    LinksLater(t1, t2, |t0|, 0, 0);
    assert ctl.IfNode? ==> |t0| + 1 in CtlUses(ctl);
    PlaceAloneAdvances(b0, t0, ctl, t2);
  }

  lemma {:induction false} LaterLonger(a: seq<Entry>, b: seq<Entry>)
    requires Later(a, b, -1)
    ensures |a| <= |b|
  {
  }

  /** A construct with a continuation, whose links were set before its contents were written. */
  lemma {:induction false} ContinuedAdvances(b0: seq<Node>, t0: seq<Entry>, ctl: Ctl, cont: nat, t1: seq<Entry>,
                                             t2: seq<Entry>)
    requires (ctl.BlockNode? && ctl.kind == Ordinary) || ctl.IfNode?
    requires |t0| < cont < |t1| && OpenEnd(b0) < |t0| && Later(TakenBy(t0, OpenEnd(b0), |t0|), t1, -1)
    requires HasLinks(t1[|t0|], -1, cont, -1) && HasLinks(t1[cont], -1, 0, 0) && Later(t1, t2, -1)
    requires BreakOf(Control(|t0|, -1, ctl)) == cont
    requires KeptCtl(ctl, t2) && CtlUses(ctl) + multiset{cont} == Range(|t0| + 1, |t2|)
    ensures Advances(Point(b0, t0), Point(Place(b0, |t0|, ctl) + [Continuation(cont)], t2))
  {
    hide Kept, KeptCtl, Uses, CtlUses, Place, Advances, OpenEnd, Later, HasLinks;
    LaterLonger(t1, t2);
    LaterTrans(TakenBy(t0, OpenEnd(b0), |t0|), t1, t2, -1);
    LinksLater(t1, t2, |t0|, cont, -1);
    LinksLater(t1, t2, cont, 0, 0);
    assert Uses(Rest(cont)) == multiset{cont} by { RestUses(cont); }
    PlaceAdvances(b0, t0, ctl, cont, t2);
  }

  lemma {:induction false} RestUses(cont: nat)
    ensures Uses(Rest(cont)) == multiset{cont}
  {
    UsesOne(Continuation(cont));
    NoneUsed();
  }

  /** An `if` with code in one arm only. */
  lemma {:induction false} ArmKept(v: Value, b: seq<Node>, thn: bool, t: seq<Entry>)
    requires Sound(b, t)
    ensures KeptCtl(if thn then IfNode(v, b, []) else IfNode(v, [], b), t)
  {
    assert Kept([], t);
  }

  /** What has been known since the node of a construct was sent to a body: `t0` is the table before, `t1`
      the one after it. */
  predicate Sent(b0: seq<Node>, t0: seq<Entry>, t1: seq<Entry>) {
    |t0| < |t1| && OpenEnd(b0) < |t0| && Later(TakenBy(t0, OpenEnd(b0), |t0|), t1, -1)
  }

  /** The rows of an `if` or a switch block and of its continuation. */
  lemma {:induction false} BlockRows(b0: seq<Node>, t0: seq<Entry>, sent: seq<Entry>, id: nat)
    requires |t0| == id && |sent| == id + 1 && Sent(b0, t0, sent) && HasLinks(sent[id], -1, 0, 0)
    ensures var rows := ContinuationRows(sent, id);
      var linked := rows[id := rows[id].(next := id + 1, breakTarget := id + 1, continueTarget := -1)];
      |linked| == id + 2 && Sent(b0, t0, linked) && HasLinks(linked[id], -1, id + 1, -1) &&
        HasLinks(linked[id + 1], -1, 0, 0)
  {
    hide TakenBy, OpenEnd;
  }

  /** The rows of a loop's block, of the loop and of the continuation. */
  lemma {:induction false} LoopRows(b0: seq<Node>, t0: seq<Entry>, sent: seq<Entry>, id: nat)
    requires |t0| == id && |sent| == id + 1 && Sent(b0, t0, sent) && HasLinks(sent[id], -1, 0, 0)
    ensures var rows := ContinuationRows(sent + [FRESH], id);
      var block := rows[id := rows[id].(next := id + 2, breakTarget := id + 2, continueTarget := -1)];
      var linked := block[id + 1 := block[id + 1].(next := id + 2, breakTarget := id + 2, continueTarget := id + 1)];
      |linked| == id + 3 && Sent(b0, t0, linked) && HasLinks(linked[id], -1, id + 2, -1) &&
      HasLinks(linked[id + 1], -1, id + 2, id + 1) && HasLinks(linked[id + 2], -1, 0, 0)
  {
    hide TakenBy, OpenEnd;
  }

  // ----- the finished table -----

  /** The IDs of the nodes of a body. */
  function Ids(body: seq<Node>): set<int> {
    if body == [] then {} else NodeIds(body[0]) + Ids(body[1..])
  }

  function NodeIds(n: Node): set<int> {
    if n.Control? then {n.id} + CtlIds(n.ctl) else {}
  }

  function CtlIds(c: Ctl): set<int> {
    match c
    case BlockNode(_, b) => Ids(b)
    case LoopNode(i, b, p) => Ids(i) + Ids(b) + Ids(p)
    case IfNode(_, t, e) => Ids(t) + Ids(e)
    case TableNode(_, _, cs, d) => CaseIds(cs) + Ids(d)
    case BrNode(_) => {}
  }

  function CaseIds(cs: seq<TableCase>): set<int> {
    if cs == [] then {} else Ids(cs[0].body) + CaseIds(cs[1..])
  }

  /** The placeholders whose place was taken, each with the node that stands there. */
  function Places(body: seq<Node>): set<(int, int)> {
    if body == [] then {} else NodePlaces(body[0]) + Places(body[1..])
  }

  function NodePlaces(n: Node): set<(int, int)> {
    if n.Control? then (if n.stood >= 0 then {(n.stood, n.id)} else {}) + CtlPlaces(n.ctl) else {}
  }

  function CtlPlaces(c: Ctl): set<(int, int)> {
    match c
    case BlockNode(_, b) => Places(b)
    case LoopNode(i, b, p) => Places(i) + Places(b) + Places(p)
    case IfNode(_, t, e) => Places(t) + Places(e)
    case TableNode(_, _, cs, d) => CasePlaces(cs) + Places(d)
    case BrNode(_) => {}
  }

  function CasePlaces(cs: seq<TableCase>): set<(int, int)> {
    if cs == [] then {} else Places(cs[0].body) + CasePlaces(cs[1..])
  }

  /** Row by row, what the table says about replacements is what stands in the tree. */
  ghost predicate Recorded(root: Node, table: seq<Entry>) {
    && root.Control? && root.id == ROOT_ID && root.ctl.BlockNode? && root.ctl.body != []
    && root.ctl.body[|root.ctl.body| - 1] == ExitNode()
    && TableValid(table) && |table| >= 2
    // every ID is used once
    && NodeUses(root) == Range(0, |table|)
    // live rows are those of the nodes
    && (forall i :: 0 <= i < |table| ==> (i in NodeIds(root) <==> table[i].replacedBy == -1))
    && (forall i :: i in NodeIds(root) ==> 0 <= i < |table|)
    // the others are those of the placeholders whose place was taken, and name the node that did
    && (forall i, j :: (i, j) in NodePlaces(root) <==> 0 <= i < |table| && table[i].replacedBy == j != -1)
    // branches lead to rows
    && (forall t :: t in NodeTargets(root) ==> 0 <= t < |table|)
    // links
    && HasLinks(table[ROOT_ID], -1, EXIT_ID, -1) && HasLinks(table[EXIT_ID], -1, 0, 0)
    && Kept(root.ctl.body[..|root.ctl.body| - 1], table)
  }

  ghost predicate HasPlace(places: set<(int, int)>, x: int) {
    exists j :: (x, j) in places
  }

  /** The IDs used are those of nodes or of replaced placeholders, and the table says which is which. */
  ghost predicate Agree(uses: multiset<int>, ids: set<int>, places: set<(int, int)>, table: seq<Entry>) {
    && (forall x :: x in uses ==> x in ids || HasPlace(places, x))
    && (forall i :: i in ids ==> 0 <= i < |table| && table[i].replacedBy == -1)
    && (forall i, j :: (i, j) in places ==> 0 <= i < |table| && table[i].replacedBy == j && j >= 0)
  }

  lemma {:induction false} AgreeUnion(u: multiset<int>, i: set<int>, p: set<(int, int)>,
                                      v: multiset<int>, j: set<int>, q: set<(int, int)>, table: seq<Entry>)
    requires Agree(u, i, p, table) && Agree(v, j, q, table)
    ensures Agree(u + v, i + j, p + q, table)
  {
    forall x | x in u + v ensures x in i + j || HasPlace(p + q, x) {
      if HasPlace(p, x) {
        var y :| (x, y) in p;
        assert (x, y) in p + q;
      } else if HasPlace(q, x) {
        var y :| (x, y) in q;
        assert (x, y) in p + q;
      }
    }
  }

  lemma {:induction false} BodyAgrees(body: seq<Node>, table: seq<Entry>)
    requires Kept(body, table)
    ensures Agree(Uses(body), Ids(body), Places(body), table)
    decreases body, 0
  {
    hide Agree;
    if body == [] {
      NothingAgrees(table);
    } else {
      assert KeptNode(body[0], table) && Kept(body[1..], table);
      NodeAgrees(body[0], table);
      BodyAgrees(body[1..], table);
      AgreeUnion(NodeUses(body[0]), NodeIds(body[0]), NodePlaces(body[0]), Uses(body[1..]), Ids(body[1..]),
                 Places(body[1..]), table);
    }
  }

  lemma {:induction false} NothingAgrees(table: seq<Entry>)
    ensures Agree(multiset{}, {}, {}, table)
  {
  }

  lemma {:induction false} NodeAgrees(n: Node, table: seq<Entry>)
    requires KeptNode(n, table)
    ensures Agree(NodeUses(n), NodeIds(n), NodePlaces(n), table)
    decreases n, 2
  {
    hide Agree, CtlUses, CtlIds, CtlPlaces, KeptCtl;
    NothingAgrees(table);
    if n.Control? {
      CtlAgrees(n.ctl, table);
      RowAgrees(n, table);
      AgreeUnion(multiset{n.id} + (if n.stood >= 0 then multiset{n.stood} else multiset{}), {n.id},
                 if n.stood >= 0 then {(n.stood, n.id)} else {},
                 CtlUses(n.ctl), CtlIds(n.ctl), CtlPlaces(n.ctl), table);
    }
  }

  lemma {:induction false} RowAgrees(n: Node, table: seq<Entry>)
    requires n.Control? && KeptRow(n, table)
    ensures Agree(multiset{n.id} + (if n.stood >= 0 then multiset{n.stood} else multiset{}), {n.id},
                  if n.stood >= 0 then {(n.stood, n.id)} else {}, table)
  {
    assert n.stood >= 0 ==> HasPlace({(n.stood, n.id)}, n.stood) by { assert (n.stood, n.id) in {(n.stood, n.id)}; }
  }

  lemma {:induction false} CtlAgrees(c: Ctl, table: seq<Entry>)
    requires KeptCtl(c, table)
    ensures Agree(CtlUses(c), CtlIds(c), CtlPlaces(c), table)
    decreases c, 1
  {
    hide Agree;
    NothingAgrees(table);
    match c {
      case BlockNode(_, b) => BodyAgrees(b, table);
      case LoopNode(i, b, p) =>
        BodyAgrees(i, table);
        BodyAgrees(b, table);
        BodyAgrees(p, table);
        AgreeUnion(Uses(i), Ids(i), Places(i), Uses(b), Ids(b), Places(b), table);
        AgreeUnion(Uses(i) + Uses(b), Ids(i) + Ids(b), Places(i) + Places(b), Uses(p), Ids(p), Places(p), table);
      case IfNode(_, t, e) =>
        BodyAgrees(t, table);
        BodyAgrees(e, table);
        AgreeUnion(Uses(t), Ids(t), Places(t), Uses(e), Ids(e), Places(e), table);
      case TableNode(_, _, cs, d) =>
        CasesAgree(cs, table);
        BodyAgrees(d, table);
        AgreeUnion(CaseUses(cs), CaseIds(cs), CasePlaces(cs), Uses(d), Ids(d), Places(d), table);
      case BrNode(_) =>
    }
  }

  lemma {:induction false} CasesAgree(cs: seq<TableCase>, table: seq<Entry>)
    requires forall i :: 0 <= i < |cs| ==> Kept(cs[i].body, table)
    ensures Agree(CaseUses(cs), CaseIds(cs), CasePlaces(cs), table)
    decreases cs, 0
  {
    hide Agree;
    NothingAgrees(table);
    if cs != [] {
      var b, rest := cs[0].body, cs[1..];
      BodyAgrees(b, table);
      CasesAgree(rest, table);
      AgreeUnion(Uses(b), Ids(b), Places(b), CaseUses(rest), CaseIds(rest), CasePlaces(rest), table);
    }
  }

  /** A finished body, closed by the function exit. */
  lemma {:induction false} RecordedFrom(root: Node, body: seq<Node>, table: seq<Entry>)
    requires root == Control(ROOT_ID, -1, BlockNode(Ordinary, body + [ExitNode()]))
    requires TableValid(table) && |table| >= 2 && Uses(body) == Range(2, |table|) && Kept(body, table)
    requires HasLinks(table[ROOT_ID], -1, EXIT_ID, -1) && HasLinks(table[EXIT_ID], -1, 0, 0)
    requires forall t :: t in NodeTargets(root) ==> 0 <= t < |table|
    ensures Recorded(root, table)
  {
    hide Agree, Kept, Uses, NodeUses, NodeIds, NodePlaces, Ids, Places, NodeTargets, Range, TableValid;
    RootSets(root, body, |table|);
    BodyAgrees(body, table);
    AgreeSets(Uses(body), Ids(body), Places(body), table);
    var content := root.ctl.body[..|root.ctl.body| - 1];
    assert content == body;
  }

  lemma {:induction false} RootSets(root: Node, body: seq<Node>, n: nat)
    requires root == Control(ROOT_ID, -1, BlockNode(Ordinary, body + [ExitNode()])) && n >= 2 &&
      Uses(body) == Range(2, n)
    ensures NodeUses(root) == Range(0, n) && NodeIds(root) == {ROOT_ID, EXIT_ID} + Ids(body) &&
      NodePlaces(root) == Places(body)
  {
    hide Uses, Ids, Places, Range;
    UsesPush(body, ExitNode());
    SetsPush(body, ExitNode());
    ExitUses();
    RangeOne(0);
    RangeOne(1);
    RangeSplit(0, 1, 2);
    RangeSplit(0, 2, n);
  }

  lemma {:induction false} ExitUses()
    ensures NodeUses(ExitNode()) == multiset{EXIT_ID} && NodeIds(ExitNode()) == {EXIT_ID} &&
      NodePlaces(ExitNode()) == {}
  {
  }

  lemma {:induction false} SetsPush(b: seq<Node>, n: Node)
    ensures Ids(b + [n]) == Ids(b) + NodeIds(n) && Places(b + [n]) == Places(b) + NodePlaces(n)
    decreases |b|
  {
    if b == [] {
      assert b + [n] == [n] && [n][1..] == [];
    } else {
      assert (b + [n])[1..] == b[1..] + [n];
      SetsPush(b[1..], n);
    }
  }

  /** With every ID from 2 on used, the table tells exactly which are live. */
  lemma {:induction false} AgreeSets(uses: multiset<int>, ids: set<int>, places: set<(int, int)>, table: seq<Entry>)
    requires Agree(uses, ids, places, table) && uses == Range(2, |table|)
    ensures forall i :: 2 <= i < |table| ==> (i in ids <==> table[i].replacedBy == -1)
    ensures forall i :: i in ids ==> 0 <= i < |table| && table[i].replacedBy == -1
    ensures forall i, j :: (i, j) in places ==> 0 <= i < |table| && table[i].replacedBy == j != -1
    ensures forall i, j :: 2 <= i < |table| && table[i].replacedBy == j != -1 ==> (i, j) in places
  {
    forall i | 2 <= i < |table|
      ensures i in ids <==> table[i].replacedBy == -1
      ensures table[i].replacedBy != -1 ==> (i, table[i].replacedBy) in places
    {
      assert uses[i] == 1 && i in uses;
      if HasPlace(places, i) { var j :| (i, j) in places; }
    }
  }

  /** Following replacements ends at a node of the tree, the one that stands where `i` stood. */
  lemma {:induction false} LiveStands(root: Node, table: seq<Entry>, i: nat)
    requires Recorded(root, table) && i < |table|
    ensures var r := Live(table, i);
      r in NodeIds(root) && if i in NodeIds(root) then r == i else (i, r) in NodePlaces(root)
  {
    hide Kept, NodeIds, NodePlaces;
    var j := table[i].replacedBy;
    if j != -1 {
      assert RowValid(table[i], i, |table|);
      assert (i, j) in NodePlaces(root);
      PlaceIsId(root, i, j);
      assert Live(table, i) == Live(table, j);
    }
  }

  /** What took a place is a node. */
  lemma {:induction false} PlaceIsId(n: Node, i: int, j: int)
    requires (i, j) in NodePlaces(n)
    ensures j in NodeIds(n)
    decreases n, 2
  {
    if !(n.stood >= 0 && (i, j) == (n.stood, n.id)) {
      match n.ctl {
        case BlockNode(_, b) => PlaceInIds(b, i, j);
        case LoopNode(x, y, z) =>
          if (i, j) in Places(x) { PlaceInIds(x, i, j); }
          else if (i, j) in Places(y) { PlaceInIds(y, i, j); }
          else { PlaceInIds(z, i, j); }
        case IfNode(_, x, y) => if (i, j) in Places(x) { PlaceInIds(x, i, j); } else { PlaceInIds(y, i, j); }
        case TableNode(_, _, cs, d) => if (i, j) in Places(d) { PlaceInIds(d, i, j); } else { PlaceInCases(cs, i, j); }
      }
    }
  }

  lemma {:induction false} PlaceInIds(body: seq<Node>, i: int, j: int)
    requires (i, j) in Places(body)
    ensures j in Ids(body)
    decreases body, 0
  {
    if (i, j) in NodePlaces(body[0]) { PlaceIsId(body[0], i, j); } else { PlaceInIds(body[1..], i, j); }
  }

  lemma {:induction false} PlaceInCases(cs: seq<TableCase>, i: int, j: int)
    requires (i, j) in CasePlaces(cs)
    ensures j in CaseIds(cs)
    decreases cs, 0
  {
    if (i, j) in Places(cs[0].body) { PlaceInIds(cs[0].body, i, j); } else { PlaceInCases(cs[1..], i, j); }
  }
}
