/** What removing transparent blocks comes to, said of the bodies before and after: which blocks have to
    go, and that none is left. */
module Transparency {
  import opened Structured

  /** An instruction or a return. */
  predicate Straight(n: Node) {
    n.Instruction? || n.ReturnNode?
  }

  /** A placeholder that no link and no branch names. */
  predicate Unnamed(n: Node, refs: set<int>) {
    n.Control? && n.ctl.BlockNode? && n.ctl.kind == Placeholder && n.id !in refs
  }

  // ----- after -----

  /** A body that is nothing but one unnamed placeholder of instructions. */
  predicate Lone(body: seq<Node>, refs: set<int>) {
    |body| == 1 && Unnamed(body[0], refs) && forall i :: 0 <= i < |body[0].ctl.body| ==> Straight(body[0].ctl.body[i])
  }

  /** There is no such body at any depth. */
  predicate LoneFree(body: seq<Node>, refs: set<int>) {
    !Lone(body, refs) && forall i :: 0 <= i < |body| ==> LoneFreeInside(body[i], refs)
  }

  predicate LoneFreeInside(n: Node, refs: set<int>) {
    n.Control? ==>
    match n.ctl
    case BlockNode(_, b) => LoneFree(b, refs)
    case LoopNode(i, b, p) => LoneFree(i, refs) && LoneFree(b, refs) && LoneFree(p, refs)
    case IfNode(_, t, e) => LoneFree(t, refs) && LoneFree(e, refs)
    case TableNode(_, _, cs, d) => (forall i :: 0 <= i < |cs| ==> LoneFree(cs[i].body, refs)) && LoneFree(d, refs)
    case BrNode(_) => true
  }

  // ----- before -----

  /** An unnamed placeholder with nothing inside but instructions, or but one of its own kind. */
  predicate Hollow(n: Node, refs: set<int>)
    decreases n
  {
    Unnamed(n, refs) && Melts(n.ctl.body, refs)
  }

  predicate Melts(body: seq<Node>, refs: set<int>)
    decreases body
  {
    (forall i :: 0 <= i < |body| ==> Straight(body[i])) || (|body| == 1 && Hollow(body[0], refs))
  }

  /** The IDs of the hollow placeholders that stand alone in a body, at any depth. */
  function Gone(body: seq<Node>, refs: set<int>): multiset<int>
    decreases body, 2
  {
    (if |body| == 1 && Hollow(body[0], refs) then multiset{body[0].id} else multiset{}) + GoneEach(body, refs)
  }

  function GoneEach(body: seq<Node>, refs: set<int>): multiset<int>
    decreases body, 1
  {
    if body == [] then multiset{} else GoneInside(body[0], refs) + GoneEach(body[1..], refs)
  }

  function GoneInside(n: Node, refs: set<int>): multiset<int>
    decreases n, 1
  {
    if !n.Control? then multiset{} else
    match n.ctl
    case BlockNode(_, b) => Gone(b, refs)
    case LoopNode(i, b, p) => Gone(i, refs) + Gone(b, refs) + Gone(p, refs)
    case IfNode(_, t, e) => Gone(t, refs) + Gone(e, refs)
    case TableNode(_, _, cs, d) => GoneCases(cs, refs) + Gone(d, refs)
    case BrNode(_) => multiset{}
  }

  function GoneCases(cs: seq<TableCase>, refs: set<int>): multiset<int>
    decreases cs, 0
  {
    if cs == [] then multiset{} else Gone(cs[0].body, refs) + GoneCases(cs[1..], refs)
  }

  /** The IDs of all nodes of a body. */
  function Census(body: seq<Node>): multiset<int> {
    if body == [] then multiset{} else CensusOf(body[0]) + Census(body[1..])
  }

  function CensusOf(n: Node): multiset<int> {
    if !n.Control? then multiset{} else
    multiset{n.id} +
    match n.ctl
    case BlockNode(_, b) => Census(b)
    case LoopNode(i, b, p) => Census(i) + Census(b) + Census(p)
    case IfNode(_, t, e) => Census(t) + Census(e)
    case TableNode(_, _, cs, d) => CensusCases(cs) + Census(d)
    case BrNode(_) => multiset{}
  }

  function CensusCases(cs: seq<TableCase>): multiset<int> {
    if cs == [] then multiset{} else Census(cs[0].body) + CensusCases(cs[1..])
  }
}
