/** The Next links of the control table: what leads to a continuation leads to the node that stands where
    the continuation was put, and the root leads to what was last put behind it. */
module Threading {
  import opened Structured
  import opened Opening
  import opened Lowering
  import opened ControlTable

  /** What stands where the continuation in row `i` was put. */
  function Standing(table: seq<Entry>, i: nat): int
    requires i < |table|
  {
    if table[i].replacedBy == -1 then i else table[i].replacedBy
  }

  /** No two continuations continue the same node. */
  predicate Once(table: seq<Entry>) {
    forall i, j :: 0 <= i < j < |table| && table[i].of > 0 ==> table[j].of != table[i].of
  }

  /** A node that is continued leads to what stands in the place of its continuation. */
  predicate Linked(table: seq<Entry>) {
    forall i :: 0 <= i < |table| && 0 < table[i].of < |table| ==> table[table[i].of].next == Standing(table, i)
  }

  /** A node that `break` leads out of, with nowhere to continue, is continued where it leads to. */
  predicate Behind(table: seq<Entry>) {
    forall k :: 0 <= k < |table| && table[k].continueTarget == -1 && 0 < table[k].breakTarget < |table| ==>
      table[table[k].breakTarget].of == k
  }

  predicate Uncontinued(table: seq<Entry>, id: int) {
    forall i :: 0 <= i < |table| ==> table[i].of != id
  }

  /** Whether a node of the root body was put there without continuing another node. */
  predicate AtRoot(n: Node, table: seq<Entry>) {
    n.Control? &&
    if n.stood >= 0 then OfRow(table, n.stood) == ROOT_ID
    else IsPlaceholder(n) ==> n.id >= 0 && OfRow(table, n.id) == ROOT_ID
  }

  /** The last node of the root body that was put there without continuing another node; else the exit. */
  function LastAtRoot(b: seq<Node>, table: seq<Entry>): int {
    if b == [] then EXIT_ID
    else if AtRoot(b[|b| - 1], table) then b[|b| - 1].id
    else LastAtRoot(b[..|b| - 1], table)
  }

  /** The Next links of a finished table. */
  predicate Threaded(content: seq<Node>, table: seq<Entry>) {
    |table| >= 2 && Once(table) && Linked(table) && Behind(table) && table[ROOT_ID].next == LastAtRoot(content, table)
  }

  // ----- while bodies are under construction -----

  /** The node at the end of a body that has no continuation yet; -1 if there is none. */
  function EndOf(b: seq<Node>): int {
    if b != [] && b[|b| - 1].Control? && !IsPlaceholder(b[|b| - 1]) then b[|b| - 1].id else -1
  }

  /** The placeholder at the end of a body; -1 if there is none. */
  function LastPlaceholder(b: seq<Node>): int {
    if b != [] && IsPlaceholder(b[|b| - 1]) then b[|b| - 1].id else -1
  }

  predicate EndFree(b: seq<Node>, bottom: bool, table: seq<Entry>) {
    && (EndOf(b) == -1 || (2 <= EndOf(b) < |table| && Uncontinued(table, EndOf(b))))
    && LastPlaceholder(b) < |table|
    && (!bottom && LastPlaceholder(b) >= 0 ==> OfRow(table, LastPlaceholder(b)) != ROOT_ID)
  }

  predicate EndsApart(bodies: seq<seq<Node>>) {
    forall j, k :: 0 <= j < k < |bodies| && EndOf(bodies[j]) != -1 ==> EndOf(bodies[k]) != EndOf(bodies[j])
  }

  /** The IDs in the root body are those of rows, and placeholders took no place. */
  predicate RowsOf(b: seq<Node>, n: nat) {
    forall i :: 0 <= i < |b| && b[i].Control? ==>
      b[i].id < n && b[i].stood < n && (IsPlaceholder(b[i]) ==> b[i].stood < 0)
  }

  predicate Threads(bodies: seq<seq<Node>>, table: seq<Entry>) {
    && bodies != [] && |table| >= 2 && Threaded(bodies[0], table) && RowsOf(bodies[0], |table|) && EndsApart(bodies)
    && forall k :: 0 <= k < |bodies| ==> EndFree(bodies[k], k == 0, table)
  }

  lemma {:induction false} LastAtRootPush(b: seq<Node>, n: Node, table: seq<Entry>)
    ensures LastAtRoot(b + [n], table) == if AtRoot(n, table) then n.id else LastAtRoot(b, table)
  {
    assert (b + [n])[..|b|] == b;
  }

  /** Rows keep what they continue. */
  predicate SameOf(a: seq<Entry>, b: seq<Entry>) {
    |a| <= |b| && forall i :: 0 <= i < |a| ==> b[i].of == a[i].of
  }

  lemma {:induction false} LastAtRootSame(b: seq<Node>, a: seq<Entry>, t: seq<Entry>)
    requires SameOf(a, t) && RowsOf(b, |a|)
    ensures LastAtRoot(b, a) == LastAtRoot(b, t)
    decreases |b|
  {
    if b != [] {
      var n := b[|b| - 1];
      LastAtRootSame(b[..|b| - 1], a, t);
      assert AtRoot(n, a) <==> AtRoot(n, t);
    }
  }

  // ----- a fresh row -----

  lemma {:induction false} FreshThreaded(b: seq<Node>, table: seq<Entry>)
    requires TableValid(table) && Threaded(b, table) && RowsOf(b, |table|)
    ensures Threaded(b, table + [FRESH]) && RowsOf(b, |table| + 1)
  {
    hide LastAtRoot, RowsOf, IsPlaceholder;
    var t := table + [FRESH];
    LastAtRootSame(b, table, t);
    RowsOlder(b, |table|, |t|);
    forall i | 0 <= i < |t| ensures -1 <= t[i].of < |table| && t[i].breakTarget < |table| {
      assert i < |table| ==> RowValid(table[i], i, |table|);
    }
  }

  lemma {:induction false} RowsOlder(b: seq<Node>, n: nat, m: nat)
    requires RowsOf(b, n) && n <= m
    ensures RowsOf(b, m)
  {
  }

  lemma {:induction false} FreshThreads(bodies: seq<seq<Node>>, table: seq<Entry>)
    requires TableValid(table) && Threads(bodies, table)
    ensures Threads(bodies, table + [FRESH])
  {
    hide Threaded, RowsOf, TableValid, EndsApart;
    var t := table + [FRESH];
    FreshThreaded(bodies[0], table);
    forall k | 0 <= k < |bodies| ensures EndFree(bodies[k], k == 0, t) {
      assert EndFree(bodies[k], k == 0, table);
      EndFreeLonger(bodies[k], k == 0, table, FRESH);
    }
  }

  lemma {:induction false} EndFreeLonger(b: seq<Node>, bottom: bool, table: seq<Entry>, e: Entry)
    requires EndFree(b, bottom, table) && (e.of <= 0 || e.of != EndOf(b))
    ensures EndFree(b, bottom, table + [e])
  {
  }

  // ----- a continuation -----

  /** What of the table says who is continued. */
  lemma {:induction false} EndFreeRows(b: seq<Node>, bottom: bool, a: seq<Entry>, t: seq<Entry>)
    requires EndFree(b, bottom, a) && SameOf(a, t)
    requires forall i :: |a| <= i < |t| ==> t[i].of <= 0 || t[i].of != EndOf(b)
    ensures EndFree(b, bottom, t)
  {
    hide EndOf, LastPlaceholder;
  }

  lemma {:induction false} ContinuationOf(table: seq<Entry>, pred: int)
    ensures SameOf(table, ContinuationRows(table, pred)) && ContinuationRows(table, pred)[|table|].of == pred
  {
  }

  lemma {:induction false} ContinuationOnce(table: seq<Entry>, pred: int)
    requires Once(table) && (pred > 0 ==> Uncontinued(table, pred))
    ensures Once(ContinuationRows(table, pred))
  {
    hide ContinuationRows;
    ContinuationOf(table, pred);
  }

  lemma {:induction false} ContinuationLinked(table: seq<Entry>, pred: int)
    requires TableValid(table) && Linked(table) && -1 <= pred < |table| && (pred > 0 ==> Uncontinued(table, pred))
    ensures Linked(ContinuationRows(table, pred))
  {
    var t := ContinuationRows(table, pred);
    forall i | 0 <= i < |t| && 0 < t[i].of < |t| ensures t[t[i].of].next == Standing(t, i) {
      assert i < |table| ==> RowValid(table[i], i, |table|);
    }
  }

  lemma {:induction false} ContinuationBehind(table: seq<Entry>, pred: int)
    requires TableValid(table) && Behind(table)
    ensures Behind(ContinuationRows(table, pred))
  {
    var t := ContinuationRows(table, pred);
    forall k | 0 <= k < |t| && t[k].continueTarget == -1 && 0 < t[k].breakTarget < |t|
      ensures t[t[k].breakTarget].of == k
    {
      assert k < |table| ==> RowValid(table[k], k, |table|);
    }
  }

  /** The root body, with the continuation at its end when it is put there. */
  lemma {:induction false} ContinuationThreaded(b: seq<Node>, here: bool, table: seq<Entry>, pred: int)
    requires TableValid(table) && Threaded(b, table) && RowsOf(b, |table|) && -1 <= pred < |table|
    requires (pred > 0 ==> Uncontinued(table, pred)) && (pred == ROOT_ID ==> here)
    ensures var c := if here then b + [Continuation(|table|)] else b;
      Threaded(c, ContinuationRows(table, pred)) && RowsOf(c, |table| + 1)
  {
    hide LastAtRoot, Once, Linked, Behind, TableValid, Uncontinued;
    var t := ContinuationRows(table, pred);
    ContinuationOf(table, pred);
    ContinuationOnce(table, pred);
    ContinuationLinked(table, pred);
    ContinuationBehind(table, pred);
    LastAtRootSame(b, table, t);
    LastAtRootPush(b, Continuation(|table|), t);
  }

  lemma {:induction false} ContinuationThreads(bodies: seq<seq<Node>>, table: seq<Entry>, k: nat, pred: int)
    requires TableValid(table) && Threads(bodies, table) && k < |bodies| && -1 <= pred < |table|
    requires (pred > 0 ==> Uncontinued(table, pred)) && (pred == ROOT_ID ==> k == 0)
    requires forall j :: 0 <= j < |bodies| && j != k && pred > 0 ==> EndOf(bodies[j]) != pred
    ensures Threads(bodies[k := bodies[k] + [Continuation(|table|)]], ContinuationRows(table, pred))
  {
    hide Threaded, RowsOf, TableValid, Uncontinued, EndFree, EndOf, ContinuationRows;
    var t, c := ContinuationRows(table, pred), bodies[k] + [Continuation(|table|)];
    var after := bodies[k := c];
    ContinuationThreaded(bodies[0], k == 0, table, pred);
    ContinuationEnd(bodies[k], table, pred, k == 0);
    forall j | 0 <= j < |after| ensures EndFree(after[j], j == 0, t) {
      if j != k {
        ContinuationOf(table, pred);
        EndFreeRows(bodies[j], j == 0, table, t);
      }
    }
    assert EndsApart(after);
  }

  lemma {:induction false} ContinuationEnd(b: seq<Node>, table: seq<Entry>, pred: int, bottom: bool)
    requires pred == ROOT_ID ==> bottom
    ensures EndOf(b + [Continuation(|table|)]) == -1
    ensures EndFree(b + [Continuation(|table|)], bottom, ContinuationRows(table, pred))
  {
    ContinuationOf(table, pred);
  }

  // ----- changes inside nodes -----

  /** The same nodes as far as links go; what is inside may differ. */
  predicate SameTops(a: seq<Node>, b: seq<Node>) {
    |a| == |b| && forall i :: 0 <= i < |a| ==>
      && (a[i].Control? <==> b[i].Control?) && (IsPlaceholder(a[i]) <==> IsPlaceholder(b[i]))
      && (a[i].Control? ==> a[i].id == b[i].id && a[i].stood == b[i].stood)
  }

  lemma {:induction false} LastAtRootTops(a: seq<Node>, b: seq<Node>, table: seq<Entry>)
    requires SameTops(a, b)
    ensures LastAtRoot(a, table) == LastAtRoot(b, table)
    decreases |a|
  {
    if a != [] {
      LastAtRootTops(a[..|a| - 1], b[..|b| - 1], table);
    }
  }

  lemma {:induction false} TopsEnd(a: seq<Node>, b: seq<Node>, bottom: bool, table: seq<Entry>)
    requires SameTops(a, b)
    ensures EndOf(a) == EndOf(b) && (EndFree(a, bottom, table) <==> EndFree(b, bottom, table))
    ensures RowsOf(a, |table|) <==> RowsOf(b, |table|)
  {
  }

  lemma {:induction false} TopsThreads(bodies: seq<seq<Node>>, table: seq<Entry>, k: nat, b: seq<Node>)
    requires Threads(bodies, table) && k < |bodies| && SameTops(bodies[k], b)
    ensures Threads(bodies[k := b], table)
  {
    hide RowsOf, EndFree, EndOf, SameTops, LastAtRoot, Once, Linked, Behind;
    TopsEnd(bodies[k], b, k == 0, table);
    LastAtRootTops(bodies[k], b, table);
    var after := bodies[k := b];
    forall j | 0 <= j < |after| ensures EndFree(after[j], j == 0, table) {
      assert EndFree(bodies[j], j == 0, table);
    }
  }

  lemma {:induction false} PushThreads(bodies: seq<seq<Node>>, table: seq<Entry>)
    requires Threads(bodies, table)
    ensures Threads(bodies + [[]], table)
  {
    hide Threaded, RowsOf;
    var after := bodies + [[]];
    forall j | 0 <= j < |after| ensures EndFree(after[j], j == 0, table) {
      assert j < |bodies| ==> EndFree(bodies[j], j == 0, table);
    }
  }

  lemma {:induction false} PopThreads(bodies: seq<seq<Node>>, table: seq<Entry>)
    requires Threads(bodies, table) && |bodies| > 1
    ensures Threads(bodies[..|bodies| - 1], table)
  {
    hide Threaded, RowsOf, EndFree, EndOf;
    var after := bodies[..|bodies| - 1];
    forall j | 0 <= j < |after| ensures EndFree(after[j], j == 0, table) {
      assert EndFree(bodies[j], j == 0, table);
    }
  }

  // ----- links -----

  function LinksSet(table: seq<Entry>, id: nat, next: int, breakTarget: int, continueTarget: int): (r: seq<Entry>)
    requires id < |table|
    ensures |r| == |table|
  {
    table[id := table[id].(next := next, breakTarget := breakTarget, continueTarget := continueTarget)]
  }

  lemma {:induction false} LinksThreads(bodies: seq<seq<Node>>, table: seq<Entry>, id: nat, next: int,
                                        breakTarget: int, continueTarget: int)
    requires Threads(bodies, table) && 0 < id < |table|
    requires forall i :: 0 <= i < |table| && table[i].of == id ==> next == Standing(table, i)
    requires continueTarget == -1 && 0 < breakTarget < |table| ==> table[breakTarget].of == id
    ensures Threads(bodies, LinksSet(table, id, next, breakTarget, continueTarget))
  {
    hide RowsOf, EndOf, LastPlaceholder, LastAtRoot;
    var t := LinksSet(table, id, next, breakTarget, continueTarget);
    LastAtRootSame(bodies[0], table, t);
    forall j | 0 <= j < |bodies| ensures EndFree(bodies[j], j == 0, t) {
      EndFreeRows(bodies[j], j == 0, table, t);
    }
  }

  // ----- a control node -----

  /** The rows when a control node has been sent to a body. */
  function PlaceThread(table: seq<Entry>, b: seq<Node>, bottom: bool): (r: seq<Entry>)
    ensures |r| == |table| + 1
  {
    var id, rows := |table|, table + [FRESH];
    if b != [] && IsPlaceholder(b[|b| - 1]) then
      var p := b[|b| - 1];
      if p.ctl.body == [] then TakenBy(NextSet(rows, OfRow(rows, p.id), id), p.id, id) else rows
    else if bottom then NextSet(rows, ROOT_ID, id)
    else rows
  }

  lemma {:induction false} PlaceOf(table: seq<Entry>, b: seq<Node>, bottom: bool)
    ensures var t := PlaceThread(table, b, bottom); SameOf(table, t) && t[|table|].of == -1
  {
  }

  lemma {:induction false} PlaceOnce(table: seq<Entry>, b: seq<Node>, bottom: bool)
    requires Once(table)
    ensures Once(PlaceThread(table, b, bottom))
  {
    hide PlaceThread;
    PlaceOf(table, b, bottom);
  }

  /** The node `id` takes the place of `p`: what led to `p` leads to it. */
  lemma {:induction false} TakenLinked(rows: seq<Entry>, p: nat, id: nat)
    requires Once(rows) && Linked(rows) && p < |rows| && id < |rows|
    ensures Linked(TakenBy(NextSet(rows, rows[p].of, id), p, id))
  {
    var k := rows[p].of;
    var t := TakenBy(NextSet(rows, k, id), p, id);
    forall i | 0 <= i < |t| && 0 < t[i].of < |t| ensures t[t[i].of].next == Standing(t, i) {
      assert rows[rows[i].of].next == Standing(rows, i);
      if i != p { assert rows[i].of != k || k <= 0; }
    }
  }

  lemma {:induction false} RootLinked(rows: seq<Entry>, id: nat)
    requires Linked(rows)
    ensures Linked(NextSet(rows, ROOT_ID, id))
  {
    var t := NextSet(rows, ROOT_ID, id);
    forall i | 0 <= i < |t| && 0 < t[i].of < |t| ensures t[t[i].of].next == Standing(t, i) {
      assert rows[rows[i].of].next == Standing(rows, i);
    }
  }

  lemma {:induction false} FreshLinked(table: seq<Entry>)
    requires TableValid(table) && Once(table) && Linked(table)
    ensures Once(table + [FRESH]) && Linked(table + [FRESH])
  {
    var t := table + [FRESH];
    forall i | 0 <= i < |t| && 0 < t[i].of < |t| ensures t[t[i].of].next == Standing(t, i) {
      assert i < |table| ==> RowValid(table[i], i, |table|);
    }
  }

  lemma {:induction false} PlaceLinked(table: seq<Entry>, b: seq<Node>, bottom: bool)
    requires TableValid(table) && Once(table) && Linked(table)
    requires LastPlaceholder(b) < |table|
    ensures Linked(PlaceThread(table, b, bottom))
  {
    hide TableValid, Once, Linked, NextSet, TakenBy;
    FreshLinked(table);
    var rows := table + [FRESH];
    if b != [] && IsPlaceholder(b[|b| - 1]) {
      TakenLinked(rows, b[|b| - 1].id, |table|);
    } else {
      RootLinked(rows, |table|);
    }
  }

  lemma {:induction false} PlaceBehind(table: seq<Entry>, b: seq<Node>, bottom: bool)
    requires TableValid(table) && Behind(table)
    ensures Behind(PlaceThread(table, b, bottom))
  {
    var t := PlaceThread(table, b, bottom);
    PlaceOf(table, b, bottom);
    forall k | 0 <= k < |t| && t[k].continueTarget == -1 && 0 < t[k].breakTarget < |t|
      ensures t[t[k].breakTarget].of == k
    {
      assert k < |table| ==> RowValid(table[k], k, |table|);
    }
  }

  /** The root body, when the node is sent to it. */
  lemma {:induction false} PlaceAtRoot(b: seq<Node>, table: seq<Entry>, ctl: Ctl)
    requires Threaded(b, table) && RowsOf(b, |table|) && !IsPlaceholder(Control(|table|, -1, ctl))
    ensures var t, c := PlaceThread(table, b, true), Place(b, |table|, ctl);
      t[ROOT_ID].next == LastAtRoot(c, t) && RowsOf(c, |t|)
  {
    hide Once, Linked, Behind, LastAtRoot;
    var t, c, id := PlaceThread(table, b, true), Place(b, |table|, ctl), |table|;
    PlaceOf(table, b, true);
    LastAtRootSame(b, table, t);
    if b != [] && IsPlaceholder(b[|b| - 1]) {
      var init, p := b[..|b| - 1], b[|b| - 1];
      assert b == init + [p];
      LastAtRootPush(init, p, t);
      LastAtRootPush(init, c[|c| - 1], t);
      assert c == init + [c[|c| - 1]];
    } else {
      LastAtRootPush(b, Control(id, -1, ctl), t);
    }
  }

  lemma {:induction false} PlaceThreaded(b: seq<Node>, table: seq<Entry>, ctl: Ctl)
    requires TableValid(table) && Threaded(b, table) && RowsOf(b, |table|)
    requires EndFree(b, true, table) && !IsPlaceholder(Control(|table|, -1, ctl))
    ensures var t, c := PlaceThread(table, b, true), Place(b, |table|, ctl); Threaded(c, t) && RowsOf(c, |t|)
  {
    hide LastAtRoot, Once, Linked, Behind, PlaceThread, TableValid, LastPlaceholder, RowsOf;
    PlaceOnce(table, b, true);
    PlaceLinked(table, b, true);
    PlaceBehind(table, b, true);
    PlaceAtRoot(b, table, ctl);
  }

  /** The root body, when the node is sent to another one. */
  lemma {:induction false} PlaceElsewhere(root: seq<Node>, b: seq<Node>, table: seq<Entry>)
    requires TableValid(table) && Threaded(root, table) && RowsOf(root, |table|) && EndFree(b, false, table)
    ensures var t := PlaceThread(table, b, false); Threaded(root, t) && RowsOf(root, |t|)
  {
    hide LastAtRoot, Once, Linked, Behind, TableValid, RowsOf, PlaceThread;
    var t := PlaceThread(table, b, false);
    PlaceOnce(table, b, false);
    PlaceLinked(table, b, false);
    PlaceBehind(table, b, false);
    PlaceOf(table, b, false);
    LastAtRootSame(root, table, t);
    RowsOlder(root, |table|, |t|);
    RootStays(b, table);
  }

  lemma {:induction false} RootStays(b: seq<Node>, table: seq<Entry>)
    requires |table| >= 2 && EndFree(b, false, table)
    ensures PlaceThread(table, b, false)[ROOT_ID].next == table[ROOT_ID].next
  {
  }

  lemma {:induction false} PlaceEnd(b: seq<Node>, bottom: bool, table: seq<Entry>, ctl: Ctl)
    requires TableValid(table) && EndFree(b, bottom, table) && !IsPlaceholder(Control(|table|, -1, ctl)) && |table| >= 2
    ensures var c, t := Place(b, |table|, ctl), PlaceThread(table, b, bottom);
      EndFree(c, bottom, t) && (EndOf(c) == |table| || EndOf(c) == -1)
  {
    hide PlaceThread;
    var c, t := Place(b, |table|, ctl), PlaceThread(table, b, bottom);
    PlaceOf(table, b, bottom);
    forall i | 0 <= i < |t| ensures t[i].of < |table| {
      assert i < |table| ==> RowValid(table[i], i, |table|);
    }
    if b != [] && IsPlaceholder(b[|b| - 1]) {
      assert b[|b| - 1].ctl.body != [] ==> LastPlaceholder(c) == LastPlaceholder(b);
    }
  }

  /** Sending a control node to the top body. */
  lemma {:induction false} PlaceThreads(bodies: seq<seq<Node>>, table: seq<Entry>, ctl: Ctl)
    requires TableValid(table) && Threads(bodies, table) && !IsPlaceholder(Control(|table|, -1, ctl))
    ensures var k := |bodies| - 1;
      var t := PlaceThread(table, bodies[k], k == 0);
      && Threads(bodies[k := Place(bodies[k], |table|, ctl)], t) && Uncontinued(t, |table|)
      && forall j :: 0 <= j < k ==> EndOf(bodies[j]) != |table|
  {
    hide Threaded, RowsOf, TableValid, EndOf, Place, PlaceThread;
    var k := |bodies| - 1;
    var b, t := bodies[k], PlaceThread(table, bodies[k], k == 0);
    var c := Place(b, |table|, ctl);
    var after := bodies[k := c];
    assert EndFree(b, k == 0, table);
    PlaceEnd(b, k == 0, table, ctl);
    PlaceOf(table, b, k == 0);
    PlaceFresh(table, b, k == 0);
    if k == 0 {
      PlaceThreaded(b, table, ctl);
    } else {
      PlaceElsewhere(bodies[0], b, table);
    }
    forall j | 0 <= j < |after| ensures EndFree(after[j], j == 0, t) {
      if j < k {
        assert EndFree(bodies[j], j == 0, table);
        EndFreeRows(bodies[j], j == 0, table, t);
      }
    }
    assert EndsApart(after);
  }

  lemma {:induction false} PlaceFresh(table: seq<Entry>, b: seq<Node>, bottom: bool)
    requires TableValid(table)
    ensures Uncontinued(PlaceThread(table, b, bottom), |table|)
  {
    hide PlaceThread;
    var t := PlaceThread(table, b, bottom);
    PlaceOf(table, b, bottom);
    forall i | 0 <= i < |t| ensures t[i].of != |table| {
      assert i < |table| ==> RowValid(table[i], i, |table|);
    }
  }
}
