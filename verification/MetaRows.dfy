/** The metadata rows of a type by the ways to reach what they describe: every string, slice and map has a
    pointer row with rows for what it points to, and what lies inside hangs on those. */
module MetaRows {
  import opened MemoryMap
  import HeapSlots

  datatype Step = InField(i: nat) | InElements | InBuffer | InValues

  type Path = seq<Step>

  /** The pointer of a string, slice or map, its payload or header, and a map's entries with the pointer
      to them. */
  datatype Role = Reference | Contents | EntriesReference | Entries

  datatype Item = Item(path: Path, role: Role)

  datatype Spot = Nowhere | At(typ: Type, offset: nat, chunk: nat)

  datatype Owner = Outside | Owned(item: Item)

  /** The type that a path leads to, its offset in its buffer, and the size of the chunks it repeats in:
      elements of arrays and slices, entries of maps, whose values lie behind three words. */
  function Follow(t: Type, base: nat, chunk: nat, path: Path, ptr: PtrSize): Spot
    decreases |path|
  {
    if path == [] then At(t, base, chunk) else
    match path[0]
    case InField(i) =>
      if t.Struct? && i < |t.fields| then
        Follow(t.fields[i], base + HeapSlots.FieldOffset(t.fields, i, ptr), chunk, path[1..], ptr)
      else Nowhere
    case InElements => if t.Array? then Follow(t.elem, base, SizeOf(t.elem, ptr), path[1..], ptr) else Nowhere
    case InBuffer => if t.Slice? then Follow(t.elem, 0, SizeOf(t.elem, ptr), path[1..], ptr) else Nowhere
    case InValues => if t.Map? then Follow(t.value, 3 * ptr, 40, path[1..], ptr) else Nowhere
  }

  /** The rows in order: those of a value, then those of what it holds. */
  function Plan(t: Type): seq<Item>
    decreases t, 1, 0
  {
    match t
    case Scalar(_) => []
    case Text(_) => [Item([], Reference), Item([], Contents)]
    case Slice(e) => [Item([], Reference), Item([], Contents)] + Prefixed(InBuffer, Plan(e))
    case Map(v) =>
      [Item([], Reference), Item([], Contents), Item([], EntriesReference), Item([], Entries)]
      + Prefixed(InValues, Plan(v))
    case Struct(_, _) => FieldPlan(t, 0)
    case Array(e, _) => Prefixed(InElements, Plan(e))
  }

  function FieldPlan(t: Type, i: nat): seq<Item>
    requires t.Struct? && i <= |t.fields|
    decreases t, 0, |t.fields| - i
  {
    if i == |t.fields| then [] else Prefixed(InField(i), Plan(t.fields[i])) + FieldPlan(t, i + 1)
  }

  function Prefixed(s: Step, items: seq<Item>): (r: seq<Item>)
    ensures |r| == |items| && forall k :: 0 <= k < |r| ==> r[k] == Item([s] + items[k].path, items[k].role)
  {
    seq(|items|, k requires 0 <= k < |items| => Item([s] + items[k].path, items[k].role))
  }

  /** What a value at the end of a path lies in. */
  function Holder(path: Path): Owner
    decreases |path|
  {
    if path == [] then Outside else
    var init, last := path[..|path| - 1], path[|path| - 1];
    if last == InBuffer then Owned(Item(init, Contents))
    else if last == InValues then Owned(Item(init, Entries))
    else Holder(init)
  }

  function OwnerOf(item: Item): Owner {
    match item.role
    case Reference => Holder(item.path)
    case Contents => Owned(Item(item.path, Reference))
    case EntriesReference => Owned(Item(item.path, Contents))
    case Entries => Owned(Item(item.path, EntriesReference))
  }

  /** Kind, position and chunk of a row. */
  predicate Describes(row: Row, role: Role, spot: Spot, ptr: PtrSize) {
    spot.At? &&
    match role
    case Reference =>
      (spot.typ.Text? || spot.typ.Slice? || spot.typ.Map?)
      && row.kind == Pointer && row.pos == spot.offset && row.chunk == spot.chunk
    case Contents =>
      row.pos == 0 &&
      (match spot.typ
       case Text(_) => row.kind == Payload && row.chunk == 0
       case Slice(e) => row.kind == Payload && row.chunk == SizeOf(e, ptr)
       case Map(_) => row.kind == MapHeader && row.chunk == 0
       case _ => false)
    case EntriesReference => spot.typ.Map? && row.kind == Pointer && row.pos == 0 && row.chunk == 0
    case Entries => spot.typ.Map? && row.kind == MapEntries && row.pos == 0 && row.chunk == 40
  }

  /** The parent of a row is the row of its owner. */
  predicate HangsOn(row: Row, item: Item, parent: nat, plan: seq<Item>, rows: seq<Row>) {
    match OwnerOf(item)
    case Outside => row.parent == parent
    case Owned(o) => exists j :: 0 <= j < |plan| && j < |rows| && plan[j] == o && rows[j].id == row.parent
  }

  /** The rows `part` are those of the items, which hang on each other or on others of all rows. */
  predicate Fits(items: seq<Item>, part: seq<Row>, t: Type, base: nat, chunk: nat, parent: nat, ptr: PtrSize,
                 plan: seq<Item>, rows: seq<Row>)
  {
    |items| == |part| &&
    forall k :: 0 <= k < |part| ==>
      && Describes(part[k], items[k].role, Follow(t, base, chunk, items[k].path, ptr), ptr)
      && HangsOn(part[k], items[k], parent, plan, rows)
  }

  // ----- the rows of a value -----

  lemma {:induction false} FitsWider(items: seq<Item>, part: seq<Row>, t: Type, base: nat, chunk: nat, parent: nat,
                                     ptr: PtrSize, plan: seq<Item>, rows: seq<Row>, plan': seq<Item>, rows': seq<Row>,
                                     at: nat)
    requires Fits(items, part, t, base, chunk, parent, ptr, plan, rows) && |plan| == |rows|
    requires at + |plan| <= |plan'| == |rows'| && plan'[at..at + |plan|] == plan && rows'[at..at + |rows|] == rows
    ensures Fits(items, part, t, base, chunk, parent, ptr, plan', rows')
  {
    hide Follow, Describes, OwnerOf;
    forall k | 0 <= k < |part| ensures HangsOn(part[k], items[k], parent, plan', rows') {
      assert HangsOn(part[k], items[k], parent, plan, rows);
      if OwnerOf(items[k]).Owned? {
        var j :| 0 <= j < |plan| && plan[j] == OwnerOf(items[k]).item && rows[j].id == part[k].parent;
        assert plan'[at..at + |plan|][j] == plan'[at + j] && rows'[at..at + |rows|][j] == rows'[at + j];
      }
    }
  }

  lemma {:induction false} FitsBoth(a: seq<Item>, p: seq<Row>, b: seq<Item>, q: seq<Row>, t: Type, base: nat,
                                    chunk: nat, parent: nat, ptr: PtrSize, plan: seq<Item>, rows: seq<Row>)
    requires Fits(a, p, t, base, chunk, parent, ptr, plan, rows) && Fits(b, q, t, base, chunk, parent, ptr, plan, rows)
    ensures Fits(a + b, p + q, t, base, chunk, parent, ptr, plan, rows)
  {
    hide Follow, Describes, HangsOn;
  }

  lemma {:induction false} HolderFrom(s: Step, path: Path)
    ensures Holder([s] + path) ==
      match Holder(path)
      case Owned(o) => Owned(Item([s] + o.path, o.role))
      case Outside =>
        if s == InBuffer then Owned(Item([], Contents)) else if s == InValues then Owned(Item([], Entries)) else Outside
    decreases |path|
  {
    var p := [s] + path;
    if path == [] {
      assert p[..|p| - 1] == [] && p[|p| - 1] == s;
    } else {
      assert p[..|p| - 1] == [s] + path[..|path| - 1] && p[|p| - 1] == path[|path| - 1];
      HolderFrom(s, path[..|path| - 1]);
    }
  }

  lemma {:induction false} OwnerFrom(s: Step, item: Item)
    ensures OwnerOf(Item([s] + item.path, item.role)) ==
      match OwnerOf(item)
      case Owned(o) => Owned(Item([s] + o.path, o.role))
      case Outside =>
        if s == InBuffer then Owned(Item([], Contents)) else if s == InValues then Owned(Item([], Entries)) else Outside
  {
    hide Holder;
    HolderFrom(s, item.path);
  }

  /** One step in front: rows of the part `u` that it leads to, behind the rows `head` of the value itself;
      what hung outside hangs on row `on` of those, if the step enters a buffer. */
  lemma {:induction false} FitsFrom(s: Step, items: seq<Item>, part: seq<Row>, u: Type, inner: nat, c: nat, p: nat,
                                    t: Type, base: nat, chunk: nat, parent: nat, ptr: PtrSize,
                                    before: seq<Item>, head: seq<Row>, on: nat)
    requires Fits(items, part, u, inner, c, p, ptr, items, part) && |before| == |head|
    requires forall path: Path :: Follow(t, base, chunk, [s] + path, ptr) == Follow(u, inner, c, path, ptr)
    requires s == InBuffer ==> on < |head| && before[on] == Item([], Contents) && head[on].id == p
    requires s == InValues ==> on < |head| && before[on] == Item([], Entries) && head[on].id == p
    requires s != InBuffer && s != InValues ==> parent == p
    ensures Fits(Prefixed(s, items), part, t, base, chunk, parent, ptr, before + Prefixed(s, items), head + part)
  {
    hide Follow, Describes, OwnerOf;
    var more := Prefixed(s, items);
    var plan, rows := before + more, head + part;
    forall k | 0 <= k < |part|
      ensures Describes(part[k], more[k].role, Follow(t, base, chunk, more[k].path, ptr), ptr)
      ensures HangsOn(part[k], more[k], parent, plan, rows)
    {
      assert more[k] == Item([s] + items[k].path, items[k].role);
      OwnerFrom(s, items[k]);
      if OwnerOf(items[k]).Owned? {
        var j :| 0 <= j < |items| && items[j] == OwnerOf(items[k]).item && part[j].id == part[k].parent;
        assert plan[|before| + j] == more[j] && rows[|head| + j] == part[j];
      } else if s == InBuffer || s == InValues {
        assert plan[on] == before[on] && rows[on] == head[on];
      }
    }
  }

  lemma {:induction false} StepField(t: Type, i: nat, base: nat, chunk: nat, path: Path, ptr: PtrSize)
    requires t.Struct? && i < |t.fields|
    ensures Follow(t, base, chunk, [InField(i)] + path, ptr) ==
      Follow(t.fields[i], base + HeapSlots.FieldOffset(t.fields, i, ptr), chunk, path, ptr)
  {
    assert ([InField(i)] + path)[1..] == path;
  }

  lemma {:induction false} StepElements(t: Type, base: nat, chunk: nat, path: Path, ptr: PtrSize)
    requires t.Array?
    ensures Follow(t, base, chunk, [InElements] + path, ptr) == Follow(t.elem, base, SizeOf(t.elem, ptr), path, ptr)
  {
    assert ([InElements] + path)[1..] == path;
  }

  lemma {:induction false} StepBuffer(t: Type, base: nat, chunk: nat, path: Path, ptr: PtrSize)
    requires t.Slice?
    ensures Follow(t, base, chunk, [InBuffer] + path, ptr) == Follow(t.elem, 0, SizeOf(t.elem, ptr), path, ptr)
  {
    assert ([InBuffer] + path)[1..] == path;
  }

  lemma {:induction false} StepValues(t: Type, base: nat, chunk: nat, path: Path, ptr: PtrSize)
    requires t.Map?
    ensures Follow(t, base, chunk, [InValues] + path, ptr) == Follow(t.value, 3 * ptr, 40, path, ptr)
  {
    assert ([InValues] + path)[1..] == path;
  }

  /** The new rows of a value. */
  function Added(t: Type, parent: nat, base: nat, chunk: nat, rows: seq<Row>, ptr: PtrSize): seq<Row> {
    var all := Walked(t, parent, base, chunk, rows, ptr);
    if |rows| <= |all| then all[|rows|..] else []
  }

  /** Walking a type adds exactly the planned rows, each as its item describes it and on its owner. */
  lemma {:induction false} RowsExact(t: Type, parent: nat, base: nat, chunk: nat, rows: seq<Row>, ptr: PtrSize)
    ensures rows <= Walked(t, parent, base, chunk, rows, ptr)
    ensures var part := Added(t, parent, base, chunk, rows, ptr);
      Fits(Plan(t), part, t, base, chunk, parent, ptr, Plan(t), part)
    decreases t, 1, 0
  {
    hide NextId;
    match t {
      case Scalar(_) =>
      case Text(_) => TextRows(t, parent, base, chunk, rows, ptr);
      case Slice(_) => SliceRows(t, parent, base, chunk, rows, ptr);
      case Map(_) => MapRows(t, parent, base, chunk, rows, ptr);
      case Struct(_, fs) =>
        FieldRowsExact(t, parent, base, chunk, 0, rows, ptr);
        assert fs[0..] == fs;
      case Array(_, _) => ArrayRows(t, parent, base, chunk, rows, ptr);
    }
  }

  lemma {:induction false} TextRows(t: Type, parent: nat, base: nat, chunk: nat, rows: seq<Row>, ptr: PtrSize)
    requires t.Text?
    ensures rows <= Walked(t, parent, base, chunk, rows, ptr)
    ensures var part := Added(t, parent, base, chunk, rows, ptr);
      Fits(Plan(t), part, t, base, chunk, parent, ptr, Plan(t), part)
  {
    hide NextId;
    var p := NextId(rows, Pointer);
    var a := Row(p, parent, base, chunk, Pointer);
    var b := Row(NextId(rows + [a], Payload), p, 0, 0, Payload);
    assert Added(t, parent, base, chunk, rows, ptr) == [a, b];
    assert Plan(t)[0] == Item([], Reference);
  }

  /** The rows of a slice itself. */
  function SliceHead(t: Type, parent: nat, base: nat, chunk: nat, rows: seq<Row>, ptr: PtrSize): seq<Row>
    requires t.Slice?
  {
    var a := Row(NextId(rows, Pointer), parent, base, chunk, Pointer);
    [a, Row(NextId(rows + [a], Payload), a.id, 0, SizeOf(t.elem, ptr), Payload)]
  }

  /** The rows of a map itself. */
  function MapHead(parent: nat, base: nat, chunk: nat, rows: seq<Row>): seq<Row> {
    var a := Row(NextId(rows, Pointer), parent, base, chunk, Pointer);
    var b := Row(NextId(rows + [a], MapHeader), a.id, 0, 0, MapHeader);
    var c := Row(NextId(rows + [a] + [b], Pointer), b.id, 0, 0, Pointer);
    [a, b, c, Row(NextId(rows + [a] + [b] + [c], MapEntries), c.id, 0, 40, MapEntries)]
  }

  lemma {:induction false} SliceWalked(t: Type, parent: nat, base: nat, chunk: nat, rows: seq<Row>, ptr: PtrSize)
    requires t.Slice?
    ensures var head := SliceHead(t, parent, base, chunk, rows, ptr);
      Walked(t, parent, base, chunk, rows, ptr) ==
      Walked(t.elem, head[1].id, 0, SizeOf(t.elem, ptr), rows + head, ptr)
  {
    hide NextId, SizeOf;
    var head := SliceHead(t, parent, base, chunk, rows, ptr);
    assert rows + [head[0]] + [head[1]] == rows + head;
  }

  lemma {:induction false} MapWalked(t: Type, parent: nat, base: nat, chunk: nat, rows: seq<Row>, ptr: PtrSize)
    requires t.Map?
    ensures var head := MapHead(parent, base, chunk, rows);
      Walked(t, parent, base, chunk, rows, ptr) == Walked(t.value, head[3].id, 3 * ptr, 40, rows + head, ptr)
  {
    hide NextId, SizeOf;
    var head := MapHead(parent, base, chunk, rows);
    assert rows + [head[0]] + [head[1]] + [head[2]] + [head[3]] == rows + head;
  }

  const SLICE_ITEMS := [Item([], Reference), Item([], Contents)]
  const MAP_ITEMS := [Item([], Reference), Item([], Contents), Item([], EntriesReference), Item([], Entries)]

  lemma {:induction false} SliceRows(t: Type, parent: nat, base: nat, chunk: nat, rows: seq<Row>, ptr: PtrSize)
    requires t.Slice?
    ensures rows <= Walked(t, parent, base, chunk, rows, ptr)
    ensures var part := Added(t, parent, base, chunk, rows, ptr);
      Fits(Plan(t), part, t, base, chunk, parent, ptr, Plan(t), part)
    decreases t, 0, 0
  {
    hide Follow, Fits, Walked, SliceHead;
    var e, size := t.elem, SizeOf(t.elem, ptr);
    var head := SliceHead(t, parent, base, chunk, rows, ptr);
    SliceHeadIs(t, parent, base, chunk, rows, ptr);
    SliceWalked(t, parent, base, chunk, rows, ptr);
    RowsExact(e, head[1].id, 0, size, rows + head, ptr);
    var all := Walked(t, parent, base, chunk, rows, ptr);
    var part := all[|rows + head|..];
    forall path: Path
      ensures Follow(t, base, chunk, [InBuffer] + path, ptr) == Follow(e, 0, size, path, ptr)
    {
      StepBuffer(t, base, chunk, path, ptr);
    }
    FitsFrom(InBuffer, Plan(e), part, e, 0, size, head[1].id, t, base, chunk, parent, ptr, SLICE_ITEMS, head, 1);
    HeadFits(t, SLICE_ITEMS, head, Prefixed(InBuffer, Plan(e)), part, base, chunk, parent, ptr);
    assert all[|rows|..] == head + part;
  }

  lemma {:induction false} SliceHeadIs(t: Type, parent: nat, base: nat, chunk: nat, rows: seq<Row>, ptr: PtrSize)
    requires t.Slice?
    ensures HeadOf(t, SliceHead(t, parent, base, chunk, rows, ptr), parent, base, chunk, ptr)
  {
  }

  lemma {:induction false} MapHeadIs(t: Type, parent: nat, base: nat, chunk: nat, rows: seq<Row>, ptr: PtrSize)
    requires t.Map?
    ensures HeadOf(t, MapHead(parent, base, chunk, rows), parent, base, chunk, ptr)
  {
  }

  lemma {:induction false} MapRows(t: Type, parent: nat, base: nat, chunk: nat, rows: seq<Row>, ptr: PtrSize)
    requires t.Map?
    ensures rows <= Walked(t, parent, base, chunk, rows, ptr)
    ensures var part := Added(t, parent, base, chunk, rows, ptr);
      Fits(Plan(t), part, t, base, chunk, parent, ptr, Plan(t), part)
    decreases t, 0, 0
  {
    hide Follow, Fits, Walked, MapHead;
    var v := t.value;
    var head := MapHead(parent, base, chunk, rows);
    MapHeadIs(t, parent, base, chunk, rows, ptr);
    MapWalked(t, parent, base, chunk, rows, ptr);
    RowsExact(v, head[3].id, 3 * ptr, 40, rows + head, ptr);
    var all := Walked(t, parent, base, chunk, rows, ptr);
    var part := all[|rows + head|..];
    forall path: Path
      ensures Follow(t, base, chunk, [InValues] + path, ptr) == Follow(v, 3 * ptr, 40, path, ptr)
    {
      StepValues(t, base, chunk, path, ptr);
    }
    FitsFrom(InValues, Plan(v), part, v, 3 * ptr, 40, head[3].id, t, base, chunk, parent, ptr, MAP_ITEMS, head, 3);
    HeadFits(t, MAP_ITEMS, head, Prefixed(InValues, Plan(v)), part, base, chunk, parent, ptr);
    assert all[|rows|..] == head + part;
  }

  predicate HeadOf(t: Type, head: seq<Row>, parent: nat, base: nat, chunk: nat, ptr: PtrSize) {
    && |head| >= 2 && head[0] == Row(head[0].id, parent, base, chunk, Pointer)
    && match t
       case Slice(e) => |head| == 2 && head[1] == Row(head[1].id, head[0].id, 0, SizeOf(e, ptr), Payload)
       case Map(_) =>
         && |head| == 4 && head[1] == Row(head[1].id, head[0].id, 0, 0, MapHeader)
         && head[2] == Row(head[2].id, head[1].id, 0, 0, Pointer)
         && head[3] == Row(head[3].id, head[2].id, 0, 40, MapEntries)
       case _ => false
  }

  /** The rows of the value itself, and with them all. */
  lemma {:induction false} HeadFits(t: Type, before: seq<Item>, head: seq<Row>, items: seq<Item>, part: seq<Row>,
                                    base: nat, chunk: nat, parent: nat, ptr: PtrSize)
    requires HeadOf(t, head, parent, base, chunk, ptr)
    requires before == if t.Slice? then SLICE_ITEMS else MAP_ITEMS
    requires Fits(items, part, t, base, chunk, parent, ptr, before + items, head + part)
    ensures Fits(before + items, head + part, t, base, chunk, parent, ptr, before + items, head + part)
  {
    HeadFitsAlone(t, before, head, before + items, head + part, base, chunk, parent, ptr);
    hide Fits;
    FitsBoth(before, head, items, part, t, base, chunk, parent, ptr, before + items, head + part);
  }

  lemma {:induction false} HeadFitsAlone(t: Type, before: seq<Item>, head: seq<Row>, plan: seq<Item>, rows: seq<Row>,
                                         base: nat, chunk: nat, parent: nat, ptr: PtrSize)
    requires HeadOf(t, head, parent, base, chunk, ptr) && |plan| >= |before| && |rows| >= |head|
    requires before == if t.Slice? then SLICE_ITEMS else MAP_ITEMS
    requires plan[..|before|] == before && rows[..|head|] == head
    ensures Fits(before, head, t, base, chunk, parent, ptr, plan, rows)
  {
    forall k | 0 <= k < |head| ensures HangsOn(head[k], before[k], parent, plan, rows) {
      assert k > 0 ==> plan[..|before|][k - 1] == before[k - 1] && rows[..|head|][k - 1] == head[k - 1];
    }
  }

  lemma {:induction false} ArrayRows(t: Type, parent: nat, base: nat, chunk: nat, rows: seq<Row>, ptr: PtrSize)
    requires t.Array?
    ensures rows <= Walked(t, parent, base, chunk, rows, ptr)
    ensures var part := Added(t, parent, base, chunk, rows, ptr);
      Fits(Plan(t), part, t, base, chunk, parent, ptr, Plan(t), part)
    decreases t, 0, 0
  {
    hide Follow, Fits;
    var e, size := t.elem, SizeOf(t.elem, ptr);
    var part := Added(e, parent, base, size, rows, ptr);
    RowsExact(e, parent, base, size, rows, ptr);
    forall path: Path
      ensures Follow(t, base, chunk, [InElements] + path, ptr) == Follow(e, base, size, path, ptr)
    {
      StepElements(t, base, chunk, path, ptr);
    }
    FitsFrom(InElements, Plan(e), part, e, base, size, parent, t, base, chunk, parent, ptr, [], [], 0);
    assert [] + Prefixed(InElements, Plan(e)) == Prefixed(InElements, Plan(e)) && [] + part == part;
  }

  /** The rows of the fields from `i` on. */
  lemma {:induction false} FieldRowsExact(t: Type, parent: nat, base: nat, chunk: nat, i: nat, rows: seq<Row>,
                                          ptr: PtrSize)
    requires t.Struct? && i <= |t.fields|
    ensures var end := HeapSlots.FieldEnd(t.fields, i, ptr);
      var all := WalkedFields(t.fields[i..], parent, base, chunk, end, rows, ptr);
      rows <= all &&
      Fits(FieldPlan(t, i), all[|rows|..], t, base, chunk, parent, ptr, FieldPlan(t, i), all[|rows|..])
    decreases t, 0, |t.fields| - i
  {
    hide Follow, Fits, Walked, Plan, WalkedFields, HeapSlots.FieldEnd, HeapSlots.FieldOffset;
    var fs := t.fields;
    if i == |fs| {
      NoFieldRows(t, parent, base, chunk, rows, ptr);
    } else {
      var at := base + HeapSlots.FieldOffset(fs, i, ptr);
      var next := Walked(fs[i], parent, at, chunk, rows, ptr);
      var all := WalkedFields(fs[i + 1..], parent, base, chunk, HeapSlots.FieldEnd(fs, i + 1, ptr), next, ptr);
      FieldRowsStep(t, parent, base, chunk, i, rows, ptr);
      RowsExact(fs[i], parent, at, chunk, rows, ptr);
      FieldRowsExact(t, parent, base, chunk, i + 1, next, ptr);
      forall path: Path
        ensures Follow(t, base, chunk, [InField(i)] + path, ptr) == Follow(fs[i], at, chunk, path, ptr)
      {
        StepField(t, i, base, chunk, path, ptr);
      }
      var a, p := Prefixed(InField(i), Plan(fs[i])), next[|rows|..];
      var b, q := FieldPlan(t, i + 1), all[|next|..];
      FitsFrom(InField(i), Plan(fs[i]), p, fs[i], at, chunk, parent, t, base, chunk, parent, ptr, [], [], 0);
      assert [] + a == a && [] + p == p;
      FieldsFit(a, p, b, q, t, base, chunk, parent, ptr);
      assert all[|rows|..] == p + q;
    }
  }

  lemma {:induction false} FieldsFit(a: seq<Item>, p: seq<Row>, b: seq<Item>, q: seq<Row>, t: Type, base: nat,
                                     chunk: nat, parent: nat, ptr: PtrSize)
    requires Fits(a, p, t, base, chunk, parent, ptr, a, p) && Fits(b, q, t, base, chunk, parent, ptr, b, q)
    ensures Fits(a + b, p + q, t, base, chunk, parent, ptr, a + b, p + q)
  {
    assert |a| == |p| && |b| == |q|;
    hide Fits;
    assert (a + b)[0..|a|] == a && (p + q)[0..|p|] == p;
    assert (a + b)[|a|..|a| + |b|] == b && (p + q)[|p|..|p| + |q|] == q;
    FitsWider(a, p, t, base, chunk, parent, ptr, a, p, a + b, p + q, 0);
    FitsWider(b, q, t, base, chunk, parent, ptr, b, q, a + b, p + q, |a|);
    FitsBoth(a, p, b, q, t, base, chunk, parent, ptr, a + b, p + q);
  }

  lemma {:induction false} NoFieldRows(t: Type, parent: nat, base: nat, chunk: nat, rows: seq<Row>, ptr: PtrSize)
    requires t.Struct?
    ensures var n := |t.fields|;
      var all := WalkedFields(t.fields[n..], parent, base, chunk, HeapSlots.FieldEnd(t.fields, n, ptr), rows, ptr);
      all == rows && Fits(FieldPlan(t, n), all[|rows|..], t, base, chunk, parent, ptr, FieldPlan(t, n), all[|rows|..])
  {
  }

  lemma {:induction false} FieldRowsStep(t: Type, parent: nat, base: nat, chunk: nat, i: nat, rows: seq<Row>,
                                         ptr: PtrSize)
    requires t.Struct? && i < |t.fields|
    ensures var fs := t.fields;
      WalkedFields(fs[i..], parent, base, chunk, HeapSlots.FieldEnd(fs, i, ptr), rows, ptr) ==
      WalkedFields(fs[i + 1..], parent, base, chunk, HeapSlots.FieldEnd(fs, i + 1, ptr),
                   Walked(fs[i], parent, base + HeapSlots.FieldOffset(fs, i, ptr), chunk, rows, ptr), ptr)
  {
    hide Walked, Packed;
    var fs := t.fields;
    assert fs[i..][0] == fs[i] && fs[i..][1..] == fs[i + 1..];
  }

  /** The rows of a group: the root's, and those of its fields, which hang on it. */
  lemma {:induction false} GroupRowsExact(fields: seq<Field>, ptr: PtrSize)
    ensures fields == [] ==> AllRows(fields, ptr) == [Row(0, 0, 0, 0, Root)]
    ensures fields != [] ==>
      var n := |fields| - 1;
      var before, all, f := AllRows(fields[..n], ptr), AllRows(fields, ptr), fields[n];
      before <= all &&
      Fits(Plan(f.typ), all[|before|..], f.typ, f.offset, 0, 0, ptr, Plan(f.typ), all[|before|..])
  {
    hide Walked, Fits, Plan;
    if fields != [] {
      var n := |fields| - 1;
      RowsExact(fields[n].typ, 0, fields[n].offset, 0, AllRows(fields[..n], ptr), ptr);
    }
  }

  /** The numbers of the rows by kind. */
  lemma {:induction false} RowNumbers(rows: seq<Row>, i: nat)
    requires Sound(rows) && i < |rows|
    ensures rows[i].id == Count(rows[..i], rows[i].kind) +
      match rows[i].kind
      case Root => 0
      case MapHeader => 0x1000
      case MapEntries => 0x2000
      case Payload => 0x3000
      case Pointer => 0x4000
  {
    hide Tree, Count;
  }
}
