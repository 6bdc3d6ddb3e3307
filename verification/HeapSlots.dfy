/** The heap slots of a type by the ways to reach them: through the fields of structs, the elements of
    arrays and the elements of slices, which lie in a buffer of their own. */
module HeapSlots {
  import opened MemoryMap

  datatype Step = InField(i: nat) | InElement(i: nat) | InBuffer

  type Path = seq<Step>

  datatype Spot = Nowhere | At(typ: Type, offset: nat)

  /** Where field `i` of a struct begins: behind the field before it, on a multiple of its size or of the
      pointer size, whichever is less; a field without a size takes a pointer's. */
  function FieldOffset(fs: seq<Type>, i: nat, ptr: PtrSize): nat
    requires i < |fs|
    decreases i
  {
    var size := SizeOf(fs[i], ptr);
    Packed(FieldEnd(fs, i, ptr), if 0 < size <= ptr then size else ptr)
  }

  /** Where the first `i` fields end. */
  function FieldEnd(fs: seq<Type>, i: nat, ptr: PtrSize): nat
    requires i <= |fs|
    decreases i, 0
  {
    if i == 0 then 0 else
    var size := SizeOf(fs[i - 1], ptr);
    FieldOffset(fs, i - 1, ptr) + if size == 0 then ptr else size
  }

  /** The type that a path leads to, and its offset in the buffer it lies in. */
  function Follow(t: Type, base: nat, path: Path, ptr: PtrSize): Spot
    decreases |path|
  {
    if path == [] then At(t, base) else
    match path[0]
    case InField(i) =>
      if t.Struct? && i < |t.fields| then Follow(t.fields[i], base + FieldOffset(t.fields, i, ptr), path[1..], ptr)
      else Nowhere
    case InElement(i) =>
      if t.Array? && i < t.len then Follow(t.elem, base + i * SizeOf(t.elem, ptr), path[1..], ptr) else Nowhere
    case InBuffer =>
      if t.Slice? then Follow(t.elem, 0, path[1..], ptr) else Nowhere
  }

  /** Strings, slices and maps have a heap slot: the word behind the first one, for a map the first. */
  predicate HasSlot(s: Spot) {
    s.At? && (s.typ.Text? || s.typ.Slice? || s.typ.Map?)
  }

  function SlotOf(s: Spot, ptr: PtrSize): nat
    requires HasSlot(s)
  {
    if s.typ.Map? then s.offset else s.offset + ptr
  }

  /** A way before another one: it ends earlier on the same way, or takes an earlier field or element. */
  predicate Before(p: Path, q: Path) {
    if p == [] then q != []
    else if q == [] then false
    else if p[0] == q[0] then Before(p[1..], q[1..])
    else (p[0].InField? && q[0].InField? && p[0].i < q[0].i) || (p[0].InElement? && q[0].InElement? && p[0].i < q[0].i)
  }

  predicate Ordered(paths: seq<Path>) {
    forall j, k :: 0 <= j < k < |paths| ==> Before(paths[j], paths[k])
  }

  // ----- all ways, in order -----

  function Prefixed(s: Step, paths: seq<Path>): (r: seq<Path>)
    ensures |r| == |paths| && forall k :: 0 <= k < |r| ==> r[k] == [s] + paths[k]
  {
    seq(|paths|, k requires 0 <= k < |paths| => [s] + paths[k])
  }

  function Paths(t: Type): seq<Path>
    decreases t, 1, 0
  {
    match t
    case Scalar(_) => []
    case Text(_) => [[]]
    case Map(_) => [[]]
    case Slice(e) => [[]] + Prefixed(InBuffer, Paths(e))
    case Struct(_, fs) => FieldPaths(t, 0)
    case Array(e, n) => ElementPaths(t, n)
  }

  /** Those through field `i` or a later one. */
  function FieldPaths(t: Type, i: nat): seq<Path>
    requires t.Struct? && i <= |t.fields|
    decreases t, 0, |t.fields| - i
  {
    if i == |t.fields| then [] else Prefixed(InField(i), Paths(t.fields[i])) + FieldPaths(t, i + 1)
  }

  /** Those through the first `n` elements. */
  function ElementPaths(t: Type, n: nat): seq<Path>
    requires t.Array?
    decreases t, 0, n
  {
    if n == 0 then [] else ElementPaths(t, n - 1) + Prefixed(InElement(n - 1), Paths(t.elem))
  }

  // ----- the slots are those of all ways, in order -----

  /** The slots that the ways lead to. */
  predicate Leads(paths: seq<Path>, slots: seq<nat>, t: Type, base: nat, ptr: PtrSize) {
    |paths| == |slots| &&
    forall k :: 0 <= k < |paths| ==>
      HasSlot(Follow(t, base, paths[k], ptr)) && SlotOf(Follow(t, base, paths[k], ptr), ptr) == slots[k]
  }

  /** One step in front: what the ways lead to from the part that the step goes to. */
  lemma {:induction false} LeadsFrom(paths: seq<Path>, slots: seq<nat>, s: Step, t: Type, base: nat, u: Type,
                                     inner: nat, ptr: PtrSize)
    requires Leads(paths, slots, u, inner, ptr)
    requires forall path: Path :: Follow(t, base, [s] + path, ptr) == Follow(u, inner, path, ptr)
    ensures Leads(Prefixed(s, paths), slots, t, base, ptr)
  {
    hide Follow;
    forall k | 0 <= k < |paths|
      ensures Follow(t, base, Prefixed(s, paths)[k], ptr) == Follow(u, inner, paths[k], ptr)
    {
      assert Prefixed(s, paths)[k] == [s] + paths[k];
    }
  }

  lemma {:induction false} LeadsBoth(p: seq<Path>, q: seq<Path>, a: seq<nat>, b: seq<nat>, t: Type, base: nat,
                                     ptr: PtrSize)
    requires Leads(p, a, t, base, ptr) && Leads(q, b, t, base, ptr)
    ensures Leads(p + q, a + b, t, base, ptr)
  {
    hide Follow;
  }

  lemma {:induction false} StepField(t: Type, i: nat, base: nat, path: Path, ptr: PtrSize)
    requires t.Struct? && i < |t.fields|
    ensures Follow(t, base, [InField(i)] + path, ptr) ==
      Follow(t.fields[i], base + FieldOffset(t.fields, i, ptr), path, ptr)
  {
    assert ([InField(i)] + path)[1..] == path;
  }

  lemma {:induction false} StepElement(t: Type, i: nat, base: nat, path: Path, ptr: PtrSize)
    requires t.Array? && i < t.len
    ensures Follow(t, base, [InElement(i)] + path, ptr) == Follow(t.elem, base + i * SizeOf(t.elem, ptr), path, ptr)
  {
    assert ([InElement(i)] + path)[1..] == path;
  }

  lemma {:induction false} StepBuffer(t: Type, base: nat, path: Path, ptr: PtrSize)
    requires t.Slice?
    ensures Follow(t, base, [InBuffer] + path, ptr) == Follow(t.elem, 0, path, ptr)
  {
    assert ([InBuffer] + path)[1..] == path;
  }

  /** The k-th slot is that of the k-th way: its offset is that of the string, slice or map there, and for
      strings and slices a pointer size behind. */
  lemma {:induction false} SlotsExact(t: Type, base: nat, ptr: PtrSize)
    ensures Leads(Paths(t), SlotOffsets(t, base, ptr), t, base, ptr)
    decreases t, 1, 0
  {
    match t {
      case Scalar(_) =>
      case Text(_) =>
      case Map(_) =>
      case Slice(e) =>
        SlotsExact(e, 0, ptr);
        forall path: Path ensures Follow(t, base, [InBuffer] + path, ptr) == Follow(e, 0, path, ptr) {
          StepBuffer(t, base, path, ptr);
        }
        LeadsFrom(Paths(e), SlotOffsets(e, 0, ptr), InBuffer, t, base, e, 0, ptr);
        LeadsBoth([[]], Prefixed(InBuffer, Paths(e)), [base + ptr], SlotOffsets(e, 0, ptr), t, base, ptr);
      case Struct(_, fs) =>
        FieldSlotsExact(t, base, 0, ptr);
        assert fs[0..] == fs;
      case Array(_, n) => ElementSlotsExact(t, base, n, ptr);
    }
  }

  lemma {:induction false} FieldSlotsExact(t: Type, base: nat, i: nat, ptr: PtrSize)
    requires t.Struct? && i <= |t.fields|
    ensures Leads(FieldPaths(t, i), FieldSlots(t.fields[i..], base, FieldEnd(t.fields, i, ptr), ptr), t, base, ptr)
    decreases t, 0, |t.fields| - i
  {
    hide Follow, Leads, SlotOffsets, Paths, Packed;
    var fs := t.fields;
    if i == |fs| {
      assert FieldSlots(fs[i..], base, FieldEnd(fs, i, ptr), ptr) == [] && FieldPaths(t, i) == [];
      NothingLeads(t, base, ptr);
    } else {
      var at := base + FieldOffset(fs, i, ptr);
      var slots := SlotOffsets(fs[i], at, ptr);
      var rest := FieldSlots(fs[i + 1..], base, FieldEnd(fs, i + 1, ptr), ptr);
      FieldSlotsStep(fs, i, base, ptr);
      SlotsExact(fs[i], at, ptr);
      forall path: Path ensures Follow(t, base, [InField(i)] + path, ptr) == Follow(fs[i], at, path, ptr) {
        StepField(t, i, base, path, ptr);
      }
      LeadsFrom(Paths(fs[i]), slots, InField(i), t, base, fs[i], at, ptr);
      FieldSlotsExact(t, base, i + 1, ptr);
      LeadsBoth(Prefixed(InField(i), Paths(fs[i])), FieldPaths(t, i + 1), slots, rest, t, base, ptr);
    }
  }

  lemma {:induction false} NothingLeads(t: Type, base: nat, ptr: PtrSize)
    ensures Leads([], [], t, base, ptr)
  {
  }

  lemma {:induction false} FieldSlotsStep(fs: seq<Type>, i: nat, base: nat, ptr: PtrSize)
    requires i < |fs|
    ensures FieldSlots(fs[i..], base, FieldEnd(fs, i, ptr), ptr) ==
      SlotOffsets(fs[i], base + FieldOffset(fs, i, ptr), ptr)
      + FieldSlots(fs[i + 1..], base, FieldEnd(fs, i + 1, ptr), ptr)
  {
    hide SlotOffsets, Packed;
    assert fs[i..][0] == fs[i] && fs[i..][1..] == fs[i + 1..];
  }

  lemma {:induction false} ElementSlotsExact(t: Type, base: nat, n: nat, ptr: PtrSize)
    requires t.Array? && n <= t.len
    ensures Leads(ElementPaths(t, n), ElementSlots(t.elem, base, n, ptr), t, base, ptr)
    decreases t, 0, n
  {
    hide Follow, Leads, SlotOffsets, Paths;
    if n == 0 {
      NothingLeads(t, base, ptr);
    } else {
      var i, e := n - 1, t.elem;
      var at := base + i * SizeOf(e, ptr);
      SlotsExact(e, at, ptr);
      forall path: Path ensures Follow(t, base, [InElement(i)] + path, ptr) == Follow(e, at, path, ptr) {
        StepElement(t, i, base, path, ptr);
      }
      LeadsFrom(Paths(e), SlotOffsets(e, at, ptr), InElement(i), t, base, e, at, ptr);
      ElementSlotsExact(t, base, i, ptr);
      LeadsBoth(ElementPaths(t, i), Prefixed(InElement(i), Paths(e)), ElementSlots(e, base, i, ptr),
                SlotOffsets(e, at, ptr), t, base, ptr);
    }
  }

  // ----- there are no others -----

  /** Every way to a string, slice or map is among them. */
  lemma {:induction false} PathsAll(t: Type, base: nat, path: Path, ptr: PtrSize)
    requires HasSlot(Follow(t, base, path, ptr))
    ensures path in Paths(t)
    decreases t, 0
  {
    hide FieldOffset;
    if path != [] {
      var s, rest := path[0], path[1..];
      assert path == [s] + rest;
      match s {
        case InField(i) =>
          PathsAll(t.fields[i], base + FieldOffset(t.fields, i, ptr), rest, ptr);
          PrefixedHas(s, Paths(t.fields[i]), rest);
          FieldPathsHave(t, 0, i, path);
        case InElement(i) =>
          PathsAll(t.elem, base + i * SizeOf(t.elem, ptr), rest, ptr);
          PrefixedHas(s, Paths(t.elem), rest);
          ElementPathsHave(t, t.len, i, path);
        case InBuffer =>
          PathsAll(t.elem, 0, rest, ptr);
          PrefixedHas(s, Paths(t.elem), rest);
      }
    }
  }

  lemma {:induction false} PrefixedHas(s: Step, paths: seq<Path>, path: Path)
    requires path in paths
    ensures [s] + path in Prefixed(s, paths)
  {
    var k :| 0 <= k < |paths| && paths[k] == path;
    assert Prefixed(s, paths)[k] == [s] + path;
  }

  lemma {:induction false} FieldPathsHave(t: Type, from: nat, i: nat, path: Path)
    requires t.Struct? && from <= i < |t.fields| && path in Prefixed(InField(i), Paths(t.fields[i]))
    ensures path in FieldPaths(t, from)
    decreases i - from
  {
    hide Paths;
    if from < i { FieldPathsHave(t, from + 1, i, path); }
  }

  lemma {:induction false} ElementPathsHave(t: Type, n: nat, i: nat, path: Path)
    requires t.Array? && i < n && path in Prefixed(InElement(i), Paths(t.elem))
    ensures path in ElementPaths(t, n)
    decreases n
  {
    hide Paths;
    if i < n - 1 { ElementPathsHave(t, n - 1, i, path); }
  }

  /** They come in order, each once. */
  lemma {:induction false} PathsOrdered(t: Type)
    ensures Ordered(Paths(t))
    decreases t, 1, 0
  {
    match t {
      case Slice(e) =>
        PathsOrdered(e);
        PrefixedOrdered(InBuffer, Paths(e));
      case Struct(_, _) => FieldPathsOrdered(t, 0);
      case Array(_, n) => ElementPathsOrdered(t, n);
      case _ =>
    }
  }

  lemma {:induction false} BeforeFrom(s: Step, p: Path, q: Path)
    ensures Before([s] + p, [s] + q) <==> Before(p, q)
  {
    assert ([s] + p)[1..] == p && ([s] + q)[1..] == q;
  }

  lemma {:induction false} PrefixedOrdered(s: Step, paths: seq<Path>)
    requires Ordered(paths)
    ensures Ordered(Prefixed(s, paths))
  {
    hide Before;
    var r := Prefixed(s, paths);
    forall j, k | 0 <= j < k < |r| ensures Before(r[j], r[k]) {
      assert r[j] == [s] + paths[j] && r[k] == [s] + paths[k];
      BeforeFrom(s, paths[j], paths[k]);
    }
  }

  lemma {:induction false} FieldPathsOrdered(t: Type, i: nat)
    requires t.Struct? && i <= |t.fields|
    ensures Ordered(FieldPaths(t, i))
    ensures forall k :: 0 <= k < |FieldPaths(t, i)| ==>
      FieldPaths(t, i)[k] != [] && FieldPaths(t, i)[k][0].InField? && FieldPaths(t, i)[k][0].i >= i
    decreases t, 0, |t.fields| - i
  {
    hide Paths, Before;
    if i < |t.fields| {
      var a, b := Prefixed(InField(i), Paths(t.fields[i])), FieldPaths(t, i + 1);
      PathsOrdered(t.fields[i]);
      PrefixedOrdered(InField(i), Paths(t.fields[i]));
      FieldPathsOrdered(t, i + 1);
      forall j, k | 0 <= j < |a| && 0 <= k < |b| ensures Before(a[j], b[k]) {
        assert a[j] == [InField(i)] + Paths(t.fields[i])[j];
        LaterStep(a[j], b[k]);
      }
      BothOrdered(a, b);
    }
  }

  lemma {:induction false} ElementPathsOrdered(t: Type, n: nat)
    requires t.Array?
    ensures Ordered(ElementPaths(t, n))
    ensures forall k :: 0 <= k < |ElementPaths(t, n)| ==>
      ElementPaths(t, n)[k] != [] && ElementPaths(t, n)[k][0].InElement? && ElementPaths(t, n)[k][0].i < n
    decreases t, 0, n
  {
    hide Paths, Before;
    if n > 0 {
      var a, b := ElementPaths(t, n - 1), Prefixed(InElement(n - 1), Paths(t.elem));
      PathsOrdered(t.elem);
      PrefixedOrdered(InElement(n - 1), Paths(t.elem));
      ElementPathsOrdered(t, n - 1);
      forall j, k | 0 <= j < |a| && 0 <= k < |b| ensures Before(a[j], b[k]) {
        assert b[k] == [InElement(n - 1)] + Paths(t.elem)[k];
        LaterStep(a[j], b[k]);
      }
      BothOrdered(a, b);
    }
  }

  lemma {:induction false} LaterStep(p: Path, q: Path)
    requires p != [] && q != []
    requires (p[0].InField? && q[0].InField?) || (p[0].InElement? && q[0].InElement?)
    requires p[0].i < q[0].i
    ensures Before(p, q)
  {
  }

  lemma {:induction false} BothOrdered(a: seq<Path>, b: seq<Path>)
    requires Ordered(a) && Ordered(b) && forall j, k :: 0 <= j < |a| && 0 <= k < |b| ==> Before(a[j], b[k])
    ensures Ordered(a + b)
  {
    hide Before;
    forall j, k | 0 <= j < k < |a + b| ensures Before((a + b)[j], (a + b)[k]) {
      if j >= |a| {
        assert Before(b[j - |a|], b[k - |a|]);
      } else if k < |a| {
        assert Before(a[j], a[k]);
      } else {
        assert Before(a[j], b[k - |a|]);
      }
    }
  }

  // ----- the slots of one buffer lie apart -----

  /** The sizes have room for what is inside. */
  predicate WellSized(t: Type, ptr: PtrSize) {
    match t
    case Text(n) => 2 * ptr <= n
    case Struct(n, fs) => (forall i :: 0 <= i < |fs| ==> WellSized(fs[i], ptr)) && FieldEnd(fs, |fs|, ptr) <= n
    case Array(e, _) => WellSized(e, ptr)
    case _ => true
  }

  /** A way that stays in the buffer it begins in. */
  predicate Flat(path: Path) {
    forall i :: 0 <= i < |path| ==> path[i] != InBuffer
  }

  /** The slots of flat ways lie one behind the other between two offsets. */
  predicate Spread(paths: seq<Path>, slots: seq<nat>, lo: nat, hi: nat, ptr: PtrSize) {
    && |paths| == |slots|
    && (forall k :: 0 <= k < |paths| && Flat(paths[k]) ==> lo <= slots[k] && slots[k] + ptr <= hi)
    && (forall j, k :: 0 <= j < k < |paths| && Flat(paths[j]) && Flat(paths[k]) ==> slots[j] + ptr <= slots[k])
  }

  lemma {:induction false} SpreadBoth(p: seq<Path>, q: seq<Path>, a: seq<nat>, b: seq<nat>, lo: nat, mid: nat,
                                      next: nat, hi: nat, ptr: PtrSize)
    requires Spread(p, a, lo, mid, ptr) && Spread(q, b, next, hi, ptr) && lo <= mid <= next <= hi
    ensures Spread(p + q, a + b, lo, hi, ptr)
  {
    hide Flat;
  }

  lemma {:induction false} FlatFrom(s: Step, path: Path)
    ensures Flat([s] + path) <==> s != InBuffer && Flat(path)
  {
    if Flat([s] + path) {
      assert ([s] + path)[0] == s;
      forall i | 0 <= i < |path| ensures path[i] != InBuffer {
        assert ([s] + path)[i + 1] == path[i];
      }
    }
  }

  lemma {:induction false} SpreadFrom(s: Step, paths: seq<Path>, slots: seq<nat>, lo: nat, hi: nat, ptr: PtrSize)
    requires if s == InBuffer then |paths| == |slots| else Spread(paths, slots, lo, hi, ptr)
    ensures Spread(Prefixed(s, paths), slots, lo, hi, ptr)
  {
    hide Flat;
    var r := Prefixed(s, paths);
    forall k | 0 <= k < |r| ensures Flat(r[k]) <==> s != InBuffer && Flat(paths[k]) {
      assert r[k] == [s] + paths[k];
      FlatFrom(s, paths[k]);
    }
  }

  lemma {:induction false} SpreadWider(paths: seq<Path>, slots: seq<nat>, lo: nat, hi: nat, wide: nat, ptr: PtrSize)
    requires Spread(paths, slots, lo, hi, ptr) && hi <= wide
    ensures Spread(paths, slots, lo, wide, ptr)
  {
    hide Flat;
  }

  lemma {:induction false} SpreadNone(lo: nat, hi: nat, ptr: PtrSize)
    ensures Spread([], [], lo, hi, ptr)
  {
  }

  lemma {:induction false} SpreadOne(slot: nat, lo: nat, hi: nat, ptr: PtrSize)
    requires lo <= slot && slot + ptr <= hi
    ensures Spread([[]], [slot], lo, hi, ptr)
  {
  }

  /** Where the sizes have room, the slots of a buffer neither overlap nor leave the value. */
  lemma {:induction false} SlotsApart(t: Type, base: nat, ptr: PtrSize)
    requires WellSized(t, ptr)
    ensures Spread(Paths(t), SlotOffsets(t, base, ptr), base, base + SizeOf(t, ptr), ptr)
    decreases t, 1, 0
  {
    hide Spread, FieldPaths, ElementPaths, FieldSlots, ElementSlots, FieldEnd;
    var end := base + SizeOf(t, ptr);
    match t {
      case Scalar(_) => SpreadNone(base, end, ptr);
      case Text(_) => SpreadOne(base + ptr, base, end, ptr);
      case Map(_) => SpreadOne(base, base, end, ptr);
      case Slice(_) => SliceSlotsApart(t, base, ptr);
      case Struct(_, _) => StructSlotsApart(t, base, ptr);
      case Array(_, n) => ElementSlotsApart(t, base, n, ptr);
    }
  }

  lemma {:induction false} SliceSlotsApart(t: Type, base: nat, ptr: PtrSize)
    requires t.Slice?
    ensures Spread(Paths(t), SlotOffsets(t, base, ptr), base, base + SizeOf(t, ptr), ptr)
  {
    hide Spread;
    var e, mid, end := t.elem, base + 2 * ptr, base + SizeOf(t, ptr);
    var inner := SlotOffsets(e, 0, ptr);
    SlotsExact(e, 0, ptr);
    SpreadFrom(InBuffer, Paths(e), inner, mid, end, ptr);
    SpreadOne(base + ptr, base, mid, ptr);
    SpreadBoth([[]], Prefixed(InBuffer, Paths(e)), [base + ptr], inner, base, mid, mid, end, ptr);
  }

  lemma {:induction false} StructSlotsApart(t: Type, base: nat, ptr: PtrSize)
    requires t.Struct? && WellSized(t, ptr)
    ensures Spread(Paths(t), SlotOffsets(t, base, ptr), base, base + SizeOf(t, ptr), ptr)
    decreases t, 0, |t.fields| + 1
  {
    hide Spread, FieldPaths, FieldSlots;
    var fs := t.fields;
    FieldSlotsApart(t, base, 0, ptr);
    assert fs[0..] == fs && FieldEnd(fs, 0, ptr) == 0;
    SpreadWider(FieldPaths(t, 0), FieldSlots(fs, base, 0, ptr), base, base + FieldEnd(fs, |fs|, ptr),
                base + SizeOf(t, ptr), ptr);
  }

  lemma {:induction false} FieldSlotsApart(t: Type, base: nat, i: nat, ptr: PtrSize)
    requires t.Struct? && WellSized(t, ptr) && i <= |t.fields|
    ensures FieldEnd(t.fields, i, ptr) <= FieldEnd(t.fields, |t.fields|, ptr)
    ensures Spread(FieldPaths(t, i), FieldSlots(t.fields[i..], base, FieldEnd(t.fields, i, ptr), ptr),
                   base + FieldEnd(t.fields, i, ptr), base + FieldEnd(t.fields, |t.fields|, ptr), ptr)
    decreases t, 0, |t.fields| - i
  {
    hide SlotOffsets, Paths, Spread, SizeOf, Prefixed, FieldOffset, FieldSlots, FieldEnd;
    var fs, n := t.fields, |t.fields|;
    if i == n {
      NoFieldsLeft(t, base, ptr);
      SpreadNone(base + FieldEnd(fs, i, ptr), base + FieldEnd(fs, n, ptr), ptr);
    } else {
      var start, end := FieldEnd(fs, i, ptr), FieldEnd(fs, i + 1, ptr);
      var at := FieldOffset(fs, i, ptr);
      var slots := SlotOffsets(fs[i], base + at, ptr);
      var rest := FieldSlots(fs[i + 1..], base, end, ptr);
      FieldRoom(fs, i, ptr);
      FieldSlotsStep(fs, i, base, ptr);
      SlotsApart(fs[i], base + at, ptr);
      FieldSlotsApart(t, base, i + 1, ptr);
      SpreadFrom(InField(i), Paths(fs[i]), slots, base + at, base + at + SizeOf(fs[i], ptr), ptr);
      SpreadLower(Prefixed(InField(i), Paths(fs[i])), slots, base + start, base + at,
                  base + at + SizeOf(fs[i], ptr), ptr);
      SpreadBoth(Prefixed(InField(i), Paths(fs[i])), FieldPaths(t, i + 1), slots, rest, base + start,
                 base + at + SizeOf(fs[i], ptr), base + end, base + FieldEnd(fs, n, ptr), ptr);
    }
  }

  lemma {:induction false} NoFieldsLeft(t: Type, base: nat, ptr: PtrSize)
    requires t.Struct?
    ensures var n := |t.fields|; FieldSlots(t.fields[n..], base, FieldEnd(t.fields, n, ptr), ptr) == []
  {
  }

  lemma {:induction false} SpreadLower(paths: seq<Path>, slots: seq<nat>, low: nat, lo: nat, hi: nat, ptr: PtrSize)
    requires Spread(paths, slots, lo, hi, ptr) && low <= lo
    ensures Spread(paths, slots, low, hi, ptr)
  {
    hide Flat;
  }

  /** A field lies between the ends of the fields before it and of itself. */
  lemma {:induction false} FieldRoom(fs: seq<Type>, i: nat, ptr: PtrSize)
    requires i < |fs|
    ensures FieldEnd(fs, i, ptr) <= FieldOffset(fs, i, ptr)
    ensures FieldOffset(fs, i, ptr) + SizeOf(fs[i], ptr) <= FieldEnd(fs, i + 1, ptr)
  {
    hide SizeOf, Packed;
    var size := SizeOf(fs[i], ptr);
    PackedBounds(FieldEnd(fs, i, ptr), if 0 < size <= ptr then size else ptr);
  }

  lemma {:induction false} ElementSlotsApart(t: Type, base: nat, n: nat, ptr: PtrSize)
    requires t.Array? && WellSized(t, ptr)
    ensures Spread(ElementPaths(t, n), ElementSlots(t.elem, base, n, ptr), base, base + n * SizeOf(t.elem, ptr), ptr)
    decreases t, 0, n
  {
    hide SlotOffsets, Paths, Spread, SizeOf, Prefixed;
    if n == 0 {
      SpreadNone(base, base, ptr);
    } else {
      var i, e := n - 1, t.elem;
      var at := base + i * SizeOf(e, ptr);
      var end := at + SizeOf(e, ptr);
      OneMore(i, SizeOf(e, ptr));
      SlotsApart(e, at, ptr);
      ElementSlotsApart(t, base, i, ptr);
      SpreadFrom(InElement(i), Paths(e), SlotOffsets(e, at, ptr), at, end, ptr);
      SpreadBoth(ElementPaths(t, i), Prefixed(InElement(i), Paths(e)), ElementSlots(e, base, i, ptr),
                 SlotOffsets(e, at, ptr), base, at, at, end, ptr);
      assert ElementPaths(t, n) == ElementPaths(t, i) + Prefixed(InElement(i), Paths(e));
      assert ElementSlots(e, base, n, ptr) == ElementSlots(e, base, i, ptr) + SlotOffsets(e, at, ptr);
    }
  }

  lemma {:induction false} OneMore(i: nat, size: nat)
    ensures (i + 1) * size == i * size + size && 0 <= i * size
  {
  }

  // ----- the slots of a group -----

  /** The ways through all fields: the field and the way from there. */
  function GroupPaths(fields: seq<Field>): seq<(nat, Path)> {
    if fields == [] then [] else
    var n := |fields| - 1;
    var paths := Paths(fields[n].typ);
    GroupPaths(fields[..n]) + seq(|paths|, k requires 0 <= k < |paths| => (n, paths[k]))
  }

  /** The slots of a group are those of its fields at their offsets, field by field. */
  lemma {:induction false} GroupSlotsExact(fields: seq<Field>, ptr: PtrSize)
    ensures var ways, slots := GroupPaths(fields), AllSlots(fields, ptr);
      |ways| == |slots| &&
      forall k :: 0 <= k < |ways| ==>
        && ways[k].0 < |fields|
        && var spot := Follow(fields[ways[k].0].typ, fields[ways[k].0].offset, ways[k].1, ptr);
           HasSlot(spot) && SlotOf(spot, ptr) == slots[k]
    ensures forall k, path :: 0 <= k < |fields| && HasSlot(Follow(fields[k].typ, 0, path, ptr)) ==>
      (k, path) in GroupPaths(fields)
    decreases |fields|
  {
    hide Follow, SlotOffsets, Paths;
    if fields != [] {
      var n, init := |fields| - 1, fields[..|fields| - 1];
      var f := fields[n];
      var paths := Paths(f.typ);
      var last := seq(|paths|, k requires 0 <= k < |paths| => (n, paths[k]));
      GroupSlotsExact(init, ptr);
      SlotsExact(f.typ, f.offset, ptr);
      forall k, path | 0 <= k < |fields| && HasSlot(Follow(fields[k].typ, 0, path, ptr))
        ensures (k, path) in GroupPaths(fields)
      {
        if k < n {
          assert init[k] == fields[k];
          assert (k, path) in GroupPaths(init);
        } else {
          PathsAll(f.typ, 0, path, ptr);
          var j :| 0 <= j < |paths| && paths[j] == path;
          assert last[j] == (n, path);
        }
      }
      forall k | 0 <= k < |GroupPaths(init)|
        ensures fields[GroupPaths(init)[k].0] == init[GroupPaths(init)[k].0]
      {
      }
    }
  }
}
