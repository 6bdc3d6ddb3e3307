/** The fixed layout of a mapped variable group: field ranges, heap slots and the metadata rows. */
module MemoryMap {
  import opened Words
  import Schema
  import StringSwitch

  /** The types as far as layout looks at them; sizes of scalars, strings and structs are given. */
  datatype Type =
    | Scalar(size: nat)
    | Text(size: nat)
    | Slice(elem: Type)
    | Map(value: Type)
    | Struct(size: nat, fields: seq<Type>)
    | Array(elem: Type, len: nat)

  /** The pointer size of the target. */
  type PtrSize = n: nat | n == 4 || n == 8 witness 8

  function SizeOf(t: Type, ptr: PtrSize): nat {
    match t
    case Scalar(n) => n
    case Text(n) => n
    case Slice(_) => ptr + 8
    case Map(_) => ptr
    case Struct(n, _) => n
    case Array(e, n) => n * SizeOf(e, ptr)
  }

  // ----- packing a struct -----

  /** Bit-and with the complement, of three bits. */
  function Clear(x: nat, mask: nat): nat
    requires x < 8 && mask < 8
  {
    (if x / 4 == 1 && mask / 4 == 0 then 4 else 0)
    + (if x / 2 % 2 == 1 && mask / 2 % 2 == 0 then 2 else 0)
    + (if x % 2 == 1 && mask % 2 == 0 then 1 else 0)
  }

  /** The same for a number of any length: the mask has only three bits. */
  function AndNot(x: nat, mask: nat): nat
    requires mask < 8
  {
    x / 8 * 8 + Clear(x % 8, mask)
  }

  /** Where a field goes that asks for the given alignment. */
  function Packed(offset: nat, align: nat): nat
    requires 1 <= align <= 8
  {
    AndNot(offset + align - 1, align - 1)
  }

  function FieldSize(t: Type, ptr: PtrSize): nat {
    if SizeOf(t, ptr) == 0 then ptr else SizeOf(t, ptr)
  }

  function Alignment(t: Type, ptr: PtrSize): (a: nat)
    ensures 1 <= a <= ptr
  {
    if FieldSize(t, ptr) > ptr then ptr else FieldSize(t, ptr)
  }

  /** Clearing takes away at most the mask. */
  lemma {:induction false} ClearBounds(x: nat, mask: nat)
    requires x < 8 && mask < 8
    ensures x - mask <= Clear(x, mask) <= x
  {
  }

  /** Packing never moves back and never skips as much as the alignment, whatever the alignment. */
  lemma {:induction false} PackedBounds(offset: nat, align: nat)
    requires 1 <= align <= 8
    ensures offset <= Packed(offset, align) < offset + align
  {
    hide Clear;
    ClearBounds((offset + align - 1) % 8, align - 1);
  }

  /** It aligns every field exactly when the alignment is a power of two. */
  lemma {:induction false} PackedAligned(align: nat)
    requires 1 <= align <= 8
    ensures (forall offset: nat :: Packed(offset, align) % align == 0) <==> align in {1, 2, 4, 8}
  {
    hide Packed;
    if align in {1, 2, 4, 8} {
      forall offset: nat ensures Packed(offset, align) % align == 0 {
        PackedMultiple(offset, align);
      }
    } else {
      PackedAskew(align);
      assert Packed(1, align) % align != 0;
    }
  }

  lemma {:induction false} PackedMultiple(offset: nat, align: nat)
    requires align in {1, 2, 4, 8}
    ensures Packed(offset, align) % align == 0
  {
    hide Clear;
    var x := offset + align - 1;
    ClearAligned(x % 8, align);
    Multiples(x / 8, Clear(x % 8, align - 1), align);
  }

  lemma {:induction false} PackedAskew(align: nat)
    requires align in {3, 5, 6, 7}
    ensures Packed(1, align) == if align == 6 then 2 else 1
  {
    var x := 1 + align - 1;
    assert x / 8 == 0 && x % 8 == align;
  }

  lemma {:induction false} ClearAligned(x: nat, align: nat)
    requires x < 8 && align in {1, 2, 4, 8}
    ensures Clear(x, align - 1) % align == 0
  {
  }

  lemma {:induction false} Multiples(q: nat, r: nat, align: nat)
    requires align in {1, 2, 4, 8} && r % align == 0
    ensures (q * 8 + r) % align == 0
  {
    if align == 2 {
      ByTwo(q, r);
    } else if align == 4 {
      ByFour(q, r);
    } else if align == 8 {
      ByEight(q, r);
    }
  }

  lemma {:induction false} ByTwo(q: nat, r: nat)
    requires r % 2 == 0
    ensures (q * 8 + r) % 2 == 0
  {
    var k := q * 4 + r / 2;
    assert q * 8 + r == 2 * k;
  }

  lemma {:induction false} ByFour(q: nat, r: nat)
    requires r % 4 == 0
    ensures (q * 8 + r) % 4 == 0
  {
    var k := q * 2 + r / 4;
    assert q * 8 + r == 4 * k;
  }

  lemma {:induction false} ByEight(q: nat, r: nat)
    requires r % 8 == 0
    ensures (q * 8 + r) % 8 == 0
  {
    var k := q + r / 8;
    assert q * 8 + r == 8 * k;
  }

  // ----- fields -----

  const ALIGNMENT: nat := 8

  function Aligned(offset: nat): nat {
    if offset % ALIGNMENT == 0 then offset else (offset + ALIGNMENT - 1) / ALIGNMENT * ALIGNMENT
  }

  lemma {:induction false} AlignedBounds(offset: nat)
    ensures offset <= Aligned(offset) < offset + 8 && Aligned(offset) % 8 == 0
  {
  }

  /** What semantic analysis knows of a variable's type. */
  datatype Global = Unknown | Known(typ: Type, typeName: seq<byte>, typeId: int)

  datatype Variable = Variable(name: seq<byte>, global: Global)

  datatype FieldKind = ScalarField | StructField | ArrayField | StringField | ByteSliceField | MapField

  datatype Field = Field(name: seq<byte>, typ: Type, typeName: seq<byte>, typeId: int, offset: nat, size: nat,
                         kind: FieldKind)

  datatype HeapSlot = HeapSlot(fieldOffset: nat, heapIndex: nat)

  function KindOf(t: Type): FieldKind {
    match t
    case Struct(_, _) => StructField
    case Array(_, _) => ArrayField
    case Slice(_) => ByteSliceField
    case Map(_) => MapField
    case Text(_) => StringField
    case Scalar(_) => ScalarField
  }

  function KindNumber(k: FieldKind): nat {
    match k
    case ScalarField => 0
    case StructField => 1
    case ArrayField => 2
    case StringField => 3
    case ByteSliceField => 4
    case MapField => 5
  }

  /** Where the last field ends. */
  function End(fields: seq<Field>): nat {
    if fields == [] then 0 else fields[|fields| - 1].offset + fields[|fields| - 1].size
  }

  /** One field for each variable of known type, in order, each on the next multiple of 8. */
  function FieldsOf(vars: seq<Variable>, ptr: PtrSize): seq<Field> {
    if vars == [] then [] else
    var before, v := FieldsOf(vars[..|vars| - 1], ptr), vars[|vars| - 1];
    match v.global
    case Unknown => before
    case Known(t, typeName, typeId) =>
      before + [Field(v.name, t, typeName, typeId, Aligned(End(before)), SizeOf(t, ptr), KindOf(t))]
  }

  /** The ranges lie one behind the other, on multiples of 8 and below `end`. */
  predicate Apart(fields: seq<Field>, end: nat) {
    && (forall i :: 0 <= i < |fields| ==> fields[i].offset % 8 == 0 && fields[i].offset + fields[i].size <= end)
    && (forall i, j :: 0 <= i < j < |fields| ==> fields[i].offset + fields[i].size <= fields[j].offset)
  }

  lemma {:induction false} FieldsApart(vars: seq<Variable>, ptr: PtrSize)
    ensures var fields := FieldsOf(vars, ptr); Apart(fields, End(fields))
    decreases |vars|
  {
    hide SizeOf, Aligned;
    if vars != [] {
      var before := FieldsOf(vars[..|vars| - 1], ptr);
      FieldsApart(vars[..|vars| - 1], ptr);
      AlignedBounds(End(before));
    }
  }

  // ----- the schema -----

  function SchemaFieldOf(f: Field): Schema.SchemaField {
    Schema.SchemaField(f.name, f.typeName, KindNumber(f.kind), f.size)
  }

  function SchemaFields(fields: seq<Field>): seq<Schema.SchemaField> {
    seq(|fields|, i requires 0 <= i < |fields| => SchemaFieldOf(fields[i]))
  }

  function SchemaBytesOf(name: seq<byte>, fields: seq<Field>): seq<byte> {
    Schema.SchemaBytes(name, SchemaFields(fields))
  }

  /** Names that can be told apart in the hashed bytes, and sizes that can. */
  predicate Telling(name: seq<byte>, fields: seq<Field>) {
    && Schema.NulFree(name)
    && forall i :: 0 <= i < |fields| ==>
         Schema.NulFree(fields[i].name) && Schema.NulFree(fields[i].typeName) && fields[i].size < 0xD800
  }

  /** An image of one group fits the other: names, types, kinds, places and sizes are the same. */
  predicate SamePlaces(fs: seq<Field>, gs: seq<Field>) {
    |fs| == |gs| && forall i :: 0 <= i < |fs| ==> fs[i].(typ := gs[i].typ, typeId := gs[i].typeId) == gs[i]
  }

  lemma {:induction false} OffsetsFollow(vars: seq<Variable>, ptr: PtrSize, i: nat)
    requires i < |FieldsOf(vars, ptr)|
    ensures var fields := FieldsOf(vars, ptr);
      fields[i].offset == if i == 0 then 0 else Aligned(fields[i - 1].offset + fields[i - 1].size)
    decreases |vars|
  {
    hide SizeOf, Aligned;
    var before := FieldsOf(vars[..|vars| - 1], ptr);
    if i < |before| {
      OffsetsFollow(vars[..|vars| - 1], ptr, i);
    } else {
      assert Aligned(0) == 0 by { AlignedZero(); }
    }
  }

  lemma {:induction false} AlignedZero()
    ensures Aligned(0) == 0
  {
  }

  /** The schema does not hold the offsets, yet it determines them: groups with the same hashed bytes
      have the same layout, also for other pointer sizes. */
  lemma {:induction false} SchemaFixesLayout(name: seq<byte>, vars: seq<Variable>, ptr: PtrSize,
                                             name': seq<byte>, vars': seq<Variable>, ptr': PtrSize)
    requires Telling(name, FieldsOf(vars, ptr)) && Telling(name', FieldsOf(vars', ptr'))
    ensures SchemaBytesOf(name, FieldsOf(vars, ptr)) == SchemaBytesOf(name', FieldsOf(vars', ptr')) <==>
      name == name' && SamePlaces(FieldsOf(vars, ptr), FieldsOf(vars', ptr'))
  {
    hide FieldsOf, Schema.NulFree, Schema.SchemaBytes, Schema.Alike, Aligned;
    var fs, gs := FieldsOf(vars, ptr), FieldsOf(vars', ptr');
    Schema.SchemaDetermined(name, SchemaFields(fs), name', SchemaFields(gs));
    if SamePlaces(fs, gs) {
      assert SchemaFields(fs) == SchemaFields(gs);
    }
    if Schema.AllAlike(SchemaFields(fs), SchemaFields(gs)) {
      forall i | 0 <= i < |fs|
        ensures fs[i].(typ := gs[i].typ, typeId := gs[i].typeId, offset := gs[i].offset) == gs[i]
      {
        assert Schema.Alike(SchemaFields(fs)[i], SchemaFields(gs)[i]);
        Schema.SmallTold(SchemaFieldOf(fs[i]), SchemaFieldOf(gs[i]));
        SameKind(fs[i].kind, gs[i].kind);
      }
      SameOffsets(vars, ptr, vars', ptr', |fs|);
    }
  }

  lemma {:induction false} SameKind(k: FieldKind, k': FieldKind)
    ensures KindNumber(k) == KindNumber(k') <==> k == k'
  {
  }

  lemma {:induction false} SameOffsets(vars: seq<Variable>, ptr: PtrSize, vars': seq<Variable>, ptr': PtrSize, n: nat)
    requires var fs, gs := FieldsOf(vars, ptr), FieldsOf(vars', ptr');
      n <= |fs| == |gs| && forall i :: 0 <= i < |fs| ==> fs[i].size == gs[i].size
    ensures var fs, gs := FieldsOf(vars, ptr), FieldsOf(vars', ptr');
      forall i :: 0 <= i < n ==> fs[i].offset == gs[i].offset
  {
    hide FieldsOf, Aligned;
    if n > 0 {
      SameOffsets(vars, ptr, vars', ptr', n - 1);
      OffsetsFollow(vars, ptr, n - 1);
      OffsetsFollow(vars', ptr', n - 1);
    }
  }

  // ----- heap slots -----

  /** The offsets of the words of a value that point to heap buffers, buffer by buffer. */
  function SlotOffsets(t: Type, base: nat, ptr: PtrSize): seq<nat>
    decreases t, 0
  {
    match t
    case Scalar(_) => []
    case Text(_) => [base + ptr]
    case Slice(e) => [base + ptr] + SlotOffsets(e, 0, ptr)
    case Map(_) => [base]
    case Struct(_, fs) => FieldSlots(fs, base, 0, ptr)
    case Array(e, n) => ElementSlots(e, base, n, ptr)
  }

  function FieldSlots(fs: seq<Type>, base: nat, offset: nat, ptr: PtrSize): seq<nat>
    decreases fs, 1
  {
    if fs == [] then [] else
    var at := Packed(offset, Alignment(fs[0], ptr));
    SlotOffsets(fs[0], base + at, ptr) + FieldSlots(fs[1..], base, at + FieldSize(fs[0], ptr), ptr)
  }

  function ElementSlots(e: Type, base: nat, n: nat, ptr: PtrSize): seq<nat>
    decreases e, 1, n
  {
    if n == 0 then [] else ElementSlots(e, base, n - 1, ptr) + SlotOffsets(e, base + (n - 1) * SizeOf(e, ptr), ptr)
  }

  // ----- metadata rows -----

  datatype Kind = Root | MapHeader | MapEntries | Payload | Pointer

  datatype Row = Row(id: nat, parent: nat, pos: nat, chunk: nat, kind: Kind)

  const ROOT := Row(0, 0, 0, 0, Root)
  const ENTRY_SIZE: nat := 40

  function Base(k: Kind): nat {
    match k
    case Root => 0
    case MapHeader => 0x1000
    case MapEntries => 0x2000
    case Payload => 0x3000
    case Pointer => 0x4000
  }

  function Count(rows: seq<Row>, k: Kind): nat {
    if rows == [] then 0 else Count(rows[..|rows| - 1], k) + if rows[|rows| - 1].kind == k then 1 else 0
  }

  /** The ID of the next row of a kind. */
  function NextId(rows: seq<Row>, k: Kind): nat {
    Base(k) + Count(rows, k)
  }

  function Add(rows: seq<Row>, k: Kind, parent: nat, pos: nat, chunk: nat): seq<Row> {
    rows + [Row(NextId(rows, k), parent, pos, chunk, k)]
  }

  /** The rows with those of a value behind them; a row's ID is its parent's for what hangs on it. */
  function Walked(t: Type, parent: nat, base: nat, chunk: nat, rows: seq<Row>, ptr: PtrSize): seq<Row>
    decreases t, 0
  {
    var p := NextId(rows, Pointer);
    var rows1 := Add(rows, Pointer, parent, base, chunk);
    match t
    case Scalar(_) => rows
    case Text(_) => Add(rows1, Payload, p, 0, 0)
    case Slice(e) => Walked(e, NextId(rows1, Payload), 0, SizeOf(e, ptr), Add(rows1, Payload, p, 0, SizeOf(e, ptr)),
                            ptr)
    case Map(v) =>
      var rows2 := Add(rows1, MapHeader, p, 0, 0);
      var rows3 := Add(rows2, Pointer, NextId(rows1, MapHeader), 0, 0);
      var rows4 := Add(rows3, MapEntries, NextId(rows2, Pointer), 0, ENTRY_SIZE);
      Walked(v, NextId(rows3, MapEntries), 3 * ptr, ENTRY_SIZE, rows4, ptr)
    case Struct(_, fs) => WalkedFields(fs, parent, base, chunk, 0, rows, ptr)
    case Array(e, _) => Walked(e, parent, base, SizeOf(e, ptr), rows, ptr)
  }

  function WalkedFields(fs: seq<Type>, parent: nat, base: nat, chunk: nat, offset: nat, rows: seq<Row>,
                        ptr: PtrSize): seq<Row>
    decreases fs, 1
  {
    if fs == [] then rows else
    var at := Packed(offset, Alignment(fs[0], ptr));
    WalkedFields(fs[1..], parent, base, chunk, at + FieldSize(fs[0], ptr),
                 Walked(fs[0], parent, base + at, chunk, rows, ptr), ptr)
  }

  predicate HasId(rows: seq<Row>, id: nat) {
    exists i :: 0 <= i < |rows| && rows[i].id == id
  }

  /** The rows form a tree with parents before children. */
  predicate Tree(rows: seq<Row>) {
    && rows != [] && rows[0] == ROOT
    && forall i :: 0 < i < |rows| ==> HasId(rows[..i], rows[i].parent)
  }

  /** The rows of a kind are numbered in order. */
  predicate Numbered(rows: seq<Row>) {
    && (forall i :: 0 <= i < |rows| ==> rows[i].id == NextId(rows[..i], rows[i].kind))
    && Count(rows, Root) <= 1
    && Count(rows, MapEntries) == Count(rows, MapHeader)
    && Count(rows, Payload) + Count(rows, MapHeader) <= Count(rows, Pointer)
  }

  predicate Sound(rows: seq<Row>) {
    Tree(rows) && Numbered(rows)
  }

  // ----- building -----

  /** The heap slots of all fields, and their rows below the root. */
  function AllSlots(fields: seq<Field>, ptr: PtrSize): seq<nat> {
    if fields == [] then [] else
    var f := fields[|fields| - 1];
    AllSlots(fields[..|fields| - 1], ptr) + SlotOffsets(f.typ, f.offset, ptr)
  }

  function AllRows(fields: seq<Field>, ptr: PtrSize): seq<Row> {
    if fields == [] then [ROOT] else
    var f := fields[|fields| - 1];
    Walked(f.typ, 0, f.offset, 0, AllRows(fields[..|fields| - 1], ptr), ptr)
  }

  function FieldOffsets(slots: seq<HeapSlot>): seq<nat> {
    seq(|slots|, k requires 0 <= k < |slots| => slots[k].fieldOffset)
  }

  class Layout {
    const ptr: PtrSize
    var fields: seq<Field>
    var slots: seq<HeapSlot>
    var nextBuffer: nat
    var meta: seq<Row>
    var nextMapHead: nat
    var nextMapEntry: nat
    var nextPayload: nat
    var nextPointer: nat
    var size: nat
    var schemaHash: nat

    predicate Valid()
      reads `slots, `nextBuffer, `meta, `nextMapHead, `nextMapEntry, `nextPayload, `nextPointer
    {
      && nextBuffer == |slots| && (forall k :: 0 <= k < |slots| ==> slots[k].heapIndex == k)
      && nextMapHead == Count(meta, MapHeader) && nextMapEntry == Count(meta, MapEntries)
      && nextPayload == Count(meta, Payload) && nextPointer == Count(meta, Pointer)
    }

    function Offsets(): seq<nat>
      reads `slots
    {
      FieldOffsets(slots)
    }

    constructor (pointerSize: PtrSize)
      ensures Valid() && ptr == pointerSize && fields == [] && slots == [] && meta == [ROOT] && size == 0
    {
      ptr := pointerSize;
      fields, slots, meta := [], [], [ROOT];
      nextBuffer, nextMapHead, nextMapEntry, nextPayload, nextPointer, size := 0, 0, 0, 0, 0, 0;
      new;
      assert [ROOT][..0] == [];
    }

    method AppendSlot(offset: nat)
      requires Valid()
      modifies `slots, `nextBuffer
      ensures Valid() && Offsets() == old(Offsets()) + [offset]
    {
      slots := slots + [HeapSlot(offset, nextBuffer)];
      nextBuffer := nextBuffer + 1;
    }

    /** The heap slots of a value: buffers are numbered as they are met. */
    method AppendHeapSlots(t: Type, base: nat)
      requires Valid()
      modifies `slots, `nextBuffer
      ensures Valid() && Offsets() == old(Offsets()) + SlotOffsets(t, base, ptr)
      decreases t, 0
    {
      hide Valid, FieldSlots, FieldOffsets;
      match t {
        case Scalar(_) =>
        case Text(_) => AppendSlot(base + ptr);
        case Map(_) => AppendSlot(base);
        case Slice(e) =>
          AppendSlot(base + ptr);
          AppendHeapSlots(e, 0);
        case Struct(_, fs) => AppendFieldSlots(fs, base);
        case Array(e, n) =>
          for i := 0 to n
            invariant Valid() && Offsets() == old(Offsets()) + ElementSlots(e, base, i, ptr)
          {
            AppendHeapSlots(e, base + i * SizeOf(e, ptr));
          }
      }
    }

    method AppendFieldSlots(fs: seq<Type>, base: nat)
      requires Valid()
      modifies `slots, `nextBuffer
      ensures Valid() && Offsets() == old(Offsets()) + FieldSlots(fs, base, 0, ptr)
      decreases fs, 1
    {
      hide Valid, SlotOffsets, Packed, Alignment, FieldSize, FieldOffsets;
      var offset: nat := 0;
      assert fs[0..] == fs;
      for i := 0 to |fs|
        invariant Valid() &&
          Offsets() + FieldSlots(fs[i..], base, offset, ptr) == old(Offsets()) + FieldSlots(fs, base, 0, ptr)
      {
        assert fs[i..][0] == fs[i] && fs[i..][1..] == fs[i + 1..];
        offset := Packed(offset, Alignment(fs[i], ptr));
        ghost var rest := FieldSlots(fs[i + 1..], base, offset + FieldSize(fs[i], ptr), ptr);
        AppendJoins(Offsets(), SlotOffsets(fs[i], base + offset, ptr), rest);
        AppendHeapSlots(fs[i], base + offset);
        offset := offset + FieldSize(fs[i], ptr);
      }
    }

    method AddPointer(parent: nat, pos: nat, chunk: nat) returns (id: nat)
      requires Valid()
      modifies `meta, `nextPointer
      ensures Valid() && meta == Add(old(meta), Pointer, parent, pos, chunk) && id == NextId(old(meta), Pointer)
    {
      hide Count;
      id := 0x4000 + nextPointer;
      nextPointer := nextPointer + 1;
      AddCounts(meta, Row(id, parent, pos, chunk, Pointer));
      meta := meta + [Row(id, parent, pos, chunk, Pointer)];
    }

    method AddBuffer(kind: Kind, parent: nat, pos: nat, chunk: nat) returns (id: nat)
      requires Valid() && (kind == MapHeader || kind == MapEntries || kind == Payload)
      modifies `meta, `nextMapHead, `nextMapEntry, `nextPayload
      ensures Valid() && meta == Add(old(meta), kind, parent, pos, chunk) && id == NextId(old(meta), kind)
    {
      hide Count;
      if kind == MapHeader {
        id := 0x1000 + nextMapHead;
        nextMapHead := nextMapHead + 1;
      } else if kind == MapEntries {
        id := 0x2000 + nextMapEntry;
        nextMapEntry := nextMapEntry + 1;
      } else {
        id := 0x3000 + nextPayload;
        nextPayload := nextPayload + 1;
      }
      AddCounts(meta, Row(id, parent, pos, chunk, kind));
      meta := meta + [Row(id, parent, pos, chunk, kind)];
    }

    method Walk(t: Type, parent: nat, base: nat, chunk: nat)
      requires Valid()
      modifies `meta, `nextMapHead, `nextMapEntry, `nextPayload, `nextPointer
      ensures Valid() && meta == Walked(t, parent, base, chunk, old(meta), ptr)
      decreases t, 0
    {
      hide Valid, Add, NextId, WalkedFields;
      match t {
        case Scalar(_) =>
        case Text(_) =>
          var p := AddPointer(parent, base, chunk);
          var _ := AddBuffer(Payload, p, 0, 0);
        case Slice(e) =>
          var p := AddPointer(parent, base, chunk);
          var payload := AddBuffer(Payload, p, 0, SizeOf(e, ptr));
          Walk(e, payload, 0, SizeOf(e, ptr));
        case Map(v) =>
          var p := AddPointer(parent, base, chunk);
          var header := AddBuffer(MapHeader, p, 0, 0);
          var entriesPointer := AddPointer(header, 0, 0);
          var entries := AddBuffer(MapEntries, entriesPointer, 0, ENTRY_SIZE);
          Walk(v, entries, 3 * ptr, ENTRY_SIZE);
        case Struct(_, fs) => WalkFields(fs, parent, base, chunk);
        case Array(e, _) => Walk(e, parent, base, SizeOf(e, ptr));
      }
    }

    method WalkFields(fs: seq<Type>, parent: nat, base: nat, chunk: nat)
      requires Valid()
      modifies `meta, `nextMapHead, `nextMapEntry, `nextPayload, `nextPointer
      ensures Valid() && meta == WalkedFields(fs, parent, base, chunk, 0, old(meta), ptr)
      decreases fs, 1
    {
      hide Valid, Walked, Packed, Alignment, FieldSize;
      var offset: nat := 0;
      assert fs[0..] == fs;
      for i := 0 to |fs|
        invariant Valid()
        invariant WalkedFields(fs[i..], parent, base, chunk, offset, meta, ptr) ==
          WalkedFields(fs, parent, base, chunk, 0, old(meta), ptr)
      {
        assert fs[i..][0] == fs[i] && fs[i..][1..] == fs[i + 1..];
        offset := Packed(offset, Alignment(fs[i], ptr));
        Walk(fs[i], parent, base + offset, chunk);
        offset := offset + FieldSize(fs[i], ptr);
      }
    }

    /** Lays out the variables of a group and hashes its schema. */
    method Build(name: seq<byte>, vars: seq<Variable>)
      requires Valid() && fields == [] && slots == [] && meta == [ROOT] && size == 0
      modifies this
      ensures Valid() && fields == FieldsOf(vars, ptr) && size == Aligned(End(fields))
      ensures Apart(fields, size) && size % 8 == 0
      ensures Offsets() == AllSlots(fields, ptr) && meta == AllRows(fields, ptr)
      ensures Sound(meta)
      ensures schemaHash == Schema.HashBytes(SchemaBytesOf(name, fields))
    {
      hide Valid, Sound, SlotOffsets, Walked, Aligned, SizeOf, Apart, Schema.HashBytes, SchemaBytesOf, FieldsOf, End,
           AllSlots, AllRows, FieldOffsets;
      var offset: nat := 0;
      assert Sound(meta) by { RootSound(); }
      NoFields(ptr);
      assert Offsets() == [] by { NoOffsets(slots); }
      for i := 0 to |vars|
        invariant Valid() && fields == FieldsOf(vars[..i], ptr) && offset == End(fields) && Sound(meta)
        invariant Offsets() == AllSlots(fields, ptr) && meta == AllRows(fields, ptr)
      {
        FieldsNext(vars, i, ptr);
        if vars[i].global.Known? {
          var t := vars[i].global.typ;
          offset := Aligned(offset);
          var field := Field(vars[i].name, t, vars[i].global.typeName, vars[i].global.typeId, offset, SizeOf(t, ptr),
                             KindOf(t));
          OneField(fields, field, ptr);
          fields := fields + [field];
          AppendHeapSlots(t, offset);
          WalkedSound(t, 0, offset, 0, meta, ptr) by { RootHasId(meta); }
          Walk(t, 0, offset, 0);
          offset := offset + SizeOf(t, ptr);
        }
      }
      assert vars[..|vars|] == vars;
      size := Aligned(offset);
      FieldsApart(vars, ptr);
      ApartBelow(fields, offset);
      schemaHash := HashSchema(name);
    }

    method HashSchema(name: seq<byte>) returns (hash: nat)
      ensures hash == Schema.HashBytes(SchemaBytesOf(name, fields))
    {
      hide Schema.HashBytes, Schema.SchemaBytes;
      var schemaFields: seq<Schema.SchemaField> := [];
      for i := 0 to |fields|
        invariant schemaFields == SchemaFields(fields)[..i]
      {
        schemaFields := schemaFields + [SchemaFieldOf(fields[i])];
      }
      assert schemaFields == SchemaFields(fields);
      hash := Schema.SchemaHash(name, schemaFields);
    }
  }

  lemma {:induction false} NoFields(ptr: PtrSize)
    ensures FieldsOf([], ptr) == [] && End([]) == 0 && AllSlots([], ptr) == [] && AllRows([], ptr) == [ROOT]
  {
  }

  lemma {:induction false} NoOffsets(slots: seq<HeapSlot>)
    requires slots == []
    ensures FieldOffsets(slots) == []
  {
  }

  lemma {:induction false} FieldsNext(vars: seq<Variable>, i: nat, ptr: PtrSize)
    requires i < |vars|
    ensures vars[..0] == []
    ensures var before, v := FieldsOf(vars[..i], ptr), vars[i];
      FieldsOf(vars[..i + 1], ptr) ==
      if v.global.Unknown? then before
      else before + [Field(v.name, v.global.typ, v.global.typeName, v.global.typeId, Aligned(End(before)),
                           SizeOf(v.global.typ, ptr), KindOf(v.global.typ))]
  {
    hide SizeOf, Aligned, End;
    assert vars[..i + 1][..i] == vars[..i];
  }

  lemma {:induction false} OneField(fields: seq<Field>, f: Field, ptr: PtrSize)
    ensures End(fields + [f]) == f.offset + f.size
    ensures AllSlots(fields + [f], ptr) == AllSlots(fields, ptr) + SlotOffsets(f.typ, f.offset, ptr)
    ensures AllRows(fields + [f], ptr) == Walked(f.typ, 0, f.offset, 0, AllRows(fields, ptr), ptr)
  {
    hide SlotOffsets, Walked;
    assert (fields + [f])[..|fields|] == fields;
  }

  lemma {:induction false} ApartBelow(fields: seq<Field>, end: nat)
    requires Apart(fields, end)
    ensures Apart(fields, Aligned(end)) && Aligned(end) % 8 == 0
  {
    AlignedBounds(end);
  }

  lemma {:induction false} AppendJoins(a: seq<nat>, b: seq<nat>, c: seq<nat>)
    ensures a + (b + c) == (a + b) + c
  {
  }

  lemma {:induction false} AddCounts(rows: seq<Row>, r: Row)
    ensures forall k :: Count(rows + [r], k) == Count(rows, k) + if r.kind == k then 1 else 0
  {
    assert (rows + [r])[..|rows|] == rows;
  }

  // ----- the rows form a tree -----

  lemma {:induction false} RootSound()
    ensures Sound([ROOT])
  {
    assert [ROOT][..0] == [];
  }

  lemma {:induction false} RootHasId(rows: seq<Row>)
    requires Sound(rows)
    ensures HasId(rows, 0)
  {
    assert rows[0].id == 0;
  }

  /** A row with a known parent keeps the tree and the numbering. */
  lemma {:induction false} AddNumbered(rows: seq<Row>, k: Kind, parent: nat, pos: nat, chunk: nat)
    requires Tree(rows) && HasId(rows, parent) && k != Root
    requires forall i :: 0 <= i < |rows| ==> rows[i].id == NextId(rows[..i], rows[i].kind)
    ensures var r := Add(rows, k, parent, pos, chunk);
      && Tree(r) && rows <= r && HasId(r, NextId(rows, k))
      && (forall i :: 0 <= i < |r| ==> r[i].id == NextId(r[..i], r[i].kind))
      && (forall j :: Count(r, j) == Count(rows, j) + if k == j then 1 else 0)
  {
    var r := Add(rows, k, parent, pos, chunk);
    AddCounts(rows, r[|rows|]);
    forall i | 0 <= i < |r| ensures r[i].id == NextId(r[..i], r[i].kind) && (0 < i ==> HasId(r[..i], r[i].parent)) {
      assert r[..i] == rows[..i];
      assert i < |rows| ==> rows[i].id == NextId(rows[..i], rows[i].kind);
      assert rows[..|rows|] == rows;
    }
    assert r[|rows|].id == NextId(rows, k);
  }

  lemma {:induction false} HasIdGrows(rows: seq<Row>, r: seq<Row>, id: nat)
    requires HasId(rows, id) && rows <= r
    ensures HasId(r, id)
  {
    var i :| 0 <= i < |rows| && rows[i].id == id;
    assert r[i].id == id;
  }

  /** A pointer and a buffer of some kind below it; its entries too when it is a map. */
  lemma {:induction false} WalkedSound(t: Type, parent: nat, base: nat, chunk: nat, rows: seq<Row>, ptr: PtrSize)
    requires Sound(rows) && HasId(rows, parent)
    ensures var r := Walked(t, parent, base, chunk, rows, ptr); Sound(r) && rows <= r
    decreases t, 0
  {
    hide Tree, HasId, Add, NextId, Count;
    var p := NextId(rows, Pointer);
    var rows1 := Add(rows, Pointer, parent, base, chunk);
    match t {
      case Scalar(_) =>
      case Text(_) =>
        AddNumbered(rows, Pointer, parent, base, chunk);
        AddNumbered(rows1, Payload, p, 0, 0);
      case Slice(e) =>
        AddNumbered(rows, Pointer, parent, base, chunk);
        AddNumbered(rows1, Payload, p, 0, SizeOf(e, ptr));
        WalkedSound(e, NextId(rows1, Payload), 0, SizeOf(e, ptr), Add(rows1, Payload, p, 0, SizeOf(e, ptr)), ptr);
      case Map(v) =>
        var rows2 := Add(rows1, MapHeader, p, 0, 0);
        var rows3 := Add(rows2, Pointer, NextId(rows1, MapHeader), 0, 0);
        AddNumbered(rows, Pointer, parent, base, chunk);
        AddNumbered(rows1, MapHeader, p, 0, 0);
        AddNumbered(rows2, Pointer, NextId(rows1, MapHeader), 0, 0);
        AddNumbered(rows3, MapEntries, NextId(rows2, Pointer), 0, ENTRY_SIZE);
        WalkedSound(v, NextId(rows3, MapEntries), 3 * ptr, ENTRY_SIZE,
                    Add(rows3, MapEntries, NextId(rows2, Pointer), 0, ENTRY_SIZE), ptr);
      case Struct(_, fs) => WalkedFieldsSound(fs, parent, base, chunk, 0, rows, ptr);
      case Array(e, _) => WalkedSound(e, parent, base, SizeOf(e, ptr), rows, ptr);
    }
  }

  lemma {:induction false} WalkedFieldsSound(fs: seq<Type>, parent: nat, base: nat, chunk: nat, offset: nat,
                                             rows: seq<Row>, ptr: PtrSize)
    requires Sound(rows) && HasId(rows, parent)
    ensures var r := WalkedFields(fs, parent, base, chunk, offset, rows, ptr); Sound(r) && rows <= r
    decreases fs, 1
  {
    hide Sound, HasId, Packed;
    if fs != [] {
      var at := Packed(offset, Alignment(fs[0], ptr));
      var next := Walked(fs[0], parent, base + at, chunk, rows, ptr);
      WalkedSound(fs[0], parent, base + at, chunk, rows, ptr);
      HasIdGrows(rows, next, parent);
      WalkedFieldsSound(fs[1..], parent, base, chunk, at + FieldSize(fs[0], ptr), next, ptr);
    }
  }

  // ----- when the IDs differ -----

  predicate Distinct(rows: seq<Row>) {
    forall i, j :: 0 <= i < j < |rows| ==> rows[i].id != rows[j].id
  }

  lemma {:induction false} CountBelow(rows: seq<Row>, i: nat)
    requires i < |rows|
    ensures Count(rows[..i], rows[i].kind) < Count(rows, rows[i].kind)
    decreases |rows|
  {
    var n := |rows| - 1;
    if i < n {
      CountBelow(rows[..n], i);
      assert rows[..n][..i] == rows[..i];
    }
  }

  /** The `c`-th row of a kind. */
  lemma {:induction false} RowOf(rows: seq<Row>, k: Kind, c: nat) returns (i: nat)
    requires c < Count(rows, k)
    ensures i < |rows| && rows[i].kind == k && Count(rows[..i], k) == c
    decreases |rows|
  {
    var n := |rows| - 1;
    if Count(rows[..n], k) == c {
      i := n;
    } else {
      i := RowOf(rows[..n], k, c);
      assert rows[..n][..i] == rows[..i];
    }
  }

  /** The IDs differ exactly when there are at most 0x1000 map headers and as many payloads. */
  lemma {:induction false} DistinctExactly(rows: seq<Row>)
    requires Sound(rows)
    ensures Distinct(rows) <==> Count(rows, MapHeader) <= 0x1000 && Count(rows, Payload) <= 0x1000
  {
    hide Tree, Count;
    if Count(rows, MapHeader) <= 0x1000 && Count(rows, Payload) <= 0x1000 {
      forall i, j | 0 <= i < j < |rows| ensures rows[i].id != rows[j].id {
        CountBelow(rows, i);
        CountBelow(rows, j);
        CountBelow(rows[..j], i);
        assert rows[..j][..i] == rows[..i];
        if rows[i].kind == rows[j].kind {
          assert Count(rows[..i], rows[i].kind) < Count(rows[..j], rows[i].kind);
        }
      }
    } else if Count(rows, MapHeader) > 0x1000 {
      var i := RowOf(rows, MapHeader, 0x1000);
      var j := RowOf(rows, MapEntries, 0);
      assert rows[i].id == rows[j].id;
    } else {
      var i := RowOf(rows, Payload, 0x1000);
      var j := RowOf(rows, Pointer, 0);
      assert rows[i].id == rows[j].id;
    }
  }

  // ----- what the fields are -----

  /** A field holds what is known of a variable. */
  predicate Describes(f: Field, v: Variable, ptr: PtrSize) {
    && v.global.Known? && f.name == v.name && f.typ == v.global.typ && f.typeName == v.global.typeName
    && f.typeId == v.global.typeId && f.size == SizeOf(v.global.typ, ptr) && f.kind == KindOf(v.global.typ)
  }

  /** `at` says which variable each field is of: all of known type, in order. */
  predicate Picks(at: seq<nat>, vars: seq<Variable>, fields: seq<Field>, ptr: PtrSize) {
    && |at| == |fields|
    && (forall k :: 0 <= k < |at| ==> at[k] < |vars| && Describes(fields[k], vars[at[k]], ptr))
    && (forall j, k :: 0 <= j < k < |at| ==> at[j] < at[k])
    && (forall i :: 0 <= i < |vars| && vars[i].global.Known? ==> i in at)
  }

  /** Field `k` begins on the first multiple of 8 that is not before the end of the field in front. */
  predicate Packs(fields: seq<Field>, k: nat)
    requires k < |fields|
  {
    var end := if k == 0 then 0 else fields[k - 1].offset + fields[k - 1].size;
    fields[k].offset % 8 == 0 && end <= fields[k].offset < end + 8
  }

  /** There is a field for just the variables of known type, and they lie as close as multiples of 8 allow. */
  lemma {:induction false} FieldsExact(vars: seq<Variable>, ptr: PtrSize) returns (at: seq<nat>)
    ensures Picks(at, vars, FieldsOf(vars, ptr), ptr)
    ensures forall k :: 0 <= k < |FieldsOf(vars, ptr)| ==> Packs(FieldsOf(vars, ptr), k)
  {
    hide FieldsOf, Picks, Aligned;
    at := Picked(vars, ptr);
    var fields := FieldsOf(vars, ptr);
    forall k | 0 <= k < |fields| ensures Packs(fields, k) {
      OffsetsFollow(vars, ptr, k);
      if k > 0 { AlignedBounds(fields[k - 1].offset + fields[k - 1].size); }
    }
  }

  lemma {:induction false} Picked(vars: seq<Variable>, ptr: PtrSize) returns (at: seq<nat>)
    ensures Picks(at, vars, FieldsOf(vars, ptr), ptr)
    decreases |vars|
  {
    hide SizeOf, KindOf, Aligned, End, Picks;
    if vars == [] {
      at := [];
      NothingPicked(ptr);
    } else {
      var n := |vars| - 1;
      at := Picked(vars[..n], ptr);
      assert vars == vars[..n] + [vars[n]];
      var before, fields := FieldsOf(vars[..n], ptr), FieldsOf(vars, ptr);
      if vars[n].global.Known? {
        PickedOne(vars[..n], at, before, vars[n], fields[|before|], ptr);
        at := at + [n];
      } else {
        PickedLonger(vars[..n], at, before, vars[n], ptr);
      }
    }
  }

  lemma {:induction false} NothingPicked(ptr: PtrSize)
    ensures Picks([], [], [], ptr)
  {
  }

  lemma {:induction false} PickedLonger(vars: seq<Variable>, at: seq<nat>, fields: seq<Field>, v: Variable,
                                        ptr: PtrSize)
    requires Picks(at, vars, fields, ptr) && v.global.Unknown?
    ensures Picks(at, vars + [v], fields, ptr)
  {
    hide Describes;
    forall i | 0 <= i < |vars + [v]| && (vars + [v])[i].global.Known? ensures i in at {
      assert (vars + [v])[i] == if i < |vars| then vars[i] else v;
    }
  }

  lemma {:induction false} PickedOne(vars: seq<Variable>, at: seq<nat>, fields: seq<Field>, v: Variable, f: Field,
                                     ptr: PtrSize)
    requires Picks(at, vars, fields, ptr) && Describes(f, v, ptr)
    ensures Picks(at + [|vars|], vars + [v], fields + [f], ptr)
  {
    hide Describes;
    var vs, r, fs := vars + [v], at + [|vars|], fields + [f];
    forall k | 0 <= k < |r| ensures r[k] < |vs| && Describes(fs[k], vs[r[k]], ptr) {
    }
    forall i | 0 <= i < |vs| && vs[i].global.Known? ensures i in r {
      if i < |vars| { assert vs[i] == vars[i]; } else { assert r[|at|] == i; }
    }
  }

  // ----- numbers -----

  /** A slice is a pointer, a length and a marked offset of four bytes each; a map is a pointer, and the
      elements of an array lie side by side. */
  lemma {:induction false} SizesExact(e: Type, n: nat)
    ensures SizeOf(Slice(e), 4) == 12 && SizeOf(Slice(e), 8) == 16
    ensures SizeOf(Map(e), 4) == 4 && SizeOf(Map(e), 8) == 8
    ensures SizeOf(Array(e, 0), 8) == 0 && SizeOf(Array(e, n + 1), 8) == SizeOf(Array(e, n), 8) + SizeOf(e, 8)
    ensures SizeOf(Array(e, 0), 4) == 0 && SizeOf(Array(e, n + 1), 4) == SizeOf(Array(e, n), 4) + SizeOf(e, 4)
  {
    assert forall size: nat :: (n + 1) * size == n * size + size;
  }

  /** The numbers that kinds of fields are hashed as. */
  lemma {:induction false} KindsExact(t: Type)
    ensures KindNumber(KindOf(t)) ==
      match t
      case Scalar(_) => 0
      case Struct(_, _) => 1
      case Array(_, _) => 2
      case Text(_) => 3
      case Slice(_) => 4
      case Map(_) => 5
  {
  }

  /** Bit by bit, packing keeps of the sum what the mask does not have. */
  lemma {:induction false} PackedBits(offset: nat, align: nat, k: nat)
    requires 1 <= align <= 8
    ensures StringSwitch.Bit(Packed(offset, align), k) ==
      if StringSwitch.Bit(align - 1, k) == 1 then 0 else StringSwitch.Bit(offset + align - 1, k)
  {
    hide Clear, StringSwitch.Bit;
    var x, mask := offset + align - 1, align - 1;
    var y := Packed(offset, align);
    ClearBounds(x % 8, mask);
    assert y / 8 == x / 8 && y % 8 == Clear(x % 8, mask);
    LowBits(x % 8, mask);
    BitSplit(x, k);
    BitSplit(y, k);
    BitSplit(mask, k);
    if k >= 3 {
      NoBits(k - 3);
    }
  }

  lemma {:induction false} LowBits(x: nat, mask: nat)
    requires x < 8 && mask < 8
    ensures forall k :: 0 <= k < 3 ==>
      StringSwitch.Bit(Clear(x, mask), k) == (if StringSwitch.Bit(mask, k) == 1 then 0 else StringSwitch.Bit(x, k))
  {
    hide StringSwitch.Bit;
    ThreeBits(x);
    ThreeBits(mask);
    ThreeBits(Clear(x, mask));
  }

  lemma {:induction false} ThreeBits(x: nat)
    ensures StringSwitch.Bit(x, 0) == x % 2
    ensures StringSwitch.Bit(x, 1) == x / 2 % 2
    ensures StringSwitch.Bit(x, 2) == x / 4 % 2
  {
    hide StringSwitch.Bit;
    BitStep(x, 0);
    BitStep(x, 1);
    BitStep(x, 2);
    BitStep(x / 2, 0);
    BitStep(x / 2, 1);
    BitStep(x / 2 / 2, 0);
  }

  lemma {:induction false} BitStep(x: nat, k: nat)
    ensures StringSwitch.Bit(x, k) == if k == 0 then x % 2 else StringSwitch.Bit(x / 2, k - 1)
  {
  }

  lemma {:induction false} BitSplit(x: nat, k: nat)
    ensures StringSwitch.Bit(x, k) == if k < 3 then StringSwitch.Bit(x % 8, k) else StringSwitch.Bit(x / 8, k - 3)
  {
    hide StringSwitch.Bit;
    ThreeBits(x);
    ThreeBits(x % 8);
    if k >= 3 {
      BitStep(x, k);
      BitStep(x / 2, k - 1);
      BitStep(x / 2 / 2, k - 2);
    }
  }

  lemma {:induction false} NoBits(k: nat)
    ensures StringSwitch.Bit(0, k) == 0
  {
    if k > 0 { NoBits(k - 1); }
  }
}
