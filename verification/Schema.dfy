/** The bytes that are hashed to recognise the layout of a mapped variable group. */
module Schema {
  import opened Words
  import StringSwitch

  datatype SchemaField = SchemaField(name: seq<byte>, typeName: seq<byte>, kind: nat, size: int)

  /** A conversion to a 32-bit rune. */
  function Rune(n: int): int {
    (n + 0x8000_0000) % 0x1_0000_0000 - 0x8000_0000
  }

  /** The character that is written for a rune; what is none is replaced by U+FFFD. */
  function Char(rune: int): (c: nat)
    ensures c <= 0x10FFFF
  {
    if rune < 0 || 0xD800 <= rune < 0xE000 || rune > 0x10FFFF then 0xFFFD else rune
  }

  /** UTF-8, section 3 of RFC 3629. */
  function Utf8(rune: int): (r: seq<byte>)
    ensures 1 <= |r| <= 4
  {
    var c := Char(rune);
    if c < 0x80 then [c]
    else if c < 0x800 then [0xC0 + c / 64, 0x80 + c % 64]
    else if c < 0x1_0000 then [0xE0 + c / 4096, 0x80 + c / 64 % 64, 0x80 + c % 64]
    else [0xF0 + c / 262144, 0x80 + c / 4096 % 64, 0x80 + c / 64 % 64, 0x80 + c % 64]
  }

  function Part(value: seq<byte>): seq<byte> {
    value + [0]
  }

  function FieldBytes(f: SchemaField): seq<byte> {
    Part(f.name) + (Part(f.typeName) + (Part(Utf8(Rune(f.kind))) + Part(Utf8(Rune(f.size)))))
  }

  function FieldsBytes(fs: seq<SchemaField>): seq<byte> {
    if fs == [] then [] else FieldBytes(fs[0]) + FieldsBytes(fs[1..])
  }

  /** Everything that goes into the hash. */
  function SchemaBytes(name: seq<byte>, fs: seq<SchemaField>): seq<byte> {
    Part(name) + FieldsBytes(fs)
  }

  // ----- the hash -----

  function AsText(s: seq<byte>): StringSwitch.Text {
    seq(|s|, i requires 0 <= i < |s| => s[i] as bv8)
  }

  /** FNV-1a over the bytes. */
  function HashBytes(s: seq<byte>): nat {
    StringSwitch.Hash(AsText(s), false)
  }

  class Hasher {
    var sum: nat
    ghost var written: seq<byte>

    ghost predicate Valid()
      reads this
    {
      sum == HashBytes(written)
    }

    constructor ()
      ensures Valid() && written == []
    {
      sum := StringSwitch.Offset(false);
      written := [];
    }

    method Write(value: seq<byte>)
      requires Valid()
      modifies this
      ensures Valid() && written == old(written) + value
    {
      hide StringSwitch.Mix;
      for i := 0 to |value|
        invariant Valid() && written == old(written) + value[..i]
      {
        var b := value[i];
        assert AsText(written + [b])[..|written|] == AsText(written);
        sum := StringSwitch.Mix(sum, b as bv8, false);
        written := written + [b];
        assert value[..i + 1] == value[..i] + [b];
      }
      assert value[..|value|] == value;
    }

    method WriteSchemaPart(value: seq<byte>)
      requires Valid()
      modifies this
      ensures Valid() && written == old(written) + Part(value)
    {
      Write(value);
      Write([0]);
    }
  }

  method SchemaHash(name: seq<byte>, fields: seq<SchemaField>) returns (hash: nat)
    ensures hash == HashBytes(SchemaBytes(name, fields))
  {
    hide HashBytes, Utf8, Rune, Part;
    var h := new Hasher();
    h.WriteSchemaPart(name);
    assert [] + Part(name) == Part(name);
    assert fields[0..] == fields;
    for i := 0 to |fields|
      invariant h.Valid() && h.written + FieldsBytes(fields[i..]) == SchemaBytes(name, fields)
    {
      ghost var w := h.written;
      assert fields[i..][0] == fields[i] && fields[i..][1..] == fields[i + 1..];
      h.WriteSchemaPart(fields[i].name);
      h.WriteSchemaPart(fields[i].typeName);
      h.WriteSchemaPart(Utf8(Rune(fields[i].kind)));
      h.WriteSchemaPart(Utf8(Rune(fields[i].size)));
      Joined(w, Part(fields[i].name), Part(fields[i].typeName), Part(Utf8(Rune(fields[i].kind))),
             Part(Utf8(Rune(fields[i].size))),
             FieldsBytes(fields[i + 1..]));
    }
    assert h.written + [] == h.written;
    hash := h.sum;
  }

  lemma {:induction false} Joined(w: seq<byte>, a: seq<byte>, b: seq<byte>, c: seq<byte>, d: seq<byte>, rest: seq<byte>)
    ensures w + a + b + c + d + rest == w + ((a + (b + (c + d))) + rest)
  {
  }

  // ----- the bytes determine the schema -----

  predicate NulFree(s: seq<byte>) {
    forall i :: 0 <= i < |s| ==> s[i] != 0
  }

  predicate NulFreeNames(f: SchemaField) {
    NulFree(f.name) && NulFree(f.typeName)
  }

  /** The same for the hash: kinds and sizes are the same characters. */
  predicate Alike(f: SchemaField, g: SchemaField) {
    f.name == g.name && f.typeName == g.typeName && Char(Rune(f.kind)) == Char(Rune(g.kind)) &&
      Char(Rune(f.size)) == Char(Rune(g.size))
  }

  predicate AllAlike(fs: seq<SchemaField>, gs: seq<SchemaField>) {
    |fs| == |gs| && forall i :: 0 <= i < |fs| ==> Alike(fs[i], gs[i])
  }

  lemma {:induction false} NulFirst(s: seq<byte>)
    requires NulFree(s)
    ensures Part(s)[0] == 0 <==> s == []
  {
    if s != [] { assert Part(s)[0] == s[0]; }
  }

  lemma {:induction false} PartSplits(a: seq<byte>, x: seq<byte>, b: seq<byte>, y: seq<byte>)
    requires NulFree(a) && NulFree(b) && Part(a) + x == Part(b) + y
    ensures a == b && x == y
    decreases |a|
  {
    var s, t := Part(a) + x, Part(b) + y;
    if a == [] {
      assert s[0] == 0 && t[0] == Part(b)[0];
      NulFirst(b);
    } else {
      assert s[0] == a[0] && t[0] == Part(b)[0];
      assert b != [];
      assert s[1..] == Part(a[1..]) + x && t[1..] == Part(b[1..]) + y;
      PartSplits(a[1..], x, b[1..], y);
      assert a == [a[0]] + a[1..] && b == [b[0]] + b[1..];
    }
    assert s[|Part(a)|..] == x && t[|Part(b)|..] == y;
  }

  /** The first byte of a character tells its length, so that the character ends by itself. */
  lemma {:induction false} Utf8Splits(c: int, x: seq<byte>, d: int, y: seq<byte>)
    requires Part(Utf8(c)) + x == Part(Utf8(d)) + y
    ensures Char(c) == Char(d) && x == y
  {
    hide Char;
    var u, v := Utf8(c), Utf8(d);
    var s, t := Part(u) + x, Part(v) + y;
    assert s[0] == u[0] && t[0] == v[0];
    assert |u| == |v|;
    assert s[..|u|] == u && t[..|v|] == v;
    assert s[|u| + 1..] == x && t[|v| + 1..] == y;
    Utf8Determines(c, d);
  }

  lemma {:induction false} Utf8Determines(c: int, d: int)
    requires Utf8(c) == Utf8(d)
    ensures Char(c) == Char(d)
  {
    hide Char;
    var u, v := Utf8(c), Utf8(d);
    assert u[0] == v[0] && u[|u| - 1] == v[|v| - 1];
    assert |u| >= 3 ==> u[1] == v[1] && u[2] == v[2];
    Digits64(Char(c));
    Digits64(Char(d));
  }

  lemma {:induction false} Digits64(c: nat)
    ensures c == c / 64 * 64 + c % 64
    ensures c == c / 4096 * 4096 + c / 64 % 64 * 64 + c % 64
    ensures c == c / 262144 * 262144 + c / 4096 % 64 * 4096 + c / 64 % 64 * 64 + c % 64
  {
    assert c / 4096 == c / 64 / 64;
    assert c / 262144 == c / 4096 / 64;
  }

  lemma {:induction false} FieldSplits(f: SchemaField, x: seq<byte>, g: SchemaField, y: seq<byte>)
    requires NulFreeNames(f) && NulFreeNames(g) && FieldBytes(f) + x == FieldBytes(g) + y
    ensures Alike(f, g) && x == y
  {
    hide Utf8, Part, NulFree, Char, Rune;
    Regroup(f, x);
    Regroup(g, y);
    var fs, gs := Part(Utf8(Rune(f.size))) + x, Part(Utf8(Rune(g.size))) + y;
    var fk, gk := Part(Utf8(Rune(f.kind))) + fs, Part(Utf8(Rune(g.kind))) + gs;
    PartSplits(f.name, Part(f.typeName) + fk, g.name, Part(g.typeName) + gk);
    PartSplits(f.typeName, fk, g.typeName, gk);
    Utf8Splits(Rune(f.kind), fs, Rune(g.kind), gs);
    Utf8Splits(Rune(f.size), x, Rune(g.size), y);
  }

  lemma {:induction false} Regroup(f: SchemaField, x: seq<byte>)
    ensures FieldBytes(f) + x == Part(f.name)
      + (Part(f.typeName) + (Part(Utf8(Rune(f.kind))) + (Part(Utf8(Rune(f.size))) + x)))
  {
    hide Utf8, Part, Rune;
  }

  lemma {:induction false} AlikeBytes(f: SchemaField, g: SchemaField)
    requires Alike(f, g)
    ensures FieldBytes(f) == FieldBytes(g)
  {
  }

  lemma {:induction false} FieldsDetermined(fs: seq<SchemaField>, gs: seq<SchemaField>)
    requires (forall i :: 0 <= i < |fs| ==> NulFreeNames(fs[i])) && (forall i :: 0 <= i < |gs| ==> NulFreeNames(gs[i]))
    ensures FieldsBytes(fs) == FieldsBytes(gs) <==> AllAlike(fs, gs)
    decreases |fs|
  {
    hide FieldBytes, NulFreeNames, Alike;
    NotEmpty(fs);
    NotEmpty(gs);
    if fs != [] && gs != [] {
      var ft, gt := fs[1..], gs[1..];
      if FieldsBytes(fs) == FieldsBytes(gs) {
        FieldSplits(fs[0], FieldsBytes(ft), gs[0], FieldsBytes(gt));
      }
      FieldsDetermined(ft, gt);
      if AllAlike(fs, gs) {
        AlikeBytes(fs[0], gs[0]);
        assert AllAlike(ft, gt);
      }
      assert Alike(fs[0], gs[0]) && AllAlike(ft, gt) ==> AllAlike(fs, gs) by { AlikeAll(fs, gs); }
    }
  }

  lemma {:induction false} AlikeAll(fs: seq<SchemaField>, gs: seq<SchemaField>)
    requires fs != [] && gs != []
    ensures Alike(fs[0], gs[0]) && AllAlike(fs[1..], gs[1..]) ==> AllAlike(fs, gs)
  {
    hide Alike;
    if Alike(fs[0], gs[0]) && AllAlike(fs[1..], gs[1..]) {
      forall i | 0 <= i < |fs| ensures Alike(fs[i], gs[i]) {
        assert i == 0 || Alike(fs[1..][i - 1], gs[1..][i - 1]);
      }
    }
  }

  lemma {:induction false} NotEmpty(fs: seq<SchemaField>)
    ensures FieldsBytes(fs) == [] <==> fs == []
  {
    if fs != [] { assert |FieldBytes(fs[0])| > 0; }
  }

  /** The hashed bytes are the same exactly for the same name and fields that are alike. */
  lemma {:induction false} SchemaDetermined(name: seq<byte>, fs: seq<SchemaField>, name': seq<byte>,
                                            gs: seq<SchemaField>)
    requires NulFree(name) && NulFree(name')
    requires (forall i :: 0 <= i < |fs| ==> NulFreeNames(fs[i])) && (forall i :: 0 <= i < |gs| ==> NulFreeNames(gs[i]))
    ensures SchemaBytes(name, fs) == SchemaBytes(name', gs) <==> name == name' && AllAlike(fs, gs)
  {
    hide FieldsBytes, Part, NulFreeNames, NulFree, AllAlike;
    FieldsDetermined(fs, gs);
    if SchemaBytes(name, fs) == SchemaBytes(name', gs) {
      PartSplits(name, FieldsBytes(fs), name', FieldsBytes(gs));
    }
  }

  /** No character stands for the number: its low 32 bits are negative, among the surrogates or too
      large, or they are U+FFFD itself, which is written for all of these. */
  predicate Lost(n: int) {
    var low := n % 0x1_0000_0000;
    0xD800 <= low < 0xE000 || low == 0xFFFD || 0x10FFFF < low
  }

  /** When two kinds or two sizes are taken for the same. */
  predicate Collide(a: int, b: int) {
    (a - b) % 0x1_0000_0000 == 0 || (Lost(a) && Lost(b))
  }

  lemma {:induction false} CharExact(n: int)
    ensures Char(Rune(n)) == if Lost(n) then 0xFFFD else n % 0x1_0000_0000
  {
    var low := n % 0x1_0000_0000;
    assert Rune(n) == if low < 0x8000_0000 then low else low - 0x1_0000_0000 by {
      RuneLow(n);
    }
  }

  lemma {:induction false} RuneLow(n: int)
    ensures var low := n % 0x1_0000_0000;
      Rune(n) == if low < 0x8000_0000 then low else low - 0x1_0000_0000
  {
    var q, low := n / 0x1_0000_0000, n % 0x1_0000_0000;
    assert n + 0x8000_0000 == q * 0x1_0000_0000 + (low + 0x8000_0000);
  }

  lemma {:induction false} SameLow(a: int, b: int)
    ensures a % 0x1_0000_0000 == b % 0x1_0000_0000 <==> (a - b) % 0x1_0000_0000 == 0
  {
    var n := 0x1_0000_0000;
    assert a == n * (a / n) + a % n && b == n * (b / n) + b % n;
    assert a - b == n * (a / n - b / n) + (a % n - b % n);
  }

  /** Exactly which fields the hash cannot tell apart, for all kinds and sizes. */
  lemma {:induction false} AlikeExact(f: SchemaField, g: SchemaField)
    ensures Alike(f, g) <==>
      f.name == g.name && f.typeName == g.typeName && Collide(f.kind, g.kind) && Collide(f.size, g.size)
  {
    hide Char, Rune;
    CharCollide(f.kind, g.kind);
    CharCollide(f.size, g.size);
  }

  lemma {:induction false} CharCollide(a: int, b: int)
    ensures Char(Rune(a)) == Char(Rune(b)) <==> Collide(a, b)
  {
    hide Char, Rune;
    CharExact(a);
    CharExact(b);
    SameLow(a, b);
  }

  /** Kinds, and sizes below the surrogates, zero included, are told apart. */
  lemma {:induction false} SmallTold(f: SchemaField, g: SchemaField)
    requires f.kind < 0xD800 && g.kind < 0xD800 && 0 <= f.size < 0xD800 && 0 <= g.size < 0xD800
    ensures Alike(f, g) <==> f == g
  {
    hide Alike;
    AlikeExact(f, g);
  }

  // ----- the bytes -----

  /** What a byte adds to a character: what it has above the mark it begins with, so many digits up. */
  function Weight(b: byte, mark: int, unit: int): int {
    ((b as int) - mark) * unit
  }

  predicate Follows(b: byte) {
    0x80 <= b < 0xC0
  }

  /** What the bytes of a character say: one below 0x80, else the first tells how many follow, and all
      together hold its bits, six in each that follows. */
  lemma {:induction false} Utf8Decodes(rune: int)
    ensures var c, u := Char(rune), Utf8(rune);
      if c < 0x80 then u == [c]
      else if c < 0x800 then
        |u| == 2 && 0xC0 <= u[0] < 0xE0 && Follows(u[1]) && c == Weight(u[0], 0xC0, 64) + Weight(u[1], 0x80, 1)
      else if c < 0x1_0000 then
        && |u| == 3 && 0xE0 <= u[0] < 0xF0 && Follows(u[1]) && Follows(u[2])
        && c == Weight(u[0], 0xE0, 4096) + Weight(u[1], 0x80, 64) + Weight(u[2], 0x80, 1)
      else
        && |u| == 4 && 0xF0 <= u[0] < 0xF8 && Follows(u[1]) && Follows(u[2]) && Follows(u[3])
        && c == Weight(u[0], 0xF0, 262144) + Weight(u[1], 0x80, 4096) + Weight(u[2], 0x80, 64) + Weight(u[3], 0x80, 1)
  {
    hide Char;
    Digits64(Char(rune));
  }

  /** What is hashed: the name of the group, then field by field name, type, kind and size, in order and
      each ended by NUL. */
  lemma {:induction false} BytesInOrder(name: seq<byte>, fs: seq<SchemaField>, f: SchemaField)
    ensures SchemaBytes(name, []) == name + [0]
    ensures SchemaBytes(name, fs + [f]) ==
      SchemaBytes(name, fs) + f.name + [0] + f.typeName + [0] + Utf8(Rune(f.kind)) + [0] + Utf8(Rune(f.size)) + [0]
  {
    hide Utf8, Rune, FieldBytes, FieldsBytes;
    FieldsAppend(fs, f);
    FieldFlat(SchemaBytes(name, fs), f);
    assert Part(name) + (FieldsBytes(fs) + FieldBytes(f)) == SchemaBytes(name, fs) + FieldBytes(f);
    assert Part(name) + FieldsBytes([]) == Part(name) by { NoFieldsBytes(); }
  }

  lemma {:induction false} NoFieldsBytes()
    ensures FieldsBytes([]) == []
  {
  }

  lemma {:induction false} FieldFlat(a: seq<byte>, f: SchemaField)
    ensures a + FieldBytes(f) ==
      a + f.name + [0] + f.typeName + [0] + Utf8(Rune(f.kind)) + [0] + Utf8(Rune(f.size)) + [0]
  {
    hide Utf8, Rune;
    var k, z := Utf8(Rune(f.kind)), Utf8(Rune(f.size));
    assert FieldBytes(f) == f.name + [0] + f.typeName + [0] + k + [0] + z + [0];
  }

  lemma {:induction false} FieldsAppend(fs: seq<SchemaField>, f: SchemaField)
    ensures FieldsBytes(fs + [f]) == FieldsBytes(fs) + FieldBytes(f)
    decreases |fs|
  {
    hide FieldBytes;
    if fs == [] {
      assert [f][1..] == [];
    } else {
      FieldsAppend(fs[1..], f);
      assert (fs + [f])[1..] == fs[1..] + [f];
    }
  }

  /** The bytes of a group "m" with a field "a" of type "int", kind 0 and size 8: every part ends in NUL,
      and kind comes before size. */
  lemma {:induction false} BytesOfOne(f: SchemaField)
    requires f == SchemaField([0x61], [0x69, 0x6E, 0x74], 0, 8)
    ensures SchemaBytes([0x6D], [f]) == [0x6D, 0, 0x61, 0, 0x69, 0x6E, 0x74, 0, 0, 0, 8, 0]
  {
    assert [f][1..] == [];
    assert FieldsBytes([f]) == FieldBytes(f) + FieldsBytes([f][1..]);
    assert Utf8(Rune(0)) == [0] && Utf8(Rune(8)) == [8];
  }
}
