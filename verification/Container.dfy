/** The simple container of a memory block: a header, the payload and the offsets of its pointers. */
module Container {
  import opened Words

  datatype BlockResult<+T> = Ok(value: T) | InvalidMagic | UnsupportedVersion | Truncated | TrailingData | OutOfRange

  datatype Block = Block(data: seq<byte>, pointers: seq<word>)

  /** What decoding finds: the payload, the bytes of the table and the number of its rows. */
  datatype Parts = Parts(payload: seq<byte>, relocs: seq<byte>, count: nat)

  const HEADER: nat := 32
  const MAGIC: seq<byte> := [0x48, 0x4D, 0x42, 0x31]   // "HMB1"

  function Zeros(n: nat): (r: seq<byte>)
    ensures |r| == n
  {
    seq(n, _ => 0)
  }

  function Overlay(s: seq<byte>, at: nat, part: seq<byte>): (r: seq<byte>)
    requires at + |part| <= |s|
    ensures |r| == |s|
  {
    s[..at] + part + s[at + |part|..]
  }

  predicate InPayload(b: Block) {
    forall i :: 0 <= i < |b.pointers| ==> b.pointers[i] < |b.data|
  }

  /** All sizes fit in memory. */
  predicate Moderate(b: Block) {
    HEADER + |b.data| + 8 * |b.pointers| < TWO64
  }

  function Image(b: Block): seq<byte>
    requires Moderate(b)
  {
    MAGIC + Bytes(4, 1) + Bytes(8, |b.data|) + Bytes(8, |b.pointers|) + Zeros(8) + b.data + Table(b.pointers)
  }

  // ----- writing -----

  class Buffer {
    var bytes: array<byte>
    /** How much has been written; the rest is zero. */
    ghost var done: seq<byte>

    ghost predicate Valid()
      reads this, bytes
    {
      |done| <= bytes.Length && bytes[..] == done + Zeros(bytes.Length - |done|)
    }

    constructor (size: nat)
      ensures Valid() && fresh(bytes) && bytes.Length == size && done == []
    {
      bytes := new byte[size](_ => 0);
      done := [];
      new;
      assert bytes[..] == Zeros(size);
    }

    /** Copies a part to the position where the written part ends. */
    method Put(at: nat, part: seq<byte>)
      requires Valid() && at == |done| && at + |part| <= bytes.Length
      modifies bytes, `done
      ensures Valid() && bytes == old(bytes) && done == old(done) + part
    {
      ghost var before := bytes[..];
      for i := 0 to |part|
        invariant done == old(done)
        invariant forall j :: 0 <= j < bytes.Length ==> bytes[j] == if at <= j < at + i then part[j - at] else before[j]
      {
        bytes[at + i] := part[i];
      }
      done := done + part;
      assert bytes[..] == done + Zeros(bytes.Length - |done|);
    }

    /** Leaves a part zero. */
    ghost method Skip(n: nat)
      requires Valid() && |done| + n <= bytes.Length
      modifies `done
      ensures Valid() && done == old(done) + Zeros(n)
    {
      done := done + Zeros(n);
      assert bytes[..] == done + Zeros(bytes.Length - |done|);
    }
  }

  method Serialize(b: Block) returns (r: BlockResult<seq<byte>>)
    requires Moderate(b)
    ensures r == if InPayload(b) then Ok(Image(b)) else OutOfRange
  {
    hide Bytes, Table, Zeros;
    for i := 0 to |b.pointers|
      invariant forall j :: 0 <= j < i ==> b.pointers[j] < |b.data|
    {
      if b.pointers[i] >= |b.data| {
        return OutOfRange;
      }
    }
    var n := |b.data|;
    var out := new Buffer(HEADER + n + 8 * |b.pointers|);
    out.Put(0, MAGIC);
    out.Put(4, Bytes(4, 1));
    out.Put(8, Bytes(8, n));
    out.Put(16, Bytes(8, |b.pointers|));
    out.Skip(8);
    out.Put(HEADER, b.data);
    PutTable(out, HEADER + n, b.pointers);
    assert [] + MAGIC == MAGIC;
    WrittenAll(out.bytes[..], out.done);
    r := Ok(out.bytes[..]);
  }

  lemma {:induction false} WrittenAll(bytes: seq<byte>, done: seq<byte>)
    requires |done| == |bytes| && bytes == done + Zeros(|bytes| - |done|)
    ensures bytes == done
  {
  }

  method PutTable(out: Buffer, start: nat, words: seq<word>)
    requires out.Valid() && start == |out.done| && start + 8 * |words| == out.bytes.Length
    modifies out.bytes, out`done
    ensures out.Valid() && out.bytes == old(out.bytes) && out.done == old(out.done) + Table(words)
  {
    hide Bytes, Table;
    var pos := start;
    TableEnd(old(out.done));
    assert words[0..] == words;
    for i := 0 to |words|
      invariant out.Valid() && out.bytes == old(out.bytes) && pos == |out.done| == start + 8 * i
      invariant out.done + Table(words[i..]) == old(out.done) + Table(words)
    {
      TableStep(out.done, words, i);
      out.Put(pos, Bytes(8, words[i]));
      pos := pos + 8;
    }
    TableEnd(out.done);
  }

  lemma {:induction false} TableStep(done: seq<byte>, words: seq<word>, i: nat)
    requires i < |words|
    ensures done + Table(words[i..]) == (done + Bytes(8, words[i])) + Table(words[i + 1..])
  {
    hide Bytes;
    assert words[i..][0] == words[i] && words[i..][1..] == words[i + 1..];
    assert done + (Bytes(8, words[i]) + Table(words[i + 1..])) == (done + Bytes(8, words[i])) + Table(words[i + 1..]);
  }

  lemma {:induction false} TableEnd(done: seq<byte>)
    ensures done + Table([]) == done
  {
  }

  // ----- reading -----

  /** The payload length and the number of pointers that a file declares. */
  function DataLen(b: seq<byte>): word
    requires |b| >= HEADER
  {
    Word(b, 8)
  }

  function Count(b: seq<byte>): word
    requires |b| >= HEADER
  {
    Word(b, 16)
  }

  /** Checks a file and takes it apart: it is accepted exactly when it has the magic, the version and
      exactly the declared size, and the first of these that is missing is the error. */
  method DecodeHeader(b: seq<byte>) returns (r: BlockResult<Parts>)
    ensures r.InvalidMagic? <==> !(|b| >= HEADER && b[..4] == MAGIC)
    ensures r.UnsupportedVersion? <==> |b| >= HEADER && b[..4] == MAGIC && b[4..8] != Bytes(4, 1)
    ensures r.Truncated? <==>
      |b| >= HEADER && b[..4] == MAGIC && b[4..8] == Bytes(4, 1) && HEADER + DataLen(b) + 8 * Count(b) > |b|
    ensures r.TrailingData? <==>
      |b| >= HEADER && b[..4] == MAGIC && b[4..8] == Bytes(4, 1) && HEADER + DataLen(b) + 8 * Count(b) < |b|
    ensures !r.OutOfRange?
    ensures r.Ok? ==> |b| == HEADER + DataLen(b) + 8 * Count(b)
    ensures r.Ok? ==> r.value == Parts(b[HEADER..HEADER + DataLen(b)], b[HEADER + DataLen(b)..], Count(b))
  {
    hide Bytes, Word;
    if |b| < HEADER || b[..4] != MAGIC {
      return InvalidMagic;
    }
    if b[4..8] != Bytes(4, 1) {
      return UnsupportedVersion;
    }
    var dataLen, n := Word(b, 8), Word(b, 16);
    if dataLen > |b| - HEADER || n > (|b| - HEADER - dataLen) / 8 {
      return Truncated;
    }
    if HEADER + dataLen + n * 8 != |b| {
      return TrailingData;
    }
    r := Ok(Parts(b[HEADER..HEADER + dataLen], b[HEADER + dataLen..], n));
  }

  // ----- there and back -----

  lemma {:induction false} ImageParts(b: Block)
    requires Moderate(b)
    ensures var i := Image(b);
      && |i| == HEADER + |b.data| + 8 * |b.pointers|
      && i[..4] == MAGIC && i[4..8] == Bytes(4, 1) && DataLen(i) == |b.data| && Count(i) == |b.pointers|
      && i[HEADER..HEADER + |b.data|] == b.data && i[HEADER + |b.data|..] == Table(b.pointers)
  {
    hide Bytes, Table, Number, Word;
    var i, n, k := Image(b), |b.data|, |b.pointers|;
    assert i[8..16] == Bytes(8, n) && i[16..24] == Bytes(8, k);
    WordAt(i, 8, n);
    WordAt(i, 16, k);
  }

  lemma {:induction false} WordAt(s: seq<byte>, at: nat, v: word)
    requires at + 8 <= |s| && s[at..at + 8] == Bytes(8, v)
    ensures Word(s, at) == v
  {
    WordBytes(v);
  }

  /** The pointers in a table. */
  function Pointers(table: seq<byte>, count: nat): (r: seq<word>)
    requires |table| == 8 * count
    ensures |r| == count
  {
    if count == 0 then [] else [Word(table, 0)] + Pointers(table[8..], count - 1)
  }

  lemma {:induction false} TableWords(words: seq<word>)
    ensures Pointers(Table(words), |words|) == words
    decreases |words|
  {
    if words != [] {
      TableWord([], words, [], 0);
      assert [] + Table(words) + [] == Table(words);
      TableWords(words[1..]);
      assert Table(words)[8..] == Table(words[1..]);
    }
  }

  lemma {:induction false} WordsTable(table: seq<byte>, count: nat)
    requires |table| == 8 * count
    ensures Table(Pointers(table, count)) == table
    decreases count
  {
    if count > 0 {
      WordsTable(table[8..], count - 1);
      BytesNumber(table[..8]);
      assert table == table[..8] + table[8..];
      assert table[0..8] == table[..8];
    }
  }

  /** A block that is written and read again comes back. */
  method RoundTrip(b: Block) returns (r: BlockResult<Parts>)
    requires Moderate(b) && InPayload(b)
    ensures r == Ok(Parts(b.data, Table(b.pointers), |b.pointers|)) &&
      Pointers(Table(b.pointers), |b.pointers|) == b.pointers
  {
    hide Image, Table;
    ImageParts(b);
    TableWords(b.pointers);
    var image := Serialize(b);
    r := DecodeHeader(image.value);
    assert image.value[HEADER..] == image.value[HEADER..HEADER + |b.data|] + image.value[HEADER + |b.data|..];
  }

  /** A file that is accepted and written again is the same file, but for the eight bytes of the header
      that are not used. */
  method RoundTripFile(b: seq<byte>) returns (again: BlockResult<seq<byte>>)
    requires |b| < TWO64
    requires |b| >= HEADER && b[..4] == MAGIC && b[4..8] == Bytes(4, 1) && HEADER + DataLen(b) + 8 * Count(b) == |b|
    ensures var block := Block(b[HEADER..HEADER + DataLen(b)], Pointers(b[HEADER + DataLen(b)..], Count(b)));
      again == if InPayload(block) then Ok(Overlay(b, 24, Zeros(8))) else OutOfRange
  {
    hide Bytes, Word, Pointers;
    var parts := DecodeHeader(b);
    var n, k := DataLen(b), Count(b);
    var table := b[HEADER + n..];
    var block := Block(b[HEADER..HEADER + n], Pointers(table, k));
    WordsTable(table, k);
    again := Serialize(block);
    HeaderBytes(b);
    assert b == b[..4] + b[4..8] + b[8..16] + b[16..24] + b[24..32] + b[HEADER..HEADER + n] + table;
    assert Overlay(b, 24, Zeros(8)) == b[..4] + b[4..8] + b[8..16] + b[16..24] + Zeros(8) + b[HEADER..HEADER + n]
      + table;
  }

  lemma {:induction false} HeaderBytes(b: seq<byte>)
    requires |b| >= HEADER
    ensures Bytes(8, DataLen(b)) == b[8..16] && Bytes(8, Count(b)) == b[16..24]
  {
    hide Bytes, Number;
    BytesNumber(b[8..16]);
    BytesNumber(b[16..24]);
  }

  /** The file byte by byte: "HMB1", version 1, the two sizes, eight zero bytes, the payload at 32 and the
      pointers behind it. */
  lemma {:induction false} FileLayout(b: Block)
    requires Moderate(b)
    ensures var image, n := Image(b), |b.data|;
      && |image| == 32 + n + 8 * |b.pointers|
      && image[..8] == [0x48, 0x4D, 0x42, 0x31, 1, 0, 0, 0]
      && Word(image, 8) == n && Word(image, 16) == |b.pointers|
      && image[24..32] == [0, 0, 0, 0, 0, 0, 0, 0]
      && image[32..32 + n] == b.data
      && forall i :: 0 <= i < |b.pointers| ==> Word(image, 32 + n + 8 * i) == b.pointers[i]
  {
    hide Bytes, Table, Word;
    var image, n := Image(b), |b.data|;
    FirstBytes(4, 1);
    var sizes: seq<word> := [n, |b.pointers|];
    var front := MAGIC + Bytes(4, 1);
    var back := Zeros(8) + b.data + Table(b.pointers);
    TwoWords(n, |b.pointers|);
    assert image == front + Table(sizes) + back;
    TableWord(front, sizes, back, 0);
    TableWord(front, sizes, back, 1);
    var before := front + Table(sizes) + Zeros(8) + b.data;
    assert image == before + Table(b.pointers) + [];
    forall i | 0 <= i < |b.pointers| ensures Word(image, 32 + n + 8 * i) == b.pointers[i] {
      TableWord(before, b.pointers, [], i);
    }
  }

  lemma {:induction false} TwoWords(a: word, b: word)
    ensures Table([a, b]) == Bytes(8, a) + Bytes(8, b)
  {
    hide Bytes;
    assert [a, b][1..] == [b] && [b][1..] == [];
  }
}
