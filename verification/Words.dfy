/** Little-endian words in byte sequences. */
module Words {

  type byte = n: int | 0 <= n < 256

  const TWO64: nat := 0x1_0000_0000_0000_0000

  type word = n: int | 0 <= n < 0x1_0000_0000_0000_0000

  function Pow(n: nat): nat {
    if n == 0 then 1 else 256 * Pow(n - 1)
  }

  /** The `n` low bytes of a number, lowest first. */
  function Bytes(n: nat, v: nat): (r: seq<byte>)
    ensures |r| == n
  {
    if n == 0 then [] else [v % 256] + Bytes(n - 1, v / 256)
  }

  function Number(s: seq<byte>): nat {
    if s == [] then 0 else s[0] + 256 * Number(s[1..])
  }

  lemma {:induction false} NumberBytes(n: nat, v: nat)
    requires v < Pow(n)
    ensures Number(Bytes(n, v)) == v
    decreases n
  {
    if n > 0 {
      NumberBytes(n - 1, v / 256);
    }
  }

  lemma {:induction false} BytesNumber(s: seq<byte>)
    ensures Number(s) < Pow(|s|) && Bytes(|s|, Number(s)) == s
    decreases |s|
  {
    if s != [] {
      BytesNumber(s[1..]);
      assert (s[0] + 256 * Number(s[1..])) % 256 == s[0];
      assert (s[0] + 256 * Number(s[1..])) / 256 == Number(s[1..]);
    }
  }

  lemma {:induction false} Pow8()
    ensures Pow(8) == TWO64
  {
    assert Pow(4) == 0x1_0000_0000;
    assert Pow(8) == 256 * (256 * (256 * (256 * Pow(4))));
  }

  lemma {:induction false} WordBytes(v: word)
    ensures Number(Bytes(8, v)) == v
  {
    Pow8();
    NumberBytes(8, v);
  }

  /** A table of 64-bit words. */
  function Table(ws: seq<word>): (r: seq<byte>)
    ensures |r| == 8 * |ws|
  {
    if ws == [] then [] else Bytes(8, ws[0]) + Table(ws[1..])
  }

  /** The 64-bit word at an offset. */
  function Word(s: seq<byte>, at: nat): word
    requires at + 8 <= |s|
  {
    Pow8();
    BytesNumber(s[at..at + 8]);
    Number(s[at..at + 8])
  }

  /** Overwrites the 64-bit word at an offset. */
  function Put(s: seq<byte>, at: nat, v: word): (r: seq<byte>)
    requires at + 8 <= |s|
    ensures |r| == |s|
  {
    s[..at] + Bytes(8, v) + s[at + 8..]
  }

  lemma {:induction false} TableWord(pre: seq<byte>, ws: seq<word>, post: seq<byte>, k: nat)
    requires k < |ws|
    ensures Word(pre + Table(ws) + post, |pre| + 8 * k) == ws[k]
    decreases k
  {
    var s := pre + Table(ws) + post;
    var b := Bytes(8, ws[0]);
    if k == 0 {
      assert s[|pre|..|pre| + 8] == b;
      WordBytes(ws[0]);
    } else {
      assert s == (pre + b) + Table(ws[1..]) + post;
      TableWord(pre + b, ws[1..], post, k - 1);
    }
  }

  lemma {:induction false} PutWord(s: seq<byte>, at: nat, v: word)
    requires at + 8 <= |s|
    ensures Word(Put(s, at, v), at) == v
  {
    assert Put(s, at, v)[at..at + 8] == Bytes(8, v);
    WordBytes(v);
  }

  lemma {:induction false} PutApart(s: seq<byte>, at: nat, v: word, other: nat)
    requires at + 8 <= |s| && other + 8 <= |s| && (at + 8 <= other || other + 8 <= at)
    ensures Word(Put(s, at, v), other) == Word(s, other)
  {
    hide Bytes;
    assert Put(s, at, v)[other..other + 8] == s[other..other + 8];
  }

  method PutUint64(a: array<byte>, at: nat, v: word)
    requires at + 8 <= a.Length
    modifies a
    ensures a[..] == Put(old(a[..]), at, v)
  {
    var bytes := Bytes(8, v);
    for i := 0 to 8
      invariant forall j :: 0 <= j < a.Length ==> a[j] == if at <= j < at + i then bytes[j - at] else old(a[j])
    {
      a[at + i] := bytes[i];
    }
  }

  lemma {:induction false} OneByte(n: nat, v: nat)
    requires n > 0
    ensures Bytes(n, v)[0] == v % 0x100 && Bytes(n, v)[1..] == Bytes(n - 1, v / 0x100)
  {
  }

  lemma {:induction false} LowHalf(v: nat)
    ensures v / 0x100 / 0x100 == v / 0x1_0000 && v / 0x1_0000 / 0x100 == v / 0x100_0000
    ensures v / 0x100_0000 / 0x100 == v / 0x1_0000_0000
  {
  }

  lemma {:induction false} FirstBytes(n: nat, v: nat)
    requires n >= 4
    ensures var b := Bytes(n, v);
      && b[0] == v % 0x100 && b[1] == v / 0x100 % 0x100
      && b[2] == v / 0x1_0000 % 0x100 && b[3] == v / 0x100_0000 % 0x100
      && b[4..] == Bytes(n - 4, v / 0x1_0000_0000)
  {
    hide Bytes;
    LowHalf(v);
    OneByte(n, v);
    OneByte(n - 1, v / 0x100);
    OneByte(n - 2, v / 0x1_0000);
    OneByte(n - 3, v / 0x100_0000);
    var b := Bytes(n, v);
    assert b[1..][1..] == b[2..] && b[2..][1..] == b[3..] && b[3..][1..] == b[4..];
  }

  lemma {:induction false} HighHalf(v: nat)
    ensures var h := v / 0x1_0000_0000;
      && h / 0x100 == v / 0x100_0000_0000 && h / 0x1_0000 == v / 0x1_0000_0000_0000
      && h / 0x100_0000 == v / 0x100_0000_0000_0000
  {
  }

  /** The bytes of a word, lowest first. */
  lemma {:induction false} LittleEndian(v: word)
    ensures var b := Bytes(8, v);
      && b[0] == v % 0x100 && b[1] == v / 0x100 % 0x100
      && b[2] == v / 0x1_0000 % 0x100 && b[3] == v / 0x100_0000 % 0x100
      && b[4] == v / 0x1_0000_0000 % 0x100 && b[5] == v / 0x100_0000_0000 % 0x100
      && b[6] == v / 0x1_0000_0000_0000 % 0x100 && b[7] == v / 0x100_0000_0000_0000 % 0x100
  {
    hide Bytes;
    FirstBytes(8, v);
    FirstBytes(4, v / 0x1_0000_0000);
    HighHalf(v);
    assert Bytes(8, v)[4..][0] == Bytes(8, v)[4] && Bytes(8, v)[4..][1] == Bytes(8, v)[5];
    assert Bytes(8, v)[4..][2] == Bytes(8, v)[6] && Bytes(8, v)[4..][3] == Bytes(8, v)[7];
  }
}
