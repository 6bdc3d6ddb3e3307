/** The sign-encoded 32-bit offset of string and slice views. An offset n of a view of ordinary storage
    is the word n; of a view of literal storage, its complement. Words are given as numbers below
    2^32. */
module Offsets {

  const MAX: nat := 0xFFFF_FFFF

  type word32 = n: int | 0 <= n < 0x1_0000_0000

  /** The arithmetic right shift by 31: all bits are the sign. */
  function Sign(x: word32): word32 {
    if x < 0x8000_0000 then 0 else MAX
  }

  predicate IsMask(m: word32) {
    m == 0 || m == MAX
  }

  function Xor(x: word32, mask: word32): word32
    requires IsMask(mask)
  {
    if mask == 0 then x else MAX - x
  }

  function Add(x: word32, y: word32): word32 {
    (x + y) % 0x1_0000_0000
  }

  /** What `Xor` is in bits. */
  lemma {:induction false} XorBits(x: bv32)
    ensures x ^ 0 == x && x ^ 0xFFFF_FFFF == 0xFFFF_FFFF - x
  {
  }

  // ----- the emitted code -----

  function Decode(x: word32): word32 {
    Xor(x, Sign(x))
  }

  function Encode(base: word32, delta: word32): word32 {
    Xor(Add(Decode(base), delta), Sign(base))
  }

  // ----- what the lowerer computes itself for constants -----

  /** The complement of the low 32 bits of a 64-bit constant, as a 64-bit constant. */
  function Complement(c: int): int {
    MAX - c % 0x1_0000_0000
  }

  function FoldedDecode(c: int): int {
    if c < 0 then Complement(c) else c
  }

  function FoldedEncode(base: int, delta: int): int {
    var logical := FoldedDecode(base) + delta;
    if base < 0 then Complement(logical) else logical
  }

  function Pattern(c: int): word32 {
    c % 0x1_0000_0000
  }

  predicate Int32(c: int) {
    -0x8000_0000 <= c < 0x8000_0000
  }

  lemma {:induction false} DecodeFolds(base: int)
    requires Int32(base)
    ensures Pattern(FoldedDecode(base)) == Decode(Pattern(base))
    ensures Sign(Pattern(base)) == if base < 0 then MAX else 0
  {
    assert Pattern(base) == if base < 0 then base + 0x1_0000_0000 else base;
  }

  /** Folding constants gives the bits that the emitted code computes. */
  lemma {:induction false} FoldingAgrees(base: int, delta: int)
    requires Int32(base) && Int32(delta)
    ensures Pattern(FoldedDecode(base)) == Decode(Pattern(base))
    ensures Pattern(FoldedEncode(base, delta)) == Encode(Pattern(base), Pattern(delta))
  {
    hide Pattern, Decode, Complement, FoldedDecode, Add, Sign;
    DecodeFolds(base);
    AddPattern(FoldedDecode(base), delta);
    ComplementPattern(FoldedDecode(base) + delta);
  }

  lemma {:induction false} AddPattern(x: int, y: int)
    ensures Add(Pattern(x), Pattern(y)) == Pattern(x + y)
  {
    var n := 0x1_0000_0000;
    assert x == n * (x / n) + x % n && y == n * (y / n) + y % n;
    var k := x / n + y / n;
    assert x + y == n * k + (x % n + y % n);
    Multiple(x % n + y % n, k);
  }

  lemma {:induction false} Multiple(x: int, k: int)
    ensures (0x1_0000_0000 * k + x) % 0x1_0000_0000 == x % 0x1_0000_0000
  {
  }

  lemma {:induction false} ComplementPattern(c: int)
    ensures Pattern(Complement(c)) == MAX - Pattern(c)
  {
  }

  /** Moving a view forward moves its offset and keeps it literal or ordinary; without the bound on
      the offset the second half fails. */
  lemma {:induction false} EncodeDecode(base: word32, delta: word32)
    ensures Decode(base) < 0x8000_0000
    ensures Decode(Encode(base, delta)) == Decode(base) + delta && Sign(Encode(base, delta)) == Sign(base)
      <==> Decode(base) + delta < 0x8000_0000
  {
  }
}
