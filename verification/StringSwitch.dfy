/** Switches on strings: the buckets come from the FNV-1a hash, which the compiler computes for the
    case strings and the runtime for the switch value. */
module StringSwitch {
  import opened SwitchTable

  type Text = seq<bv8>

  function Modulus(is32: bool): nat {
    if is32 then 0x1_0000_0000 else 0x1_0000_0000_0000_0000
  }

  function Offset(is32: bool): nat {
    if is32 then 2166136261 else 14695981039346656037
  }

  /** Exclusive or, bit by bit. */
  function Xor(x: nat, y: nat): nat {
    if x == 0 && y == 0 then 0 else 2 * Xor(x / 2, y / 2) + if x % 2 == y % 2 then 0 else 1
  }

  /** Takes a byte in: exclusive or, then a wrapping product. */
  function Mix(h: nat, b: bv8, is32: bool): (r: nat)
    ensures r < Modulus(is32)
  {
    (Xor(h, b as nat) * (if is32 then 16777619 else 1099511628211)) % Modulus(is32)
  }

  function Hash(s: Text, is32: bool): (h: nat)
    ensures h < Modulus(is32)
  {
    if s == [] then Offset(is32) else Mix(Hash(s[..|s| - 1], is32), s[|s| - 1], is32)
  }

  method StringSwitchHash(s: Text, is32: bool) returns (h: nat)
    ensures h == Hash(s, is32)
  {
    hide Mix;
    h := Offset(is32);
    for i := 0 to |s|
      invariant h == Hash(s[..i], is32)
    {
      assert s[..i + 1][..i] == s[..i];
      h := Mix(h, s[i], is32);
    }
    assert s[..|s|] == s;
  }

  // ----- what the hash is -----

  /** Bit `k` of a number. */
  function Bit(x: nat, k: nat): nat {
    if k == 0 then x % 2 else Bit(x / 2, k - 1)
  }

  /** `z` has the bits in which `x` and `y` differ. */
  ghost predicate Differ(z: nat, x: nat, y: nat) {
    forall k: nat :: Bit(z, k) == if Bit(x, k) == Bit(y, k) then 0 else 1
  }

  lemma {:induction false} XorBit(x: nat, y: nat, k: nat)
    ensures Bit(Xor(x, y), k) == if Bit(x, k) == Bit(y, k) then 0 else 1
    decreases k
  {
    XorHalf(x, y);
    if k > 0 { XorBit(x / 2, y / 2, k - 1); }
  }

  lemma {:induction false} XorHalf(x: nat, y: nat)
    ensures Xor(x, y) / 2 == Xor(x / 2, y / 2) && Xor(x, y) % 2 == if x % 2 == y % 2 then 0 else 1
  {
  }

  /** One more byte takes the hash to the product of the FNV prime and the number that differs from the
      hash in the bits of the byte, at either width; the start is the FNV offset basis. */
  lemma {:induction false} HashIsFnv1a(s: Text, b: bv8) returns (x: nat, y: nat)
    ensures Hash([], true) == 0x811C9DC5 && Hash([], false) == 0xCBF29CE484222325
    ensures Differ(x, Hash(s, true), b as nat)
    ensures Hash(s + [b], true) == (x * 0x01000193) % 0x1_0000_0000
    ensures Differ(y, Hash(s, false), b as nat)
    ensures Hash(s + [b], false) == (y * 0x100000001B3) % 0x1_0000_0000_0000_0000
  {
    x, y := Xor(Hash(s, true), b as nat), Xor(Hash(s, false), b as nat);
    assert (s + [b])[..|s|] == s;
    hide Xor, Bit;
    forall k: nat ensures Bit(x, k) == if Bit(Hash(s, true), k) == Bit(b as nat, k) then 0 else 1 {
      XorBit(Hash(s, true), b as nat, k);
    }
    forall k: nat ensures Bit(y, k) == if Bit(Hash(s, false), k) == Bit(b as nat, k) then 0 else 1 {
      XorBit(Hash(s, false), b as nat, k);
    }
  }

  /** Only one number differs from another in given bits. */
  lemma {:induction false} DifferOnce(z: nat, z': nat, x: nat, y: nat)
    requires Differ(z, x, y) && Differ(z', x, y)
    ensures z == z'
  {
    forall k: nat ensures Bit(z, k) == Bit(z', k) {
      assert Bit(z, k) == if Bit(x, k) == Bit(y, k) then 0 else 1;
      assert Bit(z', k) == if Bit(x, k) == Bit(y, k) then 0 else 1;
    }
    SameBits(z, z');
  }

  lemma {:induction false} SameBits(x: nat, y: nat)
    requires forall k: nat :: Bit(x, k) == Bit(y, k)
    ensures x == y
    decreases x + y
  {
    if x > 0 || y > 0 {
      assert Bit(x, 0) == Bit(y, 0);
      forall k: nat ensures Bit(x / 2, k) == Bit(y / 2, k) {
        assert Bit(x, k + 1) == Bit(y, k + 1);
      }
      SameBits(x / 2, y / 2);
    }
  }

  lemma {:induction false} XorStep(x: nat, y: nat)
    ensures Xor(x, y) == 2 * Xor(x / 2, y / 2) + if x % 2 == y % 2 then 0 else 1
  {
  }

  lemma {:induction false} XorNone(x: nat)
    ensures Xor(x, 0) == x
  {
    if x > 0 { XorNone(x / 2); }
  }

  /** The published value for "a". */
  lemma {:induction false} HashOfA()
    ensures Hash([0x61], true) == 0xE40C292C && Hash([0x61], false) == 0xAF63DC4C8601EC8C
  {
    hide Xor, Mix;
    var a: Text := [0x61];
    assert a[..0] == [];
    ValueOfA(a[0]);
    MixA(a[0]);
  }

  lemma {:induction false} ValueOfA(b: bv8)
    requires b == 0x61
    ensures b as nat == 0x61
  {
  }

  lemma {:induction false} MixA(b: bv8)
    requires b as nat == 0x61
    ensures Mix(2166136261, b, true) == 0xE40C292C && Mix(14695981039346656037, b, false) == 0xAF63DC4C8601EC8C
  {
    hide Xor;
    XorWithA();
  }

  lemma {:induction false} XorWithA()
    ensures Xor(0x811C9DC5, 0x61) == 0x811C9DA4 && Xor(0xCBF29CE484222325, 0x61) == 0xCBF29CE484222344
  {
    hide Xor;
    XorStep(0x811C9DC5, 0x61);
    XorStep(0x408E4EE2, 0x30);
    XorStep(0x20472771, 0x18);
    XorStep(0x102393B8, 0xC);
    XorStep(0x811C9DC, 0x6);
    XorStep(0x408E4EE, 0x3);
    XorStep(0x2047277, 0x1);
    XorNone(0x102393B);
    XorStep(0xCBF29CE484222325, 0x61);
    XorStep(0x65F94E7242111192, 0x30);
    XorStep(0x32FCA739210888C9, 0x18);
    XorStep(0x197E539C90844464, 0xC);
    XorStep(0xCBF29CE48422232, 0x6);
    XorStep(0x65F94E724211119, 0x3);
    XorStep(0x32FCA739210888C, 0x1);
    XorNone(0x197E539C9084446);
  }

  /** What the runtime gives for a hash: the same word as a signed number. */
  function Signed(h: nat, is32: bool): int {
    if h < Modulus(is32) / 2 then h else h - Modulus(is32)
  }

  /** Cast to unsigned and reduced to the table size. */
  function RunStringBucket(size: nat, v: Text, is32: bool): nat
    requires size > 0
  {
    (Signed(Hash(v, is32), is32) % Modulus(is32)) % size
  }

  /** The bit pattern is what counts: the sign does not move a string to another bucket. */
  lemma {:induction false} StringBucketsAgree(size: nat, v: Text, is32: bool)
    requires size > 0
    ensures RunStringBucket(size, v, is32) == Hash(v, is32) % size
  {
    hide Mix, Hash;
    var h: int, m: int := Hash(v, is32), Modulus(is32);
    if h >= m / 2 {
      assert (h - m) % m == h;
    }
  }

  /** A switch on strings selects the same clause through the table, whatever collides. */
  lemma {:induction false} StringSelects(clauses: seq<seq<Text>>, v: Text, is32: bool, h: Text -> nat)
    requires forall k :: h(k) == Hash(k, is32) % TableSize(|Flatten(clauses)|)
    ensures Dispatched(clauses, h, RunStringBucket(TableSize(|Flatten(clauses)|), v, is32), v) == Selected(clauses, v)
  {
    hide Mix, Hash, Dispatched, Selected, TableSize, Flatten, RunStringBucket;
    var size := TableSize(|Flatten(clauses)|);
    StringBucketsAgree(size, v, is32);
    TableSelects(clauses, h, RunStringBucket(size, v, is32), v);
  }
}
