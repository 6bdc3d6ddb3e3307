/** Images of a mapped variable group: header, root and heap bytes with pointer slots rewritten to
    payload-relative offsets, and the table of those slots. */
module GraphImage {
  import opened Words

  datatype Relocation = Relocation(source: word, target: word)

  datatype Graph = Graph(root: seq<byte>, heap: seq<seq<byte>>, relocations: seq<Relocation>, schemaHash: word)

  datatype Loaded = Loaded(root: seq<byte>, heap: seq<byte>, payload: seq<byte>,
                           relocations: seq<Relocation>, schemaHash: word)

  /** A crash is the run-time panic of a slice expression or allocation out of bounds. */
  datatype GraphResult<+T> = Ok(value: T) | InvalidHeader | InvalidSize | OutOfRange | Crash

  const HEADER: nat := 64
  const MAGIC: seq<byte> := [0x48, 0x4D, 0x42, 0x33]   // "HMB3"

  function Concat(objects: seq<seq<byte>>): seq<byte> {
    if objects == [] then [] else Concat(objects[..|objects| - 1]) + objects[|objects| - 1]
  }

  function Payload(g: Graph): seq<byte> {
    g.root + Concat(g.heap)
  }

  // ----- relocations -----

  /** The range check that writing, reading and restoring share, in wrapping 64-bit arithmetic. */
  predicate InRange(r: Relocation, size: nat) {
    r.source <= (size - 8) % TWO64 && r.target < size
  }

  predicate Fits(r: Relocation, size: nat) {
    r.source + 8 <= size && r.target < size
  }

  /** The check lets exactly the fitting relocations pass when the payload has room for a pointer; in
      a shorter one it still lets some pass. */
  lemma {:induction false} RangeCheckExact(r: Relocation, size: nat)
    requires size < TWO64
    ensures size >= 8 ==> (InRange(r, size) <==> Fits(r, size))
    ensures size < 8 ==> !Fits(r, size) && (InRange(r, size) <==> r.target < size && r.source <= TWO64 - 8 + size)
  {
    if size < 8 {
      assert (size - 8) % TWO64 == TWO64 + size - 8;
    } else {
      assert (size - 8) % TWO64 == size - 8;
    }
  }

  predicate AllFit(rs: seq<Relocation>, size: nat) {
    forall i :: 0 <= i < |rs| ==> Fits(rs[i], size)
  }

  /** A relocation that is carried out: it passes the check against the length, and its slot lies in
      what has been allocated. */
  predicate Passes(r: Relocation, length: nat, capacity: nat) {
    InRange(r, length) && r.source + 8 <= capacity
  }

  /** How many relocations are carried out, up to the first that is not. */
  function Passing(rs: seq<Relocation>, length: nat, capacity: nat): (n: nat)
    ensures n <= |rs|
  {
    if rs == [] || !Passes(rs[0], length, capacity) then 0 else 1 + Passing(rs[1..], length, capacity)
  }

  /** How a run over the relocations ends. */
  datatype Ending = Done | Refused | Crashed

  function EndingOf(rs: seq<Relocation>, length: nat, capacity: nat): Ending {
    var n := Passing(rs, length, capacity);
    if n == |rs| then Done else if InRange(rs[n], length) then Crashed else Refused
  }

  lemma {:induction false} PassingFirst(rs: seq<Relocation>, length: nat, capacity: nat, n: nat)
    requires n <= |rs| && (forall i :: 0 <= i < n ==> Passes(rs[i], length, capacity))
    requires n < |rs| ==> !Passes(rs[n], length, capacity)
    ensures Passing(rs, length, capacity) == n
    decreases n
  {
    if n > 0 {
      assert Passes(rs[0], length, capacity);
      forall i | 0 <= i < n - 1 ensures Passes(rs[1..][i], length, capacity) {
        assert Passes(rs[i + 1], length, capacity);
      }
      PassingFirst(rs[1..], length, capacity, n - 1);
    }
  }

  /** With room for a pointer the run never crashes and carries out exactly the fitting relocations; in
      a shorter payload no relocation fits, and one that is carried out writes behind the payload. */
  lemma {:induction false} EndingExact(rs: seq<Relocation>, length: nat, capacity: nat)
    requires length <= capacity && length < TWO64
    ensures length >= 8 ==> EndingOf(rs, length, capacity) == if AllFit(rs, length) then Done else Refused
    ensures length < 8 ==> forall r :: Passes(r, length, capacity) <==>
      r.target < length < r.source + 8 <= capacity && r.source <= TWO64 - 8 + length
    decreases |rs|
  {
    hide InRange, Fits;
    forall r: Relocation ensures length >= 8 ==> (Passes(r, length, capacity) <==> InRange(r, length))
      ensures length >= 8 ==> (InRange(r, length) <==> Fits(r, length))
      ensures length < 8 ==> (Passes(r, length, capacity) <==>
        r.target < length < r.source + 8 <= capacity && r.source <= TWO64 - 8 + length)
    {
      RangeCheckExact(r, length);
      RoomForSlot(r, length);
    }
    if rs != [] {
      EndingExact(rs[1..], length, capacity);
      assert AllFit(rs, length) <==> Fits(rs[0], length) && AllFit(rs[1..], length) by {
        AllFitFirst(rs, length);
      }
    }
  }

  lemma {:induction false} RoomForSlot(r: Relocation, size: nat)
    ensures Fits(r, size) ==> r.source + 8 <= size
  {
  }

  lemma {:induction false} AllFitFirst(rs: seq<Relocation>, size: nat)
    requires rs != []
    ensures AllFit(rs, size) <==> Fits(rs[0], size) && AllFit(rs[1..], size)
  {
    hide Fits;
    if Fits(rs[0], size) && AllFit(rs[1..], size) {
      forall i | 0 <= i < |rs| ensures Fits(rs[i], size) {
        assert i == 0 || Fits(rs[1..][i - 1], size);
      }
    }
  }

  /** All slots lie in the allocated bytes. */
  predicate AllInside(rs: seq<Relocation>, size: nat) {
    forall i :: 0 <= i < |rs| ==> rs[i].source + 8 <= size
  }

  /** The bytes with every slot set to its target, moved by `base`; a later slot wins. */
  function Patched(s: seq<byte>, rs: seq<Relocation>, base: word): (r: seq<byte>)
    requires AllInside(rs, |s|)
    ensures |r| == |s|
  {
    if rs == [] then s else
    var last := rs[|rs| - 1];
    Put(Patched(s, rs[..|rs| - 1], base), last.source, (base + last.target) % TWO64)
  }

  predicate InSlot(k: nat, r: Relocation) {
    r.source <= k < r.source + 8
  }

  predicate InSlots(k: nat, rs: seq<Relocation>) {
    exists i :: 0 <= i < |rs| && InSlot(k, rs[i])
  }

  lemma {:induction false} InSlotsSplit(k: nat, rs: seq<Relocation>)
    requires rs != []
    ensures InSlots(k, rs) <==> InSlots(k, rs[..|rs| - 1]) || InSlot(k, rs[|rs| - 1])
  {
    var init := rs[..|rs| - 1];
    if InSlots(k, init) {
      var i :| 0 <= i < |init| && InSlot(k, init[i]);
      assert InSlot(k, rs[i]);
    }
    if InSlots(k, rs) {
      var i :| 0 <= i < |rs| && InSlot(k, rs[i]);
      assert i == |rs| - 1 || InSlot(k, init[i]);
    }
  }

  /** Only slots change. */
  lemma {:induction false} OutsideSlots(s: seq<byte>, rs: seq<Relocation>, base: word, k: nat)
    requires AllInside(rs, |s|) && k < |s| && !InSlots(k, rs)
    ensures Patched(s, rs, base)[k] == s[k]
    decreases |rs|
  {
    if rs != [] {
      var init := rs[..|rs| - 1];
      InSlotsSplit(k, rs);
      OutsideSlots(s, init, base, k);
    }
  }

  predicate Apart(a: Relocation, b: Relocation) {
    a.source + 8 <= b.source || b.source + 8 <= a.source
  }

  /** A slot that no later one overlaps holds its target. */
  lemma {:induction false} SlotHolds(s: seq<byte>, rs: seq<Relocation>, base: word, i: nat)
    requires AllInside(rs, |s|) && i < |rs|
    requires forall j :: i < j < |rs| ==> Apart(rs[i], rs[j])
    ensures Word(Patched(s, rs, base), rs[i].source) == (base + rs[i].target) % TWO64
    decreases |rs|
  {
    hide Word, Put;
    var n := |rs| - 1;
    var p := Patched(s, rs[..n], base);
    var v: word := (base + rs[n].target) % TWO64;
    if i == n {
      PutWord(p, rs[n].source, v);
    } else {
      SlotHolds(s, rs[..n], base, i);
      assert Apart(rs[i], rs[n]);
      PutApart(p, rs[n].source, v, rs[i].source);
    }
  }

  /** Two payloads that differ at most in these and some other slots differ after patching these at
      most in the other ones. */
  lemma {:induction false} PatchedAgree(s: seq<byte>, s': seq<byte>, rs: seq<Relocation>, base: word,
                                        others: seq<Relocation>)
    requires |s| == |s'| && AllInside(rs, |s|)
    requires forall k :: 0 <= k < |s| && !InSlots(k, rs) && !InSlots(k, others) ==> s[k] == s'[k]
    ensures forall k :: 0 <= k < |s| && !InSlots(k, others) ==> Patched(s, rs, base)[k] == Patched(s', rs, base)[k]
    decreases |rs|
  {
    if rs == [] {
      assert forall k :: 0 <= k < |s| ==> !InSlots(k, rs);
    } else {
      var init, wider := rs[..|rs| - 1], others + [rs[|rs| - 1]];
      assert wider[..|wider| - 1] == others;
      forall k | 0 <= k < |s| && !InSlots(k, init) && !InSlots(k, wider)
        ensures s[k] == s'[k]
      {
        InSlotsSplit(k, rs);
        InSlotsSplit(k, wider);
      }
      PatchedAgree(s, s', init, base, wider);
      forall k | 0 <= k < |s| && !InSlots(k, others)
        ensures Patched(s, rs, base)[k] == Patched(s', rs, base)[k]
      {
        InSlotsSplit(k, wider);
      }
    }
  }

  /** Restoring again at another base is restoring at that base alone. */
  lemma {:induction false} RestoreAgain(s: seq<byte>, rs: seq<Relocation>, base: word, other: word)
    requires AllInside(rs, |s|)
    ensures Patched(Patched(s, rs, base), rs, other) == Patched(s, rs, other)
  {
    forall k | 0 <= k < |s| && !InSlots(k, rs) && !InSlots(k, [])
      ensures Patched(s, rs, base)[k] == s[k]
    {
      OutsideSlots(s, rs, base, k);
    }
    PatchedAgree(Patched(s, rs, base), s, rs, other, []);
    assert forall k :: 0 <= k < |s| ==> !InSlots(k, []);
  }

  /** Fixes up the slots in place, in the first `length` bytes of what has been allocated. A relocation
      that is not carried out stops it with the ones before done. */
  method RestoreGraphPointers(base: word, payload: array<byte>, length: nat, rs: seq<Relocation>)
    returns (ending: Ending)
    requires length <= payload.Length && length < TWO64
    modifies payload
    ensures ending == EndingOf(rs, length, payload.Length)
    ensures var n := Passing(rs, length, payload.Length);
      AllInside(rs[..n], payload.Length) && payload[..] == Patched(old(payload[..]), rs[..n], base)
  {
    hide Bytes, Put, Word, Table, Number, InRange;
    for i := 0 to |rs|
      invariant forall j :: 0 <= j < i ==> Passes(rs[j], length, payload.Length)
      invariant AllInside(rs[..i], payload.Length) && payload[..] == Patched(old(payload[..]), rs[..i], base)
    {
      if !InRange(rs[i], length) || rs[i].source + 8 > payload.Length {
        PassingFirst(rs, length, payload.Length, i);
        return if InRange(rs[i], length) then Crashed else Refused;
      }
      assert rs[..i + 1][..i] == rs[..i];
      PutUint64(payload, rs[i].source, (base + rs[i].target) % TWO64);
    }
    PassingFirst(rs, length, payload.Length, |rs|);
    ending := Done;
  }

  // ----- writing -----

  /** The relocation table as words: source, target, source, target, ... */
  function RelocationWords(rs: seq<Relocation>): (r: seq<word>)
    ensures |r| == 2 * |rs|
    ensures forall i :: 0 <= i < |rs| ==> r[2 * i] == rs[i].source && r[2 * i + 1] == rs[i].target
  {
    if rs == [] then [] else RelocationWords(rs[..|rs| - 1]) + [rs[|rs| - 1].source, rs[|rs| - 1].target]
  }

  /** Everything fits in the file and in the words that describe it. */
  predicate Moderate(g: Graph) {
    HEADER + |Payload(g)| + 16 * |g.relocations| < TWO64
  }

  function HeaderWords(g: Graph): seq<word>
    requires Moderate(g)
  {
    [|g.root|, |Concat(g.heap)|, |g.relocations|, |Payload(g)|, g.schemaHash, HEADER + |Payload(g)|,
     16 * |g.relocations|]
  }

  function Prefix(): (r: seq<byte>)
    ensures |r| == 8
  {
    MAGIC + Bytes(4, 3)
  }

  function Image(g: Graph): seq<byte>
    requires Moderate(g) && AllFit(g.relocations, |Payload(g)|)
  {
    Prefix() + Table(HeaderWords(g)) + Patched(Payload(g), g.relocations, 0)
    + Table(RelocationWords(g.relocations))
  }

  /** In a payload of its own a run over the relocations ends well exactly when all fit. */
  lemma {:induction false} EndingDone(rs: seq<Relocation>, size: nat)
    requires size < TWO64
    ensures EndingOf(rs, size, size).Done? <==> AllFit(rs, size)
    decreases |rs|
  {
    hide InRange, Fits;
    if rs != [] {
      RangeCheckExact(rs[0], size);
      RoomForSlot(rs[0], size);
      assert Passes(rs[0], size, size) <==> Fits(rs[0], size) by { PassesFits(rs[0], size); }
      EndingDone(rs[1..], size);
      AllFitFirst(rs, size);
    }
  }

  lemma {:induction false} PassesFits(r: Relocation, size: nat)
    requires size < TWO64
    ensures Passes(r, size, size) <==> Fits(r, size)
  {
    RangeCheckExact(r, size);
  }

  /** The bytes of the file; or the first relocation that does not fit is refused, or crashes where the
      payload is too short for the check. */
  method SerializeGraph(g: Graph) returns (r: GraphResult<seq<byte>>)
    requires Moderate(g)
    ensures AllFit(g.relocations, |Payload(g)|) ==> r == Ok(Image(g))
    ensures !AllFit(g.relocations, |Payload(g)|) ==>
      r == if EndingOf(g.relocations, |Payload(g)|, |Payload(g)|).Crashed? then Crash else OutOfRange
  {
    hide Bytes, Table, Number, Word, Put, HeaderWords, RelocationWords, Prefix, InRange, Fits, Payload;
    var bytes := Payload(g);
    var payload := new byte[|bytes|](i requires 0 <= i < |bytes| => bytes[i]);
    assert payload[..] == bytes;
    var rs := g.relocations;
    EndingDone(rs, |bytes|);
    for i := 0 to |rs|
      invariant forall j :: 0 <= j < i ==> Passes(rs[j], payload.Length, payload.Length)
      invariant AllInside(rs[..i], payload.Length) && payload[..] == Patched(bytes, rs[..i], 0)
    {
      if !InRange(rs[i], payload.Length) {
        PassingFirst(rs, payload.Length, payload.Length, i);
        return OutOfRange;
      }
      if rs[i].source + 8 > payload.Length {
        PassingFirst(rs, payload.Length, payload.Length, i);
        return Crash;
      }
      assert rs[..i + 1][..i] == rs[..i];
      PutUint64(payload, rs[i].source, rs[i].target);
    }
    assert rs[..|rs|] == rs;
    PassingFirst(rs, payload.Length, payload.Length, |rs|);
    r := Ok(Prefix() + Table(HeaderWords(g)) + payload[..] + Table(RelocationWords(rs)));
  }

  // ----- reading -----

  /** The sizes an image declares describe exactly its own length. */
  predicate SizesRight(image: seq<byte>)
    requires |image| >= HEADER
  {
    var payload, count := Word(image, 32), Word(image, 24);
    && payload == (Word(image, 8) + Word(image, 16)) % TWO64
    && Word(image, 56) == (count * 16) % TWO64
    && Word(image, 48) == (HEADER + payload) % TWO64
    && Word(image, 48) <= |image|
    && Word(image, 56) <= |image| - Word(image, 48)
    && Word(image, 48) + Word(image, 56) == |image|
  }

  /** The declared payload ends before it begins, or the declared count asks for more relocations than
      there is memory: the sum or product that was checked has wrapped around. */
  predicate Overflows(image: seq<byte>)
    requires |image| >= HEADER
  {
    HEADER + Word(image, 32) >= TWO64 || Word(image, 24) * 16 >= TWO64
  }

  /** The declared root is longer than the payload. */
  predicate RootOverflows(image: seq<byte>)
    requires |image| >= HEADER
  {
    Word(image, 8) + Word(image, 16) >= TWO64
  }

  function RelocationAt(image: seq<byte>, at: nat, i: nat): Relocation
    requires at + 16 * i + 16 <= |image|
  {
    Relocation(Word(image, at + 16 * i), Word(image, at + 16 * i + 8))
  }

  /** Without wrap-around the sizes that were checked are the real ones. */
  lemma {:induction false} SizesExact(image: seq<byte>)
    requires |image| >= HEADER && SizesRight(image) && !Overflows(image)
    ensures HEADER + Word(image, 32) + 16 * Word(image, 24) == |image|
  {
    hide Word;
  }

  predicate PassesAt(image: seq<byte>, n: nat, i: nat) {
    HEADER + n + 16 * i + 16 <= |image| && InRange(RelocationAt(image, HEADER + n, i), n)
  }

  /** All relocations of an image pass the check. */
  predicate AllInRange(image: seq<byte>)
    requires |image| >= HEADER
  {
    forall i :: 0 <= i < Word(image, 24) ==> PassesAt(image, Word(image, 32), i)
  }

  predicate Parts(image: seq<byte>, v: Loaded)
    requires |image| >= HEADER && HEADER + Word(image, 32) + 16 * Word(image, 24) == |image|
  {
    var n, count := Word(image, 32), Word(image, 24);
    && v.payload == image[HEADER..HEADER + n]
    && v.root + v.heap == v.payload && |v.root| == Word(image, 8)
    && v.schemaHash == Word(image, 40)
    && |v.relocations| == count
    && forall i :: 0 <= i < count ==> v.relocations[i] == RelocationAt(image, HEADER + n, i)
  }

  /** A header that passes for one. */
  predicate HeaderRight(image: seq<byte>) {
    |image| >= HEADER && image[..8] == Prefix()
  }

  lemma {:induction false} PrefixSplit(image: seq<byte>)
    requires |image| >= HEADER
    ensures image[..8] == Prefix() <==> image[..4] == MAGIC && image[4..8] == Bytes(4, 3)
  {
    assert image[..8] == image[..4] + image[4..8];
    assert Prefix()[..4] == MAGIC && Prefix()[4..] == Bytes(4, 3);
    assert image[..8][..4] == image[..4] && image[..8][4..] == image[4..8];
  }

  /** Reads an image back. What is not exactly one is refused, except that sizes chosen to wrap around
      get past the checks and crash. */
  method ReadGraph(image: seq<byte>) returns (r: GraphResult<Loaded>)
    ensures r.InvalidHeader? <==> !HeaderRight(image)
    ensures r.InvalidSize? <==> HeaderRight(image) && !SizesRight(image)
    ensures HeaderRight(image) && SizesRight(image) ==>
      if Overflows(image) then r.Crash? else
      && HEADER + Word(image, 32) + 16 * Word(image, 24) == |image|
      && (r.OutOfRange? <==> !AllInRange(image))
      && (r.Crash? <==> AllInRange(image) && RootOverflows(image))
      && (r.Ok? <==> AllInRange(image) && !RootOverflows(image))
      && (r.Ok? ==> Parts(image, r.value))
  {
    hide Bytes, Table, Number, Word, InRange, RelocationAt;
    if |image| < HEADER {
      return InvalidHeader;
    }
    PrefixSplit(image);
    if image[..4] != MAGIC || image[4..8] != Bytes(4, 3) {
      return InvalidHeader;
    }
    var rootBytes, count, n := Word(image, 8), Word(image, 24), Word(image, 32);
    if !SizesRight(image) {
      return InvalidSize;
    }
    if HEADER > Word(image, 48) || count * 16 >= TWO64 {
      return Crash;
    }
    SizesExact(image);
    var payload := image[HEADER..HEADER + n];
    var relocations: seq<Relocation> := [];
    for i := 0 to count
      invariant |relocations| == i
      invariant forall j :: 0 <= j < i ==> PassesAt(image, n, j)
      invariant forall j :: 0 <= j < i ==> relocations[j] == RelocationAt(image, HEADER + n, j)
    {
      var at := RelocationAt(image, HEADER + n, i);
      if !InRange(at, n) {
        assert !PassesAt(image, n, i);
        return OutOfRange;
      }
      relocations := relocations + [at];
    }
    if rootBytes > n {
      return Crash;
    }
    r := Ok(Loaded(payload[..rootBytes], payload[rootBytes..], payload, relocations, Word(image, 40)));
  }

  // ----- reading what was written -----

  lemma {:induction false} HeaderAt(g: Graph, k: nat)
    requires Moderate(g) && AllFit(g.relocations, |Payload(g)|) && k < 7
    ensures Word(Image(g), 8 + 8 * k) == HeaderWords(g)[k]
  {
    var rest := Patched(Payload(g), g.relocations, 0) + Table(RelocationWords(g.relocations));
    assert Image(g) == Prefix() + Table(HeaderWords(g)) + rest;
    TableWord(Prefix(), HeaderWords(g), rest, k);
  }

  lemma {:induction false} RelocationsAt(g: Graph, i: nat)
    requires Moderate(g) && AllFit(g.relocations, |Payload(g)|) && i < |g.relocations|
    ensures RelocationAt(Image(g), HEADER + |Payload(g)|, i) == g.relocations[i]
  {
    hide Word, Bytes, Table, Patched, Prefix, Concat, RelocationWords, Payload;
    var pre := Prefix() + Table(HeaderWords(g)) + Patched(Payload(g), g.relocations, 0);
    var ws := RelocationWords(g.relocations);
    assert Image(g) == pre + Table(ws) + [];
    TableWord(pre, ws, [], 2 * i);
    TableWord(pre, ws, [], 2 * i + 1);
  }

  /** What writing produces, reading accepts and gives back: the payload with its slots set, cut where
      the root ends, the relocations and the schema hash. */
  method RoundTrip(g: Graph) returns (r: GraphResult<Loaded>)
    requires Moderate(g) && AllFit(g.relocations, |Payload(g)|)
    ensures var payload := Patched(Payload(g), g.relocations, 0);
      r == Ok(Loaded(payload[..|g.root|], payload[|g.root|..], payload, g.relocations, g.schemaHash))
  {
    hide Bytes, Table, Number, Word, Put, Patched, Image, SizesRight, Overflows, InRange, Prefix;
    var image := SerializeGraph(g);
    ImageReadable(g);
    r := ReadGraph(image.value);
    assert r.value.relocations == g.relocations;
    assert r.value.root == r.value.payload[..|g.root|] && r.value.heap == r.value.payload[|g.root|..];
  }

  lemma {:induction false} ImageReadable(g: Graph)
    requires Moderate(g) && AllFit(g.relocations, |Payload(g)|)
    ensures var image := Image(g);
      && |image| == HEADER + |Payload(g)| + 16 * |g.relocations|
      && HeaderRight(image) && SizesRight(image) && !Overflows(image) && !RootOverflows(image)
      && Word(image, 8) == |g.root| && Word(image, 24) == |g.relocations| && Word(image, 32) == |Payload(g)|
      && Word(image, 40) == g.schemaHash
      && image[HEADER..HEADER + |Payload(g)|] == Patched(Payload(g), g.relocations, 0)
      && (forall i :: 0 <= i < |g.relocations| ==>
            RelocationAt(image, HEADER + |Payload(g)|, i) == g.relocations[i])
      && AllInRange(image)
  {
    hide Bytes, Table, Number, Word, Put, Patched, RelocationWords, Prefix, InRange;
    HeaderAt(g, 0);
    HeaderAt(g, 1);
    HeaderAt(g, 2);
    HeaderAt(g, 3);
    HeaderAt(g, 4);
    HeaderAt(g, 5);
    HeaderAt(g, 6);
    forall i | 0 <= i < |g.relocations|
      ensures RelocationAt(Image(g), HEADER + |Payload(g)|, i) == g.relocations[i]
      ensures PassesAt(Image(g), |Payload(g)|, i)
    {
      RelocationsAt(g, i);
      PassesFits(g.relocations[i], |Payload(g)|);
    }
  }

  /** The file byte by byte: "HMB3", version 3, seven words, the patched payload at 64, and behind it the
      relocations with source before target. */
  lemma {:induction false} FileLayout(g: Graph)
    requires Moderate(g) && AllFit(g.relocations, |Payload(g)|)
    ensures var image, n := Image(g), |g.root| + |Concat(g.heap)|;
      && |image| == 64 + n + 16 * |g.relocations|
      && image[..8] == [0x48, 0x4D, 0x42, 0x33, 3, 0, 0, 0]
      && Word(image, 8) == |g.root| && Word(image, 16) == |Concat(g.heap)| && Word(image, 24) == |g.relocations|
      && Word(image, 32) == n && Word(image, 40) == g.schemaHash && Word(image, 48) == 64 + n
      && Word(image, 56) == 16 * |g.relocations|
      && image[64..64 + n] == Patched(g.root + Concat(g.heap), g.relocations, 0)
      && forall i :: 0 <= i < |g.relocations| ==>
           && Word(image, 64 + n + 16 * i) == g.relocations[i].source
           && Word(image, 64 + n + 16 * i + 8) == g.relocations[i].target
  {
    hide Bytes, Table, Number, Word, Put, Patched, RelocationWords, Prefix;
    ImageReadable(g);
    PrefixBytes();
    HeaderAt(g, 1);
    HeaderAt(g, 4);
    HeaderAt(g, 5);
    HeaderAt(g, 6);
    var image, n := Image(g), |Payload(g)|;
    forall i | 0 <= i < |g.relocations|
      ensures Word(image, 64 + n + 16 * i) == g.relocations[i].source
      ensures Word(image, 64 + n + 16 * i + 8) == g.relocations[i].target
    {
      assert RelocationAt(image, HEADER + n, i) == g.relocations[i];
    }
  }

  lemma {:induction false} PrefixBytes()
    ensures Prefix() == [0x48, 0x4D, 0x42, 0x33, 3, 0, 0, 0]
  {
    hide Bytes;
    FirstBytes(4, 3);
  }
}
