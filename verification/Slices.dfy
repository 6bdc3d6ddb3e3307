/** Slice and string views over shared storage: slicing a view again and again, and append. */
module Slices {
  import opened Offsets

  datatype View = View(owner: nat, offset: word32, len: nat)

  type Storage = seq<seq<int>>

  function Start(v: View): nat {
    Decode(v.offset)
  }

  predicate Inside(blocks: Storage, v: View) {
    v.owner < |blocks| && Start(v) + v.len <= |blocks[v.owner]| < 0x8000_0000
  }

  function Contents(blocks: Storage, v: View): (r: seq<int>)
    requires Inside(blocks, v)
    ensures |r| == v.len
  {
    blocks[v.owner][Start(v)..Start(v) + v.len]
  }

  // ----- slicing -----

  datatype Bounds = Bounds(low: nat, high: nat)

  predicate InBounds(b: Bounds, len: nat) {
    b.low <= b.high <= len < 0x8000_0000
  }

  function Slice(v: View, b: Bounds): View
    requires InBounds(b, v.len)
  {
    View(v.owner, Encode(v.offset, b.low), b.high - b.low)
  }

  /** A chain of slice expressions, each within the view before it. */
  predicate Chain(bs: seq<Bounds>, len: nat) {
    bs == [] || (InBounds(bs[0], len) && Chain(bs[1..], bs[0].high - bs[0].low))
  }

  function SliceAll(v: View, bs: seq<Bounds>): View
    requires Chain(bs, v.len)
    decreases |bs|
  {
    if bs == [] then v else SliceAll(Slice(v, bs[0]), bs[1..])
  }

  /** The same on the sequence that the view shows. */
  function Sliced(s: seq<int>, bs: seq<Bounds>): seq<int>
    requires Chain(bs, |s|)
    decreases |bs|
  {
    if bs == [] then s else Sliced(s[bs[0].low..bs[0].high], bs[1..])
  }

  function Lows(bs: seq<Bounds>): nat {
    if bs == [] then 0 else bs[0].low + Lows(bs[1..])
  }

  lemma {:induction false} SliceShows(blocks: Storage, v: View, b: Bounds)
    requires Inside(blocks, v) && InBounds(b, v.len)
    ensures var u := Slice(v, b);
      Inside(blocks, u) && Start(u) == Start(v) + b.low && Sign(u.offset) == Sign(v.offset) &&
      Contents(blocks, u) == Contents(blocks, v)[b.low..b.high]
  {
    hide Decode, Encode;
    EncodeDecode(v.offset, b.low);
    var u := Slice(v, b);
    var i, n := Start(v) + b.low, b.high - b.low;
    assert Start(u) == i && u.len == n && u.owner == v.owner;
    SubSlice(blocks[v.owner], Start(v), v.len, b);
    assert Contents(blocks, u) == blocks[v.owner][i..i + n];
  }

  lemma {:induction false} SubSlice(s: seq<int>, i: nat, n: nat, b: Bounds)
    requires i + n <= |s| && InBounds(b, n)
    ensures s[i..i + n][b.low..b.high] == s[i + b.low..i + b.low + (b.high - b.low)]
  {
    var part := s[i..i + n];
    forall k | 0 <= k < b.high - b.low ensures part[b.low..b.high][k] == s[i + b.low + k] {
      assert part[b.low..b.high][k] == part[b.low + k];
    }
  }

  /** The last view of a chain starts where the low bounds add up to, shows what slicing the sequence
      shows, and is literal just when the first one is. */
  lemma {:induction false} ChainShows(blocks: Storage, v: View, bs: seq<Bounds>)
    requires Inside(blocks, v) && Chain(bs, v.len)
    ensures var u := SliceAll(v, bs);
      Inside(blocks, u) && Start(u) == Start(v) + Lows(bs) && Sign(u.offset) == Sign(v.offset) &&
      Contents(blocks, u) == Sliced(Contents(blocks, v), bs)
    decreases |bs|
  {
    hide Contents, Slice, Inside;
    if bs != [] {
      var b := bs[0];
      var u := Slice(v, b);
      SliceShows(blocks, v, b);
      ChainShows(blocks, u, bs[1..]);
    }
  }

  // ----- append -----

  /** The capacity after an append that does not find room. */
  function GrownCapacity(capacity: nat, required: nat): nat {
    capacity * 2 + required
  }

  predicate Grows(capacity: nat, required: nat) {
    required > capacity
  }

  /** How many values fit behind a view in its owner. */
  function Room(blocks: Storage, v: View): nat
    requires Inside(blocks, v)
  {
    |blocks[v.owner]| - Start(v) - v.len
  }

  /** The test for room looks at the capacity from the owner's start on, so that a view which starts
      later can pass it without having the room. */
  predicate Overruns(blocks: Storage, v: View, more: nat)
    requires Inside(blocks, v)
  {
    !Grows(|blocks[v.owner]|, v.len + more) && more > Room(blocks, v)
  }

  class Memory {
    var blocks: Storage
    /** The elements that growing has copied. */
    var copied: nat
    /** What has been stored behind the end of a block. */
    var stray: seq<int>

    constructor ()
      ensures blocks == [[]] && copied == 0 && stray == []
    {
      blocks := [[]];
      copied := 0;
      stray := [];
    }

    /** Appends in a new block when the capacity is too small, else in place. The result shows the old
        and the new elements unless storing runs over the end of the owner. */
    method Append(v: View, values: seq<int>) returns (r: View)
      requires Inside(blocks, v)
      requires var capacity, required := |blocks[v.owner]|, v.len + |values|;
        Grows(capacity, required) ==> GrownCapacity(capacity, required) < 0x8000_0000
      modifies this
      ensures Inside(blocks, r) <==> !Overruns(old(blocks), v, |values|)
      ensures !Overruns(old(blocks), v, |values|) ==>
        Contents(blocks, r) == Contents(old(blocks), v) + values && stray == old(stray)
      ensures Overruns(old(blocks), v, |values|) ==>
        var room := Room(old(blocks), v);
        && blocks == old(blocks)[v.owner := Stored(old(blocks)[v.owner], Start(v) + v.len, values[..room])]
        && stray == old(stray) + values[room..]
      ensures var capacity, required := |old(blocks)[v.owner]|, v.len + |values|;
        if required > capacity then
          && r == View(|old(blocks)|, 0, required) && |blocks[r.owner]| == 2 * capacity + required
          && copied == old(copied) + v.len
        else
          r == v.(len := required) && |blocks[r.owner]| == capacity && copied == old(copied)
      ensures forall u ::
        Inside(old(blocks), u) && (u.owner != v.owner || Start(u) + u.len <= Start(v) + v.len) ==>
        Inside(blocks, u) && Contents(blocks, u) == Contents(old(blocks), u)
    {
      hide Contents, Stored, Copied;
      var required := v.len + |values|;
      var owner, offset := v.owner, v.offset;
      if Grows(|blocks[v.owner]|, required) {
        var block := Copied(blocks[v.owner], Start(v), v.len, GrownCapacity(|blocks[v.owner]|, required));
        CopiedShows(blocks, v, block);
        copied := copied + v.len;
        owner, offset := |blocks|, 0;
        blocks := blocks + [block];
      }
      ghost var before := blocks;
      ghost var w := View(owner, offset, v.len);
      ghost var stored := if |values| <= Room(before, w) then values else values[..Room(before, w)];
      assert values[..|values|] == values && values[|values|..] == [];
      StoreAll(owner, Decode(offset) + v.len, values);
      assert stray == old(stray) + values[|stored|..];
      r := View(owner, offset, required);
      AppendShows(old(blocks), before, v, w, stored);
    }

    /** Stores values one after the other, whether there is room or not. */
    method StoreAll(owner: nat, at: nat, values: seq<int>)
      requires owner < |blocks| && at <= |blocks[owner]|
      modifies `blocks, `stray
      ensures var room := |old(blocks)[owner]| - at;
        var n := if |values| <= room then |values| else room;
        && blocks == old(blocks)[owner := Stored(old(blocks)[owner], at, values[..n])]
        && stray == old(stray) + values[n..]
    {
      ghost var before, outside := blocks, stray;
      var room := |blocks[owner]| - at;
      assert Stored(before[owner], at, values[..0]) == before[owner];
      for i := 0 to |values|
        invariant var n := if i <= room then i else room;
          blocks == before[owner := Stored(before[owner], at, values[..n])] && stray == outside + values[n..i]
      {
        if i < room {
          StoredStep(before[owner], at, values, i);
          blocks := blocks[owner := blocks[owner][at + i := values[i]]];
        } else {
          assert values[room..i + 1] == values[room..i] + [values[i]];
          stray := stray + [values[i]];
        }
      }
      assert values[..|values|] == values && (room <= |values| ==> values[room..|values|] == values[room..]);
      assert values[|values|..] == [] && outside + [] == outside;
    }
  }

  /** After the first `k` elements of a full block have been sliced off, appending up to `k` values runs
      over its end; appending more grows. */
  lemma {:induction false} SlicedOverruns(blocks: Storage, v: View, k: nat, more: nat)
    requires Inside(blocks, v) && Start(v) == 0 && v.len == |blocks[v.owner]| && k <= v.len
    ensures var u := Slice(v, Bounds(k, v.len));
      Inside(blocks, u) && (Overruns(blocks, u, more) <==> 1 <= more <= k)
  {
    hide Contents, Slice;
    SliceShows(blocks, v, Bounds(k, v.len));
    SliceLength(v, k);
  }

  lemma {:induction false} SliceLength(v: View, k: nat)
    requires k <= v.len < 0x8000_0000
    ensures var u := Slice(v, Bounds(k, v.len)); u.len == v.len - k && u.owner == v.owner
  {
  }

  /** A new block that starts with a piece of another one. */
  function Copied(block: seq<int>, start: nat, len: nat, capacity: nat): (r: seq<int>)
    requires start + len <= |block| && len <= capacity
    ensures |r| == capacity && r[..len] == block[start..start + len]
  {
    block[start..start + len] + seq(capacity - len, _ => 0)
  }

  lemma {:induction false} CopiedShows(blocks: Storage, v: View, block: seq<int>)
    requires Inside(blocks, v) && v.len <= |block| < 0x8000_0000
    requires block[..v.len] == blocks[v.owner][Start(v)..Start(v) + v.len]
    ensures var w := View(|blocks|, 0, v.len);
      Inside(blocks + [block], w) && Contents(blocks + [block], w) == Contents(blocks, v)
  {
  }

  /** A block with values stored from a position on. */
  function Stored(block: seq<int>, at: nat, values: seq<int>): (r: seq<int>)
    requires at + |values| <= |block|
    ensures |r| == |block|
  {
    block[..at] + values + block[at + |values|..]
  }

  lemma {:induction false} StoredStep(block: seq<int>, at: nat, values: seq<int>, i: nat)
    requires at + i < |block| && i < |values|
    ensures Stored(block, at, values[..i + 1]) == Stored(block, at, values[..i])[at + i := values[i]]
  {
  }

  /** `w` shows in `before` what `v` shows in `blocks`, the other blocks being the same: values stored
      behind `w` are appended to it and change no view that ends before them. */
  lemma {:induction false} AppendShows(blocks: Storage, before: Storage, v: View, w: View, values: seq<int>)
    requires Inside(blocks, v) && Inside(before, w) && w.len == v.len && blocks <= before
    requires w == v || (w.owner == |blocks| && Contents(before, w) == Contents(blocks, v))
    requires Start(w) + w.len + |values| <= |before[w.owner]|
    ensures var after := before[w.owner := Stored(before[w.owner], Start(w) + w.len, values)];
      var r := w.(len := w.len + |values|);
      && Inside(after, r) && Contents(after, r) == Contents(blocks, v) + values
      && forall u :: Inside(blocks, u) && (u.owner != v.owner || Start(u) + u.len <= Start(v) + v.len) ==>
           Inside(after, u) && Contents(after, u) == Contents(blocks, u)
  {
  }

  // ----- the cost of a run of appends -----

  function Total(batches: seq<seq<int>>): seq<int> {
    if batches == [] then [] else Total(batches[..|batches| - 1]) + batches[|batches| - 1]
  }

  /** What is copied is little against the length and against the capacity. */
  predicate Cheap(copied: nat, len: nat, capacity: nat) {
    2 * copied <= 3 * len && 2 * copied <= capacity
  }

  lemma {:induction false} GrowingStaysCheap(copied: nat, len: nat, capacity: nat, more: nat)
    requires Cheap(copied, len, capacity) && len <= capacity
    ensures if Grows(capacity, len + more) then Cheap(copied + len, len + more, GrownCapacity(capacity, len + more))
            else Cheap(copied, len + more, capacity)
  {
  }

  lemma {:induction false} TotalGrows(batches: seq<seq<int>>, i: nat)
    requires i <= |batches|
    ensures |Total(batches[..i])| <= |Total(batches)|
    decreases |batches|
  {
    if i < |batches| {
      var init := batches[..|batches| - 1];
      TotalGrows(init, i);
      assert init[..i] == batches[..i];
    } else {
      assert batches[..i] == batches;
    }
  }

  /** Appending batch after batch to an empty slice collects them all, and over all appends together
      growing copies at most one and a half times the final length. */
  method AppendAll(batches: seq<seq<int>>) returns (memory: Memory, v: View)
    requires 3 * |Total(batches)| < 0x8000_0000
    ensures Inside(memory.blocks, v) && Contents(memory.blocks, v) == Total(batches)
    ensures 2 * memory.copied <= 3 * |Total(batches)|
  {
    hide Contents, Decode;
    memory := new Memory();
    v := View(0, 0, 0);
    EmptyView(memory.blocks);
    for i := 0 to |batches|
      invariant Inside(memory.blocks, v) && Start(v) == 0 && Contents(memory.blocks, v) == Total(batches[..i])
      invariant Cheap(memory.copied, v.len, |memory.blocks[v.owner]|)
    {
      GrowingStaysCheap(memory.copied, v.len, |memory.blocks[v.owner]|, |batches[i]|);
      assert batches[..i + 1][..i] == batches[..i];
      TotalGrows(batches, i + 1);
      v := memory.Append(v, batches[i]);
    }
    assert batches[..|batches|] == batches;
  }

  lemma {:induction false} EmptyView(blocks: Storage)
    requires blocks == [[]]
    ensures Inside(blocks, View(0, 0, 0)) && Start(View(0, 0, 0)) == 0 && Contents(blocks, View(0, 0, 0)) == []
  {
  }
}
