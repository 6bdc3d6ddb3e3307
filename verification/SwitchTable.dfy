/** The bucket table of a switch: which clause a value selects, and how hashing the keys into buckets
    and testing only the keys of one bucket finds the same clause. The keys are integers or strings;
    a clause without keys is a `default`. */
module SwitchTable {

  // ----- what a switch means -----

  /** The first clause that lists `v`; the number of clauses when none does. */
  function FirstMatch<K(==, !new)>(clauses: seq<seq<K>>, v: K): (k: nat)
    ensures k <= |clauses|
    ensures forall j :: 0 <= j < k ==> v !in clauses[j]
    ensures k < |clauses| ==> v in clauses[k]
  {
    if clauses == [] || v in clauses[0] then 0 else 1 + FirstMatch(clauses[1..], v)
  }

  /** The last clause without keys: a later `default` takes over from an earlier one. */
  function DefaultClause<K>(clauses: seq<seq<K>>): (k: nat)
    ensures k <= |clauses|
    ensures k < |clauses| ==> clauses[k] == [] && forall j :: k < j < |clauses| ==> clauses[j] != []
    ensures k == |clauses| ==> forall j :: 0 <= j < |clauses| ==> clauses[j] != []
  {
    if clauses == [] then 0
    else if clauses[|clauses| - 1] == [] then |clauses| - 1
    else
      var k := DefaultClause(clauses[..|clauses| - 1]);
      if k == |clauses| - 1 then |clauses| else k
  }

  /** The clause that runs for `v`; the number of clauses when none does. */
  function Selected<K(==, !new)>(clauses: seq<seq<K>>, v: K): (k: nat)
    ensures k <= |clauses|
  {
    var k := FirstMatch(clauses, v);
    if k < |clauses| then k else DefaultClause(clauses)
  }

  /** The first clause that lists the value, else the last one that lists nothing. */
  lemma {:induction false} SelectedExact<K(!new)>(clauses: seq<seq<K>>, v: K)
    ensures var k := Selected(clauses, v);
      if exists i :: 0 <= i < |clauses| && v in clauses[i] then
        k < |clauses| && v in clauses[k] && forall j :: 0 <= j < k ==> v !in clauses[j]
      else if exists i :: 0 <= i < |clauses| && clauses[i] == [] then
        k < |clauses| && clauses[k] == [] && forall j :: k < j < |clauses| ==> clauses[j] != []
      else k == |clauses|
  {
    hide FirstMatch, DefaultClause;
  }

  // ----- integer switches that get a table -----

  function Flatten<K>(clauses: seq<seq<K>>): seq<K> {
    if clauses == [] then [] else clauses[0] + Flatten(clauses[1..])
  }

  function TableSize(entries: nat): (r: nat)
    ensures r in {17, 31, 61, 127, 251}
    ensures entries * 5 <= r * 2 || r == 251
  {
    if entries * 5 <= 17 * 2 then 17
    else if entries * 5 <= 31 * 2 then 31
    else if entries * 5 <= 61 * 2 then 61
    else if entries * 5 <= 127 * 2 then 127
    else 251
  }

  /** The smallest of the five sizes that is filled to two fifths at most, else the largest. */
  lemma {:induction false} TableSizeLeast(entries: nat)
    ensures var r := TableSize(entries);
      && (r == 17 || r == 31 || r == 61 || r == 127 || r == 251)
      && (5 * entries <= 2 * r || (r == 251 && 5 * entries > 502))
      && (r > 17 ==> 5 * entries > 34) && (r > 31 ==> 5 * entries > 62)
      && (r > 61 ==> 5 * entries > 122) && (r > 127 ==> 5 * entries > 254)
  {
  }

  const TWO64: int := 0x1_0000_0000_0000_0000

  /** The bucket the compiler files an integer key under. */
  function IntBucket(size: nat, key: int): nat
    requires size > 0
  {
    key % size
  }

  /** The bucket the emitted code computes for the switch value: cast to unsigned, then remainder. */
  function RunBucket(size: nat, v: int): nat
    requires size > 0
  {
    (v % TWO64) % size
  }

  // ----- buckets -----

  /** The keys of a clause that are filed under bucket `b`. */
  function InBucket<K(!new)>(keys: seq<K>, h: K -> nat, b: nat): (r: seq<K>)
    ensures forall k :: k in r <==> k in keys && h(k) == b
  {
    if keys == [] then [] else (if h(keys[0]) == b then [keys[0]] else []) + InBucket(keys[1..], h, b)
  }

  /** The first clause from `i` on with `v` among its keys of bucket `b`. */
  function ChainMatch<K(==, !new)>(clauses: seq<seq<K>>, h: K -> nat, b: nat, i: nat, v: K): (k: nat)
    requires i <= |clauses|
    ensures i <= k <= |clauses|
    decreases |clauses| - i
  {
    if i == |clauses| || v in InBucket(clauses[i], h, b) then i else ChainMatch(clauses, h, b, i + 1, v)
  }

  /** The buckets in the order in which their first key appears. */
  function BucketOrder<K(!new)>(keys: seq<K>, h: K -> nat): (r: seq<nat>)
    ensures forall k :: k in keys ==> h(k) in r
    ensures forall b :: b in r ==> exists k :: k in keys && h(k) == b
    ensures forall i, j :: 0 <= i < j < |r| ==> r[i] != r[j]
  {
    if keys == [] then [] else
    var r := BucketOrder(keys[..|keys| - 1], h);
    var k := keys[|keys| - 1];
    assert keys == keys[..|keys| - 1] + [k];
    if h(k) in r then r else r + [h(k)]
  }

  /** Later keys only add buckets behind the others. */
  lemma {:induction false} OrderGrows<K(!new)>(keys: seq<K>, h: K -> nat, n: nat)
    requires n <= |keys|
    ensures BucketOrder(keys[..n], h) <= BucketOrder(keys, h)
    decreases |keys|
  {
    if n < |keys| {
      var init := keys[..|keys| - 1];
      OrderGrows(init, h, n);
      assert init[..n] == keys[..n];
      assert BucketOrder(init, h) <= BucketOrder(keys, h);
    } else {
      assert keys[..n] == keys;
    }
  }

  function IndexOf(order: seq<nat>, b: nat): (k: nat)
    ensures k <= |order|
    ensures k < |order| ==> order[k] == b
    ensures k == |order| <==> b !in order
  {
    if order == [] || order[0] == b then 0 else 1 + IndexOf(order[1..], b)
  }

  /** Table slot `b`: the position of the bucket's body, or -1. */
  function Target(order: seq<nat>, b: nat): int {
    if b in order then IndexOf(order, b) else -1
  }

  lemma {:induction false} BucketOrderStep<K(!new)>(keys: seq<K>, k: K, h: K -> nat)
    ensures var r := BucketOrder(keys, h);
      BucketOrder(keys + [k], h) == if h(k) in r then r else r + [h(k)]
  {
    assert (keys + [k])[..|keys|] == keys;
  }

  lemma {:induction false} NothingFiled<K(!new)>(h: K -> nat)
    ensures Flatten<K>([]) == [] && BucketOrder([], h) == []
  {
  }

  lemma {:induction false} TargetStep(order: seq<nat>, k: nat, b: nat)
    requires k < |order| && order[k] !in order[..k]
    ensures Target(order[..k + 1], b) == if b == order[k] then k else Target(order[..k], b)
  {
    IndexOfAppend(order[..k], order[k], b);
    assert order[..k + 1] == order[..k] + [order[k]];
  }

  lemma {:induction false} IndexOfAppend(order: seq<nat>, last: nat, b: nat)
    ensures IndexOf(order + [last], b) == if b in order then IndexOf(order, b) else if b == last then |order|
      else |order| + 1
  {
    if order == [] {
      assert [last][1..] == [];
    } else {
      IndexOfAppend(order[1..], last, b);
      assert (order + [last])[1..] == order[1..] + [last];
    }
  }

  lemma {:induction false} FlattenHas<K(!new)>(clauses: seq<seq<K>>, k: nat, v: K)
    requires k < |clauses| && v in clauses[k]
    ensures v in Flatten(clauses)
  {
    if k > 0 { FlattenHas(clauses[1..], k - 1, v); }
  }

  lemma {:induction false} FlattenFrom<K(!new)>(clauses: seq<seq<K>>, v: K) returns (k: nat)
    requires v in Flatten(clauses)
    ensures k < |clauses| && v in clauses[k]
  {
    if v in clauses[0] {
      k := 0;
    } else {
      k := FlattenFrom(clauses[1..], v);
      k := k + 1;
    }
  }

  lemma {:induction false} FlattenStep<K>(clauses: seq<seq<K>>, i: nat)
    requires i < |clauses|
    ensures Flatten(clauses[..i + 1]) == Flatten(clauses[..i]) + clauses[i]
    decreases i
  {
    if i == 0 {
      assert clauses[..1] == [clauses[0]] && clauses[..1][1..] == [];
    } else {
      FlattenStep(clauses[1..], i - 1);
      assert clauses[..i + 1][1..] == clauses[1..][..i] && clauses[..i][1..] == clauses[1..][..i - 1];
    }
  }

  // ----- searching one bucket is enough -----

  /** If a listed value is looked for in its own bucket, the chain of that bucket stops at the clause
      the whole switch would have selected, whatever else was filed there. */
  lemma {:induction false} ChainIsFirstMatch<K(!new)>(clauses: seq<seq<K>>, h: K -> nat, b: nat, i: nat, v: K)
    requires i <= |clauses|
    requires forall j :: i <= j < |clauses| && v in clauses[j] ==> b == h(v)
    ensures ChainMatch(clauses, h, b, i, v) == i + FirstMatch(clauses[i..], v)
    decreases |clauses| - i
  {
    if i < |clauses| {
      assert clauses[i..][0] == clauses[i] && clauses[i..][1..] == clauses[i + 1..];
      if v !in clauses[i] {
        ChainIsFirstMatch(clauses, h, b, i + 1, v);
      }
    }
  }

  /** A value that is not filed under the bucket `b` is not found in its chain. */
  lemma {:induction false} ChainMisses<K(!new)>(clauses: seq<seq<K>>, h: K -> nat, b: nat, i: nat, v: K)
    requires i <= |clauses| && h(v) != b
    ensures ChainMatch(clauses, h, b, i, v) == |clauses|
    decreases |clauses| - i
  {
    if i < |clauses| { ChainMisses(clauses, h, b, i + 1, v); }
  }

  /** What dispatch through the table runs for `v` when it goes to bucket `b`. */
  function Dispatched<K(==, !new)>(clauses: seq<seq<K>>, h: K -> nat, b: nat, v: K): nat {
    var k := ChainMatch(clauses, h, b, 0, v);
    if b in BucketOrder(Flatten(clauses), h) && k < |clauses| then k else DefaultClause(clauses)
  }

  /** Dispatch through the table runs the selected clause, as soon as the bucket is the one under
      which the compiler has filed the value, if it has filed it at all. */
  lemma {:induction false} TableSelects<K(!new)>(clauses: seq<seq<K>>, h: K -> nat, b: nat, v: K)
    requires v in Flatten(clauses) ==> b == h(v)
    ensures Dispatched(clauses, h, b, v) == Selected(clauses, v)
  {
    forall j | 0 <= j < |clauses| && v in clauses[j] ensures v in Flatten(clauses) {
      FlattenHas(clauses, j, v);
    }
    assert clauses[0..] == clauses;
    ChainIsFirstMatch(clauses, h, b, 0, v);
  }

  /** The compiler and the emitted code file an `int` under the same bucket exactly when it is not
      negative: the table sizes are odd, so wrapping a negative number to 2^64 moves it. */
  lemma {:induction false} BucketsAgree(size: nat, v: int)
    requires size in {17, 31, 61, 127, 251}
    requires -0x8000_0000_0000_0000 <= v < 0x8000_0000_0000_0000
    ensures IntBucket(size, v) == RunBucket(size, v) <==> v >= 0
  {
    if v < 0 {
      assert v % TWO64 == v + TWO64;
      assert TWO64 % 17 != 0 && TWO64 % 31 != 0 && TWO64 % 61 != 0 && TWO64 % 127 != 0 && TWO64 % 251 != 0;
      if (v + TWO64) % size == v % size { ShiftKeeps(size, v, TWO64); }
    }
  }

  /** Moving a number by `t` keeps its remainder only if `t` is a multiple. */
  lemma {:induction false} ShiftKeeps(size: int, v: int, t: int)
    requires size > 0 && (v + t) % size == v % size
    ensures t % size == 0
  {
    var q := (v + t) / size - v / size;
    assert t == size * q;
    MultipleRemainder(size, q);
  }

  lemma {:induction false} MultipleRemainder(size: int, q: int)
    requires size > 0
    ensures (size * q) % size == 0
  {
    var k := q - (size * q) / size;
    assert (size * q) % size == size * k;
    assert k >= 1 ==> size * k >= size;
    assert k <= -1 ==> size * k <= -size;
  }
}
