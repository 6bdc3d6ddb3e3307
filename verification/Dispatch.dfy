/** Which clause the emitted code of a switch runs: the bucket that the dispatch index leads to, and the
    clauses that are filed there. */
module Dispatch {
  import opened Source
  import opened Lowering
  import SwitchTable
  import StringSwitch

  /** A switch that gets a bucket table. */
  predicate Switchable(c: Stmt) {
    c.Switch? && GetsTable(c.text, c.clauses)
  }

  /** The bucket the emitted code computes for the switch value. */
  function RunBucketOf(w: World, text: bool, size: nat, v: int): (b: nat)
    requires size > 0
    ensures b < size
  {
    if text then StringSwitch.RunStringBucket(size, w.text(v), false) else SwitchTable.RunBucket(size, v)
  }

  /** The clause the chain of bucket `b` runs, from clause `i` on. */
  function ChainClause(c: Stmt, b: nat, i: nat, key: Key): nat
    requires c.Switch? && i <= |c.clauses|
  {
    var k := SwitchTable.ChainMatch(Keys(c.clauses), BucketOf(c), b, i, key);
    if k < |c.clauses| then k else SwitchTable.DefaultClause(Keys(c.clauses))
  }

  /** The clause that the code runs for the value `v`. */
  function DispatchedClause(w: World, c: Stmt, v: int): nat
    requires c.Switch?
  {
    SwitchTable.Dispatched(Keys(c.clauses), BucketOf(c), RunBucketOf(w, c.text, Size(c), v), KeyOf(w, c.text, v))
  }

  /** The clause that the source selects. */
  function SelectedClause(w: World, c: Stmt, v: int): nat
    requires c.Switch?
  {
    SwitchTable.Selected(Keys(c.clauses), KeyOf(w, c.text, v))
  }

  lemma {:induction false} DispatchedBucket(w: World, c: Stmt, v: int)
    requires c.Switch?
    ensures var b := RunBucketOf(w, c.text, Size(c), v);
      DispatchedClause(w, c, v) ==
        if b in Buckets(c).0 then ChainClause(c, b, 0, KeyOf(w, c.text, v))
          else SwitchTable.DefaultClause(Keys(c.clauses))
  {
    hide SwitchTable.ChainMatch, SwitchTable.BucketOrder, SwitchTable.DefaultClause, SwitchTable.Flatten;
  }

  /** Whether `v` is one of the keys. */
  predicate Listed(w: World, c: Stmt, v: int)
    requires c.Switch?
  {
    KeyOf(w, c.text, v) in SwitchTable.Flatten(Keys(c.clauses))
  }

  /** Dispatch through the table selects the clause of the source, unless the value is a negative
      integer that is among the keys. */
  lemma {:induction false} DispatchSelects(w: World, c: Stmt, v: int)
    requires Switchable(c) && (c.text || !Listed(w, c, v) || v >= 0)
    ensures DispatchedClause(w, c, v) == SelectedClause(w, c, v)
  {
    hide SwitchTable.Selected, SwitchTable.Dispatched, SwitchTable.Flatten, SwitchTable.TableSize, StringSwitch.Hash;
    var cs, key := Keys(c.clauses), KeyOf(w, c.text, v);
    if c.text {
      StringSwitch.StringBucketsAgree(Size(c), w.text(v), false);
    } else if Listed(w, c, v) {
      ListedRange(w, c, v);
      SizeInTable(c);
      SwitchTable.BucketsAgree(Size(c), v);
    }
    SwitchTable.TableSelects(cs, BucketOf(c), RunBucketOf(w, c.text, Size(c), v), key);
  }

  lemma {:induction false} SizeInTable(c: Stmt)
    requires c.Switch?
    ensures Size(c) in {17, 31, 61, 127, 251}
  {
  }

  lemma {:induction false} ListedRange(w: World, c: Stmt, v: int)
    requires Switchable(c) && !c.text && Listed(w, c, v)
    ensures -TWO63 <= v < TWO63
  {
    var ks := SwitchTable.Flatten(Keys(c.clauses));
    var i :| 0 <= i < |ks| && ks[i] == IntKey(v);
  }

  /** A negative value that is listed goes to the default all the same: the code files it under another
      bucket than the one it computes for it. */
  lemma {:induction false} DispatchFailsAtNegative(w: World, c: Stmt, v: int)
    requires Switchable(c) && !c.text && Listed(w, c, v) && v < 0
    ensures DispatchedClause(w, c, v) == SwitchTable.DefaultClause(Keys(c.clauses)) != SelectedClause(w, c, v)
  {
    hide SwitchTable.Flatten, SwitchTable.TableSize;
    var cs, b, key := Keys(c.clauses), RunBucketOf(w, c.text, Size(c), v), IntKey(v);
    ListedRange(w, c, v);
    SizeInTable(c);
    SwitchTable.BucketsAgree(Size(c), v);
    SwitchTable.ChainMisses(cs, BucketOf(c), b, 0, key);
    var k := SwitchTable.FlattenFrom(cs, key);
  }

  /** Dispatch is right for every value that an `int` can have exactly when no key is negative. */
  lemma {:induction false} DispatchExact(w: World, c: Stmt)
    requires Switchable(c) && !c.text
    ensures (forall v :: -TWO63 <= v < TWO63 ==> DispatchedClause(w, c, v) == SelectedClause(w, c, v)) <==>
      NoNegativeKey(c.clauses)
  {
    hide DispatchedClause, SelectedClause, SwitchTable.Flatten;
    var cs := Keys(c.clauses);
    if NoNegativeKey(c.clauses) {
      forall v | -TWO63 <= v < TWO63 ensures DispatchedClause(w, c, v) == SelectedClause(w, c, v) {
        ListedNonNegative(w, c, v);
        DispatchSelects(w, c, v);
      }
    } else {
      var i, j :| 0 <= i < |c.clauses| && 0 <= j < |c.clauses[i].keys| && c.clauses[i].keys[j].IntKey? &&
        c.clauses[i].keys[j].n < 0;
      var v := c.clauses[i].keys[j].n;
      SwitchTable.FlattenHas(cs, i, IntKey(v));
      ListedRange(w, c, v);
      DispatchFailsAtNegative(w, c, v);
      assert DispatchedClause(w, c, v) != SelectedClause(w, c, v);
    }
  }

  lemma {:induction false} ListedNonNegative(w: World, c: Stmt, v: int)
    requires Switchable(c) && !c.text && NoNegativeKey(c.clauses)
    ensures Listed(w, c, v) ==> v >= 0
  {
    hide SwitchTable.Flatten;
    if Listed(w, c, v) {
      var k := SwitchTable.FlattenFrom(Keys(c.clauses), IntKey(v));
      var j :| 0 <= j < |c.clauses[k].keys| && c.clauses[k].keys[j] == IntKey(v);
    }
  }

  /** A switch on strings gets a table when its keys are strings and at least four clauses have any; `at`
      lists those that have. */
  lemma {:induction false} TextTableExact(clauses: seq<Clause>) returns (at: seq<nat>)
    ensures (forall i, j :: 0 <= i < j < |at| ==> at[i] < at[j])
    ensures forall i: nat :: i in at <==> i < |clauses| && clauses[i].keys != []
    ensures GetsTable(true, clauses) <==>
      4 <= |at| && forall i, k :: 0 <= i < |clauses| && k in clauses[i].keys ==> k.TextKey?
  {
    hide SwitchTable.Flatten, WithKeys;
    at := ClausesWithKeys(clauses);
    var ks := SwitchTable.Flatten(Keys(clauses));
    forall i, k | 0 <= i < |clauses| && k in clauses[i].keys ensures k in ks {
      SwitchTable.FlattenHas(Keys(clauses), i, k);
    }
    if forall i, k :: 0 <= i < |clauses| && k in clauses[i].keys ==> k.TextKey? {
      forall n | 0 <= n < |ks| ensures ks[n].TextKey? {
        var i := SwitchTable.FlattenFrom(Keys(clauses), ks[n]);
        assert ks[n] in clauses[i].keys;
      }
    } else {
      var i, k :| 0 <= i < |clauses| && k in clauses[i].keys && !k.TextKey?;
      assert k in ks;
      var n :| 0 <= n < |ks| && ks[n] == k;
      assert !ks[n].TextKey?;
    }
  }

  lemma {:induction false} ClausesWithKeys(clauses: seq<Clause>) returns (at: seq<nat>)
    ensures |at| == WithKeys(clauses)
    ensures (forall i, j :: 0 <= i < j < |at| ==> at[i] < at[j])
    ensures forall i: nat :: i in at <==> i < |clauses| && clauses[i].keys != []
    decreases |clauses|
  {
    if clauses == [] {
      at := [];
    } else {
      var rest := ClausesWithKeys(clauses[1..]);
      var later := seq(|rest|, k requires 0 <= k < |rest| => rest[k] + 1);
      assert forall i: nat :: i in later <==> i > 0 && i - 1 in rest by {
        forall i: nat | i > 0 && i - 1 in rest ensures i in later {
          var k :| 0 <= k < |rest| && rest[k] == i - 1;
          assert later[k] == i;
        }
      }
      at := if clauses[0].keys != [] then [0] + later else later;
    }
  }

  /** The span that is compared with 4096 wraps around: a table is given for keys that lie close together
      and also for keys that lie at least 2^63 apart, one of which is then negative. */
  lemma {:induction false} SpanExact(ks: seq<Key>)
    requires ks != [] && AllIntegers(ks) && forall i :: 0 <= i < |ks| ==> -TWO63 <= ks[i].n < TWO63
    ensures Wrap(Largest(ks) - Smallest(ks)) <= 4096 <==>
      (forall i, j :: 0 <= i < |ks| && 0 <= j < |ks| ==> ks[i].n - ks[j].n <= 4096) ||
      (exists i, j :: 0 <= i < |ks| && 0 <= j < |ks| && ks[i].n - ks[j].n >= TWO63)
  {
    hide Largest, Smallest, Wrap;
    var span := Largest(ks) - Smallest(ks);
    var i :| 0 <= i < |ks| && ks[i].n == Largest(ks);
    var j :| 0 <= j < |ks| && ks[j].n == Smallest(ks);
    assert 0 <= span == ks[i].n - ks[j].n < 2 * TWO63;
    WrapSpan(span);
  }

  lemma {:induction false} WrapSpan(span: int)
    requires 0 <= span < 2 * TWO63
    ensures Wrap(span) == if span < TWO63 then span else span - 2 * TWO63
  {
  }

  /** `switch x { case 0x8000000000000000: f() case 1: g() default: h() }`: the keys are -2^63 and 1,
      the span wraps, and h runs for -2^63. */
  lemma {:induction false} SpanWitness(w: World, f: Stmt, g: Stmt, h: Stmt, value: Expr)
    ensures var c := Switch(false, value, [Clause([IntKey(-TWO63)], f), Clause([IntKey(1)], g), Clause([], h)]);
      Switchable(c) && SelectedClause(w, c, -TWO63) == 0 && DispatchedClause(w, c, -TWO63) == 2
  {
    hide SwitchTable.Dispatched, SwitchTable.Flatten, Smallest, Largest;
    var c := Switch(false, value, [Clause([IntKey(-TWO63)], f), Clause([IntKey(1)], g), Clause([], h)]);
    var cs, ks := Keys(c.clauses), [IntKey(-TWO63), IntKey(1)];
    assert cs == [[IntKey(-TWO63)], [IntKey(1)], []];
    FlattenTwo(cs, IntKey(-TWO63), IntKey(1));
    assert AllIntegers(ks);
    assert ks[1].n - ks[0].n >= TWO63;
    SpanExact(ks);
    DispatchFailsAtNegative(w, c, -TWO63);
    assert SwitchTable.DefaultClause(cs) == 2 by { DefaultOfThree(cs); }
  }

  lemma {:induction false} FlattenTwo(cs: seq<seq<Key>>, k: Key, k': Key)
    requires cs == [[k], [k'], []]
    ensures SwitchTable.Flatten(cs) == [k, k']
  {
    assert cs[1..] == [[k'], []] && cs[1..][1..] == [[]] && cs[1..][1..][1..] == [];
    assert SwitchTable.Flatten(cs[1..][1..]) == [];
    assert SwitchTable.Flatten(cs[1..]) == [k'] + [];
    assert SwitchTable.Flatten(cs) == [k] + [k'];
  }

  lemma {:induction false} DefaultOfThree(cs: seq<seq<Key>>)
    requires |cs| == 3 && cs[0] != [] && cs[1] != [] && cs[2] == []
    ensures SwitchTable.DefaultClause(cs) == 2
  {
  }

  /** `switch x { case 0xFFFFFFFFFFFFFFFF: f() default: g() }`: the literal is -1, the compiler files it
      under slot 16 of 17, the code looks in slot 0, and g runs for -1. */
  lemma {:induction false} NegativeWitness(w: World, f: Stmt, g: Stmt, value: Expr)
    ensures var c := Switch(false, value, [Clause([IntKey(-1)], f), Clause([], g)]);
      Switchable(c) && Size(c) == 17 && BucketOf(c)(IntKey(-1)) == 16 && RunBucketOf(w, false, 17, -1) == 0 &&
      SelectedClause(w, c, -1) == 0 && DispatchedClause(w, c, -1) == 1
  {
    hide SwitchTable.Dispatched, SwitchTable.Flatten, SwitchTable.DefaultClause;
    var c := Switch(false, value, [Clause([IntKey(-1)], f), Clause([], g)]);
    var cs := Keys(c.clauses);
    assert cs == [[IntKey(-1)], []];
    FlattenOne(cs, IntKey(-1));
    DispatchFailsAtNegative(w, c, -1);
    assert SwitchTable.DefaultClause(cs) == 1 by { DefaultOfTwo(cs); }
  }

  lemma {:induction false} FlattenOne(cs: seq<seq<Key>>, k: Key)
    requires cs == [[k], []]
    ensures SwitchTable.Flatten(cs) == [k]
  {
    assert cs[1..] == [[]] && cs[1..][1..] == [];
    assert SwitchTable.Flatten(cs[1..][1..]) == [] && SwitchTable.Flatten(cs[1..]) == [];
  }

  lemma {:induction false} DefaultOfTwo(cs: seq<seq<Key>>)
    requires |cs| == 2 && cs[0] != [] && cs[1] == []
    ensures SwitchTable.DefaultClause(cs) == 1
  {
  }
}
