/** The part of the Hike source language that the structured lowering handles, and its meaning.

    Variables are storage slots already resolved by name. A call appends an event to the trace and
    its result is chosen by the outside world, which sees the whole trace so far. An area is known by
    a handle, the length of the trace at the time it is opened; the areas that are open around a
    statement, innermost last, are given with it. */
module Source {
  import SwitchTable
  import StringSwitch

  /** The outside world: what a call to `f` with an argument returns after a history of calls, and what
      the string shows that a value stands for. */
  datatype World = World(call: (string, int, seq<Event>) -> int, text: int -> StringSwitch.Text)

  datatype Event =
    | Event(callee: string, arg: int)
    | AreaBegun(area: int, size: Option<int>, parent: Option<int>)
    | AreaEnded(area: int)
    | Allocated(within: Option<int>)
    | PanicSet(value: int)

  datatype Option<+T> = None | Some(value: T)

  datatype Op = Add | Sub | Mul | Eq | Lt | OrBool

  datatype Expr =
    | Lit(n: int)
    | Var(name: string)
    | Bin(op: Op, left: Expr, right: Expr)
    | Call(callee: string, arg: Expr)
    | And(left: Expr, right: Expr)
    | Or(left: Expr, right: Expr)

  /** Simple statements: the only ones Go's grammar allows as the init of an `if` or `for` and as
      the post of a `for`. `Nothing` stands for an absent one, `New` for a definition whose variable
      escapes, so that its storage is allocated. */
  datatype Simple =
    | Nothing
    | Assign(name: string, e: Expr)
    | New(name: string, e: Expr)
    | Do(e: Expr)

  datatype Stmt =
    | Plain(s: Simple)
    | Seq(first: Stmt, second: Stmt)
    | If(init: Simple, cond: Expr, thn: Stmt, els: Stmt)
    | For(init: Simple, test: Option<Expr>, post: Simple, body: Stmt)
    | Switch(text: bool, value: Expr, clauses: seq<Clause>)
    | Break
    | Continue
    | Return(e: Expr)
    | Panic(e: Expr)
    | Area(size: Option<Expr>, body: Stmt)

  /** A clause of a switch; no keys means `default`. */
  datatype Clause = Clause(keys: seq<Key>, body: Stmt)

  /** What a switch on integers or on strings compares. */
  datatype Key = IntKey(n: int) | TextKey(t: StringSwitch.Text)

  /** A source state: the variables and the calls made so far. */
  datatype Memory = Memory(vars: map<string, int>, trace: seq<Event>)

  /** How running a statement with a given fuel ends. `OutOfFuel` keeps the state reached when some
      loop had used its fuel, so that the effects of runs without end can be compared too. */
  datatype Outcome =
    | Normal(s: Memory)
    | Broke(s: Memory)
    | Continued(s: Memory)
    | Returned(value: int, s: Memory)
    | Panicked(value: int, s: Memory)
    | OutOfFuel(s: Memory)

  const TWO63: int := 0x8000_0000_0000_0000
  const TWO64: int := 0x1_0000_0000_0000_0000

  /** Two's complement wrap-around of Hike's 64-bit `int`. */
  function Wrap(n: int): int {
    (n + TWO63) % TWO64 - TWO63
  }

  function Apply(op: Op, a: int, b: int): int {
    match op
    case Add => Wrap(a + b)
    case Sub => Wrap(a - b)
    case Mul => Wrap(a * b)
    case Eq => if a == b then 1 else 0
    case Lt => if a < b then 1 else 0
    case OrBool => if a != 0 || b != 0 then 1 else 0
  }

  predicate Truth(n: int) {
    n != 0
  }

  function Lookup<K>(m: map<K, int>, k: K): int {
    if k in m then m[k] else 0
  }

  /** Expressions read the variables and may extend the trace; `&&` and `||` evaluate their right
      operand only when the left one leaves the result open. */
  function Eval(w: World, e: Expr, s: Memory): (int, Memory) {
    match e
    case Lit(n) => (n, s)
    case Var(x) => (Lookup(s.vars, x), s)
    case Bin(op, l, r) =>
      var (a, s1) := Eval(w, l, s);
      var (b, s2) := Eval(w, r, s1);
      (Apply(op, a, b), s2)
    case Call(f, arg) =>
      var (a, s1) := Eval(w, arg, s);
      (w.call(f, a, s1.trace), s1.(trace := s1.trace + [Event(f, a)]))
    case And(l, r) =>
      var (a, s1) := Eval(w, l, s);
      if Truth(a) then Eval(w, r, s1) else (0, s1)
    case Or(l, r) =>
      var (a, s1) := Eval(w, l, s);
      if Truth(a) then (1, s1) else Eval(w, r, s1)
  }

  function Innermost(open: seq<int>): Option<int> {
    if open == [] then None else Some(open[|open| - 1])
  }

  /** The ends of all open areas, innermost first. */
  function Ends(open: seq<int>): seq<Event> {
    if open == [] then [] else [AreaEnded(open[|open| - 1])] + Ends(open[..|open| - 1])
  }

  function Did(s: Memory, events: seq<Event>): Memory {
    s.(trace := s.trace + events)
  }

  function ExecSimple(w: World, open: seq<int>, c: Simple, s: Memory): Memory {
    match c
    case Nothing => s
    case Assign(x, e) =>
      var (v, s1) := Eval(w, e, s);
      s1.(vars := s1.vars[x := v])
    case New(x, e) =>
      var (v, s1) := Eval(w, e, s);
      Did(s1, [Allocated(Innermost(open))]).(vars := s1.vars[x := v])
    case Do(e) => Eval(w, e, s).1
  }

  /** The size of an area in bytes, given in KiB. */
  function AreaSize(w: World, size: Option<Expr>, s: Memory): (Option<int>, Memory) {
    if size.None? then (None, s) else
    var (v, s1) := Eval(w, size.value, s);
    (Some(Apply(Mul, v, 1024)), s1)
  }

  /** The body of area `h` has ended: the area ends too, unless it already has. */
  function EndArea(r: Outcome, h: int): Outcome {
    match r
    case Normal(s) => Normal(Did(s, [AreaEnded(h)]))
    case Broke(s) => Broke(Did(s, [AreaEnded(h)]))
    case Continued(s) => Continued(Did(s, [AreaEnded(h)]))
    case _ => r
  }

  /** Runs a statement inside the areas `open`. Each activation of a loop may start `fuel` iterations. */
  function Exec(w: World, open: seq<int>, c: Stmt, s: Memory, fuel: nat): Outcome
    decreases fuel, c, 1
  {
    match c
    case Plain(p) => Normal(ExecSimple(w, open, p, s))
    case Seq(a, b) =>
      var r := Exec(w, open, a, s, fuel);
      if r.Normal? then Exec(w, open, b, r.s, fuel) else r
    case If(init, cond, thn, els) =>
      var (v, s1) := Eval(w, cond, ExecSimple(w, open, init, s));
      if Truth(v) then Exec(w, open, thn, s1, fuel) else Exec(w, open, els, s1, fuel)
    case For(init, test, post, body) =>
      ExecFor(w, open, test, post, body, ExecSimple(w, open, init, s), fuel)
    case Switch(text, value, clauses) =>
      var (v, s1) := Eval(w, value, s);
      var k := SwitchTable.Selected(Keys(clauses), KeyOf(w, text, v));
      if k == |clauses| then Normal(s1) else
      var r := Exec(w, open, clauses[k].body, s1, fuel);
      if r.Broke? then Normal(r.s) else r
    case Break => Broke(s)
    case Continue => Continued(s)
    case Return(e) =>
      var (v, s1) := Eval(w, e, s);
      Returned(v, Did(s1, Ends(open)))
    case Panic(e) =>
      var (v, s1) := Eval(w, e, s);
      Panicked(v, Did(s1, [PanicSet(v)] + Ends(open)))
    case Area(size, body) =>
      var (bytes, s1) := AreaSize(w, size, s);
      var h := |s1.trace|;
      EndArea(Exec(w, open + [h], body, Did(s1, [AreaBegun(h, bytes, Innermost(open))]), fuel), h)
  }

  /** The key that a value is compared as. */
  function KeyOf(w: World, text: bool, v: int): Key {
    if text then TextKey(w.text(v)) else IntKey(v)
  }

  function Keys(clauses: seq<Clause>): (r: seq<seq<Key>>)
    ensures |r| == |clauses|
    ensures forall i :: 0 <= i < |r| ==> r[i] == clauses[i].keys
  {
    seq(|clauses|, i requires 0 <= i < |clauses| => clauses[i].keys)
  }

  function ExecFor(w: World, open: seq<int>, test: Option<Expr>, post: Simple, body: Stmt, s: Memory,
                   fuel: nat): Outcome
    decreases fuel, body, 2
  {
    if fuel == 0 then OutOfFuel(s) else
    var (v, s1) := if test.Some? then Eval(w, test.value, s) else (1, s);
    if !Truth(v) then Normal(s1) else
    match Exec(w, open, body, s1, fuel)
    case Normal(s2) => ExecFor(w, open, test, post, body, ExecSimple(w, open, post, s2), fuel - 1)
    case Continued(s2) => ExecFor(w, open, test, post, body, ExecSimple(w, open, post, s2), fuel - 1)
    case Broke(s2) => Normal(s2)
    case Returned(rv, s2) => Returned(rv, s2)
    case Panicked(rv, s2) => Panicked(rv, s2)
    case OutOfFuel(s2) => OutOfFuel(s2)
  }

  predicate AllIntegers(ks: seq<Key>) {
    forall i :: 0 <= i < |ks| ==> ks[i].IntKey?
  }

  function Smallest(ks: seq<Key>): (m: int)
    requires ks != [] && AllIntegers(ks)
    ensures (exists i :: 0 <= i < |ks| && ks[i].n == m) && forall i :: 0 <= i < |ks| ==> m <= ks[i].n
  {
    if |ks| == 1 then ks[0].n else
    var m := Smallest(ks[1..]);
    assert exists i :: 0 <= i < |ks[1..]| && ks[1..][i].n == m;
    assert forall i :: 0 <= i < |ks| ==> ks[i] == if i == 0 then ks[0] else ks[1..][i - 1];
    if ks[0].n < m then ks[0].n else m
  }

  function Largest(ks: seq<Key>): (m: int)
    requires ks != [] && AllIntegers(ks)
    ensures (exists i :: 0 <= i < |ks| && ks[i].n == m) && forall i :: 0 <= i < |ks| ==> ks[i].n <= m
  {
    if |ks| == 1 then ks[0].n else
    var m := Largest(ks[1..]);
    assert exists i :: 0 <= i < |ks[1..]| && ks[1..][i].n == m;
    assert forall i :: 0 <= i < |ks| ==> ks[i] == if i == 0 then ks[0] else ks[1..][i - 1];
    if ks[0].n > m then ks[0].n else m
  }

  /** Switches that get a bucket table. On integers: there is a key, all differ and they span at most
      4096, in 64-bit arithmetic. On strings: at least four clauses have keys. */
  predicate GetsTable(text: bool, clauses: seq<Clause>) {
    var ks := SwitchTable.Flatten(Keys(clauses));
    if text then
      (forall i :: 0 <= i < |ks| ==> ks[i].TextKey?) && WithKeys(clauses) >= 4
    else
      && ks != [] && AllIntegers(ks) && (forall i :: 0 <= i < |ks| ==> -TWO63 <= ks[i].n < TWO63)
      && (forall i, j :: 0 <= i < j < |ks| ==> ks[i] != ks[j])
      && Wrap(Largest(ks) - Smallest(ks)) <= 4096
  }

  function WithKeys(clauses: seq<Clause>): nat {
    if clauses == [] then 0 else WithKeys(clauses[1..]) + if clauses[0].keys != [] then 1 else 0
  }

  /** No key is a literal of 2^63 or more, which is a negative number in 64 bits. */
  predicate NoNegativeKey(clauses: seq<Clause>) {
    forall i, j :: 0 <= i < |clauses| && 0 <= j < |clauses[i].keys| && clauses[i].keys[j].IntKey? ==>
      clauses[i].keys[j].n >= 0
  }

  /** `break` and `continue` occur only where the language allows them, and every switch is one
      that gets a bucket table, without negative keys. A `continue` that would have to leave a
      switch, and a `break` or `continue` that would have to leave an area, are kept out. */
  predicate WellScoped(c: Stmt, canBreak: bool, canContinue: bool) {
    match c
    case Seq(a, b) => WellScoped(a, canBreak, canContinue) && WellScoped(b, canBreak, canContinue)
    case If(_, _, thn, els) => WellScoped(thn, canBreak, canContinue) && WellScoped(els, canBreak, canContinue)
    case For(_, _, _, body) => WellScoped(body, true, true)
    case Switch(text, _, clauses) =>
      && GetsTable(text, clauses) && NoNegativeKey(clauses)
      && (forall i :: 0 <= i < |clauses| ==> WellScoped(clauses[i].body, true, false))
    case Area(_, body) => WellScoped(body, false, false)
    case Break => canBreak
    case Continue => canContinue
    case _ => true
  }

  // ----- what the definitions amount to -----

  /** Wrap-around gives the one 64-bit number with the same remainder. */
  lemma {:induction false} WrapExact(n: int)
    ensures -0x8000_0000_0000_0000 <= Wrap(n) < 0x8000_0000_0000_0000
    ensures (Wrap(n) - n) % 0x1_0000_0000_0000_0000 == 0
  {
    var q := (n + TWO63) / TWO64;
    assert Wrap(n) - n == -q * TWO64;
  }

  lemma {:induction false} ApplyExact(a: int, b: int)
    ensures Apply(Add, a, b) == Wrap(a + b) && Apply(Sub, a, b) == Wrap(a - b) && Apply(Mul, a, b) == Wrap(a * b)
    ensures Apply(Eq, a, b) == 1 <==> a == b
    ensures Apply(Lt, a, b) == 1 <==> a < b
    ensures Apply(OrBool, a, b) == 0 <==> a == 0 && b == 0
  {
    hide Wrap;
  }

  /** The ends of areas run from the innermost to the outermost one. */
  lemma {:induction false} EndsExact(open: seq<int>, k: nat)
    requires k < |open|
    ensures |Ends(open)| == |open| && Ends(open)[k] == AreaEnded(open[|open| - 1 - k])
    decreases |open|
  {
    var init := open[..|open| - 1];
    if k > 0 {
      EndsExact(init, k - 1);
    } else if init != [] {
      EndsExact(init, 0);
    }
  }

  /** A panic is recorded before the areas end; a size is in KiB; storage is that of the last area. */
  lemma {:induction false} EventsExact(w: World, open: seq<int>, e: Expr, x: string, s: Memory, fuel: nat)
    ensures var (v, s1) := Eval(w, e, s);
      && Exec(w, open, Panic(e), s, fuel) == Panicked(v, s1.(trace := s1.trace + [PanicSet(v)] + Ends(open)))
      && Exec(w, open, Return(e), s, fuel) == Returned(v, s1.(trace := s1.trace + Ends(open)))
      && AreaSize(w, Some(e), s) == (Some(Wrap(v * 1024)), s1)
      && ExecSimple(w, open, New(x, e), s).trace ==
         s1.trace + [Allocated(if open == [] then None else Some(open[|open| - 1]))]
  {
    hide Eval, Ends, Wrap;
    var (v, s1) := Eval(w, e, s);
    assert s1.trace + ([PanicSet(v)] + Ends(open)) == s1.trace + [PanicSet(v)] + Ends(open);
  }
}
