/** Area scopes: whatever path a run takes, areas begin and end like matched brackets, and every
    allocation goes to the innermost area that is still open. */
module Areas {
  import opened Source
  import opened Structured
  import opened Lowering
  import opened Writing
  import Fuel
  import Statements
  import SwitchTable

  /** Follows the events from the areas `open` on and gives the areas open at the end; None when an
      event does not fit: an area that is open already or has another parent than the innermost one,
      the end of another area than that, storage from elsewhere. */
  function Follow(events: seq<Event>, open: seq<int>): Option<seq<int>> {
    if events == [] then Some(open) else
    match events[0]
    case AreaBegun(a, _, parent) =>
      if a !in open && parent == Innermost(open) then Follow(events[1..], open + [a]) else None
    case AreaEnded(a) =>
      if Innermost(open) == Some(a) then Follow(events[1..], open[..|open| - 1]) else None
    case Allocated(within) =>
      if within == Innermost(open) then Follow(events[1..], open) else None
    case _ => Follow(events[1..], open)
  }

  lemma {:induction false} FollowAppend(a: seq<Event>, b: seq<Event>, open: seq<int>)
    ensures Follow(a + b, open) == match Follow(a, open) case None => None case Some(o) => Follow(b, o)
    decreases |a|
  {
    if a == [] {
      assert a + b == b;
    } else {
      assert (a + b)[1..] == a[1..] + b;
      match a[0] {
        case AreaBegun(h, _, _) => FollowAppend(a[1..], b, open + [h]);
        case AreaEnded(_) => if open != [] { FollowAppend(a[1..], b, open[..|open| - 1]); }
        case _ => FollowAppend(a[1..], b, open);
      }
    }
  }

  /** From `s` to `s'` the events fit and lead from the areas `open` to the areas `open'`. */
  ghost predicate Leads(s: Memory, open: seq<int>, s': Memory, open': seq<int>) {
    s.trace <= s'.trace && Follow(s'.trace[|s.trace|..], open) == Some(open')
  }

  /** The areas that are open were opened before. */
  predicate Past(open: seq<int>, s: Memory) {
    forall i :: 0 <= i < |open| ==> 0 <= open[i] < |s.trace|
  }

  lemma {:induction false} LeadsTrans(s: Memory, o: seq<int>, s1: Memory, o1: seq<int>, s2: Memory, o2: seq<int>)
    requires Leads(s, o, s1, o1) && Leads(s1, o1, s2, o2)
    ensures Leads(s, o, s2, o2)
  {
    var a, b := s1.trace[|s.trace|..], s2.trace[|s1.trace|..];
    assert s2.trace[|s.trace|..] == a + b;
    FollowAppend(a, b, o);
  }

  lemma {:induction false} LeadsDid(s: Memory, o: seq<int>, events: seq<Event>, o1: seq<int>)
    requires Follow(events, o) == Some(o1)
    ensures Leads(s, o, Did(s, events), o1)
  {
    assert Did(s, events).trace[|s.trace|..] == events;
  }

  lemma {:induction false} LeadsSame(s: Memory, s': Memory, o: seq<int>)
    requires s'.trace == s.trace
    ensures Leads(s, o, s', o)
  {
    assert s'.trace[|s.trace|..] == [];
  }

  lemma {:induction false} EvalLeads(w: World, e: Expr, s: Memory, o: seq<int>)
    ensures Leads(s, o, Eval(w, e, s).1, o)
  {
    hide Leads;
    match e {
      case Lit(_) => LeadsSame(s, s, o);
      case Var(_) => LeadsSame(s, s, o);
      case Bin(_, l, r) =>
        var s1 := Eval(w, l, s).1;
        EvalLeads(w, l, s, o);
        EvalLeads(w, r, s1, o);
        LeadsTrans(s, o, s1, o, Eval(w, r, s1).1, o);
      case Call(f, a) =>
        var (v, s1) := Eval(w, a, s);
        EvalLeads(w, a, s, o);
        assert [Event(f, v)][1..] == [];
        LeadsDid(s1, o, [Event(f, v)], o);
        LeadsTrans(s, o, s1, o, Did(s1, [Event(f, v)]), o);
      case And(l, r) =>
        var s1 := Eval(w, l, s).1;
        EvalLeads(w, l, s, o);
        EvalLeads(w, r, s1, o);
        LeadsTrans(s, o, s1, o, Eval(w, r, s1).1, o);
      case Or(l, r) =>
        var s1 := Eval(w, l, s).1;
        EvalLeads(w, l, s, o);
        EvalLeads(w, r, s1, o);
        LeadsTrans(s, o, s1, o, Eval(w, r, s1).1, o);
    }
  }

  lemma {:induction false} SimpleLeads(w: World, open: seq<int>, c: Simple, s: Memory)
    ensures Leads(s, open, ExecSimple(w, open, c, s), open)
  {
    hide Leads;
    LeadsSame(s, s, open);
    if !c.Nothing? {
      var (v, s1) := Eval(w, c.e, s);
      EvalLeads(w, c.e, s, open);
      var event := Allocated(Innermost(open));
      assert [event][1..] == [];
      LeadsDid(s1, open, [event], open);
      var last := if c.New? then Did(s1, [event]) else s1;
      LeadsTrans(s, open, s1, open, Did(s1, [event]), open);
      LeadsSame(last, ExecSimple(w, open, c, s), open);
      LeadsTrans(s, open, last, open, ExecSimple(w, open, c, s), open);
    }
  }

  /** Ending all areas innermost first leaves none open. */
  lemma {:induction false} EndsFollow(open: seq<int>)
    ensures Follow(Ends(open), open) == Some([])
    decreases |open|
  {
    if open != [] {
      EndsFollow(open[..|open| - 1]);
      assert Ends(open)[1..] == Ends(open[..|open| - 1]);
    }
  }

  lemma {:induction false} EndsLead(s: Memory, open: seq<int>, first: seq<Event>)
    requires Follow(first, open) == Some(open)
    ensures Leads(s, open, Did(s, first + Ends(open)), [])
  {
    EndsFollow(open);
    FollowAppend(first, Ends(open), open);
    LeadsDid(s, open, first + Ends(open), []);
  }

  /** How a statement inside `open` may leave the areas: as they were, or all ended when the function
      is left; a run that is stopped has them and perhaps more. */
  ghost predicate Bracketed(s: Memory, open: seq<int>, out: Outcome) {
    match out
    case Normal(s') => Leads(s, open, s', open)
    case Broke(s') => Leads(s, open, s', open)
    case Continued(s') => Leads(s, open, s', open)
    case Returned(_, s') => Leads(s, open, s', [])
    case Panicked(_, s') => Leads(s, open, s', [])
    case OutOfFuel(s') => exists more :: Leads(s, open, s', open + more)
  }

  lemma {:induction false} BracketedAfter(s: Memory, open: seq<int>, s1: Memory, out: Outcome)
    requires Leads(s, open, s1, open) && Bracketed(s1, open, out)
    ensures Bracketed(s, open, out)
  {
    hide Leads;
    match out {
      case Normal(s') => LeadsTrans(s, open, s1, open, s', open);
      case Broke(s') => LeadsTrans(s, open, s1, open, s', open);
      case Continued(s') => LeadsTrans(s, open, s1, open, s', open);
      case Returned(_, s') => LeadsTrans(s, open, s1, open, s', []);
      case Panicked(_, s') => LeadsTrans(s, open, s1, open, s', []);
      case OutOfFuel(s') =>
        var more :| Leads(s1, open, s', open + more);
        LeadsTrans(s, open, s1, open, s', open + more);
    }
  }

  lemma {:induction false} LeadsPast(s: Memory, open: seq<int>, s1: Memory)
    requires Past(open, s) && Leads(s, open, s1, open)
    ensures Past(open, s1)
  {
  }

  lemma {:induction false} ExecBracketed(w: World, open: seq<int>, c: Stmt, s: Memory, fuel: nat)
    requires Past(open, s)
    ensures Bracketed(s, open, Exec(w, open, c, s, fuel))
    decreases fuel, c, 1
  {
    hide Leads, Follow, Past;
    match c {
      case Plain(p) => SimpleLeads(w, open, p, s);
      case Seq(a, b) =>
        ExecBracketed(w, open, a, s, fuel);
        var r := Exec(w, open, a, s, fuel);
        if r.Normal? {
          LeadsPast(s, open, r.s);
          ExecBracketed(w, open, b, r.s, fuel);
          BracketedAfter(s, open, r.s, Exec(w, open, b, r.s, fuel));
        }
      case If(init, cond, thn, els) =>
        var s0 := ExecSimple(w, open, init, s);
        var s1 := Eval(w, cond, s0).1;
        SimpleLeads(w, open, init, s);
        EvalLeads(w, cond, s0, open);
        LeadsTrans(s, open, s0, open, s1, open);
        LeadsPast(s, open, s1);
        ExecBracketed(w, open, thn, s1, fuel);
        ExecBracketed(w, open, els, s1, fuel);
        BracketedAfter(s, open, s1, Exec(w, open, c, s, fuel));
      case For(init, test, post, body) =>
        var s0 := ExecSimple(w, open, init, s);
        SimpleLeads(w, open, init, s);
        LeadsPast(s, open, s0);
        ForBracketed(w, open, test, post, body, s0, fuel);
        BracketedAfter(s, open, s0, Exec(w, open, c, s, fuel));
      case Switch(text, value, clauses) =>
        var (v, s1) := Eval(w, value, s);
        EvalLeads(w, value, s, open);
        LeadsPast(s, open, s1);
        var k := SwitchTable.Selected(Keys(clauses), KeyOf(w, text, v));
        if k < |clauses| {
          ExecBracketed(w, open, clauses[k].body, s1, fuel);
          BracketedAfter(s, open, s1, Exec(w, open, c, s, fuel));
        }
      case Break => LeadsSame(s, s, open);
      case Continue => LeadsSame(s, s, open);
      case Return(e) => ExitBracketed(w, open, c, s, fuel);
      case Panic(e) => ExitBracketed(w, open, c, s, fuel);
      case Area(size, body) => AreaBracketed(w, open, c, s, fuel);
    }
  }

  lemma {:induction false} ExitBracketed(w: World, open: seq<int>, c: Stmt, s: Memory, fuel: nat)
    requires c.Return? || c.Panic?
    ensures Bracketed(s, open, Exec(w, open, c, s, fuel))
  {
    hide Leads;
    var (v, s1) := Eval(w, c.e, s);
    EvalLeads(w, c.e, s, open);
    assert [PanicSet(v)][1..] == [];
    var first := if c.Panic? then [PanicSet(v)] else [];
    EndsLead(s1, open, first);
    assert [] + Ends(open) == Ends(open);
    BracketedAfter(s, open, s1, Exec(w, open, c, s, fuel));
  }

  lemma {:induction false} ForBracketed(w: World, open: seq<int>, test: Option<Expr>, post: Simple, body: Stmt,
                                        s: Memory, fuel: nat)
    requires Past(open, s)
    ensures Bracketed(s, open, ExecFor(w, open, test, post, body, s, fuel))
    decreases fuel, body, 2
  {
    hide Leads, Follow, Past;
    LeadsSame(s, s, open);
    assert open + [] == open;
    if fuel > 0 {
      var (v, s1) := if test.Some? then Eval(w, test.value, s) else (1, s);
      if test.Some? { EvalLeads(w, test.value, s, open); }
      LeadsPast(s, open, s1);
      var r := Exec(w, open, body, s1, fuel);
      ExecBracketed(w, open, body, s1, fuel);
      BracketedAfter(s, open, s1, r);
      if r.Normal? || r.Continued? {
        var s2 := ExecSimple(w, open, post, r.s);
        SimpleLeads(w, open, post, r.s);
        LeadsTrans(s, open, r.s, open, s2, open);
        LeadsPast(s, open, s2);
        ForBracketed(w, open, test, post, body, s2, fuel - 1);
        BracketedAfter(s, open, s2, ExecFor(w, open, test, post, body, s2, fuel - 1));
      }
    }
  }

  /** The area that is opened is a new one, and its end finds it innermost again. */
  lemma {:induction false} AreaBracketed(w: World, open: seq<int>, c: Stmt, s: Memory, fuel: nat)
    requires c.Area? && Past(open, s)
    ensures Bracketed(s, open, Exec(w, open, c, s, fuel))
    decreases fuel, c, 0
  {
    hide Leads;
    if c.size.Some? { EvalLeads(w, c.size.value, s, open); } else { LeadsSame(s, s, open); }
    var (bytes, s1) := AreaSize(w, c.size, s);
    LeadsPast(s, open, s1);
    var h := |s1.trace|;
    var begin := AreaBegun(h, bytes, Innermost(open));
    var s2 := Did(s1, [begin]);
    assert [begin][1..] == [];
    LeadsDid(s1, open, [begin], open + [h]);
    LeadsTrans(s, open, s1, open, s2, open + [h]);
    var r := Exec(w, open + [h], c.body, s2, fuel);
    ExecBracketed(w, open + [h], c.body, s2, fuel);
    AreaEnds(s, open, h, s2, r);
  }

  lemma {:induction false} AreaEnds(s: Memory, open: seq<int>, h: int, s2: Memory, r: Outcome)
    requires Leads(s, open, s2, open + [h]) && Bracketed(s2, open + [h], r)
    ensures Bracketed(s, open, EndArea(r, h))
  {
    hide Leads;
    assert [AreaEnded(h)][1..] == [];
    assert (open + [h])[..|open|] == open;
    LeadsDid(r.s, open + [h], [AreaEnded(h)], open);
    match r {
      case Returned(_, s') => LeadsTrans(s, open, s2, open + [h], s', []);
      case Panicked(_, s') => LeadsTrans(s, open, s2, open + [h], s', []);
      case OutOfFuel(s') =>
        var more :| Leads(s2, open + [h], s', open + [h] + more);
        LeadsTrans(s, open, s2, open + [h], s', open + [h] + more);
        assert open + ([h] + more) == open + [h] + more;
      case _ =>
        LeadsTrans(s, open, s2, open + [h], r.s, open + [h]);
        LeadsTrans(s, open, r.s, open + [h], Did(r.s, [AreaEnded(h)]), open);
    }
  }

  /** In the code of every function the areas match on every path, and none is open when the function
      returns or panics. */
  lemma {:induction false} AreasMatched(w: World, c: Stmt, regs: nat, st: State, fuel: nat)
    requires WellScoped(c, false, false)
    ensures var r := RunNode(w, LowerFunction(c, regs), st, fuel);
      && (r.Ret? || r.Panics? || r.Timeout?)
      && st.trace <= r.st.trace
      && var open := Follow(r.st.trace[|st.trace|..], []);
         open.Some? && (!r.Timeout? ==> open.value == [])
  {
    hide Follow, LowerFunction, Exec;
    Statements.FunctionCorrect(w, c, regs, st, fuel);
    Fuel.NeverLoose(w, [], c, false, false, MemoryOf(st), fuel);
    ExecBracketed(w, [], c, MemoryOf(st), fuel);
  }
}
