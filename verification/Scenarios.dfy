/** Small facts for working through a run by hand. */
module Scenarios {
  import opened Types
  import opened Histories
  import opened Locks
  import opened Runs

  lemma {:induction false} RunMore(c: Setup, rs: RunState, ops: seq<Op>, op: Op)
    ensures Run(c, rs, ops + [op]) == Step(c, Run(c, rs, ops), op)
  {
    hide Step;
    assert (ops + [op])[..|ops|] == ops;
  }

  lemma {:induction false} RunTwo(c: Setup, rs: RunState, a: Op, b: Op)
    ensures Run(c, rs, [a]) == Step(c, rs, a)
    ensures Run(c, rs, [a, b]) == Step(c, Step(c, rs, a), b)
  {
    hide Step;
    assert [a, b][..1] == [a] && [a][..0] == [];
  }

  lemma {:induction false} RunFour(c: Setup, rs: RunState, a: Op, b: Op, d: Op, e: Op)
    ensures Run(c, rs, [a, b, d]) == Step(c, Step(c, Step(c, rs, a), b), d)
    ensures Run(c, rs, [a, b, d, e]) == Step(c, Step(c, Step(c, Step(c, rs, a), b), d), e)
  {
    hide Step;
    RunTwo(c, rs, a, b);
    assert [a, b, d][..2] == [a, b] && [a, b, d, e][..3] == [a, b, d];
  }

  function Logs(log: Log): seq<Event> {
    seq(|log|, i requires 0 <= i < |log| => log[i].event)
  }

  lemma {:induction false} LogsNext(log: Log, at: nat, event: Event)
    ensures Logs(Append(log, at, event)) == Logs(log) + [event]
  {
  }

  lemma {:induction false} AllYoung(held: seq<HeldBy>, now: nat)
    requires forall h | h in held :: now < h.deadline
    ensures Alive(held, now) == held && Lapsed(held, now) == []
  {
    if held == [] {
    } else {
      AllYoung(held[..|held| - 1], now);
      assert held == held[..|held| - 1] + [held[|held| - 1]];
    }
  }

  /** Sweeping young holds does nothing. */
  lemma {:induction false} NothingToSweep(s: Service)
    requires forall h | h in s.held :: s.now < h.deadline
    ensures Swept(s) == s && Alive(s.held, s.now) == s.held
  {
    AllYoung(s.held, s.now);
    assert AppendAll(s.log, s.now, Expiries([])) == s.log;
  }

  lemma {:induction false} OneHeld(h: HeldBy)
    ensures InForce([h]) == Some(h.ticket) && h.ticket in Tickets([h]) && Without([h], h.ticket) == []
  {
    assert [h][..0] == [];
    assert [h][0] in [h];
  }

  lemma {:induction false} TwoHeld(a: HeldBy, b: HeldBy)
    requires a.ticket < b.ticket
    ensures InForce([a, b]) == Some(b.ticket) && b.ticket in Tickets([a, b])
    ensures Without([a, b], b.ticket) == [a]
  {
    var all, one := [a, b], [a];
    assert all[..|all| - 1] == one && all[|all| - 1] == b && b in all;
    assert one[..|one| - 1] == [] && one[|one| - 1] == a;
    assert Without([], b.ticket) == [];
    OneHeld(a);
  }

  /** Some name is in none of finitely many places. */
  lemma {:induction false} SomeoneElse(names: set<HolderId>) returns (name: HolderId)
    ensures name !in names && forall x | x in names :: |x| < |name|
    decreases names
  {
    if names == {} {
      name := "";
    } else {
      var x :| x in names;
      var longer := SomeoneElse(names - {x});
      name := if |longer| <= |x| then x + "x" else longer;
    }
  }
}
