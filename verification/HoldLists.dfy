/** Facts about the service's list of holds. */
module HoldLists {
  import opened Locks
  import opened Checkers

  lemma {:induction false} TicketsOfLast(held: seq<HeldBy>)
    requires held != []
    ensures Tickets(held) == Tickets(held[..|held| - 1]) + {held[|held| - 1].ticket}
  {
    assert held == held[..|held| - 1] + [held[|held| - 1]];
  }

  lemma {:induction false} AliveMeans(held: seq<HeldBy>, now: nat)
    ensures forall h :: h in Alive(held, now) <==> h in held && now < h.deadline
    ensures |Alive(held, now)| <= |held|
  {
    if held == [] {
    } else {
      AliveMeans(held[..|held| - 1], now);
    }
  }

  lemma {:induction false} AliveAscending(held: seq<HeldBy>, now: nat)
    requires Ascending(held)
    ensures Ascending(Alive(held, now))
  {
    if held == [] {
    } else {
      AliveAscending(held[..|held| - 1], now);
      AliveMeans(held[..|held| - 1], now);
    }
  }

  lemma {:induction false} LapsedMeans(held: seq<HeldBy>, now: nat)
    ensures forall h :: h in Lapsed(held, now) <==> h in held && h.deadline <= now
  {
    if held == [] {
    } else {
      LapsedMeans(held[..|held| - 1], now);
    }
  }

  lemma {:induction false} WithoutMeans(held: seq<HeldBy>, ticket: nat)
    ensures forall h :: h in Without(held, ticket) <==> h in held && h.ticket != ticket
    ensures |Without(held, ticket)| <= |held|
  {
    if held == [] {
    } else {
      WithoutMeans(held[..|held| - 1], ticket);
    }
  }

  lemma {:induction false} WithoutAscending(held: seq<HeldBy>, ticket: nat)
    requires Ascending(held)
    ensures Ascending(Without(held, ticket))
  {
    if held == [] {
    } else {
      WithoutAscending(held[..|held| - 1], ticket);
      WithoutMeans(held[..|held| - 1], ticket);
    }
  }

  lemma {:induction false} InForceIsMax(held: seq<HeldBy>)
    ensures IsMax(Tickets(held), InForce(held))
    ensures InForce(held).None? <==> held == []
  {
    if held == [] {
    } else {
      var rest, last := held[..|held| - 1], held[|held| - 1];
      InForceIsMax(rest);
      TicketsOfLast(held);
    }
  }

  lemma {:induction false} FirstOnMeans(held: seq<HeldBy>, ticket: nat)
    ensures FirstOn(held, ticket).None? <==> ticket !in Tickets(held)
  {
    if held == [] {
    } else {
      var rest, last := held[..|held| - 1], held[|held| - 1];
      FirstOnMeans(rest, ticket);
      TicketsOfLast(held);
    }
  }

  /** On a list of distinct tickets, sweeping removes exactly the lapsed tickets. */
  lemma {:induction false} SweepSplits(held: seq<HeldBy>, now: nat)
    requires Ascending(held)
    ensures Tickets(Alive(held, now)) == Tickets(held) - Tickets(Lapsed(held, now))
  {
    AliveMeans(held, now);
    LapsedMeans(held, now);
    forall a, b | a in held && b in held && a.ticket == b.ticket
      ensures a == b
    {
      var i :| 0 <= i < |held| && held[i] == a;
      var j :| 0 <= j < |held| && held[j] == b;
      assert i == j;
    }
  }

  lemma {:induction false} AliveTwice(held: seq<HeldBy>, now: nat)
    ensures Alive(Alive(held, now), now) == Alive(held, now)
  {
    if held == [] {
    } else {
      AliveTwice(held[..|held| - 1], now);
      var last := held[|held| - 1];
      var kept := Alive(held[..|held| - 1], now);
      if now < last.deadline {
        var all := Alive(held, now);
        assert all == kept + [last] && all[..|all| - 1] == kept && all[|all| - 1] == last;
      } else {
        assert Alive(held, now) == kept;
      }
    }
  }

  // ---------- Order

  /** The elements of `part` stand in `all` in this order. */
  ghost predicate SubsequenceOf(part: seq<HeldBy>, all: seq<HeldBy>) {
    exists at: seq<nat> :: Places(part, all, at)
  }

  ghost predicate Places(part: seq<HeldBy>, all: seq<HeldBy>, at: seq<nat>) {
    && |at| == |part|
    && (forall i | 0 <= i < |at| :: at[i] < |all| && all[at[i]] == part[i])
    && forall i, j | 0 <= i < j < |at| :: at[i] < at[j]
  }

  lemma {:induction false} InOrderMore(part: seq<HeldBy>, all: seq<HeldBy>, last: HeldBy)
    requires SubsequenceOf(part, all)
    ensures SubsequenceOf(part, all + [last]) && SubsequenceOf(part + [last], all + [last])
  {
    var at: seq<nat> :| Places(part, all, at);
    assert Places(part, all + [last], at);
    assert Places(part + [last], all + [last], at + [|all|]);
  }

  lemma {:induction false} InOrderTwice(part: seq<HeldBy>, some: seq<HeldBy>, all: seq<HeldBy>)
    requires SubsequenceOf(part, some) && SubsequenceOf(some, all)
    ensures SubsequenceOf(part, all)
  {
    var at: seq<nat> :| Places(part, some, at);
    var to: seq<nat> :| Places(some, all, to);
    var both: seq<nat> := seq(|at|, i requires 0 <= i < |at| => to[at[i]]);
    assert Places(part, all, both);
  }

  /** Every hold is either live or lapsed, as often as it is held. */
  lemma {:induction false} HoldsSplit(held: seq<HeldBy>, now: nat)
    ensures multiset(Lapsed(held, now)) + multiset(Alive(held, now)) == multiset(held)
  {
    if held == [] {
    } else {
      HoldsSplit(held[..|held| - 1], now);
      assert held == held[..|held| - 1] + [held[|held| - 1]];
    }
  }

  /** And each kind keeps its order. */
  lemma {:induction false} HoldsInOrder(held: seq<HeldBy>, now: nat)
    ensures SubsequenceOf(Alive(held, now), held) && SubsequenceOf(Lapsed(held, now), held)
  {
    if held == [] {
      assert Places([], [], []);
    } else {
      hide SubsequenceOf;
      var rest, last := held[..|held| - 1], held[|held| - 1];
      HoldsInOrder(rest, now);
      assert held == rest + [last];
      InOrderMore(Alive(rest, now), rest, last);
      InOrderMore(Lapsed(rest, now), rest, last);
      assert Alive(rest, now) + [] == Alive(rest, now) && Lapsed(rest, now) + [] == Lapsed(rest, now);
    }
  }

  lemma {:induction false} WithoutInOrder(held: seq<HeldBy>, ticket: nat)
    ensures SubsequenceOf(Without(held, ticket), held)
    ensures forall h :: multiset(Without(held, ticket))[h] == if h.ticket != ticket then multiset(held)[h] else 0
  {
    if held == [] {
      assert Places([], [], []);
    } else {
      var rest, last := held[..|held| - 1], held[|held| - 1];
      WithoutInOrder(rest, ticket);
      assert held == rest + [last];
      InOrderMore(Without(rest, ticket), rest, last);
      assert Without(rest, ticket) + [] == Without(rest, ticket);
    }
  }
}
