/** What survives every fault, the broken ticket source included: barriers still only grow, and a
    source that stopped counting is always caught once it has issued twice. */
module FaultyRuns {
  import opened Types
  import opened Histories
  import opened Locks
  import opened HoldLists
  import opened Runs
  import opened ServiceCalls
  import opened Checkers
  import opened CheckerMeaning
  import opened Fencing

  /** Neither a ticket nor a barrier was handed out, and no hold is on a new ticket. */
  ghost predicate Unmoved(s: Service, s': Service) {
    && Unstamped(s.log, s'.log)
    && s'.nextTicket == s.nextTicket
    && s'.lastIssued == s.lastIssued
    && forall h | h in s'.held :: h.ticket in Tickets(s.held)
  }

  lemma {:induction false} SweptUnmoved(s: Service)
    ensures Unmoved(s, Swept(s))
  {
    AliveMeans(s.held, s.now);
    AppendAllContents(s.log, s.now, Expiries(Lapsed(s.held, s.now)));
  }

  lemma {:induction false} ExtendedUnmoved(c: Setup, s: Service, i: nat)
    requires i < |s.held|
    ensures Unmoved(s, Extended(c, s, i))
  {
    var held' := Extended(c, s, i).held;
    forall h | h in held'
      ensures h.ticket in Tickets(s.held)
    {
      var j :| 0 <= j < |held'| && held'[j] == h;
      assert s.held[j] in s.held;
    }
  }

  lemma {:induction false} CallUnmoved(c: Setup, s: Service, call: Call)
    requires !call.Grant? && !call.Revoke?
    ensures Unmoved(s, Called(c, s, call))
  {
    hide Swept, Without, FirstOn, Extended;
    match call
    case Sweep => SweptUnmoved(s);
    case GiveUp(holding) => WithoutMeans(s.held, holding.ticket);
    case Extend(ticket) =>
      if FirstOn(s.held, ticket).Some? {
        ExtendedUnmoved(c, s, FirstOn(s.held, ticket).value);
      }
    case ExpireAll => AppendAllContents(s.log, s.now, Expiries(s.held));
    case _ =>
  }

  // ---------- Barriers

  /** Barriers increase, and the counter has reached the last of them. */
  ghost predicate BarriersOk(s: Service) {
    && BarriersIncrease(s.log)
    && forall i | 0 <= i < |s.log| && s.log[i].event.Revoked? :: s.log[i].event.barrier.value <= s.nextTicket
  }

  lemma {:induction false} CallBarriers(c: Setup, s: Service, call: Call)
    requires BarriersOk(s)
    ensures BarriersOk(Called(c, s, call))
  {
    if !call.Grant? && !call.Revoke? {
      hide Called;
      CallUnmoved(c, s, call);
    }
  }

  lemma {:induction false} RunBarriers(c: Setup, file: Option<Content>, leftover: Option<Content>, ops: seq<Op>)
    ensures BarriersOk(Run(c, Start(file, leftover), ops).world.svc)
  {
    assert BarriersOk(FRESH_SERVICE);
    hide BarriersOk, Reaches, Run, Called;
    RunReaches(c, Start(file, leftover), ops);
    forall x, call | BarriersOk(x)
      ensures BarriersOk(Called(c, x, call))
    {
      CallBarriers(c, x, call);
    }
    ReachesKeeps(c, FRESH_SERVICE, Run(c, Start(file, leftover), ops).world.svc, ANYTHING, x => BarriersOk(x));
  }

  /** On every run, under every fault, barriers only grow; so P8, which remembers one barrier,
      decides what comparing each accepted ticket with every earlier barrier would. */
  lemma {:induction false} OneBarrierIsEnough(
    c: Setup, file: Option<Content>, leftover: Option<Content>, ops: seq<Op>)
    ensures var e := Run(c, Start(file, leftover), ops).world.svc.log;
            && BarriersIncrease(e)
            && (P8Found(e) == [] <==>
                forall i, j | 0 <= i < j < |e| && e[i].event.Revoked? && e[j].event.WriteAccepted? ::
                  Clears(e[i].event.barrier, e[j].event.ticket))
  {
    hide Run, P8Found;
    RunBarriers(c, file, leftover, ops);
    OneBarrierSuffices(Run(c, Start(file, leftover), ops).world.svc.log);
  }

  // ---------- A ticket source that does not count

  /** Only ticket 1 was ever issued or granted, only ticket 1 is held, and every barrier is above it. */
  ghost predicate Stuck(s: Service) {
    && s.lastIssued <= 1 <= s.nextTicket
    && (forall h | h in s.held :: h.ticket == 1)
    && forall i | 0 <= i < |s.log| :: StuckEvent(s.log[i].event)
  }

  predicate StuckEvent(event: Event) {
    match event
    case TicketIssued(t) => t == 1
    case TakeGranted(_, t) => t == 1
    case Revoked(b) => b.Some? && 1 < b.value
    case _ => true
  }

  lemma {:induction false} GrantStaysStuck(c: Setup, s: Service, holder: HolderId)
    requires Stuck(s) && c.faults.nonMonotonicTickets
    ensures Granted(c, s, holder).1.ticket == 1 && Stuck(Granted(c, s, holder).0)
  {
  }

  lemma {:induction false} CallStuck(c: Setup, s: Service, call: Call)
    requires Stuck(s) && c.faults.nonMonotonicTickets
    ensures Stuck(Called(c, s, call))
  {
    if call.Grant? {
      GrantStaysStuck(c, s, call.holder);
    } else if !call.Revoke? {
      hide Called;
      CallUnmoved(c, s, call);
    }
  }

  lemma {:induction false} RunStuck(c: Setup, file: Option<Content>, leftover: Option<Content>, ops: seq<Op>)
    requires c.faults.nonMonotonicTickets
    ensures Stuck(Run(c, Start(file, leftover), ops).world.svc)
  {
    assert Stuck(FRESH_SERVICE);
    hide Stuck, Reaches, Run, Called;
    RunReaches(c, Start(file, leftover), ops);
    forall x, call | Stuck(x)
      ensures Stuck(Called(c, x, call))
    {
      CallStuck(c, x, call);
    }
    ReachesKeeps(c, FRESH_SERVICE, Run(c, Start(file, leftover), ops).world.svc, ANYTHING, x => Stuck(x));
  }

  /** P2 is not vacuous: with the broken ticket source, every run that issues two tickets fails it. */
  lemma {:induction false} BrokenTicketsAreCaught(
    c: Setup, file: Option<Content>, leftover: Option<Content>, ops: seq<Op>, i: nat, j: nat)
    requires c.faults.nonMonotonicTickets
    requires var log := Run(c, Start(file, leftover), ops).world.svc.log;
             i < j < |log| && log[i].event.TicketIssued? && log[j].event.TicketIssued?
    ensures P2Found(Run(c, Start(file, leftover), ops).world.svc.log) != []
  {
    hide Run, P2Found, BarriersExceed, AcceptedInForce;
    RunStuck(c, file, leftover, ops);
    P2Means(Run(c, Start(file, leftover), ops).world.svc.log);
  }
}
