/** Fencing over whole runs with monotonic tickets: the lock state can be rebuilt from the log,
    lost tickets stay lost, and barriers separate the tickets before them from those after. */
module TicketRuns {
  import opened Types
  import opened Histories
  import opened Locks
  import opened HoldLists
  import opened Harnesses
  import opened Runs
  import opened ServiceCalls
  import opened Growth
  import opened CheckerMeaning
  import opened Fencing

  // ---------- Every step keeps the ticket invariant

  lemma {:induction false} CallTickets(c: Setup, s: Service, call: Call)
    requires TicketsOk(s) && !c.faults.nonMonotonicTickets
    ensures TicketsOk(Called(c, s, call))
  {
    hide HoldsOk, StampsOk, Swept, Granted, Returned, Extended, Cleared, ForceExpired;
    match call
    case Tick(_) =>
    case Sweep => SweptTickets(s);
    case Note(event) =>
      if Neutral(event) {
        RecordedTickets(s, event);
      }
    case Grant(holder) => GrantedTickets(c, s, holder);
    case GiveUp(holding) => GivenBackTickets(s, holding);
    case Extend(ticket) =>
      var found := FirstOn(s.held, ticket);
      if found.Some? {
        RenewalKeepsTickets(c, s, found.value);
      }
    case Raise =>
    case Revoke => RevokedTickets(s);
    case ExpireAll => ForceExpiredTickets(s);
  }

  lemma {:induction false} ReachesTickets(c: Setup, s: Service, s': Service)
    requires Reaches(c, s, s') && TicketsOk(s) && !c.faults.nonMonotonicTickets
    ensures TicketsOk(s')
  {
    hide TicketsOk, Reaches, Called;
    forall x, call | TicketsOk(x)
      ensures TicketsOk(Called(c, x, call))
    {
      CallTickets(c, x, call);
    }
    ReachesKeeps(c, s, s', ANYTHING, x => TicketsOk(x));
  }

  lemma {:induction false} HoldForWriteTickets(c: Setup, w: World, holder: HolderId)
    requires TicketsOk(w.svc) && !c.faults.nonMonotonicTickets
    ensures TicketsOk(HoldForWrite(c, w, holder).0.svc)
  {
    hide TicketsOk, Reaches, HoldForWrite;
    HoldForWriteReaches(c, w, holder);
    ReachesTickets(c, w.svc, HoldForWrite(c, w, holder).0.svc);
  }

  lemma {:induction false} RunTickets(c: Setup, file: Option<Content>, leftover: Option<Content>, ops: seq<Op>)
    requires !c.faults.nonMonotonicTickets
    ensures TicketsOk(Run(c, Start(file, leftover), ops).world.svc)
  {
    assert TicketsOk(FRESH_SERVICE);
    hide TicketsOk, Reaches, Run;
    RunReaches(c, Start(file, leftover), ops);
    ReachesTickets(c, FRESH_SERVICE, Run(c, Start(file, leftover), ops).world.svc);
  }

  // ---------- What the invariant says about positions in the log

  lemma {:induction false} StampBelowTop(log: Log, i: int)
    requires StampsOk(log) && 0 <= i < |log| && Stamped(log[i].event)
    ensures High(log[i].event) <= Top(log)
  {
    var n := |log| - 1;
    if i < n {
      StampBelowTop(log[..n], i);
    }
  }

  lemma {:induction false} StampsPairwise(log: Log, i: int, j: int)
    requires StampsOk(log) && 0 <= i < j < |log| && Stamped(log[i].event) && Stamped(log[j].event)
    ensures High(log[i].event) <= Low(log[j].event)
  {
    var n := |log| - 1;
    if j < n {
      StampsPairwise(log[..n], i, j);
    } else {
      StampBelowTop(log[..n], i);
    }
  }

  lemma {:induction false} RevocationsCarryBarriers(log: Log, i: int)
    requires StampsOk(log) && 0 <= i < |log| && log[i].event.Revoked?
    ensures log[i].event.barrier.Some?
  {
    if i < |log| - 1 {
      RevocationsCarryBarriers(log[..|log| - 1], i);
    }
  }

  lemma {:induction false} StampsIncreaseTickets(log: Log)
    requires StampsOk(log)
    ensures TicketsIncrease(log)
  {
    forall i, j | 0 <= i < j < |log| && log[i].event.TicketIssued? && log[j].event.TicketIssued?
      ensures log[i].event.ticket < log[j].event.ticket
    {
      StampsPairwise(log, i, j);
    }
  }

  /** Every barrier exceeds each ticket issued before it and is at most each ticket issued after
      it; barriers and tickets alike only grow. */
  lemma {:induction false} BarriersSeparate(c: Setup, file: Option<Content>, leftover: Option<Content>, ops: seq<Op>)
    requires !c.faults.nonMonotonicTickets
    ensures var log := Run(c, Start(file, leftover), ops).world.svc.log;
            && TicketsIncrease(log)
            && BarriersIncrease(log)
            && forall i, j | 0 <= i < |log| && 0 <= j < |log| && log[i].event.Revoked? && log[j].event.TicketIssued? ::
                 if j < i then log[j].event.ticket < log[i].event.barrier.value
                 else log[i].event.barrier.value <= log[j].event.ticket
  {
    var log := Run(c, Start(file, leftover), ops).world.svc.log;
    RunTickets(c, file, leftover, ops);
    StampsIncreaseTickets(log);
    forall i | 0 <= i < |log| && log[i].event.Revoked?
      ensures log[i].event.barrier.Some?
    {
      RevocationsCarryBarriers(log, i);
    }
    forall i, j | 0 <= i < j < |log| && Stamped(log[i].event) && Stamped(log[j].event)
      ensures High(log[i].event) <= Low(log[j].event)
    {
      StampsPairwise(log, i, j);
    }
  }

  // ---------- A ticket that is gone stays gone

  /** Nothing that was gone comes back: tickets held later were held before or are new. */
  ghost predicate Onward(s: Service, s': Service) {
    && s.nextTicket <= s'.nextTicket
    && forall t | t in Tickets(s'.held) :: t in Tickets(s.held) || s.nextTicket <= t
  }

  lemma {:induction false} ExtendedOnward(c: Setup, s: Service, i: nat)
    requires i < |s.held|
    ensures Onward(s, Extended(c, s, i))
  {
    var held' := Extended(c, s, i).held;
    forall h | h in held'
      ensures h.ticket in Tickets(s.held)
    {
      var j :| 0 <= j < |held'| && held'[j] == h;
      assert s.held[j] in s.held;
    }
  }

  lemma {:induction false} CallOnward(c: Setup, s: Service, call: Call)
    requires !c.faults.nonMonotonicTickets
    ensures Onward(s, Called(c, s, call))
  {
    hide Alive, Lapsed, Without, FirstOn, Expiries, AppendAll, Extended;
    match call
    case Sweep => AliveMeans(s.held, s.now);
    case GiveUp(holding) => WithoutMeans(s.held, holding.ticket);
    case Extend(ticket) =>
      if FirstOn(s.held, ticket).Some? {
        ExtendedOnward(c, s, FirstOn(s.held, ticket).value);
      }
    case _ =>
  }

  lemma {:induction false} ReachesOnward(c: Setup, s: Service, s': Service)
    requires Reaches(c, s, s') && !c.faults.nonMonotonicTickets
    ensures Onward(s, s')
  {
    assert Onward(s, s);
    hide Onward, Reaches, Called;
    forall x, call | Onward(s, x)
      ensures Onward(s, Called(c, x, call))
    {
      CallOnward(c, x, call);
    }
    ReachesKeeps(c, s, s', ANYTHING, x => Onward(s, x));
  }

  /** Whatever happens next, a ticket held then was held before or is new. */
  lemma {:induction false} RunOnward(c: Setup, rs: RunState, ops: seq<Op>)
    requires !c.faults.nonMonotonicTickets
    ensures Onward(rs.world.svc, Run(c, rs, ops).world.svc)
  {
    hide Onward, Reaches, Run;
    RunReaches(c, rs, ops);
    ReachesOnward(c, rs.world.svc, Run(c, rs, ops).world.svc);
  }

  /** Fencing is permanent: an issued ticket that is no longer held is never held again, whatever
      happens next, and every later commit on it is refused as stale. */
  lemma {:induction false} FencingIsPermanent(
    c: Setup, file: Option<Content>, leftover: Option<Content>, past: seq<Op>, future: seq<Op>,
    i: nat, holder: HolderId, expected: nat)
    requires !c.faults.nonMonotonicTickets
    requires var s := Run(c, Start(file, leftover), past).world.svc;
             && i < |s.log| && s.log[i].event.TicketIssued?
             && s.log[i].event.ticket !in Tickets(s.held)
    ensures var t := Run(c, Start(file, leftover), past).world.svc.log[i].event.ticket;
            var s := Run(c, Start(file, leftover), past + future).world.svc;
            && t !in Tickets(s.held)
            && Committed(s, Holding(holder, t), expected).1.Err?
            && Committed(s, Holding(holder, t), expected).1.error.StaleTicket?
  {
    var rs := Run(c, Start(file, leftover), past);
    RunTickets(c, file, leftover, past);
    StampBelowTop(rs.world.svc.log, i);
    RunConcat(c, Start(file, leftover), past, future);
    RunOnward(c, rs, future);
    var s := Run(c, rs, future).world.svc;
    AliveMeans(s.held, s.now);
  }

  /** Revocation is final, and asks nobody: after it, no ticket issued before it is ever held again
      and no later commit on one succeeds, whoever asks and whatever happens next. */
  lemma {:induction false} RevocationIsFinal(
    c: Setup, file: Option<Content>, leftover: Option<Content>, past: seq<Op>, future: seq<Op>,
    i: nat, holder: HolderId, expected: nat)
    requires !c.faults.nonMonotonicTickets
    requires var s := Run(c, Start(file, leftover), past).world.svc;
             i < |s.log| && s.log[i].event.TicketIssued?
    ensures var t := Run(c, Start(file, leftover), past).world.svc.log[i].event.ticket;
            var s := Run(c, Start(file, leftover), past + [Op.ForceRelease] + future).world.svc;
            && t !in Tickets(s.held)
            && Committed(s, Holding(holder, t), expected).1.Err?
            && Committed(s, Holding(holder, t), expected).1.error.StaleTicket?
  {
    var rs := Run(c, Start(file, leftover), past);
    var revoking := past + [Op.ForceRelease];
    StepReaches(c, rs, Op.ForceRelease);
    hide Run, Step, Reaches, Committed;
    ReachesGrows(c, rs.world.svc, Run(c, Start(file, leftover), revoking).world.svc);
    FencingIsPermanent(c, file, leftover, revoking, future, i, holder, expected);
  }
}
