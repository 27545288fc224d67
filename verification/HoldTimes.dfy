/** Bounded hold: driven through the harness, no hold outlives its grant by more than the hold ceiling
    and one lease, unless broken tickets and double grants let two holds share a ticket. */
module HoldTimes {
  import opened Types
  import opened Histories
  import opened Locks
  import opened HoldLists
  import opened Harnesses
  import opened Runs
  import opened ServiceCalls
  import opened Attempts
  import opened Fencing
  import opened TicketRuns
  import opened Holds

  // ---------- The latest grant of a ticket

  predicate Grants(event: Event, ticket: nat) {
    event.TakeGranted? && event.ticket == ticket
  }

  /** To whom, and when, the ticket was last granted. */
  function GrantOf(log: Log, ticket: nat): Option<(HolderId, nat)> {
    if log == [] then None
    else
      var last := log[|log| - 1];
      if Grants(last.event, ticket) then Some((last.event.holder, last.at))
      else GrantOf(log[..|log| - 1], ticket)
  }

  lemma {:induction false} GrantKept(log: Log, log': Log, ticket: nat)
    requires log <= log' && forall i | |log| <= i < |log'| :: !Grants(log'[i].event, ticket)
    ensures GrantOf(log', ticket) == GrantOf(log, ticket)
    decreases |log'|
  {
    if |log'| > |log| {
      GrantKept(log, log'[..|log'| - 1], ticket);
    } else {
      assert log' == log;
    }
  }

  /** The entry at i is the latest grant of this ticket, and was to this holder. */
  ghost predicate LatestGrant(log: Log, i: int, holder: HolderId, ticket: nat) {
    GrantAt(log, i, holder, ticket) && forall j | i < j < |log| :: !Grants(log[j].event, ticket)
  }

  lemma {:induction false} GrantIsLogged(log: Log, ticket: nat) returns (i: nat)
    requires GrantOf(log, ticket).Some?
    ensures LatestGrant(log, i, GrantOf(log, ticket).value.0, ticket)
    ensures log[i].at == GrantOf(log, ticket).value.1
  {
    var n := |log| - 1;
    if Grants(log[n].event, ticket) {
      i := n;
    } else {
      i := GrantIsLogged(log[..n], ticket);
    }
  }

  lemma {:induction false} GrantIsKnown(log: Log, i: int, holder: HolderId, ticket: nat)
    requires GrantAt(log, i, holder, ticket)
    ensures GrantOf(log, ticket).Some?
  {
    if i < |log| - 1 {
      GrantIsKnown(log[..|log| - 1], i, holder, ticket);
    }
  }

  /** The latest grant is no earlier than any other. */
  lemma {:induction false} LatestIsLatest(s: Service, i: int, holder: HolderId, ticket: nat)
    requires TimesOk(s) && GrantAt(s.log, i, holder, ticket)
    ensures GrantOf(s.log, ticket).Some? && s.log[i].at <= GrantOf(s.log, ticket).value.1
  {
    GrantIsKnown(s.log, i, holder, ticket);
    var m := GrantIsLogged(s.log, ticket);
    assert Grants(s.log[i].event, ticket);
  }

  // ---------- The invariant

  /** Two holds can be on one ticket. */
  predicate Shares(c: Setup) {
    c.faults.nonMonotonicTickets && c.faults.grantTwice
  }

  /** A hold is its ticket's latest grant, and its deadline is bounded from it. */
  ghost predicate HoldTimed(c: Setup, h: HeldBy, log: Log) {
    && GrantOf(log, h.ticket).Some?
    && GrantOf(log, h.ticket).value.0 == h.holder
    && h.deadline <= GrantOf(log, h.ticket).value.1 + c.holdCeiling + c.lease
  }

  ghost predicate HeldTimed(c: Setup, held: seq<HeldBy>, log: Log) {
    forall h | h in held :: HoldTimed(c, h, log)
  }

  ghost predicate TimedOk(c: Setup, s: Service) {
    HeldTimed(c, s.held, s.log) && (!c.faults.nonMonotonicTickets ==> TicketsOk(s))
  }

  ghost predicate NoGrant(log: Log, log': Log) {
    log <= log' && forall i | |log| <= i < |log'| :: !log'[i].event.TakeGranted?
  }

  /** Fewer holds and no new grant. */
  lemma {:induction false} FewerTimed(c: Setup, s: Service, s': Service)
    requires HeldTimed(c, s.held, s.log) && NoGrant(s.log, s'.log)
    requires forall h | h in s'.held :: h in s.held
    ensures HeldTimed(c, s'.held, s'.log)
  {
    hide GrantOf;
    forall h | h in s'.held
      ensures HoldTimed(c, h, s'.log)
    {
      GrantKept(s.log, s'.log, h.ticket);
      assert HoldTimed(c, h, s.log);
    }
  }

  lemma {:induction false} SweptTimed(c: Setup, s: Service)
    requires HeldTimed(c, s.held, s.log)
    ensures HeldTimed(c, Swept(s).held, Swept(s).log)
  {
    hide HeldTimed;
    AliveMeans(s.held, s.now);
    AppendAllContents(s.log, s.now, Expiries(Lapsed(s.held, s.now)));
    FewerTimed(c, s, Swept(s));
  }

  /** Granting, for one lease from now, a ticket nobody holds. */
  lemma {:induction false} GrantedTimed(c: Setup, s: Service, holder: HolderId)
    requires HeldTimed(c, s.held, s.log) && (forall h | h in s.held :: h.ticket != Issued(c, s).1)
    ensures HeldTimed(c, Granted(c, s, holder).0.held, Granted(c, s, holder).0.log)
  {
    var t := Issued(c, s).1;
    var granted := HeldBy(holder, t, s.now + c.lease);
    var s' := Granted(c, s, holder).0;
    assert GrantOf(s'.log, t) == Some((holder, s.now));
    hide GrantOf;
    forall h | h in s'.held
      ensures HoldTimed(c, h, s'.log)
    {
      if h in s.held {
        assert HoldTimed(c, h, s.log);
        GrantKept(s.log, s'.log, h.ticket);
      } else {
        assert h == granted;
      }
    }
  }

  lemma {:induction false} CallTimed(c: Setup, s: Service, call: Call)
    requires !Shares(c) && TimedOk(c, s) && !call.Extend?
    ensures TimedOk(c, Called(c, s, call))
  {
    if !c.faults.nonMonotonicTickets {
      CallTickets(c, s, call);
    }
    hide TicketsOk, Swept, Without, Granted, HeldTimed;
    match call
    case Tick(_) =>
    case Sweep => SweptTimed(c, s);
    case Note(event) =>
      if Neutral(event) {
        FewerTimed(c, s, Record(s, event));
      }
    case Grant(holder) =>
      if MayGrant(c, s) {
        GrantedTimed(c, s, holder);
      }
    case GiveUp(holding) =>
      WithoutMeans(s.held, holding.ticket);
      FewerTimed(c, s, Returned(s, holding));
    case Raise =>
    case Revoke => FewerTimed(c, s, Cleared(s));
    case ExpireAll =>
      AppendAllContents(s.log, s.now, Expiries(s.held));
      FewerTimed(c, s, ForceExpired(s));
  }

  lemma {:induction false} ReachesTimed(c: Setup, s: Service, s': Service)
    requires !Shares(c) && TimedOk(c, s) && Reaches(c, s, s', NO_RENEWAL)
    ensures TimedOk(c, s')
  {
    hide TimedOk, Reaches, Called;
    forall x, call | TimedOk(c, x) && Permits(NO_RENEWAL, call)
      ensures TimedOk(c, Called(c, x, call))
    {
      CallTimed(c, x, call);
    }
    ReachesKeeps(c, s, s', NO_RENEWAL, x => TimedOk(c, x));
  }

  // ---------- Renewal, which only the harness bounds

  /** Renewing a hold whose grant is younger than the ceiling. */
  lemma {:induction false} RenewalTimed(c: Setup, s: Service, i: nat)
    requires i < |s.held| && HeldTimed(c, s.held, s.log)
    requires GrantOf(s.log, s.held[i].ticket).Some?
    requires s.now < GrantOf(s.log, s.held[i].ticket).value.1 + c.holdCeiling
    ensures HeldTimed(c, Extended(c, s, i).held, s.log)
  {
    hide GrantOf;
    var held' := Extended(c, s, i).held;
    forall h | h in held'
      ensures HoldTimed(c, h, s.log)
    {
      var j :| 0 <= j < |held'| && held'[j] == h;
      assert s.held[j] in s.held;
      assert HoldTimed(c, s.held[j], s.log);
    }
  }

  lemma {:induction false} SweptGrantOf(s: Service, ticket: nat)
    ensures GrantOf(Swept(s).log, ticket) == GrantOf(s.log, ticket)
  {
    hide GrantOf;
    AppendAllContents(s.log, s.now, Expiries(Lapsed(s.held, s.now)));
    GrantKept(s.log, Swept(s).log, ticket);
  }

  lemma {:induction false} RenewedTimed(c: Setup, s: Service, holding: Holding)
    requires HeldTimed(c, s.held, s.log)
    requires GrantOf(s.log, holding.ticket).Some? && s.now < GrantOf(s.log, holding.ticket).value.1 + c.holdCeiling
    ensures HeldTimed(c, Renewed(c, s, holding).0.held, Renewed(c, s, holding).0.log)
  {
    hide HeldTimed, GrantOf, Swept;
    SweptTimed(c, s);
    SweptGrew(s);
    SweptGrantOf(s, holding.ticket);
    var found := FirstOn(Swept(s).held, holding.ticket);
    if found.Some? {
      RenewalTimed(c, Swept(s), found.value);
    }
  }

  lemma {:induction false} SweptGrew(s: Service)
    ensures Swept(s).now == s.now
  {
  }

  /** Progress renews only before the ceiling of the open entry, and that entry's grant is no later
      than the latest grant of its ticket. */
  lemma {:induction false} ProgressTimed(c: Setup, w: World, holder: HolderId)
    requires HeldTimed(c, w.svc.held, w.svc.log) && Backed(c, w)
    ensures var s' := Progressed(c, w, holder).0.svc; HeldTimed(c, s'.held, s'.log)
  {
    hide HeldTimed, TimesOk, Renewed, GrantOf, AttemptsBacked;
    if holder in w.open {
      var o := w.open[holder];
      assert OpenBacked(w.svc, holder, o);
      var i :| GrantAt(w.svc.log, i, holder, o.holding.ticket) && w.svc.log[i].at == o.takenAt;
      LatestIsLatest(w.svc, i, holder, o.holding.ticket);
      FewerTimed(c, w.svc, Record(w.svc, CeilingReached(holder)));
      if w.svc.now < o.takenAt + c.holdCeiling {
        RenewedTimed(c, w.svc, o.holding);
      }
    }
  }

  lemma {:induction false} StepTimed(c: Setup, rs: RunState, op: Op)
    requires !Shares(c) && TimedOk(c, rs.world.svc) && Backed(c, rs.world)
    ensures TimedOk(c, Step(c, rs, op).world.svc)
  {
    hide TicketsOk, HeldTimed, Reaches, Backed, Progressed;
    if op.Progress? {
      ProgressTimed(c, rs.world, op.holder);
      if !c.faults.nonMonotonicTickets {
        ProgressReaches(c, rs.world, op.holder);
        ReachesTickets(c, rs.world.svc, Progressed(c, rs.world, op.holder).0.svc);
      }
    } else {
      hide Step;
      StepReaches(c, rs, op, NO_RENEWAL);
      ReachesTimed(c, rs.world.svc, Step(c, rs, op).world.svc);
    }
  }

  lemma {:induction false} RunTimed(c: Setup, file: Option<Content>, leftover: Option<Content>, ops: seq<Op>)
    requires !Shares(c)
    ensures TimedOk(c, Run(c, Start(file, leftover), ops).world.svc)
  {
    if ops == [] {
    } else {
      hide TimedOk, Backed, Step;
      RunTimed(c, file, leftover, ops[..|ops| - 1]);
      RunBacked(c, file, leftover, ops[..|ops| - 1]);
      StepTimed(c, Run(c, Start(file, leftover), ops[..|ops| - 1]), ops[|ops| - 1]);
    }
  }

  /** Every hold is bounded from its own grant, the latest of its ticket: whatever progress is
      reported, its deadline is at most the hold ceiling and one lease after that; so any operation
      from that instant on finds it gone. Only where broken tickets meet double grants can two holds
      share a ticket, and there it fails. */
  lemma {:induction false} HoldsAreBounded(
    c: Setup, file: Option<Content>, leftover: Option<Content>, ops: seq<Op>, h: HeldBy) returns (i: nat)
    requires !(c.faults.nonMonotonicTickets && c.faults.grantTwice)
    requires h in Run(c, Start(file, leftover), ops).world.svc.held
    ensures var s := Run(c, Start(file, leftover), ops).world.svc;
            && LatestGrant(s.log, i, h.holder, h.ticket)
            && h.deadline <= s.log[i].at + c.holdCeiling + c.lease
            && (s.log[i].at + c.holdCeiling + c.lease <= s.now ==> h !in Swept(s).held)
            && (!c.faults.nonMonotonicTickets ==>
                  forall j | 0 <= j < |s.log| && Grants(s.log[j].event, h.ticket) :: j == i)
  {
    hide Run, GrantOf, StampsOk, HoldsOk;
    var s := Run(c, Start(file, leftover), ops).world.svc;
    RunTimed(c, file, leftover, ops);
    assert HoldTimed(c, h, s.log);
    i := GrantIsLogged(s.log, h.ticket);
    AliveMeans(s.held, s.now);
    if !c.faults.nonMonotonicTickets {
      forall j | 0 <= j < |s.log| && Grants(s.log[j].event, h.ticket)
        ensures j == i
      {
        OneGrant(s.log, i, j, h.holder, s.log[j].event.holder, h.ticket);
      }
    }
  }
}
