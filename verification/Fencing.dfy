/** Tickets, under monotonic issue: one counter orders every issue, grant and barrier, the history
    replays to the lock state, and a ticket that has left the held set never comes back. */
module Fencing {
  import opened Types
  import opened Histories
  import opened Locks
  import opened HoldLists
  import opened ServiceCalls
  import opened Checkers

  // ---------- The history replays to the lock state

  /** The map is exactly the holds: the same tickets, each with its holder. */
  ghost predicate Mirrors(m: map<nat, HolderId>, held: seq<HeldBy>) {
    && m.Keys == Tickets(held)
    && forall h | h in held :: h.ticket in m && m[h.ticket] == h.holder
  }

  lemma {:induction false} ReplayExpiries(log: Log, now: nat, held: seq<HeldBy>)
    ensures Replay(AppendAll(log, now, Expiries(held))) == Replay(log) - Tickets(held)
  {
    if held == [] {
      assert Expiries(held) == [];
    } else {
      var rest, last := held[..|held| - 1], held[|held| - 1];
      var before := AppendAll(log, now, Expiries(rest));
      var event := LeaseExpired(last.holder, last.ticket);
      ReplayExpiries(log, now, rest);
      ReplayNext(before, now, event);
      assert AppendAll(log, now, Expiries(held)) == Append(before, now, event) by {
        hide Replay;
        assert Expiries(held)[..|held| - 1] == Expiries(rest);
        assert Expiries(held)[|held| - 1] == event;
      }
      TicketsOfLast(held);
    }
  }

  lemma {:induction false} ReplayNext(log: Log, at: nat, event: Event)
    ensures Replay(Append(log, at, event)) == ReplayStep(Replay(log), event)
  {
    assert Append(log, at, event)[..|log|] == log;
  }

  // ---------- One counter orders every ticket event

  predicate Stamped(event: Event) {
    event.TicketIssued? || event.TakeGranted? || (event.Revoked? && event.barrier.Some?)
  }

  /** Where the doubled ticket counter stood just before the event. */
  function Low(event: Event): int
    requires Stamped(event)
  {
    match event
    case TicketIssued(t) => 2 * t
    case TakeGranted(_, t) => 2 * t + 1
    case Revoked(b) => 2 * b.value - 2
  }

  /** And where it stands after it. */
  function High(event: Event): int
    requires Stamped(event)
  {
    match event
    case TicketIssued(t) => 2 * t + 1
    case TakeGranted(_, t) => 2 * t + 2
    case Revoked(b) => 2 * b.value
  }

  /** Where the doubled counter stands at the end of the log; it starts at ticket 1. */
  function Top(log: Log): int {
    if log == [] then 2
    else if Stamped(log[|log| - 1].event) then High(log[|log| - 1].event)
    else Top(log[..|log| - 1])
  }

  /** Each issue, grant and barrier begins no lower than the earlier ones left the counter. */
  ghost predicate StampsOk(log: Log) {
    log != [] ==>
      var rest, event := log[..|log| - 1], log[|log| - 1].event;
      && StampsOk(rest)
      && (event.Revoked? ==> event.barrier.Some?)
      && (Stamped(event) ==> Top(rest) <= Low(event))
  }

  /** The log grew without any ticket event. */
  ghost predicate Unstamped(log: Log, log': Log) {
    && log <= log'
    && forall i | |log| <= i < |log'| ::
         !log'[i].event.TicketIssued? && !log'[i].event.TakeGranted? && !log'[i].event.Revoked?
  }

  /** The lowest ticket that can still be held: the latest barrier, or the first ticket. */
  function Floor(log: Log): nat {
    match LatestBarrier(log)
    case Some(b) => b
    case None => 1
  }

  lemma {:induction false} UnstampedKeeps(log: Log, log': Log)
    requires Unstamped(log, log')
    ensures Floor(log') == Floor(log) && Top(log') == Top(log)
    ensures StampsOk(log) ==> StampsOk(log')
    decreases |log'|
  {
    if |log'| > |log| {
      assert Unstamped(log, log'[..|log'| - 1]);
      UnstampedKeeps(log, log'[..|log'| - 1]);
    } else {
      assert log' == log;
    }
  }

  lemma {:induction false} StampedNext(log: Log, at: nat, event: Event)
    requires StampsOk(log) && Stamped(event) && Top(log) <= Low(event)
    ensures StampsOk(Append(log, at, event)) && Top(Append(log, at, event)) == High(event)
  {
    assert Append(log, at, event)[..|log|] == log;
  }

  lemma {:induction false} FloorNext(log: Log, at: nat, event: Event)
    ensures Floor(Append(log, at, event)) ==
            if event.Revoked? then (if event.barrier.Some? then event.barrier.value else 1) else Floor(log)
  {
    assert Append(log, at, event)[..|log|] == log;
  }

  /** Held tickets are distinct, lie between the latest barrier and the counter, and are what the
      history replays to. */
  ghost predicate HoldsOk(held: seq<HeldBy>, log: Log, nextTicket: nat) {
    && Ascending(held)
    && (forall h | h in held :: Floor(log) <= h.ticket < nextTicket)
    && Mirrors(Replay(log), held)
  }

  ghost predicate TicketsOk(s: Service) {
    && StampsOk(s.log)
    && Top(s.log) <= 2 * s.nextTicket
    && HoldsOk(s.held, s.log, s.nextTicket)
  }

  // ---------- Every operation keeps it

  lemma {:induction false} MirrorsAlive(m: map<nat, HolderId>, held: seq<HeldBy>, now: nat)
    requires Mirrors(m, held) && Ascending(held)
    ensures Mirrors(m - Tickets(Lapsed(held, now)), Alive(held, now))
  {
    AliveMeans(held, now);
    SweepSplits(held, now);
  }

  /** Fewer holds, the same floor. */
  lemma {:induction false} HoldsKept(held: seq<HeldBy>, held': seq<HeldBy>, log: Log, log': Log, nextTicket: nat)
    requires HoldsOk(held, log, nextTicket)
    requires Ascending(held') && forall h | h in held' :: h in held
    requires Unstamped(log, log') && Mirrors(Replay(log'), held')
    ensures HoldsOk(held', log', nextTicket)
  {
    UnstampedKeeps(log, log');
  }

  lemma {:induction false} SweptTickets(s: Service)
    requires TicketsOk(s)
    ensures TicketsOk(Swept(s))
  {
    var lapsed := Lapsed(s.held, s.now);
    AliveMeans(s.held, s.now);
    AliveAscending(s.held, s.now);
    ReplayExpiries(s.log, s.now, lapsed);
    MirrorsAlive(Replay(s.log), s.held, s.now);
    AppendAllContents(s.log, s.now, Expiries(lapsed));
    UnstampedKeeps(s.log, Swept(s).log);
    HoldsKept(s.held, Swept(s).held, s.log, Swept(s).log, s.nextTicket);
  }

  lemma {:induction false} RecordedTickets(s: Service, event: Event)
    requires TicketsOk(s) && Neutral(event)
    ensures TicketsOk(Record(s, event))
  {
    ReplayNext(s.log, s.now, event);
    UnstampedKeeps(s.log, Record(s, event).log);
    HoldsKept(s.held, s.held, s.log, Record(s, event).log, s.nextTicket);
  }

  lemma {:induction false} HoldsGranted(held: seq<HeldBy>, log: Log, at: nat, granted: HeldBy)
    requires HoldsOk(held, log, granted.ticket) && Floor(log) <= granted.ticket
    ensures var issued := Append(log, at, TicketIssued(granted.ticket));
            HoldsOk(held + [granted], Append(issued, at, TakeGranted(granted.holder, granted.ticket)),
                    granted.ticket + 1)
  {
    hide Replay, Floor;
    var issued := Append(log, at, TicketIssued(granted.ticket));
    ReplayNext(log, at, TicketIssued(granted.ticket));
    ReplayNext(issued, at, TakeGranted(granted.holder, granted.ticket));
    FloorNext(log, at, TicketIssued(granted.ticket));
    FloorNext(issued, at, TakeGranted(granted.holder, granted.ticket));
    assert forall h | h in held + [granted] :: h in held || h == granted;
  }

  lemma {:induction false} FloorBelowTop(log: Log)
    requires StampsOk(log)
    ensures 2 * Floor(log) <= Top(log)
  {
    if log == [] {
    } else {
      FloorBelowTop(log[..|log| - 1]);
    }
  }

  lemma {:induction false} GrantedTickets(c: Setup, s: Service, holder: HolderId)
    requires TicketsOk(s) && !c.faults.nonMonotonicTickets
    ensures TicketsOk(Granted(c, s, holder).0)
  {
    hide HoldsOk, StampsOk, Top, Floor;
    var ticket := s.nextTicket;
    var issued := Append(s.log, s.now, TicketIssued(ticket));
    FloorBelowTop(s.log);
    StampedNext(s.log, s.now, TicketIssued(ticket));
    StampedNext(issued, s.now, TakeGranted(holder, ticket));
    HoldsGranted(s.held, s.log, s.now, HeldBy(holder, ticket, s.now + c.lease));
  }

  lemma {:induction false} GivenBackHolds(held: seq<HeldBy>, log: Log, at: nat, holding: Holding, nextTicket: nat)
    requires HoldsOk(held, log, nextTicket)
    ensures HoldsOk(Without(held, holding.ticket),
                    Append(log, at, GiveBack(holding.holder, holding.ticket)), nextTicket)
  {
    hide Replay, Without;
    var event := GiveBack(holding.holder, holding.ticket);
    WithoutMeans(held, holding.ticket);
    WithoutAscending(held, holding.ticket);
    ReplayNext(log, at, event);
    HoldsKept(held, Without(held, holding.ticket), log, Append(log, at, event), nextTicket);
  }

  lemma {:induction false} GivenBackTickets(s: Service, holding: Holding)
    requires TicketsOk(s)
    ensures TicketsOk(Returned(s, holding))
  {
    hide HoldsOk, StampsOk, Without;
    UnstampedKeeps(s.log, Append(s.log, s.now, GiveBack(holding.holder, holding.ticket)));
    GivenBackHolds(s.held, s.log, s.now, holding, s.nextTicket);
  }

  /** Renewal moves one deadline and nothing else. */
  lemma {:induction false} RenewalKeepsHolds(held: seq<HeldBy>, i: nat, deadline: nat, log: Log, nextTicket: nat)
    requires i < |held| && HoldsOk(held, log, nextTicket)
    ensures HoldsOk(held[i := held[i].(deadline := deadline)], log, nextTicket)
  {
    var held' := held[i := held[i].(deadline := deadline)];
    forall h | h in held'
      ensures Floor(log) <= h.ticket < nextTicket && h.ticket in Tickets(held)
      ensures Replay(log)[h.ticket] == h.holder
    {
      var j :| 0 <= j < |held'| && held'[j] == h;
      assert held[j] in held;
    }
    forall g | g in held
      ensures g.ticket in Tickets(held')
    {
      var j :| 0 <= j < |held| && held[j] == g;
      assert held'[j] in held';
    }
    assert Tickets(held') == Tickets(held);
  }

  lemma {:induction false} RenewalKeepsTickets(c: Setup, s: Service, i: nat)
    requires TicketsOk(s) && i < |s.held|
    ensures TicketsOk(Extended(c, s, i))
  {
    RenewalKeepsHolds(s.held, i, s.now + c.lease, s.log, s.nextTicket);
  }

  lemma {:induction false} RevokedTickets(s: Service)
    requires TicketsOk(s)
    ensures TicketsOk(Cleared(s))
  {
    StampedNext(s.log, s.now, Revoked(Some(s.nextTicket + 1)));
    hide StampsOk, HoldsOk;
  }

  lemma {:induction false} ForceExpiredTickets(s: Service)
    requires TicketsOk(s)
    ensures TicketsOk(ForceExpired(s))
  {
    ReplayExpiries(s.log, s.now, s.held);
    assert s.held == [] ==> Tickets(s.held) == {};
    assert Mirrors(Replay(ForceExpired(s).log), []);
    AppendAllContents(s.log, s.now, Expiries(s.held));
    UnstampedKeeps(s.log, ForceExpired(s).log);
    HoldsKept(s.held, [], s.log, ForceExpired(s).log, s.nextTicket);
  }
}
