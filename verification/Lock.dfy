/** The in-memory lock service: tickets, leases, the content version, and its four faults.

    Each operation is given twice: as a function on the service's state, which the theorems are
    about, and as a method that updates the fields in place and is proved to follow it. */
module Locks {
  import opened Types
  import opened Histories

  datatype HeldBy = HeldBy(holder: HolderId, ticket: nat, deadline: nat)

  /** Everything the service can see in one operation: the clock, its own fields, the log. */
  datatype Service = Service(
    now: nat,
    nextTicket: nat,
    lastIssued: nat,
    held: seq<HeldBy>,
    version: nat,
    log: Log)

  const FRESH_SERVICE := Service(0, 1, 0, [], 0, [])

  function Tickets(held: seq<HeldBy>): set<nat> {
    set h | h in held :: h.ticket
  }

  ghost predicate Ascending(held: seq<HeldBy>) {
    forall i, j | 0 <= i < j < |held| :: held[i].ticket < held[j].ticket
  }

  function Record(s: Service, event: Event): Service {
    s.(log := Append(s.log, s.now, event))
  }

  /** The holds whose lease has not lapsed, in order. */
  function Alive(held: seq<HeldBy>, now: nat): seq<HeldBy>
  {
    if held == [] then []
    else
      var rest, last := held[..|held| - 1], held[|held| - 1];
      Alive(rest, now) + if now < last.deadline then [last] else []
  }

  /** The holds whose lease has lapsed, in order. */
  function Lapsed(held: seq<HeldBy>, now: nat): seq<HeldBy>
  {
    if held == [] then []
    else
      var rest, last := held[..|held| - 1], held[|held| - 1];
      Lapsed(rest, now) + if last.deadline <= now then [last] else []
  }

  /** The holds on any other ticket, in order. */
  function Without(held: seq<HeldBy>, ticket: nat): seq<HeldBy>
  {
    if held == [] then []
    else
      var rest, last := held[..|held| - 1], held[|held| - 1];
      Without(rest, ticket) + if last.ticket != ticket then [last] else []
  }

  function Expiries(held: seq<HeldBy>): seq<Event>
  {
    seq(|held|, i requires 0 <= i < |held| => LeaseExpired(held[i].holder, held[i].ticket))
  }

  /** Expiry is observed, not timed: every operation first drops the lapsed holds. */
  function Swept(s: Service): Service {
    s.(held := Alive(s.held, s.now),
       log := AppendAll(s.log, s.now, Expiries(Lapsed(s.held, s.now))))
  }

  /** The ticket in force: the highest among the current holders. */
  function InForce(held: seq<HeldBy>): Option<nat> {
    if held == [] then None
    else
      var rest, last := held[..|held| - 1], held[|held| - 1];
      match InForce(rest)
      case None => Some(last.ticket)
      case Some(t) => Some(if last.ticket < t then t else last.ticket)
  }

  /** The first hold on this ticket. */
  function FirstOn(held: seq<HeldBy>, ticket: nat): (r: Option<nat>)
    ensures r.Some? ==> r.value < |held| && held[r.value].ticket == ticket
  {
    if held == [] then None
    else
      var rest, last := held[..|held| - 1], held[|held| - 1];
      match FirstOn(rest, ticket)
      case Some(i) => Some(i)
      case None => if last.ticket == ticket then Some(|rest|) else None
  }

  lemma {:induction false} FirstOnStays(held: seq<HeldBy>, ticket: nat, k: nat)
    requires k <= |held| && FirstOn(held[..k], ticket).Some?
    ensures FirstOn(held, ticket) == FirstOn(held[..k], ticket)
  {
    if k < |held| {
      assert held[..|held| - 1][..k] == held[..k];
      FirstOnStays(held[..|held| - 1], ticket, k);
    } else {
      assert held[..k] == held;
    }
  }

  function Issued(c: Setup, s: Service): (Service, nat) {
    if c.faults.nonMonotonicTickets then
      var value := if s.lastIssued < 1 then 1 else s.lastIssued;
      (Record(s.(lastIssued := value), TicketIssued(value)), value)
    else
      var value := s.nextTicket;
      (Record(s.(nextTicket := value + 1, lastIssued := value), TicketIssued(value)), value)
  }

  /** The service as it stands when it decides whether to grant. */
  function Asked(s: Service, holder: HolderId): Service {
    Record(Swept(s), TakeRequested(holder))
  }

  /** One more hold, on a ticket issued for it, for one lease. */
  function Granted(c: Setup, s: Service, holder: HolderId): (Service, Holding) {
    var (issued, ticket) := Issued(c, s);
    var pushed := issued.(held := issued.held + [HeldBy(holder, ticket, s.now + c.lease)]);
    (Record(pushed, TakeGranted(holder, ticket)), Holding(holder, ticket))
  }

  function Acquired(c: Setup, s: Service, holder: HolderId): (Service, Result<Holding, LockError>) {
    var asked := Asked(s, holder);
    if asked.held != [] && !c.faults.grantTwice then (asked, Err(Contended))
    else
      var (granted, holding) := Granted(c, asked, holder);
      (granted, Ok(holding))
  }

  function Released(c: Setup, s: Service, holding: Holding): Service {
    var swept := Swept(s);
    if holding.holder in c.faults.dropRelease then swept else Returned(swept, holding)
  }

  /** Every hold on the ticket goes, and the give-back is logged whether there was one or not. */
  function Returned(s: Service, holding: Holding): Service {
    Record(s.(held := Without(s.held, holding.ticket)), GiveBack(holding.holder, holding.ticket))
  }

  /** The hold at i has one lease from now. */
  function Extended(c: Setup, s: Service, i: nat): Service
    requires i < |s.held|
  {
    s.(held := s.held[i := s.held[i].(deadline := s.now + c.lease)])
  }

  function Renewed(c: Setup, s: Service, holding: Holding): (Service, Result<(), LockError>) {
    var swept := Swept(s);
    if holding.holder in c.faults.swallowKeepalive then (swept, Ok(()))
    else
      match FirstOn(swept.held, holding.ticket)
      case None => (swept, Err(Expired))
      case Some(i) => (Extended(c, swept, i), Ok(()))
  }

  /** Nothing is acquired to do this, and the holder is not told. */
  function ForceReleased(s: Service): (Service, nat) {
    (Cleared(Swept(s)), s.nextTicket + 1)
  }

  /** Every hold goes, and the counter is raised to a barrier above every ticket so far. */
  function Cleared(s: Service): Service {
    Record(s.(held := [], nextTicket := s.nextTicket + 1), Revoked(Some(s.nextTicket + 1)))
  }

  function ForceExpired(s: Service): Service {
    s.(held := [], log := AppendAll(s.log, s.now, Expiries(s.held)))
  }

  /** The atomic step: ticket and version are compared, and the version raised, indivisibly. */
  function Committed(s: Service, holding: Holding, expected: nat): (Service, Result<nat, Refusal>) {
    var swept := Swept(s);
    if holding.ticket !in Tickets(swept.held) || InForce(swept.held) != Some(holding.ticket) then
      (swept, Err(StaleTicket(holding.ticket, InForce(swept.held))))
    else if swept.version != expected then
      (swept, Err(StaleVersion(expected, swept.version)))
    else
      (swept.(version := swept.version + 1), Ok(swept.version + 1))
  }

  class FakeLockService {
    const setup: Setup
    const history: History
    const clock: Clock
    var nextTicket: nat
    var lastIssued: nat
    var held: seq<HeldBy>
    var version: nat

    function State(): Service
      reads this, history, clock
    {
      Service(clock.now, nextTicket, lastIssued, held, version, history.entries)
    }

    constructor (setup: Setup, history: History, clock: Clock)
      ensures this.setup == setup && this.history == history && this.clock == clock
      ensures State() == FRESH_SERVICE.(now := clock.now, log := history.entries)
    {
      this.setup := setup;
      this.history := history;
      this.clock := clock;
      nextTicket, lastIssued, held, version := 1, 0, [], 0;
    }

    /** Reports each of these holds as expired. */
    method RecordExpiries(expired: seq<HeldBy>)
      modifies history
      ensures history.entries == AppendAll(old(history.entries), clock.now, Expiries(expired))
    {
      ghost var events := Expiries(expired);
      var i := 0;
      while i < |expired|
        invariant 0 <= i <= |expired|
        invariant history.entries == AppendAll(old(history.entries), clock.now, events[..i])
      {
        history.Record(clock.now, LeaseExpired(expired[i].holder, expired[i].ticket));
        assert events[..i + 1][..i] == events[..i];
        i := i + 1;
      }
      assert events[..i] == events;
    }

    method Sweep()
      modifies this`held, history
      ensures State() == Swept(old(State()))
    {
      var kept, expired: seq<HeldBy> := [], [];
      var i := 0;
      while i < |held|
        invariant 0 <= i <= |held|
        invariant kept == Alive(held[..i], clock.now)
        invariant expired == Lapsed(held[..i], clock.now)
      {
        assert held[..i + 1][..i] == held[..i];
        if held[i].deadline <= clock.now {
          expired := expired + [held[i]];
        } else {
          kept := kept + [held[i]];
        }
        i := i + 1;
      }
      assert held[..i] == held;
      held := kept;
      RecordExpiries(expired);
    }

    method Issue() returns (ticket: nat)
      modifies this`nextTicket, this`lastIssued, history
      ensures (State(), ticket) == Issued(setup, old(State()))
    {
      if setup.faults.nonMonotonicTickets {
        ticket := if lastIssued < 1 then 1 else lastIssued;
      } else {
        ticket := nextTicket;
        nextTicket := nextTicket + 1;
      }
      lastIssued := ticket;
      history.Record(clock.now, TicketIssued(ticket));
    }

    method Acquire(holder: HolderId) returns (r: Result<Holding, LockError>)
      modifies this, history
      ensures (State(), r) == Acquired(setup, old(State()), holder)
    {
      hide Swept, Issued;
      Sweep();
      history.Record(clock.now, TakeRequested(holder));
      if held != [] && !setup.faults.grantTwice {
        return Err(Contended);
      }
      var ticket := Issue();
      held := held + [HeldBy(holder, ticket, clock.now + setup.lease)];
      history.Record(clock.now, TakeGranted(holder, ticket));
      return Ok(Holding(holder, ticket));
    }

    method Release(holding: Holding)
      modifies this, history
      ensures State() == Released(setup, old(State()), holding)
    {
      Sweep();
      if holding.holder in setup.faults.dropRelease {
        return;
      }
      var kept: seq<HeldBy> := [];
      var i := 0;
      while i < |held|
        invariant 0 <= i <= |held|
        invariant kept == Without(held[..i], holding.ticket)
      {
        assert held[..i + 1][..i] == held[..i];
        if held[i].ticket != holding.ticket {
          kept := kept + [held[i]];
        }
        i := i + 1;
      }
      assert held[..i] == held;
      held := kept;
      history.Record(clock.now, GiveBack(holding.holder, holding.ticket));
    }

    method Find(ticket: nat) returns (r: Option<nat>)
      ensures r == FirstOn(held, ticket)
    {
      var i := 0;
      while i < |held|
        invariant 0 <= i <= |held|
        invariant FirstOn(held[..i], ticket) == None
      {
        assert held[..i + 1][..i] == held[..i];
        if held[i].ticket == ticket {
          FirstOnStays(held, ticket, i + 1);
          return Some(i);
        }
        i := i + 1;
      }
      assert held[..i] == held;
      return None;
    }

    method Keepalive(holding: Holding) returns (r: Result<(), LockError>)
      modifies this, history
      ensures (State(), r) == Renewed(setup, old(State()), holding)
    {
      Sweep();
      if holding.holder in setup.faults.swallowKeepalive {
        return Ok(());
      }
      var found := Find(holding.ticket);
      match found {
        case None =>
          return Err(Expired);
        case Some(i) =>
          held := held[i := held[i].(deadline := clock.now + setup.lease)];
          return Ok(());
      }
    }

    method ForceRelease() returns (barrier: nat)
      modifies this, history
      ensures (State(), barrier) == ForceReleased(old(State()))
    {
      Sweep();
      held := [];
      nextTicket := nextTicket + 1;
      barrier := nextTicket;
      history.Record(clock.now, Revoked(Some(barrier)));
    }

    method ForceExpire()
      modifies this, history
      ensures State() == ForceExpired(old(State()))
    {
      var holders := held;
      held := [];
      RecordExpiries(holders);
    }

    method CurrentVersion() returns (v: nat)
      modifies this, history
      ensures State() == Swept(old(State())) && v == version == old(version)
    {
      Sweep();
      v := version;
    }

    method Commit(holding: Holding, expected: nat) returns (r: Result<nat, Refusal>)
      modifies this, history
      ensures (State(), r) == Committed(old(State()), holding, expected)
    {
      Sweep();
      var current := InForce(held);
      if holding.ticket !in Tickets(held) {
        return Err(StaleTicket(holding.ticket, current));
      }
      if current != Some(holding.ticket) {
        return Err(StaleTicket(holding.ticket, current));
      }
      if version != expected {
        return Err(StaleVersion(expected, version));
      }
      version := version + 1;
      return Ok(version);
    }
  }
}
