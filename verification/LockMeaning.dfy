/** What the service's operations mean, said about the holds and not about how they are computed. */
module LockMeaning {
  import opened Types
  import opened Histories
  import opened Locks
  import opened HoldLists

  /** The lease has not lapsed. */
  predicate Live(s: Service, h: HeldBy) {
    h in s.held && s.now < h.deadline
  }

  ghost predicate LiveOn(s: Service, ticket: nat) {
    exists h :: Live(s, h) && h.ticket == ticket
  }

  /** The ticket is live, and no live one is higher. */
  ghost predicate TopLive(s: Service, ticket: nat) {
    LiveOn(s, ticket) && forall h | Live(s, h) :: h.ticket <= ticket
  }

  /** The highest live ticket, if anything is live. */
  ghost predicate IsTop(s: Service, top: Option<nat>) {
    match top
    case None => forall h :: !Live(s, h)
    case Some(t) => TopLive(s, t)
  }

  /** The log grew by exactly these events, in this order, now. */
  ghost predicate Adds(log: Log, log': Log, now: nat, events: seq<Event>) {
    && log <= log'
    && |log'| == |log| + |events|
    && forall i | 0 <= i < |events| :: log'[|log| + i] == Entry(|log| + i, now, events[i])
  }

  /** The expiries of the lapsed holds; SweptMeans says which. */
  function LapseEvents(s: Service): seq<Event> {
    Expiries(Lapsed(s.held, s.now))
  }

  lemma {:induction false} TicketsSwept(s: Service, ticket: nat)
    ensures ticket in Tickets(Swept(s).held) <==> LiveOn(s, ticket)
  {
    hide Alive;
    AliveMeans(s.held, s.now);
    if LiveOn(s, ticket) {
      var h :| Live(s, h) && h.ticket == ticket;
      assert h in Swept(s).held;
    }
    if ticket in Tickets(Swept(s).held) {
      var h :| h in Swept(s).held && h.ticket == ticket;
      assert Live(s, h);
    }
  }

  /** A sweep keeps exactly the live holds, and logs an expiry for each of the others and for nothing
      else; the order is that of the list, and nothing else changes. */
  lemma {:induction false} SweptMeans(s: Service)
    ensures Swept(s) == s.(held := Swept(s).held, log := Swept(s).log)
    ensures forall h :: h in Swept(s).held <==> Live(s, h)
    ensures SubsequenceOf(Swept(s).held, s.held)
    ensures Adds(s.log, Swept(s).log, s.now, LapseEvents(s))
    ensures exists lapsed: seq<HeldBy> ::
              && LapseEvents(s) == Expiries(lapsed)
              && SubsequenceOf(lapsed, s.held)
              && (forall h | h in lapsed :: !Live(s, h))
              && multiset(lapsed) + multiset(Swept(s).held) == multiset(s.held)
  {
    hide Alive, Lapsed;
    AliveMeans(s.held, s.now);
    var lapsed := Lapsed(s.held, s.now);
    LapsedMeans(s.held, s.now);
    HoldsSplit(s.held, s.now);
    HoldsInOrder(s.held, s.now);
    AppendAllContents(s.log, s.now, Expiries(lapsed));
  }

  /** A commit succeeds exactly when its ticket is on a live hold, no live hold has a higher one, and
      the version is the expected one. It then raises the version by one; otherwise it says which of
      these failed, the ticket first. Apart from that it sweeps. */
  lemma {:induction false} CommittedMeans(s: Service, holding: Holding, expected: nat)
    ensures var (s', r) := Committed(s, holding, expected);
            && (r.Ok? <==> TopLive(s, holding.ticket) && expected == s.version)
            && (r.Ok? ==> r.value == s.version + 1)
            && (!TopLive(s, holding.ticket) ==>
                  r.Err? && r.error.StaleTicket? && r.error.held == holding.ticket && IsTop(s, r.error.inForce))
            && (TopLive(s, holding.ticket) && expected != s.version ==> r == Err(StaleVersion(expected, s.version)))
            && s' == Swept(s).(version := if r.Ok? then s.version + 1 else s.version)
  {
    hide Alive, Lapsed, Expiries, AppendAll, InForce, LiveOn;
    AliveMeans(s.held, s.now);
    InForceIsMax(Swept(s).held);
    TicketsSwept(s, holding.ticket);
    InForceIsHighest(s, holding.ticket);
    InForceIsTop(s);
  }

  lemma {:induction false} InForceIsTop(s: Service)
    ensures IsTop(s, InForce(Swept(s).held))
  {
    hide Alive, Lapsed, Expiries, AppendAll, InForce, LiveOn;
    var held := Swept(s).held;
    AliveMeans(s.held, s.now);
    InForceIsMax(held);
    match InForce(held)
    case None =>
      assert forall h :: Live(s, h) ==> h in held;
    case Some(t) => InForceIsHighest(s, t);
  }

  lemma {:induction false} InForceIsHighest(s: Service, ticket: nat)
    ensures InForce(Swept(s).held) == Some(ticket) <==>
            TopLive(s, ticket)
  {
    hide Alive, Lapsed, Expiries, AppendAll, InForce, LiveOn;
    var held := Swept(s).held;
    AliveMeans(s.held, s.now);
    InForceIsMax(held);
    TicketsSwept(s, ticket);
    forall h | Live(s, h)
      ensures h.ticket in Tickets(held)
    {
      assert h in held;
    }
    if TopLive(s, ticket) {
      assert forall t | t in Tickets(held) :: t <= ticket;
    }
  }

  /** A take succeeds exactly when nothing is live or double grants are on. It then adds one hold of
      the caller's, for one lease, to the live ones, on the ticket just issued. The request is logged
      either way, after what lapsed. */
  lemma {:induction false} AcquiredMeans(c: Setup, s: Service, holder: HolderId)
    ensures var (s', r) := Acquired(c, s, holder);
            && (r.Ok? <==> c.faults.grantTwice || forall h :: !Live(s, h))
            && (r.Ok? ==>
                  var t := r.value.ticket;
                  && r.value.holder == holder
                  && t == (if !c.faults.nonMonotonicTickets then s.nextTicket
                           else if s.lastIssued > 0 then s.lastIssued else 1)
                  && s'.held == Swept(s).held + [HeldBy(holder, t, s.now + c.lease)]
                  && s'.nextTicket == (if c.faults.nonMonotonicTickets then s.nextTicket else s.nextTicket + 1)
                  && s'.lastIssued == t
                  && Adds(s.log, s'.log, s.now,
                          LapseEvents(s) + [TakeRequested(holder), TicketIssued(t), TakeGranted(holder, t)]))
            && (r.Err? ==>
                  && r.error == Contended
                  && Adds(s.log, s'.log, s.now, LapseEvents(s) + [TakeRequested(holder)])
                  && s' == s.(held := Swept(s).held, log := s'.log))
            && s'.version == s.version && s'.now == s.now
  {
    hide Alive, Lapsed, Expiries, AppendAll;
    AliveMeans(s.held, s.now);
    assert Swept(s).held == [] || Live(s, Swept(s).held[0]) by {
      assert Swept(s).held == [] || Swept(s).held[0] in Swept(s).held;
    }
    AppendAllContents(s.log, s.now, LapseEvents(s));
  }

  /** Giving back leaves exactly the live holds on other tickets, whoever asks, and is logged even if
      there was none on this one; a dropped one leaves all the live holds and logs nothing. */
  lemma {:induction false} ReleasedMeans(c: Setup, s: Service, holding: Holding)
    ensures var s' := Released(c, s, holding);
            var dropped := holding.holder in c.faults.dropRelease;
            && (forall h :: h in s'.held <==> Live(s, h) && (dropped || h.ticket != holding.ticket))
            && SubsequenceOf(s'.held, s.held)
            && (forall h :: multiset(s'.held)[h] == if h in s'.held then multiset(s.held)[h] else 0)
            && Adds(s.log, s'.log, s.now,
                    LapseEvents(s) + if dropped then [] else [GiveBack(holding.holder, holding.ticket)])
            && s' == s.(held := s'.held, log := s'.log)
  {
    hide Alive, Lapsed, Without, Expiries, AppendAll, SubsequenceOf;
    AliveMeans(s.held, s.now);
    HoldsSplit(s.held, s.now);
    HoldsInOrder(s.held, s.now);
    LapsedMeans(s.held, s.now);
    WithoutMeans(Swept(s).held, holding.ticket);
    WithoutInOrder(Swept(s).held, holding.ticket);
    if holding.holder !in c.faults.dropRelease {
      InOrderTwice(Released(c, s, holding).held, Swept(s).held, s.held);
    }
    AppendAllContents(s.log, s.now, LapseEvents(s));
  }

  /** A renewal is refused, as expired, exactly when nothing live is on the ticket and it is not
      swallowed. Refused or swallowed, it moves no deadline. Otherwise the first live hold on that
      ticket, and no other, has one lease from now. Apart from that it sweeps. */
  lemma {:induction false} RenewedMeans(c: Setup, s: Service, holding: Holding)
    ensures var (s', r) := Renewed(c, s, holding);
            var held := Swept(s).held;
            && (r.Err? <==> holding.holder !in c.faults.swallowKeepalive && !LiveOn(s, holding.ticket))
            && (r.Err? ==> r.error == Expired)
            && (r.Err? || holding.holder in c.faults.swallowKeepalive ==> s' == Swept(s))
            && (r.Ok? && holding.holder !in c.faults.swallowKeepalive ==>
                  exists k :: 0 <= k < |held| && held[k].ticket == holding.ticket
                              && (forall j | 0 <= j < k :: held[j].ticket != holding.ticket)
                              && s' == Swept(s).(held := held[k := held[k].(deadline := s.now + c.lease)]))
  {
    TicketsSwept(s, holding.ticket);
    FirstOnMeans(Swept(s).held, holding.ticket);
    FirstOnIsFirst(Swept(s).held, holding.ticket);
    assert Swept(s).now == s.now;
    hide Swept, FirstOn, LiveOn, Tickets;
    var found := FirstOn(Swept(s).held, holding.ticket);
    if found.Some? && holding.holder !in c.faults.swallowKeepalive {
      assert Renewed(c, s, holding).0 == Extended(c, Swept(s), found.value);
    }
  }

  lemma {:induction false} FirstOnIsFirst(held: seq<HeldBy>, ticket: nat)
    ensures match FirstOn(held, ticket)
            case Some(i) => forall j | 0 <= j < i :: held[j].ticket != ticket
            case None => forall j | 0 <= j < |held| :: held[j].ticket != ticket
  {
    if held == [] {
    } else {
      FirstOnIsFirst(held[..|held| - 1], ticket);
    }
  }

  /** A revocation leaves nothing held and raises the counter to a barrier above every ticket it had
      reached, and above the one it would have issued next. */
  lemma {:induction false} ForceReleasedMeans(s: Service)
    ensures var (s', barrier) := ForceReleased(s);
            && barrier == s.nextTicket + 1
            && Adds(s.log, s'.log, s.now, LapseEvents(s) + [Revoked(Some(barrier))])
            && s' == s.(held := [], nextTicket := barrier, log := s'.log)
  {
    hide Alive, Lapsed, Expiries, AppendAll;
    AppendAllContents(s.log, s.now, LapseEvents(s));
  }

  /** Forced expiry ends every hold, live or lapsed, and logs each as expired, in order. */
  lemma {:induction false} ForceExpiredMeans(s: Service)
    ensures var s' := ForceExpired(s);
            && s' == s.(held := [], log := s'.log)
            && |s'.log| == |s.log| + |s.held| && s.log <= s'.log
            && forall i | 0 <= i < |s.held| ::
                 s'.log[|s.log| + i] == Entry(|s.log| + i, s.now, LeaseExpired(s.held[i].holder, s.held[i].ticket))
  {
    AppendAllContents(s.log, s.now, Expiries(s.held));
  }
}
