/** How long a hold can last and how many there can be. */
module Holds {
  import opened Types
  import opened Histories
  import opened Locks
  import opened HoldLists
  import opened Runs
  import opened ServiceCalls
  import opened Growth
  import opened Checkers
  import opened Fencing
  import opened TicketRuns
  import opened Attempts

  // ---------- Under every fault: leases are short, and single unless granted twice

  /** No lease reaches further than one lease from now; without double grants, or with leases of no
      length, at most one hold exists. */
  ghost predicate Shape(c: Setup, s: Service) {
    && (forall h | h in s.held :: h.deadline <= s.now + c.lease)
    && (!c.faults.grantTwice || c.lease == 0 ==> |s.held| <= 1)
  }

  lemma {:induction false} ShapeShrinks(c: Setup, s: Service, s': Service)
    requires Shape(c, s) && s.now <= s'.now && |s'.held| <= |s.held|
    requires forall h | h in s'.held :: h in s.held
    ensures Shape(c, s')
  {
  }

  lemma {:induction false} SweptShape(c: Setup, s: Service)
    requires Shape(c, s)
    ensures Shape(c, Swept(s))
  {
    AliveMeans(s.held, s.now);
    ShapeShrinks(c, s, Swept(s));
  }

  /** The same holds, no earlier. */
  lemma {:induction false} SameShape(c: Setup, s: Service, s': Service)
    requires Shape(c, s) && s'.held == s.held && s.now <= s'.now
    ensures Shape(c, s')
  {
  }

  lemma {:induction false} CallShape(c: Setup, s: Service, call: Call)
    requires Shape(c, s)
    ensures Shape(c, Called(c, s, call))
  {
    hide Swept, Without, FirstOn;
    match call
    case Sweep => SweptShape(c, s);
    case GiveUp(holding) => WithoutMeans(s.held, holding.ticket);
    case Grant(_) =>
      AliveMeans(s.held, s.now);
      assert s.held == [] || s.held[0] in s.held;
    case _ =>
  }

  lemma {:induction false} RunShape(c: Setup, file: Option<Content>, leftover: Option<Content>, ops: seq<Op>)
    ensures Shape(c, Run(c, Start(file, leftover), ops).world.svc)
  {
    assert Shape(c, FRESH_SERVICE);
    hide Shape, Reaches, Run, Called;
    RunReaches(c, Start(file, leftover), ops);
    forall x, call | Shape(c, x)
      ensures Shape(c, Called(c, x, call))
    {
      CallShape(c, x, call);
    }
    ReachesKeeps(c, FRESH_SERVICE, Run(c, Start(file, leftover), ops).world.svc, ANYTHING, x => Shape(c, x));
  }

  /** A ticket held later is a later one, or the same one on the same holder. */
  lemma {:induction false} LaterHold(
    c: Setup, file: Option<Content>, leftover: Option<Content>, past: seq<Op>, future: seq<Op>, h: HeldBy, h': HeldBy)
    requires !c.faults.grantTwice && !c.faults.nonMonotonicTickets
    requires h in Run(c, Start(file, leftover), past).world.svc.held
    requires h' in Run(c, Run(c, Start(file, leftover), past), future).world.svc.held
    ensures h.ticket <= h'.ticket && (h.ticket == h'.ticket ==> h.holder == h'.holder)
  {
    hide Run, Shape;
    var rs := Run(c, Start(file, leftover), past);
    var s, s' := rs.world.svc, Run(c, rs, future).world.svc;
    RunShape(c, file, leftover, past);
    RunTickets(c, file, leftover, past);
    RunOnward(c, rs, future);
    RunGrows(c, rs, future);
    RunConcat(c, Start(file, leftover), past, future);
    RunTickets(c, file, leftover, past + future);
    OneHold(c, s);
    hide TicketsOk, Grows;
    if h.ticket == h'.ticket {
      SameGrantSameHolder(s, s', h, h');
    } else {
      assert h'.ticket in Tickets(s'.held);
    }
  }

  /** With single grants the one hold is the one in force. */
  lemma {:induction false} OneHold(c: Setup, s: Service)
    requires Shape(c, s) && !c.faults.grantTwice
    ensures |s.held| <= 1
    ensures forall h | h in s.held :: s.held == [h] && InForce(s.held) == Some(h.ticket)
  {
    InForceIsMax(s.held);
  }

  /** The turn only moves forward: with single grants and monotonic tickets there is at most one
      hold, and at any later time the ticket in force is the same one on the same holder, or a higher
      one. Once the first has left, it is higher for good. */
  lemma {:induction false} TurnMovesForward(
    c: Setup, file: Option<Content>, leftover: Option<Content>, past: seq<Op>, future: seq<Op>, later: seq<Op>)
    requires !c.faults.grantTwice && !c.faults.nonMonotonicTickets
    ensures var s := Run(c, Start(file, leftover), past).world.svc;
            var s' := Run(c, Start(file, leftover), past + future).world.svc;
            var s'' := Run(c, Start(file, leftover), past + future + later).world.svc;
            && |s.held| <= 1
            && (s.held != [] && s'.held != [] ==>
                  InForce(s.held).value < InForce(s'.held).value
                  || (InForce(s.held) == InForce(s'.held) && s'.held[0].holder == s.held[0].holder))
            && (s.held != [] && s''.held != [] && InForce(s.held).value !in Tickets(s'.held) ==>
                  InForce(s.held).value < InForce(s''.held).value)
  {
    hide Run, Shape, TicketsOk, Onward, InForce;
    var r0 := Start(file, leftover);
    var s := Run(c, r0, past).world.svc;
    var s' := Run(c, r0, past + future).world.svc;
    var s'' := Run(c, r0, past + future + later).world.svc;
    RunConcat(c, r0, past, future);
    RunConcat(c, r0, past + future, later);
    RunConcat(c, r0, past, future + later);
    assert past + (future + later) == past + future + later;
    RunShape(c, file, leftover, past);
    RunShape(c, file, leftover, past + future);
    RunShape(c, file, leftover, past + future + later);
    OneHold(c, s);
    OneHold(c, s');
    OneHold(c, s'');
    if s.held != [] && s'.held != [] {
      assert s.held[0] in s.held && s'.held[0] in s'.held;
      LaterHold(c, file, leftover, past, future, s.held[0], s'.held[0]);
    }
    if s.held != [] && s''.held != [] && InForce(s.held).value !in Tickets(s'.held) {
      assert s.held[0] in s.held && s''.held[0] in s''.held;
      LaterHold(c, file, leftover, past, future + later, s.held[0], s''.held[0]);
      NotBack(c, file, leftover, past, future, later, s.held[0].ticket, s''.held[0]);
    }
  }

  /** A ticket that left is not the one held later. */
  lemma {:induction false} NotBack(
    c: Setup, file: Option<Content>, leftover: Option<Content>, past: seq<Op>, future: seq<Op>, later: seq<Op>,
    t: nat, h: HeldBy)
    requires !c.faults.nonMonotonicTickets
    requires t in Tickets(Run(c, Start(file, leftover), past).world.svc.held)
    requires t !in Tickets(Run(c, Start(file, leftover), past + future).world.svc.held)
    requires h in Run(c, Start(file, leftover), past + future + later).world.svc.held
    ensures h.ticket != t
  {
    hide Run;
    var r0 := Start(file, leftover);
    RunConcat(c, r0, past, future);
    RunConcat(c, r0, past + future, later);
    RunTickets(c, file, leftover, past);
    RunOnward(c, Run(c, r0, past), future);
    RunOnward(c, Run(c, r0, past + future), later);
    assert h.ticket in Tickets(Run(c, r0, past + future + later).world.svc.held);
  }

  // ---------- Under monotonic tickets: one grant to a ticket

  lemma {:induction false} OneGrant(log: Log, i: int, j: int, holder: HolderId, holder': HolderId, ticket: nat)
    requires StampsOk(log) && GrantAt(log, i, holder, ticket) && GrantAt(log, j, holder', ticket)
    ensures i == j && holder == holder'
  {
    if i < j {
      StampsPairwise(log, i, j);
    } else if j < i {
      StampsPairwise(log, j, i);
    }
  }

  /** A held ticket was granted to its holder. */
  lemma {:induction false} HeldIsGranted(s: Service, h: HeldBy) returns (i: nat)
    requires TicketsOk(s) && h in s.held
    ensures GrantAt(s.log, i, h.holder, h.ticket)
  {
    i := GrantedTo(s.log, h.ticket);
  }

  lemma {:induction false} GrantedTo(log: Log, ticket: nat) returns (i: nat)
    requires ticket in Replay(log)
    ensures GrantAt(log, i, Replay(log)[ticket], ticket)
  {
    var n := |log| - 1;
    if log[n].event.TakeGranted? && log[n].event.ticket == ticket {
      i := n;
    } else {
      i := GrantedTo(log[..n], ticket);
    }
  }

  lemma {:induction false} SameGrantSameHolder(s: Service, s': Service, h: HeldBy, h': HeldBy)
    requires TicketsOk(s) && TicketsOk(s') && s.log <= s'.log
    requires h in s.held && h' in s'.held && h.ticket == h'.ticket
    ensures h.holder == h'.holder
  {
    var i := HeldIsGranted(s, h);
    var i' := HeldIsGranted(s', h');
    assert GrantAt(s'.log, i, h.holder, h.ticket);
    OneGrant(s'.log, i, i', h.holder, h'.holder, h.ticket);
  }

  /** A ticket granted to somebody else is not the one this hold is on. */
  lemma {:induction false} OtherTicket(s: Service, h: HeldBy, i: int, holder: HolderId, ticket: nat)
    requires TicketsOk(s) && h in s.held && GrantAt(s.log, i, holder, ticket) && holder != h.holder
    ensures ticket != h.ticket
  {
    var j := HeldIsGranted(s, h);
    if ticket == h.ticket {
      OneGrant(s.log, i, j, holder, h.holder, ticket);
    }
  }
}
