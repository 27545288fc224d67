/** Exactly which setups let the history fall out of step with the lock, and what then goes wrong: two
    holds on one ticket, of which the log can only tell one, and which lapse apart. */
module ReplayLimits {
  import opened Types
  import opened Histories
  import opened Locks
  import opened Harnesses
  import opened Runs
  import opened Checkers
  import opened CheckerMeaning
  import opened Fencing
  import opened FaultyRuns
  import opened Replays
  import opened Decisions
  import opened Scenarios
  import opened SpanLimits
  import opened Soaks
  import opened ServiceCalls
  import opened TicketVerdicts

  /** Two holds can be on one ticket. */
  predicate Doubles(c: Setup) {
    c.faults.nonMonotonicTickets && c.faults.grantTwice && c.lease > 0
  }

  // ---------- Taking holds under either span

  /** However the span lets an agent take a hold and keep it. */
  function Take(c: Setup, rs: RunState, holder: HolderId): Op {
    if c.span == Full then Op.Read(holder) else Op.Authorize(holder, rs.world.svc.version, "")
  }

  /** Everyone is on ticket 1, with time left. */
  ghost predicate Young(s: Service) {
    && s.lastIssued <= 1
    && forall h | h in s.held :: s.now < h.deadline && h.ticket == 1
  }

  lemma {:induction false} TakeBeside(c: Setup, rs: RunState, holder: HolderId)
    requires Doubles(c) && Young(rs.world.svc)
    ensures var (s, s') := (rs.world.svc, Step(c, rs, Take(c, rs, holder)).world.svc);
            && s'.held == s.held + [HeldBy(holder, 1, s.now + c.lease)]
            && s'.now == s.now && s'.lastIssued == 1 && Young(s')
    ensures c.span == Full ==>
              Step(c, rs, Op.Read(holder)).world.open == rs.world.open[holder := Open(Holding(holder, 1), rs.world.svc.now)]
  {
    hide ReadDone, Acquired, Submitted, Swept;
    var s := rs.world.svc;
    if c.span == Full {
      ReadBeside(c, rs.world, holder);
    } else if c.failAt != Some(AfterTempWritten) {
      AuthorizeBeside(c, rs, holder, "");
    } else {
      TakenBeside(c, s, holder);
      NotStaged(c, rs.world.(svc := Acquired(c, s, holder).0), holder, Holding(holder, 1), s.version);
    }
  }

  lemma {:induction false} NotStaged(c: Setup, w: World, holder: HolderId, holding: Holding, readAt: nat)
    requires c.failAt == Some(AfterTempWritten)
    ensures var (w', r) := Submitted(c, w, holder, holding, readAt, "");
            r.Err? && w'.svc == Record(w.svc, WriteAttempted(holder, holding.ticket, readAt))
  {
  }

  // ---------- One ticket, two holders

  ghost predicate ReplayFails(c: Setup) {
    exists file, leftover, ops ::
      var s := Run(c, Start(file, leftover), ops).world.svc; !Mirrors(Replay(s.log), s.held)
  }

  /** A and B are both on ticket 1, and the history can name only one of them. */
  lemma {:induction false} OneTicketTwoHolders(c: Setup)
    requires Doubles(c)
    ensures var r0 := Start(None, None);
            var first := Take(c, r0, "A");
            var s := Run(c, r0, [first, Take(c, Step(c, r0, first), "B")]).world.svc;
            && s.held == [HeldBy("A", 1, c.lease), HeldBy("B", 1, c.lease)]
            && !Mirrors(Replay(s.log), s.held)
  {
    hide Step, Run, Replay;
    var r0 := Start(None, None);
    var r1 := Step(c, r0, Take(c, r0, "A"));
    TakeBeside(c, r0, "A");
    TakeBeside(c, r1, "B");
    RunTwo(c, r0, Take(c, r0, "A"), Take(c, r1, "B"));
    assert [HeldBy("A", 1, c.lease)] + [HeldBy("B", 1, c.lease)] == [HeldBy("A", 1, c.lease), HeldBy("B", 1, c.lease)];
    var held := [HeldBy("A", 1, c.lease), HeldBy("B", 1, c.lease)];
    assert held[0] in held && held[1] in held;
  }

  /** The history replays to the lock in every run exactly unless broken tickets meet double grants and
      leases with length. */
  lemma {:induction false} ReplayFailsExactly(c: Setup)
    ensures ReplayFails(c) <==> Doubles(c)
  {
    hide Run, Mirrors;
    if Doubles(c) {
      OneTicketTwoHolders(c);
    } else {
      forall file, leftover, ops
        ensures var s := Run(c, Start(file, leftover), ops).world.svc; Mirrors(Replay(s.log), s.held)
      {
        HistoryReplaysToTheLock(c, file, leftover, ops);
      }
    }
  }

  // ---------- Lapsing apart

  /** One hold has just lapsed and the other, on the same ticket, has not. */
  ghost predicate LapsingApart(s: Service, a: HeldBy, b: HeldBy) {
    && Stuck(s)
    && s.held == [a] + [b]
    && a.deadline <= s.now < b.deadline
  }

  lemma {:induction false} SplitApart(a: HeldBy, b: HeldBy, now: nat)
    requires a.deadline <= now < b.deadline
    ensures Alive([a] + [b], now) == [b] && Lapsed([a] + [b], now) == [a]
  {
    assert ([a] + [b])[..1] == [a] && [a][..0] == [];
    assert Alive([a][..0], now) == [] && Lapsed([a][..0], now) == [];
    assert Alive([a], now) == [] && Lapsed([a], now) == [a];
  }

  /** A sweep now takes the one ticket out of the replay, and leaves a hold on it. */
  lemma {:induction false} SweptApart(s: Service, a: HeldBy, b: HeldBy)
    requires LapsingApart(s, a, b)
    ensures Swept(s).held == [b] && Replay(Swept(s).log) == map[]
  {
    hide Replay, Alive, Lapsed;
    SplitApart(a, b, s.now);
    ReplaysToOneTicket(s);
    ReplayExpiries(s.log, s.now, [a]);
    assert s.held[0] == a && a in s.held;
    OneTicket([a]);
    assert Replay(Swept(s).log).Keys == {};
  }

  /** A takes the lock, and B takes it in the last tick of A's lease, which then passes. */
  lemma {:induction false} TakenApart(c: Setup) returns (ops: seq<Op>)
    requires Doubles(c) && c.lease > 1
    ensures var w := Run(c, Start(None, None), ops).world;
            && LapsingApart(w.svc, HeldBy("A", 1, c.lease), HeldBy("B", 1, 2 * c.lease - 1))
            && w.svc.now == c.lease
            && (c.span == Full ==> "B" in w.open && w.open["B"] == Open(Holding("B", 1), c.lease - 1))
  {
    hide Run, Step;
    var r0 := Start(None, None);
    var r1 := Step(c, r0, Take(c, r0, "A"));
    var r2 := Step(c, r1, Advance(c.lease - 1));
    var r3 := Step(c, r2, Take(c, r2, "B"));
    TakeBeside(c, r0, "A");
    Ticked(c, r1, c.lease - 1);
    TakeBeside(c, r2, "B");
    Ticked(c, r3, 1);
    ops := [Take(c, r0, "A"), Advance(c.lease - 1), Take(c, r2, "B"), Advance(1)];
    RunFour(c, r0, ops[0], ops[1], ops[2], ops[3]);
    RunStuck(c, None, None, ops);
    hide Stuck;
    assert [] + [HeldBy("A", 1, c.lease)] == [HeldBy("A", 1, c.lease)];
  }

  lemma {:induction false} Ticked(c: Setup, rs: RunState, delta: nat)
    ensures Step(c, rs, Advance(delta)) == rs.(world := rs.world.(svc := rs.world.svc.(now := rs.world.svc.now + delta)))
  {
  }

  // ---------- P5 before the leases have lapsed

  /** P5 passes while something is held, or fails while nothing is. */
  ghost predicate P5Misjudges(c: Setup) {
    exists file, leftover, ops ::
      var s := Run(c, Start(file, leftover), ops).world.svc; !(Unmatched(s.log) == map[] <==> s.held == [])
  }

  /** After a sweep P5 passes, although B still holds the lock. */
  lemma {:induction false} UnmatchedWhileHeld(c: Setup) returns (ops: seq<Op>)
    requires Doubles(c) && c.lease > 1
    ensures var s := Run(c, Start(None, None), ops).world.svc;
            Unmatched(s.log) == map[] && s.held == [HeldBy("B", 1, 2 * c.lease - 1)]
  {
    hide Run, Replay, Unmatched, Swept, LapsingApart;
    var apart := TakenApart(c);
    var s := Run(c, Start(None, None), apart).world.svc;
    SweptApart(s, HeldBy("A", 1, c.lease), HeldBy("B", 1, 2 * c.lease - 1));
    ops := apart + [Probe];
    RunMore(c, Start(None, None), apart, Probe);
    UnmatchedIsReplay(Swept(s).log);
    assert Unmatched(Swept(s).log).Keys == {};
  }

  /** P5 passes exactly when nothing is held, in every run, exactly unless broken tickets meet double
      grants and leases of more than one tick. */
  lemma {:induction false} P5MisjudgesExactly(c: Setup)
    ensures P5Misjudges(c) <==> c.faults.nonMonotonicTickets && c.faults.grantTwice && c.lease > 1
  {
    hide Run, Unmatched;
    if c.faults.nonMonotonicTickets && c.faults.grantTwice && c.lease > 1 {
      var ops := UnmatchedWhileHeld(c);
      assert !(Unmatched(Run(c, Start(None, None), ops).world.svc.log) == map[] <==>
               Run(c, Start(None, None), ops).world.svc.held == []);
    } else {
      forall file, leftover, ops
        ensures var s := Run(c, Start(file, leftover), ops).world.svc; Unmatched(s.log) == map[] <==> s.held == []
      {
        P5Exactly(c, file, leftover, ops);
      }
    }
  }

  // ---------- P2 where a write is authorized

  /** After this run the service says yes to what this operation asks, and yet the log, as it stands
      then, does not replay to a state in which the ticket is in force. */
  ghost predicate YesOutOfForce(
    c: Setup, file: Option<Content>, leftover: Option<Content>, ops: seq<Op>, op: Op)
  {
    var before := Run(c, Start(file, leftover), ops);
    && (op.Write? || op.Authorize?)
    && Authorizing(c, before.world, op.holder, op.readAt, op.content).1.Ok?
    && var (_, taken) := HoldForWrite(c, before.world, op.holder);
       MaxOf(Replay(DecisionLog(c, before, op)).Keys) != Some(taken.value.ticket)
  }

  ghost predicate YesCanBeOutOfForce(c: Setup) {
    exists file, leftover, ops, op :: YesOutOfForce(c, file, leftover, ops, op)
  }

  /** B writes as A's hold on the shared ticket lapses: the sweep that comes with the answer takes the
      ticket out of the replay. */
  lemma {:induction false} YesAsItLapses(c: Setup) returns (ops: seq<Op>, op: Op)
    requires !ReplaysWhenDecided(c) && c.failAt != Some(AfterTempWritten)
    ensures YesOutOfForce(c, None, None, ops, op)
  {
    hide Run, Replay, Swept, LapsingApart;
    ops := TakenApart(c);
    var before := Run(c, Start(None, None), ops);
    op := Op.Authorize("B", before.world.svc.version, "b");
    LapsesAsAsked(before.world.svc, WriteAttempted("B", 1, before.world.svc.version),
      HeldBy("A", 1, c.lease), HeldBy("B", 1, 2 * c.lease - 1));
  }

  lemma {:induction false} LapsesAsAsked(s: Service, event: Event, a: HeldBy, b: HeldBy)
    requires LapsingApart(s, a, b) && Neutral(event)
    ensures var asking := Record(s, event);
            && Swept(asking).held == [b] && Replay(Swept(asking).log) == map[]
            && InForce(Swept(asking).held) == Some(b.ticket) && b.ticket in Tickets(Swept(asking).held)
            && Swept(asking).version == s.version
  {
    hide Replay, Alive, Lapsed, Expiries, AppendAll;
    SweptApart(Record(s, event), a, b);
    OneHeld(b);
  }

  /** What the service decides, the log bears out at that point, in every run, exactly where holds are
      told apart, lapse together, or are used in the tick they were taken in. */
  lemma {:induction false} YesCanBeOutOfForceExactly(c: Setup)
    ensures YesCanBeOutOfForce(c) <==> !ReplaysWhenDecided(c) && c.failAt != Some(AfterTempWritten)
  {
    hide Run, ReplaysWhenDecided, YesOutOfForce;
    if YesCanBeOutOfForce(c) {
      var file, leftover, ops, op :| YesOutOfForce(c, file, leftover, ops, op);
      NotOutOfForce(c, file, leftover, ops, op);
    }
    if !ReplaysWhenDecided(c) && c.failAt != Some(AfterTempWritten) {
      var ops, op := YesAsItLapses(c);
    }
  }

  lemma {:induction false} NotOutOfForce(
    c: Setup, file: Option<Content>, leftover: Option<Content>, ops: seq<Op>, op: Op)
    requires YesOutOfForce(c, file, leftover, ops, op)
    ensures !ReplaysWhenDecided(c) && c.failAt != Some(AfterTempWritten)
  {
    hide Run, Replay, HoldForWrite, ReplaysWhenDecided, Offered;
    RunOffered(c, file, leftover, ops);
    var before := Run(c, Start(file, leftover), ops);
    if ReplaysWhenDecided(c) {
      DecisionTracks(c, before, op);
      ReplayedInForce(Swept(Asking(c, before, op)));
    }
  }
}
