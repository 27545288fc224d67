/** Exactly which setups let a hold outlive its bound, or be ended by another agent. */
module HoldLimits {
  import opened Types
  import opened Histories
  import opened Locks
  import opened HoldLists
  import opened Harnesses
  import opened Runs
  import opened ServiceCalls
  import opened Growth
  import opened Attempts
  import opened FaultyRuns
  import opened HoldTimes
  import opened Scenarios
  import opened Spans
  import opened SpanLimits
  import opened Holds
  import opened OtherHolds

  /** The hold's deadline is past the bound, counted from any grant of its ticket to its holder. */
  ghost predicate OverBound(c: Setup, s: Service, h: HeldBy) {
    && h in s.held
    && forall i | GrantAt(s.log, i, h.holder, h.ticket) :: s.log[i].at + c.holdCeiling + c.lease < h.deadline
  }

  ghost predicate BoundFails(c: Setup) {
    exists file, leftover, ops, h :: OverBound(c, Run(c, Start(file, leftover), ops).world.svc, h)
  }

  // ---------- Where renewing gains nothing

  /** The hold goes back to a grant at most a lease before its deadline. */
  ghost predicate Short(c: Setup, h: HeldBy, log: Log) {
    exists i :: GrantAt(log, i, h.holder, h.ticket) && h.deadline <= log[i].at + c.lease
  }

  ghost predicate AllShort(c: Setup, s: Service) {
    (forall i | 0 <= i < |s.log| :: s.log[i].at <= s.now) && forall h | h in s.held :: Short(c, h, s.log)
  }

  lemma {:induction false} ShortGrows(c: Setup, h: HeldBy, log: Log, log': Log)
    requires Short(c, h, log) && log <= log'
    ensures Short(c, h, log')
  {
    var i :| GrantAt(log, i, h.holder, h.ticket) && h.deadline <= log[i].at + c.lease;
    assert GrantAt(log', i, h.holder, h.ticket);
  }

  lemma {:induction false} FewerShort(c: Setup, s: Service, s': Service)
    requires AllShort(c, s) && Grows(s, s') && forall h | h in s'.held :: h in s.held
    ensures AllShort(c, s')
  {
    hide Short;
    forall h | h in s'.held
      ensures Short(c, h, s'.log)
    {
      ShortGrows(c, h, s.log, s'.log);
    }
    assert forall i | 0 <= i < |s.log| :: s'.log[i] == s.log[i];
  }

  lemma {:induction false} GrantedShort(c: Setup, s: Service, holder: HolderId)
    requires AllShort(c, s)
    ensures AllShort(c, Granted(c, s, holder).0)
  {
    var (s', holding) := Granted(c, s, holder);
    var granted := HeldBy(holder, holding.ticket, s.now + c.lease);
    assert GrantAt(s'.log, |s'.log| - 1, holder, holding.ticket);
    assert Short(c, granted, s'.log);
    hide Short;
    forall h | h in s'.held
      ensures Short(c, h, s'.log)
    {
      if h in s.held {
        ShortGrows(c, h, s.log, s'.log);
      }
    }
  }

  lemma {:induction false} SweptHolds(s: Service)
    ensures Swept(s).now == s.now && forall h | h in Swept(s).held :: h in s.held
  {
    AliveMeans(s.held, s.now);
  }

  lemma {:induction false} CallShort(c: Setup, s: Service, call: Call)
    requires AllShort(c, s) && !call.Extend?
    ensures AllShort(c, Called(c, s, call))
  {
    CallGrows(c, s, call);
    SweptHolds(s);
    hide AllShort, Grows, Swept, Without, Granted;
    if call.Grant? {
      GrantedShort(c, s, call.holder);
    } else {
      if call.GiveUp? {
        WithoutMeans(s.held, call.holding.ticket);
      }
      FewerShort(c, s, Called(c, s, call));
    }
  }

  /** A live hold that is short stays short when it is renewed for at most one tick. */
  lemma {:induction false} RenewedShort(c: Setup, s: Service, holding: Holding)
    requires AllShort(c, s) && c.lease <= 1
    ensures AllShort(c, Renewed(c, s, holding).0)
  {
    AliveMeans(s.held, s.now);
    SweptGrows(s);
    hide Alive, Lapsed, Expiries, AppendAll, FirstOn;
    var s' := Renewed(c, s, holding).0;
    forall h | h in s'.held
      ensures Short(c, h, s'.log)
    {
      var k :| 0 <= k < |s'.held| && s'.held[k] == h;
      var was := Swept(s).held[k];
      assert was in Swept(s).held && s.now < was.deadline;
      ShortGrows(c, was, s.log, s'.log);
      var i :| GrantAt(s'.log, i, was.holder, was.ticket) && was.deadline <= s'.log[i].at + c.lease;
      assert GrantAt(s'.log, i, h.holder, h.ticket);
    }
    assert forall i | 0 <= i < |s.log| :: s'.log[i] == s.log[i];
  }

  /** Renewing never happens, or gains nothing. */
  predicate RenewalIsIdle(c: Setup) {
    c.span == WriteOnly || c.holdCeiling == 0 || c.lease <= 1
  }

  lemma {:induction false} ProgressShort(c: Setup, w: World, holder: HolderId)
    requires RenewalIsIdle(c) && AllShort(c, w.svc) && OpensBacked(w) && (c.span == WriteOnly ==> w.open == map[])
    ensures AllShort(c, Progressed(c, w, holder).0.svc)
  {
    hide AllShort, Renewed;
    if holder in w.open {
      assert OpenBacked(w.svc, holder, w.open[holder]);
      FewerShort(c, w.svc, Record(w.svc, CeilingReached(holder)));
      if w.svc.now < w.open[holder].takenAt + c.holdCeiling {
        RenewedShort(c, w.svc, w.open[holder].holding);
      }
    }
  }

  lemma {:induction false} StepShort(c: Setup, rs: RunState, op: Op)
    requires RenewalIsIdle(c) && AllShort(c, rs.world.svc) && OpensBacked(rs.world)
    requires c.span == WriteOnly ==> rs.world.open == map[]
    ensures AllShort(c, Step(c, rs, op).world.svc)
  {
    hide AllShort, OpensBacked, Reaches, Called, Progressed;
    if op.Progress? {
      ProgressShort(c, rs.world, op.holder);
    } else {
      hide Step;
      StepReaches(c, rs, op, NO_RENEWAL);
      forall x, call | AllShort(c, x) && Permits(NO_RENEWAL, call)
        ensures AllShort(c, Called(c, x, call))
      {
        CallShort(c, x, call);
      }
      ReachesKeeps(c, rs.world.svc, Step(c, rs, op).world.svc, NO_RENEWAL, x => AllShort(c, x));
    }
  }

  lemma {:induction false} RunShort(c: Setup, file: Option<Content>, leftover: Option<Content>, ops: seq<Op>)
    requires RenewalIsIdle(c)
    ensures AllShort(c, Run(c, Start(file, leftover), ops).world.svc)
  {
    if ops == [] {
    } else {
      hide AllShort, OpensBacked, TimesOk, AttemptsBacked, Step;
      var rs := Run(c, Start(file, leftover), ops[..|ops| - 1]);
      RunShort(c, file, leftover, ops[..|ops| - 1]);
      RunBacked(c, file, leftover, ops[..|ops| - 1]);
      if c.span == WriteOnly {
        RunOpensNothing(c, file, leftover, ops[..|ops| - 1]);
      }
      StepShort(c, rs, ops[|ops| - 1]);
    }
  }

  lemma {:induction false} NeverOver(
    c: Setup, file: Option<Content>, leftover: Option<Content>, ops: seq<Op>, h: HeldBy)
    requires RenewalIsIdle(c) || !Shares(c)
    ensures !OverBound(c, Run(c, Start(file, leftover), ops).world.svc, h)
  {
    hide Run;
    var s := Run(c, Start(file, leftover), ops).world.svc;
    if h in s.held {
      if RenewalIsIdle(c) {
        RunShort(c, file, leftover, ops);
        assert Short(c, h, s.log);
        var i :| GrantAt(s.log, i, h.holder, h.ticket) && h.deadline <= s.log[i].at + c.lease;
      } else {
        var i := HoldsAreBounded(c, file, leftover, ops, h);
        assert GrantAt(s.log, i, h.holder, h.ticket);
      }
    }
  }

  // ---------- The run that breaks it

  /** A's hold, from time 0, heads the list on ticket 1; A was granted the ticket at no other time. */
  ghost predicate Heads(s: Service, deadline: nat) {
    && s.held != [] && s.held[0] == HeldBy("A", 1, deadline) && s.now < deadline
    && s.lastIssued == 1
    && forall i | GrantAt(s.log, i, "A", 1) :: s.log[i].at == 0
  }

  lemma {:induction false} AliveHead(held: seq<HeldBy>, now: nat)
    requires held != [] && now < held[0].deadline
    ensures Alive(held, now) != [] && Alive(held, now)[0] == held[0]
  {
    if |held| == 1 {
      assert held[..0] == [];
    } else {
      AliveHead(held[..|held| - 1], now);
    }
  }

  lemma {:induction false} FirstIsHead(held: seq<HeldBy>)
    requires held != []
    ensures FirstOn(held, held[0].ticket) == Some(0)
  {
    assert held[..1] == [held[0]] && held[..1][..0] == [];
    assert FirstOn(held[..1], held[0].ticket) == Some(0);
    FirstOnStays(held, held[0].ticket, 1);
  }

  lemma {:induction false} SweptHeads(s: Service, deadline: nat)
    requires Heads(s, deadline)
    ensures Heads(Swept(s), deadline) && Swept(s).now == s.now
  {
    AliveHead(s.held, s.now);
    SweptUnmoved(s);
  }

  /** Anyone open on the shared ticket renews A's hold. */
  lemma {:induction false} ProgressHeads(c: Setup, w: World, holder: HolderId, deadline: nat)
    requires Heads(w.svc, deadline) && c.lease > 0 && holder !in c.faults.swallowKeepalive
    requires holder in w.open && w.open[holder].holding == Holding(holder, 1)
    requires w.svc.now < w.open[holder].takenAt + c.holdCeiling
    ensures var w' := Progressed(c, w, holder).0;
            Heads(w'.svc, w.svc.now + c.lease) && w'.svc.now == w.svc.now && w'.open == w.open
  {
    SweptHeads(w.svc, deadline);
    FirstIsHead(Swept(w.svc).held);
    hide Swept, FirstOn;
  }

  /** Another agent's read opens it on the shared ticket, now, and leaves A's hold where it is. */
  lemma {:induction false} ReadHeads(c: Setup, w: World, holder: HolderId, deadline: nat)
    requires Heads(w.svc, deadline) && c.span == Full && c.faults.nonMonotonicTickets && c.faults.grantTwice
    requires holder != "A"
    ensures var w' := ReadDone(c, w, holder).0;
            && Heads(w'.svc, deadline) && w'.svc.now == w.svc.now
            && w'.open == w.open[holder := Open(Holding(holder, 1), w.svc.now)]
  {
    hide Swept;
    SweptHeads(w.svc, deadline);
    var svc := Acquired(c, w.svc, holder).0;
    SweptHeads(svc, deadline);
  }

  /** One tick and one report of progress, again and again. */
  function Beats(holder: HolderId, n: nat): seq<Op> {
    if n == 0 then [] else Beats(holder, n - 1) + [Advance(1)] + [Op.Progress(holder)]
  }

  lemma {:induction false} BeatsHead(c: Setup, rs: RunState, holder: HolderId, n: nat)
    requires Heads(rs.world.svc, rs.world.svc.now + c.lease) && c.lease > 1 && holder !in c.faults.swallowKeepalive
    requires holder in rs.world.open && rs.world.open[holder].holding == Holding(holder, 1)
    requires rs.world.svc.now + n < rs.world.open[holder].takenAt + c.holdCeiling
    ensures var rs' := Run(c, rs, Beats(holder, n));
            && rs'.world.svc.now == rs.world.svc.now + n
            && Heads(rs'.world.svc, rs.world.svc.now + n + c.lease)
            && rs'.world.open == rs.world.open
  {
    hide Run, Progressed;
    if n == 0 {
      RunNone(c, rs);
    } else {
      BeatsHead(c, rs, holder, n - 1);
      var before := Run(c, rs, Beats(holder, n - 1));
      RunMore(c, rs, Beats(holder, n - 1), Advance(1));
      RunMore(c, rs, Beats(holder, n - 1) + [Advance(1)], Op.Progress(holder));
      var ticked := Step(c, before, Advance(1));
      ProgressHeads(c, ticked.world, holder, before.world.svc.now + c.lease);
    }
  }

  /** A takes the lock; another agent takes it too, twice, a tick apart, and keeps A's hold alive. */
  function Relay(b: HolderId): seq<Op> {
    [Op.Read("A"), Advance(1), Op.Read(b), Op.Progress(b), Advance(1), Op.Read(b), Op.Progress(b)]
  }

  lemma {:induction false} RunSeven(c: Setup, rs: RunState, a: Op, b: Op, d: Op, e: Op, f: Op, g: Op, h: Op)
    ensures Run(c, rs, [a, b, d, e, f, g, h]) ==
            Step(c, Step(c, Step(c, Step(c, Step(c, Step(c, Step(c, rs, a), b), d), e), f), g), h)
  {
    hide Step, Run;
    RunFive(c, rs, a, b, d, e, f);
    RunMore(c, rs, [a, b, d, e, f], g);
    RunMore(c, rs, [a, b, d, e, f, g], h);
    assert [a, b, d, e, f] + [g] == [a, b, d, e, f, g];
    assert [a, b, d, e, f, g] + [h] == [a, b, d, e, f, g, h];
  }

  predicate CanRelay(c: Setup) {
    && c.span == Full && c.faults.nonMonotonicTickets && c.faults.grantTwice
    && c.lease > 1 && c.holdCeiling > 0
  }

  lemma {:induction false} FirstHeads(c: Setup, file: Option<Content>)
    requires CanRelay(c)
    ensures var w := ReadDone(c, Start(file, None).world, "A").0;
            Heads(w.svc, c.lease) && w.svc.now == 0
  {
    hide ReadDone, Reaches;
    var w := Start(file, None).world;
    ReadBeside(c, w, "A");
    ReadReaches(c, w, "A");
    ReachesGrows(c, w.svc, ReadDone(c, w, "A").0.svc);
  }

  lemma {:induction false} RelayHeads(c: Setup, file: Option<Content>, b: HolderId)
    requires CanRelay(c) && b != "A"
    requires b !in c.faults.swallowKeepalive
    ensures var rs := Run(c, Start(file, None), Relay(b));
            && Heads(rs.world.svc, 2 + c.lease) && rs.world.svc.now == 2
            && b in rs.world.open && rs.world.open[b] == Open(Holding(b, 1), 2)
  {
    hide Run, ReadDone, Progressed;
    var r0 := Start(file, None);
    var r1 := Step(c, r0, Op.Read("A"));
    var r2 := Step(c, r1, Advance(1));
    var r3 := Step(c, r2, Op.Read(b));
    var r4 := Step(c, r3, Op.Progress(b));
    var r5 := Step(c, r4, Advance(1));
    var r6 := Step(c, r5, Op.Read(b));
    FirstHeads(c, file);
    ReadHeads(c, r2.world, b, c.lease);
    ProgressHeads(c, r3.world, b, c.lease);
    ReadHeads(c, r5.world, b, 1 + c.lease);
    ProgressHeads(c, r6.world, b, 1 + c.lease);
    RunSeven(c, r0, Op.Read("A"), Advance(1), Op.Read(b), Op.Progress(b), Advance(1), Op.Read(b), Op.Progress(b));
  }

  /** On broken tickets with double grants, the others' progress renews A's hold past its bound. */
  lemma {:induction false} RelayOutlives(c: Setup, file: Option<Content>, b: HolderId)
    requires CanRelay(c) && b != "A"
    requires b !in c.faults.swallowKeepalive
    ensures var ops := Relay(b) + Beats(b, c.holdCeiling - 1);
            OverBound(c, Run(c, Start(file, None), ops).world.svc, HeldBy("A", 1, c.holdCeiling + 1 + c.lease))
  {
    hide Run;
    RelayHeads(c, file, b);
    BeatsHead(c, Run(c, Start(file, None), Relay(b)), b, c.holdCeiling - 1);
    RunConcat(c, Start(file, None), Relay(b), Beats(b, c.holdCeiling - 1));
  }

  /** A hold can outlive its bound exactly where two holds can share a ticket and renewing can gain
      something: broken tickets and double grants together, under the full span, with a lease of more
      than one tick and a ceiling above zero. */
  lemma {:induction false} BoundFailsExactly(c: Setup)
    ensures BoundFails(c) <==>
            && c.faults.nonMonotonicTickets && c.faults.grantTwice
            && c.span == Full && c.lease > 1 && c.holdCeiling > 0
  {
    hide Run, OverBound, Relay, Beats;
    if BoundFails(c) {
      var file, leftover, ops, h :| OverBound(c, Run(c, Start(file, leftover), ops).world.svc, h);
      if RenewalIsIdle(c) || !Shares(c) {
        NeverOver(c, file, leftover, ops, h);
      }
    }
    if CanRelay(c) {
      var b := SomeoneElse(c.faults.swallowKeepalive + {"A"});
      RelayOutlives(c, None, b);
      var ops := Relay(b) + Beats(b, c.holdCeiling - 1);
      assert OverBound(c, Run(c, Start(None, None), ops).world.svc, HeldBy("A", 1, c.holdCeiling + 1 + c.lease));
    }
  }

  // ---------- One agent's operation ending another's hold

  /** After this run, this operation is not the holder's own, nor revocation, nor forced expiry, and
      yet a live hold does not survive it as it was. */
  ghost predicate Harmed(
    c: Setup, file: Option<Content>, leftover: Option<Content>, ops: seq<Op>, op: Op, h: HeldBy)
  {
    var rs := Run(c, Start(file, leftover), ops);
    && h in rs.world.svc.held && rs.world.svc.now < h.deadline
    && !ActsFor(rs, op, h.holder) && !op.ForceRelease? && !op.ForceExpire?
    && h !in Step(c, rs, op).world.svc.held
  }

  ghost predicate HoldsCanBeHarmed(c: Setup) {
    exists file, leftover, ops, op, h :: Harmed(c, file, leftover, ops, op, h)
  }

  lemma {:induction false} AbandonGivesAway(c: Setup, w: World, a: HolderId, h: HeldBy)
    requires w.svc.held == [h] && w.svc.now < h.deadline && a !in c.faults.dropRelease
    requires a in w.open && w.open[a].holding == Holding(a, h.ticket)
    ensures Abandoned(c, w, a).svc.held == []
  {
    hide Released;
    GivenBack(c, w.svc, Holding(a, h.ticket));
    OneHeld(h);
  }

  function LostTurn(a: HolderId, b: HolderId): seq<Op> {
    [Op.Read(a), Op.ForceExpire, Op.Read(b)]
  }

  /** A loses the lock, and B takes it on the same ticket. */
  lemma {:induction false} TicketIsShared(c: Setup, a: HolderId, b: HolderId)
    requires c.span == Full && c.faults.nonMonotonicTickets && c.lease > 0 && a != b
    ensures var w := Run(c, Start(None, None), LostTurn(a, b)).world;
            && w.svc.held == [HeldBy(b, 1, c.lease)] && w.svc.now == 0
            && a in w.open && w.open[a].holding == Holding(a, 1)
  {
    hide Run, ReadDone, Expiries, AppendAll;
    var r0 := Start(None, None);
    var r1 := Step(c, r0, Op.Read(a));
    var r2 := Step(c, r1, Op.ForceExpire);
    ReadBeside(c, r0.world, a);
    ReadBeside(c, r2.world, b);
    RunFour(c, r0, Op.Read(a), Op.ForceExpire, Op.Read(b), Op.Probe);
  }

  /** Then A gives it back. */
  lemma {:induction false} BrokenTicketsGiveHoldsAway(c: Setup, a: HolderId, b: HolderId)
    requires c.span == Full && c.faults.nonMonotonicTickets && c.lease > 0
    requires a != b && a !in c.faults.dropRelease
    ensures Harmed(c, None, None, LostTurn(a, b), Op.Abandon(a), HeldBy(b, 1, c.lease))
  {
    hide Run, Abandoned, LostTurn;
    TicketIsShared(c, a, b);
    AbandonGivesAway(c, Run(c, Start(None, None), LostTurn(a, b)).world, a, HeldBy(b, 1, c.lease));
  }

  /** Under the write-only span, a write that waits while its hold is lost and taken again. */
  function OvertakenTurn(a: HolderId, b: HolderId): seq<Op> {
    [Op.Authorize(a, 0, "a"), Op.ForceExpire, Op.Authorize(b, 1, "b")]
  }

  lemma {:induction false} WaitsOnASharedTicket(c: Setup, a: HolderId, b: HolderId)
    requires c.span == WriteOnly && c.faults.nonMonotonicTickets && c.lease > 0 && c.failAt != Some(AfterTempWritten)
    ensures var rs := Run(c, Start(None, None), OvertakenTurn(a, b));
            && rs.world.svc.held == [HeldBy(b, 1, c.lease)] && rs.world.svc.now == 0 && rs.world.svc.version == 2
            && |rs.pool| > 0 && rs.pool[0] == Authorized(Holding(a, 1), 1, "a")
  {
    hide Run, AuthorizeStep, Expiries, AppendAll;
    var r0 := Start(None, None);
    var r1 := Step(c, r0, Op.Authorize(a, 0, "a"));
    var r2 := Step(c, r1, Op.ForceExpire);
    AuthorizeBeside(c, r0, a, "a");
    AuthorizeBeside(c, r2, b, "b");
    RunFour(c, r0, Op.Authorize(a, 0, "a"), Op.ForceExpire, Op.Authorize(b, 1, "b"), Op.Probe);
  }

  lemma {:induction false} SupersededGivesAway(c: Setup, w: World, a: Authorized, h: HeldBy)
    requires w.svc.held == [h] && w.svc.now < h.deadline && a.holding.holder !in c.faults.dropRelease
    requires a.newVersion != w.svc.version && a.holding.ticket == h.ticket
    ensures Applied(c, w, a).0.svc.held == []
  {
    hide Swept, Released;
    NothingToSweep(w.svc);
    GivenBack(c, Record(w.svc, WriteRefused(a.holding.holder, StaleVersion(a.newVersion, w.svc.version), a.content)),
      a.holding);
    OneHeld(h);
  }

  /** Then it is applied: superseded, it gives back the other's hold. */
  lemma {:induction false} LateWritesGiveHoldsAway(c: Setup, a: HolderId, b: HolderId)
    requires c.span == WriteOnly && c.faults.nonMonotonicTickets && c.lease > 0 && c.failAt != Some(AfterTempWritten)
    requires a != b && a !in c.faults.dropRelease
    ensures Harmed(c, None, None, OvertakenTurn(a, b), Op.Apply(0), HeldBy(b, 1, c.lease))
  {
    hide Run, Applied, OvertakenTurn;
    WaitsOnASharedTicket(c, a, b);
    var rs := Run(c, Start(None, None), OvertakenTurn(a, b));
    SupersededGivesAway(c, rs.world, rs.pool[0], HeldBy(b, 1, c.lease));
  }

  // ---------- Where nothing is ever given back

  /** Under the write-only span, if staging fails, nothing is ever open, authorized or given back. */
  lemma {:induction false} StepGivesNothingBack(c: Setup, rs: RunState, op: Op, h: HeldBy)
    requires c.span == WriteOnly && c.failAt == Some(AfterTempWritten)
    requires rs.world.open == map[] && rs.pool == []
    ensures Step(c, rs, op).pool == []
    ensures h in rs.world.svc.held && rs.world.svc.now < h.deadline && !op.ForceRelease? && !op.ForceExpire? ==>
              h in Step(c, rs, op).world.svc.held
  {
    hide Swept, Acquired;
    var s := rs.world.svc;
    if h in s.held && s.now < h.deadline {
      SweepKeeps(s, h);
      if op.Write? || op.Authorize? {
        TakeKeeps(c, s, op.holder, h);
      }
    }
  }

  lemma {:induction false} RunAuthorizesNothing(
    c: Setup, file: Option<Content>, leftover: Option<Content>, ops: seq<Op>)
    requires c.span == WriteOnly && c.failAt == Some(AfterTempWritten)
    ensures Run(c, Start(file, leftover), ops).pool == []
  {
    if ops == [] {
    } else {
      hide Step;
      var before := ops[..|ops| - 1];
      RunAuthorizesNothing(c, file, leftover, before);
      RunOpensNothing(c, file, leftover, before);
      StepGivesNothingBack(c, Run(c, Start(file, leftover), before), ops[|ops| - 1], HeldBy("", 0, 0));
    }
  }

  lemma {:induction false} HarmNeeds(
    c: Setup, file: Option<Content>, leftover: Option<Content>, ops: seq<Op>, op: Op, h: HeldBy)
    requires Harmed(c, file, leftover, ops, op, h)
    ensures c.faults.nonMonotonicTickets && c.lease > 0
    ensures c.span == Full || c.failAt != Some(AfterTempWritten)
  {
    hide Run, Step, ActsFor;
    if !c.faults.nonMonotonicTickets {
      OthersAreUntouched(c, file, leftover, ops, op, h);
    }
    RunShape(c, file, leftover, ops);
    if c.span == WriteOnly && c.failAt == Some(AfterTempWritten) {
      RunOpensNothing(c, file, leftover, ops);
      RunAuthorizesNothing(c, file, leftover, ops);
      StepGivesNothingBack(c, Run(c, Start(file, leftover), ops), op, h);
    }
  }

  /** One agent's operation can end or move another's live hold exactly when tickets are broken and
      leases have length, unless staging fails under the write-only span: then nothing is ever given
      back. */
  lemma {:induction false} HoldsCanBeHarmedExactly(c: Setup)
    ensures HoldsCanBeHarmed(c) <==>
            && c.faults.nonMonotonicTickets && c.lease > 0
            && (c.span == Full || c.failAt != Some(AfterTempWritten))
  {
    hide Harmed;
    if HoldsCanBeHarmed(c) {
      var file, leftover, ops, op, h :| Harmed(c, file, leftover, ops, op, h);
      HarmNeeds(c, file, leftover, ops, op, h);
    }
    if c.faults.nonMonotonicTickets && c.lease > 0 {
      var a := SomeoneElse(c.faults.dropRelease);
      var b := SomeoneElse({a});
      if c.span == Full {
        BrokenTicketsGiveHoldsAway(c, a, b);
      } else if c.failAt != Some(AfterTempWritten) {
        LateWritesGiveHoldsAway(c, a, b);
      }
    }
  }
}
