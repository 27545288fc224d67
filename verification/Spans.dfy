/** What each span buys. Under the write-only span nothing is held between operations and the version
    decides; under the full span the held ticket decides and the version check is redundant. */
module Spans {
  import opened Types
  import opened Histories
  import opened Stores
  import opened Locks
  import opened HoldLists
  import opened Harnesses
  import opened Runs
  import opened ServiceCalls
  import opened Effects
  import opened Commits
  import opened Fencing
  import opened TicketRuns
  import opened AtomicRuns
  import opened Holds
  import opened Attempts
  import opened FaultyRuns
  import opened Scenarios

  // ---------- Write-only: a write that takes its own hold

  /** The next ticket will be at least as high as every ticket held. */
  ghost predicate Newest(c: Setup, s: Service) {
    forall h | h in s.held :: h.ticket <= Issued(c, s).1
  }

  lemma {:induction false} RunNewest(c: Setup, file: Option<Content>, leftover: Option<Content>, ops: seq<Op>)
    ensures Newest(c, Run(c, Start(file, leftover), ops).world.svc)
  {
    hide Run;
    if c.faults.nonMonotonicTickets {
      RunStuck(c, file, leftover, ops);
    } else {
      RunTickets(c, file, leftover, ops);
    }
  }

  lemma {:induction false} InForceOnTop(held: seq<HeldBy>, top: HeldBy)
    requires forall h | h in held :: h.ticket <= top.ticket
    ensures InForce(held + [top]) == Some(top.ticket)
    ensures top.ticket in Tickets(held + [top])
  {
    var all := held + [top];
    InForceIsMax(all);
    assert all[|all| - 1] == top;
    assert forall h | h in all :: h.ticket <= top.ticket;
  }

  /** A lease of no length is over before it is used. */
  lemma {:induction false} AliveNext(held: seq<HeldBy>, h: HeldBy, now: nat)
    ensures Alive(held + [h], now) == Alive(held, now) + if now < h.deadline then [h] else []
  {
    assert (held + [h])[..|held|] == held;
  }

  /** What the service decides on a hold that has just been taken. */
  function JustDecided(s: Service, readAt: nat): Result<nat, Refusal> {
    if readAt == s.version then Ok(s.version + 1) else Err(StaleVersion(readAt, s.version))
  }

  /** A take adds its own hold, for one lease, to the live ones. */
  lemma {:induction false} TakenAdds(c: Setup, s: Service, holder: HolderId)
    requires Acquired(c, s, holder).1.Ok?
    ensures var (s', r) := Acquired(c, s, holder);
            && r.value == Holding(holder, Issued(c, s).1)
            && s'.held == Alive(s.held, s.now) + [HeldBy(holder, r.value.ticket, s.now + c.lease)]
            && s'.version == s.version && s'.now == s.now
  {
    hide Alive, Lapsed, Expiries, AppendAll;
  }

  lemma {:induction false} TakenHolds(c: Setup, s: Service, holder: HolderId)
    requires Shape(c, s) && Newest(c, s) && Acquired(c, s, holder).1.Ok?
    ensures var (s', r) := Acquired(c, s, holder);
            var alive := Alive(s'.held, s'.now);
            && s'.version == s.version
            && (c.lease == 0 ==> alive == [] && InForce(alive) == None)
            && (c.lease > 0 ==> InForce(alive) == Some(r.value.ticket) && r.value.ticket in Tickets(alive))
  {
    hide Acquired, Issued, Alive, InForce, Tickets, Shape;
    var top := HeldBy(holder, Issued(c, s).1, s.now + c.lease);
    TakenAdds(c, s, holder);
    AliveMeans(s.held, s.now);
    AliveTwice(s.held, s.now);
    AliveNext(Alive(s.held, s.now), top, s.now);
    InForceOnTop(Alive(s.held, s.now), top);
    if c.lease == 0 {
      NothingAlive(c, s);
      InForceIsMax([]);
    }
  }

  lemma {:induction false} NothingAlive(c: Setup, s: Service)
    requires Shape(c, s) && c.lease == 0
    ensures Alive(s.held, s.now) == []
  {
    var alive := Alive(s.held, s.now);
    assert alive == [] || alive[0] in alive;
    AliveMeans(s.held, s.now);
  }

  lemma {:induction false} TakenDecides(c: Setup, s: Service, holder: HolderId, event: Event, readAt: nat)
    requires Shape(c, s) && Newest(c, s) && Acquired(c, s, holder).1.Ok?
    ensures var (s', taken) := Acquired(c, s, holder);
            var r := Committed(Record(s', event), taken.value, readAt).1;
            && (c.lease == 0 ==> r == Err(StaleTicket(taken.value.ticket, None)))
            && (c.lease > 0 ==> r == JustDecided(s, readAt))
  {
    hide Acquired, Shape, Newest, Alive;
    TakenHolds(c, s, holder);
  }

  /** Under the write-only span, an unblocked write with a lease to work in gets exactly this. */
  function WriteOnlyOutcome(c: Setup, s: Service, readAt: nat): Result<nat, WriteError> {
    if c.failAt == Some(AfterTempWritten) then Err(Io)
    else if readAt != s.version then Err(Refused(StaleVersion(readAt, s.version)))
    else if c.failAt == Some(DuringRename) then Err(Io)
    else Ok(s.version + 1)
  }

  /** Somebody else's hold stands in the way. */
  predicate Blocked(c: Setup, s: Service) {
    Alive(s.held, s.now) != [] && !c.faults.grantTwice
  }

  lemma {:induction false} TakenUnlessBlocked(c: Setup, s: Service, holder: HolderId)
    ensures Acquired(c, s, holder).1.Ok? <==> !Blocked(c, s)
    ensures Blocked(c, s) ==> Acquired(c, s, holder).1 == Err(Contended)
    ensures Acquired(c, s, holder).1.Ok? ==> Acquired(c, s, holder).1.value.holder == holder
  {
    hide Alive, Lapsed, Expiries, AppendAll;
  }

  lemma {:induction false} WriteOnlyOf(c: Setup, w: World, holder: HolderId, readAt: nat, content: Content)
    requires c.span == WriteOnly && Shape(c, w.svc) && Newest(c, w.svc)
    ensures var r := Written(c, w, holder, readAt, content).1;
            && (Blocked(c, w.svc) ==> r == Err(Lock(Contended)))
            && (!Blocked(c, w.svc) && c.lease > 0 ==> r == WriteOnlyOutcome(c, w.svc, readAt))
            && (c.lease == 0 ==> r.Err?)
  {
    hide Acquired, Shape, Newest, Committed, Released, Applied, Blocked;
    TakenUnlessBlocked(c, w.svc, holder);
    if !Blocked(c, w.svc) {
      var (svc, taken) := Acquired(c, w.svc, holder);
      var w' := w.(svc := svc);
      AcquiredQuietly(c, w.svc, holder);
      TakenDecides(c, w.svc, holder, WriteAttempted(holder, taken.value.ticket, readAt), readAt);
      if Submitted(c, w', holder, taken.value, readAt, content).1.Ok? {
        AppliedAtOnce(c, w', holder, taken.value, readAt, content);
      }
    }
  }

  /** Under the write-only span a write succeeds exactly when nothing is made to fail, there is a
      lease to work in, no live hold blocks it, and its version is the service's current one.
      Every fault is allowed, and everything else may have happened before. */
  lemma {:induction false} WriteOnlyAcceptsExactly(
    c: Setup, file: Option<Content>, leftover: Option<Content>, ops: seq<Op>,
    holder: HolderId, readAt: nat, content: Content)
    requires c.span == WriteOnly
    ensures var w := Run(c, Start(file, leftover), ops).world;
            var r := Written(c, w, holder, readAt, content).1;
            && (r.Ok? <==> c.failAt == None && c.lease > 0 && !Blocked(c, w.svc) && readAt == w.svc.version)
            && (Blocked(c, w.svc) ==> r == Err(Lock(Contended)))
            && (!Blocked(c, w.svc) && c.lease > 0 ==> r == WriteOnlyOutcome(c, w.svc, readAt))
  {
    hide Run, Written, Shape, Newest, Blocked;
    var w := Run(c, Start(file, leftover), ops).world;
    RunShape(c, file, leftover, ops);
    RunNewest(c, file, leftover, ops);
    WriteOnlyOf(c, w, holder, readAt, content);
    assert c.failAt.None? || c.failAt.value == AfterTempWritten || c.failAt.value == DuringRename;
  }

  // ---------- What a write leaves held

  /** The service would say yes: the ticket is live, none that is live is higher, and the version is
      current. */
  predicate Decides(s: Service, holding: Holding, readAt: nat) {
    var alive := Alive(s.held, s.now);
    holding.ticket in Tickets(alive) && InForce(alive) == Some(holding.ticket) && readAt == s.version
  }

  /** The ways out of a write that do not release its hold: the release is dropped, staging fails, the
      rename fails, or the service refuses under the full span. */
  predicate Skips(c: Setup, s: Service, holding: Holding, readAt: nat) {
    || holding.holder in c.faults.dropRelease
    || c.failAt == Some(AfterTempWritten)
    || if Decides(s, holding, readAt) then c.failAt == Some(DuringRename) else c.span == Full
  }

  /** The holds after a write that had this one to use. */
  function Left(c: Setup, s: Service, holding: Holding, readAt: nat): seq<HeldBy> {
    if c.failAt == Some(AfterTempWritten) then s.held
    else if Skips(c, s, holding, readAt) then Alive(s.held, s.now)
    else Without(Alive(s.held, s.now), holding.ticket)
  }

  lemma {:induction false} ReleaseLeaves(c: Setup, s: Service, holding: Holding)
    ensures var (s', alive) := (Released(c, s, holding), Alive(s.held, s.now));
            && s'.now == s.now
            && s'.held == if holding.holder in c.faults.dropRelease then alive else Without(alive, holding.ticket)
  {
    hide Alive, Lapsed, Without, Expiries, AppendAll;
  }

  lemma {:induction false} SubmitLeaves(
    c: Setup, w: World, holder: HolderId, holding: Holding, readAt: nat, content: Content)
    ensures var (w', r) := Submitted(c, w, holder, holding, readAt, content);
            && (r.Ok? <==> c.failAt != Some(AfterTempWritten) && Decides(w.svc, holding, readAt))
            && w'.svc.now == w.svc.now
            && (r.Err? ==> w'.svc.held == Left(c, w.svc, holding, readAt))
            && (r.Ok? ==> w'.svc.held == Alive(w.svc.held, w.svc.now))
  {
    hide Alive, Lapsed, Without, Expiries, AppendAll, InForce, Tickets, Released;
    AliveTwice(w.svc.held, w.svc.now);
    var attempted := Record(w.svc, WriteAttempted(holder, holding.ticket, readAt));
    match Committed(attempted, holding, readAt)
    case (_, Ok(_)) =>
    case (svc, Err(reason)) => ReleaseLeaves(c, Record(svc, WriteRefused(holder, reason, content)), holding);
  }

  lemma {:induction false} ApplyLeaves(c: Setup, w: World, a: Authorized)
    requires a.newVersion == w.svc.version && w.store.tmp.Some?
    ensures var (w', alive) := (Applied(c, w, a).0, Alive(w.svc.held, w.svc.now));
            && w'.svc.now == w.svc.now
            && w'.svc.held == if c.failAt == Some(DuringRename) || a.holding.holder in c.faults.dropRelease
                              then alive else Without(alive, a.holding.ticket)
  {
    hide Alive, Lapsed, Without, Expiries, AppendAll, Released;
    AliveTwice(w.svc.held, w.svc.now);
    var event := WriteAccepted(a.holding.holder, a.holding.ticket, a.newVersion, a.content);
    ReleaseLeaves(c, Record(Swept(w.svc), event), a.holding);
  }

  /** There is a hold for the write to use. */
  predicate Available(c: Setup, w: World, holder: HolderId) {
    match c.span
    case Full => holder in w.open && w.svc.now < w.open[holder].takenAt + c.holdCeiling
    case WriteOnly => !Blocked(c, w.svc)
  }

  /** What a caller could check before asking: will the write be authorized? */
  predicate Approved(c: Setup, w: World, holder: HolderId, readAt: nat) {
    && Available(c, w, holder)
    && c.failAt != Some(AfterTempWritten)
    && match c.span
       case Full => Decides(w.svc, w.open[holder].holding, readAt)
       case WriteOnly => c.lease > 0 && readAt == w.svc.version
  }

  lemma {:induction false} AvailableExactly(c: Setup, w: World, holder: HolderId)
    ensures HoldForWrite(c, w, holder).1.Ok? <==> Available(c, w, holder)
  {
    hide Acquired, Blocked;
    TakenUnlessBlocked(c, w.svc, holder);
  }

  lemma {:induction false} ApprovedExactly(c: Setup, w: World, holder: HolderId, readAt: nat, content: Content)
    requires Shape(c, w.svc) && Newest(c, w.svc)
    ensures Authorizing(c, w, holder, readAt, content).1.Ok? <==> Approved(c, w, holder, readAt)
  {
    hide Acquired, Submitted, Blocked, Shape, Newest, InForce, Tickets, Alive;
    TakenUnlessBlocked(c, w.svc, holder);
    if Available(c, w, holder) {
      var (w1, taken) := HoldForWrite(c, w, holder);
      SubmitLeaves(c, w1, holder, taken.value, readAt, content);
      if c.span == WriteOnly {
        TakenHolds(c, w.svc, holder);
      }
    }
  }

  /** A write that has a hold to use leaves exactly this. */
  lemma {:induction false} WriteLeaves(c: Setup, w: World, holder: HolderId, readAt: nat, content: Content)
    requires HoldForWrite(c, w, holder).1.Ok?
    ensures var (w1, taken) := HoldForWrite(c, w, holder);
            var s' := Written(c, w, holder, readAt, content).0.svc;
            s'.now == w1.svc.now && s'.held == Left(c, w1.svc, taken.value, readAt)
  {
    hide HoldForWrite, Submitted, Applied, Alive, Decides;
    var (w1, taken) := HoldForWrite(c, w, holder);
    SubmitLeaves(c, w1, holder, taken.value, readAt, content);
    AliveTwice(w1.svc.held, w1.svc.now);
    match Submitted(c, w1, holder, taken.value, readAt, content)
    case (_, Err(_)) =>
    case (w2, Ok(a)) =>
      SubmittedAuthorized(c, w1, holder, taken.value, readAt, content);
      ApplyLeaves(c, w2, a);
  }

  /** Under both spans and every fault: a write ends every live hold on its ticket, and no other,
      unless it leaves by one of the ways that skip the release; then all live holds stay. */
  lemma {:induction false} HoldSurvivesExactly(
    c: Setup, w: World, holder: HolderId, readAt: nat, content: Content, h: HeldBy)
    requires HoldForWrite(c, w, holder).1.Ok?
    ensures var (w1, taken) := HoldForWrite(c, w, holder);
            var s' := Written(c, w, holder, readAt, content).0.svc;
            && s'.now == w1.svc.now
            && (h in s'.held && s'.now < h.deadline <==>
                  && h in w1.svc.held && w1.svc.now < h.deadline
                  && (h.ticket == taken.value.ticket ==> Skips(c, w1.svc, taken.value, readAt)))
  {
    hide HoldForWrite, Written, Alive, Without, Decides;
    var (w1, taken) := HoldForWrite(c, w, holder);
    WriteLeaves(c, w, holder, readAt, content);
    AliveMeans(w1.svc.held, w1.svc.now);
    WithoutMeans(Alive(w1.svc.held, w1.svc.now), taken.value.ticket);
  }

  // ---------- Write-only: nothing held between operations

  ghost predicate Idle(w: World) {
    w.svc.held == [] && w.open == map[]
  }

  /** Nothing keeps a write from giving back the hold it takes, or the hold is over at once. */
  predicate Empties(c: Setup) {
    && c.failAt != Some(AfterTempWritten)
    && (c.lease == 0 || (c.failAt == None && c.faults.dropRelease == {}))
  }

  /** Under the write-only span nothing is ever open. */
  lemma {:induction false} StepOpensNothing(c: Setup, rs: RunState, op: Op)
    requires c.span == WriteOnly && rs.world.open == map[]
    ensures Step(c, rs, op).world.open == map[]
  {
    hide Swept, Acquired, Released, Renewed, Committed, ForceReleased, ForceExpired, Published;
  }

  lemma {:induction false} RunOpensNothing(
    c: Setup, file: Option<Content>, leftover: Option<Content>, ops: seq<Op>)
    requires c.span == WriteOnly
    ensures Run(c, Start(file, leftover), ops).world.open == map[]
  {
    if ops == [] {
    } else {
      hide Step;
      RunOpensNothing(c, file, leftover, ops[..|ops| - 1]);
      StepOpensNothing(c, Run(c, Start(file, leftover), ops[..|ops| - 1]), ops[|ops| - 1]);
    }
  }

  /** A take where nothing is held. */
  lemma {:induction false} TakenFirst(c: Setup, w: World, holder: HolderId)
    requires c.span == WriteOnly && w.svc.held == []
    ensures var (w', r) := HoldForWrite(c, w, holder);
            && r == Ok(Holding(holder, Issued(c, w.svc).1))
            && w'.svc.now == w.svc.now && w'.svc.version == w.svc.version
            && w'.svc.held == [HeldBy(holder, r.value.ticket, w.svc.now + c.lease)]
  {
    hide Acquired, Alive, Blocked;
    NoneHeld(0, w.svc.now);
    TakenUnlessBlocked(c, w.svc, holder);
    NotBlocked(c, w.svc);
    TakenAdds(c, w.svc, holder);
  }

  lemma {:induction false} NotBlocked(c: Setup, s: Service)
    requires s.held == []
    ensures !Blocked(c, s)
  {
  }

  lemma {:induction false} WrittenIdle(c: Setup, w: World, holder: HolderId, readAt: nat, content: Content)
    requires c.span == WriteOnly && Empties(c) && w.svc.held == []
    ensures Written(c, w, holder, readAt, content).0.svc.held == []
  {
    hide HoldForWrite, Written, Alive, Without, Decides;
    var (w1, taken) := HoldForWrite(c, w, holder);
    TakenFirst(c, w, holder);
    WriteLeaves(c, w, holder, readAt, content);
    var h := w1.svc.held[0];
    OneHeld(h);
    AliveNext([], h, w.svc.now);
    assert [] + [h] == [h] && Alive([], w.svc.now) == [] && Without([], h.ticket) == [] by {
      NoneHeld(h.ticket, w.svc.now);
    }
  }

  lemma {:induction false} NoneHeld(ticket: nat, now: nat)
    ensures Alive([], now) == [] && Without([], ticket) == []
  {
  }

  lemma {:induction false} IdleSwept(s: Service)
    requires s.held == []
    ensures Swept(s).held == []
  {
  }

  lemma {:induction false} StepIdle(c: Setup, rs: RunState, op: Op)
    requires c.span == WriteOnly && Empties(c) && Idle(rs.world)
    requires !op.Authorize? && !op.Apply?
    ensures Idle(Step(c, rs, op).world)
  {
    hide WriteStep, Written, Swept;
    StepOpensNothing(c, rs, op);
    IdleSwept(rs.world.svc);
    if op.Write? {
      WriteStepIsWritten(c, rs, op.holder, op.readAt, op.content);
      WrittenIdle(c, rs.world, op.holder, op.readAt, op.content);
    }
  }

  /** Under the write-only span, unless a write can keep its hold, nothing is held and nothing is open
      between the operations of an atomic run. */
  lemma {:induction false} WriteOnlyIsIdle(
    c: Setup, file: Option<Content>, leftover: Option<Content>, ops: seq<Op>)
    requires c.span == WriteOnly && Empties(c) && Atomic(ops)
    ensures Idle(Run(c, Start(file, leftover), ops).world)
  {
    if ops == [] {
    } else {
      hide Step, Idle, Empties;
      WriteOnlyIsIdle(c, file, leftover, ops[..|ops| - 1]);
      StepIdle(c, Run(c, Start(file, leftover), ops[..|ops| - 1]), ops[|ops| - 1]);
    }
  }

  /** Otherwise the first write of all can leave its hold behind. */
  lemma {:induction false} WriteKeepsItsHold(c: Setup, holder: HolderId)
    requires c.span == WriteOnly && !Empties(c)
    requires c.failAt == None ==> holder in c.faults.dropRelease
    ensures Run(c, Start(None, None), [Op.Write(holder, 0, "a")]).world.svc.held == [HeldBy(holder, 1, c.lease)]
  {
    hide HoldForWrite, Written, WriteStep, Alive, Without;
    var r0 := Start(None, None);
    var (w1, taken) := HoldForWrite(c, r0.world, holder);
    TakenFirst(c, r0.world, holder);
    WriteLeaves(c, r0.world, holder, 0, "a");
    var h := HeldBy(holder, 1, c.lease);
    OneHeld(h);
    AliveNext([], h, 0);
    NoneHeld(1, 0);
    assert [] + [h] == [h];
    assert c.failAt.None? || c.failAt.value == AfterTempWritten || c.failAt.value == DuringRename;
    RunTwo(c, r0, Op.Write(holder, 0, "a"), Op.Probe);
    WriteStepIsWritten(c, r0, holder, 0, "a");
  }

  /** Nothing is held or open between the operations of any atomic run exactly under the write-only
      span, where staging works and either leases have no length or renames work and no release is
      dropped. */
  lemma {:induction false} WriteOnlyIsIdleExactly(c: Setup)
    ensures (forall file, leftover, ops | Atomic(ops) :: Idle(Run(c, Start(file, leftover), ops).world)) <==>
            c.span == WriteOnly && Empties(c)
  {
    hide Run;
    if c.span == WriteOnly && Empties(c) {
      forall file, leftover, ops | Atomic(ops)
        ensures Idle(Run(c, Start(file, leftover), ops).world)
      {
        WriteOnlyIsIdle(c, file, leftover, ops);
      }
    } else if c.span == WriteOnly {
      var holder: HolderId :| c.failAt == None ==> holder in c.faults.dropRelease;
      WriteKeepsItsHold(c, holder);
      assert Atomic([Op.Write(holder, 0, "a")]);
      assert !Idle(Run(c, Start(None, None), [Op.Write(holder, 0, "a")]).world);
    } else {
      ReadIsOpen(c, "A");
      assert Atomic([Op.Read("A")]);
      assert !Idle(Run(c, Start(None, None), [Op.Read("A")]).world);
    }
  }

  lemma {:induction false} ReadIsOpen(c: Setup, holder: HolderId)
    requires c.span == Full
    ensures holder in Run(c, Start(None, None), [Op.Read(holder)]).world.open
  {
    hide Acquired, Swept;
    RunTwo(c, Start(None, None), Op.Read(holder), Op.Probe);
    TakenUnlessBlocked(c, FRESH_SERVICE, holder);
    NoneHeld(1, 0);
  }

  lemma {:induction false} WriteOnlyNeedsOnlyTheVersion(
    c: Setup, file: Option<Content>, leftover: Option<Content>, ops: seq<Op>,
    holder: HolderId, readAt: nat, content: Content)
    requires c.span == WriteOnly && c.failAt == None && c.faults.dropRelease == {} && Atomic(ops)
    requires c.lease > 0
    ensures var w := Run(c, Start(file, leftover), ops).world;
            Written(c, w, holder, readAt, content).1 ==
            if readAt == w.svc.version then Ok(w.svc.version + 1)
            else Err(Refused(StaleVersion(readAt, w.svc.version)))
  {
    hide Run, Written;
    WriteOnlyIsIdle(c, file, leftover, ops);
    WriteOnlyAcceptsExactly(c, file, leftover, ops, holder, readAt, content);
  }

  // ---------- Full span: the ticket decides

  /** While the agent's open hold is still on this ticket, and the ticket is still held, the version
      has not moved. */
  ghost predicate Untouched(w: World, holder: HolderId, ticket: nat, version: nat) {
    && ticket < w.svc.nextTicket
    && (holder in w.open && w.open[holder].holding.ticket == ticket && ticket in Tickets(w.svc.held) ==>
          w.svc.version == version)
  }

  /** Entries are only taken out of the open map, or put in on tickets not yet issued. */
  ghost predicate OpensOnlyNew(w: World, w': World) {
    forall k | k in w'.open ::
      (k in w.open && w'.open[k] == w.open[k]) || w.svc.nextTicket <= w'.open[k].holding.ticket
  }

  lemma {:induction false} TakenIsNew(c: Setup, s: Service, holder: HolderId)
    requires !c.faults.nonMonotonicTickets && Acquired(c, s, holder).1.Ok?
    ensures Acquired(c, s, holder).1.value.ticket == s.nextTicket
  {
    hide Alive, Lapsed, Expiries, AppendAll;
  }

  lemma {:induction false} ReadOpensNew(c: Setup, w: World, holder: HolderId)
    requires !c.faults.nonMonotonicTickets
    ensures OpensOnlyNew(w, ReadDone(c, w, holder).0)
  {
    hide Acquired, Swept;
    if Acquired(c, w.svc, holder).1.Ok? {
      TakenIsNew(c, w.svc, holder);
    }
  }

  /** Apart from writes, no operation moves the version. */
  lemma {:induction false} OtherStepUntouched(
    c: Setup, rs: RunState, op: Op, holder: HolderId, ticket: nat, version: nat)
    requires Untouched(rs.world, holder, ticket, version) && OwnOpen(rs.world)
    requires !c.faults.nonMonotonicTickets && !op.Write? && !op.Authorize? && !op.Apply?
    ensures Untouched(Step(c, rs, op).world, holder, ticket, version)
  {
    hide Reaches, QuietService, WithoutAccepting;
    assert OpensOnlyNew(rs.world, Step(c, rs, op).world) by {
      hide ReadDone, Acquired, Released, Renewed;
      if op.Read? {
        ReadOpensNew(c, rs.world, op.holder);
      }
    }
    hide Step;
    StepReaches(c, rs, op);
    ReachesOnward(c, rs.world.svc, Step(c, rs, op).world.svc);
    OtherStepsAcceptNothing(c, rs, op);
  }

  /** Under the full span, a write that raises the version closes the hold it was made under. */
  lemma {:induction false} WriteCloses(
    c: Setup, w: World, holder: HolderId, readAt: nat, content: Content)
    requires c.span == Full && c.failAt != Some(DuringRename) && OwnOpen(w)
    ensures var w' := Written(c, w, holder, readAt, content).0;
            && OpensOnlyNew(w, w')
            && (w'.svc.version != w.svc.version ==>
                  && holder in w.open
                  && holder !in w'.open
                  && w.open[holder].holding.ticket in Tickets(w.svc.held))
  {
    hide Submitted, Applied;
    match HoldForWrite(c, w, holder)
    case (_, Err(_)) =>
    case (w1, Ok(holding)) =>
      match Submitted(c, w1, holder, holding, readAt, content)
      case (_, Err(_)) =>
        SubmittedRefused(c, w1, holder, holding, readAt, content);
      case (w2, Ok(a)) =>
        AppliedAtOnce(c, w1, holder, holding, readAt, content);
        CommittedWasHeld(c, w1, holder, holding, readAt, content);
  }

  lemma {:induction false} CommittedWasHeld(
    c: Setup, w: World, holder: HolderId, holding: Holding, readAt: nat, content: Content)
    requires Submitted(c, w, holder, holding, readAt, content).1.Ok?
    ensures holding.ticket in Tickets(w.svc.held)
  {
    hide Released, InForce;
    AliveMeans(w.svc.held, w.svc.now);
  }

  lemma {:induction false} OneTicket(c: Setup, s: Service, t: nat, u: nat)
    requires Shape(c, s) && !c.faults.grantTwice && t in Tickets(s.held) && u in Tickets(s.held)
    ensures t == u
  {
  }

  /** Two open entries on one ticket are one entry. */
  lemma {:induction false} OneOwner(w: World, k: HolderId, l: HolderId)
    requires OpensBacked(w) && StampsOk(w.svc.log)
    requires k in w.open && l in w.open && w.open[k].holding.ticket == w.open[l].holding.ticket
    ensures k == l
  {
    assert OpenBacked(w.svc, k, w.open[k]) && OpenBacked(w.svc, l, w.open[l]);
    var t := w.open[k].holding.ticket;
    var i :| GrantAt(w.svc.log, i, k, t);
    var j :| GrantAt(w.svc.log, j, l, t);
    OneGrant(w.svc.log, i, j, k, l, t);
  }

  lemma {:induction false} WriteUntouched(
    c: Setup, w: World, writer: HolderId, readAt: nat, content: Content,
    holder: HolderId, ticket: nat, version: nat)
    requires c.span == Full && c.failAt != Some(DuringRename) && !c.faults.grantTwice
    requires Untouched(w, holder, ticket, version) && OwnOpen(w) && Shape(c, w.svc)
    requires OpensBacked(w) && StampsOk(w.svc.log)
    requires Onward(w.svc, Written(c, w, writer, readAt, content).0.svc)
    ensures Untouched(Written(c, w, writer, readAt, content).0, holder, ticket, version)
  {
    var w' := Written(c, w, writer, readAt, content).0;
    WriteCloses(c, w, writer, readAt, content);
    hide Written, OpensBacked, StampsOk, Shape, OwnOpen;
    if w'.svc.version != w.svc.version && holder in w'.open && w'.open[holder].holding.ticket == ticket
       && ticket in Tickets(w'.svc.held) {
      OneTicket(c, w.svc, ticket, w.open[writer].holding.ticket);
      OneOwner(w, holder, writer);
      assert false;
    }
  }

  lemma {:induction false} StepUntouched(
    c: Setup, rs: RunState, op: Op, holder: HolderId, ticket: nat, version: nat)
    requires c.span == Full && c.failAt != Some(DuringRename)
    requires !c.faults.grantTwice && !c.faults.nonMonotonicTickets && !op.Authorize? && !op.Apply?
    requires Untouched(rs.world, holder, ticket, version) && OwnOpen(rs.world)
    requires Shape(c, rs.world.svc) && OpensBacked(rs.world) && StampsOk(rs.world.svc.log)
    ensures Untouched(Step(c, rs, op).world, holder, ticket, version)
  {
    if op.Write? {
      hide Untouched, OwnOpen, Shape, OpensBacked, StampsOk, WriteStep, Written, Reaches, Onward;
      StepReaches(c, rs, op);
      ReachesOnward(c, rs.world.svc, Step(c, rs, op).world.svc);
      WriteStepIsWritten(c, rs, op.holder, op.readAt, op.content);
      WriteUntouched(c, rs.world, op.holder, op.readAt, op.content, holder, ticket, version);
    } else {
      hide Untouched, OwnOpen, Shape, OpensBacked, StampsOk, Step;
      OtherStepUntouched(c, rs, op, holder, ticket, version);
    }
  }

  /** What every run offers the steps above. */
  lemma {:induction false} RunOffers(c: Setup, file: Option<Content>, leftover: Option<Content>, ops: seq<Op>)
    requires !c.faults.nonMonotonicTickets
    ensures var w := Run(c, Start(file, leftover), ops).world;
            OwnOpen(w) && Shape(c, w.svc) && OpensBacked(w) && StampsOk(w.svc.log)
  {
    hide Run, Shape, OpensBacked, StampsOk, TimesOk, HoldsOk, AttemptsBacked;
    RunOwn(c, file, leftover, ops);
    RunShape(c, file, leftover, ops);
    RunBacked(c, file, leftover, ops);
    RunTickets(c, file, leftover, ops);
  }

  lemma {:induction false} RunUntouched(
    c: Setup, file: Option<Content>, leftover: Option<Content>, past: seq<Op>, between: seq<Op>,
    holder: HolderId, ticket: nat, version: nat)
    requires c.span == Full && c.failAt != Some(DuringRename) && Atomic(between)
    requires !c.faults.grantTwice && !c.faults.nonMonotonicTickets
    requires Untouched(Run(c, Start(file, leftover), past).world, holder, ticket, version)
    ensures Untouched(Run(c, Run(c, Start(file, leftover), past), between).world, holder, ticket, version)
  {
    if between == [] {
    } else {
      var shorter := between[..|between| - 1];
      var rs := Run(c, Run(c, Start(file, leftover), past), shorter);
      RunUntouched(c, file, leftover, past, shorter, holder, ticket, version);
      RunConcat(c, Start(file, leftover), past, shorter);
      RunOffers(c, file, leftover, past + shorter);
      hide Untouched, OwnOpen, Shape, OpensBacked, StampsOk, Step;
      StepUntouched(c, rs, between[|between| - 1], holder, ticket, version);
    }
  }

  /** Right after a read under the full span, its hold is open on its ticket at its version. */
  lemma {:induction false} ReadOpens(c: Setup, w: World, holder: HolderId)
    requires c.span == Full && !c.faults.nonMonotonicTickets && ReadDone(c, w, holder).1.Ok?
    ensures var (w', r) := ReadDone(c, w, holder);
            && holder in w'.open
            && w'.open[holder].holding.ticket < w'.svc.nextTicket
            && w'.svc.version == r.value.version
  {
    hide Alive, Lapsed, Expiries, AppendAll;
  }

  /** With at most one hold, the ticket held is the ticket in force. */
  lemma {:induction false} AliveInForce(c: Setup, s: Service, t: nat)
    requires Shape(c, s) && !c.faults.grantTwice && t in Tickets(Alive(s.held, s.now))
    ensures InForce(Alive(s.held, s.now)) == Some(t)
  {
    AliveMeans(s.held, s.now);
    InForceIsMax(Alive(s.held, s.now));
  }

  /** What a full-span write on the open hold gets, whatever its content: time decides first, then
      the ticket. The version it read plays no part but in the answer. */
  function FullSpanOutcome(c: Setup, w: World, o: Open, readAt: nat): Result<nat, WriteError> {
    var alive := Alive(w.svc.held, w.svc.now);
    if o.takenAt + c.holdCeiling <= w.svc.now then Err(CeilingExceeded)
    else if c.failAt == Some(AfterTempWritten) then Err(Io)
    else if o.holding.ticket in Tickets(alive) then Ok(readAt + 1)
    else Err(Refused(StaleTicket(o.holding.ticket, InForce(alive))))
  }

  lemma {:induction false} FullDecides(c: Setup, s: Service, holding: Holding, readAt: nat)
    requires !c.faults.grantTwice && Shape(c, s) && (holding.ticket in Tickets(s.held) ==> readAt == s.version)
    ensures var alive := Alive(s.held, s.now);
            Committed(s, holding, readAt).1 ==
            if holding.ticket in Tickets(alive) then Ok(readAt + 1)
            else Err(StaleTicket(holding.ticket, InForce(alive)))
  {
    AliveMeans(s.held, s.now);
    if holding.ticket in Tickets(Alive(s.held, s.now)) {
      AliveInForce(c, s, holding.ticket);
    }
    hide Alive, InForce, Shape, Lapsed, Expiries, AppendAll;
  }

  lemma {:induction false} FullOutcome(c: Setup, w: World, holder: HolderId, readAt: nat, content: Content)
    requires c.span == Full && c.failAt != Some(DuringRename) && holder in w.open
    requires !c.faults.grantTwice && Shape(c, w.svc)
    requires w.open[holder].holding.ticket in Tickets(w.svc.held) ==> readAt == w.svc.version
    ensures Written(c, w, holder, readAt, content).1 == FullSpanOutcome(c, w, w.open[holder], readAt)
  {
    hide Alive, InForce, Applied, Shape, Released, Committed;
    var o := w.open[holder];
    var attempted := Record(w.svc, WriteAttempted(holder, o.holding.ticket, readAt));
    SameShape(c, w.svc, attempted);
    FullDecides(c, attempted, o.holding, readAt);
    if Submitted(c, w, holder, o.holding, readAt, content).1.Ok? {
      AppliedAtOnce(c, w, holder, o.holding, readAt, content);
      SubmittedAuthorized(c, w, holder, o.holding, readAt, content);
    }
  }

  /** Under the full span the version check is redundant. After a read that succeeded, and anything
      atomic since, a write passing that read's version while its hold is the open one is never
      refused for its version: short of the ceiling it succeeds exactly when its ticket is still
      held, and is otherwise refused for its ticket. */
  lemma {:induction false} FullSpanTicketDecides(
    c: Setup, file: Option<Content>, leftover: Option<Content>,
    past: seq<Op>, holder: HolderId, between: seq<Op>, content: Content)
    requires c.span == Full && c.failAt != Some(DuringRename) && Atomic(between)
    requires !c.faults.grantTwice && !c.faults.nonMonotonicTickets
    requires ReadDone(c, Run(c, Start(file, leftover), past).world, holder).1.Ok?
    ensures var (read, snapshot) := ReadDone(c, Run(c, Start(file, leftover), past).world, holder);
            var w := Run(c, Start(file, leftover), past + [Op.Read(holder)] + between).world;
            holder in read.open &&
            (holder in w.open && w.open[holder].holding.ticket == read.open[holder].holding.ticket ==>
               Written(c, w, holder, snapshot.value.version, content).1 ==
               FullSpanOutcome(c, w, w.open[holder], snapshot.value.version))
  {
    var rs := Run(c, Start(file, leftover), past);
    var opening := past + [Op.Read(holder)];
    var (read, snapshot) := ReadDone(c, rs.world, holder);
    ReadOpens(c, rs.world, holder);
    var ticket := read.open[holder].holding.ticket;
    hide ReadDone, Written, Run, Shape, OpensBacked, StampsOk, FullSpanOutcome;
    RunUntouched(c, file, leftover, opening, between, holder, ticket, snapshot.value.version);
    RunConcat(c, Start(file, leftover), opening, between);
    RunOffers(c, file, leftover, opening + between);
    var w := Run(c, Start(file, leftover), opening + between).world;
    if holder in w.open && w.open[holder].holding.ticket == ticket {
      FullOutcome(c, w, holder, snapshot.value.version, content);
    }
  }
}
