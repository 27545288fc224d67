/** The one induction principle for the lock service: whatever a run does, it drives the service
    through the service's own calls, so what every call keeps, every run keeps. */
module ServiceCalls {
  import opened Types
  import opened Histories
  import opened Stores
  import opened Locks
  import opened Harnesses
  import opened Runs
  import opened Checkers
  import opened HoldLists

  /** One thing that can happen to the service: what its operations are made of, one entry logged by
      the harness, or the clock moving. */
  datatype Call =
    | Tick(delta: nat)
    | Sweep
    | Note(event: Event)
    | Grant(holder: HolderId)
    | GiveUp(holding: Holding)
    | Extend(ticket: nat)
    | Raise
    | Revoke
    | ExpireAll

  /** An event that is about neither tickets nor holds: the only kind the harness logs itself. */
  predicate Neutral(event: Event) {
    && !event.TicketIssued? && !event.TakeGranted? && !event.Revoked?
    && !event.GiveBack? && !event.LeaseExpired?
  }

  predicate MayGrant(c: Setup, s: Service) {
    (s.held == [] || c.faults.grantTwice) && Alive(s.held, s.now) == s.held
  }

  /** A grant needs nothing held, or double grants, and nothing lapsed; only a live hold is extended. */
  function Called(c: Setup, s: Service, call: Call): Service {
    match call
    case Tick(delta) => s.(now := s.now + delta)
    case Sweep => Swept(s)
    case Note(event) => if Neutral(event) then Record(s, event) else s
    case Grant(holder) => if MayGrant(c, s) then Granted(c, s, holder).0 else s
    case GiveUp(holding) => Returned(s, holding)
    case Extend(ticket) =>
      (match FirstOn(s.held, ticket)
       case Some(i) => if s.now < s.held[i].deadline then Extended(c, s, i) else s
       case None => s)
    case Raise => s.(version := s.version + 1)
    case Revoke => Cleared(s)
    case ExpireAll => ForceExpired(s)
  }

  function Performed(c: Setup, s: Service, calls: seq<Call>): Service {
    if calls == [] then s
    else Called(c, Performed(c, s, calls[..|calls| - 1]), calls[|calls| - 1])
  }

  /** The note that an agent has come to its end. */
  predicate EndNote(event: Event) {
    event.AgentFinished? || event.AgentWedged?
  }

  /** Which calls may be made: whether renewals, in whose names, and whether ends may be noted. */
  datatype Permit = Permit(renewing: bool, names: Option<set<HolderId>>, ends: bool) {
    predicate Covers(name: Option<HolderId>) {
      names.Some? && name.Some? ==> name.value in names.value
    }
  }

  const ANYTHING := Permit(true, None, true)

  const NO_RENEWAL := Permit(false, None, true)

  /** In whose name the call logs or holds anything. */
  function NameOf(call: Call): Option<HolderId> {
    match call
    case Note(event) => HolderOf(event)
    case Grant(holder) => Some(holder)
    case GiveUp(holding) => Some(holding.holder)
    case _ => None
  }

  predicate Permits(permit: Permit, call: Call) {
    && (permit.renewing || !call.Extend?)
    && permit.Covers(NameOf(call))
    && (permit.ends || !call.Note? || !EndNote(call.event))
  }

  predicate Allowed(calls: seq<Call>, permit: Permit) {
    forall i | 0 <= i < |calls| :: Permits(permit, calls[i])
  }

  /** Some permitted calls lead from one state to the other. */
  ghost predicate Reaches(c: Setup, s: Service, s': Service, permit: Permit := ANYTHING) {
    exists calls :: Allowed(calls, permit) && Performed(c, s, calls) == s'
  }

  lemma {:induction false} ReachesSelf(c: Setup, s: Service, permit: Permit := ANYTHING)
    ensures Reaches(c, s, s, permit)
  {
    assert Allowed([], permit) && Performed(c, s, []) == s;
  }

  lemma {:induction false} OneMore(c: Setup, s: Service, s': Service, call: Call, permit: Permit := ANYTHING)
    requires Reaches(c, s, s', permit) && Permits(permit, call)
    ensures Reaches(c, s, Called(c, s', call), permit)
  {
    hide Called;
    var calls :| Allowed(calls, permit) && Performed(c, s, calls) == s';
    assert (calls + [call])[..|calls|] == calls;
    assert Allowed(calls + [call], permit) && Performed(c, s, calls + [call]) == Called(c, s', call);
  }

  lemma {:induction false} ReachesBy(c: Setup, s: Service, call: Call, permit: Permit := ANYTHING)
    requires Permits(permit, call)
    ensures Reaches(c, s, Called(c, s, call), permit)
  {
    ReachesSelf(c, s, permit);
    OneMore(c, s, s, call, permit);
  }

  lemma {:induction false} ReachesTwice(c: Setup, s: Service, s': Service, s'': Service, permit: Permit := ANYTHING)
    requires Reaches(c, s, s', permit) && Reaches(c, s', s'', permit)
    ensures Reaches(c, s, s'', permit)
  {
    var calls :| Allowed(calls, permit) && Performed(c, s', calls) == s'';
    PerformedAfter(c, s, s', calls, permit);
  }

  lemma {:induction false} PerformedAfter(c: Setup, s: Service, s': Service, calls: seq<Call>, permit: Permit)
    requires Reaches(c, s, s', permit) && Allowed(calls, permit)
    ensures Reaches(c, s, Performed(c, s', calls), permit)
  {
    if calls == [] {
    } else {
      hide Reaches, Called;
      var shorter := calls[..|calls| - 1];
      PerformedAfter(c, s, s', shorter, permit);
      OneMore(c, s, Performed(c, s', shorter), calls[|calls| - 1], permit);
    }
  }

  /** The induction principle: what every permitted call keeps, all of them keep. */
  lemma {:induction false} ReachesKeeps(c: Setup, s: Service, s': Service, permit: Permit, I: Service -> bool)
    requires Reaches(c, s, s', permit) && I(s)
    requires forall x, call | I(x) && Permits(permit, call) :: I(Called(c, x, call))
    ensures I(s')
  {
    hide Called;
    var calls :| Allowed(calls, permit) && Performed(c, s, calls) == s';
    PerformedKeeps(c, s, calls, permit, I);
  }

  lemma {:induction false} PerformedKeeps(c: Setup, s: Service, calls: seq<Call>, permit: Permit, I: Service -> bool)
    requires Allowed(calls, permit) && I(s)
    requires forall x, call | I(x) && Permits(permit, call) :: I(Called(c, x, call))
    ensures I(Performed(c, s, calls))
  {
    if calls == [] {
    } else {
      hide Called;
      PerformedKeeps(c, s, calls[..|calls| - 1], permit, I);
    }
  }

  // ---------- The service's own operations

  lemma {:induction false} AcquiredReaches(c: Setup, s: Service, holder: HolderId, permit: Permit := ANYTHING)
    requires permit.Covers(Some(holder))
    ensures Reaches(c, s, Acquired(c, s, holder).0, permit)
  {
    AliveTwice(s.held, s.now);
    hide Reaches, Alive, Lapsed, Expiries, AppendAll, Granted;
    ReachesBy(c, s, Sweep, permit);
    OneMore(c, s, Swept(s), Note(TakeRequested(holder)), permit);
    OneMore(c, s, Asked(s, holder), Grant(holder), permit);
  }

  lemma {:induction false} ReleasedReaches(c: Setup, s: Service, holding: Holding, permit: Permit := ANYTHING)
    requires permit.Covers(Some(holding.holder))
    ensures Reaches(c, s, Released(c, s, holding), permit)
  {
    hide Reaches, Swept, Returned;
    ReachesBy(c, s, Sweep, permit);
    OneMore(c, s, Swept(s), GiveUp(holding), permit);
  }

  lemma {:induction false} RenewedReaches(c: Setup, s: Service, holding: Holding, permit: Permit := ANYTHING)
    requires permit.renewing
    ensures Reaches(c, s, Renewed(c, s, holding).0, permit)
  {
    AliveMeans(s.held, s.now);
    hide Reaches, Lapsed, Alive, Expiries, AppendAll, FirstOn;
    ReachesBy(c, s, Sweep, permit);
    var found := FirstOn(Swept(s).held, holding.ticket);
    if found.Some? {
      assert Swept(s).held[found.value] in Swept(s).held;
    }
    OneMore(c, s, Swept(s), Extend(holding.ticket), permit);
  }

  lemma {:induction false} CommittedReaches(
    c: Setup, s: Service, holding: Holding, expected: nat, permit: Permit := ANYTHING)
    ensures Reaches(c, s, Committed(s, holding, expected).0, permit)
  {
    hide Reaches, Swept, InForce, Tickets;
    ReachesBy(c, s, Sweep, permit);
    OneMore(c, s, Swept(s), Raise, permit);
  }

  // ---------- Each operation

  ghost predicate OpenIsOwn(open: map<HolderId, Open>) {
    forall k | k in open :: open[k].holding.holder == k
  }

  /** Who an operation names, or whose waiting write it applies. */
  function Actor(rs: RunState, op: Op): Option<HolderId> {
    match op
    case Read(holder) => Some(holder)
    case Progress(holder) => Some(holder)
    case Write(holder, _, _) => Some(holder)
    case Authorize(holder, _, _) => Some(holder)
    case Apply(k) => if k < |rs.pool| then Some(rs.pool[k].holding.holder) else None
    case Abandon(holder) => Some(holder)
    case NoteFinished(holder) => Some(holder)
    case NoteWedged(holder) => Some(holder)
    case _ => None
  }

  ghost predicate StepCovered(permit: Permit, rs: RunState, op: Op) {
    permit.Covers(Actor(rs, op)) && OpenIsOwn(rs.world.open)
  }

  /** The hold taken, and the token made, are the caller's own. */
  lemma {:induction false} HoldIsOwn(c: Setup, w: World, holder: HolderId)
    requires OpenIsOwn(w.open)
    ensures HoldForWrite(c, w, holder).1.Ok? ==> HoldForWrite(c, w, holder).1.value.holder == holder
  {
    hide Swept;
  }

  lemma {:induction false} TokenIsOwn(c: Setup, rs: RunState, holder: HolderId, readAt: nat, content: Content)
    requires OpenIsOwn(rs.world.open)
    ensures var rs' := AuthorizeStep(c, rs, holder, readAt, content);
            && |rs.pool| <= |rs'.pool|
            && (|rs.pool| < |rs'.pool| ==> rs'.pool[|rs.pool|].holding.holder == holder)
  {
    hide HoldForWrite, Committed, Released, Prepared;
    HoldIsOwn(c, rs.world, holder);
  }

  lemma {:induction false} ReadReaches(c: Setup, w: World, holder: HolderId, permit: Permit := ANYTHING)
    requires permit.Covers(Some(holder))
    ensures Reaches(c, w.svc, ReadDone(c, w, holder).0.svc, permit)
  {
    hide Reaches, Acquired, Swept;
    var svc := if c.span == Full then Acquired(c, w.svc, holder).0 else w.svc;
    ReachesSelf(c, w.svc, permit);
    AcquiredReaches(c, w.svc, holder, permit);
    OneMore(c, w.svc, svc, Sweep, permit);
    OneMore(c, w.svc, Swept(svc), Note(Event.Read(holder, Swept(svc).version)), permit);
  }

  lemma {:induction false} ProgressReaches(c: Setup, w: World, holder: HolderId, permit: Permit := ANYTHING)
    requires permit.renewing && permit.Covers(Some(holder))
    ensures Reaches(c, w.svc, Progressed(c, w, holder).0.svc, permit)
  {
    hide Reaches, Renewed;
    ReachesSelf(c, w.svc, permit);
    OneMore(c, w.svc, w.svc, Note(CeilingReached(holder)), permit);
    if holder in w.open {
      RenewedReaches(c, w.svc, w.open[holder].holding, permit);
    }
  }

  lemma {:induction false} HoldForWriteReaches(c: Setup, w: World, holder: HolderId, permit: Permit := ANYTHING)
    requires permit.Covers(Some(holder))
    ensures Reaches(c, w.svc, HoldForWrite(c, w, holder).0.svc, permit)
  {
    hide Reaches, Acquired;
    ReachesSelf(c, w.svc, permit);
    AcquiredReaches(c, w.svc, holder, permit);
  }

  lemma {:induction false} SubmittedReaches(
    c: Setup, w: World, holder: HolderId, holding: Holding, readAt: nat, content: Content, permit: Permit := ANYTHING)
    requires permit.Covers(Some(holder)) && permit.Covers(Some(holding.holder))
    ensures Reaches(c, w.svc, Submitted(c, w, holder, holding, readAt, content).0.svc, permit)
  {
    hide Reaches, Committed, Released;
    var attempted := Record(w.svc, WriteAttempted(holder, holding.ticket, readAt));
    ReachesSelf(c, w.svc, permit);
    OneMore(c, w.svc, w.svc, Note(WriteAttempted(holder, holding.ticket, readAt)), permit);
    CommittedReaches(c, attempted, holding, readAt, permit);
    ReachesTwice(c, w.svc, attempted, Committed(attempted, holding, readAt).0, permit);
    match Committed(attempted, holding, readAt)
    case (svc, Ok(_)) =>
    case (svc, Err(reason)) =>
      OneMore(c, w.svc, svc, Note(WriteRefused(holder, reason, content)), permit);
      var refused := Record(svc, WriteRefused(holder, reason, content));
      ReleasedReaches(c, refused, holding, permit);
      ReachesTwice(c, w.svc, refused, Released(c, refused, holding), permit);
  }

  lemma {:induction false} SettledReaches(
    c: Setup, s: Service, s': Service, event: Event, holding: Holding, permit: Permit)
    requires Reaches(c, s, s', permit) && Neutral(event) && !EndNote(event)
    requires permit.Covers(HolderOf(event)) && permit.Covers(Some(holding.holder))
    ensures Reaches(c, s, Released(c, Record(s', event), holding), permit)
  {
    hide Reaches, Released;
    OneMore(c, s, s', Note(event), permit);
    ReleasedReaches(c, Record(s', event), holding, permit);
    ReachesTwice(c, s, Record(s', event), Released(c, Record(s', event), holding), permit);
  }

  lemma {:induction false} AppliedReaches(c: Setup, w: World, a: Authorized, permit: Permit := ANYTHING)
    requires permit.Covers(Some(a.holding.holder))
    ensures Reaches(c, w.svc, Applied(c, w, a).0.svc, permit)
  {
    hide Reaches, Swept, Released;
    var swept := Swept(w.svc);
    var refused := WriteRefused(a.holding.holder, StaleVersion(a.newVersion, swept.version), a.content);
    var accepted := WriteAccepted(a.holding.holder, a.holding.ticket, a.newVersion, a.content);
    ReachesBy(c, w.svc, Sweep, permit);
    SettledReaches(c, w.svc, swept, refused, a.holding, permit);
    SettledReaches(c, w.svc, swept, accepted, a.holding, permit);
  }

  lemma {:induction false} AuthorizeReaches(
    c: Setup, rs: RunState, holder: HolderId, readAt: nat, content: Content, permit: Permit := ANYTHING)
    requires permit.Covers(Some(holder)) && (permit.names.Some? ==> OpenIsOwn(rs.world.open))
    ensures Reaches(c, rs.world.svc, AuthorizeStep(c, rs, holder, readAt, content).world.svc, permit)
  {
    hide Reaches, HoldForWrite, Submitted;
    HoldForWriteReaches(c, rs.world, holder, permit);
    if permit.names.Some? {
      HoldIsOwn(c, rs.world, holder);
    }
    match HoldForWrite(c, rs.world, holder)
    case (w, Ok(holding)) =>
      SubmittedReaches(c, w, holder, holding, readAt, content, permit);
      ReachesTwice(c, rs.world.svc, w.svc, Submitted(c, w, holder, holding, readAt, content).0.svc, permit);
    case (w, Err(_)) =>
  }

  lemma {:induction false} ApplyReaches(c: Setup, rs: RunState, k: nat, permit: Permit := ANYTHING)
    requires k < |rs.pool| ==> permit.Covers(Some(rs.pool[k].holding.holder))
    ensures Reaches(c, rs.world.svc, ApplyStep(c, rs, k).world.svc, permit)
  {
    hide Reaches, Applied;
    ReachesSelf(c, rs.world.svc, permit);
    if k < |rs.pool| {
      AppliedReaches(c, rs.world, rs.pool[k], permit);
    }
  }

  lemma {:induction false} StepReaches(c: Setup, rs: RunState, op: Op, permit: Permit := ANYTHING)
    requires permit.renewing || !op.Progress?
    requires permit.ends || (!op.NoteFinished? && !op.NoteWedged?)
    requires permit.names.Some? ==> StepCovered(permit, rs, op)
    ensures Reaches(c, rs.world.svc, Step(c, rs, op).world.svc, permit)
  {
    hide Reaches, ReadDone, Progressed, AuthorizeStep, ApplyStep, Released, Cleared, ForceExpired, Swept;
    var s := rs.world.svc;
    match op
    case Advance(delta) =>
      ReachesBy(c, s, Tick(delta), permit);
    case Read(holder) =>
      ReadReaches(c, rs.world, holder, permit);
    case Progress(holder) =>
      ProgressReaches(c, rs.world, holder, permit);
    case Write(holder, readAt, content) =>
      var authorized := AuthorizeStep(c, rs, holder, readAt, content);
      AuthorizeReaches(c, rs, holder, readAt, content, permit);
      if permit.names.Some? {
        TokenIsOwn(c, rs, holder, readAt, content);
      }
      ApplyReaches(c, authorized, |rs.pool|, permit);
      ReachesTwice(c, s, authorized.world.svc, ApplyStep(c, authorized, |rs.pool|).world.svc, permit);
    case Authorize(holder, readAt, content) =>
      AuthorizeReaches(c, rs, holder, readAt, content, permit);
    case Apply(k) =>
      ApplyReaches(c, rs, k, permit);
    case Abandon(holder) =>
      ReachesSelf(c, s, permit);
      if holder in rs.world.open {
        ReleasedReaches(c, s, rs.world.open[holder].holding, permit);
      }
    case ForceRelease =>
      ReachesBy(c, s, Sweep, permit);
      OneMore(c, s, Swept(s), Revoke, permit);
    case ForceExpire =>
      ReachesBy(c, s, ExpireAll, permit);
    case Probe =>
      ReachesBy(c, s, Sweep, permit);
    case NoteFinished(holder) =>
      ReachesBy(c, s, Note(AgentFinished(holder)), permit);
    case NoteWedged(holder) =>
      ReachesBy(c, s, Note(AgentWedged(holder)), permit);
  }

  lemma {:induction false} RunReaches(c: Setup, rs: RunState, ops: seq<Op>)
    ensures Reaches(c, rs.world.svc, Run(c, rs, ops).world.svc)
  {
    hide Reaches, Step;
    ReachesSelf(c, rs.world.svc);
    if ops == [] {
    } else {
      var before := Run(c, rs, ops[..|ops| - 1]);
      RunReaches(c, rs, ops[..|ops| - 1]);
      StepReaches(c, before, ops[|ops| - 1]);
      ReachesTwice(c, rs.world.svc, before.world.svc, Run(c, rs, ops).world.svc);
    }
  }
}
