/** With monotonic tickets, no operation of one agent's removes or moves another agent's live hold:
    only revocation, forced expiry and time itself end it. */
module OtherHolds {
  import opened Types
  import opened Histories
  import opened Stores
  import opened Locks
  import opened HoldLists
  import opened Harnesses
  import opened Runs
  import opened ServiceCalls
  import opened Commits
  import opened Attempts
  import opened Fencing
  import opened TicketRuns
  import opened Holds

  // ---------- The service's calls

  /** The hold is live, and stays as it is. */
  ghost predicate Kept(s: Service, s': Service, h: HeldBy) {
    s'.now == s.now && h in s'.held
  }

  lemma {:induction false} SweepKeeps(s: Service, h: HeldBy)
    requires h in s.held && s.now < h.deadline
    ensures Kept(s, Swept(s), h)
  {
    AliveMeans(s.held, s.now);
  }

  lemma {:induction false} TakeKeeps(c: Setup, s: Service, holder: HolderId, h: HeldBy)
    requires h in s.held && s.now < h.deadline
    ensures Kept(s, Acquired(c, s, holder).0, h)
  {
    hide Alive, Lapsed, Expiries, AppendAll;
    AliveMeans(s.held, s.now);
  }

  lemma {:induction false} ReleaseKeeps(c: Setup, s: Service, holding: Holding, h: HeldBy)
    requires h in s.held && s.now < h.deadline && h.ticket != holding.ticket
    ensures Kept(s, Released(c, s, holding), h)
  {
    hide Alive, Lapsed, Without, Expiries, AppendAll;
    AliveMeans(s.held, s.now);
    WithoutMeans(Alive(s.held, s.now), holding.ticket);
  }

  lemma {:induction false} UpdateKeeps(held: seq<HeldBy>, i: nat, renewed: HeldBy, h: HeldBy)
    requires i < |held| && h in held && h.ticket != held[i].ticket
    ensures h in held[i := renewed]
  {
    var k :| 0 <= k < |held| && held[k] == h;
    assert held[i := renewed][k] == h;
  }

  lemma {:induction false} RenewalKeeps(c: Setup, s: Service, holding: Holding, h: HeldBy)
    requires h in s.held && s.now < h.deadline && h.ticket != holding.ticket
    ensures Kept(s, Renewed(c, s, holding).0, h)
  {
    hide Alive, Lapsed, FirstOn, Expiries, AppendAll;
    AliveMeans(s.held, s.now);
    var held := Swept(s).held;
    assert h in held;
    match FirstOn(held, holding.ticket)
    case None =>
    case Some(i) => UpdateKeeps(held, i, held[i].(deadline := s.now + c.lease), h);
  }

  lemma {:induction false} DecisionKeeps(s: Service, holding: Holding, expected: nat, h: HeldBy)
    requires h in s.held && s.now < h.deadline
    ensures Kept(s, Committed(s, holding, expected).0, h)
  {
    hide Swept, Tickets, InForce;
    SweepKeeps(s, h);
  }

  // ---------- The harness's operations

  lemma {:induction false} SubmitKeeps(
    c: Setup, w: World, holder: HolderId, holding: Holding, readAt: nat, content: Content, h: HeldBy)
    requires h in w.svc.held && w.svc.now < h.deadline && h.ticket != holding.ticket
    ensures Kept(w.svc, Submitted(c, w, holder, holding, readAt, content).0.svc, h)
  {
    hide Committed, Released;
    var attempted := Record(w.svc, WriteAttempted(holder, holding.ticket, readAt));
    DecisionKeeps(attempted, holding, readAt, h);
    match Committed(attempted, holding, readAt)
    case (svc, Ok(_)) =>
    case (svc, Err(reason)) => ReleaseKeeps(c, Record(svc, WriteRefused(holder, reason, content)), holding, h);
  }

  lemma {:induction false} ApplicationKeeps(c: Setup, w: World, a: Authorized, h: HeldBy)
    requires h in w.svc.held && w.svc.now < h.deadline && h.ticket != a.holding.ticket
    ensures Kept(w.svc, Applied(c, w, a).0.svc, h)
  {
    hide Swept, Released;
    SweepKeeps(w.svc, h);
    var swept := Swept(w.svc);
    var refused := WriteRefused(a.holding.holder, StaleVersion(a.newVersion, swept.version), a.content);
    var accepted := WriteAccepted(a.holding.holder, a.holding.ticket, a.newVersion, a.content);
    ReleaseKeeps(c, Record(swept, refused), a.holding, h);
    ReleaseKeeps(c, Record(swept, accepted), a.holding, h);
  }

  lemma {:induction false} ReadKeeps(c: Setup, w: World, holder: HolderId, h: HeldBy)
    requires h in w.svc.held && w.svc.now < h.deadline
    ensures Kept(w.svc, ReadDone(c, w, holder).0.svc, h)
  {
    hide Acquired, Swept;
    TakeKeeps(c, w.svc, holder, h);
    SweepKeeps(w.svc, h);
    SweepKeeps(Acquired(c, w.svc, holder).0, h);
  }

  /** An open entry of another agent's is on another ticket. */
  lemma {:induction false} OpenElsewhere(w: World, k: HolderId, h: HeldBy)
    requires TicketsOk(w.svc) && OpensBacked(w) && h in w.svc.held && k in w.open && k != h.holder
    ensures w.open[k].holding.ticket != h.ticket
  {
    hide TicketsOk;
    assert OpenBacked(w.svc, k, w.open[k]);
    var i :| GrantAt(w.svc.log, i, k, w.open[k].holding.ticket);
    OtherTicket(w.svc, h, i, k, w.open[k].holding.ticket);
  }

  lemma {:induction false} HoldElsewhere(c: Setup, w: World, holder: HolderId, h: HeldBy)
    requires TicketsOk(w.svc) && OpensBacked(w) && !c.faults.nonMonotonicTickets
    requires h in w.svc.held && w.svc.now < h.deadline && holder != h.holder
    ensures var (w', r) := HoldForWrite(c, w, holder);
            && Kept(w.svc, w'.svc, h)
            && (r.Ok? ==> r.value.ticket != h.ticket)
  {
    hide TicketsOk, HoldBacked, Acquired;
    TakeKeeps(c, w.svc, holder, h);
    HoldForWriteTickets(c, w, holder);
    var (w', r) := HoldForWrite(c, w, holder);
    if r.Ok? {
      HoldIsBacked(c, w, holder);
      GrantElsewhere(c, w'.svc, holder, r.value.ticket, h);
    }
  }

  lemma {:induction false} GrantElsewhere(c: Setup, s: Service, holder: HolderId, ticket: nat, h: HeldBy)
    requires TicketsOk(s) && HoldBacked(c, s, holder, ticket) && h in s.held && holder != h.holder
    ensures ticket != h.ticket
  {
    hide TicketsOk;
    var i :| GrantAt(s.log, i, holder, ticket);
    OtherTicket(s, h, i, holder, ticket);
  }

  lemma {:induction false} AuthorizeKeeps(
    c: Setup, rs: RunState, holder: HolderId, readAt: nat, content: Content, h: HeldBy)
    requires TicketsOk(rs.world.svc) && OpensBacked(rs.world) && !c.faults.nonMonotonicTickets
    requires h in rs.world.svc.held && rs.world.svc.now < h.deadline && holder != h.holder
    ensures var rs' := AuthorizeStep(c, rs, holder, readAt, content);
            && Kept(rs.world.svc, rs'.world.svc, h)
            && |rs.pool| <= |rs'.pool|
            && (|rs.pool| < |rs'.pool| ==> rs'.pool[|rs.pool|].holding.ticket != h.ticket)
  {
    hide TicketsOk, OpensBacked, HoldForWrite, Submitted;
    HoldElsewhere(c, rs.world, holder, h);
    match HoldForWrite(c, rs.world, holder)
    case (w, Err(_)) =>
    case (w, Ok(holding)) =>
      SubmitKeeps(c, w, holder, holding, readAt, content, h);
      if Submitted(c, w, holder, holding, readAt, content).1.Ok? {
        SubmittedAuthorized(c, w, holder, holding, readAt, content);
      }
  }

  /** A waiting write goes back to a grant of its ticket to its holder. */
  lemma {:induction false} TokenBacked(c: Setup, rs: RunState, k: nat, initial: Content) returns (i: int)
    requires Safe(c, rs, initial) && AttemptsBacked(c, rs.world.svc.log) && k < |rs.pool|
    ensures GrantAt(rs.world.svc.log, i, rs.pool[k].holding.holder, rs.pool[k].holding.ticket)
  {
    var a := rs.pool[k];
    var cm := rs.commits[a.newVersion - 1];
    assert TokenOk(a, rs.commits);
    assert CommitOk(cm, a.newVersion - 1, rs.world.svc.log);
    hide Safe;
    assert AttemptBacked(c, rs.world.svc.log, cm.attemptedAt);
    i :| i < cm.attemptedAt && GrantAt(rs.world.svc.log, i, a.holding.holder, a.holding.ticket);
  }

  // ---------- Every step

  /** The agent acts itself, or its waiting write is applied. Noting its end is not acting. */
  predicate ActsFor(rs: RunState, op: Op, holder: HolderId) {
    !op.NoteFinished? && !op.NoteWedged? && Actor(rs, op) == Some(holder)
  }

  lemma {:induction false} StepKeepsHold(c: Setup, rs: RunState, op: Op, h: HeldBy, initial: Content)
    requires TicketsOk(rs.world.svc) && Safe(c, rs, initial) && Backed(c, rs.world)
    requires !c.faults.nonMonotonicTickets
    requires h in rs.world.svc.held && rs.world.svc.now < h.deadline
    requires !ActsFor(rs, op, h.holder) && !op.ForceRelease? && !op.ForceExpire?
    ensures h in Step(c, rs, op).world.svc.held
  {
    hide TicketsOk, Safe, TimesOk, OpensBacked, AttemptsBacked;
    hide AuthorizeStep, Applied, Released, Renewed, ReadDone, Swept;
    var w := rs.world;
    match op
    case Advance(_) =>
    case Read(holder) =>
      ReadKeeps(c, w, holder, h);
    case Progress(holder) =>
      if holder in w.open {
        OpenElsewhere(w, holder, h);
        RenewalKeeps(c, w.svc, w.open[holder].holding, h);
      }
    case Write(holder, readAt, content) =>
      AuthorizeKeeps(c, rs, holder, readAt, content, h);
      var authorized := AuthorizeStep(c, rs, holder, readAt, content);
      if |rs.pool| < |authorized.pool| {
        ApplicationKeeps(c, authorized.world, authorized.pool[|rs.pool|], h);
      }
    case Authorize(holder, readAt, content) =>
      AuthorizeKeeps(c, rs, holder, readAt, content, h);
    case Apply(k) =>
      if k < |rs.pool| {
        var i := TokenBacked(c, rs, k, initial);
        OtherTicket(w.svc, h, i, rs.pool[k].holding.holder, rs.pool[k].holding.ticket);
        ApplicationKeeps(c, w, rs.pool[k], h);
      }
    case Abandon(holder) =>
      if holder in w.open {
        OpenElsewhere(w, holder, h);
        ReleaseKeeps(c, w.svc, w.open[holder].holding, h);
      }
    case Probe =>
      SweepKeeps(w.svc, h);
    case NoteFinished(_) =>
    case NoteWedged(_) =>
  }

  /** Nothing another agent does, reading, progressing, writing, authorizing, applying late or
      abandoning, removes a live hold or moves its deadline. */
  lemma {:induction false} OthersAreUntouched(
    c: Setup, file: Option<Content>, leftover: Option<Content>, ops: seq<Op>, op: Op, h: HeldBy)
    requires !c.faults.nonMonotonicTickets
    requires var rs := Run(c, Start(file, leftover), ops);
             && h in rs.world.svc.held
             && rs.world.svc.now < h.deadline
             && !ActsFor(rs, op, h.holder)
             && !op.ForceRelease? && !op.ForceExpire?
    ensures h in Step(c, Run(c, Start(file, leftover), ops), op).world.svc.held
  {
    hide Run, Step, TicketsOk, Safe, Backed;
    RunTickets(c, file, leftover, ops);
    RunIsSafe(c, file, leftover, ops);
    RunBacked(c, file, leftover, ops);
    StepKeepsHold(c, Run(c, Start(file, leftover), ops), op, h, ReadBack(file));
  }
}
