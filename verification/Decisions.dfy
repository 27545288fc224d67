/** Each commit on record is a decision the service took at some point of the run; and the log, as it
    stood then, replays to a state in which that ticket is in force: P2, judged where a write is
    authorized. */
module Decisions {
  import opened Types
  import opened Histories
  import opened Locks
  import opened Harnesses
  import opened Runs
  import opened ServiceCalls
  import opened Growth
  import opened Checkers
  import opened CheckerMeaning
  import opened Effects
  import opened Commits
  import opened SplitRuns
  import opened Fencing
  import opened Replays
  import opened FaultyRuns
  import opened HoldLists
  import opened Scenarios
  import opened Attempts
  import opened TicketVerdicts
  import opened AtomicRuns

  /** The service as it answers the commit of this hold, after the attempt is logged. */
  function Answered(s: Service, holding: Holding, readAt: nat): (Service, Result<nat, Refusal>) {
    Committed(Record(s, WriteAttempted(holding.holder, holding.ticket, readAt)), holding, readAt)
  }

  /** In this state this operation took a hold, and the service answered its commit with yes; what it
      had logged by then is in this log. */
  ghost predicate DecidedBy(c: Setup, before: RunState, op: Op, k: nat, cm: Commit, log: Log) {
    && (op.Write? || op.Authorize?)
    && HoldForWrite(c, before.world, op.holder).1 == Ok(cm.holding)
    && var w := HoldForWrite(c, before.world, op.holder).0;
       && cm == RecordOf(w, cm.holding, op.readAt, op.content)
       && cm.holding.holder == op.holder
       && before.world.svc.version == k
       && Answered(w.svc, cm.holding, op.readAt).1 == Ok(k + 1)
       && Answered(w.svc, cm.holding, op.readAt).0.log <= log
  }

  lemma {:induction false} AuthorizeDecides(
    c: Setup, rs: RunState, holder: HolderId, readAt: nat, content: Content)
    requires OwnOpen(rs.world)
    ensures var rs' := AuthorizeStep(c, rs, holder, readAt, content);
            && rs.commits <= rs'.commits
            && |rs'.commits| <= |rs.commits| + 1
            && (|rs.commits| < |rs'.commits| ==>
                  DecidedBy(c, rs, Op.Authorize(holder, readAt, content), rs.world.svc.version,
                            rs'.commits[|rs.commits|], rs'.world.svc.log))
  {
    hide HoldForWrite, Committed, Released;
    HoldForWriteQuietly(c, rs.world, holder);
    match HoldForWrite(c, rs.world, holder)
    case (w, Err(_)) =>
    case (w, Ok(holding)) =>
      if Submitted(c, w, holder, holding, readAt, content).1.Ok? {
        SubmittedAuthorized(c, w, holder, holding, readAt, content);
      }
  }

  /** A new commit in a step was decided in it. */
  lemma {:induction false} StepDecides(c: Setup, rs: RunState, op: Op)
    requires OwnOpen(rs.world)
    ensures var rs' := Step(c, rs, op);
            && |rs'.commits| <= |rs.commits| + 1
            && (|rs.commits| < |rs'.commits| ==>
                  DecidedBy(c, rs, op, rs.world.svc.version, rs'.commits[|rs.commits|], rs'.world.svc.log))
  {
    hide AuthorizeStep, HoldForWrite, Answered, RecordOf, Applied, OwnOpen;
    hide ReadDone, Progressed, Abandoned, ForceReleased, ForceExpired, Swept;
    match op
    case Write(holder, readAt, content) =>
      AuthorizeDecides(c, rs, holder, readAt, content);
      var authorized := AuthorizeStep(c, rs, holder, readAt, content);
      ApplyGrows(c, authorized, |rs.pool|);
    case Authorize(holder, readAt, content) =>
      AuthorizeDecides(c, rs, holder, readAt, content);
    case _ =>
  }

  lemma {:induction false} ApplyGrows(c: Setup, rs: RunState, k: nat)
    ensures rs.world.svc.log <= ApplyStep(c, rs, k).world.svc.log
    ensures ApplyStep(c, rs, k).commits == rs.commits
  {
    hide Applied;
    if k < |rs.pool| {
      AppliedLog(c, rs.world, rs.pool[k]);
    }
  }

  /** Every commit on record was decided by one of the run's operations, in the state it met. */
  lemma {:induction false} CommitsAreDecisions(
    c: Setup, file: Option<Content>, leftover: Option<Content>, ops: seq<Op>, k: nat) returns (m: nat)
    requires k < |Run(c, Start(file, leftover), ops).commits|
    ensures m < |ops|
    ensures var rs := Run(c, Start(file, leftover), ops);
            DecidedBy(c, Run(c, Start(file, leftover), ops[..m]), ops[m], k, rs.commits[k], rs.world.svc.log)
  {
    var n := |ops| - 1;
    var rs := Run(c, Start(file, leftover), ops[..n]);
    hide Step, DecidedBy, OwnOpen;
    RunCounts(c, file, leftover, ops[..n]);
    if k < |rs.commits| {
      m := CommitsAreDecisions(c, file, leftover, ops[..n], k);
      assert ops[..n][..m] == ops[..m];
      OlderDecision(c, Run(c, Start(file, leftover), ops[..m]), ops[m], k, rs, ops[n]);
    } else {
      m := n;
      NewestDecision(c, rs, ops[n], k);
    }
  }

  lemma {:induction false} NewestDecision(c: Setup, rs: RunState, op: Op, k: nat)
    requires OwnOpen(rs.world) && |rs.commits| == rs.world.svc.version
    requires |rs.commits| <= k < |Step(c, rs, op).commits|
    ensures DecidedBy(c, rs, op, k, Step(c, rs, op).commits[k], Step(c, rs, op).world.svc.log)
  {
    hide Step, DecidedBy, OwnOpen;
    StepDecides(c, rs, op);
  }

  lemma {:induction false} OlderDecision(c: Setup, before: RunState, op: Op, k: nat, rs: RunState, next: Op)
    requires k < |rs.commits| && DecidedBy(c, before, op, k, rs.commits[k], rs.world.svc.log)
    ensures k < |Step(c, rs, next).commits|
    ensures DecidedBy(c, before, op, k, Step(c, rs, next).commits[k], Step(c, rs, next).world.svc.log)
  {
    hide Step, DecidedBy, Grows;
    StepCommits(c, rs, next);
    StepGrows(c, rs, next);
    DecidedLater(c, before, op, k, rs.commits[k], rs.world.svc, Step(c, rs, next).world.svc);
  }

  lemma {:induction false} DecidedLater(
    c: Setup, before: RunState, op: Op, k: nat, cm: Commit, s: Service, s': Service)
    requires DecidedBy(c, before, op, k, cm, s.log) && Grows(s, s')
    ensures DecidedBy(c, before, op, k, cm, s'.log)
  {
    hide HoldForWrite, Answered;
  }

  // ---------- In the tick of a grant, with broken tickets

  ghost predicate GrantedNow(s: Service) {
    exists i :: 0 <= i < |s.log| && s.log[i].event.TakeGranted? && s.log[i].at == s.now
  }

  /** Since a grant in this tick nothing can have lapsed, and what is held is in the replay. */
  ghost predicate FreshOk(s: Service) {
    && Stuck(s)
    && (forall i | 0 <= i < |s.log| :: s.log[i].at <= s.now)
    && (GrantedNow(s) ==>
          && (forall h | h in s.held :: s.now < h.deadline)
          && (s.held != [] ==> 1 in Replay(s.log)))
  }

  lemma {:induction false} RecordFresh(s: Service, event: Event)
    requires FreshOk(s) && Neutral(event)
    ensures FreshOk(Record(s, event))
  {
    hide Replay;
    ReplayNext(s.log, s.now, event);
    assert forall i | 0 <= i < |s.log| :: Record(s, event).log[i] == s.log[i];
  }

  lemma {:induction false} SweptFresh(s: Service)
    requires FreshOk(s)
    ensures FreshOk(Swept(s))
  {
    hide Replay;
    AppendAllContents(s.log, s.now, Expiries(Lapsed(s.held, s.now)));
    SweptUnmoved(s);
    if GrantedNow(Swept(s)) {
      var i :| 0 <= i < |Swept(s).log| && Swept(s).log[i].event.TakeGranted? && Swept(s).log[i].at == s.now;
      assert s.log[i] == Swept(s).log[i];
      NothingToSweep(s);
    }
  }

  lemma {:induction false} GrantedOnOne(c: Setup, s: Service, holder: HolderId)
    requires Stuck(s) && c.faults.nonMonotonicTickets
    ensures var s' := Granted(c, s, holder).0;
            && s'.log == Append(Append(s.log, s.now, TicketIssued(1)), s.now, TakeGranted(holder, 1))
            && s'.held == s.held + [HeldBy(holder, 1, s.now + c.lease)]
            && s'.now == s.now
  {
  }

  lemma {:induction false} GrantedFresh(c: Setup, s: Service, holder: HolderId)
    requires FreshOk(s) && c.faults.nonMonotonicTickets && c.lease > 0 && MayGrant(c, s)
    ensures FreshOk(Granted(c, s, holder).0)
  {
    hide Alive, Replay, Stuck, GrantedNow, Granted;
    var s' := Granted(c, s, holder).0;
    AliveMeans(s.held, s.now);
    GrantedOnOne(c, s, holder);
    GrantStaysStuck(c, s, holder);
    ReplayNext(Append(s.log, s.now, TicketIssued(1)), s.now, TakeGranted(holder, 1));
    assert 1 in Replay(s'.log);
    forall h | h in s'.held
      ensures s.now < h.deadline
    {
      assert h in s.held ==> h in Alive(s.held, s.now);
    }
  }

  lemma {:induction false} ReturnedFresh(s: Service, holding: Holding)
    requires FreshOk(s)
    ensures FreshOk(Returned(s, holding))
  {
    hide Replay, Without;
    var s' := Returned(s, holding);
    ReplayNext(s.log, s.now, GiveBack(holding.holder, holding.ticket));
    assert forall i | 0 <= i < |s.log| :: s'.log[i] == s.log[i];
    if holding.ticket == 1 {
      NoneLeft(s.held);
    } else {
      NothingOn(s.held, holding.ticket);
    }
  }

  lemma {:induction false} CallFresh(c: Setup, s: Service, call: Call)
    requires FreshOk(s) && c.faults.nonMonotonicTickets && c.lease > 0
    ensures FreshOk(Called(c, s, call))
  {
    CallStuck(c, s, call);
    hide Swept, Granted, Returned, FirstOn, Replay, Stuck, Expiries, AppendAll;
    match call
    case Sweep => SweptFresh(s);
    case Note(event) =>
      if Neutral(event) {
        RecordFresh(s, event);
      }
    case Grant(holder) =>
      if MayGrant(c, s) {
        GrantedFresh(c, s, holder);
      }
    case GiveUp(holding) => ReturnedFresh(s, holding);
    case ExpireAll => AppendAllContents(s.log, s.now, Expiries(s.held));
    case _ =>
  }

  lemma {:induction false} ReachesFresh(c: Setup, s: Service, s': Service)
    requires Reaches(c, s, s') && FreshOk(s) && c.faults.nonMonotonicTickets && c.lease > 0
    ensures FreshOk(s')
  {
    hide FreshOk, Reaches, Called;
    forall x, call | FreshOk(x)
      ensures FreshOk(Called(c, x, call))
    {
      CallFresh(c, x, call);
    }
    ReachesKeeps(c, s, s', ANYTHING, x => FreshOk(x));
  }

  lemma {:induction false} ReplaysToOneTicket(s: Service)
    requires Stuck(s)
    ensures Replay(s.log).Keys <= {1}
  {
    hide Replay;
    assert s.log[..|s.log|] == s.log;
    forall t | t in Replay(s.log)
      ensures t == 1
    {
      ReplayMeans(s.log, |s.log|, t);
      var i :| Outstanding(s.log, i, t, |s.log|);
      assert StuckEvent(s.log[i].event);
    }
  }

  /** In that tick the swept log replays to the held tickets. */
  lemma {:induction false} FreshTracks(s: Service)
    requires FreshOk(s) && GrantedNow(s) && s.held != []
    ensures Tracks(Swept(s))
  {
    hide Replay;
    NothingToSweep(s);
    OneTicket(s.held);
    ReplaysToOneTicket(s);
  }

  // ---------- P2 where a write is authorized

  /** What stands when the service is asked: the hold is taken and the attempt is logged. */
  function Asking(c: Setup, before: RunState, op: Op): Service
    requires op.Write? || op.Authorize?
    requires HoldForWrite(c, before.world, op.holder).1.Ok?
  {
    var (w, taken) := HoldForWrite(c, before.world, op.holder);
    Record(w.svc, WriteAttempted(taken.value.holder, taken.value.ticket, op.readAt))
  }

  /** The log as it stands when the service answers: it has swept. */
  function DecisionLog(c: Setup, before: RunState, op: Op): Log
    requires op.Write? || op.Authorize?
    requires HoldForWrite(c, before.world, op.holder).1.Ok?
  {
    Swept(Asking(c, before, op)).log
  }

  /** Where the log, read back when the service decides, always has the holds: unless broken tickets
      meet double grants, leases of more than one tick, and holds that a write can use in a later tick
      than they were taken in. */
  predicate ReplaysWhenDecided(c: Setup) {
    || !c.faults.nonMonotonicTickets || !c.faults.grantTwice || c.lease <= 1
    || c.span == WriteOnly || c.holdCeiling <= 1
  }

  /** Where holds are used in the tick they were taken in. */
  lemma {:induction false} UsedAtOnce(c: Setup, w: World, holder: HolderId)
    requires OpensBacked(w) && HoldForWrite(c, w, holder).1.Ok? && (c.span == WriteOnly || c.holdCeiling <= 1)
    ensures GrantedNow(HoldForWrite(c, w, holder).0.svc)
  {
    hide Acquired;
    var (w', r) := HoldForWrite(c, w, holder);
    if c.span == WriteOnly {
      TakenIsLogged(c, w.svc, holder);
      assert w'.svc.log[|w'.svc.log| - 1].event.TakeGranted?;
    } else {
      assert OpenBacked(w.svc, holder, w.open[holder]);
      var i :| GrantAt(w.svc.log, i, holder, r.value.ticket) && w.svc.log[i].at == w.open[holder].takenAt;
      assert w.svc.log[i].event.TakeGranted?;
    }
  }

  /** What every state of a run offers. */
  ghost predicate Offered(c: Setup, w: World) {
    && OwnOpen(w) && OpensBacked(w) && TurnsOk(c, w.svc)
    && (c.faults.nonMonotonicTickets && c.lease > 0 ==> FreshOk(w.svc))
  }

  lemma {:induction false} RunOffered(c: Setup, file: Option<Content>, leftover: Option<Content>, ops: seq<Op>)
    ensures Offered(c, Run(c, Start(file, leftover), ops).world)
  {
    assert FreshOk(FRESH_SERVICE);
    hide Run, Reaches, TurnsOk, OpensBacked, OwnOpen, FreshOk, TimesOk, AttemptsBacked;
    RunOwn(c, file, leftover, ops);
    RunBacked(c, file, leftover, ops);
    RunTurns(c, file, leftover, ops);
    if c.faults.nonMonotonicTickets && c.lease > 0 {
      RunReaches(c, Start(file, leftover), ops);
      ReachesFresh(c, FRESH_SERVICE, Run(c, Start(file, leftover), ops).world.svc);
    }
  }

  /** When the service says yes, the swept log replays to the held tickets. */
  lemma {:induction false} DecisionTracks(c: Setup, before: RunState, op: Op)
    requires ReplaysWhenDecided(c) && Offered(c, before.world) && (op.Write? || op.Authorize?)
    requires var (w, taken) := HoldForWrite(c, before.world, op.holder);
             taken.Ok? && Committed(Asking(c, before, op), taken.value, op.readAt).1.Ok?
    ensures Tracks(Swept(Asking(c, before, op)))
  {
    var (w, taken) := HoldForWrite(c, before.world, op.holder);
    var event := WriteAttempted(taken.value.holder, taken.value.ticket, op.readAt);
    hide HoldForWrite, TurnsOk, Reaches, Swept, FreshOk, OpensBacked, OwnOpen, Tracks, Committed;
    HoldForWriteReaches(c, before.world, op.holder);
    ServiceCalls.OneMore(c, before.world.svc, w.svc, Note(event));
    if c.faults.nonMonotonicTickets && c.faults.grantTwice && c.lease > 1 {
      UsedAtOnce(c, before.world, op.holder);
      FreshlyAsked(c, before.world.svc, w.svc, event);
      ReachesTurns(c, before.world.svc, Record(w.svc, event));
      FreshTracks(Record(w.svc, event));
    } else {
      ServiceCalls.OneMore(c, before.world.svc, Record(w.svc, event), Sweep);
      ReachesTurns(c, before.world.svc, Swept(Record(w.svc, event)));
      TurnsTrack(c, Swept(Record(w.svc, event)));
    }
  }

  lemma {:induction false} FreshlyAsked(c: Setup, s: Service, s': Service, event: Event)
    requires FreshOk(s) && Reaches(c, s, s') && GrantedNow(s') && Neutral(event)
    requires c.faults.nonMonotonicTickets && c.lease > 0
    ensures FreshOk(Record(s', event)) && GrantedNow(Record(s', event))
  {
    hide FreshOk, Reaches;
    ReachesFresh(c, s, s');
    RecordFresh(s', event);
    var i :| 0 <= i < |s'.log| && s'.log[i].event.TakeGranted? && s'.log[i].at == s'.now;
    assert Record(s', event).log[i].event.TakeGranted?;
  }

  /** The service's yes, and what the log says at that point. */
  lemma {:induction false} DecisionReplays(c: Setup, before: RunState, op: Op, k: nat, cm: Commit, log: Log)
    requires ReplaysWhenDecided(c) && Offered(c, before.world) && DecidedBy(c, before, op, k, cm, log)
    ensures var decided := DecisionLog(c, before, op);
            && cm.attemptedAt < |decided|
            && decided <= log
            && (forall i | cm.attemptedAt < i < |decided| :: !AboutWrite(decided[i].event))
            && MaxOf(Replay(decided).Keys) == Some(cm.holding.ticket)
  {
    hide HoldForWrite, Swept, InForce, Tickets, Replay, MaxOf, Offered, Tracks;
    DecisionTracks(c, before, op);
    SweptQuietly(Asking(c, before, op));
    ReplayedInForce(Swept(Asking(c, before, op)));
  }

  /** P2 where the documents put it. For each accepted write there is the operation that had it
      authorized, and the log as it stood when the service decided replays to a state in which that
      write's ticket is in force. Only expiries lie between the attempt and that point. */
  lemma {:induction false} ValidWhenAuthorized(
    c: Setup, file: Option<Content>, leftover: Option<Content>, ops: seq<Op>, j: nat) returns (m: nat)
    requires ReplaysWhenDecided(c)
    requires j < |Run(c, Start(file, leftover), ops).world.svc.log|
    requires Run(c, Start(file, leftover), ops).world.svc.log[j].event.WriteAccepted?
    ensures var rs := Run(c, Start(file, leftover), ops);
            var log := rs.world.svc.log;
            && m < |ops| && 1 <= log[j].event.version <= |rs.commits|
            && var cm := rs.commits[log[j].event.version - 1];
               var before := Run(c, Start(file, leftover), ops[..m]);
               && DecidedBy(c, before, ops[m], log[j].event.version - 1, cm, log)
               && var decided := DecisionLog(c, before, ops[m]);
                  && cm.attemptedAt < |decided| <= j
                  && decided <= log
                  && (forall i | cm.attemptedAt < i < |decided| :: !AboutWrite(decided[i].event))
                  && MaxOf(Replay(decided).Keys) == Some(log[j].event.ticket)
  {
    hide Run, CommitsOk, AcceptsOk, Replay, MaxOf, Offered, NoCommitBetween, VersionsIncrease, ReplaysWhenDecided;
    hide HoldForWrite, Answered, DecisionLog;
    var rs := Run(c, Start(file, leftover), ops);
    var log := rs.world.svc.log;
    AuthorizationIsTheCommitPoint(c, file, leftover, ops);
    var k := log[j].event.version - 1;
    m := CommitsAreDecisions(c, file, leftover, ops, k);
    RunOffered(c, file, leftover, ops[..m]);
    DecisionReplays(c, Run(c, Start(file, leftover), ops[..m]), ops[m], k, rs.commits[k], log);
  }
}
