/** What single operations do to the log, the version and the clock, whatever the faults. */
module Effects {
  import opened Types
  import opened Histories
  import opened Locks
  import opened Harnesses
  import opened Runs

  /** An attempt, an acceptance or a refusal. */
  predicate AboutWrite(event: Event) {
    event.WriteAttempted? || event.WriteAccepted? || event.WriteRefused?
  }

  /** The log grew by properly numbered entries, none of them about a write. */
  ghost predicate Quietly(log: Log, log': Log) {
    && log <= log'
    && forall i | |log| <= i < |log'| ::
         && log'[i].seqNo == i
         && !AboutWrite(log'[i].event)
  }

  /** The log grew by properly numbered entries, none of which is an attempt or an acceptance. */
  ghost predicate Unattempted(log: Log, log': Log) {
    && log <= log'
    && forall i | |log| <= i < |log'| ::
         && log'[i].seqNo == i
         && !log'[i].event.WriteAttempted?
         && !log'[i].event.WriteAccepted?
  }

  /** The log grew by properly numbered entries, none of which is an acceptance. */
  ghost predicate WithoutAccepting(log: Log, log': Log) {
    && log <= log'
    && forall i | |log| <= i < |log'| :: log'[i].seqNo == i && !log'[i].event.WriteAccepted?
  }

  /** Only the holds, the ticket counters and quiet entries may have changed. */
  ghost predicate QuietService(s: Service, s': Service) {
    s'.now == s.now && s'.version == s.version && Quietly(s.log, s'.log)
  }

  lemma {:induction false} QuietlyTwice(s: Service, s': Service, s'': Service)
    requires QuietService(s, s') && QuietService(s', s'')
    ensures QuietService(s, s'')
  {
    assert forall i | |s.log| <= i < |s'.log| :: s''.log[i] == s'.log[i];
  }

  /** One more entry of no account. */
  lemma {:induction false} RecordedQuietly(s: Service, s': Service, event: Event)
    requires QuietService(s, s') && !AboutWrite(event)
    ensures QuietService(s, Record(s', event))
  {
  }

  lemma {:induction false} SweptQuietly(s: Service)
    ensures QuietService(s, Swept(s))
  {
    AppendAllContents(s.log, s.now, Expiries(Lapsed(s.held, s.now)));
  }

  lemma {:induction false} AcquiredQuietly(c: Setup, s: Service, holder: HolderId)
    ensures QuietService(s, Acquired(c, s, holder).0)
  {
    hide QuietService, Swept;
    SweptQuietly(s);
    RecordedQuietly(s, Swept(s), TakeRequested(holder));
    GrantedQuietly(c, s, Asked(s, holder), holder);
  }

  lemma {:induction false} GrantedQuietly(c: Setup, s: Service, asked: Service, holder: HolderId)
    requires QuietService(s, asked)
    ensures QuietService(s, Granted(c, asked, holder).0)
  {
  }

  lemma {:induction false} ReleasedQuietly(c: Setup, s: Service, holding: Holding)
    ensures QuietService(s, Released(c, s, holding))
  {
    SweptQuietly(s);
  }

  lemma {:induction false} RenewedQuietly(c: Setup, s: Service, holding: Holding)
    ensures QuietService(s, Renewed(c, s, holding).0)
  {
    SweptQuietly(s);
  }

  lemma {:induction false} ForceReleasedQuietly(s: Service)
    ensures QuietService(s, ForceReleased(s).0)
  {
    SweptQuietly(s);
  }

  lemma {:induction false} ForceExpiredQuietly(s: Service)
    ensures QuietService(s, ForceExpired(s))
  {
    AppendAllContents(s.log, s.now, Expiries(s.held));
  }

  /** The world changed quietly: same file slots, same version. */
  ghost predicate QuietWorld(w: World, w': World) {
    QuietService(w.svc, w'.svc) && w'.store == w.store
  }

  /** Every open entry is filed under its own holder. */
  ghost predicate OwnOpen(w: World) {
    forall h | h in w.open :: w.open[h].holding.holder == h
  }

  lemma {:induction false} ReadNowQuietly(w: World, holder: HolderId)
    requires OwnOpen(w)
    ensures var w' := ReadNow(w, holder).0; QuietWorld(w, w') && OwnOpen(w')
  {
    hide QuietService, Swept;
    SweptQuietly(w.svc);
    RecordedQuietly(w.svc, Swept(w.svc), Event.Read(holder, Swept(w.svc).version));
  }

  lemma {:induction false} ReadQuietly(c: Setup, w: World, holder: HolderId)
    requires OwnOpen(w)
    ensures var w' := ReadDone(c, w, holder).0; QuietWorld(w, w') && OwnOpen(w')
  {
    hide QuietService, Acquired, ReadNow;
    AcquiredQuietly(c, w.svc, holder);
    AcquiredOwn(c, w.svc, holder);
    match Acquired(c, w.svc, holder)
    case (svc, Ok(holding)) =>
      var taken := w.(svc := svc, open := w.open[holder := Open(holding, w.svc.now)]);
      ReadNowQuietly(taken, holder);
      QuietlyTwice(w.svc, svc, ReadNow(taken, holder).0.svc);
      ReadNowQuietly(w, holder);
    case (_, Err(_)) =>
      ReadNowQuietly(w, holder);
  }

  /** The holding handed out is the caller's own. */
  lemma {:induction false} AcquiredOwn(c: Setup, s: Service, holder: HolderId)
    ensures Acquired(c, s, holder).1.Ok? ==> Acquired(c, s, holder).1.value.holder == holder
  {
  }

  lemma {:induction false} ProgressQuietly(c: Setup, w: World, holder: HolderId)
    requires OwnOpen(w)
    ensures var w' := Progressed(c, w, holder).0; QuietWorld(w, w') && OwnOpen(w')
  {
    hide Renewed;
    if holder in w.open {
      RenewedQuietly(c, w.svc, w.open[holder].holding);
    }
  }

  lemma {:induction false} AbandonQuietly(c: Setup, w: World, holder: HolderId)
    requires OwnOpen(w)
    ensures var w' := Abandoned(c, w, holder); QuietWorld(w, w') && OwnOpen(w')
  {
    hide Released;
    if holder in w.open {
      ReleasedQuietly(c, w.svc, w.open[holder].holding);
    }
  }

  lemma {:induction false} HoldForWriteQuietly(c: Setup, w: World, holder: HolderId)
    requires OwnOpen(w)
    ensures var (w', r) := HoldForWrite(c, w, holder);
            && QuietWorld(w, w')
            && w'.open == w.open
            && (r.Ok? ==> r.value.holder == holder)
  {
    hide Acquired;
    AcquiredQuietly(c, w.svc, holder);
    AcquiredOwn(c, w.svc, holder);
  }

  /** What the log looks like around an acceptance. */
  lemma {:induction false} AppliedLog(c: Setup, w: World, a: Authorized)
    ensures var (w', r) := Applied(c, w, a);
            && Quietly(w.svc.log, Swept(w.svc).log)
            && (r.Err? ==> WithoutAccepting(w.svc.log, w'.svc.log))
            && (r.Ok? ==>
                  var event := WriteAccepted(a.holding.holder, a.holding.ticket, a.newVersion, a.content);
                  WithoutAccepting(Append(Swept(w.svc).log, Swept(w.svc).now, event), w'.svc.log))
  {
    hide Swept, Released;
    SweptQuietly(w.svc);
    var swept := Swept(w.svc);
    var refused := Record(swept, WriteRefused(a.holding.holder, StaleVersion(a.newVersion, swept.version), a.content));
    var accepted := Record(swept, WriteAccepted(a.holding.holder, a.holding.ticket, a.newVersion, a.content));
    ReleasedQuietly(c, refused, a.holding);
    ReleasedQuietly(c, accepted, a.holding);
    assert forall i | |w.svc.log| <= i < |refused.log| :: !refused.log[i].event.WriteAccepted?;
  }

  /** Apart from the two phases, no operation accepts anything. */
  lemma {:induction false} OtherStepsAcceptNothing(c: Setup, rs: RunState, op: Op)
    requires OwnOpen(rs.world) && !op.Write? && !op.Authorize? && !op.Apply?
    ensures QuietService(rs.world.svc, Step(c, rs, op).world.svc) || op.Advance?
    ensures WithoutAccepting(rs.world.svc.log, Step(c, rs, op).world.svc.log)
    ensures Step(c, rs, op).world.store == rs.world.store
    ensures Step(c, rs, op).world.svc.version == rs.world.svc.version
    ensures Step(c, rs, op).pool == rs.pool && Step(c, rs, op).commits == rs.commits
  {
    hide ReadDone, Progressed, Abandoned, ForceReleased, ForceExpired, Swept;
    var w := rs.world;
    match op
    case Advance(_) =>
    case Read(holder) => ReadQuietly(c, w, holder);
    case Progress(holder) => ProgressQuietly(c, w, holder);
    case Abandon(holder) => AbandonQuietly(c, w, holder);
    case ForceRelease => ForceReleasedQuietly(w.svc);
    case ForceExpire => ForceExpiredQuietly(w.svc);
    case Probe => SweptQuietly(w.svc);
    case NoteFinished(_) =>
    case NoteWedged(_) =>
  }
}
