/** Safety of split runs, whatever the faults, the interleaving and the revocations: what the file
    holds, which commit each accepted write comes from, and why accepted writes cannot overlap. */
module Commits {
  import opened Types
  import opened Histories
  import opened Stores
  import opened Locks
  import opened Harnesses
  import opened Runs
  import opened Checkers
  import opened CheckerMeaning
  import opened Effects

  /** The service said yes rightly: the ticket was held, none higher was, and the log has the
      attempt at the recorded place with the recorded expected version. */
  ghost predicate CommitOk(cm: Commit, k: nat, log: Log) {
    && cm.expected == k
    && InForce(cm.held) == Some(cm.holding.ticket)
    && cm.holding.ticket in Tickets(cm.held)
    && cm.attemptedAt < |log|
    && log[cm.attemptedAt].event == WriteAttempted(cm.holding.holder, cm.holding.ticket, k)
  }

  /** One record per version, in order of their attempts. */
  ghost predicate CommitsOk(commits: seq<Commit>, log: Log) {
    && (forall k | 0 <= k < |commits| :: CommitOk(commits[k], k, log))
    && (forall j, k | 0 <= j < k < |commits| :: commits[j].attemptedAt < commits[k].attemptedAt)
  }

  /** A waiting token is the commit that produced its version. */
  ghost predicate TokenOk(a: Authorized, commits: seq<Commit>) {
    && 1 <= a.newVersion <= |commits|
    && commits[a.newVersion - 1].holding == a.holding
    && commits[a.newVersion - 1].content == a.content
  }

  ghost predicate TokensOk(pool: seq<Authorized>, commits: seq<Commit>) {
    && (forall i | 0 <= i < |pool| :: TokenOk(pool[i], commits))
    && (forall i, j | 0 <= i < j < |pool| :: pool[i].newVersion != pool[j].newVersion)
  }

  ghost predicate NoAttempt(log: Log, from: int, to: int) {
    forall k | from <= k < to && 0 <= k < |log| :: !log[k].event.WriteAttempted?
  }

  /** The acceptance at i comes from its own commit, no attempt was made in between, and every
      later commit was attempted only afterwards. */
  ghost predicate AcceptOk(log: Log, commits: seq<Commit>, i: int)
    requires 0 <= i < |log| && log[i].event.WriteAccepted?
  {
    var n := log[i].event.version;
    && 1 <= n <= |commits|
    && commits[n - 1].holding == Holding(log[i].event.holder, log[i].event.ticket)
    && commits[n - 1].content == log[i].event.content
    && commits[n - 1].attemptedAt < i
    && NoAttempt(log, commits[n - 1].attemptedAt + 1, i)
    && forall k | n <= k < |commits| :: i < commits[k].attemptedAt
  }

  ghost predicate AcceptsOk(log: Log, commits: seq<Commit>) {
    forall i | 0 <= i < |log| && log[i].event.WriteAccepted? :: AcceptOk(log, commits, i)
  }

  /** Older content never lands on newer. */
  ghost predicate VersionsIncrease(log: Log) {
    forall i, j | 0 <= i < j < |log| && log[i].event.WriteAccepted? && log[j].event.WriteAccepted? ::
      log[i].event.version < log[j].event.version
  }

  /** A token is spent when its version is accepted. */
  ghost predicate Unspent(log: Log, pool: seq<Authorized>) {
    forall i, j | 0 <= i < |log| && log[i].event.WriteAccepted? && 0 <= j < |pool| ::
      log[i].event.version != pool[j].newVersion
  }

  /** Whatever is staged while the latest commit is still waiting is that commit's content, and
      nobody has attempted a write since. */
  ghost predicate StagedOk(rs: RunState) {
    forall i | 0 <= i < |rs.pool| && 0 < rs.pool[i].newVersion == |rs.commits| && rs.world.store.tmp.Some? ::
      && rs.world.store.tmp.value == rs.pool[i].content
      && NoAttempt(rs.world.svc.log, rs.commits[|rs.commits| - 1].attemptedAt + 1, |rs.world.svc.log|)
  }

  ghost predicate Ledger(c: Setup, rs: RunState) {
    var log := rs.world.svc.log;
    && Numbered(log)
    && OwnOpen(rs.world)
    && |rs.commits| == rs.world.svc.version
    && CommitsOk(rs.commits, log)
    && TokensOk(rs.pool, rs.commits)
    && AcceptsOk(log, rs.commits)
    && VersionsIncrease(log)
    && Unspent(log, rs.pool)
    && (c.failAt == Some(AfterTempWritten) ==> rs.commits == [])
  }

  /** The file holds what the log says it should. */
  ghost predicate FileOk(rs: RunState, initial: Content) {
    ReadBack(rs.world.store.target) == Due(rs.world.svc.log, initial)
  }

  ghost predicate Safe(c: Setup, rs: RunState, initial: Content) {
    Ledger(c, rs) && StagedOk(rs) && FileOk(rs, initial)
  }

  // ---------- Extending the log

  lemma {:induction false} CommitsExtend(commits: seq<Commit>, log: Log, log': Log)
    requires CommitsOk(commits, log) && log <= log'
    ensures CommitsOk(commits, log')
  {
    forall k | 0 <= k < |commits|
      ensures CommitOk(commits[k], k, log')
    {
      assert CommitOk(commits[k], k, log);
    }
  }

  lemma {:induction false} AcceptExtends(commits: seq<Commit>, log: Log, log': Log, i: int)
    requires log <= log' && 0 <= i < |log| && log[i].event.WriteAccepted?
    requires AcceptOk(log, commits, i)
    ensures AcceptOk(log', commits, i)
  {
    assert forall k | 0 <= k < |log| :: log'[k] == log[k];
  }

  lemma {:induction false} AcceptsExtend(commits: seq<Commit>, log: Log, log': Log)
    requires AcceptsOk(log, commits) && WithoutAccepting(log, log')
    ensures AcceptsOk(log', commits)
  {
    forall i | 0 <= i < |log'| && log'[i].event.WriteAccepted?
      ensures AcceptOk(log', commits, i)
    {
      assert i < |log|;
      AcceptExtends(commits, log, log', i);
    }
  }

  lemma {:induction false} VersionsExtend(log: Log, log': Log)
    requires VersionsIncrease(log) && WithoutAccepting(log, log')
    ensures VersionsIncrease(log')
  {
  }

  lemma {:induction false} VersionAccepted(log: Log, commits: seq<Commit>, at: nat, event: Event)
    requires VersionsIncrease(log) && AcceptsOk(log, commits)
    requires event.WriteAccepted? && event.version == |commits|
    requires forall i | 0 <= i < |log| && log[i].event.WriteAccepted? :: log[i].event.version != event.version
    ensures VersionsIncrease(Append(log, at, event))
  {
    AcceptedVersionsBelow(log, commits, |commits| + 1);
  }

  lemma {:induction false} DueExtends(log: Log, log': Log, initial: Content)
    requires WithoutAccepting(log, log')
    ensures LastAccepted(log') == LastAccepted(log)
    ensures Due(log', initial) == Due(log, initial)
    decreases |log'|
  {
    if |log'| > |log| {
      var shorter := log'[..|log'| - 1];
      assert WithoutAccepting(log, shorter);
      DueExtends(log, shorter, initial);
    } else {
      assert log' == log;
    }
  }

  lemma {:induction false} LedgerExtends(c: Setup, rs: RunState, w': World)
    requires Ledger(c, rs)
    requires WithoutAccepting(rs.world.svc.log, w'.svc.log) && w'.svc.version == rs.world.svc.version
    requires OwnOpen(w')
    ensures Ledger(c, rs.(world := w'))
  {
    CommitsExtend(rs.commits, rs.world.svc.log, w'.svc.log);
    AcceptsExtend(rs.commits, rs.world.svc.log, w'.svc.log);
    VersionsExtend(rs.world.svc.log, w'.svc.log);
  }

  lemma {:induction false} UnattemptedIsSafe(c: Setup, rs: RunState, w': World, initial: Content)
    requires Safe(c, rs, initial)
    requires Unattempted(rs.world.svc.log, w'.svc.log) && w'.svc.version == rs.world.svc.version && OwnOpen(w')
    requires w'.store.target == rs.world.store.target
    requires w'.store.tmp == rs.world.store.tmp || w'.store.tmp.None?
    ensures Safe(c, rs.(world := w'), initial)
  {
    LedgerExtends(c, rs, w');
    DueExtends(rs.world.svc.log, w'.svc.log, initial);
  }

  lemma {:induction false} QuietIsSafe(c: Setup, rs: RunState, w': World, initial: Content)
    requires Safe(c, rs, initial)
    requires QuietService(rs.world.svc, w'.svc) && OwnOpen(w')
    requires w'.store.target == rs.world.store.target
    requires w'.store.tmp == rs.world.store.tmp || w'.store.tmp.None?
    ensures Safe(c, rs.(world := w'), initial)
  {
    hide Safe, OwnOpen;
    UnattemptedIsSafe(c, rs, w', initial);
  }

  // ---------- Phase 1

  lemma {:induction false} SubmittedRefused(
    c: Setup, w: World, holder: HolderId, holding: Holding, readAt: nat, content: Content)
    requires Submitted(c, w, holder, holding, readAt, content).1.Err?
    ensures var w' := Submitted(c, w, holder, holding, readAt, content).0;
            && WithoutAccepting(w.svc.log, w'.svc.log)
            && w'.svc.version == w.svc.version
            && w'.open == w.open
            && w'.store.target == w.store.target
            && (w'.store.tmp.None? || c.failAt == Some(AfterTempWritten))
  {
    var attempted := Record(w.svc, WriteAttempted(holder, holding.ticket, readAt));
    if Prepared(c, w.store, content).1 {
      var (svc, r) := Committed(attempted, holding, readAt);
      SweptQuietly(attempted);
      var refused := Record(svc, WriteRefused(holder, r.error, content));
      assert WithoutAccepting(w.svc.log, refused.log);
      ReleasedQuietly(c, refused, holding);
    }
  }

  lemma {:induction false} SubmittedAuthorized(
    c: Setup, w: World, holder: HolderId, holding: Holding, readAt: nat, content: Content)
    requires Submitted(c, w, holder, holding, readAt, content).1.Ok?
    ensures var (w', r) := Submitted(c, w, holder, holding, readAt, content);
            && WithoutAccepting(w.svc.log, w'.svc.log)
            && r.value == Authorized(holding, w.svc.version + 1, content)
            && w'.svc.version == w.svc.version + 1
            && readAt == w.svc.version
            && w'.open == w.open
            && w'.store == Store(w.store.target, Some(content))
            && c.failAt != Some(AfterTempWritten)
            && |w.svc.log| < |w'.svc.log|
            && w'.svc.log[|w.svc.log|].event == WriteAttempted(holder, holding.ticket, readAt)
            && NoAttempt(w'.svc.log, |w.svc.log| + 1, |w'.svc.log|)
    ensures var held := Alive(w.svc.held, w.svc.now);
            holding.ticket in Tickets(held) && InForce(held) == Some(holding.ticket)
  {
    SweptQuietly(Record(w.svc, WriteAttempted(holder, holding.ticket, readAt)));
  }

  lemma {:induction false} SubmitIsSafe(
    c: Setup, rs: RunState, holding: Holding, readAt: nat, content: Content, initial: Content)
    requires Safe(c, rs, initial)
    ensures match Submitted(c, rs.world, holding.holder, holding, readAt, content)
            case (w, Err(_)) => Safe(c, rs.(world := w), initial)
            case (w, Ok(a)) =>
              Safe(c, RunState(w, rs.pool + [a], rs.commits + [RecordOf(rs.world, holding, readAt, content)]), initial)
  {
    var w := rs.world;
    match Submitted(c, w, holding.holder, holding, readAt, content)
    case (w', Err(_)) =>
      SubmittedRefused(c, w, holding.holder, holding, readAt, content);
      LedgerExtends(c, rs, w');
      DueExtends(w.svc.log, w'.svc.log, initial);
    case (w', Ok(a)) =>
      SubmittedAuthorized(c, w, holding.holder, holding, readAt, content);
      CommitsExtend(rs.commits, w.svc.log, w'.svc.log);
      AcceptsExtend(rs.commits, w.svc.log, w'.svc.log);
      VersionsExtend(w.svc.log, w'.svc.log);
      DueExtends(w.svc.log, w'.svc.log, initial);
      CommitAdded(c, rs, w', RecordOf(w, holding, readAt, content), a);
  }

  lemma {:induction false} CommitAdded(c: Setup, rs: RunState, w': World, cm: Commit, a: Authorized)
    requires Ledger(c, rs)
    requires WithoutAccepting(rs.world.svc.log, w'.svc.log) && OwnOpen(w')
    requires w'.svc.version == rs.world.svc.version + 1
    requires c.failAt != Some(AfterTempWritten)
    requires CommitsOk(rs.commits, w'.svc.log) && AcceptsOk(w'.svc.log, rs.commits)
    requires VersionsIncrease(w'.svc.log)
    requires CommitOk(cm, |rs.commits|, w'.svc.log) && cm.attemptedAt == |rs.world.svc.log|
    requires a == Authorized(cm.holding, w'.svc.version, cm.content)
    ensures Ledger(c, RunState(w', rs.pool + [a], rs.commits + [cm]))
  {
    hide CommitOk, AcceptOk, TokenOk, OwnOpen;
    CommitsGrow(rs.commits, rs.world.svc.log, w'.svc.log, cm);
    AcceptsBeforeCommit(rs.world.svc.log, w'.svc.log, rs.commits, cm);
    TokenAdded(rs.pool, rs.commits, cm, a);
    AcceptedVersionsBelow(w'.svc.log, rs.commits, a.newVersion);
    hide CommitsOk, AcceptsOk, TokensOk, VersionsIncrease;
  }

  lemma {:induction false} CommitsGrow(commits: seq<Commit>, log: Log, log': Log, cm: Commit)
    requires CommitsOk(commits, log) && CommitsOk(commits, log')
    requires CommitOk(cm, |commits|, log') && cm.attemptedAt == |log|
    ensures CommitsOk(commits + [cm], log')
  {
    forall k | 0 <= k < |commits|
      ensures commits[k].attemptedAt < cm.attemptedAt
    {
      assert CommitOk(commits[k], k, log);
    }
  }

  lemma {:induction false} AcceptsBeforeCommit(log: Log, log': Log, commits: seq<Commit>, cm: Commit)
    requires AcceptsOk(log', commits) && WithoutAccepting(log, log') && cm.attemptedAt == |log|
    ensures AcceptsOk(log', commits + [cm])
  {
    forall i | 0 <= i < |log'| && log'[i].event.WriteAccepted?
      ensures AcceptOk(log', commits + [cm], i)
    {
      assert AcceptOk(log', commits, i) && i < |log|;
    }
  }

  lemma {:induction false} TokenAdded(pool: seq<Authorized>, commits: seq<Commit>, cm: Commit, a: Authorized)
    requires TokensOk(pool, commits)
    requires a == Authorized(cm.holding, |commits| + 1, cm.content)
    ensures TokensOk(pool + [a], commits + [cm])
  {
    forall i | 0 <= i < |pool|
      ensures TokenOk(pool[i], commits + [cm]) && pool[i].newVersion != a.newVersion
    {
      assert TokenOk(pool[i], commits);
    }
  }

  lemma {:induction false} AcceptedVersionsBelow(log: Log, commits: seq<Commit>, n: nat)
    requires AcceptsOk(log, commits) && |commits| < n
    ensures forall i | 0 <= i < |log| && log[i].event.WriteAccepted? :: log[i].event.version < n
  {
    forall i | 0 <= i < |log| && log[i].event.WriteAccepted?
      ensures log[i].event.version < n
    {
      assert AcceptOk(log, commits, i);
    }
  }

  lemma {:induction false} AuthorizeIsSafe(
    c: Setup, rs: RunState, holder: HolderId, readAt: nat, content: Content, initial: Content)
    requires Safe(c, rs, initial)
    ensures Safe(c, AuthorizeStep(c, rs, holder, readAt, content), initial)
  {
    HoldForWriteQuietly(c, rs.world, holder);
    match HoldForWrite(c, rs.world, holder)
    case (w, Err(_)) =>
      QuietIsSafe(c, rs, w, initial);
    case (w, Ok(holding)) =>
      QuietIsSafe(c, rs, w, initial);
      SubmitIsSafe(c, rs.(world := w), holding, readAt, content, initial);
  }

  // ---------- Phase 2

  /** Whether a waiting write would be published: it is still the latest commit, something is staged,
      and renames work. */
  predicate Lands(c: Setup, w: World, a: Authorized) {
    a.newVersion == w.svc.version && w.store.tmp.Some? && c.failAt != Some(DuringRename)
  }

  lemma {:induction false} LandsMeans(c: Setup, w: World, a: Authorized)
    ensures Applied(c, w, a).1.Ok? <==> Lands(c, w, a)
  {
    hide Released, Alive, Lapsed, Expiries, AppendAll;
  }

  lemma {:induction false} TokensShrink(pool: seq<Authorized>, commits: seq<Commit>, k: nat)
    requires TokensOk(pool, commits) && k < |pool|
    ensures TokensOk(Remove(pool, k), commits)
    ensures forall j | 0 <= j < |Remove(pool, k)| :: Remove(pool, k)[j].newVersion != pool[k].newVersion
    ensures forall j | 0 <= j < |Remove(pool, k)| :: Remove(pool, k)[j] in pool
  {
    var pool' := Remove(pool, k);
    forall j | 0 <= j < |pool'|
      ensures pool'[j] in pool && TokenOk(pool'[j], commits) && pool'[j].newVersion != pool[k].newVersion
    {
      assert pool'[j] == pool[if j < k then j else j + 1];
    }
  }

  lemma {:induction false} PoolShrinks(c: Setup, rs: RunState, k: nat, initial: Content)
    requires Safe(c, rs, initial) && k < |rs.pool|
    ensures Safe(c, rs.(pool := Remove(rs.pool, k)), initial)
  {
    var pool' := Remove(rs.pool, k);
    var log := rs.world.svc.log;
    TokensShrink(rs.pool, rs.commits, k);
    forall i, j | 0 <= i < |log| && log[i].event.WriteAccepted? && 0 <= j < |pool'|
      ensures log[i].event.version != pool'[j].newVersion
    {
      var m :| 0 <= m < |rs.pool| && rs.pool[m] == pool'[j];
    }
    StagedShrinks(rs, k);
  }

  lemma {:induction false} StagedShrinks(rs: RunState, k: nat)
    requires StagedOk(rs) && k < |rs.pool|
    ensures StagedOk(rs.(pool := Remove(rs.pool, k)))
  {
    var pool' := Remove(rs.pool, k);
    forall i | 0 <= i < |pool'|
      ensures pool'[i] in rs.pool
    {
      assert pool'[i] == rs.pool[if i < k then i else i + 1];
    }
  }

  /** The published content is the one recorded as accepted. */
  lemma {:induction false} AcceptIsSafe(c: Setup, rs: RunState, a: Authorized, initial: Content)
    requires Safe(c, rs, initial)
    requires TokenOk(a, rs.commits) && a.newVersion == rs.world.svc.version
    requires forall i | 0 <= i < |rs.world.svc.log| && rs.world.svc.log[i].event.WriteAccepted? ::
               rs.world.svc.log[i].event.version != a.newVersion
    requires forall j | 0 <= j < |rs.pool| :: rs.pool[j].newVersion != a.newVersion
    requires NoAttempt(rs.world.svc.log, rs.commits[a.newVersion - 1].attemptedAt + 1, |rs.world.svc.log|)
    ensures var accepted := Logged(rs.world.(store := Store(Some(a.content), None)),
                                   WriteAccepted(a.holding.holder, a.holding.ticket, a.newVersion, a.content));
            Safe(c, rs.(world := accepted), initial)
  {
    var log := rs.world.svc.log;
    var log' := Append(log, rs.world.svc.now,
                       WriteAccepted(a.holding.holder, a.holding.ticket, a.newVersion, a.content));
    CommitsExtend(rs.commits, log, log');
    assert CommitOk(rs.commits[a.newVersion - 1], a.newVersion - 1, log);
    forall i | 0 <= i < |log'| && log'[i].event.WriteAccepted?
      ensures AcceptOk(log', rs.commits, i)
    {
      if i < |log| {
        AcceptExtends(rs.commits, log, log', i);
      }
    }
    VersionAccepted(log, rs.commits, rs.world.svc.now, log'[|log|].event);
    assert log'[..|log|] == log;
  }

  lemma {:induction false} SupersededIsSafe(c: Setup, rs: RunState, a: Authorized, initial: Content)
    requires Safe(c, rs, initial) && rs.world.svc.version != a.newVersion
    ensures Safe(c, rs.(world := Applied(c, rs.world, a).0), initial)
  {
    var w := rs.world;
    SweptQuietly(w.svc);
    var swept := Swept(w.svc);
    var refused := Record(swept, WriteRefused(a.holding.holder, StaleVersion(a.newVersion, swept.version), a.content));
    ReleasedQuietly(c, refused, a.holding);
    UnattemptedIsSafe(c, rs, Applied(c, w, a).0, initial);
  }

  /** What a safe state says about a waiting token whose commit is still the latest. */
  lemma {:induction false} LatestToken(c: Setup, rs: RunState, k: nat, initial: Content)
    requires Safe(c, rs, initial) && k < |rs.pool| && rs.pool[k].newVersion == rs.world.svc.version
    ensures var a := rs.pool[k];
            && TokenOk(a, rs.commits)
            && (rs.world.store.tmp.Some? ==>
                  && rs.world.store.tmp == Some(a.content)
                  && NoAttempt(rs.world.svc.log, rs.commits[a.newVersion - 1].attemptedAt + 1, |rs.world.svc.log|))
            && forall i | 0 <= i < |rs.world.svc.log| && rs.world.svc.log[i].event.WriteAccepted? ::
                 rs.world.svc.log[i].event.version != a.newVersion
  {
    assert TokenOk(rs.pool[k], rs.commits);
  }

  lemma {:induction false} PoolVersionsDiffer(c: Setup, rs: RunState, k: nat)
    requires Ledger(c, rs) && k < |rs.pool|
    ensures forall j | 0 <= j < |Remove(rs.pool, k)| :: Remove(rs.pool, k)[j].newVersion != rs.pool[k].newVersion
  {
    TokensShrink(rs.pool, rs.commits, k);
  }

  lemma {:induction false} PublishedIsSafe(c: Setup, rs: RunState, k: nat, initial: Content)
    requires Safe(c, rs, initial) && k < |rs.pool| && rs.world.svc.version == rs.pool[k].newVersion
    requires Published(c, rs.world.store).1
    ensures Safe(c, ApplyStep(c, rs, k), initial)
    ensures rs.world.store.tmp == Some(rs.pool[k].content)
  {
    hide Ledger, StagedOk, FileOk, Swept, Released, NoAttempt, TokenOk;
    var a := rs.pool[k];
    var rest := rs.(pool := Remove(rs.pool, k));
    LatestToken(c, rs, k, initial);
    PoolVersionsDiffer(c, rs, k);
    PoolShrinks(c, rs, k, initial);
    SweptQuietly(rs.world.svc);
    var swept := rs.world.(svc := Swept(rs.world.svc));
    QuietIsSafe(c, rest, swept, initial) by {
      KeepsOwn(c, rs, swept);
    }
    AcceptIsSafe(c, rest.(world := swept), a, initial);
    var accepted := Logged(swept.(store := Store(Some(a.content), None)),
                           WriteAccepted(a.holding.holder, a.holding.ticket, a.newVersion, a.content));
    FinishedIsSafe(c, rest.(world := accepted), a.holding, initial);
  }

  lemma {:induction false} KeepsOwn(c: Setup, rs: RunState, w': World)
    requires Ledger(c, rs) && w'.open == rs.world.open
    ensures OwnOpen(w')
  {
  }

  lemma {:induction false} FinishedIsSafe(c: Setup, rs: RunState, holding: Holding, initial: Content)
    requires Safe(c, rs, initial)
    ensures Safe(c, rs.(world := Finished(c, rs.world, holding)), initial)
  {
    hide Safe, Released;
    ReleasedQuietly(c, rs.world.svc, holding);
    assert OwnOpen(rs.world) by {
      SafeIsOwn(c, rs, initial);
    }
    QuietIsSafe(c, rs, Finished(c, rs.world, holding), initial);
  }

  lemma {:induction false} SafeIsOwn(c: Setup, rs: RunState, initial: Content)
    requires Safe(c, rs, initial)
    ensures OwnOpen(rs.world)
  {
  }

  lemma {:induction false} ApplyIsSafe(c: Setup, rs: RunState, k: nat, initial: Content)
    requires Safe(c, rs, initial)
    ensures Safe(c, ApplyStep(c, rs, k), initial)
  {
    if k < |rs.pool| {
      var rest := rs.(pool := Remove(rs.pool, k));
      PoolShrinks(c, rs, k, initial);
      if rs.world.svc.version != rs.pool[k].newVersion {
        SupersededIsSafe(c, rest, rs.pool[k], initial);
      } else if Published(c, rs.world.store).1 {
        PublishedIsSafe(c, rs, k, initial);
      } else {
        SweptQuietly(rs.world.svc);
        QuietIsSafe(c, rest, Applied(c, rs.world, rs.pool[k]).0, initial);
      }
    }
  }

  // ---------- Runs

  lemma {:induction false} AdvanceIsSafe(c: Setup, rs: RunState, delta: nat, initial: Content)
    requires Safe(c, rs, initial)
    ensures Safe(c, rs.(world := rs.world.(svc := rs.world.svc.(now := rs.world.svc.now + delta))), initial)
  {
  }

  lemma {:induction false} NoteIsSafe(c: Setup, rs: RunState, note: Event, initial: Content)
    requires Safe(c, rs, initial) && !note.WriteAttempted? && !note.WriteAccepted?
    ensures Safe(c, rs.(world := Logged(rs.world, note)), initial)
  {
    SafeIsOwn(c, rs, initial);
    hide Safe;
    UnattemptedIsSafe(c, rs, Logged(rs.world, note), initial);
  }

  lemma {:induction false} SvcIsSafe(c: Setup, rs: RunState, svc: Service, initial: Content)
    requires Safe(c, rs, initial) && QuietService(rs.world.svc, svc)
    ensures Safe(c, rs.(world := rs.world.(svc := svc)), initial)
  {
    SafeIsOwn(c, rs, initial);
    hide Safe;
    QuietIsSafe(c, rs, rs.world.(svc := svc), initial);
  }

  lemma {:induction false} StepIsSafe(c: Setup, rs: RunState, op: Op, initial: Content)
    requires Safe(c, rs, initial)
    ensures Safe(c, Step(c, rs, op), initial)
  {
    hide Safe, ReadDone, Progressed, AuthorizeStep, ApplyStep, Abandoned, ForceReleased, ForceExpired, Swept;
    hide QuietService, OwnOpen;
    var w := rs.world;
    SafeIsOwn(c, rs, initial);
    match op
    case Advance(delta) =>
      AdvanceIsSafe(c, rs, delta, initial);
    case Read(holder) =>
      ReadQuietly(c, w, holder);
      QuietIsSafe(c, rs, Step(c, rs, op).world, initial);
    case Progress(holder) =>
      ProgressQuietly(c, w, holder);
      QuietIsSafe(c, rs, Step(c, rs, op).world, initial);
    case Write(holder, readAt, content) =>
      AuthorizeIsSafe(c, rs, holder, readAt, content, initial);
      ApplyIsSafe(c, AuthorizeStep(c, rs, holder, readAt, content), |rs.pool|, initial);
    case Authorize(holder, readAt, content) =>
      AuthorizeIsSafe(c, rs, holder, readAt, content, initial);
    case Apply(k) =>
      ApplyIsSafe(c, rs, k, initial);
    case Abandon(holder) =>
      AbandonQuietly(c, w, holder);
      QuietIsSafe(c, rs, Step(c, rs, op).world, initial);
    case ForceRelease =>
      ForceReleasedQuietly(w.svc);
      SvcIsSafe(c, rs, Step(c, rs, op).world.svc, initial);
    case ForceExpire =>
      ForceExpiredQuietly(w.svc);
      SvcIsSafe(c, rs, Step(c, rs, op).world.svc, initial);
    case Probe =>
      SweptQuietly(w.svc);
      SvcIsSafe(c, rs, Step(c, rs, op).world.svc, initial);
    case NoteFinished(holder) =>
      NoteIsSafe(c, rs, AgentFinished(holder), initial);
    case NoteWedged(holder) =>
      NoteIsSafe(c, rs, AgentWedged(holder), initial);
  }

  lemma {:induction false} RunIsSafe(c: Setup, file: Option<Content>, leftover: Option<Content>, ops: seq<Op>)
    ensures Safe(c, Run(c, Start(file, leftover), ops), ReadBack(file))
  {
    if ops == [] {
    } else {
      RunIsSafe(c, file, leftover, ops[..|ops| - 1]);
      StepIsSafe(c, Run(c, Start(file, leftover), ops[..|ops| - 1]), ops[|ops| - 1], ReadBack(file));
    }
  }

  lemma {:induction false} RunOwn(c: Setup, file: Option<Content>, leftover: Option<Content>, ops: seq<Op>)
    ensures OwnOpen(Run(c, Start(file, leftover), ops).world)
  {
    hide Run;
    RunIsSafe(c, file, leftover, ops);
  }
}
