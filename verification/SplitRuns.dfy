/** What holds of every run, split or atomic, under every fault: the staging slot is safe, accepted
    writes exclude each other, and exactly when the checker's file and freshness verdicts hold. */
module SplitRuns {
  import opened Types
  import opened Histories
  import opened Stores
  import opened Locks
  import opened Harnesses
  import opened Runs
  import opened Checkers
  import opened CheckerMeaning
  import opened Effects
  import opened Commits

  /** The file always holds the last accepted content, or the initial one; so P3 never fails. */
  lemma {:induction false} FileIsLastAccepted(c: Setup, file: Option<Content>, leftover: Option<Content>, ops: seq<Op>)
    ensures var w := Run(c, Start(file, leftover), ops).world;
            && ReadBack(w.store.target) == Due(w.svc.log, ReadBack(file))
            && P3Found(w.svc.log, ReadBack(w.store.target), ReadBack(file)) == []
  {
    hide Run, Safe, CommitsOk, AcceptsOk, VersionsIncrease, Numbered, P3Found;
    RunIsSafe(c, file, leftover, ops);
    SafeParts(c, Run(c, Start(file, leftover), ops), ReadBack(file));
    var w := Run(c, Start(file, leftover), ops).world;
    P3Means(w.svc.log, ReadBack(w.store.target), ReadBack(file));
  }

  /** Applying a waiting write publishes that write's own content or leaves the file alone. It
      publishes exactly when no later commit has overtaken it, something is staged, and renames
      work, although every authorization stages in the same slot. */
  lemma {:induction false} ApplyPublishesItsOwn(
    c: Setup, file: Option<Content>, leftover: Option<Content>, ops: seq<Op>, k: nat)
    requires k < |Run(c, Start(file, leftover), ops).pool|
    ensures var rs := Run(c, Start(file, leftover), ops);
            var a := rs.pool[k];
            var (w, r) := Applied(c, rs.world, a);
            && (r.Ok? <==> Lands(c, rs.world, a))
            && rs.world.svc.version == |rs.commits|
            && (r.Ok? ==> w.store == Store(Some(a.content), None) && Due(w.svc.log, ReadBack(file)) == a.content)
            && (r.Err? ==> w.store.target == rs.world.store.target)
  {
    hide Run;
    RunIsSafe(c, file, leftover, ops);
    ApplyOfSafe(c, Run(c, Start(file, leftover), ops), k, ReadBack(file));
  }

  lemma {:induction false} ApplyOfSafe(c: Setup, rs: RunState, k: nat, initial: Content)
    requires Safe(c, rs, initial) && k < |rs.pool|
    ensures var a := rs.pool[k];
            var (w, r) := Applied(c, rs.world, a);
            && (r.Ok? <==> Lands(c, rs.world, a))
            && rs.world.svc.version == |rs.commits|
            && (r.Ok? ==> w.store == Store(Some(a.content), None) && Due(w.svc.log, initial) == a.content)
            && (r.Err? ==> w.store.target == rs.world.store.target)
  {
    SafeParts(c, rs, initial);
    hide Safe, CommitsOk, AcceptsOk, VersionsIncrease, Numbered, OwnOpen, Released;
    LandsMeans(c, rs.world, rs.pool[k]);
    ApplyIsSafe(c, rs, k, initial);
    SafeParts(c, ApplyStep(c, rs, k), initial);
    if Applied(c, rs.world, rs.pool[k]).1.Ok? {
      PublishedIsSafe(c, rs, k, initial);
    }
  }

  /** The commit behind the acceptance at i. */
  ghost predicate CommittedBefore(log: Log, commits: seq<Commit>, i: int)
    requires 0 <= i < |log| && log[i].event.WriteAccepted?
  {
    var n := log[i].event.version;
    && 1 <= n <= |commits|
    && commits[n - 1].holding == Holding(log[i].event.holder, log[i].event.ticket)
    && commits[n - 1].content == log[i].event.content
    && commits[n - 1].expected == n - 1
    && commits[n - 1].attemptedAt < i
    && log[commits[n - 1].attemptedAt].event == WriteAttempted(log[i].event.holder, log[i].event.ticket, n - 1)
    && InForce(commits[n - 1].held) == Some(log[i].event.ticket)
  }

  /** No other commit's attempt lies between this commit's attempt and the acceptance at i. */
  ghost predicate NoCommitBetween(commits: seq<Commit>, n: int, i: int)
    requires 1 <= n <= |commits|
  {
    forall k | 0 <= k < |commits| && k != n - 1 ::
      commits[k].attemptedAt < commits[n - 1].attemptedAt || i < commits[k].attemptedAt
  }

  lemma {:induction false} CommitPointAt(log: Log, commits: seq<Commit>, i: int)
    requires AcceptsOk(log, commits) && CommitsOk(commits, log)
    requires 0 <= i < |log| && log[i].event.WriteAccepted?
    ensures CommittedBefore(log, commits, i)
    ensures NoCommitBetween(commits, log[i].event.version, i)
  {
    assert AcceptOk(log, commits, i);
    assert CommitOk(commits[log[i].event.version - 1], log[i].event.version - 1, log);
  }

  /** What a safe state says about the log, the commits and the file, in one place. */
  lemma {:induction false} SafeParts(c: Setup, rs: RunState, initial: Content)
    requires Safe(c, rs, initial)
    ensures var log := rs.world.svc.log;
            && Numbered(log)
            && CommitsOk(rs.commits, log)
            && AcceptsOk(log, rs.commits)
            && VersionsIncrease(log)
            && |rs.commits| == rs.world.svc.version
            && OwnOpen(rs.world)
            && ReadBack(rs.world.store.target) == Due(log, initial)
  {
  }

  /** Authorization is the commit point. Each accepted write has its own commit, at which its ticket
      was held, none higher was, and the version was the one it expected; no other commit falls
      between that commit and the acceptance; and accepted versions strictly increase. */
  lemma {:induction false} AuthorizationIsTheCommitPoint(
    c: Setup, file: Option<Content>, leftover: Option<Content>, ops: seq<Op>)
    ensures var rs := Run(c, Start(file, leftover), ops);
            var log := rs.world.svc.log;
            && VersionsIncrease(log)
            && forall i | 0 <= i < |log| && log[i].event.WriteAccepted? ::
                 CommittedBefore(log, rs.commits, i) && NoCommitBetween(rs.commits, log[i].event.version, i)
  {
    hide Run, Safe, AcceptsOk, CommitsOk, VersionsIncrease, CommittedBefore, NoCommitBetween, Numbered;
    var rs := Run(c, Start(file, leftover), ops);
    var log := rs.world.svc.log;
    RunIsSafe(c, file, leftover, ops);
    SafeParts(c, rs, ReadBack(file));
    forall i | 0 <= i < |log| && log[i].event.WriteAccepted?
      ensures 1 <= log[i].event.version <= |rs.commits|
      ensures CommittedBefore(log, rs.commits, i) && NoCommitBetween(rs.commits, log[i].event.version, i)
    {
      CommitPointAt(log, rs.commits, i);
    }
  }

  /** The first of two acceptances comes before the second one's attempt. */
  ghost predicate Excludes(log: Log, commits: seq<Commit>, i: int, j: int)
    requires 0 <= j < |log| && log[j].event.WriteAccepted?
  {
    && 1 <= log[j].event.version <= |commits|
    && i < commits[log[j].event.version - 1].attemptedAt < j
  }

  lemma {:induction false} AcceptsExclude(log: Log, commits: seq<Commit>, i: int, j: int)
    requires AcceptsOk(log, commits) && VersionsIncrease(log)
    requires 0 <= i < j < |log| && log[i].event.WriteAccepted? && log[j].event.WriteAccepted?
    ensures Excludes(log, commits, i, j)
  {
    assert AcceptOk(log, commits, i) && AcceptOk(log, commits, j);
  }

  /** Of any two accepted writes, the first was accepted before the second was even attempted. */
  lemma {:induction false} AcceptedWritesExclude(
    c: Setup, file: Option<Content>, leftover: Option<Content>, ops: seq<Op>)
    ensures var rs := Run(c, Start(file, leftover), ops);
            var log := rs.world.svc.log;
            forall i, j | 0 <= i < j < |log| && log[i].event.WriteAccepted? && log[j].event.WriteAccepted? ::
              Excludes(log, rs.commits, i, j)
  {
    hide Run, Safe, AcceptsOk, CommitsOk, VersionsIncrease, Excludes, Numbered;
    var rs := Run(c, Start(file, leftover), ops);
    var log := rs.world.svc.log;
    RunIsSafe(c, file, leftover, ops);
    SafeParts(c, rs, ReadBack(file));
    forall i, j | 0 <= i < j < |log| && log[i].event.WriteAccepted? && log[j].event.WriteAccepted?
      ensures Excludes(log, rs.commits, i, j)
    {
      AcceptsExclude(log, rs.commits, i, j);
    }
  }

  /** A window the checker reconstructs starts at the write's true attempt. */
  lemma {:induction false} WindowStartsAtItsAttempt(log: Log, commits: seq<Commit>, w: Window)
    requires AcceptsOk(log, commits) && CommitsOk(commits, log) && AcceptedWindow(log, w)
    ensures 1 <= log[w.end].event.version <= |commits|
    ensures w.start == commits[log[w.end].event.version - 1].attemptedAt
  {
    var n := log[w.end].event.version;
    assert AcceptOk(log, commits, w.end) && CommitOk(commits[n - 1], n - 1, log);
    assert ConcernsWrite(log[commits[n - 1].attemptedAt].event, w.holder);
  }

  lemma {:induction false} WindowsDisjoint(log: Log, commits: seq<Commit>, a: Window, b: Window)
    requires AcceptsOk(log, commits) && CommitsOk(commits, log) && VersionsIncrease(log)
    requires AcceptedWindow(log, a) && AcceptedWindow(log, b)
    ensures !Overlap(a, b)
  {
    WindowStartsAtItsAttempt(log, commits, a);
    WindowStartsAtItsAttempt(log, commits, b);
    hide AcceptsOk, CommitsOk, VersionsIncrease;
    if a.end < b.end {
      AcceptsExclude(log, commits, a.end, b.end);
    } else if b.end < a.end {
      AcceptsExclude(log, commits, b.end, a.end);
    }
  }

  /** P1 never fails, in any run under any fault. */
  lemma {:induction false} P1AlwaysPasses(c: Setup, file: Option<Content>, leftover: Option<Content>, ops: seq<Op>)
    ensures P1Found(Run(c, Start(file, leftover), ops).world.svc.log) == []
  {
    hide Run, Safe, AcceptsOk, CommitsOk, VersionsIncrease, AcceptedWindow, Overlap, P1Found;
    var rs := Run(c, Start(file, leftover), ops);
    var log := rs.world.svc.log;
    RunIsSafe(c, file, leftover, ops);
    SafeParts(c, rs, ReadBack(file));
    forall a, b | AcceptedWindow(log, a) && AcceptedWindow(log, b)
      ensures !Overlap(a, b)
    {
      WindowsDisjoint(log, rs.commits, a, b);
    }
    P1Means(log);
  }

  /** P4 fails exactly when nothing was accepted and some refused write proposed the very content
      the file started with. */
  lemma {:induction false} P4Exactly(c: Setup, file: Option<Content>, leftover: Option<Content>, ops: seq<Op>)
    ensures var w := Run(c, Start(file, leftover), ops).world;
            P4Found(w.svc.log, ReadBack(w.store.target), ReadBack(file)) == [] <==>
            LastAccepted(w.svc.log).Some? || !WasRefused(w.svc.log, ReadBack(file))
  {
    hide Run, Safe, CommitsOk, AcceptsOk, VersionsIncrease, Numbered, P4Found;
    var w := Run(c, Start(file, leftover), ops).world;
    RunIsSafe(c, file, leftover, ops);
    SafeParts(c, Run(c, Start(file, leftover), ops), ReadBack(file));
    LastAcceptedMeans(w.svc.log);
    P4Means(w.svc.log, ReadBack(w.store.target), ReadBack(file));
  }

  /** Between the commit and the acceptance of an accepted write, its holder's latest attempt is
      that write's own. */
  lemma {:induction false} BasisIsItsAttempt(log: Log, commits: seq<Commit>, j: int)
    requires AcceptsOk(log, commits) && CommitsOk(commits, log) && VersionsIncrease(log)
    requires 0 <= j < |log| && log[j].event.WriteAccepted?
    ensures BasedOn(log[..j], log[j].event.holder) == Some(log[j].event.version - 1)
  {
    var n := log[j].event.version;
    assert AcceptOk(log, commits, j) && CommitOk(commits[n - 1], n - 1, log);
    var start := commits[n - 1].attemptedAt;
    forall k | start < k < j
      ensures !log[k].event.WriteAccepted?
    {
    }
    assert LatestBasis(log, log[j].event.holder, start, j);
    BasedOnMeans(log, log[j].event.holder, j);
  }

  /** The accepted versions are 1, 2, 3 and so on: no commit before an accepted one was lost. */
  ghost predicate Gapless(log: Log) {
    forall j | 0 <= j < |log| && log[j].event.WriteAccepted? ::
      log[j].event.version == VersionInForce(log[..j]) + 1
  }

  lemma {:induction false} P6AtAccept(log: Log, commits: seq<Commit>, j: int)
    requires AcceptsOk(log, commits) && CommitsOk(commits, log) && VersionsIncrease(log)
    requires 0 <= j < |log| && log[j].event.WriteAccepted?
    ensures P6At(log[..j], log[j]) == [] <==> log[j].event.version == VersionInForce(log[..j]) + 1
  {
    BasisIsItsAttempt(log, commits, j);
    assert AcceptOk(log, commits, j);
  }

  lemma {:induction false} P6IsGapless(c: Setup, file: Option<Content>, leftover: Option<Content>, ops: seq<Op>)
    ensures var log := Run(c, Start(file, leftover), ops).world.svc.log;
            P6Found(log) == [] <==> Gapless(log)
  {
    hide Run, Safe, CommitsOk, AcceptsOk, VersionsIncrease, Numbered, VersionInForce, BasedOn;
    var rs := Run(c, Start(file, leftover), ops);
    var log := rs.world.svc.log;
    RunIsSafe(c, file, leftover, ops);
    SafeParts(c, rs, ReadBack(file));
    CollectIsEmpty(log, P6At);
    forall j | 0 <= j < |log| && log[j].event.WriteAccepted?
      ensures P6At(log[..j], log[j]) == [] <==> log[j].event.version == VersionInForce(log[..j]) + 1
    {
      P6AtAccept(log, rs.commits, j);
    }
  }

  /** The k-th commit reached the file: its own write was accepted. */
  ghost predicate Published(log: Log, commits: seq<Commit>, k: int)
    requires 0 <= k < |commits|
  {
    exists i :: 0 <= i < |log| && log[i].event ==
      WriteAccepted(commits[k].holding.holder, commits[k].holding.ticket, k + 1, commits[k].content)
  }

  /** No accepted write has an earlier commit that never reached the file. */
  ghost predicate NoneOvertaken(log: Log, commits: seq<Commit>) {
    forall j, k | 0 <= j < |log| && log[j].event.WriteAccepted? && 0 <= k < log[j].event.version - 1 ::
      k < |commits| && Published(log, commits, k)
  }

  lemma {:induction false} AcceptedIsPublished(log: Log, commits: seq<Commit>, j: int)
    requires AcceptsOk(log, commits) && 0 <= j < |log| && log[j].event.WriteAccepted?
    ensures 1 <= log[j].event.version <= |commits| && Published(log, commits, log[j].event.version - 1)
  {
    assert AcceptOk(log, commits, j);
  }

  /** The acceptance before j, which carries the version in force there. */
  lemma {:induction false} PreviousAcceptance(log: Log, j: nat) returns (i: nat)
    requires j <= |log| && VersionInForce(log[..j]) > 0
    ensures i < j && log[i].event.WriteAccepted? && log[i].event.version == VersionInForce(log[..j])
    ensures forall k | i < k < j :: !log[k].event.WriteAccepted?
  {
    VersionInForceMeans(log[..j]);
    LastAcceptedMeans(log[..j]);
    i := LastAccepted(log[..j]).value;
    assert forall k | 0 <= k < j :: log[..j][k] == log[k];
  }

  /** Without gaps, every commit before an accepted one is published. */
  lemma {:induction false} GaplessPublishes(log: Log, commits: seq<Commit>, j: nat, k: nat)
    requires Gapless(log) && AcceptsOk(log, commits)
    requires j < |log| && log[j].event.WriteAccepted? && k < log[j].event.version - 1
    ensures k < |commits| && Published(log, commits, k)
    decreases j
  {
    hide VersionInForce, AcceptsOk, Published;
    var i := PreviousAcceptance(log, j);
    AcceptedIsPublished(log, commits, i);
    if k < log[i].event.version - 1 {
      GaplessPublishes(log, commits, i, k);
    }
  }

  /** And if every earlier commit is published there is no gap. */
  lemma {:induction false} PublishedHasNoGap(log: Log, commits: seq<Commit>, j: nat)
    requires NoneOvertaken(log, commits) && VersionsIncrease(log) && AcceptsOk(log, commits)
    requires j < |log| && log[j].event.WriteAccepted?
    ensures log[j].event.version == VersionInForce(log[..j]) + 1
  {
    hide VersionInForce, AcceptsOk;
    AcceptedIsPublished(log, commits, j);
    var n := log[j].event.version;
    if n > 1 {
      assert Published(log, commits, n - 2);
      var i :| 0 <= i < |log| && log[i].event ==
        WriteAccepted(commits[n - 2].holding.holder, commits[n - 2].holding.ticket, n - 1, commits[n - 2].content);
      LastBefore(log, i, j);
    } else {
      FirstVersion(log, commits, j);
    }
  }

  lemma {:induction false} LastBefore(log: Log, i: int, j: nat)
    requires VersionsIncrease(log) && 0 <= i < |log| && j < |log|
    requires log[i].event.WriteAccepted? && log[j].event.WriteAccepted?
    requires log[i].event.version + 1 == log[j].event.version
    ensures VersionInForce(log[..j]) == log[i].event.version
  {
    VersionInForceMeans(log[..j]);
    LastAcceptedMeans(log[..j]);
    assert i < j && log[..j][i] == log[i];
    var m := LastAccepted(log[..j]).value;
    assert log[..j][m] == log[m];
  }

  lemma {:induction false} FirstVersion(log: Log, commits: seq<Commit>, j: nat)
    requires VersionsIncrease(log) && AcceptsOk(log, commits) && j < |log|
    requires log[j].event.WriteAccepted? && log[j].event.version <= 1
    ensures VersionInForce(log[..j]) == 0
  {
    VersionInForceMeans(log[..j]);
  }

  /** P6 fails exactly when some write was accepted over a commit that never reached the file: for
      each accepted version, every commit before it must have been accepted too. */
  lemma {:induction false} P6Exactly(c: Setup, file: Option<Content>, leftover: Option<Content>, ops: seq<Op>)
    ensures var rs := Run(c, Start(file, leftover), ops);
            P6Found(rs.world.svc.log) == [] <==> NoneOvertaken(rs.world.svc.log, rs.commits)
  {
    hide Run, Safe, CommitsOk, AcceptsOk, VersionsIncrease, Numbered, VersionInForce, P6Found, Published;
    var rs := Run(c, Start(file, leftover), ops);
    var log := rs.world.svc.log;
    P6IsGapless(c, file, leftover, ops);
    RunIsSafe(c, file, leftover, ops);
    SafeParts(c, rs, ReadBack(file));
    if Gapless(log) {
      forall j, k | 0 <= j < |log| && log[j].event.WriteAccepted? && 0 <= k < log[j].event.version - 1
        ensures k < |rs.commits| && Published(log, rs.commits, k)
      {
        GaplessPublishes(log, rs.commits, j, k);
      }
    }
    if NoneOvertaken(log, rs.commits) {
      forall j | 0 <= j < |log| && log[j].event.WriteAccepted?
        ensures log[j].event.version == VersionInForce(log[..j]) + 1
      {
        PublishedHasNoGap(log, rs.commits, j);
      }
    }
  }
}
