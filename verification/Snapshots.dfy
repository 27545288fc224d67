/** What a snapshot promises, on every run: which version's content it carries, and exactly when that
    is the content an accepted write replaces. */
module Snapshots {
  import opened Types
  import opened Histories
  import opened Stores
  import opened Harnesses
  import opened Runs
  import opened Growth
  import opened Checkers
  import opened CheckerMeaning
  import opened Commits
  import opened SplitRuns
  import opened AtomicRuns

  /** The content the n-th commit wrote; version 0 is what the file started with. */
  function VersionContent(commits: seq<Commit>, n: nat, initial: Content): Content
    requires n <= |commits|
  {
    if n == 0 then initial else commits[n - 1].content
  }

  /** Some write was accepted as this version. */
  ghost predicate Accepted(log: Log, version: nat) {
    exists i :: 0 <= i < |log| && log[i].event.WriteAccepted? && log[i].event.version == version
  }

  /** The file carries the content of the last accepted version. */
  lemma {:induction false} FileIsVersion(c: Setup, rs: RunState, initial: Content)
    requires Safe(c, rs, initial)
    ensures var n := VersionInForce(rs.world.svc.log);
            && n <= |rs.commits|
            && ReadBack(rs.world.store.target) == VersionContent(rs.commits, n, initial)
            && (n > 0 ==> Accepted(rs.world.svc.log, n))
  {
    var log := rs.world.svc.log;
    SafeParts(c, rs, initial);
    VersionInForceMeans(log);
    hide Safe, CommitsOk, VersionsIncrease, Numbered;
    match LastAccepted(log)
    case None =>
    case Some(j) =>
      assert AcceptOk(log, rs.commits, j);
  }

  /** An accepted version is at most the one in force. */
  lemma {:induction false} AcceptedIsAtMost(log: Log, version: nat)
    requires VersionsIncrease(log) && Accepted(log, version)
    ensures version <= VersionInForce(log)
  {
    VersionInForceMeans(log);
    LastAcceptedMeans(log);
    var i :| 0 <= i < |log| && log[i].event.WriteAccepted? && log[i].event.version == version;
    var j := LastAccepted(log).value;
    assert i <= j;
  }

  /** One state comes after another. */
  ghost predicate After(rs: RunState, rs': RunState) {
    rs.world.svc.log <= rs'.world.svc.log && rs.commits <= rs'.commits
  }

  lemma {:induction false} RunAfter(c: Setup, rs: RunState, ops: seq<Op>)
    ensures After(rs, Run(c, rs, ops))
  {
    hide Run;
    RunCommits(c, rs, ops);
    RunGrows(c, rs, ops);
  }

  /** What is accepted later is at least the version the service had reached. */
  lemma {:induction false} LaterAcceptance(c: Setup, rs: RunState, rs': RunState, initial: Content, i: int)
    requires Safe(c, rs, initial) && Safe(c, rs', initial) && After(rs, rs')
    requires |rs.world.svc.log| <= i < |rs'.world.svc.log| && rs'.world.svc.log[i].event.WriteAccepted?
    ensures |rs.commits| <= rs'.world.svc.log[i].event.version
  {
    SafeParts(c, rs', initial);
    hide Safe, VersionsIncrease, Numbered, CommitsOk;
    assert |rs.commits| > 0 ==> rs'.commits[|rs.commits| - 1].attemptedAt < |rs.world.svc.log|;
    assert AcceptOk(rs'.world.svc.log, rs'.commits, i);
  }

  /** While no version beyond the one read has been accepted, the file carries what it did at the
      read, or the content of the version read, once that is accepted. */
  lemma {:induction false} FileSince(c: Setup, rs: RunState, rs': RunState, initial: Content)
    requires Safe(c, rs, initial) && Safe(c, rs', initial) && After(rs, rs')
    requires VersionInForce(rs'.world.svc.log) <= |rs.commits|
    ensures var v := |rs.commits|;
            var n, n' := VersionInForce(rs.world.svc.log), VersionInForce(rs'.world.svc.log);
            && n <= v <= |rs'.commits|
            && (n' == n <==> n == v || !Accepted(rs'.world.svc.log, v))
            && (n' != n ==> n' == v)
            && ReadBack(rs.world.store.target) == VersionContent(rs'.commits, n, initial)
            && ReadBack(rs'.world.store.target) == VersionContent(rs'.commits, n', initial)
  {
    var log, log' := rs.world.svc.log, rs'.world.svc.log;
    FileIsVersion(c, rs, initial);
    FileIsVersion(c, rs', initial);
    InForceSince(c, rs, rs', initial);
    SafeParts(c, rs', initial);
    hide Safe, VersionsIncrease, Numbered, CommitsOk, AcceptsOk, Accepted;
    if Accepted(log', |rs.commits|) {
      AcceptedIsAtMost(log', |rs.commits|);
    }
  }

  /** The version in force is the earlier one, or one accepted since. */
  lemma {:induction false} InForceSince(c: Setup, rs: RunState, rs': RunState, initial: Content)
    requires Safe(c, rs, initial) && Safe(c, rs', initial) && After(rs, rs')
    ensures var n, n' := VersionInForce(rs.world.svc.log), VersionInForce(rs'.world.svc.log);
            n' == n || |rs.commits| <= n'
  {
    var log, log' := rs.world.svc.log, rs'.world.svc.log;
    VersionInForceMeans(log);
    VersionInForceMeans(log');
    LastAcceptedMeans(log);
    LastAcceptedMeans(log');
    hide Safe;
    match LastAccepted(log')
    case None =>
    case Some(j) =>
      if |log| <= j {
        LaterAcceptance(c, rs, rs', initial, j);
      } else {
        assert log'[j] == log[j];
      }
  }

  // ---------- The two ways to write on a snapshot

  /** The state right after the read, and what the read returned. */
  lemma {:induction false} AtTheRead(
    c: Setup, file: Option<Content>, leftover: Option<Content>, past: seq<Op>, reader: HolderId)
    requires ReadDone(c, Run(c, Start(file, leftover), past).world, reader).1.Ok?
    ensures var snapshot := ReadDone(c, Run(c, Start(file, leftover), past).world, reader).1.value;
            var rs := Run(c, Start(file, leftover), past + [Op.Read(reader)]);
            && Safe(c, rs, ReadBack(file))
            && snapshot == Snapshot(ReadBack(rs.world.store.target), |rs.commits|)
  {
    var before := Run(c, Start(file, leftover), past);
    var reading := past + [Op.Read(reader)];
    assert reading[..|past|] == past;
    assert Run(c, Start(file, leftover), reading) == Step(c, before, Op.Read(reader));
    hide Run, Safe, ReadDone;
    RunIsSafe(c, file, leftover, reading);
    RunCounts(c, file, leftover, reading);
  }

  /** Which version the snapshot carries and which one the file carries now, given that nothing
      beyond the version read has been accepted. */
  ghost predicate Agrees(
    snapshot: Snapshot, before: Log, rs: RunState, initial: Content)
  {
    var n, n', v := VersionInForce(before), VersionInForce(rs.world.svc.log), snapshot.version;
    && n <= v <= |rs.commits| && n' <= v
    && snapshot.content == VersionContent(rs.commits, n, initial)
    && ReadBack(rs.world.store.target) == VersionContent(rs.commits, n', initial)
    && (n' == n <==> n == v || !Accepted(rs.world.svc.log, v))
    && (n' != n ==> n' == v)
  }

  lemma {:induction false} AgreesSince(
    c: Setup, file: Option<Content>, leftover: Option<Content>, past: seq<Op>, reader: HolderId, between: seq<Op>)
    requires ReadDone(c, Run(c, Start(file, leftover), past).world, reader).1.Ok?
    requires var snapshot := ReadDone(c, Run(c, Start(file, leftover), past).world, reader).1.value;
             VersionInForce(Run(c, Start(file, leftover), past + [Op.Read(reader)] + between).world.svc.log)
             <= snapshot.version
    ensures var snapshot := ReadDone(c, Run(c, Start(file, leftover), past).world, reader).1.value;
            var read := Run(c, Start(file, leftover), past + [Op.Read(reader)]);
            var rs := Run(c, Start(file, leftover), past + [Op.Read(reader)] + between);
            Agrees(snapshot, read.world.svc.log, rs, ReadBack(file))
  {
    AtTheRead(c, file, leftover, past, reader);
    hide Run, Safe, ReadDone, VersionInForce, Accepted;
    var reading := past + [Op.Read(reader)];
    RunConcat(c, Start(file, leftover), reading, between);
    RunIsSafe(c, file, leftover, reading + between);
    RunAfter(c, Run(c, Start(file, leftover), reading), between);
    FileSince(c, Run(c, Start(file, leftover), reading), Run(c, Start(file, leftover), reading + between),
      ReadBack(file));
  }

  /** A token that can still be accepted is beyond everything accepted. */
  lemma {:induction false} NothingBeyond(c: Setup, rs: RunState, k: nat, initial: Content)
    requires Safe(c, rs, initial) && k < |rs.pool| && rs.pool[k].newVersion == rs.world.svc.version
    ensures VersionInForce(rs.world.svc.log) < rs.pool[k].newVersion
  {
    FileIsVersion(c, rs, initial);
    LatestToken(c, rs, k, initial);
    SafeParts(c, rs, initial);
    assert TokenOk(rs.pool[k], rs.commits);
  }

  /** Split runs, under every fault: a snapshot carries the content of the last version accepted when
      it was read. When a waiting write based on it is accepted, the content replaced is the
      snapshot's own version exactly when the version read had been accepted by then already, or still
      is not; otherwise it is the content of the version read, accepted in between. */
  lemma {:induction false} SplitWriteReplaces(
    c: Setup, file: Option<Content>, leftover: Option<Content>,
    past: seq<Op>, reader: HolderId, between: seq<Op>, k: nat)
    requires ReadDone(c, Run(c, Start(file, leftover), past).world, reader).1.Ok?
    requires var snapshot := ReadDone(c, Run(c, Start(file, leftover), past).world, reader).1.value;
             var rs := Run(c, Start(file, leftover), past + [Op.Read(reader)] + between);
             k < |rs.pool| && rs.pool[k].newVersion == snapshot.version + 1 && Applied(c, rs.world, rs.pool[k]).1.Ok?
    ensures var snapshot := ReadDone(c, Run(c, Start(file, leftover), past).world, reader).1.value;
            var read := Run(c, Start(file, leftover), past + [Op.Read(reader)]);
            var rs := Run(c, Start(file, leftover), past + [Op.Read(reader)] + between);
            && Agrees(snapshot, read.world.svc.log, rs, ReadBack(file))
            && (VersionInForce(read.world.svc.log) == snapshot.version ==>
                  ReadBack(rs.world.store.target) == snapshot.content)
            && Applied(c, rs.world, rs.pool[k]).0.store.target == Some(rs.pool[k].content)
  {
    hide Run, Safe, ReadDone, VersionInForce, Accepted, Applied;
    var ops := past + [Op.Read(reader)] + between;
    var rs := Run(c, Start(file, leftover), ops);
    RunIsSafe(c, file, leftover, ops);
    RunCounts(c, file, leftover, ops);
    ApplyPublishesItsOwn(c, file, leftover, ops, k);
    NothingBeyond(c, rs, k, ReadBack(file));
    AgreesSince(c, file, leftover, past, reader, between);
  }

  /** And so for a write in one step, whatever the run before it. */
  lemma {:induction false} WriteReplaces(
    c: Setup, file: Option<Content>, leftover: Option<Content>,
    past: seq<Op>, reader: HolderId, between: seq<Op>, writer: HolderId, content: Content)
    requires ReadDone(c, Run(c, Start(file, leftover), past).world, reader).1.Ok?
    requires var snapshot := ReadDone(c, Run(c, Start(file, leftover), past).world, reader).1.value;
             var w := Run(c, Start(file, leftover), past + [Op.Read(reader)] + between).world;
             Written(c, w, writer, snapshot.version, content).1.Ok?
    ensures var snapshot := ReadDone(c, Run(c, Start(file, leftover), past).world, reader).1.value;
            var read := Run(c, Start(file, leftover), past + [Op.Read(reader)]);
            var rs := Run(c, Start(file, leftover), past + [Op.Read(reader)] + between);
            && Agrees(snapshot, read.world.svc.log, rs, ReadBack(file))
            && rs.world.svc.version == snapshot.version
  {
    hide Run, Safe, ReadDone, VersionInForce, Accepted, Written, Authorizing;
    var snapshot := ReadDone(c, Run(c, Start(file, leftover), past).world, reader).1.value;
    var ops := past + [Op.Read(reader)] + between;
    var rs := Run(c, Start(file, leftover), ops);
    WriteLandsOnceAuthorized(c, rs.world, writer, snapshot.version, content);
    RunIsSafe(c, file, leftover, ops);
    RunCounts(c, file, leftover, ops);
    FileIsVersion(c, rs, ReadBack(file));
    AgreesSince(c, file, leftover, past, reader, between);
  }

  /** No lost update. If any agent read a snapshot, anything then happened, and a write passing that
      snapshot's version is accepted, then the content it replaces is exactly the snapshot's, and the
      next version holds exactly the written content: provided the version read had been accepted
      when it was read, or no waiting write was applied in between. */
  lemma {:induction false} NoLostUpdate(
    c: Setup, file: Option<Content>, leftover: Option<Content>,
    past: seq<Op>, reader: HolderId, between: seq<Op>, writer: HolderId, content: Content)
    requires ReadDone(c, Run(c, Start(file, leftover), past).world, reader).1.Ok?
    requires var read := Run(c, Start(file, leftover), past + [Op.Read(reader)]);
             AppliesNothing(between) || VersionInForce(read.world.svc.log) == read.world.svc.version
    ensures var snapshot := ReadDone(c, Run(c, Start(file, leftover), past).world, reader).1.value;
            var w := Run(c, Start(file, leftover), past + [Op.Read(reader)] + between).world;
            var (w', r) := Written(c, w, writer, snapshot.version, content);
            r.Ok? ==>
              && ReadBack(w.store.target) == snapshot.content
              && w.svc.version == snapshot.version
              && ReadBack(w'.store.target) == content
              && r.value == w'.svc.version == snapshot.version + 1
  {
    var snapshot := ReadDone(c, Run(c, Start(file, leftover), past).world, reader).1.value;
    var reading := past + [Op.Read(reader)];
    AtTheRead(c, file, leftover, past, reader);
    hide Run, Safe, ReadDone, VersionInForce, Accepted, Written, Authorizing;
    var w := Run(c, Start(file, leftover), reading + between).world;
    RunCounts(c, file, leftover, reading);
    WriteLandsOnceAuthorized(c, w, writer, snapshot.version, content);
    if Written(c, w, writer, snapshot.version, content).1.Ok? {
      if AppliesNothing(between) {
        RunConcat(c, Start(file, leftover), reading, between);
        SameVersionSameContent(c, file, leftover, reading, between);
      } else {
        WriteReplaces(c, file, leftover, past, reader, between, writer, content);
      }
    }
  }
}
