# A verified model of the lock, the harness and the checker

A harness is the only way to one file. Agents read through it and write through it; a lock service
gives out tickets and leases and keeps the file's version number; every step goes into one totally
ordered history; a checker replays that history and says whether eight properties held. The program
tries this out on random seeds. Here the same claims are proved for every run: any number of agents,
any order of operations, any clock, any of the injected faults, any crash point, unless a statement
names what it excludes.

`dafny verify dfyconfig.toml` checks the project.

## How it is built

The objects the source updates in place are classes (`Clock`, `History`, `FileStore`,
`FakeLockService`, `Harness`, `Report`), and each of their methods is proved against a function on the
state it changes. The checker's loops are methods proved against functions of the history. The
theorems are about those functions; `Rig.Drive` shows that driving the objects through any operations
lands in the state the functions give.

A run (module `Runs`) starts on a fresh service with any file, existing or not, and any leftover in
the staging slot. An operation is one call, and the clock stands still inside it. `Write` does both
phases in one step, which is how agents use the harness. `Authorize` and `Apply` take the phases
apart: authorized writes wait in a pool, anything may happen in between, and applying one uses it up.
A run without those two is called atomic. A run also records each commit at the moment the service
says yes; that record is not part of the program and exists to be reasoned about.

| file | contents |
|---|---|
| `Types`, `History`, `Store`, `Lock`, `Harness` | the data, the objects, and the functions they follow |
| `Runs` | operations, runs, and the rig that drives real objects through them |
| `Checker` | the checker's loops, and the functions of the history they compute |
| `CheckerMeaning`, `Reports` | what each verdict means on any history, and where violations are reported, as statements about positions in it |
| `HoldLists`, `LockMeaning`, `HarnessMeaning` | facts about lists of holds; what each operation of the service and of the harness means: every answer, change and entry, said about live holds, open entries, the clock and the slot |
| `Calls`, `Growth` | one induction principle: what every service call keeps, every run keeps; what only grows |
| `Effects`, `Attempts` | what single operations log and leave alone; every attempt goes back to a grant |
| `Commits`, `SplitRuns` | all runs, all faults: the staging slot, the commit point, P1, P3, P4, P6 |
| `FaultyRuns`, `Replays` | all runs, all faults: barriers grow, a broken ticket source is caught, and when the history replays to the lock |
| `Fencing`, `TicketRuns` | monotonic tickets: one counter, fencing, barriers |
| `TicketVerdicts`, `Decisions` | all faults: exactly when P2 and P8 pass; P2 where a write is authorized |
| `AtomicRuns` | one-step writes: versions never skip, and the file moves with them |
| `Snapshots` | what a snapshot promises, in every run, and no lost update |
| `Holds`, `HoldTimes`, `OtherHolds` | how many holds, how long, and whose |
| `Spans` | what the write-only and the full span each buy; which writes are approved, and what each leaves held |
| `Freshness`, `Refusals` | P6 and P4 in terms a caller could check before each call; what a refusal does to whoever is waiting |
| `SpanLimits`, `HoldLimits`, `ReplayLimits` | exactly which setups break the full span's promise, the bound on holds, the holders' independence, and the history's agreement with the lock |
| `Endings`, `Soak` | who a history is about; leaks; the verdict of the whole checker on every settled atomic run |
| `Scenarios`, `Counterexamples` | single runs in which a plausible claim fails |

## Where the code decides

- `doc/test-design.md:100` puts P2 at the instant a write lands, `doc/lock-interface.md:114-118` and
  the comment at `src/checker.rs:18-19` at its authorization. The checker's loop judges at
  `WriteAccepted`, and the model follows the loop. At authorization the property holds in every run
  unless two holds on one ticket can lapse apart (`Decisions.ValidWhenAuthorized`,
  `ReplayLimits.YesCanBeOutOfForceExactly`); at acceptance it holds exactly under the condition of
  `TicketVerdicts.P2Exactly`.
- `doc/test-design.md:106` describes P8 as a bound on how long a revocation takes. The code compares an
  accepted ticket with the latest barrier (`src/checker.rs:362-385`), and so does the model.
- P6 is described as freshness against the version in force (`src/checker.rs:27-28`). The loop counts
  accepted versions only, so a commit that was never published makes it fail
  (`SplitRuns.P6Exactly`, `Freshness.P6InOrder`, `Counterexamples.OvertakenInTheGap`).
- The harness says of the full span that nothing can change underneath and the version check is
  redundant (`src/harness.rs:125-126`). `SpanLimits.VersionCheckNeededExactly` says where that is so.
- P4's second clause reports a refused write that proposed the content the file already had
  (`src/checker.rs:261-271`); `SplitRuns.P4Exactly` and `Refusals.P4InOperations` say exactly when.
- Three ways out skip the release: both injected I/O errors (`src/harness.rs:224-227`, `287-289`) and,
  under the full span, a refusal (`src/harness.rs:247`). `Spans.HoldSurvivesExactly` says which holds
  are then still live, and `Spans.WriteOnlyIsIdleExactly` on which setups none ever is between
  operations. Only the lease bounds such a hold.
- `finish` closes the holder's open entry whatever its ticket (`src/harness.rs:306`), so a live hold
  may have no open entry (`Counterexamples.NewerEntryIsClosed`). No theorem relies on it.

## Model

| member | source | states |
|---|---|---|
| Stores.FileStore.Read | src/store.rs:67-73 | a missing file reads as empty content |
| Stores.FileStore.Prepare | src/store.rs:76-83 | staging overwrites the one shared slot and leaves the target alone, even when it then reports a failure |
| Stores.FileStore.Discard | src/harness.rs:237-237 | discarding empties the slot, whoever staged into it |
| Stores.FileStore.Publish | src/store.rs:86-91 | publishing moves the slot over the target, or fails and changes nothing, also when nothing is staged |
| Histories.History.Record | src/history.rs:76-80 | the log grows by one entry whose number is its index |
| Locks.FakeLockService.Sweep | src/lock/fake.rs:116-133 | exactly the lapsed holds go, in order, and each is logged as expired |
| Locks.FakeLockService.RecordExpiries | src/lock/fake.rs:129-132 | one expiry per dropped hold, in order |
| Locks.FakeLockService.Issue | src/lock/fake.rs:137-150 | the counter's next ticket, or the previous one again under the fault |
| Locks.FakeLockService.Acquire | src/lock/fake.rs:187-211 | the new hold, its ticket, its deadline and the log; contention unless double grants are on |
| Locks.FakeLockService.Release | src/lock/fake.rs:213-233 | the ticket's holds go and a give-back is logged, even if nothing was held; under the fault only the sweep happens |
| Locks.FakeLockService.Find | src/lock/fake.rs:251-255 | the first hold on the ticket |
| Locks.FakeLockService.Keepalive | src/lock/fake.rs:241-258 | one deadline moves to a lease from now, or the hold has expired; swallowed under the fault |
| Locks.FakeLockService.ForceRelease | src/lock/fake.rs:260-280 | every hold goes, the counter is raised past all tickets, and the barrier is logged |
| Locks.FakeLockService.ForceExpire | src/lock/fake.rs:160-177 | every hold goes and is logged as expired, without a sweep |
| Locks.FakeLockService.CurrentVersion | src/lock/fake.rs:292-296 | asking for the version sweeps and changes nothing else |
| Locks.FakeLockService.Commit | src/lock/fake.rs:298-328 | the version rises by one exactly when the ticket is held and in force and the version matches; otherwise which refusal |
| HoldLists.InForceIsMax | src/lock/fake.rs:154-156 | the ticket in force is the greatest one held, and there is none exactly when nothing is held |
| LockMeaning.SweptMeans | src/lock/fake.rs:116-133 | the holds left are exactly the live ones, in order; each of the others has one expiry in the log, in order, and nothing else changed |
| LockMeaning.AcquiredMeans | src/lock/fake.rs:187-211 | a take succeeds exactly when nothing is live or double grants are on, and adds one hold, last, on the ticket just issued; the request is logged either way, the issue and the grant if it succeeds |
| LockMeaning.ReleasedMeans | src/lock/fake.rs:213-233 | exactly the live holds on other tickets remain, or all live ones if the release was dropped; the give-back is logged unless it was, held or not |
| LockMeaning.RenewedMeans | src/lock/fake.rs:241-258 | expired exactly when nothing live is on the ticket and nothing is swallowed; refused or swallowed it moves no deadline, otherwise that of the first live hold on the ticket |
| LockMeaning.CommittedMeans | src/lock/fake.rs:298-328 | succeeds exactly when its ticket is live, no live ticket is higher and the version matches; only then does the version rise; otherwise which of these failed, ticket first, with the highest live ticket or the current version |
| LockMeaning.ForceReleasedMeans | src/lock/fake.rs:260-280 | nothing is held, and the barrier, which is logged, is one above the next ticket |
| LockMeaning.ForceExpiredMeans | src/lock/fake.rs:160-177 | every hold goes, live or not, each with its expiry, in order |
| HarnessMeaning.ReadMeans | src/harness.rs:127-150 | contended exactly under the full span when something is live and double grants are off; otherwise the file and the version, with the read as the last entry and, under the full span, a new open hold |
| HarnessMeaning.ProgressMeans | src/harness.rs:164-183 | without an open hold fine and without effect; refused and logged at or past the ceiling; before it expired exactly when nothing live is on the ticket and nothing is swallowed, and otherwise the first live hold on it has one lease from now |
| HarnessMeaning.HoldForWriteMeans | src/harness.rs:197-212 | full span: expired exactly without an open entry, refused exactly at or past its ceiling, and nothing changes; write-only: a take |
| HarnessMeaning.SubmittedMeans | src/harness.rs:214-252 | authorized exactly if staging works and the service says yes; what is then staged, and after each way to fail the answer, the slot, the holds and the entries |
| HarnessMeaning.AppliedMeans | src/harness.rs:266-303 | overtaken: the slot is emptied whoever staged into it, the entry closed and the hold given back; else published, if renames work and something is staged; else nothing but a sweep |
| HarnessMeaning.WrittenMeans | src/harness.rs:311-319 | the same for both phases in one step, under both spans |
| HarnessMeaning.AbandonedMeans | src/harness.rs:324-329 | exactly the agent's own entry is closed, and exactly the live holds on other tickets remain unless the release is dropped |
| HarnessMeaning.FullSpanAnswers | src/harness.rs:197-253 | full span, in any state under every fault: expired without an entry, refused at the ceiling, both without effect; then staging, ticket, version and rename decide in that order |
| HarnessMeaning.AbandonedThenWritten | src/harness.rs:199-200 | so in every run, right after abandoning, the same agent's write is told its lock has expired, and changes nothing |
| Harnesses.Harness.Read | src/harness.rs:127-150 | the snapshot, the hold opened under the full span, and the log |
| Harnesses.Harness.Progress | src/harness.rs:164-183 | renewal of the open hold, none at or past the ceiling, nothing without an open hold |
| Harnesses.Harness.TakeHoldForWrite | src/harness.rs:197-212 | the open hold under the full span, a fresh one under the write-only span, and the three ways to fail |
| Harnesses.Harness.Submit | src/harness.rs:214-252 | attempt, staging and commit, and what is undone on refusal under each span |
| Harnesses.Harness.Authorize | src/harness.rs:191-253 | phase one as a whole |
| Harnesses.Harness.Finish | src/harness.rs:305-308 | the holder's entry closes and the holding is released |
| Harnesses.Harness.Apply | src/harness.rs:266-303 | phase two: published and accepted, or superseded and discarded, or failed with everything kept |
| Harnesses.Harness.Write | src/harness.rs:311-319 | both phases on the same objects |
| Harnesses.Harness.Abandon | src/harness.rs:324-329 | the open hold is closed and released, if there is one |
| Harnesses.Harness.ForceRelease | src/harness.rs:335-337 | revocation without acquiring anything or telling the holder |
| Runs.WriteStepIsWritten | src/harness.rs:311-319 | authorizing and applying in one step is the harness's own write |
| Runs.Rig.Do | tests/soak.rs:86-125 | one operation on the objects is one step of the run |
| Runs.Rig.Drive | tests/soak.rs:86-125 | driving the objects through any operations lands where the run does |
| Growth.RunGrows | src/lock/fake.rs:66-73 | clock, ticket counter, version and log only grow, and the entries that the run's operations log follow the clock, under every fault |
| ServiceCalls.RunReaches | src/harness.rs:80-89 | whatever a run does, it moves the service only through the service's own calls and neutral log entries |
| Checkers.P1 | src/checker.rs:107-140 | the loop adds exactly the overlaps of the windows it rebuilds |
| Checkers.P2 | src/checker.rs:151-207 | the loop adds exactly the entries that break ticket order, barriers or validity |
| Checkers.LargestKey | src/checker.rs:155-155 | walking the map in any order finds its greatest ticket |
| Checkers.FindLastAccepted | src/checker.rs:209-214 | the search from the end finds the last accepted write |
| Checkers.P3 | src/checker.rs:218-241 | the file against the last accepted content |
| Checkers.P4 | src/checker.rs:245-272 | both clauses, in order |
| Checkers.P5 | src/checker.rs:275-301 | one report per unmatched grant, in some order |
| Checkers.P6 | src/checker.rs:305-330 | the loop adds exactly the acceptances not based on the last accepted version |
| Checkers.P7 | src/checker.rs:334-358 | one report per agent seen that neither finished nor is wedged, in some order |
| Checkers.P8 | src/checker.rs:362-385 | the loop adds exactly the acceptances below the remembered barrier |
| Checkers.CheckOne | src/checker.rs:86-97 | a check reports its own property if that fails, and no other |
| Checkers.Check | src/checker.rs:78-99 | the report holds exactly the violations of the requested properties; each is reported exactly when it fails, and the report passes exactly when all pass |
| CheckerMeaning.P1Means | src/checker.rs:107-140 | on any numbered history P1 passes exactly when no two accepted windows of different holders meet |
| CheckerMeaning.ReplayMeans | src/checker.rs:154-190 | a ticket is in the replayed map exactly when some grant of it has not been ended since |
| CheckerMeaning.P2Means | src/checker.rs:151-207 | P2 passes exactly when issued tickets increase over all pairs, barriers exceed every ticket they take away, and each accepted ticket is held and highest |
| CheckerMeaning.P4Means | src/checker.rs:245-272 | P4 passes exactly when the final content was accepted, or is the initial one and was never refused |
| CheckerMeaning.P5Means | src/checker.rs:275-301 | P5 passes exactly when every grant has a later give-back, expiry or revocation |
| CheckerMeaning.UnmatchedIsReplay | src/checker.rs:277-289 | P5 and P2 keep the same tickets |
| CheckerMeaning.P6Means | src/checker.rs:305-330 | P6 passes exactly when each accepted write's latest attempt expected the version of the acceptance before it |
| CheckerMeaning.P7Means | src/checker.rs:334-358 | P7 passes exactly when everyone the history is about finished or is wedged |
| CheckerMeaning.P8Means | src/checker.rs:362-385 | P8 passes exactly when each accepted ticket clears the barrier of the latest revocation |
| CheckerMeaning.OneBarrierSuffices | src/checker.rs:363-369 | where barriers increase, one remembered barrier gives the verdict of all of them |
| Reports.ReportedExactly | src/checker.rs:107-385 | each property is reported at exactly the positions where it is violated: the later of two overlapping windows, the entry that breaks order, the unended grant, the first entry about an agent that never ended |
| Reports.ReportedOnce | src/checker.rs:107-385 | and nothing twice: one report for each overlapping pair, and one for each position, in order |
| FaultyRuns.OneBarrierIsEnough | src/lock/fake.rs:268-278 | they do increase, on every run under every fault; so P8 decides on all of them |
| FaultyRuns.BrokenTicketsAreCaught | tests/conformance.rs:431-450 | with the broken ticket source, every run that issues two tickets fails P2 |
| Commits.StepIsSafe | src/harness.rs:214-303 | every operation keeps the ledger of commits, waiting writes, acceptances, staged content and file |
| Commits.RunIsSafe | src/harness.rs:214-303 | so every run has it, under every fault and crash point |
| Commits.SubmittedAuthorized | src/harness.rs:214-235 | an authorized write was on the ticket in force and the current version; its attempt is logged, its content staged, and the target untouched |
| Commits.SubmittedRefused | src/harness.rs:224-252 | one that is not leaves version and target alone, and the slot empty unless staging itself failed |
| Commits.LandsMeans | src/harness.rs:267-289 | a waiting write is accepted exactly when it is the latest commit, something is staged and renames work |
| SplitRuns.FileIsLastAccepted | src/checker.rs:216-241 | the file always holds the last accepted content or the initial one; P3 never fails |
| SplitRuns.ApplyPublishesItsOwn | src/harness.rs:262-302 | although all waiting writes share one slot, applying one publishes its own content exactly when it is the latest commit, something is staged and renames work; otherwise the file is untouched |
| Refusals.StagedUntilRefused | src/harness.rs:236-237 | from any point of any run on, while nothing is committed and nothing lands, the slot keeps its content exactly until somebody is refused |
| Refusals.WaitingLandsUnlessSomeoneIsRefused | src/harness.rs:266-289 | so a waiting write that is still the latest commit can be published exactly if renames work and nobody at all was refused since it was authorized |
| SplitRuns.AuthorizationIsTheCommitPoint | src/lock/fake.rs:307-327 | each accepted write has its own commit, at which its ticket was in force and its version current, with no other commit before the acceptance; accepted versions strictly increase |
| Spans.ApprovedExactly | src/harness.rs:197-252 | what a caller can check before asking decides whether a write is authorized: a hold to use in time, staging that works, and a live highest ticket with the current version, or under the write-only span a lease and the current version |
| Decisions.CommitsAreDecisions | src/lock/fake.rs:307-328 | each commit on record was decided by one operation of the run: in the state that operation met, its hold was taken and the service answered yes |
| Decisions.ValidWhenAuthorized | doc/lock-interface.md:114-118 | P2 at authorization: for each accepted write, the log as it stood when the service decided replays to a state in which its ticket is the greatest held; under every fault, unless two holds on one ticket can lapse apart |
| ReplayLimits.YesCanBeOutOfForceExactly | doc/lock-interface.md:114-118 | and that fails exactly under the full span with broken tickets, double grants, a lease and a ceiling of more than one tick each, and staging that works |
| SplitRuns.AcceptedWritesExclude | src/checker.rs:105-106 | of any two accepted writes the first is accepted before the second is attempted |
| SplitRuns.P1AlwaysPasses | src/checker.rs:107-140 | P1 never fails, double grants and revocations in the gap included |
| SplitRuns.P4Exactly | src/checker.rs:245-272 | P4 fails exactly when nothing was accepted and a refused write proposed the initial content |
| Refusals.P4InOperations | src/checker.rs:245-272 | the same before each call: exactly when no operation lands a write and one is refused that proposes the initial content |
| SplitRuns.P6Exactly | src/checker.rs:305-330 | P6 passes exactly when, for each accepted version, every commit before it was itself accepted with its own content |
| Freshness.P6InOrder | src/checker.rs:305-330 | the same before each call: exactly when every write that landed found all earlier commits in force |
| TicketRuns.RunTickets | src/lock/fake.rs:137-150 | one counter orders every issue, grant and barrier; held tickets are distinct, at least the latest barrier, and what the log replays to |
| Replays.HistoryReplaysToTheLock | src/checker.rs:154-190 | folding the log gives exactly the service's tickets and their holders, under every fault unless two holds can be on one ticket |
| ReplayLimits.ReplayFailsExactly | src/checker.rs:154-190 | and that fails exactly with broken tickets, double grants and leases with length |
| Replays.HistoryTracksTheLock | src/checker.rs:154-190 | the tickets alone agree unless those faults meet leases of more than one tick and two tickets have been issued |
| TicketRuns.BarriersSeparate | src/lock/fake.rs:268-278 | each barrier exceeds every ticket issued before it and is at most every ticket issued after it; both only grow |
| TicketRuns.RunOnward | src/lock/fake.rs:137-150 | a ticket held later was held before or is new |
| TicketRuns.FencingIsPermanent | src/lock/fake.rs:307-320 | an issued ticket no longer held is never held again, and every later commit on it is refused as stale |
| TicketRuns.RevocationIsFinal | src/lock/mod.rs:31-41 | after a revocation no ticket issued before it is ever held again, and no commit on one succeeds |
| TicketVerdicts.P2Exactly | src/harness.rs:272-300 | under every fault, P2 fails exactly when some waiting write that would land is applied while its ticket is not in force, or a broken ticket source has issued twice |
| TicketVerdicts.P8Exactly | src/checker.rs:362-385 | under every fault, P8 fails exactly when a revocation falls between the attempt and the acceptance of an accepted write or, on broken tickets, anywhere before an acceptance |
| AtomicRuns.WriteLandsOnceAuthorized | src/harness.rs:311-319 | a one-step write that is authorized lands unless renames fail; one that is not leaves file and version alone |
| AtomicRuns.AtomicVersionsNeverSkip | src/checker.rs:303-330 | accepted versions are 1, 2, 3 and so on; P6 never fails; short of failing renames every commit is accepted |
| AtomicRuns.SameVersionSameContent | src/harness.rs:139-149 | while the version stands still and no waiting write is applied, so does the file |
| Snapshots.SplitWriteReplaces | src/harness.rs:266-302 | in split runs under every fault, a snapshot carries the last accepted version; when a waiting write based on it lands, it replaces that same version exactly if the version read had been accepted by the read or still is not, and otherwise the version read |
| Snapshots.WriteReplaces | src/harness.rs:229-302 | the same for a write in one step |
| Snapshots.NoLostUpdate | src/harness.rs:229-302 | so an accepted write replaces exactly the content its snapshot carried, if the version read had been accepted by then or no waiting write was applied in between; under every fault and crash point |
| Holds.RunShape | src/lock/fake.rs:195-204 | no lease reaches past one lease from now, and without double grants there is at most one hold |
| Holds.TurnMovesForward | src/lock/fake.rs:154-156 | the ticket in force never goes back, the same ticket is the same holder, and once a ticket has left, what is in force is higher for good |
| HoldTimes.HoldsAreBounded | src/harness.rs:164-183 | unless broken tickets meet double grants, a hold's deadline is at most the ceiling and one lease after its own grant, whatever progress is reported, and any operation from then on finds it gone |
| HoldLimits.RelayOutlives | src/lock/fake.rs:249-256 | where they meet, another agent's progress renews the first hold on the shared ticket past its bound |
| HoldLimits.BoundFailsExactly | src/harness.rs:172-182 | the bound can fail exactly there, under the full span, with a lease above one tick and a ceiling above zero |
| Attempts.NoWriteAtTheCeiling | src/harness.rs:198-205 | under every fault, each attempt is on an earlier grant to the same agent and, under the full span, strictly before that grant's ceiling |
| OtherHolds.OthersAreUntouched | src/harness.rs:127-329 | with monotonic tickets nothing another agent does, reading, progressing, writing, authorizing, applying late, finishing or abandoning, ends or moves a live hold |
| HoldLimits.BrokenTicketsGiveHoldsAway | src/lock/fake.rs:220-222 | on broken tickets, abandoning a lost hold gives back somebody else's |
| HoldLimits.LateWritesGiveHoldsAway | src/harness.rs:272-285 | and under the write-only span applying an overtaken write does |
| HoldLimits.HoldsCanBeHarmedExactly | src/harness.rs:197-329 | under both spans that can happen exactly when tickets are broken and leases have length, unless staging fails under the write-only span, where nothing is ever given back |
| Spans.HoldSurvivesExactly | src/harness.rs:214-319 | under both spans and every fault, a write ends every live hold on its ticket and no other, unless its release is dropped, staging or the rename fails, or it is refused under the full span; then all stay |
| Spans.WriteOnlyAcceptsExactly | src/harness.rs:207-250 | write-only: a write succeeds exactly when nothing is made to fail, leases have length, no live hold blocks it and its version is current; and each other answer |
| Spans.WriteOnlyIsIdle | src/harness.rs:305-319 | write-only, where no write can keep its hold: nothing is held or open between operations |
| Spans.WriteKeepsItsHold | src/harness.rs:224-289 | where one can, the first write of all leaves its hold behind |
| Spans.WriteOnlyIsIdleExactly | src/harness.rs:214-319 | nothing is held or open between operations, in every atomic run, exactly under the write-only span where staging works and either leases have no length or renames work and no release is dropped |
| Spans.WriteOnlyNeedsOnlyTheVersion | src/harness.rs:236-250 | so the version alone decides |
| Spans.RunUntouched | src/harness.rs:127-150 | full span: while an open hold is still on its ticket and the ticket is held, the version does not move |
| Spans.FullSpanTicketDecides | src/harness.rs:123-126 | full span: a write on the hold its read opened is never refused for its version; before the ceiling it succeeds exactly when its ticket is still held |
| SpanLimits.TwoGrantsMoveTheVersion | src/lock/fake.rs:195-199 | with two grants at once a full-span write is refused for its version on a hold never lost |
| SpanLimits.FailedRenameMovesTheVersion | src/store.rs:87-89 | so is a retry after a failed rename |
| SpanLimits.BrokenTicketsMoveTheVersion | src/lock/fake.rs:137-145 | and, on broken tickets, a write on a hold that came back with somebody else's |
| SpanLimits.VersionCheckNeededExactly | src/harness.rs:123-126 | some atomic run refuses such a write for its version exactly under the full span, when writes get as far as being compared and double grants, broken tickets or failing renames are on |
| Endings.SpeakersExactly | src/checker.rs:387-403 | a history is about exactly those who read or were noted and, under the write-only span, those who wrote, refused or not |
| Endings.P7Exactly | src/checker.rs:334-358 | so P7 passes exactly when each of them was noted as finished or wedged |
| Soaks.NothingIsHeld | tests/soak.rs:135-143 | one lease after anything was done nothing is held |
| Soaks.NothingLeaks | tests/soak.rs:135-143 | and P5 passes, on every run under every fault |
| Soaks.P5Exactly | src/checker.rs:275-301 | before that, P5 passes exactly when the service holds nothing, under every fault short of the next row's |
| ReplayLimits.P5MisjudgesExactly | src/checker.rs:275-301 | and P5 can pass over a held lock exactly with broken tickets, double grants and leases of more than one tick |
| Refusals.RefusedWasProposed | src/harness.rs:236-246 | nothing is refused that no agent proposed |
| Soaks.AtomicPassesP2 | src/checker.rs:151-207 | with monotonic tickets an atomic run passes P2 |
| Soaks.AtomicPassesP8 | src/checker.rs:362-385 | and P8 |
| Soaks.SettledRunPasses | tests/soak.rs:142-146 | once settled, every atomic run with monotonic tickets passes all eight properties, under the other faults and both crash points; P4's one exception and P7's one demand are exact, and told by the operations |
| Soaks.NothingLooksPhantom | src/checker.rs:261-271 | and cannot arise if nobody proposes the initial content |
| Soaks.Soak | tests/soak.rs:50-149 | the same for the real objects and the real checker: the report is clean exactly then, and always if everyone is noted and nobody proposes the initial content |
| Counterexamples.RevokedInTheGap | src/harness.rs:272-300 | authorize, revoke, apply: accepted, and reported by P2 and P8 |
| Counterexamples.OvertakenInTheGap | src/checker.rs:305-330 | a commit overtaken before it is applied makes P6 report the next one |
| Counterexamples.OvertakenEmptiesTheSlot | src/harness.rs:272-289 | applying an overtaken write deletes what the one that overtook it had staged, whose rename then fails |
| Counterexamples.SnapshotInTheGap | src/harness.rs:139-149 | between the phases a snapshot pairs the new version with the old content |
| Counterexamples.RefusedButUnchanged | src/checker.rs:261-271 | one refused write of the initial content fails P4 |
| Counterexamples.NewerEntryIsClosed | src/harness.rs:305-308 | applying a write that waited while its agent lost the lock and took it again closes the newer open entry, and the hold stays without one |

## Left out

- Issue: tickets and versions are unbounded naturals; the source's 64-bit counters would wrap, or panic, after 2^64 steps.
- P5: the order of several leak reports is the hash map's, so it is left open.
- P7: so is the order of several reports about unfinished agents.
- Violations carry property and position; the detail text and rendering are left out.
- A protected path that itself ends in `.tmp`: its staging slot would be the target (`src/store.rs:77`), and staging alone would change the file. The model keeps the two apart.
- Real file errors, partial writes, durability and renames across file systems. The store is a target, one staging slot and the injected crash points.
- Async scheduling, mutexes and sharing. The program is single-threaded by design and each call here is one step.
- More than one resource, path canonicalization, and changing the faults in the middle of a run. The replay clears every hold on any revocation, so P2 is about one resource.
- The content hash, which nothing reads, and the revoker's name, which is constant.
- The advisory queries (`is_still_held`, `current_ticket`); they sweep, as `Probe` does, and only report.
- Millisecond stamps in entries; an entry carries the clock itself.
- The soak's random generator and the demo. Runs are arbitrary sequences of operations instead. The soak stamps its notes of finished and wedged agents with time 0; here they carry the clock. No property looks at the time of a note.
- etcd and ZooKeeper backends, harness restart, fairness and starvation; the repository does not implement them.
