/** Whole runs: any finite sequence of operations, in any order, by any agents.

    `Write` is both phases in one step, the way agents use the harness. `Authorize` and `Apply`
    take the phases apart; authorized writes wait in a pool and are consumed by applying them.
    A run with no `Authorize` and no `Apply` is atomic; any other run is split. */
module Runs {
  import opened Types
  import opened Histories
  import opened Stores
  import opened Locks
  import opened Harnesses

  datatype Op =
    | Advance(delta: nat)
    | Read(holder: HolderId)
    | Progress(holder: HolderId)
    | Write(holder: HolderId, readAt: nat, content: Content)
    | Authorize(holder: HolderId, readAt: nat, content: Content)
    | Apply(which: nat)
    | Abandon(holder: HolderId)
    | ForceRelease
    | ForceExpire
    | Probe
    | NoteFinished(holder: HolderId)
    | NoteWedged(holder: HolderId)

  predicate Atomic(ops: seq<Op>) {
    forall i | 0 <= i < |ops| :: !ops[i].Authorize? && !ops[i].Apply?
  }

  /** What was true when the service said yes: `held` is its swept list of holds at that instant,
      `attemptedAt` the position of the attempt in the log. The k-th record raised the version
      from k to k + 1. */
  datatype Commit = Commit(
    holding: Holding,
    content: Content,
    expected: nat,
    attemptedAt: nat,
    held: seq<HeldBy>)

  datatype RunState = RunState(world: World, pool: seq<Authorized>, commits: seq<Commit>)

  function Start(file: Option<Content>, leftover: Option<Content>): RunState {
    RunState(World(FRESH_SERVICE, Store(file, leftover), map[]), [], [])
  }

  function Remove<T>(s: seq<T>, k: nat): seq<T>
    requires k < |s|
  {
    s[..k] + s[k + 1..]
  }

  /** The record of a commit, read off the state in which the hold has just been taken. */
  function RecordOf(w: World, holding: Holding, readAt: nat, content: Content): Commit {
    Commit(holding, content, readAt, |w.svc.log|, Alive(w.svc.held, w.svc.now))
  }

  function AuthorizeStep(c: Setup, rs: RunState, holder: HolderId, readAt: nat, content: Content): RunState {
    match HoldForWrite(c, rs.world, holder)
    case (w, Err(_)) => rs.(world := w)
    case (w, Ok(holding)) =>
      match Submitted(c, w, holder, holding, readAt, content)
      case (w', Err(_)) => rs.(world := w')
      case (w', Ok(a)) =>
        RunState(w', rs.pool + [a], rs.commits + [RecordOf(w, holding, readAt, content)])
  }

  function ApplyStep(c: Setup, rs: RunState, k: nat): RunState {
    if k < |rs.pool| then
      rs.(world := Applied(c, rs.world, rs.pool[k]).0, pool := Remove(rs.pool, k))
    else
      rs
  }

  function WriteStep(c: Setup, rs: RunState, holder: HolderId, readAt: nat, content: Content): RunState {
    var authorized := AuthorizeStep(c, rs, holder, readAt, content);
    ApplyStep(c, authorized, |rs.pool|)
  }

  function Step(c: Setup, rs: RunState, op: Op): RunState {
    var w := rs.world;
    match op
    case Advance(delta) => rs.(world := w.(svc := w.svc.(now := w.svc.now + delta)))
    case Read(holder) => rs.(world := ReadDone(c, w, holder).0)
    case Progress(holder) => rs.(world := Progressed(c, w, holder).0)
    case Write(holder, readAt, content) => WriteStep(c, rs, holder, readAt, content)
    case Authorize(holder, readAt, content) => AuthorizeStep(c, rs, holder, readAt, content)
    case Apply(k) => ApplyStep(c, rs, k)
    case Abandon(holder) => rs.(world := Abandoned(c, w, holder))
    case ForceRelease => rs.(world := w.(svc := ForceReleased(w.svc).0))
    case ForceExpire => rs.(world := w.(svc := ForceExpired(w.svc)))
    case Probe => rs.(world := w.(svc := Swept(w.svc)))
    case NoteFinished(holder) => rs.(world := Logged(w, AgentFinished(holder)))
    case NoteWedged(holder) => rs.(world := Logged(w, AgentWedged(holder)))
  }

  function Run(c: Setup, rs: RunState, ops: seq<Op>): RunState {
    if ops == [] then rs
    else Step(c, Run(c, rs, ops[..|ops| - 1]), ops[|ops| - 1])
  }

  lemma {:induction false} RunConcat(c: Setup, rs: RunState, first: seq<Op>, second: seq<Op>)
    ensures Run(c, rs, first + second) == Run(c, Run(c, rs, first), second)
  {
    if second == [] {
      assert first + second == first;
    } else {
      var shorter := second[..|second| - 1];
      assert (first + second)[..|first + second| - 1] == first + shorter;
      RunConcat(c, rs, first, shorter);
    }
  }

  /** One `Write` step leaves the world exactly as the harness's own `write` does. */
  lemma {:induction false} WriteStepIsWritten(c: Setup, rs: RunState, holder: HolderId, readAt: nat, content: Content)
    ensures var after := WriteStep(c, rs, holder, readAt, content);
            && after.world == Written(c, rs.world, holder, readAt, content).0
            && after.pool == rs.pool
  {
    var authorized := AuthorizeStep(c, rs, holder, readAt, content);
    if |authorized.pool| > |rs.pool| {
      assert Remove(authorized.pool, |rs.pool|) == rs.pool;
    }
  }

  /** A harness on a scratch file, driven one operation at a time. */
  class Rig {
    const harness: Harness
    var pool: seq<Authorized>

    ghost predicate Wired()
      reads this
    {
      harness.Wired()
    }

    function Footprint(): set<object>
    {
      {harness, harness.lock, harness.history, harness.clock, harness.store}
    }

    /** The objects are in the state `rs` describes. */
    ghost predicate Shows(rs: RunState)
      reads this, harness, harness.lock, harness.lock.history, harness.lock.clock, harness.store
    {
      harness.State() == rs.world && pool == rs.pool
    }

    constructor (setup: Setup, file: Option<Content>, leftover: Option<Content>)
      ensures Wired() && harness.setup == setup
      ensures Shows(Start(file, leftover))
      ensures fresh(Footprint())
    {
      var history := new History();
      var clock := new Clock();
      var lock := new FakeLockService(setup, history, clock);
      var store := new FileStore(setup, file, leftover);
      harness := new Harness(setup, lock, store);
      pool := [];
    }

    method Do(op: Op, ghost rs: RunState)
      requires Wired() && Shows(rs)
      modifies this, Footprint()
      ensures Shows(Step(harness.setup, rs, op))
    {
      hide ReadDone, Progressed, Written, WriteStep, Applied, HoldForWrite, Submitted, Abandoned;
      hide ForceReleased, ForceExpired, Swept;
      match op {
        case Advance(delta) =>
          harness.clock.Advance(delta);
        case Read(holder) =>
          var _ := harness.Read(holder);
        case Progress(holder) =>
          var _ := harness.Progress(holder);
        case Write(holder, readAt, content) =>
          WriteStepIsWritten(harness.setup, rs, holder, readAt, content);
          var _ := harness.Write(holder, readAt, content);
        case Authorize(holder, readAt, content) =>
          var authorized := harness.Authorize(holder, readAt, content);
          match authorized {
            case Ok(a) => pool := pool + [a];
            case Err(_) =>
          }
        case Apply(k) =>
          if k < |pool| {
            var a := pool[k];
            pool := pool[..k] + pool[k + 1..];
            var _ := harness.Apply(a);
          }
        case Abandon(holder) =>
          harness.Abandon(holder);
        case ForceRelease =>
          var _ := harness.ForceRelease();
        case ForceExpire =>
          harness.lock.ForceExpire();
        case Probe =>
          var _ := harness.lock.CurrentVersion();
        case NoteFinished(holder) =>
          harness.history.Record(harness.clock.now, AgentFinished(holder));
        case NoteWedged(holder) =>
          harness.history.Record(harness.clock.now, AgentWedged(holder));
      }
    }

    /** Driving the objects through any operations lands where `Run` says. */
    method Drive(ops: seq<Op>, ghost rs: RunState)
      requires Wired() && Shows(rs)
      modifies this, Footprint()
      ensures Shows(Run(harness.setup, rs, ops))
    {
      var i := 0;
      while i < |ops|
        invariant 0 <= i <= |ops|
        invariant Shows(Run(harness.setup, rs, ops[..i]))
      {
        assert ops[..i + 1][..i] == ops[..i];
        Do(ops[i], Run(harness.setup, rs, ops[..i]));
        i := i + 1;
      }
      assert ops[..i] == ops;
    }
  }
}
