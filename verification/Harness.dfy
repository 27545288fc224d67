/** The harness: the sole gatekeeper to the resource, over one lock service and one file store.

    As for the lock service, each operation is a function on the whole world's state and a method
    that updates the objects in place and is proved to follow it. */
module Harnesses {
  import opened Types
  import opened Histories
  import opened Stores
  import opened Locks

  /** A lock held across an agent's thinking, under the full span only. */
  datatype Open = Open(holding: Holding, takenAt: nat)

  /** A write the lock service has authorized and nobody has applied yet. */
  datatype Authorized = Authorized(holding: Holding, newVersion: nat, content: Content)

  datatype World = World(svc: Service, store: Store, open: map<HolderId, Open>)

  function Logged(w: World, event: Event): World {
    w.(svc := Record(w.svc, event))
  }

  function ReadDone(c: Setup, w: World, holder: HolderId): (World, Result<Snapshot, WriteError>) {
    if c.span == Full then
      match Acquired(c, w.svc, holder)
      case (svc, Err(e)) => (w.(svc := svc), Err(Lock(e)))
      case (svc, Ok(holding)) =>
        ReadNow(w.(svc := svc, open := w.open[holder := Open(holding, w.svc.now)]), holder)
    else
      ReadNow(w, holder)
  }

  function ReadNow(w: World, holder: HolderId): (World, Result<Snapshot, WriteError>) {
    var swept := w.(svc := Swept(w.svc));
    (Logged(swept, Event.Read(holder, swept.svc.version)),
     Ok(Snapshot(ReadBack(w.store.target), swept.svc.version)))
  }

  /** Progress renews the lease, but never once the hold ceiling is reached. */
  function Progressed(c: Setup, w: World, holder: HolderId): (World, Result<(), WriteError>) {
    if holder !in w.open then (w, Ok(()))
    else
      var o := w.open[holder];
      if o.takenAt + c.holdCeiling <= w.svc.now then
        (Logged(w, CeilingReached(holder)), Err(CeilingExceeded))
      else
        match Renewed(c, w.svc, o.holding)
        case (svc, Ok(_)) => (w.(svc := svc), Ok(()))
        case (svc, Err(e)) => (w.(svc := svc), Err(Lock(e)))
  }

  /** The hold a write will use: the open one under the full span, a new one otherwise. */
  function HoldForWrite(c: Setup, w: World, holder: HolderId): (World, Result<Holding, WriteError>) {
    match c.span
    case Full =>
      if holder !in w.open then (w, Err(Lock(Expired)))
      else if w.open[holder].takenAt + c.holdCeiling <= w.svc.now then (w, Err(CeilingExceeded))
      else (w, Ok(w.open[holder].holding))
    case WriteOnly =>
      match Acquired(c, w.svc, holder)
      case (svc, Ok(holding)) => (w.(svc := svc), Ok(holding))
      case (svc, Err(e)) => (w.(svc := svc), Err(Lock(e)))
  }

  /** Stages the content and asks the service to commit it. */
  function Submitted(c: Setup, w: World, holder: HolderId, holding: Holding, readAt: nat, content: Content)
    : (World, Result<Authorized, WriteError>)
  {
    var attempted := Logged(w, WriteAttempted(holder, holding.ticket, readAt));
    var (store, staged) := Prepared(c, w.store, content);
    var prepared := attempted.(store := store);
    if !staged then (prepared, Err(Io))
    else
      match Committed(prepared.svc, holding, readAt)
      case (svc, Ok(newVersion)) =>
        (prepared.(svc := svc), Ok(Authorized(holding, newVersion, content)))
      case (svc, Err(reason)) =>
        var discarded := prepared.(svc := svc, store := Discarded(store));
        var refused := Logged(discarded, WriteRefused(holder, reason, content));
        (if c.span == WriteOnly then refused.(svc := Released(c, refused.svc, holding)) else refused,
         Err(Refused(reason)))
  }

  /** Phase 1: get the write authorized. */
  function Authorizing(c: Setup, w: World, holder: HolderId, readAt: nat, content: Content)
    : (World, Result<Authorized, WriteError>)
  {
    match HoldForWrite(c, w, holder)
    case (w', Err(e)) => (w', Err(e))
    case (w', Ok(holding)) => Submitted(c, w', holder, holding, readAt, content)
  }

  function Finished(c: Setup, w: World, holding: Holding): World {
    w.(open := w.open - {holding.holder}, svc := Released(c, w.svc, holding))
  }

  /** Phase 2: publish the staged content, unless another commit has overtaken this one. */
  function Applied(c: Setup, w: World, a: Authorized): (World, Result<nat, WriteError>) {
    var swept := w.(svc := Swept(w.svc));
    var current := swept.svc.version;
    if current != a.newVersion then
      var refused := Logged(swept.(store := Discarded(w.store)),
                            WriteRefused(a.holding.holder, StaleVersion(a.newVersion, current), a.content));
      (Finished(c, refused, a.holding), Err(Superseded(a.newVersion, current)))
    else
      match Published(c, w.store)
      case (store, false) => (swept.(store := store), Err(Io))
      case (store, true) =>
        var accepted := Logged(swept.(store := store),
                               WriteAccepted(a.holding.holder, a.holding.ticket, a.newVersion, a.content));
        (Finished(c, accepted, a.holding), Ok(a.newVersion))
  }

  /** The normal path: both phases in one step. */
  function Written(c: Setup, w: World, holder: HolderId, readAt: nat, content: Content)
    : (World, Result<nat, WriteError>)
  {
    match Authorizing(c, w, holder, readAt, content)
    case (w', Err(e)) => (w', Err(e))
    case (w', Ok(a)) => Applied(c, w', a)
  }

  function Abandoned(c: Setup, w: World, holder: HolderId): World {
    if holder !in w.open then w
    else w.(open := w.open - {holder}, svc := Released(c, w.svc, w.open[holder].holding))
  }

  class Harness {
    const setup: Setup
    const lock: FakeLockService
    const store: FileStore
    const history: History
    const clock: Clock
    var open: map<HolderId, Open>

    /** The parts are wired to one clock and one log, under one configuration. */
    ghost predicate Wired() {
      && lock.history == history
      && lock.clock == clock
      && lock.setup == setup
      && store.setup == setup
    }

    function State(): World
      reads this, lock, lock.history, lock.clock, store
    {
      World(lock.State(), store.State(), open)
    }

    constructor (setup: Setup, lock: FakeLockService, store: FileStore)
      requires lock.setup == setup && store.setup == setup
      ensures Wired() && this.setup == setup && this.lock == lock && this.store == store
      ensures State() == World(lock.State(), store.State(), map[])
    {
      this.setup := setup;
      this.lock := lock;
      this.store := store;
      this.history := lock.history;
      this.clock := lock.clock;
      this.open := map[];
    }

    method Read(holder: HolderId) returns (r: Result<Snapshot, WriteError>)
      requires Wired()
      modifies this, lock, history
      ensures (State(), r) == ReadDone(setup, old(State()), holder)
    {
      if setup.span == Full {
        var acquired := lock.Acquire(holder);
        match acquired {
          case Err(e) => return Err(Lock(e));
          case Ok(holding) => open := open[holder := Open(holding, clock.now)];
        }
      }
      var version := lock.CurrentVersion();
      var content := store.Read();
      history.Record(clock.now, Event.Read(holder, version));
      return Ok(Snapshot(content, version));
    }

    method Progress(holder: HolderId) returns (r: Result<(), WriteError>)
      requires Wired()
      modifies lock, history
      ensures (State(), r) == Progressed(setup, old(State()), holder)
    {
      if holder !in open {
        return Ok(());
      }
      var o := open[holder];
      if o.takenAt + setup.holdCeiling <= clock.now {
        history.Record(clock.now, CeilingReached(holder));
        return Err(CeilingExceeded);
      }
      var renewed := lock.Keepalive(o.holding);
      match renewed {
        case Ok(_) => return Ok(());
        case Err(e) => return Err(Lock(e));
      }
    }

    method TakeHoldForWrite(holder: HolderId) returns (r: Result<Holding, WriteError>)
      requires Wired()
      modifies lock, history
      ensures (State(), r) == HoldForWrite(setup, old(State()), holder)
    {
      match setup.span {
        case Full =>
          if holder !in open {
            return Err(Lock(Expired));
          }
          var o := open[holder];
          if o.takenAt + setup.holdCeiling <= clock.now {
            return Err(CeilingExceeded);
          }
          return Ok(o.holding);
        case WriteOnly =>
          var acquired := lock.Acquire(holder);
          match acquired {
            case Ok(holding) => return Ok(holding);
            case Err(e) => return Err(Lock(e));
          }
      }
    }

    method Submit(holder: HolderId, holding: Holding, readAt: nat, content: Content)
      returns (r: Result<Authorized, WriteError>)
      requires Wired()
      modifies lock, history, store
      ensures (State(), r) == Submitted(setup, old(State()), holder, holding, readAt, content)
    {
      history.Record(clock.now, WriteAttempted(holder, holding.ticket, readAt));
      var staged := store.Prepare(content);
      if !staged {
        return Err(Io);
      }
      var committed := lock.Commit(holding, readAt);
      match committed {
        case Ok(newVersion) =>
          return Ok(Authorized(holding, newVersion, content));
        case Err(reason) =>
          store.Discard();
          history.Record(clock.now, WriteRefused(holder, reason, content));
          if setup.span == WriteOnly {
            lock.Release(holding);
          }
          return Err(Refused(reason));
      }
    }

    method Authorize(holder: HolderId, readAt: nat, content: Content)
      returns (r: Result<Authorized, WriteError>)
      requires Wired()
      modifies lock, history, store
      ensures (State(), r) == Authorizing(setup, old(State()), holder, readAt, content)
    {
      var hold := TakeHoldForWrite(holder);
      match hold {
        case Err(e) => return Err(e);
        case Ok(holding) => r := Submit(holder, holding, readAt, content);
      }
    }

    method Finish(holding: Holding)
      requires Wired()
      modifies this, lock, history
      ensures State() == Finished(setup, old(State()), holding)
    {
      open := open - {holding.holder};
      lock.Release(holding);
    }

    method Apply(a: Authorized) returns (r: Result<nat, WriteError>)
      requires Wired()
      modifies this, lock, history, store
      ensures (State(), r) == Applied(setup, old(State()), a)
    {
      var current := lock.CurrentVersion();
      if current != a.newVersion {
        store.Discard();
        history.Record(clock.now,
                       WriteRefused(a.holding.holder, StaleVersion(a.newVersion, current), a.content));
        Finish(a.holding);
        return Err(Superseded(a.newVersion, current));
      }
      var published := store.Publish();
      if !published {
        return Err(Io);
      }
      history.Record(clock.now,
                     WriteAccepted(a.holding.holder, a.holding.ticket, a.newVersion, a.content));
      Finish(a.holding);
      return Ok(a.newVersion);
    }

    method Write(holder: HolderId, readAt: nat, content: Content) returns (r: Result<nat, WriteError>)
      requires Wired()
      modifies this, lock, history, store
      ensures (State(), r) == Written(setup, old(State()), holder, readAt, content)
    {
      var authorized := Authorize(holder, readAt, content);
      match authorized {
        case Err(e) => return Err(e);
        case Ok(a) => r := Apply(a);
      }
    }

    method Abandon(holder: HolderId)
      requires Wired()
      modifies this, lock, history
      ensures State() == Abandoned(setup, old(State()), holder)
    {
      if holder in open {
        var holding := open[holder].holding;
        open := open - {holder};
        lock.Release(holding);
      }
    }

    method ForceRelease() returns (barrier: nat)
      requires Wired()
      modifies lock, history
      ensures var (svc, b) := ForceReleased(old(State()).svc);
              State() == old(State()).(svc := svc) && barrier == b
    {
      barrier := lock.ForceRelease();
    }
  }
}
