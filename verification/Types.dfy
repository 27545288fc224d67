/** Core value types: identities, tickets and versions, refusals and errors, and the fixed
    configuration of one run. Tickets and versions are natural numbers. */
module Types {

  type HolderId = string
  type Content = string

  datatype Option<+T> = None | Some(value: T)

  datatype Result<+T, +E> = Ok(value: T) | Err(error: E)

  /** Which work sits inside the lock: only the commit, or read-think-commit. */
  datatype Span = WriteOnly | Full

  /** Proof that the lock was granted. Kept by the harness, never shown to an agent. */
  datatype Holding = Holding(holder: HolderId, ticket: nat)

  datatype Refusal =
    | StaleTicket(held: nat, inForce: Option<nat>)
    | StaleVersion(read: nat, current: nat)
    | NotHeld

  datatype LockError = Contended | Expired | Unreachable

  datatype WriteError =
    | Refused(reason: Refusal)
    | Lock(error: LockError)
    | CeilingExceeded
    | Superseded(authorized: nat, current: nat)
    | Io

  datatype Snapshot = Snapshot(content: Content, version: nat)

  /** Where a write is made to fail. */
  datatype CrashPoint = AfterTempWritten | DuringRename

  /** The contract violations the fake lock service can be told to commit. */
  datatype Faults = Faults(
    swallowKeepalive: set<HolderId>,
    grantTwice: bool,
    nonMonotonicTickets: bool,
    dropRelease: set<HolderId>)

  /** Everything that is fixed for the length of one run. */
  datatype Setup = Setup(
    span: Span,
    lease: nat,
    holdCeiling: nat,
    faults: Faults,
    failAt: Option<CrashPoint>)

  /** The environment's clock. It stands still inside a call and moves only between calls. */
  class Clock {
    var now: nat

    constructor ()
      ensures now == 0
    {
      now := 0;
    }

    method Advance(delta: nat)
      modifies this
      ensures now == old(now) + delta
    {
      now := now + delta;
    }
  }
}
