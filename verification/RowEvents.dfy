/** What one committed UPDATE does to one row of `tasks`: the SET list of each
    statement, the guard of its WHERE clause and the audit row that the same
    transaction inserts. */
module RowEvents {
  import opened Wrappers
  import opened Domain
  import opened Powers

  datatype Event =
    | Claim(worker: WorkerId, lease: Time)
    | Complete
    | Retry(error: string, base: real, cap: real, jitter: real)
    | GiveUp(error: string)
    | Recover
    | Exhaust
    | Release(holder: Option<WorkerId>)
    | Suspend
    | Signal(payload: Option<Json>)
    | Expire(timeout: Time)
    | Cancel
    | Checkpoint(writer: WorkerId, data: Json)
    | ForgetKey

  predicate ChangesStatus(e: Event) {
    !e.Checkpoint? && !e.ForgetKey?
  }

  // ---- retry backoff -------------------------------------------------------

  /** SQL `power(2, e)`, where e may be negative. */
  function Power2(e: int): (p: real)
    ensures p > 0.0
  {
    if e >= 0 then RealPow2(e) else 1.0 / RealPow2(-e)
  }

  const DOUBLE_EXPONENTS: nat := 1024

  /** The two float8 operations of the backoff expression raise "out of range"
      when `power` or the product with the base delay leaves the double range. */
  predicate BackoffOverflows(base: real, attempts: nat) {
    attempts - 1 >= DOUBLE_EXPONENTS || base * Power2(attempts - 1) >= RealPow2(DOUBLE_EXPONENTS)
  }

  function Min(a: real, b: real): real {
    if a <= b then a else b
  }

  /** LEAST(base * power(2, attempts - 1), cap) */
  function Backoff(base: real, cap: real, attempts: nat): real {
    Min(base * Power2(attempts - 1), cap)
  }

  // ---- SET lists -----------------------------------------------------------

  function Apply(e: Event, r: Row, now: Time): Row {
    match e
    case Claim(worker, lease) =>
      r.(status := Running, claimedBy := Some(worker), claimedUntil := Some(now + lease),
         attempts := r.attempts + 1, updatedAt := now)
    case Complete =>
      r.(status := Completed, checkpoint := None, updatedAt := now)
    case Retry(error, base, cap, jitter) =>
      r.(status := Pending, claimedBy := None, claimedUntil := None, lastError := Some(error),
         scheduledAt := now + Backoff(base, cap, r.attempts) * jitter, updatedAt := now)
    case GiveUp(error) =>
      r.(status := Failed, lastError := Some(error), updatedAt := now)
    case Recover =>
      r.(status := Pending, claimedBy := None, claimedUntil := None, scheduledAt := now, updatedAt := now)
    case Exhaust =>
      r.(status := Failed, lastError := Some(LEASE_EXPIRED), updatedAt := now)
    case Release(_) =>
      r.(status := Pending, claimedBy := None, claimedUntil := None, scheduledAt := now,
         updatedAt := now, attempts := r.attempts + 1)
    case Suspend =>
      r.(status := Suspended, claimedBy := None, claimedUntil := None, suspendedAt := Some(now), updatedAt := now)
    case Signal(payload) =>
      r.(status := Pending, signalPayload := payload, suspendedAt := None, updatedAt := now)
    case Expire(_) =>
      r.(status := Failed, lastError := Some(SUSPEND_TIMEOUT), updatedAt := now)
    case Cancel =>
      r.(status := Cancelled, updatedAt := now)
    case Checkpoint(_, data) =>
      r.(checkpoint := Some(data), updatedAt := now)
    case ForgetKey =>
      r.(idempotencyKey := None, idempotencyExpiresAt := None, updatedAt := now)
  }

  // ---- WHERE clauses -------------------------------------------------------

  predicate LeaseExpired(r: Row, now: Time) {
    r.status.Running? && r.claimedUntil.Some? && r.claimedUntil.value < now
  }

  function SuspendedSince(r: Row): Time {
    if r.suspendedAt.Some? then r.suspendedAt.value else r.updatedAt
  }

  predicate Allowed(e: Event, r: Row, now: Time) {
    match e
    case Claim(_, _) => r.status.Pending? && r.scheduledAt <= now
    case Complete => r.status.Running?
    case Retry(_, base, _, jitter) =>
      r.status.Running? && r.attempts < r.maxAttempts && !BackoffOverflows(base, r.attempts)
      && 0.75 <= jitter < 1.25
    case GiveUp(_) => r.status.Running? && !(r.attempts < r.maxAttempts)
    case Recover => LeaseExpired(r, now) && r.attempts < r.maxAttempts
    case Exhaust => LeaseExpired(r, now) && r.attempts >= r.maxAttempts
    case Release(holder) => r.status.Running? && (holder.Some? ==> r.claimedBy == holder)
    case Suspend => r.status.Running?
    case Signal(_) => r.status.Suspended?
    case Expire(timeout) => r.status.Suspended? && SuspendedSince(r) < now - timeout
    case Cancel => r.status.Pending? || r.status.Suspended?
    case Checkpoint(writer, _) => r.status.Running? && r.claimedBy == Some(writer)
    case ForgetKey =>
      Terminal(r.status) && r.idempotencyKey.Some?
      && r.idempotencyExpiresAt.Some? && r.idempotencyExpiresAt.value < now
  }

  // ---- audit rows ----------------------------------------------------------

  /** The `insert_audit_row` call that goes with the event. `after` is the
      RETURNING row; the from-status is the literal each operation passes. */
  function Audit(e: Event, after: Row): AuditRow
    requires ChangesStatus(e)
  {
    match e
    case Claim(worker, _) => AuditRow(after.id, Some(Pending), Running, Some(worker), None, after.region)
    case Complete => AuditRow(after.id, Some(Running), Completed, after.claimedBy, None, after.region)
    case Retry(error, _, _, _) =>
      AuditRow(after.id, Some(Running), after.status, after.claimedBy, Some(error), after.region)
    case GiveUp(error) =>
      AuditRow(after.id, Some(Running), after.status, after.claimedBy, Some(error), after.region)
    case Recover => AuditRow(after.id, Some(Running), Pending, None, None, after.region)
    case Exhaust => AuditRow(after.id, Some(Running), Failed, None, Some(LEASE_EXPIRED), after.region)
    case Release(holder) => AuditRow(after.id, Some(Running), Pending, holder, Some(LEASE_RELEASED), None)
    case Suspend => AuditRow(after.id, Some(Running), Suspended, after.claimedBy, None, after.region)
    case Signal(_) => AuditRow(after.id, Some(Suspended), Pending, None, None, after.region)
    case Expire(_) => AuditRow(after.id, Some(Suspended), Failed, None, Some(SUSPEND_TIMEOUT), None)
    case Cancel =>
      AuditRow(after.id, Some(if after.suspendedAt.Some? then Suspended else Pending), Cancelled, None, None, after.region)
  }

  /** What no UPDATE of the repository touches. */
  predicate SameIdentity(r: Row, s: Row) {
    s.id == r.id && s.queue == r.queue && s.kind == r.kind && s.payload == r.payload && s.priority == r.priority
    && s.maxAttempts == r.maxAttempts && s.createdAt == r.createdAt && s.region == r.region
  }
}
