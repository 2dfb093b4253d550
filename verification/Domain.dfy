/** Task rows, statuses and errors: the columns of the `tasks` table and the
    values that cross the repository boundary. */
module Domain {
  import opened Wrappers

  datatype Result<+T> = Ok(value: T) | Err(error: TaskError)

  /** Seconds on the one clock that both the database and its clients read. */
  type Time = real

  type TaskId = nat
  type WorkerId = nat
  type Json = string

  datatype Status = Pending | Running | Completed | Failed | Cancelled | Suspended

  predicate Terminal(s: Status) {
    s.Completed? || s.Failed? || s.Cancelled?
  }

  datatype StorageError =
    | PrimaryKeyViolation
    | IdempotencyIndexViolation
    | FloatOutOfRange
    | MappingFailed

  datatype TaskError =
    | InvalidPayload(reason: string)
    | AlreadyStarted
    | NotFound(missing: TaskId)
    | NotInExpectedState(id: TaskId, expected: string)
    | Storage(cause: StorageError)

  /** One row of `tasks`. The `MaxAttempts` newtype admits no value below 1. */
  type MaxAttempts = n: nat | 1 <= n witness 3

  datatype Row = Row(
    id: TaskId,
    queue: string,
    kind: string,
    payload: Json,
    status: Status,
    priority: int,
    attempts: nat,
    maxAttempts: MaxAttempts,
    lastError: Option<string>,
    scheduledAt: Time,
    claimedBy: Option<WorkerId>,
    claimedUntil: Option<Time>,
    createdAt: Time,
    updatedAt: Time,
    idempotencyKey: Option<string>,
    idempotencyExpiresAt: Option<Time>,
    checkpoint: Option<Json>,
    suspendedAt: Option<Time>,
    signalPayload: Option<Json>,
    region: Option<string>)

  /** One row of `task_audit_log`. Its `id` is its position in the log. */
  datatype AuditRow = AuditRow(
    taskId: TaskId,
    fromStatus: Option<Status>,
    toStatus: Status,
    worker: Option<WorkerId>,
    metadata: Option<string>,
    region: Option<string>)

  const LEASE_EXPIRED := "lease expired: max attempts exhausted"
  const SUSPEND_TIMEOUT := "suspend timeout exceeded"
  const LEASE_RELEASED := "lease released: graceful shutdown"

  /** The guard of `TryFrom<TaskRow>`. It runs after the transaction committed. */
  predicate Maps(r: Row) {
    r.attempts <= r.maxAttempts
  }

  function TryFrom(r: Row): Result<Row> {
    if Maps(r) then Ok(r) else Err(Storage(MappingFailed))
  }

  /** The partial unique index over (queue, idempotency_key). */
  predicate HoldsKey(r: Row, queue: string, key: string) {
    r.queue == queue && r.idempotencyKey == Some(key) && !Terminal(r.status)
  }
}
