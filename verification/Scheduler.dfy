/** `SchedulerService`: the only producer of new rows. */
module Scheduler {
  import opened Wrappers
  import opened Domain

  const DEFAULT_MAX_ATTEMPTS: MaxAttempts := 3
  const DEFAULT_PRIORITY := 0

  datatype Submission = Submission(
    id: TaskId,
    queue: string,
    kind: string,
    payload: Json,
    scheduledAt: Option<Time>,
    priority: Option<int>,
    maxAttempts: Option<int>,
    region: Option<string>)

  /** `enqueue_raw`: the record it hands to `save`, or the validation error. */
  function Record(s: Submission, now: Time): Result<Row> {
    if s.region == Some("") then Err(InvalidPayload("region label must not be empty"))
    else if s.maxAttempts.Some? && s.maxAttempts.value < 1 then Err(InvalidPayload("invalid max_attempts"))
    else if s.kind == "" then Err(InvalidPayload("task kind must not be empty"))
    else
      Ok(Row(s.id, s.queue, s.kind, s.payload, Pending,
             if s.priority.Some? then s.priority.value else DEFAULT_PRIORITY,
             0,
             if s.maxAttempts.Some? then s.maxAttempts.value else DEFAULT_MAX_ATTEMPTS,
             None,
             if s.scheduledAt.Some? then s.scheduledAt.value else now,
             None, None, now, now, None, None, None, None, None, s.region))
  }

  /** `enqueue_raw_idempotent`: the same record with a key and its expiry. */
  function KeyedRecord(s: Submission, key: string, retention: Time, now: Time): Result<Row> {
    match Record(s, now)
    case Err(e) => Err(e)
    case Ok(r) => Ok(r.(idempotencyKey := Some(key), idempotencyExpiresAt := Some(now + retention)))
  }
}
