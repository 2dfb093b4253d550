/** `PostgresTaskRepository` over tables held in memory: each method runs one
    transaction, updating rows in place and appending audit rows, and is proved
    against `Store`. */
module TaskRepository {
  import opened Wrappers
  import opened Domain
  import opened RowEvents
  import opened Store
  import opened Updates

  datatype CancelResult = WasCancelled(record: Row) | Missing | NotCancellable(current: Status)

  datatype RecoveryOutcome = WasRecovered | WasFailed

  datatype RecoveredTask = RecoveredTask(id: TaskId, queue: string, kind: string, outcome: RecoveryOutcome)

  class PostgresTaskRepository {
    var rows: seq<Row>
    var audit: seq<AuditRow>
    const auditing: bool

    ghost predicate Valid()
      reads this
    {
      Consistent(rows)
    }

    function Contents(): Db
      reads this
    {
      Db(auditing, rows, audit)
    }

    constructor (auditing: bool)
      ensures Valid() && Contents() == Db(auditing, [], [])
    {
      this.auditing := auditing;
      rows, audit := [], [];
    }

    method InsertAuditRow(entry: AuditRow)
      modifies this`audit
      ensures audit == if auditing then old(audit) + [entry] else old(audit)
    {
      if auditing {
        audit := audit + [entry];
      }
    }

    method Find(id: TaskId) returns (i: nat)
      ensures i <= |rows| && (i < |rows| ==> rows[i].id == id)
      ensures i == |rows| ==> forall j :: 0 <= j < |rows| ==> rows[j].id != id
    {
      i := 0;
      while i < |rows| && rows[i].id != id
        invariant i <= |rows|
        invariant forall j :: 0 <= j < i ==> rows[j].id != id
      {
        i := i + 1;
      }
    }

    method FindHolder(queue: string, key: string) returns (i: nat)
      ensures i == FirstHolder(rows, queue, key, 0)
    {
      i := 0;
      while i < |rows| && !HoldsKey(rows[i], queue, key)
        invariant i <= |rows|
        invariant FirstHolder(rows, queue, key, i) == FirstHolder(rows, queue, key, 0)
      {
        i := i + 1;
      }
    }

    method Conflicts(record: Row) returns (conflict: bool, holder: nat)
      ensures conflict == KeyConflict(rows, record)
      ensures conflict ==> holder == FirstHolder(rows, record.queue, record.idempotencyKey.value, 0)
    {
      conflict, holder := false, 0;
      if record.idempotencyKey.Some? && !Terminal(record.status) {
        holder := FindHolder(record.queue, record.idempotencyKey.value);
        conflict := holder < |rows|;
      }
    }

    method Save(record: Row, now: Time) returns (result: Result<Row>)
      requires Valid()
      modifies this
      ensures Valid() && (Contents(), result) == Store.Save(old(Contents()), record, now)
    {
      var i := Find(record.id);
      if i < |rows| {
        return Err(Storage(PrimaryKeyViolation));
      }
      var conflict, _ := Conflicts(record);
      if conflict {
        return Err(Storage(IdempotencyIndexViolation));
      }
      InsertConsistent(Contents(), record, now);
      var row := record.(createdAt := now, updatedAt := now);
      rows := rows + [row];
      InsertAuditRow(AuditRow(row.id, None, Pending, None, None, row.region));
      result := TryFrom(row);
    }

    method SaveIdempotent(record: Row, now: Time) returns (result: Result<Submitted>)
      requires Valid()
      modifies this
      ensures Valid() && (Contents(), result) == Store.SaveIdempotent(old(Contents()), record, now)
    {
      var conflict, holder := Conflicts(record);
      if conflict {
        var existing := TryFrom(rows[holder]);
        return if existing.Ok? then Ok(Existing(existing.value)) else Err(existing.error);
      }
      var i := Find(record.id);
      if i < |rows| {
        return Err(Storage(PrimaryKeyViolation));
      }
      InsertConsistent(Contents(), record, now);
      var row := record.(createdAt := now, updatedAt := now);
      rows := rows + [row];
      InsertAuditRow(AuditRow(row.id, None, Pending, None, None, row.region));
      var mapped := TryFrom(row);
      result := if mapped.Ok? then Ok(Created(mapped.value)) else Err(mapped.error);
    }

    /** The subquery of `claim_next`: the first row in (priority DESC,
        scheduled_at ASC) order among those not locked by another transaction. */
    method SelectNext(queue: string, region: Option<string>, now: Time, locked: set<nat>) returns (pick: Option<nat>)
      ensures IsPick(rows, queue, region, now, locked, pick)
    {
      pick := None;
      for j := 0 to |rows|
        invariant pick.None? ==> forall k: nat :: k < j && k !in locked ==> !Eligible(rows[k], queue, region, now)
        invariant pick.Some? ==>
                    && pick.value < j && pick.value !in locked && Eligible(rows[pick.value], queue, region, now)
                    && forall k: nat :: k < j && k !in locked && Eligible(rows[k], queue, region, now)
                                   ==> !Precedes(rows[k], rows[pick.value])
      {
        if j !in locked && Eligible(rows[j], queue, region, now) {
          if pick.None? || Precedes(rows[j], rows[pick.value]) {
            pick := Some(j);
          }
        }
      }
    }

    method ClaimNext(queue: string, worker: WorkerId, lease: Time, region: Option<string>, now: Time, locked: set<nat>)
      returns (result: Result<Option<Row>>, ghost pick: Option<nat>)
      requires Valid()
      modifies this
      ensures Valid() && IsPick(old(rows), queue, region, now, locked, pick)
      ensures pick.None? ==> Contents() == old(Contents()) && result == Ok(None)
      ensures pick.Some? ==>
                && Contents() == Commit(old(Contents()), ClaimTask(old(rows)[pick.value].id, worker, lease), now)
                && rows[pick.value] == Apply(Claim(worker, lease), old(rows)[pick.value], now)
                && result == if Maps(rows[pick.value]) then Ok(Some(rows[pick.value])) else Err(Storage(MappingFailed))
    {
      var next := SelectNext(queue, region, now, locked);
      pick := next;
      if next.None? {
        return Ok(None), pick;
      }
      result := ClaimRow(next.value, worker, lease, now);
    }

    /** The UPDATE of `claim_next`. The mapping of the returned row comes after
        the commit: when it fails, the row stays claimed. */
    method ClaimRow(i: nat, worker: WorkerId, lease: Time, now: Time) returns (result: Result<Option<Row>>)
      requires Valid() && i < |rows| && rows[i].status.Pending? && rows[i].scheduledAt <= now
      modifies this
      ensures Valid() && |rows| == |old(rows)|
      ensures Contents() == Commit(old(Contents()), ClaimTask(old(rows)[i].id, worker, lease), now)
      ensures rows[i] == Apply(Claim(worker, lease), old(rows)[i], now)
      ensures result == if Maps(rows[i]) then Ok(Some(rows[i])) else Err(Storage(MappingFailed))
    {
      ghost var s := ClaimTask(rows[i].id, worker, lease);
      ClaimedRow(rows[i], worker, lease, now);
      Selected(Contents(), s, now, i);
      CommitConsistent(Contents(), s, now);
      WriteClaim(i, worker, lease, now);
      var mapped := TryFrom(rows[i]);
      result := if mapped.Ok? then Ok(Some(mapped.value)) else Err(mapped.error);
    }

    method WriteClaim(i: nat, worker: WorkerId, lease: Time, now: Time)
      requires i < |rows|
      modifies this
      ensures rows == old(rows)[i := Apply(Claim(worker, lease), old(rows)[i], now)]
      ensures audit == if auditing then old(audit) + [ClaimedEntry(old(rows)[i], worker)] else old(audit)
    {
      var row := rows[i].(status := Running, claimedBy := Some(worker), claimedUntil := Some(now + lease),
                          attempts := rows[i].attempts + 1, updatedAt := now);
      rows := rows[i := row];
      InsertAuditRow(AuditRow(row.id, Some(Pending), Running, Some(worker), None, row.region));
    }

    method Complete(id: TaskId, now: Time) returns (result: Result<Row>)
      requires Valid()
      modifies this
      ensures Valid() && Contents() == Commit(old(Contents()), CompleteTask(id), now)
      ensures result == Answer(CompleteTask(id), old(rows), now, NotInExpectedState(id, "Running"))
    {
      CommitConsistent(Contents(), CompleteTask(id), now);
      var i := Find(id);
      if i == |rows| || rows[i].status != Running {
        Unselected(Contents(), CompleteTask(id), now, i);
        return Err(NotInExpectedState(id, "Running"));
      }
      Selected(Contents(), CompleteTask(id), now, i);
      var row := rows[i].(status := Completed, checkpoint := None, updatedAt := now);
      rows := rows[i := row];
      InsertAuditRow(AuditRow(row.id, Some(Running), Completed, row.claimedBy, None, row.region));
      result := TryFrom(row);
    }

    method Fail(id: TaskId, error: string, base: real, cap: real, jitter: real, now: Time) returns (result: Result<Row>)
      requires Valid()
      modifies this
      ensures Valid() && Contents() == Commit(old(Contents()), FailTask(id, error, base, cap, jitter), now)
      ensures result == Answer(FailTask(id, error, base, cap, jitter), old(rows), now,
                               if OverflowsBackoff(old(rows), id, base) then Storage(FloatOutOfRange)
                               else NotInExpectedState(id, "Running"))
    {
      ghost var s := FailTask(id, error, base, cap, jitter);
      CommitConsistent(Contents(), s, now);
      var i := Find(id);
      if i == |rows| || rows[i].status != Running {
        Unselected(Contents(), s, now, i);
        return Err(NotInExpectedState(id, "Running"));
      }
      if rows[i].attempts < rows[i].maxAttempts && BackoffOverflows(base, rows[i].attempts) {
        Unselected(Contents(), s, now, i);
        return Err(Storage(FloatOutOfRange));
      }
      Selected(Contents(), s, now, i);
      var row := FailedRow(rows[i], error, base, cap, jitter, now);
      rows := rows[i := row];
      InsertAuditRow(AuditRow(row.id, Some(Running), row.status, row.claimedBy, Some(error), row.region));
      result := TryFrom(row);
    }

    /** The CASE expressions of the UPDATE in `fail`. */
    method FailedRow(r: Row, error: string, base: real, cap: real, jitter: real, now: Time) returns (row: Row)
      ensures row == Apply(if r.attempts < r.maxAttempts then Retry(error, base, cap, jitter) else GiveUp(error), r, now)
    {
      row := r.(lastError := Some(error), updatedAt := now);
      if r.attempts < r.maxAttempts {
        row := row.(status := Pending, claimedBy := None, claimedUntil := None,
                    scheduledAt := now + Min(base * Power2(r.attempts - 1), cap) * jitter);
      } else {
        row := row.(status := Failed);
      }
    }

    method SuspendRunning(id: TaskId, now: Time) returns (result: Result<Row>)
      requires Valid()
      modifies this
      ensures Valid() && Contents() == Commit(old(Contents()), SuspendTask(id), now)
      ensures result == Answer(SuspendTask(id), old(rows), now, NotInExpectedState(id, "Running"))
    {
      CommitConsistent(Contents(), SuspendTask(id), now);
      var i := Find(id);
      if i == |rows| || rows[i].status != Running {
        Unselected(Contents(), SuspendTask(id), now, i);
        return Err(NotInExpectedState(id, "Running"));
      }
      Selected(Contents(), SuspendTask(id), now, i);
      var row := rows[i].(status := Suspended, claimedBy := None, claimedUntil := None,
                          suspendedAt := Some(now), updatedAt := now);
      rows := rows[i := row];
      InsertAuditRow(AuditRow(row.id, Some(Running), Suspended, row.claimedBy, None, row.region));
      result := TryFrom(row);
    }

    method SignalSuspended(id: TaskId, payload: Option<Json>, now: Time) returns (result: Result<Row>)
      requires Valid()
      modifies this
      ensures Valid() && Contents() == Commit(old(Contents()), SignalTask(id, payload), now)
      ensures result == Answer(SignalTask(id, payload), old(rows), now,
                               if HasId(old(rows), id) then NotInExpectedState(id, "Suspended") else NotFound(id))
    {
      ghost var s := SignalTask(id, payload);
      CommitConsistent(Contents(), s, now);
      var i := Find(id);
      if i == |rows| {
        Unselected(Contents(), s, now, i);
        return Err(NotFound(id));
      }
      if rows[i].status != Suspended {
        Unselected(Contents(), s, now, i);
        return Err(NotInExpectedState(id, "Suspended"));
      }
      Selected(Contents(), s, now, i);
      var row := rows[i].(status := Pending, signalPayload := payload, suspendedAt := None, updatedAt := now);
      rows := rows[i := row];
      InsertAuditRow(AuditRow(row.id, Some(Suspended), Pending, None, None, row.region));
      result := TryFrom(row);
    }

    method CancelTask(id: TaskId, now: Time) returns (result: Result<CancelResult>)
      requires Valid()
      modifies this
      ensures Valid() && Contents() == Commit(old(Contents()), Statement.CancelTask(id), now)
      ensures result.Ok? && result.value.Missing? <==> !HasId(old(rows), id)
      ensures forall j :: 0 <= j < |old(rows)| && old(rows)[j].id == id ==>
                result == if !(old(rows)[j].status.Pending? || old(rows)[j].status.Suspended?)
                          then Ok(NotCancellable(old(rows)[j].status))
                          else if Maps(rows[j]) then Ok(WasCancelled(rows[j])) else Err(Storage(MappingFailed))
    {
      ghost var s := Statement.CancelTask(id);
      CommitConsistent(Contents(), s, now);
      var i := Find(id);
      if i == |rows| {
        Unselected(Contents(), s, now, i);
        return Ok(Missing);
      }
      if !(rows[i].status.Pending? || rows[i].status.Suspended?) {
        Unselected(Contents(), s, now, i);
        return Ok(NotCancellable(rows[i].status));
      }
      Selected(Contents(), s, now, i);
      var row := rows[i].(status := Cancelled, updatedAt := now);
      rows := rows[i := row];
      var from := if row.suspendedAt.Some? then Suspended else Pending;
      InsertAuditRow(AuditRow(row.id, Some(from), Cancelled, None, None, row.region));
      var mapped := TryFrom(row);
      result := if mapped.Ok? then Ok(WasCancelled(mapped.value)) else Err(mapped.error);
    }

    method WriteCheckpoint(id: TaskId, worker: WorkerId, data: Json, now: Time) returns (result: Result<()>)
      requires Valid()
      modifies this
      ensures Valid() && Contents() == Commit(old(Contents()), Statement.WriteCheckpoint(id, worker, data), now)
      ensures result == if exists j :: 0 <= j < |old(rows)| && old(rows)[j].id == id && old(rows)[j].status.Running?
                                       && old(rows)[j].claimedBy == Some(worker)
                        then Ok(()) else Err(NotInExpectedState(id, "Running and claimed by current worker"))
    {
      ghost var s := Statement.WriteCheckpoint(id, worker, data);
      CommitConsistent(Contents(), s, now);
      var i := Find(id);
      if i == |rows| || rows[i].claimedBy != Some(worker) || rows[i].status != Running {
        Unselected(Contents(), s, now, i);
        return Err(NotInExpectedState(id, "Running and claimed by current worker"));
      }
      Selected(Contents(), s, now, i);
      rows := rows[i := rows[i].(checkpoint := Some(data), updatedAt := now)];
      result := Ok(());
    }

    method ReleaseLeaseForTask(id: TaskId, now: Time) returns (result: Result<()>)
      requires Valid()
      modifies this
      ensures Valid() && Contents() == Commit(old(Contents()), ReleaseTask(id), now)
      ensures result == if exists j :: 0 <= j < |old(rows)| && old(rows)[j].id == id && old(rows)[j].status.Running?
                        then Ok(()) else Err(NotInExpectedState(id, "Running"))
    {
      CommitConsistent(Contents(), ReleaseTask(id), now);
      var i := Find(id);
      if i == |rows| || rows[i].status != Running {
        Unselected(Contents(), ReleaseTask(id), now, i);
        return Err(NotInExpectedState(id, "Running"));
      }
      ReleaseRunning(i, now);
      result := Ok(());
    }

    method ReleaseRunning(i: nat, now: Time)
      requires Valid() && i < |rows| && rows[i].status.Running?
      modifies this
      ensures Contents() == Commit(old(Contents()), ReleaseTask(old(rows)[i].id), now)
    {
      ReleasedRow(rows[i], now);
      Selected(Contents(), ReleaseTask(rows[i].id), now, i);
      WriteRelease(i, now);
    }

    method WriteRelease(i: nat, now: Time)
      requires i < |rows|
      modifies this
      ensures rows == old(rows)[i := Apply(Release(None), old(rows)[i], now)]
      ensures audit == if auditing then old(audit) + [ReleasedEntry(old(rows)[i].id)] else old(audit)
    {
      var row := rows[i].(status := Pending, claimedBy := None, claimedUntil := None, scheduledAt := now,
                          updatedAt := now, attempts := rows[i].attempts + 1);
      rows := rows[i := row];
      InsertReleased(row.id);
    }

    method InsertReleased(id: TaskId)
      modifies this`audit
      ensures audit == if auditing then old(audit) + [ReleasedEntry(id)] else old(audit)
    {
      InsertAuditRow(AuditRow(id, Some(Running), Pending, None, Some(LEASE_RELEASED), None));
    }

    method ReleaseLeasesForWorker(worker: WorkerId, now: Time) returns (released: seq<TaskId>)
      requires Valid()
      modifies this
      ensures Valid() && Contents() == Commit(old(Contents()), ReleaseWorker(worker), now)
      ensures released == ReturnedIds(old(rows), Held(worker))
    {
      CommitConsistent(Contents(), ReleaseWorker(worker), now);
      ReleaseWorkerWrites(rows, worker, now);
      UpdateKeepsTasks(rows, Held(worker), Freed(now));
      var touched := UpdateHeld(worker, now);
      released := AuditReleases(old(rows), touched, worker);
    }

    method UpdateHeld(worker: WorkerId, now: Time) returns (touched: seq<nat>)
      modifies this`rows
      ensures rows == Rewrite(old(rows), Held(worker), Freed(now))
      ensures touched == Positions(old(rows), Held(worker), |rows|)
    {
      ghost var before := rows;
      touched := [];
      for i := 0 to |rows|
        invariant |rows| == |before| && touched == Positions(before, Held(worker), i)
        invariant forall k :: 0 <= k < i ==> rows[k] == Rewritten(before[k], Held(worker), Freed(now))
        invariant forall k :: i <= k < |rows| ==> rows[k] == before[k]
      {
        if rows[i].claimedBy == Some(worker) && rows[i].status == Running {
          touched := touched + [i];
          rows := rows[i := rows[i].(status := Pending, claimedBy := None, claimedUntil := None, scheduledAt := now,
                                     updatedAt := now, attempts := rows[i].attempts + 1)];
        }
      }
    }

    method AuditReleases(ghost before: seq<Row>, touched: seq<nat>, worker: WorkerId) returns (released: seq<TaskId>)
      requires SameTasks(before, rows) && forall k :: 0 <= k < |touched| ==> touched[k] < |before|
      modifies this`audit
      ensures audit == Appended(old(audit), Collect(before, touched, FreedEntry(worker), |touched|))
      ensures released == Collect(before, touched, IdOf(), |touched|)
    {
      released := [];
      for k := 0 to |touched|
        invariant audit == Appended(old(audit), Collect(before, touched, FreedEntry(worker), k))
        invariant released == Collect(before, touched, IdOf(), k)
      {
        var row := rows[touched[k]];
        InsertAuditRow(AuditRow(row.id, Some(Running), Pending, Some(worker), Some(LEASE_RELEASED), None));
        released := released + [row.id];
      }
    }

    method CleanupExpiredIdempotencyKeys(now: Time) returns (cleaned: nat)
      requires Valid()
      modifies this
      ensures Valid() && Contents() == Commit(old(Contents()), CleanupKeys, now)
      ensures cleaned == |Positions(old(rows), KeyExpired(now), |old(rows)|)|
    {
      CommitConsistent(Contents(), CleanupKeys, now);
      CleanupKeysWrites(rows, now);
      cleaned := UpdateKeyExpired(now);
    }

    method UpdateKeyExpired(now: Time) returns (cleaned: nat)
      modifies this`rows
      ensures rows == Rewrite(old(rows), KeyExpired(now), Keyless(now))
      ensures cleaned == |Positions(old(rows), KeyExpired(now), |old(rows)|)|
    {
      ghost var before := rows;
      cleaned := 0;
      for i := 0 to |rows|
        invariant |rows| == |before| && cleaned == |Positions(before, KeyExpired(now), i)|
        invariant forall k :: 0 <= k < i ==> rows[k] == Rewritten(before[k], KeyExpired(now), Keyless(now))
        invariant forall k :: i <= k < |rows| ==> rows[k] == before[k]
      {
        if rows[i].idempotencyExpiresAt.Some? && rows[i].idempotencyExpiresAt.value < now && Terminal(rows[i].status)
           && rows[i].idempotencyKey.Some?
        {
          rows := rows[i := rows[i].(idempotencyKey := None, idempotencyExpiresAt := None, updatedAt := now)];
          cleaned := cleaned + 1;
        }
      }
    }

    method ExpireSuspendedTasks(timeout: Time, now: Time) returns (expired: seq<TaskId>)
      requires Valid()
      modifies this
      ensures Valid() && Contents() == Commit(old(Contents()), ExpireSuspended(timeout), now)
      ensures expired == ReturnedIds(old(rows), Overdue(timeout, now))
    {
      CommitConsistent(Contents(), ExpireSuspended(timeout), now);
      ExpireSuspendedWrites(rows, timeout, now);
      UpdateKeepsTasks(rows, Overdue(timeout, now), TimedOut(now));
      var touched := UpdateOverdue(timeout, now);
      expired := AuditExpiries(old(rows), touched);
    }

    method UpdateOverdue(timeout: Time, now: Time) returns (touched: seq<nat>)
      modifies this`rows
      ensures rows == Rewrite(old(rows), Overdue(timeout, now), TimedOut(now))
      ensures touched == Positions(old(rows), Overdue(timeout, now), |rows|)
    {
      ghost var before := rows;
      touched := [];
      for i := 0 to |rows|
        invariant |rows| == |before| && touched == Positions(before, Overdue(timeout, now), i)
        invariant forall k :: 0 <= k < i ==> rows[k] == Rewritten(before[k], Overdue(timeout, now), TimedOut(now))
        invariant forall k :: i <= k < |rows| ==> rows[k] == before[k]
      {
        var since := if rows[i].suspendedAt.Some? then rows[i].suspendedAt.value else rows[i].updatedAt;
        if rows[i].status == Suspended && since < now - timeout {
          touched := touched + [i];
          rows := rows[i := rows[i].(status := Failed, lastError := Some(SUSPEND_TIMEOUT), updatedAt := now)];
        }
      }
    }

    method AuditExpiries(ghost before: seq<Row>, touched: seq<nat>) returns (expired: seq<TaskId>)
      requires SameTasks(before, rows) && forall k :: 0 <= k < |touched| ==> touched[k] < |before|
      modifies this`audit
      ensures audit == Appended(old(audit), Collect(before, touched, TimedOutEntry(), |touched|))
      ensures expired == Collect(before, touched, IdOf(), |touched|)
    {
      expired := [];
      for k := 0 to |touched|
        invariant audit == Appended(old(audit), Collect(before, touched, TimedOutEntry(), k))
        invariant expired == Collect(before, touched, IdOf(), k)
      {
        var row := rows[touched[k]];
        InsertAuditRow(AuditRow(row.id, Some(Suspended), Failed, None, Some(SUSPEND_TIMEOUT), None));
        expired := expired + [row.id];
      }
    }

    /** Two UPDATEs in one transaction; the audit rows and the report list the
        retried tasks before the exhausted ones. */
    method RecoverZombieTasks(now: Time) returns (results: seq<RecoveredTask>)
      requires Valid()
      modifies this
      ensures Valid() && Contents() == Commit(old(Contents()), RecoverZombies, now)
      ensures results == SweepReport(old(rows), now)
    {
      CommitConsistent(Contents(), RecoverZombies, now);
      RecoverZombiesRows(rows, now);
      RecoverZombiesWrites(Contents(), now);
      SweepKeepsTasks(rows, now);
      var retryable := UpdateRetryable(now);
      var exhausted := UpdateExhausted(now);
      AuditZombies(old(rows), retryable, exhausted);
      results := ReportZombies(old(rows), retryable, WasRecovered);
      var failed := ReportZombies(old(rows), exhausted, WasFailed);
      results := results + failed;
    }

    method UpdateRetryable(now: Time) returns (retryable: seq<nat>)
      modifies this`rows
      ensures rows == Rewrite(old(rows), Retryable(now), Requeued(now))
      ensures retryable == Positions(old(rows), Retryable(now), |rows|)
    {
      ghost var before := rows;
      retryable := [];
      for i := 0 to |rows|
        invariant |rows| == |before| && retryable == Positions(before, Retryable(now), i)
        invariant forall k :: 0 <= k < i ==> rows[k] == Rewritten(before[k], Retryable(now), Requeued(now))
        invariant forall k :: i <= k < |rows| ==> rows[k] == before[k]
      {
        if LeaseExpired(rows[i], now) && rows[i].attempts < rows[i].maxAttempts {
          retryable := retryable + [i];
          rows := rows[i := rows[i].(status := Pending, claimedBy := None, claimedUntil := None,
                                     scheduledAt := now, updatedAt := now)];
        }
      }
    }

    method UpdateExhausted(now: Time) returns (exhausted: seq<nat>)
      modifies this`rows
      ensures rows == Rewrite(old(rows), Exhausted(now), Abandoned(now))
      ensures exhausted == Positions(old(rows), Exhausted(now), |rows|)
    {
      ghost var before := rows;
      exhausted := [];
      for i := 0 to |rows|
        invariant |rows| == |before| && exhausted == Positions(before, Exhausted(now), i)
        invariant forall k :: 0 <= k < i ==> rows[k] == Rewritten(before[k], Exhausted(now), Abandoned(now))
        invariant forall k :: i <= k < |rows| ==> rows[k] == before[k]
      {
        if LeaseExpired(rows[i], now) && rows[i].attempts >= rows[i].maxAttempts {
          exhausted := exhausted + [i];
          rows := rows[i := rows[i].(status := Failed, lastError := Some(LEASE_EXPIRED), updatedAt := now)];
        }
      }
    }

    method AuditZombies(ghost before: seq<Row>, retryable: seq<nat>, exhausted: seq<nat>)
      requires SameTasks(before, rows)
      requires forall k :: 0 <= k < |retryable| ==> retryable[k] < |before|
      requires forall k :: 0 <= k < |exhausted| ==> exhausted[k] < |before|
      modifies this`audit
      ensures audit == Appended(old(audit), Collect(before, retryable, RequeuedEntry(), |retryable|)
                                            + Collect(before, exhausted, AbandonedEntry(), |exhausted|))
    {
      AuditAll(retryable, RequeuedEntry());
      SameEntries(before, rows, retryable, RequeuedEntry(), |retryable|);
      AuditAll(exhausted, AbandonedEntry());
      SameEntries(before, rows, exhausted, AbandonedEntry(), |exhausted|);
    }

    /** The `insert_audit_row` loop over the rows an UPDATE returned. */
    method AuditAll(touched: seq<nat>, entry: Row -> AuditRow)
      requires forall k :: 0 <= k < |touched| ==> touched[k] < |rows|
      modifies this`audit
      ensures audit == Appended(old(audit), Collect(rows, touched, entry, |touched|))
    {
      for k := 0 to |touched|
        invariant audit == Appended(old(audit), Collect(rows, touched, entry, k))
      {
        InsertAuditRow(entry(rows[touched[k]]));
      }
    }

    method ReportZombies(ghost before: seq<Row>, touched: seq<nat>, outcome: RecoveryOutcome)
      returns (results: seq<RecoveredTask>)
      requires SameTasks(before, rows) && forall k :: 0 <= k < |touched| ==> touched[k] < |before|
      ensures results == Collect(before, touched, ReportOf(outcome), |touched|)
    {
      results := [];
      for k := 0 to |touched|
        invariant results == Collect(before, touched, ReportOf(outcome), k)
      {
        var row := rows[touched[k]];
        results := results + [RecoveredTask(row.id, row.queue, row.kind, outcome)];
      }
    }

    ghost function Appended(log: seq<AuditRow>, entries: seq<AuditRow>): seq<AuditRow> {
      if auditing then log + entries else log
    }
  }

  /** The columns that RETURNING reads and no UPDATE writes. */
  ghost predicate SameTasks(before: seq<Row>, rows: seq<Row>) {
    |before| == |rows| && forall k :: 0 <= k < |rows| ==> SameIdentity(before[k], rows[k])
  }

  lemma {:induction false} SameEntries(before: seq<Row>, rows: seq<Row>, touched: seq<nat>, entry: Row -> AuditRow, n: nat)
    requires SameTasks(before, rows) && n <= |touched| && forall k :: 0 <= k < |touched| ==> touched[k] < |before|
    requires forall r, r' :: SameIdentity(r, r') ==> entry(r) == entry(r')
    ensures Collect(rows, touched, entry, n) == Collect(before, touched, entry, n)
  {
    if n > 0 {
      SameEntries(before, rows, touched, entry, n - 1);
      assert SameIdentity(before[touched[n - 1]], rows[touched[n - 1]]);
    }
  }

  lemma UpdateKeepsTasks(rows: seq<Row>, selects: Row -> bool, update: Row -> Row)
    requires forall r :: SameIdentity(r, update(r))
    ensures SameTasks(rows, Rewrite(rows, selects, update))
  {
  }

  function ReleasedEntry(id: TaskId): AuditRow {
    AuditRow(id, Some(Running), Pending, None, Some(LEASE_RELEASED), None)
  }

  lemma ReleasedRow(r: Row, now: Time)
    requires r.status.Running?
    ensures var s := ReleaseTask(r.id);
            && Fires(s, r, now).Some? && After(s, r, now) == Apply(Release(None), r, now)
            && Entries(s, r, now) == [ReleasedEntry(r.id)]
  {
  }

  function ClaimedEntry(r: Row, worker: WorkerId): AuditRow {
    AuditRow(r.id, Some(Pending), Running, Some(worker), None, r.region)
  }

  lemma ClaimedRow(r: Row, worker: WorkerId, lease: Time, now: Time)
    requires r.status.Pending? && r.scheduledAt <= now
    ensures var s := ClaimTask(r.id, worker, lease);
            && Fires(s, r, now).Some? && After(s, r, now) == Apply(Claim(worker, lease), r, now)
            && Entries(s, r, now) == [ClaimedEntry(r, worker)]
  {
  }

  lemma SweepKeepsTasks(rows: seq<Row>, now: Time)
    ensures SameTasks(rows, Rewrite(Rewrite(rows, Retryable(now), Requeued(now)), Exhausted(now), Abandoned(now)))
  {
  }

  function IdOf(): Row -> TaskId {
    (r: Row) => r.id
  }

  function ReportOf(outcome: RecoveryOutcome): Row -> RecoveredTask {
    (r: Row) => RecoveredTask(r.id, r.queue, r.kind, outcome)
  }

  ghost function ReturnedIds(rows: seq<Row>, selects: Row -> bool): seq<TaskId> {
    var touched := Positions(rows, selects, |rows|);
    Collect(rows, touched, IdOf(), |touched|)
  }

  /** What `recover_zombie_tasks` returns for a table. */
  ghost function SweepReport(rows: seq<Row>, now: Time): seq<RecoveredTask> {
    var retryable := Positions(rows, Retryable(now), |rows|);
    var exhausted := Positions(rows, Exhausted(now), |rows|);
    Collect(rows, retryable, ReportOf(WasRecovered), |retryable|) + Collect(rows, exhausted, ReportOf(WasFailed), |exhausted|)
  }
}
