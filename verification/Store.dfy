/** The repository's transactions as functions on the tables: for every
    statement, which rows its WHERE clause selects, what it writes to them and
    which audit rows the same transaction appends. */
module Store {
  import opened Wrappers
  import opened Domain
  import opened RowEvents

  datatype Db = Db(auditing: bool, rows: seq<Row>, audit: seq<AuditRow>)

  /** The state-changing statements, with their bind parameters. */
  datatype Statement =
    | ClaimTask(id: TaskId, worker: WorkerId, lease: Time)
    | CompleteTask(id: TaskId)
    | FailTask(id: TaskId, error: string, base: real, cap: real, jitter: real)
    | SuspendTask(id: TaskId)
    | SignalTask(id: TaskId, payload: Option<Json>)
    | CancelTask(id: TaskId)
    | WriteCheckpoint(id: TaskId, worker: WorkerId, data: Json)
    | ReleaseTask(id: TaskId)
    | ReleaseWorker(worker: WorkerId)
    | RecoverZombies
    | ExpireSuspended(timeout: Time)
    | CleanupKeys

  /** The event a statement causes on a row, if its WHERE clause selects the row. */
  function Fires(s: Statement, r: Row, now: Time): Option<Event> {
    match s
    case ClaimTask(id, worker, lease) =>
      if r.id == id && r.status.Pending? && r.scheduledAt <= now then Some(Claim(worker, lease)) else None
    case CompleteTask(id) =>
      if r.id == id && r.status.Running? then Some(Complete) else None
    case FailTask(id, error, base, cap, jitter) =>
      if !(r.id == id && r.status.Running?) then None
      else if r.attempts < r.maxAttempts then
        if BackoffOverflows(base, r.attempts) then None else Some(Retry(error, base, cap, jitter))
      else Some(GiveUp(error))
    case SuspendTask(id) =>
      if r.id == id && r.status.Running? then Some(Suspend) else None
    case SignalTask(id, payload) =>
      if r.id == id && r.status.Suspended? then Some(Signal(payload)) else None
    case CancelTask(id) =>
      if r.id == id && (r.status.Pending? || r.status.Suspended?) then Some(Cancel) else None
    case WriteCheckpoint(id, worker, data) =>
      if r.id == id && r.claimedBy == Some(worker) && r.status.Running? then Some(Checkpoint(worker, data)) else None
    case ReleaseTask(id) =>
      if r.id == id && r.status.Running? then Some(Release(None)) else None
    case ReleaseWorker(worker) =>
      if r.claimedBy == Some(worker) && r.status.Running? then Some(Release(Some(worker))) else None
    case RecoverZombies =>
      if !LeaseExpired(r, now) then None
      else if r.attempts < r.maxAttempts then Some(Recover) else Some(Exhaust)
    case ExpireSuspended(timeout) =>
      if r.status.Suspended? && SuspendedSince(r) < now - timeout then Some(Expire(timeout)) else None
    case CleanupKeys =>
      if r.idempotencyExpiresAt.Some? && r.idempotencyExpiresAt.value < now && Terminal(r.status)
         && r.idempotencyKey.Some? then Some(ForgetKey) else None
  }

  /** `0.75 + random() * 0.5` with random() in [0, 1). */
  predicate Drawn(s: Statement) {
    s.FailTask? ==> 0.75 <= s.jitter < 1.25
  }

  lemma FiresAllowed(s: Statement, r: Row, now: Time)
    requires Drawn(s)
    ensures Fires(s, r, now).Some? ==> Allowed(Fires(s, r, now).value, r, now)
  {
  }

  function After(s: Statement, r: Row, now: Time): Row {
    match Fires(s, r, now)
    case Some(e) => Apply(e, r, now)
    case None => r
  }

  /** `recover_zombie_tasks` inserts the audit rows of its second UPDATE after
      those of its first; every other statement makes one pass. */
  function Pass(e: Event): nat {
    if e.Exhaust? then 1 else 0
  }

  function EntryOf(s: Statement, r: Row, now: Time, pass: nat): seq<AuditRow> {
    match Fires(s, r, now)
    case None => []
    case Some(e) => if ChangesStatus(e) && Pass(e) == pass then [Audit(e, Apply(e, r, now))] else []
  }

  function RecordsUpTo(s: Statement, rows: seq<Row>, now: Time, pass: nat, n: nat): seq<AuditRow>
    requires n <= |rows|
  {
    if n == 0 then []
    else
      RecordsUpTo(s, rows, now, pass, n - 1) + EntryOf(s, rows[n - 1], now, pass)
  }

  function Records(s: Statement, rows: seq<Row>, now: Time): seq<AuditRow> {
    RecordsUpTo(s, rows, now, 0, |rows|) + RecordsUpTo(s, rows, now, 1, |rows|)
  }

  function UpdatedRows(s: Statement, rows: seq<Row>, now: Time): (rows': seq<Row>)
    ensures |rows'| == |rows|
  {
    seq(|rows|, i requires 0 <= i < |rows| => After(s, rows[i], now))
  }

  function Commit(db: Db, s: Statement, now: Time): Db {
    Db(db.auditing, UpdatedRows(s, db.rows, now),
       if db.auditing then db.audit + Records(s, db.rows, now) else db.audit)
  }

  // ---- inserts -------------------------------------------------------------

  predicate HasId(rows: seq<Row>, id: TaskId) {
    exists i :: 0 <= i < |rows| && rows[i].id == id
  }

  /** The first row at or after `from` that holds the key, or |rows|. */
  function FirstHolder(rows: seq<Row>, queue: string, key: string, from: nat): (i: nat)
    requires from <= |rows|
    ensures from <= i <= |rows|
    ensures i < |rows| ==> HoldsKey(rows[i], queue, key)
    ensures forall j :: from <= j < i ==> !HoldsKey(rows[j], queue, key)
    decreases |rows| - from
  {
    if from == |rows| || HoldsKey(rows[from], queue, key) then from
    else FirstHolder(rows, queue, key, from + 1)
  }

  /** INSERT leaves both timestamps to their column defaults. */
  function Inserted(record: Row, now: Time): Row {
    record.(createdAt := now, updatedAt := now)
  }

  function InsertRow(db: Db, record: Row, now: Time): Db {
    Db(db.auditing, db.rows + [Inserted(record, now)],
       if db.auditing then db.audit + [AuditRow(record.id, None, Pending, None, None, record.region)] else db.audit)
  }

  predicate KeyConflict(rows: seq<Row>, record: Row) {
    && record.idempotencyKey.Some?
    && !Terminal(record.status)
    && FirstHolder(rows, record.queue, record.idempotencyKey.value, 0) < |rows|
  }

  function Save(db: Db, record: Row, now: Time): (Db, Result<Row>) {
    if HasId(db.rows, record.id) then (db, Err(Storage(PrimaryKeyViolation)))
    else if KeyConflict(db.rows, record) then (db, Err(Storage(IdempotencyIndexViolation)))
    else (InsertRow(db, record, now), TryFrom(Inserted(record, now)))
  }

  datatype Submitted = Created(created: Row) | Existing(existing: Row)

  function SaveIdempotent(db: Db, record: Row, now: Time): (Db, Result<Submitted>) {
    if KeyConflict(db.rows, record) then
      var row := db.rows[FirstHolder(db.rows, record.queue, record.idempotencyKey.value, 0)];
      (db, if Maps(row) then Ok(Existing(row)) else Err(Storage(MappingFailed)))
    else if HasId(db.rows, record.id) then (db, Err(Storage(PrimaryKeyViolation)))
    else
      var row := Inserted(record, now);
      (InsertRow(db, record, now), if Maps(row) then Ok(Created(row)) else Err(Storage(MappingFailed)))
  }

  // ---- the claim subquery --------------------------------------------------

  predicate Eligible(r: Row, queue: string, region: Option<string>, now: Time) {
    && r.queue == queue
    && r.status.Pending?
    && r.scheduledAt <= now
    && (r.region.None? || (region.Some? && r.region == region))
  }

  /** ORDER BY priority DESC, scheduled_at ASC */
  predicate Precedes(a: Row, b: Row) {
    a.priority > b.priority || (a.priority == b.priority && a.scheduledAt < b.scheduledAt)
  }

  /** What FOR UPDATE SKIP LOCKED LIMIT 1 may return when the rows at the
      positions in `locked` are held by other transactions. */
  ghost predicate IsPick(rows: seq<Row>, queue: string, region: Option<string>, now: Time, locked: set<nat>,
                         pick: Option<nat>)
  {
    match pick
    case None => forall j: nat :: j < |rows| && j !in locked ==> !Eligible(rows[j], queue, region, now)
    case Some(i) =>
      && i < |rows| && i !in locked && Eligible(rows[i], queue, region, now)
      && forall j: nat :: j < |rows| && j !in locked && Eligible(rows[j], queue, region, now) ==> !Precedes(rows[j], rows[i])
  }

  // ---- table constraints ---------------------------------------------------

  ghost predicate UniqueIds(rows: seq<Row>) {
    forall i, j :: 0 <= i < j < |rows| ==> rows[i].id != rows[j].id
  }

  ghost predicate UniqueKeys(rows: seq<Row>) {
    forall i, j, queue, key :: 0 <= i < j < |rows| && HoldsKey(rows[i], queue, key) ==> !HoldsKey(rows[j], queue, key)
  }

  ghost predicate Consistent(rows: seq<Row>) {
    UniqueIds(rows) && UniqueKeys(rows)
  }

  lemma InsertConsistent(db: Db, record: Row, now: Time)
    requires Consistent(db.rows) && !HasId(db.rows, record.id) && !KeyConflict(db.rows, record)
    ensures Consistent(InsertRow(db, record, now).rows)
  {
  }

  /** No statement brings a row back to a non-terminal status or gives it a key. */
  lemma KeysNeverAppear(s: Statement, r: Row, now: Time, queue: string, key: string)
    requires HoldsKey(After(s, r, now), queue, key)
    ensures HoldsKey(r, queue, key)
  {
  }

  lemma CommitConsistent(db: Db, s: Statement, now: Time)
    requires Consistent(db.rows)
    ensures Consistent(Commit(db, s, now).rows)
  {
    var rows' := Commit(db, s, now).rows;
    assert forall i :: 0 <= i < |rows'| ==> rows'[i].id == db.rows[i].id;
    forall i, j, queue, key | 0 <= i < j < |rows'| && HoldsKey(rows'[i], queue, key)
      ensures !HoldsKey(rows'[j], queue, key)
    {
      KeysNeverAppear(s, db.rows[i], now, queue, key);
      if HoldsKey(rows'[j], queue, key) {
        KeysNeverAppear(s, db.rows[j], now, queue, key);
      }
    }
  }

  /** A conflict on the key always finds its row, so the NotInExpectedState
      answer of a conflicting insert cannot occur in an atomic transaction. */
  lemma ConflictFindsRow(db: Db, record: Row, now: Time)
    requires KeyConflict(db.rows, record)
    ensures SaveIdempotent(db, record, now).0 == db
    ensures exists i :: 0 <= i < |db.rows| && HoldsKey(db.rows[i], record.queue, record.idempotencyKey.value)
              && SaveIdempotent(db, record, now).1
                 == if Maps(db.rows[i]) then Ok(Existing(db.rows[i])) else Err(Storage(MappingFailed))
  {
    var i := FirstHolder(db.rows, record.queue, record.idempotencyKey.value, 0);
    assert HoldsKey(db.rows[i], record.queue, record.idempotencyKey.value);
  }
}
