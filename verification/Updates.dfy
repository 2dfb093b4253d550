/** How a statement acts on the whole table: statements that name a task select
    one row, the others select by a condition on each row. */
module Updates {
  import opened Wrappers
  import opened Domain
  import opened RowEvents
  import opened Store

  // ---- entries row by row --------------------------------------------------

  function Concat(entries: Row -> seq<AuditRow>, rows: seq<Row>, n: nat): seq<AuditRow>
    requires n <= |rows|
  {
    if n == 0 then [] else Concat(entries, rows, n - 1) + entries(rows[n - 1])
  }

  lemma {:induction false} ConcatOne(entries: Row -> seq<AuditRow>, rows: seq<Row>, n: nat, i: nat)
    requires n <= |rows| && i < |rows|
    requires forall j :: 0 <= j < |rows| && j != i ==> entries(rows[j]) == []
    ensures Concat(entries, rows, n) == if i < n then entries(rows[i]) else []
  {
    if n > 0 {
      ConcatOne(entries, rows, n - 1, i);
      assert n - 1 == i ==> Concat(entries, rows, n) == [] + entries(rows[i]);
      assert n - 1 != i ==> Concat(entries, rows, n) == Concat(entries, rows, n - 1) + [];
    }
  }

  lemma {:induction false} ConcatNone(entries: Row -> seq<AuditRow>, rows: seq<Row>, n: nat)
    requires n <= |rows| && forall j :: 0 <= j < |rows| ==> entries(rows[j]) == []
    ensures Concat(entries, rows, n) == []
  {
    if n > 0 {
      ConcatNone(entries, rows, n - 1);
    }
  }

  lemma {:induction false} RecordsAreConcat(s: Statement, rows: seq<Row>, now: Time, pass: nat, n: nat)
    requires n <= |rows|
    ensures RecordsUpTo(s, rows, now, pass, n) == Concat((r: Row) => EntryOf(s, r, now, pass), rows, n)
  {
    if n > 0 {
      RecordsAreConcat(s, rows, now, pass, n - 1);
    }
  }

  // ---- statements that name one task ---------------------------------------

  ghost predicate Names(s: Statement, id: TaskId) {
    forall r, now :: Fires(s, r, now).Some? ==> r.id == id
  }

  lemma OneRecord(s: Statement, rows: seq<Row>, now: Time, pass: nat, i: nat)
    requires i < |rows| && forall j :: 0 <= j < |rows| && j != i ==> Fires(s, rows[j], now).None?
    ensures RecordsUpTo(s, rows, now, pass, |rows|) == EntryOf(s, rows[i], now, pass)
  {
    RecordsAreConcat(s, rows, now, pass, |rows|);
    ConcatOne((r: Row) => EntryOf(s, r, now, pass), rows, |rows|, i);
  }

  lemma OthersAreUnnamed(s: Statement, rows: seq<Row>, now: Time, i: nat)
    requires UniqueIds(rows) && i < |rows| && Names(s, rows[i].id)
    ensures forall j :: 0 <= j < |rows| && j != i ==> Fires(s, rows[j], now).None?
  {
    assert forall j :: 0 <= j < |rows| && j != i ==> rows[j].id != rows[i].id;
  }

  lemma OneRow(s: Statement, rows: seq<Row>, now: Time, i: nat)
    requires i < |rows| && forall j :: 0 <= j < |rows| && j != i ==> Fires(s, rows[j], now).None?
    ensures UpdatedRows(s, rows, now) == rows[i := After(s, rows[i], now)]
  {
  }

  /** The audit row an event leaves, whichever pass it belongs to. */
  function Entries(s: Statement, r: Row, now: Time): seq<AuditRow> {
    match Fires(s, r, now)
    case None => []
    case Some(e) => if ChangesStatus(e) then [Audit(e, Apply(e, r, now))] else []
  }

  lemma OneOfTwoPasses(s: Statement, r: Row, now: Time)
    ensures EntryOf(s, r, now, 0) + EntryOf(s, r, now, 1) == Entries(s, r, now)
  {
  }

  /** A statement that names a task selects its row alone. */
  lemma CommitOne(db: Db, s: Statement, now: Time, i: nat)
    requires UniqueIds(db.rows) && i < |db.rows| && Names(s, db.rows[i].id)
    ensures Commit(db, s, now)
            == Db(db.auditing, db.rows[i := After(s, db.rows[i], now)],
                  if db.auditing then db.audit + Entries(s, db.rows[i], now) else db.audit)
  {
    OthersAreUnnamed(s, db.rows, now, i);
    OneRecord(s, db.rows, now, 0, i);
    OneRecord(s, db.rows, now, 1, i);
    OneOfTwoPasses(s, db.rows[i], now);
    OneRow(s, db.rows, now, i);
  }

  lemma CommitNone(db: Db, s: Statement, now: Time)
    requires forall j :: 0 <= j < |db.rows| ==> Fires(s, db.rows[j], now).None?
    ensures Commit(db, s, now) == db
  {
    NothingRecorded(s, db.rows, now, 0);
    NothingRecorded(s, db.rows, now, 1);
    assert UpdatedRows(s, db.rows, now) == db.rows;
  }

  // ---- statements that select many rows ------------------------------------

  /** The positions an UPDATE returns, in table order. */
  function Positions(rows: seq<Row>, selects: Row -> bool, n: nat): (touched: seq<nat>)
    requires n <= |rows|
    ensures forall k :: 0 <= k < |touched| ==> touched[k] < n
  {
    if n == 0 then []
    else Positions(rows, selects, n - 1) + if selects(rows[n - 1]) then [n - 1] else []
  }

  /** The list holds each selected position exactly once and no other. */
  lemma {:induction false} PositionsAreSelected(rows: seq<Row>, selects: Row -> bool, n: nat)
    requires n <= |rows|
    ensures forall p :: p in Positions(rows, selects, n) <==> 0 <= p < n && selects(rows[p])
    ensures forall a, b :: 0 <= a < b < |Positions(rows, selects, n)|
              ==> Positions(rows, selects, n)[a] < Positions(rows, selects, n)[b]
  {
    if n > 0 {
      PositionsAreSelected(rows, selects, n - 1);
      var before := Positions(rows, selects, n - 1);
      if selects(rows[n - 1]) {
        assert Positions(rows, selects, n) == before + [n - 1];
        assert forall p :: p in before + [n - 1] <==> p in before || p == n - 1;
      } else {
        assert Positions(rows, selects, n) == before;
      }
    }
  }

  function Rewritten(r: Row, selects: Row -> bool, update: Row -> Row): Row {
    if selects(r) then update(r) else r
  }

  /** What a loop over the first n returned rows collects. */
  function Collect<T>(rows: seq<Row>, touched: seq<nat>, f: Row -> T, n: nat): seq<T>
    requires n <= |touched| && forall k :: 0 <= k < |touched| ==> touched[k] < |rows|
  {
    if n == 0 then [] else Collect(rows, touched, f, n - 1) + [f(rows[touched[n - 1]])]
  }

  lemma {:induction false} CollectPrefix<T>(rows: seq<Row>, touched: seq<nat>, more: seq<nat>, f: Row -> T, n: nat)
    requires n <= |touched| && forall k :: 0 <= k < |touched + more| ==> (touched + more)[k] < |rows|
    ensures forall k :: 0 <= k < |touched| ==> touched[k] < |rows|
    ensures Collect(rows, touched + more, f, n) == Collect(rows, touched, f, n)
  {
    assert forall k :: 0 <= k < |touched| ==> touched[k] == (touched + more)[k];
    if n > 0 {
      CollectPrefix(rows, touched, more, f, n - 1);
    }
  }

  lemma CollectOneMore<T>(rows: seq<Row>, before: seq<nat>, p: nat, f: Row -> T)
    requires p < |rows| && forall k :: 0 <= k < |before| ==> before[k] < |rows|
    ensures Collect(rows, before + [p], f, |before| + 1) == Collect(rows, before, f, |before|) + [f(rows[p])]
  {
    CollectPrefix(rows, before, [p], f, |before|);
  }

  lemma {:induction false} EntriesAreCollected(entries: Row -> seq<AuditRow>, rows: seq<Row>, n: nat,
                                               selects: Row -> bool, entry: Row -> AuditRow)
    requires n <= |rows|
    requires forall p :: 0 <= p < |rows| ==> entries(rows[p]) == if selects(rows[p]) then [entry(rows[p])] else []
    ensures var touched := Positions(rows, selects, n);
            Concat(entries, rows, n) == Collect(rows, touched, entry, |touched|)
  {
    if n > 0 {
      EntriesAreCollected(entries, rows, n - 1, selects, entry);
      var before := Positions(rows, selects, n - 1);
      if selects(rows[n - 1]) {
        CollectOneMore(rows, before, n - 1, entry);
        assert Positions(rows, selects, n) == before + [n - 1];
      } else {
        assert Positions(rows, selects, n) == before;
      }
    }
  }

  lemma RecordsAreCollected(s: Statement, rows: seq<Row>, now: Time, pass: nat,
                            selects: Row -> bool, entry: Row -> AuditRow)
    requires forall p :: 0 <= p < |rows| ==>
               EntryOf(s, rows[p], now, pass) == if selects(rows[p]) then [entry(rows[p])] else []
    ensures var touched := Positions(rows, selects, |rows|);
            RecordsUpTo(s, rows, now, pass, |rows|) == Collect(rows, touched, entry, |touched|)
  {
    RecordsAreConcat(s, rows, now, pass, |rows|);
    EntriesAreCollected((r: Row) => EntryOf(s, r, now, pass), rows, |rows|, selects, entry);
  }

  lemma NothingRecorded(s: Statement, rows: seq<Row>, now: Time, pass: nat)
    requires forall p :: 0 <= p < |rows| ==> EntryOf(s, rows[p], now, pass) == []
    ensures RecordsUpTo(s, rows, now, pass, |rows|) == []
  {
    RecordsAreConcat(s, rows, now, pass, |rows|);
    ConcatNone((r: Row) => EntryOf(s, r, now, pass), rows, |rows|);
  }

  // ---- answers -------------------------------------------------------------

  function FirstFired(s: Statement, rows: seq<Row>, now: Time, from: nat): (i: nat)
    requires from <= |rows|
    ensures from <= i <= |rows|
    ensures i < |rows| ==> Fires(s, rows[i], now).Some?
    ensures forall j :: from <= j < i ==> Fires(s, rows[j], now).None?
    decreases |rows| - from
  {
    if from == |rows| || Fires(s, rows[from], now).Some? then from else FirstFired(s, rows, now, from + 1)
  }

  /** The mapped RETURNING row, or the given error when no row was selected. */
  function Answer(s: Statement, rows: seq<Row>, now: Time, otherwise: TaskError): Result<Row> {
    var i := FirstFired(s, rows, now, 0);
    if i < |rows| then TryFrom(After(s, rows[i], now)) else Err(otherwise)
  }

  ghost predicate OverflowsBackoff(rows: seq<Row>, id: TaskId, base: real) {
    exists j :: 0 <= j < |rows| && rows[j].id == id && rows[j].status.Running?
      && rows[j].attempts < rows[j].maxAttempts && BackoffOverflows(base, rows[j].attempts)
  }

  predicate NamesTask(s: Statement) {
    !s.ReleaseWorker? && !s.RecoverZombies? && !s.ExpireSuspended? && !s.CleanupKeys?
  }

  lemma TaskIsNamed(s: Statement)
    requires NamesTask(s)
    ensures Names(s, s.id)
  {
  }

  lemma Selected(db: Db, s: Statement, now: Time, i: nat)
    requires UniqueIds(db.rows) && i < |db.rows| && NamesTask(s) && s.id == db.rows[i].id
    requires Fires(s, db.rows[i], now).Some?
    ensures FirstFired(s, db.rows, now, 0) == i
    ensures Commit(db, s, now)
            == Db(db.auditing, db.rows[i := After(s, db.rows[i], now)],
                  if db.auditing then db.audit + Entries(s, db.rows[i], now) else db.audit)
  {
    TaskIsNamed(s);
    OthersAreUnnamed(s, db.rows, now, i);
    CommitOne(db, s, now, i);
  }

  /** The row at i is the only one the statement could have selected. */
  lemma Unselected(db: Db, s: Statement, now: Time, i: nat)
    requires UniqueIds(db.rows) && NamesTask(s) && i <= |db.rows|
    requires if i == |db.rows| then forall j :: 0 <= j < |db.rows| ==> db.rows[j].id != s.id
             else db.rows[i].id == s.id && Fires(s, db.rows[i], now).None?
    ensures Commit(db, s, now) == db && FirstFired(s, db.rows, now, 0) == |db.rows|
  {
    TaskIsNamed(s);
    if i < |db.rows| {
      OthersAreUnnamed(s, db.rows, now, i);
    }
    CommitNone(db, s, now);
  }

  // ---- the bulk statements -------------------------------------------------

  /** What a bulk statement leaves: rewritten rows, and one audit row for each
      position of each pass, in order. */
  function Rewrite(rows: seq<Row>, selects: Row -> bool, update: Row -> Row): (rows': seq<Row>)
    ensures |rows'| == |rows|
  {
    seq(|rows|, i requires 0 <= i < |rows| => Rewritten(rows[i], selects, update))
  }

  ghost predicate OnePass(s: Statement, r: Row, now: Time, selects: Row -> bool, update: Row -> Row, entry: Row -> AuditRow) {
    && After(s, r, now) == Rewritten(r, selects, update)
    && EntryOf(s, r, now, 0) == (if selects(r) then [entry(r)] else [])
    && EntryOf(s, r, now, 1) == []
  }

  lemma OnePassWrites(s: Statement, rows: seq<Row>, now: Time, selects: Row -> bool, update: Row -> Row,
                      entry: Row -> AuditRow)
    requires forall p :: 0 <= p < |rows| ==> OnePass(s, rows[p], now, selects, update, entry)
    ensures var touched := Positions(rows, selects, |rows|);
            && UpdatedRows(s, rows, now) == Rewrite(rows, selects, update)
            && Records(s, rows, now) == Collect(rows, touched, entry, |touched|)
  {
    RecordsAreCollected(s, rows, now, 0, selects, entry);
    NothingRecorded(s, rows, now, 1);
  }

  function Held(worker: WorkerId): Row -> bool {
    (r: Row) => r.claimedBy == Some(worker) && r.status == Running
  }

  function Freed(now: Time): Row -> Row {
    (r: Row) => r.(status := Pending, claimedBy := None, claimedUntil := None, scheduledAt := now, updatedAt := now,
            attempts := r.attempts + 1)
  }

  function FreedEntry(worker: WorkerId): Row -> AuditRow {
    (r: Row) => AuditRow(r.id, Some(Running), Pending, Some(worker), Some(LEASE_RELEASED), None)
  }

  lemma ReleaseRow(r: Row, worker: WorkerId, now: Time)
    ensures OnePass(ReleaseWorker(worker), r, now, Held(worker), Freed(now), FreedEntry(worker))
  {
  }

  lemma ReleaseWorkerWrites(rows: seq<Row>, worker: WorkerId, now: Time)
    ensures var touched := Positions(rows, Held(worker), |rows|);
            && UpdatedRows(ReleaseWorker(worker), rows, now) == Rewrite(rows, Held(worker), Freed(now))
            && Records(ReleaseWorker(worker), rows, now) == Collect(rows, touched, FreedEntry(worker), |touched|)
  {
    forall p | 0 <= p < |rows|
      ensures OnePass(ReleaseWorker(worker), rows[p], now, Held(worker), Freed(now), FreedEntry(worker))
    {
      ReleaseRow(rows[p], worker, now);
    }
    OnePassWrites(ReleaseWorker(worker), rows, now, Held(worker), Freed(now), FreedEntry(worker));
  }

  function Overdue(timeout: Time, now: Time): Row -> bool {
    (r: Row) => r.status == Suspended && SuspendedSince(r) < now - timeout
  }

  function TimedOut(now: Time): Row -> Row {
    (r: Row) => r.(status := Failed, lastError := Some(SUSPEND_TIMEOUT), updatedAt := now)
  }

  function TimedOutEntry(): Row -> AuditRow {
    (r: Row) => AuditRow(r.id, Some(Suspended), Failed, None, Some(SUSPEND_TIMEOUT), None)
  }

  lemma ExpireRow(r: Row, timeout: Time, now: Time)
    ensures OnePass(ExpireSuspended(timeout), r, now, Overdue(timeout, now), TimedOut(now), TimedOutEntry())
  {
  }

  lemma ExpireSuspendedWrites(rows: seq<Row>, timeout: Time, now: Time)
    ensures var touched := Positions(rows, Overdue(timeout, now), |rows|);
            && UpdatedRows(ExpireSuspended(timeout), rows, now) == Rewrite(rows, Overdue(timeout, now), TimedOut(now))
            && Records(ExpireSuspended(timeout), rows, now) == Collect(rows, touched, TimedOutEntry(), |touched|)
  {
    forall p | 0 <= p < |rows|
      ensures OnePass(ExpireSuspended(timeout), rows[p], now, Overdue(timeout, now), TimedOut(now), TimedOutEntry())
    {
      ExpireRow(rows[p], timeout, now);
    }
    OnePassWrites(ExpireSuspended(timeout), rows, now, Overdue(timeout, now), TimedOut(now), TimedOutEntry());
  }

  function KeyExpired(now: Time): Row -> bool {
    (r: Row) =>
      && r.idempotencyExpiresAt.Some? && r.idempotencyExpiresAt.value < now
      && Terminal(r.status) && r.idempotencyKey.Some?
  }

  function Keyless(now: Time): Row -> Row {
    (r: Row) => r.(idempotencyKey := None, idempotencyExpiresAt := None, updatedAt := now)
  }

  lemma CleanupKeysWrites(rows: seq<Row>, now: Time)
    ensures UpdatedRows(CleanupKeys, rows, now) == Rewrite(rows, KeyExpired(now), Keyless(now))
    ensures Records(CleanupKeys, rows, now) == []
  {
    NothingRecorded(CleanupKeys, rows, now, 0);
    NothingRecorded(CleanupKeys, rows, now, 1);
  }

  function Retryable(now: Time): Row -> bool {
    (r: Row) => LeaseExpired(r, now) && r.attempts < r.maxAttempts
  }

  function Requeued(now: Time): Row -> Row {
    (r: Row) => r.(status := Pending, claimedBy := None, claimedUntil := None, scheduledAt := now, updatedAt := now)
  }

  function RequeuedEntry(): Row -> AuditRow {
    (r: Row) => AuditRow(r.id, Some(Running), Pending, None, None, r.region)
  }

  function Exhausted(now: Time): Row -> bool {
    (r: Row) => LeaseExpired(r, now) && r.attempts >= r.maxAttempts
  }

  function Abandoned(now: Time): Row -> Row {
    (r: Row) => r.(status := Failed, lastError := Some(LEASE_EXPIRED), updatedAt := now)
  }

  function AbandonedEntry(): Row -> AuditRow {
    (r: Row) => AuditRow(r.id, Some(Running), Failed, None, Some(LEASE_EXPIRED), r.region)
  }

  lemma {:induction false} SamePositions(rows: seq<Row>, others: seq<Row>, selects: Row -> bool, n: nat)
    requires n <= |rows| == |others|
    requires forall p :: 0 <= p < |rows| ==> selects(rows[p]) == selects(others[p])
    ensures Positions(rows, selects, n) == Positions(others, selects, n)
  {
    if n > 0 {
      SamePositions(rows, others, selects, n - 1);
    }
  }

  lemma RecoverZombiesRow(r: Row, now: Time)
    ensures var between := Rewritten(r, Retryable(now), Requeued(now));
            && After(RecoverZombies, r, now) == Rewritten(between, Exhausted(now), Abandoned(now))
            && Exhausted(now)(between) == Exhausted(now)(r)
  {
  }

  /** The second UPDATE of `recover_zombie_tasks` reads what the first wrote. */
  lemma RecoverZombiesRows(rows: seq<Row>, now: Time)
    ensures UpdatedRows(RecoverZombies, rows, now)
            == Rewrite(Rewrite(rows, Retryable(now), Requeued(now)), Exhausted(now), Abandoned(now))
    ensures Positions(rows, Exhausted(now), |rows|)
            == Positions(Rewrite(rows, Retryable(now), Requeued(now)), Exhausted(now), |rows|)
  {
    var between := Rewrite(rows, Retryable(now), Requeued(now));
    forall i | 0 <= i < |rows|
      ensures UpdatedRows(RecoverZombies, rows, now)[i] == Rewrite(between, Exhausted(now), Abandoned(now))[i]
      ensures Exhausted(now)(rows[i]) == Exhausted(now)(between[i])
    {
      RecoverZombiesRow(rows[i], now);
    }
    SamePositions(rows, between, Exhausted(now), |rows|);
  }

  lemma RecoverZombiesEntry(r: Row, now: Time)
    ensures EntryOf(RecoverZombies, r, now, 0) == if Retryable(now)(r) then [RequeuedEntry()(r)] else []
    ensures EntryOf(RecoverZombies, r, now, 1) == if Exhausted(now)(r) then [AbandonedEntry()(r)] else []
  {
  }

  lemma RecoverZombiesRecords(rows: seq<Row>, now: Time)
    ensures var retryable := Positions(rows, Retryable(now), |rows|);
            var exhausted := Positions(rows, Exhausted(now), |rows|);
            Records(RecoverZombies, rows, now) == Collect(rows, retryable, RequeuedEntry(), |retryable|)
                                                + Collect(rows, exhausted, AbandonedEntry(), |exhausted|)
  {
    forall p | 0 <= p < |rows|
      ensures EntryOf(RecoverZombies, rows[p], now, 0) == if Retryable(now)(rows[p]) then [RequeuedEntry()(rows[p])] else []
      ensures EntryOf(RecoverZombies, rows[p], now, 1) == if Exhausted(now)(rows[p]) then [AbandonedEntry()(rows[p])] else []
    {
      RecoverZombiesEntry(rows[p], now);
    }
    RecordsAreCollected(RecoverZombies, rows, now, 0, Retryable(now), RequeuedEntry());
    RecordsAreCollected(RecoverZombies, rows, now, 1, Exhausted(now), AbandonedEntry());
  }

  lemma RecoverZombiesWrites(db: Db, now: Time)
    ensures var retryable := Positions(db.rows, Retryable(now), |db.rows|);
            var exhausted := Positions(db.rows, Exhausted(now), |db.rows|);
            Commit(db, RecoverZombies, now)
            == Db(db.auditing, Rewrite(Rewrite(db.rows, Retryable(now), Requeued(now)), Exhausted(now), Abandoned(now)),
                  if db.auditing then db.audit + (Collect(db.rows, retryable, RequeuedEntry(), |retryable|)
                                                  + Collect(db.rows, exhausted, AbandonedEntry(), |exhausted|))
                  else db.audit)
  {
    RecoverZombiesRows(db.rows, now);
    RecoverZombiesRecords(db.rows, now);
  }
}
