/** `SweeperService`: the sweep cycle, its report and the counts built from it. */
module Sweeper {
  import opened Wrappers
  import opened Domain
  import opened RowEvents
  import opened Store
  import opened Updates
  import opened TaskRepository

  // ---- the report ----------------------------------------------------------

  lemma {:induction false} CollectAt<T>(rows: seq<Row>, touched: seq<nat>, f: Row -> T, n: nat, k: nat)
    requires k < n <= |touched| && forall j :: 0 <= j < |touched| ==> touched[j] < |rows|
    ensures |Collect(rows, touched, f, n)| == n && Collect(rows, touched, f, n)[k] == f(rows[touched[k]])
  {
    CollectLength(rows, touched, f, n);
    CollectLength(rows, touched, f, n - 1);
    if k < n - 1 {
      CollectAt(rows, touched, f, n - 1, k);
    }
  }

  lemma {:induction false} CollectLength<T>(rows: seq<Row>, touched: seq<nat>, f: Row -> T, n: nat)
    requires n <= |touched| && forall j :: 0 <= j < |touched| ==> touched[j] < |rows|
    ensures |Collect(rows, touched, f, n)| == n
  {
    if n > 0 {
      CollectLength(rows, touched, f, n - 1);
    }
  }

  /** The positions that the k-th entry of the report is about. */
  ghost function Reported(rows: seq<Row>, now: Time): (touched: seq<nat>)
    ensures forall k :: 0 <= k < |touched| ==> touched[k] < |rows|
  {
    Positions(rows, Retryable(now), |rows|) + Positions(rows, Exhausted(now), |rows|)
  }

  lemma ReportEntry(rows: seq<Row>, now: Time, k: nat)
    requires k < |Reported(rows, now)|
    ensures |SweepReport(rows, now)| == |Reported(rows, now)|
    ensures var r := rows[Reported(rows, now)[k]];
            && LeaseExpired(r, now)
            && SweepReport(rows, now)[k]
               == RecoveredTask(r.id, r.queue, r.kind, if r.attempts < r.maxAttempts then WasRecovered else WasFailed)
  {
    var retryable, exhausted := Positions(rows, Retryable(now), |rows|), Positions(rows, Exhausted(now), |rows|);
    CollectLength(rows, retryable, ReportOf(WasRecovered), |retryable|);
    CollectLength(rows, exhausted, ReportOf(WasFailed), |exhausted|);
    PositionsAreSelected(rows, Retryable(now), |rows|);
    PositionsAreSelected(rows, Exhausted(now), |rows|);
    if k < |retryable| {
      CollectAt(rows, retryable, ReportOf(WasRecovered), |retryable|, k);
      assert retryable[k] in retryable;
    } else {
      CollectAt(rows, exhausted, ReportOf(WasFailed), |exhausted|, k - |retryable|);
      assert exhausted[k - |retryable|] in exhausted;
    }
  }

  /** The report names each expired row once. */
  lemma ReportedOnce(rows: seq<Row>, now: Time)
    ensures forall k, l :: 0 <= k < l < |Reported(rows, now)| ==> Reported(rows, now)[k] != Reported(rows, now)[l]
    ensures forall i :: 0 <= i < |rows| ==> (i in Reported(rows, now) <==> LeaseExpired(rows[i], now))
  {
    var retryable, exhausted := Positions(rows, Retryable(now), |rows|), Positions(rows, Exhausted(now), |rows|);
    PositionsAreSelected(rows, Retryable(now), |rows|);
    PositionsAreSelected(rows, Exhausted(now), |rows|);
    forall k, l | 0 <= k < l < |Reported(rows, now)| ensures Reported(rows, now)[k] != Reported(rows, now)[l] {
      if k < |retryable| <= l {
        assert retryable[k] in retryable && exhausted[l - |retryable|] in exhausted;
      }
    }
  }

  lemma SweptRow(r: Row, now: Time)
    ensures var r' := After(RecoverZombies, r, now);
            && !LeaseExpired(r', now)
            && (r' != r <==> LeaseExpired(r, now))
            && (LeaseExpired(r, now) ==>
                  r'.status == (if r.attempts < r.maxAttempts then Pending else Failed) && r'.attempts == r.attempts)
  {
  }

  /** One sweep leaves no expired lease, changes exactly the rows whose lease had
      expired, and reports each of these once, with what became of it. */
  lemma SweepIsExact(rows: seq<Row>, now: Time, i: nat)
    requires i < |rows|
    ensures var rows' := UpdatedRows(RecoverZombies, rows, now);
            && !LeaseExpired(rows'[i], now)
            && (rows'[i] != rows[i] <==> LeaseExpired(rows[i], now))
            && (LeaseExpired(rows[i], now) <==>
                  exists k :: 0 <= k < |Reported(rows, now)| && Reported(rows, now)[k] == i)
            && (forall k, l :: 0 <= k < l < |Reported(rows, now)| ==> Reported(rows, now)[k] != Reported(rows, now)[l])
            && |SweepReport(rows, now)| == |Reported(rows, now)|
            && (forall k :: 0 <= k < |Reported(rows, now)| && Reported(rows, now)[k] == i ==>
                  SweepReport(rows, now)[k]
                  == RecoveredTask(rows[i].id, rows[i].queue, rows[i].kind,
                                   if rows'[i].status.Pending? then WasRecovered else WasFailed))
  {
    SweptRow(rows[i], now);
    ReportedOnce(rows, now);
    forall k | 0 <= k < |Reported(rows, now)|
      ensures |SweepReport(rows, now)| == |Reported(rows, now)|
      ensures var r := rows[Reported(rows, now)[k]];
              SweepReport(rows, now)[k]
              == RecoveredTask(r.id, r.queue, r.kind, if r.attempts < r.maxAttempts then WasRecovered else WasFailed)
    {
      ReportEntry(rows, now, k);
    }
    var retryable, exhausted := Positions(rows, Retryable(now), |rows|), Positions(rows, Exhausted(now), |rows|);
    CollectLength(rows, retryable, ReportOf(WasRecovered), |retryable|);
    CollectLength(rows, exhausted, ReportOf(WasFailed), |exhausted|);
  }

  // ---- the counts ----------------------------------------------------------

  function InQueue(results: seq<RecoveredTask>, queue: string, n: nat): nat
    requires n <= |results|
  {
    if n == 0 then 0 else InQueue(results, queue, n - 1) + if results[n - 1].queue == queue then 1 else 0
  }

  function FailedOf(results: seq<RecoveredTask>, key: (string, string), n: nat): nat
    requires n <= |results|
  {
    if n == 0 then 0
    else FailedOf(results, key, n - 1)
         + if results[n - 1].outcome.WasFailed? && (results[n - 1].queue, results[n - 1].kind) == key then 1 else 0
  }

  function Failures(results: seq<RecoveredTask>, n: nat): nat
    requires n <= |results|
  {
    if n == 0 then 0 else Failures(results, n - 1) + if results[n - 1].outcome.WasFailed? then 1 else 0
  }

  ghost function Total<K>(m: map<K, nat>): nat
    decreases |m|
  {
    if m == map[] then 0
    else
      var k :| k in m;
      m[k] + Total(m - {k})
  }

  lemma {:induction false} TotalSplit<K>(m: map<K, nat>, k: K)
    requires k in m
    ensures Total(m) == m[k] + Total(m - {k})
    decreases |m|
  {
    var first :| first in m && Total(m) == m[first] + Total(m - {first});
    if first != k {
      TotalSplit(m - {first}, k);
      TotalSplit(m - {k}, first);
      assert m - {first} - {k} == m - {k} - {first};
    }
  }

  /** `*entry(k).or_default() += 1` */
  function Bumped<K>(m: map<K, nat>, k: K): map<K, nat> {
    m[k := (if k in m then m[k] else 0) + 1]
  }

  lemma BumpAddsOne<K>(m: map<K, nat>, k: K)
    ensures Total(Bumped(m, k)) == Total(m) + 1
  {
    TotalSplit(Bumped(m, k), k);
    if k in m {
      TotalSplit(m, k);
      assert Bumped(m, k) - {k} == m - {k};
    } else {
      assert Bumped(m, k) - {k} == m;
    }
  }

  function Count<K>(m: map<K, nat>, k: K): nat {
    if k in m then m[k] else 0
  }

  /** The first n entries, counted by queue; absent keys have no entries. */
  ghost predicate CountsQueues(m: map<string, nat>, results: seq<RecoveredTask>, n: nat)
    requires n <= |results|
  {
    && (forall queue :: InQueue(results, queue, n) == Count(m, queue))
    && (forall queue :: queue in m ==> m[queue] > 0)
    && Total(m) == n
  }

  /** The failed ones among the first n entries, counted by queue and kind. */
  ghost predicate CountsFailures(m: map<(string, string), nat>, results: seq<RecoveredTask>, n: nat)
    requires n <= |results|
  {
    && (forall key :: FailedOf(results, key, n) == Count(m, key))
    && (forall key :: key in m ==> m[key] > 0)
    && Total(m) == Failures(results, n)
  }

  lemma BumpCountsQueue(m: map<string, nat>, results: seq<RecoveredTask>, n: nat)
    requires n < |results| && CountsQueues(m, results, n)
    ensures CountsQueues(Bumped(m, results[n].queue), results, n + 1)
  {
    var m' := Bumped(m, results[n].queue);
    BumpAddsOne(m, results[n].queue);
    forall queue ensures InQueue(results, queue, n + 1) == Count(m', queue) {
      assert InQueue(results, queue, n) == Count(m, queue);
    }
  }

  lemma BumpCountsFailure(m: map<(string, string), nat>, results: seq<RecoveredTask>, n: nat)
    requires n < |results| && CountsFailures(m, results, n)
    ensures CountsFailures(if results[n].outcome.WasFailed? then Bumped(m, (results[n].queue, results[n].kind)) else m,
                           results, n + 1)
  {
    var task := results[n];
    var m' := if task.outcome.WasFailed? then Bumped(m, (task.queue, task.kind)) else m;
    BumpAddsOne(m, (task.queue, task.kind));
    forall key ensures FailedOf(results, key, n + 1) == Count(m', key) {
      assert FailedOf(results, key, n) == Count(m, key);
    }
  }

  /** The grouping loop of `emit_per_queue_metrics`: each count is the
      multiplicity of its key in the report, keys without entries are absent,
      and the counts add up to the report and to its failed entries. */
  method EmitPerQueueMetrics(results: seq<RecoveredTask>)
    returns (recoveries: map<string, nat>, failures: map<(string, string), nat>)
    ensures CountsQueues(recoveries, results, |results|)
    ensures CountsFailures(failures, results, |results|)
  {
    recoveries, failures := map[], map[];
    for n := 0 to |results|
      invariant CountsQueues(recoveries, results, n)
      invariant CountsFailures(failures, results, n)
    {
      var task := results[n];
      BumpCountsQueue(recoveries, results, n);
      BumpCountsFailure(failures, results, n);
      recoveries := recoveries[task.queue := (if task.queue in recoveries then recoveries[task.queue] else 0) + 1];
      if task.outcome.WasFailed? {
        var key := (task.queue, task.kind);
        failures := failures[key := (if key in failures then failures[key] else 0) + 1];
      }
    }
  }

  // ---- the cycle -----------------------------------------------------------

  /** One tick: when each of its three calls reaches the database, if it does. */
  datatype Tick = Tick(recovers: Option<Time>, cleans: Option<Time>, expires: Option<Time>)

  function SweepOnce(db: Db, t: Tick, timeout: Time): Db {
    var recovered := if t.recovers.Some? then Commit(db, RecoverZombies, t.recovers.value) else db;
    var cleaned := if t.cleans.Some? then Commit(recovered, CleanupKeys, t.cleans.value) else recovered;
    if t.expires.Some? then Commit(cleaned, ExpireSuspended(timeout), t.expires.value) else cleaned
  }

  predicate IsFull(t: Tick) {
    t.recovers.Some? && t.cleans.Some? && t.expires.Some?
  }

  /** Nothing is left of what was due when each call was made. */
  predicate CaughtUp(rows: seq<Row>, t: Tick, timeout: Time)
    requires IsFull(t)
  {
    forall i :: 0 <= i < |rows| ==> !LeaseExpired(rows[i], t.recovers.value) && !Overdue(timeout, t.expires.value)(rows[i])
  }

  function SweepAll(db: Db, ticks: seq<Tick>, timeout: Time, n: nat): Db
    requires n <= |ticks|
  {
    if n == 0 then db else SweepOnce(SweepAll(db, ticks, timeout, n - 1), ticks[n - 1], timeout)
  }

  /** `run` until its token is cancelled: a call that fails is skipped, and does
      not keep the cycle from making the next one. */
  method Run(repo: PostgresTaskRepository, ticks: seq<Tick>, timeout: Time)
    requires repo.Valid()
    modifies repo
    ensures repo.Valid() && repo.Contents() == SweepAll(old(repo.Contents()), ticks, timeout, |ticks|)
    ensures ticks != [] && IsFull(ticks[|ticks| - 1]) && timeout >= 0.0 ==>
              CaughtUp(repo.rows, ticks[|ticks| - 1], timeout)
  {
    for n := 0 to |ticks|
      invariant repo.Valid() && repo.Contents() == SweepAll(old(repo.Contents()), ticks, timeout, n)
    {
      RunTick(repo, ticks[n], timeout);
    }
    if ticks != [] && IsFull(ticks[|ticks| - 1]) && timeout >= 0.0 {
      CycleCatchesUp(old(repo.Contents()), ticks, timeout);
    }
  }

  method RunTick(repo: PostgresTaskRepository, t: Tick, timeout: Time)
    requires repo.Valid()
    modifies repo
    ensures repo.Valid() && repo.Contents() == SweepOnce(old(repo.Contents()), t, timeout)
  {
    if t.recovers.Some? {
      var results := repo.RecoverZombieTasks(t.recovers.value);
      if results != [] {
        var recoveries, failures := EmitPerQueueMetrics(results);
      }
    }
    if t.cleans.Some? {
      var cleaned := repo.CleanupExpiredIdempotencyKeys(t.cleans.value);
    }
    if t.expires.Some? {
      var expired := repo.ExpireSuspendedTasks(timeout, t.expires.value);
    }
  }

  /** After a full tick no lease that had run out is left, no suspension is
      overdue, and no terminal task keeps an expired key, each as of its call. */
  lemma FullTickSettles(db: Db, t: Tick, timeout: Time, i: nat)
    requires i < |db.rows| && timeout >= 0.0 && IsFull(t)
    ensures var db' := SweepOnce(db, t, timeout);
            && |db'.rows| == |db.rows|
            && !LeaseExpired(db'.rows[i], t.recovers.value)
            && !Overdue(timeout, t.expires.value)(db'.rows[i])
            && (Terminal(db.rows[i].status) ==> !KeyExpired(t.cleans.value)(db'.rows[i]))
  {
    var r1 := After(RecoverZombies, db.rows[i], t.recovers.value);
    var r2 := After(CleanupKeys, r1, t.cleans.value);
    SweptRow(db.rows[i], t.recovers.value);
    CleanedRow(r1, t.cleans.value);
    ExpiredRow(r2, timeout, t.expires.value);
  }

  lemma {:induction false} SweepsKeepRows(db: Db, ticks: seq<Tick>, timeout: Time, n: nat)
    requires n <= |ticks|
    ensures |SweepAll(db, ticks, timeout, n).rows| == |db.rows|
  {
    if n > 0 {
      SweepsKeepRows(db, ticks, timeout, n - 1);
    }
  }

  /** Whatever calls failed before, one full tick at the end of a cycle catches
      up with everything that was due by then. */
  lemma CycleCatchesUp(db: Db, ticks: seq<Tick>, timeout: Time)
    requires timeout >= 0.0 && ticks != [] && IsFull(ticks[|ticks| - 1])
    ensures var rows := SweepAll(db, ticks, timeout, |ticks|).rows;
            |rows| == |db.rows| && CaughtUp(rows, ticks[|ticks| - 1], timeout)
  {
    var n := |ticks| - 1;
    var before := SweepAll(db, ticks, timeout, n);
    SweepsKeepRows(db, ticks, timeout, n);
    SweepsKeepRows(db, ticks, timeout, |ticks|);
    forall i | 0 <= i < |before.rows|
      ensures !LeaseExpired(SweepOnce(before, ticks[n], timeout).rows[i], ticks[n].recovers.value)
      ensures !Overdue(timeout, ticks[n].expires.value)(SweepOnce(before, ticks[n], timeout).rows[i])
    {
      FullTickSettles(before, ticks[n], timeout, i);
    }
  }

  lemma CleanedRow(r: Row, at: Time)
    ensures var r' := After(CleanupKeys, r, at);
            && !KeyExpired(at)(r') && r'.status == r.status && r'.claimedUntil == r.claimedUntil
  {
  }

  lemma ExpiredRow(r: Row, timeout: Time, at: Time)
    ensures var r' := After(ExpireSuspended(timeout), r, at);
            && !Overdue(timeout, at)(r')
            && (r' == r || r'.status.Failed?)
            && (Terminal(r.status) ==> r' == r)
  {
  }
}
