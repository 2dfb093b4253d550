/** No row is ever stuck: even when every worker dies right after its first
    claim, the clock, the sweeper and new workers take each task to an end. */
module NoStuckTask {
  import opened Wrappers
  import opened Domain
  import opened RowEvents
  import opened Store
  import opened Trails
  import opened World
  import opened Invariant

  /** The clock, the sweeper, and workers that start, claim once and die. */
  predicate Driver(l: Label, config: WorkerConfig) {
    l.Advance? || l.SweepZombies? || l.SweepSuspended? || l.Poll? || l.Die? || (l.Start? && l.config == config)
  }

  predicate Serves(config: WorkerConfig, r: Row) {
    config.queue == r.queue && (r.region.None? || config.region == r.region)
  }

  lemma {:induction false} BestPick(rows: seq<Row>, queue: string, region: Option<string>, now: Time, n: nat)
    returns (pick: Option<nat>)
    requires n <= |rows|
    ensures IsPick(rows[..n], queue, region, now, {}, pick)
  {
    if n == 0 {
      pick := None;
    } else {
      var before := BestPick(rows, queue, region, now, n - 1);
      assert forall j :: 0 <= j < n - 1 ==> rows[..n - 1][j] == rows[..n][j];
      if !Eligible(rows[n - 1], queue, region, now) {
        pick := before;
      } else if before.Some? && !Precedes(rows[n - 1], rows[before.value]) {
        pick := before;
      } else {
        pick := Some(n - 1);
      }
    }
  }

  lemma BestOf(rows: seq<Row>, config: WorkerConfig, now: Time, i: nat) returns (pick: Option<nat>)
    requires i < |rows| && Eligible(rows[i], config.queue, config.region, now)
    ensures pick.Some? && IsPick(rows, config.queue, config.region, now, {}, pick)
  {
    pick := BestPick(rows, config.queue, config.region, now, |rows|);
    assert rows[..|rows|] == rows;
  }

  lemma {:induction false} AboveAll(ids: set<WorkerId>) returns (unused: WorkerId)
    ensures forall id :: id in ids ==> id < unused
  {
    if ids == {} {
      unused := 0;
    } else {
      var id :| id in ids;
      var rest := AboveAll(ids - {id});
      unused := if id < rest then rest else id + 1;
      assert forall other :: other in ids ==> other == id || other in ids - {id};
    }
  }

  function PendingRows(rows: seq<Row>): set<nat> {
    set j | 0 <= j < |rows| && rows[j].status.Pending?
  }

  /** The steps from w to w' left the existing workers and flights alone, and
      began no dispatch. */
  ghost predicate Spares(w: World, w': World) {
    && |w.flights| <= |w'.flights|
    && (forall f :: 0 <= f < |w.flights| ==> w'.flights[f] == w.flights[f])
    && (forall f :: |w.flights| <= f < |w'.flights| ==> !w'.flights[f].begun && !w'.flights[f].ran)
    && (forall worker :: worker in w.workers ==> worker in w'.workers && w'.workers[worker] == w.workers[worker])
  }

  lemma SparesOn(w: World, w1: World, w2: World)
    requires Spares(w, w1) && Spares(w1, w2)
    ensures Spares(w, w2)
  {
    forall f | |w.flights| <= f < |w2.flights| ensures !w2.flights[f].begun && !w2.flights[f].ran {
      if f < |w1.flights| {
        assert w2.flights[f] == w1.flights[f];
      }
    }
  }

  lemma NoFlights(w: World, worker: WorkerId)
    requires Manifest(w) && worker !in w.workers
    ensures forall f :: 0 <= f < |w.flights| ==> w.flights[f].worker != worker
  {
    forall f | 0 <= f < |w.flights| ensures w.flights[f].worker != worker {
      assert Listed(w, w.flights[f]);
    }
  }

  lemma StartOnly(w: World, config: WorkerConfig, worker: WorkerId)
    requires Inv(w) && worker !in w.workers
    ensures Enabled(w, Start(worker, config))
    ensures var w' := Next(w, Start(worker, config));
            && Inv(w') && w'.db == w.db && w'.now == w.now && w'.flights == w.flights
            && w'.workers == w.workers[worker := Worker(config, Polling)] && !HoldsTask(w', worker)
            && forall pick :: IsPick(w.db.rows, config.queue, config.region, w.now, {}, pick) ==>
                 Enabled(w', Poll(worker, pick, {}))
  {
    StepKeepsInv(w, Start(worker, config));
    NoFlights(w, worker);
  }

  /** The flights that a claim leaves: one more if the claimed row maps. */
  ghost predicate Gained(w: World, w': World, worker: WorkerId, i: nat)
    requires i < |w.db.rows|
  {
    var r := w.db.rows[i];
    if r.attempts < r.maxAttempts then
      && |w'.flights| == |w.flights| + 1 && w'.flights[..|w.flights|] == w.flights
      && w'.flights[|w.flights|].worker == worker && w'.flights[|w.flights|].task == i
      && w'.flights[|w.flights|].attempt == r.attempts + 1 && w'.flights[|w.flights|].stage.Held?
      && !w'.flights[|w.flights|].begun && !w'.flights[|w.flights|].handlerAlive && !w'.flights[|w.flights|].ran
    else w'.flights == w.flights
  }

  lemma PollGains(w: World, worker: WorkerId, i: nat)
    requires Parallel(w) && Enabled(w, Poll(worker, Some(i), {}))
    ensures i < |w.db.rows| && Gained(w, Next(w, Poll(worker, Some(i), {})), worker, i)
  {
  }

  /** What a claim of row i leaves of the table. */
  predicate ClaimedRow(rows: seq<Row>, rows': seq<Row>, i: nat) {
    && i < |rows| == |rows'| && rows[i].status.Pending?
    && rows'[i].status.Running? && rows'[i].attempts == rows[i].attempts + 1 && SameIdentity(rows[i], rows'[i])
    && forall j :: 0 <= j < |rows| && j != i ==> rows'[j] == rows[j]
  }

  lemma PollClaims(w: World, worker: WorkerId, pick: nat)
    requires Inv(w) && Enabled(w, Poll(worker, Some(pick), {}))
    ensures var w' := Next(w, Poll(worker, Some(pick), {}));
            && Inv(w') && w'.now == w.now && w'.workers == w.workers
            && ClaimedRow(w.db.rows, w'.db.rows, pick)
  {
    StepKeepsInv(w, Poll(worker, Some(pick), {}));
    forall j | 0 <= j < |w.db.rows| && j != pick ensures w.db.rows[j].id != w.db.rows[pick].id {
      assert j < pick || pick < j;
    }
  }

  /** A new worker starts and claims the given pick. */
  lemma ClaimPick(w: World, config: WorkerConfig, pick: nat) returns (ls: seq<Label>, worker: WorkerId)
    requires Inv(w) && IsPick(w.db.rows, config.queue, config.region, w.now, {}, Some(pick))
    ensures Runs(w, ls) && forall l :: l in ls ==> Driver(l, config)
    ensures var w' := Exec(w, ls);
            && Inv(w') && w'.now == w.now && ClaimedRow(w.db.rows, w'.db.rows, pick)
            && worker !in w.workers && w'.workers == w.workers[worker := Worker(config, Polling)]
            && Gained(w, w', worker, pick)
  {
    worker := AboveAll(w.workers.Keys);
    assert worker !in w.workers;
    var l1, l2 := Start(worker, config), Poll(worker, Some(pick), {});
    StartOnly(w, config, worker);
    PollClaims(Next(w, l1), worker, pick);
    PollGains(Next(w, l1), worker, pick);
    RunsTwo(w, l1, l2);
    ls := [l1, l2];
  }

  lemma GainedSpares(w: World, w': World, config: WorkerConfig, worker: WorkerId, i: nat)
    requires i < |w.db.rows| && Gained(w, w', worker, i)
    requires worker !in w.workers && w'.workers == w.workers[worker := Worker(config, Polling)]
    ensures Spares(w, w')
  {
    forall f | 0 <= f < |w.flights| ensures w'.flights[f] == w.flights[f] {
      assert w'.flights[..|w.flights|][f] == w'.flights[f];
    }
  }

  lemma DieOnly(w: World, worker: WorkerId)
    requires Inv(w) && worker in w.workers
    ensures Enabled(w, Die(worker))
    ensures var w' := Next(w, Die(worker));
            Inv(w') && w'.db == w.db && w'.now == w.now
  {
    StepKeepsInv(w, Die(worker));
  }

  lemma DieSpares(w: World, w1: World, worker: WorkerId)
    requires Manifest(w) && Spares(w, w1) && worker !in w.workers && worker in w1.workers && Parallel(w1)
    ensures Spares(w, Next(w1, Die(worker)))
  {
    NoFlights(w, worker);
    var w2 := Next(w1, Die(worker));
    forall f | 0 <= f < |w1.flights| ensures w2.flights[f].begun == w1.flights[f].begun && w2.flights[f].ran == w1.flights[f].ran {
    }
  }

  /** A new worker starts, claims the pick, and dies. */
  lemma ClaimAndDie(w: World, config: WorkerConfig, pick: nat) returns (ls: seq<Label>)
    requires Inv(w) && IsPick(w.db.rows, config.queue, config.region, w.now, {}, Some(pick))
    ensures Runs(w, ls) && forall l :: l in ls ==> Driver(l, config)
    ensures var w' := Exec(w, ls);
            Inv(w') && w'.now == w.now && ClaimedRow(w.db.rows, w'.db.rows, pick) && Spares(w, w')
  {
    var claims, worker := ClaimPick(w, config, pick);
    var w1 := Exec(w, claims);
    GainedSpares(w, w1, config, worker, pick);
    DieOnly(w1, worker);
    DieSpares(w, w1, worker);
    RunsOne(w1, Die(worker));
    RunsAppend(w, claims, [Die(worker)]);
    ls := claims + [Die(worker)];
  }

  lemma ClaimedRowIsNoLongerPending(rows: seq<Row>, rows': seq<Row>, pick: nat)
    requires ClaimedRow(rows, rows', pick)
    ensures |PendingRows(rows')| < |PendingRows(rows)|
  {
    assert PendingRows(rows') == PendingRows(rows) - {pick};
    assert pick in PendingRows(rows);
  }

  /** Claims take the tasks ahead of task i one by one, until it is the pick. */
  lemma {:induction false} ClearWay(w: World, config: WorkerConfig, i: nat) returns (ls: seq<Label>)
    requires Inv(w) && i < |w.db.rows| && Eligible(w.db.rows[i], config.queue, config.region, w.now)
    ensures Runs(w, ls) && forall l :: l in ls ==> Driver(l, config)
    ensures var w' := Exec(w, ls);
            && Inv(w') && w'.now == w.now && i < |w'.db.rows| && w'.db.rows[i] == w.db.rows[i]
            && IsPick(w'.db.rows, config.queue, config.region, w'.now, {}, Some(i)) && Spares(w, w')
    decreases |PendingRows(w.db.rows)|
  {
    var best := BestOf(w.db.rows, config, w.now, i);
    if best == Some(i) {
      ls := [];
    } else {
      var first := ClaimAndDie(w, config, best.value);
      var w1 := Exec(w, first);
      ClaimedRowIsNoLongerPending(w.db.rows, w1.db.rows, best.value);
      var rest := ClearWay(w1, config, i);
      SparesOn(w, w1, Exec(w1, rest));
      RunsAppend(w, first, rest);
      ls := first + rest;
    }
  }

  /** A worker that dies at once claims task i, whatever is ahead of it. */
  lemma ClaimUntil(w: World, config: WorkerConfig, i: nat) returns (ls: seq<Label>)
    requires Inv(w) && i < |w.db.rows| && Eligible(w.db.rows[i], config.queue, config.region, w.now)
    ensures Runs(w, ls) && forall l :: l in ls ==> Driver(l, config)
    ensures var w' := Exec(w, ls);
            && Inv(w') && i < |w'.db.rows| && w'.db.rows[i].status.Running? && Spares(w, w')
            && w'.db.rows[i].attempts == w.db.rows[i].attempts + 1 && SameIdentity(w.db.rows[i], w'.db.rows[i])
  {
    var way := ClearWay(w, config, i);
    var w1 := Exec(w, way);
    var claims := ClaimAndDie(w1, config, i);
    SparesOn(w, w1, Exec(w1, claims));
    RunsAppend(w, way, claims);
    ls := way + claims;
  }

  lemma Wait(w: World, config: WorkerConfig, until: Time) returns (ls: seq<Label>)
    requires Inv(w)
    ensures Runs(w, ls) && (forall l :: l in ls ==> Driver(l, config))
    ensures var w' := Exec(w, ls);
            Inv(w') && w'.db == w.db && w'.now > until && w'.now >= w.now && Spares(w, w')
  {
    var to := if w.now > until then w.now else until + 1.0;
    ls := [Advance(to)];
    StepKeepsInv(w, Advance(to));
    RunsOne(w, Advance(to));
  }

  lemma TakeOne(w: World, config: WorkerConfig, l: Label)
    requires Inv(w) && Enabled(w, l) && Driver(l, config)
    ensures Runs(w, [l]) && Exec(w, [l]) == Next(w, l) && Inv(Next(w, l)) && forall m :: m in [l] ==> Driver(m, config)
  {
    StepKeepsInv(w, l);
    RunsOne(w, l);
  }

  lemma SweepRow(r: Row, now: Time)
    requires LeaseExpired(r, now)
    ensures var r' := After(RecoverZombies, r, now);
            && SameIdentity(r, r') && r'.attempts == r.attempts
            && if r.attempts >= r.maxAttempts then r'.status.Failed? else r'.status.Pending?
  {
  }

  lemma SweepNow(w: World, config: WorkerConfig, i: nat)
    requires Inv(w) && i < |w.db.rows| && LeaseExpired(w.db.rows[i], w.now)
    ensures Enabled(w, SweepZombies)
    ensures var w' := Next(w, SweepZombies);
            && Runs(w, [SweepZombies]) && Exec(w, [SweepZombies]) == w' && Inv(w') && i < |w'.db.rows| && Spares(w, w')
            && w'.db.rows[i] == After(RecoverZombies, w.db.rows[i], w.now)
  {
    TakeOne(w, config, SweepZombies);
    RowAfterStep(w, SweepZombies, i);
  }

  /** Wait for the lease to run out, then sweep. */
  lemma SweepTask(w: World, config: WorkerConfig, i: nat) returns (ls: seq<Label>)
    requires Inv(w) && i < |w.db.rows| && w.db.rows[i].status.Running?
    ensures Runs(w, ls) && forall l :: l in ls ==> Driver(l, config)
    ensures var w' := Exec(w, ls);
            && Inv(w') && i < |w'.db.rows| && SameIdentity(w.db.rows[i], w'.db.rows[i])
            && w'.db.rows[i].attempts == w.db.rows[i].attempts && Spares(w, w')
            && if w.db.rows[i].attempts >= w.db.rows[i].maxAttempts then w'.db.rows[i].status.Failed?
               else w'.db.rows[i].status.Pending?
  {
    assert Sound(w.db.rows[i], w.trails[i], w.now);
    var wait := Wait(w, config, w.db.rows[i].claimedUntil.value);
    var w1 := Exec(w, wait);
    SweepNow(w1, config, i);
    SweepRow(w.db.rows[i], w1.now);
    SparesOn(w, w1, Next(w1, SweepZombies));
    RunsAppend(w, wait, [SweepZombies]);
    ls := wait + [SweepZombies];
  }

  lemma ExpireRow(r: Row, timeout: Time, now: Time)
    requires r.status.Suspended? && SuspendedSince(r) < now - timeout
    ensures After(ExpireSuspended(timeout), r, now).status.Failed?
  {
  }

  lemma ExpireNow(w: World, config: WorkerConfig, timeout: Time, i: nat)
    requires Inv(w) && i < |w.db.rows| && w.db.rows[i].status.Suspended?
    requires SuspendedSince(w.db.rows[i]) < w.now - timeout
    ensures Enabled(w, SweepSuspended(timeout))
    ensures var w' := Next(w, SweepSuspended(timeout));
            && Runs(w, [SweepSuspended(timeout)]) && Exec(w, [SweepSuspended(timeout)]) == w'
            && i < |w'.db.rows| && w'.db.rows[i].status.Failed? && Inv(w') && Spares(w, w')
  {
    TakeOne(w, config, SweepSuspended(timeout));
    RowAfterStep(w, SweepSuspended(timeout), i);
    ExpireRow(w.db.rows[i], timeout, w.now);
  }

  lemma ExpireTask(w: World, config: WorkerConfig, timeout: Time, i: nat) returns (ls: seq<Label>)
    requires Inv(w) && i < |w.db.rows| && w.db.rows[i].status.Suspended?
    ensures Runs(w, ls) && forall l :: l in ls ==> Driver(l, config)
    ensures var w' := Exec(w, ls);
            Inv(w') && i < |w'.db.rows| && w'.db.rows[i].status.Failed? && Spares(w, w')
  {
    var wait := Wait(w, config, SuspendedSince(w.db.rows[i]) + timeout);
    var w1 := Exec(w, wait);
    ExpireNow(w1, config, timeout, i);
    SparesOn(w, w1, Next(w1, SweepSuspended(timeout)));
    RunsAppend(w, wait, [SweepSuspended(timeout)]);
    ls := wait + [SweepSuspended(timeout)];
  }

  lemma ClaimTaskEventually(w: World, config: WorkerConfig, i: nat) returns (ls: seq<Label>)
    requires Inv(w) && i < |w.db.rows| && w.db.rows[i].status.Pending? && Serves(config, w.db.rows[i])
    ensures Runs(w, ls) && forall l :: l in ls ==> Driver(l, config)
    ensures var w' := Exec(w, ls);
            && Inv(w') && i < |w'.db.rows| && w'.db.rows[i].status.Running? && Spares(w, w')
            && w'.db.rows[i].attempts == w.db.rows[i].attempts + 1 && SameIdentity(w.db.rows[i], w'.db.rows[i])
  {
    var wait := Wait(w, config, w.db.rows[i].scheduledAt);
    var w1 := Exec(w, wait);
    var claims := ClaimUntil(w1, config, i);
    SparesOn(w, w1, Exec(w1, claims));
    RunsAppend(w, wait, claims);
    ls := wait + claims;
  }

  function Remaining(r: Row): nat {
    if r.attempts < r.maxAttempts then r.maxAttempts - r.attempts else 0
  }

  function Distance(r: Row): nat {
    match r.status
    case Running => if Remaining(r) == 0 then 1 else 2 * Remaining(r) + 4
    case Pending => if Remaining(r) == 0 then 2 else 2 * Remaining(r) + 3
    case _ => 0
  }

  /** One round towards the end: wait, then sweep or claim. */
  lemma StepCloser(w: World, config: WorkerConfig, timeout: Time, i: nat) returns (ls: seq<Label>)
    requires Inv(w) && i < |w.db.rows| && Serves(config, w.db.rows[i]) && !Terminal(w.db.rows[i].status)
    ensures Runs(w, ls) && forall l :: l in ls ==> Driver(l, config)
    ensures var w' := Exec(w, ls);
            && Inv(w') && i < |w'.db.rows| && Spares(w, w')
            && (w'.db.rows[i].status.Failed?
                || (!Terminal(w'.db.rows[i].status) && Serves(config, w'.db.rows[i])
                    && Distance(w'.db.rows[i]) < Distance(w.db.rows[i])))
  {
    match w.db.rows[i].status {
      case Suspended => ls := ExpireTask(w, config, timeout, i);
      case Running => ls := SweepTask(w, config, i);
      case Pending => ls := ClaimTaskEventually(w, config, i);
    }
  }

  /** From every reachable state, every non-terminal task can be driven to Failed,
      whatever its attempts, by any kind of worker that serves it, without the
      help of any existing worker and without running the task. */
  lemma {:induction false} NoTaskIsStuck(w: World, config: WorkerConfig, timeout: Time, i: nat) returns (ls: seq<Label>)
    requires Inv(w) && i < |w.db.rows| && Serves(config, w.db.rows[i])
    ensures Runs(w, ls) && forall l :: l in ls ==> Driver(l, config)
    ensures var w' := Exec(w, ls);
            && Inv(w') && i < |w'.db.rows| && Spares(w, w')
            && w'.db.rows[i].status == if Terminal(w.db.rows[i].status) then w.db.rows[i].status else Failed
    decreases Distance(w.db.rows[i])
  {
    ls := [];
    if !Terminal(w.db.rows[i].status) {
      ls := StepCloser(w, config, timeout, i);
      var w1 := Exec(w, ls);
      if !w1.db.rows[i].status.Failed? {
        var rest := NoTaskIsStuck(w1, config, timeout, i);
        SparesOn(w, w1, Exec(w1, rest));
        RunsAppend(w, ls, rest);
        ls := ls + rest;
      }
    }
  }
}
