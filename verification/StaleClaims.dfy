/** What a lease does not protect against. Each lemma gives a run of the system
    that ends in a state a reader of the documentation might not expect;
    `Dispatches` says exactly when such states can be reached. */
module StaleClaims {
  import opened Wrappers
  import opened Domain
  import opened Store
  import opened Scheduler
  import opened World
  import opened Invariant
  import opened Guarantees
  import opened Trails
  import opened Dispatches
  import Idempotency

  const FIRST: WorkerId := 1
  const SECOND: WorkerId := 2
  const CONFIG := WorkerConfig("default", None, 1.0, 1.0, 1.0)

  function OneTask(maxAttempts: MaxAttempts): Submission {
    Submission(7, "default", "email", "{}", None, None, Some(maxAttempts), None)
  }

  lemma Extend(w: World, ls: seq<Label>, l: Label)
    requires Parallel(w) && Runs(w, ls) && Enabled(Exec(w, ls), l)
    ensures Runs(w, ls + [l]) && Exec(w, ls + [l]) == Next(Exec(w, ls), l)
  {
    RunsOne(Exec(w, ls), l);
    RunsAppend(w, ls, [l]);
  }

  /** The stored task while it waits, and while a worker runs it. */
  function Waiting(max: MaxAttempts, attempts: nat, scheduledAt: Time, at: Time): Row {
    Row(7, "default", "email", "{}", Pending, DEFAULT_PRIORITY, attempts, max, None, scheduledAt, None, None, 0.0, at,
        None, None, None, None, None, None)
  }

  function Claimed(max: MaxAttempts, attempts: nat, worker: WorkerId, scheduledAt: Time, at: Time): Row {
    Waiting(max, attempts, scheduledAt, at).(status := Running, claimedBy := Some(worker), claimedUntil := Some(at + 1.0))
  }

  function FlightOf(worker: WorkerId, attempt: nat): Flight {
    Flight(worker, 0, attempt, None, None, Held, false, false, false, None, Unsettled)
  }

  /** A submitted task that a first worker has claimed but not yet begun. */
  lemma ClaimedOnce(max: MaxAttempts) returns (ls: seq<Label>)
    ensures Runs(Init(0.0, false), ls)
    ensures var w := Exec(Init(0.0, false), ls);
            && w.now == 0.0 && !w.db.auditing && w.db.rows == [Claimed(max, 1, FIRST, 0.0, 0.0)]
            && w.flights == [FlightOf(FIRST, 1)] && w.workers == map[FIRST := Worker(CONFIG, Polling)]
  {
    var w0 := Init(0.0, false);
    ls := [];
    Extend(w0, ls, Submit(OneTask(max)));
    ls := ls + [Submit(OneTask(max))];
    assert Exec(w0, ls).db.rows == [Waiting(max, 0, 0.0, 0.0)];
    Extend(w0, ls, Start(FIRST, CONFIG));
    ls := ls + [Start(FIRST, CONFIG)];
    var w2 := Exec(w0, ls);
    assert w2.db.rows == [Waiting(max, 0, 0.0, 0.0)] && w2.flights == [];
    assert IsPick(w2.db.rows, "default", None, 0.0, {}, Some(0));
    Extend(w0, ls, Poll(FIRST, Some(0), {}));
    ls := ls + [Poll(FIRST, Some(0), {})];
    assert Exec(w0, ls).db.rows == [Claimed(max, 1, FIRST, 0.0, 0.0)];
  }

  /** The first worker stalls past its lease; the sweeper takes the task back. */
  lemma Recovered(max: MaxAttempts) returns (ls: seq<Label>)
    requires max > 1
    ensures Runs(Init(0.0, false), ls)
    ensures var w := Exec(Init(0.0, false), ls);
            && w.now == 2.0 && !w.db.auditing && w.db.rows == [Waiting(max, 1, 2.0, 2.0)]
            && w.flights == [FlightOf(FIRST, 1)] && w.workers == map[FIRST := Worker(CONFIG, Polling)]
  {
    var w0 := Init(0.0, false);
    ls := ClaimedOnce(max);
    Extend(w0, ls, Advance(2.0));
    ls := ls + [Advance(2.0)];
    Extend(w0, ls, SweepZombies);
    ls := ls + [SweepZombies];
    assert Exec(w0, ls).db.rows == [Waiting(max, 1, 2.0, 2.0)];
  }

  /** A dispatch may begin after a successful cancel: the claim came first. */
  lemma BeginsAfterCancel() returns (ls: seq<Label>, f: nat)
    ensures Runs(Init(0.0, false), ls)
    ensures var w := Exec(Init(0.0, false), ls);
            Enabled(w, Begin(f)) && w.db.rows[w.flights[f].task].status.Cancelled?
  {
    f := 0;
    ls := Recovered(3);
    var w := Exec(Init(0.0, false), ls);
    Extend(Init(0.0, false), ls, Withdraw(7));
    assert After(Statement.CancelTask(7), Waiting(3, 1, 2.0, 2.0), 2.0).status.Cancelled?;
    RowAfterStep(w, Withdraw(7), 0);
    ls := ls + [Withdraw(7)];
  }

  /** Dispatches may begin out of order: attempt 1 after attempt 2. */
  lemma BeginsOutOfOrder() returns (ls: seq<Label>, late: nat, early: nat)
    ensures Runs(Init(0.0, false), ls)
    ensures var w := Exec(Init(0.0, false), ls);
            && Enabled(w, Begin(late)) && early < |w.flights| && w.flights[early].begun
            && w.flights[early].task == w.flights[late].task && w.flights[late].attempt < w.flights[early].attempt
  {
    var w0 := Init(0.0, false);
    late, early := 0, 1;
    ls := SecondClaim();
    Extend(w0, ls, Begin(1));
    ls := ls + [Begin(1)];
  }

  /** A second worker holds the task; the first does not know it lost it. */
  lemma SecondClaim() returns (ls: seq<Label>)
    ensures Runs(Init(0.0, false), ls)
    ensures var w := Exec(Init(0.0, false), ls);
            && w.now == 2.0 && !w.db.auditing && w.db.rows == [Claimed(3, 2, SECOND, 2.0, 2.0)]
            && w.flights == [FlightOf(FIRST, 1), FlightOf(SECOND, 2)]
            && w.workers == map[FIRST := Worker(CONFIG, Polling), SECOND := Worker(CONFIG, Polling)]
  {
    var w0 := Init(0.0, false);
    ls := Recovered(3);
    Extend(w0, ls, Start(SECOND, CONFIG));
    ls := ls + [Start(SECOND, CONFIG)];
    var w := Exec(w0, ls);
    assert w.db.rows == [Waiting(3, 1, 2.0, 2.0)];
    assert IsPick(w.db.rows, "default", None, 2.0, {}, Some(0));
    Extend(w0, ls, Poll(SECOND, Some(0), {}));
    ls := ls + [Poll(SECOND, Some(0), {})];
    assert Exec(w0, ls).db.rows == [Claimed(3, 2, SECOND, 2.0, 2.0)];
  }

  /** The first worker begins attempt 1 and loses the task to the sweeper. */
  lemma BegunAndRecovered() returns (ls: seq<Label>)
    ensures Runs(Init(0.0, false), ls)
    ensures var w := Exec(Init(0.0, false), ls);
            && w.now == 2.0 && !w.db.auditing && w.db.rows == [Waiting(3, 1, 2.0, 2.0)]
            && w.flights == [FlightOf(FIRST, 1).(stage := Executing, begun := true, handlerAlive := true, ran := true)]
            && w.workers == map[FIRST := Worker(CONFIG, Polling)]
  {
    var w0 := Init(0.0, false);
    ls := ClaimedOnce(3);
    Extend(w0, ls, Begin(0));
    ls := ls + [Begin(0)];
    Extend(w0, ls, Enter(0));
    ls := ls + [Enter(0)];
    Extend(w0, ls, Advance(2.0));
    ls := ls + [Advance(2.0)];
    Extend(w0, ls, SweepZombies);
    ls := ls + [SweepZombies];
  }

  /** It claims the task again while the handler of attempt 1 is still running. */
  lemma ClaimedTwice() returns (ls: seq<Label>)
    ensures Runs(Init(0.0, false), ls)
    ensures var w := Exec(Init(0.0, false), ls);
            && w.now == 2.0 && !w.db.auditing && w.db.rows == [Claimed(3, 2, FIRST, 2.0, 2.0)]
            && w.flights == [FlightOf(FIRST, 1).(stage := Executing, begun := true, handlerAlive := true, ran := true), FlightOf(FIRST, 2)]
            && w.workers == map[FIRST := Worker(CONFIG, Polling)]
  {
    var w0 := Init(0.0, false);
    ls := BegunAndRecovered();
    var w := Exec(w0, ls);
    assert IsPick(w.db.rows, "default", None, 2.0, {}, Some(0));
    Extend(w0, ls, Poll(FIRST, Some(0), {}));
    ls := ls + [Poll(FIRST, Some(0), {})];
    assert Exec(w0, ls).db.rows == [Claimed(3, 2, FIRST, 2.0, 2.0)];
  }

  /** A dispatch may begin under its current claim without the latest checkpoint:
      the handler of the attempt before wrote it after the claim. */
  lemma BeginsWithOldData() returns (ls: seq<Label>, f: nat)
    ensures Runs(Init(0.0, false), ls)
    ensures var w := Exec(Init(0.0, false), ls);
            && Enabled(w, Begin(f)) && ClaimIsCurrent(w, f) && |w.trails| == 1
            && w.flights[f].task == 0 && w.flights[f].checkpoint == None && LatestWrite(w.trails[0]) == Some("{}")
  {
    var w0 := Init(0.0, false);
    f := 1;
    ls := ClaimedTwice();
    Extend(w0, ls, Note(0, "{}"));
    ls := ls + [Note(0, "{}")];
  }

  /** The first worker runs the task it has lost, and its handler succeeds. */
  lemma StaleReturn() returns (ls: seq<Label>)
    ensures Runs(Init(0.0, false), ls)
    ensures var w := Exec(Init(0.0, false), ls);
            && w.now == 2.0 && !w.db.auditing && w.db.rows == [Claimed(3, 2, SECOND, 2.0, 2.0)]
            && |w.flights| == 2 && w.flights[0] == FlightOf(FIRST, 1).(stage := Returned, begun := true, ran := true, outcome := Some(Success))
            && w.workers == map[FIRST := Worker(CONFIG, Polling), SECOND := Worker(CONFIG, Polling)]
  {
    var w0 := Init(0.0, false);
    ls := SecondClaim();
    Extend(w0, ls, Begin(0));
    ls := ls + [Begin(0)];
    Extend(w0, ls, Enter(0));
    ls := ls + [Enter(0)];
    Extend(w0, ls, Return(0, Success));
    ls := ls + [Return(0, Success)];
  }

  /** A stale dispatch may complete the claim of another worker. */
  lemma CompletesForAnother() returns (ls: seq<Label>, f: nat)
    ensures Runs(Init(0.0, false), ls)
    ensures var w := Exec(Init(0.0, false), ls);
            && f < |w.flights| && w.flights[f].settlement.DidComplete? && w.flights[f].worker == FIRST
            && w.flights[f].task == 0 && |w.db.rows| == 1
            && w.db.rows[0].status.Completed? && w.db.rows[0].claimedBy == Some(SECOND)
  {
    var w0 := Init(0.0, false);
    f := 0;
    ls := StaleReturn();
    Extend(w0, ls, Settle(0, 1.0));
    ls := ls + [Settle(0, 1.0)];
  }

  lemma ClaimLost() returns (ls: seq<Label>)
    ensures Runs(Init(0.0, false), ls)
    ensures var w := Exec(Init(0.0, false), ls);
            && w.now == 2.0 && !w.db.auditing && w.db.rows == [Claimed(1, 1, FIRST, 0.0, 0.0)]
            && w.flights == [FlightOf(FIRST, 1)] && InMode(w, FIRST, Crashed)
  {
    var w0 := Init(0.0, false);
    ls := ClaimedOnce(1);
    Extend(w0, ls, Die(FIRST));
    ls := ls + [Die(FIRST)];
    assert Exec(w0, ls).flights == [FlightOf(FIRST, 1)];
    Extend(w0, ls, Advance(2.0));
    ls := ls + [Advance(2.0)];
  }

  /** A task may end without ever having been executed. */
  lemma NeverExecuted() returns (ls: seq<Label>)
    ensures Runs(Init(0.0, false), ls)
    ensures var w := Exec(Init(0.0, false), ls);
            |w.db.rows| == 1 && w.db.rows[0].status.Failed? && DispatchesOf(w.flights, 0) == {}
  {
    ls := ClaimLost();
    Extend(Init(0.0, false), ls, SweepZombies);
    ls := ls + [SweepZombies];
  }

  /** A dispatch that finds no handler. */
  lemma FoundNoHandler() returns (ls: seq<Label>)
    ensures Runs(Init(0.0, false), ls)
    ensures var w := Exec(Init(0.0, false), ls);
            && w.now == 0.0 && !w.db.auditing && w.db.rows == [Claimed(1, 1, FIRST, 0.0, 0.0)]
            && w.flights == [FlightOf(FIRST, 1).(stage := Returned, begun := true, outcome := Some(Failure("")))]
            && w.workers == map[FIRST := Worker(CONFIG, Polling)]
  {
    var w0 := Init(0.0, false);
    ls := ClaimedOnce(1);
    Extend(w0, ls, Begin(0));
    ls := ls + [Begin(0)];
    Extend(w0, ls, Return(0, Failure("")));
    ls := ls + [Return(0, Failure(""))];
  }

  /** A task may end dispatched and yet not executed: no handler was registered. */
  lemma NoHandler() returns (ls: seq<Label>)
    ensures Runs(Init(0.0, false), ls)
    ensures var w := Exec(Init(0.0, false), ls);
            && |w.db.rows| == 1 && w.db.rows[0].status.Failed?
            && DispatchesOf(w.flights, 0) == {0} && ExecutionsOf(w.flights, 0) == {}
  {
    ls := FoundNoHandler();
    var w := Exec(Init(0.0, false), ls);
    var l := Settle(0, 1.0);
    Extend(Init(0.0, false), ls, l);
    RowAfterStep(w, l, 0);
    assert After(FailTask(7, "", 1.0, 1.0, 1.0), Claimed(1, 1, FIRST, 0.0, 0.0), 0.0).status.Failed?;
    SettleKeepsFlight(w, 0);
    ls := ls + [l];
  }

  lemma SettleKeepsFlight(w: World, f: nat)
    requires Parallel(w) && Enabled(w, Settle(f, 1.0)) && |w.flights| == 1
    ensures var flights' := Next(w, Settle(f, 1.0)).flights;
            && |flights'| == 1 && flights'[0].task == w.flights[0].task
            && flights'[0].begun == w.flights[0].begun && flights'[0].ran == w.flights[0].ran
  {
  }

  /** A handler that asks to be suspended on the last attempt. */
  lemma SuspendsAtLast() returns (ls: seq<Label>)
    ensures Runs(Init(0.0, false), ls)
    ensures var w := Exec(Init(0.0, false), ls);
            && w.now == 0.0 && !w.db.auditing && w.db.rows == [Claimed(1, 1, FIRST, 0.0, 0.0)]
            && w.flights == [FlightOf(FIRST, 1).(stage := Returned, begun := true, ran := true, outcome := Some(SuspendRequest))]
            && w.workers == map[FIRST := Worker(CONFIG, Polling)]
  {
    var w0 := Init(0.0, false);
    ls := ClaimedOnce(1);
    Extend(w0, ls, Begin(0));
    ls := ls + [Begin(0)];
    Extend(w0, ls, Enter(0));
    ls := ls + [Enter(0)];
    Extend(w0, ls, Return(0, SuspendRequest));
    ls := ls + [Return(0, SuspendRequest)];
  }

  lemma SuspendedAtLast() returns (ls: seq<Label>)
    ensures Runs(Init(0.0, false), ls)
    ensures var w := Exec(Init(0.0, false), ls);
            && |w.db.rows| == 1 && w.db.rows[0].id == 7 && w.db.rows[0].status.Suspended?
            && w.db.rows[0].attempts == w.db.rows[0].maxAttempts == 1
  {
    ls := SuspendsAtLast();
    var w := Exec(Init(0.0, false), ls);
    var l := Settle(0, 1.0);
    Extend(Init(0.0, false), ls, l);
    RowAfterStep(w, l, 0);
    var r := Claimed(1, 1, FIRST, 0.0, 0.0);
    assert After(SuspendTask(7), r, 0.0).status.Suspended? && After(SuspendTask(7), r, 0.0).attempts == 1;
    ls := ls + [l];
  }

  /** A signal may come in vain: the task is claimable, and no handler will ever
      get it, for its attempts are used up. */
  lemma SignalledInVain() returns (ls: seq<Label>)
    ensures Runs(Init(0.0, false), ls)
    ensures var w := Exec(Init(0.0, false), ls);
            && |w.db.rows| == 1 && Parallel(w) && Eligible(w.db.rows[0], w.db.rows[0].queue, w.db.rows[0].region, w.now)
            && !CanBeDispatchedAnew(w, 0)
  {
    var w0 := Init(0.0, false);
    ls := SuspendedAtLast();
    var before := Exec(w0, ls);
    var l := Resume(7, None);
    Extend(w0, ls, l);
    assert Reachable(before);
    SignalledIsClaimable(before, 0, None);
    RowAfterStep(before, l, 0);
    AfterKeepsTask(SignalTask(7, None), before.db.rows[0], before.now);
    ls := ls + [l];
    assert Reachable(Exec(w0, ls));
    DispatchedAnewIff(Exec(w0, ls), 0);
  }

  lemma HandedBack() returns (ls: seq<Label>)
    ensures Runs(Init(0.0, false), ls)
    ensures var w := Exec(Init(0.0, false), ls);
            && w.now == 0.0 && !w.db.auditing && w.db.rows == [Waiting(1, 2, 0.0, 0.0)]
            && |w.flights| == 1 && w.flights[0].worker == FIRST
            && SECOND in w.workers && w.workers[SECOND] == Worker(CONFIG, Polling)
  {
    var w0 := Init(0.0, false);
    ls := ClaimedOnce(1);
    Extend(w0, ls, HandBack(0));
    ls := ls + [HandBack(0)];
    assert Exec(w0, ls).db.rows == [Waiting(1, 2, 0.0, 0.0)];
    Extend(w0, ls, Start(SECOND, CONFIG));
    ls := ls + [Start(SECOND, CONFIG)];
  }

  /** A release takes `attempts` past the maximum; the next claim commits and
      fails to map, so the task runs under a worker that does not know it. */
  lemma ClaimsUnknowingly() returns (ls: seq<Label>)
    ensures Runs(Init(0.0, false), ls)
    ensures var w := Exec(Init(0.0, false), ls);
            && |w.db.rows| == 1 && w.db.rows[0].status.Running? && !Maps(w.db.rows[0])
            && w.db.rows[0].claimedBy == Some(SECOND)
            && forall f :: 0 <= f < |w.flights| ==> w.flights[f].worker != SECOND
  {
    var w0 := Init(0.0, false);
    ls := HandedBack();
    var w := Exec(w0, ls);
    assert IsPick(w.db.rows, "default", None, 0.0, {}, Some(0));
    Extend(w0, ls, Poll(SECOND, Some(0), {}));
    ls := ls + [Poll(SECOND, Some(0), {})];
  }

  const KEY := "key"

  function Keyed(r: Row): Row {
    r.(idempotencyKey := Some(KEY), idempotencyExpiresAt := Some(1.0))
  }

  lemma KeyedSubmitted() returns (ls: seq<Label>)
    ensures Runs(Init(0.0, false), ls)
    ensures var w := Exec(Init(0.0, false), ls);
            && w.now == 0.0 && !w.db.auditing && w.db.rows == [Keyed(Waiting(1, 0, 0.0, 0.0))]
            && w.flights == [] && w.workers == map[FIRST := Worker(CONFIG, Polling)]
  {
    var w0 := Init(0.0, false);
    ls := [];
    Extend(w0, ls, SubmitKeyed(OneTask(1), KEY, 1.0));
    ls := ls + [SubmitKeyed(OneTask(1), KEY, 1.0)];
    Extend(w0, ls, Start(FIRST, CONFIG));
    ls := ls + [Start(FIRST, CONFIG)];
  }

  /** A keyed task that was claimed and handed back, and so has an attempt more
      than its maximum. */
  lemma KeyedHandedBack() returns (ls: seq<Label>)
    ensures Runs(Init(0.0, false), ls)
    ensures var w := Exec(Init(0.0, false), ls);
            w.now == 0.0 && w.db.rows == [Keyed(Waiting(1, 2, 0.0, 0.0))]
  {
    var w0 := Init(0.0, false);
    ls := KeyedSubmitted();
    var w := Exec(w0, ls);
    assert IsPick(w.db.rows, "default", None, 0.0, {}, Some(0));
    Extend(w0, ls, Poll(FIRST, Some(0), {}));
    ls := ls + [Poll(FIRST, Some(0), {})];
    assert Exec(w0, ls).db.rows == [Keyed(Claimed(1, 1, FIRST, 0.0, 0.0))];
    Extend(w0, ls, HandBack(0));
    ls := ls + [HandBack(0)];
  }

  /** A submit of a held key may fail: the holder no longer maps. */
  lemma KeyedSubmitFails() returns (ls: seq<Label>, l: Label)
    ensures Runs(Init(0.0, false), ls)
    ensures var w := Exec(Init(0.0, false), ls);
            && Enabled(w, l) && Idempotency.Submits(w, l, "default", KEY)
            && Idempotency.AnswerTo(w, l) == Err(Storage(MappingFailed))
  {
    ls := KeyedHandedBack();
    l := SubmitKeyed(OneTask(1).(id := 8), KEY, 1.0);
  }
}
