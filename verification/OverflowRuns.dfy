/** The retry schedule as runs of the system: one task, one worker, a handler
    that always fails. The task ends as Failed by its own calls unless the
    backoff leaves the range of float8 first; then it stays Running. */
module OverflowRuns {
  import opened Wrappers
  import opened Domain
  import opened RowEvents
  import opened Powers
  import opened Store
  import opened Trails
  import opened Scheduler
  import opened World
  import opened Invariant
  import opened NoStuckTask
  import opened Dispatches
  import opened RetrySchedule

  const ONLY: WorkerId := 1

  /** A failing outcome call changes nothing about a running row if and only if
      the task would be retried and the backoff overflows. */
  lemma FailureIsLostIff(w: World, f: nat, jitter: real)
    requires Inv(w) && Enabled(w, Settle(f, jitter)) && w.flights[f].outcome.value.Failure?
    requires w.db.rows[w.flights[f].task].status.Running?
    ensures var i := w.flights[f].task;
            var r, r' := w.db.rows[i], Next(w, Settle(f, jitter)).db.rows[i];
            r'.status.Running? <==>
              r.attempts < r.maxAttempts && BackoffOverflows(w.workers[w.flights[f].worker].config.base, r.attempts)
    ensures var i := w.flights[f].task;
            var r, r' := w.db.rows[i], Next(w, Settle(f, jitter)).db.rows[i];
            r'.status.Running? ==> r' == r
  {
    RowAfterStep(w, Settle(f, jitter), w.flights[f].task);
    var config := w.workers[w.flights[f].worker].config;
    FailureIsLost(w.db.rows[w.flights[f].task], w.flights[f].outcome.value.message, config.base, config.cap, jitter, w.now);
  }

  lemma FailureIsLost(r: Row, error: string, base: real, cap: real, jitter: real, now: Time)
    requires r.status.Running?
    ensures var r' := After(FailTask(r.id, error, base, cap, jitter), r, now);
            && (r'.status.Running? <==> r.attempts < r.maxAttempts && BackoffOverflows(base, r.attempts))
            && (r'.status.Running? ==> r' == r)
  {
  }

  // ---- runs of failures ----------------------------------------------------

  /** Time, claims, and dispatches whose handler fails: no other step. */
  predicate OnlyFailing(l: Label) {
    l.Advance? || l.Poll? || l.Begin? || l.Enter? || (l.Return? && l.outcome.Failure?) || l.Settle?
  }

  function Settles(ls: seq<Label>): nat {
    if ls == [] then 0 else Settles(ls[..|ls| - 1]) + One(ls[|ls| - 1].Settle?)
  }

  lemma {:induction false} SettlesAppend(a: seq<Label>, b: seq<Label>)
    ensures Settles(a + b) == Settles(a) + Settles(b)
    decreases |b|
  {
    if b == [] {
      assert a + b == a;
    } else {
      SettlesAppend(a, b[..|b| - 1]);
      assert (a + b)[..|a + b| - 1] == a + b[..|b| - 1];
    }
  }

  lemma {:induction false} NoSettles(ls: seq<Label>)
    requires forall l :: l in ls ==> !l.Settle?
    ensures Settles(ls) == 0
    decreases |ls|
  {
    if ls != [] {
      NoSettles(ls[..|ls| - 1]);
    }
  }

  /** A failing outcome call that reaches the database, meets its running row and
      leaves it as it is, for the backoff overflows. */
  ghost predicate LostFailure(w: World, l: Label) {
    && Parallel(w) && Enabled(w, l) && l.Settle? && w.flights[l.flight].outcome.value.Failure?
    && var i := w.flights[l.flight].task;
       var base := w.workers[w.flights[l.flight].worker].config.base;
       && w.db.rows[i].status.Running? && w.db.rows[i].attempts < w.db.rows[i].maxAttempts
       && BackoffOverflows(base, w.db.rows[i].attempts)
       && i < |Next(w, l).db.rows| && Next(w, l).db.rows[i] == w.db.rows[i]
  }

  // ---- one task and one worker ---------------------------------------------

  /** The table holds one task, and the one worker that serves it is idle. */
  ghost predicate Alone(w: World, config: WorkerConfig) {
    && Inv(w) && |w.db.rows| == 1 && w.db.rows[0].queue == config.queue && w.db.rows[0].region.None?
    && w.workers == map[ONLY := Worker(config, Polling)]
    && forall f :: 0 <= f < |w.flights| ==> w.flights[f].stage.Over?
  }

  lemma AloneWaits(w: World, config: WorkerConfig) returns (ls: seq<Label>)
    requires Alone(w, config)
    ensures Runs(w, ls) && forall l :: l in ls ==> l.Advance?
    ensures var w' := Exec(w, ls);
            Alone(w', config) && w'.db == w.db && w'.now >= w.db.rows[0].scheduledAt
  {
    var to := if w.now > w.db.rows[0].scheduledAt then w.now else w.db.rows[0].scheduledAt;
    StepKeepsInv(w, Advance(to));
    RunsOne(w, Advance(to));
    ls := [Advance(to)];
  }

  lemma AloneClaims(w: World, config: WorkerConfig)
    requires Alone(w, config) && w.db.rows[0].status.Pending? && w.db.rows[0].scheduledAt <= w.now
    requires w.db.rows[0].attempts < w.db.rows[0].maxAttempts
    ensures Enabled(w, Poll(ONLY, Some(0), {}))
    ensures var w' := Next(w, Poll(ONLY, Some(0), {}));
            && Inv(w') && w'.now == w.now && w'.workers == w.workers && |w'.db.rows| == 1
            && w'.db.rows[0] == After(ClaimTask(w.db.rows[0].id, ONLY, config.lease), w.db.rows[0], w.now)
            && Gained(w, w', ONLY, 0)
  {
    assert IsPick(w.db.rows, config.queue, config.region, w.now, {}, Some(0));
    StepKeepsInv(w, Poll(ONLY, Some(0), {}));
    RowAfterStep(w, Poll(ONLY, Some(0), {}), 0);
    PollGains(w, ONLY, 0);
  }

  lemma BeginKeepsTime(w: World, g: nat)
    requires Parallel(w) && Enabled(w, Begin(g))
    ensures Next(w, Begin(g)).now == w.now
  {
  }

  lemma ReturnOnly(w: World, g: nat, outcome: Outcome)
    requires Inv(w) && Enabled(w, Return(g, outcome))
    ensures var w' := Next(w, Return(g, outcome));
            && Inv(w') && w'.workers == w.workers && w'.db == w.db && w'.now == w.now && |w'.flights| == |w.flights|
            && w'.flights[g] == w.flights[g].(stage := Returned, handlerAlive := false, outcome := Some(outcome))
            && forall f :: 0 <= f < |w.flights| && f != g ==> w'.flights[f] == w.flights[f]
  {
    StepKeepsInv(w, Return(g, outcome));
  }

  /** From w to w' the flight ran its handler, which failed, and nothing else
      happened. */
  ghost predicate RanAndFailed(w: World, w': World, g: nat, error: string) {
    && Inv(w') && w'.db == w.db && w'.now == w.now && w'.workers == w.workers && |w'.flights| == |w.flights|
    && g < |w.flights| && w'.flights[g].stage.Returned? && w'.flights[g].outcome == Some(Failure(error)) && w'.flights[g].ran
    && w'.flights[g].task == w.flights[g].task && w'.flights[g].worker == w.flights[g].worker
    && forall f :: 0 <= f < |w.flights| && f != g ==> w'.flights[f] == w.flights[f]
  }

  /** A begun flight enters its handler, which fails. */
  lemma HandlerFails(w: World, g: nat, error: string)
    requires Inv(w) && g < |w.flights| && w.flights[g].task < |w.db.rows| && Drives(w, w.flights[g].worker)
    requires w.flights[g].stage.Executing? && w.flights[g].handlerAlive
    ensures Runs(w, [Enter(g), Return(g, Failure(error))])
    ensures RanAndFailed(w, Exec(w, [Enter(g), Return(g, Failure(error))]), g, error)
  {
    EnterOnly(w, g);
    ReturnOnly(Next(w, Enter(g)), g, Failure(error));
    RunsTwo(w, Enter(g), Return(g, Failure(error)));
  }

  lemma BegunAndFailed(w: World, w': World, g: nat, error: string)
    requires Inv(w) && Enabled(w, Begin(g)) && RanAndFailed(Next(w, Begin(g)), w', g, error)
    ensures RanAndFailed(w, w', g, error)
  {
    BeginOnly(w, g);
    BeginKeepsTime(w, g);
  }

  lemma BegunMayFail(w: World, g: nat)
    requires Inv(w) && Enabled(w, Begin(g))
    ensures var w' := Next(w, Begin(g));
            && Inv(w') && g < |w'.flights| && w'.flights[g].task < |w'.db.rows| && Drives(w', w'.flights[g].worker)
            && w'.flights[g].stage.Executing? && w'.flights[g].handlerAlive
  {
    BeginOnly(w, g);
  }

  /** A waiting flight runs its handler, which fails. */
  lemma LastFails(w: World, g: nat, error: string) returns (ls: seq<Label>)
    requires Inv(w) && Enabled(w, Begin(g))
    ensures Runs(w, ls) && forall l :: l in ls ==> OnlyFailing(l) && !l.Settle?
    ensures RanAndFailed(w, Exec(w, ls), g, error)
  {
    var run := [Enter(g), Return(g, Failure(error))];
    BegunMayFail(w, g);
    HandlerFails(Next(w, Begin(g)), g, error);
    BegunAndFailed(w, Exec(Next(w, Begin(g)), run), g, error);
    RunsOne(w, Begin(g));
    RunsAppend(w, [Begin(g)], run);
    ls := [Begin(g)] + run;
  }

  lemma SettleFails(w: World, g: nat, config: WorkerConfig)
    requires Parallel(w) && Enabled(w, Settle(g, 1.0)) && w.flights[g].outcome.value.Failure? && w.flights[g].task == 0
    requires |w.db.rows| == 1 && InMode(w, w.flights[g].worker, Polling) && w.workers[w.flights[g].worker].config == config
    ensures |Next(w, Settle(g, 1.0)).db.rows| == 1
    ensures Next(w, Settle(g, 1.0)).db.rows[0]
            == After(FailTask(w.db.rows[0].id, w.flights[g].outcome.value.message, config.base, config.cap, 1.0),
                     w.db.rows[0], w.now)
  {
    RowAfterStep(w, Settle(g, 1.0), 0);
  }

  lemma SettleOnly(w: World, g: nat)
    requires Parallel(w) && Enabled(w, Settle(g, 1.0))
    ensures var w' := Next(w, Settle(g, 1.0));
            && w'.now == w.now && w'.workers == w.workers && |w'.flights| == |w.flights| && w'.flights[g].stage.Over?
            && forall f :: 0 <= f < |w.flights| && f != g ==> w'.flights[f] == w.flights[f]
  {
  }

  lemma GainedIsLast(w: World, w': World, i: nat)
    requires i < |w.db.rows| && Gained(w, w', ONLY, i) && w.db.rows[i].attempts < w.db.rows[i].maxAttempts
    requires InMode(w', ONLY, Polling) && i < |w'.db.rows|
    ensures |w'.flights| == |w.flights| + 1 && Enabled(w', Begin(|w.flights|))
    ensures w'.flights[|w.flights|].worker == ONLY && w'.flights[|w.flights|].task == i
    ensures forall f :: 0 <= f < |w.flights| ==> w'.flights[f] == w.flights[f]
  {
    forall f | 0 <= f < |w.flights| ensures w'.flights[f] == w.flights[f] {
      assert w'.flights[..|w.flights|][f] == w'.flights[f];
    }
  }

  /** The task was claimed, and its handler has failed. */
  ghost predicate AwaitsFailure(w: World, config: WorkerConfig, error: string) {
    && Inv(w) && |w.db.rows| == 1 && w.workers == map[ONLY := Worker(config, Polling)] && |w.flights| > 0
    && var g := |w.flights| - 1;
       && w.flights[g].worker == ONLY && w.flights[g].task == 0 && w.flights[g].stage.Returned?
       && w.flights[g].outcome == Some(Failure(error))
       && forall f :: 0 <= f < g ==> w.flights[f].stage.Over?
  }

  /** The task was claimed and waits for its dispatch. */
  ghost predicate AwaitsBegin(w: World, config: WorkerConfig) {
    && Inv(w) && |w.db.rows| == 1 && w.workers == map[ONLY := Worker(config, Polling)] && |w.flights| > 0
    && var g := |w.flights| - 1;
       && Enabled(w, Begin(g)) && w.flights[g].worker == ONLY && w.flights[g].task == 0
       && forall f :: 0 <= f < g ==> w.flights[f].stage.Over?
  }

  lemma RunLast(w: World, config: WorkerConfig, error: string) returns (ls: seq<Label>)
    requires AwaitsBegin(w, config)
    ensures Runs(w, ls) && forall l :: l in ls ==> OnlyFailing(l) && !l.Settle?
    ensures AwaitsFailure(Exec(w, ls), config, error)
    ensures Exec(w, ls).now == w.now && Exec(w, ls).db == w.db
  {
    ls := LastFails(w, |w.flights| - 1, error);
    FailureIsAwaited(w, Exec(w, ls), config, error);
  }

  lemma FailureIsAwaited(w: World, w': World, config: WorkerConfig, error: string)
    requires AwaitsBegin(w, config) && RanAndFailed(w, w', |w.flights| - 1, error)
    ensures AwaitsFailure(w', config, error)
  {
  }

  lemma ClaimAlone(w: World, config: WorkerConfig)
    requires Alone(w, config) && w.db.rows[0].status.Pending? && w.db.rows[0].scheduledAt <= w.now
    requires w.db.rows[0].attempts < w.db.rows[0].maxAttempts
    ensures var claim := Poll(ONLY, Some(0), {});
            && Enabled(w, claim) && AwaitsBegin(Next(w, claim), config) && Next(w, claim).now == w.now
            && Next(w, claim).db.rows[0] == After(ClaimTask(w.db.rows[0].id, ONLY, config.lease), w.db.rows[0], w.now)
  {
    AloneClaims(w, config);
    GainedIsLast(w, Next(w, Poll(ONLY, Some(0), {})), 0);
  }

  lemma ClaimAndRun(w: World, config: WorkerConfig, error: string) returns (ls: seq<Label>)
    requires Alone(w, config) && w.db.rows[0].status.Pending? && w.db.rows[0].scheduledAt <= w.now
    requires w.db.rows[0].attempts < w.db.rows[0].maxAttempts
    ensures Runs(w, ls) && forall l :: l in ls ==> OnlyFailing(l) && !l.Settle?
    ensures AwaitsFailure(Exec(w, ls), config, error) && Exec(w, ls).now == w.now
    ensures Exec(w, ls).db.rows[0] == After(ClaimTask(w.db.rows[0].id, ONLY, config.lease), w.db.rows[0], w.now)
  {
    var claim := Poll(ONLY, Some(0), {});
    ClaimAlone(w, config);
    RunsOne(w, claim);
    var run := RunLast(Next(w, claim), config, error);
    RunsAppend(w, [claim], run);
    ls := [claim] + run;
  }

  function LastSettle(w: World): Label {
    Settle(if |w.flights| > 0 then |w.flights| - 1 else 0, 1.0)
  }

  lemma LastMaySettle(w: World, config: WorkerConfig, error: string)
    requires AwaitsFailure(w, config, error)
    ensures Enabled(w, LastSettle(w)) && LastSettle(w) == Settle(|w.flights| - 1, 1.0)
  {
    assert Listed(w, w.flights[|w.flights| - 1]);
  }

  lemma SettledIsAlone(w: World, config: WorkerConfig, error: string)
    requires AwaitsFailure(w, config, error) && Enabled(w, LastSettle(w))
    requires w.db.rows[0].queue == config.queue && w.db.rows[0].region.None?
    ensures Alone(Next(w, LastSettle(w)), config)
  {
    var g := |w.flights| - 1;
    StepKeepsInv(w, Settle(g, 1.0));
    StepKeepsTask(w, Settle(g, 1.0), 0);
    RowAfterStep(w, Settle(g, 1.0), 0);
    SettleOnly(w, g);
  }

  lemma SettleFailure(w: World, config: WorkerConfig, error: string)
    requires AwaitsFailure(w, config, error) && w.db.rows[0].queue == config.queue && w.db.rows[0].region.None?
    ensures Enabled(w, LastSettle(w)) && Alone(Next(w, LastSettle(w)), config)
    ensures Next(w, LastSettle(w)).db.rows[0]
            == After(FailTask(w.db.rows[0].id, error, config.base, config.cap, 1.0), w.db.rows[0], w.now)
  {
    LastMaySettle(w, config, error);
    SettledIsAlone(w, config, error);
    SettleFails(w, |w.flights| - 1, config);
  }

  lemma SettleIsLost(w: World, config: WorkerConfig, error: string)
    requires AwaitsFailure(w, config, error) && w.db.rows[0].status.Running?
    requires Enabled(w, LastSettle(w)) && Next(w, LastSettle(w)).db.rows[0].status.Running?
    ensures LostFailure(w, LastSettle(w))
  {
    FailureIsLostIff(w, |w.flights| - 1, 1.0);
  }

  lemma ClaimedRuns(r: Row, worker: WorkerId, lease: Time, now: Time)
    requires r.status.Pending? && r.scheduledAt <= now
    ensures After(ClaimTask(r.id, worker, lease), r, now).status.Running?
  {
  }

  /** One round of the task: its claim, its handler, its failure. */
  lemma FailRound(w: World, config: WorkerConfig, error: string) returns (ls: seq<Label>, last: Label)
    requires Alone(w, config) && w.db.rows[0].status.Pending? && w.db.rows[0].scheduledAt <= w.now
    requires w.db.rows[0].attempts < w.db.rows[0].maxAttempts
    ensures Runs(w, ls) && (forall l :: l in ls ==> OnlyFailing(l) && !l.Settle?)
    ensures last.Settle? && Enabled(Exec(w, ls), last) && Alone(Next(Exec(w, ls), last), config)
    ensures Next(Exec(w, ls), last).db.rows[0]
            == AfterRound(w.db.rows[0], Round(w.now, ONLY, config.lease, w.now, error, 1.0), config.base, config.cap)
    ensures Next(Exec(w, ls), last).db.rows[0].status.Running? ==> LostFailure(Exec(w, ls), last)
  {
    ls := ClaimAndRun(w, config, error);
    var w1 := Exec(w, ls);
    var claim := ClaimTask(w.db.rows[0].id, ONLY, config.lease);
    AfterKeepsTask(claim, w.db.rows[0], w.now);
    ClaimedRuns(w.db.rows[0], ONLY, config.lease, w.now);
    last := LastSettle(w1);
    SettleFailure(w1, config, error);
    if Next(w1, last).db.rows[0].status.Running? {
      SettleIsLost(w1, config, error);
    }
  }

  lemma RoundFails(r: Row, x: Round, base: real, cap: real)
    requires r.status.Pending? && r.attempts < r.maxAttempts && r.scheduledAt <= x.claimAt
    ensures Advanced(r, AfterRound(r, x, base, cap), base)
  {
  }

  /** What a round leaves of a pending task with attempts left. */
  predicate Advanced(r: Row, r': Row, base: real) {
    && r'.attempts == r.attempts + 1 && r'.maxAttempts == r.maxAttempts
    && r'.status == if r.attempts + 1 == r.maxAttempts then Failed
                    else if BackoffOverflows(base, r.attempts + 1) then Running else Pending
  }

  /** A run ls from w and an outcome call after it, made of failures alone. */
  ghost predicate FailingRun(w: World, ls: seq<Label>, last: Label) {
    && Parallel(w) && Runs(w, ls) && (forall l :: l in ls ==> OnlyFailing(l))
    && last.Settle? && Enabled(Exec(w, ls), last)
  }

  ghost function Outcome(w: World, ls: seq<Label>, last: Label): (w': World)
    requires FailingRun(w, ls, last)
  {
    Next(Exec(w, ls), last)
  }

  lemma WaitAndFail(w: World, config: WorkerConfig, error: string) returns (ls: seq<Label>, last: Label)
    requires Alone(w, config) && w.db.rows[0].status.Pending? && w.db.rows[0].attempts < w.db.rows[0].maxAttempts
    ensures FailingRun(w, ls, last) && Settles(ls) == 0 && Alone(Outcome(w, ls, last), config)
    ensures Advanced(w.db.rows[0], Outcome(w, ls, last).db.rows[0], config.base)
    ensures Outcome(w, ls, last).db.rows[0].status.Running? ==> LostFailure(Exec(w, ls), last)
  {
    var wait := AloneWaits(w, config);
    var w1 := Exec(w, wait);
    var round;
    round, last := FailRound(w1, config, error);
    RoundFails(w.db.rows[0], Round(w1.now, ONLY, config.lease, w1.now, error, 1.0), config.base, config.cap);
    RunsAppend(w, wait, round);
    ls := wait + round;
    NoSettles(ls);
  }

  // ---- the whole schedule --------------------------------------------------

  /** How a pending task ends when it only fails: for good if and only if its
      last backoff stays in the range of float8, and stuck Running otherwise. */
  predicate EndsAs(r: Row, r': Row, base: real) {
    && r'.maxAttempts == r.maxAttempts
    && r'.status == (if r.attempts + 1 == r.maxAttempts || !BackoffOverflows(base, r.maxAttempts - 1) then Failed else Running)
    && (r'.status.Failed? ==> r'.attempts == r.maxAttempts)
    && (r'.status.Running? ==> r'.attempts < r'.maxAttempts && BackoffOverflows(base, r'.attempts))
  }

  lemma EndsAtOnce(r: Row, r': Row, base: real)
    requires base >= 0.0 && r.attempts < r.maxAttempts && Advanced(r, r', base) && !r'.status.Pending?
    ensures EndsAs(r, r', base)
  {
    if r.attempts + 1 < r.maxAttempts {
      OverflowGrows(base, r.attempts + 1, r.maxAttempts - 1);
    }
  }

  lemma EndsLater(r: Row, r1: Row, r2: Row, base: real)
    requires r.attempts < r.maxAttempts && Advanced(r, r1, base) && r1.status.Pending? && EndsAs(r1, r2, base)
    ensures r1.attempts < r1.maxAttempts && EndsAs(r, r2, base)
  {
  }

  lemma FailingRuns(w: World, first: seq<Label>, settle: Label, rest: seq<Label>, last: Label) returns (ls: seq<Label>)
    requires FailingRun(w, first, settle) && FailingRun(Outcome(w, first, settle), rest, last)
    ensures FailingRun(w, ls, last) && Exec(w, ls) == Exec(Outcome(w, first, settle), rest)
    ensures Settles(ls) == Settles(first) + 1 + Settles(rest)
  {
    NextIsParallel(Exec(w, first), settle);
    RunsOne(Exec(w, first), settle);
    RunsAppend(w, first, [settle]);
    RunsAppend(w, first + [settle], rest);
    ls := first + [settle] + rest;
    SettlesAppend(first + [settle], rest);
    assert (first + [settle])[..|first|] == first;
  }

  /** For every backoff configuration and every task there is a run of claims and
      failures alone, one failure for each attempt, after which the task has
      ended so; a task that is left Running has just lost its failure. */
  lemma {:induction false} AlwaysFailingRun(w: World, config: WorkerConfig, error: string)
    returns (ls: seq<Label>, last: Label)
    requires Alone(w, config) && config.base >= 0.0
    requires w.db.rows[0].status.Pending? && w.db.rows[0].attempts < w.db.rows[0].maxAttempts
    ensures FailingRun(w, ls, last) && Alone(Outcome(w, ls, last), config)
    ensures EndsAs(w.db.rows[0], Outcome(w, ls, last).db.rows[0], config.base)
    ensures w.db.rows[0].attempts + Settles(ls) + 1 == Outcome(w, ls, last).db.rows[0].attempts
    ensures Outcome(w, ls, last).db.rows[0].status.Running? ==> LostFailure(Exec(w, ls), last)
    decreases w.db.rows[0].maxAttempts - w.db.rows[0].attempts
  {
    ls, last := WaitAndFail(w, config, error);
    var w1 := Outcome(w, ls, last);
    if w1.db.rows[0].status.Pending? {
      var rest, final := AlwaysFailingRun(w1, config, error);
      EndsLater(w.db.rows[0], w1.db.rows[0], Outcome(w1, rest, final).db.rows[0], config.base);
      ls := FailingRuns(w, ls, last, rest, final);
      last := final;
    } else {
      EndsAtOnce(w.db.rows[0], w1.db.rows[0], config.base);
    }
  }

  // ---- what such a run leaves in the task's history ------------------------

  /** No outcome but failures is pending, under one backoff configuration. */
  ghost predicate OnlyFailuresPending(w: World, base: real, cap: real) {
    && (forall f :: 0 <= f < |w.flights| && !w.flights[f].stage.Over? && w.flights[f].outcome.Some? ==>
          w.flights[f].outcome.value.Failure?)
    && (forall worker :: worker in w.workers ==> w.workers[worker].config.base == base && w.workers[worker].config.cap == cap)
  }

  lemma StepKeepsFailures(w: World, l: Label, base: real, cap: real)
    requires Parallel(w) && OnlyFailuresPending(w, base, cap) && Enabled(w, l) && OnlyFailing(l)
    ensures OnlyFailuresPending(Next(w, l), base, cap) && |Next(w, l).db.rows| == |w.db.rows|
  {
    if |NextFlights(w, l)| > |w.flights| {
      NewFlightIsClaimed(w, l);
    }
  }

  lemma FailingEvents(w: World, l: Label, r: Row, base: real, cap: real)
    requires OnlyFailuresPending(w, base, cap) && Enabled(w, l) && OnlyFailing(l) && StatementOf(w, l).Some?
    requires Fires(StatementOf(w, l).value, r, w.now).Some?
    ensures var e := Fires(StatementOf(w, l).value, r, w.now).value;
            e.Claim? || e.GiveUp? || (e.Retry? && e.base == base && e.cap == cap)
  {
  }

  lemma StepKeepsOnlyFails(w: World, l: Label, i: nat, base: real, cap: real)
    requires Parallel(w) && OnlyFailuresPending(w, base, cap) && Enabled(w, l) && OnlyFailing(l)
    requires i < |w.trails| && OnlyFails(w.trails[i], base, cap)
    ensures i < |Next(w, l).trails| && OnlyFails(Next(w, l).trails[i], base, cap)
  {
    if !l.Advance? && StatementOf(w, l).Some? {
      var s := StatementOf(w, l).value;
      assert Next(w, l).trails == Extended(s, w.db.rows, w.trails, w.now);
      if Fires(s, w.db.rows[i], w.now).Some? {
        FailingEvents(w, l, w.db.rows[i], base, cap);
      }
    }
  }

  lemma {:induction false} RunKeepsOnlyFails(w: World, ls: seq<Label>, i: nat, base: real, cap: real)
    requires Parallel(w) && OnlyFailuresPending(w, base, cap) && Runs(w, ls) && forall l :: l in ls ==> OnlyFailing(l)
    requires i < |w.trails| && OnlyFails(w.trails[i], base, cap)
    ensures OnlyFailuresPending(Exec(w, ls), base, cap)
    ensures i < |Exec(w, ls).trails| && OnlyFails(Exec(w, ls).trails[i], base, cap)
    decreases |ls|
  {
    if ls != [] {
      NextIsParallel(w, ls[0]);
      StepKeepsFailures(w, ls[0], base, cap);
      StepKeepsOnlyFails(w, ls[0], i, base, cap);
      RunKeepsOnlyFails(Next(w, ls[0]), ls[1..], i, base, cap);
    }
  }

  // ---- such a run from the start -------------------------------------------

  function Patient(max: MaxAttempts): Submission {
    Submission(7, "default", "email", "{}", None, None, Some(max), None)
  }

  /** One task is submitted and one worker starts. */
  function Setup(max: MaxAttempts, config: WorkerConfig): seq<Label> {
    [Submit(Patient(max)), Start(ONLY, config)]
  }

  /** The state after the setup. */
  ghost predicate IsReady(w: World, auditing: bool, max: MaxAttempts, config: WorkerConfig) {
    Runs(Init(0.0, auditing), Setup(max, config)) && w == Exec(Init(0.0, auditing), Setup(max, config))
  }

  lemma SubmittedAlone(auditing: bool, max: MaxAttempts, config: WorkerConfig) returns (w: World)
    requires config.queue == "default"
    ensures IsReady(w, auditing, max, config)
    ensures Alone(w, config) && w.flights == [] && w.trails == [Born(0.0)]
    ensures w.db.rows[0].status.Pending? && w.db.rows[0].attempts == 0 && w.db.rows[0].maxAttempts == max
  {
    var w0 := Init(0.0, auditing);
    var l1, l2 := Submit(Patient(max)), Start(ONLY, config);
    StepKeepsInv(w0, l1);
    StepKeepsInv(Next(w0, l1), l2);
    RunsTwo(w0, l1, l2);
    w := Exec(w0, Setup(max, config));
  }

  /** The same run from the empty database. */
  lemma WholeRun(w: World, auditing: bool, max: MaxAttempts, config: WorkerConfig, ls: seq<Label>, last: Label)
    returns (run: seq<Label>)
    requires IsReady(w, auditing, max, config) && FailingRun(w, ls, last)
    ensures Runs(Init(0.0, auditing), run) && Exec(Init(0.0, auditing), run) == Outcome(w, ls, last)
  {
    RunsOne(Exec(w, ls), last);
    RunsAppend(w, ls, [last]);
    RunsAppend(Init(0.0, auditing), Setup(max, config), ls + [last]);
    run := Setup(max, config) + (ls + [last]);
  }

  lemma FailingRunKeeps(w: World, config: WorkerConfig, ls: seq<Label>, last: Label)
    requires Alone(w, config) && w.flights == [] && w.trails == [Born(0.0)] && FailingRun(w, ls, last)
    ensures |Outcome(w, ls, last).db.rows| == |Outcome(w, ls, last).trails| == 1
    ensures OnlyFails(Outcome(w, ls, last).trails[0], config.base, config.cap)
  {
    RunsOne(Exec(w, ls), last);
    RunsAppend(w, ls, [last]);
    RunKeepsOnlyFails(w, ls + [last], 0, config.base, config.cap);
    RowsStayOne(w, ls + [last], config.base, config.cap);
  }

  lemma HistoryOfFailures(w: World, auditing: bool, max: MaxAttempts, config: WorkerConfig, ls: seq<Label>, last: Label)
    requires IsReady(w, auditing, max, config) && config.base >= 0.0 && config.cap >= 0.0
    requires Alone(w, config) && w.flights == [] && w.trails == [Born(0.0)] && FailingRun(w, ls, last)
    ensures var w' := Outcome(w, ls, last);
            && |w'.db.rows| == |w'.trails| == 1 && OnlyFails(w'.trails[0], config.base, config.cap)
            && Fails(w'.trails[0]) + One(w'.db.rows[0].status.Running?) == w'.db.rows[0].attempts
  {
    FailingRunKeeps(w, config, ls, last);
    var run := WholeRun(w, auditing, max, config, ls, last);
    FailsOnSchedule(0.0, auditing, run, 0, config.base, config.cap);
  }

  lemma {:induction false} RowsStayOne(w: World, ls: seq<Label>, base: real, cap: real)
    requires Parallel(w) && OnlyFailuresPending(w, base, cap) && Runs(w, ls) && forall l :: l in ls ==> OnlyFailing(l)
    ensures |Exec(w, ls).db.rows| == |w.db.rows|
    decreases |ls|
  {
    if ls != [] {
      NextIsParallel(w, ls[0]);
      StepKeepsFailures(w, ls[0], base, cap);
      RowsStayOne(Next(w, ls[0]), ls[1..], base, cap);
    }
  }

  lemma NewEndsAs(r: Row, r': Row, base: real)
    requires r.attempts == 0 && EndsAs(r, r', base)
    ensures r'.status == if r.maxAttempts == 1 || !BackoffOverflows(base, r.maxAttempts - 1) then Failed else Running
  {
  }

  /** The task has failed the given number of times, one attempt each: its maximum
      if it ended as Failed; one less on record if its last failure was lost. */
  ghost predicate EndsOnSchedule(w: World, max: MaxAttempts, config: WorkerConfig, failures: nat) {
    && |w.db.rows| == |w.trails| == 1 && w.db.rows[0].maxAttempts == max
    && w.db.rows[0].attempts == failures && OnlyFails(w.trails[0], config.base, config.cap)
    && if max == 1 || !BackoffOverflows(config.base, max - 1)
       then w.db.rows[0].status.Failed? && failures == Fails(w.trails[0]) == max
       else && w.db.rows[0].status.Running? && failures == Fails(w.trails[0]) + 1 < max
            && BackoffOverflows(config.base, failures)
  }

  /** From the empty database: submit a task, start a worker, and let the task be
      claimed and fail, again and again. It ends as Failed after exactly its
      maximum of failures; or, if and only if its backoff overflows before, with
      a failure that is lost and the row left Running, for the sweeper to end. */
  lemma FailsOrSticks(auditing: bool, max: MaxAttempts, config: WorkerConfig, error: string)
    returns (w: World, ls: seq<Label>, last: Label)
    requires config.queue == "default" && config.base >= 0.0 && config.cap >= 0.0
    ensures IsReady(w, auditing, max, config) && Alone(w, config) && FailingRun(w, ls, last)
    ensures EndsOnSchedule(Outcome(w, ls, last), max, config, Settles(ls) + 1)
    ensures Outcome(w, ls, last).db.rows[0].status.Running? ==> LostFailure(Exec(w, ls), last)
  {
    w := SubmittedAlone(auditing, max, config);
    ls, last := AlwaysFailingRun(w, config, error);
    HistoryOfFailures(w, auditing, max, config, ls, last);
    ScheduleIsKept(w.db.rows[0], Outcome(w, ls, last), config, Settles(ls) + 1);
  }

  lemma ScheduleIsKept(r: Row, w': World, config: WorkerConfig, failures: nat)
    requires |w'.db.rows| == |w'.trails| == 1 && OnlyFails(w'.trails[0], config.base, config.cap)
    requires r.attempts == 0 && EndsAs(r, w'.db.rows[0], config.base) && w'.db.rows[0].attempts == failures
    requires Fails(w'.trails[0]) + One(w'.db.rows[0].status.Running?) == failures
    ensures EndsOnSchedule(w', r.maxAttempts, config, failures)
  {
    NewEndsAs(r, w'.db.rows[0], config.base);
  }

  // ---- a concrete overflow -------------------------------------------------

  const ONE_SECOND := WorkerConfig("default", None, 300.0, 1.0, 60.0)

  /** With a base delay of one second the backoff leaves the range of float8
      after attempt 1025 and not before. */
  lemma OverflowOfOneSecond(attempts: nat)
    requires attempts >= 1
    ensures BackoffOverflows(1.0, attempts) <==> attempts >= 1025
  {
    if attempts < 1025 {
      Pow2Grows(attempts, DOUBLE_EXPONENTS);
      assert RealPow2(attempts) == 2.0 * RealPow2(attempts - 1);
    }
  }

  /** The overflow does occur: a reachable state in which the task runs its 1025th
      attempt of 1026, its handler has failed, and the outcome call that follows
      leaves the row as it is. */
  lemma OverflowIsReachable() returns (w: World, ls: seq<Label>, last: Label)
    ensures IsReady(w, true, 1026, ONE_SECOND) && FailingRun(w, ls, last) && Settles(ls) == 1024
    ensures var w1 := Exec(w, ls);
            && |w1.db.rows| == 1 && w1.db.rows[0].attempts == 1025 && w1.db.rows[0].maxAttempts == 1026
            && BackoffOverflows(1.0, 1025) && LostFailure(w1, last) && w1.flights[last.flight].task == 0
  {
    OverflowOfOneSecond(1025);
    w, ls, last := FailsOrSticks(true, 1026, ONE_SECOND, "");
    OverflowOfOneSecond(Outcome(w, ls, last).db.rows[0].attempts);
    RunsKeepOneTask(w, ls, last);
  }

  lemma RunsKeepOneTask(w: World, ls: seq<Label>, last: Label)
    requires Alone(w, ONE_SECOND) && FailingRun(w, ls, last) && LostFailure(Exec(w, ls), last)
    ensures |Exec(w, ls).db.rows| == 1 && Exec(w, ls).flights[last.flight].task == 0
    ensures |Outcome(w, ls, last).db.rows| == 1 && Outcome(w, ls, last).db.rows[0] == Exec(w, ls).db.rows[0]
  {
    RowsStayOne(w, ls, ONE_SECOND.base, ONE_SECOND.cap);
    RowAfterStep(Exec(w, ls), last, 0);
  }
}
