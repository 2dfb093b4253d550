/** The whole system as a state machine: one database, any number of engines
    sharing it, their sweepers and their callers. Every step is one atomic
    transaction or one local action of a worker, so a run interleaves them in
    any order; a crash leaves the worker's rows and flights as they are. */
module World {
  import opened Wrappers
  import opened Domain
  import opened Store
  import opened Scheduler
  import opened Trails

  datatype WorkerConfig = WorkerConfig(queue: string, region: Option<string>, lease: Time, base: real, cap: real)

  /** Polling: inside `run_poll_loop`. Draining: the loop returned its JoinSet.
      Joined: the drain timed out and every aborted dispatch has been joined.
      Released: the leases were released. Quit: `start` returned without a
      release. Crashed: the process died before either. An aborted dispatch
      leaves its handler running detached until the process ends. */
  datatype Mode = Polling | Draining | Joined | Released | Quit | Crashed

  datatype Worker = Worker(config: WorkerConfig, mode: Mode)

  /** How a handler ends; panics and missing handlers are failures. */
  datatype Outcome = Success | SuspendRequest | Failure(message: string)

  datatype Stage = Held | Executing | Returned | Over

  datatype Settlement = Unsettled | NothingDone | DidComplete | DidFail | DidSuspend

  /** A record that `claim_next` returned to a worker, from the claim onwards.
      `begun` marks the spawn of its dispatch, `ran` that its handler was entered;
      a dispatch without a registered handler fails before that. While
      `handlerAlive`, the handler runs or may yet run, detached if need be.
      Flights are never forgotten. */
  datatype Flight = Flight(
    worker: WorkerId,
    task: nat,
    attempt: nat,
    checkpoint: Option<Json>,
    signal: Option<Json>,
    stage: Stage,
    begun: bool,
    handlerAlive: bool,
    ran: bool,
    outcome: Option<Outcome>,
    settlement: Settlement)

  /** `trails` runs parallel to `db.rows`; a task is named by its position. */
  datatype World = World(
    now: Time,
    db: Db,
    trails: seq<Trail>,
    workers: map<WorkerId, Worker>,
    flights: seq<Flight>)

  /** `PollDropped`: the claim committed while its future was dropped on
      cancellation. `PollLost`: it committed and its answer was lost, an error
      to the poll loop. `Forget`: handing the task back failed. `Lose`: the
      dispatch ended without an outcome call that reached the database. */
  datatype Label =
    | Advance(to: Time)
    | Submit(submission: Submission)
    | SubmitKeyed(submission: Submission, key: string, retention: Time)
    | Start(worker: WorkerId, config: WorkerConfig)
    | Poll(worker: WorkerId, pick: Option<nat>, locked: set<nat>)
    | PollDropped(worker: WorkerId, pick: Option<nat>, locked: set<nat>)
    | PollLost(worker: WorkerId, pick: Option<nat>, locked: set<nat>)
    | HandBack(flight: nat)
    | Forget(flight: nat)
    | Begin(flight: nat)
    | Enter(flight: nat)
    | Note(flight: nat, data: Json)
    | Return(flight: nat, outcome: Outcome)
    | Settle(flight: nat, jitter: real)
    | Lose(flight: nat)
    | Stop(worker: WorkerId)
    | Drained(worker: WorkerId)
    | Abort(worker: WorkerId)
    | FreeLeases(worker: WorkerId)
    | FreeFails(worker: WorkerId)
    | Die(worker: WorkerId)
    | SweepZombies
    | SweepKeys
    | SweepSuspended(timeout: Time)
    | Resume(id: TaskId, payload: Option<Json>)
    | Withdraw(id: TaskId)

  function Init(start: Time, auditing: bool): World {
    World(start, Db(auditing, [], []), [], map[], [])
  }

  // ---- guards --------------------------------------------------------------

  predicate InMode(w: World, worker: WorkerId, mode: Mode) {
    worker in w.workers && w.workers[worker].mode == mode
  }

  /** The worker still drives its dispatch futures. */
  predicate Drives(w: World, worker: WorkerId) {
    InMode(w, worker, Polling) || InMode(w, worker, Draining)
  }

  predicate HoldsTask(w: World, worker: WorkerId) {
    exists f :: 0 <= f < |w.flights| && w.flights[f].worker == worker && w.flights[f].stage.Held?
  }

  ghost predicate MayClaim(w: World, worker: WorkerId, pick: Option<nat>, locked: set<nat>) {
    && InMode(w, worker, Polling) && !HoldsTask(w, worker)
    && var config := w.workers[worker].config;
       IsPick(w.db.rows, config.queue, config.region, w.now, locked, pick)
  }

  predicate AtStage(w: World, flight: nat, stage: Stage) {
    flight < |w.flights| && w.flights[flight].stage == stage && w.flights[flight].task < |w.db.rows|
  }

  ghost predicate Enabled(w: World, l: Label) {
    match l
    case Advance(to) => w.now <= to
    case Submit(_) => true
    case SubmitKeyed(_, _, _) => true
    case Start(worker, _) => worker !in w.workers
    case Poll(worker, pick, locked) => MayClaim(w, worker, pick, locked)
    case PollDropped(worker, pick, locked) => MayClaim(w, worker, pick, locked)
    case PollLost(worker, pick, locked) => MayClaim(w, worker, pick, locked)
    case HandBack(f) => AtStage(w, f, Held) && InMode(w, w.flights[f].worker, Polling)
    case Forget(f) => AtStage(w, f, Held) && InMode(w, w.flights[f].worker, Polling)
    case Begin(f) => AtStage(w, f, Held) && InMode(w, w.flights[f].worker, Polling)
    case Enter(f) => f < |w.flights| && w.flights[f].handlerAlive
    case Note(f, _) =>
      f < |w.flights| && w.flights[f].handlerAlive && w.flights[f].ran && w.flights[f].task < |w.db.rows|
    case Return(f, outcome) =>
      && AtStage(w, f, Executing) && Drives(w, w.flights[f].worker)
      && (w.flights[f].ran || outcome.Failure?)
    case Settle(f, jitter) =>
      && AtStage(w, f, Returned) && Drives(w, w.flights[f].worker)
      && w.flights[f].outcome.Some? && 0.75 <= jitter < 1.25
    case Lose(f) => (AtStage(w, f, Executing) || AtStage(w, f, Returned)) && Drives(w, w.flights[f].worker)
    case Stop(worker) => InMode(w, worker, Polling) && !HoldsTask(w, worker)
    case Drained(worker) =>
      && InMode(w, worker, Draining)
      && forall f :: 0 <= f < |w.flights| && w.flights[f].worker == worker ==> w.flights[f].stage.Over?
    case Abort(worker) => InMode(w, worker, Draining)
    case FreeLeases(worker) => InMode(w, worker, Joined)
    case FreeFails(worker) => InMode(w, worker, Joined)
    case Die(worker) => worker in w.workers
    case SweepZombies => true
    case SweepKeys => true
    case SweepSuspended(_) => true
    case Resume(_, _) => true
    case Withdraw(_) => true
  }

  // ---- effects -------------------------------------------------------------

  function TaskOf(w: World, f: nat): TaskId
    requires f < |w.flights| && w.flights[f].task < |w.db.rows|
  {
    w.db.rows[w.flights[f].task].id
  }

  function ClaimStatement(w: World, worker: WorkerId, pick: Option<nat>): Option<Statement>
    requires worker in w.workers && (pick.Some? ==> pick.value < |w.db.rows|)
  {
    match pick
    case None => None
    case Some(i) => Some(ClaimTask(w.db.rows[i].id, worker, w.workers[worker].config.lease))
  }

  /** `dispatch_task` after the handler returned. */
  function OutcomeStatement(w: World, f: nat, jitter: real): Statement
    requires f < |w.flights| && w.flights[f].task < |w.db.rows|
    requires w.flights[f].worker in w.workers && w.flights[f].outcome.Some?
  {
    var config := w.workers[w.flights[f].worker].config;
    match w.flights[f].outcome.value
    case Success => CompleteTask(TaskOf(w, f))
    case SuspendRequest => SuspendTask(TaskOf(w, f))
    case Failure(message) => FailTask(TaskOf(w, f), message, config.base, config.cap, jitter)
  }

  /** The repository transaction of a step, if it has one. */
  ghost function StatementOf(w: World, l: Label): Option<Statement>
    requires Enabled(w, l)
  {
    match l
    case Poll(worker, pick, _) => ClaimStatement(w, worker, pick)
    case PollDropped(worker, pick, _) => ClaimStatement(w, worker, pick)
    case PollLost(worker, pick, _) => ClaimStatement(w, worker, pick)
    case HandBack(f) => Some(ReleaseTask(TaskOf(w, f)))
    case Note(f, data) => Some(WriteCheckpoint(TaskOf(w, f), w.flights[f].worker, data))
    case Settle(f, jitter) => Some(OutcomeStatement(w, f, jitter))
    case FreeLeases(worker) => Some(ReleaseWorker(worker))
    case SweepZombies => Some(RecoverZombies)
    case SweepKeys => Some(CleanupKeys)
    case SweepSuspended(timeout) => Some(ExpireSuspended(timeout))
    case Resume(id, payload) => Some(SignalTask(id, payload))
    case Withdraw(id) => Some(CancelTask(id))
    case _ => None
  }

  function Settled(w: World, f: nat, jitter: real): Settlement
    requires f < |w.flights| && w.flights[f].task < |w.db.rows|
    requires w.flights[f].worker in w.workers && w.flights[f].outcome.Some?
  {
    match Fires(OutcomeStatement(w, f, jitter), w.db.rows[w.flights[f].task], w.now)
    case None => NothingDone
    case Some(Complete) => DidComplete
    case Some(Suspend) => DidSuspend
    case Some(_) => DidFail
  }

  /** The record a claim returns to its worker. */
  function NewFlight(worker: WorkerId, i: nat, row: Row): Flight {
    Flight(worker, i, row.attempts, row.checkpoint, row.signalPayload, Held, false, false, false, None, Unsettled)
  }

  ghost function NextFlights(w: World, l: Label): seq<Flight>
    requires Enabled(w, l)
  {
    match l
    case Poll(worker, Some(i), _) =>
      var row := After(ClaimStatement(w, worker, Some(i)).value, w.db.rows[i], w.now);
      if Maps(row) then w.flights + [NewFlight(worker, i, row)] else w.flights
    case HandBack(f) => w.flights[f := w.flights[f].(stage := Over)]
    case Forget(f) => w.flights[f := w.flights[f].(stage := Over)]
    case Begin(f) => w.flights[f := w.flights[f].(stage := Executing, begun := true, handlerAlive := true)]
    case Enter(f) => w.flights[f := w.flights[f].(ran := true)]
    case Return(f, outcome) =>
      w.flights[f := w.flights[f].(stage := Returned, handlerAlive := false, outcome := Some(outcome))]
    case Settle(f, jitter) => w.flights[f := w.flights[f].(stage := Over, settlement := Settled(w, f, jitter))]
    case Lose(f) => w.flights[f := w.flights[f].(stage := Over, handlerAlive := false)]
    case Abort(worker) =>
      seq(|w.flights|, f requires 0 <= f < |w.flights| =>
        if w.flights[f].worker == worker then w.flights[f].(stage := Over) else w.flights[f])
    case Die(worker) =>
      seq(|w.flights|, f requires 0 <= f < |w.flights| =>
        if w.flights[f].worker == worker then w.flights[f].(handlerAlive := false) else w.flights[f])
    case _ => w.flights
  }

  function SetMode(w: World, worker: WorkerId, mode: Mode): map<WorkerId, Worker>
    requires worker in w.workers
  {
    w.workers[worker := w.workers[worker].(mode := mode)]
  }

  ghost function NextWorkers(w: World, l: Label): map<WorkerId, Worker>
    requires Enabled(w, l)
  {
    match l
    case Start(worker, config) => w.workers[worker := Worker(config, Polling)]
    case PollDropped(worker, _, _) => SetMode(w, worker, Draining)
    case HandBack(f) => SetMode(w, w.flights[f].worker, Draining)
    case Forget(f) => SetMode(w, w.flights[f].worker, Draining)
    case Stop(worker) => SetMode(w, worker, Draining)
    case Drained(worker) => SetMode(w, worker, Quit)
    case Abort(worker) => SetMode(w, worker, Joined)
    case FreeLeases(worker) => SetMode(w, worker, Released)
    case FreeFails(worker) => SetMode(w, worker, Quit)
    case Die(worker) => if InMode(w, worker, Released) then w.workers else SetMode(w, worker, Crashed)
    case _ => w.workers
  }

  function Extended(s: Statement, rows: seq<Row>, trails: seq<Trail>, now: Time): seq<Trail>
    requires |trails| == |rows|
  {
    seq(|rows|, i requires 0 <= i < |rows| =>
      match Fires(s, rows[i], now)
      case Some(e) => Then(trails[i], e, now)
      case None => trails[i])
  }

  /** What `save` leaves, given the record or the scheduler's refusal. */
  function AfterSubmit(w: World, l: Label): Db
    requires l.Submit? || l.SubmitKeyed?
  {
    match l
    case Submit(submission) =>
      (match Record(submission, w.now)
       case Err(_) => w.db
       case Ok(record) => Save(w.db, record, w.now).0)
    case SubmitKeyed(submission, key, retention) =>
      (match KeyedRecord(submission, key, retention, w.now)
       case Err(_) => w.db
       case Ok(record) => SaveIdempotent(w.db, record, w.now).0)
  }

  ghost predicate Parallel(w: World) {
    |w.trails| == |w.db.rows|
  }

  ghost function Next(w: World, l: Label): World
    requires Parallel(w) && Enabled(w, l)
  {
    if l.Advance? then w.(now := l.to)
    else if l.Submit? || l.SubmitKeyed? then
      var db := AfterSubmit(w, l);
      w.(db := db, trails := if |db.rows| > |w.db.rows| then w.trails + [Born(w.now)] else w.trails)
    else
      match StatementOf(w, l)
      case None => w.(workers := NextWorkers(w, l), flights := NextFlights(w, l))
      case Some(s) =>
        World(w.now, Commit(w.db, s, w.now), Extended(s, w.db.rows, w.trails, w.now),
              NextWorkers(w, l), NextFlights(w, l))
  }

  lemma NextIsParallel(w: World, l: Label)
    requires Parallel(w) && Enabled(w, l)
    ensures Parallel(Next(w, l))
  {
  }

  // ---- runs ----------------------------------------------------------------

  /** The labels can be taken one after the other from w. */
  ghost predicate Runs(w: World, ls: seq<Label>)
    requires Parallel(w)
    decreases |ls|
  {
    ls == [] || (Enabled(w, ls[0]) && (NextIsParallel(w, ls[0]); Runs(Next(w, ls[0]), ls[1..])))
  }

  ghost function Exec(w: World, ls: seq<Label>): (w': World)
    requires Parallel(w) && Runs(w, ls)
    ensures Parallel(w')
    decreases |ls|
  {
    if ls == [] then w
    else
      NextIsParallel(w, ls[0]);
      Exec(Next(w, ls[0]), ls[1..])
  }

  lemma {:induction false} RunsAppend(w: World, before: seq<Label>, after: seq<Label>)
    requires Parallel(w) && Runs(w, before) && Runs(Exec(w, before), after)
    ensures Runs(w, before + after) && Exec(w, before + after) == Exec(Exec(w, before), after)
    decreases |before|
  {
    if before == [] {
      assert before + after == after;
    } else {
      NextIsParallel(w, before[0]);
      RunsAppend(Next(w, before[0]), before[1..], after);
      assert (before + after)[1..] == before[1..] + after;
    }
  }

  lemma RunsOne(w: World, l: Label)
    requires Parallel(w) && Enabled(w, l)
    ensures Runs(w, [l]) && Exec(w, [l]) == Next(w, l)
  {
    NextIsParallel(w, l);
    assert [l][1..] == [];
  }

  lemma RunsTwo(w: World, l1: Label, l2: Label)
    requires Parallel(w) && Enabled(w, l1)
    requires Parallel(Next(w, l1)) && Enabled(Next(w, l1), l2)
    ensures Runs(w, [l1, l2]) && Exec(w, [l1, l2]) == Next(Next(w, l1), l2)
    ensures forall l :: l in [l1, l2] ==> l == l1 || l == l2
  {
    RunsOne(w, l1);
    RunsOne(Next(w, l1), l2);
    RunsAppend(w, [l1], [l2]);
    assert [l1] + [l2] == [l1, l2];
  }
}
