/** The drain-timeout path of `IronDefer::start`: abort, join, release. */
module Shutdown {
  import opened Wrappers
  import opened Domain
  import opened Store
  import opened Updates
  import opened World
  import opened Invariant

  /** On whose behalf a step is taken. */
  function ActorOf(w: World, l: Label): Option<WorkerId> {
    match l
    case Poll(worker, _, _) => Some(worker)
    case PollDropped(worker, _, _) => Some(worker)
    case PollLost(worker, _, _) => Some(worker)
    case HandBack(f) => FlownBy(w, f)
    case Forget(f) => FlownBy(w, f)
    case Begin(f) => FlownBy(w, f)
    case Enter(f) => FlownBy(w, f)
    case Note(f, _) => FlownBy(w, f)
    case Return(f, _) => FlownBy(w, f)
    case Settle(f, _) => FlownBy(w, f)
    case Lose(f) => FlownBy(w, f)
    case Stop(worker) => Some(worker)
    case Drained(worker) => Some(worker)
    case Abort(worker) => Some(worker)
    case FreeLeases(worker) => Some(worker)
    case FreeFails(worker) => Some(worker)
    case Die(worker) => Some(worker)
    case _ => None
  }

  function FlownBy(w: World, f: nat): Option<WorkerId> {
    if f < |w.flights| then Some(w.flights[f].worker) else None
  }

  predicate PastDrain(w: World, worker: WorkerId) {
    InMode(w, worker, Joined) || InMode(w, worker, Released) || InMode(w, worker, Quit)
  }

  /** Past the drain, none of the worker's dispatches is still in flight. */
  ghost predicate Grounded(w: World) {
    forall f :: 0 <= f < |w.flights| && PastDrain(w, w.flights[f].worker) ==> w.flights[f].stage.Over?
  }

  lemma OverStays(w: World, l: Label, f: nat)
    requires Parallel(w) && Enabled(w, l) && f < |w.flights| && w.flights[f].stage.Over?
    ensures f < |NextFlights(w, l)| && NextFlights(w, l)[f].stage.Over?
  {
  }

  lemma PastDrainBy(w: World, l: Label, worker: WorkerId)
    requires Parallel(w) && Enabled(w, l) && worker in w.workers && PastDrain(Next(w, l), worker) && !PastDrain(w, worker)
    ensures l == Drained(worker) || l == Abort(worker)
  {
  }

  lemma FlightStaysGrounded(w: World, l: Label, f: nat)
    requires Parallel(w) && Manifest(w) && Grounded(w) && Enabled(w, l) && f < |w.flights|
    requires PastDrain(Next(w, l), w.flights[f].worker)
    ensures f < |NextFlights(w, l)| && NextFlights(w, l)[f].stage.Over?
  {
    assert Listed(w, w.flights[f]);
    if PastDrain(w, w.flights[f].worker) || l.Drained? {
      if !PastDrain(w, w.flights[f].worker) {
        PastDrainBy(w, l, w.flights[f].worker);
      }
      OverStays(w, l, f);
    } else {
      PastDrainBy(w, l, w.flights[f].worker);
    }
  }

  lemma StepKeepsGrounded(w: World, l: Label)
    requires Parallel(w) && Manifest(w) && Grounded(w) && Enabled(w, l)
    ensures Grounded(Next(w, l))
  {
    var w' := Next(w, l);
    FlightCount(w, l);
    forall f | 0 <= f < |w'.flights| && PastDrain(w', w'.flights[f].worker)
      ensures w'.flights[f].stage.Over?
    {
      if f < |w.flights| {
        FlightsPersist(w, l, f);
        FlightStaysGrounded(w, l, f);
      } else {
        NewFlightIsClaimed(w, l);
      }
    }
  }

  lemma {:induction false} RunKeepsGrounded(w: World, ls: seq<Label>)
    requires Inv(w) && Grounded(w) && Runs(w, ls)
    ensures Grounded(Exec(w, ls))
    decreases |ls|
  {
    if ls != [] {
      StepKeepsInv(w, ls[0]);
      StepKeepsGrounded(w, ls[0]);
      RunKeepsGrounded(Next(w, ls[0]), ls[1..]);
    }
  }

  lemma ReachableGrounded(w: World)
    requires Reachable(w)
    ensures Inv(w) && Grounded(w)
  {
    var start, auditing, ls :| Runs(Init(start, auditing), ls) && w == Exec(Init(start, auditing), ls);
    RunKeepsInv(Init(start, auditing), ls);
    RunKeepsGrounded(Init(start, auditing), ls);
  }

  lemma ReleasedRow(r: Row, worker: WorkerId, now: Time)
    ensures var r' := After(ReleaseWorker(worker), r, now);
            if Holds(r, worker) then
              r'.attempts == r.attempts + 1 && Eligible(r', r.queue, r.region, now) && r'.claimedBy.None?
            else r' == r
  {
  }

  /** The release: every dispatch has been joined, every row the worker holds
      becomes claimable at once at the price of one attempt, and no other row
      changes. */
  lemma ReleaseFreesRows(w: World, worker: WorkerId, i: nat)
    requires Reachable(w) && Enabled(w, FreeLeases(worker)) && i < |w.db.rows|
    ensures Parallel(w)
    ensures forall f :: 0 <= f < |w.flights| && w.flights[f].worker == worker ==> w.flights[f].stage.Over?
    ensures var r, r' := w.db.rows[i], Next(w, FreeLeases(worker)).db.rows[i];
            if Holds(r, worker) then
              r'.attempts == r.attempts + 1 && Eligible(r', r.queue, r.region, w.now) && r'.claimedBy.None?
            else r' == r
  {
    ReachableGrounded(w);
    RowAfterStep(w, FreeLeases(worker), i);
    ReleasedRow(w.db.rows[i], worker, w.now);
  }

  lemma ReleasedOnlyRunsHandlers(w: World, l: Label, worker: WorkerId)
    requires Grounded(w) && InMode(w, worker, Released) && Enabled(w, l) && ActorOf(w, l) == Some(worker)
    ensures l.Enter? || l.Note? || l.Die?
  {
  }

  lemma ReleasedStays(w: World, l: Label, worker: WorkerId)
    requires Parallel(w) && Grounded(w) && InMode(w, worker, Released) && Enabled(w, l)
    ensures InMode(Next(w, l), worker, Released)
  {
  }

  lemma ReleasedWriteIsLost(w: World, l: Label, worker: WorkerId)
    requires Inv(w) && InMode(w, worker, Released) && Enabled(w, l) && l.Note? && w.flights[l.flight].worker == worker
    ensures Next(w, l).db == w.db
  {
    forall j | 0 <= j < |w.db.rows| ensures Fires(StatementOf(w, l).value, w.db.rows[j], w.now).None? {
      assert !Holds(w.db.rows[j], worker);
    }
    CommitNone(w.db, StatementOf(w, l).value, w.now);
  }

  /** A released worker's steps leave the database alone: its detached handlers
      may still try to write checkpoints, and every such write fails. */
  lemma ReleasedStepsDoNothing(w: World, l: Label, worker: WorkerId)
    requires Inv(w) && Grounded(w) && InMode(w, worker, Released) && Enabled(w, l)
    ensures ActorOf(w, l) == Some(worker) ==> Next(w, l).db == w.db && (l.Enter? || l.Note? || l.Die?)
    ensures InMode(Next(w, l), worker, Released)
  {
    ReleasedStays(w, l, worker);
    if ActorOf(w, l) == Some(worker) {
      ReleasedOnlyRunsHandlers(w, l, worker);
      if l.Note? {
        ReleasedWriteIsLost(w, l, worker);
      }
    }
  }

  /** From the release on, in every run: no row is Running under the worker, and
      none of its steps touches the database. */
  lemma {:induction false} ReleasedForever(w: World, ls: seq<Label>, worker: WorkerId)
    requires Inv(w) && Grounded(w) && InMode(w, worker, Released) && Runs(w, ls)
    ensures var w' := Exec(w, ls);
            && Inv(w') && Grounded(w') && InMode(w', worker, Released)
            && (forall i :: 0 <= i < |w'.db.rows| ==> !Holds(w'.db.rows[i], worker))
            && (forall l :: Enabled(w', l) && ActorOf(w', l) == Some(worker) ==> Next(w', l).db == w'.db)
    decreases |ls|
  {
    if ls == [] {
      forall l | Enabled(w, l) && ActorOf(w, l) == Some(worker) ensures Next(w, l).db == w.db {
        ReleasedStepsDoNothing(w, l, worker);
      }
    } else {
      StepKeepsInv(w, ls[0]);
      StepKeepsGrounded(w, ls[0]);
      ReleasedStepsDoNothing(w, ls[0], worker);
      ReleasedForever(Next(w, ls[0]), ls[1..], worker);
    }
  }
}
