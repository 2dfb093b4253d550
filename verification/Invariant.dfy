/** What holds of every reachable state: rows and histories, flights and
    claims, terminal statuses and released workers. */
module Invariant {
  import opened Wrappers
  import opened Domain
  import opened RowEvents
  import opened Store
  import opened Scheduler
  import opened Trails
  import opened World

  ghost predicate AllSound(w: World) {
    Parallel(w) && forall i :: 0 <= i < |w.db.rows| ==> Sound(w.db.rows[i], w.trails[i], w.now)
  }

  // ---- rows ----------------------------------------------------------------

  lemma StatementKeepsSound(w: World, l: Label, i: nat)
    requires AllSound(w) && Enabled(w, l) && StatementOf(w, l).Some? && i < |w.db.rows|
    ensures Sound(Next(w, l).db.rows[i], Next(w, l).trails[i], Next(w, l).now)
  {
    var s := StatementOf(w, l).value;
    FiresAllowed(s, w.db.rows[i], w.now);
    if Fires(s, w.db.rows[i], w.now).Some? {
      EventKeepsSound(w.db.rows[i], w.trails[i], Fires(s, w.db.rows[i], w.now).value, w.now);
    }
  }

  /** An insert appends one fresh pending row, or the table stays as it is. */
  lemma SubmitAppends(w: World, l: Label)
    requires Consistent(w.db.rows) && (l.Submit? || l.SubmitKeyed?)
    ensures var rows' := AfterSubmit(w, l).rows;
            && Consistent(rows')
            && (rows' == w.db.rows
                || (|rows'| == |w.db.rows| + 1 && rows'[..|w.db.rows|] == w.db.rows
                    && Sound(rows'[|w.db.rows|], Born(w.now), w.now) && rows'[|w.db.rows|].status.Pending?))
  {
    var record := if l.Submit? then Record(l.submission, w.now)
                  else KeyedRecord(l.submission, l.key, l.retention, w.now);
    if record.Ok? {
      var r := record.value;
      if !HasId(w.db.rows, r.id) && !KeyConflict(w.db.rows, r) {
        InsertConsistent(w.db, r, w.now);
        BirthIsSound(Inserted(r, w.now), w.now);
      }
    }
  }

  lemma StepKeepsSound(w: World, l: Label)
    requires AllSound(w) && Consistent(w.db.rows) && Enabled(w, l)
    ensures AllSound(Next(w, l)) && Consistent(Next(w, l).db.rows)
  {
    NextIsParallel(w, l);
    var w' := Next(w, l);
    if l.Submit? || l.SubmitKeyed? {
      SubmitAppends(w, l);
      assert forall i :: 0 <= i < |w.db.rows| ==> w'.db.rows[i] == w'.db.rows[..|w.db.rows|][i] == w.db.rows[i];
    } else if l.Advance? {
      forall i | 0 <= i < |w.db.rows| ensures Sound(w'.db.rows[i], w'.trails[i], w'.now) {
        TimePasses(w.db.rows[i], w.trails[i], w.now, l.to);
      }
    } else if StatementOf(w, l).Some? {
      CommitConsistent(w.db, StatementOf(w, l).value, w.now);
      forall i | 0 <= i < |w.db.rows| ensures Sound(w'.db.rows[i], w'.trails[i], w'.now) {
        StatementKeepsSound(w, l, i);
      }
    }
  }

  /** A task keeps its position, its identity columns and its past. */
  lemma StepKeepsTask(w: World, l: Label, i: nat)
    requires Parallel(w) && Consistent(w.db.rows) && Enabled(w, l) && i < |w.db.rows|
    ensures var w' := Next(w, l);
            && |w.db.rows| <= |w'.db.rows| && Parallel(w')
            && SameIdentity(w.db.rows[i], w'.db.rows[i])
            && w.db.rows[i].attempts <= w'.db.rows[i].attempts
            && (|w.db.rows| < |w'.db.rows| || w'.now != w.now ==> w'.db.rows[i] == w.db.rows[i] && w'.trails[i] == w.trails[i])
  {
    NextIsParallel(w, l);
    if l.Submit? || l.SubmitKeyed? {
      SubmitKeepsTask(w, l, i);
    } else if !l.Advance? && StatementOf(w, l).Some? {
      AfterKeepsTask(StatementOf(w, l).value, w.db.rows[i], w.now);
    }
  }

  lemma SubmitKeepsTask(w: World, l: Label, i: nat)
    requires Consistent(w.db.rows) && (l.Submit? || l.SubmitKeyed?) && i < |w.db.rows|
    ensures var rows' := AfterSubmit(w, l).rows; |w.db.rows| <= |rows'| && rows'[i] == w.db.rows[i]
  {
    SubmitAppends(w, l);
    var rows' := AfterSubmit(w, l).rows;
    assert rows'[..|w.db.rows|][i] == w.db.rows[i];
  }

  lemma AfterKeepsTask(s: Statement, r: Row, now: Time)
    ensures SameIdentity(r, After(s, r, now)) && r.attempts <= After(s, r, now).attempts
  {
  }

  // ---- flights -------------------------------------------------------------

  predicate Progressed(f: Flight) {
    && (f.stage.Held? ==> !f.begun && f.outcome.None?)
    && (f.stage.Executing? ==> f.begun && f.outcome.None?)
    && (f.stage.Returned? ==> f.begun && f.outcome.Some?)
    && (f.handlerAlive ==> f.begun)
    && (f.ran ==> f.begun)
    && (f.outcome.Some? && !f.outcome.value.Failure? ==> f.ran)
    && (!f.stage.Over? ==> f.settlement.Unsettled?)
    && (!f.settlement.Unsettled? ==> f.begun && f.outcome.Some?)
    && (f.settlement.DidComplete? ==> f.outcome == Some(Success))
    && (f.settlement.DidSuspend? ==> f.outcome == Some(SuspendRequest))
  }

  ghost predicate Manifest(w: World) {
    forall f :: 0 <= f < |w.flights| ==> Listed(w, w.flights[f])
  }

  /** In claim order the attempt numbers of a task strictly increase. */
  ghost predicate OrderedAttempts(flights: seq<Flight>) {
    forall f, g :: 0 <= f < g < |flights| && flights[f].task == flights[g].task ==>
      flights[f].attempt < flights[g].attempt
  }

  /** No step forgets a flight or changes which claim it stands for. */
  lemma FlightsPersist(w: World, l: Label, f: nat)
    requires Parallel(w) && Enabled(w, l) && f < |w.flights|
    ensures var flights' := NextFlights(w, l);
            && |w.flights| <= |flights'| <= |w.flights| + 1
            && flights'[f].task == w.flights[f].task && flights'[f].attempt == w.flights[f].attempt
            && flights'[f].worker == w.flights[f].worker
            && flights'[f].checkpoint == w.flights[f].checkpoint && flights'[f].signal == w.flights[f].signal
            && (w.flights[f].begun ==> flights'[f].begun) && (w.flights[f].ran ==> flights'[f].ran)
            && (!w.flights[f].settlement.Unsettled? && Progressed(w.flights[f]) ==>
                  flights'[f].settlement == w.flights[f].settlement && flights'[f].outcome == w.flights[f].outcome)
            && (Progressed(w.flights[f]) ==> Progressed(flights'[f]))
  {
  }

  /** Only a claim makes a flight, and it carries the row the claim wrote. */
  lemma NewFlightIsClaimed(w: World, l: Label)
    requires Parallel(w) && Enabled(w, l) && |NextFlights(w, l)| > |w.flights|
    ensures l.Poll? && l.pick.Some? && l.pick.value < |w.db.rows|
    ensures var i := l.pick.value;
            var row := Next(w, l).db.rows[i];
            && NextFlights(w, l)[|w.flights|] == NewFlight(l.worker, i, row)
            && row.attempts == w.db.rows[i].attempts + 1 && Maps(row)
            && row.status.Running? && row.claimedBy == Some(l.worker)
            && Next(w, l).trails[i] == Then(w.trails[i], Claim(l.worker, w.workers[l.worker].config.lease), w.now)
  {
  }

  ghost predicate Listed(w: World, f: Flight) {
    && f.task < |w.db.rows|
    && f.worker in w.workers
    && 1 <= f.attempt <= w.db.rows[f.task].attempts
    && f.attempt <= w.db.rows[f.task].maxAttempts
    && Progressed(f)
  }

  lemma FlightStaysListed(w: World, l: Label, f: nat)
    requires Parallel(w) && Consistent(w.db.rows) && Enabled(w, l) && f < |w.flights| && Listed(w, w.flights[f])
    ensures var flights' := Next(w, l).flights;
            && |w.flights| <= |flights'| <= |w.flights| + 1
            && Listed(Next(w, l), flights'[f])
            && flights'[f].task == w.flights[f].task && flights'[f].attempt == w.flights[f].attempt
  {
    FlightsPersist(w, l, f);
    StepKeepsTask(w, l, w.flights[f].task);
    assert w.workers.Keys <= Next(w, l).workers.Keys;
  }

  lemma NewFlightIsListed(w: World, l: Label)
    requires Parallel(w) && Enabled(w, l) && |Next(w, l).flights| > |w.flights|
    ensures var f := Next(w, l).flights[|w.flights|];
            Listed(Next(w, l), f) && f.task < |w.db.rows| && f.attempt == w.db.rows[f.task].attempts + 1
  {
    NewFlightIsClaimed(w, l);
  }

  lemma FlightCount(w: World, l: Label)
    requires Parallel(w) && Enabled(w, l)
    ensures |w.flights| <= |Next(w, l).flights| <= |w.flights| + 1
  {
  }

  /** A claim raises `attempts` past the attempt of every earlier claim. */
  lemma StepKeepsManifest(w: World, l: Label)
    requires Parallel(w) && Consistent(w.db.rows) && Manifest(w) && OrderedAttempts(w.flights) && Enabled(w, l)
    ensures Manifest(Next(w, l)) && OrderedAttempts(Next(w, l).flights)
  {
    var w' := Next(w, l);
    FlightCount(w, l);
    forall f | 0 <= f < |w.flights|
      ensures Listed(w', w'.flights[f])
      ensures w'.flights[f].task == w.flights[f].task && w'.flights[f].attempt == w.flights[f].attempt
    {
      FlightStaysListed(w, l, f);
    }
    if |w'.flights| > |w.flights| {
      NewFlightIsListed(w, l);
    }
    ManifestExtends(w, w');
  }

  lemma ManifestExtends(w: World, w': World)
    requires Manifest(w) && OrderedAttempts(w.flights)
    requires |w.flights| <= |w'.flights| <= |w.flights| + 1
    requires forall f :: 0 <= f < |w.flights| ==>
               Listed(w', w'.flights[f])
               && w'.flights[f].task == w.flights[f].task && w'.flights[f].attempt == w.flights[f].attempt
    requires |w'.flights| > |w.flights| ==>
               var f := w'.flights[|w.flights|];
               Listed(w', f) && f.task < |w.db.rows| && f.attempt == w.db.rows[f.task].attempts + 1
    ensures Manifest(w') && OrderedAttempts(w'.flights)
  {
    forall f, g | 0 <= f < g < |w'.flights| && w'.flights[f].task == w'.flights[g].task
      ensures w'.flights[f].attempt < w'.flights[g].attempt
    {
      if g == |w.flights| {
        assert Listed(w, w.flights[f]);
      }
    }
  }

  // ---- flights and their claims --------------------------------------------

  /** The flight stands for a claim in the task's history and carries what had
      been written and signalled by then. */
  predicate Tied(f: Flight, trails: seq<Trail>) {
    && f.task < |trails|
    && AtClaim(trails[f.task], f.attempt).Some?
    && var p := AtClaim(trails[f.task], f.attempt).value;
       p.event.worker == f.worker && f.checkpoint == LatestWrite(p) && f.signal == LatestSignal(p)
  }

  ghost predicate AllTied(w: World) {
    forall f :: 0 <= f < |w.flights| ==> Tied(w.flights[f], w.trails)
  }

  lemma TieStays(w: World, l: Label, f: Flight)
    requires Parallel(w) && Consistent(w.db.rows) && Enabled(w, l) && Tied(f, w.trails)
    ensures Tied(f, Next(w, l).trails)
  {
    TaskAfterStep(w, l, f.task);
    var t, t' := w.trails[f.task], Next(w, l).trails[f.task];
    if t' != t {
      AtClaimStays(t, t'.event, t'.at, f.attempt);
    }
  }

  lemma NewFlightIsTied(w: World, l: Label)
    requires AllSound(w) && Enabled(w, l) && |NextFlights(w, l)| > |w.flights|
    ensures Tied(NextFlights(w, l)[|w.flights|], Next(w, l).trails)
  {
    NewFlightIsClaimed(w, l);
    NextIsParallel(w, l);
    assert Sound(w.db.rows[l.pick.value], w.trails[l.pick.value], w.now);
  }

  lemma StepKeepsTied(w: World, l: Label)
    requires AllSound(w) && Consistent(w.db.rows) && AllTied(w) && Enabled(w, l)
    ensures AllTied(Next(w, l))
  {
    FlightCount(w, l);
    forall f | 0 <= f < |Next(w, l).flights| ensures Tied(Next(w, l).flights[f], Next(w, l).trails) {
      if f < |w.flights| {
        TieStays(w, l, w.flights[f]);
        FlightsPersist(w, l, f);
      } else {
        NewFlightIsTied(w, l);
      }
    }
  }

  lemma HeldStayedHeld(w: World, l: Label, f: nat)
    requires Parallel(w) && Enabled(w, l) && f < |w.flights| && w.flights[f].worker in w.workers
    requires f < |Next(w, l).flights| && Next(w, l).flights[f].stage.Held?
    requires InMode(Next(w, l), w.flights[f].worker, Polling)
    ensures w.flights[f].stage.Held? && InMode(w, w.flights[f].worker, Polling)
  {
  }

  /** A poll loop claims only when it holds no task. */
  ghost predicate HoldsOne(flights: seq<Flight>) {
    forall f, g :: 0 <= f < g < |flights| && flights[f].stage.Held? && flights[g].stage.Held? ==>
      flights[f].worker != flights[g].worker
  }

  lemma StageGoesOn(w: World, l: Label, f: nat)
    requires Parallel(w) && Enabled(w, l) && f < |w.flights|
    ensures f < |NextFlights(w, l)| && (NextFlights(w, l)[f].stage.Held? ==> w.flights[f].stage.Held?)
  {
  }

  lemma StepKeepsHoldsOne(w: World, l: Label)
    requires Parallel(w) && HoldsOne(w.flights) && Enabled(w, l)
    ensures HoldsOne(Next(w, l).flights)
  {
    var flights' := Next(w, l).flights;
    FlightCount(w, l);
    forall f, g | 0 <= f < g < |flights'| && flights'[f].stage.Held? && flights'[g].stage.Held?
      ensures flights'[f].worker != flights'[g].worker
    {
      StageGoesOn(w, l, f);
      FlightsPersist(w, l, f);
      if g < |w.flights| {
        StageGoesOn(w, l, g);
        FlightsPersist(w, l, g);
      } else {
        NewFlightIsClaimed(w, l);
        assert !HoldsTask(w, l.worker);
      }
    }
  }

  // ---- suspensions and completions -----------------------------------------

  function SuspendedBy(flights: seq<Flight>, i: nat): set<nat> {
    set f | 0 <= f < |flights| && flights[f].task == i && flights[f].settlement.DidSuspend?
  }

  ghost predicate SuspendsAttributed(w: World) {
    Parallel(w) && forall i :: 0 <= i < |w.trails| ==> Suspends(w.trails[i]) == |SuspendedBy(w.flights, i)|
  }

  ghost predicate CompletesAttributed(w: World) {
    forall i :: 0 <= i < |w.db.rows| && w.db.rows[i].status.Completed? ==> CompletedBy(w.flights, i)
  }

  /** A row is suspended or completed by a Settle step of a flight of that task. */
  lemma OnlySettleEnds(w: World, l: Label, i: nat)
    requires Parallel(w) && Consistent(w.db.rows) && Enabled(w, l) && i < |w.db.rows|
    requires StatementOf(w, l).Some?
    requires Fires(StatementOf(w, l).value, w.db.rows[i], w.now) in {Option.Some(Event.Suspend), Option.Some(Event.Complete)}
    ensures l.Settle? && w.flights[l.flight].task == i
    ensures NextFlights(w, l)[l.flight].settlement
            == if Fires(StatementOf(w, l).value, w.db.rows[i], w.now).value.Suspend? then DidSuspend else DidComplete
  {
    var f := l.flight;
    assert w.db.rows[i].id == TaskOf(w, f);
  }

  ghost predicate CompletedBy(flights: seq<Flight>, i: nat) {
    exists f :: 0 <= f < |flights| && flights[f].task == i && flights[f].settlement.DidComplete?
  }

  lemma CompletedStays(w: World, l: Label, i: nat)
    requires Parallel(w) && Manifest(w) && Enabled(w, l) && CompletedBy(w.flights, i)
    ensures CompletedBy(Next(w, l).flights, i)
  {
    var f :| 0 <= f < |w.flights| && w.flights[f].task == i && w.flights[f].settlement.DidComplete?;
    assert Listed(w, w.flights[f]);
    FlightsPersist(w, l, f);
    assert Next(w, l).flights[f].settlement.DidComplete?;
  }

  lemma SettleCompletes(w: World, l: Label, i: nat)
    requires Parallel(w) && Consistent(w.db.rows) && Enabled(w, l) && i < |w.db.rows| && StatementOf(w, l).Some?
    requires Fires(StatementOf(w, l).value, w.db.rows[i], w.now) == Option.Some(Event.Complete)
    ensures CompletedBy(NextFlights(w, l), i)
  {
    OnlySettleEnds(w, l, i);
    FlightsPersist(w, l, l.flight);
    assert NextFlights(w, l)[l.flight].settlement.DidComplete?;
  }

  lemma CompletedNow(s: Statement, r: Row, now: Time)
    requires After(s, r, now).status.Completed? && !r.status.Completed?
    ensures Fires(s, r, now) == Option.Some(Event.Complete)
  {
  }

  lemma RowStepKeepsCompletes(w: World, l: Label, i: nat)
    requires Parallel(w) && Consistent(w.db.rows) && Manifest(w) && Enabled(w, l) && i < |w.db.rows|
    requires w.db.rows[i].status.Completed? ==> CompletedBy(w.flights, i)
    requires |Next(w, l).db.rows| > i && Next(w, l).db.rows[i].status.Completed?
    ensures CompletedBy(Next(w, l).flights, i)
  {
    if w.db.rows[i].status.Completed? {
      CompletedStays(w, l, i);
    } else if l.Submit? || l.SubmitKeyed? {
      SubmitKeepsTask(w, l, i);
    } else {
      RowAfterStep(w, l, i);
      CompletedNow(StatementOf(w, l).value, w.db.rows[i], w.now);
      SettleCompletes(w, l, i);
    }
  }

  /** The rows that are new after a step are pending. */
  lemma NewRowsArePending(w: World, l: Label, i: nat)
    requires AllSound(w) && Consistent(w.db.rows) && Enabled(w, l) && |w.db.rows| <= i < |Next(w, l).db.rows|
    ensures (l.Submit? || l.SubmitKeyed?) && i == |w.db.rows| && Next(w, l).db.rows[i].status.Pending?
    ensures Next(w, l).trails[i] == Born(w.now)
  {
    if l.Submit? || l.SubmitKeyed? {
      SubmitAppends(w, l);
    }
  }

  lemma StepKeepsCompletes(w: World, l: Label)
    requires AllSound(w) && Consistent(w.db.rows) && Manifest(w) && CompletesAttributed(w) && Enabled(w, l)
    ensures CompletesAttributed(Next(w, l))
  {
    forall i | 0 <= i < |Next(w, l).db.rows| && Next(w, l).db.rows[i].status.Completed?
      ensures CompletedBy(Next(w, l).flights, i)
    {
      if i >= |w.db.rows| {
        NewRowsArePending(w, l, i);
      } else {
        RowStepKeepsCompletes(w, l, i);
      }
    }
  }

  lemma SettleAdds(flights: seq<Flight>, f: nat, flight: Flight, i: nat)
    requires f < |flights| && flight.task == flights[f].task && !flights[f].settlement.DidSuspend?
    ensures SuspendedBy(flights[f := flight], i)
            == SuspendedBy(flights, i) + if flight.task == i && flight.settlement.DidSuspend? then {f} else {}
    ensures f !in SuspendedBy(flights, i)
  {
  }

  lemma SameSettlements(flights: seq<Flight>, flights': seq<Flight>, i: nat)
    requires |flights| <= |flights'|
    requires forall f :: 0 <= f < |flights| ==>
               flights'[f].task == flights[f].task
               && (flights'[f].settlement.DidSuspend? <==> flights[f].settlement.DidSuspend?)
    requires forall f :: |flights| <= f < |flights'| ==> !flights'[f].settlement.DidSuspend?
    ensures SuspendedBy(flights', i) == SuspendedBy(flights, i)
  {
  }

  lemma OtherStepsSettleNothing(w: World, l: Label, i: nat)
    requires Parallel(w) && Enabled(w, l) && !l.Settle?
    ensures SuspendedBy(Next(w, l).flights, i) == SuspendedBy(w.flights, i)
  {
    FlightCount(w, l);
    forall f | 0 <= f < |w.flights|
      ensures Next(w, l).flights[f].task == w.flights[f].task
      ensures Next(w, l).flights[f].settlement == w.flights[f].settlement
    {
    }
    if |Next(w, l).flights| > |w.flights| {
      NewFlightIsClaimed(w, l);
    }
    SameSettlements(w.flights, Next(w, l).flights, i);
  }

  lemma OtherStepsSuspendNothing(w: World, l: Label, i: nat)
    requires Parallel(w) && Consistent(w.db.rows) && Enabled(w, l) && !l.Settle? && i < |w.trails|
    ensures i < |Next(w, l).trails| && Suspends(Next(w, l).trails[i]) == Suspends(w.trails[i])
  {
    StepKeepsTask(w, l, i);
    if !l.Submit? && !l.SubmitKeyed? && !l.Advance? && StatementOf(w, l).Some? {
      OnlySettleSuspends(w, l, w.db.rows[i]);
    }
  }

  lemma OnlySettleSuspends(w: World, l: Label, r: Row)
    requires Enabled(w, l) && !l.Settle? && StatementOf(w, l).Some?
    ensures Fires(StatementOf(w, l).value, r, w.now) != Some(Event.Suspend)
  {
  }

  lemma SettleKeepsSuspends(w: World, l: Label, i: nat)
    requires Parallel(w) && Consistent(w.db.rows) && Manifest(w) && Enabled(w, l) && l.Settle?
    requires i < |w.trails| && Suspends(w.trails[i]) == |SuspendedBy(w.flights, i)|
    ensures Suspends(Next(w, l).trails[i]) == |SuspendedBy(Next(w, l).flights, i)|
  {
    var flight := NextFlights(w, l)[l.flight];
    SettleAdds(w.flights, l.flight, flight, i);
    if Fires(StatementOf(w, l).value, w.db.rows[i], w.now) == Some(Event.Suspend) {
      OnlySettleEnds(w, l, i);
    } else {
      assert !(flight.task == i && flight.settlement.DidSuspend?);
    }
  }

  lemma StepKeepsSuspends(w: World, l: Label)
    requires AllSound(w) && Consistent(w.db.rows) && Manifest(w) && SuspendsAttributed(w) && Enabled(w, l)
    ensures SuspendsAttributed(Next(w, l))
  {
    NextIsParallel(w, l);
    forall i | 0 <= i < |Next(w, l).trails|
      ensures Suspends(Next(w, l).trails[i]) == |SuspendedBy(Next(w, l).flights, i)|
    {
      if i >= |w.trails| {
        NewRowsArePending(w, l, i);
        assert SuspendedBy(Next(w, l).flights, i) == {} by {
          assert Next(w, l).flights == w.flights;
          assert forall f :: 0 <= f < |w.flights| ==> Listed(w, w.flights[f]);
        }
      } else if l.Settle? {
        SettleKeepsSuspends(w, l, i);
      } else {
        OtherStepsSettleNothing(w, l, i);
        OtherStepsSuspendNothing(w, l, i);
      }
    }
  }

  // ---- released workers ----------------------------------------------------

  ghost predicate ReleasedHoldNothing(w: World) {
    forall worker: WorkerId, i: nat :: InMode(w, worker, Released) && i < |w.db.rows| ==> !Holds(w.db.rows[i], worker)
  }

  predicate Holds(r: Row, worker: WorkerId) {
    r.status.Running? && r.claimedBy == Some(worker)
  }

  /** Only `claim_next` on behalf of the worker gives it a row. */
  lemma OnlyClaimGives(s: Statement, r: Row, now: Time, worker: WorkerId)
    requires !Holds(r, worker) && !(s.ClaimTask? && s.worker == worker)
    ensures !Holds(After(s, r, now), worker)
  {
  }

  lemma ReleaseTakesAll(r: Row, now: Time, worker: WorkerId)
    ensures !Holds(After(ReleaseWorker(worker), r, now), worker)
  {
  }

  lemma RowAfterStep(w: World, l: Label, i: nat)
    requires Parallel(w) && Enabled(w, l) && i < |w.db.rows| && !l.Submit? && !l.SubmitKeyed?
    ensures |Next(w, l).db.rows| == |w.db.rows|
    ensures Next(w, l).db.rows[i] == if !l.Advance? && StatementOf(w, l).Some?
                                     then After(StatementOf(w, l).value, w.db.rows[i], w.now) else w.db.rows[i]
  {
  }

  /** On an existing row a step either does nothing or is one allowed event. */
  lemma TaskAfterStep(w: World, l: Label, i: nat)
    requires Parallel(w) && Consistent(w.db.rows) && Enabled(w, l) && i < |w.db.rows|
    ensures i < |Next(w, l).db.rows| && i < |Next(w, l).trails|
    ensures var r, t, r', t' := w.db.rows[i], w.trails[i], Next(w, l).db.rows[i], Next(w, l).trails[i];
            || (r' == r && t' == t)
            || (exists e :: Allowed(e, r, w.now) && r' == Apply(e, r, w.now) && t' == Then(t, e, w.now))
  {
    if l.Submit? || l.SubmitKeyed? || l.Advance? {
      StepKeepsTask(w, l, i);
    } else if StatementOf(w, l).Some? {
      var s := StatementOf(w, l).value;
      StatementIsDrawn(w, l);
      FiresAllowed(s, w.db.rows[i], w.now);
      assert Next(w, l).trails == Extended(s, w.db.rows, w.trails, w.now);
      RowAfterStep(w, l, i);
    }
  }

  lemma StatementIsDrawn(w: World, l: Label)
    requires Enabled(w, l) && StatementOf(w, l).Some?
    ensures Drawn(StatementOf(w, l).value)
  {
  }

  lemma OnlyFreeLeasesReleases(w: World, l: Label, worker: WorkerId)
    requires Parallel(w) && Enabled(w, l) && InMode(Next(w, l), worker, Released) && !InMode(w, worker, Released)
    ensures l == FreeLeases(worker)
  {
  }

  lemma ReleasedDoNotClaim(w: World, l: Label, worker: WorkerId)
    requires Enabled(w, l) && InMode(w, worker, Released) && StatementOf(w, l).Some?
    ensures !(StatementOf(w, l).value.ClaimTask? && StatementOf(w, l).value.worker == worker)
  {
  }

  lemma RowStepKeepsReleased(w: World, l: Label, worker: WorkerId, i: nat)
    requires AllSound(w) && Consistent(w.db.rows) && ReleasedHoldNothing(w) && Enabled(w, l)
    requires i < |w.db.rows| && InMode(Next(w, l), worker, Released)
    ensures i < |Next(w, l).db.rows| && !Holds(Next(w, l).db.rows[i], worker)
  {
    if l.Submit? || l.SubmitKeyed? {
      SubmitKeepsTask(w, l, i);
      assert InMode(w, worker, Released) && !Holds(w.db.rows[i], worker);
    } else {
      RowAfterStep(w, l, i);
      if !InMode(w, worker, Released) {
        OnlyFreeLeasesReleases(w, l, worker);
        ReleaseTakesAll(w.db.rows[i], w.now, worker);
      } else if !l.Advance? && StatementOf(w, l).Some? {
        ReleasedDoNotClaim(w, l, worker);
        OnlyClaimGives(StatementOf(w, l).value, w.db.rows[i], w.now, worker);
      }
    }
  }

  lemma StepKeepsReleased(w: World, l: Label)
    requires AllSound(w) && Consistent(w.db.rows) && ReleasedHoldNothing(w) && Enabled(w, l)
    ensures ReleasedHoldNothing(Next(w, l))
  {
    forall worker: WorkerId, i: nat | InMode(Next(w, l), worker, Released) && i < |Next(w, l).db.rows|
      ensures !Holds(Next(w, l).db.rows[i], worker)
    {
      if i >= |w.db.rows| {
        NewRowsArePending(w, l, i);
      } else {
        RowStepKeepsReleased(w, l, worker, i);
      }
    }
  }

  // ---- all of it -----------------------------------------------------------

  ghost predicate Inv(w: World) {
    && AllSound(w)
    && Consistent(w.db.rows)
    && Manifest(w)
    && OrderedAttempts(w.flights)
    && AllTied(w)
    && HoldsOne(w.flights)
    && SuspendsAttributed(w)
    && CompletesAttributed(w)
    && ReleasedHoldNothing(w)
  }

  lemma StepKeepsInv(w: World, l: Label)
    requires Inv(w) && Enabled(w, l)
    ensures Inv(Next(w, l))
  {
    StepKeepsSound(w, l);
    StepKeepsManifest(w, l);
    StepKeepsTied(w, l);
    StepKeepsHoldsOne(w, l);
    StepKeepsCompletes(w, l);
    StepKeepsReleased(w, l);
    StepKeepsSuspends(w, l);
  }

  lemma {:induction false} RunKeepsInv(w: World, ls: seq<Label>)
    requires Inv(w) && Runs(w, ls)
    ensures Inv(Exec(w, ls))
    decreases |ls|
  {
    if ls != [] {
      StepKeepsInv(w, ls[0]);
      RunKeepsInv(Next(w, ls[0]), ls[1..]);
    }
  }

  ghost predicate Reachable(w: World) {
    exists start, auditing, ls :: Runs(Init(start, auditing), ls) && w == Exec(Init(start, auditing), ls)
  }

  lemma ReachableInv(w: World)
    requires Reachable(w)
    ensures Inv(w)
  {
    var start, auditing, ls :| Runs(Init(start, auditing), ls) && w == Exec(Init(start, auditing), ls);
    RunKeepsInv(Init(start, auditing), ls);
  }
}
