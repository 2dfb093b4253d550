/** Exactly when a dispatch meets what a reader of the code expects of it: the
    latest data, its turn in the order of attempts, a claim of its own to end,
    and that there is a dispatch at all. */
module Dispatches {
  import opened Wrappers
  import opened Domain
  import opened RowEvents
  import opened Store
  import opened Trails
  import opened World
  import opened Invariant
  import opened Guarantees
  import opened NoStuckTask

  // ---- the data of a dispatch ----------------------------------------------

  /** The flight carries the latest write and the latest signal of its task. */
  ghost predicate DataIsLatest(w: World, f: nat) {
    && f < |w.flights| && w.flights[f].task < |w.trails|
    && w.flights[f].checkpoint == LatestWrite(w.trails[w.flights[f].task])
    && w.flights[f].signal == LatestSignal(w.trails[w.flights[f].task])
  }

  /** In every reachable state each flight carries what had been written and
      signalled when its claim was made, and so the latest data if and only if
      nothing else has been written or signalled since. */
  lemma DataIsLatestIff(w: World, f: nat)
    requires Reachable(w) && f < |w.flights|
    ensures Tied(w.flights[f], w.trails)
    ensures var flight := w.flights[f];
            var written := WrittenSince(w.trails[flight.task], flight.attempt);
            var signalled := SignalledSince(w.trails[flight.task], flight.attempt);
            DataIsLatest(w, f) <==>
              (written.None? || written == flight.checkpoint) && (signalled.None? || signalled.value == flight.signal)
  {
    ReachableInv(w);
    assert Tied(w.flights[f], w.trails);
    LatestSince(w.trails[w.flights[f].task], w.flights[f].attempt);
  }

  /** The row still runs under the claim that the flight stands for. */
  ghost predicate ClaimIsCurrent(w: World, f: nat) {
    && f < |w.flights| && w.flights[f].task < |w.db.rows|
    && w.db.rows[w.flights[f].task].status.Running?
    && w.db.rows[w.flights[f].task].attempts == w.flights[f].attempt
  }

  lemma CurrentClaimIsOwn(w: World, f: nat)
    requires Inv(w) && ClaimIsCurrent(w, f)
    ensures w.flights[f].task < |w.trails|
    ensures LatestClaim(w.trails[w.flights[f].task]) == Some((w.flights[f].worker, w.flights[f].attempt))
    ensures w.db.rows[w.flights[f].task].claimedBy == Some(w.flights[f].worker)
  {
    var i := w.flights[f].task;
    assert Sound(w.db.rows[i], w.trails[i], w.now) && Tied(w.flights[f], w.trails);
    LatestIsAt(w.trails[i]);
  }

  /** A handler of the same task that runs, or may yet run, in the same process. */
  predicate Rivals(w: World, f: nat, g: nat) {
    && f < |w.flights| && g < |w.flights| && g != f && w.flights[g].task == w.flights[f].task
    && w.flights[g].worker == w.flights[f].worker && w.flights[g].handlerAlive
  }

  ghost predicate HasRival(w: World, f: nat) {
    exists g: nat :: Rivals(w, f, g)
  }

  /** Under its current claim the dispatch may yet begin with old data. */
  ghost predicate CanBeginStale(w: World, f: nat)
    requires Parallel(w)
  {
    exists ls :: Runs(w, ls) && Enabled(Exec(w, ls), Begin(f))
      && ClaimIsCurrent(Exec(w, ls), f) && !DataIsLatest(Exec(w, ls), f)
  }

  lemma BeginStays(w: World, l: Label, f: nat)
    requires Inv(w) && Enabled(w, l) && f < |w.flights| && Enabled(Next(w, l), Begin(f))
    ensures Enabled(w, Begin(f))
    ensures var flights' := Next(w, l).flights;
            f < |flights'| && flights'[f].task == w.flights[f].task && flights'[f].worker == w.flights[f].worker
            && flights'[f].attempt == w.flights[f].attempt
            && flights'[f].checkpoint == w.flights[f].checkpoint && flights'[f].signal == w.flights[f].signal
  {
    assert Listed(w, w.flights[f]);
    FlightsPersist(w, l, f);
    HeldStayedHeld(w, l, f);
  }

  lemma {:induction false} BeginStayed(w: World, ls: seq<Label>, f: nat)
    requires Inv(w) && Runs(w, ls) && f < |w.flights| && Enabled(Exec(w, ls), Begin(f))
    ensures Enabled(w, Begin(f))
    decreases |ls|
  {
    if ls != [] {
      StepKeepsInv(w, ls[0]);
      FlightCount(w, ls[0]);
      BeginStayed(Next(w, ls[0]), ls[1..], f);
      BeginStays(w, ls[0], f);
    }
  }

  lemma RunsOnUnlessClaimed(e: Event, r: Row, now: Time)
    requires Allowed(e, r, now) && Apply(e, r, now).status.Running?
    ensures Apply(e, r, now).attempts == (if e.Claim? then r.attempts + 1 else r.attempts)
    ensures e.Claim? || r.status.Running?
  {
  }

  lemma CurrentStays(w: World, l: Label, f: nat)
    requires Inv(w) && Enabled(w, l) && f < |w.flights| && ClaimIsCurrent(Next(w, l), f)
    ensures ClaimIsCurrent(w, f)
  {
    var i := w.flights[f].task;
    assert Listed(w, w.flights[f]);
    FlightsPersist(w, l, f);
    TaskAfterStep(w, l, i);
    if Next(w, l).db.rows[i] != w.db.rows[i] {
      var e :| Allowed(e, w.db.rows[i], w.now) && Next(w, l).db.rows[i] == Apply(e, w.db.rows[i], w.now);
      RunsOnUnlessClaimed(e, w.db.rows[i], w.now);
    }
  }

  lemma {:induction false} CurrentStayed(w: World, ls: seq<Label>, f: nat)
    requires Inv(w) && Runs(w, ls) && f < |w.flights| && ClaimIsCurrent(Exec(w, ls), f)
    ensures ClaimIsCurrent(w, f)
    decreases |ls|
  {
    if ls != [] {
      StepKeepsInv(w, ls[0]);
      FlightCount(w, ls[0]);
      CurrentStayed(Next(w, ls[0]), ls[1..], f);
      CurrentStays(w, ls[0], f);
    }
  }

  lemma OldRivalStays(w: World, l: Label, f: nat, g: nat)
    requires Inv(w) && Enabled(w, l) && Enabled(w, Begin(f)) && g < |w.flights| && Rivals(Next(w, l), f, g)
    ensures Rivals(w, f, g)
  {
    FlightsPersist(w, l, f);
    FlightsPersist(w, l, g);
    AliveStays(w, l, g);
    OneHeld(w, f, g);
    assert l != Begin(g);
  }

  lemma NewFlightIsNoRival(w: World, l: Label, f: nat)
    requires Parallel(w) && Enabled(w, l)
    ensures !Rivals(Next(w, l), f, |w.flights|)
  {
    if |NextFlights(w, l)| > |w.flights| {
      NewFlightIsClaimed(w, l);
    }
  }

  lemma RivalIsOld(w: World, l: Label, f: nat, g: nat)
    requires Parallel(w) && Enabled(w, l) && Rivals(Next(w, l), f, g)
    ensures g < |w.flights|
  {
    FlightCount(w, l);
    NewFlightIsNoRival(w, l, f);
  }

  /** A rival can only be one that was there before: a poll loop begins no
      dispatch while it holds another task. */
  lemma RivalStays(w: World, l: Label, f: nat)
    requires Inv(w) && Enabled(w, l) && Enabled(w, Begin(f)) && HasRival(Next(w, l), f)
    ensures HasRival(w, f)
  {
    var g: nat :| Rivals(Next(w, l), f, g);
    RivalIsOld(w, l, f, g);
    OldRivalStays(w, l, f, g);
  }

  lemma OneHeld(w: World, f: nat, g: nat)
    requires HoldsOne(w.flights) && f < |w.flights| && g < |w.flights| && f != g
    requires w.flights[f].worker == w.flights[g].worker && w.flights[f].stage.Held?
    ensures !w.flights[g].stage.Held?
  {
    assert f < g || g < f;
  }

  lemma AliveStays(w: World, l: Label, g: nat)
    requires Parallel(w) && Enabled(w, l) && g < |w.flights|
    ensures g < |Next(w, l).flights| && (Next(w, l).flights[g].handlerAlive ==> w.flights[g].handlerAlive || l == Begin(g))
  {
  }

  /** While the claim is current, only a rival's write makes its data old. */
  lemma OnlyRivalsWrite(w: World, l: Label, f: nat)
    requires Inv(w) && Enabled(w, l) && f < |w.flights| && Enabled(w, Begin(f))
    requires ClaimIsCurrent(w, f) && ClaimIsCurrent(Next(w, l), f)
    requires DataIsLatest(w, f) && !DataIsLatest(Next(w, l), f)
    ensures l.Note? && HasRival(w, f)
  {
    var i := w.flights[f].task;
    assert Listed(w, w.flights[f]);
    CurrentClaimIsOwn(w, f);
    FlightsPersist(w, l, f);
    TaskAfterStep(w, l, i);
    WriterIsAlive(w, l, i);
    assert Rivals(w, f, l.flight);
  }

  /** A new checkpoint comes from a live handler of the task in the process that
      holds the row. */
  lemma WriterIsAlive(w: World, l: Label, i: nat)
    requires Parallel(w) && Consistent(w.db.rows) && Enabled(w, l) && i < |w.db.rows| && w.db.rows[i].status.Running?
    requires i < |Next(w, l).trails| && LatestWrite(Next(w, l).trails[i]) != LatestWrite(w.trails[i])
    ensures l.Note? && w.flights[l.flight].task == i && w.flights[l.flight].handlerAlive
    ensures w.db.rows[i].claimedBy == Some(w.flights[l.flight].worker)
  {
    if l.Submit? || l.SubmitKeyed? || l.Advance? {
      StepKeepsTask(w, l, i);
    } else {
      assert StatementOf(w, l).Some?;
      WriterNotes(w, l, w.db.rows[i]);
      assert w.db.rows[i].id == TaskOf(w, l.flight);
    }
  }

  lemma WriterNotes(w: World, l: Label, r: Row)
    requires Enabled(w, l) && StatementOf(w, l).Some?
    requires Fires(StatementOf(w, l).value, r, w.now).Some? && Fires(StatementOf(w, l).value, r, w.now).value.Checkpoint?
    ensures l.Note? && r.id == TaskOf(w, l.flight) && r.claimedBy == Some(w.flights[l.flight].worker)
  {
  }

  lemma {:induction false} StaleNeedsRival(w: World, ls: seq<Label>, f: nat)
    requires Inv(w) && Runs(w, ls) && f < |w.flights| && DataIsLatest(w, f)
    requires Enabled(Exec(w, ls), Begin(f)) && ClaimIsCurrent(Exec(w, ls), f) && !DataIsLatest(Exec(w, ls), f)
    ensures HasRival(w, f)
    decreases |ls|
  {
    var l, w' := ls[0], Next(w, ls[0]);
    StepKeepsInv(w, l);
    FlightCount(w, l);
    BeginStayed(w', ls[1..], f);
    CurrentStayed(w', ls[1..], f);
    BeginStays(w, l, f);
    CurrentStays(w, l, f);
    if DataIsLatest(w', f) {
      StaleNeedsRival(w', ls[1..], f);
      RivalStays(w, l, f);
    } else {
      OnlyRivalsWrite(w, l, f);
    }
  }

  lemma EnterOnly(w: World, g: nat)
    requires Inv(w) && Enabled(w, Enter(g))
    ensures var w' := Next(w, Enter(g));
            && Inv(w') && w'.db == w.db && w'.trails == w.trails && w'.workers == w.workers && w'.now == w.now
            && |w'.flights| == |w.flights| && w'.flights[g] == w.flights[g].(ran := true)
            && forall f :: 0 <= f < |w.flights| && f != g ==> w'.flights[f] == w.flights[f]
  {
    StepKeepsInv(w, Enter(g));
  }

  /** The rival's handler has been entered and writes. */
  lemma EnteredRivalWrites(w: World, f: nat, g: nat)
    requires Inv(w) && Enabled(w, Begin(f)) && ClaimIsCurrent(w, f) && Rivals(w, f, g) && w.flights[g].ran
    ensures CanBeginStale(w, f)
  {
    var data := if w.flights[f].checkpoint == Some("{}") then "[]" else "{}";
    var l := Note(g, data);
    CurrentClaimIsOwn(w, f);
    NoteWrites(w, g, data);
    RunsOne(w, l);
    assert Enabled(Exec(w, [l]), Begin(f));
  }

  /** A run prepended to one that leads to old data. */
  lemma StaleBefore(w: World, ls: seq<Label>, f: nat)
    requires Parallel(w) && Runs(w, ls) && CanBeginStale(Exec(w, ls), f)
    ensures CanBeginStale(w, f)
  {
    var rest :| Runs(Exec(w, ls), rest) && Enabled(Exec(Exec(w, ls), rest), Begin(f))
                && ClaimIsCurrent(Exec(Exec(w, ls), rest), f) && !DataIsLatest(Exec(Exec(w, ls), rest), f);
    RunsAppend(w, ls, rest);
    assert Enabled(Exec(w, ls + rest), Begin(f));
  }

  lemma RivalWrites(w: World, f: nat, g: nat)
    requires Inv(w) && Enabled(w, Begin(f)) && ClaimIsCurrent(w, f) && Rivals(w, f, g)
    ensures CanBeginStale(w, f)
  {
    EnterOnly(w, g);
    RunsOne(w, Enter(g));
    EnteredRivalWrites(Next(w, Enter(g)), f, g);
    StaleBefore(w, [Enter(g)], f);
  }

  lemma NoteWrites(w: World, g: nat, data: Json)
    requires Parallel(w) && Enabled(w, Note(g, data))
    requires w.db.rows[w.flights[g].task].status.Running?
    requires w.db.rows[w.flights[g].task].claimedBy == Some(w.flights[g].worker)
    ensures var w', i := Next(w, Note(g, data)), w.flights[g].task;
            && w'.flights == w.flights && w'.workers == w.workers && Parallel(w') && i < |w'.db.rows|
            && w'.db.rows[i].status.Running? && w'.db.rows[i].attempts == w.db.rows[i].attempts
            && LatestWrite(w'.trails[i]) == Some(data)
  {
  }

  /** Exactly when a dispatch may begin under its current claim with old data:
      when its data is old already, or an earlier handler of the task is still
      alive in the same process, for `write_checkpoint` checks the worker and
      not the attempt. */
  lemma BeginsStaleIff(w: World, f: nat)
    requires Reachable(w) && Enabled(w, Begin(f))
    ensures Parallel(w)
    ensures CanBeginStale(w, f) <==> ClaimIsCurrent(w, f) && (!DataIsLatest(w, f) || HasRival(w, f))
  {
    ReachableInv(w);
    if CanBeginStale(w, f) {
      var ls :| Runs(w, ls) && Enabled(Exec(w, ls), Begin(f))
                && ClaimIsCurrent(Exec(w, ls), f) && !DataIsLatest(Exec(w, ls), f);
      CurrentStayed(w, ls, f);
      if DataIsLatest(w, f) {
        StaleNeedsRival(w, ls, f);
      }
    }
    if ClaimIsCurrent(w, f) {
      if !DataIsLatest(w, f) {
        assert Runs(w, []) && Exec(w, []) == w;
      } else if HasRival(w, f) {
        var g: nat :| Rivals(w, f, g);
        RivalWrites(w, f, g);
      }
    }
  }

  // ---- the order of dispatches ---------------------------------------------

  ghost predicate BegunAfter(w: World, f: nat, g: nat) {
    && f < |w.flights| && g < |w.flights| && w.flights[g].task == w.flights[f].task
    && w.flights[g].attempt > w.flights[f].attempt && w.flights[g].begun
  }

  /** The flight may yet begin after a dispatch with a higher attempt has. */
  ghost predicate CanBeginLate(w: World, f: nat)
    requires Parallel(w)
  {
    exists ls, g: nat :: Runs(w, ls) && Enabled(Exec(w, ls), Begin(f)) && BegunAfter(Exec(w, ls), f, g)
  }

  /** The flight has begun, or a poll loop is about to begin it. */
  predicate Launched(w: World, g: nat)
    requires g < |w.flights|
  {
    w.flights[g].begun || (w.flights[g].stage.Held? && InMode(w, w.flights[g].worker, Polling))
  }

  predicate Outruns(w: World, f: nat, g: nat) {
    && f < |w.flights| && g < |w.flights| && w.flights[g].task == w.flights[f].task
    && w.flights[g].attempt > w.flights[f].attempt && Launched(w, g)
  }

  /** A later claim of the task has begun, or is about to. */
  ghost predicate Outrun(w: World, f: nat) {
    exists g: nat :: Outruns(w, f, g)
  }

  /** The task may be claimed once more and dispatched. */
  predicate HasAttemptsLeft(r: Row) {
    !Terminal(r.status) && r.attempts < r.maxAttempts
  }

  ghost predicate MayBeOutrun(w: World, f: nat)
    requires f < |w.flights| && w.flights[f].task < |w.db.rows|
  {
    Outrun(w, f) || HasAttemptsLeft(w.db.rows[w.flights[f].task])
  }

  lemma AttemptsLeftStay(w: World, l: Label, i: nat)
    requires Inv(w) && Enabled(w, l) && i < |w.db.rows| && i < |Next(w, l).db.rows|
    requires HasAttemptsLeft(Next(w, l).db.rows[i])
    ensures HasAttemptsLeft(w.db.rows[i])
  {
    StepKeepsTask(w, l, i);
    TaskAfterStep(w, l, i);
  }

  lemma BegunStays(w: World, l: Label, g: nat)
    requires Parallel(w) && Enabled(w, l) && g < |w.flights|
    ensures g < |Next(w, l).flights|
    ensures Next(w, l).flights[g].begun ==> w.flights[g].begun || l == Begin(g)
  {
  }

  lemma LaunchedStays(w: World, l: Label, g: nat)
    requires Parallel(w) && Manifest(w) && Enabled(w, l) && g < |w.flights|
    requires g < |Next(w, l).flights| && Launched(Next(w, l), g)
    ensures Launched(w, g)
  {
    FlightsPersist(w, l, g);
    BegunStays(w, l, g);
    assert Listed(w, w.flights[g]);
    if !Next(w, l).flights[g].begun {
      HeldStayedHeld(w, l, g);
    }
  }

  lemma NewFlightHadAttemptsLeft(w: World, l: Label)
    requires Parallel(w) && Enabled(w, l) && |Next(w, l).flights| > |w.flights|
    ensures var i := Next(w, l).flights[|w.flights|].task; i < |w.db.rows| && HasAttemptsLeft(w.db.rows[i])
  {
    NewFlightIsClaimed(w, l);
  }

  lemma OutrunsStays(w: World, l: Label, f: nat, g: nat)
    requires Inv(w) && Enabled(w, l) && f < |w.flights| && g < |w.flights| && Outruns(Next(w, l), f, g)
    ensures Outruns(w, f, g)
  {
    FlightsPersist(w, l, f);
    FlightsPersist(w, l, g);
    LaunchedStays(w, l, g);
  }

  lemma OutrunStays(w: World, l: Label, f: nat)
    requires Inv(w) && Enabled(w, l) && f < |w.flights| && Outrun(Next(w, l), f)
    ensures w.flights[f].task < |w.db.rows| && MayBeOutrun(w, f)
  {
    assert Listed(w, w.flights[f]);
    var g: nat :| Outruns(Next(w, l), f, g);
    FlightCount(w, l);
    if g < |w.flights| {
      OutrunsStays(w, l, f, g);
    } else {
      FlightsPersist(w, l, f);
      NewFlightHadAttemptsLeft(w, l);
    }
  }

  lemma {:induction false} LateNeedsAttempts(w: World, ls: seq<Label>, f: nat, g: nat)
    requires Inv(w) && Runs(w, ls) && f < |w.flights| && BegunAfter(Exec(w, ls), f, g)
    ensures w.flights[f].task < |w.db.rows| && MayBeOutrun(w, f)
    decreases |ls|
  {
    assert Listed(w, w.flights[f]);
    if ls == [] {
      assert Outruns(w, f, g);
    } else {
      var w' := Next(w, ls[0]);
      StepKeepsInv(w, ls[0]);
      FlightsPersist(w, ls[0], f);
      StepKeepsTask(w, ls[0], w.flights[f].task);
      LateNeedsAttempts(w', ls[1..], f, g);
      if Outrun(w', f) {
        OutrunStays(w, ls[0], f);
      } else {
        AttemptsLeftStay(w, ls[0], w.flights[f].task);
      }
    }
  }

  // a run in which the flight is outrun

  lemma BeginOnly(w: World, g: nat)
    requires Inv(w) && Enabled(w, Begin(g))
    ensures var w' := Next(w, Begin(g));
            && Inv(w') && w'.workers == w.workers && w'.db == w.db && |w'.flights| == |w.flights|
            && w'.flights[g] == w.flights[g].(stage := Executing, begun := true, handlerAlive := true)
            && forall f :: 0 <= f < |w.flights| && f != g ==> w'.flights[f] == w.flights[f]
  {
    StepKeepsInv(w, Begin(g));
  }

  lemma LateNow(w: World, ls: seq<Label>, f: nat, g: nat)
    requires Parallel(w) && Runs(w, ls) && Enabled(Exec(w, ls), Begin(f)) && BegunAfter(Exec(w, ls), f, g)
    ensures CanBeginLate(w, f)
  {
  }

  lemma LaunchLeadsToLate(w: World, f: nat, g: nat)
    requires Inv(w) && Enabled(w, Begin(f)) && Outruns(w, f, g) && !w.flights[g].begun
    ensures CanBeginLate(w, f)
  {
    BeginOnly(w, g);
    RunsOne(w, Begin(g));
    LateNow(w, [Begin(g)], f, g);
  }

  lemma OutrunLeadsToLate(w: World, f: nat)
    requires Inv(w) && Enabled(w, Begin(f)) && Outrun(w, f)
    ensures CanBeginLate(w, f)
  {
    var g: nat :| Outruns(w, f, g);
    if w.flights[g].begun {
      assert Runs(w, []) && Exec(w, []) == w && BegunAfter(w, f, g);
    } else {
      LaunchLeadsToLate(w, f, g);
    }
  }

  /** A run prepended to one in which the flight begins late. */
  lemma LateBefore(w: World, ls: seq<Label>, f: nat)
    requires Parallel(w) && Runs(w, ls) && CanBeginLate(Exec(w, ls), f)
    ensures CanBeginLate(w, f)
  {
    var rest, g: nat :| Runs(Exec(w, ls), rest) && Enabled(Exec(Exec(w, ls), rest), Begin(f))
                   && BegunAfter(Exec(Exec(w, ls), rest), f, g);
    RunsAppend(w, ls, rest);
    assert Enabled(Exec(w, ls + rest), Begin(f)) && BegunAfter(Exec(w, ls + rest), f, g);
  }

  lemma SparedMayBegin(w: World, w': World, f: nat)
    requires Enabled(w, Begin(f)) && Spares(w, w') && w.flights[f].task < |w'.db.rows|
    ensures Enabled(w', Begin(f)) && w'.flights[f] == w.flights[f]
  {
  }

  /** What a claim of the task by a new worker leads to. */
  ghost predicate LiesAhead(w: World, w': World, i: nat, g: nat) {
    && Inv(w') && Spares(w, w') && i < |w'.db.rows|
    && |w.flights| <= g < |w'.flights| && w'.flights[g].task == i && i < |w.db.rows|
    && w'.flights[g].attempt > w.db.rows[i].attempts && Enabled(w', Begin(g))
  }

  lemma AheadOf(w: World, w1: World, w2: World, i: nat, g: nat)
    requires Spares(w, w1) && i < |w.db.rows| && i < |w1.db.rows| && w.db.rows[i].attempts <= w1.db.rows[i].attempts
    requires LiesAhead(w1, w2, i, g)
    ensures LiesAhead(w, w2, i, g)
  {
    SparesOn(w, w1, w2);
  }

  function ServiceFor(r: Row): WorkerConfig {
    WorkerConfig(r.queue, r.region, 1.0, 1.0, 1.0)
  }

  lemma PickFlies(w: World, config: WorkerConfig, i: nat) returns (ls: seq<Label>, g: nat)
    requires Inv(w) && i < |w.db.rows| && HasAttemptsLeft(w.db.rows[i])
    requires IsPick(w.db.rows, config.queue, config.region, w.now, {}, Some(i))
    ensures Runs(w, ls) && LiesAhead(w, Exec(w, ls), i, g)
  {
    var worker;
    ls, worker := ClaimPick(w, config, i);
    g := |w.flights|;
    GainedSpares(w, Exec(w, ls), config, worker, i);
  }

  /** An eligible task with attempts left is claimed by a new worker. */
  lemma EligibleFlies(w: World, i: nat) returns (ls: seq<Label>, g: nat)
    requires Inv(w) && i < |w.db.rows| && HasAttemptsLeft(w.db.rows[i])
    requires Eligible(w.db.rows[i], w.db.rows[i].queue, w.db.rows[i].region, w.now)
    ensures Runs(w, ls) && LiesAhead(w, Exec(w, ls), i, g)
  {
    var config := ServiceFor(w.db.rows[i]);
    var way := ClearWay(w, config, i);
    var w1 := Exec(w, way);
    var claims;
    claims, g := PickFlies(w1, config, i);
    AheadOf(w, w1, Exec(w1, claims), i, g);
    RunsAppend(w, way, claims);
    ls := way + claims;
  }

  lemma PendingFlies(w: World, i: nat) returns (ls: seq<Label>, g: nat)
    requires Inv(w) && i < |w.db.rows| && HasAttemptsLeft(w.db.rows[i]) && w.db.rows[i].status.Pending?
    ensures Runs(w, ls) && LiesAhead(w, Exec(w, ls), i, g)
  {
    var wait := Wait(w, ServiceFor(w.db.rows[i]), w.db.rows[i].scheduledAt);
    var w1 := Exec(w, wait);
    var claims;
    claims, g := EligibleFlies(w1, i);
    AheadOf(w, w1, Exec(w1, claims), i, g);
    RunsAppend(w, wait, claims);
    ls := wait + claims;
  }

  lemma RunningFlies(w: World, i: nat) returns (ls: seq<Label>, g: nat)
    requires Inv(w) && i < |w.db.rows| && HasAttemptsLeft(w.db.rows[i]) && w.db.rows[i].status.Running?
    ensures Runs(w, ls) && LiesAhead(w, Exec(w, ls), i, g)
  {
    var sweep := SweepTask(w, ServiceFor(w.db.rows[i]), i);
    var w1 := Exec(w, sweep);
    var claims;
    claims, g := PendingFlies(w1, i);
    AheadOf(w, w1, Exec(w1, claims), i, g);
    RunsAppend(w, sweep, claims);
    ls := sweep + claims;
  }

  lemma SignalOnly(w: World, i: nat)
    requires Inv(w) && i < |w.db.rows| && w.db.rows[i].status.Suspended?
    ensures var l := Resume(w.db.rows[i].id, None);
            var w' := Next(w, l);
            && Enabled(w, l) && Inv(w') && |w'.db.rows| == |w.db.rows| && Spares(w, w')
            && w'.db.rows[i].status.Pending? && w'.db.rows[i].attempts == w.db.rows[i].attempts
            && w'.db.rows[i].maxAttempts == w.db.rows[i].maxAttempts
  {
    var l := Resume(w.db.rows[i].id, None);
    StepKeepsInv(w, l);
    RowAfterStep(w, l, i);
    SignalledRow(w.db.rows[i], w.now);
  }

  lemma SignalledRow(r: Row, now: Time)
    requires r.status.Suspended?
    ensures var r' := After(SignalTask(r.id, None), r, now);
            r'.status.Pending? && r'.attempts == r.attempts && r'.maxAttempts == r.maxAttempts
  {
  }

  lemma SuspendedFlies(w: World, i: nat) returns (ls: seq<Label>, g: nat)
    requires Inv(w) && i < |w.db.rows| && HasAttemptsLeft(w.db.rows[i]) && w.db.rows[i].status.Suspended?
    ensures Runs(w, ls) && LiesAhead(w, Exec(w, ls), i, g)
  {
    var l := Resume(w.db.rows[i].id, None);
    SignalOnly(w, i);
    RunsOne(w, l);
    var w1 := Next(w, l);
    var claims;
    claims, g := PendingFlies(w1, i);
    AheadOf(w, w1, Exec(w1, claims), i, g);
    RunsAppend(w, [l], claims);
    ls := [l] + claims;
  }

  /** Any task with attempts left can be claimed once more and be about to begin,
      with every existing worker and flight as it was. */
  lemma FliesAgain(w: World, i: nat) returns (ls: seq<Label>, g: nat)
    requires Inv(w) && i < |w.db.rows| && HasAttemptsLeft(w.db.rows[i])
    ensures Runs(w, ls) && LiesAhead(w, Exec(w, ls), i, g)
  {
    match w.db.rows[i].status {
      case Pending => ls, g := PendingFlies(w, i);
      case Running => ls, g := RunningFlies(w, i);
      case Suspended => ls, g := SuspendedFlies(w, i);
    }
  }

  lemma AttemptsLeadToLate(w: World, f: nat)
    requires Inv(w) && Enabled(w, Begin(f)) && HasAttemptsLeft(w.db.rows[w.flights[f].task])
    ensures CanBeginLate(w, f)
  {
    assert Listed(w, w.flights[f]);
    var ls, g := FliesAgain(w, w.flights[f].task);
    SparedMayBegin(w, Exec(w, ls), f);
    assert Outruns(Exec(w, ls), f, g);
    OutrunLeadsToLate(Exec(w, ls), f);
    LateBefore(w, ls, f);
  }

  /** Exactly when a claimed record that waits for its dispatch may still begin
      after a higher attempt has: when a later claim has begun or is about to,
      or the task may be claimed again. */
  lemma BeginsLateIff(w: World, f: nat)
    requires Reachable(w) && Enabled(w, Begin(f))
    ensures Parallel(w)
    ensures CanBeginLate(w, f) <==> Outrun(w, f) || HasAttemptsLeft(w.db.rows[w.flights[f].task])
  {
    ReachableInv(w);
    if CanBeginLate(w, f) {
      var ls, g: nat :| Runs(w, ls) && Enabled(Exec(w, ls), Begin(f)) && BegunAfter(Exec(w, ls), f, g);
      LateNeedsAttempts(w, ls, f, g);
    }
    if Outrun(w, f) {
      OutrunLeadsToLate(w, f);
    } else if HasAttemptsLeft(w.db.rows[w.flights[f].task]) {
      AttemptsLeadToLate(w, f);
    }
  }

  // ---- dispatches to come --------------------------------------------------

  /** The task may yet be claimed and dispatched once more. */
  ghost predicate CanBeDispatchedAnew(w: World, i: nat)
    requires Parallel(w)
  {
    exists ls, g: nat :: Runs(w, ls) && NewDispatch(w, Exec(w, ls), i, g)
  }

  predicate NewDispatch(w: World, w': World, i: nat, g: nat) {
    |w.flights| <= g < |w'.flights| && w'.flights[g].task == i && w'.flights[g].begun
  }

  lemma NewFlightAtStep(w: World, l: Label, i: nat, g: nat)
    requires Parallel(w) && Enabled(w, l) && i < |w.db.rows|
    requires |w.flights| <= g < |Next(w, l).flights| && Next(w, l).flights[g].task == i
    ensures HasAttemptsLeft(w.db.rows[i])
  {
    FlightCount(w, l);
    NewFlightHadAttemptsLeft(w, l);
  }

  lemma {:induction false} NewFlightNeedsAttempts(w: World, ls: seq<Label>, i: nat, g: nat)
    requires Inv(w) && Runs(w, ls) && i < |w.db.rows|
    requires |w.flights| <= g < |Exec(w, ls).flights| && Exec(w, ls).flights[g].task == i
    ensures HasAttemptsLeft(w.db.rows[i])
    decreases |ls|
  {
    var l, w' := ls[0], Next(w, ls[0]);
    StepKeepsInv(w, l);
    FlightCount(w, l);
    StepKeepsTask(w, l, i);
    if g < |w'.flights| {
      TasksStay(w', ls[1..], g);
      NewFlightAtStep(w, l, i, g);
    } else {
      NewFlightNeedsAttempts(w', ls[1..], i, g);
      AttemptsLeftStay(w, l, i);
    }
  }

  lemma {:induction false} TasksStay(w: World, ls: seq<Label>, g: nat)
    requires Inv(w) && Runs(w, ls) && g < |w.flights|
    ensures g < |Exec(w, ls).flights| && Exec(w, ls).flights[g].task == w.flights[g].task
    decreases |ls|
  {
    if ls != [] {
      StepKeepsInv(w, ls[0]);
      FlightsPersist(w, ls[0], g);
      TasksStay(Next(w, ls[0]), ls[1..], g);
    }
  }

  lemma AttemptsLeadToDispatch(w: World, i: nat)
    requires Inv(w) && i < |w.db.rows| && HasAttemptsLeft(w.db.rows[i])
    ensures CanBeDispatchedAnew(w, i)
  {
    var ls, g := FliesAgain(w, i);
    var w1 := Exec(w, ls);
    BeginOnly(w1, g);
    RunsOne(w1, Begin(g));
    RunsAppend(w, ls, [Begin(g)]);
    assert NewDispatch(w, Exec(w, ls + [Begin(g)]), i, g);
  }

  /** Exactly when a task will ever be handed out again: as long as it has not
      ended and its attempts are below the maximum. Signals do not reset the
      attempts, and releases raise them, so a suspended or requeued task at its
      maximum is claimable and yet reaches no handler any more. */
  lemma DispatchedAnewIff(w: World, i: nat)
    requires Reachable(w) && i < |w.db.rows|
    ensures Parallel(w)
    ensures CanBeDispatchedAnew(w, i) <==> !Terminal(w.db.rows[i].status) && w.db.rows[i].attempts < w.db.rows[i].maxAttempts
  {
    ReachableInv(w);
    if CanBeDispatchedAnew(w, i) {
      var ls, g: nat :| Runs(w, ls) && NewDispatch(w, Exec(w, ls), i, g);
      NewFlightNeedsAttempts(w, ls, i, g);
    }
    if HasAttemptsLeft(w.db.rows[i]) {
      AttemptsLeadToDispatch(w, i);
    }
  }

  // ---- dispatches after the end --------------------------------------------

  /** A poll loop holds the task between its claim and the dispatch. */
  ghost predicate AwaitsDispatch(w: World, i: nat) {
    exists f :: 0 <= f < |w.flights| && w.flights[f].task == i && w.flights[f].stage.Held?
      && InMode(w, w.flights[f].worker, Polling)
  }

  ghost predicate CanBegin(w: World, i: nat)
    requires Parallel(w)
  {
    exists ls, f ::
      && Runs(w, ls) && 0 <= f < |Exec(w, ls).flights| && Exec(w, ls).flights[f].task == i
      && Enabled(Exec(w, ls), Begin(f))
  }

  lemma BeginIsAwaited(w: World, f: nat)
    requires Enabled(w, Begin(f))
    ensures f < |w.flights| && AwaitsDispatch(w, w.flights[f].task)
  {
  }

  lemma NothingNewAwaits(w: World, l: Label, i: nat)
    requires Inv(w) && Enabled(w, l) && i < |w.db.rows| && Terminal(w.db.rows[i].status)
    requires AwaitsDispatch(Next(w, l), i)
    ensures AwaitsDispatch(w, i)
  {
    var w' := Next(w, l);
    var f :| 0 <= f < |w'.flights| && w'.flights[f].task == i && w'.flights[f].stage.Held?
             && InMode(w', w'.flights[f].worker, Polling);
    StepKeepsTerminal(w, l, i);
    assert f in TasksOf(w'.flights, i);
    FlightsPersist(w, l, f);
    assert Listed(w, w.flights[f]);
    HeldStayedHeld(w, l, f);
  }

  lemma {:induction false} NothingAwaitsLater(w: World, ls: seq<Label>, i: nat)
    requires Inv(w) && Runs(w, ls) && i < |w.db.rows| && Terminal(w.db.rows[i].status)
    requires AwaitsDispatch(Exec(w, ls), i)
    ensures AwaitsDispatch(w, i)
    decreases |ls|
  {
    if ls != [] {
      StepKeepsInv(w, ls[0]);
      StepKeepsTerminal(w, ls[0], i);
      NothingAwaitsLater(Next(w, ls[0]), ls[1..], i);
      NothingNewAwaits(w, ls[0], i);
    }
  }

  /** Exactly when a dispatch can still begin after a cancel, or after any other
      end of the task: when a poll loop is already holding the claimed task.
      `Begin` is the spawn, whether or not the runtime has polled it yet. */
  lemma BeginsAfterEndIff(w: World, i: nat)
    requires Reachable(w) && Parallel(w) && i < |w.db.rows| && Terminal(w.db.rows[i].status)
    ensures CanBegin(w, i) <==> AwaitsDispatch(w, i)
  {
    ReachableInv(w);
    if CanBegin(w, i) {
      var ls, f :| Runs(w, ls) && 0 <= f < |Exec(w, ls).flights| && Exec(w, ls).flights[f].task == i
                   && Enabled(Exec(w, ls), Begin(f));
      BeginIsAwaited(Exec(w, ls), f);
      NothingAwaitsLater(w, ls, i);
    }
    if AwaitsDispatch(w, i) {
      var f :| 0 <= f < |w.flights| && w.flights[f].task == i && w.flights[f].stage.Held?
               && InMode(w, w.flights[f].worker, Polling);
      assert Runs(w, []) && Exec(w, []) == w;
      assert Enabled(w, Begin(f));
    }
  }

  // ---- ending a claim ------------------------------------------------------

  /** Whose claim an outcome call ends. `complete`, `fail` and `suspend` match a
      running row by its id alone, and the claim the row runs under is the
      dispatch's own if and only if the row still has its attempt number. */
  lemma EndsOwnClaimIff(w: World, f: nat, jitter: real)
    requires Reachable(w) && Enabled(w, Settle(f, jitter)) && w.db.rows[w.flights[f].task].status.Running?
    ensures w.flights[f].task < |w.trails|
    ensures LatestClaim(w.trails[w.flights[f].task]) == Some((w.flights[f].worker, w.flights[f].attempt))
            <==> w.db.rows[w.flights[f].task].attempts == w.flights[f].attempt
    ensures w.db.rows[w.flights[f].task].attempts == w.flights[f].attempt ==>
              w.db.rows[w.flights[f].task].claimedBy == Some(w.flights[f].worker)
  {
    ReachableInv(w);
    var i := w.flights[f].task;
    assert Sound(w.db.rows[i], w.trails[i], w.now);
    if w.db.rows[i].attempts == w.flights[f].attempt {
      CurrentClaimIsOwn(w, f);
    }
  }

  // ---- at-least-once -------------------------------------------------------

  /** The task may yet end without its handler having been entered. */
  ghost predicate CanEndUnexecuted(w: World, i: nat)
    requires Parallel(w)
  {
    exists ls :: Runs(w, ls) && i < |Exec(w, ls).db.rows| && Terminal(Exec(w, ls).db.rows[i].status)
      && ExecutionsOf(Exec(w, ls).flights, i) == {}
  }

  /** The task may yet fail without its handler having been entered. */
  ghost predicate CanFailUnexecuted(w: World, i: nat)
    requires Parallel(w)
  {
    exists ls :: Runs(w, ls) && i < |Exec(w, ls).db.rows| && Exec(w, ls).db.rows[i].status.Failed?
      && ExecutionsOf(Exec(w, ls).flights, i) == {}
  }

  /** The task may yet end without having been dispatched. */
  ghost predicate CanEndUndispatched(w: World, i: nat)
    requires Parallel(w)
  {
    exists ls :: Runs(w, ls) && i < |Exec(w, ls).db.rows| && Terminal(Exec(w, ls).db.rows[i].status)
      && DispatchesOf(Exec(w, ls).flights, i) == {}
  }

  lemma {:induction false} BegunForever(w: World, ls: seq<Label>, i: nat)
    requires Inv(w) && Runs(w, ls)
    ensures DispatchesOf(w.flights, i) <= DispatchesOf(Exec(w, ls).flights, i)
    ensures ExecutionsOf(w.flights, i) <= ExecutionsOf(Exec(w, ls).flights, i)
    decreases |ls|
  {
    if ls != [] {
      StepKeepsInv(w, ls[0]);
      BegunForever(Next(w, ls[0]), ls[1..], i);
      forall f | 0 <= f < |w.flights|
        ensures f in DispatchesOf(w.flights, i) ==> f in DispatchesOf(Next(w, ls[0]).flights, i)
        ensures f in ExecutionsOf(w.flights, i) ==> f in ExecutionsOf(Next(w, ls[0]).flights, i)
      {
        FlightsPersist(w, ls[0], f);
      }
    }
  }

  lemma SparedStayAsTheyAre(w: World, w': World, i: nat)
    requires Spares(w, w')
    ensures DispatchesOf(w'.flights, i) == DispatchesOf(w.flights, i)
    ensures ExecutionsOf(w'.flights, i) == ExecutionsOf(w.flights, i)
  {
    forall f | 0 <= f < |w'.flights|
      ensures f in DispatchesOf(w'.flights, i) <==> f in DispatchesOf(w.flights, i)
      ensures f in ExecutionsOf(w'.flights, i) <==> f in ExecutionsOf(w.flights, i)
    {
      if f < |w.flights| {
        assert w'.flights[f] == w.flights[f];
      }
    }
  }

  /** A run to the end in which no handler is entered. */
  lemma EndsQuietly(w: World, i: nat) returns (ls: seq<Label>)
    requires Inv(w) && i < |w.db.rows|
    ensures Runs(w, ls) && i < |Exec(w, ls).db.rows|
    ensures Exec(w, ls).db.rows[i].status == if Terminal(w.db.rows[i].status) then w.db.rows[i].status else Failed
    ensures DispatchesOf(Exec(w, ls).flights, i) == DispatchesOf(w.flights, i)
    ensures ExecutionsOf(Exec(w, ls).flights, i) == ExecutionsOf(w.flights, i)
  {
    ls := NoTaskIsStuck(w, ServiceFor(w.db.rows[i]), 0.0, i);
    SparedStayAsTheyAre(w, Exec(w, ls), i);
  }

  lemma CancelledStays(w: World, i: nat)
    requires Inv(w) && i < |w.db.rows| && w.db.rows[i].status.Cancelled?
    ensures !CanFailUnexecuted(w, i)
  {
    forall ls | Runs(w, ls) && i < |Exec(w, ls).db.rows| ensures !Exec(w, ls).db.rows[i].status.Failed? {
      TerminalForever(w, ls, i);
    }
  }

  lemma ExecutedStays(w: World, i: nat)
    requires Inv(w) && ExecutionsOf(w.flights, i) != {}
    ensures !CanEndUnexecuted(w, i) && !CanFailUnexecuted(w, i)
  {
    forall ls | Runs(w, ls) ensures ExecutionsOf(Exec(w, ls).flights, i) != {} {
      BegunForever(w, ls, i);
    }
  }

  /** Exactly when at-least-once execution can fail: as long as the task's handler
      has not been entered it may end, and unless it was cancelled it may fail,
      without ever being executed; after the first entry it cannot. */
  lemma EndsUnexecutedIff(w: World, i: nat)
    requires Reachable(w) && i < |w.db.rows|
    ensures Parallel(w)
    ensures CanEndUnexecuted(w, i) <==> ExecutionsOf(w.flights, i) == {}
    ensures CanFailUnexecuted(w, i) <==> ExecutionsOf(w.flights, i) == {} && !w.db.rows[i].status.Cancelled?
  {
    ReachableInv(w);
    if ExecutionsOf(w.flights, i) != {} {
      ExecutedStays(w, i);
    } else {
      TerminalCauses(w, i);
      var ls := EndsQuietly(w, i);
      assert CanEndUnexecuted(w, i);
      if w.db.rows[i].status.Cancelled? {
        CancelledStays(w, i);
      } else {
        assert Exec(w, ls).db.rows[i].status.Failed?;
      }
    }
  }

  /** The same for dispatches, whether or not they found a handler. */
  lemma EndsUndispatchedIff(w: World, i: nat)
    requires Reachable(w) && i < |w.db.rows|
    ensures Parallel(w)
    ensures CanEndUndispatched(w, i) <==> DispatchesOf(w.flights, i) == {}
  {
    ReachableInv(w);
    if CanEndUndispatched(w, i) {
      var ls :| Runs(w, ls) && i < |Exec(w, ls).db.rows| && Terminal(Exec(w, ls).db.rows[i].status)
                && DispatchesOf(Exec(w, ls).flights, i) == {};
      BegunForever(w, ls, i);
    }
    if DispatchesOf(w.flights, i) == {} {
      var ls := EndsQuietly(w, i);
      assert CanEndUndispatched(w, i);
    }
  }
}
