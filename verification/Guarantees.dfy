/** What the engine guarantees for each task over every run, with crashes,
    zombie recovery, suspension, signals, cancels and shutdown releases in any
    interleaving. */
module Guarantees {
  import opened Wrappers
  import opened Domain
  import opened RowEvents
  import opened Store
  import opened Trails
  import opened World
  import opened Invariant

  // ---- attempts ------------------------------------------------------------

  /** `attempts` counts claims and releases, and exceeds the maximum by at most
      two for each release and one for each signal. */
  lemma AttemptAccounting(w: World, i: nat)
    requires Reachable(w) && i < |w.db.rows|
    ensures Parallel(w)
    ensures var r, t := w.db.rows[i], w.trails[i];
            && r.attempts == Claims(t) + Releases(t)
            && r.attempts <= r.maxAttempts + 2 * Releases(t) + Signals(t)
            && (Releases(t) == 0 && Signals(t) == 0 ==> Maps(r))
  {
    ReachableInv(w);
    assert Sound(w.db.rows[i], w.trails[i], w.now);
  }

  // ---- dispatches ----------------------------------------------------------

  lemma {:induction false} Pigeonhole(s: set<nat>, number: nat -> nat, n: nat)
    requires forall x :: x in s ==> 1 <= number(x) <= n
    requires forall x, y :: x in s && y in s && number(x) == number(y) ==> x == y
    ensures |s| <= n
  {
    if n == 0 {
      assert forall x :: x in s ==> number(x) <= 0;
      assert s == {};
    } else if x :| x in s && number(x) == n {
      Pigeonhole(s - {x}, number, n - 1);
    } else {
      Pigeonhole(s, number, n - 1);
    }
  }

  /** The dispatches of a task that ever began. */
  function DispatchesOf(flights: seq<Flight>, i: nat): set<nat> {
    set f | 0 <= f < |flights| && flights[f].task == i && flights[f].begun
  }

  /** The dispatches of a task whose handler was entered. */
  function ExecutionsOf(flights: seq<Flight>, i: nat): set<nat> {
    set f | 0 <= f < |flights| && flights[f].task == i && flights[f].ran
  }

  lemma ExecutionsAreDispatches(w: World, i: nat)
    requires Manifest(w)
    ensures ExecutionsOf(w.flights, i) <= DispatchesOf(w.flights, i)
  {
    forall f | f in ExecutionsOf(w.flights, i) ensures f in DispatchesOf(w.flights, i) {
      assert Listed(w, w.flights[f]);
    }
  }

  lemma InvBoundsDispatches(w: World, i: nat)
    requires Manifest(w) && OrderedAttempts(w.flights) && i < |w.db.rows|
    ensures |DispatchesOf(w.flights, i)| <= w.db.rows[i].maxAttempts
  {
    var flights := w.flights;
    var number := (f: nat) => if f < |flights| then flights[f].attempt else 0;
    var s := DispatchesOf(flights, i);
    forall x, y | x in s && y in s && number(x) == number(y) ensures x == y {
      assert x < y || y < x || x == y;
    }
    forall x | x in s ensures 1 <= number(x) <= w.db.rows[i].maxAttempts {
      assert Listed(w, flights[x]);
    }
    Pigeonhole(s, number, w.db.rows[i].maxAttempts);
  }

  /** At most `max_attempts` dispatches of a task, and strictly increasing attempt
      numbers in the order of its claims, dispatched or not. */
  lemma DispatchBound(w: World, i: nat)
    requires Reachable(w) && i < |w.db.rows|
    ensures |DispatchesOf(w.flights, i)| <= w.db.rows[i].maxAttempts
    ensures forall f, g :: 0 <= f < g < |w.flights| && w.flights[f].task == w.flights[g].task == i ==>
              w.flights[f].attempt < w.flights[g].attempt
    ensures forall f :: f in DispatchesOf(w.flights, i) ==> 1 <= w.flights[f].attempt <= w.db.rows[i].maxAttempts
  {
    ReachableInv(w);
    InvBoundsDispatches(w, i);
    forall f | f in DispatchesOf(w.flights, i) ensures 1 <= w.flights[f].attempt <= w.db.rows[i].maxAttempts {
      assert Listed(w, w.flights[f]);
    }
  }

  /** While a claim is the row's latest, its dispatch has a higher attempt than
      every other dispatch of the task. A claim that has been superseded may
      still begin; see `StaleClaims`. */
  lemma FreshDispatchIsNewest(w: World, f: nat, g: nat)
    requires Reachable(w) && f < |w.flights| && g in DispatchesOf(w.flights, w.flights[f].task) && g != f
    requires Enabled(w, Begin(f)) && w.flights[f].attempt == w.db.rows[w.flights[f].task].attempts
    ensures w.flights[g].attempt < w.flights[f].attempt
  {
    ReachableInv(w);
    assert Listed(w, w.flights[g]);
    assert f < g || g < f;
  }

  // ---- status changes ------------------------------------------------------

  /** How often the status of task i changes along a run. */
  ghost function StatusChanges(w: World, ls: seq<Label>, i: nat): nat
    requires Parallel(w) && Runs(w, ls)
    decreases |ls|
  {
    if ls == [] then 0
    else
      NextIsParallel(w, ls[0]);
      var w' := Next(w, ls[0]);
      One(i < |w.db.rows| && i < |w'.db.rows| && w'.db.rows[i].status != w.db.rows[i].status)
      + StatusChanges(w', ls[1..], i)
  }

  function MovesOf(w: World, i: nat): nat {
    if i < |w.trails| then Moves(w.trails[i]) else 0
  }

  lemma StepCountsMove(w: World, l: Label, i: nat)
    requires Inv(w) && Enabled(w, l)
    ensures MovesOf(Next(w, l), i)
            == MovesOf(w, i) + One(i < |w.db.rows| && i < |Next(w, l).db.rows|
                                   && Next(w, l).db.rows[i].status != w.db.rows[i].status)
  {
    if i < |w.db.rows| {
      TaskAfterStep(w, l, i);
      if Next(w, l).db.rows[i] != w.db.rows[i] || Next(w, l).trails[i] != w.trails[i] {
        var e :| Allowed(e, w.db.rows[i], w.now) && Next(w, l).db.rows[i] == Apply(e, w.db.rows[i], w.now)
                 && Next(w, l).trails[i] == Then(w.trails[i], e, w.now);
        MovesAreStatusChanges(w.db.rows[i], e, w.now);
      }
    } else {
      NextIsParallel(w, l);
      if i < |Next(w, l).db.rows| {
        NewRowsArePending(w, l, i);
      }
    }
  }

  lemma {:induction false} RunCountsMoves(w: World, ls: seq<Label>, i: nat)
    requires Inv(w) && Runs(w, ls)
    ensures MovesOf(Exec(w, ls), i) == MovesOf(w, i) + StatusChanges(w, ls, i)
    decreases |ls|
  {
    if ls != [] {
      StepKeepsInv(w, ls[0]);
      StepCountsMove(w, ls[0], i);
      RunCountsMoves(Next(w, ls[0]), ls[1..], i);
    }
  }

  /** What bounds the status changes in a task's history. */
  lemma MovesBound(w: World, i: nat)
    requires Inv(w) && i < |w.db.rows|
    ensures Signals(w.trails[i]) <= Suspends(w.trails[i]) <= |ExecutionsOf(w.flights, i)|
    ensures |ExecutionsOf(w.flights, i)| <= |DispatchesOf(w.flights, i)| <= w.db.rows[i].maxAttempts
    ensures Claims(w.trails[i]) <= w.db.rows[i].maxAttempts + Releases(w.trails[i]) + Signals(w.trails[i])
    ensures Moves(w.trails[i]) <= 5 * w.db.rows[i].maxAttempts + 2 * Releases(w.trails[i]) + 1
  {
    InvBoundsDispatches(w, i);
    assert Sound(w.db.rows[i], w.trails[i], w.now);
    SuspendersAreExecutions(w, i);
  }

  /** Over a whole run a task changes status at most 5 * max_attempts + 1 times,
      and twice more for each lease release. */
  lemma StatusChangeBound(start: Time, auditing: bool, ls: seq<Label>, i: nat)
    requires Runs(Init(start, auditing), ls) && i < |Exec(Init(start, auditing), ls).db.rows|
    ensures var w := Exec(Init(start, auditing), ls);
            && Signals(w.trails[i]) <= Suspends(w.trails[i]) <= |ExecutionsOf(w.flights, i)|
            && |ExecutionsOf(w.flights, i)| <= |DispatchesOf(w.flights, i)| <= w.db.rows[i].maxAttempts
            && Claims(w.trails[i]) <= w.db.rows[i].maxAttempts + Releases(w.trails[i]) + Signals(w.trails[i])
            && StatusChanges(Init(start, auditing), ls, i)
               <= 5 * w.db.rows[i].maxAttempts + 2 * Releases(w.trails[i]) + 1
  {
    RunKeepsInv(Init(start, auditing), ls);
    RunCountsMoves(Init(start, auditing), ls, i);
    MovesBound(Exec(Init(start, auditing), ls), i);
  }

  // ---- terminal statuses ---------------------------------------------------

  /** Why a task ended: a completed task was executed by a handler that returned
      Ok; a failed one used up its attempts or waited too long for a signal. */
  lemma TerminalCauses(w: World, i: nat)
    requires Reachable(w) && i < |w.db.rows|
    ensures w.db.rows[i].status.Completed? ==>
              exists f :: f in ExecutionsOf(w.flights, i) && w.flights[f].outcome == Some(Success)
    ensures w.db.rows[i].status.Failed? ==>
              w.db.rows[i].attempts >= w.db.rows[i].maxAttempts || w.db.rows[i].lastError == Some(SUSPEND_TIMEOUT)
  {
    ReachableInv(w);
    assert Sound(w.db.rows[i], w.trails[i], w.now);
    if w.db.rows[i].status.Completed? {
      assert CompletedBy(w.flights, i);
      var f :| 0 <= f < |w.flights| && w.flights[f].task == i && w.flights[f].settlement.DidComplete?;
      assert Listed(w, w.flights[f]);
      assert f in ExecutionsOf(w.flights, i);
    }
  }

  /** At-least-once execution, as far as it goes: a task that ended without its
      handler having been entered was cancelled, or failed with its attempts used
      up by lost claims and by dispatches that found no handler. */
  lemma NeverRunWithoutCause(w: World, i: nat)
    requires Reachable(w) && i < |w.db.rows| && Terminal(w.db.rows[i].status)
    requires ExecutionsOf(w.flights, i) == {}
    ensures w.db.rows[i].status.Cancelled?
            || (w.db.rows[i].status.Failed? && w.db.rows[i].attempts >= w.db.rows[i].maxAttempts)
  {
    TerminalCauses(w, i);
    ReachableInv(w);
    assert Sound(w.db.rows[i], w.trails[i], w.now);
    SuspendersAreExecutions(w, i);
  }

  lemma SubsetIsSmaller(s: set<nat>, t: set<nat>)
    requires s <= t
    ensures |s| <= |t|
  {
    assert t == s + (t - s);
  }

  lemma SuspendersAreExecutions(w: World, i: nat)
    requires Manifest(w)
    ensures SuspendedBy(w.flights, i) <= ExecutionsOf(w.flights, i)
    ensures |SuspendedBy(w.flights, i)| <= |ExecutionsOf(w.flights, i)| <= |DispatchesOf(w.flights, i)|
  {
    forall f | f in SuspendedBy(w.flights, i) ensures f in ExecutionsOf(w.flights, i) {
      assert Listed(w, w.flights[f]);
    }
    ExecutionsAreDispatches(w, i);
    SubsetIsSmaller(SuspendedBy(w.flights, i), ExecutionsOf(w.flights, i));
    SubsetIsSmaller(ExecutionsOf(w.flights, i), DispatchesOf(w.flights, i));
  }

  function TasksOf(flights: seq<Flight>, i: nat): set<nat> {
    set f | 0 <= f < |flights| && flights[f].task == i
  }

  lemma TerminalIsNotClaimed(w: World, l: Label, i: nat)
    requires Parallel(w) && Enabled(w, l) && i < |w.db.rows| && Terminal(w.db.rows[i].status)
    ensures TasksOf(Next(w, l).flights, i) == TasksOf(w.flights, i)
  {
    FlightCount(w, l);
    forall f | 0 <= f < |w.flights| ensures Next(w, l).flights[f].task == w.flights[f].task {
      FlightsPersist(w, l, f);
    }
    if |Next(w, l).flights| > |w.flights| {
      NewFlightIsClaimed(w, l);
    }
    SameTasks(w.flights, Next(w, l).flights, i);
  }

  lemma StepKeepsTerminal(w: World, l: Label, i: nat)
    requires Inv(w) && Enabled(w, l) && i < |w.db.rows| && Terminal(w.db.rows[i].status)
    ensures i < |Next(w, l).db.rows| && Next(w, l).db.rows[i].status == w.db.rows[i].status
    ensures TasksOf(Next(w, l).flights, i) == TasksOf(w.flights, i)
  {
    TaskAfterStep(w, l, i);
    TerminalIsNotClaimed(w, l, i);
  }

  lemma SameTasks(flights: seq<Flight>, flights': seq<Flight>, i: nat)
    requires |flights| <= |flights'|
    requires forall f :: 0 <= f < |flights| ==> flights'[f].task == flights[f].task
    requires forall f :: |flights| <= f < |flights'| ==> flights'[f].task != i
    ensures TasksOf(flights', i) == TasksOf(flights, i)
  {
  }

  /** Once terminal, always the same status; and no claim is made any more, so a
      dispatch that begins after a cancel stands for a claim made before it. */
  lemma {:induction false} TerminalForever(w: World, ls: seq<Label>, i: nat)
    requires Inv(w) && Runs(w, ls) && i < |w.db.rows| && Terminal(w.db.rows[i].status)
    ensures i < |Exec(w, ls).db.rows| && Exec(w, ls).db.rows[i].status == w.db.rows[i].status
    ensures TasksOf(Exec(w, ls).flights, i) == TasksOf(w.flights, i)
    decreases |ls|
  {
    if ls != [] {
      StepKeepsTerminal(w, ls[0], i);
      StepKeepsInv(w, ls[0]);
      TerminalForever(Next(w, ls[0]), ls[1..], i);
    }
  }

  // ---- what a dispatch is given --------------------------------------------

  /** The record that a claim hands out carries the latest successful
      checkpoint write and the payload of the latest signal of the run. */
  lemma ClaimHandsLatest(w: World, l: Label)
    requires Reachable(w) && Enabled(w, l) && Parallel(w) && |Next(w, l).flights| > |w.flights|
    ensures var f := Next(w, l).flights[|w.flights|];
            && f.task < |w.trails| && l.Poll? && f.worker == l.worker
            && f.checkpoint == LatestWrite(w.trails[f.task]) && f.signal == LatestSignal(w.trails[f.task])
            && f.attempt == Claims(w.trails[f.task]) + Releases(w.trails[f.task]) + 1
  {
    ReachableInv(w);
    NewFlightIsClaimed(w, l);
    assert Sound(w.db.rows[l.pick.value], w.trails[l.pick.value], w.now);
  }

  // ---- shapes --------------------------------------------------------------

  /** Every row has the shape its status implies. */
  lemma RowsAreShaped(w: World, i: nat)
    requires Reachable(w) && i < |w.db.rows|
    ensures Shaped(w.db.rows[i], w.now)
  {
    ReachableInv(w);
    assert Sound(w.db.rows[i], w.trails[i], w.now);
  }

  /** `signal` leaves `scheduled_at` alone, and yet the task is claimable at
      once by any worker of its queue and region. */
  lemma SignalledIsClaimable(w: World, i: nat, payload: Option<Json>)
    requires Reachable(w) && i < |w.db.rows| && w.db.rows[i].status.Suspended? && Parallel(w)
    ensures var r := Next(w, Resume(w.db.rows[i].id, payload)).db.rows[i];
            r.scheduledAt == w.db.rows[i].scheduledAt && r.signalPayload == payload
            && Eligible(r, w.db.rows[i].queue, w.db.rows[i].region, w.now)
  {
    RowsAreShaped(w, i);
  }
}
