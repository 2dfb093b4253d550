/** Every task ends: in every run made of rounds in which deadlines pass, the
    sweeper runs and eligible tasks are claimed, whatever else happens. */
module FairRuns {
  import opened Wrappers
  import opened Domain
  import opened RowEvents
  import opened Store
  import opened Trails
  import opened World
  import opened Invariant
  import opened Guarantees

  // ---- rounds --------------------------------------------------------------

  /** Somewhere in the run the sweeper recovers zombies past the deadline. */
  ghost predicate Sweeps(w: World, ls: seq<Label>, deadline: Time)
    requires Parallel(w) && Runs(w, ls)
    decreases |ls|
  {
    ls != [] &&
    (NextIsParallel(w, ls[0]);
     (ls[0].SweepZombies? && deadline < w.now) || Sweeps(Next(w, ls[0]), ls[1..], deadline))
  }

  /** Somewhere in the run the sweeper expires suspensions that began by `since`. */
  ghost predicate Expires(w: World, ls: seq<Label>, since: Time)
    requires Parallel(w) && Runs(w, ls)
    decreases |ls|
  {
    ls != [] &&
    (NextIsParallel(w, ls[0]);
     (ls[0].SweepSuspended? && since < w.now - ls[0].timeout) || Expires(Next(w, ls[0]), ls[1..], since))
  }

  predicate IsDue(r: Row, now: Time) {
    r.status.Pending? && r.scheduledAt <= now
  }

  /** What a round does for a task that has not ended. A task that runs is swept
      past its lease, one that is suspended past its timeout, and one that waits
      comes up: at the end of the round it is not left due. */
  ghost predicate FairTo(w: World, ls: seq<Label>, i: nat)
    requires Parallel(w) && Runs(w, ls) && i < |w.db.rows|
  {
    var r, w' := w.db.rows[i], Exec(w, ls);
    match r.status
    case Running => r.claimedUntil.Some? ==> Sweeps(w, ls, r.claimedUntil.value)
    case Suspended => Expires(w, ls, SuspendedSince(r))
    case Pending => r.scheduledAt <= w'.now && i < |w'.db.rows| && !IsDue(w'.db.rows[i], w'.now)
    case _ => true
  }

  ghost predicate FairRounds(w: World, rounds: seq<seq<Label>>, i: nat)
    requires Parallel(w)
    decreases |rounds|
  {
    rounds == [] ||
    (Runs(w, rounds[0]) && i < |w.db.rows| && FairTo(w, rounds[0], i) && FairRounds(Exec(w, rounds[0]), rounds[1..], i))
  }

  ghost function ExecRounds(w: World, rounds: seq<seq<Label>>, i: nat): (w': World)
    requires Parallel(w) && FairRounds(w, rounds, i)
    ensures Parallel(w')
    decreases |rounds|
  {
    if rounds == [] then w else ExecRounds(Exec(w, rounds[0]), rounds[1..], i)
  }

  // ---- a round moves the task ----------------------------------------------

  /** Without a change of status, a step leaves the claim and the schedule alone. */
  lemma UnmovedEvent(e: Event, r: Row, now: Time)
    requires Allowed(e, r, now) && Apply(e, r, now).status == r.status
    ensures var r' := Apply(e, r, now);
            r'.claimedUntil == r.claimedUntil && r'.scheduledAt == r.scheduledAt && r'.suspendedAt == r.suspendedAt
    ensures !r.status.Running? && !Terminal(r.status) ==> Apply(e, r, now) == r
  {
  }

  lemma UnmovedStep(w: World, l: Label, i: nat)
    requires Inv(w) && Enabled(w, l) && i < |w.db.rows|
    requires i < |Next(w, l).db.rows| && Next(w, l).db.rows[i].status == w.db.rows[i].status
    ensures var r, r' := w.db.rows[i], Next(w, l).db.rows[i];
            && r'.claimedUntil == r.claimedUntil && r'.scheduledAt == r.scheduledAt && r'.suspendedAt == r.suspendedAt
            && (!r.status.Running? && !Terminal(r.status) ==> r' == r)
  {
    TaskAfterStep(w, l, i);
    if Next(w, l).db.rows[i] != w.db.rows[i] {
      var e :| Allowed(e, w.db.rows[i], w.now) && Next(w, l).db.rows[i] == Apply(e, w.db.rows[i], w.now);
      UnmovedEvent(e, w.db.rows[i], w.now);
    }
  }

  lemma SweepMoves(w: World, i: nat)
    requires Inv(w) && i < |w.db.rows| && w.db.rows[i].status.Running?
    requires w.db.rows[i].claimedUntil.Some? && w.db.rows[i].claimedUntil.value < w.now
    ensures i < |Next(w, SweepZombies).db.rows| && !Next(w, SweepZombies).db.rows[i].status.Running?
  {
    RowAfterStep(w, SweepZombies, i);
  }

  lemma ExpiryMoves(w: World, timeout: Time, i: nat)
    requires Inv(w) && i < |w.db.rows| && w.db.rows[i].status.Suspended? && SuspendedSince(w.db.rows[i]) < w.now - timeout
    ensures i < |Next(w, SweepSuspended(timeout)).db.rows| && !Next(w, SweepSuspended(timeout)).db.rows[i].status.Suspended?
  {
    RowAfterStep(w, SweepSuspended(timeout), i);
  }

  lemma {:induction false} SweptTaskMoves(w: World, ls: seq<Label>, i: nat)
    requires Inv(w) && Runs(w, ls) && i < |w.db.rows| && w.db.rows[i].status.Running?
    requires w.db.rows[i].claimedUntil.Some? && Sweeps(w, ls, w.db.rows[i].claimedUntil.value)
    ensures StatusChanges(w, ls, i) >= 1
    decreases |ls|
  {
    var l := ls[0];
    StepKeepsInv(w, l);
    StepKeepsTask(w, l, i);
    if Next(w, l).db.rows[i].status.Running? {
      UnmovedStep(w, l, i);
      if l.SweepZombies? && w.db.rows[i].claimedUntil.value < w.now {
        SweepMoves(w, i);
      }
      SweptTaskMoves(Next(w, l), ls[1..], i);
    }
  }

  lemma {:induction false} ExpiredTaskMoves(w: World, ls: seq<Label>, i: nat)
    requires Inv(w) && Runs(w, ls) && i < |w.db.rows| && w.db.rows[i].status.Suspended?
    requires Expires(w, ls, SuspendedSince(w.db.rows[i]))
    ensures StatusChanges(w, ls, i) >= 1
    decreases |ls|
  {
    var l := ls[0];
    StepKeepsInv(w, l);
    StepKeepsTask(w, l, i);
    if Next(w, l).db.rows[i].status.Suspended? {
      UnmovedStep(w, l, i);
      if l.SweepSuspended? && SuspendedSince(w.db.rows[i]) < w.now - l.timeout {
        ExpiryMoves(w, l.timeout, i);
      }
      ExpiredTaskMoves(Next(w, l), ls[1..], i);
    }
  }

  lemma {:induction false} UnmovedStaysPending(w: World, ls: seq<Label>, i: nat)
    requires Inv(w) && Runs(w, ls) && i < |w.db.rows| && w.db.rows[i].status.Pending? && StatusChanges(w, ls, i) == 0
    ensures i < |Exec(w, ls).db.rows| && Exec(w, ls).db.rows[i] == w.db.rows[i]
    decreases |ls|
  {
    if ls != [] {
      StepKeepsInv(w, ls[0]);
      StepKeepsTask(w, ls[0], i);
      UnmovedStep(w, ls[0], i);
      UnmovedStaysPending(Next(w, ls[0]), ls[1..], i);
    }
  }

  /** A round that is fair to a task moves it, unless it has ended. */
  lemma FairRoundMoves(w: World, ls: seq<Label>, i: nat)
    requires Inv(w) && Runs(w, ls) && i < |w.db.rows| && FairTo(w, ls, i) && !Terminal(w.db.rows[i].status)
    ensures StatusChanges(w, ls, i) >= 1
  {
    assert Sound(w.db.rows[i], w.trails[i], w.now);
    match w.db.rows[i].status {
      case Running => SweptTaskMoves(w, ls, i);
      case Suspended => ExpiredTaskMoves(w, ls, i);
      case Pending =>
        if StatusChanges(w, ls, i) == 0 {
          UnmovedStaysPending(w, ls, i);
        }
    }
  }

  // ---- every task ends -----------------------------------------------------

  lemma {:induction false} TerminalThroughRounds(w: World, rounds: seq<seq<Label>>, i: nat)
    requires Inv(w) && FairRounds(w, rounds, i) && i < |w.db.rows| && Terminal(w.db.rows[i].status)
    ensures Inv(ExecRounds(w, rounds, i)) && i < |ExecRounds(w, rounds, i).db.rows|
    ensures Terminal(ExecRounds(w, rounds, i).db.rows[i].status)
    decreases |rounds|
  {
    if rounds != [] {
      RunKeepsInv(w, rounds[0]);
      TerminalForever(w, rounds[0], i);
      TerminalThroughRounds(Exec(w, rounds[0]), rounds[1..], i);
    }
  }

  lemma {:induction false} KeepsTask(w: World, ls: seq<Label>, i: nat)
    requires Inv(w) && Runs(w, ls) && i < |w.db.rows|
    ensures i < |Exec(w, ls).db.rows| && SameIdentity(w.db.rows[i], Exec(w, ls).db.rows[i])
    decreases |ls|
  {
    if ls != [] {
      StepKeepsInv(w, ls[0]);
      StepKeepsTask(w, ls[0], i);
      KeepsTask(Next(w, ls[0]), ls[1..], i);
    }
  }

  /** Each round that does not end the task adds a move to its history. */
  lemma {:induction false} RoundsAddMoves(w: World, rounds: seq<seq<Label>>, i: nat)
    requires Inv(w) && FairRounds(w, rounds, i) && i < |w.db.rows|
    ensures Inv(ExecRounds(w, rounds, i)) && i < |ExecRounds(w, rounds, i).db.rows|
    ensures SameIdentity(w.db.rows[i], ExecRounds(w, rounds, i).db.rows[i])
    ensures Terminal(ExecRounds(w, rounds, i).db.rows[i].status)
            || MovesOf(ExecRounds(w, rounds, i), i) >= MovesOf(w, i) + |rounds|
    decreases |rounds|
  {
    if rounds != [] {
      var w1 := Exec(w, rounds[0]);
      RunKeepsInv(w, rounds[0]);
      KeepsTask(w, rounds[0], i);
      RunCountsMoves(w, rounds[0], i);
      RoundsAddMoves(w1, rounds[1..], i);
      if Terminal(w.db.rows[i].status) {
        TerminalThroughRounds(w, rounds, i);
      } else {
        FairRoundMoves(w, rounds[0], i);
      }
    }
  }

  /** In every run of rounds that are fair to a task, with any other steps in
      between, the task has ended after 5 * max_attempts + 2 rounds, and two more
      for each time its lease was released. */
  lemma EveryTaskEnds(w: World, rounds: seq<seq<Label>>, i: nat)
    requires Reachable(w) && Parallel(w) && i < |w.db.rows| && FairRounds(w, rounds, i)
    ensures var w' := ExecRounds(w, rounds, i);
            && i < |w'.db.rows| && i < |w'.trails|
            && (|rounds| >= 5 * w.db.rows[i].maxAttempts + 2 * Releases(w'.trails[i]) + 2 ==> Terminal(w'.db.rows[i].status))
  {
    ReachableInv(w);
    RoundsAddMoves(w, rounds, i);
    MovesBound(ExecRounds(w, rounds, i), i);
  }
}
