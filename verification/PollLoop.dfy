/** `WorkerService::run_poll_loop`: one worker's permits, spawned dispatches and
    claim backoff, under any sequence of claim answers, dispatch ends and
    cancellations. */
module PollLoop {
  import opened Wrappers
  import opened ClaimBackoff

  datatype Settings = Settings(concurrency: nat, pollInterval: Duration, maxClaimBackoff: Duration)

  /** What `claim_next` came to: a task, none, an error with its jitter draw, or
      the cancellation of the wait. */
  datatype Answer = Task | Empty | Error(jitter: nat) | Interrupted

  /** How the wait for a backoff deadline ends. */
  datatype BackoffExit = Elapsed | JobJoined | CancelledInBackoff

  /** One iteration of the loop, seen from outside. `ends` lists the spawned
      dispatches that ended since the last one: they returned or panicked. */
  datatype Turn = Turn(ends: seq<nat>, backoffExit: BackoffExit, cancelled: bool, answer: Answer, cancelledAfterClaim: bool)

  /** `jobs[j]` tells whether the j-th handle of the JoinSet still runs, and so
      still owns its permit. */
  datatype State = State(available: nat, held: bool, jobs: seq<bool>, errors: nat, backoff: Option<Duration>, stopped: bool)

  function Active(jobs: seq<bool>): nat {
    if jobs == [] then 0 else Active(jobs[..|jobs| - 1]) + if jobs[|jobs| - 1] then 1 else 0
  }

  predicate Conserved(s: State, concurrency: nat) {
    s.available + (if s.held then 1 else 0) + Active(s.jobs) == concurrency
  }

  function Init(c: Settings): State {
    State(c.concurrency, false, [], 0, None, false)
  }

  // ---- the actions of the loop and of its dispatches -----------------------

  function Acquire(s: State): State
    requires s.available > 0 && !s.held
  {
    s.(available := s.available - 1, held := true)
  }

  function Drop(s: State): State
    requires s.held
  {
    s.(available := s.available + 1, held := false)
  }

  function Spawn(s: State): State
    requires s.held
  {
    s.(held := false, jobs := s.jobs + [true])
  }

  /** A dispatch returns, panics or is aborted: its permit goes back. */
  function End(s: State, j: nat): State {
    if j < |s.jobs| && s.jobs[j] then s.(available := s.available + 1, jobs := s.jobs[j := false]) else s
  }

  function EndAll(s: State, ends: seq<nat>): (s': State)
    ensures s'.held == s.held && s'.errors == s.errors && s'.backoff == s.backoff && s'.stopped == s.stopped
  {
    if ends == [] then s else End(EndAll(s, ends[..|ends| - 1]), ends[|ends| - 1])
  }

  /** The handles that a non-blocking reap leaves. */
  function Unfinished(jobs: seq<bool>): seq<bool> {
    if jobs == [] then []
    else Unfinished(jobs[..|jobs| - 1]) + if jobs[|jobs| - 1] then [true] else []
  }

  function FirstFinished(jobs: seq<bool>, from: nat): (j: nat)
    requires from <= |jobs|
    ensures from <= j <= |jobs| && (j < |jobs| ==> !jobs[j])
    decreases |jobs| - from
  {
    if from == |jobs| || !jobs[from] then from else FirstFinished(jobs, from + 1)
  }

  function JoinOne(s: State): State {
    var j := FirstFinished(s.jobs, 0);
    if j < |s.jobs| then s.(jobs := s.jobs[..j] + s.jobs[j + 1..]) else s
  }

  function Answered(c: Settings, s: State, t: Turn): State
    requires s.held
  {
    match t.answer
    case Interrupted => Drop(s).(stopped := true)
    case Task =>
      if t.cancelledAfterClaim then Drop(s).(errors := 0, stopped := true) else Spawn(s).(errors := 0)
    case Empty => Drop(s).(errors := 0)
    case Error(jitter) =>
      Drop(s).(errors := CountError(s.errors),
               backoff := Some(Delay(c.pollInterval, c.maxClaimBackoff, s.errors, jitter)))
  }

  function AfterBackoff(s: State, t: Turn): (s': State)
    ensures s'.held == s.held && s'.errors == s.errors && s'.available == s.available
  {
    if s.backoff.None? then s
    else
      match t.backoffExit
      case CancelledInBackoff => s.(backoff := None, stopped := true)
      case JobJoined => JoinOne(s.(backoff := None))
      case Elapsed => s.(backoff := None)
  }

  /** Up to the claim: dispatches end, the backoff is waited for, cancellation is
      seen, and finished handles are reaped. */
  function Prepared(s: State, t: Turn): (s': State)
    ensures s'.held == s.held && s'.errors == s.errors
  {
    var s := AfterBackoff(EndAll(s, t.ends), t);
    if s.stopped then s
    else if t.cancelled then s.(stopped := true)
    else s.(jobs := Unfinished(s.jobs))
  }

  function TakeTurn(c: Settings, s: State, t: Turn): (s': State)
    requires !s.held
    ensures !s'.held
  {
    var s := Prepared(s, t);
    if s.stopped || s.available == 0 then s else Answered(c, Acquire(s), t)
  }

  function Iterate(step: (State, Turn) -> State, s: State, turns: seq<Turn>, n: nat): State
    requires n <= |turns|
  {
    if n == 0 then s else step(Iterate(step, s, turns, n - 1), turns[n - 1])
  }

  /** A turn, or nothing once the loop has stopped. */
  function Step(c: Settings): (State, Turn) -> State {
    (s: State, t: Turn) => if s.stopped || s.held then s else TakeTurn(c, s, t)
  }

  function Play(c: Settings, s: State, turns: seq<Turn>, n: nat): State
    requires n <= |turns|
  {
    Iterate(Step(c), s, turns, n)
  }

  lemma {:induction false} IterationKeeps(step: (State, Turn) -> State, holds: State -> bool, s: State, turns: seq<Turn>,
                                          n: nat)
    requires n <= |turns| && holds(s) && forall a: State, t: Turn :: holds(a) ==> holds(step(a, t))
    ensures holds(Iterate(step, s, turns, n))
  {
    if n > 0 {
      IterationKeeps(step, holds, s, turns, n - 1);
    }
  }

  lemma {:induction false} IterationStays(step: (State, Turn) -> State, s: State, turns: seq<Turn>, m: nat, n: nat)
    requires m <= n <= |turns| && (m < n ==> Iterate(step, s, turns, m).stopped)
    requires forall a: State, t: Turn :: a.stopped ==> step(a, t) == a
    ensures Iterate(step, s, turns, n) == Iterate(step, s, turns, m)
    decreases n
  {
    if m < n {
      IterationStays(step, s, turns, m, n - 1);
    }
  }

  // ---- permits -------------------------------------------------------------

  lemma {:induction false} ActiveAppend(a: seq<bool>, b: seq<bool>)
    ensures Active(a + b) == Active(a) + Active(b)
    decreases |b|
  {
    if b == [] {
      assert a + b == a;
    } else {
      assert (a + b)[..|a + b| - 1] == a + b[..|b| - 1];
      ActiveAppend(a, b[..|b| - 1]);
    }
  }

  lemma ActiveSplit(jobs: seq<bool>, j: nat)
    requires j < |jobs|
    ensures Active(jobs) == Active(jobs[..j]) + (if jobs[j] then 1 else 0) + Active(jobs[j + 1..])
  {
    assert jobs[..j + 1][..j] == jobs[..j];
    assert jobs == jobs[..j + 1] + jobs[j + 1..];
    ActiveAppend(jobs[..j + 1], jobs[j + 1..]);
  }

  lemma EndConserves(s: State, j: nat, concurrency: nat)
    requires Conserved(s, concurrency)
    ensures Conserved(End(s, j), concurrency)
  {
    if j < |s.jobs| && s.jobs[j] {
      var jobs' := s.jobs[j := false];
      ActiveSplit(s.jobs, j);
      ActiveSplit(jobs', j);
      assert jobs'[..j] == s.jobs[..j] && jobs'[j + 1..] == s.jobs[j + 1..];
    }
  }

  lemma {:induction false} EndAllConserves(s: State, ends: seq<nat>, concurrency: nat)
    requires Conserved(s, concurrency)
    ensures Conserved(EndAll(s, ends), concurrency) && EndAll(s, ends).held == s.held
    decreases |ends|
  {
    if ends != [] {
      EndAllConserves(s, ends[..|ends| - 1], concurrency);
      EndConserves(EndAll(s, ends[..|ends| - 1]), ends[|ends| - 1], concurrency);
    }
  }

  lemma {:induction false} ReapKeepsActive(jobs: seq<bool>)
    ensures Active(Unfinished(jobs)) == Active(jobs) == |Unfinished(jobs)|
    decreases |jobs|
  {
    if jobs != [] {
      var front := jobs[..|jobs| - 1];
      ReapKeepsActive(front);
      if jobs[|jobs| - 1] {
        assert (Unfinished(front) + [true])[..|Unfinished(front)|] == Unfinished(front);
      } else {
        assert Unfinished(front) + [] == Unfinished(front);
      }
    }
  }

  lemma JoinOneConserves(s: State, concurrency: nat)
    requires Conserved(s, concurrency)
    ensures Conserved(JoinOne(s), concurrency)
  {
    var j := FirstFinished(s.jobs, 0);
    if j < |s.jobs| {
      ActiveSplit(s.jobs, j);
      ActiveAppend(s.jobs[..j], s.jobs[j + 1..]);
    }
  }

  lemma AnswerConserves(c: Settings, s: State, t: Turn)
    requires s.held && Conserved(s, c.concurrency)
    ensures Conserved(Answered(c, s, t), c.concurrency)
  {
    assert (s.jobs + [true])[..|s.jobs|] == s.jobs;
  }

  lemma WaitConserves(s: State, t: Turn, concurrency: nat)
    requires Conserved(s, concurrency)
    ensures Conserved(AfterBackoff(s, t), concurrency)
  {
    JoinOneConserves(s.(backoff := None), concurrency);
  }

  lemma PreparationConserves(s: State, t: Turn, concurrency: nat)
    requires Conserved(s, concurrency)
    ensures Conserved(Prepared(s, t), concurrency)
  {
    EndAllConserves(s, t.ends, concurrency);
    WaitConserves(EndAll(s, t.ends), t, concurrency);
    ReapKeepsActive(AfterBackoff(EndAll(s, t.ends), t).jobs);
  }

  lemma TurnConserves(c: Settings, s: State, t: Turn)
    requires !s.held && Conserved(s, c.concurrency)
    ensures Conserved(TakeTurn(c, s, t), c.concurrency)
  {
    PreparationConserves(s, t, c.concurrency);
    var s' := Prepared(s, t);
    if !s'.stopped && s'.available > 0 {
      AnswerConserves(c, Acquire(s'), t);
    }
  }

  predicate Safe(s: State, concurrency: nat) {
    !s.held && Conserved(s, concurrency)
  }

  lemma StepIsSafe(c: Settings, s: State, t: Turn)
    requires Safe(s, c.concurrency)
    ensures Safe(Step(c)(s, t), c.concurrency)
  {
    if !s.stopped {
      TurnConserves(c, s, t);
    }
  }

  /** Whatever the claims answer and however dispatches end, no permit is lost
      or invented: at most `concurrency` dispatches run at once, and the loop
      holds no permit between iterations or after it stopped. */
  lemma PermitsConserved(c: Settings, turns: seq<Turn>, n: nat)
    requires n <= |turns|
    ensures var s := Play(c, Init(c), turns, n);
            && !s.held && s.available + Active(s.jobs) == c.concurrency
            && Active(s.jobs) <= c.concurrency
  {
    var holds := (s: State) => Safe(s, c.concurrency);
    forall s: State, t: Turn | holds(s) ensures holds(Step(c)(s, t)) {
      StepIsSafe(c, s, t);
    }
    IterationKeeps(Step(c), holds, Init(c), turns, n);
    assert Safe(Play(c, Init(c), turns, n), c.concurrency);
  }

  // ---- backoff -------------------------------------------------------------

  /** Whether the turn got as far as an answer from `claim_next`. */
  predicate Claims(s: State, t: Turn)
  {
    var s := Prepared(s, t);
    !s.stopped && s.available > 0
  }

  function Tally(s: State, t: Turn, errors: nat): nat {
    if s.held || s.stopped || !Claims(s, t) || t.answer.Interrupted? then errors
    else if t.answer.Error? then errors + 1 else 0
  }

  function Count(step: (State, Turn) -> State, tally: (State, Turn, nat) -> nat, s: State, turns: seq<Turn>, n: nat): nat
    requires n <= |turns|
  {
    if n == 0 then 0 else tally(Iterate(step, s, turns, n - 1), turns[n - 1], Count(step, tally, s, turns, n - 1))
  }

  /** How many of the latest answers in a row were errors. */
  function ErrorsInARow(c: Settings, turns: seq<Turn>, n: nat): nat
    requires n <= |turns|
  {
    Count(Step(c), (s: State, t: Turn, errors: nat) => Tally(s, t, errors), Init(c), turns, n)
  }

  lemma TurnCounts(c: Settings, s: State, t: Turn)
    requires !s.held
    ensures TakeTurn(c, s, t).errors ==
            if !Claims(s, t) || t.answer.Interrupted? then s.errors
            else if t.answer.Error? then CountError(s.errors) else 0
    ensures Claims(s, t) && t.answer.Error? ==>
              TakeTurn(c, s, t).backoff == Some(Delay(c.pollInterval, c.maxClaimBackoff, s.errors, t.answer.jitter))
  {
  }

  lemma StepTallies(c: Settings, s: State, t: Turn, errors: nat)
    requires s.errors == Min(errors, U32_MAX)
    ensures Step(c)(s, t).errors == Min(Tally(s, t, errors), U32_MAX)
  {
    if !s.stopped && !s.held {
      TurnCounts(c, s, t);
    }
  }

  lemma {:induction false} IterationTallies(step: (State, Turn) -> State, tally: (State, Turn, nat) -> nat, s: State,
                                            turns: seq<Turn>, n: nat)
    requires n <= |turns| && s.errors == 0
    requires forall a: State, t: Turn, errors: nat :: a.errors == Min(errors, U32_MAX) ==>
               step(a, t).errors == Min(tally(a, t, errors), U32_MAX)
    ensures Iterate(step, s, turns, n).errors == Min(Count(step, tally, s, turns, n), U32_MAX)
  {
    if n > 0 {
      IterationTallies(step, tally, s, turns, n - 1);
    }
  }

  lemma CounterCountsErrors(c: Settings, turns: seq<Turn>, n: nat)
    requires n <= |turns|
    ensures Play(c, Init(c), turns, n).errors == Min(ErrorsInARow(c, turns, n), U32_MAX)
  {
    var tally := (s: State, t: Turn, errors: nat) => Tally(s, t, errors);
    forall s: State, t: Turn, errors: nat | s.errors == Min(errors, U32_MAX)
      ensures Step(c)(s, t).errors == Min(tally(s, t, errors), U32_MAX)
    {
      StepTallies(c, s, t, errors);
    }
    IterationTallies(Step(c), tally, Init(c), turns, n);
  }

  /** The delay set by the k-th claim error in a row, for every draw: at least
      the doubled poll interval, at most `max_claim_backoff`. A task or an empty
      answer makes the next error the first again. */
  lemma BackoffAfterErrors(c: Settings, turns: seq<Turn>, n: nat)
    requires n < |turns| && !Play(c, Init(c), turns, n).stopped && Claims(Play(c, Init(c), turns, n), turns[n])
    requires turns[n].answer.Error?
    requires Drawn(turns[n].answer.jitter, c.pollInterval, c.maxClaimBackoff, Play(c, Init(c), turns, n).errors)
    ensures var k := ErrorsInARow(c, turns, n + 1);
            var s := Play(c, Init(c), turns, n + 1);
            && k >= 1 && s.backoff.Some?
            && LeastDelay(c.pollInterval, c.maxClaimBackoff, k) <= s.backoff.value <= c.maxClaimBackoff
  {
    var before := Play(c, Init(c), turns, n);
    PermitsConserved(c, turns, n);
    CounterCountsErrors(c, turns, n);
    ErrorSetsDelay(c, before, turns[n], ErrorsInARow(c, turns, n) + 1);
  }

  lemma ErrorSetsDelay(c: Settings, s: State, t: Turn, k: nat)
    requires k >= 1 && !s.held && !s.stopped && Claims(s, t) && t.answer.Error? && s.errors == Min(k - 1, U32_MAX)
    requires Drawn(t.answer.jitter, c.pollInterval, c.maxClaimBackoff, s.errors)
    ensures Tally(s, t, k - 1) == k && Step(c)(s, t).backoff.Some?
    ensures LeastDelay(c.pollInterval, c.maxClaimBackoff, k) <= Step(c)(s, t).backoff.value <= c.maxClaimBackoff
  {
    TurnCounts(c, s, t);
    DelayBounds(c.pollInterval, c.maxClaimBackoff, s.errors + 1, t.answer.jitter);
    SaturatedCountKeepsBound(c.pollInterval, c.maxClaimBackoff, k);
  }

  // ---- the loop ------------------------------------------------------------

  class WorkerService {
    const config: Settings
    var available: nat
    var permitHeld: bool
    var joinSet: seq<bool>
    var consecutiveErrors: nat
    var backoffUntil: Option<Duration>
    var cancelled: bool

    constructor (config: Settings)
      ensures this.config == config && Snapshot() == Init(config)
    {
      this.config := config;
      available, permitHeld, joinSet := config.concurrency, false, [];
      consecutiveErrors, backoffUntil, cancelled := 0, None, false;
    }

    function Snapshot(): State
      reads this
    {
      State(available, permitHeld, joinSet, consecutiveErrors, backoffUntil, cancelled)
    }

    method EndDispatches(ends: seq<nat>)
      modifies `available, `joinSet
      ensures Snapshot() == EndAll(old(Snapshot()), ends)
    {
      for k := 0 to |ends|
        invariant Snapshot() == EndAll(old(Snapshot()), ends[..k])
      {
        assert ends[..k + 1][..k] == ends[..k];
        var j := ends[k];
        if j < |joinSet| && joinSet[j] {
          joinSet := joinSet[j := false];
          available := available + 1;
        }
      }
      assert ends[..|ends|] == ends;
    }

    /** `while join_set.try_join_next().is_some() {}` */
    method ReapFinished()
      modifies `joinSet
      ensures joinSet == Unfinished(old(joinSet))
    {
      var kept: seq<bool> := [];
      for j := 0 to |joinSet|
        invariant joinSet == old(joinSet) && kept == Unfinished(joinSet[..j])
      {
        assert joinSet[..j + 1][..j] == joinSet[..j];
        if joinSet[j] {
          kept := kept + [true];
        }
      }
      assert joinSet[..|joinSet|] == joinSet;
      joinSet := kept;
    }

    method JoinNext()
      modifies `joinSet
      ensures Snapshot() == JoinOne(old(Snapshot()))
    {
      var j := 0;
      while j < |joinSet| && joinSet[j]
        invariant j <= |joinSet| && FirstFinished(joinSet, j) == FirstFinished(joinSet, 0)
      {
        j := j + 1;
      }
      if j < |joinSet| {
        joinSet := joinSet[..j] + joinSet[j + 1..];
      }
    }

    method WaitForBackoff(exit: BackoffExit)
      modifies `backoffUntil, `joinSet, `cancelled
      ensures forall t: Turn :: t.backoffExit == exit ==> Snapshot() == AfterBackoff(old(Snapshot()), t)
    {
      if backoffUntil.Some? {
        backoffUntil := None;
        match exit {
          case CancelledInBackoff => cancelled := true;
          case JobJoined => JoinNext();
          case Elapsed =>
        }
      }
    }

    method HandleAnswer(t: Turn)
      requires permitHeld
      modifies this
      ensures Snapshot() == Answered(config, old(Snapshot()), t)
    {
      match t.answer {
        case Interrupted =>
          DropPermit();
          cancelled := true;
        case Task =>
          consecutiveErrors := 0;
          if t.cancelledAfterClaim {
            DropPermit();
            cancelled := true;
          } else {
            joinSet := joinSet + [true];
            permitHeld := false;
          }
        case Empty =>
          consecutiveErrors := 0;
          DropPermit();
        case Error(jitter) =>
          var delay := Delay(config.pollInterval, config.maxClaimBackoff, consecutiveErrors, jitter);
          consecutiveErrors := CountError(consecutiveErrors);
          backoffUntil := Some(delay);
          DropPermit();
      }
    }

    method DropPermit()
      requires permitHeld
      modifies `available, `permitHeld
      ensures available == old(available) + 1 && !permitHeld
    {
      available := available + 1;
      permitHeld := false;
    }

    method PrepareTurn(t: Turn)
      modifies this
      ensures Snapshot() == Prepared(old(Snapshot()), t)
    {
      EndDispatches(t.ends);
      WaitForBackoff(t.backoffExit);
      if cancelled {
        return;
      }
      if t.cancelled {
        cancelled := true;
        return;
      }
      ReapFinished();
    }

    /** One iteration of the loop. */
    method RunTurn(t: Turn)
      requires !permitHeld && !cancelled
      modifies this
      ensures Snapshot() == TakeTurn(config, old(Snapshot()), t)
    {
      PrepareTurn(t);
      if cancelled || available == 0 {
        return;
      }
      available := available - 1;
      permitHeld := true;
      HandleAnswer(t);
    }

    /** Runs until a turn cancels it or the turns run out. */
    method RunPollLoop(turns: seq<Turn>) returns (ok: bool)
      requires Snapshot() == Init(config)
      modifies this
      ensures ok == (config.concurrency > 0)
      ensures Snapshot() == if ok then Play(config, Init(config), turns, |turns|) else Init(config)
      ensures !permitHeld && available + Active(joinSet) == config.concurrency
    {
      if config.concurrency == 0 {
        return false;
      }
      ok := true;
      var n := 0;
      while n < |turns| && !cancelled
        invariant n <= |turns| && !permitHeld && Snapshot() == Play(config, Init(config), turns, n)
      {
        RunTurn(turns[n]);
        n := n + 1;
      }
      StoppedStays(config, turns, n, |turns|);
      PermitsConserved(config, turns, |turns|);
    }

    /** `drain_join_set`: each remaining dispatch ends and is joined. */
    method DrainJoinSet()
      requires !permitHeld && available + Active(joinSet) == config.concurrency
      modifies `available, `joinSet
      ensures joinSet == [] && available == config.concurrency
    {
      while joinSet != []
        invariant available + Active(joinSet) == config.concurrency
        decreases |joinSet|
      {
        if joinSet[|joinSet| - 1] {
          available := available + 1;
        }
        joinSet := joinSet[..|joinSet| - 1];
      }
    }
  }

  lemma StoppedStays(c: Settings, turns: seq<Turn>, m: nat, n: nat)
    requires m <= n <= |turns| && (m < n ==> Play(c, Init(c), turns, m).stopped)
    ensures Play(c, Init(c), turns, n) == Play(c, Init(c), turns, m)
  {
    IterationStays(Step(c), Init(c), turns, m, n);
  }
}
