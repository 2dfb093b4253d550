/** The retry schedule of a task whose handler always fails. */
module RetrySchedule {
  import opened Domain
  import opened Powers
  import opened RowEvents
  import opened Store
  import opened Trails
  import opened World
  import opened Invariant

  /** The task was acted on by claims and failures alone, under one backoff
      configuration. */
  predicate OnlyFails(t: Trail, base: real, cap: real) {
    match t
    case Born(_) => true
    case Then(b, e, _) =>
      && OnlyFails(b, base, cap)
      && (e.Claim? || e.GiveUp? || (e.Retry? && e.base == base && e.cap == cap))
  }

  function Fails(t: Trail): nat {
    match t
    case Born(_) => 0
    case Then(b, e, _) => Fails(b) + One(e.Retry? || e.GiveUp?)
  }

  /** When the task was first claimed; its birth if it never was. */
  function FirstClaim(t: Trail): Time {
    match t
    case Born(at) => at
    case Then(b, e, at) => if e.Claim? && Claims(b) == 0 then at else FirstClaim(b)
  }

  function LastEvent(t: Trail): Time {
    match t
    case Born(at) => at
    case Then(_, _, at) => at
  }

  /** The sum over i = 1..n of the i-th backoff, min(base * 2^(i - 1), cap). */
  function DelaySum(base: real, cap: real, n: nat): real {
    if n == 0 then 0.0 else DelaySum(base, cap, n - 1) + Backoff(base, cap, n)
  }

  lemma Doubles(base: real, p: real, q: real)
    requires q == 2.0 * p
    ensures base * (p - 1.0) + base * p == base * (q - 1.0)
  {
  }

  lemma BackoffUncapped(base: real, cap: real, n: nat)
    requires n > 0 && base * RealPow2(n - 1) <= cap
    ensures Backoff(base, cap, n) == base * RealPow2(n - 1)
  {
  }

  lemma UncappedBefore(base: real, cap: real, n: nat)
    requires base >= 0.0 && n > 1 && base * RealPow2(n - 1) <= cap
    ensures base * RealPow2(n - 2) <= cap
  {
    Pow2Grows(n - 2, n - 1);
    ScaleGrows(base, RealPow2(n - 2), RealPow2(n - 1));
  }

  lemma {:induction false} DelaySumUncapped(base: real, cap: real, n: nat)
    requires base >= 0.0 && (n > 0 ==> base * RealPow2(n - 1) <= cap)
    ensures DelaySum(base, cap, n) == base * (RealPow2(n) - 1.0)
  {
    if n > 0 {
      if n > 1 {
        UncappedBefore(base, cap, n);
      }
      DelaySumUncapped(base, cap, n - 1);
      BackoffUncapped(base, cap, n);
      Doubles(base, RealPow2(n - 1), RealPow2(n));
    }
  }

  /** What such a task owes to its history. */
  ghost predicate Paced(r: Row, t: Trail, now: Time, base: real, cap: real) {
    var earliest := FirstClaim(t) + 0.75 * DelaySum(base, cap, Fails(t));
    && LastEvent(t) <= now
    && Releases(t) == 0 && r.attempts == Claims(t) <= r.maxAttempts
    && match r.status
       case Pending => Fails(t) == r.attempts < r.maxAttempts && (r.attempts > 0 ==> earliest <= r.scheduledAt)
       case Running => Fails(t) + 1 == r.attempts && earliest <= LastEvent(t)
       case Failed =>
         && Fails(t) == r.attempts == r.maxAttempts
         && FirstClaim(t) + 0.75 * DelaySum(base, cap, Fails(t) - 1) <= LastEvent(t)
       case _ => false
  }

  lemma JitterAtLeast(delay: real, jitter: real)
    requires delay >= 0.0 && jitter >= 0.75
    ensures delay * jitter >= 0.75 * delay
  {
  }

  lemma BackoffIsNotNegative(base: real, cap: real, attempts: nat)
    requires base >= 0.0 && cap >= 0.0
    ensures Backoff(base, cap, attempts) >= 0.0
  {
    assert base * Power2(attempts - 1) >= 0.0;
  }

  /** A retry puts the next start at least 0.75 of its backoff later. */
  lemma RetriedRow(r: Row, e: Event, now: Time)
    requires e.Retry? && e.base >= 0.0 && e.cap >= 0.0 && e.jitter >= 0.75
    ensures var r' := Apply(e, r, now);
            && r'.status.Pending? && r'.attempts == r.attempts && r'.maxAttempts == r.maxAttempts
            && r'.scheduledAt >= now + 0.75 * Backoff(e.base, e.cap, r.attempts)
  {
    BackoffIsNotNegative(e.base, e.cap, r.attempts);
    JitterAtLeast(Backoff(e.base, e.cap, r.attempts), e.jitter);
  }

  lemma ClaimKeepsPaced(r: Row, t: Trail, e: Event, now: Time, base: real, cap: real)
    requires e.Claim? && Paced(r, t, now, base, cap) && Allowed(e, r, now)
    ensures Paced(Apply(e, r, now), Then(t, e, now), now, base, cap)
  {
    assert Fails(Then(t, e, now)) == Fails(t);
  }

  lemma RetriedIsPaced(r: Row, r': Row, t: Trail, e: Event, now: Time)
    requires e.Retry? && Paced(r, t, now, e.base, e.cap) && r.status.Running? && r.attempts < r.maxAttempts
    requires r'.status.Pending? && r'.attempts == r.attempts && r'.maxAttempts == r.maxAttempts
    requires r'.scheduledAt >= now + 0.75 * Backoff(e.base, e.cap, r.attempts)
    ensures Paced(r', Then(t, e, now), now, e.base, e.cap)
  {
    var t' := Then(t, e, now);
    assert Fails(t') == Fails(t) + 1 == r.attempts && FirstClaim(t') == FirstClaim(t);
    assert DelaySum(e.base, e.cap, r.attempts)
        == DelaySum(e.base, e.cap, Fails(t)) + Backoff(e.base, e.cap, r.attempts);
  }

  lemma RetryKeepsPaced(r: Row, t: Trail, e: Event, now: Time)
    requires e.Retry? && Paced(r, t, now, e.base, e.cap) && Allowed(e, r, now) && e.base >= 0.0 && e.cap >= 0.0
    ensures Paced(Apply(e, r, now), Then(t, e, now), now, e.base, e.cap)
  {
    RetriedRow(r, e, now);
    RetriedIsPaced(r, Apply(e, r, now), t, e, now);
  }

  lemma GiveUpKeepsPaced(r: Row, t: Trail, e: Event, now: Time, base: real, cap: real)
    requires e.GiveUp? && Paced(r, t, now, base, cap) && Allowed(e, r, now)
    ensures Paced(Apply(e, r, now), Then(t, e, now), now, base, cap)
  {
    assert Fails(Then(t, e, now)) == Fails(t) + 1;
  }

  lemma EventKeepsPaced(r: Row, t: Trail, e: Event, now: Time, base: real, cap: real)
    requires Paced(r, t, now, base, cap) && Allowed(e, r, now) && OnlyFails(Then(t, e, now), base, cap)
    requires base >= 0.0 && cap >= 0.0
    ensures Paced(Apply(e, r, now), Then(t, e, now), now, base, cap)
  {
    if e.Claim? {
      ClaimKeepsPaced(r, t, e, now, base, cap);
    } else if e.Retry? {
      RetryKeepsPaced(r, t, e, now);
    } else {
      GiveUpKeepsPaced(r, t, e, now, base, cap);
    }
  }

  ghost predicate AllPaced(w: World, base: real, cap: real) {
    Parallel(w) && forall i :: 0 <= i < |w.db.rows| && OnlyFails(w.trails[i], base, cap) ==>
      Paced(w.db.rows[i], w.trails[i], w.now, base, cap)
  }

  lemma StepKeepsPaced(w: World, l: Label, base: real, cap: real)
    requires Inv(w) && AllPaced(w, base, cap) && Enabled(w, l) && base >= 0.0 && cap >= 0.0
    ensures AllPaced(Next(w, l), base, cap)
  {
    NextIsParallel(w, l);
    var w' := Next(w, l);
    assert w.now <= w'.now;
    forall i | 0 <= i < |w'.db.rows| && OnlyFails(w'.trails[i], base, cap)
      ensures Paced(w'.db.rows[i], w'.trails[i], w'.now, base, cap)
    {
      if i >= |w.db.rows| {
        NewRowsArePending(w, l, i);
        StepKeepsInv(w, l);
        assert Sound(w'.db.rows[i], w'.trails[i], w'.now);
      } else {
        TaskAfterStep(w, l, i);
        if !(w'.db.rows[i] == w.db.rows[i] && w'.trails[i] == w.trails[i]) {
          var e :| Allowed(e, w.db.rows[i], w.now) && w'.db.rows[i] == Apply(e, w.db.rows[i], w.now)
                   && w'.trails[i] == Then(w.trails[i], e, w.now);
          EventKeepsPaced(w.db.rows[i], w.trails[i], e, w.now, base, cap);
          StepKeepsTask(w, l, i);
        }
      }
    }
  }

  lemma {:induction false} RunKeepsPaced(w: World, ls: seq<Label>, base: real, cap: real)
    requires Inv(w) && AllPaced(w, base, cap) && Runs(w, ls) && base >= 0.0 && cap >= 0.0
    ensures AllPaced(Exec(w, ls), base, cap)
    decreases |ls|
  {
    if ls != [] {
      StepKeepsInv(w, ls[0]);
      StepKeepsPaced(w, ls[0], base, cap);
      RunKeepsPaced(Next(w, ls[0]), ls[1..], base, cap);
    }
  }

  /** In any run, a task that only ever failed has failed for good exactly when
      it has failed max_attempts times, and then no earlier than its first claim
      plus three quarters of the delays between its attempts. */
  lemma FailsOnSchedule(start: Time, auditing: bool, ls: seq<Label>, i: nat, base: real, cap: real)
    requires Runs(Init(start, auditing), ls) && i < |Exec(Init(start, auditing), ls).db.rows|
    requires base >= 0.0 && cap >= 0.0 && OnlyFails(Exec(Init(start, auditing), ls).trails[i], base, cap)
    ensures var w := Exec(Init(start, auditing), ls);
            var r, t := w.db.rows[i], w.trails[i];
            && (r.status.Failed? <==> Fails(t) == r.maxAttempts)
            && Fails(t) <= r.maxAttempts
            && Fails(t) + One(r.status.Running?) == r.attempts
            && (r.status.Failed? ==>
                  LastEvent(t) >= FirstClaim(t) + 0.75 * DelaySum(base, cap, r.maxAttempts - 1))
  {
    var w := Exec(Init(start, auditing), ls);
    RunKeepsPaced(Init(start, auditing), ls, base, cap);
    assert Paced(w.db.rows[i], w.trails[i], w.now, base, cap);
  }

  // ---- when the schedule is completed --------------------------------------

  /** One claim and one failure of the same task. */
  datatype Round = Round(claimAt: Time, worker: WorkerId, lease: Time, failAt: Time, error: string, jitter: real)

  function AfterRound(r: Row, x: Round, base: real, cap: real): Row {
    var claimed := After(ClaimTask(r.id, x.worker, x.lease), r, x.claimAt);
    After(FailTask(r.id, x.error, base, cap, x.jitter), claimed, x.failAt)
  }

  /** Each claim waits for the scheduled time. */
  predicate Timed(r: Row, xs: seq<Round>, base: real, cap: real)
    decreases |xs|
  {
    xs == [] ||
    ((r.status.Pending? ==> r.scheduledAt <= xs[0].claimAt) && Timed(AfterRound(r, xs[0], base, cap), xs[1..], base, cap))
  }

  function AfterRounds(r: Row, xs: seq<Round>, base: real, cap: real): Row
    decreases |xs|
  {
    if xs == [] then r else AfterRounds(AfterRound(r, xs[0], base, cap), xs[1..], base, cap)
  }

  lemma ScaleGrows(base: real, a: real, b: real)
    requires base >= 0.0 && a <= b
    ensures base * a <= base * b
  {
  }

  lemma OverflowGrows(base: real, m: nat, n: nat)
    requires base >= 0.0 && 1 <= m <= n && BackoffOverflows(base, m)
    ensures BackoffOverflows(base, n)
  {
    Pow2Grows(m - 1, n - 1);
    ScaleGrows(base, Power2(m - 1), Power2(n - 1));
  }

  /** Once the backoff overflows, `fail` reports a storage error and the row
      stays Running, whatever rounds follow. */
  lemma {:induction false} OverflowSticks(r: Row, xs: seq<Round>, base: real, cap: real)
    requires r.status.Running? && r.attempts < r.maxAttempts && BackoffOverflows(base, r.attempts)
    ensures AfterRounds(r, xs, base, cap) == r
    decreases |xs|
  {
    if xs != [] {
      OverflowSticks(r, xs[1..], base, cap);
    }
  }

  /** A pending task whose handler always fails is Failed after its remaining
      rounds if and only if the last backoff stays in the range of float8. */
  lemma {:induction false} AlwaysFailingEnds(r: Row, xs: seq<Round>, base: real, cap: real)
    requires r.status.Pending? && r.attempts < r.maxAttempts && |xs| == r.maxAttempts - r.attempts
    requires base >= 0.0 && Timed(r, xs, base, cap)
    ensures var last := AfterRounds(r, xs, base, cap);
            && (last.status.Failed? <==> r.attempts + 1 == r.maxAttempts || !BackoffOverflows(base, r.maxAttempts - 1))
            && (last.status.Failed? || last.status.Running?)
    decreases |xs|
  {
    var r' := AfterRound(r, xs[0], base, cap);
    if r.attempts + 1 == r.maxAttempts {
      assert xs[1..] == [];
    } else if BackoffOverflows(base, r.attempts + 1) {
      assert r'.status.Running?;
      OverflowSticks(r', xs[1..], base, cap);
      OverflowGrows(base, r.attempts + 1, r.maxAttempts - 1);
    } else {
      AlwaysFailingEnds(r', xs[1..], base, cap);
    }
  }
}
