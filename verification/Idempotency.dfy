/** Idempotent submission: one live row for each (queue, key), and one winner
    among any interleaving of submits of a fresh key. */
module Idempotency {
  import opened Domain
  import opened Store
  import opened Scheduler
  import opened World
  import opened Invariant

  /** In every reachable state at most one non-terminal row holds a key. */
  lemma OneLiveRowForEachKey(w: World, queue: string, key: string, i: nat, j: nat)
    requires Reachable(w) && i < |w.db.rows| && j < |w.db.rows|
    requires HoldsKey(w.db.rows[i], queue, key) && HoldsKey(w.db.rows[j], queue, key)
    ensures i == j
  {
    ReachableInv(w);
  }

  // ---- one submit ----------------------------------------------------------

  /** A submit of the key that passes the scheduler's validation. */
  predicate Submits(w: World, l: Label, queue: string, key: string) {
    && l.SubmitKeyed? && l.key == key && l.submission.queue == queue
    && KeyedRecord(l.submission, l.key, l.retention, w.now).Ok?
  }

  function AnswerTo(w: World, l: Label): Result<Submitted>
    requires l.SubmitKeyed? && KeyedRecord(l.submission, l.key, l.retention, w.now).Ok?
  {
    SaveIdempotent(w.db, KeyedRecord(l.submission, l.key, l.retention, w.now).value, w.now).1
  }

  /** While a row holds the key, a submit changes nothing and returns that row,
      unless its attempts have run past the maximum: then the mapping fails. */
  lemma SubmitWhenHeld(w: World, l: Label, queue: string, key: string, i: nat)
    requires Inv(w) && Submits(w, l, queue, key) && i < |w.db.rows| && HoldsKey(w.db.rows[i], queue, key)
    ensures Next(w, l) == w
    ensures AnswerTo(w, l) == Ok(Existing(w.db.rows[i])) <==> w.db.rows[i].attempts <= w.db.rows[i].maxAttempts
    ensures AnswerTo(w, l) == Err(Storage(MappingFailed)) <==> w.db.rows[i].attempts > w.db.rows[i].maxAttempts
  {
    var h := FirstHolder(w.db.rows, queue, key, 0);
    assert h < |w.db.rows| && HoldsKey(w.db.rows[h], queue, key);
    assert h == i;
  }

  ghost predicate Free(w: World, queue: string, key: string) {
    forall i :: 0 <= i < |w.db.rows| ==> !HoldsKey(w.db.rows[i], queue, key)
  }

  /** A submit of a free key under a fresh id inserts the row it reports. */
  lemma SubmitWhenFree(w: World, l: Label, queue: string, key: string)
    requires Inv(w) && Submits(w, l, queue, key) && Free(w, queue, key) && !HasId(w.db.rows, l.submission.id)
    ensures var n := |w.db.rows|;
            && |Next(w, l).db.rows| == n + 1
            && HoldsKey(Next(w, l).db.rows[n], queue, key)
            && Next(w, l).db.rows[n].id == l.submission.id
            && AnswerTo(w, l) == Ok(Created(Next(w, l).db.rows[n]))
  {
  }

  // ---- a run ---------------------------------------------------------------

  /** The answers to the valid submits of the key along a run, in order. */
  ghost function Answers(w: World, ls: seq<Label>, queue: string, key: string): seq<Result<Submitted>>
    requires Parallel(w) && Runs(w, ls)
    decreases |ls|
  {
    if ls == [] then []
    else
      NextIsParallel(w, ls[0]);
      (if Submits(w, ls[0], queue, key) then [AnswerTo(w, ls[0])] else []) + Answers(Next(w, ls[0]), ls[1..], queue, key)
  }

  /** No step of the run takes the row that holds the key to a terminal status,
      and every submitted id is new, as random UUIDs are. */
  ghost predicate Undisturbed(w: World, ls: seq<Label>, queue: string, key: string)
    requires Parallel(w) && Runs(w, ls)
    decreases |ls|
  {
    ls == [] ||
    (NextIsParallel(w, ls[0]);
     && (forall i :: 0 <= i < |w.db.rows| && i < |Next(w, ls[0]).db.rows| && HoldsKey(w.db.rows[i], queue, key) ==>
           HoldsKey(Next(w, ls[0]).db.rows[i], queue, key))
     && (ls[0].SubmitKeyed? ==> !HasId(w.db.rows, ls[0].submission.id))
     && Undisturbed(Next(w, ls[0]), ls[1..], queue, key))
  }

  /** Only a submit of the key makes a row hold it. */
  lemma OnlySubmitTakesKey(w: World, l: Label, queue: string, key: string)
    requires Inv(w) && Enabled(w, l) && Free(w, queue, key) && !Submits(w, l, queue, key)
    ensures Free(Next(w, l), queue, key)
  {
    NextIsParallel(w, l);
    forall i | 0 <= i < |Next(w, l).db.rows| ensures !HoldsKey(Next(w, l).db.rows[i], queue, key) {
      if i >= |w.db.rows| {
        NewRowsArePending(w, l, i);
      } else if l.Submit? || l.SubmitKeyed? {
        StepKeepsTask(w, l, i);
      } else {
        RowAfterStep(w, l, i);
        if HoldsKey(Next(w, l).db.rows[i], queue, key) {
          KeysNeverAppear(StatementOf(w, l).value, w.db.rows[i], w.now, queue, key);
        }
      }
    }
  }

  ghost predicate Names(answer: Result<Submitted>, id: TaskId) {
    answer == Err(Storage(MappingFailed)) || (answer.Ok? && answer.value.Existing? && answer.value.existing.id == id)
  }

  lemma {:induction false} AllFindTheHolder(w: World, ls: seq<Label>, queue: string, key: string, i: nat)
    requires Inv(w) && Runs(w, ls) && Undisturbed(w, ls, queue, key)
    requires i < |w.db.rows| && HoldsKey(w.db.rows[i], queue, key)
    ensures forall a :: a in Answers(w, ls, queue, key) ==> Names(a, w.db.rows[i].id)
    ensures i < |Exec(w, ls).db.rows| && HoldsKey(Exec(w, ls).db.rows[i], queue, key)
    ensures Exec(w, ls).db.rows[i].id == w.db.rows[i].id
    ensures w.db.rows[i].attempts <= Exec(w, ls).db.rows[i].attempts
            && Exec(w, ls).db.rows[i].maxAttempts == w.db.rows[i].maxAttempts
    ensures Maps(Exec(w, ls).db.rows[i]) ==> forall a :: a in Answers(w, ls, queue, key) ==> a.Ok?
    decreases |ls|
  {
    if ls != [] {
      StepKeepsInv(w, ls[0]);
      StepKeepsTask(w, ls[0], i);
      if Submits(w, ls[0], queue, key) {
        SubmitWhenHeld(w, ls[0], queue, key, i);
      }
      AllFindTheHolder(Next(w, ls[0]), ls[1..], queue, key, i);
    }
  }

  /** Any interleaving of submits of a free key with other steps, none of which
      retires the row: the first submit creates the row, and every other one is
      told that row's id. If the row still maps at the end, no submit failed. */
  lemma {:induction false} OneWinner(w: World, ls: seq<Label>, queue: string, key: string)
    requires Inv(w) && Runs(w, ls) && Undisturbed(w, ls, queue, key) && Free(w, queue, key)
    ensures var answers := Answers(w, ls, queue, key);
            if answers == [] then Free(Exec(w, ls), queue, key)
            else
              && answers[0].Ok? && answers[0].value.Created?
              && (forall k :: 0 < k < |answers| ==> Names(answers[k], answers[0].value.created.id))
              && exists i :: 0 <= i < |Exec(w, ls).db.rows| && HoldsKey(Exec(w, ls).db.rows[i], queue, key)
                             && Exec(w, ls).db.rows[i].id == answers[0].value.created.id
                             && (Maps(Exec(w, ls).db.rows[i]) ==> forall a :: a in answers ==> a.Ok?)
    decreases |ls|
  {
    if ls != [] {
      var l, w' := ls[0], Next(w, ls[0]);
      StepKeepsInv(w, l);
      if Submits(w, l, queue, key) {
        SubmitWhenFree(w, l, queue, key);
        AllFindTheHolder(w', ls[1..], queue, key, |w.db.rows|);
        var rest := Answers(w', ls[1..], queue, key);
        assert Answers(w, ls, queue, key) == [AnswerTo(w, l)] + rest;
        assert Exec(w, ls) == Exec(w', ls[1..]);
        assert forall k :: 0 < k < |rest| + 1 ==> Answers(w, ls, queue, key)[k] == rest[k - 1] && rest[k - 1] in rest;
      } else {
        OnlySubmitTakesKey(w, l, queue, key);
        OneWinner(w', ls[1..], queue, key);
        assert Answers(w, ls, queue, key) == Answers(w', ls[1..], queue, key);
        assert Exec(w, ls) == Exec(w', ls[1..]);
      }
    }
  }
}
