/** With auditing on, the audit rows of a task, in append order, are the walk of
    its status from its insertion to now. */
module AuditWalk {
  import opened Wrappers
  import opened Domain
  import opened RowEvents
  import opened Store
  import opened Updates
  import opened Scheduler
  import opened Trails
  import opened World
  import opened Invariant

  function OfTask(log: seq<AuditRow>, id: TaskId): seq<AuditRow> {
    if log == [] then []
    else OfTask(log[..|log| - 1], id) + if log[|log| - 1].taskId == id then [log[|log| - 1]] else []
  }

  lemma {:induction false} OfTaskAppend(a: seq<AuditRow>, b: seq<AuditRow>, id: TaskId)
    ensures OfTask(a + b, id) == OfTask(a, id) + OfTask(b, id)
    decreases |b|
  {
    if b == [] {
      assert a + b == a;
    } else {
      OfTaskAppend(a, b[..|b| - 1], id);
      assert (a + b)[..|a + b| - 1] == a + b[..|b| - 1];
    }
  }

  predicate Walk(log: seq<AuditRow>, status: Status) {
    && |log| > 0
    && log[0].fromStatus.None? && log[0].toStatus.Pending?
    && (forall k :: 0 < k < |log| ==> log[k].fromStatus == Some(log[k - 1].toStatus))
    && log[|log| - 1].toStatus == status
  }

  ghost predicate AuditTruthful(w: World) {
    Parallel(w) &&
    (w.db.auditing ==>
       && (forall i :: 0 <= i < |w.db.rows| ==>
             Walk(OfTask(w.db.audit, w.db.rows[i].id), w.db.rows[i].status)
             && |OfTask(w.db.audit, w.db.rows[i].id)| == Moves(w.trails[i]) + 1)
       && (forall id :: !HasId(w.db.rows, id) ==> OfTask(w.db.audit, id) == []))
  }

  /** The entry an event writes goes from the old status to the new one. For
      `cancel` this rests on `suspended_at` being set exactly when suspended. */
  lemma EntryIsStep(e: Event, r: Row, now: Time)
    requires Shaped(r, now) && Allowed(e, r, now) && ChangesStatus(e)
    ensures var entry := Audit(e, Apply(e, r, now));
            entry.taskId == r.id && entry.fromStatus == Some(r.status) && entry.toStatus == Apply(e, r, now).status
  {
  }

  lemma EntryNamesRow(s: Statement, r: Row, now: Time, pass: nat, id: TaskId)
    ensures OfTask(EntryOf(s, r, now, pass), id) == if r.id == id then EntryOf(s, r, now, pass) else []
  {
    var entry := EntryOf(s, r, now, pass);
    if entry != [] {
      assert entry[..0] == [];
      assert entry[0].taskId == r.id;
      assert entry == [entry[0]];
    }
  }

  /** Picking a task's rows out of a log picks its entries row by row. */
  lemma {:induction false} OfTaskConcat(entries: Row -> seq<AuditRow>, own: Row -> seq<AuditRow>, rows: seq<Row>,
                                        n: nat, id: TaskId)
    requires n <= |rows| && forall j :: 0 <= j < |rows| ==> OfTask(entries(rows[j]), id) == own(rows[j])
    ensures OfTask(Concat(entries, rows, n), id) == Concat(own, rows, n)
  {
    if n > 0 {
      OfTaskConcat(entries, own, rows, n - 1, id);
      OfTaskAppend(Concat(entries, rows, n - 1), entries(rows[n - 1]), id);
    }
  }

  lemma RecordsOfId(s: Statement, rows: seq<Row>, now: Time, pass: nat, id: TaskId)
    ensures OfTask(RecordsUpTo(s, rows, now, pass, |rows|), id)
         == Concat((r: Row) => if r.id == id then EntryOf(s, r, now, pass) else [], rows, |rows|)
  {
    var entries := (r: Row) => EntryOf(s, r, now, pass);
    var own := (r: Row) => if r.id == id then EntryOf(s, r, now, pass) else [];
    RecordsAreConcat(s, rows, now, pass, |rows|);
    forall j | 0 <= j < |rows| ensures OfTask(entries(rows[j]), id) == own(rows[j]) {
      EntryNamesRow(s, rows[j], now, pass, id);
    }
    OfTaskConcat(entries, own, rows, |rows|, id);
  }

  lemma RecordsOfTask(s: Statement, rows: seq<Row>, now: Time, pass: nat, i: nat)
    requires UniqueIds(rows) && i < |rows|
    ensures OfTask(RecordsUpTo(s, rows, now, pass, |rows|), rows[i].id) == EntryOf(s, rows[i], now, pass)
  {
    var id := rows[i].id;
    RecordsOfId(s, rows, now, pass, id);
    assert forall j :: 0 <= j < |rows| && j != i ==> rows[j].id != id;
    ConcatOne((r: Row) => if r.id == id then EntryOf(s, r, now, pass) else [], rows, |rows|, i);
  }

  lemma RecordsOfNobody(s: Statement, rows: seq<Row>, now: Time, pass: nat, id: TaskId)
    requires !HasId(rows, id)
    ensures OfTask(RecordsUpTo(s, rows, now, pass, |rows|), id) == []
  {
    RecordsOfId(s, rows, now, pass, id);
    ConcatNone((r: Row) => if r.id == id then EntryOf(s, r, now, pass) else [], rows, |rows|);
  }

  lemma WalkExtends(log: seq<AuditRow>, entry: AuditRow, status: Status)
    requires Walk(log, status) && entry.fromStatus == Some(status)
    ensures Walk(log + [entry], entry.toStatus)
  {
  }

  lemma CommitAppendsOwn(db: Db, s: Statement, now: Time, i: nat)
    requires UniqueIds(db.rows) && db.auditing && i < |db.rows|
    ensures OfTask(Commit(db, s, now).audit, db.rows[i].id)
            == OfTask(db.audit, db.rows[i].id) + (EntryOf(s, db.rows[i], now, 0) + EntryOf(s, db.rows[i], now, 1))
  {
    var id := db.rows[i].id;
    RecordsOfTask(s, db.rows, now, 0, i);
    RecordsOfTask(s, db.rows, now, 1, i);
    OfTaskAppend(RecordsUpTo(s, db.rows, now, 0, |db.rows|), RecordsUpTo(s, db.rows, now, 1, |db.rows|), id);
    OfTaskAppend(db.audit, Records(s, db.rows, now), id);
  }

  lemma OwnEntriesExtend(log: seq<AuditRow>, s: Statement, r: Row, now: Time)
    requires Walk(log, r.status) && Shaped(r, now) && Drawn(s)
    ensures var own := EntryOf(s, r, now, 0) + EntryOf(s, r, now, 1);
            && Walk(log + own, After(s, r, now).status)
            && |own| == One(Fires(s, r, now).Some? && ChangesStatus(Fires(s, r, now).value))
  {
    var own := EntryOf(s, r, now, 0) + EntryOf(s, r, now, 1);
    FiresAllowed(s, r, now);
    if Fires(s, r, now).Some? {
      var e := Fires(s, r, now).value;
      MovesAreStatusChanges(r, e, now);
      if ChangesStatus(e) {
        EntryIsStep(e, r, now);
        assert own == [Audit(e, Apply(e, r, now))];
        WalkExtends(log, own[0], r.status);
      }
    }
    assert own == [] ==> log + own == log;
  }

  lemma CommitExtendsWalk(w: World, s: Statement, i: nat)
    requires AllSound(w) && UniqueIds(w.db.rows) && AuditTruthful(w) && Drawn(s) && w.db.auditing && i < |w.db.rows|
    ensures var audit' := Commit(w.db, s, w.now).audit;
            && Walk(OfTask(audit', w.db.rows[i].id), After(s, w.db.rows[i], w.now).status)
            && |OfTask(audit', w.db.rows[i].id)| == Moves(Extended(s, w.db.rows, w.trails, w.now)[i]) + 1
  {
    assert Sound(w.db.rows[i], w.trails[i], w.now);
    CommitAppendsOwn(w.db, s, w.now, i);
    OwnEntriesExtend(OfTask(w.db.audit, w.db.rows[i].id), s, w.db.rows[i], w.now);
  }

  lemma CommitNamesNobodyElse(w: World, s: Statement, id: TaskId)
    requires AuditTruthful(w) && w.db.auditing && !HasId(w.db.rows, id)
    ensures OfTask(Commit(w.db, s, w.now).audit, id) == []
  {
    RecordsOfNobody(s, w.db.rows, w.now, 0, id);
    RecordsOfNobody(s, w.db.rows, w.now, 1, id);
    OfTaskAppend(RecordsUpTo(s, w.db.rows, w.now, 0, |w.db.rows|), RecordsUpTo(s, w.db.rows, w.now, 1, |w.db.rows|), id);
    OfTaskAppend(w.db.audit, Records(s, w.db.rows, w.now), id);
  }

  lemma CommitKeepsAudit(w: World, s: Statement)
    requires AllSound(w) && Consistent(w.db.rows) && AuditTruthful(w) && Drawn(s)
    ensures AuditTruthful(w.(db := Commit(w.db, s, w.now), trails := Extended(s, w.db.rows, w.trails, w.now)))
  {
    var db' := Commit(w.db, s, w.now);
    if w.db.auditing {
      forall i | 0 <= i < |w.db.rows|
        ensures db'.rows[i].id == w.db.rows[i].id
        ensures Walk(OfTask(db'.audit, db'.rows[i].id), db'.rows[i].status)
        ensures |OfTask(db'.audit, db'.rows[i].id)| == Moves(Extended(s, w.db.rows, w.trails, w.now)[i]) + 1
      {
        KeepsId(s, w.db.rows[i], w.now);
        CommitExtendsWalk(w, s, i);
      }
      forall id | !HasId(db'.rows, id) ensures OfTask(db'.audit, id) == [] {
        forall i | 0 <= i < |w.db.rows| ensures w.db.rows[i].id != id {
          assert db'.rows[i].id == w.db.rows[i].id;
        }
        CommitNamesNobodyElse(w, s, id);
      }
    }
  }

  lemma KeepsId(s: Statement, r: Row, now: Time)
    ensures After(s, r, now).id == r.id
  {
  }

  lemma StatementKeepsAudit(w: World, l: Label)
    requires AllSound(w) && Consistent(w.db.rows) && AuditTruthful(w) && Enabled(w, l)
    requires !l.Submit? && !l.SubmitKeyed? && !l.Advance? && StatementOf(w, l).Some?
    ensures AuditTruthful(Next(w, l))
  {
    CommitKeepsAudit(w, StatementOf(w, l).value);
  }

  lemma InsertKeepsAudit(w: World, record: Row)
    requires AuditTruthful(w) && Consistent(w.db.rows) && !HasId(w.db.rows, record.id) && record.status.Pending?
    ensures AuditTruthful(w.(db := InsertRow(w.db, record, w.now), trails := w.trails + [Born(w.now)]))
  {
    var db' := InsertRow(w.db, record, w.now);
    var entry := AuditRow(record.id, None, Pending, None, None, record.region);
    assert [entry][..0] == [];
    if w.db.auditing {
      forall id ensures OfTask(db'.audit, id) == OfTask(w.db.audit, id) + if id == record.id then [entry] else [] {
        OfTaskAppend(w.db.audit, [entry], id);
      }
      forall i | 0 <= i < |w.db.rows| ensures w.db.rows[i].id != record.id {
      }
      forall id | !HasId(db'.rows, id) ensures !HasId(w.db.rows, id) && id != record.id {
        assert db'.rows[|w.db.rows|].id == record.id;
        assert forall i :: 0 <= i < |w.db.rows| ==> db'.rows[i].id == w.db.rows[i].id;
      }
    }
  }

  lemma SubmitKeepsAudit(w: World, l: Label)
    requires AuditTruthful(w) && Consistent(w.db.rows) && (l.Submit? || l.SubmitKeyed?)
    ensures AuditTruthful(Next(w, l))
  {
    var record := if l.Submit? then Record(l.submission, w.now)
                  else KeyedRecord(l.submission, l.key, l.retention, w.now);
    if record.Ok? && !HasId(w.db.rows, record.value.id) && !KeyConflict(w.db.rows, record.value) {
      InsertKeepsAudit(w, record.value);
    }
  }

  lemma {:induction false} RunKeepsAudit(w: World, ls: seq<Label>)
    requires Inv(w) && AuditTruthful(w) && Runs(w, ls)
    ensures AuditTruthful(Exec(w, ls))
    decreases |ls|
  {
    if ls != [] {
      var l := ls[0];
      StepKeepsInv(w, l);
      if l.Submit? || l.SubmitKeyed? {
        SubmitKeepsAudit(w, l);
      } else if !l.Advance? && StatementOf(w, l).Some? {
        StatementKeepsAudit(w, l);
      }
      RunKeepsAudit(Next(w, l), ls[1..]);
    }
  }

  /** In every reachable state of an audited database, each task's audit rows are
      one connected walk from None to its current status, with one row for each
      status change; an unaudited database has no audit rows. */
  lemma AuditIsWalk(start: Time, auditing: bool, ls: seq<Label>, i: nat)
    requires Runs(Init(start, auditing), ls) && i < |Exec(Init(start, auditing), ls).db.rows|
    ensures var w := Exec(Init(start, auditing), ls);
            if auditing then
              && Walk(OfTask(w.db.audit, w.db.rows[i].id), w.db.rows[i].status)
              && |OfTask(w.db.audit, w.db.rows[i].id)| == Moves(w.trails[i]) + 1
            else w.db.audit == []
  {
    RunKeepsAudit(Init(start, auditing), ls);
    RunKeepsAuditing(Init(start, auditing), ls);
  }

  lemma {:induction false} RunKeepsAuditing(w: World, ls: seq<Label>)
    requires Parallel(w) && Runs(w, ls) && (!w.db.auditing ==> w.db.audit == [])
    ensures Exec(w, ls).db.auditing == w.db.auditing && (!w.db.auditing ==> Exec(w, ls).db.audit == [])
    decreases |ls|
  {
    if ls != [] {
      NextIsParallel(w, ls[0]);
      RunKeepsAuditing(Next(w, ls[0]), ls[1..]);
    }
  }
}
