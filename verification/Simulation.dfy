/** The execution protocol runs on the tables: each of its steps is one call of a database
    function. */
module Simulation {
  import opened Wrappers
  import opened Tables
  import opened StepLog
  import opened Replay
  import opened ReplayInv
  import opened Durable
  import TableRuns

  /** What the tables hold of one workflow. */
  predicate Shows(db: Db, id: Id, s: State) {
    id in db.rows && db.rows[id].status == s.status && LogOf(db, id) == s.log &&
    EventsOf(db, id) == s.events && HistoryOf(db, id) == s.history
  }

  /** What a call takes besides what the protocol says: texts to store, and the new row of a
      spawn or an enqueue. */
  datatype Details = Details(output: Option<string>, error: string, i: InsertInput)

  /** The step has the execution and the action that its call reads. */
  predicate Callable(body: Body, s: State, v: Event) {
    (v.Insert? || v.RunPublish? || v.WriteOutcome? || v.SpawnChild? || v.EnqueueRow? || v.Leave? ==> v.e in s.execs) &&
    (v.Insert? ==> s.execs[v.e].phase.Ran?) &&
    (v.RunPublish? ==> body(s.execs[v.e].hist).Publish?) &&
    (v.WriteOutcome? ==> body(s.execs[v.e].hist).Return?) &&
    (v.SpawnChild? ==> body(s.execs[v.e].hist).Child?) &&
    (v.EnqueueRow? ==> body(s.execs[v.e].hist).Enqueue?)
  }

  /** The database call of each step; steps without one leave the tables alone. */
  predicate Calls(body: Body, db: Db, id: Id, s: State, v: Event, d: Details, db': Db)
    requires Callable(body, s, v)
  {
    match v
    case Insert(e) =>
      var x := s.execs[e];
      (match RecordOperation(db, id, SlotId(body, x.hist, x.phase.slot), x.phase.op)
       case Ok(recorded) => db' == recorded
       case Err(_) => db' == db)
    case RunPublish(e) =>
      var a, n := body(s.execs[e].hist), Position(body, s.execs[e].hist);
      SetEvent(db, id, n, a.key, a.value) == Ok(db')
    case SpawnChild(e, c) =>
      var h := s.execs[e].hist;
      d.i.s.id == c && c != id &&
      d.i.child == Some(ChildRecord(id, Position(body, h), body(h).name, c)) &&
      var (after, r) := InsertWorkflowStatus(db, d.i);
      db' == after && (r.Ok? || r == Err(ConflictingId))
    case EnqueueRow(e) =>
      d.i.s.id == body(s.execs[e].hist).id && d.i.s.id != id && d.i.child == None &&
      db' == InsertWorkflowStatus(db, d.i).0
    case WriteOutcome(e) =>
      var out := body(s.execs[e].hist).out;
      db' == db.(rows := UpdateOutcome(db.rows, id, if out.Got? then Success else Error, d.output, d.error))
    case WriteError(_) => db' == db.(rows := UpdateOutcome(db.rows, id, Error, d.output, d.error))
    case CancelRow => db' == db.(rows := Cancel(db.rows, id))
    case ResumeRow => db' == db.(rows := Resume(db.rows, id))
    case ParkRow => id in db.rows && db' == db.(rows := db.rows[id := Park(db.rows[id])])
    case Leave(e, op) => RecordOperation(db, id, Position(body, s.execs[e].hist), op) == Ok(db')
    case _ => db' == db
  }

  /** A lookup of the protocol is the lookup of the database. */
  lemma CheckIsLookup(db: Db, id: Id, s: State, n: int, name: string)
    requires Shows(db, id, s)
    ensures CheckOperation(db, id, n, name) == CheckLog(s.status, s.log, n, name)
  {
  }

  /** What an insert of the protocol does to what the tables hold. */
  lemma InsertOnTables(body: Body, s: State, e: nat)
    requires e in s.execs && s.execs[e].phase.Ran?
    ensures var (s', x) := (AfterInsert(body, s, e), s.execs[e]);
            var n := SlotId(body, x.hist, x.phase.slot);
            s'.status == s.status && s'.events == s.events && s'.history == s.history &&
            s'.log == if n in s.log then s.log else s.log[n := x.phase.op]
  {
    InsertKeepsRest(body, s, e);
  }

  lemma InsertKeepsRest(body: Body, s: State, e: nat)
    requires e in s.execs && s.execs[e].phase.Ran?
    ensures var s' := AfterInsert(body, s, e); s'.status == s.status && s'.events == s.events && s'.history == s.history
  {
  }

  lemma RecordShows(db: Db, id: Id, n: int, op: OpRow)
    requires id in db.rows
    ensures match RecordOperation(db, id, n, op)
            case Ok(db') => n !in LogOf(db, id) && db'.rows == db.rows && LogOf(db', id) == LogOf(db, id)[n := op] &&
                            EventsOf(db', id) == EventsOf(db, id) && HistoryOf(db', id) == HistoryOf(db, id)
            case Err(_) => n in LogOf(db, id)
  {
  }

  lemma InsertIsCall(body: Body, db: Db, id: Id, s: State, e: nat, d: Details, db': Db)
    requires Shows(db, id, s) && e in s.execs && s.execs[e].phase.Ran? && Calls(body, db, id, s, Event.Insert(e), d, db')
    ensures Shows(db', id, AfterInsert(body, s, e))
  {
    var x := s.execs[e];
    InsertOnTables(body, s, e);
    RecordShows(db, id, SlotId(body, x.hist, x.phase.slot), x.phase.op);
  }

  /** The child's row joins in the same transaction as the parent's log entry. */
  lemma SpawnRecords(db: Db, id: Id, i: InsertInput)
    requires id in db.rows && i.s.id != id && i.child.Some? && i.child.value.parent == id
    ensures var ((db', r), c) := (InsertWorkflowStatus(db, i), i.child.value);
            (r == Err(ConflictingId) ==> db' == db && c.step in LogOf(db, id)) &&
            (r.Ok? ==> c.step !in LogOf(db, id) && id in db'.rows && db'.rows[id] == db.rows[id] &&
                       LogOf(db', id) == LogOf(db, id)[c.step := OpRow(c.name, Null, None, Some(c.child))] &&
                       EventsOf(db', id) == EventsOf(db, id) && HistoryOf(db', id) == HistoryOf(db, id))
  {
    TableRuns.InsertTouchesOneRow(db, i);
    match Upsert(db.rows, i)
    case Err(_) =>
    case Ok(rows) => RecordShows(db.(rows := rows), id, i.child.value.step, OpRow(i.child.value.name, Null, None, Some(i.child.value.child)));
  }

  lemma SpawnIsCall(body: Body, db: Db, id: Id, s: State, e: nat, c: Id, d: Details, db': Db)
    requires Shows(db, id, s) && e in s.execs && body(s.execs[e].hist).Child? && Enabled(body, s, SpawnChild(e, c), false)
    requires Calls(body, db, id, s, SpawnChild(e, c), d, db')
    ensures Shows(db', id, AfterInsert(body, Spawning(body, s, e, c), e))
  {
    SpawnRecords(db, id, d.i);
    InsertOnTables(body, Spawning(body, s, e, c), e);
  }

  /** Enqueuing another row leaves what is held of this workflow alone. */
  lemma OtherRowShows(db: Db, id: Id, i: InsertInput)
    requires id in db.rows && i.s.id != id && i.child == None
    ensures var db' := InsertWorkflowStatus(db, i).0;
            id in db'.rows && db'.rows[id] == db.rows[id] && db' == db.(rows := db'.rows)
  {
    TableRuns.InsertTouchesOneRow(db, i);
  }

  lemma EnqueueIsCall(body: Body, db: Db, id: Id, s: State, e: nat, d: Details, db': Db)
    requires Shows(db, id, s) && Enabled(body, s, EnqueueRow(e), false) && Calls(body, db, id, s, EnqueueRow(e), d, db')
    ensures Shows(db', id, Apply(body, s, EnqueueRow(e)))
  {
    OtherRowShows(db, id, d.i);
    EnqueueOnTables(body, s, e);
    ShowsAnyExecs(db', id, s, Apply(body, s, EnqueueRow(e)));
  }

  lemma EnqueueOnTables(body: Body, s: State, e: nat)
    requires Enabled(body, s, EnqueueRow(e), false)
    ensures var s' := Apply(body, s, EnqueueRow(e));
            s'.log == s.log && s'.status == s.status && s'.events == s.events && s'.history == s.history
  {
  }

  lemma PublishIsCall(body: Body, db: Db, id: Id, s: State, e: nat, d: Details, db': Db)
    requires Shows(db, id, s) && Enabled(body, s, RunPublish(e), false) && Calls(body, db, id, s, RunPublish(e), d, db')
    ensures Shows(db', id, Apply(body, s, RunPublish(e)))
  {
  }

  /** The guarded outcome write of the protocol is the one of the table. */
  lemma WrittenIsUpdate(db: Db, id: Id, s: State, out: Seen, output: Option<string>, error: string)
    requires Shows(db, id, s)
    ensures Shows(db.(rows := UpdateOutcome(db.rows, id, if out.Got? then Success else Error, output, error)), id, Written(s, out))
  {
  }

  /** The executions are no part of the tables. */
  lemma ShowsAnyExecs(db: Db, id: Id, s: State, s': State)
    requires Shows(db, id, s) && s'.status == s.status && s'.log == s.log && s'.events == s.events && s'.history == s.history
    ensures Shows(db, id, s')
  {
  }

  lemma OutcomeIsCall(body: Body, db: Db, id: Id, s: State, v: Event, d: Details, db': Db)
    requires Shows(db, id, s) && Enabled(body, s, v, false) && (v.WriteOutcome? || v.WriteError?)
    requires Calls(body, db, id, s, v, d, db')
    ensures Shows(db', id, Apply(body, s, v))
  {
    var out := if v.WriteOutcome? then body(s.execs[v.e].hist).out else Failed;
    WrittenIsUpdate(db, id, s, out, d.output, d.error);
    ShowsAnyExecs(db', id, Written(s, out), Apply(body, s, v));
  }

  lemma CancelIsCall(db: Db, id: Id, s: State, s': State)
    requires Shows(db, id, s) && s' == if s.status == Success || s.status == Error then s else s.(status := Cancelled)
    ensures Shows(db.(rows := Cancel(db.rows, id)), id, s')
  {
  }

  lemma ResumeIsCall(db: Db, id: Id, s: State)
    requires Shows(db, id, s)
    ensures Shows(db.(rows := Resume(db.rows, id)), id, Resumed(s))
  {
  }

  lemma ParkIsCall(db: Db, id: Id, s: State, s': State)
    requires Shows(db, id, s) && s' == if s.status == Pending then s.(status := DeadLetter) else s
    ensures Shows(db.(rows := db.rows[id := Park(db.rows[id])]), id, s')
  {
  }

  lemma LeaveOnTables(body: Body, s: State, e: nat, op: OpRow)
    requires Enabled(body, s, Leave(e, op), false)
    ensures var (s', n) := (Apply(body, s, Leave(e, op)), Position(body, s.execs[e].hist));
            s'.log == s.log[n := op] && s'.status == s.status && s'.events == s.events && s'.history == s.history
  {
  }

  lemma LocalStepIsCall(body: Body, db: Db, id: Id, s: State, v: Event)
    requires Shows(db, id, s) && Enabled(body, s, v, false)
    requires v.Launch? || v.Crash? || v.Check? || v.Ask? || v.RunClosure? || v.Wake? || v.Hear? || v.Clash? || v.ReadOutcome?
    ensures Shows(db, id, Apply(body, s, v))
  {
  }

  /** Every step of the protocol does to the tables what its database call does. */
  lemma StepIsCall(body: Body, db: Db, id: Id, s: State, v: Event, d: Details, db': Db)
    requires Shows(db, id, s) && Enabled(body, s, v, false) && Calls(body, db, id, s, v, d, db')
    ensures Shows(db', id, Apply(body, s, v))
  {
    match v
    case Insert(e) => InsertIsCall(body, db, id, s, e, d, db');
    case SpawnChild(e, c) =>
      SpawnIsInsert(body, s, e, c);
      SpawnIsCall(body, db, id, s, e, c, d, db');
    case EnqueueRow(e) => EnqueueIsCall(body, db, id, s, e, d, db');
    case RunPublish(e) => PublishIsCall(body, db, id, s, e, d, db');
    case WriteOutcome(_) => OutcomeIsCall(body, db, id, s, v, d, db');
    case WriteError(_) => OutcomeIsCall(body, db, id, s, v, d, db');
    case CancelRow => StatusIsCall(body, db, id, s, v, d, db');
    case ResumeRow => StatusIsCall(body, db, id, s, v, d, db');
    case ParkRow => StatusIsCall(body, db, id, s, v, d, db');
    case Leave(e, op) => LeaveIsCall(body, db, id, s, e, op, d, db');
    case _ => LocalStepIsCall(body, db, id, s, v);
  }

  lemma StatusIsCall(body: Body, db: Db, id: Id, s: State, v: Event, d: Details, db': Db)
    requires Shows(db, id, s) && Enabled(body, s, v, false) && (v.CancelRow? || v.ResumeRow? || v.ParkRow?)
    requires Calls(body, db, id, s, v, d, db')
    ensures Shows(db', id, Apply(body, s, v))
  {
    match v
    case CancelRow => CancelIsCall(db, id, s, Apply(body, s, v));
    case ResumeRow => ResumeIsCall(db, id, s);
    case ParkRow => ParkIsCall(db, id, s, Apply(body, s, v));
  }

  lemma ParkedRow(db: Db, i: InsertInput)
    requires i.s.id in db.rows && i.child == None && InsertWorkflowStatus(db, i).1 == Err(DeadLetterQueue)
    ensures var (db', was) := (InsertWorkflowStatus(db, i).0, db.rows[i.s.id].status);
            db' == db.(rows := db'.rows) && i.s.id in db'.rows &&
            db'.rows[i.s.id].status == if was == Pending then DeadLetter else was
  {
  }

  /** An insert that finds the row out of attempts is the protocol's step that parks it. */
  lemma ParkingIsStep(body: Body, db: Db, id: Id, s: State, i: InsertInput)
    requires Shows(db, id, s) && i.s.id == id && i.child == None && InsertWorkflowStatus(db, i).1 == Err(DeadLetterQueue)
    ensures Enabled(body, s, ParkRow, true) && Shows(InsertWorkflowStatus(db, i).0, id, Apply(body, s, ParkRow))
  {
    ParkedRow(db, i);
  }

  lemma LeaveIsCall(body: Body, db: Db, id: Id, s: State, e: nat, op: OpRow, d: Details, db': Db)
    requires Shows(db, id, s) && Enabled(body, s, Leave(e, op), false) && Calls(body, db, id, s, Leave(e, op), d, db')
    ensures Shows(db', id, Apply(body, s, Leave(e, op)))
  {
    RecordShows(db, id, Position(body, s.execs[e].hist), op);
    LeaveOnTables(body, s, e, op);
  }

  /** A run of the protocol together with the tables its calls leave. */
  ghost predicate RunOnTables(body: Body, id: Id, ss: seq<State>, vs: seq<Event>, dbs: seq<Db>, ds: seq<Details>) {
    Run(body, ss, vs, false) && |dbs| == |ss| && |ds| == |vs| && Shows(dbs[0], id, ss[0]) &&
    forall k :: 0 <= k < |vs| ==> Next(body, ss[k], vs[k], ss[k + 1], false) && Calls(body, dbs[k], id, ss[k], vs[k], ds[k], dbs[k + 1])
  }

  /** Status, step log, events and history in the tables are those of the protocol at every
      moment of every run. */
  lemma {:induction false} TablesShowProtocol(body: Body, id: Id, ss: seq<State>, vs: seq<Event>, dbs: seq<Db>, ds: seq<Details>, k: nat)
    requires RunOnTables(body, id, ss, vs, dbs, ds) && k <= |vs|
    ensures Shows(dbs[k], id, ss[k])
  {
    if k > 0 {
      TablesShowProtocol(body, id, ss, vs, dbs, ds, k - 1);
      assert Next(body, ss[k - 1], vs[k - 1], ss[k], false);
      StepIsCall(body, dbs[k - 1], id, ss[k - 1], vs[k - 1], ds[k - 1], dbs[k]);
    }
  }
}
