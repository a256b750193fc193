/** Where the answers that the step log does not record come from: refused and parked spawns,
    refused enqueuings and the rows of awaited children, on the tables. */
module Answers {
  import opened Wrappers
  import opened Tables
  import opened StepLog
  import opened Replay
  import opened ReplayInv
  import opened Durable
  import opened Refusals
  import opened Executor
  import opened Simulation
  import TableRuns

  // ---- the result of a child ----

  /** What an awaiting workflow reads from a child's row; it waits while there is no answer. */
  function AwaitedAnswer(decode: Option<string> -> Payload, row: Row): Option<Seen> {
    match row.status
    case Success => Some(FinalAnswer(decode, row))
    case Error => Some(FinalAnswer(decode, row))
    case Cancelled => Some(Failed)
    case DeadLetter => Some(Failed)
    case _ => None
  }

  function FinalAnswer(decode: Option<string> -> Payload, row: Row): Seen {
    if row.error.Some? && row.error.value != "" then Failed else Got(decode(row.output))
  }

  /** What an execution writes at its end is what everybody reads who waits for it, unless the row
      was cancelled before; then they read the cancellation. */
  lemma OutcomeIsRead(decode: Option<string> -> Payload, rows: Rows, id: Id, output: Option<string>, error: string)
    requires id in rows
    ensures var ok := UpdateOutcome(rows, id, Success, output, "");
            id in ok && if rows[id].status == Cancelled then ok == rows
                        else AwaitedAnswer(decode, ok[id]) == Some(Got(decode(output)))
    ensures var bad := UpdateOutcome(rows, id, Error, None, error);
            error != "" ==> id in bad && AwaitedAnswer(decode, bad[id]) == Some(Failed) &&
                            (rows[id].status != Cancelled ==> bad[id].error == Some(error) && bad[id].output == None)
  {
  }

  /** The outcomes written for the child from here on are what was read. */
  predicate SameOutcomes(decode: Option<string> -> Payload, row: Row, id: Id, answer: Seen, c: TableRuns.Call) {
    c.Outcome? && c.id == id ==> FinalAnswer(decode, row.(output := c.output, error := Opt(c.error))) == answer
  }

  lemma StepKeepsAnswer(decode: Option<string> -> Payload, limits: map<string, TableRuns.Limits>, db: Db, c: TableRuns.Call, db': Db, id: Id)
    requires TableRuns.Step(limits, db, c, db') && id in db.rows && id in db'.rows && AwaitedAnswer(decode, db.rows[id]).Some?
    requires TableRuns.Final(db.rows[id].status) || c != TableRuns.ResumeIt(id)
    requires SameOutcomes(decode, db.rows[id], id, AwaitedAnswer(decode, db.rows[id]).value, c)
    ensures AwaitedAnswer(decode, db'.rows[id]) == AwaitedAnswer(decode, db.rows[id])
    ensures TableRuns.Final(db.rows[id].status) ==> TableRuns.Final(db'.rows[id].status)
  {
    match c
    case Insert(i) => TableRuns.InsertTouchesOneRow(db, i);
    case _ =>
  }

  /** The result of a child that is finished, cancelled or dead-lettered stays what it is, for
      every awaiting execution, while its row exists and every further outcome written for it
      is the same one, unless a cancelled or dead-lettered child is resumed. */
  lemma {:induction false} AwaitedAnswerStays(decode: Option<string> -> Payload, limits: map<string, TableRuns.Limits>,
                                              dbs: seq<Db>, calls: seq<TableRuns.Call>, id: Id)
    requires TableRuns.Run(limits, dbs, calls) && forall k :: 0 <= k < |dbs| ==> id in dbs[k].rows
    requires AwaitedAnswer(decode, dbs[0].rows[id]).Some?
    requires TableRuns.Final(dbs[0].rows[id].status) || TableRuns.ResumeIt(id) !in calls
    requires forall k :: 0 <= k < |calls| ==>
               SameOutcomes(decode, dbs[k].rows[id], id, AwaitedAnswer(decode, dbs[0].rows[id]).value, calls[k])
    ensures AwaitedAnswer(decode, dbs[|calls|].rows[id]) == AwaitedAnswer(decode, dbs[0].rows[id])
    ensures TableRuns.Final(dbs[0].rows[id].status) ==> TableRuns.Final(dbs[|calls|].rows[id].status)
  {
    if |calls| > 0 {
      var n := |calls| - 1;
      assert calls[n] in calls && forall c :: c in calls[..n] ==> c in calls;
      AwaitedAnswerStays(decode, limits, dbs[..n + 1], calls[..n], id);
      assert TableRuns.Step(limits, dbs[n], calls[n], dbs[n + 1]);
      StepKeepsAnswer(decode, limits, dbs[n], calls[n], dbs[n + 1], id);
    }
  }

  /** A resume is what can change it: a cancelled child that is resumed and then ends well. */
  lemma ResumeChangesAnswer(decode: Option<string> -> Payload, limits: map<string, TableRuns.Limits>, db: Db, id: Id, output: Option<string>)
    returns (dbs: seq<Db>, calls: seq<TableRuns.Call>)
    requires id in db.rows && (db.rows[id].status == Cancelled || db.rows[id].status == DeadLetter)
    ensures TableRuns.Run(limits, dbs, calls) && dbs[0] == db && id in dbs[|calls|].rows
    ensures AwaitedAnswer(decode, db.rows[id]) == Some(Failed)
    ensures AwaitedAnswer(decode, dbs[|calls|].rows[id]) == Some(Got(decode(output)))
  {
    var db1 := db.(rows := Resume(db.rows, id));
    var db2 := db1.(rows := UpdateOutcome(db1.rows, id, Success, output, ""));
    dbs, calls := [db, db1, db2], [TableRuns.ResumeIt(id), TableRuns.Outcome(id, Success, output, "")];
  }

  // ---- every step on the tables ----

  /** Besides the details of a plain step: the process that starts a workflow, what runs in it,
      and its request. */
  datatype Source = Source(d: Details, p: Process, active: Active, q: Request, draw: Draw, decode: Option<string> -> Payload)

  /** The request that a body's child action makes. */
  predicate SpawnRequest(body: Body, id: Id, h: seq<Seen>, src: Source) {
    body(h).Child? && src.q.name == body(h).name && src.q.flags == Flags(false, false) &&
    src.q.child.Some? && src.q.child.value.parent == id && src.q.child.value.step == Position(body, h)
  }

  /** The request that a body's enqueuing makes. */
  predicate EnqueueRequest(body: Body, id: Id, h: seq<Seen>, src: Source) {
    body(h).Enqueue? && src.q.child == None && src.q.opts.workflowId == Some(body(h).id) && body(h).id != id
  }

  function Ran(db: Db, src: Source): (Db, Result<Handle>) {
    var (db', _, r) := RunErased(src.p, db, src.active, src.q, src.draw);
    (db', r)
  }

  /** The database call of each step, with answers that are not recorded. */
  predicate WideCalls(body: Body, db: Db, id: Id, s: State, w: Wide, src: Source, db': Db)
    requires w.Plain? ==> Callable(body, s, w.v)
  {
    match w
    case Plain(v) => Calls(body, db, id, s, v, src.d, db')
    case Refuse(e) =>
      e in s.execs && var (h, (after, r)) := (s.execs[e].hist, Ran(db, src));
      db' == after && r.Err? &&
      (EnqueueRequest(body, id, h, src) ||
       (SpawnRequest(body, id, h, src) && r.code != DeadLetterQueue && r.code != ConflictingId))
    case Parked(e, child) =>
      e in s.execs && var (h, (after, r)) := (s.execs[e].hist, Ran(db, src));
      SpawnRequest(body, id, h, src) && db' == after && r == Err(DeadLetterQueue) &&
      src.q.name in src.p.registry && InsertFor(src.p, src.q, src.draw).s.id == child && child != id
    case Answer(e, r) =>
      e in s.execs && var a := body(s.execs[e].hist);
      a.Await? && a.child in db.rows && AwaitedAnswer(src.decode, db.rows[a.child]) == Some(r) && db' == db
  }

  /** A refused spawn changes nothing. */
  lemma RefusedSpawnKeepsTables(db: Db, src: Source)
    requires src.q.child.Some? && src.q.flags == Flags(false, false) && Ran(db, src).1.Err? && Ran(db, src).1.code != DeadLetterQueue
    ensures Ran(db, src).0 == db
  {
    SpawnIsRecordedIff(src.p, db, src.active, src.q, src.draw);
  }

  /** Nor does a refused enqueuing, for this workflow. */
  lemma RefusedRowShows(db: Db, id: Id, s: State, src: Source)
    requires Shows(db, id, s) && src.q.child == None && src.q.opts.workflowId.Some? && src.q.opts.workflowId.value != id
    ensures Shows(Ran(db, src).0, id, s)
  {
    if src.q.name in src.p.registry && !OptionsRejected(src.q.opts) {
      OtherRowShows(db, id, InsertFor(src.p, src.q, src.draw));
    }
  }

  lemma RefuseIsCall(body: Body, db: Db, id: Id, s: State, e: nat, src: Source, db': Db)
    requires Shows(db, id, s) && WideEnabled(body, s, Refuse(e), false) && WideCalls(body, db, id, s, Refuse(e), src, db')
    ensures Shows(db', id, WideApply(body, s, Refuse(e)))
  {
    if src.q.child.Some? {
      RefusedSpawnKeepsTables(db, src);
    } else {
      RefusedRowShows(db, id, s, src);
    }
    ShowsAnyExecs(db', id, s, Heard(s, e, Failed));
  }

  /** A parked spawn leaves the child in its parent's log. */
  lemma ParkedRecords(db: Db, id: Id, i: InsertInput)
    requires id in db.rows && i.s.id != id && i.child.Some? && i.child.value.parent == id && !i.incrementAttempts
    requires InsertWorkflowStatus(db, i).1 == Err(DeadLetterQueue)
    ensures var (db', c) := (InsertWorkflowStatus(db, i).0, i.child.value);
            c.step !in LogOf(db, id) && id in db'.rows && db'.rows[id] == db.rows[id] &&
            LogOf(db', id) == LogOf(db, id)[c.step := OpRow(c.name, Null, None, Some(c.child))] &&
            EventsOf(db', id) == EventsOf(db, id) && HistoryOf(db', id) == HistoryOf(db, id)
  {
    InsertIsRecordedIff(db, i);
    TableRuns.InsertTouchesOneRow(db, i);
  }

  lemma ParkedIsCall(body: Body, db: Db, id: Id, s: State, e: nat, child: Id, src: Source, db': Db)
    requires Shows(db, id, s) && WideEnabled(body, s, Parked(e, child), false)
    requires WideCalls(body, db, id, s, Parked(e, child), src, db')
    ensures Shows(db', id, WideApply(body, s, Parked(e, child)))
  {
    SpawnIsRecordedIff(src.p, db, src.active, src.q, src.draw);
    ParkedRecords(db, id, InsertFor(src.p, src.q, src.draw));
  }

  /** Every step, unrecorded answers included, does to the tables what its call does. */
  lemma WideStepIsCall(body: Body, db: Db, id: Id, s: State, w: Wide, src: Source, db': Db)
    requires Shows(db, id, s) && WideEnabled(body, s, w, false)
    requires w.Plain? ==> Callable(body, s, w.v)
    requires WideCalls(body, db, id, s, w, src, db')
    ensures Shows(db', id, WideApply(body, s, w))
  {
    match w
    case Plain(v) => StepIsCall(body, db, id, s, v, src.d, db');
    case Refuse(e) => RefuseIsCall(body, db, id, s, e, src, db');
    case Parked(e, child) => ParkedIsCall(body, db, id, s, e, child, src, db');
    case Answer(e, r) => ShowsAnyExecs(db', id, s, Heard(s, e, r));
  }

  /** A run together with the tables its calls leave. */
  ghost predicate WideRunOnTables(body: Body, id: Id, ss: seq<State>, ws: seq<Wide>, dbs: seq<Db>, srcs: seq<Source>) {
    |ss| == |ws| + 1 && |dbs| == |ss| && |srcs| == |ws| && Shows(dbs[0], id, ss[0]) &&
    forall k :: 0 <= k < |ws| ==> WideAt(body, id, ss, ws, dbs, srcs, k)
  }

  ghost predicate WideAt(body: Body, id: Id, ss: seq<State>, ws: seq<Wide>, dbs: seq<Db>, srcs: seq<Source>, k: nat)
    requires |ss| == |ws| + 1 && |dbs| == |ss| && |srcs| == |ws| && k < |ws|
  {
    WideNext(body, ss[k], ws[k], ss[k + 1], false) && (ws[k].Plain? ==> Callable(body, ss[k], ws[k].v)) &&
    WideCalls(body, dbs[k], id, ss[k], ws[k], srcs[k], dbs[k + 1])
  }

  /** Whatever is refused, parked or awaited: the tables show the protocol at every moment. */
  lemma {:induction false} TablesShowWideRun(body: Body, id: Id, ss: seq<State>, ws: seq<Wide>, dbs: seq<Db>, srcs: seq<Source>, k: nat)
    requires WideRunOnTables(body, id, ss, ws, dbs, srcs) && k <= |ws|
    ensures Shows(dbs[k], id, ss[k])
  {
    if k > 0 {
      TablesShowWideRun(body, id, ss, ws, dbs, srcs, k - 1);
      WideAtShows(body, id, ss, ws, dbs, srcs, k - 1);
    }
  }

  lemma WideAtShows(body: Body, id: Id, ss: seq<State>, ws: seq<Wide>, dbs: seq<Db>, srcs: seq<Source>, k: nat)
    requires WideRunOnTables(body, id, ss, ws, dbs, srcs) && k < |ws| && Shows(dbs[k], id, ss[k])
    ensures Shows(dbs[k + 1], id, ss[k + 1])
  {
    assert WideAt(body, id, ss, ws, dbs, srcs, k);
    WideStepIsCall(body, dbs[k], id, ss[k], ws[k], srcs[k], dbs[k + 1]);
  }

  /** The step that a spawn is, by what the run core returns: accepted or beaten, parked, or
      refused. */
  function SpawnStep(db: Db, e: nat, src: Source): Wide {
    var r := Ran(db, src).1;
    var child := if src.q.name in src.p.registry then InsertFor(src.p, src.q, src.draw).s.id else "";
    if r.Ok? || r == Err(ConflictingId) then Plain(SpawnChild(e, child))
    else if r == Err(DeadLetterQueue) then Parked(e, child)
    else Refuse(e)
  }

  /** Whatever a spawn meets in the tables, it is a step of the protocol. */
  lemma EverySpawnIsStep(body: Body, db: Db, id: Id, s: State, e: nat, src: Source)
    requires Shows(db, id, s) && e in s.execs && s.execs[e].phase == Missed(Own) && SpawnRequest(body, id, s.execs[e].hist, src)
    requires src.q.name in src.p.registry ==> src.d.i == InsertFor(src.p, src.q, src.draw) && src.d.i.s.id != id
    ensures var w := SpawnStep(db, e, src);
            WideEnabled(body, s, w, false) && (w.Plain? ==> Callable(body, s, w.v)) &&
            WideCalls(body, db, id, s, w, src, Ran(db, src).0)
  {
    SpawnIsRecordedIff(src.p, db, src.active, src.q, src.draw);
  }
}
