/** Starting workflows: the run core, the queue runner's dispatch and the recovery pass. */
module Executor {
  import opened Wrappers
  import opened Tables
  import opened Queues
  import opened SystemDb
  import opened TableRuns

  datatype RunOptions = RunOptions(
    workflowId: Option<Id>, queue: string, dedupId: string, partitionKey: string,
    returnExisting: bool, delayMs: Option<int>, priority: int, timeoutMs: Option<int>,
    version: Option<string>)

  const DEFAULT_OPTIONS := RunOptions(None, "", "", "", false, None, 0, None, None)

  datatype Flags = Flags(isDequeue: bool, isRecovery: bool)

  datatype ChildSpawn = ChildSpawn(parent: Id, step: int, derivedId: Id)

  /** One process: its identity and, per registered workflow name, its maximum retries. */
  datatype Process = Process(executor: string, version: string, registry: map<string, int>)

  /** What the call draws from outside: a workflow id, an owner token, the time. */
  datatype Draw = Draw(uuid: Id, owner: string, now: int)

  datatype Request = Request(
    name: string, input: Option<string>, opts: RunOptions, flags: Flags, child: Option<ChildSpawn>)

  /** A launched body runs on an input and, if its row has one, until a deadline. */
  datatype Handle = Launched(id: Id, input: Option<string>, deadline: Option<int>) | Polling(id: Id)

  /** The ids executing in this process, each with the queue it was claimed from. */
  type Active = map<Id, string>

  predicate OptionsRejected(o: RunOptions) {
    (o.delayMs.Some? && o.queue == "") ||
    (o.partitionKey != "" && o.queue == "") ||
    (o.partitionKey != "" && o.dedupId != "") ||
    (o.returnExisting && (o.dedupId == "" || o.queue == ""))
  }

  function InsertFor(p: Process, q: Request, d: Draw): InsertInput
    requires q.name in p.registry
  {
    var o := q.opts;
    var id := if o.workflowId.Some? then o.workflowId.value
              else if q.child.Some? then q.child.value.derivedId else d.uuid;
    var status := if o.queue == "" then Pending else if o.delayMs.Some? then Delayed else Enqueued;
    InsertInput(
      NewStatus(id, status, q.name, o.queue, o.dedupId,
                if o.version.Some? then o.version.value else p.version, p.executor,
                if q.child.Some? then q.child.value.parent else "", q.input, o.priority, d.now,
                if o.delayMs.Some? then Some(d.now + o.delayMs.value) else None,
                o.timeoutMs,
                if o.queue == "" && o.timeoutMs.Some? then Some(d.now + o.timeoutMs.value) else None),
      p.registry[q.name], d.owner, q.flags.isDequeue || q.flags.isRecovery,
      if q.child.Some? then Some(ChildRecord(q.child.value.parent, q.child.value.step, q.name, id)) else None)
  }

  /** Hand back a polling handle instead of running the body here. */
  predicate Skips(q: Request, d: Draw, r: InsertResult, alreadyActive: bool) {
    q.opts.queue != "" || r.status == Success || r.status == Error ||
    (!q.flags.isDequeue && !q.flags.isRecovery && r.owner != d.owner) || alreadyActive
  }

  function RunErased(p: Process, db: Db, active: Active, q: Request, d: Draw): (Db, Active, Result<Handle>) {
    if q.name !in p.registry then (db, active, Err(NonExistentWorkflow))
    else if OptionsRejected(q.opts) then (db, active, Err(WorkflowExecution))
    else
      var i := InsertFor(p, q, d);
      var (db', r) := InsertWorkflowStatus(db, i);
      match r
      case Err(c) => (db', active, Err(c))
      case Ok(res) =>
        if Skips(q, d, res, i.s.id in active) then (db', active, Ok(Polling(i.s.id)))
        else (db', active[i.s.id := if res.queue.Some? then res.queue.value else ""],
              Ok(Launched(i.s.id, q.input, res.deadline)))
  }

  predicate Launches(p: Process, db: Db, active: Active, q: Request, d: Draw) {
    var r := RunErased(p, db, active, q, d).2;
    r.Ok? && r.value.Launched?
  }

  function DispatchRequest(id: Id, row: Row): Request {
    Request(row.name, row.input, DEFAULT_OPTIONS.(workflowId := Some(id)), Flags(true, false), None)
  }

  function RecoveryRequest(id: Id, row: Row): Request {
    Request(row.name, row.input, DEFAULT_OPTIONS.(workflowId := Some(id)), Flags(false, true), None)
  }

  function InQueue(active: Active, queue: string): set<Id> {
    set id | id in active && active[id] == queue
  }

  // ---- what launches ----

  /** A request to run a row that is known: by the queue runner that claimed it, or by a
      recovery pass. */
  predicate Reruns(rows: Rows, id: Id, q: Request) {
    id in rows && (q == DispatchRequest(id, rows[id]) || q == RecoveryRequest(id, rows[id]))
  }

  /** The row's workflow is registered here, is not finished, and may be attempted once more. */
  predicate Runnable(p: Process, row: Row) {
    row.name in p.registry && row.status != Success && row.status != Error &&
    (p.registry[row.name] <= 0 || row.attempts <= p.registry[row.name])
  }

  /** A known row is launched exactly if it is runnable and does not run here already; its body
      gets the row's input and deadline, it counts for the row's queue, the attempt is counted,
      and the row now belongs to this process. Nothing else changes. A pending row that has had
      all its attempts is dead-lettered instead. */
  lemma RerunLaunchesIff(p: Process, db: Db, active: Active, id: Id, q: Request, d: Draw)
    requires Reruns(db.rows, id, q)
    ensures var (row, (db', active', r)) := (db.rows[id], RunErased(p, db, active, q, d));
            var launched := r.Ok? && r.value.Launched?;
            (launched <==> Runnable(p, row) && id !in active) &&
            (launched ==>
               r.value == Launched(id, row.input, row.deadline) &&
               active' == active[id := if row.queue.Some? then row.queue.value else ""] &&
               db' == db.(rows := db.rows[id := row.(attempts := row.attempts + 1, executor := p.executor)])) &&
            (!launched ==> active' == active) &&
            (row.status == Pending && row.name in p.registry && !Runnable(p, row) ==>
               r == Err(DeadLetterQueue) && id in db'.rows && db'.rows[id].status == DeadLetter)
  {
    if q.name in p.registry {
      RerunInserts(p, db, id, q, d);
    }
  }

  /** The row's attempt is counted, and the row is parked if it has had too many. */
  lemma RerunInserts(p: Process, db: Db, id: Id, q: Request, d: Draw)
    requires Reruns(db.rows, id, q) && q.name in p.registry
    ensures var row := db.rows[id].(attempts := db.rows[id].attempts + 1, executor := p.executor);
            InsertWorkflowStatus(db, InsertFor(p, q, d)) ==
            if Exhausted(row, p.registry[q.name]) then (db.(rows := db.rows[id := Park(row)]), Err(DeadLetterQueue))
            else (db.(rows := db.rows[id := row]), Ok(ResultOf(row)))
  {
    var i := InsertFor(p, q, d);
    var row := db.rows[id].(attempts := db.rows[id].attempts + 1, executor := p.executor);
    assert Upsert(db.rows, i) == Ok(db.rows[id := row]);
    assert db.rows[id := row][id := Park(row)] == db.rows[id := Park(row)];
  }

  // ---- spawning a child ----

  /** What must hold when a child is spawned for the spawn to succeed. */
  predicate SpawnAccepted(p: Process, db: Db, q: Request, d: Draw)
    requires q.child.Some?
  {
    q.name in p.registry && !OptionsRejected(q.opts) &&
    InsertAccepted(db, InsertFor(p, q, d))
  }

  predicate InsertAccepted(db: Db, i: InsertInput)
    requires i.child.Some?
  {
    (if i.s.id in db.rows then !Mismatch(db.rows[i.s.id], i.s) && !Exhausted(db.rows[i.s.id], i.maxRetries)
     else !SlotTaken(db.rows, Opt(i.s.queueName), Opt(i.s.dedupId))) &&
    (i.child.value.parent in db.rows || i.child.value.parent == i.s.id) &&
    i.child.value.step !in LogOf(db, i.child.value.parent)
  }

  /** What must hold for a spawn to fail on a dead-lettered child: it knows the row, which is
      out of attempts, and all else is in order. */
  predicate SpawnParks(p: Process, db: Db, q: Request, d: Draw)
    requires q.child.Some?
  {
    q.name in p.registry && !OptionsRejected(q.opts) &&
    InsertParks(db, InsertFor(p, q, d))
  }

  predicate InsertParks(db: Db, i: InsertInput)
    requires i.child.Some?
  {
    i.s.id in db.rows && !Mismatch(db.rows[i.s.id], i.s) && Exhausted(db.rows[i.s.id], i.maxRetries) &&
    i.child.value.parent in db.rows && i.child.value.step !in LogOf(db, i.child.value.parent)
  }

  /** A spawn succeeds exactly if it is accepted, and is told of a dead letter exactly if the
      child is parked. The parent's log gains the child's row in these two cases; in any other
      the whole database stays as it was, so nothing tells a replay that the spawn failed. */
  lemma SpawnIsRecordedIff(p: Process, db: Db, active: Active, q: Request, d: Draw)
    requires q.child.Some? && !q.flags.isDequeue && !q.flags.isRecovery
    ensures var (c, (db', _, r)) := (q.child.value, RunErased(p, db, active, q, d));
            (r.Ok? <==> SpawnAccepted(p, db, q, d)) &&
            (r == Err(DeadLetterQueue) <==> SpawnParks(p, db, q, d)) &&
            (c.step !in LogOf(db, c.parent) ==>
               (c.step in LogOf(db', c.parent) <==> SpawnAccepted(p, db, q, d) || SpawnParks(p, db, q, d))) &&
            (!SpawnAccepted(p, db, q, d) && !SpawnParks(p, db, q, d) ==> db' == db)
  {
    if q.name in p.registry && !OptionsRejected(q.opts) {
      InsertIsRecordedIff(db, InsertFor(p, q, d));
    }
  }

  lemma ChildIsRecordedIff(db: Db, c: ChildRecord)
    ensures var r := RecordChild(db, Some(c));
            (r.Ok? <==> c.parent in db.rows && c.step !in LogOf(db, c.parent)) &&
            (r.Ok? ==> r.value.rows == db.rows && c.step in LogOf(r.value, c.parent)) &&
            r != Err(DeadLetterQueue)
  {
  }

  lemma InsertIsRecordedIff(db: Db, i: InsertInput)
    requires i.child.Some? && !i.incrementAttempts
    ensures var (c, (db', r)) := (i.child.value, InsertWorkflowStatus(db, i));
            (r.Ok? <==> InsertAccepted(db, i)) &&
            (r == Err(DeadLetterQueue) <==> InsertParks(db, i)) &&
            (c.step !in LogOf(db, c.parent) ==>
               (c.step in LogOf(db', c.parent) <==> InsertAccepted(db, i) || InsertParks(db, i))) &&
            (!InsertAccepted(db, i) && !InsertParks(db, i) ==> db' == db)
  {
    var up := Upsert(db.rows, i);
    if up.Ok? {
      UpsertedRow(db.rows, i);
      ChildIsRecordedIff(db.(rows := up.value), i.child.value);
      assert LogOf(db.(rows := up.value), i.child.value.parent) == LogOf(db, i.child.value.parent);
    }
  }

  /** The failing table: the child is dead-lettered, its parent runs. The spawn fails, and the
      parent's log has the child all the same. */
  lemma ParkedSpawnIsRecorded(p: Process, parent: Row, child: Row, q: Request, step: int, d: Draw)
    requires q.name in p.registry && q.opts == DEFAULT_OPTIONS && q.flags == Flags(false, false)
    requires q.child == Some(ChildSpawn("parent", step, "child"))
    requires parent.status == Pending
    requires child.status == DeadLetter && child.name == q.name && p.registry[q.name] > 0 && child.attempts == p.registry[q.name] + 2
    ensures var db := Db(map["parent" := parent, "child" := child], map[], map[], map[], map[], map[]);
            var (db', _, r) := RunErased(p, db, map[], q, d);
            r == Err(DeadLetterQueue) && "parent" in db'.rows && db'.rows["parent"] == parent &&
            LogOf(db', "parent") == map[step := OpRow(q.name, Null, None, Some("child"))]
  {
    var db := Db(map["parent" := parent, "child" := child], map[], map[], map[], map[], map[]);
    SpawnIsRecordedIff(p, db, map[], q, d);
    assert SpawnParks(p, db, q, d);
  }

  /** Attempts are not counted by a spawn, so the row it finds decides. */
  lemma UpsertedRow(rows: Rows, i: InsertInput)
    requires Upsert(rows, i).Ok? && !i.incrementAttempts
    ensures var row := Upsert(rows, i).value[i.s.id];
            if i.s.id in rows
            then (Mismatch(row, i.s) <==> Mismatch(rows[i.s.id], i.s)) &&
                 (Exhausted(row, i.maxRetries) <==> Exhausted(rows[i.s.id], i.maxRetries))
            else !Mismatch(row, i.s) && !Exhausted(row, i.maxRetries)
  {
  }

  // ---- the recovery pass ----

  /** One listed row: a queued row goes back to ENQUEUED, a direct one is run again, and an
      unregistered one is left. The flag says whether a handle is handed out. */
  function RecoverOne(p: Process, db: Db, active: Active, listed: Rows, id: Id, d: Draw): (Db, Active, Result<bool>)
    requires id in listed
  {
    if listed[id].queue.Some? && listed[id].queue.value != "" then
      (db.(rows := ClearQueueAssignment(db.rows, id)), active, Ok(Clearable(db.rows, id)))
    else if listed[id].name !in p.registry then (db, active, Ok(false))
    else
      var (db', active', r) := RunErased(p, db, active, RecoveryRequest(id, listed[id]), d);
      (db', active', if r.Ok? then Ok(true) else Err(r.code))
  }

  /** The pass over the listed rows; the first error ends it. */
  function RecoverAll(p: Process, db: Db, active: Active, listed: Rows, ids: seq<Id>, draws: seq<Draw>)
    : (Db, Active, Result<seq<Id>>)
    requires |draws| == |ids| && forall k :: 0 <= k < |ids| ==> ids[k] in listed
  {
    if ids == [] then (db, active, Ok([]))
    else
      var n := |ids| - 1;
      var (db1, active1, r) := RecoverAll(p, db, active, listed, ids[..n], draws[..n]);
      if r.Err? then (db1, active1, r)
      else
        var (db2, active2, h) := RecoverOne(p, db1, active1, listed, ids[n], draws[n]);
        (db2, active2,
         if h.Err? then Err(h.code) else Ok(if h.value then r.value + [ids[n]] else r.value))
  }

  /** A row whose recovery ends in the dead-letter error. */
  predicate Exhausting(p: Process, row: Row) {
    (row.queue == None || row.queue == Some("")) && row.name in p.registry && row.name != "" &&
    p.registry[row.name] > 0 && row.attempts > p.registry[row.name]
  }

  predicate OnlyChanged(rows: Rows, rows': Rows, id: Id) {
    rows'.Keys == rows.Keys && forall x :: x in rows && x != id ==> rows'[x] == rows[x]
  }

  /** Running a known id changes no other row. */
  lemma RunErasedIsLocal(p: Process, db: Db, active: Active, q: Request, d: Draw)
    requires q.opts.workflowId.Some? && q.opts.workflowId.value in db.rows
    ensures OnlyChanged(db.rows, RunErased(p, db, active, q, d).0.rows, q.opts.workflowId.value)
  {
    if q.name in p.registry && !OptionsRejected(q.opts) {
      InsertTouchesOneRow(db, InsertFor(p, q, d));
    }
  }

  /** Recovering one row leaves every other row as it was. */
  lemma RecoverOneIsLocal(p: Process, db: Db, active: Active, listed: Rows, id: Id, d: Draw)
    requires id in listed && id in db.rows
    ensures OnlyChanged(db.rows, RecoverOne(p, db, active, listed, id, d).0.rows, id)
  {
    var q := RecoveryRequest(id, listed[id]);
    RunErasedIsLocal(p, db, active, q, d);
    var ran := RunErased(p, db, active, q, d).0.rows;
    assert OnlyChanged(db.rows, ran, id);
    var got := RecoverOne(p, db, active, listed, id, d).0.rows;
    assert got == db.rows || got == ran || got == ClearQueueAssignment(db.rows, id);
  }

  lemma RecoverOneFails(p: Process, db: Db, active: Active, listed: Rows, id: Id, d: Draw)
    requires id in listed && id in db.rows && listed[id].status == Pending && db.rows[id] == listed[id]
    requires "" !in p.registry
    ensures RecoverOne(p, db, active, listed, id, d).2.Err? <==> Exhausting(p, listed[id])
  {
    if listed[id].name in p.registry {
      var i := InsertFor(p, RecoveryRequest(id, listed[id]), d);
      assert Upsert(db.rows, i).Ok?;
      assert Upsert(db.rows, i).value[id].attempts == listed[id].attempts + 1;
    }
  }

  /** The pass reaches every listed row exactly when none of them is about to be
      dead-lettered: that error ends the pass and leaves the rows behind it unrecovered. */
  lemma {:induction false} RecoveryIsCompleteIff(p: Process, db: Db, active: Active, ids: seq<Id>, draws: seq<Draw>)
    requires |draws| == |ids| && Distinct(ids) && "" !in p.registry
    requires forall k :: 0 <= k < |ids| ==> ids[k] in db.rows && db.rows[ids[k]].status == Pending
    ensures RecoverAll(p, db, active, db.rows, ids, draws).2.Ok? <==> NoneExhausting(p, db.rows, ids)
    ensures RecoverAll(p, db, active, db.rows, ids, draws).0.rows.Keys == db.rows.Keys
    ensures forall x :: x in db.rows && x !in ids ==>
              RecoverAll(p, db, active, db.rows, ids, draws).0.rows[x] == db.rows[x]
  {
    if ids != [] {
      var n := |ids| - 1;
      RecoveryIsCompleteIff(p, db, active, ids[..n], draws[..n]);
      var (db1, active1, r) := RecoverAll(p, db, active, db.rows, ids[..n], draws[..n]);
      LastListed(p, db.rows, ids);
      if r.Ok? {
        RecoverLast(p, db, db1, active1, ids[n], draws[n]);
        assert RecoverAll(p, db, active, db.rows, ids, draws).0
               == RecoverOne(p, db1, active1, db.rows, ids[n], draws[n]).0;
      }
    }
  }

  predicate NoneExhausting(p: Process, rows: Rows, ids: seq<Id>)
    requires forall k :: 0 <= k < |ids| ==> ids[k] in rows
  {
    forall k :: 0 <= k < |ids| ==> !Exhausting(p, rows[ids[k]])
  }

  lemma LastListed(p: Process, rows: Rows, ids: seq<Id>)
    requires ids != [] && Distinct(ids) && forall k :: 0 <= k < |ids| ==> ids[k] in rows
    ensures var n := |ids| - 1;
            ids[n] !in ids[..n] && (forall x :: x in ids <==> x in ids[..n] || x == ids[n]) &&
            (NoneExhausting(p, rows, ids) <==> NoneExhausting(p, rows, ids[..n]) && !Exhausting(p, rows[ids[n]]))
  {
    var n := |ids| - 1;
    assert ids == ids[..n] + [ids[n]];
    assert forall k :: 0 <= k < n ==> ids[..n][k] == ids[k];
  }

  lemma RecoverLast(p: Process, db: Db, db1: Db, active1: Active, id: Id, d: Draw)
    requires id in db.rows && db.rows[id].status == Pending && "" !in p.registry
    requires id in db1.rows && db1.rows[id] == db.rows[id]
    ensures var (db2, _, h) := RecoverOne(p, db1, active1, db.rows, id, d);
            OnlyChanged(db1.rows, db2.rows, id) && (h.Err? <==> Exhausting(p, db.rows[id]))
  {
    RecoverOneFails(p, db1, active1, db.rows, id, d);
    RecoverOneIsLocal(p, db1, active1, db.rows, id, d);
  }

  /** What becomes of a pending row that is recovered: a queued one waits on its queue again,
      a direct one whose workflow is registered runs here. */
  predicate Restarted(p: Process, row: Row, id: Id, rows: Rows, active: Active) {
    id in rows &&
    if row.queue.Some? && row.queue.value != "" then
      rows[id].queue == row.queue && rows[id].status == Enqueued && rows[id].startedAt == None &&
      rows[id].version == row.version && rows[id].name == row.name && rows[id].input == row.input
    else row.name in p.registry ==> id in active
  }

  lemma RecoverOneRestarts(p: Process, db: Db, active: Active, listed: Rows, id: Id, d: Draw)
    requires id in listed && id in db.rows && listed[id].status == Pending && db.rows[id] == listed[id]
    requires RecoverOne(p, db, active, listed, id, d).2.Ok?
    ensures var (db', active', r) := RecoverOne(p, db, active, listed, id, d);
            Restarted(p, listed[id], id, db'.rows, active') &&
            (r.value <==> (listed[id].queue.Some? && listed[id].queue.value != "") || listed[id].name in p.registry)
  {
    if !(listed[id].queue.Some? && listed[id].queue.value != "") && listed[id].name in p.registry {
      DirectRestarts(p, db, active, id, d);
    }
  }

  lemma DirectRestarts(p: Process, db: Db, active: Active, id: Id, d: Draw)
    requires id in db.rows && db.rows[id].status == Pending && db.rows[id].name in p.registry
    ensures var (db', active', r) := RunErased(p, db, active, RecoveryRequest(id, db.rows[id]), d);
            id in db'.rows && (r.Ok? ==> id in active')
  {
    RerunLaunchesIff(p, db, active, id, RecoveryRequest(id, db.rows[id]), d);
    RunErasedIsLocal(p, db, active, RecoveryRequest(id, db.rows[id]), d);
  }

  lemma RecoverOneKeepsActive(p: Process, db: Db, active: Active, listed: Rows, id: Id, d: Draw, x: Id)
    requires id in listed && x in active
    ensures x in RecoverOne(p, db, active, listed, id, d).1
  {
  }

  /** A pass that succeeds restarts every row it lists, and hands out a handle for each that
      it has restarted. */
  lemma {:induction false} RecoveryRestarts(p: Process, db: Db, active: Active, ids: seq<Id>, draws: seq<Draw>, id: Id)
    requires |draws| == |ids| && Distinct(ids) && id in ids && "" !in p.registry
    requires forall k :: 0 <= k < |ids| ==> ids[k] in db.rows && db.rows[ids[k]].status == Pending
    requires RecoverAll(p, db, active, db.rows, ids, draws).2.Ok?
    ensures var (db', active', r) := RecoverAll(p, db, active, db.rows, ids, draws);
            Restarted(p, db.rows[id], id, db'.rows, active') &&
            (id in r.value <==> (db.rows[id].queue.Some? && db.rows[id].queue.value != "") || db.rows[id].name in p.registry)
  {
    var n := |ids| - 1;
    var (db1, active1, r1) := RecoverAll(p, db, active, db.rows, ids[..n], draws[..n]);
    RecoveryIsCompleteIff(p, db, active, ids[..n], draws[..n]);
    HandlesAreListed(p, db, active, db.rows, ids[..n], draws[..n]);
    LastListed(p, db.rows, ids);
    if ids[n] == id {
      RecoverOneRestarts(p, db1, active1, db.rows, id, draws[n]);
    } else {
      RecoveryRestarts(p, db, active, ids[..n], draws[..n], id);
      RecoverOneIsLocal(p, db1, active1, db.rows, ids[n], draws[n]);
      if id in active1 { RecoverOneKeepsActive(p, db1, active1, db.rows, ids[n], draws[n], id); }
    }
  }

  lemma {:induction false} HandlesAreListed(p: Process, db: Db, active: Active, listed: Rows, ids: seq<Id>, draws: seq<Draw>)
    requires |draws| == |ids| && forall k :: 0 <= k < |ids| ==> ids[k] in listed
    requires RecoverAll(p, db, active, listed, ids, draws).2.Ok?
    ensures forall id :: id in RecoverAll(p, db, active, listed, ids, draws).2.value ==> id in ids
  {
    if ids != [] {
      var n := |ids| - 1;
      HandlesAreListed(p, db, active, listed, ids[..n], draws[..n]);
      assert forall id :: id in ids[..n] ==> id in ids;
    }
  }

  /** Of two rows the older one is listed first. */
  lemma OlderIsListedFirst(rows: Rows, executors: set<string>, version: string, ids: seq<Id>, a: Id, b: Id)
    requires Listed(rows, executors, version, ids) && rows.Keys == {a, b} && a != b
    requires Recoverable(rows[a], executors, version) && Recoverable(rows[b], executors, version)
    requires rows[a].createdAt < rows[b].createdAt
    ensures ids == [a, b]
  {
    assert IdSet(ids) == {a, b};
    IdSetSize(ids);
    assert ids[0] in IdSet(ids) && ids[1] in IdSet(ids) && ids[0] != ids[1];
  }

  lemma PassOverTwo(p: Process, bad: Row, good: Row, draws: seq<Draw>)
    requires Exhausting(p, bad) && bad.status == Pending && good.status == Pending && !Exhausting(p, good)
    requires good.queue == None && good.name in p.registry && "" !in p.registry && |draws| == 2
    ensures var db := Db(map["bad" := bad, "good" := good], map[], map[], map[], map[], map[]);
            var (db', active', r) := RecoverAll(p, db, map[], db.rows, ["bad", "good"], draws);
            r.Err? && "good" in db'.rows && db'.rows["good"] == good && "good" !in active' &&
            RecoverAll(p, db, map[], db.rows, ["good"], draws[..1]).2 == Ok(["good"])
  {
    var db := Db(map["bad" := bad, "good" := good], map[], map[], map[], map[], map[]);
    var ids := ["bad", "good"];
    assert ids[..1] == ["bad"] && ids[..0] == [];
    RecoverLast(p, db, db, map[], "bad", draws[0]);
    RecoverLast(p, db, db, map[], "good", draws[0]);
    assert draws[..1][..0] == [] && ["bad"][..0] == [] && ["good"][..0] == [];
    assert RecoverAll(p, db, map[], db.rows, [], []) == (db, map[], Ok([]));
    assert RecoverOne(p, db, map[], db.rows, "good", draws[..1][0]).2 == Ok(true);
    assert [] + ["good"] == ["good"];
    FailureEndsRecovery(p, db, map[], db.rows, ids, draws, 1);
  }

  /** The failing table: a row out of attempts that is older than a healthy one. However the
      pass lists the two, it fails, and the healthy workflow stays PENDING and is not launched;
      without the older one it would have been recovered. */
  lemma ExhaustedRowBlocksRecovery(p: Process, bad: Row, good: Row, executors: set<string>, ids: seq<Id>, draws: seq<Draw>)
    requires Recoverable(bad, executors, p.version) && Recoverable(good, executors, p.version) && bad.createdAt < good.createdAt
    requires Exhausting(p, bad) && !Exhausting(p, good)
    requires good.queue == None && good.name in p.registry && "" !in p.registry
    requires Listed(map["bad" := bad, "good" := good], executors, p.version, ids) && |draws| == |ids|
    ensures ids == ["bad", "good"]
    ensures var db := Db(map["bad" := bad, "good" := good], map[], map[], map[], map[], map[]);
            var (db', active', r) := RecoverAll(p, db, map[], db.rows, ids, draws);
            r.Err? && "good" in db'.rows && db'.rows["good"] == good && "good" !in active' &&
            RecoverAll(p, db, map[], db.rows, ["good"], draws[..1]).2 == Ok(["good"])
  {
    OlderIsListedFirst(map["bad" := bad, "good" := good], executors, p.version, ids, "bad", "good");
    PassOverTwo(p, bad, good, draws);
  }

  /** Once the pass has failed, the rows behind the failure are not looked at. */
  lemma {:induction false} FailureEndsRecovery(p: Process, db: Db, active: Active, listed: Rows,
                                               ids: seq<Id>, draws: seq<Draw>, n: nat)
    requires |draws| == |ids| && forall k :: 0 <= k < |ids| ==> ids[k] in listed
    requires n <= |ids| && RecoverAll(p, db, active, listed, ids[..n], draws[..n]).2.Err?
    ensures RecoverAll(p, db, active, listed, ids, draws) == RecoverAll(p, db, active, listed, ids[..n], draws[..n])
  {
    if n < |ids| {
      var m := |ids| - 1;
      assert ids[..m][..n] == ids[..n] && draws[..m][..n] == draws[..n];
      FailureEndsRecovery(p, db, active, listed, ids[..m], draws[..m], n);
    } else {
      assert ids[..n] == ids && draws[..n] == draws;
    }
  }

  // ---- the dispatch of claimed rows ----

  /** Starts each claimed row in turn; an error is logged and the next one is tried. */
  function DispatchAll(p: Process, db: Db, active: Active, ids: seq<Id>, draws: seq<Draw>): (Db, Active)
    requires |draws| == |ids|
  {
    if ids == [] then (db, active)
    else
      var n := |ids| - 1;
      var (db1, active1) := DispatchAll(p, db, active, ids[..n], draws[..n]);
      if ids[n] !in db1.rows then (db1, active1)
      else
        var (db2, active2, _) := RunErased(p, db1, active1, DispatchRequest(ids[n], db1.rows[ids[n]]), draws[n]);
        (db2, active2)
  }

  /** Dispatching n rows adds at most n active entries to any queue, only for claimed ids,
      and replaces none. */
  lemma {:induction false} DispatchAddsAtMost(p: Process, db: Db, active: Active, ids: seq<Id>, draws: seq<Draw>, queue: string)
    requires |draws| == |ids|
    ensures var active' := DispatchAll(p, db, active, ids, draws).1;
            |InQueue(active', queue)| <= |InQueue(active, queue)| + |ids| &&
            (forall id :: id in active' && id !in active ==> id in ids) &&
            forall id :: id in active ==> id in active' && active'[id] == active[id]
  {
    if ids != [] {
      var n := |ids| - 1;
      DispatchAddsAtMost(p, db, active, ids[..n], draws[..n], queue);
      var active1 := DispatchAll(p, db, active, ids[..n], draws[..n]).1;
      var active' := DispatchAll(p, db, active, ids, draws).1;
      assert forall id :: id in ids[..n] ==> id in ids;
      SubsetSize(InQueue(active', queue), InQueue(active1, queue) + {ids[n]});
    }
  }

  /** Dispatching leaves the rows of other ids alone. */
  lemma {:induction false} DispatchIsLocal(p: Process, db: Db, active: Active, ids: seq<Id>, draws: seq<Draw>, id: Id)
    requires |draws| == |ids| && id in db.rows && id !in ids
    ensures var rows' := DispatchAll(p, db, active, ids, draws).0.rows;
            id in rows' && rows'[id] == db.rows[id]
  {
    if ids != [] {
      var n := |ids| - 1;
      DispatchIsLocal(p, db, active, ids[..n], draws[..n], id);
      var (db1, active1) := DispatchAll(p, db, active, ids[..n], draws[..n]);
      if ids[n] in db1.rows {
        RunErasedIsLocal(p, db1, active1, DispatchRequest(ids[n], db1.rows[ids[n]]), draws[n]);
      }
    }
  }

  /** Every runnable row among them that does not run here yet is started, for its queue. */
  lemma {:induction false} DispatchStarts(p: Process, db: Db, active: Active, ids: seq<Id>, draws: seq<Draw>, id: Id)
    requires |draws| == |ids| && Distinct(ids) && id in ids
    requires id in db.rows && Runnable(p, db.rows[id]) && id !in active
    ensures var active' := DispatchAll(p, db, active, ids, draws).1;
            id in active' && active'[id] == if db.rows[id].queue.Some? then db.rows[id].queue.value else ""
  {
    var n := |ids| - 1;
    var (db1, active1) := DispatchAll(p, db, active, ids[..n], draws[..n]);
    if ids[n] == id {
      DispatchAddsAtMost(p, db, active, ids[..n], draws[..n], "");
      DispatchIsLocal(p, db, active, ids[..n], draws[..n], id);
      RerunLaunchesIff(p, db1, active1, id, DispatchRequest(id, db1.rows[id]), draws[n]);
    } else {
      DispatchStarts(p, db, active, ids[..n], draws[..n], id);
      LastKeepsActive(p, db, active, ids, draws, id);
    }
  }

  lemma LastKeepsActive(p: Process, db: Db, active: Active, ids: seq<Id>, draws: seq<Draw>, id: Id)
    requires |draws| == |ids| && ids != [] && ids[|ids| - 1] != id
    ensures var n := |ids| - 1;
            var (active1, active') := (DispatchAll(p, db, active, ids[..n], draws[..n]).1, DispatchAll(p, db, active, ids, draws).1);
            id in active1 ==> id in active' && active'[id] == active1[id]
  {
  }

  /** A poll claims no more than the worker limit leaves. */
  lemma ClaimCountBound(rows: Rows, i: DequeueInput, t0: int)
    ensures i.workerLimit.Some? ==> ClaimCount(rows, i, t0) <= Max(i.workerLimit.value - i.localRunning, 0)
    ensures ClaimCount(rows, i, t0) <= |rows|
  {
    SubsetSize(EligibleIds(rows, i), rows.Keys);
  }

  // ---- the context object ----

  function DrawsFor(ids: seq<Id>, draw: Id -> Draw): (draws: seq<Draw>)
    ensures |draws| == |ids| && forall k :: 0 <= k < |ids| ==> draws[k] == draw(ids[k])
  {
    seq(|ids|, k requires 0 <= k < |ids| => draw(ids[k]))
  }

  class DbosContext {
    const process: Process
    const db: SqliteDb
    var active: Active

    constructor (process: Process, db: SqliteDb)
      ensures this.process == process && this.db == db && active == map[]
    {
      this.process, this.db, active := process, db, map[];
    }

    method RunWorkflowErased(q: Request, d: Draw) returns (r: Result<Handle>)
      modifies this`active, db
      ensures (db.State(), active, r) == RunErased(process, old(db.State()), old(active), q, d)
    {
      if q.name !in process.registry {
        return Err(NonExistentWorkflow);
      }
      var o := q.opts;
      if o.delayMs.Some? && o.queue == "" {
        return Err(WorkflowExecution);
      }
      if o.partitionKey != "" && o.queue == "" {
        return Err(WorkflowExecution);
      }
      if o.partitionKey != "" && o.dedupId != "" {
        return Err(WorkflowExecution);
      }
      if o.returnExisting && (o.dedupId == "" || o.queue == "") {
        return Err(WorkflowExecution);
      }
      var i := InsertFor(process, q, d);
      var inserted := db.InsertWorkflowStatus(i);
      if inserted.Err? {
        return Err(inserted.code);
      }
      var res := inserted.value;
      var alreadyActive := i.s.id in active;
      var shouldSkip :=
        || o.queue != ""
        || res.status == Success
        || res.status == Error
        || (!q.flags.isDequeue && !q.flags.isRecovery && res.owner != d.owner)
        || alreadyActive;
      if shouldSkip {
        return Ok(Polling(i.s.id));
      }
      active := active[i.s.id := if res.queue.Some? then res.queue.value else ""];
      r := Ok(Launched(i.s.id, q.input, res.deadline));
    }

    /** One poll of one queue: claim with the number of runs counted here, then start each
        claimed row. No more than the worker limit of this queue runs here afterwards,
        unless more already did. */
    method DequeueAndDispatch(i: DequeueInput, clock: Clock, draws: seq<Draw>)
      returns (claimed: seq<Id>, ghost t0: int, ghost stamps: seq<int>, ghost after: Rows)
      requires i.localRunning == |InQueue(active, i.queue)|
      requires |draws| >= |db.rows|
      modifies this`active, db, clock
      ensures Dequeued(old(db.rows), i, t0, claimed, stamps, clock.t, after)
      ensures |claimed| <= |draws|
      ensures (db.State(), active)
              == DispatchAll(process, old(db.State()).(rows := after), old(active), claimed, draws[..|claimed|])
      ensures i.workerLimit.Some? ==>
                |InQueue(active, i.queue)| <= Max(i.workerLimit.value, old(|InQueue(active, i.queue)|))
      ensures forall id :: id in claimed && id in after && Runnable(process, after[id]) && id !in old(active) ==>
                id in active && active[id] == i.queue
    {
      claimed, t0, stamps := db.DequeueWorkflows(i, clock);
      after := db.rows;
      ClaimCountBound(old(db.rows), i, t0);
      forall id | id in claimed && id in after && Runnable(process, after[id]) && id !in active
        ensures var active' := DispatchAll(process, db.State(), active, claimed, draws[..|claimed|]).1;
                id in active' && active'[id] == i.queue
      {
        var k :| 0 <= k < |claimed| && claimed[k] == id;
        assert id in EligibleIds(old(db.rows), i);
        DispatchStarts(process, db.State(), active, claimed, draws[..|claimed|], id);
      }
      DispatchAddsAtMost(process, db.State(), active, claimed, draws[..|claimed|], i.queue);
      Dispatch(claimed, draws[..|claimed|]);
    }

    /** Starts each claimed row in turn. */
    method Dispatch(claimed: seq<Id>, draws: seq<Draw>)
      requires |draws| == |claimed|
      modifies this`active, db
      ensures (db.State(), active) == DispatchAll(process, old(db.State()), old(active), claimed, draws)
    {
      var k := 0;
      while k < |claimed|
        invariant 0 <= k <= |claimed|
        invariant (db.State(), active) == DispatchAll(process, old(db.State()), old(active), claimed[..k], draws[..k])
      {
        assert claimed[..k + 1][..k] == claimed[..k] && draws[..k + 1][..k] == draws[..k];
        var id := claimed[k];
        if id in db.rows {
          var _ := RunWorkflowErased(DispatchRequest(id, db.rows[id]), draws[k]);
        }
        k := k + 1;
      }
      assert claimed[..k] == claimed && draws[..k] == draws;
    }

    /** Recovers every PENDING row of the given executors and this version, oldest first,
        stopping at the first error. */
    method RecoverPendingWorkflows(executors: set<string>, draw: Id -> Draw) returns (r: Result<seq<Id>>, ids: seq<Id>)
      modifies this`active, db
      ensures Listed(old(db.rows), executors, process.version, ids)
      ensures (db.State(), active, r)
              == RecoverAll(process, old(db.State()), old(active), old(db.rows), ids, DrawsFor(ids, draw))
    {
      ids := db.ListPending(executors, process.version);
      r := RecoverListed(ids, DrawsFor(ids, draw));
    }

    method RecoverListed(ids: seq<Id>, draws: seq<Draw>) returns (r: Result<seq<Id>>)
      requires |draws| == |ids| && forall k :: 0 <= k < |ids| ==> ids[k] in db.rows
      modifies this`active, db
      ensures (db.State(), active, r)
              == RecoverAll(process, old(db.State()), old(active), old(db.rows), ids, draws)
    {
      var listed := db.rows;
      var handles := [];
      var k := 0;
      while k < |ids|
        invariant 0 <= k <= |ids|
        invariant (db.State(), active, Ok(handles))
                  == RecoverAll(process, old(db.State()), old(active), listed, ids[..k], draws[..k])
      {
        assert ids[..k + 1][..k] == ids[..k] && draws[..k + 1][..k] == draws[..k];
        var id := ids[k];
        if listed[id].queue.Some? && listed[id].queue.value != "" {
          var cleared := db.ClearQueueAssignment(id);
          if cleared {
            handles := handles + [id];
          }
        } else if listed[id].name in process.registry {
          var h := RunWorkflowErased(RecoveryRequest(id, listed[id]), draws[k]);
          if h.Err? {
            FailureEndsRecovery(process, old(db.State()), old(active), listed, ids, draws, k + 1);
            return Err(h.code);
          }
          handles := handles + [id];
        }
        k := k + 1;
      }
      assert ids[..k] == ids && draws[..k] == draws;
      r := Ok(handles);
    }
  }
}
