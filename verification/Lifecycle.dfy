/** The life of a workflow row from the request that makes it to the launch of its body, through
    delays, polls, cancellations, resumes, recoveries and forks. */
module Lifecycle {
  import opened Wrappers
  import opened Tables
  import opened Queues
  import opened SystemDb
  import opened TableRuns
  import opened Executor
  import opened ExecutorRuns

  // ---- requests ----

  /** A request of a client or a workflow, not a rerun of a known row. */
  predicate Plain(q: Request) {
    !q.flags.isDequeue && !q.flags.isRecovery
  }

  /** Another row of the queue has the deduplication id. */
  predicate Duplicate(rows: Rows, queue: string, dedupId: string) {
    queue != "" && dedupId != "" && exists x :: x in rows && rows[x].queue == Some(queue) && rows[x].dedup == Some(dedupId)
  }

  /** A child's row can be recorded in its parent's log. */
  predicate ChildFits(db: Db, q: Request, id: Id) {
    q.child.Some? ==>
      (q.child.value.parent in db.rows || q.child.value.parent == id) && q.child.value.step !in LogOf(db, q.child.value.parent)
  }

  /** What every new row has from its request. */
  predicate MadeFor(p: Process, q: Request, d: Draw, row: Row) {
    row.name == q.name && row.input == q.input && row.priority == q.opts.priority && row.createdAt == d.now &&
    row.version == Opt(if q.opts.version.Some? then q.opts.version.value else p.version) && row.executor == p.executor &&
    row.owner == Some(d.owner) && row.parent == (if q.child.Some? then Opt(q.child.value.parent) else None) &&
    row.timeoutMs == q.opts.timeoutMs && row.startedAt == None && !row.rateLimited && row.forkedFrom == None &&
    row.output == None && row.error == None
  }

  /** A request for a new id that names no queue starts the workflow here and now, exactly if
      its workflow is registered, it asks for nothing that needs a queue, and its id does not
      run here. The body gets its input, and until now plus its timeout. */
  lemma PlainLaunchesIff(p: Process, db: Db, active: Active, q: Request, d: Draw)
    requires Plain(q) && q.opts.queue == "" && TargetId(q, d) !in db.rows && ChildFits(db, q, TargetId(q, d))
    ensures var (id, (db', active', r)) := (TargetId(q, d), RunErased(p, db, active, q, d));
            var launched := r.Ok? && r.value.Launched?;
            var deadline := if q.opts.timeoutMs.Some? then Some(d.now + q.opts.timeoutMs.value) else None;
            (launched <==>
               q.name in p.registry && q.opts.delayMs == None && q.opts.partitionKey == "" && !q.opts.returnExisting && id !in active) &&
            (launched ==>
               r.value == Launched(id, q.input, deadline) && active' == active[id := ""] &&
               id in db'.rows && MadeFor(p, q, d, db'.rows[id]) && db'.rows == db.rows[id := db'.rows[id]] &&
               db'.rows[id].status == Pending && db'.rows[id].queue == None && db'.rows[id].attempts == 1 &&
               db'.rows[id].deadline == deadline) &&
            (!launched ==> active' == active)
  {
    if q.name in p.registry && !OptionsRejected(q.opts) {
      NewRowInserts(db, InsertFor(p, q, d));
    }
  }

  /** The row of a request that named a queue: it waits there, or is due now plus its delay, holds
      its slot, and has not been tried. */
  predicate Queued(q: Request, d: Draw, row: Row) {
    row.queue == Some(q.opts.queue) && row.dedup == Opt(q.opts.dedupId) && row.attempts == 0 && row.deadline == None &&
    (if q.opts.delayMs == None then row.status == Enqueued && row.delayUntil == None
     else row.status == Delayed && row.delayUntil == Some(d.now + q.opts.delayMs.value))
  }

  /** A request that names a queue only ever leaves a row, for a new id exactly if its workflow
      is registered, its options go together, and no row of the queue has its deduplication
      id. */
  lemma EnqueuesIff(p: Process, db: Db, active: Active, q: Request, d: Draw)
    requires Plain(q) && q.opts.queue != "" && TargetId(q, d) !in db.rows && ChildFits(db, q, TargetId(q, d))
    ensures var (id, (db', active', r)) := (TargetId(q, d), RunErased(p, db, active, q, d));
            active' == active &&
            (r.Ok? <==>
               q.name in p.registry && (q.opts.partitionKey == "" || q.opts.dedupId == "") &&
               (q.opts.returnExisting ==> q.opts.dedupId != "") && !Duplicate(db.rows, q.opts.queue, q.opts.dedupId)) &&
            (r.Ok? ==>
               r.value == Polling(id) && id in db'.rows && MadeFor(p, q, d, db'.rows[id]) && Queued(q, d, db'.rows[id]) &&
               db'.rows == db.rows[id := db'.rows[id]]) &&
            (r.Err? ==> db' == db)
  {
    DuplicateIsTaken(db.rows, q.opts.queue, q.opts.dedupId);
    if q.name in p.registry && !OptionsRejected(q.opts) {
      NewRowInserts(db, InsertFor(p, q, d));
    }
  }

  lemma DuplicateIsTaken(rows: Rows, queue: string, dedupId: string)
    ensures SlotTaken(rows, Opt(queue), Opt(dedupId)) <==> Duplicate(rows, queue, dedupId)
  {
  }

  /** The known row is another workflow's, or on another queue. */
  predicate Clashes(row: Row, q: Request) {
    (q.name != "" && row.name != q.name) || (q.opts.queue != "" && row.queue.Some? && row.queue.value != q.opts.queue)
  }

  /** A request for an id that is known already: it fails, and changes nothing, exactly if the row
      is another workflow's or on another queue; otherwise it is answered with the known
      workflow, whose row is parked first if it has had all its attempts. It never launches a
      second body. A request that names no queue leaves the requesting process as the row's
      executor all the same, so that from then on it is that executor's recovery that lists the
      row. */
  lemma KnownRequest(p: Process, db: Db, active: Active, q: Request, d: Draw)
    requires Plain(q) && q.child == None && FreshOwner(db.rows, d) && TargetId(q, d) in db.rows
    requires q.name in p.registry && !OptionsRejected(q.opts)
    ensures var (id, (db', active', r)) := (TargetId(q, d), RunErased(p, db, active, q, d));
            var (row, max) := (db.rows[id], p.registry[q.name]);
            var moved := if q.opts.queue == "" then row.(executor := p.executor) else row;
            active' == active &&
            if Clashes(row, q) then r == Err(ConflictingWorkflow) && db' == db
            else if row.status != Success && row.status != Error && max > 0 && row.attempts > max + 1 then
              r == Err(DeadLetterQueue) && db' == db.(rows := db.rows[id := Park(moved)])
            else r == Ok(Polling(id)) && db' == db.(rows := db.rows[id := moved])
  {
    var i := InsertFor(p, q, d);
    var row := db.rows[i.s.id];
    var moved := if q.opts.queue == "" then row.(executor := p.executor) else row;
    assert Upsert(db.rows, i) == Ok(db.rows[i.s.id := moved]);
    assert db.rows[i.s.id := moved][i.s.id := Park(moved)] == db.rows[i.s.id := Park(moved)];
  }

  /** The row of a workflow that another process runs: after a request that is answered with it,
      the recovery pass of that process still lists it if and only if the request named a queue.
      Otherwise the row is taken over by a process that does not run it. */
  lemma TakenOverUnlessQueued(p: Process, db: Db, active: Active, q: Request, d: Draw, version: string)
    requires Plain(q) && q.child == None && FreshOwner(db.rows, d) && TargetId(q, d) in db.rows && TargetId(q, d) !in active
    requires var row := db.rows[TargetId(q, d)]; row.executor != p.executor && Recoverable(row, {row.executor}, version)
    requires RunErased(p, db, active, q, d).2.Ok?
    ensures var (id, (db', active', _)) := (TargetId(q, d), RunErased(p, db, active, q, d));
            id in db'.rows && id !in active' &&
            (Recoverable(db'.rows[id], {db.rows[id].executor}, version) <==> q.opts.queue != "") &&
            (q.opts.queue == "" ==> db'.rows[id].status == Pending && db'.rows[id].executor == p.executor)
  {
    KnownRequest(p, db, active, q, d);
  }

  lemma NewRowInserts(db: Db, i: InsertInput)
    requires i.s.id !in db.rows
    requires i.child.Some? ==>
               (i.child.value.parent in db.rows || i.child.value.parent == i.s.id) && i.child.value.step !in LogOf(db, i.child.value.parent)
    ensures var (db', r) := InsertWorkflowStatus(db, i);
            if SlotTaken(db.rows, Opt(i.s.queueName), Opt(i.s.dedupId)) then db' == db && r == Err(QueueDeduplicated)
            else r == Ok(ResultOf(NewRow(i))) && db'.rows == db.rows[i.s.id := NewRow(i)]
  {
  }

  // ---- delays ----

  /** A tick of the clock makes a delayed row wait on its queue exactly if its time has come, and
      changes nothing else. */
  lemma TickPromotesIff(rows: Rows, now: int, id: Id)
    requires id in rows
    ensures var rows' := TransitionDelayed(rows, now);
            id in rows' &&
            (rows[id].status == Delayed && rows[id].delayUntil.Some? ==>
               (rows'[id].status == Enqueued <==> rows[id].delayUntil.value <= now)) &&
            (rows'[id] != rows[id] ==> rows[id].status == Delayed && rows'[id] == rows[id].(status := Enqueued))
  {
  }

  /** No tick has reached the time, and nobody resumes the row or writes an outcome for it. */
  predicate LeavesDelayed(c: Call, id: Id, due: int) {
    c != ResumeIt(id) && !(c.Outcome? && c.id == id) && (c.Tick? ==> c.now < due)
  }

  /** Not claimable, and due as it was. */
  predicate HeldBack(row: Row, due: int) {
    row.delayUntil == Some(due) && (row.status == Delayed || row.status == Cancelled)
  }

  lemma StepKeepsDelayed(limits: map<string, Limits>, db: Db, c: Call, db': Db, id: Id, due: int)
    requires Step(limits, db, c, db') && id in db.rows && id in db'.rows && LeavesDelayed(c, id, due)
    requires HeldBack(db.rows[id], due)
    ensures HeldBack(db'.rows[id], due)
    ensures c.Poll? ==> id !in c.ids
  {
    match c
    case Insert(i) => InsertTouchesOneRow(db, i);
    case Poll(d, t0, ids, stamps, now) => if id in ids { ClaimedRow(db.rows, d, t0, ids, stamps, now, db'.rows, id); }
    case _ =>
  }

  lemma {:induction false} RunKeepsDelayed(limits: map<string, Limits>, dbs: seq<Db>, calls: seq<Call>, id: Id, due: int, k: nat)
    requires Run(limits, dbs, calls) && forall j :: 0 <= j < |dbs| ==> id in dbs[j].rows
    requires HeldBack(dbs[0].rows[id], due) && (forall j :: 0 <= j < |calls| ==> LeavesDelayed(calls[j], id, due)) && k <= |calls|
    ensures HeldBack(dbs[k].rows[id], due)
  {
    if k > 0 {
      RunKeepsDelayed(limits, dbs, calls, id, due, k - 1);
      assert Step(limits, dbs[k - 1], calls[k - 1], dbs[k]);
      StepKeepsDelayed(limits, dbs[k - 1], calls[k - 1], dbs[k], id, due);
    }
  }

  /** Until its time has come a delayed row is claimed by no poll of any queue, whatever else
      happens to the table. */
  lemma NeverClaimedEarly(limits: map<string, Limits>, dbs: seq<Db>, calls: seq<Call>, id: Id, due: int, k: nat)
    requires Run(limits, dbs, calls) && forall j :: 0 <= j < |dbs| ==> id in dbs[j].rows
    requires dbs[0].rows[id].status == Delayed && dbs[0].rows[id].delayUntil == Some(due)
    requires (forall j :: 0 <= j < |calls| ==> LeavesDelayed(calls[j], id, due)) && k < |calls| && calls[k].Poll?
    ensures id !in calls[k].ids && HeldBack(dbs[k + 1].rows[id], due)
  {
    RunKeepsDelayed(limits, dbs, calls, id, due, k);
    assert Step(limits, dbs[k], calls[k], dbs[k + 1]);
    StepKeepsDelayed(limits, dbs[k], calls[k], dbs[k + 1], id, due);
  }

  // ---- from the queue to the launch ----

  /** A row waits for a poll. */
  predicate WaitsFor(row: Row, i: DequeueInput) {
    row.status == Enqueued && row.queue == Some(i.queue) && (row.version == Some(i.version) || row.version == None)
  }

  /** The poll is of this process. */
  predicate PollsFor(p: Process, i: DequeueInput) {
    i.executor == p.executor && i.version == p.version
  }

  /** The deadline a body gets that is claimed from a queue. */
  function ClaimDeadline(row: Row, start: int): Option<int> {
    if row.deadline == None && row.timeoutMs.Some? then Some(start + row.timeoutMs.value) else row.deadline
  }

  /** A claimed row that is dispatched runs, on its input, for its queue, and until its deadline,
      exactly if its workflow is registered, it has attempts left, and it does not run here
      already. */
  lemma ClaimedLaunchesIff(p: Process, db: Db, active: Active, i: DequeueInput, t0: int, ids: seq<Id>, stamps: seq<int>,
                           now: int, rows': Rows, id: Id, d: Draw)
    requires Dequeued(db.rows, i, t0, ids, stamps, now, rows') && id in ids
    ensures id in db.rows && WaitsFor(db.rows[id], i) && id in rows' && rows'[id].startedAt.Some? && t0 <= rows'[id].startedAt.value <= now
    ensures var row := db.rows[id];
            var (_, active', r) := RunErased(p, db.(rows := rows'), active, DispatchRequest(id, rows'[id]), d);
            var launched := r.Ok? && r.value.Launched?;
            (launched <==> row.name in p.registry && (p.registry[row.name] <= 0 || row.attempts <= p.registry[row.name]) && id !in active) &&
            (launched ==>
               r.value == Launched(id, row.input, ClaimDeadline(row, rows'[id].startedAt.value)) &&
               active' == active[id := i.queue])
  {
    ClaimedIsReady(db.rows, i, t0, ids, stamps, now, rows', id);
    RerunLaunchesIff(p, db.(rows := rows'), active, id, DispatchRequest(id, rows'[id]), d);
  }

  /** What a claim makes of a waiting row, as far as the launch goes. */
  predicate Ready(row: Row, i: DequeueInput, t0: int, now: int, row': Row) {
    WaitsFor(row, i) && row'.startedAt.Some? && t0 <= row'.startedAt.value <= now &&
    row'.status == Pending && row'.queue == Some(i.queue) && row'.name == row.name && row'.input == row.input &&
    row'.attempts == row.attempts && row'.deadline == ClaimDeadline(row, row'.startedAt.value)
  }

  lemma ClaimedIsReady(rows: Rows, i: DequeueInput, t0: int, ids: seq<Id>, stamps: seq<int>, now: int, rows': Rows, id: Id)
    requires Dequeued(rows, i, t0, ids, stamps, now, rows') && id in ids
    ensures id in rows && id in rows' && Ready(rows[id], i, t0, now, rows'[id])
  {
    ClaimedRow(rows, i, t0, ids, stamps, now, rows', id);
  }

  /** After a poll the row is one that a recovery of this executor and version lists, and none of
      another executor or version. */
  lemma ClaimedIsRecoverable(rows: Rows, i: DequeueInput, t0: int, ids: seq<Id>, stamps: seq<int>, now: int, rows': Rows, id: Id,
                             executors: set<string>, version: string)
    requires Dequeued(rows, i, t0, ids, stamps, now, rows') && id in ids
    ensures id in rows'
    ensures Recoverable(rows'[id], executors, version) <==>
              (executors == {} || i.executor in executors) && (version == "" || version == i.version)
  {
    ClaimedRow(rows, i, t0, ids, stamps, now, rows', id);
  }

  /** A claimed row whose executor stopped waits for the same polls again once a recovery pass
      has succeeded. */
  lemma RecoveredWaitsAgain(p: Process, db: Db, active: Active, ids: seq<Id>, draws: seq<Draw>, id: Id, i: DequeueInput)
    requires |draws| == |ids| && Distinct(ids) && id in ids && "" !in p.registry
    requires forall k :: 0 <= k < |ids| ==> ids[k] in db.rows && db.rows[ids[k]].status == Pending
    requires RecoverAll(p, db, active, db.rows, ids, draws).2.Ok?
    requires db.rows[id].queue == Some(i.queue) && i.queue != "" && db.rows[id].version == Some(i.version)
    ensures var rows' := RecoverAll(p, db, active, db.rows, ids, draws).0.rows;
            id in rows' && WaitsFor(rows'[id], i) && rows'[id].input == db.rows[id].input && rows'[id].name == db.rows[id].name
  {
    RecoveryRestarts(p, db, active, ids, draws, id);
  }

  /** Giving a running row back makes it wait again for the polls of its queue; a row on no queue
      goes on as it is, and so does one that does not run. */
  lemma GivenBackIff(rows: Rows, id: Id, i: DequeueInput)
    requires id in rows
    ensures var (row, rows') := (rows[id], ClearQueueAssignment(rows, id));
            id in rows' && rows'.Keys == rows.Keys &&
            (row.status == Pending ==>
               (WaitsFor(rows'[id], i) <==> row.queue == Some(i.queue) && (row.version == Some(i.version) || row.version == None))) &&
            (row.status != Pending || row.queue == None ==> rows' == rows) &&
            (rows' != rows ==> rows'[id].startedAt == None && rows'[id].attempts == row.attempts && SameWork(row, rows'[id]))
  {
  }

  // ---- resume ----

  /** An unfinished row, cancelled or dead-lettered ones included, waits on the internal queue
      right after a resume, for every executor of its version. A finished one is left alone. */
  lemma ResumedWaits(rows: Rows, id: Id, i: DequeueInput)
    requires id in rows
    ensures var rows' := Resume(rows, id);
            id in rows' &&
            if Final(rows[id].status) then rows' == rows
            else WaitsFor(rows'[id], i) <==> i.queue == INTERNAL_QUEUE && (rows[id].version == Some(i.version) || rows[id].version == None)
  {
  }

  /** However often it was tried before, an unfinished row that is resumed and then claimed and
      dispatched runs: on its own input, and with its whole timeout counted from that start. */
  lemma ResumedLaunchesIff(p: Process, db: Db, active: Active, i: DequeueInput, t0: int, ids: seq<Id>, stamps: seq<int>,
                           now: int, rows': Rows, id: Id, d: Draw)
    requires id in db.rows && !Final(db.rows[id].status)
    requires Dequeued(Resume(db.rows, id), i, t0, ids, stamps, now, rows') && id in ids
    ensures i.queue == INTERNAL_QUEUE && id in rows' && rows'[id].startedAt.Some? && t0 <= rows'[id].startedAt.value <= now
    ensures var row := db.rows[id];
            var (_, active', r) := RunErased(p, db.(rows := rows'), active, DispatchRequest(id, rows'[id]), d);
            var start := rows'[id].startedAt.value;
            var deadline := if row.timeoutMs.Some? then Some(start + row.timeoutMs.value) else None;
            if row.name in p.registry && id !in active then
              r == Ok(Launched(id, row.input, deadline)) && active' == active[id := INTERNAL_QUEUE]
            else active' == active
  {
    ClaimedLaunchesIff(p, db.(rows := Resume(db.rows, id)), active, i, t0, ids, stamps, now, rows', id, d);
    ResumedWaits(db.rows, id, i);
    RerunLaunchesIff(p, db.(rows := rows'), active, id, DispatchRequest(id, rows'[id]), d);
  }

  // ---- forks ----

  /** A fork from any step that is not negative is made, of any workflow that is known, under any
      id that is not; a fork that is refused changes nothing. */
  lemma ForkSucceedsIff(db: Db, f: ForkInput, at: int)
    ensures var (db', r) := Fork(db, f, at);
            (r.Ok? <==> f.startStep >= 0 && f.original in db.rows && f.forked !in db.rows) &&
            (r.Ok? ==> r.value == f.forked) && (r.Err? ==> db' == db) &&
            (r == Err(NonExistentWorkflow) <==> f.startStep >= 0 && f.original !in db.rows)
  {
  }

  /** The queue and the version a fork asks for. */
  predicate ForkFor(f: ForkInput, orig: Row, i: DequeueInput) {
    i.queue == (if f.queue.Some? then f.queue.value else INTERNAL_QUEUE) &&
    (if f.version.Some? then i.version == f.version.value
     else if orig.version.Some? then i.version == orig.version.value
     else i.version == "")
  }

  /** A fork waits for exactly the polls of the queue and version it asks for, by default the
      internal queue and the original's version. An original without a version, which any
      executor would claim, has a fork that only executors without one do. */
  lemma ForkWaitsIff(db: Db, f: ForkInput, now: int, i: DequeueInput)
    requires Fork(db, f, now).1.Ok?
    ensures var rows' := Fork(db, f, now).0.rows;
            f.original in db.rows && f.forked in rows' && (WaitsFor(rows'[f.forked], i) <==> ForkFor(f, db.rows[f.original], i))
  {
  }

  /** Whatever became of the original, a fork that is claimed and dispatched runs on the original's
      input. */
  lemma ForkLaunchesIff(p: Process, db: Db, active: Active, f: ForkInput, at: int, i: DequeueInput, t0: int, ids: seq<Id>,
                        stamps: seq<int>, now: int, rows': Rows, d: Draw)
    requires Fork(db, f, at).1.Ok? && Dequeued(Fork(db, f, at).0.rows, i, t0, ids, stamps, now, rows') && f.forked in ids
    ensures f.original in db.rows && f.forked in rows'
    ensures var orig := db.rows[f.original];
            var (_, active', r) := RunErased(p, Fork(db, f, at).0.(rows := rows'), active, DispatchRequest(f.forked, rows'[f.forked]), d);
            if orig.name in p.registry && f.forked !in active then
              r == Ok(Launched(f.forked, orig.input, None)) && active' == active[f.forked := i.queue]
            else active' == active
  {
    var db1 := Fork(db, f, at).0;
    FreshFork(db, f, at);
    ClaimedLaunchesIff(p, db1, active, i, t0, ids, stamps, now, rows', f.forked, d);
    ClaimedRow(db1.rows, i, t0, ids, stamps, now, rows', f.forked);
    RerunLaunchesIff(p, db1.(rows := rows'), active, f.forked, DispatchRequest(f.forked, rows'[f.forked]), d);
  }

  /** A fork is a new row of the same work: untried, made now, of the lowest number of priority, and
      of no parent; it names its original, and its original is marked. */
  lemma FreshFork(db: Db, f: ForkInput, at: int)
    requires Fork(db, f, at).1.Ok?
    ensures var rows' := Fork(db, f, at).0.rows;
            f.original in db.rows && f.forked !in db.rows && f.forked in rows' && f.original in rows' &&
            var (orig, row) := (db.rows[f.original], rows'[f.forked]);
            row.status == Enqueued && row.name == orig.name && row.input == orig.input && row.attempts == 0 &&
            row.timeoutMs == None && row.deadline == None && row.startedAt == None && row.dedup == None &&
            row.createdAt == at && row.priority == 0 && row.parent == None && row.forkedFrom == Some(f.original) &&
            rows'[f.original] == orig.(wasForkedFrom := true)
  {
  }

  // ---- what a row keeps, and what ends it ----

  predicate SameWork(a: Row, b: Row) {
    b.name == a.name && b.input == a.input && b.owner == a.owner && b.parent == a.parent && b.priority == a.priority &&
    b.createdAt == a.createdAt && b.timeoutMs == a.timeoutMs && b.forkedFrom == a.forkedFrom
  }

  lemma StepKeepsWork(limits: map<string, Limits>, db: Db, c: Call, db': Db, id: Id)
    requires Step(limits, db, c, db') && id in db.rows && id in db'.rows
    ensures SameWork(db.rows[id], db'.rows[id])
  {
    match c
    case Insert(i) => InsertTouchesOneRow(db, i);
    case Poll(d, t0, ids, stamps, now) => if id in ids { ClaimedRow(db.rows, d, t0, ids, stamps, now, db'.rows, id); }
    case _ => UpdateKeepsWork(limits, db, c, db', id);
  }

  lemma UpdateKeepsWork(limits: map<string, Limits>, db: Db, c: Call, db': Db, id: Id)
    requires Step(limits, db, c, db') && !c.Insert? && !c.Poll? && id in db.rows && id in db'.rows
    ensures SameWork(db.rows[id], db'.rows[id])
  {
  }

  /** Over every run of statements a row keeps what it runs and on which input, so that every
      later launch gets the input of the request that made the row. */
  lemma {:induction false} RunKeepsWork(limits: map<string, Limits>, dbs: seq<Db>, calls: seq<Call>, id: Id, k: nat)
    requires Run(limits, dbs, calls) && (forall j :: 0 <= j < |dbs| ==> id in dbs[j].rows) && k <= |calls|
    ensures SameWork(dbs[0].rows[id], dbs[k].rows[id])
  {
    if k > 0 {
      RunKeepsWork(limits, dbs, calls, id, k - 1);
      StepKeepsWork(limits, dbs[k - 1], calls[k - 1], dbs[k], id);
    }
  }

  /** A row that is cancelled while unfinished is taken out of everything: it waits for no poll,
      counts against no limit, and its slot is free. */
  lemma CancelledCountsNowhere(rows: Rows, id: Id, queue: string, i: DequeueInput, after: int)
    requires id in rows && !Final(rows[id].status) && rows[id].status != Cancelled
    ensures var rows' := Cancel(rows, id);
            id in rows' && rows'[id].status == Cancelled && rows'[id].queue == None && rows'[id].dedup == None && rows'[id].startedAt == None &&
            !WaitsFor(rows'[id], i) && id !in PendingIds(rows', queue) && id !in StartedAfter(rows', queue, after) &&
            SameWork(rows[id], rows'[id]) && rows'[id].attempts == rows[id].attempts && rows'[id].version == rows[id].version
  {
  }

  /** A parked row is dead: on no queue, in no count and in no slot, but with its work kept. */
  lemma ParkedCountsNowhere(row: Row, i: DequeueInput)
    requires row.status == Pending
    ensures var row' := Park(row);
            row'.status == DeadLetter && row'.queue == None && row'.dedup == None && row'.startedAt == None &&
            !WaitsFor(row', i) && SameWork(row, row') && row'.attempts == row.attempts
  {
  }
}
