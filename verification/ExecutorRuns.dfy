/** Two guarantees that span the run core, the queue runner, recovery and every other
    statement: how often a body is launched, and how many run on one worker. */
module ExecutorRuns {
  import opened Wrappers
  import opened Tables
  import opened Queues
  import opened TableRuns
  import opened Executor

  /** An owner token is a fresh uuid. */
  predicate FreshOwner(rows: Rows, d: Draw) {
    d.owner != "" && forall id :: id in rows ==> rows[id].owner != Some(d.owner)
  }

  /** A dispatched or recovered row is run by its id, outside any queue. */
  predicate WellFormed(q: Request) {
    q.flags.isDequeue || q.flags.isRecovery ==>
      q.opts == DEFAULT_OPTIONS.(workflowId := q.opts.workflowId) && q.opts.workflowId.Some? && q.child == None
  }

  function TargetId(q: Request, d: Draw): Id {
    if q.opts.workflowId.Some? then q.opts.workflowId.value
    else if q.child.Some? then q.child.value.derivedId else d.uuid
  }

  // ---- launches of one row ----

  /** A run request by any process of the fleet, or any other statement. A client outside
      the fleet inserts waiting rows only. */
  datatype Act = Start(p: Process, active: Active, q: Request, d: Draw) | Statement(c: Call)

  /** The tables, and how often each row's body was launched since the row was created or
      last resumed. */
  datatype Ledger = Ledger(db: Db, launches: map<Id, nat>)

  function CountOf(l: Ledger, id: Id): nat {
    if id in l.launches then l.launches[id] else 0
  }

  ghost predicate ActStep(registry: map<string, int>, limits: map<string, Limits>, l: Ledger, a: Act, l': Ledger) {
    match a
    case Start(p, active, q, d) =>
      p.registry == registry && WellFormed(q) && FreshOwner(l.db.rows, d) &&
      l'.db == RunErased(p, l.db, active, q, d).0 &&
      var id := TargetId(q, d);
      var was := if id in l.db.rows then CountOf(l, id) else 0;
      l'.launches == l.launches[id := if Launches(p, l.db, active, q, d) then was + 1 else was]
    case Statement(c) =>
      (c.Insert? ==> Waiting(c.i.s.status)) && Step(limits, l.db, c, l'.db) &&
      l'.launches ==
        match c
        case ResumeIt(id) => if id in l.db.rows && !Final(l.db.rows[id].status) then l.launches[id := 0] else l.launches
        case Insert(i) => if i.s.id in l.db.rows then l.launches else l.launches[i.s.id := 0]
        case ForkIt(f, _) => if f.forked in l.db.rows then l.launches else l.launches[f.forked := 0]
        case _ => l.launches
  }

  ghost predicate LaunchesBounded(registry: map<string, int>, l: Ledger) {
    forall id :: id in l.db.rows ==> RowBounded(registry, l.db.rows[id], CountOf(l, id))
  }

  /** Attempts count the launches, and the registered maximum bounds them. */
  predicate RowBounded(registry: map<string, int>, row: Row, launches: nat) {
    launches <= row.attempts &&
    (row.name in registry && registry[row.name] > 0 ==> launches <= registry[row.name] + 1)
  }

  /** An insert for a known row counts an attempt or not, and fails beyond the bound. */
  lemma KnownInsertCounts(db: Db, i: InsertInput)
    requires i.s.id in db.rows
    ensures var (row, (db', r)) := (db.rows[i.s.id], InsertWorkflowStatus(db, i));
            var tried := row.attempts + if i.incrementAttempts && !Waiting(i.s.status) then 1 else 0;
            i.s.id in db'.rows && db'.rows[i.s.id].name == row.name && row.attempts <= db'.rows[i.s.id].attempts &&
            (r.Ok? ==> db'.rows[i.s.id].attempts == tried) &&
            (r.Ok? ==> row.status == Success || row.status == Error || i.maxRetries <= 0 || tried <= i.maxRetries + 1)
  {
    InsertTouchesOneRow(db, i);
  }

  lemma KnownKeepsRow(p: Process, db: Db, active: Active, q: Request, d: Draw, n: nat)
    requires WellFormed(q) && FreshOwner(db.rows, d) && "" !in p.registry
    requires q.name in p.registry && TargetId(q, d) in db.rows && RowBounded(p.registry, db.rows[TargetId(q, d)], n)
    ensures var (id, db') := (TargetId(q, d), RunErased(p, db, active, q, d).0);
            id in db'.rows && RowBounded(p.registry, db'.rows[id], if Launches(p, db, active, q, d) then n + 1 else n)
  {
    KnownInsertCounts(db, InsertFor(p, q, d));
    if !q.flags.isDequeue && !q.flags.isRecovery {
      KnownIsNotLaunched(p, db, active, q, d);
    }
  }

  lemma NewKeepsRow(p: Process, db: Db, active: Active, q: Request, d: Draw)
    requires WellFormed(q) && FreshOwner(db.rows, d) && q.name in p.registry && TargetId(q, d) !in db.rows
    ensures var (id, db') := (TargetId(q, d), RunErased(p, db, active, q, d).0);
            id in db'.rows ==> RowBounded(p.registry, db'.rows[id], if Launches(p, db, active, q, d) then 1 else 0)
  {
    InsertTouchesOneRow(db, InsertFor(p, q, d));
  }

  /** A launching insert is recorded in the attempts of its row, within the bound. */
  lemma StartKeepsRow(p: Process, db: Db, active: Active, q: Request, d: Draw, n: nat)
    requires WellFormed(q) && FreshOwner(db.rows, d) && "" !in p.registry
    requires var id := TargetId(q, d); id in db.rows ==> RowBounded(p.registry, db.rows[id], n)
    ensures var id := TargetId(q, d);
            var was := if id in db.rows then n else 0;
            id in RunErased(p, db, active, q, d).0.rows ==>
              RowBounded(p.registry, RunErased(p, db, active, q, d).0.rows[id],
                         if Launches(p, db, active, q, d) then was + 1 else was)
  {
    if q.name in p.registry {
      if TargetId(q, d) in db.rows {
        KnownKeepsRow(p, db, active, q, d, n);
      } else {
        NewKeepsRow(p, db, active, q, d);
      }
    }
  }

  lemma StartKeepsOthers(p: Process, db: Db, active: Active, q: Request, d: Draw, id: Id)
    requires id != TargetId(q, d)
    ensures var rows' := RunErased(p, db, active, q, d).0.rows;
            (id in rows' <==> id in db.rows) && (id in db.rows ==> rows'[id] == db.rows[id])
  {
    if q.name in p.registry && !OptionsRejected(q.opts) {
      InsertTouchesOneRow(db, InsertFor(p, q, d));
    }
  }

  /** Attempts fall only at a resume. */
  lemma StatementKeepsAttempts(limits: map<string, Limits>, db: Db, c: Call, db': Db, id: Id)
    requires Step(limits, db, c, db') && (c.Insert? ==> Waiting(c.i.s.status))
    requires id in db'.rows
    ensures id in db.rows && c != ResumeIt(id) ==>
              db'.rows[id].attempts >= db.rows[id].attempts && db'.rows[id].name == db.rows[id].name
    ensures id !in db.rows ==>
              db'.rows[id].attempts == 0 &&
              ((c.Insert? && id == c.i.s.id) || (c.ForkIt? && id == c.f.forked))
  {
    match c
    case Insert(i) => InsertTouchesOneRow(db, i);
    case Poll(d, _, ids, stamps, _) =>
      if id in ids {
        var k :| 0 <= k < |ids| && ids[k] == id;
      }
    case _ => UpdateKeepsAttempts(limits, db, c, db', id);
  }

  lemma UpdateKeepsAttempts(limits: map<string, Limits>, db: Db, c: Call, db': Db, id: Id)
    requires Step(limits, db, c, db') && !c.Insert? && !c.Poll? && id in db'.rows
    ensures id in db.rows && c != ResumeIt(id) ==>
              db'.rows[id].attempts == db.rows[id].attempts && db'.rows[id].name == db.rows[id].name
    ensures id !in db.rows ==> db'.rows[id].attempts == 0 && c.ForkIt? && id == c.f.forked
  {
  }

  lemma ActKeepsBound(registry: map<string, int>, limits: map<string, Limits>, l: Ledger, a: Act, l': Ledger)
    requires "" !in registry
    requires LaunchesBounded(registry, l) && ActStep(registry, limits, l, a, l')
    ensures LaunchesBounded(registry, l')
  {
    forall id | id in l'.db.rows ensures RowBounded(registry, l'.db.rows[id], CountOf(l', id)) {
      match a
      case Start(p, active, q, d) =>
        if id == TargetId(q, d) {
          StartKeepsRow(p, l.db, active, q, d, CountOf(l, id));
        } else {
          StartKeepsOthers(p, l.db, active, q, d, id);
        }
      case Statement(c) => StatementKeepsAttempts(limits, l.db, c, l'.db, id);
    }
  }

  ghost predicate ActRun(registry: map<string, int>, limits: map<string, Limits>, ls: seq<Ledger>, acts: seq<Act>) {
    |ls| == |acts| + 1 && forall k :: 0 <= k < |acts| ==> ActStep(registry, limits, ls[k], acts[k], ls[k + 1])
  }

  /** Whatever mix of direct runs, dispatches and recoveries happens on however many
      processes, a body is launched at most maximum + 1 times per creation or resume of its
      row, when the registered maximum is positive. */
  lemma {:induction false} LaunchBoundHolds(registry: map<string, int>, limits: map<string, Limits>,
                                            ls: seq<Ledger>, acts: seq<Act>)
    requires "" !in registry && ActRun(registry, limits, ls, acts) && LaunchesBounded(registry, ls[0])
    ensures LaunchesBounded(registry, ls[|acts|])
  {
    if |acts| > 0 {
      var n := |acts| - 1;
      LaunchBoundHolds(registry, limits, ls[..n + 1], acts[..n]);
      ActKeepsBound(registry, limits, ls[n], acts[n], ls[n + 1]);
    }
  }

  lemma KnownIsNotLaunched(p: Process, db: Db, active: Active, q: Request, d: Draw)
    requires FreshOwner(db.rows, d) && !q.flags.isDequeue && !q.flags.isRecovery && TargetId(q, d) in db.rows
    ensures !Launches(p, db, active, q, d)
  {
  }

  /** A plain request launches only by creating the row: of all the plain runs of one id, the
      original inserter alone executes. */
  lemma PlainRunLaunchesOnlyNewRow(p: Process, db: Db, active: Active, q: Request, d: Draw)
    requires FreshOwner(db.rows, d) && !q.flags.isDequeue && !q.flags.isRecovery
    requires Launches(p, db, active, q, d)
    ensures TargetId(q, d) !in db.rows && q.opts.queue == ""
    ensures var db' := RunErased(p, db, active, q, d).0;
            TargetId(q, d) in db'.rows && db'.rows[TargetId(q, d)].owner == Some(d.owner)
  {
    if TargetId(q, d) in db.rows {
      KnownIsNotLaunched(p, db, active, q, d);
    } else {
      InsertTouchesOneRow(db, InsertFor(p, q, d));
    }
  }

  // ---- the worker limit of one process ----

  datatype Runner =
    | Idle
    | Counted(d: DequeueInput)
    | Dispatching(queue: string, todo: seq<Id>)

  /** One process: what runs here, where its queue runner is, and the direct rows a recovery
      pass has listed but not yet rerun. */
  datatype Worker = Worker(db: Db, active: Active, runner: Runner, listed: set<Id>)

  datatype Event =
    | Count(d: DequeueInput)
    | ClaimPoll(t0: int, ids: seq<Id>, stamps: seq<int>, now: int)
    | DispatchNext(r: Draw)
    | List(found: set<Id>)
    | RecoverListed(id: Id, r: Draw)
    | RunPlain(q: Request, r: Draw)
    | Finish(id: Id)
    | Elsewhere(c: Call)

  /** The worker limit of a queue, if it has one. */
  function LimitOf(workers: map<string, int>, queue: string): Option<int> {
    if queue in workers then Some(workers[queue]) else None
  }

  /** One step of the process or of anybody else on the same database. Rows are not deleted
      while the process runs. */
  ghost predicate WorkerStep(p: Process, limits: map<string, Limits>, workers: map<string, int>,
                             w: Worker, e: Event, w': Worker)
  {
    match e
    case Count(d) =>
      w.runner == Idle && d.workerLimit == LimitOf(workers, d.queue) &&
      d.localRunning == |InQueue(w.active, d.queue)| && w' == w.(runner := Counted(d))
    case ClaimPoll(t0, ids, stamps, now) =>
      w.runner.Counted? && Dequeued(w.db.rows, w.runner.d, t0, ids, stamps, now, w'.db.rows) &&
      w' == w.(db := w.db.(rows := w'.db.rows), runner := Dispatching(w.runner.d.queue, ids))
    case DispatchNext(r) =>
      w.runner.Dispatching? &&
      (if w.runner.todo == [] then w' == w.(runner := Idle)
       else
         var id := w.runner.todo[0];
         id in w.db.rows &&
         var (db, active, _) := RunErased(p, w.db, w.active, DispatchRequest(id, w.db.rows[id]), r);
         w' == w.(db := db, active := active, runner := Dispatching(w.runner.queue, w.runner.todo[1..])))
    case List(found) =>
      (forall id :: id in found ==> id in w.db.rows && w.db.rows[id].queue == None) &&
      w' == w.(listed := w.listed + found)
    case RecoverListed(id, r) =>
      id in w.listed && id in w.db.rows &&
      var (db, active, _) := RunErased(p, w.db, w.active, RecoveryRequest(id, w.db.rows[id]), r);
      w' == w.(db := db, active := active)
    case RunPlain(q, r) =>
      !q.flags.isDequeue && !q.flags.isRecovery && FreshOwner(w.db.rows, r) &&
      var (db, active, _) := RunErased(p, w.db, w.active, q, r);
      w' == w.(db := db, active := active)
    case Finish(id) => w' == w.(active := w.active - {id})
    case Elsewhere(c) => !c.DeleteIt? && Step(limits, w.db, c, w'.db) && w' == w.(db := w'.db)
  }

  /** Rows this process means to start from a queue have not moved to another one: a row only
      ever leaves its queue for none or for the internal queue. */
  predicate FromQueue(rows: Rows, id: Id, queue: Option<string>) {
    id in rows && (rows[id].queue == queue || rows[id].queue == None || rows[id].queue == Some(INTERNAL_QUEUE))
  }

  function Load(w: Worker, queue: string): nat {
    |InQueue(w.active, queue)| +
    if w.runner.Dispatching? && w.runner.queue == queue then |w.runner.todo| else 0
  }

  ghost predicate WorkerInv(workers: map<string, int>, w: Worker) {
    (forall q :: q in workers && q != INTERNAL_QUEUE ==> Load(w, q) <= Max(workers[q], 0)) &&
    (w.runner.Counted? ==>
       w.runner.d.workerLimit == LimitOf(workers, w.runner.d.queue) &&
       (w.runner.d.queue in workers && w.runner.d.queue != INTERNAL_QUEUE ==> |InQueue(w.active, w.runner.d.queue)| <= w.runner.d.localRunning)) &&
    (w.runner.Dispatching? ==>
       forall k :: 0 <= k < |w.runner.todo| ==> FromQueue(w.db.rows, w.runner.todo[k], Some(w.runner.queue))) &&
    forall id :: id in w.listed ==> FromQueue(w.db.rows, id, None)
  }

  /** No statement but a delete moves a row into a queue other than the internal one. */
  lemma StatementKeepsQueue(limits: map<string, Limits>, db: Db, c: Call, db': Db, id: Id, queue: Option<string>)
    requires Step(limits, db, c, db') && !c.DeleteIt? && FromQueue(db.rows, id, queue)
    ensures FromQueue(db'.rows, id, queue)
  {
    match c
    case Insert(i) => InsertTouchesOneRow(db, i);
    case Poll(d, _, ids, stamps, _) => PollKeepsQueue(db.rows, d, ids, stamps, db'.rows, id);
    case _ =>
  }

  lemma PollKeepsQueue(rows: Rows, d: DequeueInput, ids: seq<Id>, stamps: seq<int>, rows': Rows, id: Id)
    requires Claimed(rows, d, ids, stamps, rows') && id in rows
    ensures id in rows' && rows'[id].queue == rows[id].queue
  {
    if id in ids {
      var k :| 0 <= k < |ids| && ids[k] == id;
    }
  }

  /** A run request keeps rows in their queues, and starts one from a queue only if its row
      was in that queue. */
  lemma RunKeepsQueue(p: Process, db: Db, active: Active, q: Request, r: Draw, id: Id, queue: Option<string>)
    requires FromQueue(db.rows, id, queue)
    ensures FromQueue(RunErased(p, db, active, q, r).0.rows, id, queue)
  {
    if q.name in p.registry && !OptionsRejected(q.opts) {
      InsertTouchesOneRow(db, InsertFor(p, q, r));
      var rows' := RunErased(p, db, active, q, r).0.rows;
      assert rows' == InsertWorkflowStatus(db, InsertFor(p, q, r)).0.rows;
    }
  }

  lemma RunAddsOne(p: Process, db: Db, active: Active, q: Request, r: Draw, queue: string)
    ensures |InQueue(RunErased(p, db, active, q, r).1, queue)| <= |InQueue(active, queue)| + 1
  {
    SubsetSize(InQueue(RunErased(p, db, active, q, r).1, queue), InQueue(active, queue) + {TargetId(q, r)});
  }

  /** What a run request does to the set of runs of one queue. */
  lemma RunAddsFrom(p: Process, db: Db, active: Active, q: Request, r: Draw, queue: string)
    requires queue != "" && queue != INTERNAL_QUEUE
    ensures var active' := RunErased(p, db, active, q, r).1;
            |InQueue(active', queue)| <= |InQueue(active, queue)| + 1
    ensures TargetId(q, r) in db.rows && db.rows[TargetId(q, r)].queue != Some(queue)
            ==> InQueue(RunErased(p, db, active, q, r).1, queue) <= InQueue(active, queue)
    ensures !q.flags.isDequeue && !q.flags.isRecovery && FreshOwner(db.rows, r)
            ==> InQueue(RunErased(p, db, active, q, r).1, queue) <= InQueue(active, queue)
  {
    RunAddsOne(p, db, active, q, r, queue);
    if q.name in p.registry && !OptionsRejected(q.opts) {
      InsertTouchesOneRow(db, InsertFor(p, q, r));
    }
  }

  /** The rows part of the invariant. */
  lemma StepKeepsSources(p: Process, limits: map<string, Limits>, workers: map<string, int>,
                         w: Worker, e: Event, w': Worker, id: Id, queue: Option<string>)
    requires WorkerStep(p, limits, workers, w, e, w') && FromQueue(w.db.rows, id, queue)
    ensures FromQueue(w'.db.rows, id, queue)
  {
    match e
    case ClaimPoll(_, ids, stamps, _) => PollKeepsQueue(w.db.rows, w.runner.d, ids, stamps, w'.db.rows, id);
    case DispatchNext(r) =>
      if w.runner.todo != [] {
        var t := w.runner.todo[0];
        RunKeepsQueue(p, w.db, w.active, DispatchRequest(t, w.db.rows[t]), r, id, queue);
      }
    case RecoverListed(t, r) => RunKeepsQueue(p, w.db, w.active, RecoveryRequest(t, w.db.rows[t]), r, id, queue);
    case RunPlain(q, r) => RunKeepsQueue(p, w.db, w.active, q, r, id, queue);
    case Elsewhere(c) => StatementKeepsQueue(limits, w.db, c, w'.db, id, queue);
    case _ =>
  }

  /** The load part: only the runner adds runs of a queue, one per claimed row. */
  lemma StepKeepsLoad(p: Process, limits: map<string, Limits>, workers: map<string, int>,
                      w: Worker, e: Event, w': Worker, queue: string)
    requires WorkerStep(p, limits, workers, w, e, w') && WorkerInv(workers, w)
    requires queue in workers && queue != "" && queue != INTERNAL_QUEUE
    ensures Load(w', queue) <= Max(workers[queue], 0)
    ensures !e.ClaimPoll? ==> |InQueue(w'.active, queue)| <= |InQueue(w.active, queue)| || w.runner.Dispatching?
  {
    assert Load(w, queue) <= Max(workers[queue], 0);
    match e
    case ClaimPoll(t0, ids, _, _) => ClaimCountBound(w.db.rows, w.runner.d, t0);
    case DispatchNext(r) =>
      if w.runner.todo != [] {
        var t := w.runner.todo[0];
        RunAddsFrom(p, w.db, w.active, DispatchRequest(t, w.db.rows[t]), r, queue);
        assert FromQueue(w.db.rows, w.runner.todo[0], Some(w.runner.queue));
        SubsetOrOne(w, w', queue);
      }
    case RecoverListed(t, r) =>
      RunAddsFrom(p, w.db, w.active, RecoveryRequest(t, w.db.rows[t]), r, queue);
      SubsetOrOne(w, w', queue);
    case RunPlain(q, r) =>
      RunAddsFrom(p, w.db, w.active, q, r, queue);
      SubsetOrOne(w, w', queue);
    case Finish(id) => SubsetOrOne(w, w', queue);
    case _ =>
  }

  lemma SubsetOrOne(w: Worker, w': Worker, queue: string)
    ensures InQueue(w'.active, queue) <= InQueue(w.active, queue) ==>
              |InQueue(w'.active, queue)| <= |InQueue(w.active, queue)|
  {
    if InQueue(w'.active, queue) <= InQueue(w.active, queue) {
      SubsetSize(InQueue(w'.active, queue), InQueue(w.active, queue));
    }
  }

  /** The runner's own part: what it counted stays an upper bound, what it has still to start
      stays in its queue. */
  lemma StepKeepsTodo(p: Process, limits: map<string, Limits>, workers: map<string, int>,
                      w: Worker, e: Event, w': Worker)
    requires "" !in workers && WorkerStep(p, limits, workers, w, e, w') && WorkerInv(workers, w)
    ensures w'.runner.Counted? ==>
              w'.runner.d.workerLimit == LimitOf(workers, w'.runner.d.queue) &&
              (w'.runner.d.queue in workers && w'.runner.d.queue != INTERNAL_QUEUE ==>
                 |InQueue(w'.active, w'.runner.d.queue)| <= w'.runner.d.localRunning)
    ensures w'.runner.Dispatching? ==>
              forall k :: 0 <= k < |w'.runner.todo| ==> FromQueue(w'.db.rows, w'.runner.todo[k], Some(w'.runner.queue))
  {
    if w'.runner.Counted? {
      var q := w'.runner.d.queue;
      if w.runner == w'.runner && q in workers && q != INTERNAL_QUEUE { StepKeepsLoad(p, limits, workers, w, e, w', q); }
    }
    if w'.runner.Dispatching? {
      var source := Some(w'.runner.queue);
      forall k | 0 <= k < |w'.runner.todo| ensures FromQueue(w'.db.rows, w'.runner.todo[k], source) {
        var id := w'.runner.todo[k];
        if e.ClaimPoll? {
          assert id in EligibleIds(w.db.rows, w.runner.d);
        } else if e.DispatchNext? {
          assert id == w.runner.todo[k + 1];
        }
        assert FromQueue(w.db.rows, id, source);
        StepKeepsSources(p, limits, workers, w, e, w', id, source);
      }
    }
  }

  lemma WorkerStepKeepsInv(p: Process, limits: map<string, Limits>, workers: map<string, int>,
                           w: Worker, e: Event, w': Worker)
    requires "" !in workers && WorkerStep(p, limits, workers, w, e, w') && WorkerInv(workers, w)
    ensures WorkerInv(workers, w')
  {
    forall q | q in workers && q != INTERNAL_QUEUE ensures Load(w', q) <= Max(workers[q], 0) {
      StepKeepsLoad(p, limits, workers, w, e, w', q);
    }
    StepKeepsTodo(p, limits, workers, w, e, w');
    forall id | id in w'.listed ensures FromQueue(w'.db.rows, id, None) {
      if id in w.listed { StepKeepsSources(p, limits, workers, w, e, w', id, None); }
    }
  }

  ghost predicate WorkerRun(p: Process, limits: map<string, Limits>, workers: map<string, int>,
                            ws: seq<Worker>, es: seq<Event>)
  {
    |ws| == |es| + 1 && forall k :: 0 <= k < |es| ==> WorkerStep(p, limits, workers, ws[k], es[k], ws[k + 1])
  }

  /** With one queue runner per process, no more runs claimed from a queue are active here
      than its worker limit, in every reachable state; the internal queue is excepted, since
      a resume moves rows into it. */
  lemma {:induction false} WorkerCapHolds(p: Process, limits: map<string, Limits>, workers: map<string, int>,
                                          ws: seq<Worker>, es: seq<Event>)
    requires "" !in workers && WorkerRun(p, limits, workers, ws, es) && WorkerInv(workers, ws[0])
    ensures WorkerInv(workers, ws[|es|])
  {
    if |es| > 0 {
      var n := |es| - 1;
      WorkerCapHolds(p, limits, workers, ws[..n + 1], es[..n]);
      WorkerStepKeepsInv(p, limits, workers, ws[n], es[n], ws[n + 1]);
    }
  }
}
