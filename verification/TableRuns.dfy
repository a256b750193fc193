/** What every run of the workflow table keeps, whichever statements callers interleave:
    deduplication slots, final states, global queue limits and rate windows. */
module TableRuns {
  import opened Wrappers
  import opened Tables
  import opened Queues

  /** The limits every executor registers for a queue. */
  datatype Limits = Limits(globalLimit: Option<int>, rate: Option<RateLimit>)

  datatype Call =
    | Insert(i: InsertInput)
    | Outcome(id: Id, status: Status, output: Option<string>, error: string)
    | Clear(id: Id)
    | Poll(d: DequeueInput, t0: int, ids: seq<Id>, stamps: seq<int>, now: int)
    | Tick(now: int)
    | CancelIt(id: Id)
    | ResumeIt(id: Id)
    | DeleteIt(id: Id)
    | ForkIt(f: ForkInput, now: int)

  /** How the engine uses the statements: a row is inserted as PENDING only when it names no
      queue, an outcome is SUCCESS or ERROR, and polls carry the registered limits. */
  predicate Legal(limits: map<string, Limits>, c: Call) {
    match c
    case Insert(i) => (i.s.status == Pending && i.s.queueName == "") || Waiting(i.s.status)
    case Outcome(_, s, _, _) => s == Success || s == Error
    case Poll(d, _, _, _, _) =>
      d.queue in limits && limits[d.queue] == Limits(d.globalLimit, d.rate)
    case _ => true
  }

  ghost predicate Step(limits: map<string, Limits>, db: Db, c: Call, db': Db) {
    Legal(limits, c) &&
    match c
    case Insert(i) => db' == InsertWorkflowStatus(db, i).0
    case Outcome(id, s, o, e) => db' == db.(rows := UpdateOutcome(db.rows, id, s, o, e))
    case Clear(id) => db' == db.(rows := ClearQueueAssignment(db.rows, id))
    case Poll(d, t0, ids, stamps, now) =>
      db' == db.(rows := db'.rows) && Dequeued(db.rows, d, t0, ids, stamps, now, db'.rows)
    case Tick(now) => db' == db.(rows := TransitionDelayed(db.rows, now))
    case CancelIt(id) => db' == db.(rows := Cancel(db.rows, id))
    case ResumeIt(id) => db' == db.(rows := Resume(db.rows, id))
    case DeleteIt(id) => db' == Delete(db, id)
    case ForkIt(f, now) => db' == Fork(db, f, now).0
  }

  ghost predicate Run(limits: map<string, Limits>, dbs: seq<Db>, calls: seq<Call>) {
    |dbs| == |calls| + 1 && forall k :: 0 <= k < |calls| ==> Step(limits, dbs[k], calls[k], dbs[k + 1])
  }

  // ---- the invariant ----

  /** At most one row holds each (queue, deduplication id). */
  ghost predicate UniqueSlots(rows: Rows) {
    forall a, b :: a in rows && b in rows && a != b && rows[a].dedup.Some? && rows[a].queue.Some?
      ==> rows[a].queue != rows[b].queue || rows[a].dedup != rows[b].dedup
  }

  predicate Final(s: Status) {
    s == Success || s == Error
  }

  /** A finished, cancelled or dead-lettered row holds no slot, and a row that waits has no
      start time. */
  predicate Sound(row: Row) {
    (Final(row.status) || row.status == Cancelled || row.status == DeadLetter ==> row.dedup == None) &&
    (Waiting(row.status) ==> row.startedAt == None)
  }

  ghost predicate CapKept(rows: Rows, queue: string, l: Limits) {
    l.globalLimit.Some? ==> |PendingIds(rows, queue)| <= Max(l.globalLimit.value, 0)
  }

  ghost predicate WindowKept(rows: Rows, queue: string, l: Limits, a: int) {
    l.rate.Some? ==>
      |StartedIn(rows, queue, a, a + l.rate.value.periodMs)| <= Max(l.rate.value.limit, 0)
  }

  ghost predicate Inv(limits: map<string, Limits>, rows: Rows) {
    UniqueSlots(rows) &&
    (forall id :: id in rows ==> Sound(rows[id])) &&
    (forall q :: q in limits ==> CapKept(rows, q, limits[q])) &&
    forall q, a :: q in limits ==> WindowKept(rows, q, limits[q], a)
  }

  // ---- every statement but the poll: rows only leave the counts ----

  /** b may follow a in a statement that claims nothing. */
  predicate Eased(a: Row, b: Row) {
    (b.dedup == None || (b.dedup == a.dedup && b.queue == a.queue)) &&
    (b.status == Pending ==> a.status == Pending && (b.queue == a.queue || b.queue == None)) &&
    (b.startedAt.Some? && !Waiting(b.status) ==>
       a.startedAt == b.startedAt && b.rateLimited == a.rateLimited && (b.queue == a.queue || b.queue == None)) &&
    Sound(b)
  }

  predicate Unstarted(row: Row) {
    row.startedAt == None && (row.status == Pending ==> row.queue == None) && Sound(row)
  }

  ghost predicate Settled(rows: Rows, rows': Rows) {
    (forall id :: id in rows' && id in rows ==> Eased(rows[id], rows'[id])) &&
    (forall id :: id in rows' && id !in rows ==>
       Unstarted(rows'[id]) && !SlotTaken(rows, rows'[id].queue, rows'[id].dedup)) &&
    forall a, b :: a in rows' && b in rows' && a !in rows && b !in rows ==> a == b
  }

  lemma SettledKeepsSlots(rows: Rows, rows': Rows)
    requires UniqueSlots(rows) && Settled(rows, rows')
    ensures UniqueSlots(rows')
  {
    forall a, b | a in rows' && b in rows' && a != b && rows'[a].dedup.Some? && rows'[a].queue.Some?
      ensures rows'[a].queue != rows'[b].queue || rows'[a].dedup != rows'[b].dedup
    {
      if a !in rows && b in rows {
        assert rows'[b].dedup == None || rows'[b].dedup == rows[b].dedup;
      }
    }
  }

  lemma SettledKeepsCounts(rows: Rows, rows': Rows, queue: string, l: Limits, a: int)
    requires Settled(rows, rows')
    requires forall id :: id in rows ==> Sound(rows[id])
    requires CapKept(rows, queue, l) && WindowKept(rows, queue, l, a)
    ensures CapKept(rows', queue, l) && WindowKept(rows', queue, l, a)
  {
    SubsetSize(PendingIds(rows', queue), PendingIds(rows, queue));
    if l.rate.Some? {
      var b := a + l.rate.value.periodMs;
      SubsetSize(StartedIn(rows', queue, a, b), StartedIn(rows, queue, a, b));
    }
  }

  lemma SettledKeepsInv(limits: map<string, Limits>, rows: Rows, rows': Rows)
    requires Inv(limits, rows) && Settled(rows, rows')
    ensures Inv(limits, rows')
  {
    SettledKeepsSlots(rows, rows');
    forall q, a | q in limits
      ensures CapKept(rows', q, limits[q]) && WindowKept(rows', q, limits[q], a)
    {
      SettledKeepsCounts(rows, rows', q, limits[q], a);
    }
    forall q | q in limits ensures CapKept(rows', q, limits[q]) {
      assert WindowKept(rows, q, limits[q], 0);
      SettledKeepsCounts(rows, rows', q, limits[q], 0);
    }
  }

  /** The insert transaction leaves the rows as they were, or changes its own row only. */
  ghost predicate OneRowWritten(rows: Rows, i: InsertInput, rows': Rows) {
    Upsert(rows, i).Ok? && i.s.id in rows' && rows' == rows[i.s.id := rows'[i.s.id]] &&
    (var row := Upsert(rows, i).value[i.s.id];
     rows'[i.s.id] == row || (Exhausted(row, i.maxRetries) && rows'[i.s.id] == Park(row)))
  }

  lemma InsertTouchesOneRow(db: Db, i: InsertInput)
    ensures InsertWorkflowStatus(db, i).0.rows == db.rows || OneRowWritten(db.rows, i, InsertWorkflowStatus(db, i).0.rows)
  {
    match Upsert(db.rows, i)
    case Err(_) =>
    case Ok(rows) =>
      var id, row := i.s.id, rows[i.s.id];
      assert rows == db.rows[id := row];
      assert rows[id := Park(row)] == db.rows[id := Park(row)];
      match RecordChild(db.(rows := rows), i.child)
      case Err(_) =>
      case Ok(db1) => assert db1.rows == rows;
  }

  lemma InsertSettles(db: Db, i: InsertInput)
    requires (i.s.status == Pending && i.s.queueName == "") || Waiting(i.s.status)
    requires forall id :: id in db.rows ==> Sound(db.rows[id])
    ensures Settled(db.rows, InsertWorkflowStatus(db, i).0.rows)
  {
    InsertTouchesOneRow(db, i);
  }

  lemma ForkSettles(db: Db, f: ForkInput, now: int)
    requires forall id :: id in db.rows ==> Sound(db.rows[id])
    ensures Settled(db.rows, Fork(db, f, now).0.rows)
  {
    if f.startStep >= 0 && f.original in db.rows && f.forked !in db.rows {
      ForkedRows(db.rows, f, now);
    }
  }

  lemma ForkedRows(rows: Rows, f: ForkInput, now: int)
    requires f.original in rows && f.forked !in rows && forall id :: id in rows ==> Sound(rows[id])
    ensures var orig := rows[f.original];
            Settled(rows, rows[f.forked := ForkRow(orig, f, now)][f.original := orig.(wasForkedFrom := true)])
  {
  }

  lemma CallSettles(limits: map<string, Limits>, db: Db, c: Call, db': Db)
    requires Step(limits, db, c, db') && !c.Poll?
    requires forall id :: id in db.rows ==> Sound(db.rows[id])
    ensures Settled(db.rows, db'.rows)
  {
    match c
    case Insert(i) => InsertSettles(db, i);
    case ForkIt(f, now) => ForkSettles(db, f, now);
    case Outcome(id, status, output, error) => OutcomeSettles(db.rows, id, status, output, error);
    case Clear(id) => ClearSettles(db.rows, id);
    case Tick(now) => TickSettles(db.rows, now);
    case CancelIt(id) => CancelSettles(db.rows, id);
    case ResumeIt(id) => ResumeSettles(db.rows, id);
    case _ =>
  }

  lemma OutcomeSettles(rows: Rows, id: Id, status: Status, output: Option<string>, error: string)
    requires Final(status) && forall id :: id in rows ==> Sound(rows[id])
    ensures Settled(rows, UpdateOutcome(rows, id, status, output, error))
  {
  }

  lemma ClearSettles(rows: Rows, id: Id)
    requires forall id :: id in rows ==> Sound(rows[id])
    ensures Settled(rows, ClearQueueAssignment(rows, id))
  {
  }

  lemma TickSettles(rows: Rows, now: int)
    requires forall id :: id in rows ==> Sound(rows[id])
    ensures Settled(rows, TransitionDelayed(rows, now))
  {
  }

  lemma CancelSettles(rows: Rows, id: Id)
    requires forall id :: id in rows ==> Sound(rows[id])
    ensures Settled(rows, Cancel(rows, id))
  {
  }

  lemma ResumeSettles(rows: Rows, id: Id)
    requires forall id :: id in rows ==> Sound(rows[id])
    ensures Settled(rows, Resume(rows, id))
  {
  }

  lemma PollKeepsRows(rows: Rows, d: DequeueInput, t0: int, ids: seq<Id>, stamps: seq<int>, now: int, rows': Rows)
    requires Dequeued(rows, d, t0, ids, stamps, now, rows') && UniqueSlots(rows) && forall id :: id in rows ==> Sound(rows[id])
    ensures UniqueSlots(rows') && forall id :: id in rows' ==> Sound(rows'[id])
  {
    forall id | id in rows'
      ensures Sound(rows'[id]) && rows'[id].queue == rows[id].queue && rows'[id].dedup == rows[id].dedup
    {
      if id in ids {
        var k :| 0 <= k < |ids| && ids[k] == id;
      }
    }
  }

  lemma PollKeepsInv(limits: map<string, Limits>, db: Db, c: Call, db': Db)
    requires Step(limits, db, c, db') && c.Poll?
    requires Inv(limits, db.rows)
    ensures Inv(limits, db'.rows)
  {
    var rows, rows', d := db.rows, db'.rows, c.d;
    PollKeepsRows(rows, d, c.t0, c.ids, c.stamps, c.now, rows');
    forall q | q in limits ensures CapKept(rows', q, limits[q]) {
      DequeueKeepsGlobalCap(rows, d, c.t0, c.ids, c.stamps, c.now, rows', q);
      if q != d.queue { SubsetSize(PendingIds(rows', q), PendingIds(rows, q)); }
    }
    forall q, a | q in limits ensures WindowKept(rows', q, limits[q], a) {
      PollKeepsWindow(rows, d, c.t0, c.ids, c.stamps, c.now, rows', q, limits[q], a);
    }
  }

  lemma PollKeepsWindow(rows: Rows, d: DequeueInput, t0: int, ids: seq<Id>, stamps: seq<int>, now: int,
                        rows': Rows, q: string, l: Limits, a: int)
    requires Dequeued(rows, d, t0, ids, stamps, now, rows')
    requires q == d.queue ==> l == Limits(d.globalLimit, d.rate)
    requires WindowKept(rows, q, l, a)
    ensures WindowKept(rows', q, l, a)
  {
    if l.rate.Some? {
      if q == d.queue {
        DequeueKeepsWindow(rows, d, t0, ids, stamps, now, rows', a);
      } else {
        PollLeavesOtherQueue(rows, d, ids, stamps, rows', q, a, a + l.rate.value.periodMs);
      }
    }
  }

  lemma PollLeavesOtherQueue(rows: Rows, d: DequeueInput, ids: seq<Id>, stamps: seq<int>, rows': Rows,
                             q: string, a: int, b: int)
    requires Claimed(rows, d, ids, stamps, rows') && q != d.queue
    requires forall k :: 0 <= k < |ids| ==> ids[k] in EligibleIds(rows, d)
    ensures |StartedIn(rows', q, a, b)| <= |StartedIn(rows, q, a, b)|
  {
    SubsetSize(StartedIn(rows', q, a, b), StartedIn(rows, q, a, b));
  }

  lemma StepKeepsInv(limits: map<string, Limits>, db: Db, c: Call, db': Db)
    requires Step(limits, db, c, db') && Inv(limits, db.rows)
    ensures Inv(limits, db'.rows)
  {
    if c.Poll? {
      PollKeepsInv(limits, db, c, db');
    } else {
      CallSettles(limits, db, c, db');
      SettledKeepsInv(limits, db.rows, db'.rows);
    }
  }

  // ---- the run theorems ----

  /** Starting from a table that meets them - the empty one does - every reachable table
      meets the slot, cap and window invariants. */
  lemma {:induction false} RunKeepsInv(limits: map<string, Limits>, dbs: seq<Db>, calls: seq<Call>)
    requires Run(limits, dbs, calls) && Inv(limits, dbs[0].rows)
    ensures forall k :: 0 <= k < |dbs| ==> Inv(limits, dbs[k].rows)
  {
    if |calls| > 0 {
      var n := |calls| - 1;
      RunKeepsInv(limits, dbs[..n + 1], calls[..n]);
      assert Inv(limits, dbs[..n + 1][n].rows);
      StepKeepsInv(limits, dbs[n], calls[n], dbs[n + 1]);
      forall k | 0 <= k < |dbs| ensures Inv(limits, dbs[k].rows) {
        if k <= n { assert dbs[k] == dbs[..n + 1][k]; }
      }
    }
  }

  lemma EmptyTableMeetsInv(limits: map<string, Limits>)
    ensures Inv(limits, map[])
  {
    forall q | q in limits ensures CapKept(map[], q, limits[q]) {
      assert PendingIds(map[], q) == {};
    }
    forall q, a | q in limits ensures WindowKept(map[], q, limits[q], a) {
      if limits[q].rate.Some? {
        assert StartedIn(map[], q, a, a + limits[q].rate.value.periodMs) == {};
      }
    }
  }

  /** What a statement other than the resume of the row may make of it. */
  predicate Follows(a: Row, b: Row) {
    (Final(a.status) ==> Final(b.status)) &&
    (a.status == Cancelled ==> b.status == Cancelled) &&
    b.owner == a.owner && b.parent == a.parent && b.input == a.input && b.name == a.name
  }

  lemma PollFollows(rows: Rows, d: DequeueInput, ids: seq<Id>, stamps: seq<int>, rows': Rows, id: Id)
    requires Claimed(rows, d, ids, stamps, rows') && id in rows
    requires forall k :: 0 <= k < |ids| ==> ids[k] in EligibleIds(rows, d)
    ensures Follows(rows[id], rows'[id])
  {
    if id in ids {
      var k :| 0 <= k < |ids| && ids[k] == id;
    }
  }

  lemma InsertFollows(db: Db, i: InsertInput, id: Id)
    requires id in db.rows
    ensures id in InsertWorkflowStatus(db, i).0.rows
    ensures Follows(db.rows[id], InsertWorkflowStatus(db, i).0.rows[id])
  {
    InsertTouchesOneRow(db, i);
  }

  /** The step from one table to the next, row by row: a row keeps its owner, parent, name
      and input, a final status stays final, and only a resume takes a row out of CANCELLED. */
  lemma StepKeepsFinal(limits: map<string, Limits>, db: Db, c: Call, db': Db, id: Id)
    requires Step(limits, db, c, db') && id in db.rows && id in db'.rows
    ensures c != ResumeIt(id) ==> Follows(db.rows[id], db'.rows[id])
    ensures c == ResumeIt(id) ==> db'.rows[id] == ResumeRow(db.rows[id])
  {
    match c
    case Insert(i) => InsertFollows(db, i, id);
    case Poll(d, _, ids, stamps, _) => PollFollows(db.rows, d, ids, stamps, db'.rows, id);
    case _ =>
  }

  /** While a row exists, SUCCESS or ERROR is never left for an unfinished status, and
      CANCELLED is left only by a resume of that row. */
  lemma {:induction false} RunKeepsFinal(limits: map<string, Limits>, dbs: seq<Db>, calls: seq<Call>, id: Id)
    requires Run(limits, dbs, calls) && forall k :: 0 <= k < |dbs| ==> id in dbs[k].rows
    ensures Final(dbs[0].rows[id].status) ==> Final(dbs[|calls|].rows[id].status)
    ensures ResumeIt(id) !in calls && dbs[0].rows[id].status == Cancelled ==>
              dbs[|calls|].rows[id].status == Cancelled
  {
    if |calls| > 0 {
      var n := |calls| - 1;
      RunKeepsFinal(limits, dbs[..n + 1], calls[..n], id);
      assert calls[n] in calls && forall c :: c in calls[..n] ==> c in calls;
      StepKeepsFinal(limits, dbs[n], calls[n], dbs[n + 1], id);
    }
  }

  /** The window is half-open on purpose: with limit 1 and period 10, polls at 0 and at 10
      each claim one row, and the closed window from 0 to 10 holds two starts. */
  lemma ClosedWindowMayExceed(d: DequeueInput, row: Row) returns (dbs: seq<Db>, calls: seq<Call>)
    requires d.rate == Some(RateLimit(1, 10)) && d.globalLimit == None && d.workerLimit == None && d.maxTasks > 0
    requires Eligible(row, d)
    ensures Run(map[d.queue := Limits(None, d.rate)], dbs, calls) && |calls| == 2
    ensures dbs[0].rows == map["a" := row, "b" := row]
    ensures calls[0] == Poll(d, 0, ["a"], [0], 0) && calls[1] == Poll(d, 10, ["b"], [10], 10)
    ensures StartedIn(dbs[2].rows, d.queue, -1, 10) == {"a", "b"}
  {
    var db := Db(map["a" := row, "b" := row], map[], map[], map[], map[], map[]);
    var rows1 := db.rows["a" := Claim(row, d, 0)];
    var rows2 := rows1["b" := Claim(row, d, 10)];
    FirstPoll(d, row);
    SecondPoll(d, row);
    dbs, calls := [db, db.(rows := rows1), db.(rows := rows2)], [Poll(d, 0, ["a"], [0], 0), Poll(d, 10, ["b"], [10], 10)];
  }

  lemma FirstPoll(d: DequeueInput, row: Row)
    requires d.rate == Some(RateLimit(1, 10)) && d.globalLimit == None && d.workerLimit == None && d.maxTasks > 0
    requires Eligible(row, d)
    ensures var rows := map["a" := row, "b" := row];
            Dequeued(rows, d, 0, ["a"], [0], 0, rows["a" := Claim(row, d, 0)])
  {
    var rows := map["a" := row, "b" := row];
    assert StartedAfter(rows, d.queue, -10) == {};
    assert EligibleIds(rows, d) == {"a", "b"};
  }

  lemma SecondPoll(d: DequeueInput, row: Row)
    requires d.rate == Some(RateLimit(1, 10)) && d.globalLimit == None && d.workerLimit == None && d.maxTasks > 0
    requires Eligible(row, d)
    ensures var rows := map["a" := row, "b" := row]["a" := Claim(row, d, 0)];
            Dequeued(rows, d, 10, ["b"], [10], 10, rows["b" := Claim(row, d, 10)])
  {
    var rows := map["a" := row, "b" := row]["a" := Claim(row, d, 0)];
    assert StartedAfter(rows, d.queue, 0) == {};
    assert EligibleIds(rows, d) == {"b"};
  }
}
