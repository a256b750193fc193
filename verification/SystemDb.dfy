/** The SQLite backend: a mutable database whose methods run one statement or transaction
    each. Every method is tied to the function of Tables that says what it does. */
module SystemDb {
  import opened Wrappers
  import opened Tables
  import opened Queues

  /** Epoch milliseconds; a reading may be any amount later than the one before. */
  class Clock {
    var t: int
    var alarm: int       // the latest time it was asked to sleep until
    var longest: int     // the longest sleep it was asked for

    constructor (start: int)
      ensures t == alarm == start && longest == 0
    {
      t, alarm, longest := start, start, 0;
    }

    method Now() returns (now: int)
      modifies this`t
      ensures old(t) <= now == t
    {
      var passed :| passed >= 0;
      t := t + passed;
      now := t;
    }

    /** A sleep does not end early. */
    method SleepUntil(wake: int)
      modifies this
      ensures old(t) <= t && wake <= t
      ensures alarm == Max(old(alarm), wake) && longest == Max(old(longest), wake - old(t))
    {
      alarm, longest := Max(alarm, wake), Max(longest, wake - t);
      var passed :| passed >= 0;
      t := (if t < wake then wake else t) + passed;
    }
  }

  class SqliteDb {
    var rows: Rows
    var ops: map<Id, Log>
    var notes: map<Id, seq<Note>>
    var events: map<Id, map<string, Payload>>
    var history: map<Id, map<(int, string), Payload>>
    var streams: map<Id, map<string, seq<Payload>>>

    function State(): (db: Db)
      reads this
    {
      Db(rows, ops, notes, events, history, streams)
    }

    constructor ()
      ensures State() == Db(map[], map[], map[], map[], map[], map[])
    {
      rows, ops, notes, events, history, streams := map[], map[], map[], map[], map[], map[];
    }

    /** Reads a value-level result back into the fields, as a commit does. */
    method Commit(db: Db)
      modifies this
      ensures State() == db
    {
      rows, ops, notes, events, history, streams :=
        db.rows, db.ops, db.notes, db.events, db.history, db.streams;
    }

    method InsertWorkflowStatus(i: InsertInput) returns (r: Result<InsertResult>)
      modifies this
      ensures (State(), r) == Tables.InsertWorkflowStatus(old(State()), i)
    {
      var s := i.s;
      var upserted := Upsert(rows, i);
      if upserted.Err? {
        return Err(upserted.code);
      }
      var row := upserted.value[s.id];
      if (s.name != "" && row.name != s.name)
         || (s.queueName != "" && row.queue.Some? && row.queue.value != s.queueName) {
        return Err(ConflictingWorkflow);
      }
      var tx := State().(rows := upserted.value);
      if i.child.Some? {
        var recorded := RecordChild(tx, i.child);
        if recorded.Err? {
          return Err(recorded.code);
        }
        tx := recorded.value;
      }
      if row.status != Success && row.status != Error && i.maxRetries > 0 && row.attempts > i.maxRetries + 1 {
        Commit(tx.(rows := tx.rows[s.id := Park(row)]));
        return Err(DeadLetterQueue);
      }
      Commit(tx);
      r := Ok(ResultOf(row));
    }

    method UpdateWorkflowOutcome(id: Id, status: Status, output: Option<string>, error: string)
      modifies this`rows
      ensures rows == UpdateOutcome(old(rows), id, status, output, error)
    {
      if id in rows && !(rows[id].status == Cancelled && (status == Success || status == Error)) {
        rows := rows[id := rows[id].(status := status, output := output, error := Opt(error), dedup := None)];
      }
    }

    method ClearQueueAssignment(id: Id) returns (changed: bool)
      modifies this`rows
      ensures changed == Clearable(old(rows), id)
      ensures rows == Tables.ClearQueueAssignment(old(rows), id)
    {
      changed := id in rows && rows[id].queue.Some? && rows[id].status == Pending;
      if changed {
        rows := rows[id := rows[id].(status := Enqueued, startedAt := None)];
      }
    }

    /** SELECT ... ORDER BY priority, created_at LIMIT. */
    method SelectCandidates(i: DequeueInput, limit: nat) returns (ids: seq<Id>)
      ensures FirstEligible(rows, i, ids) && |ids| == Min(limit, |EligibleIds(rows, i)|)
    {
      var left := EligibleIds(rows, i);
      ids := [];
      while left != {} && |ids| < limit
        invariant left == EligibleIds(rows, i) - IdSet(ids)
        invariant FirstEligible(rows, i, ids) && |ids| <= limit
        invariant |left| + |ids| == |EligibleIds(rows, i)|
        decreases limit - |ids|
      {
        FirstExists(rows, left);
        var next :| next in left && forall id :: id in left ==> Before(rows[next], rows[id]);
        OneMoreFirst(rows, i, ids, next);
        ids, left := ids + [next], left - {next};
      }
    }

    method DequeueWorkflows(i: DequeueInput, clock: Clock)
      returns (out: seq<Id>, ghost t0: int, ghost stamps: seq<int>)
      modifies this`rows, clock
      ensures Dequeued(old(rows), i, t0, out, stamps, clock.t, rows)
      ensures old(clock.t) <= t0
    {
      var recent := 0;
      var now := clock.Now();
      t0, stamps, out := now, [], [];
      if i.rate.Some? {
        recent := |StartedAfter(rows, i.queue, now - i.rate.value.periodMs)|;
        if recent >= i.rate.value.limit {
          return;
        }
      }
      var maxTasks := i.maxTasks;
      if i.workerLimit.Some? {
        maxTasks := Max(i.workerLimit.value - i.localRunning, 0);
      }
      if i.globalLimit.Some? {
        var available := Max(i.globalLimit.value - |PendingIds(rows, i.queue)|, 0);
        maxTasks := Min(maxTasks, available);
      }
      if maxTasks <= 0 {
        return;
      }
      var ids := SelectCandidates(i, maxTasks);
      ghost var before := rows;
      out, stamps := ClaimRows(i, ids, recent, clock);
      PrefixIsFirst(before, i, ids, out);
    }

    /** The claim loop: one clock reading and one update per row, until the rate limit is met. */
    method ClaimRows(i: DequeueInput, ids: seq<Id>, recent: int, clock: Clock)
      returns (out: seq<Id>, ghost stamps: seq<int>)
      requires Distinct(ids) && forall k :: 0 <= k < |ids| ==> ids[k] in EligibleIds(rows, i)
      requires i.rate.Some? ==> recent < i.rate.value.limit
      modifies this`rows, clock
      ensures out == ids[..if i.rate.Some? then Min(|ids|, i.rate.value.limit - recent) else |ids|]
      ensures Claimed(old(rows), i, out, stamps, rows)
      ensures old(clock.t) <= clock.t
      ensures forall j :: 0 <= j < |stamps| ==> old(clock.t) <= stamps[j] <= clock.t
    {
      out, stamps := [], [];
      var k := 0;
      while k < |ids|
        invariant 0 <= k <= |ids| && out == ids[..k]
        invariant i.rate.Some? ==> |out| + recent <= i.rate.value.limit
        invariant Claimed(old(rows), i, out, stamps, rows)
        invariant old(clock.t) <= clock.t
        invariant forall j :: 0 <= j < |stamps| ==> old(clock.t) <= stamps[j] <= clock.t
      {
        if i.rate.Some? && |out| + recent >= i.rate.value.limit {
          break;
        }
        var id := ids[k];
        assert id in EligibleIds(old(rows), i) && id !in out;
        var now := clock.Now();
        rows := rows[id := Claim(rows[id], i, now)];
        out, stamps, k := out + [id], stamps + [now], k + 1;
      }
    }

    method TransitionDelayedWorkflows(now: int)
      modifies this`rows
      ensures rows == TransitionDelayed(old(rows), now)
    {
      rows := map id | id in rows ::
        if rows[id].status == Delayed && rows[id].delayUntil.Some? && rows[id].delayUntil.value <= now
        then rows[id].(status := Enqueued) else rows[id];
    }

    method CancelWorkflow(id: Id) returns (exists_: bool)
      modifies this`rows
      ensures exists_ == (id in old(rows)) && rows == Cancel(old(rows), id)
    {
      exists_ := id in rows;
      if exists_ && rows[id].status != Success && rows[id].status != Error && rows[id].status != Cancelled {
        rows := rows[id := rows[id].(status := Cancelled, startedAt := None, queue := None, dedup := None)];
      }
    }

    method ResumeWorkflow(id: Id)
      modifies this`rows
      ensures rows == Resume(old(rows), id)
    {
      if id in rows && rows[id].status != Success && rows[id].status != Error {
        rows := rows[id := rows[id].(status := Enqueued, queue := Some(INTERNAL_QUEUE), attempts := 0,
                                     deadline := None, dedup := None, startedAt := None)];
      }
    }

    method DeleteWorkflow(id: Id)
      modifies this
      ensures State() == Delete(old(State()), id)
    {
      rows, ops, notes := rows - {id}, ops - {id}, notes - {id};
      events, history, streams := events - {id}, history - {id}, streams - {id};
    }

    method GetWorkflowChildren(id: Id) returns (children: seq<Id>)
      ensures Distinct(children)
      ensures forall c :: c in children <==> c in rows && rows[c].parent == Some(id)
    {
      var left := set c | c in rows && rows[c].parent == Some(id);
      children := [];
      while left != {}
        invariant Distinct(children) && forall c :: c in left ==> c !in children
        invariant forall c :: c in children || c in left <==> c in rows && rows[c].parent == Some(id)
        decreases |left|
      {
        var c :| c in left;
        children, left := children + [c], left - {c};
      }
    }

    /** SELECT ... WHERE status = PENDING AND ... ORDER BY created_at. */
    method ListPending(executors: set<string>, version: string) returns (ids: seq<Id>)
      ensures Listed(rows, executors, version, ids)
    {
      var left := set id | id in rows && Recoverable(rows[id], executors, version);
      ids := [];
      while left != {}
        invariant left <= rows.Keys && Distinct(ids) && forall id :: id in left ==> id !in ids
        invariant forall id :: id in ids || id in left <==> id in rows && Recoverable(rows[id], executors, version)
        invariant OldestFirst(rows, ids)
        invariant forall k, id :: 0 <= k < |ids| && id in left ==> rows[ids[k]].createdAt <= rows[id].createdAt
        decreases |left|
      {
        OldestExists(rows, left);
        var next :| next in left && forall id :: id in left ==> rows[next].createdAt <= rows[id].createdAt;
        ids, left := ids + [next], left - {next};
      }
    }

    method ForkWorkflow(f: ForkInput, now: int) returns (r: Result<Id>)
      modifies this
      ensures (State(), r) == Fork(old(State()), f, now)
    {
      if f.startStep < 0 {
        return Err(WorkflowExecution);
      }
      if f.original !in rows {
        return Err(NonExistentWorkflow);
      }
      if f.forked in rows {
        return Err(WorkflowExecution);
      }
      var orig := rows[f.original];
      rows := rows[f.forked := ForkRow(orig, f, now)];
      rows := rows[f.original := orig.(wasForkedFrom := true)];
      if f.startStep > 0 {
        ops := ops[f.forked := map k | k in LogOf(State(), f.original) && k < f.startStep
                                   :: LogOf(State(), f.original)[k]];
      }
      r := Ok(f.forked);
    }

    method RecordOperationResult(id: Id, step: int, op: OpRow) returns (r: Result<()>)
      modifies this`ops
      ensures match RecordOperation(old(State()), id, step, op)
              case Ok(db) => r == Ok(()) && State() == db
              case Err(c) => r == Err(c) && State() == old(State())
    {
      if id !in rows {
        return Err(WorkflowExecution);
      }
      if step in LogOf(State(), id) {
        return Err(ConflictingId);
      }
      ops := ops[id := LogOf(State(), id)[step := op]];
      r := Ok(());
    }

    method CheckOperationExecution(id: Id, step: int, name: string) returns (r: Result<Option<OpRow>>)
      ensures r == CheckOperation(State(), id, step, name)
    {
      if id !in rows {
        return Err(NonExistentWorkflow);
      }
      if rows[id].status == Cancelled {
        return Err(WorkflowCancelled);
      }
      if step !in LogOf(State(), id) {
        return Ok(None);
      }
      var op := LogOf(State(), id)[step];
      if op.name != name {
        return Err(UnexpectedStep);
      }
      r := Ok(Some(op));
    }

    method SendNotification(dest: Id, topic: string, message: Payload, now: int) returns (r: Result<()>)
      modifies this`notes
      ensures match Tables.SendNotification(old(State()), dest, topic, message, now)
              case Ok(db) => r == Ok(()) && State() == db
              case Err(c) => r == Err(c) && State() == old(State())
    {
      if dest !in rows {
        return Err(NonExistentWorkflow);
      }
      notes := notes[dest := Inbox(State(), dest) + [Note(topic, message, now, false)]];
      r := Ok(());
    }

    method HasUnconsumedNotification(dest: Id, topic: string) returns (found: bool)
      ensures found <==> HasUnread(Inbox(State(), dest), topic)
    {
      var inbox := Inbox(State(), dest);
      found := false;
      for i := 0 to |inbox|
        invariant found <==> exists j :: j < i && Unread(inbox, topic, j)
      {
        assert inbox[i].topic == topic && !inbox[i].consumed <==> Unread(inbox, topic, i);
        found := found || (inbox[i].topic == topic && !inbox[i].consumed);
      }
    }

    /** Marks the oldest unread message of the topic as consumed and returns it. */
    method ConsumeOldestNotification(dest: Id, topic: string)
      returns (r: Option<Payload>, ghost at: int)
      modifies this`notes
      ensures r == None ==> notes == old(notes) && forall i :: !Unread(Inbox(State(), dest), topic, i)
      ensures r.Some? ==>
                var was := Inbox(old(State()), dest);
                Oldest(was, topic, at) && r.value == was[at].message &&
                notes == old(notes)[dest := Consume(was, at)]
    {
      var inbox := Inbox(State(), dest);
      var best := -1;
      var i := 0;
      while i < |inbox|
        invariant 0 <= i <= |inbox|
        invariant best == -1 ==> forall j :: j < i ==> !Unread(inbox, topic, j)
        invariant best != -1 ==> Unread(inbox, topic, best) && best < i
        invariant best != -1 ==>
                    forall j :: j < i && Unread(inbox, topic, j) ==> inbox[best].createdAt <= inbox[j].createdAt
      {
        if inbox[i].topic == topic && !inbox[i].consumed
           && (best == -1 || inbox[i].createdAt < inbox[best].createdAt) {
          best := i;
        }
        i := i + 1;
      }
      at := best;
      if best == -1 {
        return None, at;
      }
      notes := notes[dest := inbox[best := inbox[best].(consumed := true)]];
      r := Some(inbox[best].message);
    }

    method SetEvent(id: Id, step: int, key: string, value: Payload) returns (r: Result<()>)
      modifies this`events, this`history
      ensures match Tables.SetEvent(old(State()), id, step, key, value)
              case Ok(db) => r == Ok(()) && State() == db
              case Err(c) => r == Err(c) && State() == old(State())
    {
      if id !in rows {
        return Err(WorkflowExecution);
      }
      events := events[id := EventsOf(State(), id)[key := value]];
      history := history[id := HistoryOf(State(), id)[(step, key) := value]];
      r := Ok(());
    }
  }

  // ---- the rows a recovery pass lists ----

  /** No executors, or no version, means any. */
  predicate Recoverable(row: Row, executors: set<string>, version: string) {
    row.status == Pending && (executors == {} || row.executor in executors) &&
    (version == "" || row.version == Some(version))
  }

  predicate OldestFirst(rows: Rows, ids: seq<Id>)
    requires forall id :: id in ids ==> id in rows
  {
    forall a, b :: 0 <= a < b < |ids| ==> rows[ids[a]].createdAt <= rows[ids[b]].createdAt
  }

  ghost predicate Listed(rows: Rows, executors: set<string>, version: string, ids: seq<Id>) {
    Distinct(ids) && (forall id :: id in ids <==> id in rows && Recoverable(rows[id], executors, version)) &&
    OldestFirst(rows, ids)
  }

  lemma {:induction false} OldestExists(rows: Rows, ids: set<Id>)
    requires ids != {} && ids <= rows.Keys
    ensures exists m :: m in ids && forall id :: id in ids ==> rows[m].createdAt <= rows[id].createdAt
    decreases |ids|
  {
    var x :| x in ids;
    if ids == {x} {
      assert forall id :: id in ids ==> rows[x].createdAt <= rows[id].createdAt;
    } else {
      var rest := ids - {x};
      OldestExists(rows, rest);
      var m :| m in rest && forall id :: id in rest ==> rows[m].createdAt <= rows[id].createdAt;
      var first := if rows[x].createdAt <= rows[m].createdAt then x else m;
      assert forall id :: id in ids ==> id == x || id in rest;
      assert first in ids && forall id :: id in ids ==> rows[first].createdAt <= rows[id].createdAt;
    }
  }

  /** A finite non-empty set of rows has a first one. */
  lemma {:induction false} FirstExists(rows: Rows, ids: set<Id>)
    requires ids != {} && ids <= rows.Keys
    ensures exists m :: m in ids && forall id :: id in ids ==> Before(rows[m], rows[id])
    decreases |ids|
  {
    var x :| x in ids;
    if ids == {x} {
      assert forall id :: id in ids ==> Before(rows[x], rows[id]);
    } else {
      var rest := ids - {x};
      FirstExists(rows, rest);
      var m :| m in rest && forall id :: id in rest ==> Before(rows[m], rows[id]);
      var first := if Before(rows[x], rows[m]) then x else m;
      assert forall id :: id in ids ==> id == x || id in rest;
      assert first in ids && forall id :: id in ids ==> Before(rows[first], rows[id]);
    }
  }

  /** A prefix of the rows in claim order leaves out none that precedes one of it. */
  lemma PrefixIsFirst(rows: Rows, i: DequeueInput, ids: seq<Id>, out: seq<Id>)
    requires FirstEligible(rows, i, ids) && out <= ids
    ensures FirstEligible(rows, i, out)
  {
    forall id, k | id in EligibleIds(rows, i) && id !in out && 0 <= k < |out|
      ensures Before(rows[out[k]], rows[id])
    {
      if id in ids {
        var j :| 0 <= j < |ids| && ids[j] == id;
        assert j >= |out|;
      }
    }
  }

  /** The first of the remaining candidates comes next. */
  lemma OneMoreFirst(rows: Rows, i: DequeueInput, ids: seq<Id>, next: Id)
    requires FirstEligible(rows, i, ids)
    requires var left := EligibleIds(rows, i) - IdSet(ids);
             next in left && forall id :: id in left ==> Before(rows[next], rows[id])
    ensures FirstEligible(rows, i, ids + [next])
    ensures EligibleIds(rows, i) - IdSet(ids + [next]) == EligibleIds(rows, i) - IdSet(ids) - {next}
  {
    var ids' := ids + [next];
    assert forall id :: id in ids ==> id in ids';
    assert next in ids';
  }
}
