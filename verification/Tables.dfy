/** The system database as a value: one map per table, and one function per SQL
    statement or transaction. A table keyed by (workflow, ...) is a map of maps, so
    that deleting a workflow row cascades by dropping its key everywhere. */
module Tables {
  import opened Wrappers

  type Id = string

  const INTERNAL_QUEUE := "_dbos_internal_queue"

  datatype Status =
    | Pending | Enqueued | Delayed | Success | Error | Cancelled | DeadLetter

  /** A serialized value. Encoding and decoding are inverse, so a payload keeps the
      shape of what was encoded. */
  datatype Payload =
    | Null
    | Text(text: string)
    | Millis(ms: int)
    | Update(input: string, delayMs: int, messageId: string)

  datatype Row = Row(
    status: Status, name: string, queue: Option<string>, dedup: Option<string>,
    version: Option<string>, executor: string, owner: Option<string>,
    parent: Option<Id>, forkedFrom: Option<Id>, wasForkedFrom: bool,
    input: Option<string>, output: Option<string>, error: Option<string>,
    priority: int, createdAt: int, attempts: int,
    startedAt: Option<int>, rateLimited: bool,
    delayUntil: Option<int>, timeoutMs: Option<int>, deadline: Option<int>)

  type Rows = map<Id, Row>

  datatype OpRow = OpRow(name: string, output: Payload, error: Option<string>, child: Option<Id>)

  type Log = map<int, OpRow>

  datatype Note = Note(topic: string, message: Payload, createdAt: int, consumed: bool)

  datatype Db = Db(
    rows: Rows,
    ops: map<Id, Log>,
    notes: map<Id, seq<Note>>,
    events: map<Id, map<string, Payload>>,
    history: map<Id, map<(int, string), Payload>>,
    streams: map<Id, map<string, seq<Payload>>>)

  function LogOf(db: Db, id: Id): Log {
    if id in db.ops then db.ops[id] else map[]
  }

  /** The empty string is stored as NULL. */
  function Opt(s: string): Option<string> {
    if s == "" then None else Some(s)
  }

  // ---- insert_workflow_status ----

  datatype NewStatus = NewStatus(
    id: Id, status: Status, name: string, queueName: string, dedupId: string,
    version: string, executor: string, parent: string, input: Option<string>,
    priority: int, createdAt: int, delayUntil: Option<int>,
    timeoutMs: Option<int>, deadline: Option<int>)

  datatype ChildRecord = ChildRecord(parent: Id, step: int, name: string, child: Id)

  datatype InsertInput = InsertInput(
    s: NewStatus, maxRetries: int, owner: string, incrementAttempts: bool,
    child: Option<ChildRecord>)

  datatype InsertResult = InsertResult(
    attempts: int, status: Status, name: string, queue: Option<string>,
    deadline: Option<int>, owner: string)

  function NewRow(i: InsertInput): Row {
    var s := i.s;
    Row(s.status, s.name, Opt(s.queueName), Opt(s.dedupId), Opt(s.version), s.executor,
        Some(i.owner), Opt(s.parent), None, false, s.input, None, None,
        s.priority, s.createdAt, if Waiting(s.status) then 0 else 1,
        None, false, s.delayUntil, s.timeoutMs, s.deadline)
  }

  /** Not started yet: on a queue, or waiting to be put on one. */
  predicate Waiting(s: Status) {
    s == Enqueued || s == Delayed
  }

  /** Some row already holds the (queue, deduplication id) pair of a new row. A NULL in
      either column never clashes. */
  predicate SlotTaken(rows: Rows, queue: Option<string>, dedup: Option<string>) {
    queue.Some? && dedup.Some? &&
    exists id :: id in rows && rows[id].queue == queue && rows[id].dedup == dedup
  }

  /** INSERT ... ON CONFLICT (workflow_uuid) DO UPDATE: the row id is the conflict target,
      so a known id updates its row even when the new values would clash with a slot. */
  function Upsert(rows: Rows, i: InsertInput): Result<Rows> {
    var s := i.s;
    if s.id in rows then
      var row := rows[s.id];
      Ok(rows[s.id := if Waiting(s.status) then row
                      else row.(attempts := row.attempts + (if i.incrementAttempts then 1 else 0),
                                executor := s.executor)])
    else if SlotTaken(rows, Opt(s.queueName), Opt(s.dedupId)) then Err(QueueDeduplicated)
    else Ok(rows[s.id := NewRow(i)])
  }

  predicate Mismatch(row: Row, s: NewStatus) {
    (s.name != "" && row.name != s.name) ||
    (s.queueName != "" && row.queue.Some? && row.queue.value != s.queueName)
  }

  function RecordOperation(db: Db, id: Id, step: int, op: OpRow): Result<Db> {
    if id !in db.rows then Err(WorkflowExecution)
    else if step in LogOf(db, id) then Err(ConflictingId)
    else Ok(db.(ops := db.ops[id := LogOf(db, id)[step := op]]))
  }

  function RecordChild(db: Db, child: Option<ChildRecord>): Result<Db> {
    match child
    case None => Ok(db)
    case Some(c) => RecordOperation(db, c.parent, c.step, OpRow(c.name, Null, None, Some(c.child)))
  }

  predicate Exhausted(row: Row, maxRetries: int) {
    row.status != Success && row.status != Error && maxRetries > 0 && row.attempts > maxRetries + 1
  }

  function Park(row: Row): Row {
    if row.status == Pending
    then row.(status := DeadLetter, dedup := None, startedAt := None, queue := None)
    else row
  }

  function ResultOf(row: Row): InsertResult {
    InsertResult(row.attempts, row.status, row.name, row.queue, row.deadline,
                 if row.owner.Some? then row.owner.value else "")
  }

  /** The whole insert transaction. An error before the last step rolls it back; the
      dead-letter error is raised after a commit. */
  function InsertWorkflowStatus(db: Db, i: InsertInput): (Db, Result<InsertResult>) {
    match Upsert(db.rows, i)
    case Err(e) => (db, Err(e))
    case Ok(rows) =>
      var row := rows[i.s.id];
      if Mismatch(row, i.s) then (db, Err(ConflictingWorkflow))
      else
        match RecordChild(db.(rows := rows), i.child)
        case Err(e) => (db, Err(e))
        case Ok(db1) =>
          if Exhausted(row, i.maxRetries)
          then (db1.(rows := rows[i.s.id := Park(row)]), Err(DeadLetterQueue))
          else (db1, Ok(ResultOf(row)))
  }

  // ---- single-statement updates of workflow_status ----

  /** Every outcome is written except SUCCESS or ERROR over CANCELLED. */
  function OutcomeRow(row: Row, status: Status, output: Option<string>, error: string): Row {
    if row.status == Cancelled && (status == Success || status == Error) then row
    else row.(status := status, output := output, error := Opt(error), dedup := None)
  }

  function UpdateOutcome(rows: Rows, id: Id, status: Status, output: Option<string>, error: string): Rows {
    if id in rows then rows[id := OutcomeRow(rows[id], status, output, error)] else rows
  }

  predicate Clearable(rows: Rows, id: Id) {
    id in rows && rows[id].queue.Some? && rows[id].status == Pending
  }

  function ClearQueueAssignment(rows: Rows, id: Id): Rows {
    if Clearable(rows, id) then rows[id := rows[id].(status := Enqueued, startedAt := None)] else rows
  }

  function Promote(row: Row, now: int): Row {
    if row.status == Delayed && row.delayUntil.Some? && row.delayUntil.value <= now
    then row.(status := Enqueued)
    else row
  }

  function TransitionDelayed(rows: Rows, now: int): Rows {
    map id | id in rows :: Promote(rows[id], now)
  }

  function CancelRow(row: Row): Row {
    if row.status == Success || row.status == Error || row.status == Cancelled then row
    else row.(status := Cancelled, startedAt := None, queue := None, dedup := None)
  }

  function Cancel(rows: Rows, id: Id): Rows {
    if id in rows then rows[id := CancelRow(rows[id])] else rows
  }

  function ResumeRow(row: Row): Row {
    if row.status == Success || row.status == Error then row
    else row.(status := Enqueued, queue := Some(INTERNAL_QUEUE), attempts := 0, deadline := None,
              dedup := None, startedAt := None)
  }

  function Resume(rows: Rows, id: Id): Rows {
    if id in rows then rows[id := ResumeRow(rows[id])] else rows
  }

  /** DELETE with the cascades of the schema's foreign keys. */
  function Delete(db: Db, id: Id): Db {
    Db(db.rows - {id}, db.ops - {id}, db.notes - {id}, db.events - {id}, db.history - {id}, db.streams - {id})
  }

  // ---- fork_workflow ----

  datatype ForkInput = ForkInput(
    original: Id, forked: Id, startStep: int, version: Option<string>, queue: Option<string>)

  function ForkRow(orig: Row, f: ForkInput, now: int): Row {
    Row(Enqueued, orig.name,
        Some(if f.queue.Some? then f.queue.value else INTERNAL_QUEUE), None,
        Some(if f.version.Some? then f.version.value
             else if orig.version.Some? then orig.version.value else ""),
        "", None, None, Some(f.original), false, orig.input, None, None,
        0, now, 0, None, false, None, None, None)
  }

  /** The log entries a fork starts from. */
  function Below(log: Log, start: int): Log {
    map k | k in log && k < start :: log[k]
  }

  function Fork(db: Db, f: ForkInput, now: int): (Db, Result<Id>) {
    if f.startStep < 0 then (db, Err(WorkflowExecution))
    else if f.original !in db.rows then (db, Err(NonExistentWorkflow))
    else if f.forked in db.rows then (db, Err(WorkflowExecution))
    else
      var orig := db.rows[f.original];
      var rows := db.rows[f.forked := ForkRow(orig, f, now)][f.original := orig.(wasForkedFrom := true)];
      var ops := if f.startStep > 0 then db.ops[f.forked := Below(LogOf(db, f.original), f.startStep)] else db.ops;
      (db.(rows := rows, ops := ops), Ok(f.forked))
  }

  // ---- operation_outputs ----

  function CheckOperation(db: Db, id: Id, step: int, name: string): Result<Option<OpRow>> {
    if id !in db.rows then Err(NonExistentWorkflow)
    else CheckLog(db.rows[id].status, LogOf(db, id), step, name)
  }

  /** The part of the lookup that concerns one workflow. */
  function CheckLog(status: Status, log: Log, step: int, name: string): Result<Option<OpRow>> {
    if status == Cancelled then Err(WorkflowCancelled)
    else if step !in log then Ok(None)
    else if log[step].name != name then Err(UnexpectedStep)
    else Ok(Some(log[step]))
  }

  function CheckChild(log: Log, step: int): Option<Id> {
    if step in log then log[step].child else None
  }

  // ---- notifications and events ----

  function Inbox(db: Db, id: Id): seq<Note> {
    if id in db.notes then db.notes[id] else []
  }

  function SendNotification(db: Db, dest: Id, topic: string, message: Payload, now: int): Result<Db> {
    if dest !in db.rows then Err(NonExistentWorkflow)
    else Ok(db.(notes := db.notes[dest := Inbox(db, dest) + [Note(topic, message, now, false)]]))
  }

  predicate Unread(notes: seq<Note>, topic: string, i: int) {
    0 <= i < |notes| && notes[i].topic == topic && !notes[i].consumed
  }

  ghost predicate HasUnread(notes: seq<Note>, topic: string) {
    exists i :: Unread(notes, topic, i)
  }

  /** Position i may be picked as the oldest unread message; equal timestamps leave the
      choice open. */
  ghost predicate Oldest(notes: seq<Note>, topic: string, i: int) {
    Unread(notes, topic, i) &&
    forall j :: Unread(notes, topic, j) ==> notes[i].createdAt <= notes[j].createdAt
  }

  function Consume(notes: seq<Note>, i: nat): seq<Note>
    requires i < |notes|
  {
    notes[i := notes[i].(consumed := true)]
  }

  function EventsOf(db: Db, id: Id): map<string, Payload> {
    if id in db.events then db.events[id] else map[]
  }

  function HistoryOf(db: Db, id: Id): map<(int, string), Payload> {
    if id in db.history then db.history[id] else map[]
  }

  function SetEvent(db: Db, id: Id, step: int, key: string, value: Payload): Result<Db> {
    if id !in db.rows then Err(WorkflowExecution)
    else Ok(db.(events := db.events[id := EventsOf(db, id)[key := value]],
                history := db.history[id := HistoryOf(db, id)[(step, key) := value]]))
  }
}
