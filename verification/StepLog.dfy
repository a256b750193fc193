/** Durable steps: what a step records, what a replay sees, and the calls of a workflow
    context on the step log. */
module StepLog {
  import opened Wrappers
  import opened Tables
  import opened SystemDb

  /** What a step's closure returned. */
  datatype Live = Value(v: Payload) | Fault(code: ErrorCode, message: string)

  function Number(c: ErrorCode): string {
    match c
    case ConflictingId => "1" case Initialization => "2" case NonExistentWorkflow => "3"
    case ConflictingWorkflow => "4" case WorkflowCancelled => "5" case UnexpectedStep => "6"
    case AwaitedWorkflowCancelled => "7" case ConflictingRegistration => "8"
    case WorkflowUnexpectedType => "9" case WorkflowExecution => "10" case StepExecution => "11"
    case DeadLetterQueue => "12" case MaxStepRetriesExceeded => "13" case QueueDeduplicated => "14"
    case PatchingNotEnabled => "15" case Timeout => "16" case NoApplicationVersions => "17"
  }

  /** Every category of error has a number of its own. */
  lemma NumberTellsApart(c: ErrorCode, c': ErrorCode)
    ensures Number(c) == Number(c') <==> c == c'
  {
    assert |Number(c)| > 0 && |Number(c')| > 0;
    assert Number(c) == Number(c') ==> Number(c)[0] == Number(c')[0];
  }

  /** The text of an error, which is what gets stored. */
  function Shown(code: ErrorCode, message: string): string {
    "DBOS Error " + Number(code) + ": " + message
  }

  /** The category can be told from the stored text, and so can the message. */
  lemma ShownTellsApart(c: ErrorCode, m: string, c': ErrorCode, m': string)
    ensures m == m' ==> (Shown(c, m) == Shown(c', m') <==> c == c')
    ensures c == c' ==> (Shown(c, m) == Shown(c', m') <==> m == m')
  {
    NumberTellsApart(c, c');
    var start := "DBOS Error ";
    var (k, n, n') := (|start|, |Number(c)|, |Number(c')|);
    if Shown(c, m) == Shown(c', m') {
      assert Shown(c, m)[k..k + n] == Number(c) && Shown(c', m')[k..k + n'] == Number(c');
      assert Shown(c, m)[k + n + 2..] == m && Shown(c', m')[k + n' + 2..] == m';
      assert |Shown(c, m)| == k + n + 2 + |m| && |Shown(c', m')| == k + n' + 2 + |m'|;
    }
  }

  function OpOf(name: string, r: Live): OpRow {
    match r
    case Value(v) => OpRow(name, v, None, None)
    case Fault(c, m) => OpRow(name, Null, Some(Shown(c, m)), None)
  }

  /** A stored error comes back as a plain execution error around the stored text. */
  function Recalled(op: OpRow): Live {
    if op.error.Some? && op.error.value != "" then Fault(WorkflowExecution, op.error.value) else Value(op.output)
  }

  /** What a body may act on: a value, or the fact that the step failed. */
  datatype Seen = Got(v: Payload) | Failed

  function SeenOf(r: Live): Seen {
    match r
    case Value(v) => Got(v)
    case Fault(_, _) => Failed
  }

  /** A replay shows a body that only distinguishes success from failure exactly what the
      first run showed it. */
  lemma ReplayShowsTheSame(name: string, r: Live)
    ensures SeenOf(Recalled(OpOf(name, r))) == SeenOf(r)
    ensures OpOf(name, r).name == name
  {
    if r.Fault? { assert |Shown(r.code, r.message)| > 0; }
  }

  /** The full result survives a replay exactly when it is a value: an error always comes
      back with its text wrapped once more, and keeps its code only if that was
      WorkflowExecution. */
  lemma ReplayIsExactIff(name: string, r: Live)
    ensures Recalled(OpOf(name, r)) == r <==> r.Value?
    ensures r.Fault? ==> (Recalled(OpOf(name, r)).code == r.code <==> r.code == WorkflowExecution)
  {
    if r.Fault? { assert |Shown(r.code, r.message)| > |r.message|; }
  }

  // ---- the calls of a workflow context ----

  const SLEEP := "DBOS.sleep"
  const RECV := "DBOS.recv"
  const SET_EVENT := "DBOS.setEvent"

  /** The database after another execution has tried to record a row for the step. */
  function WithRival(db: Db, id: Id, step: int, rival: Option<OpRow>): Db {
    if rival.None? then db
    else match RecordOperation(db, id, step, rival.value)
         case Ok(db') => db'
         case Err(_) => db
  }

  /** One run_step call: the database after it, its result - Err for an error raised by the
      engine itself - and whether the closure ran. While it runs another execution may record
      its own result for the step. */
  function StepCall(db: Db, id: Id, step: int, name: string, closure: Live, rival: Option<OpRow>): (Db, Result<Live>, bool) {
    match CheckOperation(db, id, step, name)
    case Err(c) => (db, Err(c), false)
    case Ok(Some(op)) => (db, Ok(Recalled(op)), false)
    case Ok(None) =>
      var db1 := WithRival(db, id, step, rival);
      match RecordOperation(db1, id, step, OpOf(name, closure))
      case Ok(db') => (db', Ok(closure), true)
      case Err(c) => (db1, Err(if c == ConflictingId then ConflictingId else StepExecution), true)
  }

  /** A step whose closure ran to a recorded result never runs it again: whatever the closure
      would return next time, the call gives back the recorded result and changes nothing. */
  lemma StepIsMemoized(db: Db, id: Id, step: int, name: string, first: Live, second: Live, rival: Option<OpRow>, rival': Option<OpRow>)
    requires StepCall(db, id, step, name, first, rival).1.Ok? && StepCall(db, id, step, name, first, rival).2
    ensures var db' := StepCall(db, id, step, name, first, rival).0;
            StepCall(db', id, step, name, second, rival') == (db', Ok(Recalled(OpOf(name, first))), false)
  {
    ReplayShowsTheSame(name, first);
  }

  function WakeRow(wake: int): OpRow {
    OpRow(SLEEP, Millis(wake), None, None)
  }

  /** A checkpointed wake time: the recorded one, else now + ms, recorded. Another execution
      may record its own between the lookup and the insert; then that one counts. */
  function WakeCall(db: Db, id: Id, step: int, now: int, ms: int, rival: Option<int>): (Db, Result<int>) {
    match CheckOperation(db, id, step, SLEEP)
    case Err(c) => (db, Err(c))
    case Ok(Some(op)) => (db, if op.output.Millis? then Ok(op.output.ms) else Err(WorkflowExecution))
    case Ok(None) =>
      var wake := if rival.Some? then rival.value else now + ms;
      match RecordOperation(db, id, step, WakeRow(wake))
      case Ok(db') => (db', Ok(wake))
      case Err(c) => (db, Err(c))
  }

  /** No restart moves a wake time, however late it happens and whatever it asks for. */
  lemma WakeTimeIsFixed(db: Db, id: Id, step: int, now: int, ms: int, rival: Option<int>,
                        later: int, ms': int, rival': Option<int>)
    requires WakeCall(db, id, step, now, ms, rival).1.Ok?
    ensures var (db', wake) := WakeCall(db, id, step, now, ms, rival);
            WakeCall(db', id, step, later, ms', rival') == (db', wake)
  {
  }

  /** One set_event call: the value is written before the step is recorded. */
  function PublishCall(db: Db, id: Id, step: int, key: string, value: Payload): (Db, Result<()>) {
    match CheckOperation(db, id, step, SET_EVENT)
    case Err(c) => (db, Err(c))
    case Ok(Some(_)) => (db, Ok(()))
    case Ok(None) =>
      match SetEvent(db, id, step, key, value)
      case Err(c) => (db, Err(c))
      case Ok(db1) =>
        match RecordOperation(db1, id, step, OpRow(SET_EVENT, Null, None, None))
        case Ok(db2) => (db2, Ok(()))
        case Err(c) => (db1, Err(c))
  }

  const POLL_INTERVAL := 50

  /** The database after others have sent messages to a workflow. */
  function WithMail(db: Db, id: Id, arrived: seq<Note>): Db {
    if arrived == [] then db else db.(notes := db.notes[id := Inbox(db, id) + arrived])
  }

  lemma MailAdds(db: Db, id: Id, first: seq<Note>, more: seq<Note>)
    ensures WithMail(WithMail(db, id, first), id, more) == WithMail(db, id, first + more)
  {
    assert Inbox(db, id) + (first + more) == Inbox(db, id) + first + more;
    if more == [] { assert first + more == first; }
    if first == [] { assert first + more == more; }
  }

  /** What others send during the first naps. */
  function Mail(sent: nat -> seq<Note>, naps: nat): seq<Note> {
    if naps == 0 then [] else Mail(sent, naps - 1) + sent(naps - 1)
  }

  lemma MailArrives(db: Db, id: Id, arrived: seq<Note>)
    ensures Inbox(WithMail(db, id, arrived), id) == Inbox(db, id) + arrived
  {
  }

  /** Settling the deadline and waiting leave the receive's own step unrecorded. */
  lemma StillMissing(db: Db, id: Id, step: int, asked: int, ms: int, rival: Option<int>, arrived: seq<Note>)
    requires CheckOperation(db, id, step, RECV) == Ok(None) && WakeCall(db, id, step + 1, asked, ms, rival).1.Ok?
    ensures var db' := WithMail(WakeCall(db, id, step + 1, asked, ms, rival).0, id, arrived);
            id in db'.rows && step !in LogOf(db', id)
  {
    WakeIsLocal(db, id, step + 1, asked, ms, rival, step);
    MailIsNoLog(WakeCall(db, id, step + 1, asked, ms, rival).0, id, arrived);
  }

  lemma WakeIsLocal(db: Db, id: Id, n: int, asked: int, ms: int, rival: Option<int>, k: int)
    requires k != n
    ensures var db' := WakeCall(db, id, n, asked, ms, rival).0;
            db'.rows == db.rows && (k in LogOf(db', id) <==> k in LogOf(db, id))
  {
    var wake := if rival.Some? then rival.value else asked + ms;
    RecordIsLocal(db, id, n, WakeRow(wake), k);
  }

  lemma RecordIsLocal(db: Db, id: Id, n: int, op: OpRow, k: int)
    requires k != n
    ensures RecordOperation(db, id, n, op).Ok? ==>
              var db' := RecordOperation(db, id, n, op).value;
              db'.rows == db.rows && (k in LogOf(db', id) <==> k in LogOf(db, id))
  {
  }

  lemma MailIsNoLog(db: Db, id: Id, arrived: seq<Note>)
    ensures WithMail(db, id, arrived).rows == db.rows && LogOf(WithMail(db, id, arrived), id) == LogOf(db, id)
  {
  }

  class WfCtx {
    const id: Id
    const db: SqliteDb
    var stepId: int

    constructor (id: Id, db: SqliteDb)
      ensures this.id == id && this.db == db && stepId == -1
    {
      this.id, this.db, stepId := id, db, -1;
    }

    /** Numbers the steps of a run 0, 1, 2, ... */
    method NextStepId() returns (n: int)
      modifies this
      ensures n == stepId == old(stepId) + 1
    {
      stepId := stepId + 1;
      n := stepId;
    }

    method RunStep(name: string, closure: Live, rival: Option<OpRow>) returns (r: Result<Live>, ran: bool)
      modifies this, db
      ensures stepId == old(stepId) + 1
      ensures (db.State(), r, ran) == StepCall(old(db.State()), id, stepId, name, closure, rival)
    {
      var n := NextStepId();
      var checked := db.CheckOperationExecution(id, n, name);
      if checked.Err? {
        return Err(checked.code), false;
      }
      if checked.value.Some? {
        return Ok(Recalled(checked.value.value)), false;
      }
      if rival.Some? {
        var _ := db.RecordOperationResult(id, n, rival.value);
      }
      var recorded := db.RecordOperationResult(id, n, OpOf(name, closure));
      if recorded.Err? {
        return Err(if recorded.code == ConflictingId then ConflictingId else StepExecution), true;
      }
      r, ran := Ok(closure), true;
    }

    /** The wake time of a step; rival is what another execution records for it, if one does,
        between this one's lookup and insert. */
    method DurableDeadline(step: int, ms: int, now: int, rival: Option<int>) returns (r: Result<int>)
      modifies db
      ensures (db.State(), r) == WakeCall(old(db.State()), id, step, now, ms, rival)
    {
      var checked := db.CheckOperationExecution(id, step, SLEEP);
      if checked.Err? {
        return Err(checked.code);
      }
      if checked.value.Some? {
        var out := checked.value.value.output;
        return if out.Millis? then Ok(out.ms) else Err(WorkflowExecution);
      }
      if rival.Some? {
        var _ := db.RecordOperationResult(id, step, WakeRow(rival.value));
      }
      var recorded := db.RecordOperationResult(id, step, WakeRow(now + ms));
      if recorded.Ok? {
        return Ok(now + ms);
      }
      // beaten: read the recorded time back
      var read := db.CheckOperationExecution(id, step, SLEEP);
      r := if read.Ok? && read.value.Some? && read.value.value.output.Millis?
           then Ok(read.value.value.output.ms) else Err(StepExecution);
    }

    /** Sleeps out what is left until the checkpointed wake time, and returns that remainder. */
    method Sleep(ms: int, asked: int, woken: int, rival: Option<int>) returns (r: Result<int>)
      modifies this, db
      ensures stepId == old(stepId) + 1
      ensures db.State() == WakeCall(old(db.State()), id, stepId, asked, ms, rival).0
      ensures match WakeCall(old(db.State()), id, stepId, asked, ms, rival).1
              case Ok(wake) => r == Ok(Max(wake - woken, 0))
              case Err(c) => r == Err(c)
    {
      var n := NextStepId();
      var wake := DurableDeadline(n, ms, asked, rival);
      if wake.Err? {
        return wake;
      }
      r := Ok(Max(wake.value - woken, 0));
    }

    /** Looks for a message of the topic until there is one or the deadline has come, with
        naps of at most the poll interval, during which others send. It looks after every nap
        and sleeps no later than the deadline. */
    method WaitUntil(topic: string, deadline: int, clock: Clock, sent: nat -> seq<Note>) returns (ghost naps: nat)
      modifies db, clock
      ensures db.State() == WithMail(old(db.State()), id, Mail(sent, naps))
      ensures HasUnread(Inbox(db.State(), id), topic) || deadline <= clock.t
      ensures forall k :: 0 <= k < naps ==> !HasUnread(Inbox(old(db.State()), id) + Mail(sent, k), topic)
      ensures naps > 0 ==> old(clock.t) < deadline
      ensures clock.alarm <= Max(old(clock.alarm), deadline) && clock.longest <= Max(old(clock.longest), POLL_INTERVAL)
    {
      naps := 0;
      var n := 0;
      while true
        invariant naps == n && old(clock.t) <= clock.t && db.State() == WithMail(old(db.State()), id, Mail(sent, n))
        invariant forall k :: 0 <= k < n ==> !HasUnread(Inbox(old(db.State()), id) + Mail(sent, k), topic)
        invariant n > 0 ==> old(clock.t) < deadline
        invariant clock.alarm <= Max(old(clock.alarm), deadline) && clock.longest <= Max(old(clock.longest), POLL_INTERVAL)
        decreases deadline - clock.t
      {
        var ready := db.HasUnconsumedNotification(id, topic);
        if ready {
          return;
        }
        MailArrives(old(db.State()), id, Mail(sent, n));
        var now := clock.Now();
        var remaining := deadline - now;
        if remaining <= 0 {
          return;
        }
        clock.SleepUntil(now + Min(POLL_INTERVAL, remaining));
        MailAdds(old(db.State()), id, Mail(sent, n), sent(n));
        if sent(n) != [] {
          db.notes := db.notes[id := Inbox(db.State(), id) + sent(n)];
        }
        n := n + 1;
        naps := n;
      }
    }

    /** Takes two step ids, the second for the deadline. A recorded result is returned as it
        is; otherwise the call waits until a message is there or the deadline has come, and
        the oldest unread message is consumed, or a timeout recorded. */
    method Recv(topic: string, ms: int, asked: int, rival: Option<int>, clock: Clock, sent: nat -> seq<Note>)
      returns (r: Result<Live>, ghost naps: nat, ghost at: int)
      modifies this, db, clock
      ensures stepId == old(stepId) + 2
      ensures var step := old(stepId) + 1;
              var (db1, deadline) := WakeCall(old(db.State()), id, step + 1, asked, ms, rival);
              match CheckOperation(old(db.State()), id, step, RECV)
              case Err(c) => r == Err(c) && db.State() == old(db.State())
              case Ok(Some(op)) => r == Ok(Recalled(op)) && db.State() == old(db.State())
              case Ok(None) =>
                if deadline.Err? then r == Err(deadline.code) && db.State() == db1
                else
                  var db2 := WithMail(db1, id, Mail(sent, naps));
                  var was := Inbox(db2, id);
                  (forall k :: 0 <= k < naps ==> !HasUnread(Inbox(db1, id) + Mail(sent, k), topic)) &&
                  clock.alarm <= Max(old(clock.alarm), deadline.value) &&
                  if !HasUnread(was, topic) then
                    deadline.value <= clock.t && r == Ok(Fault(Timeout, "")) &&
                    RecordOperation(db2, id, step, OpOf(RECV, r.value)) == Ok(db.State())
                  else
                    Oldest(was, topic, at) && r == Ok(Value(was[at].message)) &&
                    RecordOperation(db2.(notes := db2.notes[id := Consume(was, at)]), id, step, OpOf(RECV, r.value))
                    == Ok(db.State())
    {
      at, naps := -1, 0;
      var step := NextStepId();
      var sleepStep := NextStepId();
      var checked := db.CheckOperationExecution(id, step, RECV);
      if checked.Err? {
        r := Err(checked.code);
        return;
      }
      if checked.value.Some? {
        r := Ok(Recalled(checked.value.value));
        return;
      }
      var deadline := DurableDeadline(sleepStep, ms, asked, rival);
      if deadline.Err? {
        r := Err(deadline.code);
        return;
      }
      naps := WaitUntil(topic, deadline.value, clock, sent);
      StillMissing(old(db.State()), id, step, asked, ms, rival, Mail(sent, naps));
      var live;
      live, at := TakeMessage(topic, step);
      r := Ok(live);
    }

    /** Consumes the oldest unread message and records it, or records the timeout. */
    method TakeMessage(topic: string, step: int) returns (live: Live, ghost at: int)
      requires id in db.rows && step !in LogOf(db.State(), id)
      modifies db
      ensures var (db1, was) := (old(db.State()), Inbox(old(db.State()), id));
              if !HasUnread(was, topic) then
                live == Fault(Timeout, "") && RecordOperation(db1, id, step, OpOf(RECV, live)) == Ok(db.State())
              else
                Oldest(was, topic, at) && live == Value(was[at].message) &&
                RecordOperation(db1.(notes := db1.notes[id := Consume(was, at)]), id, step, OpOf(RECV, live)) == Ok(db.State())
    {
      var message;
      message, at := db.ConsumeOldestNotification(id, topic);
      live := if message.Some? then Value(message.value) else Fault(Timeout, "");
      var _ := db.RecordOperationResult(id, step, OpOf(RECV, live));
    }

    /** Publishes an event once: the value is written before the step is recorded. */
    method PublishEvent(key: string, value: Payload) returns (r: Result<()>)
      modifies this, db
      ensures stepId == old(stepId) + 1
      ensures (db.State(), r) == PublishCall(old(db.State()), id, stepId, key, value)
    {
      var n := NextStepId();
      var checked := db.CheckOperationExecution(id, n, SET_EVENT);
      if checked.Err? {
        return Err(checked.code);
      }
      if checked.value.Some? {
        return Ok(());
      }
      r := db.SetEvent(id, n, key, value);
      if r.Err? {
        return;
      }
      r := db.RecordOperationResult(id, n, OpRow(SET_EVENT, Null, None, None));
    }
  }
}
