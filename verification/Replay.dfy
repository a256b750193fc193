/** Executions of one workflow id as a protocol over its step log: any number of them at
    once, each a program counter over atomic database calls, crashing and relaunched
    anywhere. */
module Replay {
  import opened Wrappers
  import opened Tables
  import opened StepLog

  // ---- bodies ----

  /** What a body does next. */
  datatype Action =
    | Step(name: string)                            // a memoized closure
    | Sleep(ms: int)
    | Wait(name: string, ms: int)                   // recv or get_event: a step and its deadline
    | Publish(key: string, value: Payload)          // set_event
    | Child(name: string)                           // a child workflow
    | Await(child: Id)                              // a child's result, read from its row
    | Enqueue(id: Id, input: string)                // a row of its own, outside any queue step
    | Told(answer: Seen, takesId: bool)             // what every attempt is answered, unrecorded
    | Return(out: Seen)

  /** A deterministic body: what it does next depends on the results it has seen. */
  type Body = seq<Seen> -> Action

  /** The step ids an action takes. */
  function Width(a: Action): nat {
    match a
    case Return(_) => 0
    case Await(_) => 0
    case Enqueue(_, _) => 0
    case Told(_, takesId) => if takesId then 1 else 0
    case Wait(_, _) => 2
    case _ => 1
  }

  /** The answer of an action that always has the same one and records none. */
  function AnswerOf(a: Action): Option<Seen> {
    match a
    case Enqueue(_, _) => Some(Got(Null))
    case Told(answer, _) => Some(answer)
    case _ => None
  }

  function OpName(a: Action): string {
    match a
    case Step(n) => n
    case Sleep(_) => SLEEP
    case Wait(n, _) => n
    case Publish(_, _) => SET_EVENT
    case Child(n) => n
    case _ => ""
  }

  /** The step counter after the results in h. */
  function Position(body: Body, h: seq<Seen>): nat {
    if h == [] then 0 else Position(body, h[..|h| - 1]) + Width(body(h[..|h| - 1]))
  }

  predicate IsWake(op: OpRow) {
    op.name == SLEEP && op.output.Millis?
  }

  /** What a replay of an action sees in a logged row; None when the lookup fails. A body
      does not look at how long it slept. */
  function SeenIn(a: Action, op: OpRow): Option<Seen> {
    match a
    case Child(_) => if op.child.Some? then Some(Got(Text(op.child.value))) else None
    case Sleep(_) => if IsWake(op) then Some(Got(Null)) else None
    case Publish(_, _) => if op.name == SET_EVENT then Some(Got(Null)) else None
    case Return(_) => None
    case Await(_) => None
    case Enqueue(_, _) => None
    case Told(_, _) => None
    case _ => if op.name == OpName(a) then Some(SeenOf(Recalled(op))) else None
  }

  /** The log holds every recorded result of h at the id where the body asks for it; where the
      body is only told, h has what it is told, and a row left there names a child. */
  ghost predicate Follows(body: Body, log: Log, h: seq<Seen>) {
    forall i :: 0 <= i < |h| ==> Logged(body, log, h, i)
  }

  predicate Logged(body: Body, log: Log, h: seq<Seen>, i: nat)
    requires i < |h|
  {
    var a, n := body(h[..i]), Position(body, h[..i]);
    match AnswerOf(a)
    case Some(r) => h[i] == r && (Width(a) > 0 && n in log ==> log[n].child.Some?)
    case None => n in log && SeenIn(a, log[n]) == Some(h[i])
  }

  /** Evaluating the body against the log alone, with at most fuel actions: its return value,
      if the log reaches that far. */
  function Eval(body: Body, log: Log, h: seq<Seen>, fuel: nat): (r: Option<Action>)
    ensures r.Some? ==> r.value.Return?
    decreases fuel
  {
    var a, n := body(h), Position(body, h);
    if a.Return? then Some(a)
    else if fuel == 0 then None
    else if AnswerOf(a).Some? then Eval(body, log, h + [AnswerOf(a).value], fuel - 1)
    else if n in log && SeenIn(a, log[n]).Some? then Eval(body, log, h + [SeenIn(a, log[n]).value], fuel - 1)
    else None
  }

  // ---- executions ----

  datatype Slot = Own | Deadline

  datatype Phase =
    | Ready                    // about to look up the next action
    | Looking                  // the wait is not recorded: about to look up its deadline
    | Missed(slot: Slot)       // the slot is not recorded: about to produce its row
    | Ran(slot: Slot, op: OpRow) // produced it: about to insert it
    | Beaten(slot: Slot)       // somebody else inserted a wake time: about to read it back
    | Armed(wake: int)         // the deadline of a wait is settled
    | Sleeping(wake: int)      // the wake time of a sleep is settled
    | Ended(out: Seen)         // the outcome is known to the caller
    | Lost                     // lost an insert: waits for the other's outcome
    | Denied                   // waited, and found the row cancelled or dead-lettered
    | Stopped                  // saw the cancellation: about to write its error
    | Broken                   // a lookup failed: about to write its error

  datatype Exec = Exec(hist: seq<Seen>, phase: Phase)

  /** Still able to change the log or the outcome. */
  predicate Active(p: Phase) {
    !p.Ended? && !p.Lost? && !p.Denied?
  }

  datatype State = State(
    status: Status, outcome: Option<Seen>,
    log: Log, initial: Log,
    events: map<string, Payload>, history: map<(int, string), Payload>,
    spawned: map<Id, string>,
    execs: map<nat, Exec>,
    // Bookkeeping for the statements below: the results the log adds up to, the execution
    // that made the latest insert, and the wake times asked for.
    spine: seq<Seen>, last: Option<nat>, asked: set<(int, int)>)

  datatype Event =
    | Launch(e: nat)
    | Crash(e: nat)
    | Check(e: nat)
    | Ask(e: nat, now: int)
    | RunClosure(e: nat, r: Live)
    | RunPublish(e: nat)
    | Insert(e: nat)
    | SpawnChild(e: nat, child: Id)
    | Wake(e: nat)
    | Hear(e: nat)
    | Leave(e: nat, op: OpRow)   // told, after leaving a row that no attempt reads
    | Clash(e: nat)              // such a row is there already
    | EnqueueRow(e: nat)
    | WriteOutcome(e: nat)
    | ReadOutcome(e: nat)
    | WriteError(e: nat)
    | CancelRow
    | ResumeRow
    | ParkRow

  /** The steps that bring an unrecorded answer. */
  predicate Hears(v: Event) {
    v.Hear? || v.EnqueueRow? || v.Leave?
  }

  function Put(s: State, e: nat, x: Exec): State {
    s.(execs := s.execs[e := x])
  }

  function SlotId(body: Body, h: seq<Seen>, slot: Slot): int {
    Position(body, h) + if slot == Own then 0 else 1
  }

  /** A recorded wake time settles a sleep or the deadline of a wait. */
  function Settle(body: Body, h: seq<Seen>, wake: int): Exec {
    if body(h).Sleep? then Exec(h + [Got(Null)], Sleeping(wake)) else Exec(h, Armed(wake))
  }

  /** The lookup of the next action, or of its deadline. */
  function AfterCheck(body: Body, s: State, x: Exec): Exec {
    var a, h := body(x.hist), x.hist;
    var slot := match x.phase case Looking => Deadline case Beaten(b) => b case _ => Own;
    var n := SlotId(body, h, slot);
    if a.Told? then Exec(h, Missed(Own))
    else if a.Child? then
      match CheckChild(s.log, n)
      case Some(c) => Exec(h + [Got(Text(c))], Ready)
      case None => Exec(h, Missed(Own))
    else
      match CheckLog(s.status, s.log, n, if slot == Deadline then SLEEP else OpName(a))
      case Err(c) => Exec(h, if c == WorkflowCancelled then Stopped else Broken)
      case Ok(None) =>
        if x.phase.Beaten? then Exec(h, Broken)
        else if a.Wait? && slot == Own then Exec(h, Looking)
        else Exec(h, Missed(slot))
      case Ok(Some(op)) =>
        if slot == Deadline || a.Sleep? then
          if op.output.Millis? then Settle(body, h, op.output.ms) else Exec(h, Broken)
        else if SeenIn(a, op).Some? then Exec(h + [SeenIn(a, op).value], Ready)
        else Exec(h, Broken)
  }

  /** Where an insert under the primary key takes an execution: the winner goes on, a beaten
      wake time is read back, any other loser stops. */
  function InsertedExec(body: Body, won: bool, x: Exec): Exec
    requires x.phase.Ran?
  {
    var a, h, op := body(x.hist), x.hist, x.phase.op;
    if !won then Exec(h, if x.phase.slot == Deadline || a.Sleep? then Beaten(x.phase.slot) else Lost)
    else if x.phase.slot == Deadline then if op.output.Millis? then Settle(body, h, op.output.ms) else Exec(h, Broken)
    else if SeenIn(a, op).None? then Exec(h, Broken)
    else if a.Sleep? then Settle(body, h, op.output.ms)
    else Exec(h + [SeenIn(a, op).value], Ready)
  }

  /** The results the log adds up to once the row is in. */
  function InsertedSpine(body: Body, spine: seq<Seen>, x: Exec): seq<Seen>
    requires x.phase.Ran?
  {
    var seen := SeenIn(body(x.hist), x.phase.op);
    if x.phase.slot == Deadline || seen.None? then spine else x.hist + [seen.value]
  }

  function AfterInsert(body: Body, s: State, e: nat): State
    requires e in s.execs && s.execs[e].phase.Ran?
  {
    var x := s.execs[e];
    var n := SlotId(body, x.hist, x.phase.slot);
    var s1 := if n in s.log then s
              else s.(log := s.log[n := x.phase.op], last := Some(e), spine := InsertedSpine(body, s.spine, x));
    Put(s1, e, InsertedExec(body, n !in s.log, x))
  }

  /** An unrecorded answer: the execution goes on, and with it the spine if nobody was there yet. */
  function Heard(s: State, e: nat, r: Seen): State
    requires e in s.execs
  {
    var h := s.execs[e].hist;
    Put(s.(spine := if h == s.spine then h + [r] else s.spine), e, Exec(h + [r], Ready))
  }

  ghost predicate Enabled(body: Body, s: State, v: Event, solo: bool) {
    match v
    case Launch(e) =>
      // execution numbers are not reused
      e !in s.execs && s.last != Some(e) && s.status != Success && s.status != Error &&
      (solo ==> forall o :: o in s.execs ==> !Active(s.execs[o].phase))
    case Crash(e) => e in s.execs
    case Check(e) =>
      e in s.execs && Width(body(s.execs[e].hist)) > 0 &&
      (body(s.execs[e].hist).Told? ==> Position(body, s.execs[e].hist) !in s.log) &&
      (s.execs[e].phase.Ready? || s.execs[e].phase.Looking? || s.execs[e].phase.Beaten?)
    case Ask(e, _) =>
      e in s.execs && s.execs[e].phase.Missed? && (body(s.execs[e].hist).Sleep? || body(s.execs[e].hist).Wait?)
    case RunClosure(e, _) =>
      e in s.execs &&
      (if body(s.execs[e].hist).Wait? then s.execs[e].phase.Armed?
       else body(s.execs[e].hist).Step? && s.execs[e].phase.Missed?)
    case RunPublish(e) => e in s.execs && body(s.execs[e].hist).Publish? && s.execs[e].phase.Missed?
    case Insert(e) => e in s.execs && s.execs[e].phase.Ran?
    case SpawnChild(e, _) => e in s.execs && body(s.execs[e].hist).Child? && s.execs[e].phase.Missed?
    case Wake(e) => e in s.execs && s.execs[e].phase.Sleeping?
    case Hear(e) =>
      e in s.execs && body(s.execs[e].hist).Told? && (s.execs[e].phase.Ready? || s.execs[e].phase.Missed?)
    case Leave(e, op) =>
      e in s.execs && op.child.Some? && body(s.execs[e].hist).Told? && body(s.execs[e].hist).takesId && s.execs[e].phase.Missed? &&
      Position(body, s.execs[e].hist) !in s.log
    case Clash(e) =>
      e in s.execs && body(s.execs[e].hist).Told? && body(s.execs[e].hist).takesId && s.execs[e].phase.Missed? &&
      Position(body, s.execs[e].hist) in s.log
    case EnqueueRow(e) => e in s.execs && s.execs[e].phase.Ready? && body(s.execs[e].hist).Enqueue?
    case WriteOutcome(e) => e in s.execs && s.execs[e].phase.Ready? && body(s.execs[e].hist).Return?
    case ReadOutcome(e) =>
      e in s.execs && s.execs[e].phase.Lost? && (Decided(s) || s.status == Cancelled || s.status == DeadLetter)
    case WriteError(e) => e in s.execs && (s.execs[e].phase.Stopped? || s.execs[e].phase.Broken?)
    case CancelRow => true
    case ParkRow => true
    case ResumeRow => NoneStopped(s)
  }

  /** No execution has seen the cancellation without having ended yet. */
  predicate NoneStopped(s: State) {
    forall o :: o in s.execs ==> !s.execs[o].phase.Stopped?
  }

  predicate Decided(s: State) {
    s.outcome.Some? && (s.status == Success || s.status == Error)
  }

  function Resumed(s: State): State {
    if s.status == Success || s.status == Error then s else s.(status := Enqueued)
  }

  /** The guarded outcome update: nothing is written over CANCELLED. */
  function Written(s: State, out: Seen): State {
    if s.status == Cancelled then s
    else s.(status := if out.Got? then Success else Error, outcome := Some(out))
  }

  function Apply(body: Body, s: State, v: Event): State
    requires Enabled(body, s, v, false)
  {
    match v
    case Launch(e) => Put(s, e, Exec([], Ready))
    case Crash(e) => s.(execs := s.execs - {e})
    case Check(e) => Put(s, e, AfterCheck(body, s, s.execs[e]))
    case Ask(e, now) =>
      var h, slot := s.execs[e].hist, s.execs[e].phase.slot;
      var wake := now + body(h).ms;
      Put(s.(asked := s.asked + {(SlotId(body, h, slot), wake)}), e,
          Exec(h, Ran(slot, OpRow(SLEEP, Millis(wake), None, None))))
    case RunClosure(e, r) => Put(s, e, Exec(s.execs[e].hist, Ran(Own, OpOf(OpName(body(s.execs[e].hist)), r))))
    case RunPublish(e) =>
      var h := s.execs[e].hist;
      var a := body(h);
      Put(s.(events := s.events[a.key := a.value],
             history := s.history[(Position(body, h), a.key) := a.value]),
          e, Exec(h, Ran(Own, OpRow(SET_EVENT, Null, None, None))))
    case Insert(e) => AfterInsert(body, s, e)
    case SpawnChild(e, child) =>
      var h := s.execs[e].hist;
      AfterInsert(body, Put(s, e, Exec(h, Ran(Own, OpRow(body(h).name, Null, None, Some(child))))), e)
    case Wake(e) => Put(s, e, Exec(s.execs[e].hist, Ready))
    case Hear(e) => Heard(s, e, body(s.execs[e].hist).answer)
    case Leave(e, op) =>
      var h := s.execs[e].hist;
      Heard(s.(log := s.log[Position(body, h) := op], last := Some(e)), e, body(h).answer)
    case Clash(e) => Put(s, e, Exec(s.execs[e].hist, Lost))
    case EnqueueRow(e) =>
      var a := body(s.execs[e].hist);
      Heard(if a.id in s.spawned then s else s.(spawned := s.spawned[a.id := a.input]), e, Got(Null))
    case WriteOutcome(e) =>
      Put(Written(s, body(s.execs[e].hist).out), e, Exec(s.execs[e].hist, Ended(body(s.execs[e].hist).out)))
    case ReadOutcome(e) => Put(s, e, Exec(s.execs[e].hist, if Decided(s) then Ended(s.outcome.value) else Denied))
    case WriteError(e) => Written(s, Failed).(execs := s.execs - {e})
    case CancelRow => if s.status == Success || s.status == Error then s else s.(status := Cancelled)
    case ResumeRow => Resumed(s)
    case ParkRow => if s.status == Pending then s.(status := DeadLetter) else s
  }

  ghost predicate Next(body: Body, s: State, v: Event, s': State, solo: bool) {
    Enabled(body, s, v, solo) && s' == Apply(body, s, v)
  }

  /** A run; in a solo run a workflow is launched only when no execution of it is active. */
  ghost predicate Run(body: Body, ss: seq<State>, vs: seq<Event>, solo: bool) {
    |ss| == |vs| + 1 && forall k {:trigger vs[k]} :: 0 <= k < |vs| ==> Next(body, ss[k], vs[k], ss[k + 1], solo)
  }
}
