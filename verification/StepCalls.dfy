/** The calls of a workflow context and the steps of the execution protocol are the same thing:
    what a call returns is what the body goes on with. */
module StepCalls {
  import opened Wrappers
  import opened Tables
  import opened StepLog
  import opened Replay
  import opened Reruns
  import opened Simulation

  /** Where the result of a call takes the execution: on with what it was shown, or to the end
      that the error means. */
  predicate GoesOnWith(h: seq<Seen>, r: Result<Live>, x: Exec) {
    match r
    case Ok(live) => x == Exec(h + [SeenOf(live)], Ready)
    case Err(c) =>
      x == Exec(h, if c == WorkflowCancelled then Stopped else if c == ConflictingId then Lost else Broken)
  }

  /** Another execution is about to record its row for the same step. */
  predicate Rivals(s: State, e: nat, h: seq<Seen>, slot: Slot, f: nat, op: OpRow) {
    f != e && f in s.execs && s.execs[f] == Exec(h, Ran(slot, op))
  }

  function RivalRow(s: State, rival: Option<nat>): Option<OpRow>
    requires rival.Some? ==> rival.value in s.execs && s.execs[rival.value].phase.Ran?
  {
    if rival.Some? then Some(s.execs[rival.value].phase.op) else None
  }

  function RivalInserts(rival: Option<nat>): seq<Event> {
    if rival.Some? then [Event.Insert(rival.value)] else []
  }

  /** A lookup that ends the call. */
  lemma LooksUp(body: Body, db: Db, id: Id, s: State, e: nat) returns (ss: seq<State>, vs: seq<Event>)
    requires Shows(db, id, s) && Enabled(body, s, Event.Check(e), false)
    ensures Run(body, ss, vs, false) && vs == [Event.Check(e)] && ss == [s, Put(s, e, AfterCheck(body, s, s.execs[e]))]
    ensures Shows(db, id, ss[1])
  {
    var s1 := Put(s, e, AfterCheck(body, s, s.execs[e]));
    ShowsAnyExecs(db, id, s, s1);
    ss, vs := RunOn(body, [s], [], false, Event.Check(e), s1);
  }

  // ---- steps ----

  /** The steps of the protocol that a step call takes. */
  function StepEvents(e: nat, closure: Live, ran: bool, rival: Option<nat>): seq<Event> {
    if ran then [Event.Check(e), Event.RunClosure(e, closure)] + RivalInserts(rival) + [Event.Insert(e)] else [Event.Check(e)]
  }

  lemma StepLooksUp(body: Body, db: Db, id: Id, s: State, e: nat, h: seq<Seen>)
    requires Shows(db, id, s) && e in s.execs && s.execs[e] == Exec(h, Ready) && body(h).Step?
    ensures Enabled(body, s, Event.Check(e), false)
    ensures var (x, n, name) := (AfterCheck(body, s, s.execs[e]), Position(body, h), body(h).name);
            match CheckOperation(db, id, n, name)
            case Ok(None) => x == Exec(h, Missed(Own)) && n !in s.log && s.status != Cancelled
            case Ok(Some(op)) => GoesOnWith(h, Ok(Recalled(op)), x)
            case Err(c) => GoesOnWith(h, Err(c), x)
  {
  }

  /** The closure has run: about to insert. */
  lemma ClosureRuns(body: Body, s: State, e: nat, h: seq<Seen>, closure: Live) returns (ss: seq<State>, vs: seq<Event>)
    requires e in s.execs && s.execs[e] == Exec(h, Ready) && body(h).Step?
    requires Position(body, h) !in s.log && s.status != Cancelled
    ensures Run(body, ss, vs, false) && ss[0] == s && vs == [Event.Check(e), Event.RunClosure(e, closure)]
    ensures ss[2] == Put(s, e, Exec(h, Ran(Own, OpOf(body(h).name, closure))))
  {
    var s1, s2 := Put(s, e, Exec(h, Missed(Own))), Put(s, e, Exec(h, Ran(Own, OpOf(body(h).name, closure))));
    ss, vs := RunOn(body, [s], [], false, Event.Check(e), s1);
    ss, vs := RunOn(body, ss, vs, false, Event.RunClosure(e, closure), s2);
  }

  /** What an insert leaves in the tables, won or lost. */
  function Recorded(db: Db, id: Id, n: int, op: OpRow): Db {
    WithRival(db, id, n, Some(op))
  }

  lemma InsertShows(body: Body, db: Db, id: Id, s: State, e: nat)
    requires Shows(db, id, s) && e in s.execs && s.execs[e].phase.Ran?
    ensures var x := s.execs[e];
            Shows(Recorded(db, id, SlotId(body, x.hist, x.phase.slot), x.phase.op), id, AfterInsert(body, s, e))
  {
    var x := s.execs[e];
    InsertOnTables(body, s, e);
    RecordShows(db, id, SlotId(body, x.hist, x.phase.slot), x.phase.op);
  }

  /** The rival, if there is one, is first. */
  lemma RivalGoesFirst(body: Body, db: Db, id: Id, ss: seq<State>, vs: seq<Event>, e: nat, h: seq<Seen>, slot: Slot, rival: Option<nat>)
    returns (ss': seq<State>, vs': seq<Event>)
    requires Run(body, ss, vs, false) && Shows(db, id, ss[|vs|]) && e in ss[|vs|].execs
    requires rival.Some? ==> rival.value in ss[|vs|].execs && ss[|vs|].execs[rival.value].phase.Ran?
    requires rival.Some? ==> Rivals(ss[|vs|], e, h, slot, rival.value, ss[|vs|].execs[rival.value].phase.op)
    ensures Run(body, ss', vs', false) && ss <= ss' && vs' == vs + RivalInserts(rival)
    ensures var (s, t, n) := (ss[|vs|], ss'[|vs'|], SlotId(body, h, slot));
            e in t.execs && t.execs[e] == s.execs[e] && t.status == s.status &&
            Shows(WithRival(db, id, n, RivalRow(s, rival)), id, t) &&
            t.log == if rival.Some? && n !in s.log then s.log[n := s.execs[rival.value].phase.op] else s.log
  {
    ss', vs' := ss, vs;
    if rival.Some? {
      var s := ss[|vs|];
      InsertShows(body, db, id, s, rival.value);
      InsertOnTables(body, s, rival.value);
      ss', vs' := RunOn(body, ss, vs, false, Event.Insert(rival.value), AfterInsert(body, s, rival.value));
    }
  }

  /** The last call of a step: recorded, or somebody else was first. */
  lemma StepRecords(body: Body, s: State, e: nat, h: seq<Seen>, closure: Live)
    requires body(h).Step? && e in s.execs && s.execs[e] == Exec(h, Ran(Own, OpOf(body(h).name, closure)))
    ensures var s' := AfterInsert(body, s, e);
            e in s'.execs && s'.status == s.status &&
            GoesOnWith(h, if Position(body, h) in s.log then Err(ConflictingId) else Ok(closure), s'.execs[e])
  {
    ReplayShowsTheSame(body(h).name, closure);
  }

  lemma StepCallMisses(db: Db, id: Id, n: int, name: string, closure: Live, rival: Option<OpRow>)
    requires CheckOperation(db, id, n, name) == Ok(None)
    ensures var db1 := WithRival(db, id, n, rival);
            StepCall(db, id, n, name, closure, rival) ==
            (Recorded(db1, id, n, OpOf(name, closure)), if rival.Some? then Err(ConflictingId) else Ok(closure), true)
  {
  }

  lemma StepCallRuns(body: Body, db: Db, id: Id, s: State, e: nat, h: seq<Seen>, closure: Live, rival: Option<nat>)
    returns (ss: seq<State>, vs: seq<Event>)
    requires Shows(db, id, s) && e in s.execs && s.execs[e] == Exec(h, Ready) && body(h).Step?
    requires rival.Some? ==> rival.value in s.execs && s.execs[rival.value].phase.Ran?
    requires rival.Some? ==> Rivals(s, e, h, Own, rival.value, s.execs[rival.value].phase.op)
    requires Position(body, h) !in s.log && s.status != Cancelled
    ensures var (n, name) := (Position(body, h), body(h).name);
            var (db', r, ran) := StepCall(db, id, n, name, closure, RivalRow(s, rival));
            ran && Run(body, ss, vs, false) && ss[0] == s && vs == StepEvents(e, closure, true, rival) &&
            Shows(db', id, ss[|vs|]) && e in ss[|vs|].execs && GoesOnWith(h, r, ss[|vs|].execs[e])
  {
    var n, name := Position(body, h), body(h).name;
    var op := OpOf(name, closure);
    StepCallMisses(db, id, n, name, closure, RivalRow(s, rival));
    ss, vs := ClosureRuns(body, s, e, h, closure);
    ShowsAnyExecs(db, id, s, ss[2]);
    ss, vs := RivalGoesFirst(body, db, id, ss, vs, e, h, Own, rival);
    var t := ss[|vs|];
    InsertShows(body, WithRival(db, id, n, RivalRow(s, rival)), id, t, e);
    StepRecords(body, t, e, h, closure);
    ss, vs := RunOn(body, ss, vs, false, Event.Insert(e), AfterInsert(body, t, e));
  }

  /** Whatever the log holds, whatever the closure returns and whoever else runs the same step:
      the call is a run of the protocol over the same tables, and the body goes on with exactly
      what the call returned. Where nothing was recorded that is the closure's own result, error
      code included, unless another execution recorded its own meanwhile. */
  lemma StepCallIsProtocol(body: Body, db: Db, id: Id, s: State, e: nat, h: seq<Seen>, closure: Live, rival: Option<nat>)
    returns (ss: seq<State>, vs: seq<Event>)
    requires Shows(db, id, s) && e in s.execs && s.execs[e] == Exec(h, Ready) && body(h).Step?
    requires rival.Some? ==> rival.value in s.execs && s.execs[rival.value].phase.Ran?
    requires rival.Some? ==> Rivals(s, e, h, Own, rival.value, s.execs[rival.value].phase.op)
    ensures var (n, name) := (Position(body, h), body(h).name);
            var (db', r, ran) := StepCall(db, id, n, name, closure, RivalRow(s, rival));
            Run(body, ss, vs, false) && ss[0] == s && vs == StepEvents(e, closure, ran, rival) &&
            Shows(db', id, ss[|vs|]) && e in ss[|vs|].execs && GoesOnWith(h, r, ss[|vs|].execs[e]) &&
            (ran <==> s.status != Cancelled && n !in s.log) &&
            (ran ==> r == if rival.Some? then Err(ConflictingId) else Ok(closure))
  {
    StepLooksUp(body, db, id, s, e, h);
    if s.status != Cancelled && Position(body, h) !in s.log {
      StepCallMisses(db, id, Position(body, h), body(h).name, closure, RivalRow(s, rival));
      ss, vs := StepCallRuns(body, db, id, s, e, h, closure, rival);
    } else {
      ss, vs := LooksUp(body, db, id, s, e);
    }
  }

  // ---- wake times ----

  /** About to look up the wake time of a sleep, or the deadline of a wait. */
  predicate AsksForWake(body: Body, x: Exec, h: seq<Seen>, slot: Slot) {
    x.hist == h && if slot == Own then body(h).Sleep? && x.phase.Ready? else body(h).Wait? && x.phase.Looking?
  }

  /** Where the result of the call takes the execution: it sleeps, or waits, until that time. */
  predicate WakesAtTime(h: seq<Seen>, slot: Slot, r: Result<int>, x: Exec) {
    match r
    case Ok(wake) => x == if slot == Own then Exec(h + [Got(Null)], Sleeping(wake)) else Exec(h, Armed(wake))
    case Err(c) => x == Exec(h, if c == WorkflowCancelled then Stopped else Broken)
  }

  /** The steps of the protocol that the call takes; a rival that is first is read back. */
  function WakeEvents(e: nat, now: int, found: bool, rival: Option<nat>): seq<Event> {
    if found then [Event.Check(e)]
    else if rival.Some? then [Event.Check(e), Event.Ask(e, now)] + RivalInserts(rival) + [Event.Insert(e)] + [Event.Check(e)]
    else [Event.Check(e), Event.Ask(e, now)] + RivalInserts(rival) + [Event.Insert(e)]
  }

  lemma WakeLooksUp(body: Body, db: Db, id: Id, s: State, e: nat, h: seq<Seen>, slot: Slot)
    requires Shows(db, id, s) && e in s.execs && AsksForWake(body, s.execs[e], h, slot)
    ensures Enabled(body, s, Event.Check(e), false)
    ensures var (x, n) := (AfterCheck(body, s, s.execs[e]), SlotId(body, h, slot));
            match CheckOperation(db, id, n, SLEEP)
            case Ok(None) => x == Exec(h, Missed(slot)) && n !in s.log && s.status != Cancelled
            case Ok(Some(op)) => WakesAtTime(h, slot, if op.output.Millis? then Ok(op.output.ms) else Err(WorkflowExecution), x)
            case Err(c) => WakesAtTime(h, slot, Err(c), x)
  {
  }

  lemma WakeIsAsked(body: Body, s: State, e: nat, h: seq<Seen>, slot: Slot, now: int) returns (ss: seq<State>, vs: seq<Event>)
    requires e in s.execs && AsksForWake(body, s.execs[e], h, slot) && SlotId(body, h, slot) !in s.log && s.status != Cancelled
    ensures Run(body, ss, vs, false) && ss[0] == s && vs == [Event.Check(e), Event.Ask(e, now)]
    ensures ss[2].execs == s.execs[e := Exec(h, Ran(slot, WakeRow(now + body(h).ms)))]
    ensures ss[2].status == s.status && ss[2].log == s.log && ss[2].events == s.events && ss[2].history == s.history
  {
    var s1 := Put(s, e, Exec(h, Missed(slot)));
    ss, vs := RunOn(body, [s], [], false, Event.Check(e), s1);
    ss, vs := RunOn(body, ss, vs, false, Event.Ask(e, now), Apply(body, s1, Event.Ask(e, now)));
  }

  /** The insert settles the wake time, or finds another one there. */
  lemma WakeRecords(body: Body, s: State, e: nat, h: seq<Seen>, slot: Slot, wake: int)
    requires e in s.execs && s.execs[e] == Exec(h, Ran(slot, WakeRow(wake))) && if slot == Own then body(h).Sleep? else body(h).Wait?
    ensures var (s', n) := (AfterInsert(body, s, e), SlotId(body, h, slot));
            e in s'.execs && s'.status == s.status && s'.log == (if n in s.log then s.log else s.log[n := WakeRow(wake)]) &&
            if n in s.log then s'.execs[e] == Exec(h, Beaten(slot)) else WakesAtTime(h, slot, Ok(wake), s'.execs[e])
  {
    InsertOnTables(body, s, e);
  }

  lemma WakeIsReadBack(body: Body, s: State, e: nat, h: seq<Seen>, slot: Slot, wake: int)
    requires e in s.execs && s.execs[e] == Exec(h, Beaten(slot)) && s.status != Cancelled
    requires if slot == Own then body(h).Sleep? else body(h).Wait?
    requires SlotId(body, h, slot) in s.log && s.log[SlotId(body, h, slot)] == WakeRow(wake)
    ensures Enabled(body, s, Event.Check(e), false) && WakesAtTime(h, slot, Ok(wake), AfterCheck(body, s, s.execs[e]))
  {
  }

  lemma WakeCallMisses(db: Db, id: Id, n: int, now: int, ms: int, rival: Option<int>)
    requires CheckOperation(db, id, n, SLEEP) == Ok(None)
    ensures WakeCall(db, id, n, now, ms, rival) ==
            (Recorded(db, id, n, WakeRow(if rival.Some? then rival.value else now + ms)),
             Ok(if rival.Some? then rival.value else now + ms))
  {
  }

  /** The rival's wake time. */
  function RivalWake(s: State, rival: Option<nat>): Option<int>
    requires rival.Some? ==> rival.value in s.execs && s.execs[rival.value].phase.Ran? && s.execs[rival.value].phase.op.output.Millis?
  {
    if rival.Some? then Some(s.execs[rival.value].phase.op.output.ms) else None
  }

  predicate RivalAsks(s: State, e: nat, h: seq<Seen>, slot: Slot, rival: Option<nat>) {
    rival.Some? ==>
      var f := rival.value;
      f != e && f in s.execs && s.execs[f].hist == h && s.execs[f].phase.Ran? && s.execs[f].phase.slot == slot &&
      s.execs[f].phase.op.output.Millis? && s.execs[f].phase.op == WakeRow(s.execs[f].phase.op.output.ms)
  }

  lemma WakeIsFirst(body: Body, db: Db, id: Id, s: State, e: nat, h: seq<Seen>, slot: Slot, now: int)
    returns (ss: seq<State>, vs: seq<Event>)
    requires Shows(db, id, s) && e in s.execs && AsksForWake(body, s.execs[e], h, slot)
    requires SlotId(body, h, slot) !in s.log && s.status != Cancelled
    ensures var (db', r) := WakeCall(db, id, SlotId(body, h, slot), now, body(h).ms, None);
            r == Ok(now + body(h).ms) &&
            Run(body, ss, vs, false) && ss[0] == s && vs == WakeEvents(e, now, false, None) &&
            Shows(db', id, ss[|vs|]) && e in ss[|vs|].execs && WakesAtTime(h, slot, r, ss[|vs|].execs[e])
  {
    WakeCallMisses(db, id, SlotId(body, h, slot), now, body(h).ms, None);
    ss, vs := WakeIsAsked(body, s, e, h, slot, now);
    var t := ss[2];
    ShowsAnyExecs(db, id, s, t);
    InsertShows(body, db, id, t, e);
    WakeRecords(body, t, e, h, slot, now + body(h).ms);
    ss, vs := RunOn(body, ss, vs, false, Event.Insert(e), AfterInsert(body, t, e));
  }

  lemma WakeIsSecond(body: Body, db: Db, id: Id, s: State, e: nat, h: seq<Seen>, slot: Slot, now: int, f: nat)
    returns (ss: seq<State>, vs: seq<Event>)
    requires Shows(db, id, s) && e in s.execs && AsksForWake(body, s.execs[e], h, slot) && RivalAsks(s, e, h, slot, Some(f))
    requires SlotId(body, h, slot) !in s.log && s.status != Cancelled
    ensures var (db', r) := WakeCall(db, id, SlotId(body, h, slot), now, body(h).ms, RivalWake(s, Some(f)));
            r == Ok(s.execs[f].phase.op.output.ms) &&
            Run(body, ss, vs, false) && ss[0] == s && vs == WakeEvents(e, now, false, Some(f)) &&
            Shows(db', id, ss[|vs|]) && e in ss[|vs|].execs && WakesAtTime(h, slot, r, ss[|vs|].execs[e])
  {
    var n, wake := SlotId(body, h, slot), s.execs[f].phase.op.output.ms;
    WakeCallMisses(db, id, n, now, body(h).ms, Some(wake));
    ss, vs := WakeIsAsked(body, s, e, h, slot, now);
    ShowsAnyExecs(db, id, s, ss[2]);
    ss, vs := RivalGoesFirst(body, db, id, ss, vs, e, h, slot, Some(f));
    var t := ss[|vs|];
    WakeRecords(body, t, e, h, slot, now + body(h).ms);
    var t1 := AfterInsert(body, t, e);
    InsertOnTables(body, t, e);
    ss, vs := RunOn(body, ss, vs, false, Event.Insert(e), t1);
    WakeIsReadBack(body, t1, e, h, slot, wake);
    var t2 := Put(t1, e, AfterCheck(body, t1, t1.execs[e]));
    ShowsAnyExecs(Recorded(db, id, n, WakeRow(wake)), id, t, t2);
    ss, vs := RunOn(body, ss, vs, false, Event.Check(e), t2);
  }

  /** A sleep or the deadline of a wait: the call is a run of the protocol over the same tables,
      and the execution sleeps or waits until exactly the time the call returned. Where none was
      recorded that is now plus the time asked for, unless another execution recorded its own
      meanwhile. */
  lemma WakeCallIsProtocol(body: Body, db: Db, id: Id, s: State, e: nat, h: seq<Seen>, slot: Slot, now: int, rival: Option<nat>)
    returns (ss: seq<State>, vs: seq<Event>)
    requires Shows(db, id, s) && e in s.execs && AsksForWake(body, s.execs[e], h, slot) && RivalAsks(s, e, h, slot, rival)
    ensures var n := SlotId(body, h, slot);
            var (db', r) := WakeCall(db, id, n, now, body(h).ms, RivalWake(s, rival));
            var asked := s.status != Cancelled && n !in s.log;
            Run(body, ss, vs, false) && ss[0] == s && vs == WakeEvents(e, now, !asked, rival) &&
            Shows(db', id, ss[|vs|]) && e in ss[|vs|].execs && WakesAtTime(h, slot, r, ss[|vs|].execs[e]) &&
            (asked ==> r == Ok(if rival.Some? then s.execs[rival.value].phase.op.output.ms else now + body(h).ms))
  {
    WakeLooksUp(body, db, id, s, e, h, slot);
    if s.status != Cancelled && SlotId(body, h, slot) !in s.log {
      if rival.Some? {
        ss, vs := WakeIsSecond(body, db, id, s, e, h, slot, now, rival.value);
      } else {
        ss, vs := WakeIsFirst(body, db, id, s, e, h, slot, now);
      }
    } else {
      ss, vs := LooksUp(body, db, id, s, e);
    }
  }

  // ---- receives and publications ----

  /** A receive that has waited: what it records is what it returns, and what the body goes on
      with. */
  lemma ReceiveIsProtocol(body: Body, db: Db, id: Id, s: State, e: nat, h: seq<Seen>, live: Live) returns (ss: seq<State>, vs: seq<Event>)
    requires Shows(db, id, s) && e in s.execs && s.execs[e].hist == h && s.execs[e].phase.Armed? && body(h).Wait?
    ensures var n := Position(body, h);
            Run(body, ss, vs, false) && ss[0] == s && vs == [Event.RunClosure(e, live), Event.Insert(e)] &&
            Shows(Recorded(db, id, n, OpOf(body(h).name, live)), id, ss[2]) && e in ss[2].execs &&
            GoesOnWith(h, if n in s.log then Err(ConflictingId) else Ok(live), ss[2].execs[e])
  {
    var s1 := Put(s, e, Exec(h, Ran(Own, OpOf(body(h).name, live))));
    ss, vs := RunOn(body, [s], [], false, Event.RunClosure(e, live), s1);
    ShowsAnyExecs(db, id, s, s1);
    InsertShows(body, db, id, s1, e);
    ReplayShowsTheSame(body(h).name, live);
    ss, vs := RunOn(body, ss, vs, false, Event.Insert(e), AfterInsert(body, s1, e));
  }

  function PublishEvents(e: nat, found: bool): seq<Event> {
    if found then [Event.Check(e)] else [Event.Check(e), Event.RunPublish(e), Event.Insert(e)]
  }

  lemma PublishRuns(body: Body, db: Db, id: Id, s: State, e: nat, h: seq<Seen>) returns (ss: seq<State>, vs: seq<Event>)
    requires Shows(db, id, s) && e in s.execs && s.execs[e] == Exec(h, Ready) && body(h).Publish?
    requires Position(body, h) !in s.log && s.status != Cancelled
    ensures var (db', r) := PublishCall(db, id, Position(body, h), body(h).key, body(h).value);
            Run(body, ss, vs, false) && ss[0] == s && vs == PublishEvents(e, false) && r == Ok(()) &&
            Shows(db', id, ss[3]) && e in ss[3].execs && ss[3].execs[e] == Exec(h + [Got(Null)], Ready)
  {
    PublishMisses(body, s, e, h);
    ss, vs := LooksUp(body, db, id, s, e);
    var s1 := ss[1];
    PublishShows(body, db, id, s1, e, h);
    var s2 := Apply(body, s1, Event.RunPublish(e));
    ss, vs := RunOn(body, ss, vs, false, Event.RunPublish(e), s2);
    var db1 := SetEvent(db, id, Position(body, h), body(h).key, body(h).value).value;
    PublishRecords(body, db1, id, s2, e, h);
    ss, vs := RunOn(body, ss, vs, false, Event.Insert(e), AfterInsert(body, s2, e));
  }

  lemma PublishMisses(body: Body, s: State, e: nat, h: seq<Seen>)
    requires e in s.execs && s.execs[e] == Exec(h, Ready) && body(h).Publish? && Position(body, h) !in s.log && s.status != Cancelled
    ensures Enabled(body, s, Event.Check(e), false) && AfterCheck(body, s, s.execs[e]) == Exec(h, Missed(Own))
  {
  }

  lemma PublishRecords(body: Body, db: Db, id: Id, s: State, e: nat, h: seq<Seen>)
    requires Shows(db, id, s) && body(h).Publish? && Position(body, h) !in s.log
    requires e in s.execs && s.execs[e] == Exec(h, Ran(Own, OpRow(SET_EVENT, Null, None, None)))
    ensures var (recorded, s') := (RecordOperation(db, id, Position(body, h), OpRow(SET_EVENT, Null, None, None)), AfterInsert(body, s, e));
            recorded.Ok? && Shows(recorded.value, id, s') && e in s'.execs && s'.execs[e] == Exec(h + [Got(Null)], Ready)
  {
    InsertShows(body, db, id, s, e);
  }

  lemma PublishShows(body: Body, db: Db, id: Id, s: State, e: nat, h: seq<Seen>)
    requires Shows(db, id, s) && e in s.execs && s.execs[e] == Exec(h, Missed(Own)) && body(h).Publish?
    ensures var written := SetEvent(db, id, Position(body, h), body(h).key, body(h).value);
            written.Ok? && Enabled(body, s, Event.RunPublish(e), false) &&
            var s' := Apply(body, s, Event.RunPublish(e));
            Shows(written.value, id, s') && s'.log == s.log && e in s'.execs &&
            s'.execs[e] == Exec(h, Ran(Own, OpRow(SET_EVENT, Null, None, None)))
  {
  }

  /** A publication: the call is a run of the protocol over the same tables, and the body goes on
      as after a success exactly if the call succeeded. */
  lemma PublishCallIsProtocol(body: Body, db: Db, id: Id, s: State, e: nat, h: seq<Seen>) returns (ss: seq<State>, vs: seq<Event>)
    requires Shows(db, id, s) && e in s.execs && s.execs[e] == Exec(h, Ready) && body(h).Publish?
    ensures var (n, a) := (Position(body, h), body(h));
            var (db', r) := PublishCall(db, id, n, a.key, a.value);
            Run(body, ss, vs, false) && ss[0] == s && vs == PublishEvents(e, s.status == Cancelled || n in s.log) &&
            Shows(db', id, ss[|vs|]) && e in ss[|vs|].execs &&
            ss[|vs|].execs[e] == (if r.Ok? then Exec(h + [Got(Null)], Ready)
                                  else Exec(h, if r.code == WorkflowCancelled then Stopped else Broken))
  {
    if s.status != Cancelled && Position(body, h) !in s.log {
      ss, vs := PublishRuns(body, db, id, s, e, h);
    } else {
      ss, vs := LooksUp(body, db, id, s, e);
    }
  }
}
