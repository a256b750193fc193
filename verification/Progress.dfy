/** Nothing gets stuck: when an execution of the protocol can go on, and that a debounced call
    always can. */
module Progress {
  import opened Wrappers
  import opened Tables
  import opened StepLog
  import opened Replay
  import opened ReplayInv
  import Debouncer
  import Calls = DebounceCalls

  // ---- executions ----

  /** A step that the execution takes itself, and that takes it on. */
  ghost predicate TakesOn(body: Body, s: State, e: nat, v: Event) {
    !v.Launch? && !v.Crash? && !v.CancelRow? && !v.ResumeRow? && !v.ParkRow? && v.e == e && Enabled(body, s, v, true) &&
    e in s.execs && (e in Apply(body, s, v).execs ==> Apply(body, s, v).execs[e] != s.execs[e])
  }

  /** It lost an insert, and the one who won has not ended. */
  predicate AwaitsOther(s: State, x: Exec) {
    x.phase.Lost? && !Decided(s) && s.status != Cancelled && s.status != DeadLetter
  }

  /** What an execution does next; a closure, say, returns null. */
  function NextOf(body: Body, e: nat, x: Exec): Event {
    var a := body(x.hist);
    match x.phase
    case Ready =>
      if a.Return? then WriteOutcome(e) else if a.Enqueue? then EnqueueRow(e) else if a.Told? then Hear(e) else Check(e)
    case Missed(_) =>
      if a.Told? then Hear(e) else if a.Child? then SpawnChild(e, "") else if a.Publish? then RunPublish(e)
      else if a.Step? then RunClosure(e, Value(Null)) else Ask(e, 0)
    case Ran(_, _) => Insert(e)
    case Armed(_) => RunClosure(e, Value(Null))
    case Sleeping(_) => Wake(e)
    case Lost => ReadOutcome(e)
    case Stopped => WriteError(e)
    case Broken => WriteError(e)
    case _ => Check(e)
  }

  lemma LookupTakesOn(body: Body, s: State, e: nat)
    requires Inv(body, s) && e in s.execs && !body(s.execs[e].hist).Await? && NextOf(body, e, s.execs[e]) == Check(e)
    requires s.execs[e].phase.Ready? || s.execs[e].phase.Looking? || s.execs[e].phase.Beaten?
    ensures TakesOn(body, s, e, Check(e))
  {
    assert ExecInv(body, s, s.execs[e]);
  }

  lemma ReadyTakesOn(body: Body, s: State, e: nat)
    requires e in s.execs && s.execs[e].phase.Ready? && NextOf(body, e, s.execs[e]) != Check(e)
    ensures TakesOn(body, s, e, NextOf(body, e, s.execs[e]))
  {
    var h := s.execs[e].hist;
    assert forall r :: h + [r] != h;
  }

  lemma SpawnTakesOn(body: Body, s: State, e: nat)
    requires e in s.execs && s.execs[e].phase.Missed? && body(s.execs[e].hist).Child?
    ensures TakesOn(body, s, e, SpawnChild(e, ""))
  {
  }

  lemma MissedTakesOn(body: Body, s: State, e: nat)
    requires Inv(body, s) && e in s.execs && s.execs[e].phase.Missed?
    ensures TakesOn(body, s, e, NextOf(body, e, s.execs[e]))
  {
    assert ExecInv(body, s, s.execs[e]);
    if body(s.execs[e].hist).Child? { SpawnTakesOn(body, s, e); }
  }

  lemma LastPhasesTakeOn(body: Body, s: State, e: nat)
    requires Inv(body, s) && e in s.execs && !AwaitsOther(s, s.execs[e])
    requires var p := s.execs[e].phase; p.Armed? || p.Sleeping? || p.Lost? || p.Stopped? || p.Broken?
    ensures TakesOn(body, s, e, NextOf(body, e, s.execs[e]))
  {
    assert ExecInv(body, s, s.execs[e]);
  }

  lemma InsertTakesOn(body: Body, s: State, e: nat)
    requires e in s.execs && s.execs[e].phase.Ran?
    ensures TakesOn(body, s, e, Insert(e))
  {
  }

  lemma NextTakesOn(body: Body, s: State, e: nat)
    requires Inv(body, s) && e in s.execs && !body(s.execs[e].hist).Await?
    requires !s.execs[e].phase.Ended? && !s.execs[e].phase.Denied? && !AwaitsOther(s, s.execs[e])
    ensures TakesOn(body, s, e, NextOf(body, e, s.execs[e]))
  {
    match s.execs[e].phase
    case Ready =>
      if NextOf(body, e, s.execs[e]) == Check(e) { LookupTakesOn(body, s, e); } else { ReadyTakesOn(body, s, e); }
    case Looking => LookupTakesOn(body, s, e);
    case Beaten(_) => LookupTakesOn(body, s, e);
    case Missed(_) => MissedTakesOn(body, s, e);
    case Ran(_, _) => InsertTakesOn(body, s, e);
    case _ => LastPhasesTakeOn(body, s, e);
  }

  /** In every reachable state an execution that has not ended can go on, unless it has lost an
      insert to one that has not ended either. (What it does about a child's result is another
      matter.) */
  lemma GoesOnIff(body: Body, ss: seq<State>, vs: seq<Event>, solo: bool, k: nat, e: nat)
    requires Run(body, ss, vs, solo) && Init(body, ss[0]) && k <= |vs|
    requires e in ss[k].execs && !body(ss[k].execs[e].hist).Await?
    requires !ss[k].execs[e].phase.Ended? && !ss[k].execs[e].phase.Denied?
    ensures (exists v :: TakesOn(body, ss[k], e, v)) <==> !AwaitsOther(ss[k], ss[k].execs[e])
  {
    InitMeetsInv(body, ss[0]);
    RunKeepsInv(body, ss, vs, solo);
    if !AwaitsOther(ss[k], ss[k].execs[e]) { NextTakesOn(body, ss[k], e); }
  }

  // ---- debounced calls ----

  lemma {:induction false} LongerThanAll(names: set<string>) returns (x: string)
    ensures x != "" && forall y :: y in names ==> |y| < |x|
    decreases |names|
  {
    x := "n";
    if n :| n in names {
      var rest := LongerThanAll(names - {n});
      x := rest + n + "n";
    }
  }

  ghost predicate CallMoves(w: Calls.World, k: nat, m: Calls.Move, w': Calls.World) {
    Calls.Step(w, m, w') && k in w.calls && k in w'.calls && w'.calls[k].phase != w.calls[k].phase
  }

  lemma TryingMoves(w: Calls.World, k: nat, id: string) returns (m: Calls.Move, w': Calls.World)
    requires k in w.calls && w.calls[k].phase.Trying? && id !in w.drawn && id + "t" !in w.drawn
    ensures CallMoves(w, k, m, w')
  {
    if Calls.Free(w) {
      var d := Debouncer.DebouncerInput(w.calls[k].input, id + "t", w.calls[k].delayMs, w.timeoutMs);
      assert |id| != |id + "t"|;
      m := Calls.Win(k, id, id + "t");
      w' := Calls.SetPhase(w, k, Calls.Returned(id, id + "t"))
            .(cycles := w.cycles[id := Calls.Cycle(d, Calls.Fresh(), {}, true, false, false)], drawn := w.drawn + {id, id + "t"});
    } else {
      m := Calls.Collide(k, id);
      w' := Calls.SetPhase(w, k, Calls.Refused(id)).(drawn := w.drawn + {id});
    }
  }

  lemma RefusedMoves(w: Calls.World, k: nat) returns (m: Calls.Move, w': Calls.World)
    requires k in w.calls && w.calls[k].phase.Refused?
    ensures CallMoves(w, k, m, w')
  {
    if Calls.Free(w) {
      m, w' := Calls.LookUp(k, None), Calls.SetPhase(w, k, Calls.Trying);
    } else {
      var o :| o in w.cycles && w.cycles[o].holds;
      m, w' := Calls.LookUp(k, Some(o)), Calls.SetPhase(w, k, Calls.Found(o, w.calls[k].phase.target));
    }
  }

  lemma FoundMoves(w: Calls.World, k: nat, id: string) returns (m: Calls.Move, w': Calls.World)
    requires k in w.calls && w.calls[k].phase.Found? && w.calls[k].phase.c in w.cycles && id != "" && id !in w.drawn
    ensures CallMoves(w, k, m, w')
  {
    var (call, c) := (w.calls[k], w.calls[k].phase.c);
    if w.cycles[c].gone {
      m, w' := Calls.SendFails(k), Calls.SetPhase(w, k, Calls.Errored);
    } else {
      var cy := w.cycles[c];
      m := Calls.SendUpdate(k, id);
      w' := Calls.SetPhase(w, k, Calls.Waiting(c, id, call.phase.target))
            .(cycles := w.cycles[c := cy.(inbox := cy.inbox + {Update(call.input, call.delayMs, id)})], drawn := w.drawn + {id});
    }
  }

  lemma LateMoves(w: Calls.World, k: nat) returns (m: Calls.Move, w': Calls.World)
    requires k in w.calls && (w.calls[k].phase.Waiting? || (w.calls[k].phase.Acked? && w.calls[k].phase.c in w.cycles))
    ensures CallMoves(w, k, m, w')
  {
    if w.calls[k].phase.Waiting? {
      m, w' := Calls.GiveUp(k), Calls.SetPhase(w, k, Calls.Trying);
    } else {
      var (c, t) := (w.calls[k].phase.c, w.calls[k].phase.target);
      m := Calls.ReadRow(k);
      w' := Calls.SetPhase(w, k, Calls.Returned(c, if w.cycles[c].gone then t else w.cycles[c].d.targetId));
    }
  }

  /** In every reachable world of racing callers each call that has neither returned nor failed
      can take its next step at once, whatever the others and the internal workflows do. */
  lemma CallGoesOn(ws: seq<Calls.World>, ms: seq<Calls.Move>, i: nat, k: nat) returns (m: Calls.Move, w': Calls.World)
    requires Calls.Run(ws, ms) && Calls.Empty(ws[0]) && i <= |ms|
    requires k in ws[i].calls && !ws[i].calls[k].phase.Returned? && !ws[i].calls[k].phase.Errored?
    ensures CallMoves(ws[i], k, m, w')
  {
    Calls.RunKeepsAll(ws, ms, i);
    assert Calls.CallInv(ws[i], ws[i].calls[k]);
    var id := LongerThanAll(ws[i].drawn);
    var phase := ws[i].calls[k].phase;
    if phase.Trying? {
      m, w' := TryingMoves(ws[i], k, id);
    } else if phase.Refused? {
      m, w' := RefusedMoves(ws[i], k);
    } else if phase.Found? {
      m, w' := FoundMoves(ws[i], k, id);
    } else {
      m, w' := LateMoves(ws[i], k);
    }
  }
}
