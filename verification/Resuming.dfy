/** When a cancelled workflow may be resumed. The engine resumes at any time; an execution
    that has seen the cancellation may still have its error to write. */
module Resuming {
  import opened Wrappers
  import opened Tables
  import opened StepLog
  import opened Replay
  import opened ReplayInv
  import opened Durable
  import opened Reruns

  /** Whatever happens from here on, a decided outcome is the evaluation of the log. */
  ghost predicate AllRunsRefine(body: Body, s: State) {
    forall ss: seq<State>, vs: seq<Event> :: Run(body, ss, vs, false) && ss[0] == s ==> Refines(body, ss[|vs|].log, ss[|vs|])
  }

  lemma SafeResume(body: Body, s: State)
    requires Inv(body, s) && s.status == Cancelled && NoneStopped(s)
    ensures AllRunsRefine(body, Resumed(s))
  {
    StepKeepsInv(body, s, ResumeRow, Resumed(s), false);
    forall ss: seq<State>, vs: seq<Event> | Run(body, ss, vs, false) && ss[0] == Resumed(s)
      ensures Refines(body, ss[|vs|].log, ss[|vs|])
    {
      RunKeepsInv(body, ss, vs, false);
      InvRefines(body, ss[|vs|], ss[|vs|].log, ss[|vs|].spine);
    }
  }

  /** A resume is safe exactly when no execution has seen the cancellation without having
      ended: otherwise its late error becomes the outcome, unless the log evaluates to a
      failure anyway. */
  lemma ResumeIsSafeIff(body: Body, s: State)
    requires Inv(body, s) && s.status == Cancelled && !Evaluates(body, s.log, Failed)
    ensures AllRunsRefine(body, Resumed(s)) <==> NoneStopped(s)
  {
    if NoneStopped(s) {
      SafeResume(body, s);
    } else {
      var e :| e in s.execs && s.execs[e].phase.Stopped?;
      LateErrorFails(body, s, e);
    }
  }

  lemma LateErrorFails(body: Body, s: State, e: nat)
    requires e in s.execs && s.execs[e].phase.Stopped? && s.status == Cancelled && !Evaluates(body, s.log, Failed)
    ensures !AllRunsRefine(body, Resumed(s))
  {
    var r := Resumed(s);
    var s' := Written(r, Failed).(execs := r.execs - {e});
    var ss, vs := [r, s'], [WriteError(e)];
    OneStep(body, r, WriteError(e), s');
    ErrorIsWritten(body, r, s', e);
    assert Run(body, ss, vs, false) && ss[0] == r && ss[|vs|] == s';
  }

  lemma ErrorIsWritten(body: Body, r: State, s': State, e: nat)
    requires r.status != Cancelled && !Evaluates(body, r.log, Failed) && s' == Written(r, Failed).(execs := r.execs - {e})
    ensures !Refines(body, s'.log, s')
  {
  }

  lemma OneStep(body: Body, s: State, v: Event, s': State)
    requires Next(body, s, v, s', false)
    ensures Run(body, [s, s'], [v], false)
  {
  }

  lemma CancelledOn(body: Body, ss: seq<State>, vs: seq<Event>, s: State) returns (ss': seq<State>, vs': seq<Event>)
    requires Run(body, ss, vs, false) && ss[|vs|] == s && s.status == Pending
    ensures Run(body, ss', vs', false) && ss <= ss' && ss'[|vs'|] == s.(status := Cancelled)
  {
    ss', vs' := RunOn(body, ss, vs, false, CancelRow, s.(status := Cancelled));
  }

  /** A first execution up to the moment it sees the cancellation. */
  lemma StoppedRun(body: Body, name: string) returns (ss: seq<State>, vs: seq<Event>)
    requires body([]) == Step(name)
    ensures Run(body, ss, vs, false) && Init(body, ss[0])
    ensures ss[|vs|] == State(Cancelled, None, map[], map[], map[], map[], map[], map[0 := Exec([], Stopped)], [], None, {})
  {
    var s := State(Pending, None, map[], map[], map[], map[], map[], map[], [], None, {});
    assert WakesAt(body, s, 0);
    var s1 := Put(s, 0, Exec([], Ready));
    var s2 := s1.(status := Cancelled);
    ss, vs := RunOn(body, [s], [], false, Launch(0), s1);
    ss, vs := CancelledOn(body, ss, vs, s1);
    ss, vs := RunOn(body, ss, vs, false, Check(0), Put(s2, 0, Exec([], Stopped)));
  }

  /** A second execution, after a resume, up to the result of its first step. */
  lemma SecondRun(body: Body, s: State, name: string, x: Payload) returns (ts: seq<State>, us: seq<Event>)
    requires body([]) == Step(name) && s.status == Enqueued && s.outcome == None && s.log == map[] && s.spine == [] && s.last == None
    requires s.execs == map[0 := Exec([], Stopped)]
    ensures Run(body, ts, us, false) && ts[0] == s
    ensures ts[|us|] == s.(log := map[0 := OpOf(name, Value(x))], spine := [Got(x)], last := Some(1),
                           execs := map[0 := Exec([], Stopped), 1 := Exec([Got(x)], Ready)])
  {
    var stopped := Exec([], Stopped);
    ts, us := RunOn(body, [s], [], false, Launch(1), s.(execs := map[0 := stopped, 1 := Exec([], Ready)]));
    ts, us := RunOn(body, ts, us, false, Check(1), s.(execs := map[0 := stopped, 1 := Exec([], Missed(Own))]));
    ts, us := FirstResult(body, ts, us, name, x);
  }

  lemma FirstResult(body: Body, ts: seq<State>, us: seq<Event>, name: string, x: Payload)
    returns (ts': seq<State>, us': seq<Event>)
    requires Run(body, ts, us, false) && body([]) == Step(name) && ts[|us|].log == map[]
    requires ts[|us|].execs == map[0 := Exec([], Stopped), 1 := Exec([], Missed(Own))]
    ensures Run(body, ts', us', false) && ts'[0] == ts[0]
    ensures ts'[|us'|] == ts[|us|].(log := map[0 := OpOf(name, Value(x))], spine := [Got(x)], last := Some(1),
                                    execs := map[0 := Exec([], Stopped), 1 := Exec([Got(x)], Ready)])
  {
    var s3 := ts[|us|].(execs := map[0 := Exec([], Stopped), 1 := Exec([], Ran(Own, OpOf(name, Value(x))))]);
    ts', us' := RunOn(body, ts, us, false, RunClosure(1, Value(x)), s3);
    FirstInsert(body, s3, 1, name, x);
    ts', us' := RunOn(body, ts', us', false, Insert(1), AfterInsert(body, s3, 1));
  }

  lemma FirstInsert(body: Body, s: State, e: nat, name: string, x: Payload)
    requires body([]) == Step(name) && s.log == map[] && e in s.execs && s.execs[e] == Exec([], Ran(Own, OpOf(name, Value(x))))
    ensures AfterInsert(body, s, e) ==
            s.(log := map[0 := OpOf(name, Value(x))], spine := [Got(x)], last := Some(e),
               execs := s.execs[e := Exec([Got(x)], Ready)])
  {
    assert [] + [Got(x)] == [Got(x)];
  }

  /** The failing run: cancelled, seen, resumed too early, run again to success, and then the
      stopped execution writes its error over the result. */
  lemma EarlyResumeLosesResult(body: Body, name: string, x: Payload, v: Payload)
    returns (ss: seq<State>, vs: seq<Event>, ts: seq<State>, us: seq<Event>)
    requires body([]) == Step(name) && body([Got(x)]) == Return(Got(v))
    ensures Run(body, ss, vs, false) && Init(body, ss[0])
    ensures Run(body, ts, us, false) && ts[0] == Resumed(ss[|vs|])
    ensures |us| > 0 && ts[|us| - 1].status == Success && ts[|us| - 1].outcome == Some(Got(v))
    ensures ts[|us|].status == Error && ts[|us|].outcome == Some(Failed) && Evaluates(body, ts[|us|].log, Got(v))
  {
    ss, vs := StoppedRun(body, name);
    ts, us := SecondRun(body, Resumed(ss[|vs|]), name, x);
    var s4 := ts[|us|];
    var s5 := s4.(status := Success, outcome := Some(Got(v)), execs := s4.execs[1 := Exec([Got(x)], Ended(Got(v)))]);
    ts, us := RunOn(body, ts, us, false, WriteOutcome(1), s5);
    ts, us := RunOn(body, ts, us, false, WriteError(0), s5.(status := Error, outcome := Some(Failed), execs := s5.execs - {0}));
    EvalOfOneStep(body, s4.log, name, x, v);
  }

  lemma EvalOfOneStep(body: Body, log: Log, name: string, x: Payload, v: Payload)
    requires body([]) == Step(name) && body([Got(x)]) == Return(Got(v)) && log == map[0 := OpOf(name, Value(x))]
    ensures Evaluates(body, log, Got(v))
  {
    assert [] + [Got(x)] == [Got(x)];
    assert Eval(body, log, [Got(x)], 0) == Some(Return(Got(v)));
    assert Eval(body, log, [], 1) == Some(Return(Got(v)));
  }
}
