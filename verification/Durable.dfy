/** The guarantees of durable execution, over every run of the protocol. */
module Durable {
  import opened Wrappers
  import opened Tables
  import opened StepLog
  import opened Replay
  import opened ReplayInv

  // ---- evaluation against the log ----

  /** Evaluating along logged results reaches the end of the history. */
  lemma {:induction false} EvalFollows(body: Body, log: Log, h: seq<Seen>, i: nat, fuel: nat)
    requires Follows(body, log, h) && body(h).Return? && i <= |h| && fuel >= |h| - i
    ensures Eval(body, log, h[..i], fuel) == Some(body(h))
    decreases |h| - i
  {
    if i == |h| {
      assert h[..i] == h;
    } else {
      assert Logged(body, log, h, i);
      assert h[..i] + [h[i]] == h[..i + 1];
      EvalFollows(body, log, h, i + 1, fuel - 1);
    }
  }

  /** The body evaluates to out against the log. */
  ghost predicate Evaluates(body: Body, log: Log, out: Seen) {
    exists fuel: nat :: Eval(body, log, [], fuel) == Some(Return(out))
  }

  lemma {:induction false} MoreFuel(body: Body, log: Log, h: seq<Seen>, fuel: nat, more: nat)
    requires Eval(body, log, h, fuel).Some? && fuel <= more
    ensures Eval(body, log, h, more) == Eval(body, log, h, fuel)
    decreases fuel
  {
    var a, n := body(h), Position(body, h);
    if !a.Return? {
      var r := if AnswerOf(a).Some? then AnswerOf(a).value else SeenIn(a, log[n]).value;
      MoreFuel(body, log, h + [r], fuel - 1, more - 1);
    }
  }

  /** There is at most one evaluation. */
  lemma EvaluatesOnce(body: Body, log: Log, out: Seen, out': Seen)
    requires Evaluates(body, log, out) && Evaluates(body, log, out')
    ensures out == out'
  {
    var m: nat :| Eval(body, log, [], m) == Some(Return(out));
    var n: nat :| Eval(body, log, [], n) == Some(Return(out'));
    MoreFuel(body, log, [], m, if m < n then n else m);
    MoreFuel(body, log, [], n, if m < n then n else m);
  }

  lemma FollowsPrefix(body: Body, log: Log, g: seq<Seen>, h: seq<Seen>)
    requires Follows(body, log, h) && g <= h
    ensures Follows(body, log, g)
  {
    forall i | 0 <= i < |g| ensures Logged(body, log, g, i) {
      assert g[..i] == h[..i];
      assert Logged(body, log, h, i);
    }
  }

  /** Two histories one log accounts for: the shorter is a prefix of the longer. */
  lemma {:induction false} HistoriesAgree(body: Body, log: Log, g: seq<Seen>, h: seq<Seen>)
    requires Follows(body, log, g) && Follows(body, log, h) && |g| <= |h|
    ensures g == h[..|g|]
  {
    if g != [] {
      var m := |g| - 1;
      forall i | 0 <= i < m ensures Logged(body, log, g[..m], i) {
        assert g[..m][..i] == g[..i];
        assert Logged(body, log, g, i);
      }
      HistoriesAgree(body, log, g[..m], h);
      assert g[..m] == h[..m];
      assert Logged(body, log, g, m) && Logged(body, log, h, m);
      assert g == g[..m] + [g[m]] && h[..|g|] == h[..m] + [h[m]];
    }
  }

  // ---- the log and the spine only grow ----

  predicate Grows(s: State, s': State) {
    s.spine <= s'.spine && s.asked <= s'.asked && s'.initial == s.initial &&
    forall k :: k in s.log ==> k in s'.log && s'.log[k] == s.log[k]
  }

  lemma InsertGrows(body: Body, s: State, e: nat)
    requires SpineInv(body, s) && e in s.execs && s.execs[e].phase.Ran? && s.execs[e].hist <= s.spine
    requires s.execs[e].phase.slot == Own ==> !body(s.execs[e].hist).Return? && AnswerOf(body(s.execs[e].hist)).None?
    ensures Grows(s, AfterInsert(body, s, e))
  {
    var x := s.execs[e];
    if x.phase.slot == Own && Position(body, x.hist) !in s.log { AtFrontier(body, s, x.hist); }
  }

  lemma SpawnIsInsert(body: Body, s: State, e: nat, child: Id)
    requires Enabled(body, s, SpawnChild(e, child), false)
    ensures Apply(body, s, SpawnChild(e, child)) == AfterInsert(body, Spawning(body, s, e, child), e)
  {
  }

  predicate SameLog(s: State, s': State) {
    s'.log == s.log && s'.spine == s.spine && s'.initial == s.initial && s.asked <= s'.asked
  }

  lemma ProduceKeepsLog(body: Body, s: State, v: Event)
    requires Enabled(body, s, v, false) && (v.Ask? || v.RunClosure? || v.RunPublish? || v.Check? || v.Wake? || v.Clash?)
    ensures SameLog(s, Apply(body, s, v))
  {
  }

  lemma FinishKeepsLog(body: Body, s: State, v: Event)
    requires Enabled(body, s, v, false) && (v.WriteOutcome? || v.ReadOutcome? || v.WriteError?)
    ensures SameLog(s, Apply(body, s, v))
  {
  }

  lemma ControlKeepsLog(body: Body, s: State, v: Event)
    requires Enabled(body, s, v, false) && (v.Launch? || v.Crash? || v.CancelRow? || v.ResumeRow? || v.ParkRow?)
    ensures SameLog(s, Apply(body, s, v))
  {
  }

  /** Only inserts touch the log, and only they and unrecorded answers the spine. */
  lemma OthersKeepLog(body: Body, s: State, v: Event)
    requires Enabled(body, s, v, false) && !v.Insert? && !v.SpawnChild? && !Hears(v)
    ensures SameLog(s, Apply(body, s, v))
  {
    if v.Ask? || v.RunClosure? || v.RunPublish? || v.Check? || v.Wake? || v.Clash? {
      ProduceKeepsLog(body, s, v);
    } else if v.WriteOutcome? || v.ReadOutcome? || v.WriteError? {
      FinishKeepsLog(body, s, v);
    } else {
      ControlKeepsLog(body, s, v);
    }
  }

  lemma InsertStepGrows(body: Body, s: State, e: nat)
    requires Inv(body, s) && Enabled(body, s, Insert(e), false)
    ensures Grows(s, Apply(body, s, Insert(e)))
  {
    assert ExecInv(body, s, s.execs[e]);
    InsertGrows(body, s, e);
  }

  lemma SpawnStepGrows(body: Body, s: State, e: nat, child: Id)
    requires Inv(body, s) && Enabled(body, s, SpawnChild(e, child), false)
    ensures Grows(s, Apply(body, s, SpawnChild(e, child)))
  {
    assert ExecInv(body, s, s.execs[e]);
    SpawnIsInsert(body, s, e, child);
    SameLogKeepsSpine(body, s, Spawning(body, s, e, child));
    InsertGrows(body, Spawning(body, s, e, child), e);
  }

  lemma HearGrows(body: Body, s: State, v: Event)
    requires Enabled(body, s, v, false) && Hears(v)
    ensures Grows(s, Apply(body, s, v))
  {
  }

  lemma StepGrows(body: Body, s: State, v: Event, s': State, solo: bool)
    requires Inv(body, s) && Next(body, s, v, s', solo)
    ensures Grows(s, s')
  {
    if v.Insert? {
      InsertStepGrows(body, s, v.e);
    } else if v.SpawnChild? {
      SpawnStepGrows(body, s, v.e, v.child);
    } else if Hears(v) {
      HearGrows(body, s, v);
    } else {
      OthersKeepLog(body, s, v);
    }
  }

  /** A recorded result is never changed or lost, and no restart moves a recorded wake time. */
  lemma {:induction false} RunGrows(body: Body, ss: seq<State>, vs: seq<Event>, solo: bool, j: nat, k: nat)
    requires Run(body, ss, vs, solo) && Inv(body, ss[0]) && j <= k <= |vs|
    ensures Grows(ss[j], ss[k])
    decreases k - j
  {
    if j < k {
      RunKeepsInv(body, ss, vs, solo);
      RunGrows(body, ss, vs, solo, j, k - 1);
      StepGrows(body, ss[k - 1], vs[k - 1], ss[k], solo);
    }
  }

  // ---- refinement and agreement ----

  /** A decided outcome is the evaluation of the body against the log. */
  ghost predicate Refines(body: Body, log: Log, s: State) {
    s.status == Success || s.status == Error ==>
      s.outcome.Some? && Evaluates(body, log, s.outcome.value) && (s.status == Success <==> s.outcome.value.Got?)
  }

  lemma InvRefines(body: Body, s: State, log: Log, h: seq<Seen>)
    requires Inv(body, s) && Follows(body, log, h) && s.spine <= h
    ensures Refines(body, log, s)
  {
    if s.status == Success || s.status == Error {
      FollowsPrefix(body, log, s.spine, h);
      EvalFollows(body, log, s.spine, 0, |s.spine|);
      assert s.spine[..0] == [];
    }
  }

  /** In any run - crashes, relaunches and concurrent executions included - whatever outcome
      is written at any time is the one obtained by evaluating the body against the step
      log, as it stands then or at any later point. */
  lemma OutcomeIsEvaluation(body: Body, ss: seq<State>, vs: seq<Event>, solo: bool, j: nat, k: nat)
    requires Run(body, ss, vs, solo) && Init(body, ss[0]) && j <= k <= |vs|
    ensures Refines(body, ss[k].log, ss[j])
  {
    InitMeetsInv(body, ss[0]);
    RunKeepsInv(body, ss, vs, solo);
    RunGrows(body, ss, vs, solo, j, k);
    InvRefines(body, ss[j], ss[k].log, ss[k].spine);
  }

  /** All executions that finish with an outcome, whenever they do and whether they computed it
      or waited for it, finish with the same one. */
  lemma FinishersAgree(body: Body, ss: seq<State>, vs: seq<Event>, solo: bool, j: nat, k: nat, e: nat, f: nat)
    requires Run(body, ss, vs, solo) && Init(body, ss[0]) && j <= k <= |vs|
    requires e in ss[j].execs && ss[j].execs[e].phase.Ended?
    requires f in ss[k].execs && ss[k].execs[f].phase.Ended?
    ensures ss[j].execs[e].phase.out == ss[k].execs[f].phase.out
  {
    InitMeetsInv(body, ss[0]);
    RunKeepsInv(body, ss, vs, solo);
    RunGrows(body, ss, vs, solo, j, k);
    var g, h := ss[j].spine, ss[k].spine;
    assert ExecInv(body, ss[j], ss[j].execs[e]) && ExecInv(body, ss[k], ss[k].execs[f]);
    NextPrefix(g, h);
    if |g| < |h| { LoggedAt(body, ss[k].log, h, g); }
  }

  lemma LocalDeniesNobody(body: Body, s: State, v: Event)
    requires Enabled(body, s, v, false)
    requires v.Ask? || v.RunClosure? || v.RunPublish? || v.Check? || v.Wake? || v.Clash? || Hears(v)
    ensures Apply(body, s, v).execs == s.execs[v.e := Apply(body, s, v).execs[v.e]] && !Apply(body, s, v).execs[v.e].phase.Denied?
  {
  }

  lemma InsertDeniesNobody(body: Body, s: State, e: nat)
    requires e in s.execs && s.execs[e].phase.Ran?
    ensures AfterInsert(body, s, e).execs == s.execs[e := AfterInsert(body, s, e).execs[e]]
    ensures !AfterInsert(body, s, e).execs[e].phase.Denied?
  {
  }

  predicate NewlyDenied(s: State, s': State, e: nat) {
    e in s'.execs && s'.execs[e].phase.Denied? && (e in s.execs ==> !s.execs[e].phase.Denied?)
  }

  lemma OnlyReadingDenies(body: Body, s: State, v: Event, e: nat)
    requires Enabled(body, s, v, false) && NewlyDenied(s, Apply(body, s, v), e)
    ensures v == ReadOutcome(e) && e in s.execs && s.execs[e].phase.Lost? && !Decided(s) &&
            (s.status == Cancelled || s.status == DeadLetter)
  {
    if v.Insert? {
      InsertDeniesNobody(body, s, v.e);
    } else if v.SpawnChild? {
      SpawnIsInsert(body, s, v.e, v.child);
      InsertDeniesNobody(body, Spawning(body, s, v.e, v.child), v.e);
    } else if v.Ask? || v.RunClosure? || v.RunPublish? || v.Check? || v.Wake? || v.Clash? || Hears(v) {
      LocalDeniesNobody(body, s, v);
    }
  }

  /** The one way to finish otherwise: a loser that, when it read the row, found it cancelled
      or dead-lettered, with nothing decided. */
  lemma {:induction false} DeniedFoundNoOutcome(body: Body, ss: seq<State>, vs: seq<Event>, solo: bool, k: nat, e: nat)
    requires Run(body, ss, vs, solo) && Init(body, ss[0]) && k <= |vs|
    requires e in ss[k].execs && ss[k].execs[e].phase.Denied?
    ensures exists i :: 0 <= i < k && vs[i] == ReadOutcome(e) && e in ss[i].execs && ss[i].execs[e].phase.Lost? &&
                        !Decided(ss[i]) && (ss[i].status == Cancelled || ss[i].status == DeadLetter)
  {
    assert Next(body, ss[k - 1], vs[k - 1], ss[k], solo);
    if NewlyDenied(ss[k - 1], ss[k], e) {
      OnlyReadingDenies(body, ss[k - 1], vs[k - 1], e);
    } else {
      DeniedFoundNoOutcome(body, ss, vs, solo, k - 1, e);
    }
  }

  /** What two executions have seen never differs, at any two moments: one has seen at most
      more than the other. */
  lemma ResultsAgree(body: Body, ss: seq<State>, vs: seq<Event>, solo: bool, j: nat, k: nat, e: nat, f: nat, i: nat)
    requires Run(body, ss, vs, solo) && Init(body, ss[0]) && j <= k <= |vs|
    requires e in ss[j].execs && f in ss[k].execs
    requires i < |ss[j].execs[e].hist| && i < |ss[k].execs[f].hist|
    ensures ss[j].execs[e].hist[i] == ss[k].execs[f].hist[i]
  {
    InitMeetsInv(body, ss[0]);
    RunKeepsInv(body, ss, vs, solo);
    RunGrows(body, ss, vs, solo, j, k);
    assert ExecInv(body, ss[j], ss[j].execs[e]) && ExecInv(body, ss[k], ss[k].execs[f]);
  }

  /** A deterministic body is never reported as non-deterministic: no lookup fails. */
  lemma NoLookupFails(body: Body, ss: seq<State>, vs: seq<Event>, solo: bool, k: nat, e: nat)
    requires Run(body, ss, vs, solo) && Init(body, ss[0]) && k <= |vs| && e in ss[k].execs
    ensures !ss[k].execs[e].phase.Broken?
  {
    InitMeetsInv(body, ss[0]);
    RunKeepsInv(body, ss, vs, solo);
    assert ExecInv(body, ss[k], ss[k].execs[e]);
  }

  // ---- conflicts ----

  /** Losing an insert never stops every execution: the one that made the latest successful
      insert has not lost. When nobody is left running, that one has crashed, been
      cancelled, or finished. */
  lemma LatestInserterHasNotLost(body: Body, ss: seq<State>, vs: seq<Event>, solo: bool, k: nat)
    requires Run(body, ss, vs, solo) && Init(body, ss[0]) && k <= |vs|
    requires ss[k].last.Some? && ss[k].last.value in ss[k].execs
    ensures !ss[k].execs[ss[k].last.value].phase.Lost?
    ensures (forall e :: e in ss[k].execs ==> !Active(ss[k].execs[e].phase)) ==>
              ss[k].execs[ss[k].last.value].phase.Ended?
  {
    InitMeetsInv(body, ss[0]);
    RunKeepsInv(body, ss, vs, solo);
  }

  // ---- wake times ----

  /** The step a settled wake time belongs to, and the time. */
  function Settled(body: Body, x: Exec): Option<(int, int)> {
    if x.phase.Armed? then Some((Position(body, x.hist) + 1, x.phase.wake))
    else if x.phase.Sleeping? && |x.hist| > 0 then Some((Position(body, x.hist[..|x.hist| - 1]), x.phase.wake))
    else None
  }

  /** In this step some caller asks for the wake time of step n: its own clock plus what the
      body asks to wait. */
  predicate AskedIn(body: Body, s: State, v: Event, n: int, wake: int) {
    v.Ask? && v.e in s.execs && s.execs[v.e].phase.Missed? &&
    var a := body(s.execs[v.e].hist);
    (a.Sleep? || a.Wait?) && n == SlotId(body, s.execs[v.e].hist, s.execs[v.e].phase.slot) && wake == v.now + a.ms
  }

  lemma LocalKeepsAsked(body: Body, s: State, v: Event)
    requires Enabled(body, s, v, false) && (v.RunClosure? || v.RunPublish? || v.Check? || v.Wake? || v.Clash? || Hears(v))
    ensures Apply(body, s, v).asked == s.asked
  {
  }

  lemma InsertKeepsAsked(body: Body, s: State, v: Event)
    requires Enabled(body, s, v, false) && (v.Insert? || v.SpawnChild?)
    ensures Apply(body, s, v).asked == s.asked
  {
  }

  lemma RowStepKeepsAsked(body: Body, s: State, v: Event)
    requires Enabled(body, s, v, false)
    requires v.Launch? || v.Crash? || v.CancelRow? || v.ResumeRow? || v.ParkRow? || v.WriteOutcome? || v.ReadOutcome? || v.WriteError?
    ensures Apply(body, s, v).asked == s.asked
  {
  }

  lemma {:induction false} AskedBySomeone(body: Body, ss: seq<State>, vs: seq<Event>, solo: bool, k: nat, n: int, wake: int)
    requires Run(body, ss, vs, solo) && k <= |vs| && (n, wake) in ss[k].asked && (n, wake) !in ss[0].asked
    ensures exists i :: 0 <= i < k && AskedIn(body, ss[i], vs[i], n, wake)
  {
    var s, v := ss[k - 1], vs[k - 1];
    assert Next(body, s, v, ss[k], solo);
    if (n, wake) in s.asked {
      AskedBySomeone(body, ss, vs, solo, k - 1, n, wake);
    } else if v.Ask? {
      assert AskedIn(body, s, v, n, wake);
    } else if v.Insert? || v.SpawnChild? {
      InsertKeepsAsked(body, s, v);
    } else if v.RunClosure? || v.RunPublish? || v.Check? || v.Wake? || v.Clash? || Hears(v) {
      LocalKeepsAsked(body, s, v);
    } else {
      RowStepKeepsAsked(body, s, v);
    }
  }

  /** Any two callers at one sleep or deadline, at any two moments of the run, agree on the
      wake time; it was in the log from the start or is what some caller of that step, earlier
      in the run, computed from its own clock. */
  lemma WakeTimesAgree(body: Body, ss: seq<State>, vs: seq<Event>, solo: bool, j: nat, k: nat, e: nat, f: nat)
    requires Run(body, ss, vs, solo) && Init(body, ss[0]) && ss[0].asked == {} && j <= k <= |vs|
    requires e in ss[j].execs && f in ss[k].execs
    requires var a, b := Settled(body, ss[j].execs[e]), Settled(body, ss[k].execs[f]);
             a.Some? && b.Some? && a.value.0 == b.value.0
    ensures Settled(body, ss[j].execs[e]) == Settled(body, ss[k].execs[f])
    ensures var (n, wake) := Settled(body, ss[j].execs[e]).value;
            (n in ss[0].log && ss[0].log[n].output == Millis(wake)) ||
            exists i :: 0 <= i < j && AskedIn(body, ss[i], vs[i], n, wake)
  {
    SettledWakes(body, ss, vs, solo, j, k, e, f);
    var (n, wake) := Settled(body, ss[j].execs[e]).value;
    if !(n in ss[0].log && ss[0].log[n].output == Millis(wake)) {
      AskedBySomeone(body, ss, vs, solo, j, n, wake);
    }
  }

  lemma SettledWakes(body: Body, ss: seq<State>, vs: seq<Event>, solo: bool, j: nat, k: nat, e: nat, f: nat)
    requires Run(body, ss, vs, solo) && Init(body, ss[0]) && j <= k <= |vs|
    requires e in ss[j].execs && f in ss[k].execs
    requires var a, b := Settled(body, ss[j].execs[e]), Settled(body, ss[k].execs[f]);
             a.Some? && b.Some? && a.value.0 == b.value.0
    ensures Settled(body, ss[j].execs[e]) == Settled(body, ss[k].execs[f])
    ensures var (n, wake) := Settled(body, ss[j].execs[e]).value;
            (n in ss[0].log && ss[0].log[n].output == Millis(wake)) || (n, wake) in ss[j].asked
  {
    InitMeetsInv(body, ss[0]);
    RunKeepsInv(body, ss, vs, solo);
    RunGrows(body, ss, vs, solo, j, k);
    RunGrows(body, ss, vs, solo, 0, j);
    SettledIsLogged(body, ss[j], e);
    SettledIsLogged(body, ss[k], f);
  }

  /** A settled wake time is in the log, from the start or as it was asked for. */
  lemma SettledIsLogged(body: Body, s: State, e: nat)
    requires Inv(body, s) && e in s.execs && Settled(body, s.execs[e]).Some?
    ensures var (n, wake) := Settled(body, s.execs[e]).value;
            n in s.log && s.log[n].output == Millis(wake) && (n in s.initial || (n, wake) in s.asked)
  {
    var x := s.execs[e];
    assert ExecInv(body, s, x);
    var at := if x.phase.Armed? then |x.hist| else |x.hist| - 1;
    assert x.hist[..at] == s.spine[..at] && x.hist[..|x.hist|] == x.hist;
    assert WakesAt(body, s, at);
  }

  // ---- one execution at a time ----

  /** Past a lookup that missed, the one active execution is at the frontier. */
  ghost predicate SoloInv(body: Body, s: State) {
    (forall e, f :: e in s.execs && f in s.execs && e != f ==>
       !Active(s.execs[e].phase) || !Active(s.execs[f].phase)) &&
    forall e :: e in s.execs ==> SoloExec(body, s, s.execs[e])
  }

  ghost predicate SoloExec(body: Body, s: State, x: Exec) {
    !x.phase.Lost? && !x.phase.Denied? && !x.phase.Beaten? &&
    (x.phase.Missed? && AnswerOf(body(x.hist)).Some? ==> Position(body, x.hist) !in s.log) &&
    (x.phase.Looking? || (x.phase.Missed? && AnswerOf(body(x.hist)).None?) || x.phase.Ran? || x.phase.Armed?
     ==> x.hist == s.spine) &&
    ((x.phase.Missed? || x.phase.Ran?) && x.phase.slot == Deadline ==> Position(body, x.hist) + 1 !in s.log)
  }

  lemma SoloCheck(body: Body, s: State, x: Exec)
    requires SpineInv(body, s) && ExecInv(body, s, x) && SoloExec(body, s, x) && Width(body(x.hist)) > 0
    requires body(x.hist).Told? ==> Position(body, x.hist) !in s.log
    requires x.phase.Ready? || x.phase.Looking? || x.phase.Beaten?
    ensures SoloExec(body, s, AfterCheck(body, s, x)) && !AfterCheck(body, s, x).phase.Ended?
  {
    if AnswerOf(body(x.hist)).None? {
      if Position(body, x.hist) in s.log {
        HitIsSpine(body, s, x.hist);
      } else {
        AtFrontier(body, s, x.hist);
      }
    }
  }

  /** With one execution active, no insert is lost. */
  lemma SoloInsert(body: Body, s: State, e: nat)
    requires Inv(body, s) && e in s.execs && s.execs[e].phase.Ran? && SoloInv(body, s)
    ensures SoloInv(body, AfterInsert(body, s, e))
  {
    var s' := AfterInsert(body, s, e);
    SoloInserter(body, s, e);
    forall o | o in s'.execs && o != e ensures SoloExec(body, s', s'.execs[o]) {
      assert SoloExec(body, s, s.execs[o]) && !Active(s.execs[o].phase);
    }
  }

  lemma SoloInserter(body: Body, s: State, e: nat)
    requires Inv(body, s) && e in s.execs && s.execs[e].phase.Ran? && SoloInv(body, s)
    ensures var s' := AfterInsert(body, s, e);
            e in s'.execs && s'.execs == s.execs[e := s'.execs[e]] && SoloExec(body, s', s'.execs[e])
  {
    assert ExecInv(body, s, s.execs[e]) && SoloExec(body, s, s.execs[e]);
  }

  /** Steps that leave the log alone need only keep the phases in order. */
  lemma SoloSameLog(body: Body, s: State, s': State)
    requires SoloInv(body, s) && s'.log == s.log && s'.spine == s.spine
    requires forall e :: e in s'.execs ==>
               (e in s.execs && (s'.execs[e] == s.execs[e] || Active(s.execs[e].phase)) && SoloExec(body, s, s'.execs[e])) ||
               (e !in s.execs && s'.execs[e].phase.Ready? && forall f :: f in s.execs ==> !Active(s.execs[f].phase))
    requires forall e, f :: e in s'.execs && f in s'.execs && e !in s.execs && f !in s.execs ==> e == f
    ensures SoloInv(body, s')
  {
  }

  lemma SoloSpawn(body: Body, s: State, e: nat, child: Id)
    requires Inv(body, s) && SoloInv(body, s) && Enabled(body, s, SpawnChild(e, child), false)
    ensures SoloInv(body, Apply(body, s, SpawnChild(e, child)))
  {
    var s1 := Spawning(body, s, e, child);
    assert ExecInv(body, s, s.execs[e]) && SoloExec(body, s, s.execs[e]);
    SpawningKeepsInv(body, s, e, child);
    SoloSameLog(body, s, s1);
    SpawnIsInsert(body, s, e, child);
    SoloInsert(body, s1, e);
  }

  /** The steps of one execution other than its inserts. */
  lemma SoloLocal(body: Body, s: State, v: Event)
    requires Inv(body, s) && SoloInv(body, s) && Enabled(body, s, v, false)
    requires !v.Insert? && !v.SpawnChild? && !v.Launch? && !v.Crash? && !v.CancelRow? && !v.ResumeRow? && !v.ParkRow? && !v.WriteError?
    requires !Hears(v) && !v.Clash?
    ensures var x' := Apply(body, s, v).execs[v.e];
            Apply(body, s, v).execs == s.execs[v.e := x'] && SoloExec(body, s, x') && Active(s.execs[v.e].phase)
  {
    assert ExecInv(body, s, s.execs[v.e]) && SoloExec(body, s, s.execs[v.e]);
    if v.Check? { SoloCheck(body, s, s.execs[v.e]); } else { SoloMove(body, s, v); }
  }

  lemma SoloMove(body: Body, s: State, v: Event)
    requires v.Ask? || v.RunClosure? || v.RunPublish? || v.Wake? || v.WriteOutcome? || v.ReadOutcome?
    requires Enabled(body, s, v, false) && v.e in s.execs && SoloExec(body, s, s.execs[v.e])
    ensures var s' := Apply(body, s, v);
            v.e in s'.execs && s'.execs == s.execs[v.e := s'.execs[v.e]] && SoloExec(body, s, s'.execs[v.e]) && Active(s.execs[v.e].phase)
  {
  }

  /** Only the active execution is left to hear an answer, and is then ready for the next action. */
  lemma SoloHear(body: Body, s: State, v: Event)
    requires Inv(body, s) && SoloInv(body, s) && Enabled(body, s, v, false) && Hears(v)
    ensures SoloInv(body, Apply(body, s, v))
  {
    HearIsReady(body, s, v);
    SoloReady(body, s, v.e, Apply(body, s, v));
  }

  lemma HearIsReady(body: Body, s: State, v: Event)
    requires Enabled(body, s, v, false) && Hears(v)
    ensures var s' := Apply(body, s, v);
            v.e in s.execs && Active(s.execs[v.e].phase) && v.e in s'.execs && s'.execs == s.execs[v.e := s'.execs[v.e]] &&
            s'.execs[v.e].phase.Ready?
  {
  }

  /** The active execution is ready again; what the others saw does not matter. */
  lemma SoloReady(body: Body, s: State, e: nat, s': State)
    requires SoloInv(body, s) && e in s.execs && Active(s.execs[e].phase)
    requires e in s'.execs && s'.execs == s.execs[e := s'.execs[e]] && s'.execs[e].phase.Ready?
    ensures SoloInv(body, s')
  {
    forall o | o in s'.execs ensures SoloExec(body, s', s'.execs[o]) {
      if o != e { assert SoloExec(body, s, s.execs[o]) && !Active(s.execs[o].phase); }
    }
  }

  lemma SoloNeverClashes(body: Body, s: State, e: nat)
    requires SoloInv(body, s)
    ensures !Enabled(body, s, Clash(e), false)
  {
    if e in s.execs { assert SoloExec(body, s, s.execs[e]); }
  }

  lemma SoloOther(body: Body, s: State, v: Event, s': State)
    requires Inv(body, s) && SoloInv(body, s) && Next(body, s, v, s', true)
    requires !v.Insert? && !v.SpawnChild? && !Hears(v) && !v.Clash?
    ensures SoloInv(body, s')
  {
    OthersKeepLog(body, s, v);
    if !v.Launch? && !v.Crash? && !v.CancelRow? && !v.ResumeRow? && !v.ParkRow? && !v.WriteError? {
      SoloLocal(body, s, v);
    }
    SoloSameLog(body, s, s');
  }

  lemma SoloStep(body: Body, s: State, v: Event, s': State)
    requires Inv(body, s) && SoloInv(body, s) && Next(body, s, v, s', true)
    ensures SoloInv(body, s')
  {
    if v.Insert? {
      SoloInsert(body, s, v.e);
    } else if v.SpawnChild? {
      SoloSpawn(body, s, v.e, v.child);
    } else if Hears(v) {
      SoloHear(body, s, v);
    } else if v.Clash? {
      SoloNeverClashes(body, s, v.e);
    } else {
      SoloOther(body, s, v, s');
    }
  }

  lemma {:induction false} SoloRun(body: Body, ss: seq<State>, vs: seq<Event>, k: nat)
    requires Run(body, ss, vs, true) && Init(body, ss[0]) && k <= |vs|
    ensures Inv(body, ss[k]) && SoloInv(body, ss[k])
  {
    InitMeetsInv(body, ss[0]);
    RunKeepsInv(body, ss, vs, true);
    if k > 0 {
      SoloRun(body, ss, vs, k - 1);
      SoloStep(body, ss[k - 1], vs[k - 1], ss[k]);
    }
  }

  /** However often the workflow crashes and is relaunched, a closure whose result is in the
      log never runs again. */
  lemma RecordedClosureNeverRuns(body: Body, ss: seq<State>, vs: seq<Event>, j: nat, k: nat, n: int)
    requires Run(body, ss, vs, true) && Init(body, ss[0]) && j <= k < |vs| && n in ss[j].log
    ensures vs[k].RunClosure? || vs[k].RunPublish? ==>
              vs[k].e in ss[k].execs && Position(body, ss[k].execs[vs[k].e].hist) != n
  {
    SoloRun(body, ss, vs, 0);
    RunGrows(body, ss, vs, true, j, k);
    SoloRun(body, ss, vs, k);
    if vs[k].RunClosure? || vs[k].RunPublish? {
      assert Next(body, ss[k], vs[k], ss[k + 1], true);
      assert SoloExec(body, ss[k], ss[k].execs[vs[k].e]);
    }
  }
}
