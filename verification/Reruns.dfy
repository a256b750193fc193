/** When a step that has run can run again. */
module Reruns {
  import opened Wrappers
  import opened Tables
  import opened StepLog
  import opened Replay
  import opened ReplayInv
  import opened Durable

  /** One more step of a run. */
  lemma RunOn(body: Body, ss: seq<State>, vs: seq<Event>, solo: bool, v: Event, s: State)
    returns (ss': seq<State>, vs': seq<Event>)
    requires Run(body, ss, vs, solo) && Next(body, ss[|vs|], v, s, solo)
    ensures ss' == ss + [s] && vs' == vs + [v] && Run(body, ss', vs', solo)
  {
    ss', vs' := ss + [s], vs + [v];
    forall k | 0 <= k < |vs'| ensures Next(body, ss'[k], vs'[k], ss'[k + 1], solo) {
      if k < |vs| { assert ss'[k] == ss[k] && ss'[k + 1] == ss[k + 1]; }
    }
  }

  /** The run goes on from one to the other. */
  predicate Continues(ss: seq<State>, vs: seq<Event>, ss': seq<State>, vs': seq<Event>) {
    ss <= ss' && vs <= vs' && |ss'| == |vs'| + 1
  }

  /** What a continuation that only crashes, resumes, launches and replays leaves alone. */
  predicate Kept(s: State, s': State) {
    s'.log == s.log && s'.spine == s.spine && s'.last == s.last && s'.asked == s.asked && s'.initial == s.initial &&
    s'.events == s.events && s'.history == s.history && forall t :: t in s.spawned ==> t in s'.spawned && s'.spawned[t] == s.spawned[t]
  }

  /** The steps of such a continuation. */
  predicate Replaying(s: State, v: Event) {
    v.Launch? || v.Crash? || v.ResumeRow? || v.Wake? || v.Hear? || v.EnqueueRow? || (v.Check? && s.status != Cancelled)
  }

  predicate OnlyReplays(ss: seq<State>, vs: seq<Event>, from: nat)
    requires |ss| == |vs| + 1
  {
    forall k :: from <= k < |vs| ==> Replaying(ss[k], vs[k])
  }

  lemma {:induction false} CrashAll(body: Body, ss: seq<State>, vs: seq<Event>)
    returns (ss': seq<State>, vs': seq<Event>)
    requires Run(body, ss, vs, true)
    ensures Run(body, ss', vs', true) && Continues(ss, vs, ss', vs') && OnlyReplays(ss', vs', |vs|)
    ensures ss'[|vs'|] == ss[|vs|].(execs := map[])
    decreases |ss[|vs|].execs|
  {
    var s := ss[|vs|];
    if s.execs == map[] {
      ss', vs' := ss, vs;
    } else {
      var e :| e in s.execs;
      ss', vs' := RunOn(body, ss, vs, true, Crash(e), s.(execs := s.execs - {e}));
      ss', vs' := CrashAll(body, ss', vs');
    }
  }

  /** After crashing everything, and resuming the row if it was cancelled, one fresh execution. */
  lemma Relaunch(body: Body, ss: seq<State>, vs: seq<Event>) returns (ss': seq<State>, vs': seq<Event>, e: nat)
    requires Run(body, ss, vs, true) && ss[|vs|].status != Success && ss[|vs|].status != Error
    ensures Run(body, ss', vs', true) && Continues(ss, vs, ss', vs') && Kept(ss[|vs|], ss'[|vs'|])
    ensures OnlyReplays(ss', vs', |vs|)
    ensures ss'[|vs'|].execs == map[e := Exec([], Ready)]
    ensures ss'[|vs'|].status != Cancelled && ss'[|vs'|].status != Success && ss'[|vs'|].status != Error
  {
    ss', vs' := CrashAll(body, ss, vs);
    var s := ss'[|vs'|];
    if s.status == Cancelled {
      ss', vs' := RunOn(body, ss', vs', true, ResumeRow, Resumed(s));
      s := Resumed(s);
    }
    e := if s.last == Some(0) then 1 else 0;
    ss', vs' := RunOn(body, ss', vs', true, Launch(e), Put(s, e, Exec([], Ready)));
  }

  /** The lookup of a recorded action goes on with what was recorded. */
  lemma LookupHits(body: Body, s: State, e: nat)
    requires SpineInv(body, s) && s.status != Cancelled
    requires e in s.execs && s.execs[e].phase.Ready? && s.execs[e].hist <= s.spine && s.execs[e].hist != s.spine
    requires AnswerOf(body(s.execs[e].hist)).None?
    ensures var h := s.execs[e].hist;
            var h' := h + [s.spine[|h|]];
            Enabled(body, s, Check(e), true) &&
            var x := AfterCheck(body, s, s.execs[e]);
            if body(h).Sleep? then x.hist == h' && x.phase.Sleeping? else x == Exec(h', Ready)
  {
    var h := s.execs[e].hist;
    NextPrefix(h, s.spine);
    LoggedAt(body, s.log, s.spine, h);
  }

  /** An answer that no log records is given again. */
  lemma HearsNext(body: Body, s: State, e: nat, v: Event)
    requires SpineInv(body, s) && e in s.execs && s.execs[e].phase.Ready? && s.execs[e].hist < s.spine
    requires v == if body(s.execs[e].hist).Told? then Hear(e) else EnqueueRow(e)
    requires AnswerOf(body(s.execs[e].hist)).Some?
    ensures Enabled(body, s, v, true)
    ensures var (s', h) := (Apply(body, s, v), s.execs[e].hist);
            Kept(s, s') && s'.execs == s.execs[e := Exec(h + [s.spine[|h|]], Ready)] && s'.status == s.status
  {
    NextPrefix(s.execs[e].hist, s.spine);
    LoggedAt(body, s.log, s.spine, s.execs[e].hist);
  }

  /** A lone execution replays one result. */
  lemma ReplayOne(body: Body, ss: seq<State>, vs: seq<Event>, e: nat) returns (ss': seq<State>, vs': seq<Event>)
    requires Run(body, ss, vs, true) && SpineInv(body, ss[|vs|]) && ss[|vs|].status != Cancelled
    requires e in ss[|vs|].execs && ss[|vs|].execs[e].phase.Ready?
    requires ss[|vs|].execs[e].hist <= ss[|vs|].spine && ss[|vs|].execs[e].hist != ss[|vs|].spine
    ensures Run(body, ss', vs', true) && Continues(ss, vs, ss', vs') && Kept(ss[|vs|], ss'[|vs'|])
    ensures OnlyReplays(ss', vs', |vs|) && ss'[|vs'|].execs.Keys == ss[|vs|].execs.Keys
    ensures ss'[|vs'|].status == ss[|vs|].status
    ensures var (s, h) := (ss[|vs|], ss[|vs|].execs[e].hist);
            e in ss'[|vs'|].execs && ss'[|vs'|].execs[e] == Exec(h + [s.spine[|h|]], Ready)
  {
    var s := ss[|vs|];
    var h := s.execs[e].hist;
    NextPrefix(h, s.spine);
    LoggedAt(body, s.log, s.spine, h);
    ss', vs' := ss, vs;
    if AnswerOf(body(h)).Some? {
      var v := if body(h).Told? then Hear(e) else EnqueueRow(e);
      HearsNext(body, s, e, v);
      ss', vs' := RunOn(body, ss', vs', true, v, Apply(body, s, v));
    } else {
      LookupHits(body, s, e);
      var x := AfterCheck(body, s, s.execs[e]);
      ss', vs' := RunOn(body, ss', vs', true, Check(e), Put(s, e, x));
      if body(h).Sleep? {
        ss', vs' := RunOn(body, ss', vs', true, Wake(e), Put(ss'[|vs'|], e, Exec(x.hist, Ready)));
      }
    }
  }

  /** A lone execution replays the whole log. */
  lemma {:induction false} ReplayAll(body: Body, ss: seq<State>, vs: seq<Event>, e: nat)
    returns (ss': seq<State>, vs': seq<Event>)
    requires Run(body, ss, vs, true) && SpineInv(body, ss[|vs|]) && ss[|vs|].status != Cancelled
    requires e in ss[|vs|].execs && ss[|vs|].execs[e].phase.Ready? && ss[|vs|].execs[e].hist <= ss[|vs|].spine
    ensures Run(body, ss', vs', true) && Continues(ss, vs, ss', vs') && Kept(ss[|vs|], ss'[|vs'|])
    ensures OnlyReplays(ss', vs', |vs|) && ss'[|vs'|].execs.Keys == ss[|vs|].execs.Keys
    ensures ss'[|vs'|].status == ss[|vs|].status
    ensures e in ss'[|vs'|].execs && ss'[|vs'|].execs[e] == Exec(ss[|vs|].spine, Ready)
    decreases |ss[|vs|].spine| - |ss[|vs|].execs[e].hist|
  {
    ss', vs' := ss, vs;
    if ss[|vs|].execs[e].hist != ss[|vs|].spine {
      NextPrefix(ss[|vs|].execs[e].hist, ss[|vs|].spine);
      ss', vs' := ReplayOne(body, ss, vs, e);
      SameLogKeepsSpine(body, ss[|vs|], ss'[|vs'|]);
      ss', vs' := ReplayAll(body, ss', vs', e);
    }
  }

  /** The closure or publication of the action after h runs in this step. */
  predicate RunsAt(s: State, v: Event, h: seq<Seen>) {
    (v.RunClosure? || v.RunPublish?) && v.e in s.execs && s.execs[v.e].hist == h
  }

  ghost predicate CanRunAgain(body: Body, ss: seq<State>, vs: seq<Event>, h: seq<Seen>) {
    exists ss': seq<State>, vs': seq<Event>, m ::
      Run(body, ss', vs', true) && Continues(ss, vs, ss', vs') && |vs| <= m < |vs'| && RunsAt(ss'[m], vs'[m], h)
  }

  /** Crashing and relaunching brings an execution to the end of the log. */
  lemma ReachesEnd(body: Body, ss: seq<State>, vs: seq<Event>) returns (ss': seq<State>, vs': seq<Event>, e: nat)
    requires Run(body, ss, vs, true) && SpineInv(body, ss[|vs|]) && ss[|vs|].status != Success && ss[|vs|].status != Error
    ensures Run(body, ss', vs', true) && Continues(ss, vs, ss', vs') && Kept(ss[|vs|], ss'[|vs'|])
    ensures var s' := ss'[|vs'|]; e in s'.execs && s'.execs[e] == Exec(ss[|vs|].spine, Ready) && s'.status != Cancelled
  {
    ss', vs', e := Relaunch(body, ss, vs);
    SameLogKeepsSpine(body, ss[|vs|], ss'[|vs'|]);
    ss', vs' := ReplayAll(body, ss', vs', e);
  }

  /** An unrecorded action at the end of the log is one crash and one relaunch away from
      running again. */
  lemma UnrecordedRunsAgain(body: Body, ss: seq<State>, vs: seq<Event>, r: Live)
    requires Run(body, ss, vs, true) && Inv(body, ss[0])
    requires body(ss[|vs|].spine).Step? || body(ss[|vs|].spine).Publish?
    ensures CanRunAgain(body, ss, vs, ss[|vs|].spine)
  {
    var h := ss[|vs|].spine;
    RunKeepsInv(body, ss, vs, true);
    assert Position(body, h) !in ss[|vs|].log;
    var ss', vs', e := ReachesEnd(body, ss, vs);
    var m := |vs'| + 1;
    var ss1, vs1 := RunsFromEnd(body, ss', vs', e, h, r);
    assert Continues(ss, vs, ss1, vs1) && RunsAt(ss1[m], vs1[m], h);
  }

  lemma RunsFromEnd(body: Body, ss: seq<State>, vs: seq<Event>, e: nat, h: seq<Seen>, r: Live)
    returns (ss': seq<State>, vs': seq<Event>)
    requires Run(body, ss, vs, true) && (body(h).Step? || body(h).Publish?)
    requires var s := ss[|vs|];
             e in s.execs && s.execs[e] == Exec(h, Ready) && s.status != Cancelled && Position(body, h) !in s.log
    ensures Run(body, ss', vs', true) && Continues(ss, vs, ss', vs') && |vs'| == |vs| + 2 && RunsAt(ss'[|vs| + 1], vs'[|vs| + 1], h)
  {
    var s := ss[|vs|];
    var s1 := Put(s, e, Exec(h, Missed(Own)));
    assert AfterCheck(body, s, s.execs[e]) == Exec(h, Missed(Own));
    ss', vs' := RunOn(body, ss, vs, true, Check(e), s1);
    var v := if body(h).Step? then RunClosure(e, r) else RunPublish(e);
    assert RunsAt(s1, v, h);
    ss', vs' := RunOn(body, ss', vs', true, v, Apply(body, s1, v));
  }

  /** Exactly once, exactly: after a closure or a publication has run, with one execution at a
      time, it can run again if and only if its result is not in the log. */
  lemma RunsAgainIffUnrecorded(body: Body, ss: seq<State>, vs: seq<Event>, j: nat, r: Live)
    requires Run(body, ss, vs, true) && Init(body, ss[0]) && j < |vs| && (vs[j].RunClosure? || vs[j].RunPublish?)
    requires vs[j].e in ss[j].execs
    requires body(ss[j].execs[vs[j].e].hist).Step? || body(ss[j].execs[vs[j].e].hist).Publish?
    ensures var h := ss[j].execs[vs[j].e].hist;
            CanRunAgain(body, ss, vs, h) <==> Position(body, h) !in ss[|vs|].log
  {
    var h, s := ss[j].execs[vs[j].e].hist, ss[|vs|];
    if Position(body, h) in s.log {
      if CanRunAgain(body, ss, vs, h) {
        var ss': seq<State>, vs': seq<Event>, m :|
          Run(body, ss', vs', true) && Continues(ss, vs, ss', vs') && |vs| <= m < |vs'| && RunsAt(ss'[m], vs'[m], h);
        RecordedClosureNeverRuns(body, ss', vs', |vs|, m, Position(body, h));
      }
    } else {
      InitMeetsInv(body, ss[0]);
      RunKeepsInv(body, ss, vs, true);
      RunGrows(body, ss, vs, true, j, |vs|);
      assert ExecInv(body, ss[j], ss[j].execs[vs[j].e]);
      AtFrontier(body, s, h);
      UnrecordedRunsAgain(body, ss, vs, r);
    }
  }
}
