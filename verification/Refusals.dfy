/** Answers that the step log does not record: a refused spawn, a refused enqueue, the
    awaited result of a child. What durable execution guarantees with them, and when. */
module Refusals {
  import opened Wrappers
  import opened Tables
  import opened StepLog
  import opened Replay
  import opened ReplayInv
  import opened Durable

  /** A step of the protocol, or an answer nobody records. A parked spawn is refused although
      the parent's log has recorded the child. */
  datatype Wide =
    | Plain(v: Event)
    | Refuse(e: nat)
    | Answer(e: nat, r: Seen)
    | Parked(e: nat, child: Id)

  ghost predicate WideEnabled(body: Body, s: State, w: Wide, solo: bool) {
    match w
    case Plain(v) => Enabled(body, s, v, solo)
    case Refuse(e) =>
      e in s.execs &&
      ((body(s.execs[e].hist).Child? && s.execs[e].phase == Missed(Own)) ||
       (body(s.execs[e].hist).Enqueue? && s.execs[e].phase.Ready?))
    case Answer(e, _) => e in s.execs && body(s.execs[e].hist).Await? && s.execs[e].phase.Ready?
    case Parked(e, _) =>
      e in s.execs && body(s.execs[e].hist).Child? && s.execs[e].phase == Missed(Own) &&
      Position(body, s.execs[e].hist) !in s.log
  }

  function ChildRow(name: string, child: Id): OpRow {
    OpRow(name, Null, None, Some(child))
  }

  function WideApply(body: Body, s: State, w: Wide): State
    requires WideEnabled(body, s, w, false)
  {
    match w
    case Plain(v) => Apply(body, s, v)
    case Refuse(e) => Heard(s, e, Failed)
    case Answer(e, r) => Heard(s, e, r)
    case Parked(e, child) =>
      var h := s.execs[e].hist;
      Heard(s.(log := s.log[Position(body, h) := ChildRow(body(h).name, child)], last := Some(e)), e, Failed)
  }

  ghost predicate WideNext(body: Body, s: State, w: Wide, s': State, solo: bool) {
    WideEnabled(body, s, w, solo) && s' == WideApply(body, s, w)
  }

  ghost predicate WideRun(body: Body, ss: seq<State>, ws: seq<Wide>, solo: bool) {
    |ss| == |ws| + 1 && forall k {:trigger ws[k]} :: 0 <= k < |ws| ==> WideNext(body, ss[k], ws[k], ss[k + 1], solo)
  }

  // ---- when the log accounts for everything ----

  /** The log accounts for every result that any execution has seen. */
  ghost predicate Accounted(body: Body, s: State) {
    forall e :: e in s.execs ==> Follows(body, s.log, s.execs[e].hist)
  }

  predicate AllPlain(ws: seq<Wide>) {
    forall k :: 0 <= k < |ws| ==> ws[k].Plain?
  }

  function Events(ws: seq<Wide>): (vs: seq<Event>)
    requires AllPlain(ws)
    ensures |vs| == |ws| && forall k :: 0 <= k < |vs| ==> vs[k] == ws[k].v
  {
    seq(|ws|, k requires 0 <= k < |ws| => ws[k].v)
  }

  /** Without such answers a run is one of the protocol, with all its guarantees. */
  lemma PlainIsRun(body: Body, ss: seq<State>, ws: seq<Wide>, solo: bool)
    requires WideRun(body, ss, ws, solo) && AllPlain(ws)
    ensures Run(body, ss, Events(ws), solo)
  {
    var vs := Events(ws);
    forall k | 0 <= k < |vs| ensures Next(body, ss[k], vs[k], ss[k + 1], solo) {
      assert WideNext(body, ss[k], ws[k], ss[k + 1], solo);
    }
  }

  lemma AnswerIsNotLogged(body: Body, s: State, w: Wide, solo: bool)
    requires WideEnabled(body, s, w, solo) && !w.Plain?
    ensures !Accounted(body, WideApply(body, s, w))
  {
    var s', h := WideApply(body, s, w), s.execs[w.e].hist;
    var h' := s'.execs[w.e].hist;
    assert h'[..|h|] == h;
    assert !Logged(body, s'.log, h', |h|);
  }

  /** The step log accounts for every result of every execution at all times exactly if every
      spawn and enqueue was accepted and no child was awaited; then the run is one of the
      protocol. */
  lemma LogAccountsIff(body: Body, ss: seq<State>, ws: seq<Wide>, solo: bool)
    requires WideRun(body, ss, ws, solo) && Init(body, ss[0])
    ensures (forall k :: 0 <= k < |ss| ==> Accounted(body, ss[k])) <==> AllPlain(ws)
    ensures AllPlain(ws) ==> Run(body, ss, Events(ws), solo)
  {
    if AllPlain(ws) {
      PlainIsRun(body, ss, ws, solo);
      InitMeetsInv(body, ss[0]);
      RunKeepsInv(body, ss, Events(ws), solo);
      forall k, e | 0 <= k < |ss| && e in ss[k].execs ensures Follows(body, ss[k].log, ss[k].execs[e].hist) {
        assert ExecInv(body, ss[k], ss[k].execs[e]);
        FollowsPrefix(body, ss[k].log, ss[k].execs[e].hist, ss[k].spine);
      }
    } else {
      var k :| 0 <= k < |ws| && !ws[k].Plain?;
      AnswerIsNotLogged(body, ss[k], ws[k], solo);
      assert !Accounted(body, ss[k + 1]);
    }
  }

  // ---- when executions agree ----

  /** What a step tells an execution of a spawn, an enqueuing or a child's result, and after
      which results; a lookup that finds the child is such an answer too. */
  function AnswerIn(body: Body, s: State, w: Wide): Option<(seq<Seen>, Seen)> {
    match w
    case Refuse(e) => if e in s.execs then Some((s.execs[e].hist, Failed)) else None
    case Answer(e, r) => if e in s.execs then Some((s.execs[e].hist, r)) else None
    case Parked(e, _) => if e in s.execs then Some((s.execs[e].hist, Failed)) else None
    case Plain(EnqueueRow(e)) => if e in s.execs then Some((s.execs[e].hist, Got(Null))) else None
    case Plain(SpawnChild(e, c)) =>
      if e in s.execs && Position(body, s.execs[e].hist) !in s.log then Some((s.execs[e].hist, Got(Text(c)))) else None
    case Plain(Check(e)) =>
      if e in s.execs && s.execs[e].phase.Ready? && body(s.execs[e].hist).Child? && CheckChild(s.log, Position(body, s.execs[e].hist)).Some?
      then Some((s.execs[e].hist, Got(Text(CheckChild(s.log, Position(body, s.execs[e].hist)).value))))
      else None
    case Plain(_) => None
  }

  /** Each spawn, enqueue and awaited result is answered as at every other attempt at the same
      point of the body, and as the history the workflow starts from has it. */
  ghost predicate Steady(body: Body, ss: seq<State>, ws: seq<Wide>)
    requires |ss| == |ws| + 1
  {
    (forall j, k :: 0 <= j < |ws| && 0 <= k < |ws| ==> SameAnswer(AnswerIn(body, ss[j], ws[j]), AnswerIn(body, ss[k], ws[k]))) &&
    forall k :: 0 <= k < |ws| ==> AsAtStart(ss[0].spine, AnswerIn(body, ss[k], ws[k]))
  }

  predicate AsAtStart(start: seq<Seen>, a: Option<(seq<Seen>, Seen)>) {
    a.Some? && Before(a.value.0, start) ==> a.value.1 == start[|a.value.0|]
  }

  predicate Before(h: seq<Seen>, start: seq<Seen>) {
    |h| < |start| && h <= start
  }

  predicate SameAnswer(a: Option<(seq<Seen>, Seen)>, b: Option<(seq<Seen>, Seen)>) {
    a.Some? && b.Some? && a.value.0 == b.value.0 ==> a.value.1 == b.value.1
  }

  /** No two executions, at any two times, saw different results at the same place, and none saw
      anything else than the history the workflow starts from. */
  ghost predicate AllAgree(ss: seq<State>)
    requires |ss| > 0
  {
    (forall j, e :: 0 <= j < |ss| && e in ss[j].execs ==> Agree(ss[0].spine, ss[j].execs[e].hist)) &&
    forall j, k, e, f :: 0 <= j < |ss| && 0 <= k < |ss| && e in ss[j].execs && f in ss[k].execs ==>
      Agree(ss[j].execs[e].hist, ss[k].execs[f].hist)
  }

  predicate Agree(g: seq<Seen>, h: seq<Seen>) {
    forall i :: 0 <= i < |g| && i < |h| ==> g[i] == h[i]
  }

  /** Unrecorded answers by point of the body; at spawns and enqueues, refusals only. */
  ghost predicate Proper(body: Body, ans: seq<Seen> -> Option<Seen>) {
    forall h :: ans(h).Some? ==> body(h).Await? || ((body(h).Child? || body(h).Enqueue?) && ans(h) == Some(Failed))
  }

  /** The body with the steady answers built in. */
  function WithAnswers(body: Body, ans: seq<Seen> -> Option<Seen>): Body {
    h => if ans(h).Some? then Action.Told(ans(h).value, Width(body(h)) > 0) else body(h)
  }

  lemma {:induction false} AnsweredPosition(body: Body, ans: seq<Seen> -> Option<Seen>, h: seq<Seen>)
    requires Proper(body, ans)
    ensures Position(WithAnswers(body, ans), h) == Position(body, h)
  {
    if h != [] {
      AnsweredPosition(body, ans, h[..|h| - 1]);
      var g := h[..|h| - 1];
      assert Width(WithAnswers(body, ans)(g)) == Width(body(g));
    }
  }

  /** The step of the body with the answers built in. A spawn that finds the row of one that
      failed loses to it. */
  function Narrow(body: Body, ans: seq<Seen> -> Option<Seen>, s: State, w: Wide): Event {
    match w
    case Refuse(e) => Hear(e)
    case Answer(e, _) => Hear(e)
    case Parked(e, child) =>
      Leave(e, ChildRow(if e in s.execs && body(s.execs[e].hist).Child? then body(s.execs[e].hist).name else "", child))
    case Plain(v) =>
      if v.SpawnChild? && v.e in s.execs && ans(s.execs[v.e].hist).Some? then Clash(v.e) else v
  }

  /** The step gives no answer but the steady one. */
  predicate Fits(body: Body, ans: seq<Seen> -> Option<Seen>, s: State, w: Wide) {
    var a := AnswerIn(body, s, w);
    a.Some? ==> (ans(a.value.0) == None && w.Plain?) || ans(a.value.0) == Some(a.value.1)
  }

  /** The execution a step belongs to. */
  function Actor(v: Event): Option<nat> {
    match v
    case CancelRow => None
    case ResumeRow => None
    case ParkRow => None
    case _ => Some(v.e)
  }

  /** The body and the one with the answers built in do the same after h. */
  predicate SameThere(body: Body, body': Body, h: seq<Seen>) {
    body'(h) == body(h) && Position(body', h) == Position(body, h)
  }

  lemma SameLookup(body: Body, body': Body, s: State, v: Event, solo: bool)
    requires Enabled(body, s, v, solo) && (v.Check? || v.Ask? || v.RunPublish? || v.Leave? || v.Clash?)
    requires SameThere(body, body', s.execs[v.e].hist)
    ensures Enabled(body', s, v, solo) && Apply(body', s, v) == Apply(body, s, v)
  {
  }

  lemma SameInsert(body: Body, body': Body, s: State, v: Event, solo: bool)
    requires Enabled(body, s, v, solo) && (v.Insert? || v.SpawnChild?)
    requires SameThere(body, body', s.execs[v.e].hist)
    ensures Enabled(body', s, v, solo) && Apply(body', s, v) == Apply(body, s, v)
  {
  }

  lemma SameRest(body: Body, body': Body, s: State, v: Event, solo: bool)
    requires Enabled(body, s, v, solo)
    requires v.RunClosure? || v.Wake? || v.Hear? || v.EnqueueRow? || v.WriteOutcome? || v.ReadOutcome? || v.WriteError? || v.Crash?
    requires v.e in s.execs ==> SameThere(body, body', s.execs[v.e].hist)
    ensures Enabled(body', s, v, solo) && Apply(body', s, v) == Apply(body, s, v)
  {
  }

  lemma SameControl(body: Body, body': Body, s: State, v: Event, solo: bool)
    requires Enabled(body, s, v, solo) && (v.Launch? || v.CancelRow? || v.ResumeRow? || v.ParkRow?)
    ensures Enabled(body', s, v, solo) && Apply(body', s, v) == Apply(body, s, v)
  {
  }

  /** A step after a point without a steady answer is the same step of the body with the
      answers built in. */
  lemma SameStep(body: Body, ans: seq<Seen> -> Option<Seen>, s: State, v: Event, solo: bool)
    requires Proper(body, ans) && Enabled(body, s, v, solo)
    requires Actor(v).Some? && Actor(v).value in s.execs ==> ans(s.execs[Actor(v).value].hist) == None
    ensures Enabled(WithAnswers(body, ans), s, v, solo) && Apply(WithAnswers(body, ans), s, v) == Apply(body, s, v)
  {
    var body' := WithAnswers(body, ans);
    if v.Launch? || v.CancelRow? || v.ResumeRow? || v.ParkRow? {
      SameControl(body, body', s, v, solo);
    } else {
      if v.e in s.execs { AnsweredPosition(body, ans, s.execs[v.e].hist); }
      if v.Check? || v.Ask? || v.RunPublish? || v.Leave? || v.Clash? {
        SameLookup(body, body', s, v, solo);
      } else if v.Insert? || v.SpawnChild? {
        SameInsert(body, body', s, v, solo);
      } else {
        SameRest(body, body', s, v, solo);
      }
    }
  }

  /** After a point with a steady answer, a plain step only looks it up, loses, or crashes. */
  lemma StepAtAnswer(body: Body, ans: seq<Seen> -> Option<Seen>, s: State, v: Event, solo: bool)
    requires Proper(body, ans) && Enabled(body, s, v, solo) && Fits(body, ans, s, Plain(v))
    requires Inv(WithAnswers(body, ans), s) && !v.SpawnChild?
    requires Actor(v).Some? && Actor(v).value in s.execs && ans(s.execs[Actor(v).value].hist).Some?
    ensures Enabled(WithAnswers(body, ans), s, v, solo) && Apply(WithAnswers(body, ans), s, v) == Apply(body, s, v)
  {
    var body', e := WithAnswers(body, ans), v.e;
    var x := s.execs[e];
    assert ExecInv(body', s, x);
    AnsweredPosition(body, ans, x.hist);
    if v.Check? && Position(body, x.hist) in s.log { ChildIsThere(body', s, x.hist); }
  }

  /** A row at a point that is told its answer names a child. */
  lemma ChildIsThere(body: Body, s: State, h: seq<Seen>)
    requires SpineInv(body, s) && h <= s.spine && body(h).Told? && body(h).takesId && Position(body, h) in s.log
    ensures s.log[Position(body, h)].child.Some?
  {
    NextPrefix(h, s.spine);
    if |h| < |s.spine| { LoggedAt(body, s.log, s.spine, h); }
  }

  lemma SpawnAtAnswer(body: Body, ans: seq<Seen> -> Option<Seen>, s: State, e: nat, c: Id, solo: bool)
    requires Proper(body, ans) && Enabled(body, s, SpawnChild(e, c), solo) && Fits(body, ans, s, Plain(SpawnChild(e, c)))
    requires ans(s.execs[e].hist).Some?
    ensures Enabled(WithAnswers(body, ans), s, Clash(e), solo)
    ensures Apply(WithAnswers(body, ans), s, Clash(e)) == Apply(body, s, SpawnChild(e, c))
  {
    AnsweredPosition(body, ans, s.execs[e].hist);
  }

  lemma AnswerIsStep(body: Body, ans: seq<Seen> -> Option<Seen>, s: State, w: Wide, s': State, solo: bool)
    requires Proper(body, ans) && !w.Plain? && WideNext(body, s, w, s', solo) && Fits(body, ans, s, w)
    ensures Next(WithAnswers(body, ans), s, Narrow(body, ans, s, w), s', solo)
  {
    AnsweredPosition(body, ans, s.execs[w.e].hist);
  }

  lemma WideStepIsStep(body: Body, ans: seq<Seen> -> Option<Seen>, s: State, w: Wide, s': State, solo: bool)
    requires Proper(body, ans) && Inv(WithAnswers(body, ans), s) && WideNext(body, s, w, s', solo)
    requires Fits(body, ans, s, w)
    ensures Next(WithAnswers(body, ans), s, Narrow(body, ans, s, w), s', solo)
  {
    if !w.Plain? {
      AnswerIsStep(body, ans, s, w, s', solo);
    } else {
      var v := w.v;
      if Actor(v).Some? && Actor(v).value in s.execs && ans(s.execs[Actor(v).value].hist).Some? {
        if v.SpawnChild? {
          SpawnAtAnswer(body, ans, s, v.e, v.child, solo);
        } else {
          StepAtAnswer(body, ans, s, v, solo);
        }
      } else {
        SameStep(body, ans, s, v, solo);
      }
    }
  }

  predicate AnsweredAt(body: Body, ss: seq<State>, ws: seq<Wide>, h: seq<Seen>, k: int)
    requires |ss| == |ws| + 1
  {
    0 <= k < |ws| && !ws[k].Plain? && AnswerIn(body, ss[k], ws[k]).Some? && AnswerIn(body, ss[k], ws[k]).value.0 == h
  }

  /** The unrecorded answers of a run, by point of the body. */
  ghost function AnswersOf(body: Body, ss: seq<State>, ws: seq<Wide>): seq<Seen> -> Option<Seen>
    requires |ss| == |ws| + 1
  {
    h =>
      if exists k :: AnsweredAt(body, ss, ws, h, k) then
        var k :| AnsweredAt(body, ss, ws, h, k);
        Some(AnswerIn(body, ss[k], ws[k]).value.1)
      else None
  }

  lemma AnswersAreProper(body: Body, ss: seq<State>, ws: seq<Wide>, solo: bool)
    requires WideRun(body, ss, ws, solo)
    ensures Proper(body, AnswersOf(body, ss, ws))
  {
    var ans := AnswersOf(body, ss, ws);
    forall h | ans(h).Some?
      ensures body(h).Await? || ((body(h).Child? || body(h).Enqueue?) && ans(h) == Some(Failed))
    {
      var k :| AnsweredAt(body, ss, ws, h, k) && ans(h) == Some(AnswerIn(body, ss[k], ws[k]).value.1);
      assert WideNext(body, ss[k], ws[k], ss[k + 1], solo);
    }
  }

  lemma AnswersFit(body: Body, ss: seq<State>, ws: seq<Wide>, k: nat)
    requires |ss| == |ws| + 1 && Steady(body, ss, ws) && k < |ws|
    ensures Fits(body, AnswersOf(body, ss, ws), ss[k], ws[k])
  {
    var ans, a := AnswersOf(body, ss, ws), AnswerIn(body, ss[k], ws[k]);
    if a.Some? {
      var h := a.value.0;
      assert !ws[k].Plain? ==> AnsweredAt(body, ss, ws, h, k);
      if ans(h).Some? {
        var j :| AnsweredAt(body, ss, ws, h, j) && ans(h) == Some(AnswerIn(body, ss[j], ws[j]).value.1);
        assert SameAnswer(AnswerIn(body, ss[j], ws[j]), a);
      }
    }
  }

  /** The answers of a run that starts from a history: its own there, the run's afterwards. */
  ghost function AnswersFrom(body: Body, ans0: seq<Seen> -> Option<Seen>, ss: seq<State>, ws: seq<Wide>): seq<Seen> -> Option<Seen>
    requires |ss| == |ws| + 1
  {
    h => if Before(h, ss[0].spine) then ans0(h) else AnswersOf(body, ss, ws)(h)
  }

  /** At a point of the starting history the run gives no other answer. */
  lemma StartFits(body: Body, ans0: seq<Seen> -> Option<Seen>, ss: seq<State>, ws: seq<Wide>, solo: bool, k: nat)
    requires WideRun(body, ss, ws, solo) && Proper(body, ans0) && Init(WithAnswers(body, ans0), ss[0])
    requires Steady(body, ss, ws) && k < |ws|
    requires AnswerIn(body, ss[k], ws[k]).Some? && Before(AnswerIn(body, ss[k], ws[k]).value.0, ss[0].spine)
    ensures Fits(body, ans0, ss[k], ws[k])
  {
    var (h, r) := AnswerIn(body, ss[k], ws[k]).value;
    assert WideNext(body, ss[k], ws[k], ss[k + 1], solo);
    assert AsAtStart(ss[0].spine, AnswerIn(body, ss[k], ws[k]));
    StartAnswer(body, ans0, ss[0], h);
    AnswerOfStep(body, ss[k], ws[k], solo);
  }

  /** What the starting history has where an answer is built in, and where none is. */
  lemma StartAnswer(body: Body, ans0: seq<Seen> -> Option<Seen>, s: State, h: seq<Seen>)
    requires Proper(body, ans0) && SpineInv(WithAnswers(body, ans0), s) && Before(h, s.spine)
    ensures ans0(h).Some? ==> ans0(h) == Some(s.spine[|h|])
    ensures body(h).Await? ==> ans0(h).Some?
    ensures ans0(h).None? && (body(h).Child? || body(h).Enqueue?) ==> s.spine[|h|] != Failed
  {
    NextPrefix(h, s.spine);
    LoggedAt(WithAnswers(body, ans0), s.log, s.spine, h);
  }

  lemma AnswerOfStep(body: Body, s: State, w: Wide, solo: bool)
    requires WideEnabled(body, s, w, solo) && AnswerIn(body, s, w).Some?
    ensures var (h, r) := AnswerIn(body, s, w).value;
            body(h).Await? || body(h).Child? || body(h).Enqueue?
    ensures var (h, r) := AnswerIn(body, s, w).value;
            !w.Plain? && !body(h).Await? ==> r == Failed
  {
  }

  lemma FromFits(body: Body, ans0: seq<Seen> -> Option<Seen>, ss: seq<State>, ws: seq<Wide>, solo: bool)
    requires WideRun(body, ss, ws, solo) && Proper(body, ans0) && Init(WithAnswers(body, ans0), ss[0])
    requires Steady(body, ss, ws)
    ensures Proper(body, AnswersFrom(body, ans0, ss, ws))
    ensures forall k :: 0 <= k < |ws| ==> Fits(body, AnswersFrom(body, ans0, ss, ws), ss[k], ws[k])
  {
    AnswersAreProper(body, ss, ws, solo);
    forall k | 0 <= k < |ws| ensures Fits(body, AnswersFrom(body, ans0, ss, ws), ss[k], ws[k]) {
      var a := AnswerIn(body, ss[k], ws[k]);
      if a.Some? && Before(a.value.0, ss[0].spine) {
        StartFits(body, ans0, ss, ws, solo, k);
      } else {
        AnswersFit(body, ss, ws, k);
      }
    }
  }

  lemma {:induction false} SamePosition(body: Body, body': Body, h: seq<Seen>)
    requires forall i :: 0 <= i < |h| ==> body(h[..i]) == body'(h[..i])
    ensures Position(body, h) == Position(body', h)
  {
    if h != [] {
      var g := h[..|h| - 1];
      forall i | 0 <= i < |g| ensures body(g[..i]) == body'(g[..i]) {
        assert g[..i] == h[..i];
      }
      SamePosition(body, body', g);
    }
  }

  lemma SamePrefix(body: Body, body': Body, h: seq<Seen>, i: nat)
    requires i <= |h| && forall j :: 0 <= j < |h| ==> body(h[..j]) == body'(h[..j])
    ensures Position(body, h[..i]) == Position(body', h[..i])
  {
    forall j | 0 <= j < i ensures body(h[..i][..j]) == body'(h[..i][..j]) {
      assert h[..i][..j] == h[..j];
    }
    SamePosition(body, body', h[..i]);
  }

  /** Bodies that agree up to the end of a history account for the same log. */
  lemma SameSpine(body: Body, body': Body, s: State)
    requires SpineInv(body, s)
    requires forall j :: 0 <= j < |s.spine| ==> body(s.spine[..j]) == body'(s.spine[..j])
    requires body(s.spine).Return? ==> body'(s.spine).Return?
    requires body(s.spine).Wait? <==> body'(s.spine).Wait?
    ensures SpineInv(body', s)
  {
    var h := s.spine;
    SamePosition(body, body', h);
    assert h[..|h|] == h;
    forall i | 0 <= i < |h| ensures Logged(body', s.log, h, i) {
      SamePrefix(body, body', h, i);
      assert Logged(body, s.log, h, i);
    }
    forall i | 0 <= i <= |h| ensures WakesAt(body', s, i) {
      SamePrefix(body, body', h, i);
      assert WakesAt(body, s, i);
    }
  }

  lemma FromIsInit(body: Body, ans0: seq<Seen> -> Option<Seen>, ss: seq<State>, ws: seq<Wide>, solo: bool)
    requires WideRun(body, ss, ws, solo) && Proper(body, ans0) && Init(WithAnswers(body, ans0), ss[0])
    ensures Init(WithAnswers(body, AnswersFrom(body, ans0, ss, ws)), ss[0])
  {
    AnswersAreProper(body, ss, ws, solo);
    var spine := ss[0].spine;
    forall j | 0 <= j < |spine|
      ensures WithAnswers(body, ans0)(spine[..j]) == WithAnswers(body, AnswersFrom(body, ans0, ss, ws))(spine[..j])
    {
      assert Before(spine[..j], spine);
    }
    SameSpine(WithAnswers(body, ans0), WithAnswers(body, AnswersFrom(body, ans0, ss, ws)), ss[0]);
  }

  /** A run with steady answers is a run of the body with the answers built in. */
  lemma {:induction false} SteadyStepsAreSteps(body: Body, ans: seq<Seen> -> Option<Seen>, ss: seq<State>, ws: seq<Wide>, solo: bool, k: nat)
    requires WideRun(body, ss, ws, solo) && Init(WithAnswers(body, ans), ss[0]) && Proper(body, ans)
    requires forall j :: 0 <= j < |ws| ==> Fits(body, ans, ss[j], ws[j])
    requires k <= |ws|
    ensures Inv(WithAnswers(body, ans), ss[k])
    ensures forall j :: 0 <= j < k ==> Next(WithAnswers(body, ans), ss[j], Narrow(body, ans, ss[j], ws[j]), ss[j + 1], solo)
  {
    if k == 0 {
      InitMeetsInv(WithAnswers(body, ans), ss[0]);
    } else {
      SteadyStepsAreSteps(body, ans, ss, ws, solo, k - 1);
      assert WideNext(body, ss[k - 1], ws[k - 1], ss[k], solo);
      WideStepIsStep(body, ans, ss[k - 1], ws[k - 1], ss[k], solo);
      ReplayInv.StepKeepsInv(WithAnswers(body, ans), ss[k - 1], Narrow(body, ans, ss[k - 1], ws[k - 1]), ss[k], solo);
    }
  }

  function Narrows(body: Body, ans: seq<Seen> -> Option<Seen>, ss: seq<State>, ws: seq<Wide>): (vs: seq<Event>)
    requires |ss| == |ws| + 1
    ensures |vs| == |ws| && forall k :: 0 <= k < |vs| ==> vs[k] == Narrow(body, ans, ss[k], ws[k])
  {
    seq(|ws|, k requires 0 <= k < |ws| => Narrow(body, ans, ss[k], ws[k]))
  }

  lemma SteadyIsRun(body: Body, ans0: seq<Seen> -> Option<Seen>, ss: seq<State>, ws: seq<Wide>, solo: bool)
    requires WideRun(body, ss, ws, solo) && Proper(body, ans0) && Init(WithAnswers(body, ans0), ss[0])
    requires Steady(body, ss, ws)
    ensures var ans := AnswersFrom(body, ans0, ss, ws);
            Run(WithAnswers(body, ans), ss, Narrows(body, ans, ss, ws), solo) && Init(WithAnswers(body, ans), ss[0])
  {
    FromFits(body, ans0, ss, ws, solo);
    FromIsInit(body, ans0, ss, ws, solo);
    SteadyStepsAreSteps(body, AnswersFrom(body, ans0, ss, ws), ss, ws, solo, |ws|);
  }

  /** With steady answers all the guarantees hold, evaluation being against the log and those
      answers: decided outcomes refine it, finishers agree, no lookup fails, and the
      execution that made the latest insert has not lost. The workflow may be a fork of one
      that had answers of its own. */
  lemma SteadyRunRefines(body: Body, ans0: seq<Seen> -> Option<Seen>, ss: seq<State>, ws: seq<Wide>, solo: bool,
                         j: nat, k: nat, e: nat, f: nat)
    requires WideRun(body, ss, ws, solo) && Proper(body, ans0) && Init(WithAnswers(body, ans0), ss[0])
    requires Steady(body, ss, ws) && j <= k <= |ws|
    ensures Refines(WithAnswers(body, AnswersFrom(body, ans0, ss, ws)), ss[k].log, ss[j])
    ensures e in ss[j].execs && ss[j].execs[e].phase.Ended? && f in ss[k].execs && ss[k].execs[f].phase.Ended? ==>
              ss[j].execs[e].phase.out == ss[k].execs[f].phase.out
    ensures e in ss[k].execs ==> !ss[k].execs[e].phase.Broken?
    ensures ss[k].last.Some? && ss[k].last.value in ss[k].execs ==> !ss[k].execs[ss[k].last.value].phase.Lost?
  {
    SteadyIsRun(body, ans0, ss, ws, solo);
    var ans := AnswersFrom(body, ans0, ss, ws);
    var body', vs := WithAnswers(body, ans), Narrows(body, ans, ss, ws);
    OutcomeIsEvaluation(body', ss, vs, solo, j, k);
    if e in ss[j].execs && ss[j].execs[e].phase.Ended? && f in ss[k].execs && ss[k].execs[f].phase.Ended? {
      FinishersAgree(body', ss, vs, solo, j, k, e, f);
    }
    if e in ss[k].execs { NoLookupFails(body', ss, vs, solo, k, e); }
    if ss[k].last.Some? && ss[k].last.value in ss[k].execs { LatestInserterHasNotLost(body', ss, vs, solo, k); }
  }

  /** What an answer leaves behind: the execution has seen it. */
  lemma AnswerIsSeen(body: Body, s: State, w: Wide, s': State, solo: bool)
    requires WideNext(body, s, w, s', solo) && AnswerIn(body, s, w).Some?
    ensures var (h, r) := AnswerIn(body, s, w).value;
            exists e :: e in s'.execs && s'.execs[e].hist == h + [r]
  {
    if w.Plain? {
      PlainAnswerIsSeen(body, s, w.v);
      assert w.v.e in s'.execs;
    } else {
      assert w.e in s'.execs;
    }
  }

  lemma PlainAnswerIsSeen(body: Body, s: State, v: Event)
    requires Enabled(body, s, v, false) && AnswerIn(body, s, Plain(v)).Some?
    ensures var (h, r) := AnswerIn(body, s, Plain(v)).value;
            var s' := Apply(body, s, v);
            v.e in s'.execs && s'.execs[v.e].hist == h + [r]
  {
    if v.SpawnChild? { SpawnIsInsert(body, s, v.e, v.child); }
  }

  lemma UnsteadyDiffer(body: Body, ss: seq<State>, ws: seq<Wide>, solo: bool)
    requires WideRun(body, ss, ws, solo) && !Steady(body, ss, ws)
    ensures !AllAgree(ss)
  {
    if k :| 0 <= k < |ws| && !AsAtStart(ss[0].spine, AnswerIn(body, ss[k], ws[k])) {
      assert WideNext(body, ss[k], ws[k], ss[k + 1], solo);
      AnswerIsSeen(body, ss[k], ws[k], ss[k + 1], solo);
      var (h, r) := AnswerIn(body, ss[k], ws[k]).value;
      var e :| e in ss[k + 1].execs && ss[k + 1].execs[e].hist == h + [r];
      assert (h + [r])[|h|] != ss[0].spine[|h|];
      assert !Agree(ss[0].spine, ss[k + 1].execs[e].hist);
    } else {
      var j, k :| 0 <= j < |ws| && 0 <= k < |ws| && !SameAnswer(AnswerIn(body, ss[j], ws[j]), AnswerIn(body, ss[k], ws[k]));
      TwoAnswersDiffer(body, ss, ws, solo, j, k);
    }
  }

  lemma TwoAnswersDiffer(body: Body, ss: seq<State>, ws: seq<Wide>, solo: bool, j: nat, k: nat)
    requires WideRun(body, ss, ws, solo) && j < |ws| && k < |ws|
    requires !SameAnswer(AnswerIn(body, ss[j], ws[j]), AnswerIn(body, ss[k], ws[k]))
    ensures !AllAgree(ss)
  {
    assert WideNext(body, ss[j], ws[j], ss[j + 1], solo) && WideNext(body, ss[k], ws[k], ss[k + 1], solo);
    AnswerIsSeen(body, ss[j], ws[j], ss[j + 1], solo);
    AnswerIsSeen(body, ss[k], ws[k], ss[k + 1], solo);
    var (h, r) := AnswerIn(body, ss[j], ws[j]).value;
    var q := AnswerIn(body, ss[k], ws[k]).value.1;
    var e :| e in ss[j + 1].execs && ss[j + 1].execs[e].hist == h + [r];
    var f :| f in ss[k + 1].execs && ss[k + 1].execs[f].hist == h + [q];
    assert (h + [r])[|h|] != (h + [q])[|h|];
    assert !Agree(ss[j + 1].execs[e].hist, ss[k + 1].execs[f].hist);
  }

  lemma SteadyAgree(body: Body, ans0: seq<Seen> -> Option<Seen>, ss: seq<State>, ws: seq<Wide>, solo: bool)
    requires WideRun(body, ss, ws, solo) && Proper(body, ans0) && Init(WithAnswers(body, ans0), ss[0])
    requires Steady(body, ss, ws)
    ensures AllAgree(ss)
  {
    SteadyIsRun(body, ans0, ss, ws, solo);
    var ans := AnswersFrom(body, ans0, ss, ws);
    var body', vs := WithAnswers(body, ans), Narrows(body, ans, ss, ws);
    InitMeetsInv(body', ss[0]);
    RunKeepsInv(body', ss, vs, solo);
    forall j, e | 0 <= j < |ss| && e in ss[j].execs ensures Agree(ss[0].spine, ss[j].execs[e].hist) {
      RunGrows(body', ss, vs, solo, 0, j);
      assert ExecInv(body', ss[j], ss[j].execs[e]);
    }
    forall j, k, e, f | 0 <= j < |ss| && 0 <= k < |ss| && e in ss[j].execs && f in ss[k].execs
      ensures Agree(ss[j].execs[e].hist, ss[k].execs[f].hist)
    {
      forall i: nat | i < |ss[j].execs[e].hist| && i < |ss[k].execs[f].hist|
        ensures ss[j].execs[e].hist[i] == ss[k].execs[f].hist[i]
      {
        if j <= k {
          ResultsAgree(body', ss, vs, solo, j, k, e, f, i);
        } else {
          ResultsAgree(body', ss, vs, solo, k, j, f, e, i);
        }
      }
    }
  }

  /** Executions never see different results exactly if each spawn, enqueue and awaited result
      is answered as before whenever it is tried again. The workflow may be a fork, whose
      starting history counts as seen. */
  lemma ResultsAgreeIff(body: Body, ans0: seq<Seen> -> Option<Seen>, ss: seq<State>, ws: seq<Wide>, solo: bool)
    requires WideRun(body, ss, ws, solo) && Proper(body, ans0) && Init(WithAnswers(body, ans0), ss[0])
    ensures AllAgree(ss) <==> Steady(body, ss, ws)
  {
    if Steady(body, ss, ws) {
      SteadyAgree(body, ans0, ss, ws, solo);
    } else {
      UnsteadyDiffer(body, ss, ws, solo);
    }
  }

  /** A workflow at its beginning, with any body and without answers. */
  predicate Fresh(s: State) {
    s.status != Success && s.status != Error && s.outcome == None && s.log == map[] && s.initial == map[] &&
    s.spawned == map[] && s.execs == map[] && s.spine == [] && s.last == None
  }

  lemma FreshIsInit(body: Body, s: State)
    requires Fresh(s)
    ensures Init(body, s)
  {
    assert WakesAt(body, s, 0);
  }

  // ---- a parked spawn ----

  predicate LogKept(log: Log, log': Log) {
    forall n :: n in log ==> n in log' && log'[n] == log[n]
  }

  lemma WideStepKeepsLog(body: Body, s: State, w: Wide, s': State, solo: bool)
    requires WideNext(body, s, w, s', solo)
    ensures LogKept(s.log, s'.log)
  {
    if !w.Plain? {
    } else if w.v.Insert? || w.v.SpawnChild? {
      InsertStepKeepsLog(body, s, w.v);
    } else if Hears(w.v) {
      HearGrows(body, s, w.v);
    } else {
      OthersKeepLog(body, s, w.v);
    }
  }

  lemma InsertStepKeepsLog(body: Body, s: State, v: Event)
    requires Enabled(body, s, v, false) && (v.Insert? || v.SpawnChild?)
    ensures LogKept(s.log, Apply(body, s, v).log)
  {
    if v.Insert? {
      AfterInsertKeepsLog(body, s, v.e);
    } else {
      SpawnIsInsert(body, s, v.e, v.child);
      AfterInsertKeepsLog(body, Spawning(body, s, v.e, v.child), v.e);
    }
  }

  lemma AfterInsertKeepsLog(body: Body, s: State, e: nat)
    requires e in s.execs && s.execs[e].phase.Ran?
    ensures LogKept(s.log, AfterInsert(body, s, e).log)
  {
    var n := SlotId(body, s.execs[e].hist, s.execs[e].phase.slot);
    var log := AfterInsert(body, s, e).log;
    assert log == s.log || (n !in s.log && log == s.log[n := s.execs[e].phase.op]);
  }

  lemma {:induction false} WideRunKeepsLog(body: Body, ss: seq<State>, ws: seq<Wide>, solo: bool, j: nat, k: nat)
    requires WideRun(body, ss, ws, solo) && j <= k <= |ws|
    ensures LogKept(ss[j].log, ss[k].log)
    decreases k - j
  {
    if j < k {
      WideRunKeepsLog(body, ss, ws, solo, j, k - 1);
      WideStepKeepsLog(body, ss[k - 1], ws[k - 1], ss[k], solo);
    }
  }

  /** A spawn that is refused because the child is dead-lettered is recorded all the same:
      every later lookup at that point finds the child and takes the spawn for a success. */
  lemma ParkedSpawnReplaysAsSuccess(body: Body, ss: seq<State>, ws: seq<Wide>, solo: bool, j: nat, k: nat, f: nat)
    requires WideRun(body, ss, ws, solo) && j < k <= |ws| && ws[j].Parked? && ws[j].e in ss[j].execs
    requires f in ss[k].execs && ss[k].execs[f] == Exec(ss[j].execs[ws[j].e].hist, Ready)
    ensures var h := ss[j].execs[ws[j].e].hist;
            ss[j + 1].execs[ws[j].e].hist == h + [Failed] &&
            AfterCheck(body, ss[k], ss[k].execs[f]) == Exec(h + [Got(Text(ws[j].child))], Ready)
  {
    assert WideNext(body, ss[j], ws[j], ss[j + 1], solo);
    WideRunKeepsLog(body, ss, ws, solo, j + 1, k);
  }

  // ---- failing runs ----

  lemma WideOn(body: Body, ss: seq<State>, ws: seq<Wide>, w: Wide, s: State) returns (ss': seq<State>, ws': seq<Wide>)
    requires WideRun(body, ss, ws, false) && WideNext(body, ss[|ws|], w, s, false)
    ensures ss' == ss + [s] && ws' == ws + [w] && WideRun(body, ss', ws', false)
  {
    ss', ws' := ss + [s], ws + [w];
    forall k {:trigger ws'[k]} | 0 <= k < |ws'| ensures WideNext(body, ss'[k], ws'[k], ss'[k + 1], false) {
      if k < |ws| {
        assert ss'[k] == ss[k] && ss'[k + 1] == ss[k + 1] && ws'[k] == ws[k];
      }
    }
  }

  /** Two executions of a workflow about to spawn its first child. */
  lemma TwoLaunched(body: Body, s: State) returns (ss: seq<State>, ws: seq<Wide>)
    requires Fresh(s) && s.execs == map[] && s.last == None && s.status == Pending
    ensures WideRun(body, ss, ws, false) && ss[0] == s
    ensures ss[|ws|] == s.(execs := map[0 := Exec([], Ready), 1 := Exec([], Ready)])
  {
    var x := Exec([], Ready);
    ss, ws := WideOn(body, [s], [], Plain(Launch(0)), s.(execs := map[0 := x]));
    ss, ws := WideOn(body, ss, ws, Plain(Launch(1)), s.(execs := map[0 := x, 1 := x]));
  }

  lemma TwoAboutToSpawn(body: Body, name: string) returns (ss: seq<State>, ws: seq<Wide>)
    requires body([]) == Child(name)
    ensures WideRun(body, ss, ws, false) && Fresh(ss[0])
    ensures var x := Exec([], Missed(Own));
            ss[|ws|] == State(Pending, None, map[], map[], map[], map[], map[], map[0 := x, 1 := x], [], None, {})
  {
    var x, y := Exec([], Ready), Exec([], Missed(Own));
    var s := State(Pending, None, map[], map[], map[], map[], map[], map[], [], None, {});
    ss, ws := TwoLaunched(body, s);
    ss, ws := WideOn(body, ss, ws, Plain(Check(0)), s.(execs := map[0 := y, 1 := x]));
    ss, ws := WideOn(body, ss, ws, Plain(Check(1)), s.(execs := map[0 := y, 1 := y]));
  }

  /** The failing run of refinement and agreement: a body that passes the refusal on. The
      outcome written first is not the evaluation of the log; the execution that was not
      refused then ends with another one and overwrites it. */
  lemma RefusalBreaksAgreement(body: Body, name: string, c: Id, v: Payload)
    returns (ss: seq<State>, ws: seq<Wide>, j: nat)
    requires body([]) == Child(name) && body([Failed]) == Return(Failed) && body([Got(Text(c))]) == Return(Got(v))
    ensures WideRun(body, ss, ws, false) && Fresh(ss[0]) && j < |ws|
    ensures ss[j].status == Error && ss[j].log == map[] && !Refines(body, ss[j].log, ss[j])
    ensures var s := ss[|ws|];
            s.execs == map[0 := Exec([Failed], Ended(Failed)), 1 := Exec([Got(Text(c))], Ended(Got(v)))] &&
            s.status == Success && s.outcome == Some(Got(v))
  {
    ss, ws := TwoAboutToSpawn(body, name);
    var s1, s2 := RefusedEnds(body, ss[|ws|]);
    ss, ws := WideOn(body, ss, ws, Refuse(0), s1);
    ss, ws := WideOn(body, ss, ws, Plain(WriteOutcome(0)), s2);
    j := |ws|;
    NothingEvaluates(body, name);
    assert !Refines(body, map[], s2);
    ss, ws := OtherEnds(body, ss, ws, s2, name, c, v);
  }

  /** The other execution spawns the child and ends well. */
  lemma OtherEnds(body: Body, ss: seq<State>, ws: seq<Wide>, s: State, name: string, c: Id, v: Payload)
    returns (ss': seq<State>, ws': seq<Wide>)
    requires WideRun(body, ss, ws, false) && ss[|ws|] == s && s.status == Error && s.log == map[]
    requires body([]) == Child(name) && body([Got(Text(c))]) == Return(Got(v)) && 1 in s.execs && s.execs[1] == Exec([], Missed(Own))
    ensures WideRun(body, ss', ws', false) && ss <= ss' && |ws| < |ws'|
    ensures var s' := ss'[|ws'|];
            s'.execs == s.execs[1 := Exec([Got(Text(c))], Ended(Got(v)))] && s'.status == Success && s'.outcome == Some(Got(v))
  {
    var s3 := SpawnBeside(body, s, name, c);
    ss', ws' := WideOn(body, ss, ws, Plain(SpawnChild(1, c)), s3);
    var s4 := SpawnedEnds(body, s3, c, v);
    ss', ws' := WideOn(body, ss', ws', Plain(WriteOutcome(1)), s4);
  }

  lemma RefusedEnds(body: Body, s: State) returns (s1: State, s2: State)
    requires body([]).Child? && body([Failed]) == Return(Failed) && s.status == Pending
    requires s.spine == [] && 0 in s.execs && s.execs[0] == Exec([], Missed(Own))
    ensures WideNext(body, s, Refuse(0), s1, false) && WideNext(body, s1, Plain(WriteOutcome(0)), s2, false)
    ensures s2 == s.(spine := [Failed], status := Error, outcome := Some(Failed),
                     execs := s.execs[0 := Exec([Failed], Ended(Failed))])
  {
    assert [] + [Failed] == [Failed];
    s1 := Heard(s, 0, Failed);
    s2 := Apply(body, s1, WriteOutcome(0));
  }

  lemma SpawnedEnds(body: Body, s: State, c: Id, v: Payload) returns (s': State)
    requires body([Got(Text(c))]) == Return(Got(v)) && s.status == Error
    requires 1 in s.execs && s.execs[1] == Exec([Got(Text(c))], Ready)
    ensures WideNext(body, s, Plain(WriteOutcome(1)), s', false)
    ensures s' == s.(status := Success, outcome := Some(Got(v)), execs := s.execs[1 := Exec([Got(Text(c))], Ended(Got(v)))])
  {
    s' := Apply(body, s, WriteOutcome(1));
  }

  lemma NothingEvaluates(body: Body, name: string)
    requires body([]) == Child(name)
    ensures forall out :: !Evaluates(body, map[], out)
  {
    forall fuel: nat ensures Eval(body, map[], [], fuel) == None {}
  }

  lemma SpawnBeside(body: Body, s: State, name: string, c: Id) returns (s': State)
    requires body([]) == Child(name) && s.log == map[] && 1 in s.execs && s.execs[1] == Exec([], Missed(Own))
    ensures WideNext(body, s, Plain(SpawnChild(1, c)), s', false)
    ensures s' == s.(log := map[0 := OpRow(name, Null, None, Some(c))], last := Some(1), spine := [Got(Text(c))],
                     execs := s.execs[1 := Exec([Got(Text(c))], Ready)])
  {
    assert [] + [Got(Text(c))] == [Got(Text(c))];
    s' := Apply(body, s, SpawnChild(1, c));
  }

  /** The failing run of the lookups: a body that catches the refusal and takes another step
      instead. The execution that was not refused finds that step under its own step's id. */
  lemma RefusalBreaksLookup(body: Body, name: string, c: Id, a: string, b: string, r: Live)
    returns (ss: seq<State>, ws: seq<Wide>)
    requires body([]) == Child(name) && body([Failed]) == Step(a) && body([Got(Text(c))]) == Step(b) && a != b
    ensures WideRun(body, ss, ws, false) && Fresh(ss[0])
    ensures 1 in ss[|ws|].execs && ss[|ws|].execs[1].phase.Broken?
  {
    ss, ws := OneRefused(body, name, c);
    assert Position(body, [Failed]) == 1;
    ss, ws := OtherStep(body, ss, ws, a, r);
    LookupBreaks(body, ss[|ws|], c, b);
    ss, ws := WideOn(body, ss, ws, Plain(Check(1)), Put(ss[|ws|], 1, Exec([Got(Text(c))], Broken)));
  }

  /** Of two executions one is refused the spawn and the other one is not. */
  lemma OneRefused(body: Body, name: string, c: Id) returns (ss: seq<State>, ws: seq<Wide>)
    requires body([]) == Child(name)
    ensures WideRun(body, ss, ws, false) && Fresh(ss[0])
    ensures var s := ss[|ws|];
            s.status == Pending && 1 !in s.log && s.execs == map[0 := Exec([Failed], Ready), 1 := Exec([Got(Text(c))], Ready)]
  {
    ss, ws := TwoAboutToSpawn(body, name);
    var s1 := Heard(ss[|ws|], 0, Failed);
    assert [] + [Failed] == [Failed];
    ss, ws := WideOn(body, ss, ws, Refuse(0), s1);
    var s2 := SpawnBeside(body, s1, name, c);
    ss, ws := WideOn(body, ss, ws, Plain(SpawnChild(1, c)), s2);
  }

  lemma LookupBreaks(body: Body, s: State, c: Id, b: string)
    requires body([]).Child? && body([Got(Text(c))]) == Step(b) && s.status != Cancelled
    requires 1 in s.log && s.log[1].name != b && 1 in s.execs && s.execs[1] == Exec([Got(Text(c))], Ready)
    ensures Enabled(body, s, Check(1), false) && AfterCheck(body, s, s.execs[1]) == Exec([Got(Text(c))], Broken)
  {
    assert Position(body, [Got(Text(c))]) == 1;
  }

  /** The refused execution takes the step it chose instead. */
  lemma OtherStep(body: Body, ss: seq<State>, ws: seq<Wide>, a: string, r: Live)
    returns (ss': seq<State>, ws': seq<Wide>)
    requires WideRun(body, ss, ws, false) && body([Failed]) == Step(a) && Position(body, [Failed]) == 1
    requires var s := ss[|ws|]; s.status != Cancelled && 1 !in s.log && 0 in s.execs && s.execs[0] == Exec([Failed], Ready)
    ensures WideRun(body, ss', ws', false) && ss <= ss'
    ensures var (s, s') := (ss[|ws|], ss'[|ws'|]);
            1 in s'.log && s'.log[1].name == a && 0 in s'.execs && s'.status == s.status && s'.execs == s.execs[0 := s'.execs[0]]
  {
    var s := ss[|ws|];
    var s1 := Put(s, 0, Exec([Failed], Missed(Own)));
    var s2 := Put(s1, 0, Exec([Failed], Ran(Own, OpOf(a, r))));
    ss', ws' := WideOn(body, ss, ws, Plain(Check(0)), s1);
    ss', ws' := WideOn(body, ss', ws', Plain(RunClosure(0, r)), s2);
    ReplayShowsTheSame(a, r);
    ss', ws' := WideOn(body, ss', ws', Plain(Insert(0)), AfterInsert(body, s2, 0));
  }
}
