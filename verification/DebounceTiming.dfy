/** How long the internal debouncer workflow waits: for each receive, and over every run of the
    protocol whose clock readings, deadlines and timeouts are taken from one clock. */
module DebounceTiming {
  import opened Wrappers
  import opened Tables
  import opened StepLog
  import opened Replay
  import opened ReplayInv
  import opened Durable
  import opened Debouncer
  import opened DebounceSteps
  import opened DebounceMail
  import Calls = DebounceCalls

  // ---- one receive ----

  /** The start that was asked for last, and no later than the first start plus the timeout. */
  function Target(d: DebouncerInput, h: seq<Seen>): int
    requires |h| > 0 && IsReading(h[0])
  {
    if d.timeoutMs > 0 then Min(Wanted(d, h), h[0].v.ms + d.timeoutMs) else Wanted(d, h)
  }

  /** A receive waits from the clock reading before it exactly until the target start, which lies
      ahead. */
  lemma WaitsUntilTarget(d: DebouncerInput, h: seq<Seen>)
    requires BodyOf(d)(h).Wait?
    ensures |h| > 1 && IsReading(h[0]) && IsReading(h[|h| - 1])
    ensures BodyOf(d)(h).name == RECV && BodyOf(d)(h).ms > 0 && h[|h| - 1].v.ms + BodyOf(d)(h).ms == Target(d, h)
  {
    PushBackIsBounded(d, h);
    var front := h[..|h| - 1];
    if front != [] { assert front[0] == h[0]; }
  }

  /** The first reading of the clock is the start, and every other one is the loop's. */
  lemma ReadsStartOnce(d: DebouncerInput, h: seq<Seen>)
    ensures BodyOf(d)([]) == Step(START_TIME)
    ensures h != [] && BodyOf(d)(h).Step? ==> BodyOf(d)(h).name == LOOP_TIME
  {
  }

  /** After a clock reading the loop waits for a message exactly if the target start lies ahead;
      otherwise it enqueues. */
  lemma WaitsIffEarly(d: DebouncerInput, h: seq<Seen>, t: int)
    requires BodyOf(d)(h) == Step(LOOP_TIME)
    ensures |h| > 0 && IsReading(h[0])
    ensures var h' := h + [Got(Millis(t))];
            (BodyOf(d)(h').Wait? <==> t < Target(d, h)) && (BodyOf(d)(h').Enqueue? <==> t >= Target(d, h))
  {
    PushBackIsBounded(d, h);
    AfterStep(d, h, Got(Millis(t)));
  }

  // ---- runs on one clock ----

  /** A step that happens at a time: clock readings and the asking for a deadline read that time,
      and a receive gives up only when its deadline has come. */
  predicate OnTime(d: DebouncerInput, s: State, v: Event, now: int) {
    (v.Ask? ==> v.now == now) &&
    (v.RunClosure? && v.e in s.execs ==>
       (BodyOf(d)(s.execs[v.e].hist).Step? && v.r.Value? && v.r.v.Millis? ==> v.r.v.ms == now) &&
       (BodyOf(d)(s.execs[v.e].hist).Wait? && v.r.Fault? && v.r.code == Timeout ==>
          s.execs[v.e].phase.Armed? && s.execs[v.e].phase.wake <= now))
  }

  ghost predicate TimedRun(d: DebouncerInput, ss: seq<State>, vs: seq<Event>, times: seq<int>, solo: bool) {
    Run(BodyOf(d), ss, vs, solo) && |times| == |vs| && (forall j, k :: 0 <= j <= k < |times| ==> times[j] <= times[k]) &&
    forall k {:trigger times[k]} :: 0 <= k < |vs| ==> OnTime(d, ss[k], vs[k], times[k])
  }

  /** A receive ends in an error that is no timeout, or in something that is no message. */
  predicate ReceiveErrs(d: DebouncerInput, s: State, v: Event) {
    v.RunClosure? && v.e in s.execs && BodyOf(d)(s.execs[v.e].hist).Wait? &&
    if v.r.Value? then !v.r.v.Update? else v.r.code != Timeout
  }

  // ---- what is known by a time ----

  /** No reading is later than now, and a receive has given up only if its target start has
      come. */
  predicate Timely(d: DebouncerInput, now: int, h: seq<Seen>, r: Seen) {
    (IsReading(r) ==> r.v.ms <= now) &&
    (After(d, h).place.Receive? && !(r.Got? && r.v.Update?) ==> After(d, h).due <= now)
  }

  predicate AllTimely(d: DebouncerInput, now: int, h: seq<Seen>) {
    forall i :: 0 <= i < |h| ==> TimelyAt(d, now, h, i)
  }

  predicate TimelyAt(d: DebouncerInput, now: int, h: seq<Seen>, i: nat)
    requires i < |h|
  {
    Timely(d, now, h[..i], h[i])
  }

  /** What is about to be recorded is so, too. */
  predicate Pending(d: DebouncerInput, now: int, x: Exec) {
    x.phase.Ran? && x.phase.slot == Own && SeenIn(BodyOf(d)(x.hist), x.phase.op).Some? ==>
      Timely(d, now, x.hist, SeenIn(BodyOf(d)(x.hist), x.phase.op).value)
  }

  ghost predicate TimelyInv(d: DebouncerInput, now: int, s: State) {
    AllTimely(d, now, s.spine) && forall e :: e in s.execs ==> Pending(d, now, s.execs[e])
  }

  lemma LaterIsTimely(d: DebouncerInput, now: int, later: int, s: State)
    requires TimelyInv(d, now, s) && now <= later
    ensures TimelyInv(d, later, s)
  {
    forall i | 0 <= i < |s.spine| ensures TimelyAt(d, later, s.spine, i) {
      assert TimelyAt(d, now, s.spine, i);
    }
    forall e | e in s.execs ensures Pending(d, later, s.execs[e]) {
      assert Pending(d, now, s.execs[e]);
    }
  }

  lemma TimelyNext(d: DebouncerInput, now: int, h: seq<Seen>, r: Seen)
    requires AllTimely(d, now, h) && Timely(d, now, h, r)
    ensures AllTimely(d, now, h + [r])
  {
    forall i | 0 <= i < |h| + 1 ensures TimelyAt(d, now, h + [r], i) {
      assert (h + [r])[..i] == h[..i];
      if i < |h| { assert TimelyAt(d, now, h, i); } else { assert h[..i] == h; }
    }
  }

  /** The spine is as it was, or one timely result longer; one execution has moved. */
  ghost predicate OneMoved(d: DebouncerInput, now: int, s: State, e: nat, s': State) {
    (s'.spine == s.spine || exists r :: s'.spine == s.spine + [r] && Timely(d, now, s.spine, r)) &&
    e in s'.execs && s'.execs == s.execs[e := s'.execs[e]] && Pending(d, now, s'.execs[e])
  }

  lemma OneMovedKeepsTimely(d: DebouncerInput, now: int, s: State, e: nat, s': State)
    requires TimelyInv(d, now, s) && OneMoved(d, now, s, e, s')
    ensures TimelyInv(d, now, s')
  {
    if s'.spine != s.spine {
      var r :| s'.spine == s.spine + [r] && Timely(d, now, s.spine, r);
      TimelyNext(d, now, s.spine, r);
    }
    forall o | o in s'.execs ensures Pending(d, now, s'.execs[o]) {
      if o != e { assert Pending(d, now, s.execs[o]); }
    }
  }

  lemma InsertIsTimely(d: DebouncerInput, now: int, s: State, e: nat)
    requires SpineInv(BodyOf(d), s) && e in s.execs && s.execs[e].phase.Ran? && ExecInv(BodyOf(d), s, s.execs[e])
    requires Pending(d, now, s.execs[e])
    ensures OneMoved(d, now, s, e, AfterInsert(BodyOf(d), s, e))
  {
    InsertExtends(BodyOf(d), s, e);
  }

  lemma NullIsTimely(d: DebouncerInput, now: int, h: seq<Seen>)
    requires !BodyOf(d)(h).Wait?
    ensures Timely(d, now, h, Got(Null))
  {
    WaitIsReceive(d, h);
  }

  lemma EnqueueIsTimely(d: DebouncerInput, now: int, s: State, e: nat)
    requires Enabled(BodyOf(d), s, EnqueueRow(e), false)
    ensures OneMoved(d, now, s, e, Apply(BodyOf(d), s, EnqueueRow(e)))
  {
    EnqueueExtends(BodyOf(d), s, e);
    NullIsTimely(d, now, s.execs[e].hist);
    if !BodyOf(d)(s.spine).Wait? { NullIsTimely(d, now, s.spine); }
  }

  lemma LocalIsTimely(d: DebouncerInput, now: int, s: State, v: Event)
    requires v.Ask? || v.RunClosure? || v.RunPublish? || v.Check? || v.Wake? || v.Clash?
    requires Enabled(BodyOf(d), s, v, false) && v.e in s.execs
    requires v.Ask? ==> ExecInv(BodyOf(d), s, s.execs[v.e])
    requires v.RunClosure? ==> Timely(d, now, s.execs[v.e].hist, SeenOf(v.r))
    ensures OneMoved(d, now, s, v.e, Apply(BodyOf(d), s, v))
  {
    OnlyItsActions(d, s.execs[v.e].hist);
    if v.RunClosure? {
      ReplayShowsTheSame(OpName(BodyOf(d)(s.execs[v.e].hist)), v.r);
    } else if v.Check? {
      CheckRunsNothing(BodyOf(d), s, s.execs[v.e]);
    } else if v.RunPublish? {
      NullIsTimely(d, now, s.execs[v.e].hist);
    }
  }

  lemma FinishKeepsTimely(d: DebouncerInput, now: int, s: State, v: Event)
    requires Enabled(BodyOf(d), s, v, false) && TimelyInv(d, now, s)
    requires v.WriteOutcome? || v.ReadOutcome? || v.WriteError? || v.Launch? || v.Crash? || v.CancelRow? || v.ResumeRow? || v.ParkRow?
    ensures TimelyInv(d, now, Apply(BodyOf(d), s, v))
  {
    var s' := Apply(BodyOf(d), s, v);
    OthersKeepLog(BodyOf(d), s, v);
    forall o | o in s'.execs ensures Pending(d, now, s'.execs[o]) {
      if o in s.execs { assert Pending(d, now, s.execs[o]); }
    }
  }

  lemma StepKeepsTimely(d: DebouncerInput, now: int, s: State, v: Event)
    requires Inv(BodyOf(d), s) && Enabled(BodyOf(d), s, v, false) && TimelyInv(d, now, s)
    requires v.RunClosure? && v.e in s.execs ==> Timely(d, now, s.execs[v.e].hist, SeenOf(v.r))
    ensures TimelyInv(d, now, Apply(BodyOf(d), s, v))
  {
    if v.Insert? {
      assert ExecInv(BodyOf(d), s, s.execs[v.e]) && Pending(d, now, s.execs[v.e]);
      InsertIsTimely(d, now, s, v.e);
      OneMovedKeepsTimely(d, now, s, v.e, Apply(BodyOf(d), s, v));
    } else if v.SpawnChild? || v.Hear? || v.Leave? {
      OnlyItsActions(d, s.execs[v.e].hist);
    } else if v.EnqueueRow? {
      EnqueueIsTimely(d, now, s, v.e);
      OneMovedKeepsTimely(d, now, s, v.e, Apply(BodyOf(d), s, v));
    } else if v.Ask? || v.RunClosure? || v.RunPublish? || v.Check? || v.Wake? || v.Clash? {
      if v.Ask? { assert ExecInv(BodyOf(d), s, s.execs[v.e]); }
      LocalIsTimely(d, now, s, v);
      OneMovedKeepsTimely(d, now, s, v.e, Apply(BodyOf(d), s, v));
    } else {
      FinishKeepsTimely(d, now, s, v);
    }
  }

  // ---- deadlines ----

  /** Two points of the history with a wait whose deadline has the same id are one. */
  lemma SameWait(d: DebouncerInput, log: Log, spine: seq<Seen>, g: seq<Seen>, h: seq<Seen>)
    requires Follows(BodyOf(d), log, spine) && g <= spine && h <= spine
    requires BodyOf(d)(g).Wait? && BodyOf(d)(h).Wait? && Position(BodyOf(d), g) == Position(BodyOf(d), h)
    ensures g == h
  {
    NextPrefix(g, spine);
    NextPrefix(h, spine);
    assert spine[..|g|] == g && spine[..|h|] == h;
    if |g| < |h| {
      PositionsGrow(BodyOf(d), log, spine, |g|, |h|);
    } else if |h| < |g| {
      PositionsGrow(BodyOf(d), log, spine, |h|, |g|);
    }
  }

  /** A deadline that is asked for at a time is the target start or later. */
  lemma AskedIsLate(d: DebouncerInput, s: State, v: Event, now: int, n: int, wake: int)
    requires Inv(BodyOf(d), s) && TimelyInv(d, now, s) && OnTime(d, s, v, now) && AskedIn(BodyOf(d), s, v, n, wake)
    ensures v.e in s.execs && s.execs[v.e].hist <= s.spine && BodyOf(d)(s.execs[v.e].hist).Wait?
    ensures n == Position(BodyOf(d), s.execs[v.e].hist) + 1 && wake >= After(d, s.execs[v.e].hist).due
  {
    var x := s.execs[v.e];
    assert ExecInv(BodyOf(d), s, x);
    OnlyItsActions(d, x.hist);
    WaitsUntilTarget(d, x.hist);
    PushBackIsBounded(d, x.hist);
    var i := |x.hist| - 1;
    assert s.spine[i] == x.hist[i] && TimelyAt(d, now, s.spine, i);
  }

  /** No receive of the run has ended in an error before step k. */
  ghost predicate NoErrors(d: DebouncerInput, ss: seq<State>, vs: seq<Event>, k: nat)
    requires |ss| == |vs| + 1 && k <= |vs|
  {
    forall j :: 0 <= j < k ==> !ReceiveErrs(d, ss[j], vs[j])
  }

  predicate Fresh(s: State) {
    s.log == map[] && s.initial == map[] && s.spine == [] && s.execs == map[] && s.spawned == map[] && s.asked == {} &&
    s.last == None && s.outcome == None && s.status != Success && s.status != Error
  }

  lemma FreshIsInit(d: DebouncerInput, s: State)
    requires Fresh(s)
    ensures Init(BodyOf(d), s)
  {
    assert WakesAt(BodyOf(d), s, 0);
  }

  lemma InvAlong(d: DebouncerInput, ss: seq<State>, vs: seq<Event>, times: seq<int>, solo: bool, k: nat)
    requires TimedRun(d, ss, vs, times, solo) && Fresh(ss[0]) && k <= |vs|
    ensures Inv(BodyOf(d), ss[k])
  {
    FreshIsInit(d, ss[0]);
    InitMeetsInv(BodyOf(d), ss[0]);
    RunKeepsInv(BodyOf(d), ss, vs, solo);
  }

  /** Somebody asked for the deadline that an execution waits for. */
  lemma WhoAsked(d: DebouncerInput, ss: seq<State>, vs: seq<Event>, times: seq<int>, solo: bool, k: nat, e: nat) returns (i: nat)
    requires TimedRun(d, ss, vs, times, solo) && Fresh(ss[0]) && k <= |vs| && e in ss[k].execs && ss[k].execs[e].phase.Armed?
    ensures i < k && AskedIn(BodyOf(d), ss[i], vs[i], Position(BodyOf(d), ss[k].execs[e].hist) + 1, ss[k].execs[e].phase.wake)
    ensures ss[i].spine <= ss[k].spine && Inv(BodyOf(d), ss[i]) && Inv(BodyOf(d), ss[k])
  {
    FreshIsInit(d, ss[0]);
    WakeTimesAgree(BodyOf(d), ss, vs, solo, k, k, e, e);
    i :| 0 <= i < k && AskedIn(BodyOf(d), ss[i], vs[i], Position(BodyOf(d), ss[k].execs[e].hist) + 1, ss[k].execs[e].phase.wake);
    RunGrows(BodyOf(d), ss, vs, solo, i, k);
    InvAlong(d, ss, vs, times, solo, i);
    InvAlong(d, ss, vs, times, solo, k);
  }

  /** An armed deadline is the target start or later. */
  lemma ArmedIsLate(d: DebouncerInput, s: State, v: Event, now: int, t: State, e: nat)
    requires Inv(BodyOf(d), s) && TimelyInv(d, now, s) && OnTime(d, s, v, now) && s.spine <= t.spine && Inv(BodyOf(d), t)
    requires e in t.execs && t.execs[e].phase.Armed?
    requires AskedIn(BodyOf(d), s, v, Position(BodyOf(d), t.execs[e].hist) + 1, t.execs[e].phase.wake)
    ensures t.execs[e].phase.wake >= After(d, t.execs[e].hist).due
  {
    var x := t.execs[e];
    assert ExecInv(BodyOf(d), t, x);
    AskedIsLate(d, s, v, now, Position(BodyOf(d), x.hist) + 1, x.phase.wake);
    SameWait(d, t.log, t.spine, s.execs[v.e].hist, x.hist);
  }

  /** A receive that is about to return has a deadline no earlier than the target start. */
  predicate ReturnsLate(d: DebouncerInput, s: State, v: Event) {
    v.RunClosure? && v.e in s.execs && s.execs[v.e].phase.Armed? ==> s.execs[v.e].phase.wake >= After(d, s.execs[v.e].hist).due
  }

  lemma ClosureIsTimely(d: DebouncerInput, s: State, v: Event, now: int)
    requires Enabled(BodyOf(d), s, v, false) && v.RunClosure? && v.e in s.execs && OnTime(d, s, v, now) && !ReceiveErrs(d, s, v)
    requires ReturnsLate(d, s, v)
    ensures Timely(d, now, s.execs[v.e].hist, SeenOf(v.r))
  {
    WaitIsReceive(d, s.execs[v.e].hist);
  }

  lemma NextIsTimely(d: DebouncerInput, s: State, v: Event, s': State, now: int, solo: bool)
    requires Next(BodyOf(d), s, v, s', solo) && Inv(BodyOf(d), s) && TimelyInv(d, now, s)
    requires OnTime(d, s, v, now) && !ReceiveErrs(d, s, v) && ReturnsLate(d, s, v)
    ensures TimelyInv(d, now, s')
  {
    EnabledAnyway(BodyOf(d), s, v, solo);
    if v.RunClosure? { ClosureIsTimely(d, s, v, now); }
    StepKeepsTimely(d, now, s, v);
  }

  lemma StepAlong(d: DebouncerInput, ss: seq<State>, vs: seq<Event>, times: seq<int>, solo: bool, k: nat)
    requires TimedRun(d, ss, vs, times, solo) && Fresh(ss[0]) && k < |vs| && !ReceiveErrs(d, ss[k], vs[k])
    requires ReturnsLate(d, ss[k], vs[k]) && TimelyInv(d, times[k], ss[k])
    ensures TimelyInv(d, times[k], ss[k + 1])
  {
    InvAlong(d, ss, vs, times, solo, k);
    assert Next(BodyOf(d), ss[k], vs[k], ss[k + 1], solo) && OnTime(d, ss[k], vs[k], times[k]);
    NextIsTimely(d, ss[k], vs[k], ss[k + 1], times[k], solo);
  }

  lemma AskedAlong(d: DebouncerInput, ss: seq<State>, vs: seq<Event>, times: seq<int>, solo: bool, i: nat, k: nat, e: nat)
    requires TimedRun(d, ss, vs, times, solo) && Fresh(ss[0]) && i < k <= |vs| && e in ss[k].execs && ss[k].execs[e].phase.Armed?
    requires AskedIn(BodyOf(d), ss[i], vs[i], Position(BodyOf(d), ss[k].execs[e].hist) + 1, ss[k].execs[e].phase.wake)
    requires ss[i].spine <= ss[k].spine && Inv(BodyOf(d), ss[i]) && Inv(BodyOf(d), ss[k]) && TimelyInv(d, times[i], ss[i])
    ensures ss[k].execs[e].phase.wake >= After(d, ss[k].execs[e].hist).due
  {
    assert OnTime(d, ss[i], vs[i], times[i]);
    ArmedIsLate(d, ss[i], vs[i], times[i], ss[k], e);
  }

  /** Without errors, everything the history holds is timely at every moment. */
  lemma {:induction false} RunIsTimely(d: DebouncerInput, ss: seq<State>, vs: seq<Event>, times: seq<int>, solo: bool, k: nat, now: int)
    requires TimedRun(d, ss, vs, times, solo) && Fresh(ss[0]) && k <= |vs| && NoErrors(d, ss, vs, k)
    requires k > 0 ==> times[k - 1] <= now
    ensures TimelyInv(d, now, ss[k])
    decreases k
  {
    if k > 0 {
      var j := k - 1;
      RunIsTimely(d, ss, vs, times, solo, j, times[j]);
      if vs[j].RunClosure? && vs[j].e in ss[j].execs && ss[j].execs[vs[j].e].phase.Armed? {
        var i := WhoAsked(d, ss, vs, times, solo, j, vs[j].e);
        RunIsTimely(d, ss, vs, times, solo, i, times[i]);
        AskedAlong(d, ss, vs, times, solo, i, j, vs[j].e);
      }
      StepAlong(d, ss, vs, times, solo, j);
      LaterIsTimely(d, times[j], now, ss[k]);
    }
  }

  /** At the end of the loop the target start has come. */
  lemma FireIsLate(d: DebouncerInput, now: int, h: seq<Seen>)
    requires AllTimely(d, now, h) && BodyOf(d)(h).Enqueue?
    ensures |h| > 0 && IsReading(h[0]) && Target(d, h) <= now
  {
    PushBackIsBounded(d, h);
    assert TimelyAt(d, now, h, |h| - 1);
  }

  lemma EnqueueIsLate(d: DebouncerInput, s: State, e: nat, now: int)
    requires Inv(BodyOf(d), s) && TimelyInv(d, now, s) && e in s.execs && BodyOf(d)(s.execs[e].hist).Enqueue?
    ensures var h := s.execs[e].hist; |h| > 0 && IsReading(h[0]) && Target(d, h) <= now
  {
    var h := s.execs[e].hist;
    assert ExecInv(BodyOf(d), s, s.execs[e]);
    forall i | 0 <= i < |h| ensures TimelyAt(d, now, h, i) {
      assert s.spine[..i] == h[..i] && TimelyAt(d, now, s.spine, i);
    }
    FireIsLate(d, now, h);
  }

  /** Whoever runs the workflow, however often it crashes and is launched again: the target is
      enqueued no earlier than the start that was asked for last, capped at the first start plus
      the timeout, unless a receive has ended in an error. */
  lemma NeverEnqueuedEarly(d: DebouncerInput, ss: seq<State>, vs: seq<Event>, times: seq<int>, solo: bool, k: nat)
    requires TimedRun(d, ss, vs, times, solo) && Fresh(ss[0]) && k < |vs| && vs[k].EnqueueRow?
    ensures vs[k].e in ss[k].execs
    ensures var h := ss[k].execs[vs[k].e].hist;
            !NoErrors(d, ss, vs, k) || (|h| > 0 && IsReading(h[0]) && Target(d, h) <= times[k])
  {
    assert Next(BodyOf(d), ss[k], vs[k], ss[k + 1], solo) && OnTime(d, ss[k], vs[k], times[k]);
    if NoErrors(d, ss, vs, k) {
      RunIsTimely(d, ss, vs, times, solo, k, times[k]);
      InvAlong(d, ss, vs, times, solo, k);
      EnqueueIsLate(d, ss[k], vs[k].e, times[k]);
    }
  }

  // ---- the callers ----

  ghost predicate OneTimeout(w: Calls.World, timeoutMs: int) {
    w.timeoutMs == timeoutMs && forall c :: c in w.cycles ==> w.cycles[c].d.timeoutMs == timeoutMs
  }

  lemma StepKeepsTimeout(w: Calls.World, m: Calls.Move, w': Calls.World, timeoutMs: int)
    requires Calls.Step(w, m, w') && OneTimeout(w, timeoutMs)
    ensures OneTimeout(w', timeoutMs)
  {
  }

  /** Over every run of racing callers: however often they push the start of a target back, it
      lies no further from the first start of its cycle than the one timeout of the debouncer,
      should that be positive. */
  lemma PushedBackWithinTimeout(ws: seq<Calls.World>, ms: seq<Calls.Move>, c: Id, h: seq<Seen>)
    requires Calls.Run(ws, ms) && Calls.Empty(ws[0]) && c in ws[|ms|].cycles && ws[0].timeoutMs > 0
    requires |h| > 0 && IsReading(h[0])
    ensures Target(ws[|ms|].cycles[c].d, h) <= h[0].v.ms + ws[0].timeoutMs
  {
    for i := 0 to |ms|
      invariant OneTimeout(ws[i], ws[0].timeoutMs)
    {
      StepKeepsTimeout(ws[i], ms[i], ws[i + 1], ws[0].timeoutMs);
    }
  }
}
