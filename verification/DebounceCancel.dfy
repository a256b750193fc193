/** What swallowing a cancellation loses: exactly when an input that the internal debouncer
    workflow has taken over can miss the target. */
module DebounceCancel {
  import opened Wrappers
  import opened Tables
  import opened StepLog
  import opened Replay
  import opened ReplayInv
  import opened Durable
  import opened Events
  import opened Debouncer
  import opened Reruns
  import opened DebounceSteps
  import opened DebounceMail

  /** The workflow, and the results after which its target was enqueued, once it is. */
  datatype Inner = Inner(s: State, fired: Option<seq<Seen>>)

  /** A message that a caller sends. */
  predicate IsMessage(m: Payload) {
    m.Update? && m.messageId != ""
  }

  function FiredAfter(d: DebouncerInput, x: Inner, a: Act): Option<seq<Seen>> {
    if a.Plain? && a.v.EnqueueRow? && a.v.e in x.s.execs && d.targetId !in x.s.spawned then Some(x.s.execs[a.v.e].hist)
    else x.fired
  }

  ghost predicate InnerNext(d: DebouncerInput, ok: Payload -> bool, x: Inner, a: Act, x': Inner) {
    Does(d, ok, x.s, a, x'.s) && x'.fired == FiredAfter(d, x, a)
  }

  ghost predicate InnerRun(d: DebouncerInput, ok: Payload -> bool, xs: seq<Inner>, acts: seq<Act>) {
    |xs| == |acts| + 1 && forall k :: 0 <= k < |acts| ==> InnerAt(d, ok, xs, acts, k)
  }

  ghost predicate InnerAt(d: DebouncerInput, ok: Payload -> bool, xs: seq<Inner>, acts: seq<Act>, k: nat)
    requires |xs| == |acts| + 1 && k < |acts|
  {
    InnerNext(d, ok, xs[k], acts[k], xs[k + 1])
  }

  /** The target's row has every input taken over so far behind it. */
  predicate Complete(d: DebouncerInput, x: Inner) {
    x.fired.Some? ==> Accepted(d, x.s.spine) == Accepted(d, x.fired.value)
  }

  predicate Fresh(x: Inner) {
    x.fired == None &&
    x.s == State(x.s.status, None, map[], map[], map[], map[], map[], map[], [], None, x.s.asked) &&
    x.s.status != Success && x.s.status != Error
  }

  // ---- runs without harm ----

  ghost predicate InnerInv(d: DebouncerInput, ok: Payload -> bool, x: Inner) {
    Sound(d, x.s) && MailInv(d, ok, x.s) && (x.fired.Some? <==> d.targetId in x.s.spawned) &&
    (x.fired.Some? ==> x.fired.value <= x.s.spine && After(d, x.fired.value).place.Fire?)
  }

  lemma FreshMeetsInv(d: DebouncerInput, ok: Payload -> bool, x: Inner)
    requires Fresh(x)
    ensures InnerInv(d, ok, x)
  {
    assert WakesAt(BodyOf(d), x.s, 0);
    InitMeetsInv(BodyOf(d), x.s);
    SoundWithoutStrays(d, x.s);
  }

  lemma EnqueueAtFire(d: DebouncerInput, h: seq<Seen>)
    requires BodyOf(d)(h).Enqueue?
    ensures After(d, h).place.Fire? && BodyOf(d)(h) == Enqueue(d.targetId, After(d, h).current)
  {
  }

  /** An execution that enqueues the target for the first time is on the spine. */
  lemma FirstEnqueue(d: DebouncerInput, s: State, e: nat, s': State)
    requires StraysOk(d, s) && Enabled(BodyOf(d), s, EnqueueRow(e), true) && d.targetId !in s.spawned
    requires s' == Apply(BodyOf(d), s, EnqueueRow(e))
    ensures s.execs[e].hist <= s.spine && After(d, s.execs[e].hist).place.Fire? && d.targetId in s'.spawned
  {
    EnqueueAtFire(d, s.execs[e].hist);
    assert Stray(s, s.execs[e]) ==> StrayOk(d, s, s.execs[e]);
  }

  lemma OnlyEnqueueSpawns(d: DebouncerInput, ok: Payload -> bool, s: State, a: Act, s': State)
    requires Does(d, ok, s, a, s') && !(a.Plain? && a.v.EnqueueRow?)
    ensures s'.spawned == s.spawned
  {
    if a.Plain? {
      var v := a.v;
      if v.SpawnChild? || v.Leave? { OnlyItsActions(d, s.execs[v.e].hist); }
      if v.Check? || v.Ask? || v.RunClosure? || v.RunPublish? || v.Wake? || v.Clash? || v.Insert? || Hears(v) {
        LocalSpawnsNothing(BodyOf(d), s, v);
      } else {
        RowSpawnsNothing(BodyOf(d), s, v);
      }
    }
  }

  lemma LocalSpawnsNothing(body: Body, s: State, v: Event)
    requires Enabled(body, s, v, true) && !v.EnqueueRow?
    requires v.Check? || v.Ask? || v.RunClosure? || v.RunPublish? || v.Wake? || v.Clash? || v.Insert? || Hears(v)
    ensures Apply(body, s, v).spawned == s.spawned
  {
  }

  lemma RowSpawnsNothing(body: Body, s: State, v: Event)
    requires Enabled(body, s, v, true)
    requires v.WriteOutcome? || v.ReadOutcome? || v.WriteError? || v.Launch? || v.Crash? || v.CancelRow? || v.ResumeRow? || v.ParkRow?
    ensures Apply(body, s, v).spawned == s.spawned
  {
  }

  lemma SafeStepKeepsInner(d: DebouncerInput, ok: Payload -> bool, x: Inner, a: Act, x': Inner)
    requires InnerInv(d, ok, x) && InnerNext(d, ok, x, a, x') && !Harmful(d, x.s, a)
    ensures InnerInv(d, ok, x')
  {
    SafeStepKeepsSound(d, ok, x.s, a, x'.s);
    StepKeepsMail(d, ok, x.s, a, x'.s);
    if a.Plain? && a.v.EnqueueRow? {
      if d.targetId !in x.s.spawned { FirstEnqueue(d, x.s, a.v.e, x'.s); }
      StepKeepsSpawned(BodyOf(d), x.s, a.v);
    } else {
      OnlyEnqueueSpawns(d, ok, x.s, a, x'.s);
    }
  }

  lemma InnerIsComplete(d: DebouncerInput, ok: Payload -> bool, x: Inner)
    requires InnerInv(d, ok, x)
    ensures Complete(d, x)
  {
    if x.fired.Some? {
      NextPrefix(x.fired.value, x.s.spine);
      NothingAfterFire(d, x.s.spine, |x.fired.value|);
    }
  }

  /** No step swallows the cancellation harmfully. */
  ghost predicate Careful(d: DebouncerInput, xs: seq<Inner>, acts: seq<Act>, from: nat)
    requires |xs| == |acts| + 1
  {
    forall k {:trigger acts[k]} :: from <= k < |acts| ==> !Harmful(d, xs[k].s, acts[k])
  }

  /** What every step of a run keeps holds along the run. */
  lemma {:induction false} AlongRun(xs: seq<Inner>, p: Inner -> bool, k: nat)
    requires k < |xs| && p(xs[0]) && forall j :: 0 <= j < |xs| - 1 && p(xs[j]) ==> p(xs[j + 1])
    ensures p(xs[k])
  {
    if k > 0 {
      AlongRun(xs, p, k - 1);
      assert p(xs[k - 1]) && k - 1 + 1 == k;
    }
  }

  lemma CarefulStep(d: DebouncerInput, ok: Payload -> bool, xs: seq<Inner>, acts: seq<Act>, k: nat)
    requires InnerRun(d, ok, xs, acts) && Careful(d, xs, acts, 0) && k < |acts| && InnerInv(d, ok, xs[k])
    ensures InnerInv(d, ok, xs[k + 1])
  {
    assert InnerAt(d, ok, xs, acts, k);
    SafeStepKeepsInner(d, ok, xs[k], acts[k], xs[k + 1]);
  }

  lemma CarefulRunKeepsInner(d: DebouncerInput, ok: Payload -> bool, xs: seq<Inner>, acts: seq<Act>, k: nat)
    requires InnerRun(d, ok, xs, acts) && InnerInv(d, ok, xs[0]) && Careful(d, xs, acts, 0) && k <= |acts|
    ensures InnerInv(d, ok, xs[k])
  {
    ghost var p := (x: Inner) => InnerInv(d, ok, x);
    forall j | 0 <= j < |xs| - 1 && p(xs[j]) ensures p(xs[j + 1]) {
      CarefulStep(d, ok, xs, acts, j);
    }
    AlongRun(xs, p, k);
  }

  /** However the workflow is crashed, cancelled and resumed: as long as no receive swallows
      the cancellation harmfully, its target gets every input it takes over. */
  lemma CarefulRunsAreComplete(d: DebouncerInput, xs: seq<Inner>, acts: seq<Act>, k: nat)
    requires InnerRun(d, IsMessage, xs, acts) && Fresh(xs[0]) && Careful(d, xs, acts, 0) && k <= |acts|
    ensures Complete(d, xs[k])
  {
    FreshMeetsInv(d, IsMessage, xs[0]);
    CarefulRunKeepsInner(d, IsMessage, xs, acts, k);
    InnerIsComplete(d, IsMessage, xs[k]);
  }

  // ---- swallowing that loses an input ----

  lemma InnerOn(d: DebouncerInput, ok: Payload -> bool, xs: seq<Inner>, acts: seq<Act>, a: Act, x: Inner)
    returns (xs': seq<Inner>, acts': seq<Act>)
    requires InnerRun(d, ok, xs, acts) && InnerNext(d, ok, xs[|acts|], a, x)
    ensures xs' == xs + [x] && acts' == acts + [a] && InnerRun(d, ok, xs', acts')
  {
    xs', acts' := xs + [x], acts + [a];
    forall k | 0 <= k < |acts'| ensures InnerAt(d, ok, xs', acts', k) {
      if k < |acts| { assert InnerAt(d, ok, xs, acts, k); }
    }
  }

  /** Steps of the protocol that are steps of the workflow, too. */
  predicate Proper(body: Body, ok: Payload -> bool, s: State, v: Event) {
    (v.RunClosure? && v.e in s.execs && body(s.execs[v.e].hist).Wait? && v.r.Value? ==> ok(v.r.v)) &&
    (v.Check? && v.e in s.execs && body(s.execs[v.e].hist).Wait? ==> s.status != Cancelled)
  }

  /** The run goes on by plain steps. */
  predicate GoesOn(xs: seq<Inner>, acts: seq<Act>, xs': seq<Inner>, acts': seq<Act>) {
    xs <= xs' && acts <= acts' && |xs'| == |acts'| + 1 && forall k :: |acts| <= k < |acts'| ==> acts'[k].Plain?
  }

  lemma PlainOn(d: DebouncerInput, ok: Payload -> bool, xs: seq<Inner>, acts: seq<Act>, v: Event, s: State)
    returns (xs': seq<Inner>, acts': seq<Act>)
    requires InnerRun(d, ok, xs, acts) && Replay.Next(BodyOf(d), xs[|acts|].s, v, s, true) && Proper(BodyOf(d), ok, xs[|acts|].s, v)
    ensures InnerRun(d, ok, xs', acts') && GoesOn(xs, acts, xs', acts') && xs'[|acts'|].s == s
    ensures !v.EnqueueRow? || d.targetId in xs[|acts|].s.spawned ==> xs'[|acts'|].fired == xs[|acts|].fired
  {
    var x := xs[|acts|];
    xs', acts' := InnerOn(d, ok, xs, acts, Plain(v), Inner(s, FiredAfter(d, x, Plain(v))));
  }

  /** A run of the protocol that is one of the workflow. */
  ghost predicate ProperRun(body: Body, ok: Payload -> bool, ss: seq<State>, vs: seq<Event>) {
    Run(body, ss, vs, true) && forall k {:trigger vs[k]} :: 0 <= k < |vs| ==> Proper(body, ok, ss[k], vs[k])
  }

  /** What the protocol does once the target is enqueued, the workflow does. */
  lemma {:induction false} Lift(d: DebouncerInput, ok: Payload -> bool, xs: seq<Inner>, acts: seq<Act>, ss: seq<State>, vs: seq<Event>)
    returns (xs': seq<Inner>, acts': seq<Act>)
    requires InnerRun(d, ok, xs, acts) && ProperRun(BodyOf(d), ok, ss, vs) && ss[0] == xs[|acts|].s && d.targetId in ss[0].spawned
    ensures InnerRun(d, ok, xs', acts') && GoesOn(xs, acts, xs', acts') && xs'[|acts'|].s == ss[|vs|]
    ensures xs'[|acts'|].fired == xs[|acts|].fired && d.targetId in ss[|vs|].spawned
    decreases |vs|
  {
    if |vs| == 0 {
      xs', acts' := xs, acts;
    } else {
      var n := |vs| - 1;
      ShorterRun(BodyOf(d), ok, ss, vs);
      xs', acts' := Lift(d, ok, xs, acts, ss[..n + 1], vs[..n]);
      xs', acts' := LiftLast(d, ok, xs', acts', ss, vs);
    }
  }

  lemma ShorterRun(body: Body, ok: Payload -> bool, ss: seq<State>, vs: seq<Event>)
    requires ProperRun(body, ok, ss, vs) && |vs| > 0
    ensures ProperRun(body, ok, ss[..|vs|], vs[..|vs| - 1])
  {
    var n := |vs| - 1;
    forall k {:trigger vs[..n][k]} | 0 <= k < n
      ensures Replay.Next(body, ss[..n + 1][k], vs[..n][k], ss[..n + 1][k + 1], true) && Proper(body, ok, ss[..n + 1][k], vs[..n][k])
    {
      assert vs[..n][k] == vs[k];
    }
  }

  lemma LiftLast(d: DebouncerInput, ok: Payload -> bool, xs: seq<Inner>, acts: seq<Act>, ss: seq<State>, vs: seq<Event>)
    returns (xs': seq<Inner>, acts': seq<Act>)
    requires InnerRun(d, ok, xs, acts) && ProperRun(BodyOf(d), ok, ss, vs) && |vs| > 0
    requires xs[|acts|].s == ss[|vs| - 1] && d.targetId in ss[|vs| - 1].spawned
    ensures InnerRun(d, ok, xs', acts') && GoesOn(xs, acts, xs', acts') && xs'[|acts'|].s == ss[|vs|]
    ensures xs'[|acts'|].fired == xs[|acts|].fired && d.targetId in ss[|vs|].spawned
  {
    var s, v := ss[|vs| - 1], vs[|vs| - 1];
    if v.SpawnChild? { OnlyItsActions(d, s.execs[v.e].hist); }
    StepKeepsSpawned(BodyOf(d), s, v);
    xs', acts' := PlainOn(d, ok, xs, acts, v, ss[|vs|]);
  }

  /** A receive swallows the cancellation, and plain steps follow. */
  predicate Swallowing(acts: seq<Act>, e: nat) {
    |acts| > 0 && acts[0] == Catch(e) && forall k :: 1 <= k < |acts| ==> acts[k].Plain?
  }

  /** The swallowing execution enqueues the target with the inputs of its own history. */
  lemma CaughtAndFired(d: DebouncerInput, ok: Payload -> bool, x: Inner, e: nat)
    returns (xs: seq<Inner>, acts: seq<Act>)
    requires SpineInv(BodyOf(d), x.s) && AtLookup(d, x.s, e) && x.s.execs[e].hist <= x.s.spine
    requires x.s.status == Cancelled && Harmful(d, x.s, Catch(e))
    ensures InnerRun(d, ok, xs, acts) && xs[0] == x && Swallowing(acts, e) && xs[|acts|] == Fired(d, x, e)
  {
    NotOnSpine(d, x.s, e);
    xs, acts := FireRun(d, ok, x, e);
  }

  /** The workflow after the swallowing execution has enqueued the target. */
  function Fired(d: DebouncerInput, x: Inner, e: nat): Inner
    requires e in x.s.execs
  {
    var h := x.s.execs[e].hist;
    Inner(x.s.(spawned := x.s.spawned[d.targetId := After(d, h).current],
               execs := x.s.execs[e := Exec(h + [Failed] + [Got(Null)], Ready)]),
          Some(h + [Failed]))
  }

  lemma FireRun(d: DebouncerInput, ok: Payload -> bool, x: Inner, e: nat) returns (xs: seq<Inner>, acts: seq<Act>)
    requires AtLookup(d, x.s, e) && x.s.status == Cancelled && d.targetId !in x.s.spawned
    requires x.s.execs[e].hist + [Failed] != x.s.spine
    ensures InnerRun(d, ok, xs, acts) && xs[0] == x && Swallowing(acts, e) && xs[|acts|] == Fired(d, x, e)
  {
    var h := x.s.execs[e].hist;
    FailedReceiveFires(d, h);
    var x1 := Inner(Put(x.s, e, Exec(h + [Failed], Ready)), x.fired);
    assert InnerNext(d, ok, x, Catch(e), x1);
    EnqueueFires(d, ok, x1, e, x, h);
    xs, acts := [x, x1, Fired(d, x, e)], [Catch(e), Plain(EnqueueRow(e))];
  }

  lemma EnqueueFires(d: DebouncerInput, ok: Payload -> bool, x1: Inner, e: nat, x: Inner, h: seq<Seen>)
    requires e in x.s.execs && x.s.execs[e].hist == h && x1 == Inner(Put(x.s, e, Exec(h + [Failed], Ready)), x.fired)
    requires BodyOf(d)(h + [Failed]) == Enqueue(d.targetId, After(d, h).current) && d.targetId !in x.s.spawned
    requires h + [Failed] != x.s.spine
    ensures InnerNext(d, ok, x1, Plain(EnqueueRow(e)), Fired(d, x, e))
  {
    EnqueuesOff(BodyOf(d), x1.s, e, d.targetId, After(d, h).current);
  }

  lemma EnqueuesOff(body: Body, s: State, e: nat, t: Id, input: string)
    requires e in s.execs && s.execs[e].phase.Ready? && body(s.execs[e].hist) == Enqueue(t, input)
    requires s.execs[e].hist != s.spine && t !in s.spawned
    ensures Enabled(body, s, EnqueueRow(e), true)
    ensures Apply(body, s, EnqueueRow(e)) ==
            s.(spawned := s.spawned[t := input], execs := s.execs[e := Exec(s.execs[e].hist + [Got(Null)], Ready)])
  {
  }

  lemma FailedReceiveFires(d: DebouncerInput, h: seq<Seen>)
    requires BodyOf(d)(h).Wait?
    ensures BodyOf(d)(h + [Failed]) == Enqueue(d.targetId, After(d, h).current)
    ensures BodyOf(d)(h + [Failed] + [Got(Null)]) == Return(Got(Null))
    ensures Accepted(d, h + [Failed]) == Accepted(d, h)
  {
    WaitIsReceive(d, h);
    AfterStep(d, h, Failed);
    FireIsThen(d, h + [Failed]);
    AcceptedNext(d, h, Failed);
  }

  lemma FireIsThen(d: DebouncerInput, g: seq<Seen>)
    requires After(d, g).place.Fire?
    ensures BodyOf(d)(g) == Enqueue(d.targetId, After(d, g).current)
    ensures BodyOf(d)(g + [Got(Null)]) == Return(Got(Null))
  {
    AfterStep(d, g, Got(Null));
  }

  /** Going on after a receive that has not timed out leaves the spine. */
  lemma NotOnSpine(d: DebouncerInput, s: State, e: nat)
    requires SpineInv(BodyOf(d), s) && AtLookup(d, s, e) && s.execs[e].hist <= s.spine && Harmful(d, s, Catch(e))
    ensures s.execs[e].hist + [Failed] != s.spine
  {
    var h := s.execs[e].hist;
    NextPrefix(h, s.spine);
    if |h| < |s.spine| { LoggedAt(BodyOf(d), s.log, s.spine, h); }
  }

  // ---- a message afterwards ----

  /** Ready at the end of the log, with nothing in the way of a lookup. */
  predicate Poised(s: State, e: nat) {
    e in s.execs && s.execs[e] == Exec(s.spine, Ready) && s.status != Cancelled
  }

  /** One more step of a proper run. */
  lemma StepOn(body: Body, ok: Payload -> bool, ss: seq<State>, vs: seq<Event>, v: Event, s: State)
    returns (ss': seq<State>, vs': seq<Event>)
    requires ProperRun(body, ok, ss, vs) && Replay.Next(body, ss[|vs|], v, s, true) && Proper(body, ok, ss[|vs|], v)
    ensures ss' == ss + [s] && vs' == vs + [v] && ProperRun(body, ok, ss', vs')
  {
    ss', vs' := ss + [s], vs + [v];
    forall k {:trigger vs'[k]} | 0 <= k < |vs'|
      ensures Replay.Next(body, ss'[k], vs'[k], ss'[k + 1], true) && Proper(body, ok, ss'[k], vs'[k])
    {
      if k < |vs| { assert ss'[k] == ss[k] && ss'[k + 1] == ss[k + 1] && vs'[k] == vs[k]; }
    }
  }

  // The steps of a receive that is not recorded, and of a publication.

  lemma LooksOn(body: Body, ok: Payload -> bool, ss: seq<State>, vs: seq<Event>, e: nat, h: seq<Seen>)
    returns (ss': seq<State>, vs': seq<Event>)
    requires ProperRun(body, ok, ss, vs) && e in ss[|vs|].execs && ss[|vs|].execs[e] == Exec(h, Ready) && body(h).Wait?
    requires ss[|vs|].status != Cancelled && Position(body, h) !in ss[|vs|].log
    ensures ProperRun(body, ok, ss', vs') && ss'[0] == ss[0] && ss'[|vs'|] == Put(ss[|vs|], e, Exec(h, Looking))
  {
    ss', vs' := StepOn(body, ok, ss, vs, Check(e), Put(ss[|vs|], e, Exec(h, Looking)));
  }

  lemma MissesOn(body: Body, ok: Payload -> bool, ss: seq<State>, vs: seq<Event>, e: nat, h: seq<Seen>)
    returns (ss': seq<State>, vs': seq<Event>)
    requires ProperRun(body, ok, ss, vs) && e in ss[|vs|].execs && ss[|vs|].execs[e] == Exec(h, Looking) && body(h).Wait?
    requires ss[|vs|].status != Cancelled && Position(body, h) + 1 !in ss[|vs|].log
    ensures ProperRun(body, ok, ss', vs') && ss'[0] == ss[0] && ss'[|vs'|] == Put(ss[|vs|], e, Exec(h, Missed(Deadline)))
  {
    ss', vs' := StepOn(body, ok, ss, vs, Check(e), Put(ss[|vs|], e, Exec(h, Missed(Deadline))));
  }

  lemma FindsOn(body: Body, ok: Payload -> bool, ss: seq<State>, vs: seq<Event>, e: nat, h: seq<Seen>, wake: int)
    returns (ss': seq<State>, vs': seq<Event>)
    requires ProperRun(body, ok, ss, vs) && e in ss[|vs|].execs && ss[|vs|].execs[e] == Exec(h, Looking) && body(h).Wait?
    requires var (s, n) := (ss[|vs|], Position(body, h) + 1);
             s.status != Cancelled && n in s.log && s.log[n].name == SLEEP && s.log[n].output == Millis(wake)
    ensures ProperRun(body, ok, ss', vs') && ss'[0] == ss[0] && ss'[|vs'|] == Put(ss[|vs|], e, Exec(h, Armed(wake)))
  {
    ss', vs' := StepOn(body, ok, ss, vs, Check(e), Put(ss[|vs|], e, Exec(h, Armed(wake))));
  }

  lemma AsksOn(body: Body, ok: Payload -> bool, ss: seq<State>, vs: seq<Event>, e: nat, h: seq<Seen>, now: int)
    returns (ss': seq<State>, vs': seq<Event>)
    requires ProperRun(body, ok, ss, vs) && e in ss[|vs|].execs && ss[|vs|].execs[e] == Exec(h, Missed(Deadline)) && body(h).Wait?
    ensures ProperRun(body, ok, ss', vs') && ss'[0] == ss[0]
    ensures var (s, wake) := (ss[|vs|], now + body(h).ms);
            ss'[|vs'|] == s.(asked := s.asked + {(Position(body, h) + 1, wake)},
                             execs := s.execs[e := Exec(h, Ran(Deadline, WakeRow(wake)))])
  {
    ss', vs' := StepOn(body, ok, ss, vs, Ask(e, now), Apply(body, ss[|vs|], Ask(e, now)));
  }

  lemma ArmsOn(body: Body, ok: Payload -> bool, ss: seq<State>, vs: seq<Event>, e: nat, h: seq<Seen>, wake: int)
    returns (ss': seq<State>, vs': seq<Event>)
    requires ProperRun(body, ok, ss, vs) && e in ss[|vs|].execs && body(h).Wait?
    requires ss[|vs|].execs[e] == Exec(h, Ran(Deadline, WakeRow(wake))) && Position(body, h) + 1 !in ss[|vs|].log
    ensures ProperRun(body, ok, ss', vs') && ss'[0] == ss[0]
    ensures var (s, n) := (ss[|vs|], Position(body, h) + 1);
            ss'[|vs'|] == s.(log := s.log[n := WakeRow(wake)], last := Some(e), execs := s.execs[e := Exec(h, Armed(wake))])
  {
    ss', vs' := StepOn(body, ok, ss, vs, Insert(e), AfterInsert(body, ss[|vs|], e));
  }

  lemma ReturnsOn(body: Body, ok: Payload -> bool, ss: seq<State>, vs: seq<Event>, e: nat, h: seq<Seen>, m: Payload)
    returns (ss': seq<State>, vs': seq<Event>)
    requires ProperRun(body, ok, ss, vs) && e in ss[|vs|].execs && body(h).Wait? && ok(m)
    requires ss[|vs|].execs[e].hist == h && ss[|vs|].execs[e].phase.Armed?
    ensures ProperRun(body, ok, ss', vs') && ss'[0] == ss[0]
    ensures ss'[|vs'|] == Put(ss[|vs|], e, Exec(h, Ran(Own, OpOf(body(h).name, Value(m)))))
  {
    ss', vs' := StepOn(body, ok, ss, vs, RunClosure(e, Value(m)), Put(ss[|vs|], e, Exec(h, Ran(Own, OpOf(body(h).name, Value(m))))));
  }

  lemma RecordsOn(body: Body, ok: Payload -> bool, ss: seq<State>, vs: seq<Event>, e: nat, h: seq<Seen>, m: Payload)
    returns (ss': seq<State>, vs': seq<Event>)
    requires ProperRun(body, ok, ss, vs) && e in ss[|vs|].execs && body(h).Wait? && Position(body, h) !in ss[|vs|].log
    requires ss[|vs|].execs[e] == Exec(h, Ran(Own, OpOf(body(h).name, Value(m))))
    ensures ProperRun(body, ok, ss', vs') && ss'[0] == ss[0]
    ensures var (s, n) := (ss[|vs|], Position(body, h));
            ss'[|vs'|] == s.(log := s.log[n := OpOf(body(h).name, Value(m))], last := Some(e), spine := h + [Got(m)],
                             execs := s.execs[e := Exec(h + [Got(m)], Ready)])
  {
    ss', vs' := StepOn(body, ok, ss, vs, Insert(e), AfterInsert(body, ss[|vs|], e));
  }

  lemma PublishMissesOn(body: Body, ok: Payload -> bool, ss: seq<State>, vs: seq<Event>, e: nat, h: seq<Seen>)
    returns (ss': seq<State>, vs': seq<Event>)
    requires ProperRun(body, ok, ss, vs) && e in ss[|vs|].execs && ss[|vs|].execs[e] == Exec(h, Ready) && body(h).Publish?
    requires ss[|vs|].status != Cancelled && Position(body, h) !in ss[|vs|].log
    ensures ProperRun(body, ok, ss', vs') && ss'[0] == ss[0] && ss'[|vs'|] == Put(ss[|vs|], e, Exec(h, Missed(Own)))
  {
    ss', vs' := StepOn(body, ok, ss, vs, Check(e), Put(ss[|vs|], e, Exec(h, Missed(Own))));
  }

  lemma PublishesOn(body: Body, ok: Payload -> bool, ss: seq<State>, vs: seq<Event>, e: nat, h: seq<Seen>)
    returns (ss': seq<State>, vs': seq<Event>)
    requires ProperRun(body, ok, ss, vs) && e in ss[|vs|].execs && ss[|vs|].execs[e] == Exec(h, Missed(Own)) && body(h).Publish?
    ensures ProperRun(body, ok, ss', vs') && ss'[0] == ss[0]
    ensures var (s, s') := (ss[|vs|], ss'[|vs'|]);
            s'.spine == s.spine && s'.spawned == s.spawned && s'.log == s.log && body(h).key in s'.events
  {
    ss', vs' := StepOn(body, ok, ss, vs, RunPublish(e), Apply(body, ss[|vs|], RunPublish(e)));
  }

  predicate IsArmed(s: State, s': State, e: nat, n: int, wake: int) {
    s'.spine == s.spine && s'.status == s.status && s'.spawned == s.spawned && s'.events == s.events &&
    s'.execs == s.execs[e := Exec(s.spine, Armed(wake))] && n !in s'.log && forall k :: k in s'.log ==> k <= n + 1
  }

  /** A receive settles its deadline. */
  lemma SettlesDeadline(body: Body, ok: Payload -> bool, ss: seq<State>, vs: seq<Event>, e: nat, now: int)
    returns (ss': seq<State>, vs': seq<Event>, wake: int)
    requires ProperRun(body, ok, ss, vs) && SpineInv(body, ss[|vs|]) && Poised(ss[|vs|], e) && body(ss[|vs|].spine).Wait?
    ensures ProperRun(body, ok, ss', vs') && ss'[0] == ss[0]
    ensures IsArmed(ss[|vs|], ss'[|vs'|], e, Position(body, ss[|vs|].spine), wake)
  {
    var s := ss[|vs|];
    var h, n := s.spine, Position(body, s.spine) + 1;
    ss', vs' := LooksOn(body, ok, ss, vs, e, h);
    if n in s.log {
      DeadlineIsWake(body, s, h);
      wake := s.log[n].output.ms;
      ss', vs' := FindsOn(body, ok, ss', vs', e, h, wake);
    } else {
      wake := now + body(h).ms;
      ss', vs' := MissesOn(body, ok, ss', vs', e, h);
      ss', vs' := AsksOn(body, ok, ss', vs', e, h, now);
      ss', vs' := ArmsOn(body, ok, ss', vs', e, h, wake);
    }
  }

  /** From the end of the log a wait takes a message over and publishes what comes next. */
  lemma TakesOver(body: Body, ok: Payload -> bool, ss: seq<State>, vs: seq<Event>, e: nat, m: Payload, now: int)
    returns (ss': seq<State>, vs': seq<Event>)
    requires ProperRun(body, ok, ss, vs) && SpineInv(body, ss[|vs|]) && Poised(ss[|vs|], e) && ok(m)
    requires var h := ss[|vs|].spine;
             body(h).Wait? && body(h + [Got(m)]).Publish? && Position(body, h + [Got(m)]) == Position(body, h) + 2
    ensures ProperRun(body, ok, ss', vs') && ss'[0] == ss[0]
    ensures var (s, s') := (ss[|vs|], ss'[|vs'|]);
            s'.spine == s.spine + [Got(m)] && s'.spawned == s.spawned && body(s.spine + [Got(m)]).key in s'.events
  {
    var h := ss[|vs|].spine;
    var wake: int;
    ss', vs', wake := SettlesDeadline(body, ok, ss, vs, e, now);
    ss', vs' := ReturnsOn(body, ok, ss', vs', e, h, m);
    ss', vs' := RecordsOn(body, ok, ss', vs', e, h, m);
    ss', vs' := PublishMissesOn(body, ok, ss', vs', e, h + [Got(m)]);
    ss', vs' := PublishesOn(body, ok, ss', vs', e, h + [Got(m)]);
  }

  /** However the workflow stands, crashing and relaunching it brings an execution to the end
      of its log. */
  lemma Relaunches(body: Body, ok: Payload -> bool, s: State) returns (ss: seq<State>, vs: seq<Event>, e: nat)
    requires SpineInv(body, s) && s.status != Success && s.status != Error
    ensures ProperRun(body, ok, ss, vs) && ss[0] == s && Kept(s, ss[|vs|]) && Poised(ss[|vs|], e)
  {
    ss, vs, e := Relaunch(body, [s], []);
    SameLogKeepsSpine(body, s, ss[|vs|]);
    var n := |vs|;
    var ss0, vs0 := ss, vs;
    ss, vs := ReplayAll(body, ss, vs, e);
    ReplayIsProper(body, ok, ss0, vs0, 0);
    ReplayIsProper(body, ok, ss, vs, n);
    forall k {:trigger vs[k]} | 0 <= k < |vs| ensures Proper(body, ok, ss[k], vs[k]) {
      if k < n { assert vs[k] == vs0[k] && ss[k] == ss0[k]; }
    }
  }

  lemma ReplayIsProper(body: Body, ok: Payload -> bool, ss: seq<State>, vs: seq<Event>, from: nat)
    requires |ss| == |vs| + 1 && OnlyReplays(ss, vs, from)
    ensures forall k {:trigger vs[k]} :: from <= k < |vs| ==> Proper(body, ok, ss[k], vs[k])
  {
    forall k {:trigger vs[k]} | from <= k < |vs| ensures Proper(body, ok, ss[k], vs[k]) {
      assert Replaying(ss[k], vs[k]);
    }
  }

  // ---- exactly the harmful swallowing loses an input ----

  /** Where the log holds a message for the receive, the history has it. */
  lemma NextIsMessage(d: DebouncerInput, s: State, h: seq<Seen>)
    requires SpineInv(BodyOf(d), s) && MailHist(d, IsMessage, s.spine) && h < s.spine && BodyOf(d)(h).Wait?
    requires !TimedOut(s.log, Position(BodyOf(d), h))
    ensures Accepted(d, h) < Accepted(d, s.spine)
  {
    var r := s.spine[|h|];
    LoggedAt(BodyOf(d), s.log, s.spine, h);
    WaitIsReceive(d, h);
    assert s.spine[..|h|] == h;
    assert MailAt(d, IsMessage, s.spine, |h|);
    assert r.Got? && r.v.Update?;
    AcceptedNext(d, h, r);
    assert s.spine[..|h| + 1] == h + [r];
    AcceptedGrows(d, s.spine, |h| + 1);
  }

  /** A message received at the end of the log is acknowledged next. */
  lemma AckIsNext(d: DebouncerInput, h: seq<Seen>, m: Payload)
    requires BodyOf(d)(h).Wait? && IsMessage(m)
    ensures BodyOf(d)(h + [Got(m)]) == Publish(m.messageId, Text("true"))
    ensures Position(BodyOf(d), h + [Got(m)]) == Position(BodyOf(d), h) + 2
    ensures Accepted(d, h + [Got(m)]) == Accepted(d, h) + [m]
  {
    WaitIsReceive(d, h);
    AfterStep(d, h, Got(m));
    AcceptedNext(d, h, Got(m));
    assert (h + [Got(m)])[..|h|] == h;
  }

  /** The execution that has enqueued the target returns, but the row stays cancelled. */
  lemma ReturnRefused(d: DebouncerInput, x: Inner, e: nat) returns (s: State)
    requires AtLookup(d, x.s, e) && x.s.status == Cancelled
    ensures Replay.Next(BodyOf(d), Fired(d, x, e).s, WriteOutcome(e), s, true)
    ensures Kept(Fired(d, x, e).s, s) && s.status == Cancelled
  {
    FailedReceiveFires(d, x.s.execs[e].hist);
    s := Apply(BodyOf(d), Fired(d, x, e).s, WriteOutcome(e));
  }

  lemma ReturnsOnward(d: DebouncerInput, ok: Payload -> bool, xs: seq<Inner>, acts: seq<Act>, x: Inner, e: nat)
    returns (xs': seq<Inner>, acts': seq<Act>)
    requires InnerRun(d, ok, xs, acts) && AtLookup(d, x.s, e) && x.s.status == Cancelled && xs[|acts|] == Fired(d, x, e)
    ensures InnerRun(d, ok, xs', acts') && GoesOn(xs, acts, xs', acts')
    ensures xs'[|acts'|].fired == Fired(d, x, e).fired
    ensures Kept(Fired(d, x, e).s, xs'[|acts'|].s) && xs'[|acts'|].s.status == Cancelled
  {
    var s := ReturnRefused(d, x, e);
    xs', acts' := PlainOn(d, ok, xs, acts, WriteOutcome(e), s);
  }

  lemma CaughtAndReturned(d: DebouncerInput, ok: Payload -> bool, x: Inner, e: nat)
    returns (xs: seq<Inner>, acts: seq<Act>)
    requires SpineInv(BodyOf(d), x.s) && AtLookup(d, x.s, e) && x.s.execs[e].hist <= x.s.spine
    requires x.s.status == Cancelled && Harmful(d, x.s, Catch(e))
    ensures InnerRun(d, ok, xs, acts) && xs[0] == x && Swallowing(acts, e)
    ensures xs[|acts|].fired == Fired(d, x, e).fired && Kept(Fired(d, x, e).s, xs[|acts|].s) && xs[|acts|].s.status == Cancelled
  {
    var xs2, acts2 := CaughtAndFired(d, ok, x, e);
    xs, acts := ReturnsOnward(d, ok, xs2, acts2, x, e);
    StillSwallowing(xs2, acts2, xs, acts, e);
  }

  lemma StillSwallowing(xs: seq<Inner>, acts: seq<Act>, xs': seq<Inner>, acts': seq<Act>, e: nat)
    requires Swallowing(acts, e) && |xs| == |acts| + 1 && GoesOn(xs, acts, xs', acts')
    ensures Swallowing(acts', e) && xs'[0] == xs[0]
  {
    forall k | 1 <= k < |acts'| ensures acts'[k].Plain? {
      if k < |acts| { assert acts'[k] == acts[k]; }
    }
  }

  /** Relaunched, a wait at the end of the log takes a message over and publishes what comes
      next. */
  lemma RelaunchTakesOver(body: Body, ok: Payload -> bool, s: State, m: Payload, now: int)
    returns (ss: seq<State>, vs: seq<Event>)
    requires SpineInv(body, s) && s.status != Success && s.status != Error && ok(m)
    requires body(s.spine).Wait? && body(s.spine + [Got(m)]).Publish?
    requires Position(body, s.spine + [Got(m)]) == Position(body, s.spine) + 2
    ensures ProperRun(body, ok, ss, vs) && ss[0] == s
    ensures ss[|vs|].spine == s.spine + [Got(m)] && SpawnedKept(s, ss[|vs|]) && body(s.spine + [Got(m)]).key in ss[|vs|].events
  {
    var f;
    ss, vs, f := Relaunches(body, ok, s);
    SameLogKeepsSpine(body, s, ss[|vs|]);
    ss, vs := TakesOver(body, ok, ss, vs, f, m, now);
  }

  /** Resumed, the workflow takes over any message sent to it and acknowledges it, although
      its target has been enqueued without it. */
  lemma LaterMessageIsLost(d: DebouncerInput, ok: Payload -> bool, x: Inner, e: nat, m: Payload, now: int)
    returns (xs: seq<Inner>, acts: seq<Act>)
    requires SpineInv(BodyOf(d), x.s) && AtLookup(d, x.s, e) && x.s.execs[e].hist == x.s.spine
    requires x.s.status == Cancelled && Harmful(d, x.s, Catch(e)) && ok(m) && IsMessage(m)
    ensures InnerRun(d, ok, xs, acts) && xs[0] == x && Swallowing(acts, e)
    ensures var (x', h) := (xs[|acts|], x.s.spine);
            x'.s.spine == h + [Got(m)] && x'.fired == Some(h + [Failed]) && m.messageId in x'.s.events &&
            d.targetId in x'.s.spawned && x'.s.spawned[d.targetId] == After(d, h).current
  {
    AckIsNext(d, x.s.spine, m);
    xs, acts := CaughtAndReturned(d, ok, x, e);
    var s := xs[|acts|].s;
    SameLogKeepsSpine(BodyOf(d), x.s, s);
    var ss, vs := RelaunchTakesOver(BodyOf(d), ok, s, m, now);
    var xs1, acts1 := xs, acts;
    xs, acts := Lift(d, ok, xs, acts, ss, vs);
    StillSwallowing(xs1, acts1, xs, acts, e);
  }

  lemma FiredIsIncomplete(d: DebouncerInput, x: Inner, e: nat)
    requires SpineInv(BodyOf(d), x.s) && MailHist(d, IsMessage, x.s.spine) && AtLookup(d, x.s, e)
    requires x.s.execs[e].hist < x.s.spine && Harmful(d, x.s, Catch(e))
    ensures !Complete(d, Fired(d, x, e))
  {
    FailedReceiveFires(d, x.s.execs[e].hist);
    NextIsMessage(d, x.s, x.s.execs[e].hist);
  }

  lemma NextMessageIsLost(d: DebouncerInput, x: Inner, e: nat) returns (xs: seq<Inner>, acts: seq<Act>)
    requires SpineInv(BodyOf(d), x.s) && AtLookup(d, x.s, e) && x.s.execs[e].hist == x.s.spine
    requires x.s.status == Cancelled && Harmful(d, x.s, Catch(e))
    ensures InnerRun(d, IsMessage, xs, acts) && xs[0] == x && Swallowing(acts, e) && !Complete(d, xs[|acts|])
  {
    var m := Update("", 0, "id");
    FailedReceiveFires(d, x.s.spine);
    AckIsNext(d, x.s.spine, m);
    xs, acts := LaterMessageIsLost(d, IsMessage, x, e, m, 0);
  }

  lemma TakenMessageIsLost(d: DebouncerInput, x: Inner, e: nat) returns (xs: seq<Inner>, acts: seq<Act>)
    requires SpineInv(BodyOf(d), x.s) && MailHist(d, IsMessage, x.s.spine) && AtLookup(d, x.s, e)
    requires x.s.execs[e].hist < x.s.spine && x.s.status == Cancelled && Harmful(d, x.s, Catch(e))
    ensures InnerRun(d, IsMessage, xs, acts) && xs[0] == x && Swallowing(acts, e) && !Complete(d, xs[|acts|])
  {
    FiredIsIncomplete(d, x, e);
    xs, acts := CaughtAndFired(d, IsMessage, x, e);
  }

  /** With a message behind the receive, that one is lost; otherwise the next one is. */
  lemma SwallowingLoses(d: DebouncerInput, x: Inner, e: nat) returns (xs: seq<Inner>, acts: seq<Act>)
    requires SpineInv(BodyOf(d), x.s) && MailHist(d, IsMessage, x.s.spine) && AtLookup(d, x.s, e)
    requires x.s.execs[e].hist <= x.s.spine && x.s.status == Cancelled && Harmful(d, x.s, Catch(e))
    ensures InnerRun(d, IsMessage, xs, acts) && xs[0] == x && Swallowing(acts, e) && !Complete(d, xs[|acts|])
  {
    if x.s.execs[e].hist == x.s.spine {
      xs, acts := NextMessageIsLost(d, x, e);
    } else {
      xs, acts := TakenMessageIsLost(d, x, e);
    }
  }

  lemma HarmfulLoses(d: DebouncerInput, x: Inner, e: nat) returns (xs: seq<Inner>, acts: seq<Act>)
    requires InnerInv(d, IsMessage, x) && AtLookup(d, x.s, e) && x.s.status == Cancelled && Harmful(d, x.s, Catch(e))
    ensures InnerRun(d, IsMessage, xs, acts) && xs[0] == x && |acts| > 0 && acts[0] == Catch(e) && Careful(d, xs, acts, 1)
    ensures !Complete(d, xs[|acts|])
  {
    CatchIsOnSpine(d, x.s, e);
    CoreSpine(BodyOf(d), x.s);
    xs, acts := SwallowingLoses(d, x, e);
  }

  /** Swallowing the cancellation here loses nothing, if no later swallowing is harmful. */
  ghost predicate SafeToSwallow(d: DebouncerInput, x: Inner, e: nat) {
    forall xs, acts ::
      InnerRun(d, IsMessage, xs, acts) && xs[0] == x && |acts| > 0 && acts[0] == Catch(e) && Careful(d, xs, acts, 1) ==>
        Complete(d, xs[|acts|])
  }

  /** In every cancelled state that the workflow can reach without harm: a receive may take
      the cancellation for a timeout if and only if the target is enqueued already or the log
      has a timeout for that receive. Otherwise some continuation leaves the target without
      an input that was taken over. */
  lemma SwallowIsSafeIff(d: DebouncerInput, xs: seq<Inner>, acts: seq<Act>, e: nat)
    requires InnerRun(d, IsMessage, xs, acts) && Fresh(xs[0]) && Careful(d, xs, acts, 0)
    requires AtLookup(d, xs[|acts|].s, e) && xs[|acts|].s.status == Cancelled
    ensures var s := xs[|acts|].s;
            SafeToSwallow(d, xs[|acts|], e) <==>
            d.targetId in s.spawned || TimedOut(s.log, Position(BodyOf(d), s.execs[e].hist))
  {
    var x := xs[|acts|];
    FreshMeetsInv(d, IsMessage, xs[0]);
    CarefulRunKeepsInner(d, IsMessage, xs, acts, |acts|);
    if Harmful(d, x.s, Catch(e)) {
      var ys, bs := HarmfulLoses(d, x, e);
    } else {
      HarmlessIsSafe(d, x, e);
    }
  }

  lemma HarmlessIsSafe(d: DebouncerInput, x: Inner, e: nat)
    requires InnerInv(d, IsMessage, x) && !Harmful(d, x.s, Catch(e))
    ensures SafeToSwallow(d, x, e)
  {
    forall xs, acts |
      InnerRun(d, IsMessage, xs, acts) && xs[0] == x && |acts| > 0 && acts[0] == Catch(e) && Careful(d, xs, acts, 1)
      ensures Complete(d, xs[|acts|])
    {
      CarefulRunKeepsInner(d, IsMessage, xs, acts, |acts|);
      InnerIsComplete(d, IsMessage, xs[|acts|]);
    }
  }
}
