/** The internal debouncer workflow in the execution protocol, cancelled and resumed at any
    time. Its body takes a cancellation that it meets in a receive for a timeout, and goes on
    to enqueue its target; what every step keeps when that is harmless. */
module DebounceSteps {
  import opened Wrappers
  import opened Tables
  import opened StepLog
  import opened Replay
  import opened ReplayInv
  import opened Durable
  import opened Events
  import opened Debouncer

  /** A step of the protocol, or a receive that is told of the cancellation and swallows it. */
  datatype Act = Plain(v: Event) | Catch(e: nat)

  /** In a receive, at one of its lookups. */
  predicate AtLookup(d: DebouncerInput, s: State, e: nat) {
    e in s.execs && BodyOf(d)(s.execs[e].hist).Wait? &&
    (s.execs[e].phase.Ready? || s.execs[e].phase.Looking? || s.execs[e].phase.Beaten?)
  }

  /** A receive returns a message or fails. */
  predicate Genuine(d: DebouncerInput, ok: Payload -> bool, s: State, v: Event) {
    v.RunClosure? && v.e in s.execs && BodyOf(d)(s.execs[v.e].hist).Wait? && v.r.Value? ==> ok(v.r.v)
  }

  /** A lookup in a receive never ends the body: a cancelled row makes it go on. A cancelled
      acknowledgement is swallowed too, but the clock step that follows it does end the body. */
  ghost predicate Does(d: DebouncerInput, ok: Payload -> bool, s: State, a: Act, s': State) {
    match a
    case Plain(v) =>
      Replay.Next(BodyOf(d), s, v, s', true) && Genuine(d, ok, s, v) &&
      !(v.Check? && AtLookup(d, s, v.e) && s.status == Cancelled)
    case Catch(e) =>
      AtLookup(d, s, e) && s.status == Cancelled && s' == Put(s, e, Exec(s.execs[e].hist + [Failed], Ready))
  }

  /** The log has a timeout for the receive. */
  predicate TimedOut(log: Log, n: int) {
    n in log && SeenOf(Recalled(log[n])) == Failed
  }

  /** The guard: swallowing the cancellation while the target is not enqueued, in a receive
      that has not timed out already. */
  predicate Harmful(d: DebouncerInput, s: State, a: Act) {
    a.Catch? && a.e in s.execs && d.targetId !in s.spawned && !TimedOut(s.log, Position(BodyOf(d), s.execs[a.e].hist))
  }

  // ---- harmless swallowing ----

  /** An execution that has gone on after swallowing the cancellation is off the spine. */
  predicate Stray(s: State, x: Exec) {
    !(x.hist <= s.spine)
  }

  /** The state without such executions. */
  function Core(s: State): State {
    s.(execs := map e | e in s.execs && !Stray(s, s.execs[e]) :: s.execs[e])
  }

  /** The target is enqueued; all the execution can do is to try that again and to return. */
  predicate StrayOk(d: DebouncerInput, s: State, x: Exec) {
    d.targetId in s.spawned &&
    match x.phase
    case Ready => After(d, x.hist).place.Fire? || After(d, x.hist).place.Done?
    case Ended(_) => true
    case _ => false
  }

  predicate OneActive(s: State) {
    forall e, f :: e in s.execs && f in s.execs && e != f ==> !Active(s.execs[e].phase) || !Active(s.execs[f].phase)
  }

  ghost predicate CoreSound(body: Body, s: State) {
    Inv(body, s) && SoloInv(body, s) && Sourced(body, s) && Agrees(s)
  }

  ghost predicate Sound(d: DebouncerInput, s: State) {
    CoreSound(BodyOf(d), Core(s)) && OneActive(s) && StraysOk(d, s)
  }

  predicate StraysOk(d: DebouncerInput, s: State) {
    forall e :: e in s.execs && Stray(s, s.execs[e]) ==> StrayOk(d, s, s.execs[e])
  }

  predicate NoStrays(s: State) {
    forall e :: e in s.execs ==> !Stray(s, s.execs[e])
  }

  lemma NoStraysIsCore(s: State)
    requires NoStrays(s)
    ensures Core(s) == s
  {
    assert Core(s).execs == s.execs;
  }

  lemma SoundWithoutStrays(d: DebouncerInput, s: State)
    requires CoreSound(BodyOf(d), s)
    ensures Sound(d, s) && NoStrays(s)
  {
    forall e | e in s.execs ensures !Stray(s, s.execs[e]) {
      assert ExecInv(BodyOf(d), s, s.execs[e]);
    }
    NoStraysIsCore(s);
  }

  /** The execution protocol keeps what it guarantees of one live execution. */
  lemma NextKeepsAll(body: Body, s: State, v: Event, s': State)
    requires CoreSound(body, s) && Replay.Next(body, s, v, s', true)
    ensures CoreSound(body, s') && s.spine <= s'.spine
  {
    StepKeepsInv(body, s, v, s', true);
    SoloStep(body, s, v, s');
    StepKeepsEventsAgreed(body, s, v, s');
    StepGrows(body, s, v, s', true);
  }

  // ---- with strays, the body is at its end ----

  lemma {:induction false} DoneStays(d: DebouncerInput, h: seq<Seen>, i: nat)
    requires i <= |h| && After(d, h[..i]).place.Done?
    ensures After(d, h).place.Done?
    decreases |h|
  {
    if i == |h| {
      assert h[..i] == h;
    } else {
      var g := h[..|h| - 1];
      assert g[..i] == h[..i];
      DoneStays(d, g, i);
    }
  }

  lemma FireThenDone(d: DebouncerInput, log: Log, h: seq<Seen>, t: Id, input: string, i: nat)
    requires Follows(BodyOf(d), log, h) && EnqueuesAt(BodyOf(d), h, t, input, i)
    ensures After(d, h[..i + 1]).place.Done?
  {
    assert Logged(BodyOf(d), log, h, i);
    assert h[..i + 1] == h[..i] + [h[i]];
    AfterStep(d, h[..i], h[i]);
  }

  lemma EnqueuedIsDone(d: DebouncerInput, log: Log, h: seq<Seen>, t: Id, input: string)
    requires Follows(BodyOf(d), log, h) && Enqueues(BodyOf(d), h, t, input)
    ensures After(d, h).place.Done?
  {
    var i: nat :| EnqueuesAt(BodyOf(d), h, t, input, i);
    FireThenDone(d, log, h, t, input, i);
    DoneStays(d, h, i + 1);
  }

  /** Nothing is added to a history that has returned. */
  lemma ReturnedStays(body: Body, s: State, s': State)
    requires SpineInv(body, s') && body(s.spine).Return? && s.spine <= s'.spine
    ensures s'.spine == s.spine
  {
    if |s.spine| < |s'.spine| {
      assert s.spine == s'.spine[..|s.spine|];
      LoggedAt(body, s'.log, s'.spine, s.spine);
    }
  }

  lemma TargetIsDone(d: DebouncerInput, s: State)
    requires Sound(d, s) && d.targetId in s.spawned
    ensures After(d, s.spine).place.Done? && BodyOf(d)(s.spine) == Return(Got(Null))
  {
    EnqueuedIsDone(d, s.log, s.spine, d.targetId, s.spawned[d.targetId]);
    DoneReturns(d, s.spine);
  }

  lemma DoneReturns(d: DebouncerInput, h: seq<Seen>)
    requires After(d, h).place.Done?
    ensures BodyOf(d)(h) == Return(Got(Null))
  {
  }

  // ---- steps do not look at other executions ----

  /** The executions of a step: one moves, joins or leaves. */
  predicate Moves(v: Event, xs: map<nat, Exec>, xs': map<nat, Exec>, ys': map<nat, Exec>) {
    if v.CancelRow? || v.ResumeRow? || v.ParkRow? then xs' == xs
    else if v.e in ys' then xs' == xs[v.e := ys'[v.e]]
    else xs' == xs - {v.e}
  }

  /** The step with other executions around. */
  predicate ApartFrom(body: Body, s: State, xs: map<nat, Exec>, v: Event)
    requires Enabled(body, s, v, true) && Enabled(body, s.(execs := xs), v, true)
  {
    var (s', t') := (Apply(body, s, v), Apply(body, s.(execs := xs), v));
    t' == s'.(execs := t'.execs) && Moves(v, xs, t'.execs, s'.execs) && Moves(v, s.execs, s'.execs, s'.execs)
  }

  /** xs has the execution that v belongs to, as s has it, and otherwise some of those of s. */
  predicate Around(s: State, xs: map<nat, Exec>, v: Event) {
    (forall e :: e in xs ==> e in s.execs && xs[e] == s.execs[e]) &&
    (v.CancelRow? || v.ResumeRow? || v.ParkRow? || v.Launch? || (v.e in s.execs ==> v.e in xs))
  }

  lemma LocalApart(body: Body, s: State, xs: map<nat, Exec>, v: Event)
    requires Enabled(body, s, v, true) && Around(s, xs, v)
    requires v.Check? || v.Ask? || v.RunClosure? || v.RunPublish? || v.Wake? || v.Clash?
    ensures Enabled(body, s.(execs := xs), v, true) && ApartFrom(body, s, xs, v)
  {
  }

  lemma InsertApart(body: Body, s: State, xs: map<nat, Exec>, v: Event)
    requires Enabled(body, s, v, true) && Around(s, xs, v) && v.Insert?
    ensures Enabled(body, s.(execs := xs), v, true) && ApartFrom(body, s, xs, v)
  {
  }

  lemma HearApart(body: Body, s: State, xs: map<nat, Exec>, v: Event)
    requires Enabled(body, s, v, true) && Around(s, xs, v) && (v.Hear? || v.Leave?)
    ensures Enabled(body, s.(execs := xs), v, true) && ApartFrom(body, s, xs, v)
  {
  }

  lemma EnqueueApart(body: Body, s: State, xs: map<nat, Exec>, v: Event)
    requires Enabled(body, s, v, true) && Around(s, xs, v) && v.EnqueueRow?
    ensures Enabled(body, s.(execs := xs), v, true) && ApartFrom(body, s, xs, v)
  {
  }

  lemma WriteApart(body: Body, s: State, xs: map<nat, Exec>, v: Event)
    requires Enabled(body, s, v, true) && Around(s, xs, v)
    requires v.WriteOutcome?
    ensures Enabled(body, s.(execs := xs), v, true) && ApartFrom(body, s, xs, v)
  {
  }

  lemma EndApart(body: Body, s: State, xs: map<nat, Exec>, v: Event)
    requires Enabled(body, s, v, true) && Around(s, xs, v)
    requires v.ReadOutcome? || v.WriteError?
    ensures Enabled(body, s.(execs := xs), v, true) && ApartFrom(body, s, xs, v)
  {
  }

  lemma CancelApart(body: Body, s: State, xs: map<nat, Exec>, v: Event)
    requires Enabled(body, s, v, true) && Around(s, xs, v) && v.CancelRow?
    ensures Enabled(body, s.(execs := xs), v, true) && ApartFrom(body, s, xs, v)
  {
  }

  lemma ParkApart(body: Body, s: State, xs: map<nat, Exec>, v: Event)
    requires Enabled(body, s, v, true) && Around(s, xs, v) && v.ParkRow?
    ensures Enabled(body, s.(execs := xs), v, true) && ApartFrom(body, s, xs, v)
  {
  }

  lemma ResumeApart(body: Body, s: State, xs: map<nat, Exec>)
    requires NoneStopped(s) && Around(s, xs, ResumeRow)
    ensures NoneStopped(s.(execs := xs)) && ApartFrom(body, s, xs, ResumeRow)
  {
  }

  lemma LifeApart(body: Body, s: State, xs: map<nat, Exec>, v: Event)
    requires Enabled(body, s, v, true) && Around(s, xs, v) && (v.Launch? || v.Crash?)
    ensures Enabled(body, s.(execs := xs), v, true) && ApartFrom(body, s, xs, v)
  {
  }

  lemma StepApart(body: Body, s: State, xs: map<nat, Exec>, v: Event)
    requires Enabled(body, s, v, true) && Around(s, xs, v) && !v.SpawnChild?
    ensures Enabled(body, s.(execs := xs), v, true) && ApartFrom(body, s, xs, v)
  {
    if v.Check? || v.Ask? || v.RunClosure? || v.RunPublish? || v.Wake? || v.Clash? {
      LocalApart(body, s, xs, v);
    } else if v.Insert? {
      InsertApart(body, s, xs, v);
    } else if v.EnqueueRow? {
      EnqueueApart(body, s, xs, v);
    } else if v.Hear? || v.Leave? {
      HearApart(body, s, xs, v);
    } else if v.WriteOutcome? {
      WriteApart(body, s, xs, v);
    } else if v.ReadOutcome? || v.WriteError? {
      EndApart(body, s, xs, v);
    } else if v.Launch? || v.Crash? {
      LifeApart(body, s, xs, v);
    } else if v.ResumeRow? {
      ResumeApart(body, s, xs);
    } else if v.CancelRow? {
      CancelApart(body, s, xs, v);
    } else {
      ParkApart(body, s, xs, v);
    }
  }

  // ---- what every step keeps ----

  predicate SpawnedKept(s: State, s': State) {
    forall t :: t in s.spawned ==> t in s'.spawned && s'.spawned[t] == s.spawned[t]
  }

  lemma LocalKeepsSpawned(body: Body, s: State, v: Event)
    requires Enabled(body, s, v, true)
    requires v.Check? || v.Ask? || v.RunClosure? || v.RunPublish? || v.Wake? || v.Clash? || v.Insert? || Hears(v)
    ensures SpawnedKept(s, Apply(body, s, v))
  {
  }

  lemma RowKeepsSpawned(body: Body, s: State, v: Event)
    requires Enabled(body, s, v, true)
    requires v.WriteOutcome? || v.ReadOutcome? || v.WriteError? || v.Launch? || v.Crash? || v.CancelRow? || v.ResumeRow? || v.ParkRow?
    ensures SpawnedKept(s, Apply(body, s, v))
  {
  }

  lemma StepKeepsSpawned(body: Body, s: State, v: Event)
    requires Enabled(body, s, v, true) && !v.SpawnChild?
    ensures SpawnedKept(s, Apply(body, s, v))
  {
    if v.Check? || v.Ask? || v.RunClosure? || v.RunPublish? || v.Wake? || v.Clash? || v.Insert? || Hears(v) {
      LocalKeepsSpawned(body, s, v);
    } else {
      RowKeepsSpawned(body, s, v);
    }
  }

  /** An execution that moves was active before. */
  predicate OneMoves(s: State, s': State) {
    forall e :: e in s'.execs && Active(s'.execs[e].phase) ==>
      (e in s.execs && Active(s.execs[e].phase)) || (forall f :: f in s.execs ==> !Active(s.execs[f].phase))
  }

  lemma LocalMovesOne(body: Body, s: State, v: Event)
    requires Enabled(body, s, v, true)
    requires v.Check? || v.Ask? || v.RunClosure? || v.RunPublish? || v.Wake? || v.Clash? || v.Insert? || Hears(v)
    ensures OneMoves(s, Apply(body, s, v)) && v.e in s.execs && Active(s.execs[v.e].phase)
  {
  }

  lemma RowMovesOne(body: Body, s: State, v: Event)
    requires Enabled(body, s, v, true)
    requires v.WriteOutcome? || v.ReadOutcome? || v.WriteError? || v.Launch? || v.Crash? || v.CancelRow? || v.ResumeRow? || v.ParkRow?
    ensures OneMoves(s, Apply(body, s, v))
  {
  }

  lemma StepKeepsOneActive(body: Body, s: State, v: Event)
    requires OneActive(s) && Enabled(body, s, v, true) && !v.SpawnChild?
    ensures OneActive(Apply(body, s, v))
  {
    if v.Check? || v.Ask? || v.RunClosure? || v.RunPublish? || v.Wake? || v.Clash? || v.Insert? || Hears(v) {
      LocalMovesOne(body, s, v);
      StepApart(body, s, s.execs, v);
    } else {
      RowMovesOne(body, s, v);
      StepApart(body, s, s.execs, v);
    }
  }

  // ---- plain steps ----

  lemma CoreAround(d: DebouncerInput, s: State, v: Event)
    requires v.CancelRow? || v.ResumeRow? || v.ParkRow? || v.Launch? || (v.e in s.execs ==> !Stray(s, s.execs[v.e]))
    ensures Around(s, Core(s).execs, v)
  {
  }

  /** The step without the executions off the spine, and with them. */
  predicate Beside(s: State, v: Event, s': State, c': State) {
    Around(s, Core(s).execs, v) && c' == s'.(execs := c'.execs) && s'.spine == s.spine &&
    Moves(v, Core(s).execs, c'.execs, s'.execs) && Moves(v, s.execs, s'.execs, s'.execs) &&
    forall e :: e in c'.execs ==> c'.execs[e].hist <= s'.spine
  }

  /** A step of an execution on the spine while others are off it. */
  lemma CoreStepKeepsSound(d: DebouncerInput, s: State, v: Event, s': State)
    requires Sound(d, s) && Replay.Next(BodyOf(d), s, v, s', true) && !v.SpawnChild?
    requires d.targetId in s.spawned && Around(s, Core(s).execs, v)
    ensures Sound(d, s') && s.spine <= s'.spine
  {
    TargetIsDone(d, s);
    var c' := CoreStep(d, s, v, s');
    RestIsKept(d, s, v, s', c');
  }

  lemma RestIsKept(d: DebouncerInput, s: State, v: Event, s': State, c': State)
    requires OneActive(s) && StraysOk(d, s) && Replay.Next(BodyOf(d), s, v, s', true) && !v.SpawnChild?
    requires Beside(s, v, s', c')
    ensures OneActive(s') && StraysOk(d, s') && Core(s') == c' && s'.spine == s.spine
  {
    StepKeepsSpawned(BodyOf(d), s, v);
    StepKeepsOneActive(BodyOf(d), s, v);
    CoreOfStep(s, v, s', c');
    StraysStayOk(d, s, v, s', c');
  }

  lemma CoreStep(d: DebouncerInput, s: State, v: Event, s': State) returns (c': State)
    requires CoreSound(BodyOf(d), Core(s)) && BodyOf(d)(s.spine).Return?
    requires Replay.Next(BodyOf(d), s, v, s', true) && !v.SpawnChild? && Around(s, Core(s).execs, v)
    ensures CoreSound(BodyOf(d), c') && Beside(s, v, s', c')
  {
    c' := CoreNext(BodyOf(d), s, v, s');
    CoreEnds(BodyOf(d), Core(s), v, c');
  }

  lemma CoreNext(body: Body, s: State, v: Event, s': State) returns (c': State)
    requires Replay.Next(body, s, v, s', true) && !v.SpawnChild? && Around(s, Core(s).execs, v)
    ensures Replay.Next(body, Core(s), v, c', true)
    ensures c' == s'.(execs := c'.execs) && Moves(v, Core(s).execs, c'.execs, s'.execs) && Moves(v, s.execs, s'.execs, s'.execs)
  {
    StepApart(body, s, Core(s).execs, v);
    c' := Apply(body, Core(s), v);
  }

  lemma CoreEnds(body: Body, c: State, v: Event, c': State)
    requires CoreSound(body, c) && Replay.Next(body, c, v, c', true) && body(c.spine).Return?
    ensures CoreSound(body, c') && c'.spine == c.spine && forall e :: e in c'.execs ==> c'.execs[e].hist <= c'.spine
  {
    NextKeepsAll(body, c, v, c');
    ReturnedStays(body, c, c');
    HistsOnSpine(body, c');
  }

  lemma HistsOnSpine(body: Body, s: State)
    requires Inv(body, s)
    ensures forall e :: e in s.execs ==> s.execs[e].hist <= s.spine
  {
    forall e | e in s.execs ensures s.execs[e].hist <= s.spine {
      assert ExecInv(body, s, s.execs[e]);
    }
  }

  lemma CoreOfStep(s: State, v: Event, s': State, c': State)
    requires Beside(s, v, s', c')
    ensures Core(s') == c'
  {
    forall e | e in s'.execs && e !in c'.execs ensures Stray(s', s'.execs[e]) {
      assert e in s.execs && s'.execs[e] == s.execs[e] && e !in Core(s).execs;
    }
    forall e | e in c'.execs ensures e in s'.execs && c'.execs[e] == s'.execs[e] {
      if !v.CancelRow? && !v.ResumeRow? && !v.ParkRow? && e == v.e {
        assert c'.execs[e] == s'.execs[e];
      } else {
        assert e in Core(s).execs;
      }
    }
    assert Core(s').execs == c'.execs;
  }

  lemma StraysStayOk(d: DebouncerInput, s: State, v: Event, s': State, c': State)
    requires Beside(s, v, s', c') && Core(s') == c' && SpawnedKept(s, s')
    requires StraysOk(d, s)
    ensures StraysOk(d, s')
  {
    forall e | e in s'.execs && Stray(s', s'.execs[e]) ensures StrayOk(d, s', s'.execs[e]) {
      assert e !in c'.execs;
      assert e in s.execs && s'.execs[e] == s.execs[e];
    }
  }

  // ---- steps off the spine ----

  lemma OnlyItsActions(d: DebouncerInput, h: seq<Seen>)
    ensures !BodyOf(d)(h).Child? && !BodyOf(d)(h).Told? && !BodyOf(d)(h).Sleep? && !BodyOf(d)(h).Await?
  {
  }

  lemma StrayCan(d: DebouncerInput, s: State, v: Event)
    requires Enabled(BodyOf(d), s, v, true) && !v.CancelRow? && !v.ResumeRow? && !v.ParkRow?
    requires v.e in s.execs && StrayOk(d, s, s.execs[v.e])
    ensures v.Crash? || (v.EnqueueRow? && After(d, s.execs[v.e].hist).place.Fire?) ||
            (v.WriteOutcome? && BodyOf(d)(s.execs[v.e].hist) == Return(Got(Null)))
  {
  }

  lemma CoreOfOther(s: State, s': State, e: nat)
    requires e in s.execs && Stray(s, s.execs[e]) && s'.spine == s.spine
    requires s'.execs == s.execs - {e} || (e in s'.execs && s'.execs == s.execs[e := s'.execs[e]] && Stray(s', s'.execs[e]))
    ensures Core(s').execs == Core(s).execs
  {
  }

  /** One active execution moves; the others are as they were. */
  lemma OthersAsBefore(d: DebouncerInput, s: State, e: nat, s': State)
    requires OneActive(s) && StraysOk(d, s) && e in s.execs && Active(s.execs[e].phase) && e in s'.execs
    requires s'.spine == s.spine && s'.spawned == s.spawned && s'.execs == s.execs[e := s'.execs[e]]
    requires Stray(s', s'.execs[e]) ==> StrayOk(d, s', s'.execs[e])
    ensures OneActive(s') && StraysOk(d, s')
  {
    forall f | f in s'.execs && Stray(s', s'.execs[f]) ensures StrayOk(d, s', s'.execs[f]) {
      if f != e { assert StrayOk(d, s, s.execs[f]); }
    }
  }

  lemma StrayEnqueues(d: DebouncerInput, s: State, e: nat, s': State)
    requires Sound(d, s) && e in s.execs && Stray(s, s.execs[e]) && Enabled(BodyOf(d), s, EnqueueRow(e), true)
    requires After(d, s.execs[e].hist).place.Fire? && d.targetId in s.spawned && s' == Apply(BodyOf(d), s, EnqueueRow(e))
    ensures Sound(d, s') && s'.spine == s.spine
  {
    StrayEnqueued(d, s, e, s');
    OthersAsBefore(d, s, e, s');
    CoreOfOther(s, s', e);
    assert Core(s') == Core(s);
  }

  lemma StrayEnqueued(d: DebouncerInput, s: State, e: nat, s': State)
    requires e in s.execs && Stray(s, s.execs[e]) && Enabled(BodyOf(d), s, EnqueueRow(e), true)
    requires After(d, s.execs[e].hist).place.Fire? && d.targetId in s.spawned && s' == Apply(BodyOf(d), s, EnqueueRow(e))
    ensures s' == Put(s, e, Exec(s.execs[e].hist + [Got(Null)], Ready)) && s.execs[e].phase.Ready?
    ensures Stray(s', s'.execs[e]) && StrayOk(d, s', s'.execs[e])
  {
    AfterStep(d, s.execs[e].hist, Got(Null));
  }

  lemma StrayCrashes(d: DebouncerInput, s: State, e: nat, s': State)
    requires Sound(d, s) && e in s.execs && Stray(s, s.execs[e]) && s' == s.(execs := s.execs - {e})
    ensures Sound(d, s')
  {
    CoreOfOther(s, s', e);
    assert Core(s') == Core(s);
  }

  lemma WrittenKeepsRest(body: Body, s: State, out: Seen)
    requires Sourced(body, s) && Agrees(s)
    ensures Sourced(body, Written(s, out)) && Agrees(Written(s, out))
  {
    GrowthKeepsSourced(body, s, Written(s, out));
    SameEventsAgree(s, Written(s, out));
  }

  lemma WrittenKeepsCore(body: Body, s: State, out: Seen)
    requires CoreSound(body, s) && body(s.spine) == Return(out)
    ensures CoreSound(body, Written(s, out))
  {
    WrittenKeepsInv(body, s, out);
    SoloSameLog(body, s, Written(s, out));
    WrittenKeepsRest(body, s, out);
  }

  lemma SameEventsAgree(s: State, s': State)
    requires Agrees(s) && s'.events == s.events && s'.history == s.history
    ensures Agrees(s')
  {
    forall key ensures AgreesOn(s'.events, s'.history, key) {
      assert AgreesOn(s.events, s.history, key);
    }
  }

  lemma StrayReturns(d: DebouncerInput, s: State, e: nat, s': State)
    requires Sound(d, s) && e in s.execs && Stray(s, s.execs[e]) && d.targetId in s.spawned
    requires s' == Put(Written(s, Got(Null)), e, Exec(s.execs[e].hist, Ended(Got(Null))))
    requires Active(s.execs[e].phase)
    ensures Sound(d, s')
  {
    TargetIsDone(d, s);
    WrittenKeepsCore(BodyOf(d), Core(s), Got(Null));
    OthersAsBefore(d, s, e, s');
    CoreOfOther(s, s', e);
    SameButExecs(Core(s'), Written(Core(s), Got(Null)));
  }

  lemma SameButExecs(s: State, t: State)
    requires s.execs == t.execs && s.(execs := t.execs) == t
    ensures s == t
  {
  }

  lemma StrayStepKeepsSound(d: DebouncerInput, s: State, v: Event, s': State)
    requires Sound(d, s) && Replay.Next(BodyOf(d), s, v, s', true)
    requires !v.CancelRow? && !v.ResumeRow? && !v.ParkRow? && v.e in s.execs && Stray(s, s.execs[v.e])
    ensures Sound(d, s') && s'.spine == s.spine
  {
    assert StrayOk(d, s, s.execs[v.e]);
    StrayCan(d, s, v);
    if v.Crash? {
      StrayCrashes(d, s, v.e, s');
    } else if v.EnqueueRow? {
      StrayEnqueues(d, s, v.e, s');
    } else {
      StrayReturns(d, s, v.e, s');
    }
  }

  // ---- swallowing ----

  lemma CatchIsOnSpine(d: DebouncerInput, s: State, e: nat)
    requires Sound(d, s) && AtLookup(d, s, e)
    ensures !Stray(s, s.execs[e]) && After(d, s.execs[e].hist).place.Receive?
  {
    assert Stray(s, s.execs[e]) ==> StrayOk(d, s, s.execs[e]);
  }

  /** Where the log has a timeout, swallowing the cancellation is what a replay would do. */
  lemma TimedOutIsFailed(d: DebouncerInput, s: State, e: nat)
    requires SpineInv(BodyOf(d), s) && AtLookup(d, s, e) && s.execs[e].hist <= s.spine
    requires TimedOut(s.log, Position(BodyOf(d), s.execs[e].hist))
    ensures s.execs[e].hist + [Failed] <= s.spine
  {
    HitIsSpine(BodyOf(d), s, s.execs[e].hist);
  }

  lemma CatchAlongCore(s: State, e: nat, s': State)
    requires e in s.execs && !Stray(s, s.execs[e]) && e in s'.execs && s' == Put(s, e, s'.execs[e]) && !Stray(s', s'.execs[e])
    ensures Core(s') == Put(Core(s), e, s'.execs[e])
  {
    assert Core(s').execs == Core(s).execs[e := s'.execs[e]];
  }

  lemma CatchAlong(d: DebouncerInput, s: State, e: nat, s': State)
    requires Sound(d, s) && AtLookup(d, s, e) && !Stray(s, s.execs[e]) && s.execs[e].hist + [Failed] <= s.spine
    requires s' == Put(s, e, Exec(s.execs[e].hist + [Failed], Ready))
    ensures Sound(d, s')
  {
    CatchAlongCore(s, e, s');
    OthersAsBefore(d, s, e, s');
    ReadyKeepsCore(BodyOf(d), Core(s), e, s'.execs[e]);
  }

  /** An active execution that is ready somewhere on the spine. */
  lemma ReadyKeepsCore(body: Body, s: State, e: nat, x: Exec)
    requires CoreSound(body, s) && e in s.execs && Active(s.execs[e].phase) && x.phase.Ready? && x.hist <= s.spine
    ensures CoreSound(body, Put(s, e, x))
  {
    var s' := Put(s, e, x);
    LocalStepKeepsInv(body, s, s', e);
    SoloSameLog(body, s, s');
    GrowthKeepsSourced(body, s, s');
    SameEventsAgree(s, s');
  }

  lemma CatchOff(d: DebouncerInput, s: State, e: nat, s': State)
    requires Sound(d, s) && AtLookup(d, s, e) && !Stray(s, s.execs[e]) && After(d, s.execs[e].hist).place.Receive?
    requires d.targetId in s.spawned && !(s.execs[e].hist + [Failed] <= s.spine)
    requires s' == Put(s, e, Exec(s.execs[e].hist + [Failed], Ready))
    ensures Sound(d, s')
  {
    AfterStep(d, s.execs[e].hist, Failed);
    OthersAsBefore(d, s, e, s');
    CatchOffCore(s, e, s');
    CrashKeepsCore(BodyOf(d), Core(s), e);
  }

  lemma CatchOffCore(s: State, e: nat, s': State)
    requires e in s.execs && !Stray(s, s.execs[e]) && e in s'.execs && s' == Put(s, e, s'.execs[e]) && Stray(s', s'.execs[e])
    ensures Core(s') == Core(s).(execs := Core(s).execs - {e})
  {
    assert Core(s').execs == Core(s).execs - {e};
  }

  lemma CrashKeepsCore(body: Body, s: State, e: nat)
    requires CoreSound(body, s) && e in s.execs
    ensures CoreSound(body, s.(execs := s.execs - {e}))
  {
    NextKeepsAll(body, s, Crash(e), s.(execs := s.execs - {e}));
  }

  lemma CatchKeepsSound(d: DebouncerInput, s: State, e: nat, s': State)
    requires Sound(d, s) && AtLookup(d, s, e) && !Harmful(d, s, Catch(e))
    requires s' == Put(s, e, Exec(s.execs[e].hist + [Failed], Ready))
    ensures Sound(d, s')
  {
    CatchIsOnSpine(d, s, e);
    if TimedOut(s.log, Position(BodyOf(d), s.execs[e].hist)) {
      CoreSpine(BodyOf(d), s);
      TimedOutIsFailed(d, s, e);
    }
    if s.execs[e].hist + [Failed] <= s.spine {
      CatchAlong(d, s, e, s');
    } else {
      CatchOff(d, s, e, s');
    }
  }

  /** The log and the spine do not depend on the executions. */
  lemma CoreSpine(body: Body, s: State)
    requires SpineInv(body, Core(s))
    ensures SpineInv(body, s)
  {
    SameLogKeepsSpine(body, Core(s), s);
  }

  // ---- every harmless step ----

  lemma PlainKeepsSound(d: DebouncerInput, s: State, v: Event, s': State)
    requires Sound(d, s) && Replay.Next(BodyOf(d), s, v, s', true)
    ensures Sound(d, s') && s.spine <= s'.spine
  {
    if !v.CancelRow? && !v.ResumeRow? && !v.ParkRow? && v.e in s.execs && Stray(s, s.execs[v.e]) {
      StrayStepKeepsSound(d, s, v, s');
    } else if NoStrays(s) {
      NoStraysIsCore(s);
      NextKeepsAll(BodyOf(d), s, v, s');
      SoundWithoutStrays(d, s');
    } else {
      var e :| e in s.execs && Stray(s, s.execs[e]);
      assert StrayOk(d, s, s.execs[e]);
      if v.SpawnChild? { OnlyItsActions(d, s.execs[v.e].hist); }
      CoreStepKeepsSound(d, s, v, s');
    }
  }

  lemma SafeStepKeepsSound(d: DebouncerInput, ok: Payload -> bool, s: State, a: Act, s': State)
    requires Sound(d, s) && Does(d, ok, s, a, s') && !Harmful(d, s, a)
    ensures Sound(d, s') && s.spine <= s'.spine
  {
    match a
    case Plain(v) => PlainKeepsSound(d, s, v, s');
    case Catch(e) => CatchKeepsSound(d, s, e, s');
  }
}
