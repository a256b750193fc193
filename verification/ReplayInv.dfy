/** The inductive invariant of the execution protocol, kept by every step of every run. */
module ReplayInv {
  import opened Wrappers
  import opened Tables
  import opened StepLog
  import opened Replay

  // ---- positions ----

  lemma PositionStep(body: Body, h: seq<Seen>, x: Seen)
    ensures Position(body, h + [x]) == Position(body, h) + Width(body(h))
  {
    assert (h + [x])[..|h|] == h;
  }

  /** Along logged results, each action's ids lie below the next one's. */
  lemma {:induction false} PositionsGrow(body: Body, log: Log, h: seq<Seen>, i: nat, j: nat)
    requires Follows(body, log, h) && i < j <= |h|
    ensures !body(h[..i]).Return?
    ensures Position(body, h[..i]) + Width(body(h[..i])) <= Position(body, h[..j])
  {
    assert Logged(body, log, h, i);
    assert h[..j][..j - 1] == h[..j - 1];
    if i < j - 1 {
      PositionsGrow(body, log, h, i, j - 1);
    }
  }

  // ---- the invariant ----

  /** A logged wake time was there from the start, or is one that some execution asked for. */
  predicate WakeAt(s: State, k: int) {
    k in s.log ==>
      IsWake(s.log[k]) && ((k in s.initial && s.initial[k] == s.log[k]) || (k, s.log[k].output.ms) in s.asked)
  }

  predicate WakesAt(body: Body, s: State, i: nat)
    requires i <= |s.spine|
  {
    var a, n := body(s.spine[..i]), Position(body, s.spine[..i]);
    (a.Wait? ==> WakeAt(s, n + 1)) && (a.Sleep? && i < |s.spine| ==> WakeAt(s, n))
  }

  /** The log is exactly what one history of the body accounts for: every result of the
      spine, nothing at the id the spine is about to take, and beyond it at most the
      deadline of the wait that comes next. */
  ghost predicate SpineInv(body: Body, s: State) {
    Follows(body, s.log, s.spine) &&
    (body(s.spine).Return? || Position(body, s.spine) !in s.log) &&
    (forall k :: k in s.log ==>
       k < Position(body, s.spine) || (body(s.spine).Wait? && k == Position(body, s.spine) + 1)) &&
    (forall i :: 0 <= i <= |s.spine| ==> WakesAt(body, s, i)) &&
    forall k :: k in s.initial ==> k in s.log && s.log[k] == s.initial[k]
  }

  /** Every execution has seen a prefix of the spine, and its phase fits its next action. A
      deadline is recorded before the wait it belongs to. */
  ghost predicate ExecInv(body: Body, s: State, x: Exec) {
    x.hist <= s.spine &&
    var a, n := body(x.hist), Position(body, x.hist);
    match x.phase
    case Ready => true
    case Looking => a.Wait? && (n in s.log ==> n + 1 in s.log)
    case Missed(slot) =>
      if slot == Own then a.Step? || a.Sleep? || a.Publish? || a.Child? || (a.Told? && a.takesId)
      else a.Wait? && (n in s.log ==> n + 1 in s.log)
    case Ran(slot, op) =>
      if slot == Own then
        SeenIn(a, op).Some? && (a.Wait? ==> n + 1 in s.log) && (a.Sleep? ==> (n, op.output.ms) in s.asked)
      else a.Wait? && IsWake(op) && (n + 1, op.output.ms) in s.asked && (n in s.log ==> n + 1 in s.log)
    case Beaten(slot) => (if slot == Own then a.Sleep? else a.Wait?) && SlotId(body, x.hist, slot) in s.log
    case Armed(w) => a.Wait? && n + 1 in s.log && s.log[n + 1].output == Millis(w)
    case Sleeping(w) =>
      |x.hist| > 0 && body(x.hist[..|x.hist| - 1]).Sleep? &&
      var k := Position(body, x.hist[..|x.hist| - 1]);
      k in s.log && s.log[k].output == Millis(w)
    case Ended(out) => body(s.spine).Return? && out == body(s.spine).out
    case Lost => true
    case Denied => true
    case Stopped => s.status == Cancelled
    case Broken => false
  }

  /** Whatever was decided is what the body returns at the end of the spine. */
  ghost predicate OutcomeInv(body: Body, s: State) {
    (s.outcome.Some? ==> body(s.spine).Return? && s.outcome == Some(body(s.spine).out)) &&
    (s.status == Success ==> s.outcome.Some? && s.outcome.value.Got?) &&
    (s.status == Error ==> s.outcome == Some(Failed)) &&
    forall t :: t in s.spawned ==> Enqueues(body, s.spine, t, s.spawned[t])
  }

  /** The body enqueues the row on its way along h. */
  ghost predicate Enqueues(body: Body, h: seq<Seen>, t: Id, input: string) {
    exists i: nat :: EnqueuesAt(body, h, t, input, i)
  }

  predicate EnqueuesAt(body: Body, h: seq<Seen>, t: Id, input: string, i: nat) {
    i < |h| && body(h[..i]) == Enqueue(t, input)
  }

  lemma EnqueuesGrows(body: Body, h: seq<Seen>, h': seq<Seen>, t: Id, input: string)
    requires Enqueues(body, h, t, input) && h <= h'
    ensures Enqueues(body, h', t, input)
  {
    var i: nat :| EnqueuesAt(body, h, t, input, i);
    assert h'[..i] == h[..i];
    assert EnqueuesAt(body, h', t, input, i);
  }

  /** In an action that was not found in the log. */
  predicate PastLookup(p: Phase) {
    p.Looking? || p.Missed? || p.Ran? || p.Beaten? || p.Armed?
  }

  /** An execution in the middle of an action is at the end of the spine, or has an answer
      coming that the log does not have. */
  ghost predicate AtEnd(body: Body, s: State, x: Exec) {
    PastLookup(x.phase) ==>
      if AnswerOf(body(x.hist)).None? then x.hist == s.spine else Position(body, x.hist) !in s.log
  }

  /** The execution that made the latest insert has not lost one, and is at the frontier when
      it is about to record something. */
  ghost predicate LastInv(body: Body, s: State) {
    s.last.Some? && s.last.value in s.execs ==>
      var x := s.execs[s.last.value];
      !x.phase.Lost? && !x.phase.Denied? && AtEnd(body, s, x)
  }

  ghost predicate Inv(body: Body, s: State) {
    SpineInv(body, s) && OutcomeInv(body, s) && LastInv(body, s) &&
    forall e :: e in s.execs ==> ExecInv(body, s, s.execs[e])
  }

  /** No execution yet, nothing decided, and a log some history accounts for. */
  ghost predicate Init(body: Body, s: State) {
    SpineInv(body, s) && s.status != Success && s.status != Error && s.outcome == None &&
    s.spawned == map[] && s.execs == map[] && s.last == None
  }

  lemma InitMeetsInv(body: Body, s: State)
    requires Init(body, s)
    ensures Inv(body, s)
  {
  }

  // ---- the frontier ----

  lemma NextPrefix(h: seq<Seen>, spine: seq<Seen>)
    requires h <= spine
    ensures h == spine[..|h|]
    ensures if |h| < |spine| then h + [spine[|h|]] <= spine else h == spine
  {
  }

  /** A history short of the spine finds its next result in the log, or is told it. */
  lemma LoggedAt(body: Body, log: Log, spine: seq<Seen>, h: seq<Seen>)
    requires Follows(body, log, spine) && |h| < |spine| && h == spine[..|h|]
    ensures !body(h).Return?
    ensures match AnswerOf(body(h))
            case Some(r) => r == spine[|h|] && (Width(body(h)) > 0 && Position(body, h) in log ==> log[Position(body, h)].child.Some?)
            case None => Position(body, h) in log && SeenIn(body(h), log[Position(body, h)]) == Some(spine[|h|])
  {
    assert Logged(body, log, spine, |h|);
  }

  /** A history whose next id is free is the whole spine. */
  lemma AtFrontier(body: Body, s: State, h: seq<Seen>)
    requires SpineInv(body, s) && h <= s.spine
    requires body(h).Return? || (AnswerOf(body(h)).None? && Position(body, h) !in s.log)
    ensures h == s.spine
  {
    NextPrefix(h, s.spine);
    if |h| < |s.spine| { LoggedAt(body, s.log, s.spine, h); }
  }

  /** A history whose next id is taken sees there what the spine saw. */
  lemma HitIsSpine(body: Body, s: State, h: seq<Seen>)
    requires SpineInv(body, s) && h <= s.spine
    requires Width(body(h)) > 0 && AnswerOf(body(h)).None? && Position(body, h) in s.log
    ensures |h| < |s.spine| && SeenIn(body(h), s.log[Position(body, h)]) == Some(s.spine[|h|])
    ensures h + [s.spine[|h|]] <= s.spine
  {
    NextPrefix(h, s.spine);
    if |h| < |s.spine| { LoggedAt(body, s.log, s.spine, h); }
  }

  lemma DeadlineIsWake(body: Body, s: State, h: seq<Seen>)
    requires SpineInv(body, s) && h <= s.spine
    requires body(h).Wait? && Position(body, h) + 1 in s.log
    ensures IsWake(s.log[Position(body, h) + 1])
  {
    assert h == s.spine[..|h|];
    assert WakesAt(body, s, |h|);
  }

  /** No lookup of a deterministic body fails, and a hit goes along the spine. */
  lemma CheckKeepsExec(body: Body, s: State, x: Exec)
    requires SpineInv(body, s) && ExecInv(body, s, x) && Width(body(x.hist)) > 0
    requires body(x.hist).Told? ==> Position(body, x.hist) !in s.log
    requires x.phase.Ready? || x.phase.Looking? || x.phase.Beaten?
    ensures ExecInv(body, s, AfterCheck(body, s, x))
    ensures !AfterCheck(body, s, x).phase.Lost? && !AfterCheck(body, s, x).phase.Denied?
    ensures AtEnd(body, s, x) ==> AtEnd(body, s, AfterCheck(body, s, x))
  {
    var h := x.hist;
    if AnswerOf(body(h)).None? && Position(body, h) in s.log { HitIsSpine(body, s, h); }
    if AnswerOf(body(h)).None? && Position(body, h) !in s.log { AtFrontier(body, s, h); }
    if body(h).Wait? && Position(body, h) + 1 in s.log { DeadlineIsWake(body, s, h); }
    assert forall y: Seen :: (h + [y])[..|h|] == h;
  }

  // ---- the log grows ----

  /** A row added at the frontier, or at its deadline, disturbs no other execution. */
  lemma GrowthKeepsExec(body: Body, s: State, s': State, x: Exec, k: int, op: OpRow)
    requires SpineInv(body, s) && ExecInv(body, s, x) && !body(s.spine).Return?
    requires k !in s.log && s'.log == s.log[k := op]
    requires k == Position(body, s.spine) || k == Position(body, s.spine) + 1
    requires body(s.spine).Wait? && k == Position(body, s.spine) ==> k + 1 in s.log
    requires s.spine <= s'.spine && s'.asked == s.asked && s'.status == s.status
    ensures ExecInv(body, s', x)
  {
    var h := x.hist;
    assert h == s.spine[..|h|] && s.spine == s.spine[..|s.spine|];
    if |h| < |s.spine| {
      PositionsGrow(body, s.log, s.spine, |h|, |s.spine|);
    }
  }

  /** The row of the next action, added at the end of the spine. */
  ghost predicate Appended(body: Body, s: State, s': State, op: OpRow) {
    var h, a := s.spine, body(s.spine);
    SeenIn(a, op).Some? && s'.log == s.log[Position(body, h) := op] &&
    s'.spine == h + [SeenIn(a, op).value] && s'.asked == s.asked && s'.initial == s.initial &&
    (a.Sleep? ==> (Position(body, h), op.output.ms) in s.asked)
  }

  lemma OwnRowIsLogged(body: Body, s: State, s': State, op: OpRow)
    requires SpineInv(body, s) && Appended(body, s, s', op)
    ensures Follows(body, s'.log, s'.spine)
  {
    var h, h' := s.spine, s'.spine;
    forall i | 0 <= i < |h'| ensures Logged(body, s'.log, h', i) {
      assert h'[..i] == h[..i];
      if i < |h| {
        assert Logged(body, s.log, h, i);
        PositionsGrow(body, s.log, h, i, |h|);
        assert h[..|h|] == h;
      } else {
        assert h[..i] == h;
      }
    }
  }

  lemma OwnRowKeepsWakes(body: Body, s: State, s': State, op: OpRow, i: nat)
    requires SpineInv(body, s) && Appended(body, s, s', op) && i <= |s'.spine|
    ensures WakesAt(body, s', i)
  {
    var h, h' := s.spine, s'.spine;
    if i < |h| {
      OldWakeKept(body, s, s', op, i);
    } else if i == |h| {
      assert h'[..i] == h == h[..i];
      assert WakesAt(body, s, i);
    } else {
      assert h'[..i] == h';
      PositionStep(body, h, h'[|h|]);
    }
  }

  lemma OldWakeKept(body: Body, s: State, s': State, op: OpRow, i: nat)
    requires SpineInv(body, s) && Appended(body, s, s', op) && i < |s.spine|
    ensures WakesAt(body, s', i)
  {
    var h := s.spine;
    assert s'.spine[..i] == h[..i] && h[..|h|] == h;
    assert WakesAt(body, s, i);
    PositionsGrow(body, s.log, h, i, |h|);
  }

  /** What stays below the end of the spine when its own row is added. */
  lemma OwnRowIsLast(body: Body, s: State, s': State, op: OpRow)
    requires SpineInv(body, s) && Appended(body, s, s', op)
    ensures body(s'.spine).Return? || Position(body, s'.spine) !in s'.log
    ensures forall k :: k in s'.log ==>
              k < Position(body, s'.spine) || (body(s'.spine).Wait? && k == Position(body, s'.spine) + 1)
    ensures forall k :: k in s'.initial ==> k in s'.log && s'.log[k] == s'.initial[k]
  {
    PositionStep(body, s.spine, s'.spine[|s.spine|]);
  }

  lemma OwnRowKeepsSpine(body: Body, s: State, s': State, op: OpRow)
    requires SpineInv(body, s) && Appended(body, s, s', op)
    ensures SpineInv(body, s')
  {
    OwnRowIsLast(body, s, s', op);
    OwnRowIsLogged(body, s, s', op);
    forall i | 0 <= i <= |s'.spine| ensures WakesAt(body, s', i) {
      OwnRowKeepsWakes(body, s, s', op, i);
    }
  }

  lemma DeadlineRowKeepsSpine(body: Body, s: State, s': State, op: OpRow)
    requires SpineInv(body, s) && body(s.spine).Wait? && IsWake(op)
    requires var k := Position(body, s.spine) + 1;
             k !in s.log && s'.log == s.log[k := op] && (k, op.output.ms) in s.asked &&
             s'.spine == s.spine && s'.asked == s.asked && s'.initial == s.initial
    ensures SpineInv(body, s')
  {
    var h := s.spine;
    assert h[..|h|] == h;
    forall i | 0 <= i < |h| ensures Logged(body, s'.log, h, i) {
      assert Logged(body, s.log, h, i);
      PositionsGrow(body, s.log, h, i, |h|);
    }
    forall i | 0 <= i <= |h| ensures WakesAt(body, s', i) {
      assert WakesAt(body, s, i);
      if i < |h| { PositionsGrow(body, s.log, h, i, |h|); }
    }
  }

  // ---- every step ----

  /** A step that leaves the log alone keeps what it keeps of the rest. */
  lemma SameLogKeepsExec(body: Body, s: State, s': State, x: Exec)
    requires ExecInv(body, s, x)
    requires s'.log == s.log && s'.spine == s.spine && s.asked <= s'.asked
    requires x.phase.Stopped? ==> s'.status == Cancelled
    ensures ExecInv(body, s', x)
  {
  }

  lemma SameLogKeepsSpine(body: Body, s: State, s': State)
    requires SpineInv(body, s)
    requires s'.log == s.log && s'.spine == s.spine && s.asked <= s'.asked && s'.initial == s.initial
    ensures SpineInv(body, s')
  {
    forall i | 0 <= i <= |s.spine| ensures WakesAt(body, s', i) {
      assert WakesAt(body, s, i);
    }
  }

  /** A step of one execution that leaves the log and the row alone. */
  lemma LocalStepKeepsInv(body: Body, s: State, s': State, e: nat)
    requires Inv(body, s) && e in s.execs && e in s'.execs
    requires s'.execs == s.execs[e := s'.execs[e]]
    requires s'.log == s.log && s'.spine == s.spine && s'.initial == s.initial && s'.last == s.last
    requires s'.status == s.status && s'.outcome == s.outcome && s.asked <= s'.asked && s'.spawned == s.spawned
    requires ExecInv(body, s', s'.execs[e])
    requires s.last == Some(e) ==>
               !s'.execs[e].phase.Lost? && !s'.execs[e].phase.Denied? && AtEnd(body, s', s'.execs[e])
    ensures Inv(body, s')
  {
    SameLogKeepsSpine(body, s, s');
    forall o | o in s'.execs ensures ExecInv(body, s', s'.execs[o]) {
      if o != e { SameLogKeepsExec(body, s, s', s.execs[o]); }
    }
  }

  lemma CheckKeepsInv(body: Body, s: State, e: nat)
    requires Inv(body, s) && Enabled(body, s, Check(e), false)
    ensures Inv(body, Apply(body, s, Check(e)))
  {
    assert ExecInv(body, s, s.execs[e]);
    CheckKeepsExec(body, s, s.execs[e]);
    SameLogKeepsExec(body, s, Apply(body, s, Check(e)), AfterCheck(body, s, s.execs[e]));
    LocalStepKeepsInv(body, s, Apply(body, s, Check(e)), e);
  }

  lemma ProduceKeepsInv(body: Body, s: State, v: Event)
    requires Inv(body, s) && Enabled(body, s, v, false)
    requires v.Ask? || v.RunClosure? || v.RunPublish? || v.Wake?
    ensures Inv(body, Apply(body, s, v))
  {
    var x := s.execs[v.e];
    assert ExecInv(body, s, x);
    ProducedExec(body, s, v);
    LocalStepKeepsInv(body, s, Apply(body, s, v), v.e);
  }

  lemma ProducedExec(body: Body, s: State, v: Event)
    requires SpineInv(body, s) && Enabled(body, s, v, false)
    requires v.Ask? || v.RunClosure? || v.RunPublish? || v.Wake?
    requires v.e in s.execs && ExecInv(body, s, s.execs[v.e])
    ensures var s' := Apply(body, s, v);
            v.e in s'.execs && s'.execs == s.execs[v.e := s'.execs[v.e]] && ExecInv(body, s', s'.execs[v.e]) &&
            !s'.execs[v.e].phase.Lost? && !s'.execs[v.e].phase.Denied? &&
            (AtEnd(body, s, s.execs[v.e]) ==> AtEnd(body, s', s'.execs[v.e]))
  {
    if v.RunClosure? { ReplayShowsTheSame(OpName(body(s.execs[v.e].hist)), v.r); }
  }

  /** Finding a row that was left behind is no fate of the latest inserter. */
  lemma ClashKeepsInv(body: Body, s: State, e: nat)
    requires Inv(body, s) && Enabled(body, s, Clash(e), false)
    ensures Inv(body, Apply(body, s, Clash(e)))
  {
    assert ExecInv(body, s, s.execs[e]);
    LocalStepKeepsInv(body, s, Apply(body, s, Clash(e)), e);
  }

  /** Losing an insert: only a wake time can be lost by the latest inserter. */
  lemma LostInsertKeepsInv(body: Body, s: State, e: nat)
    requires Inv(body, s) && Enabled(body, s, Insert(e), false)
    requires SlotId(body, s.execs[e].hist, s.execs[e].phase.slot) in s.log
    ensures Inv(body, AfterInsert(body, s, e))
  {
    var x := s.execs[e];
    assert ExecInv(body, s, x);
    LocalStepKeepsInv(body, s, AfterInsert(body, s, e), e);
  }

  /** Winning the insert of a deadline. */
  lemma DeadlineInsertKeepsInv(body: Body, s: State, e: nat)
    requires Inv(body, s) && Enabled(body, s, Insert(e), false) && s.execs[e].phase.slot == Deadline
    requires SlotId(body, s.execs[e].hist, Deadline) !in s.log
    ensures Inv(body, AfterInsert(body, s, e))
  {
    var x, s' := s.execs[e], AfterInsert(body, s, e);
    assert ExecInv(body, s, x);
    AtFrontier(body, s, x.hist);
    DeadlineRowKeepsSpine(body, s, s', x.phase.op);
    forall o | o in s'.execs && o != e ensures ExecInv(body, s', s'.execs[o]) {
      GrowthKeepsExec(body, s, s', s.execs[o], Position(body, s.spine) + 1, x.phase.op);
    }
  }

  /** Winning the insert of an own row: the spine gains the result. */
  lemma OwnInsertKeepsInv(body: Body, s: State, e: nat)
    requires Inv(body, s) && Enabled(body, s, Insert(e), false) && s.execs[e].phase.slot == Own
    requires SlotId(body, s.execs[e].hist, Own) !in s.log
    ensures Inv(body, AfterInsert(body, s, e))
    ensures s.execs[e].hist == s.spine && AfterInsert(body, s, e).spine[..|s.spine|] == s.spine
  {
    var x, s' := s.execs[e], AfterInsert(body, s, e);
    OwnInserted(body, s, e);
    forall t | t in s.spawned ensures Enqueues(body, s'.spine, t, s.spawned[t]) {
      EnqueuesGrows(body, s.spine, s'.spine, t, s.spawned[t]);
    }
    forall o | o in s'.execs && o != e ensures ExecInv(body, s', s'.execs[o]) {
      GrowthKeepsExec(body, s, s', s.execs[o], Position(body, s.spine), x.phase.op);
    }
  }

  lemma OwnInserted(body: Body, s: State, e: nat)
    requires Inv(body, s) && Enabled(body, s, Insert(e), false) && s.execs[e].phase.slot == Own
    requires SlotId(body, s.execs[e].hist, Own) !in s.log
    ensures var s' := AfterInsert(body, s, e);
            s.execs[e].hist == s.spine && s'.spine[..|s.spine|] == s.spine && SpineInv(body, s') &&
            e in s'.execs && s'.execs == s.execs[e := s'.execs[e]] && ExecInv(body, s', s'.execs[e])
  {
    var x, s' := s.execs[e], AfterInsert(body, s, e);
    assert ExecInv(body, s, x);
    AtFrontier(body, s, x.hist);
    OwnRowKeepsSpine(body, s, s', x.phase.op);
  }

  lemma InsertKeepsInv(body: Body, s: State, e: nat)
    requires Inv(body, s) && Enabled(body, s, Insert(e), false)
    ensures Inv(body, AfterInsert(body, s, e))
  {
    if SlotId(body, s.execs[e].hist, s.execs[e].phase.slot) in s.log {
      LostInsertKeepsInv(body, s, e);
    } else if s.execs[e].phase.slot == Own {
      OwnInsertKeepsInv(body, s, e);
    } else {
      DeadlineInsertKeepsInv(body, s, e);
    }
  }

  lemma SpawnKeepsInv(body: Body, s: State, e: nat, child: Id)
    requires Inv(body, s) && Enabled(body, s, SpawnChild(e, child), false)
    ensures Inv(body, Apply(body, s, SpawnChild(e, child)))
  {
    SpawningKeepsInv(body, s, e, child);
    InsertKeepsInv(body, Spawning(body, s, e, child), e);
  }

  /** The state a child spawn inserts from. */
  function Spawning(body: Body, s: State, e: nat, child: Id): State
    requires e in s.execs && body(s.execs[e].hist).Child?
  {
    var h := s.execs[e].hist;
    Put(s, e, Exec(h, Ran(Own, OpRow(body(h).name, Null, None, Some(child)))))
  }

  lemma SpawningKeepsInv(body: Body, s: State, e: nat, child: Id)
    requires Inv(body, s) && Enabled(body, s, SpawnChild(e, child), false)
    ensures Inv(body, Spawning(body, s, e, child))
  {
    assert ExecInv(body, s, s.execs[e]);
    LocalStepKeepsInv(body, s, Spawning(body, s, e, child), e);
  }

  /** The spine with one more unrecorded answer. */
  lemma HeardKeepsSpine(body: Body, s: State, s': State)
    requires SpineInv(body, s) && AnswerOf(body(s.spine)).Some?
    requires s'.log == s.log && s'.spine == s.spine + [AnswerOf(body(s.spine)).value]
    requires s'.asked == s.asked && s'.initial == s.initial
    ensures SpineInv(body, s')
  {
    var h, h' := s.spine, s'.spine;
    PositionStep(body, h, h'[|h|]);
    assert h[..|h|] == h;
    forall i | 0 <= i < |h'| ensures Logged(body, s'.log, h', i) {
      assert h'[..i] == h[..i];
      if i < |h| { assert Logged(body, s.log, h, i); }
    }
    forall i | 0 <= i <= |h'| ensures WakesAt(body, s', i) {
      if i <= |h| {
        assert h'[..i] == h[..i];
        assert WakesAt(body, s, i);
      } else {
        assert h'[..i] == h';
      }
    }
  }

  lemma HeardKeepsExec(body: Body, s: State, s': State, x: Exec)
    requires ExecInv(body, s, x) && AnswerOf(body(s.spine)).Some?
    requires s'.log == s.log && s.spine <= s'.spine && s'.asked == s.asked && s'.status == s.status
    ensures ExecInv(body, s', x)
  {
  }

  /** An unrecorded answer takes an execution along the spine, or to one step past its end. */
  lemma HeardKeepsInv(body: Body, s: State, e: nat, r: Seen)
    requires Inv(body, s) && e in s.execs && AnswerOf(body(s.execs[e].hist)) == Some(r)
    ensures Inv(body, Heard(s, e, r))
    ensures Heard(s, e, r).spine <= s.spine + [r] && s.spine <= Heard(s, e, r).spine
    ensures s.execs[e].hist + [r] <= Heard(s, e, r).spine
  {
    var h, s' := s.execs[e].hist, Heard(s, e, r);
    assert ExecInv(body, s, s.execs[e]);
    NextPrefix(h, s.spine);
    if h == s.spine {
      HeardKeepsSpine(body, s, s');
      HeardAtEnd(body, s, e, r);
    } else {
      LoggedAt(body, s.log, s.spine, h);
      SameLogKeepsSpine(body, s, s');
      HeardBehind(body, s, e, r);
    }
  }

  lemma HeardAtEnd(body: Body, s: State, e: nat, r: Seen)
    requires Inv(body, s) && e in s.execs && s.execs[e].hist == s.spine && AnswerOf(body(s.spine)) == Some(r)
    ensures var s' := Heard(s, e, r);
            OutcomeInv(body, s') && LastInv(body, s') && forall o :: o in s'.execs ==> ExecInv(body, s', s'.execs[o])
  {
    var s' := Heard(s, e, r);
    assert forall i :: 0 <= i <= |s.spine| ==> s'.spine[..i] == s.spine[..i];
    assert s.spine[..|s.spine|] == s.spine;
    forall o | o in s'.execs ensures ExecInv(body, s', s'.execs[o]) {
      if o != e { HeardKeepsExec(body, s, s', s.execs[o]); }
    }
    forall t | t in s'.spawned ensures Enqueues(body, s'.spine, t, s'.spawned[t]) {
      EnqueuesGrows(body, s.spine, s'.spine, t, s.spawned[t]);
    }
  }

  lemma HeardBehind(body: Body, s: State, e: nat, r: Seen)
    requires Inv(body, s) && e in s.execs
    requires s.execs[e].hist + [r] <= s.spine && s.execs[e].hist != s.spine
    ensures var s' := Heard(s, e, r);
            OutcomeInv(body, s') && LastInv(body, s') && forall o :: o in s'.execs ==> ExecInv(body, s', s'.execs[o])
  {
    var s' := Heard(s, e, r);
    forall o | o in s'.execs ensures ExecInv(body, s', s'.execs[o]) {
      if o != e { SameLogKeepsExec(body, s, s', s.execs[o]); }
    }
  }

  lemma SpawnedIsApart(body: Body, s: State, s': State)
    requires Inv(body, s) && s' == s.(spawned := s'.spawned)
    ensures SpineInv(body, s') && LastInv(body, s') && forall o :: o in s'.execs ==> ExecInv(body, s', s'.execs[o])
  {
    SameLogKeepsSpine(body, s, s');
    forall o | o in s'.execs ensures ExecInv(body, s', s'.execs[o]) {
      SameLogKeepsExec(body, s, s', s.execs[o]);
    }
  }

  // ---- a row left behind ----

  /** No recorded action takes the id of one that is told its answer. */
  lemma ToldIdIsApart(body: Body, s: State, h: seq<Seen>, i: nat)
    requires SpineInv(body, s) && h <= s.spine && body(h).Told? && body(h).takesId
    requires i <= |s.spine| && i != |h|
    ensures i > |h| ==> Position(body, h) < Position(body, s.spine[..i])
    ensures i < |h| ==> Position(body, s.spine[..i]) + Width(body(s.spine[..i])) <= Position(body, h)
  {
    assert s.spine[..|h|] == h;
    if i < |h| {
      PositionsGrow(body, s.log, s.spine, i, |h|);
    } else {
      PositionsGrow(body, s.log, s.spine, |h|, i);
    }
  }

  lemma LeftRowKeepsSpine(body: Body, s: State, s': State, h: seq<Seen>, op: OpRow)
    requires SpineInv(body, s) && h <= s.spine && |h| < |s.spine| && body(h).Told? && body(h).takesId
    requires Position(body, h) !in s.log && s'.log == s.log[Position(body, h) := op] && op.child.Some?
    requires s'.spine == s.spine && s'.asked == s.asked && s'.initial == s.initial
    ensures SpineInv(body, s')
  {
    assert s.spine[..|s.spine|] == s.spine;
    ToldIdIsApart(body, s, h, |s.spine|);
    forall i | 0 <= i < |s.spine| ensures Logged(body, s'.log, s.spine, i) {
      LeftRowKeepsEntry(body, s, s', h, op, i);
    }
    forall i | 0 <= i <= |s.spine| ensures WakesAt(body, s', i) {
      LeftRowKeepsWakes(body, s, s', h, op, i);
    }
  }

  lemma LeftRowKeepsEntry(body: Body, s: State, s': State, h: seq<Seen>, op: OpRow, i: nat)
    requires SpineInv(body, s) && h <= s.spine && |h| < |s.spine| && body(h).Told? && body(h).takesId && op.child.Some?
    requires Position(body, h) !in s.log && s'.log == s.log[Position(body, h) := op] && i < |s.spine|
    ensures Logged(body, s'.log, s.spine, i)
  {
    assert Logged(body, s.log, s.spine, i);
    if i == |h| {
      NextPrefix(h, s.spine);
    } else {
      ToldIdIsApart(body, s, h, i);
    }
  }

  lemma LeftRowKeepsWakes(body: Body, s: State, s': State, h: seq<Seen>, op: OpRow, i: nat)
    requires SpineInv(body, s) && h <= s.spine && |h| < |s.spine| && body(h).Told? && body(h).takesId
    requires Position(body, h) !in s.log && s'.log == s.log[Position(body, h) := op] && i <= |s.spine|
    requires s'.spine == s.spine && s'.asked == s.asked && s'.initial == s.initial
    ensures WakesAt(body, s', i)
  {
    assert WakesAt(body, s, i);
    if i == |h| {
      NextPrefix(h, s.spine);
    } else {
      ToldIdIsApart(body, s, h, i);
    }
  }

  lemma LeftRowKeepsExec(body: Body, s: State, s': State, h: seq<Seen>, op: OpRow, x: Exec)
    requires SpineInv(body, s) && ExecInv(body, s, x) && h <= s.spine && |h| < |s.spine|
    requires body(h).Told? && body(h).takesId && Position(body, h) !in s.log
    requires s'.log == s.log[Position(body, h) := op]
    requires s'.spine == s.spine && s'.asked == s.asked && s'.status == s.status
    ensures ExecInv(body, s', x)
  {
    NextPrefix(h, s.spine);
    NextPrefix(x.hist, s.spine);
    if |x.hist| != |h| { ToldIdIsApart(body, s, h, |x.hist|); }
  }

  lemma LeftRowKeepsInv(body: Body, s: State, e: nat, h: seq<Seen>, op: OpRow)
    requires Inv(body, s) && e in s.execs && s.execs[e].phase.Ready?
    requires h <= s.spine && |h| < |s.spine| && body(h).Told? && body(h).takesId && Position(body, h) !in s.log
    requires op.child.Some?
    ensures Inv(body, s.(log := s.log[Position(body, h) := op], last := Some(e)))
  {
    var s' := s.(log := s.log[Position(body, h) := op], last := Some(e));
    LeftRowKeepsSpine(body, s, s', h, op);
    forall o | o in s'.execs ensures ExecInv(body, s', s'.execs[o]) {
      LeftRowKeepsExec(body, s, s', h, op, s.execs[o]);
    }
  }

  lemma LeaveKeepsInv(body: Body, s: State, e: nat, op: OpRow)
    requires Inv(body, s) && Enabled(body, s, Leave(e, op), false)
    ensures Inv(body, Apply(body, s, Leave(e, op)))
  {
    var h := s.execs[e].hist;
    HeardKeepsInv(body, s, e, body(h).answer);
    LeftRowKeepsInv(body, Heard(s, e, body(h).answer), e, h, op);
  }

  /** The row enqueued is the one the body asks for at that point. */
  lemma EnqueueKeepsInv(body: Body, s: State, e: nat)
    requires Inv(body, s) && Enabled(body, s, EnqueueRow(e), false)
    ensures Inv(body, Apply(body, s, EnqueueRow(e)))
  {
    var h, a := s.execs[e].hist, body(s.execs[e].hist);
    HeardKeepsInv(body, s, e, Got(Null));
    var s1, s' := Heard(s, e, Got(Null)), Apply(body, s, EnqueueRow(e));
    assert s' == s1.(spawned := s'.spawned);
    SpawnedIsApart(body, s1, s');
    forall t | t in s'.spawned ensures Enqueues(body, s'.spine, t, s'.spawned[t]) {
      if t !in s.spawned {
        assert s'.spine[..|h|] == h;
        assert EnqueuesAt(body, s'.spine, t, s'.spawned[t], |h|);
      }
    }
  }

  /** Writing what the body returns at the end of the spine, unless the row is cancelled. */
  lemma WrittenKeepsInv(body: Body, s: State, out: Seen)
    requires Inv(body, s)
    requires s.status == Cancelled || (body(s.spine).Return? && out == body(s.spine).out)
    ensures Inv(body, Written(s, out))
  {
    var s' := Written(s, out);
    SameLogKeepsSpine(body, s, s');
    forall o | o in s'.execs ensures ExecInv(body, s', s'.execs[o]) {
      assert ExecInv(body, s, s.execs[o]);
      SameLogKeepsExec(body, s, s', s.execs[o]);
    }
  }

  /** The end of a body: it can only be reached along the whole spine. */
  lemma ReturnKeepsInv(body: Body, s: State, e: nat)
    requires Inv(body, s) && Enabled(body, s, WriteOutcome(e), false)
    ensures Inv(body, Apply(body, s, WriteOutcome(e)))
    ensures s.execs[e].hist == s.spine
  {
    var x := s.execs[e];
    assert ExecInv(body, s, x);
    AtFrontier(body, s, x.hist);
    var out := body(x.hist).out;
    WrittenKeepsInv(body, s, out);
    LocalStepKeepsInv(body, Written(s, out), Apply(body, s, WriteOutcome(e)), e);
  }

  lemma ReadOutcomeKeepsInv(body: Body, s: State, e: nat)
    requires Inv(body, s) && Enabled(body, s, ReadOutcome(e), false)
    ensures Inv(body, Apply(body, s, ReadOutcome(e)))
  {
    assert ExecInv(body, s, s.execs[e]);
    LocalStepKeepsInv(body, s, Apply(body, s, ReadOutcome(e)), e);
  }

  /** The only error an execution writes of its own accord is a cancellation, and that write
      is refused. */
  lemma WriteErrorKeepsInv(body: Body, s: State, e: nat)
    requires Inv(body, s) && Enabled(body, s, WriteError(e), false)
    ensures Inv(body, Apply(body, s, WriteError(e)))
    ensures Apply(body, s, WriteError(e)) == s.(execs := s.execs - {e})
  {
    assert ExecInv(body, s, s.execs[e]);
    SameLogKeepsSpine(body, s, Apply(body, s, WriteError(e)));
    forall o | o in s.execs - {e} ensures ExecInv(body, Apply(body, s, WriteError(e)), s.execs[o]) {
      assert ExecInv(body, s, s.execs[o]);
      SameLogKeepsExec(body, s, Apply(body, s, WriteError(e)), s.execs[o]);
    }
  }

  /** A change of status that decides nothing, and takes no cancellation back that an
      execution has seen. */
  lemma StatusKeepsInv(body: Body, s: State, s': State)
    requires Inv(body, s) && s' == s.(status := s'.status)
    requires s'.status == Success || s'.status == Error ==> s'.status == s.status
    requires s'.status == Cancelled || NoneStopped(s)
    ensures Inv(body, s')
  {
    SameLogKeepsSpine(body, s, s');
    forall o | o in s'.execs ensures ExecInv(body, s', s'.execs[o]) {
      SameLogKeepsExec(body, s, s', s.execs[o]);
    }
  }

  lemma StatusStepKeepsInv(body: Body, s: State, v: Event)
    requires Inv(body, s) && Enabled(body, s, v, false)
    requires v.CancelRow? || v.ResumeRow? || v.ParkRow?
    ensures Inv(body, Apply(body, s, v))
  {
    StatusStep(body, s, v);
    StatusKeepsInv(body, s, Apply(body, s, v));
  }

  lemma StatusStep(body: Body, s: State, v: Event)
    requires Inv(body, s) && Enabled(body, s, v, false)
    requires v.CancelRow? || v.ResumeRow? || v.ParkRow?
    ensures var s' := Apply(body, s, v);
            s' == s.(status := s'.status) &&
            (s'.status == Success || s'.status == Error ==> s'.status == s.status) &&
            (s'.status == Cancelled || NoneStopped(s))
  {
    forall o | o in s.execs && s.execs[o].phase.Stopped? ensures s.status == Cancelled {
      assert ExecInv(body, s, s.execs[o]);
    }
  }

  lemma ControlKeepsInv(body: Body, s: State, v: Event)
    requires Inv(body, s) && Enabled(body, s, v, false)
    requires v.Launch? || v.Crash?
    ensures Inv(body, Apply(body, s, v))
  {
    var s' := Apply(body, s, v);
    SameLogKeepsSpine(body, s, s');
    forall o | o in s'.execs ensures ExecInv(body, s', s'.execs[o]) {
      if o in s.execs {
        SameLogKeepsExec(body, s, s', s.execs[o]);
      }
    }
  }

  lemma StepKeepsInv(body: Body, s: State, v: Event, s': State, solo: bool)
    requires Inv(body, s) && Next(body, s, v, s', solo)
    ensures Inv(body, s')
  {
    EnabledAnyway(body, s, v, solo);
    EventKeepsInv(body, s, v);
  }

  lemma EnabledAnyway(body: Body, s: State, v: Event, solo: bool)
    requires Enabled(body, s, v, solo)
    ensures Enabled(body, s, v, false)
  {
  }

  lemma EventKeepsInv(body: Body, s: State, v: Event)
    requires Inv(body, s) && Enabled(body, s, v, false)
    ensures Inv(body, Apply(body, s, v))
  {
    if v.Check? {
      CheckKeepsInv(body, s, v.e);
    } else if v.Clash? {
      ClashKeepsInv(body, s, v.e);
    } else if v.Insert? {
      InsertKeepsInv(body, s, v.e);
    } else if v.SpawnChild? {
      SpawnKeepsInv(body, s, v.e, v.child);
    } else if v.WriteOutcome? {
      ReturnKeepsInv(body, s, v.e);
    } else if v.ReadOutcome? {
      ReadOutcomeKeepsInv(body, s, v.e);
    } else if v.WriteError? {
      WriteErrorKeepsInv(body, s, v.e);
    } else {
      OtherStepKeepsInv(body, s, v);
    }
  }

  lemma OtherStepKeepsInv(body: Body, s: State, v: Event)
    requires Inv(body, s) && Enabled(body, s, v, false)
    requires !v.Check? && !v.Clash? && !v.Insert? && !v.SpawnChild? && !v.WriteOutcome? && !v.ReadOutcome? && !v.WriteError?
    ensures Inv(body, Apply(body, s, v))
  {
    if v.Hear? {
      HeardKeepsInv(body, s, v.e, body(s.execs[v.e].hist).answer);
    } else if v.Leave? {
      LeaveKeepsInv(body, s, v.e, v.op);
    } else if v.EnqueueRow? {
      EnqueueKeepsInv(body, s, v.e);
    } else if v.Launch? || v.Crash? {
      ControlKeepsInv(body, s, v);
    } else if v.CancelRow? || v.ResumeRow? || v.ParkRow? {
      StatusStepKeepsInv(body, s, v);
    } else {
      ProduceKeepsInv(body, s, v);
    }
  }

  lemma {:induction false} RunKeepsInv(body: Body, ss: seq<State>, vs: seq<Event>, solo: bool)
    requires Run(body, ss, vs, solo) && Inv(body, ss[0])
    ensures forall k :: 0 <= k < |ss| ==> Inv(body, ss[k])
  {
    if |vs| > 0 {
      var n := |vs| - 1;
      RunKeepsInv(body, ss[..n + 1], vs[..n], solo);
      assert Inv(body, ss[..n + 1][n]);
      StepKeepsInv(body, ss[n], vs[n], ss[n + 1], solo);
      forall k | 0 <= k < |ss| ensures Inv(body, ss[k]) {
        if k <= n { assert ss[k] == ss[..n + 1][k]; }
      }
    }
  }
}
