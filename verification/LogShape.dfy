/** The shape of the step log of a workflow that was not forked. */
module LogShape {
  import opened Wrappers
  import opened Tables
  import opened StepLog
  import opened Replay
  import opened ReplayInv
  import opened Durable

  /** The i-th action of the spine records its results, and n is one of its ids. */
  predicate RecordedAt(body: Body, spine: seq<Seen>, n: int, i: nat) {
    i < |spine| && AnswerOf(body(spine[..i])).None? &&
    Position(body, spine[..i]) <= n < Position(body, spine[..i]) + Width(body(spine[..i]))
  }

  ghost predicate Recorded(body: Body, spine: seq<Seen>, n: int) {
    exists i: nat :: RecordedAt(body, spine, n, i)
  }

  /** The id of an action that is told its answer; a row left there is read by nobody. */
  predicate LeftAt(body: Body, spine: seq<Seen>, n: int, i: nat) {
    i < |spine| && body(spine[..i]).Told? && body(spine[..i]).takesId && n == Position(body, spine[..i])
  }

  ghost predicate Left(body: Body, spine: seq<Seen>, n: int) {
    exists i: nat :: LeftAt(body, spine, n, i)
  }

  /** The id of the deadline of a wait that has not ended yet. */
  predicate Pending(body: Body, spine: seq<Seen>, n: int) {
    body(spine).Wait? && n == Position(body, spine) + 1
  }

  /** Every wait of the spine has its deadline in the log, and ids are not negative. */
  ghost predicate Full(body: Body, s: State) {
    (forall i :: 0 <= i < |s.spine| && body(s.spine[..i]).Wait? ==> Position(body, s.spine[..i]) + 1 in s.log) &&
    forall n :: n in s.log ==> n >= 0
  }

  /** Every id below the end belongs to some action of the history. */
  lemma {:induction false} SomeActionTakes(body: Body, log: Log, h: seq<Seen>, n: nat) returns (i: nat)
    requires Follows(body, log, h) && n < Position(body, h)
    ensures i < |h| && Position(body, h[..i]) <= n < Position(body, h[..i]) + Width(body(h[..i]))
  {
    var m := |h| - 1;
    if n < Position(body, h[..m]) {
      FollowsPrefix(body, log, h[..m], h);
      i := SomeActionTakes(body, log, h[..m], n);
      assert h[..m][..i] == h[..i];
    } else {
      i := m;
    }
  }

  /** A longer spine whose last wait, if it is one, has its deadline. */
  lemma GrowthKeepsFull(body: Body, s: State, s': State)
    requires Full(body, s) && Grows(s, s') && forall n :: n in s'.log ==> n >= 0
    requires s'.spine == s.spine || (|s'.spine| == |s.spine| + 1 && (body(s.spine).Wait? ==> Position(body, s.spine) + 1 in s.log))
    ensures Full(body, s')
  {
    forall i | 0 <= i < |s'.spine| && body(s'.spine[..i]).Wait? ensures Position(body, s'.spine[..i]) + 1 in s'.log {
      assert i <= |s.spine| && s'.spine[..i] == s.spine[..i];
      if i == |s.spine| { assert s.spine[..i] == s.spine; }
    }
  }

  lemma InsertKeepsFull(body: Body, s: State, e: nat)
    requires Inv(body, s) && Full(body, s) && Enabled(body, s, Insert(e), false)
    ensures Full(body, AfterInsert(body, s, e))
  {
    var x := s.execs[e];
    assert ExecInv(body, s, x);
    InsertGrows(body, s, e);
    if x.phase.slot == Own && Position(body, x.hist) !in s.log { AtFrontier(body, s, x.hist); }
    GrowthKeepsFull(body, s, AfterInsert(body, s, e));
  }

  lemma SpawnKeepsFull(body: Body, s: State, e: nat, child: Id)
    requires Inv(body, s) && Full(body, s) && Enabled(body, s, SpawnChild(e, child), false)
    ensures Full(body, Apply(body, s, SpawnChild(e, child)))
  {
    SpawningKeepsInv(body, s, e, child);
    SpawnIsInsert(body, s, e, child);
    InsertKeepsFull(body, Spawning(body, s, e, child), e);
  }

  lemma HearKeepsFull(body: Body, s: State, v: Event)
    requires Full(body, s) && Enabled(body, s, v, false) && Hears(v)
    ensures Full(body, Apply(body, s, v))
  {
    var s' := Apply(body, s, v);
    assert forall i :: 0 <= i <= |s.spine| ==> s'.spine[..i] == s.spine[..i];
    assert s.spine[..|s.spine|] == s.spine;
  }

  lemma StepKeepsFull(body: Body, s: State, v: Event, s': State, solo: bool)
    requires Inv(body, s) && Full(body, s) && Next(body, s, v, s', solo)
    ensures Full(body, s')
  {
    if v.Insert? {
      InsertKeepsFull(body, s, v.e);
    } else if v.SpawnChild? {
      SpawnKeepsFull(body, s, v.e, v.child);
    } else if Hears(v) {
      HearKeepsFull(body, s, v);
    } else {
      OthersKeepLog(body, s, v);
    }
  }

  lemma {:induction false} RunKeepsFull(body: Body, ss: seq<State>, vs: seq<Event>, solo: bool, k: nat)
    requires Run(body, ss, vs, solo) && Init(body, ss[0]) && ss[0].log == map[] && k <= |vs|
    ensures Inv(body, ss[k]) && Full(body, ss[k])
  {
    InitMeetsInv(body, ss[0]);
    RunKeepsInv(body, ss, vs, solo);
    if k == 0 {
      forall i | 0 <= i < |ss[0].spine| ensures !body(ss[0].spine[..i]).Wait? {
        assert Logged(body, ss[0].log, ss[0].spine, i);
      }
    } else {
      RunKeepsFull(body, ss, vs, solo, k - 1);
      StepKeepsFull(body, ss[k - 1], vs[k - 1], ss[k], solo);
    }
  }

  lemma RecordedIsLogged(body: Body, s: State, n: int, i: nat)
    requires SpineInv(body, s) && Full(body, s) && RecordedAt(body, s.spine, n, i)
    ensures n in s.log && n < Position(body, s.spine)
  {
    assert Logged(body, s.log, s.spine, i);
    PositionsGrow(body, s.log, s.spine, i, |s.spine|);
    assert s.spine[..|s.spine|] == s.spine;
  }

  lemma LoggedIsRecorded(body: Body, s: State, n: int)
    requires SpineInv(body, s) && Full(body, s) && n in s.log
    ensures Recorded(body, s.spine, n) || Left(body, s.spine, n) || Pending(body, s.spine, n)
  {
    if n < Position(body, s.spine) {
      var i := SomeActionTakes(body, s.log, s.spine, n);
      assert Logged(body, s.log, s.spine, i);
      assert RecordedAt(body, s.spine, n, i) || LeftAt(body, s.spine, n, i);
    }
  }

  /** In every state of every run of a workflow that started with an empty log, the log has
      exactly the ids of the recorded actions, both of a wait's, and at most one more: the
      deadline of the wait that comes next. The only gaps are the ids of actions that record
      nothing and the one below that deadline; a row at the id of such an action was left there
      by a spawn that failed. */
  lemma UnforkedLogHasNoGap(body: Body, ss: seq<State>, vs: seq<Event>, solo: bool, k: nat, n: int)
    requires Run(body, ss, vs, solo) && Init(body, ss[0]) && ss[0].log == map[] && k <= |vs|
    ensures Recorded(body, ss[k].spine, n) ==> n in ss[k].log
    ensures n in ss[k].log ==>
              Recorded(body, ss[k].spine, n) || Left(body, ss[k].spine, n) || Pending(body, ss[k].spine, n)
    ensures Pending(body, ss[k].spine, n) ==> !Recorded(body, ss[k].spine, n) && n - 1 !in ss[k].log
  {
    RunKeepsFull(body, ss, vs, solo, k);
    var s := ss[k];
    forall i: nat | RecordedAt(body, s.spine, n, i) ensures n in s.log && n < Position(body, s.spine) {
      RecordedIsLogged(body, s, n, i);
    }
    if n in s.log { LoggedIsRecorded(body, s, n); }
  }
}
