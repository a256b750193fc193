/** Published events and their history. */
module Events {
  import opened Wrappers
  import opened Tables
  import opened StepLog
  import opened Replay
  import opened ReplayInv
  import opened Durable
  import opened Reruns

  type History = map<(int, string), Payload>

  /** The history entry of the key with the greatest step id. */
  ghost predicate Latest(history: History, key: string, i: int) {
    (i, key) in history && forall j :: (j, key) in history ==> j <= i
  }

  /** The current value of the key is the latest one of its history. */
  ghost predicate AgreesOn(events: map<string, Payload>, history: History, key: string) {
    if key in events then exists i :: Latest(history, key, i) && history[(i, key)] == events[key]
    else forall i :: (i, key) !in history
  }

  ghost predicate Agrees(s: State) {
    forall key :: AgreesOn(s.events, s.history, key)
  }

  /** Publishing keeps the agreement exactly when the history has nothing later for the key,
      or its latest value is the same: an execution that is behind overwrites the current
      value but not the history's latest. */
  lemma PublishKeepsAgreementIff(events: map<string, Payload>, history: History, n: int, key: string, value: Payload)
    requires AgreesOn(events, history, key)
    ensures AgreesOn(events[key := value], history[(n, key) := value], key)
            <==> forall i :: Latest(history, key, i) && i > n ==> history[(i, key)] == value
  {
    var events', history' := events[key := value], history[(n, key) := value];
    if key in events {
      var i :| Latest(history, key, i) && history[(i, key)] == events[key];
      if i > n {
        assert Latest(history', key, i);
        assert forall j :: Latest(history', key, j) ==> j == i;
      } else {
        assert Latest(history', key, n);
      }
    } else {
      assert Latest(history', key, n);
    }
  }

  lemma PublishKeepsOtherKeys(events: map<string, Payload>, history: History, n: int, key: string, value: Payload, other: string)
    requires AgreesOn(events, history, other) && other != key
    ensures AgreesOn(events[key := value], history[(n, key) := value], other)
  {
    if other in events {
      var i :| Latest(history, other, i) && history[(i, other)] == events[other];
      assert Latest(history[(n, key) := value], other, i);
    }
  }

  /** A history entry was published at the point of the spine whose step id it carries. */
  ghost predicate PublishedAt(body: Body, s: State, i: int, key: string, j: nat)
    requires (i, key) in s.history
  {
    j <= |s.spine| && Position(body, s.spine[..j]) == i &&
    body(s.spine[..j]) == Publish(key, s.history[(i, key)])
  }

  ghost predicate Sourced(body: Body, s: State) {
    forall i, key :: (i, key) in s.history ==> exists j: nat :: PublishedAt(body, s, i, key, j)
  }

  lemma GrowthKeepsSourced(body: Body, s: State, s': State)
    requires Sourced(body, s) && s.spine <= s'.spine && s'.history == s.history
    ensures Sourced(body, s')
  {
    forall i, key | (i, key) in s'.history ensures exists j: nat :: PublishedAt(body, s', i, key, j) {
      var j: nat :| PublishedAt(body, s, i, key, j);
      assert s'.spine[..j] == s.spine[..j];
      assert PublishedAt(body, s', i, key, j);
    }
  }

  /** Re-publishing a step after a crash writes the same value again, so entries never change. */
  lemma PublishKeepsSourced(body: Body, s: State, e: nat)
    requires Inv(body, s) && Sourced(body, s) && Enabled(body, s, RunPublish(e), false)
    ensures Sourced(body, Apply(body, s, RunPublish(e)))
  {
    var x, s' := s.execs[e], Apply(body, s, RunPublish(e));
    assert ExecInv(body, s, x);
    NextPrefix(x.hist, s.spine);
    var a, n := body(x.hist), Position(body, x.hist);
    forall i, key | (i, key) in s'.history ensures exists j: nat :: PublishedAt(body, s', i, key, j) {
      if (i, key) == (n, a.key) {
        assert PublishedAt(body, s', i, key, |x.hist|);
      } else {
        var j: nat :| PublishedAt(body, s, i, key, j);
        assert PublishedAt(body, s', i, key, j);
      }
    }
  }

  /** With one execution active, nothing in the history lies beyond the step it publishes at. */
  lemma SoloPublishKeepsAgreement(body: Body, s: State, e: nat)
    requires Inv(body, s) && SoloInv(body, s) && Sourced(body, s) && Agrees(s)
    requires Enabled(body, s, RunPublish(e), false)
    ensures Agrees(Apply(body, s, RunPublish(e)))
  {
    var x := s.execs[e];
    assert SoloExec(body, s, x);
    var a, n := body(x.hist), Position(body, x.hist);
    forall i | (i, a.key) in s.history ensures i <= n {
      NothingLaterPublished(body, s, i, a.key);
    }
    PublishKeepsAgrees(s, Apply(body, s, RunPublish(e)), n, a.key, a.value);
  }

  lemma NothingLaterPublished(body: Body, s: State, i: int, key: string)
    requires SpineInv(body, s) && Sourced(body, s) && (i, key) in s.history
    ensures i <= Position(body, s.spine)
  {
    var j: nat :| PublishedAt(body, s, i, key, j);
    assert s.spine[..|s.spine|] == s.spine;
    if j < |s.spine| { PositionsGrow(body, s.log, s.spine, j, |s.spine|); }
  }

  /** Publishing at the latest step of the key keeps every key in agreement. */
  lemma PublishKeepsAgrees(s: State, s': State, n: int, key: string, value: Payload)
    requires Agrees(s) && forall i :: (i, key) in s.history ==> i <= n
    requires s'.events == s.events[key := value] && s'.history == s.history[(n, key) := value]
    ensures Agrees(s')
  {
    forall other ensures AgreesOn(s'.events, s'.history, other) {
      assert AgreesOn(s.events, s.history, other);
      if other == key {
        PublishKeepsAgreementIff(s.events, s.history, n, key, value);
      } else {
        PublishKeepsOtherKeys(s.events, s.history, n, key, value, other);
      }
    }
  }

  predicate SameEvents(s: State, s': State) {
    s'.events == s.events && s'.history == s.history
  }

  lemma LocalKeepsEvents(body: Body, s: State, v: Event)
    requires Enabled(body, s, v, false)
    requires v.Ask? || v.RunClosure? || v.Check? || v.Wake? || v.Clash? || v.Launch? || v.Crash?
    ensures SameEvents(s, Apply(body, s, v))
  {
  }

  lemma InsertKeepsEvents(body: Body, s: State, v: Event)
    requires Enabled(body, s, v, false) && (v.Insert? || v.SpawnChild?)
    ensures SameEvents(s, Apply(body, s, v))
  {
  }

  lemma RowStepKeepsEvents(body: Body, s: State, v: Event)
    requires Enabled(body, s, v, false)
    requires v.ReadOutcome? || v.CancelRow? || v.ResumeRow? || v.ParkRow?
    ensures SameEvents(s, Apply(body, s, v))
  {
  }

  lemma ErrorKeepsEvents(body: Body, s: State, e: nat)
    requires Enabled(body, s, WriteError(e), false)
    ensures SameEvents(s, Apply(body, s, WriteError(e)))
  {
  }

  lemma OutcomeKeepsEvents(body: Body, s: State, e: nat)
    requires Enabled(body, s, WriteOutcome(e), false)
    ensures SameEvents(s, Apply(body, s, WriteOutcome(e)))
  {
  }

  lemma HearKeepsEvents(body: Body, s: State, v: Event)
    requires Enabled(body, s, v, false) && Hears(v)
    ensures SameEvents(s, Apply(body, s, v))
  {
  }

  lemma OthersKeepEvents(body: Body, s: State, v: Event)
    requires Enabled(body, s, v, false) && !v.RunPublish?
    ensures SameEvents(s, Apply(body, s, v))
  {
    if v.Insert? || v.SpawnChild? {
      InsertKeepsEvents(body, s, v);
    } else if v.Ask? || v.RunClosure? || v.Check? || v.Wake? || v.Clash? || v.Launch? || v.Crash? {
      LocalKeepsEvents(body, s, v);
    } else if Hears(v) {
      HearKeepsEvents(body, s, v);
    } else if v.WriteOutcome? {
      OutcomeKeepsEvents(body, s, v.e);
    } else if v.WriteError? {
      ErrorKeepsEvents(body, s, v.e);
    } else {
      RowStepKeepsEvents(body, s, v);
    }
  }

  lemma StepKeepsEventsAgreed(body: Body, s: State, v: Event, s': State)
    requires Inv(body, s) && SoloInv(body, s) && Sourced(body, s) && Agrees(s)
    requires Next(body, s, v, s', true)
    ensures Sourced(body, s') && Agrees(s')
  {
    if v.RunPublish? {
      PublishKeepsSourced(body, s, v.e);
      SoloPublishKeepsAgreement(body, s, v.e);
    } else {
      OthersKeepEvents(body, s, v);
      StepGrows(body, s, v, s', true);
      GrowthKeepsSourced(body, s, s');
      assert forall key :: AgreesOn(s.events, s.history, key) ==> AgreesOn(s'.events, s'.history, key);
    }
  }

  /** With one live execution at a time, through any crashes and replays, the current value
      of every key is the history entry with the greatest step id, and every entry is one
      the body publishes at that step. */
  lemma {:induction false} EventsAgreeWithHistory(body: Body, ss: seq<State>, vs: seq<Event>, k: nat)
    requires Run(body, ss, vs, true) && Init(body, ss[0]) && ss[0].events == map[] && ss[0].history == map[]
    requires k <= |vs|
    ensures Agrees(ss[k]) && Sourced(body, ss[k])
  {
    if k > 0 {
      EventsAgreeWithHistory(body, ss, vs, k - 1);
      SoloRun(body, ss, vs, k - 1);
      StepKeepsEventsAgreed(body, ss[k - 1], vs[k - 1], ss[k]);
    }
  }

  // ---- two executions at once ----

  lemma TwoAboutToPublish(body: Body, key: string, v: Payload) returns (ss: seq<State>, vs: seq<Event>)
    requires body([]) == Publish(key, v)
    ensures Run(body, ss, vs, false) && Init(body, ss[0]) && ss[0].events == map[] && ss[0].history == map[]
    ensures var x := Exec([], Missed(Own));
            ss[|vs|] == State(Pending, None, map[], map[], map[], map[], map[], map[0 := x, 1 := x], [], None, {})
  {
    var x, y := Exec([], Ready), Exec([], Missed(Own));
    var s := State(Pending, None, map[], map[], map[], map[], map[], map[], [], None, {});
    assert WakesAt(body, s, 0);
    ss, vs := RunOn(body, [s], [], false, Launch(0), s.(execs := map[0 := x]));
    ss, vs := RunOn(body, ss, vs, false, Launch(1), s.(execs := map[0 := x, 1 := x]));
    ss, vs := RunOn(body, ss, vs, false, Check(0), s.(execs := map[0 := y, 1 := x]));
    ss, vs := RunOn(body, ss, vs, false, Check(1), s.(execs := map[0 := y, 1 := y]));
  }

  /** One execution publishes and records the next step at the end of the log. */
  lemma PublishesNext(body: Body, ss: seq<State>, vs: seq<Event>, e: nat) returns (ss': seq<State>, vs': seq<Event>)
    requires Run(body, ss, vs, false) && e in ss[|vs|].execs
    requires var (s, x) := (ss[|vs|], ss[|vs|].execs[e]);
             body(x.hist).Publish? && Position(body, x.hist) !in s.log && s.status != Cancelled && x.phase == Missed(Own)
    ensures Run(body, ss', vs', false) && ss[0] == ss'[0]
    ensures var (s, s', h) := (ss[|vs|], ss'[|vs'|], ss[|vs|].execs[e].hist);
            s'.execs == s.execs[e := Exec(h + [Got(Null)], Ready)] && s'.status == s.status &&
            s'.log == s.log[Position(body, h) := OpRow(SET_EVENT, Null, None, None)] &&
            s'.events == s.events[body(h).key := body(h).value] &&
            s'.history == s.history[(Position(body, h), body(h).key) := body(h).value]
  {
    var s := ss[|vs|];
    var s1 := Apply(body, s, RunPublish(e));
    ss', vs' := RunOn(body, ss, vs, false, RunPublish(e), s1);
    ss', vs' := RunOn(body, ss', vs', false, Insert(e), AfterInsert(body, s1, e));
  }

  /** One of the two goes on to its second publication. */
  lemma OneIsAhead(body: Body, key: string, v1: Payload, v2: Payload) returns (ss: seq<State>, vs: seq<Event>)
    requires body([]) == Publish(key, v1) && body([Got(Null)]) == Publish(key, v2)
    ensures Run(body, ss, vs, false) && Init(body, ss[0]) && ss[0].events == map[] && ss[0].history == map[]
    ensures 1 in ss[|vs|].execs && ss[|vs|].execs[1] == Exec([], Missed(Own))
    ensures ss[|vs|].history == map[(0, key) := v1, (1, key) := v2]
  {
    ss, vs := TwoAboutToPublish(body, key, v1);
    ss, vs := PublishesNext(body, ss, vs, 0);
    assert [] + [Got(Null)] == [Got(Null)] && Position(body, [Got(Null)]) == 1;
    ss, vs := RunOn(body, ss, vs, false, Check(0), Put(ss[|vs|], 0, Exec([Got(Null)], Missed(Own))));
    ss, vs := PublishesNext(body, ss, vs, 0);
  }

  /** The failing run: both executions find the first publication missing, one goes on to
      publish a second value, and the other, behind, puts the first one back. */
  lemma ConcurrencyBreaksAgreement(body: Body, key: string, v1: Payload, v2: Payload)
    returns (ss: seq<State>, vs: seq<Event>)
    requires body([]) == Publish(key, v1) && body([Got(Null)]) == Publish(key, v2) && v1 != v2
    ensures Run(body, ss, vs, false) && Init(body, ss[0]) && ss[0].events == map[] && ss[0].history == map[]
    ensures !Agrees(ss[|vs|])
  {
    ss, vs := OneIsAhead(body, key, v1, v2);
    var s := ss[|vs|];
    ss, vs := RunOn(body, ss, vs, false, RunPublish(1), Apply(body, s, RunPublish(1)));
    BehindDisagrees(ss[|vs|], key, v1, v2);
  }

  lemma BehindDisagrees(s: State, key: string, v1: Payload, v2: Payload)
    requires key in s.events && s.events[key] == v1 && v1 != v2
    requires s.history == map[(0, key) := v1, (1, key) := v2]
    ensures !Agrees(s)
  {
    assert (1, key) in s.history;
    assert !AgreesOn(s.events, s.history, key);
  }
}
