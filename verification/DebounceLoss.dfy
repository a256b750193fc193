/** Callers of a debouncer whose internal workflow takes a cancellation for a timeout before it
    has enqueued its target: an acknowledged input that the target never gets. */
module DebounceLoss {
  import opened Wrappers
  import opened Tables
  import opened StepLog
  import opened Replay
  import opened ReplayInv
  import opened Debouncer
  import opened DebounceSteps
  import opened DebounceCalls
  import opened DebounceCancel

  ghost predicate AnyRun(ws: seq<World>, ms: seq<Move>) {
    |ws| == |ms| + 1 && forall i :: 0 <= i < |ms| ==> AnyAt(ws, ms, i)
  }

  /** The world at the end of a run. */
  function Last(ws: seq<World>): World
    requires |ws| > 0
  {
    ws[|ws| - 1]
  }

  ghost predicate AnyAt(ws: seq<World>, ms: seq<Move>, i: nat)
    requires |ws| == |ms| + 1 && i < |ms|
  {
    AnyStep(ws[i], ms[i], ws[i + 1])
  }

  lemma RunIsAnyRun(ws: seq<World>, ms: seq<Move>)
    requires DebounceCalls.Run(ws, ms)
    ensures AnyRun(ws, ms)
  {
    forall i | 0 <= i < |ms| ensures AnyAt(ws, ms, i) {
      assert DebounceCalls.Step(ws[i], ms[i], ws[i + 1]);
    }
  }

  lemma MoveOnward(ws: seq<World>, ms: seq<Move>, m: Move, w: World) returns (ws': seq<World>, ms': seq<Move>)
    requires AnyRun(ws, ms) && AnyStep(Last(ws), m, w)
    ensures AnyRun(ws', ms') && ws <= ws' && ms' == ms + [m] && Last(ws') == w
  {
    ws', ms' := ws + [w], ms + [m];
    forall i | 0 <= i < |ms'| ensures AnyAt(ws', ms', i) {
      if i < |ms| { assert AnyAt(ws, ms, i); }
    }
  }

  /** Only one cycle has moved on, to the state s. */
  predicate OnlyWorked(w: World, w': World, c: Id, s: State) {
    c in w.cycles && c in w'.cycles && w' == w.(cycles := w.cycles[c := w'.cycles[c]]) &&
    w'.cycles[c] == w.cycles[c].(st := s, holds := w'.cycles[c].holds)
  }

  function Works(c: Id, acts: seq<Act>): (ms: seq<Move>)
    ensures |ms| == |acts|
  {
    seq(|acts|, i requires 0 <= i < |acts| => Work(c, acts[i]))
  }

  lemma ShorterInner(d: DebouncerInput, ok: Payload -> bool, xs: seq<Inner>, acts: seq<Act>)
    requires InnerRun(d, ok, xs, acts) && |acts| > 0
    ensures InnerRun(d, ok, xs[..|acts|], acts[..|acts| - 1])
  {
    var n := |acts| - 1;
    var (ys, bs) := (xs[..n + 1], acts[..n]);
    forall k | 0 <= k < n ensures InnerAt(d, ok, ys, bs, k) {
      assert InnerAt(d, ok, xs, acts, k);
    }
  }

  lemma LastInner(d: DebouncerInput, ok: Payload -> bool, xs: seq<Inner>, acts: seq<Act>)
    requires InnerRun(d, ok, xs, acts) && |acts| > 0
    ensures Does(d, ok, xs[|acts| - 1].s, acts[|acts| - 1], xs[|acts|].s)
  {
    assert InnerAt(d, ok, xs, acts, |acts| - 1);
  }

  /** What an internal workflow does alone, it does among its callers. */
  lemma {:induction false} AmongCallers(ws: seq<World>, ms: seq<Move>, c: Id, xs: seq<Inner>, acts: seq<Act>)
    returns (ws': seq<World>)
    requires AnyRun(ws, ms) && c in Last(ws).cycles && !Last(ws).cycles[c].gone && !Last(ws).cycles[c].failed
    requires var cy := Last(ws).cycles[c]; InnerRun(cy.d, Within(cy.inbox), xs, acts) && xs[0].s == cy.st
    ensures AnyRun(ws', ms + Works(c, acts)) && ws <= ws'
    ensures OnlyWorked(Last(ws), Last(ws'), c, xs[|acts|].s)
    decreases |acts|
  {
    if |acts| == 0 {
      ws' := ws;
      NoWorks(ms, c, ws, xs[0].s);
    } else {
      var w, n := Last(ws), |acts| - 1;
      ShorterInner(w.cycles[c].d, Within(w.cycles[c].inbox), xs, acts);
      var (ys, bs) := (xs[..|acts|], acts[..n]);
      assert |bs| == n && ys[0] == xs[0] && ys[n] == xs[n];
      var ws1 := AmongCallers(ws, ms, c, ys, bs);
      ws' := NextAmongCallers(w, ws1, ms + Works(c, bs), c, xs, acts);
      WorksMore(ms, c, acts);
    }
  }

  lemma NoWorks(ms: seq<Move>, c: Id, ws: seq<World>, s: State)
    requires |ws| > 0 && c in Last(ws).cycles && Last(ws).cycles[c].st == s
    ensures ms + Works(c, []) == ms && OnlyWorked(Last(ws), Last(ws), c, s)
  {
    assert Last(ws).cycles[c := Last(ws).cycles[c]] == Last(ws).cycles;
  }

  lemma NextAmongCallers(w: World, ws: seq<World>, ms: seq<Move>, c: Id, xs: seq<Inner>, acts: seq<Act>)
    returns (ws': seq<World>)
    requires |acts| > 0 && AnyRun(ws, ms)
    requires c in w.cycles && !w.cycles[c].gone && !w.cycles[c].failed && InnerRun(w.cycles[c].d, Within(w.cycles[c].inbox), xs, acts)
    requires OnlyWorked(w, Last(ws), c, xs[|acts| - 1].s)
    ensures AnyRun(ws', ms + [Work(c, acts[|acts| - 1])]) && ws <= ws' && OnlyWorked(w, Last(ws'), c, xs[|acts|].s)
  {
    LastInner(w.cycles[c].d, Within(w.cycles[c].inbox), xs, acts);
    ws' := OneMore(ws, ms, c, acts[|acts| - 1], xs[|acts|].s);
    StillOnlyWorked(w, Last(ws), Last(ws'), c, xs[|acts| - 1].s, xs[|acts|].s);
  }

  lemma WorksMore(ms: seq<Move>, c: Id, acts: seq<Act>)
    requires acts != []
    ensures ms + Works(c, acts) == ms + Works(c, acts[..|acts| - 1]) + [Work(c, acts[|acts| - 1])]
  {
  }

  lemma StillOnlyWorked(w: World, w1: World, w2: World, c: Id, s1: State, s2: State)
    requires OnlyWorked(w, w1, c, s1) && OnlyWorked(w1, w2, c, s2)
    ensures OnlyWorked(w, w2, c, s2)
  {
    assert w2.cycles == w.cycles[c := w2.cycles[c]];
  }

  lemma OneMore(ws: seq<World>, ms: seq<Move>, c: Id, a: Act, s: State) returns (ws': seq<World>)
    requires AnyRun(ws, ms) && c in Last(ws).cycles && !Last(ws).cycles[c].gone && !Last(ws).cycles[c].failed
    requires var cy := Last(ws).cycles[c]; Does(cy.d, Within(cy.inbox), cy.st, a, s)
    ensures AnyRun(ws', ms + [Work(c, a)]) && ws <= ws' && OnlyWorked(Last(ws), Last(ws'), c, s)
  {
    var w, cy := Last(ws), Last(ws).cycles[c];
    var cy' := cy.(st := s, holds := cy.holds && KeepsSlot(a, s));
    var ms';
    ws', ms' := MoveOnward(ws, ms, Work(c, a), w.(cycles := w.cycles[c := cy']));
  }

  // ---- the loss ----

  /** The call has found the cycle, and an execution is at the end of the log in a receive
      that is about to take the cancellation for a timeout. */
  predicate AboutToLose(w: World, c: Id, e: nat, k: nat) {
    c in w.cycles && !w.cycles[c].gone && !w.cycles[c].failed && k in w.calls && w.calls[k].phase.Found? && w.calls[k].phase.c == c &&
    var (d, s) := (w.cycles[c].d, w.cycles[c].st);
    AtLookup(d, s, e) && s.execs[e].hist == s.spine && s.status == Cancelled && Harms(w, Work(c, Catch(e)))
  }

  /** After the call has sent its message. */
  function Sent(w: World, c: Id, k: nat, id: string): World
    requires c in w.cycles && k in w.calls && w.calls[k].phase.Found?
  {
    var cy := w.cycles[c];
    SetPhase(w, k, Waiting(c, id, w.calls[k].phase.target))
      .(cycles := w.cycles[c := cy.(inbox := cy.inbox + {Message(w, k, id)})], drawn := w.drawn + {id})
  }

  function Message(w: World, k: nat, id: string): Payload
    requires k in w.calls
  {
    Update(w.calls[k].input, w.calls[k].delayMs, id)
  }

  lemma SendOnward(ws: seq<World>, ms: seq<Move>, c: Id, e: nat, k: nat, id: string)
    returns (ws': seq<World>, ms': seq<Move>)
    requires AnyRun(ws, ms) && AboutToLose(Last(ws), c, e, k) && id != "" && id !in Last(ws).drawn
    ensures AnyRun(ws', ms') && ws <= ws' && Last(ws') == Sent(Last(ws), c, k, id) && ms' == ms + [SendUpdate(k, id)]
  {
    ws', ms' := MoveOnward(ws, ms, SendUpdate(k, id), Sent(Last(ws), c, k, id));
  }

  /** The acknowledged call reads the target's id off the row and returns it. */
  lemma ReturnOnward(ws: seq<World>, ms: seq<Move>, c: Id, k: nat) returns (ws': seq<World>, ms': seq<Move>)
    requires AnyRun(ws, ms) && k in Last(ws).calls && Last(ws).calls[k].phase.Waiting? && Last(ws).calls[k].phase.c == c
    requires var w := Last(ws); c in w.cycles && !w.cycles[c].gone && w.calls[k].phase.messageId in w.cycles[c].st.events
    ensures AnyRun(ws', ms') && ws <= ws' && ms' == ms + [SeeAck(k), ReadRow(k)]
    ensures Last(ws') == SetPhase(Last(ws), k, Returned(c, Last(ws).cycles[c].d.targetId))
  {
    var w := Last(ws);
    var w1 := SetPhase(w, k, Acked(c, w.calls[k].phase.target));
    var w2 := SetPhase(w1, k, Returned(c, w.cycles[c].d.targetId));
    assert w2.calls == SetPhase(w, k, Returned(c, w.cycles[c].d.targetId)).calls;
    ws', ms' := MoveOnward(ws, ms, SeeAck(k), w1);
    ws', ms' := MoveOnward(ws', ms', ReadRow(k), w2);
  }

  lemma InputsWith(cy: Cycle, cy': Cycle, m: Payload)
    requires cy'.d == cy.d && BodyOf(cy.d)(cy.st.spine).Wait? && IsMessage(m) && cy'.st.spine == cy.st.spine + [Got(m)]
    ensures Inputs(cy') == Inputs(cy) + [m.input]
  {
    AckIsNext(cy.d, cy.st.spine, m);
    OneInputMore(cy, cy', m);
  }

  lemma OneInputMore(cy: Cycle, cy': Cycle, m: Payload)
    requires cy'.d == cy.d && m.Update? && Accepted(cy.d, cy'.st.spine) == Accepted(cy.d, cy.st.spine) + [m]
    ensures Inputs(cy') == Inputs(cy) + [m.input]
  {
  }

  lemma CurrentIsLast(cy: Cycle)
    ensures After(cy.d, cy.st.spine).current == Inputs(cy)[|Inputs(cy)| - 1]
  {
    PushBackIsBounded(cy.d, cy.st.spine);
  }

  /** The message is acknowledged, and the target has been enqueued with what was there before. */
  ghost predicate Taken(w: World, w1: World, c: Id, k: nat, id: string)
    requires c in w.cycles && k in w.calls && w.calls[k].phase.Found?
  {
    c in w1.cycles && OnlyWorked(Sent(w, c, k, id), w1, c, w1.cycles[c].st) &&
    var (d, h, s1) := (w.cycles[c].d, w.cycles[c].st.spine, w1.cycles[c].st);
    id in s1.events && s1.spine == h + [Got(Message(w, k, id))] &&
    d.targetId in s1.spawned && s1.spawned[d.targetId] == After(d, h).current
  }

  lemma LoseAmongCallers(ws: seq<World>, ms: seq<Move>, c: Id, e: nat, k: nat, id: string, now: int)
    returns (ws': seq<World>, acts: seq<Act>)
    requires AnyRun(ws, ms) && AboutToLose(Last(ws), c, e, k) && id != "" && id !in Last(ws).drawn
    requires SpineInv(BodyOf(Last(ws).cycles[c].d), Last(ws).cycles[c].st)
    ensures AnyRun(ws', ms + [SendUpdate(k, id)] + Works(c, acts)) && ws <= ws' && Swallowing(acts, e)
    ensures Taken(Last(ws), Last(ws'), c, k, id)
  {
    var w := Last(ws);
    var cy := Sent(w, c, k, id).cycles[c];
    var ws1, ms1 := SendOnward(ws, ms, c, e, k, id);
    var xs;
    xs, acts := LaterMessageIsLost(cy.d, Within(cy.inbox), Inner(cy.st, None), e, Message(w, k, id), now);
    ws' := AmongCallers(ws1, ms1, c, xs, acts);
  }

  /** The call has its target's id, and the target has been enqueued without its input. */
  ghost predicate Lost(w: World, w': World, c: Id, k: nat)
    requires c in w.cycles && k in w.calls
  {
    var (t, x) := (w.cycles[c].d.targetId, w.calls[k].input);
    k in w'.calls && w'.calls[k].input == x && w'.calls[k].phase == Returned(c, t) && c in w'.cycles &&
    Inputs(w'.cycles[c]) == Inputs(w.cycles[c]) + [x] &&
    t in w'.cycles[c].st.spawned && w'.cycles[c].st.spawned[t] == Inputs(w.cycles[c])[|Inputs(w.cycles[c])| - 1]
  }

  lemma LoseCall(ws: seq<World>, ms: seq<Move>, c: Id, e: nat, k: nat, id: string, now: int)
    returns (ws': seq<World>, ms': seq<Move>, acts: seq<Act>)
    requires AnyRun(ws, ms) && AboutToLose(Last(ws), c, e, k) && id != "" && id !in Last(ws).drawn
    requires SpineInv(BodyOf(Last(ws).cycles[c].d), Last(ws).cycles[c].st)
    ensures AnyRun(ws', ms') && ws <= ws' && Swallowing(acts, e)
    ensures ms' == ms + [SendUpdate(k, id)] + Works(c, acts) + [SeeAck(k), ReadRow(k)]
    ensures Lost(Last(ws), Last(ws'), c, k)
  {
    var w := Last(ws);
    ws', acts := LoseAmongCallers(ws, ms, c, e, k, id, now);
    LostAtReturn(w, Last(ws'), c, e, k, id);
    ws', ms' := ReturnOnward(ws', ms + [SendUpdate(k, id)] + Works(c, acts), c, k);
  }

  lemma LostAtReturn(w: World, w1: World, c: Id, e: nat, k: nat, id: string)
    requires AboutToLose(w, c, e, k) && id != "" && Taken(w, w1, c, k, id)
    ensures k in w1.calls && w1.calls[k].phase == Waiting(c, id, w.calls[k].phase.target)
    ensures !w1.cycles[c].gone && id in w1.cycles[c].st.events
    ensures Lost(w, SetPhase(w1, k, Returned(c, w1.cycles[c].d.targetId)), c, k)
  {
    CurrentIsLast(w.cycles[c]);
    InputsWith(w.cycles[c], w1.cycles[c], Message(w, k, id));
  }

  /** The guard is needed: in every reachable world where a receive at the end of the log is
      about to take a cancellation for a timeout before the target is enqueued, and for every
      call that has found this internal workflow, some way to go on acknowledges the call,
      hands it the target's id, and runs the target without its input. */
  lemma SwallowingLosesCall(ws: seq<World>, ms: seq<Move>, c: Id, e: nat, k: nat, id: string, now: int)
    returns (ws': seq<World>, ms': seq<Move>)
    requires DebounceCalls.Run(ws, ms) && Empty(ws[0]) && AboutToLose(Last(ws), c, e, k) && id != "" && id !in Last(ws).drawn
    ensures AnyRun(ws', ms') && ws <= ws' && ms <= ms' && |ms| + 1 < |ms'| && ms'[|ms| + 1] == Work(c, Catch(e))
    ensures forall i :: |ms| <= i < |ms'| && i != |ms| + 1 ==> !Harms(ws'[i], ms'[i])
    ensures Lost(Last(ws), Last(ws'), c, k)
  {
    ReachableSpine(ws, ms, c);
    RunIsAnyRun(ws, ms);
    var acts;
    ws', ms', acts := LoseCall(ws, ms, c, e, k, id, now);
    OneHarm(ws', ms, ms', c, e, k, id, acts);
  }

  lemma ReachableSpine(ws: seq<World>, ms: seq<Move>, c: Id)
    requires DebounceCalls.Run(ws, ms) && Empty(ws[0]) && c in Last(ws).cycles
    ensures SpineInv(BodyOf(Last(ws).cycles[c].d), Last(ws).cycles[c].st)
  {
    RunKeepsAll(ws, ms, |ms|);
    CoreSpine(BodyOf(Last(ws).cycles[c].d), Last(ws).cycles[c].st);
  }

  /** The swallowing is the one harmful move. */
  lemma OneHarm(ws: seq<World>, ms: seq<Move>, ms': seq<Move>, c: Id, e: nat, k: nat, id: string, acts: seq<Act>)
    requires |ws| == |ms'| + 1 && Swallowing(acts, e)
    requires ms' == ms + [SendUpdate(k, id)] + Works(c, acts) + [SeeAck(k), ReadRow(k)]
    ensures ms <= ms' && |ms| + 1 < |ms'| && ms'[|ms| + 1] == Work(c, Catch(e))
    ensures forall i :: |ms| <= i < |ms'| && i != |ms| + 1 ==> !Harms(ws[i], ms'[i])
  {
    forall i | |ms| <= i < |ms'| && i != |ms| + 1 ensures !Harms(ws[i], ms'[i]) {
      var j := i - |ms| - 1;
      if 0 <= j < |acts| { assert ms'[i] == Work(c, acts[j]) && acts[j].Plain?; }
    }
  }

  // ---- such a world is reached ----

  /** Only the execution 0, at the end of the log, which holds no id from n on. */
  predicate Alone(s: State, h: seq<Seen>, n: nat) {
    s.execs == map[0 := Exec(h, Ready)] && s.spine == h && s.status == Enqueued && s.spawned == map[] && forall i :: i in s.log ==> i < n
  }

  predicate NoEnqueuing(vs: seq<Event>) {
    forall k :: 0 <= k < |vs| ==> !vs[k].EnqueueRow?
  }

  /** A step runs and is recorded. */
  lemma StepIsRecorded(body: Body, ok: Payload -> bool, ss: seq<State>, vs: seq<Event>, h: seq<Seen>, v: Payload)
    returns (ss': seq<State>, vs': seq<Event>)
    requires ProperRun(body, ok, ss, vs) && NoEnqueuing(vs) && Alone(ss[|vs|], h, Position(body, h)) && body(h).Step?
    ensures ProperRun(body, ok, ss', vs') && NoEnqueuing(vs') && ss'[0] == ss[0]
    ensures Alone(ss'[|vs'|], h + [Got(v)], Position(body, h) + 1)
  {
    var s := ss[|vs|];
    var s1, s2 := Put(s, 0, Exec(h, Missed(Own))), Put(s, 0, Exec(h, Ran(Own, OpOf(body(h).name, Value(v)))));
    ss', vs' := StepOn(body, ok, ss, vs, Check(0), s1);
    ss', vs' := StepOn(body, ok, ss', vs', RunClosure(0, Value(v)), s2);
    ss', vs' := StepOn(body, ok, ss', vs', Insert(0), AfterInsert(body, s2, 0));
  }

  /** The internal workflow reads the clock twice and is cancelled at its first receive. */
  lemma CancelledAtReceive(d: DebouncerInput, ok: Payload -> bool) returns (ss: seq<State>, vs: seq<Event>)
    requires d.delayMs > 0 && d.timeoutMs == 0
    ensures ProperRun(BodyOf(d), ok, ss, vs) && NoEnqueuing(vs) && ss[0] == DebounceCalls.Fresh()
    ensures var s := ss[|vs|];
            AtLookup(d, s, 0) && s.execs[0].hist == s.spine && s.status == Cancelled && Harmful(d, s, Catch(0))
  {
    var (h1, h2) := ([Got(Millis(0))], [Got(Millis(0)), Got(Millis(0))]);
    assert [] + [Got(Millis(0))] == h1 && h1 + [Got(Millis(0))] == h2 && h2[..1] == h1 && h1[..0] == [];
    AfterStep(d, [], Got(Millis(0)));
    AfterStep(d, h1, Got(Millis(0)));
    ss, vs := TwoSteps(BodyOf(d), ok, h1, h2);
    ss, vs := StepOn(BodyOf(d), ok, ss, vs, CancelRow, ss[|vs|].(status := Cancelled));
  }

  lemma TwoSteps(body: Body, ok: Payload -> bool, h1: seq<Seen>, h2: seq<Seen>) returns (ss: seq<State>, vs: seq<Event>)
    requires body([]).Step? && body(h1).Step? && h1 == [] + [Got(Millis(0))] && h2 == h1 + [Got(Millis(0))] && Position(body, h1) == 1
    ensures ProperRun(body, ok, ss, vs) && NoEnqueuing(vs) && ss[0] == DebounceCalls.Fresh() && Alone(ss[|vs|], h2, 2)
  {
    var s := DebounceCalls.Fresh();
    ss, vs := StepOn(body, ok, [s], [], Launch(0), Put(s, 0, Exec([], Ready)));
    ss, vs := StepIsRecorded(body, ok, ss, vs, [], Millis(0));
    ss, vs := StepIsRecorded(body, ok, ss, vs, h1, Millis(0));
  }

  /** A run of the protocol that enqueues nothing is one of the workflow. */
  lemma {:induction false} Quietly(d: DebouncerInput, ok: Payload -> bool, ss: seq<State>, vs: seq<Event>)
    returns (xs: seq<Inner>, acts: seq<Act>)
    requires ProperRun(BodyOf(d), ok, ss, vs) && NoEnqueuing(vs)
    ensures InnerRun(d, ok, xs, acts) && xs[0].s == ss[0] && xs[|acts|].s == ss[|vs|]
    ensures forall k :: 0 <= k < |acts| ==> acts[k].Plain?
    decreases |vs|
  {
    if |vs| == 0 {
      xs, acts := [Inner(ss[0], None)], [];
    } else {
      var n := |vs| - 1;
      ShorterRun(BodyOf(d), ok, ss, vs);
      var xs1, acts1 := Quietly(d, ok, ss[..|vs|], vs[..n]);
      xs, acts := PlainOn(d, ok, xs1, acts1, vs[n], ss[|vs|]);
      assert forall k :: 0 <= k < |acts1| ==> acts[k] == acts1[k];
    }
  }

  /** One caller wins the slot, another one finds its internal workflow. */
  lemma TwoCallers(c: Id, t: Id, u: Id) returns (ws: seq<World>, ms: seq<Move>)
    requires c != t && c != u && t != u
    ensures AnyRun(ws, ms) && Empty(ws[0]) && forall i :: 0 <= i < |ms| ==> !ms[i].Work?
    ensures var w := Last(ws);
            c in w.cycles && w.cycles[c] == Cycle(DebouncerInput("first", t, 1, 0), DebounceCalls.Fresh(), {}, true, false, false) &&
            1 in w.calls && w.calls[1] == Call("second", 1, Found(c, u)) && w.drawn == {c, t, u}
  {
    var w0 := World(0, map[], map[], {});
    var w1 := w0.(calls := map[0 := Call("first", 1, Trying)]);
    var cy := Cycle(DebouncerInput("first", t, 1, 0), DebounceCalls.Fresh(), {}, true, false, false);
    var w2 := SetPhase(w1, 0, Returned(c, t)).(cycles := map[c := cy], drawn := {c, t});
    var w3 := w2.(calls := w2.calls[1 := Call("second", 1, Trying)]);
    var w4 := SetPhase(w3, 1, DebounceCalls.Refused(u)).(drawn := {c, t, u});
    ws, ms := MoveOnward([w0], [], Enter(0, "first", 1), w1);
    ws, ms := MoveOnward(ws, ms, Win(0, c, t), w2);
    ws, ms := MoveOnward(ws, ms, Enter(1, "second", 1), w3);
    assert w3.cycles[c].holds;
    ws, ms := MoveOnward(ws, ms, Collide(1, u), w4);
    ws, ms := MoveOnward(ws, ms, LookUp(1, Some(c)), SetPhase(w4, 1, Found(c, u)));
  }

  lemma QuietIsRun(ws: seq<World>, ms: seq<Move>)
    requires AnyRun(ws, ms) && forall i :: 0 <= i < |ms| ==> !(ms[i].Work? && ms[i].a.Catch?)
    ensures DebounceCalls.Run(ws, ms)
  {
    forall i {:trigger ms[i]} | 0 <= i < |ms| ensures DebounceCalls.Step(ws[i], ms[i], ws[i + 1]) {
      assert AnyAt(ws, ms, i);
    }
  }

  /** A run up to such a world: a caller starts an internal workflow, a second one finds it,
      and it is cancelled at its first receive. */
  lemma LossIsReached(c: Id, t: Id, u: Id) returns (ws: seq<World>, ms: seq<Move>)
    requires c != t && c != u && t != u
    ensures DebounceCalls.Run(ws, ms) && Empty(ws[0]) && AboutToLose(Last(ws), c, 0, 1) && Last(ws).drawn == {c, t, u}
  {
    var ms1: seq<Move>;
    ws, ms1 := TwoCallers(c, t, u);
    var xs, acts := QuietlyCancelled(Last(ws).cycles[c]);
    ws := AmongCallers(ws, ms1, c, xs, acts);
    ms := ms1 + Works(c, acts);
    QuietIsRun(ws, ms);
  }

  lemma QuietlyCancelled(cy: Cycle) returns (xs: seq<Inner>, acts: seq<Act>)
    requires cy.d.delayMs > 0 && cy.d.timeoutMs == 0 && cy.st == DebounceCalls.Fresh()
    ensures InnerRun(cy.d, Within(cy.inbox), xs, acts) && xs[0].s == cy.st && forall k :: 0 <= k < |acts| ==> acts[k].Plain?
    ensures var s := xs[|acts|].s;
            AtLookup(cy.d, s, 0) && s.execs[0].hist == s.spine && s.status == Cancelled && Harmful(cy.d, s, Catch(0))
  {
    var ss, vs := CancelledAtReceive(cy.d, Within(cy.inbox));
    xs, acts := Quietly(cy.d, Within(cy.inbox), ss, vs);
  }
}
