/** The internal debouncer workflow: its collect-and-delay loop, as a loop and as a body of
    the execution protocol. */
module Debouncer {
  import opened Wrappers
  import opened Tables
  import opened StepLog
  import opened Replay

  datatype DebouncerInput = DebouncerInput(
    initial: string, targetId: Id, delayMs: int, timeoutMs: int)

  const START_TIME := "DBOS.debounce.startTime"
  const LOOP_TIME := "DBOS.debounce.loopTime"

  /** Push-back is capped at the first start plus the timeout; a timeout of zero is no cap. */
  function Capped(d: DebouncerInput, start: int, wanted: int): int {
    if d.timeoutMs > 0 && wanted > start + d.timeoutMs then start + d.timeoutMs else wanted
  }

  /** Where the loop stands after the results seen so far. */
  datatype Place =
    | Begin
    | Pass                      // about to read the clock
    | Receive(now: int)
    | Ack(messageId: string)
    | Fire
    | Done
    | Fail

  datatype Point = Point(place: Place, start: int, current: string, due: int)

  function Advance(d: DebouncerInput, p: Point, r: Seen): Point {
    match p.place
    case Begin =>
      if r.Got? && r.v.Millis? then Point(Pass, r.v.ms, p.current, Capped(d, r.v.ms, r.v.ms + d.delayMs))
      else p.(place := Fail)
    case Pass =>
      if r.Got? && r.v.Millis? then p.(place := if p.due - r.v.ms <= 0 then Fire else Receive(r.v.ms))
      else p.(place := Fail)
    case Receive(now) =>
      if r.Got? && r.v.Update? then
        Point(if r.v.messageId == "" then Pass else Ack(r.v.messageId), p.start, r.v.input,
              Capped(d, p.start, now + r.v.delayMs))
      else p.(place := Fire)
    case Ack(_) => p.(place := Pass)
    case Fire => p.(place := if r.Got? then Done else Fail)
    case _ => p
  }

  function After(d: DebouncerInput, h: seq<Seen>): Point {
    if h == [] then Point(Begin, 0, d.initial, 0) else Advance(d, After(d, h[..|h| - 1]), h[|h| - 1])
  }

  function ActionAt(d: DebouncerInput, p: Point): Action {
    match p.place
    case Begin => Step(START_TIME)
    case Pass => Step(LOOP_TIME)
    case Receive(now) => Wait(RECV, p.due - now)
    case Ack(id) => Publish(id, Text("true"))
    case Fire => Enqueue(d.targetId, p.current)
    case Done => Return(Got(Null))
    case Fail => Return(Failed)
  }

  /** The internal workflow as a deterministic body. */
  function BodyOf(d: DebouncerInput): Body {
    h => ActionAt(d, After(d, h))
  }

  lemma AfterStep(d: DebouncerInput, h: seq<Seen>, r: Seen)
    ensures After(d, h + [r]) == Advance(d, After(d, h), r)
  {
    assert (h + [r])[..|h|] == h;
  }

  /** After the first n results the loop stands at p, and had not returned before. */
  predicate At(d: DebouncerInput, results: seq<Seen>, n: nat, p: Point) {
    n <= |results| && After(d, results[..n]) == p &&
    forall i :: 0 <= i < n ==> !ActionAt(d, After(d, results[..i])).Return?
  }

  lemma MoveOn(d: DebouncerInput, results: seq<Seen>, n: nat, p: Point)
    requires n < |results| && At(d, results, n, p) && !ActionAt(d, p).Return?
    ensures At(d, results, n + 1, Advance(d, p, results[n]))
  {
    assert results[..n + 1] == results[..n] + [results[n]];
    AfterStep(d, results[..n], results[n]);
  }

  /** One pass of the loop: read the clock, wait for a message, take over its input and
      push the start back, acknowledge. It stops early when the results run out. */
  method Collect(d: DebouncerInput, results: seq<Seen>, n: nat, p: Point) returns (used: nat, q: Point)
    requires n < |results| && At(d, results, n, p) && p.place.Pass?
    ensures n < used <= |results| && At(d, results, used, q)
    ensures used == |results| || q.place.Pass? || q.place.Fire? || q.place.Fail?
    ensures !EnqueuesIn(d, results, used - 1)
  {
    var clock := results[n];
    MoveOn(d, results, n, p);
    used := n + 1;
    if !(clock.Got? && clock.v.Millis?) {
      return used, p.(place := Fail);
    }
    var now := clock.v.ms;
    var remaining := p.due - now;
    if remaining <= 0 {
      return used, p.(place := Fire);
    }
    q := p.(place := Receive(now));
    if used == |results| {
      return;
    }
    var received := results[used];
    MoveOn(d, results, used, q);
    used := used + 1;
    if !(received.Got? && received.v.Update?) {
      return used, p.(place := Fire);
    }
    var newTarget := now + received.v.delayMs;
    if d.timeoutMs > 0 && newTarget > p.start + d.timeoutMs {
      newTarget := p.start + d.timeoutMs;
    }
    q := Point(Pass, p.start, received.v.input, newTarget);
    if received.v.messageId != "" {
      q := q.(place := Ack(received.v.messageId));
      if used < |results| {
        MoveOn(d, results, used, q);
        used, q := used + 1, q.(place := Pass);
      }
    }
  }

  /** The body run on a given sequence of results; it stops early if they run out. The row
      it asks to enqueue, if it gets there, is the one the body asks for. */
  method InternalDebouncerBody(d: DebouncerInput, results: seq<Seen>)
    returns (done: Option<Action>, row: Option<(Id, string)>, used: nat)
    ensures used <= |results|
    ensures At(d, results, used, After(d, results[..used]))
    ensures match done
            case None => used == |results|
            case Some(a) => a.Return? && a == ActionAt(d, After(d, results[..used]))
    ensures row.Some? <==> used > 0 && (EnqueuesIn(d, results, used) || EnqueuesIn(d, results, used - 1))
    ensures row.Some? ==> row == Some((d.targetId, After(d, results[..used]).current))
  {
    done, row, used := None, None, 0;
    if |results| == 0 {
      return;
    }
    var first := results[0];
    MoveOn(d, results, 0, Point(Begin, 0, d.initial, 0));
    used := 1;
    if !(first.Got? && first.v.Millis?) {
      return Some(Return(Failed)), row, used;
    }
    var start := first.v.ms;
    var due := start + d.delayMs;
    if d.timeoutMs > 0 && due > start + d.timeoutMs {
      due := start + d.timeoutMs;
    }
    var p := Point(Pass, start, d.initial, due);
    while p.place.Pass? && used < |results|
      invariant 1 <= used <= |results| && At(d, results, used, p)
      invariant used == |results| || p.place.Pass? || p.place.Fire? || p.place.Fail?
      invariant !EnqueuesIn(d, results, used - 1)
      decreases |results| - used
    {
      used, p := Collect(d, results, used, p);
    }
    if p.place.Fail? {
      done := Some(Return(Failed));
    } else if p.place.Fire? {
      row := Some((d.targetId, p.current));
      if used < |results| {
        var enqueued := results[used];
        MoveOn(d, results, used, p);
        used := used + 1;
        done := Some(Return(if enqueued.Got? then Got(Null) else Failed));
      }
    }
  }

  /** After the first n results the body asks to enqueue the target. */
  predicate EnqueuesIn(d: DebouncerInput, results: seq<Seen>, n: int)
    requires n <= |results|
  {
    0 <= n && After(d, results[..n]).place.Fire?
  }

  // ---- what the loop guarantees, over every sequence of results ----

  /** The messages received, in order. */
  function Accepted(d: DebouncerInput, h: seq<Seen>): (ms: seq<Payload>)
    ensures forall m :: m in ms ==> m.Update?
  {
    if h == [] then []
    else
      var (front, r) := (h[..|h| - 1], h[|h| - 1]);
      Accepted(d, front) + if After(d, front).place.Receive? && r.Got? && r.v.Update? then [r.v] else []
  }

  function LatestInput(d: DebouncerInput, ms: seq<Payload>): string
    requires forall m :: m in ms ==> m.Update?
  {
    if ms == [] then d.initial else ms[|ms| - 1].input
  }

  /** The number of times the clock was read in the loop. */
  function Passes(d: DebouncerInput, h: seq<Seen>): nat {
    if h == [] then 0
    else Passes(d, h[..|h| - 1]) + if After(d, h[..|h| - 1]).place.Pass? then 1 else 0
  }

  /** The start asked for last: a clock reading plus the delay that came after it. */
  function Wanted(d: DebouncerInput, h: seq<Seen>): int {
    if h == [] then 0
    else
      var (front, r) := (h[..|h| - 1], h[|h| - 1]);
      if front == [] && r.Got? && r.v.Millis? then r.v.ms + d.delayMs
      else if front != [] && IsReading(front[|front| - 1]) && r.Got? && r.v.Update? && After(d, front).place.Receive?
      then front[|front| - 1].v.ms + r.v.delayMs
      else Wanted(d, front)
  }

  predicate IsReading(r: Seen) {
    r.Got? && r.v.Millis?
  }

  /** Whatever messages arrive, with whatever delays: the start is scheduled where the last
      message asks for it, counted from the clock reading before it, but with a positive
      timeout never past first start + timeout; the loop makes at most one pass more than it
      received messages; and the input kept is the one received last. */
  lemma {:induction false} PushBackIsBounded(d: DebouncerInput, h: seq<Seen>)
    ensures var p := After(d, h);
            (!p.place.Begin? && !p.place.Fail? ==>
               IsReading(h[0]) && p.start == h[0].v.ms &&
               p.due == if d.timeoutMs > 0 then Min(Wanted(d, h), h[0].v.ms + d.timeoutMs) else Wanted(d, h)) &&
            (p.place.Receive? ==> h[|h| - 1] == Got(Millis(p.place.now))) &&
            p.current == LatestInput(d, Accepted(d, h)) &&
            Passes(d, h) <= |Accepted(d, h)| + (if p.place.Pass? || p.place.Ack? then 0 else 1)
  {
    if h != [] {
      var front := h[..|h| - 1];
      PushBackIsBounded(d, front);
      if front != [] { assert front[0] == h[0]; }
    }
  }

  /** An acknowledgement is published only right after its message was received. */
  lemma AckFollowsAccept(d: DebouncerInput, h: seq<Seen>)
    requires After(d, h).place.Ack?
    ensures exists m :: m in Accepted(d, h) && m.messageId == After(d, h).place.messageId
  {
    var front, r := h[..|h| - 1], h[|h| - 1];
    assert Accepted(d, h)[|Accepted(d, front)|] == r.v;
  }

  lemma {:induction false} AcceptedGrows(d: DebouncerInput, h: seq<Seen>, j: nat)
    requires j <= |h|
    ensures Accepted(d, h[..j]) <= Accepted(d, h)
  {
    if j < |h| {
      AcceptedGrows(d, h[..|h| - 1], j);
      assert h[..|h| - 1][..j] == h[..j];
    } else {
      assert h[..j] == h;
    }
  }

  lemma AcceptedNext(d: DebouncerInput, h: seq<Seen>, r: Seen)
    ensures Accepted(d, h + [r]) ==
            Accepted(d, h) + if After(d, h).place.Receive? && r.Got? && r.v.Update? then [r.v] else []
  {
    assert (h + [r])[..|h|] == h;
  }

  /** Once the loop is left no message is taken over. */
  lemma {:induction false} NothingAfterFire(d: DebouncerInput, h: seq<Seen>, i: nat)
    requires i <= |h| && After(d, h[..i]).place.Fire?
    ensures Accepted(d, h) == Accepted(d, h[..i])
    ensures After(d, h).place.Fire? || After(d, h).place.Done? || After(d, h).place.Fail?
    ensures i < |h| ==> !After(d, h).place.Fire?
  {
    if i == |h| {
      assert h[..i] == h;
    } else {
      var front := h[..|h| - 1];
      assert front[..i] == h[..i];
      NothingAfterFire(d, front, i);
    }
  }

  /** The target's enqueuing was accepted as result k. */
  predicate Accepts(d: DebouncerInput, h: seq<Seen>, k: int) {
    0 <= k < |h| && BodyOf(d)(h[..k]).Enqueue? && h[k].Got?
  }

  lemma AcceptedAtFire(d: DebouncerInput, h: seq<Seen>, k: int)
    ensures Accepts(d, h, k) <==> 0 <= k < |h| && After(d, h[..k]).place.Fire? && h[k].Got?
  {
  }

  lemma {:induction false} AcceptedEnds(d: DebouncerInput, h: seq<Seen>, k: nat)
    requires k < |h| && After(d, h[..k]).place.Fire? && h[k].Got?
    ensures After(d, h).place.Done?
  {
    var n := |h| - 1;
    if k < n {
      assert h[..n][..k] == h[..k];
      AcceptedEnds(d, h[..n], k);
    }
  }

  lemma {:induction false} EndedByAccept(d: DebouncerInput, h: seq<Seen>) returns (k: nat)
    requires After(d, h).place.Done?
    ensures k < |h| && After(d, h[..k]).place.Fire? && h[k].Got?
  {
    k := |h| - 1;
    if !After(d, h[..k]).place.Fire? {
      var n := k;
      k := EndedByAccept(d, h[..n]);
      assert h[..n][..k] == h[..k];
    }
  }

  /** The workflow succeeds exactly if the enqueuing of its target was accepted. */
  lemma SucceedsIff(d: DebouncerInput, h: seq<Seen>)
    ensures BodyOf(d)(h) == Return(Got(Null)) <==> exists k :: Accepts(d, h, k)
  {
    assert BodyOf(d)(h) == Return(Got(Null)) <==> After(d, h).place.Done?;
    if k :| Accepts(d, h, k) {
      AcceptedAtFire(d, h, k);
      AcceptedEnds(d, h, k);
    } else if After(d, h).place.Done? {
      var k := EndedByAccept(d, h);
      AcceptedAtFire(d, h, k);
    }
  }
}
