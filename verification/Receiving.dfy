/** Messages and the execution protocol together: the receives of a body consume from the
    mailbox, and what they return is in its step log. */
module Receiving {
  import opened Wrappers
  import opened Tables
  import opened StepLog
  import opened Replay
  import opened ReplayInv
  import opened Durable
  import N = Notifications

  predicate IsRecv(a: Action) {
    a.Wait? && a.name == RECV
  }

  /** The mailbox stays as it is. */
  predicate Idle(m: N.Mail, act: N.Act) {
    act.Crash? && act.e !in m.held
  }

  /** The mailbox part of a protocol step. A receive takes an oldest unread message or times
      out; its insert records what it took; a crash drops it. */
  predicate Matches(body: Body, s: State, m: N.Mail, v: Event, act: N.Act)
    requires v.RunClosure? || v.Insert? ==> v.e in s.execs
  {
    match v
    case RunClosure(e, r) =>
      if IsRecv(body(s.execs[e].hist)) then
        if r.Fault? then Idle(m, act)
        else
          act.Take? && act.e == e && act.step == Position(body, s.execs[e].hist) &&
          act.at < |m.notes| && r.v == m.notes[act.at].message
      else Idle(m, act)
    case Insert(e) =>
      if IsRecv(body(s.execs[e].hist)) && s.execs[e].phase.Ran? && s.execs[e].phase.slot == Own then
        if e in m.held then act == N.Record(e) else act == N.RecordTimeout(Position(body, s.execs[e].hist))
      else Idle(m, act)
    case Crash(e) => act == N.Crash(e)
    case _ => Idle(m, act)
  }

  datatype Both = Both(s: State, m: N.Mail)

  /** A step of the protocol with its mailbox part, or somebody sends a message. */
  ghost predicate Step(body: Body, b: Both, v: Option<Event>, act: N.Act, b': Both, solo: bool) {
    N.Step(b.m, act, b'.m) &&
    match v
    case None => act.Send? && b'.s == b.s
    case Some(v) => Next(body, b.s, v, b'.s, solo) && Matches(body, b.s, b.m, v, act)
  }

  ghost predicate Run(body: Body, bs: seq<Both>, vs: seq<Option<Event>>, acts: seq<N.Act>, solo: bool) {
    |bs| == |vs| + 1 && |acts| == |vs| &&
    forall k {:trigger vs[k]} :: 0 <= k < |vs| ==> Step(body, bs[k], vs[k], acts[k], bs[k + 1], solo)
  }

  function Mails(bs: seq<Both>): (ms: seq<N.Mail>)
    ensures |ms| == |bs| && forall k :: 0 <= k < |bs| ==> ms[k] == bs[k].m
  {
    seq(|bs|, k requires 0 <= k < |bs| => bs[k].m)
  }

  /** The mailbox part of a run is a run of the mailbox. */
  lemma MailsRun(body: Body, bs: seq<Both>, vs: seq<Option<Event>>, acts: seq<N.Act>, solo: bool)
    requires Run(body, bs, vs, acts, solo)
    ensures N.Run(Mails(bs), acts)
  {
    forall k | 0 <= k < |acts| ensures N.Step(Mails(bs)[k], acts[k], Mails(bs)[k + 1]) {
      assert Step(body, bs[k], vs[k], acts[k], bs[k + 1], solo);
    }
  }

  // ---- what links the two ----

  /** An execution holds a message exactly between taking it and recording it. */
  predicate Holding(body: Body, s: State, m: N.Mail, e: nat) {
    e in m.held ==>
      e in s.execs && IsRecv(body(s.execs[e].hist)) &&
      m.held[e].step == Position(body, s.execs[e].hist) && m.held[e].at < |m.notes| &&
      s.execs[e].phase == Ran(Own, OpOf(RECV, Value(m.notes[m.held[e].at].message)))
  }

  predicate TimedOut(body: Body, s: State, m: N.Mail, e: nat)
    requires e in s.execs
  {
    var x := s.execs[e];
    IsRecv(body(x.hist)) && x.phase.Ran? && x.phase.slot == Own && e !in m.held ==>
      x.phase.op.name == RECV && x.phase.op.error.Some?
  }

  /** The log row of a receive is the message recorded for its step, or a timeout. */
  predicate Recorded(log: Log, m: N.Mail, n: int) {
    n in m.recorded && n in log &&
    match m.recorded[n]
    case Some(at) => at < |m.notes| && log[n] == OpOf(RECV, Value(m.notes[at].message))
    case None => log[n].error.Some?
  }

  predicate RecvAt(body: Body, spine: seq<Seen>, n: int, i: nat) {
    i < |spine| && IsRecv(body(spine[..i])) && Position(body, spine[..i]) == n
  }

  /** The messages returned along a history, in its order. */
  function Returned(body: Body, recorded: map<int, Option<nat>>, h: seq<Seen>): seq<nat> {
    if h == [] then []
    else
      var g := h[..|h| - 1];
      var n := Position(body, g);
      Returned(body, recorded, g) +
      if IsRecv(body(g)) && n in recorded && recorded[n].Some? then [recorded[n].value] else []
  }

  ghost predicate Linked(body: Body, b: Both) {
    var (s, m) := (b.s, b.m);
    (forall e :: e in m.held ==> Holding(body, s, m, e)) &&
    (forall e :: e in s.execs ==> TimedOut(body, s, m, e)) &&
    (forall i: nat, n :: RecvAt(body, s.spine, n, i) ==> Recorded(s.log, m, n)) &&
    (forall n :: n in m.recorded ==> exists i: nat :: RecvAt(body, s.spine, n, i)) &&
    m.order == Returned(body, m.recorded, s.spine)
  }

  // ---- every step keeps the link ----

  lemma {:induction false} ReturnedSame(body: Body, recorded: map<int, Option<nat>>, recorded': map<int, Option<nat>>, h: seq<Seen>)
    requires forall i: nat, n :: RecvAt(body, h, n, i) ==> n in recorded && n in recorded' && recorded[n] == recorded'[n]
    ensures Returned(body, recorded, h) == Returned(body, recorded', h)
  {
    if h != [] {
      var g := h[..|h| - 1];
      forall i: nat, n | RecvAt(body, g, n, i) ensures n in recorded && n in recorded' && recorded[n] == recorded'[n] {
        assert g[..i] == h[..i];
        assert RecvAt(body, h, n, i);
      }
      ReturnedSame(body, recorded, recorded', g);
      if IsRecv(body(g)) { assert RecvAt(body, h, Position(body, g), |g|); }
    }
  }

  /** Steps that add no result and record no message. */
  lemma QuietKeepsLink(body: Body, b: Both, b': Both)
    requires Linked(body, b) && b'.s.spine == b.s.spine
    requires forall n :: n in b.s.log ==> n in b'.s.log && b'.s.log[n] == b.s.log[n]
    requires b'.m.recorded == b.m.recorded && b'.m.order == b.m.order
    requires |b.m.notes| <= |b'.m.notes| && forall i :: 0 <= i < |b.m.notes| ==> b'.m.notes[i].message == b.m.notes[i].message
    requires forall e :: e in b'.m.held ==> Holding(body, b'.s, b'.m, e)
    requires forall e :: e in b'.s.execs ==> TimedOut(body, b'.s, b'.m, e)
    ensures Linked(body, b')
  {
    forall i: nat, n | RecvAt(body, b'.s.spine, n, i) ensures Recorded(b'.s.log, b'.m, n) {
      assert Recorded(b.s.log, b.m, n);
    }
  }

  /** The spine grows by a result that is no receive. */
  lemma OtherResultKeepsLink(body: Body, b: Both, b': Both, x: Seen)
    requires Linked(body, b) && b'.s.spine == b.s.spine + [x] && !IsRecv(body(b.s.spine)) && b'.m == b.m
    requires forall n :: n in b.s.log ==> n in b'.s.log && b'.s.log[n] == b.s.log[n]
    requires forall e :: e in b'.m.held ==> Holding(body, b'.s, b'.m, e)
    requires forall e :: e in b'.s.execs ==> TimedOut(body, b'.s, b'.m, e)
    ensures Linked(body, b')
  {
    var h, h' := b.s.spine, b'.s.spine;
    assert h'[..|h|] == h;
    forall i: nat, n | RecvAt(body, h', n, i) ensures Recorded(b'.s.log, b'.m, n) {
      assert i < |h| && h'[..i] == h[..i];
      assert RecvAt(body, h, n, i);
    }
    forall n | n in b'.m.recorded ensures exists i: nat :: RecvAt(body, h', n, i) {
      var i: nat :| RecvAt(body, h, n, i);
      assert h'[..i] == h[..i];
      assert RecvAt(body, h', n, i);
    }
  }

  /** Nothing held changes hands, and no receive has just ended. */
  ghost predicate Undisturbed(body: Body, s: State, m: N.Mail, s': State) {
    (forall e :: e in m.held ==> Holding(body, s', m, e)) && forall e :: e in s'.execs ==> TimedOut(body, s', m, e)
  }

  lemma IdleIsSame(m: N.Mail, act: N.Act, m': N.Mail)
    requires Idle(m, act) && N.Step(m, act, m')
    ensures m' == m
  {
    assert m.held - {act.e} == m.held;
  }

  lemma LocalUndisturbed(body: Body, b: Both, v: Event)
    requires Linked(body, b) && Inv(body, b.s) && Enabled(body, b.s, v, false)
    requires v.Check? || v.Ask? || v.RunPublish? || v.Wake? || v.Clash? || (v.RunClosure? && !IsRecv(body(b.s.execs[v.e].hist)))
    ensures Undisturbed(body, b.s, b.m, Apply(body, b.s, v))
  {
    var s, s', m := b.s, Apply(body, b.s, v), b.m;
    assert ExecInv(body, s, s.execs[v.e]);
    forall e | e in m.held ensures Holding(body, s', m, e) {
      assert Holding(body, s, m, e);
    }
    forall e | e in s'.execs ensures TimedOut(body, s', m, e) {
      assert TimedOut(body, s, m, e);
    }
  }

  lemma RowStepUndisturbed(body: Body, b: Both, v: Event)
    requires Linked(body, b) && Enabled(body, b.s, v, false)
    requires v.WriteOutcome? || v.ReadOutcome? || v.WriteError? || v.CancelRow? || v.ResumeRow? || v.ParkRow? || v.Launch?
    ensures Undisturbed(body, b.s, b.m, Apply(body, b.s, v))
  {
    var s, s', m := b.s, Apply(body, b.s, v), b.m;
    forall e | e in m.held ensures Holding(body, s', m, e) {
      assert Holding(body, s, m, e);
    }
    forall e | e in s'.execs ensures TimedOut(body, s', m, e) {
      if e in s.execs { assert TimedOut(body, s, m, e); }
    }
  }

  lemma HearUndisturbed(body: Body, b: Both, v: Event)
    requires Linked(body, b) && Enabled(body, b.s, v, false) && Hears(v)
    ensures Undisturbed(body, b.s, b.m, Apply(body, b.s, v))
  {
    var s, s', m := b.s, Apply(body, b.s, v), b.m;
    forall e | e in m.held ensures Holding(body, s', m, e) {
      assert Holding(body, s, m, e);
    }
    forall e | e in s'.execs ensures TimedOut(body, s', m, e) {
      if e != v.e { assert TimedOut(body, s, m, e); }
    }
  }

  /** An insert of anything but a receive's result. */
  lemma InsertUndisturbed(body: Body, s: State, m: N.Mail, e: nat)
    requires forall f :: f in m.held ==> Holding(body, s, m, f)
    requires forall f :: f in s.execs ==> TimedOut(body, s, m, f)
    requires e in s.execs && s.execs[e].phase.Ran? && e !in m.held
    ensures Undisturbed(body, s, m, AfterInsert(body, s, e))
  {
    InsertEndsRan(body, s, e);
    assert m.held - {e} == m.held;
    EndedUndisturbed(body, s, m, e, AfterInsert(body, s, e), m);
  }

  /** Without a mailbox part, a step adds at most one result, which is no receive. */
  lemma IdleStepKeepsLink(body: Body, b: Both, v: Event, s': State)
    requires Linked(body, b) && Undisturbed(body, b.s, b.m, s') && Grows(b.s, s')
    requires s'.spine == b.s.spine || (|s'.spine| == |b.s.spine| + 1 && !IsRecv(body(b.s.spine)))
    ensures Linked(body, Both(s', b.m))
  {
    if s'.spine == b.s.spine {
      QuietKeepsLink(body, b, Both(s', b.m));
    } else {
      assert s'.spine == b.s.spine + [s'.spine[|b.s.spine|]];
      OtherResultKeepsLink(body, b, Both(s', b.m), s'.spine[|b.s.spine|]);
    }
  }

  /** How the spine grows in an insert. */
  lemma InsertAddsOwn(body: Body, s: State, e: nat)
    requires SpineInv(body, s) && e in s.execs && s.execs[e].phase.Ran? && ExecInv(body, s, s.execs[e])
    ensures var (s', x) := (AfterInsert(body, s, e), s.execs[e]);
            s'.spine == s.spine ||
            (x.phase.slot == Own && x.hist == s.spine && |s'.spine| == |s.spine| + 1 && SlotId(body, x.hist, Own) !in s.log)
    ensures Grows(s, AfterInsert(body, s, e))
  {
    InsertGrows(body, s, e);
    var x := s.execs[e];
    if x.phase.slot == Own && Position(body, x.hist) !in s.log { AtFrontier(body, s, x.hist); }
  }

  lemma OtherInsertKeepsLink(body: Body, b: Both, e: nat)
    requires Linked(body, b) && Inv(body, b.s) && e in b.s.execs && b.s.execs[e].phase.Ran?
    requires !(IsRecv(body(b.s.execs[e].hist)) && b.s.execs[e].phase.slot == Own)
    ensures Linked(body, Both(AfterInsert(body, b.s, e), b.m))
  {
    assert ExecInv(body, b.s, b.s.execs[e]);
    assert e in b.m.held ==> Holding(body, b.s, b.m, e);
    InsertUndisturbed(body, b.s, b.m, e);
    InsertAddsOwn(body, b.s, e);
    IdleStepKeepsLink(body, b, Event.Insert(e), AfterInsert(body, b.s, e));
  }

  lemma SpawnKeepsLink(body: Body, b: Both, e: nat, c: Id)
    requires Linked(body, b) && Inv(body, b.s) && Enabled(body, b.s, SpawnChild(e, c), false)
    ensures Linked(body, Both(Apply(body, b.s, SpawnChild(e, c)), b.m))
  {
    var s1 := Spawning(body, b.s, e, c);
    assert ExecInv(body, b.s, b.s.execs[e]);
    assert e in b.m.held ==> Holding(body, b.s, b.m, e);
    SpawningKeepsInv(body, b.s, e, c);
    forall f | f in b.m.held ensures Holding(body, s1, b.m, f) {
      assert Holding(body, b.s, b.m, f);
    }
    forall f | f in s1.execs ensures TimedOut(body, s1, b.m, f) {
      assert TimedOut(body, b.s, b.m, f);
    }
    QuietKeepsLink(body, b, Both(s1, b.m));
    SpawnIsInsert(body, b.s, e, c);
    OtherInsertKeepsLink(body, Both(s1, b.m), e);
  }

  // ---- a receive ----

  /** The closure of a receive: it takes a message, or times out. */
  lemma TakeKeepsLink(body: Body, b: Both, e: nat, r: Live, act: N.Act, b': Both)
    requires Linked(body, b) && Inv(body, b.s) && Enabled(body, b.s, RunClosure(e, r), false)
    requires IsRecv(body(b.s.execs[e].hist)) && Matches(body, b.s, b.m, RunClosure(e, r), act) && N.Step(b.m, act, b'.m)
    requires b'.s == Apply(body, b.s, RunClosure(e, r))
    ensures Linked(body, b')
  {
    TakeUndisturbed(body, b, e, r, act, b');
    QuietKeepsLink(body, b, b');
  }

  lemma TakeUndisturbed(body: Body, b: Both, e: nat, r: Live, act: N.Act, b': Both)
    requires Linked(body, b) && Enabled(body, b.s, RunClosure(e, r), false)
    requires IsRecv(body(b.s.execs[e].hist)) && Matches(body, b.s, b.m, RunClosure(e, r), act) && N.Step(b.m, act, b'.m)
    requires b'.s == Apply(body, b.s, RunClosure(e, r))
    ensures forall f :: f in b'.m.held ==> Holding(body, b'.s, b'.m, f)
    ensures forall f :: f in b'.s.execs ==> TimedOut(body, b'.s, b'.m, f)
  {
    var s, m, s', m' := b.s, b.m, b'.s, b'.m;
    if r.Fault? { IdleIsSame(m, act, m'); }
    assert e in m.held ==> Holding(body, s, m, e);
    forall f | f in m'.held ensures Holding(body, s', m', f) {
      if f != e { assert Holding(body, s, m, f); }
    }
    forall f | f in s'.execs ensures TimedOut(body, s', m', f) {
      if f != e { assert TimedOut(body, s, m, f); }
    }
  }

  /** Losing the insert of a receive: what was taken is dropped, and the step was recorded. */
  lemma LostRecvKeepsLink(body: Body, b: Both, e: nat, act: N.Act, b': Both)
    requires Linked(body, b) && Inv(body, b.s) && Enabled(body, b.s, Event.Insert(e), false)
    requires IsRecv(body(b.s.execs[e].hist)) && b.s.execs[e].phase.slot == Own && Position(body, b.s.execs[e].hist) in b.s.log
    requires Matches(body, b.s, b.m, Event.Insert(e), act) && N.Step(b.m, act, b'.m)
    requires b'.s == AfterInsert(body, b.s, e)
    ensures Linked(body, b')
  {
    var s, m, s', m' := b.s, b.m, b'.s, b'.m;
    LostIsRecorded(body, b, e);
    RecvInsertUndisturbed(body, b, e, act, b');
    QuietKeepsLink(body, b, b');
  }

  /** A receive that loses its insert is recorded. */
  lemma LostIsRecorded(body: Body, b: Both, e: nat)
    requires Linked(body, b) && Inv(body, b.s) && e in b.s.execs && IsRecv(body(b.s.execs[e].hist))
    requires Position(body, b.s.execs[e].hist) in b.s.log && b.s.execs[e].phase.Ran?
    ensures Recorded(b.s.log, b.m, Position(body, b.s.execs[e].hist))
  {
    var s, h := b.s, b.s.execs[e].hist;
    assert ExecInv(body, s, s.execs[e]);
    HitIsSpine(body, s, h);
    assert s.spine[..|h|] == h;
    assert RecvAt(body, s.spine, Position(body, h), |h|);
  }

  /** Whoever inserts the result of a receive holds nothing any more. */
  lemma RecvInsertUndisturbed(body: Body, b: Both, e: nat, act: N.Act, b': Both)
    requires Linked(body, b) && e in b.s.execs && b.s.execs[e].phase.Ran? && b'.s == AfterInsert(body, b.s, e)
    requires act == (if e in b.m.held then N.Record(e) else N.RecordTimeout(Position(body, b.s.execs[e].hist)))
    requires N.Step(b.m, act, b'.m)
    ensures forall f :: f in b'.m.held ==> Holding(body, b'.s, b'.m, f)
    ensures forall f :: f in b'.s.execs ==> TimedOut(body, b'.s, b'.m, f)
  {
    var s, m, s', m' := b.s, b.m, b'.s, b'.m;
    InsertEndsRan(body, s, e);
    assert e !in m.held ==> m.held - {e} == m.held;
    EndedUndisturbed(body, s, m, e, s', m');
  }

  lemma InsertEndsRan(body: Body, s: State, e: nat)
    requires e in s.execs && s.execs[e].phase.Ran?
    ensures var s' := AfterInsert(body, s, e);
            e in s'.execs && s'.execs == s.execs[e := s'.execs[e]] && !s'.execs[e].phase.Ran?
  {
    InsertKeepsOthers(body, s, e);
  }

  lemma InsertKeepsOthers(body: Body, s: State, e: nat)
    requires e in s.execs && s.execs[e].phase.Ran?
    ensures var s' := AfterInsert(body, s, e); e in s'.execs && s'.execs == s.execs[e := s'.execs[e]]
  {
  }

  lemma EndedUndisturbed(body: Body, s: State, m: N.Mail, e: nat, s': State, m': N.Mail)
    requires forall f :: f in m.held ==> Holding(body, s, m, f)
    requires forall f :: f in s.execs ==> TimedOut(body, s, m, f)
    requires e in s.execs && e in s'.execs && s'.execs == s.execs[e := s'.execs[e]] && !s'.execs[e].phase.Ran?
    requires m'.notes == m.notes && m'.held == m.held - {e}
    ensures forall f :: f in m'.held ==> Holding(body, s', m', f)
    ensures forall f :: f in s'.execs ==> TimedOut(body, s', m', f)
  {
    forall f | f in m'.held ensures Holding(body, s', m', f) {
      assert Holding(body, s, m, f);
    }
    forall f | f in s'.execs ensures TimedOut(body, s', m', f) {
      if f != e { assert TimedOut(body, s, m, f); }
    }
  }

  /** Nothing is recorded yet for a step whose id is free. */
  lemma NotYetRecorded(body: Body, b: Both, n: int)
    requires Linked(body, b) && SpineInv(body, b.s) && n !in b.s.log
    ensures n !in b.m.recorded && forall i: nat :: !RecvAt(body, b.s.spine, n, i)
  {
    forall i: nat ensures !RecvAt(body, b.s.spine, n, i) {
      if i < |b.s.spine| { assert Logged(body, b.s.log, b.s.spine, i); }
    }
  }

  /** The entry for the new step joins the others. */
  lemma RecordedGrows(body: Body, b: Both, b': Both, n: int)
    requires Linked(body, b) && SpineInv(body, b.s) && n !in b.s.log && n == Position(body, b.s.spine) && IsRecv(body(b.s.spine))
    requires |b'.s.spine| == |b.s.spine| + 1 && b.s.spine <= b'.s.spine
    requires n in b'.s.log && b'.s.log == b.s.log[n := b'.s.log[n]]
    requires n in b'.m.recorded && b'.m.recorded == b.m.recorded[n := b'.m.recorded[n]] && b'.m.notes == b.m.notes
    requires Recorded(b'.s.log, b'.m, n)
    requires b'.m.order == b.m.order + if b'.m.recorded[n].Some? then [b'.m.recorded[n].value] else []
    requires forall f :: f in b'.m.held ==> Holding(body, b'.s, b'.m, f)
    requires forall f :: f in b'.s.execs ==> TimedOut(body, b'.s, b'.m, f)
    ensures Linked(body, b')
  {
    var h, h' := b.s.spine, b'.s.spine;
    NotYetRecorded(body, b, n);
    assert h'[..|h|] == h;
    forall i: nat, k | RecvAt(body, h', k, i) ensures Recorded(b'.s.log, b'.m, k) {
      assert h'[..i] == h[..i];
      if i < |h| {
        assert RecvAt(body, h, k, i);
        assert Recorded(b.s.log, b.m, k);
      } else {
        assert h[..i] == h;
      }
    }
    forall k | k in b'.m.recorded ensures exists i: nat :: RecvAt(body, h', k, i) {
      if k == n {
        assert RecvAt(body, h', k, |h|);
      } else {
        var i: nat :| RecvAt(body, h, k, i);
        assert h'[..i] == h[..i];
        assert RecvAt(body, h', k, i);
      }
    }
    ReturnedSame(body, b.m.recorded, b'.m.recorded, h);
  }

  /** Winning the insert of a receive records what it took, or its timeout. */
  lemma WonRecvKeepsLink(body: Body, b: Both, e: nat, act: N.Act, b': Both)
    requires Linked(body, b) && Inv(body, b.s) && Enabled(body, b.s, Event.Insert(e), false)
    requires IsRecv(body(b.s.execs[e].hist)) && b.s.execs[e].phase.slot == Own && Position(body, b.s.execs[e].hist) !in b.s.log
    requires Matches(body, b.s, b.m, Event.Insert(e), act) && N.Step(b.m, act, b'.m)
    requires b'.s == AfterInsert(body, b.s, e)
    ensures Linked(body, b')
  {
    var s, m, s', m' := b.s, b.m, b'.s, b'.m;
    var n := Position(body, s.execs[e].hist);
    assert ExecInv(body, s, s.execs[e]) && TimedOut(body, s, m, e);
    assert e in m.held ==> Holding(body, s, m, e);
    AtFrontier(body, s, s.execs[e].hist);
    NotYetRecorded(body, b, n);
    RecvInsertUndisturbed(body, b, e, act, b');
    WonRecvEntry(body, b, e, act, b');
    RecordedGrows(body, b, b', n);
  }

  lemma WonRecvEntry(body: Body, b: Both, e: nat, act: N.Act, b': Both)
    requires Inv(body, b.s) && Enabled(body, b.s, Event.Insert(e), false)
    requires IsRecv(body(b.s.execs[e].hist)) && b.s.execs[e].phase.slot == Own
    requires b.s.execs[e].hist == b.s.spine && Position(body, b.s.spine) !in b.s.log && Position(body, b.s.spine) !in b.m.recorded
    requires e in b.m.held ==> Holding(body, b.s, b.m, e)
    requires TimedOut(body, b.s, b.m, e)
    requires Matches(body, b.s, b.m, Event.Insert(e), act) && N.Step(b.m, act, b'.m)
    requires b'.s == AfterInsert(body, b.s, e)
    ensures var n := Position(body, b.s.spine);
            |b'.s.spine| == |b.s.spine| + 1 && b.s.spine <= b'.s.spine &&
            n in b'.s.log && b'.s.log == b.s.log[n := b'.s.log[n]] &&
            n in b'.m.recorded && b'.m.recorded == b.m.recorded[n := b'.m.recorded[n]] && b'.m.notes == b.m.notes &&
            Recorded(b'.s.log, b'.m, n) &&
            b'.m.order == b.m.order + if b'.m.recorded[n].Some? then [b'.m.recorded[n].value] else []
  {
    assert ExecInv(body, b.s, b.s.execs[e]);
  }

  lemma CrashKeepsLink(body: Body, b: Both, e: nat, b': Both)
    requires Linked(body, b) && N.Step(b.m, N.Crash(e), b'.m) && b'.s == b.s.(execs := b.s.execs - {e})
    ensures Linked(body, b')
  {
    forall f | f in b'.m.held ensures Holding(body, b'.s, b'.m, f) {
      assert Holding(body, b.s, b.m, f);
    }
    forall f | f in b'.s.execs ensures TimedOut(body, b'.s, b'.m, f) {
      assert TimedOut(body, b.s, b.m, f);
    }
    QuietKeepsLink(body, b, b');
  }

  lemma SendKeepsLink(body: Body, b: Both, act: N.Act, b': Both)
    requires Linked(body, b) && act.Send? && N.Step(b.m, act, b'.m) && b'.s == b.s
    ensures Linked(body, b')
  {
    forall f | f in b'.m.held ensures Holding(body, b'.s, b'.m, f) {
      assert Holding(body, b.s, b.m, f);
    }
    forall f | f in b'.s.execs ensures TimedOut(body, b'.s, b'.m, f) {
      assert TimedOut(body, b.s, b.m, f);
    }
    QuietKeepsLink(body, b, b');
  }

  // ---- runs ----

  lemma IdleEventKeepsLink(body: Body, b: Both, v: Event, s': State)
    requires Linked(body, b) && Inv(body, b.s) && Enabled(body, b.s, v, false) && s' == Apply(body, b.s, v)
    requires !v.Insert? && !v.SpawnChild? && !v.Crash? && (v.RunClosure? ==> !IsRecv(body(b.s.execs[v.e].hist)))
    ensures Linked(body, Both(s', b.m))
  {
    if Hears(v) {
      HearUndisturbed(body, b, v);
      HearGrows(body, b.s, v);
    } else {
      OthersKeepLog(body, b.s, v);
      if v.Check? || v.Ask? || v.RunPublish? || v.Wake? || v.Clash? || v.RunClosure? {
        LocalUndisturbed(body, b, v);
      } else {
        RowStepUndisturbed(body, b, v);
      }
    }
    IdleStepKeepsLink(body, b, v, s');
  }

  lemma InsertKeepsLink(body: Body, b: Both, e: nat, act: N.Act, b': Both)
    requires Linked(body, b) && Inv(body, b.s) && Enabled(body, b.s, Event.Insert(e), false)
    requires Matches(body, b.s, b.m, Event.Insert(e), act) && N.Step(b.m, act, b'.m)
    requires b'.s == AfterInsert(body, b.s, e)
    ensures Linked(body, b')
  {
    if !(IsRecv(body(b.s.execs[e].hist)) && b.s.execs[e].phase.slot == Own) {
      IdleIsSame(b.m, act, b'.m);
      OtherInsertKeepsLink(body, b, e);
    } else if Position(body, b.s.execs[e].hist) in b.s.log {
      LostRecvKeepsLink(body, b, e, act, b');
    } else {
      WonRecvKeepsLink(body, b, e, act, b');
    }
  }

  lemma StepKeepsLink(body: Body, b: Both, v: Option<Event>, act: N.Act, b': Both, solo: bool)
    requires Linked(body, b) && Inv(body, b.s) && Step(body, b, v, act, b', solo)
    ensures Linked(body, b')
  {
    if v.None? {
      SendKeepsLink(body, b, act, b');
    } else {
      EventKeepsLink(body, b, v.value, act, b', solo);
    }
  }

  lemma EventKeepsLink(body: Body, b: Both, w: Event, act: N.Act, b': Both, solo: bool)
    requires Linked(body, b) && Inv(body, b.s) && Step(body, b, Some(w), act, b', solo)
    ensures Linked(body, b')
  {
    if w.Insert? {
      InsertKeepsLink(body, b, w.e, act, b');
    } else if w.Crash? {
      CrashKeepsLink(body, b, w.e, b');
    } else if w.RunClosure? && IsRecv(body(b.s.execs[w.e].hist)) {
      TakeKeepsLink(body, b, w.e, w.r, act, b');
    } else {
      IdleIsSame(b.m, act, b'.m);
      if w.SpawnChild? {
        SpawnKeepsLink(body, b, w.e, w.child);
      } else {
        IdleEventKeepsLink(body, b, w, b'.s);
      }
    }
  }

  predicate Fresh(b: Both) {
    b.s.spine == [] && b.s.execs == map[] && N.Empty(b.m)
  }

  lemma {:induction false} RunKeepsLink(body: Body, bs: seq<Both>, vs: seq<Option<Event>>, acts: seq<N.Act>, solo: bool, k: nat)
    requires Run(body, bs, vs, acts, solo) && Init(body, bs[0].s) && Fresh(bs[0]) && k <= |vs|
    ensures Inv(body, bs[k].s) && Linked(body, bs[k])
  {
    if k == 0 {
      InitMeetsInv(body, bs[0].s);
    } else {
      RunKeepsLink(body, bs, vs, acts, solo, k - 1);
      assert Step(body, bs[k - 1], vs[k - 1], acts[k - 1], bs[k], solo);
      StepKeepsLink(body, bs[k - 1], vs[k - 1], acts[k - 1], bs[k], solo);
      if vs[k - 1].Some? { ReplayInv.StepKeepsInv(body, bs[k - 1].s, vs[k - 1].value, bs[k].s, solo); }
    }
  }

  /** In every run of the protocol, with any number of executions and crashes: what the step
      log holds for a receive is a message that was sent, or a timeout, and no message is the
      result of two receives. */
  lemma LoggedAtMostOnce(body: Body, bs: seq<Both>, vs: seq<Option<Event>>, acts: seq<N.Act>, solo: bool, k: nat,
                         i: nat, a: int, j: nat, b: int)
    requires Run(body, bs, vs, acts, solo) && Init(body, bs[0].s) && Fresh(bs[0]) && k <= |vs|
    requires RecvAt(body, bs[k].s.spine, a, i) && RecvAt(body, bs[k].s.spine, b, j)
    ensures var (s, m) := (bs[k].s, bs[k].m);
            Recorded(s.log, m, a) && Recorded(s.log, m, b) &&
            (m.recorded[a].Some? ==> (m.recorded[a] == m.recorded[b] <==> i == j))
  {
    RunKeepsLink(body, bs, vs, acts, solo, k);
    MailsRun(body, bs, vs, acts, solo);
    N.ReturnedAtMostOnce(Mails(bs), acts, k);
    var s := bs[k].s;
    if i < j { PositionsGrow(body, s.log, s.spine, i, j); }
    if j < i { PositionsGrow(body, s.log, s.spine, j, i); }
  }

  /** On runs without crash or race between consuming and recording, what the receives of a
      topic return along the history is a prefix of what was sent to the topic. */
  lemma LoggedInOrder(body: Body, bs: seq<Both>, vs: seq<Option<Event>>, acts: seq<N.Act>, solo: bool, k: nat)
    requires Run(body, bs, vs, acts, solo) && Init(body, bs[0].s) && Fresh(bs[0]) && k <= |vs|
    requires forall j :: 0 <= j < |acts| ==> N.Orderly(bs[j].m, acts[j])
    ensures var (s, m) := (bs[k].s, bs[k].m);
            var returned := Returned(body, m.recorded, s.spine);
            N.Within(returned, |m.notes|) && forall t :: N.OfTopic(m.notes, returned, t) <= N.Sent(m.notes, t)
  {
    RunKeepsLink(body, bs, vs, acts, solo, k);
    MailsRun(body, bs, vs, acts, solo);
    var _ := N.ReturnedInOrder(Mails(bs), acts, k);
  }
}
