/** What the receives of the internal debouncer workflow return. */
module DebounceMail {
  import opened Wrappers
  import opened Tables
  import opened StepLog
  import opened Replay
  import opened ReplayInv
  import opened Durable
  import opened Events
  import opened Debouncer
  import opened DebounceSteps

  /** Every receive of the history returned what it may, or failed. */
  predicate MailHist(d: DebouncerInput, ok: Payload -> bool, h: seq<Seen>) {
    forall i :: 0 <= i < |h| ==> MailAt(d, ok, h, i)
  }

  predicate MailAt(d: DebouncerInput, ok: Payload -> bool, h: seq<Seen>, i: nat)
    requires i < |h|
  {
    After(d, h[..i]).place.Receive? && h[i].Got? ==> ok(h[i].v)
  }

  /** What is about to be recorded as received is so, too. */
  predicate Fetched(d: DebouncerInput, ok: Payload -> bool, x: Exec) {
    var a := BodyOf(d)(x.hist);
    x.phase.Ran? && x.phase.slot == Own && a.Wait? && SeenIn(a, x.phase.op).Some? ==>
      var r := SeenIn(a, x.phase.op).value;
      r.Got? ==> ok(r.v)
  }

  ghost predicate MailInv(d: DebouncerInput, ok: Payload -> bool, s: State) {
    MailHist(d, ok, s.spine) && forall e :: e in s.execs ==> Fetched(d, ok, s.execs[e])
  }

  lemma MailNext(d: DebouncerInput, ok: Payload -> bool, h: seq<Seen>, r: Seen)
    requires MailHist(d, ok, h) && (After(d, h).place.Receive? && r.Got? ==> ok(r.v))
    ensures MailHist(d, ok, h + [r])
  {
    forall i | 0 <= i < |h| + 1 ensures MailAt(d, ok, h + [r], i) {
      assert (h + [r])[..i] == h[..i];
      if i < |h| {
        assert MailAt(d, ok, h, i);
      } else {
        assert h[..i] == h;
      }
    }
  }

  lemma {:induction false} AcceptedIsOk(d: DebouncerInput, ok: Payload -> bool, h: seq<Seen>)
    requires MailHist(d, ok, h)
    ensures forall m :: m in Accepted(d, h) ==> ok(m)
  {
    if h != [] {
      var g := h[..|h| - 1];
      forall i | 0 <= i < |g| ensures MailAt(d, ok, g, i) {
        assert g[..i] == h[..i];
        assert MailAt(d, ok, h, i);
      }
      AcceptedIsOk(d, ok, g);
      assert MailAt(d, ok, h, |g|);
    }
  }

  lemma MoreMail(d: DebouncerInput, ok: Payload -> bool, ok': Payload -> bool, s: State)
    requires MailInv(d, ok, s) && forall p :: ok(p) ==> ok'(p)
    ensures MailInv(d, ok', s)
  {
    forall i | 0 <= i < |s.spine| ensures MailAt(d, ok', s.spine, i) {
      assert MailAt(d, ok, s.spine, i);
    }
    forall e | e in s.execs ensures Fetched(d, ok', s.execs[e]) {
      assert Fetched(d, ok, s.execs[e]);
    }
  }

  lemma WaitIsReceive(d: DebouncerInput, h: seq<Seen>)
    ensures BodyOf(d)(h).Wait? <==> After(d, h).place.Receive?
  {
  }

  /** The spine grows only by the result that an execution at its end is recording. */
  lemma InsertExtends(body: Body, s: State, e: nat)
    requires SpineInv(body, s) && e in s.execs && s.execs[e].phase.Ran? && ExecInv(body, s, s.execs[e])
    ensures var (s', x) := (AfterInsert(body, s, e), s.execs[e]);
            var seen := SeenIn(body(x.hist), x.phase.op);
            (s'.spine == s.spine || (x.phase.slot == Own && seen.Some? && s'.spine == s.spine + [seen.value] && x.hist == s.spine)) &&
            e in s'.execs && !s'.execs[e].phase.Ran? && s'.execs == s.execs[e := s'.execs[e]]
  {
    var x := s.execs[e];
    if x.phase.slot == Own && Position(body, x.hist) !in s.log {
      AtFrontier(body, s, x.hist);
    }
  }

  lemma InsertKeepsMail(d: DebouncerInput, ok: Payload -> bool, s: State, e: nat)
    requires SpineInv(BodyOf(d), s) && e in s.execs && s.execs[e].phase.Ran? && ExecInv(BodyOf(d), s, s.execs[e])
    requires MailInv(d, ok, s)
    ensures MailInv(d, ok, AfterInsert(BodyOf(d), s, e))
  {
    var x, s' := s.execs[e], AfterInsert(BodyOf(d), s, e);
    assert Fetched(d, ok, x);
    InsertExtends(BodyOf(d), s, e);
    WaitIsReceive(d, s.spine);
    if s'.spine != s.spine { MailNext(d, ok, s.spine, SeenIn(BodyOf(d)(x.hist), x.phase.op).value); }
    forall o | o in s'.execs ensures Fetched(d, ok, s'.execs[o]) {
      if o != e { assert Fetched(d, ok, s.execs[o]); }
    }
  }

  lemma ClosureIsFetched(d: DebouncerInput, ok: Payload -> bool, s: State, e: nat, r: Live)
    requires Enabled(BodyOf(d), s, RunClosure(e, r), false) && Genuine(d, ok, s, RunClosure(e, r))
    ensures var s' := Apply(BodyOf(d), s, RunClosure(e, r)); e in s'.execs && Fetched(d, ok, s'.execs[e])
  {
    ReplayShowsTheSame(OpName(BodyOf(d)(s.execs[e].hist)), r);
  }

  lemma CheckRunsNothing(body: Body, s: State, x: Exec)
    ensures !AfterCheck(body, s, x).phase.Ran?
  {
  }

  lemma LocalIsFetched(d: DebouncerInput, ok: Payload -> bool, s: State, v: Event)
    requires v.Ask? || v.RunClosure? || v.RunPublish? || v.Check? || v.Wake? || v.Clash?
    requires Enabled(BodyOf(d), s, v, false) && Genuine(d, ok, s, v) && v.e in s.execs
    requires v.Ask? ==> ExecInv(BodyOf(d), s, s.execs[v.e])
    ensures var s' := Apply(BodyOf(d), s, v);
            v.e in s'.execs && Fetched(d, ok, s'.execs[v.e]) && s'.spine == s.spine && s'.execs == s.execs[v.e := s'.execs[v.e]]
  {
    if v.RunClosure? {
      ClosureIsFetched(d, ok, s, v.e, v.r);
    } else if v.Check? {
      CheckRunsNothing(BodyOf(d), s, s.execs[v.e]);
    }
  }

  lemma LocalKeepsMail(d: DebouncerInput, ok: Payload -> bool, s: State, v: Event)
    requires v.Ask? || v.RunClosure? || v.RunPublish? || v.Check? || v.Wake? || v.Clash?
    requires Enabled(BodyOf(d), s, v, false) && Genuine(d, ok, s, v) && v.e in s.execs && MailInv(d, ok, s)
    requires v.Ask? ==> ExecInv(BodyOf(d), s, s.execs[v.e])
    ensures MailInv(d, ok, Apply(BodyOf(d), s, v))
  {
    LocalIsFetched(d, ok, s, v);
    var s' := Apply(BodyOf(d), s, v);
    forall o | o in s'.execs ensures Fetched(d, ok, s'.execs[o]) {
      if o != v.e { assert Fetched(d, ok, s.execs[o]); }
    }
  }

  lemma EnqueueExtends(body: Body, s: State, e: nat)
    requires Enabled(body, s, EnqueueRow(e), false)
    ensures var s' := Apply(body, s, EnqueueRow(e));
            (s'.spine == s.spine || (s'.spine == s.spine + [Got(Null)] && !body(s.spine).Wait?)) &&
            e in s'.execs && s'.execs[e].phase.Ready? && s'.execs == s.execs[e := s'.execs[e]]
  {
  }

  lemma EnqueueKeepsMail(d: DebouncerInput, ok: Payload -> bool, s: State, e: nat)
    requires Enabled(BodyOf(d), s, EnqueueRow(e), false) && MailInv(d, ok, s)
    ensures MailInv(d, ok, Apply(BodyOf(d), s, EnqueueRow(e)))
  {
    EnqueueExtends(BodyOf(d), s, e);
    HeardKeepsMail(d, ok, s, e, Apply(BodyOf(d), s, EnqueueRow(e)));
  }

  lemma HeardKeepsMail(d: DebouncerInput, ok: Payload -> bool, s: State, e: nat, s': State)
    requires MailInv(d, ok, s) && e in s'.execs && s'.execs[e].phase.Ready? && s'.execs == s.execs[e := s'.execs[e]]
    requires s'.spine == s.spine || (s'.spine == s.spine + [Got(Null)] && !BodyOf(d)(s.spine).Wait?)
    ensures MailInv(d, ok, s')
  {
    WaitIsReceive(d, s.spine);
    if s'.spine != s.spine { MailNext(d, ok, s.spine, Got(Null)); }
    forall o | o in s'.execs ensures Fetched(d, ok, s'.execs[o]) {
      if o != e { assert Fetched(d, ok, s.execs[o]); }
    }
  }

  lemma FinishKeepsMail(d: DebouncerInput, ok: Payload -> bool, s: State, v: Event)
    requires Enabled(BodyOf(d), s, v, false) && MailInv(d, ok, s)
    requires v.WriteOutcome? || v.ReadOutcome? || v.WriteError? || v.Launch? || v.Crash? || v.CancelRow? || v.ResumeRow? || v.ParkRow?
    ensures MailInv(d, ok, Apply(BodyOf(d), s, v))
  {
    var s' := Apply(BodyOf(d), s, v);
    OthersKeepLog(BodyOf(d), s, v);
    forall o | o in s'.execs ensures Fetched(d, ok, s'.execs[o]) {
      if o in s.execs { assert Fetched(d, ok, s.execs[o]); }
    }
  }

  /** An execution about to insert or to ask is on the spine. */
  lemma WorkerIsOnSpine(d: DebouncerInput, s: State, e: nat)
    requires Sound(d, s) && e in s.execs && PastLookup(s.execs[e].phase)
    ensures SpineInv(BodyOf(d), s) && ExecInv(BodyOf(d), s, s.execs[e])
  {
    assert Stray(s, s.execs[e]) ==> StrayOk(d, s, s.execs[e]);
    CoreSpine(BodyOf(d), s);
    assert ExecInv(BodyOf(d), Core(s), Core(s).execs[e]);
    SameLogKeepsExec(BodyOf(d), Core(s), s, s.execs[e]);
  }

  lemma StepKeepsMail(d: DebouncerInput, ok: Payload -> bool, s: State, a: Act, s': State)
    requires Sound(d, s) && MailInv(d, ok, s) && Does(d, ok, s, a, s')
    ensures MailInv(d, ok, s')
  {
    if a.Catch? {
      forall o | o in s'.execs ensures Fetched(d, ok, s'.execs[o]) {
        if o != a.e { assert Fetched(d, ok, s.execs[o]); }
      }
    } else {
      PlainKeepsMail(d, ok, s, a.v);
    }
  }

  lemma PlainKeepsMail(d: DebouncerInput, ok: Payload -> bool, s: State, v: Event)
    requires Sound(d, s) && MailInv(d, ok, s) && Enabled(BodyOf(d), s, v, true) && Genuine(d, ok, s, v)
    ensures MailInv(d, ok, Apply(BodyOf(d), s, v))
  {
    EnabledAnyway(BodyOf(d), s, v, true);
    if v.Insert? {
      WorkerIsOnSpine(d, s, v.e);
      InsertKeepsMail(d, ok, s, v.e);
    } else if v.SpawnChild? || v.Hear? || v.Leave? {
      OnlyItsActions(d, s.execs[v.e].hist);
    } else if v.EnqueueRow? {
      EnqueueKeepsMail(d, ok, s, v.e);
    } else if v.Ask? || v.RunClosure? || v.RunPublish? || v.Check? || v.Wake? || v.Clash? {
      if v.Ask? { WorkerIsOnSpine(d, s, v.e); }
      LocalKeepsMail(d, ok, s, v);
    } else {
      FinishKeepsMail(d, ok, s, v);
    }
  }
}
