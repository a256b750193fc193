/** Forking: the new workflow starts from the part of the original's log below a step. */
module Fork {
  import opened Wrappers
  import opened Tables
  import opened StepLog
  import opened Replay
  import opened ReplayInv
  import opened Durable

  /** A fork that succeeds copies exactly the log entries below its start step, and changes no
      other log. */
  lemma ForkCopiesBelow(db: Db, f: ForkInput, now: int)
    requires Tables.Fork(db, f, now).1.Ok?
    requires f.forked !in db.ops && forall k :: k in LogOf(db, f.original) ==> k >= 0
    ensures var db' := Tables.Fork(db, f, now).0;
            LogOf(db', f.forked) == Below(LogOf(db, f.original), f.startStep) &&
            (forall id :: id != f.forked ==> LogOf(db', id) == LogOf(db, id)) &&
            db'.rows[f.forked].status == Enqueued && db'.rows[f.forked].input == db.rows[f.original].input &&
            db'.rows[f.forked].name == db.rows[f.original].name &&
            db'.rows[f.original] == db.rows[f.original].(wasForkedFrom := true)
  {
    if f.startStep == 0 { assert Below(LogOf(db, f.original), 0) == map[]; }
  }

  /** The results of the spine whose own step ids lie below the start. */
  function CutSpine(body: Body, spine: seq<Seen>, start: int): (cut: seq<Seen>)
    ensures cut <= spine
  {
    if spine == [] || Position(body, spine[..|spine| - 1]) < start then spine
    else CutSpine(body, spine[..|spine| - 1], start)
  }

  lemma {:induction false} CutIsBelow(body: Body, log: Log, spine: seq<Seen>, start: int)
    requires Follows(body, log, spine)
    ensures var cut := CutSpine(body, spine, start);
            (forall i :: 0 <= i < |cut| ==> Position(body, spine[..i]) < start) &&
            (|cut| < |spine| ==> Position(body, cut) >= start)
  {
    if spine != [] && Position(body, spine[..|spine| - 1]) >= start {
      var t := spine[..|spine| - 1];
      forall i | 0 <= i < |t| ensures Logged(body, log, t, i) {
        assert t[..i] == spine[..i] && Logged(body, log, spine, i);
      }
      CutIsBelow(body, log, t, start);
      var cut := CutSpine(body, t, start);
      forall i | 0 <= i < |cut| ensures Position(body, spine[..i]) < start {
        assert t[..i] == spine[..i];
      }
      if |cut| == |t| { assert cut == t; }
    } else if spine != [] {
      var n := |spine| - 1;
      forall i | 0 <= i < |spine| ensures Position(body, spine[..i]) < start {
        if i < n { PositionsGrow(body, log, spine, i, n); }
      }
    }
  }

  /** The state a fork begins in. */
  function Forked(body: Body, s: State, start: int): State {
    var log := Below(s.log, start);
    State(Enqueued, None, log, log, map[], map[], map[], map[], CutSpine(body, s.spine, start), None, {})
  }

  /** Wherever the cut falls - between a wait and its deadline included - the forked log is
      again one that a history of the body accounts for, so every guarantee of durable
      execution holds for runs of the fork. */
  lemma ForkIsInitial(body: Body, s: State, start: int)
    requires SpineInv(body, s)
    ensures Init(body, Forked(body, s, start))
  {
    var s', cut := Forked(body, s, start), CutSpine(body, s.spine, start);
    CutIsBelow(body, s.log, s.spine, start);
    NextPrefix(cut, s.spine);
    forall i | 0 <= i < |cut| ensures Logged(body, s'.log, cut, i) {
      assert cut[..i] == s.spine[..i] && Logged(body, s.log, s.spine, i);
    }
    forall i | 0 <= i <= |cut| ensures WakesAt(body, s', i) {
      assert cut[..i] == s.spine[..i];
      assert WakesAt(body, s, i);
    }
  }

  /** Every execution of the fork sees the original's results at the steps below the start. */
  lemma ForkSeesOriginal(body: Body, s: State, start: int, ss: seq<State>, vs: seq<Event>, solo: bool,
                         k: nat, e: nat, i: nat)
    requires SpineInv(body, s) && i < |s.spine| && Position(body, s.spine[..i]) < start
    requires Run(body, ss, vs, solo) && ss[0] == Forked(body, s, start) && k <= |vs|
    requires e in ss[k].execs && i < |ss[k].execs[e].hist|
    ensures ss[k].execs[e].hist[i] == s.spine[i]
  {
    ForkIsInitial(body, s, start);
    InitMeetsInv(body, ss[0]);
    RunKeepsInv(body, ss, vs, solo);
    RunGrows(body, ss, vs, solo, 0, k);
    CutIsBelow(body, s.log, s.spine, start);
    var cut := CutSpine(body, s.spine, start);
    NextPrefix(cut, s.spine);
    if |cut| < i { PositionsGrow(body, s.log, s.spine, |cut|, i); }
    assert ExecInv(body, ss[k], ss[k].execs[e]);
  }

  /** If the later steps yield the original's results, the fork ends as the original did. */
  lemma ForkEndsLikeOriginal(body: Body, s: State, start: int, ss: seq<State>, vs: seq<Event>, solo: bool, k: nat)
    requires SpineInv(body, s) && body(s.spine).Return?
    requires Run(body, ss, vs, solo) && ss[0] == Forked(body, s, start) && k <= |vs|
    requires forall i :: |ss[0].spine| <= i < |s.spine| && i < |ss[k].spine| ==> ss[k].spine[i] == s.spine[i]
    requires ss[k].status == Success || ss[k].status == Error
    ensures ss[k].outcome == Some(body(s.spine).out)
  {
    ForkIsInitial(body, s, start);
    InitMeetsInv(body, ss[0]);
    RunKeepsInv(body, ss, vs, solo);
    RunGrows(body, ss, vs, solo, 0, k);
    var g, h := s.spine, ss[k].spine;
    assert forall i :: 0 <= i < |g| && i < |h| ==> g[i] == h[i];
    if |g| < |h| {
      assert g == h[..|g|];
      LoggedAt(body, ss[k].log, h, g);
    } else if |h| < |g| {
      assert h == g[..|h|];
      LoggedAt(body, s.log, g, h);
    } else {
      assert g == h;
    }
  }
}
