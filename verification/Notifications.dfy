/** Messages to one workflow: what consuming and recording in two transactions guarantees. */
module Notifications {
  import opened Wrappers
  import opened Tables

  /** A message an execution has consumed but not yet recorded as the result of its recv. */
  datatype Held = Held(step: int, topic: string, at: nat)

  datatype Mail = Mail(
    notes: seq<Note>,
    held: map<nat, Held>,
    recorded: map<int, Option<nat>>,   // per recv step: the message it returned, or a timeout
    order: seq<nat>)                   // the returned messages, in the order of recording

  datatype Act =
    | Send(topic: string, message: Payload, now: int)
    | Take(e: nat, step: int, topic: string, at: nat)
    | Record(e: nat)
    | RecordTimeout(step: int)
    | Crash(e: nat)

  ghost predicate Step(m: Mail, a: Act, m': Mail) {
    match a
    case Send(t, p, now) => m' == m.(notes := m.notes + [Note(t, p, now, false)])
    case Take(e, step, t, at) =>
      e !in m.held && at < |m.notes| && Oldest(m.notes, t, at) &&
      m' == m.(notes := Consume(m.notes, at), held := m.held[e := Held(step, t, at)])
    case Record(e) =>
      e in m.held &&
      (if m.held[e].step in m.recorded then m' == m.(held := m.held - {e})
       else m' == m.(held := m.held - {e},
                     recorded := m.recorded[m.held[e].step := Some(m.held[e].at)],
                     order := m.order + [m.held[e].at]))
    case RecordTimeout(step) => m' == if step in m.recorded then m else m.(recorded := m.recorded[step := None])
    case Crash(e) => m' == m.(held := m.held - {e})
  }

  ghost predicate Run(ms: seq<Mail>, acts: seq<Act>) {
    |ms| == |acts| + 1 && forall k :: 0 <= k < |acts| ==> Step(ms[k], acts[k], ms[k + 1])
  }

  predicate Empty(m: Mail) {
    m.notes == [] && m.held == map[] && m.recorded == map[] && m.order == []
  }

  // ---- the mailbox in the tables ----

  /** Sending to a workflow that exists adds one unread message at the end of its mailbox, for
      its topic and no other, and touches nothing else. */
  lemma SentIsUnread(db: Db, dest: Id, topic: string, message: Payload, now: int)
    ensures SendNotification(db, dest, topic, message, now).Ok? <==> dest in db.rows
    ensures dest in db.rows ==>
              var db' := SendNotification(db, dest, topic, message, now).value;
              var (was, box) := (Inbox(db, dest), Inbox(db', dest));
              |box| == |was| + 1 && box[..|was|] == was && box[|was|].message == message && box[|was|].createdAt == now &&
              (forall t :: Unread(box, t, |was|) <==> t == topic) &&
              (forall other :: other != dest ==> Inbox(db', other) == Inbox(db, other)) && db' == db.(notes := db'.notes)
  {
  }

  /** So a receive of that topic with nothing older to read gets that message, and one with
      something older gets that first. */
  lemma SentIsReceivedNext(db: Db, dest: Id, topic: string, message: Payload, now: int, at: nat)
    requires dest in db.rows && (forall i :: Unread(Inbox(db, dest), topic, i) ==> Inbox(db, dest)[i].createdAt < now)
    requires Oldest(Inbox(SendNotification(db, dest, topic, message, now).value, dest), topic, at)
    ensures var (was, box) := (Inbox(db, dest), Inbox(SendNotification(db, dest, topic, message, now).value, dest));
            if HasUnread(was, topic) then Oldest(was, topic, at) && box[at] == was[at] else box[at].message == message
  {
    SentIsUnread(db, dest, topic, message, now);
    var was := Inbox(db, dest);
    var box := Inbox(SendNotification(db, dest, topic, message, now).value, dest);
    assert forall i :: 0 <= i < |was| ==> box[i] == was[i];
    assert forall i :: 0 <= i < |was| ==> (Unread(box, topic, i) <==> Unread(was, topic, i));
    assert Unread(box, topic, |was|);
  }

  /** The mailbox below is that of the tables. */
  lemma SendIsStep(db: Db, dest: Id, topic: string, message: Payload, now: int, m: Mail, m': Mail)
    requires dest in db.rows && m.notes == Inbox(db, dest) && Step(m, Send(topic, message, now), m')
    ensures m'.notes == Inbox(SendNotification(db, dest, topic, message, now).value, dest)
  {
  }

  // ---- at most once, under any interleaving ----

  predicate Spent(m: Mail, i: nat) {
    i < |m.notes| && m.notes[i].consumed
  }

  /** Every message held or returned is consumed, and no two holders or results share one. */
  ghost predicate OnceInv(m: Mail) {
    (forall e :: e in m.held ==> Spent(m, m.held[e].at)) &&
    (forall s :: s in m.recorded && m.recorded[s].Some? ==> Spent(m, m.recorded[s].value)) &&
    (forall e, f :: e in m.held && f in m.held && e != f ==> m.held[e].at != m.held[f].at) &&
    (forall e, s :: e in m.held && s in m.recorded && m.recorded[s].Some? ==> m.held[e].at != m.recorded[s].value) &&
    forall s, t :: s in m.recorded && t in m.recorded && s != t && m.recorded[s].Some?
      ==> m.recorded[s] != m.recorded[t]
  }

  lemma StepKeepsOnce(m: Mail, a: Act, m': Mail)
    requires OnceInv(m) && Step(m, a, m')
    ensures OnceInv(m')
  {
    assert forall i: nat :: Spent(m, i) ==> Spent(m', i);
  }

  /** Executions may run at once, crash between consuming and recording, and be replayed: a
      message is returned by at most one recorded recv. */
  lemma {:induction false} ReturnedAtMostOnce(ms: seq<Mail>, acts: seq<Act>, k: nat)
    requires Run(ms, acts) && Empty(ms[0]) && k <= |acts|
    ensures OnceInv(ms[k])
    ensures forall s, t :: s in ms[k].recorded && t in ms[k].recorded && ms[k].recorded[s].Some?
              ==> (ms[k].recorded[s] == ms[k].recorded[t] <==> s == t)
  {
    if k > 0 {
      ReturnedAtMostOnce(ms, acts, k - 1);
      StepKeepsOnce(ms[k - 1], acts[k - 1], ms[k]);
    }
  }

  /** A sent message stays: its place and content never change, and it is at most marked
      consumed; a recorded result never changes either. */
  lemma {:induction false} MessagesAreConserved(ms: seq<Mail>, acts: seq<Act>, j: nat, k: nat, i: nat)
    requires Run(ms, acts) && j <= k <= |acts| && i < |ms[j].notes|
    ensures i < |ms[k].notes|
    ensures ms[k].notes[i] == ms[j].notes[i] || ms[k].notes[i] == ms[j].notes[i].(consumed := true)
    ensures forall s :: s in ms[j].recorded ==> s in ms[k].recorded && ms[k].recorded[s] == ms[j].recorded[s]
    decreases k - j
  {
    if j < k {
      MessagesAreConserved(ms, acts, j, k - 1, i);
      assert Step(ms[k - 1], acts[k - 1], ms[k]);
    }
  }

  /** Consumed, but neither about to be recorded nor ever returned. */
  ghost predicate Lost(m: Mail, i: nat) {
    Spent(m, i) && (forall e :: e in m.held ==> m.held[e].at != i) &&
    forall s :: s in m.recorded ==> m.recorded[s] != Some(i)
  }

  /** A message is lost exactly by a crash between its two transactions, or by an execution
      that consumes it for a step another one records first; a lost one stays lost. */
  lemma MessageIsLostIff(m: Mail, a: Act, m': Mail)
    requires OnceInv(m) && Step(m, a, m')
    ensures (exists i: nat :: Lost(m', i) && !Lost(m, i))
            <==> (a.Crash? && a.e in m.held) || (a.Record? && m.held[a.e].step in m.recorded)
    ensures forall i: nat :: Lost(m, i) ==> Lost(m', i)
  {
    if (a.Crash? && a.e in m.held) || (a.Record? && m.held[a.e].step in m.recorded) {
      assert Spent(m', m.held[a.e].at) && Lost(m', m.held[a.e].at) && !Lost(m, m.held[a.e].at);
    } else {
      NoLoss(m, a, m');
    }
  }

  /** The failing run: sent, consumed, and the receiver crashes before it records. */
  lemma CrashLosesMessage(topic: string, message: Payload, now: int) returns (ms: seq<Mail>, acts: seq<Act>)
    ensures Run(ms, acts) && Empty(ms[0]) && Lost(ms[|acts|], 0)
  {
    var m0 := Mail([], map[], map[], []);
    var note := Note(topic, message, now, false);
    var m1 := m0.(notes := [note]);
    var m2 := m1.(notes := Consume([note], 0), held := map[7 := Held(0, topic, 0)]);
    var m3 := m2.(held := map[]);
    ms, acts := [m0, m1, m2, m3], [Send(topic, message, now), Take(7, 0, topic, 0), Crash(7)];
    assert [] + [note] == [note];
    assert Unread(m1.notes, topic, 0) && Oldest(m1.notes, topic, 0);
    assert Step(m0, acts[0], m1) && Step(m1, acts[1], m2) && Step(m2, acts[2], m3);
    assert Spent(m3, 0);
  }

  lemma NoLoss(m: Mail, a: Act, m': Mail)
    requires OnceInv(m) && Step(m, a, m')
    requires !(a.Crash? && a.e in m.held) && !(a.Record? && m.held[a.e].step in m.recorded)
    ensures forall i: nat :: Lost(m', i) ==> Lost(m, i)
  {
    forall i: nat | Lost(m', i) ensures Lost(m, i) {
      forall e | e in m.held ensures m.held[e].at != i {
        if e !in m'.held { assert m.held[e].step in m'.recorded; }
      }
      forall s | s in m.recorded ensures m.recorded[s] != Some(i) {
        assert s in m'.recorded;
      }
      if a.Take? { assert a.e in m'.held; }
    }
  }

  // ---- in order, when nothing is lost ----

  predicate Within(s: seq<nat>, n: nat) {
    forall k :: 0 <= k < |s| ==> s[k] < n
  }

  /** The members of s that carry the topic. */
  function OfTopic(notes: seq<Note>, s: seq<nat>, topic: string): (r: seq<nat>)
    requires Within(s, |notes|)
    ensures Within(r, |notes|)
  {
    if s == [] then []
    else OfTopic(notes, s[..|s| - 1], topic) + if notes[s[|s| - 1]].topic == topic then [s[|s| - 1]] else []
  }

  function Upto(n: nat): (s: seq<nat>)
    ensures |s| == n && forall i :: 0 <= i < n ==> s[i] == i
  {
    if n == 0 then [] else Upto(n - 1) + [n - 1]
  }

  /** The messages sent to a topic, in the order of sending. */
  function Sent(notes: seq<Note>, topic: string): seq<nat> {
    OfTopic(notes, Upto(|notes|), topic)
  }

  lemma {:induction false} OfTopicSame(notes: seq<Note>, notes': seq<Note>, s: seq<nat>, topic: string)
    requires |notes| <= |notes'| && forall i :: 0 <= i < |notes| ==> notes'[i].topic == notes[i].topic
    requires Within(s, |notes|)
    ensures OfTopic(notes', s, topic) == OfTopic(notes, s, topic)
  {
    if s != [] { OfTopicSame(notes, notes', s[..|s| - 1], topic); }
  }

  lemma OfTopicPush(notes: seq<Note>, s: seq<nat>, x: nat, topic: string)
    requires Within(s, |notes|) && x < |notes|
    ensures OfTopic(notes, s + [x], topic) == OfTopic(notes, s, topic) + if notes[x].topic == topic then [x] else []
  {
    assert (s + [x])[..|s|] == s;
  }

  /** r lists the positions below n that carry the topic, ascending. */
  predicate Lists(notes: seq<Note>, n: nat, topic: string, r: seq<nat>) {
    n <= |notes| &&
    (forall a, b :: 0 <= a < b < |r| ==> r[a] < r[b]) &&
    (forall a :: 0 <= a < |r| ==> r[a] < n && notes[r[a]].topic == topic) &&
    forall i :: 0 <= i < n && notes[i].topic == topic ==> i in r
  }

  lemma ListsNext(notes: seq<Note>, n: nat, topic: string, r: seq<nat>)
    requires n < |notes| && Lists(notes, n, topic, r)
    ensures Lists(notes, n + 1, topic, r + if notes[n].topic == topic then [n] else [])
  {
    var r' := r + if notes[n].topic == topic then [n] else [];
    forall i | 0 <= i < n + 1 && notes[i].topic == topic ensures i in r' {
      if i < n { assert i in r; } else { assert r'[|r|] == n; }
    }
  }

  lemma {:induction false} SentIsAscending(notes: seq<Note>, n: nat, topic: string)
    requires n <= |notes|
    ensures Lists(notes, n, topic, OfTopic(notes, Upto(n), topic))
  {
    if n > 0 {
      SentIsAscending(notes, n - 1, topic);
      OfTopicPush(notes, Upto(n - 1), n - 1, topic);
      ListsNext(notes, n - 1, topic, OfTopic(notes, Upto(n - 1), topic));
    }
  }

  /** One execution at a time, no crash between consuming and recording, and timestamps that
      tell messages apart. */
  ghost predicate Orderly(m: Mail, a: Act) {
    match a
    case Send(_, _, now) => forall i :: 0 <= i < |m.notes| ==> m.notes[i].createdAt < now
    case Take(_, step, _, _) => m.held == map[] && step !in m.recorded
    case Record(e) => true
    case RecordTimeout(_) => m.held == map[]
    case Crash(e) => e !in m.held
  }

  /** The messages taken so far: the returned ones, then the one being recorded. */
  ghost predicate TakenAs(m: Mail, line: seq<nat>) {
    if m.held == map[] then line == m.order
    else exists e :: e in m.held && m.held == map[e := m.held[e]] &&
                     m.held[e].step !in m.recorded && line == m.order + [m.held[e].at]
  }

  /** For every topic the messages taken are exactly the first ones sent, and those are the
      consumed ones. */
  ghost predicate InOrder(notes: seq<Note>, line: seq<nat>, topic: string)
    requires Within(line, |notes|)
  {
    var out, sent := OfTopic(notes, line, topic), Sent(notes, topic);
    out <= sent && forall k :: 0 <= k < |sent| ==> (notes[sent[k]].consumed <==> k < |out|)
  }

  ghost predicate OrderInv(m: Mail, line: seq<nat>) {
    TakenAs(m, line) && Within(line, |m.notes|) &&
    (forall t :: InOrder(m.notes, line, t)) &&
    forall i, j :: 0 <= i < j < |m.notes| ==> m.notes[i].createdAt < m.notes[j].createdAt
  }

  /** A new message comes last among those of its topic. */
  lemma SentNext(notes: seq<Note>, n: Note, t: string)
    ensures Sent(notes + [n], t) == Sent(notes, t) + if n.topic == t then [|notes|] else []
  {
    var notes' := notes + [n];
    OfTopicSame(notes, notes', Upto(|notes|), t);
    OfTopicPush(notes', Upto(|notes|), |notes|, t);
    assert notes'[|notes|] == n;
  }

  lemma SendKeepsOrder(m: Mail, line: seq<nat>, topic: string, p: Payload, now: int, t: string)
    requires Within(line, |m.notes|) && InOrder(m.notes, line, t)
    ensures InOrder(m.notes + [Note(topic, p, now, false)], line, t)
  {
    var notes, notes' := m.notes, m.notes + [Note(topic, p, now, false)];
    OfTopicSame(notes, notes', line, t);
    SentNext(notes, Note(topic, p, now, false), t);
    forall k | 0 <= k < |Sent(notes', t)|
      ensures notes'[Sent(notes', t)[k]].consumed <==> k < |OfTopic(notes', line, t)|
    {
      if k < |Sent(notes, t)| { assert Sent(notes', t)[k] == Sent(notes, t)[k]; }
    }
  }

  /** The oldest unread message of a topic is the first one sent that is not yet taken. */
  lemma OldestIsNext(m: Mail, line: seq<nat>, topic: string, at: nat)
    requires Within(line, |m.notes|) && InOrder(m.notes, line, topic)
    requires forall i, j :: 0 <= i < j < |m.notes| ==> m.notes[i].createdAt < m.notes[j].createdAt
    requires Oldest(m.notes, topic, at)
    ensures var out, sent := OfTopic(m.notes, line, topic), Sent(m.notes, topic);
            |out| < |sent| && sent[|out|] == at
  {
    var out, sent := OfTopic(m.notes, line, topic), Sent(m.notes, topic);
    SentIsAscending(m.notes, |m.notes|, topic);
    assert at in sent;
    var k :| 0 <= k < |sent| && sent[k] == at;
    assert Unread(m.notes, topic, sent[|out|]);
  }

  lemma TakeKeepsOrder(m: Mail, line: seq<nat>, topic: string, at: nat, t: string)
    requires Within(line, |m.notes|) && InOrder(m.notes, line, topic) && InOrder(m.notes, line, t)
    requires forall i, j :: 0 <= i < j < |m.notes| ==> m.notes[i].createdAt < m.notes[j].createdAt
    requires at < |m.notes| && Oldest(m.notes, topic, at)
    ensures InOrder(Consume(m.notes, at), line + [at], t)
  {
    var notes, notes' := m.notes, Consume(m.notes, at);
    OldestIsNext(m, line, topic, at);
    OfTopicSame(notes, notes', line, t);
    OfTopicSame(notes, notes', Upto(|notes|), t);
    OfTopicPush(notes', line, at, t);
    SentIsAscending(notes, |notes|, t);
  }

  lemma StepKeepsOrder(m: Mail, a: Act, m': Mail, line: seq<nat>) returns (line': seq<nat>)
    requires OrderInv(m, line) && Step(m, a, m') && Orderly(m, a)
    ensures OrderInv(m', line')
  {
    line' := line;
    match a
    case Send(t, p, now) =>
      forall u ensures InOrder(m'.notes, line, u) { SendKeepsOrder(m, line, t, p, now, u); }
    case Take(e, step, t, at) =>
      line' := line + [at];
      forall u ensures InOrder(m'.notes, line', u) { TakeKeepsOrder(m, line, t, at, u); }
      assert e in m'.held && m'.held == map[e := m'.held[e]];
    case Record(e) =>
      assert m'.held == map[];
    case _ =>
  }

  /** In an orderly run, what the recvs of a topic have returned, in the order they returned
      it, is at every moment a prefix of what was sent to the topic. */
  lemma {:induction false} ReturnedInOrder(ms: seq<Mail>, acts: seq<Act>, k: nat) returns (line: seq<nat>)
    requires Run(ms, acts) && Empty(ms[0]) && k <= |acts|
    requires forall j :: 0 <= j < |acts| ==> Orderly(ms[j], acts[j])
    ensures OrderInv(ms[k], line) && ms[k].order <= line
    ensures Within(ms[k].order, |ms[k].notes|)
    ensures forall t :: OfTopic(ms[k].notes, ms[k].order, t) <= Sent(ms[k].notes, t)
  {
    if k == 0 {
      line := [];
    } else {
      var before := ReturnedInOrder(ms, acts, k - 1);
      line := StepKeepsOrder(ms[k - 1], acts[k - 1], ms[k], before);
    }
    var m := ms[k];
    forall t ensures OfTopic(m.notes, m.order, t) <= Sent(m.notes, t) {
      assert InOrder(m.notes, line, t);
      if line != m.order { OfTopicPush(m.notes, m.order, line[|m.order|], t); }
    }
  }
}
