/** Debounced calls: callers that race for the slot of one key, the internal workflows that
    collect their inputs, and the rows those enqueue. */
module DebounceCalls {
  import opened Wrappers
  import opened Tables
  import opened StepLog
  import opened Replay
  import opened ReplayInv
  import opened Durable
  import opened Events
  import opened Debouncer
  import opened DebounceSteps
  import opened DebounceMail

  /** One internal workflow with its step log and executions, the messages sent to it, whether
      its row holds the slot of the key, whether it has failed because its target was refused,
      and whether the row has been deleted. */
  datatype Cycle = Cycle(d: DebouncerInput, st: State, inbox: set<Payload>, holds: bool, failed: bool, gone: bool)

  datatype CallPhase =
    | Trying
    | Refused(target: Id)                          // the slot was taken
    | Found(c: Id, target: Id)
    | Waiting(c: Id, messageId: string, target: Id)
    | Acked(c: Id, target: Id)                     // about to read the row of c back
    | Returned(c: Id, target: Id)
    | Errored                                      // the message could not be sent

  datatype Call = Call(input: string, delayMs: int, phase: CallPhase)

  /** Drawn identifiers are never drawn again. */
  datatype World = World(timeoutMs: int, cycles: map<Id, Cycle>, calls: map<nat, Call>, drawn: set<string>)

  datatype Move =
    | Enter(k: nat, input: string, delayMs: int)
    | Win(k: nat, c: Id, target: Id)
    | Collide(k: nat, target: Id)
    | LookUp(k: nat, holder: Option<Id>)
    | SendUpdate(k: nat, messageId: string)
    | SendFails(k: nat)
    | SeeAck(k: nat)
    | ReadRow(k: nat)
    | GiveUp(k: nat)
    | Work(c: Id, a: Act)
    | EnqueueRefused(c: Id, e: nat)                // an unknown or dead-lettered target
    | Unslot(c: Id)                                // dead-lettered
    | DeleteRow(c: Id)                             // by a user or the garbage collection

  function Fresh(): State {
    State(Enqueued, None, map[], map[], map[], map[], map[], map[], [], None, {})
  }

  predicate Free(w: World) {
    forall c :: c in w.cycles ==> !w.cycles[c].holds
  }

  function SetPhase(w: World, k: nat, p: CallPhase): World
    requires k in w.calls
  {
    w.(calls := w.calls[k := w.calls[k].(phase := p)])
  }

  /** The messages sent: a receive returns no other. */
  function Within(inbox: set<Payload>): Payload -> bool {
    p => p in inbox
  }

  /** Whether a step takes the slot away from its row. */
  predicate KeepsSlot(a: Act, s': State) {
    !(a.Plain? && (a.v.CancelRow? || a.v.ResumeRow?)) && s'.status != Success && s'.status != Error
  }

  /** What an internal workflow does; it gives up the slot with its outcome, a cancellation or
      a resume. */
  ghost predicate Worked(cy: Cycle, a: Act, cy': Cycle) {
    Does(cy.d, Within(cy.inbox), cy.st, a, cy'.st) && cy' == cy.(st := cy'.st, holds := cy.holds && KeepsSlot(a, cy'.st))
  }

  /** The slot was free: a new cycle, and the call returns its target at once. */
  ghost predicate Wins(w: World, k: nat, c: Id, target: Id, w': World) {
    k in w.calls && w.calls[k].phase.Trying? && c !in w.drawn && target !in w.drawn && c != target && Free(w) &&
    var d := DebouncerInput(w.calls[k].input, target, w.calls[k].delayMs, w.timeoutMs);
    w' == SetPhase(w, k, Returned(c, target))
          .(cycles := w.cycles[c := Cycle(d, Fresh(), {}, true, false, false)], drawn := w.drawn + {c, target})
  }

  ghost predicate Sends(w: World, k: nat, id: string, w': World) {
    k in w.calls && w.calls[k].phase.Found? && w.calls[k].phase.c in w.cycles && !w.cycles[w.calls[k].phase.c].gone && id != "" && id !in w.drawn &&
    var (c, cy) := (w.calls[k].phase.c, w.cycles[w.calls[k].phase.c]);
    w' == SetPhase(w, k, Waiting(c, id, w.calls[k].phase.target))
          .(cycles := w.cycles[c := cy.(inbox := cy.inbox + {Update(w.calls[k].input, w.calls[k].delayMs, id)})],
            drawn := w.drawn + {id})
  }

  /** The acknowledgement is there; it goes with the row it belongs to. */
  ghost predicate SeesAck(w: World, k: nat, w': World) {
    k in w.calls && w.calls[k].phase.Waiting? && w.calls[k].phase.c in w.cycles &&
    !w.cycles[w.calls[k].phase.c].gone && w.calls[k].phase.messageId in w.cycles[w.calls[k].phase.c].st.events &&
    w' == SetPhase(w, k, Acked(w.calls[k].phase.c, w.calls[k].phase.target))
  }

  /** The call returns the target it reads from the row, or its own when there is no row. */
  ghost predicate ReadsRow(w: World, k: nat, w': World) {
    k in w.calls && w.calls[k].phase.Acked? && w.calls[k].phase.c in w.cycles &&
    var (c, t) := (w.calls[k].phase.c, w.calls[k].phase.target);
    w' == SetPhase(w, k, Returned(c, if w.cycles[c].gone then t else w.cycles[c].d.targetId))
  }

  /** A row is not deleted while an execution of it is live. */
  ghost predicate Deletes(w: World, c: Id, w': World) {
    c in w.cycles && (forall e :: e in w.cycles[c].st.execs ==> !Active(w.cycles[c].st.execs[e].phase)) &&
    w' == w.(cycles := w.cycles[c := w.cycles[c].(gone := true, holds := false)])
  }

  ghost predicate Works(w: World, c: Id, a: Act, w': World) {
    c in w.cycles && !w.cycles[c].gone && !w.cycles[c].failed && c in w'.cycles && Worked(w.cycles[c], a, w'.cycles[c]) &&
    w' == w.(cycles := w.cycles[c := w'.cycles[c]])
  }

  /** The row of the target is refused: the internal workflow ends with that error, and frees
      the slot. Over a cancelled row the error is not written; that is as a crash. */
  ghost predicate Refuses(w: World, c: Id, e: nat, w': World) {
    c in w.cycles && !w.cycles[c].gone && !w.cycles[c].failed &&
    var (d, s) := (w.cycles[c].d, w.cycles[c].st);
    e in s.execs && s.execs[e].phase.Ready? && BodyOf(d)(s.execs[e].hist).Enqueue? && s.status != Cancelled &&
    w' == w.(cycles := w.cycles[c := w.cycles[c].(holds := false, failed := true)])
  }

  ghost predicate AnyStep(w: World, m: Move, w': World) {
    match m
    case Enter(k, x, delay) => k !in w.calls && w' == w.(calls := w.calls[k := Call(x, delay, Trying)])
    case Win(k, c, target) => Wins(w, k, c, target, w')
    case Collide(k, target) =>
      k in w.calls && w.calls[k].phase.Trying? && target !in w.drawn && !Free(w) &&
      w' == SetPhase(w, k, Refused(target)).(drawn := w.drawn + {target})
    case LookUp(k, holder) =>
      k in w.calls && w.calls[k].phase.Refused? &&
      (match holder case None => Free(w) case Some(o) => o in w.cycles && w.cycles[o].holds) &&
      w' == SetPhase(w, k, if holder.None? then Trying else Found(holder.value, w.calls[k].phase.target))
    case SendUpdate(k, id) => Sends(w, k, id, w')
    case SendFails(k) =>
      k in w.calls && w.calls[k].phase.Found? && w.calls[k].phase.c in w.cycles && w.cycles[w.calls[k].phase.c].gone &&
      w' == SetPhase(w, k, Errored)
    case SeeAck(k) => SeesAck(w, k, w')
    case ReadRow(k) => ReadsRow(w, k, w')
    case GiveUp(k) => k in w.calls && w.calls[k].phase.Waiting? && w' == SetPhase(w, k, Trying)
    case Work(c, a) => Works(w, c, a, w')
    case EnqueueRefused(c, e) => Refuses(w, c, e, w')
    case Unslot(c) => c in w.cycles && w' == w.(cycles := w.cycles[c := w.cycles[c].(holds := false)])
    case DeleteRow(c) => Deletes(w, c, w')
  }

  /** A receive that takes a cancellation for a timeout although nothing is enqueued yet. */
  predicate Harms(w: World, m: Move) {
    m.Work? && m.c in w.cycles && Harmful(w.cycles[m.c].d, w.cycles[m.c].st, m.a)
  }

  /** Any step but such a receive. */
  ghost predicate Step(w: World, m: Move, w': World) {
    AnyStep(w, m, w') && !Harms(w, m)
  }

  ghost predicate Run(ws: seq<World>, ms: seq<Move>) {
    |ws| == |ms| + 1 && forall i {:trigger ms[i]} :: 0 <= i < |ms| ==> Step(ws[i], ms[i], ws[i + 1])
  }

  predicate Empty(w: World) {
    w.cycles == map[] && w.calls == map[]
  }

  // ---- one cycle ----

  /** What a cycle's receives return was sent. */
  ghost predicate Posted(cy: Cycle) {
    MailInv(cy.d, Within(cy.inbox), cy.st)
  }

  predicate Distinct(cy: Cycle) {
    forall m, n :: m in cy.inbox && n in cy.inbox ==>
      m.Update? && n.Update? && (m.messageId == n.messageId ==> m == n)
  }

  lemma WorkKeepsSound(cy: Cycle, a: Act, cy': Cycle)
    requires Sound(cy.d, cy.st) && Worked(cy, a, cy') && !Harmful(cy.d, cy.st, a)
    ensures Sound(cy'.d, cy'.st) && cy.st.spine <= cy'.st.spine
  {
    SafeStepKeepsSound(cy.d, Within(cy.inbox), cy.st, a, cy'.st);
  }

  lemma WorkKeepsPosted(cy: Cycle, a: Act, cy': Cycle)
    requires Sound(cy.d, cy.st) && Posted(cy) && Worked(cy, a, cy')
    ensures Posted(cy')
  {
    StepKeepsMail(cy.d, Within(cy.inbox), cy.st, a, cy'.st);
  }

  // ---- what a caller relies on ----

  /** The inputs a cycle has taken over, in order. */
  function Inputs(cy: Cycle): (xs: seq<string>)
    ensures |xs| > 0
  {
    var ms := Accepted(cy.d, cy.st.spine);
    [cy.d.initial] + seq(|ms|, i requires 0 <= i < |ms| => ms[i].input)
  }

  /** An acknowledged message was taken over. */
  lemma AckedWasTaken(d: DebouncerInput, s: State, id: string)
    requires Sourced(BodyOf(d), s) && Agrees(s) && id in s.events
    ensures exists m :: m in Accepted(d, s.spine) && m.messageId == id
  {
    assert AgreesOn(s.events, s.history, id);
    var i :| Latest(s.history, id, i);
    var j: nat :| PublishedAt(BodyOf(d), s, i, id, j);
    assert After(d, s.spine[..j]).place == Ack(id);
    AckFollowsAccept(d, s.spine[..j]);
    AcceptedGrows(d, s.spine, j);
  }

  lemma TakenIsInput(cy: Cycle, m: Payload)
    requires Posted(cy) && Distinct(cy) && m in cy.inbox && m.Update?
    requires exists n :: n in Accepted(cy.d, cy.st.spine) && n.messageId == m.messageId
    ensures m.input in Inputs(cy)
  {
    var ms := Accepted(cy.d, cy.st.spine);
    AcceptedIsOk(cy.d, Within(cy.inbox), cy.st.spine);
    var at :| 0 <= at < |ms| && ms[at].messageId == m.messageId;
    assert ms[at] in ms && Within(cy.inbox)(ms[at]);
    assert Inputs(cy)[at + 1] == m.input;
  }

  /** The one row a cycle enqueues carries the input it took over last. */
  lemma SpawnsLatest(cy: Cycle, t: Id)
    requires OutcomeInv(BodyOf(cy.d), Core(cy.st)) && t in cy.st.spawned
    ensures t == cy.d.targetId && cy.st.spawned[t] == Inputs(cy)[|Inputs(cy)| - 1]
  {
    FiresWithLatest(cy.d, cy.st.spine, t, cy.st.spawned[t]);
  }

  lemma FiresWithLatest(d: DebouncerInput, h: seq<Seen>, t: Id, input: string)
    requires Enqueues(BodyOf(d), h, t, input)
    ensures t == d.targetId && input == LatestInput(d, Accepted(d, h))
  {
    var i: nat :| EnqueuesAt(BodyOf(d), h, t, input, i);
    FireIsEnqueue(d, h[..i], t, input);
    NothingAfterFire(d, h, i);
  }

  lemma FireIsEnqueue(d: DebouncerInput, h: seq<Seen>, t: Id, input: string)
    requires BodyOf(d)(h) == Enqueue(t, input)
    ensures After(d, h).place.Fire? && t == d.targetId && input == LatestInput(d, Accepted(d, h))
  {
    PushBackIsBounded(d, h);
  }

  lemma InputsGrow(cy: Cycle, cy': Cycle)
    requires cy'.d == cy.d && cy.st.spine <= cy'.st.spine
    ensures Inputs(cy) <= Inputs(cy')
  {
    AcceptedGrows(cy.d, cy'.st.spine, |cy.st.spine|);
    assert cy'.st.spine[..|cy.st.spine|] == cy.st.spine;
  }

  // ---- every run ----

  /** A drawn target that no cycle has. */
  predicate Unused(w: World, t: Id) {
    t in w.drawn && forall c :: c in w.cycles ==> w.cycles[c].d.targetId != t
  }

  predicate CallInv(w: World, call: Call) {
    match call.phase
    case Trying => true
    case Refused(t) => Unused(w, t)
    case Found(c, t) => c in w.cycles && Unused(w, t)
    case Waiting(c, id, t) =>
      c in w.cycles && Update(call.input, call.delayMs, id) in w.cycles[c].inbox && Unused(w, t)
    case Acked(c, t) => c in w.cycles && call.input in Inputs(w.cycles[c]) && Unused(w, t)
    case Returned(c, t) =>
      c in w.cycles && call.input in Inputs(w.cycles[c]) && (t == w.cycles[c].d.targetId || Unused(w, t))
    case Errored => true
  }

  predicate IdsInv(w: World) {
    (forall c :: c in w.cycles ==>
       c in w.drawn && w.cycles[c].d.targetId in w.drawn &&
       forall m :: m in w.cycles[c].inbox && m.Update? ==> m.messageId in w.drawn) &&
    (forall c, o :: c in w.cycles && o in w.cycles && c != o ==> w.cycles[c].d.targetId != w.cycles[o].d.targetId) &&
    forall c, o :: c in w.cycles && o in w.cycles && w.cycles[c].holds && w.cycles[o].holds ==> c == o
  }

  ghost predicate WorldInv(w: World) {
    IdsInv(w) &&
    (forall c :: c in w.cycles ==> Posted(w.cycles[c]) && Distinct(w.cycles[c])) &&
    forall k :: k in w.calls ==> CallInv(w, w.calls[k])
  }

  predicate Extends(cy: Cycle, cy': Cycle) {
    cy'.d == cy.d && cy.st.spine <= cy'.st.spine && cy.inbox <= cy'.inbox
  }

  /** Cycles and drawn identifiers stay, and a new cycle has a new target. */
  predicate Evolves(w: World, w': World) {
    w.drawn <= w'.drawn &&
    (forall c :: c in w.cycles ==> c in w'.cycles && Extends(w.cycles[c], w'.cycles[c])) &&
    forall c :: c in w'.cycles && c !in w.cycles ==> w'.cycles[c].d.targetId !in w.drawn
  }

  lemma EvolvingKeepsCall(w: World, w': World, call: Call)
    requires CallInv(w, call) && Evolves(w, w')
    ensures CallInv(w', call)
  {
    if call.phase.Returned? || call.phase.Acked? {
      InputsGrow(w.cycles[call.phase.c], w'.cycles[call.phase.c]);
    }
  }

  /** Steps that leave the cycles alone move one call on. */
  lemma CallStepKeepsInv(w: World, w': World, k: nat)
    requires WorldInv(w) && w'.cycles == w.cycles && w.drawn <= w'.drawn && k in w'.calls
    requires w'.calls == w.calls[k := w'.calls[k]] && CallInv(w', w'.calls[k])
    ensures WorldInv(w') && Evolves(w, w')
  {
    forall o | o in w'.calls ensures CallInv(w', w'.calls[o]) {
      if o != k { EvolvingKeepsCall(w, w', w.calls[o]); }
    }
  }

  lemma SentKeepsPosted(cy: Cycle, m: Payload)
    requires Posted(cy) && Distinct(cy)
    requires m.Update? && forall n :: n in cy.inbox && n.Update? ==> n.messageId != m.messageId
    ensures Posted(cy.(inbox := cy.inbox + {m})) && Distinct(cy.(inbox := cy.inbox + {m}))
  {
    MoreMail(cy.d, Within(cy.inbox), Within(cy.inbox + {m}), cy.st);
  }

  /** One cycle changes, or is new; at most one call moves on with it. */
  lemma CycleStepKeepsInv(w: World, w': World, c: Id)
    requires WorldInv(w) && IdsInv(w') && Evolves(w, w')
    requires c in w'.cycles && w'.cycles == w.cycles[c := w'.cycles[c]]
    requires Posted(w'.cycles[c]) && Distinct(w'.cycles[c])
    requires forall k :: k in w'.calls ==> (k in w.calls && w'.calls[k] == w.calls[k]) || CallInv(w', w'.calls[k])
    ensures WorldInv(w')
  {
    forall k | k in w'.calls ensures CallInv(w', w'.calls[k]) {
      if k in w.calls && w'.calls[k] == w.calls[k] { EvolvingKeepsCall(w, w', w.calls[k]); }
    }
  }

  lemma WinKeepsIds(w: World, k: nat, c: Id, target: Id, w': World)
    requires IdsInv(w) && Wins(w, k, c, target, w')
    ensures IdsInv(w') && Evolves(w, w')
  {
  }

  lemma WinKeepsInv(w: World, k: nat, c: Id, target: Id, w': World)
    requires WorldInv(w) && Wins(w, k, c, target, w')
    ensures WorldInv(w') && Evolves(w, w')
  {
    WinKeepsIds(w, k, c, target, w');
    CycleStepKeepsInv(w, w', c);
  }

  /** A cycle that goes on with its own target and new message identifiers. */
  lemma ChangeKeepsIds(w: World, w': World, c: Id)
    requires IdsInv(w) && c in w.cycles && c in w'.cycles && Extends(w.cycles[c], w'.cycles[c])
    requires w'.cycles == w.cycles[c := w'.cycles[c]] && w.drawn <= w'.drawn
    requires w'.cycles[c].holds ==> w.cycles[c].holds
    requires forall m :: m in w'.cycles[c].inbox && m.Update? ==> m.messageId in w'.drawn
    ensures IdsInv(w') && Evolves(w, w')
  {
  }

  lemma SendKeepsInv(w: World, k: nat, id: string, w': World)
    requires WorldInv(w) && Sends(w, k, id, w')
    ensures WorldInv(w') && Evolves(w, w')
  {
    var c := w.calls[k].phase.c;
    assert CallInv(w, w.calls[k]);
    SentKeepsPosted(w.cycles[c], Update(w.calls[k].input, w.calls[k].delayMs, id));
    ChangeKeepsIds(w, w', c);
    CycleStepKeepsInv(w, w', c);
  }

  lemma WorkKeepsInv(w: World, w': World, c: Id)
    requires WorldInv(w) && c in w.cycles && c in w'.cycles && w' == w.(cycles := w.cycles[c := w'.cycles[c]])
    requires Extends(w.cycles[c], w'.cycles[c]) && w'.cycles[c].inbox == w.cycles[c].inbox
    requires Posted(w'.cycles[c]) && Distinct(w'.cycles[c]) && (w'.cycles[c].holds ==> w.cycles[c].holds)
    ensures WorldInv(w') && Evolves(w, w')
  {
    ChangeKeepsIds(w, w', c);
    CycleStepKeepsInv(w, w', c);
  }

  /** What a cycle's own step and a seen acknowledgement rely on, from the execution protocol. */
  ghost predicate Backed(w: World, m: Move, w': World) {
    match m
    case Work(c, _) =>
      c in w.cycles && c in w'.cycles && Posted(w'.cycles[c]) && Extends(w.cycles[c], w'.cycles[c])
    case SeeAck(k) =>
      k in w.calls && w.calls[k].phase.Waiting? && w.calls[k].phase.c in w.cycles &&
      var (cy, id) := (w.cycles[w.calls[k].phase.c], w.calls[k].phase.messageId);
      exists m :: m in Accepted(cy.d, cy.st.spine) && m.messageId == id
    case _ => true
  }

  lemma SoundIsBacked(w: World, m: Move, w': World)
    requires CyclesSound(w) && Step(w, m, w') && forall c :: c in w.cycles ==> Posted(w.cycles[c])
    ensures Backed(w, m, w')
  {
    match m
    case Work(c, a) => WorkIsBacked(w, c, a, w');
    case SeeAck(k) => AckIsBacked(w.cycles[w.calls[k].phase.c], w.calls[k].phase.messageId);
    case _ =>
  }

  lemma WorkIsBacked(w: World, c: Id, a: Act, w': World)
    requires CyclesSound(w) && Works(w, c, a, w') && !Harmful(w.cycles[c].d, w.cycles[c].st, a) && Posted(w.cycles[c])
    ensures Backed(w, Work(c, a), w')
  {
    WorkKeepsSound(w.cycles[c], a, w'.cycles[c]);
    WorkKeepsPosted(w.cycles[c], a, w'.cycles[c]);
  }

  lemma AckIsBacked(cy: Cycle, id: string)
    requires Sound(cy.d, cy.st) && id in cy.st.events
    ensures exists m :: m in Accepted(cy.d, cy.st.spine) && m.messageId == id
  {
    AckedWasTaken(cy.d, Core(cy.st), id);
  }

  lemma WorksKeepsInv(w: World, c: Id, w': World, holds: bool)
    requires WorldInv(w) && c in w.cycles && c in w'.cycles && w' == w.(cycles := w.cycles[c := w'.cycles[c]])
    requires w'.cycles[c] == w.cycles[c].(st := w'.cycles[c].st, holds := w.cycles[c].holds && holds)
    requires Posted(w'.cycles[c]) && Extends(w.cycles[c], w'.cycles[c])
    ensures WorldInv(w') && Evolves(w, w')
  {
    WorkKeepsInv(w, w', c);
  }

  lemma SeeAckKeepsInv(w: World, k: nat, w': World)
    requires WorldInv(w) && SeesAck(w, k, w')
    requires Backed(w, SeeAck(k), w')
    ensures WorldInv(w') && Evolves(w, w')
  {
    var call := w.calls[k];
    assert CallInv(w, call);
    TakenIsInput(w.cycles[call.phase.c], Update(call.input, call.delayMs, call.phase.messageId));
    CallStepKeepsInv(w, w', k);
  }

  /** A cycle loses the slot, and fails or loses its row or not. */
  lemma UnslotKeepsInv(w: World, c: Id, failed: bool, gone: bool, w': World)
    requires WorldInv(w) && c in w.cycles
    requires w' == w.(cycles := w.cycles[c := w.cycles[c].(holds := false, failed := failed, gone := gone)])
    ensures WorldInv(w') && Evolves(w, w')
  {
    WorkKeepsInv(w, w', c);
  }

  lemma CallMoveKeepsInv(w: World, m: Move, w': World)
    requires WorldInv(w) && AnyStep(w, m, w') && (m.Enter? || m.Collide? || m.LookUp? || m.GiveUp? || m.SendFails? || m.ReadRow?)
    ensures WorldInv(w') && Evolves(w, w')
  {
    if m.k in w.calls { assert CallInv(w, w.calls[m.k]); }
    CallStepKeepsInv(w, w', m.k);
  }

  ghost predicate CyclesSound(w: World) {
    forall c :: c in w.cycles ==> Sound(w.cycles[c].d, w.cycles[c].st)
  }

  lemma MoveKeepsInv(w: World, m: Move, w': World)
    requires WorldInv(w) && AnyStep(w, m, w') && Backed(w, m, w')
    ensures WorldInv(w') && Evolves(w, w')
  {
    match m
    case Win(k, c, t) => WinKeepsInv(w, k, c, t, w');
    case SendUpdate(k, id) => SendKeepsInv(w, k, id, w');
    case Work(c, a) => WorksKeepsInv(w, c, w', KeepsSlot(a, w'.cycles[c].st));
    case SeeAck(k) => SeeAckKeepsInv(w, k, w');
    case _ => OtherMoveKeepsInv(w, m, w');
  }

  lemma OtherMoveKeepsInv(w: World, m: Move, w': World)
    requires WorldInv(w) && AnyStep(w, m, w') && !m.Win? && !m.SendUpdate? && !m.Work? && !m.SeeAck?
    ensures WorldInv(w') && Evolves(w, w')
  {
    match m
    case EnqueueRefused(c, e) => UnslotKeepsInv(w, c, true, w.cycles[c].gone, w');
    case Unslot(c) => UnslotKeepsInv(w, c, w.cycles[c].failed, w.cycles[c].gone, w');
    case DeleteRow(c) => UnslotKeepsInv(w, c, w.cycles[c].failed, true, w');
    case _ => CallMoveKeepsInv(w, m, w');
  }

  lemma FreshIsSound(d: DebouncerInput)
    ensures Sound(d, Fresh())
  {
    assert WakesAt(BodyOf(d), Fresh(), 0);
    InitMeetsInv(BodyOf(d), Fresh());
    SoundWithoutStrays(d, Fresh());
  }

  lemma MoveKeepsSound(w: World, m: Move, w': World)
    requires CyclesSound(w) && Step(w, m, w')
    ensures CyclesSound(w')
  {
    if m.Win? {
      WinKeepsSound(w, m.k, m.c, m.target, w');
    } else if m.Work? {
      WorksKeepsSound(w, m.c, m.a, w');
    } else {
      OtherMoveKeepsStates(w, m, w');
      SameStatesAreSound(w, w');
    }
  }

  lemma SameStatesAreSound(w: World, w': World)
    requires CyclesSound(w) && SameStates(w, w')
    ensures CyclesSound(w')
  {
  }

  lemma WinKeepsSound(w: World, k: nat, c: Id, target: Id, w': World)
    requires CyclesSound(w) && Wins(w, k, c, target, w')
    ensures CyclesSound(w')
  {
    FreshIsSound(w'.cycles[c].d);
  }

  lemma WorksKeepsSound(w: World, c: Id, a: Act, w': World)
    requires CyclesSound(w) && Works(w, c, a, w') && !Harmful(w.cycles[c].d, w.cycles[c].st, a)
    ensures CyclesSound(w')
  {
    WorkKeepsSound(w.cycles[c], a, w'.cycles[c]);
  }

  lemma OtherMoveKeepsStates(w: World, m: Move, w': World)
    requires AnyStep(w, m, w') && !m.Win? && !m.Work?
    ensures SameStates(w, w')
  {
    match m
    case SendUpdate(k, id) => SendKeepsStates(w, k, id, w');
    case EnqueueRefused(c, e) => UnslotKeepsStates(w, c, true, w.cycles[c].gone, w');
    case Unslot(c) => UnslotKeepsStates(w, c, w.cycles[c].failed, w.cycles[c].gone, w');
    case DeleteRow(c) => UnslotKeepsStates(w, c, w.cycles[c].failed, true, w');
    case _ =>
  }

  predicate SameStates(w: World, w': World) {
    w'.cycles.Keys == w.cycles.Keys &&
    forall c :: c in w.cycles ==> w'.cycles[c].d == w.cycles[c].d && w'.cycles[c].st == w.cycles[c].st
  }

  lemma SendKeepsStates(w: World, k: nat, id: string, w': World)
    requires Sends(w, k, id, w')
    ensures SameStates(w, w')
  {
  }

  lemma UnslotKeepsStates(w: World, c: Id, failed: bool, gone: bool, w': World)
    requires c in w.cycles
    requires w' == w.(cycles := w.cycles[c := w.cycles[c].(holds := false, failed := failed, gone := gone)])
    ensures SameStates(w, w')
  {
  }

  lemma ReturnedCallsStay(w: World, m: Move, w': World)
    requires Step(w, m, w')
    ensures forall k :: k in w.calls && w.calls[k].phase.Returned? ==> k in w'.calls && w'.calls[k] == w.calls[k]
  {
  }

  lemma {:induction false} RunKeepsAll(ws: seq<World>, ms: seq<Move>, j: nat)
    requires Run(ws, ms) && Empty(ws[0]) && j <= |ms|
    ensures WorldInv(ws[j]) && CyclesSound(ws[j])
  {
    if j > 0 {
      RunKeepsAll(ws, ms, j - 1);
      SoundIsBacked(ws[j - 1], ms[j - 1], ws[j]);
      MoveKeepsInv(ws[j - 1], ms[j - 1], ws[j]);
      MoveKeepsSound(ws[j - 1], ms[j - 1], ws[j]);
    }
  }

  lemma RunEvolves(ws: seq<World>, ms: seq<Move>, j: nat)
    requires Run(ws, ms) && Empty(ws[0]) && j < |ms|
    ensures Evolves(ws[j], ws[j + 1])
    ensures forall k :: k in ws[j].calls && ws[j].calls[k].phase.Returned? ==>
              k in ws[j + 1].calls && ws[j + 1].calls[k] == ws[j].calls[k]
  {
    ReturnedCallsStay(ws[j], ms[j], ws[j + 1]);
    RunKeepsAll(ws, ms, j);
    SoundIsBacked(ws[j], ms[j], ws[j + 1]);
    MoveKeepsInv(ws[j], ms[j], ws[j + 1]);
  }

  lemma ReturnedHasCycle(ws: seq<World>, ms: seq<Move>, i: nat, k: nat)
    requires Run(ws, ms) && Empty(ws[0]) && i <= |ms|
    requires k in ws[i].calls && ws[i].calls[k].phase.Returned?
    ensures ws[i].calls[k].phase.c in ws[i].cycles
  {
    RunKeepsAll(ws, ms, i);
    assert CallInv(ws[i], ws[i].calls[k]);
  }

  /** The result of a call and the inputs its cycle took over by then are kept. */
  lemma {:induction false} ResultsStay(ws: seq<World>, ms: seq<Move>, i: nat, j: nat, k: nat)
    requires Run(ws, ms) && Empty(ws[0]) && i <= j <= |ms|
    requires k in ws[i].calls && ws[i].calls[k].phase.Returned?
    ensures k in ws[j].calls && ws[j].calls[k] == ws[i].calls[k]
    ensures ws[i].calls[k].phase.c in ws[i].cycles && ws[i].calls[k].phase.c in ws[j].cycles
    ensures var c := ws[i].calls[k].phase.c; Inputs(ws[i].cycles[c]) <= Inputs(ws[j].cycles[c])
    decreases j - i
  {
    ReturnedHasCycle(ws, ms, i, k);
    if i < j {
      var c := ws[i].calls[k].phase.c;
      ResultsStay(ws, ms, i, j - 1, k);
      RunEvolves(ws, ms, j - 1);
      InputsGrow(ws[j - 1].cycles[c], ws[j].cycles[c]);
    }
  }

  /** Whatever callers race and whatever crashes: a call that returned has had its input
      taken over by one cycle, and it returned that cycle's target or an identifier nothing
      will ever run under. From then on, if the target's row is enqueued, by any cycle, it is
      by that one, with that input or one taken over after it. */
  lemma CallersShareTheRun(ws: seq<World>, ms: seq<Move>, i: nat, j: nat, k: nat)
    requires Run(ws, ms) && Empty(ws[0]) && i <= j <= |ms|
    requires k in ws[i].calls && ws[i].calls[k].phase.Returned?
    ensures var (x, p) := (ws[i].calls[k].input, ws[i].calls[k].phase);
            p.c in ws[i].cycles && p.c in ws[j].cycles &&
            x in Inputs(ws[i].cycles[p.c]) && Inputs(ws[i].cycles[p.c]) <= Inputs(ws[j].cycles[p.c]) &&
            (p.target == ws[j].cycles[p.c].d.targetId || Unused(ws[j], p.target)) &&
            forall o :: o in ws[j].cycles && p.target in ws[j].cycles[o].st.spawned ==>
              o == p.c &&
              ws[j].cycles[o].st.spawned[p.target] == Inputs(ws[j].cycles[o])[|Inputs(ws[j].cycles[o])| - 1]
  {
    ResultsStay(ws, ms, i, j, k);
    RunKeepsAll(ws, ms, i);
    RunKeepsAll(ws, ms, j);
    var w, p := ws[j], ws[i].calls[k].phase;
    assert CallInv(ws[i], ws[i].calls[k]) && CallInv(w, w.calls[k]);
    forall o | o in w.cycles && p.target in w.cycles[o].st.spawned
      ensures o == p.c &&
              w.cycles[o].st.spawned[p.target] == Inputs(w.cycles[o])[|Inputs(w.cycles[o])| - 1]
    {
      SpawnsLatest(w.cycles[o], p.target);
    }
  }

  // ---- acknowledged, but stranded ----

  lemma AckStep(ws: seq<World>, ms: seq<Move>, j: nat, k: nat)
    requires Run(ws, ms) && Empty(ws[0]) && j < |ms| && k in ws[j].calls && ws[j].calls[k].phase.Acked?
    ensures k in ws[j + 1].calls && (ms[j] != ReadRow(k) ==> ws[j + 1].calls[k] == ws[j].calls[k])
    ensures forall c :: c in ws[j].cycles ==>
              c in ws[j + 1].cycles && (ws[j + 1].cycles[c].gone <==> ws[j].cycles[c].gone || ms[j] == DeleteRow(c))
  {
    RunKeepsAll(ws, ms, j);
    GoneStep(ws[j], ms[j], ws[j + 1]);
  }

  lemma GoneStep(w: World, m: Move, w': World)
    requires IdsInv(w) && AnyStep(w, m, w')
    ensures forall c :: c in w.cycles ==>
              c in w'.cycles && (w'.cycles[c].gone <==> w.cycles[c].gone || m == DeleteRow(c))
  {
  }

  predicate NobodysTarget(w: World, t: Id) {
    forall o :: o in w.cycles ==> w.cycles[o].d.targetId != t
  }

  ghost predicate DeletedBetween(ms: seq<Move>, i: nat, j: nat, c: Id) {
    exists m :: i < m < j && m < |ms| && ms[m] == DeleteRow(c)
  }

  /** Between its acknowledgement and its reading of the row a call waits, and the row is gone
      exactly if it is deleted in between. */
  lemma {:induction false} AckedUntil(ws: seq<World>, ms: seq<Move>, i: nat, j: nat, k: nat, c: Id)
    requires Run(ws, ms) && Empty(ws[0]) && i < j <= |ms| && ms[i] == SeeAck(k) && k in ws[i].calls && ws[i].calls[k].phase.Waiting?
    requires ws[i].calls[k].phase.c == c
    requires forall m :: i < m < j ==> ms[m] != ReadRow(k)
    ensures k in ws[j].calls && ws[j].calls[k].phase == Acked(c, ws[i].calls[k].phase.target)
    ensures c in ws[j].cycles && (ws[j].cycles[c].gone <==> DeletedBetween(ms, i, j, c))
    decreases j
  {
    if j == i + 1 {
      assert Step(ws[i], ms[i], ws[j]);
    } else {
      AckedUntil(ws, ms, i, j - 1, k, c);
      AckStep(ws, ms, j - 1, k);
      assert DeletedBetween(ms, i, j, c) <==> DeletedBetween(ms, i, j - 1, c) || ms[j - 1] == DeleteRow(c);
    }
  }

  /** A caller whose message was acknowledged gets an identifier that belongs to no cycle
      exactly when the internal row was deleted after it saw the acknowledgement and before
      it read the row. */
  lemma StrandedIff(ws: seq<World>, ms: seq<Move>, i: nat, j: nat, k: nat)
    requires Run(ws, ms) && Empty(ws[0]) && i < j < |ms| && ms[i] == SeeAck(k) && ms[j] == ReadRow(k)
    requires forall m :: i < m < j ==> ms[m] != ReadRow(k)
    ensures k in ws[i].calls && ws[i].calls[k].phase.Waiting?
    ensures k in ws[j + 1].calls && ws[j + 1].calls[k].phase.Returned?
    ensures NobodysTarget(ws[j + 1], ws[j + 1].calls[k].phase.target)
            <==> DeletedBetween(ms, i, j, ws[i].calls[k].phase.c)
  {
    assert SeesAck(ws[i], k, ws[i + 1]) by { assert Step(ws[i], ms[i], ws[i + 1]); }
    assert ReadsRow(ws[j], k, ws[j + 1]) by { assert Step(ws[j], ms[j], ws[j + 1]); }
    AckedUntil(ws, ms, i, j, k, ws[i].calls[k].phase.c);
    RunKeepsAll(ws, ms, j);
    assert CallInv(ws[j], ws[j].calls[k]);
  }

  /** At most one cycle holds the slot, and no two cycles ever enqueue the same row; each
      enqueues at most one. */
  lemma OneCycleOneRow(ws: seq<World>, ms: seq<Move>, j: nat)
    requires Run(ws, ms) && Empty(ws[0]) && j <= |ms|
    ensures var cs := ws[j].cycles;
            (forall c, o :: c in cs && o in cs && cs[c].holds && cs[o].holds ==> c == o) &&
            (forall c, t, u :: c in cs && t in cs[c].st.spawned && u in cs[c].st.spawned ==> t == u) &&
            forall c, o, t :: c in cs && o in cs && t in cs[c].st.spawned && t in cs[o].st.spawned ==> c == o
  {
    RunKeepsAll(ws, ms, j);
    var cs := ws[j].cycles;
    forall c, t | c in cs && t in cs[c].st.spawned ensures t == cs[c].d.targetId {
      SpawnsLatest(cs[c], t);
    }
  }
}
