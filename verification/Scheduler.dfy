/** Database-backed schedules: the reconciler's map of firing tasks, the firing of a tick and
    the backfill of missed ones. */
module Scheduler {
  import opened Wrappers
  import opened Tables
  import opened SystemDb
  import opened Executor

  // ---- schedules and their ticks ----

  /** The first tick strictly after a time, if there is one. Times are milliseconds. */
  type Cron = int -> Option<int>

  /** A row of the schedule table; the cron expression may not parse. */
  datatype ScheduleRow = ScheduleRow(
    id: string, name: string, workflow: string, queue: Option<string>, context: string,
    active: bool, automaticBackfill: bool, lastFired: Option<int>, cron: Option<Cron>)

  predicate Tick(next: Cron, t: int) {
    next(t - 1) == Some(t)
  }

  ghost predicate NextIsFirst(next: Cron, t: int) {
    match next(t)
    case None => forall v :: v > t ==> !Tick(next, v)
    case Some(u) => t < u && Tick(next, u) && forall v :: t < v < u ==> !Tick(next, v)
  }

  /** Ticks are whole seconds. */
  ghost predicate ValidCron(next: Cron) {
    (forall t :: NextIsFirst(next, t)) && forall t :: Tick(next, t) ==> t % 1000 == 0
  }

  ghost predicate ValidRow(row: ScheduleRow) {
    row.cron.Some? ==> ValidCron(row.cron.value)
  }

  /** The ticks of the schedule strictly between two times. */
  predicate InWindow(row: ScheduleRow, start: int, end: int, t: int) {
    row.cron.Some? && Tick(row.cron.value, t) && start < t < end
  }

  /** The RFC 3339 form of a whole second has a fixed width and tells seconds apart. */
  ghost predicate FixedWidth(stamp: int -> string) {
    forall t, u :: t % 1000 == 0 && u % 1000 == 0 ==>
      |stamp(t)| == |stamp(u)| && (stamp(t) == stamp(u) ==> t == u)
  }

  function TickId(stamp: int -> string, name: string, t: int): Id {
    "sched-" + name + "-" + stamp(t)
  }

  /** One id per schedule name and tick, whatever characters the name has. */
  lemma TickIdTellsApart(stamp: int -> string, name: string, t: int, name': string, u: int)
    requires FixedWidth(stamp) && t % 1000 == 0 && u % 1000 == 0
    ensures TickId(stamp, name, t) == TickId(stamp, name', u) <==> name == name' && t == u
  {
    var a, b := TickId(stamp, name, t), TickId(stamp, name', u);
    if a == b {
      var n := |a| - |stamp(t)|;
      assert a[n..] == stamp(t) && b[n..] == stamp(u);
      assert a[6..n - 1] == name && b[6..n - 1] == name';
    }
  }

  function QueueOf(row: ScheduleRow): string {
    if row.queue.Some? && row.queue.value != "" then row.queue.value else INTERNAL_QUEUE
  }

  /** What firing and backfill both enqueue for a tick. */
  function TickRequest(stamp: int -> string, row: ScheduleRow, t: int, version: Option<string>): Request {
    Request(row.workflow, Some(stamp(t) + row.context),
            DEFAULT_OPTIONS.(workflowId := Some(TickId(stamp, row.name, t)), queue := QueueOf(row), version := version),
            Flags(false, false), None)
  }

  /** The workflow that a tick starts can tell its scheduled time and context from its input, and
      it is the schedule's workflow, on the schedule's queue. */
  lemma TickInputTellsApart(stamp: int -> string, row: ScheduleRow, t: int, v: Option<string>, row': ScheduleRow, u: int, v': Option<string>)
    requires FixedWidth(stamp) && t % 1000 == 0 && u % 1000 == 0
    ensures TickRequest(stamp, row, t, v).input == TickRequest(stamp, row', u, v').input <==> t == u && row.context == row'.context
    ensures TickRequest(stamp, row, t, v).name == row.workflow && TickRequest(stamp, row, t, v).opts.version == v
    ensures TickRequest(stamp, row, t, v).opts.queue ==
              if row.queue == None || row.queue == Some("") then INTERNAL_QUEUE else row.queue.value
  {
    var (a, b) := (stamp(t) + row.context, stamp(u) + row'.context);
    if a == b {
      assert a[..|stamp(t)|] == stamp(t) && b[..|stamp(u)|] == stamp(u);
      assert a[|stamp(t)|..] == row.context && b[|stamp(u)|..] == row'.context;
    }
  }

  function TickRow(p: Process, stamp: int -> string, row: ScheduleRow, t: int, version: Option<string>, d: Draw): Row
    requires row.workflow in p.registry
  {
    NewRow(InsertFor(p, TickRequest(stamp, row, t, version), d))
  }

  /** Enqueuing a tick for the first time adds one waiting row and launches nothing. */
  lemma FreshTick(p: Process, stamp: int -> string, db: Db, active: Active, row: ScheduleRow, t: int, version: Option<string>, d: Draw)
    requires row.workflow in p.registry && TickId(stamp, row.name, t) !in db.rows
    ensures var id := TickId(stamp, row.name, t);
            RunErased(p, db, active, TickRequest(stamp, row, t, version), d)
            == (db.(rows := db.rows[id := TickRow(p, stamp, row, t, version, d)]), active, Ok(Polling(id))) &&
            TickRow(p, stamp, row, t, version, d).status == Enqueued
  {
  }

  /** Enqueuing it again, from any path, executor or time, changes nothing - short of parking
      a row that has run out of attempts - and launches nothing. */
  lemma KnownTick(p: Process, stamp: int -> string, db: Db, active: Active, row: ScheduleRow, t: int, version: Option<string>, d: Draw)
    requires TickId(stamp, row.name, t) in db.rows
    ensures var id := TickId(stamp, row.name, t);
            var (db', active', r) := RunErased(p, db, active, TickRequest(stamp, row, t, version), d);
            active' == active && (r.Ok? ==> r.value == Polling(id)) &&
            (db' == db || (row.workflow in p.registry && Exhausted(db.rows[id], p.registry[row.workflow]) &&
                           db' == db.(rows := db.rows[id := Park(db.rows[id])])))
  {
    var id := TickId(stamp, row.name, t);
    assert db.rows[id := db.rows[id]] == db.rows;
  }

  /** What firing a tick does to the rows, whether or not it works. */
  lemma FireRows(p: Process, stamp: int -> string, db: Db, active: Active, row: ScheduleRow, t: int, version: Option<string>, d: Draw)
    ensures var (db', active', r) := RunErased(p, db, active, TickRequest(stamp, row, t, version), d);
            active' == active && db.rows.Keys <= db'.rows.Keys <= db.rows.Keys + {TickId(stamp, row.name, t)} &&
            (row.workflow in p.registry ==> TickId(stamp, row.name, t) in db'.rows)
  {
    if TickId(stamp, row.name, t) in db.rows {
      KnownTick(p, stamp, db, active, row, t, version, d);
    } else if row.workflow in p.registry {
      FreshTick(p, stamp, db, active, row, t, version, d);
    }
  }

  // ---- backfill ----

  /** The id of each tick, and the row its first enqueuing makes; none for a workflow that is
      not registered. */
  function Ids(stamp: int -> string, row: ScheduleRow): int -> Id {
    t => TickId(stamp, row.name, t)
  }

  function Made(p: Process, stamp: int -> string, row: ScheduleRow, version: Option<string>, draws: int -> Draw): int -> Option<Row> {
    t => if row.workflow in p.registry then Some(TickRow(p, stamp, row, t, version, draws(t))) else None
  }

  /** The row of some tick in the window. */
  ghost predicate OfTick(row: ScheduleRow, start: int, end: int, ids: int -> Id, made: int -> Option<Row>, id: Id, r: Row) {
    exists t :: InWindow(row, start, end, t) && id == ids(t) && made(t) == Some(r)
  }

  /** Every tick of the window has its row: rows that existed are as they were, and the rows
      added are those of ticks in the window. */
  ghost predicate Added(rows: Rows, row: ScheduleRow, start: int, end: int, ids: int -> Id, made: int -> Option<Row>, rows': Rows) {
    (forall id :: id in rows ==> id in rows' && rows'[id] == rows[id]) &&
    (forall id :: id in rows' && id !in rows ==> OfTick(row, start, end, ids, made, id, rows'[id])) &&
    forall t :: InWindow(row, start, end, t) ==> ids(t) in rows'
  }

  /** A backfill fails for a schedule that does not parse, or a workflow unknown here with a
      tick left to enqueue. */
  ghost predicate Unfillable(p: Process, rows: Rows, row: ScheduleRow, start: int, end: int, ids: int -> Id) {
    row.cron.None? || (row.workflow !in p.registry && exists t :: InWindow(row, start, end, t) && ids(t) !in rows)
  }

  lemma WindowGrows(row: ScheduleRow, start: int, cur: int, u: int, end: int, end': int)
    requires row.cron.Some? && NextIsFirst(row.cron.value, cur) && row.cron.value(cur) == Some(u) && start <= cur
    requires end == cur + 1 && end' == u + 1
    ensures InWindow(row, start, end', u)
    ensures forall t :: InWindow(row, start, end, t) ==> InWindow(row, start, end', t)
    ensures forall t :: InWindow(row, start, end', t) ==> t == u || InWindow(row, start, end, t)
  {
  }

  lemma TickAdded(rows: Rows, row: ScheduleRow, start: int, cur: int, u: int, ids: int -> Id, made: int -> Option<Row>,
                  rows': Rows, rows'': Rows)
    requires row.cron.Some? && NextIsFirst(row.cron.value, cur) && row.cron.value(cur) == Some(u) && start <= cur
    requires Added(rows, row, start, cur + 1, ids, made, rows')
    requires if ids(u) in rows' then rows'' == rows' else made(u).Some? && rows'' == rows'[ids(u) := made(u).value]
    ensures Added(rows, row, start, u + 1, ids, made, rows'')
  {
    WindowGrows(row, start, cur, u, cur + 1, u + 1);
    forall id | id in rows'' && id !in rows ensures OfTick(row, start, u + 1, ids, made, id, rows''[id]) {
      if id in rows' { assert OfTick(row, start, cur + 1, ids, made, id, rows'[id]); }
    }
  }

  /** The last tick before the end of the window has been passed. */
  lemma WindowDone(rows: Rows, row: ScheduleRow, start: int, cur: int, end: int, ids: int -> Id, made: int -> Option<Row>, rows': Rows)
    requires row.cron.Some? && NextIsFirst(row.cron.value, cur) && start <= cur && (cur < end || cur == start)
    requires row.cron.value(cur).Some? ==> row.cron.value(cur).value >= end
    requires Added(rows, row, start, cur + 1, ids, made, rows')
    ensures Added(rows, row, start, end, ids, made, rows')
  {
    forall t ensures InWindow(row, start, end, t) <==> InWindow(row, start, cur + 1, t) {
    }
    forall id | id in rows' && id !in rows ensures OfTick(row, start, end, ids, made, id, rows'[id]) {
      assert OfTick(row, start, cur + 1, ids, made, id, rows'[id]);
    }
  }

  lemma WasFillable(p: Process, rows: Rows, row: ScheduleRow, start: int, end: int, ids: int -> Id, made: int -> Option<Row>, rows': Rows)
    requires row.cron.Some? && Added(rows, row, start, end, ids, made, rows')
    requires row.workflow !in p.registry ==> rows' == rows
    ensures !Unfillable(p, rows, row, start, end, ids)
  {
  }

  /** A backfill adds no row for a tick of this schedule outside its window. */
  lemma NothingOutsideWindow(stamp: int -> string, rows: Rows, row: ScheduleRow, start: int, end: int,
                             made: int -> Option<Row>, rows': Rows, u: int)
    requires FixedWidth(stamp) && ValidRow(row) && u % 1000 == 0 && !InWindow(row, start, end, u)
    requires Added(rows, row, start, end, Ids(stamp, row), made, rows')
    ensures TickId(stamp, row.name, u) in rows' <==> TickId(stamp, row.name, u) in rows
  {
    var id := TickId(stamp, row.name, u);
    if id in rows' && id !in rows {
      assert OfTick(row, start, end, Ids(stamp, row), made, id, rows'[id]);
      var t :| InWindow(row, start, end, t) && id == Ids(stamp, row)(t);
      TickIdTellsApart(stamp, row.name, u, row.name, t);
    }
  }

  // ---- the firing loop ----

  function Elements(ticks: seq<int>): set<int> {
    set t | t in ticks
  }

  function TickIds(stamp: int -> string, name: string, ticks: set<int>): set<Id> {
    set t | t in ticks :: TickId(stamp, name, t)
  }

  /** Rows are added for these ticks alone, and for all of them if the workflow is registered. */
  predicate EnqueuedOf(p: Process, stamp: int -> string, row: ScheduleRow, ticks: set<int>, rows: Rows, rows': Rows) {
    rows.Keys <= rows'.Keys <= rows.Keys + TickIds(stamp, row.name, ticks) &&
    (row.workflow in p.registry ==> TickIds(stamp, row.name, ticks) <= rows'.Keys)
  }

  /** What is noted as the last firing is as it was, or one of these ticks that has its row. */
  predicate NotedOf(stamp: int -> string, row: ScheduleRow, ticks: set<int>, noted: map<string, int>, noted': map<string, int>, rows: Rows) {
    noted' == noted ||
    (row.name in noted' && noted' == noted[row.name := noted'[row.name]] && noted'[row.name] in ticks &&
     TickId(stamp, row.name, noted'[row.name]) in rows)
  }

  lemma OneTickId(stamp: int -> string, name: string, t: int)
    ensures TickIds(stamp, name, {t}) == {TickId(stamp, name, t)}
  {
  }

  lemma NothingFired(p: Process, stamp: int -> string, row: ScheduleRow, rows: Rows, noted: map<string, int>)
    ensures EnqueuedOf(p, stamp, row, Elements([]), rows, rows) && NotedOf(stamp, row, Elements([]), noted, noted, rows)
  {
    assert TickIds(stamp, row.name, Elements([])) == {};
  }

  lemma OneMoreFired(p: Process, stamp: int -> string, row: ScheduleRow, ticks: seq<int>, t: int,
                     rows0: Rows, rows: Rows, rows': Rows, noted0: map<string, int>, noted: map<string, int>, noted': map<string, int>)
    requires EnqueuedOf(p, stamp, row, Elements(ticks), rows0, rows) && EnqueuedOf(p, stamp, row, {t}, rows, rows')
    requires NotedOf(stamp, row, Elements(ticks), noted0, noted, rows) && NotedOf(stamp, row, {t}, noted, noted', rows')
    ensures EnqueuedOf(p, stamp, row, Elements(ticks + [t]), rows0, rows')
    ensures NotedOf(stamp, row, Elements(ticks + [t]), noted0, noted', rows')
  {
    assert Elements(ticks + [t]) == Elements(ticks) + {t};
    assert TickIds(stamp, row.name, Elements(ticks) + {t}) == TickIds(stamp, row.name, Elements(ticks)) + TickIds(stamp, row.name, {t});
  }

  /** The loop reads the clock, fires the first tick after that when its time has come, and
      reads the clock again. */
  predicate Rounds(next: Cron, nows: seq<int>, ticks: seq<int>) {
    |nows| == |ticks| + 1 &&
    forall k :: 0 <= k < |ticks| ==> next(nows[k]) == Some(ticks[k]) && ticks[k] <= nows[k + 1]
  }

  /** The tick's time went by while the loop was busy with an earlier one. */
  predicate Passed(nows: seq<int>, ticks: seq<int>, u: int)
    requires |nows| == |ticks| + 1
  {
    exists k :: 0 <= k < |ticks| && ticks[k] < u <= nows[k + 1]
  }

  lemma {:induction false} RoundsGoOn(next: Cron, nows: seq<int>, ticks: seq<int>, a: nat, b: nat)
    requires ValidCron(next) && Rounds(next, nows, ticks) && a <= b <= |ticks|
    ensures nows[a] <= nows[b]
    ensures a < b ==> nows[a] < ticks[a] <= nows[b]
    ensures a < b < |ticks| ==> ticks[a] < ticks[b]
    decreases b - a
  {
    if a < b {
      assert NextIsFirst(next, nows[a]);
      RoundsGoOn(next, nows, ticks, a + 1, b);
    }
    if b < |ticks| { assert NextIsFirst(next, nows[b]); }
  }

  /** No tick is fired twice, and one whose time comes is either fired or passed over. */
  lemma {:induction false} FiredOrPassed(next: Cron, nows: seq<int>, ticks: seq<int>, u: int)
    requires ValidCron(next) && Rounds(next, nows, ticks) && Tick(next, u) && nows[0] < u <= nows[|ticks|]
    ensures u in ticks <==> !Passed(nows, ticks, u)
    ensures forall a, b :: 0 <= a < b < |ticks| ==> ticks[a] < ticks[b]
  {
    forall a, b | 0 <= a < b < |ticks| ensures ticks[a] < ticks[b] {
      RoundsGoOn(next, nows, ticks, a, b);
    }
    var k := RoundOf(nows, u, |ticks|);
    assert NextIsFirst(next, nows[k]);
    forall j | 0 <= j < |ticks| && j != k ensures ticks[j] != u && !(ticks[j] < u <= nows[j + 1]) {
      if j < k { RoundsGoOn(next, nows, ticks, j + 1, k); } else { RoundsGoOn(next, nows, ticks, k + 1, j); }
      assert NextIsFirst(next, nows[j]);
    }
    if u == ticks[k] { assert u in ticks; }
  }

  /** The round in which a time comes. */
  lemma {:induction false} RoundOf(nows: seq<int>, u: int, n: nat) returns (k: nat)
    requires n < |nows| && nows[0] < u <= nows[n]
    ensures k < n && nows[k] < u <= nows[k + 1]
  {
    if nows[n - 1] < u { k := n - 1; } else { k := RoundOf(nows, u, n - 1); }
  }

  /** The loop fires every tick if and only if, each time it comes round, the next tick after
      the one just fired is still ahead. */
  lemma FiresAllIff(next: Cron, nows: seq<int>, ticks: seq<int>)
    requires ValidCron(next) && Rounds(next, nows, ticks)
    ensures (forall u :: Tick(next, u) && nows[0] < u <= nows[|ticks|] ==> u in ticks)
            <==> forall k :: 0 <= k < |ticks| ==> next(ticks[k]).None? || next(ticks[k]).value > nows[k + 1]
  {
    forall k | 0 <= k < |ticks| && next(ticks[k]).Some? && next(ticks[k]).value <= nows[k + 1]
      ensures exists u :: Tick(next, u) && nows[0] < u <= nows[|ticks|] && u !in ticks
    {
      var u := next(ticks[k]).value;
      assert NextIsFirst(next, ticks[k]) && NextIsFirst(next, nows[k]);
      RoundsGoOn(next, nows, ticks, 0, k);
      RoundsGoOn(next, nows, ticks, k + 1, |ticks|);
      assert Passed(nows, ticks, u);
      FiredOrPassed(next, nows, ticks, u);
    }
    forall u | Tick(next, u) && nows[0] < u <= nows[|ticks|] && u !in ticks
      ensures exists k :: 0 <= k < |ticks| && next(ticks[k]).Some? && next(ticks[k]).value <= nows[k + 1]
    {
      FiredOrPassed(next, nows, ticks, u);
      var k :| 0 <= k < |ticks| && ticks[k] < u <= nows[k + 1];
      assert NextIsFirst(next, ticks[k]);
    }
  }

  /** A tick that was passed over before a later one was fired stays without a row: the
      automatic backfill starts after the last firing. */
  lemma PassedTickIsNotMadeUp(stamp: int -> string, rows: Rows, row: ScheduleRow, nows: seq<int>, ticks: seq<int>, u: int,
                              end: int, made: int -> Option<Row>, rows': Rows)
    requires FixedWidth(stamp) && ValidRow(row) && row.cron.Some? && Rounds(row.cron.value, nows, ticks) && |ticks| > 0
    requires Tick(row.cron.value, u) && nows[0] < u <= ticks[|ticks| - 1] && Passed(nows, ticks, u)
    requires Added(rows, row, ticks[|ticks| - 1] + GAP, end, Ids(stamp, row), made, rows')
    ensures u !in ticks
    ensures TickId(stamp, row.name, u) in rows' <==> TickId(stamp, row.name, u) in rows
  {
    FiredOrPassed(row.cron.value, nows, ticks, u);
    NothingOutsideWindow(stamp, rows, row, ticks[|ticks| - 1] + GAP, end, made, rows', u);
  }

  /** The automatic backfill starts this long after the last firing. */
  const GAP := 1000

  /** The automatic backfill makes up for every tick since the last firing exactly unless the
      schedule has a tick exactly one second after it: the window starts there and excludes
      its start. */
  lemma AutomaticBackfillCoversIff(stamp: int -> string, rows: Rows, row: ScheduleRow, last: int, now: int,
                                   made: int -> Option<Row>, rows': Rows)
    requires FixedWidth(stamp) && ValidRow(row) && last % 1000 == 0
    requires Added(rows, row, last + GAP, now, Ids(stamp, row), made, rows')
    ensures (forall t :: InWindow(row, last, now, t) ==> TickId(stamp, row.name, t) in rows')
            <==> (InWindow(row, last, now, last + GAP) ==> TickId(stamp, row.name, last + GAP) in rows)
  {
    NothingOutsideWindow(stamp, rows, row, last + GAP, now, made, rows', last + GAP);
    forall t | InWindow(row, last, now, t) && t != last + GAP ensures TickId(stamp, row.name, t) in rows' {
      assert InWindow(row, last + GAP, now, t) && Ids(stamp, row)(t) in rows';
    }
  }

  /** A schedule that fires every second. */
  function EverySecond(): Cron {
    t => Some(t - t % 1000 + 1000)
  }

  lemma EverySecondIsValid()
    ensures ValidCron(EverySecond())
    ensures forall t :: Tick(EverySecond(), t) <==> t % 1000 == 0
  {
    forall t ensures Tick(EverySecond(), t) <==> t % 1000 == 0 {}
    forall t ensures NextIsFirst(EverySecond(), t) {}
  }

  /** A round that takes more than a second skips the next tick of such a schedule. */
  lemma SlowRoundSkipsTick()
    ensures var (nows, ticks) := ([0, 2500, 3000], [1000, 3000]);
            Rounds(EverySecond(), nows, ticks) && Tick(EverySecond(), 2000) && Passed(nows, ticks, 2000) && 2000 !in ticks
  {
    var (nows, ticks) := ([0, 2500, 3000], [1000, 3000]);
    EverySecondIsValid();
    assert ticks[0] < 2000 <= nows[0 + 1];
    FiredOrPassed(EverySecond(), nows, ticks, 2000);
  }

  /** The tick that is lost: a schedule of every second, last fired at some second, comes
      back at least two seconds later. Its backfill succeeds and the first tick it missed has
      no row. */
  lemma EverySecondLosesTick(stamp: int -> string, rows: Rows, row: ScheduleRow, last: int, now: int,
                             made: int -> Option<Row>, rows': Rows)
    requires FixedWidth(stamp) && last % 1000 == 0 && now > last + GAP && row.cron == Some(EverySecond())
    requires Added(rows, row, last + GAP, now, Ids(stamp, row), made, rows')
    requires TickId(stamp, row.name, last + GAP) !in rows
    ensures InWindow(row, last, now, last + GAP) && TickId(stamp, row.name, last + GAP) !in rows'
  {
    EverySecondIsValid();
    NothingOutsideWindow(stamp, rows, row, last + GAP, now, made, rows', last + GAP);
  }

  // ---- a reconcile pass ----

  /** An installed schedule: the row it came from and the token that stops its firing task. */
  datatype Installed = Installed(scheduleId: string, token: nat)

  /** What a pass reads: the schedule table by name, and per schedule the time, the latest
      application version and the draws of its enqueuings. */
  datatype Pass = Pass(
    schedules: map<string, ScheduleRow>, now: string -> int,
    version: string -> Option<string>, draws: string -> int -> Draw)

  ghost predicate ValidPass(pass: Pass) {
    forall n :: n in pass.schedules ==> pass.schedules[n].name == n && ValidRow(pass.schedules[n])
  }

  predicate MissedTicks(row: ScheduleRow) {
    row.automaticBackfill && row.lastFired.Some?
  }

  ghost predicate MadeUp(p: Process, stamp: int -> string, pass: Pass, n: string, id: Id, r: Row)
    requires n in pass.schedules
  {
    var row := pass.schedules[n];
    MissedTicks(row) &&
    OfTick(row, row.lastFired.value + GAP, pass.now(n), Ids(stamp, row), Made(p, stamp, row, pass.version(n), pass.draws(n)), id, r)
  }

  /** For each of the schedules the missed ticks of its window have their rows, if it asks for
      that and its workflow is known here; nothing else changes. */
  ghost predicate CaughtUp(p: Process, stamp: int -> string, pass: Pass, names: set<string>, rows: Rows, rows': Rows)
    requires forall n :: n in names ==> n in pass.schedules
  {
    (forall id :: id in rows ==> id in rows' && rows'[id] == rows[id]) &&
    (forall id :: id in rows' && id !in rows ==> exists n :: n in names && MadeUp(p, stamp, pass, n, id, rows'[id])) &&
    forall n :: n in names && MissedTicks(pass.schedules[n]) && pass.schedules[n].workflow in p.registry ==>
      WindowFull(stamp, pass, n, rows')
  }

  ghost predicate WindowFull(stamp: int -> string, pass: Pass, n: string, rows: Rows)
    requires n in pass.schedules && MissedTicks(pass.schedules[n])
  {
    var row := pass.schedules[n];
    forall t :: InWindow(row, row.lastFired.value + GAP, pass.now(n), t) ==> Ids(stamp, row)(t) in rows
  }

  /** A pass makes up only for ticks after the second that follows the last firing. */
  lemma MadeUpIsLater(p: Process, stamp: int -> string, pass: Pass, n: string, m: string, u: int, r: Row)
    requires ValidPass(pass) && FixedWidth(stamp) && n in pass.schedules && m in pass.schedules && u % 1000 == 0
    requires MadeUp(p, stamp, pass, m, TickId(stamp, pass.schedules[n].name, u), r)
    ensures m == n && u > pass.schedules[n].lastFired.value + 1000
  {
    var (row, other) := (pass.schedules[n], pass.schedules[m]);
    var t :| InWindow(other, other.lastFired.value + GAP, pass.now(m), t) && TickId(stamp, row.name, u) == Ids(stamp, other)(t);
    TickIdTellsApart(stamp, row.name, u, other.name, t);
  }

  lemma NewIsMadeUp(p: Process, stamp: int -> string, pass: Pass, names: set<string>, rows: Rows, rows': Rows, id: Id) returns (m: string)
    requires (forall n :: n in names ==> n in pass.schedules) && CaughtUp(p, stamp, pass, names, rows, rows')
    requires id in rows' && id !in rows
    ensures m in names && MadeUp(p, stamp, pass, m, id, rows'[id])
  {
    m :| m in names && MadeUp(p, stamp, pass, m, id, rows'[id]);
  }

  lemma OldStays(p: Process, stamp: int -> string, pass: Pass, names: set<string>, rows: Rows, rows': Rows, id: Id)
    requires (forall n :: n in names ==> n in pass.schedules) && CaughtUp(p, stamp, pass, names, rows, rows') && id in rows
    ensures id in rows'
  {
  }

  lemma LaterIsMadeUp(p: Process, stamp: int -> string, pass: Pass, names: set<string>, rows: Rows, rows': Rows, n: string, t: int)
    requires ValidPass(pass) && (forall m :: m in names ==> m in pass.schedules) && CaughtUp(p, stamp, pass, names, rows, rows')
    requires n in names && pass.schedules[n].automaticBackfill && pass.schedules[n].lastFired.Some?
    requires pass.schedules[n].workflow in p.registry
    requires var row := pass.schedules[n];
             InWindow(row, row.lastFired.value, pass.now(n), t) && row.lastFired.value % 1000 == 0 && t != row.lastFired.value + 1000
    ensures TickId(stamp, pass.schedules[n].name, t) in rows'
  {
    var row := pass.schedules[n];
    assert WindowFull(stamp, pass, n, rows');
    assert t % 1000 == 0;
    assert InWindow(row, row.lastFired.value + GAP, pass.now(n), t) && Ids(stamp, row)(t) in rows';
  }

  /** A pass leaves the tick one second after the last firing as it was. */
  lemma NextSecondStays(p: Process, stamp: int -> string, pass: Pass, names: set<string>, rows: Rows, rows': Rows, n: string, u: int)
    requires ValidPass(pass) && (forall m :: m in names ==> m in pass.schedules) && CaughtUp(p, stamp, pass, names, rows, rows')
    requires FixedWidth(stamp) && n in names && pass.schedules[n].lastFired.Some?
    requires u == pass.schedules[n].lastFired.value + 1000 && u % 1000 == 0
    ensures TickId(stamp, pass.schedules[n].name, u) in rows' <==> TickId(stamp, pass.schedules[n].name, u) in rows
  {
    var id := TickId(stamp, pass.schedules[n].name, u);
    if id in rows {
      OldStays(p, stamp, pass, names, rows, rows', id);
    } else if id in rows' {
      var m := NewIsMadeUp(p, stamp, pass, names, rows, rows', id);
      MadeUpIsLater(p, stamp, pass, n, m, u, rows'[id]);
    }
  }

  ghost predicate AllRows(stamp: int -> string, row: ScheduleRow, after: int, before: int, rows: Rows) {
    forall t :: InWindow(row, after, before, t) ==> TickId(stamp, row.name, t) in rows
  }

  lemma AllButNextSecond(p: Process, stamp: int -> string, pass: Pass, names: set<string>, rows: Rows, rows': Rows, n: string)
    requires ValidPass(pass) && (forall m :: m in names ==> m in pass.schedules) && CaughtUp(p, stamp, pass, names, rows, rows')
    requires n in names && pass.schedules[n].automaticBackfill && pass.schedules[n].lastFired.Some?
    requires pass.schedules[n].workflow in p.registry
    requires pass.schedules[n].lastFired.value % 1000 == 0
    requires var (row, last) := (pass.schedules[n], pass.schedules[n].lastFired.value);
             InWindow(row, last, pass.now(n), last + 1000) ==> TickId(stamp, row.name, last + 1000) in rows'
    ensures AllRows(stamp, pass.schedules[n], pass.schedules[n].lastFired.value, pass.now(n), rows')
  {
    var (row, last) := (pass.schedules[n], pass.schedules[n].lastFired.value);
    forall t | InWindow(row, last, pass.now(n), t) ensures TickId(stamp, row.name, t) in rows' {
      if t != last + 1000 { LaterIsMadeUp(p, stamp, pass, names, rows, rows', n, t); }
    }
  }

  /** After a pass every tick of a caught-up schedule since its last firing has its row, if and
      only if the one exactly a second after that firing, should there be one, had it before. */
  lemma CaughtUpCoversIff(p: Process, stamp: int -> string, pass: Pass, names: set<string>, rows: Rows, rows': Rows, n: string)
    requires ValidPass(pass) && (forall m :: m in names ==> m in pass.schedules) && CaughtUp(p, stamp, pass, names, rows, rows')
    requires FixedWidth(stamp) && n in names && pass.schedules[n].automaticBackfill && pass.schedules[n].lastFired.Some?
    requires pass.schedules[n].workflow in p.registry
    requires pass.schedules[n].lastFired.value % 1000 == 0
    ensures var (row, last) := (pass.schedules[n], pass.schedules[n].lastFired.value);
            AllRows(stamp, row, last, pass.now(n), rows') <==>
            (InWindow(row, last, pass.now(n), last + 1000) ==> TickId(stamp, row.name, last + 1000) in rows)
  {
    var (row, last) := (pass.schedules[n], pass.schedules[n].lastFired.value);
    NextSecondStays(p, stamp, pass, names, rows, rows', n, last + 1000);
    if InWindow(row, last, pass.now(n), last + 1000) ==> TickId(stamp, row.name, last + 1000) in rows {
      AllButNextSecond(p, stamp, pass, names, rows, rows', n);
    }
  }

  /** A pass adds a row for a tick of a schedule only if it is one of those it was to catch up, which
      asks for that and has been fired, and the tick lies more than a second after that. */
  lemma OnlyMissedIsMadeUp(p: Process, stamp: int -> string, pass: Pass, names: set<string>, rows: Rows, rows': Rows, n: string, u: int)
    requires ValidPass(pass) && (forall m :: m in names ==> m in pass.schedules) && CaughtUp(p, stamp, pass, names, rows, rows')
    requires FixedWidth(stamp) && n in pass.schedules && u % 1000 == 0
    requires TickId(stamp, n, u) in rows' && TickId(stamp, n, u) !in rows
    ensures var row := pass.schedules[n];
            n in names && row.automaticBackfill && row.lastFired.Some? && u > row.lastFired.value + 1000
  {
    var m := NewIsMadeUp(p, stamp, pass, names, rows, rows', TickId(stamp, n, u));
    MadeUpIsLater(p, stamp, pass, n, m, u, rows'[TickId(stamp, n, u)]);
  }

  /** One more schedule: it had nothing to make up, or made it up. */
  lemma OneMoreCaughtUp(p: Process, stamp: int -> string, pass: Pass, names: set<string>, n: string, rows: Rows, rows': Rows, rows'': Rows)
    requires n in pass.schedules && forall m :: m in names ==> m in pass.schedules
    requires CaughtUp(p, stamp, pass, names, rows, rows')
    requires forall id :: id in rows' ==> id in rows'' && rows''[id] == rows'[id]
    requires forall id :: id in rows'' && id !in rows' ==> MadeUp(p, stamp, pass, n, id, rows''[id])
    requires MissedTicks(pass.schedules[n]) && pass.schedules[n].workflow in p.registry ==> WindowFull(stamp, pass, n, rows'')
    ensures CaughtUp(p, stamp, pass, names + {n}, rows, rows'')
  {
    forall id | id in rows'' && id !in rows
      ensures exists m :: m in names + {n} && MadeUp(p, stamp, pass, m, id, rows''[id])
    {
      if id in rows' {
        var m :| m in names && MadeUp(p, stamp, pass, m, id, rows'[id]);
        assert m in names + {n};
      } else {
        assert n in names + {n};
      }
    }
    forall m | m in names + {n} && MissedTicks(pass.schedules[m]) && pass.schedules[m].workflow in p.registry
      ensures WindowFull(stamp, pass, m, rows'')
    {
      if m in names { assert WindowFull(stamp, pass, m, rows'); }
    }
  }

  /** The installed schedules that a pass leaves alone: still there, active, and the same. */
  function Kept(installed: map<string, Installed>, schedules: map<string, ScheduleRow>): map<string, Installed> {
    map n | n in installed && n in schedules && schedules[n].active && installed[n].scheduleId == schedules[n].id :: installed[n]
  }

  function ActiveNames(schedules: map<string, ScheduleRow>): set<string> {
    set n | n in schedules && schedules[n].active
  }

  /** Tasks are added only. */
  ghost predicate Extends(firing: map<nat, ScheduleRow>, firing': map<nat, ScheduleRow>) {
    forall t :: t in firing ==> t in firing' && firing'[t] == firing[t]
  }

  // ---- the scheduler object ----

  class Scheduler {
    const ctx: DbosContext
    const stamp: int -> string
    var installed: map<string, Installed>
    var firing: map<nat, ScheduleRow>     // the firing tasks ever spawned, by token
    var cancelled: set<nat>
    var nextToken: nat
    var lastFired: map<string, int>       // the last firing, by schedule name

    /** The tokens still live are those of the installed schedules, one each, and each runs
        the row it was installed for. */
    ghost predicate Valid()
      reads this
    {
      (forall name :: name in installed ==>
         installed[name].token in firing && installed[name].token !in cancelled &&
         firing[installed[name].token].name == name && firing[installed[name].token].id == installed[name].scheduleId) &&
      (forall t :: t in firing && t !in cancelled ==>
         firing[t].name in installed && installed[firing[t].name].token == t) &&
      forall t :: t in firing || t in cancelled ==> t < nextToken
    }

    constructor (ctx: DbosContext, stamp: int -> string)
      ensures Valid() && this.ctx == ctx && this.stamp == stamp && installed == map[] && firing == map[]
    {
      this.ctx, this.stamp := ctx, stamp;
      installed, firing, cancelled, nextToken, lastFired := map[], map[], {}, 0, map[];
    }

    method Remove(name: string)
      requires Valid()
      modifies this`installed, this`cancelled
      ensures Valid() && installed == old(installed) - {name}
      ensures cancelled == old(cancelled) + if name in old(installed) then {old(installed)[name].token} else {}
    {
      if name in installed {
        cancelled := cancelled + {installed[name].token};
        installed := installed - {name};
      } else {
        assert installed - {name} == installed;
      }
    }

    method Install(row: ScheduleRow)
      requires Valid() && row.name !in installed
      modifies this`installed, this`firing, this`nextToken
      ensures Valid() && nextToken == old(nextToken) + 1
      ensures installed == old(installed)[row.name := Installed(row.id, old(nextToken))]
      ensures firing == old(firing)[old(nextToken) := row]
    {
      installed := installed[row.name := Installed(row.id, nextToken)];
      firing := firing[nextToken := row];
      nextToken := nextToken + 1;
    }

    /** Stops every firing task. */
    method CancelAll()
      requires Valid()
      modifies this`installed, this`cancelled
      ensures Valid() && installed == map[] && forall t :: t in firing ==> t in cancelled
    {
      while installed != map[]
        invariant Valid()
        decreases |installed|
      {
        var name :| name in installed;
        cancelled := cancelled + {installed[name].token};
        installed := installed - {name};
      }
      assert installed == map[];
    }

    /** Enqueues one tick unless it has a row already. */
    method EnqueueMissing(row: ScheduleRow, t: int, version: Option<string>, d: Draw) returns (r: Result<()>)
      modifies ctx`active, ctx.db
      ensures ctx.active == old(ctx.active) && ctx.db.State() == old(ctx.db.State()).(rows := ctx.db.rows)
      ensures var id := TickId(stamp, row.name, t);
              (r.Err? <==> id !in old(ctx.db.rows) && row.workflow !in ctx.process.registry) &&
              ctx.db.rows == if id in old(ctx.db.rows) || r.Err? then old(ctx.db.rows)
                             else old(ctx.db.rows)[id := TickRow(ctx.process, stamp, row, t, version, d)]
    {
      var id := TickId(stamp, row.name, t);
      if id in ctx.db.rows {
        return Ok(());
      }
      ghost var before, active := ctx.db.State(), ctx.active;
      var ran := ctx.RunWorkflowErased(TickRequest(stamp, row, t, version), d);
      if row.workflow in ctx.process.registry {
        FreshTick(ctx.process, stamp, before, active, row, t, version, d);
      }
      if ran.Err? {
        return Err(ran.code);
      }
      r := Ok(());
    }

    /** Enqueues every tick strictly between start and end that has no row yet. A backfill that
        fails changes nothing. */
    method Backfill(row: ScheduleRow, start: int, end: int, version: Option<string>, draws: int -> Draw)
      returns (r: Result<()>)
      requires ValidRow(row)
      modifies ctx`active, ctx.db
      ensures ctx.active == old(ctx.active) && ctx.db.State() == old(ctx.db.State()).(rows := ctx.db.rows)
      ensures r.Ok? ==> Added(old(ctx.db.rows), row, start, end, Ids(stamp, row), Made(ctx.process, stamp, row, version, draws), ctx.db.rows)
      ensures r.Err? ==> ctx.db.rows == old(ctx.db.rows)
      ensures r.Err? <==> Unfillable(ctx.process, old(ctx.db.rows), row, start, end, Ids(stamp, row))
    {
      if row.cron.None? {
        return Err(Initialization);
      }
      ghost var ids, made := Ids(stamp, row), Made(ctx.process, stamp, row, version, draws);
      var cur := start;
      while true
        invariant start <= cur && (cur < end || cur == start)
        invariant ctx.active == old(ctx.active) && ctx.db.State() == old(ctx.db.State()).(rows := ctx.db.rows)
        invariant Added(old(ctx.db.rows), row, start, cur + 1, ids, made, ctx.db.rows)
        invariant row.workflow !in ctx.process.registry ==> ctx.db.rows == old(ctx.db.rows)
        decreases end - cur
      {
        var next := row.cron.value(cur);
        assert NextIsFirst(row.cron.value, cur);
        if next.None? || next.value >= end {
          WindowDone(old(ctx.db.rows), row, start, cur, end, ids, made, ctx.db.rows);
          WasFillable(ctx.process, old(ctx.db.rows), row, start, end, ids, made, ctx.db.rows);
          return Ok(());
        }
        ghost var before := ctx.db.rows;
        r := EnqueueMissing(row, next.value, version, draws(next.value));
        if r.Err? {
          assert InWindow(row, start, end, next.value) && ids(next.value) !in old(ctx.db.rows);
          return;
        }
        TickAdded(old(ctx.db.rows), row, start, cur, next.value, ids, made, before, ctx.db.rows);
        cur := next.value;
      }
    }

    /** Fires a tick of an installed schedule, and notes it as the last firing when its row is
        enqueued; a cancelled task fires no more. */
    method Fire(token: nat, t: int, version: Option<string>, d: Draw) returns (fired: bool)
      requires Valid() && token in firing
      modifies this`lastFired, ctx`active, ctx.db
      ensures Valid() && ctx.active == old(ctx.active)
      ensures lastFired == if fired then old(lastFired)[firing[token].name := t] else old(lastFired)
      ensures token in cancelled ==> !fired && ctx.db.State() == old(ctx.db.State())
      ensures token !in cancelled ==>
                var (db', _, r) := RunErased(ctx.process, old(ctx.db.State()), old(ctx.active),
                                             TickRequest(stamp, firing[token], t, version), d);
                ctx.db.State() == db' && fired == r.Ok?
      ensures fired ==> TickId(stamp, firing[token].name, t) in ctx.db.rows
    {
      if token in cancelled {
        return false;
      }
      var row := firing[token];
      ghost var before, active := ctx.db.State(), ctx.active;
      var ran := ctx.RunWorkflowErased(TickRequest(stamp, row, t, version), d);
      if TickId(stamp, row.name, t) in before.rows {
        KnownTick(ctx.process, stamp, before, active, row, t, version, d);
      } else if row.workflow in ctx.process.registry {
        FreshTick(ctx.process, stamp, before, active, row, t, version, d);
      }
      fired := ran.Ok?;
      if fired {
        lastFired := lastFired[row.name := t];
      }
    }

    /** Sleeps until a tick, fires it and reads the clock. */
    method FireNext(token: nat, clock: Clock, t: int, version: Option<string>, d: Draw) returns (now: int)
      requires Valid() && token in firing && token !in cancelled
      modifies this`lastFired, ctx`active, ctx.db, clock
      ensures Valid() && ctx.active == old(ctx.active) && old(clock.t) <= now == clock.t && t <= now
      ensures clock.alarm == Max(old(clock.alarm), t)
      ensures var row := firing[token];
              EnqueuedOf(ctx.process, stamp, row, {t}, old(ctx.db.rows), ctx.db.rows) &&
              NotedOf(stamp, row, {t}, old(lastFired), lastFired, ctx.db.rows)
    {
      clock.SleepUntil(t);
      ghost var before, active := ctx.db.State(), ctx.active;
      var _ := Fire(token, t, version, d);
      FireRows(ctx.process, stamp, before, active, firing[token], t, version, d);
      OneTickId(stamp, firing[token].name, t);
      now := clock.Now();
    }

    /** The firing loop of an installed schedule, which the task's cancellation ends after a
        number of firings: it reads the clock, sleeps until the next tick and fires it. */
    method RunSchedule(token: nat, clock: Clock, firings: nat, version: int -> Option<string>, draws: int -> Draw)
      returns (ticks: seq<int>, ghost nows: seq<int>)
      requires Valid() && token in firing && ValidRow(firing[token])
      modifies this`lastFired, ctx`active, ctx.db, clock
      ensures Valid() && ctx.active == old(ctx.active)
      ensures token in cancelled || firing[token].cron.None? ==>
                ticks == [] && ctx.db.State() == old(ctx.db.State()) && lastFired == old(lastFired)
      ensures firing[token].cron.Some? ==>
                Rounds(firing[token].cron.value, nows, ticks) && old(clock.t) <= nows[0] && nows[|ticks|] <= clock.t &&
                (|ticks| == firings || token in cancelled || firing[token].cron.value(nows[|ticks|]).None?)
      ensures |ticks| <= firings
      ensures clock.alarm == if ticks == [] then old(clock.alarm) else Max(old(clock.alarm), ticks[|ticks| - 1])
      ensures EnqueuedOf(ctx.process, stamp, firing[token], Elements(ticks), old(ctx.db.rows), ctx.db.rows)
      ensures NotedOf(stamp, firing[token], Elements(ticks), old(lastFired), lastFired, ctx.db.rows)
    {
      var row := firing[token];
      ticks, nows := [], [];
      NothingFired(ctx.process, stamp, row, ctx.db.rows, lastFired);
      if row.cron.None? {
        return;
      }
      var now := clock.Now();
      nows := [now];
      var next := row.cron.value(now);
      while next.Some? && |ticks| < firings && token !in cancelled
        invariant Valid() && ctx.active == old(ctx.active) && |ticks| <= firings
        invariant token in cancelled ==> ticks == [] && ctx.db.State() == old(ctx.db.State()) && lastFired == old(lastFired)
        invariant Rounds(row.cron.value, nows, ticks) && old(clock.t) <= nows[0] && nows[|ticks|] == clock.t
        invariant next == row.cron.value(nows[|ticks|])
        invariant clock.alarm == if ticks == [] then old(clock.alarm) else Max(old(clock.alarm), ticks[|ticks| - 1])
        invariant ticks != [] ==> ticks[|ticks| - 1] <= clock.t
        invariant EnqueuedOf(ctx.process, stamp, row, Elements(ticks), old(ctx.db.rows), ctx.db.rows)
        invariant NotedOf(stamp, row, Elements(ticks), old(lastFired), lastFired, ctx.db.rows)
        decreases firings - |ticks|
      {
        ghost var rows, noted := ctx.db.rows, lastFired;
        assert NextIsFirst(row.cron.value, nows[|ticks|]);
        now := FireNext(token, clock, next.value, version(next.value), draws(next.value));
        OneMoreFired(ctx.process, stamp, row, ticks, next.value, old(ctx.db.rows), rows, ctx.db.rows,
                     old(lastFired), noted, lastFired);
        ticks, nows := ticks + [next.value], nows + [now];
        next := row.cron.value(now);
      }
    }

    /** Stops the firing of schedules that are gone, paused or replaced. */
    method RemoveStale(schedules: map<string, ScheduleRow>)
      requires Valid()
      modifies this`installed, this`cancelled
      ensures Valid() && installed == Kept(old(installed), schedules)
      ensures forall n :: n in old(installed) && n !in installed ==> old(installed)[n].token in cancelled
    {
      var names := installed.Keys;
      ghost var before := installed;
      while names != {}
        invariant Valid()
        invariant forall n :: n in installed ==> n in before && installed[n] == before[n]
        invariant forall n :: n in before && n !in installed ==> before[n].token in cancelled && n !in Kept(before, schedules)
        invariant forall n :: n in installed && n !in names ==> n in Kept(before, schedules)
        decreases |names|
      {
        var name :| name in names;
        var stale := name !in schedules || !schedules[name].active ||
                     (name in installed && installed[name].scheduleId != schedules[name].id);
        if stale {
          Remove(name);
        }
        names := names - {name};
      }
      assert installed == Kept(before, schedules);
    }

    /** Makes up for missed ticks, if asked to, and installs the schedule - whether or not the
        backfill worked. */
    method BackfillAndInstall(pass: Pass, name: string)
      requires Valid() && ValidPass(pass) && name in pass.schedules && name !in installed
      modifies this`installed, this`firing, this`nextToken, ctx`active, ctx.db
      ensures Valid() && installed.Keys == old(installed.Keys) + {name}
      ensures installed[name].scheduleId == pass.schedules[name].id && firing[installed[name].token] == pass.schedules[name]
      ensures Extends(old(firing), firing)
      ensures forall n :: n in old(installed) ==> installed[n] == old(installed)[n]
      ensures ctx.active == old(ctx.active) && ctx.db.State() == old(ctx.db.State()).(rows := ctx.db.rows)
      ensures forall id :: id in old(ctx.db.rows) ==> id in ctx.db.rows && ctx.db.rows[id] == old(ctx.db.rows)[id]
      ensures forall id :: id in ctx.db.rows && id !in old(ctx.db.rows) ==> MadeUp(ctx.process, stamp, pass, name, id, ctx.db.rows[id])
      ensures MissedTicks(pass.schedules[name]) && pass.schedules[name].workflow in ctx.process.registry ==>
                WindowFull(stamp, pass, name, ctx.db.rows)
    {
      var row := pass.schedules[name];
      if row.automaticBackfill && row.lastFired.Some? {
        var start := row.lastFired.value + GAP;
        var end := pass.now(name);
        if start < end {
          var _ := Backfill(row, start, end, pass.version(name), pass.draws(name));
        }
      }
      Install(row);
    }

    /** One more schedule of a pass; those of added are done. */
    method InstallNext(pass: Pass, name: string, ghost added: set<string>, ghost rows: Rows)
      requires Valid() && ValidPass(pass) && name in pass.schedules && name !in installed
      requires (forall n :: n in added ==> n in pass.schedules) && CaughtUp(ctx.process, stamp, pass, added, rows, ctx.db.rows)
      modifies this`installed, this`firing, this`nextToken, ctx`active, ctx.db
      ensures Valid() && installed.Keys == old(installed.Keys) + {name} && Runs(pass, name)
      ensures forall n :: n in old(installed) ==> installed[n] == old(installed)[n]
      ensures Extends(old(firing), firing)
      ensures ctx.active == old(ctx.active) && ctx.db.State() == old(ctx.db.State()).(rows := ctx.db.rows)
      ensures CaughtUp(ctx.process, stamp, pass, added + {name}, rows, ctx.db.rows)
    {
      ghost var before := ctx.db.rows;
      BackfillAndInstall(pass, name);
      OneMoreCaughtUp(ctx.process, stamp, pass, added, name, rows, before, ctx.db.rows);
    }

    /** A schedule is installed, and its task fires by the pass's row. */
    ghost predicate Runs(pass: Pass, name: string)
      reads this
    {
      name in pass.schedules && name in installed && installed[name].scheduleId == pass.schedules[name].id &&
      installed[name].token in firing && firing[installed[name].token] == pass.schedules[name]
    }

    /** Installs every active schedule that is not installed yet. */
    method InstallMissing(pass: Pass) returns (ghost added: set<string>)
      requires Valid() && ValidPass(pass)
      modifies this`installed, this`firing, this`nextToken, ctx`active, ctx.db
      ensures Valid() && forall n :: n in installed <==> n in old(installed) || n in added
      ensures forall n :: n in old(installed) ==> installed[n] == old(installed)[n]
      ensures ctx.active == old(ctx.active) && ctx.db.State() == old(ctx.db.State()).(rows := ctx.db.rows)
      ensures added == ActiveNames(pass.schedules) - old(installed.Keys)
      ensures forall n :: n in added ==> Runs(pass, n)
      ensures Extends(old(firing), firing)
      ensures CaughtUp(ctx.process, stamp, pass, added, old(ctx.db.rows), ctx.db.rows)
    {
      var left := pass.schedules.Keys;
      ghost var was := installed.Keys;
      added := {};
      while left != {}
        invariant Valid() && left <= pass.schedules.Keys
        invariant forall n :: n in added ==> n in pass.schedules && pass.schedules[n].active && n !in was
        invariant forall n :: n in pass.schedules && pass.schedules[n].active ==> n in left || n in added || n in was
        invariant forall n :: n in installed <==> n in was || n in added
        invariant forall n :: n in old(installed) ==> installed[n] == old(installed)[n]
        invariant forall n :: n in added ==> Runs(pass, n)
        invariant Extends(old(firing), firing)
        invariant ctx.active == old(ctx.active) && ctx.db.State() == old(ctx.db.State()).(rows := ctx.db.rows)
        invariant CaughtUp(ctx.process, stamp, pass, added, old(ctx.db.rows), ctx.db.rows)
        decreases |left|
      {
        var name :| name in left;
        left := left - {name};
        if pass.schedules[name].active && name !in installed {
          InstallNext(pass, name, added, old(ctx.db.rows));
          added := added + {name};
        }
      }
      assert added == ActiveNames(pass.schedules) - was;
    }

    /** One pass: afterwards exactly the active schedules are installed, each under its current
        id; those already installed go on undisturbed and all other tasks are stopped. */
    method Reconcile(pass: Pass)
      requires Valid() && ValidPass(pass)
      modifies this`installed, this`cancelled, this`firing, this`nextToken, ctx`active, ctx.db
      ensures Valid() && forall n :: n in installed <==> n in pass.schedules && pass.schedules[n].active
      ensures forall n :: n in installed ==> installed[n].scheduleId == pass.schedules[n].id
      ensures forall n :: n in old(installed) ==>
                if n in Kept(old(installed), pass.schedules) then n in installed && installed[n] == old(installed)[n]
                else old(installed)[n].token in cancelled
      ensures forall n :: n in installed && n !in Kept(old(installed), pass.schedules) ==> Runs(pass, n)
      ensures Extends(old(firing), firing)
      ensures ctx.active == old(ctx.active) && ctx.db.State() == old(ctx.db.State()).(rows := ctx.db.rows)
      ensures CaughtUp(ctx.process, stamp, pass, ActiveNames(pass.schedules) - Kept(old(installed), pass.schedules).Keys,
                       old(ctx.db.rows), ctx.db.rows)
    {
      RemoveStale(pass.schedules);
      ghost var _ := InstallMissing(pass);
    }
  }
}
