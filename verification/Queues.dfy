/** The dequeue transaction: which rows a poll may claim, how many, and in what order. */
module Queues {
  import opened Wrappers
  import opened Tables

  datatype RateLimit = RateLimit(limit: int, periodMs: nat)

  datatype DequeueInput = DequeueInput(
    queue: string, globalLimit: Option<int>, workerLimit: Option<int>, rate: Option<RateLimit>,
    maxTasks: int, localRunning: int, version: string, executor: string)

  predicate Eligible(row: Row, i: DequeueInput) {
    row.queue == Some(i.queue) && row.status == Enqueued &&
    (row.version == Some(i.version) || row.version == None)
  }

  function EligibleIds(rows: Rows, i: DequeueInput): set<Id> {
    set id | id in rows && Eligible(rows[id], i)
  }

  function PendingIds(rows: Rows, queue: string): set<Id> {
    set id | id in rows && rows[id].queue == Some(queue) && rows[id].status == Pending
  }

  /** Priority first, then age. */
  predicate Before(a: Row, b: Row) {
    a.priority < b.priority || (a.priority == b.priority && a.createdAt <= b.createdAt)
  }

  /** A start the rate limiter counts. */
  predicate Started(row: Row, queue: string, after: int) {
    row.queue == Some(queue) && row.rateLimited && !Waiting(row.status) &&
    row.startedAt.Some? && row.startedAt.value > after
  }

  function StartedAfter(rows: Rows, queue: string, after: int): set<Id> {
    set id | id in rows && Started(rows[id], queue, after)
  }

  /** The starts stamped in the window (after, upTo]. */
  function StartedIn(rows: Rows, queue: string, after: int, upTo: int): set<Id> {
    set id | id in rows && Started(rows[id], queue, after) && rows[id].startedAt.value <= upTo
  }

  /** A worker limit replaces the per-poll maximum, a global limit lowers it. */
  function TaskCap(rows: Rows, i: DequeueInput): int {
    var own := if i.workerLimit.Some? then Max(i.workerLimit.value - i.localRunning, 0) else i.maxTasks;
    if i.globalLimit.Some?
    then Min(own, Max(i.globalLimit.value - |PendingIds(rows, i.queue)|, 0))
    else own
  }

  /** What the limiter still allows when its clock reads t0; no limiter, no bound. */
  function Budget(rows: Rows, i: DequeueInput, t0: int): Option<int> {
    match i.rate
    case None => None
    case Some(r) => Some(r.limit - |StartedAfter(rows, i.queue, t0 - r.periodMs)|)
  }

  /** The number of rows a poll claims: the least of the task cap, the rate budget and the
      number of eligible rows, and never negative. */
  function ClaimCount(rows: Rows, i: DequeueInput, t0: int): nat {
    var n := Max(0, Min(TaskCap(rows, i), |EligibleIds(rows, i)|));
    match Budget(rows, i, t0)
    case None => n
    case Some(b) => Max(0, Min(n, b))
  }

  function Claim(row: Row, i: DequeueInput, now: int): Row {
    row.(status := Pending, version := Some(i.version), executor := i.executor, startedAt := Some(now),
         rateLimited := i.rate.Some?,
         deadline := if row.timeoutMs.Some? && row.deadline == None
                     then Some(now + row.timeoutMs.value) else row.deadline)
  }

  predicate Distinct(ids: seq<Id>) {
    forall a, b :: 0 <= a < b < |ids| ==> ids[a] != ids[b]
  }

  /** ids lists eligible rows in claim order and leaves out none that precedes one of them. */
  ghost predicate FirstEligible(rows: Rows, i: DequeueInput, ids: seq<Id>) {
    Distinct(ids) &&
    (forall k :: 0 <= k < |ids| ==> ids[k] in EligibleIds(rows, i)) &&
    (forall a, b :: 0 <= a < b < |ids| ==> Before(rows[ids[a]], rows[ids[b]])) &&
    forall id, k :: id in EligibleIds(rows, i) && id !in ids && 0 <= k < |ids| ==> Before(rows[ids[k]], rows[id])
  }

  /** rows' differs from rows in exactly the claimed rows, each stamped with its own time. */
  ghost predicate Claimed(rows: Rows, i: DequeueInput, ids: seq<Id>, stamps: seq<int>, rows': Rows) {
    |stamps| == |ids| && rows'.Keys == rows.Keys &&
    (forall k :: 0 <= k < |ids| ==> ids[k] in rows && rows'[ids[k]] == Claim(rows[ids[k]], i, stamps[k])) &&
    forall id :: id in rows && id !in ids ==> rows'[id] == rows[id]
  }

  /** Everything a poll promises: t0 is its first clock reading, now its last. */
  ghost predicate Dequeued(rows: Rows, i: DequeueInput, t0: int, ids: seq<Id>, stamps: seq<int>,
                           now: int, rows': Rows)
  {
    |ids| == ClaimCount(rows, i, t0) && FirstEligible(rows, i, ids) &&
    Claimed(rows, i, ids, stamps, rows') &&
    t0 <= now && forall k :: 0 <= k < |stamps| ==> t0 <= stamps[k] <= now
  }

  /** The claimed ids, as a set. */
  function IdSet(ids: seq<Id>): set<Id> {
    set id | id in ids
  }

  lemma IdSetSize(ids: seq<Id>)
    requires Distinct(ids)
    ensures |IdSet(ids)| == |ids|
  {
    DistinctSize(ids);
    assert IdSet(ids) == set x | x in ids;
  }

  /** A poll never takes the PENDING rows of its queue past the larger of the global limit
      and what was already there, and adds none to another queue. */
  lemma DequeueKeepsGlobalCap(rows: Rows, i: DequeueInput, t0: int, ids: seq<Id>, stamps: seq<int>,
                              now: int, rows': Rows, queue: string)
    requires Dequeued(rows, i, t0, ids, stamps, now, rows')
    ensures queue != i.queue ==> PendingIds(rows', queue) <= PendingIds(rows, queue)
    ensures i.globalLimit.Some? ==>
              |PendingIds(rows', i.queue)| <= Max(i.globalLimit.value, |PendingIds(rows, i.queue)|)
  {
    forall id | id in PendingIds(rows', queue) && id !in ids
      ensures id in PendingIds(rows, queue)
    {
      assert rows'[id] == rows[id];
    }
    forall id | id in IdSet(ids)
      ensures id in EligibleIds(rows, i) && id in rows' && rows'[id].queue == Some(i.queue)
    {
      var k :| 0 <= k < |ids| && ids[k] == id;
    }
    var before, after := PendingIds(rows, i.queue), PendingIds(rows', i.queue);
    forall id | id in after ensures id in before + IdSet(ids) {
      if id !in ids { assert rows'[id] == rows[id]; }
    }
    SubsetSize(after, before + IdSet(ids));
    IdSetSize(ids);
    assert |before + IdSet(ids)| <= |before| + |ids|;
  }

  /** Outside the claimed rows a poll changes no start. */
  lemma OtherStartsKept(rows: Rows, i: DequeueInput, ids: seq<Id>, stamps: seq<int>, rows': Rows, id: Id)
    requires Claimed(rows, i, ids, stamps, rows')
    requires id in rows' && id !in ids
    ensures rows'[id] == rows[id]
  {
  }

  /** A window that ends before the poll began holds no new start. */
  lemma WindowBeforePoll(rows: Rows, i: DequeueInput, ids: seq<Id>, stamps: seq<int>, rows': Rows, a: int, b: int)
    requires Claimed(rows, i, ids, stamps, rows')
    requires forall k :: 0 <= k < |stamps| ==> b < stamps[k]
    ensures StartedIn(rows', i.queue, a, b) <= StartedIn(rows, i.queue, a, b)
  {
  }

  /** In a window that reaches back no further than the limiter looked, every start was
      either counted or is one of the new claims. */
  lemma WindowReached(rows: Rows, i: DequeueInput, ids: seq<Id>, stamps: seq<int>, rows': Rows,
                      cutoff: int, a: int, b: int)
    requires Claimed(rows, i, ids, stamps, rows') && Distinct(ids)
    requires cutoff <= a
    ensures |StartedIn(rows', i.queue, a, b)| <= |StartedAfter(rows, i.queue, cutoff)| + |ids|
  {
    var recent, after := StartedAfter(rows, i.queue, cutoff), StartedIn(rows', i.queue, a, b);
    forall id | id in after ensures id in recent + IdSet(ids) {
      if id !in ids { OtherStartsKept(rows, i, ids, stamps, rows', id); }
    }
    SubsetSize(after, recent + IdSet(ids));
    IdSetSize(ids);
    assert |recent + IdSet(ids)| <= |recent| + |ids|;
  }

  /** A poll keeps every window of one period within the limit. The count it takes covers
      only what started after t0 - period; that is enough, because a window reaching a new
      stamp cannot reach back further. */
  lemma DequeueKeepsWindow(rows: Rows, i: DequeueInput, t0: int, ids: seq<Id>, stamps: seq<int>,
                           now: int, rows': Rows, a: int)
    requires Dequeued(rows, i, t0, ids, stamps, now, rows')
    requires i.rate.Some?
    requires |StartedIn(rows, i.queue, a, a + i.rate.value.periodMs)| <= Max(i.rate.value.limit, 0)
    ensures |StartedIn(rows', i.queue, a, a + i.rate.value.periodMs)| <= Max(i.rate.value.limit, 0)
  {
    var p := i.rate.value.periodMs;
    WindowAfterClaims(rows, i, t0 - p, ids, stamps, rows', a, a + p);
  }

  lemma WindowAfterClaims(rows: Rows, i: DequeueInput, cutoff: int, ids: seq<Id>, stamps: seq<int>,
                          rows': Rows, a: int, b: int)
    requires Claimed(rows, i, ids, stamps, rows') && Distinct(ids)
    requires forall k :: 0 <= k < |stamps| ==> cutoff + (b - a) <= stamps[k]
    ensures || |StartedIn(rows', i.queue, a, b)| <= |StartedIn(rows, i.queue, a, b)|
            || (|ids| > 0 && |StartedIn(rows', i.queue, a, b)| <= |StartedAfter(rows, i.queue, cutoff)| + |ids|)
  {
    if |ids| == 0 || a < cutoff {
      WindowBeforePoll(rows, i, ids, stamps, rows', a, b);
      SubsetSize(StartedIn(rows', i.queue, a, b), StartedIn(rows, i.queue, a, b));
    } else {
      WindowReached(rows, i, ids, stamps, rows', cutoff, a, b);
    }
  }

  /** Of two polls over the same rows, the one whose clock reads later claims no less. */
  lemma LaterPollClaimsNoLess(rows: Rows, i: DequeueInput, t0: int, t1: int)
    requires t0 <= t1
    ensures ClaimCount(rows, i, t0) <= ClaimCount(rows, i, t1)
  {
    if i.rate.Some? {
      var p := i.rate.value.periodMs;
      SubsetSize(StartedAfter(rows, i.queue, t1 - p), StartedAfter(rows, i.queue, t0 - p));
    }
  }

  // ---- which rows, and how many ----

  /** A poll claims rows of its own queue that wait and that it may run, whatever else is in the
      table, and each ends up PENDING with this executor and its version, its start stamped
      within the poll; a row with a timeout and no deadline gets one, counted from its start. */
  lemma ClaimedRow(rows: Rows, i: DequeueInput, t0: int, ids: seq<Id>, stamps: seq<int>, now: int, rows': Rows, id: Id)
    requires Dequeued(rows, i, t0, ids, stamps, now, rows') && id in ids
    ensures id in rows && id in rows'
    ensures var row := rows[id];
            row.status == Enqueued && row.queue == Some(i.queue) && (row.version == Some(i.version) || row.version == None)
    ensures var (row, row') := (rows[id], rows'[id]);
            row'.status == Pending && row'.queue == Some(i.queue) && row'.version == Some(i.version) && row'.executor == i.executor &&
            row'.startedAt.Some? && t0 <= row'.startedAt.value <= now && (row'.rateLimited <==> i.rate.Some?) &&
            row'.deadline == (if row.deadline == None && row.timeoutMs.Some?
                              then Some(row'.startedAt.value + row.timeoutMs.value) else row.deadline) &&
            row' == row.(status := row'.status, version := row'.version, executor := row'.executor, startedAt := row'.startedAt,
                         rateLimited := row'.rateLimited, deadline := row'.deadline)
  {
    var k :| 0 <= k < |ids| && ids[k] == id;
    assert ids[k] in EligibleIds(rows, i);
  }

  /** A row that could have been claimed and was not is no more urgent than any that was: its
      priority number is higher, or the same and it is no older. */
  lemma UrgentRowsFirst(rows: Rows, i: DequeueInput, t0: int, ids: seq<Id>, stamps: seq<int>, now: int, rows': Rows, a: Id, b: Id)
    requires Dequeued(rows, i, t0, ids, stamps, now, rows') && a in ids && b !in ids && b in rows
    requires rows[b].status == Enqueued && rows[b].queue == Some(i.queue)
    requires rows[b].version == Some(i.version) || rows[b].version == None
    ensures a in rows && rows[a].priority <= rows[b].priority
    ensures rows[a].priority == rows[b].priority ==> rows[a].createdAt <= rows[b].createdAt
  {
    var k :| 0 <= k < |ids| && ids[k] == a;
    assert b in EligibleIds(rows, i);
    assert Before(rows[ids[k]], rows[b]);
  }

  /** Claimed rows come out in that order, too. */
  lemma ClaimedInOrder(rows: Rows, i: DequeueInput, t0: int, ids: seq<Id>, stamps: seq<int>, now: int, rows': Rows, j: nat, k: nat)
    requires Dequeued(rows, i, t0, ids, stamps, now, rows') && j < k < |ids|
    ensures ids[j] != ids[k] && ids[j] in rows && ids[k] in rows && rows[ids[j]].priority <= rows[ids[k]].priority
    ensures rows[ids[j]].priority == rows[ids[k]].priority ==> rows[ids[j]].createdAt <= rows[ids[k]].createdAt
  {
    assert ids[j] in EligibleIds(rows, i) && ids[k] in EligibleIds(rows, i);
  }

  /** Why a poll claimed no more than it did. Its own starts count with those that its limiter
      had counted. */
  ghost predicate Exhausts(i: DequeueInput, t0: int, n: int, rows: Rows, rows': Rows) {
    EligibleIds(rows', i) == {} ||
    (i.workerLimit.Some? && i.localRunning + n >= i.workerLimit.value) ||
    (i.workerLimit.None? && n >= i.maxTasks) ||
    (i.globalLimit.Some? && |PendingIds(rows', i.queue)| >= i.globalLimit.value) ||
    (i.rate.Some? && |StartedAfter(rows, i.queue, t0 - i.rate.value.periodMs)| + n >= i.rate.value.limit)
  }

  /** No limit is exceeded by what a poll claims. */
  ghost predicate Obeys(i: DequeueInput, t0: int, n: int, rows: Rows, rows': Rows) {
    n > 0 ==>
      (i.workerLimit.Some? ==> i.localRunning + n <= i.workerLimit.value) &&
      (i.workerLimit.None? ==> n <= i.maxTasks) &&
      (i.globalLimit.Some? ==> |PendingIds(rows', i.queue)| <= i.globalLimit.value) &&
      (i.rate.Some? ==> |StartedAfter(rows, i.queue, t0 - i.rate.value.periodMs)| + n <= i.rate.value.limit)
  }

  /** The claimed rows leave those that wait. */
  lemma WaitingShrink(rows: Rows, i: DequeueInput, t0: int, ids: seq<Id>, stamps: seq<int>, now: int, rows': Rows)
    requires Dequeued(rows, i, t0, ids, stamps, now, rows')
    ensures |EligibleIds(rows', i)| == |EligibleIds(rows, i)| - |ids|
  {
    IdSetSize(ids);
    forall id ensures id in EligibleIds(rows, i) <==> id in EligibleIds(rows', i) || id in IdSet(ids) {
      if id in ids { ClaimedRow(rows, i, t0, ids, stamps, now, rows', id); }
    }
    forall id | id in IdSet(ids) ensures id !in EligibleIds(rows', i) {
      ClaimedRow(rows, i, t0, ids, stamps, now, rows', id);
    }
    UnionSize(EligibleIds(rows', i), IdSet(ids), EligibleIds(rows, i));
  }

  /** They join those that run. */
  lemma RunningGrow(rows: Rows, i: DequeueInput, t0: int, ids: seq<Id>, stamps: seq<int>, now: int, rows': Rows)
    requires Dequeued(rows, i, t0, ids, stamps, now, rows')
    ensures |PendingIds(rows', i.queue)| == |PendingIds(rows, i.queue)| + |ids|
  {
    IdSetSize(ids);
    forall id ensures id in PendingIds(rows', i.queue) <==> id in PendingIds(rows, i.queue) || id in IdSet(ids) {
      if id in ids { ClaimedRow(rows, i, t0, ids, stamps, now, rows', id); }
    }
    forall id | id in IdSet(ids) ensures id !in PendingIds(rows, i.queue) {
      ClaimedRow(rows, i, t0, ids, stamps, now, rows', id);
    }
    UnionSize(PendingIds(rows, i.queue), IdSet(ids), PendingIds(rows', i.queue));
  }

  lemma StartMoves(rows: Rows, i: DequeueInput, t0: int, ids: seq<Id>, stamps: seq<int>, now: int, rows': Rows, cutoff: int, id: Id)
    requires Dequeued(rows, i, t0, ids, stamps, now, rows') && cutoff < t0
    ensures id in StartedAfter(rows', i.queue, cutoff) <==> id in StartedAfter(rows, i.queue, cutoff) || (i.rate.Some? && id in ids)
    ensures id in ids ==> id !in StartedAfter(rows, i.queue, cutoff)
  {
    if id in ids { ClaimedRow(rows, i, t0, ids, stamps, now, rows', id); }
  }

  /** The claims of a poll that a limiter counts. */
  function Counted(i: DequeueInput, ids: seq<Id>): set<Id> {
    if i.rate.Some? then IdSet(ids) else {}
  }

  lemma StartedJoin(rows: Rows, i: DequeueInput, t0: int, ids: seq<Id>, stamps: seq<int>, now: int, rows': Rows, cutoff: int)
    requires Dequeued(rows, i, t0, ids, stamps, now, rows') && cutoff < t0
    ensures StartedAfter(rows', i.queue, cutoff) == StartedAfter(rows, i.queue, cutoff) + Counted(i, ids)
    ensures StartedAfter(rows, i.queue, cutoff) * Counted(i, ids) == {}
  {
    forall id
      ensures id in StartedAfter(rows', i.queue, cutoff) <==> id in StartedAfter(rows, i.queue, cutoff) || id in Counted(i, ids)
      ensures id in Counted(i, ids) ==> id !in StartedAfter(rows, i.queue, cutoff)
    {
      StartMoves(rows, i, t0, ids, stamps, now, rows', cutoff, id);
    }
  }

  /** The claims of a poll count as started for every later one, exactly if its queue has a
      limiter. */
  lemma StartedGrow(rows: Rows, i: DequeueInput, t0: int, ids: seq<Id>, stamps: seq<int>, now: int, rows': Rows, cutoff: int)
    requires Dequeued(rows, i, t0, ids, stamps, now, rows') && cutoff < t0
    ensures |StartedAfter(rows', i.queue, cutoff)| == |StartedAfter(rows, i.queue, cutoff)| + if i.rate.Some? then |ids| else 0
  {
    StartedJoin(rows, i, t0, ids, stamps, now, rows', cutoff);
    IdSetSize(ids);
  }

  /** The claim count is one of the limits, and none of them is smaller. */
  lemma CountIsALimit(rows: Rows, i: DequeueInput, t0: int)
    ensures var (n, own) := (ClaimCount(rows, i, t0), if i.workerLimit.Some? then i.workerLimit.value - i.localRunning else i.maxTasks);
            n == |EligibleIds(rows, i)| || n >= own ||
            (i.globalLimit.Some? && |PendingIds(rows, i.queue)| + n >= i.globalLimit.value) ||
            (i.rate.Some? && |StartedAfter(rows, i.queue, t0 - i.rate.value.periodMs)| + n >= i.rate.value.limit)
    ensures var (n, own) := (ClaimCount(rows, i, t0), if i.workerLimit.Some? then i.workerLimit.value - i.localRunning else i.maxTasks);
            n > 0 ==>
              n <= |EligibleIds(rows, i)| && n <= own &&
              (i.globalLimit.Some? ==> |PendingIds(rows, i.queue)| + n <= i.globalLimit.value) &&
              (i.rate.Some? ==> |StartedAfter(rows, i.queue, t0 - i.rate.value.periodMs)| + n <= i.rate.value.limit)
  {
  }

  /** A poll claims as many rows as its limits allow and no more. */
  lemma PollIsMaximal(rows: Rows, i: DequeueInput, t0: int, ids: seq<Id>, stamps: seq<int>, now: int, rows': Rows)
    requires Dequeued(rows, i, t0, ids, stamps, now, rows')
    ensures Exhausts(i, t0, |ids|, rows, rows') && Obeys(i, t0, |ids|, rows, rows')
  {
    WaitingShrink(rows, i, t0, ids, stamps, now, rows');
    RunningGrow(rows, i, t0, ids, stamps, now, rows');
    CountIsALimit(rows, i, t0);
  }
}
