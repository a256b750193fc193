/** Deleting a workflow with its descendants. */
module Manage {
  import opened Wrappers
  import opened Tables
  import opened Queues
  import opened SystemDb
  import TableRuns

  // ---- the parent relation ----

  predicate IsChild(rows: Rows, c: Id, p: Id) {
    c in rows && rows[c].parent == Some(p)
  }

  /** The id reached by following parents k times. */
  function Ancestor(rows: Rows, x: Id, k: nat): Option<Id>
    decreases k
  {
    if k == 0 then Some(x)
    else if x in rows && rows[x].parent.Some? then Ancestor(rows, rows[x].parent.value, k - 1)
    else None
  }

  /** x is the root itself or one of its descendants. */
  ghost predicate Under(rows: Rows, root: Id, x: Id) {
    exists k: nat :: Ancestor(rows, x, k) == Some(root)
  }

  /** The root and all its descendants. */
  ghost function Family(rows: Rows, root: Id): set<Id> {
    set x | x in rows.Keys + {root} && Under(rows, root, x)
  }

  ghost predicate OnCycle(rows: Rows, x: Id) {
    exists k: nat :: k > 0 && Ancestor(rows, x, k) == Some(x)
  }

  lemma {:induction false} AncestorAdds(rows: Rows, x: Id, j: nat, k: nat)
    ensures Ancestor(rows, x, j + k) ==
            match Ancestor(rows, x, j) case Some(y) => Ancestor(rows, y, k) case None => None
    decreases j
  {
    if j > 0 && x in rows && rows[x].parent.Some? { AncestorAdds(rows, rows[x].parent.value, j - 1, k); }
  }

  lemma ChildIsUnder(rows: Rows, root: Id, p: Id, c: Id)
    requires Under(rows, root, p) && IsChild(rows, c, p)
    ensures Under(rows, root, c)
    ensures c == root ==> OnCycle(rows, root)
  {
    var k: nat :| Ancestor(rows, p, k) == Some(root);
    assert Ancestor(rows, c, k + 1) == Some(root);
  }

  /** Whatever contains the root and every child of its members contains the whole family. */
  lemma {:induction false} ClosedContains(rows: Rows, root: Id, s: set<Id>, x: Id, k: nat)
    requires root in s && Ancestor(rows, x, k) == Some(root)
    requires forall c, p :: p in s && IsChild(rows, c, p) ==> c in s
    ensures x in s
    decreases k
  {
    if k > 0 {
      var p := rows[x].parent.value;
      ClosedContains(rows, root, s, p, k - 1);
      assert IsChild(rows, x, p);
    }
  }

  // ---- the breadth-first search ----

  /** What one visit does to the queue: the front goes, its children join at the end. */
  ghost predicate Visit(rows: Rows, queue: seq<Id>, queue': seq<Id>) {
    |queue| > 0 && exists children: seq<Id> ::
      (forall c :: c in children <==> IsChild(rows, c, queue[0])) && queue' == queue[1..] + children
  }

  /** Found so far: without repetition, all of the family, the unvisited ones in the queue. */
  ghost predicate Searching(rows: Rows, root: Id, visited: seq<Id>, queue: seq<Id>, found: seq<Id>) {
    found == visited + queue && Distinct(found) && |found| > 0 && found[0] == root &&
    (forall x :: x in found ==> Under(rows, root, x) && (x == root || (x in rows && rows[x].parent.Some? && rows[x].parent.value in visited))) &&
    forall c, p :: p in visited && IsChild(rows, c, p) ==> c in found
  }

  lemma DistinctJoin(s: seq<Id>, t: seq<Id>)
    requires Distinct(s) && Distinct(t) && forall x :: x in t ==> x !in s
    ensures Distinct(s + t)
  {
    var u := s + t;
    forall a, b | 0 <= a < b < |u| ensures u[a] != u[b] {
      if a < |s| <= b { assert u[b] in t && u[a] in s; }
    }
  }

  lemma VisitKeepsSearching(rows: Rows, root: Id, visited: seq<Id>, queue: seq<Id>, found: seq<Id>, children: seq<Id>)
    requires Searching(rows, root, visited, queue, found) && !OnCycle(rows, root)
    requires |queue| > 0 && Distinct(children) && forall c :: c in children <==> IsChild(rows, c, queue[0])
    ensures Searching(rows, root, visited + [queue[0]], queue[1..] + children, found + children)
  {
    var p := queue[0];
    assert found[|visited|] == p && p in found;
    forall i | 0 <= i < |visited| ensures visited[i] != p {
      assert found[i] == visited[i];
    }
    forall c | c in children ensures Under(rows, root, c) && c !in found {
      ChildIsUnder(rows, root, p, c);
    }
    DistinctJoin(found, children);
    assert (visited + [p]) + (queue[1..] + children) == found + children;
    assert forall x :: x in visited ==> x in visited + [p];
    assert p in visited + [p];
  }

  lemma SearchedFamily(rows: Rows, root: Id, visited: seq<Id>, found: seq<Id>)
    requires Searching(rows, root, visited, [], found)
    ensures IdSet(found) == Family(rows, root)
  {
    var s := IdSet(found);
    assert visited == found;
    assert root in s;
    forall x | x in Family(rows, root) ensures x in s {
      var k: nat :| Ancestor(rows, x, k) == Some(root);
      ClosedContains(rows, root, s, x, k);
    }
  }

  /** The database without the given workflows: no row of theirs is left in any table. */
  function Without(db: Db, ids: set<Id>): Db {
    Db(db.rows - ids, db.ops - ids, db.notes - ids, db.events - ids, db.history - ids, db.streams - ids)
  }

  method FindFamily(db: SqliteDb, id: Id) returns (found: seq<Id>)
    requires !OnCycle(db.rows, id)
    ensures Distinct(found) && IdSet(found) == Family(db.rows, id)
  {
    found := [id];
    var queue := [id];
    ghost var visited: seq<Id> := [];
    assert Ancestor(db.rows, id, 0) == Some(id);
    while queue != []
      invariant Searching(db.rows, id, visited, queue, found)
      decreases |db.rows| + 1 - |visited|
    {
      FoundIsBounded(db.rows, id, visited, queue, found);
      var front := queue[0];
      var children := db.GetWorkflowChildren(front);
      VisitKeepsSearching(db.rows, id, visited, queue, found, children);
      found := found + children;
      queue := queue[1..] + children;
      visited := visited + [front];
    }
    SearchedFamily(db.rows, id, visited, found);
  }

  lemma OneMore(db: Db, ids: seq<Id>, k: nat)
    requires k < |ids|
    ensures Delete(Without(db, IdSet(ids[..k])), ids[k]) == Without(db, IdSet(ids[..k + 1]))
  {
    var s, t := IdSet(ids[..k]), IdSet(ids[..k + 1]);
    assert ids[..k + 1] == ids[..k] + [ids[k]];
    assert t == s + {ids[k]};
    assert db.rows - s - {ids[k]} == db.rows - t && db.ops - s - {ids[k]} == db.ops - t;
    assert db.notes - s - {ids[k]} == db.notes - t && db.events - s - {ids[k]} == db.events - t;
    assert db.history - s - {ids[k]} == db.history - t && db.streams - s - {ids[k]} == db.streams - t;
  }

  /** Deletes the workflow, or it and every descendant of it: each of these once, everything
      they own in any table, and nothing else. */
  method DeleteWorkflow(db: SqliteDb, id: Id, deleteChildren: bool) returns (toDelete: seq<Id>)
    requires deleteChildren ==> !OnCycle(db.rows, id)
    modifies db
    ensures Distinct(toDelete)
    ensures IdSet(toDelete) == if deleteChildren then Family(old(db.rows), id) else {id}
    ensures db.State() == Without(old(db.State()), IdSet(toDelete))
  {
    toDelete := [id];
    if deleteChildren {
      toDelete := FindFamily(db, id);
    }
    var k := 0;
    while k < |toDelete|
      invariant 0 <= k <= |toDelete|
      invariant db.State() == Without(old(db.State()), IdSet(toDelete[..k]))
    {
      OneMore(old(db.State()), toDelete, k);
      db.DeleteWorkflow(toDelete[k]);
      k := k + 1;
    }
    assert toDelete[..k] == toDelete;
  }

  lemma FoundIsBounded(rows: Rows, root: Id, visited: seq<Id>, queue: seq<Id>, found: seq<Id>)
    requires Searching(rows, root, visited, queue, found)
    ensures |visited| + |queue| <= |rows| + 1
  {
    DistinctSize(found);
    SubsetSize(IdSet(found), rows.Keys + {root});
  }

  // ---- when the search ends ----

  /** The ancestor just below x on its cycle is a child of x on the same cycle. */
  lemma CycleContinues(rows: Rows, x: Id) returns (c: Id)
    requires OnCycle(rows, x)
    ensures IsChild(rows, c, x) && OnCycle(rows, c)
  {
    var k: nat :| k > 0 && Ancestor(rows, x, k) == Some(x);
    AncestorAdds(rows, x, k - 1, 1);
    c := Ancestor(rows, x, k - 1).value;
    assert Ancestor(rows, c, 1) == Some(x);
    AncestorAdds(rows, c, 1, k - 1);
    assert Ancestor(rows, c, k) == Some(c);
  }

  /** Below a workflow that is its own ancestor the search never runs out of work. */
  lemma {:induction false} CycleNeverEnds(rows: Rows, root: Id, queues: seq<seq<Id>>, n: nat)
    requires OnCycle(rows, root) && n < |queues| && queues[0] == [root]
    requires forall k :: 0 <= k < n ==> Visit(rows, queues[k], queues[k + 1])
    ensures exists x :: x in queues[n] && OnCycle(rows, x)
  {
    if n > 0 {
      CycleNeverEnds(rows, root, queues, n - 1);
      assert Visit(rows, queues[n - 1], queues[n]);
      var q := queues[n - 1];
      var x :| x in q && OnCycle(rows, x);
      if x == q[0] {
        var c := CycleContinues(rows, x);
        assert c in queues[n];
      } else {
        assert x in q[1..];
      }
    } else {
      assert root in queues[0];
    }
  }

  // ---- when the parent relation has no cycle ----

  ghost predicate Acyclic(rows: Rows) {
    forall x :: !OnCycle(rows, x)
  }

  /** Every parent is still there. */
  predicate Rooted(rows: Rows) {
    forall c :: c in rows && rows[c].parent.Some? ==> rows[c].parent.value in rows
  }

  /** A path up that avoids the new row is as it was. */
  lemma {:induction false} PathAvoids(rows: Rows, c: Id, row: Row, x: Id, k: nat)
    requires c !in rows && Ancestor(rows[c := row], x, k).Some? && Ancestor(rows, x, k) != Ancestor(rows[c := row], x, k)
    ensures exists j: nat :: j < k && Ancestor(rows, x, j) == Some(c)
    decreases k
  {
    if x == c {
      assert Ancestor(rows, x, 0) == Some(c) && k > 0;
    } else {
      var p := rows[x].parent.value;
      PathAvoids(rows, c, row, p, k - 1);
      var j: nat :| j < k - 1 && Ancestor(rows, p, j) == Some(c);
      assert Ancestor(rows, x, j + 1) == Some(c);
    }
  }

  lemma {:induction false} PathStays(rows: Rows, c: Id, row: Row, x: Id, k: nat)
    requires c !in rows && Ancestor(rows, x, k).Some?
    ensures Ancestor(rows[c := row], x, k) == Ancestor(rows, x, k)
    decreases k
  {
    if k > 0 { PathStays(rows, c, row, rows[x].parent.value, k - 1); }
  }

  /** A new row closes a cycle exactly when its parent descends from the new id itself, by
      way of children that an earlier row of that id left behind. */
  lemma InsertKeepsAcyclicIff(rows: Rows, c: Id, row: Row)
    requires Acyclic(rows) && c !in rows
    ensures Acyclic(rows[c := row]) <==> (row.parent.Some? ==> !Under(rows, c, row.parent.value))
  {
    var rows' := rows[c := row];
    if row.parent.Some? && Under(rows, c, row.parent.value) {
      var j: nat :| Ancestor(rows, row.parent.value, j) == Some(c);
      PathStays(rows, c, row, row.parent.value, j);
      assert Ancestor(rows', c, j + 1) == Some(c);
      assert OnCycle(rows', c);
    } else {
      forall x ensures !OnCycle(rows', x) {
        if OnCycle(rows', x) { NewCycle(rows, c, row, x); }
      }
    }
  }

  /** A cycle that the new row closes goes through it. */
  lemma NewCycle(rows: Rows, c: Id, row: Row, x: Id)
    requires Acyclic(rows) && c !in rows && OnCycle(rows[c := row], x)
    ensures row.parent.Some? && Under(rows, c, row.parent.value)
  {
    var rows' := rows[c := row];
    var k: nat :| k > 0 && Ancestor(rows', x, k) == Some(x);
    assert !OnCycle(rows, x);
    PathAvoids(rows, c, row, x, k);
    var j: nat :| j < k && Ancestor(rows, x, j) == Some(c);
    PathStays(rows, c, row, x, j);
    AncestorAdds(rows', x, j, k - j);
    AncestorAdds(rows', c, k - j, j);
    assert Ancestor(rows', c, k) == Some(c);
    var p := row.parent.value;
    assert Ancestor(rows', p, k - 1) == Some(c);
    if Ancestor(rows, p, k - 1) != Some(c) {
      PathAvoids(rows, c, row, p, k - 1);
    }
  }

  /** The failing table: the parent's row is deleted without its child, and the child then
      spawns a workflow under the deleted id. Both transactions succeed, and each of the two
      workflows is the other's ancestor. */
  lemma DeletionCanCloseCycle(db: Db, i: InsertInput, step: int, name: string)
    requires db.rows.Keys == {"a", "b"} && db.rows["a"].parent == None && db.rows["b"].parent == Some("a")
    requires i.s.id == "a" && i.s.parent == "b" && i.s.dedupId == ""
    requires i.child == Some(ChildRecord("b", step, name, "a")) && step !in LogOf(db, "b")
    ensures Acyclic(db.rows)
    ensures var (db', r) := InsertWorkflowStatus(Delete(db, "a"), i);
            r.Ok? && !Acyclic(db'.rows)
  {
    TwoLevelsAreAcyclic(db.rows);
    var (db', r) := InsertWorkflowStatus(Delete(db, "a"), i);
    assert LogOf(Delete(db, "a"), "b") == LogOf(db, "b");
    assert db'.rows["b"].parent == Some("a") && db'.rows["a"].parent == Some("b");
    assert Ancestor(db'.rows, "b", 1) == Some("a");
    assert Ancestor(db'.rows, "a", 2) == Some("a");
    assert OnCycle(db'.rows, "a");
  }

  lemma TwoLevelsAreAcyclic(rows: Rows)
    requires rows.Keys == {"a", "b"} && rows["a"].parent == None && rows["b"].parent == Some("a")
    ensures Acyclic(rows)
  {
    forall x, k: nat | k > 0 ensures Ancestor(rows, x, k) != Some(x) {
      if x == "b" && k > 1 { assert Ancestor(rows, "a", k - 1) == None; }
    }
  }

  // ---- families stay trees ----

  ghost predicate Tree(rows: Rows) {
    Rooted(rows) && Acyclic(rows)
  }

  lemma {:induction false} PathInRows(rows: Rows, x: Id, k: nat)
    requires Rooted(rows) && x in rows && Ancestor(rows, x, k).Some?
    ensures Ancestor(rows, x, k).value in rows
    decreases k
  {
    if k > 0 { PathInRows(rows, rows[x].parent.value, k - 1); }
  }

  /** What is left of a path in a table with fewer rows, the same parents, was there before. */
  lemma {:induction false} PathInSmaller(rows: Rows, rows': Rows, x: Id, k: nat)
    requires Ancestor(rows', x, k).Some?
    requires forall y :: y in rows' && rows'[y].parent.Some? ==> y in rows && rows[y].parent == rows'[y].parent
    ensures Ancestor(rows, x, k) == Ancestor(rows', x, k)
    decreases k
  {
    if k > 0 { PathInSmaller(rows, rows', rows'[x].parent.value, k - 1); }
  }

  lemma SmallerIsAcyclic(rows: Rows, rows': Rows)
    requires Acyclic(rows)
    requires forall y :: y in rows' && rows'[y].parent.Some? ==> y in rows && rows[y].parent == rows'[y].parent
    ensures Acyclic(rows')
  {
    forall x ensures !OnCycle(rows', x) {
      if OnCycle(rows', x) {
        var k: nat :| k > 0 && Ancestor(rows', x, k) == Some(x);
        PathInSmaller(rows, rows', x, k);
        assert OnCycle(rows, x);
      }
    }
  }

  /** A new row under an existing one, or under none. */
  lemma InsertKeepsTree(rows: Rows, c: Id, row: Row)
    requires Tree(rows) && c !in rows && (row.parent.Some? ==> row.parent.value in rows)
    ensures Tree(rows[c := row])
  {
    if row.parent.Some? && Under(rows, c, row.parent.value) {
      var k: nat :| Ancestor(rows, row.parent.value, k) == Some(c);
      PathInRows(rows, row.parent.value, k);
    }
    InsertKeepsAcyclicIff(rows, c, row);
  }

  lemma FamilyDeletionKeepsTree(rows: Rows, root: Id)
    requires Tree(rows)
    ensures Tree(rows - Family(rows, root))
  {
    var rows' := rows - Family(rows, root);
    forall c | c in rows' && rows'[c].parent.Some? ensures rows'[c].parent.value in rows' {
      var p := rows[c].parent.value;
      if p in Family(rows, root) { ChildIsUnder(rows, root, p, c); }
    }
    SmallerIsAcyclic(rows, rows');
  }

  datatype Move = Statement(c: TableRuns.Call) | Purge(root: Id)

  /** A child's row names the workflow whose step records the spawn; it is another one. */
  predicate Parented(i: InsertInput) {
    if i.child.Some? then i.s.parent == i.child.value.parent && i.s.parent != i.s.id else i.s.parent == ""
  }

  /** Any statement, but rows are deleted only together with their descendants. */
  ghost predicate Step(limits: map<string, TableRuns.Limits>, db: Db, m: Move, db': Db) {
    match m
    case Statement(c) =>
      TableRuns.Step(limits, db, c, db') && !c.DeleteIt? && (c.Insert? ==> Parented(c.i))
    case Purge(root) => db' == Without(db, Family(db.rows, root))
  }

  ghost predicate Run(limits: map<string, TableRuns.Limits>, dbs: seq<Db>, moves: seq<Move>) {
    |dbs| == |moves| + 1 && forall k :: 0 <= k < |moves| ==> Step(limits, dbs[k], moves[k], dbs[k + 1])
  }

  /** The rows stay, with their parents, and at most one joins them, under an existing row or none. */
  ghost predicate Joined(rows: Rows, rows': Rows) {
    (forall x :: x in rows ==> x in rows' && rows'[x].parent == rows[x].parent) &&
    (forall x :: x in rows' && x !in rows && rows'[x].parent.Some? ==> rows'[x].parent.value in rows) &&
    forall x, y :: x in rows' && y in rows' && x !in rows && y !in rows ==> x == y
  }

  lemma JoinedKeepsTree(rows: Rows, rows': Rows)
    requires Tree(rows) && Joined(rows, rows')
    ensures Tree(rows')
  {
    if c :| c in rows' && c !in rows {
      InsertKeepsTree(rows, c, rows'[c]);
      SmallerIsAcyclic(rows[c := rows'[c]], rows');
    } else {
      SmallerIsAcyclic(rows, rows');
    }
  }

  lemma InsertJoins(db: Db, i: InsertInput)
    requires Parented(i)
    ensures Joined(db.rows, InsertWorkflowStatus(db, i).0.rows)
  {
    TableRuns.InsertTouchesOneRow(db, i);
  }

  lemma StatementJoins(limits: map<string, TableRuns.Limits>, db: Db, c: TableRuns.Call, db': Db)
    requires TableRuns.Step(limits, db, c, db') && !c.DeleteIt? && (c.Insert? ==> Parented(c.i))
    ensures Joined(db.rows, db'.rows)
  {
    match c
    case Insert(i) => InsertJoins(db, i);
    case Poll(d, _, ids, stamps, _) =>
      forall x | x in db.rows ensures x in db'.rows && db'.rows[x].parent == db.rows[x].parent {
        TableRuns.PollFollows(db.rows, d, ids, stamps, db'.rows, x);
      }
    case _ => UpdateJoins(limits, db, c, db');
  }

  lemma UpdateJoins(limits: map<string, TableRuns.Limits>, db: Db, c: TableRuns.Call, db': Db)
    requires TableRuns.Step(limits, db, c, db') && !c.DeleteIt? && !c.Insert? && !c.Poll?
    ensures Joined(db.rows, db'.rows)
  {
    match c
    case ForkIt(f, now) => ForkJoins(db, f, now);
    case Tick(now) => TickJoins(db.rows, now);
    case _ =>
  }

  lemma ForkJoins(db: Db, f: ForkInput, now: int)
    ensures Joined(db.rows, Fork(db, f, now).0.rows)
  {
    if f.startStep >= 0 && f.original in db.rows && f.forked !in db.rows {
      ForkedRowJoins(db.rows, f, now);
    }
  }

  lemma ForkedRowJoins(rows: Rows, f: ForkInput, now: int)
    requires f.original in rows && f.forked !in rows
    ensures var orig := rows[f.original];
            Joined(rows, rows[f.forked := ForkRow(orig, f, now)][f.original := orig.(wasForkedFrom := true)])
  {
  }

  lemma TickJoins(rows: Rows, now: int)
    ensures Joined(rows, TransitionDelayed(rows, now))
  {
  }

  /** As long as rows are deleted only with their descendants, every run keeps the parent
      relation acyclic and complete, so a deletion with descendants always ends. */
  lemma {:induction false} RunKeepsTree(limits: map<string, TableRuns.Limits>, dbs: seq<Db>, moves: seq<Move>, k: nat)
    requires Run(limits, dbs, moves) && Tree(dbs[0].rows) && k <= |moves|
    ensures Tree(dbs[k].rows)
  {
    if k > 0 {
      RunKeepsTree(limits, dbs, moves, k - 1);
      var db, m, db' := dbs[k - 1], moves[k - 1], dbs[k];
      assert Step(limits, db, m, db');
      match m
      case Statement(c) =>
        StatementJoins(limits, db, c, db');
        JoinedKeepsTree(db.rows, db'.rows);
      case Purge(root) => FamilyDeletionKeepsTree(db.rows, root);
    }
  }
}
