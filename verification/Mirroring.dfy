/** What synchronising a mirror achieves (apps/workspaces/services.py,
    _sync_assignment_mirror and _sync_subtask_mirror). */
module Mirroring {
  import opened Boards
  import opened Columns
  import opened Consistency
  import opened Options
  import opened Ordering
  import opened Schema
  import opened Tasks

  /** The synchronised task is untouched, and so is every row but its mirrors;
      whatever is new mirrors it. */
  ghost predicate OnlyMirrorsDiffer(before: Db, after: Db, id: Schema.Id) {
    && (forall t <- before.tasks :: !(IsAssignmentMirror(before.tasks[t]) && before.tasks[t].sourceTask == Some(id)) ==>
          t in after.tasks && after.tasks[t] == before.tasks[t])
    && (forall t <- after.tasks :: t !in before.tasks ==>
          IsAssignmentMirror(after.tasks[t]) && after.tasks[t].sourceTask == Some(id))
    && (forall t <- after.tasks :: t in before.tasks ==>
          after.tasks[t].sourceTask == before.tasks[t].sourceTask && after.tasks[t].sourceSubtask == before.tasks[t].sourceSubtask)
  }

  ghost predicate HasMirror(db: Db, id: Schema.Id) {
    exists m <- db.tasks :: IsAssignmentMirror(db.tasks[m]) && db.tasks[m].sourceTask == Some(id)
  }

  /** A mirror exists exactly for an assigned task on a project board. */
  ghost predicate MirrorExact(db: Db, id: Schema.Id) {
    id in db.tasks && (HasMirror(db, id) <==> OnProjectBoard(db, db.tasks[id]) && db.tasks[id].assignee.Some?)
  }

  lemma IntakeOk(db: Db, user: Schema.Id)
    requires WellFormed(db)
    ensures var (after, board, column) := Intake(db, user);
            && WellFormed(after) && Extends(db, after)
            && board in after.boards && after.boards[board].PersonalBoard? && after.boards[board].owner == user
            && PersonalBoards(after, user) == {board}
            && column in after.columns && after.columns[column].board == board
  {
    EnsureBoardOk(db, user);
    var (db1, board) := EnsureBoard(db, user);
    WithIntakeOk(db1, board, user);
    hide EnsureBoard, WithIntake, WellFormed;
    ExtendsTransitive(db, db1, WithIntake(db1, board, user).0);
    hide Extends;
  }

  // Every assignment mirror is on a personal board, so the query finds them all.
  lemma QueryFindsMirrors(db: Db, id: Schema.Id)
    requires RowsOk(db)
    ensures AssignmentMirrors(db, id) == MirrorRows(db, id)
  {
    forall m | m in MirrorRows(db, id)
      ensures m in AssignmentMirrors(db, id)
    {
      assert RowOk(db, db.tasks[m]);
    }
  }

  // Deleting some of a task's mirrors.
  lemma DeleteSomeMirrors(db: Db, id: Schema.Id, gone: set<Schema.Id>)
    requires Core(db) && AgreeExcept(db, Some(id)) && gone <= MirrorRows(db, id)
    ensures var after := DeleteTasks(db, gone);
            && after == Pruned(db, gone) && Core(after) && AgreeExcept(after, Some(id))
  {
    assert forall m <- gone :: m in MirrorRows(db, id);
    hide RowsOk, WellFormed, UniqueMirrors, SubtasksAgree, RouteKeysUnique, LinksOk, Detached, AgreeExcept;
    DeleteMirrors(db, gone);
    hide DeleteTasks, Pruned;
    PrunedKeepsCore(db, gone);
    PrunedKeepsAgreement(db, gone, Some(id));
  }

  lemma PrunedDiffers(db: Db, id: Schema.Id, gone: set<Schema.Id>)
    requires gone <= MirrorRows(db, id)
    ensures OnlyMirrorsDiffer(db, Pruned(db, gone), id)
    ensures MirrorRows(Pruned(db, gone), id) == MirrorRows(db, id) - gone
  {
  }

  lemma NoMirrorsAgree(db: Db, id: Schema.Id)
    requires AgreeExcept(db, Some(id)) && MirrorRows(db, id) == {}
    ensures AgreeExcept(db, None) && !HasMirror(db, id)
  {
    hide Agrees;
    forall m <- db.tasks
      ensures !(IsAssignmentMirror(db.tasks[m]) && db.tasks[m].sourceTask == Some(id))
    {
      assert m !in MirrorRows(db, id);
    }
  }

  // Without a project board or an assignee the mirrors go.
  lemma SyncDeletes(db: Db, id: Schema.Id)
    requires Core(db) && AgreeExcept(db, Some(id)) && id in db.tasks && Canonical(db.tasks[id])
    requires !OnProjectBoard(db, db.tasks[id]) || db.tasks[id].assignee.None?
    ensures var after := SyncMirror(db, id);
            && Core(after) && AgreeExcept(after, None) && OnlyMirrorsDiffer(db, after, id) && MirrorExact(after, id)
  {
    assert RowsOk(db);
    hide Core, AgreeExcept, RowsOk;
    var mirrors := MirrorRows(db, id);
    QueryFindsMirrors(db, id);
    DeleteSomeMirrors(db, id, mirrors);
    PrunedDiffers(db, id, mirrors);
    NoMirrorsAgree(Pruned(db, mirrors), id);
    hide DeleteTasks, MirrorRows, AssignmentMirrors, HasMirror;
  }

  // ---------- Creating or refreshing the one mirror ----------

  /** The board and column that take the mirror. */
  ghost predicate HomeFor(db: Db, user: Schema.Id, board: Schema.Id, column: Schema.Id) {
    && board in db.boards && db.boards[board].PersonalBoard? && db.boards[board].owner == user
    && column in db.columns && db.columns[column].board == board
  }

  // One agreeing mirror is all that is needed.
  lemma OneMirrorAgrees(db: Db, id: Schema.Id, m: Schema.Id)
    requires AgreeExcept(db, Some(id)) && MirrorRows(db, id) == {m}
    requires id in db.tasks && Agrees(db, db.tasks[id], db.tasks[m])
    ensures AgreeExcept(db, None) && HasMirror(db, id)
  {
    forall k <- db.tasks | IsAssignmentMirror(db.tasks[k]) && db.tasks[k].sourceTask == Some(id)
      ensures k == m
    {
      assert k in MirrorRows(db, id);
    }
    assert m in MirrorRows(db, id);
  }

  /** The task to be mirrored: canonical, on a project board, assigned. */
  ghost predicate Assigned(db: Db, id: Schema.Id, user: Schema.Id) {
    && id in db.tasks && Canonical(db.tasks[id]) && OnProjectBoard(db, db.tasks[id])
    && db.tasks[id].assignee == Some(user)
  }

  function MirrorFor(db: Db, id: Schema.Id, board: Schema.Id, column: Schema.Id, position: nat): Task
    requires id in db.tasks && board in db.boards
  {
    NewMirror(db.tasks[id], id, board, db.boards[board].workspace, column, position)
  }

  lemma MirrorForFits(db: Db, id: Schema.Id, user: Schema.Id, board: Schema.Id, column: Schema.Id, position: nat)
    requires RowsOk(db) && Assigned(db, id, user) && HomeFor(db, user, board, column) && MirrorRows(db, id) == {}
    ensures var row := MirrorFor(db, id, board, column, position);
            Addable(db, row) && Agrees(db, db.tasks[id], row) && IsAssignmentMirror(row) && row.sourceTask == Some(id)
  {
    var row := MirrorFor(db, id, board, column, position);
    assert RowOk(db, db.tasks[id]);
    hide RowsOk;
    forall m <- db.tasks | IsAssignmentMirror(db.tasks[m])
      ensures db.tasks[m].sourceTask != row.sourceTask
    {
      assert m !in MirrorRows(db, id);
    }
  }

  lemma NewRowMirrors(db: Db, id: Schema.Id, row: Task)
    requires db.nextId !in db.tasks && id in db.tasks && MirrorRows(db, id) == {}
    requires IsAssignmentMirror(row) && row.sourceTask == Some(id) && Agrees(db, db.tasks[id], row)
    ensures var after := WithNew(db, row);
            && MirrorRows(after, id) == {db.nextId} && OnlyMirrorsDiffer(db, after, id)
            && Agrees(after, db.tasks[id], row)
  {
    var after := WithNew(db, row);
    forall m | m in MirrorRows(after, id) ensures m == db.nextId {
      assert m != db.nextId ==> m in MirrorRows(db, id);
    }
  }

  lemma CoreParts(db: Db)
    requires Core(db)
    ensures IdsDrawn(db) && RowsOk(db) && LinksOk(db) && WellFormed(db) && db.nextId !in db.tasks
  {
    hide RowsOk, LinksOk;
  }

  lemma SyncCreates(db: Db, id: Schema.Id, user: Schema.Id, board: Schema.Id, column: Schema.Id, position: nat)
    requires Core(db) && AgreeExcept(db, Some(id)) && Assigned(db, id, user)
    requires HomeFor(db, user, board, column) && MirrorRows(db, id) == {}
    ensures var after := WithNew(db, MirrorFor(db, id, board, column, position));
            && Core(after) && AgreeExcept(after, None) && OnlyMirrorsDiffer(db, after, id) && HasMirror(after, id)
  {
    hide Core, RowsOk, LinksOk, WellFormed, IdsDrawn, Addable, OnlyMirrorsDiffer, AgreeExcept, Agrees, MirrorRows, HasMirror, OnProjectBoard, MirrorFor;
    CoreParts(db);
    var row := MirrorFor(db, id, board, column, position);
    MirrorForFits(db, id, user, board, column, position);
    NewRowMirrors(db, id, row);
    AddRowKeepsCore(db, row);
    AddRowKeepsAgreement(db, row, Some(id));
    OneMirrorAgrees(WithNew(db, row), id, db.nextId);
  }

  function Refreshed(db: Db, id: Schema.Id, m: Schema.Id): Task
    requires id in db.tasks && m in db.tasks && db.tasks[m].board in db.boards
  {
    RefreshedMirror(db.tasks[m], db.tasks[id], db.boards[db.tasks[m].board].workspace)
  }

  lemma RefreshedFits(db: Db, id: Schema.Id, user: Schema.Id, m: Schema.Id)
    requires RowsOk(db) && Assigned(db, id, user)
    requires MirrorRows(db, id) == {m} && OnPersonalBoard(db, db.tasks[m]) && db.boards[db.tasks[m].board].owner == user
    ensures var row, after := Refreshed(db, id, m), WithTask(db, m, Refreshed(db, id, m));
            && RowOk(db, row) && SameLinks(db.tasks[m], row) && IsAssignmentMirror(row) && row.sourceTask == Some(id)
            && m != id && Agrees(after, db.tasks[id], row)
  {
    assert m in MirrorRows(db, id);
    assert RowOk(db, db.tasks[id]) && RowOk(db, db.tasks[m]);
    hide RowsOk;
  }

  lemma RefreshedMirrors(db: Db, id: Schema.Id, m: Schema.Id, row: Task)
    requires m in db.tasks && MirrorRows(db, id) == {m} && SameLinks(db.tasks[m], row)
    ensures MirrorRows(WithTask(db, m, row), id) == {m} && OnlyMirrorsDiffer(db, WithTask(db, m, row), id)
  {
    assert m in MirrorRows(db, id);
    var after := WithTask(db, m, row);
    assert MirrorRows(after, id) == MirrorRows(db, id);
  }

  lemma SyncRefreshes(db: Db, id: Schema.Id, user: Schema.Id, m: Schema.Id)
    requires Core(db) && AgreeExcept(db, Some(id)) && Assigned(db, id, user)
    requires MirrorRows(db, id) == {m} && OnPersonalBoard(db, db.tasks[m]) && db.boards[db.tasks[m].board].owner == user
    ensures var after := WithTask(db, m, Refreshed(db, id, m));
            && Core(after) && AgreeExcept(after, None) && OnlyMirrorsDiffer(db, after, id) && HasMirror(after, id)
  {
    assert m in MirrorRows(db, id);
    hide Core, RowsOk, RowOk, LinksOk, WellFormed, IdsDrawn, OnlyMirrorsDiffer, AgreeExcept, Agrees, MirrorRows, HasMirror, OnProjectBoard, Refreshed;
    CoreParts(db);
    var row := Refreshed(db, id, m);
    RefreshedFits(db, id, user, m);
    RefreshedMirrors(db, id, m, row);
    SetRowKeepsCore(db, m, row);
    SetRowKeepsOthersAgreeing(db, m, row, Some(id));
    OneMirrorAgrees(WithTask(db, m, row), id, m);
  }

  // ---------- _sync_assignment_mirror ----------

  lemma DiffersTransitive(a: Db, b: Db, c: Db, id: Schema.Id)
    requires OnlyMirrorsDiffer(a, b, id) && OnlyMirrorsDiffer(b, c, id)
    ensures OnlyMirrorsDiffer(a, c, id)
  {
    forall t <- c.tasks | t !in a.tasks || t !in b.tasks
      ensures IsAssignmentMirror(c.tasks[t]) && c.tasks[t].sourceTask == Some(id)
    {
      assert t !in a.tasks && t in b.tasks ==> IsAssignmentMirror(b.tasks[t]);
    }
  }

  // The three database states PlaceMirror goes through before the last write.
  ghost function Provided(db: Db, id: Schema.Id, user: Schema.Id): Db {
    var (db1, board, column) := Intake(db, user);
    DeleteTasks(db1, MirrorRows(db, id) - OnBoardIds(db, MirrorRows(db, id), board))
  }

  lemma ProvidedOk(db: Db, id: Schema.Id, user: Schema.Id)
    requires Core(db) && AgreeExcept(db, Some(id)) && Assigned(db, id, user)
    ensures var (db1, board, column) := Intake(db, user);
            var here := OnBoardIds(db, MirrorRows(db, id), board);
            var db2 := Provided(db, id, user);
            && Core(db2) && AgreeExcept(db2, Some(id)) && Assigned(db2, id, user)
            && HomeFor(db2, user, board, column) && MirrorRows(db2, id) == here
            && db2.tasks[id] == db.tasks[id] && OnlyMirrorsDiffer(db, db2, id)
            && db2.boards == db1.boards
            && (forall m <- here :: m in db.tasks && m in db2.tasks && db2.tasks[m] == db.tasks[m])
  {
    var (db1, board, column) := Intake(db, user);
    var gone := MirrorRows(db, id) - OnBoardIds(db, MirrorRows(db, id), board);
    hide Intake, Core, AgreeExcept, WellFormed, OnlyMirrorsDiffer, DeleteTasks;
    CoreParts(db);
    IntakeOk(db, user);
    ExtendsKeeps(db, db1, Some(id));
    assert MirrorRows(db1, id) == MirrorRows(db, id);
    DeleteSomeMirrors(db1, id, gone);
    PrunedDiffers(db1, id, gone);
    assert OnlyMirrorsDiffer(db, Pruned(db1, gone), id) by { SameTasksDiffer(db, db1, Pruned(db1, gone), id); }
    assert MirrorRows(db1, id) - gone == OnBoardIds(db, MirrorRows(db, id), board);
    assert id !in MirrorRows(db, id);
  }

  lemma SameTasksDiffer(a: Db, b: Db, c: Db, id: Schema.Id)
    requires a.tasks == b.tasks && OnlyMirrorsDiffer(b, c, id)
    ensures OnlyMirrorsDiffer(a, c, id)
  {
  }

  // At most one mirror.
  lemma HereIsSingle(db: Db, id: Schema.Id, here: set<Schema.Id>, m: Schema.Id)
    requires UniqueMirrors(db) && here <= MirrorRows(db, id) && m in here
    ensures here == {m}
  {
    forall k | k in here ensures k == m {
      assert k in MirrorRows(db, id) && m in MirrorRows(db, id);
    }
  }

  lemma PlaceMirrorIs(db: Db, id: Schema.Id, user: Schema.Id)
    requires Core(db) && AgreeExcept(db, Some(id)) && Assigned(db, id, user)
    ensures var (db1, board, column) := Intake(db, user);
            var db2, here := Provided(db, id, user), OnBoardIds(db, MirrorRows(db, id), board);
            && id in db2.tasks && board in db2.boards
            && (here == {} ==>
                  PlaceMirror(db, id, user)
                  == WithNew(db2, MirrorFor(db2, id, board, column, NextInColumn(db2.tasks, Some(column)))))
            && (here != {} ==>
                  exists m ::
                    && m in here && here == {m} && m in db2.tasks && db2.tasks[m].board == board
                    && PlaceMirror(db, id, user) == WithTask(db2, m, Refreshed(db2, id, m)))
  {
    hide Core, AgreeExcept, OnlyMirrorsDiffer, DeleteTasks, NextInColumn, NewMirror, Intake;
    ProvidedOk(db, id, user);
    assert RowsOk(db) && UniqueMirrors(db) by { assert Core(db); Unfold(db); }
    QueryFindsMirrors(db, id);
    hide MirrorRows, AssignmentMirrors, RowsOk;
    var (db1, board, column) := Intake(db, user);
    var here := OnBoardIds(db, MirrorRows(db, id), board);
    if here != {} {
      var m := First(here, map t | t in here :: db.tasks[t].position);
      HereIsSingle(db, id, here, m);
      assert m in here;
    }
  }

  lemma Unfold(db: Db)
    requires Core(db)
    ensures RowsOk(db) && UniqueMirrors(db)
  {
    hide RowsOk, UniqueMirrors;
  }

  lemma SyncPlaces(db: Db, id: Schema.Id, user: Schema.Id)
    requires Core(db) && AgreeExcept(db, Some(id)) && Assigned(db, id, user)
    ensures var after := PlaceMirror(db, id, user);
            && Core(after) && AgreeExcept(after, None) && OnlyMirrorsDiffer(db, after, id) && HasMirror(after, id)
  {
    hide Core, AgreeExcept, OnlyMirrorsDiffer, PlaceMirror, MirrorRows, NextInColumn, Intake, Provided, HasMirror, MirrorFor, Refreshed;
    ProvidedOk(db, id, user);
    PlaceMirrorIs(db, id, user);
    var (db1, board, column) := Intake(db, user);
    var db2, here := Provided(db, id, user), OnBoardIds(db, MirrorRows(db, id), board);
    if here == {} {
      SyncCreates(db2, id, user, board, column, NextInColumn(db2.tasks, Some(column)));
      DiffersTransitive(db, db2, PlaceMirror(db, id, user), id);
    } else {
      var m :| m in here && here == {m} && m in db2.tasks && db2.tasks[m].board == board
               && PlaceMirror(db, id, user) == WithTask(db2, m, Refreshed(db2, id, m));
      SyncRefreshes(db2, id, user, m);
      DiffersTransitive(db, db2, PlaceMirror(db, id, user), id);
    }
  }

  /** Synchronising a canonical task repairs its mirror, whatever state the
      mirror was in, and touches no other task: afterwards everything agrees,
      and there is a mirror exactly if the task is assigned on a project board. */
  lemma SyncRestores(db: Db, id: Schema.Id)
    requires Core(db) && AgreeExcept(db, Some(id)) && id in db.tasks && Canonical(db.tasks[id])
    ensures var after := SyncMirror(db, id);
            && Consistent(after) && OnlyMirrorsDiffer(db, after, id) && MirrorExact(after, id)
            && id in after.tasks && after.tasks[id] == db.tasks[id]
  {
    assert Consistent(SyncMirror(db, id)) <==> Core(SyncMirror(db, id)) && AgreeExcept(SyncMirror(db, id), None);
    hide Core, AgreeExcept, PlaceMirror, DeleteTasks, HasMirror, Consistent;
    if !OnProjectBoard(db, db.tasks[id]) || db.tasks[id].assignee.None? {
      SyncDeletes(db, id);
    } else {
      var user := db.tasks[id].assignee.value;
      SyncPlaces(db, id, user);
      SyncKeepsBoards(db, id);
    }
  }

  lemma SyncKeepsBoards(db: Db, id: Schema.Id)
    requires Core(db) && AgreeExcept(db, Some(id)) && id in db.tasks && Canonical(db.tasks[id])
    requires OnProjectBoard(db, db.tasks[id])
    ensures OnProjectBoard(SyncMirror(db, id), db.tasks[id])
  {
    hide Core, AgreeExcept, OnlyMirrorsDiffer, NextInColumn, Intake;
    if db.tasks[id].assignee.Some? {
      CoreParts(db);
      IntakeOk(db, db.tasks[id].assignee.value);
    }
  }
}
