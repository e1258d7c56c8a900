/** Which requests are accepted, told from the tables before them
    (apps/workspaces/services.py and views.py). */
module Admission {
  import opened Automation
  import opened Boards
  import opened Columns
  import opened Consistency
  import opened Destinations
  import opened Effects
  import opened Lifecycle
  import opened Mirroring
  import opened Options
  import opened Ordering
  import opened Placement
  import opened Schema
  import opened Structure
  import opened Tasks
  import opened Workspace

  // ---------- Tasks ----------

  /** A task outside the pool can be moved to any column of its board. */
  lemma MoveAccepted(db: Db, id: Schema.Id, column: Schema.Id, index: int, supplied: nat, today: int)
    ensures MoveTask(db, id, column, index, supplied, today).Ok?
            <==> id in db.tasks && column in db.columns && db.tasks[id].version == supplied
                 && db.columns[column].board == db.tasks[id].board && !db.tasks[id].pool
  {
    hide Moved, Automate;
    if id in db.tasks && column in db.columns && db.columns[column].board == db.tasks[id].board {
      MovedStaysOutside(db, id, column, index);
      OutsidePoolAccepts(Moved(db, id, column, index), id, ColumnEntered, today);
    }
  }

  lemma MovedStaysOutside(db: Db, id: Schema.Id, column: Schema.Id, index: int)
    requires id in db.tasks
    ensures id in Moved(db, id, column, index).tasks && Moved(db, id, column, index).tasks[id].pool == db.tasks[id].pool
  {
    MovedRows(db, id, column, index);
    hide Moved;
  }

  lemma OutsidePoolAccepts(db: Db, id: Schema.Id, trigger: Trigger, today: int)
    requires id in db.tasks
    ensures Automate(db, id, trigger, today).Err? <==> db.tasks[id].pool && RuleTarget(db, db.tasks[id], trigger, db.rules, today).Some?
  {
    hide RuleTarget, NextInColumn;
  }

  /** Some rule would move the task. */
  ghost predicate RuleFires(db: Db, t: Task, trigger: Trigger, today: int) {
    exists i :: 0 <= i < |db.rules| && Fires(db, t, trigger, today, db.rules[i])
  }

  lemma TargetIfFires(db: Db, t: Task, trigger: Trigger, today: int)
    ensures RuleTarget(db, t, trigger, db.rules, today).Some? <==> RuleFires(db, t, trigger, today)
  {
    hide RuleTarget, Fires;
    RuledToIs(db, t, trigger, today);
  }

  /** Any current request to complete or reopen a task is accepted, unless it is
      pooled and a rule would move it. */
  lemma CompleteAccepted(db: Db, id: Schema.Id, completed: bool, supplied: nat, now: int, today: int)
    requires Consistent(db)
    ensures SetCompleted(db, id, completed, supplied, now, today).Ok?
            <==> id in db.tasks && db.tasks[id].version == supplied
                 && !(db.tasks[id].pool && RuleFires(db, db.tasks[id], if completed then TaskCompleted else TaskReopened, today))
  {
    hide Consistent, CompleteBoth, CompleteSubtask, Automate, RuleFires;
    if id in db.tasks {
      CompletionFace(db, id, completed, now);
      var mid := CompleteSubtask(CompleteBoth(db, id, completed, now).value, db.tasks[id].sourceSubtask, completed);
      var trigger := if completed then TaskCompleted else TaskReopened;
      OutsidePoolAccepts(mid, id, trigger, today);
      CompletedPool(db, id, completed, now);
      if db.tasks[id].pool {
        RuleTargetFrame(mid, db, mid.tasks[id], trigger, db.rules, today);
        RuleTargetFace(db, mid.tasks[id], db.tasks[id], trigger, db.rules, today);
        TargetIfFires(db, db.tasks[id], trigger, today);
      }
    }
  }

  // Completing does not change whether a task is pooled; if it is, only rows change.
  lemma CompletedPool(db: Db, id: Schema.Id, completed: bool, now: int)
    requires Consistent(db) && id in db.tasks && CompleteBoth(db, id, completed, now).Ok?
    ensures var mid := CompleteSubtask(CompleteBoth(db, id, completed, now).value, db.tasks[id].sourceSubtask, completed);
            id in mid.tasks && mid.tasks[id].pool == db.tasks[id].pool
            && (db.tasks[id].pool ==> mid.columns == db.columns && mid.rules == db.rules)
  {
    hide Consistent, CompleteBoth, MirrorExact;
    var t := db.tasks[id];
    MirrorsNotPooled(db, id);
    if t.sourceSubtask.Some? {
      CompleteSubtaskMirror(db, id, t.sourceSubtask.value, completed, now);
    } else if t.sourceTask.Some? {
      CompleteMirror(db, id, t.sourceTask.value, completed, now);
      MirrorsNotPooled(CompleteBoth(db, id, completed, now).value, id);
    } else {
      CompleteCanonical(db, id, completed, now);
      PoolCompletes(db, id, completed, now);
    }
  }

  lemma MirrorsNotPooled(db: Db, id: Schema.Id)
    requires Consistent(db) && id in db.tasks
    ensures !Canonical(db.tasks[id]) ==> !db.tasks[id].pool
    ensures db.tasks[id].pool ==> db.tasks[id].assignee.None?
  {
    RowAt(db, id);
    hide Consistent;
  }

  lemma PoolCompletes(db: Db, id: Schema.Id, completed: bool, now: int)
    requires id in db.tasks && Canonical(db.tasks[id])
    ensures db.tasks[id].assignee.None? ==>
              CompleteBoth(db, id, completed, now).Ok?
              && CompleteBoth(db, id, completed, now).value.columns == db.columns
              && CompleteBoth(db, id, completed, now).value.rules == db.rules
  {
    hide PlaceMirror;
  }

  /** Archiving and deleting a task asks for nothing but the row and its version. */
  lemma ArchiveAccepted(db: Db, id: Schema.Id, archived: bool, supplied: nat, now: int)
    ensures ArchiveTask(db, id, archived, supplied, now).Ok? <==> id in db.tasks && db.tasks[id].version == supplied
    ensures DestroyTask(db, id, supplied).Ok? <==> id in db.tasks && db.tasks[id].version == supplied
  {
    hide SyncMirror;
  }

  /** So does adding, changing and deleting a subtask. */
  lemma SubtaskAccepted(db: Db, id: Schema.Id, name: string, assignee: Option<Schema.Id>, title: Option<string>,
                        user: Option<Option<Schema.Id>>, done: Option<bool>, supplied: nat, now: int)
    requires Consistent(db)
    ensures CreateSubtask(db, id, name, assignee, now).Ok? <==> id in db.tasks
    ensures UpdateSubtask(db, id, supplied, title, user, done, now).Ok? <==> id in db.subtasks && db.subtasks[id].version == supplied
    ensures DeleteSubtask(db, id, supplied).Ok? <==> id in db.subtasks && db.subtasks[id].version == supplied
  {
    hide SyncSubtask, Unlinked;
    TasksOfSubtasks(db);
    hide Consistent;
  }

  // ---------- Columns ----------

  /** A column is added to any board, on the basis of the board's version. */
  lemma ColumnAccepted(db: Db, board: Schema.Id, title: string, supplied: Option<nat>)
    ensures CreateColumnChecked(db, board, title, supplied).Ok? <==> board in db.boards && supplied == Some(VersionOf(db, board))
  {
    hide Added;
  }

  /** An ordinary column can be deleted if it shows no task. */
  lemma DeleteAccepted(db: Db, column: Schema.Id, supplied: nat)
    ensures DeleteColumnChecked(db, column, supplied).Ok?
            <==> column in db.columns && db.columns[column].role == NoRole && !db.columns[column].fixedPosition
                 && (forall t <- db.tasks :: db.tasks[t].column == Some(column) ==> db.tasks[t].archivedAt.Some?)
                 && supplied == VersionOf(db, column)
  {
    hide Removed, ColumnCleared;
    if column in db.columns {
      assert ActiveIn(db.tasks, Some(column)) == {} <==> forall t <- db.tasks :: db.tasks[t].column == Some(column) ==> db.tasks[t].archivedAt.Some? by {
        forall t <- db.tasks ensures t in ActiveIn(db.tasks, Some(column)) <==> db.tasks[t].column == Some(column) && db.tasks[t].archivedAt.None? {
        }
      }
    }
  }

  /** With another column of the board as a target, it may also show tasks. */
  lemma DeleteWithMoveAccepted(db: Db, column: Schema.Id, target: Schema.Id, supplied: nat)
    ensures DeleteColumnWithMoveChecked(db, column, target, supplied).Ok?
            <==> column in db.columns && target in db.columns && column != target
                 && db.columns[column].role == NoRole && !db.columns[column].fixedPosition
                 && db.columns[target].board == db.columns[column].board && supplied == VersionOf(db, column)
  {
    hide Removed, ColumnCleared, Appended, Listing, NextInColumn;
  }

  /** A new order names every column of the board once and leaves the intake
      column on top. */
  lemma OrderAccepted(db: Db, board: Schema.Id, ids: seq<Schema.Id>, supplied: nat)
    ensures ReorderColumnsChecked(db, board, ids, supplied).Ok?
            <==> board in db.boards && supplied == VersionOf(db, board) && ids != []
                 && (forall i, j :: 0 <= i < j < |ids| ==> ids[i] != ids[j])
                 && (forall c :: c in ids <==> c in db.columns && db.columns[c].board == board)
                 && (forall c <- db.columns :: db.columns[c].board == board && db.columns[c].role == NewAssigned ==>
                       db.columns[ids[0]].role == NewAssigned)
  {
    hide Reindexed;
    var all, intake := OnBoard(db.columns, board), WithRole(db.columns, board, NewAssigned);
    forall c ensures c in Members(ids) <==> c in ids {
    }
    forall c ensures c in all <==> c in db.columns && db.columns[c].board == board {
    }
    forall c ensures c in intake <==> c in db.columns && db.columns[c].board == board && db.columns[c].role == NewAssigned {
    }
    hide OnBoard, WithRole, Members;
    if Members(ids) == all && ids != [] {
      assert ids[0] in Members(ids);
    }
  }

  /** What goes with a deleted column: the others of its board close the gap in
      the order they had, and tasks lose the column; nothing else changes. */
  lemma ColumnDeleted(db: Db, column: Schema.Id, supplied: nat)
    requires ColumnsOk(db.columns) && DeleteColumnChecked(db, column, supplied).Ok?
    ensures var after := DeleteColumnChecked(db, column, supplied).value;
            && OneLess(db.columns, after.columns, column) && ClosedUp(db.columns, after.columns, db.columns[column].board)
            && after.tasks.Keys == db.tasks.Keys
            && (forall t <- db.tasks :: after.tasks[t] == if db.tasks[t].column == Some(column) then db.tasks[t].(column := None) else db.tasks[t])
            && after.subtasks == db.subtasks && after.rules == db.rules && after.boards == db.boards
  {
    hide ActiveIn, VersionOf, Removed, ColumnsOk, OneLess, ClosedUp;
    RemovedCloses(db.columns, column);
  }

  ghost predicate OneLess(cols: Cols, after: Cols, column: Schema.Id)
    requires column in cols
  {
    && after.Keys == cols.Keys - {column}
    && (forall c <- after.Keys :: after[c].(position := 0) == cols[c].(position := 0))
    && (forall c <- after.Keys :: cols[c].board != cols[column].board ==> after[c] == cols[c])
  }

  /** The columns left on a board have the first positions, in their old order. */
  ghost predicate ClosedUp(cols: Cols, after: Cols, board: Schema.Id) {
    && (forall c, d :: c in OnBoard(after, board) && d in OnBoard(after, board) && c in cols && d in cols ==>
          (after[c].position < after[d].position <==> cols[c].position < cols[d].position))
    && (forall c <- OnBoard(after, board) :: after[c].position < |OnBoard(after, board)|)
  }

  lemma RemovedCloses(cols: Cols, column: Schema.Id)
    requires ColumnsOk(cols) && column in cols
    ensures OneLess(cols, Removed(cols, column), column) && ClosedUp(cols, Removed(cols, column), cols[column].board)
  {
    hide Reindexed, CompleteOrder, ColumnList, ColumnsOk, OneLess, ClosedUp;
    var left, board := cols - {column}, cols[column].board;
    var ids := ColumnList(left, board);
    ColumnListComplete(left, board);
    ReindexedOnlyPositions(left, board, ids);
    LeftDistinct(cols, column);
    OneLessIs(cols, left, Removed(cols, column), column);
    ReindexedIsRequestedOrder(left, board, ids);
    OrderStays(left, Removed(cols, column), board);
    FromLeft(cols, left, Removed(cols, column), column);
  }

  lemma LeftDistinct(cols: Cols, column: Schema.Id)
    requires ColumnsOk(cols)
    ensures DistinctPositions(cols - {column})
  {
  }

  lemma ReindexedOnlyPositions(cols: Cols, board: Schema.Id, ids: seq<Schema.Id>)
    requires CompleteOrder(cols, board, ids)
    ensures var after := Reindexed(cols, board, ids);
            && after.Keys == cols.Keys && (forall c <- cols.Keys :: after[c].(position := 0) == cols[c].(position := 0))
            && (forall c <- cols.Keys :: cols[c].board != board ==> after[c] == cols[c])
  {
    hide TemporaryBase, IndexOf;
    ReindexedPositions(cols, board, ids);
    hide CompleteOrder;
  }

  lemma OneLessIs(cols: Cols, left: Cols, after: Cols, column: Schema.Id)
    requires column in cols && left == cols - {column} && after.Keys == left.Keys
    requires forall c <- left.Keys :: after[c].(position := 0) == left[c].(position := 0)
    requires forall c <- left.Keys :: left[c].board != cols[column].board ==> after[c] == left[c]
    ensures OneLess(cols, after, column)
  {
  }

  // Numbering the columns along their own list does not change their order.
  lemma OrderStays(cols: Cols, after: Cols, board: Schema.Id)
    requires DistinctPositions(cols) && after.Keys == cols.Keys
    requires forall c <- cols.Keys :: after[c].(position := 0) == cols[c].(position := 0)
    requires var ids := ColumnList(cols, board);
             forall i :: 0 <= i < |ids| ==> ids[i] in after && after[ids[i]].position == i
    ensures ClosedUp(cols, after, board)
  {
    var ids := ColumnList(cols, board);
    assert OnBoard(after, board) == OnBoard(cols, board);
    SortedLists(OnBoard(cols, board), Positions(cols));
    forall c, d | c in OnBoard(after, board) && d in OnBoard(after, board)
      ensures after[c].position < after[d].position <==> cols[c].position < cols[d].position
    {
      var i :| 0 <= i < |ids| && ids[i] == c;
      var j :| 0 <= j < |ids| && ids[j] == d;
      assert i < j ==> Ordering.AtMost(Positions(cols), ids[i], ids[j]);
      assert j < i ==> Ordering.AtMost(Positions(cols), ids[j], ids[i]);
    }
    ListedAll(ids, OnBoard(after, board));
    forall c <- OnBoard(after, board) ensures after[c].position < |ids| {
      assert c in ids;
    }
  }

  lemma ListedAll(ids: seq<Schema.Id>, all: set<Schema.Id>)
    requires NoDuplicates(ids) && forall x :: x in ids <==> x in all
    ensures |ids| == |all|
  {
    assert all == Members(ids);
    MembersCount(ids);
  }

  lemma {:induction false} MembersCount(ids: seq<Schema.Id>)
    requires NoDuplicates(ids)
    ensures |Members(ids)| == |ids|
  {
    if ids != [] {
      var n := |ids| - 1;
      MembersCount(ids[..n]);
      assert ids == ids[..n] + [ids[n]];
      assert Members(ids) == Members(ids[..n]) + {ids[n]};
      assert ids[n] !in Members(ids[..n]);
    }
  }

  lemma FromLeft(cols: Cols, left: Cols, after: Cols, column: Schema.Id)
    requires column in cols && left == cols - {column} && after.Keys == left.Keys && ClosedUp(left, after, cols[column].board)
    ensures ClosedUp(cols, after, cols[column].board)
  {
  }
}
