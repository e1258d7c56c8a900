/** Where the services put a task, in terms of boards, columns and owners
    (apps/workspaces/services.py). */
module Destinations {
  import opened Boards
  import opened Columns
  import opened Consistency
  import opened History
  import opened Lifecycle
  import opened Mirroring
  import opened Options
  import opened Ordering
  import opened Placement
  import opened Promises
  import opened Schema
  import opened Subtasks
  import opened Tasks
  import opened Workspace

  // ---------- The column for incoming tasks ----------

  /** Whoever uses the dynamic column has incoming tasks in it, at the very top
      of the board; others have them in the first ordinary column, or in the
      intake column if the board has no other. */
  ghost predicate TakesIncoming(db: Db, user: Schema.Id, board: Schema.Id, column: Schema.Id) {
    && column in db.columns && db.columns[column].board == board
    && (Dynamic(db, user) ==> db.columns[column].role == NewAssigned && db.columns[column].position == 0)
    && (!Dynamic(db, user) ==>
          if exists c :: c in db.columns && db.columns[c].board == board && db.columns[c].role != NewAssigned then
            && db.columns[column].role != NewAssigned
            && forall c <- db.columns :: db.columns[c].board == board && db.columns[c].role != NewAssigned && c != column ==>
                 db.columns[column].position < db.columns[c].position
          else db.columns[column].role == NewAssigned)
  }

  lemma IntakeTakesIncoming(db: Db, user: Schema.Id)
    requires WellFormed(db)
    ensures var (after, board, column) := Intake(db, user);
            && WellFormed(after) && after.staticColumns == db.staticColumns
            && HomeFor(after, user, board, column) && TakesIncoming(after, user, board, column)
  {
    IntakeOk(db, user);
    EnsureBoardOk(db, user);
    var (db1, board) := EnsureBoard(db, user);
    hide EnsureBoard, Intake;
    WithIntakeTakesIncoming(db1, board, user);
    hide WithIntake, WellFormed;
    IntakeIsBoth(db, user);
  }

  lemma IntakeIsBoth(db: Db, user: Schema.Id)
    ensures var (db1, board) := EnsureBoard(db, user);
            var (db2, column) := WithIntake(db1, board, user);
            Intake(db, user) == (db2, board, column)
  {
    hide EnsureBoard, WithIntake;
  }

  lemma WithIntakeTakesIncoming(db: Db, board: Schema.Id, user: Schema.Id)
    requires WellFormed(db) && board in db.boards
    ensures var (after, column) := WithIntake(db, board, user); TakesIncoming(after, user, board, column)
  {
    NextIdUnused(db);
    WithIntakeOk(db, board, user);
    var (after, column) := WithIntake(db, board, user);
    FirstColumnIs(db.columns, board, after, column, user, db.nextId);
  }

  lemma FirstColumnIs(cols: Cols, board: Schema.Id, after: Db, column: Schema.Id, user: Schema.Id, newId: Schema.Id)
    requires WellFormed(after) && newId !in cols
    requires (after.columns, column) == EnsureIntake(cols, board, Dynamic(after, user), newId)
    requires column in after.columns && after.columns[column].board == board
    ensures TakesIncoming(after, user, board, column)
  {
    hide IdsDrawn, ProjectsHaveBoards, OnePersonalBoard, ColumnsHaveBoards;
    if Dynamic(after, user) {
      assert after.columns[column].role == NewAssigned;
    } else {
      assert WithRole(cols, board, NewAssigned) + Ordinary(cols, board) == OnBoard(cols, board);
      var ordinary := Ordinary(cols, board);
      if ordinary != {} {
        assert after.columns == cols && IsFirst(column, ordinary, Positions(cols));
        forall c <- after.columns | after.columns[c].board == board && after.columns[c].role != NewAssigned && c != column
          ensures after.columns[column].position < after.columns[c].position
        {
          assert c in ordinary && Ordering.AtMost(Positions(cols), column, c);
        }
      } else {
        forall c <- cols | cols[c].board == board
          ensures cols[c].role == NewAssigned && c in WithRole(cols, board, NewAssigned)
        {
          assert c !in ordinary;
        }
      }
    }
  }

  // ---------- Delivery to a user ----------

  /** The other tasks a column shows come before this one. */
  ghost predicate LastInColumn(db: Db, id: Schema.Id) {
    id in db.tasks && forall o <- ActiveIn(db.tasks, db.tasks[id].column) :: o != id ==> db.tasks[o].position < db.tasks[id].position
  }

  /** The task is the user's, last in the column for incoming tasks of the
      user's board, out of every pool and project, with its origin remembered. */
  ghost predicate Delivered(before: Task, db: Db, id: Schema.Id, user: Schema.Id) {
    id in db.tasks &&
    var t := db.tasks[id];
    && t.column.Some? && HomeFor(db, user, t.board, t.column.value) && TakesIncoming(db, user, t.board, t.column.value)
    && LastInColumn(db, id) && t.workspace == db.boards[t.board].workspace
    && t.assignee == Some(user) && !t.pool && t.project.None? && t.poolSource == Origin(before)
    && OnlyHandedOver(before, t)
  }

  /** Everything else stays as it is; what was to be reviewed is settled. */
  predicate OnlyHandedOver(before: Task, t: Task) {
    && !t.requiresReview && t.reviewHint == "" && t.version == before.version + 1
    && t.content == before.content && t.owner == before.owner && t.parent == before.parent
    && t.done == before.done && t.completedAt == before.completedAt && t.archivedAt == before.archivedAt
  }

  lemma SentIsDelivered(db: Db, id: Schema.Id, user: Schema.Id)
    requires WellFormed(db) && id in db.tasks
    ensures Delivered(db.tasks[id], SendTo(db, id, Origin(db.tasks[id]), user), id, user)
  {
    var (mid, board, column) := Intake(db, user);
    IntakeTakesIncoming(db, user);
    SameRowInIntake(db, user, id);
    NextIsAboveAll(mid.tasks, Some(column));
    hide Intake, WellFormed, NextInColumn, TakesIncoming, LastInColumn;
    var after := SendTo(db, id, Origin(db.tasks[id]), user);
    SameTakesIncoming(mid, after, user, board, column);
    AppendedIsLast(mid, id, after.tasks[id], column);
    SentHandsOver(db, id, Origin(db.tasks[id]), user);
    hide OnlyHandedOver;
  }

  lemma SentHandsOver(db: Db, id: Schema.Id, poolSource: Option<Schema.Id>, user: Schema.Id)
    requires id in db.tasks
    ensures id in SendTo(db, id, poolSource, user).tasks && OnlyHandedOver(db.tasks[id], SendTo(db, id, poolSource, user).tasks[id])
  {
    hide Intake, NextInColumn;
  }

  lemma AppendedIsLast(db: Db, id: Schema.Id, row: Task, column: Schema.Id)
    requires row.column == Some(column) && forall t <- ActiveIn(db.tasks, Some(column)) :: db.tasks[t].position < row.position
    ensures LastInColumn(WithTask(db, id, row), id)
  {
    var after := WithTask(db, id, row);
    forall o <- ActiveIn(after.tasks, Some(column)) | o != id
      ensures after.tasks[o].position < after.tasks[id].position
    {
      assert o in ActiveIn(db.tasks, Some(column));
    }
  }

  lemma NextIsAboveAll(tasks: map<Schema.Id, Task>, column: Option<Schema.Id>)
    ensures forall t <- ActiveIn(tasks, column) :: tasks[t].position < NextInColumn(tasks, column)
  {
    var used := set t | t in ActiveIn(tasks, column) :: tasks[t].position;
    forall t <- ActiveIn(tasks, column) ensures tasks[t].position in used {
    }
    hide NextFree;
  }

  /** Appending to a column is one behind the last active task there, or at zero. */
  lemma NextIsOneBehind(tasks: map<Schema.Id, Task>, column: Option<Schema.Id>)
    ensures forall t <- tasks :: tasks[t].column == column && tasks[t].archivedAt.None? ==> tasks[t].position < NextInColumn(tasks, column)
    ensures NextInColumn(tasks, column) == 0 || exists t <- tasks :: tasks[t].column == column && tasks[t].archivedAt.None?
                                                                     && tasks[t].position == NextInColumn(tasks, column) - 1
  {
    NextIsAboveAll(tasks, column);
    var used := set t | t in ActiveIn(tasks, column) :: tasks[t].position;
    if used != {} {
      assert NextFree(used) - 1 in used;
    }
    hide NextFree;
  }

  /** Queueing in a pool is one behind the last waiting task, or at zero. */
  lemma NextWaitsBehind(tasks: map<Schema.Id, Task>, project: Option<Schema.Id>)
    ensures forall t <- tasks :: WaitsIn(tasks[t], project) ==> tasks[t].position < NextInPool(tasks, project)
    ensures NextInPool(tasks, project) == 0 || exists t <- tasks :: WaitsIn(tasks[t], project) && tasks[t].position == NextInPool(tasks, project) - 1
  {
    var used := set t | t in tasks && tasks[t].project == project && tasks[t].pool && tasks[t].archivedAt.None? :: tasks[t].position;
    forall t <- tasks | WaitsIn(tasks[t], project) ensures tasks[t].position in used {
    }
    if used != {} {
      assert NextFree(used) - 1 in used;
    }
    hide NextFree;
  }

  lemma SameTakesIncoming(a: Db, b: Db, user: Schema.Id, board: Schema.Id, column: Schema.Id)
    requires a.columns == b.columns && a.staticColumns == b.staticColumns && TakesIncoming(a, user, board, column)
    ensures TakesIncoming(b, user, board, column)
  {
  }

  /** Deleting other rows does not disturb a delivery. */
  lemma DeliveredAfterDelete(before: Task, db: Db, id: Schema.Id, user: Schema.Id, doomed: set<Schema.Id>)
    requires Delivered(before, db, id, user) && id in DeleteTasks(db, doomed).tasks
    ensures Delivered(before, DeleteTasks(db, doomed), id, user)
  {
    hide DeleteTasks, TakesIncoming, LastInColumn;
    var after := DeleteTasks(db, doomed);
    DeletedRows(db, doomed);
    StillLast(db, after, id);
    SameTakesIncoming(db, after, user, db.tasks[id].board, db.tasks[id].column.value);
  }

  lemma DeletedRows(db: Db, doomed: set<Schema.Id>)
    ensures var after := DeleteTasks(db, doomed);
            && after.boards == db.boards && after.columns == db.columns && after.staticColumns == db.staticColumns
            && forall o <- after.tasks :: o in db.tasks && SameBesidesLinks(db.tasks[o], after.tasks[o])
  {
    hide Family, SubtasksOf, Unlinked, SameBesidesLinks;
    forall o <- DeleteTasks(db, doomed).tasks ensures o in db.tasks && SameBesidesLinks(db.tasks[o], DeleteTasks(db, doomed).tasks[o]) {
      UnlinkedRow(db.tasks[o], Family(db, doomed), SubtasksOf(db, Family(db, doomed)));
    }
  }

  predicate SameBesidesLinks(t: Task, u: Task) {
    u == t.(sourceTask := u.sourceTask, sourceSubtask := u.sourceSubtask)
  }

  lemma UnlinkedRow(t: Task, tasks: set<Schema.Id>, subtasks: set<Schema.Id>)
    ensures SameBesidesLinks(t, Unlinked(t, tasks, subtasks))
  {
  }

  // Fewer rows leave the last one the last.
  lemma StillLast(db: Db, after: Db, id: Schema.Id)
    requires LastInColumn(db, id) && id in after.tasks
    requires forall o <- after.tasks :: o in db.tasks && after.tasks[o].position == db.tasks[o].position
               && after.tasks[o].column == db.tasks[o].column && after.tasks[o].archivedAt == db.tasks[o].archivedAt
    ensures LastInColumn(after, id)
  {
    forall o <- ActiveIn(after.tasks, after.tasks[id].column) | o != id
      ensures after.tasks[o].position < after.tasks[id].position
    {
      assert o in ActiveIn(db.tasks, db.tasks[id].column);
    }
  }

  lemma SyncOnPersonalBoard(db: Db, id: Schema.Id)
    requires id in db.tasks && OnPersonalBoard(db, db.tasks[id])
    ensures SyncMirror(db, id) == DeleteTasks(db, AssignmentMirrors(db, id))
  {
    hide DeleteTasks, PlaceMirror;
  }

  lemma DeliveredOnBoard(before: Task, db: Db, id: Schema.Id, user: Schema.Id)
    requires Delivered(before, db, id, user)
    ensures id in db.tasks && OnPersonalBoard(db, db.tasks[id])
  {
    hide TakesIncoming, LastInColumn;
  }

  lemma ClearedKeepsDelivery(before: Task, db: Db, id: Schema.Id, user: Schema.Id, task: Schema.Id, claimer: Schema.Id)
    requires Delivered(before, db, id, user)
    ensures Delivered(before, ClearedSubtasks(db, task, claimer), id, user)
  {
    hide TakesIncoming;
    SameTakesIncoming(db, ClearedSubtasks(db, task, claimer), user, db.tasks[id].board, db.tasks[id].column.value);
  }

  /** claim_pool_task delivers the task to the claiming user. */
  lemma ClaimDelivers(db: Db, id: Schema.Id, user: Schema.Id)
    requires Consistent(db) && ClaimTask(db, id, user).Ok?
    ensures Delivered(db.tasks[id], ClaimTask(db, id, user).value, id, user)
    ensures forall s <- ClaimTask(db, id, user).value.subtasks :: ClaimTask(db, id, user).value.subtasks[s].task == id ==>
              ClaimTask(db, id, user).value.subtasks[s].assignee in {None, Some(user)}
  {
    hide Consistent, WellFormed, RowsOk, LinksOk, UniqueMirrors, SubtasksAgree, RouteKeysUnique, AgreeExcept, SendTo, Delivered, MirrorExact, DeleteTasks;
    Apart(db);
    PooledIsCanonical(db, id);
    ClaimKeeps(db, id, user);
    SentIsDelivered(db, id, user);
    var sent := SendTo(db, id, db.tasks[id].project, user);
    var cleared := ClearedSubtasks(sent, id, user);
    ClearedKeepsDelivery(db.tasks[id], sent, id, user, id, user);
    DeliveredOnBoard(db.tasks[id], cleared, id, user);
    SyncOnPersonalBoard(cleared, id);
    DeliveredAfterDelete(db.tasks[id], cleared, id, user, AssignmentMirrors(cleared, id));
    SubtasksShrink(cleared, AssignmentMirrors(cleared, id));
    hide SyncMirror;
  }

  lemma SubtasksShrink(db: Db, doomed: set<Schema.Id>)
    ensures forall s <- DeleteTasks(db, doomed).subtasks :: s in db.subtasks && DeleteTasks(db, doomed).subtasks[s] == db.subtasks[s]
  {
    hide Family, SubtasksOf, Unlinked;
  }

  /** A claim leaves the mirrors of subtasks alone, though their task is no
      longer on a project board: a subtask is right afterwards exactly if it had
      no mirror before. */
  lemma ClaimForgetsSubtaskMirrors(db: Db, id: Schema.Id, user: Schema.Id, s: Schema.Id)
    requires Consistent(db) && ClaimTask(db, id, user).Ok? && s in db.subtasks && db.subtasks[s].task == id
    ensures forall m <- SubtaskMirrors(db, s) :: m in ClaimTask(db, id, user).value.tasks
              && ClaimTask(db, id, user).value.tasks[m] == db.tasks[m]
    ensures SubtaskMirrorExact(ClaimTask(db, id, user).value, s) <==> SubtaskMirrors(db, s) == {}
  {
    hide Consistent, SendTo, SyncMirror, Intake, MirrorExact, ClaimTask;
    ClaimedOnPersonalBoard(db, id, user);
    ClaimTouchesOne(db, id, user);
    var after := ClaimTask(db, id, user).value;
    forall t <- after.tasks | after.tasks[t].sourceSubtask == Some(s)
      ensures t in SubtaskMirrors(db, s)
    {
    }
    forall m <- SubtaskMirrors(db, s)
      ensures m in after.tasks && after.tasks[m] == db.tasks[m]
    {
    }
  }

  lemma ClaimedOnPersonalBoard(db: Db, id: Schema.Id, user: Schema.Id)
    requires Consistent(db) && ClaimTask(db, id, user).Ok?
    ensures var after := ClaimTask(db, id, user).value; id in after.tasks && OnPersonalBoard(after, after.tasks[id])
  {
    hide Consistent, ClaimTask, TakesIncoming, LastInColumn;
    ClaimDelivers(db, id, user);
  }

  /** One task changes, the others and the tasks of all subtasks stay. */
  ghost predicate OneTaskDiffers(before: Db, after: Db, id: Schema.Id) {
    && id in before.tasks && after.tasks.Keys == before.tasks.Keys && after.subtasks.Keys == before.subtasks.Keys
    && Canonical(before.tasks[id]) && Canonical(after.tasks[id])
    && (forall t <- before.tasks :: t != id ==> after.tasks[t] == before.tasks[t])
    && (forall s <- before.subtasks :: after.subtasks[s].task == before.subtasks[s].task)
  }

  lemma ClearedDiffers(db: Db, sent: Db, id: Schema.Id, user: Schema.Id)
    requires id in db.tasks && id in sent.tasks && Canonical(db.tasks[id]) && Canonical(sent.tasks[id])
    requires sent.subtasks == db.subtasks && sent.tasks == db.tasks[id := sent.tasks[id]]
    ensures OneTaskDiffers(db, ClearedSubtasks(sent, id, user), id)
  {
  }

  lemma ClaimTouchesOne(db: Db, id: Schema.Id, user: Schema.Id)
    requires Consistent(db) && ClaimTask(db, id, user).Ok?
    ensures OneTaskDiffers(db, ClaimTask(db, id, user).value, id)
  {
    SentTouchesOne(db, id, user);
    ClaimIsSend(db, id, user);
    hide Consistent, SendTo, ClaimTask, OneTaskDiffers, ClearedSubtasks;
    ClearedDiffers(db, SendTo(db, id, db.tasks[id].project, user), id, user);
  }

  lemma SentTouchesOne(db: Db, id: Schema.Id, user: Schema.Id)
    requires Consistent(db) && id in db.tasks && db.tasks[id].pool
    ensures Canonical(db.tasks[id])
    ensures var sent := SendTo(db, id, db.tasks[id].project, user);
            && id in sent.tasks && Canonical(sent.tasks[id]) && sent.subtasks == db.subtasks
            && sent.tasks == db.tasks[id := sent.tasks[id]]
  {
    hide Consistent, SendTo, Intake, RowOk;
    PooledIsCanonical(db, id);
    SendToWrites(db, id, db.tasks[id].project, user);
  }

  // A pool task has no mirror, so the synchronisation has nothing to delete.
  lemma ClaimIsSend(db: Db, id: Schema.Id, user: Schema.Id)
    requires Consistent(db) && ClaimTask(db, id, user).Ok?
    ensures ClaimTask(db, id, user) == Ok(ClearedSubtasks(SendTo(db, id, db.tasks[id].project, user), id, user))
  {
    var cleared := ClearedSubtasks(SendTo(db, id, db.tasks[id].project, user), id, user);
    hide Consistent, SendTo, SyncMirror, DeleteTasks;
    ClaimDeliversSent(db, id, user);
    SyncOnPersonalBoard(cleared, id);
    SentHasNoMirror(db, id, user);
    DeleteNothing(cleared);
  }

  lemma SentHasNoMirror(db: Db, id: Schema.Id, user: Schema.Id)
    requires Consistent(db) && id in db.tasks && db.tasks[id].pool
    ensures AssignmentMirrors(ClearedSubtasks(SendTo(db, id, db.tasks[id].project, user), id, user), id) == {}
  {
    PooledIsCanonical(db, id);
    PooledHasNoMirror(db, id);
    SendToWrites(db, id, db.tasks[id].project, user);
    hide Consistent, SendTo, Intake;
  }

  lemma ClaimDeliversSent(db: Db, id: Schema.Id, user: Schema.Id)
    requires Consistent(db) && id in db.tasks && db.tasks[id].pool
    ensures var cleared := ClearedSubtasks(SendTo(db, id, db.tasks[id].project, user), id, user);
            id in cleared.tasks && OnPersonalBoard(cleared, cleared.tasks[id])
  {
    hide Consistent, SendTo, Delivered, WellFormed;
    Apart(db);
    PooledIsCanonical(db, id);
    SentIsDelivered(db, id, user);
    DeliveredOnBoard(db.tasks[id], SendTo(db, id, db.tasks[id].project, user), id, user);
  }

  lemma PooledHasNoMirror(db: Db, id: Schema.Id)
    requires Consistent(db) && id in db.tasks && db.tasks[id].pool
    ensures forall m <- db.tasks :: !(IsAssignmentMirror(db.tasks[m]) && db.tasks[m].sourceTask == Some(id))
  {
    PooledIsCanonical(db, id);
    RowAt(db, id);
    Apart(db);
    hide WellFormed, RowsOk, LinksOk, UniqueMirrors, SubtasksAgree, RouteKeysUnique;
  }

  /** A hand-over delivers the task to the new assignee. Rules may move it on
      within that user's board afterwards. */
  lemma HandOverDelivers(db: Db, id: Schema.Id, p: Patch)
    requires Consistent(db) && id in db.tasks && Canonical(db.tasks[id])
    requires !Releases(db.tasks[id], p) && HandsOver(db, db.tasks[id], p)
    ensures var user := RequestedAssignee(db.tasks[id], p).value;
            && Routed(db, id, p).Ok? && id in Routed(db, id, p).value.tasks
            && Delivered(db.tasks[id], SyncMirror(Routed(db, id, p).value, id), id, user)
  {
    Apart(db);
    hide Consistent, WellFormed, RowsOk, LinksOk, UniqueMirrors, SubtasksAgree, RouteKeysUnique, AgreeExcept, SendTo, Delivered, Writes, Routed;
    var user := RequestedAssignee(db.tasks[id], p).value;
    HandOverWrites(db, id, p);
    SentIsDelivered(db, id, user);
    var sent := SendTo(db, id, Origin(db.tasks[id]), user);
    DeliveredOnBoard(db.tasks[id], sent, id, user);
    SyncOnPersonalBoard(sent, id);
    HandedOverSurvives(db, id, user);
    DeliveredAfterDelete(db.tasks[id], sent, id, user, AssignmentMirrors(sent, id));
  }

  lemma HandedOverSurvives(db: Db, id: Schema.Id, user: Schema.Id)
    requires Consistent(db) && id in db.tasks && Canonical(db.tasks[id])
    ensures id in SendTo(db, id, Origin(db.tasks[id]), user).tasks
    ensures id in SyncMirror(SendTo(db, id, Origin(db.tasks[id]), user), id).tasks
  {
    hide Consistent, SendTo, SyncMirror, Settled, Intake;
    SendToWrites(db, id, Origin(db.tasks[id]), user);
    var sent := SendTo(db, id, Origin(db.tasks[id]), user);
    WriteAndSync(Intake(db, user).0, id, sent.tasks[id]);
    SettledHas(sent, id, sent.tasks[id]);
  }

  // ---------- The place of an assignment mirror ----------

  /** A new mirror arrives last in the assignee's column for incoming tasks, not
      archived and with a hint where it comes from; a mirror that stays keeps its
      place and hint and takes over the archive date. */
  ghost predicate MirrorsInPlace(before: Db, after: Db, id: Schema.Id, user: Schema.Id) {
    id in after.tasks && forall m <- MirrorRows(after, id) ::
      if m in before.tasks then
        && after.tasks[m].board == before.tasks[m].board && after.tasks[m].column == before.tasks[m].column
        && after.tasks[m].position == before.tasks[m].position
        && after.tasks[m].requiresReview == before.tasks[m].requiresReview && after.tasks[m].reviewHint == before.tasks[m].reviewHint
        && after.tasks[m].archivedAt == after.tasks[id].archivedAt && after.tasks[m].version == before.tasks[m].version + 1
      else
        && !after.tasks[m].requiresReview && after.tasks[m].reviewHint == "Zuweisung aus einem geteilten Projekt."
        && after.tasks[m].archivedAt.None? && after.tasks[m].version == 1
        && after.tasks[m].column.Some? && LastInColumn(after, m)
        && TakesIncoming(after, user, after.tasks[m].board, after.tasks[m].column.value)
  }

  lemma NewMirrorInPlace(before: Db, db: Db, id: Schema.Id, user: Schema.Id, board: Schema.Id, column: Schema.Id)
    requires id in db.tasks && board in db.boards && MirrorRows(db, id) == {}
    requires db.nextId !in before.tasks && db.nextId !in db.tasks && TakesIncoming(db, user, board, column)
    ensures MirrorsInPlace(before, WithNew(db, MirrorFor(db, id, board, column, NextInColumn(db.tasks, Some(column)))), id, user)
  {
    var row := MirrorFor(db, id, board, column, NextInColumn(db.tasks, Some(column)));
    var after := WithNew(db, row);
    assert row.column == Some(column) && row.board == board && row.position == NextInColumn(db.tasks, Some(column));
    NextIsAboveAll(db.tasks, Some(column));
    SameTakesIncoming(db, after, user, board, column);
    hide TakesIncoming, NextInColumn, MirrorFor;
    forall m <- MirrorRows(after, id)
      ensures m == db.nextId
    {
      assert m != db.nextId ==> m in MirrorRows(db, id);
    }
    forall o <- ActiveIn(after.tasks, Some(column)) | o != db.nextId
      ensures after.tasks[o].position < row.position
    {
      assert o in ActiveIn(db.tasks, Some(column));
    }
  }

  lemma OldMirrorInPlace(before: Db, db: Db, id: Schema.Id, user: Schema.Id, m: Schema.Id)
    requires id in db.tasks && MirrorRows(db, id) == {m} && m in before.tasks && m in db.tasks && db.tasks[m] == before.tasks[m]
    requires db.tasks[m].board in db.boards
    ensures MirrorsInPlace(before, WithTask(db, m, Refreshed(db, id, m)), id, user)
  {
    forall k <- MirrorRows(WithTask(db, m, Refreshed(db, id, m)), id)
      ensures k == m
    {
      assert k != m ==> k in MirrorRows(db, id);
    }
    hide TakesIncoming, LastInColumn;
  }

  lemma ProvidedIncoming(db: Db, id: Schema.Id, user: Schema.Id)
    requires WellFormed(db)
    ensures var (db1, board, column) := Intake(db, user); TakesIncoming(Provided(db, id, user), user, board, column)
  {
    hide WellFormed, Intake, MirrorRows, OnBoardIds, TakesIncoming;
    IntakeTakesIncoming(db, user);
    var (db1, board, column) := Intake(db, user);
    var gone := MirrorRows(db, id) - OnBoardIds(db, MirrorRows(db, id), board);
    PrunedIds(db1, gone);
    assert DeleteTasks(db1, gone).staticColumns == db1.staticColumns;
    hide DeleteTasks;
    SameTakesIncoming(db1, DeleteTasks(db1, gone), user, board, column);
  }

  lemma SyncPutsMirror(db: Db, id: Schema.Id, user: Schema.Id)
    requires Core(db) && AgreeExcept(db, Some(id)) && Assigned(db, id, user)
    ensures MirrorsInPlace(db, SyncMirror(db, id), id, user)
  {
    hide Core, AgreeExcept, OnlyMirrorsDiffer, PlaceMirror, NextInColumn, Intake, Provided, MirrorsInPlace, MirrorRows, MirrorFor, Refreshed, WellFormed, RowsOk, LinksOk, TakesIncoming;
    ProvidedOk(db, id, user);
    PlaceMirrorIs(db, id, user);
    CoreParts(db);
    ProvidedIds(db, id, user);
    ProvidedIncoming(db, id, user);
    var (db1, board, column) := Intake(db, user);
    var db2, here := Provided(db, id, user), OnBoardIds(db, MirrorRows(db, id), board);
    CoreParts(db2);
    if here == {} {
      NewMirrorInPlace(db, db2, id, user, board, column);
    } else {
      var m :| m in here && here == {m} && m in db2.tasks && db2.tasks[m].board == board
               && PlaceMirror(db, id, user) == WithTask(db2, m, Refreshed(db2, id, m));
      OldMirrorInPlace(db, db2, id, user, m);
    }
  }

  // ---------- Return, creation and edit ----------

  /** A returned task is back in the project it was claimed from, or else in its
      own, behind the other tasks of the pool. */
  lemma ReturnQueuesLast(db: Db, id: Schema.Id, p: Patch)
    requires id in db.tasks && Releases(db.tasks[id], p) && Routed(db, id, p).Ok?
    ensures var t, after := db.tasks[id], Routed(db, id, p).value;
            && id in after.tasks && after.tasks[id].pool && after.tasks[id].column.None? && after.tasks[id].assignee.None?
            && after.tasks[id].project == after.tasks[id].poolSource == (if t.poolSource.Some? then t.poolSource else t.project)
            && forall o <- after.tasks :: o != id && WaitsIn(after.tasks[o], after.tasks[id].project) ==>
                 after.tasks[o].position < after.tasks[id].position
  {
    hide Releases;
    var source := ReleaseProject(db.tasks[id]);
    var used := set t | t in db.tasks && db.tasks[t].project == source && db.tasks[t].pool && db.tasks[t].archivedAt.None? :: db.tasks[t].position;
    assert NextInPool(db.tasks, source) == NextFree(used);
    forall o <- db.tasks | WaitsIn(db.tasks[o], source) ensures db.tasks[o].position in used {
    }
    hide NextFree, NextInPool;
  }

  predicate WaitsIn(t: Task, project: Option<Schema.Id>) {
    t.pool && t.project == project && t.archivedAt.None?
  }

  /** Where a new task goes: to the requested user's board, or to the pool, the
      requested column or the first column of the project's board. */
  lemma CreationPlace(db: Db, board: Schema.Id, data: NewTask)
    requires Consistent(db) && board in db.boards && ColumnFits(db, data.column, board)
    ensures var (db1, target, assignee, column) := Destination(db, board, data);
            match db.boards[board]
            case PersonalBoard(_, owner) =>
              var user := if data.assignee.Some? then data.assignee.value else owner;
              && assignee == Some(user) && column.Some? && HomeFor(db1, user, target, column.value)
              && TakesIncoming(db1, user, target, column.value)
            case ProjectBoard(_, _) =>
              && db1 == db && target == board && assignee == data.assignee
              && (data.pool && data.assignee.None? ==> column.None?)
              && (!(data.pool && data.assignee.None?) && data.column.Some? ==> column == data.column)
              && (!(data.pool && data.assignee.None?) && data.column.None? ==>
                    if OnBoard(db.columns, board) == {} then column.None?
                    else column.Some? && column.value in OnBoard(db.columns, board)
                         && forall c <- OnBoard(db.columns, board) :: db.columns[column.value].position <= db.columns[c].position)
  {
    Apart(db);
    hide Consistent, Intake, WithIntake, RowsOk, LinksOk, UniqueMirrors, SubtasksAgree, RouteKeysUnique, AgreeExcept, TakesIncoming, ColumnFits;
    match db.boards[board]
    case PersonalBoard(_, owner) =>
      if data.assignee.Some? && data.assignee.value != owner {
        hide WellFormed;
        IntakeTakesIncoming(db, data.assignee.value);
      } else {
        WithIntakeOk(db, board, owner);
        WithIntakeTakesIncoming(db, board, owner);
      }
    case ProjectBoard(_, _) =>
      hide WellFormed;
      FirstColumnIsLeast(db.columns, board);
  }

  lemma FirstColumnIsLeast(cols: Cols, board: Schema.Id)
    ensures var first := FirstOf(cols, OnBoard(cols, board));
            && (first.None? <==> OnBoard(cols, board) == {})
            && (first.Some? ==>
                  && first.value in OnBoard(cols, board)
                  && forall c <- OnBoard(cols, board) :: cols[first.value].position <= cols[c].position)
  {
    if OnBoard(cols, board) != {} {
      var first := First(OnBoard(cols, board), Positions(cols));
      assert IsFirst(first, OnBoard(cols, board), Positions(cols));
      forall c <- OnBoard(cols, board) ensures cols[first].position <= cols[c].position {
        assert Ordering.AtMost(Positions(cols), first, c);
      }
    }
  }

  /** The fields of a request that supplies some and leaves the others. */
  predicate ContentApplied(before: Content, after: Content, p: ContentPatch) {
    && after.title == (if p.title.Some? then p.title.value else before.title)
    && after.description == (if p.description.Some? then p.description.value else before.description)
    && after.priority == (if p.priority.Some? then p.priority.value else before.priority)
    && after.startDate == (if p.startDate.Some? then p.startDate.value else before.startDate)
    && after.dueDate == (if p.dueDate.Some? then p.dueDate.value else before.dueDate)
    && after.dueTime == (if p.dueTime.Some? then p.dueTime.value else before.dueTime)
    && after.tags == (if p.tags.Some? then p.tags.value else before.tags)
  }

  /** What an ordinary edit saves. It never takes a task off its board or out of
      its project. A task that stays in its pool queues behind the others; any
      other is in the requested column if there is one, at its end if that is
      another column, and else keeps column and position. */
  ghost predicate EditSaved(db: Db, after: Db, id: Schema.Id, p: Patch)
    requires id in db.tasks
  {
    id in after.tasks && after == db.(tasks := db.tasks[id := after.tasks[id]]) &&
    var t, u := db.tasks[id], after.tasks[id];
    var requested := if p.column.Some? then p.column else t.column;
    && FieldsEdited(t, u, p)
    && if u.pool then
         && u.column.None?
         && forall o <- after.tasks :: o != id && WaitsIn(after.tasks[o], u.project) ==> after.tasks[o].position < u.position
       else
         && u.column == requested
         && if requested == t.column then u.position == t.position else LastInColumn(after, id)
  }

  ghost predicate FieldsEdited(t: Task, u: Task, p: Patch) {
    var assignee := if p.assignee.Some? then p.assignee.value else t.assignee;
    && ContentApplied(t.content, u.content, p.content)
    && u.requiresReview == (if p.requiresReview.Some? then p.requiresReview.value else t.requiresReview)
    && u.reviewHint == (if p.reviewHint.Some? then p.reviewHint.value else t.reviewHint)
    && (u.pool <==> t.pool && assignee.None? && p.pool != Some(false))
    && u.assignee == (if u.pool then None else assignee)
    && u.version == t.version + 1
    && u.workspace == t.workspace && u.board == t.board && u.project == t.project && u.poolSource == t.poolSource
    && u.parent == t.parent && u.sourceTask == t.sourceTask && u.sourceSubtask == t.sourceSubtask
    && u.owner == t.owner && u.done == t.done && u.completedAt == t.completedAt && u.archivedAt == t.archivedAt
  }

  lemma EditStays(db: Db, id: Schema.Id, p: Patch)
    requires id in db.tasks && !Releases(db.tasks[id], p) && !HandsOver(db, db.tasks[id], p)
    ensures Routed(db, id, p).Ok? && EditSaved(db, Routed(db, id, p).value, id, p)
  {
    hide Routed, Edited, NextInColumn, NextInPool, LastInColumn, FieldsEdited, WaitsIn;
    var row := Raised(Edited(db, db.tasks[id], p));
    EditedIs(db, id, p);
    EditedFieldsAre(db, db.tasks[id], p);
    EditedPlace(db, db.tasks[id], p);
    NextIsAboveAll(db.tasks, p.column);
    NextIsBehindAll(db, id, row);
    if !row.pool && p.column.Some? && row.column != db.tasks[id].column {
      AppendedIsLast(db, id, row, p.column.value);
    }
    hide Releases, HandsOver;
  }

  lemma EditedFieldsAre(db: Db, t: Task, p: Patch)
    requires !Releases(t, p)
    ensures FieldsEdited(t, Raised(Edited(db, t, p)), p)
  {
    hide NextInColumn, NextInPool, ContentApplied, Patched;
    PatchedIs(t.content, p.content);
  }

  lemma EditedPlace(db: Db, t: Task, p: Patch)
    ensures var u := Raised(Edited(db, t, p));
            && (u.pool ==> u.column.None? && u.position == NextInPool(db.tasks, u.project))
            && (!u.pool ==> u.column == (if p.column.Some? then p.column else t.column)
                            && u.position == if u.column == t.column then t.position else NextInColumn(db.tasks, p.column))
  {
    hide NextInColumn, NextInPool, Patched;
  }

  lemma PatchedIs(c: Content, p: ContentPatch)
    ensures ContentApplied(c, Patched(c, p), p)
  {
  }

  // In the pool, the next position is behind all.
  lemma NextIsBehindAll(db: Db, id: Schema.Id, row: Task)
    ensures var after := WithTask(db, id, row);
            row.position == NextInPool(db.tasks, row.project) ==>
              forall o <- after.tasks :: o != id && WaitsIn(after.tasks[o], row.project) ==> after.tasks[o].position < row.position
  {
    var used := set t | t in db.tasks && db.tasks[t].project == row.project && db.tasks[t].pool && db.tasks[t].archivedAt.None? :: db.tasks[t].position;
    forall o <- db.tasks | WaitsIn(db.tasks[o], row.project) ensures db.tasks[o].position in used {
    }
    hide NextFree;
  }

  // ---------- Which rule acts ----------

  /** An action that would move the task: to another column of its board. */
  predicate Moves(db: Db, t: Task, action: Action) {
    && action.MoveTaskTree? && action.target in db.columns && db.columns[action.target].board == t.board
    && t.column != Some(action.target)
  }

  ghost predicate FirstMove(db: Db, t: Task, actions: seq<Action>, k: nat) {
    k < |actions| && Moves(db, t, actions[k]) && forall j :: 0 <= j < k ==> !Moves(db, t, actions[j])
  }

  /** Of a rule's first five actions, the first that would move the task counts. */
  lemma {:induction false} ActionTargetIsFirst(db: Db, t: Task, actions: seq<Action>, limit: nat)
    ensures match ActionTarget(db, t, actions, limit)
            case None => forall k :: 0 <= k < |actions| && k < limit ==> !Moves(db, t, actions[k])
            case Some(c) => exists k: nat :: k < limit && FirstMove(db, t, actions, k) && actions[k].target == c
  {
    if actions != [] && limit > 0 {
      var rest := actions[1..];
      ActionTargetIsFirst(db, t, rest, limit - 1);
      assert forall k :: 0 <= k < |rest| ==> rest[k] == actions[k + 1];
      if Moves(db, t, actions[0]) {
        assert FirstMove(db, t, actions, 0);
      } else if ActionTarget(db, t, rest, limit - 1).Some? {
        var k: nat :| k < limit - 1 && FirstMove(db, t, rest, k) && rest[k].target == ActionTarget(db, t, rest, limit - 1).value;
        assert FirstMove(db, t, actions, k + 1) by {
          forall j | 0 <= j < k + 1 ensures !Moves(db, t, actions[j]) {
            assert j > 0 ==> actions[j] == rest[j - 1];
          }
        }
      } else {
        forall k | 0 <= k < |actions| && k < limit ensures !Moves(db, t, actions[k]) {
          assert k > 0 ==> actions[k] == rest[k - 1];
        }
      }
    }
  }

  ghost predicate Mentions(text: string, term: string) {
    exists i, j :: 0 <= i <= j <= |text| && text[i..j] == term
  }

  /** A condition of the rule keeps it from the task: another source column, a
      term that neither title nor description mentions, another due date, or a
      restriction to main tasks. */
  ghost predicate Excludes(c: Conditions, t: Task, today: int) {
    || (c.sourceColumn.Some? && t.column != c.sourceColumn)
    || (c.searchTerm != "" && !Mentions(t.content.title + " " + t.content.description, c.searchTerm))
    || (c.dueMode.DueToday? && t.content.dueDate != Some(today))
    || (c.dueMode.DueSoon? && (t.content.dueDate.None? || t.content.dueDate.value < today || t.content.dueDate.value > today + 7))
    || (c.dueMode.Overdue? && (t.content.dueDate.None? || t.content.dueDate.value >= today))
    || (c.dueMode.WithoutDate? && t.content.dueDate.Some?)
    || (c.mainTaskOnly && t.parent.Some?)
  }

  lemma MatchesIs(c: Conditions, t: Task, today: int)
    ensures Matches(c, t, today) <==> !Excludes(c, t, today)
  {
    ContainsIs(t.content.title + " " + t.content.description, c.searchTerm);
    hide Contains, Mentions;
  }

  lemma ContainsIs(text: string, term: string)
    ensures Contains(text, term) <==> Mentions(text, term)
  {
    if i :| 0 <= i <= |text| && IsPrefix(term, text[i..]) {
      assert text[i..i + |term|] == text[i..][..|term|];
    }
    if i, j :| 0 <= i <= j <= |text| && text[i..j] == term {
      assert text[i..][..|term|] == text[i..j];
      assert IsPrefix(term, text[i..]);
    }
  }

  /** The rule is for this event on the task's board, none of its conditions
      excludes the task, and one of its first five actions would move the task. */
  ghost predicate Fires(db: Db, t: Task, trigger: Trigger, today: int, rule: Rule) {
    && rule.board == t.board && rule.trigger == trigger && rule.active && !Excludes(rule.conditions, t, today)
    && exists k: nat :: k < 5 && FirstMove(db, t, rule.actions, k)
  }

  lemma FiresIs(db: Db, t: Task, trigger: Trigger, today: int, rule: Rule)
    ensures Fires(db, t, trigger, today, rule)
            <==> rule.board == t.board && rule.trigger == trigger && rule.active && Matches(rule.conditions, t, today)
                 && ActionTarget(db, t, rule.actions, 5).Some?
  {
    hide Matches, Excludes, Moves;
    MatchesIs(rule.conditions, t, today);
    ActionTargetIsFirst(db, t, rule.actions, 5);
  }

  /** At most one rule acts, the first in sort order that fires. */
  lemma {:induction false} RuleTargetIsFirst(db: Db, t: Task, trigger: Trigger, rules: seq<Rule>, today: int)
    ensures match RuleTarget(db, t, trigger, rules, today)
            case None => forall i :: 0 <= i < |rules| ==> !Fires(db, t, trigger, today, rules[i])
            case Some(c) => exists i: nat :: FirstFiring(db, t, trigger, today, rules, i)
                                             && ActionTarget(db, t, rules[i].actions, 5) == Some(c)
  {
    if rules != [] {
      var rest := rules[1..];
      RuleTargetIsFirst(db, t, trigger, rest, today);
      FiresIs(db, t, trigger, today, rules[0]);
      hide Matches, ActionTarget, Fires;
      assert forall i :: 0 <= i < |rest| ==> rest[i] == rules[i + 1];
      if Fires(db, t, trigger, today, rules[0]) {
        assert FirstFiring(db, t, trigger, today, rules, 0);
      } else if RuleTarget(db, t, trigger, rest, today).Some? {
        var i: nat :| FirstFiring(db, t, trigger, today, rest, i)
                      && ActionTarget(db, t, rest[i].actions, 5) == RuleTarget(db, t, trigger, rest, today);
        assert FirstFiring(db, t, trigger, today, rules, i + 1) by {
          forall j | 0 <= j < i + 1 ensures !Fires(db, t, trigger, today, rules[j]) {
            assert j > 0 ==> rules[j] == rest[j - 1];
          }
        }
      } else {
        forall i | 0 <= i < |rules| ensures !Fires(db, t, trigger, today, rules[i]) {
          assert i > 0 ==> rules[i] == rest[i - 1];
        }
      }
    }
  }

  ghost predicate FirstFiring(db: Db, t: Task, trigger: Trigger, today: int, rules: seq<Rule>, i: nat) {
    i < |rules| && Fires(db, t, trigger, today, rules[i]) && forall j :: 0 <= j < i ==> !Fires(db, t, trigger, today, rules[j])
  }
}