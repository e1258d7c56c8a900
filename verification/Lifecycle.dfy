/** Creating, completing, archiving and deleting tasks, and the subtask
    services, keep the workspace consistent (apps/workspaces/services.py). */
module Lifecycle {
  import opened Boards
  import opened Columns
  import opened Consistency
  import opened Mirroring
  import opened Options
  import opened Ordering
  import opened Placement
  import opened Schema
  import opened Subtasks
  import opened Tasks

  // ---------- create_task ----------

  lemma DestinationOk(db: Db, board: Schema.Id, data: NewTask)
    requires Consistent(db) && board in db.boards && ColumnFits(db, data.column, board)
    ensures var (db1, target, assignee, column) := Destination(db, board, data);
            && Consistent(db1) && target in db1.boards && ColumnFits(db1, column, target)
            && (db1.boards[target].PersonalBoard? ==> assignee == Some(db1.boards[target].owner) && column.Some?)
            && (db1.boards[target].ProjectBoard? ==> db1 == db && target == board && assignee == data.assignee)
            && db1.tasks == db.tasks && db1.nextId !in db.tasks
            && (data.pool && data.assignee.None? && db.boards[board].ProjectBoard? ==> column.None?)
            && (db.boards[board].PersonalBoard? ==> db1.boards[target].PersonalBoard?)
  {
    hide Consistent, Intake, WithIntake, First;
    Parts(db);
    NextIdUnused(db);
    if db.boards[board].PersonalBoard? {
      var owner := db.boards[board].owner;
      if data.assignee.Some? && data.assignee.value != owner {
        IntakeConsistent(db, data.assignee.value);
        Parts(Intake(db, data.assignee.value).0);
        NextIdUnused(Intake(db, data.assignee.value).0);
      } else {
        WithIntakeOk(db, board, owner);
        NextIdUnused(WithIntake(db, board, owner).0);
        hide WellFormed;
        ExtendsConsistent(db, WithIntake(db, board, owner).0);
      }
    }
  }

  /** Every check the row has to pass reduces to the one that fails: a pool
      task on a personal board. */
  lemma CreatedFits(db: Db, board: Schema.Id, actor: Schema.Id, data: NewTask)
    requires Consistent(db) && board in db.boards && ColumnFits(db, data.column, board) && DatesInOrder(data.content)
    ensures var (db1, target, assignee, column) := Destination(db, board, data);
            target in db1.boards &&
            var row := CreatedRow(db1, target, assignee, column, actor, data);
            && (RowAllowed(row) <==> !(data.pool && data.assignee.None? && db.boards[board].PersonalBoard?))
            && (RowAllowed(row) ==> Addable(db1, row) && Canonical(row))
  {
    DestinationOk(db, board, data);
    var (db1, target, assignee, column) := Destination(db, board, data);
    hide Destination, Consistent, DatesInOrder, ColumnFits, Addable, CreatedRow;
    CreatedRowAllowed(db1, target, assignee, column, actor, data);
    if RowAllowed(CreatedRow(db1, target, assignee, column, actor, data)) {
      CreatedRowAddable(db1, target, assignee, column, actor, data);
    }
  }

  lemma CreatedRowAllowed(db: Db, board: Schema.Id, assignee: Option<Schema.Id>, column: Option<Schema.Id>, actor: Schema.Id, data: NewTask)
    requires board in db.boards && DatesInOrder(data.content)
    requires db.boards[board].ProjectBoard? ==> assignee == data.assignee && (data.pool && data.assignee.None? ==> column.None?)
    requires db.boards[board].PersonalBoard? ==> assignee.Some? && column.Some?
    ensures RowAllowed(CreatedRow(db, board, assignee, column, actor, data))
            <==> !(data.pool && data.assignee.None? && db.boards[board].PersonalBoard?)
  {
    hide NextInColumn, DatesInOrder;
  }

  lemma CreatedRowAddable(db: Db, board: Schema.Id, assignee: Option<Schema.Id>, column: Option<Schema.Id>, actor: Schema.Id, data: NewTask)
    requires Consistent(db) && board in db.boards && ColumnFits(db, column, board)
    requires db.boards[board].PersonalBoard? ==> assignee == Some(db.boards[board].owner)
    requires RowAllowed(CreatedRow(db, board, assignee, column, actor, data))
    ensures Addable(db, CreatedRow(db, board, assignee, column, actor, data))
            && Canonical(CreatedRow(db, board, assignee, column, actor, data))
  {
    Parts(db);
    if db.boards[board].ProjectBoard? {
      BoardProjectExists(db, board);
    }
    hide Consistent, NextInColumn, DatesInOrder, WellFormed, RowsOk, LinksOk, Core;
  }

  lemma BoardProjectExists(db: Db, board: Schema.Id)
    requires WellFormed(db) && board in db.boards && db.boards[board].ProjectBoard?
    ensures db.boards[board].project in db.projects
  {
    hide ColumnsOk, IdsDrawn, ColumnsHaveBoards, OnePersonalBoard;
  }

  lemma AddAndSync(db: Db, row: Task)
    requires Consistent(db) && Addable(db, row) && Canonical(row)
    ensures Settled(WithNew(db, row), SyncMirror(WithNew(db, row), db.nextId), db.nextId, row)
  {
    hide Consistent, Core, AgreeExcept, Addable, LinksOk, RowsOk, WellFormed, IdsDrawn, MirrorExact, OnlyMirrorsDiffer, SyncMirror;
    Parts(db);
    AddRowKeepsCore(db, row);
    AddRowKeepsAgreement(db, row, Some(db.nextId));
    SyncRestores(WithNew(db, row), db.nextId);
  }

  /** A created task is placed and mirrored; the one failing request that passes
      the serializer, rules aside, is a pool task on a personal board. */
  lemma CreateKeeps(db: Db, board: Schema.Id, actor: Schema.Id, data: NewTask, today: int)
    requires Consistent(db)
    ensures CreateTask(db, board, actor, data, today).Ok? ==>
              var (after, id) := CreateTask(db, board, actor, data, today).value;
              Consistent(after) && id in after.tasks && id !in db.tasks && Canonical(after.tasks[id]) && MirrorExact(after, id)
  {
    hide Consistent, Destination, CreatedRow, SyncMirror, Automate, MirrorExact, OnlyMirrorsDiffer, Addable, DatesInOrder;
    if board in db.boards && ColumnFits(db, data.column, board) && DatesInOrder(data.content) {
      DestinationOk(db, board, data);
      CreatedFits(db, board, actor, data);
      var (db1, target, assignee, column) := Destination(db, board, data);
      var row := CreatedRow(db1, target, assignee, column, actor, data);
      hide ColumnFits;
      if RowAllowed(row) {
        AddAndSync(db1, row);
        hide RowAllowed;
        CreatedAutomates(db1, row, today);
      }
    }
  }

  lemma CreatedAutomates(db1: Db, row: Task, today: int)
    requires var synced := SyncMirror(WithNew(db1, row), db1.nextId); Settled(WithNew(db1, row), synced, db1.nextId, row)
    requires Canonical(row)
    ensures var synced := SyncMirror(WithNew(db1, row), db1.nextId);
            Automate(synced, db1.nextId, TaskCreated, today).Ok? ==>
              var after := Automate(synced, db1.nextId, TaskCreated, today).value;
              Consistent(after) && db1.nextId in after.tasks && Canonical(after.tasks[db1.nextId]) && MirrorExact(after, db1.nextId)
  {
    hide Consistent, SyncMirror, Automate, MirrorExact, OnlyMirrorsDiffer;
    var synced, id := SyncMirror(WithNew(db1, row), db1.nextId), db1.nextId;
    if Automate(synced, id, TaskCreated, today).Ok? {
      AutomateKeeps(synced, id, TaskCreated, today);
      MovedKeepsExact(synced, Automate(synced, id, TaskCreated, today).value, id);
    }
  }

  ghost predicate CreationRuleHitsPool(db: Db, board: Schema.Id, actor: Schema.Id, data: NewTask, today: int)
    requires board in db.boards
  {
    && data.pool && data.assignee.None?
    && RuleTarget(db, CreatedRow(db, board, None, None, actor, data), TaskCreated, db.rules, today).Some?
  }

  lemma CreatedOutcome(db1: Db, row: Task, today: int)
    requires Settled(WithNew(db1, row), SyncMirror(WithNew(db1, row), db1.nextId), db1.nextId, row)
    requires row.pool ==> row.assignee.None?
    ensures Automate(SyncMirror(WithNew(db1, row), db1.nextId), db1.nextId, TaskCreated, today).Err?
            <==> row.pool && RuleTarget(db1, row, TaskCreated, db1.rules, today).Some?
  {
    hide Consistent, MirrorExact, OnlyMirrorsDiffer;
    var synced := SyncMirror(WithNew(db1, row), db1.nextId);
    if row.pool {
      assert synced.columns == db1.columns && synced.rules == db1.rules;
      RuleTargetFrame(synced, db1, row, TaskCreated, db1.rules, today);
    }
  }

  /** A request passes exactly if its fields are valid, it does not ask for a
      pool task on a personal board, and no rule would give the new pool task a
      column. */
  lemma CreateOutcome(db: Db, board: Schema.Id, actor: Schema.Id, data: NewTask, today: int)
    requires Consistent(db)
    ensures CreateTask(db, board, actor, data, today).Ok?
            <==> && board in db.boards && ColumnFits(db, data.column, board) && DatesInOrder(data.content)
                 && (data.pool && data.assignee.None? ==>
                       db.boards[board].ProjectBoard? && !CreationRuleHitsPool(db, board, actor, data, today))
  {
    hide Consistent, Destination, CreatedRow, SyncMirror, Automate, MirrorExact, OnlyMirrorsDiffer, Addable, DatesInOrder, RuleTarget;
    if board in db.boards && ColumnFits(db, data.column, board) && DatesInOrder(data.content) {
      DestinationOk(db, board, data);
      CreatedFits(db, board, actor, data);
      var (db1, target, assignee, column) := Destination(db, board, data);
      var row := CreatedRow(db1, target, assignee, column, actor, data);
      CreatedPool(db1, target, assignee, column, actor, data);
      hide ColumnFits;
      if RowAllowed(row) {
        AddAndSync(db1, row);
        CreatedOutcome(db1, row, today);
      }
    }
  }

  lemma CreatedPool(db: Db, board: Schema.Id, assignee: Option<Schema.Id>, column: Option<Schema.Id>, actor: Schema.Id, data: NewTask)
    requires board in db.boards
    ensures CreatedRow(db, board, assignee, column, actor, data).pool <==> data.pool && data.assignee.None?
  {
  }

  // ---------- set_task_completed ----------

  lemma CompletedFits(db: Db, id: Schema.Id, completed: bool, now: int)
    requires Consistent(db) && id in db.tasks
    ensures var row := Completed(db.tasks[id], completed, now);
            RowOk(db, row) && SameLinks(db.tasks[id], row)
  {
    hide Consistent;
    RowAt(db, id);
  }

  lemma CompleteCanonical(db: Db, id: Schema.Id, completed: bool, now: int)
    requires Consistent(db) && id in db.tasks && Canonical(db.tasks[id])
    ensures var both := CompleteBoth(db, id, completed, now);
            && both.Ok? && Consistent(both.value) && MirrorExact(both.value, id) && id in both.value.tasks
            && both.value.tasks[id] == Completed(db.tasks[id], completed, now)
  {
    hide Consistent, SyncMirror, RowOk, MirrorExact, OnlyMirrorsDiffer;
    CompletedFits(db, id, completed, now);
    WriteAndSync(db, id, Completed(db.tasks[id], completed, now));
  }

  // ---------- A mirror that is already on the right board survives the synchronisation ----------

  lemma RightBoard(db: Db, user: Schema.Id, b: Schema.Id)
    requires WellFormed(db) && b in db.boards && db.boards[b].PersonalBoard? && db.boards[b].owner == user
    ensures Intake(db, user).1 == b
  {
    hide Intake, WellFormed;
    IntakeOk(db, user);
    var (db1, board, column) := Intake(db, user);
    assert b in PersonalBoards(db1, user);
  }

  lemma RefreshesGoodMirror(db: Db, id: Schema.Id, m: Schema.Id, user: Schema.Id)
    requires Core(db) && AgreeExcept(db, Some(id)) && Assigned(db, id, user)
    requires m in MirrorRows(db, id) && OnPersonalBoard(db, db.tasks[m]) && db.boards[db.tasks[m].board].owner == user
    ensures var db2 := Provided(db, id, user);
            && m in db2.tasks && id in db2.tasks && db2.tasks[m] == db.tasks[m] && db.tasks[m].board in db2.boards
            && PlaceMirror(db, id, user) == WithTask(db2, m, Refreshed(db2, id, m))
  {
    MirrorRowIsTask(db, id, m);
    CoreParts(db);
    hide Core, AgreeExcept, OnlyMirrorsDiffer, PlaceMirror, MirrorRows, Intake, Provided, MirrorFor, Refreshed, WellFormed, RowsOk, LinksOk, IdsDrawn, NextInColumn, Canonical, WithNew;
    RightBoard(db, user, db.tasks[m].board);
    ProvidedOk(db, id, user);
    PlaceMirrorIs(db, id, user);
    hide WithTask, HomeFor, OnProjectBoard;
    assert m in OnBoardIds(db, MirrorRows(db, id), db.tasks[m].board);
  }

  lemma GoodMirrorStays(db: Db, id: Schema.Id, m: Schema.Id, user: Schema.Id)
    requires Core(db) && AgreeExcept(db, Some(id)) && Assigned(db, id, user)
    requires m in MirrorRows(db, id) && OnPersonalBoard(db, db.tasks[m]) && db.boards[db.tasks[m].board].owner == user
    ensures var after := SyncMirror(db, id);
            && m in after.tasks && id in after.tasks
            && IsAssignmentMirror(after.tasks[m]) && after.tasks[m].sourceTask == Some(id)
  {
    MirrorRowIsTask(db, id, m);
    hide Core, AgreeExcept, PlaceMirror, MirrorRows, Provided, OnPersonalBoard;
    RefreshesGoodMirror(db, id, m, user);
  }

  lemma MirrorRowIsTask(db: Db, id: Schema.Id, m: Schema.Id)
    requires m in MirrorRows(db, id)
    ensures m in db.tasks && IsAssignmentMirror(db.tasks[m]) && db.tasks[m].sourceTask == Some(id)
  {
  }

  // ---------- Completing a mirror ----------

  function BothRows(db: Db, id: Schema.Id, s: Schema.Id, completed: bool, now: int): Db
    requires id in db.tasks && s in db.tasks
  {
    WithTask(WithTask(db, id, Completed(db.tasks[id], completed, now)), s, Completed(db.tasks[s], completed, now))
  }

  /** Both rows are written; only mirrors of the source may now disagree. */
  lemma BothWritten(db: Db, id: Schema.Id, s: Schema.Id, completed: bool, now: int)
    requires Consistent(db) && id in db.tasks && IsAssignmentMirror(db.tasks[id]) && db.tasks[id].sourceTask == Some(s)
    ensures s in db.tasks && s != id
    ensures var written := BothRows(db, id, s, completed, now); Core(written) && AgreeExcept(written, Some(s))
  {
    MirrorFacts(db, id, s);
    var row, srow := Completed(db.tasks[id], completed, now), Completed(db.tasks[s], completed, now);
    var db1 := WithTask(db, id, row);
    CompletedFits(db, id, completed, now);
    CompletedFits(db, s, completed, now);
    RowOkFrame(db, id, row, srow);
    hide Consistent, Core, AgreeExcept, RowOk, RowsOk, LinksOk, WellFormed, IdsDrawn, Agrees;
    Parts(db);
    SetRowKeepsCore(db, id, row);
    SetRowKeepsOthersAgreeing(db, id, row, Some(s));
    CoreParts(db1);
    SetRowKeepsCore(db1, s, srow);
    SetRowKeepsOthersAgreeing(db1, s, srow, Some(s));
  }

  lemma BothStand(db: Db, id: Schema.Id, s: Schema.Id, completed: bool, now: int)
    requires Consistent(db) && id in db.tasks && IsAssignmentMirror(db.tasks[id]) && db.tasks[id].sourceTask == Some(s)
    ensures s in db.tasks && s != id && db.tasks[s].assignee.Some?
    ensures var written, user := BothRows(db, id, s, completed, now), db.tasks[s].assignee.value;
            && Assigned(written, s, user) && id in MirrorRows(written, s)
            && OnPersonalBoard(written, written.tasks[id]) && written.boards[written.tasks[id].board].owner == user
  {
    MirrorFacts(db, id, s);
    hide Consistent;
  }

  lemma RowOkFrame(db: Db, id: Schema.Id, row: Task, other: Task)
    requires RowOk(db, other)
    ensures RowOk(WithTask(db, id, row), other)
  {
  }

  lemma MirrorFacts(db: Db, id: Schema.Id, s: Schema.Id)
    requires Consistent(db) && id in db.tasks && IsAssignmentMirror(db.tasks[id]) && db.tasks[id].sourceTask == Some(s)
    ensures s in db.tasks && s != id && Canonical(db.tasks[s]) && Agrees(db, db.tasks[s], db.tasks[id])
  {
    RowAt(db, id);
    hide Core, Agrees, RowOk;
  }

  /** Completing an assignment mirror completes its source as well, and the
      mirror is not lost on the way. */
  lemma CompleteMirror(db: Db, id: Schema.Id, s: Schema.Id, completed: bool, now: int)
    requires Consistent(db) && id in db.tasks && IsAssignmentMirror(db.tasks[id]) && db.tasks[id].sourceTask == Some(s)
    ensures var both := CompleteBoth(db, id, completed, now);
            && both.Ok? && Consistent(both.value) && MirrorExact(both.value, s)
            && id in both.value.tasks && s in both.value.tasks && s in db.tasks
            && both.value.tasks[s] == Completed(db.tasks[s], completed, now)
            && IsAssignmentMirror(both.value.tasks[id]) && both.value.tasks[id].sourceTask == Some(s)
  {
    hide Completed, OnProjectBoard;
    BothWritten(db, id, s, completed, now);
    BothStand(db, id, s, completed, now);
    var user := db.tasks[s].assignee.value;
    var written := BothRows(db, id, s, completed, now);
    hide Consistent, Core, AgreeExcept, SyncMirror, MirrorRows, OnPersonalBoard, MirrorExact, OnlyMirrorsDiffer;
    GoodMirrorStays(written, s, id, user);
    SyncRestores(written, s);
  }

  lemma DeleteNothing(db: Db)
    ensures DeleteTasks(db, {}) == db
  {
    assert Family(db, {}) == {};
    assert SubtasksOf(db, {}) == {};
    assert DeleteTasks(db, {}).tasks == db.tasks;
    assert DeleteTasks(db, {}).subtasks == db.subtasks;
  }

  /** Completing the mirror of a subtask completes the subtask. */
  lemma CompleteSubtaskMirror(db: Db, id: Schema.Id, s: Schema.Id, completed: bool, now: int)
    requires Consistent(db) && id in db.tasks && db.tasks[id].sourceSubtask == Some(s)
    ensures var both := CompleteBoth(db, id, completed, now);
            && both.Ok?
            && var after := CompleteSubtask(both.value, Some(s), completed);
            && Consistent(after) && id in after.tasks && after.tasks[id] == Completed(db.tasks[id], completed, now)
            && s in db.subtasks && after.subtasks == db.subtasks[s := db.subtasks[s].(done := completed)]
  {
    hide CompleteBoth, Consistent, RowOk;
    CompletedFits(db, id, completed, now);
    SubtaskMirrorTitle(db, id, s);
    SubtaskMirrorAlone(db, id, s, completed, now);
    SetBoth(db, id, Completed(db.tasks[id], completed, now), s, db.subtasks[s].(done := completed));
  }

  lemma SubtaskMirrorTitle(db: Db, id: Schema.Id, s: Schema.Id)
    requires Consistent(db) && id in db.tasks && db.tasks[id].sourceSubtask == Some(s)
    ensures s in db.subtasks && db.tasks[id].content.title == db.subtasks[s].title
  {
    hide RowsOk, LinksOk, UniqueMirrors, WellFormed;
  }

  lemma SubtaskMirrorAlone(db: Db, id: Schema.Id, s: Schema.Id, completed: bool, now: int)
    requires Consistent(db) && id in db.tasks && db.tasks[id].sourceSubtask == Some(s)
    ensures CompleteBoth(db, id, completed, now) == Ok(WithTask(db, id, Completed(db.tasks[id], completed, now)))
  {
    hide Consistent, DeleteTasks;
    var db1 := WithTask(db, id, Completed(db.tasks[id], completed, now));
    assert AssignmentMirrors(db1, id) == {} by {
      NoMirrorOfMirror(db, id);
    }
    DeleteNothing(db1);
  }

  lemma NoMirrorOfMirror(db: Db, id: Schema.Id)
    requires Consistent(db) && id in db.tasks && !Canonical(db.tasks[id])
    ensures forall m <- db.tasks :: db.tasks[m].sourceTask != Some(id)
  {
    forall m <- db.tasks ensures db.tasks[m].sourceTask != Some(id) {
      RowAt(db, m);
    }
  }

  /** The task itself, the source of an assignment mirror, or the task of an
      unmirrored completion: the canonical row a completion is about. */
  function Subject(db: Db, id: Schema.Id): Schema.Id
    requires id in db.tasks
  {
    if IsAssignmentMirror(db.tasks[id]) then db.tasks[id].sourceTask.value else id
  }

  /** Before the rules run: both sides of a mirror show the new state. */
  ghost predicate CompletionShown(db: Db, after: Db, id: Schema.Id, completed: bool, now: int)
    requires id in db.tasks
  {
    && Consistent(after) && id in after.tasks && after.tasks[id].done == completed
    && after.tasks[id].completedAt == (if completed then Some(now) else None)
    && (db.tasks[id].sourceSubtask.None? ==>
          && Subject(db, id) in after.tasks && after.tasks[Subject(db, id)].done == completed
          && after.tasks[Subject(db, id)].completedAt == (if completed then Some(now) else None)
          && Canonical(after.tasks[Subject(db, id)]) && MirrorExact(after, Subject(db, id)))
    && (db.tasks[id].sourceSubtask.Some? ==>
          db.tasks[id].sourceSubtask.value in after.subtasks && after.subtasks[db.tasks[id].sourceSubtask.value].done == completed)
  }

  lemma MirrorShowsSource(db: Db, m: Schema.Id)
    requires Consistent(db) && m in db.tasks && IsAssignmentMirror(db.tasks[m])
    ensures db.tasks[m].sourceTask.value in db.tasks && db.tasks[m].done == db.tasks[db.tasks[m].sourceTask.value].done
            && db.tasks[m].completedAt == db.tasks[db.tasks[m].sourceTask.value].completedAt
    ensures Canonical(db.tasks[db.tasks[m].sourceTask.value])
  {
    MirrorFacts(db, m, db.tasks[m].sourceTask.value);
    hide Consistent;
  }

  lemma CompletionBeforeRules(db: Db, id: Schema.Id, completed: bool, now: int)
    requires Consistent(db) && id in db.tasks
    ensures var both := CompleteBoth(db, id, completed, now);
            && both.Ok?
            && CompletionShown(db, CompleteSubtask(both.value, db.tasks[id].sourceSubtask, completed), id, completed, now)
  {
    hide Consistent, CompleteBoth, MirrorExact, SyncMirror;
    var t := db.tasks[id];
    if t.sourceSubtask.Some? {
      CompleteSubtaskMirror(db, id, t.sourceSubtask.value, completed, now);
    } else if t.sourceTask.Some? {
      CompleteMirror(db, id, t.sourceTask.value, completed, now);
      MirrorShowsSource(CompleteBoth(db, id, completed, now).value, id);
    } else {
      CompleteCanonical(db, id, completed, now);
    }
  }

  lemma RuleKeepsShown(db: Db, mid: Db, after: Db, id: Schema.Id, completed: bool, now: int)
    requires id in db.tasks && CompletionShown(db, mid, id, completed, now) && MovedWithinBoard(mid, after, id) && Consistent(after)
    ensures CompletionShown(db, after, id, completed, now)
  {
    hide Consistent;
    if db.tasks[id].sourceSubtask.None? && Subject(db, id) == id {
      MovedKeepsExact(mid, after, id);
    } else if db.tasks[id].sourceSubtask.None? {
      MovedOtherKeepsExact(mid, after, id, Subject(db, id));
    }
  }

  lemma MovedOtherKeepsExact(before: Db, after: Db, id: Schema.Id, other: Schema.Id)
    requires MovedWithinBoard(before, after, id) && MirrorExact(before, other) && other != id
    ensures MirrorExact(after, other)
  {
    if HasMirror(before, other) {
      var m :| m in before.tasks && IsAssignmentMirror(before.tasks[m]) && before.tasks[m].sourceTask == Some(other);
      assert m in after.tasks && IsAssignmentMirror(after.tasks[m]) && after.tasks[m].sourceTask == Some(other);
    }
    if HasMirror(after, other) {
      var m :| m in after.tasks && IsAssignmentMirror(after.tasks[m]) && after.tasks[m].sourceTask == Some(other);
      assert m in before.tasks && IsAssignmentMirror(before.tasks[m]) && before.tasks[m].sourceTask == Some(other);
    }
  }

  /** Completing or reopening either side leaves both sides in the same state. */
  lemma CompleteKeeps(db: Db, id: Schema.Id, completed: bool, supplied: nat, now: int, today: int)
    requires Consistent(db) && SetCompleted(db, id, completed, supplied, now, today).Ok?
    ensures id in db.tasks && CompletionShown(db, SetCompleted(db, id, completed, supplied, now, today).value, id, completed, now)
  {
    hide Consistent, CompleteBoth, CompletionShown, CompleteSubtask, Automate, MovedWithinBoard;
    CompletionBeforeRules(db, id, completed, now);
    var mid := CompleteSubtask(CompleteBoth(db, id, completed, now).value, db.tasks[id].sourceSubtask, completed);
    var trigger := if completed then TaskCompleted else TaskReopened;
    ShownIsConsistent(db, mid, id, completed, now);
    AutomateKeeps(mid, id, trigger, today);
    RuleKeepsShown(db, mid, SetCompleted(db, id, completed, supplied, now, today).value, id, completed, now);
  }

  lemma ShownIsConsistent(db: Db, after: Db, id: Schema.Id, completed: bool, now: int)
    requires id in db.tasks && CompletionShown(db, after, id, completed, now)
    ensures Consistent(after) && id in after.tasks
  {
    hide Consistent;
  }

  // ---------- archive_task ----------

  function ArchivedRow(t: Task, archived: bool, now: int): Task {
    Raised(t.(archivedAt := if archived then Some(now) else None))
  }

  lemma ArchivedRowFits(db: Db, id: Schema.Id, archived: bool, now: int)
    requires Consistent(db) && id in db.tasks
    ensures RowOk(db, ArchivedRow(db.tasks[id], archived, now)) && SameLinks(db.tasks[id], ArchivedRow(db.tasks[id], archived, now))
    ensures Canonical(ArchivedRow(db.tasks[id], archived, now)) == Canonical(db.tasks[id])
  {
    RowAt(db, id);
    hide Consistent;
  }

  lemma ArchiveKeeps(db: Db, id: Schema.Id, archived: bool, supplied: nat, now: int)
    requires Consistent(db) && ArchiveTask(db, id, archived, supplied, now).Ok? && Canonical(db.tasks[id])
    ensures var after := ArchiveTask(db, id, archived, supplied, now).value;
            && Consistent(after) && MirrorExact(after, id) && id in after.tasks
            && after.tasks[id] == db.tasks[id].(archivedAt := if archived then Some(now) else None, version := supplied + 1)
  {
    hide Consistent, SyncMirror, MirrorExact, OnlyMirrorsDiffer;
    RowAt(db, id);
    WriteAndSync(db, id, db.tasks[id].(archivedAt := if archived then Some(now) else None, version := supplied + 1));
  }

  // ---------- TaskViewSet.destroy ----------

  lemma PruneKeeps(db: Db, gone: set<Schema.Id>)
    requires Consistent(db) && Detached(db, gone)
    ensures Consistent(Pruned(db, gone))
  {
    hide Core, AgreeExcept, Detached;
    PrunedKeepsCore(db, gone);
    PrunedKeepsAgreement(db, gone, None);
  }

  /** Without assignment mirrors, a canonical task goes with its subtasks and
      their mirrors, and nothing is left that refers to them. */
  lemma FamilyClosed(db: Db, id: Schema.Id)
    requires Consistent(db) && id in db.tasks && MirrorRows(db, id) == {}
    ensures Detached(db, Family(db, {id}))
  {
    var family := Family(db, {id});
    forall t <- family | t != id
      ensures t in db.tasks && !Canonical(db.tasks[t])
    {
      RowAt(db, t);
    }
    forall t <- db.tasks | t !in family
      ensures db.tasks[t].sourceTask.Some? ==> db.tasks[t].sourceTask.value !in family
      ensures db.tasks[t].parent.Some? ==> db.tasks[t].parent.value !in family
    {
      RowAt(db, t);
      assert t !in MirrorRows(db, id);
    }
  }

  /** Deleting a task deletes its mirrors, its subtasks and theirs, and leaves
      every other row as it is. */
  lemma DestroyKeeps(db: Db, id: Schema.Id, supplied: nat)
    requires Consistent(db) && DestroyTask(db, id, supplied).Ok?
    ensures var after := DestroyTask(db, id, supplied).value;
            && Consistent(after) && id !in after.tasks
            && (forall t <- after.tasks :: t in db.tasks && after.tasks[t] == db.tasks[t])
            && (forall t <- db.tasks :: t !in after.tasks ==> t == id || db.tasks[t].sourceTask == Some(id))
  {
    var mirrors := MirrorRows(db, id);
    var db1 := Pruned(db, mirrors);
    hide Consistent, Core, AgreeExcept, DeleteTasks, WellFormed, RowsOk, LinksOk, IdsDrawn;
    Parts(db);
    DeleteSomeMirrors(db, id, mirrors);
    hide MirrorRows;
    WithoutMirrors(db, id);
    NoMirrorsAgree(db1, id);
    DestroyLast(db1, id);
    FamilyOfTask(db1, id);
  }

  lemma WithoutMirrors(db: Db, id: Schema.Id)
    requires id in db.tasks && RowsOk(db) && LinksOk(db)
    ensures var db1 := Pruned(db, MirrorRows(db, id)); id in db1.tasks && MirrorRows(db1, id) == {}
  {
    assert LinkOk(db, db.tasks[id]);
    PrunedDiffers(db, id, MirrorRows(db, id));
    forall m <- MirrorRows(db, id)
      ensures Canonical(db.tasks[id])
    {
      assert LinkOk(db, db.tasks[m]);
    }
  }

  lemma DestroyLast(db: Db, id: Schema.Id)
    requires Core(db) && AgreeExcept(db, None) && id in db.tasks && MirrorRows(db, id) == {}
    ensures DeleteTasks(db, {id}) == Pruned(db, Family(db, {id})) && Consistent(Pruned(db, Family(db, {id})))
  {
    assert Consistent(db);
    hide Consistent, Core, AgreeExcept, RowsOk, WellFormed, IdsDrawn, Detached, MirrorRows;
    FamilyClosed(db, id);
    Parts(db);
    DeleteIsPrune(db, {id}, Family(db, {id}));
    PruneKeeps(db, Family(db, {id}));
  }

  lemma FamilyOfTask(db: Db, id: Schema.Id)
    requires Core(db) && id in db.tasks
    ensures forall t <- Family(db, {id}) :: t == id || (t in db.tasks && db.tasks[t].sourceTask == Some(id))
    ensures id in Family(db, {id})
  {
    hide RowsOk, WellFormed, UniqueMirrors, SubtasksAgree;
    forall t <- Family(db, {id}) ensures t == id || (t in db.tasks && db.tasks[t].sourceTask == Some(id)) {
      assert t != id ==> LinkOk(db, db.tasks[t]);
    }
  }

  // ---------- Subtasks ----------

  /** Only subtasks are added or removed, none of the removed ones mirrored. */
  ghost predicate SubtasksDiffer(before: Db, after: Db) {
    && after.(subtasks := before.subtasks, nextId := before.nextId) == before
    && (forall s <- before.subtasks :: s in after.subtasks ==> after.subtasks[s] == before.subtasks[s])
    && (forall t <- before.tasks :: before.tasks[t].sourceSubtask.Some? && before.tasks[t].sourceSubtask.value in before.subtasks
          ==> before.tasks[t].sourceSubtask.value in after.subtasks)
  }

  lemma SubtasksDifferRow(before: Db, after: Db, t: Schema.Id)
    requires SubtasksDiffer(before, after) && t in before.tasks && RowOk(before, before.tasks[t]) && LinkOk(before, before.tasks[t])
    ensures RowOk(after, before.tasks[t]) && LinkOk(after, before.tasks[t])
  {
  }

  lemma SubtasksDifferRows(before: Db, after: Db)
    requires SubtasksDiffer(before, after) && RowsOk(before) && LinksOk(before) && SubtasksAgree(before)
    requires forall s <- after.subtasks :: after.subtasks[s].task in after.tasks
    ensures RowsOk(after) && LinksOk(after) && SubtasksAgree(after)
  {
    hide RowOk, LinkOk;
    forall t <- after.tasks
      ensures RowOk(after, after.tasks[t]) && LinkOk(after, after.tasks[t])
    {
      SubtasksDifferRow(before, after, t);
    }
  }

  function WithNewSubtask(db: Db, row: Subtask): Db {
    WithSubtask(db, db.nextId, row).(nextId := db.nextId + 1)
  }

  lemma NewSubtaskDiffers(db: Db, row: Subtask)
    requires db.nextId !in db.subtasks && row.task in db.tasks && LinksOk(db)
    ensures var after := WithNewSubtask(db, row);
            SubtasksDiffer(db, after) && forall s <- after.subtasks :: after.subtasks[s].task in after.tasks
  {
  }

  lemma NewSubtaskKeeps(db: Db, task: Schema.Id, row: Subtask)
    requires Consistent(db) && task in db.tasks && row.task == task
    ensures var after := WithNewSubtask(db, row);
            Consistent(after)
  {
    var after := WithNewSubtask(db, row);
    hide Consistent, WellFormed, UniqueMirrors, RouteKeysUnique, RowsOk, LinksOk, SubtasksAgree, AgreeExcept, RowOk, LinkOk;
    Apart(db);
    NextIdUnused(db);
    NewSubtaskDiffers(db, row);
    hide SubtasksDiffer;
    hide WithNewSubtask;
    SubtasksDifferRows(db, after);
    NewSubtaskTables(db, row);
    NewSubtaskAgrees(db, row);
    Whole(after);
  }

  lemma TasksOfSubtasks(db: Db)
    requires LinksOk(db)
    ensures forall s <- db.subtasks :: db.subtasks[s].task in db.tasks
  {
  }

  lemma NewSubtaskTables(db: Db, row: Subtask)
    requires WellFormed(db) && UniqueMirrors(db) && RouteKeysUnique(db)
    ensures var after := WithNewSubtask(db, row);
            WellFormed(after) && UniqueMirrors(after) && RouteKeysUnique(after)
  {
    hide ColumnsOk;
  }

  lemma NewSubtaskAgrees(db: Db, row: Subtask)
    requires AgreeExcept(db, None)
    ensures AgreeExcept(WithNewSubtask(db, row), None)
  {
    var after := WithNewSubtask(db, row);
    forall m <- after.tasks | IsAssignmentMirror(after.tasks[m])
      ensures after.tasks[m].sourceTask.value in after.tasks
              && Agrees(after, after.tasks[after.tasks[m].sourceTask.value], after.tasks[m])
    {
      assert Agrees(db, db.tasks[db.tasks[m].sourceTask.value], db.tasks[m]);
    }
  }

  lemma CreateSubtaskKeeps(db: Db, task: Schema.Id, title: string, user: Option<Schema.Id>, now: int)
    requires Consistent(db) && CreateSubtask(db, task, title, user, now).Ok?
    ensures var after := CreateSubtask(db, task, title, user, now).value;
            Consistent(after) && SubtaskMirrorExact(after, db.nextId)
  {
    hide Consistent, SyncSubtask, SubtaskMirrorExact, OnlySubtaskMirrorsDiffer;
    var row := Subtask(task, title, user, false, 1);
    var db1 := WithNewSubtask(db, row);
    NewSubtaskKeeps(db, task, row);
    assert WithSubtask(db1, db.nextId, row) == db1 by {
      assert db1.subtasks[db.nextId := row] == db1.subtasks;
    }
    SyncSubtaskRestores(db1, db.nextId, row, now);
  }

  lemma UpdateSubtaskKeeps(db: Db, id: Schema.Id, supplied: nat, title: Option<string>,
                           forUser: Option<Option<Schema.Id>>, done: Option<bool>, now: int)
    requires Consistent(db) && UpdateSubtask(db, id, supplied, title, forUser, done, now).Ok?
    ensures var after := UpdateSubtask(db, id, supplied, title, forUser, done, now).value;
            Consistent(after) && SubtaskMirrorExact(after, id)
  {
    hide Consistent, SyncSubtask, SubtaskMirrorExact, OnlySubtaskMirrorsDiffer;
    var s := db.subtasks[id];
    SyncSubtaskRestores(db, id, Subtask(s.task, Or(title, s.title), Or(forUser, s.assignee), Or(done, s.done), s.version + 1), now);
  }

  lemma DeleteSubtaskKeeps(db: Db, id: Schema.Id, supplied: nat)
    requires Consistent(db) && DeleteSubtask(db, id, supplied).Ok? && SubtaskMirrors(db, id) == {}
    ensures Consistent(DeleteSubtask(db, id, supplied).value)
  {
    hide Consistent;
    var after := DeleteSubtask(db, id, supplied).value;
    forall t | t in db.tasks
      ensures db.tasks[t].sourceSubtask != Some(id) && Unlinked(db.tasks[t], {}, {id}) == db.tasks[t]
    {
      assert t !in SubtaskMirrors(db, id);
    }
    assert after.tasks == db.tasks;
    SubtaskGone(db, id);
  }

  lemma SubtaskGone(db: Db, id: Schema.Id)
    requires Consistent(db) && forall t <- db.tasks :: db.tasks[t].sourceSubtask != Some(id)
    ensures Consistent(db.(subtasks := db.subtasks - {id}))
  {
    var after := db.(subtasks := db.subtasks - {id});
    hide WellFormed, UniqueMirrors, RouteKeysUnique, RowsOk, LinksOk, SubtasksAgree, AgreeExcept, RowOk, LinkOk;
    Parts(db);
    assert SubtasksDiffer(db, after);
    hide SubtasksDiffer;
    TasksOfSubtasks(db);
    SubtasksDifferRows(db, after);
    SubtaskGoneTables(db, id);
  }

  lemma SubtaskGoneTables(db: Db, id: Schema.Id)
    requires WellFormed(db) && UniqueMirrors(db) && RouteKeysUnique(db) && AgreeExcept(db, None)
    ensures var after := db.(subtasks := db.subtasks - {id});
            WellFormed(after) && UniqueMirrors(after) && RouteKeysUnique(after) && AgreeExcept(after, None)
  {
    var after := db.(subtasks := db.subtasks - {id});
    assert WellFormed(after) by { hide ColumnsOk, AgreeExcept; }
    hide WellFormed;
    forall m <- after.tasks | IsAssignmentMirror(after.tasks[m])
      ensures after.tasks[m].sourceTask.value in after.tasks
              && Agrees(after, after.tasks[after.tasks[m].sourceTask.value], after.tasks[m])
    {
      assert Agrees(db, db.tasks[db.tasks[m].sourceTask.value], db.tasks[m]);
    }
  }
}