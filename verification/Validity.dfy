/** The keys and unique constraints of the tables hold after every service,
    whatever it is applied to (apps/workspaces/models.py). */
module Validity {
  import opened Boards
  import opened Columns
  import opened Consistency
  import opened History
  import opened Lifecycle
  import opened Locking
  import opened Mirroring
  import opened Options
  import opened Ordering
  import opened Overwrites
  import opened Placement
  import opened RouteKeys
  import opened Schema
  import opened Structure
  import opened Subtasks
  import opened Tasks
  import opened Workspace

  lemma DeleteWellFormed(db: Db, doomed: set<Schema.Id>)
    requires WellFormed(db)
    ensures WellFormed(DeleteTasks(db, doomed))
  {
    hide ColumnsOk;
  }

  lemma AddTaskWellFormed(db: Db, row: Task)
    requires WellFormed(db)
    ensures WellFormed(WithTask(db, db.nextId, row).(nextId := db.nextId + 1))
  {
    hide ColumnsOk;
  }

  lemma TasksWellFormed(db: Db, tasks: map<Schema.Id, Task>)
    requires WellFormed(db) && tasks.Keys <= db.tasks.Keys
    ensures WellFormed(db.(tasks := tasks))
  {
    hide ColumnsOk;
  }

  lemma SubtasksWellFormed(db: Db, subtasks: map<Schema.Id, Subtask>)
    requires WellFormed(db) && subtasks.Keys <= db.subtasks.Keys
    ensures WellFormed(db.(subtasks := subtasks))
  {
    hide ColumnsOk;
  }

  /** Writing a row under an id that has been drawn. */
  lemma SetUsedWellFormed(db: Db, id: Schema.Id, row: Task)
    requires WellFormed(db) && id < db.nextId
    ensures WellFormed(WithTask(db, id, row))
  {
    hide ColumnsOk;
  }

  lemma TaskIdsDrawn(db: Db)
    requires WellFormed(db)
    ensures forall t <- db.tasks :: t < db.nextId
    ensures forall s <- db.subtasks :: s < db.nextId
  {
    hide ColumnsOk, ProjectsHaveBoards, OnePersonalBoard, ColumnsHaveBoards;
  }

  lemma SendToWellFormed(db: Db, id: Schema.Id, poolSource: Option<Schema.Id>, user: Schema.Id)
    requires WellFormed(db) && id in db.tasks
    ensures WellFormed(SendTo(db, id, poolSource, user)) && SendTo(db, id, poolSource, user).tasks.Keys == db.tasks.Keys
  {
    hide WellFormed, Intake, NextInColumn, Extends;
    IntakeOk(db, user);
    SameRowInIntake(db, user, id);
    IntakeTasks(db, user);
    SetRowWellFormed(Intake(db, user).0, id, SendTo(db, id, poolSource, user).tasks[id]);
  }

  lemma IntakeTasks(db: Db, user: Schema.Id)
    requires WellFormed(db)
    ensures Intake(db, user).0.tasks == db.tasks && Intake(db, user).0.subtasks == db.subtasks
            && db.nextId <= Intake(db, user).0.nextId
  {
    hide WellFormed, Intake;
    IntakeOk(db, user);
  }

  // ---------- Mirrors and rules ----------

  lemma PlaceMirrorWellFormed(db: Db, id: Schema.Id, user: Schema.Id)
    requires WellFormed(db) && id in db.tasks
    ensures WellFormed(PlaceMirror(db, id, user))
  {
    hide WellFormed, DeleteTasks, Intake, NextInColumn, First, NewMirror, RefreshedMirror, AssignmentMirrors, Extends;
    IntakeOk(db, user);
    IntakeTasks(db, user);
    TaskIdsDrawn(db);
    var (db1, board, column) := Intake(db, user);
    var mirrors := AssignmentMirrors(db, id);
    var here := OnBoardIds(db, mirrors, board);
    var db2 := DeleteTasks(db1, mirrors - here);
    DeleteWellFormed(db1, mirrors - here);
    PrunedIds(db1, mirrors - here);
    var workspace := if board in db1.boards then db1.boards[board].workspace else 0;
    if here == {} {
      AddTaskWellFormed(db2, NewMirror(db.tasks[id], id, board, workspace, column, NextInColumn(db2.tasks, Some(column))));
    } else {
      var m := First(here, map t | t in here :: db.tasks[t].position);
      SetUsedWellFormed(db2, m, RefreshedMirror(db.tasks[m], db.tasks[id], workspace));
    }
  }

  lemma SyncWellFormed(db: Db, id: Schema.Id)
    requires WellFormed(db) && id in db.tasks
    ensures WellFormed(SyncMirror(db, id))
  {
    hide WellFormed, DeleteTasks, PlaceMirror, AssignmentMirrors;
    if OnProjectBoard(db, db.tasks[id]) && Canonical(db.tasks[id]) && db.tasks[id].assignee.Some? {
      PlaceMirrorWellFormed(db, id, db.tasks[id].assignee.value);
    } else {
      DeleteWellFormed(db, AssignmentMirrors(db, id));
    }
  }

  lemma PlaceSubtaskWellFormed(db: Db, s: Schema.Id, user: Schema.Id, now: int)
    requires WellFormed(db) && s in db.subtasks && db.subtasks[s].task in db.tasks
    ensures WellFormed(PlaceSubtaskMirror(db, s, user, now))
  {
    hide WellFormed, Intake, NextInColumn, First, SubtaskMirrorRow, BlankMirror, Rehomed, Extends;
    IntakeOk(db, user);
    IntakeTasks(db, user);
    var (db1, board, column) := Intake(db, user);
    var mirrors := SubtaskMirrors(db, s);
    var after := PlaceSubtaskMirror(db, s, user, now);
    if mirrors == {} {
      AddTaskWellFormed(db1, after.tasks[db1.nextId]);
    } else {
      var m := First(mirrors, map t | t in mirrors :: db.tasks[t].position);
      MirrorIsTask(db, s, m);
      SetRowWellFormed(db1, m, after.tasks[m]);
    }
  }

  lemma MirrorIsTask(db: Db, s: Schema.Id, m: Schema.Id)
    requires m in SubtaskMirrors(db, s)
    ensures m in db.tasks
  {
  }

  lemma SyncSubtaskWellFormed(db: Db, s: Schema.Id, now: int)
    requires WellFormed(db) && s in db.subtasks && db.subtasks[s].task in db.tasks
    ensures WellFormed(SyncSubtask(db, s, now))
  {
    hide WellFormed, DeleteTasks, PlaceSubtaskMirror, FirstMirror;
    if OnProjectBoard(db, db.tasks[db.subtasks[s].task]) && db.subtasks[s].assignee.Some? {
      PlaceSubtaskWellFormed(db, s, db.subtasks[s].assignee.value, now);
    } else {
      DeleteWellFormed(db, FirstMirror(db, s));
    }
  }

  lemma AutomateWellFormed(db: Db, id: Schema.Id, trigger: Trigger, today: int)
    requires WellFormed(db) && id in db.tasks && Automate(db, id, trigger, today).Ok?
    ensures WellFormed(Automate(db, id, trigger, today).value) && Automate(db, id, trigger, today).value.tasks.Keys == db.tasks.Keys
  {
    hide WellFormed, RuleTarget, NextInColumn;
    var after := Automate(db, id, trigger, today).value;
    if after != db {
      SetRowWellFormed(db, id, after.tasks[id]);
    }
  }

  lemma AutomateIfWellFormed(db: Db, id: Schema.Id, fires: bool, trigger: Trigger, today: int)
    requires WellFormed(db) && id in db.tasks && AutomateIf(db, id, fires, trigger, today).Ok?
    ensures WellFormed(AutomateIf(db, id, fires, trigger, today).value)
  {
    hide WellFormed, Automate;
    if fires {
      AutomateWellFormed(db, id, trigger, today);
    }
  }

  lemma AfterSaveWellFormed(db: Db, id: Schema.Id, assignee: Option<Schema.Id>, enters: bool, today: int)
    requires WellFormed(db) && id in db.tasks && AfterSave(db, id, assignee, enters, today).Ok?
    ensures WellFormed(AfterSave(db, id, assignee, enters, today).value)
  {
    hide WellFormed, SyncMirror, AutomateIf;
    SyncWellFormed(db, id);
    var synced := SyncMirror(db, id);
    var changed := synced.tasks[id].assignee != assignee;
    AutomateIfWellFormed(synced, id, changed, TaskAssigned, today);
    var reassigned := AutomateIf(synced, id, changed, TaskAssigned, today).value;
    if id in reassigned.tasks {
      AutomateIfWellFormed(reassigned, id, enters, ColumnEntered, today);
    }
  }

  // ---------- Tasks ----------

  lemma RoutedCases(db: Db, id: Schema.Id, p: Patch)
    requires id in db.tasks && Routed(db, id, p).Ok?
    ensures Releases(db.tasks[id], p) ==> Routed(db, id, p).value == WithTask(db, id, Routed(db, id, p).value.tasks[id])
    ensures !Releases(db.tasks[id], p) && HandsOver(db, db.tasks[id], p) ==>
              exists o: Option<Schema.Id>, user: Schema.Id :: Routed(db, id, p).value == SendTo(db, id, o, user)
    ensures !Releases(db.tasks[id], p) && !HandsOver(db, db.tasks[id], p) ==>
              Routed(db, id, p).value == WithTask(db, id, Routed(db, id, p).value.tasks[id])
  {
    var t := db.tasks[id];
    if !Releases(t, p) && HandsOver(db, t, p) {
      HandOverUnpools(db, t, p);
    }
    hide Released, Edited, SendTo, Releases, HandsOver;
  }

  lemma RoutedWellFormed(db: Db, id: Schema.Id, p: Patch)
    requires WellFormed(db) && id in db.tasks && Routed(db, id, p).Ok?
    ensures WellFormed(Routed(db, id, p).value) && id in Routed(db, id, p).value.tasks
  {
    hide WellFormed, Routed, SendTo, Releases, HandsOver;
    RoutedCases(db, id, p);
    if !Releases(db.tasks[id], p) && HandsOver(db, db.tasks[id], p) {
      var o: Option<Schema.Id>, user: Schema.Id :| Routed(db, id, p).value == SendTo(db, id, o, user);
      SendToWellFormed(db, id, o, user);
    } else {
      SetRowWellFormed(db, id, Routed(db, id, p).value.tasks[id]);
    }
  }

  lemma UpdateWellFormed(db: Db, id: Schema.Id, p: Patch, supplied: Option<nat>, today: int)
    requires WellFormed(db) && UpdateTask(db, id, p, supplied, today).Ok?
    ensures WellFormed(UpdateTask(db, id, p, supplied, today).value)
  {
    hide WellFormed, Routed, AfterSave, FullyClean, Patched, EntersColumn, ColumnFits;
    RoutedWellFormed(db, id, p);
    AfterSaveWellFormed(Routed(db, id, p).value, id, db.tasks[id].assignee, EntersColumn(db, db.tasks[id], p), today);
  }

  lemma OverwriteWellFormed(db: Db, id: Schema.Id, at: Schema.Id, p: Patch, supplied: Option<nat>, today: int)
    requires WellFormed(db) && id in db.tasks && OverwriteTask(db, id, at, p, supplied, today).Ok?
    ensures WellFormed(OverwriteTask(db, id, at, p, supplied, today).value)
  {
    hide WellFormed, EditedRow, AfterSave, FullyClean, Patched, EntersColumn, ColumnFits, SavedAs, SavedAt, Grows;
    SavedGrows(db, at, EditedRow(db, db.tasks[id], p));
    AfterSaveWellFormed(SavedAs(db, at, EditedRow(db, db.tasks[id], p)), SavedAt(db, at), db.tasks[id].assignee, EntersColumn(db, db.tasks[id], p), today);
  }

  lemma PatchWellFormed(db: Db, id: Schema.Id, asId: Option<Schema.Id>, p: Patch, supplied: Option<nat>, today: int)
    requires WellFormed(db) && PatchTask(db, id, asId, p, supplied, today).Ok?
    ensures WellFormed(PatchTask(db, id, asId, p, supplied, today).value)
  {
    hide WellFormed, UpdateTask, OverwriteTask;
    if id in db.tasks && Redirected(db, id, asId, p) {
      OverwriteWellFormed(db, id, asId.value, p, supplied, today);
    } else {
      UpdateWellFormed(db, id, p, supplied, today);
    }
  }

  lemma ClaimWellFormed(db: Db, id: Schema.Id, user: Schema.Id)
    requires WellFormed(db) && ClaimTask(db, id, user).Ok?
    ensures WellFormed(ClaimTask(db, id, user).value)
  {
    hide WellFormed, SendTo, SyncMirror;
    var sent := SendTo(db, id, db.tasks[id].project, user);
    SendToWellFormed(db, id, db.tasks[id].project, user);
    ClearedWellFormed(sent, id, user);
    SyncWellFormed(ClearedSubtasks(sent, id, user), id);
  }

  lemma DestinationWellFormed(db: Db, board: Schema.Id, data: NewTask)
    requires WellFormed(db) && board in db.boards
    ensures WellFormed(Destination(db, board, data).0)
  {
    hide WellFormed, Intake, WithIntake, First, Extends;
    if db.boards[board].PersonalBoard? {
      if data.assignee.Some? {
        IntakeOk(db, data.assignee.value);
      }
      WithIntakeOk(db, board, db.boards[board].owner);
    }
  }

  lemma CreateWellFormed(db: Db, board: Schema.Id, actor: Schema.Id, data: NewTask, today: int)
    requires WellFormed(db) && CreateTask(db, board, actor, data, today).Ok?
    ensures WellFormed(CreateTask(db, board, actor, data, today).value.0)
  {
    hide WellFormed, Destination, CreatedRow, SyncMirror, Automate, RowAllowed, ColumnFits, DatesInOrder;
    DestinationWellFormed(db, board, data);
    var (db1, target, assignee, column) := Destination(db, board, data);
    var row, id := CreatedRow(db1, target, assignee, column, actor, data), db1.nextId;
    AddTaskWellFormed(db1, row);
    var with := WithTask(db1, id, row).(nextId := id + 1);
    SyncWellFormed(with, id);
    AutomateWellFormed(SyncMirror(with, id), id, TaskCreated, today);
  }

  lemma MoveWellFormed(db: Db, id: Schema.Id, column: Schema.Id, target: int, supplied: nat, today: int)
    requires WellFormed(db) && MoveTask(db, id, column, target, supplied, today).Ok?
    ensures WellFormed(MoveTask(db, id, column, target, supplied, today).value)
  {
    MovedRows(db, id, column, target);
    hide WellFormed, Moved, Automate;
    var moved := Moved(db, id, column, target);
    TasksWellFormed(db, moved.tasks);
    AutomateWellFormed(moved, id, ColumnEntered, today);
  }

  lemma CompleteBothWellFormed(db: Db, id: Schema.Id, completed: bool, now: int)
    requires WellFormed(db) && id in db.tasks && CompleteBoth(db, id, completed, now).Ok?
    ensures WellFormed(CompleteBoth(db, id, completed, now).value)
  {
    hide WellFormed, SyncMirror, Completed;
    var db1 := WithTask(db, id, Completed(db.tasks[id], completed, now));
    SetRowWellFormed(db, id, Completed(db.tasks[id], completed, now));
    if IsAssignmentMirror(db.tasks[id]) {
      var s := db.tasks[id].sourceTask.value;
      if s in db1.tasks {
        SetRowWellFormed(db1, s, Completed(db1.tasks[s], completed, now));
        SyncWellFormed(WithTask(db1, s, Completed(db1.tasks[s], completed, now)), s);
      }
    } else {
      SyncWellFormed(db1, id);
    }
  }

  lemma CompleteWellFormed(db: Db, id: Schema.Id, completed: bool, supplied: nat, now: int, today: int)
    requires WellFormed(db) && SetCompleted(db, id, completed, supplied, now, today).Ok?
    ensures WellFormed(SetCompleted(db, id, completed, supplied, now, today).value)
  {
    hide WellFormed, CompleteBoth, Automate;
    CompleteBothWellFormed(db, id, completed, now);
    var both := CompleteBoth(db, id, completed, now).value;
    var mid := CompleteSubtask(both, db.tasks[id].sourceSubtask, completed);
    SubtasksWellFormed(both, mid.subtasks);
    AutomateWellFormed(mid, id, if completed then TaskCompleted else TaskReopened, today);
  }

  lemma ArchiveWellFormed(db: Db, id: Schema.Id, archived: bool, supplied: nat, now: int)
    requires WellFormed(db) && ArchiveTask(db, id, archived, supplied, now).Ok?
    ensures WellFormed(ArchiveTask(db, id, archived, supplied, now).value)
  {
    hide WellFormed, SyncMirror;
    var row := ArchivedRow(db.tasks[id], archived, now);
    SetRowWellFormed(db, id, row);
    SyncWellFormed(WithTask(db, id, row), id);
  }

  lemma DestroyWellFormed(db: Db, id: Schema.Id, supplied: nat)
    requires WellFormed(db) && DestroyTask(db, id, supplied).Ok?
    ensures WellFormed(DestroyTask(db, id, supplied).value)
  {
    hide WellFormed, DeleteTasks, MirrorRows;
    DeleteWellFormed(db, MirrorRows(db, id));
    DeleteWellFormed(DeleteTasks(db, MirrorRows(db, id)), {id});
  }

  // ---------- Subtasks ----------

  lemma AddSubtaskWellFormed(db: Db, row: Subtask)
    requires WellFormed(db)
    ensures WellFormed(db.(subtasks := db.subtasks[db.nextId := row], nextId := db.nextId + 1))
  {
    hide ColumnsOk;
  }

  lemma ChangeSubtaskWellFormed(db: Db, id: Schema.Id, row: Subtask)
    requires WellFormed(db) && id in db.subtasks
    ensures WellFormed(db.(subtasks := db.subtasks[id := row]))
  {
    hide ColumnsOk;
  }

  lemma CreateSubtaskWellFormed(db: Db, task: Schema.Id, title: string, user: Option<Schema.Id>, now: int)
    requires WellFormed(db) && CreateSubtask(db, task, title, user, now).Ok?
    ensures WellFormed(CreateSubtask(db, task, title, user, now).value)
  {
    hide WellFormed, SyncSubtask;
    AddSubtaskWellFormed(db, Subtask(task, title, user, false, 1));
    SyncSubtaskWellFormed(db.(subtasks := db.subtasks[db.nextId := Subtask(task, title, user, false, 1)], nextId := db.nextId + 1), db.nextId, now);
  }

  lemma UpdateSubtaskWellFormed(db: Db, id: Schema.Id, supplied: nat, title: Option<string>,
                                forUser: Option<Option<Schema.Id>>, done: Option<bool>, now: int)
    requires WellFormed(db) && UpdateSubtask(db, id, supplied, title, forUser, done, now).Ok?
    ensures WellFormed(UpdateSubtask(db, id, supplied, title, forUser, done, now).value)
  {
    hide WellFormed, SyncSubtask;
    var s := db.subtasks[id];
    var row := Subtask(s.task, Or(title, s.title), Or(forUser, s.assignee), Or(done, s.done), s.version + 1);
    ChangeSubtaskWellFormed(db, id, row);
    SyncSubtaskWellFormed(db.(subtasks := db.subtasks[id := row]), id, now);
  }

  lemma DeleteSubtaskWellFormed(db: Db, id: Schema.Id, supplied: nat)
    requires WellFormed(db) && DeleteSubtask(db, id, supplied).Ok?
    ensures WellFormed(DeleteSubtask(db, id, supplied).value)
  {
    hide WellFormed, Unlinked;
    var after := DeleteSubtask(db, id, supplied).value;
    SubtasksWellFormed(db, after.subtasks);
    TasksWellFormed(db.(subtasks := after.subtasks), after.tasks);
  }

  // ---------- Columns and projects ----------

  lemma CreateColumnWellFormed(db: Db, board: Schema.Id, title: string, supplied: Option<nat>)
    requires WellFormed(db) && CreateColumnChecked(db, board, title, supplied).Ok?
    ensures WellFormed(CreateColumnChecked(db, board, title, supplied).value)
  {
    hide WellFormed, ColumnsOk, ColumnsKnown, Added, Bumped;
    var cols := Added(db.columns, board, db.nextId, title);
    NextIdUnused(db);
    ColumnsAreOk(db);
    AddedOk(db.columns, board, db.nextId, title);
    AddedKnown(db, board, title);
    ColumnsWellFormed(db, cols, db.nextId + 1);
    BumpWellFormed(CreateColumn(db, board, title).value, board);
  }

  lemma ReorderColumnsWellFormed(db: Db, board: Schema.Id, ids: seq<Schema.Id>, supplied: nat)
    requires WellFormed(db) && ReorderColumnsChecked(db, board, ids, supplied).Ok?
    ensures WellFormed(ReorderColumnsChecked(db, board, ids, supplied).value)
  {
    hide WellFormed, ColumnsOk, ColumnsKnown, Reordered, Bumped;
    var cols := Reordered(db.columns, board, ids).value;
    ColumnsAreOk(db);
    ReorderedOk(db.columns, board, ids);
    KnownColumns(db, cols);
    ColumnsWellFormed(db, cols, db.nextId);
    BumpWellFormed(ReorderColumns(db, board, ids).value, board);
  }

  lemma RemoveColumnWellFormed(db: Db, tasks: map<Schema.Id, Task>, column: Schema.Id)
    requires WellFormed(db) && column in db.columns && db.columns[column].role == NoRole && tasks.Keys <= db.tasks.Keys
    ensures WellFormed(db.(columns := Removed(db.columns, column), tasks := tasks))
  {
    hide WellFormed, ColumnsOk, ColumnsKnown, Removed;
    var cols := Removed(db.columns, column);
    ColumnsAreOk(db);
    RemovedOk(db.columns, column);
    KnownColumns(db, cols);
    ColumnsWellFormed(db, cols, db.nextId);
    TasksWellFormed(db.(columns := cols), tasks);
  }

  lemma DeleteColumnWellFormed(db: Db, column: Schema.Id, supplied: nat)
    requires WellFormed(db) && DeleteColumnChecked(db, column, supplied).Ok?
    ensures WellFormed(DeleteColumnChecked(db, column, supplied).value)
  {
    hide WellFormed, Removed, Bumped, ActiveIn;
    RemoveColumnWellFormed(db, ColumnCleared(db.tasks, column), column);
    BumpWellFormed(DeleteColumn(db, column).value, db.columns[column].board);
  }

  lemma DeleteWithMoveWellFormed(db: Db, column: Schema.Id, target: Schema.Id, supplied: nat)
    requires WellFormed(db) && DeleteColumnWithMoveChecked(db, column, target, supplied).Ok?
    ensures WellFormed(DeleteColumnWithMoveChecked(db, column, target, supplied).value)
  {
    hide WellFormed, Removed, Bumped, Listing, NextInColumn, Appended;
    var moved := Appended(db.tasks, Listing(db.tasks, column), target, NextInColumn(db.tasks, Some(target)));
    AppendedVersions(db.tasks, Listing(db.tasks, column), target, NextInColumn(db.tasks, Some(target)));
    RemoveColumnWellFormed(db, ColumnCleared(moved, column), column);
    BumpWellFormed(DeleteColumnWithMove(db, column, target).value, db.columns[column].board);
  }

  lemma CreateProjectWellFormed(db: Db, workspace: Schema.Id, slug: string)
    requires WellFormed(db) && CreateProject(db, workspace, slug).Ok?
    ensures WellFormed(CreateProject(db, workspace, slug).value)
  {
    hide WellFormed, WithProject, UniqueKey, TakenKeys;
    NewProjectWellFormed(db, workspace, UniqueKey(TakenKeys(db, workspace), slug));
  }

  lemma MoveProjectWellFormed(db: Db, project: Schema.Id, workspace: Schema.Id, slug: string, supplied: Option<nat>)
    requires WellFormed(db) && MoveProjectChecked(db, project, workspace, slug, supplied).Ok?
    ensures WellFormed(MoveProjectChecked(db, project, workspace, slug, supplied).value)
  {
    hide WellFormed, Transferred, UniqueKey, TakenKeys, Bumped;
    TransferredWellFormed(db, project, workspace, UniqueKey(TakenKeys(db, workspace), slug));
    var moved := MoveProject(db, project, workspace, slug).value;
    BumpWellFormed(moved, project);
    BumpWellFormed(moved, db.projects[project].board);
    BumpWellFormed(Bumped(moved, db.projects[project].board), project);
  }

  lemma EnsureBoardWellFormed(db: Db, user: Schema.Id)
    requires WellFormed(db)
    ensures WellFormed(EnsureBoard(db, user).0)
  {
    hide WellFormed, EnsureBoard, Extends;
    EnsureBoardOk(db, user);
  }

  /** Only settings, rules, teams and memberships differ. */
  ghost predicate SettingsOnly(db: Db, after: Db) {
    && after == db.(staticColumns := after.staticColumns, rules := after.rules, members := after.members,
                    workspaces := after.workspaces, nextId := after.nextId)
    && db.nextId <= after.nextId && forall w <- after.workspaces :: w < after.nextId
  }

  lemma SettingsWellFormed(db: Db, after: Db)
    requires WellFormed(db) && SettingsOnly(db, after)
    ensures WellFormed(after)
  {
    hide ColumnsOk;
  }

  /** The steps that change nothing else. */
  predicate ChangesSettings(op: Op) {
    op.SetDynamicOp? || op.CreateTeamOp? || op.LeaveTeamOp? || op.SaveRulesOp?
  }

  lemma StepSettings(db: Db, op: Op, clock: Clock)
    requires WellFormed(db) && ChangesSettings(op) && Step(db, op, clock).Ok?
    ensures SettingsOnly(db, Step(db, op, clock).value)
  {
    hide ColumnsOk, ColumnsHaveBoards, ProjectsHaveBoards, OnePersonalBoard;
  }

  lemma TeamIsSetting(db: Db, owner: Schema.Id)
    requires WellFormed(db)
    ensures SettingsOnly(db, CreateTeam(db, owner))
  {
    hide ColumnsOk, ColumnsHaveBoards, ProjectsHaveBoards, OnePersonalBoard;
  }

  lemma MemberIsSetting(db: Db, workspace: Schema.Id, user: Schema.Id)
    requires WellFormed(db)
    ensures SettingsOnly(db, WithMember(db, workspace, user))
  {
    hide ColumnsOk, ColumnsHaveBoards, ProjectsHaveBoards, OnePersonalBoard;
  }

  lemma JoinTeamWellFormed(db: Db, workspace: Schema.Id, user: Schema.Id)
    requires WellFormed(db) && JoinTeam(db, workspace, user).Ok?
    ensures WellFormed(JoinTeam(db, workspace, user).value)
  {
    hide WellFormed, SettingsOnly, EnsureBoard;
    MemberIsSetting(db, workspace, user);
    SettingsWellFormed(db, WithMember(db, workspace, user));
    EnsureBoardWellFormed(WithMember(db, workspace, user), user);
  }

  lemma RenameColumnWellFormed(db: Db, column: Schema.Id, title: string, supplied: Option<nat>)
    requires WellFormed(db) && RenameColumnChecked(db, column, title, supplied).Ok?
    ensures WellFormed(RenameColumnChecked(db, column, title, supplied).value)
  {
    hide WellFormed, ColumnsOk, ColumnsKnown, Bumped;
    var cols := Renamed(db.columns, column, title);
    ColumnsAreOk(db);
    RenamedOk(db.columns, column, title);
    KnownColumns(db, cols);
    ColumnsWellFormed(db, cols, db.nextId);
    BumpWellFormed(RenameColumn(db, column, title).value, column);
  }

  // ---------- All services ----------

  /** No service, applied to whatever rows, violates a key or a unique constraint
      of boards and columns, or lets the intake column leave its place. */
  lemma StepWellFormed(db: Db, op: Op, clock: Clock)
    requires WellFormed(db) && Step(db, op, clock).Ok?
    ensures WellFormed(Step(db, op, clock).value)
  {
    hide WellFormed, CreateTask, PatchTask, ClaimTask, MoveTask, SetCompleted, ArchiveTask, DestroyTask, CreateSubtask, UpdateSubtask, DeleteSubtask, CreateProject, MoveProjectChecked, CreateColumnChecked, ReorderColumnsChecked, DeleteColumnChecked, DeleteColumnWithMoveChecked, EnsureBoard, RenameColumnChecked, JoinTeam, SettingsOnly;
    if ChangesSettings(op) {
      StepSettings(db, op, clock);
      SettingsWellFormed(db, Step(db, op, clock).value);
      return;
    }
    match op
    case CreateTaskOp(board, actor, data) => CreateWellFormed(db, board, actor, data, clock.today);
    case UpdateTaskOp(task, asId, patch, supplied) => PatchWellFormed(db, task, asId, patch, supplied, clock.today);
    case ClaimTaskOp(task, user) => ClaimWellFormed(db, task, user);
    case MoveTaskOp(task, column, position, version) => MoveWellFormed(db, task, column, position, version, clock.today);
    case CompleteTaskOp(task, completed, version) => CompleteWellFormed(db, task, completed, version, clock.now, clock.today);
    case ArchiveTaskOp(task, archived, version) => ArchiveWellFormed(db, task, archived, version, clock.now);
    case DestroyTaskOp(task, version) => DestroyWellFormed(db, task, version);
    case CreateSubtaskOp(task, title, user) => CreateSubtaskWellFormed(db, task, title, user, clock.now);
    case UpdateSubtaskOp(subtask, version, title, assignee, done) =>
      UpdateSubtaskWellFormed(db, subtask, version, title, assignee, done, clock.now);
    case DeleteSubtaskOp(subtask, version) => DeleteSubtaskWellFormed(db, subtask, version);
    case CreateProjectOp(workspace, slug) => CreateProjectWellFormed(db, workspace, slug);
    case MoveProjectOp(project, workspace, slug, base) => MoveProjectWellFormed(db, project, workspace, slug, base);
    case CreateColumnOp(board, title, base) => CreateColumnWellFormed(db, board, title, base);
    case ReorderColumnsOp(board, ids, version) => ReorderColumnsWellFormed(db, board, ids, version);
    case DeleteColumnOp(column, version) => DeleteColumnWellFormed(db, column, version);
    case DeleteColumnWithMoveOp(column, target, version) => DeleteWithMoveWellFormed(db, column, target, version);
    case EnsureBoardOp(user) => EnsureBoardWellFormed(db, user);
    case RenameColumnOp(column, title, base) => RenameColumnWellFormed(db, column, title, base);
    case JoinTeamOp(workspace, user) => JoinTeamWellFormed(db, workspace, user);
  }

  /** The same over every run, without any restriction of its steps. */
  lemma {:induction false} RunWellFormed(db: Db, ops: seq<(Op, Clock)>)
    requires WellFormed(db)
    ensures WellFormed(Run(db, ops))
  {
    hide WellFormed, Step;
    if ops != [] {
      var n := |ops| - 1;
      RunWellFormed(db, ops[..n]);
      if Step(Run(db, ops[..n]), ops[n].0, ops[n].1).Ok? {
        StepWellFormed(Run(db, ops[..n]), ops[n].0, ops[n].1);
      }
    }
  }
}
