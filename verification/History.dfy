/** What no step ever changes: the origin of a canonical task, the place of a
    column, the presence of an intake column. Versions never fall, and ids are
    never used again. */
module History {
  import opened Boards
  import opened Columns
  import opened Consistency
  import opened Lifecycle
  import opened Mirroring
  import opened Options
  import opened Ordering
  import opened Placement
  import opened RouteKeys
  import opened Schema
  import opened Structure
  import opened Subtasks
  import opened Tasks
  import opened Workspace

  /** A canonical task stays canonical and keeps its origin. */
  ghost predicate RowFollows(t: Task, u: Task) {
    Canonical(t) ==> Canonical(u) && Origin(u) == Origin(t) && t.version <= u.version
  }

  ghost predicate TasksFollow(before: Db, after: Db) {
    && (forall t <- after.tasks :: t in before.tasks || before.nextId <= t)
    && (forall t <- before.tasks :: t in after.tasks ==> RowFollows(before.tasks[t], after.tasks[t]))
  }

  ghost predicate ColumnsFollow(before: Db, after: Db) {
    && (forall c <- after.columns :: c in before.columns || before.nextId <= c)
    && Preserves(before.columns, after.columns)
  }

  ghost predicate VersionsGrow(before: Db, after: Db) {
    forall id :: VersionOf(before, id) <= VersionOf(after, id)
  }

  ghost predicate Follows(before: Db, after: Db) {
    && VersionsGrow(before, after) && before.nextId <= after.nextId && before.projects.Keys <= after.projects.Keys
    && TasksFollow(before, after) && ColumnsFollow(before, after)
  }

  lemma BumpFollows(db: Db, id: Schema.Id)
    ensures Follows(db, Bumped(db, id))
  {
  }

  lemma FollowsTransitive(a: Db, b: Db, c: Db)
    requires IdsDrawn(a) && Follows(a, b) && Follows(b, c)
    ensures Follows(a, c)
  {
    forall t <- a.tasks | t in c.tasks
      ensures RowFollows(a.tasks[t], c.tasks[t])
    {
      assert t in b.tasks;
      assert RowFollows(a.tasks[t], b.tasks[t]) && RowFollows(b.tasks[t], c.tasks[t]);
    }
    forall k <- a.columns | k in c.columns
      ensures c.columns[k].board == a.columns[k].board && c.columns[k].role == a.columns[k].role
    {
      assert k in b.columns;
    }
  }

  lemma ExtendsFollows(a: Db, b: Db)
    requires Extends(a, b) && ColumnIdsFollow(a, b)
    ensures Follows(a, b)
  {
  }

  ghost predicate ColumnIdsFollow(a: Db, b: Db) {
    forall c <- b.columns :: c in a.columns || a.nextId <= c
  }

  lemma SetRowFollows(db: Db, id: Schema.Id, row: Task)
    requires id in db.tasks && RowFollows(db.tasks[id], row)
    ensures Follows(db, WithTask(db, id, row))
  {
  }

  lemma AddRowFollows(db: Db, row: Task)
    requires db.nextId !in db.tasks
    ensures Follows(db, WithNew(db, row))
  {
  }

  lemma SameTasksFollow(a: Db, b: Db)
    requires a.nextId <= b.nextId && a.projects == b.projects && a.columns == b.columns && a.tasks == b.tasks && VersionsGrow(a, b)
    ensures Follows(a, b)
  {
  }

  // ---------- Providing a board ----------

  lemma IntakeColumnIds(db: Db, board: Schema.Id, user: Schema.Id)
    ensures ColumnIdsFollow(db, WithIntake(db, board, user).0)
  {
    hide First, DEFAULT_TITLES;
  }

  lemma EnsureBoardColumnIds(db: Db, user: Schema.Id)
    requires WellFormed(db)
    ensures ColumnIdsFollow(db, EnsureBoard(db, user).0)
  {
    hide First, WithIntake, WellFormed, NewPersonalBoard;
    var existing := PersonalBoards(db, user);
    if existing != {} {
      IntakeColumnIds(db, Oldest(existing), user);
    } else {
      var (created, board) := NewPersonalBoard(db, user);
      NewBoardColumnIds(db, user);
      IntakeColumnIds(created, board, user);
    }
  }

  lemma NewBoardColumnIds(db: Db, user: Schema.Id)
    ensures ColumnIdsFollow(db, NewPersonalBoard(db, user).0) && db.nextId <= NewPersonalBoard(db, user).0.nextId
  {
    hide First, DefaultColumn;
  }

  lemma EnsureBoardFollows(db: Db, user: Schema.Id)
    requires WellFormed(db)
    ensures Follows(db, EnsureBoard(db, user).0)
  {
    hide EnsureBoard, WellFormed, Extends, ColumnIdsFollow;
    EnsureBoardOk(db, user);
    EnsureBoardColumnIds(db, user);
    ExtendsFollows(db, EnsureBoard(db, user).0);
  }

  lemma IntakeFollows(db: Db, user: Schema.Id)
    requires WellFormed(db)
    ensures Follows(db, Intake(db, user).0) && WellFormed(Intake(db, user).0) && Extends(db, Intake(db, user).0)
  {
    hide EnsureBoard, WithIntake, WellFormed, Extends, ColumnIdsFollow, Follows;
    var (db1, board) := EnsureBoard(db, user);
    EnsureBoardOk(db, user);
    EnsureBoardFollows(db, user);
    WithIntakeFollows(db1, board, user);
    IdsAreDrawn(db);
    FollowsTransitive(db, db1, WithIntake(db1, board, user).0);
    IntakeOk(db, user);
  }

  lemma WithIntakeFollows(db: Db, board: Schema.Id, user: Schema.Id)
    requires WellFormed(db) && board in db.boards
    ensures Follows(db, WithIntake(db, board, user).0)
  {
    hide WithIntake, WellFormed, Extends, ColumnIdsFollow;
    WithIntakeOk(db, board, user);
    IntakeColumnIds(db, board, user);
    ExtendsFollows(db, WithIntake(db, board, user).0);
  }

  lemma IdsAreDrawn(db: Db)
    requires WellFormed(db)
    ensures IdsDrawn(db)
  {
  }

  // ---------- Synchronising mirrors ----------

  lemma PrunedIds(db: Db, doomed: set<Schema.Id>)
    ensures var after := DeleteTasks(db, doomed);
            && after.columns == db.columns && after.nextId == db.nextId && after.projects == db.projects
            && after.versions == db.versions
            && after.tasks.Keys <= db.tasks.Keys
  {
  }

  /** Ids and columns. */
  ghost predicate Grows(a: Db, b: Db) {
    && VersionsGrow(a, b) && a.nextId <= b.nextId && a.projects.Keys <= b.projects.Keys
    && (forall t <- b.tasks :: t in a.tasks || a.nextId <= t) && ColumnsFollow(a, b)
  }

  lemma PlaceMirrorGrows(db: Db, id: Schema.Id, user: Schema.Id)
    requires WellFormed(db) && id in db.tasks
    ensures Grows(db, PlaceMirror(db, id, user))
  {
    hide WellFormed, DeleteTasks, Intake, NextInColumn, First, NewMirror, RefreshedMirror;
    IntakeFollows(db, user);
    var (db1, board, column) := Intake(db, user);
    var mirrors := AssignmentMirrors(db, id);
    PrunedIds(db1, mirrors - OnBoardIds(db, mirrors, board));
  }

  lemma SyncGrows(db: Db, id: Schema.Id)
    requires WellFormed(db) && id in db.tasks
    ensures Grows(db, SyncMirror(db, id))
  {
    hide WellFormed, DeleteTasks, PlaceMirror, AssignmentMirrors;
    if !OnProjectBoard(db, db.tasks[id]) || !Canonical(db.tasks[id]) || db.tasks[id].assignee.None? {
      PrunedIds(db, AssignmentMirrors(db, id));
    } else {
      PlaceMirrorGrows(db, id, db.tasks[id].assignee.value);
    }
  }

  lemma DifferFollows(a: Db, b: Db, id: Schema.Id)
    requires OnlyMirrorsDiffer(a, b, id) && Grows(a, b)
    ensures Follows(a, b)
  {
  }

  lemma SettledFollows(a: Db, id: Schema.Id, row: Task)
    requires WellFormed(a) && id in a.tasks && Settled(a, SyncMirror(a, id), id, row)
    ensures Follows(a, SyncMirror(a, id))
  {
    hide SyncMirror, WellFormed, Consistent, OnlyMirrorsDiffer, Grows;
    SyncGrows(a, id);
    DifferFollows(a, SyncMirror(a, id), id);
  }

  // ---------- Rules ----------

  lemma AutomateFollows(db: Db, id: Schema.Id, trigger: Trigger, today: int)
    requires id in db.tasks && Automate(db, id, trigger, today).Ok?
    ensures Follows(db, Automate(db, id, trigger, today).value) && id in Automate(db, id, trigger, today).value.tasks
  {
    hide RuleTarget, NextInColumn;
    var target := RuleTarget(db, db.tasks[id], trigger, db.rules, today);
    if target.Some? {
      SetRowFollows(db, id, Automated(db.tasks[id], target.value, NextInColumn(db.tasks, target)));
    } else {
      SameTasksFollow(db, db);
    }
  }

  lemma AutomateIfFollows(db: Db, id: Schema.Id, fires: bool, trigger: Trigger, today: int)
    requires id in db.tasks && AutomateIf(db, id, fires, trigger, today).Ok?
    ensures Follows(db, AutomateIf(db, id, fires, trigger, today).value)
            && id in AutomateIf(db, id, fires, trigger, today).value.tasks
  {
    hide Automate, Follows;
    if fires {
      AutomateFollows(db, id, trigger, today);
    } else {
      SameTasksFollow(db, db);
    }
  }

  // ---------- update_task and claim_pool_task ----------

  lemma ReleasedFollows(db: Db, t: Task, p: Schema.Id)
    requires p in db.projects && Canonical(t) && ReleaseProject(t) == Some(p) && Origin(t) == Some(p)
    ensures RowFollows(t, Raised(Released(db, t, p)))
  {
    hide NextInPool;
  }

  lemma EditedFollows(db: Db, t: Task, p: Patch)
    ensures RowFollows(t, Raised(Edited(db, t, p)))
  {
    hide NextInPool, NextInColumn, Patched;
  }

  lemma SendToFollows(db: Db, id: Schema.Id, poolSource: Option<Schema.Id>, user: Schema.Id)
    requires Consistent(db) && id in db.tasks && Canonical(db.tasks[id]) && poolSource == Origin(db.tasks[id])
    ensures Follows(db, SendTo(db, id, poolSource, user)) && WellFormed(SendTo(db, id, poolSource, user))
  {
    hide Consistent, Intake, NextInColumn, Follows, WellFormed, Extends;
    Apart(db);
    IntakeFollows(db, user);
    var (db1, board, column) := Intake(db, user);
    SameRowInIntake(db, user, id);
    var row := SendTo(db, id, poolSource, user).tasks[id];
    assert RowFollows(db1.tasks[id], row);
    SetRowFollows(db1, id, row);
    SetRowWellFormed(db1, id, row);
    IdsAreDrawn(db);
    FollowsTransitive(db, db1, WithTask(db1, id, row));
  }

  lemma SameRowInIntake(db: Db, user: Schema.Id, id: Schema.Id)
    requires WellFormed(db) && id in db.tasks
    ensures id in Intake(db, user).0.tasks && Intake(db, user).0.tasks[id] == db.tasks[id]
  {
    hide Intake, WellFormed;
    IntakeOk(db, user);
  }

  lemma SetRowWellFormed(db: Db, id: Schema.Id, row: Task)
    requires WellFormed(db) && id in db.tasks
    ensures WellFormed(WithTask(db, id, row))
  {
    hide ColumnsOk;
  }

  lemma WriteFollows(db: Db, id: Schema.Id, row: Task)
    requires WellFormed(db) && id in db.tasks && RowFollows(db.tasks[id], row)
    ensures Follows(db, WithTask(db, id, row)) && WellFormed(WithTask(db, id, row))
  {
    hide Follows, WellFormed, RowFollows;
    SetRowFollows(db, id, row);
    SetRowWellFormed(db, id, row);
  }

  lemma ReleaseFollows(db: Db, id: Schema.Id, p: Patch)
    requires Consistent(db) && id in db.tasks && Canonical(db.tasks[id]) && Releases(db.tasks[id], p) && Routed(db, id, p).Ok?
    ensures Follows(db, Routed(db, id, p).value) && WellFormed(Routed(db, id, p).value)
  {
    hide Consistent, Follows, Released, Edited, SendTo, RowFollows, WellFormed, Releases, HandsOver;
    Apart(db);
    OriginExists(db, id);
    ReleasedFollows(db, db.tasks[id], ReleaseProject(db.tasks[id]).value);
    WriteFollows(db, id, Raised(Released(db, db.tasks[id], ReleaseProject(db.tasks[id]).value)));
  }

  lemma EditFollows(db: Db, id: Schema.Id, p: Patch)
    requires Consistent(db) && id in db.tasks && !Releases(db.tasks[id], p) && !HandsOver(db, db.tasks[id], p)
    ensures Follows(db, Routed(db, id, p).value) && WellFormed(Routed(db, id, p).value)
  {
    hide Consistent, Follows, Released, Edited, SendTo, RowFollows, WellFormed, Releases, HandsOver;
    Apart(db);
    EditedFollows(db, db.tasks[id], p);
    WriteFollows(db, id, Raised(Edited(db, db.tasks[id], p)));
  }

  lemma RoutedFollows(db: Db, id: Schema.Id, p: Patch)
    requires Consistent(db) && id in db.tasks && Canonical(db.tasks[id]) && Routed(db, id, p).Ok?
    ensures Follows(db, Routed(db, id, p).value) && WellFormed(Routed(db, id, p).value)
  {
    hide Consistent, Follows, Routed, WellFormed, Releases, SendTo, Writes;
    if Releases(db.tasks[id], p) {
      ReleaseFollows(db, id, p);
    } else if HandsOver(db, db.tasks[id], p) {
      HandOverWrites(db, id, p);
      SendToFollows(db, id, Origin(db.tasks[id]), RequestedAssignee(db.tasks[id], p).value);
    } else {
      EditFollows(db, id, p);
    }
  }

  lemma UpdateFollows(db: Db, id: Schema.Id, p: Patch, supplied: Option<nat>, today: int)
    requires Consistent(db) && id in db.tasks && Canonical(db.tasks[id]) && UpdateTask(db, id, p, supplied, today).Ok?
    ensures Follows(db, UpdateTask(db, id, p, supplied, today).value)
  {
    hide Consistent, Routed, SyncMirror, Patched, DatesInOrder, FullyClean, AutomateIf, Settled, Follows, WellFormed, EntersColumn;
    Apart(db);
    IdsAreDrawn(db);
    AdmittedIsChecked(db, id, p, supplied, today);
    UpdateSettles(db, id, p);
    RoutedFollows(db, id, p);
    var routed := Routed(db, id, p).value;
    var synced := SyncMirror(routed, id);
    SettledFollows(routed, id, routed.tasks[id]);
    FollowsTransitive(db, routed, synced);
    var changed := synced.tasks[id].assignee != db.tasks[id].assignee;
    AutomateIfFollows(synced, id, changed, TaskAssigned, today);
    var reassigned := AutomateIf(synced, id, changed, TaskAssigned, today).value;
    FollowsTransitive(db, synced, reassigned);
    AutomateIfFollows(reassigned, id, EntersColumn(db, db.tasks[id], p), ColumnEntered, today);
    FollowsTransitive(db, reassigned, AutomateIf(reassigned, id, EntersColumn(db, db.tasks[id], p), ColumnEntered, today).value);
  }

  lemma ClaimFollows(db: Db, id: Schema.Id, user: Schema.Id)
    requires Consistent(db) && ClaimTask(db, id, user).Ok?
    ensures Follows(db, ClaimTask(db, id, user).value)
  {
    hide Consistent, SendTo, SyncMirror, Follows, WellFormed, Settled, Intake;
    Apart(db);
    IdsAreDrawn(db);
    PooledIsCanonical(db, id);
    SendToFollows(db, id, db.tasks[id].project, user);
    SendToWrites(db, id, db.tasks[id].project, user);
    var sent := SendTo(db, id, db.tasks[id].project, user);
    var cleared := ClearedSubtasks(sent, id, user);
    SameTasksFollow(sent, cleared);
    FollowsTransitive(db, sent, cleared);
    ClaimSettles(Intake(db, user).0, id, user, sent.tasks[id]);
    ClearedWellFormed(sent, id, user);
    SettledFollows(cleared, id, sent.tasks[id]);
    FollowsTransitive(db, cleared, SyncMirror(cleared, id));
  }

  lemma ClearedWellFormed(db: Db, id: Schema.Id, user: Schema.Id)
    requires WellFormed(db)
    ensures WellFormed(ClearedSubtasks(db, id, user))
  {
    hide ColumnsOk;
  }

  // ---------- create_task ----------

  lemma DestinationFollows(db: Db, board: Schema.Id, data: NewTask)
    requires Consistent(db) && board in db.boards
    ensures Follows(db, Destination(db, board, data).0)
  {
    hide Consistent, Intake, WithIntake, First, Follows, WellFormed;
    Apart(db);
    SameTasksFollow(db, db);
    if db.boards[board].PersonalBoard? {
      var owner := db.boards[board].owner;
      if data.assignee.Some? && data.assignee.value != owner {
        IntakeFollows(db, data.assignee.value);
      } else {
        WithIntakeFollows(db, board, owner);
      }
    }
  }

  lemma CreateFollows(db: Db, board: Schema.Id, actor: Schema.Id, data: NewTask, today: int)
    requires Consistent(db) && CreateTask(db, board, actor, data, today).Ok?
    ensures Follows(db, CreateTask(db, board, actor, data, today).value.0)
  {
    hide Consistent, Destination, CreatedRow, SyncMirror, Automate, Addable, DatesInOrder, WellFormed, Follows, ColumnFits, Settled, RowAllowed;
    DestinationOk(db, board, data);
    DestinationFollows(db, board, data);
    CreatedFits(db, board, actor, data);
    var (db1, target, assignee, column) := Destination(db, board, data);
    var row := CreatedRow(db1, target, assignee, column, actor, data);
    var with, id := WithNew(db1, row), db1.nextId;
    Apart(db);
    Apart(db1);
    NextIdUnused(db1);
    AddRowFollows(db1, row);
    AddAndSync(db1, row);
    NewRowWellFormed(db1, row);
    IdsAreDrawn(db);
    FollowsTransitive(db, db1, with);
    SettledFollows(with, id, row);
    FollowsTransitive(db, with, SyncMirror(with, id));
    var synced := SyncMirror(with, id);
    SettledHas(with, id, row);
    AutomateFollows(synced, id, TaskCreated, today);
    FollowsTransitive(db, synced, Automate(synced, id, TaskCreated, today).value);
  }

  lemma SettledHas(a: Db, id: Schema.Id, row: Task)
    requires id in a.tasks && Settled(a, SyncMirror(a, id), id, row)
    ensures id in SyncMirror(a, id).tasks
  {
    hide SyncMirror, Consistent;
  }

  lemma NewRowWellFormed(db: Db, row: Task)
    requires WellFormed(db)
    ensures WellFormed(WithNew(db, row))
  {
    hide ColumnsOk;
  }

  // ---------- set_task_completed and archive_task ----------

  lemma CompletedFollows(t: Task, completed: bool, now: int)
    ensures RowFollows(t, Completed(t, completed, now))
  {
  }

  lemma SyncOfMirrorFollows(db: Db, id: Schema.Id)
    requires id in db.tasks && !Canonical(db.tasks[id]) && AssignmentMirrors(db, id) == {}
    ensures SyncMirror(db, id) == db
  {
    DeleteNothing(db);
  }

  lemma CompleteCanonicalFollows(db: Db, id: Schema.Id, completed: bool, now: int)
    requires Consistent(db) && id in db.tasks && Canonical(db.tasks[id])
    ensures var both := CompleteBoth(db, id, completed, now); both.Ok? && Follows(db, both.value)
  {
    hide Consistent, SyncMirror, Follows, RowFollows, WellFormed, Settled, RowOk;
    var row := Completed(db.tasks[id], completed, now);
    Apart(db);
    IdsAreDrawn(db);
    CompletedFollows(db.tasks[id], completed, now);
    WriteFollows(db, id, row);
    CompletedFits(db, id, completed, now);
    WriteAndSync(db, id, row);
    SettledFollows(WithTask(db, id, row), id, row);
    FollowsTransitive(db, WithTask(db, id, row), SyncMirror(WithTask(db, id, row), id));
  }

  lemma CompleteMirrorFollows(db: Db, id: Schema.Id, s: Schema.Id, completed: bool, now: int)
    requires Consistent(db) && id in db.tasks && IsAssignmentMirror(db.tasks[id]) && db.tasks[id].sourceTask == Some(s)
    ensures var both := CompleteBoth(db, id, completed, now); both.Ok? && Follows(db, both.value)
  {
    hide Consistent, Core, AgreeExcept, SyncMirror, Follows, RowFollows, WellFormed, OnlyMirrorsDiffer, MirrorExact, Grows;
    CompleteMirror(db, id, s, completed, now);
    BothWritten(db, id, s, completed, now);
    BothStand(db, id, s, completed, now);
    Apart(db);
    IdsAreDrawn(db);
    var db1, written := WithTask(db, id, Completed(db.tasks[id], completed, now)), BothRows(db, id, s, completed, now);
    CompletedFollows(db.tasks[id], completed, now);
    CompletedFollows(db.tasks[s], completed, now);
    WriteFollows(db, id, Completed(db.tasks[id], completed, now));
    WriteFollows(db1, s, Completed(db.tasks[s], completed, now));
    FollowsTransitive(db, db1, written);
    SyncRestores(written, s);
    SyncGrows(written, s);
    DifferFollows(written, SyncMirror(written, s), s);
    FollowsTransitive(db, written, SyncMirror(written, s));
  }

  lemma CompleteSubtaskMirrorFollows(db: Db, id: Schema.Id, s: Schema.Id, completed: bool, now: int)
    requires Consistent(db) && id in db.tasks && db.tasks[id].sourceSubtask == Some(s)
    ensures var both := CompleteBoth(db, id, completed, now); both.Ok? && Follows(db, both.value)
  {
    hide Consistent, SyncMirror, Follows, RowFollows, WellFormed;
    var db1 := WithTask(db, id, Completed(db.tasks[id], completed, now));
    Apart(db);
    CompletedFollows(db.tasks[id], completed, now);
    WriteFollows(db, id, Completed(db.tasks[id], completed, now));
    NoMirrorOfMirror(db, id);
    assert AssignmentMirrors(db1, id) == {};
    SyncOfMirrorFollows(db1, id);
  }

  lemma SubtaskDoneFollows(db: Db, subtask: Option<Schema.Id>, completed: bool)
    ensures Follows(db, CompleteSubtask(db, subtask, completed)) && CompleteSubtask(db, subtask, completed).tasks == db.tasks
  {
    SameTasksFollow(db, CompleteSubtask(db, subtask, completed));
    hide Follows;
  }

  lemma CompleteFollows(db: Db, id: Schema.Id, completed: bool, supplied: nat, now: int, today: int)
    requires Consistent(db) && SetCompleted(db, id, completed, supplied, now, today).Ok?
    ensures Follows(db, SetCompleted(db, id, completed, supplied, now, today).value)
  {
    hide Consistent, CompleteBoth, CompleteSubtask, Follows, Automate, WellFormed, RowsOk, LinksOk, UniqueMirrors, SubtasksAgree, RouteKeysUnique, AgreeExcept;
    var t := db.tasks[id];
    Apart(db);
    IdsAreDrawn(db);
    if t.sourceSubtask.Some? {
      CompleteSubtaskMirrorFollows(db, id, t.sourceSubtask.value, completed, now);
    } else if t.sourceTask.Some? {
      CompleteMirrorFollows(db, id, t.sourceTask.value, completed, now);
    } else {
      CompleteCanonicalFollows(db, id, completed, now);
    }
    var both := CompleteBoth(db, id, completed, now).value;
    var mid := CompleteSubtask(both, t.sourceSubtask, completed);
    var trigger := if completed then TaskCompleted else TaskReopened;
    SubtaskDoneFollows(both, t.sourceSubtask, completed);
    FollowsTransitive(db, both, mid);
    AutomateFollows(mid, id, trigger, today);
    FollowsTransitive(db, mid, Automate(mid, id, trigger, today).value);
  }

  lemma ArchiveFollows(db: Db, id: Schema.Id, archived: bool, supplied: nat, now: int)
    requires Consistent(db) && ArchiveTask(db, id, archived, supplied, now).Ok? && Canonical(db.tasks[id])
    ensures Follows(db, ArchiveTask(db, id, archived, supplied, now).value)
  {
    hide Consistent, SyncMirror, Follows, WellFormed, Settled;
    var row := db.tasks[id].(archivedAt := if archived then Some(now) else None, version := supplied + 1);
    Apart(db);
    IdsAreDrawn(db);
    RowAt(db, id);
    WriteFollows(db, id, row);
    WriteAndSync(db, id, row);
    SettledFollows(WithTask(db, id, row), id, row);
    FollowsTransitive(db, WithTask(db, id, row), SyncMirror(WithTask(db, id, row), id));
  }

  lemma DestroyFollows(db: Db, id: Schema.Id, supplied: nat)
    requires Consistent(db) && DestroyTask(db, id, supplied).Ok?
    ensures Follows(db, DestroyTask(db, id, supplied).value)
  {
    hide Consistent, DeleteTasks, MirrorRows;
    DestroyKeeps(db, id, supplied);
    PrunedIds(db, MirrorRows(db, id));
    PrunedIds(DeleteTasks(db, MirrorRows(db, id)), {id});
  }

  // ---------- Subtasks ----------

  lemma PlaceSubtaskGrows(db: Db, s: Schema.Id, user: Schema.Id, now: int)
    requires WellFormed(db) && s in db.subtasks && db.subtasks[s].task in db.tasks
    ensures Grows(db, PlaceSubtaskMirror(db, s, user, now))
  {
    hide WellFormed, Intake, NextInColumn, First, SubtaskMirrorRow, BlankMirror, Rehomed;
    IntakeFollows(db, user);
    IntakeOk(db, user);
  }

  lemma SyncSubtaskGrows(db: Db, s: Schema.Id, now: int)
    requires WellFormed(db) && s in db.subtasks && db.subtasks[s].task in db.tasks
    ensures Grows(db, SyncSubtask(db, s, now))
  {
    hide WellFormed, DeleteTasks, PlaceSubtaskMirror;
    if !OnProjectBoard(db, db.tasks[db.subtasks[s].task]) || db.subtasks[s].assignee.None? {
      PrunedIds(db, FirstMirror(db, s));
    } else {
      PlaceSubtaskGrows(db, s, db.subtasks[s].assignee.value, now);
    }
  }

  lemma SubtaskSyncFollows(db: Db, s: Schema.Id, srow: Subtask, now: int)
    requires Consistent(db) && s in db.subtasks && srow.task == db.subtasks[s].task && srow.task in db.tasks
    ensures Follows(db, SyncSubtask(WithSubtask(db, s, srow), s, now))
  {
    hide Consistent, SyncSubtask, SubtaskMirrorExact, Grows, WellFormed;
    Apart(db);
    SubtaskKeepsTables(db, s, srow);
    SyncSubtaskRestores(db, s, srow, now);
    SyncSubtaskGrows(WithSubtask(db, s, srow), s, now);
    SubtaskDifferFollows(db, WithSubtask(db, s, srow), SyncSubtask(WithSubtask(db, s, srow), s, now), s);
  }

  lemma SubtaskDifferFollows(a: Db, mid: Db, b: Db, s: Schema.Id)
    requires OnlySubtaskMirrorsDiffer(a, b, s) && Grows(mid, b) && mid.(subtasks := a.subtasks) == a
    ensures Follows(a, b)
  {
  }

  lemma CreateSubtaskFollows(db: Db, task: Schema.Id, title: string, user: Option<Schema.Id>, now: int)
    requires Consistent(db) && CreateSubtask(db, task, title, user, now).Ok?
    ensures Follows(db, CreateSubtask(db, task, title, user, now).value)
  {
    hide Consistent, SyncSubtask, Follows, WellFormed;
    var row := Subtask(task, title, user, false, 1);
    var db1 := WithNewSubtask(db, row);
    NewSubtaskKeeps(db, task, row);
    assert WithSubtask(db1, db.nextId, row) == db1 by {
      assert db1.subtasks[db.nextId := row] == db1.subtasks;
    }
    Apart(db);
    IdsAreDrawn(db);
    SameTasksFollow(db, db1);
    SubtaskSyncFollows(db1, db.nextId, row, now);
    FollowsTransitive(db, db1, SyncSubtask(db1, db.nextId, now));
  }

  lemma UpdateSubtaskFollows(db: Db, id: Schema.Id, supplied: nat, title: Option<string>,
                             forUser: Option<Option<Schema.Id>>, done: Option<bool>, now: int)
    requires Consistent(db) && UpdateSubtask(db, id, supplied, title, forUser, done, now).Ok?
    ensures Follows(db, UpdateSubtask(db, id, supplied, title, forUser, done, now).value)
  {
    hide Consistent, SyncSubtask, Follows;
    var s := db.subtasks[id];
    SubtaskSyncFollows(db, id, Subtask(s.task, Or(title, s.title), Or(forUser, s.assignee), Or(done, s.done), s.version + 1), now);
  }

  lemma DeleteSubtaskFollows(db: Db, id: Schema.Id, supplied: nat)
    requires DeleteSubtask(db, id, supplied).Ok? && SubtaskMirrors(db, id) == {}
    ensures Follows(db, DeleteSubtask(db, id, supplied).value)
  {
    var after := DeleteSubtask(db, id, supplied).value;
    forall t | t in db.tasks
      ensures Unlinked(db.tasks[t], {}, {id}) == db.tasks[t]
    {
      assert t !in SubtaskMirrors(db, id);
    }
    assert after.tasks == db.tasks;
    SameTasksFollow(db, after);
  }

  // ---------- Order, columns and projects ----------

  /** Only places, teams and versions of tasks change, and no task is added. */
  ghost predicate TasksCosmetic(a: Db, b: Db) {
    && b.tasks.Keys == a.tasks.Keys
    && forall t <- a.tasks :: Cosmetic(a.tasks[t], b.tasks[t]) && a.tasks[t].version <= b.tasks[t].version
  }

  lemma CosmeticFollows(a: Db, b: Db)
    requires VersionsGrow(a, b) && TasksCosmetic(a, b) && ColumnsFollow(a, b) && a.nextId <= b.nextId && a.projects.Keys <= b.projects.Keys
    ensures Follows(a, b)
  {
    hide Preserves;
  }

  lemma MovedCosmetic(a: Db, b: Db, id: Schema.Id, column: Schema.Id)
    requires OnlyPositionsAnd(a.tasks, b.tasks, id, column)
    ensures TasksCosmetic(a, b)
  {
  }

  lemma MovedIsCosmetic(db: Db, id: Schema.Id, column: Schema.Id, target: int)
    requires id in db.tasks
    ensures id in Moved(db, id, column, target).tasks && Follows(db, Moved(db, id, column, target))
  {
    var moved := Moved(db, id, column, target);
    MovedRows(db, id, column, target);
    assert id in moved.tasks;
    MovedCosmetic(db, moved, id, column);
    hide Moved, OnlyPositionsAnd, TasksCosmetic;
    CosmeticFollows(db, moved);
  }

  lemma MoveFollows(db: Db, id: Schema.Id, column: Schema.Id, target: int, supplied: nat, today: int)
    requires Consistent(db) && MoveTask(db, id, column, target, supplied, today).Ok?
    ensures Follows(db, MoveTask(db, id, column, target, supplied, today).value)
  {
    var moved := Moved(db, id, column, target);
    MovedIsCosmetic(db, id, column, target);
    hide Consistent, Moved, Automate, WellFormed, Follows;
    Apart(db);
    IdsAreDrawn(db);
    AutomateFollows(moved, id, ColumnEntered, today);
    FollowsTransitive(db, moved, Automate(moved, id, ColumnEntered, today).value);
  }

  lemma CreateColumnFollows(db: Db, board: Schema.Id, title: string)
    requires Consistent(db) && CreateColumn(db, board, title).Ok?
    ensures Follows(db, CreateColumn(db, board, title).value)
  {
    hide Consistent, WellFormed, ColumnsOk, Preserves;
    Apart(db);
    NextIdUnused(db);
    ColumnsAreOk(db);
    AddedOk(db.columns, board, db.nextId, title);
    var after := CreateColumn(db, board, title).value;
    assert ColumnsFollow(db, after) by { hide NextFree; }
    hide ColumnsFollow;
    assert TasksCosmetic(db, after);
    CosmeticFollows(db, after);
  }

  lemma RenameFollows(db: Db, column: Schema.Id, title: string)
    requires Consistent(db) && RenameColumn(db, column, title).Ok?
    ensures Follows(db, RenameColumn(db, column, title).value)
  {
    hide Consistent, WellFormed, ColumnsOk, Preserves;
    Apart(db);
    ColumnsAreOk(db);
    RenamedOk(db.columns, column, title);
    var after := RenameColumn(db, column, title).value;
    assert TasksCosmetic(db, after);
    CosmeticFollows(db, after);
  }

  lemma ReorderFollows(db: Db, board: Schema.Id, ids: seq<Schema.Id>)
    requires Consistent(db) && ReorderColumns(db, board, ids).Ok?
    ensures Follows(db, ReorderColumns(db, board, ids).value)
  {
    hide Consistent, WellFormed, ColumnsOk, Preserves, Reordered;
    Apart(db);
    ColumnsAreOk(db);
    ReorderedOk(db.columns, board, ids);
    var after := ReorderColumns(db, board, ids).value;
    assert TasksCosmetic(db, after);
    CosmeticFollows(db, after);
  }

  lemma ClearedCosmetic(db: Db, tasks: map<Schema.Id, Task>, column: Schema.Id, after: Db)
    requires TasksCosmetic(db, db.(tasks := tasks)) && after.tasks == ColumnCleared(tasks, column)
    ensures TasksCosmetic(db, after)
  {
  }

  lemma RemoveFollows(db: Db, tasks: map<Schema.Id, Task>, column: Schema.Id)
    requires Consistent(db) && column in db.columns && db.columns[column].role == NoRole
    requires TasksCosmetic(db, db.(tasks := tasks))
    ensures Follows(db, db.(columns := Removed(db.columns, column), tasks := ColumnCleared(tasks, column)))
  {
    hide Consistent, WellFormed, ColumnsOk, Preserves, Removed;
    Apart(db);
    ColumnsAreOk(db);
    RemovedOk(db.columns, column);
    var after := db.(columns := Removed(db.columns, column), tasks := ColumnCleared(tasks, column));
    ClearedCosmetic(db, tasks, column, after);
    hide TasksCosmetic, ColumnCleared;
    CosmeticFollows(db, after);
  }

  lemma {:induction false} AppendedVersions(tasks: map<Schema.Id, Task>, ids: seq<Schema.Id>, column: Schema.Id, base: nat)
    ensures var after := Appended(tasks, ids, column, base);
            after.Keys == tasks.Keys && forall t <- tasks :: tasks[t].version <= after[t].version
  {
    if ids != [] {
      AppendedVersions(tasks, ids[..|ids| - 1], column, base);
    }
  }

  lemma DeleteColumnFollows(db: Db, column: Schema.Id)
    requires Consistent(db) && DeleteColumn(db, column).Ok?
    ensures Follows(db, DeleteColumn(db, column).value)
  {
    hide Consistent, Removed, ColumnCleared, Follows;
    assert db.(tasks := db.tasks) == db;
    RemoveFollows(db, db.tasks, column);
  }

  lemma DeleteWithMoveFollows(db: Db, column: Schema.Id, target: Schema.Id)
    requires Consistent(db) && DeleteColumnWithMove(db, column, target).Ok?
    ensures Follows(db, DeleteColumnWithMove(db, column, target).value)
  {
    hide Consistent, Removed, ColumnCleared, Appended, Listing, NextInColumn, Follows;
    var base := NextInColumn(db.tasks, Some(target));
    AppendedRows(db.tasks, Listing(db.tasks, column), target, base);
    AppendedVersions(db.tasks, Listing(db.tasks, column), target, base);
    RemoveFollows(db, Appended(db.tasks, Listing(db.tasks, column), target, base), column);
  }

  lemma CreateProjectFollows(db: Db, workspace: Schema.Id, slug: string)
    requires Consistent(db) && CreateProject(db, workspace, slug).Ok?
    ensures Follows(db, CreateProject(db, workspace, slug).value)
  {
    hide Consistent, WellFormed, ColumnsFollow, UniqueKey, TakenKeys, WithDefaults;
    Apart(db);
    var after := CreateProject(db, workspace, slug).value;
    NewColumnsFollow(db, after);
    assert TasksCosmetic(db, after);
    CosmeticFollows(db, after);
  }

  lemma NewColumnsFollow(db: Db, after: Db)
    requires WellFormed(db) && after.columns == WithDefaults(db.columns, db.nextId, 0, db.nextId + 1)
    ensures ColumnsFollow(db, after)
  {
    hide Preserves, ColumnsOk, WithDefaults, WellFormed, OnBoard;
    NewColumnsReady(db);
    DefaultsPreserve(db.columns, db.nextId);
    DefaultsAreNew(db.columns, db.nextId, db.nextId + 1);
  }

  lemma DefaultsPreserve(cols: Cols, board: Schema.Id)
    requires ColumnsOk(cols) && OnBoard(cols, board) == {} && board + 1 !in cols && board + 2 !in cols && board + 3 !in cols
    ensures Preserves(cols, WithDefaults(cols, board, 0, board + 1))
  {
    hide Preserves, ColumnsOk, WithDefaults, OnBoard;
    WithDefaultsOk(cols, board, 0, board + 1);
  }

  lemma DefaultsAreNew(cols: Cols, board: Schema.Id, newId: Schema.Id)
    ensures forall c <- WithDefaults(cols, board, 0, newId) :: c in cols || newId <= c
  {
    hide DefaultColumn;
  }

  lemma NewColumnsReady(db: Db)
    requires WellFormed(db)
    ensures ColumnsOk(db.columns) && OnBoard(db.columns, db.nextId) == {}
    ensures db.nextId + 1 !in db.columns && db.nextId + 2 !in db.columns && db.nextId + 3 !in db.columns
  {
    hide ColumnsOk, ProjectsHaveBoards, OnePersonalBoard;
  }

  lemma MoveProjectFollows(db: Db, project: Schema.Id, workspace: Schema.Id, slug: string)
    requires Consistent(db) && MoveProject(db, project, workspace, slug).Ok?
    ensures Follows(db, MoveProject(db, project, workspace, slug).value)
  {
    hide UniqueKey, TakenKeys, Consistent, Transferred, Follows;
    if db.projects[project].workspace == workspace {
      SameTasksFollow(db, db);
    } else {
      TransferredFollows(db, project, workspace, UniqueKey(TakenKeys(db, workspace), slug));
    }
  }

  lemma TransferredFollows(db: Db, project: Schema.Id, workspace: Schema.Id, key: string)
    requires project in db.projects
    ensures Follows(db, Transferred(db, project, workspace, key))
  {
    var after := Transferred(db, project, workspace, key);
    MovedTasksRetouched(db.tasks, project, workspace);
    assert TasksCosmetic(db, after);
    assert ColumnsFollow(db, after) && VersionsGrow(db, after);
    hide TasksCosmetic, ColumnsFollow, VersionsGrow, TasksMoved;
    CosmeticFollows(db, after);
  }
}