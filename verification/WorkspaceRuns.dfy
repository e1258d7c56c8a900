/** Whole runs of the workspace: every service, in any order and any number. */
module WorkspaceRuns {
  import opened Boards
  import opened Columns
  import opened Consistency
  import opened History
  import opened Lifecycle
  import opened Locking
  import opened MirrorEdits
  import opened Mirroring
  import opened Options
  import opened Overwrites
  import opened Placement
  import opened Schema
  import opened Structure
  import opened Tasks
  import opened Validity
  import opened Workspace

  lemma EnsureBoardKeeps(db: Db, user: Schema.Id)
    requires Consistent(db)
    ensures Consistent(EnsureBoard(db, user).0) && Follows(db, EnsureBoard(db, user).0)
  {
    hide Consistent, EnsureBoard, WellFormed, Extends, Follows;
    Apart(db);
    EnsureBoardOk(db, user);
    EnsureBoardFollows(db, user);
    ExtendsConsistent(db, EnsureBoard(db, user).0);
  }

  /** Settings, rules, teams and memberships are nothing consistency speaks of. */
  lemma SettingsKeep(db: Db, after: Db)
    requires Consistent(db) && SettingsOnly(db, after)
    ensures Consistent(after) && Follows(db, after)
  {
    hide Consistent, PlacesChange, WellFormed, RowsOk, LinksOk, UniqueMirrors, SubtasksAgree, RouteKeysUnique, AgreeExcept;
    SameTasksFollow(db, after);
    hide Follows;
    Apart(db);
    SettingsWellFormed(db, after);
    SettingsPlaces(db, after);
    PlacesChanged(db, after);
  }

  lemma SettingsPlaces(db: Db, after: Db)
    requires Consistent(db) && SettingsOnly(db, after)
    ensures PlacesChange(db, after)
  {
    hide Consistent;
    forall t <- db.tasks ensures ColumnFits(db, db.tasks[t].column, db.tasks[t].board) && (db.tasks[t].pool ==> db.tasks[t].column.None?) {
      TaskColumnFits(db, t);
    }
  }

  lemma JoinTeamKeeps(db: Db, workspace: Schema.Id, user: Schema.Id)
    requires Consistent(db) && JoinTeam(db, workspace, user).Ok?
    ensures Consistent(JoinTeam(db, workspace, user).value) && Follows(db, JoinTeam(db, workspace, user).value)
  {
    hide Consistent, Follows, EnsureBoard, SettingsOnly, WithMember, WellFormed, RowsOk, LinksOk, UniqueMirrors, SubtasksAgree, RouteKeysUnique, AgreeExcept;
    Apart(db);
    IdsAreDrawn(db);
    var joined := WithMember(db, workspace, user);
    MemberIsSetting(db, workspace, user);
    SettingsKeep(db, joined);
    EnsureBoardKeeps(joined, user);
    FollowsTransitive(db, joined, EnsureBoard(joined, user).0);
  }

  lemma SettingsStepKeeps(db: Db, op: Op, clock: Clock)
    requires Consistent(db) && ChangesSettings(op) && Step(db, op, clock).Ok?
    ensures Consistent(Step(db, op, clock).value) && Follows(db, Step(db, op, clock).value)
  {
    hide Consistent, Follows, Step, SettingsOnly, WellFormed, RowsOk, LinksOk, UniqueMirrors, SubtasksAgree, RouteKeysUnique, AgreeExcept;
    Apart(db);
    StepSettings(db, op, clock);
    SettingsKeep(db, Step(db, op, clock).value);
  }

  // ---------- Updates and archiving ----------

  lemma PatchNeedsTask(db: Db, id: Schema.Id, asId: Option<Schema.Id>, p: Patch, supplied: Option<nat>, today: int)
    requires PatchTask(db, id, asId, p, supplied, today).Ok?
    ensures id in db.tasks
  {
    hide Routed, AfterSave, OverwriteTask, Redirected;
  }

  lemma PatchKeeps(db: Db, id: Schema.Id, asId: Option<Schema.Id>, p: Patch, supplied: Option<nat>, today: int)
    requires Consistent(db) && InScope(db, UpdateTaskOp(id, asId, p, supplied)) && PatchTask(db, id, asId, p, supplied, today).Ok?
    ensures Consistent(PatchTask(db, id, asId, p, supplied, today).value)
  {
    PatchNeedsTask(db, id, asId, p, supplied, today);
    hide Consistent, UpdateTask, OverwriteTask, HarmlessForMirror, MirrorExact, Routed;
    if !Canonical(db.tasks[id]) {
      hide Redirected;
      MirrorPatchKeepsIff(db, id, asId, p, supplied, today);
    } else if Redirected(db, id, asId, p) {
      OverwriteKeeps(db, id, asId.value, p, supplied, today);
    } else {
      UpdateKeeps(db, id, p, supplied, today);
    }
  }

  /** The row of another task is replaced only by one of the same origin whose
      version is not lower. */
  predicate Respects(db: Db, op: Op, clock: Clock) {
    op.UpdateTaskOp? && op.task in db.tasks && Canonical(db.tasks[op.task]) && Redirected(db, op.task, op.asId, op.patch) ==>
      MayReplace(db, op.asId.value, Origin(db.tasks[op.task]), WrittenVersion(db, db.tasks[op.task], op.patch, clock.today))
  }

  lemma PatchFollows(db: Db, id: Schema.Id, asId: Option<Schema.Id>, p: Patch, supplied: Option<nat>, clock: Clock)
    requires Consistent(db) && InScope(db, UpdateTaskOp(id, asId, p, supplied)) && PatchTask(db, id, asId, p, supplied, clock.today).Ok?
    ensures Grows(db, PatchTask(db, id, asId, p, supplied, clock.today).value)
    ensures Respects(db, UpdateTaskOp(id, asId, p, supplied), clock) <==> Follows(db, PatchTask(db, id, asId, p, supplied, clock.today).value)
  {
    var today := clock.today;
    PatchNeedsTask(db, id, asId, p, supplied, today);
    hide Consistent, UpdateTask, OverwriteTask, HarmlessForMirror, Routed, Grows, Follows, Redirected, EditedRow, MirrorExact, WrittenVersion, MayReplace;
    var after := PatchTask(db, id, asId, p, supplied, today).value;
    if Redirected(db, id, asId, p) {
      RedirectedNames(db, id, asId, p);
      if Canonical(db.tasks[id]) {
        OverwriteGrows(db, id, asId.value, p, supplied, today);
        OverwriteFollows(db, id, asId.value, p, supplied, today);
        OverwriteKeeps(db, id, asId.value, p, supplied, today);
      } else if db.tasks[id].sourceSubtask.Some? {
        SubtaskMirrorNeverRedirected(db, id, asId.value, p, supplied, today);
      }
    } else {
      if Canonical(db.tasks[id]) {
        UpdateFollows(db, id, p, supplied, today);
      } else {
        MirrorUpdateFollows(db, id, p, supplied, today);
      }
      FollowsGrows(db, after);
    }
  }

  lemma ArchiveNeedsTask(db: Db, id: Schema.Id, archived: bool, supplied: nat, now: int)
    requires ArchiveTask(db, id, archived, supplied, now).Ok?
    ensures id in db.tasks
  {
    hide SyncMirror;
  }

  lemma AnyArchiveKeeps(db: Db, id: Schema.Id, archived: bool, supplied: nat, now: int)
    requires Consistent(db) && ArchiveTask(db, id, archived, supplied, now).Ok?
    ensures Consistent(ArchiveTask(db, id, archived, supplied, now).value) && Follows(db, ArchiveTask(db, id, archived, supplied, now).value)
  {
    ArchiveNeedsTask(db, id, archived, supplied, now);
    hide Consistent, ArchiveTask, Follows;
    if Canonical(db.tasks[id]) {
      ArchiveKeeps(db, id, archived, supplied, now);
      ArchiveFollows(db, id, archived, supplied, now);
    } else {
      ArchiveMirrorKeeps(db, id, archived, supplied, now);
      ArchiveMirrorFollows(db, id, archived, supplied, now);
    }
  }

  // ---------- Steps ----------

  /** A step within the scope keeps the workspace consistent. */
  lemma StepKeeps(db: Db, op: Op, clock: Clock)
    requires Consistent(db) && InScope(db, op) && Step(db, op, clock).Ok?
    ensures Consistent(Step(db, op, clock).value)
  {
    hide Consistent, Canonical, SubtaskMirrors, CreateTask, PatchTask, ClaimTask, MoveTask, SetCompleted, ArchiveTask, DestroyTask, CreateSubtask, UpdateSubtask, DeleteSubtask, CreateProject, MoveProjectChecked, CreateColumnChecked, ReorderColumnsChecked, DeleteColumnChecked, DeleteColumnWithMoveChecked, EnsureBoard, RenameColumnChecked, JoinTeam, SettingsOnly, Follows, Grows, HarmlessForMirror, Redirected, MayReplace;
    if ChangesSettings(op) {
      SettingsStepKeeps(db, op, clock);
      return;
    }
    match op
    case CreateTaskOp(board, actor, data) => CreateKeeps(db, board, actor, data, clock.today);
    case UpdateTaskOp(task, asId, patch, supplied) => PatchKeeps(db, task, asId, patch, supplied, clock.today);
    case ClaimTaskOp(task, user) => ClaimKeeps(db, task, user);
    case MoveTaskOp(task, column, position, version) => MoveKeeps(db, task, column, position, version, clock.today);
    case CompleteTaskOp(task, completed, version) =>
      CompleteKeeps(db, task, completed, version, clock.now, clock.today);
      ShownIsConsistent(db, SetCompleted(db, task, completed, version, clock.now, clock.today).value, task, completed, clock.now);
    case ArchiveTaskOp(task, archived, version) => AnyArchiveKeeps(db, task, archived, version, clock.now);
    case DestroyTaskOp(task, version) => DestroyKeeps(db, task, version);
    case CreateSubtaskOp(task, title, user) => CreateSubtaskKeeps(db, task, title, user, clock.now);
    case UpdateSubtaskOp(subtask, version, title, assignee, done) =>
      UpdateSubtaskKeeps(db, subtask, version, title, assignee, done, clock.now);
    case DeleteSubtaskOp(subtask, version) => DeleteSubtaskKeeps(db, subtask, version);
    case CreateProjectOp(workspace, slug) => CreateProjectKeeps(db, workspace, slug);
    case MoveProjectOp(project, workspace, slug, base) => MoveProjectCheckedKeeps(db, project, workspace, slug, base);
    case CreateColumnOp(board, title, base) => CreateColumnCheckedKeeps(db, board, title, base);
    case ReorderColumnsOp(board, ids, version) => ReorderColumnsCheckedKeeps(db, board, ids, version);
    case DeleteColumnOp(column, version) => DeleteColumnCheckedKeeps(db, column, version);
    case DeleteColumnWithMoveOp(column, target, version) => DeleteWithMoveCheckedKeeps(db, column, target, version);
    case EnsureBoardOp(user) => EnsureBoardKeeps(db, user);
    case RenameColumnOp(column, title, base) => RenameColumnCheckedKeeps(db, column, title, base);
    case JoinTeamOp(workspace, user) => JoinTeamKeeps(db, workspace, user);
  }

  /** Any step but an update follows its past. */
  lemma OtherStepFollows(db: Db, op: Op, clock: Clock)
    requires Consistent(db) && InScope(db, op) && Step(db, op, clock).Ok? && !op.UpdateTaskOp?
    ensures Follows(db, Step(db, op, clock).value)
  {
    hide Consistent, Canonical, SubtaskMirrors, CreateTask, PatchTask, ClaimTask, MoveTask, SetCompleted, ArchiveTask, DestroyTask, CreateSubtask, UpdateSubtask, DeleteSubtask, CreateProject, MoveProjectChecked, CreateColumnChecked, ReorderColumnsChecked, DeleteColumnChecked, DeleteColumnWithMoveChecked, EnsureBoard, RenameColumnChecked, JoinTeam, SettingsOnly, Follows, Grows, HarmlessForMirror, Redirected, MayReplace;
    if ChangesSettings(op) {
      SettingsStepKeeps(db, op, clock);
      return;
    }
    match op
    case CreateTaskOp(board, actor, data) => CreateFollows(db, board, actor, data, clock.today);
    case ClaimTaskOp(task, user) => ClaimFollows(db, task, user);
    case MoveTaskOp(task, column, position, version) => MoveFollows(db, task, column, position, version, clock.today);
    case CompleteTaskOp(task, completed, version) =>
      CompleteFollows(db, task, completed, version, clock.now, clock.today);
    case ArchiveTaskOp(task, archived, version) => AnyArchiveKeeps(db, task, archived, version, clock.now);
    case DestroyTaskOp(task, version) => DestroyFollows(db, task, version);
    case CreateSubtaskOp(task, title, user) => CreateSubtaskFollows(db, task, title, user, clock.now);
    case UpdateSubtaskOp(subtask, version, title, assignee, done) =>
      UpdateSubtaskFollows(db, subtask, version, title, assignee, done, clock.now);
    case DeleteSubtaskOp(subtask, version) => DeleteSubtaskFollows(db, subtask, version);
    case CreateProjectOp(workspace, slug) => CreateProjectFollows(db, workspace, slug);
    case MoveProjectOp(project, workspace, slug, base) => MoveProjectCheckedKeeps(db, project, workspace, slug, base);
    case CreateColumnOp(board, title, base) => CreateColumnCheckedKeeps(db, board, title, base);
    case ReorderColumnsOp(board, ids, version) => ReorderColumnsCheckedKeeps(db, board, ids, version);
    case DeleteColumnOp(column, version) => DeleteColumnCheckedKeeps(db, column, version);
    case DeleteColumnWithMoveOp(column, target, version) => DeleteWithMoveCheckedKeeps(db, column, target, version);
    case EnsureBoardOp(user) => EnsureBoardKeeps(db, user);
    case RenameColumnOp(column, title, base) => RenameColumnCheckedKeeps(db, column, title, base);
    case JoinTeamOp(workspace, user) => JoinTeamKeeps(db, workspace, user);
  }

  lemma StepFollows(db: Db, op: Op, clock: Clock)
    requires Consistent(db) && InScope(db, op) && Step(db, op, clock).Ok?
    ensures Grows(db, Step(db, op, clock).value)
    ensures Respects(db, op, clock) <==> Follows(db, Step(db, op, clock).value)
  {
    if op.UpdateTaskOp? {
      assert Step(db, op, clock) == PatchTask(db, op.task, op.asId, op.patch, op.supplied, clock.today);
      hide Consistent, InScope, Follows, Grows, Step, PatchTask, Respects;
      PatchFollows(db, op.task, op.asId, op.patch, op.supplied, clock);
    } else {
      hide Consistent, InScope, Follows, Grows, Step;
      OtherStepFollows(db, op, clock);
      FollowsGrows(db, Step(db, op, clock).value);
    }
  }

  // ---------- Runs ----------

  /** Every run within the scope leads from a consistent workspace to a
      consistent one: each canonical task sits on one board, in a column of that
      board, with the board's project and team; a pool task has a project and
      neither column nor assignee; every mirror agrees with its source; there is
      at most one mirror per task and per subtask; column positions are distinct
      with the intake column first; route keys are unique in each team. No column
      changes its board, and no intake column disappears. */
  lemma {:induction false} RunKeepsConsistent(db: Db, ops: seq<(Op, Clock)>)
    requires Consistent(db) && RunInScope(db, ops)
    ensures Consistent(Run(db, ops)) && Grows(db, Run(db, ops))
  {
    hide Consistent, Follows, Grows, InScope, Step, Respects;
    if ops == [] {
      SameTasksFollow(db, db);
      FollowsGrows(db, db);
    } else {
      var n := |ops| - 1;
      var last := Run(db, ops[..n]);
      RunKeepsConsistent(db, ops[..n]);
      if Step(last, ops[n].0, ops[n].1).Ok? {
        StepKeeps(last, ops[n].0, ops[n].1);
        StepFollows(last, ops[n].0, ops[n].1);
        Apart(db);
        IdsAreDrawn(db);
        GrowsTransitive(db, last, Run(db, ops));
      }
    }
  }

  /** No step of the run replaces the row of a task of another origin, or of a
      later version, through the id of another task's update. */
  ghost predicate RunRespects(db: Db, ops: seq<(Op, Clock)>) {
    ops == [] || (RunRespects(db, ops[..|ops| - 1]) && Respects(Run(db, ops[..|ops| - 1]), ops[|ops| - 1].0, ops[|ops| - 1].1))
  }

  /** Such a run keeps origins, and no version falls. */
  lemma {:induction false} RunFollows(db: Db, ops: seq<(Op, Clock)>)
    requires Consistent(db) && RunInScope(db, ops) && RunRespects(db, ops)
    ensures Follows(db, Run(db, ops))
  {
    hide Consistent, Follows, Grows, InScope, Step, Respects;
    if ops == [] {
      SameTasksFollow(db, db);
    } else {
      var n := |ops| - 1;
      var last := Run(db, ops[..n]);
      RunKeepsConsistent(db, ops[..n]);
      RunFollows(db, ops[..n]);
      if Step(last, ops[n].0, ops[n].1).Ok? {
        StepFollows(last, ops[n].0, ops[n].1);
        Apart(db);
        IdsAreDrawn(db);
        FollowsTransitive(db, last, Run(db, ops));
      }
    }
  }
}
