/** Optimistic locking: every change of a task names the version it is based
    on (apps/workspaces/services.py, assert_version and increment_version). */
module Versions {
  import opened Boards
  import opened Columns
  import opened Consistency
  import opened History
  import opened Lifecycle
  import opened MirrorEdits
  import opened Mirroring
  import opened Options
  import opened Overwrites
  import opened Placement
  import opened RouteKeys
  import opened Schema
  import opened Structure
  import opened Tasks
  import opened Workspace
  import opened WorkspaceRuns

  /** The step changes task `id` on the basis of version `v`. */
  predicate BasedOn(op: Op, id: Schema.Id, v: nat) {
    match op
    case UpdateTaskOp(task, _, _, supplied) => task == id && supplied == Some(v)
    case MoveTaskOp(task, _, _, version) => task == id && version == v
    case CompleteTaskOp(task, _, version) => task == id && version == v
    case ArchiveTaskOp(task, _, version) => task == id && version == v
    case DestroyTaskOp(task, version) => task == id && version == v
    case _ => false
  }

  /** An update that names another id leaves its own task alone. */
  predicate ChangesItsTask(db: Db, op: Op) {
    op.UpdateTaskOp? && op.task in db.tasks ==> !Redirected(db, op.task, op.asId, op.patch)
  }

  lemma UpdateRaises(db: Db, id: Schema.Id, p: Patch, supplied: Option<nat>, today: int)
    requires Consistent(db) && id in db.tasks && Canonical(db.tasks[id]) && UpdateTask(db, id, p, supplied, today).Ok?
    ensures var after := UpdateTask(db, id, p, supplied, today).value;
            id in after.tasks && supplied == Some(db.tasks[id].version) && db.tasks[id].version < after.tasks[id].version
  {
    hide Consistent, Routed, SyncMirror, Patched, DatesInOrder, FullyClean, AfterSave, Settled, EntersColumn, Follows;
    AdmittedIsChecked(db, id, p, supplied, today);
    UpdateSettles(db, id, p);
    RoutedRaises(db, id, p);
    var routed := Routed(db, id, p).value;
    AfterSaveVersion(routed, id, routed.tasks[id], db.tasks[id].assignee, EntersColumn(db, db.tasks[id], p), today);
  }

  /** An accepted update raises the version of the task it is addressed to exactly
      if it names no other id (or takes one of the routing branches). */
  lemma PatchRaisesIff(db: Db, id: Schema.Id, asId: Option<Schema.Id>, p: Patch, supplied: Option<nat>, today: int)
    requires Consistent(db) && id in db.tasks && Canonical(db.tasks[id]) && PatchTask(db, id, asId, p, supplied, today).Ok?
    ensures var after := PatchTask(db, id, asId, p, supplied, today).value;
            id in after.tasks && (db.tasks[id].version < after.tasks[id].version <==> !Redirected(db, id, asId, p))
  {
    hide Consistent, UpdateTask, OverwriteTask, Redirected, EditedRow, MirrorExact;
    if Redirected(db, id, asId, p) {
      RedirectedNames(db, id, asId, p);
      OverwriteKeeps(db, id, asId.value, p, supplied, today);
    } else {
      UpdateRaises(db, id, p, supplied, today);
    }
  }

  lemma RoutedRaises(db: Db, id: Schema.Id, p: Patch)
    requires id in db.tasks && Routed(db, id, p).Ok?
    ensures id in Routed(db, id, p).value.tasks && Routed(db, id, p).value.tasks[id].version == db.tasks[id].version + 1
  {
    hide Releases, HandsOver, NextInPool, NextInColumn, Intake, Patched;
  }

  lemma MoveRaises(db: Db, id: Schema.Id, column: Schema.Id, target: int, supplied: nat, today: int)
    requires MoveTask(db, id, column, target, supplied, today).Ok? && Canonical(db.tasks[id])
    ensures var after := MoveTask(db, id, column, target, supplied, today).value;
            id in after.tasks && db.tasks[id].version == supplied < after.tasks[id].version
  {
    var moved := Moved(db, id, column, target);
    MovedRows(db, id, column, target);
    assert Canonical(moved.tasks[id]) && moved.tasks[id].version == supplied + 1;
    hide Moved, Automate, OnlyPositionsAnd;
    AutomateFollows(moved, id, ColumnEntered, today);
    assert RowFollows(moved.tasks[id], Automate(moved, id, ColumnEntered, today).value.tasks[id]);
  }

  lemma CompleteRaises(db: Db, id: Schema.Id, completed: bool, supplied: nat, now: int, today: int)
    requires Consistent(db) && SetCompleted(db, id, completed, supplied, now, today).Ok? && Canonical(db.tasks[id])
    ensures var after := SetCompleted(db, id, completed, supplied, now, today).value;
            id in after.tasks && db.tasks[id].version == supplied < after.tasks[id].version
  {
    hide Consistent, CompleteBoth, Automate, MirrorExact, ColumnsFollow;
    CompleteCanonical(db, id, completed, now);
    var both := CompleteBoth(db, id, completed, now).value;
    var trigger := if completed then TaskCompleted else TaskReopened;
    AutomateFollows(both, id, trigger, today);
    assert RowFollows(both.tasks[id], Automate(both, id, trigger, today).value.tasks[id]);
  }

  lemma StepRaises(db: Db, op: Op, clock: Clock, id: Schema.Id, v: nat)
    requires Consistent(db) && BasedOn(op, id, v) && ChangesItsTask(db, op) && Step(db, op, clock).Ok?
    requires id in db.tasks && Canonical(db.tasks[id])
    ensures id in Step(db, op, clock).value.tasks ==> v < Step(db, op, clock).value.tasks[id].version
  {
    hide Consistent, UpdateTask, OverwriteTask, MoveTask, SetCompleted, SyncMirror, DeleteTasks;
    match op
    case UpdateTaskOp(task, asId, patch, supplied) => UpdateRaises(db, task, patch, supplied, clock.today);
    case MoveTaskOp(task, column, position, version) => MoveRaises(db, task, column, position, version, clock.today);
    case CompleteTaskOp(task, completed, version) => CompleteRaises(db, task, completed, version, clock.now, clock.today);
    case ArchiveTaskOp(task, archived, version) => ArchiveKeeps(db, task, archived, version, clock.now);
    case DestroyTaskOp(task, version) => DestroyKeeps(db, task, version);
  }

  /** A stale version is always refused. */
  lemma StaleRefused(db: Db, op: Op, clock: Clock, id: Schema.Id, v: nat)
    requires BasedOn(op, id, v) && (id in db.tasks ==> db.tasks[id].version != v)
    ensures Step(db, op, clock).Err?
  {
    hide Routed, AfterSave, SavedAs, SyncMirror, Moved, Automate, CompleteBoth, DeleteTasks, FullyClean, Redirected;
  }

  /** No update is lost: of two changes of a task that are based on the same
      version, the later one is refused, whatever happened in between, as long as
      nothing replaces the task's row through the id in another task's update. */
  lemma NoLostUpdate(db: Db, first: (Op, Clock), between: seq<(Op, Clock)>, second: (Op, Clock), id: Schema.Id, v: nat)
    requires Consistent(db) && id in db.tasks && Canonical(db.tasks[id])
    requires BasedOn(first.0, id, v) && BasedOn(second.0, id, v)
    requires InScope(db, first.0) && ChangesItsTask(db, first.0) && Step(db, first.0, first.1).Ok?
    requires RunInScope(Step(db, first.0, first.1).value, between) && RunRespects(Step(db, first.0, first.1).value, between)
    ensures Step(Run(Step(db, first.0, first.1).value, between), second.0, second.1).Err?
  {
    hide Consistent, RunInScope, RunRespects, Run, InScope, Step, ColumnsFollow, VersionsGrow, BasedOn;
    var after := Step(db, first.0, first.1).value;
    var now := Run(after, between);
    OwnRespects(db, first.0, first.1, id, v);
    StepKeeps(db, first.0, first.1);
    StepFollows(db, first.0, first.1);
    StepRaises(db, first.0, first.1, id, v);
    RunFollows(after, between);
    Apart(db);
    IdsAreDrawn(db);
    FollowsTransitive(db, after, now);
    if id in now.tasks {
      assert id in after.tasks;
      assert RowFollows(db.tasks[id], after.tasks[id]) && RowFollows(after.tasks[id], now.tasks[id]);
    }
    StaleRefused(now, second.0, second.1, id, v);
  }

  lemma OwnRespects(db: Db, op: Op, clock: Clock, id: Schema.Id, v: nat)
    requires BasedOn(op, id, v) && ChangesItsTask(db, op)
    ensures Respects(db, op, clock)
  {
    hide Redirected;
  }

  // ---------- Boards, columns and projects ----------

  /** The step changes board, column or project `id` on the basis of version `v`. */
  predicate BuiltOn(op: Op, id: Schema.Id, v: nat) {
    match op
    case CreateColumnOp(board, _, base) => board == id && base == Some(v)
    case ReorderColumnsOp(board, _, version) => board == id && version == v
    case RenameColumnOp(column, _, base) => column == id && base == Some(v)
    case DeleteColumnOp(column, version) => column == id && version == v
    case DeleteColumnWithMoveOp(column, _, version) => column == id && version == v
    case MoveProjectOp(project, _, _, base) => project == id && base == Some(v)
    case _ => false
  }

  predicate DeletesColumn(op: Op) {
    op.DeleteColumnOp? || op.DeleteColumnWithMoveOp?
  }

  predicate OnColumn(op: Op) {
    DeletesColumn(op) || op.RenameColumnOp?
  }

  lemma BumpRaises(before: Db, after: Db, id: Schema.Id)
    requires after.versions == before.versions
    ensures VersionOf(before, id) < VersionOf(Bumped(after, id), id)
    ensures forall other :: VersionOf(before, id) < VersionOf(Bumped(Bumped(after, other), id), id)
  {
  }

  lemma BuiltRaises(db: Db, op: Op, clock: Clock, id: Schema.Id, v: nat)
    requires Consistent(db) && BuiltOn(op, id, v) && Step(db, op, clock).Ok?
    ensures DeletesColumn(op) ==> id in db.columns && id !in Step(db, op, clock).value.columns
    ensures !DeletesColumn(op) ==> v < VersionOf(Step(db, op, clock).value, id)
  {
    hide Consistent, Added, Reordered, ColumnCleared, TasksMoved, Appended, Listing, NextInColumn, ActiveIn, UniqueKey, TakenKeys, Renamed;
    if DeletesColumn(op) {
      DeletedIsGone(db, op, clock, id, v);
    } else {
      UnbumpedVersions(db, op);
      hide CreateColumn, ReorderColumns, MoveProject, RenameColumn, Bumped, VersionOf;
      match op
      case CreateColumnOp(board, title, _) => BumpRaises(db, CreateColumn(db, board, title).value, board);
      case ReorderColumnsOp(board, ids, _) => BumpRaises(db, ReorderColumns(db, board, ids).value, board);
      case RenameColumnOp(column, title, _) => BumpRaises(db, RenameColumn(db, column, title).value, column);
      case MoveProjectOp(project, workspace, slug, _) => BumpRaises(db, MoveProject(db, project, workspace, slug).value, project);
    }
  }

  lemma DeletedIsGone(db: Db, op: Op, clock: Clock, id: Schema.Id, v: nat)
    requires Consistent(db) && BuiltOn(op, id, v) && Step(db, op, clock).Ok? && DeletesColumn(op)
    ensures id in db.columns && id !in Step(db, op, clock).value.columns
  {
    hide Consistent, WellFormed, ColumnsOk, Removed, RowsOk, LinksOk, UniqueMirrors, SubtasksAgree, RouteKeysUnique, AgreeExcept,
         ColumnCleared, Appended, Listing, NextInColumn, ActiveIn;
    Apart(db);
    ColumnsAreOk(db);
    RemovedOk(db.columns, id);
  }

  lemma UnbumpedVersions(db: Db, op: Op)
    ensures op.CreateColumnOp? && CreateColumn(db, op.board, op.columnTitle).Ok? ==>
              CreateColumn(db, op.board, op.columnTitle).value.versions == db.versions
    ensures op.ReorderColumnsOp? && ReorderColumns(db, op.board, op.ids).Ok? ==>
              ReorderColumns(db, op.board, op.ids).value.versions == db.versions
    ensures op.RenameColumnOp? && RenameColumn(db, op.column, op.columnTitle).Ok? ==>
              RenameColumn(db, op.column, op.columnTitle).value.versions == db.versions
    ensures op.MoveProjectOp? && MoveProject(db, op.project, op.workspace, op.slug).Ok? ==>
              op.project in db.projects && MoveProject(db, op.project, op.workspace, op.slug).value.versions == db.versions
  {
    hide Added, Reordered, Renamed, TasksMoved, UniqueKey, TakenKeys;
  }

  lemma BuiltStale(db: Db, op: Op, clock: Clock, id: Schema.Id, v: nat)
    requires BuiltOn(op, id, v) && (VersionOf(db, id) != v || (OnColumn(op) && id !in db.columns))
    ensures Step(db, op, clock).Err?
  {
    hide Added, Reordered, Removed, Renamed, ColumnCleared, Transferred, Appended, Listing, NextInColumn, ActiveIn;
  }

  /** Of two changes of a board's columns, of a column or of a project that are
      based on the same version, the later one is refused, whatever happened in
      between. */
  lemma NoLostChange(db: Db, first: (Op, Clock), between: seq<(Op, Clock)>, second: (Op, Clock), id: Schema.Id, v: nat)
    requires Consistent(db) && BuiltOn(first.0, id, v) && BuiltOn(second.0, id, v)
    requires OnColumn(first.0) <==> OnColumn(second.0)
    requires Step(db, first.0, first.1).Ok? && RunInScope(Step(db, first.0, first.1).value, between)
    ensures Step(Run(Step(db, first.0, first.1).value, between), second.0, second.1).Err?
  {
    BuiltInScope(db, first.0, id, v);
    hide Consistent, RunInScope, Run, InScope, Step, BuiltOn, Follows, Preserves;
    var after := Step(db, first.0, first.1).value;
    var now := Run(after, between);
    StepKeeps(db, first.0, first.1);
    StepFollows(db, first.0, first.1);
    BuiltRaises(db, first.0, first.1, id, v);
    RunKeepsConsistent(after, between);
    Apart(db);
    IdsAreDrawn(db);
    assert VersionOf(after, id) <= VersionOf(now, id);
    hide VersionsGrow, VersionOf;
    BuiltStale(now, second.0, second.1, id, v);
  }

  lemma BuiltInScope(db: Db, op: Op, id: Schema.Id, v: nat)
    requires BuiltOn(op, id, v)
    ensures InScope(db, op)
  {
  }
}
