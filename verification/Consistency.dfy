/** The relational invariants of boards, tasks and mirrors. */
module Consistency {
  import opened Boards
  import opened Columns
  import opened Options
  import opened Schema
  import opened Tasks
  import opened Workspace

  // ---------- Placement ----------

  /** A canonical task sits on one board, in a column of that board, with the
      board's project and team; in a pool it has no column and no assignee; on
      a personal board it can only be the owner's. */
  ghost predicate Placed(db: Db, t: Task) {
    && t.board in db.boards && ColumnFits(db, t.column, t.board)
    && t.project == BoardProject(db.boards[t.board])
    && t.workspace == db.boards[t.board].workspace
    && (t.pool ==> t.project.Some? && t.assignee.None? && t.column.None?)
    && (db.boards[t.board].PersonalBoard? ==> t.assignee.None? || t.assignee == Some(db.boards[t.board].owner))
  }

  /** A mirror sits on a personal board and never in a pool. */
  ghost predicate MirrorPlaced(db: Db, t: Task) {
    OnPersonalBoard(db, t) && ColumnFits(db, t.column, t.board) && !t.pool
  }

  /** The origin project of a canonical task, where it has one, exists and is
      not contradicted by its project. */
  ghost predicate OriginOk(db: Db, t: Task) {
    && (t.project.Some? ==> t.project.value in db.projects)
    && (t.poolSource.Some? ==> t.poolSource.value in db.projects)
    && (t.project.Some? && t.poolSource.Some? ==> t.project == t.poolSource)
  }

  ghost predicate RowOk(db: Db, t: Task) {
    RowAllowed(t) && if Canonical(t) then Placed(db, t) && OriginOk(db, t) else MirrorPlaced(db, t)
  }

  ghost predicate RowsOk(db: Db) {
    forall t <- db.tasks :: RowOk(db, db.tasks[t])
  }

  // ---------- References between tasks and subtasks ----------

  /** The references of one row. */
  ghost predicate LinkOk(db: Db, t: Task) {
    && (t.sourceTask.Some? ==> t.sourceTask.value in db.tasks && Canonical(db.tasks[t.sourceTask.value]))
    && (t.sourceSubtask.Some? ==>
          && t.sourceSubtask.value in db.subtasks && t.sourceTask.Some?
          && t.sourceTask.value == db.subtasks[t.sourceSubtask.value].task
          && t.parent == t.sourceTask && t.content.startDate.None?)
    && (t.parent.Some? ==> t.sourceSubtask.Some?)
  }

  ghost predicate LinksOk(db: Db) {
    && (forall t <- db.tasks :: LinkOk(db, db.tasks[t]))
    && (forall s <- db.subtasks :: db.subtasks[s].task in db.tasks)
  }

  /** At most one assignment mirror per task, at most one mirror per subtask. */
  ghost predicate UniqueMirrors(db: Db) {
    && (forall a, b ::
          a in db.tasks && b in db.tasks && IsAssignmentMirror(db.tasks[a]) && IsAssignmentMirror(db.tasks[b])
          && db.tasks[a].sourceTask == db.tasks[b].sourceTask
          ==> a == b)
    && (forall a, b ::
          a in db.tasks && b in db.tasks && db.tasks[a].sourceSubtask.Some?
          && db.tasks[a].sourceSubtask == db.tasks[b].sourceSubtask
          ==> a == b)
  }

  // ---------- Agreement ----------

  /** A mirror shows its source: same text, dates, tags, owner, project and
      completion, on the personal board of the source's assignee. */
  ghost predicate Agrees(db: Db, source: Task, mirror: Task) {
    && OnProjectBoard(db, source) && source.assignee.Some?
    && OnPersonalBoard(db, mirror) && db.boards[mirror.board].owner == source.assignee.value
    && mirror.assignee == source.assignee && mirror.content == source.content
    && mirror.done == source.done && mirror.completedAt == source.completedAt
    && mirror.project == source.project && mirror.owner == source.owner
  }

  /** Every assignment mirror, except those of task `id`, agrees with its source. */
  ghost predicate AgreeExcept(db: Db, id: Option<Schema.Id>) {
    forall m <- db.tasks :: IsAssignmentMirror(db.tasks[m]) && db.tasks[m].sourceTask != id ==>
      var s := db.tasks[m].sourceTask.value;
      s in db.tasks && Agrees(db, db.tasks[s], db.tasks[m])
  }

  ghost predicate SubtasksAgree(db: Db) {
    forall m <- db.tasks :: db.tasks[m].sourceSubtask.Some? ==>
      var s := db.tasks[m].sourceSubtask.value;
      && s in db.subtasks && db.tasks[m].done == db.subtasks[s].done
      && db.tasks[m].content.title == db.subtasks[s].title
  }

  // ---------- Route keys ----------

  /** project_route_key_unique */
  ghost predicate RouteKeysUnique(db: Db) {
    forall p, q :: p in db.projects && q in db.projects && p != q && db.projects[p].workspace == db.projects[q].workspace
                   ==> db.projects[p].routeKey != db.projects[q].routeKey
  }

  // ---------- All together ----------

  ghost predicate Core(db: Db) {
    WellFormed(db) && RowsOk(db) && LinksOk(db) && UniqueMirrors(db) && SubtasksAgree(db) && RouteKeysUnique(db)
  }

  ghost predicate Consistent(db: Db) {
    Core(db) && AgreeExcept(db, None)
  }

  lemma Whole(db: Db)
    requires WellFormed(db) && RowsOk(db) && LinksOk(db) && UniqueMirrors(db) && SubtasksAgree(db) && RouteKeysUnique(db)
    requires AgreeExcept(db, None)
    ensures Consistent(db)
  {
    hide WellFormed, RowsOk, LinksOk, UniqueMirrors, SubtasksAgree, RouteKeysUnique, AgreeExcept;
  }

  lemma Apart(db: Db)
    requires Consistent(db)
    ensures WellFormed(db) && RowsOk(db) && LinksOk(db) && UniqueMirrors(db) && SubtasksAgree(db) && RouteKeysUnique(db)
    ensures AgreeExcept(db, None)
  {
    hide WellFormed, RowsOk, LinksOk, UniqueMirrors, SubtasksAgree, RouteKeysUnique, AgreeExcept;
  }

  // ---------- Steps that leave references and contents alone ----------

  /** Only the place of a row within its board, its team and its version differ. */
  ghost predicate Cosmetic(t: Task, u: Task) {
    u == t.(workspace := u.workspace, column := u.column, position := u.position, version := u.version)
  }

  ghost predicate SameKind(a: Board, b: Board) {
    match a
    case PersonalBoard(_, owner) => b.PersonalBoard? && b.owner == owner
    case ProjectBoard(_, project) => b.ProjectBoard? && b.project == project
  }

  ghost predicate SameKinds(before: Db, after: Db) {
    forall b <- before.boards :: b in after.boards && SameKind(before.boards[b], after.boards[b])
  }

  ghost predicate Retouched(before: Db, after: Db) {
    && after.tasks.Keys == before.tasks.Keys
    && (forall t <- before.tasks :: Cosmetic(before.tasks[t], after.tasks[t]))
    && after.subtasks == before.subtasks && SameKinds(before, after)
  }

  lemma RetouchedKeepsLinks(before: Db, after: Db)
    requires Retouched(before, after) && LinksOk(before)
    ensures LinksOk(after)
  {
    hide SameKinds;
    forall t <- after.tasks
      ensures LinkOk(after, after.tasks[t])
    {
      assert LinkOk(before, before.tasks[t]) && Cosmetic(before.tasks[t], after.tasks[t]);
    }
  }

  lemma RetouchedKeepsUnique(before: Db, after: Db)
    requires Retouched(before, after) && UniqueMirrors(before)
    ensures UniqueMirrors(after)
  {
    hide SameKinds;
  }

  lemma RetouchedKeepsSubtasks(before: Db, after: Db)
    requires Retouched(before, after) && SubtasksAgree(before)
    ensures SubtasksAgree(after)
  {
    hide SameKinds;
  }

  lemma AgreesRetouched(before: Db, after: Db, s: Task, m: Task, s': Task, m': Task)
    requires SameKinds(before, after) && Cosmetic(s, s') && Cosmetic(m, m') && Agrees(before, s, m)
    ensures Agrees(after, s', m')
  {
  }

  lemma RetouchedKeepsAgreement(before: Db, after: Db, id: Option<Schema.Id>)
    requires Retouched(before, after) && AgreeExcept(before, id)
    ensures AgreeExcept(after, id)
  {
    hide SameKinds, Agrees;
    forall m <- after.tasks | IsAssignmentMirror(after.tasks[m]) && after.tasks[m].sourceTask != id
      ensures after.tasks[m].sourceTask.value in after.tasks
              && Agrees(after, after.tasks[after.tasks[m].sourceTask.value], after.tasks[m])
    {
      assert Cosmetic(before.tasks[m], after.tasks[m]);
      var s := before.tasks[m].sourceTask.value;
      assert s in before.tasks && Cosmetic(before.tasks[s], after.tasks[s]);
      AgreesRetouched(before, after, before.tasks[s], before.tasks[m], after.tasks[s], after.tasks[m]);
    }
  }

  /** Such a step keeps everything that rows, boards and route keys of the new
      state satisfy by themselves. */
  lemma RetouchedKeeps(before: Db, after: Db, id: Option<Schema.Id>)
    requires Core(before) && AgreeExcept(before, id) && Retouched(before, after)
    requires WellFormed(after) && RowsOk(after) && RouteKeysUnique(after)
    ensures Core(after) && AgreeExcept(after, id)
  {
    hide Retouched, WellFormed, RowsOk, LinksOk, UniqueMirrors, SubtasksAgree, AgreeExcept, RouteKeysUnique;
    RetouchedKeepsLinks(before, after);
    RetouchedKeepsUnique(before, after);
    RetouchedKeepsSubtasks(before, after);
    RetouchedKeepsAgreement(before, after, id);
  }

  // ---------- Steps that only add boards and columns ----------

  lemma ExtendsKeepsRow(before: Db, after: Db, t: Task)
    requires Extends(before, after) && RowOk(before, t)
    ensures RowOk(after, t)
  {
  }

  lemma ExtendsRetouches(before: Db, after: Db)
    requires Extends(before, after)
    ensures Retouched(before, after)
  {
  }

  lemma ExtendsKeeps(before: Db, after: Db, id: Option<Schema.Id>)
    requires Core(before) && AgreeExcept(before, id) && Extends(before, after) && WellFormed(after)
    ensures Core(after) && AgreeExcept(after, id)
  {
    ExtendsRetouches(before, after);
    assert RowsOk(after) by {
      hide WellFormed, LinksOk, UniqueMirrors, SubtasksAgree, AgreeExcept, RowOk;
      forall t <- after.tasks
        ensures RowOk(after, after.tasks[t])
      {
        ExtendsKeepsRow(before, after, after.tasks[t]);
      }
    }
    hide Retouched, WellFormed, RowsOk, LinksOk, UniqueMirrors, SubtasksAgree, AgreeExcept;
    RetouchedKeeps(before, after, id);
  }

  // ---------- Steps on a single row ----------

  /** Replacing a row by one with the same references. */
  ghost predicate SameLinks(t: Task, u: Task) {
    && t.sourceTask == u.sourceTask && t.sourceSubtask == u.sourceSubtask && t.parent == u.parent
    && (t.sourceSubtask.Some? ==> u.content.startDate == t.content.startDate)
  }

  lemma SetRowKeepsLinks(db: Db, id: Schema.Id, row: Task)
    requires LinksOk(db) && id in db.tasks && SameLinks(db.tasks[id], row)
    ensures LinksOk(WithTask(db, id, row))
  {
    var after := WithTask(db, id, row);
    forall t <- after.tasks
      ensures LinkOk(after, after.tasks[t])
    {
      assert LinkOk(db, db.tasks[t]);
    }
  }

  lemma SetRowKeepsUnique(db: Db, id: Schema.Id, row: Task)
    requires UniqueMirrors(db) && id in db.tasks && SameLinks(db.tasks[id], row)
    ensures UniqueMirrors(WithTask(db, id, row))
  {
  }

  /** The rows that agree with their source regardless of row `id`. */
  lemma SetRowKeepsOthersAgreeing(db: Db, id: Schema.Id, row: Task, source: Option<Schema.Id>)
    requires AgreeExcept(db, None) || AgreeExcept(db, source)
    requires id in db.tasks && SameLinks(db.tasks[id], row)
    requires (source == Some(id) && Canonical(row)) || (IsAssignmentMirror(row) && row.sourceTask == source)
    requires LinksOk(db)
    ensures AgreeExcept(WithTask(db, id, row), source)
  {
    var after := WithTask(db, id, row);
    forall m <- after.tasks | IsAssignmentMirror(after.tasks[m]) && after.tasks[m].sourceTask != source
      ensures after.tasks[m].sourceTask.value in after.tasks
              && Agrees(after, after.tasks[after.tasks[m].sourceTask.value], after.tasks[m])
    {
      var s := after.tasks[m].sourceTask.value;
      assert m != id && LinkOk(db, db.tasks[m]);
      assert s in db.tasks && Canonical(db.tasks[s]) && s != id;
      assert Agrees(db, db.tasks[s], db.tasks[m]);
    }
  }

  lemma SetRowKeepsRows(db: Db, id: Schema.Id, row: Task)
    requires RowsOk(db) && id in db.tasks && RowOk(db, row)
    ensures RowsOk(WithTask(db, id, row))
  {
    var after := WithTask(db, id, row);
    forall t <- after.tasks
      ensures RowOk(after, after.tasks[t])
    {
      assert t != id ==> RowOk(db, db.tasks[t]);
    }
  }

  lemma SameTables(db: Db, id: Schema.Id, row: Task)
    requires WellFormed(db) && RouteKeysUnique(db) && id in db.tasks
    ensures WellFormed(WithTask(db, id, row)) && RouteKeysUnique(WithTask(db, id, row))
  {
    hide ColumnsOk;
  }

  lemma SetRowKeepsCore(db: Db, id: Schema.Id, row: Task)
    requires Core(db) && id in db.tasks && SameLinks(db.tasks[id], row) && RowOk(db, row)
    requires row.sourceSubtask.Some? ==> row.done == db.tasks[id].done && row.content.title == db.tasks[id].content.title
    ensures Core(WithTask(db, id, row))
  {
    SameTables(db, id, row);
    SetRowKeepsRows(db, id, row);
    SetRowKeepsLinks(db, id, row);
    SetRowKeepsUnique(db, id, row);
    assert SubtasksAgree(WithTask(db, id, row)) by {
      hide WellFormed, RowsOk, LinksOk, UniqueMirrors;
    }
    hide WellFormed, RowsOk, LinksOk, UniqueMirrors, SubtasksAgree, RouteKeysUnique;
  }

  /** Place, version and archive date do not matter to mirrors. */
  ghost predicate SameShown(t: Task, u: Task) {
    && SameLinks(t, u) && t.board == u.board && t.assignee == u.assignee && t.content == u.content
    && t.done == u.done && t.completedAt == u.completedAt && t.project == u.project && t.owner == u.owner
  }

  lemma SetShownKeepsAgreement(db: Db, id: Schema.Id, row: Task, except: Option<Schema.Id>)
    requires AgreeExcept(db, except) && id in db.tasks && SameShown(db.tasks[id], row)
    ensures AgreeExcept(WithTask(db, id, row), except)
  {
    var after := WithTask(db, id, row);
    forall m <- after.tasks | IsAssignmentMirror(after.tasks[m]) && after.tasks[m].sourceTask != except
      ensures after.tasks[m].sourceTask.value in after.tasks
              && Agrees(after, after.tasks[after.tasks[m].sourceTask.value], after.tasks[m])
    {
      assert IsAssignmentMirror(db.tasks[m]) && db.tasks[m].sourceTask == after.tasks[m].sourceTask;
      assert Agrees(db, db.tasks[db.tasks[m].sourceTask.value], db.tasks[m]);
    }
  }

  // ---------- Adding a row ----------

  function WithNew(db: Db, row: Task): Db {
    WithTask(db, db.nextId, row).(nextId := db.nextId + 1)
  }

  /** A new row's references are good and its place as a mirror is free. */
  ghost predicate Addable(db: Db, row: Task) {
    && RowOk(db, row) && LinkOk(db, row)
    && (IsAssignmentMirror(row) ==>
          forall m <- db.tasks :: IsAssignmentMirror(db.tasks[m]) ==> db.tasks[m].sourceTask != row.sourceTask)
    && (row.sourceSubtask.Some? ==>
          && (forall m <- db.tasks :: db.tasks[m].sourceSubtask != row.sourceSubtask)
          && row.done == db.subtasks[row.sourceSubtask.value].done
          && row.content.title == db.subtasks[row.sourceSubtask.value].title)
  }

  lemma AddRowKeepsRows(db: Db, row: Task)
    requires IdsDrawn(db) && RowsOk(db) && LinksOk(db) && Addable(db, row)
    ensures RowsOk(WithNew(db, row)) && LinksOk(WithNew(db, row))
  {
    var after := WithNew(db, row);
    assert db.nextId !in db.tasks;
    hide IdsDrawn, Placed, MirrorPlaced;
    forall t <- after.tasks
      ensures RowOk(after, after.tasks[t]) && LinkOk(after, after.tasks[t])
    {
      var u := if t in db.tasks then db.tasks[t] else row;
      assert RowOk(db, u) && LinkOk(db, u);
      NewRowKeepsRow(db, row, u);
    }
  }

  lemma NewRowKeepsRow(db: Db, row: Task, u: Task)
    requires db.nextId !in db.tasks && RowOk(db, u) && LinkOk(db, u)
    ensures RowOk(WithNew(db, row), u) && LinkOk(WithNew(db, row), u)
  {
  }

  lemma AddRowKeepsUnique(db: Db, row: Task)
    requires IdsDrawn(db) && UniqueMirrors(db) && Addable(db, row)
    ensures UniqueMirrors(WithNew(db, row))
  {
    assert db.nextId !in db.tasks;
    hide IdsDrawn, RowOk, LinkOk;
  }

  lemma AddRowKeepsSubtasks(db: Db, row: Task)
    requires IdsDrawn(db) && SubtasksAgree(db) && Addable(db, row)
    ensures SubtasksAgree(WithNew(db, row))
  {
    assert db.nextId !in db.tasks;
    hide IdsDrawn, RowOk;
  }

  lemma AddRowKeepsCore(db: Db, row: Task)
    requires Core(db) && Addable(db, row)
    ensures Core(WithNew(db, row))
  {
    hide RowsOk, LinksOk, UniqueMirrors, SubtasksAgree, Addable, ColumnsOk;
    AddRowKeepsRows(db, row);
    AddRowKeepsUnique(db, row);
    AddRowKeepsSubtasks(db, row);
  }

  lemma AddRowKeepsAgreement(db: Db, row: Task, except: Option<Schema.Id>)
    requires IdsDrawn(db) && LinksOk(db) && AgreeExcept(db, except)
    requires IsAssignmentMirror(row) && row.sourceTask != except ==>
               row.sourceTask.value in db.tasks && Agrees(db, db.tasks[row.sourceTask.value], row)
    ensures AgreeExcept(WithNew(db, row), except)
  {
    var after := WithNew(db, row);
    assert db.nextId !in db.tasks;
    hide IdsDrawn, LinksOk;
    forall m <- after.tasks | IsAssignmentMirror(after.tasks[m]) && after.tasks[m].sourceTask != except
      ensures after.tasks[m].sourceTask.value in after.tasks
              && Agrees(after, after.tasks[after.tasks[m].sourceTask.value], after.tasks[m])
    {
      var u := if m in db.tasks then db.tasks[m] else row;
      assert u.sourceTask.value in db.tasks && Agrees(db, db.tasks[u.sourceTask.value], u);
    }
  }

  // ---------- Removing rows ----------

  /** The database without some tasks and their subtasks. */
  function Pruned(db: Db, gone: set<Schema.Id>): Db {
    db.(tasks := map t | t in db.tasks && t !in gone :: db.tasks[t],
        subtasks := map s | s in db.subtasks && db.subtasks[s].task !in gone :: db.subtasks[s])
  }

  /** No remaining row refers to a removed one. */
  ghost predicate Detached(db: Db, gone: set<Schema.Id>) {
    forall t <- db.tasks :: t !in gone ==>
      && (db.tasks[t].sourceTask.Some? ==> db.tasks[t].sourceTask.value !in gone)
      && (db.tasks[t].parent.Some? ==> db.tasks[t].parent.value !in gone)
  }

  lemma PrunedKeepsLinks(db: Db, gone: set<Schema.Id>)
    requires LinksOk(db) && Detached(db, gone)
    ensures LinksOk(Pruned(db, gone))
  {
    var after := Pruned(db, gone);
    forall t <- after.tasks
      ensures LinkOk(after, after.tasks[t])
    {
      assert LinkOk(db, db.tasks[t]);
    }
  }

  lemma PrunedKeepsRest(db: Db, gone: set<Schema.Id>)
    requires UniqueMirrors(db) && SubtasksAgree(db) && LinksOk(db) && Detached(db, gone) && RowsOk(db)
    ensures UniqueMirrors(Pruned(db, gone)) && SubtasksAgree(Pruned(db, gone)) && RowsOk(Pruned(db, gone))
  {
    var after := Pruned(db, gone);
    forall m <- after.tasks
      ensures RowOk(after, after.tasks[m])
      ensures after.tasks[m].sourceSubtask.Some? ==> after.tasks[m].sourceSubtask.value in after.subtasks
    {
      assert RowOk(db, db.tasks[m]) && LinkOk(db, db.tasks[m]);
    }
  }

  lemma PrunedKeepsAgreement(db: Db, gone: set<Schema.Id>, except: Option<Schema.Id>)
    requires AgreeExcept(db, except) && Detached(db, gone)
    ensures AgreeExcept(Pruned(db, gone), except)
  {
    var after := Pruned(db, gone);
    forall m <- after.tasks | IsAssignmentMirror(after.tasks[m]) && after.tasks[m].sourceTask != except
      ensures after.tasks[m].sourceTask.value in after.tasks
              && Agrees(after, after.tasks[after.tasks[m].sourceTask.value], after.tasks[m])
    {
      assert Agrees(db, db.tasks[db.tasks[m].sourceTask.value], db.tasks[m]);
    }
  }

  lemma PrunedKeepsCore(db: Db, gone: set<Schema.Id>)
    requires Core(db) && Detached(db, gone)
    ensures Core(Pruned(db, gone))
  {
    PrunedKeepsLinks(db, gone);
    PrunedKeepsRest(db, gone);
    hide RowsOk, LinksOk, UniqueMirrors, SubtasksAgree, Detached, ColumnsOk;
  }

  /** When nothing refers to the deleted family, deleting is pruning: no
      reference has to be cleared. */
  lemma DeleteIsPrune(db: Db, doomed: set<Schema.Id>, family: set<Schema.Id>)
    requires LinksOk(db) && Family(db, doomed) == family && Detached(db, family)
    ensures DeleteTasks(db, doomed) == Pruned(db, family)
  {
    var gone := SubtasksOf(db, family);
    forall t | t in db.tasks && t !in family
      ensures Unlinked(db.tasks[t], family, gone) == db.tasks[t]
    {
      assert LinkOk(db, db.tasks[t]);
    }
    assert DeleteTasks(db, doomed).tasks == Pruned(db, family).tasks;
    assert DeleteTasks(db, doomed).subtasks == Pruned(db, family).subtasks;
  }

  /** Mirrors are never referred to, so deleting mirrors is pruning. */
  lemma DeleteMirrors(db: Db, doomed: set<Schema.Id>)
    requires LinksOk(db) && forall m <- doomed :: m in db.tasks && !Canonical(db.tasks[m])
    ensures Detached(db, doomed) && DeleteTasks(db, doomed) == Pruned(db, doomed)
  {
    forall t <- db.tasks
      ensures db.tasks[t].sourceTask.Some? ==> db.tasks[t].sourceTask.value !in doomed
      ensures db.tasks[t].parent.Some? ==> db.tasks[t].parent.value !in doomed
    {
      assert LinkOk(db, db.tasks[t]);
    }
    assert Family(db, doomed) == doomed;
    DeleteIsPrune(db, doomed, doomed);
  }
}
