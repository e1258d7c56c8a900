/** What follows for single tasks and columns from the invariants of whole runs
    (apps/workspaces/services.py). */
module Promises {
  import opened Boards
  import opened Columns
  import opened Consistency
  import opened History
  import opened Lifecycle
  import opened Mirroring
  import opened Options
  import opened Placement
  import opened Schema
  import opened Tasks
  import opened Workspace
  import opened WorkspaceRuns

  /** A database that holds only users' teams and rules. */
  ghost predicate Fresh(db: Db) {
    && db.tasks == map[] && db.subtasks == map[] && db.boards == map[] && db.columns == map[] && db.projects == map[]
    && forall w <- db.workspaces :: w < db.nextId
  }

  lemma FreshIsConsistent(db: Db)
    requires Fresh(db)
    ensures Consistent(db)
  {
  }

  /** Where a canonical task can be after any run. */
  lemma RunPlacesTasks(db: Db, ops: seq<(Op, Clock)>, id: Schema.Id)
    requires Consistent(db) && RunInScope(db, ops) && id in Run(db, ops).tasks && Canonical(Run(db, ops).tasks[id])
    ensures var now := Run(db, ops);
            var t := now.tasks[id];
            && t.board in now.boards && t.workspace == now.boards[t.board].workspace && t.project == BoardProject(now.boards[t.board])
            && (t.column.Some? ==> t.column.value in now.columns && now.columns[t.column.value].board == t.board)
            && (t.pool ==> t.project.Some? && t.column.None? && t.assignee.None?)
            && (t.project.None? ==> t.assignee.None? || t.assignee == Some(now.boards[t.board].owner))
            && RowAllowed(t)
  {
    hide Consistent, RunInScope, Run, Grows;
    RunKeepsConsistent(db, ops);
    RowAt(Run(db, ops), id);
  }

  /** No mirror is ever out of step with its source, and none has a twin. */
  lemma RunKeepsMirrors(db: Db, ops: seq<(Op, Clock)>, m: Schema.Id)
    requires Consistent(db) && RunInScope(db, ops) && m in Run(db, ops).tasks && IsAssignmentMirror(Run(db, ops).tasks[m])
    ensures var now := Run(db, ops);
            var s := now.tasks[m].sourceTask.value;
            && s in now.tasks && Canonical(now.tasks[s]) && Agrees(now, now.tasks[s], now.tasks[m])
            && MirrorRows(now, s) == {m}
  {
    hide Consistent, RunInScope, Run, Grows, Agrees;
    RunKeepsConsistent(db, ops);
    var now := Run(db, ops);
    MirrorFacts(now, m, now.tasks[m].sourceTask.value);
    Apart(now);
    hide WellFormed, RowsOk, LinksOk, SubtasksAgree, RouteKeysUnique, AgreeExcept;
    var s := now.tasks[m].sourceTask.value;
    assert m in MirrorRows(now, s);
    HereIsSingle(now, s, MirrorRows(now, s), m);
  }

  /** An intake column is never removed and always first; no two columns of a
      board ever share a position. */
  lemma RunKeepsIntakeFirst(db: Db, ops: seq<(Op, Clock)>, c: Schema.Id)
    requires Consistent(db) && RunInScope(db, ops) && c in db.columns && db.columns[c].role == NewAssigned
    ensures var now := Run(db, ops);
            && c in now.columns && now.columns[c].position == 0 && now.columns[c].board == db.columns[c].board
            && forall d <- now.columns :: d != c && now.columns[d].board == now.columns[c].board ==> now.columns[d].position > 0
  {
    hide Consistent, RunInScope, Run;
    RunKeepsConsistent(db, ops);
    Apart(Run(db, ops));
  }

  /** Wherever a canonical task goes, it never changes the project it comes from,
      unless its row is replaced through the id in another task's update. */
  lemma RunKeepsOrigin(db: Db, ops: seq<(Op, Clock)>, id: Schema.Id)
    requires Consistent(db) && RunInScope(db, ops) && RunRespects(db, ops) && id in db.tasks && Canonical(db.tasks[id]) && id in Run(db, ops).tasks
    ensures Canonical(Run(db, ops).tasks[id]) && Origin(Run(db, ops).tasks[id]) == Origin(db.tasks[id])
    ensures db.tasks[id].version <= Run(db, ops).tasks[id].version
  {
    hide Consistent, RunInScope, RunRespects, Run, ColumnsFollow;
    RunFollows(db, ops);
    assert RowFollows(db.tasks[id], Run(db, ops).tasks[id]);
  }

  // ---------- From a pool and back ----------

  ghost predicate InPoolOf(db: Db, t: Task, p: Schema.Id) {
    && p in db.projects && t.pool && t.project == Some(p) && t.board == db.projects[p].board
    && t.workspace == db.projects[p].workspace && t.column.None? && t.assignee.None?
  }

  lemma ReturnIsToOrigin(db: Db, id: Schema.Id, p: Patch, supplied: Option<nat>, today: int)
    requires Consistent(db) && id in db.tasks && Canonical(db.tasks[id]) && Releases(db.tasks[id], p)
    requires UpdateTask(db, id, p, supplied, today).Ok?
    ensures Origin(db.tasks[id]).Some?
    ensures var after := UpdateTask(db, id, p, supplied, today).value;
            && id in after.tasks && InPoolOf(db, after.tasks[id], Origin(db.tasks[id]).value)
            && after.tasks[id].content == db.tasks[id].content
  {
    hide Consistent, NextInPool, Releases, SendTo, Edited, ReturnMeetsRule, PoolEditMeetsRule, UpdateAdmitted;
    UpdateOutcome(db, id, p, supplied, today);
    UpdateKeeps(db, id, p, supplied, today);
    OriginExists(db, id);
    hide UpdateTask;
    var origin := ReleaseProject(db.tasks[id]).value;
    assert Routed(db, id, p) == Ok(WithTask(db, id, Raised(Released(db, db.tasks[id], origin))));
    PooledStays(db, id, p, supplied, today);
  }

  // The rules cannot have moved it.
  lemma PooledStays(db: Db, id: Schema.Id, p: Patch, supplied: Option<nat>, today: int)
    requires Consistent(db) && id in db.tasks && Canonical(db.tasks[id]) && UpdateTask(db, id, p, supplied, today).Ok?
    requires Routed(db, id, p).Ok? && id in Routed(db, id, p).value.tasks && Routed(db, id, p).value.tasks[id].pool
    ensures var after := UpdateTask(db, id, p, supplied, today).value;
            id in after.tasks && after.tasks[id].pool && after.tasks[id].column.None?
  {
    hide Consistent, Routed, UpdateTask, MirrorExact;
    UpdateKeeps(db, id, p, supplied, today);
    RowAt(UpdateTask(db, id, p, supplied, today).value, id);
  }

  /** A pool task may be claimed, handed on and completed as often as anyone
      likes, and its project may even change team: when it is returned, it is
      back in the pool of the project it came from, with the board and the team
      the project has by then, without column and assignee. */
  lemma ClaimToReturn(db: Db, ops: seq<(Op, Clock)>, id: Schema.Id, p: Patch, supplied: Option<nat>, today: int)
    requires Consistent(db) && RunInScope(db, ops) && RunRespects(db, ops) && id in db.tasks && db.tasks[id].pool
    requires var now := Run(db, ops);
             && id in now.tasks && Releases(now.tasks[id], p) && UpdateTask(now, id, p, supplied, today).Ok?
    ensures var now := Run(db, ops);
            var after := UpdateTask(now, id, p, supplied, today).value;
            && db.tasks[id].project.Some? && id in after.tasks
            && InPoolOf(now, after.tasks[id], db.tasks[id].project.value)
  {
    hide Consistent, RunInScope, RunRespects, Run, Grows, UpdateTask, Releases, InPoolOf;
    PooledIsCanonical(db, id);
    RunKeepsConsistent(db, ops);
    RunKeepsOrigin(db, ops, id);
    ReturnIsToOrigin(Run(db, ops), id, p, supplied, today);
  }

  /** What an accepted update makes of the text, dates and tags of a task: an
      ordinary edit applies them, a return or a hand-over ignores them. */
  lemma UpdatedContent(db: Db, id: Schema.Id, p: Patch, supplied: Option<nat>, today: int)
    requires Consistent(db) && id in db.tasks && Canonical(db.tasks[id]) && UpdateTask(db, id, p, supplied, today).Ok?
    ensures var after := UpdateTask(db, id, p, supplied, today).value;
            && id in after.tasks
            && after.tasks[id].content
               == if Releases(db.tasks[id], p) || HandsOver(db, db.tasks[id], p) then db.tasks[id].content
                  else Patched(db.tasks[id].content, p.content)
  {
    hide Consistent, Routed, Releases, HandsOver, Patched, UpdateTask, MirrorExact;
    UpdateKeeps(db, id, p, supplied, today);
    if Releases(db.tasks[id], p) {
      ReleasedContent(db, id, p);
    } else if HandsOver(db, db.tasks[id], p) {
      HandOverUnpools(db, db.tasks[id], p);
      HandOverWrites(db, id, p);
      hide Writes, SendTo;
      SentContent(db, id, Origin(db.tasks[id]), RequestedAssignee(db.tasks[id], p).value);
    } else {
      EditedIs(db, id, p);
      EditedContent(db, db.tasks[id], p);
      hide Edited;
    }
  }

  lemma ReleasedContent(db: Db, id: Schema.Id, p: Patch)
    requires id in db.tasks && Releases(db.tasks[id], p) && Routed(db, id, p).Ok?
    ensures id in Routed(db, id, p).value.tasks && Routed(db, id, p).value.tasks[id].content == db.tasks[id].content
  {
    hide Releases, NextInPool;
  }

  lemma SentContent(db: Db, id: Schema.Id, poolSource: Option<Schema.Id>, user: Schema.Id)
    requires id in db.tasks
    ensures id in SendTo(db, id, poolSource, user).tasks && SendTo(db, id, poolSource, user).tasks[id].content == db.tasks[id].content
  {
    hide Intake, NextInColumn;
  }

  lemma EditedContent(db: Db, t: Task, p: Patch)
    ensures Raised(Edited(db, t, p)).content == Patched(t.content, p.content)
  {
    hide Patched, NextInColumn, NextInPool;
  }

  /** An accepted update takes effect on the content exactly if it neither returns
      nor hands over the task, or had nothing to change. */
  lemma RoutingIgnoresContent(db: Db, id: Schema.Id, p: Patch, supplied: Option<nat>, today: int)
    requires Consistent(db) && id in db.tasks && Canonical(db.tasks[id]) && UpdateTask(db, id, p, supplied, today).Ok?
    ensures var t, after := db.tasks[id], UpdateTask(db, id, p, supplied, today).value;
            && id in after.tasks
            && (after.tasks[id].content == Patched(t.content, p.content)
                <==> (!Releases(t, p) && !HandsOver(db, t, p)) || Patched(t.content, p.content) == t.content)
  {
    hide Consistent, Releases, HandsOver, Patched, UpdateTask;
    UpdatedContent(db, id, p, supplied, today);
  }

  // ---------- Where the code keeps no invariant ----------

  /** Deleting a subtask is safe exactly if it has no mirror. Otherwise the
      mirror stays behind without its subtask and counts as an assignment
      mirror of the task. */
  lemma DeleteSubtaskNeedsNoMirror(db: Db, id: Schema.Id, supplied: nat)
    requires Consistent(db) && DeleteSubtask(db, id, supplied).Ok?
    ensures Consistent(DeleteSubtask(db, id, supplied).value) <==> SubtaskMirrors(db, id) == {}
    ensures forall m <- SubtaskMirrors(db, id) :: m in MirrorRows(DeleteSubtask(db, id, supplied).value, db.subtasks[id].task)
  {
    var after := DeleteSubtask(db, id, supplied).value;
    hide Consistent;
    if SubtaskMirrors(db, id) == {} {
      DeleteSubtaskKeeps(db, id, supplied);
    }
    forall m <- SubtaskMirrors(db, id)
      ensures m in MirrorRows(after, db.subtasks[id].task) && !Consistent(after)
    {
      RowAt(db, m);
      assert !LinkOk(after, after.tasks[m]);
      if Consistent(after) {
        RowAt(after, m);
      }
    }
  }

  // ---------- The archive date of a mirror ----------

  /** A mirror that was there before takes over the archive date; one that is
      created by the synchronisation starts unarchived. */
  ghost predicate ArchivedAlong(before: Db, after: Db, id: Schema.Id) {
    && id in after.tasks
    && forall m <- MirrorRows(after, id) ::
         after.tasks[m].archivedAt == if m in before.tasks then after.tasks[id].archivedAt else None
  }

  lemma CreatedUnarchived(before: Db, db: Db, id: Schema.Id, row: Task)
    requires id in db.tasks && MirrorRows(db, id) == {} && db.nextId !in before.tasks && db.nextId !in db.tasks
    requires row.archivedAt.None?
    ensures ArchivedAlong(before, WithNew(db, row), id)
  {
    forall m <- MirrorRows(WithNew(db, row), id)
      ensures m == db.nextId
    {
      assert m != db.nextId ==> m in MirrorRows(db, id);
    }
  }

  lemma RefreshedAlong(before: Db, db: Db, id: Schema.Id, m: Schema.Id)
    requires id in db.tasks && MirrorRows(db, id) == {m} && m in before.tasks && m in db.tasks && m != id
    requires db.tasks[m].board in db.boards
    ensures ArchivedAlong(before, WithTask(db, m, Refreshed(db, id, m)), id)
  {
    forall k <- MirrorRows(WithTask(db, m, Refreshed(db, id, m)), id)
      ensures k == m
    {
      assert k != m ==> k in MirrorRows(db, id);
    }
  }

  lemma PlacedArchivedAlong(db: Db, id: Schema.Id, user: Schema.Id)
    requires Core(db) && AgreeExcept(db, Some(id)) && Assigned(db, id, user)
    ensures ArchivedAlong(db, PlaceMirror(db, id, user), id)
  {
    hide Core, AgreeExcept, OnlyMirrorsDiffer, PlaceMirror, NextInColumn, Intake, Provided, ArchivedAlong, MirrorRows, Refreshed, WellFormed, RowsOk, LinksOk;
    ProvidedOk(db, id, user);
    PlaceMirrorIs(db, id, user);
    CoreParts(db);
    ProvidedIds(db, id, user);
    var (db1, board, column) := Intake(db, user);
    var db2, here := Provided(db, id, user), OnBoardIds(db, MirrorRows(db, id), board);
    CoreParts(db2);
    if here == {} {
      CreatedUnarchived(db, db2, id, MirrorFor(db2, id, board, column, NextInColumn(db2.tasks, Some(column))));
    } else {
      var m :| m in here && here == {m} && m in db2.tasks && db2.tasks[m].board == board
               && PlaceMirror(db, id, user) == WithTask(db2, m, Refreshed(db2, id, m));
      MirrorRowIsTask(db2, id, m);
      RefreshedAlong(db, db2, id, m);
    }
  }

  lemma ProvidedIds(db: Db, id: Schema.Id, user: Schema.Id)
    requires WellFormed(db)
    ensures db.nextId <= Provided(db, id, user).nextId
  {
    hide WellFormed, Intake, MirrorRows, OnBoardIds, DeleteTasks;
    IntakeOk(db, user);
    var (db1, board, column) := Intake(db, user);
    PrunedIds(db1, MirrorRows(db, id) - OnBoardIds(db, MirrorRows(db, id), board));
  }

  lemma SyncArchivesAlong(db: Db, id: Schema.Id)
    requires Core(db) && AgreeExcept(db, Some(id)) && id in db.tasks && Canonical(db.tasks[id])
    ensures ArchivedAlong(db, SyncMirror(db, id), id)
  {
    hide Core, AgreeExcept, PlaceMirror;
    if OnProjectBoard(db, db.tasks[id]) && db.tasks[id].assignee.Some? {
      hide ArchivedAlong;
      PlacedArchivedAlong(db, id, db.tasks[id].assignee.value);
    } else {
      SyncDeletes(db, id);
      NoRowsWithoutMirror(SyncMirror(db, id), id);
    }
  }

  lemma ArchivedRowReplaces(db: Db, id: Schema.Id, row: Task)
    requires Consistent(db) && id in db.tasks && Canonical(db.tasks[id]) && RowOk(db, row) && SameLinks(db.tasks[id], row)
    ensures Core(WithTask(db, id, row)) && AgreeExcept(WithTask(db, id, row), Some(id))
  {
    hide Consistent, Core, AgreeExcept, RowOk, RowsOk, LinksOk, WellFormed, IdsDrawn;
    Parts(db);
    SetRowKeepsCore(db, id, row);
    SetRowKeepsOthersAgreeing(db, id, row, Some(id));
  }

  /** archive_task and restore: the mirror follows. */
  lemma ArchiveTakesMirrorAlong(db: Db, id: Schema.Id, archived: bool, supplied: nat, now: int)
    requires Consistent(db) && ArchiveTask(db, id, archived, supplied, now).Ok? && Canonical(db.tasks[id])
    ensures ArchivedAlong(db, ArchiveTask(db, id, archived, supplied, now).value, id)
  {
    hide Consistent, Core, AgreeExcept, SyncMirror, ArchivedAlong, SameLinks, RowOk;
    var row := ArchivedRow(db.tasks[id], archived, now);
    var written := WithTask(db, id, row);
    ArchivedRowFits(db, id, archived, now);
    ArchivedRowReplaces(db, id, row);
    SyncArchivesAlong(written, id);
    ArchivedAlongFrame(db, written, SyncMirror(written, id), id);
  }

  lemma ArchivedAlongFrame(before: Db, mid: Db, after: Db, id: Schema.Id)
    requires before.tasks.Keys == mid.tasks.Keys && ArchivedAlong(mid, after, id)
    ensures ArchivedAlong(before, after, id)
  {
  }

  lemma NoRowsWithoutMirror(db: Db, id: Schema.Id)
    requires !HasMirror(db, id)
    ensures MirrorRows(db, id) == {}
  {
  }
}