/** What synchronising the mirror of a subtask achieves
    (apps/workspaces/services.py, _sync_subtask_mirror). */
module Subtasks {
  import opened Boards
  import opened Columns
  import opened Consistency
  import opened Mirroring
  import opened Options
  import opened Ordering
  import opened Schema
  import opened Tasks

  function WithSubtask(db: Db, id: Schema.Id, row: Subtask): Db {
    db.(subtasks := db.subtasks[id := row])
  }

  // ---------- Changing a subtask row ----------

  /** Nothing mirrors the subtask, so its row may change freely. */
  lemma SetUnmirrored(db: Db, s: Schema.Id, row: Subtask)
    requires Consistent(db) && s in db.subtasks && row.task == db.subtasks[s].task && SubtaskMirrors(db, s) == {}
    ensures Consistent(WithSubtask(db, s, row))
  {
    var after := WithSubtask(db, s, row);
    hide WellFormed, RowsOk, LinksOk, UniqueMirrors, RouteKeysUnique, AgreeExcept;
    SameSubtaskTables(db, s, row);
    forall m <- after.tasks | after.tasks[m].sourceSubtask.Some?
      ensures after.tasks[m].sourceSubtask.value != s
    {
      assert m !in SubtaskMirrors(db, s);
    }
  }

  lemma SubtaskKeepsRows(db: Db, s: Schema.Id, row: Subtask)
    requires s in db.subtasks && row.task == db.subtasks[s].task
    ensures RowsOk(db) ==> RowsOk(WithSubtask(db, s, row))
    ensures LinksOk(db) ==> LinksOk(WithSubtask(db, s, row))
  {
    var after := WithSubtask(db, s, row);
    if RowsOk(db) {
      forall t <- after.tasks ensures RowOk(after, after.tasks[t]) {
        assert RowOk(db, db.tasks[t]);
      }
    }
    if LinksOk(db) {
      forall t <- after.tasks ensures LinkOk(after, after.tasks[t]) {
        assert LinkOk(db, db.tasks[t]);
      }
    }
  }

  lemma SubtaskKeepsAgreement(db: Db, s: Schema.Id, row: Subtask)
    requires AgreeExcept(db, None)
    ensures AgreeExcept(WithSubtask(db, s, row), None)
  {
    var after := WithSubtask(db, s, row);
    forall m <- after.tasks | IsAssignmentMirror(after.tasks[m])
      ensures after.tasks[m].sourceTask.value in after.tasks
              && Agrees(after, after.tasks[after.tasks[m].sourceTask.value], after.tasks[m])
    {
      assert Agrees(db, db.tasks[db.tasks[m].sourceTask.value], db.tasks[m]);
    }
  }

  lemma SubtaskKeepsTables(db: Db, s: Schema.Id, row: Subtask)
    requires s in db.subtasks
    ensures WellFormed(db) ==> WellFormed(WithSubtask(db, s, row))
    ensures UniqueMirrors(db) ==> UniqueMirrors(WithSubtask(db, s, row))
    ensures RouteKeysUnique(db) ==> RouteKeysUnique(WithSubtask(db, s, row))
  {
    hide ColumnsOk;
  }

  lemma SameSubtaskTables(db: Db, s: Schema.Id, row: Subtask)
    requires s in db.subtasks && row.task == db.subtasks[s].task
    ensures WellFormed(db) ==> WellFormed(WithSubtask(db, s, row))
    ensures RowsOk(db) ==> RowsOk(WithSubtask(db, s, row))
    ensures LinksOk(db) ==> LinksOk(WithSubtask(db, s, row))
    ensures UniqueMirrors(db) ==> UniqueMirrors(WithSubtask(db, s, row))
    ensures RouteKeysUnique(db) ==> RouteKeysUnique(WithSubtask(db, s, row))
    ensures AgreeExcept(db, None) ==> AgreeExcept(WithSubtask(db, s, row), None)
  {
    hide WellFormed, RowsOk, LinksOk, UniqueMirrors, RouteKeysUnique, AgreeExcept;
    SubtaskKeepsTables(db, s, row);
    SubtaskKeepsRows(db, s, row);
    if AgreeExcept(db, None) {
      SubtaskKeepsAgreement(db, s, row);
    }
  }

  /** A subtask mirror is neither a source nor an assignment mirror. */
  lemma SetSubtaskMirrorKeepsAgreement(db: Db, m: Schema.Id, row: Task)
    requires AgreeExcept(db, None) && LinksOk(db) && m in db.tasks
    requires db.tasks[m].sourceSubtask.Some? && SameLinks(db.tasks[m], row)
    ensures AgreeExcept(WithTask(db, m, row), None)
  {
    var after := WithTask(db, m, row);
    forall k <- after.tasks | IsAssignmentMirror(after.tasks[k])
      ensures after.tasks[k].sourceTask.value in after.tasks
              && Agrees(after, after.tasks[after.tasks[k].sourceTask.value], after.tasks[k])
    {
      assert LinkOk(db, db.tasks[k]) && k != m;
      assert Agrees(db, db.tasks[db.tasks[k].sourceTask.value], db.tasks[k]);
    }
  }

  /** The subtask and its mirror change together. */
  lemma SetBoth(db: Db, m: Schema.Id, row: Task, s: Schema.Id, srow: Subtask)
    requires Consistent(db) && m in db.tasks && s in db.subtasks && srow.task == db.subtasks[s].task
    requires db.tasks[m].sourceSubtask == Some(s) && SameLinks(db.tasks[m], row) && RowOk(db, row)
    requires row.done == srow.done && row.content.title == srow.title
    ensures Consistent(WithSubtask(WithTask(db, m, row), s, srow))
  {
    var mid, after := WithTask(db, m, row), WithSubtask(WithTask(db, m, row), s, srow);
    SameTables(db, m, row);
    SetRowKeepsRows(db, m, row);
    SetRowKeepsLinks(db, m, row);
    SetRowKeepsUnique(db, m, row);
    SetSubtaskMirrorKeepsAgreement(db, m, row);
    SameSubtaskTables(mid, s, srow);
    OthersStillAgree(db, m, row, s, srow);
    hide WellFormed, RowsOk, LinksOk, UniqueMirrors, RouteKeysUnique, AgreeExcept, SubtasksAgree;
  }

  lemma OthersStillAgree(db: Db, m: Schema.Id, row: Task, s: Schema.Id, srow: Subtask)
    requires UniqueMirrors(db) && SubtasksAgree(db) && m in db.tasks && s in db.subtasks
    requires db.tasks[m].sourceSubtask == Some(s) && SameLinks(db.tasks[m], row)
    requires row.done == srow.done && row.content.title == srow.title
    ensures SubtasksAgree(WithSubtask(WithTask(db, m, row), s, srow))
  {
  }

  // ---------- _sync_subtask_mirror ----------

  ghost predicate HasSubtaskMirror(db: Db, s: Schema.Id) {
    exists m <- db.tasks :: db.tasks[m].sourceSubtask == Some(s)
  }

  /** A mirror exists exactly for an assigned subtask of a task on a project
      board, on the assignee's personal board, with the subtask's title and state. */
  ghost predicate SubtaskMirrorExact(db: Db, s: Schema.Id) {
    && s in db.subtasks && db.subtasks[s].task in db.tasks
    && (HasSubtaskMirror(db, s) <==> OnProjectBoard(db, db.tasks[db.subtasks[s].task]) && db.subtasks[s].assignee.Some?)
    && forall m <- db.tasks :: db.tasks[m].sourceSubtask == Some(s) ==>
         && db.tasks[m].assignee == db.subtasks[s].assignee && db.tasks[m].done == db.subtasks[s].done
         && db.tasks[m].content.title == db.subtasks[s].title
         && OnPersonalBoard(db, db.tasks[m]) && Some(db.boards[db.tasks[m].board].owner) == db.tasks[m].assignee
  }

  ghost predicate OnlySubtaskMirrorsDiffer(before: Db, after: Db, s: Schema.Id) {
    && (forall t <- before.tasks :: before.tasks[t].sourceSubtask != Some(s) ==>
          t in after.tasks && after.tasks[t] == before.tasks[t])
    && (forall t <- after.tasks :: t !in before.tasks ==> after.tasks[t].sourceSubtask == Some(s))
  }

  lemma SubtaskDeletes(db: Db, s: Schema.Id, row: Subtask)
    requires Consistent(db) && s in db.subtasks && row.task == db.subtasks[s].task
    ensures var after := DeleteTasks(WithSubtask(db, s, row), SubtaskMirrors(db, s));
            && Consistent(after) && OnlySubtaskMirrorsDiffer(db, after, s) && !HasSubtaskMirror(after, s)
            && s in after.subtasks && after.subtasks[s] == row && row.task in after.tasks
            && after.tasks[row.task] == db.tasks[row.task] && after.boards == db.boards
  {
    var mirrors, mid := SubtaskMirrors(db, s), WithSubtask(db, s, row);
    MirrorsDeletable(db, s, row);
    hide Core, AgreeExcept, LinksOk, Detached, DeleteTasks, HasSubtaskMirror, Consistent;
    CoreOf(db);
    PruneThenSet(db, s, row);
    PrunedKeepsCore(db, mirrors);
    PrunedKeepsAgreement(db, mirrors, None);
    Reassemble(Pruned(db, mirrors));
    SetUnmirrored(Pruned(db, mirrors), s, row);
  }

  lemma Reassemble(db: Db)
    requires Core(db) && AgreeExcept(db, None)
    ensures Consistent(db)
  {
    hide Core, AgreeExcept;
  }

  lemma MirrorsDeletable(db: Db, s: Schema.Id, row: Subtask)
    requires Consistent(db) && s in db.subtasks && row.task == db.subtasks[s].task
    ensures LinksOk(db)
    ensures var mirrors := SubtaskMirrors(db, s);
            && Detached(db, mirrors)
            && DeleteTasks(WithSubtask(db, s, row), mirrors) == Pruned(WithSubtask(db, s, row), mirrors)
  {
    Apart(db);
    hide WellFormed, RowsOk, LinksOk, UniqueMirrors, RouteKeysUnique, AgreeExcept, SubtasksAgree, Detached, DeleteTasks, Pruned, Consistent;
    SubtaskKeepsRows(db, s, row);
    assert forall m <- SubtaskMirrors(db, s) :: m in db.tasks && !Canonical(db.tasks[m]);
    DeleteMirrors(db, SubtaskMirrors(db, s));
    DeleteMirrors(WithSubtask(db, s, row), SubtaskMirrors(db, s));
  }

  lemma PruneThenSet(db: Db, s: Schema.Id, row: Subtask)
    requires LinksOk(db) && s in db.subtasks && row.task == db.subtasks[s].task
    ensures var mirrors := SubtaskMirrors(db, s);
            && row.task in db.tasks && row.task !in mirrors
            && Pruned(WithSubtask(db, s, row), mirrors) == WithSubtask(Pruned(db, mirrors), s, row)
            && s in Pruned(db, mirrors).subtasks && Pruned(db, mirrors).subtasks[s] == db.subtasks[s]
            && SubtaskMirrors(Pruned(db, mirrors), s) == {} && !HasSubtaskMirror(Pruned(db, mirrors), s)
            && OnlySubtaskMirrorsDiffer(db, WithSubtask(Pruned(db, mirrors), s, row), s)
  {
    var mirrors := SubtaskMirrors(db, s);
    assert row.task in db.tasks && LinkOk(db, db.tasks[row.task]);
    forall m <- mirrors
      ensures db.tasks[m].sourceTask == Some(row.task) && Canonical(db.tasks[row.task])
    {
      assert LinkOk(db, db.tasks[m]);
    }
    PruneCommutes(db, s, row, mirrors);
    hide LinksOk;
  }

  lemma PruneCommutes(db: Db, s: Schema.Id, row: Subtask, gone: set<Schema.Id>)
    requires s in db.subtasks && row.task == db.subtasks[s].task && row.task !in gone
    ensures Pruned(WithSubtask(db, s, row), gone) == WithSubtask(Pruned(db, gone), s, row)
  {
    assert Pruned(WithSubtask(db, s, row), gone).subtasks == WithSubtask(Pruned(db, gone), s, row).subtasks;
  }

  // ---------- Creating or refreshing the one subtask mirror ----------

  lemma SubtaskMirrorFits(db: Db, s: Schema.Id, base: Task, now: int)
    requires Core(db) && s in db.subtasks && db.subtasks[s].task in db.tasks && db.subtasks[s].assignee.Some?
    requires OnProjectBoard(db, db.tasks[db.subtasks[s].task])
    requires OnPersonalBoard(db, base) && ColumnFits(db, base.column, base.board) && !base.pool
    requires base.content.startDate.None?
    ensures var row := SubtaskMirrorRow(base, db.subtasks[s], s, db.tasks[db.subtasks[s].task], now);
            RowOk(db, row) && LinkOk(db, row)
  {
    hide WellFormed, UniqueMirrors, SubtasksAgree, RouteKeysUnique, LinksOk, SubtaskMirrorRow;
    var task := db.tasks[db.subtasks[s].task];
    assert RowOk(db, task);
    hide RowsOk;
    assert Canonical(task);
    RowFields(base, db.subtasks[s], s, task, now);
  }

  lemma RowFields(base: Task, srow: Subtask, s: Schema.Id, task: Task, now: int)
    ensures var row := SubtaskMirrorRow(base, srow, s, task, now);
            && row.sourceSubtask == Some(s) && row.sourceTask == Some(srow.task) && row.parent == Some(srow.task)
            && row.board == base.board && row.column == base.column && row.pool == base.pool
            && row.done == srow.done && row.content.title == srow.title && row.assignee == srow.assignee
            && row.content.startDate == base.content.startDate
  {
  }

  /** The one mirror of the subtask is `row`, and nothing else has changed. */
  ghost predicate NowMirrors(before: Db, after: Db, s: Schema.Id, srow: Subtask, m: Schema.Id, row: Task) {
    && after.subtasks == before.subtasks[s := srow]
    && after.tasks == before.tasks[m := row]
    && row.sourceSubtask == Some(s) && row.done == srow.done && row.content.title == srow.title
    && row.assignee == srow.assignee && srow.assignee.Some?
    && OnPersonalBoard(after, row) && after.boards[row.board].owner == srow.assignee.value
    && (forall t <- before.tasks :: t == m || before.tasks[t].sourceSubtask != Some(s))
    && (m in before.tasks ==> before.tasks[m].sourceSubtask == Some(s))
    && srow.task in before.tasks && OnProjectBoard(after, before.tasks[srow.task]) && srow.task != m
  }

  lemma NowMirrorsIsExact(before: Db, after: Db, s: Schema.Id, srow: Subtask, m: Schema.Id, row: Task)
    requires NowMirrors(before, after, s, srow, m, row)
    ensures SubtaskMirrorExact(after, s) && OnlySubtaskMirrorsDiffer(before, after, s)
  {
    assert after.tasks[m].sourceSubtask == Some(s);
  }

  // ---------- _sync_subtask_mirror after a change of the subtask ----------

  /** A board with its column provided for `user`; the change of the subtask
      could as well have come after that. */
  lemma ProvidedForSubtask(db: Db, s: Schema.Id, srow: Subtask, user: Schema.Id)
    requires Consistent(db) && s in db.subtasks && srow.task == db.subtasks[s].task
    ensures var (db1, board, column) := Intake(WithSubtask(db, s, srow), user);
            var early := db1.(subtasks := db.subtasks);
            && Consistent(early) && db1 == WithSubtask(early, s, srow) && HomeFor(db1, user, board, column)
            && db1.tasks == db.tasks && db1.nextId !in db.tasks
            && (forall b <- db.boards :: b in db1.boards && db1.boards[b] == db.boards[b])
  {
    var (db1, board, column) := Intake(WithSubtask(db, s, srow), user);
    var early := db1.(subtasks := db.subtasks);
    hide Intake, RowsOk, LinksOk, UniqueMirrors, SubtasksAgree, RouteKeysUnique, AgreeExcept, WellFormed;
    SubtaskKeepsTables(db, s, srow);
    IntakeOk(WithSubtask(db, s, srow), user);
    assert Extends(db, early);
    SubtaskKeepsTables(db1, s, db.subtasks[s]);
    assert db1.subtasks == db.subtasks[s := srow];
    assert WithSubtask(db1, s, db.subtasks[s]) == early by { assert early.subtasks == db1.subtasks[s := db.subtasks[s]]; }
    assert WellFormed(early);
    NextIdUnused(db1);
    hide Extends;
    assert WithSubtask(early, s, srow) == db1;
    ExtendsKeeps(db, early, None);
  }

  lemma SubtaskCreates(db: Db, s: Schema.Id, row: Task)
    requires Consistent(db) && s in db.subtasks && SubtaskMirrors(db, s) == {}
    requires RowOk(db, row) && LinkOk(db, row) && row.sourceSubtask == Some(s)
    requires row.done == db.subtasks[s].done && row.content.title == db.subtasks[s].title
    ensures Consistent(WithNew(db, row))
  {
    hide Core, AgreeExcept, RowOk, LinkOk, WellFormed, IdsDrawn, RowsOk, LinksOk;
    CoreParts(db);
    assert Addable(db, row) by {
      forall m <- db.tasks ensures db.tasks[m].sourceSubtask != row.sourceSubtask {
        assert m !in SubtaskMirrors(db, s);
      }
    }
    hide Addable;
    AddRowKeepsCore(db, row);
    AddRowKeepsAgreement(db, row, None);
  }

  lemma OneSubtaskMirror(db: Db, s: Schema.Id, m: Schema.Id)
    requires UniqueMirrors(db) && m in SubtaskMirrors(db, s)
    ensures forall t <- db.tasks :: t == m || db.tasks[t].sourceSubtask != Some(s)
  {
  }

  /** The subtask that is to have a mirror, after its change. */
  ghost predicate Shown(db: Db, s: Schema.Id, srow: Subtask, user: Schema.Id) {
    && s in db.subtasks && srow.task == db.subtasks[s].task && srow.task in db.tasks
    && OnProjectBoard(db, db.tasks[srow.task]) && srow.assignee == Some(user)
  }

  lemma ShownTaskIsNoMirror(db: Db, s: Schema.Id, srow: Subtask, user: Schema.Id)
    requires RowsOk(db) && Shown(db, s, srow, user)
    ensures Canonical(db.tasks[srow.task])
  {
    assert RowOk(db, db.tasks[srow.task]);
  }

  lemma PlacesNewSubtaskMirror(db: Db, s: Schema.Id, srow: Subtask, user: Schema.Id, now: int)
    requires Consistent(db) && Shown(db, s, srow, user) && SubtaskMirrors(db, s) == {}
    ensures var after := PlaceSubtaskMirror(WithSubtask(db, s, srow), s, user, now);
            Consistent(after) && SubtaskMirrorExact(after, s) && OnlySubtaskMirrorsDiffer(db, after, s)
  {
    hide Consistent, Core, Intake, NextInColumn, SubtaskMirrorExact, OnlySubtaskMirrorsDiffer, SubtaskMirrorRow, RowOk, LinkOk;
    var mid := WithSubtask(db, s, srow);
    var (db1, board, column) := Intake(mid, user);
    var early := db1.(subtasks := db.subtasks);
    ProvidedForSubtask(db, s, srow, user);
    assert SubtaskMirrors(early, s) == {} == SubtaskMirrors(mid, s) == SubtaskMirrors(db1, s);
    SetUnmirrored(early, s, srow);
    var task := db.tasks[srow.task];
    var blank := BlankMirror(db1.boards[board].workspace, board, column, NextInColumn(db1.tasks, Some(column)), task.owner);
    var row := SubtaskMirrorRow(blank, srow, s, task, now);
    RowFields(blank, srow, s, task, now);
    CoreOf(db1);
    SubtaskMirrorFits(db1, s, blank, now);
    SubtaskCreates(db1, s, row);
    var after := WithNew(db1, row);
    assert after == PlaceSubtaskMirror(mid, s, user, now);
    forall t <- db.tasks
      ensures db.tasks[t].sourceSubtask != Some(s)
    {
      assert t !in SubtaskMirrors(db1, s);
    }
    assert NowMirrors(db, after, s, srow, db1.nextId, row);
    NowMirrorsIsExact(db, after, s, srow, db1.nextId, row);
  }

  lemma CoreOf(db: Db)
    requires Consistent(db)
    ensures Core(db) && AgreeExcept(db, None)
  {
    hide Core, AgreeExcept;
  }

  lemma RehomedFits(db: Db, mirror: Task, workspace: Schema.Id, board: Schema.Id, column: Schema.Id, position: nat)
    requires ColumnFits(db, mirror.column, mirror.board) && board in db.boards && db.boards[board].PersonalBoard?
    requires column in db.columns && db.columns[column].board == board
    ensures var row := Rehomed(mirror, workspace, board, column, position);
            && row.board == board && OnPersonalBoard(db, row) && ColumnFits(db, row.column, row.board)
            && row.pool == mirror.pool && row.content == mirror.content
  {
  }

  /** The row of a mirror that stays, on the board and column given. */
  function MovedMirror(db: Db, db1: Db, board: Schema.Id, column: Schema.Id, m: Schema.Id, s: Schema.Id, srow: Subtask, now: int): Task
    requires m in db.tasks && srow.task in db.tasks && board in db1.boards
  {
    var base := Rehomed(db.tasks[m], db1.boards[board].workspace, board, column, NextInColumn(db1.tasks, Some(column)));
    var row := SubtaskMirrorRow(base, srow, s, db.tasks[srow.task], now);
    row.(version := row.version + 1)
  }

  lemma RefreshIsOneRow(db: Db, s: Schema.Id, srow: Subtask, user: Schema.Id, now: int) returns (m: Schema.Id, row: Task)
    requires Consistent(db) && Shown(db, s, srow, user) && SubtaskMirrors(db, s) != {}
    ensures var (db1, board, column) := Intake(WithSubtask(db, s, srow), user);
            && m in SubtaskMirrors(db, s) && MirrorsSubtask(row, s, srow)
            && row.assignee == Some(user) && row.board == board && RowOk(db1.(subtasks := db.subtasks), row)
            && m in db.tasks && board in db1.boards && row == MovedMirror(db, db1, board, column, m, s, srow, now)
            && PlaceSubtaskMirror(WithSubtask(db, s, srow), s, user, now) == WithTask(db1, m, row)
  {
    hide Consistent, Core, Intake, NextInColumn, RowOk, LinkOk, First, RowsOk, LinksOk, WellFormed, IdsDrawn, MirrorsSubtask, SubtaskMirrorRow,
         Rehomed;
    var mid := WithSubtask(db, s, srow);
    var (db1, board, column) := Intake(mid, user);
    var early := db1.(subtasks := db.subtasks);
    ProvidedForSubtask(db, s, srow, user);
    var mirrors := SubtaskMirrors(mid, s);
    assert mirrors == SubtaskMirrors(db, s) == SubtaskMirrors(early, s);
    m := First(mirrors, map t | t in mirrors :: mid.tasks[t].position);
    assert m in mirrors;
    CoreOf(early);
    MirrorFields(early, s, m);
    var base := Rehomed(db.tasks[m], db1.boards[board].workspace, board, column, NextInColumn(db1.tasks, Some(column)));
    RehomedFits(early, db.tasks[m], db1.boards[board].workspace, board, column, NextInColumn(db1.tasks, Some(column)));
    row := SubtaskMirrorRow(base, srow, s, db.tasks[srow.task], now);
    RowFields(base, srow, s, db.tasks[srow.task], now);
    RowFitsAs(early, s, srow, base, now);
    row := row.(version := row.version + 1);
  }

  lemma RefreshesSubtaskMirror(db: Db, s: Schema.Id, srow: Subtask, user: Schema.Id, now: int)
    requires Consistent(db) && Shown(db, s, srow, user) && SubtaskMirrors(db, s) != {}
    ensures var after := PlaceSubtaskMirror(WithSubtask(db, s, srow), s, user, now);
            Consistent(after) && SubtaskMirrorExact(after, s) && OnlySubtaskMirrorsDiffer(db, after, s)
  {
    hide Consistent, Core, Intake, PlaceSubtaskMirror, SubtaskMirrorExact, OnlySubtaskMirrorsDiffer, RowOk, RowsOk, LinksOk, WellFormed, IdsDrawn;
    var m, row := RefreshIsOneRow(db, s, srow, user, now);
    var (db1, board, column) := Intake(WithSubtask(db, s, srow), user);
    var early, after := db1.(subtasks := db.subtasks), WithTask(db1, m, row);
    ProvidedForSubtask(db, s, srow, user);
    assert SubtaskMirrors(db, s) == SubtaskMirrors(early, s);
    CoreOf(early);
    CoreParts(early);
    MirrorFields(early, s, m);
    assert after == WithSubtask(WithTask(early, m, row), s, srow);
    BothOk(early, m, row, s, srow);
    ShownTaskIsNoMirror(early, s, srow, user);
    assert NowMirrors(db, after, s, srow, m, row);
    NowMirrorsIsExact(db, after, s, srow, m, row);
  }

  lemma MirrorFields(db: Db, s: Schema.Id, m: Schema.Id)
    requires Core(db) && m in SubtaskMirrors(db, s)
    ensures forall t <- db.tasks :: t == m || db.tasks[t].sourceSubtask != Some(s)
    ensures var t := db.tasks[m];
            && s in db.subtasks && t.sourceTask == Some(db.subtasks[s].task) && t.parent == t.sourceTask
            && t.content.startDate.None? && OnPersonalBoard(db, t) && ColumnFits(db, t.column, t.board) && !t.pool
            && t.sourceSubtask == Some(s)
  {
    assert LinkOk(db, db.tasks[m]) && RowOk(db, db.tasks[m]);
    hide RowsOk, LinksOk, SubtasksAgree, WellFormed;
    OneSubtaskMirror(db, s, m);
  }

  /** What a row needs to be the new row of the subtask's mirror. */
  ghost predicate MirrorsSubtask(row: Task, s: Schema.Id, srow: Subtask) {
    && row.sourceSubtask == Some(s) && row.sourceTask == Some(srow.task) && row.parent == Some(srow.task)
    && row.done == srow.done && row.content.title == srow.title && row.content.startDate.None?
  }

  lemma BothOk(db: Db, m: Schema.Id, row: Task, s: Schema.Id, srow: Subtask)
    requires Consistent(db) && s in db.subtasks && srow.task == db.subtasks[s].task
    requires m in SubtaskMirrors(db, s) && RowOk(db, row) && MirrorsSubtask(row, s, srow)
    ensures Consistent(WithSubtask(WithTask(db, m, row), s, srow))
  {
    hide Consistent, Core, RowOk;
    CoreOf(db);
    MirrorFields(db, s, m);
    SetBoth(db, m, row, s, srow);
  }

  lemma RowFitsAs(db: Db, s: Schema.Id, srow: Subtask, base: Task, now: int)
    requires Core(db) && srow.task in db.tasks && OnProjectBoard(db, db.tasks[srow.task])
    requires OnPersonalBoard(db, base) && ColumnFits(db, base.column, base.board) && !base.pool && base.content.startDate.None?
    ensures var row := SubtaskMirrorRow(base, srow, s, db.tasks[srow.task], now);
            RowOk(db, row.(version := row.version + 1)) && MirrorsSubtask(row.(version := row.version + 1), s, srow)
  {
    hide Core, SubtaskMirrorRow;
    RowFields(base, srow, s, db.tasks[srow.task], now);
  }

  lemma FirstIsOnly(db: Db, s: Schema.Id, srow: Subtask)
    requires UniqueMirrors(db)
    ensures FirstMirror(WithSubtask(db, s, srow), s) == SubtaskMirrors(db, s)
  {
    var mid := WithSubtask(db, s, srow);
    assert SubtaskMirrors(mid, s) == SubtaskMirrors(db, s);
    if SubtaskMirrors(db, s) != {} {
      var m := First(SubtaskMirrors(mid, s), map t | t in SubtaskMirrors(mid, s) :: mid.tasks[t].position);
      forall k <- SubtaskMirrors(db, s) ensures k == m {
        assert m in SubtaskMirrors(db, s);
      }
    }
  }

  /** Whatever changes in a subtask, afterwards its mirror is right and no other
      task has changed. */
  lemma SyncSubtaskRestores(db: Db, s: Schema.Id, srow: Subtask, now: int)
    requires Consistent(db) && s in db.subtasks && srow.task == db.subtasks[s].task && srow.task in db.tasks
    ensures var after := SyncSubtask(WithSubtask(db, s, srow), s, now);
            Consistent(after) && SubtaskMirrorExact(after, s) && OnlySubtaskMirrorsDiffer(db, after, s)
  {
    hide Consistent, PlaceSubtaskMirror, DeleteTasks;
    if OnProjectBoard(db, db.tasks[srow.task]) && srow.assignee.Some? {
      hide SubtaskMirrorExact, OnlySubtaskMirrorsDiffer;
      if SubtaskMirrors(db, s) == {} {
        PlacesNewSubtaskMirror(db, s, srow, srow.assignee.value, now);
      } else {
        RefreshesSubtaskMirror(db, s, srow, srow.assignee.value, now);
      }
    } else {
      UnshownSubtask(db, s, srow, now);
    }
  }

  lemma UnshownSubtask(db: Db, s: Schema.Id, srow: Subtask, now: int)
    requires Consistent(db) && s in db.subtasks && srow.task == db.subtasks[s].task && srow.task in db.tasks
    requires !OnProjectBoard(db, db.tasks[srow.task]) || srow.assignee.None?
    ensures var after := SyncSubtask(WithSubtask(db, s, srow), s, now);
            Consistent(after) && SubtaskMirrorExact(after, s) && OnlySubtaskMirrorsDiffer(db, after, s)
  {
    hide Consistent, DeleteTasks, SubtaskMirrors, UniqueMirrors, WellFormed, RowsOk, LinksOk, SubtasksAgree, RouteKeysUnique, AgreeExcept, OnlySubtaskMirrorsDiffer, FirstMirror;
    SubtaskDeletes(db, s, srow);
    Apart(db);
    FirstIsOnly(db, s, srow);
  }
}