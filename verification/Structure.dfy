/** Reordering tasks and columns and moving projects between teams keep the
    workspace consistent (apps/workspaces/services.py and views.py). */
module Structure {
  import opened Boards
  import opened Columns
  import opened Consistency
  import opened Options
  import opened Ordering
  import opened Placement
  import opened RouteKeys
  import opened Schema
  import opened Tasks
  import opened Workspace

  /** A retouched row still fits. */
  ghost predicate StillFits(after: Db, t: Task, u: Task) {
    && ColumnFits(after, u.column, u.board) && (t.pool ==> u.column.None?)
    && (Canonical(u) ==> u.board in after.boards && u.workspace == after.boards[u.board].workspace)
  }

  lemma RowRetouched(before: Db, after: Db, t: Task, u: Task)
    requires Cosmetic(t, u) && SameKinds(before, after) && RowOk(before, t) && StillFits(after, t, u)
    requires before.projects.Keys <= after.projects.Keys
    ensures RowOk(after, u)
  {
  }

  ghost predicate AllFit(before: Db, after: Db) {
    forall t <- before.tasks :: t in after.tasks && StillFits(after, before.tasks[t], after.tasks[t])
  }

  lemma RetouchedConsistent(before: Db, after: Db)
    requires Consistent(before) && Retouched(before, after) && AllFit(before, after)
    requires before.projects.Keys <= after.projects.Keys && WellFormed(after) && RouteKeysUnique(after)
    ensures Consistent(after)
  {
    hide Consistent, Core, AgreeExcept, WellFormed, RouteKeysUnique, SameKinds, RowOk, StillFits;
    Apart(before);
    Parts(before);
    assert RowsOk(after) by {
      forall t <- after.tasks
        ensures RowOk(after, after.tasks[t])
      {
        RowAt(before, t);
        RowRetouched(before, after, before.tasks[t], after.tasks[t]);
      }
    }
    hide RowsOk, Retouched, AllFit;
    RetouchedKeeps(before, after, None);
    WholeOf(after);
  }

  lemma WholeOf(db: Db)
    requires Core(db) && AgreeExcept(db, None)
    ensures Consistent(db)
  {
    hide Core, AgreeExcept;
  }

  // ---------- Only tasks change ----------

  ghost predicate MovedWithin(db: Db, tasks: map<Schema.Id, Task>) {
    && tasks.Keys == db.tasks.Keys
    && (forall t <- db.tasks :: Cosmetic(db.tasks[t], tasks[t]) && db.tasks[t].workspace == tasks[t].workspace)
    && (forall t <- db.tasks :: tasks[t].column == db.tasks[t].column
          || tasks[t].column.None? || (!db.tasks[t].pool && ColumnFits(db, tasks[t].column, db.tasks[t].board)))
  }

  lemma RowFits(db: Db, t: Schema.Id)
    requires Consistent(db) && t in db.tasks
    ensures StillFits(db, db.tasks[t], db.tasks[t])
  {
    RowAt(db, t);
    hide Consistent;
  }

  lemma MovedFits(db: Db, tasks: map<Schema.Id, Task>, t: Schema.Id)
    requires Consistent(db) && MovedWithin(db, tasks) && t in db.tasks
    ensures StillFits(db.(tasks := tasks), db.tasks[t], tasks[t])
  {
    RowFits(db, t);
    hide Consistent;
  }

  lemma MovedRetouches(db: Db, tasks: map<Schema.Id, Task>)
    requires MovedWithin(db, tasks)
    ensures Retouched(db, db.(tasks := tasks))
  {
  }

  lemma TasksRetouched(db: Db, tasks: map<Schema.Id, Task>)
    requires Consistent(db) && MovedWithin(db, tasks)
    ensures Consistent(db.(tasks := tasks))
  {
    var after := db.(tasks := tasks);
    hide Consistent, WellFormed, RouteKeysUnique, RowsOk, LinksOk, UniqueMirrors, SubtasksAgree, AgreeExcept, Retouched, StillFits, Cosmetic;
    assert AllFit(db, after) by {
      forall t <- db.tasks
        ensures StillFits(after, db.tasks[t], tasks[t])
      {
        MovedFits(db, tasks, t);
      }
    }
    hide AllFit;
    MovedRetouches(db, tasks);
    Apart(db);
    SameTaskIds(db, tasks);
    RetouchedConsistent(db, after);
  }

  lemma SameTaskIds(db: Db, tasks: map<Schema.Id, Task>)
    requires WellFormed(db) && RouteKeysUnique(db) && tasks.Keys == db.tasks.Keys
    ensures WellFormed(db.(tasks := tasks)) && RouteKeysUnique(db.(tasks := tasks))
  {
    hide ColumnsOk;
  }

  // ---------- move_task ----------

  lemma {:induction false} RenumberedRows(tasks: map<Schema.Id, Task>, ids: seq<Schema.Id>)
    ensures var after := Renumbered(tasks, ids);
            && after.Keys == tasks.Keys
            && forall t <- tasks :: after[t] == tasks[t].(position := after[t].position)
  {
    if ids != [] {
      RenumberedRows(tasks, ids[..|ids| - 1]);
    }
  }

  /** Positions aside, only the moved task's row differs. */
  ghost predicate OnlyPositionsAnd(before: map<Schema.Id, Task>, after: map<Schema.Id, Task>, id: Schema.Id, column: Schema.Id) {
    && after.Keys == before.Keys && id in before
    && (forall t <- before :: t != id ==> after[t] == before[t].(position := after[t].position))
    && after[id] == before[id].(position := after[id].position, column := Some(column), version := before[id].version + 1)
  }

  lemma MovedIntoRows(db: Db, id: Schema.Id, column: Schema.Id, target: int)
    requires id in db.tasks
    ensures OnlyPositionsAnd(db.tasks, MovedInto(db, id, column, target), id, column)
  {
    hide Siblings, InsertAt, Renumbered;
    var siblings := Siblings(db, id, column);
    RenumberedRows(Entered(db.tasks, id, column), InsertAt(siblings, InsertionIndex(target, |siblings|), id));
  }

  lemma ThenRenumbered(before: map<Schema.Id, Task>, mid: map<Schema.Id, Task>, id: Schema.Id, column: Schema.Id, ids: seq<Schema.Id>)
    requires OnlyPositionsAnd(before, mid, id, column)
    ensures OnlyPositionsAnd(before, Renumbered(mid, ids), id, column)
  {
    RenumberedRows(mid, ids);
  }

  lemma MovedRows(db: Db, id: Schema.Id, column: Schema.Id, target: int)
    requires id in db.tasks
    ensures var after := Moved(db, id, column, target);
            after == db.(tasks := after.tasks) && OnlyPositionsAnd(db.tasks, after.tasks, id, column)
  {
    hide Sorted, MovedInto, Renumbered, OnlyPositionsAnd;
    MovedIntoRows(db, id, column, target);
    var tasks := MovedInto(db, id, column, target);
    var source := db.tasks[id].column;
    if source.Some? && source.value != column {
      ThenRenumbered(db.tasks, tasks, id, column, Sorted(ActiveIn(tasks, source) - {id}, TaskPositions(tasks)));
    }
  }

  lemma OneMoveKeeps(db: Db, tasks: map<Schema.Id, Task>, id: Schema.Id, column: Schema.Id)
    requires Consistent(db) && OnlyPositionsAnd(db.tasks, tasks, id, column) && !db.tasks[id].pool
    requires column in db.columns && db.columns[column].board == db.tasks[id].board
    ensures Consistent(db.(tasks := tasks))
  {
    hide Consistent;
    forall t <- db.tasks
      ensures Cosmetic(db.tasks[t], tasks[t])
    {
    }
    TasksRetouched(db, tasks);
  }

  /** Moving a task within its board. */
  lemma MoveKeeps(db: Db, id: Schema.Id, column: Schema.Id, target: int, supplied: nat, today: int)
    requires Consistent(db) && MoveTask(db, id, column, target, supplied, today).Ok?
    ensures Consistent(MoveTask(db, id, column, target, supplied, today).value)
  {
    var moved := Moved(db, id, column, target);
    MovedRows(db, id, column, target);
    assert id in moved.tasks;
    hide Consistent, Moved, Automate, OnlyPositionsAnd;
    OneMoveKeeps(db, moved.tasks, id, column);
    AutomateKeeps(moved, id, ColumnEntered, today);
  }

  // ---------- Columns ----------

  /** Boards, projects and subtasks stay; tasks may change place within their boards. */
  ghost predicate PlacesChange(before: Db, after: Db) {
    && after.boards == before.boards && after.projects == before.projects && after.subtasks == before.subtasks
    && after.tasks.Keys == before.tasks.Keys
    && (forall t <- before.tasks :: Cosmetic(before.tasks[t], after.tasks[t])
          && after.tasks[t].workspace == before.tasks[t].workspace)
    && (forall t <- before.tasks :: ColumnFits(after, after.tasks[t].column, after.tasks[t].board)
          && (before.tasks[t].pool ==> after.tasks[t].column.None?))
  }

  lemma PlacesChanged(before: Db, after: Db)
    requires Consistent(before) && PlacesChange(before, after) && WellFormed(after)
    ensures Consistent(after)
  {
    hide Consistent, AllFit, Retouched, WellFormed, RouteKeysUnique, PlacesChange;
    Apart(before);
    PlacesRetouched(before, after);
    PlacesFit(before, after);
    RetouchedConsistent(before, after);
  }

  lemma PlacesRetouched(before: Db, after: Db)
    requires PlacesChange(before, after) && RouteKeysUnique(before)
    ensures Retouched(before, after) && RouteKeysUnique(after) && after.projects == before.projects
  {
    assert RouteKeysUnique(after) by { hide Cosmetic; }
  }

  lemma PlacesFit(before: Db, after: Db)
    requires Consistent(before) && PlacesChange(before, after)
    ensures AllFit(before, after)
  {
    hide Consistent;
    forall t <- before.tasks ensures StillFits(after, before.tasks[t], after.tasks[t]) {
      RowFits(before, t);
    }
  }

  /** Every column of the later state is an old one of the same board or a new
      one of an existing board. */
  ghost predicate ColumnsKnown(before: Db, cols: Cols, nextId: Schema.Id) {
    && before.nextId <= nextId
    && forall c <- cols :: c < nextId && cols[c].board in before.boards
  }

  lemma ColumnsWellFormed(db: Db, cols: Cols, nextId: Schema.Id)
    requires WellFormed(db) && ColumnsOk(cols) && ColumnsKnown(db, cols, nextId)
    ensures WellFormed(db.(columns := cols, nextId := nextId))
  {
    hide ColumnsOk;
  }

  lemma KnownColumns(db: Db, cols: Cols)
    requires WellFormed(db) && cols.Keys <= db.columns.Keys && forall c <- cols :: cols[c].board == db.columns[c].board
    ensures ColumnsKnown(db, cols, db.nextId)
  {
    hide ColumnsOk;
  }

  /** What is left of the columns, seen from a task that keeps or loses its column. */
  lemma TaskColumnFits(db: Db, t: Schema.Id)
    requires Consistent(db) && t in db.tasks
    ensures ColumnFits(db, db.tasks[t].column, db.tasks[t].board) && (db.tasks[t].pool ==> db.tasks[t].column.None?)
  {
    RowAt(db, t);
    hide Consistent;
  }

  lemma SameTasksChange(db: Db, cols: Cols, nextId: Schema.Id)
    requires Consistent(db) && db.columns.Keys <= cols.Keys && forall c <- db.columns :: cols[c].board == db.columns[c].board
    ensures PlacesChange(db, db.(columns := cols, nextId := nextId))
  {
    hide Consistent;
    forall t <- db.tasks ensures ColumnFits(db, db.tasks[t].column, db.tasks[t].board) && (db.tasks[t].pool ==> db.tasks[t].column.None?) {
      TaskColumnFits(db, t);
    }
  }

  lemma AddedKnown(db: Db, board: Schema.Id, title: string)
    requires WellFormed(db) && board in db.boards
    ensures var cols := Added(db.columns, board, db.nextId, title);
            && ColumnsKnown(db, cols, db.nextId + 1) && db.columns.Keys <= cols.Keys
            && forall c <- db.columns :: cols[c].board == db.columns[c].board
  {
    NextIdUnused(db);
    hide ColumnsOk, NextFree;
  }

  lemma CreateColumnKeeps(db: Db, board: Schema.Id, title: string)
    requires Consistent(db) && CreateColumn(db, board, title).Ok?
    ensures Consistent(CreateColumn(db, board, title).value)
  {
    hide Consistent, WellFormed, ColumnsOk, ColumnsKnown, Added, PlacesChange, RowsOk, LinksOk, UniqueMirrors, SubtasksAgree, RouteKeysUnique, AgreeExcept;
    var cols := Added(db.columns, board, db.nextId, title);
    Apart(db);
    NextIdUnused(db);
    ColumnsAreOk(db);
    AddedOk(db.columns, board, db.nextId, title);
    AddedKnown(db, board, title);
    ColumnsWellFormed(db, cols, db.nextId + 1);
    SameTasksChange(db, cols, db.nextId + 1);
    PlacesChanged(db, db.(columns := cols, nextId := db.nextId + 1));
  }

  lemma ColumnsAreOk(db: Db)
    requires WellFormed(db)
    ensures ColumnsOk(db.columns)
  {
    hide ColumnsOk;
  }

  lemma ReorderColumnsKeeps(db: Db, board: Schema.Id, ids: seq<Schema.Id>)
    requires Consistent(db) && ReorderColumns(db, board, ids).Ok?
    ensures Consistent(ReorderColumns(db, board, ids).value)
  {
    hide Consistent, WellFormed, ColumnsOk, ColumnsKnown, Reordered, RowsOk, LinksOk, UniqueMirrors, SubtasksAgree, RouteKeysUnique, AgreeExcept;
    var cols := Reordered(db.columns, board, ids).value;
    Apart(db);
    ColumnsAreOk(db);
    ReorderedOk(db.columns, board, ids);
    KnownColumns(db, cols);
    ColumnsWellFormed(db, cols, db.nextId);
    SameTasksChange(db, cols, db.nextId);
    PlacesChanged(db, db.(columns := cols));
  }

  lemma RenameColumnKeeps(db: Db, column: Schema.Id, title: string)
    requires Consistent(db) && RenameColumn(db, column, title).Ok?
    ensures Consistent(RenameColumn(db, column, title).value)
  {
    hide Consistent, WellFormed, ColumnsOk, ColumnsKnown, RowsOk, LinksOk, UniqueMirrors, SubtasksAgree, RouteKeysUnique, AgreeExcept;
    var cols := Renamed(db.columns, column, title);
    Apart(db);
    ColumnsAreOk(db);
    RenamedOk(db.columns, column, title);
    KnownColumns(db, cols);
    ColumnsWellFormed(db, cols, db.nextId);
    SameTasksChange(db, cols, db.nextId);
    PlacesChanged(db, db.(columns := cols));
  }

  lemma ClearedPlace(db: Db, t: Task, u: Task, cols: Cols, column: Schema.Id)
    requires Cosmetic(t, u) && ColumnFits(db, t.column, t.board) && (t.pool ==> t.column.None?)
    requires u.column == t.column || u.column.None? || (!t.pool && ColumnFits(db, u.column, t.board))
    requires cols.Keys == db.columns.Keys - {column} && forall c <- cols :: cols[c].board == db.columns[c].board
    ensures var v := if u.column == Some(column) then u.(column := None) else u;
            Cosmetic(t, v) && ColumnFits(db.(columns := cols), v.column, v.board) && (t.pool ==> v.column.None?)
  {
  }

  /** A deleted column takes no task along. */
  lemma WithoutColumn(db: Db, tasks: map<Schema.Id, Task>, cols: Cols, column: Schema.Id)
    requires Consistent(db) && MovedWithin(db, tasks) && cols.Keys == db.columns.Keys - {column}
    requires forall c <- cols :: cols[c].board == db.columns[c].board
    ensures PlacesChange(db, db.(columns := cols, tasks := ColumnCleared(tasks, column)))
  {
    hide Consistent, Cosmetic, ColumnFits;
    var after := db.(columns := cols, tasks := ColumnCleared(tasks, column));
    forall t <- db.tasks
      ensures t in after.tasks && Cosmetic(db.tasks[t], after.tasks[t]) && after.tasks[t].workspace == db.tasks[t].workspace
      ensures ColumnFits(after, after.tasks[t].column, after.tasks[t].board) && (db.tasks[t].pool ==> after.tasks[t].column.None?)
    {
      WithoutColumnRow(db, tasks, cols, column, t);
    }
    assert after.tasks.Keys == db.tasks.Keys;
    hide ColumnCleared, MovedWithin;
  }

  lemma WithoutColumnRow(db: Db, tasks: map<Schema.Id, Task>, cols: Cols, column: Schema.Id, t: Schema.Id)
    requires Consistent(db) && MovedWithin(db, tasks) && cols.Keys == db.columns.Keys - {column} && t in db.tasks
    requires forall c <- cols :: cols[c].board == db.columns[c].board
    ensures var after := db.(columns := cols, tasks := ColumnCleared(tasks, column));
            && t in after.tasks && Cosmetic(db.tasks[t], after.tasks[t]) && after.tasks[t].workspace == db.tasks[t].workspace
            && ColumnFits(after, after.tasks[t].column, after.tasks[t].board) && (db.tasks[t].pool ==> after.tasks[t].column.None?)
  {
    hide Consistent, Cosmetic, ColumnFits, ColumnCleared;
    var cleared := ColumnCleared(tasks, column);
    ClearedRow(tasks, column, t);
    TaskColumnFits(db, t);
    ClearedPlace(db, db.tasks[t], tasks[t], cols, column);
    FitsByColumns(db.(columns := cols), db.(columns := cols, tasks := cleared), cleared[t]);
  }

  lemma ClearedRow(tasks: map<Schema.Id, Task>, column: Schema.Id, t: Schema.Id)
    requires t in tasks
    ensures t in ColumnCleared(tasks, column)
    ensures ColumnCleared(tasks, column)[t] == if tasks[t].column == Some(column) then tasks[t].(column := None) else tasks[t]
    ensures ColumnCleared(tasks, column)[t].workspace == tasks[t].workspace
  {
  }

  lemma FitsByColumns(a: Db, b: Db, t: Task)
    requires a.columns == b.columns && ColumnFits(a, t.column, t.board)
    ensures ColumnFits(b, t.column, t.board)
  {
  }

  lemma RemoveColumnKeeps(db: Db, tasks: map<Schema.Id, Task>, column: Schema.Id)
    requires Consistent(db) && MovedWithin(db, tasks) && column in db.columns && db.columns[column].role == NoRole
    ensures Consistent(db.(columns := Removed(db.columns, column), tasks := ColumnCleared(tasks, column)))
  {
    hide Consistent, WellFormed, ColumnsOk, ColumnsKnown, Removed, PlacesChange, MovedWithin, ColumnCleared, RowsOk, LinksOk, UniqueMirrors, SubtasksAgree, RouteKeysUnique, AgreeExcept;
    var cols := Removed(db.columns, column);
    Apart(db);
    ColumnsAreOk(db);
    RemovedOk(db.columns, column);
    KnownColumns(db, cols);
    ColumnsWellFormed(db, cols, db.nextId);
    WithoutColumn(db, tasks, cols, column);
    var after := db.(columns := cols, tasks := ColumnCleared(tasks, column));
    TasksFollow(db.(columns := cols), after.tasks, db, after);
    PlacesChanged(db, after);
  }

  lemma TasksFollow(mid: Db, tasks: map<Schema.Id, Task>, before: Db, after: Db)
    requires WellFormed(mid) && PlacesChange(before, after) && after == mid.(tasks := tasks) && before.tasks == mid.tasks
    ensures WellFormed(after)
  {
    hide ColumnsOk;
  }

  lemma DeleteColumnKeeps(db: Db, column: Schema.Id)
    requires Consistent(db) && DeleteColumn(db, column).Ok?
    ensures Consistent(DeleteColumn(db, column).value)
  {
    hide Consistent, Removed, ColumnCleared;
    RemoveColumnKeeps(db, db.tasks, column);
  }

  lemma {:induction false} AppendedRows(tasks: map<Schema.Id, Task>, ids: seq<Schema.Id>, column: Schema.Id, base: nat)
    ensures var after := Appended(tasks, ids, column, base);
            && after.Keys == tasks.Keys
            && (forall t <- tasks :: Cosmetic(tasks[t], after[t]) && after[t].workspace == tasks[t].workspace)
            && (forall t <- tasks :: t !in ids ==> after[t] == tasks[t])
            && (forall t <- tasks :: after[t].column == tasks[t].column || (t in ids && after[t].column == Some(column)))
  {
    if ids != [] {
      var n := |ids| - 1;
      AppendedRows(tasks, ids[..n], column, base);
      assert forall x :: x in ids <==> x in ids[..n] || x == ids[n];
    }
  }

  lemma ListedTasks(db: Db, column: Schema.Id)
    ensures forall t :: t in Listing(db.tasks, column) <==> t in ActiveIn(db.tasks, Some(column))
  {
    SortedLists(ActiveIn(db.tasks, Some(column)), TaskPositions(db.tasks));
  }

  lemma AppendingKeeps(db: Db, column: Schema.Id, target: Schema.Id, base: nat)
    requires Consistent(db) && column in db.columns && target in db.columns
    requires db.columns[target].board == db.columns[column].board
    ensures MovedWithin(db, Appended(db.tasks, Listing(db.tasks, column), target, base))
  {
    var ids := Listing(db.tasks, column);
    AppendedRows(db.tasks, ids, target, base);
    ListedTasks(db, column);
    hide Appended, Listing, Cosmetic;
    forall t | t in ids && t in db.tasks
      ensures !db.tasks[t].pool && ColumnFits(db, Some(target), db.tasks[t].board)
    {
      TaskColumnFits(db, t);
    }
    hide Consistent;
  }

  lemma DeleteWithMoveKeeps(db: Db, column: Schema.Id, target: Schema.Id)
    requires Consistent(db) && DeleteColumnWithMove(db, column, target).Ok?
    ensures Consistent(DeleteColumnWithMove(db, column, target).value)
  {
    hide Consistent, Removed, ColumnCleared, Appended, MovedWithin, Listing, NextInColumn;
    var base := NextInColumn(db.tasks, Some(target));
    AppendingKeeps(db, column, target, base);
    RemoveColumnKeeps(db, Appended(db.tasks, Listing(db.tasks, column), target, base), column);
  }

  // ---------- Projects ----------

  /** The key search gives a key that no project of the team has. */
  lemma NewKeyIsFree(db: Db, workspace: Schema.Id, slug: string)
    ensures forall p <- db.projects :: db.projects[p].workspace == workspace ==>
              db.projects[p].routeKey != UniqueKey(TakenKeys(db, workspace), slug)
  {
    SearchFindsFree(TakenKeys(db, workspace), Base(slug), 1);
    hide Search;
    forall p <- db.projects | db.projects[p].workspace == workspace
      ensures db.projects[p].routeKey in TakenKeys(db, workspace)
    {
    }
  }

  // Adding the project's row once its board is there.
  lemma WithProjectRow(with: Db, project: Schema.Id, row: Project)
    requires IdsDrawn(with) && ColumnsHaveBoards(with) && OnePersonalBoard(with) && ColumnsOk(with.columns)
    requires project < with.nextId
    ensures var after := with.(projects := with.projects[project := row]);
            IdsDrawn(after) && ColumnsHaveBoards(after) && OnePersonalBoard(after) && ColumnsOk(after.columns)
  {
    hide ColumnsOk;
  }

  lemma WithProjectBoard(db: Db, workspace: Schema.Id, key: string)
    requires IdsDrawn(db) && ProjectsHaveBoards(db) && OnePersonalBoard(db) && db.nextId + 4 !in db.projects
    ensures OnePersonalBoard(WithProjectsBoard(db, workspace)) && ProjectsHaveBoards(WithProject(db, workspace, key))
  {
    hide WithDefaults;
  }

  lemma FreshProjectId(db: Db)
    requires WellFormed(db)
    ensures db.nextId + 4 !in db.projects
    ensures IdsDrawn(db) && ProjectsHaveBoards(db) && OnePersonalBoard(db) && ColumnsHaveBoards(db) && ColumnsOk(db.columns)
  {
    hide ProjectsHaveBoards, OnePersonalBoard, ColumnsHaveBoards, ColumnsOk;
  }

  lemma MoreIds(db: Db, board: Schema.Id, cols: Cols)
    requires ColumnsFor(db, board, cols, 3)
    ensures ColumnsFor(db, board, cols, 4) && ColumnsOk(cols)
  {
    hide ColumnsOk;
  }

  lemma ProjectsBoardFields(db: Db, workspace: Schema.Id)
    ensures var with := WithProjectsBoard(db, workspace);
            && with == WithBoard(db, ProjectBoard(workspace, db.nextId + 4), WithDefaults(db.columns, db.nextId, 0, db.nextId + 1), 4)
            && with.columns == WithDefaults(db.columns, db.nextId, 0, db.nextId + 1) && with.nextId == db.nextId + 5
  {
    hide WithDefaults;
  }

  function DefaultColumns(db: Db): Cols {
    WithDefaults(db.columns, db.nextId, 0, db.nextId + 1)
  }

  lemma DefaultColumnsReady(db: Db)
    requires WellFormed(db)
    ensures ColumnsFor(db, db.nextId, DefaultColumns(db), 4) && ColumnsOk(DefaultColumns(db))
  {
    hide WellFormed, WithDefaults, ColumnsFor, ColumnsOk;
    DefaultsFor(db, db.nextId, 0);
    MoreIds(db, db.nextId, DefaultColumns(db));
  }

  lemma ProjectsBoardReady(db: Db, workspace: Schema.Id)
    requires WellFormed(db)
    ensures var with := WithProjectsBoard(db, workspace);
            && IdsDrawn(with) && ColumnsHaveBoards(with) && ColumnsOk(with.columns) && with.nextId == db.nextId + 5
  {
    ProjectsBoardFields(db, workspace);
    assert WithDefaults(db.columns, db.nextId, 0, db.nextId + 1) == DefaultColumns(db);
    hide WellFormed, IdsDrawn, ProjectsHaveBoards, OnePersonalBoard, ColumnsHaveBoards, ColumnsOk, WithDefaults, ColumnsFor, WithBoard, WithProjectsBoard, DefaultColumns;
    DefaultColumnsReady(db);
    FreshProjectId(db);
    WithBoardKeepsIds(db, ProjectBoard(workspace, db.nextId + 4), DefaultColumns(db), 4);
  }

  lemma NewProjectWellFormed(db: Db, workspace: Schema.Id, key: string)
    requires WellFormed(db)
    ensures WellFormed(WithProject(db, workspace, key))
  {
    var board, project := db.nextId, db.nextId + 4;
    FreshProjectId(db);
    hide IdsDrawn, ProjectsHaveBoards, OnePersonalBoard, ColumnsHaveBoards, ColumnsOk, WithProjectsBoard;
    ProjectsBoardReady(db, workspace);
    WithProjectBoard(db, workspace, key);
    WithProjectRow(WithProjectsBoard(db, workspace), project, Project(workspace, key, board));
  }

  lemma WithProjectAdds(db: Db, workspace: Schema.Id, key: string)
    requires WellFormed(db)
    ensures var after := WithProject(db, workspace, key);
            && after.tasks == db.tasks && after.subtasks == db.subtasks && after.projects.Keys >= db.projects.Keys
            && (forall b <- db.boards :: b in after.boards && after.boards[b] == db.boards[b])
            && (forall c <- db.columns :: c in after.columns && after.columns[c] == db.columns[c])
  {
    NextIdUnused(db);
    DefaultsFor(db, db.nextId, 0);
    hide WithDefaults, ColumnsOk, WellFormed;
  }

  lemma NewProjectPlaces(db: Db, workspace: Schema.Id, key: string)
    requires Consistent(db)
    ensures var after := WithProject(db, workspace, key);
            Retouched(db, after) && AllFit(db, after) && after.projects.Keys >= db.projects.Keys
  {
    hide Consistent, WellFormed, RowsOk, LinksOk, UniqueMirrors, SubtasksAgree, AgreeExcept, RouteKeysUnique, WithProject, StillFits;
    var after := WithProject(db, workspace, key);
    Apart(db);
    WithProjectAdds(db, workspace, key);
    OldBoardsStay(db, after);
    assert AllFit(db, after) by {
      hide Retouched;
      forall t <- db.tasks ensures t in after.tasks && StillFits(after, db.tasks[t], after.tasks[t]) {
        StaysOnBoard(db, after, t);
      }
    }
  }

  lemma OldBoardsStay(db: Db, after: Db)
    requires after.tasks == db.tasks && after.subtasks == db.subtasks
    requires forall b <- db.boards :: b in after.boards && after.boards[b] == db.boards[b]
    ensures Retouched(db, after)
  {
  }

  lemma StaysOnBoard(db: Db, after: Db, t: Schema.Id)
    requires Consistent(db) && t in db.tasks
    requires forall b <- db.boards :: b in after.boards && after.boards[b] == db.boards[b]
    requires forall c <- db.columns :: c in after.columns && after.columns[c] == db.columns[c]
    ensures StillFits(after, db.tasks[t], db.tasks[t])
  {
    RowFits(db, t);
    RowAt(db, t);
    hide Consistent;
  }

  lemma NewProjectKeys(db: Db, workspace: Schema.Id, slug: string)
    requires RouteKeysUnique(db)
    ensures RouteKeysUnique(WithProject(db, workspace, UniqueKey(TakenKeys(db, workspace), slug)))
  {
    NewKeyIsFree(db, workspace, slug);
    hide UniqueKey, TakenKeys, WithDefaults;
  }

  lemma CreateProjectKeeps(db: Db, workspace: Schema.Id, slug: string)
    requires Consistent(db) && CreateProject(db, workspace, slug).Ok?
    ensures Consistent(CreateProject(db, workspace, slug).value)
  {
    hide Consistent, WellFormed, RowsOk, LinksOk, UniqueMirrors, SubtasksAgree, AgreeExcept, Retouched, AllFit, UniqueKey, TakenKeys, RouteKeysUnique, WithProject;
    Apart(db);
    var key := UniqueKey(TakenKeys(db, workspace), slug);
    NewProjectWellFormed(db, workspace, key);
    NewProjectPlaces(db, workspace, key);
    NewProjectKeys(db, workspace, slug);
    RetouchedConsistent(db, WithProject(db, workspace, key));
  }

  lemma TransferredWellFormed(db: Db, project: Schema.Id, workspace: Schema.Id, key: string)
    requires WellFormed(db) && project in db.projects
    ensures WellFormed(Transferred(db, project, workspace, key))
  {
    hide ColumnsOk;
    var after := Transferred(db, project, workspace, key);
    assert IdsDrawn(after) && ColumnsHaveBoards(after) by { hide OnePersonalBoard; }
    assert ProjectsHaveBoards(after) by { hide OnePersonalBoard, ColumnsHaveBoards, IdsDrawn; }
    assert OnePersonalBoard(after) by { hide ColumnsHaveBoards, IdsDrawn; }
  }

  lemma MovedTasksRetouched(tasks: map<Schema.Id, Task>, project: Schema.Id, workspace: Schema.Id)
    ensures var after := TasksMoved(tasks, project, workspace);
            && after.Keys == tasks.Keys
            && forall t <- tasks :: Cosmetic(tasks[t], after[t])
  {
  }

  lemma TransferredRetouches(db: Db, project: Schema.Id, workspace: Schema.Id, key: string)
    requires Consistent(db) && project in db.projects
    ensures var after := Transferred(db, project, workspace, key);
            Retouched(db, after) && after.projects.Keys == db.projects.Keys
  {
    ProjectBoardOf(db, project);
    MovedTasksRetouched(db.tasks, project, workspace);
    hide Consistent, TasksMoved, Cosmetic;
  }

  /** A task of the project sits on the project's board, so it moves with the
      board; any other task sits elsewhere. */
  lemma MovedTaskFits(db: Db, project: Schema.Id, workspace: Schema.Id, key: string, t: Schema.Id)
    requires Consistent(db) && project in db.projects && t in db.tasks
    ensures var after := Transferred(db, project, workspace, key);
            t in after.tasks && StillFits(after, db.tasks[t], after.tasks[t])
  {
    TransferredRow(db, project, workspace, key, t);
    TaskColumnFits(db, t);
    BoardsOfProject(db, project);
    TaskOnBoard(db, t);
    hide Consistent, ColumnFits, Transferred;
    var after := Transferred(db, project, workspace, key);
    FitsByColumns(db, after, after.tasks[t]);
  }

  lemma TransferredRow(db: Db, project: Schema.Id, workspace: Schema.Id, key: string, t: Schema.Id)
    requires Consistent(db) && project in db.projects && t in db.tasks
    ensures var after, u := Transferred(db, project, workspace, key), db.tasks[t];
            && t in after.tasks && after.tasks[t].column == u.column && after.tasks[t].board == u.board
            && Canonical(after.tasks[t]) == Canonical(u) && after.columns == db.columns
            && after.tasks[t].workspace == (if u.project == Some(project) then workspace else u.workspace)
            && (u.board in db.boards ==>
                  && u.board in after.boards
                  && after.boards[u.board].workspace
                     == if u.board == db.projects[project].board then workspace else db.boards[u.board].workspace)
  {
    hide Consistent;
  }

  lemma TaskOnBoard(db: Db, t: Schema.Id)
    requires Consistent(db) && t in db.tasks
    ensures Canonical(db.tasks[t]) ==>
              && db.tasks[t].board in db.boards && db.tasks[t].project == BoardProject(db.boards[db.tasks[t].board])
              && db.tasks[t].workspace == db.boards[db.tasks[t].board].workspace
  {
    RowAt(db, t);
    hide Consistent;
  }

  lemma BoardsOfProject(db: Db, project: Schema.Id)
    requires Consistent(db) && project in db.projects
    ensures forall b <- db.boards :: BoardProject(db.boards[b]) == Some(project) <==> b == db.projects[project].board
  {
    ProjectBoardOf(db, project);
    Apart(db);
    hide Consistent, ColumnsOk, IdsDrawn, OnePersonalBoard, ColumnsHaveBoards;
  }

  lemma TransferredKeys(db: Db, project: Schema.Id, workspace: Schema.Id, slug: string)
    requires RouteKeysUnique(db) && project in db.projects && db.projects[project].workspace != workspace
    ensures RouteKeysUnique(Transferred(db, project, workspace, UniqueKey(TakenKeys(db, workspace), slug)))
  {
    NewKeyIsFree(db, workspace, slug);
    hide UniqueKey, TakenKeys, TasksMoved;
  }

  lemma TransferredFits(db: Db, project: Schema.Id, workspace: Schema.Id, key: string)
    requires Consistent(db) && project in db.projects
    ensures AllFit(db, Transferred(db, project, workspace, key))
  {
    hide Consistent, Transferred, StillFits;
    var after := Transferred(db, project, workspace, key);
    forall t <- db.tasks ensures t in after.tasks && StillFits(after, db.tasks[t], after.tasks[t]) {
      MovedTaskFits(db, project, workspace, key, t);
    }
  }

  lemma MoveProjectKeeps(db: Db, project: Schema.Id, workspace: Schema.Id, slug: string)
    requires Consistent(db) && MoveProject(db, project, workspace, slug).Ok?
    ensures Consistent(MoveProject(db, project, workspace, slug).value)
  {
    hide Consistent, WellFormed, RowsOk, LinksOk, UniqueMirrors, SubtasksAgree, AgreeExcept, Retouched, AllFit, UniqueKey, TakenKeys, RouteKeysUnique, Transferred;
    if db.projects[project].workspace != workspace {
      var key := UniqueKey(TakenKeys(db, workspace), slug);
      Apart(db);
      TransferredWellFormed(db, project, workspace, key);
      TransferredRetouches(db, project, workspace, key);
      TransferredFits(db, project, workspace, key);
      TransferredKeys(db, project, workspace, slug);
      RetouchedConsistent(db, Transferred(db, project, workspace, key));
    }
  }

  /** Under the id of another project, an update is refused or takes the board of
      the project to a team the project is not in; it never is what was asked for. */
  lemma OtherProjectBreaks(db: Db, project: Schema.Id, other: Schema.Id, workspace: Schema.Id, slug: string)
    requires Consistent(db) && project in db.projects && other in db.projects && project != other
    ensures MoveProjectAs(db, project, other, workspace, slug).Ok?
            <==> workspace in db.workspaces && db.projects[project].workspace != workspace
    ensures MoveProjectAs(db, project, other, workspace, slug).Ok? ==>
              !Consistent(MoveProjectAs(db, project, other, workspace, slug).value)
  {
    hide UniqueKey, TakenKeys, TasksMoved;
    Apart(db);
    ProjectBoardOf(db, project);
    if MoveProjectAs(db, project, other, workspace, slug).Ok? {
      var after := MoveProjectAs(db, project, other, workspace, slug).value;
      assert after.projects[project] == db.projects[project];
      if Consistent(after) {
        Apart(after);
        ProjectBoardOf(after, project);
        assert false;
      }
    }
  }
}
