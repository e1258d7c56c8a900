/** Changes of boards, columns and projects on the basis of a version
    (apps/workspaces/views.py and services.py, update_project). */
module Locking {
  import opened Boards
  import opened Columns
  import opened Consistency
  import opened History
  import opened Options
  import opened Ordering
  import opened Schema
  import opened Structure
  import opened Tasks
  import opened Workspace

  lemma BumpWellFormed(db: Db, id: Schema.Id)
    requires WellFormed(db)
    ensures WellFormed(Bumped(db, id))
  {
    hide ColumnsOk;
  }

  lemma BumpPlaces(db: Db, id: Schema.Id)
    requires Consistent(db)
    ensures PlacesChange(db, Bumped(db, id))
  {
    hide Consistent;
    forall t <- db.tasks ensures ColumnFits(db, db.tasks[t].column, db.tasks[t].board) && (db.tasks[t].pool ==> db.tasks[t].column.None?) {
      TaskColumnFits(db, t);
    }
  }

  /** A raised version is nothing any invariant speaks of. */
  lemma BumpKeeps(db: Db, id: Schema.Id)
    requires Consistent(db)
    ensures Consistent(Bumped(db, id)) && Follows(db, Bumped(db, id))
  {
    hide Consistent, PlacesChange, WellFormed, Follows, Bumped, RowsOk, LinksOk, UniqueMirrors, SubtasksAgree, RouteKeysUnique, AgreeExcept;
    Apart(db);
    BumpWellFormed(db, id);
    BumpPlaces(db, id);
    PlacesChanged(db, Bumped(db, id));
    BumpFollows(db, id);
  }

  /** A kept and followed step stays so when versions are raised. */
  lemma ThenBumped(db: Db, after: Db, id: Schema.Id)
    requires Consistent(db) && Consistent(after) && Follows(db, after)
    ensures Consistent(Bumped(after, id)) && Follows(db, Bumped(after, id))
  {
    hide Consistent, Follows, Bumped, WellFormed;
    Apart(db);
    IdsAreDrawn(db);
    BumpKeeps(after, id);
    FollowsTransitive(db, after, Bumped(after, id));
  }

  lemma CreateColumnCheckedKeeps(db: Db, board: Schema.Id, title: string, supplied: Option<nat>)
    requires Consistent(db) && CreateColumnChecked(db, board, title, supplied).Ok?
    ensures var after := CreateColumnChecked(db, board, title, supplied).value; Consistent(after) && Follows(db, after)
  {
    hide Consistent, Follows, CreateColumn, Bumped;
    CreateColumnKeeps(db, board, title);
    CreateColumnFollows(db, board, title);
    ThenBumped(db, CreateColumn(db, board, title).value, board);
  }

  lemma ReorderColumnsCheckedKeeps(db: Db, board: Schema.Id, ids: seq<Schema.Id>, supplied: nat)
    requires Consistent(db) && ReorderColumnsChecked(db, board, ids, supplied).Ok?
    ensures var after := ReorderColumnsChecked(db, board, ids, supplied).value; Consistent(after) && Follows(db, after)
  {
    hide Consistent, Follows, ReorderColumns, Bumped;
    ReorderColumnsKeeps(db, board, ids);
    ReorderFollows(db, board, ids);
    ThenBumped(db, ReorderColumns(db, board, ids).value, board);
  }

  lemma RenameColumnCheckedKeeps(db: Db, column: Schema.Id, title: string, supplied: Option<nat>)
    requires Consistent(db) && RenameColumnChecked(db, column, title, supplied).Ok?
    ensures var after := RenameColumnChecked(db, column, title, supplied).value; Consistent(after) && Follows(db, after)
  {
    hide Consistent, Follows, RenameColumn, Bumped;
    RenameColumnKeeps(db, column, title);
    RenameFollows(db, column, title);
    ThenBumped(db, RenameColumn(db, column, title).value, column);
  }

  lemma DeleteColumnCheckedKeeps(db: Db, column: Schema.Id, supplied: nat)
    requires Consistent(db) && DeleteColumnChecked(db, column, supplied).Ok?
    ensures var after := DeleteColumnChecked(db, column, supplied).value; Consistent(after) && Follows(db, after)
  {
    hide Consistent, Follows, Removed, ColumnCleared, ActiveIn, Bumped;
    DeleteColumnKeeps(db, column);
    DeleteColumnFollows(db, column);
    ThenBumped(db, DeleteColumn(db, column).value, db.columns[column].board);
  }

  lemma DeleteWithMoveCheckedKeeps(db: Db, column: Schema.Id, target: Schema.Id, supplied: nat)
    requires Consistent(db) && DeleteColumnWithMoveChecked(db, column, target, supplied).Ok?
    ensures var after := DeleteColumnWithMoveChecked(db, column, target, supplied).value; Consistent(after) && Follows(db, after)
  {
    hide Consistent, Follows, Removed, ColumnCleared, Appended, Listing, NextInColumn, Bumped;
    DeleteWithMoveKeeps(db, column, target);
    DeleteWithMoveFollows(db, column, target);
    ThenBumped(db, DeleteColumnWithMove(db, column, target).value, db.columns[column].board);
  }

  lemma MoveProjectCheckedKeeps(db: Db, project: Schema.Id, workspace: Schema.Id, slug: string, supplied: Option<nat>)
    requires Consistent(db) && MoveProjectChecked(db, project, workspace, slug, supplied).Ok?
    ensures var after := MoveProjectChecked(db, project, workspace, slug, supplied).value; Consistent(after) && Follows(db, after)
  {
    hide Consistent, Follows, MoveProject, Bumped;
    MoveProjectExists(db, project, workspace, slug);
    MoveProjectKeeps(db, project, workspace, slug);
    MoveProjectFollows(db, project, workspace, slug);
    var moved, board := MoveProject(db, project, workspace, slug).value, db.projects[project].board;
    ThenBumped(db, moved, project);
    ThenBumped(db, moved, board);
    ThenBumped(db, Bumped(moved, board), project);
  }

  lemma MoveProjectExists(db: Db, project: Schema.Id, workspace: Schema.Id, slug: string)
    requires MoveProject(db, project, workspace, slug).Ok?
    ensures project in db.projects
  {
  }
}
