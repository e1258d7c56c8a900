/** Personal boards (apps/workspaces/services.py, ensure_personal_board). */
module Boards {
  import opened Columns
  import opened Options
  import opened Ordering
  import opened Schema

  /** The oldest of some rows: the first by creation. */
  ghost function Oldest(ids: set<Schema.Id>): (m: Schema.Id)
    requires ids != {}
    ensures m in ids
  {
    First(ids, map i | i in ids :: 0)
  }

  function PersonalBoards(db: Db, user: Schema.Id): set<Schema.Id> {
    set b | b in db.boards && db.boards[b].PersonalBoard? && db.boards[b].owner == user
  }

  function OwnWorkspaces(db: Db, user: Schema.Id): set<Schema.Id> {
    set w | w in db.workspaces && db.workspaces[w] == user
  }

  predicate Dynamic(db: Db, user: Schema.Id) {
    user !in db.staticColumns
  }

  ghost function WithHome(db: Db, user: Schema.Id): (Db, Schema.Id) {
    var own := OwnWorkspaces(db, user);
    if own != {} then (db, Oldest(own))
    else (db.(workspaces := db.workspaces[db.nextId := user], members := db.members + {(db.nextId, user)},
              nextId := db.nextId + 1), db.nextId)
  }

  /** _ensure_personal_intake_column on the database. An id is drawn whether or
      not a column has to be created. */
  ghost function WithIntake(db: Db, board: Schema.Id, user: Schema.Id): (Db, Schema.Id) {
    var (columns, column) := EnsureIntake(db.columns, board, Dynamic(db, user), db.nextId);
    (db.(columns := columns, nextId := db.nextId + 1), column)
  }

  // Adding one board with its columns to a database.
  function WithBoard(db: Db, row: Board, cols: Cols, count: nat): Db {
    db.(boards := db.boards[db.nextId := row], columns := cols, nextId := db.nextId + 1 + count)
  }

  ghost function NewPersonalBoard(db: Db, user: Schema.Id): (Db, Schema.Id) {
    var (home, workspace) := WithHome(db, user);
    var offset := if Dynamic(db, user) then 1 else 0;
    (WithBoard(home, PersonalBoard(workspace, user),
               WithDefaults(home.columns, home.nextId, offset, home.nextId + 1), 3), home.nextId)
  }

  /** ensure_personal_board */
  ghost function EnsureBoard(db: Db, user: Schema.Id): (Db, Schema.Id) {
    var existing := PersonalBoards(db, user);
    if existing != {} then
      (WithIntake(db, Oldest(existing), user).0, Oldest(existing))
    else
      var (created, board) := NewPersonalBoard(db, user);
      (WithIntake(created, board, user).0, board)
  }

  // ---------- Well-formed databases ----------

  /** Every row's id has been drawn from the counter. */
  ghost predicate IdsDrawn(db: Db) {
    && (forall t <- db.tasks :: t < db.nextId)
    && (forall s <- db.subtasks :: s < db.nextId)
    && (forall b <- db.boards :: b < db.nextId)
    && (forall c <- db.columns :: c < db.nextId)
    && (forall p <- db.projects :: p < db.nextId)
    && (forall w <- db.workspaces :: w < db.nextId)
  }

  /** Projects and their boards belong together, one to one and in one team. */
  ghost predicate ProjectsHaveBoards(db: Db) {
    && (forall b <- db.boards :: db.boards[b].ProjectBoard? ==>
          var p := db.boards[b].project;
          p in db.projects && db.projects[p].board == b && db.projects[p].workspace == db.boards[b].workspace)
    && (forall p <- db.projects ::
          var b := db.projects[p].board;
          b in db.boards && db.boards[b] == ProjectBoard(db.projects[p].workspace, p))
  }

  /** personal_board_per_user */
  ghost predicate OnePersonalBoard(db: Db) {
    forall a, b ::
      a in db.boards && b in db.boards && db.boards[a].PersonalBoard? && db.boards[b].PersonalBoard?
      && db.boards[a].owner == db.boards[b].owner
      ==> a == b
  }

  ghost predicate ColumnsHaveBoards(db: Db) {
    forall c <- db.columns :: db.columns[c].board in db.boards
  }

  ghost predicate WellFormed(db: Db) {
    IdsDrawn(db) && ProjectsHaveBoards(db) && OnePersonalBoard(db) && ColumnsHaveBoards(db) && ColumnsOk(db.columns)
  }

  lemma NextIdUnused(db: Db)
    requires WellFormed(db)
    ensures db.nextId !in db.tasks && db.nextId !in db.subtasks && db.nextId !in db.columns && db.nextId !in db.boards
  {
  }

  /** The later database only adds boards, columns, workspaces and members. */
  ghost predicate Extends(before: Db, after: Db) {
    && after.tasks == before.tasks && after.subtasks == before.subtasks && after.projects == before.projects
    && after.rules == before.rules && after.staticColumns == before.staticColumns && after.versions == before.versions
    && (forall b <- before.boards :: b in after.boards && after.boards[b] == before.boards[b])
    && (forall b <- after.boards :: b !in before.boards ==> after.boards[b].PersonalBoard?)
    && (forall c <- before.columns :: c in after.columns && after.columns[c].board == before.columns[c].board
                                      && after.columns[c].role == before.columns[c].role)
    && before.members <= after.members && before.nextId <= after.nextId
  }

  lemma ExtendsTransitive(a: Db, b: Db, c: Db)
    requires Extends(a, b) && Extends(b, c)
    ensures Extends(a, c)
  {
  }

  lemma WithIntakeOk(db: Db, board: Schema.Id, user: Schema.Id)
    requires WellFormed(db) && board in db.boards
    ensures var (after, column) := WithIntake(db, board, user);
            && WellFormed(after) && Extends(db, after) && after.boards == db.boards
            && column in after.columns && after.columns[column].board == board
  {
    hide ColumnsOk, EnsureIntake, Dynamic;
    NextIdUnused(db);
    EnsureIntakeOk(db.columns, board, Dynamic(db, user), db.nextId);
    var after := WithIntake(db, board, user).0;
    assert ColumnsHaveBoards(after);
    hide ColumnsHaveBoards;
  }

  lemma WithHomeOk(db: Db, user: Schema.Id)
    requires WellFormed(db)
    ensures WellFormed(WithHome(db, user).0) && Extends(db, WithHome(db, user).0)
    ensures WithHome(db, user).0.boards == db.boards && WithHome(db, user).0.columns == db.columns
  {
    hide WellFormed, Extends, Oldest;
    NewHomeOk(db, db.(workspaces := db.workspaces[db.nextId := user], members := db.members + {(db.nextId, user)},
                      nextId := db.nextId + 1));
    SameExtends(db);
  }

  lemma NewHomeOk(db: Db, after: Db)
    requires WellFormed(db) && db.members <= after.members && after.nextId == db.nextId + 1
    requires after == db.(workspaces := after.workspaces, members := after.members, nextId := after.nextId)
    requires after.workspaces.Keys == db.workspaces.Keys + {db.nextId}
    ensures WellFormed(after) && Extends(db, after)
  {
    hide ColumnsOk;
  }

  lemma SameExtends(db: Db)
    ensures Extends(db, db)
  {
  }

  /** The new columns are the new board's. */
  ghost predicate ColumnsFor(db: Db, board: Schema.Id, cols: Cols, count: nat) {
    && ColumnsOk(cols) && db.columns.Keys <= cols.Keys
    && (forall c <- db.columns :: cols[c] == db.columns[c])
    && (forall c <- cols :: c !in db.columns ==> cols[c].board == board && c <= board + count)
  }

  lemma WithBoardKeepsIds(db: Db, row: Board, cols: Cols, count: nat)
    requires IdsDrawn(db) && ColumnsFor(db, db.nextId, cols, count) && ColumnsHaveBoards(db)
    ensures IdsDrawn(WithBoard(db, row, cols, count)) && ColumnsHaveBoards(WithBoard(db, row, cols, count))
  {
    hide ColumnsOk;
  }

  lemma WithBoardExtends(db: Db, row: Board, cols: Cols, count: nat)
    requires WellFormed(db) && ColumnsFor(db, db.nextId, cols, count) && row.PersonalBoard?
    ensures Extends(db, WithBoard(db, row, cols, count))
  {
    hide ColumnsOk;
  }

  lemma WithBoardHas(db: Db, row: Board, cols: Cols, count: nat)
    ensures db.nextId in WithBoard(db, row, cols, count).boards && WithBoard(db, row, cols, count).boards[db.nextId] == row
  {
  }

  lemma WithPersonalBoardOk(db: Db, row: Board, cols: Cols, count: nat)
    requires WellFormed(db) && ColumnsFor(db, db.nextId, cols, count)
    requires row.PersonalBoard? && PersonalBoards(db, row.owner) == {}
    ensures WellFormed(WithBoard(db, row, cols, count))
  {
    WithBoardKeepsIds(db, row, cols, count);
    hide ColumnsOk, ColumnsHaveBoards;
    var after := WithBoard(db, row, cols, count);
    assert OnePersonalBoard(after) by {
      hide ColumnsFor, ProjectsHaveBoards;
      assert forall b :: b in db.boards && db.boards[b].PersonalBoard? && db.boards[b].owner == row.owner
                         ==> b in PersonalBoards(db, row.owner);
    }
    assert ProjectsHaveBoards(after) by {
      hide ColumnsFor, OnePersonalBoard;
    }
  }

  lemma NewPersonalBoardOk(db: Db, user: Schema.Id)
    requires WellFormed(db) && PersonalBoards(db, user) == {}
    ensures var (after, board) := NewPersonalBoard(db, user);
            && WellFormed(after) && Extends(db, after)
            && board in after.boards && after.boards[board].PersonalBoard? && after.boards[board].owner == user
  {
    hide WellFormed, Extends, ColumnsFor, WithBoard, WithHome, WithDefaults;
    WithHomeOk(db, user);
    var (home, workspace) := WithHome(db, user);
    assert PersonalBoards(home, user) == {};
    var offset, board := if Dynamic(db, user) then 1 else 0, home.nextId;
    var cols, row := WithDefaults(home.columns, board, offset, board + 1), PersonalBoard(workspace, user);
    DefaultsFor(home, board, offset);
    WithPersonalBoardOk(home, row, cols, 3);
    WithBoardExtends(home, row, cols, 3);
    ExtendsTransitive(db, home, WithBoard(home, row, cols, 3));
    WithBoardHas(home, row, cols, 3);
  }

  lemma DefaultsFor(db: Db, board: Schema.Id, offset: nat)
    requires WellFormed(db) && board == db.nextId
    ensures ColumnsFor(db, board, WithDefaults(db.columns, board, offset, board + 1), 3)
  {
    hide ProjectsHaveBoards, OnePersonalBoard, DefaultColumn, ColumnsOk;
    assert OnBoard(db.columns, board) == {};
    WithDefaultsOk(db.columns, board, offset, board + 1);
    DefaultsOnBoard(db.columns, board, offset, board + 1);
    hide WithDefaults;
  }

  lemma DefaultsOnBoard(cols: Cols, board: Schema.Id, offset: nat, newId: Schema.Id)
    ensures var after := WithDefaults(cols, board, offset, newId);
            && after.Keys == cols.Keys + {newId, newId + 1, newId + 2}
            && (forall c :: c in after && c !in {newId, newId + 1, newId + 2} ==> after[c] == cols[c])
            && (forall c :: c in {newId, newId + 1, newId + 2} ==> after[c].board == board)
  {
  }

  /** ensure_personal_board always ends with the user's one personal board. */
  lemma EnsureBoardOk(db: Db, user: Schema.Id)
    requires WellFormed(db)
    ensures var (after, board) := EnsureBoard(db, user);
            && WellFormed(after) && Extends(db, after)
            && board in after.boards && after.boards[board].PersonalBoard? && after.boards[board].owner == user
            && PersonalBoards(after, user) == {board}
  {
    hide WithIntake, NewPersonalBoard, ColumnsOk, First;
    var existing := PersonalBoards(db, user);
    if existing != {} {
      WithIntakeOk(db, Oldest(existing), user);
    } else {
      NewPersonalBoardOk(db, user);
      var (created, board) := NewPersonalBoard(db, user);
      WithIntakeOk(created, board, user);
      ExtendsTransitive(db, created, WithIntake(created, board, user).0);
    }
    var (after, board) := EnsureBoard(db, user);
    assert board in PersonalBoards(after, user);
    hide WellFormed, Extends;
    OnlyPersonalBoard(after, user, board);
  }

  lemma OnlyPersonalBoard(db: Db, user: Schema.Id, board: Schema.Id)
    requires WellFormed(db) && board in PersonalBoards(db, user)
    ensures PersonalBoards(db, user) == {board}
  {
    hide ColumnsOk, IdsDrawn, ProjectsHaveBoards;
  }

  // ---------- Other boards ----------

  lemma WithIntakeElsewhere(db: Db, board: Schema.Id, user: Schema.Id, other: Schema.Id)
    requires WellFormed(db) && other != board
    ensures OnBoard(WithIntake(db, board, user).0.columns, other) == OnBoard(db.columns, other)
  {
    hide ColumnsOk, EnsureIntake, Dynamic;
    NextIdUnused(db);
    EnsureIntakeOk(db.columns, board, Dynamic(db, user), db.nextId);
  }

  lemma NewPersonalBoardElsewhere(db: Db, user: Schema.Id, other: Schema.Id)
    requires WellFormed(db) && other in db.boards
    ensures OnBoard(NewPersonalBoard(db, user).0.columns, other) == OnBoard(db.columns, other)
  {
    hide ColumnsOk, WithDefaults, WithHome;
    WithHomeOk(db, user);
    var home := WithHome(db, user).0;
    var offset := if Dynamic(db, user) then 1 else 0;
    DefaultsFor(home, home.nextId, offset);
    NextIdUnused(home);
  }

  /** Ensuring a user's personal board leaves every other old board's columns there. */
  lemma EnsureBoardElsewhere(db: Db, user: Schema.Id, other: Schema.Id)
    requires WellFormed(db) && other in db.boards && !(db.boards[other].PersonalBoard? && db.boards[other].owner == user)
    ensures OnBoard(EnsureBoard(db, user).0.columns, other) == OnBoard(db.columns, other)
  {
    hide WellFormed, WithIntake, NewPersonalBoard, OnBoard, Extends;
    var existing := PersonalBoards(db, user);
    if existing != {} {
      WithIntakeElsewhere(db, Oldest(existing), user, other);
    } else {
      NewPersonalBoardOk(db, user);
      NewPersonalBoardElsewhere(db, user, other);
      var (created, board) := NewPersonalBoard(db, user);
      assert other != board by { NewBoardIsNew(db, user); }
      WithIntakeElsewhere(created, board, user, other);
    }
  }

  lemma NewBoardIsNew(db: Db, user: Schema.Id)
    requires WellFormed(db)
    ensures NewPersonalBoard(db, user).1 !in db.boards
  {
    hide ColumnsOk, WithDefaults;
    WithHomeOk(db, user);
    NextIdUnused(WithHome(db, user).0);
  }
}
