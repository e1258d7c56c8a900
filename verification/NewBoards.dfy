/** What new boards, projects and columns look like
    (apps/workspaces/services.py and views.py). */
module NewBoards {
  import opened Boards
  import opened Columns
  import opened Consistency
  import opened Options
  import opened Ordering
  import opened RouteKeys
  import opened Schema
  import opened Structure
  import opened Workspace

  // ---------- Columns ----------

  /** Making the intake column moves the board's columns down by one and nothing
      else; it is on top, fixed and without the others' order changed. */
  lemma IntakeMakesRoom(cols: Cols, board: Schema.Id, newId: Schema.Id)
    requires newId !in cols && WithRole(cols, board, NewAssigned) == {}
    ensures var (after, column) := EnsureIntake(cols, board, true, newId);
            && column == newId && after.Keys == cols.Keys + {newId}
            && after[newId].board == board && after[newId].position == 0 && after[newId].fixedPosition && after[newId].role == NewAssigned
            && after[newId].title == "Neu"
            && forall c <- cols :: after[c] == if cols[c].board == board then cols[c].(position := cols[c].position + 1) else cols[c]
  {
  }

  /** Otherwise no column changes; a board without any gets its first. */
  lemma IntakeElseKeeps(cols: Cols, board: Schema.Id, dynamic: bool, newId: Schema.Id)
    requires newId !in cols && !(dynamic && WithRole(cols, board, NewAssigned) == {})
    ensures var (after, column) := EnsureIntake(cols, board, dynamic, newId);
            if OnBoard(cols, board) == {} then
              && after.Keys == cols.Keys + {newId} && after[newId].board == board && after[newId].position == 0
              && after[newId].title == "Offen" && after[newId].role == NoRole && !after[newId].fixedPosition
              && forall c <- cols :: after[c] == cols[c]
            else after == cols
  {
    assert OnBoard(cols, board) == Ordinary(cols, board) + WithRole(cols, board, NewAssigned);
  }

  /** A new column is an ordinary one, right behind the last. */
  lemma ColumnAppended(db: Db, board: Schema.Id, title: string)
    requires board in db.boards && db.nextId !in db.columns
    ensures var after := CreateColumn(db, board, title).value;
            && after.columns.Keys == db.columns.Keys + {db.nextId} && (forall c <- db.columns :: after.columns[c] == db.columns[c])
            && after.columns[db.nextId].board == board && after.columns[db.nextId].title == title
            && after.columns[db.nextId].role == NoRole && !after.columns[db.nextId].fixedPosition
            && Follows(db.columns, board, after.columns[db.nextId].position)
  {
    var used := set c | c in OnBoard(db.columns, board) :: db.columns[c].position;
    forall c <- db.columns | db.columns[c].board == board ensures db.columns[c].position in used {
      assert c in OnBoard(db.columns, board);
    }
    if used != {} {
      assert NextFree(used) - 1 in used;
    }
    hide NextFree;
  }

  /** One behind the last column of the board, or zero. */
  ghost predicate Follows(cols: Cols, board: Schema.Id, position: nat) {
    && (forall c <- cols :: cols[c].board == board ==> cols[c].position < position)
    && (position == 0 || exists c <- cols :: cols[c].board == board && cols[c].position == position - 1)
  }

  // ---------- Boards and projects ----------

  /** Three ordinary columns from the given position on. */
  predicate ThreeColumns(cols: Cols, after: Cols, board: Schema.Id, from: nat, a: Schema.Id) {
    && after.Keys == cols.Keys + {a, a + 1, a + 2} && (forall c <- cols :: c in after && after[c] == cols[c])
    && after[a] == Column(board, "Offen", from, false, NoRole)
    && after[a + 1] == Column(board, "In Arbeit", from + 1, false, NoRole)
    && after[a + 2] == Column(board, "Erledigt", from + 2, false, NoRole)
  }

  lemma DefaultsAreThree(cols: Cols, board: Schema.Id, from: nat, a: Schema.Id)
    requires a !in cols && a + 1 !in cols && a + 2 !in cols
    ensures ThreeColumns(cols, WithDefaults(cols, board, from, a), board, from, a)
  {
  }

  /** The team of a first personal board: the oldest the user owns, or a new one. */
  ghost predicate HomeTeam(db: Db, after: Db, user: Schema.Id, workspace: Schema.Id) {
    && workspace in after.workspaces && after.workspaces[workspace] == user
    && if exists w <- db.workspaces :: db.workspaces[w] == user then
         after.workspaces == db.workspaces && forall w <- db.workspaces :: db.workspaces[w] == user ==> workspace <= w
       else workspace !in db.workspaces && (workspace, user) in after.members
  }

  lemma HomeIsTeam(db: Db, user: Schema.Id)
    requires WellFormed(db)
    ensures HomeTeam(db, WithHome(db, user).0, user, WithHome(db, user).1)
  {
    hide ColumnsOk, ColumnsHaveBoards, ProjectsHaveBoards, OnePersonalBoard;
    var own := OwnWorkspaces(db, user);
    forall w <- db.workspaces ensures w in own <==> db.workspaces[w] == user {
    }
    if own != {} {
      var m := Oldest(own);
      assert m in own;
      OldestIsLeast(own);
      forall w <- db.workspaces | db.workspaces[w] == user ensures m <= w {
        assert w in own;
      }
    }
    hide Oldest;
  }

  lemma OldestIsLeast(ids: set<Schema.Id>)
    requires ids != {}
    ensures forall i <- ids :: Oldest(ids) <= i
  {
    var pos := map i | i in ids :: 0;
    var m := First(ids, pos);
    assert IsFirst(m, ids, pos);
    forall i <- ids ensures m <= i {
      assert AtMost(pos, m, i);
    }
  }

  lemma CreatedBoard(db: Db, user: Schema.Id)
    requires WellFormed(db)
    ensures var (after, board) := NewPersonalBoard(db, user);
            && board !in db.boards && board in after.boards && after.boards == db.boards[board := after.boards[board]]
            && after.boards[board].PersonalBoard? && after.boards[board].owner == user
            && HomeTeam(db, after, user, after.boards[board].workspace)
            && ThreeColumns(db.columns, after.columns, board, if Dynamic(db, user) then 1 else 0, board + 1)
            && after.nextId == board + 4 && after.staticColumns == db.staticColumns
            && OnBoard(db.columns, board) == {} && after.nextId !in after.columns
  {
    hide WellFormed, WithDefaults, HomeTeam, Extends;
    WithHomeOk(db, user);
    HomeIsTeam(db, user);
    NewBoardIsNew(db, user);
    var (home, workspace) := WithHome(db, user);
    assert home.staticColumns == db.staticColumns;
    FreshIds(home);
    hide WithHome;
    DefaultsAreThree(home.columns, home.nextId, if Dynamic(db, user) then 1 else 0, home.nextId + 1);
    SameTeams(db, home, NewPersonalBoard(db, user).0, user, workspace);
  }

  lemma SameTeams(db: Db, a: Db, b: Db, user: Schema.Id, workspace: Schema.Id)
    requires HomeTeam(db, a, user, workspace) && a.workspaces == b.workspaces && a.members == b.members
    ensures HomeTeam(db, b, user, workspace)
  {
  }

  lemma FreshIds(db: Db)
    requires WellFormed(db)
    ensures forall c <- db.columns :: c < db.nextId && db.columns[c].board < db.nextId
    ensures OnBoard(db.columns, db.nextId) == {}
  {
    hide ColumnsOk, ProjectsHaveBoards, OnePersonalBoard;
  }

  /** A user's first personal board has the three default columns, below the
      intake column if the user has one: the row of that column has been moved
      down to for a second time, so position 1 is left free. */
  lemma FirstBoard(db: Db, user: Schema.Id)
    requires WellFormed(db) && PersonalBoards(db, user) == {}
    ensures var (after, board) := EnsureBoard(db, user);
            && board !in db.boards && board in after.boards && after.boards == db.boards[board := after.boards[board]]
            && after.boards[board].PersonalBoard? && after.boards[board].owner == user
            && HomeTeam(db, after, user, after.boards[board].workspace)
            && if Dynamic(db, user) then
                 && ThreeColumns(db.columns, after.columns - {board + 4}, board, 2, board + 1)
                 && board + 4 in after.columns && after.columns[board + 4] == Column(board, "Neu", 0, true, NewAssigned)
               else ThreeColumns(db.columns, after.columns, board, 0, board + 1)
  {
    hide WellFormed, NewPersonalBoard, EnsureIntake, HomeTeam, OnBoard, ThreeColumns;
    CreatedBoard(db, user);
    var (created, board) := NewPersonalBoard(db, user);
    var after := EnsureBoard(db, user).0;
    SameTeams(db, created, after, user, created.boards[board].workspace);
    if Dynamic(db, user) {
      NoIntakeYet(db.columns, created.columns, board, 1);
      IntakeMakesRoom(created.columns, board, created.nextId);
      ThreeMoved(db.columns, created.columns, after.columns, board, board + 4);
    } else {
      NoIntakeYet(db.columns, created.columns, board, 0);
      IntakeElseKeeps(created.columns, board, false, created.nextId);
    }
  }

  lemma NoIntakeYet(cols: Cols, created: Cols, board: Schema.Id, from: nat)
    requires ThreeColumns(cols, created, board, from, board + 1) && OnBoard(cols, board) == {}
    ensures WithRole(created, board, NewAssigned) == {} && OnBoard(created, board) != {}
  {
    assert board + 1 in OnBoard(created, board);
    forall c <- created ensures c !in WithRole(created, board, NewAssigned) {
      assert c in cols ==> c !in OnBoard(cols, board);
    }
  }

  lemma ThreeMoved(cols: Cols, created: Cols, after: Cols, board: Schema.Id, id: Schema.Id)
    requires ThreeColumns(cols, created, board, 1, board + 1) && OnBoard(cols, board) == {} && id !in created
    requires after.Keys == created.Keys + {id}
    requires forall c <- created :: after[c] == if created[c].board == board then created[c].(position := created[c].position + 1) else created[c]
    ensures ThreeColumns(cols, after - {id}, board, 2, board + 1)
  {
    forall c <- cols ensures cols[c].board != board {
      assert c !in OnBoard(cols, board);
    }
    assert (after - {id}).Keys == created.Keys;
  }

  /** A new project is in the requested team under a free key, and has a board of
      its own with the three default columns. */
  lemma ProjectCreated(db: Db, workspace: Schema.Id, slug: string)
    requires WellFormed(db) && CreateProject(db, workspace, slug).Ok?
    ensures var after, board, project := CreateProject(db, workspace, slug).value, db.nextId, db.nextId + 4;
            && workspace in db.workspaces && board !in db.boards && project !in db.projects
            && after.boards == db.boards[board := ProjectBoard(workspace, project)]
            && project in after.projects && after.projects == db.projects[project := after.projects[project]]
            && after.projects[project].workspace == workspace && after.projects[project].board == board
            && (forall p <- db.projects :: db.projects[p].workspace == workspace ==> db.projects[p].routeKey != after.projects[project].routeKey)
            && ThreeColumns(db.columns, after.columns, board, 0, board + 1)
            && after.tasks == db.tasks && after.subtasks == db.subtasks && after.rules == db.rules
  {
    hide UniqueKey, WithDefaults, ThreeColumns;
    NewIds(db);
    NewKeyIsFree(db, workspace, slug);
    DefaultsAreThree(db.columns, db.nextId, 0, db.nextId + 1);
    hide WellFormed;
  }

  lemma NewIds(db: Db)
    requires WellFormed(db)
    ensures db.nextId !in db.boards && db.nextId + 4 !in db.projects
    ensures forall c <- db.columns :: c < db.nextId
  {
    hide ColumnsOk, ProjectsHaveBoards, OnePersonalBoard, ColumnsHaveBoards;
  }

  /** A user has an intake column by default. Switching it on or off decides
      whether the board gets one the next time it is looked at; it stays if it is
      already there. */
  lemma SettingDecides(db: Db, user: Schema.Id, wanted: bool, board: Schema.Id, clock: Clock)
    requires WellFormed(db) && board in db.boards && WithRole(db.columns, board, NewAssigned) == {}
    ensures var after := Step(db, SetDynamicOp(user, wanted), clock).value;
            && after == db.(staticColumns := after.staticColumns)
            && (WithRole(WithIntake(after, board, user).0.columns, board, NewAssigned) != {} <==> wanted)
    ensures user !in db.staticColumns ==> WithRole(WithIntake(db, board, user).0.columns, board, NewAssigned) != {}
  {
    hide ColumnsOk, ColumnsHaveBoards, ProjectsHaveBoards, OnePersonalBoard, EnsureIntake;
    IntakeIfDynamic(db.columns, board, true, db.nextId);
    IntakeIfDynamic(db.columns, board, wanted, db.nextId);
  }

  lemma IntakeIfDynamic(cols: Cols, board: Schema.Id, dynamic: bool, newId: Schema.Id)
    requires newId !in cols && WithRole(cols, board, NewAssigned) == {}
    ensures WithRole(EnsureIntake(cols, board, dynamic, newId).0, board, NewAssigned) != {} <==> dynamic
  {
    var after := EnsureIntake(cols, board, dynamic, newId).0;
    if dynamic {
      IntakeMakesRoom(cols, board, newId);
      assert newId in WithRole(after, board, NewAssigned);
    } else {
      IntakeElseKeeps(cols, board, false, newId);
      forall c <- after ensures c !in WithRole(after, board, NewAssigned) {
        assert c in cols ==> c !in WithRole(cols, board, NewAssigned);
      }
    }
  }
}
