/** What becomes of teams, their members and their projects
    (apps/workspaces/services.py and views.py). */
module Teams {
  import opened Boards
  import opened Columns
  import opened Consistency
  import opened Options
  import opened RouteKeys
  import opened Schema
  import opened Structure
  import opened Tasks
  import opened Validity
  import opened Workspace

  /** A person can join any team there is. They are a member then, own a personal
      board, and can only have come into a new team of their own besides; tasks,
      projects and rules stay as they are. */
  lemma MemberAdmitted(db: Db, workspace: Schema.Id, user: Schema.Id)
    requires WellFormed(db)
    ensures JoinTeam(db, workspace, user).Ok? <==> workspace in db.workspaces
    ensures JoinTeam(db, workspace, user).Ok? ==>
              var after := JoinTeam(db, workspace, user).value;
              && (workspace, user) in after.members && db.members <= after.members
              && (forall m <- after.members - db.members :: m == (workspace, user) || (m.1 == user && m.0 !in db.workspaces))
              && (exists b <- after.boards :: after.boards[b] == PersonalBoard(after.boards[b].workspace, user))
              && Extends(db, after)
  {
    hide WellFormed, SettingsOnly, EnsureBoard, Extends;
    if workspace in db.workspaces {
      var with := WithMember(db, workspace, user);
      MemberIsSetting(db, workspace, user);
      SettingsWellFormed(db, with);
      EnsureBoardOk(with, user);
      JoinedExtends(db, workspace, user, EnsureBoard(with, user).0);
      OnlyOwnTeam(with, user);
    }
  }

  lemma JoinedExtends(db: Db, workspace: Schema.Id, user: Schema.Id, after: Db)
    requires Extends(WithMember(db, workspace, user), after)
    ensures Extends(db, after) && (workspace, user) in after.members
  {
  }

  lemma OnlyOwnTeam(db: Db, user: Schema.Id)
    requires WellFormed(db)
    ensures forall m <- EnsureBoard(db, user).0.members - db.members :: m.1 == user && m.0 !in db.workspaces
  {
    hide ColumnsOk, ColumnsHaveBoards, ProjectsHaveBoards, OnePersonalBoard, EnsureIntake, WithDefaults;
  }

  /** Every member but the owner can leave, and nothing else changes. */
  lemma MemberLeaves(db: Db, workspace: Schema.Id, user: Schema.Id)
    ensures LeaveTeam(db, workspace, user).Ok?
            <==> workspace in db.workspaces && (workspace, user) in db.members && db.workspaces[workspace] != user
    ensures LeaveTeam(db, workspace, user).Ok? ==>
              var after := LeaveTeam(db, workspace, user).value;
              && (forall m :: m in after.members <==> m in db.members && m != (workspace, user))
              && after == db.(members := after.members)
  {
  }

  /** A project that changes its team has a key there that no other project has,
      keeps its board, and takes board and tasks along; no other project, board
      or task changes. */
  lemma ProjectMoves(db: Db, project: Schema.Id, workspace: Schema.Id, slug: string)
    requires Consistent(db)
    ensures MoveProject(db, project, workspace, slug).Ok? <==> project in db.projects && workspace in db.workspaces
    ensures MoveProject(db, project, workspace, slug).Ok? && db.projects[project].workspace == workspace ==>
              MoveProject(db, project, workspace, slug).value == db
    ensures MoveProject(db, project, workspace, slug).Ok? && db.projects[project].workspace != workspace ==>
              MovedProject(db, MoveProject(db, project, workspace, slug).value, project, workspace)
  {
    hide Consistent, UniqueKey, TakenKeys, RowsOk, LinksOk, UniqueMirrors, SubtasksAgree, RouteKeysUnique, AgreeExcept;
    if project in db.projects && workspace in db.workspaces {
      Apart(db);
      NewKeyIsFree(db, workspace, slug);
      BoardOfProject(db, project);
    }
    hide WellFormed;
  }

  lemma BoardOfProject(db: Db, project: Schema.Id)
    requires WellFormed(db) && project in db.projects
    ensures var b := db.projects[project].board;
            b in db.boards && db.boards[b] == ProjectBoard(db.projects[project].workspace, project)
  {
    hide ColumnsOk, ColumnsHaveBoards, OnePersonalBoard;
  }

  ghost predicate MovedProject(db: Db, after: Db, project: Schema.Id, workspace: Schema.Id)
    requires project in db.projects
  {
    var board := db.projects[project].board;
    && after.projects.Keys == db.projects.Keys && after.boards.Keys == db.boards.Keys && after.tasks.Keys == db.tasks.Keys
    && (forall p <- db.projects :: p != project ==> after.projects[p] == db.projects[p])
    && after.projects[project].workspace == workspace && after.projects[project].board == board
    && (forall p <- db.projects :: db.projects[p].workspace == workspace ==> db.projects[p].routeKey != after.projects[project].routeKey)
    && (forall b <- db.boards :: after.boards[b] == if b == board then ProjectBoard(workspace, project) else db.boards[b])
    && (forall t <- db.tasks :: after.tasks[t] == if db.tasks[t].project == Some(project) then db.tasks[t].(workspace := workspace) else db.tasks[t])
    && after.columns == db.columns && after.subtasks == db.subtasks && after.rules == db.rules && after.members == db.members
  }

  /** A renamed column has the new title, and nothing else changes in any row. */
  lemma ColumnRenamed(db: Db, column: Schema.Id, title: string, supplied: Option<nat>)
    ensures RenameColumnChecked(db, column, title, supplied).Ok? <==> column in db.columns && supplied == Some(VersionOf(db, column))
    ensures RenameColumnChecked(db, column, title, supplied).Ok? ==>
              var after := RenameColumnChecked(db, column, title, supplied).value;
              && after.columns.Keys == db.columns.Keys && (forall c <- db.columns :: c != column ==> after.columns[c] == db.columns[c])
              && after.columns[column].title == title && after.columns[column].(title := "") == db.columns[column].(title := "")
              && VersionOf(after, column) == VersionOf(db, column) + 1 && after.tasks == db.tasks && after.rules == db.rules
  {
  }
}
