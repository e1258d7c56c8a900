/** The workspace as a state machine: every service as a step of one database
    (apps/workspaces/services.py and views.py). */
module Workspace {
  import opened Boards
  import opened Columns
  import opened Options
  import opened Ordering
  import opened RouteKeys
  import opened Schema
  import opened Tasks

  // ---------- Projects ----------

  function TakenKeys(db: Db, workspace: Schema.Id): set<string> {
    set p | p in db.projects && db.projects[p].workspace == workspace :: db.projects[p].routeKey
  }

  // The board of the project that comes next, with its three columns.
  function WithProjectsBoard(db: Db, workspace: Schema.Id): Db {
    WithBoard(db, ProjectBoard(workspace, db.nextId + 4), WithDefaults(db.columns, db.nextId, 0, db.nextId + 1), 4)
  }

  /** A project and its board. */
  function WithProject(db: Db, workspace: Schema.Id, key: string): Db {
    var with := WithProjectsBoard(db, workspace);
    with.(projects := with.projects[db.nextId + 4 := Project(workspace, key, db.nextId)])
  }

  /** create_project */
  function CreateProject(db: Db, workspace: Schema.Id, slug: string): Result<Db, Error> {
    if workspace !in db.workspaces then Err(NotFound)
    else Ok(WithProject(db, workspace, UniqueKey(TakenKeys(db, workspace), slug)))
  }

  /** The bulk update of update_project: all tasks of the project follow it. */
  function TasksMoved(tasks: map<Schema.Id, Task>, project: Schema.Id, workspace: Schema.Id): map<Schema.Id, Task> {
    map t | t in tasks :: if tasks[t].project == Some(project) then tasks[t].(workspace := workspace) else tasks[t]
  }

  /** The project, its board and its tasks in another team. */
  function Transferred(db: Db, project: Schema.Id, workspace: Schema.Id, key: string): Db
    requires project in db.projects
  {
    var p := db.projects[project];
    db.(projects := db.projects[project := p.(workspace := workspace, routeKey := key)],
        boards := db.boards[p.board := ProjectBoard(workspace, project)],
        tasks := TasksMoved(db.tasks, project, workspace))
  }

  /** update_project with a change of team. */
  function MoveProject(db: Db, project: Schema.Id, workspace: Schema.Id, slug: string): Result<Db, Error> {
    if project !in db.projects || workspace !in db.workspaces then Err(NotFound)
    else if db.projects[project].workspace == workspace then Ok(db)
    else Ok(Transferred(db, project, workspace, UniqueKey(TakenKeys(db, workspace), slug)))
  }

  // ---------- Columns ----------

  /** `id` is writable here too. The team's tasks and the saved row are then those
      of the other project, the board is still the first one's. Without a new
      team the row would take a route key that is in use. */
  function MoveProjectAs(db: Db, project: Schema.Id, other: Schema.Id, workspace: Schema.Id, slug: string): Result<Db, Error>
    requires project in db.projects && other in db.projects
  {
    var board := db.projects[project].board;
    if workspace !in db.workspaces || board !in db.boards then Err(NotFound)
    else if db.projects[project].workspace == workspace then Err(ConstraintViolated)
    else
      Ok(db.(projects := db.projects[other := Project(workspace, UniqueKey(TakenKeys(db, workspace), slug), db.projects[other].board)],
             boards := db.boards[board := db.boards[board].(workspace := workspace)],
             tasks := TasksMoved(db.tasks, other, workspace)))
  }

  function CreateColumn(db: Db, board: Schema.Id, title: string): Result<Db, Error> {
    if board !in db.boards then Err(NotFound)
    else Ok(db.(columns := Added(db.columns, board, db.nextId, title), nextId := db.nextId + 1))
  }

  ghost function ReorderColumns(db: Db, board: Schema.Id, ids: seq<Schema.Id>): Result<Db, Error> {
    if board !in db.boards then Err(NotFound)
    else
      match Reordered(db.columns, board, ids)
      case Ok(columns) => Ok(db.(columns := columns))
      case Err(e) => Err(e)
  }

  /** The foreign key of tasks in a deleted column is set to null. */
  function ColumnCleared(tasks: map<Schema.Id, Task>, column: Schema.Id): map<Schema.Id, Task> {
    map t | t in tasks :: if tasks[t].column == Some(column) then tasks[t].(column := None) else tasks[t]
  }

  predicate Deletable(c: Column) {
    !c.fixedPosition && c.role == NoRole
  }

  /** BoardColumnViewSet.destroy */
  ghost function DeleteColumn(db: Db, column: Schema.Id): Result<Db, Error> {
    if column !in db.columns then Err(NotFound)
    else if !Deletable(db.columns[column]) then Err(SystemColumn)
    else if ActiveIn(db.tasks, Some(column)) != {} then Err(ColumnNotEmpty)
    else Ok(db.(columns := Removed(db.columns, column), tasks := ColumnCleared(db.tasks, column)))
  }

  /** Rows along a list move to the end of a column. */
  function Appended(tasks: map<Schema.Id, Task>, ids: seq<Schema.Id>, column: Schema.Id, base: nat): map<Schema.Id, Task> {
    if ids == [] then tasks
    else
      var n := |ids| - 1;
      var rest := Appended(tasks, ids[..n], column, base);
      if ids[n] in rest
      then rest[ids[n] := rest[ids[n]].(column := Some(column), position := base + n, version := rest[ids[n]].version + 1)]
      else rest
  }

  /** delete_with_move */
  ghost function DeleteColumnWithMove(db: Db, column: Schema.Id, target: Schema.Id): Result<Db, Error> {
    if column !in db.columns || target !in db.columns then Err(NotFound)
    else if !Deletable(db.columns[column]) then Err(SystemColumn)
    else if db.columns[target].board != db.columns[column].board || target == column then Err(InvalidColumn)
    else
      var moved := Appended(db.tasks, Listing(db.tasks, column), target, NextInColumn(db.tasks, Some(target)));
      Ok(db.(columns := Removed(db.columns, column), tasks := ColumnCleared(moved, column)))
  }

  // ---------- Changes of boards, columns and projects on the basis of a version ----------

  /** create_column */
  function CreateColumnChecked(db: Db, board: Schema.Id, title: string, supplied: Option<nat>): Result<Db, Error> {
    match CreateColumn(db, board, title)
    case Err(e) => Err(e)
    case Ok(after) => if supplied != Some(VersionOf(db, board)) then Err(StaleVersion) else Ok(Bumped(after, board))
  }

  /** reorder_columns: the list is non-empty and without repetition before the
      version is looked at, complete and intake first only afterwards. */
  ghost function ReorderColumnsChecked(db: Db, board: Schema.Id, ids: seq<Schema.Id>, supplied: nat): Result<Db, Error> {
    if board !in db.boards then Err(NotFound)
    else if ids == [] || !NoDuplicates(ids) then Err(IncompleteOrder)
    else if supplied != VersionOf(db, board) then Err(StaleVersion)
    else
      match ReorderColumns(db, board, ids)
      case Err(e) => Err(e)
      case Ok(after) => Ok(Bumped(after, board))
  }

  /** BoardColumnViewSet.destroy */
  ghost function DeleteColumnChecked(db: Db, column: Schema.Id, supplied: nat): Result<Db, Error> {
    match DeleteColumn(db, column)
    case Err(e) => Err(e)
    case Ok(after) =>
      if supplied != VersionOf(db, column) then Err(StaleVersion) else Ok(Bumped(after, db.columns[column].board))
  }

  /** delete_with_move */
  ghost function DeleteColumnWithMoveChecked(db: Db, column: Schema.Id, target: Schema.Id, supplied: nat): Result<Db, Error> {
    match DeleteColumnWithMove(db, column, target)
    case Err(e) => Err(e)
    case Ok(after) =>
      if supplied != VersionOf(db, column) then Err(StaleVersion) else Ok(Bumped(after, db.columns[column].board))
  }

  /** update_project: the project's version rises, and its board's if it moves. */
  function MoveProjectChecked(db: Db, project: Schema.Id, workspace: Schema.Id, slug: string, supplied: Option<nat>): Result<Db, Error> {
    match MoveProject(db, project, workspace, slug)
    case Err(e) => Err(e)
    case Ok(after) =>
      if supplied != Some(VersionOf(db, project)) then Err(StaleVersion)
      else if db.projects[project].workspace == workspace then Ok(Bumped(after, project))
      else Ok(Bumped(Bumped(after, db.projects[project].board), project))
  }

  function RenameColumn(db: Db, column: Schema.Id, title: string): Result<Db, Error> {
    if column !in db.columns then Err(NotFound) else Ok(db.(columns := Renamed(db.columns, column, title)))
  }

  /** BoardColumnViewSet.partial_update: the column's version rises. */
  function RenameColumnChecked(db: Db, column: Schema.Id, title: string, supplied: Option<nat>): Result<Db, Error> {
    match RenameColumn(db, column, title)
    case Err(e) => Err(e)
    case Ok(after) => if supplied != Some(VersionOf(db, column)) then Err(StaleVersion) else Ok(Bumped(after, column))
  }

  // ---------- Teams ----------

  /** WorkspaceViewSet.create */
  function CreateTeam(db: Db, owner: Schema.Id): Db {
    db.(workspaces := db.workspaces[db.nextId := owner], members := db.members + {(db.nextId, owner)}, nextId := db.nextId + 1)
  }

  function WithMember(db: Db, workspace: Schema.Id, user: Schema.Id): Db {
    db.(members := db.members + {(workspace, user)})
  }

  /** An accepted invitation or join request: the membership, then the board. */
  ghost function JoinTeam(db: Db, workspace: Schema.Id, user: Schema.Id): Result<Db, Error> {
    if workspace !in db.workspaces then Err(NotFound) else Ok(EnsureBoard(WithMember(db, workspace, user), user).0)
  }

  /** A member is removed; the tasks stay as they are. */
  function LeaveTeam(db: Db, workspace: Schema.Id, user: Schema.Id): Result<Db, Error> {
    if workspace !in db.workspaces || (workspace, user) !in db.members then Err(NotFound)
    else if db.workspaces[workspace] == user then Err(OwnerStays)
    else Ok(db.(members := db.members - {(workspace, user)}))
  }

  // ---------- Steps and runs ----------

  /** A saved, changed or deleted rule is the list of rules there are then. */
  datatype Op =
    | CreateTaskOp(board: Schema.Id, actor: Schema.Id, data: NewTask)
    | UpdateTaskOp(task: Schema.Id, asId: Option<Schema.Id>, patch: Patch, supplied: Option<nat>)
    | ClaimTaskOp(task: Schema.Id, user: Schema.Id)
    | MoveTaskOp(task: Schema.Id, column: Schema.Id, position: int, version: nat)
    | CompleteTaskOp(task: Schema.Id, completed: bool, version: nat)
    | ArchiveTaskOp(task: Schema.Id, archived: bool, version: nat)
    | DestroyTaskOp(task: Schema.Id, version: nat)
    | CreateSubtaskOp(task: Schema.Id, title: string, forUser: Option<Schema.Id>)
    | UpdateSubtaskOp(subtask: Schema.Id, version: nat, newTitle: Option<string>,
                      newAssignee: Option<Option<Schema.Id>>, newDone: Option<bool>)
    | DeleteSubtaskOp(subtask: Schema.Id, version: nat)
    | CreateProjectOp(workspace: Schema.Id, slug: string)
    | MoveProjectOp(project: Schema.Id, workspace: Schema.Id, slug: string, base: Option<nat>)
    | CreateColumnOp(board: Schema.Id, columnTitle: string, base: Option<nat>)
    | ReorderColumnsOp(board: Schema.Id, ids: seq<Schema.Id>, version: nat)
    | DeleteColumnOp(column: Schema.Id, version: nat)
    | DeleteColumnWithMoveOp(column: Schema.Id, target: Schema.Id, version: nat)
    | EnsureBoardOp(user: Schema.Id)
    | SetDynamicOp(user: Schema.Id, dynamic: bool)
    | RenameColumnOp(column: Schema.Id, columnTitle: string, base: Option<nat>)
    | CreateTeamOp(user: Schema.Id)
    | JoinTeamOp(workspace: Schema.Id, user: Schema.Id)
    | LeaveTeamOp(workspace: Schema.Id, user: Schema.Id)
    | SaveRulesOp(saved: seq<Rule>)

  /** The time and the local date as the step reads them. */
  datatype Clock = Clock(now: int, today: int)

  ghost function Step(db: Db, op: Op, clock: Clock): Result<Db, Error> {
    match op
    case CreateTaskOp(board, actor, data) =>
      (match CreateTask(db, board, actor, data, clock.today)
       case Ok(pair) => Ok(pair.0)
       case Err(e) => Err(e))
    case UpdateTaskOp(task, asId, patch, supplied) => PatchTask(db, task, asId, patch, supplied, clock.today)
    case ClaimTaskOp(task, user) => ClaimTask(db, task, user)
    case MoveTaskOp(task, column, position, version) => MoveTask(db, task, column, position, version, clock.today)
    case CompleteTaskOp(task, completed, version) => SetCompleted(db, task, completed, version, clock.now, clock.today)
    case ArchiveTaskOp(task, archived, version) => ArchiveTask(db, task, archived, version, clock.now)
    case DestroyTaskOp(task, version) => DestroyTask(db, task, version)
    case CreateSubtaskOp(task, title, user) => CreateSubtask(db, task, title, user, clock.now)
    case UpdateSubtaskOp(subtask, version, title, assignee, done) =>
      UpdateSubtask(db, subtask, version, title, assignee, done, clock.now)
    case DeleteSubtaskOp(subtask, version) => DeleteSubtask(db, subtask, version)
    case CreateProjectOp(workspace, slug) => CreateProject(db, workspace, slug)
    case MoveProjectOp(project, workspace, slug, base) => MoveProjectChecked(db, project, workspace, slug, base)
    case CreateColumnOp(board, title, base) => CreateColumnChecked(db, board, title, base)
    case ReorderColumnsOp(board, ids, version) => ReorderColumnsChecked(db, board, ids, version)
    case DeleteColumnOp(column, version) => DeleteColumnChecked(db, column, version)
    case DeleteColumnWithMoveOp(column, target, version) => DeleteColumnWithMoveChecked(db, column, target, version)
    case EnsureBoardOp(user) => Ok(EnsureBoard(db, user).0)
    case SetDynamicOp(user, dynamic) =>
      Ok(db.(staticColumns := if dynamic then db.staticColumns - {user} else db.staticColumns + {user}))
    case RenameColumnOp(column, title, base) => RenameColumnChecked(db, column, title, base)
    case CreateTeamOp(user) => Ok(CreateTeam(db, user))
    case JoinTeamOp(workspace, user) => JoinTeam(db, workspace, user)
    case LeaveTeamOp(workspace, user) => LeaveTeam(db, workspace, user)
    case SaveRulesOp(saved) => Ok(db.(rules := saved))
  }

  /** Each service runs in one transaction: a failure leaves the database alone. */
  ghost function Apply(db: Db, op: Op, clock: Clock): Db {
    var r := Step(db, op, clock);
    if r.Ok? then r.value else db
  }

  ghost function Run(db: Db, ops: seq<(Op, Clock)>): Db {
    if ops == [] then db
    else Apply(Run(db, ops[..|ops| - 1]), ops[|ops| - 1].0, ops[|ops| - 1].1)
  }

  /** An edit of a mirror that its source does not have to follow. */
  predicate HarmlessForMirror(db: Db, t: Task, p: Patch) {
    && !Releases(t, p)
    && if t.sourceSubtask.Some? then
         HandsOver(db, t, p)
         || (Patched(t.content, p.content).title == t.content.title && Patched(t.content, p.content).startDate.None?)
       else !HandsOver(db, t, p) && Patched(t.content, p.content) == t.content
  }

  /** Where the promises about mirrors and placement apply: edits of canonical
      tasks, edits of mirrors that leave alone what they mirror, and deletions of
      subtasks that have no mirror. Everything else is unrestricted. */
  ghost predicate InScope(db: Db, op: Op) {
    match op
    case UpdateTaskOp(task, asId, p, _) =>
      task in db.tasks && !Canonical(db.tasks[task]) ==>
        HarmlessForMirror(db, db.tasks[task], p) && (db.tasks[task].sourceSubtask.None? ==> !Redirected(db, task, asId, p))
    case DeleteSubtaskOp(subtask, _) => SubtaskMirrors(db, subtask) == {}
    case _ => true
  }

  ghost predicate RunInScope(db: Db, ops: seq<(Op, Clock)>) {
    ops == [] || (RunInScope(db, ops[..|ops| - 1]) && InScope(Run(db, ops[..|ops| - 1]), ops[|ops| - 1].0))
  }
}
