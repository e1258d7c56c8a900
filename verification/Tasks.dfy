/** The task services (apps/workspaces/services.py): what each of them does to
    the database. A service either commits the state given here or fails and
    leaves the database alone. */
module Tasks {
  import opened Boards
  import opened Columns
  import opened Options
  import opened Ordering
  import opened Schema

  // ---------- Positions ----------

  function TaskPositions(tasks: map<Schema.Id, Task>): map<Schema.Id, nat> {
    map t | t in tasks :: tasks[t].position
  }

  /** Tasks a column shows. */
  function ActiveIn(tasks: map<Schema.Id, Task>, column: Option<Schema.Id>): set<Schema.Id> {
    set t | t in tasks && tasks[t].column == column && tasks[t].archivedAt.None?
  }

  ghost function Listing(tasks: map<Schema.Id, Task>, column: Schema.Id): seq<Schema.Id> {
    Sorted(ActiveIn(tasks, Some(column)), TaskPositions(tasks))
  }

  function NextInColumn(tasks: map<Schema.Id, Task>, column: Option<Schema.Id>): nat {
    NextFree(set t | t in ActiveIn(tasks, column) :: tasks[t].position)
  }

  function NextInPool(tasks: map<Schema.Id, Task>, project: Option<Schema.Id>): nat {
    NextFree(set t | t in tasks && tasks[t].project == project && tasks[t].pool && tasks[t].archivedAt.None?
                :: tasks[t].position)
  }

  function WithTask(db: Db, id: Schema.Id, row: Task): Db {
    db.(tasks := db.tasks[id := row])
  }

  predicate OnProjectBoard(db: Db, t: Task) {
    t.board in db.boards && db.boards[t.board].ProjectBoard?
  }

  predicate OnPersonalBoard(db: Db, t: Task) {
    t.board in db.boards && db.boards[t.board].PersonalBoard?
  }

  // ---------- Deleting rows ----------

  /** The rows a delete takes along: tasks whose parent is deleted. */
  function Family(db: Db, doomed: set<Schema.Id>): set<Schema.Id> {
    doomed + set t | t in db.tasks && db.tasks[t].parent.Some? && db.tasks[t].parent.value in doomed
  }

  /** References to deleted rows are set to null. */
  function Unlinked(t: Task, tasks: set<Schema.Id>, subtasks: set<Schema.Id>): Task {
    var u := if t.sourceTask.Some? && t.sourceTask.value in tasks then t.(sourceTask := None) else t;
    if u.sourceSubtask.Some? && u.sourceSubtask.value in subtasks then u.(sourceSubtask := None) else u
  }

  function SubtasksOf(db: Db, tasks: set<Schema.Id>): set<Schema.Id> {
    set s | s in db.subtasks && db.subtasks[s].task in tasks
  }

  /** The database without these rows and without references to them. */
  function Cut(db: Db, gone: set<Schema.Id>, goneSubtasks: set<Schema.Id>): Db {
    db.(tasks := map t | t in db.tasks && t !in gone :: Unlinked(db.tasks[t], gone, goneSubtasks),
        subtasks := map s | s in db.subtasks && s !in goneSubtasks :: db.subtasks[s])
  }

  function DeleteTasks(db: Db, doomed: set<Schema.Id>): Db {
    Cut(db, Family(db, doomed), SubtasksOf(db, Family(db, doomed)))
  }

  // ---------- Assignment mirrors ----------

  predicate IsMirrorOf(db: Db, m: Schema.Id, id: Schema.Id) {
    && m in db.tasks && db.tasks[m].sourceTask == Some(id) && db.tasks[m].sourceSubtask.None?
    && OnPersonalBoard(db, db.tasks[m])
  }

  /** _assignment_mirrors */
  function AssignmentMirrors(db: Db, id: Schema.Id): set<Schema.Id> {
    set m | m in db.tasks && IsMirrorOf(db, m, id)
  }

  const MIRROR_HINT := "Zuweisung aus einem geteilten Projekt."

  function NewMirror(task: Task, source: Schema.Id, board: Schema.Id, workspace: Schema.Id, column: Schema.Id, position: nat): Task {
    Task(workspace, board, Some(column), task.project, None, None, Some(source), None,
         task.owner, task.assignee, task.content, position, task.done, task.completedAt,
         false, false, MIRROR_HINT, None, 1)
  }

  function RefreshedMirror(mirror: Task, task: Task, workspace: Schema.Id): Task {
    mirror.(workspace := workspace, project := task.project, owner := task.owner, assignee := task.assignee,
            content := task.content, done := task.done, completedAt := task.completedAt,
            archivedAt := task.archivedAt, version := mirror.version + 1)
  }

  /** Both calls of _sync_assignment_mirror and claim_pool_task: ensure the
      board, then ensure its intake column. */
  ghost function Intake(db: Db, user: Schema.Id): (Db, Schema.Id, Schema.Id) {
    var (db1, board) := EnsureBoard(db, user);
    var (db2, column) := WithIntake(db1, board, user);
    (db2, board, column)
  }

  function OnBoardIds(db: Db, ids: set<Schema.Id>, board: Schema.Id): set<Schema.Id> {
    set m | m in ids && m in db.tasks && db.tasks[m].board == board
  }

  /** The mirror of a task that is to have one: delete the obsolete ones, then
      create or refresh. */
  ghost function PlaceMirror(db: Db, id: Schema.Id, user: Schema.Id): Db
    requires id in db.tasks
  {
    var task := db.tasks[id];
    var mirrors := AssignmentMirrors(db, id);
    var (db1, board, column) := Intake(db, user);
    var here := OnBoardIds(db, mirrors, board);
    var db2 := DeleteTasks(db1, mirrors - here);
    var workspace := if board in db1.boards then db1.boards[board].workspace else 0;
    if here == {} then
      var mirror := NewMirror(task, id, board, workspace, column, NextInColumn(db2.tasks, Some(column)));
      WithTask(db2, db2.nextId, mirror).(nextId := db2.nextId + 1)
    else
      var m := First(here, map t | t in here :: db.tasks[t].position);
      WithTask(db2, m, RefreshedMirror(db.tasks[m], task, workspace))
  }

  /** _sync_assignment_mirror */
  ghost function SyncMirror(db: Db, id: Schema.Id): Db
    requires id in db.tasks
  {
    var task := db.tasks[id];
    if !OnProjectBoard(db, task) || !Canonical(task) || task.assignee.None?
    then DeleteTasks(db, AssignmentMirrors(db, id))
    else PlaceMirror(db, id, task.assignee.value)
  }

  // ---------- Automation ----------

  predicate IsPrefix(term: string, text: string) {
    |term| <= |text| && text[..|term|] == term
  }

  predicate Contains(text: string, term: string) {
    exists i :: 0 <= i <= |text| && IsPrefix(term, text[i..])
  }

  /** _matches_automation */
  predicate Matches(c: Conditions, t: Task, today: int) {
    && (c.sourceColumn.Some? ==> t.column == c.sourceColumn)
    && (c.searchTerm != "" ==> Contains(t.content.title + " " + t.content.description, c.searchTerm))
    && (match c.dueMode
        case AnyDue => true
        case DueToday => t.content.dueDate == Some(today)
        case DueSoon => t.content.dueDate.Some? && today <= t.content.dueDate.value <= today + 7
        case Overdue => t.content.dueDate.Some? && t.content.dueDate.value < today
        case WithoutDate => t.content.dueDate.None?)
    && (c.mainTaskOnly ==> t.parent.None?)
  }

  /** The target of the first of up to five actions that would move the task. */
  function ActionTarget(db: Db, t: Task, actions: seq<Action>, limit: nat): Option<Schema.Id> {
    if actions == [] || limit == 0 then None
    else if actions[0].MoveTaskTree? && actions[0].target in db.columns
            && db.columns[actions[0].target].board == t.board && t.column != Some(actions[0].target)
    then Some(actions[0].target)
    else ActionTarget(db, t, actions[1..], limit - 1)
  }

  function RuleTarget(db: Db, t: Task, trigger: Trigger, rules: seq<Rule>, today: int): Option<Schema.Id> {
    if rules == [] then None
    else
      var rule := rules[0];
      var target := if rule.board == t.board && rule.trigger == trigger && rule.active
                       && Matches(rule.conditions, t, today)
                    then ActionTarget(db, t, rule.actions, 5) else None;
      if target.Some? then target else RuleTarget(db, t, trigger, rules[1..], today)
  }

  function Automated(t: Task, target: Schema.Id, position: nat): Task {
    t.(column := Some(target), position := position, version := t.version + 1)
  }

  /** execute_automation_rules: at most one move. A pool task may not have a
      column, so moving one fails on the check constraint. */
  function Automate(db: Db, id: Schema.Id, trigger: Trigger, today: int): Result<Db, Error>
    requires id in db.tasks
  {
    var t := db.tasks[id];
    var target := RuleTarget(db, t, trigger, db.rules, today);
    if target.None? then Ok(db)
    else if t.pool then Err(ConstraintViolated)
    else Ok(WithTask(db, id, Automated(t, target.value, NextInColumn(db.tasks, target))))
  }

  // ---------- create_task ----------

  datatype NewTask = NewTask(
    content: Content, assignee: Option<Schema.Id>, pool: bool, column: Option<Schema.Id>,
    requiresReview: bool, reviewHint: string)

  predicate ColumnFits(db: Db, column: Option<Schema.Id>, board: Schema.Id) {
    column.Some? ==> column.value in db.columns && db.columns[column.value].board == board
  }

  /** Where a new task goes: the database after providing for it, the board,
      the assignee and the column. */
  ghost function Destination(db: Db, board: Schema.Id, data: NewTask): (Db, Schema.Id, Option<Schema.Id>, Option<Schema.Id>)
    requires board in db.boards
  {
    match db.boards[board]
    case PersonalBoard(_, owner) =>
      if data.assignee.Some? && data.assignee.value != owner then
        var (db1, other, column) := Intake(db, data.assignee.value);
        (db1, other, data.assignee, Some(column))
      else
        var (db1, column) := WithIntake(db, board, owner);
        (db1, board, Some(owner), Some(column))
    case ProjectBoard(_, _) =>
      if data.pool && data.assignee.None? then (db, board, None, None)
      else if data.column.None? then (db, board, data.assignee, FirstOf(db.columns, OnBoard(db.columns, board)))
      else (db, board, data.assignee, data.column)
  }

  ghost function CreatedRow(db: Db, board: Schema.Id, assignee: Option<Schema.Id>, column: Option<Schema.Id>, actor: Schema.Id, data: NewTask): Task
    requires board in db.boards
  {
    Task(db.boards[board].workspace, board, column, BoardProject(db.boards[board]), None, None, None, None,
         actor, assignee, data.content, NextInColumn(db.tasks, column), false, None,
         data.pool && data.assignee.None?, data.requiresReview, data.reviewHint, None, 1)
  }

  /** create_task behind its serializer; the result names the new task. */
  ghost function CreateTask(db: Db, board: Schema.Id, actor: Schema.Id, data: NewTask, today: int): Result<(Db, Schema.Id), Error> {
    if board !in db.boards then Err(NotFound)
    else if !ColumnFits(db, data.column, board) then Err(InvalidColumn)
    else if !DatesInOrder(data.content) then Err(InvalidDates)
    else
      var (db1, target, assignee, column) := Destination(db, board, data);
      if target !in db1.boards then Err(NotFound)
      else
        var row := CreatedRow(db1, target, assignee, column, actor, data);
        if !RowAllowed(row) then Err(ConstraintViolated)
        else
          var id := db1.nextId;
          var synced := SyncMirror(WithTask(db1, id, row).(nextId := id + 1), id);
          if id !in synced.tasks then Err(NotFound)
          else
            match Automate(synced, id, TaskCreated, today)
            case Ok(done) => Ok((done, id))
            case Err(e) => Err(e)
  }

  // ---------- update_task ----------

  /** The supplied fields of an update; a field that is not supplied is None. */
  datatype ContentPatch = ContentPatch(
    title: Option<string>, description: Option<string>, priority: Option<string>,
    startDate: Option<Option<int>>, dueDate: Option<Option<int>>, dueTime: Option<Option<int>>,
    tags: Option<seq<string>>)

  datatype Patch = Patch(
    content: ContentPatch, assignee: Option<Option<Schema.Id>>, pool: Option<bool>, column: Option<Schema.Id>,
    requiresReview: Option<bool>, reviewHint: Option<string>)

  function Or<T>(supplied: Option<T>, current: T): T {
    if supplied.Some? then supplied.value else current
  }

  function Patched(c: Content, p: ContentPatch): Content {
    Content(Or(p.title, c.title), Or(p.description, c.description), Or(p.priority, c.priority),
            Or(p.startDate, c.startDate), Or(p.dueDate, c.dueDate), Or(p.dueTime, c.dueTime), Or(p.tags, c.tags))
  }

  function RequestedAssignee(t: Task, p: Patch): Option<Schema.Id> {
    Or(p.assignee, t.assignee)
  }

  /** Origin of a task: its project, or the project it was claimed from. */
  function Origin(t: Task): Option<Schema.Id> {
    if t.project.Some? then t.project else t.poolSource
  }

  predicate Releases(t: Task, p: Patch) {
    || p.pool == Some(true)
    || (p.assignee == Some(None) && (t.poolSource.Some? || t.project.Some?))
  }

  predicate HandsOver(db: Db, t: Task, p: Patch) {
    || (t.pool && RequestedAssignee(t, p).Some?)
    || (OnPersonalBoard(db, t) && p.assignee.Some? && p.assignee.value.Some?
        && p.assignee.value.value != db.boards[t.board].owner)
  }

  /** `pool_source_project or project` */
  function ReleaseProject(t: Task): Option<Schema.Id> {
    if t.poolSource.Some? then t.poolSource else t.project
  }

  /** The row after a return to the project's pool. */
  function Released(db: Db, t: Task, p: Schema.Id): Task
    requires p in db.projects
  {
    t.(poolSource := Some(p), project := Some(p), workspace := db.projects[p].workspace, board := db.projects[p].board,
       column := None, assignee := None, pool := true, requiresReview := false, reviewHint := "",
       position := NextInPool(db.tasks, Some(p)))
  }

  /** The row after a hand-over to a personal board. */
  function HandedOver(t: Task, poolSource: Option<Schema.Id>, workspace: Schema.Id, board: Schema.Id, column: Schema.Id, user: Schema.Id, position: nat): Task {
    t.(workspace := workspace, board := board, project := None, poolSource := poolSource, column := Some(column),
       assignee := Some(user), pool := false, requiresReview := false, reviewHint := "", position := position)
  }

  function EditedFields(t: Task, p: Patch): Task {
    t.(content := Patched(t.content, p.content), assignee := RequestedAssignee(t, p),
       pool := if RequestedAssignee(t, p).Some? then false else Or(p.pool, t.pool),
       requiresReview := Or(p.requiresReview, t.requiresReview), reviewHint := Or(p.reviewHint, t.reviewHint))
  }

  /** The row after an ordinary edit. */
  function Edited(db: Db, t: Task, p: Patch): Task {
    var u := EditedFields(t, p);
    if u.pool then u.(assignee := None, column := None, position := NextInPool(db.tasks, u.project))
    else if p.column.Some? && p.column != t.column then
      u.(column := p.column, position := NextInColumn(db.tasks, p.column))
    else u
  }

  /** A task leaves for a user's personal board: the common core of a hand-over
      and of claim_pool_task. The version is raised with it. */
  ghost function SendTo(db: Db, id: Schema.Id, poolSource: Option<Schema.Id>, user: Schema.Id): Db
    requires id in db.tasks
  {
    var (db1, board, column) := Intake(db, user);
    var workspace := if board in db1.boards then db1.boards[board].workspace else 0;
    var row := HandedOver(db.tasks[id], poolSource, workspace, board, column, user, NextInColumn(db1.tasks, Some(column)));
    WithTask(db1, id, row.(version := row.version + 1))
  }

  /** The three branches of update_task up to the save. */
  ghost function Routed(db: Db, id: Schema.Id, p: Patch): Result<Db, Error>
    requires id in db.tasks
  {
    var t := db.tasks[id];
    if Releases(t, p) then
      var source := ReleaseProject(t);
      if source.None? || source.value !in db.projects then Err(NoPool)
      else
        var row := Released(db, t, source.value);
        Ok(WithTask(db, id, row.(version := row.version + 1)))
    else if HandsOver(db, t, p) then
      var poolSource := if t.project.Some? && t.poolSource.None? then t.project else t.poolSource;
      Ok(SendTo(db, id, poolSource, RequestedAssignee(t, p).value))
    else
      var row := Edited(db, t, p);
      Ok(WithTask(db, id, row.(version := row.version + 1)))
  }

  /** Task.full_clean: the model's own checks and its constraints. */
  predicate FullyClean(db: Db, t: Task) {
    && ColumnFits(db, t.column, t.board)
    && (t.project.Some? && Canonical(t) ==> t.board in db.boards && BoardProject(db.boards[t.board]) == t.project)
    && RowAllowed(t)
  }

  /** The triggers update_task fires, in order. */
  function AutomateIf(db: Db, id: Schema.Id, fires: bool, trigger: Trigger, today: int): Result<Db, Error>
    requires id in db.tasks
  {
    if fires then Automate(db, id, trigger, today) else Ok(db)
  }

  predicate EntersColumn(db: Db, t: Task, p: Patch) {
    p.column.Some? && !Releases(t, p) && !HandsOver(db, t, p)
  }

  /** What follows the save: the mirror, then the triggers. */
  ghost function AfterSave(db: Db, id: Schema.Id, assignee: Option<Schema.Id>, enters: bool, today: int): Result<Db, Error>
    requires id in db.tasks
  {
    var synced := SyncMirror(db, id);
    if id !in synced.tasks then Err(NotFound)
    else
      var reassigned := AutomateIf(synced, id, synced.tasks[id].assignee != assignee, TaskAssigned, today);
      if reassigned.Err? || id !in reassigned.value.tasks then reassigned
      else AutomateIf(reassigned.value, id, enters, ColumnEntered, today)
  }

  ghost function UpdateTask(db: Db, id: Schema.Id, p: Patch, supplied: Option<nat>, today: int): Result<Db, Error> {
    if id !in db.tasks then Err(NotFound)
    else
      var t := db.tasks[id];
      if !ColumnFits(db, if p.column.Some? then p.column else t.column, t.board) then Err(InvalidColumn)
      else if !DatesInOrder(Patched(t.content, p.content)) then Err(InvalidDates)
      else if supplied != Some(t.version) then Err(StaleVersion)
      else
        var routed := Routed(db, id, p);
        if routed.Err? then routed
        else if id !in routed.value.tasks || !FullyClean(routed.value, routed.value.tasks[id]) then Err(ConstraintViolated)
        else AfterSave(routed.value, id, t.assignee, EntersColumn(db, t, p), today)
  }

  // ---------- An update that names another id ----------

  /** `id` is a writable field. Only the third branch of update_task assigns it,
      and the save then goes to the row of that id. */
  predicate Redirected(db: Db, id: Schema.Id, asId: Option<Schema.Id>, p: Patch)
    requires id in db.tasks
  {
    asId.Some? && asId.value != id && !Releases(db.tasks[id], p) && !HandsOver(db, db.tasks[id], p)
  }

  /** An id that is not in use stands for the next one. */
  function SavedAt(db: Db, at: Schema.Id): Schema.Id {
    if at in db.tasks then at else db.nextId
  }

  function SavedAs(db: Db, at: Schema.Id, row: Task): (after: Db)
    ensures SavedAt(db, at) in after.tasks && after.tasks[SavedAt(db, at)] == row
  {
    if at in db.tasks then WithTask(db, at, row) else WithTask(db, db.nextId, row).(nextId := db.nextId + 1)
  }

  function EditedRow(db: Db, t: Task, p: Patch): Task {
    var row := Edited(db, t, p);
    row.(version := row.version + 1)
  }

  /** The edited row of task `id` is saved at another id. The version compared
      is that of `id`. A subtask's mirror would get a twin, which the unique
      constraint on the reference refuses. */
  ghost function OverwriteTask(db: Db, id: Schema.Id, at: Schema.Id, p: Patch, supplied: Option<nat>, today: int): Result<Db, Error>
    requires id in db.tasks
  {
    var t := db.tasks[id];
    if !ColumnFits(db, if p.column.Some? then p.column else t.column, t.board) then Err(InvalidColumn)
    else if !DatesInOrder(Patched(t.content, p.content)) then Err(InvalidDates)
    else if supplied != Some(t.version) then Err(StaleVersion)
    else
      var saved := SavedAs(db, at, EditedRow(db, t, p));
      if !FullyClean(saved, EditedRow(db, t, p)) || t.sourceSubtask.Some? then Err(ConstraintViolated)
      else AfterSave(saved, SavedAt(db, at), t.assignee, EntersColumn(db, t, p), today)
  }

  /** update_task behind its serializer. */
  ghost function PatchTask(db: Db, id: Schema.Id, asId: Option<Schema.Id>, p: Patch, supplied: Option<nat>, today: int): Result<Db, Error> {
    if id in db.tasks && Redirected(db, id, asId, p) then OverwriteTask(db, id, asId.value, p, supplied, today)
    else UpdateTask(db, id, p, supplied, today)
  }

  // ---------- claim_pool_task ----------

  /** Subtasks of others lose their assignee when a task is claimed. */
  function ClearedSubtasks(db: Db, id: Schema.Id, user: Schema.Id): Db {
    db.(subtasks := map s | s in db.subtasks ::
          if db.subtasks[s].task == id && db.subtasks[s].assignee != Some(user)
          then db.subtasks[s].(assignee := None) else db.subtasks[s])
  }

  ghost function ClaimTask(db: Db, id: Schema.Id, user: Schema.Id): Result<Db, Error> {
    if id !in db.tasks then Err(NotFound)
    else
      var t := db.tasks[id];
      if !t.pool then Err(NotPooled)
      else if (t.workspace, user) !in db.members then Err(NotAMember)
      else
        var sent := ClearedSubtasks(SendTo(db, id, t.project, user), id, user);
        if id !in sent.tasks then Err(NotFound) else Ok(SyncMirror(sent, id))
  }

  // ---------- set_task_completed and archive_task ----------

  function Completed(t: Task, completed: bool, now: int): Task {
    t.(done := completed, completedAt := if completed then Some(now) else None, version := t.version + 1)
  }

  /** The task and, for a mirror, its source. */
  ghost function CompleteBoth(db: Db, id: Schema.Id, completed: bool, now: int): Result<Db, Error>
    requires id in db.tasks
  {
    var t := db.tasks[id];
    var db1 := WithTask(db, id, Completed(t, completed, now));
    if t.sourceTask.Some? && t.sourceSubtask.None? then
      var s := t.sourceTask.value;
      if s !in db1.tasks then Ok(db1)
      else
        var db2 := SyncMirror(WithTask(db1, s, Completed(db1.tasks[s], completed, now)), s);
        if id in db2.tasks then Ok(db2) else Err(NotFound)
    else Ok(SyncMirror(db1, id))
  }

  function CompleteSubtask(db: Db, subtask: Option<Schema.Id>, completed: bool): Db {
    if subtask.Some? && subtask.value in db.subtasks
    then db.(subtasks := db.subtasks[subtask.value := db.subtasks[subtask.value].(done := completed)])
    else db
  }

  ghost function SetCompleted(db: Db, id: Schema.Id, completed: bool, supplied: nat, now: int, today: int): Result<Db, Error> {
    if id !in db.tasks then Err(NotFound)
    else if db.tasks[id].version != supplied then Err(StaleVersion)
    else
      var both := CompleteBoth(db, id, completed, now);
      if both.Err? then both
      else
        var db1 := CompleteSubtask(both.value, db.tasks[id].sourceSubtask, completed);
        if id !in db1.tasks then Err(NotFound)
        else Automate(db1, id, if completed then TaskCompleted else TaskReopened, today)
  }

  ghost function ArchiveTask(db: Db, id: Schema.Id, archived: bool, supplied: nat, now: int): Result<Db, Error> {
    if id !in db.tasks then Err(NotFound)
    else
      var t := db.tasks[id];
      if t.version != supplied then Err(StaleVersion)
      else
        var row := t.(archivedAt := if archived then Some(now) else None, version := t.version + 1);
        Ok(SyncMirror(WithTask(db, id, row), id))
  }

  // ---------- move_task ----------

  /** Rows along a list get the positions 0, 1, 2, ... */
  function Renumbered(tasks: map<Schema.Id, Task>, ids: seq<Schema.Id>): map<Schema.Id, Task> {
    if ids == [] then tasks
    else
      var n := |ids| - 1;
      var rest := Renumbered(tasks, ids[..n]);
      if ids[n] in rest then rest[ids[n] := rest[ids[n]].(position := n)] else rest
  }

  function InsertionIndex(target: int, count: nat): nat {
    if target < 0 then 0 else if target > count then count else target
  }

  /** The target column's list without the task, then with it at the index. */
  ghost function Siblings(db: Db, id: Schema.Id, column: Schema.Id): seq<Schema.Id> {
    Sorted(ActiveIn(db.tasks, Some(column)) - {id}, TaskPositions(db.tasks))
  }

  /** The moved task's row but for its position. */
  function Entered(tasks: map<Schema.Id, Task>, id: Schema.Id, column: Schema.Id): map<Schema.Id, Task>
    requires id in tasks
  {
    tasks[id := tasks[id].(column := Some(column), version := tasks[id].version + 1)]
  }

  ghost function MovedInto(db: Db, id: Schema.Id, column: Schema.Id, target: int): map<Schema.Id, Task>
    requires id in db.tasks
  {
    var siblings := Siblings(db, id, column);
    Renumbered(Entered(db.tasks, id, column), InsertAt(siblings, InsertionIndex(target, |siblings|), id))
  }

  /** Both columns after the move: the source closes its gap. */
  ghost function Moved(db: Db, id: Schema.Id, column: Schema.Id, target: int): Db
    requires id in db.tasks
  {
    var tasks := MovedInto(db, id, column, target);
    var source := db.tasks[id].column;
    if source.Some? && source.value != column
    then db.(tasks := Renumbered(tasks, Sorted(ActiveIn(tasks, source) - {id}, TaskPositions(tasks))))
    else db.(tasks := tasks)
  }

  ghost function MoveTask(db: Db, id: Schema.Id, column: Schema.Id, target: int, supplied: nat, today: int): Result<Db, Error> {
    if id !in db.tasks || column !in db.columns then Err(NotFound)
    else
      var t := db.tasks[id];
      if t.version != supplied then Err(StaleVersion)
      else if db.columns[column].board != t.board then Err(InvalidColumn)
      else if t.pool then Err(ConstraintViolated)
      else
        var moved := Moved(db, id, column, target);
        if id !in moved.tasks then Err(NotFound) else Automate(moved, id, ColumnEntered, today)
  }

  // ---------- TaskViewSet.destroy ----------

  predicate IsAssignmentMirror(t: Task) {
    t.sourceTask.Some? && t.sourceSubtask.None?
  }

  /** Every assignment mirror of a task, wherever it is. */
  function MirrorRows(db: Db, id: Schema.Id): set<Schema.Id> {
    set m | m in db.tasks && IsAssignmentMirror(db.tasks[m]) && db.tasks[m].sourceTask == Some(id)
  }

  ghost function DestroyTask(db: Db, id: Schema.Id, supplied: nat): Result<Db, Error> {
    if id !in db.tasks then Err(NotFound)
    else if db.tasks[id].version != supplied then Err(StaleVersion)
    else
      Ok(DeleteTasks(DeleteTasks(db, MirrorRows(db, id)), {id}))
  }

  // ---------- Subtasks ----------

  function SubtaskMirrors(db: Db, subtask: Schema.Id): set<Schema.Id> {
    set m | m in db.tasks && db.tasks[m].sourceSubtask == Some(subtask)
  }

  /** The mirror that the synchronisation finds, if there is one. */
  ghost function FirstMirror(db: Db, subtask: Schema.Id): set<Schema.Id> {
    var mirrors := SubtaskMirrors(db, subtask);
    if mirrors == {} then {} else {First(mirrors, map t | t in mirrors :: db.tasks[t].position)}
  }

  function MirrorDescription(title: string): string {
    "Unteraufgabe aus „" + title + "“"
  }

  /** What a subtask mirror copies. */
  function SubtaskMirrorRow(base: Task, s: Subtask, subtask: Schema.Id, task: Task, now: int): Task {
    base.(project := task.project, parent := Some(s.task), sourceTask := Some(s.task), sourceSubtask := Some(subtask),
          owner := task.owner, assignee := s.assignee,
          content := base.content.(title := s.title, description := MirrorDescription(task.content.title),
                                   priority := task.content.priority, dueDate := task.content.dueDate),
          done := s.done, completedAt := if s.done then Some(now) else None)
  }

  function EmptyContent(): Content {
    Content("", "", "", None, None, None, [])
  }

  function BlankMirror(workspace: Schema.Id, board: Schema.Id, column: Schema.Id, position: nat, owner: Schema.Id): Task {
    Task(workspace, board, Some(column), None, None, None, None, None, owner, None, EmptyContent(), position,
         false, None, false, false, "", None, 1)
  }

  /** The mirror's row on its board: moved there first when the assignee changed. */
  function Rehomed(mirror: Task, workspace: Schema.Id, board: Schema.Id, column: Schema.Id, position: nat): Task {
    var m := mirror.(workspace := workspace, board := board);
    if mirror.board == board then m else m.(column := Some(column), position := position)
  }

  ghost function PlaceSubtaskMirror(db: Db, subtask: Schema.Id, user: Schema.Id, now: int): Db
    requires subtask in db.subtasks && db.subtasks[subtask].task in db.tasks
  {
    var s := db.subtasks[subtask];
    var task := db.tasks[s.task];
    var mirrors := SubtaskMirrors(db, subtask);
    var (db1, board, column) := Intake(db, user);
    var workspace := if board in db1.boards then db1.boards[board].workspace else 0;
    var position := NextInColumn(db1.tasks, Some(column));
    if mirrors == {} then
      var blank := BlankMirror(workspace, board, column, position, task.owner);
      WithTask(db1, db1.nextId, SubtaskMirrorRow(blank, s, subtask, task, now)).(nextId := db1.nextId + 1)
    else
      var m := First(mirrors, map t | t in mirrors :: db.tasks[t].position);
      var row := SubtaskMirrorRow(Rehomed(db.tasks[m], workspace, board, column, position), s, subtask, task, now);
      WithTask(db1, m, row.(version := row.version + 1))
  }

  /** _sync_subtask_mirror */
  ghost function SyncSubtask(db: Db, subtask: Schema.Id, now: int): Db
    requires subtask in db.subtasks && db.subtasks[subtask].task in db.tasks
  {
    var s := db.subtasks[subtask];
    if !OnProjectBoard(db, db.tasks[s.task]) || s.assignee.None? then DeleteTasks(db, FirstMirror(db, subtask))
    else PlaceSubtaskMirror(db, subtask, s.assignee.value, now)
  }

  ghost function CreateSubtask(db: Db, task: Schema.Id, title: string, assignee: Option<Schema.Id>, now: int): Result<Db, Error> {
    if task !in db.tasks then Err(NotFound)
    else
      var id := db.nextId;
      Ok(SyncSubtask(db.(subtasks := db.subtasks[id := Subtask(task, title, assignee, false, 1)], nextId := id + 1), id, now))
  }

  ghost function UpdateSubtask(db: Db, id: Schema.Id, supplied: nat, title: Option<string>,
                               assignee: Option<Option<Schema.Id>>, done: Option<bool>, now: int): Result<Db, Error>
  {
    if id !in db.subtasks || db.subtasks[id].task !in db.tasks then Err(NotFound)
    else if db.subtasks[id].version != supplied then Err(StaleVersion)
    else
      var s := db.subtasks[id];
      var row := Subtask(s.task, Or(title, s.title), Or(assignee, s.assignee), Or(done, s.done), s.version + 1);
      Ok(SyncSubtask(db.(subtasks := db.subtasks[id := row]), id, now))
  }

  /** Deleting a subtask clears the reference of its mirror, nothing else. */
  function DeleteSubtask(db: Db, id: Schema.Id, supplied: nat): Result<Db, Error> {
    if id !in db.subtasks then Err(NotFound)
    else if db.subtasks[id].version != supplied then Err(StaleVersion)
    else Ok(db.(subtasks := db.subtasks - {id},
                tasks := map t | t in db.tasks :: Unlinked(db.tasks[t], {}, {id})))
  }
}
