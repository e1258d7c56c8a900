/** The rows of the workspace tables (apps/workspaces/models.py). Ids are drawn
    from one counter, so the order of ids is the order of creation. */
module Schema {
  import opened Options

  type Id = nat

  datatype Role = NoRole | NewAssigned | PoolReview

  datatype Column = Column(board: Id, title: string, position: nat, fixedPosition: bool, role: Role)

  /** The check constraint on boards leaves exactly these two kinds. */
  datatype Board =
    | PersonalBoard(workspace: Id, owner: Id)
    | ProjectBoard(workspace: Id, project: Id)

  datatype Project = Project(workspace: Id, routeKey: string, board: Id)

  /** The descriptive fields of a task. */
  datatype Content = Content(
    title: string, description: string, priority: string,
    startDate: Option<int>, dueDate: Option<int>, dueTime: Option<int>, tags: seq<string>)

  datatype Task = Task(
    workspace: Id, board: Id, column: Option<Id>, project: Option<Id>, poolSource: Option<Id>,
    parent: Option<Id>, sourceTask: Option<Id>, sourceSubtask: Option<Id>,
    owner: Id, assignee: Option<Id>, content: Content, position: nat,
    done: bool, completedAt: Option<int>, pool: bool, requiresReview: bool, reviewHint: string,
    archivedAt: Option<int>, version: nat)

  datatype Subtask = Subtask(task: Id, title: string, assignee: Option<Id>, done: bool, version: nat)

  datatype Trigger = TaskCompleted | TaskReopened | TaskCreated | TaskAssigned | ColumnEntered

  datatype DueMode = AnyDue | DueToday | DueSoon | Overdue | WithoutDate

  datatype Conditions = Conditions(sourceColumn: Option<Id>, searchTerm: string, dueMode: DueMode, mainTaskOnly: bool)

  datatype Action = MoveTaskTree(target: Id) | OtherAction

  datatype Rule = Rule(board: Id, trigger: Trigger, active: bool, conditions: Conditions, actions: seq<Action>)

  /** The database: one map per table, the settings of users who switched the
      dynamic intake column off, the automation rules in their sort order, and
      the versions of boards, columns and projects that are no longer 1. */
  datatype Db = Db(
    tasks: map<Id, Task>, subtasks: map<Id, Subtask>, boards: map<Id, Board>, columns: map<Id, Column>,
    projects: map<Id, Project>, workspaces: map<Id, Id>, members: set<(Id, Id)>,
    staticColumns: set<Id>, rules: seq<Rule>, versions: map<Id, nat>, nextId: Id)

  datatype Error =
    | NotFound | StaleVersion | InvalidColumn | InvalidDates | ConstraintViolated
    | NoPool | NotPooled | NotAMember | OwnerStays | SystemColumn | ColumnNotEmpty | IncompleteOrder | IntakeMustStayFirst

  /** A task that mirrors neither a task nor a subtask. */
  predicate Canonical(t: Task) {
    t.sourceTask.None? && t.sourceSubtask.None?
  }

  /** The version of a board, a column or a project. */
  function VersionOf(db: Db, id: Id): nat {
    if id in db.versions then db.versions[id] else 1
  }

  function Bumped(db: Db, id: Id): Db {
    db.(versions := db.versions[id := VersionOf(db, id) + 1])
  }

  function BoardProject(b: Board): Option<Id> {
    if b.ProjectBoard? then Some(b.project) else None
  }

  predicate DatesInOrder(c: Content) {
    c.startDate.Some? && c.dueDate.Some? ==> c.startDate.value <= c.dueDate.value
  }

  /** The check constraints on the task table. */
  predicate RowAllowed(t: Task) {
    && DatesInOrder(t.content)
    && (t.pool ==> t.assignee.None?)
    && (t.pool ==> t.column.None?)
  }
}
