/** One small workspace in which the exceptions happen: a project with a board,
    a member with a personal board, and the tasks between them
    (apps/workspaces/services.py and views.py). */
module Witnesses {
  import opened Boards
  import opened Columns
  import opened Consistency
  import opened Destinations
  import opened History
  import opened Lifecycle
  import opened MirrorEdits
  import opened Mirroring
  import opened Options
  import opened Overwrites
  import opened Placement
  import opened Promises
  import opened Schema
  import opened Subtasks
  import opened Tasks
  import opened Workspace

  const TEAM: Schema.Id := 0
  const MANAGER: Schema.Id := 1
  const MEMBER: Schema.Id := 2
  const PROJECT_BOARD: Schema.Id := 10
  const PERSONAL_BOARD: Schema.Id := 11
  const PROJECT: Schema.Id := 20
  const OPEN: Schema.Id := 30
  const INTAKE: Schema.Id := 31
  const ASSIGNED: Schema.Id := 40
  const MIRROR: Schema.Id := 41
  const POOLED: Schema.Id := 42
  const SUBTASK_MIRROR: Schema.Id := 43
  const PRIVATE: Schema.Id := 44
  const SUBTASK: Schema.Id := 50

  function Text(title: string): Content {
    Content(title, "", "", None, None, None, [])
  }

  function AssignedTask(): Task {
    Task(TEAM, PROJECT_BOARD, Some(OPEN), Some(PROJECT), None, None, None, None, MANAGER, Some(MEMBER), Text("Plan"), 0,
         false, None, false, false, "", None, 1)
  }

  function MirrorTask(): Task {
    NewMirror(AssignedTask(), ASSIGNED, PERSONAL_BOARD, TEAM, INTAKE, 0)
  }

  function PooledTask(): Task {
    Task(TEAM, PROJECT_BOARD, None, Some(PROJECT), None, None, None, None, MANAGER, None, Text("Wait"), 0,
         false, None, true, false, "", None, 1)
  }

  function SubtaskMirrorTask(): Task {
    SubtaskMirrorRow(BlankMirror(TEAM, PERSONAL_BOARD, INTAKE, 1, MANAGER), Part(), SUBTASK, PooledTask(), 0)
  }

  function PrivateTask(): Task {
    Task(TEAM, PERSONAL_BOARD, Some(INTAKE), None, None, None, None, None, MEMBER, Some(MEMBER), Text("Own"), 2,
         false, None, false, false, "", None, 1)
  }

  function Part(): Subtask {
    Subtask(POOLED, "Part", Some(MEMBER), false, 1)
  }

  function MoveRule(trigger: Trigger): Rule {
    Rule(PROJECT_BOARD, trigger, true, Conditions(None, "", AnyDue, false), [MoveTaskTree(OPEN)])
  }

  function Small(): Db {
    Db(map[ASSIGNED := AssignedTask(), MIRROR := MirrorTask(), POOLED := PooledTask(), SUBTASK_MIRROR := SubtaskMirrorTask(),
           PRIVATE := PrivateTask()],
       map[SUBTASK := Part()],
       map[PROJECT_BOARD := ProjectBoard(TEAM, PROJECT), PERSONAL_BOARD := PersonalBoard(TEAM, MEMBER)],
       map[OPEN := Column(PROJECT_BOARD, "Offen", 0, false, NoRole), INTAKE := Column(PERSONAL_BOARD, "Neu", 0, true, NewAssigned)],
       map[PROJECT := Project(TEAM, "projekt", PROJECT_BOARD)], map[TEAM := MANAGER],
       {(TEAM, MANAGER), (TEAM, MEMBER)}, {},
       [MoveRule(ColumnEntered), MoveRule(TaskCreated), MoveRule(TaskAssigned)], map[], 60)
  }

  lemma SmallIds()
    ensures IdsDrawn(Small()) && ColumnsHaveBoards(Small())
  {
    hide AssignedTask, MirrorTask, PooledTask, SubtaskMirrorTask, PrivateTask, Part, MoveRule;
  }

  lemma SmallBoards()
    ensures ProjectsHaveBoards(Small()) && OnePersonalBoard(Small())
  {
    hide AssignedTask, MirrorTask, PooledTask, SubtaskMirrorTask, PrivateTask, Part, MoveRule;
  }

  lemma SmallColumns()
    ensures ColumnsOk(Small().columns) && RouteKeysUnique(Small())
  {
    hide AssignedTask, MirrorTask, PooledTask, SubtaskMirrorTask, PrivateTask, Part, MoveRule;
  }

  lemma SmallRows()
    ensures RowsOk(Small())
  {
    hide MoveRule;
  }

  lemma SmallLinks()
    ensures LinksOk(Small())
  {
    hide MoveRule;
  }

  lemma SmallMirrors()
    ensures UniqueMirrors(Small())
  {
    hide MoveRule, Part;
    assert forall m <- Small().tasks :: IsAssignmentMirror(Small().tasks[m]) ==> m == MIRROR;
    assert forall m <- Small().tasks :: Small().tasks[m].sourceSubtask.Some? ==> m == SUBTASK_MIRROR;
    hide Small;
  }

  lemma SmallSubtasks()
    ensures SubtasksAgree(Small())
  {
    hide MoveRule;
  }

  lemma SmallAgreement()
    ensures AgreeExcept(Small(), None)
  {
    hide MoveRule;
  }

  lemma SmallIsConsistent()
    ensures Consistent(Small())
  {
    hide IdsDrawn, ColumnsHaveBoards, ProjectsHaveBoards, OnePersonalBoard, ColumnsOk, RowsOk, LinksOk, UniqueMirrors, SubtasksAgree, RouteKeysUnique, AgreeExcept, Small;
    SmallIds();
    SmallBoards();
    SmallColumns();
    SmallRows();
    SmallLinks();
    SmallMirrors();
    SmallSubtasks();
    SmallAgreement();
    Whole(Small());
  }

  // ---------- Updates ----------

  function Retitle(title: string): Patch {
    Patch(ContentPatch(Some(title), None, None, None, None, None, None), None, None, None, None, None)
  }

  lemma MirrorRetitled(today: int)
    ensures UpdateTask(Small(), MIRROR, Retitle("New"), Some(1), today).Ok?
    ensures !HarmlessForMirror(Small(), MirrorTask(), Retitle("New"))
  {
    SmallIsConsistent();
    RetitledIs();
    var saved := WithTask(Small(), MIRROR, RetitledMirror());
    RetitledClean();
    hide Consistent, Routed, AfterSave, FullyClean, SubtaskMirrorTask, Part, MoveRule, PooledTask, PrivateTask;
    RetitledSettles(today);
  }

  function RetitledMirror(): Task {
    MirrorTask().(content := Text("New"), version := 2)
  }

  lemma RetitledIs()
    ensures Routed(Small(), MIRROR, Retitle("New")) == Ok(WithTask(Small(), MIRROR, RetitledMirror()))
  {
    hide SubtaskMirrorTask, Part, MoveRule, PooledTask, PrivateTask;
  }

  lemma RetitledClean()
    ensures FullyClean(WithTask(Small(), MIRROR, RetitledMirror()), RetitledMirror())
  {
    hide SubtaskMirrorTask, Part, MoveRule, PooledTask, PrivateTask;
  }

  lemma RetitledSettles(today: int)
    ensures AfterSave(WithTask(Small(), MIRROR, RetitledMirror()), MIRROR, Some(MEMBER), false, today).Ok?
  {
    SmallIsConsistent();
    SmallTasks();
    hide Consistent, SyncMirror, Small;
    MirrorSyncIdle(Small(), WithTask(Small(), MIRROR, RetitledMirror()), MIRROR);
  }

  lemma NoCanonical()
    ensures !Canonical(MirrorTask())
  {
  }

  lemma PatchWithoutId(db: Db, id: Schema.Id, p: Patch, supplied: Option<nat>, today: int)
    ensures PatchTask(db, id, None, p, supplied, today) == UpdateTask(db, id, p, supplied, today)
  {
    hide UpdateTask, OverwriteTask;
  }

  /** A new title for a mirror is accepted and breaks the agreement. */
  lemma MirrorEditBreaks(today: int)
    ensures var r := PatchTask(Small(), MIRROR, None, Retitle("New"), Some(1), today);
            Consistent(Small()) && r.Ok? && !Consistent(r.value)
  {
    SmallIsConsistent();
    MirrorRetitled(today);
    SmallTasks();
    NoCanonical();
    PatchWithoutId(Small(), MIRROR, Retitle("New"), Some(1), today);
    hide Consistent, UpdateTask, HarmlessForMirror, PatchTask, Canonical, Small, MirrorTask, Retitle;
    MirrorUpdateKeepsIff(Small(), MIRROR, Retitle("New"), Some(1), today);
  }

  lemma SmallTasks()
    ensures ASSIGNED in Small().tasks && Small().tasks[ASSIGNED] == AssignedTask()
    ensures MIRROR in Small().tasks && Small().tasks[MIRROR] == MirrorTask()
    ensures POOLED in Small().tasks && Small().tasks[POOLED] == PooledTask()
    ensures PRIVATE in Small().tasks && Small().tasks[PRIVATE] == PrivateTask()
    ensures PROJECT_BOARD in Small().boards
  {
    hide MirrorTask, SubtaskMirrorTask, Part, MoveRule;
  }

  lemma ReplacementAdmitted(today: int)
    ensures ASSIGNED in Small().tasks
    ensures Redirected(Small(), ASSIGNED, Some(PRIVATE), Retitle("New"))
    ensures UpdateAdmitted(Small(), ASSIGNED, Retitle("New"), Some(1))
    ensures !PoolEditMeetsRule(Small(), AssignedTask(), Retitle("New"), today)
  {
    hide MirrorTask, SubtaskMirrorTask, PrivateTask, Part, MoveRule, PooledTask, RuleTarget;
  }

  /** Through its id the private task of one user becomes a task of the project,
      on the basis of the other task's version, and its own origin is lost. */
  lemma OtherTaskReplaced(today: int)
    ensures var small := Small();
            var r := PatchTask(small, ASSIGNED, Some(PRIVATE), Retitle("New"), Some(1), today);
            && Consistent(small) && r.Ok? && PRIVATE in r.value.tasks && Consistent(r.value)
            && Origin(small.tasks[PRIVATE]).None? && Origin(r.value.tasks[PRIVATE]) == Some(PROJECT)
            && !Follows(small, r.value)
  {
    var small, p := Small(), Retitle("New");
    SmallIsConsistent();
    SmallTasks();
    ReplacementAdmitted(today);
    hide Consistent, OverwriteTask, EditedRow, Redirected, UpdateAdmitted, PoolEditMeetsRule, Follows, MirrorExact, Small;
    OverwriteOutcome(small, ASSIGNED, PRIVATE, p, Some(1), today);
    OverwriteKeeps(small, ASSIGNED, PRIVATE, p, Some(1), today);
    OverwriteFollows(small, ASSIGNED, PRIVATE, p, Some(1), today);
    EditedOrigin(small, ASSIGNED, p);
  }

  /** Naming a column for the waiting task fails on the column rule, returning
      the assigned one on the assignment rule, and creating a pool task on the
      creation rule. */
  lemma RulesRefuse(today: int)
    ensures var enter := Retitle("New").(column := Some(OPEN));
            UpdateTask(Small(), POOLED, enter, Some(1), today).Err?
    ensures UpdateTask(Small(), ASSIGNED, Retitle("New").(assignee := Some(None)), Some(1), today).Err?
    ensures CreateTask(Small(), PROJECT_BOARD, MANAGER, NewTask(Text("New"), None, true, None, false, ""), today).Err?
  {
    WaitingMeetsRule(today);
    AssignedMeetsRule(today);
    CreationMeetsRule(today);
    SmallIsConsistent();
    SmallTasks();
    assert Releases(AssignedTask(), Retitle("New").(assignee := Some(None)));
    hide Consistent, UpdateTask, CreateTask, Releases, AssignedTask, PooledTask, UpdateAdmitted, PoolEditMeetsRule, ReturnMeetsRule, CreationRuleHitsPool, Small;
    UpdateOutcome(Small(), POOLED, Retitle("New").(column := Some(OPEN)), Some(1), today);
    UpdateOutcome(Small(), ASSIGNED, Retitle("New").(assignee := Some(None)), Some(1), today);
    CreateOutcome(Small(), PROJECT_BOARD, MANAGER, NewTask(Text("New"), None, true, None, false, ""), today);
  }

  /** A task of the project's board without a column meets each of the rules. */
  lemma RulesFire(t: Task, i: nat, today: int)
    requires t.board == PROJECT_BOARD && t.column.None? && i < 3
    ensures RuleTarget(Small(), t, Small().rules[i].trigger, Small().rules, today).Some?
  {
    var small := Small();
    assert Moves(small, t, MoveTaskTree(OPEN));
    assert ActionTarget(small, t, [MoveTaskTree(OPEN)], 5) == Some(OPEN);
    FiresIs(small, t, small.rules[i].trigger, today, small.rules[i]);
    RuleTargetIsFirst(small, t, small.rules[i].trigger, small.rules, today);
    hide Fires, RuleTarget, Small;
  }

  lemma WaitingMeetsRule(today: int)
    ensures PoolEditMeetsRule(Small(), PooledTask(), Retitle("New").(column := Some(OPEN)), today)
  {
    hide AssignedTask, MirrorTask, SubtaskMirrorTask, PrivateTask, Part, RuleTarget;
    RulesFire(PooledTask().(content := Text("New")), 0, today);
  }

  lemma AssignedMeetsRule(today: int)
    ensures ReturnMeetsRule(Small(), AssignedTask(), today)
  {
    hide MirrorTask, SubtaskMirrorTask, PrivateTask, Part, PooledTask, RuleTarget;
    RulesFire(AssignedTask().(column := None), 2, today);
  }

  lemma CreationMeetsRule(today: int)
    ensures CreationRuleHitsPool(Small(), PROJECT_BOARD, MANAGER, NewTask(Text("New"), None, true, None, false, ""), today)
  {
    var data := NewTask(Text("New"), None, true, None, false, "");
    hide AssignedTask, MirrorTask, SubtaskMirrorTask, PrivateTask, Part, PooledTask, NextInColumn, RuleTarget;
    RulesFire(CreatedRow(Small(), PROJECT_BOARD, None, None, MANAGER, data), 1, today);
  }

  // ---------- Subtasks ----------

  lemma SmallHasSubtaskMirror()
    ensures SUBTASK in Small().subtasks && Small().subtasks[SUBTASK] == Part() && SUBTASK_MIRROR in SubtaskMirrors(Small(), SUBTASK)
    ensures POOLED in Small().tasks && Small().tasks[POOLED] == PooledTask()
  {
  }

  /** Deleting the subtask leaves its mirror behind. */
  lemma SubtaskDeletionBreaks()
    ensures var r := DeleteSubtask(Small(), SUBTASK, 1); Consistent(Small()) && r.Ok? && !Consistent(r.value)
  {
    SmallIsConsistent();
    SmallHasSubtaskMirror();
    assert DeleteSubtask(Small(), SUBTASK, 1).Ok?;
    hide Consistent, DeleteSubtask, Small;
    DeleteSubtaskNeedsNoMirror(Small(), SUBTASK, 1);
  }

  /** Claiming the waiting task leaves the mirror of its subtask behind. */
  lemma ClaimLeavesSubtaskMirror()
    ensures var r := ClaimTask(Small(), POOLED, MANAGER);
            Consistent(Small()) && r.Ok? && SUBTASK_MIRROR in r.value.tasks && !SubtaskMirrorExact(r.value, SUBTASK)
  {
    SmallIsConsistent();
    SmallHasSubtaskMirror();
    assert (TEAM, MANAGER) in Small().members;
    hide Consistent, ClaimTask, Small, SubtaskMirrorExact, SendTo, MirrorExact;
    ClaimKeeps(Small(), POOLED, MANAGER);
    ClaimForgetsSubtaskMirrors(Small(), POOLED, MANAGER, SUBTASK);
  }
}
