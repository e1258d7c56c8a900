# A verified model of the Carly Managed back end

Carly Managed is a team task manager (Django) with a companion, Carly, whom
users feed and who rewards work. This project models the parts of the back end
that carry real state or arithmetic and proves what they promise.

**Workspace.** The tables are maps from ids to rows (`Schema`). What each
service does to them is written down twice. `Tasks` and `Workspace` describe
every service as a function from a database to a new database or an error, and
`WorkspaceService` is the code as it runs: a class with one field per table
whose methods change rows one after the other, roll back on errors, and are
proved to leave exactly the described state. `Workspace.Run` is any sequence of
twenty-three services, changes of rules, teams and column titles among them.
`WorkspaceRuns.RunKeepsConsistent` is the main result: every run keeps
`Consistency.Consistent`, that is placement, mirror agreement, column order,
references and route keys together. `Promises`, `Destinations`, `Versions` and
`TaskOrder` spell out what this means for one task, column or change, `Effects`
what each service leaves in a row field by field and which rules it sets off,
`Automation` what the rules do, `Admission` which requests are accepted,
`NewBoards` and `Teams` what becomes of boards, columns, projects and members,
`MirrorEdits` and `Overwrites` what becomes of an edited mirror and of an update
that names another id, and `Witnesses` is one small workspace in which the
exceptions happen.

**Board migration.** `BoardMigration` runs the merge of personal boards row by
row, `Consolidation` says what the merged state promises, `Losses` what goes
missing over the whole migration when columns and tasks are on different boards,
`Json` what happens to the ids in stored rules.

**Recurrence.** `Calendar`, `Recurrence` and `Scheduler` cover the date of the next
run and the scheduler loop.

**Carly's economy.** `Carly`, `Rewards`, `Care` and `Economy` describe decay, awards,
care actions and whole runs of them. `Amounts` and `CareEffects` say in numbers what
an award pays and what care, food and time do. `CarlyService` is the class that
does it.

**Rate limit.** `RateLimit` is the token bucket of the realtime API.

How the code is read:

- Every service is one step that commits whole or leaves the state alone, and
  reads the clock once. Times are integers (microseconds), local dates and
  "today" come with the step. Two awards or care actions of a run may read any
  time. The streak results ask for dates that do not go backwards.
- Ids come from one counter, so `created_at` order is id order. A row that is
  saved over another one under its id also takes over `created_at` in the code;
  here it keeps the order of the id, which decides ties between equal positions.
- Saving, changing or deleting a rule is any new list of rules (`SaveRulesOp`).
- Tokens and refill rates are reals. The bucket's clock is positive and does not
  go backwards.
- A canonical task is one that mirrors neither a task nor a subtask.
  `Workspace.InScope` is all that the consistency of a run asks for: an edit of a
  mirror must leave alone what the mirror shows, and a deleted subtask must have
  no mirror. Canonical tasks take any request, mirrors may be moved, completed,
  archived and deleted. The two conditions are exact: a step outside them, if it
  is accepted, ends in an inconsistent workspace
  (`MirrorEdits.MirrorPatchKeepsIff`, `Promises.DeleteSubtaskNeedsNoMirror`).
- A request has passed the membership, permission and length checks that the
  serializers and views make before the service runs. A service may still find
  its rows gone or changed.
- The id a request gives a new task or subtask is not in use; otherwise the
  primary key refuses the insert. The id in an update of a task is modelled as it
  is written (`Tasks.Redirected`). An update of a project names no other
  project's id in a run; `Structure.OtherProjectBreaks` shows why.
- The rows a bulk update writes are written in an order the database chooses.
- `slugify(name)` is a parameter of `create_project` and `update_project`.

What the proofs show at the edges, where the code is kept as it is:

- `update_task` takes an assignee, an edit of the text and a column in one
  request. When the request returns or hands over the task, text, dates, tags and
  column of the request are dropped without an error
  (`Promises.RoutingIgnoresContent`); only its collaborators are still set.
- `update_task` also takes an `id`. An ordinary edit then saves its row under that
  id: the task itself stays as it was, and the named row is replaced without a look
  at its version (`Overwrites.OverwriteKeeps`, `Overwrites.OverwriteOutcome`).
  Origins and versions hold over a run exactly as far as no request does this to
  a task of another origin or a later version (`Overwrites.OverwriteFollows`,
  `Witnesses.OtherTaskReplaced`).
- An edit of a mirror is accepted, and its source does not follow
  (`Witnesses.MirrorEditBreaks`).
- A first personal board with an intake column has its default columns at 2, 3
  and 4: they are created below a place for it and then moved down once more
  (`NewBoards.FirstBoard`).
- A key longer than 220 characters is stored cut off, so repeating it does not end
  as a duplicate but as a failed insert. Nothing changes either way
  (`Economy.RepeatedKeyChangesNothing`).
- A weekly rule without weekdays has no occurrence. `calculate_next_run` then
  answers with a date a week ahead (`Recurrence.NextRunIsLeast` holds if and only
  if the rule has a day).
- Claiming a task leaves the mirrors of its subtasks behind
  (`Destinations.ClaimForgetsSubtaskMirrors`). A subtask's mirror is only right
  after a change of the subtask (`Subtasks.SyncSubtaskRestores`). Deleting a
  subtask leaves its mirror behind as well (`Witnesses.SubtaskDeletionBreaks`).
- A rule that would give a pool task a column makes the whole request fail on a
  check constraint (`Placement.UpdateOutcome`, `Lifecycle.CreateOutcome`,
  `Witnesses.RulesRefuse`).
- The board migration loses a task whose column is on another board than the task
  itself, and every task below it wherever it is: the cascade takes them along
  with the duplicate (`Consolidation.Lost`, `BoardMigration.DividedLoses`). If the
  column's board was merged before, the column is gone, the task counts as one
  without a column and is kept; so the order of the merges decides what is lost
  (`Losses.DoomedIff`, `BoardMigration.OrderDecides`).

## Model

| member | source | states |
|---|---|---|
| WorkspaceRuns.RunKeepsConsistent | apps/workspaces/services.py:189-1220 | every run of the twenty-three services in scope from a consistent database ends in one: canonical tasks placed, at most one mirror per task and subtask and each in agreement, references intact, column positions distinct with the intake first, check constraints met, route keys unique per team; columns keep boards and intake columns stay |
| WorkspaceRuns.RunFollows | apps/workspaces/services.py:780-890 | over a run in which no request replaces another task's row by one of another origin or a lower version, no canonical task changes its origin and no version falls |
| WorkspaceRuns.StepFollows | apps/workspaces/services.py:780-890 | a step keeps origins and versions if and only if it does not do that, which can be told from request and tables before it |
| Validity.RunWellFormed | apps/workspaces/models.py:185-235 | over every run of the modelled steps, in scope or not, primary keys, the unique constraints of boards and columns and the place of the intake column hold |
| Promises.FreshIsConsistent | apps/workspaces/models.py:185-235 | a database with teams and rules only is consistent, so the run results start somewhere |
| Promises.RunPlacesTasks | apps/workspaces/services.py:423-429 | after any run a canonical task's column is on its board, its project and team are the board's, a pool task has a project but no column and no assignee, and on a personal board only the owner can be the assignee |
| Promises.RunKeepsMirrors | apps/workspaces/services.py:621-717 | after any run a mirror is the only one of its source, sits on the personal board of the source's assignee and shows its text, dates, tags, owner, project and completion |
| Promises.RunKeepsIntakeFirst | apps/workspaces/services.py:189-223 | over any run an intake column stays on its board at position 0 and is never removed, all others come after it |
| Promises.RunKeepsOrigin | apps/workspaces/services.py:801-868 | over any such run the origin project of a canonical task never changes and its version never falls |
| Promises.ClaimToReturn | apps/workspaces/services.py:944-959 | claimed, handed on, completed or moved with its project in any order, a pool task that is returned is back in its project's pool, in the team the project has by then, without column and assignee, as long as no request replaced its row through another task's update |
| Promises.UpdatedContent | apps/workspaces/services.py:817-868 | after an accepted update the text, dates and tags are the requested ones on the ordinary branch and the old ones after a return or a hand-over |
| Promises.RoutingIgnoresContent | apps/workspaces/services.py:817-864 | an accepted update applies its text, dates and tags if and only if it neither returns nor hands over the task, or changes nothing |
| Promises.DeleteSubtaskNeedsNoMirror | apps/workspaces/views.py:909-925 | deleting a subtask keeps the database consistent if and only if it has no mirror; an orphan counts as a mirror of the task from then on |
| MirrorEdits.MirrorPatchKeepsIff | apps/workspaces/services.py:780-881 | an accepted update of a mirror keeps the database consistent if and only if it names no other id and, for a task's mirror, neither returns nor hands it over nor changes its text, dates and tags, for a subtask's, does not return it and, unless it hands it over, leaves title and start date |
| MirrorEdits.ArchiveMirrorKeeps | apps/workspaces/services.py:1124-1131 | archiving or restoring a mirror changes its own row only and keeps the database consistent |
| Promises.ArchiveTakesMirrorAlong | apps/workspaces/services.py:1124-1131 | after archiving or restoring, a mirror that existed before has the task's archive date, a new one has none |
| Placement.UpdateOutcome | apps/workspaces/services.py:780-885 | once membership and length checks are passed and no other id is named, an update of a canonical task commits if and only if column, dates and version are right, it does not return a task without origin, a return meets no assignment rule of the project's board, and an edit of a task that stays pooled meets no column rule; no check constraint fails on the update itself |
| Placement.UpdateKeeps | apps/workspaces/services.py:780-890 | after an update the database is consistent, the task has a mirror exactly if it is assigned on a project board, and rules have at most moved it within its board |
| Overwrites.OverwriteKeeps | apps/workspaces/services.py:865-881 | an accepted update that names another id leaves its own task and every other canonical task as they were and writes the edited row, with a mirror of its own, under that id; the database stays consistent |
| Overwrites.OverwriteOutcome | apps/workspaces/serializers.py:445-476 | it is accepted by the fields and the version of the task it is addressed to, never by the version of the row it replaces |
| Overwrites.OverwriteFollows | apps/workspaces/services.py:865-868 | it keeps origins and versions if and only if the named id is unused, a mirror's, or that of a task of the same origin whose version is at most the one to be written |
| Overwrites.OverwriteVersion | apps/workspaces/services.py:865-890 | the version to be written is told from request and tables beforehand: the addressed task's, one more, and one more each if an assignment rule will move the row and if a column rule will move it from there |
| Placement.ClaimKeeps | apps/workspaces/services.py:928-981 | a claim succeeds exactly for a pool task and a member of its team, and keeps the database consistent |
| Placement.AutomateKeeps | apps/workspaces/services.py:1345-1381 | rules change at most the place of one task within its board |
| Lifecycle.CreateOutcome | apps/workspaces/services.py:721-758 | once membership and length checks are passed, a task is created if and only if its column and dates are valid, it is not a pool task for a personal board, and no rule would give a new pool task a column |
| Lifecycle.CreateKeeps | apps/workspaces/services.py:721-758 | the created task is new and canonical, the database consistent, and the task has a mirror exactly if it is assigned on a project board |
| Lifecycle.CompleteKeeps | apps/workspaces/services.py:1067-1103 | completing or reopening a task, its mirror or a subtask's mirror leaves both sides in the new state with the new completion time, and the mirror rule holds afterwards |
| Lifecycle.ArchiveKeeps | apps/workspaces/services.py:1124-1131 | archiving changes archive date and version only, and the mirror rule holds afterwards |
| Lifecycle.DestroyKeeps | apps/workspaces/views.py:768-788 | deleting a task removes it with its mirrors, its subtasks and theirs, and leaves every other row as it was |
| Lifecycle.UpdateSubtaskKeeps | apps/workspaces/services.py:1273-1316 | whatever changes in a subtask, its mirror is right afterwards |
| Mirroring.SyncRestores | apps/workspaces/services.py:621-717 | whatever state the mirrors of a task are in, synchronising repairs them, touches no other task, and leaves a mirror exactly if the task is assigned on a project board |
| Subtasks.SyncSubtaskRestores | apps/workspaces/services.py:1155-1220 | after synchronising, a subtask has a mirror exactly if it is assigned and its task is on a project board, with its title and state on the assignee's board, and no other task has changed |
| Effects.SubtaskMirrorIs | apps/workspaces/services.py:1155-1220 | that mirror names the task in its description and shows its priority, due date, owner and project; a new or reassigned one is last in the assignee's column for incoming tasks, any other stays where it was |
| Effects.SubtaskChanged | apps/workspaces/services.py:1273-1300 | a change of a subtask applies the supplied fields and raises its version, and no other subtask changes |
| Effects.SubtaskCreated | apps/workspaces/services.py:1242-1260 | a new subtask is open and as requested |
| Destinations.ClaimDelivers | apps/workspaces/services.py:944-976 | a claimed task is last in the claimer's column for incoming tasks, out of pool and project with its origin kept and its review settled, every other field unchanged, and its subtasks are the claimer's or nobody's |
| Destinations.ClaimForgetsSubtaskMirrors | apps/workspaces/services.py:976-981 | a claim does not touch the mirrors of subtasks, so a subtask is right afterwards if and only if it had no mirror |
| Destinations.SyncPutsMirror | apps/workspaces/services.py:637-687 | a new mirror is last in the assignee's column for incoming tasks, unarchived and with a hint, one that stays keeps place and hint and takes over the archive date |
| Effects.SyncSpares | apps/workspaces/services.py:612-618 | in whatever state the rows are, only a row on a personal board counts as a mirror; synchronising leaves all rows alone that are neither mirrors of the task nor below one |
| Destinations.HandOverDelivers | apps/workspaces/services.py:838-864 | the same for a hand-over by update |
| Destinations.ReturnQueuesLast | apps/workspaces/services.py:817-837 | a returned task is back in the project it was claimed from, or else in its own, after all waiting tasks of the pool |
| Destinations.CreationPlace | apps/workspaces/services.py:735-751 | a new task goes to the requested user's board and intake, or to the pool, the requested column or the first column of the project board |
| Destinations.EditStays | apps/workspaces/services.py:865-881 | an ordinary edit applies exactly the supplied fields; a task that stays in its pool queues behind the others, any other is in the requested column if one is requested, last if it was elsewhere, and else keeps column and position |
| Destinations.NextIsOneBehind | apps/workspaces/services.py:61-64 | the end of a column is one behind its last active task, or zero |
| Destinations.NextWaitsBehind | apps/workspaces/services.py:832-837 | the end of a pool is one behind its last waiting task, or zero |
| Effects.UpdateRoutes | apps/workspaces/services.py:800-881 | told from task and request: a pool request or a removed assignee returns the task to the project it comes from, an assignee for a pool task or another one on a personal board takes it there, and anything else leaves it on its board |
| Effects.UpdateRules | apps/workspaces/services.py:894-897 | assignment rules run exactly if the assignee has changed, column rules exactly if an ordinary edit names a column, in this order, and the row is the saved one but for their moves |
| Effects.AdmittedMeans | apps/workspaces/services.py:780-800 | an update is admitted for a column of the task's board, dates in order and the current version |
| Effects.CreationMeans | apps/workspaces/services.py:721-763 | a creation is refused for another board's column, dates in the wrong order, a pool task on a personal board or a rule that would move it, and for nothing else |
| Effects.CreateDoes | apps/workspaces/services.py:735-763 | a new task shows what was asked for and nothing else, and only creation rules move it |
| Effects.CompletionRules | apps/workspaces/services.py:1067-1103 | completing sets off the rules for completed tasks, reopening those for reopened ones, and nothing else moves the task |
| Effects.MoveRules | apps/workspaces/services.py:1038-1044 | moving a task sets off the column rules on it |
| Effects.ClaimClears | apps/workspaces/services.py:978-979 | the claimer keeps own subtasks, others lose their assignee, nothing else changes in any subtask |
| Admission.MoveAccepted | apps/workspaces/services.py:1009-1037 | a move is accepted exactly for a task outside the pool, to a column of its board, on the basis of its version |
| Admission.CompleteAccepted | apps/workspaces/services.py:1067-1103 | any current request to complete or reopen a task is accepted, unless the task is pooled and a rule would move it |
| Admission.ArchiveAccepted | apps/workspaces/services.py:1124-1131 | archiving and deleting a task ask for the row and its version only |
| Admission.SubtaskAccepted | apps/workspaces/services.py:1242-1316 | adding a subtask asks for its task, changing and deleting one for the row and its version |
| Destinations.IntakeTakesIncoming | apps/workspaces/services.py:189-223 | the column for incoming tasks is the intake at the top of the board or, switched off, the first ordinary column, and the intake only if there is no other |
| Destinations.RuleTargetIsFirst | apps/workspaces/services.py:1319-1381 | the move made is that of the first rule in sort order that fires, and none is made exactly if no rule fires: another source column, a term neither title nor description has, a due date the mode does not allow or a parent for main tasks only keep a rule from a task |
| Automation.RulesDo | apps/workspaces/services.py:1345-1381 | the task goes to the end of the column the first usable action of the first firing rule names, unchanged otherwise; a pool task makes the run fail |
| Automation.ExcludedStays | apps/workspaces/services.py:1319-1343 | a task all rules exclude is not moved |
| Automation.OnlyRuleMoves | apps/workspaces/services.py:1319-1381 | a single rule that excludes nothing moves the task to its first usable target |
| Destinations.ActionTargetIsFirst | apps/workspaces/services.py:1353-1360 | within a rule, the first of its first five actions that would move the task counts |
| Versions.NoLostUpdate | apps/workspaces/services.py:161-176 | of two changes of a task based on the same version the later one is refused, whatever ran in between, if the first one changes the task itself and nothing replaces its row through another task's update |
| Versions.PatchRaisesIff | apps/workspaces/services.py:865-878 | an accepted update raises the version of its task if and only if it does not save under another id |
| Versions.NoLostChange | apps/workspaces/services.py:161-176 | of two changes of a board's columns, of a column (a title, its deletion) or of a project based on the same version the later one is refused, whatever ran in between |
| TaskOrder.MoveReorders | apps/workspaces/services.py:1014-1037 | from any positions, the target column ends numbered 0, 1, 2 with the task at the clamped index and the others in their order, and the source column ends dense in its order |
| TaskOrder.ListingMeans | apps/workspaces/services.py:1014-1037 | a column shows exactly its active tasks, by position and then by age |
| TaskOrder.MoveLeavesOthers | apps/workspaces/services.py:1014-1037 | every other column shows what it showed |
| TaskOrder.DeleteWithMoveAppends | apps/workspaces/views.py:592-615 | the deleted column's tasks follow the target's in their order, no task is lost and none names the column any more; each moved one gets a new version, archived ones lose the column, and no other task changes |
| Witnesses.MirrorEditBreaks | apps/workspaces/services.py:865-881 | in a small consistent workspace a new title for a mirror is accepted and breaks the agreement |
| Witnesses.OtherTaskReplaced | apps/workspaces/services.py:865-868 | there a private task becomes a task of the project through its id in another task's update, on the other task's version, and loses its origin |
| Witnesses.RulesRefuse | apps/workspaces/services.py:1361-1364 | there a rule makes an edit, a return and a creation of a pool task fail |
| Witnesses.SubtaskDeletionBreaks | apps/workspaces/views.py:909-925 | there deleting a subtask with a mirror leaves an inconsistent workspace |
| Witnesses.ClaimLeavesSubtaskMirror | apps/workspaces/services.py:976-981 | there a claim leaves the mirror of a subtask behind |
| Columns.ShiftNeverCollides | apps/workspaces/services.py:196-202 | saving the columns from the last to the first never puts two at one position |
| Columns.FirstPhaseNeverCollides | apps/workspaces/views.py:141-146 | writing the temporary positions in any row order never collides |
| Columns.SecondPhaseNeverCollides | apps/workspaces/views.py:148-152 | nor does writing the final ones |
| Columns.ReindexedIsRequestedOrder | apps/workspaces/views.py:131-152 | the board then shows exactly the requested order at positions 0, 1, 2, and no other board changes |
| Columns.ReorderedOk | apps/workspaces/views.py:500-530 | a permitted reordering keeps positions distinct and the intake first |
| Columns.RemovedOk | apps/workspaces/views.py:626-645 | so does deleting a column without a system role |
| Columns.EnsureIntakeIdempotent | apps/workspaces/services.py:189-223 | ensuring the intake column twice is ensuring it once |
| NewBoards.IntakeMakesRoom | apps/workspaces/services.py:189-209 | making the intake column puts it on top, moves the board's columns down by one and changes nothing else |
| NewBoards.SettingDecides | apps/workspaces/services.py:179-187 | a board gets an intake column exactly if its owner's setting is on, as it is by default |
| NewBoards.ColumnAppended | apps/workspaces/views.py:471-498 | a new column is an ordinary one, one behind the last |
| NewBoards.FirstBoard | apps/workspaces/services.py:226-261 | a first personal board is in the oldest team the user owns or a new one, and has the default columns, from position 2 on below an intake column and from 0 without |
| NewBoards.ProjectCreated | apps/workspaces/services.py:303-347 | a new project has a free key and a board of its own with the three default columns, and nothing else changes |
| Teams.ProjectMoves | apps/workspaces/services.py:358-442 | a project that changes its team has a key there that no other has, and takes its board and all its tasks along; no other project, board or task changes |
| Teams.MemberAdmitted | apps/workspaces/services.py:1553-1576 | whoever joins a team is a member and has a personal board afterwards; the only other membership this can make is in a new team of one's own, and no task or project changes |
| Teams.MemberLeaves | apps/workspaces/views.py:266-280 | exactly members who are not the owner can be removed, and only that membership goes |
| Teams.ColumnRenamed | apps/workspaces/views.py:548-571 | a new title comes through exactly if it is based on the current version, and nothing else about any column or task changes |
| Admission.ColumnAccepted | apps/workspaces/views.py:471-498 | a column is added to any board on the basis of the board's version |
| Admission.OrderAccepted | apps/workspaces/views.py:499-534 | a new order is accepted exactly if it names every column of the board once, an intake column first, on the basis of the board's version |
| Admission.DeleteAccepted | apps/workspaces/views.py:626-650 | exactly ordinary columns that show no task can be deleted |
| Admission.DeleteWithMoveAccepted | apps/workspaces/views.py:574-595 | with another column of the board as target, exactly ordinary ones |
| Admission.ColumnDeleted | apps/workspaces/views.py:626-650 | the other columns close the gap in the order they had, tasks lose the column, and nothing else changes |
| Boards.EnsureBoardOk | apps/workspaces/services.py:226-261 | the user ends with exactly one personal board, and nothing that existed is changed but column positions |
| RouteKeys.CandidatesDistinct | apps/workspaces/services.py:291-299 | no two suffixed candidates are equal, so the search ends |
| RouteKeys.FindRouteKey | apps/workspaces/services.py:291-299 | the key found is free, and every candidate before it is taken |
| Structure.CreateProjectKeeps | apps/workspaces/services.py:303-355 | creating a project keeps the database consistent, route keys unique per team included |
| Structure.MoveProjectKeeps | apps/workspaces/services.py:420-429 | so does moving a project with board and tasks to another team |
| Structure.OtherProjectBreaks | apps/workspaces/services.py:418-442 | an update of a project under another project's id is refused without a change of team and leaves an inconsistent database with one |
| WorkspaceService.WorkspaceStore.EnsurePersonalIntakeColumn | apps/workspaces/services.py:189-223 | the row-by-row shift and insert leave the described columns, and no save violates the unique constraint |
| WorkspaceService.WorkspaceStore.EnsurePersonalBoard | apps/workspaces/services.py:226-261 | the steps leave the described board |
| WorkspaceService.WorkspaceStore.ReindexBoardColumns | apps/workspaces/views.py:131-152 | both bulk updates, in any row order, leave the described columns without a collision |
| WorkspaceService.WorkspaceStore.ReorderBoardColumns | apps/workspaces/views.py:500-530 | the request is refused, for its version, its list or the intake column, or carried out as described |
| WorkspaceService.WorkspaceStore.CreateBoardColumn | apps/workspaces/views.py:471-498 | a current request appends the described column and raises the board's version, a stale one changes nothing |
| WorkspaceService.WorkspaceStore.DeleteColumnMovingTasks | apps/workspaces/views.py:574-618 | version and other checks, loop over the tasks, delete, reindex and the board's new version are as described |
| WorkspaceService.WorkspaceStore.DestroyBoardColumn | apps/workspaces/views.py:626-645 | only an empty ordinary column of the given version is deleted, as described |
| WorkspaceService.WorkspaceStore.RenameBoardColumn | apps/workspaces/views.py:548-571 | a current request changes the title and raises the column's version, a stale one changes nothing |
| WorkspaceService.WorkspaceStore.FoundTeam | apps/workspaces/views.py:174-196 | the new team has a fresh id and its founder as owner and member, and no board |
| WorkspaceService.WorkspaceStore.AdmitMember | apps/workspaces/services.py:1553-1576 | membership and personal board are as described |
| WorkspaceService.WorkspaceStore.RemoveMember | apps/workspaces/views.py:266-280 | a member who is not the owner loses the membership, and nothing else changes |
| WorkspaceService.WorkspaceStore.SyncAssignmentMirror | apps/workspaces/services.py:621-717 | deleting obsolete mirrors one by one, then creating or refreshing, is the described synchronisation |
| WorkspaceService.WorkspaceStore.SyncSubtaskMirror | apps/workspaces/services.py:1155-1220 | the same for a subtask |
| WorkspaceService.WorkspaceStore.ExecuteAutomationRules | apps/workspaces/services.py:1345-1381 | the two nested loops with their early exit do what is described |
| WorkspaceService.WorkspaceStore.Create | apps/workspaces/services.py:721-758 | the steps commit or roll back as described |
| WorkspaceService.WorkspaceStore.Update | apps/workspaces/services.py:780-890 | the checks, the three branches, the save under the task's or another id, the synchronisation and both triggers commit or roll back as described |
| WorkspaceService.WorkspaceStore.ClaimPoolTask | apps/workspaces/services.py:928-981 | the claim commits or is refused as described |
| WorkspaceService.WorkspaceStore.Move | apps/workspaces/services.py:1000-1044 | both renumbering loops and the rules commit or roll back as described |
| WorkspaceService.WorkspaceStore.SetTaskCompleted | apps/workspaces/services.py:1067-1103 | both sides, the subtask and the rules commit or roll back as described |
| WorkspaceService.WorkspaceStore.Archive | apps/workspaces/services.py:1124-1131 | archiving does what is described |
| WorkspaceService.WorkspaceStore.Destroy | apps/workspaces/views.py:768-788 | deleting the mirrors, then the task, does what is described |
| WorkspaceService.WorkspaceStore.AddSubtask | apps/workspaces/services.py:1242-1269 | the new row, then its mirror, as described |
| WorkspaceService.WorkspaceStore.ChangeSubtask | apps/workspaces/services.py:1273-1316 | version check, supplied fields and mirror are as described, or nothing changes |
| WorkspaceService.WorkspaceStore.RemoveSubtask | apps/workspaces/views.py:909-925 | a current request deletes the row and leaves its mirror behind, a stale one changes nothing |
| WorkspaceService.WorkspaceStore.AddProject | apps/workspaces/services.py:303-347 | key search, project, board and columns do what is described |
| WorkspaceService.WorkspaceStore.MoveProjectToTeam | apps/workspaces/services.py:358-442 | version check, key search, project, board and bulk update of the tasks do what is described |
| BoardMigration.BoardStore.ConsolidatePersonalBoards | apps/workspaces/migrations/0005_global_personal_board.py:44-149 | for whatever tables, exactly the boards that do not stay are merged, each owner's from the oldest on, and exactly the tasks then found elsewhere are lost with all below them; if every task's column is on its board, every board's contents end on the board of its owner that stays, tasks of one column in their order, rules rewritten, all else unchanged |
| BoardMigration.BoardStore.MergeBoard | apps/workspaces/migrations/0005_global_personal_board.py:71-149 | one merge loses exactly the tasks of the duplicate whose column is on another board and all tasks below them; a moved task's position is the number of active tasks its new column holds by then plus the number of tasks listed before it in the old one; columns are made only where there is none alike; and everything is merged if nothing is lost |
| BoardMigration.BoardStore.MapColumns | apps/workspaces/migrations/0005_global_personal_board.py:77-111 | every column of the duplicate gets the canonical board's column of the same role, or else of the same title; only without either one new column per title is made, behind all others; positions and roles stay unique |
| BoardMigration.BoardStore.FindCounterpart | apps/workspaces/migrations/0005_global_personal_board.py:78-97 | the two searches return the first column of the same role, or else the first of the same title |
| BoardMigration.CounterpartIs | apps/workspaces/migrations/0005_global_personal_board.py:78-97 | a counterpart is found exactly if there is one, and a role is matched by the role whenever the board has it |
| BoardMigration.BoardStore.RehomeColumn | apps/workspaces/migrations/0005_global_personal_board.py:113-131 | the tasks of one column move to the counterpart in strictly the same order, behind as many positions as it shows active tasks, no other task changes |
| Consolidation.ResidentsStayFirst | apps/workspaces/migrations/0005_global_personal_board.py:119-131 | tasks numbered from zero in a column stay before every task moved into it, also when two columns share it |
| BoardMigration.HeldNow | apps/workspaces/migrations/0005_global_personal_board.py:119-123 | what a column shows when a source column's turn comes is what it held and what came with the earlier ones |
| BoardMigration.CascadeTakesStranded | apps/workspaces/models.py:298-304 | the cascade removes exactly those tasks and all tasks below them by the parent reference |
| Consolidation.DescendantsAre | apps/workspaces/models.py:298-304 | a row goes with a set of rows if and only if its chain of parents leads into the set |
| Consolidation.LostIffStranded | apps/workspaces/migrations/0005_global_personal_board.py:113-136 | a merge loses nothing if and only if no task of the duplicate has its column elsewhere |
| BoardMigration.DividedLoses | apps/workspaces/migrations/0005_global_personal_board.py:113-149 | in one database a merge loses a stranded task and a task below it on a project's board, and keeps the rest |
| Losses.DoomedIff | apps/workspaces/migrations/0005_global_personal_board.py:113-149 | a task is lost by itself if and only if its board is merged and its column is neither on that board nor on one merged before |
| Losses.NothingLostIff | apps/workspaces/migrations/0005_global_personal_board.py:113-149 | the whole migration loses nothing if and only if there is no such task |
| Losses.NothingDoomedAtHome | apps/workspaces/migrations/0005_global_personal_board.py:113-136 | there is none if every column is on its task's board |
| Losses.LostTogether | apps/workspaces/models.py:298-304 | two cascades one after the other leave what one cascade from both sets leaves |
| Losses.ReachedStep | apps/workspaces/migrations/0005_global_personal_board.py:71-149 | one more merge, whatever the tables, loses what the order of the merges says and takes the column from tasks that were in the merged board's columns |
| BoardMigration.OrderDecides | apps/workspaces/migrations/0005_global_personal_board.py:71-149 | in one database the two orders of two merges lose different tasks |
| Consolidation.NoTaskIsLost | apps/workspaces/migrations/0005_global_personal_board.py:113-136 | every task survives with its content on its board's home, in its old column or one there of the same role or title |
| Consolidation.OneBoardEach | apps/workspaces/migrations/0005_global_personal_board.py:51-70 | each owner keeps exactly one personal board, the oldest in an own workspace or else the oldest |
| Consolidation.RulesFollow | apps/workspaces/migrations/0005_global_personal_board.py:138-142 | a moved rule mentions no column of the old board any more, but the counterpart wherever it did |
| Consolidation.SettledStep | apps/workspaces/migrations/0005_global_personal_board.py:71-149 | one more merge extends the promise to one more board |
| Json.RewriteAt | apps/workspaces/migrations/0005_global_personal_board.py:7-15 | at every path the rewritten value has the same shape, and a string is replaced exactly if it is known |
| Recurrence.NextRunIsLeast | apps/workspaces/services.py:1384-1410 | the next run is the least matching date not before max(from, start), if and only if the rule has a day at all |
| Recurrence.LeastIsUnique | apps/workspaces/services.py:1384-1410 | there is only one such date |
| Recurrence.MonthlyOccurs | apps/workspaces/services.py:1403-1410 | a monthly rule falls on the wanted day, or on the last day of a month that does not have it |
| Recurrence.WeeklyOccurs | apps/workspaces/services.py:1395-1402 | a weekly rule falls on the days it names, counted from Monday |
| Recurrence.WeekdaysFollow | apps/workspaces/services.py:1395-1402 | the weekday goes on by one each day, and the first of January 2024 is a Monday |
| Recurrence.IntervalOccurs | apps/workspaces/services.py:1388-1394 | an interval rule falls on its start and whole intervals after it |
| Recurrence.FindWeekday | apps/workspaces/services.py:1395-1402 | the loop over fourteen days finds the first allowed one |
| Recurrence.CalculateNextRun | apps/workspaces/services.py:1384-1410 | the method computes that date |
| Calendar.AddDaysOrdinal | apps/workspaces/services.py:1390-1394 | adding days moves a date by as many ordinals across months and leap years |
| Scheduler.RunsEnumerateOccurrences | apps/workspaces/tasks.py:15-61 | over any sequence of passes the copies of a rule are exactly its occurrences from its first date to its current one, in order, none skipped or repeated |
| Scheduler.PassMakesAtMostOne | apps/workspaces/tasks.py:25-59 | a pass makes at most one copy per rule, and one exactly if the rule is due and free |
| Scheduler.PassCopies | apps/workspaces/tasks.py:25-59 | the copy of a due rule starts and ends on its date, one position behind its task, with all other fields taken over, and the rule goes on to its next date |
| Scheduler.PassesCatchUp | apps/workspaces/tasks.py:25-59 | on a fixed day enough passes bring the next date past today |
| Scheduler.SavedRuleStartsAtFirstOccurrence | apps/workspaces/services.py:1413-1436 | a saved rule starts at its first occurrence from today |
| Scheduler.RecurrenceScheduler.RunDueRecurrences | apps/workspaces/tasks.py:15-61 | the loop over due rules is one pass and counts its copies |
| Carly.ReadsEqualLatestRead | apps/preferences/rewards.py:164-213 | any list of reads leaves the row one read at the latest time leaves, up to the version |
| Carly.DecayIsTickByTick | apps/preferences/rewards.py:164-213 | lazy decay equals one clamped step per whole interval for each need |
| CareEffects.NeedsChange | apps/preferences/rewards.py:164-213 | affection falls every six hours, satiety every 45 minutes, energy every half hour awake, and rises every hour asleep |
| CareEffects.MoodMeans | apps/preferences/rewards.py:152-161 | the mood follows from satiety, then energy and sleep, then affection |
| CareEffects.NightResets | apps/preferences/tasks.py:12-26 | the nightly job lets time pass and resets exactly the streaks that missed a day |
| CareEffects.CareAcceptedIff | apps/preferences/services.py:216-275 | a care action is carried out exactly if its pause is over, the day's limit not reached, Carly awake where needed, with energy to play and food in stock |
| CareEffects.CareDoes | apps/preferences/services.py:255-327 | what each action and each food changes, and the log entry with the experience earned |
| CareEffects.PurchaseDoes | apps/preferences/services.py:225-243 | food is bought exactly for its price, and only stock, credits and version change |
| Levels.SplitUnique | apps/preferences/rewards.py:216-225 | a total splits in one way into completed levels and a remainder below the next threshold |
| Levels.LevelInverse | apps/preferences/rewards.py:216-225 | the closed sum inverts the loop |
| Levels.SplitMonotone | apps/preferences/rewards.py:216-225 | more XP never lowers the level |
| Levels.ComputeLevelState | apps/preferences/rewards.py:216-225 | the loop ends and computes the split |
| Rewards.BonusesFit | apps/preferences/rewards.py:298-337 | food bonuses stay within the room under the cap, and the focus charge is spent exactly if its bonus is granted |
| Amounts.AwardAnswers | apps/preferences/rewards.py:353-365 | an award is granted exactly for a listed event or explicit amounts and a key that is not booked, also not after cutting it off |
| Amounts.AwardPays | apps/preferences/rewards.py:255-295 | an award pays its base, half, a quarter and in the end one as the event repeats on a day, half and a quarter of that above the soft cap and its middle, rounded down, at least one and at most the room |
| Amounts.RepeatNeverEarnsMore | apps/preferences/rewards.py:255-295 | the same event with the same base never earns more later on the same day |
| Amounts.BonusesAre | apps/preferences/rewards.py:298-337 | moon, focus, cookie and full energy come in this order while there is room, and give what is due or the room |
| Amounts.AwardedRow | apps/preferences/rewards.py:421-459 | what a booked award changes in Carly's row |
| Amounts.DayTotals | apps/preferences/rewards.py:235-241 | the totals of a day are those of its rows |
| Economy.RunBalances | apps/preferences/rewards.py:340-459 | over every run experience is the ledger's XP, credits are 40 plus the ledger's minus purchases, stock is start plus bought minus fed, the level fits, and focus bonuses plus charges held never exceed berries fed |
| Economy.RunKeepsCaps | apps/preferences/rewards.py:235-241 | no day's ledger exceeds 300 XP and 650 credits, bonuses included, and no key is booked twice |
| Economy.RepeatedKeyChangesNothing | apps/preferences/rewards.py:357-365 | repeating a granted key changes nothing at any later time, and is reported as a duplicate exactly for keys of up to 220 characters |
| Economy.StreakIsLedgerRun | apps/preferences/rewards.py:436-449 | after a productive award the streak is the length of the run of productive days that ends today |
| Economy.StreakBetweenAwards | apps/preferences/tasks.py:12-26 | between awards it is that run for the last productive day, or zero once a day was missed |
| Economy.StreakAfterNight | apps/preferences/tasks.py:12-26 | after the nightly job the streak is the run of productive days that ends today or yesterday, or zero if neither is one |
| Economy.RunKeepsGauges | apps/preferences/services.py:270-297 | no run takes a need out of its bounds, and the mood fits the needs |
| CarlyService.CarlyAccount.ApplyDecay | apps/preferences/rewards.py:170-213 | the method leaves the described row and reports exactly whether something changed |
| CarlyService.CarlyAccount.AwardCarlyReward | apps/preferences/rewards.py:340-459 | the method books or refuses as described |
| CarlyService.CarlyAccount.PerformCarlyAction | apps/preferences/services.py:216-327 | buying, feeding, resting and playing change the account as described or roll back |
| CarlyService.RefreshCarlyStreaks | apps/preferences/tasks.py:12-26 | the nightly loop resets exactly the broken streaks and counts them |
| RateLimit.RateBound | apps/realtime/rate_limit.py:22-31 | the amount granted in any block of calls is at most one bucket plus the refill of its duration |
| RateLimit.AcceptedIffEveryWindowAllows | apps/realtime/rate_limit.py:22-31 | a call is accepted if and only if no window that ends with it would exceed the bound |
| RateLimit.AvailableIsTightestWindow | apps/realtime/rate_limit.py:22-31 | the tokens at hand are the room of the tightest window |
| RateLimit.LevelInRange | apps/realtime/rate_limit.py:16-31 | the level stays between zero and the capacity |
| RateLimit.TokenBucket.Consume | apps/realtime/rate_limit.py:22-31 | the method updates both fields as the runs assume |

## Left out

- Placement.UpdateOutcome: does not decide permissions, assignee membership, team sharing and field lengths, which the view and `TaskWriteSerializer` check before the service runs.
- Lifecycle.CreateOutcome: likewise, and does not look at a given id, which the primary key refuses if it is in use.
- WorkspaceService.WorkspaceStore.Update: does not write collaborators and project participants, which no modelled service reads.
- WorkspaceService.WorkspaceStore.CreateBoardColumn: does not check the title's length and leaves out colour, sort mode and a version given for the new column.
- Structure.OtherProjectBreaks: speaks of ids in use; under a new id the saved project would have no board, which the tables here cannot express.
- History entries, notifications, broadcasts, attachments, rewards paid by task services: side effects on tables the modelled ones never read.
- Titles, colours and the other fields of boards and projects that no property speaks of.
- WorkspaceService.WorkspaceStore.RemoveMember: does not ask whether the member owns projects or is the one who asks, because projects have no owner here; participations go with it unmodelled.
- Deleting projects and users, sending and expiring invitations, presence and co-op actions, demo data.
- Recurrence copies: they are created without a mirror synchronisation, so they are kept out of the workspace runs.
- Lifecycle.CompleteKeeps: does not say which version a subtask ends with, because completing its mirror does not raise it.
- Restoring archived tasks: positions in a column may then coincide, so `Listing` breaks ties by age as the query does.
- Tasks.Matches: compares search terms as they are, because case folding is the library's; the stored term is taken as already stripped.
- Cascades beyond one level of parent tasks: in a consistent workspace only mirrors of subtasks have a parent, and nothing has a mirror as parent.
- Backfilling project participants in the same migration: independent of the merge.
- Carly's reset and settings: plain assignments that start a new account.
- Dates past year 9999: years are unbounded here.
- Rounding of floats in the token bucket: reals are exact.
