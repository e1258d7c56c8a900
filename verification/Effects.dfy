/** What the task services leave in a row, and which rules they set off
    (apps/workspaces/services.py and views.py). */
module Effects {
  import opened Automation
  import opened Boards
  import opened Columns
  import opened Consistency
  import opened Destinations
  import opened History
  import opened Lifecycle
  import opened Mirroring
  import opened Options
  import opened Placement
  import opened Promises
  import opened Schema
  import opened Structure
  import opened Subtasks
  import opened Tasks
  import opened Validity
  import opened Workspace

  // ---------- One run of the rules ----------

  /** The row as it was saved, or moved to the end of the column the rules ask for. */
  ghost predicate RowRuled(after: Db, id: Schema.Id, saved: Task, target: Option<Schema.Id>) {
    id in after.tasks &&
    if target.None? then after.tasks[id] == saved
    else
      && after.tasks[id] == saved.(column := target, position := after.tasks[id].position, version := saved.version + 1)
      && LastInColumn(after, id)
  }

  lemma AutomateRules(db: Db, id: Schema.Id, trigger: Trigger, today: int, target: Option<Schema.Id>)
    requires id in db.tasks && RuledTo(db, db.tasks[id], trigger, today, target) && Automate(db, id, trigger, today).Ok?
    ensures RowRuled(Automate(db, id, trigger, today).value, id, db.tasks[id], target)
    ensures SameTables(db, Automate(db, id, trigger, today).value, id)
    ensures target.None? ==> Automate(db, id, trigger, today).value == db
  {
    hide RuledTo, Automate, LastInColumn;
    RulesDo(db, id, trigger, today, target);
    assert db.tasks == db.tasks[id := db.tasks[id]];
  }

  /** Only the row of the task differs. */
  ghost predicate SameTables(a: Db, b: Db, id: Schema.Id) {
    id in b.tasks && b == a.(tasks := a.tasks[id := b.tasks[id]])
  }

  /** The rules look at board, column, text, dates and parent, and at the columns. */
  lemma RuledToFace(a: Db, b: Db, t: Task, u: Task, trigger: Trigger, today: int, target: Option<Schema.Id>)
    requires RuledTo(a, t, trigger, today, target) && SameFace(t, u) && a.columns == b.columns && a.rules == b.rules
    ensures RuledTo(b, u, trigger, today, target)
  {
    hide RuledTo, RuleTarget;
    RuledToIs(a, t, trigger, today);
    RuledToOnce(a, t, trigger, today, target, RuleTarget(a, t, trigger, a.rules, today));
    RuleTargetFrame(a, b, t, trigger, a.rules, today);
    RuleTargetFace(b, t, u, trigger, a.rules, today);
    RuledToIs(b, u, trigger, today);
  }

  // ---------- update_task ----------

  /** The three ways of an accepted update, told from task and request: a return
      to the pool of the project the task comes from, a hand-over to the personal
      board of the requested user, or an edit on the spot. */
  lemma UpdateRoutes(db: Db, id: Schema.Id, p: Patch, supplied: Option<nat>, today: int)
    requires Consistent(db) && id in db.tasks && Canonical(db.tasks[id]) && UpdateTask(db, id, p, supplied, today).Ok?
    ensures var t, after := db.tasks[id], UpdateTask(db, id, p, supplied, today).value;
            var assignee := if p.assignee.Some? then p.assignee.value else t.assignee;
            && id in after.tasks && t.board in db.boards
            && if p.pool == Some(true) || (p.assignee == Some(None) && (t.poolSource.Some? || t.project.Some?)) then
                 var origin := if t.poolSource.Some? then t.poolSource else t.project;
                 origin.Some? && InPoolOf(db, after.tasks[id], origin.value) && ReturnedRow(t, after.tasks[id])
               else if assignee.Some? && (t.pool || (db.boards[t.board].PersonalBoard? && p.assignee.Some? && assignee != Some(db.boards[t.board].owner))) then
                 after.tasks[id].board in after.boards && after.boards[after.tasks[id].board].PersonalBoard?
                 && after.boards[after.tasks[id].board].owner == assignee.value && after.tasks[id].assignee == assignee
               else after.tasks[id].board == t.board && after.tasks[id].project == t.project && after.tasks[id].poolSource == t.poolSource
  {
    hide Consistent, UpdateTask, Routed, InPoolOf, ReturnedRow, MirrorExact, Cosmetic;
    var t := db.tasks[id];
    TaskBoardExists(db, id);
    UpdateKeeps(db, id, p, supplied, today);
    if Releases(t, p) {
      ReturnIsToOrigin(db, id, p, supplied, today);
      OriginExists(db, id);
      ReturnedFields(db, id, p, supplied, today);
    } else if HandsOver(db, t, p) {
      HandedOverAfter(db, id, p, supplied, today);
    } else {
      EditedOnBoard(db, id, p);
      CosmeticStays(Routed(db, id, p).value.tasks[id], UpdateTask(db, id, p, supplied, today).value.tasks[id]);
    }
  }

  lemma TaskBoardExists(db: Db, id: Schema.Id)
    requires Consistent(db) && id in db.tasks
    ensures db.tasks[id].board in db.boards
  {
    RowAt(db, id);
    hide Consistent;
  }

  lemma CosmeticStays(t: Task, u: Task)
    requires Cosmetic(t, u)
    ensures u.board == t.board && u.project == t.project && u.poolSource == t.poolSource && u.assignee == t.assignee
  {
  }

  lemma EditedOnBoard(db: Db, id: Schema.Id, p: Patch)
    requires id in db.tasks && !Releases(db.tasks[id], p) && !HandsOver(db, db.tasks[id], p)
    ensures Routed(db, id, p).Ok? && id in Routed(db, id, p).value.tasks
    ensures var t, u := db.tasks[id], Routed(db, id, p).value.tasks[id];
            u.board == t.board && u.project == t.project && u.poolSource == t.poolSource
  {
    hide Routed, ContentApplied, WaitsIn, LastInColumn;
    EditStays(db, id, p);
  }

  /** A returned task keeps its text and state; what was to be reviewed is settled. */
  predicate ReturnedRow(t: Task, u: Task) {
    && !u.requiresReview && u.reviewHint == "" && u.version == t.version + 1
    && u.content == t.content && u.owner == t.owner && u.parent == t.parent
    && u.done == t.done && u.completedAt == t.completedAt && u.archivedAt == t.archivedAt
  }

  lemma ReturnedFields(db: Db, id: Schema.Id, p: Patch, supplied: Option<nat>, today: int)
    requires Consistent(db) && id in db.tasks && Canonical(db.tasks[id]) && Releases(db.tasks[id], p)
    requires UpdateTask(db, id, p, supplied, today).Ok?
    ensures id in UpdateTask(db, id, p, supplied, today).value.tasks
    ensures ReturnedRow(db.tasks[id], UpdateTask(db, id, p, supplied, today).value.tasks[id])
  {
    hide Consistent, UpdateTask, MirrorExact;
    UpdateKeeps(db, id, p, supplied, today);
    ReleasedFields(db, id, p);
    UpdatePooledRow(db, id, p, supplied, today);
    hide Routed, ReturnedRow, Cosmetic;
  }

  lemma ReleasedFields(db: Db, id: Schema.Id, p: Patch)
    requires id in db.tasks && Releases(db.tasks[id], p) && Routed(db, id, p).Ok?
    ensures id in Routed(db, id, p).value.tasks && ReturnedRow(db.tasks[id], Routed(db, id, p).value.tasks[id])
    ensures Routed(db, id, p).value.tasks[id].pool
  {
    hide Releases, NextInPool;
  }

  // Rules do not move a pooled task.
  lemma UpdatePooledRow(db: Db, id: Schema.Id, p: Patch, supplied: Option<nat>, today: int)
    requires Consistent(db) && id in db.tasks && Canonical(db.tasks[id]) && UpdateTask(db, id, p, supplied, today).Ok?
    requires Routed(db, id, p).Ok? && id in Routed(db, id, p).value.tasks && Routed(db, id, p).value.tasks[id].pool
    ensures id in UpdateTask(db, id, p, supplied, today).value.tasks
    ensures UpdateTask(db, id, p, supplied, today).value.tasks[id] == Routed(db, id, p).value.tasks[id]
  {
    UpdateIs(db, id, p, supplied, today);
    hide Consistent, UpdateTask, Routed, SyncMirror, Settled, Automate;
    var saved := Routed(db, id, p).value;
    var synced := SyncMirror(saved, id);
    var changed := saved.tasks[id].assignee != db.tasks[id].assignee;
    AutomatePooled(synced, synced, id, changed, TaskAssigned, today);
    AutomatePooled(synced, synced, id, EntersColumn(db, db.tasks[id], p), ColumnEntered, today);
    hide EntersColumn;
  }

  /** An accepted update of a canonical task: the saved row, then the rules. */
  lemma UpdateIs(db: Db, id: Schema.Id, p: Patch, supplied: Option<nat>, today: int)
    requires Consistent(db) && id in db.tasks && Canonical(db.tasks[id]) && UpdateTask(db, id, p, supplied, today).Ok?
    ensures Routed(db, id, p).Ok? && id in Routed(db, id, p).value.tasks
    ensures var saved := Routed(db, id, p).value;
            && id in SyncMirror(saved, id).tasks && SyncMirror(saved, id).tasks[id] == saved.tasks[id]
            && UpdateTask(db, id, p, supplied, today) == AfterSave(saved, id, db.tasks[id].assignee, EntersColumn(db, db.tasks[id], p), today)
  {
    hide Consistent, Routed, SyncMirror, AfterSave, FullyClean, Patched, DatesInOrder, EntersColumn, MirrorExact, OnlyMirrorsDiffer;
    AdmittedIsChecked(db, id, p, supplied, today);
    UpdateSettles(db, id, p);
    hide ColumnFits;
  }

  /** The rules an accepted update sets off: those for assignments exactly if the
      assignee has changed, then those for entered columns exactly if an ordinary
      edit names a column. */
  lemma UpdateRules(db: Db, id: Schema.Id, p: Patch, supplied: Option<nat>, today: int, first: Option<Schema.Id>, second: Option<Schema.Id>)
    requires Consistent(db) && id in db.tasks && Canonical(db.tasks[id]) && UpdateTask(db, id, p, supplied, today).Ok?
    requires Routed(db, id, p).Ok? && id in Routed(db, id, p).value.tasks
    requires var after, saved := UpdateTask(db, id, p, supplied, today).value, Routed(db, id, p).value.tasks[id];
             var moved := if first.Some? then saved.(column := first) else saved;
             && (if saved.assignee != db.tasks[id].assignee then RuledTo(after, saved, TaskAssigned, today, first) else first.None?)
             && (if p.column.Some? && !Releases(db.tasks[id], p) && !HandsOver(db, db.tasks[id], p)
                 then RuledTo(after, moved, ColumnEntered, today, second) else second.None?)
    ensures var after, saved := UpdateTask(db, id, p, supplied, today).value, Routed(db, id, p).value.tasks[id];
            id in after.tasks
            && after.tasks[id] == saved.(column := if second.Some? then second else if first.Some? then first else saved.column,
                                         position := after.tasks[id].position, version := after.tasks[id].version)
            && after.tasks[id].version == saved.version + (if first.Some? then 1 else 0) + (if second.Some? then 1 else 0)
            && (if first.None? && second.None? then after.tasks[id] == saved else LastInColumn(after, id))
  {
    UpdateIs(db, id, p, supplied, today);
    hide Consistent, UpdateTask, Routed, SyncMirror, AfterSave, RuledTo, Releases, HandsOver, LastInColumn;
    var saved := Routed(db, id, p).value;
    TwoRuns(saved, SyncMirror(saved, id), id, db.tasks[id].assignee, EntersColumn(db, db.tasks[id], p), today,
            UpdateTask(db, id, p, supplied, today).value, first, second);
  }

  lemma TwoRuns(saved: Db, synced: Db, id: Schema.Id, assignee: Option<Schema.Id>, enters: bool, today: int, after: Db,
                first: Option<Schema.Id>, second: Option<Schema.Id>)
    requires id in saved.tasks && synced == SyncMirror(saved, id) && id in synced.tasks && synced.tasks[id] == saved.tasks[id]
    requires AfterSave(saved, id, assignee, enters, today) == Ok(after)
    requires var row := saved.tasks[id];
             var moved := if first.Some? then row.(column := first) else row;
             && (if row.assignee != assignee then RuledTo(after, row, TaskAssigned, today, first) else first.None?)
             && (if enters then RuledTo(after, moved, ColumnEntered, today, second) else second.None?)
    ensures var row := saved.tasks[id];
            id in after.tasks
            && after.tasks[id] == row.(column := if second.Some? then second else if first.Some? then first else row.column,
                                       position := after.tasks[id].position, version := after.tasks[id].version)
            && after.tasks[id].version == row.version + (if first.Some? then 1 else 0) + (if second.Some? then 1 else 0)
            && (if first.None? && second.None? then after.tasks[id] == row else LastInColumn(after, id))
  {
    hide SyncMirror, Automate, RuledTo, LastInColumn;
    var row := saved.tasks[id];
    var reassigned := AutomateIf(synced, id, row.assignee != assignee, TaskAssigned, today).value;
    AutomateTables(synced, id, row.assignee != assignee, TaskAssigned, today);
    AutomateTables(reassigned, id, enters, ColumnEntered, today);
    if row.assignee != assignee {
      RuledToFace(after, synced, row, row, TaskAssigned, today, first);
      AutomateRules(synced, id, TaskAssigned, today, first);
    }
    if enters {
      var moved := if first.Some? then row.(column := first) else row;
      RuledToFace(after, reassigned, moved, reassigned.tasks[id], ColumnEntered, today, second);
      AutomateRules(reassigned, id, ColumnEntered, today, second);
    }
  }

  lemma AutomateTables(db: Db, id: Schema.Id, fires: bool, trigger: Trigger, today: int)
    requires id in db.tasks && AutomateIf(db, id, fires, trigger, today).Ok?
    ensures var after := AutomateIf(db, id, fires, trigger, today).value;
            id in after.tasks && after.columns == db.columns && after.rules == db.rules
  {
    hide RuleTarget, NextInColumn;
  }

  lemma HandedOverAfter(db: Db, id: Schema.Id, p: Patch, supplied: Option<nat>, today: int)
    requires Consistent(db) && id in db.tasks && Canonical(db.tasks[id]) && UpdateTask(db, id, p, supplied, today).Ok?
    requires !Releases(db.tasks[id], p) && HandsOver(db, db.tasks[id], p)
    ensures RequestedAssignee(db.tasks[id], p).Some?
    ensures var after, user := UpdateTask(db, id, p, supplied, today).value, RequestedAssignee(db.tasks[id], p).value;
            && id in after.tasks && after.tasks[id].assignee == Some(user)
            && after.tasks[id].board in after.boards && after.boards[after.tasks[id].board] .PersonalBoard?
            && after.boards[after.tasks[id].board].owner == user
  {
    hide Consistent, UpdateTask, Routed, Releases, MirrorExact, SendTo, Delivered, OnlyHandedOver;
    HandOverUnpools(db, db.tasks[id], p);
    hide HandsOver;
    UpdateKeeps(db, id, p, supplied, today);
    Apart(db);
    HandOverWrites(db, id, p);
    var user := RequestedAssignee(db.tasks[id], p).value;
    SentRow(db, id, Origin(db.tasks[id]), user);
    var sent, after := Routed(db, id, p).value, UpdateTask(db, id, p, supplied, today).value;
    hide Cosmetic, Writes, WellFormed, RowsOk, LinksOk, UniqueMirrors, SubtasksAgree, RouteKeysUnique, AgreeExcept;
    CosmeticStays(sent.tasks[id], after.tasks[id]);
    AssigneeOwnsBoard(after, id, user);
  }

  lemma SentRow(db: Db, id: Schema.Id, poolSource: Option<Schema.Id>, user: Schema.Id)
    requires id in db.tasks
    ensures id in SendTo(db, id, poolSource, user).tasks
    ensures var u := SendTo(db, id, poolSource, user).tasks[id]; u.assignee == Some(user) && u.project.None? && !u.pool
  {
    hide Intake, NextInColumn;
  }

  lemma AssigneeOwnsBoard(db: Db, id: Schema.Id, user: Schema.Id)
    requires Consistent(db) && id in db.tasks && Canonical(db.tasks[id]) && db.tasks[id].project.None? && db.tasks[id].assignee == Some(user)
    ensures db.tasks[id].board in db.boards && db.boards[db.tasks[id].board].PersonalBoard? && db.boards[db.tasks[id].board].owner == user
  {
    RowAt(db, id);
    hide Consistent;
  }

  // ---------- create_task ----------

  /** A new task shows what was asked for and nothing else. */
  ghost predicate CreatedShows(db: Db, row: Task, actor: Schema.Id, data: NewTask, assignee: Option<Schema.Id>) {
    && row.content == data.content && row.owner == actor && row.assignee == assignee
    && row.pool == (data.pool && data.assignee.None?) && row.requiresReview == data.requiresReview && row.reviewHint == data.reviewHint
    && !row.done && row.completedAt.None? && row.archivedAt.None? && row.poolSource.None?
    && row.parent.None? && row.sourceTask.None? && row.sourceSubtask.None? && row.version == 1
    && row.board in db.boards && row.workspace == db.boards[row.board].workspace
    && row.project == (match db.boards[row.board] case PersonalBoard(_, _) => None case ProjectBoard(_, project) => Some(project))
    && forall o <- ActiveIn(db.tasks, row.column) :: db.tasks[o].position < row.position
  }

  lemma CreatedRowShows(db: Db, board: Schema.Id, assignee: Option<Schema.Id>, column: Option<Schema.Id>, actor: Schema.Id, data: NewTask)
    requires board in db.boards
    ensures CreatedShows(db, CreatedRow(db, board, assignee, column, actor, data), actor, data, assignee)
  {
    NextIsAboveAll(db.tasks, column);
    hide NextInColumn;
  }

  /** The created task, and the creation rules it sets off. */
  lemma CreateDoes(db: Db, board: Schema.Id, actor: Schema.Id, data: NewTask, today: int, target: Option<Schema.Id>, row: Task)
    requires Consistent(db) && board in db.boards && CreateTask(db, board, actor, data, today).Ok?
    requires var (db1, place, assignee, column) := Destination(db, board, data);
             CreatedShows(db1, row, actor, data, assignee) && row.board == place && row.column == column
    requires RuledTo(CreateTask(db, board, actor, data, today).value.0, row, TaskCreated, today, target)
    ensures var (after, id) := CreateTask(db, board, actor, data, today).value;
            var (db1, place, assignee, column) := Destination(db, board, data);
            && id !in db.tasks && id in after.tasks
            && (target.None? ==> CreatedShows(db1, after.tasks[id], actor, data, assignee) && after.tasks[id].column == column)
            && (target.Some? ==> after.tasks[id].column == target && LastInColumn(after, id) && after.tasks[id].version == 2
                                 && CreatedShows(db1, after.tasks[id].(column := column, position := row.position, version := 1), actor, data, assignee))
  {
    hide Consistent, Destination, CreatedRow, SyncMirror, Automate, MirrorExact, OnlyMirrorsDiffer, Addable, DatesInOrder, RuledTo, CreatedShows, LastInColumn, Canonical, RowAllowed, ColumnFits, Settled;
    var (after, id) := CreateTask(db, board, actor, data, today).value;
    var (db1, place, assignee, column) := Destination(db, board, data);
    var synced, made := CreateIs(db, board, actor, data, today);
    CreateKeeps(db, board, actor, data, today);
    CreatedFace(db1, made, row, actor, data, assignee, place, column);
    AutomateIfSame(synced, id, today);
    RuledToFace(after, synced, row, made, TaskCreated, today, target);
    AutomateRules(synced, id, TaskCreated, today, target);
    if target.Some? {
      CreatedOtherwise(db1, made, after.tasks[id], row, actor, data, assignee);
    }
  }

  lemma CreatedOtherwise(db: Db, made: Task, u: Task, row: Task, actor: Schema.Id, data: NewTask, assignee: Option<Schema.Id>)
    requires CreatedShows(db, made, actor, data, assignee) && CreatedShows(db, row, actor, data, assignee)
    requires row.board == made.board && row.column == made.column
    requires u == made.(column := u.column, position := u.position, version := 2)
    ensures CreatedShows(db, u.(column := row.column, position := row.position, version := 1), actor, data, assignee)
  {
  }

  lemma CreatedFace(db: Db, made: Task, row: Task, actor: Schema.Id, data: NewTask, assignee: Option<Schema.Id>, place: Schema.Id, column: Option<Schema.Id>)
    requires CreatedShows(db, made, actor, data, assignee) && CreatedShows(db, row, actor, data, assignee)
    requires made.board == row.board && made.column == row.column
    ensures SameFace(row, made) && made.version == 1
  {
  }

  lemma AutomateIfSame(db: Db, id: Schema.Id, today: int)
    requires id in db.tasks && Automate(db, id, TaskCreated, today).Ok?
    ensures Automate(db, id, TaskCreated, today).value.columns == db.columns && Automate(db, id, TaskCreated, today).value.rules == db.rules
  {
    hide RuleTarget, NextInColumn;
  }

  lemma CreateIs(db: Db, board: Schema.Id, actor: Schema.Id, data: NewTask, today: int) returns (synced: Db, made: Task)
    requires Consistent(db) && board in db.boards && CreateTask(db, board, actor, data, today).Ok?
    ensures var (db1, place, assignee, column) := Destination(db, board, data);
            CreatedShows(db1, made, actor, data, assignee) && made.board == place && made.column == column
    ensures var (after, id) := CreateTask(db, board, actor, data, today).value;
            id in synced.tasks && synced.tasks[id] == made && Automate(synced, id, TaskCreated, today) == Ok(after)
  {
    hide Consistent, Destination, CreatedRow, CreatedShows, SyncMirror, Automate, MirrorExact, OnlyMirrorsDiffer, Addable, DatesInOrder, ColumnFits, RowAllowed, Canonical;
    CreatedFits(db, board, actor, data);
    DestinationOk(db, board, data);
    var (db1, place, assignee, column) := Destination(db, board, data);
    made := CreatedRow(db1, place, assignee, column, actor, data);
    synced := SyncMirror(WithTask(db1, db1.nextId, made).(nextId := db1.nextId + 1), db1.nextId);
    CreatedRowShows(db1, place, assignee, column, actor, data);
    CreatedRowPlace(db1, place, assignee, column, actor, data);
    AddAndSync(db1, made);
  }

  lemma CreatedRowPlace(db: Db, board: Schema.Id, assignee: Option<Schema.Id>, column: Option<Schema.Id>, actor: Schema.Id, data: NewTask)
    requires board in db.boards
    ensures var row := CreatedRow(db, board, assignee, column, actor, data); row.board == board && row.column == column
  {
    hide NextInColumn;
  }

  // ---------- _sync_assignment_mirror ----------

  /** A row counts as a mirror of the task only while it is on a personal board. */
  predicate ShowsOnPersonalBoard(db: Db, m: Schema.Id, id: Schema.Id) {
    && m in db.tasks && db.tasks[m].sourceTask == Some(id) && db.tasks[m].sourceSubtask.None?
    && db.tasks[m].board in db.boards && db.boards[db.tasks[m].board].PersonalBoard?
  }

  /** In whatever state the rows are, synchronising a task leaves every other row
      alone that is neither such a mirror nor below one. */
  lemma SyncSpares(db: Db, id: Schema.Id, t: Schema.Id)
    requires WellFormed(db) && id in db.tasks && t in db.tasks && !ShowsOnPersonalBoard(db, t, id)
    requires db.tasks[t].parent.Some? ==> !ShowsOnPersonalBoard(db, db.tasks[t].parent.value, id)
    ensures var after := SyncMirror(db, id);
            t in after.tasks && Spared(db.tasks[t], after.tasks[t])
  {
    hide WellFormed, PlaceMirror, DeleteTasks, Spared;
    DeletionSpares(db, AssignmentMirrors(db, id), t);
    if db.tasks[id].assignee.Some? {
      PlacingSpares(db, id, db.tasks[id].assignee.value, t);
    }
  }

  /** A row but for its references to others, which a deletion may clear. */
  predicate Spared(t: Task, u: Task) {
    t.(sourceTask := None, sourceSubtask := None) == u.(sourceTask := None, sourceSubtask := None)
  }

  lemma PlacingSpares(db: Db, id: Schema.Id, user: Schema.Id, t: Schema.Id)
    requires WellFormed(db) && id in db.tasks && t in db.tasks && !ShowsOnPersonalBoard(db, t, id)
    requires db.tasks[t].parent.Some? ==> !ShowsOnPersonalBoard(db, db.tasks[t].parent.value, id)
    ensures t in PlaceMirror(db, id, user).tasks && Spared(db.tasks[t], PlaceMirror(db, id, user).tasks[t])
  {
    hide WellFormed, Intake, DeleteTasks, Spared;
    IntakeOk(db, user);
    IdsAreDrawn(db);
    var (db1, board, column) := Intake(db, user);
    var mirrors := AssignmentMirrors(db, id);
    var here := OnBoardIds(db, mirrors, board);
    DeletionSpares(db1, mirrors - here, t);
    DeletionKeepsNextId(db1, mirrors - here);
    assert db1.tasks == db.tasks && t < db1.nextId;
    hide Extends;
  }

  lemma DeletionKeepsNextId(db: Db, doomed: set<Schema.Id>)
    ensures DeleteTasks(db, doomed).nextId == db.nextId
  {
  }

  lemma DeletionSpares(db: Db, doomed: set<Schema.Id>, t: Schema.Id)
    requires t in db.tasks && t !in doomed && (db.tasks[t].parent.Some? ==> db.tasks[t].parent.value !in doomed)
    ensures var after := DeleteTasks(db, doomed);
            t in after.tasks && Spared(db.tasks[t], after.tasks[t])
  {
    hide Unlinked, Spared, SubtasksOf;
    var gone := Family(db, doomed);
    UnlinkedSpares(db.tasks[t], gone, SubtasksOf(db, gone));
  }

  lemma UnlinkedSpares(t: Task, gone: set<Schema.Id>, goneSubtasks: set<Schema.Id>)
    ensures Spared(t, Unlinked(t, gone, goneSubtasks))
  {
  }

  // ---------- set_task_completed and move_task ----------

  /** Completing a task sets off the rules for completed tasks, reopening it those
      for reopened ones, on the task that was named. */
  lemma CompletionRules(db: Db, id: Schema.Id, completed: bool, supplied: nat, now: int, today: int, target: Option<Schema.Id>)
    requires Consistent(db) && SetCompleted(db, id, completed, supplied, now, today).Ok? && id in db.tasks
    requires RuledTo(SetCompleted(db, id, completed, supplied, now, today).value, db.tasks[id],
                     if completed then TaskCompleted else TaskReopened, today, target)
    ensures var after := SetCompleted(db, id, completed, supplied, now, today).value;
            && id in after.tasks && after.tasks[id].board == db.tasks[id].board && after.tasks[id].content == db.tasks[id].content
            && after.tasks[id].column == (if target.Some? then target else db.tasks[id].column)
            && (if target.Some? then LastInColumn(after, id) else after.tasks[id].position == db.tasks[id].position)
  {
    CompletionFace(db, id, completed, now);
    hide Consistent, CompleteBoth, CompleteSubtask, Automate, RuledTo, LastInColumn;
    var mid := CompleteSubtask(CompleteBoth(db, id, completed, now).value, db.tasks[id].sourceSubtask, completed);
    var trigger := if completed then TaskCompleted else TaskReopened;
    AutomateTables(mid, id, true, trigger, today);
    RuledToFace(SetCompleted(db, id, completed, supplied, now, today).value, mid, db.tasks[id], mid.tasks[id], trigger, today, target);
    AutomateRules(mid, id, trigger, today, target);
  }

  lemma CompletionFace(db: Db, id: Schema.Id, completed: bool, now: int)
    requires Consistent(db) && id in db.tasks
    ensures CompleteBoth(db, id, completed, now).Ok?
    ensures var mid := CompleteSubtask(CompleteBoth(db, id, completed, now).value, db.tasks[id].sourceSubtask, completed);
            id in mid.tasks && SameFace(db.tasks[id], mid.tasks[id]) && mid.tasks[id].position == db.tasks[id].position
  {
    hide Consistent, CompleteBoth, MirrorExact;
    var t := db.tasks[id];
    if t.sourceSubtask.Some? {
      CompleteSubtaskMirror(db, id, t.sourceSubtask.value, completed, now);
    } else if t.sourceTask.Some? {
      CompleteMirrorFace(db, id, t.sourceTask.value, completed, now);
    } else {
      CompleteCanonical(db, id, completed, now);
    }
  }

  lemma CompleteMirrorFace(db: Db, id: Schema.Id, s: Schema.Id, completed: bool, now: int)
    requires Consistent(db) && id in db.tasks && IsAssignmentMirror(db.tasks[id]) && db.tasks[id].sourceTask == Some(s)
    ensures var both := CompleteBoth(db, id, completed, now);
            && both.Ok? && id in both.value.tasks && SameFace(db.tasks[id], both.value.tasks[id])
            && both.value.tasks[id].position == db.tasks[id].position
  {
    hide Completed, OnProjectBoard, Consistent, Core, AgreeExcept, MirrorRows, MirrorExact, PlaceMirror, Provided, CompleteBoth, OnPersonalBoard, SyncMirror, Assigned, RefreshedMirror;
    MirrorFacts(db, id, s);
    BothWritten(db, id, s, completed, now);
    BothStand(db, id, s, completed, now);
    var user := db.tasks[s].assignee.value;
    var written := BothRows(db, id, s, completed, now);
    CompleteMirror(db, id, s, completed, now);
    BothIs(db, id, s, completed, now);
    RefreshesGoodMirror(written, s, id, user);
    AssignedSyncs(written, s, user);
    KeptThrough(written, s, user);
    CompletedFace(db.tasks[id], completed, now);
    CompletedFace(db.tasks[s], completed, now);
    var db2 := Provided(written, s, user);
    assert CompleteBoth(db, id, completed, now).value.tasks[id] == Refreshed(db2, s, id);
    RefreshedFace(db2.tasks[id], db2.tasks[s], db2.boards[db2.tasks[id].board].workspace);
  }

  lemma BothIs(db: Db, id: Schema.Id, s: Schema.Id, completed: bool, now: int)
    requires id in db.tasks && IsAssignmentMirror(db.tasks[id]) && db.tasks[id].sourceTask == Some(s) && s in db.tasks && s != id
    requires CompleteBoth(db, id, completed, now).Ok?
    ensures CompleteBoth(db, id, completed, now).value == SyncMirror(BothRows(db, id, s, completed, now), s)
  {
    hide SyncMirror, Completed;
  }

  lemma RefreshedFace(mirror: Task, task: Task, workspace: Schema.Id)
    requires mirror.content == task.content
    ensures SameFace(mirror, RefreshedMirror(mirror, task, workspace)) && RefreshedMirror(mirror, task, workspace).position == mirror.position
  {
  }

  lemma CompletedFace(t: Task, completed: bool, now: int)
    ensures SameFace(t, Completed(t, completed, now)) && Completed(t, completed, now).position == t.position
  {
  }

  lemma AssignedSyncs(db: Db, id: Schema.Id, user: Schema.Id)
    requires Core(db) && AgreeExcept(db, Some(id)) && Assigned(db, id, user)
    ensures SyncMirror(db, id) == PlaceMirror(db, id, user)
  {
    hide PlaceMirror, Core, AgreeExcept;
  }

  lemma KeptThrough(db: Db, id: Schema.Id, user: Schema.Id)
    requires Core(db) && AgreeExcept(db, Some(id)) && Assigned(db, id, user)
    ensures id in Provided(db, id, user).tasks && Provided(db, id, user).tasks[id] == db.tasks[id]
  {
    hide Core, AgreeExcept, OnlyMirrorsDiffer, Intake, Provided, HomeFor;
    ProvidedOk(db, id, user);
  }

  /** Moving a task sets off the rules for the column it has entered. */
  lemma MoveRules(db: Db, id: Schema.Id, column: Schema.Id, index: int, supplied: nat, today: int, target: Option<Schema.Id>)
    requires MoveTask(db, id, column, index, supplied, today).Ok? && id in db.tasks
    requires RuledTo(MoveTask(db, id, column, index, supplied, today).value, db.tasks[id].(column := Some(column)), ColumnEntered, today, target)
    ensures var after := MoveTask(db, id, column, index, supplied, today).value;
            && id in after.tasks && after.tasks[id].column == (if target.Some? then target else Some(column))
            && (target.None? ==> after == Moved(db, id, column, index))
            && (target.Some? ==> LastInColumn(after, id))
            && after.tasks[id].version == db.tasks[id].version + if target.Some? then 2 else 1
  {
    hide Moved, Automate, RuledTo, LastInColumn;
    MovedRows(db, id, column, index);
    var moved := Moved(db, id, column, index);
    AutomateTables(moved, id, true, ColumnEntered, today);
    RuledToFace(MoveTask(db, id, column, index, supplied, today).value, moved, db.tasks[id].(column := Some(column)), moved.tasks[id],
                ColumnEntered, today, target);
    AutomateRules(moved, id, ColumnEntered, today, target);
  }

  // ---------- claim_pool_task ----------

  /** Of the claimed task's subtasks, the claimer keeps the own ones; nobody else
      keeps any, and nothing else changes. */
  lemma ClaimClears(db: Db, id: Schema.Id, user: Schema.Id)
    requires Consistent(db) && ClaimTask(db, id, user).Ok?
    ensures var after := ClaimTask(db, id, user).value;
            && after.subtasks.Keys == db.subtasks.Keys
            && forall s <- db.subtasks :: s in after.subtasks && after.subtasks[s]
                 == if db.subtasks[s].task != id || db.subtasks[s].assignee == Some(user) then db.subtasks[s]
                    else db.subtasks[s].(assignee := None)
  {
    hide Consistent, SendTo, ClaimTask, MirrorExact;
    ClaimKeeps(db, id, user);
    ClaimIsSend(db, id, user);
    SentSubtasks(db, id, db.tasks[id].project, user);
  }

  lemma SentSubtasks(db: Db, id: Schema.Id, poolSource: Option<Schema.Id>, user: Schema.Id)
    requires Consistent(db) && id in db.tasks
    ensures SendTo(db, id, poolSource, user).subtasks == db.subtasks
  {
    Apart(db);
    IntakeOk(db, user);
    hide Consistent, Intake, NextInColumn, WellFormed;
  }

  // ---------- Subtasks ----------

  /** What the mirror of a subtask shows of the subtask and its task. */
  ghost predicate ShowsSubtask(row: Task, s: Schema.Id, srow: Subtask, task: Task, now: int) {
    && row.sourceSubtask == Some(s) && row.sourceTask == Some(srow.task) && row.parent == Some(srow.task)
    && row.content.title == srow.title && row.content.description == "Unteraufgabe aus „" + task.content.title + "“"
    && row.content.priority == task.content.priority && row.content.dueDate == task.content.dueDate
    && row.project == task.project && row.owner == task.owner && row.assignee == srow.assignee
    && row.done == srow.done && row.completedAt == (if srow.done then Some(now) else None)
  }

  /** Where it is: a new one last in the assignee's column for incoming tasks, one
      whose assignee has changed likewise, any other where it was. */
  ghost predicate SubtaskMirrorPlaced(before: Db, after: Db, m: Schema.Id, user: Schema.Id) {
    m in after.tasks &&
    var row := after.tasks[m];
    if m in before.tasks then
      && row.version == before.tasks[m].version + 1 && row.archivedAt == before.tasks[m].archivedAt
      && row.content.dueTime == before.tasks[m].content.dueTime && row.content.tags == before.tasks[m].content.tags
      && (if row.board == before.tasks[m].board then row.column == before.tasks[m].column && row.position == before.tasks[m].position
          else row.column.Some? && LastInColumn(after, m) && TakesIncoming(after, user, row.board, row.column.value))
    else
      && row.version == 1 && row.archivedAt.None? && !row.pool && row.content.dueTime.None? && row.content.tags == []
      && row.column.Some? && LastInColumn(after, m) && TakesIncoming(after, user, row.board, row.column.value)
  }

  lemma RowShowsSubtask(base: Task, srow: Subtask, s: Schema.Id, task: Task, now: int)
    ensures ShowsSubtask(SubtaskMirrorRow(base, srow, s, task, now), s, srow, task, now)
    ensures var row := SubtaskMirrorRow(base, srow, s, task, now);
            && row.version == base.version && row.archivedAt == base.archivedAt && row.pool == base.pool
            && row.content.dueTime == base.content.dueTime && row.content.tags == base.content.tags
            && row.board == base.board && row.column == base.column && row.position == base.position
  {
  }

  lemma NewSubtaskMirror(db: Db, s: Schema.Id, srow: Subtask, user: Schema.Id, now: int)
    requires Consistent(db) && Shown(db, s, srow, user) && SubtaskMirrors(db, s) == {}
    ensures var after := PlaceSubtaskMirror(WithSubtask(db, s, srow), s, user, now);
            forall m <- SubtaskMirrors(after, s) ::
              ShowsSubtask(after.tasks[m], s, srow, db.tasks[srow.task], now) && SubtaskMirrorPlaced(db, after, m, user)
  {
    hide Consistent, Core, Intake, NextInColumn, SubtaskMirrorRow, ShowsSubtask, TakesIncoming, LastInColumn;
    var mid, task := WithSubtask(db, s, srow), db.tasks[srow.task];
    var (db1, board, column) := Intake(mid, user);
    SubtaskIntake(db, s, srow, user);
    assert SubtaskMirrors(mid, s) == {};
    var blank := BlankMirror(db1.boards[board].workspace, board, column, NextInColumn(db1.tasks, Some(column)), task.owner);
    var row := SubtaskMirrorRow(blank, srow, s, task, now);
    RowShowsSubtask(blank, srow, s, task, now);
    var after, m := WithNew(db1, row), db1.nextId;
    assert after == PlaceSubtaskMirror(mid, s, user, now);
    forall t <- SubtaskMirrors(after, s) ensures t == m {
      assert t != m ==> t in SubtaskMirrors(db, s);
    }
    NextIsAboveAll(db1.tasks, Some(column));
    AppendedIsLast(db1, m, row, column);
    SameLast(WithTask(db1, m, row), after, m);
    SameTakesIncoming(db1, after, user, board, column);
  }

  lemma SameLast(a: Db, b: Db, m: Schema.Id)
    requires a.tasks == b.tasks && LastInColumn(a, m)
    ensures LastInColumn(b, m)
  {
  }

  lemma SubtaskIntake(db: Db, s: Schema.Id, srow: Subtask, user: Schema.Id)
    requires Consistent(db) && s in db.subtasks && srow.task == db.subtasks[s].task
    ensures var (db1, board, column) := Intake(WithSubtask(db, s, srow), user);
            && db1.tasks == db.tasks && db1.nextId !in db.tasks && TakesIncoming(db1, user, board, column)
            && board in db1.boards
  {
    hide Consistent, Intake, TakesIncoming;
    ProvidedForSubtask(db, s, srow, user);
    SubtaskWellFormed(db, s, srow);
    IntakeTakesIncoming(WithSubtask(db, s, srow), user);
    hide WellFormed;
  }

  lemma SubtaskWellFormed(db: Db, s: Schema.Id, srow: Subtask)
    requires Consistent(db) && s in db.subtasks
    ensures WellFormed(WithSubtask(db, s, srow))
  {
    hide WellFormed, Consistent, RowsOk, LinksOk, UniqueMirrors, SubtasksAgree, RouteKeysUnique, AgreeExcept;
    Apart(db);
    SubtasksWellFormed(db, db.subtasks[s := srow]);
  }

  lemma OldSubtaskMirror(db: Db, s: Schema.Id, srow: Subtask, user: Schema.Id, now: int)
    requires Consistent(db) && Shown(db, s, srow, user) && SubtaskMirrors(db, s) != {}
    ensures var after := PlaceSubtaskMirror(WithSubtask(db, s, srow), s, user, now);
            forall m <- SubtaskMirrors(after, s) ::
              ShowsSubtask(after.tasks[m], s, srow, db.tasks[srow.task], now) && SubtaskMirrorPlaced(db, after, m, user)
  {
    hide Consistent, Intake, NextInColumn, PlaceSubtaskMirror, RowOk, ShowsSubtask, TakesIncoming, MovedMirror, SubtaskMirrorPlaced;
    var m, row := RefreshIsOneRow(db, s, srow, user, now);
    var (db1, board, column) := Intake(WithSubtask(db, s, srow), user);
    SubtaskIntake(db, s, srow, user);
    OnlySubtaskMirror(db, s, m);
    var after := WithTask(db1, m, row);
    assert SubtaskMirrors(after, s) <= {m} by {
      assert forall t <- db.tasks :: t != m ==> db.tasks[t].sourceSubtask != Some(s);
    }
    MovedShows(db, db1, board, column, m, s, srow, now);
    MovedPlaced(db, db1, board, column, m, s, srow, user, now);
  }

  lemma OnlySubtaskMirror(db: Db, s: Schema.Id, m: Schema.Id)
    requires Consistent(db) && m in SubtaskMirrors(db, s)
    ensures forall t <- db.tasks :: t != m ==> db.tasks[t].sourceSubtask != Some(s)
  {
    CoreOf(db);
    hide Consistent, Core;
    MirrorFields(db, s, m);
  }

  lemma MovedShows(db: Db, db1: Db, board: Schema.Id, column: Schema.Id, m: Schema.Id, s: Schema.Id, srow: Subtask, now: int)
    requires m in db.tasks && srow.task in db.tasks && board in db1.boards
    ensures ShowsSubtask(MovedMirror(db, db1, board, column, m, s, srow, now), s, srow, db.tasks[srow.task], now)
  {
    hide SubtaskMirrorRow, NextInColumn, Rehomed;
    var base := Rehomed(db.tasks[m], db1.boards[board].workspace, board, column, NextInColumn(db1.tasks, Some(column)));
    RowShowsSubtask(base, srow, s, db.tasks[srow.task], now);
  }

  lemma MovedPlaced(db: Db, db1: Db, board: Schema.Id, column: Schema.Id, m: Schema.Id, s: Schema.Id, srow: Subtask, user: Schema.Id, now: int)
    requires m in db.tasks && srow.task in db.tasks && board in db1.boards && db1.tasks == db.tasks && TakesIncoming(db1, user, board, column)
    ensures SubtaskMirrorPlaced(db, WithTask(db1, m, MovedMirror(db, db1, board, column, m, s, srow, now)), m, user)
  {
    hide SubtaskMirrorRow, NextInColumn, TakesIncoming, LastInColumn;
    var base := Rehomed(db.tasks[m], db1.boards[board].workspace, board, column, NextInColumn(db1.tasks, Some(column)));
    RowShowsSubtask(base, srow, s, db.tasks[srow.task], now);
    var row := MovedMirror(db, db1, board, column, m, s, srow, now);
    var after := WithTask(db1, m, row);
    SameTakesIncoming(db1, after, user, board, column);
    NextIsAboveAll(db1.tasks, Some(column));
    if row.board != db.tasks[m].board {
      AppendedIsLast(db1, m, row, column);
    }
  }

  /** After any change of an assigned subtask of a project task, its mirror. */
  lemma SubtaskMirrorIs(db: Db, s: Schema.Id, srow: Subtask, user: Schema.Id, now: int)
    requires Consistent(db) && Shown(db, s, srow, user)
    ensures var after := SyncSubtask(WithSubtask(db, s, srow), s, now);
            forall m <- SubtaskMirrors(after, s) ::
              ShowsSubtask(after.tasks[m], s, srow, db.tasks[srow.task], now) && SubtaskMirrorPlaced(db, after, m, user)
  {
    hide Consistent, PlaceSubtaskMirror, ShowsSubtask, SubtaskMirrorPlaced, DeleteTasks;
    if SubtaskMirrors(db, s) == {} {
      NewSubtaskMirror(db, s, srow, user, now);
    } else {
      OldSubtaskMirror(db, s, srow, user, now);
    }
  }

  /** The synchronisation changes no subtask that is left. */
  lemma SyncKeepsSubtasks(db: Db, s: Schema.Id, now: int)
    requires WellFormed(db) && s in db.subtasks && db.subtasks[s].task in db.tasks
    ensures forall o <- SyncSubtask(db, s, now).subtasks :: o in db.subtasks && SyncSubtask(db, s, now).subtasks[o] == db.subtasks[o]
  {
    hide WellFormed, Intake, Family, SubtasksOf, NextInColumn, SubtaskMirrorRow, Unlinked, Rehomed;
    if db.subtasks[s].assignee.Some? {
      IntakeOk(db, db.subtasks[s].assignee.value);
    }
  }

  /** A change of a subtask: the supplied fields, and its next version. */
  lemma SubtaskChanged(db: Db, id: Schema.Id, supplied: nat, title: Option<string>, forUser: Option<Option<Schema.Id>>,
                       done: Option<bool>, now: int)
    requires Consistent(db) && UpdateSubtask(db, id, supplied, title, forUser, done, now).Ok?
    ensures var after := UpdateSubtask(db, id, supplied, title, forUser, done, now).value;
            && id in db.subtasks && db.subtasks[id].version == supplied && id in after.subtasks
            && after.subtasks[id].title == (if title.Some? then title.value else db.subtasks[id].title)
            && after.subtasks[id].assignee == (if forUser.Some? then forUser.value else db.subtasks[id].assignee)
            && after.subtasks[id].done == (if done.Some? then done.value else db.subtasks[id].done)
            && after.subtasks[id].task == db.subtasks[id].task && after.subtasks[id].version == supplied + 1
            && forall o <- after.subtasks :: o != id ==> o in db.subtasks && after.subtasks[o] == db.subtasks[o]
  {
    hide Consistent, SyncSubtask;
    UpdateSubtaskKeeps(db, id, supplied, title, forUser, done, now);
    var s := db.subtasks[id];
    var row := Subtask(s.task, Or(title, s.title), Or(forUser, s.assignee), Or(done, s.done), s.version + 1);
    SubtaskWellFormed(db, id, row);
    SyncKeepsSubtasks(WithSubtask(db, id, row), id, now);
    hide SubtaskMirrorExact, WellFormed;
    ExactIsThere(UpdateSubtask(db, id, supplied, title, forUser, done, now).value, id);
  }

  lemma ExactIsThere(db: Db, s: Schema.Id)
    requires SubtaskMirrorExact(db, s)
    ensures s in db.subtasks
  {
  }

  /** A new subtask is open and as requested. */
  lemma SubtaskCreated(db: Db, task: Schema.Id, title: string, user: Option<Schema.Id>, now: int)
    requires Consistent(db) && CreateSubtask(db, task, title, user, now).Ok?
    ensures var after := CreateSubtask(db, task, title, user, now).value;
            && db.nextId !in db.subtasks && db.nextId in after.subtasks && after.subtasks[db.nextId] == Subtask(task, title, user, false, 1)
            && forall o <- after.subtasks :: o != db.nextId ==> o in db.subtasks && after.subtasks[o] == db.subtasks[o]
  {
    hide Consistent, SyncSubtask;
    CreateSubtaskKeeps(db, task, title, user, now);
    NewSubtaskRow(db, task, title, user);
    var db1 := db.(subtasks := db.subtasks[db.nextId := Subtask(task, title, user, false, 1)], nextId := db.nextId + 1);
    SyncKeepsSubtasks(db1, db.nextId, now);
    hide SubtaskMirrorExact, WellFormed;
    ExactIsThere(CreateSubtask(db, task, title, user, now).value, db.nextId);
  }

  lemma NewSubtaskRow(db: Db, task: Schema.Id, title: string, user: Option<Schema.Id>)
    requires Consistent(db)
    ensures db.nextId !in db.subtasks
    ensures WellFormed(db.(subtasks := db.subtasks[db.nextId := Subtask(task, title, user, false, 1)], nextId := db.nextId + 1))
  {
    Apart(db);
    hide ColumnsOk, RowsOk, LinksOk, UniqueMirrors, SubtasksAgree, RouteKeysUnique, AgreeExcept, Consistent;
  }

  // ---------- The checks of a request ----------

  predicate EndsBeforeStart(start: Option<int>, due: Option<int>) {
    start.Some? && due.Some? && due.value < start.value
  }

  /** An update is admitted if its column is on the task's board, its dates are
      not the wrong way round and its version is the current one. */
  lemma AdmittedMeans(db: Db, id: Schema.Id, p: Patch, supplied: Option<nat>)
    requires id in db.tasks
    ensures var t := db.tasks[id];
            var start := if p.content.startDate.Some? then p.content.startDate.value else t.content.startDate;
            var due := if p.content.dueDate.Some? then p.content.dueDate.value else t.content.dueDate;
            UpdateAdmitted(db, id, p, supplied)
            <==> && (p.column.None? || (p.column.value in db.columns && db.columns[p.column.value].board == t.board))
                 && !EndsBeforeStart(start, due) && supplied == Some(t.version)
  {
  }

  /** A creation is refused for another board's column, for dates the wrong way
      round, for a pool task on a personal board, and for a rule that would move
      a new pool task; for nothing else. */
  lemma CreationMeans(db: Db, board: Schema.Id, actor: Schema.Id, data: NewTask, today: int)
    requires Consistent(db)
    ensures CreateTask(db, board, actor, data, today).Ok?
            <==> && board in db.boards
                 && (data.column.None? || (data.column.value in db.columns && db.columns[data.column.value].board == board))
                 && !EndsBeforeStart(data.content.startDate, data.content.dueDate)
                 && (data.pool && data.assignee.None? ==>
                       db.boards[board].ProjectBoard? && !CreationRuleHitsPool(db, board, actor, data, today))
  {
    hide Consistent, CreateTask, CreationRuleHitsPool;
    CreateOutcome(db, board, actor, data, today);
  }
}
