/** An update that names another task's id (apps/workspaces/services.py,
    update_task; apps/workspaces/serializers.py, TaskWriteSerializer). */
module Overwrites {
  import opened Boards
  import opened Columns
  import opened Consistency
  import opened History
  import opened Lifecycle
  import opened Mirroring
  import opened Options
  import opened Placement
  import opened Schema
  import opened Tasks
  import opened Workspace

  // ---------- Saving a canonical row over any row ----------

  lemma CanonicalRowLinks(db: Db, at: Schema.Id, row: Task)
    requires LinksOk(db) && at in db.tasks && Canonical(row) && row.parent.None?
    ensures LinksOk(WithTask(db, at, row))
  {
    var after := WithTask(db, at, row);
    forall t <- after.tasks
      ensures LinkOk(after, after.tasks[t])
    {
      assert t != at ==> LinkOk(db, db.tasks[t]);
    }
  }

  lemma CanonicalRowAgrees(db: Db, at: Schema.Id, row: Task)
    requires AgreeExcept(db, None) && LinksOk(db) && at in db.tasks && Canonical(row)
    ensures AgreeExcept(WithTask(db, at, row), Some(at))
  {
    var after := WithTask(db, at, row);
    forall m <- after.tasks | IsAssignmentMirror(after.tasks[m]) && after.tasks[m].sourceTask != Some(at)
      ensures after.tasks[m].sourceTask.value in after.tasks
              && Agrees(after, after.tasks[after.tasks[m].sourceTask.value], after.tasks[m])
    {
      assert Agrees(db, db.tasks[db.tasks[m].sourceTask.value], db.tasks[m]);
    }
  }

  lemma CanonicalRowCore(db: Db, at: Schema.Id, row: Task)
    requires Core(db) && at in db.tasks && Canonical(row) && row.parent.None? && RowOk(db, row)
    ensures Core(WithTask(db, at, row))
  {
    CanonicalRowUnique(db, at, row);
    SameTables(db, at, row);
    SetRowKeepsRows(db, at, row);
    CanonicalRowLinks(db, at, row);
    hide WellFormed, RowsOk, LinksOk, UniqueMirrors, SubtasksAgree, RouteKeysUnique, RowOk, WithTask;
  }

  lemma CanonicalRowUnique(db: Db, at: Schema.Id, row: Task)
    requires UniqueMirrors(db) && SubtasksAgree(db) && at in db.tasks && Canonical(row)
    ensures UniqueMirrors(WithTask(db, at, row)) && SubtasksAgree(WithTask(db, at, row))
  {
  }

  lemma SaveAndSync(db: Db, at: Schema.Id, row: Task)
    requires Consistent(db) && Canonical(row) && row.parent.None? && RowOk(db, row)
    ensures var saved, id := SavedAs(db, at, row), SavedAt(db, at); Settled(saved, SyncMirror(saved, id), id, row)
  {
    hide Consistent, Core, AgreeExcept, RowOk, LinksOk, RowsOk, WellFormed, IdsDrawn, MirrorExact, OnlyMirrorsDiffer, SyncMirror;
    Parts(db);
    if at in db.tasks {
      CanonicalRowCore(db, at, row);
      CanonicalRowAgrees(db, at, row);
      SyncRestores(WithTask(db, at, row), at);
    } else {
      assert Addable(db, row);
      AddAndSync(db, row);
    }
  }

  // ---------- The outcome of a redirected update ----------

  lemma EditedRowFits(db: Db, id: Schema.Id, p: Patch)
    requires Consistent(db) && id in db.tasks && Canonical(db.tasks[id])
    requires ColumnFits(db, p.column, db.tasks[id].board) && DatesInOrder(Patched(db.tasks[id].content, p.content))
    requires !Releases(db.tasks[id], p) && !HandsOver(db, db.tasks[id], p)
    ensures var row := EditedRow(db, db.tasks[id], p);
            && RowOk(db, row) && Canonical(row) && row.parent.None? && row == Raised(Edited(db, db.tasks[id], p))
  {
    hide Edited, Releases, HandsOver, Patched, Consistent, DatesInOrder;
    EditFits(db, id, p);
    RowAt(db, id);
    hide RowOk;
  }

  lemma SavedIsClean(db: Db, at: Schema.Id, row: Task)
    requires RowOk(db, row) && Canonical(row)
    ensures FullyClean(SavedAs(db, at, row), row)
  {
    SavedOthers(db, at, row);
    hide SavedAs, SavedAt;
  }

  lemma AfterSaveVersion(saved: Db, id: Schema.Id, row: Task, assignee: Option<Schema.Id>, enters: bool, today: int)
    requires id in saved.tasks && Canonical(row) && Settled(saved, SyncMirror(saved, id), id, row)
    requires AfterSave(saved, id, assignee, enters, today).Ok?
    ensures var after := AfterSave(saved, id, assignee, enters, today).value;
            id in after.tasks && row.version <= after.tasks[id].version && Follows(SyncMirror(saved, id), after)
  {
    hide Consistent, SyncMirror, AutomateIf, OnlyMirrorsDiffer, MirrorExact, ColumnsFollow;
    var synced := SyncMirror(saved, id);
    var changed := row.assignee != assignee;
    AutomateIfFollows(synced, id, changed, TaskAssigned, today);
    var reassigned := AutomateIf(synced, id, changed, TaskAssigned, today).value;
    AutomateIfFollows(reassigned, id, enters, ColumnEntered, today);
    var after := AutomateIf(reassigned, id, enters, ColumnEntered, today).value;
    assert RowFollows(synced.tasks[id], reassigned.tasks[id]) && RowFollows(reassigned.tasks[id], after.tasks[id]);
    Apart(synced);
    IdsAreDrawn(synced);
    hide WellFormed, RowsOk, LinksOk, UniqueMirrors, SubtasksAgree, RouteKeysUnique, AgreeExcept;
    FollowsTransitive(synced, reassigned, after);
  }

  /** What an accepted redirected update of a canonical task does: the edited row
      replaces the named one or is added, with its own mirror, and the task
      itself stays as it was. The workspace stays consistent. */
  lemma OverwriteKeeps(db: Db, id: Schema.Id, at: Schema.Id, p: Patch, supplied: Option<nat>, today: int)
    requires Consistent(db) && id in db.tasks && Canonical(db.tasks[id]) && Redirected(db, id, Some(at), p)
    requires OverwriteTask(db, id, at, p, supplied, today).Ok?
    ensures var after, place := OverwriteTask(db, id, at, p, supplied, today).value, SavedAt(db, at);
            && Consistent(after) && place in after.tasks && MirrorExact(after, place)
            && Cosmetic(EditedRow(db, db.tasks[id], p), after.tasks[place]) && db.tasks[id].version < after.tasks[place].version
            && id in after.tasks && after.tasks[id] == db.tasks[id]
            && (forall t <- db.tasks :: t != place && Canonical(db.tasks[t]) ==> t in after.tasks && after.tasks[t] == db.tasks[t])
  {
    hide Consistent, SyncMirror, Patched, DatesInOrder, FullyClean, Edited, AfterSave, Settled, RowOk, Releases, HandsOver, Cosmetic;
    AdmittedIsChecked(db, id, p, supplied, today);
    EditedRowFits(db, id, p);
    EditedRowVersion(db, id, p);
    var row, place := EditedRow(db, db.tasks[id], p), SavedAt(db, at);
    var saved := SavedAs(db, at, row);
    SaveAndSync(db, at, row);
    AfterSaveKeeps(saved, place, row, db.tasks[id].assignee, EntersColumn(db, db.tasks[id], p), today);
    AfterSaveVersion(saved, place, row, db.tasks[id].assignee, EntersColumn(db, db.tasks[id], p), today);
    hide Follows;
    NextIsNoTask(db);
    SettledDiffers(saved, place, row);
    OthersStay(db, at, row, SyncMirror(saved, place));
  }

  lemma EditedRowVersion(db: Db, id: Schema.Id, p: Patch)
    requires id in db.tasks
    ensures EditedRow(db, db.tasks[id], p).version == db.tasks[id].version + 1
  {
    hide Patched, NextInColumn, NextInPool;
  }

  lemma NextIsNoTask(db: Db)
    requires Consistent(db)
    ensures db.nextId !in db.tasks
  {
    Apart(db);
    NextIdUnused(db);
  }

  lemma SettledDiffers(saved: Db, id: Schema.Id, row: Task)
    requires id in saved.tasks && Settled(saved, SyncMirror(saved, id), id, row)
    ensures OnlyMirrorsDiffer(saved, SyncMirror(saved, id), id)
  {
    hide SyncMirror, Consistent, MirrorExact, OnlyMirrorsDiffer;
  }

  lemma SavedOthers(db: Db, at: Schema.Id, row: Task)
    ensures var saved := SavedAs(db, at, row);
            && saved.boards == db.boards && saved.columns == db.columns && saved.projects == db.projects
            && saved.versions == db.versions && saved.rules == db.rules && db.nextId <= saved.nextId
            && (forall t <- db.tasks :: t != SavedAt(db, at) ==> t in saved.tasks && saved.tasks[t] == db.tasks[t])
            && (forall t <- saved.tasks :: t in db.tasks || t == db.nextId)
  {
    if at in db.tasks {
      SavedOver(db, at, row);
    } else {
      SavedNew(db, at, row);
    }
    hide SavedAs, SavedAt;
  }

  lemma SavedOver(db: Db, at: Schema.Id, row: Task)
    requires at in db.tasks
    ensures SavedAs(db, at, row) == db.(tasks := db.tasks[at := row]) && SavedAt(db, at) == at
  {
  }

  lemma SavedNew(db: Db, at: Schema.Id, row: Task)
    requires at !in db.tasks
    ensures SavedAs(db, at, row) == db.(tasks := db.tasks[db.nextId := row], nextId := db.nextId + 1) && SavedAt(db, at) == db.nextId
  {
  }

  lemma OthersStay(db: Db, at: Schema.Id, row: Task, synced: Db)
    requires OnlyMirrorsDiffer(SavedAs(db, at, row), synced, SavedAt(db, at))
    ensures forall t <- db.tasks :: t != SavedAt(db, at) && Canonical(db.tasks[t]) ==> t in synced.tasks && synced.tasks[t] == db.tasks[t]
  {
    SavedOthers(db, at, row);
    hide SavedAs, SavedAt;
  }

  /** Nothing compares the version of the row that is replaced: acceptance is
      decided by the version of task `id` and the fields alone, rules aside. */
  lemma OverwriteOutcome(db: Db, id: Schema.Id, at: Schema.Id, p: Patch, supplied: Option<nat>, today: int)
    requires Consistent(db) && id in db.tasks && Canonical(db.tasks[id]) && Redirected(db, id, Some(at), p)
    ensures OverwriteTask(db, id, at, p, supplied, today).Ok?
            <==> UpdateAdmitted(db, id, p, supplied) && !PoolEditMeetsRule(db, db.tasks[id], p, today)
  {
    hide Consistent, SyncMirror, Patched, DatesInOrder, FullyClean, Edited, AfterSave, Settled, RowOk, Releases, HandsOver, PoolEditMeetsRule, EntersColumn, ColumnFits;
    AdmittedIsChecked(db, id, p, supplied, today);
    if UpdateAdmitted(db, id, p, supplied) {
      EditedRowFits(db, id, p);
      var row := EditedRow(db, db.tasks[id], p);
      SavedIsClean(db, at, row);
      SaveAndSync(db, at, row);
      if db.tasks[id].pool {
        PooledUnassigned(db, id);
      }
      EditOutcome(db, id, p, SavedAs(db, at, row), SavedAt(db, at), today);
    }
  }

  // ---------- What a redirected update breaks ----------

  lemma GrowsTransitive(a: Db, b: Db, c: Db)
    requires IdsDrawn(a) && Grows(a, b) && Grows(b, c)
    ensures Grows(a, c)
  {
    forall k <- a.columns | k in c.columns
      ensures c.columns[k].board == a.columns[k].board && c.columns[k].role == a.columns[k].role
    {
      assert k in b.columns;
    }
  }

  lemma SavedGrows(db: Db, at: Schema.Id, row: Task)
    requires WellFormed(db)
    ensures Grows(db, SavedAs(db, at, row)) && WellFormed(SavedAs(db, at, row))
  {
    if at in db.tasks {
      SetRowWellFormed(db, at, row);
    } else {
      NewRowWellFormed(db, row);
    }
    SavedOthers(db, at, row);
    hide SavedAs, SavedAt, WellFormed;
  }

  lemma FollowsGrows(a: Db, b: Db)
    requires Follows(a, b)
    ensures Grows(a, b)
  {
    hide ColumnsFollow;
  }

  /** Columns, intake columns, ids and versions of boards keep their promises. */
  lemma OverwriteGrows(db: Db, id: Schema.Id, at: Schema.Id, p: Patch, supplied: Option<nat>, today: int)
    requires Consistent(db) && id in db.tasks && Canonical(db.tasks[id]) && Redirected(db, id, Some(at), p)
    requires OverwriteTask(db, id, at, p, supplied, today).Ok?
    ensures Grows(db, OverwriteTask(db, id, at, p, supplied, today).value)
  {
    hide Consistent, SyncMirror, Patched, DatesInOrder, FullyClean, Edited, AfterSave, Settled, RowOk, Releases, HandsOver, Grows, Follows, WellFormed, EntersColumn, ColumnFits;
    AdmittedIsChecked(db, id, p, supplied, today);
    EditedRowFits(db, id, p);
    var row, place := EditedRow(db, db.tasks[id], p), SavedAt(db, at);
    var saved := SavedAs(db, at, row);
    var after := OverwriteTask(db, id, at, p, supplied, today).value;
    Apart(db);
    IdsAreDrawn(db);
    SaveAndSync(db, at, row);
    SavedGrows(db, at, row);
    SyncGrows(saved, place);
    AfterSaveVersion(saved, place, row, db.tasks[id].assignee, EntersColumn(db, db.tasks[id], p), today);
    FollowsGrows(SyncMirror(saved, place), after);
    GrowsTransitive(db, saved, SyncMirror(saved, place));
    GrowsTransitive(db, SyncMirror(saved, place), after);
  }

  // ---------- The version that is written ----------

  function Extra(target: Option<Schema.Id>): nat {
    if target.Some? then 1 else 0
  }

  function MovedTo(t: Task, target: Option<Schema.Id>): Task {
    if target.Some? then t.(column := target) else t
  }

  /** Where the assignment rules move a saved row, if its assignee has changed. */
  function AssignmentTarget(db: Db, row: Task, assignee: Option<Schema.Id>, today: int): Option<Schema.Id> {
    if row.assignee != assignee then RuleTarget(db, row, TaskAssigned, db.rules, today) else None
  }

  /** Where the column rules move it from there, if the request names a column. */
  function EntryTarget(db: Db, row: Task, assignee: Option<Schema.Id>, enters: bool, today: int): Option<Schema.Id> {
    if enters then RuleTarget(db, MovedTo(row, AssignmentTarget(db, row, assignee, today)), ColumnEntered, db.rules, today) else None
  }

  /** The version an update of the task leaves behind under another id: one more
      than the task's, and one more for each rule that moves the row. */
  function WrittenVersion(db: Db, t: Task, p: Patch, today: int): nat {
    var row := EditedRow(db, t, p);
    t.version + 1 + Extra(AssignmentTarget(db, row, t.assignee, today))
    + Extra(EntryTarget(db, row, t.assignee, EntersColumn(db, t, p), today))
  }

  lemma AutomateMoves(db: Db, origin: Db, id: Schema.Id, fires: bool, trigger: Trigger, today: int)
    requires id in db.tasks && AutomateIf(db, id, fires, trigger, today).Ok? && db.rules == origin.rules
    requires OnBoard(db.columns, db.tasks[id].board) == OnBoard(origin.columns, db.tasks[id].board)
    ensures var t, after := db.tasks[id], AutomateIf(db, id, fires, trigger, today).value;
            var target := if fires then RuleTarget(origin, t, trigger, origin.rules, today) else None;
            && id in after.tasks && after.columns == db.columns && after.rules == db.rules
            && after.tasks[id].version == t.version + Extra(target) && SameFace(after.tasks[id], MovedTo(t, target))
  {
    hide RuleTarget, OnBoard, NextInColumn;
    RuleTargetFrame(db, origin, db.tasks[id], trigger, db.rules, today);
  }

  lemma TriggersRaise(saved: Db, origin: Db, id: Schema.Id, assignee: Option<Schema.Id>, enters: bool, today: int)
    requires id in saved.tasks && AfterSave(saved, id, assignee, enters, today).Ok?
    requires var synced := SyncMirror(saved, id);
             && id in synced.tasks && synced.tasks[id] == saved.tasks[id] && synced.rules == origin.rules
             && OnBoard(synced.columns, saved.tasks[id].board) == OnBoard(origin.columns, saved.tasks[id].board)
    ensures var after, row := AfterSave(saved, id, assignee, enters, today).value, saved.tasks[id];
            id in after.tasks && after.tasks[id].version
              == row.version + Extra(AssignmentTarget(origin, row, assignee, today)) + Extra(EntryTarget(origin, row, assignee, enters, today))
  {
    hide SyncMirror, AutomateIf, RuleTarget, OnBoard;
    var synced, row := SyncMirror(saved, id), saved.tasks[id];
    AutomateMoves(synced, origin, id, row.assignee != assignee, TaskAssigned, today);
    var reassigned := AutomateIf(synced, id, row.assignee != assignee, TaskAssigned, today).value;
    AutomateMoves(reassigned, origin, id, enters, ColumnEntered, today);
    RuleTargetFace(origin, reassigned.tasks[id], MovedTo(row, AssignmentTarget(origin, row, assignee, today)), ColumnEntered, origin.rules, today);
  }

  lemma IntakeElsewhere(db: Db, user: Schema.Id, other: Schema.Id)
    requires WellFormed(db) && other in db.boards && db.boards[other].ProjectBoard?
    ensures OnBoard(Intake(db, user).0.columns, other) == OnBoard(db.columns, other)
  {
    hide WellFormed, WithIntake, EnsureBoard, OnBoard, Extends;
    EnsureBoardOk(db, user);
    EnsureBoardElsewhere(db, user, other);
    var (db1, board) := EnsureBoard(db, user);
    assert board != other by { Kept(db, db1, other); }
    WithIntakeElsewhere(db1, board, user, other);
  }

  lemma Kept(db: Db, after: Db, board: Schema.Id)
    requires Extends(db, after) && board in db.boards
    ensures board in after.boards && after.boards[board] == db.boards[board]
  {
  }

  /** The synchronisation adds no column to the board of the task it is for. */
  lemma SyncElsewhere(db: Db, id: Schema.Id)
    requires WellFormed(db) && id in db.tasks
    ensures OnBoard(SyncMirror(db, id).columns, db.tasks[id].board) == OnBoard(db.columns, db.tasks[id].board)
    ensures SyncMirror(db, id).rules == db.rules
  {
    hide WellFormed, Family, SubtasksOf, Unlinked, Intake, OnBoard, NextInColumn, NewMirror, RefreshedMirror;
    var t := db.tasks[id];
    if OnProjectBoard(db, t) && Canonical(t) && t.assignee.Some? {
      IntakeElsewhere(db, t.assignee.value, t.board);
      IntakeRules(db, t.assignee.value);
    }
  }

  lemma IntakeRules(db: Db, user: Schema.Id)
    requires WellFormed(db)
    ensures Intake(db, user).0.rules == db.rules
  {
    hide WellFormed, Intake;
    IntakeOk(db, user);
  }

  /** The version in the end is the one that can be told from the request. */
  lemma OverwriteVersion(db: Db, id: Schema.Id, at: Schema.Id, p: Patch, supplied: Option<nat>, today: int)
    requires Consistent(db) && id in db.tasks && Canonical(db.tasks[id]) && Redirected(db, id, Some(at), p)
    requires OverwriteTask(db, id, at, p, supplied, today).Ok?
    ensures var after := OverwriteTask(db, id, at, p, supplied, today).value;
            SavedAt(db, at) in after.tasks && after.tasks[SavedAt(db, at)].version == WrittenVersion(db, db.tasks[id], p, today)
  {
    hide Consistent, SyncMirror, Patched, DatesInOrder, FullyClean, EditedRow, AfterSave, Settled, RowOk, Releases, HandsOver,
         AssignmentTarget, EntryTarget, EntersColumn, ColumnFits, WellFormed, SavedAs, SavedAt, OnBoard;
    AdmittedIsChecked(db, id, p, supplied, today);
    EditedRowFits(db, id, p);
    EditedRowVersion(db, id, p);
    var row, place := EditedRow(db, db.tasks[id], p), SavedAt(db, at);
    var saved := SavedAs(db, at, row);
    SaveAndSync(db, at, row);
    SettledRow(saved, place, row);
    Apart(db);
    SavedGrows(db, at, row);
    SavedOthers(db, at, row);
    SyncElsewhere(saved, place);
    TriggersRaise(saved, db, place, db.tasks[id].assignee, EntersColumn(db, db.tasks[id], p), today);
  }

  lemma SettledRow(saved: Db, id: Schema.Id, row: Task)
    requires id in saved.tasks && Settled(saved, SyncMirror(saved, id), id, row)
    ensures id in SyncMirror(saved, id).tasks && SyncMirror(saved, id).tasks[id] == row
  {
    hide SyncMirror, Consistent, MirrorExact, OnlyMirrorsDiffer;
  }

  /** The replaced row, if there was one, was of no promise, or of the same
      origin and no later version. */
  predicate MayReplace(db: Db, at: Schema.Id, origin: Option<Schema.Id>, version: nat) {
    at in db.tasks && Canonical(db.tasks[at]) ==> Origin(db.tasks[at]) == origin && db.tasks[at].version <= version
  }

  /** Origins and versions are kept exactly if the named id is unused, a mirror's,
      or that of a task of the same origin whose version is not beyond the one
      that is written. */
  lemma OverwriteFollows(db: Db, id: Schema.Id, at: Schema.Id, p: Patch, supplied: Option<nat>, today: int)
    requires Consistent(db) && id in db.tasks && Canonical(db.tasks[id]) && Redirected(db, id, Some(at), p)
    requires OverwriteTask(db, id, at, p, supplied, today).Ok?
    ensures var after := OverwriteTask(db, id, at, p, supplied, today).value;
            && SavedAt(db, at) in after.tasks
            && (Follows(db, after) <==> MayReplace(db, at, Origin(db.tasks[id]), WrittenVersion(db, db.tasks[id], p, today)))
  {
    hide Consistent, OverwriteTask, EditedRow, Redirected, MirrorExact, Grows, Follows, RowFollows, MayReplace, WrittenVersion;
    OverwriteKeeps(db, id, at, p, supplied, today);
    OverwriteGrows(db, id, at, p, supplied, today);
    OverwriteVersion(db, id, at, p, supplied, today);
    EditedOrigin(db, id, p);
    NextIsNoTask(db);
    OneRowDecides(db, OverwriteTask(db, id, at, p, supplied, today).value, at, Origin(db.tasks[id]));
  }

  lemma OneRowDecides(db: Db, after: Db, at: Schema.Id, origin: Option<Schema.Id>)
    requires Grows(db, after) && db.nextId !in db.tasks && SavedAt(db, at) in after.tasks
    requires forall t <- db.tasks :: t != SavedAt(db, at) && Canonical(db.tasks[t]) ==> t in after.tasks && after.tasks[t] == db.tasks[t]
    requires Canonical(after.tasks[SavedAt(db, at)]) && Origin(after.tasks[SavedAt(db, at)]) == origin
    ensures Follows(db, after) <==> MayReplace(db, at, origin, after.tasks[SavedAt(db, at)].version)
  {
    hide ColumnsFollow, VersionsGrow;
    forall t <- db.tasks | t in after.tasks && t != SavedAt(db, at)
      ensures RowFollows(db.tasks[t], after.tasks[t])
    {
    }
    hide Origin;
  }

  lemma EditedOrigin(db: Db, id: Schema.Id, p: Patch)
    requires id in db.tasks
    ensures Origin(EditedRow(db, db.tasks[id], p)) == Origin(db.tasks[id])
    ensures Canonical(EditedRow(db, db.tasks[id], p)) == Canonical(db.tasks[id])
  {
    hide Patched, NextInColumn, NextInPool;
  }
}
