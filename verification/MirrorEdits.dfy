/** Edits of mirrors: which of them the source would have to follow
    (apps/workspaces/services.py, update_task and archive_task). */
module MirrorEdits {
  import opened Boards
  import opened Columns
  import opened Consistency
  import opened History
  import opened Lifecycle
  import opened Mirroring
  import opened Options
  import opened Overwrites
  import opened Placement
  import opened Schema
  import opened Subtasks
  import opened Tasks
  import opened Workspace

  // ---------- Saving a mirror's row ----------

  /** A mirror has no mirror, so its synchronisation does nothing. */
  lemma MirrorSyncIdle(db: Db, saved: Db, m: Schema.Id)
    requires Consistent(db) && m in db.tasks && !Canonical(db.tasks[m])
    requires m in saved.tasks && !Canonical(saved.tasks[m])
    requires forall t <- saved.tasks :: t in db.tasks && saved.tasks[t].sourceTask == db.tasks[t].sourceTask
    ensures SyncMirror(saved, m) == saved
  {
    NoMirrorOfMirror(db, m);
    assert AssignmentMirrors(saved, m) == {};
    SyncOfMirrorFollows(saved, m);
  }

  /** The triggers move one row within its board. */
  lemma AfterSaveMoves(saved: Db, m: Schema.Id, assignee: Option<Schema.Id>, enters: bool, today: int)
    requires m in saved.tasks && SyncMirror(saved, m) == saved && AfterSave(saved, m, assignee, enters, today).Ok?
    ensures var after := AfterSave(saved, m, assignee, enters, today).value;
            m in after.tasks && after == WithTask(saved, m, after.tasks[m]) && Cosmetic(saved.tasks[m], after.tasks[m])
            && after.tasks[m].workspace == saved.tasks[m].workspace
    ensures Consistent(saved) ==> Consistent(AfterSave(saved, m, assignee, enters, today).value)
  {
    hide Consistent, Automate, SyncMirror;
    var changed := saved.tasks[m].assignee != assignee;
    RuleMoves(saved, m, changed, TaskAssigned, today);
    var reassigned := AutomateIf(saved, m, changed, TaskAssigned, today).value;
    RuleMoves(reassigned, m, enters, ColumnEntered, today);
  }

  lemma RuleMoves(db: Db, id: Schema.Id, fires: bool, trigger: Trigger, today: int)
    requires id in db.tasks && AutomateIf(db, id, fires, trigger, today).Ok?
    ensures var after := AutomateIf(db, id, fires, trigger, today).value;
            id in after.tasks && after == WithTask(db, id, after.tasks[id]) && Cosmetic(db.tasks[id], after.tasks[id])
            && after.tasks[id].workspace == db.tasks[id].workspace
    ensures Consistent(db) ==> Consistent(AutomateIf(db, id, fires, trigger, today).value)
  {
    hide Consistent, RuleTarget, NextInColumn;
    assert db.tasks == db.tasks[id := db.tasks[id]];
    if fires && Consistent(db) {
      AutomateKeeps(db, id, trigger, today);
    }
  }

  // ---------- The row an accepted update of a mirror saves ----------

  /** The saved state, with the links of every row as they were. */
  ghost predicate SavesMirror(db: Db, saved: Db, m: Schema.Id) {
    && m in db.tasks && m in saved.tasks && saved.tasks.Keys == db.tasks.Keys
    && (forall t <- db.tasks :: t != m ==> saved.tasks[t] == db.tasks[t])
    && saved.tasks[m].sourceTask == db.tasks[m].sourceTask && saved.tasks[m].sourceSubtask == db.tasks[m].sourceSubtask
    && saved.tasks[m].parent == db.tasks[m].parent
  }

  lemma IntakeSavesMirror(db: Db, m: Schema.Id, poolSource: Option<Schema.Id>, user: Schema.Id)
    requires Consistent(db) && m in db.tasks
    ensures var saved, row := SendTo(db, m, poolSource, user), db.tasks[m];
            && SavesMirror(db, saved, m) && saved.tasks[m].project.None? && saved.tasks[m].content == row.content
            && saved.tasks[m].done == row.done && !saved.tasks[m].pool
    ensures var mid := Intake(db, user).0;
            && Consistent(mid) && mid.tasks == db.tasks && SendTo(db, m, poolSource, user) == WithTask(mid, m, SendTo(db, m, poolSource, user).tasks[m])
            && OnPersonalBoard(mid, SendTo(db, m, poolSource, user).tasks[m])
            && ColumnFits(mid, SendTo(db, m, poolSource, user).tasks[m].column, SendTo(db, m, poolSource, user).tasks[m].board)
  {
    hide Consistent, Intake, NextInColumn;
    IntakeConsistent(db, user);
  }

  lemma WriteSavesMirror(db: Db, m: Schema.Id, row: Task)
    requires m in db.tasks && row.sourceTask == db.tasks[m].sourceTask && row.sourceSubtask == db.tasks[m].sourceSubtask
    requires row.parent == db.tasks[m].parent
    ensures SavesMirror(db, WithTask(db, m, row), m)
  {
  }

  lemma ReleasedMirror(db: Db, m: Schema.Id, p: Patch)
    requires m in db.tasks && Releases(db.tasks[m], p) && Routed(db, m, p).Ok?
    ensures SavesMirror(db, Routed(db, m, p).value, m) && Routed(db, m, p).value.tasks[m].pool
  {
    var source := ReleaseProject(db.tasks[m]).value;
    var row := Released(db, db.tasks[m], source);
    assert Routed(db, m, p).value == WithTask(db, m, Raised(row)) by { hide Released, Releases; }
    hide Routed, Releases, NextInPool;
    WriteSavesMirror(db, m, Raised(row));
  }

  lemma EditedMirror(db: Db, m: Schema.Id, p: Patch)
    requires m in db.tasks && !Releases(db.tasks[m], p) && !HandsOver(db, db.tasks[m], p)
    ensures Routed(db, m, p) == Ok(WithTask(db, m, Raised(Edited(db, db.tasks[m], p))))
    ensures SavesMirror(db, Routed(db, m, p).value, m)
  {
    EditedIs(db, m, p);
    hide Routed, Releases, HandsOver, NextInPool, NextInColumn, Patched;
    WriteSavesMirror(db, m, Raised(Edited(db, db.tasks[m], p)));
  }

  lemma SentMirror(db: Db, m: Schema.Id, p: Patch) returns (o: Option<Schema.Id>)
    requires Consistent(db) && m in db.tasks && !Releases(db.tasks[m], p) && HandsOver(db, db.tasks[m], p)
    ensures RequestedAssignee(db.tasks[m], p).Some?
    ensures Routed(db, m, p) == Ok(SendTo(db, m, o, RequestedAssignee(db.tasks[m], p).value))
    ensures SavesMirror(db, Routed(db, m, p).value, m)
  {
    var t := db.tasks[m];
    HandOverUnpools(db, t, p);
    o := if t.project.Some? && t.poolSource.None? then t.project else t.poolSource;
    assert Routed(db, m, p) == Ok(SendTo(db, m, o, RequestedAssignee(t, p).value)) by { hide SendTo, Releases, HandsOver; }
    hide Consistent, SendTo, Routed, HandsOver, Releases;
    IntakeSavesMirror(db, m, o, RequestedAssignee(t, p).value);
  }

  lemma RoutedSavesMirror(db: Db, m: Schema.Id, p: Patch)
    requires Consistent(db) && m in db.tasks && Routed(db, m, p).Ok?
    ensures SavesMirror(db, Routed(db, m, p).value, m)
  {
    hide Consistent, Routed, Releases, HandsOver, SendTo, Edited, SavesMirror;
    if Releases(db.tasks[m], p) {
      ReleasedMirror(db, m, p);
    } else if HandsOver(db, db.tasks[m], p) {
      var o := SentMirror(db, m, p);
    } else {
      EditedMirror(db, m, p);
    }
  }

  /** What an accepted update of a mirror comes to. */
  lemma MirrorUpdateIs(db: Db, m: Schema.Id, p: Patch, supplied: Option<nat>, today: int)
    requires Consistent(db) && m in db.tasks && !Canonical(db.tasks[m]) && UpdateTask(db, m, p, supplied, today).Ok?
    ensures Routed(db, m, p).Ok?
    ensures var saved, after := Routed(db, m, p).value, UpdateTask(db, m, p, supplied, today).value;
            && SavesMirror(db, saved, m) && m in after.tasks && after == WithTask(saved, m, after.tasks[m])
            && Cosmetic(saved.tasks[m], after.tasks[m]) && (Consistent(saved) ==> Consistent(after))
            && ColumnFits(db, if p.column.Some? then p.column else db.tasks[m].column, db.tasks[m].board)
            && RowAllowed(saved.tasks[m])
  {
    hide Consistent, Routed, SyncMirror, AfterSave, EntersColumn, Patched, ColumnFits, RowAllowed;
    RoutedSavesMirror(db, m, p);
    var saved := Routed(db, m, p).value;
    MirrorSyncIdle(db, saved, m);
    AfterSaveMoves(saved, m, db.tasks[m].assignee, EntersColumn(db, db.tasks[m], p), today);
  }

  // ---------- Updates that the source would have to follow ----------

  lemma PooledMirrorIsNone(db: Db, m: Schema.Id)
    requires Consistent(db) && m in db.tasks && !Canonical(db.tasks[m])
    ensures !db.tasks[m].pool
  {
    hide Consistent;
    RowAt(db, m);
  }

  lemma SourceHasProject(db: Db, m: Schema.Id)
    requires Consistent(db) && m in db.tasks && IsAssignmentMirror(db.tasks[m])
    ensures var s := db.tasks[m].sourceTask.value;
            && s in db.tasks && s != m && db.tasks[s].project.Some? && db.tasks[m].project == db.tasks[s].project
            && db.tasks[m].content == db.tasks[s].content && db.tasks[m].assignee.Some?
            && OnPersonalBoard(db, db.tasks[m]) && db.tasks[m].assignee == Some(db.boards[db.tasks[m].board].owner)
  {
    var s := db.tasks[m].sourceTask.value;
    MirrorFacts(db, m, s);
    RowAt(db, s);
    hide Consistent;
  }

  /** An inconsistent end of an update of an assignment mirror. */
  lemma SourceDisagrees(db: Db, after: Db, m: Schema.Id)
    requires Consistent(db) && m in db.tasks && IsAssignmentMirror(db.tasks[m]) && SavesMirror(db, after, m)
    requires after.tasks[m].project != db.tasks[m].project || after.tasks[m].content != db.tasks[m].content
    ensures !Consistent(after)
  {
    hide Consistent;
    SourceHasProject(db, m);
    if Consistent(after) {
      SourceHasProject(after, m);
    }
  }

  lemma SubtaskDisagrees(db: Db, after: Db, m: Schema.Id)
    requires Consistent(db) && m in db.tasks && db.tasks[m].sourceSubtask.Some? && SavesMirror(db, after, m)
    requires after.subtasks == db.subtasks
    requires after.tasks[m].content.title != db.tasks[m].content.title || after.tasks[m].content.startDate.Some?
    ensures !Consistent(after)
  {
    hide Consistent;
    SubtaskShown(db, m);
    if Consistent(after) {
      SubtaskShown(after, m);
    }
  }

  lemma SubtaskShown(db: Db, m: Schema.Id)
    requires Consistent(db) && m in db.tasks && db.tasks[m].sourceSubtask.Some?
    ensures var s := db.tasks[m].sourceSubtask.value;
            && s in db.subtasks && db.tasks[m].content.title == db.subtasks[s].title && db.tasks[m].done == db.subtasks[s].done
            && db.tasks[m].content.startDate.None?
  {
    RowAt(db, m);
    Apart(db);
    hide WellFormed, RowsOk, LinksOk, UniqueMirrors, RouteKeysUnique, AgreeExcept;
  }

  lemma SavedThenMoved(db: Db, saved: Db, after: Db, m: Schema.Id)
    requires SavesMirror(db, saved, m) && m in after.tasks && after == WithTask(saved, m, after.tasks[m]) && Cosmetic(saved.tasks[m], after.tasks[m])
    ensures SavesMirror(db, after, m) && after.subtasks == saved.subtasks && after.tasks[m].pool == saved.tasks[m].pool
    ensures after.tasks[m].content == saved.tasks[m].content && after.tasks[m].project == saved.tasks[m].project
  {
  }

  // ---------- Updates that leave the mirror a mirror ----------

  /** A mirror's row replaced by one that shows the same. */
  lemma SaveHarmless(db: Db, m: Schema.Id, row: Task)
    requires Consistent(db) && m in db.tasks && !Canonical(db.tasks[m]) && SameLinks(db.tasks[m], row) && RowOk(db, row)
    requires IsAssignmentMirror(row) ==> SameShown(db.tasks[m], row)
    requires row.sourceSubtask.Some? ==> row.done == db.tasks[m].done && row.content.title == db.tasks[m].content.title
    ensures Consistent(WithTask(db, m, row))
  {
    hide Core, AgreeExcept, RowOk;
    Parts(db);
    SetRowKeepsCore(db, m, row);
    if row.sourceSubtask.Some? {
      SetSubtaskMirrorKeepsAgreement(db, m, row);
    } else {
      SetShownKeepsAgreement(db, m, row, None);
    }
  }

  lemma EditedRowKeeps(db: Db, t: Task, p: Patch)
    requires !Releases(t, p) && !HandsOver(db, t, p) && !t.pool
    ensures var row := Raised(Edited(db, t, p));
            && row.content == Patched(t.content, p.content) && !row.pool && row.board == t.board && row.project == t.project
            && row.done == t.done && row.completedAt == t.completedAt && row.owner == t.owner
            && row.sourceTask == t.sourceTask && row.sourceSubtask == t.sourceSubtask && row.parent == t.parent
            && row.assignee == RequestedAssignee(t, p) && (row.column == t.column || (p.column.Some? && row.column == p.column))
  {
    hide Patched, NextInColumn, NextInPool;
  }

  lemma SameAssignee(db: Db, t: Task, p: Patch)
    requires OnPersonalBoard(db, t) && t.assignee == Some(db.boards[t.board].owner) && t.project.Some?
    requires !Releases(t, p) && !HandsOver(db, t, p)
    ensures RequestedAssignee(t, p) == t.assignee
  {
  }

  lemma EditedMirrorRow(db: Db, m: Schema.Id, p: Patch)
    requires Consistent(db) && m in db.tasks && !Canonical(db.tasks[m]) && !Releases(db.tasks[m], p) && !HandsOver(db, db.tasks[m], p)
    requires ColumnFits(db, if p.column.Some? then p.column else db.tasks[m].column, db.tasks[m].board)
    ensures var t, row := db.tasks[m], Raised(Edited(db, db.tasks[m], p));
            && row.content == Patched(t.content, p.content) && !row.pool && row.board == t.board && row.project == t.project
            && row.done == t.done && row.completedAt == t.completedAt && row.owner == t.owner
            && row.sourceTask == t.sourceTask && row.sourceSubtask == t.sourceSubtask && row.parent == t.parent
            && (IsAssignmentMirror(t) ==> row.assignee == t.assignee)
            && (RowAllowed(row) ==> RowOk(db, row))
  {
    RowAt(db, m);
    PooledMirrorIsNone(db, m);
    EditedRowKeeps(db, db.tasks[m], p);
    if IsAssignmentMirror(db.tasks[m]) {
      SourceHasProject(db, m);
      SameAssignee(db, db.tasks[m], p);
    }
    hide Consistent, Patched, Edited, LinkOk, Releases, HandsOver, DatesInOrder;
  }

  /** Exactly which accepted edits of a mirror keep the workspace consistent, if
      no other id is named: those the source need not follow. A returned mirror
      would be in a pool, a handed-over one without its project, a rewritten one
      would say something else. */
  lemma MirrorUpdateKeepsIff(db: Db, m: Schema.Id, p: Patch, supplied: Option<nat>, today: int)
    requires Consistent(db) && m in db.tasks && !Canonical(db.tasks[m]) && UpdateTask(db, m, p, supplied, today).Ok?
    ensures Consistent(UpdateTask(db, m, p, supplied, today).value) <==> HarmlessForMirror(db, db.tasks[m], p)
  {
    var t := db.tasks[m];
    MirrorUpdateIs(db, m, p, supplied, today);
    hide Consistent, Routed, UpdateTask, Releases, HandsOver, Edited, SendTo, Patched, Cosmetic, ColumnFits, RowAllowed;
    var saved, after := Routed(db, m, p).value, UpdateTask(db, m, p, supplied, today).value;
    SavedThenMoved(db, saved, after, m);
    hide SavesMirror;
    if Releases(t, p) {
      ReleasedMirror(db, m, p);
      PooledBreaks(db, after, m);
    } else if HandsOver(db, t, p) {
      SentMirrorIff(db, saved, after, m, p);
    } else {
      EditedMirrorIff(db, saved, after, m, p);
    }
  }

  lemma PooledBreaks(db: Db, after: Db, m: Schema.Id)
    requires m in db.tasks && !Canonical(db.tasks[m]) && SavesMirror(db, after, m) && after.tasks[m].pool
    ensures !Consistent(after)
  {
    hide Consistent;
    if Consistent(after) {
      PooledMirrorIsNone(after, m);
    }
  }

  lemma SentMirrorIff(db: Db, saved: Db, after: Db, m: Schema.Id, p: Patch)
    requires Consistent(db) && m in db.tasks && !Canonical(db.tasks[m]) && !Releases(db.tasks[m], p) && HandsOver(db, db.tasks[m], p)
    requires Routed(db, m, p).Ok? && saved == Routed(db, m, p).value && SavesMirror(db, after, m) && after.subtasks == saved.subtasks
    requires m in saved.tasks && after.tasks[m].project == saved.tasks[m].project && RowAllowed(saved.tasks[m])
    requires Consistent(saved) ==> Consistent(after)
    ensures Consistent(after) <==> db.tasks[m].sourceSubtask.Some?
  {
    hide Consistent, Routed, Releases, HandsOver, SendTo, Core;
    var o := SentMirror(db, m, p);
    var user := RequestedAssignee(db.tasks[m], p).value;
    IntakeSavesMirror(db, m, o, user);
    if db.tasks[m].sourceSubtask.Some? {
      var mid := Intake(db, user).0;
      SubtaskShown(db, m);
      hide Intake;
      SaveHarmless(mid, m, saved.tasks[m]);
    } else {
      MirrorHasSource(db, m);
      SourceHasProject(db, m);
      SourceDisagrees(db, after, m);
    }
  }

  lemma MirrorHasSource(db: Db, m: Schema.Id)
    requires Consistent(db) && m in db.tasks && !Canonical(db.tasks[m]) && db.tasks[m].sourceSubtask.None?
    ensures IsAssignmentMirror(db.tasks[m])
  {
    hide Consistent;
  }

  lemma EditedMirrorIff(db: Db, saved: Db, after: Db, m: Schema.Id, p: Patch)
    requires Consistent(db) && m in db.tasks && !Canonical(db.tasks[m]) && !Releases(db.tasks[m], p) && !HandsOver(db, db.tasks[m], p)
    requires ColumnFits(db, if p.column.Some? then p.column else db.tasks[m].column, db.tasks[m].board)
    requires Routed(db, m, p).Ok? && saved == Routed(db, m, p).value && SavesMirror(db, after, m) && after.subtasks == saved.subtasks
    requires m in saved.tasks && after.tasks[m].content == saved.tasks[m].content && RowAllowed(saved.tasks[m])
    requires Consistent(saved) ==> Consistent(after)
    ensures Consistent(after) <==> HarmlessForMirror(db, db.tasks[m], p)
  {
    hide Consistent, Routed, Releases, HandsOver, Edited, Patched, RowAllowed, ColumnFits, RowOk;
    var t := db.tasks[m];
    EditedMirror(db, m, p);
    EditedMirrorRow(db, m, p);
    var row := Raised(Edited(db, t, p));
    assert saved.tasks[m] == row && saved.subtasks == db.subtasks;
    if t.sourceSubtask.Some? {
      SubtaskShown(db, m);
      if HarmlessForMirror(db, t, p) {
        SaveHarmless(db, m, row);
      } else {
        SubtaskDisagrees(db, after, m);
      }
    } else {
      if HarmlessForMirror(db, t, p) {
        SaveHarmless(db, m, row);
      } else {
        SourceDisagrees(db, after, m);
      }
    }
  }

  // ---------- A mirror's update that names another id ----------

  lemma SubtaskMirrorNeverRedirected(db: Db, m: Schema.Id, at: Schema.Id, p: Patch, supplied: Option<nat>, today: int)
    requires m in db.tasks && db.tasks[m].sourceSubtask.Some?
    ensures OverwriteTask(db, m, at, p, supplied, today).Err?
  {
    hide SyncMirror, Edited, Patched, FullyClean, AfterSave;
  }

  /** The state before the synchronisation has a second mirror of the source. */
  ghost predicate Twins(db: Db, a: Schema.Id, b: Schema.Id) {
    && a in db.tasks && b in db.tasks && a != b && IsAssignmentMirror(db.tasks[a]) && IsAssignmentMirror(db.tasks[b])
    && db.tasks[a].sourceTask == db.tasks[b].sourceTask
  }

  lemma TwinsBreak(db: Db, a: Schema.Id, b: Schema.Id)
    requires Twins(db, a, b)
    ensures !Consistent(db)
  {
    if Consistent(db) {
      Apart(db);
    }
  }

  lemma RedirectedTwins(db: Db, m: Schema.Id, at: Schema.Id, row: Task)
    requires Consistent(db) && m in db.tasks && IsAssignmentMirror(db.tasks[m]) && at != m
    requires row.sourceTask == db.tasks[m].sourceTask && row.sourceSubtask.None? && row.parent == db.tasks[m].parent
    requires OnPersonalBoard(db, row)
    ensures Twins(SavedAs(db, at, row), m, SavedAt(db, at))
    ensures var saved, place := SavedAs(db, at, row), SavedAt(db, at);
            var synced := SyncMirror(saved, place);
            place in synced.tasks ==> Twins(synced, m, place)
  {
    NextIsNoTask(db);
    var saved, place := SavedAs(db, at, row), SavedAt(db, at);
    SavedOthers(db, at, row);
    RedirectedFamily(db, m, at, row);
    hide Consistent, SavedAs, SavedAt, Family, SubtasksOf, PlaceMirror;
  }

  /** The synchronisation of the twin deletes neither the mirror nor its source,
      unless the twin took its source's place and deletes itself. */
  lemma RedirectedFamily(db: Db, m: Schema.Id, at: Schema.Id, row: Task)
    requires Consistent(db) && m in db.tasks && IsAssignmentMirror(db.tasks[m]) && at != m
    requires row.sourceTask == db.tasks[m].sourceTask && row.sourceSubtask.None? && row.parent == db.tasks[m].parent
    requires OnPersonalBoard(db, row)
    ensures var saved, place := SavedAs(db, at, row), SavedAt(db, at);
            var family := Family(saved, AssignmentMirrors(saved, place));
            place !in family ==> m !in family && db.tasks[m].sourceTask.value !in family
  {
    hide Consistent, RowOk;
    var s := db.tasks[m].sourceTask.value;
    NextIsNoTask(db);
    RowAt(db, m);
    RowAt(db, s);
    FamilyOfTwin(SavedAs(db, at, row), SavedAt(db, at), m, s);
  }

  lemma FamilyOfTwin(saved: Db, place: Schema.Id, m: Schema.Id, s: Schema.Id)
    requires place in saved.tasks && m in saved.tasks && m != place && saved.tasks[m].sourceTask == Some(s)
    requires IsMirrorOf(saved, place, s) && saved.tasks[m].parent.None?
    requires s == place || (s in saved.tasks && saved.tasks[s].parent.None? && saved.tasks[s].sourceTask.None?)
    ensures var family := Family(saved, AssignmentMirrors(saved, place));
            place !in family ==> m !in family && s !in family
  {
    assert place == s ==> place in AssignmentMirrors(saved, place);
  }

  /** An accepted update of an assignment mirror under another id always leaves
      two mirrors of one source. */
  lemma RedirectedMirrorBreaks(db: Db, m: Schema.Id, at: Schema.Id, p: Patch, supplied: Option<nat>, today: int)
    requires Consistent(db) && m in db.tasks && IsAssignmentMirror(db.tasks[m]) && Redirected(db, m, Some(at), p)
    requires OverwriteTask(db, m, at, p, supplied, today).Ok?
    ensures !Consistent(OverwriteTask(db, m, at, p, supplied, today).value)
  {
    var t, row, place := db.tasks[m], EditedRow(db, db.tasks[m], p), SavedAt(db, at);
    RedirectedRow(db, m, at, p);
    OverwriteIs(db, m, at, p, supplied, today);
    hide Consistent, OverwriteTask, SyncMirror, EditedRow, Releases, HandsOver, Patched, FullyClean, AfterSave, EntersColumn, ColumnFits, DatesInOrder, SavedAs, SavedAt, Twins, OnPersonalBoard;
    RedirectedTwins(db, m, at, row);
    AfterSaveTwins(SavedAs(db, at, row), place, t.assignee, EntersColumn(db, t, p), today, m);
    TwinsBreak(OverwriteTask(db, m, at, p, supplied, today).value, m, place);
  }

  lemma OverwriteIs(db: Db, id: Schema.Id, at: Schema.Id, p: Patch, supplied: Option<nat>, today: int)
    requires id in db.tasks && OverwriteTask(db, id, at, p, supplied, today).Ok?
    ensures OverwriteTask(db, id, at, p, supplied, today)
            == AfterSave(SavedAs(db, at, EditedRow(db, db.tasks[id], p)), SavedAt(db, at), db.tasks[id].assignee,
                         EntersColumn(db, db.tasks[id], p), today)
  {
    hide AfterSave, EditedRow, FullyClean, ColumnFits, EntersColumn, Patched;
  }

  lemma RedirectedRow(db: Db, m: Schema.Id, at: Schema.Id, p: Patch)
    requires Consistent(db) && m in db.tasks && IsAssignmentMirror(db.tasks[m]) && Redirected(db, m, Some(at), p)
    ensures var t, row := db.tasks[m], EditedRow(db, db.tasks[m], p);
            && at != m && row.sourceTask == t.sourceTask && row.sourceSubtask.None? && row.parent == t.parent
            && OnPersonalBoard(db, row)
  {
    var t, row := db.tasks[m], EditedRow(db, db.tasks[m], p);
    PooledMirrorIsNone(db, m);
    EditedRowKeeps(db, t, p);
    SourceHasProject(db, m);
    assert row == Raised(Edited(db, t, p)) by { hide Edited; }
    hide Consistent, Edited, EditedRow, Releases, HandsOver, Patched;
  }

  lemma AfterSaveTwins(saved: Db, place: Schema.Id, assignee: Option<Schema.Id>, enters: bool, today: int, m: Schema.Id)
    requires place in saved.tasks && AfterSave(saved, place, assignee, enters, today).Ok?
    requires place in SyncMirror(saved, place).tasks ==> Twins(SyncMirror(saved, place), m, place)
    ensures Twins(AfterSave(saved, place, assignee, enters, today).value, m, place)
  {
    hide SyncMirror, AutomateIf;
    var synced := SyncMirror(saved, place);
    var reassigned := AutomateIf(synced, place, synced.tasks[place].assignee != assignee, TaskAssigned, today);
    TwinsStay(synced, place, synced.tasks[place].assignee != assignee, TaskAssigned, today, m);
    TwinsStay(reassigned.value, place, enters, ColumnEntered, today, m);
  }

  lemma TwinsStay(db: Db, id: Schema.Id, fires: bool, trigger: Trigger, today: int, m: Schema.Id)
    requires Twins(db, m, id) && AutomateIf(db, id, fires, trigger, today).Ok?
    ensures Twins(AutomateIf(db, id, fires, trigger, today).value, m, id)
  {
    hide Consistent, AutomateIf;
    RuleMoves(db, id, fires, trigger, today);
  }

  /** Exactly which accepted updates of a mirror keep the workspace consistent. */
  lemma MirrorPatchKeepsIff(db: Db, m: Schema.Id, asId: Option<Schema.Id>, p: Patch, supplied: Option<nat>, today: int)
    requires Consistent(db) && m in db.tasks && !Canonical(db.tasks[m]) && PatchTask(db, m, asId, p, supplied, today).Ok?
    ensures Consistent(PatchTask(db, m, asId, p, supplied, today).value)
            <==> HarmlessForMirror(db, db.tasks[m], p) && !(db.tasks[m].sourceSubtask.None? && Redirected(db, m, asId, p))
  {
    hide Consistent, UpdateTask, OverwriteTask, HarmlessForMirror, Redirected;
    if Redirected(db, m, asId, p) {
      RedirectedNames(db, m, asId, p);
      if db.tasks[m].sourceSubtask.Some? {
        SubtaskMirrorNeverRedirected(db, m, asId.value, p, supplied, today);
      } else {
        MirrorHasSource(db, m);
        RedirectedMirrorBreaks(db, m, asId.value, p, supplied, today);
      }
    } else {
      MirrorUpdateKeepsIff(db, m, p, supplied, today);
    }
  }

  lemma RedirectedNames(db: Db, m: Schema.Id, asId: Option<Schema.Id>, p: Patch)
    requires m in db.tasks && Redirected(db, m, asId, p)
    ensures asId.Some?
  {
  }

  // ---------- Archiving a mirror ----------

  /** Archiving or restoring a mirror concerns the mirror alone. */
  lemma ArchiveMirrorKeeps(db: Db, m: Schema.Id, archived: bool, supplied: nat, now: int)
    requires Consistent(db) && m in db.tasks && !Canonical(db.tasks[m]) && ArchiveTask(db, m, archived, supplied, now).Ok?
    ensures ArchiveTask(db, m, archived, supplied, now).value == WithTask(db, m, ArchivedRow(db.tasks[m], archived, now))
    ensures Consistent(ArchiveTask(db, m, archived, supplied, now).value)
  {
    hide Consistent, SyncMirror, RowOk;
    var row := ArchivedRow(db.tasks[m], archived, now);
    ArchivedRowFits(db, m, archived, now);
    MirrorSyncIdle(db, WithTask(db, m, row), m);
    SaveHarmless(db, m, row);
  }

  lemma ArchiveMirrorFollows(db: Db, m: Schema.Id, archived: bool, supplied: nat, now: int)
    requires Consistent(db) && m in db.tasks && !Canonical(db.tasks[m]) && ArchiveTask(db, m, archived, supplied, now).Ok?
    ensures Follows(db, ArchiveTask(db, m, archived, supplied, now).value)
  {
    hide Consistent, ArchiveTask, Follows;
    ArchiveMirrorKeeps(db, m, archived, supplied, now);
    SetRowFollows(db, m, ArchivedRow(db.tasks[m], archived, now));
  }

  // ---------- Harmless updates in a run ----------

  lemma MirrorUpdateFollows(db: Db, m: Schema.Id, p: Patch, supplied: Option<nat>, today: int)
    requires Consistent(db) && m in db.tasks && !Canonical(db.tasks[m]) && UpdateTask(db, m, p, supplied, today).Ok?
    ensures Follows(db, UpdateTask(db, m, p, supplied, today).value)
  {
    MirrorUpdateIs(db, m, p, supplied, today);
    hide Consistent, Routed, UpdateTask, Releases, HandsOver, Edited, SendTo, Patched, Cosmetic, Follows, SavesMirror, WellFormed;
    var saved, after := Routed(db, m, p).value, UpdateTask(db, m, p, supplied, today).value;
    Apart(db);
    IdsAreDrawn(db);
    RoutedMirrorFollows(db, m, p);
    StaysMirror(db, saved, m);
    SetRowFollows(saved, m, after.tasks[m]);
    FollowsTransitive(db, saved, after);
  }

  lemma StaysMirror(db: Db, saved: Db, m: Schema.Id)
    requires m in db.tasks && !Canonical(db.tasks[m]) && SavesMirror(db, saved, m)
    ensures !Canonical(saved.tasks[m])
  {
  }

  lemma RoutedMirrorFollows(db: Db, m: Schema.Id, p: Patch)
    requires Consistent(db) && m in db.tasks && !Canonical(db.tasks[m]) && Routed(db, m, p).Ok?
    ensures Follows(db, Routed(db, m, p).value)
  {
    hide Consistent, Routed, Releases, HandsOver, Edited, Released, SendTo, Follows, WellFormed, Extends, Intake;
    Apart(db);
    IdsAreDrawn(db);
    if Releases(db.tasks[m], p) {
      ReleasedMirrorFollows(db, m, p);
    } else if HandsOver(db, db.tasks[m], p) {
      var o := SentMirror(db, m, p);
      var user := RequestedAssignee(db.tasks[m], p).value;
      IntakeFollows(db, user);
      IntakeSavesMirror(db, m, o, user);
      var mid := Intake(db, user).0;
      SetRowFollows(mid, m, Routed(db, m, p).value.tasks[m]);
      FollowsTransitive(db, mid, Routed(db, m, p).value);
    } else {
      EditedMirror(db, m, p);
      SetRowFollows(db, m, Raised(Edited(db, db.tasks[m], p)));
    }
  }

  lemma ReleasedMirrorFollows(db: Db, m: Schema.Id, p: Patch)
    requires m in db.tasks && !Canonical(db.tasks[m]) && Releases(db.tasks[m], p) && Routed(db, m, p).Ok?
    ensures Follows(db, Routed(db, m, p).value)
  {
    hide Releases, Released, Follows;
    SetRowFollows(db, m, Raised(Released(db, db.tasks[m], ReleaseProject(db.tasks[m]).value)));
  }
}
