/** Tasks on the move: creating, editing, claiming, completing and archiving
    keep the workspace consistent (apps/workspaces/services.py). */
module Placement {
  import opened Boards
  import opened Columns
  import opened Consistency
  import opened Mirroring
  import opened Options
  import opened Schema
  import opened Tasks

  lemma Parts(db: Db)
    requires Consistent(db)
    ensures Core(db) && WellFormed(db) && RowsOk(db) && LinksOk(db) && IdsDrawn(db)
    ensures forall id :: AgreeExcept(db, id)
  {
    hide RowsOk, LinksOk, ProjectsHaveBoards, OnePersonalBoard, ColumnsHaveBoards, ColumnsOk, Agrees;
  }

  lemma RowAt(db: Db, id: Schema.Id)
    requires Consistent(db) && id in db.tasks
    ensures RowOk(db, db.tasks[id]) && LinkOk(db, db.tasks[id])
  {
    hide RowOk, LinkOk;
  }

  /** Only place, team and version of one row change. */
  lemma SetPlace(db: Db, id: Schema.Id, row: Task)
    requires Consistent(db) && id in db.tasks && Cosmetic(db.tasks[id], row) && RowOk(db, row)
    ensures Consistent(WithTask(db, id, row))
  {
    hide Core, AgreeExcept, RowOk;
    Parts(db);
    SetRowKeepsCore(db, id, row);
    SetShownKeepsAgreement(db, id, row, None);
  }

  // ---------- Automation ----------

  ghost predicate GoodTarget(db: Db, t: Task, target: Option<Schema.Id>) {
    target.Some? ==> target.value in db.columns && db.columns[target.value].board == t.board && t.column != target
  }

  lemma {:induction false} ActionTargetGood(db: Db, t: Task, actions: seq<Action>, limit: nat)
    ensures GoodTarget(db, t, ActionTarget(db, t, actions, limit))
  {
    if actions != [] && limit > 0 {
      ActionTargetGood(db, t, actions[1..], limit - 1);
    }
  }

  lemma {:induction false} RuleTargetGood(db: Db, t: Task, trigger: Trigger, rules: seq<Rule>, today: int)
    ensures GoodTarget(db, t, RuleTarget(db, t, trigger, rules, today))
  {
    if rules != [] {
      ActionTargetGood(db, t, rules[0].actions, 5);
      RuleTargetGood(db, t, trigger, rules[1..], today);
    }
  }

  /** Automation moves one task within its board, if it moves anything. */
  ghost predicate MovedWithinBoard(before: Db, after: Db, id: Schema.Id) {
    && id in before.tasks && id in after.tasks && Cosmetic(before.tasks[id], after.tasks[id])
    && before.tasks[id].workspace == after.tasks[id].workspace
    && after == WithTask(before, id, after.tasks[id])
  }

  lemma AutomateKeeps(db: Db, id: Schema.Id, trigger: Trigger, today: int)
    requires Consistent(db) && id in db.tasks && Automate(db, id, trigger, today).Ok?
    ensures var after := Automate(db, id, trigger, today).value;
            Consistent(after) && MovedWithinBoard(db, after, id)
  {
    var t := db.tasks[id];
    var target := RuleTarget(db, t, trigger, db.rules, today);
    RuleTargetGood(db, t, trigger, db.rules, today);
    hide RuleTarget, Consistent, NextInColumn;
    if target.Some? {
      AutomatedFits(db, id, target.value, NextInColumn(db.tasks, target));
      hide RowOk;
      SetPlace(db, id, Automated(t, target.value, NextInColumn(db.tasks, target)));
    } else {
      assert db.tasks == db.tasks[id := t];
    }
  }

  lemma AutomatedFits(db: Db, id: Schema.Id, target: Schema.Id, position: nat)
    requires Consistent(db) && id in db.tasks && !db.tasks[id].pool && ColumnFits(db, Some(target), db.tasks[id].board)
    ensures RowOk(db, Automated(db.tasks[id], target, position))
  {
    RowAt(db, id);
    hide Consistent;
  }

  /** A rule fails exactly when it would move a task out of a pool. */
  lemma AutomateFails(db: Db, id: Schema.Id, trigger: Trigger, today: int)
    requires id in db.tasks
    ensures Automate(db, id, trigger, today).Err?
            <==> db.tasks[id].pool && RuleTarget(db, db.tasks[id], trigger, db.rules, today).Some?
  {
  }

  lemma MovedKeepsExact(before: Db, after: Db, id: Schema.Id)
    requires MovedWithinBoard(before, after, id) && MirrorExact(before, id) && Canonical(before.tasks[id])
    ensures MirrorExact(after, id) && Canonical(after.tasks[id])
  {
    if HasMirror(before, id) {
      var m :| m in before.tasks && IsAssignmentMirror(before.tasks[m]) && before.tasks[m].sourceTask == Some(id);
      assert m in after.tasks && IsAssignmentMirror(after.tasks[m]) && after.tasks[m].sourceTask == Some(id);
    }
    if HasMirror(after, id) {
      var m :| m in after.tasks && IsAssignmentMirror(after.tasks[m]) && after.tasks[m].sourceTask == Some(id);
      assert m in before.tasks && IsAssignmentMirror(before.tasks[m]) && before.tasks[m].sourceTask == Some(id);
    }
  }

  // ---------- A service writes one canonical row and synchronises ----------

  /** The synchronised state with the new row and nothing else but mirrors changed. */
  ghost predicate Settled(before: Db, after: Db, id: Schema.Id, row: Task) {
    && Consistent(after) && MirrorExact(after, id) && id in after.tasks && after.tasks[id] == row
    && OnlyMirrorsDiffer(before, after, id)
  }

  lemma WriteAndSync(db: Db, id: Schema.Id, row: Task)
    requires Consistent(db) && id in db.tasks && Canonical(db.tasks[id]) && SameLinks(db.tasks[id], row) && RowOk(db, row)
    ensures Settled(WithTask(db, id, row), SyncMirror(WithTask(db, id, row), id), id, row)
  {
    hide Consistent, Core, AgreeExcept, RowOk, LinksOk, RowsOk, WellFormed, IdsDrawn, MirrorExact, OnlyMirrorsDiffer;
    Parts(db);
    SetRowKeepsCore(db, id, row);
    SetRowKeepsOthersAgreeing(db, id, row, Some(id));
    hide SyncMirror;
    SyncRestores(WithTask(db, id, row), id);
  }

  // ---------- update_task ----------

  /** A row that is to replace a canonical task's row. */
  ghost predicate Replaces(db: Db, id: Schema.Id, row: Task) {
    id in db.tasks && Canonical(db.tasks[id]) && SameLinks(db.tasks[id], row) && RowOk(db, row)
  }

  function Raised(row: Task): Task {
    row.(version := row.version + 1)
  }

  lemma ReleaseFits(db: Db, id: Schema.Id, p: Schema.Id)
    requires Consistent(db) && id in db.tasks && Canonical(db.tasks[id]) && p in db.projects
    requires ReleaseProject(db.tasks[id]) == Some(p)
    ensures Replaces(db, id, Raised(Released(db, db.tasks[id], p)))
  {
    hide Consistent, NextInPool;
    RowAt(db, id);
    ProjectBoardOf(db, p);
  }

  lemma ProjectBoardOf(db: Db, p: Schema.Id)
    requires Consistent(db) && p in db.projects
    ensures var b := db.projects[p].board; b in db.boards && db.boards[b] == ProjectBoard(db.projects[p].workspace, p)
  {
    Parts(db);
    hide Consistent, Core, ColumnsOk, IdsDrawn, OnePersonalBoard, ColumnsHaveBoards;
  }

  lemma HandOverFits(db: Db, id: Schema.Id, poolSource: Option<Schema.Id>, board: Schema.Id, column: Schema.Id, user: Schema.Id, position: nat, version: nat)
    requires Consistent(db) && id in db.tasks && Canonical(db.tasks[id]) && HomeFor(db, user, board, column)
    requires poolSource == Origin(db.tasks[id])
    ensures Replaces(db, id, HandedOver(db.tasks[id], poolSource, db.boards[board].workspace, board, column, user, position).(version := version))
  {
    hide Consistent;
    RowAt(db, id);
  }

  /** Once a canonical task's row has passed the version and field checks, the
      edited row satisfies every constraint. */
  lemma EditFits(db: Db, id: Schema.Id, p: Patch)
    requires Consistent(db) && id in db.tasks && Canonical(db.tasks[id])
    requires ColumnFits(db, p.column, db.tasks[id].board) && DatesInOrder(Patched(db.tasks[id].content, p.content))
    requires !Releases(db.tasks[id], p) && !HandsOver(db, db.tasks[id], p)
    ensures Replaces(db, id, Raised(Edited(db, db.tasks[id], p)))
  {
    hide Consistent, NextInPool, NextInColumn, Patched, DatesInOrder;
    RowAt(db, id);
  }

  lemma ExtendsConsistent(db: Db, after: Db)
    requires Consistent(db) && Extends(db, after) && WellFormed(after)
    ensures Consistent(after)
  {
    hide Core, AgreeExcept, Extends, WellFormed;
    Parts(db);
    ExtendsKeeps(db, after, None);
  }

  /** The state before the row is written and the row itself. */
  ghost function RoutedFrom(db: Db, id: Schema.Id, p: Patch): Db
    requires id in db.tasks
  {
    if !Releases(db.tasks[id], p) && HandsOver(db, db.tasks[id], p)
    then Intake(db, RequestedAssignee(db.tasks[id], p).value).0
    else db
  }

  lemma IntakeConsistent(db: Db, user: Schema.Id)
    requires Consistent(db)
    ensures var (after, board, column) := Intake(db, user);
            && Consistent(after) && Extends(db, after) && HomeFor(after, user, board, column)
            && after.boards[board].owner == user
  {
    hide Consistent, Core, RowsOk, LinksOk, IdsDrawn, WellFormed, Intake, Extends;
    Parts(db);
    IntakeOk(db, user);
    ExtendsConsistent(db, Intake(db, user).0);
  }

  lemma SendToWrites(db: Db, id: Schema.Id, poolSource: Option<Schema.Id>, user: Schema.Id)
    requires Consistent(db) && id in db.tasks && Canonical(db.tasks[id]) && poolSource == Origin(db.tasks[id])
    ensures var mid := Intake(db, user).0;
            && Consistent(mid) && Extends(db, mid) && id in SendTo(db, id, poolSource, user).tasks
            && Replaces(mid, id, SendTo(db, id, poolSource, user).tasks[id])
            && SendTo(db, id, poolSource, user) == WithTask(mid, id, SendTo(db, id, poolSource, user).tasks[id])
  {
    var (mid, board, column) := Intake(db, user);
    hide Consistent, Intake, NextInColumn, Replaces;
    IntakeConsistent(db, user);
    HandOverFits(mid, id, poolSource, board, column, user, NextInColumn(mid.tasks, Some(column)), db.tasks[id].version + 1);
  }

  /** `after` is `db` with a good new row for task `id`, up to new boards and columns. */
  ghost predicate Writes(db: Db, mid: Db, after: Db, id: Schema.Id) {
    && Consistent(mid) && Extends(db, mid) && id in after.tasks
    && Replaces(mid, id, after.tasks[id]) && after == WithTask(mid, id, after.tasks[id])
  }

  lemma ReleaseWrites(db: Db, id: Schema.Id, p: Patch)
    requires Consistent(db) && id in db.tasks && Canonical(db.tasks[id]) && Releases(db.tasks[id], p)
    ensures Routed(db, id, p).Err? <==> Origin(db.tasks[id]).None?
    ensures Routed(db, id, p).Ok? ==> Writes(db, db, Routed(db, id, p).value, id)
  {
    hide Consistent, Releases, Replaces, Released, SendTo, Edited;
    OriginExists(db, id);
    if Origin(db.tasks[id]).Some? {
      ReleaseFits(db, id, ReleaseProject(db.tasks[id]).value);
    }
  }

  lemma HandOverWrites(db: Db, id: Schema.Id, p: Patch)
    requires Consistent(db) && id in db.tasks && Canonical(db.tasks[id])
    requires !Releases(db.tasks[id], p) && HandsOver(db, db.tasks[id], p)
    ensures var user := RequestedAssignee(db.tasks[id], p).value;
            && Routed(db, id, p) == Ok(SendTo(db, id, Origin(db.tasks[id]), user))
            && Writes(db, Intake(db, user).0, Routed(db, id, p).value, id)
  {
    var user := RequestedAssignee(db.tasks[id], p).value;
    OriginExists(db, id);
    assert Routed(db, id, p) == Ok(SendTo(db, id, Origin(db.tasks[id]), user)) by {
      hide Consistent, Releases, SendTo, Edited, HandsOver;
    }
    hide Consistent, Releases, Replaces, Released, SendTo, Edited, Routed;
    SendToWrites(db, id, Origin(db.tasks[id]), user);
  }

  lemma EditWrites(db: Db, id: Schema.Id, p: Patch)
    requires Consistent(db) && id in db.tasks && Canonical(db.tasks[id])
    requires ColumnFits(db, p.column, db.tasks[id].board) && DatesInOrder(Patched(db.tasks[id].content, p.content))
    requires !Releases(db.tasks[id], p) && !HandsOver(db, db.tasks[id], p)
    ensures Routed(db, id, p).Ok? && Writes(db, db, Routed(db, id, p).value, id)
  {
    hide Consistent, Releases, Replaces, Released, SendTo, Edited, HandsOver, Patched, DatesInOrder;
    EditFits(db, id, p);
  }

  /** Whichever branch is taken, the written row is one that may be written;
      only a task without an origin cannot be returned. */
  lemma RoutedWrites(db: Db, id: Schema.Id, p: Patch)
    requires Consistent(db) && id in db.tasks && Canonical(db.tasks[id])
    requires ColumnFits(db, p.column, db.tasks[id].board) && DatesInOrder(Patched(db.tasks[id].content, p.content))
    ensures Routed(db, id, p).Err? <==> Releases(db.tasks[id], p) && Origin(db.tasks[id]).None?
    ensures Routed(db, id, p).Ok? ==> Writes(db, RoutedFrom(db, id, p), Routed(db, id, p).value, id)
  {
    hide Consistent, Releases, HandsOver, Writes, Routed, Patched, DatesInOrder, ColumnFits, Intake;
    if Releases(db.tasks[id], p) {
      ReleaseWrites(db, id, p);
    } else if HandsOver(db, db.tasks[id], p) {
      HandOverWrites(db, id, p);
    } else {
      EditWrites(db, id, p);
    }
  }

  lemma OriginExists(db: Db, id: Schema.Id)
    requires Consistent(db) && id in db.tasks && Canonical(db.tasks[id])
    ensures var t := db.tasks[id];
            && Origin(t) == ReleaseProject(t) == (if t.project.Some? && t.poolSource.None? then t.project else t.poolSource)
            && (Origin(t).Some? ==> Origin(t).value in db.projects)
  {
    hide Consistent;
    RowAt(db, id);
  }

  /** The checks of the serializer and the version check, on a consistent state. */
  predicate UpdateAdmitted(db: Db, id: Schema.Id, p: Patch, supplied: Option<nat>)
    requires id in db.tasks
  {
    && ColumnFits(db, p.column, db.tasks[id].board) && DatesInOrder(Patched(db.tasks[id].content, p.content))
    && supplied == Some(db.tasks[id].version)
  }

  lemma AdmittedIsChecked(db: Db, id: Schema.Id, p: Patch, supplied: Option<nat>, today: int)
    requires Consistent(db) && id in db.tasks && Canonical(db.tasks[id])
    ensures !UpdateAdmitted(db, id, p, supplied) ==> UpdateTask(db, id, p, supplied, today).Err?
    ensures UpdateAdmitted(db, id, p, supplied) <==>
              && ColumnFits(db, if p.column.Some? then p.column else db.tasks[id].column, db.tasks[id].board)
              && DatesInOrder(Patched(db.tasks[id].content, p.content)) && supplied == Some(db.tasks[id].version)
  {
    RowAt(db, id);
    hide Consistent, Routed, SyncMirror, Automate, Patched;
  }

  lemma WrittenIsClean(db: Db, mid: Db, after: Db, id: Schema.Id)
    requires id in db.tasks && Canonical(db.tasks[id]) && Writes(db, mid, after, id)
    ensures FullyClean(after, after.tasks[id])
  {
    hide Consistent;
  }

  /** What an update has written once its mirror is synchronised. */
  lemma UpdateSettles(db: Db, id: Schema.Id, p: Patch)
    requires Consistent(db) && id in db.tasks && Canonical(db.tasks[id])
    requires ColumnFits(db, p.column, db.tasks[id].board) && DatesInOrder(Patched(db.tasks[id].content, p.content))
    requires Routed(db, id, p).Ok?
    ensures var routed := Routed(db, id, p).value;
            && id in routed.tasks && FullyClean(routed, routed.tasks[id]) && Canonical(routed.tasks[id])
            && Settled(routed, SyncMirror(routed, id), id, routed.tasks[id])
  {
    hide Consistent, Routed, SyncMirror, Patched, DatesInOrder, ColumnFits, FullyClean, Settled, Intake, Extends;
    RoutedWrites(db, id, p);
    var mid, routed := RoutedFrom(db, id, p), Routed(db, id, p).value;
    WrittenIsClean(db, mid, routed, id);
    hide RowOk;
    WriteAndSync(mid, id, routed.tasks[id]);
  }

  lemma AutomateIfKeeps(db: Db, id: Schema.Id, fires: bool, trigger: Trigger, today: int)
    requires Consistent(db) && id in db.tasks && Canonical(db.tasks[id]) && MirrorExact(db, id)
    requires AutomateIf(db, id, fires, trigger, today).Ok?
    ensures var after := AutomateIf(db, id, fires, trigger, today).value;
            && Consistent(after) && MovedWithinBoard(db, after, id) && Canonical(after.tasks[id]) && MirrorExact(after, id)
  {
    hide Consistent, Automate, MirrorExact;
    if fires {
      AutomateKeeps(db, id, trigger, today);
      MovedKeepsExact(db, AutomateIf(db, id, fires, trigger, today).value, id);
    } else {
      assert db.tasks == db.tasks[id := db.tasks[id]];
    }
  }

  /** What the synchronisation and the triggers make of a saved canonical row. */
  lemma AfterSaveKeeps(saved: Db, id: Schema.Id, row: Task, assignee: Option<Schema.Id>, enters: bool, today: int)
    requires id in saved.tasks && Canonical(row) && Settled(saved, SyncMirror(saved, id), id, row)
    requires AfterSave(saved, id, assignee, enters, today).Ok?
    ensures var synced, after := SyncMirror(saved, id), AfterSave(saved, id, assignee, enters, today).value;
            && Consistent(after) && MirrorExact(after, id) && id in after.tasks && Canonical(after.tasks[id])
            && after == WithTask(synced, id, after.tasks[id])
            && Cosmetic(row, after.tasks[id]) && row.workspace == after.tasks[id].workspace
  {
    hide Consistent, SyncMirror, AutomateIf, OnlyMirrorsDiffer, MirrorExact;
    var synced := SyncMirror(saved, id);
    var changed := row.assignee != assignee;
    AutomateIfKeeps(synced, id, changed, TaskAssigned, today);
    AutomateIfKeeps(AutomateIf(synced, id, changed, TaskAssigned, today).value, id, enters, ColumnEntered, today);
  }

  /** After a successful update of a canonical task the workspace is consistent
      and the task has its mirror exactly if it is assigned on a project board.
      The task itself is the routed row up to a move by a rule. */
  lemma UpdateKeeps(db: Db, id: Schema.Id, p: Patch, supplied: Option<nat>, today: int)
    requires Consistent(db) && id in db.tasks && Canonical(db.tasks[id]) && UpdateTask(db, id, p, supplied, today).Ok?
    ensures var after := UpdateTask(db, id, p, supplied, today).value;
            && Consistent(after) && MirrorExact(after, id) && id in after.tasks && Canonical(after.tasks[id])
    ensures Routed(db, id, p).Ok? && id in Routed(db, id, p).value.tasks
            && Cosmetic(Routed(db, id, p).value.tasks[id], UpdateTask(db, id, p, supplied, today).value.tasks[id])
            && Routed(db, id, p).value.tasks[id].workspace == UpdateTask(db, id, p, supplied, today).value.tasks[id].workspace
  {
    hide Consistent, Routed, SyncMirror, Patched, DatesInOrder, FullyClean, AfterSave, Settled, MirrorExact, EntersColumn;
    AdmittedIsChecked(db, id, p, supplied, today);
    UpdateSettles(db, id, p);
    var routed := Routed(db, id, p).value;
    AfterSaveKeeps(routed, id, routed.tasks[id], db.tasks[id].assignee, EntersColumn(db, db.tasks[id], p), today);
  }

  // ---------- Exactly when an update succeeds ----------

  lemma {:induction false} ActionTargetFrame(a: Db, b: Db, t: Task, actions: seq<Action>, limit: nat)
    requires OnBoard(a.columns, t.board) == OnBoard(b.columns, t.board)
    ensures ActionTarget(a, t, actions, limit) == ActionTarget(b, t, actions, limit)
  {
    if actions != [] && limit > 0 {
      if actions[0].MoveTaskTree? {
        assert actions[0].target in OnBoard(a.columns, t.board) <==> actions[0].target in OnBoard(b.columns, t.board);
      }
      ActionTargetFrame(a, b, t, actions[1..], limit - 1);
    }
  }

  /** Of the columns, rules look only at those of the task's board. */
  lemma {:induction false} RuleTargetFrame(a: Db, b: Db, t: Task, trigger: Trigger, rules: seq<Rule>, today: int)
    requires OnBoard(a.columns, t.board) == OnBoard(b.columns, t.board)
    ensures RuleTarget(a, t, trigger, rules, today) == RuleTarget(b, t, trigger, rules, today)
  {
    if rules != [] {
      ActionTargetFrame(a, b, t, rules[0].actions, 5);
      RuleTargetFrame(a, b, t, trigger, rules[1..], today);
    }
  }

  /** A pooled task stays where it is or the rule fails. */
  lemma AutomatePooled(db: Db, origin: Db, id: Schema.Id, fires: bool, trigger: Trigger, today: int)
    requires id in db.tasks && db.tasks[id].pool && db.columns == origin.columns && db.rules == origin.rules
    ensures AutomateIf(db, id, fires, trigger, today)
            == if fires && RuleTarget(origin, db.tasks[id], trigger, origin.rules, today).Some?
               then Err(ConstraintViolated) else Ok(db)
  {
    RuleTargetFrame(db, origin, db.tasks[id], trigger, db.rules, today);
  }

  lemma AutomateUnpooled(db: Db, id: Schema.Id, fires: bool, trigger: Trigger, today: int)
    requires Consistent(db) && id in db.tasks && !db.tasks[id].pool
    ensures var r := AutomateIf(db, id, fires, trigger, today);
            r.Ok? && Consistent(r.value) && id in r.value.tasks && !r.value.tasks[id].pool
  {
    hide Consistent;
    if fires {
      AutomateFails(db, id, trigger, today);
      hide Automate;
      AutomateKeeps(db, id, trigger, today);
    }
  }

  /** The triggers refuse a saved row exactly if it is in a pool and one of the
      fired ones would move it. */
  lemma AfterSaveOutcome(saved: Db, id: Schema.Id, row: Task, assignee: Option<Schema.Id>, enters: bool, today: int)
    requires id in saved.tasks && saved.tasks[id] == row && (row.pool ==> row.assignee.None?)
    requires Settled(saved, SyncMirror(saved, id), id, row)
    ensures AfterSave(saved, id, assignee, enters, today).Err?
            <==> row.pool && ((row.assignee != assignee && RuleTarget(saved, row, TaskAssigned, saved.rules, today).Some?)
                              || (enters && RuleTarget(saved, row, ColumnEntered, saved.rules, today).Some?))
  {
    hide Consistent, AutomateIf, OnlyMirrorsDiffer, MirrorExact, RuleTarget;
    var synced, changed := SyncMirror(saved, id), row.assignee != assignee;
    if row.pool {
      assert synced.columns == saved.columns && synced.rules == saved.rules;
      hide SyncMirror;
      AutomatePooled(synced, saved, id, changed, TaskAssigned, today);
      AutomatePooled(synced, saved, id, enters, ColumnEntered, today);
    } else {
      hide SyncMirror;
      AutomateUnpooled(synced, id, changed, TaskAssigned, today);
      AutomateUnpooled(AutomateIf(synced, id, changed, TaskAssigned, today).value, id, enters, ColumnEntered, today);
    }
  }

  // ---------- The rules a pool task runs into ----------

  /** Rules look at board, column, text, dates and parent of a task only. */
  predicate SameFace(t: Task, u: Task) {
    t.board == u.board && t.column == u.column && t.content == u.content && t.parent == u.parent
  }

  lemma {:induction false} ActionTargetFace(db: Db, t: Task, u: Task, actions: seq<Action>, limit: nat)
    requires SameFace(t, u)
    ensures ActionTarget(db, t, actions, limit) == ActionTarget(db, u, actions, limit)
  {
    if actions != [] && limit > 0 {
      ActionTargetFace(db, t, u, actions[1..], limit - 1);
    }
  }

  lemma {:induction false} RuleTargetFace(db: Db, t: Task, u: Task, trigger: Trigger, rules: seq<Rule>, today: int)
    requires SameFace(t, u)
    ensures RuleTarget(db, t, trigger, rules, today) == RuleTarget(db, u, trigger, rules, today)
  {
    if rules != [] {
      ActionTargetFace(db, t, u, rules[0].actions, 5);
      RuleTargetFace(db, t, u, trigger, rules[1..], today);
    }
  }

  /** The task keeps waiting in its pool. */
  predicate StaysPooled(t: Task, p: Patch) {
    !Releases(t, p) && t.pool && RequestedAssignee(t, p).None? && p.pool != Some(false)
  }

  /** Returning an assigned task meets an assignment rule of its project's board
      that has a column to move it to. */
  ghost predicate ReturnMeetsRule(db: Db, t: Task, today: int) {
    && t.assignee.Some? && Origin(t).Some? && Origin(t).value in db.projects
    && RuleTarget(db, t.(board := db.projects[Origin(t).value].board, column := None), TaskAssigned, db.rules, today).Some?
  }

  /** Naming a column for a task that stays pooled meets a column rule of the
      board that has a column to move it to. */
  ghost predicate PoolEditMeetsRule(db: Db, t: Task, p: Patch, today: int) {
    && StaysPooled(t, p) && p.column.Some?
    && RuleTarget(db, t.(column := None, content := Patched(t.content, p.content)), ColumnEntered, db.rules, today).Some?
  }

  lemma ReleasedFace(db: Db, t: Task, p: Schema.Id)
    requires p in db.projects
    ensures var row := Raised(Released(db, t, p));
            SameFace(row, t.(board := db.projects[p].board, column := None)) && row.pool && row.assignee.None?
  {
    hide NextInPool;
  }

  lemma EditedFace(db: Db, t: Task, p: Patch)
    requires !Releases(t, p) && !HandsOver(db, t, p) && (t.pool ==> t.assignee.None?)
    ensures var row := Raised(Edited(db, t, p));
            && (row.pool <==> StaysPooled(t, p))
            && (row.pool ==> row.assignee.None? && t.assignee.None? && SameFace(row, t.(column := None, content := Patched(t.content, p.content))))
  {
    hide NextInPool, NextInColumn, Patched;
  }

  lemma ReleaseOutcome(db: Db, id: Schema.Id, p: Patch, today: int)
    requires Consistent(db) && id in db.tasks && Canonical(db.tasks[id]) && Releases(db.tasks[id], p) && Origin(db.tasks[id]).Some?
    requires ColumnFits(db, p.column, db.tasks[id].board) && DatesInOrder(Patched(db.tasks[id].content, p.content))
    ensures Routed(db, id, p).Ok? && id in Routed(db, id, p).value.tasks
    ensures AfterSave(Routed(db, id, p).value, id, db.tasks[id].assignee, EntersColumn(db, db.tasks[id], p), today).Err?
            <==> ReturnMeetsRule(db, db.tasks[id], today)
  {
    hide Consistent, RuleTarget, Released, AfterSave, Settled, SendTo, Edited, Releases, FullyClean, Patched, DatesInOrder, ColumnFits, SyncMirror, OnBoard;
    var t := db.tasks[id];
    OriginExists(db, id);
    var row := Raised(Released(db, t, Origin(t).value));
    ReleasedFace(db, t, Origin(t).value);
    assert Routed(db, id, p) == Ok(WithTask(db, id, row));
    UpdateSettles(db, id, p);
    hide Routed;
    var saved := WithTask(db, id, row);
    AfterSaveOutcome(saved, id, row, t.assignee, EntersColumn(db, t, p), today);
    var face := t.(board := db.projects[Origin(t).value].board, column := None);
    RuleTargetFace(saved, row, face, TaskAssigned, db.rules, today);
    RuleTargetFrame(saved, db, face, TaskAssigned, db.rules, today);
  }

  lemma EditOutcome(db: Db, id: Schema.Id, p: Patch, saved: Db, at: Schema.Id, today: int)
    requires id in db.tasks && !Releases(db.tasks[id], p) && !HandsOver(db, db.tasks[id], p)
    requires db.tasks[id].pool ==> db.tasks[id].assignee.None?
    requires at in saved.tasks && saved.tasks[at] == Raised(Edited(db, db.tasks[id], p))
    requires Settled(saved, SyncMirror(saved, at), at, saved.tasks[at]) && saved.columns == db.columns && saved.rules == db.rules
    ensures AfterSave(saved, at, db.tasks[id].assignee, EntersColumn(db, db.tasks[id], p), today).Err?
            <==> PoolEditMeetsRule(db, db.tasks[id], p, today)
  {
    var t := db.tasks[id];
    hide Consistent, RuleTarget, Edited, AfterSave, Settled, Releases, HandsOver, Patched, SyncMirror, StaysPooled;
    var row := Raised(Edited(db, t, p));
    EditedFace(db, t, p);
    AfterSaveOutcome(saved, at, row, t.assignee, EntersColumn(db, t, p), today);
    if row.pool {
      var face := t.(column := None, content := Patched(t.content, p.content));
      RuleTargetFace(saved, row, face, ColumnEntered, db.rules, today);
      RuleTargetFrame(saved, db, face, ColumnEntered, db.rules, today);
    }
  }

  lemma HandOverOutcome(db: Db, id: Schema.Id, p: Patch, today: int)
    requires Consistent(db) && id in db.tasks && Canonical(db.tasks[id])
    requires !Releases(db.tasks[id], p) && HandsOver(db, db.tasks[id], p)
    requires ColumnFits(db, p.column, db.tasks[id].board) && DatesInOrder(Patched(db.tasks[id].content, p.content))
    ensures Routed(db, id, p).Ok? && id in Routed(db, id, p).value.tasks
    ensures AfterSave(Routed(db, id, p).value, id, db.tasks[id].assignee, EntersColumn(db, db.tasks[id], p), today).Ok?
    ensures !StaysPooled(db.tasks[id], p)
  {
    HandOverUnpools(db, db.tasks[id], p);
    hide Consistent, RuleTarget, AfterSave, Settled, SendTo, Releases, HandsOver, StaysPooled, Patched, DatesInOrder, ColumnFits, SyncMirror, Routed, RowOk, FullyClean;
    var user := RequestedAssignee(db.tasks[id], p).value;
    HandOverWrites(db, id, p);
    UpdateSettles(db, id, p);
    hide Writes;
    SendToUnpools(db, id, Origin(db.tasks[id]), user);
    var sent := Routed(db, id, p).value;
    AfterSaveOutcome(sent, id, sent.tasks[id], db.tasks[id].assignee, EntersColumn(db, db.tasks[id], p), today);
  }

  lemma HandOverUnpools(db: Db, t: Task, p: Patch)
    requires HandsOver(db, t, p)
    ensures RequestedAssignee(t, p).Some? && !StaysPooled(t, p)
  {
  }

  lemma SendToUnpools(db: Db, id: Schema.Id, poolSource: Option<Schema.Id>, user: Schema.Id)
    requires id in db.tasks
    ensures id in SendTo(db, id, poolSource, user).tasks && !SendTo(db, id, poolSource, user).tasks[id].pool
  {
    hide Intake, NextInColumn;
  }

  /** An admitted update of a canonical task commits, except when a task without
      an origin is to be returned to a pool, or when a rule would give a task
      that is returned to its pool, or stays there, a column. No check
      constraint fails on the update itself. */
  lemma UpdateOutcome(db: Db, id: Schema.Id, p: Patch, supplied: Option<nat>, today: int)
    requires Consistent(db) && id in db.tasks && Canonical(db.tasks[id])
    ensures UpdateTask(db, id, p, supplied, today).Ok?
            <==> && UpdateAdmitted(db, id, p, supplied)
                 && (Releases(db.tasks[id], p) ==> Origin(db.tasks[id]).Some? && !ReturnMeetsRule(db, db.tasks[id], today))
                 && !PoolEditMeetsRule(db, db.tasks[id], p, today)
  {
    hide Consistent, Routed, Patched, DatesInOrder, FullyClean, AfterSave, ReturnMeetsRule, PoolEditMeetsRule, Releases, HandsOver, EntersColumn, ColumnFits, Settled;
    AdmittedIsChecked(db, id, p, supplied, today);
    if Releases(db.tasks[id], p) {
      NotBoth(db, id, p, today);
    }
    if UpdateAdmitted(db, id, p, supplied) {
      RoutedOutcome(db, id, p);
      if Routed(db, id, p).Ok? {
        UpdateSettles(db, id, p);
        AdmittedOutcome(db, id, p, today);
      }
    }
  }

  lemma NotBoth(db: Db, id: Schema.Id, p: Patch, today: int)
    requires id in db.tasks && Releases(db.tasks[id], p)
    ensures !PoolEditMeetsRule(db, db.tasks[id], p, today)
  {
  }

  lemma AdmittedOutcome(db: Db, id: Schema.Id, p: Patch, today: int)
    requires Consistent(db) && id in db.tasks && Canonical(db.tasks[id]) && Routed(db, id, p).Ok?
    requires ColumnFits(db, p.column, db.tasks[id].board) && DatesInOrder(Patched(db.tasks[id].content, p.content))
    requires Releases(db.tasks[id], p) ==> Origin(db.tasks[id]).Some?
    ensures id in Routed(db, id, p).value.tasks
    ensures AfterSave(Routed(db, id, p).value, id, db.tasks[id].assignee, EntersColumn(db, db.tasks[id], p), today).Err?
            <==> (Releases(db.tasks[id], p) && ReturnMeetsRule(db, db.tasks[id], today)) || PoolEditMeetsRule(db, db.tasks[id], p, today)
  {
    hide Consistent, Routed, Patched, DatesInOrder, AfterSave, ReturnMeetsRule, Releases, HandsOver, ColumnFits, Settled, EntersColumn, Edited, RuleTarget, FullyClean;
    UpdateSettles(db, id, p);
    if Releases(db.tasks[id], p) {
      ReleaseOutcome(db, id, p, today);
    } else if HandsOver(db, db.tasks[id], p) {
      HandOverOutcome(db, id, p, today);
    } else {
      EditedIs(db, id, p);
      if db.tasks[id].pool {
        PooledUnassigned(db, id);
      }
      EditOutcome(db, id, p, Routed(db, id, p).value, id, today);
    }
  }

  lemma PooledUnassigned(db: Db, id: Schema.Id)
    requires Consistent(db) && id in db.tasks && db.tasks[id].pool
    ensures db.tasks[id].assignee.None?
  {
    hide Consistent;
    RowAt(db, id);
  }

  lemma EditedIs(db: Db, id: Schema.Id, p: Patch)
    requires id in db.tasks && !Releases(db.tasks[id], p) && !HandsOver(db, db.tasks[id], p)
    ensures Routed(db, id, p) == Ok(WithTask(db, id, Raised(Edited(db, db.tasks[id], p))))
  {
    hide Releases, HandsOver, Edited;
  }

  lemma RoutedOutcome(db: Db, id: Schema.Id, p: Patch)
    requires Consistent(db) && id in db.tasks && Canonical(db.tasks[id])
    requires ColumnFits(db, p.column, db.tasks[id].board) && DatesInOrder(Patched(db.tasks[id].content, p.content))
    ensures Routed(db, id, p).Err? <==> Releases(db.tasks[id], p) && Origin(db.tasks[id]).None?
  {
    hide Routed, Writes, Consistent;
    RoutedWrites(db, id, p);
  }

  // ---------- claim_pool_task ----------

  lemma ClearedRow(db: Db, id: Schema.Id, user: Schema.Id, t: Task)
    ensures RowOk(db, t) ==> RowOk(ClearedSubtasks(db, id, user), t)
    ensures LinkOk(db, t) ==> LinkOk(ClearedSubtasks(db, id, user), t)
  {
  }

  lemma ClearedRows(db: Db, id: Schema.Id, user: Schema.Id)
    requires RowsOk(db) && LinksOk(db) && SubtasksAgree(db)
    ensures var after := ClearedSubtasks(db, id, user); RowsOk(after) && LinksOk(after) && SubtasksAgree(after)
  {
    var after := ClearedSubtasks(db, id, user);
    hide RowOk, LinkOk;
    forall t <- after.tasks
      ensures RowOk(after, after.tasks[t]) && LinkOk(after, after.tasks[t])
    {
      ClearedRow(db, id, user, after.tasks[t]);
    }
  }

  lemma ClearedTables(db: Db, id: Schema.Id, user: Schema.Id)
    requires WellFormed(db) && UniqueMirrors(db) && RouteKeysUnique(db) && AgreeExcept(db, None)
    ensures var after := ClearedSubtasks(db, id, user);
            WellFormed(after) && UniqueMirrors(after) && RouteKeysUnique(after) && AgreeExcept(after, None)
  {
    var after := ClearedSubtasks(db, id, user);
    assert WellFormed(after) by { hide ColumnsOk, AgreeExcept; }
    hide WellFormed;
    forall m <- after.tasks | IsAssignmentMirror(after.tasks[m])
      ensures after.tasks[m].sourceTask.value in after.tasks
              && Agrees(after, after.tasks[after.tasks[m].sourceTask.value], after.tasks[m])
    {
      assert Agrees(db, db.tasks[db.tasks[m].sourceTask.value], db.tasks[m]);
    }
  }

  lemma ClearedConsistent(db: Db, id: Schema.Id, user: Schema.Id)
    requires Consistent(db)
    ensures Consistent(ClearedSubtasks(db, id, user))
  {
    hide RowsOk, LinksOk, SubtasksAgree, WellFormed, UniqueMirrors, RouteKeysUnique, AgreeExcept;
    ClearedRows(db, id, user);
    ClearedTables(db, id, user);
  }

  lemma PooledIsCanonical(db: Db, id: Schema.Id)
    requires Consistent(db) && id in db.tasks && db.tasks[id].pool
    ensures Canonical(db.tasks[id]) && Origin(db.tasks[id]) == db.tasks[id].project && db.tasks[id].project.Some?
  {
    hide Consistent;
    RowAt(db, id);
  }

  /** A claim succeeds exactly for a pooled task and a member of its team. The
      row that SendTo describes is the claimed row. */
  lemma ClaimKeeps(db: Db, id: Schema.Id, user: Schema.Id)
    requires Consistent(db)
    ensures ClaimTask(db, id, user).Ok?
            <==> id in db.tasks && db.tasks[id].pool && (db.tasks[id].workspace, user) in db.members
    ensures ClaimTask(db, id, user).Ok? ==>
              var after, sent := ClaimTask(db, id, user).value, SendTo(db, id, db.tasks[id].project, user);
              && Consistent(after) && id in after.tasks && id in sent.tasks && after.tasks[id] == sent.tasks[id]
              && Canonical(after.tasks[id]) && MirrorExact(after, id)
  {
    hide Consistent, SendTo, SyncMirror, Intake, MirrorExact, OnlyMirrorsDiffer;
    if id in db.tasks && db.tasks[id].pool && (db.tasks[id].workspace, user) in db.members {
      PooledIsCanonical(db, id);
      SendToWrites(db, id, db.tasks[id].project, user);
      ClaimSettles(Intake(db, user).0, id, user, SendTo(db, id, db.tasks[id].project, user).tasks[id]);
    }
  }

  lemma ClaimSettles(mid: Db, id: Schema.Id, user: Schema.Id, row: Task)
    requires Consistent(mid) && Replaces(mid, id, row)
    ensures var sent := ClearedSubtasks(WithTask(mid, id, row), id, user);
            id in sent.tasks && Settled(sent, SyncMirror(sent, id), id, row)
  {
    var early := ClearedSubtasks(mid, id, user);
    ClearedConsistent(mid, id, user);
    hide Consistent, RowOk, SyncMirror, Settled;
    ClearedRow(mid, id, user, row);
    WriteAndSync(early, id, row);
  }
}