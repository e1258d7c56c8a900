/** The order of the tasks in a column (apps/workspaces/services.py, move_task;
    apps/workspaces/views.py, delete_with_move). */
module TaskOrder {
  import opened Boards
  import opened Columns
  import opened Options
  import opened Ordering
  import opened Schema
  import opened Structure
  import opened Tasks
  import opened Workspace

  type Rows = map<Schema.Id, Task>

  /** `ids` is the column from top to bottom, and its tasks are numbered 0, 1, 2, ... */
  ghost predicate Shows(tasks: Rows, column: Schema.Id, ids: seq<Schema.Id>) {
    && Listing(tasks, column) == ids && NoDuplicates(ids)
    && forall i :: 0 <= i < |ids| ==> ids[i] in tasks && tasks[ids[i]].position == i
  }

  ghost predicate AllIn(ids: seq<Schema.Id>, tasks: Rows) {
    forall x :: x in ids ==> x in tasks
  }

  lemma {:induction false} RenumberedPositions(tasks: Rows, ids: seq<Schema.Id>)
    requires NoDuplicates(ids) && AllIn(ids, tasks)
    ensures var after := Renumbered(tasks, ids);
            && after.Keys == tasks.Keys
            && (forall i :: 0 <= i < |ids| ==> ids[i] in after && after[ids[i]].position == i)
            && (forall t <- tasks :: t !in ids ==> after[t] == tasks[t])
  {
    if ids != [] {
      var n := |ids| - 1;
      assert forall x :: x in ids <==> x in ids[..n] || x == ids[n];
      RenumberedPositions(tasks, ids[..n]);
      forall i | 0 <= i < n ensures ids[..n][i] == ids[i] && ids[i] != ids[n] {
      }
    }
  }

  /** A numbered list that contains exactly a column's active tasks is what the
      column shows. */
  lemma NumberedShows(tasks: Rows, column: Schema.Id, ids: seq<Schema.Id>)
    requires NoDuplicates(ids)
    requires forall x :: x in ids <==> x in ActiveIn(tasks, Some(column))
    requires forall i :: 0 <= i < |ids| ==> ids[i] in tasks && tasks[ids[i]].position == i
    ensures Shows(tasks, column, ids)
  {
    NumberedIsSorted(ids, ActiveIn(tasks, Some(column)), TaskPositions(tasks));
  }

  lemma ListingIs(tasks: Rows, column: Schema.Id)
    ensures var ids := Listing(tasks, column);
            NoDuplicates(ids) && forall x :: x in ids <==> x in ActiveIn(tasks, Some(column))
  {
    SortedLists(ActiveIn(tasks, Some(column)), TaskPositions(tasks));
  }

  lemma WithoutIs(s: seq<Schema.Id>, x: Schema.Id)
    requires NoDuplicates(s)
    ensures NoDuplicates(Without(s, x)) && forall y :: y in Without(s, x) <==> y in s && y != x
  {
    WithoutMembers(s, x);
    WithoutDistinct(s, x);
  }

  lemma {:induction false} WithoutDistinct(s: seq<Schema.Id>, x: Schema.Id)
    requires NoDuplicates(s)
    ensures NoDuplicates(Without(s, x))
  {
    if s != [] {
      WithoutDistinct(s[1..], x);
      WithoutMembers(s[1..], x);
      assert s[0] !in s[1..];
    }
  }

  lemma InsertAtIs(s: seq<Schema.Id>, at: nat, x: Schema.Id)
    requires NoDuplicates(s) && x !in s && at <= |s|
    ensures NoDuplicates(InsertAt(s, at, x)) && InsertAt(s, at, x)[at] == x
    ensures forall y :: y in InsertAt(s, at, x) <==> y in s || y == x
    ensures Without(InsertAt(s, at, x), x) == s
  {
    var r := InsertAt(s, at, x);
    WithoutInserted(s, at, x);
    hide Without;
    forall i | 0 <= i < |r| ensures r[i] == if i < at then s[i] else if i == at then x else s[i - 1] {
    }
    hide InsertAt;
    forall y ensures y in r <==> y in s || y == x {
      if y in s {
        var k :| 0 <= k < |s| && s[k] == y;
        assert r[if k < at then k else k + 1] == y;
      }
    }
  }

  lemma {:induction false} WithoutInserted(s: seq<Schema.Id>, at: nat, x: Schema.Id)
    requires x !in s && at <= |s|
    ensures Without(InsertAt(s, at, x), x) == s
    decreases at
  {
    var r := InsertAt(s, at, x);
    if at == 0 {
      assert r[1..] == s;
      WithoutMembers(s, x);
    } else {
      assert r[1..] == InsertAt(s[1..], at - 1, x);
      assert r[0] == s[0];
      WithoutInserted(s[1..], at - 1, x);
    }
  }

  // ---------- move_task ----------

  /** The target column without the task. */
  lemma SiblingsAre(db: Db, id: Schema.Id, column: Schema.Id)
    ensures Siblings(db, id, column) == Without(Listing(db.tasks, column), id)
  {
    SortedWithout(ActiveIn(db.tasks, Some(column)), TaskPositions(db.tasks), id);
  }

  ghost function Requested(db: Db, id: Schema.Id, column: Schema.Id, target: int): seq<Schema.Id> {
    var siblings := Without(Listing(db.tasks, column), id);
    InsertAt(siblings, InsertionIndex(target, |siblings|), id)
  }

  lemma RequestedIs(db: Db, id: Schema.Id, column: Schema.Id, target: int)
    ensures var ids := Requested(db, id, column, target);
            && NoDuplicates(ids) && Without(ids, id) == Without(Listing(db.tasks, column), id)
            && InsertionIndex(target, |ids| - 1) < |ids| && ids[InsertionIndex(target, |ids| - 1)] == id
            && forall x :: x in ids <==> x == id || x in ActiveIn(db.tasks, Some(column))
  {
    ListingIs(db.tasks, column);
    var siblings := Without(Listing(db.tasks, column), id);
    WithoutIs(Listing(db.tasks, column), id);
    InsertAtIs(siblings, InsertionIndex(target, |siblings|), id);
  }

  lemma ActiveAfterMove(before: Rows, after: Rows, id: Schema.Id, column: Schema.Id, c: Schema.Id)
    requires OnlyPositionsAnd(before, after, id, column) && before[id].archivedAt.None?
    ensures ActiveIn(after, Some(c))
            == if c == column then ActiveIn(before, Some(c)) + {id} else ActiveIn(before, Some(c)) - {id}
  {
    forall t <- before
      ensures t != id ==> after[t].column == before[t].column && after[t].archivedAt == before[t].archivedAt
    {
    }
  }

  lemma RequestedInTasks(db: Db, id: Schema.Id, column: Schema.Id, target: int)
    requires id in db.tasks
    ensures var ids := Requested(db, id, column, target); NoDuplicates(ids) && id in ids && AllIn(ids, db.tasks)
    ensures AllIn(Requested(db, id, column, target), Entered(db.tasks, id, column))
  {
    RequestedIs(db, id, column, target);
    hide Requested;
  }

  lemma EnteredElsewhere(tasks: Rows, id: Schema.Id, column: Schema.Id)
    requires id in tasks
    ensures forall t <- tasks :: t != id ==> t in Entered(tasks, id, column) && Entered(tasks, id, column)[t] == tasks[t]
  {
  }

  lemma MidRows(db: Db, id: Schema.Id, column: Schema.Id, target: int)
    requires id in db.tasks
    ensures var tasks, ids := MovedInto(db, id, column, target), Requested(db, id, column, target);
            && (forall i :: 0 <= i < |ids| ==> ids[i] in tasks && tasks[ids[i]].position == i)
            && (forall t <- db.tasks :: t !in ids ==> t in tasks && tasks[t] == db.tasks[t])
  {
    RequestedInTasks(db, id, column, target);
    MovedIntoIs(db, id, column, target);
    EnteredElsewhere(db.tasks, id, column);
    hide Requested, MovedInto, Renumbered, AllIn, NoDuplicates, Entered;
    RenumberedPositions(Entered(db.tasks, id, column), Requested(db, id, column, target));
  }

  lemma MovedIntoShows(db: Db, id: Schema.Id, column: Schema.Id, target: int)
    requires id in db.tasks && db.tasks[id].archivedAt.None?
    ensures Shows(MovedInto(db, id, column, target), column, Requested(db, id, column, target))
  {
    var tasks, ids := MovedInto(db, id, column, target), Requested(db, id, column, target);
    RequestedIs(db, id, column, target);
    MidRows(db, id, column, target);
    MovedIntoRows(db, id, column, target);
    hide Requested, MovedInto, OnlyPositionsAnd, ActiveIn;
    ActiveAfterMove(db.tasks, tasks, id, column, column);
    NumberedShows(tasks, column, ids);
  }

  lemma MovedIntoIs(db: Db, id: Schema.Id, column: Schema.Id, target: int)
    requires id in db.tasks
    ensures MovedInto(db, id, column, target) == Renumbered(Entered(db.tasks, id, column), Requested(db, id, column, target))
  {
    SiblingsAre(db, id, column);
  }

  /** The source column before its gap is closed: the others in their old order. */
  lemma SourceBeforeClosing(db: Db, id: Schema.Id, column: Schema.Id, target: int, source: Schema.Id)
    requires id in db.tasks && db.tasks[id].archivedAt.None? && source != column
    ensures Listing(MovedInto(db, id, column, target), source) == Without(Listing(db.tasks, source), id)
  {
    var tasks, ids := MovedInto(db, id, column, target), Requested(db, id, column, target);
    var left := ActiveIn(db.tasks, Some(source)) - {id};
    RequestedIs(db, id, column, target);
    MidRows(db, id, column, target);
    MovedIntoRows(db, id, column, target);
    ActiveAfterMove(db.tasks, tasks, id, column, source);
    SortedWithout(ActiveIn(db.tasks, Some(source)), TaskPositions(db.tasks), id);
    hide Requested, MovedInto, OnlyPositionsAnd, Without, Sorted;
    forall x <- left
      ensures x in tasks && TaskPositions(tasks)[x] == TaskPositions(db.tasks)[x]
    {
      assert x !in ids;
    }
    SortedSame(left, TaskPositions(tasks), TaskPositions(db.tasks));
  }

  lemma RenumberedKeepsColumns(tasks: Rows, ids: seq<Schema.Id>, column: Schema.Id)
    ensures ActiveIn(Renumbered(tasks, ids), Some(column)) == ActiveIn(tasks, Some(column))
  {
    RenumberedRows(tasks, ids);
    hide Renumbered;
    forall t <- tasks
      ensures Renumbered(tasks, ids)[t].column == tasks[t].column && Renumbered(tasks, ids)[t].archivedAt == tasks[t].archivedAt
    {
    }
  }

  /** Numbering one column leaves the numbering of another alone. */
  lemma RenumberedElsewhere(tasks: Rows, ids: seq<Schema.Id>, other: Schema.Id, column: Schema.Id)
    requires NoDuplicates(ids) && (forall x :: x in ids <==> x in ActiveIn(tasks, Some(other))) && other != column
    ensures Listing(Renumbered(tasks, ids), column) == Listing(tasks, column)
    ensures forall x <- ActiveIn(tasks, Some(column)) :: x in Renumbered(tasks, ids) && Renumbered(tasks, ids)[x] == tasks[x]
    ensures Shows(Renumbered(tasks, ids), other, ids)
  {
    var after := Renumbered(tasks, ids);
    RenumberedPositions(tasks, ids);
    RenumberedKeepsColumns(tasks, ids, column);
    RenumberedKeepsColumns(tasks, ids, other);
    hide Renumbered;
    SortedSame(ActiveIn(tasks, Some(column)), TaskPositions(tasks), TaskPositions(after));
    NumberedShows(after, other, ids);
  }

  /** The last step of a move across columns: the source closes its gap. */
  lemma ClosedGap(db: Db, id: Schema.Id, column: Schema.Id, target: int, source: Schema.Id)
    requires id in db.tasks && db.tasks[id].archivedAt.None? && db.tasks[id].column == Some(source) && source != column
    ensures var tasks := MovedInto(db, id, column, target);
            Moved(db, id, column, target) == db.(tasks := Renumbered(tasks, Listing(tasks, source)))
  {
    var tasks := MovedInto(db, id, column, target);
    MovedIntoRows(db, id, column, target);
    ActiveAfterMove(db.tasks, tasks, id, column, source);
    hide MovedInto, OnlyPositionsAnd, Renumbered;
    assert ActiveIn(tasks, Some(source)) - {id} == ActiveIn(tasks, Some(source));
  }

  /** What a column shows: its active tasks, each once, by position and then by age. */
  lemma ListingMeans(tasks: Rows, column: Schema.Id)
    ensures var ids := Listing(tasks, column);
            && (forall t :: t in ids <==> t in tasks && tasks[t].column == Some(column) && tasks[t].archivedAt.None?)
            && (forall i, j :: 0 <= i < j < |ids| ==>
                  ids[i] in tasks && ids[j] in tasks && ids[i] != ids[j]
                  && (tasks[ids[i]].position < tasks[ids[j]].position
                      || (tasks[ids[i]].position == tasks[ids[j]].position && ids[i] < ids[j])))
  {
    SortedLists(ActiveIn(tasks, Some(column)), TaskPositions(tasks));
    hide Sorted;
    var ids := Listing(tasks, column);
    forall i, j | 0 <= i < j < |ids|
      ensures ids[i] in tasks && ids[j] in tasks && ids[i] != ids[j] && AtMost(TaskPositions(tasks), ids[i], ids[j])
    {
      assert ids[i] in ids && ids[j] in ids;
    }
  }

  /** move_task, from any positions: the target column shows the task at the
      requested place, clamped to the column, among the others in their old
      order; the source column keeps the order of the rest; both are numbered
      from 0 without gaps; no other column changes. */
  lemma MoveReorders(db: Db, id: Schema.Id, column: Schema.Id, target: int)
    requires id in db.tasks && db.tasks[id].archivedAt.None?
    ensures var after, ids := Moved(db, id, column, target).tasks, Requested(db, id, column, target);
            && Shows(after, column, ids) && Without(ids, id) == Without(Listing(db.tasks, column), id)
            && (var at := if target < 0 then 0 else if target >= |ids| then |ids| - 1 else target; 0 <= at < |ids| && ids[at] == id)
            && (db.tasks[id].column.Some? && db.tasks[id].column.value != column ==>
                  Shows(after, db.tasks[id].column.value, Without(Listing(db.tasks, db.tasks[id].column.value), id)))
  {
    RequestedIs(db, id, column, target);
    MovedIntoShows(db, id, column, target);
    var tasks, source := MovedInto(db, id, column, target), db.tasks[id].column;
    if source.Some? && source.value != column {
      MoveAcross(db, id, column, target, source.value);
    } else {
      hide Requested, MovedInto, Shows;
    }
  }

  lemma StillShows(tasks: Rows, after: Rows, column: Schema.Id, ids: seq<Schema.Id>)
    requires Shows(tasks, column, ids) && Listing(after, column) == Listing(tasks, column)
    requires forall x <- ActiveIn(tasks, Some(column)) :: x in after && after[x] == tasks[x]
    ensures Shows(after, column, ids)
  {
    ListingIs(tasks, column);
    hide Listing;
    forall i | 0 <= i < |ids| ensures ids[i] in after && after[ids[i]].position == i {
      assert ids[i] in ids;
    }
  }

  lemma MoveAcross(db: Db, id: Schema.Id, column: Schema.Id, target: int, source: Schema.Id)
    requires id in db.tasks && db.tasks[id].archivedAt.None? && db.tasks[id].column == Some(source) && source != column
    ensures var after, ids := Moved(db, id, column, target).tasks, Requested(db, id, column, target);
            Shows(after, column, ids) && Shows(after, source, Without(Listing(db.tasks, source), id))
  {
    hide MovedInto, Moved, Requested, Renumbered, Listing, Shows, Without, ActiveIn;
    var tasks, ids := MovedInto(db, id, column, target), Requested(db, id, column, target);
    var rest := Listing(tasks, source);
    MovedIntoShows(db, id, column, target);
    ListingIs(tasks, source);
    SourceBeforeClosing(db, id, column, target, source);
    ClosedGap(db, id, column, target, source);
    RenumberedElsewhere(tasks, rest, source, column);
    StillShows(tasks, Renumbered(tasks, rest), column, ids);
  }

  /** All other columns show what they showed before. */
  lemma MoveLeavesOthers(db: Db, id: Schema.Id, column: Schema.Id, target: int, other: Schema.Id)
    requires id in db.tasks && db.tasks[id].archivedAt.None? && other != column && db.tasks[id].column != Some(other)
    ensures Listing(Moved(db, id, column, target).tasks, other) == Listing(db.tasks, other)
  {
    var tasks, source := MovedInto(db, id, column, target), db.tasks[id].column;
    SourceBeforeClosing(db, id, column, target, other);
    WithoutMembers(Listing(db.tasks, other), id);
    ListingIs(db.tasks, other);
    if source.Some? && source.value != column {
      ClosedGap(db, id, column, target, source.value);
      ListingIs(tasks, source.value);
      hide MovedInto, Moved, Renumbered, Listing, Without;
      RenumberedElsewhere(tasks, Listing(tasks, source.value), source.value, other);
    }
  }

  // ---------- delete_with_move ----------

  lemma AppendedShown(t: Task, u: Task, column: Schema.Id, position: nat)
    requires AppendedRow(t, u, column, position)
    ensures u.column == Some(column) && u.archivedAt == t.archivedAt && u.position == position
  {
  }

  lemma AppendedLast(t: Task, column: Schema.Id, position: nat)
    ensures AppendedRow(t, t.(column := Some(column), position := position, version := t.version + 1), column, position)
  {
  }

  lemma LastIsNew(ids: seq<Schema.Id>, tasks: Rows)
    requires NoDuplicates(ids) && AllIn(ids, tasks) && ids != []
    ensures var n := |ids| - 1;
            && NoDuplicates(ids[..n]) && AllIn(ids[..n], tasks) && ids[n] in tasks && ids[n] !in ids[..n]
            && forall i :: 0 <= i < n ==> ids[..n][i] == ids[i] && ids[i] != ids[n] && ids[i] in tasks
  {
    var n := |ids| - 1;
    forall x <- ids[..n] ensures x in ids {
    }
  }

  lemma AppendedStep(tasks: Rows, ids: seq<Schema.Id>, column: Schema.Id, base: nat)
    requires ids != []
    ensures var n := |ids| - 1;
            var rest, last := Appended(tasks, ids[..n], column, base), ids[n];
            last in rest ==> Appended(tasks, ids, column, base)
                             == rest[last := rest[last].(column := Some(column), position := base + n, version := rest[last].version + 1)]
  {
  }

  lemma {:induction false} AppendedAt(tasks: Rows, ids: seq<Schema.Id>, column: Schema.Id, base: nat, i: nat)
    requires NoDuplicates(ids) && AllIn(ids, tasks) && i < |ids|
    ensures var after := Appended(tasks, ids, column, base);
            && after.Keys == tasks.Keys && ids[i] in tasks
            && AppendedRow(tasks[ids[i]], after[ids[i]], column, base + i)
  {
    hide AppendedRow, Appended, NoDuplicates;
    var n := |ids| - 1;
    var rest := ids[..n];
    LastIsNew(ids, tasks);
    AppendedRows(tasks, rest, column, base);
    AppendedStep(tasks, ids, column, base);
    if i < n {
      AppendedAt(tasks, rest, column, base, i);
    } else {
      AppendedLast(tasks[ids[n]], column, base + n);
    }
  }

  lemma AppendedPositions(tasks: Rows, ids: seq<Schema.Id>, column: Schema.Id, base: nat)
    requires NoDuplicates(ids) && AllIn(ids, tasks)
    ensures var after := Appended(tasks, ids, column, base);
            && after.Keys == tasks.Keys
            && (forall i :: 0 <= i < |ids| ==>
                  ids[i] in tasks && ids[i] in after && AppendedRow(tasks[ids[i]], after[ids[i]], column, base + i))
            && (forall t <- tasks :: t !in ids ==> after[t] == tasks[t])
  {
    AppendedRows(tasks, ids, column, base);
    hide Appended, AppendedRow, NoDuplicates;
    forall i | 0 <= i < |ids|
      ensures ids[i] in tasks && AppendedRow(tasks[ids[i]], Appended(tasks, ids, column, base)[ids[i]], column, base + i)
    {
      AppendedAt(tasks, ids, column, base, i);
    }
  }

  ghost function Emptied(tasks: Rows, column: Schema.Id, target: Schema.Id): Rows {
    ColumnCleared(Appended(tasks, Listing(tasks, column), target, NextInColumn(tasks, Some(target))), column)
  }

  ghost predicate AppendedRow(t: Task, u: Task, target: Schema.Id, position: nat) {
    u == t.(column := Some(target), position := position, version := t.version + 1)
  }

  lemma EmptiedRows(tasks: Rows, column: Schema.Id, target: Schema.Id)
    requires column != target
    ensures var after, ids, base := Emptied(tasks, column, target), Listing(tasks, column), NextInColumn(tasks, Some(target));
            && after.Keys == tasks.Keys
            && (forall i :: 0 <= i < |ids| ==>
                  ids[i] in tasks && ids[i] in after && AppendedRow(tasks[ids[i]], after[ids[i]], target, base + i))
            && (forall t <- tasks :: t !in ids ==>
                  after[t] == if tasks[t].column == Some(column) then tasks[t].(column := None) else tasks[t])
  {
    var ids, base := Listing(tasks, column), NextInColumn(tasks, Some(target));
    ListingIs(tasks, column);
    assert AllIn(ids, tasks);
    AppendedPositions(tasks, ids, target, base);
    hide Listing, NextInColumn, Appended, AllIn, NoDuplicates;
    forall i | 0 <= i < |ids| ensures ids[i] in tasks {
      assert ids[i] in ids;
    }
  }

  lemma EmptiedActive(tasks: Rows, column: Schema.Id, target: Schema.Id)
    requires column != target
    ensures ActiveIn(Emptied(tasks, column, target), Some(target)) == ActiveIn(tasks, Some(target)) + ActiveIn(tasks, Some(column))
  {
    EmptiedRows(tasks, column, target);
    hide Emptied;
    var after := Emptied(tasks, column, target);
    forall t <- tasks
      ensures t in ActiveIn(after, Some(target)) <==> t in ActiveIn(tasks, Some(target)) || t in ActiveIn(tasks, Some(column))
    {
      EmptiedRowAt(tasks, column, target, t);
    }
  }

  lemma NextIsAbove(tasks: Rows, column: Schema.Id)
    ensures forall t <- ActiveIn(tasks, Some(column)) :: tasks[t].position < NextInColumn(tasks, Some(column))
  {
    var used := set t | t in ActiveIn(tasks, Some(column)) :: tasks[t].position;
    assert NextInColumn(tasks, Some(column)) == NextFree(used);
    forall t <- ActiveIn(tasks, Some(column)) ensures tasks[t].position in used {
    }
    hide NextFree;
  }

  /** The tasks of the deleted column follow those of the target, each group in
      its old order; nothing is lost, nothing still names the column, and the
      other tasks stay as they are. */
  lemma DeleteWithMoveAppends(db: Db, column: Schema.Id, target: Schema.Id)
    requires DeleteColumnWithMove(db, column, target).Ok?
    ensures var after := DeleteColumnWithMove(db, column, target).value;
            && Listing(after.tasks, target) == Listing(db.tasks, target) + Listing(db.tasks, column)
            && after.tasks.Keys == db.tasks.Keys
            && (forall t <- after.tasks :: after.tasks[t].column != Some(column))
            && forall t <- db.tasks :: EmptiedRow(db.tasks[t], after.tasks[t], column, target)
  {
    EmptiedListing(db.tasks, column, target);
    EmptiedRows(db.tasks, column, target);
    NothingNames(db.tasks, column, target);
    forall t <- db.tasks ensures EmptiedRow(db.tasks[t], Emptied(db.tasks, column, target)[t], column, target) {
      EmptiedRowAt(db.tasks, column, target, t);
    }
    hide Listing, Removed, EmptiedRow;
  }

  /** A task the column shows moves and changes its version, an archived one loses
      its column, any other stays as it is. */
  predicate EmptiedRow(t: Task, u: Task, column: Schema.Id, target: Schema.Id) {
    if t.column != Some(column) then u == t
    else if t.archivedAt.Some? then u == t.(column := None)
    else u == t.(column := Some(target), position := u.position, version := t.version + 1)
  }

  lemma EmptiedRowAt(tasks: Rows, column: Schema.Id, target: Schema.Id, t: Schema.Id)
    requires column != target && t in tasks
    ensures t in Emptied(tasks, column, target) && EmptiedRow(tasks[t], Emptied(tasks, column, target)[t], column, target)
  {
    hide Emptied, Listing, NextInColumn, NoDuplicates;
    EmptiedRows(tasks, column, target);
    ListingIs(tasks, column);
    var ids := Listing(tasks, column);
    if t in ids {
      var i :| 0 <= i < |ids| && ids[i] == t;
      assert AppendedRow(tasks[t], Emptied(tasks, column, target)[t], target, NextInColumn(tasks, Some(target)) + i);
      assert t in ActiveIn(tasks, Some(column));
    } else {
      assert t !in ActiveIn(tasks, Some(column));
    }
  }

  lemma NothingNames(tasks: Rows, column: Schema.Id, target: Schema.Id)
    ensures forall t <- Emptied(tasks, column, target) :: Emptied(tasks, column, target)[t].column != Some(column)
  {
    hide Appended, Listing, NextInColumn;
  }

  lemma EmptiedListing(tasks: Rows, column: Schema.Id, target: Schema.Id)
    requires column != target
    ensures Listing(Emptied(tasks, column, target), target) == Listing(tasks, target) + Listing(tasks, column)
  {
    var after, top, added := Emptied(tasks, column, target), Listing(tasks, target), Listing(tasks, column);
    var pos := TaskPositions(after);
    EmptiedRows(tasks, column, target);
    EmptiedActive(tasks, column, target);
    NextIsAbove(tasks, target);
    TopStays(tasks, column, target);
    ListingIs(tasks, target);
    ListingIs(tasks, column);
    hide Emptied, Listing, ActiveIn, NextInColumn, Sorted;
    var s := top + added;
    forall i, j | 0 <= i < j < |s|
      ensures s[i] in pos && s[j] in pos && AtMost(pos, s[i], s[j]) && s[i] != s[j]
    {
      Ordered(tasks, column, target, i, j);
    }
    assert forall x :: x in s <==> x in ActiveIn(after, Some(target));
    ListedIs(after, target, s);
  }

  lemma ListedIs(tasks: Rows, column: Schema.Id, s: seq<Schema.Id>)
    requires Lists(s, ActiveIn(tasks, Some(column)), TaskPositions(tasks))
    ensures Listing(tasks, column) == s
  {
    ListsUnique(s, ActiveIn(tasks, Some(column)), TaskPositions(tasks));
  }

  lemma TopStays(tasks: Rows, column: Schema.Id, target: Schema.Id)
    requires column != target
    ensures var top := Listing(tasks, target);
            && (forall i :: 0 <= i < |top| ==>
                  && top[i] in tasks && top[i] in Emptied(tasks, column, target)
                  && Emptied(tasks, column, target)[top[i]].position == tasks[top[i]].position
                  && tasks[top[i]].position < NextInColumn(tasks, Some(target))
                  && top[i] !in Listing(tasks, column))
            && (forall i, j :: 0 <= i < j < |top| ==> AtMost(TaskPositions(tasks), top[i], top[j]) && top[i] != top[j])
  {
    SortedLists(ActiveIn(tasks, Some(target)), TaskPositions(tasks));
    EmptiedRows(tasks, column, target);
    ListingIs(tasks, column);
    ListingIs(tasks, target);
    NextIsAbove(tasks, target);
    var top := Listing(tasks, target);
    hide Emptied, NextInColumn, Sorted;
    forall i | 0 <= i < |top| ensures top[i] in ActiveIn(tasks, Some(target)) && top[i] !in Listing(tasks, column) {
      assert top[i] in top;
    }
  }

  lemma Ordered(tasks: Rows, column: Schema.Id, target: Schema.Id, i: nat, j: nat)
    requires column != target && i < j < |Listing(tasks, target)| + |Listing(tasks, column)|
    ensures var pos, s := TaskPositions(Emptied(tasks, column, target)), Listing(tasks, target) + Listing(tasks, column);
            s[i] in pos && s[j] in pos && AtMost(pos, s[i], s[j]) && s[i] != s[j]
  {
    hide Listing, Emptied, NextInColumn;
    TopStays(tasks, column, target);
    EmptiedRows(tasks, column, target);
    ListingIs(tasks, column);
    var top, added := Listing(tasks, target), Listing(tasks, column);
    if i < |top| <= j {
      assert added[j - |top|] in added;
    }
  }
}
