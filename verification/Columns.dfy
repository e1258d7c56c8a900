/** Column positions of a board (apps/workspaces/services.py and views.py). */
module Columns {
  import opened Options
  import opened Ordering
  import opened Schema

  type Cols = map<Id, Column>

  const DEFAULT_TITLES := ["Offen", "In Arbeit", "Erledigt"]

  function OnBoard(cols: Cols, board: Id): set<Id> {
    set c | c in cols && cols[c].board == board
  }

  function Positions(cols: Cols): map<Id, nat> {
    map c | c in cols :: cols[c].position
  }

  /** The columns of a board as the board shows them. */
  ghost function ColumnList(cols: Cols, board: Id): seq<Id> {
    Sorted(OnBoard(cols, board), Positions(cols))
  }

  // ---------- The unique constraints and the intake rule ----------

  /** board_column_position_unique */
  ghost predicate DistinctPositions(cols: Cols) {
    forall c, d :: c in cols && d in cols && c != d && cols[c].board == cols[d].board
                   ==> cols[c].position != cols[d].position
  }

  /** board_column_system_role_unique */
  ghost predicate DistinctRoles(cols: Cols) {
    forall c, d :: c in cols && d in cols && c != d && cols[c].board == cols[d].board
                   ==> cols[c].role == NoRole || cols[c].role != cols[d].role
  }

  ghost predicate IntakeFirst(cols: Cols) {
    forall c :: c in cols && cols[c].role == NewAssigned ==> cols[c].position == 0 && cols[c].fixedPosition
  }

  ghost predicate ColumnsOk(cols: Cols) {
    DistinctPositions(cols) && DistinctRoles(cols) && IntakeFirst(cols)
  }

  /** No column moves to another board, and no intake column disappears. */
  ghost predicate Preserves(before: Cols, after: Cols) {
    && (forall c :: c in before && c in after ==> after[c].board == before[c].board && after[c].role == before[c].role)
    && (forall c :: c in before && before[c].role == NewAssigned ==> c in after)
  }

  // ---------- Making room for the intake column ----------

  /** The state after the rows in `done` have been moved down by one. */
  function PartlyShifted(cols: Cols, board: Id, done: set<Id>): Cols {
    map c | c in cols ::
      if c in done && cols[c].board == board then cols[c].(position := cols[c].position + 1) else cols[c]
  }

  function Shifted(cols: Cols, board: Id): Cols {
    PartlyShifted(cols, board, cols.Keys)
  }

  /** Whatever lies below a shifted row has been shifted as well. */
  ghost predicate FromTheEnd(cols: Cols, board: Id, done: set<Id>) {
    forall c, d ::
      c in done && c in cols && d in cols && cols[c].board == cols[d].board == board && cols[c].position < cols[d].position
      ==> d in done
  }

  /** Saving the rows one by one in descending order never collides. */
  lemma ShiftNeverCollides(cols: Cols, board: Id, done: set<Id>)
    requires DistinctPositions(cols) && FromTheEnd(cols, board, done)
    ensures DistinctPositions(PartlyShifted(cols, board, done))
  {
  }

  // ---------- The intake column ----------

  function WithRole(cols: Cols, board: Id, role: Role): set<Id> {
    set c | c in cols && cols[c].board == board && cols[c].role == role
  }

  function Ordinary(cols: Cols, board: Id): set<Id> {
    set c | c in cols && cols[c].board == board && cols[c].role != NewAssigned
  }

  ghost function FirstOf(cols: Cols, ids: set<Id>): Option<Id>
    requires ids <= cols.Keys
  {
    if ids == {} then None else Some(First(ids, Positions(cols)))
  }

  ghost function IntakeOf(cols: Cols, board: Id): Option<Id> {
    FirstOf(cols, WithRole(cols, board, NewAssigned))
  }

  function IntakeColumn(board: Id): Column {
    Column(board, "Neu", 0, true, NewAssigned)
  }

  /** _ensure_personal_intake_column: the new columns, and the column that
      takes incoming tasks. */
  ghost function EnsureIntake(cols: Cols, board: Id, dynamic: bool, newId: Id): (Cols, Id) {
    var intake := IntakeOf(cols, board);
    var fallback := FirstOf(cols, Ordinary(cols, board));
    if dynamic then
      if intake.None? then (Shifted(cols, board)[newId := IntakeColumn(board)], newId) else (cols, intake.value)
    else if fallback.Some? then (cols, fallback.value)
    else if intake.Some? then (cols, intake.value)
    else (cols[newId := Column(board, DEFAULT_TITLES[0], 0, false, NoRole)], newId)
  }

  lemma ShiftedOk(cols: Cols, board: Id)
    requires ColumnsOk(cols) && WithRole(cols, board, NewAssigned) == {}
    ensures ColumnsOk(Shifted(cols, board))
    ensures forall c :: c in cols && cols[c].board == board ==> Shifted(cols, board)[c].position > 0
  {
    ShiftNeverCollides(cols, board, cols.Keys);
    assert forall c :: c in cols && cols[c].board == board ==>
        (cols[c].role == NewAssigned ==> c in WithRole(cols, board, NewAssigned));
  }

  // A new row is accepted when neither its position nor its role is taken.
  lemma InsertOk(cols: Cols, newId: Id, column: Column)
    requires ColumnsOk(cols) && newId !in cols
    requires forall c :: c in cols && cols[c].board == column.board ==>
               cols[c].position != column.position && (column.role == NoRole || cols[c].role != column.role)
    requires column.role == NewAssigned ==> column.position == 0 && column.fixedPosition
    ensures ColumnsOk(cols[newId := column]) && Preserves(cols, cols[newId := column])
  {
  }

  lemma InsertIntakeOk(cols: Cols, board: Id, newId: Id)
    requires ColumnsOk(cols) && newId !in cols && WithRole(cols, board, NewAssigned) == {}
    ensures var after := Shifted(cols, board)[newId := IntakeColumn(board)];
            ColumnsOk(after) && Preserves(cols, after)
  {
    ShiftedOk(cols, board);
    assert forall c :: c in cols && cols[c].board == board ==>
        (cols[c].role == NewAssigned ==> c in WithRole(cols, board, NewAssigned));
    hide ColumnsOk;
    InsertOk(Shifted(cols, board), newId, IntakeColumn(board));
  }

  lemma FirstColumnOk(cols: Cols, board: Id, newId: Id)
    requires ColumnsOk(cols) && newId !in cols && OnBoard(cols, board) == {}
    ensures var after := cols[newId := Column(board, DEFAULT_TITLES[0], 0, false, NoRole)];
            ColumnsOk(after) && Preserves(cols, after)
  {
    assert forall c :: c in cols && cols[c].board == board ==> c in OnBoard(cols, board);
    InsertOk(cols, newId, Column(board, DEFAULT_TITLES[0], 0, false, NoRole));
  }

  lemma EnsureIntakeOk(cols: Cols, board: Id, dynamic: bool, newId: Id)
    requires ColumnsOk(cols) && newId !in cols
    ensures var (after, column) := EnsureIntake(cols, board, dynamic, newId);
            && ColumnsOk(after) && Preserves(cols, after)
            && cols.Keys <= after.Keys <= cols.Keys + {newId}
            && column in after && after[column].board == board
            && (newId in after ==> after[newId].board == board)
  {
    if dynamic && IntakeOf(cols, board).None? {
      InsertIntakeOk(cols, board, newId);
    } else if !dynamic && FirstOf(cols, Ordinary(cols, board)).None? && IntakeOf(cols, board).None? {
      assert OnBoard(cols, board) <= Ordinary(cols, board) + WithRole(cols, board, NewAssigned);
      FirstColumnOk(cols, board, newId);
    }
    hide First, ColumnsOk, DEFAULT_TITLES;
  }

  /** With the dynamic column switched on, ensuring it twice is ensuring it once
      -- and so it is with the column switched off. */
  lemma EnsureIntakeIdempotent(cols: Cols, board: Id, dynamic: bool, newId: Id, nextId: Id)
    requires newId !in cols
    ensures var (after, column) := EnsureIntake(cols, board, dynamic, newId);
            EnsureIntake(after, board, dynamic, nextId) == (after, column)
  {
    var (after, column) := EnsureIntake(cols, board, dynamic, newId);
    if dynamic {
      if IntakeOf(cols, board).None? {
        assert WithRole(after, board, NewAssigned) == {newId};
      }
    } else if FirstOf(cols, Ordinary(cols, board)).None? && IntakeOf(cols, board).None? {
      assert Ordinary(after, board) == {newId};
    }
  }

  // ---------- Numbering columns along a list ----------

  function IndexOf(s: seq<Id>, x: Id): (i: nat)
    requires x in s
    ensures i < |s| && s[i] == x
  {
    if s[0] == x then 0 else 1 + IndexOf(s[1..], x)
  }

  lemma IndexUnique(s: seq<Id>, i: nat)
    requires NoDuplicates(s) && i < |s|
    ensures IndexOf(s, s[i]) == i
  {
    var k := IndexOf(s, s[i]);
    assert s[k] == s[i];
  }

  /** The state after the rows in `done` have been given their place in the list. */
  function PartlyNumbered(cols: Cols, ids: seq<Id>, base: nat, done: set<Id>): Cols {
    map c | c in cols ::
      if c in done && c in ids then cols[c].(position := base + IndexOf(ids, c)) else cols[c]
  }

  function Numbered(cols: Cols, ids: seq<Id>, base: nat): Cols {
    PartlyNumbered(cols, ids, base, cols.Keys)
  }

  function Members(s: seq<Id>): set<Id> {
    set x | x in s
  }

  ghost predicate CompleteOrder(cols: Cols, board: Id, ids: seq<Id>) {
    NoDuplicates(ids) && Members(ids) == OnBoard(cols, board)
  }

  /** The temporary positions start above every position in use. */
  function TemporaryBase(cols: Cols, board: Id, count: nat): (base: nat)
    ensures base >= count
    ensures forall c :: c in cols && cols[c].board == board ==> cols[c].position < base
  {
    var used := set c | c in OnBoard(cols, board) :: cols[c].position;
    assert forall c :: c in cols && cols[c].board == board ==> c in OnBoard(cols, board) && cols[c].position in used;
    NextFree(used) + count
  }

  /** First phase: the board's columns move above every position in use. In
      whatever order the database writes the rows, no two ever collide. */
  lemma FirstPhaseNeverCollides(cols: Cols, board: Id, ids: seq<Id>, base: nat, done: set<Id>)
    requires DistinctPositions(cols) && CompleteOrder(cols, board, ids)
    requires forall c :: c in cols && cols[c].board == board ==> cols[c].position < base
    ensures DistinctPositions(PartlyNumbered(cols, ids, base, done))
  {
    NumberedDistinct(cols, board, ids, base, done);
  }

  // Numbered rows are distinct among themselves.
  lemma NumberedDistinct(cols: Cols, board: Id, ids: seq<Id>, base: nat, done: set<Id>)
    requires DistinctPositions(cols) && CompleteOrder(cols, board, ids)
    requires forall c, d :: c in cols && d in cols && cols[c].board == cols[d].board == board
                            && c in done && c in ids && d !in done
                            ==> base + IndexOf(ids, c) != cols[d].position
    ensures DistinctPositions(PartlyNumbered(cols, ids, base, done))
  {
    forall x | x in ids ensures x in cols && cols[x].board == board {
      assert x in Members(ids);
    }
    forall x | x in cols && cols[x].board == board ensures x in ids {
      assert x in Members(ids);
    }
  }

  /** Second phase: from the temporary positions back to 0, 1, 2, ..., again in
      any row order. */
  lemma SecondPhaseNeverCollides(cols: Cols, board: Id, ids: seq<Id>, base: nat, done: set<Id>)
    requires DistinctPositions(cols) && CompleteOrder(cols, board, ids) && base >= |ids|
    ensures DistinctPositions(Numbered(cols, ids, base)) ==>
              DistinctPositions(PartlyNumbered(Numbered(cols, ids, base), ids, 0, done))
  {
    var temporary := Numbered(cols, ids, base);
    if DistinctPositions(temporary) {
      forall x | x in cols && cols[x].board == board ensures x in ids {
        assert x in Members(ids);
      }
      assert OnBoard(temporary, board) == OnBoard(cols, board);
      NumberedDistinct(temporary, board, ids, 0, done);
    }
  }

  /** _reindex_board_columns, as the two phases leave it. */
  function Reindexed(cols: Cols, board: Id, ids: seq<Id>): Cols {
    Numbered(Numbered(cols, ids, TemporaryBase(cols, board, |ids|)), ids, 0)
  }

  /** The result is the requested order, densely numbered. */
  lemma ReindexedIsRequestedOrder(cols: Cols, board: Id, ids: seq<Id>)
    requires DistinctPositions(cols) && CompleteOrder(cols, board, ids)
    ensures var after := Reindexed(cols, board, ids);
            && DistinctPositions(after) && Preserves(cols, after)
            && after.Keys == cols.Keys
            && (forall i :: 0 <= i < |ids| ==> ids[i] in after && after[ids[i]].position == i)
            && ColumnList(after, board) == ids
            && (forall c :: c in cols && cols[c].board != board ==> after[c] == cols[c])
  {
    var base := TemporaryBase(cols, board, |ids|);
    FirstPhaseNeverCollides(cols, board, ids, base, cols.Keys);
    SecondPhaseNeverCollides(cols, board, ids, base, cols.Keys);
    assert Numbered(cols, ids, base).Keys == cols.Keys;
    hide DistinctPositions;
    ReindexedPositions(cols, board, ids);
    ListedAsNumbered(cols, Reindexed(cols, board, ids), board, ids);
    hide Reindexed;
  }

  lemma ListedAsNumbered(cols: Cols, after: Cols, board: Id, ids: seq<Id>)
    requires CompleteOrder(cols, board, ids) && after.Keys == cols.Keys
    requires forall c :: c in cols ==> after[c].board == cols[c].board
    requires forall i :: 0 <= i < |ids| ==> ids[i] in after && after[ids[i]].position == i
    ensures ColumnList(after, board) == ids
  {
    assert OnBoard(after, board) == OnBoard(cols, board);
    forall x
      ensures x in ids <==> x in OnBoard(after, board)
    {
      assert x in Members(ids) <==> x in ids;
    }
    NumberedIsSorted(ids, OnBoard(after, board), Positions(after));
  }

  lemma ReindexedPositions(cols: Cols, board: Id, ids: seq<Id>)
    requires CompleteOrder(cols, board, ids)
    ensures var after := Reindexed(cols, board, ids);
            && after.Keys == cols.Keys
            && (forall c :: c in cols ==> after[c].board == cols[c].board && after[c].role == cols[c].role
                                          && after[c].fixedPosition == cols[c].fixedPosition)
            && (forall i :: 0 <= i < |ids| ==> ids[i] in after && after[ids[i]].position == i)
            && (forall c :: c in cols && cols[c].board != board ==> after[c] == cols[c])
  {
    forall x | x in ids ensures x in cols && cols[x].board == board {
      assert x in Members(ids);
    }
    forall i | 0 <= i < |ids|
      ensures ids[i] in cols && Reindexed(cols, board, ids)[ids[i]].position == i
    {
      assert ids[i] in ids;
      IndexUnique(ids, i);
    }
  }

  // ---------- The board's column operations ----------

  /** create_column: at the end of the board. */
  function Added(cols: Cols, board: Id, newId: Id, title: string): Cols {
    var used := set c | c in OnBoard(cols, board) :: cols[c].position;
    cols[newId := Column(board, title, NextFree(used), false, NoRole)]
  }

  lemma AddedOk(cols: Cols, board: Id, newId: Id, title: string)
    requires ColumnsOk(cols) && newId !in cols
    ensures ColumnsOk(Added(cols, board, newId, title)) && Preserves(cols, Added(cols, board, newId, title))
  {
    var used := set c | c in OnBoard(cols, board) :: cols[c].position;
    assert forall c :: c in cols && cols[c].board == board ==> c in OnBoard(cols, board) && cols[c].position in used;
    InsertOk(cols, newId, Column(board, title, NextFree(used), false, NoRole));
  }

  /** reorder_columns: the request must name every column once, intake first. */
  ghost function Reordered(cols: Cols, board: Id, ids: seq<Id>): Result<Cols, Error> {
    if ids == [] || !CompleteOrder(cols, board, ids) then Err(IncompleteOrder)
    else if WithRole(cols, board, NewAssigned) != {} && ids[0] !in WithRole(cols, board, NewAssigned)
    then Err(IntakeMustStayFirst)
    else Ok(Reindexed(cols, board, ids))
  }

  lemma ReorderedOk(cols: Cols, board: Id, ids: seq<Id>)
    requires ColumnsOk(cols) && Reordered(cols, board, ids).Ok?
    ensures var after := Reordered(cols, board, ids).value;
            && ColumnsOk(after) && Preserves(cols, after) && after.Keys == cols.Keys
            && ColumnList(after, board) == ids
  {
    ReindexedIsRequestedOrder(cols, board, ids);
    IntakeHeads(cols, board, ids);
  }

  lemma RolesStay(before: Cols, after: Cols)
    requires DistinctRoles(before) && after.Keys == before.Keys
    requires forall c :: c in before ==> after[c].board == before[c].board && after[c].role == before[c].role
    ensures DistinctRoles(after)
  {
  }

  // If the list starts with the intake column of the board, reindexing keeps it first.
  lemma IntakeStaysFirst(cols: Cols, board: Id, ids: seq<Id>)
    requires DistinctRoles(cols) && IntakeFirst(cols) && CompleteOrder(cols, board, ids)
    requires WithRole(cols, board, NewAssigned) != {} ==> ids != [] && ids[0] in WithRole(cols, board, NewAssigned)
    ensures IntakeFirst(Reindexed(cols, board, ids))
  {
    hide CompleteOrder, Reindexed;
    ReindexedPositions(cols, board, ids);
    var after := Reindexed(cols, board, ids);
    forall c | c in after && after[c].role == NewAssigned
      ensures after[c].position == 0 && after[c].fixedPosition
    {
      if cols[c].board == board {
        assert c in WithRole(cols, board, NewAssigned);
        assert ids[0] == c;
      }
    }
  }

  lemma IntakeHeads(cols: Cols, board: Id, ids: seq<Id>)
    requires ColumnsOk(cols) && CompleteOrder(cols, board, ids)
    requires WithRole(cols, board, NewAssigned) != {} ==> ids != [] && ids[0] in WithRole(cols, board, NewAssigned)
    ensures ColumnsOk(Reindexed(cols, board, ids))
  {
    hide CompleteOrder, Reindexed, DistinctPositions, DistinctRoles, IntakeFirst, Preserves;
    ReindexedIsRequestedOrder(cols, board, ids);
    ReindexedPositions(cols, board, ids);
    RolesStay(cols, Reindexed(cols, board, ids));
    IntakeStaysFirst(cols, board, ids);
  }

  /** BoardColumnViewSet.partial_update */
  function Renamed(cols: Cols, column: Id, title: string): Cols
    requires column in cols
  {
    cols[column := cols[column].(title := title)]
  }

  lemma RenamedOk(cols: Cols, column: Id, title: string)
    requires ColumnsOk(cols) && column in cols
    ensures ColumnsOk(Renamed(cols, column, title)) && Preserves(cols, Renamed(cols, column, title))
    ensures Renamed(cols, column, title).Keys == cols.Keys
  {
  }

  /** Deleting a column, then closing the gap. */
  ghost function Removed(cols: Cols, column: Id): Cols
    requires column in cols
  {
    var left := cols - {column};
    Reindexed(left, cols[column].board, ColumnList(left, cols[column].board))
  }

  lemma ColumnListComplete(cols: Cols, board: Id)
    ensures CompleteOrder(cols, board, ColumnList(cols, board))
  {
    SortedLists(OnBoard(cols, board), Positions(cols));
  }

  lemma IntakeListedFirst(cols: Cols, board: Id)
    requires ColumnsOk(cols) && WithRole(cols, board, NewAssigned) != {}
    ensures ColumnList(cols, board) != [] && ColumnList(cols, board)[0] in WithRole(cols, board, NewAssigned)
  {
    var c :| c in WithRole(cols, board, NewAssigned);
    var ids := ColumnList(cols, board);
    SortedLists(OnBoard(cols, board), Positions(cols));
    assert c in ids && ids[0] in ids;
    var i :| 0 <= i < |ids| && ids[i] == c;
    assert Ordering.AtMost(Positions(cols), ids[0], ids[i]);
  }

  lemma RemovedOk(cols: Cols, column: Id)
    requires ColumnsOk(cols) && column in cols && cols[column].role == NoRole
    ensures ColumnsOk(Removed(cols, column)) && Preserves(cols, Removed(cols, column))
    ensures Removed(cols, column).Keys == cols.Keys - {column}
  {
    var left, board := cols - {column}, cols[column].board;
    assert ColumnsOk(left);
    ColumnListComplete(left, board);
    if WithRole(left, board, NewAssigned) != {} {
      IntakeListedFirst(left, board);
    }
    IntakeHeads(left, board, ColumnList(left, board));
    ReindexedPositions(left, board, ColumnList(left, board));
  }

  // ---------- The default columns of a new board ----------

  function DefaultColumn(board: Id, offset: nat, k: nat): Column
    requires k < 3
  {
    Column(board, DEFAULT_TITLES[k], offset + k, false, NoRole)
  }

  /** Three columns with the ids newId, newId + 1, newId + 2. */
  function WithDefaults(cols: Cols, board: Id, offset: nat, newId: Id): Cols {
    cols[newId := DefaultColumn(board, offset, 0)]
        [newId + 1 := DefaultColumn(board, offset, 1)]
        [newId + 2 := DefaultColumn(board, offset, 2)]
  }

  lemma DefaultsOneByOne(cols: Cols, board: Id, offset: nat, newId: Id)
    requires ColumnsOk(cols) && OnBoard(cols, board) == {}
    requires newId !in cols && newId + 1 !in cols && newId + 2 !in cols
    ensures var one := cols[newId := DefaultColumn(board, offset, 0)];
            var two := one[newId + 1 := DefaultColumn(board, offset, 1)];
            ColumnsOk(one) && ColumnsOk(two) && ColumnsOk(two[newId + 2 := DefaultColumn(board, offset, 2)])
  {
    assert forall c :: c in cols && cols[c].board == board ==> c in OnBoard(cols, board);
    hide ColumnsOk;
    var one := cols[newId := DefaultColumn(board, offset, 0)];
    var two := one[newId + 1 := DefaultColumn(board, offset, 1)];
    InsertOk(cols, newId, DefaultColumn(board, offset, 0));
    InsertOk(one, newId + 1, DefaultColumn(board, offset, 1));
    InsertOk(two, newId + 2, DefaultColumn(board, offset, 2));
  }

  // A map that only grew.
  lemma GrownPreserves(before: Cols, after: Cols)
    requires forall c :: c in before ==> c in after && after[c] == before[c]
    ensures Preserves(before, after)
  {
  }

  lemma WithDefaultsOk(cols: Cols, board: Id, offset: nat, newId: Id)
    requires ColumnsOk(cols) && OnBoard(cols, board) == {}
    requires newId !in cols && newId + 1 !in cols && newId + 2 !in cols
    ensures ColumnsOk(WithDefaults(cols, board, offset, newId)) && Preserves(cols, WithDefaults(cols, board, offset, newId))
  {
    hide ColumnsOk, OnBoard, DefaultColumn, Preserves;
    DefaultsOneByOne(cols, board, offset, newId);
    GrownPreserves(cols, WithDefaults(cols, board, offset, newId));
  }
}
