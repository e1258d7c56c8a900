/** The services as they run: rows are changed in place, one after the other,
    and each service leaves exactly the state its description in Tasks and
    Workspace gives (apps/workspaces/services.py and views.py). */
module WorkspaceService {
  import opened Boards
  import opened Columns
  import opened History
  import opened Lifecycle
  import opened Locking
  import opened MirrorEdits
  import opened Mirroring
  import opened Options
  import opened Ordering
  import opened Overwrites
  import opened Placement
  import opened RouteKeys
  import opened Schema
  import opened Structure
  import opened TaskOrder
  import opened Tasks
  import opened Validity
  import opened Workspace

  // ---------- Facts about the descriptions ----------

  lemma UnlinkedTwice(t: Task, f1: set<Schema.Id>, g1: set<Schema.Id>, f2: set<Schema.Id>, g2: set<Schema.Id>)
    ensures Unlinked(Unlinked(t, f1, g1), f2, g2) == Unlinked(t, f1 + f2, g1 + g2)
  {
  }

  lemma CutTwice(db: Db, f1: set<Schema.Id>, g1: set<Schema.Id>, f2: set<Schema.Id>, g2: set<Schema.Id>)
    ensures Cut(Cut(db, f1, g1), f2, g2) == Cut(db, f1 + f2, g1 + g2)
  {
    var twice, once := Cut(Cut(db, f1, g1), f2, g2), Cut(db, f1 + f2, g1 + g2);
    hide Unlinked;
    assert twice.tasks.Keys == once.tasks.Keys && twice.subtasks.Keys == once.subtasks.Keys;
    forall t | t in db.tasks && t !in f1 + f2
      ensures t in twice.tasks && t in once.tasks && twice.tasks[t] == once.tasks[t]
    {
      UnlinkedTwice(db.tasks[t], f1, g1, f2, g2);
    }
  }

  lemma FamilyOneMore(db: Db, done: set<Schema.Id>, gone: set<Schema.Id>, x: Schema.Id)
    ensures Family(db, done + {x}) == Family(db, done) + Family(Cut(db, Family(db, done), gone), {x})
  {
  }

  lemma SubtasksOneMore(db: Db, f1: set<Schema.Id>, f2: set<Schema.Id>)
    ensures SubtasksOf(db, f1 + f2) == SubtasksOf(db, f1) + SubtasksOf(Cut(db, f1, SubtasksOf(db, f1)), f2)
  {
  }

  /** Deleting one more row. */
  lemma DeleteOneMore(db: Db, done: set<Schema.Id>, x: Schema.Id)
    ensures DeleteTasks(DeleteTasks(db, done), {x}) == DeleteTasks(db, done + {x})
  {
    hide Cut, Family, SubtasksOf;
    var f1, g1 := Family(db, done), SubtasksOf(db, Family(db, done));
    var first := Cut(db, f1, g1);
    var f2 := Family(first, {x});
    FamilyOneMore(db, done, g1, x);
    SubtasksOneMore(db, f1, f2);
    CutTwice(db, f1, g1, f2, SubtasksOf(first, f2));
  }

  // ---------- Facts about the intake column ----------

  /** Saving the columns from the last to the first keeps the invariant of the shift. */
  lemma SuffixFromTheEnd(cols: Cols, board: Schema.Id, ids: seq<Schema.Id>, i: nat)
    requires DistinctPositions(cols) && i <= |ids| && ids == ColumnList(cols, board)
    ensures FromTheEnd(cols, board, Members(ids[i..]))
  {
    SortedLists(OnBoard(cols, board), Positions(cols));
    forall c, d | c in Members(ids[i..]) && c in cols && d in cols && cols[c].board == cols[d].board == board
                  && cols[c].position < cols[d].position
      ensures d in Members(ids[i..])
    {
      var k :| i <= k < |ids| && ids[k] == c;
      assert d in OnBoard(cols, board) && d in ids;
      var m :| 0 <= m < |ids| && ids[m] == d;
      assert ids[m] == d && ids[k] == c;
      assert ids[i..][m - i] == d;
    }
  }

  lemma ShiftOneMore(cols: Cols, board: Schema.Id, ids: seq<Schema.Id>, i: nat)
    requires i < |ids| && ids == ColumnList(cols, board)
    ensures ids[i] in cols && cols[ids[i]].board == board && ids[i] !in Members(ids[i + 1..])
    ensures var mid := PartlyShifted(cols, board, Members(ids[i + 1..]));
            && ids[i] in mid && mid[ids[i]] == cols[ids[i]]
            && mid[ids[i] := cols[ids[i]].(position := cols[ids[i]].position + 1)] == PartlyShifted(cols, board, Members(ids[i..]))
  {
    hide PartlyShifted, Members, Sorted;
    SortedLists(OnBoard(cols, board), Positions(cols));
    assert ids[i] in ids && ids[i] in OnBoard(cols, board);
    SuffixMembers(ids, i);
    ShiftOneRow(cols, board, Members(ids[i + 1..]), ids[i]);
  }

  lemma SuffixMembers(ids: seq<Schema.Id>, i: nat)
    requires i < |ids| && NoDuplicates(ids)
    ensures Members(ids[i..]) == Members(ids[i + 1..]) + {ids[i]} && ids[i] !in Members(ids[i + 1..])
  {
    assert ids[i..] == [ids[i]] + ids[i + 1..];
  }

  lemma ShiftOneRow(cols: Cols, board: Schema.Id, done: set<Schema.Id>, c: Schema.Id)
    requires c in cols && cols[c].board == board && c !in done
    ensures var mid := PartlyShifted(cols, board, done);
            && c in mid && mid[c] == cols[c]
            && mid[c := cols[c].(position := cols[c].position + 1)] == PartlyShifted(cols, board, done + {c})
  {
  }

  lemma ShiftedAll(cols: Cols, board: Schema.Id, ids: seq<Schema.Id>)
    requires ids == ColumnList(cols, board)
    ensures PartlyShifted(cols, board, Members(ids)) == Shifted(cols, board)
  {
    SortedLists(OnBoard(cols, board), Positions(cols));
    forall c | c in cols && cols[c].board == board ensures c in Members(ids) {
      assert c in OnBoard(cols, board);
    }
  }

  ghost function ShiftedFrom(cols: Cols, board: Schema.Id, ids: seq<Schema.Id>, i: nat): Cols
    requires i <= |ids|
  {
    PartlyShifted(cols, board, Members(ids[i..]))
  }

  /** Saving the next column keeps the unique constraint. */
  lemma ShiftStep(cols: Cols, board: Schema.Id, ids: seq<Schema.Id>, i: nat)
    requires i < |ids| && ids == ColumnList(cols, board) && DistinctPositions(cols)
    ensures var mid := ShiftedFrom(cols, board, ids, i + 1);
            && ids[i] in mid
            && mid[ids[i] := mid[ids[i]].(position := mid[ids[i]].position + 1)] == ShiftedFrom(cols, board, ids, i)
            && DistinctPositions(ShiftedFrom(cols, board, ids, i))
  {
    ShiftOneMore(cols, board, ids, i);
    SuffixFromTheEnd(cols, board, ids, i);
    hide DistinctPositions, FromTheEnd, PartlyShifted, ColumnList;
    ShiftNeverCollides(cols, board, Members(ids[i..]));
  }

  lemma ShiftEnds(cols: Cols, board: Schema.Id, ids: seq<Schema.Id>)
    requires ids == ColumnList(cols, board)
    ensures ShiftedFrom(cols, board, ids, |ids|) == cols && ShiftedFrom(cols, board, ids, 0) == Shifted(cols, board)
  {
    assert ids[0..] == ids;
    ShiftedAll(cols, board, ids);
  }

  // ---------- Facts about numbering ----------

  lemma NumberedNone(cols: Cols, ids: seq<Schema.Id>, base: nat)
    ensures PartlyNumbered(cols, ids, base, Members(ids) - Members(ids)) == cols
  {
  }

  lemma NumberedOneMore(cols: Cols, ids: seq<Schema.Id>, base: nat, done: set<Schema.Id>, c: Schema.Id)
    requires c in ids && c in cols && c !in done
    ensures var mid := PartlyNumbered(cols, ids, base, done);
            c in mid && mid[c := mid[c].(position := base + IndexOf(ids, c))] == PartlyNumbered(cols, ids, base, done + {c})
  {
  }

  lemma NumberedMembers(cols: Cols, ids: seq<Schema.Id>, base: nat)
    ensures PartlyNumbered(cols, ids, base, Members(ids) - {}) == Numbered(cols, ids, base)
  {
  }

  lemma NumberedKeys(cols: Cols, ids: seq<Schema.Id>, base: nat)
    ensures Numbered(cols, ids, base).Keys == cols.Keys
  {
  }

  /** Whatever the order of writing, neither phase violates the constraint. */
  lemma PhasesNeverCollide(cols: Cols, board: Schema.Id, ids: seq<Schema.Id>)
    requires DistinctPositions(cols) && CompleteOrder(cols, board, ids)
    ensures var base := TemporaryBase(cols, board, |ids|);
            && (forall x :: x in ids ==> x in cols)
            && (forall done :: DistinctPositions(PartlyNumbered(cols, ids, base, done)))
            && (forall done :: DistinctPositions(PartlyNumbered(Numbered(cols, ids, base), ids, 0, done)))
  {
    var base := TemporaryBase(cols, board, |ids|);
    forall x | x in ids ensures x in cols {
      assert x in Members(ids);
    }
    hide DistinctPositions, CompleteOrder, PartlyNumbered;
    forall done ensures DistinctPositions(PartlyNumbered(cols, ids, base, done)) {
      FirstPhaseNeverCollides(cols, board, ids, base, done);
    }
    forall done ensures DistinctPositions(PartlyNumbered(Numbered(cols, ids, base), ids, 0, done)) {
      SecondPhaseNeverCollides(cols, board, ids, base, done);
    }
  }

  lemma ColumnsHold(db: Db)
    requires WellFormed(db)
    ensures DistinctPositions(db.columns)
  {
    hide DistinctPositions;
  }

  /** A list without repetition has as many members as entries. */
  lemma {:induction false} DistinctIs(ids: seq<Schema.Id>)
    ensures |Members(ids)| <= |ids| && (|Members(ids)| == |ids| <==> NoDuplicates(ids))
  {
    if ids == [] {
      assert Members(ids) == {};
    } else {
      var n := |ids| - 1;
      DistinctIs(ids[..n]);
      assert ids == ids[..n] + [ids[n]];
      assert Members(ids) == Members(ids[..n]) + {ids[n]};
      if NoDuplicates(ids) {
        assert ids[n] !in ids[..n];
      } else if ids[n] !in ids[..n] {
        assert NoDuplicates(ids) <==> NoDuplicates(ids[..n]);
      }
    }
  }

  lemma AppendedOneMore(tasks: map<Schema.Id, Task>, ids: seq<Schema.Id>, i: nat, column: Schema.Id, base: nat)
    requires i < |ids| && ids[i] in tasks
    ensures var mid := Appended(tasks, ids[..i], column, base);
            && mid.Keys == tasks.Keys
            && Appended(tasks, ids[..i + 1], column, base)
               == mid[ids[i] := mid[ids[i]].(column := Some(column), position := base + i, version := mid[ids[i]].version + 1)]
  {
    assert ids[..i + 1][..i] == ids[..i];
    AppendedRows(tasks, ids[..i], column, base);
  }

  lemma DeleteNone(db: Db)
    ensures DeleteTasks(db, {}) == db
  {
    DeleteNothing(db);
  }

  lemma SameSettings(db: Db, user: Schema.Id)
    ensures Dynamic(WithHome(db, user).0, user) == Dynamic(db, user)
  {
  }

  // ---------- Facts about numbering tasks ----------

  lemma RenumberedOneMore(tasks: map<Schema.Id, Task>, ids: seq<Schema.Id>, i: nat)
    requires i < |ids| && ids[i] in tasks
    ensures var mid := Renumbered(tasks, ids[..i]);
            && mid.Keys == tasks.Keys
            && Renumbered(tasks, ids[..i + 1]) == mid[ids[i] := mid[ids[i]].(position := i)]
  {
    assert ids[..i + 1][..i] == ids[..i];
    RenumberedRows(tasks, ids[..i]);
  }

  /** Entering the column and being numbered come in either order. */
  lemma {:induction false} EnteredCommutes(tasks: map<Schema.Id, Task>, ids: seq<Schema.Id>, id: Schema.Id, column: Schema.Id)
    requires id in tasks && id !in ids
    ensures Renumbered(tasks, ids).Keys == tasks.Keys
    ensures Renumbered(Entered(tasks, id, column), ids) == Entered(Renumbered(tasks, ids), id, column)
  {
    RenumberedRows(tasks, ids);
    RenumberedRows(Entered(tasks, id, column), ids);
    if ids != [] {
      EnteredCommutes(tasks, ids[..|ids| - 1], id, column);
    }
  }

  lemma EnteredLater(tasks: map<Schema.Id, Task>, ids: seq<Schema.Id>, i: nat, column: Schema.Id)
    requires i < |ids| && ids[i] in tasks && NoDuplicates(ids)
    ensures ids[i] !in ids[..i]
    ensures var mid := Renumbered(tasks, ids[..i]);
            && mid.Keys == tasks.Keys
            && Renumbered(Entered(tasks, ids[i], column), ids[..i + 1])
               == mid[ids[i] := mid[ids[i]].(position := i, column := Some(column), version := mid[ids[i]].version + 1)]
  {
    EnteredCommutes(tasks, ids[..i], ids[i], column);
    RenumberedOneMore(Entered(tasks, ids[i], column), ids, i);
  }

  lemma SiblingsWith(db: Db, id: Schema.Id, column: Schema.Id, at: nat)
    requires id in db.tasks && at <= |Siblings(db, id, column)|
    ensures var all := InsertAt(Siblings(db, id, column), at, id);
            id in all && NoDuplicates(all) && forall x :: x in all ==> x in db.tasks
  {
    SortedLists(ActiveIn(db.tasks, Some(column)) - {id}, TaskPositions(db.tasks));
    InsertAtIs(Siblings(db, id, column), at, id);
  }

  lemma MovedIntoHas(db: Db, id: Schema.Id, column: Schema.Id, target: int)
    requires id in db.tasks
    ensures MovedInto(db, id, column, target).Keys == db.tasks.Keys
  {
    MovedIntoRows(db, id, column, target);
  }

  lemma MovedHas(db: Db, id: Schema.Id, column: Schema.Id, target: int)
    requires id in db.tasks
    ensures Moved(db, id, column, target).tasks.Keys == db.tasks.Keys
  {
    MovedRows(db, id, column, target);
  }

  // ---------- Facts about inserting columns ----------

  /** The default columns can be inserted one after the other. */
  lemma AddedFits(db: Db, board: Schema.Id, title: string)
    requires WellFormed(db)
    ensures db.nextId !in db.columns
    ensures DistinctPositions(Added(db.columns, board, db.nextId, title)) && DistinctRoles(Added(db.columns, board, db.nextId, title))
  {
    hide DistinctPositions, DistinctRoles, IntakeFirst, Preserves, Added;
    NextIdUnused(db);
    ColumnsAreOk(db);
    AddedOk(db.columns, board, db.nextId, title);
  }

  lemma ShiftedKeys(cols: Cols, board: Schema.Id)
    ensures Shifted(cols, board).Keys == cols.Keys
  {
  }

  lemma NoBoardColumns(cols: Cols, board: Schema.Id)
    requires Ordinary(cols, board) == {} && WithRole(cols, board, NewAssigned) == {}
    ensures OnBoard(cols, board) == {}
  {
    assert OnBoard(cols, board) <= Ordinary(cols, board) + WithRole(cols, board, NewAssigned);
  }

  lemma MissingTask(db: Db, id: Schema.Id, p: Patch, supplied: Option<nat>, today: int)
    requires id !in db.tasks
    ensures UpdateTask(db, id, p, supplied, today) == Err(NotFound)
  {
  }

  // Where a service commits, the constraints hold.
  lemma CreateKeepsValid(db: Db, board: Schema.Id, actor: Schema.Id, data: NewTask, today: int)
    requires WellFormed(db)
    ensures CreateTask(db, board, actor, data, today).Ok? ==> WellFormed(CreateTask(db, board, actor, data, today).value.0)
  {
    hide WellFormed, CreateTask;
    if CreateTask(db, board, actor, data, today).Ok? {
      CreateWellFormed(db, board, actor, data, today);
    }
  }

  lemma PatchKeepsValid(db: Db, id: Schema.Id, asId: Option<Schema.Id>, p: Patch, supplied: Option<nat>, today: int)
    requires WellFormed(db)
    ensures PatchTask(db, id, asId, p, supplied, today).Ok? ==> WellFormed(PatchTask(db, id, asId, p, supplied, today).value)
  {
    hide WellFormed, PatchTask;
    if PatchTask(db, id, asId, p, supplied, today).Ok? {
      PatchWellFormed(db, id, asId, p, supplied, today);
    }
  }

  // ---------- The services ----------

  /** What a service returns and leaves behind. */
  ghost predicate Does(spec: Result<Db, Error>, error: Option<Error>, before: Db, after: Db) {
    match spec
    case Ok(db) => error.None? && after == db
    case Err(e) => error == Some(e) && after == before
  }

  class WorkspaceStore {
    var tasks: map<Schema.Id, Task>
    var subtasks: map<Schema.Id, Subtask>
    var boards: map<Schema.Id, Board>
    var columns: map<Schema.Id, Column>
    var projects: map<Schema.Id, Project>
    var workspaces: map<Schema.Id, Schema.Id>
    var members: set<(Schema.Id, Schema.Id)>
    var staticColumns: set<Schema.Id>
    var rules: seq<Rule>
    var versions: map<Schema.Id, nat>
    var nextId: Schema.Id

    function Model(): Db
      reads this
    {
      Db(tasks, subtasks, boards, columns, projects, workspaces, members, staticColumns, rules, versions, nextId)
    }

    /** What the keys and constraints of the database guarantee at any time. */
    ghost predicate Valid()
      reads this
    {
      WellFormed(Model())
    }

    method RollBack(before: Db)
      modifies this
      ensures Model() == before
    {
      tasks, subtasks, boards, columns := before.tasks, before.subtasks, before.boards, before.columns;
      projects, workspaces, members := before.projects, before.workspaces, before.members;
      staticColumns, rules, versions, nextId := before.staticColumns, before.rules, before.versions, before.nextId;
    }

    // ---------- Columns ----------

    /** Saving one column. The unique constraint is checked at once. */
    method SavePosition(column: Schema.Id, position: nat)
      requires column in columns
      requires DistinctPositions(columns[column := columns[column].(position := position)])
      modifies this`columns
      ensures columns == old(columns)[column := old(columns)[column].(position := position)]
    {
      columns := columns[column := columns[column].(position := position)];
    }

    /** Inserting one column. Both unique constraints are checked at once. */
    method InsertColumn(id: Schema.Id, column: Column)
      requires id !in columns && DistinctPositions(columns[id := column]) && DistinctRoles(columns[id := column])
      modifies this`columns
      ensures columns == old(columns)[id := column]
    {
      columns := columns[id := column];
    }

    method InsertDefaults(board: Schema.Id, offset: nat, newId: Schema.Id)
      requires ColumnsOk(columns) && OnBoard(columns, board) == {}
      requires newId !in columns && newId + 1 !in columns && newId + 2 !in columns
      modifies this`columns
      ensures columns == WithDefaults(old(columns), board, offset, newId)
    {
      DefaultsOneByOne(columns, board, offset, newId);
      hide DistinctPositions, DistinctRoles, IntakeFirst, OnBoard, DefaultColumn;
      InsertColumn(newId, DefaultColumn(board, offset, 0));
      InsertColumn(newId + 1, DefaultColumn(board, offset, 1));
      InsertColumn(newId + 2, DefaultColumn(board, offset, 2));
    }

    method RaiseVersion(id: Schema.Id)
      modifies this`versions
      ensures Model() == Bumped(old(Model()), id)
    {
      versions := versions[id := VersionOf(Model(), id) + 1];
    }

    /** Moving all columns of a board down by one, from the last to the first. */
    method ShiftColumns(board: Schema.Id)
      requires DistinctPositions(columns)
      modifies this`columns
      ensures columns == Shifted(old(columns), board)
    {
      ghost var cols := columns;
      var ids := OrderedQuery(OnBoard(columns, board), Positions(columns));
      ShiftEnds(cols, board, ids);
      hide DistinctPositions, ShiftedFrom, ColumnList, Shifted;
      var i := |ids|;
      while i > 0
        invariant 0 <= i <= |ids| && columns == ShiftedFrom(cols, board, ids, i)
      {
        i := i - 1;
        ShiftStep(cols, board, ids, i);
        SavePosition(ids[i], columns[ids[i]].position + 1);
      }
    }

    /** The other columns make room, then the intake column comes first. */
    method MakeIntake(board: Schema.Id, newId: Schema.Id)
      requires ColumnsOk(columns) && newId !in columns && WithRole(columns, board, NewAssigned) == {}
      modifies this`columns
      ensures columns == Shifted(old(columns), board)[newId := IntakeColumn(board)]
    {
      hide DistinctPositions, DistinctRoles, IntakeFirst, Shifted, Preserves, WithRole;
      InsertIntakeOk(columns, board, newId);
      ShiftedKeys(columns, board);
      ShiftColumns(board);
      InsertColumn(newId, IntakeColumn(board));
    }

    /** _ensure_personal_intake_column */
    method EnsurePersonalIntakeColumn(board: Schema.Id, user: Schema.Id) returns (column: Schema.Id)
      requires Valid() && board in boards
      modifies this`columns, this`nextId
      ensures (Model(), column) == WithIntake(old(Model()), board, user) && Valid()
    {
      hide WellFormed, DistinctPositions, DistinctRoles, IntakeFirst, Shifted, Extends, Preserves;
      WithIntakeOk(Model(), board, user);
      NextIdUnused(Model());
      ColumnsAreOk(Model());
      var newId := nextId;
      nextId := nextId + 1;
      var intakes := WithRole(columns, board, NewAssigned);
      if Dynamic(Model(), user) {
        if intakes != {} {
          column := FirstRow(intakes, Positions(columns));
        } else {
          MakeIntake(board, newId);
          column := newId;
        }
        return;
      }
      var others := Ordinary(columns, board);
      if others != {} {
        column := FirstRow(others, Positions(columns));
      } else if intakes != {} {
        column := FirstRow(intakes, Positions(columns));
      } else {
        NoBoardColumns(columns, board);
        FirstColumnOk(columns, board, newId);
        InsertColumn(newId, Column(board, DEFAULT_TITLES[0], 0, false, NoRole));
        column := newId;
      }
    }

    /** One bulk update: the rows are written in an order the database chooses. */
    method WritePositions(ids: seq<Schema.Id>, base: nat)
      requires forall x :: x in ids ==> x in columns
      requires forall done :: DistinctPositions(PartlyNumbered(columns, ids, base, done))
      modifies this`columns
      ensures columns == Numbered(old(columns), ids, base)
    {
      hide PartlyNumbered, DistinctPositions;
      ghost var cols := columns;
      var left := Members(ids);
      NumberedNone(cols, ids, base);
      assert forall x <- left :: x in ids;
      hide Members;
      while left != {}
        invariant left <= Members(ids)
        invariant columns == PartlyNumbered(cols, ids, base, Members(ids) - left)
      {
        var c :| c in left;
        NumberedOneMore(cols, ids, base, Members(ids) - left, c);
        assert Members(ids) - left + {c} == Members(ids) - (left - {c});
        left := left - {c};
        SavePosition(c, base + IndexOf(ids, c));
      }
      NumberedMembers(cols, ids, base);
    }

    /** _reindex_board_columns with the columns in the wanted order. */
    method ReindexBoardColumns(board: Schema.Id, ids: seq<Schema.Id>)
      requires DistinctPositions(columns) && CompleteOrder(columns, board, ids)
      modifies this`columns
      ensures columns == Reindexed(old(columns), board, ids)
    {
      ghost var cols := columns;
      var base := TemporaryBase(columns, board, |ids|);
      PhasesNeverCollide(cols, board, ids);
      hide PartlyNumbered, DistinctPositions, CompleteOrder, TemporaryBase;
      WritePositions(ids, base);
      NumberedKeys(cols, ids, base);
      WritePositions(ids, 0);
    }

    /** create_column */
    method CreateBoardColumn(board: Schema.Id, title: string, supplied: Option<nat>) returns (error: Option<Error>)
      requires Valid()
      modifies this`columns, this`nextId, this`versions
      ensures Does(CreateColumnChecked(old(Model()), board, title, supplied), error, old(Model()), Model()) && Valid()
    {
      hide WellFormed, ColumnsOk, Added;
      ghost var start := Model();
      if CreateColumnChecked(start, board, title, supplied).Ok? {
        CreateColumnWellFormed(start, board, title, supplied);
      }
      if board !in boards {
        return Some(NotFound);
      }
      if supplied != Some(VersionOf(Model(), board)) {
        return Some(StaleVersion);
      }
      AppendColumn(board, title);
      RaiseVersion(board);
      return None;
    }

    method AppendColumn(board: Schema.Id, title: string)
      requires Valid()
      modifies this`columns, this`nextId
      ensures Model() == old(Model()).(columns := Added(old(columns), board, old(nextId), title), nextId := old(nextId) + 1)
    {
      hide WellFormed, DistinctPositions, DistinctRoles, NextFree;
      AddedFits(Model(), board, title);
      var used := set c | c in OnBoard(columns, board) :: columns[c].position;
      InsertColumn(nextId, Column(board, title, NextFree(used), false, NoRole));
      nextId := nextId + 1;
    }

    /** BoardColumnViewSet.partial_update */
    method RenameBoardColumn(column: Schema.Id, title: string, supplied: Option<nat>) returns (error: Option<Error>)
      requires Valid()
      modifies this`columns, this`versions
      ensures Does(RenameColumnChecked(old(Model()), column, title, supplied), error, old(Model()), Model()) && Valid()
    {
      hide WellFormed;
      if RenameColumnChecked(Model(), column, title, supplied).Ok? {
        RenameColumnWellFormed(Model(), column, title, supplied);
      }
      if column !in columns {
        return Some(NotFound);
      }
      if supplied != Some(VersionOf(Model(), column)) {
        return Some(StaleVersion);
      }
      columns := columns[column := columns[column].(title := title)];
      RaiseVersion(column);
      return None;
    }

    /** reorder_columns */
    method ReorderBoardColumns(board: Schema.Id, ids: seq<Schema.Id>, supplied: nat) returns (error: Option<Error>)
      requires Valid()
      modifies this`columns, this`versions
      ensures Does(ReorderColumnsChecked(old(Model()), board, ids, supplied), error, old(Model()), Model()) && Valid()
    {
      hide DistinctPositions, Reindexed, WellFormed, NoDuplicates;
      ghost var start := Model();
      if ReorderColumnsChecked(start, board, ids, supplied).Ok? {
        ReorderColumnsWellFormed(start, board, ids, supplied);
      }
      ColumnsHold(start);
      if board !in boards {
        return Some(NotFound);
      }
      DistinctIs(ids);
      if ids == [] || |Members(ids)| != |ids| {
        return Some(IncompleteOrder);
      }
      if supplied != VersionOf(Model(), board) {
        return Some(StaleVersion);
      }
      if Members(ids) != OnBoard(columns, board) {
        return Some(IncompleteOrder);
      }
      var intakes := WithRole(columns, board, NewAssigned);
      if intakes != {} && ids[0] !in intakes {
        return Some(IntakeMustStayFirst);
      }
      ReindexBoardColumns(board, ids);
      RaiseVersion(board);
      return None;
    }

    /** The row goes, tasks keep none of it, and the gap is closed. */
    method RemoveBoardColumn(column: Schema.Id)
      requires column in columns && DistinctPositions(columns)
      modifies this`columns, this`tasks
      ensures columns == Removed(old(columns), column) && tasks == ColumnCleared(old(tasks), column)
    {
      var board := columns[column].board;
      ghost var left := columns - {column};
      tasks := ColumnCleared(tasks, column);
      columns := columns - {column};
      assert DistinctPositions(columns);
      var ids := OrderedQuery(OnBoard(columns, board), Positions(columns));
      ColumnListComplete(columns, board);
      hide DistinctPositions, CompleteOrder, Reindexed;
      ReindexBoardColumns(board, ids);
    }

    /** BoardColumnViewSet.destroy */
    method DestroyBoardColumn(column: Schema.Id, supplied: nat) returns (error: Option<Error>)
      requires Valid()
      modifies this`columns, this`tasks, this`versions
      ensures Does(DeleteColumnChecked(old(Model()), column, supplied), error, old(Model()), Model()) && Valid()
    {
      ghost var start := Model();
      if DeleteColumnChecked(start, column, supplied).Ok? {
        DeleteColumnWellFormed(start, column, supplied);
      }
      ColumnsHold(start);
      hide DistinctPositions, Removed, WellFormed, ColumnCleared, ActiveIn;
      if column !in columns {
        return Some(NotFound);
      }
      var board := columns[column].board;
      if columns[column].fixedPosition || columns[column].role != NoRole {
        return Some(SystemColumn);
      }
      if ActiveIn(tasks, Some(column)) != {} {
        return Some(ColumnNotEmpty);
      }
      if supplied != VersionOf(Model(), column) {
        return Some(StaleVersion);
      }
      RemoveBoardColumn(column);
      RaiseVersion(board);
      return None;
    }

    /** The tasks of a list follow one another from a position on. */
    method AppendTasks(moving: seq<Schema.Id>, target: Schema.Id, next: nat)
      requires forall x :: x in moving ==> x in tasks
      modifies this`tasks
      ensures tasks == Appended(old(tasks), moving, target, next)
    {
      ghost var before := tasks;
      var offset := 0;
      while offset < |moving|
        invariant 0 <= offset <= |moving| && tasks == Appended(before, moving[..offset], target, next)
      {
        var task := moving[offset];
        assert task in moving;
        AppendedOneMore(before, moving, offset, target, next);
        hide Appended;
        tasks := tasks[task := tasks[task].(column := Some(target), position := next + offset, version := tasks[task].version + 1)];
        offset := offset + 1;
      }
      assert moving[..offset] == moving;
    }

    /** delete_with_move */
    method DeleteColumnMovingTasks(column: Schema.Id, target: Schema.Id, supplied: nat) returns (error: Option<Error>)
      requires Valid()
      modifies this`columns, this`tasks, this`versions
      ensures Does(DeleteColumnWithMoveChecked(old(Model()), column, target, supplied), error, old(Model()), Model()) && Valid()
    {
      hide DistinctPositions, Removed, WellFormed, ColumnCleared, NextInColumn, Appended, ActiveIn;
      ghost var start := Model();
      if DeleteColumnWithMoveChecked(start, column, target, supplied).Ok? {
        DeleteWithMoveWellFormed(start, column, target, supplied);
      }
      ColumnsHold(start);
      if column !in columns || target !in columns {
        return Some(NotFound);
      }
      var board := columns[column].board;
      if columns[column].fixedPosition || columns[column].role != NoRole {
        return Some(SystemColumn);
      }
      if columns[target].board != columns[column].board || target == column {
        return Some(InvalidColumn);
      }
      if supplied != VersionOf(Model(), column) {
        return Some(StaleVersion);
      }
      var moving := ColumnTasks(column);
      AppendTasks(moving, target, NextInColumn(tasks, Some(target)));
      RemoveBoardColumn(column);
      RaiseVersion(board);
      return None;
    }

    /** The active tasks of a column in their order. */
    method ColumnTasks(column: Schema.Id) returns (ids: seq<Schema.Id>)
      ensures ids == Listing(tasks, column) && forall x :: x in ids ==> x in tasks
    {
      ids := OrderedQuery(ActiveIn(tasks, Some(column)), TaskPositions(tasks));
      ListedTasks(Model(), column);
    }

    // ---------- Boards ----------

    /** The team a new personal board belongs to. */
    method EnsureHome(user: Schema.Id) returns (workspace: Schema.Id)
      modifies this`workspaces, this`members, this`nextId
      ensures (Model(), workspace) == WithHome(old(Model()), user)
    {
      var own := OwnWorkspaces(Model(), user);
      if own != {} {
        workspace := FirstRow(own, map i | i in own :: 0);
      } else {
        workspace := nextId;
        workspaces, members, nextId := workspaces[workspace := user], members + {(workspace, user)}, nextId + 1;
      }
    }

    method CreatePersonalBoard(user: Schema.Id) returns (board: Schema.Id)
      requires Valid() && PersonalBoards(Model(), user) == {}
      modifies this
      ensures (Model(), board) == NewPersonalBoard(old(Model()), user) && Valid() && board in boards
    {
      hide WithHome, WithDefaults, WellFormed, ColumnsOk, Extends, OnBoard, PersonalBoards;
      NewPersonalBoardOk(Model(), user);
      WithHomeOk(Model(), user);
      NewColumnsReady(WithHome(Model(), user).0);
      var workspace := EnsureHome(user);
      var offset := if Dynamic(Model(), user) then 1 else 0;
      SameSettings(old(Model()), user);
      board := nextId;
      boards := boards[board := PersonalBoard(workspace, user)];
      InsertDefaults(board, offset, board + 1);
      nextId := nextId + 4;
    }

    /** ensure_personal_board */
    method EnsurePersonalBoard(user: Schema.Id) returns (board: Schema.Id)
      requires Valid()
      modifies this
      ensures (Model(), board) == EnsureBoard(old(Model()), user) && Valid() && board in boards
    {
      EnsureBoardOk(Model(), user);
      hide WellFormed, NewPersonalBoard, WithIntake, Extends;
      var existing := PersonalBoards(Model(), user);
      if existing != {} {
        board := FirstRow(existing, map i | i in existing :: 0);
      } else {
        board := CreatePersonalBoard(user);
      }
      var column := EnsurePersonalIntakeColumn(board, user);
    }

    // ---------- Teams ----------

    /** WorkspaceViewSet.create */
    method FoundTeam(owner: Schema.Id) returns (workspace: Schema.Id)
      requires Valid()
      modifies this`workspaces, this`members, this`nextId
      ensures Model() == CreateTeam(old(Model()), owner) && Valid()
      ensures workspace !in old(workspaces) && workspace in workspaces && workspaces[workspace] == owner && (workspace, owner) in members
    {
      hide ColumnsOk, ColumnsHaveBoards, ProjectsHaveBoards, OnePersonalBoard;
      TeamIsSetting(Model(), owner);
      SettingsWellFormed(Model(), CreateTeam(Model(), owner));
      workspace := nextId;
      nextId := nextId + 1;
      workspaces := workspaces[workspace := owner];
      members := members + {(workspace, owner)};
    }

    /** An invitation or a join request is accepted. */
    method AdmitMember(workspace: Schema.Id, user: Schema.Id) returns (error: Option<Error>)
      requires Valid()
      modifies this
      ensures Does(JoinTeam(old(Model()), workspace, user), error, old(Model()), Model()) && Valid()
    {
      hide WellFormed, EnsureBoard, SettingsOnly;
      if workspace !in workspaces {
        return Some(NotFound);
      }
      MemberIsSetting(Model(), workspace, user);
      SettingsWellFormed(Model(), WithMember(Model(), workspace, user));
      members := members + {(workspace, user)};
      var board := EnsurePersonalBoard(user);
      return None;
    }

    method RemoveMember(workspace: Schema.Id, user: Schema.Id) returns (error: Option<Error>)
      requires Valid()
      modifies this`members
      ensures Does(LeaveTeam(old(Model()), workspace, user), error, old(Model()), Model()) && Valid()
    {
      hide ColumnsOk;
      if workspace !in workspaces || (workspace, user) !in members {
        return Some(NotFound);
      }
      if workspaces[workspace] == user {
        return Some(OwnerStays);
      }
      members := members - {(workspace, user)};
      return None;
    }

    // ---------- Mirrors ----------

    /** The rows of one `delete()` with everything that hangs on them. */
    method DeleteRows(doomed: set<Schema.Id>)
      modifies this`tasks, this`subtasks
      ensures Model() == DeleteTasks(old(Model()), doomed)
    {
      hide Family, SubtasksOf, Unlinked;
      var after := DeleteTasks(Model(), doomed);
      tasks, subtasks := after.tasks, after.subtasks;
    }

    /** The same, row by row. */
    method DeleteEach(doomed: set<Schema.Id>)
      modifies this`tasks, this`subtasks
      ensures Model() == DeleteTasks(old(Model()), doomed)
    {
      ghost var before := Model();
      var left := doomed;
      assert doomed - left == {};
      DeleteNone(before);
      hide DeleteTasks;
      while left != {}
        invariant left <= doomed && Model() == DeleteTasks(before, doomed - left)
      {
        var row :| row in left;
        DeleteOneMore(before, doomed - left, row);
        assert doomed - left + {row} == doomed - (left - {row});
        DeleteRows({row});
        left := left - {row};
      }
      assert doomed - {} == doomed;
    }

    /** Both lookups of a user's board: the board, then its intake column. */
    method EnsureIntake(user: Schema.Id) returns (board: Schema.Id, column: Schema.Id)
      requires Valid()
      modifies this
      ensures (Model(), board, column) == Intake(old(Model()), user) && Valid()
    {
      hide WellFormed, EnsureBoard, WithIntake;
      board := EnsurePersonalBoard(user);
      column := EnsurePersonalIntakeColumn(board, user);
    }

    method InsertTask(row: Task) returns (id: Schema.Id)
      modifies this`tasks, this`nextId
      ensures id == old(nextId) && Model() == WithTask(old(Model()), id, row).(nextId := id + 1)
    {
      id := nextId;
      tasks, nextId := tasks[id := row], id + 1;
    }

    method SaveTask(id: Schema.Id, row: Task)
      modifies this`tasks
      ensures Model() == WithTask(old(Model()), id, row)
    {
      tasks := tasks[id := row];
    }

    /** _sync_assignment_mirror */
    method SyncAssignmentMirror(id: Schema.Id)
      requires Valid() && id in tasks
      modifies this
      ensures Model() == SyncMirror(old(Model()), id) && Valid()
    {
      SyncWellFormed(Model(), id);
      hide WellFormed, DeleteTasks, Intake, NextInColumn, First, IsMirrorOf;
      var task := tasks[id];
      var mirrors := AssignmentMirrors(Model(), id);
      if !OnProjectBoard(Model(), task) || task.sourceTask.Some? || task.sourceSubtask.Some? {
        DeleteRows(mirrors);
        return;
      }
      if task.assignee.None? {
        DeleteEach(mirrors);
        return;
      }
      PlaceAssignmentMirror(id, mirrors);
    }

    method PlaceAssignmentMirror(id: Schema.Id, mirrors: set<Schema.Id>)
      requires Valid() && id in tasks && tasks[id].assignee.Some? && mirrors == AssignmentMirrors(Model(), id)
      modifies this
      ensures Model() == PlaceMirror(old(Model()), id, old(tasks)[id].assignee.value)
    {
      hide WellFormed, DeleteTasks, Intake, NextInColumn, IsMirrorOf, First, NewMirror, RefreshedMirror;
      var task := tasks[id];
      var here, rows := mirrors, tasks;
      IntakeOk(Model(), task.assignee.value);
      var board, column := EnsureIntake(task.assignee.value);
      var workspace := boards[board].workspace;
      here := OnBoardIds(Model(), mirrors, board);
      assert here == OnBoardIds(old(Model()), mirrors, board);
      if here == {} {
        DeleteEach(mirrors - here);
        var created := InsertTask(NewMirror(task, id, board, workspace, column, NextInColumn(tasks, Some(column))));
      } else {
        var mirror := FirstRow(here, map t | t in here :: tasks[t].position);
        assert (map t | t in here :: tasks[t].position) == map t | t in here :: old(tasks)[t].position;
        DeleteEach(mirrors - here);
        SaveTask(mirror, RefreshedMirror(rows[mirror], task, workspace));
      }
    }

    // ---------- Rules ----------

    /** execute_automation_rules: the first action that moves the task ends the search. */
    method ExecuteAutomationRules(id: Schema.Id, trigger: Trigger, today: int) returns (error: Option<Error>)
      requires id in tasks
      modifies this`tasks
      ensures Does(Automate(old(Model()), id, trigger, today), error, old(Model()), Model())
    {
      hide NextInColumn;
      var task := tasks[id];
      var i := 0;
      while i < |rules|
        invariant 0 <= i <= |rules| && tasks == old(tasks)
        invariant RuleTarget(Model(), task, trigger, rules, today) == RuleTarget(Model(), task, trigger, rules[i..], today)
      {
        var rule := rules[i];
        if rule.board == task.board && rule.trigger == trigger && rule.active && Matches(rule.conditions, task, today) {
          var target := FindTarget(task, rule.actions);
          if target.Some? {
            if task.pool {
              return Some(ConstraintViolated);
            }
            SaveTask(id, Automated(task, target.value, NextInColumn(tasks, target)));
            return None;
          }
        }
        i := i + 1;
      }
      return None;
    }

    /** The first of up to five actions with a column of the task's board that
        the task is not in. */
    method FindTarget(task: Task, actions: seq<Action>) returns (target: Option<Schema.Id>)
      ensures target == ActionTarget(Model(), task, actions, 5)
    {
      var k := 0;
      while k < |actions| && k < 5
        invariant 0 <= k <= |actions| && k <= 5
        invariant ActionTarget(Model(), task, actions, 5) == ActionTarget(Model(), task, actions[k..], 5 - k)
      {
        if actions[k].MoveTaskTree? {
          var column := actions[k].target;
          if column in columns && columns[column].board == task.board && task.column != Some(column) {
            return Some(column);
          }
        }
        k := k + 1;
      }
      return None;
    }

    // ---------- update_task and claim_pool_task ----------

    /** The task leaves for a user's personal board. */
    method Send(id: Schema.Id, poolSource: Option<Schema.Id>, user: Schema.Id)
      requires Valid() && id in tasks
      modifies this
      ensures Model() == SendTo(old(Model()), id, poolSource, user) && Valid() && id in tasks
    {
      hide WellFormed, Intake, NextInColumn;
      var task := tasks[id];
      IntakeOk(Model(), user);
      var board, column := EnsureIntake(user);
      var row := HandedOver(task, poolSource, boards[board].workspace, board, column, user, NextInColumn(tasks, Some(column)));
      SetRowWellFormed(Model(), id, row.(version := row.version + 1));
      SaveTask(id, row.(version := row.version + 1));
    }

    /** The three branches of update_task, up to the save. */
    method Route(id: Schema.Id, p: Patch) returns (error: Option<Error>)
      requires Valid() && id in tasks
      modifies this
      ensures Does(Routed(old(Model()), id, p), error, old(Model()), Model())
      ensures error.None? ==> Valid() && id in tasks
    {
      hide WellFormed, Released, Edited, Releases, SendTo;
      var task := tasks[id];
      if Releases(task, p) {
        var source := if task.poolSource.Some? then task.poolSource else task.project;
        if source.None? || source.value !in projects {
          return Some(NoPool);
        }
        var row := Released(Model(), task, source.value);
        SetRowWellFormed(Model(), id, row.(version := row.version + 1));
        SaveTask(id, row.(version := row.version + 1));
      } else if HandsOver(Model(), task, p) {
        var poolSource := task.poolSource;
        if task.project.Some? && task.poolSource.None? {
          poolSource := task.project;
        }
        Send(id, poolSource, RequestedAssignee(task, p).value);
      } else {
        var row := Edited(Model(), task, p);
        SetRowWellFormed(Model(), id, row.(version := row.version + 1));
        SaveTask(id, row.(version := row.version + 1));
      }
      return None;
    }

    /** What follows the save of update_task. The caller rolls back on an error. */
    method Finish(id: Schema.Id, assignee: Option<Schema.Id>, enters: bool, today: int) returns (error: Option<Error>)
      requires Valid() && id in tasks
      modifies this
      ensures match AfterSave(old(Model()), id, assignee, enters, today)
              case Ok(db) => error.None? && Model() == db
              case Err(e) => error == Some(e)
    {
      hide WellFormed, SyncMirror, Automate;
      SyncAssignmentMirror(id);
      if id !in tasks {
        return Some(NotFound);
      }
      error := None;
      if tasks[id].assignee != assignee {
        error := ExecuteAutomationRules(id, TaskAssigned, today);
      }
      if error.None? && id in tasks && enters {
        error := ExecuteAutomationRules(id, ColumnEntered, today);
      }
    }

    /** Saving a row whose id has been assigned: over the row of that id, or as a
        new one. */
    method SaveAs(at: Schema.Id, row: Task) returns (place: Schema.Id)
      requires Valid()
      modifies this`tasks, this`nextId
      ensures Model() == SavedAs(old(Model()), at, row) && place == SavedAt(old(Model()), at) && Valid()
    {
      SavedGrows(Model(), at, row);
      hide WellFormed, Grows;
      if at in tasks {
        place := at;
        SaveTask(at, row);
      } else {
        place := InsertTask(row);
      }
    }

    /** The checks before the branches. */
    function Refusal(task: Task, p: Patch, supplied: Option<nat>): Option<Error>
      reads this
    {
      if !ColumnFits(Model(), if p.column.Some? then p.column else task.column, task.board) then Some(InvalidColumn)
      else if !DatesInOrder(Patched(task.content, p.content)) then Some(InvalidDates)
      else if supplied != Some(task.version) then Some(StaleVersion)
      else None
    }

    /** update_task for a task under its own id. */
    method UpdateOwn(id: Schema.Id, p: Patch, supplied: Option<nat>, today: int) returns (error: Option<Error>)
      requires Valid() && id in tasks
      modifies this
      ensures Does(UpdateTask(old(Model()), id, p, supplied, today), error, old(Model()), Model())
    {
      hide WellFormed, Routed, AfterSave, FullyClean, Patched, EntersColumn, ColumnFits;
      var before, task := Model(), tasks[id];
      error := Refusal(task, p, supplied);
      if error.Some? {
        return;
      }
      error := Route(id, p);
      if error.Some? {
        return;
      }
      if !FullyClean(Model(), tasks[id]) {
        RollBack(before);
        return Some(ConstraintViolated);
      }
      error := Finish(id, task.assignee, EntersColumn(before, task, p), today);
      if error.Some? {
        RollBack(before);
      }
    }

    /** The third branch once the id has been assigned as well. */
    method UpdateOther(id: Schema.Id, at: Schema.Id, p: Patch, supplied: Option<nat>, today: int) returns (error: Option<Error>)
      requires Valid() && id in tasks
      modifies this
      ensures Does(OverwriteTask(old(Model()), id, at, p, supplied, today), error, old(Model()), Model())
    {
      hide WellFormed, AfterSave, FullyClean, Patched, EntersColumn, ColumnFits, EditedRow, SavedAs, SavedAt;
      var before, task := Model(), tasks[id];
      error := Refusal(task, p, supplied);
      if error.Some? {
        return;
      }
      var row := EditedRow(before, task, p);
      var place := SaveAs(at, row);
      if !FullyClean(Model(), row) || task.sourceSubtask.Some? {
        RollBack(before);
        return Some(ConstraintViolated);
      }
      error := Finish(place, task.assignee, EntersColumn(before, task, p), today);
      if error.Some? {
        RollBack(before);
      }
    }

    /** update_task */
    method Update(id: Schema.Id, asId: Option<Schema.Id>, p: Patch, supplied: Option<nat>, today: int) returns (error: Option<Error>)
      requires Valid()
      modifies this
      ensures Does(PatchTask(old(Model()), id, asId, p, supplied, today), error, old(Model()), Model()) && Valid()
    {
      PatchKeepsValid(Model(), id, asId, p, supplied, today);
      hide WellFormed, UpdateTask, OverwriteTask, Redirected;
      if id !in tasks {
        MissingTask(Model(), id, p, supplied, today);
        return Some(NotFound);
      }
      if Redirected(Model(), id, asId, p) {
        RedirectedNames(Model(), id, asId, p);
        error := UpdateOther(id, asId.value, p, supplied, today);
      } else {
        error := UpdateOwn(id, p, supplied, today);
      }
    }

    /** claim_pool_task */
    method ClaimPoolTask(id: Schema.Id, user: Schema.Id) returns (error: Option<Error>)
      requires Valid()
      modifies this
      ensures Does(ClaimTask(old(Model()), id, user), error, old(Model()), Model()) && Valid()
    {
      hide WellFormed, SendTo, SyncMirror;
      if id !in tasks {
        return Some(NotFound);
      }
      if !tasks[id].pool {
        return Some(NotPooled);
      }
      if (tasks[id].workspace, user) !in members {
        return Some(NotAMember);
      }
      Send(id, tasks[id].project, user);
      ClearedWellFormed(Model(), id, user);
      subtasks := map s | s in subtasks ::
        if subtasks[s].task == id && subtasks[s].assignee != Some(user) then subtasks[s].(assignee := None) else subtasks[s];
      assert Model() == ClearedSubtasks(SendTo(old(Model()), id, old(tasks)[id].project, user), id, user);
      SyncAssignmentMirror(id);
      return None;
    }

    // ---------- create_task ----------

    /** Board, assignee and column of a new task, provided for where needed. */
    method Provide(board: Schema.Id, data: NewTask)
        returns (target: Schema.Id, assignee: Option<Schema.Id>, column: Option<Schema.Id>)
      requires Valid() && board in boards
      modifies this
      ensures (Model(), target, assignee, column) == Destination(old(Model()), board, data)
      ensures Valid() && target in boards
    {
      hide WellFormed, Intake, WithIntake, Extends;
      target, assignee, column := board, data.assignee, data.column;
      if boards[board].PersonalBoard? {
        var owner := boards[board].owner;
        if data.assignee.Some? && data.assignee.value != owner {
          var intake: Schema.Id;
          IntakeOk(Model(), data.assignee.value);
          target, intake := EnsureIntake(data.assignee.value);
          column := Some(intake);
        } else {
          WithIntakeOk(Model(), board, owner);
          var intake := EnsurePersonalIntakeColumn(board, owner);
          assignee, column := Some(owner), Some(intake);
        }
      } else if data.pool && data.assignee.None? {
        assignee, column := None, None;
      } else if data.column.None? {
        var all := OnBoard(columns, board);
        if all != {} {
          var first := FirstRow(all, Positions(columns));
          column := Some(first);
        }
      }
    }

    /** create_task */
    method Create(board: Schema.Id, actor: Schema.Id, data: NewTask, today: int)
        returns (error: Option<Error>, id: Schema.Id)
      requires Valid()
      modifies this
      ensures match CreateTask(old(Model()), board, actor, data, today)
              case Ok(pair) => error.None? && (Model(), id) == pair
              case Err(e) => error == Some(e) && Model() == old(Model())
      ensures Valid()
    {
      hide WellFormed, Destination, SyncMirror, Automate, ColumnFits, DatesInOrder, NextInColumn;
      ghost var start := Model();
      CreateKeepsValid(start, board, actor, data, today);
      id := nextId;
      if board !in boards {
        return Some(NotFound), id;
      }
      if !ColumnFits(Model(), data.column, board) {
        return Some(InvalidColumn), id;
      }
      if !DatesInOrder(data.content) {
        return Some(InvalidDates), id;
      }
      var before := Model();
      var target, assignee, column := Provide(board, data);
      var row := Task(boards[target].workspace, target, column, BoardProject(boards[target]), None, None, None, None,
                      actor, assignee, data.content, NextInColumn(tasks, column), false, None,
                      data.pool && data.assignee.None?, data.requiresReview, data.reviewHint, None, 1);
      if !RowAllowed(row) {
        RollBack(before);
        return Some(ConstraintViolated), id;
      }
      AddTaskWellFormed(Model(), row);
      id := InsertTask(row);
      SyncAssignmentMirror(id);
      if id !in tasks {
        RollBack(before);
        return Some(NotFound), id;
      }
      error := ExecuteAutomationRules(id, TaskCreated, today);
      if error.Some? {
        RollBack(before);
      }
    }

    // ---------- move_task ----------

    /** The loop over the source column: positions 0, 1, 2, ... along the list. */
    method RenumberTasks(ids: seq<Schema.Id>)
      requires forall x :: x in ids ==> x in tasks
      modifies this`tasks
      ensures tasks == Renumbered(old(tasks), ids)
    {
      ghost var before := tasks;
      var position := 0;
      while position < |ids|
        invariant 0 <= position <= |ids| && tasks == Renumbered(before, ids[..position])
      {
        assert ids[position] in ids;
        RenumberedOneMore(before, ids, position);
        hide Renumbered;
        tasks := tasks[ids[position] := tasks[ids[position]].(position := position)];
        position := position + 1;
      }
      assert ids[..position] == ids;
    }

    /** The loop over the target column; the moved task enters it on the way. */
    method RenumberWith(ids: seq<Schema.Id>, id: Schema.Id, column: Schema.Id)
      requires (forall x :: x in ids ==> x in tasks) && id in ids && NoDuplicates(ids)
      modifies this`tasks
      ensures tasks == Renumbered(Entered(old(tasks), id, column), ids)
    {
      ghost var before := tasks;
      var position := 0;
      while position < |ids|
        invariant 0 <= position <= |ids|
        invariant tasks == Renumbered(if id in ids[..position] then Entered(before, id, column) else before, ids[..position])
      {
        var sibling := ids[position];
        assert sibling in ids;
        assert ids[..position + 1] == ids[..position] + [sibling];
        if sibling == id {
          EnteredLater(before, ids, position, column);
          tasks := tasks[sibling := tasks[sibling].(position := position, column := Some(column), version := tasks[sibling].version + 1)];
        } else {
          RenumberedOneMore(if id in ids[..position] then Entered(before, id, column) else before, ids, position);
          tasks := tasks[sibling := tasks[sibling].(position := position)];
        }
        hide Renumbered, Entered;
        position := position + 1;
      }
      assert ids[..position] == ids;
    }

    /** The column without the task, numbered from 0. */
    method CloseGap(id: Schema.Id, source: Schema.Id)
      modifies this`tasks
      ensures tasks == Renumbered(old(tasks), Sorted(ActiveIn(old(tasks), Some(source)) - {id}, TaskPositions(old(tasks))))
    {
      hide Renumbered, Sorted;
      var left := OrderedQuery(ActiveIn(tasks, Some(source)) - {id}, TaskPositions(tasks));
      SortedLists(ActiveIn(tasks, Some(source)) - {id}, TaskPositions(tasks));
      RenumberTasks(left);
    }

    /** The target column with the task in it, numbered from 0. */
    method EnterColumn(id: Schema.Id, column: Schema.Id, target: int)
      requires id in tasks
      modifies this`tasks
      ensures tasks == MovedInto(old(Model()), id, column, target)
    {
      hide Renumbered, Sorted, Entered, InsertAt, NoDuplicates;
      ghost var before := Model();
      var siblings := OrderedQuery(ActiveIn(tasks, Some(column)) - {id}, TaskPositions(tasks));
      var at := if target < 0 then 0 else if target > |siblings| then |siblings| else target;
      SiblingsWith(before, id, column, at);
      RenumberWith(InsertAt(siblings, at, id), id, column);
    }

    /** Both columns of a move. */
    method Reorder(id: Schema.Id, column: Schema.Id, target: int)
      requires id in tasks
      modifies this`tasks
      ensures Model() == Moved(old(Model()), id, column, target) && id in tasks
    {
      hide Renumbered, Sorted, MovedInto;
      ghost var before := Model();
      var source := tasks[id].column;
      EnterColumn(id, column, target);
      MovedIntoHas(before, id, column, target);
      if source.Some? && source.value != column {
        CloseGap(id, source.value);
      }
      MovedHas(before, id, column, target);
    }

    /** move_task */
    method Move(id: Schema.Id, column: Schema.Id, target: int, supplied: nat, today: int) returns (error: Option<Error>)
      requires Valid()
      modifies this`tasks
      ensures Does(MoveTask(old(Model()), id, column, target, supplied, today), error, old(Model()), Model()) && Valid()
    {
      hide WellFormed, Moved, Automate;
      if MoveTask(Model(), id, column, target, supplied, today).Ok? {
        MoveWellFormed(Model(), id, column, target, supplied, today);
      }
      if id !in tasks || column !in columns {
        return Some(NotFound);
      }
      var rows := tasks;
      if tasks[id].version != supplied {
        return Some(StaleVersion);
      }
      if columns[column].board != tasks[id].board {
        return Some(InvalidColumn);
      }
      if tasks[id].pool {
        return Some(ConstraintViolated);
      }
      Reorder(id, column, target);
      error := ExecuteAutomationRules(id, ColumnEntered, today);
      if error.Some? {
        tasks := rows;
      }
    }

    // ---------- set_task_completed, archive_task and destroy ----------

    /** One side: the row and its mirror. */
    method CompleteOne(id: Schema.Id, completed: bool, now: int)
      requires Valid() && id in tasks
      modifies this
      ensures var saved := WithTask(old(Model()), id, Completed(old(tasks)[id], completed, now)); Model() == SyncMirror(saved, id)
      ensures Valid()
    {
      hide WellFormed, SyncMirror, Completed;
      SetRowWellFormed(Model(), id, Completed(tasks[id], completed, now));
      SaveTask(id, Completed(tasks[id], completed, now));
      SyncAssignmentMirror(id);
    }

    /** The task and, for an assignment mirror, its source. */
    method CompleteSides(id: Schema.Id, completed: bool, now: int) returns (error: Option<Error>)
      requires Valid() && id in tasks
      modifies this
      ensures Does(CompleteBoth(old(Model()), id, completed, now), error, old(Model()), Model())
    {
      hide WellFormed, SyncMirror, Completed;
      var before, task := Model(), tasks[id];
      if task.sourceTask.Some? && task.sourceSubtask.None? {
        SetRowWellFormed(Model(), id, Completed(task, completed, now));
        SaveTask(id, Completed(task, completed, now));
        var source := task.sourceTask.value;
        if source !in tasks {
          return None;
        }
        CompleteOne(source, completed, now);
        if id !in tasks {
          RollBack(before);
          return Some(NotFound);
        }
      } else {
        CompleteOne(id, completed, now);
      }
      return None;
    }

    /** set_task_completed */
    method SetTaskCompleted(id: Schema.Id, completed: bool, supplied: nat, now: int, today: int) returns (error: Option<Error>)
      requires Valid()
      modifies this
      ensures Does(SetCompleted(old(Model()), id, completed, supplied, now, today), error, old(Model()), Model()) && Valid()
    {
      hide WellFormed, CompleteBoth, Automate;
      if SetCompleted(Model(), id, completed, supplied, now, today).Ok? {
        CompleteWellFormed(Model(), id, completed, supplied, now, today);
      }
      if id !in tasks {
        return Some(NotFound);
      }
      var before := Model();
      if tasks[id].version != supplied {
        return Some(StaleVersion);
      }
      var subtask := tasks[id].sourceSubtask;
      error := CompleteSides(id, completed, now);
      if error.Some? {
        return;
      }
      if subtask.Some? && subtask.value in subtasks {
        subtasks := subtasks[subtask.value := subtasks[subtask.value].(done := completed)];
      }
      if id !in tasks {
        RollBack(before);
        return Some(NotFound);
      }
      error := ExecuteAutomationRules(id, if completed then TaskCompleted else TaskReopened, today);
      if error.Some? {
        RollBack(before);
      }
    }

    /** archive_task */
    method Archive(id: Schema.Id, archived: bool, supplied: nat, now: int) returns (error: Option<Error>)
      requires Valid()
      modifies this
      ensures Does(ArchiveTask(old(Model()), id, archived, supplied, now), error, old(Model()), Model()) && Valid()
    {
      hide WellFormed, SyncMirror;
      if id !in tasks {
        return Some(NotFound);
      }
      var task := tasks[id];
      if task.version != supplied {
        return Some(StaleVersion);
      }
      var row := task.(archivedAt := if archived then Some(now) else None, version := task.version + 1);
      SetRowWellFormed(Model(), id, row);
      SaveTask(id, row);
      SyncAssignmentMirror(id);
      return None;
    }

    /** TaskViewSet.destroy */
    method Destroy(id: Schema.Id, supplied: nat) returns (error: Option<Error>)
      requires Valid()
      modifies this`tasks, this`subtasks
      ensures Does(DestroyTask(old(Model()), id, supplied), error, old(Model()), Model()) && Valid()
    {
      if DestroyTask(Model(), id, supplied).Ok? {
        DestroyWellFormed(Model(), id, supplied);
      }
      hide WellFormed;
      hide DeleteTasks, MirrorRows;
      if id !in tasks {
        return Some(NotFound);
      }
      if tasks[id].version != supplied {
        return Some(StaleVersion);
      }
      DeleteRows(MirrorRows(Model(), id));
      DeleteRows({id});
      return None;
    }

    // ---------- Subtasks ----------

    /** _sync_subtask_mirror */
    method SyncSubtaskMirror(subtask: Schema.Id, now: int)
      requires Valid() && subtask in subtasks && subtasks[subtask].task in tasks
      modifies this
      ensures Model() == SyncSubtask(old(Model()), subtask, now) && Valid()
    {
      hide WellFormed, DeleteTasks, Intake, NextInColumn, First, SubtaskMirrorRow, Rehomed, BlankMirror;
      var s := subtasks[subtask];
      var task := tasks[s.task];
      var mirrors := SubtaskMirrors(Model(), subtask);
      if !OnProjectBoard(Model(), task) || s.assignee.None? {
        if mirrors == {} {
          DeleteNone(Model());
        } else {
          var mirror := FirstRow(mirrors, map t | t in mirrors :: tasks[t].position);
          DeleteRows({mirror});
        }
        SyncSubtaskWellFormed(old(Model()), subtask, now);
        return;
      }
      var rows := tasks;
      IntakeOk(Model(), s.assignee.value);
      var board, column := EnsureIntake(s.assignee.value);
      var workspace, position := boards[board].workspace, NextInColumn(tasks, Some(column));
      if mirrors == {} {
        var created := InsertTask(SubtaskMirrorRow(BlankMirror(workspace, board, column, position, task.owner), s, subtask, task, now));
      } else {
        var mirror := FirstRow(mirrors, map t | t in mirrors :: rows[t].position);
        var row := SubtaskMirrorRow(Rehomed(rows[mirror], workspace, board, column, position), s, subtask, task, now);
        SaveTask(mirror, row.(version := row.version + 1));
      }
      SyncSubtaskWellFormed(old(Model()), subtask, now);
    }

    method AddSubtask(task: Schema.Id, title: string, assignee: Option<Schema.Id>, now: int) returns (error: Option<Error>)
      requires Valid()
      modifies this
      ensures Does(CreateSubtask(old(Model()), task, title, assignee, now), error, old(Model()), Model()) && Valid()
    {
      hide WellFormed, SyncSubtask;
      if task !in tasks {
        return Some(NotFound);
      }
      var id := nextId;
      AddSubtaskWellFormed(Model(), Subtask(task, title, assignee, false, 1));
      subtasks, nextId := subtasks[id := Subtask(task, title, assignee, false, 1)], id + 1;
      SyncSubtaskMirror(id, now);
      return None;
    }

    method ChangeSubtask(id: Schema.Id, supplied: nat, title: Option<string>, assignee: Option<Option<Schema.Id>>,
                         done: Option<bool>, now: int) returns (error: Option<Error>)
      requires Valid()
      modifies this
      ensures Does(UpdateSubtask(old(Model()), id, supplied, title, assignee, done, now), error, old(Model()), Model()) && Valid()
    {
      hide WellFormed, SyncSubtask;
      if id !in subtasks || subtasks[id].task !in tasks {
        return Some(NotFound);
      }
      var s := subtasks[id];
      if s.version != supplied {
        return Some(StaleVersion);
      }
      var row := Subtask(s.task, Or(title, s.title), Or(assignee, s.assignee), Or(done, s.done), s.version + 1);
      ChangeSubtaskWellFormed(Model(), id, row);
      subtasks := subtasks[id := row];
      SyncSubtaskMirror(id, now);
      return None;
    }

    method RemoveSubtask(id: Schema.Id, supplied: nat) returns (error: Option<Error>)
      requires Valid()
      modifies this`tasks, this`subtasks
      ensures Does(DeleteSubtask(old(Model()), id, supplied), error, old(Model()), Model()) && Valid()
    {
      if DeleteSubtask(Model(), id, supplied).Ok? {
        DeleteSubtaskWellFormed(Model(), id, supplied);
      }
      hide WellFormed;
      if id !in subtasks {
        return Some(NotFound);
      }
      if subtasks[id].version != supplied {
        return Some(StaleVersion);
      }
      tasks := map t | t in tasks :: Unlinked(tasks[t], {}, {id});
      subtasks := subtasks - {id};
      return None;
    }

    // ---------- Projects ----------

    /** create_project */
    method AddProject(workspace: Schema.Id, slug: string) returns (error: Option<Error>)
      requires Valid()
      modifies this
      ensures Does(CreateProject(old(Model()), workspace, slug), error, old(Model()), Model()) && Valid()
    {
      hide WithDefaults, UniqueKey, TakenKeys, WellFormed, ColumnsOk, OnBoard;
      NewColumnsReady(Model());
      if workspace in workspaces {
        CreateProjectWellFormed(Model(), workspace, slug);
      }
      if workspace !in workspaces {
        return Some(NotFound);
      }
      var key := FindRouteKey(TakenKeys(Model(), workspace), slug);
      var board, project := nextId, nextId + 4;
      boards := boards[board := ProjectBoard(workspace, project)];
      InsertDefaults(board, 0, board + 1);
      projects := projects[project := Project(workspace, key, board)];
      nextId := nextId + 5;
      return None;
    }

    /** update_project with a change of team */
    method MoveProjectToTeam(project: Schema.Id, workspace: Schema.Id, slug: string, supplied: Option<nat>) returns (error: Option<Error>)
      requires Valid()
      modifies this`projects, this`boards, this`tasks, this`versions
      ensures Does(MoveProjectChecked(old(Model()), project, workspace, slug, supplied), error, old(Model()), Model()) && Valid()
    {
      hide UniqueKey, TakenKeys, TasksMoved, WellFormed;
      if MoveProjectChecked(Model(), project, workspace, slug, supplied).Ok? {
        MoveProjectWellFormed(Model(), project, workspace, slug, supplied);
      }
      if project !in projects || workspace !in workspaces {
        return Some(NotFound);
      }
      if supplied != Some(VersionOf(Model(), project)) {
        return Some(StaleVersion);
      }
      var p := projects[project];
      if p.workspace != workspace {
        var key := FindRouteKey(TakenKeys(Model(), workspace), slug);
        projects := projects[project := p.(workspace := workspace, routeKey := key)];
        boards := boards[p.board := ProjectBoard(workspace, project)];
        tasks := TasksMoved(tasks, project, workspace);
        RaiseVersion(p.board);
      }
      RaiseVersion(project);
      return None;
    }
  }
}
