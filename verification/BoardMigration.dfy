/** The migration as it runs, row by row
    (apps/workspaces/migrations/0005_global_personal_board.py). */
module BoardMigration {
  import opened Columns
  import opened Consolidation
  import opened Json
  import opened Losses
  import opened Options
  import opened Ordering
  import opened Schema
  import Tasks

  // ---------- Finding the counterpart of a column ----------

  function FirstSameRole(columns: Cols, listed: seq<Schema.Id>, source: Column): Option<Schema.Id>
    requires forall c :: c in listed ==> c in columns
  {
    if listed == [] then None
    else if SameRole(source, columns[listed[0]]) then Some(listed[0])
    else FirstSameRole(columns, listed[1..], source)
  }

  function FirstSameTitle(columns: Cols, listed: seq<Schema.Id>, source: Column): Option<Schema.Id>
    requires forall c :: c in listed ==> c in columns
  {
    if listed == [] then None
    else if SameTitle(source, columns[listed[0]]) then Some(listed[0])
    else FirstSameTitle(columns, listed[1..], source)
  }

  /** A column of the same system role, or else one of the same title. */
  function Counterpart(columns: Cols, listed: seq<Schema.Id>, source: Column): Option<Schema.Id>
    requires forall c :: c in listed ==> c in columns
  {
    var role := FirstSameRole(columns, listed, source);
    if role.Some? then role else FirstSameTitle(columns, listed, source)
  }

  lemma {:induction false} FirstSameRoleIs(columns: Cols, listed: seq<Schema.Id>, source: Column)
    requires forall c :: c in listed ==> c in columns
    ensures var r := FirstSameRole(columns, listed, source);
            && (r.Some? ==> r.value in listed && SameRole(source, columns[r.value]))
            && (r.None? ==> forall c :: c in listed ==> !SameRole(source, columns[c]))
  {
    if listed != [] {
      FirstSameRoleIs(columns, listed[1..], source);
      assert forall c :: c in listed <==> c == listed[0] || c in listed[1..];
    }
  }

  lemma {:induction false} FirstSameTitleIs(columns: Cols, listed: seq<Schema.Id>, source: Column)
    requires forall c :: c in listed ==> c in columns
    ensures var r := FirstSameTitle(columns, listed, source);
            && (r.Some? ==> r.value in listed && SameTitle(source, columns[r.value]))
            && (r.None? ==> forall c :: c in listed ==> !SameTitle(source, columns[c]))
  {
    if listed != [] {
      FirstSameTitleIs(columns, listed[1..], source);
      assert forall c :: c in listed <==> c == listed[0] || c in listed[1..];
    }
  }

  /** A counterpart is found exactly if there is one, and a system role is
      matched by the same role whenever the board has it. */
  lemma CounterpartIs(columns: Cols, listed: seq<Schema.Id>, source: Column)
    requires forall c :: c in listed ==> c in columns
    ensures var r := Counterpart(columns, listed, source);
            && (r.Some? <==> exists c :: c in listed && Alike(source, columns[c]))
            && (r.Some? ==> r.value in listed && Alike(source, columns[r.value]))
            && ((exists c :: c in listed && SameRole(source, columns[c])) ==> SameRole(source, columns[r.value]))
  {
    FirstSameRoleIs(columns, listed, source);
    FirstSameTitleIs(columns, listed, source);
  }

  // ---------- A new column of the canonical board ----------

  lemma AddCounterpart(columns: Cols, newId: Schema.Id, column: Column)
    requires DistinctPositions(columns) && DistinctRoles(columns) && newId !in columns && column.role == NoRole
    requires forall c <- columns :: columns[c].board == column.board ==> columns[c].position != column.position
    ensures DistinctPositions(columns[newId := column]) && DistinctRoles(columns[newId := column])
  {
  }

  // ---------- Re-homing the tasks of a column ----------

  function InColumn(tasks: map<Schema.Id, Task>, board: Schema.Id, column: Option<Schema.Id>): set<Schema.Id> {
    set t | t in tasks && tasks[t].board == board && tasks[t].column == column
  }

  function TaskOrder(tasks: map<Schema.Id, Task>): map<Schema.Id, nat> {
    map t | t in tasks :: tasks[t].position
  }

  /** The first n tasks of the list in their new place. */
  function PartlyRehomed(tasks: map<Schema.Id, Task>, ids: seq<Schema.Id>, n: nat, board: Schema.Id,
                         workspace: Schema.Id, column: Schema.Id, base: nat): map<Schema.Id, Task>
    requires n <= |ids|
  {
    map t | t in tasks ::
      if t in ids[..n] then Rehomed(tasks[t], board, workspace, Some(column), base + IndexOf(ids, t)) else tasks[t]
  }

  lemma PartlyRehomedNext(tasks: map<Schema.Id, Task>, ids: seq<Schema.Id>, n: nat, board: Schema.Id,
                          workspace: Schema.Id, column: Schema.Id, base: nat)
    requires n < |ids| && NoDuplicates(ids) && ids[n] in tasks
    ensures var mid := PartlyRehomed(tasks, ids, n, board, workspace, column, base);
            && ids[n] in mid
            && PartlyRehomed(tasks, ids, n + 1, board, workspace, column, base)
               == mid[ids[n] := Rehomed(mid[ids[n]], board, workspace, Some(column), base + n)]
  {
    IndexUnique(ids, n);
    assert ids[..n + 1] == ids[..n] + [ids[n]];
  }

  /** The tasks of one column, moved to another, in the same order. */
  ghost predicate ColumnRehomed(before: map<Schema.Id, Task>, after: map<Schema.Id, Task>, duplicate: Schema.Id, source: Schema.Id,
                                board: Schema.Id, workspace: Schema.Id, column: Schema.Id)
  {
    && after.Keys == before.Keys
    && (forall t <- before :: t !in InColumn(before, duplicate, Some(source)) ==> after[t] == before[t])
    && (forall t <- InColumn(before, duplicate, Some(source)) ::
          after[t] == Rehomed(before[t], board, workspace, Some(column), after[t].position))
    && (forall t, u :: t in InColumn(before, duplicate, Some(source)) && u in InColumn(before, duplicate, Some(source))
                       && ListedBefore(before[t], t, before[u], u)
          ==> after[t].position < after[u].position)
  }

  lemma RehomedRow(tasks: map<Schema.Id, Task>, ids: seq<Schema.Id>, board: Schema.Id, workspace: Schema.Id,
                   column: Schema.Id, base: nat, t: Schema.Id)
    requires t in tasks
    ensures var after := PartlyRehomed(tasks, ids, |ids|, board, workspace, column, base);
            && t in after
            && after[t] == if t in ids then Rehomed(tasks[t], board, workspace, Some(column), base + IndexOf(ids, t)) else tasks[t]
  {
    hide IndexOf, Rehomed;
    assert ids[..|ids|] == ids;
  }

  lemma RehomedKeys(tasks: map<Schema.Id, Task>, ids: seq<Schema.Id>, board: Schema.Id, workspace: Schema.Id,
                    column: Schema.Id, base: nat)
    ensures PartlyRehomed(tasks, ids, |ids|, board, workspace, column, base).Keys == tasks.Keys
  {
    hide IndexOf;
  }

  lemma IndexFollowsOrder(tasks: map<Schema.Id, Task>, there: set<Schema.Id>, t: Schema.Id, u: Schema.Id)
    requires there <= tasks.Keys && t in there && u in there && ListedBefore(tasks[t], t, tasks[u], u)
    ensures var ids := Sorted(there, TaskOrder(tasks)); t in ids && u in ids && IndexOf(ids, t) < IndexOf(ids, u)
  {
    var pos := TaskOrder(tasks);
    var ids := Sorted(there, pos);
    SortedLists(there, pos);
    hide Sorted;
    var i, j := IndexOf(ids, t), IndexOf(ids, u);
    assert ids[i] == t && ids[j] == u;
    EarlierInOrder(ids, pos, i, j);
  }

  // In a sorted list the lesser of two ids comes first.
  lemma EarlierInOrder(ids: seq<Schema.Id>, pos: map<Schema.Id, nat>, i: nat, j: nat)
    requires i < |ids| && j < |ids| && forall x :: x in ids ==> x in pos
    requires forall k, m :: 0 <= k < m < |ids| ==> Ordering.AtMost(pos, ids[k], ids[m])
    requires Ordering.AtMost(pos, ids[i], ids[j]) && ids[i] != ids[j]
    ensures i < j
  {
  }

  /** The position of a moved task, behind `base` others. */
  ghost predicate ColumnQueued(before: map<Schema.Id, Task>, after: map<Schema.Id, Task>, duplicate: Schema.Id, source: Schema.Id, base: nat) {
    forall t <- InColumn(before, duplicate, Some(source)) :: t in after && after[t].position == base + |AheadInColumn(before, t)|
  }

  lemma IndexIsAhead(tasks: map<Schema.Id, Task>, duplicate: Schema.Id, source: Schema.Id, t: Schema.Id)
    requires t in InColumn(tasks, duplicate, Some(source))
    ensures var ids := Sorted(InColumn(tasks, duplicate, Some(source)), TaskOrder(tasks));
            t in ids && IndexOf(ids, t) == |AheadInColumn(tasks, t)|
  {
    var there := InColumn(tasks, duplicate, Some(source));
    var ids := Sorted(there, TaskOrder(tasks));
    SortedLists(there, TaskOrder(tasks));
    var i := IndexOf(ids, t);
    hide Sorted, IndexOf;
    forall u
      ensures u in AheadInColumn(tasks, t) <==> u in Members(ids[..i])
    {
      AheadIsEarlier(tasks, ids, t, i, u);
    }
    hide AheadInColumn;
    assert AheadInColumn(tasks, t) == Members(ids[..i]);
    PrefixSize(ids, i);
  }

  lemma AheadIsEarlier(tasks: map<Schema.Id, Task>, ids: seq<Schema.Id>, t: Schema.Id, i: nat, u: Schema.Id)
    requires t in tasks && (forall x :: x in ids <==> x in tasks && tasks[x].board == tasks[t].board && tasks[x].column == tasks[t].column)
    requires i < |ids| && ids[i] == t && NoDuplicates(ids)
    requires forall k, m :: 0 <= k < m < |ids| ==> Ordering.AtMost(TaskOrder(tasks), ids[k], ids[m])
    ensures u in AheadInColumn(tasks, t) <==> u in Members(ids[..i])
  {
    if u in AheadInColumn(tasks, t) {
      var k :| 0 <= k < |ids| && ids[k] == u;
      EarlierInOrder(ids, TaskOrder(tasks), k, i);
      assert ids[..i][k] == u;
    }
    if u in Members(ids[..i]) {
      var k :| 0 <= k < i && ids[k] == u;
      assert Ordering.AtMost(TaskOrder(tasks), ids[k], ids[i]);
    }
  }

  lemma {:induction false} PrefixSize(ids: seq<Schema.Id>, i: nat)
    requires NoDuplicates(ids) && i <= |ids|
    ensures |Members(ids[..i])| == i
  {
    if i > 0 {
      PrefixSize(ids, i - 1);
      MembersNext(ids, i - 1);
      assert ids[i - 1] !in Members(ids[..i - 1]);
    }
  }

  lemma AllQueued(tasks: map<Schema.Id, Task>, duplicate: Schema.Id, source: Schema.Id, board: Schema.Id,
                  workspace: Schema.Id, column: Schema.Id, base: nat)
    ensures var ids := Sorted(InColumn(tasks, duplicate, Some(source)), TaskOrder(tasks));
            ColumnQueued(tasks, PartlyRehomed(tasks, ids, |ids|, board, workspace, column, base), duplicate, source, base)
  {
    hide Sorted, PartlyRehomed, IndexOf, AheadInColumn;
    var ids := Sorted(InColumn(tasks, duplicate, Some(source)), TaskOrder(tasks));
    forall t <- InColumn(tasks, duplicate, Some(source))
      ensures var after := PartlyRehomed(tasks, ids, |ids|, board, workspace, column, base);
              t in after && after[t].position == base + |AheadInColumn(tasks, t)|
    {
      IndexIsAhead(tasks, duplicate, source, t);
      RehomedRow(tasks, ids, board, workspace, column, base, t);
    }
  }

  lemma AllRehomed(tasks: map<Schema.Id, Task>, duplicate: Schema.Id, source: Schema.Id, board: Schema.Id,
                   workspace: Schema.Id, column: Schema.Id, base: nat)
    ensures var ids := Sorted(InColumn(tasks, duplicate, Some(source)), TaskOrder(tasks));
            ColumnRehomed(tasks, PartlyRehomed(tasks, ids, |ids|, board, workspace, column, base),
                          duplicate, source, board, workspace, column)
  {
    hide Sorted, PartlyRehomed, ListedBefore, IndexOf;
    var there := InColumn(tasks, duplicate, Some(source));
    var ids := Sorted(there, TaskOrder(tasks));
    SortedLists(there, TaskOrder(tasks));
    RehomedKeys(tasks, ids, board, workspace, column, base);
    forall t <- tasks
      ensures var after := PartlyRehomed(tasks, ids, |ids|, board, workspace, column, base);
              after[t] == if t in ids then Rehomed(tasks[t], board, workspace, Some(column), base + IndexOf(ids, t)) else tasks[t]
    {
      RehomedRow(tasks, ids, board, workspace, column, base, t);
    }
    forall t, u | t in there && u in there && ListedBefore(tasks[t], t, tasks[u], u)
      ensures t in ids && u in ids && IndexOf(ids, t) < IndexOf(ids, u)
    {
      IndexFollowsOrder(tasks, there, t, u);
    }
  }

  /** The tasks a column of the canonical board shows. */
  function ActiveResidents(tasks: map<Schema.Id, Task>, board: Schema.Id, column: Schema.Id): set<Schema.Id> {
    set t | t in tasks && tasks[t].board == board && tasks[t].column == Some(column) && tasks[t].archivedAt.None?
  }

  lemma ResidentsAre(tasks: map<Schema.Id, Task>, board: Schema.Id, column: Schema.Id)
    ensures ActiveResidents(tasks, board, column) == set t | t in InColumn(tasks, board, Some(column)) && tasks[t].archivedAt.None?
  {
  }

  // ---------- Re-homing one column after the other ----------

  /** The positions once the listed columns have been moved in their order. */
  ghost predicate QueuedSoFar(before: map<Schema.Id, Task>, now: map<Schema.Id, Task>, canonical: Schema.Id, duplicate: Schema.Id,
                              targets: map<Schema.Id, Schema.Id>, sources: seq<Schema.Id>, i: nat)
    requires i <= |sources|
  {
    && now.Keys == before.Keys
    && forall j, t :: 0 <= j < i && t in before && before[t].board == duplicate && before[t].column == Some(sources[j]) ==>
         sources[j] in targets
         && now[t].position == |Held(before, canonical, duplicate, targets, Members(sources[..j]), targets[sources[j]])|
                               + |AheadInColumn(before, t)|
  }

  lemma HeldNow(before: map<Schema.Id, Task>, now: map<Schema.Id, Task>, duplicate: Schema.Id, done: set<Schema.Id>,
                canonical: Schema.Id, workspace: Schema.Id, targets: map<Schema.Id, Schema.Id>, target: Schema.Id)
    requires Rehoming(before, now, duplicate, done, canonical, workspace, targets) && canonical != duplicate
    ensures ActiveResidents(now, canonical, target) == Held(before, canonical, duplicate, targets, done, target)
  {
    forall t <- before
      ensures t in ActiveResidents(now, canonical, target) <==> t in Held(before, canonical, duplicate, targets, done, target)
    {
      assert RowRehomed(before[t], now[t], duplicate, done, canonical, workspace, targets);
    }
  }

  lemma AheadNow(before: map<Schema.Id, Task>, now: map<Schema.Id, Task>, duplicate: Schema.Id, done: set<Schema.Id>,
                 canonical: Schema.Id, workspace: Schema.Id, targets: map<Schema.Id, Schema.Id>, c: Schema.Id, t: Schema.Id)
    requires Rehoming(before, now, duplicate, done, canonical, workspace, targets) && c !in done && canonical != duplicate
    requires t in InColumn(before, duplicate, Some(c))
    ensures t in now && AheadInColumn(now, t) == AheadInColumn(before, t)
  {
    StillThere(before, now, duplicate, done, canonical, workspace, targets, c);
    hide Rehoming;
    forall u ensures u in AheadInColumn(now, t) <==> u in AheadInColumn(before, t) {
      assert u in InColumn(now, duplicate, Some(c)) <==> u in InColumn(before, duplicate, Some(c));
    }
  }

  lemma QueuedStep(before: map<Schema.Id, Task>, mid: map<Schema.Id, Task>, after: map<Schema.Id, Task>, duplicate: Schema.Id,
                   canonical: Schema.Id, workspace: Schema.Id, targets: map<Schema.Id, Schema.Id>, sources: seq<Schema.Id>, i: nat)
    requires i < |sources| && NoDuplicates(sources) && sources[i] in targets && canonical != duplicate
    requires Rehoming(before, mid, duplicate, Members(sources[..i]), canonical, workspace, targets)
    requires QueuedSoFar(before, mid, canonical, duplicate, targets, sources, i)
    requires ColumnRehomed(mid, after, duplicate, sources[i], canonical, workspace, targets[sources[i]])
    requires ColumnQueued(mid, after, duplicate, sources[i], |ActiveResidents(mid, canonical, targets[sources[i]])|)
    ensures QueuedSoFar(before, after, canonical, duplicate, targets, sources, i + 1)
  {
    var c := sources[i];
    assert c !in Members(sources[..i]);
    HeldNow(before, mid, duplicate, Members(sources[..i]), canonical, workspace, targets, targets[c]);
    StillThere(before, mid, duplicate, Members(sources[..i]), canonical, workspace, targets, c);
    hide Rehoming, Held, AheadInColumn, ActiveResidents, RowRehomed;
    forall j, t | 0 <= j < i + 1 && t in before && before[t].board == duplicate && before[t].column == Some(sources[j])
      ensures sources[j] in targets
              && after[t].position == |Held(before, canonical, duplicate, targets, Members(sources[..j]), targets[sources[j]])|
                                      + |AheadInColumn(before, t)|
    {
      if j == i {
        assert t in InColumn(before, duplicate, Some(c));
        AheadNow(before, mid, duplicate, Members(sources[..i]), canonical, workspace, targets, c, t);
      } else {
        assert t !in InColumn(before, duplicate, Some(c));
      }
    }
  }

  predicate Leaves(t: Task, duplicate: Schema.Id, done: set<Schema.Id>) {
    t.board == duplicate && t.column.Some? && t.column.value in done
  }

  ghost predicate RowRehomed(t: Task, u: Task, duplicate: Schema.Id, done: set<Schema.Id>, canonical: Schema.Id,
                             workspace: Schema.Id, targets: map<Schema.Id, Schema.Id>)
  {
    if Leaves(t, duplicate, done)
    then t.column.value in targets && u == Rehomed(t, canonical, workspace, Some(targets[t.column.value]), u.position)
    else u == t
  }

  ghost predicate Rehoming(before: map<Schema.Id, Task>, now: map<Schema.Id, Task>, duplicate: Schema.Id, done: set<Schema.Id>,
                           canonical: Schema.Id, workspace: Schema.Id, targets: map<Schema.Id, Schema.Id>)
  {
    && now.Keys == before.Keys
    && (forall t <- before :: RowRehomed(before[t], now[t], duplicate, done, canonical, workspace, targets))
    && (forall t, u :: t in before && u in before && Leaves(before[t], duplicate, done) && before[u].board == duplicate
                       && before[u].column == before[t].column && ListedBefore(before[t], t, before[u], u)
          ==> now[t].position < now[u].position)
  }

  lemma StillThere(before: map<Schema.Id, Task>, now: map<Schema.Id, Task>, duplicate: Schema.Id, done: set<Schema.Id>,
                   canonical: Schema.Id, workspace: Schema.Id, targets: map<Schema.Id, Schema.Id>, c: Schema.Id)
    requires Rehoming(before, now, duplicate, done, canonical, workspace, targets) && c !in done && canonical != duplicate
    ensures InColumn(now, duplicate, Some(c)) == InColumn(before, duplicate, Some(c))
    ensures forall t <- InColumn(before, duplicate, Some(c)) :: now[t] == before[t]
  {
    forall t <- before
      ensures now[t].board == duplicate ==> now[t] == before[t]
      ensures !Leaves(before[t], duplicate, done) ==> now[t] == before[t]
    {
      assert RowRehomed(before[t], now[t], duplicate, done, canonical, workspace, targets);
    }
  }

  lemma RowRehomedStep(before: map<Schema.Id, Task>, mid: map<Schema.Id, Task>, after: map<Schema.Id, Task>, duplicate: Schema.Id,
                       done: set<Schema.Id>, canonical: Schema.Id, workspace: Schema.Id, targets: map<Schema.Id, Schema.Id>,
                       c: Schema.Id, t: Schema.Id)
    requires Rehoming(before, mid, duplicate, done, canonical, workspace, targets) && c !in done && canonical != duplicate
    requires c in targets && ColumnRehomed(mid, after, duplicate, c, canonical, workspace, targets[c]) && t in before
    ensures t in after && RowRehomed(before[t], after[t], duplicate, done + {c}, canonical, workspace, targets)
  {
    StillThere(before, mid, duplicate, done, canonical, workspace, targets, c);
    assert RowRehomed(before[t], mid[t], duplicate, done, canonical, workspace, targets);
  }

  lemma OrderRehomedStep(before: map<Schema.Id, Task>, mid: map<Schema.Id, Task>, after: map<Schema.Id, Task>, duplicate: Schema.Id,
                         done: set<Schema.Id>, canonical: Schema.Id, workspace: Schema.Id, targets: map<Schema.Id, Schema.Id>,
                         c: Schema.Id, t: Schema.Id, u: Schema.Id)
    requires Rehoming(before, mid, duplicate, done, canonical, workspace, targets) && c !in done && canonical != duplicate
    requires c in targets && ColumnRehomed(mid, after, duplicate, c, canonical, workspace, targets[c])
    requires t in before && u in before && Leaves(before[t], duplicate, done + {c}) && before[u].board == duplicate
    requires before[u].column == before[t].column && ListedBefore(before[t], t, before[u], u)
    ensures after[t].position < after[u].position
  {
    StillThere(before, mid, duplicate, done, canonical, workspace, targets, c);
    if before[t].column.value == c {
      assert t in InColumn(before, duplicate, Some(c)) && u in InColumn(before, duplicate, Some(c));
    } else {
      assert t !in InColumn(before, duplicate, Some(c)) && u !in InColumn(before, duplicate, Some(c));
      assert Leaves(before[t], duplicate, done);
    }
  }

  lemma RehomingStep(before: map<Schema.Id, Task>, mid: map<Schema.Id, Task>, after: map<Schema.Id, Task>, duplicate: Schema.Id,
                     done: set<Schema.Id>, canonical: Schema.Id, workspace: Schema.Id, targets: map<Schema.Id, Schema.Id>, c: Schema.Id)
    requires Rehoming(before, mid, duplicate, done, canonical, workspace, targets) && c !in done && canonical != duplicate
    requires c in targets && ColumnRehomed(mid, after, duplicate, c, canonical, workspace, targets[c])
    ensures Rehoming(before, after, duplicate, done + {c}, canonical, workspace, targets)
  {
    assert after.Keys == before.Keys;
    hide RowRehomed, ColumnRehomed, ListedBefore, Leaves;
    forall t <- before ensures RowRehomed(before[t], after[t], duplicate, done + {c}, canonical, workspace, targets) {
      RowRehomedStep(before, mid, after, duplicate, done, canonical, workspace, targets, c, t);
    }
    forall t, u | t in before && u in before && Leaves(before[t], duplicate, done + {c}) && before[u].board == duplicate
                  && before[u].column == before[t].column && ListedBefore(before[t], t, before[u], u)
      ensures after[t].position < after[u].position
    {
      OrderRehomedStep(before, mid, after, duplicate, done, canonical, workspace, targets, c, t, u);
    }
  }

  lemma NoneQueued(tasks: map<Schema.Id, Task>, canonical: Schema.Id, duplicate: Schema.Id, targets: map<Schema.Id, Schema.Id>, sources: seq<Schema.Id>)
    ensures QueuedSoFar(tasks, tasks, canonical, duplicate, targets, sources, 0)
  {
  }

  lemma EarlierAreListed(columns: Cols, board: Schema.Id, sources: seq<Schema.Id>, j: nat)
    requires DistinctPositions(columns) && sources == Sorted(OnBoard(columns, board), Positions(columns)) && j < |sources|
    ensures sources[j] in OnBoard(columns, board) && Members(sources[..j]) == EarlierColumns(columns, board, sources[j])
  {
    SortedLists(OnBoard(columns, board), Positions(columns));
    hide Sorted;
    assert sources[j] in sources;
    forall s ensures s in Members(sources[..j]) <==> s in EarlierColumns(columns, board, sources[j]) {
      if s in Members(sources[..j]) {
        var k :| 0 <= k < j && sources[k] == s;
        assert sources[k] in sources;
        assert Ordering.AtMost(Positions(columns), sources[k], sources[j]);
      }
      if s in EarlierColumns(columns, board, sources[j]) {
        assert s in sources;
        var k :| 0 <= k < |sources| && sources[k] == s;
        EarlierInOrder(sources, Positions(columns), k, j);
        assert sources[..j][k] == s;
      }
    }
  }

  lemma AllQueuedBehind(before: Data, after: map<Schema.Id, Task>, canonical: Schema.Id, duplicate: Schema.Id,
                        targets: map<Schema.Id, Schema.Id>, sources: seq<Schema.Id>)
    requires DistinctPositions(before.columns) && sources == Sorted(OnBoard(before.columns, duplicate), Positions(before.columns))
    requires QueuedSoFar(before.tasks, after, canonical, duplicate, targets, sources, |sources|)
    ensures QueuedBehind(before, after, canonical, duplicate, targets)
  {
    SortedLists(OnBoard(before.columns, duplicate), Positions(before.columns));
    hide Sorted, Held, AheadInColumn, EarlierColumns, OnBoard, DistinctPositions;
    forall t <- after | t in before.tasks && before.tasks[t].board == duplicate && before.tasks[t].column.Some?
                        && before.tasks[t].column.value in OnBoard(before.columns, duplicate)
      ensures var c := before.tasks[t].column.value;
              && c in targets && c in before.columns
              && after[t].position == |Held(before.tasks, canonical, duplicate, targets, EarlierColumns(before.columns, duplicate, c), targets[c])|
                                      + |AheadInColumn(before.tasks, t)|
    {
      var c := before.tasks[t].column.value;
      assert c in sources;
      var j :| 0 <= j < |sources| && sources[j] == c;
      EarlierAreListed(before.columns, duplicate, sources, j);
      OnBoardIsColumn(before.columns, duplicate, c);
    }
  }

  lemma OnBoardIsColumn(columns: Cols, board: Schema.Id, c: Schema.Id)
    requires c in OnBoard(columns, board)
    ensures c in columns
  {
  }

  // ---------- The last steps of a merge ----------

  /** Tasks without a column follow as they are. */
  function ColumnlessMoved(tasks: map<Schema.Id, Task>, duplicate: Schema.Id, canonical: Schema.Id, workspace: Schema.Id): map<Schema.Id, Task> {
    map t | t in tasks ::
      if tasks[t].board == duplicate && tasks[t].column.None?
      then tasks[t].(board := canonical, workspace := workspace) else tasks[t]
  }

  function OnDeletedBoard(tasks: map<Schema.Id, Task>, board: Schema.Id): set<Schema.Id> {
    set t | t in tasks && tasks[t].board == board
  }

  function WithoutColumns(t: Task, gone: set<Schema.Id>): Task {
    if t.column.Some? && t.column.value in gone then t.(column := None) else t
  }

  /** What the cascade of a deleted board leaves: its tasks go with all tasks
      below them, references to them and to its columns are set to null. */
  function Surviving(tasks: map<Schema.Id, Task>, board: Schema.Id, columns: set<Schema.Id>): map<Schema.Id, Task> {
    var gone := Descendants(tasks, OnDeletedBoard(tasks, board));
    map t | t in tasks && t !in gone :: Tasks.Unlinked(WithoutColumns(tasks[t], columns), gone, {})
  }

  /** The tasks after all steps. */
  function AfterMerge(rehomed: map<Schema.Id, Task>, duplicate: Schema.Id, canonical: Schema.Id, workspace: Schema.Id, columns: set<Schema.Id>): map<Schema.Id, Task> {
    Surviving(ColumnlessMoved(rehomed, duplicate, canonical, workspace), duplicate, columns)
  }

  /** The cascade takes exactly the tasks whose column was on another board, and
      those below them, wherever they are. */
  lemma CascadeTakesStranded(before: Data, rehomed: map<Schema.Id, Task>, duplicate: Schema.Id, canonical: Schema.Id,
                             workspace: Schema.Id, targets: map<Schema.Id, Schema.Id>)
    requires Rehoming(before.tasks, rehomed, duplicate, OnBoard(before.columns, duplicate), canonical, workspace, targets)
    requires canonical != duplicate
    ensures AfterMerge(rehomed, duplicate, canonical, workspace, OnBoard(before.columns, duplicate)).Keys
            == before.tasks.Keys - Lost(before, duplicate)
    ensures OnDeletedBoard(ColumnlessMoved(rehomed, duplicate, canonical, workspace), duplicate) == Stranded(before, duplicate)
    ensures Descendants(ColumnlessMoved(rehomed, duplicate, canonical, workspace), Stranded(before, duplicate))
            == Descendants(before.tasks, Stranded(before, duplicate))
  {
    var moved := ColumnlessMoved(rehomed, duplicate, canonical, workspace);
    assert moved.Keys == before.tasks.Keys;
    hide ColumnlessMoved, RowRehomed, Rehoming, Tasks.Unlinked, WithoutColumns, Descendants;
    forall t <- before.tasks
      ensures moved[t].board == duplicate <==> t in Stranded(before, duplicate)
      ensures moved[t].parent == before.tasks[t].parent
    {
      StrandedRow(before, rehomed, duplicate, canonical, workspace, targets, t);
    }
    assert OnDeletedBoard(moved, duplicate) == Stranded(before, duplicate);
    hide Stranded;
    DescendantsFrame(moved, before.tasks, Stranded(before, duplicate));
  }

  lemma StrandedRow(before: Data, rehomed: map<Schema.Id, Task>, duplicate: Schema.Id, canonical: Schema.Id,
                    workspace: Schema.Id, targets: map<Schema.Id, Schema.Id>, t: Schema.Id)
    requires Rehoming(before.tasks, rehomed, duplicate, OnBoard(before.columns, duplicate), canonical, workspace, targets)
    requires canonical != duplicate && t in before.tasks
    ensures t in ColumnlessMoved(rehomed, duplicate, canonical, workspace)
    ensures ColumnlessMoved(rehomed, duplicate, canonical, workspace)[t].board == duplicate <==> t in Stranded(before, duplicate)
    ensures ColumnlessMoved(rehomed, duplicate, canonical, workspace)[t].parent == before.tasks[t].parent
  {
    assert RowRehomed(before.tasks[t], rehomed[t], duplicate, OnBoard(before.columns, duplicate), canonical, workspace, targets);
    hide OnBoard;
  }

  lemma NothingUnlinked(t: Task)
    ensures Tasks.Unlinked(t, {}, {}) == t
  {
  }

  lemma RowMerged(before: Data, rehomed: map<Schema.Id, Task>, duplicate: Schema.Id, canonical: Schema.Id,
                  workspace: Schema.Id, targets: map<Schema.Id, Schema.Id>, t: Schema.Id)
    requires Rehoming(before.tasks, rehomed, duplicate, OnBoard(before.columns, duplicate), canonical, workspace, targets)
    requires canonical != duplicate && ColumnsAtHome(before) && t in before.tasks
    requires targets.Keys == OnBoard(before.columns, duplicate)
    requires forall c <- targets :: targets[c] !in OnBoard(before.columns, duplicate)
    ensures Stranded(before, duplicate) == {} && Lost(before, duplicate) == {}
    ensures var after := AfterMerge(rehomed, duplicate, canonical, workspace, OnBoard(before.columns, duplicate));
            && t in after
            && (before.tasks[t].board != duplicate ==> after[t] == before.tasks[t])
            && (before.tasks[t].board == duplicate ==> TaskMerged(before.tasks[t], after[t], canonical, workspace, targets))
            && after[t].position == rehomed[t].position
  {
    CascadeTakesStranded(before, rehomed, duplicate, canonical, workspace, targets);
    assert Children(before.tasks, {}) == {};
    assert RowRehomed(before.tasks[t], rehomed[t], duplicate, OnBoard(before.columns, duplicate), canonical, workspace, targets);
    var moved := ColumnlessMoved(rehomed, duplicate, canonical, workspace)[t];
    NothingUnlinked(WithoutColumns(moved, OnBoard(before.columns, duplicate)));
    hide Tasks.Unlinked;
  }

  lemma TasksAreMerged(before: Data, after: Data, rehomed: map<Schema.Id, Task>, duplicate: Schema.Id, canonical: Schema.Id,
                       targets: map<Schema.Id, Schema.Id>)
    requires canonical in before.boards && canonical != duplicate && ColumnsAtHome(before)
    requires Rehoming(before.tasks, rehomed, duplicate, OnBoard(before.columns, duplicate), canonical, before.boards[canonical].workspace, targets)
    requires targets.Keys == OnBoard(before.columns, duplicate)
    requires forall c <- targets :: targets[c] !in OnBoard(before.columns, duplicate)
    requires after.tasks == AfterMerge(rehomed, duplicate, canonical, before.boards[canonical].workspace, OnBoard(before.columns, duplicate))
    requires QueuedBehind(before, after.tasks, canonical, duplicate, targets)
    ensures TasksMerged(before, after, canonical, duplicate, targets)
  {
    var workspace := before.boards[canonical].workspace;
    CascadeTakesStranded(before, rehomed, duplicate, canonical, workspace, targets);
    hide AfterMerge, TaskMerged, ListedBefore, RowRehomed, QueuedBehind;
    forall t <- before.tasks
      ensures t in after.tasks && after.tasks[t].position == rehomed[t].position
      ensures before.tasks[t].board != duplicate ==> after.tasks[t] == before.tasks[t]
      ensures before.tasks[t].board == duplicate ==> TaskMerged(before.tasks[t], after.tasks[t], canonical, workspace, targets)
    {
      RowMerged(before, rehomed, duplicate, canonical, workspace, targets, t);
    }
    assert after.tasks.Keys == before.tasks.Keys;
    hide Stranded, ColumnsAtHome, Rehoming;
    forall t, u | t in before.tasks && u in before.tasks && TogetherOn(before, duplicate, t, u)
                  && ListedBefore(before.tasks[t], t, before.tasks[u], u)
      ensures after.tasks[t].position < after.tasks[u].position
    {
      RehomedOrder(before, rehomed, duplicate, canonical, workspace, targets, t, u);
    }
  }

  lemma RehomedOrder(before: Data, rehomed: map<Schema.Id, Task>, duplicate: Schema.Id, canonical: Schema.Id,
                     workspace: Schema.Id, targets: map<Schema.Id, Schema.Id>, t: Schema.Id, u: Schema.Id)
    requires Rehoming(before.tasks, rehomed, duplicate, OnBoard(before.columns, duplicate), canonical, workspace, targets)
    requires ColumnsAtHome(before) && t in before.tasks && u in before.tasks && TogetherOn(before, duplicate, t, u)
    requires ListedBefore(before.tasks[t], t, before.tasks[u], u)
    ensures rehomed[t].position < rehomed[u].position
  {
    hide RowRehomed, ListedBefore;
    assert Leaves(before.tasks[t], duplicate, OnBoard(before.columns, duplicate));
  }

  // ---------- Mapping the columns of a duplicate ----------

  /** Columns are only added, all to the canonical board, with new ids. */
  ghost predicate OnlyAdded(before: Data, columns: Cols, nextId: Schema.Id, canonical: Schema.Id) {
    && before.nextId <= nextId
    && (forall c <- before.columns :: c in columns && columns[c] == before.columns[c])
    && (forall c <- columns :: c < nextId && (c in before.columns || (before.nextId <= c && columns[c].board == canonical)))
  }

  /** The counterparts found or created so far. */
  ghost predicate Mapped(before: Data, columns: Cols, canonical: Schema.Id, targets: map<Schema.Id, Schema.Id>) {
    forall c <- targets :: c in before.columns && targets[c] in columns && columns[targets[c]].board == canonical
                           && Alike(before.columns[c], columns[targets[c]])
  }

  ghost predicate ListsBoard(columns: Cols, board: Schema.Id, listed: seq<Schema.Id>) {
    forall c :: c in listed <==> c in columns && columns[c].board == board
  }

  function NewCounterpart(source: Column, canonical: Schema.Id, position: nat): Column {
    Column(canonical, source.title, position, source.fixedPosition, NoRole)
  }

  lemma CreatedCounterpart(before: Data, columns: Cols, nextId: Schema.Id, canonical: Schema.Id, listed: seq<Schema.Id>, source: Column)
    requires OnlyAdded(before, columns, nextId, canonical) && ListsBoard(columns, canonical, listed)
    requires DistinctPositions(columns) && DistinctRoles(columns)
    ensures var used := set c | c in listed && c in columns :: columns[c].position;
            var after := columns[nextId := NewCounterpart(source, canonical, NextFree(used))];
            && OnlyAdded(before, after, nextId + 1, canonical) && ListsBoard(after, canonical, listed + [nextId])
            && DistinctPositions(after) && DistinctRoles(after) && Alike(source, after[nextId])
            && (forall c <- columns :: c in after && after[c] == columns[c])
  {
    var used := set c | c in listed && c in columns :: columns[c].position;
    var column := NewCounterpart(source, canonical, NextFree(used));
    forall c <- columns | columns[c].board == canonical
      ensures columns[c].position != column.position
    {
      assert c in listed && columns[c].position in used;
    }
    hide DistinctPositions, DistinctRoles, NextFree;
    AddCounterpart(columns, nextId, column);
  }

  predicate HasRole(columns: Cols, canonical: Schema.Id, source: Column) {
    exists k <- OnBoard(columns, canonical) :: SameRole(source, columns[k])
  }

  predicate HasTitle(columns: Cols, canonical: Schema.Id, source: Column) {
    exists k <- OnBoard(columns, canonical) :: SameTitle(source, columns[k])
  }

  /** A column of the same role is taken, or else one of the same title; only
      without either a new one is made, behind all others. */
  ghost predicate Takes(columns: Cols, after: Cols, canonical: Schema.Id, source: Column, target: Schema.Id, newId: Schema.Id) {
    if HasRole(columns, canonical, source) then
      after == columns && target in OnBoard(columns, canonical) && SameRole(source, columns[target])
    else if HasTitle(columns, canonical, source) then
      after == columns && target in OnBoard(columns, canonical) && SameTitle(source, columns[target])
    else
      && target == newId && target in after && after == columns[target := after[target]]
      && after[target].board == canonical && after[target].title == source.title && after[target].role == NoRole
      && after[target].fixedPosition == source.fixedPosition
      && forall k <- OnBoard(columns, canonical) :: columns[k].position < after[target].position
  }

  lemma TakesFound(columns: Cols, listed: seq<Schema.Id>, canonical: Schema.Id, source: Column)
    requires ListsBoard(columns, canonical, listed)
    ensures forall c :: c in listed ==> c in columns
    ensures var found := Counterpart(columns, listed, source);
            && (found.Some? ==> Takes(columns, columns, canonical, source, found.value, 0))
            && (found.Some? <==> HasRole(columns, canonical, source) || HasTitle(columns, canonical, source))
  {
    FirstSameRoleIs(columns, listed, source);
    FirstSameTitleIs(columns, listed, source);
    forall c ensures c in OnBoard(columns, canonical) <==> c in listed {
    }
    hide FirstSameRole, FirstSameTitle, SameRole, SameTitle;
  }

  lemma TakesCreated(columns: Cols, listed: seq<Schema.Id>, canonical: Schema.Id, source: Column, newId: Schema.Id)
    requires ListsBoard(columns, canonical, listed)
    requires !HasRole(columns, canonical, source) && !HasTitle(columns, canonical, source)
    ensures var used := set c | c in listed && c in columns :: columns[c].position;
            Takes(columns, columns[newId := NewCounterpart(source, canonical, NextFree(used))], canonical, source, newId, newId)
  {
    var used := set c | c in listed && c in columns :: columns[c].position;
    forall k <- OnBoard(columns, canonical) ensures columns[k].position in used {
      assert k in listed;
    }
    hide HasRole, HasTitle, NextFree;
  }

  /** The same over all columns of the duplicate: a column is made only where the
      canonical board has none alike, one for each title, behind its own columns. */
  ghost predicate Reuses(before: Data, columns: Cols, canonical: Schema.Id, targets: map<Schema.Id, Schema.Id>) {
    && (forall c <- targets :: c in before.columns && targets[c] in columns && TargetFits(before, columns, canonical, before.columns[c], targets[c]))
    && (forall c, d :: c in targets && d in targets && targets[c] !in before.columns && targets[d] !in before.columns
                       && before.columns[c].title == before.columns[d].title
          ==> targets[c] == targets[d])
    && (forall n <- columns :: n !in before.columns ==> Made(before, columns, canonical, targets, n))
  }

  ghost predicate TargetFits(before: Data, columns: Cols, canonical: Schema.Id, source: Column, target: Schema.Id) {
    target in columns &&
    if HasRole(before.columns, canonical, source) then target in OnBoard(before.columns, canonical) && SameRole(source, before.columns[target])
    else if HasTitle(before.columns, canonical, source) then target in OnBoard(before.columns, canonical) && SameTitle(source, before.columns[target])
    else target !in before.columns && columns[target].title == source.title && columns[target].role == NoRole
  }

  ghost predicate Made(before: Data, columns: Cols, canonical: Schema.Id, targets: map<Schema.Id, Schema.Id>, n: Schema.Id)
    requires n in columns
  {
    && columns[n].board == canonical && columns[n].role == NoRole
    && (exists c <- targets :: targets[c] == n)
    && (forall k <- OnBoard(before.columns, canonical) :: before.columns[k].position < columns[n].position)
    && (forall k <- OnBoard(before.columns, canonical) :: before.columns[k].role != NoRole || before.columns[k].title != columns[n].title)
  }

  lemma NothingReused(before: Data, canonical: Schema.Id)
    ensures Reuses(before, before.columns, canonical, map[])
  {
  }

  lemma ReuseFits(before: Data, columns: Cols, after: Cols, nextId: Schema.Id, canonical: Schema.Id, targets: map<Schema.Id, Schema.Id>,
                  source: Column, target: Schema.Id)
    requires OnlyAdded(before, columns, nextId, canonical) && Reuses(before, columns, canonical, targets)
    requires Takes(columns, after, canonical, source, target, nextId)
    requires (forall k <- before.columns :: k < before.nextId) && nextId !in columns
    ensures TargetFits(before, after, canonical, source, target)
  {
    RolesAreOld(before, columns, nextId, canonical, targets, source);
    TitlesAre(before, columns, nextId, canonical, targets, source);
    hide Alike;
  }

  // New columns have no role, so a role is found among the old ones.
  lemma RolesAreOld(before: Data, columns: Cols, nextId: Schema.Id, canonical: Schema.Id, targets: map<Schema.Id, Schema.Id>, source: Column)
    requires OnlyAdded(before, columns, nextId, canonical) && Reuses(before, columns, canonical, targets)
    ensures HasRole(columns, canonical, source) <==> HasRole(before.columns, canonical, source)
    ensures forall k <- OnBoard(columns, canonical) :: SameRole(source, columns[k]) ==> k in OnBoard(before.columns, canonical)
  {
    forall k <- OnBoard(columns, canonical) | SameRole(source, columns[k]) ensures k in OnBoard(before.columns, canonical) {
      assert k !in before.columns ==> Made(before, columns, canonical, targets, k);
    }
    hide Reuses;
    if HasRole(before.columns, canonical, source) {
      var k :| k in OnBoard(before.columns, canonical) && SameRole(source, before.columns[k]);
      assert k in OnBoard(columns, canonical);
    }
  }

  // Where the board had a column of the title, none has been made.
  lemma TitlesAre(before: Data, columns: Cols, nextId: Schema.Id, canonical: Schema.Id, targets: map<Schema.Id, Schema.Id>, source: Column)
    requires OnlyAdded(before, columns, nextId, canonical) && Reuses(before, columns, canonical, targets)
    ensures HasTitle(before.columns, canonical, source) ==> HasTitle(columns, canonical, source)
    ensures HasTitle(before.columns, canonical, source) ==>
              forall k <- OnBoard(columns, canonical) :: SameTitle(source, columns[k]) ==> k in OnBoard(before.columns, canonical)
    ensures !HasTitle(before.columns, canonical, source) ==>
              forall k <- OnBoard(columns, canonical) :: SameTitle(source, columns[k]) ==> k !in before.columns
  {
    if HasTitle(before.columns, canonical, source) {
      var h :| h in OnBoard(before.columns, canonical) && SameTitle(source, before.columns[h]);
      assert h in OnBoard(columns, canonical);
      forall k <- OnBoard(columns, canonical) | SameTitle(source, columns[k]) ensures k in OnBoard(before.columns, canonical) {
        assert k !in before.columns ==> Made(before, columns, canonical, targets, k);
      }
    } else {
      forall k <- OnBoard(columns, canonical) | SameTitle(source, columns[k]) ensures k !in before.columns {
        assert k in before.columns ==> k in OnBoard(before.columns, canonical);
      }
    }
    hide Reuses;
  }

  lemma ReusesMore(before: Data, columns: Cols, after: Cols, nextId: Schema.Id, canonical: Schema.Id, targets: map<Schema.Id, Schema.Id>,
                   c: Schema.Id, target: Schema.Id)
    requires OnlyAdded(before, columns, nextId, canonical) && Reuses(before, columns, canonical, targets)
    requires c in before.columns && c !in targets && Takes(columns, after, canonical, before.columns[c], target, nextId)
    requires (forall k <- before.columns :: k < before.nextId) && nextId !in columns
    ensures Reuses(before, after, canonical, targets[c := target])
  {
    hide TargetFits, Made, Takes, OnlyAdded;
    var source := before.columns[c];
    ReuseFits(before, columns, after, nextId, canonical, targets, source, target);
    TakenKeeps(columns, after, canonical, source, target, nextId);
    forall d <- targets ensures TargetFits(before, after, canonical, before.columns[d], targets[d]) {
      FitsKept(before, columns, after, canonical, before.columns[d], targets[d]);
    }
    FitsIsThere(before, after, canonical, source, target);
    forall d <- targets | target !in before.columns && targets[d] !in before.columns && before.columns[d].title == source.title
      ensures targets[d] == target
    {
      OneForTitle(before, columns, after, nextId, canonical, targets, c, target, d);
    }
    forall n <- after | n !in before.columns ensures Made(before, after, canonical, targets[c := target], n) {
      StillMade(before, columns, after, nextId, canonical, targets, c, target, n);
    }
  }

  lemma FitsIsThere(before: Data, columns: Cols, canonical: Schema.Id, source: Column, target: Schema.Id)
    requires TargetFits(before, columns, canonical, source, target)
    ensures target in columns
  {
  }

  lemma FitsKept(before: Data, columns: Cols, after: Cols, canonical: Schema.Id, source: Column, target: Schema.Id)
    requires TargetFits(before, columns, canonical, source, target) && forall k <- columns :: k in after && after[k] == columns[k]
    ensures TargetFits(before, after, canonical, source, target) && target in after
  {
    hide HasRole, HasTitle;
  }

  lemma TakenKeeps(columns: Cols, after: Cols, canonical: Schema.Id, source: Column, target: Schema.Id, newId: Schema.Id)
    requires Takes(columns, after, canonical, source, target, newId) && newId !in columns
    ensures forall k <- columns :: k in after && after[k] == columns[k]
    ensures after.Keys <= columns.Keys + {newId}
  {
  }

  // Columns made for one title are one column.
  lemma OneForTitle(before: Data, columns: Cols, after: Cols, nextId: Schema.Id, canonical: Schema.Id, targets: map<Schema.Id, Schema.Id>,
                    c: Schema.Id, target: Schema.Id, d: Schema.Id)
    requires OnlyAdded(before, columns, nextId, canonical) && Reuses(before, columns, canonical, targets)
    requires c in before.columns && Takes(columns, after, canonical, before.columns[c], target, nextId) && target !in before.columns
    requires d in targets && targets[d] !in before.columns && d in before.columns && before.columns[d].title == before.columns[c].title
    ensures targets[d] == target
  {
    assert TargetFits(before, columns, canonical, before.columns[d], targets[d]);
    assert Made(before, columns, canonical, targets, targets[d]);
    assert targets[d] in OnBoard(columns, canonical) && SameTitle(before.columns[c], columns[targets[d]]);
    assert HasTitle(columns, canonical, before.columns[c]);
    assert Made(before, columns, canonical, targets, target);
    var e :| e in targets && targets[e] == target;
    assert TargetFits(before, columns, canonical, before.columns[e], target);
  }

  lemma StillMade(before: Data, columns: Cols, after: Cols, nextId: Schema.Id, canonical: Schema.Id, targets: map<Schema.Id, Schema.Id>,
                  c: Schema.Id, target: Schema.Id, n: Schema.Id)
    requires OnlyAdded(before, columns, nextId, canonical) && Reuses(before, columns, canonical, targets) && nextId !in columns
    requires c in before.columns && c !in targets && Takes(columns, after, canonical, before.columns[c], target, nextId)
    requires n in after && n !in before.columns
    ensures Made(before, after, canonical, targets[c := target], n)
  {
    TakenKeeps(columns, after, canonical, before.columns[c], target, nextId);
    if n in columns {
      assert Made(before, columns, canonical, targets, n);
      var e :| e in targets && targets[e] == n;
      assert targets[c := target][e] == n;
    } else {
      assert targets[c := target][c] == n;
      forall k <- OnBoard(before.columns, canonical)
        ensures k in OnBoard(columns, canonical) && columns[k] == before.columns[k]
      {
      }
    }
    hide Reuses, TargetFits;
  }

  lemma KeptColumn(before: Data, columns: Cols, nextId: Schema.Id, canonical: Schema.Id, c: Schema.Id)
    requires OnlyAdded(before, columns, nextId, canonical) && c in before.columns
    ensures c in columns && columns[c] == before.columns[c]
  {
  }

  lemma MembersNext(s: seq<Schema.Id>, i: nat)
    requires i < |s|
    ensures Members(s[..i + 1]) == Members(s[..i]) + {s[i]}
  {
    assert s[..i + 1] == s[..i] + [s[i]];
  }

  // Deleting the duplicate deletes no column of the canonical board.
  lemma ReusesStill(before: Data, columns: Cols, canonical: Schema.Id, duplicate: Schema.Id, targets: map<Schema.Id, Schema.Id>)
    requires Reuses(before, columns, canonical, targets) && canonical != duplicate
    requires Mapped(before, columns, canonical, targets)
    ensures Reuses(before, columns - OnBoard(columns, duplicate), canonical, targets)
  {
    var left := columns - OnBoard(columns, duplicate);
    hide HasRole, HasTitle, Alike;
    forall c <- targets ensures TargetFits(before, left, canonical, before.columns[c], targets[c]) {
      assert TargetFits(before, columns, canonical, before.columns[c], targets[c]);
    }
    forall n <- left | n !in before.columns ensures Made(before, left, canonical, targets, n) {
      assert Made(before, columns, canonical, targets, n);
    }
    hide TargetFits, Made;
  }

  lemma NotYet(ids: seq<Schema.Id>, i: nat)
    requires NoDuplicates(ids) && i < |ids|
    ensures ids[i] !in Members(ids[..i])
  {
  }

  lemma FreeId(before: Data, columns: Cols, nextId: Schema.Id, canonical: Schema.Id)
    requires OnlyAdded(before, columns, nextId, canonical)
    ensures nextId !in columns
  {
  }

  lemma MappedMore(before: Data, columns: Cols, after: Cols, canonical: Schema.Id, targets: map<Schema.Id, Schema.Id>,
                   c: Schema.Id, target: Schema.Id)
    requires Mapped(before, columns, canonical, targets) && forall d <- columns :: d in after && after[d] == columns[d]
    requires c in before.columns && target in after && after[target].board == canonical && Alike(before.columns[c], after[target])
    ensures Mapped(before, after, canonical, targets[c := target])
  {
    hide Alike;
  }

  class BoardStore {
    var boards: map<Schema.Id, Board>
    var columns: map<Schema.Id, Column>
    var tasks: map<Schema.Id, Task>
    var rules: map<Schema.Id, StoredRule>
    var nextId: Schema.Id
    var workspaceOwners: map<Schema.Id, Schema.Id>

    function Model(): Data
      reads this
    {
      Data(boards, columns, tasks, rules, nextId)
    }

    /** The search through the canonical columns: by role, then by title. */
    method FindCounterpart(source: Column, listed: seq<Schema.Id>) returns (target: Option<Schema.Id>)
      requires forall c :: c in listed ==> c in columns
      ensures target == Counterpart(columns, listed, source)
    {
      var i := 0;
      if source.role != NoRole {
        while i < |listed|
          invariant 0 <= i <= |listed|
          invariant FirstSameRole(columns, listed, source) == FirstSameRole(columns, listed[i..], source)
        {
          if columns[listed[i]].role == source.role {
            return Some(listed[i]);
          }
          i := i + 1;
        }
      } else {
        FirstSameRoleIs(columns, listed, source);
      }
      i := 0;
      while i < |listed|
        invariant 0 <= i <= |listed|
        invariant FirstSameTitle(columns, listed, source) == FirstSameTitle(columns, listed[i..], source)
      {
        var column := columns[listed[i]];
        if column.role == NoRole && column.title == source.title {
          return Some(listed[i]);
        }
        i := i + 1;
      }
      return None;
    }

    /** The counterpart of one column, created at the end of the canonical board
        if there is none. */
    method MapColumn(canonical: Schema.Id, source: Column, listed: seq<Schema.Id>, ghost before: Data)
        returns (target: Schema.Id, listed': seq<Schema.Id>)
      requires OnlyAdded(before, columns, nextId, canonical) && ListsBoard(columns, canonical, listed)
      requires DistinctPositions(columns) && DistinctRoles(columns)
      modifies this`columns, this`nextId
      ensures OnlyAdded(before, columns, nextId, canonical) && ListsBoard(columns, canonical, listed')
      ensures DistinctPositions(columns) && DistinctRoles(columns)
      ensures forall c <- old(columns) :: c in columns && columns[c] == old(columns)[c]
      ensures target in columns && columns[target].board == canonical && Alike(source, columns[target])
      ensures Takes(old(columns), columns, canonical, source, target, old(nextId))
    {
      TakesFound(columns, listed, canonical, source);
      var found := FindCounterpart(source, listed);
      CounterpartIs(columns, listed, source);
      if found.Some? {
        return found.value, listed;
      }
      CreatedCounterpart(before, columns, nextId, canonical, listed, source);
      TakesCreated(columns, listed, canonical, source, nextId);
      hide Takes;
      hide DistinctPositions, DistinctRoles, OnlyAdded, ListsBoard;
      var used := set c | c in listed && c in columns :: columns[c].position;
      target, listed' := nextId, listed + [nextId];
      columns := columns[nextId := NewCounterpart(source, canonical, NextFree(used))];
      nextId := nextId + 1;
    }

    /** Every column of the duplicate gets its counterpart. */
    method MapColumns(canonical: Schema.Id, duplicate: Schema.Id, listed: seq<Schema.Id>)
        returns (targets: map<Schema.Id, Schema.Id>, listed': seq<Schema.Id>)
      requires TablesOk(Model()) && ListsBoard(columns, canonical, listed)
      modifies this`columns, this`nextId
      ensures OnlyAdded(old(Model()), columns, nextId, canonical) && ListsBoard(columns, canonical, listed')
      ensures DistinctPositions(columns) && DistinctRoles(columns)
      ensures targets.Keys == OnBoard(old(columns), duplicate) && Mapped(old(Model()), columns, canonical, targets)
      ensures Reuses(old(Model()), columns, canonical, targets)
    {
      var sources := OrderedQuery(OnBoard(columns, duplicate), Positions(columns));
      SortedLists(OnBoard(columns, duplicate), Positions(columns));
      hide DistinctPositions, DistinctRoles, ListsBoard, Mapped;
      targets, listed' := MapSources(canonical, sources, listed, Model());
    }

    method MapSources(canonical: Schema.Id, sources: seq<Schema.Id>, listed: seq<Schema.Id>, ghost before: Data)
        returns (targets: map<Schema.Id, Schema.Id>, listed': seq<Schema.Id>)
      requires OnlyAdded(before, columns, nextId, canonical) && ListsBoard(columns, canonical, listed)
      requires DistinctPositions(columns) && DistinctRoles(columns) && NoDuplicates(sources)
      requires (forall c :: c in sources ==> c in before.columns) && forall c <- before.columns :: c < before.nextId
      requires columns == before.columns
      modifies this`columns, this`nextId
      ensures OnlyAdded(before, columns, nextId, canonical) && ListsBoard(columns, canonical, listed')
      ensures DistinctPositions(columns) && DistinctRoles(columns)
      ensures targets.Keys == Members(sources) && Mapped(before, columns, canonical, targets)
      ensures Reuses(before, columns, canonical, targets)
    {
      targets, listed' := map[], listed;
      var i := 0;
      assert Mapped(before, columns, canonical, targets);
      NothingReused(before, canonical);
      hide DistinctPositions, DistinctRoles, ListsBoard, Alike, OnlyAdded, Mapped, Reuses, Takes;
      while i < |sources|
        invariant 0 <= i <= |sources|
        invariant OnlyAdded(before, columns, nextId, canonical) && ListsBoard(columns, canonical, listed')
        invariant DistinctPositions(columns) && DistinctRoles(columns)
        invariant targets.Keys == Members(sources[..i]) && Mapped(before, columns, canonical, targets)
        invariant Reuses(before, columns, canonical, targets)
      {
        hide Members;
        var source := sources[i];
        KeptColumn(before, columns, nextId, canonical, source);
        MembersNext(sources, i);
        NotYet(sources, i);
        ghost var cols, id := columns, nextId;
        FreeId(before, columns, nextId, canonical);
        var target: Schema.Id;
        target, listed' := MapColumn(canonical, columns[source], listed', before);
        MappedMore(before, cols, columns, canonical, targets, source, target);
        ReusesMore(before, cols, columns, id, canonical, targets, source, target);
        targets := targets[source := target];
        i := i + 1;
      }
      assert sources[..i] == sources;
    }

    /** The tasks of one column, in their order, behind those the target shows. */
    method RehomeColumn(canonical: Schema.Id, workspace: Schema.Id, duplicate: Schema.Id, source: Schema.Id, target: Schema.Id)
      modifies this`tasks
      ensures ColumnRehomed(old(tasks), tasks, duplicate, source, canonical, workspace, target)
      ensures ColumnQueued(old(tasks), tasks, duplicate, source, |ActiveResidents(old(tasks), canonical, target)|)
    {
      var existing := |set t | t in InColumn(tasks, canonical, Some(target)) && tasks[t].archivedAt.None?|;
      var ids := OrderedQuery(InColumn(tasks, duplicate, Some(source)), TaskOrder(tasks));
      SortedLists(InColumn(tasks, duplicate, Some(source)), TaskOrder(tasks));
      AllRehomed(tasks, duplicate, source, canonical, workspace, target, existing);
      AllQueued(tasks, duplicate, source, canonical, workspace, target, existing);
      ResidentsAre(tasks, canonical, target);
      ghost var before := tasks;
      var offset := 0;
      NoneRehomed(tasks, ids, canonical, workspace, target, existing);
      hide Sorted, ColumnRehomed, ColumnQueued, ActiveResidents;
      while offset < |ids|
        invariant 0 <= offset <= |ids|
        invariant tasks == PartlyRehomed(before, ids, offset, canonical, workspace, target, existing)
      {
        assert ids[offset] in ids;
        PartlyRehomedNext(before, ids, offset, canonical, workspace, target, existing);
        hide PartlyRehomed;
        tasks := tasks[ids[offset] := Rehomed(tasks[ids[offset]], canonical, workspace, Some(target), existing + offset)];
        offset := offset + 1;
      }
    }

    method RehomeColumns(canonical: Schema.Id, workspace: Schema.Id, duplicate: Schema.Id, targets: map<Schema.Id, Schema.Id>)
      requires OnBoard(columns, duplicate) <= targets.Keys && canonical != duplicate
      modifies this`tasks
      ensures Rehoming(old(tasks), tasks, duplicate, OnBoard(columns, duplicate), canonical, workspace, targets)
      ensures DistinctPositions(columns) ==>
                QueuedBehind(Data(boards, columns, old(tasks), rules, nextId), tasks, canonical, duplicate, targets)
    {
      ghost var before := tasks;
      var sources := OrderedQuery(OnBoard(columns, duplicate), Positions(columns));
      SortedLists(OnBoard(columns, duplicate), Positions(columns));
      NoneLeaves(tasks, duplicate, canonical, workspace, targets);
      hide Sorted, Rehoming, OnBoard, QueuedSoFar, ColumnQueued, QueuedBehind;
      var i := 0;
      NoneQueued(tasks, canonical, duplicate, targets, sources);
      while i < |sources|
        invariant 0 <= i <= |sources|
        invariant Rehoming(before, tasks, duplicate, Members(sources[..i]), canonical, workspace, targets)
        invariant QueuedSoFar(before, tasks, canonical, duplicate, targets, sources, i)
      {
        var source := sources[i];
        assert source in sources && source in targets;
        MembersNext(sources, i);
        assert source !in Members(sources[..i]);
        hide ColumnRehomed, Members;
        ghost var mid := tasks;
        RehomeColumn(canonical, workspace, duplicate, source, targets[source]);
        QueuedStep(before, mid, tasks, duplicate, canonical, workspace, targets, sources, i);
        RehomingStep(before, mid, tasks, duplicate, Members(sources[..i]), canonical, workspace, targets, source);
        i := i + 1;
      }
      assert sources[..i] == sources;
      assert Members(sources) == OnBoard(columns, duplicate);
      if DistinctPositions(columns) {
        AllQueuedBehind(Data(boards, columns, before, rules, nextId), tasks, canonical, duplicate, targets, sources);
      }
    }

    method RehomeColumnless(canonical: Schema.Id, workspace: Schema.Id, duplicate: Schema.Id)
      modifies this`tasks
      ensures tasks == ColumnlessMoved(old(tasks), duplicate, canonical, workspace)
    {
      ghost var before := tasks;
      var left := InColumn(tasks, duplicate, None);
      while left != {}
        invariant left <= InColumn(before, duplicate, None) && tasks.Keys == before.Keys
        invariant forall t <- before :: tasks[t]
                    == if t in InColumn(before, duplicate, None) && t !in left
                       then before[t].(board := canonical, workspace := workspace) else before[t]
      {
        var task :| task in left;
        tasks := tasks[task := tasks[task].(board := canonical, workspace := workspace)];
        left := left - {task};
      }
    }

    method RewriteRules(canonical: Schema.Id, duplicate: Schema.Id, targets: map<Schema.Id, Schema.Id>)
      modifies this`rules
      ensures rules == RulesRewritten(old(rules), canonical, duplicate, Names(targets))
    {
      ghost var before := rules;
      var names := Names(targets);
      hide Names, Rewrite;
      var left := RulesOn(rules, duplicate);
      while left != {}
        invariant left <= RulesOn(before, duplicate) && rules.Keys == before.Keys
        invariant forall r <- before :: rules[r]
                    == if r in RulesOn(before, duplicate) && r !in left then RuleMerged(before[r], canonical, names) else before[r]
      {
        var rule :| rule in left;
        rules := rules[rule := RuleMerged(rules[rule], canonical, names)];
        left := left - {rule};
      }
    }

    /** Deleting a board with everything the cascade takes. */
    method DeleteBoard(board: Schema.Id)
      modifies this`boards, this`columns, this`tasks, this`rules
      ensures boards == old(boards) - {board} && columns == old(columns) - OnBoard(old(columns), board)
      ensures tasks == Surviving(old(tasks), board, OnBoard(old(columns), board))
      ensures rules == old(rules) - RulesOn(old(rules), board)
    {
      hide OnBoard;
      tasks := Surviving(tasks, board, OnBoard(columns, board));
      columns := columns - OnBoard(columns, board);
      rules := rules - RulesOn(rules, board);
      boards := boards - {board};
    }

    /** One duplicate: map its columns, move its tasks, rewrite its rules, delete it. */
    method MergeBoard(canonical: Schema.Id, duplicate: Schema.Id, listed: seq<Schema.Id>)
        returns (listed': seq<Schema.Id>, ghost targets: map<Schema.Id, Schema.Id>)
      requires TablesOk(Model()) && ListsBoard(columns, canonical, listed)
      requires canonical in boards && duplicate in boards && canonical != duplicate
      modifies this`boards, this`columns, this`tasks, this`rules, this`nextId
      ensures TablesOk(Model()) && ListsBoard(columns, canonical, listed')
      ensures boards == old(boards) - {duplicate}
      ensures tasks.Keys == old(tasks).Keys - Lost(old(Model()), duplicate)
      ensures Merging(old(Model()), Model(), canonical, duplicate)
      ensures QueuedBehind(old(Model()), tasks, canonical, duplicate, targets)
      ensures Reuses(old(Model()), columns, canonical, targets)
      ensures ColumnsAtHome(old(Model())) ==> Merged(old(Model()), Model(), canonical, duplicate, targets)
    {
      hide Rehoming, Surviving, ColumnlessMoved, RulesRewritten, OnlyAdded, Mapped, TablesOk, ListsBoard, RulesOn, Names;
      hide Merged, Merging, QueuedBehind, Reuses, Lost, ColumnsAtHome, OnBoard, DistinctPositions, DistinctRoles, AfterMerge;
      ghost var before := Model();
      var map', workspace := map[], boards[canonical].workspace;
      map', listed' := MapColumns(canonical, duplicate, listed);
      targets := map';
      ghost var added := columns;
      SameDuplicate(before, added, nextId, canonical, duplicate);
      RehomeColumns(canonical, workspace, duplicate, map');
      ghost var rehomed := tasks;
      QueuedAsBefore(before, Data(boards, added, before.tasks, rules, nextId), rehomed, canonical, duplicate, targets);
      RehomeColumnless(canonical, workspace, duplicate);
      RewriteRules(canonical, duplicate, map');
      DeleteBoard(duplicate);
      MergeDone(before, Model(), added, rehomed, canonical, duplicate, targets);
      ReusesStill(before, added, canonical, duplicate, targets);
      ListStays(added, columns, canonical, duplicate, listed');
    }

    /** The boards of one owner: all but one are merged, from the oldest on. */
    method ConsolidateOwner(owner: Schema.Id, ghost start: Data, ghost homes: Homes, ghost targets: map<Schema.Id, Schema.Id>,
                            ghost merged: seq<Schema.Id>)
        returns (ghost homes': Homes, ghost targets': map<Schema.Id, Schema.Id>, ghost merged': seq<Schema.Id>)
      requires Underway(start, Model(), workspaceOwners, homes, merged) && SettledIfAtHome(start, Model(), homes, targets)
      requires Untouched(start, homes, owner) && BoardsOf(start.boards, owner) != {}
      modifies this`boards, this`columns, this`tasks, this`rules, this`nextId
      ensures Underway(start, Model(), workspaceOwners, homes', merged') && SettledIfAtHome(start, Model(), homes', targets')
      ensures homes' == Gathered(homes, BoardsOf(start.boards, owner), CanonicalBoard(start.boards, workspaceOwners, owner))
    {
      hide Underway, SettledIfAtHome, CanonicalBoard, Untouched, OnBoard, BoardsOf, AtOwners, Gathered, ListsBoard;
      SameBoards(start, Model(), homes, merged, owner, workspaceOwners);
      var canonical := ChooseCanonical(owner);
      SameChoice(start.boards, boards, workspaceOwners, owner);
      var ids := BoardsByAge(owner);
      var listed := ColumnsOf(canonical);
      homes', targets', merged' := MergeAll(canonical, ids, listed, owner, start, homes, targets, merged);
    }

    method BoardsByAge(owner: Schema.Id) returns (ids: seq<Schema.Id>)
      ensures Ascending(ids) && Members(ids) == BoardsOf(boards, owner)
    {
      var mine := BoardsOf(boards, owner);
      ids := OrderedQuery(mine, Ages(mine));
      SortedLists(mine, Ages(mine));
      SortedAscends(mine);
    }

    /** The first board in a workspace of the owner, or else the first of all. */
    method ChooseCanonical(owner: Schema.Id) returns (canonical: Schema.Id)
      requires BoardsOf(boards, owner) != {}
      ensures canonical == CanonicalBoard(boards, workspaceOwners, owner)
    {
      var mine, own := BoardsOf(boards, owner), AtOwners(boards, workspaceOwners, owner);
      if own != {} {
        canonical := FirstRow(own, Ages(own));
      } else {
        canonical := FirstRow(mine, Ages(mine));
      }
    }

    /** `canonical_columns` as it is read at first. */
    method ColumnsOf(board: Schema.Id) returns (listed: seq<Schema.Id>)
      ensures ListsBoard(columns, board, listed)
    {
      listed := OrderedQuery(OnBoard(columns, board), Positions(columns));
      SortedLists(OnBoard(columns, board), Positions(columns));
    }

    method MergeAll(canonical: Schema.Id, ids: seq<Schema.Id>, listed: seq<Schema.Id>, ghost owner: Schema.Id, ghost start: Data,
                    ghost homes: Homes, ghost targets: map<Schema.Id, Schema.Id>, ghost merged: seq<Schema.Id>)
        returns (ghost homes': Homes, ghost targets': map<Schema.Id, Schema.Id>, ghost merged': seq<Schema.Id>)
      requires Underway(start, Model(), workspaceOwners, homes, merged) && SettledIfAtHome(start, Model(), homes, targets)
      requires ListsBoard(columns, canonical, listed) && Untouched(start, homes, owner)
      requires BoardsOf(start.boards, owner) != {} && canonical == CanonicalBoard(start.boards, workspaceOwners, owner)
      requires Ascending(ids) && Members(ids) == BoardsOf(start.boards, owner)
      modifies this`boards, this`columns, this`tasks, this`rules, this`nextId
      ensures Underway(start, Model(), workspaceOwners, homes', merged') && SettledIfAtHome(start, Model(), homes', targets')
      ensures homes' == Gathered(homes, Members(ids), canonical)
    {
      hide Underway, SettledIfAtHome, Untouched, TablesOk, HomesOk, ListsBoard, Merged, MayMerge, Merging, CanonicalBoard, ColumnsAtHome,
           Lost, BoardsOf, Members, Gathered, Ascending;
      homes', targets', merged' := homes, targets, merged;
      var i, list := 0, listed;
      NoneGathered(homes, canonical);
      UnderwayHomes(start, Model(), workspaceOwners, homes, merged);
      while i < |ids|
        invariant 0 <= i <= |ids|
        invariant Underway(start, Model(), workspaceOwners, homes', merged') && SettledIfAtHome(start, Model(), homes', targets')
        invariant ListsBoard(columns, canonical, list) && homes' == Gathered(homes, Members(ids[..i]), canonical)
      {
        var duplicate := ids[i];
        MembersNext(ids, i);
        AscendingNext(ids, i);
        if duplicate != canonical {
          MayMergeNext(start, homes, owner, canonical, Members(ids[..i]), duplicate);
          BothThere(start, Model(), workspaceOwners, homes', merged', canonical, duplicate);
          EarlierMerged(start, Model(), workspaceOwners, homes, homes', merged', owner, canonical, Members(ids[..i]), duplicate);
          ghost var mid := Model();
          ghost var more;
          list, more := MergeBoard(canonical, duplicate, list);
          UnderwayNext(start, mid, Model(), workspaceOwners, homes', merged', canonical, duplicate, owner);
          SettledNext(start, mid, Model(), homes', targets', canonical, duplicate, more);
          homes', targets', merged' := homes'[duplicate := canonical], targets' + more, merged' + [duplicate];
        } else {
          CanonicalStays(start, homes, owner, canonical, Members(ids[..i]));
        }
        i := i + 1;
      }
      assert ids[..i] == ids;
    }

    /** consolidate_personal_boards, for whatever tables: the boards that go are
        merged one after the other, each owner's from the oldest on, and what is
        lost are the tasks found elsewhere with all tasks below them. If every
        column is at home, every board's contents are on the board of its owner
        that stays, and nothing else has changed. */
    method ConsolidatePersonalBoards()
        returns (ghost homes: Homes, ghost targets: map<Schema.Id, Schema.Id>, ghost merged: seq<Schema.Id>)
      requires TablesOk(Model())
      modifies this`boards, this`columns, this`tasks, this`rules, this`nextId
      ensures TablesOk(Model()) && AllGathered(old(Model()), workspaceOwners, homes)
      ensures NoDuplicates(merged) && Members(merged) == Moved(homes) && OldestFirst(old(Model()), merged)
      ensures Reached(old(Model()), Model(), merged, Kept(old(Model()), workspaceOwners))
      ensures tasks.Keys == old(tasks).Keys - Descendants(old(tasks), AllDoomed(old(Model()), merged))
      ensures ColumnsAtHome(old(Model())) ==> Settled(old(Model()), Model(), homes, targets)
    {
      hide Underway, SettledIfAtHome, Settled, ColumnsAtHome, TablesOk, CanonicalBoard, DoneBut, AllGathered, Owners, Gathered, Untouched,
           BoardsOf, Identity, Reached, Kept, Moved, Members, NoDuplicates, OldestFirst, Descendants, AllDoomed;
      ghost var start := Model();
      homes, targets, merged := Identity(boards), map[], [];
      NothingUnderway(start, workspaceOwners);
      NothingSettled(start);
      NobodyDone(start, workspaceOwners);
      var left := Owners(Model());
      while left != {}
        invariant left <= Owners(start)
        invariant Underway(start, Model(), workspaceOwners, homes, merged) && SettledIfAtHome(start, Model(), homes, targets)
        invariant DoneBut(start, workspaceOwners, homes, left)
      {
        var owner :| owner in left;
        NextOwner(start, workspaceOwners, homes, left, owner);
        homes, targets, merged := ConsolidateOwner(owner, start, homes, targets, merged);
        left := left - {owner};
      }
      EverybodyDone(start, workspaceOwners, homes);
      UnderwayEnds(start, Model(), workspaceOwners, homes, merged);
      SettledEnds(start, Model(), homes, targets);
    }
  }

  // ---------- The course of the migration ----------

  /** The boards that stay. */
  ghost function Kept(data: Data, workspaceOwners: map<Schema.Id, Schema.Id>): set<Schema.Id> {
    set b | b in data.boards && data.boards[b].PersonalBoard?
            && (BoardOf(data, b); b == CanonicalBoard(data.boards, workspaceOwners, data.boards[b].owner))
  }

  function Moved(homes: Homes): set<Schema.Id> {
    set b | b in homes && homes[b] != b
  }

  ghost predicate Ascending(ids: seq<Schema.Id>) {
    forall i, j :: 0 <= i < j < |ids| ==> ids[i] < ids[j]
  }

  /** Each owner's boards are merged in the order of their creation. */
  ghost predicate OldestFirst(data: Data, merged: seq<Schema.Id>) {
    forall i, j :: 0 <= i < j < |merged| && merged[i] in data.boards && merged[j] in data.boards
                   && data.boards[merged[i]].PersonalBoard? && data.boards[merged[j]].PersonalBoard?
                   && data.boards[merged[i]].owner == data.boards[merged[j]].owner
      ==> merged[i] < merged[j]
  }

  ghost predicate Underway(start: Data, now: Data, workspaceOwners: map<Schema.Id, Schema.Id>, homes: Homes, merged: seq<Schema.Id>) {
    && HomesOk(start, homes) && TablesOk(now) && NoDuplicates(merged) && Members(merged) == Moved(homes)
    && OldestFirst(start, merged) && Reached(start, now, merged, Kept(start, workspaceOwners))
  }

  ghost predicate SettledIfAtHome(start: Data, now: Data, homes: Homes, targets: map<Schema.Id, Schema.Id>) {
    ColumnsAtHome(start) ==> Settled(start, now, homes, targets) && ColumnsAtHome(now)
  }

  lemma NothingUnderway(start: Data, workspaceOwners: map<Schema.Id, Schema.Id>)
    requires TablesOk(start)
    ensures Underway(start, start, workspaceOwners, Identity(start.boards), [])
  {
    NothingReached(start, Kept(start, workspaceOwners));
    hide Reached, TablesOk, Kept;
  }

  lemma NothingSettled(start: Data)
    requires TablesOk(start)
    ensures SettledIfAtHome(start, start, Identity(start.boards), map[])
  {
    hide TablesOk, Settled, ColumnsAtHome, Identity;
    NothingMerged(start);
  }

  lemma SettledEnds(start: Data, now: Data, homes: Homes, targets: map<Schema.Id, Schema.Id>)
    requires SettledIfAtHome(start, now, homes, targets)
    ensures ColumnsAtHome(start) ==> Settled(start, now, homes, targets)
  {
    hide Settled, ColumnsAtHome;
  }

  lemma UnderwayEnds(start: Data, now: Data, workspaceOwners: map<Schema.Id, Schema.Id>, homes: Homes, merged: seq<Schema.Id>)
    requires Underway(start, now, workspaceOwners, homes, merged)
    ensures TablesOk(now) && NoDuplicates(merged) && Members(merged) == Moved(homes) && OldestFirst(start, merged)
    ensures Reached(start, now, merged, Kept(start, workspaceOwners))
    ensures now.tasks.Keys == start.tasks.Keys - Descendants(start.tasks, AllDoomed(start, merged))
  {
    hide TablesOk, HomesOk, NoDuplicates, OldestFirst, Kept, RowReached, Descendants, AllDoomed;
  }

  lemma UnderwayHomes(start: Data, now: Data, workspaceOwners: map<Schema.Id, Schema.Id>, homes: Homes, merged: seq<Schema.Id>)
    requires Underway(start, now, workspaceOwners, homes, merged)
    ensures HomesOk(start, homes) && homes.Keys == start.boards.Keys
  {
    hide TablesOk, HomeOk, NoDuplicates, OldestFirst, Reached;
  }

  lemma UnderwayBoards(start: Data, now: Data, workspaceOwners: map<Schema.Id, Schema.Id>, homes: Homes, merged: seq<Schema.Id>)
    requires Underway(start, now, workspaceOwners, homes, merged)
    ensures TablesOk(now) && now.boards == start.boards - Moved(homes)
  {
    hide TablesOk, HomesOk, NoDuplicates, OldestFirst, Kept, RowReached, Descendants, AllDoomed;
  }

  lemma SortedAscends(ids: set<Schema.Id>)
    ensures Ascending(Sorted(ids, Ages(ids)))
  {
    SortedLists(ids, Ages(ids));
    hide Sorted;
  }

  lemma AscendingNext(ids: seq<Schema.Id>, i: nat)
    requires Ascending(ids) && i < |ids|
    ensures ids[i] in Members(ids) && ids[i] !in Members(ids[..i]) && Members(ids[..i]) <= Members(ids)
    ensures forall b <- Members(ids[..i]) :: b < ids[i]
  {
  }

  /** Of the owner's boards, the earlier ones have been merged so far. */
  lemma EarlierMerged(start: Data, now: Data, workspaceOwners: map<Schema.Id, Schema.Id>, homes: Homes, homes': Homes,
                      merged: seq<Schema.Id>, owner: Schema.Id, k: Schema.Id, earlier: set<Schema.Id>, d: Schema.Id)
    requires Underway(start, now, workspaceOwners, homes', merged) && Untouched(start, homes, owner)
    requires homes' == Gathered(homes, earlier, k) && forall b <- earlier :: b < d
    requires homes.Keys == start.boards.Keys
    ensures forall b <- BoardsOf(start.boards, owner) :: b in merged ==> b < d
  {
    hide HomesOk, TablesOk, NoDuplicates, OldestFirst, Reached;
    forall b <- BoardsOf(start.boards, owner) | b in merged ensures b < d {
      assert b in Members(merged);
      assert b in Moved(homes');
    }
  }

  lemma OldestFirstNext(start: Data, merged: seq<Schema.Id>, owner: Schema.Id, d: Schema.Id)
    requires OldestFirst(start, merged) && d in BoardsOf(start.boards, owner)
    requires forall b <- BoardsOf(start.boards, owner) :: b in merged ==> b < d
    ensures OldestFirst(start, merged + [d])
  {
    forall b | b in merged && b in start.boards && start.boards[b].PersonalBoard? && start.boards[b].owner == owner ensures b < d {
      assert b in BoardsOf(start.boards, owner);
    }
  }

  lemma MovedNext(homes: Homes, merged: seq<Schema.Id>, k: Schema.Id, d: Schema.Id)
    requires NoDuplicates(merged) && Members(merged) == Moved(homes) && Stays(homes, d) && k != d
    ensures d !in merged && NoDuplicates(merged + [d]) && Members(merged + [d]) == Moved(homes[d := k])
  {
    assert d !in Members(merged);
    assert Members(merged + [d]) == Members(merged) + {d};
    assert Moved(homes[d := k]) == Moved(homes) + {d};
  }

  lemma OneKept(start: Data, workspaceOwners: map<Schema.Id, Schema.Id>, owner: Schema.Id, d: Schema.Id)
    requires BoardsOf(start.boards, owner) != {} && d in BoardsOf(start.boards, owner)
    ensures CanonicalBoard(start.boards, workspaceOwners, owner) in Kept(start, workspaceOwners)
    ensures d in Kept(start, workspaceOwners) ==> d == CanonicalBoard(start.boards, workspaceOwners, owner)
  {
    hide CanonicalBoard;
  }

  lemma UnderwayNext(start: Data, mid: Data, after: Data, workspaceOwners: map<Schema.Id, Schema.Id>, homes: Homes, merged: seq<Schema.Id>,
                     k: Schema.Id, d: Schema.Id, owner: Schema.Id)
    requires Underway(start, mid, workspaceOwners, homes, merged) && MayMerge(start, homes, k, d)
    requires Merging(mid, after, k, d) && TablesOk(after)
    requires d in BoardsOf(start.boards, owner) && k == CanonicalBoard(start.boards, workspaceOwners, owner)
    requires forall b <- BoardsOf(start.boards, owner) :: b in merged ==> b < d
    ensures Underway(start, after, workspaceOwners, homes[d := k], merged + [d])
  {
    hide HomesOk, TablesOk, NoDuplicates, OldestFirst, Reached, Merging, Kept, CanonicalBoard, Members, Moved, BoardsOf;
    MovedNext(homes, merged, k, d);
    OneKept(start, workspaceOwners, owner, d);
    OldestFirstNext(start, merged, owner, d);
    HomesStep(start, homes, k, d);
    ReachedStep(start, mid, after, merged, Kept(start, workspaceOwners), k, d);
  }

  lemma SettledNext(start: Data, mid: Data, after: Data, homes: Homes, targets: map<Schema.Id, Schema.Id>, k: Schema.Id, d: Schema.Id,
                    more: map<Schema.Id, Schema.Id>)
    requires SettledIfAtHome(start, mid, homes, targets) && MayMerge(start, homes, k, d)
    requires ColumnsAtHome(mid) ==> Merged(mid, after, k, d, more)
    ensures SettledIfAtHome(start, after, homes[d := k], targets + more)
  {
    hide Settled, ColumnsAtHome, MayMerge, Merged;
    if ColumnsAtHome(start) {
      SettledStep(start, mid, after, homes, targets, k, d, more);
      MergedAtHome(mid, after, k, d, more);
    }
  }

  function Owners(data: Data): set<Schema.Id> {
    set b | b in data.boards && data.boards[b].PersonalBoard? :: data.boards[b].owner
  }

  /** Where the boards are while some owners are still to be served. */
  ghost predicate DoneBut(start: Data, workspaceOwners: map<Schema.Id, Schema.Id>, homes: Homes, left: set<Schema.Id>) {
    && homes.Keys == start.boards.Keys
    && forall b <- start.boards ::
         homes[b] == if start.boards[b].PersonalBoard? && start.boards[b].owner !in left then
                       (BoardOf(start, b); CanonicalBoard(start.boards, workspaceOwners, start.boards[b].owner))
                     else b
  }

  lemma NobodyDone(start: Data, workspaceOwners: map<Schema.Id, Schema.Id>)
    ensures DoneBut(start, workspaceOwners, Identity(start.boards), Owners(start))
  {
  }

  lemma EverybodyDone(start: Data, workspaceOwners: map<Schema.Id, Schema.Id>, homes: Homes)
    requires DoneBut(start, workspaceOwners, homes, {})
    ensures AllGathered(start, workspaceOwners, homes)
  {
    hide CanonicalBoard;
  }

  lemma NextOwner(start: Data, workspaceOwners: map<Schema.Id, Schema.Id>, homes: Homes, left: set<Schema.Id>, owner: Schema.Id)
    requires DoneBut(start, workspaceOwners, homes, left) && owner in left && left <= Owners(start)
    ensures BoardsOf(start.boards, owner) != {} && Untouched(start, homes, owner)
    ensures DoneBut(start, workspaceOwners,
                    Gathered(homes, BoardsOf(start.boards, owner), CanonicalBoard(start.boards, workspaceOwners, owner)), left - {owner})
  {
    var b :| b in start.boards && start.boards[b].PersonalBoard? && start.boards[b].owner == owner;
    assert b in BoardsOf(start.boards, owner);
    hide CanonicalBoard;
  }

  lemma SameBoards(start: Data, now: Data, homes: Homes, merged: seq<Schema.Id>, owner: Schema.Id, workspaceOwners: map<Schema.Id, Schema.Id>)
    requires Underway(start, now, workspaceOwners, homes, merged) && Untouched(start, homes, owner)
    ensures BoardsOf(now.boards, owner) == BoardsOf(start.boards, owner)
    ensures AtOwners(now.boards, workspaceOwners, owner) == AtOwners(start.boards, workspaceOwners, owner)
  {
    UnderwayBoards(start, now, workspaceOwners, homes, merged);
    hide Underway;
    assert forall b <- BoardsOf(start.boards, owner) :: b !in Moved(homes);
  }

  lemma SameChoice(a: map<Schema.Id, Board>, b: map<Schema.Id, Board>, workspaceOwners: map<Schema.Id, Schema.Id>, owner: Schema.Id)
    requires BoardsOf(a, owner) == BoardsOf(b, owner) != {} && AtOwners(a, workspaceOwners, owner) == AtOwners(b, workspaceOwners, owner)
    ensures CanonicalBoard(a, workspaceOwners, owner) == CanonicalBoard(b, workspaceOwners, owner)
    ensures CanonicalBoard(a, workspaceOwners, owner) in BoardsOf(a, owner)
  {
    hide First;
  }

  lemma NoneGathered(homes: Homes, k: Schema.Id)
    ensures Gathered(homes, Members([]), k) == homes
  {
  }

  lemma BothThere(start: Data, now: Data, workspaceOwners: map<Schema.Id, Schema.Id>, homes: Homes, merged: seq<Schema.Id>,
                  k: Schema.Id, d: Schema.Id)
    requires Underway(start, now, workspaceOwners, homes, merged) && MayMerge(start, homes, k, d)
    ensures TablesOk(now) && k in now.boards && d in now.boards
  {
    UnderwayBoards(start, now, workspaceOwners, homes, merged);
    hide Underway, TablesOk;
  }

  lemma CanonicalStays(start: Data, homes: Homes, owner: Schema.Id, k: Schema.Id, moved: set<Schema.Id>)
    requires Untouched(start, homes, owner) && k in BoardsOf(start.boards, owner)
    ensures Gathered(homes, moved + {k}, k) == Gathered(homes, moved, k)
  {
    assert Stays(homes, k);
  }

  lemma MergeDone(before: Data, after: Data, added: Cols, rehomed: map<Schema.Id, Task>, canonical: Schema.Id,
                  duplicate: Schema.Id, targets: map<Schema.Id, Schema.Id>)
    requires TablesOk(before) && canonical in before.boards && duplicate in before.boards && canonical != duplicate
    requires OnlyAdded(before, added, after.nextId, canonical) && DistinctPositions(added) && DistinctRoles(added)
    requires targets.Keys == OnBoard(before.columns, duplicate) && Mapped(before, added, canonical, targets)
    requires Rehoming(before.tasks, rehomed, duplicate, OnBoard(before.columns, duplicate), canonical, before.boards[canonical].workspace, targets)
    requires after.boards == before.boards - {duplicate} && after.columns == added - OnBoard(added, duplicate)
    requires after.tasks == Surviving(ColumnlessMoved(rehomed, duplicate, canonical, before.boards[canonical].workspace),
                                      duplicate, OnBoard(before.columns, duplicate))
    requires var rewritten := RulesRewritten(before.rules, canonical, duplicate, Names(targets));
             after.rules == rewritten - RulesOn(rewritten, duplicate)
    requires QueuedBehind(before, rehomed, canonical, duplicate, targets)
    ensures QueuedBehind(before, after.tasks, canonical, duplicate, targets)
    ensures TablesOk(after) && after.tasks.Keys == before.tasks.Keys - Lost(before, duplicate) && Merging(before, after, canonical, duplicate)
    ensures ColumnsAtHome(before) ==> Merged(before, after, canonical, duplicate, targets)
  {
    hide Merging, RowMoved, QueuedBehind, ColumnsAtHome;
    KeepsColumns(before, added, after.nextId, canonical);
    hide Rehoming, Surviving, ColumnlessMoved, RulesRewritten, OnlyAdded, Mapped, TablesOk, RulesOn, Names, ColumnsMerged, TasksMerged, RulesMerged, Lost;
    ColumnsAreMerged(before, after, added, canonical, duplicate, targets);
    CascadeTakesStranded(before, rehomed, duplicate, canonical, before.boards[canonical].workspace, targets);
    RulesAreMerged(before, after, canonical, duplicate, targets);
    RowsAreMoved(before, after, rehomed, canonical, duplicate, before.boards[canonical].workspace, targets);
    MergesColumns(before, after, canonical, duplicate, targets);
    QueuedEnd(before, rehomed, after.tasks, canonical, duplicate, before.boards[canonical].workspace, targets);
    if ColumnsAtHome(before) {
      TargetsElsewhere(before, added, canonical, duplicate, targets);
      TasksAreMerged(before, after, rehomed, duplicate, canonical, targets);
    }
  }

  lemma MergesColumns(before: Data, after: Data, k: Schema.Id, d: Schema.Id, targets: map<Schema.Id, Schema.Id>)
    requires ColumnsMerged(before, after, k, d, targets) && before.nextId <= after.nextId && after.boards == before.boards - {d}
    requires after.tasks.Keys == before.tasks.Keys - Lost(before, d)
    requires forall t <- after.tasks :: t in before.tasks && RowMoved(before.tasks[t], after.tasks[t], k, d, OnBoard(before.columns, d))
    ensures Merging(before, after, k, d)
  {
    hide RowMoved, Lost, Alike;
  }

  lemma MovedRow(t: Task, u: Task, k: Schema.Id, d: Schema.Id, workspace: Schema.Id, columns: set<Schema.Id>, gone: set<Schema.Id>,
                 targets: map<Schema.Id, Schema.Id>)
    requires RowRehomed(t, u, d, columns, k, workspace, targets) && k != d
    ensures var moved := if u.board == d && u.column.None? then u.(board := k, workspace := workspace) else u;
            moved.board != d ==> RowMoved(t, Tasks.Unlinked(WithoutColumns(moved, columns), gone, {}), k, d, columns)
  {
  }

  lemma RowsAreMoved(before: Data, after: Data, rehomed: map<Schema.Id, Task>, canonical: Schema.Id, duplicate: Schema.Id,
                     workspace: Schema.Id, targets: map<Schema.Id, Schema.Id>)
    requires Rehoming(before.tasks, rehomed, duplicate, OnBoard(before.columns, duplicate), canonical, workspace, targets)
    requires canonical != duplicate
    requires after.tasks == Surviving(ColumnlessMoved(rehomed, duplicate, canonical, workspace), duplicate, OnBoard(before.columns, duplicate))
    ensures forall t <- after.tasks :: t in before.tasks
              && RowMoved(before.tasks[t], after.tasks[t], canonical, duplicate, OnBoard(before.columns, duplicate))
  {
    hide RowRehomed, RowMoved, OnBoard, Tasks.Unlinked, WithoutColumns, Descendants;
    var moved := ColumnlessMoved(rehomed, duplicate, canonical, workspace);
    var columns, gone := OnBoard(before.columns, duplicate), Descendants(moved, OnDeletedBoard(moved, duplicate));
    DescendantsClosed(moved, OnDeletedBoard(moved, duplicate));
    forall t <- after.tasks
      ensures t in before.tasks && RowMoved(before.tasks[t], after.tasks[t], canonical, duplicate, columns)
    {
      assert t in moved && moved[t].board != duplicate;
      MovedRow(before.tasks[t], rehomed[t], canonical, duplicate, workspace, columns, gone, targets);
    }
  }

  // Adding columns to the canonical board leaves those of the duplicate as they are.
  lemma QueuedAsBefore(before: Data, added: Data, rehomed: map<Schema.Id, Task>, canonical: Schema.Id, duplicate: Schema.Id,
                       targets: map<Schema.Id, Schema.Id>)
    requires OnlyAdded(before, added.columns, added.nextId, canonical) && canonical != duplicate && added.tasks == before.tasks
    requires QueuedBehind(added, rehomed, canonical, duplicate, targets)
    ensures QueuedBehind(before, rehomed, canonical, duplicate, targets)
  {
    SameDuplicate(before, added.columns, added.nextId, canonical, duplicate);
    forall c <- OnBoard(before.columns, duplicate)
      ensures c in before.columns && c in added.columns
      ensures EarlierColumns(added.columns, duplicate, c) == EarlierColumns(before.columns, duplicate, c)
    {
    }
    hide Held, AheadInColumn, OnlyAdded, EarlierColumns, OnBoard;
  }

  // Nothing after the moves changes a position.
  lemma QueuedEnd(before: Data, rehomed: map<Schema.Id, Task>, after: map<Schema.Id, Task>, canonical: Schema.Id, duplicate: Schema.Id,
                  workspace: Schema.Id, targets: map<Schema.Id, Schema.Id>)
    requires QueuedBehind(before, rehomed, canonical, duplicate, targets)
    requires after == Surviving(ColumnlessMoved(rehomed, duplicate, canonical, workspace), duplicate, OnBoard(before.columns, duplicate))
    ensures QueuedBehind(before, after, canonical, duplicate, targets)
  {
    hide Held, AheadInColumn, EarlierColumns, OnBoard, Descendants, QueuedBehind;
    forall t <- after ensures t in rehomed && after[t].position == rehomed[t].position {
    }
    SamePositionsQueued(before, rehomed, after, canonical, duplicate, targets);
  }

  lemma SamePositionsQueued(before: Data, a: map<Schema.Id, Task>, b: map<Schema.Id, Task>, canonical: Schema.Id, duplicate: Schema.Id,
                            targets: map<Schema.Id, Schema.Id>)
    requires QueuedBehind(before, a, canonical, duplicate, targets) && forall t <- b :: t in a && b[t].position == a[t].position
    ensures QueuedBehind(before, b, canonical, duplicate, targets)
  {
    hide Held, AheadInColumn, EarlierColumns, OnBoard;
  }

  lemma KeepsColumns(before: Data, added: Cols, nextId: Schema.Id, canonical: Schema.Id)
    requires OnlyAdded(before, added, nextId, canonical)
    ensures forall c <- before.columns :: c in added && added[c] == before.columns[c]
  {
  }

  lemma SameDuplicate(before: Data, columns: Cols, nextId: Schema.Id, canonical: Schema.Id, duplicate: Schema.Id)
    requires OnlyAdded(before, columns, nextId, canonical) && canonical != duplicate
    ensures OnBoard(columns, duplicate) == OnBoard(before.columns, duplicate)
  {
  }

  lemma ColumnsAreMerged(before: Data, after: Data, added: Cols, canonical: Schema.Id, duplicate: Schema.Id, targets: map<Schema.Id, Schema.Id>)
    requires TablesOk(before) && OnlyAdded(before, added, after.nextId, canonical) && canonical in before.boards && canonical != duplicate
    requires DistinctPositions(added) && DistinctRoles(added)
    requires targets.Keys == OnBoard(before.columns, duplicate) && Mapped(before, added, canonical, targets)
    requires after.columns == added - OnBoard(added, duplicate) && after.boards == before.boards - {duplicate}
    ensures TablesOk(after) && ColumnsMerged(before, after, canonical, duplicate, targets) && before.nextId <= after.nextId
  {
    hide Alike, DistinctPositions, DistinctRoles, Mapped;
    FewerColumns(added, OnBoard(added, duplicate));
    hide TablesOk;
    TargetsLeft(before, added, canonical, duplicate, targets);
  }

  lemma FewerColumns(cols: Cols, gone: set<Schema.Id>)
    requires DistinctPositions(cols) && DistinctRoles(cols)
    ensures DistinctPositions(cols - gone) && DistinctRoles(cols - gone)
  {
  }

  lemma TargetsLeft(before: Data, added: Cols, canonical: Schema.Id, duplicate: Schema.Id, targets: map<Schema.Id, Schema.Id>)
    requires Mapped(before, added, canonical, targets) && canonical != duplicate
    ensures var left := added - OnBoard(added, duplicate);
            forall c <- targets :: targets[c] in left && left[targets[c]].board == canonical
                                   && c in before.columns && Alike(before.columns[c], left[targets[c]])
  {
    hide Alike;
  }

  lemma ListStays(added: Cols, columns: Cols, canonical: Schema.Id, duplicate: Schema.Id, listed: seq<Schema.Id>)
    requires ListsBoard(added, canonical, listed) && columns == added - OnBoard(added, duplicate) && canonical != duplicate
    ensures ListsBoard(columns, canonical, listed)
  {
  }

  lemma RulesAreMerged(before: Data, after: Data, canonical: Schema.Id, duplicate: Schema.Id, targets: map<Schema.Id, Schema.Id>)
    requires canonical != duplicate
    requires after.rules == RulesRewritten(before.rules, canonical, duplicate, Names(targets))
                            - RulesOn(RulesRewritten(before.rules, canonical, duplicate, Names(targets)), duplicate)
    ensures RulesMerged(before, after, canonical, duplicate, targets)
  {
    hide Names, Rewrite;
  }

  lemma TargetsElsewhere(before: Data, added: Cols, canonical: Schema.Id, duplicate: Schema.Id, targets: map<Schema.Id, Schema.Id>)
    requires Mapped(before, added, canonical, targets) && canonical != duplicate
    requires forall c <- before.columns :: c in added && added[c] == before.columns[c]
    ensures forall c <- targets :: targets[c] !in OnBoard(before.columns, duplicate)
  {
  }

  function RulesOn(rules: map<Schema.Id, StoredRule>, board: Schema.Id): set<Schema.Id> {
    set r | r in rules && rules[r].board == board
  }

  function RulesRewritten(rules: map<Schema.Id, StoredRule>, canonical: Schema.Id, duplicate: Schema.Id, names: map<string, string>): map<Schema.Id, StoredRule> {
    map r | r in rules :: if rules[r].board == duplicate then RuleMerged(rules[r], canonical, names) else rules[r]
  }

  lemma NoneLeaves(tasks: map<Schema.Id, Task>, duplicate: Schema.Id, canonical: Schema.Id, workspace: Schema.Id, targets: map<Schema.Id, Schema.Id>)
    ensures Rehoming(tasks, tasks, duplicate, Members([]), canonical, workspace, targets)
  {
  }

  lemma NoneRehomed(tasks: map<Schema.Id, Task>, ids: seq<Schema.Id>, board: Schema.Id, workspace: Schema.Id, column: Schema.Id, base: nat)
    ensures PartlyRehomed(tasks, ids, 0, board, workspace, column, base) == tasks
  {
  }

  // ---------- A merge that loses tasks ----------

  function RowOn(board: Schema.Id, column: Option<Schema.Id>, parent: Option<Schema.Id>): Task {
    Task(0, board, column, None, None, parent, None, None, 7, None, Content("", "", "", None, None, None, []), 0,
         false, None, false, false, "", None, 1)
  }

  /** Two boards of one user and a project board; task 21 is on the second board
      in a column of the first, task 22 on the project board belongs to it. */
  function Divided(): Data {
    Data(map[1 := PersonalBoard(0, 7), 2 := PersonalBoard(0, 7), 3 := ProjectBoard(0, 9)],
         map[11 := Column(1, "Offen", 0, false, NoRole)],
         map[21 := RowOn(2, Some(11), None), 22 := RowOn(3, None, Some(21)), 23 := RowOn(2, None, None)],
         map[], 30)
  }

  /** Merging the second board into the first loses both, but not task 23. */
  lemma DividedLoses()
    ensures TablesOk(Divided()) && Stranded(Divided(), 2) == {21} && Lost(Divided(), 2) == {21, 22}
  {
    var data := Divided();
    assert Stranded(data, 2) == {21};
    assert Children(data.tasks, {21}) == {22};
    assert {21} + {22} == {21, 22};
    assert Children(data.tasks, {21, 22}) == {};
  }

  /** Three boards of one user, the first to stay. Task 31 is on the second board
      in a column of the third, task 32 the other way round. */
  function Crossed(): Data {
    Data(map[1 := PersonalBoard(0, 7), 2 := PersonalBoard(0, 7), 3 := PersonalBoard(0, 7)],
         map[12 := Column(2, "Offen", 0, false, NoRole), 13 := Column(3, "Offen", 0, false, NoRole)],
         map[31 := RowOn(2, Some(13), None), 32 := RowOn(3, Some(12), None)],
         map[], 40)
  }

  lemma CrossedRows()
    ensures var data := Crossed();
            && data.tasks.Keys == {31, 32} && data.tasks[31].board == 2 && data.tasks[31].column == Some(13)
            && data.tasks[32].board == 3 && data.tasks[32].column == Some(12)
            && data.columns.Keys == {12, 13} && data.columns[12].board == 2 && data.columns[13].board == 3
  {
  }

  lemma CrossedDoom(earlier: seq<Schema.Id>)
    ensures Doomed(Crossed(), earlier, 2) == if 3 in earlier then {} else {31}
    ensures Doomed(Crossed(), earlier, 3) == if 2 in earlier then {} else {32}
  {
    CrossedRows();
    hide Crossed, RowOn;
  }

  lemma CrossedTables()
    ensures TablesOk(Crossed())
  {
    hide RowOn;
  }

  lemma DoomInTwo(data: Data, a: Schema.Id, b: Schema.Id)
    ensures AllDoomed(data, [a, b]) == Doomed(data, [], a) + Doomed(data, [a], b)
  {
    hide Doomed;
    LastDoomed(data, [], a);
    LastDoomed(data, [a], b);
    assert [] + [a] == [a] && [a] + [b] == [a, b];
  }

  /** The order of the merges decides: the board that is merged first loses its
      task, the other one's task has no column any more by then and is kept. */
  lemma OrderDecides()
    ensures TablesOk(Crossed()) && AllDoomed(Crossed(), [2, 3]) == {31} && AllDoomed(Crossed(), [3, 2]) == {32}
  {
    hide Crossed, Doomed, AllDoomed, TablesOk;
    CrossedTables();
    CrossedDoom([]);
    CrossedDoom([2]);
    CrossedDoom([3]);
    DoomInTwo(Crossed(), 2, 3);
    DoomInTwo(Crossed(), 3, 2);
  }
}
