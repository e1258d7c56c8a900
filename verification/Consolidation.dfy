/** Merging the older personal boards of each user into one
    (apps/workspaces/migrations/0005_global_personal_board.py). */
module Consolidation {
  import opened Columns
  import opened Json
  import opened Options
  import opened Ordering
  import opened Schema
  import opened Text

  datatype StoredRule = StoredRule(board: Schema.Id, conditions: Value, actions: Value)

  /** The tables the migration works on. */
  datatype Data = Data(
    boards: map<Schema.Id, Board>, columns: map<Schema.Id, Column>, tasks: map<Schema.Id, Task>,
    rules: map<Schema.Id, StoredRule>, nextId: Schema.Id)

  // ---------- The counterpart of a column ----------

  /** The same system role, or no system role and the same title. */
  predicate Alike(source: Column, target: Column) {
    || (source.role != NoRole && target.role == source.role)
    || (target.role == NoRole && target.title == source.title)
  }

  predicate SameRole(source: Column, target: Column) {
    source.role != NoRole && target.role == source.role
  }

  predicate SameTitle(source: Column, target: Column) {
    target.role == NoRole && target.title == source.title
  }

  /** Column ids as the rules name them. */
  function Names(targets: map<Schema.Id, Schema.Id>): map<string, string> {
    map name | name in (set c | c in targets :: Decimal(c)) :: Decimal(targets[Named(name, targets)])
  }

  function Named(name: string, targets: map<Schema.Id, Schema.Id>): (c: Schema.Id)
    requires exists c :: c in targets && Decimal(c) == name
    ensures c in targets && Decimal(c) == name
  {
    NamedIsUnique(name, targets);
    var c :| c in targets && Decimal(c) == name;
    c
  }

  lemma NamedIsUnique(name: string, targets: map<Schema.Id, Schema.Id>)
    ensures forall c, d :: c in targets && d in targets && Decimal(c) == name == Decimal(d) ==> c == d
  {
    forall c, d | c in targets && d in targets && Decimal(c) == name == Decimal(d)
      ensures c == d
    {
      if c != d {
        DecimalInjective(c, d);
      }
    }
  }

  lemma NamesAre(targets: map<Schema.Id, Schema.Id>)
    ensures forall c <- targets :: Decimal(c) in Names(targets) && Names(targets)[Decimal(c)] == Decimal(targets[c])
    ensures forall name <- Names(targets) :: exists c :: c in targets && Decimal(c) == name
  {
    hide Decimal;
    forall c <- targets
      ensures Decimal(c) in Names(targets) && Names(targets)[Decimal(c)] == Decimal(targets[c])
    {
      NamedIsUnique(Decimal(c), targets);
    }
  }

  // ---------- What merging one board into another does ----------

  /** The order of the tasks of a column. */
  predicate ListedBefore(t: Task, tid: Schema.Id, u: Task, uid: Schema.Id) {
    t.position < u.position || (t.position == u.position && tid < uid)
  }

  function Rehomed(t: Task, board: Schema.Id, workspace: Schema.Id, column: Option<Schema.Id>, position: nat): Task {
    t.(board := board, workspace := workspace, column := column, position := position)
  }

  /** Tasks the merge cannot re-home: their column is on another board. */
  function Stranded(data: Data, board: Schema.Id): set<Schema.Id> {
    set t | t in data.tasks && data.tasks[t].board == board && data.tasks[t].column.Some?
            && data.tasks[t].column.value !in OnBoard(data.columns, board)
  }

  // ---------- What a cascade takes along ----------

  function Children(tasks: map<Schema.Id, Task>, gone: set<Schema.Id>): set<Schema.Id> {
    set t | t in tasks && t !in gone && tasks[t].parent.Some? && tasks[t].parent.value in gone
  }

  /** The rows with their children, their children's children and so on. */
  function Descendants(tasks: map<Schema.Id, Task>, roots: set<Schema.Id>): set<Schema.Id>
    decreases tasks.Keys - roots
  {
    var children := Children(tasks, roots);
    if children == {} then roots
    else
      assert exists c :: c in children && c in tasks.Keys - roots && c !in tasks.Keys - (roots + children);
      Descendants(tasks, roots + children)
  }

  /** n steps up the chain of parents lead from the task to one of the roots. */
  predicate Below(tasks: map<Schema.Id, Task>, t: Schema.Id, roots: set<Schema.Id>, n: nat)
    decreases n
  {
    if n == 0 then t in roots
    else t in tasks && tasks[t].parent.Some? && Below(tasks, tasks[t].parent.value, roots, n - 1)
  }

  lemma {:induction false} DescendantsClosed(tasks: map<Schema.Id, Task>, roots: set<Schema.Id>)
    ensures roots <= Descendants(tasks, roots) && Children(tasks, Descendants(tasks, roots)) == {}
    decreases tasks.Keys - roots
  {
    var children := Children(tasks, roots);
    if children != {} {
      var c :| c in children;
      assert c in tasks.Keys - roots && c !in tasks.Keys - (roots + children);
      DescendantsClosed(tasks, roots + children);
    }
  }

  lemma {:induction false} DescendantsBelow(tasks: map<Schema.Id, Task>, roots: set<Schema.Id>, t: Schema.Id)
    requires t in Descendants(tasks, roots)
    ensures exists n: nat :: Below(tasks, t, roots, n)
    decreases tasks.Keys - roots
  {
    var children := Children(tasks, roots);
    if children == {} {
      assert Below(tasks, t, roots, 0);
    } else {
      var c :| c in children;
      assert c in tasks.Keys - roots && c !in tasks.Keys - (roots + children);
      DescendantsBelow(tasks, roots + children, t);
      var n: nat :| Below(tasks, t, roots + children, n);
      BelowChildren(tasks, roots, t, n);
    }
  }

  lemma {:induction false} BelowChildren(tasks: map<Schema.Id, Task>, roots: set<Schema.Id>, t: Schema.Id, n: nat)
    requires Below(tasks, t, roots + Children(tasks, roots), n)
    ensures exists m: nat :: Below(tasks, t, roots, m)
    decreases n
  {
    if n == 0 {
      if t in roots {
        assert Below(tasks, t, roots, 0);
      } else {
        assert Below(tasks, tasks[t].parent.value, roots, 0);
        assert Below(tasks, t, roots, 1);
      }
    } else {
      BelowChildren(tasks, roots, tasks[t].parent.value, n - 1);
      var m: nat :| Below(tasks, tasks[t].parent.value, roots, m);
      assert Below(tasks, t, roots, m + 1);
    }
  }

  lemma {:induction false} BelowIsDescendant(tasks: map<Schema.Id, Task>, roots: set<Schema.Id>, t: Schema.Id, n: nat)
    requires Below(tasks, t, roots, n)
    ensures t in Descendants(tasks, roots)
    decreases n
  {
    DescendantsClosed(tasks, roots);
    if n > 0 {
      BelowIsDescendant(tasks, roots, tasks[t].parent.value, n - 1);
      assert t !in Children(tasks, Descendants(tasks, roots));
    }
  }

  /** A row goes exactly if its chain of parents leads to a root. */
  lemma DescendantsAre(tasks: map<Schema.Id, Task>, roots: set<Schema.Id>, t: Schema.Id)
    ensures t in Descendants(tasks, roots) <==> exists n: nat :: Below(tasks, t, roots, n)
  {
    if t in Descendants(tasks, roots) {
      DescendantsBelow(tasks, roots, t);
    }
    if n: nat :| Below(tasks, t, roots, n) {
      BelowIsDescendant(tasks, roots, t, n);
    }
  }

  /** Only the parents matter. */
  lemma {:induction false} DescendantsFrame(a: map<Schema.Id, Task>, b: map<Schema.Id, Task>, roots: set<Schema.Id>)
    requires a.Keys == b.Keys && forall t <- a :: a[t].parent == b[t].parent
    ensures Descendants(a, roots) == Descendants(b, roots)
    decreases a.Keys - roots
  {
    var children := Children(a, roots);
    assert children == Children(b, roots);
    if children != {} {
      var c :| c in children;
      assert c in a.Keys - roots && c !in a.Keys - (roots + children);
      DescendantsFrame(a, b, roots + children);
    }
  }

  /** All that a merge loses. */
  function Lost(data: Data, board: Schema.Id): set<Schema.Id> {
    data.tasks.Keys * Descendants(data.tasks, Stranded(data, board))
  }

  /** A merge loses nothing exactly if no task is stranded. */
  lemma LostIffStranded(data: Data, board: Schema.Id)
    ensures Lost(data, board) == {} <==> Stranded(data, board) == {}
  {
    DescendantsClosed(data.tasks, Stranded(data, board));
    if Stranded(data, board) == {} {
      assert Children(data.tasks, {}) == {};
    } else {
      var t :| t in Stranded(data, board);
      assert t in Lost(data, board);
    }
  }

  /** Every task's column is on the task's board. */
  ghost predicate ColumnsAtHome(data: Data) {
    forall t <- data.tasks :: data.tasks[t].column.Some? ==>
      data.tasks[t].column.value in data.columns && data.columns[data.tasks[t].column.value].board == data.tasks[t].board
  }

  ghost predicate TablesOk(data: Data) {
    && DistinctPositions(data.columns) && DistinctRoles(data.columns)
    && (forall c <- data.columns :: c < data.nextId && data.columns[c].board in data.boards)
  }

  ghost predicate ColumnsMerged(before: Data, after: Data, canonical: Schema.Id, duplicate: Schema.Id, targets: map<Schema.Id, Schema.Id>) {
    && (forall c <- before.columns :: before.columns[c].board != duplicate ==>
          c in after.columns && after.columns[c] == before.columns[c])
    && (forall c <- after.columns :: after.columns[c].board != duplicate
          && ((c in before.columns && before.columns[c].board != duplicate)
              || (before.nextId <= c && after.columns[c].board == canonical)))
    && targets.Keys == OnBoard(before.columns, duplicate)
    && (forall c <- targets :: targets[c] in after.columns && after.columns[targets[c]].board == canonical
          && Alike(before.columns[c], after.columns[targets[c]]))
  }

  /** The row of a task after its board has been merged. */
  ghost predicate TaskMerged(t: Task, u: Task, canonical: Schema.Id, workspace: Schema.Id, targets: map<Schema.Id, Schema.Id>) {
    match t.column
    case None => u == t.(board := canonical, workspace := workspace)
    case Some(c) => c in targets && u == Rehomed(t, canonical, workspace, Some(targets[c]), u.position)
  }

  // ---------- Positions behind those that are there ----------

  /** Columns of a board left of one of them. */
  function EarlierColumns(columns: Cols, board: Schema.Id, c: Schema.Id): set<Schema.Id>
    requires c in columns
  {
    set s | s in OnBoard(columns, board) && columns[s].position < columns[c].position
  }

  /** The active tasks a target column holds once the given columns of the
      duplicate have been moved: its own and those that came with them. */
  function Held(tasks: map<Schema.Id, Task>, canonical: Schema.Id, duplicate: Schema.Id, targets: map<Schema.Id, Schema.Id>,
                moved: set<Schema.Id>, target: Schema.Id): set<Schema.Id>
  {
    set t | t in tasks && tasks[t].archivedAt.None? && tasks[t].column.Some?
            && ((tasks[t].board == canonical && tasks[t].column.value == target)
                || (tasks[t].board == duplicate && tasks[t].column.value in moved && tasks[t].column.value in targets
                    && targets[tasks[t].column.value] == target))
  }

  /** The tasks of the same column that are listed before a task. */
  function AheadInColumn(tasks: map<Schema.Id, Task>, t: Schema.Id): set<Schema.Id>
    requires t in tasks
  {
    set u | u in tasks && tasks[u].board == tasks[t].board && tasks[u].column == tasks[t].column
            && ListedBefore(tasks[u], u, tasks[t], t)
  }

  /** A moved task queues behind the active tasks its new column holds when its
      old column's turn comes, and behind those of its old column listed before it. */
  ghost predicate QueuedBehind(before: Data, after: map<Schema.Id, Task>, canonical: Schema.Id, duplicate: Schema.Id,
                               targets: map<Schema.Id, Schema.Id>)
  {
    forall t <- after :: t in before.tasks && before.tasks[t].board == duplicate && before.tasks[t].column.Some?
                         && before.tasks[t].column.value in OnBoard(before.columns, duplicate) ==>
      var c := before.tasks[t].column.value;
      c in targets
      && after[t].position == |Held(before.tasks, canonical, duplicate, targets, EarlierColumns(before.columns, duplicate, c), targets[c])|
                              + |AheadInColumn(before.tasks, t)|
  }

  /** The tasks a column held before, numbered from zero, all stay before every
      task that is moved into it. */
  lemma ResidentsStayFirst(before: Data, after: map<Schema.Id, Task>, canonical: Schema.Id, duplicate: Schema.Id,
                           targets: map<Schema.Id, Schema.Id>, r: Schema.Id, t: Schema.Id)
    requires QueuedBehind(before, after, canonical, duplicate, targets) && t in after && t in before.tasks && r in before.tasks
    requires before.tasks[t].board == duplicate && before.tasks[t].column.Some? && before.tasks[t].column.value in OnBoard(before.columns, duplicate)
    requires before.tasks[t].column.value in targets
    requires r in Held(before.tasks, canonical, duplicate, targets, {}, targets[before.tasks[t].column.value])
    requires before.tasks[r].position < |Held(before.tasks, canonical, duplicate, targets, {}, targets[before.tasks[t].column.value])|
    ensures before.tasks[r].position < after[t].position
  {
    var c := before.tasks[t].column.value;
    var residents := Held(before.tasks, canonical, duplicate, targets, {}, targets[c]);
    var held := Held(before.tasks, canonical, duplicate, targets, EarlierColumns(before.columns, duplicate, c), targets[c]);
    assert residents <= held;
    assert held == residents + (held - residents);
  }

  ghost predicate TasksMerged(before: Data, after: Data, canonical: Schema.Id, duplicate: Schema.Id, targets: map<Schema.Id, Schema.Id>) {
    && after.tasks.Keys == before.tasks.Keys && canonical in before.boards
    && (forall t <- before.tasks :: before.tasks[t].board != duplicate ==> after.tasks[t] == before.tasks[t])
    && (forall t <- before.tasks :: before.tasks[t].board == duplicate ==>
          TaskMerged(before.tasks[t], after.tasks[t], canonical, before.boards[canonical].workspace, targets))
    && (forall t, u :: t in before.tasks && u in before.tasks && TogetherOn(before, duplicate, t, u)
                       && ListedBefore(before.tasks[t], t, before.tasks[u], u)
          ==> after.tasks[t].position < after.tasks[u].position)
    && QueuedBehind(before, after.tasks, canonical, duplicate, targets)
  }

  /** Two tasks of one column of a board. */
  predicate TogetherOn(data: Data, board: Schema.Id, t: Schema.Id, u: Schema.Id)
    requires t in data.tasks && u in data.tasks
  {
    && data.tasks[t].board == board && data.tasks[u].board == board
    && data.tasks[t].column.Some? && data.tasks[t].column == data.tasks[u].column
  }

  function RuleMerged(r: StoredRule, canonical: Schema.Id, names: map<string, string>): StoredRule {
    StoredRule(canonical, Rewrite(r.conditions, names), Rewrite(r.actions, names))
  }

  ghost predicate RulesMerged(before: Data, after: Data, canonical: Schema.Id, duplicate: Schema.Id, targets: map<Schema.Id, Schema.Id>) {
    && after.rules.Keys == before.rules.Keys
    && forall r <- before.rules :: after.rules[r]
         == if before.rules[r].board == duplicate then RuleMerged(before.rules[r], canonical, Names(targets)) else before.rules[r]
  }

  ghost predicate Merged(before: Data, after: Data, canonical: Schema.Id, duplicate: Schema.Id, targets: map<Schema.Id, Schema.Id>) {
    && canonical in before.boards && canonical != duplicate && duplicate in before.boards
    && after.boards == before.boards - {duplicate} && before.nextId <= after.nextId
    && TablesOk(after) && ColumnsMerged(before, after, canonical, duplicate, targets)
    && TasksMerged(before, after, canonical, duplicate, targets)
    && RulesMerged(before, after, canonical, duplicate, targets)
  }

  // ---------- Several merges ----------

  /** Where each board's contents end up. */
  type Homes = map<Schema.Id, Schema.Id>

  ghost predicate HomesOk(data: Data, homes: Homes) {
    && homes.Keys == data.boards.Keys
    && forall b <- homes :: HomeOk(data, homes, b)
  }

  /** A board's home stays where it is, and has the same owner if it is another board. */
  ghost predicate HomeOk(data: Data, homes: Homes, b: Schema.Id)
    requires homes.Keys == data.boards.Keys && b in homes
  {
    && homes[b] in homes && homes[homes[b]] == homes[b]
    && (homes[b] != b ==>
          && data.boards[b].PersonalBoard? && data.boards[homes[b]].PersonalBoard?
          && data.boards[b].owner == data.boards[homes[b]].owner)
  }

  predicate Stays(homes: Homes, b: Schema.Id) {
    b in homes && homes[b] == b
  }

  /** The targets of one board's columns. */
  function TargetsOf(data: Data, board: Schema.Id, targets: map<Schema.Id, Schema.Id>): map<Schema.Id, Schema.Id> {
    map c | c in targets && c in OnBoard(data.columns, board) :: targets[c]
  }

  ghost predicate ColumnKept(before: Data, now: Data, homes: Homes, c: Schema.Id)
    requires c in now.columns
  {
    && Stays(homes, now.columns[c].board)
    && ((c in before.columns && now.columns[c] == before.columns[c])
        || (before.nextId <= c && Receives(homes, now.columns[c].board)))
  }

  /** Columns that stay are untouched; new ones are on boards something moved to. */
  ghost predicate ColumnsKept(before: Data, now: Data, homes: Homes) {
    && (forall c <- before.columns :: Stays(homes, before.columns[c].board) ==>
          c in now.columns && now.columns[c] == before.columns[c])
    && (forall c <- now.columns :: ColumnKept(before, now, homes, c))
  }

  ghost predicate Receives(homes: Homes, board: Schema.Id) {
    exists d :: d in homes && homes[d] == board && d != board
  }

  /** The column a task of column `c` is in afterwards. */
  ghost predicate Targeted(before: Data, now: Data, homes: Homes, targets: map<Schema.Id, Schema.Id>, c: Schema.Id)
    requires c in before.columns && before.columns[c].board in homes
  {
    && c in targets && targets[c] in now.columns
    && now.columns[targets[c]].board == homes[before.columns[c].board]
    && Alike(before.columns[c], now.columns[targets[c]])
  }

  ghost predicate ColumnsSettled(before: Data, now: Data, homes: Homes, targets: map<Schema.Id, Schema.Id>) {
    && ColumnsKept(before, now, homes) && targets.Keys <= before.columns.Keys
    && (forall c <- before.columns :: before.columns[c].board in homes && !Stays(homes, before.columns[c].board) ==>
          Targeted(before, now, homes, targets, c))
  }

  ghost predicate TaskSettled(before: Data, homes: Homes, targets: map<Schema.Id, Schema.Id>, t: Task, u: Task) {
    if Stays(homes, t.board) then u == t
    else t.board in homes && homes[t.board] in before.boards
         && TaskMerged(t, u, homes[t.board], before.boards[homes[t.board]].workspace, TargetsOf(before, t.board, targets))
  }

  ghost predicate TasksSettled(before: Data, now: Data, homes: Homes, targets: map<Schema.Id, Schema.Id>) {
    && now.tasks.Keys == before.tasks.Keys
    && (forall t <- before.tasks :: before.tasks[t].board in homes ==>
          TaskSettled(before, homes, targets, before.tasks[t], now.tasks[t]))
    && (forall t, u :: t in before.tasks && u in before.tasks && before.tasks[t].board in homes
                       && TogetherOn(before, before.tasks[t].board, t, u)
                       && ListedBefore(before.tasks[t], t, before.tasks[u], u)
          ==> ListedBefore(now.tasks[t], t, now.tasks[u], u))
  }

  ghost predicate RulesSettled(before: Data, now: Data, homes: Homes, targets: map<Schema.Id, Schema.Id>) {
    && now.rules.Keys == before.rules.Keys
    && forall r <- before.rules :: before.rules[r].board in homes ==>
         now.rules[r] == if Stays(homes, before.rules[r].board) then before.rules[r]
                         else RuleMerged(before.rules[r], homes[before.rules[r].board], Names(TargetsOf(before, before.rules[r].board, targets)))
  }

  /** The state once every board has moved to its home. */
  ghost predicate Settled(before: Data, now: Data, homes: Homes, targets: map<Schema.Id, Schema.Id>) {
    && HomesOk(before, homes) && TablesOk(before) && TablesOk(now) && before.nextId <= now.nextId
    && (forall b <- before.boards :: b in now.boards <==> Stays(homes, b))
    && (forall b <- now.boards :: b in before.boards && now.boards[b] == before.boards[b])
    && ColumnsSettled(before, now, homes, targets) && TasksSettled(before, now, homes, targets)
    && RulesSettled(before, now, homes, targets)
  }

  function Identity(boards: map<Schema.Id, Board>): Homes {
    map b | b in boards :: b
  }

  lemma NothingMerged(data: Data)
    requires TablesOk(data)
    ensures Settled(data, data, Identity(data.boards), map[])
  {
  }

  ghost predicate MayMerge(before: Data, homes: Homes, canonical: Schema.Id, duplicate: Schema.Id) {
    && Stays(homes, canonical) && Stays(homes, duplicate) && canonical != duplicate
    && canonical in before.boards && duplicate in before.boards
    && before.boards[canonical].PersonalBoard? && before.boards[duplicate].PersonalBoard?
    && before.boards[canonical].owner == before.boards[duplicate].owner
    && (forall b <- homes :: homes[b] == duplicate ==> b == duplicate)
  }

  lemma HomeStep(before: Data, homes: Homes, k: Schema.Id, d: Schema.Id, b: Schema.Id)
    requires HomesOk(before, homes) && MayMerge(before, homes, k, d) && b in homes
    ensures HomeOk(before, homes[d := k], b)
  {
    assert HomeOk(before, homes, b);
  }

  lemma HomesStep(before: Data, homes: Homes, k: Schema.Id, d: Schema.Id)
    requires HomesOk(before, homes) && MayMerge(before, homes, k, d)
    ensures HomesOk(before, homes[d := k])
    ensures forall b :: Stays(homes[d := k], b) <==> Stays(homes, b) && b != d
  {
    forall b <- homes ensures HomeOk(before, homes[d := k], b) {
      HomeStep(before, homes, k, d, b);
    }
    assert homes[d := k].Keys == homes.Keys;
    hide HomeOk;
  }

  lemma ColumnsOfDuplicate(before: Data, mid: Data, homes: Homes, targets: map<Schema.Id, Schema.Id>, k: Schema.Id, d: Schema.Id)
    requires ColumnsSettled(before, mid, homes, targets) && MayMerge(before, homes, k, d)
    ensures OnBoard(mid.columns, d) == OnBoard(before.columns, d)
    ensures forall c <- OnBoard(before.columns, d) :: mid.columns[c] == before.columns[c]
  {
  }

  lemma ReceivesStep(before: Data, homes: Homes, k: Schema.Id, d: Schema.Id)
    requires MayMerge(before, homes, k, d)
    ensures Receives(homes[d := k], k)
    ensures forall b :: Receives(homes, b) ==> Receives(homes[d := k], b)
  {
    assert d in homes[d := k] && homes[d := k][d] == k;
    forall b | Receives(homes, b) ensures Receives(homes[d := k], b) {
      var x :| x in homes && homes[x] == b && x != b;
      assert x in homes[d := k] && homes[d := k][x] == b;
    }
  }

  lemma NewColumnStep(before: Data, mid: Data, after: Data, homes: Homes, k: Schema.Id, d: Schema.Id,
                      more: map<Schema.Id, Schema.Id>, c: Schema.Id)
    requires ColumnsKept(before, mid, homes) && ColumnsMerged(mid, after, k, d, more) && c in after.columns
    requires before.nextId <= mid.nextId && Stays(homes, k) && k != d
    ensures Stays(homes, after.columns[c].board) && after.columns[c].board != d
    ensures (c in before.columns && after.columns[c] == before.columns[c])
            || (before.nextId <= c && (after.columns[c].board == k || Receives(homes, after.columns[c].board)))
  {
    hide Receives, Alike;
    if c in mid.columns && mid.columns[c].board != d {
      assert after.columns[c] == mid.columns[c];
    }
  }

  lemma ColumnKeptStep(before: Data, mid: Data, after: Data, homes: Homes, k: Schema.Id, d: Schema.Id,
                       more: map<Schema.Id, Schema.Id>, c: Schema.Id)
    requires ColumnsKept(before, mid, homes) && MayMerge(before, homes, k, d) && ColumnsMerged(mid, after, k, d, more)
    requires before.nextId <= mid.nextId && HomesOk(before, homes) && c in after.columns
    ensures ColumnKept(before, after, homes[d := k], c)
  {
    ReceivesStep(before, homes, k, d);
    NewColumnStep(before, mid, after, homes, k, d, more, c);
    hide HomesOk, Receives, ColumnsMerged, ColumnsKept;
  }

  lemma KeptStep(before: Data, mid: Data, after: Data, homes: Homes, k: Schema.Id, d: Schema.Id, more: map<Schema.Id, Schema.Id>)
    requires ColumnsKept(before, mid, homes) && MayMerge(before, homes, k, d) && ColumnsMerged(mid, after, k, d, more)
    requires before.nextId <= mid.nextId && HomesOk(before, homes)
    ensures ColumnsKept(before, after, homes[d := k])
  {
    hide HomesOk, ColumnsMerged, ColumnKept, Stays;
    HomesStep(before, homes, k, d);
    forall c <- before.columns | Stays(homes[d := k], before.columns[c].board)
      ensures c in after.columns && after.columns[c] == before.columns[c]
    {
      OldColumnStep(before, mid, after, homes, k, d, more, c);
    }
    forall c <- after.columns
      ensures ColumnKept(before, after, homes[d := k], c)
    {
      ColumnKeptStep(before, mid, after, homes, k, d, more, c);
    }
  }

  lemma OldColumnStep(before: Data, mid: Data, after: Data, homes: Homes, k: Schema.Id, d: Schema.Id,
                      more: map<Schema.Id, Schema.Id>, c: Schema.Id)
    requires ColumnsKept(before, mid, homes) && ColumnsMerged(mid, after, k, d, more)
    requires c in before.columns && Stays(homes, before.columns[c].board) && before.columns[c].board != d
    ensures c in after.columns && after.columns[c] == before.columns[c]
  {
  }

  lemma TargetedStep(before: Data, mid: Data, after: Data, homes: Homes, targets: map<Schema.Id, Schema.Id>,
                     k: Schema.Id, d: Schema.Id, more: map<Schema.Id, Schema.Id>, c: Schema.Id)
    requires ColumnsSettled(before, mid, homes, targets) && MayMerge(before, homes, k, d) && ColumnsMerged(mid, after, k, d, more)
    requires c in before.columns && before.columns[c].board in homes && !Stays(homes[d := k], before.columns[c].board)
    ensures Targeted(before, after, homes[d := k], targets + more, c)
  {
    ColumnsOfDuplicate(before, mid, homes, targets, k, d);
    hide Alike, ColumnsKept;
    if before.columns[c].board == d {
      assert c in OnBoard(before.columns, d);
    } else {
      assert Targeted(before, mid, homes, targets, c);
    }
  }

  lemma ColumnsStep(before: Data, mid: Data, after: Data, homes: Homes, targets: map<Schema.Id, Schema.Id>,
                    k: Schema.Id, d: Schema.Id, more: map<Schema.Id, Schema.Id>)
    requires ColumnsSettled(before, mid, homes, targets) && MayMerge(before, homes, k, d) && ColumnsMerged(mid, after, k, d, more)
    requires before.nextId <= mid.nextId && HomesOk(before, homes)
    ensures ColumnsSettled(before, after, homes[d := k], targets + more)
  {
    KeptStep(before, mid, after, homes, k, d, more);
    ColumnsOfDuplicate(before, mid, homes, targets, k, d);
    hide ColumnsKept, Targeted;
    forall c <- before.columns | before.columns[c].board in homes[d := k] && !Stays(homes[d := k], before.columns[c].board)
      ensures Targeted(before, after, homes[d := k], targets + more, c)
    {
      TargetedStep(before, mid, after, homes, targets, k, d, more, c);
    }
  }

  // ---------- Tasks and rules of a further merge ----------

  /** Earlier merges have not touched the tasks of a board that stays so far. */
  lemma TasksOfDuplicate(before: Data, mid: Data, homes: Homes, targets: map<Schema.Id, Schema.Id>, k: Schema.Id, d: Schema.Id, t: Schema.Id)
    requires TasksSettled(before, mid, homes, targets) && MayMerge(before, homes, k, d)
    requires t in before.tasks && before.tasks[t].board in homes
    ensures t in mid.tasks && (mid.tasks[t].board == d <==> before.tasks[t].board == d)
    ensures before.tasks[t].board == d ==> mid.tasks[t] == before.tasks[t]
  {
    assert TaskSettled(before, homes, targets, before.tasks[t], mid.tasks[t]);
  }

  lemma TargetsOfStep(before: Data, targets: map<Schema.Id, Schema.Id>, d: Schema.Id, more: map<Schema.Id, Schema.Id>, b: Schema.Id)
    requires more.Keys == OnBoard(before.columns, d)
    ensures b != d ==> TargetsOf(before, b, targets + more) == TargetsOf(before, b, targets)
    ensures TargetsOf(before, d, targets + more) == more
  {
  }

  lemma TaskStep(before: Data, mid: Data, after: Data, homes: Homes, targets: map<Schema.Id, Schema.Id>,
                 k: Schema.Id, d: Schema.Id, more: map<Schema.Id, Schema.Id>, t: Schema.Id)
    requires HomesOk(before, homes) && TasksSettled(before, mid, homes, targets) && MayMerge(before, homes, k, d)
    requires TasksMerged(mid, after, k, d, more) && more.Keys == OnBoard(before.columns, d)
    requires k in mid.boards && mid.boards[k] == before.boards[k]
    requires t in before.tasks && before.tasks[t].board in homes
    ensures TaskSettled(before, homes[d := k], targets + more, before.tasks[t], after.tasks[t])
  {
    hide TaskMerged, TargetsOf, HomesOk, OnBoard, TaskSettled;
    var b := before.tasks[t].board;
    TasksOfDuplicate(before, mid, homes, targets, k, d, t);
    TargetsOfStep(before, targets, d, more, b);
    assert TaskSettled(before, homes, targets, before.tasks[t], mid.tasks[t]);
    hide TasksSettled;
    if b == d {
      DuplicateTaskSettled(before, homes, targets, k, d, more, before.tasks[t], after.tasks[t]);
    } else {
      OtherTaskSettled(before, homes, targets, k, d, more, before.tasks[t], after.tasks[t]);
    }
  }

  lemma DuplicateTaskSettled(before: Data, homes: Homes, targets: map<Schema.Id, Schema.Id>,
                             k: Schema.Id, d: Schema.Id, more: map<Schema.Id, Schema.Id>, t: Task, v: Task)
    requires MayMerge(before, homes, k, d) && TargetsOf(before, d, targets + more) == more
    requires t.board == d && TaskMerged(t, v, k, before.boards[k].workspace, more)
    ensures TaskSettled(before, homes[d := k], targets + more, t, v)
  {
    hide TaskMerged, TargetsOf;
  }

  lemma OtherTaskSettled(before: Data, homes: Homes, targets: map<Schema.Id, Schema.Id>,
                         k: Schema.Id, d: Schema.Id, more: map<Schema.Id, Schema.Id>, t: Task, v: Task)
    requires TargetsOf(before, t.board, targets + more) == TargetsOf(before, t.board, targets)
    requires t.board != d && TaskSettled(before, homes, targets, t, v)
    ensures TaskSettled(before, homes[d := k], targets + more, t, v)
  {
    hide TaskMerged, TargetsOf;
  }

  lemma OrderStep(before: Data, mid: Data, after: Data, homes: Homes, targets: map<Schema.Id, Schema.Id>,
                  k: Schema.Id, d: Schema.Id, more: map<Schema.Id, Schema.Id>, t: Schema.Id, u: Schema.Id)
    requires TasksSettled(before, mid, homes, targets) && MayMerge(before, homes, k, d) && TasksMerged(mid, after, k, d, more)
    requires t in before.tasks && u in before.tasks && before.tasks[t].board in homes
    requires TogetherOn(before, before.tasks[t].board, t, u) && ListedBefore(before.tasks[t], t, before.tasks[u], u)
    ensures ListedBefore(after.tasks[t], t, after.tasks[u], u)
  {
    TasksOfDuplicate(before, mid, homes, targets, k, d, t);
    TasksOfDuplicate(before, mid, homes, targets, k, d, u);
    hide TaskMerged, TaskSettled;
    assert ListedBefore(mid.tasks[t], t, mid.tasks[u], u);
    if before.tasks[t].board == d {
      assert TogetherOn(mid, d, t, u);
    }
  }

  lemma TasksStep(before: Data, mid: Data, after: Data, homes: Homes, targets: map<Schema.Id, Schema.Id>,
                  k: Schema.Id, d: Schema.Id, more: map<Schema.Id, Schema.Id>)
    requires HomesOk(before, homes) && TasksSettled(before, mid, homes, targets) && MayMerge(before, homes, k, d)
    requires TasksMerged(mid, after, k, d, more) && more.Keys == OnBoard(before.columns, d)
    requires k in mid.boards && mid.boards[k] == before.boards[k]
    ensures TasksSettled(before, after, homes[d := k], targets + more)
  {
    assert after.tasks.Keys == before.tasks.Keys;
    hide HomesOk, TasksSettled, TasksMerged, TaskSettled, TogetherOn, ListedBefore;
    forall t <- before.tasks | before.tasks[t].board in homes[d := k]
      ensures TaskSettled(before, homes[d := k], targets + more, before.tasks[t], after.tasks[t])
    {
      TaskStep(before, mid, after, homes, targets, k, d, more, t);
    }
    forall t, u | t in before.tasks && u in before.tasks && before.tasks[t].board in homes[d := k]
                  && TogetherOn(before, before.tasks[t].board, t, u) && ListedBefore(before.tasks[t], t, before.tasks[u], u)
      ensures ListedBefore(after.tasks[t], t, after.tasks[u], u)
    {
      OrderStep(before, mid, after, homes, targets, k, d, more, t, u);
    }
    TasksAllSettled(before, after, homes[d := k], targets + more);
  }

  lemma TasksAllSettled(before: Data, now: Data, homes: Homes, targets: map<Schema.Id, Schema.Id>)
    requires now.tasks.Keys == before.tasks.Keys
    requires forall t <- before.tasks :: before.tasks[t].board in homes ==>
               TaskSettled(before, homes, targets, before.tasks[t], now.tasks[t])
    requires forall t, u :: t in before.tasks && u in before.tasks && before.tasks[t].board in homes
                            && TogetherOn(before, before.tasks[t].board, t, u)
                            && ListedBefore(before.tasks[t], t, before.tasks[u], u)
               ==> ListedBefore(now.tasks[t], t, now.tasks[u], u)
    ensures TasksSettled(before, now, homes, targets)
  {
    hide TaskSettled, TogetherOn, ListedBefore;
  }

  lemma RulesStep(before: Data, mid: Data, after: Data, homes: Homes, targets: map<Schema.Id, Schema.Id>,
                  k: Schema.Id, d: Schema.Id, more: map<Schema.Id, Schema.Id>)
    requires HomesOk(before, homes) && RulesSettled(before, mid, homes, targets) && MayMerge(before, homes, k, d)
    requires RulesMerged(mid, after, k, d, more) && more.Keys == OnBoard(before.columns, d)
    ensures RulesSettled(before, after, homes[d := k], targets + more)
  {
    hide Rewrite, Names, OnBoard, TargetsOf, HomesOk;
    HomesStep(before, homes, k, d);
    forall r <- before.rules | before.rules[r].board in homes
      ensures var b := before.rules[r].board;
              after.rules[r] == if Stays(homes[d := k], b) then before.rules[r]
                                else RuleMerged(before.rules[r], homes[d := k][b], Names(TargetsOf(before, b, targets + more)))
    {
      TargetsOfStep(before, targets, d, more, before.rules[r].board);
    }
  }

  /** One more merge. */
  lemma SettledStep(before: Data, mid: Data, after: Data, homes: Homes, targets: map<Schema.Id, Schema.Id>,
                    k: Schema.Id, d: Schema.Id, more: map<Schema.Id, Schema.Id>)
    requires Settled(before, mid, homes, targets) && MayMerge(before, homes, k, d) && Merged(mid, after, k, d, more)
    ensures Settled(before, after, homes[d := k], targets + more)
  {
    hide HomesOk, TablesOk, ColumnsMerged, TasksMerged, RulesMerged, ColumnsSettled, TasksSettled, RulesSettled;
    HomesStep(before, homes, k, d);
    MoreColumns(before, mid, after, homes, targets, k, d, more);
    ColumnsStep(before, mid, after, homes, targets, k, d, more);
    TasksStep(before, mid, after, homes, targets, k, d, more);
    RulesStep(before, mid, after, homes, targets, k, d, more);
  }

  lemma MoreColumns(before: Data, mid: Data, after: Data, homes: Homes, targets: map<Schema.Id, Schema.Id>,
                    k: Schema.Id, d: Schema.Id, more: map<Schema.Id, Schema.Id>)
    requires ColumnsSettled(before, mid, homes, targets) && MayMerge(before, homes, k, d) && ColumnsMerged(mid, after, k, d, more)
    ensures more.Keys == OnBoard(before.columns, d)
  {
    ColumnsOfDuplicate(before, mid, homes, targets, k, d);
  }

  lemma MergedAtHome(before: Data, after: Data, k: Schema.Id, d: Schema.Id, targets: map<Schema.Id, Schema.Id>)
    requires Merged(before, after, k, d, targets) && ColumnsAtHome(before)
    ensures ColumnsAtHome(after)
  {
    hide TablesOk, RulesMerged, Alike;
    forall t <- after.tasks | after.tasks[t].column.Some?
      ensures after.tasks[t].column.value in after.columns
              && after.columns[after.tasks[t].column.value].board == after.tasks[t].board
    {
      if before.tasks[t].board == d {
        assert TaskMerged(before.tasks[t], after.tasks[t], k, before.boards[k].workspace, targets);
      }
    }
  }

  // ---------- The board that stays ----------

  function BoardsOf(boards: map<Schema.Id, Board>, owner: Schema.Id): set<Schema.Id> {
    set b | b in boards && boards[b].PersonalBoard? && boards[b].owner == owner
  }

  /** Those in a workspace of their owner. */
  function AtOwners(boards: map<Schema.Id, Board>, workspaceOwners: map<Schema.Id, Schema.Id>, owner: Schema.Id): set<Schema.Id> {
    set b | b in BoardsOf(boards, owner) && boards[b].workspace in workspaceOwners && workspaceOwners[boards[b].workspace] == owner
  }

  function Ages(ids: set<Schema.Id>): map<Schema.Id, nat> {
    map b | b in ids :: 0
  }

  /** The oldest board in a workspace of the owner, or else the oldest. */
  ghost function CanonicalBoard(boards: map<Schema.Id, Board>, workspaceOwners: map<Schema.Id, Schema.Id>, owner: Schema.Id): (k: Schema.Id)
    requires BoardsOf(boards, owner) != {}
    ensures k in BoardsOf(boards, owner)
  {
    var mine, own := BoardsOf(boards, owner), AtOwners(boards, workspaceOwners, owner);
    if own != {} then First(own, Ages(own)) else First(mine, Ages(mine))
  }

  /** Some boards have moved to one of them. */
  function Gathered(homes: Homes, moved: set<Schema.Id>, k: Schema.Id): Homes {
    map b | b in homes :: if b in moved then k else homes[b]
  }

  ghost predicate Untouched(data: Data, homes: Homes, owner: Schema.Id) {
    forall b <- BoardsOf(data.boards, owner) :: Stays(homes, b)
  }

  lemma MayMergeNext(start: Data, homes: Homes, owner: Schema.Id, k: Schema.Id, moved: set<Schema.Id>, d: Schema.Id)
    requires HomesOk(start, homes) && Untouched(start, homes, owner) && k in BoardsOf(start.boards, owner)
    requires moved <= BoardsOf(start.boards, owner) && d in BoardsOf(start.boards, owner) && d !in moved && d != k
    ensures MayMerge(start, Gathered(homes, moved, k), k, d)
    ensures Gathered(homes, moved + {d}, k) == Gathered(homes, moved, k)[d := k]
  {
    var now := Gathered(homes, moved, k);
    forall b <- now | now[b] == d
      ensures b == d
    {
      if b !in moved {
        assert homes[b] == d;
        assert b != d ==> b in BoardsOf(start.boards, owner);
      }
    }
  }

  // ---------- What the merged state promises ----------

  /** The canonical board of every owner, and every other board itself. */
  ghost predicate AllGathered(data: Data, workspaceOwners: map<Schema.Id, Schema.Id>, homes: Homes) {
    && homes.Keys == data.boards.Keys
    && forall b <- data.boards ::
         homes[b] == if data.boards[b].PersonalBoard? then
                       (BoardOf(data, b); CanonicalBoard(data.boards, workspaceOwners, data.boards[b].owner))
                     else b
  }

  lemma BoardOf(data: Data, b: Schema.Id)
    requires b in data.boards && data.boards[b].PersonalBoard?
    ensures BoardsOf(data.boards, data.boards[b].owner) != {}
  {
    assert b in BoardsOf(data.boards, data.boards[b].owner);
  }

  /** Each owner of personal boards is left with exactly one: the oldest in a
      workspace of the owner, or the oldest if there is none. */
  lemma OneBoardEach(before: Data, now: Data, homes: Homes, targets: map<Schema.Id, Schema.Id>,
                     workspaceOwners: map<Schema.Id, Schema.Id>, owner: Schema.Id)
    requires Settled(before, now, homes, targets) && AllGathered(before, workspaceOwners, homes)
    requires BoardsOf(before.boards, owner) != {}
    ensures var k := CanonicalBoard(before.boards, workspaceOwners, owner);
            BoardsOf(now.boards, owner) == {k} && BoardThatStays(before.boards, workspaceOwners, owner, k)
  {
    hide CanonicalBoard, ColumnsSettled, TasksSettled, RulesSettled, TablesOk, BoardThatStays;
    var k := CanonicalBoard(before.boards, workspaceOwners, owner);
    assert k in BoardsOf(before.boards, owner);
    assert Stays(homes, k);
    forall b | b in BoardsOf(now.boards, owner) ensures b == k {
      assert Stays(homes, b);
    }
    CanonicalIsOldest(before.boards, workspaceOwners, owner);
  }

  predicate HasBoard(boards: map<Schema.Id, Board>, owner: Schema.Id, b: Schema.Id) {
    b in boards && boards[b].PersonalBoard? && boards[b].owner == owner
  }

  predicate InOwnWorkspace(boards: map<Schema.Id, Board>, workspaceOwners: map<Schema.Id, Schema.Id>, owner: Schema.Id, b: Schema.Id) {
    HasBoard(boards, owner, b) && boards[b].workspace in workspaceOwners && workspaceOwners[boards[b].workspace] == owner
  }

  /** Told without the choice: ids are drawn in the order of creation. */
  ghost predicate BoardThatStays(boards: map<Schema.Id, Board>, workspaceOwners: map<Schema.Id, Schema.Id>, owner: Schema.Id, k: Schema.Id) {
    && HasBoard(boards, owner, k)
    && if InOwnWorkspace(boards, workspaceOwners, owner, k) then
         forall b <- boards :: InOwnWorkspace(boards, workspaceOwners, owner, b) ==> k <= b
       else forall b <- boards :: !InOwnWorkspace(boards, workspaceOwners, owner, b) && (HasBoard(boards, owner, b) ==> k <= b)
  }

  lemma CanonicalIsOldest(boards: map<Schema.Id, Board>, workspaceOwners: map<Schema.Id, Schema.Id>, owner: Schema.Id)
    requires BoardsOf(boards, owner) != {}
    ensures BoardThatStays(boards, workspaceOwners, owner, CanonicalBoard(boards, workspaceOwners, owner))
  {
    var mine, own := BoardsOf(boards, owner), AtOwners(boards, workspaceOwners, owner);
    forall b ensures b in mine <==> HasBoard(boards, owner, b) {
    }
    forall b ensures b in own <==> InOwnWorkspace(boards, workspaceOwners, owner, b) {
    }
    FirstIsLeast(mine);
    if own != {} {
      FirstIsLeast(own);
    }
    hide First, BoardsOf, AtOwners, Ages, HasBoard, InOwnWorkspace;
  }

  lemma FirstIsLeast(ids: set<Schema.Id>)
    requires ids != {}
    ensures First(ids, Ages(ids)) in ids && forall i <- ids :: First(ids, Ages(ids)) <= i
  {
    var m := First(ids, Ages(ids));
    assert IsFirst(m, ids, Ages(ids));
    forall i <- ids ensures m <= i {
      assert Ordering.AtMost(Ages(ids), m, i);
    }
  }

  /** No task is lost. It ends on the board its old board was merged into; its
      column, if it had one, is its old column or one on that board with the
      same system role or the same title. */
  lemma NoTaskIsLost(before: Data, now: Data, homes: Homes, targets: map<Schema.Id, Schema.Id>, t: Schema.Id)
    requires Settled(before, now, homes, targets) && ColumnsAtHome(before) && t in before.tasks
    requires before.tasks[t].board in before.boards
    ensures t in now.tasks && now.tasks.Keys == before.tasks.Keys
    ensures var t0, t1 := before.tasks[t], now.tasks[t];
            && t1.board == homes[t0.board] && t1.board in now.boards
            && t1.content == t0.content && t1.assignee == t0.assignee && t1.done == t0.done
            && (t1.column.None? <==> t0.column.None?)
            && (t1.column.Some? ==>
                  && t0.column.value in before.columns && t1.column.value in now.columns
                  && now.columns[t1.column.value].board == t1.board
                  && (t1.column == t0.column || Alike(before.columns[t0.column.value], now.columns[t1.column.value])))
  {
    hide RulesSettled, TablesOk, Alike;
    assert TaskSettled(before, homes, targets, before.tasks[t], now.tasks[t]);
    if before.tasks[t].column.Some? {
      var c := before.tasks[t].column.value;
      assert Stays(homes, before.columns[c].board) || Targeted(before, now, homes, targets, c);
    }
  }

  /** A rule of a merged board mentions none of the board's columns any more,
      but their counterparts. */
  lemma RulesFollow(before: Data, now: Data, homes: Homes, targets: map<Schema.Id, Schema.Id>, r: Schema.Id, c: Schema.Id)
    requires Settled(before, now, homes, targets) && r in before.rules && before.rules[r].board in before.boards
    requires !Stays(homes, before.rules[r].board) && c in OnBoard(before.columns, before.rules[r].board)
    ensures r in now.rules && now.rules[r].board == homes[before.rules[r].board]
    ensures !Mentions(now.rules[r].conditions, Decimal(c)) && !Mentions(now.rules[r].actions, Decimal(c))
    ensures c in targets && targets[c] in now.columns && now.columns[targets[c]].board == now.rules[r].board
    ensures Mentions(before.rules[r].conditions, Decimal(c)) ==> Mentions(now.rules[r].conditions, Decimal(targets[c]))
    ensures Mentions(before.rules[r].actions, Decimal(c)) ==> Mentions(now.rules[r].actions, Decimal(targets[c]))
  {
    hide TasksSettled, TablesOk, Alike, Names, Rewrite, Mentions, Decimal;
    var board := before.rules[r].board;
    var names := Names(TargetsOf(before, board, targets));
    NamesOfTargets(before, now, homes, targets, board, c);
    assert Targeted(before, now, homes, targets, c);
    NoneLeft(before.rules[r].conditions, names, Decimal(c));
    NoneLeft(before.rules[r].actions, names, Decimal(c));
    if Mentions(before.rules[r].conditions, Decimal(c)) {
      MentionFollows(before.rules[r].conditions, names, Decimal(c));
    }
    if Mentions(before.rules[r].actions, Decimal(c)) {
      MentionFollows(before.rules[r].actions, names, Decimal(c));
    }
  }

  // No replacement is itself the name of a column of the merged board.
  lemma NamesOfTargets(before: Data, now: Data, homes: Homes, targets: map<Schema.Id, Schema.Id>, board: Schema.Id, c: Schema.Id)
    requires Settled(before, now, homes, targets) && board in before.boards && !Stays(homes, board) && c in OnBoard(before.columns, board)
    ensures c in targets
    ensures var names := Names(TargetsOf(before, board, targets));
            && Decimal(c) in names && names[Decimal(c)] == Decimal(targets[c])
            && forall name <- names :: names[name] != Decimal(c)
  {
    hide TasksSettled, RulesSettled, Alike, Names, Decimal;
    var mine := TargetsOf(before, board, targets);
    var names := Names(mine);
    assert Targeted(before, now, homes, targets, c);
    NamesAre(mine);
    forall name <- names
      ensures names[name] != Decimal(c)
    {
      var d :| d in mine && Decimal(d) == name;
      assert Targeted(before, now, homes, targets, d);
      assert ColumnKept(before, now, homes, mine[d]);
      assert mine[d] != c;
      DecimalsDiffer(mine[d], c);
    }
  }

  lemma DecimalsDiffer(a: nat, b: nat)
    requires a != b
    ensures Decimal(a) != Decimal(b)
  {
    if Decimal(a) == Decimal(b) {
      DecimalInjective(a, b);
    }
  }
}
