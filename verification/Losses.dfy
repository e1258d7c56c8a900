/** What the whole migration of personal boards loses when a task's column is on
    another board than the task
    (apps/workspaces/migrations/0005_global_personal_board.py). */
module Losses {
  import opened Columns
  import opened Consolidation
  import opened Options
  import opened Ordering
  import opened Schema

  // ---------- One merge, whatever the tables ----------

  ghost predicate RowMoved(t: Task, u: Task, k: Schema.Id, d: Schema.Id, gone: set<Schema.Id>) {
    && u.parent == t.parent
    && if t.board == d then u.board == k
       else u.board == t.board && u.column == if t.column.Some? && t.column.value in gone then None else t.column
  }

  /** Where a merge of board d into k leaves columns and tasks. */
  ghost predicate Merging(before: Data, after: Data, k: Schema.Id, d: Schema.Id) {
    && before.nextId <= after.nextId && after.boards == before.boards - {d}
    && (forall c <- before.columns :: before.columns[c].board != d ==> c in after.columns && after.columns[c] == before.columns[c])
    && (forall c <- after.columns :: (c in before.columns && before.columns[c].board != d)
                                     || (before.nextId <= c && after.columns[c].board == k))
    && after.tasks.Keys == before.tasks.Keys - Lost(before, d)
    && (forall t <- after.tasks :: RowMoved(before.tasks[t], after.tasks[t], k, d, OnBoard(before.columns, d)))
  }

  // ---------- The tasks that go ----------

  predicate OnOneOf(data: Data, column: Option<Schema.Id>, boards: seq<Schema.Id>) {
    column.Some? && column.value in data.columns && data.columns[column.value].board in boards
  }

  /** The merge of board d finds the task in a column of neither that board nor
      one that was merged earlier, whose columns are gone by then. */
  predicate Elsewhere(data: Data, column: Option<Schema.Id>, earlier: seq<Schema.Id>, d: Schema.Id) {
    column.Some? && column.value !in OnBoard(data.columns, d) && !OnOneOf(data, column, earlier)
  }

  function Doomed(data: Data, earlier: seq<Schema.Id>, d: Schema.Id): set<Schema.Id> {
    set t | t in data.tasks && data.tasks[t].board == d && Elsewhere(data, data.tasks[t].column, earlier, d)
  }

  /** The tasks the boards take along that are merged in this order. */
  function AllDoomed(data: Data, merged: seq<Schema.Id>): set<Schema.Id> {
    if merged == [] then {}
    else
      var n := |merged| - 1;
      AllDoomed(data, merged[..n]) + Doomed(data, merged[..n], merged[n])
  }

  lemma {:induction false} DoomedIff(data: Data, merged: seq<Schema.Id>, t: Schema.Id)
    ensures t in AllDoomed(data, merged)
            <==> t in data.tasks && exists i :: 0 <= i < |merged| && data.tasks[t].board == merged[i]
                                                && Elsewhere(data, data.tasks[t].column, merged[..i], merged[i])
  {
    if merged != [] {
      var n := |merged| - 1;
      DoomedIff(data, merged[..n], t);
      hide Elsewhere;
      forall i | 0 <= i < n
        ensures merged[..n][..i] == merged[..i]
      {
      }
      if i :| 0 <= i < n && t in data.tasks && data.tasks[t].board == merged[i] && Elsewhere(data, data.tasks[t].column, merged[..i], merged[i]) {
        assert merged[..n][i] == merged[i];
      }
    }
  }

  /** Nothing goes when every task's column is on the task's board. */
  lemma {:induction false} NothingDoomedAtHome(data: Data, merged: seq<Schema.Id>)
    requires ColumnsAtHome(data)
    ensures AllDoomed(data, merged) == {}
  {
    if merged != [] {
      NothingDoomedAtHome(data, merged[..|merged| - 1]);
    }
  }

  // ---------- Losing in two steps is losing at once ----------

  lemma {:induction false} BelowLifts(rest: map<Schema.Id, Task>, tasks: map<Schema.Id, Task>, t: Schema.Id, some: set<Schema.Id>,
                                      roots: set<Schema.Id>, n: nat)
    requires rest.Keys <= tasks.Keys && forall x <- rest :: rest[x].parent == tasks[x].parent
    requires some <= roots && Below(rest, t, some, n)
    ensures Below(tasks, t, roots, n)
    decreases n
  {
    if n > 0 {
      BelowLifts(rest, tasks, rest[t].parent.value, some, roots, n - 1);
    }
  }

  lemma {:induction false} BelowSplits(tasks: map<Schema.Id, Task>, rest: map<Schema.Id, Task>, first: set<Schema.Id>,
                                       second: set<Schema.Id>, t: Schema.Id, n: nat)
    requires first <= tasks.Keys && second <= tasks.Keys && t in tasks
    requires rest.Keys == tasks.Keys - Descendants(tasks, first) && forall x <- rest :: rest[x].parent == tasks[x].parent
    requires Below(tasks, t, first + second, n)
    ensures t in Descendants(tasks, first) || t in Descendants(rest, second * rest.Keys)
    decreases n
  {
    DescendantsClosed(tasks, first);
    DescendantsClosed(rest, second * rest.Keys);
    if n > 0 {
      var p := tasks[t].parent.value;
      assert n == 1 ==> p in first + second;
      BelowSplits(tasks, rest, first, second, p, n - 1);
      assert t in Descendants(tasks, first) || t !in Children(tasks, Descendants(tasks, first));
      assert t in Descendants(rest, second * rest.Keys) || t !in Children(rest, Descendants(rest, second * rest.Keys));
    }
  }

  lemma LiftedIsLost(rest: map<Schema.Id, Task>, tasks: map<Schema.Id, Task>, some: set<Schema.Id>, roots: set<Schema.Id>, t: Schema.Id)
    requires rest.Keys <= tasks.Keys && forall x <- rest :: rest[x].parent == tasks[x].parent
    requires some <= roots && t in Descendants(rest, some)
    ensures t in Descendants(tasks, roots)
  {
    DescendantsBelow(rest, some, t);
    var n: nat :| Below(rest, t, some, n);
    BelowLifts(rest, tasks, t, some, roots, n);
    BelowIsDescendant(tasks, roots, t, n);
  }

  /** Taking one set of tasks with all below them, then another one, leaves what
      taking both at once leaves. */
  lemma LostTogether(tasks: map<Schema.Id, Task>, rest: map<Schema.Id, Task>, first: set<Schema.Id>, second: set<Schema.Id>)
    requires first <= tasks.Keys && second <= tasks.Keys
    requires rest.Keys == tasks.Keys - Descendants(tasks, first) && forall x <- rest :: rest[x].parent == tasks[x].parent
    ensures rest.Keys - Descendants(rest, second * rest.Keys) == tasks.Keys - Descendants(tasks, first + second)
  {
    hide Descendants;
    forall t <- tasks
      ensures t in Descendants(tasks, first + second) <==> t in Descendants(tasks, first) || t in Descendants(rest, second * rest.Keys)
    {
      if t in Descendants(tasks, first + second) {
        DescendantsBelow(tasks, first + second, t);
        var n: nat :| Below(tasks, t, first + second, n);
        BelowSplits(tasks, rest, first, second, t, n);
      }
      if t in Descendants(tasks, first) {
        LiftedIsLost(tasks, tasks, first, first + second, t);
      }
      if t in Descendants(rest, second * rest.Keys) {
        LiftedIsLost(rest, tasks, second * rest.Keys, first + second, t);
      }
    }
  }

  // ---------- Several merges ----------

  ghost predicate RowReached(start: Data, t: Task, u: Task, merged: seq<Schema.Id>, kept: set<Schema.Id>) {
    && u.parent == t.parent
    && if t.board in merged then u.board in kept
       else u.board == t.board && u.column == if OnOneOf(start, t.column, merged) then None else t.column
  }

  /** The state after the merges of the listed boards into some of the others. */
  ghost predicate Reached(start: Data, now: Data, merged: seq<Schema.Id>, kept: set<Schema.Id>) {
    && start.nextId <= now.nextId && now.boards == start.boards - Members(merged)
    && (forall c <- start.columns :: start.columns[c].board !in merged ==> c in now.columns && now.columns[c] == start.columns[c])
    && (forall c <- now.columns :: (c in start.columns && start.columns[c].board !in merged)
                                   || (start.nextId <= c && now.columns[c].board in kept))
    && now.tasks.Keys == start.tasks.Keys - Descendants(start.tasks, AllDoomed(start, merged))
    && (forall t <- now.tasks :: RowReached(start, start.tasks[t], now.tasks[t], merged, kept))
  }

  lemma NothingReached(start: Data, kept: set<Schema.Id>)
    ensures Reached(start, start, [], kept)
  {
    assert Children(start.tasks, {}) == {};
  }

  lemma DoomedAreTasks(data: Data, merged: seq<Schema.Id>)
    ensures AllDoomed(data, merged) <= data.tasks.Keys
  {
    forall t <- AllDoomed(data, merged) ensures t in data.tasks {
      DoomedIff(data, merged, t);
    }
  }

  /** Later columns have later ids, so a column of a board that is still to be
      merged is there from the start or not at all. */
  lemma SameColumns(start: Data, now: Data, merged: seq<Schema.Id>, kept: set<Schema.Id>, d: Schema.Id)
    requires Reached(start, now, merged, kept) && d !in merged && d !in kept
    ensures OnBoard(now.columns, d) == OnBoard(start.columns, d)
  {
    hide Descendants, AllDoomed, RowReached;
  }

  lemma StrandedAre(start: Data, now: Data, merged: seq<Schema.Id>, kept: set<Schema.Id>, d: Schema.Id)
    requires Reached(start, now, merged, kept) && d !in merged && d !in kept
    ensures Stranded(now, d) == Doomed(start, merged, d) * now.tasks.Keys
  {
    SameColumns(start, now, merged, kept, d);
    hide Descendants, AllDoomed, OnBoard, OnOneOf;
    forall t <- now.tasks
      ensures t in Stranded(now, d) <==> t in Doomed(start, merged, d)
    {
      assert RowReached(start, start.tasks[t], now.tasks[t], merged, kept);
    }
    hide Reached, Elsewhere;
  }

  lemma RowReachedStep(start: Data, t: Task, u: Task, v: Task, merged: seq<Schema.Id>, kept: set<Schema.Id>,
                       k: Schema.Id, d: Schema.Id, gone: set<Schema.Id>)
    requires RowReached(start, t, u, merged, kept) && RowMoved(u, v, k, d, gone) && k in kept && d !in merged && d !in kept
    requires gone == OnBoard(start.columns, d)
    ensures RowReached(start, t, v, merged + [d], kept)
  {
  }

  lemma ReachedStep(start: Data, mid: Data, after: Data, merged: seq<Schema.Id>, kept: set<Schema.Id>, k: Schema.Id, d: Schema.Id)
    requires Reached(start, mid, merged, kept) && Merging(mid, after, k, d) && k in kept && d !in merged && d !in kept
    ensures Reached(start, after, merged + [d], kept)
  {
    hide RowReached, RowMoved, Descendants, AllDoomed, Doomed, OnBoard, Stranded;
    SameColumns(start, mid, merged, kept, d);
    KeysStep(start, mid, merged, kept, d);
    forall t <- after.tasks
      ensures t in start.tasks && RowReached(start, start.tasks[t], after.tasks[t], merged + [d], kept)
    {
      RowReachedStep(start, start.tasks[t], mid.tasks[t], after.tasks[t], merged, kept, k, d, OnBoard(mid.columns, d));
    }
    assert Members(merged + [d]) == Members(merged) + {d};
  }

  lemma KeysStep(start: Data, mid: Data, merged: seq<Schema.Id>, kept: set<Schema.Id>, d: Schema.Id)
    requires Reached(start, mid, merged, kept) && d !in merged && d !in kept
    ensures mid.tasks.Keys - Lost(mid, d) == start.tasks.Keys - Descendants(start.tasks, AllDoomed(start, merged + [d]))
  {
    StrandedAre(start, mid, merged, kept, d);
    DoomedAreTasks(start, merged);
    LastDoomed(start, merged, d);
    hide Descendants, AllDoomed, Stranded, OnOneOf;
    LostTogether(start.tasks, mid.tasks, AllDoomed(start, merged), Doomed(start, merged, d));
  }

  lemma LastDoomed(data: Data, merged: seq<Schema.Id>, d: Schema.Id)
    ensures AllDoomed(data, merged + [d]) == AllDoomed(data, merged) + Doomed(data, merged, d)
  {
    assert (merged + [d])[..|merged|] == merged;
  }

  /** The migration loses nothing exactly if no task is found elsewhere. */
  lemma NothingLostIff(data: Data, merged: seq<Schema.Id>)
    ensures data.tasks.Keys - Descendants(data.tasks, AllDoomed(data, merged)) == data.tasks.Keys
            <==> AllDoomed(data, merged) == {}
  {
    DoomedAreTasks(data, merged);
    DescendantsClosed(data.tasks, AllDoomed(data, merged));
    if AllDoomed(data, merged) == {} {
      assert Children(data.tasks, {}) == {};
    } else {
      var t :| t in AllDoomed(data, merged);
      assert t in data.tasks && t in Descendants(data.tasks, AllDoomed(data, merged));
    }
  }
}
