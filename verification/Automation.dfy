/** What automation rules do to a task, from the rules' own terms
    (apps/workspaces/services.py, _matches_automation and execute_automation_rules). */
module Automation {
  import opened Columns
  import opened Consistency
  import opened Destinations
  import opened Mirroring
  import opened Options
  import opened Placement
  import opened Schema
  import opened Tasks

  /** The move the rules ask for: the first usable action of the first rule that
      fires, or none if no rule fires. */
  ghost predicate RuledTo(db: Db, t: Task, trigger: Trigger, today: int, target: Option<Schema.Id>) {
    match target
    case None => forall i :: 0 <= i < |db.rules| ==> !Fires(db, t, trigger, today, db.rules[i])
    case Some(c) => exists i: nat, k: nat :: FirstFiring(db, t, trigger, today, db.rules, i) && MovesTo(db, t, db.rules[i].actions, k, c)
  }

  ghost predicate MovesTo(db: Db, t: Task, actions: seq<Action>, k: nat, c: Schema.Id) {
    k < 5 && FirstMove(db, t, actions, k) && actions[k].target == c
  }

  lemma MovesToOnce(db: Db, t: Task, actions: seq<Action>, k: nat, c: Schema.Id, k': nat, c': Schema.Id)
    requires MovesTo(db, t, actions, k, c) && MovesTo(db, t, actions, k', c')
    ensures c == c'
  {
  }

  lemma RuledToIs(db: Db, t: Task, trigger: Trigger, today: int)
    ensures RuledTo(db, t, trigger, today, RuleTarget(db, t, trigger, db.rules, today))
  {
    hide RuleTarget, Fires, Moves;
    RuleTargetIsFirst(db, t, trigger, db.rules, today);
    var target := RuleTarget(db, t, trigger, db.rules, today);
    if target.Some? {
      var i: nat :| FirstFiring(db, t, trigger, today, db.rules, i) && ActionTarget(db, t, db.rules[i].actions, 5) == target;
      ActionMoves(db, t, db.rules[i].actions, target.value);
      hide MovesTo;
      var k: nat :| MovesTo(db, t, db.rules[i].actions, k, target.value);
    }
  }

  lemma ActionMoves(db: Db, t: Task, actions: seq<Action>, c: Schema.Id)
    requires ActionTarget(db, t, actions, 5) == Some(c)
    ensures exists k: nat :: MovesTo(db, t, actions, k, c)
  {
    hide ActionTarget;
    ActionTargetIsFirst(db, t, actions, 5);
    var k: nat :| k < 5 && FirstMove(db, t, actions, k) && actions[k].target == c;
    assert MovesTo(db, t, actions, k, c);
  }

  lemma RuledToOnce(db: Db, t: Task, trigger: Trigger, today: int, a: Option<Schema.Id>, b: Option<Schema.Id>)
    requires RuledTo(db, t, trigger, today, a) && RuledTo(db, t, trigger, today, b)
    ensures a == b
  {
    hide Fires, MovesTo;
    if a.Some? && b.Some? {
      var i: nat, k: nat :| FirstFiring(db, t, trigger, today, db.rules, i) && MovesTo(db, t, db.rules[i].actions, k, a.value);
      var i': nat, k': nat :| FirstFiring(db, t, trigger, today, db.rules, i') && MovesTo(db, t, db.rules[i'].actions, k', b.value);
      assert i == i';
      MovesToOnce(db, t, db.rules[i].actions, k, a.value, k', b.value);
    }
  }

  /** Running the rules: a pooled task may not be moved; any other goes where the
      rules ask, to the end of that column, and is unchanged otherwise. */
  lemma RulesDo(db: Db, id: Schema.Id, trigger: Trigger, today: int, target: Option<Schema.Id>)
    requires id in db.tasks && RuledTo(db, db.tasks[id], trigger, today, target)
    ensures target.None? ==> Automate(db, id, trigger, today) == Ok(db)
    ensures target.Some? && db.tasks[id].pool ==> Automate(db, id, trigger, today) == Err(ConstraintViolated)
    ensures target.Some? && !db.tasks[id].pool ==>
              && Automate(db, id, trigger, today).Ok?
              && var after := Automate(db, id, trigger, today).value;
                 && id in after.tasks && LastInColumn(after, id)
                 && after.tasks[id] == db.tasks[id].(column := target, position := after.tasks[id].position, version := db.tasks[id].version + 1)
                 && after == db.(tasks := db.tasks[id := after.tasks[id]])
  {
    hide RuleTarget, RuledTo, NextInColumn, LastInColumn;
    RuledToIs(db, db.tasks[id], trigger, today);
    RuledToOnce(db, db.tasks[id], trigger, today, target, RuleTarget(db, db.tasks[id], trigger, db.rules, today));
    if target.Some? {
      NextIsAboveAll(db.tasks, target);
      AppendedIsLast(db, id, Automated(db.tasks[id], target.value, NextInColumn(db.tasks, target)), target.value);
    }
  }

  lemma MovesThere(db: Db, t: Task, actions: seq<Action>, k: nat)
    requires k < 5 && FirstMove(db, t, actions, k)
    ensures MovesTo(db, t, actions, k, actions[k].target)
  {
  }

  /** No rule moves a task that its conditions exclude, or that belongs to another
      board or event. */
  lemma ExcludedStays(db: Db, id: Schema.Id, trigger: Trigger, today: int)
    requires id in db.tasks
    requires forall r <- db.rules :: r.board != db.tasks[id].board || r.trigger != trigger || !r.active
                                     || Excludes(r.conditions, db.tasks[id], today)
    ensures Automate(db, id, trigger, today) == Ok(db)
  {
    hide Excludes;
    forall i | 0 <= i < |db.rules| ensures !Fires(db, db.tasks[id], trigger, today, db.rules[i]) {
      assert db.rules[i] in db.rules;
    }
    RulesDo(db, id, trigger, today, None);
  }

  /** A single rule for the event that excludes nothing moves the task to the
      first of its first five targets that is another column of the board. */
  lemma OnlyRuleMoves(db: Db, id: Schema.Id, rule: Rule, trigger: Trigger, today: int, k: nat)
    requires id in db.tasks && !db.tasks[id].pool && db.rules == [rule]
    requires rule.board == db.tasks[id].board && rule.trigger == trigger && rule.active && !Excludes(rule.conditions, db.tasks[id], today)
    requires k < 5 && FirstMove(db, db.tasks[id], rule.actions, k)
    ensures k < |rule.actions| && rule.actions[k].MoveTaskTree?
    ensures Automate(db, id, trigger, today).Ok? && id in Automate(db, id, trigger, today).value.tasks
    ensures Automate(db, id, trigger, today).value.tasks[id].column == Some(rule.actions[k].target)
    ensures LastInColumn(Automate(db, id, trigger, today).value, id)
  {
    hide Excludes, LastInColumn, MovesTo;
    assert MovesTo(db, db.tasks[id], rule.actions, k, rule.actions[k].target) by { MovesThere(db, db.tasks[id], rule.actions, k); }
    assert Fires(db, db.tasks[id], trigger, today, db.rules[0]);
    assert FirstFiring(db, db.tasks[id], trigger, today, db.rules, 0);
    hide Fires, FirstFiring;
    RulesDo(db, id, trigger, today, Some(rule.actions[k].target));
  }
}
