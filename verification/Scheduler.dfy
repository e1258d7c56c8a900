/** The scheduler that turns due rules into task copies
    (apps/workspaces/tasks.py, run_due_recurrences). */
module Scheduler {
  import opened Calendar
  import opened Options
  import opened Recurrence

  type Id = nat

  /** The fields of a task that a copy takes over. */
  datatype Template = Template(
    workspace: Id, board: Id, column: Option<Id>, project: Option<Id>, owner: Id, assignee: Option<Id>,
    title: string, description: string, priority: string, dueTime: Option<nat>, tags: seq<string>,
    collaborators: set<Id>, position: nat)

  datatype Clone = Clone(copy: Template, startDate: Date, dueDate: Date)

  /** rules: the rule rows; templates: the task each rule belongs to;
      clones: the copies made for each rule so far, oldest first. */
  datatype State = State(rules: map<Id, Rule>, templates: map<Id, Template>, clones: map<Id, seq<Clone>>) {
    ghost predicate Valid() {
      && rules.Keys == templates.Keys == clones.Keys
      && forall r <- rules :: Storable(rules[r])
    }
  }

  predicate IsDue(rule: Rule, today: Date) {
    rule.isActive && rule.nextRunOn.Some? && AtMost(rule.nextRunOn.value, today)
  }

  function CloneOf(template: Template, on: Date): Clone {
    Clone(template.(position := template.position + 1), on, on)
  }

  /** The rule after one copy has been made for its due date. */
  function Advanced(rule: Rule): (next: Rule)
    requires Storable(rule) && rule.nextRunOn.Some?
    ensures Storable(next) && next.schedule == rule.schedule && next.start == rule.start
    ensures next.isActive == rule.isActive && next.nextRunOn.Some?
  {
    NextRunIsLeast(rule, NextDay(rule.nextRunOn.value));
    rule.(nextRunOn := Some(NextRun(rule, NextDay(rule.nextRunOn.value))), version := rule.version + 1)
  }

  function DueRules(s: State, today: Date): set<Id> {
    set r | r in s.rules && IsDue(s.rules[r], today)
  }

  /** The state after each of the given rules that has a due date has made one copy. */
  function Copied(s: State, due: set<Id>): (t: State)
    requires s.Valid()
    ensures t.Valid()
  {
    s.(rules := map r | r in s.rules ::
                  if r in due && s.rules[r].nextRunOn.Some? then Advanced(s.rules[r]) else s.rules[r],
       clones := map r | r in s.clones ::
                   if r in due && s.rules[r].nextRunOn.Some? then s.clones[r] + [CloneOf(s.templates[r], s.rules[r].nextRunOn.value)]
                   else s.clones[r])
  }

  /** One pass: every due rule whose row is not locked elsewhere makes one copy. */
  function Pass(s: State, today: Date, locked: set<Id>): (t: State)
    requires s.Valid()
    ensures t.Valid()
  {
    Copied(s, DueRules(s, today) - locked)
  }

  lemma CopiedNone(s: State)
    requires s.Valid()
    ensures Copied(s, {}) == s
  {
  }

  // Rules are independent: they may be worked off one at a time.
  lemma CopiedOneMore(s: State, done: set<Id>, r: Id)
    requires s.Valid() && r in s.rules && r !in done && s.rules[r].nextRunOn.Some?
    ensures var t := Copied(s, done);
            && r in t.rules && r in t.templates && r in t.clones
            && t.rules[r] == s.rules[r] && Storable(t.rules[r])
    ensures var t := Copied(s, done);
            Copied(s, done + {r})
            == t.(rules := t.rules[r := Advanced(t.rules[r])],
                  clones := t.clones[r := t.clones[r] + [CloneOf(t.templates[r], t.rules[r].nextRunOn.value)]])
  {
    hide Ordinal, NextRun, Advanced, CloneOf, Storable;
    var t, u := Copied(s, done), Copied(s, done + {r});
    assert u.rules == t.rules[r := Advanced(t.rules[r])];
    assert u.clones == t.clones[r := t.clones[r] + [CloneOf(t.templates[r], t.rules[r].nextRunOn.value)]];
  }

  /** save_recurrence_rule: the first run is computed from today. */
  function Saved(rule: Rule, today: Date): (r: Rule)
    requires Storable(rule) && Valid(today)
    ensures Storable(r)
  {
    NextRunIsLeast(rule, today);
    rule.(nextRunOn := Some(NextRun(rule, today)))
  }

  class RecurrenceScheduler {
    var rules: map<Id, Rule>
    var templates: map<Id, Template>
    var clones: map<Id, seq<Clone>>

    ghost function Model(): State
      reads this
    {
      State(rules, templates, clones)
    }

    // One locked rule: copy its template, then compute and store the next run.
    method CopyAndAdvance(ruleId: Id)
      requires ruleId in rules && ruleId in templates && ruleId in clones
      requires Storable(rules[ruleId]) && rules[ruleId].nextRunOn.Some?
      modifies this`rules, this`clones
      ensures Model() == old(Model()).(
        rules := old(rules)[ruleId := Advanced(old(rules)[ruleId])],
        clones := old(clones)[ruleId := old(clones)[ruleId]
                              + [CloneOf(templates[ruleId], old(rules)[ruleId].nextRunOn.value)]])
    {
      hide Ordinal, NextRun, MonthLength, NextDay, CloneOf, WantedDay;
      var rule := rules[ruleId];
      var on := rule.nextRunOn.value;
      var next := CalculateNextRun(rule, NextDay(on));
      clones := clones[ruleId := clones[ruleId] + [CloneOf(templates[ruleId], on)]];
      rules := rules[ruleId := rule.(nextRunOn := Some(next), version := rule.version + 1)];
    }

    // Lock and re-check one listed rule; `served` are the rules done before it.
    method ServeRule(ruleId: Id, today: Date, locked: set<Id>, ghost before: State, ghost served: set<Id>)
      returns (made: bool)
      requires before.Valid() && Model() == Copied(before, served)
      requires ruleId in before.rules && IsDue(before.rules[ruleId], today) && ruleId !in served
      modifies this`rules, this`clones
      ensures made <==> ruleId !in locked
      ensures Model() == Copied(before, if made then served + {ruleId} else served)
    {
      CopiedOneMore(before, served, ruleId);
      hide Copied, Advanced, CloneOf, Storable, AtMost;
      made := ruleId !in locked && IsDue(rules[ruleId], today);
      if made {
        CopyAndAdvance(ruleId);
      }
    }

    /** run_due_recurrences: list the due rules, then lock, re-check, copy and
        advance them one by one. Rows in `locked` are skipped. */
    method RunDueRecurrences(today: Date, locked: set<Id>) returns (processed: nat)
      requires Model().Valid()
      modifies this
      ensures Model() == Pass(old(Model()), today, locked)
      ensures processed == |DueRules(old(Model()), today) - locked|
    {
      CopiedNone(Model());
      hide Copied, State.Valid, Served;
      ghost var before := Model();
      ghost var due := DueRules(before, today);
      var ruleIds := set r | r in rules && IsDue(rules[r], today);
      processed := 0;
      ServedAtEnds(due, locked);
      while ruleIds != {}
        invariant before.Valid() && ruleIds <= due
        invariant Model() == Copied(before, Served(due, ruleIds, locked))
        invariant processed == |Served(due, ruleIds, locked)|
        decreases ruleIds
      {
        var ruleId :| ruleId in ruleIds;
        ServedOneMore(due, ruleIds, locked, ruleId);
        var made := ServeRule(ruleId, today, locked, before, Served(due, ruleIds, locked));
        ruleIds := ruleIds - {ruleId};
        processed := if made then processed + 1 else processed;
      }
    }
  }

  // The rules served while `rest` are still to come.
  ghost function Served(due: set<Id>, rest: set<Id>, locked: set<Id>): set<Id> {
    (due - rest) - locked
  }

  lemma ServedAtEnds(due: set<Id>, locked: set<Id>)
    ensures Served(due, due, locked) == {} && Served(due, {}, locked) == due - locked
  {
    assert due - {} == due;
  }

  lemma ServedOneMore(due: set<Id>, rest: set<Id>, locked: set<Id>, r: Id)
    requires r in rest && rest <= due
    ensures r !in Served(due, rest, locked)
    ensures Served(due, rest - {r}, locked)
         == if r in locked then Served(due, rest, locked) else Served(due, rest, locked) + {r}
    ensures |Served(due, rest - {r}, locked)| == |Served(due, rest, locked)| + if r in locked then 0 else 1
  {
    assert Served(due, rest - {r}, locked)
        == if r in locked then Served(due, rest, locked) else Served(due, rest, locked) + {r};
  }

  // ---------- Any sequence of passes ----------

  /** One scheduler pass: its date and the rows it finds locked. */
  datatype Tick = Tick(today: Date, locked: set<Id>)

  function Run(s: State, ticks: seq<Tick>): (t: State)
    requires s.Valid()
    ensures t.Valid()
  {
    if ticks == [] then s
    else Pass(Run(s, ticks[..|ticks| - 1]), ticks[|ticks| - 1].today, ticks[|ticks| - 1].locked)
  }

  ghost predicate SameRule(a: Rule, b: Rule) {
    a.schedule == b.schedule && a.start == b.start && a.isActive == b.isActive
  }

  /** `made` is exactly the list of occurrences d with from <= d < upTo, each
      once and in ascending order. */
  ghost predicate Enumerates(rule: Rule, made: seq<Clone>, from: Date, upTo: Date)
    requires Storable(rule)
  {
    && (forall i :: 0 <= i < |made| ==> made[i].dueDate == made[i].startDate)
    && (forall i, j :: 0 <= i < j < |made| ==> Before(made[i].startDate, made[j].startDate))
    && (forall i :: 0 <= i < |made| ==> Occurs(rule, made[i].startDate)
                                        && AtMost(from, made[i].startDate) && Before(made[i].startDate, upTo))
    && (forall d :: Occurs(rule, d) && AtMost(from, d) && Before(d, upTo) ==>
          exists i :: 0 <= i < |made| && made[i].startDate == d)
  }

  // The next occurrence follows directly on the current one.
  lemma AdvanceSkipsNothing(rule: Rule)
    requires Storable(rule) && HasDays(rule) && rule.nextRunOn.Some? && Occurs(rule, rule.nextRunOn.value)
    ensures Occurs(rule, Advanced(rule).nextRunOn.value)
    ensures Before(rule.nextRunOn.value, Advanced(rule).nextRunOn.value)
    ensures forall d :: Occurs(rule, d) && Before(d, Advanced(rule).nextRunOn.value) ==> AtMost(d, rule.nextRunOn.value)
  {
    hide Ordinal;
    var now, next := rule.nextRunOn.value, Advanced(rule).nextRunOn.value;
    NextRunIsLeast(rule, NextDay(now));
    assert AtMost(rule.start, NextDay(now));
    assert IsLeastFrom(rule, NextDay(now), next);
    forall d | Occurs(rule, d) && Before(d, next)
      ensures AtMost(d, now)
    {
      if !AtMost(d, now) {
        DayAfter(now, d);
      }
    }
  }

  lemma DayAfter(a: Date, b: Date)
    requires Valid(a) && Valid(b) && Before(a, b)
    ensures AtMost(NextDay(a), b)
  {
  }

  lemma EnumeratesExtend(rule: Rule, made: seq<Clone>, from: Date, template: Template)
    requires Storable(rule) && HasDays(rule) && rule.nextRunOn.Some? && Occurs(rule, rule.nextRunOn.value)
    requires AtMost(from, rule.nextRunOn.value) && Enumerates(rule, made, from, rule.nextRunOn.value)
    ensures Enumerates(rule, made + [CloneOf(template, rule.nextRunOn.value)], from, Advanced(rule).nextRunOn.value)
  {
    hide Ordinal, Occurs;
    AdvanceSkipsNothing(rule);
    var more := made + [CloneOf(template, rule.nextRunOn.value)];
    forall d | Occurs(rule, d) && AtMost(from, d) && Before(d, Advanced(rule).nextRunOn.value)
      ensures exists i :: 0 <= i < |more| && more[i].startDate == d
    {
      if d == rule.nextRunOn.value {
        assert more[|made|].startDate == d;
      } else {
        assert Before(d, rule.nextRunOn.value);
        var i :| 0 <= i < |made| && made[i].startDate == d;
        assert more[i].startDate == d;
      }
    }
  }

  /** State t continues state s for rule r: the rule is the same apart from its
      `next_run_on`, and the copies added are the occurrences in between. */
  ghost predicate Continues(s: State, t: State, r: Id)
    requires s.Valid() && t.Valid() && r in s.rules && s.rules[r].nextRunOn.Some?
  {
    && r in t.rules && t.rules[r].nextRunOn.Some? && SameRule(s.rules[r], t.rules[r])
    && AtMost(s.rules[r].nextRunOn.value, t.rules[r].nextRunOn.value)
    && Occurs(s.rules[r], t.rules[r].nextRunOn.value)
    && s.clones[r] <= t.clones[r]
    && Enumerates(s.rules[r], t.clones[r][|s.clones[r]|..], s.rules[r].nextRunOn.value, t.rules[r].nextRunOn.value)
  }

  // What a pass does, seen from one rule.
  lemma PassOnRule(t: State, today: Date, locked: set<Id>, r: Id)
    requires t.Valid() && r in t.rules
    ensures r in Pass(t, today, locked).rules
    ensures if r !in locked && IsDue(t.rules[r], today)
            then Pass(t, today, locked).rules[r] == Advanced(t.rules[r])
                 && Pass(t, today, locked).clones[r]
                    == t.clones[r] + [CloneOf(t.templates[r], t.rules[r].nextRunOn.value)]
            else Pass(t, today, locked).rules[r] == t.rules[r] && Pass(t, today, locked).clones[r] == t.clones[r]
  {
  }

  lemma PassContinues(s: State, t: State, today: Date, locked: set<Id>, r: Id)
    requires s.Valid() && t.Valid() && r in s.rules && HasDays(s.rules[r])
    requires s.rules[r].nextRunOn.Some? && Continues(s, t, r)
    ensures Continues(s, Pass(t, today, locked), r)
  {
    hide Ordinal, Occurs, Enumerates, AtMost, Calendar.Valid;
    PassOnRule(t, today, locked, r);
    hide Pass;
    if r !in locked && IsDue(t.rules[r], today) {
      var rule, now, from, made := s.rules[r], t.rules[r], s.rules[r].nextRunOn.value, t.clones[r][|s.clones[r]|..];
      var after := Pass(t, today, locked);
      assert after.clones[r][|s.clones[r]|..] == made + [CloneOf(t.templates[r], now.nextRunOn.value)];
      DueRuleContinues(rule, now, from, made, t.templates[r]);
    }
  }

  lemma DueRuleContinues(rule: Rule, now: Rule, from: Date, made: seq<Clone>, template: Template)
    requires Storable(rule) && Storable(now) && HasDays(rule) && SameRule(rule, now)
    requires now.nextRunOn.Some? && AtMost(from, now.nextRunOn.value) && Occurs(rule, now.nextRunOn.value)
    requires Enumerates(rule, made, from, now.nextRunOn.value)
    ensures AtMost(from, Advanced(now).nextRunOn.value) && Occurs(rule, Advanced(now).nextRunOn.value)
    ensures Enumerates(rule, made + [CloneOf(template, now.nextRunOn.value)], from, Advanced(now).nextRunOn.value)
  {
    hide Ordinal, Enumerates;
    SameOccurrences(rule, now);
    EnumeratesSame(rule, now, made, from, now.nextRunOn.value);
    EnumeratesExtend(now, made, from, template);
    AdvanceSkipsNothing(now);
    EnumeratesSame(now, rule, made + [CloneOf(template, now.nextRunOn.value)], from, Advanced(now).nextRunOn.value);
  }

  /** Main result: over any sequence of passes -- any dates, any rows locked --
      the copies made for a rule are exactly its occurrences from its first
      `next_run_on` up to its current one, in order, none skipped, none twice. */
  lemma {:induction false} RunsEnumerateOccurrences(s: State, ticks: seq<Tick>, r: Id)
    requires s.Valid() && r in s.rules && HasDays(s.rules[r])
    requires s.rules[r].nextRunOn.Some? && Occurs(s.rules[r], s.rules[r].nextRunOn.value)
    ensures Continues(s, Run(s, ticks), r)
  {
    if ticks != [] {
      hide Ordinal, Occurs, Pass, Continues;
      var n := |ticks| - 1;
      RunsEnumerateOccurrences(s, ticks[..n], r);
      PassContinues(s, Run(s, ticks[..n]), ticks[n].today, ticks[n].locked, r);
    }
  }

  lemma SameOccurrences(a: Rule, b: Rule)
    requires Storable(a) && Storable(b) && SameRule(a, b)
    ensures forall d :: Occurs(a, d) <==> Occurs(b, d)
  {
  }

  lemma EnumeratesSame(a: Rule, b: Rule, made: seq<Clone>, from: Date, upTo: Date)
    requires Storable(a) && Storable(b) && SameRule(a, b) && Enumerates(a, made, from, upTo)
    ensures Enumerates(b, made, from, upTo)
  {
    SameOccurrences(a, b);
    hide Occurs;
  }

  /** From the save of a rule on, the scheduler enumerates the occurrences from
      max(today, start). */
  lemma SavedRuleStartsAtFirstOccurrence(rule: Rule, today: Date)
    requires Storable(rule) && HasDays(rule) && Valid(today)
    ensures IsLeastFrom(rule, Later(today, rule.start), Saved(rule, today).nextRunOn.value)
  {
    NextRunIsLeast(rule, today);
  }

  /** A pass makes at most one copy per rule, and exactly one when the rule is
      due and its row is free. */
  lemma PassMakesAtMostOne(s: State, today: Date, locked: set<Id>, r: Id)
    requires s.Valid() && r in s.rules
    ensures var made := |Pass(s, today, locked).clones[r]| - |s.clones[r]|;
            0 <= made <= 1 && (made == 1 <==> r !in locked && IsDue(s.rules[r], today))
  {
  }

  /** A rule makes a copy when it is active and its date is not in the future. The
      copy starts and ends on that date, one position behind its task, and takes
      over everything else; the rule goes on to its next date after it. */
  lemma PassCopies(s: State, today: Date, locked: set<Id>, r: Id)
    requires s.Valid() && r in s.rules && Calendar.Valid(today)
    ensures var t := Pass(s, today, locked);
            var on := s.rules[r].nextRunOn;
            if r !in locked && s.rules[r].isActive && on.Some? && Ordinal(on.value) <= Ordinal(today) then
              && |t.clones[r]| == |s.clones[r]| + 1 && t.clones[r][..|s.clones[r]|] == s.clones[r]
              && CopyOf(s.templates[r], t.clones[r][|s.clones[r]|], on.value)
              && t.rules[r].nextRunOn == Some(NextRun(s.rules[r], NextDay(on.value))) && t.rules[r].version == s.rules[r].version + 1
              && t.rules[r].schedule == s.rules[r].schedule && t.rules[r].isActive
            else t.clones[r] == s.clones[r] && t.rules[r] == s.rules[r]
    ensures Pass(s, today, locked).templates == s.templates
  {
    hide Ordinal, NextRun, AtMost, Weekday, MonthLength;
    if s.rules[r].nextRunOn.Some? {
      OrderIsOrdinal(s.rules[r].nextRunOn.value, today);
    }
  }

  predicate CopyOf(template: Template, made: Clone, on: Date) {
    && made.startDate == on && made.dueDate == on && made.copy.position == template.position + 1
    && made.copy.title == template.title && made.copy.description == template.description && made.copy.priority == template.priority
    && made.copy.workspace == template.workspace && made.copy.board == template.board && made.copy.column == template.column
    && made.copy.project == template.project && made.copy.owner == template.owner && made.copy.assignee == template.assignee
    && made.copy.dueTime == template.dueTime && made.copy.tags == template.tags && made.copy.collaborators == template.collaborators
  }

  function Repeat(tick: Tick, n: nat): (ticks: seq<Tick>)
    ensures |ticks| == n
  {
    if n == 0 then [] else Repeat(tick, n - 1) + [tick]
  }

  /** The rule's next run lies in the future, or at least `days` days on. */
  ghost predicate MovedOn(rule: Rule, today: Date, from: Date, days: nat)
    requires Calendar.Valid(from)
  {
    && rule.nextRunOn.Some? && Calendar.Valid(rule.nextRunOn.value)
    && (Before(today, rule.nextRunOn.value) || Ordinal(rule.nextRunOn.value) >= Ordinal(from) + days)
  }

  /** On a fixed day, one undisturbed pass per remaining day brings
      `next_run_on` past today. */
  lemma {:induction false} PassesCatchUp(s: State, today: Date, n: nat, r: Id)
    requires s.Valid() && r in s.rules && HasDays(s.rules[r]) && s.rules[r].isActive && Calendar.Valid(today)
    requires s.rules[r].nextRunOn.Some? && Occurs(s.rules[r], s.rules[r].nextRunOn.value)
    requires n > Ordinal(today) - Ordinal(s.rules[r].nextRunOn.value)
    ensures var after := Run(s, Repeat(Tick(today, {}), n)).rules;
            r in after && after[r].nextRunOn.Some? && Before(today, after[r].nextRunOn.value)
  {
    hide Occurs, Run;
    EachPassAdvances(s, today, n, r);
    var after := Run(s, Repeat(Tick(today, {}), n)).rules[r];
    CaughtUp(after, today, s.rules[r].nextRunOn.value, n);
  }

  lemma CaughtUp(rule: Rule, today: Date, from: Date, n: nat)
    requires Calendar.Valid(from) && Calendar.Valid(today) && MovedOn(rule, today, from, n)
    requires n > Ordinal(today) - Ordinal(from)
    ensures Before(today, rule.nextRunOn.value)
  {
    hide Ordinal;
    OrderIsOrdinal(today, rule.nextRunOn.value);
    OrderIsOrdinal(rule.nextRunOn.value, today);
  }

  lemma ContinuesOn(s: State, t: State, r: Id)
    requires s.Valid() && t.Valid() && r in s.rules && s.rules[r].nextRunOn.Some? && Continues(s, t, r)
    requires HasDays(s.rules[r]) && s.rules[r].isActive
    ensures r in t.rules && HasDays(t.rules[r]) && t.rules[r].isActive && t.rules[r].nextRunOn.Some?
    ensures Occurs(t.rules[r], t.rules[r].nextRunOn.value)
  {
    hide Ordinal, Enumerates, AtMost, MonthLength, Weekday;
  }

  lemma {:induction false} EachPassAdvances(s: State, today: Date, n: nat, r: Id)
    requires s.Valid() && r in s.rules && HasDays(s.rules[r]) && s.rules[r].isActive && Calendar.Valid(today)
    requires s.rules[r].nextRunOn.Some? && Occurs(s.rules[r], s.rules[r].nextRunOn.value)
    ensures r in Run(s, Repeat(Tick(today, {}), n)).rules
    ensures MovedOn(Run(s, Repeat(Tick(today, {}), n)).rules[r], today, s.rules[r].nextRunOn.value, n)
  {
    hide Ordinal, Pass, Enumerates, AtMost, MonthLength, Weekday;
    if n > 0 {
      hide MovedOn, Occurs, HasDays, Continues;
      var ticks := Repeat(Tick(today, {}), n);
      assert ticks[..n - 1] == Repeat(Tick(today, {}), n - 1);
      var before := Run(s, ticks[..n - 1]);
      RunsEnumerateOccurrences(s, ticks[..n - 1], r);
      ContinuesOn(s, before, r);
      EachPassAdvances(s, today, n - 1, r);
      OnePassAdvances(before, today, s.rules[r].nextRunOn.value, n - 1, r);
    }
  }

  lemma OnePassAdvances(s: State, today: Date, from: Date, days: nat, r: Id)
    requires s.Valid() && r in s.rules && HasDays(s.rules[r]) && s.rules[r].isActive && Calendar.Valid(today)
    requires s.rules[r].nextRunOn.Some? && Occurs(s.rules[r], s.rules[r].nextRunOn.value)
    requires Calendar.Valid(from) && MovedOn(s.rules[r], today, from, days)
    ensures r in Pass(s, today, {}).rules && MovedOn(Pass(s, today, {}).rules[r], today, from, days + 1)
  {
    hide Ordinal, Pass;
    PassOnRule(s, today, {}, r);
    var rule := s.rules[r];
    if AtMost(rule.nextRunOn.value, today) {
      AdvanceSkipsNothing(rule);
      OrderIsOrdinal(rule.nextRunOn.value, Advanced(rule).nextRunOn.value);
      OrderIsOrdinal(Advanced(rule).nextRunOn.value, rule.nextRunOn.value);
    }
  }
}
