/** Recurrence rules: when the next run falls due (apps/workspaces/services.py,
    calculate_next_run). */
module Recurrence {
  import opened Calendar
  import opened DivMod
  import opened Options

  datatype Schedule =
    | IntervalDays(interval: nat)
    | WeeklyDays(weekdays: seq<string>)
    | MonthlyDay(dayOfMonth: Option<nat>)

  datatype Rule = Rule(schedule: Schedule, start: Date, nextRunOn: Option<Date>, isActive: bool, version: nat)

  /** The database's check constraints on a rule. */
  predicate Storable(rule: Rule) {
    && Valid(rule.start)
    && (rule.nextRunOn.Some? ==> Valid(rule.nextRunOn.value))
    && match rule.schedule
       case IntervalDays(n) => 1 <= n <= 365
       case WeeklyDays(_) => true
       case MonthlyDay(day) => day.Some? ==> 1 <= day.value <= 31
  }

  const WEEKDAY_MAP: map<string, nat> :=
    map["MO" := 0, "TU" := 1, "WE" := 2, "TH" := 3, "FR" := 4, "SA" := 5, "SU" := 6]

  /** Unknown abbreviations are dropped. */
  function Allowed(weekdays: seq<string>): set<nat> {
    set w | w in weekdays && w in WEEKDAY_MAP :: WEEKDAY_MAP[w]
  }

  function DayInMonth(day: nat, year: nat, month: nat): nat
    requires 1 <= month <= 12
  {
    if day < MonthLength(year, month) then day else MonthLength(year, month)
  }

  function WantedDay(dayOfMonth: Option<nat>): nat {
    if dayOfMonth.Some? && dayOfMonth.value != 0 then dayOfMonth.value else 1
  }

  /** What the rule means, independently of how its next run is computed. */
  predicate Occurs(rule: Rule, d: Date)
    requires Storable(rule)
  {
    && Valid(d) && AtMost(rule.start, d)
    && match rule.schedule
       case IntervalDays(n) => (Ordinal(d) - Ordinal(rule.start)) % n == 0
       case WeeklyDays(weekdays) => Weekday(d) in Allowed(weekdays)
       case MonthlyDay(day) => d.day == DayInMonth(WantedDay(day), d.year, d.month)
  }

  /** A weekly rule without a single known weekday never occurs. */
  predicate HasDays(rule: Rule) {
    rule.schedule.WeeklyDays? ==> Allowed(rule.schedule.weekdays) != {}
  }

  ghost predicate IsLeastFrom(rule: Rule, cursor: Date, d: Date)
    requires Storable(rule)
  {
    && Occurs(rule, d) && AtMost(cursor, d)
    && forall e :: Occurs(rule, e) && AtMost(cursor, e) ==> AtMost(d, e)
  }

  // ---------- calculate_next_run as a function of its inputs ----------

  function NextInterval(start: Date, n: nat, cursor: Date): (d: Date)
    requires Valid(start) && Valid(cursor) && AtMost(start, cursor) && n >= 1
  {
    if AtMost(cursor, start) then start
    else
      var remainder := (Ordinal(cursor) - Ordinal(start)) % n;
      if remainder == 0 then cursor else AddDays(cursor, n - remainder)
  }

  predicate FallsOn(allowed: set<nat>, cursor: Date, offset: nat)
    requires Valid(cursor)
  {
    Weekday(AddDays(cursor, offset)) in allowed
  }

  // The first hit among the 14 days from the cursor, or 14.
  function FirstHit(allowed: set<nat>, cursor: Date, offset: nat): (o: nat)
    requires Valid(cursor) && offset <= 14
    ensures offset <= o <= 14
    ensures forall p :: offset <= p < o ==> !FallsOn(allowed, cursor, p)
    ensures o < 14 ==> FallsOn(allowed, cursor, o)
    decreases 14 - offset
  {
    if offset == 14 || FallsOn(allowed, cursor, offset) then offset
    else FirstHit(allowed, cursor, offset + 1)
  }

  function NextWeekly(allowed: set<nat>, cursor: Date): (d: Date)
    requires Valid(cursor)
    ensures Valid(d)
  {
    var o := FirstHit(allowed, cursor, 0);
    AddDays(cursor, if o < 14 then o else 7)
  }

  function NextMonthly(day: nat, cursor: Date): (d: Date)
    requires Valid(cursor) && day >= 1
    ensures Valid(d)
  {
    var candidate := Date(cursor.year, cursor.month, DayInMonth(day, cursor.year, cursor.month));
    if Before(candidate, cursor) then
      var month := if cursor.month == 12 then 1 else cursor.month + 1;
      var year := if cursor.month == 12 then cursor.year + 1 else cursor.year;
      Date(year, month, DayInMonth(day, year, month))
    else candidate
  }

  function NextRun(rule: Rule, from: Date): Date
    requires Storable(rule) && Valid(from)
  {
    var cursor := Later(from, rule.start);
    OrderIsOrdinal(from, rule.start);
    match rule.schedule
    case IntervalDays(n) => NextInterval(rule.start, n, cursor)
    case WeeklyDays(weekdays) => NextWeekly(Allowed(weekdays), cursor)
    case MonthlyDay(day) => Later(NextMonthly(WantedDay(day), cursor), rule.start)
  }

  /** The loop over the coming two weeks. */
  method FindWeekday(start: Date, allowed: set<nat>, cursor: Date) returns (next: Date)
    requires Valid(start) && Valid(cursor) && AtMost(start, cursor)
    ensures next == NextWeekly(allowed, cursor)
  {
    for offset := 0 to 14
      invariant FirstHit(allowed, cursor, 0) == FirstHit(allowed, cursor, offset)
    {
      var candidate := AddDays(cursor, offset);
      AddDaysOrdinal(cursor, offset);
      if AtMost(start, candidate) && Weekday(candidate) in allowed {
        return candidate;
      }
    }
    return AddDays(cursor, 7);
  }

  /** calculate_next_run */
  method CalculateNextRun(rule: Rule, from: Date) returns (next: Date)
    requires Storable(rule) && Valid(from)
    ensures next == NextRun(rule, from)
  {
    var cursor := Later(from, rule.start);
    OrderIsOrdinal(from, rule.start);
    match rule.schedule {
      case IntervalDays(n) =>
        if AtMost(cursor, rule.start) {
          return rule.start;
        }
        var elapsed := Ordinal(cursor) - Ordinal(rule.start);
        var remainder := elapsed % n;
        return if remainder == 0 then cursor else AddDays(cursor, n - remainder);
      case WeeklyDays(weekdays) =>
        next := FindWeekday(rule.start, Allowed(weekdays), cursor);
      case MonthlyDay(dayOfMonth) =>
        var day := WantedDay(dayOfMonth);
        var year, month := cursor.year, cursor.month;
        var candidate := Date(year, month, DayInMonth(day, year, month));
        if Before(candidate, cursor) {
          month := if month == 12 then 1 else month + 1;
          year := if cursor.month == 12 then year + 1 else year;
          candidate := Date(year, month, DayInMonth(day, year, month));
        }
        return Later(candidate, rule.start);
    }
  }

  // ---------- The result is the least occurrence ----------

  // How far past the start the next run lies.
  lemma IntervalOffset(start: Date, n: nat, cursor: Date)
    requires Valid(start) && Valid(cursor) && AtMost(start, cursor) && n >= 1
    ensures Valid(NextInterval(start, n, cursor))
    ensures var k, d := Ordinal(cursor) - Ordinal(start), Ordinal(NextInterval(start, n, cursor)) - Ordinal(start);
            k >= 0 && d == if k % n == 0 then k else k + (n - k % n)
  {
    hide Ordinal, AddDays;
    OrderIsOrdinal(start, cursor);
    OrderIsOrdinal(cursor, start);
    var k := Ordinal(cursor) - Ordinal(start);
    if k == 0 {
      DivModOf(0, n, 0, 0);
    } else if k % n != 0 {
      AddDaysOrdinal(cursor, n - k % n);
    }
  }

  lemma LeastInterval(rule: Rule, cursor: Date)
    requires Storable(rule) && rule.schedule.IntervalDays? && Valid(cursor) && AtMost(rule.start, cursor)
    ensures IsLeastFrom(rule, cursor, NextInterval(rule.start, rule.schedule.interval, cursor))
  {
    hide Ordinal;
    var n, s := rule.schedule.interval, Ordinal(rule.start);
    var d := NextInterval(rule.start, n, cursor);
    IntervalOffset(rule.start, n, cursor);
    var k := Ordinal(cursor) - s;
    if k % n != 0 {
      RoundUp(k, n);
    }
    OrderIsOrdinal(rule.start, d);
    OrderIsOrdinal(cursor, d);
    forall e | Occurs(rule, e) && AtMost(cursor, e)
      ensures AtMost(d, e)
    {
      NoEarlierInterval(rule, cursor, e);
    }
  }

  lemma NoEarlierInterval(rule: Rule, cursor: Date, e: Date)
    requires Storable(rule) && rule.schedule.IntervalDays? && Valid(cursor) && AtMost(rule.start, cursor)
    requires Occurs(rule, e) && AtMost(cursor, e)
    ensures AtMost(NextInterval(rule.start, rule.schedule.interval, cursor), e)
  {
    hide Ordinal;
    var n, s := rule.schedule.interval, Ordinal(rule.start);
    IntervalOffset(rule.start, n, cursor);
    OrderIsOrdinal(cursor, e);
    OrderIsOrdinal(NextInterval(rule.start, n, cursor), e);
    var k := Ordinal(cursor) - s;
    if k % n != 0 {
      NoMultipleBetween(k, n, Ordinal(e) - s);
    }
  }

  // Any weekday comes round within seven days.
  lemma WeekdayWithinWeek(cursor: Date, w: nat) returns (offset: nat)
    requires Valid(cursor) && w < 7
    ensures offset < 7 && Weekday(AddDays(cursor, offset)) == w
  {
    hide Ordinal;
    offset := (w - Weekday(cursor) + 7) % 7;
    AddDaysOrdinal(cursor, offset);
  }

  lemma AllowedAreWeekdays(weekdays: seq<string>)
    ensures forall w :: w in Allowed(weekdays) ==> w < 7
  {
  }

  lemma SomeHit(rule: Rule, cursor: Date)
    requires rule.schedule.WeeklyDays? && HasDays(rule) && Valid(cursor)
    ensures FirstHit(Allowed(rule.schedule.weekdays), cursor, 0) < 14
  {
    var allowed := Allowed(rule.schedule.weekdays);
    AllowedAreWeekdays(rule.schedule.weekdays);
    var w :| w in allowed;
    var offset := WeekdayWithinWeek(cursor, w);
    assert FallsOn(allowed, cursor, offset);
  }

  lemma LeastWeekly(rule: Rule, cursor: Date)
    requires Storable(rule) && rule.schedule.WeeklyDays? && HasDays(rule)
    requires Valid(cursor) && AtMost(rule.start, cursor)
    ensures IsLeastFrom(rule, cursor, NextWeekly(Allowed(rule.schedule.weekdays), cursor))
  {
    var allowed := Allowed(rule.schedule.weekdays);
    SomeHit(rule, cursor);
    var o := FirstHit(allowed, cursor, 0);
    AddDaysOrdinal(cursor, o);
    assert FallsOn(allowed, cursor, o);
    forall e | Occurs(rule, e) && AtMost(cursor, e)
      ensures AtMost(AddDays(cursor, o), e)
    {
      NoEarlierWeekday(allowed, cursor, o, e);
    }
  }

  lemma NoEarlierWeekday(allowed: set<nat>, cursor: Date, o: nat, e: Date)
    requires Valid(cursor) && Valid(e) && AtMost(cursor, e) && Weekday(e) in allowed
    requires forall p :: 0 <= p < o ==> !FallsOn(allowed, cursor, p)
    ensures AtMost(AddDays(cursor, o), e)
  {
    OrderIsOrdinal(cursor, e);
    var p := Ordinal(e) - Ordinal(cursor);
    AddDaysOrdinal(cursor, p);
    OrderIsOrdinal(e, AddDays(cursor, p));
    assert FallsOn(allowed, cursor, p);
    AddDaysOrdinal(cursor, o);
    OrderIsOrdinal(AddDays(cursor, o), e);
  }

  lemma LeastMonthly(rule: Rule, cursor: Date)
    requires Storable(rule) && rule.schedule.MonthlyDay? && Valid(cursor) && AtMost(rule.start, cursor)
    ensures var d := NextMonthly(WantedDay(rule.schedule.dayOfMonth), cursor);
            AtMost(cursor, d) && IsLeastFrom(rule, cursor, d)
  {
  }

  /** Main result on one rule: the computed date is the least occurrence that is
      not before max(from, start) -- exactly when the rule has any day at all. */
  lemma NextRunIsLeast(rule: Rule, from: Date)
    requires Storable(rule) && Valid(from)
    ensures Valid(NextRun(rule, from)) && AtMost(Later(from, rule.start), NextRun(rule, from))
    ensures IsLeastFrom(rule, Later(from, rule.start), NextRun(rule, from)) <==> HasDays(rule)
  {
    var cursor := Later(from, rule.start);
    OrderIsOrdinal(from, rule.start);
    OrderIsOrdinal(rule.start, from);
    match rule.schedule {
      case IntervalDays(_) => LeastInterval(rule, cursor);
      case WeeklyDays(weekdays) =>
        if HasDays(rule) {
          LeastWeekly(rule, cursor);
        } else {
          AddDaysOrdinal(cursor, 7);
        }
      case MonthlyDay(_) => LeastMonthly(rule, cursor);
    }
  }

  /** There is only one least occurrence, so the statement above pins the result. */
  lemma LeastIsUnique(rule: Rule, cursor: Date, d: Date, e: Date)
    requires Storable(rule) && IsLeastFrom(rule, cursor, d) && IsLeastFrom(rule, cursor, e)
    ensures d == e
  {
    OrderIsOrdinal(d, e);
    OrderIsOrdinal(e, d);
  }

  // ---------- What an occurrence is, in terms of the calendar ----------

  /** A monthly rule falls on the wanted day, or on the last day of a month that
      does not have it. */
  lemma MonthlyOccurs(rule: Rule, d: Date)
    requires Storable(rule) && rule.schedule.MonthlyDay? && Valid(d) && AtMost(rule.start, d)
    ensures var wanted := if rule.schedule.dayOfMonth.Some? then rule.schedule.dayOfMonth.value else 1;
            Occurs(rule, d) <==> d.day == wanted || (d.day < wanted && !Valid(Date(d.year, d.month, d.day + 1)))
  {
  }

  /** Days of the week follow one another, and the first day of 2024 was a Monday. */
  lemma WeekdaysFollow(d: Date)
    requires Valid(d)
    ensures Weekday(NextDay(d)) == if Weekday(d) == 6 then 0 else Weekday(d) + 1
    ensures Weekday(Date(2024, 1, 1)) == 0
  {
    FirstOfYear2024();
    hide Ordinal;
    NextDayOrdinal(d);
    NextOfSeven(Ordinal(d) + 6);
  }

  lemma FirstOfYear2024()
    ensures Weekday(Date(2024, 1, 1)) == 0
  {
    assert Ordinal(Date(2024, 1, 1)) == 738886;
    hide Ordinal;
  }

  lemma NextOfSeven(x: int)
    ensures (x + 1) % 7 == if x % 7 == 6 then 0 else x % 7 + 1
  {
  }

  /** A weekly rule falls on the days it names, counted from Monday. */
  lemma WeeklyOccurs(rule: Rule, d: Date)
    requires Storable(rule) && rule.schedule.WeeklyDays? && Valid(d) && AtMost(rule.start, d)
    ensures Occurs(rule, d) <==> ["MO", "TU", "WE", "TH", "FR", "SA", "SU"][Weekday(d)] in rule.schedule.weekdays
  {
    var names, w := ["MO", "TU", "WE", "TH", "FR", "SA", "SU"], Weekday(d);
    assert WEEKDAY_MAP[names[w]] == w;
    hide Weekday;
    if Occurs(rule, d) {
      var name :| name in rule.schedule.weekdays && name in WEEKDAY_MAP && WEEKDAY_MAP[name] == w;
      assert name == names[w];
    }
  }

  /** An interval rule falls on its start and whole intervals after it. */
  lemma IntervalOccurs(rule: Rule, d: Date)
    requires Storable(rule) && rule.schedule.IntervalDays? && Valid(d) && AtMost(rule.start, d)
    ensures Occurs(rule, d) <==> exists k: nat :: d == AfterIntervals(rule.start, rule.schedule.interval, k)
  {
    hide Ordinal, AddDays, AfterIntervals;
    var n := rule.schedule.interval;
    OrderIsOrdinal(rule.start, d);
    var passed := Ordinal(d) - Ordinal(rule.start);
    if passed % n == 0 {
      var k := Quotient(passed, n);
      AfterIntervalsOrdinal(rule.start, n, k);
      OrderIsOrdinal(d, AfterIntervals(rule.start, n, k));
    }
    if k: nat :| d == AfterIntervals(rule.start, n, k) {
      AfterIntervalsOrdinal(rule.start, n, k);
      NoRemainder(k, n);
    }
  }

  lemma Quotient(x: nat, n: nat) returns (k: nat)
    requires n >= 1 && x % n == 0
    ensures x == k * n
  {
    k := x / n;
  }

  lemma NoRemainder(k: nat, n: nat)
    requires n >= 1
    ensures (k * n) % n == 0
  {
    assert k * n == n * k + 0;
    DivModOf(k * n, n, k, 0);
  }

  function AfterIntervals(start: Date, n: nat, k: nat): (d: Date)
    requires Valid(start)
    ensures Valid(d)
  {
    if k == 0 then start else AddDays(AfterIntervals(start, n, k - 1), n)
  }

  lemma {:induction false} AfterIntervalsOrdinal(start: Date, n: nat, k: nat)
    requires Valid(start)
    ensures Ordinal(AfterIntervals(start, n, k)) == Ordinal(start) + k * n
  {
    hide Ordinal, AddDays;
    if k > 0 {
      AfterIntervalsOrdinal(start, n, k - 1);
      AddDaysOrdinal(AfterIntervals(start, n, k - 1), n);
      assert k * n == (k - 1) * n + n;
    }
  }
}
