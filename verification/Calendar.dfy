/** Proleptic Gregorian dates, as Python's `date` and `monthrange` use them. */
module Calendar {

  datatype Date = Date(year: nat, month: nat, day: nat)

  predicate IsLeap(year: nat) {
    year % 4 == 0 && (year % 100 != 0 || year % 400 == 0)
  }

  /** monthrange(year, month)[1] */
  function MonthLength(year: nat, month: nat): (n: nat)
    requires 1 <= month <= 12
    ensures 28 <= n <= 31
  {
    if month == 2 then (if IsLeap(year) then 29 else 28)
    else if month == 4 || month == 6 || month == 9 || month == 11 then 30
    else 31
  }

  predicate Valid(d: Date) {
    d.year >= 1 && 1 <= d.month <= 12 && 1 <= d.day <= MonthLength(d.year, d.month)
  }

  /** Python compares dates field by field. */
  predicate AtMost(a: Date, b: Date) {
    || a.year < b.year
    || (a.year == b.year && a.month < b.month)
    || (a.year == b.year && a.month == b.month && a.day <= b.day)
  }

  predicate Before(a: Date, b: Date) {
    AtMost(a, b) && a != b
  }

  function Later(a: Date, b: Date): Date {
    if AtMost(b, a) then a else b
  }

  // ---------- Ordinals ----------

  function DaysBeforeYear(year: nat): int
    requires year >= 1
  {
    var y := year - 1;
    y * 365 + y / 4 - y / 100 + y / 400
  }

  function DaysBeforeMonth(year: nat, month: nat): nat
    requires 1 <= month <= 12
  {
    [0, 31, 59, 90, 120, 151, 181, 212, 243, 273, 304, 334][month - 1]
    + (if month > 2 && IsLeap(year) then 1 else 0)
  }

  /** date.toordinal() */
  function Ordinal(d: Date): int
    requires Valid(d)
  {
    DaysBeforeYear(d.year) + DaysBeforeMonth(d.year, d.month) + d.day
  }

  /** date.weekday(): Monday is 0. */
  function Weekday(d: Date): nat
    requires Valid(d)
  {
    (Ordinal(d) + 6) % 7
  }

  function NextDay(d: Date): (e: Date)
    requires Valid(d)
    ensures Valid(e)
  {
    if d.day < MonthLength(d.year, d.month) then d.(day := d.day + 1)
    else if d.month < 12 then Date(d.year, d.month + 1, 1)
    else Date(d.year + 1, 1, 1)
  }

  /** d + timedelta(days=n) */
  function AddDays(d: Date, n: nat): (e: Date)
    requires Valid(d)
    ensures Valid(e)
  {
    if n == 0 then d else NextDay(AddDays(d, n - 1))
  }

  lemma YearLength(year: nat)
    requires year >= 1
    ensures DaysBeforeYear(year + 1) == DaysBeforeYear(year) + DaysBeforeMonth(year, 12) + 31
  {
    QuotientStep(year, 4);
    QuotientStep(year, 100);
    QuotientStep(year, 400);
  }

  // The quotient grows exactly at the multiples.
  lemma QuotientStep(year: nat, d: nat)
    requires year >= 1 && (d == 4 || d == 100 || d == 400)
    ensures year / d == (year - 1) / d + if year % d == 0 then 1 else 0
  {
  }

  lemma NextDayOrdinal(d: Date)
    requires Valid(d)
    ensures Ordinal(NextDay(d)) == Ordinal(d) + 1
    ensures Before(d, NextDay(d))
  {
    if d.day == MonthLength(d.year, d.month) && d.month == 12 {
      YearLength(d.year);
    }
  }

  lemma {:induction false} AddDaysOrdinal(d: Date, n: nat)
    requires Valid(d)
    ensures Ordinal(AddDays(d, n)) == Ordinal(d) + n
    ensures AtMost(d, AddDays(d, n))
  {
    if n > 0 {
      hide Ordinal, NextDay;
      AddDaysOrdinal(d, n - 1);
      NextDayOrdinal(AddDays(d, n - 1));
    }
  }

  lemma {:induction false} YearsAscend(a: nat, b: nat)
    requires 1 <= a < b
    ensures DaysBeforeYear(a) + DaysBeforeMonth(a, 12) + 31 <= DaysBeforeYear(b)
    decreases b
  {
    if a + 1 == b {
      YearLength(a);
    } else {
      YearsAscend(a, b - 1);
      YearLength(b - 1);
    }
  }

  lemma {:induction false} MonthsAscend(year: nat, a: nat, b: nat)
    requires 1 <= a < b <= 12
    ensures DaysBeforeMonth(year, a) + MonthLength(year, a) <= DaysBeforeMonth(year, b)
    decreases b
  {
    if a + 1 < b {
      MonthsAscend(year, a, b - 1);
    }
  }

  /** Field order and day count agree, so dates and ordinals are one to one. */
  lemma OrderIsOrdinal(a: Date, b: Date)
    requires Valid(a) && Valid(b)
    ensures AtMost(a, b) <==> Ordinal(a) <= Ordinal(b)
    ensures a == b <==> Ordinal(a) == Ordinal(b)
  {
    if Before(a, b) {
      StrictOrder(a, b);
    } else if Before(b, a) {
      StrictOrder(b, a);
    }
  }

  lemma StrictOrder(a: Date, b: Date)
    requires Valid(a) && Valid(b) && Before(a, b)
    ensures Ordinal(a) < Ordinal(b)
  {
    if a.year < b.year {
      YearsAscend(a.year, b.year);
      if a.month < 12 {
        MonthsAscend(a.year, a.month, 12);
      }
    } else if a.month < b.month {
      MonthsAscend(a.year, a.month, b.month);
    }
  }
}
