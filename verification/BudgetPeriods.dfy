/** Budget periods (internal/proxy/budget.go) in a zone with a fixed offset: the start of the
  * period an instant lies in and the instant it is reset at. Instants and offsets are in
  * nanoseconds; day 0 is 1970-01-01, a Thursday.
  */
module BudgetPeriods {
  const DayLength := 86_400_000_000_000

  /* ---------- The calendar ---------- */

  predicate IsLeap(y: int) {
    y % 4 == 0 && (y % 100 != 0 || y % 400 == 0)
  }

  // Months of a year are counted from zero.
  function MonthLength(y: int, m: int): (r: int)
    ensures 28 <= r <= 31
  {
    if m == 1 then (if IsLeap(y) then 29 else 28)
    else if m == 3 || m == 5 || m == 8 || m == 10 then 30
    else 31
  }

  function LengthOf(n: int): (r: int)
    ensures 28 <= r <= 31
  {
    MonthLength(n / 12, n % 12)
  }

  // The first day of a month counted from January of year 0, so that month 12 of a year is
  // the first of the next. Year 0 begins 719528 days before day 0.
  function MonthStart(n: int): int
    decreases if n < 0 then -n else n
  {
    if n == 0 then -719528
    else if n > 0 then MonthStart(n - 1) + LengthOf(n - 1)
    else MonthStart(n + 1) - LengthOf(n)
  }

  // time.Date for the beginning of a day: months and days out of range carry over.
  function Date(y: int, m: int, d: int): int {
    MonthStart(12 * y + m) + d - 1
  }

  // The day number of January 1, in closed form.
  function YearStart(y: int): int {
    365 * (y - 1970) + (y - 1) / 4 - (y - 1) / 100 + (y - 1) / 400 - 477
  }

  function YearLength(y: int): int {
    if IsLeap(y) then 366 else 365
  }

  lemma LeapQuotients(y: int)
    ensures y / 4 - (y - 1) / 4 == if y % 4 == 0 then 1 else 0
    ensures y / 100 - (y - 1) / 100 == if y % 100 == 0 then 1 else 0
    ensures y / 400 - (y - 1) / 400 == if y % 400 == 0 then 1 else 0
    ensures y % 400 == 0 ==> y % 100 == 0
    ensures y % 100 == 0 ==> y % 4 == 0
  {
  }

  lemma MonthOfYear(y: int, m: int)
    requires 0 <= m < 12
    ensures LengthOf(12 * y + m) == MonthLength(y, m)
  {
  }

  lemma MonthsTile(n: int)
    ensures MonthStart(n + 1) == MonthStart(n) + LengthOf(n)
  {
  }

  // The next months of a year, a few at a time.
  lemma Quarter(y: int, m: int)
    requires 0 <= m <= 9
    ensures MonthStart(12 * y + m + 3) == MonthStart(12 * y + m) + MonthLength(y, m) + MonthLength(y, m + 1) + MonthLength(y, m + 2)
  {
    MonthsTile(12 * y + m);
    MonthsTile(12 * y + m + 1);
    MonthsTile(12 * y + m + 2);
    MonthOfYear(y, m);
    MonthOfYear(y, m + 1);
    MonthOfYear(y, m + 2);
  }

  lemma TwelveMonths(y: int)
    ensures MonthStart(12 * (y + 1)) == MonthStart(12 * y) + YearLength(y)
  {
    Quarter(y, 0);
    Quarter(y, 3);
    Quarter(y, 6);
    Quarter(y, 9);
    assert 12 * (y + 1) == 12 * y + 9 + 3;
    QuartersOf(y);
  }

  lemma QuartersOf(y: int)
    ensures MonthLength(y, 0) + MonthLength(y, 1) + MonthLength(y, 2) + MonthLength(y, 3) + MonthLength(y, 4) + MonthLength(y, 5)
            == YearLength(y) - 184
    ensures MonthLength(y, 6) + MonthLength(y, 7) + MonthLength(y, 8) + MonthLength(y, 9) + MonthLength(y, 10) + MonthLength(y, 11) == 184
  {
  }

  lemma YearGrows(y: int)
    ensures YearStart(y + 1) == YearStart(y) + YearLength(y)
  {
    LeapQuotients(y);
    assert y + 1 - 1 == y;
  }

  /** Counting month by month, January 1 falls where the closed form of the Gregorian calendar
    * has it: the leap years are right in both directions. */
  lemma {:induction false} YearsBegin(y: int)
    ensures MonthStart(12 * y) == YearStart(y)
    decreases if y < 0 then -y else y
  {
    if y > 0 {
      YearsBegin(y - 1);
      TwelveMonths(y - 1);
      YearGrows(y - 1);
    } else if y < 0 {
      YearsBegin(y + 1);
      TwelveMonths(y);
      YearGrows(y);
    }
  }

  lemma {:induction false} MonthsAscend(a: int, b: int)
    requires a < b
    ensures MonthStart(a) < MonthStart(b)
    decreases b - a
  {
    MonthsTile(b - 1);
    if a < b - 1 {
      MonthsAscend(a, b - 1);
    }
  }

  predicate InMonth(day: int, n: int) {
    MonthStart(n) <= day < MonthStart(n + 1)
  }

  lemma OneMonthOnly(day: int, a: int, b: int)
    requires InMonth(day, a) && InMonth(day, b)
    ensures a == b
  {
    if a < b {
      MonthsTile(a);
      if a + 1 < b {
        MonthsAscend(a + 1, b);
      }
    } else if b < a {
      MonthsTile(b);
      if b + 1 < a {
        MonthsAscend(b + 1, a);
      }
    }
  }

  // The month of a day, searched upwards from an earlier one.
  function MonthFrom(day: int, n: int): (r: int)
    requires MonthStart(n) <= day
    ensures InMonth(day, r)
    decreases day - MonthStart(n)
  {
    MonthsTile(n);
    if day < MonthStart(n + 1) then n else MonthFrom(day, n + 1)
  }

  // A month that begins no later than the day.
  function EarlyMonth(day: int): (n: int)
    ensures MonthStart(n) <= day
  {
    var n := if day < -719528 then day + 719528 else 0;
    MonthIsEarly(n);
    n
  }

  lemma {:induction false} MonthIsEarly(n: int)
    requires n <= 0
    ensures MonthStart(n) <= n - 719528
    decreases -n
  {
    if n < 0 {
      MonthIsEarly(n + 1);
    }
  }

  // local.Date(): the year, the month counted from zero, and the day of the month.
  function MonthOf(day: int): (n: int)
    ensures InMonth(day, n)
  {
    MonthFrom(day, EarlyMonth(day))
  }

  // 0 is Sunday.
  function Weekday(day: int): int {
    (day + 4) % 7
  }

  /* ---------- The periods ---------- */

  datatype Civil = Civil(y: int, m: int, d: int)

  function CivilOf(day: int): Civil {
    var n := MonthOf(day);
    Civil(n / 12, n % 12, day - MonthStart(n) + 1)
  }

  // The days of a year before a month of it.
  function DaysBefore(y: int, m: int): int {
    (367 * m + 5) / 12 - if m <= 1 then 0 else if IsLeap(y) then 1 else 2
  }

  lemma MonthGrows(y: int, m: int)
    requires 0 <= m < 11
    ensures DaysBefore(y, m + 1) == DaysBefore(y, m) + MonthLength(y, m)
  {
  }

  lemma {:induction false} MonthBegins(y: int, m: int)
    requires 0 <= m < 12
    ensures MonthStart(12 * y + m) == YearStart(y) + DaysBefore(y, m)
    decreases m
  {
    if m == 0 {
      YearsBegin(y);
    } else {
      MonthBegins(y, m - 1);
      MonthGrows(y, m - 1);
      MonthsTile(12 * y + m - 1);
      MonthOfYear(y, m - 1);
    }
  }

  /** The calendar: a date of the Gregorian calendar is the date of the day that its closed
    * form counts from day 0, and day 0 is the first of January 1970. */
  lemma DatesExactly(y: int, m: int, d: int)
    requires 0 <= m < 12 && 1 <= d <= MonthLength(y, m)
    ensures CivilOf(YearStart(y) + DaysBefore(y, m) + d - 1) == Civil(y, m, d)
    ensures CivilOf(0) == Civil(1970, 0, 1)
  {
    DateOf(y, m, d);
    DateOf(1970, 0, 1);
    FirstDay();
  }

  lemma FirstDay()
    ensures YearStart(1970) + DaysBefore(1970, 0) + 1 - 1 == 0
  {
  }

  lemma DateOf(y: int, m: int, d: int)
    requires 0 <= m < 12 && 1 <= d <= MonthLength(y, m)
    ensures CivilOf(YearStart(y) + DaysBefore(y, m) + d - 1) == Civil(y, m, d)
  {
    var n, day := 12 * y + m, YearStart(y) + DaysBefore(y, m) + d - 1;
    MonthBegins(y, m);
    MonthsTile(n);
    MonthOfYear(y, m);
    OneMonthOnly(day, n, MonthOf(day));
    MonthNumber(y, m);
  }

  lemma MonthNumber(y: int, m: int)
    requires 0 <= m < 12
    ensures (12 * y + m) / 12 == y && (12 * y + m) % 12 == m
  {
  }

  // Naming a day by its month and the day of the month.
  lemma DateInMonth(n: int, d: int)
    ensures Date(n / 12, n % 12, d) == MonthStart(n) + d - 1 && Date(n / 12, n % 12 + 1, d) == MonthStart(n + 1) + d - 1
  {
  }

  function LocalDay(now: int, offset: int): int {
    (now + offset) / DayLength
  }

  // The instant a day begins at.
  function Midnight(day: int, offset: int): int {
    day * DayLength - offset
  }

  // The first day of the period a day lies in. An unknown period counts as daily.
  function StartDay(period: string, day: int): int {
    var c := CivilOf(day);
    if period == "weekly" then Date(c.y, c.m, c.d - (Weekday(day) - 1 + 7) % 7)
    else if period == "monthly" then Date(c.y, c.m, 1)
    else Date(c.y, c.m, c.d)
  }

  // The first day of the next one.
  function ResetDay(period: string, day: int): int {
    var c := CivilOf(day);
    if period == "weekly" then
      var back := (1 - Weekday(day) + 7) % 7;
      Date(c.y, c.m, c.d + if back == 0 then 7 else back)
    else if period == "monthly" then Date(c.y, c.m + 1, 1)
    else Date(c.y, c.m, c.d + 1)
  }

  function PeriodStart(period: string, now: int, offset: int): int {
    Midnight(StartDay(period, LocalDay(now, offset)), offset)
  }

  function PeriodResetAt(period: string, now: int, offset: int): int {
    Midnight(ResetDay(period, LocalDay(now, offset)), offset)
  }

  lemma WeekDays(day: int, e: int)
    requires day - (Weekday(day) - 1 + 7) % 7 <= e < day - (Weekday(day) - 1 + 7) % 7 + 7
    ensures e - (Weekday(e) - 1 + 7) % 7 == day - (Weekday(day) - 1 + 7) % 7
  {
  }

  lemma Weekly(day: int)
    ensures StartDay("weekly", day) == day - (Weekday(day) - 1 + 7) % 7 && ResetDay("weekly", day) == StartDay("weekly", day) + 7
  {
    var w := Weekday(day);
    DayInMonth(day, -((w - 1 + 7) % 7));
    DayInMonth(day, if (1 - w + 7) % 7 == 0 then 7 else (1 - w + 7) % 7);
    BackAndForth(w);
  }

  lemma DayInMonth(day: int, more: int)
    ensures var c := CivilOf(day); Date(c.y, c.m, c.d + more) == day + more
  {
    var n := MonthOf(day);
    DateInMonth(n, day - MonthStart(n) + 1 + more);
  }

  lemma BackAndForth(w: int)
    requires 0 <= w < 7
    ensures (if (1 - w + 7) % 7 == 0 then 7 else (1 - w + 7) % 7) == 7 - (w - 1 + 7) % 7
  {
  }

  lemma Monthly(day: int)
    ensures StartDay("monthly", day) == MonthStart(MonthOf(day)) && ResetDay("monthly", day) == MonthStart(MonthOf(day) + 1)
  {
    DateInMonth(MonthOf(day), 1);
  }

  lemma Daily(period: string, day: int)
    requires period != "weekly" && period != "monthly"
    ensures StartDay(period, day) == day && ResetDay(period, day) == day + 1
  {
    DayInMonth(day, 0);
    DayInMonth(day, 1);
  }

  /** Days: the period of a day holds it, and every day of the period has the same period. */
  lemma DaysTile(period: string, day: int, e: int)
    ensures StartDay(period, day) <= day < ResetDay(period, day)
    ensures StartDay(period, day) <= e < ResetDay(period, day)
            ==> StartDay(period, e) == StartDay(period, day) && ResetDay(period, e) == ResetDay(period, day)
    ensures StartDay(period, ResetDay(period, day)) == ResetDay(period, day)
  {
    if period == "weekly" {
      WeeksTile(day, e);
      WeeksTile(day, ResetDay("weekly", day));
      NextWeek(day);
    } else if period == "monthly" {
      MonthsOfDaysTile(day, e);
      NextMonth(day);
    } else {
      Daily(period, day);
      Daily(period, e);
      Daily(period, ResetDay(period, day));
    }
  }

  lemma WeeksTile(day: int, e: int)
    ensures StartDay("weekly", day) <= day < ResetDay("weekly", day)
    ensures StartDay("weekly", day) <= e < ResetDay("weekly", day)
            ==> StartDay("weekly", e) == StartDay("weekly", day) && ResetDay("weekly", e) == ResetDay("weekly", day)
  {
    Weekly(day);
    Weekly(e);
    if StartDay("weekly", day) <= e < ResetDay("weekly", day) {
      WeekDays(day, e);
    }
  }

  lemma NextWeek(day: int)
    ensures StartDay("weekly", ResetDay("weekly", day)) == ResetDay("weekly", day)
  {
    Weekly(day);
    MondayIsStart(day);
    var monday := day - (Weekday(day) - 1 + 7) % 7 + 7;
    Weekly(monday);
  }

  lemma MondayIsStart(day: int)
    ensures var monday := day - (Weekday(day) - 1 + 7) % 7 + 7; (Weekday(monday) - 1 + 7) % 7 == 0
  {
  }

  lemma MonthsOfDaysTile(day: int, e: int)
    ensures StartDay("monthly", day) <= day < ResetDay("monthly", day)
    ensures StartDay("monthly", day) <= e < ResetDay("monthly", day)
            ==> StartDay("monthly", e) == StartDay("monthly", day) && ResetDay("monthly", e) == ResetDay("monthly", day)
  {
    var m, n := MonthOf(day), MonthOf(e);
    Monthly(day);
    Monthly(e);
    assert InMonth(day, m) && InMonth(e, n);
    if MonthStart(m) <= e < MonthStart(m + 1) {
      OneMonthOnly(e, m, n);
    }
  }

  // A month begins on a day of its own.
  lemma MonthOfStart(n: int)
    ensures MonthOf(MonthStart(n)) == n
  {
    MonthsTile(n);
    OneMonthOnly(MonthStart(n), n, MonthOf(MonthStart(n)));
  }

  lemma NextMonth(day: int)
    ensures StartDay("monthly", ResetDay("monthly", day)) == ResetDay("monthly", day)
  {
    var n := MonthOf(day);
    Monthly(day);
    MonthOfStart(n + 1);
    Monthly(MonthStart(n + 1));
  }

  lemma DayOf(day: int, offset: int)
    ensures LocalDay(Midnight(day, offset), offset) == day
  {
  }

  // An instant lies between two midnights if and only if its day does.
  lemma BetweenMidnights(a: int, b: int, now: int, offset: int)
    ensures Midnight(a, offset) <= now < Midnight(b, offset) <==> a <= LocalDay(now, offset) < b
  {
    var day := LocalDay(now, offset);
  }

  /** Budget periods tile time: an instant lies in its period, every instant of the period has
    * the same start and reset, and the next period begins where this one is reset, for
    * daily, weekly and monthly periods, over month ends, leap days and year ends. */
  lemma PeriodsTile(period: string, now: int, t: int, offset: int)
    ensures var start, reset := PeriodStart(period, now, offset), PeriodResetAt(period, now, offset);
            && start <= now < reset
            && (start <= t < reset ==> PeriodStart(period, t, offset) == start && PeriodResetAt(period, t, offset) == reset)
            && PeriodStart(period, reset, offset) == reset
  {
    var day := LocalDay(now, offset);
    DaysTile(period, day, LocalDay(t, offset));
    BetweenMidnights(StartDay(period, day), ResetDay(period, day), now, offset);
    BetweenMidnights(StartDay(period, day), ResetDay(period, day), t, offset);
    DayOf(ResetDay(period, day), offset);
  }

  // So many hours in nanoseconds.
  function Hours(n: int): int {
    n * 3_600 * 1_000_000_000
  }

  /** A weekly period begins at midnight on a Monday, a day whole weeks from day 4, which is
    * 1970-01-05, and lasts seven days; a monthly one begins at midnight on the first and lasts
    * as long as its month; any other one lasts the day it lies in. */
  lemma PeriodShape(period: string, now: int, offset: int)
    ensures var day, start, reset := LocalDay(now, offset), PeriodStart(period, now, offset), PeriodResetAt(period, now, offset);
            && (start + offset) % Hours(24) == 0
            && (period == "weekly" ==> ((start + offset) / Hours(24) - 4) % 7 == 0 && reset == start + Hours(7 * 24))
            && (period == "monthly" ==>
                  && CivilOf((start + offset) / Hours(24)) == Civil(CivilOf(day).y, CivilOf(day).m, 1)
                  && reset == start + Hours(24 * MonthLength(CivilOf(day).y, CivilOf(day).m)))
            && (period != "weekly" && period != "monthly" ==> (start + offset) / Hours(24) == day && reset == start + Hours(24))
  {
    var day := LocalDay(now, offset);
    var n := MonthOf(day);
    DayOf(StartDay(period, day), offset);
    OnMidnight(StartDay(period, day), offset);
    if period == "weekly" {
      Weekly(day);
      StartIsMonday(day);
    } else if period == "monthly" {
      Monthly(day);
      MonthsTile(n);
      MonthOfStart(n);
    } else {
      Daily(period, day);
    }
  }

  lemma OnMidnight(day: int, offset: int)
    ensures (Midnight(day, offset) + offset) % Hours(24) == 0 && (Midnight(day, offset) + offset) / Hours(24) == day
  {
  }

  lemma StartIsMonday(day: int)
    ensures (day - (Weekday(day) - 1 + 7) % 7 - 4) % 7 == 0
  {
  }
}
