/**
 * The daily streak (app/index.tsx:409-423): a won daily session on a day
 * not yet credited extends the streak when the last credited day is exactly
 * one day earlier, and restarts it at 1 otherwise.
 *
 * The source measures the gap by parsing both keys with `new Date` and
 * dividing the millisecond difference by one day; here both keys are read
 * back into calendar dates and the gap is the difference of their day
 * numbers in the proleptic Gregorian calendar.
 */
module Streak {
  import opened Wrappers
  import opened DailyChallenge

  predicate IsLeap(y: nat)
  {
    y % 4 == 0 && (y % 100 != 0 || y % 400 == 0)
  }

  function DaysInMonth(y: nat, m0: nat): nat
  {
    if m0 == 1 then (if IsLeap(y) then 29 else 28)
    else if m0 == 3 || m0 == 5 || m0 == 8 || m0 == 10 then 30
    else 31
  }

  predicate ValidDate(d: CalendarDate)
  {
    d.month0 < 12 && 1 <= d.day <= DaysInMonth(d.year, d.month0)
  }

  /** Days of year `y` before the first of month `m0` (0-based, up to 12). */
  function DaysBeforeMonth(y: nat, m0: nat): nat
    requires m0 <= 12
  {
    [0, 31, 59, 90, 120, 151, 181, 212, 243, 273, 304, 334, 365][m0]
      + (if m0 >= 2 && IsLeap(y) then 1 else 0)
  }

  /** Days before 1 January of year `y`, counting from year 0. */
  function DaysBeforeYear(y: nat): int
  {
    365 * y + (y + 3) / 4 - (y + 99) / 100 + (y + 399) / 400
  }

  /** The day's position in a count of consecutive days. */
  function DayNumber(d: CalendarDate): int
    requires d.month0 <= 12
  {
    DaysBeforeYear(d.year) + DaysBeforeMonth(d.year, d.month0) + d.day
  }

  lemma MonthStep(y: nat, m0: nat)
    requires m0 < 12
    ensures DaysBeforeMonth(y, m0 + 1) == DaysBeforeMonth(y, m0) + DaysInMonth(y, m0)
  {
  }

  /** `(y + 4) / 4` passes a multiple of 4 exactly when `y` is one; likewise for 100 and 400. */
  lemma MultipleStep(y: nat)
    ensures (y + 4) / 4 - (y + 3) / 4 == if y % 4 == 0 then 1 else 0
    ensures (y + 100) / 100 - (y + 99) / 100 == if y % 100 == 0 then 1 else 0
    ensures (y + 400) / 400 - (y + 399) / 400 == if y % 400 == 0 then 1 else 0
  {
    var q4, q100, q400 := y / 4, y / 100, y / 400;
    assert y == 4 * q4 + y % 4;
    assert y == 100 * q100 + y % 100;
    assert y == 400 * q400 + y % 400;
    assert (y + 4) / 4 == q4 + 1;
    assert (y + 100) / 100 == q100 + 1;
    assert (y + 400) / 400 == q400 + 1;
    assert (y + 3) / 4 == if y % 4 == 0 then q4 else q4 + 1;
    assert (y + 99) / 100 == if y % 100 == 0 then q100 else q100 + 1;
    assert (y + 399) / 400 == if y % 400 == 0 then q400 else q400 + 1;
  }

  lemma Multiple400Is100(y: nat)
    requires y % 400 == 0
    ensures y % 100 == 0
  {
    var q := y / 400;
    assert y == 100 * (4 * q);
  }

  lemma Multiple100Is4(y: nat)
    requires y % 100 == 0
    ensures y % 4 == 0
  {
    var q := y / 100;
    assert y == 4 * (25 * q);
  }

  /** A year adds 366 days when it is a leap year and 365 otherwise. */
  lemma YearStep(y: nat)
    ensures DaysBeforeYear(y + 1) == DaysBeforeYear(y) + DaysBeforeMonth(y, 12)
  {
    MultipleStep(y);
    if y % 400 == 0 {
      Multiple400Is100(y);
      Multiple100Is4(y);
    } else if y % 100 == 0 {
      Multiple100Is4(y);
    }
  }

  /** The calendar day after `d`. */
  function NextDay(d: CalendarDate): (e: CalendarDate)
    requires ValidDate(d)
    ensures ValidDate(e)
    ensures DayNumber(e) == DayNumber(d) + 1
  {
    if d.day < DaysInMonth(d.year, d.month0) then CalendarDate(d.year, d.month0, d.day + 1)
    else if d.month0 < 11 then
      MonthStep(d.year, d.month0);
      CalendarDate(d.year, d.month0 + 1, 1)
    else
      MonthStep(d.year, 11);
      YearStep(d.year);
      CalendarDate(d.year + 1, 0, 1)
  }

  /** Later months start no earlier. */
  lemma {:induction false} MonthsGrow(y: nat, m0: nat, m1: nat)
    requires m0 <= m1 <= 12
    ensures DaysBeforeMonth(y, m0) <= DaysBeforeMonth(y, m1)
    decreases m1 - m0
  {
    if m0 < m1 {
      MonthStep(y, m0);
      MonthsGrow(y, m0 + 1, m1);
    }
  }

  /** Later years start no earlier. */
  lemma {:induction false} YearsGrow(y0: nat, y1: nat)
    requires y0 <= y1
    ensures DaysBeforeYear(y0) <= DaysBeforeYear(y1)
    decreases y1 - y0
  {
    if y0 < y1 {
      YearStep(y0);
      YearsGrow(y0 + 1, y1);
    }
  }

  /** A valid date's day number lies within its month and hence within its year. */
  lemma WithinMonth(d: CalendarDate)
    requires ValidDate(d)
    ensures DaysBeforeYear(d.year) + DaysBeforeMonth(d.year, d.month0) < DayNumber(d)
    ensures DayNumber(d) <= DaysBeforeYear(d.year) + DaysBeforeMonth(d.year, d.month0 + 1)
    ensures DayNumber(d) <= DaysBeforeYear(d.year + 1)
  {
    MonthStep(d.year, d.month0);
    MonthsGrow(d.year, d.month0 + 1, 12);
    YearStep(d.year);
  }

  /** Distinct valid dates have distinct day numbers. */
  lemma DayNumberInjective(d: CalendarDate, e: CalendarDate)
    requires ValidDate(d) && ValidDate(e) && d != e
    ensures DayNumber(d) != DayNumber(e)
  {
    WithinMonth(d);
    WithinMonth(e);
    if d.year < e.year {
      YearsGrow(d.year + 1, e.year);
    } else if e.year < d.year {
      YearsGrow(e.year + 1, d.year);
    } else if d.month0 < e.month0 {
      MonthsGrow(d.year, d.month0 + 1, e.month0);
    } else if e.month0 < d.month0 {
      MonthsGrow(d.year, e.month0 + 1, d.month0);
    }
  }

  /** The only valid date one day number after `d` is `NextDay(d)`. */
  lemma NextDayUnique(d: CalendarDate, e: CalendarDate)
    requires ValidDate(d) && ValidDate(e) && DayNumber(e) == DayNumber(d) + 1
    ensures e == NextDay(d)
  {
    if e != NextDay(d) {
      DayNumberInjective(e, NextDay(d));
    }
  }

  /** Whole days from the date of key `last` to the date of key `today`; None when a key does not read as a date. */
  function GapDays(last: string, today: string): Option<int>
  {
    match (ParseDateKey(last), ParseDateKey(today))
    case (Some(a), Some(b)) =>
      if a.month0 <= 12 && b.month0 <= 12 then Some(DayNumber(b) - DayNumber(a)) else None
    case _ => None
  }

  /** The gap between two keys is the difference of their dates' day numbers. */
  lemma GapBetweenKeys(d: CalendarDate, e: CalendarDate)
    requires ValidDate(d) && ValidDate(e)
    ensures GapDays(DateKey(d), DateKey(e)) == Some(DayNumber(e) - DayNumber(d))
  {
    DateKeyRoundTrip(d);
    DateKeyRoundTrip(e);
    assert (ParseDateKey(DateKey(d)), ParseDateKey(DateKey(e))) == (Some(d), Some(e));
  }

  datatype StreakState = StreakState(length: nat, lastDate: Option<string>)

  /** The streak after a won daily session on the day whose key is `today` (app/index.tsx:410-421). */
  function Credit(s: StreakState, today: string): (r: StreakState)
    ensures s.lastDate == Some(today) ==> r == s
    ensures s.lastDate != Some(today) ==> r.lastDate == Some(today) && 1 <= r.length <= s.length + 1
  {
    if s.lastDate == Some(today) then s
    else if s.lastDate.Some? && s.lastDate.value != "" then
      StreakState(if GapDays(s.lastDate.value, today) == Some(1) then s.length + 1 else 1, Some(today))
    else StreakState(1, Some(today))
  }

  /** A second credit on the same day changes nothing. */
  lemma CreditIdempotent(s: StreakState, today: string)
    ensures Credit(Credit(s, today), today) == Credit(s, today)
  {
  }

  /** A win on the day after the last credited day extends the streak by one. */
  lemma CreditNextDay(n: nat, d: CalendarDate)
    requires ValidDate(d)
    ensures Credit(StreakState(n, Some(DateKey(d))), DateKey(NextDay(d)))
         == StreakState(n + 1, Some(DateKey(NextDay(d))))
  {
    var e := NextDay(d);
    DateKeyRoundTrip(d);
    DateKeyRoundTrip(e);
    DateKeyInjective(d, e);
    assert DateKey(d) != "";
  }

  /** A win on any other new day restarts the streak at 1. */
  lemma CreditAfterGap(n: nat, d: CalendarDate, e: CalendarDate)
    requires ValidDate(d) && ValidDate(e)
    requires e != d && e != NextDay(d)
    ensures Credit(StreakState(n, Some(DateKey(d))), DateKey(e)) == StreakState(1, Some(DateKey(e)))
  {
    DayNumberInjective(e, NextDay(d));
    DateKeyRoundTrip(d);
    DateKeyRoundTrip(e);
    DateKeyInjective(d, e);
  }

  /** The first daily win ever starts a streak of 1. */
  lemma CreditFirst(n: nat, today: string)
    ensures Credit(StreakState(n, None), today) == StreakState(1, Some(today))
  {
  }

  lemma DigitsOf2024()
    ensures Digits(2024) == "2024"
  {
    assert Digits(2) == "2";
    assert Digits(20) == Digits(2) + "0";
    assert Digits(202) == Digits(20) + "2";
    assert Digits(2024) == Digits(202) + "4";
  }

  lemma KeysOfJanuary2024()
    ensures DateKey(CalendarDate(2024, 0, 1)) == "2024-1-1"
    ensures DateKey(CalendarDate(2024, 0, 2)) == "2024-1-2"
    ensures DateKey(CalendarDate(2024, 0, 4)) == "2024-1-4"
  {
    DigitsOf2024();
    assert Digits(1) == "1" && Digits(2) == "2" && Digits(4) == "4";
  }

  /** From a 3-day streak last credited on 2024-1-1, a win on 2024-1-2 makes it 4. */
  lemma StreakContinues()
    ensures Credit(StreakState(3, Some("2024-1-1")), "2024-1-2").length == 4
  {
    KeysOfJanuary2024();
    CreditNextDay(3, CalendarDate(2024, 0, 1));
  }

  /** From a 3-day streak last credited on 2024-1-1, a win on 2024-1-4 restarts it at 1. */
  lemma StreakRestarts()
    ensures Credit(StreakState(3, Some("2024-1-1")), "2024-1-4").length == 1
  {
    KeysOfJanuary2024();
    CreditAfterGap(3, CalendarDate(2024, 0, 1), CalendarDate(2024, 0, 4));
  }
}
