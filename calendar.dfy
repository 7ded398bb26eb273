/** UTC calendar arithmetic behind `Date.prototype.addDays` and the cache's
    day id `getUTCDay() + 31 * getUTCMonth() + 372 * getUTCFullYear()`.

    Day number n is the UTC day that starts n * 86 400 000 ms after
    1970-01-01T00:00Z. Its proleptic Gregorian date is obtained by stepping
    one day at a time from 1 January 1970, so that the relation between a day
    and the next one is available to proofs. Months are numbered 0..11 as
    `getUTCMonth()` does; weekdays 0 (Sunday) .. 6 as `getUTCDay()` does. */
module Calendar {
  import opened Wrappers
  import opened Js

  const MsPerDay: int := 86_400_000

  /** The UTC day a time value falls in (floor division). */
  function DayNumber(t: int): int {
    t / MsPerDay
  }

  /** Milliseconds since UTC midnight. */
  function TimeOfDay(t: int): (r: int)
    ensures 0 <= r < MsPerDay
  {
    t % MsPerDay
  }

  lemma DayNumberOf(day: int, time: int)
    requires 0 <= time < MsPerDay
    ensures DayNumber(day * MsPerDay + time) == day
    ensures TimeOfDay(day * MsPerDay + time) == time
  {
  }

  /** `t.addDays(n)`: `setUTCDate(getUTCDate() + n)` moves the UTC date by n
      days and keeps the UTC time of day, so the time value moves by exactly
      n days of milliseconds. */
  function AddDays(t: int, n: int): (r: int)
    ensures r == t + n * MsPerDay
    ensures DayNumber(r) == DayNumber(t) + n
    ensures TimeOfDay(r) == TimeOfDay(t)
  {
    DayNumberOf(DayNumber(t) + n, TimeOfDay(t));
    (DayNumber(t) + n) * MsPerDay + TimeOfDay(t)
  }

  /** `addDays` on a Date object: an Invalid Date stays invalid. */
  function AddDaysTo(d: JsDate, n: int): (r: JsDate)
    ensures r.InvalidDate? <==> d.InvalidDate?
    ensures d.Date? ==> r.ms == d.ms + n * MsPerDay
  {
    match d
    case Date(ms) => Date(AddDays(ms, n))
    case InvalidDate => InvalidDate
  }

  // ---------------------------------------------------------------------
  // The proleptic Gregorian calendar

  datatype CivilDate = CivilDate(year: int, month: int, day: int)

  predicate IsLeapYear(y: int) {
    y % 4 == 0 && (y % 100 != 0 || y % 400 == 0)
  }

  function DaysInMonth(y: int, m: int): (r: int)
    requires 0 <= m < 12
    ensures 28 <= r <= 31
  {
    if m == 1 then (if IsLeapYear(y) then 29 else 28)
    else if m == 3 || m == 5 || m == 8 || m == 10 then 30
    else 31
  }

  predicate ValidCivil(c: CivilDate) {
    0 <= c.month < 12 && 1 <= c.day <= DaysInMonth(c.year, c.month)
  }

  /** The calendar date after `c`. */
  function NextDay(c: CivilDate): (r: CivilDate)
    requires ValidCivil(c)
    ensures ValidCivil(r)
  {
    if c.day < DaysInMonth(c.year, c.month) then c.(day := c.day + 1)
    else if c.month < 11 then CivilDate(c.year, c.month + 1, 1)
    else CivilDate(c.year + 1, 0, 1)
  }

  /** The calendar date before `c`. */
  function PrevDay(c: CivilDate): (r: CivilDate)
    requires ValidCivil(c)
    ensures ValidCivil(r)
  {
    if c.day > 1 then c.(day := c.day - 1)
    else if c.month > 0 then CivilDate(c.year, c.month - 1, DaysInMonth(c.year, c.month - 1))
    else CivilDate(c.year - 1, 11, 31)
  }

  lemma NextOfPrev(c: CivilDate)
    requires ValidCivil(c)
    ensures NextDay(PrevDay(c)) == c
  {
  }

  /** The UTC calendar date of day number n; day 0 is 1 January 1970. */
  function CivilOfDay(n: int): (c: CivilDate)
    ensures ValidCivil(c)
    decreases if n < 0 then -n else n
  {
    if n == 0 then CivilDate(1970, 0, 1)
    else if n > 0 then NextDay(CivilOfDay(n - 1))
    else PrevDay(CivilOfDay(n + 1))
  }

  /** Consecutive day numbers are consecutive calendar dates, also before 1970. */
  lemma CivilOfNextDay(n: int)
    ensures CivilOfDay(n + 1) == NextDay(CivilOfDay(n))
  {
    if n < 0 {
      NextOfPrev(CivilOfDay(n + 1));
    }
  }

  /** `getUTCDay()`: 1 January 1970 was a Thursday (4). */
  function WeekdayOfDay(n: int): (r: int)
    ensures 0 <= r < 7
  {
    (n + 4) % 7
  }

  // ---------------------------------------------------------------------
  // The day id

  /** `_getUTCDayId` for a valid time value. */
  function DayId(t: int): int {
    var c := CivilOfDay(DayNumber(t));
    WeekdayOfDay(DayNumber(t)) + c.month * 31 + c.year * 372
  }

  /** `_getUTCDayId` for a Date object: NaN (None) for an Invalid Date. */
  function DayIdOf(d: JsDate): (r: Option<int>)
    ensures r.Some? <==> d.Date?
  {
    match d
    case Date(ms) => Some(DayId(ms))
    case InvalidDate => None
  }

  /** The id identifies exactly the UTC year, the UTC month and the UTC weekday. */
  lemma DayIdDeterminesFields(t: int, u: int)
    ensures DayId(t) == DayId(u) <==>
      && CivilOfDay(DayNumber(t)).year == CivilOfDay(DayNumber(u)).year
      && CivilOfDay(DayNumber(t)).month == CivilOfDay(DayNumber(u)).month
      && WeekdayOfDay(DayNumber(t)) == WeekdayOfDay(DayNumber(u))
  {
    var c, d := CivilOfDay(DayNumber(t)), CivilOfDay(DayNumber(u));
    var w, x := WeekdayOfDay(DayNumber(t)), WeekdayOfDay(DayNumber(u));
    if DayId(t) == DayId(u) {
      assert (c.year - d.year) * 372 == (x - w) + (d.month - c.month) * 31;
      assert -372 < (x - w) + (d.month - c.month) * 31 < 372;
      assert c.year == d.year;
    }
  }

  /** Two consecutive UTC days always get different ids. */
  lemma ConsecutiveDayIdsDiffer(t: int)
    ensures DayId(AddDays(t, 1)) != DayId(t)
  {
    var n := DayNumber(t);
    assert DayNumber(AddDays(t, 1)) == n + 1;
    CivilOfNextDay(n);
    assert WeekdayOfDay(n + 1) == (WeekdayOfDay(n) + 1) % 7;
  }

  /** Stepping j days inside one month keeps the year and month. */
  lemma {:induction false} SameMonthAhead(n: int, j: nat)
    requires CivilOfDay(n).day + j <= DaysInMonth(CivilOfDay(n).year, CivilOfDay(n).month)
    ensures CivilOfDay(n + j) == CivilOfDay(n).(day := CivilOfDay(n).day + j)
  {
    if j > 0 {
      SameMonthAhead(n, j - 1);
      CivilOfNextDay(n + j - 1);
    }
  }

  /** The id repeats a week later whenever both days lie in the same UTC
      month: a cache keyed by it sees no change from the 1st to the 8th. */
  lemma DayIdRepeatsAWeekLater(t: int)
    requires CivilOfDay(DayNumber(t)).day + 7
      <= DaysInMonth(CivilOfDay(DayNumber(t)).year, CivilOfDay(DayNumber(t)).month)
    ensures DayId(AddDays(t, 7)) == DayId(t)
  {
    var n := DayNumber(t);
    assert DayNumber(AddDays(t, 7)) == n + 7;
    SameMonthAhead(n, 7);
    assert WeekdayOfDay(n + 7) == WeekdayOfDay(n);
  }
}
