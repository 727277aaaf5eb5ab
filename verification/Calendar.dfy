/**
 The Gregorian calendar in a zone with a fixed offset. Days are numbered from
 Monday, 1 January of year 1; months are numbered year * 12 + (month - 1), so
 January of year 1 is month 12; instants are nanoseconds since day 0.
 */
module Calendar {

  type Month = int

  const SECOND: int := 1_000_000_000
  const SECONDS_PER_DAY: int := 86400
  const DAY: int := SECONDS_PER_DAY * SECOND

  function YearOf(m: Month): int {
    m / 12
  }

  /** 0 is January. */
  function MonthOfYear(m: Month): (r: int)
    ensures 0 <= r < 12
  {
    m % 12
  }

  predicate Leap(y: int) {
    y % 4 == 0 && (y % 100 != 0 || y % 400 == 0)
  }

  function MonthLength(mo: int, leap: bool): (r: int)
    requires 0 <= mo < 12
    ensures 28 <= r <= 31
  {
    if mo == 1 then (if leap then 29 else 28)
    else if mo == 3 || mo == 5 || mo == 8 || mo == 10 then 30
    else 31
  }

  function DaysIn(m: Month): (r: int)
    ensures 28 <= r <= 31
  {
    MonthLength(MonthOfYear(m), Leap(YearOf(m)))
  }

  function YearStart(y: int): int {
    365 * (y - 1) + (y - 1) / 4 - (y - 1) / 100 + (y - 1) / 400
  }

  function DaysBefore(mo: int, leap: bool): int
    requires 0 <= mo <= 12
  {
    if mo == 0 then 0 else DaysBefore(mo - 1, leap) + MonthLength(mo - 1, leap)
  }

  /** The day number of the first of the month. */
  function MonthStart(m: Month): int {
    YearStart(YearOf(m)) + DaysBefore(MonthOfYear(m), Leap(YearOf(m)))
  }

  lemma YearLength(leap: bool)
    ensures DaysBefore(12, leap) == if leap then 366 else 365
  {
    assert DaysBefore(1, leap) == 31;
    assert DaysBefore(2, leap) == if leap then 60 else 59;
    assert DaysBefore(3, leap) == DaysBefore(2, leap) + 31;
    assert DaysBefore(4, leap) == DaysBefore(3, leap) + 30;
    assert DaysBefore(5, leap) == DaysBefore(4, leap) + 31;
    assert DaysBefore(6, leap) == DaysBefore(5, leap) + 30;
    assert DaysBefore(7, leap) == DaysBefore(6, leap) + 31;
    assert DaysBefore(8, leap) == DaysBefore(7, leap) + 31;
    assert DaysBefore(9, leap) == DaysBefore(8, leap) + 30;
    assert DaysBefore(10, leap) == DaysBefore(9, leap) + 31;
    assert DaysBefore(11, leap) == DaysBefore(10, leap) + 30;
  }

  lemma Quotient(y: int, n: int)
    requires n > 0
    ensures y / n - (y - 1) / n == if y % n == 0 then 1 else 0
  {
    var q, r := y / n, y % n;
    assert y == n * q + r;
    if r == 0 {
      assert y - 1 == n * (q - 1) + (n - 1);
      QuotientIs(y - 1, n, q - 1, n - 1);
    } else {
      assert y - 1 == n * q + (r - 1);
      QuotientIs(y - 1, n, q, r - 1);
    }
  }

  lemma QuotientIs(y: int, n: int, q: int, r: int)
    requires n > 0 && 0 <= r < n && y == n * q + r
    ensures y / n == q
  {
    var d := y / n - q;
    assert n * d == r - y % n;
    SmallMultiple(n, d);
  }

  lemma SmallMultiple(n: int, d: int)
    requires n > 0 && -n < n * d < n
    ensures d == 0
  {
    if d >= 1 {
      AtLeastOnce(n, d);
    } else if d <= -1 {
      AtLeastOnce(n, -d);
    }
  }

  lemma AtLeastOnce(n: int, d: int)
    requires n > 0 && d >= 1
    ensures n * d >= n
  {
  }

  lemma YearStep(y: int)
    ensures YearStart(y + 1) == YearStart(y) + if Leap(y) then 366 else 365
  {
    Quotient(y, 4);
    Quotient(y, 100);
    Quotient(y, 400);
    Multiples(y);
  }

  lemma Multiples(y: int)
    ensures y % 400 == 0 ==> y % 100 == 0
    ensures y % 100 == 0 ==> y % 4 == 0
  {
  }

  lemma NextMonth(m: Month)
    ensures MonthOfYear(m) < 11 ==> YearOf(m + 1) == YearOf(m) && MonthOfYear(m + 1) == MonthOfYear(m) + 1
    ensures MonthOfYear(m) == 11 ==> YearOf(m + 1) == YearOf(m) + 1 && MonthOfYear(m + 1) == 0
  {
  }

  /** Months follow each other without gap or overlap. */
  lemma MonthStep(m: Month)
    ensures MonthStart(m + 1) == MonthStart(m) + DaysIn(m)
  {
    NextMonth(m);
    if MonthOfYear(m) == 11 {
      YearStep(YearOf(m));
      YearLength(Leap(YearOf(m)));
    }
  }

  lemma {:induction false} MonthsAscend(m: Month, n: Month)
    requires m <= n
    ensures MonthStart(m) + 28 * (n - m) <= MonthStart(n)
    decreases n - m
  {
    if m < n {
      MonthStep(n - 1);
      MonthsAscend(m, n - 1);
    }
  }

  predicate InMonth(day: int, m: Month) {
    MonthStart(m) <= day < MonthStart(m + 1)
  }

  function Forward(m: Month, day: int): (r: Month)
    requires MonthStart(m) <= day
    ensures InMonth(day, r)
    decreases day - MonthStart(m)
  {
    MonthStep(m);
    if day < MonthStart(m + 1) then m else Forward(m + 1, day)
  }

  function Back(m: Month, day: int): (r: Month)
    requires day < MonthStart(m + 1)
    ensures InMonth(day, r)
    decreases MonthStart(m + 1) - day
  {
    MonthStep(m);
    if MonthStart(m) <= day then m else Back(m - 1, day)
  }

  lemma Epoch()
    ensures MonthStart(12) == 0
  {
  }

  /** The month a day lies in (time.Date). */
  function MonthOf(day: int): (r: Month)
    ensures InMonth(day, r)
  {
    Epoch();
    if day >= 0 then Forward(12, day) else Back(11, day)
  }

  lemma MonthUnique(day: int, m: Month, n: Month)
    requires InMonth(day, m) && InMonth(day, n)
    ensures m == n
  {
    if m < n { MonthsAscend(m + 1, n); }
    if n < m { MonthsAscend(n + 1, m); }
  }

  /** 0 is Sunday; day 0 was a Monday. */
  function Weekday(day: int): (r: int)
    ensures 0 <= r < 7
  {
    (day + 1) % 7
  }

  /** 1 January 2000 was a Saturday. */
  lemma NewYear2000()
    ensures MonthStart(2000 * 12) == 730_119 && Weekday(730_119) == 6
  {
    assert DaysBefore(0, true) == 0;
    hide DaysBefore;
    assert YearOf(2000 * 12) == 2000 && MonthOfYear(2000 * 12) == 0;
  }

  lemma BeforeAugust()
    ensures DaysBefore(7, false) == 212
  {
    assert DaysBefore(3, false) == 90;
    assert DaysBefore(6, false) == DaysBefore(3, false) + 91;
  }

  /** 1 August 2026 is a Saturday. */
  lemma August2026()
    ensures MonthStart(2026 * 12 + 7) == 739_828 && Weekday(739_828) == 6 && DaysIn(2026 * 12 + 7) == 31
  {
    hide DaysBefore;
    BeforeAugust();
    assert YearOf(2026 * 12 + 7) == 2026 && MonthOfYear(2026 * 12 + 7) == 7 && !Leap(2026);
  }

  function DayOf(t: int): int {
    t / DAY
  }

  /** The day of the month, from 1. */
  function DayOfMonth(day: int): int {
    day - MonthStart(MonthOf(day)) + 1
  }
}
