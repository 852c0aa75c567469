/**
 * Proleptic Gregorian civil dates: the calendar arithmetic behind adding a
 * day to a timestamp and moving a timestamp into another zone.
 */
module Calendar {

  datatype Date = Date(year: int, month: int, day: int)

  predicate IsLeapYear(y: int) {
    y % 4 == 0 && (y % 100 != 0 || y % 400 == 0)
  }

  function DaysInYear(y: int): int {
    if IsLeapYear(y) then 366 else 365
  }

  function DaysInMonth(y: int, m: int): (n: int)
    requires 1 <= m <= 12
    ensures 28 <= n <= 31
  {
    if m == 2 then (if IsLeapYear(y) then 29 else 28)
    else if m == 4 || m == 6 || m == 9 || m == 11 then 30
    else 31
  }

  predicate ValidDate(d: Date) {
    1 <= d.month <= 12 && 1 <= d.day <= DaysInMonth(d.year, d.month)
  }

  /** Days from 0001-01-01 to 1 January of year y. Floor division keeps the
      count right for years before 1 as well. */
  function DaysBeforeYear(y: int): int {
    365 * (y - 1) + (y - 1) / 4 - (y - 1) / 100 + (y - 1) / 400
  }

  /** Days from 1 January to the first of month m in year y. */
  function DaysBeforeMonth(y: int, m: int): int
    requires 1 <= m <= 12
  {
    [0, 31, 59, 90, 120, 151, 181, 212, 243, 273, 304, 334][m - 1]
      + (if m > 2 && IsLeapYear(y) then 1 else 0)
  }

  /** The position of a date on the day line: 0001-01-01 is day 0. */
  function DayNumber(d: Date): int
    requires 1 <= d.month <= 12
  {
    DaysBeforeYear(d.year) + DaysBeforeMonth(d.year, d.month) + d.day - 1
  }

  /** Floor division by k steps up by one exactly at the multiples of k. */
  lemma FloorStep(y: int, k: int)
    requires k == 4 || k == 100 || k == 400
    ensures y / k - (y - 1) / k == if y % k == 0 then 1 else 0
  {
    var q, r := (y - 1) / k, (y - 1) % k;
    assert y == k * q + r + 1;
    if r + 1 < k {
      assert y / k == q && y % k == r + 1;
    } else {
      assert y == k * (q + 1);
      assert y / k == q + 1 && y % k == 0;
    }
  }

  /** A year is as long as the gap between its first day and the next year's. */
  lemma YearLength(y: int)
    ensures DaysBeforeYear(y + 1) == DaysBeforeYear(y) + DaysInYear(y)
  {
    FloorStep(y, 4);
    FloorStep(y, 100);
    FloorStep(y, 400);
    DivisorsNest(y);
  }

  /** A multiple of 400 is a multiple of 100, and a multiple of 100 one of 4. */
  lemma DivisorsNest(y: int)
    ensures y % 400 == 0 ==> y % 100 == 0
    ensures y % 100 == 0 ==> y % 4 == 0
  {
    if y % 100 == 0 {
      assert y == 4 * (25 * (y / 100));
    }
    if y % 400 == 0 {
      assert y == 100 * (4 * (y / 400));
    }
  }

  /** The day after a date: the next day of the month, else the first of the
      next month, else New Year's Day. */
  function NextDay(d: Date): (r: Date)
    requires ValidDate(d)
    ensures ValidDate(r)
    ensures DayNumber(r) == DayNumber(d) + 1
  {
    if d.day < DaysInMonth(d.year, d.month) then Date(d.year, d.month, d.day + 1)
    else if d.month < 12 then Date(d.year, d.month + 1, 1)
    else
      YearLength(d.year);
      Date(d.year + 1, 1, 1)
  }

  /** The day before a date. */
  function PrevDay(d: Date): (r: Date)
    requires ValidDate(d)
    ensures ValidDate(r)
    ensures DayNumber(r) == DayNumber(d) - 1
  {
    if d.day > 1 then Date(d.year, d.month, d.day - 1)
    else if d.month > 1 then Date(d.year, d.month - 1, DaysInMonth(d.year, d.month - 1))
    else
      YearLength(d.year - 1);
      Date(d.year - 1, 12, 31)
  }

  /** Stepping a day forward and a day back, in either order, is no move. */
  lemma NextPrevInverse(d: Date)
    requires ValidDate(d)
    ensures PrevDay(NextDay(d)) == d
    ensures NextDay(PrevDay(d)) == d
  {
    if d.day < DaysInMonth(d.year, d.month) {
      assert NextDay(d) == Date(d.year, d.month, d.day + 1);
    } else if d.month < 12 {
      assert NextDay(d) == Date(d.year, d.month + 1, 1);
    } else {
      assert NextDay(d) == Date(d.year + 1, 1, 1);
    }
    if d.day > 1 {
      assert PrevDay(d) == Date(d.year, d.month, d.day - 1);
    } else if d.month > 1 {
      assert PrevDay(d) == Date(d.year, d.month - 1, DaysInMonth(d.year, d.month - 1));
    } else {
      assert PrevDay(d) == Date(d.year - 1, 12, 31);
    }
  }

  function Abs(n: int): nat {
    if n < 0 then -n else n
  }

  /** The date n days after d (before it, for negative n). */
  function AddDays(d: Date, n: int): (r: Date)
    requires ValidDate(d)
    ensures ValidDate(r)
    decreases Abs(n)
  {
    if n > 0 then AddDays(NextDay(d), n - 1)
    else if n < 0 then AddDays(PrevDay(d), n + 1)
    else d
  }

  /** Moving n days moves n places along the day line. */
  lemma {:induction false} AddDaysNumber(d: Date, n: int)
    requires ValidDate(d)
    ensures DayNumber(AddDays(d, n)) == DayNumber(d) + n
    decreases Abs(n)
  {
    if n > 0 {
      AddDaysNumber(NextDay(d), n - 1);
    } else if n < 0 {
      AddDaysNumber(PrevDay(d), n + 1);
    }
  }

  /** Moving a day forward and then n - 1 days is moving n days. */
  lemma AddDaysAfterNext(d: Date, n: int)
    requires ValidDate(d)
    ensures AddDays(NextDay(d), n - 1) == AddDays(d, n)
  {
    if n <= 0 {
      NextPrevInverse(d);
    }
  }

  /** Moving a day back and then n + 1 days is moving n days. */
  lemma AddDaysAfterPrev(d: Date, n: int)
    requires ValidDate(d)
    ensures AddDays(PrevDay(d), n + 1) == AddDays(d, n)
  {
    if n >= 0 {
      NextPrevInverse(d);
    }
  }

  /** Moving a days and then b days is moving a + b days. */
  lemma {:induction false} AddDaysAdditive(d: Date, a: int, b: int)
    requires ValidDate(d)
    ensures AddDays(AddDays(d, a), b) == AddDays(d, a + b)
    decreases Abs(a)
  {
    if a > 0 {
      calc {
        AddDays(AddDays(d, a), b);
        AddDays(AddDays(NextDay(d), a - 1), b);
        { AddDaysAdditive(NextDay(d), a - 1, b); }
        AddDays(NextDay(d), (a + b) - 1);
        { AddDaysAfterNext(d, a + b); }
        AddDays(d, a + b);
      }
    } else if a < 0 {
      calc {
        AddDays(AddDays(d, a), b);
        AddDays(AddDays(PrevDay(d), a + 1), b);
        { AddDaysAdditive(PrevDay(d), a + 1, b); }
        AddDays(PrevDay(d), (a + b) + 1);
        { AddDaysAfterPrev(d, a + b); }
        AddDays(d, a + b);
      }
    }
  }

  /** Moving n days and then n days back returns to the same date. */
  lemma AddDaysInverse(d: Date, n: int)
    requires ValidDate(d)
    ensures AddDays(AddDays(d, n), -n) == d
  {
    AddDaysAdditive(d, n, -n);
    assert n + -n == 0;
    assert AddDays(d, 0) == d;
  }
}
