/**
  Calendar dates as the record tables hold them, and the three ways the
  reports bucket them: by day, by pandas week (Monday to Sunday) and by
  calendar month.
 */
module Calendar {

  /** A date of the proleptic Gregorian calendar. */
  datatype Date = Date(year: int, month: int, day: int)

  predicate IsLeapYear(y: int) {
    y % 4 == 0 && (y % 100 != 0 || y % 400 == 0)
  }

  function DaysInMonth(y: int, m: int): int
    requires 1 <= m <= 12
  {
    if m == 2 then (if IsLeapYear(y) then 29 else 28)
    else if m == 4 || m == 6 || m == 9 || m == 11 then 30
    else 31
  }

  predicate ValidDate(d: Date) {
    1 <= d.month <= 12 && 1 <= d.day <= DaysInMonth(d.year, d.month)
  }

  /** Chronological order of dates: by year, then month, then day. */
  predicate DateLe(a: Date, b: Date) {
    a.year < b.year || (a.year == b.year && (a.month < b.month || (a.month == b.month && a.day <= b.day)))
  }

  /** The days before the first of March of (March-based) year `y`,
      counted from 1970-01-01: 365 a year plus the Gregorian leap days. */
  function MarchFirst(y: int): int {
    365 * y + y / 4 - y / 100 + y / 400 - 719468
  }

  /** The days from the first of March to the first of the month `mp`
      months later (`mp` in 0..11, March being 0). */
  function MonthOffset(mp: int): int {
    (153 * mp + 2) / 5
  }

  /** Days since 1970-01-01: the count of days before the date in a calendar
      whose years start on the first of March (so that the leap day is the
      last day of a year). January and February belong to the year before.
      Meaningful for valid dates. */
  function DayNumber(d: Date): int {
    var y := if d.month <= 2 then d.year - 1 else d.year;
    MarchFirst(y) + MonthOffset((d.month + 9) % 12) + d.day - 1
  }

  /** The next day of the same month is the next day number. */
  lemma NextDayInMonth(d: Date)
    requires ValidDate(d) && d.day < DaysInMonth(d.year, d.month)
    ensures ValidDate(Date(d.year, d.month, d.day + 1))
    ensures DayNumber(Date(d.year, d.month, d.day + 1)) == DayNumber(d) + 1
  {
  }

  /** The quotient by `k` grows by one exactly at the multiples of `k`. */
  lemma DivStep(x: int, k: int)
    requires k == 4 || k == 100 || k == 400
    ensures (x + 1) / k == x / k + (if (x + 1) % k == 0 then 1 else 0)
  {
    if k == 4 {
      assert (x + 1) / 4 == x / 4 + (if (x + 1) % 4 == 0 then 1 else 0);
    } else if k == 100 {
      assert (x + 1) / 100 == x / 100 + (if (x + 1) % 100 == 0 then 1 else 0);
    } else {
      assert (x + 1) / 400 == x / 400 + (if (x + 1) % 400 == 0 then 1 else 0);
    }
  }

  /** A March-based year has 366 days when the February that ends it has
      a 29th, and 365 otherwise. */
  lemma MarchYearLength(y: int)
    ensures MarchFirst(y + 1) - MarchFirst(y) == if IsLeapYear(y + 1) then 366 else 365
  {
    DivStep(y, 4);
    DivStep(y, 100);
    DivStep(y, 400);
  }

  /** The month offsets: the first of each month counted from the first of
      March. */
  lemma MonthOffsets()
    ensures MonthOffset(0) == 0 && MonthOffset(1) == 31 && MonthOffset(2) == 61 && MonthOffset(3) == 92
    ensures MonthOffset(4) == 122 && MonthOffset(5) == 153 && MonthOffset(6) == 184 && MonthOffset(7) == 214
    ensures MonthOffset(8) == 245 && MonthOffset(9) == 275 && MonthOffset(10) == 306 && MonthOffset(11) == 337
  {
  }

  /** Outside February, a month's length is the gap between its offset and
      the next month's. */
  lemma MonthLength(y: int, m: int)
    requires 1 <= m < 12 && m != 2
    ensures DaysInMonth(y, m) == MonthOffset((m + 10) % 12) - MonthOffset((m + 9) % 12)
  {
    MonthOffsets();
    if m == 1 {
      assert (m + 9) % 12 == 10 && (m + 10) % 12 == 11;
    } else {
      assert (m + 9) % 12 == m - 3 && (m + 10) % 12 == m - 2;
    }
  }

  /** The day after the last day of a month, December excepted, is the
      first of the next month. */
  lemma NextDayAcrossMonth(d: Date)
    requires ValidDate(d) && d.day == DaysInMonth(d.year, d.month) && d.month < 12
    ensures ValidDate(Date(d.year, d.month + 1, 1))
    ensures DayNumber(Date(d.year, d.month + 1, 1)) == DayNumber(d) + 1
  {
    var next := Date(d.year, d.month + 1, 1);
    var y := if d.month <= 2 then d.year - 1 else d.year;
    var ny := if next.month <= 2 then next.year - 1 else next.year;
    if d.month == 2 {
      MonthOffsets();
      MarchYearLength(y);
      assert ny == y + 1;
      assert MarchFirst(ny) == MarchFirst(y) + MonthOffset(11) + d.day;
    } else {
      MonthLength(d.year, d.month);
      assert ny == y;
      assert MonthOffset((next.month + 9) % 12) == MonthOffset((d.month + 9) % 12) + d.day;
    }
  }

  /** New Year's Day follows the 31st of December. */
  lemma NextDayAcrossYear(y: int)
    ensures DayNumber(Date(y + 1, 1, 1)) == DayNumber(Date(y, 12, 31)) + 1
  {
    MonthOffsets();
  }

  /** Day 0 is 1970-01-01, a Thursday, and 2024-01-01 was a Monday. */
  lemma DayNumberEpoch()
    ensures DayNumber(Date(1970, 1, 1)) == 0
    ensures Weekday(DayNumber(Date(1970, 1, 1))) == 3
    ensures Weekday(DayNumber(Date(2024, 1, 1))) == 0
  {
    MonthOffsets();
    assert MarchFirst(1969) == -306;
    assert MarchFirst(2023) == 19417;
    assert DayNumber(Date(2024, 1, 1)) == 19723;
  }

  /** `dt.weekday()` on a day number: Monday is 0 and Sunday is 6
      (1970-01-01 was a Thursday). */
  function Weekday(n: int): (w: int)
    ensures 0 <= w < 7
  {
    (n + 3) % 7
  }

  /** The first day of the pandas weekly period `'W'` holding day `n`: the
      Monday on or before it. */
  function WeekStart(n: int): (s: int)
    ensures n - 6 <= s <= n
  {
    n - Weekday(n)
  }

  /** The week start is a Monday, and every day of a week has the same
      week start as that Monday. */
  lemma WeekStartIsMonday(n: int)
    ensures Weekday(WeekStart(n)) == 0
    ensures forall m :: WeekStart(n) <= m < WeekStart(n) + 7 ==> WeekStart(m) == WeekStart(n)
  {
    var s := WeekStart(n);
    var q := (n + 3) / 7;
    assert s + 3 == 7 * q;
    forall m | s <= m < s + 7 ensures WeekStart(m) == s {
      SevenfoldPlus(q, m - s);
      assert m + 3 == 7 * q + (m - s);
    }
    SevenfoldPlus(q, 0);
  }

  lemma SevenfoldPlus(q: int, k: int)
    requires 0 <= k < 7
    ensures (7 * q + k) % 7 == k
  {
    var n := 7 * q + k;
    assert n == 7 * (n / 7) + n % 7;
    assert 7 * (q - n / 7) == n % 7 - k;
  }

  /** Two days fall in the same pandas week exactly when they are at most six
      days apart and the later one's weekday is not smaller. */
  lemma SameWeek(m: int, n: int)
    requires m <= n
    ensures WeekStart(m) == WeekStart(n) <==> n - m < 7 && Weekday(m) <= Weekday(n)
  {
    var qm, qn := (m + 3) / 7, (n + 3) / 7;
    assert m + 3 == 7 * qm + Weekday(m);
    assert n + 3 == 7 * qn + Weekday(n);
    assert WeekStart(m) == 7 * qm - 3;
    assert WeekStart(n) == 7 * qn - 3;
  }

  /** The bucket of the monthly report: year and month. */
  datatype MonthKey = MonthKey(year: int, month: int)

  function MonthOf(d: Date): MonthKey {
    MonthKey(d.year, d.month)
  }
}
