/**
 * Naive Gregorian calendar dates and the two JavaScript `Date` setters the
 * calendar view uses. A date is a (year, month, day) triple with no time of
 * day and no time zone; `month` runs from 1 to 12 (JavaScript's `getMonth()`
 * is `month - 1`).
 *
 * `setDate(n)` and `setMonth(i)` accept out-of-range arguments and carry the
 * excess into neighbouring months and years. `MakeDay` models that
 * normalisation: it places "day x of month (y, m)" on the calendar for any
 * integer x. `AddDays`, defined by stepping one day at a time, is the
 * independent reference it is proved against.
 */
module Dates {

  datatype Date = Date(year: int, month: int, day: int)

  predicate IsLeapYear(y: int) {
    (y % 4 == 0 && y % 100 != 0) || y % 400 == 0
  }

  function DaysInMonth(y: int, m: int): (n: int)
    requires 1 <= m <= 12
    ensures 28 <= n <= 31
    ensures m == 2 ==> (n == 29 <==> IsLeapYear(y))
    ensures m != 2 ==> n >= 30
  {
    if m == 2 then (if IsLeapYear(y) then 29 else 28)
    else if m == 4 || m == 6 || m == 9 || m == 11 then 30
    else 31
  }

  predicate ValidDate(d: Date) {
    1 <= d.month <= 12 && 1 <= d.day <= DaysInMonth(d.year, d.month)
  }

  /** The month after (y, m), rolling December over into January. */
  function NextMonth(y: int, m: int): (r: (int, int))
    requires 1 <= m <= 12
    ensures 1 <= r.1 <= 12 && 12 * r.0 + r.1 == 12 * y + m + 1
  {
    if m == 12 then (y + 1, 1) else (y, m + 1)
  }

  /** The month before (y, m), rolling January back into December. */
  function PrevMonth(y: int, m: int): (r: (int, int))
    requires 1 <= m <= 12
    ensures 1 <= r.1 <= 12 && 12 * r.0 + r.1 == 12 * y + m - 1
  {
    if m == 1 then (y - 1, 12) else (y, m - 1)
  }

  lemma MonthStepsInverse(y: int, m: int)
    requires 1 <= m <= 12
    ensures PrevMonth(NextMonth(y, m).0, NextMonth(y, m).1) == (y, m)
    ensures NextMonth(PrevMonth(y, m).0, PrevMonth(y, m).1) == (y, m)
  {
  }

  /** The day after d. */
  function NextDay(d: Date): (r: Date)
    requires ValidDate(d)
    ensures ValidDate(r)
  {
    if d.day < DaysInMonth(d.year, d.month) then Date(d.year, d.month, d.day + 1)
    else Date(NextMonth(d.year, d.month).0, NextMonth(d.year, d.month).1, 1)
  }

  /** The day before d. */
  function PrevDay(d: Date): (r: Date)
    requires ValidDate(d)
    ensures ValidDate(r)
  {
    if d.day > 1 then Date(d.year, d.month, d.day - 1)
    else
      var (py, pm) := PrevMonth(d.year, d.month);
      Date(py, pm, DaysInMonth(py, pm))
  }

  lemma DayStepsInverse(d: Date)
    requires ValidDate(d)
    ensures PrevDay(NextDay(d)) == d
    ensures NextDay(PrevDay(d)) == d
  {
    MonthStepsInverse(d.year, d.month);
  }

  /** The date n days after d (before it when n is negative), one day at a time. */
  function AddDays(d: Date, n: int): (r: Date)
    requires ValidDate(d)
    ensures ValidDate(r)
    decreases if n < 0 then -n else n
  {
    if n == 0 then d
    else if n > 0 then AddDays(NextDay(d), n - 1)
    else AddDays(PrevDay(d), n + 1)
  }

  /**
   * JavaScript's normalisation of "day x of month (y, m)": a day number below 1
   * borrows from the previous month, one above the month's length carries into
   * the next month, repeatedly, until it lands on a real date.
   */
  function MakeDay(y: int, m: int, x: int): (d: Date)
    requires 1 <= m <= 12
    ensures ValidDate(d)
    ensures 1 <= x <= DaysInMonth(y, m) ==> d == Date(y, m, x)
    decreases if x < 1 then 1 - x else 0, if x < 1 then 0 else x
  {
    if x < 1 then
      var (py, pm) := PrevMonth(y, m);
      MakeDay(py, pm, x + DaysInMonth(py, pm))
    else if x > DaysInMonth(y, m) then
      var (ny, nm) := NextMonth(y, m);
      MakeDay(ny, nm, x - DaysInMonth(y, m))
    else
      Date(y, m, x)
  }

  /** `date.setDate(n)`: day n of d's month, normalised. */
  function SetDate(d: Date, n: int): Date
    requires 1 <= d.month <= 12
  {
    MakeDay(d.year, d.month, n)
  }

  /**
   * `date.setMonth(i)` with the zero-based month index i: the year absorbs
   * whole multiples of twelve (floor division, as in JavaScript), and d's day
   * is kept and normalised in the target month.
   */
  function SetMonth(d: Date, i: int): Date {
    MakeDay(d.year + i / 12, i % 12 + 1, d.day)
  }

  /** `date.getMonth()`: the zero-based month index. */
  function MonthIndex(d: Date): int {
    d.month - 1
  }

  /** Day number x + 1 of a month is the day after day number x, for every integer x. */
  lemma {:induction false} MakeDaySucc(y: int, m: int, x: int)
    requires 1 <= m <= 12
    ensures MakeDay(y, m, x + 1) == NextDay(MakeDay(y, m, x))
    decreases if x < 1 then 1 - x else 0, if x < 1 then 0 else x
  {
    var (py, pm) := PrevMonth(y, m);
    var (ny, nm) := NextMonth(y, m);
    if x < 0 {
      MakeDaySucc(py, pm, x + DaysInMonth(py, pm));
    } else if x == 0 {
      MonthStepsInverse(y, m);
      assert MakeDay(y, m, 0) == Date(py, pm, DaysInMonth(py, pm));
    } else if x > DaysInMonth(y, m) {
      MakeDaySucc(ny, nm, x - DaysInMonth(y, m));
    } else if x == DaysInMonth(y, m) {
      assert MakeDay(y, m, x + 1) == MakeDay(ny, nm, 1);
    }
  }

  /** Day number x - 1 of a month is the day before day number x. */
  lemma MakeDayPred(y: int, m: int, x: int)
    requires 1 <= m <= 12
    ensures MakeDay(y, m, x - 1) == PrevDay(MakeDay(y, m, x))
  {
    MakeDaySucc(y, m, x - 1);
    DayStepsInverse(MakeDay(y, m, x - 1));
  }

  /** Shifting the day number by k moves the normalised date by exactly k days. */
  lemma {:induction false} MakeDayShift(y: int, m: int, x: int, k: int)
    requires 1 <= m <= 12
    ensures MakeDay(y, m, x + k) == AddDays(MakeDay(y, m, x), k)
    decreases if k < 0 then -k else k
  {
    if k > 0 {
      MakeDaySucc(y, m, x);
      MakeDayShift(y, m, x + 1, k - 1);
    } else if k < 0 {
      MakeDayPred(y, m, x);
      MakeDayShift(y, m, x - 1, k + 1);
    }
  }

  /** `d.setDate(d.getDate() + k)` is the date k days after d, across month and year ends. */
  lemma SetDateAddsDays(d: Date, k: int)
    requires ValidDate(d)
    ensures SetDate(d, d.day + k) == AddDays(d, k)
  {
    MakeDayShift(d.year, d.month, d.day, k);
  }

  /** Moving k days and then -k days returns to the starting date. */
  lemma AddDaysRoundTrip(d: Date, k: int)
    requires ValidDate(d)
    ensures AddDays(AddDays(d, k), -k) == d
  {
    SetDateAddsDays(d, k);
    MakeDayShift(d.year, d.month, d.day + k, -k);
    assert d.day + k + -k == d.day;
  }

  /** Moving a days and then b days is moving a + b days. */
  lemma AddDaysCompose(d: Date, a: int, b: int)
    requires ValidDate(d)
    ensures AddDays(AddDays(d, a), b) == AddDays(d, a + b)
  {
    SetDateAddsDays(d, a);
    SetDateAddsDays(d, a + b);
    MakeDayShift(d.year, d.month, d.day + a, b);
  }

  /**
   * The year the `Date` constructor with several arguments uses: a year from
   * 0 to 99 is read as a year of the twentieth century (1900 + y).
   */
  function FullYear(y: int): int {
    if 0 <= y <= 99 then 1900 + y else y
  }

  /**
   * `alignToMonthStart`, i.e. `new Date(getFullYear(), getMonth(), 1)`: day 1
   * of d's month. Outside the years 0 to 99 it is the day of d's own month
   * that d is d.day - 1 days after; a year from 0 to 99 moves to 1900 + year.
   */
  function MonthStart(d: Date): (r: Date)
    requires ValidDate(d)
    ensures ValidDate(r) && r.day == 1 && r.month == d.month
    ensures !(0 <= d.year <= 99) ==> AddDays(r, d.day - 1) == d
    ensures 0 <= d.year <= 99 ==> r.year == d.year + 1900
  {
    var r := Date(FullYear(d.year), d.month, 1);
    SetDateAddsDays(r, d.day - 1);
    r
  }

  /** Setting the day keeps the year and month when the day fits in the month. */
  lemma SetDateInMonth(d: Date, n: int)
    requires ValidDate(d) && 1 <= n <= DaysInMonth(d.year, d.month)
    ensures SetDate(d, n) == Date(d.year, d.month, n)
  {
  }

  /**
   * `setMonth(i)` on day 1 lands on day 1 of the month i months after January
   * of d's year: day 1 exists in every month, so nothing is carried.
   */
  lemma SetMonthOnFirst(d: Date, i: int)
    requires d.day == 1
    ensures SetMonth(d, i) == Date(d.year + i / 12, i % 12 + 1, 1)
  {
  }
}
