/**
 * The calendar navigation state of `useCalendarView`: a view mode and the
 * date the calendar is showing. `SetView` switches the mode and aligns the
 * date to the first of its month; `Navigate` moves one week or one month
 * backwards or forwards, computing the new date with the same `Date` setters
 * the hook uses.
 */
module CalendarNavigation {
  import opened Dates

  datatype ViewMode = Week | Month

  datatype Direction = Prev | Next

  /** The day offset of one week step in the given direction. */
  function WeekOffset(dir: Direction): int {
    if dir == Next then 7 else -7
  }

  /** The offset of one month step in the given direction. */
  function MonthOffset(dir: Direction): int {
    if dir == Next then 1 else -1
  }

  /** Day 1 of the month before or after d's month. */
  function AdjacentMonthStart(d: Date, dir: Direction): (r: Date)
    requires ValidDate(d)
    ensures ValidDate(r) && r.day == 1
    ensures 12 * r.year + r.month == 12 * d.year + d.month + MonthOffset(dir)
  {
    var (y, m) := if dir == Next then NextMonth(d.year, d.month) else PrevMonth(d.year, d.month);
    Date(y, m, 1)
  }

  /** Where one navigation step from d leads in the given view. */
  function NavigatedDate(view: ViewMode, d: Date, dir: Direction): (r: Date)
    requires ValidDate(d)
    ensures ValidDate(r)
  {
    match view
    case Week => AddDays(d, WeekOffset(dir))
    case Month => AdjacentMonthStart(d, dir)
  }

  /**
   * Month navigation sets the day to 1 before it changes the month, so the
   * result is day 1 of the very next (or previous) month whatever day of the
   * month d is, the 29th to 31st included.
   */
  lemma MonthStepFromFirst(d: Date, dir: Direction)
    requires ValidDate(d)
    ensures SetMonth(SetDate(d, 1), MonthIndex(SetDate(d, 1)) + MonthOffset(dir)) == AdjacentMonthStart(d, dir)
  {
    SetDateInMonth(d, 1);
    var first := SetDate(d, 1);
    var i := MonthIndex(first) + MonthOffset(dir);
    SetMonthOnFirst(first, i);
    if dir == Next && d.month == 12 {
      assert i == 12 && i / 12 == 1 && i % 12 == 0;
    } else if dir == Prev && d.month == 1 {
      assert i == -1 && i / 12 == -1 && i % 12 == 11;
    } else {
      assert 0 <= i < 12 && i / 12 == 0 && i % 12 == i;
    }
  }

  /**
   * Without the `setDate(1)` step, moving forward from January 31st would
   * overflow February and land on March 3rd, skipping a month.
   */
  lemma MonthStepWithoutAlignmentSkips()
    ensures SetMonth(Date(2025, 1, 31), MonthIndex(Date(2025, 1, 31)) + 1) == Date(2025, 3, 3)
  {
    assert DaysInMonth(2025, 2) == 28;
    assert MakeDay(2025, 2, 31) == MakeDay(2025, 3, 3);
  }

  /** A week step forward then back restores the date; in month view it yields day 1 of the same month (`setDate(1)`). */
  lemma NavigateRoundTrip(view: ViewMode, d: Date)
    requires ValidDate(d)
    ensures NavigatedDate(view, NavigatedDate(view, d, Next), Prev) == (if view == Week then d else SetDate(d, 1))
    ensures NavigatedDate(view, NavigatedDate(view, d, Prev), Next) == (if view == Week then d else SetDate(d, 1))
  {
    match view
    case Week =>
      AddDaysRoundTrip(d, 7);
      AddDaysRoundTrip(d, -7);
    case Month =>
      MonthStepsInverse(d.year, d.month);
      SetDateInMonth(d, 1);
  }

  /** Week steps roll over month and year ends: December 29th, 2025 plus a week is January 5th, 2026. */
  lemma WeekStepAcrossYearEnd()
    ensures NavigatedDate(Week, Date(2025, 12, 29), Next) == Date(2026, 1, 5)
    ensures NavigatedDate(Week, Date(2026, 1, 5), Prev) == Date(2025, 12, 29)
  {
    SetDateAddsDays(Date(2025, 12, 29), 7);
    assert MakeDay(2025, 12, 36) == MakeDay(2026, 1, 5);
    SetDateAddsDays(Date(2026, 1, 5), -7);
    assert MakeDay(2026, 1, -2) == MakeDay(2025, 12, 29);
  }

  /** Week steps follow the leap-year rule for February. */
  lemma WeekStepAcrossFebruary()
    ensures NavigatedDate(Week, Date(2024, 2, 26), Next) == Date(2024, 3, 4)
    ensures NavigatedDate(Week, Date(2025, 2, 26), Next) == Date(2025, 3, 5)
  {
    SetDateAddsDays(Date(2024, 2, 26), 7);
    assert MakeDay(2024, 2, 33) == MakeDay(2024, 3, 4);
    SetDateAddsDays(Date(2025, 2, 26), 7);
    assert MakeDay(2025, 2, 33) == MakeDay(2025, 3, 5);
  }

  /** Month steps roll over the year: December goes to January, January back to December. */
  lemma MonthStepAcrossYearEnd(y: int, day: int)
    requires 1 <= day <= 31
    ensures NavigatedDate(Month, Date(y, 12, day), Next) == Date(y + 1, 1, 1)
    ensures NavigatedDate(Month, Date(y, 1, day), Prev) == Date(y - 1, 12, 1)
  {
  }

  /**
   * Aligning twice is aligning once. Aligning keeps a date exactly when it is
   * day 1 and its year is not one the constructor moves (0 to 99).
   */
  lemma AlignIdempotent(d: Date)
    requires ValidDate(d)
    ensures MonthStart(MonthStart(d)) == MonthStart(d)
    ensures MonthStart(d) == d <==> d.day == 1 && !(0 <= d.year <= 99)
  {
  }

  /** `setView` on March 15th of the year 50 moves the date to March 1st, 1950. */
  lemma SetViewRemapsTwoDigitYear()
    ensures MonthStart(Date(50, 3, 15)) == Date(1950, 3, 1)
  {
  }

  class CalendarView {
    var view: ViewMode
    var currentDate: Date

    ghost predicate Valid()
      reads this
    {
      ValidDate(currentDate)
    }

    /** The hook's initial state; `today` stands for the clock read `new Date()`. */
    constructor (today: Date)
      requires ValidDate(today)
      ensures Valid()
      ensures view == Month && currentDate == today
    {
      view := Month;
      currentDate := today;
    }

    /** `setView`: switch the mode and move the date to day 1 of its month, whichever mode is chosen. */
    method SetView(nextView: ViewMode)
      requires Valid()
      modifies this
      ensures Valid()
      ensures view == nextView
      ensures currentDate == MonthStart(old(currentDate))
    {
      var prevDate := currentDate;
      var alignedDate := MonthStart(prevDate);
      currentDate := if prevDate == alignedDate then prevDate else alignedDate;
      view := nextView;
    }

    /** `setCurrentDate`, as the hook returns it: callers may put any date in place. */
    method SetCurrentDate(d: Date)
      requires Valid() && ValidDate(d)
      modifies this`currentDate
      ensures Valid()
      ensures view == old(view) && currentDate == d
    {
      currentDate := d;
    }

    /** `navigate`: one step in the current view; the view itself is left alone. */
    method Navigate(dir: Direction)
      requires Valid()
      modifies this`currentDate
      ensures Valid()
      ensures view == old(view)
      ensures currentDate == NavigatedDate(view, old(currentDate), dir)
    {
      var newDate := currentDate;
      match view {
        case Week =>
          SetDateAddsDays(newDate, WeekOffset(dir));
          newDate := SetDate(newDate, newDate.day + WeekOffset(dir));
        case Month =>
          MonthStepFromFirst(newDate, dir);
          newDate := SetDate(newDate, 1);
          newDate := SetMonth(newDate, MonthIndex(newDate) + MonthOffset(dir));
      }
      currentDate := newDate;
    }
  }

  /**
   * A client of the class, not part of the hook: it shows what callers can
   * conclude from the method contracts alone (setting the same view twice
   * changes nothing more, and a step forward and back returns).
   */
  method NavigationSession(today: Date)
    requires ValidDate(today)
  {
    var cal := new CalendarView(today);
    cal.SetView(Week);
    var weekStart := cal.currentDate;
    cal.Navigate(Next);
    cal.Navigate(Prev);
    NavigateRoundTrip(Week, weekStart);
    assert cal.currentDate == weekStart && cal.view == Week;
    cal.SetView(Week);
    assert cal.currentDate == weekStart;
    cal.SetView(Month);
    cal.Navigate(Next);
    cal.Navigate(Prev);
    NavigateRoundTrip(Month, weekStart);
    assert cal.currentDate == weekStart && cal.view == Month;
  }
}
