/** The booking calendar (src/components/common/DatePicker.jsx): Gregorian
    month lengths and weekdays, which days are disabled, month-by-month
    navigation bounded below by the month of `minDate`, and the day grid.
    Dates are local calendar days; months use JavaScript's 0-based index. */
module DatePicker {
  import opened Text

  // ------------------------------------------------------------ calendar

  datatype CalDate = CalDate(year: int, month: int, day: int)
  {
    ghost predicate Valid() {
      0 <= month < 12 && 1 <= day <= DaysInMonth(year, month)
    }
  }

  /** A calendar day that a JavaScript Date can denote (months and days normalised). */
  type Day = d: CalDate | 0 <= d.month < 12 && 1 <= d.day <= DaysInMonth(d.year, d.month)
    witness CalDate(1970, 0, 1)

  /** A displayed month: the year and the 0-based month index. */
  datatype CalMonth = CalMonth(year: int, month: int)

  type Month = m: CalMonth | 0 <= m.month < 12 witness CalMonth(1970, 0)

  /** An instant in local time: a calendar day and the milliseconds elapsed since its midnight. */
  datatype Moment = Moment(date: Day, millis: int)

  const MillisPerDay: int := 86400000

  type Instant = m: Moment | 0 <= m.millis < MillisPerDay witness Moment(CalDate(1970, 0, 1), 0)

  predicate IsLeapYear(y: int) {
    y % 4 == 0 && (y % 100 != 0 || y % 400 == 0)
  }

  /** Length of month m of year y. */
  function DaysInMonth(y: int, m: int): (n: int)
    requires 0 <= m < 12
    ensures 28 <= n <= 31
  {
    if m == 1 then (if IsLeapYear(y) then 29 else 28)
    else if m == 3 || m == 5 || m == 8 || m == 10 then 30
    else 31
  }

  /** Days in the months before month m of a common year. */
  const CommonDaysBefore: seq<int> := [0, 31, 59, 90, 120, 151, 181, 212, 243, 273, 304, 334, 365]

  /** Days from 1 January of year y to the first of month m (m == 12 gives the year's length). */
  function DaysBeforeMonth(y: int, m: int): int
    requires 0 <= m <= 12
  {
    CommonDaysBefore[m] + (if m > 1 && IsLeapYear(y) then 1 else 0)
  }

  /** Days from 1 January of year 0 to 1 January of year y (proleptic Gregorian). */
  function DaysBeforeYear(y: int): int {
    365 * y + (y + 3) / 4 - (y + 99) / 100 + (y + 399) / 400
  }

  /** Days since 1 January of year 0. */
  function DayNumber(d: Day): int {
    DaysBeforeYear(d.year) + DaysBeforeMonth(d.year, d.month) + d.day - 1
  }

  /** Day of the week, 0 = Sunday (1 January of year 0 was a Saturday). */
  function Weekday(d: Day): (w: int)
    ensures 0 <= w < 7
  {
    (DayNumber(d) + 6) % 7
  }

  function FirstOf(cm: Month): Day {
    CalDate(cm.year, cm.month, 1)
  }

  function MonthOf(d: Day): Month {
    CalMonth(d.year, d.month)
  }

  /** Months counted from January of year 0. */
  function MonthIndex(cm: Month): int {
    12 * cm.year + cm.month
  }

  /** `new Date(y, m + 1)`: the month after, rolling into January of the next year. */
  function Next(cm: Month): (r: Month)
    ensures MonthIndex(r) == MonthIndex(cm) + 1
  {
    if cm.month == 11 then CalMonth(cm.year + 1, 0) else CalMonth(cm.year, cm.month + 1)
  }

  /** `new Date(y, m - 1)`: the month before, rolling into December of the previous year. */
  function Prev(cm: Month): (r: Month)
    ensures MonthIndex(r) == MonthIndex(cm) - 1
  {
    if cm.month == 0 then CalMonth(cm.year - 1, 11) else CalMonth(cm.year, cm.month - 1)
  }

  lemma MonthIndexInjective(a: Month, b: Month)
    requires MonthIndex(a) == MonthIndex(b)
    ensures a == b
  {
  }

  lemma PrevNextInverse(cm: Month)
    ensures Prev(Next(cm)) == cm && Next(Prev(cm)) == cm
  {
    MonthIndexInjective(Prev(Next(cm)), cm);
    MonthIndexInjective(Next(Prev(cm)), cm);
  }

  // ------------------------------------------------- calendar arithmetic

  /** One more multiple of k lies in (y + k - 1, y + k] exactly when k divides y. */
  lemma QuotientStep4(y: int)
    ensures (y + 4) / 4 - (y + 3) / 4 == if y % 4 == 0 then 1 else 0
  {
  }

  lemma QuotientStep100(y: int)
    ensures (y + 100) / 100 - (y + 99) / 100 == if y % 100 == 0 then 1 else 0
  {
  }

  lemma QuotientStep400(y: int)
    ensures (y + 400) / 400 - (y + 399) / 400 == if y % 400 == 0 then 1 else 0
  {
  }

  /** A year has 366 days when it is a leap year and 365 otherwise. */
  lemma YearLength(y: int)
    ensures DaysBeforeYear(y + 1) - DaysBeforeYear(y) == DaysBeforeMonth(y, 12)
    ensures DaysBeforeMonth(y, 12) == if IsLeapYear(y) then 366 else 365
  {
    QuotientStep4(y);
    QuotientStep100(y);
    QuotientStep400(y);
    assert (y + 1) + 3 == y + 4 && (y + 1) + 99 == y + 100 && (y + 1) + 399 == y + 400;
    if y % 400 == 0 {
      assert y % 4 == 0 && y % 100 == 0 by {
        assert y == 400 * (y / 400);
        assert y == 4 * (100 * (y / 400));
        assert y == 100 * (4 * (y / 400));
      }
    } else if y % 100 == 0 {
      assert y % 4 == 0 by {
        assert y == 100 * (y / 100);
        assert y == 4 * (25 * (y / 100));
      }
    }
  }

  /** The months of a year follow one another without gaps. */
  lemma MonthStep(y: int, m: int)
    requires 0 <= m < 12
    ensures DaysBeforeMonth(y, m + 1) == DaysBeforeMonth(y, m) + DaysInMonth(y, m)
  {
  }

  lemma DaysBeforeMonthMonotone(y: int, m1: int, m2: int)
    requires 0 <= m1 <= m2 <= 12
    ensures DaysBeforeMonth(y, m2) - DaysBeforeMonth(y, m1) >= 28 * (m2 - m1)
    decreases m2 - m1
  {
    if m1 < m2 {
      MonthStep(y, m1);
      DaysBeforeMonthMonotone(y, m1 + 1, m2);
    }
  }

  lemma DaysBeforeYearMonotone(y1: int, y2: int)
    requires y1 <= y2
    ensures DaysBeforeYear(y2) - DaysBeforeYear(y1) >= 365 * (y2 - y1)
    decreases y2 - y1
  {
    if y1 < y2 {
      YearLength(y1);
      DaysBeforeYearMonotone(y1 + 1, y2);
    }
  }

  /** Every day of year y has a day number in [DaysBeforeYear(y), DaysBeforeYear(y + 1)). */
  lemma DayNumberWithinYear(d: Day)
    ensures DaysBeforeYear(d.year) <= DayNumber(d) < DaysBeforeYear(d.year + 1)
  {
    YearLength(d.year);
    MonthStep(d.year, d.month);
    DaysBeforeMonthMonotone(d.year, d.month + 1, 12);
  }

  /** Calendar order: earlier year, or same year and earlier month, or same month and earlier day. */
  predicate EarlierDay(a: Day, b: Day) {
    a.year < b.year
    || (a.year == b.year && a.month < b.month)
    || (a.year == b.year && a.month == b.month && a.day < b.day)
  }

  /** Day numbers follow calendar order. */
  lemma DayNumberMonotone(a: Day, b: Day)
    requires EarlierDay(a, b)
    ensures DayNumber(a) < DayNumber(b)
  {
    if a.year < b.year {
      DayNumberWithinYear(a);
      DayNumberWithinYear(b);
      DaysBeforeYearMonotone(a.year + 1, b.year);
    } else if a.month < b.month {
      MonthStep(a.year, a.month);
      DaysBeforeMonthMonotone(a.year, a.month + 1, b.month);
    }
  }

  /** Distinct calendar days have distinct day numbers. */
  lemma DayNumberInjective(a: Day, b: Day)
    requires DayNumber(a) == DayNumber(b)
    ensures a == b
  {
    if EarlierDay(a, b) {
      DayNumberMonotone(a, b);
    } else if EarlierDay(b, a) {
      DayNumberMonotone(b, a);
    }
  }

  /** The last day of a month is followed by the first of the next month: this is what
      `new Date(y, m + 1, 0).getDate()` reads back as the month's length. */
  lemma LastDayPrecedesNextMonth(cm: Month)
    ensures DayNumber(CalDate(cm.year, cm.month, DaysInMonth(cm.year, cm.month))) + 1 == DayNumber(FirstOf(Next(cm)))
  {
    MonthStep(cm.year, cm.month);
    if cm.month == 11 {
      YearLength(cm.year);
    }
  }

  /** The weekday of the next month's first follows from this month's first and length. */
  lemma NextFirstWeekday(cm: Month)
    ensures Weekday(FirstOf(Next(cm))) == (Weekday(FirstOf(cm)) + DaysInMonth(cm.year, cm.month)) % 7
  {
    LastDayPrecedesNextMonth(cm);
    ShiftRemainder(DayNumber(FirstOf(cm)) + 6, DaysInMonth(cm.year, cm.month));
  }

  /** Adding n to x moves its remainder by 7 as adding n to that remainder does. */
  lemma ShiftRemainder(x: int, n: int)
    ensures (x + n) % 7 == (x % 7 + n) % 7
  {
    assert x == 7 * (x / 7) + x % 7;
    assert x + n == 7 * (x / 7) + (x % 7 + n);
    AddMultipleOfSeven(x % 7 + n, x / 7);
  }

  lemma AddMultipleOfSeven(a: int, j: int)
    ensures (7 * j + a) % 7 == a % 7
  {
  }

  /** 1 January 1970, the epoch, was a Thursday. */
  lemma EpochWasThursday()
    ensures Weekday(CalDate(1970, 0, 1)) == 4
  {
  }

  // ------------------------------------------------------ disabled days

  /** Milliseconds since 1 January of year 0, local time: what `<` on two Dates compares. */
  function Timestamp(m: Moment): int {
    DayNumber(m.date) * MillisPerDay + m.millis
  }

  /** `new Date(y, m, d)`: local midnight of a day. */
  function Midnight(d: Day): Instant {
    Moment(d, 0)
  }

  /** Some entry of `disabledDates` falls on day d (`toDateString` equality is day equality). */
  predicate Listed(d: Day, disabledDates: seq<Instant>) {
    exists i | 0 <= i < |disabledDates| :: disabledDates[i].date == d
  }

  /** `isDateDisabled(date)` for the midnight of day d. */
  predicate IsDateDisabled(d: Day, minDate: Instant, disabledDates: seq<Instant>) {
    (Timestamp(Midnight(d)) < Timestamp(minDate) && d != minDate.date)
    || Listed(d, disabledDates)
  }

  /** A day is disabled exactly when it lies on an earlier calendar day than `minDate`
      or is listed: the time of day of `minDate` never disables its own day. */
  lemma IsDateDisabledIff(d: Day, minDate: Instant, disabledDates: seq<Instant>)
    ensures IsDateDisabled(d, minDate, disabledDates)
        <==> EarlierDay(d, minDate.date) || Listed(d, disabledDates)
  {
    var a, b := DayNumber(d), DayNumber(minDate.date);
    if EarlierDay(d, minDate.date) {
      DayNumberMonotone(d, minDate.date);
      assert a * MillisPerDay < b * MillisPerDay;
      assert d != minDate.date;
    } else if d == minDate.date {
    } else {
      assert EarlierDay(minDate.date, d);
      DayNumberMonotone(minDate.date, d);
      assert b * MillisPerDay + MillisPerDay <= a * MillisPerDay;
    }
  }

  /** The day of `minDate` is never disabled by the minimum rule, whatever its time. */
  lemma MinDayNotDisabledByMinimum(minDate: Instant, disabledDates: seq<Instant>)
    ensures IsDateDisabled(minDate.date, minDate, disabledDates) <==> Listed(minDate.date, disabledDates)
  {
  }

  /** A listed day is disabled even when it comes after `minDate`. */
  lemma ListedDayDisabled(d: Day, minDate: Instant, disabledDates: seq<Instant>, i: int)
    requires 0 <= i < |disabledDates| && disabledDates[i].date == d
    ensures IsDateDisabled(d, minDate, disabledDates)
  {
  }

  // --------------------------------------------------------- navigation

  /** `canGoPrevious()`: the first of the previous month is not before the first of `minDate`'s month. */
  predicate CanGoPrevious(current: Month, minDate: Instant) {
    Timestamp(Midnight(FirstOf(Prev(current)))) >= Timestamp(Midnight(FirstOf(MonthOf(minDate.date))))
  }

  /** The previous-month button is enabled exactly when the previous month is not earlier than `minDate`'s month. */
  lemma CanGoPreviousIff(current: Month, minDate: Instant)
    ensures CanGoPrevious(current, minDate) <==> MonthIndex(Prev(current)) >= MonthIndex(MonthOf(minDate.date))
  {
    var p, q := FirstOf(Prev(current)), FirstOf(MonthOf(minDate.date));
    if EarlierDay(p, q) {
      DayNumberMonotone(p, q);
      assert DayNumber(p) * MillisPerDay < DayNumber(q) * MillisPerDay;
    } else if EarlierDay(q, p) {
      DayNumberMonotone(q, p);
      assert DayNumber(q) * MillisPerDay < DayNumber(p) * MillisPerDay;
    }
  }

  /** A cell of the calendar grid. */
  datatype Cell = Blank | DayCell(day: int, disabled: bool, selected: bool, today: bool)

  /** The cell `renderDays` produces for day `day` of month cm. */
  function DayCellOf(cm: Month, day: int, minDate: Instant, disabledDates: seq<Instant>,
                     selectedDate: Option<Day>, now: Instant): Cell
    requires 1 <= day <= DaysInMonth(cm.year, cm.month)
  {
    var d: Day := CalDate(cm.year, cm.month, day);
    DayCell(day, IsDateDisabled(d, minDate, disabledDates),
            selectedDate.Some? && selectedDate.value == d, d == now.date)
  }

  /** The calendar widget: the displayed month is its state; the other fields are the props it is rendered with. */
  class Calendar {
    var currentMonth: Month
    var selectedDate: Option<Day>
    var minDate: Instant
    var disabledDates: seq<Instant>

    /** Mounting: the displayed month is the selected date's month, or the month of `now`. */
    constructor(selectedDate: Option<Day>, minDate: Instant, disabledDates: seq<Instant>, now: Instant)
      ensures currentMonth == if selectedDate.Some? then MonthOf(selectedDate.value) else MonthOf(now.date)
      ensures this.selectedDate == selectedDate && this.minDate == minDate && this.disabledDates == disabledDates
    {
      currentMonth := if selectedDate.Some? then MonthOf(selectedDate.value) else MonthOf(now.date);
      this.selectedDate := selectedDate;
      this.minDate := minDate;
      this.disabledDates := disabledDates;
    }

    /** `previousMonth`: one month back, December of the previous year after January. */
    method PreviousMonth()
      modifies this`currentMonth
      ensures MonthIndex(currentMonth) == MonthIndex(old(currentMonth)) - 1
      ensures currentMonth == Prev(old(currentMonth))
    {
      currentMonth := Prev(currentMonth);
    }

    /** `nextMonth`: one month forward, January of the next year after December. */
    method NextMonth()
      modifies this`currentMonth
      ensures MonthIndex(currentMonth) == MonthIndex(old(currentMonth)) + 1
      ensures currentMonth == Next(old(currentMonth))
    {
      currentMonth := Next(currentMonth);
    }

    /** A press on the previous-month button, which is disabled unless `canGoPrevious()`. */
    method ClickPrevious()
      modifies this`currentMonth
      ensures CanGoPrevious(old(currentMonth), minDate) ==> currentMonth == Prev(old(currentMonth))
      ensures !CanGoPrevious(old(currentMonth), minDate) ==> currentMonth == old(currentMonth)
      ensures MonthIndex(old(currentMonth)) > MonthIndex(MonthOf(minDate.date))
          ==> MonthIndex(currentMonth) >= MonthIndex(MonthOf(minDate.date))
    {
      CanGoPreviousIff(currentMonth, minDate);
      if CanGoPrevious(currentMonth, minDate) {
        PreviousMonth();
      }
    }

    /** `handleDateClick(day)`: the day reported to `onDateSelect`, or `None` when it is disabled. */
    method HandleDateClick(day: int) returns (selected: Option<Day>)
      requires 1 <= day <= DaysInMonth(currentMonth.year, currentMonth.month)
      ensures selected.Some? <==> !IsDateDisabled(CalDate(currentMonth.year, currentMonth.month, day), minDate, disabledDates)
      ensures selected.Some? ==> selected.value == CalDate(currentMonth.year, currentMonth.month, day)
      ensures selected.Some? ==> !EarlierDay(selected.value, minDate.date) && !Listed(selected.value, disabledDates)
    {
      var date: Day := CalDate(currentMonth.year, currentMonth.month, day);
      IsDateDisabledIff(date, minDate, disabledDates);
      if !IsDateDisabled(date, minDate, disabledDates) {
        selected := Some(date);
      } else {
        selected := None;
      }
    }

    /** `renderDays()`: one blank per weekday before the 1st, then one cell per day of the month. */
    method RenderDays(now: Instant) returns (cells: seq<Cell>)
      ensures |cells| == Weekday(FirstOf(currentMonth)) + DaysInMonth(currentMonth.year, currentMonth.month)
      ensures forall i :: 0 <= i < Weekday(FirstOf(currentMonth)) ==> cells[i] == Blank
      ensures forall i :: Weekday(FirstOf(currentMonth)) <= i < |cells| ==>
                cells[i] == DayCellOf(currentMonth, i - Weekday(FirstOf(currentMonth)) + 1,
                                      minDate, disabledDates, selectedDate, now)
    {
      var cm := currentMonth;
      var daysInMonth := DaysInMonth(cm.year, cm.month);
      var firstDayOfMonth := Weekday(FirstOf(cm));
      cells := [];
      var i := 0;
      while i < firstDayOfMonth
        invariant 0 <= i <= firstDayOfMonth
        invariant |cells| == i
        invariant forall j :: 0 <= j < i ==> cells[j] == Blank
      {
        cells := cells + [Blank];
        i := i + 1;
      }
      var day := 1;
      while day <= daysInMonth
        invariant 1 <= day <= daysInMonth + 1
        invariant |cells| == firstDayOfMonth + day - 1
        invariant forall j :: 0 <= j < firstDayOfMonth ==> cells[j] == Blank
        invariant forall j :: firstDayOfMonth <= j < |cells| ==>
                    cells[j] == DayCellOf(cm, j - firstDayOfMonth + 1, minDate, disabledDates, selectedDate, now)
      {
        cells := cells + [DayCellOf(cm, day, minDate, disabledDates, selectedDate, now)];
        day := day + 1;
      }
    }
  }

  /** Gregorian month lengths, leap Februaries included. */
  lemma DaysInMonthExamples()
    ensures DaysInMonth(2024, 1) == 29 && DaysInMonth(2023, 1) == 28
    ensures DaysInMonth(2000, 1) == 29 && DaysInMonth(1900, 1) == 28
    ensures DaysInMonth(2025, 3) == 30 && DaysInMonth(2025, 11) == 31
  {
  }
}
