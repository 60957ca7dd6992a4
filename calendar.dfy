/** Gregorian dates and times of day in the shape of Python's `datetime`
    module, and the previous-calendar-month window the pricing report runs
    over (`get_first_day_of_previous_month`, `get_last_day_of_previous_month`). */
module Calendar {
  import opened Wrappers

  /** The year range of Python's `date` (`MINYEAR`, `MAXYEAR`). */
  const MinYear: int := 1
  const MaxYear: int := 9999

  datatype Date = Date(year: int, month: int, day: int)

  predicate IsLeapYear(year: int) {
    year % 4 == 0 && (year % 100 != 0 || year % 400 == 0)
  }

  function DaysInMonth(year: int, month: int): (n: int)
    requires 1 <= month <= 12
    ensures 28 <= n <= 31
    ensures month == 2 ==> (n == 29 <==> IsLeapYear(year))
  {
    if month == 2 then (if IsLeapYear(year) then 29 else 28)
    else if month == 4 || month == 6 || month == 9 || month == 11 then 30
    else 31
  }

  /** A date Python's `date` can hold. */
  predicate ValidDate(d: Date) {
    MinYear <= d.year <= MaxYear && 1 <= d.month <= 12 && 1 <= d.day <= DaysInMonth(d.year, d.month)
  }

  /** Chronological order on dates: lexicographic on (year, month, day). */
  predicate DateBefore(a: Date, b: Date) {
    a.year < b.year || (a.year == b.year && (a.month < b.month || (a.month == b.month && a.day < b.day)))
  }

  /** The calendar month before (`year`, `month`). */
  function PreviousMonth(year: int, month: int): (int, int) {
    if month == 1 then (year - 1, 12) else (year, month - 1)
  }

  /** `d.replace(day=1)`: always valid, since every month has a day 1. */
  function FirstDayOfMonth(d: Date): (r: Date)
    requires ValidDate(d)
    ensures ValidDate(r) && r.year == d.year && r.month == d.month && r.day == 1
    ensures !DateBefore(d, r)
  {
    d.(day := 1)
  }

  /** The day after `d` (the partner of PreviousDay; it may leave Python's
      year range after 9999-12-31). */
  function NextDay(d: Date): Date
    requires ValidDate(d)
  {
    if d.day < DaysInMonth(d.year, d.month) then d.(day := d.day + 1)
    else if d.month < 12 then Date(d.year, d.month + 1, 1)
    else Date(d.year + 1, 1, 1)
  }

  /** `d - timedelta(days=1)`; `None` where Python raises OverflowError,
      which is only before 0001-01-01. The result is the immediate
      predecessor of `d`: earlier than `d`, with no valid date in between. */
  function PreviousDay(d: Date): (r: Option<Date>)
    requires ValidDate(d)
    ensures r.None? <==> d == Date(MinYear, 1, 1)
    ensures r.Some? ==> ValidDate(r.value) && DateBefore(r.value, d) && NextDay(r.value) == d
    ensures r.Some? ==> forall e :: ValidDate(e) && DateBefore(r.value, e) ==> !DateBefore(e, d)
  {
    if d.day > 1 then Some(d.(day := d.day - 1))
    else if d.month > 1 then Some(Date(d.year, d.month - 1, DaysInMonth(d.year, d.month - 1)))
    else if d.year > MinYear then Some(Date(d.year - 1, 12, 31))
    else None
  }

  /** Microseconds in one day; a time of day is a count of microseconds
      since midnight, below this bound. */
  const MicrosecondsPerDay: int := 86_400_000_000

  /** `datetime.min.time()`, 00:00:00. */
  const MinTime: int := 0

  /** `datetime.max.time()`, 23:59:59.999999. */
  const MaxTime: int := MicrosecondsPerDay - 1

  /** A naive `datetime`: a date and a time of day. */
  datatype DateTime = DateTime(date: Date, micro: int)

  predicate ValidDateTime(t: DateTime) {
    ValidDate(t.date) && MinTime <= t.micro <= MaxTime
  }

  /** `a <= b` on datetimes. */
  predicate DateTimeAtMost(a: DateTime, b: DateTime) {
    DateBefore(a.date, b.date) || (a.date == b.date && a.micro <= b.micro)
  }

  /** `get_first_day_of_previous_month` for a given `today`: day 1 of the
      month before today's month, at 00:00. `None` where the step back
      raises, which is in January of year 1 only. */
  function FirstDayOfPreviousMonth(today: Date): (r: Option<DateTime>)
    requires ValidDate(today)
    ensures r.None? <==> today.year == MinYear && today.month == 1
    ensures r.Some? ==>
      var (y, m) := PreviousMonth(today.year, today.month);
      ValidDateTime(r.value) && r.value == DateTime(Date(y, m, 1), MinTime)
  {
    match PreviousDay(FirstDayOfMonth(today))
    case None => None
    case Some(p) => Some(DateTime(p.(day := 1), MinTime))
  }

  /** `get_last_day_of_previous_month` for a given `today`: the day before
      day 1 of today's month, at the last instant of that day; that day is
      the last day of the previous month. */
  function LastDayOfPreviousMonth(today: Date): (r: Option<DateTime>)
    requires ValidDate(today)
    ensures r.None? <==> today.year == MinYear && today.month == 1
    ensures r.Some? ==>
      var (y, m) := PreviousMonth(today.year, today.month);
      ValidDateTime(r.value) && r.value == DateTime(Date(y, m, DaysInMonth(y, m)), MaxTime)
    ensures r.Some? ==> NextDay(r.value.date) == FirstDayOfMonth(today)
  {
    match PreviousDay(FirstDayOfMonth(today))
    case None => None
    case Some(p) => Some(DateTime(p, MaxTime))
  }

  /** The window is one whole calendar month that ends just before today's
      month: start no later than end, both in the same month, neither in
      today's month, and a valid datetime lies in [start, end] exactly when
      it falls in the month before today's (across the year change too). */
  lemma PreviousMonthWindow(today: Date, t: DateTime)
    requires ValidDate(today) && ValidDateTime(t)
    requires FirstDayOfPreviousMonth(today).Some?
    ensures LastDayOfPreviousMonth(today).Some?
    ensures
      var first := FirstDayOfPreviousMonth(today).value;
      var last := LastDayOfPreviousMonth(today).value;
      && DateTimeAtMost(first, last)
      && first.date.year == last.date.year && first.date.month == last.date.month
      && DateBefore(last.date, FirstDayOfMonth(today))
      && (first.date.year, first.date.month) != (today.year, today.month)
      && (DateTimeAtMost(first, t) && DateTimeAtMost(t, last)
          <==> (t.date.year, t.date.month) == PreviousMonth(today.year, today.month))
  {
  }

  /** The year change: in January the window is the previous December. */
  lemma JanuaryWindowIsPreviousDecember()
    ensures FirstDayOfPreviousMonth(Date(2025, 1, 15)) == Some(DateTime(Date(2024, 12, 1), MinTime))
    ensures LastDayOfPreviousMonth(Date(2025, 1, 15)) == Some(DateTime(Date(2024, 12, 31), MaxTime))
  {
  }

  /** A leap year: in March 2024 the window ends on 29 February. */
  lemma LeapFebruaryWindow()
    ensures LastDayOfPreviousMonth(Date(2024, 3, 10)) == Some(DateTime(Date(2024, 2, 29), MaxTime))
    ensures LastDayOfPreviousMonth(Date(2023, 3, 10)) == Some(DateTime(Date(2023, 2, 28), MaxTime))
  {
  }
}
