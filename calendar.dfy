// Python's datetime arithmetic as the scheduler and the database use it:
// proleptic Gregorian dates, day ordinals (0001-01-01 is day 1) and instants
// counted in microseconds, so that `timedelta(days=n)` is a shift by n days
// and `replace(hour=0, ...)` rounds down to the start of the day.
module Calendar {
  const MicrosPerDay: int := 86_400_000_000
  const MinYear: int := 1
  const MaxYear: int := 9999

  datatype Date = Date(year: int, month: int, day: int)

  /** A point in time: a date and the microseconds elapsed since its midnight. */
  datatype DateTime = DateTime(date: Date, micro: int)

  predicate IsLeap(y: int)
  {
    y % 4 == 0 && (y % 100 != 0 || y % 400 == 0)
  }

  function DaysInMonth(y: int, m: int): (n: int)
    requires 1 <= m <= 12
    ensures 28 <= n <= 31
  {
    if m == 2 then (if IsLeap(y) then 29 else 28)
    else if m == 4 || m == 6 || m == 9 || m == 11 then 30
    else 31
  }

  predicate ValidDate(d: Date)
  {
    MinYear <= d.year <= MaxYear && 1 <= d.month <= 12 && 1 <= d.day <= DaysInMonth(d.year, d.month)
  }

  predicate ValidDateTime(t: DateTime)
  {
    ValidDate(t.date) && 0 <= t.micro < MicrosPerDay
  }

  /** Days in the years before `y` (year 1 starts at 0). */
  function DaysBeforeYear(y: int): int
  {
    var p := y - 1;
    p * 365 + p / 4 - p / 100 + p / 400
  }

  /** Days in the months of year `y` before month `m`. */
  function DaysBeforeMonth(y: int, m: int): int
    requires 1 <= m <= 12
  {
    if m == 1 then 0 else DaysBeforeMonth(y, m - 1) + DaysInMonth(y, m - 1)
  }

  /** `date.toordinal()`: 0001-01-01 is day 1. */
  function Ordinal(d: Date): int
    requires 1 <= d.month <= 12
  {
    DaysBeforeYear(d.year) + DaysBeforeMonth(d.year, d.month) + d.day
  }

  /** The ordinal of 9999-12-31, the last day a Python datetime can hold. */
  const MaxOrdinal: int := 3652059

  /** `weekday()` of the day with this ordinal: Monday is 0, Sunday is 6. */
  function Weekday(ordinal: int): (w: int)
    ensures 0 <= w < 7
  {
    (ordinal + 6) % 7
  }

  /** An instant in microseconds: day ordinal times a day, plus the time of day. */
  function InstantOf(t: DateTime): int
    requires 1 <= t.date.month <= 12
  {
    Ordinal(t.date) * MicrosPerDay + t.micro
  }

  /** The ordinal of the day an instant falls on. */
  function DayOf(t: int): int
  {
    t / MicrosPerDay
  }

  /** `replace(hour=0, minute=0, second=0, microsecond=0)`. */
  function StartOfDay(t: int): (r: int)
    ensures DayOf(r) == DayOf(t) && r <= t
  {
    DayOf(t) * MicrosPerDay
  }

  /** `replace(hour=23, minute=59, second=59, microsecond=999999)`. */
  function EndOfDay(t: int): (r: int)
    ensures DayOf(r) == DayOf(t) && t <= r
  {
    DayOf(t) * MicrosPerDay + MicrosPerDay - 1
  }

  /** A datetime can hold the instant: its day lies in years 1..9999. */
  predicate Representable(t: int)
  {
    MicrosPerDay <= t < (MaxOrdinal + 1) * MicrosPerDay
  }

  /** An instant lies on day `d` exactly when it is between that day's first and last microsecond. */
  lemma DayOfBounds(t: int, d: int)
    ensures DayOf(t) == d <==> d * MicrosPerDay <= t <= d * MicrosPerDay + MicrosPerDay - 1
  {
  }

  /** The instant of a valid datetime falls on its date's ordinal. */
  lemma InstantOfDay(t: DateTime)
    requires ValidDateTime(t)
    ensures DayOf(InstantOf(t)) == Ordinal(t.date)
  {
    DayOfBounds(InstantOf(t), Ordinal(t.date));
  }

  /** Days in a whole year, as the sum over its months. */
  lemma {:induction false} DaysBeforeMonthIsPrefixSum(y: int)
    ensures DaysBeforeMonth(y, 12) + DaysInMonth(y, 12) == if IsLeap(y) then 366 else 365
  {
    var feb := DaysInMonth(y, 2);
    assert DaysBeforeMonth(y, 2) == 31;
    assert DaysBeforeMonth(y, 4) == 62 + feb;
    assert DaysBeforeMonth(y, 6) == 123 + feb;
    assert DaysBeforeMonth(y, 8) == 184 + feb;
    assert DaysBeforeMonth(y, 10) == 245 + feb;
    assert DaysBeforeMonth(y, 12) == 306 + feb;
  }

  /** Consecutive years are a year's length apart. */
  lemma DaysBeforeNextYear(y: int)
    requires y >= 1
    ensures DaysBeforeYear(y + 1) == DaysBeforeYear(y) + (if IsLeap(y) then 366 else 365)
  {
    var p := y - 1;
    var a, b, c := (if y % 4 == 0 then 1 else 0), (if y % 100 == 0 then 1 else 0), (if y % 400 == 0 then 1 else 0);
    LeapDivStep(y, 4);
    LeapDivStep(y, 100);
    LeapDivStep(y, 400);
    DivisorsOfCentury(y);
    assert DaysBeforeYear(y + 1) == DaysBeforeYear(y) + 365 + a - b + c;
    assert a - b + c == (if IsLeap(y) then 1 else 0);
  }

  /** A multiple of 400 is a multiple of 100, and a multiple of 100 one of 4. */
  lemma DivisorsOfCentury(y: int)
    ensures y % 400 == 0 ==> y % 100 == 0
    ensures y % 100 == 0 ==> y % 4 == 0
  {
    if y % 400 == 0 {
      assert y == y / 400 * 4 * 100;
      MultipleMod(y / 400 * 4, 100);
    }
    if y % 100 == 0 {
      assert y == y / 100 * 25 * 4;
      MultipleMod(y / 100 * 25, 4);
    }
  }

  /** A multiple of k leaves no remainder. */
  lemma MultipleMod(m: int, k: int)
    requires k == 4 || k == 100
    ensures (m * k) % k == 0
  {
    if k == 4 {
      assert (m * 4) % 4 == 0;
    } else {
      assert (m * 100) % 100 == 0;
    }
  }

  /** Going from y − 1 to y adds one multiple of k exactly when k divides y. */
  lemma LeapDivStep(y: int, k: int)
    requires k == 4 || k == 100 || k == 400
    ensures y / k == (y - 1) / k + (if y % k == 0 then 1 else 0)
  {
    if k == 4 {
    } else if k == 100 {
    } else {
    }
  }

  /** The year and month before (y, m). */
  function PreviousMonth(y: int, m: int): (r: (int, int))
    requires 1 <= m <= 12
    ensures 1 <= r.1 <= 12
    ensures m == 1 ==> r == (y - 1, 12)
    ensures m > 1 ==> r == (y, m - 1)
  {
    if m == 1 then (y - 1, 12) else (y, m - 1)
  }

  /**
   * The day before the first of a month is the last day of the previous
   * month, across a year boundary too.
   */
  lemma DayBeforeFirstOfMonth(y: int, m: int)
    requires 1 <= m <= 12 && (m > 1 || y >= 2)
    ensures var (py, pm) := PreviousMonth(y, m);
      Ordinal(Date(y, m, 1)) - 1 == Ordinal(Date(py, pm, DaysInMonth(py, pm)))
  {
    if m == 1 {
      DaysBeforeNextYear(y - 1);
      DaysBeforeMonthIsPrefixSum(y - 1);
    }
  }

  /** 2024-01-01 was a Monday. */
  lemma KnownMonday()
    ensures Weekday(Ordinal(Date(2024, 1, 1))) == 0
    ensures Ordinal(Date(9999, 12, 31)) == MaxOrdinal
  {
    assert DaysBeforeYear(2024) == 738885;
    assert DaysBeforeYear(9999) == 3651694;
    assert DaysBeforeMonth(9999, 12) == 334;
  }
}
