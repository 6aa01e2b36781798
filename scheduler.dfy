// scheduler.py: the ReflectionScheduler's reflection windows (yesterday,
// last Monday to Sunday, last month), the jobs that hand them to
// create_periodic_reflection, and the order in which setup_scheduler
// registers its five jobs. `now` is the value of `datetime.now()`.
module Scheduler {
  import opened Wrappers
  import opened Calendar
  import opened Ledger
  import Reflection

  /** A reflection window: first and last microsecond, both inclusive. */
  datatype Window = Window(start: int, end: int)

  /**
   * daily_reflection's window (scheduler.py:54-57): yesterday from 00:00 to
   * 23:59:59.999999. Subtracting a day from 0001-01-01 raises OverflowError,
   * which the job catches.
   */
  function DailyWindow(now: DateTime): (r: Option<Window>)
    requires ValidDateTime(now)
  {
    var yesterday := InstantOf(now) - MicrosPerDay;
    if !Representable(yesterday) then None
    else Some(Window(StartOfDay(yesterday), EndOfDay(yesterday)))
  }

  /** The daily window is the whole of the day before today, and exists from 0001-01-02 on. */
  lemma DailyWindowMeaning(now: DateTime)
    requires ValidDateTime(now)
    ensures DailyWindow(now).Some? <==> Ordinal(now.date) >= 2
    ensures DailyWindow(now).Some? ==>
      var w := DailyWindow(now).value;
      && DayOf(w.start) == DayOf(w.end) == Ordinal(now.date) - 1
      && w.start == DayOf(w.start) * MicrosPerDay
      && w.end == DayOf(w.end) * MicrosPerDay + MicrosPerDay - 1
  {
    InstantOfDay(now);
    var yesterday := InstantOf(now) - MicrosPerDay;
    DayOfBounds(yesterday, Ordinal(now.date) - 1);
    KnownMonday();
    OrdinalBound(now.date);
  }

  /** A valid date's ordinal is at most that of 9999-12-31. */
  lemma OrdinalBound(d: Date)
    requires ValidDate(d)
    ensures 1 <= Ordinal(d) <= MaxOrdinal
  {
    DaysBeforeMonthBound(d.year, d.month);
    if d.year < MaxYear {
      DaysBeforeYearMonotone(d.year + 1, MaxYear);
      DaysBeforeNextYear(d.year);
    }
    KnownMonday();
    DaysBeforeYearMonotone(1, d.year);
  }

  lemma DaysBeforeMonthBound(y: int, m: int)
    requires 1 <= m <= 12
    ensures 0 <= DaysBeforeMonth(y, m) && DaysBeforeMonth(y, m) + DaysInMonth(y, m) <= (if IsLeap(y) then 366 else 365)
  {
    DaysBeforeMonthIsPrefixSum(y);
    var k := m;
    while k < 12
      invariant m <= k <= 12
      invariant DaysBeforeMonth(y, m) + DaysInMonth(y, m) <= DaysBeforeMonth(y, k) + DaysInMonth(y, k)
    {
      k := k + 1;
    }
  }

  lemma {:induction false} DaysBeforeYearMonotone(a: int, b: int)
    requires 1 <= a <= b
    ensures DaysBeforeYear(a) <= DaysBeforeYear(b)
    decreases b - a
  {
    if a < b {
      DaysBeforeNextYear(a);
      DaysBeforeYearMonotone(a + 1, b);
    }
  }

  /**
   * weekly_reflection's window (scheduler.py:75-82): back weekday + 7 days
   * to last week's Monday, from its 00:00 to the following Sunday's
   * 23:59:59.999999.
   */
  function WeeklyWindow(now: DateTime): (r: Option<Window>)
    requires ValidDateTime(now)
  {
    var today := InstantOf(now);
    var lastMonday := today - (Weekday(DayOf(today)) + 7) * MicrosPerDay;
    var lastSunday := lastMonday + 6 * MicrosPerDay;
    if !Representable(lastMonday) then None
    else Some(Window(StartOfDay(lastMonday), EndOfDay(lastSunday)))
  }

  /**
   * The weekly window is a whole Monday-to-Sunday week, and it ends on the
   * day before the current week's Monday.
   */
  lemma WeeklyWindowMeaning(now: DateTime)
    requires ValidDateTime(now)
    ensures WeeklyWindow(now).Some? <==> Ordinal(now.date) - Weekday(Ordinal(now.date)) - 7 >= 1
    ensures WeeklyWindow(now).Some? ==>
      var w := WeeklyWindow(now).value;
      && Weekday(DayOf(w.start)) == 0 && Weekday(DayOf(w.end)) == 6
      && DayOf(w.end) == DayOf(w.start) + 6
      && DayOf(w.end) + 1 == Ordinal(now.date) - Weekday(Ordinal(now.date))
      && w.start == DayOf(w.start) * MicrosPerDay
      && w.end == DayOf(w.end) * MicrosPerDay + MicrosPerDay - 1
  {
    InstantOfDay(now);
    OrdinalBound(now.date);
    KnownMonday();
    var today := InstantOf(now);
    var d := Ordinal(now.date);
    var wd := Weekday(d);
    var lastMonday := today - (wd + 7) * MicrosPerDay;
    ShiftDay(today, -(wd + 7));
    ShiftDay(lastMonday, 6);
    assert lastMonday + 6 * MicrosPerDay == today - (wd + 1) * MicrosPerDay;
    LastWeekdays(d);
    DayOfBounds(lastMonday, d - wd - 7);
  }

  /** Moving an instant by k whole days moves its day by k. */
  lemma ShiftDay(t: int, k: int)
    ensures DayOf(t + k * MicrosPerDay) == DayOf(t) + k
  {
    var d := DayOf(t);
    DayOfBounds(t, d);
    assert (d + k) * MicrosPerDay == d * MicrosPerDay + k * MicrosPerDay;
    DayOfBounds(t + k * MicrosPerDay, d + k);
  }

  /** Going back weekday + 7 days lands on a Monday; six days on is a Sunday. */
  lemma LastWeekdays(d: int)
    ensures Weekday(d - Weekday(d) - 7) == 0
    ensures Weekday(d - Weekday(d) - 1) == 6
  {
    var wd := Weekday(d);
    var q := (d + 6) / 7;
    assert d + 6 == 7 * q + wd;
    assert d - wd - 7 + 6 == 7 * (q - 1);
    assert d - wd - 1 + 6 == 7 * (q - 1) + 6;
  }

  /**
   * monthly_reflection's window (scheduler.py:101-115). `replace(month=m-1)`
   * keeps the day of the month and raises ValueError when the previous month
   * is shorter; `replace(year=0)` raises too. The end is the day before the
   * first of this month; the two branches computing it are the same.
   */
  function MonthlyWindow(now: DateTime): (r: Option<Window>)
    requires ValidDateTime(now)
  {
    var Date(y, m, d) := now.date;
    if m == 1 && y - 1 < MinYear then None
    else if m > 1 && d > DaysInMonth(y, m - 1) then None
    else
      var (py, pm) := PreviousMonth(y, m);
      var start := StartOfDay(InstantOf(DateTime(Date(py, pm, 1), now.micro)));
      var end := EndOfDay(InstantOf(DateTime(Date(y, m, 1), now.micro)) - MicrosPerDay);
      Some(Window(start, end))
  }

  /**
   * The monthly window is the whole previous month; it is missing exactly in
   * January of year 1 and when today's day of the month does not exist in
   * the previous month (the 29th to 31st after a shorter month).
   */
  lemma MonthlyWindowMeaning(now: DateTime)
    requires ValidDateTime(now)
    ensures var Date(y, m, d) := now.date;
      MonthlyWindow(now).None? <==> (m == 1 && y == 1) || (m > 1 && d > DaysInMonth(y, m - 1))
    ensures MonthlyWindow(now).Some? ==>
      var w := MonthlyWindow(now).value;
      var (py, pm) := PreviousMonth(now.date.year, now.date.month);
      && DayOf(w.start) == Ordinal(Date(py, pm, 1))
      && DayOf(w.end) == Ordinal(Date(py, pm, DaysInMonth(py, pm)))
      && DayOf(w.end) + 1 == Ordinal(Date(now.date.year, now.date.month, 1))
      && w.start == DayOf(w.start) * MicrosPerDay
      && w.end == DayOf(w.end) * MicrosPerDay + MicrosPerDay - 1
  {
    var Date(y, m, d) := now.date;
    if MonthlyWindow(now).Some? {
      var (py, pm) := PreviousMonth(y, m);
      InstantOfDay(DateTime(Date(py, pm, 1), now.micro));
      var first := DateTime(Date(y, m, 1), now.micro);
      InstantOfDay(first);
      DayOfBounds(InstantOf(first), Ordinal(first.date));
      DayOfBounds(InstantOf(first) - MicrosPerDay, Ordinal(first.date) - 1);
      DayBeforeFirstOfMonth(y, m);
    }
  }

  /** On 31 March the job finds no 31 February and writes nothing. */
  lemma LongDayHasNoMonthlyWindow(micro: int)
    requires 0 <= micro < MicrosPerDay
    ensures MonthlyWindow(DateTime(Date(2025, 3, 31), micro)).None?
    ensures MonthlyWindow(DateTime(Date(2025, 1, 31), micro)).Some?
  {
  }

  /** The rows create_periodic_reflection appends for a window: reflections, then the metrics row. */
  function Written(db_trades: seq<TradeRow>, available: bool, kind: ReflectionKind, w: Window)
    : (r: (seq<ReflectionRow>, seq<MetricsRow>))
  {
    var trades := Reflection.TradesInPeriod(db_trades, w.start, w.end);
    var m := Reflection.PeriodMetrics(trades, Reflection.ProfitLoss, w.start, w.end);
    if available && trades != [] then (Reflection.PeriodRows(trades, kind, m), [m]) else ([], [])
  }

  /**
   * The body shared by the three reflection jobs: when the window could be
   * computed, create_periodic_reflection runs on it and its result is only
   * logged; otherwise the exception is logged. Nothing propagates. The
   * result is None when no reflection was attempted.
   */
  method RunReflection(db: Database, kind: ReflectionKind, window: Option<Window>) returns (r: Option<bool>)
    requires db.Valid()
    modifies db`reflections, db`metrics
    ensures db.Valid()
    ensures r.None? <==> window.None?
    ensures r.Some? ==> r.value == db.available
    ensures window.None? ==> db.reflections == old(db.reflections) && db.metrics == old(db.metrics)
    ensures window.Some? ==>
      var (reflections, metrics) := Written(db.trades, db.available, kind, window.value);
      db.reflections == old(db.reflections) + reflections && db.metrics == old(db.metrics) + metrics
  {
    if window.None? {
      return None;
    }
    var ok := Reflection.CreatePeriodicReflection(db, kind, window.value.start, window.value.end);
    return Some(ok);
  }

  /** daily_reflection (scheduler.py:49-68). */
  method DailyReflection(db: Database, now: DateTime) returns (r: Option<bool>)
    requires db.Valid() && ValidDateTime(now)
    modifies db`reflections, db`metrics
    ensures db.Valid()
    ensures r.None? <==> DailyWindow(now).None?
    ensures r.None? ==> db.reflections == old(db.reflections) && db.metrics == old(db.metrics)
    ensures r.Some? ==>
      var (reflections, metrics) := Written(db.trades, db.available, Daily, DailyWindow(now).value);
      db.reflections == old(db.reflections) + reflections && db.metrics == old(db.metrics) + metrics
  {
    r := RunReflection(db, Daily, DailyWindow(now));
  }

  /** weekly_reflection (scheduler.py:70-93). */
  method WeeklyReflection(db: Database, now: DateTime) returns (r: Option<bool>)
    requires db.Valid() && ValidDateTime(now)
    modifies db`reflections, db`metrics
    ensures db.Valid()
    ensures r.None? <==> WeeklyWindow(now).None?
    ensures r.None? ==> db.reflections == old(db.reflections) && db.metrics == old(db.metrics)
    ensures r.Some? ==>
      var (reflections, metrics) := Written(db.trades, db.available, Weekly, WeeklyWindow(now).value);
      db.reflections == old(db.reflections) + reflections && db.metrics == old(db.metrics) + metrics
  {
    r := RunReflection(db, Weekly, WeeklyWindow(now));
  }

  /** monthly_reflection (scheduler.py:95-126): a missing window is the ValueError the job logs. */
  method MonthlyReflection(db: Database, now: DateTime) returns (r: Option<bool>)
    requires db.Valid() && ValidDateTime(now)
    modifies db`reflections, db`metrics
    ensures db.Valid()
    ensures r.None? <==> MonthlyWindow(now).None?
    ensures r.None? ==> db.reflections == old(db.reflections) && db.metrics == old(db.metrics)
    ensures r.Some? ==>
      var (reflections, metrics) := Written(db.trades, db.available, Monthly, MonthlyWindow(now).value);
      db.reflections == old(db.reflections) + reflections && db.metrics == old(db.metrics) + metrics
  {
    r := RunReflection(db, Monthly, MonthlyWindow(now));
  }

  /** Every reflection a job writes is about a trade stamped inside its window, and it is tagged with the job's kind. */
  lemma WrittenInsideWindow(trades: seq<TradeRow>, available: bool, kind: ReflectionKind, w: Window)
    ensures var (reflections, metrics) := Written(trades, available, kind, w);
      && |metrics| <= 1 && |reflections| == |Reflection.TradesInPeriod(trades, w.start, w.end)| * |metrics|
      && forall i :: 0 <= i < |reflections| ==> reflections[i].kind == kind
  {
    var window := Reflection.TradesInPeriod(trades, w.start, w.end);
    var m := Reflection.PeriodMetrics(window, Reflection.ProfitLoss, w.start, w.end);
    Reflection.PeriodRowsFanOut(window, kind, w.start, w.end);
  }

  /** The period `every()` names in a registration. */
  datatype Every = EveryDay | EverySunday | EveryMonth | EverySaturday

  datatype Task = DailyTask | WeeklyTask | MonthlyTask | LearningTask | StrategyTask

  datatype Job = Job(every: Every, at: string, task: Task)

  /** The five registrations, in the order setup_scheduler makes them (scheduler.py:30-42). */
  const Registrations: seq<Job> := [
    Job(EveryDay, "00:00", DailyTask),
    Job(EverySunday, "00:00", WeeklyTask),
    Job(EveryMonth, "00:00", MonthlyTask),
    Job(EveryDay, "06:00", LearningTask),
    Job(EverySaturday, "09:00", StrategyTask)
  ]

  /** The schedule library's job list. */
  class Registry {
    var jobs: seq<Job>

    constructor ()
      ensures jobs == []
    {
      jobs := [];
    }

    method Register(job: Job)
      modifies this`jobs
      ensures jobs == old(jobs) + [job]
    {
      jobs := jobs + [job];
    }
  }

  /** How many registrations succeed when the one at `failsAt` raises (none raising when None). */
  function RegisteredCount(failsAt: Option<nat>): (n: nat)
    ensures n <= |Registrations|
  {
    if failsAt.Some? && failsAt.value < |Registrations| then failsAt.value else |Registrations|
  }

  /**
   * setup_scheduler (scheduler.py:26-47): the five registrations inside one
   * try. `failsAt` is the registration whose call raises, if any (whether
   * the schedule library accepts each one is outside this model); the
   * exception is logged and the later ones are never made.
   */
  method SetupScheduler(registry: Registry, failsAt: Option<nat>) returns (ok: bool)
    modifies registry`jobs
    ensures ok <==> RegisteredCount(failsAt) == |Registrations|
    ensures registry.jobs == old(registry.jobs) + Registrations[..RegisteredCount(failsAt)]
  {
    if failsAt == Some(0) {
      return false;
    }
    registry.Register(Registrations[0]);
    if failsAt == Some(1) {
      return false;
    }
    registry.Register(Registrations[1]);
    if failsAt == Some(2) {
      return false;
    }
    registry.Register(Registrations[2]);
    if failsAt == Some(3) {
      return false;
    }
    registry.Register(Registrations[3]);
    if failsAt == Some(4) {
      return false;
    }
    registry.Register(Registrations[4]);
    return true;
  }

  /** A failing monthly registration leaves the daily and Sunday jobs registered and nothing after them. */
  lemma MonthlyRegistrationFailure()
    ensures Registrations[..RegisteredCount(Some(2))] ==
      [Job(EveryDay, "00:00", DailyTask), Job(EverySunday, "00:00", WeeklyTask)]
    ensures forall k :: 0 <= k < RegisteredCount(Some(2)) ==> Registrations[k].task != MonthlyTask
  {
  }
}
