/**
  Business-day counting over a range of day ordinals. A business day is a
  Monday-to-Friday that is not in the holiday list; the dashboards add a rule
  about the reference day ("today"), which a `Window` carries.
 */
module BusinessCalendar {
  import opened Wrappers
  import opened Dates

  predicate IsBusinessDay(d: int, holidays: seq<int>) {
    Weekday(d) < 5 && d !in holidays
  }

  /** Python's `feriados or []` and `feriados is None or d not in feriados`: None excludes nothing. */
  function HolidayList(holidays: Option<seq<int>>): seq<int> {
    holidays.GetOr([])
  }

  /** Which side of the reference day counts when the reference day itself does not. */
  datatype Side = After | Before

  datatype Window = Window(holidays: seq<int>, today: int, includeToday: bool, side: Side)

  /**
    The per-day rule of the counting loops: a business day counts when today is
    included, or when it lies strictly on the window's side of today.
   */
  predicate Counts(d: int, w: Window) {
    IsBusinessDay(d, w.holidays)
    && (w.includeToday || (if w.side == After then d > w.today else d < w.today))
  }

  /** How many days of [lo, hi] the window counts (0 for an empty range). */
  function Count(lo: int, hi: int, w: Window): nat
    decreases hi - lo
  {
    if hi < lo then 0 else Count(lo, hi - 1, w) + (if Counts(hi, w) then 1 else 0)
  }

  /** The business days of [lo, hi]. */
  function BusinessDays(lo: int, hi: int, holidays: seq<int>): nat
    decreases hi - lo
  {
    if hi < lo then 0 else BusinessDays(lo, hi - 1, holidays) + (if IsBusinessDay(hi, holidays) then 1 else 0)
  }

  /** A count splits at any point of its range. */
  lemma {:induction false} CountSplit(lo: int, mid: int, hi: int, w: Window)
    requires lo <= mid <= hi + 1
    ensures Count(lo, hi, w) == Count(lo, mid - 1, w) + Count(mid, hi, w)
    decreases hi - lo
  {
    if hi >= mid {
      CountSplit(lo, mid, hi - 1, w);
    }
  }

  lemma {:induction false} BusinessDaysSplit(lo: int, mid: int, hi: int, holidays: seq<int>)
    requires lo <= mid <= hi + 1
    ensures BusinessDays(lo, hi, holidays) == BusinessDays(lo, mid - 1, holidays) + BusinessDays(mid, hi, holidays)
    decreases hi - lo
  {
    if hi >= mid {
      BusinessDaysSplit(lo, mid, hi - 1, holidays);
    }
  }

  /** When today is included, the window counts exactly the business days. */
  lemma {:induction false} CountIncludingToday(lo: int, hi: int, w: Window)
    requires w.includeToday
    ensures Count(lo, hi, w) == BusinessDays(lo, hi, w.holidays)
    decreases hi - lo
  {
    if hi >= lo {
      CountIncludingToday(lo, hi - 1, w);
    }
  }

  /** Excluding today on the After side counts the business days strictly after today. */
  lemma {:induction false} CountAfterToday(lo: int, hi: int, w: Window)
    requires !w.includeToday && w.side == After
    ensures Count(lo, hi, w) == BusinessDays(if lo > w.today then lo else w.today + 1, hi, w.holidays)
    decreases hi - lo
  {
    var from := if lo > w.today then lo else w.today + 1;
    if hi >= lo {
      CountAfterToday(lo, hi - 1, w);
      if hi > w.today {
        assert from <= hi;
      }
    }
  }

  /** Excluding today on the Before side counts the business days strictly before today. */
  lemma {:induction false} CountBeforeToday(lo: int, hi: int, w: Window)
    requires !w.includeToday && w.side == Before
    ensures Count(lo, hi, w) == BusinessDays(lo, if hi < w.today then hi else w.today - 1, w.holidays)
    decreases hi - lo
  {
    if hi >= lo {
      CountBeforeToday(lo, hi - 1, w);
      if hi >= w.today && hi - 1 >= w.today - 1 {
        assert (if hi - 1 < w.today then hi - 1 else w.today - 1) == w.today - 1 || hi - 1 < w.today;
      }
    }
  }

  /**
    On a range starting no earlier than today, including today adds one exactly
    when the range starts at today and today is a business day.
   */
  lemma TodayAddsAfter(lo: int, hi: int, holidays: seq<int>, today: int)
    requires lo >= today
    ensures Count(lo, hi, Window(holidays, today, true, After))
            == Count(lo, hi, Window(holidays, today, false, After))
               + (if lo == today <= hi && IsBusinessDay(today, holidays) then 1 else 0)
  {
    CountIncludingToday(lo, hi, Window(holidays, today, true, After));
    CountAfterToday(lo, hi, Window(holidays, today, false, After));
    if lo == today <= hi {
      BusinessDaysSplit(today, today + 1, hi, holidays);
      assert BusinessDays(today, today, holidays) == BusinessDays(today, today - 1, holidays) + (if IsBusinessDay(today, holidays) then 1 else 0);
    }
  }

  /**
    On a range ending no later than today, including today adds one exactly
    when the range ends at today and today is a business day.
   */
  lemma TodayAddsBefore(lo: int, hi: int, holidays: seq<int>, today: int)
    requires hi <= today
    ensures Count(lo, hi, Window(holidays, today, true, Before))
            == Count(lo, hi, Window(holidays, today, false, Before))
               + (if lo <= hi == today && IsBusinessDay(today, holidays) then 1 else 0)
  {
    CountIncludingToday(lo, hi, Window(holidays, today, true, Before));
    CountBeforeToday(lo, hi, Window(holidays, today, false, Before));
    if lo <= hi == today {
      BusinessDaysSplit(lo, today, today, holidays);
    }
  }

  /** Holidays only remove days: the count never exceeds the plain weekday count. */
  lemma {:induction false} BusinessDaysAtMostWeekdays(lo: int, hi: int, holidays: seq<int>)
    ensures BusinessDays(lo, hi, holidays) <= BusinessDays(lo, hi, [])
    ensures BusinessDays(lo, hi, []) <= if hi < lo then 0 else hi - lo + 1
    decreases hi - lo
  {
    if hi >= lo {
      BusinessDaysAtMostWeekdays(lo, hi - 1, holidays);
    }
  }

  lemma {:induction false} CountAtMostBusinessDays(lo: int, hi: int, w: Window)
    ensures Count(lo, hi, w) <= BusinessDays(lo, hi, w.holidays)
    decreases hi - lo
  {
    if hi >= lo {
      CountAtMostBusinessDays(lo, hi - 1, w);
    }
  }

  /** A narrower range holds no more business days. */
  lemma BusinessDaysMonotone(lo: int, lo2: int, hi2: int, hi: int, holidays: seq<int>)
    requires lo <= lo2 && hi2 <= hi
    ensures BusinessDays(lo2, hi2, holidays) <= BusinessDays(lo, hi, holidays)
  {
    if lo2 <= hi2 {
      BusinessDaysSplit(lo, lo2, hi, holidays);
      BusinessDaysSplit(lo2, hi2 + 1, hi, holidays);
    }
  }

  /** A single business day in a range makes its count positive. */
  lemma BusinessDayInRange(lo: int, d: int, hi: int, holidays: seq<int>)
    requires lo <= d <= hi && IsBusinessDay(d, holidays)
    ensures BusinessDays(lo, hi, holidays) >= 1
  {
    BusinessDaysMonotone(lo, d, d, hi, holidays);
  }
}
