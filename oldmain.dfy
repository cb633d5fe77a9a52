/**
  The first dashboard (old_files/main.py): its comprehension-based business-day
  counts, whose windows run from today or up to today rather than over the
  reference month alone, the day floors, `calcular_status` and the goal panel.
  Goal lookup is `Goals.Compare` with "Meta Mensal" and no KeyError handler;
  the goal-tab choice is the exact-match one of `Atualizado.GoalTab`.
 */
module OldMain {
  import opened Wrappers
  import opened Dates
  import opened BusinessCalendar
  import opened Masks
  import opened Goals
  import opened Trend
  import SemFinanceiro

  // ---------------------------------------------------------------- calendar

  /**
    `calcular_dias_uteis_restantes(mes, incluir_hoje, feriados)`: the business
    days from today to the last day of `month` (the first of the next month
    minus one), today counting only when it is included.
   */
  function Remaining(month: int, today: Date, includeToday: bool, holidays: Option<seq<int>>): nat
    requires ValidDate(today) && 1 <= month <= 12
  {
    var t := Ordinal(today);
    Count(t, LastOfMonthViaNextYear(today.year, month), Window(HolidayList(holidays), t, includeToday, After))
  }

  /**
    `calcular_dias_uteis_passados(mes, incluir_hoje, feriados)`: the business
    days from the 1st of `month` to today, today counting only when it is included.
   */
  function Elapsed(month: int, today: Date, includeToday: bool, holidays: Option<seq<int>>): nat
    requires ValidDate(today) && 1 <= month <= 12
  {
    var t := Ordinal(today);
    Count(FirstOfMonth(today.year, month), t, Window(HolidayList(holidays), t, includeToday, Before))
  }

  /**
    The day rule of both comprehensions: a weekday that is not a holiday (no
    holiday at all for `None`), after today for the remaining days and before
    it for the elapsed ones, today itself only when it is included.
   */
  lemma CountsAreBusinessDays(month: int, today: Date, holidays: Option<seq<int>>)
    requires ValidDate(today) && 1 <= month <= 12
    ensures var t := Ordinal(today);
            var last := LastOfMonth(today.year, month);
            var first := FirstOfMonth(today.year, month);
            var hol := HolidayList(holidays);
            Remaining(month, today, true, holidays) == BusinessDays(t, last, hol)
            && Remaining(month, today, false, holidays) == BusinessDays(t + 1, last, hol)
            && Elapsed(month, today, true, holidays) == BusinessDays(first, t, hol)
            && Elapsed(month, today, false, holidays) == BusinessDays(first, t - 1, hol)
  {
    var t := Ordinal(today);
    var last := LastOfMonth(today.year, month);
    var first := FirstOfMonth(today.year, month);
    var hol := HolidayList(holidays);
    LastOfMonthIsMonthEnd(today.year, month);
    CountIncludingToday(t, last, Window(hol, t, true, After));
    CountAfterToday(t, last, Window(hol, t, false, After));
    CountIncludingToday(first, t, Window(hol, t, true, Before));
    CountBeforeToday(first, t, Window(hol, t, false, Before));
  }

  /** Including today adds one to either count exactly when today is a business day inside the counted range. */
  lemma IncludingTodayAddsAtMostOne(month: int, today: Date, holidays: Option<seq<int>>)
    requires ValidDate(today) && 1 <= month <= 12
    ensures var t := Ordinal(today);
            var hol := HolidayList(holidays);
            Remaining(month, today, true, holidays)
            == Remaining(month, today, false, holidays)
               + (if t <= LastOfMonth(today.year, month) && IsBusinessDay(t, hol) then 1 else 0)
            && Elapsed(month, today, true, holidays)
               == Elapsed(month, today, false, holidays)
                  + (if FirstOfMonth(today.year, month) <= t && IsBusinessDay(t, hol) then 1 else 0)
  {
    var t := Ordinal(today);
    var hol := HolidayList(holidays);
    LastOfMonthIsMonthEnd(today.year, month);
    TodayAddsAfter(t, LastOfMonthViaNextYear(today.year, month), hol, t);
    TodayAddsBefore(FirstOfMonth(today.year, month), t, hol, t);
  }

  /** A month already over has no remaining days; a month not yet begun has no elapsed ones. */
  lemma MonthBoundaries(month: int, today: Date, includeToday: bool, holidays: Option<seq<int>>)
    requires ValidDate(today) && 1 <= month <= 12
    ensures month < today.month ==> Remaining(month, today, includeToday, holidays) == 0
    ensures month > today.month ==> Elapsed(month, today, includeToday, holidays) == 0
  {
    LastOfMonthIsMonthEnd(today.year, month);
    SemFinanceiro.TodayAgainstMonth(month, today);
  }

  /** In the current month both counts agree with the month-clipped counts of the newer dashboards. */
  lemma AgreesInCurrentMonth(today: Date, includeToday: bool, holidays: Option<seq<int>>)
    requires ValidDate(today)
    ensures Remaining(today.month, today, includeToday, holidays) == SemFinanceiro.Remaining(today.month, today, includeToday, holidays)
    ensures Elapsed(today.month, today, includeToday, holidays) == SemFinanceiro.Elapsed(today.month, today, includeToday, holidays)
  {
    LastOfMonthIsMonthEnd(today.year, today.month);
    DateInMonth(today);
  }

  /**
    For a later month the remaining count also takes in the business days from
    today to the end of the month before it: every day of the current month
    still to come, and all of any month in between.
   */
  lemma RemainingOfLaterMonth(month: int, today: Date, includeToday: bool, holidays: Option<seq<int>>)
    requires ValidDate(today) && 1 <= month <= 12 && month > today.month
    ensures var t := Ordinal(today);
            Remaining(month, today, includeToday, holidays)
            == SemFinanceiro.Remaining(month, today, includeToday, holidays)
               + Count(t, FirstOfMonth(today.year, month) - 1, Window(HolidayList(holidays), t, includeToday, After))
  {
    var t := Ordinal(today);
    var w := Window(HolidayList(holidays), t, includeToday, After);
    var first := FirstOfMonth(today.year, month);
    LastOfMonthIsMonthEnd(today.year, month);
    SemFinanceiro.TodayAgainstMonth(month, today);
    CountSplit(t, first, LastOfMonth(today.year, month), w);
  }

  /**
    For an earlier month the elapsed count also takes in the business days from
    the next month's 1st up to today.
   */
  lemma ElapsedOfEarlierMonth(month: int, today: Date, includeToday: bool, holidays: Option<seq<int>>)
    requires ValidDate(today) && 1 <= month <= 12 && month < today.month
    ensures var t := Ordinal(today);
            Elapsed(month, today, includeToday, holidays)
            == SemFinanceiro.Elapsed(month, today, includeToday, holidays)
               + Count(LastOfMonth(today.year, month) + 1, t, Window(HolidayList(holidays), t, includeToday, Before))
  {
    var t := Ordinal(today);
    var w := Window(HolidayList(holidays), t, includeToday, Before);
    var last := LastOfMonth(today.year, month);
    LastOfMonthIsMonthEnd(today.year, month);
    SemFinanceiro.TodayAgainstMonth(month, today);
    CountSplit(FirstOfMonth(today.year, month), last + 1, t, w);
  }

  /**
    On Wednesday 2026-10-14, with no holidays, the remaining days of November
    as the panel asks for them (today included) exceed all business days of
    November: Thursday 15 October is counted for November.
   */
  lemma NovemberCountsOctoberDays()
    ensures var today := Date(2026, 10, 14);
            Remaining(11, today, true, None) > BusinessDays(FirstOfMonth(2026, 11), LastOfMonth(2026, 11), [])
  {
    var today := Date(2026, 10, 14);
    var t := Ordinal(today);
    var first := FirstOfMonth(2026, 11);
    var last := LastOfMonth(2026, 11);
    OrdinalMatchesPython();
    DaysBeforeMonthGrows(2026, 10, 11);
    assert t + 1 < first;
    RemainingOfLaterMonth(11, today, true, None);
    CountIncludingToday(first, last, Window([], t, true, After));
    CountIncludingToday(t, first - 1, Window([], t, true, After));
    assert Weekday(739904) == 3;
    BusinessDayInRange(t, t + 1, first - 1, []);
  }

  /**
    On Wednesday 2026-10-14, with no holidays, the elapsed days of September
    as the panel asks for them (today excluded) exceed all business days of
    September: Tuesday 13 October is counted for September.
   */
  lemma SeptemberCountsOctoberDays()
    ensures var today := Date(2026, 10, 14);
            Elapsed(9, today, false, None) > BusinessDays(FirstOfMonth(2026, 9), LastOfMonth(2026, 9), [])
  {
    var today := Date(2026, 10, 14);
    var t := Ordinal(today);
    var first := FirstOfMonth(2026, 9);
    var last := LastOfMonth(2026, 9);
    OrdinalMatchesPython();
    MonthsInOrder(2026, 9, 10);
    assert last + 1 < t - 1;
    ElapsedOfEarlierMonth(9, today, false, None);
    SemFinanceiro.TodayAgainstMonth(9, today);
    CountBeforeToday(first, last, Window([], t, false, Before));
    CountBeforeToday(last + 1, t, Window([], t, false, Before));
    assert Weekday(739902) == 1;
    BusinessDayInRange(last + 1, t - 1, t - 1, []);
  }

  // ------------------------------------------------------------------ status

  /**
    `calcular_status`: the waterfall of the goals over the amount sold, paced
    over the business days after today up to the month's end (the default
    arguments: today excluded, no holidays); nothing is printed when no day is left.
   */
  method CalcularStatus(realized: real, goals: seq<Entry>, month: int, today: Date) returns (lines: seq<StatusLine>)
    requires ValidDate(today) && 1 <= month <= 12
    ensures lines == WaterfallLines(realized, goals, Remaining(month, today, false, None), false)
  {
    var days := Remaining(month, today, false, None);
    lines := Waterfall(realized, goals, days, false);
  }

  // ------------------------------------------------------------------- panel

  /** The day counts of the panel, each replaced by 1 when it is 0. */
  method PanelDays(month: int, today: Date, holidays: Option<seq<int>>) returns (elapsed: int, remaining: int)
    requires ValidDate(today) && 1 <= month <= 12
    ensures elapsed >= 1 && remaining >= 1
    ensures elapsed == AtLeastOne(Elapsed(month, today, false, holidays))
    ensures remaining == AtLeastOne(Remaining(month, today, true, holidays))
  {
    elapsed := Elapsed(month, today, false, holidays);
    remaining := Remaining(month, today, true, holidays);
    if elapsed == 0 {
      elapsed := 1;
    }
    if remaining == 0 {
      remaining := 1;
    }
  }

  /**
    What the page shows after "Processar Dados": it fails on the KeyError of a
    missing month column, and on indexing the empty comparison in the "Todos"
    view; other sellers get an error message for an empty comparison.
   */
  datatype Page = Crashed | NoComparison | Shown(panel: Panel)

  /**
    The panel for a comparison: the company blocks for "Todos" (super goal is
    the AMC one alone), then a check of each goal kept by `nome != "Realizado"
    and valor > 0`, against the trend of that side's total.
   */
  method GoalPanel(c: Comparison, totalOpd: real, totalAmc: real, allSellers: bool, month: int, today: Date, holidays: Option<seq<int>>)
    returns (page: Page)
    requires ValidDate(today) && 1 <= month <= 12
    ensures c.KeyErrorRaised? ==> page == Crashed
    ensures c.NoGoals? ==> page == if allSellers then Crashed else NoComparison
    ensures c.Compared? ==>
              var e := AtLeastOne(Elapsed(month, today, false, holidays));
              var n := AtLeastOne(Remaining(month, today, true, holidays));
              page == Shown(PanelOf(c, totalOpd, totalAmc, allSellers, e, n, IsShownGoal, false, false))
              && page.panel.opd == CheckAll(Filter(OpdGoals(c), IsShownGoal), totalOpd, GuardedTrend(totalOpd, e, n).trend, n, false)
              && page.panel.amc == CheckAll(Filter(AmcGoals(c), IsShownGoal), totalAmc, GuardedTrend(totalAmc, e, n).trend, n, false)
  {
    if c.KeyErrorRaised? || (c.NoGoals? && allSellers) {
      return Crashed;
    }
    if c.NoGoals? {
      return NoComparison;
    }
    var e, n := PanelDays(month, today, holidays);
    var company := if allSellers then CompanyBlocks(CompanySums(c, false), totalOpd + totalAmc, e, n, false) else [];
    var opd := ShowGoals(Filter(OpdGoals(c), IsShownGoal), totalOpd, e, n, false);
    var amc := ShowGoals(Filter(AmcGoals(c), IsShownGoal), totalAmc, e, n, false);
    ShownGoalsPassSkip(OpdGoals(c));
    ShownGoalsPassSkip(AmcGoals(c));
    page := Shown(Panel(company, opd, amc));
  }
}
