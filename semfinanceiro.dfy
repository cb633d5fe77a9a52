/**
  The newest dashboard (main_semfinanceiro_1ago.py): its business-day counts,
  status waterfall, sales classification, row filter, goal-tab choice, and
  the tables of its report page. The calendar functions and `calcular_status`
  of old_files/main_atualizado.py are the same code and are modelled here once.
 */
module SemFinanceiro {
  import opened Wrappers
  import opened Dates
  import opened BusinessCalendar
  import opened Masks
  import opened Text
  import opened Sales
  import opened SaleFilters
  import opened Goals
  import opened Pivot
  import opened Trend

  // ---------------------------------------------------------------- calendar

  /** The first day `calcular_dias_uteis_restantes` counts: today in the current month, else the 1st. */
  function RemainingStart(month: int, today: Date): int
    requires ValidDate(today) && 1 <= month <= 12
  {
    if month == today.month then Ordinal(today) else FirstOfMonth(today.year, month)
  }

  /**
    `calcular_dias_uteis_restantes(mes, incluir_hoje, feriados)` of the current
    year: 0 for a month already past, else the business days from the start
    day to the month's end, today counting only when it is included.
   */
  function Remaining(month: int, today: Date, includeToday: bool, holidays: Option<seq<int>>): nat
    requires ValidDate(today) && 1 <= month <= 12
  {
    if month < today.month then 0
    else Count(RemainingStart(month, today), LastOfMonth(today.year, month),
               Window(HolidayList(holidays), Ordinal(today), includeToday, After))
  }

  /** The last day `calcular_dias_uteis_passados` counts: the earlier of today and the month's end. */
  function ElapsedEnd(month: int, today: Date): int
    requires ValidDate(today) && 1 <= month <= 12
  {
    var last := LastOfMonth(today.year, month);
    if Ordinal(today) < last then Ordinal(today) else last
  }

  /**
    `calcular_dias_uteis_passados(mes, incluir_hoje, feriados)`: the business
    days from the 1st to the earlier of today and the month's end, today
    counting only when it is included.
   */
  function Elapsed(month: int, today: Date, includeToday: bool, holidays: Option<seq<int>>): nat
    requires ValidDate(today) && 1 <= month <= 12
  {
    Count(FirstOfMonth(today.year, month), ElapsedEnd(month, today),
          Window(HolidayList(holidays), Ordinal(today), includeToday, Before))
  }

  /** `calcular_dias_uteis_restantes`: the range from the start day to the month's end, then its day loop. */
  method RemainingBusinessDays(month: int, today: Date, includeToday: bool, holidays: Option<seq<int>>) returns (count: nat)
    requires ValidDate(today) && 1 <= month <= 12
    ensures count == Remaining(month, today, includeToday, holidays)
  {
    if month < today.month {
      return 0;
    }
    count := CountFromStart(RemainingStart(month, today), LastOfMonth(today.year, month),
                            HolidayList(holidays), Ordinal(today), includeToday);
  }

  /**
    The day loop of `calcular_dias_uteis_restantes` over the ordinals
    `start..last`: a weekday that is not a holiday counts when today is
    included, or else when it comes after today.
   */
  method CountFromStart(start: int, last: int, hol: seq<int>, t: int, includeToday: bool) returns (count: nat)
    ensures count == Count(start, last, Window(hol, t, includeToday, After))
  {
    ghost var w := Window(hol, t, includeToday, After);
    count := 0;
    var d := start;
    while d <= last
      invariant d == start || start <= d <= last + 1
      invariant count == Count(start, d - 1, w)
      decreases last - d
    {
      if Weekday(d) < 5 && d !in hol {
        if includeToday {
          count := count + 1;
        } else if d > t {
          count := count + 1;
        }
      }
      d := d + 1;
    }
  }

  /** `calcular_dias_uteis_passados`: the range from the 1st to the earlier of today and the month's end, then its day loop. */
  method ElapsedBusinessDays(month: int, today: Date, includeToday: bool, holidays: Option<seq<int>>) returns (count: nat)
    requires ValidDate(today) && 1 <= month <= 12
    ensures count == Elapsed(month, today, includeToday, holidays)
  {
    count := CountToEnd(FirstOfMonth(today.year, month), ElapsedEnd(month, today),
                        HolidayList(holidays), Ordinal(today), includeToday);
  }

  /**
    The day loop of `calcular_dias_uteis_passados` over the ordinals
    `first..last`: a weekday that is not a holiday counts when today is
    included or it comes before today.
   */
  method CountToEnd(first: int, last: int, hol: seq<int>, t: int, includeToday: bool) returns (count: nat)
    ensures count == Count(first, last, Window(hol, t, includeToday, Before))
  {
    ghost var w := Window(hol, t, includeToday, Before);
    count := 0;
    var d := first;
    while d <= last
      invariant d == first || first <= d <= last + 1
      invariant count == Count(first, d - 1, w)
      decreases last - d
    {
      if Weekday(d) < 5 && d !in hol {
        if includeToday || d < t {
          count := count + 1;
        }
      }
      d := d + 1;
    }
  }

  /** Where today lies relative to the first and last day of `month`. */
  lemma TodayAgainstMonth(month: int, today: Date)
    requires ValidDate(today) && 1 <= month <= 12
    ensures month < today.month ==> LastOfMonth(today.year, month) < Ordinal(today)
    ensures month == today.month ==> FirstOfMonth(today.year, month) <= Ordinal(today) <= LastOfMonth(today.year, month)
    ensures month > today.month ==> Ordinal(today) < FirstOfMonth(today.year, month)
  {
    DateInMonth(today);
    if month < today.month {
      MonthsInOrder(today.year, month, today.month);
    } else if month > today.month {
      MonthsInOrder(today.year, today.month, month);
    }
  }

  /**
    A month already over has nothing left and all its business days elapsed;
    a month still to come has nothing elapsed and all its business days left.
   */
  lemma MonthBoundaries(month: int, today: Date, includeToday: bool, holidays: Option<seq<int>>)
    requires ValidDate(today) && 1 <= month <= 12
    ensures var all := BusinessDays(FirstOfMonth(today.year, month), LastOfMonth(today.year, month), HolidayList(holidays));
            month < today.month ==>
              Remaining(month, today, includeToday, holidays) == 0 && Elapsed(month, today, includeToday, holidays) == all
    ensures var all := BusinessDays(FirstOfMonth(today.year, month), LastOfMonth(today.year, month), HolidayList(holidays));
            month > today.month ==>
              Elapsed(month, today, includeToday, holidays) == 0 && Remaining(month, today, includeToday, holidays) == all
  {
    var first := FirstOfMonth(today.year, month);
    var last := LastOfMonth(today.year, month);
    var hol := HolidayList(holidays);
    var t := Ordinal(today);
    TodayAgainstMonth(month, today);
    if month < today.month {
      var w := Window(hol, t, includeToday, Before);
      if includeToday {
        CountIncludingToday(first, last, w);
      } else {
        CountBeforeToday(first, last, w);
      }
    } else if month > today.month {
      var w := Window(hol, t, includeToday, After);
      if includeToday {
        CountIncludingToday(first, last, w);
      } else {
        CountAfterToday(first, last, w);
      }
    }
  }

  /**
    The two counts split the month at today: the business days before today
    and those from today on make up all business days of the month, whichever
    month is asked for (a past month is all elapsed, a future one all to come).
   */
  lemma MonthSplitsAtToday(month: int, today: Date, holidays: Option<seq<int>>)
    requires ValidDate(today) && 1 <= month <= 12
    ensures var first := FirstOfMonth(today.year, month);
            var last := LastOfMonth(today.year, month);
            Elapsed(month, today, false, holidays) + Remaining(month, today, true, holidays)
            == BusinessDays(first, last, HolidayList(holidays))
  {
    if month != today.month {
      MonthBoundaries(month, today, false, holidays);
      MonthBoundaries(month, today, true, holidays);
    } else {
      CurrentMonthSplits(today, holidays);
    }
  }

  /** In the current month the elapsed days are those before today, the remaining ones those from today on. */
  lemma CurrentMonthSplits(today: Date, holidays: Option<seq<int>>)
    requires ValidDate(today)
    ensures var first := FirstOfMonth(today.year, today.month);
            var last := LastOfMonth(today.year, today.month);
            var hol := HolidayList(holidays);
            Elapsed(today.month, today, false, holidays) == BusinessDays(first, Ordinal(today) - 1, hol)
            && Remaining(today.month, today, true, holidays) == BusinessDays(Ordinal(today), last, hol)
            && BusinessDays(first, last, hol) == BusinessDays(first, Ordinal(today) - 1, hol) + BusinessDays(Ordinal(today), last, hol)
  {
    var first := FirstOfMonth(today.year, today.month);
    var last := LastOfMonth(today.year, today.month);
    var hol := HolidayList(holidays);
    var t := Ordinal(today);
    TodayAgainstMonth(today.month, today);
    assert ElapsedEnd(today.month, today) == t;
    assert RemainingStart(today.month, today) == t;
    CountBeforeToday(first, t, Window(hol, t, false, Before));
    CountIncludingToday(t, last, Window(hol, t, true, After));
    BusinessDaysSplit(first, t, last, hol);
  }

  /** Including today adds one to the remaining count exactly when today is a business day of the month asked for. */
  lemma RemainingIncludingToday(month: int, today: Date, holidays: Option<seq<int>>)
    requires ValidDate(today) && 1 <= month <= 12
    ensures Remaining(month, today, true, holidays)
            == Remaining(month, today, false, holidays)
               + (if month == today.month && IsBusinessDay(Ordinal(today), HolidayList(holidays)) then 1 else 0)
  {
    TodayAgainstMonth(month, today);
    if month >= today.month {
      TodayAddsAfter(RemainingStart(month, today), LastOfMonth(today.year, month), HolidayList(holidays), Ordinal(today));
    }
  }

  /** Including today adds one to the elapsed count exactly when today is a business day of the month asked for. */
  lemma ElapsedIncludingToday(month: int, today: Date, holidays: Option<seq<int>>)
    requires ValidDate(today) && 1 <= month <= 12
    ensures Elapsed(month, today, true, holidays)
            == Elapsed(month, today, false, holidays)
               + (if month == today.month && IsBusinessDay(Ordinal(today), HolidayList(holidays)) then 1 else 0)
  {
    TodayAgainstMonth(month, today);
    TodayAddsBefore(FirstOfMonth(today.year, month), ElapsedEnd(month, today), HolidayList(holidays), Ordinal(today));
  }

  /** Neither count exceeds the month's business days, nor the number of days in the month. */
  lemma CountsWithinMonth(month: int, today: Date, includeToday: bool, holidays: Option<seq<int>>)
    requires ValidDate(today) && 1 <= month <= 12
    ensures var all := BusinessDays(FirstOfMonth(today.year, month), LastOfMonth(today.year, month), HolidayList(holidays));
            Remaining(month, today, includeToday, holidays) <= all
            && Elapsed(month, today, includeToday, holidays) <= all
            && all <= DaysInMonth(today.year, month)
  {
    var first := FirstOfMonth(today.year, month);
    var last := LastOfMonth(today.year, month);
    var hol := HolidayList(holidays);
    MonthSplitsAtToday(month, today, holidays);
    RemainingIncludingToday(month, today, holidays);
    ElapsedIncludingToday(month, today, holidays);
    BusinessDaysAtMostWeekdays(first, last, hol);
    LastOfMonthIsMonthEnd(today.year, month);
  }

  // ------------------------------------------------------------------ status

  /**
    `calcular_status`: the waterfall of the goals over the amount sold, paced
    over the business days left in the month, today included; the "no
    business days left" line is printed.
   */
  method CalcularStatus(realized: real, goals: seq<Entry>, month: int, today: Date, holidays: Option<seq<int>>)
    returns (lines: seq<StatusLine>)
    requires ValidDate(today) && 1 <= month <= 12
    ensures lines == WaterfallLines(realized, goals, Remaining(month, today, true, holidays), true)
  {
    var days := RemainingBusinessDays(month, today, true, holidays);
    lines := Waterfall(realized, goals, days, true);
  }

  // ------------------------------------------------------------------- sales

  /** A distribution sale of this dashboard: a distribution tag and status F or N. */
  predicate IsDistributionSale(s: Sale) {
    s.tag in DistributionTags && s.status in ["F", "N"]
  }

  /** The `np.select` of the report tables: OPD first, then distribution, else Outros. */
  function Classify(s: Sale): (ch: Channel)
    ensures ch == Opd <==> IsOpdSale(s)
    ensures ch == Distribution <==> IsDistributionSale(s)
  {
    if IsOpdSale(s) then Opd else if IsDistributionSale(s) then Distribution else Other
  }

  /** `processar_vendas`: the OPD total and the distribution (AMC) total of the filtered rows. */
  function ProcessarVendas(sales: seq<Sale>): (real, real) {
    if sales == [] then (0.0, 0.0)
    else (SumWhere(sales, IsOpdSale), SumWhere(sales, IsDistributionSale))
  }

  /** The panel's totals are the tables' channel totals: both use the same two rules, and no sale meets both. */
  lemma PanelMatchesChannels(sales: seq<Sale>)
    ensures ProcessarVendas(sales).0 == ChannelTotal(sales, Classify, Opd)
    ensures ProcessarVendas(sales).1 == ChannelTotal(sales, Classify, Distribution)
  {
    ChannelTotalIsSumWhere(sales, Classify, Opd, IsOpdSale);
    ChannelTotalIsSumWhere(sales, Classify, Distribution, IsDistributionSale);
  }

  // ---------------------------------------------------------------- filtering

  /** The date and seller tests together. */
  function DateAndSeller(period: Option<Period>, month: Option<int>, year: int, seller: Option<string>): Sale -> bool {
    (s: Sale) => PassesDate(s, period, month, year) && PassesSeller(s, seller)
  }

  /** The date, seller and order-type tests together. */
  function DateSellerType(period: Option<Period>, month: Option<int>, year: int, seller: Option<string>): Sale -> bool {
    (s: Sale) => PassesDate(s, period, month, year) && PassesSeller(s, seller) && IsSaleOrder(s)
  }

  /** Every test of `filtrar_vendas` as one row predicate. */
  function Keeps(period: Option<Period>, month: Option<int>, year: int, seller: Option<string>, withCdp: bool): Sale -> bool {
    (s: Sale) => PassesDate(s, period, month, year) && PassesSeller(s, seller) && IsSaleOrder(s) && (withCdp || NotCdp(s))
  }

  /**
    `filtrar_vendas` on a parsed sales sheet (after stripping): the date, seller,
    order-type and Casa do Pedreiro stages in turn; without a PED_TIPO column
    the result is empty. Its early returns of an empty frame give the same
    rows as running the remaining stages on an empty frame.
   */
  function Filtrar(sales: seq<Sale>, month: Option<int>, seller: Option<string>, period: Option<Period>,
                   withCdp: bool, today: Date, hasOrderType: bool): seq<Sale>
  {
    var bySeller := SellerStage(DateStage(sales, period, month, today.year), seller);
    if !hasOrderType then [] else CdpStage(Filter(bySeller, IsSaleOrder), withCdp)
  }

  /**
    The filter stages compose to one mask: the result is the subsequence of the
    sheet's rows that pass every test, in their order, and holds every such row.
   */
  lemma FiltrarIsOneMask(sales: seq<Sale>, month: Option<int>, seller: Option<string>, period: Option<Period>,
                         withCdp: bool, today: Date)
    ensures var r := Filtrar(sales, month, seller, period, withCdp, today, true);
            r == Filter(sales, Keeps(period, month, today.year, seller, withCdp))
            && IsSubsequence(r, sales)
  {
    var y := today.year;
    var keep := Keeps(period, month, y, seller, withCdp);
    FilterFuse(sales, DateMask(period, month, y), SellerMask(seller), DateAndSeller(period, month, y, seller));
    var ds := Filter(sales, DateAndSeller(period, month, y, seller));
    FilterFuse(sales, DateAndSeller(period, month, y, seller), IsSaleOrder, DateSellerType(period, month, y, seller));
    if withCdp {
      FilterSame(sales, DateSellerType(period, month, y, seller), keep);
    } else {
      FilterFuse(sales, DateSellerType(period, month, y, seller), NotCdp, keep);
    }
    FilterIsSubsequence(sales, keep);
  }

  /** Without a PED_TIPO column nothing is kept. */
  lemma FiltrarNeedsOrderType(sales: seq<Sale>, month: Option<int>, seller: Option<string>, period: Option<Period>,
                              withCdp: bool, today: Date)
    ensures Filtrar(sales, month, seller, period, withCdp, today, false) == []
  {
  }

  // -------------------------------------------------------------- goal tabs

  /** The goal tab of the selected seller, matched on the upper-cased name. */
  function GoalTab(seller: string): string {
    var up := Upper(seller);
    if seller == "Todos" then "GERAL"
    else if up == "PAOLA" then "PAOLA"
    else if up == "JEMINE OLIVEIRA" then "JEMINE"
    else if up == "DANILIMA" then "DANILIMA"
    else if up == "JOSE RENATO MAULER" then "RENATO"
    else if up == "ROSESILVESTRE" then "ROSE"
    else "GERAL"
  }

  /** The upper-cased name of any seller is never "Todos", which has lower-case letters. */
  lemma UpperIsNotTodos(s: string)
    ensures Upper(s) != "Todos"
  {
    if |Upper(s)| == 5 {
      assert Upper(s)[1] == UpperChar(s[1]);
      assert "Todos"[1] == 'o';
    }
  }

  /** The tab does not depend on how the seller's name is capitalised (except for the literal "Todos"). */
  lemma GoalTabIgnoresCase(s: string)
    requires s != "Todos"
    ensures GoalTab(s) == GoalTab(Upper(s))
  {
    UpperIdempotent(s);
    UpperIsNotTodos(s);
  }

  /** A personal tab is chosen exactly for the five listed sellers, in any capitalisation. */
  lemma PersonalTabs(s: string)
    ensures GoalTab(s) != "GERAL"
            <==> Upper(s) in ["PAOLA", "JEMINE OLIVEIRA", "DANILIMA", "JOSE RENATO MAULER", "ROSESILVESTRE"]
  {
    if s == "Todos" {
      assert Upper(s)[0] == 'T';
      assert Upper(s)[1] == UpperChar('o') == 'O';
    }
  }

  // ------------------------------------------------------------------ tables

  /** `gerar_tabela_geral`: one row per seller, the highest total first, then the total row. */
  function GeneralTable(sales: seq<Sale>): Report<string> {
    PivotReport(sales, SellerOf, Classify, ByTotal)
  }

  /** `sort_index(ascending=True)` on the day index as a descending sort on the negated date. */
  function EarliestDayFirst(r: TableRow<Date>): real {
    -(DateKey(r.key) as real)
  }

  /** `gerar_tabela_diaria_empresa`: one row per day, earliest first, then the total row. */
  function DailyTable(sales: seq<Sale>): Report<Date> {
    PivotReport(sales, DayOf, Classify, EarliestDayFirst)
  }

  /** `gerar_tabela_vendedor`: the OPD and Distribuição rows by date, and the totals dict. */
  function SellerTable(sales: seq<Sale>): Detail {
    DetailTable(sales, Classify)
  }

  /** `gerar_dados_ranking`: the seller pivot without total column or ordering (the chart sorts it). */
  function Ranking(sales: seq<Sale>): seq<Row<string>> {
    Accumulate(sales, SellerOf, Classify)
  }

  /** The general table's total row holds the panel's two totals and their sum; its rows are ordered by total, each with its seller's sums. */
  lemma GeneralTableTotals(sales: seq<Sale>)
    requires sales != []
    ensures var t := GeneralTable(sales);
            var p := ProcessarVendas(sales);
            t.Report? && t.totalRow == Totals(p.0, p.1, p.0 + p.1)
            && (forall i, j :: 0 <= i < j < |t.rows| ==> t.rows[i].total >= t.rows[j].total)
            && (forall i :: 0 <= i < |t.rows| ==>
                  t.rows[i].opd == KeySum(sales, SellerOf, Classify, t.rows[i].key, Opd)
                  && t.rows[i].dist == KeySum(sales, SellerOf, Classify, t.rows[i].key, Distribution))
  {
    PivotReportCorrect(sales, SellerOf, Classify, ByTotal);
    PivotReportRows(sales, SellerOf, Classify, ByTotal);
    PanelMatchesChannels(sales);
  }

  /** The daily table's total row holds the panel's totals; its days are in calendar order, each with that day's sums. */
  lemma DailyTableTotals(sales: seq<Sale>)
    requires sales != []
    ensures var t := DailyTable(sales);
            var p := ProcessarVendas(sales);
            t.Report? && t.totalRow == Totals(p.0, p.1, p.0 + p.1)
            && (forall i, j :: 0 <= i < j < |t.rows| ==> DateKey(t.rows[i].key) <= DateKey(t.rows[j].key))
            && (forall i :: 0 <= i < |t.rows| ==>
                  t.rows[i].opd == KeySum(sales, DayOf, Classify, t.rows[i].key, Opd)
                  && t.rows[i].dist == KeySum(sales, DayOf, Classify, t.rows[i].key, Distribution))
  {
    PivotReportCorrect(sales, DayOf, Classify, EarliestDayFirst);
    PivotReportRows(sales, DayOf, Classify, EarliestDayFirst);
    PanelMatchesChannels(sales);
    var t := DailyTable(sales);
    forall i, j | 0 <= i < j < |t.rows|
      ensures DateKey(t.rows[i].key) <= DateKey(t.rows[j].key)
    {
      assert EarliestDayFirst(t.rows[i]) >= EarliestDayFirst(t.rows[j]);
    }
  }

  /** The seller table's totals dict holds the panel's totals. */
  lemma SellerTableTotals(sales: seq<Sale>)
    requires sales != []
    ensures var d := SellerTable(sales);
            var p := ProcessarVendas(sales);
            d.Detail? && d.totals == Totals(p.0, p.1, p.0 + p.1)
  {
    PanelMatchesChannels(sales);
  }

  /** Each seller appears once in the ranking, with the sums of their own OPD and Distribuição sales. */
  lemma RankingRows(sales: seq<Sale>, seller: string)
    ensures Unique(RowKeys(Ranking(sales)))
    ensures CellOf(Ranking(sales), seller, Opd) == KeySum(sales, SellerOf, Classify, seller, Opd)
    ensures CellOf(Ranking(sales), seller, Distribution) == KeySum(sales, SellerOf, Classify, seller, Distribution)
  {
    AccumulateUnique(sales, SellerOf, Classify);
    AccumulateCells(sales, SellerOf, Classify, seller, Opd);
    AccumulateCells(sales, SellerOf, Classify, seller, Distribution);
  }

  // ------------------------------------------------------------------- panel

  /** The day counts of the panel, floored with `max(1, ·)` before any division. */
  method PanelDays(month: int, today: Date, holidays: Option<seq<int>>) returns (elapsed: int, remaining: int)
    requires ValidDate(today) && 1 <= month <= 12
    ensures elapsed == AtLeastOne(Elapsed(month, today, false, holidays))
    ensures remaining == AtLeastOne(Remaining(month, today, true, holidays))
  {
    var e := ElapsedBusinessDays(month, today, false, holidays);
    var n := RemainingBusinessDays(month, today, true, holidays);
    elapsed := AtLeastOne(e);
    remaining := AtLeastOne(n);
  }

  /**
    What "Painel Principal" shows: a warning when the filtered frame is empty;
    the warning that the goals were not loaded, with the two totals, when the
    comparison is empty; otherwise the goal panel.
   */
  datatype MainPage = NoData | TotalsOnly(opd: real, amc: real) | Shown(panel: Panel)

  /**
    The main panel of the filtered sales: for a comparison at hand, the company
    blocks for "Todos" (super goal with the OPD challenge added, pace falling
    back to the shortfall), then the checks of the goals kept by
    `v > 0 and k != "Realizado"`. A missing month column is caught while
    comparing, so an empty comparison takes the warning branch.
   */
  method GoalPanel(sales: seq<Sale>, c: Comparison, allSellers: bool, month: int, today: Date, holidays: Option<seq<int>>)
    returns (page: MainPage)
    requires ValidDate(today) && 1 <= month <= 12
    ensures sales == [] ==> page == NoData
    ensures sales != [] && !c.Compared? ==> page == TotalsOnly(ProcessarVendas(sales).0, ProcessarVendas(sales).1)
    ensures sales != [] && c.Compared? ==>
              var p := ProcessarVendas(sales);
              var e := AtLeastOne(Elapsed(month, today, false, holidays));
              var n := AtLeastOne(Remaining(month, today, true, holidays));
              page == Shown(PanelOf(c, p.0, p.1, allSellers, e, n, IsShownGoal, true, true))
              && page.panel.opd == CheckAll(Filter(OpdGoals(c), IsShownGoal), p.0, GuardedTrend(p.0, e, n).trend, n, true)
              && page.panel.amc == CheckAll(Filter(AmcGoals(c), IsShownGoal), p.1, GuardedTrend(p.1, e, n).trend, n, true)
  {
    if sales == [] {
      return NoData;
    }
    var totals := ProcessarVendas(sales);
    if !c.Compared? {
      return TotalsOnly(totals.0, totals.1);
    }
    var panel := ComparedPanel(c, totals.0, totals.1, allSellers, month, today, holidays);
    page := Shown(panel);
  }

  /** The goal panel for a comparison at hand, against the totals `opd` and `amc`. */
  method ComparedPanel(c: Comparison, opd: real, amc: real, allSellers: bool, month: int, today: Date, holidays: Option<seq<int>>)
    returns (panel: Panel)
    requires ValidDate(today) && 1 <= month <= 12
    ensures var e := AtLeastOne(Elapsed(month, today, false, holidays));
            var n := AtLeastOne(Remaining(month, today, true, holidays));
            panel == PanelOf(c, opd, amc, allSellers, e, n, IsShownGoal, true, true)
            && panel.opd == CheckAll(Filter(OpdGoals(c), IsShownGoal), opd, GuardedTrend(opd, e, n).trend, n, true)
            && panel.amc == CheckAll(Filter(AmcGoals(c), IsShownGoal), amc, GuardedTrend(amc, e, n).trend, n, true)
  {
    var e, n := PanelDays(month, today, holidays);
    var company := if allSellers then CompanyBlocks(CompanySums(c, true), opd + amc, e, n, true) else [];
    var opdChecks := ShowGoals(Filter(OpdGoals(c), IsShownGoal), opd, e, n, true);
    var amcChecks := ShowGoals(Filter(AmcGoals(c), IsShownGoal), amc, e, n, true);
    ShownGoalsPassSkip(OpdGoals(c));
    ShownGoalsPassSkip(AmcGoals(c));
    panel := Panel(company, opdChecks, amcChecks);
  }
}
