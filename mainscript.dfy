/**
  The top-level main.py: totals by the `AL_COD` code, the holiday-free count of
  business days left after today, `calcular_status` and the status page.
  Goal lookup is `Goals.Compare` with "Meta AN" and no KeyError handler.
 */
module MainScript {
  import opened Wrappers
  import opened Dates
  import opened BusinessCalendar
  import opened Masks
  import opened Sales
  import opened Goals
  import SemFinanceiro

  // ------------------------------------------------------------------- sales

  /** `dropna(subset=["AL_COD"])`: the rows whose code cell is filled. */
  predicate HasCode(s: Sale) {
    s.code.Some?
  }

  /** `df_vendas["AL_COD"] == code`. */
  function CodeIs(code: string): Sale -> bool {
    (s: Sale) => s.code == Some(code)
  }

  /** `processar_vendas`: the `PED_TOTAL` sums of the rows coded OPD and AMC, after dropping the uncoded ones. */
  function ProcessarVendas(sales: seq<Sale>): (real, real) {
    var coded := Filter(sales, HasCode);
    (SumWhere(coded, CodeIs("OPD")), SumWhere(coded, CodeIs("AMC")))
  }

  /** Dropping rows first does not change a sum whose mask only selects rows that are kept. */
  lemma {:induction false} SumWhereAfterFilter(s: seq<Sale>, keep: Sale -> bool, p: Sale -> bool)
    requires forall x :: p(x) ==> keep(x)
    ensures SumWhere(Filter(s, keep), p) == SumWhere(s, p)
  {
    if s != [] {
      SumWhereAfterFilter(s[1..], keep, p);
      var head := if keep(s[0]) then [s[0]] else [];
      assert Filter(s, keep) == head + Filter(s[1..], keep);
      SumWhereAppend(head, Filter(s[1..], keep), p);
      if keep(s[0]) {
        assert head[1..] == [];
      }
    }
  }

  /** A sum over rows none of which pass the mask is zero. */
  lemma {:induction false} SumWhereNone(s: seq<Sale>, p: Sale -> bool)
    requires forall i :: 0 <= i < |s| ==> !p(s[i])
    ensures SumWhere(s, p) == 0.0
  {
    if s != [] {
      SumWhereNone(s[1..], p);
    }
  }

  /** The totals are the sums over the rows carrying each code; the rows without a code never counted anyway. */
  lemma TotalsByCode(sales: seq<Sale>)
    ensures ProcessarVendas(sales) == (SumWhere(sales, CodeIs("OPD")), SumWhere(sales, CodeIs("AMC")))
  {
    SumWhereAfterFilter(sales, HasCode, CodeIs("OPD"));
    SumWhereAfterFilter(sales, HasCode, CodeIs("AMC"));
  }

  /** Rows with no code or a code other than OPD and AMC add to neither total. */
  lemma OtherCodesIgnored(sales: seq<Sale>, others: seq<Sale>)
    requires forall i :: 0 <= i < |others| ==> others[i].code != Some("OPD") && others[i].code != Some("AMC")
    ensures ProcessarVendas(sales + others) == ProcessarVendas(sales)
  {
    TotalsByCode(sales + others);
    TotalsByCode(sales);
    SumWhereAppend(sales, others, CodeIs("OPD"));
    SumWhereAppend(sales, others, CodeIs("AMC"));
    SumWhereNone(others, CodeIs("OPD"));
    SumWhereNone(others, CodeIs("AMC"));
  }

  // ---------------------------------------------------------------- calendar

  /**
    `calcular_dias_uteis_restantes(mes)`: 0 once today is past the month's last
    day (the first of the next month minus one), else the weekdays of the month
    strictly after today; holidays are not looked at.
   */
  function Remaining(month: int, today: Date): nat
    requires ValidDate(today) && 1 <= month <= 12
  {
    var t := Ordinal(today);
    var last := LastOfMonthViaNextYear(today.year, month);
    if t > last then 0
    else Count(FirstOfMonth(today.year, month), last, Window([], t, false, After))
  }

  /**
    The count by where today lies: nothing for a month already over, the
    weekdays after today for the current month, every weekday of a later month.
   */
  lemma RemainingByMonth(month: int, today: Date)
    requires ValidDate(today) && 1 <= month <= 12
    ensures var first := FirstOfMonth(today.year, month);
            var last := LastOfMonth(today.year, month);
            (month < today.month ==> Remaining(month, today) == 0)
            && (month == today.month ==> Remaining(month, today) == BusinessDays(Ordinal(today) + 1, last, []))
            && (month > today.month ==> Remaining(month, today) == BusinessDays(first, last, []))
  {
    var first := FirstOfMonth(today.year, month);
    var last := LastOfMonth(today.year, month);
    var t := Ordinal(today);
    LastOfMonthIsMonthEnd(today.year, month);
    SemFinanceiro.TodayAgainstMonth(month, today);
    CountAfterToday(first, last, Window([], t, false, After));
  }

  /** Every counted day lies in the month: the count is at most the month's weekdays, and so at most its length. */
  lemma RemainingWithinMonth(month: int, today: Date)
    requires ValidDate(today) && 1 <= month <= 12
    ensures var all := BusinessDays(FirstOfMonth(today.year, month), LastOfMonth(today.year, month), []);
            Remaining(month, today) <= all && all <= DaysInMonth(today.year, month)
  {
    var first := FirstOfMonth(today.year, month);
    var last := LastOfMonth(today.year, month);
    var t := Ordinal(today);
    LastOfMonthIsMonthEnd(today.year, month);
    CountAtMostBusinessDays(first, last, Window([], t, false, After));
    BusinessDaysAtMostWeekdays(first, last, []);
  }

  /** The count is the newer dashboards' count without today and without holidays, for every month. */
  lemma AgreesWithNewerCount(month: int, today: Date)
    requires ValidDate(today) && 1 <= month <= 12
    ensures Remaining(month, today) == SemFinanceiro.Remaining(month, today, false, None)
  {
    var first := FirstOfMonth(today.year, month);
    var last := LastOfMonth(today.year, month);
    var t := Ordinal(today);
    var w := Window([], t, false, After);
    LastOfMonthIsMonthEnd(today.year, month);
    SemFinanceiro.TodayAgainstMonth(month, today);
    CountAfterToday(first, last, w);
    CountAfterToday(SemFinanceiro.RemainingStart(month, today), last, w);
  }

  // ------------------------------------------------------------------ status

  /**
    `calcular_status`: the waterfall of the goals over the amount sold, paced
    over the weekdays left after today; nothing is printed when no day is left.
   */
  method CalcularStatus(realized: real, goals: seq<Entry>, month: int, today: Date) returns (lines: seq<StatusLine>)
    requires ValidDate(today) && 1 <= month <= 12
    ensures lines == WaterfallLines(realized, goals, Remaining(month, today), false)
  {
    var days := Remaining(month, today);
    lines := Waterfall(realized, goals, days, false);
  }

  /** The OPD goals the page passes to `calcular_status`, in order. */
  function OpdTiers(opd: seq<Entry>): seq<Entry> {
    [Entry("Meta AN", Get(opd, "Meta AN", 0.0)), Entry("Meta Desafio", Get(opd, "Meta Desafio", 0.0))]
  }

  /** The AMC goals, the super goal read with `.get("Super Meta", 0)`. */
  function AmcTiers(amc: seq<Entry>): seq<Entry> {
    [Entry("Meta AN", Get(amc, "Meta AN", 0.0)), Entry("Meta Desafio", Get(amc, "Meta Desafio", 0.0)),
     Entry("Super Meta", Get(amc, "Super Meta", 0.0))]
  }

  /**
    On a successful comparison the tiers are the tab's cells for the month:
    the annual-plan and challenge goals for OPD, the super goal besides for
    AMC, and the amount sold is each side's total.
   */
  lemma TiersOfComparison(sheet: GoalSheet, month: int, totalOpd: real, totalAmc: real)
    requires WellFormed(sheet) && 1 <= month <= 12
    ensures var c := Compare(sheet, month, totalOpd, totalAmc, "Meta AN", false);
            var col := MonthColumn(month);
            c.Compared? ==>
              OpdTiers(c.opd) == [Entry("Meta AN", Cell(sheet, OpdMonthly, col).value),
                                  Entry("Meta Desafio", Cell(sheet, OpdChallenge, col).value)]
              && AmcTiers(c.amc) == [Entry("Meta AN", Cell(sheet, DistMonthly, col).value),
                                     Entry("Meta Desafio", Cell(sheet, DistChallenge, col).value),
                                     Entry("Super Meta", Cell(sheet, DistSuper, col).value)]
              && Get(c.opd, "Realizado", 0.0) == totalOpd && Get(c.amc, "Realizado", 0.0) == totalAmc
  {
    var c := Compare(sheet, month, totalOpd, totalAmc, "Meta AN", false);
    if c.Compared? {
      var opd1 := c.opd[1..];
      var amc1 := c.amc[1..];
      var amc2 := amc1[1..];
      assert Get(c.opd, "Meta AN", 0.0) == Get(opd1, "Meta AN", 0.0) == opd1[0].value;
      assert Get(c.opd, "Meta Desafio", 0.0) == Get(opd1, "Meta Desafio", 0.0) == Get(opd1[1..], "Meta Desafio", 0.0);
      assert Get(c.amc, "Meta AN", 0.0) == Get(amc1, "Meta AN", 0.0) == amc1[0].value;
      assert Get(c.amc, "Meta Desafio", 0.0) == Get(amc1, "Meta Desafio", 0.0) == Get(amc2, "Meta Desafio", 0.0);
      assert Get(c.amc, "Super Meta", 0.0) == Get(amc1, "Super Meta", 0.0) == Get(amc2, "Super Meta", 0.0)
             == Get(amc2[1..], "Super Meta", 0.0);
    }
  }

  /**
    What the page shows once a file is sent: it fails on the KeyError of a
    missing month column, shows an error for an empty comparison, and else
    the status text of each side.
   */
  datatype StatusPage = Crashed | NoComparison | Statuses(opd: seq<StatusLine>, amc: seq<StatusLine>)

  /** The "Status das Metas" section of the page for a comparison. */
  method StatusSection(c: Comparison, month: int, today: Date) returns (page: StatusPage)
    requires ValidDate(today) && 1 <= month <= 12
    ensures c.KeyErrorRaised? ==> page == Crashed
    ensures c.NoGoals? ==> page == NoComparison
    ensures c.Compared? ==>
              var n := Remaining(month, today);
              page == Statuses(WaterfallLines(Get(c.opd, "Realizado", 0.0), OpdTiers(c.opd), n, false),
                               WaterfallLines(Get(c.amc, "Realizado", 0.0), AmcTiers(c.amc), n, false))
  {
    match c {
      case KeyErrorRaised =>
        return Crashed;
      case NoGoals =>
        return NoComparison;
      case Compared(opd, amc) =>
        var opdLines := CalcularStatus(Get(opd, "Realizado", 0.0), OpdTiers(opd), month, today);
        var amcLines := CalcularStatus(Get(amc, "Realizado", 0.0), AmcTiers(amc), month, today);
        page := Statuses(opdLines, amcLines);
    }
  }
}
