/**
  The earlier dashboard old_files/main_atualizado.py, where it differs from
  the newest one: no order-type filter, a distribution rule without the
  status test, tab selection on the exact name, an unguarded trend on floored
  day counts, a pace of 0 when no day is left, and a super goal of AMC only.
  Its calendar functions, `calcular_status` and `comparar_com_metas` are the
  ones modelled in SemFinanceiro and Goals.
 */
module Atualizado {
  import opened Wrappers
  import opened Dates
  import opened Masks
  import opened Sales
  import opened SaleFilters
  import opened Goals
  import opened Pivot
  import opened Trend
  import SemFinanceiro

  // ---------------------------------------------------------------- filtering

  /** The date, seller and Casa do Pedreiro tests together. */
  function Keeps(period: Option<Period>, month: Option<int>, year: int, seller: Option<string>, withCdp: bool): Sale -> bool {
    (s: Sale) => PassesDate(s, period, month, year) && PassesSeller(s, seller) && (withCdp || NotCdp(s))
  }

  /** `filtrar_vendas`: the date, seller and Casa do Pedreiro stages, with no order-type stage. */
  function Filtrar(sales: seq<Sale>, month: Option<int>, seller: Option<string>, period: Option<Period>,
                   withCdp: bool, today: Date): seq<Sale>
  {
    CdpStage(SellerStage(DateStage(sales, period, month, today.year), seller), withCdp)
  }

  /** The stages compose to one mask, and the result is a subsequence of the sheet. */
  lemma FiltrarIsOneMask(sales: seq<Sale>, month: Option<int>, seller: Option<string>, period: Option<Period>,
                         withCdp: bool, today: Date)
    ensures var r := Filtrar(sales, month, seller, period, withCdp, today);
            r == Filter(sales, Keeps(period, month, today.year, seller, withCdp))
            && IsSubsequence(r, sales)
  {
    var y := today.year;
    var keep := Keeps(period, month, y, seller, withCdp);
    var ds := SemFinanceiro.DateAndSeller(period, month, y, seller);
    FilterFuse(sales, DateMask(period, month, y), SellerMask(seller), ds);
    if withCdp {
      FilterSame(sales, ds, keep);
    } else {
      FilterFuse(sales, ds, NotCdp, keep);
    }
    FilterIsSubsequence(sales, keep);
  }

  /** The newest dashboard keeps exactly this dashboard's rows that are sale orders. */
  lemma NewerFilterAddsOrderType(sales: seq<Sale>, month: Option<int>, seller: Option<string>, period: Option<Period>,
                                 withCdp: bool, today: Date)
    ensures SemFinanceiro.Filtrar(sales, month, seller, period, withCdp, today, true)
            == Filter(Filtrar(sales, month, seller, period, withCdp, today), IsSaleOrder)
  {
    var y := today.year;
    FiltrarIsOneMask(sales, month, seller, period, withCdp, today);
    SemFinanceiro.FiltrarIsOneMask(sales, month, seller, period, withCdp, today);
    FilterFuse(sales, Keeps(period, month, y, seller, withCdp), IsSaleOrder, SemFinanceiro.Keeps(period, month, y, seller, withCdp));
  }

  // ------------------------------------------------------------------- sales

  /** A distribution sale of this dashboard: a distribution tag, whatever the status. */
  predicate IsDistributionSale(s: Sale) {
    s.tag in DistributionTags
  }

  /** The nested `np.where` of the tables: OPD first, then any distribution tag, else Outros. */
  function Classify(s: Sale): (ch: Channel)
    ensures ch == Opd <==> IsOpdSale(s)
    ensures ch == Distribution <==> IsDistributionSale(s)
  {
    if IsOpdSale(s) then Opd else if IsDistributionSale(s) then Distribution else Other
  }

  /** `processar_vendas`: the OPD total and the total of every distribution-tagged row. */
  function ProcessarVendas(sales: seq<Sale>): (real, real) {
    if sales == [] then (0.0, 0.0)
    else (SumWhere(sales, IsOpdSale), SumWhere(sales, IsDistributionSale))
  }

  /** The panel's totals are the tables' channel totals. */
  lemma PanelMatchesChannels(sales: seq<Sale>)
    ensures ProcessarVendas(sales).0 == ChannelTotal(sales, Classify, Opd)
    ensures ProcessarVendas(sales).1 == ChannelTotal(sales, Classify, Distribution)
  {
    ChannelTotalIsSumWhere(sales, Classify, Opd, IsOpdSale);
    ChannelTotalIsSumWhere(sales, Classify, Distribution, IsDistributionSale);
  }

  /** Both dashboards agree on OPD; this one also counts distribution rows whose status is neither F nor N. */
  lemma ClassificationsDiffer(s: Sale)
    ensures (Classify(s) == Opd) == (SemFinanceiro.Classify(s) == Opd)
    ensures SemFinanceiro.Classify(s) == Distribution ==> Classify(s) == Distribution
    ensures Classify(s) == Distribution && SemFinanceiro.Classify(s) != Distribution ==> s.status !in ["F", "N"]
  {
  }

  // ------------------------------------------------------------------ tables

  /** `gerar_tabela_geral`: one row per seller, highest total first, then the total row. */
  function GeneralTable(sales: seq<Sale>): Report<string> {
    PivotReport(sales, SellerOf, Classify, ByTotal)
  }

  /** `gerar_tabela_vendedor`: the OPD and Distribuição rows by date, without the totals dict. */
  function SellerTable(sales: seq<Sale>): seq<DetailRow> {
    if sales == [] then [] else DetailTable(sales, Classify).rows
  }

  /** The general table's total row holds the panel's totals; its rows are ordered by total, each with its seller's sums. */
  lemma GeneralTableTotals(sales: seq<Sale>)
    requires sales != []
    ensures var t := GeneralTable(sales);
            var p := ProcessarVendas(sales);
            t.Report? && t.totalRow == Totals(p.0, p.1, p.0 + p.1)
            && (forall i, j :: 0 <= i < j < |t.rows| ==> t.rows[i].total >= t.rows[j].total)
            && (forall i :: 0 <= i < |t.rows| ==>
                  t.rows[i].opd == KeySum(sales, SellerOf, Classify, t.rows[i].key, Opd)
                  && t.rows[i].dist == KeySum(sales, SellerOf, Classify, t.rows[i].key, Distribution))
  {
    PivotReportCorrect(sales, SellerOf, Classify, ByTotal);
    PivotReportRows(sales, SellerOf, Classify, ByTotal);
    PanelMatchesChannels(sales);
  }

  /** The seller table lists the OPD and Distribuição rows once each, earliest first, adding up to the panel's totals. */
  lemma SellerTableRows(sales: seq<Sale>)
    ensures var rows := SellerTable(sales);
            var p := ProcessarVendas(sales);
            (forall i, j :: 0 <= i < j < |rows| ==> DateKey(rows[i].date) <= DateKey(rows[j].date))
            && multiset(rows) == multiset(DetailRows(sales, Classify))
            && SumBy(rows, AmountOf) == p.0 + p.1
  {
    if sales != [] {
      DetailTableCorrect(sales, Classify);
      PanelMatchesChannels(sales);
    }
  }

  // -------------------------------------------------------------- goal tabs

  /** The goal tab of the selected seller, matched on the exact name. */
  function GoalTab(seller: string): string {
    if seller == "Todos" then "GERAL"
    else if seller in ["ROSESILVESTRE"] then "ROSE"
    else if seller in ["ROBSON"] then "ROBSON"
    else if seller in ["DANILIMA"] then "DANILIMA"
    else if seller in ["JOSE RENATO MAULER"] then "RENATO"
    else "GERAL"
  }

  /** A personal tab is chosen exactly for the four listed names, written exactly so. */
  lemma PersonalTabs(s: string)
    ensures GoalTab(s) != "GERAL" <==> s in ["ROSESILVESTRE", "ROBSON", "DANILIMA", "JOSE RENATO MAULER"]
  {
  }

  /** Matching is case-sensitive here, unlike the newest dashboard. */
  lemma TabsDependOnCase()
    ensures GoalTab("danilima") == "GERAL"
    ensures SemFinanceiro.GoalTab("danilima") == "DANILIMA"
  {
    var u := Text.Upper("danilima");
    assert |u| == 8;
    assert u[0] == 'D' && u[1] == 'A' && u[2] == 'N' && u[3] == 'I';
    assert u[4] == 'L' && u[5] == 'I' && u[6] == 'M' && u[7] == 'A';
    assert u == "DANILIMA";
  }

  // ------------------------------------------------------------------- panel

  /**
    The main panel of the filtered sales: the warning for an empty frame, the
    totals alone for an empty comparison (the KeyError of a missing month is
    caught while comparing), otherwise day counts floored with `max(1, ·)`,
    the trend without its guard, company blocks for "Todos" (super goal of AMC
    only, pace 0 when no day is left), then the checks of the goals kept by
    `v > 0`, the loop skipping "Realizado".
   */
  method GoalPanel(sales: seq<Sale>, c: Comparison, allSellers: bool, month: int, today: Date, holidays: Option<seq<int>>)
    returns (page: SemFinanceiro.MainPage)
    requires ValidDate(today) && 1 <= month <= 12
    ensures sales == [] ==> page == SemFinanceiro.NoData
    ensures sales != [] && !c.Compared? ==> page == SemFinanceiro.TotalsOnly(ProcessarVendas(sales).0, ProcessarVendas(sales).1)
    ensures sales != [] && c.Compared? ==>
              var p := ProcessarVendas(sales);
              var e := AtLeastOne(SemFinanceiro.Elapsed(month, today, false, holidays));
              var n := AtLeastOne(SemFinanceiro.Remaining(month, today, true, holidays));
              page == SemFinanceiro.Shown(PanelOf(c, p.0, p.1, allSellers, e, n, IsPositiveGoal, false, false))
              && page.panel.opd == CheckAll(Filter(OpdGoals(c), IsShownGoal), p.0, GuardedTrend(p.0, e, n).trend, n, false)
              && page.panel.amc == CheckAll(Filter(AmcGoals(c), IsShownGoal), p.1, GuardedTrend(p.1, e, n).trend, n, false)
  {
    if sales == [] {
      return SemFinanceiro.NoData;
    }
    var totals := ProcessarVendas(sales);
    if !c.Compared? {
      return SemFinanceiro.TotalsOnly(totals.0, totals.1);
    }
    var panel := ComparedPanel(c, totals.0, totals.1, allSellers, month, today, holidays);
    page := SemFinanceiro.Shown(panel);
  }

  /** The goal panel for a comparison at hand, against the totals `opd` and `amc`. */
  method ComparedPanel(c: Comparison, opd: real, amc: real, allSellers: bool, month: int, today: Date, holidays: Option<seq<int>>)
    returns (panel: Panel)
    requires ValidDate(today) && 1 <= month <= 12
    ensures var e := AtLeastOne(SemFinanceiro.Elapsed(month, today, false, holidays));
            var n := AtLeastOne(SemFinanceiro.Remaining(month, today, true, holidays));
            panel == PanelOf(c, opd, amc, allSellers, e, n, IsPositiveGoal, false, false)
            && panel.opd == CheckAll(Filter(OpdGoals(c), IsShownGoal), opd, GuardedTrend(opd, e, n).trend, n, false)
            && panel.amc == CheckAll(Filter(AmcGoals(c), IsShownGoal), amc, GuardedTrend(amc, e, n).trend, n, false)
  {
    var e, n := SemFinanceiro.PanelDays(month, today, holidays);
    var company := if allSellers then CompanyBlocks(CompanySums(c, false), opd + amc, e, n, false) else [];
    var opdChecks := ShowGoals(Filter(OpdGoals(c), IsPositiveGoal), opd, e, n, false);
    var amcChecks := ShowGoals(Filter(AmcGoals(c), IsPositiveGoal), amc, e, n, false);
    PositiveGoalsPassSkip(OpdGoals(c));
    PositiveGoalsPassSkip(AmcGoals(c));
    panel := Panel(company, opdChecks, amcChecks);
  }
}
