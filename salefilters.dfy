/**
  The row tests of `filtrar_vendas`: the date window, the seller, the order
  type and the excluded customer names, each as a predicate on one sale and
  as the pandas mask that keeps the rows passing it.
 */
module SaleFilters {
  import opened Wrappers
  import opened Dates
  import opened Masks
  import opened Text
  import opened Sales

  /** A period given by two dates, both days included. */
  datatype Period = Period(start: Date, end: Date)

  /** The two customer names of the Casa do Pedreiro, dropped unless its sales are included. */
  const CdpNames: seq<string> := [
    "DO PEDREIRO DO LITORAL COMERC DE MATERIAIS DE CONSTRUCAO LTD",
    "DO PEDREIRO DO LITORAL COMERCIO DE MATERIAIS DE CONSTRUCAO"
  ]

  /** `data_inicial <= DAT_CAD_DATE <= data_final`, dates compared as Python compares them. */
  predicate InPeriod(s: Sale, p: Period) {
    DateKey(p.start) <= DateKey(s.date) <= DateKey(p.end)
  }

  /** `DAT_CAD.dt.month == mes` and `DAT_CAD.dt.year == ano_atual`. */
  predicate InMonth(s: Sale, month: int, year: int) {
    s.date.month == month && s.date.year == year
  }

  /** `elif mes_referencia:` — a month filter applies only for a month that is not None or 0. */
  predicate MonthActive(month: Option<int>) {
    month.Some? && month.value != 0
  }

  /** The date test of either branch, or none when neither a period nor a month is given. */
  predicate PassesDate(s: Sale, period: Option<Period>, month: Option<int>, year: int) {
    if period.Some? then InPeriod(s, period.value)
    else if MonthActive(month) then InMonth(s, month.value, year)
    else true
  }

  /** `vendedor_selecionado and vendedor_selecionado != "Todos"`: None, "" and "Todos" select every seller. */
  predicate SellerActive(seller: Option<string>) {
    seller.Some? && seller.value != "" && seller.value != "Todos"
  }

  predicate PassesSeller(s: Sale, seller: Option<string>) {
    !SellerActive(seller) || s.seller == seller.value
  }

  /** `PED_TIPO.str.upper() == "V"`: a sale order, in either case. */
  predicate IsSaleOrder(s: Sale) {
    Upper(s.orderType) == "V"
  }

  /** `~CLI_RAZ.isin(nomes_cdp)`. */
  predicate NotCdp(s: Sale) {
    s.customer !in CdpNames
  }

  function PeriodMask(p: Period): Sale -> bool {
    s => InPeriod(s, p)
  }

  function MonthMask(month: int, year: int): Sale -> bool {
    s => InMonth(s, month, year)
  }

  function DateMask(period: Option<Period>, month: Option<int>, year: int): Sale -> bool {
    s => PassesDate(s, period, month, year)
  }

  function SellerMask(seller: Option<string>): Sale -> bool {
    s => PassesSeller(s, seller)
  }

  /** The date block of `filtrar_vendas`: the period when both dates are given, else the month of the current year, else nothing. */
  function DateStage(sales: seq<Sale>, period: Option<Period>, month: Option<int>, year: int): (r: seq<Sale>)
    ensures r == Filter(sales, DateMask(period, month, year))
  {
    var all := DateMask(period, month, year);
    if period.Some? then
      FilterSame(sales, PeriodMask(period.value), all);
      Filter(sales, PeriodMask(period.value))
    else if MonthActive(month) then
      FilterSame(sales, MonthMask(month.value, year), all);
      Filter(sales, MonthMask(month.value, year))
    else
      FilterAll(sales, all);
      sales
  }

  /** The seller block: the rows of the selected seller, or all rows when none is selected. */
  function SellerStage(sales: seq<Sale>, seller: Option<string>): (r: seq<Sale>)
    ensures r == Filter(sales, SellerMask(seller))
  {
    if SellerActive(seller) then
      FilterSame(sales, ByName(seller.value), SellerMask(seller));
      Filter(sales, ByName(seller.value))
    else
      FilterAll(sales, SellerMask(seller));
      sales
  }

  function ByName(name: string): Sale -> bool {
    (s: Sale) => s.seller == name
  }

  /** The Casa do Pedreiro block: its rows are dropped unless `com_cdp`. */
  function CdpStage(sales: seq<Sale>, withCdp: bool): (r: seq<Sale>)
    ensures withCdp ==> r == sales
    ensures !withCdp ==> r == Filter(sales, NotCdp)
  {
    if withCdp then sales else Filter(sales, NotCdp)
  }
}
