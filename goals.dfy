/**
  Sales goals: the sequential goal waterfall of `calcular_status`, the
  comparison dictionary of `comparar_com_metas`, and the goal-sheet lookup
  it is built from.
 */
module Goals {
  import opened Wrappers

  /** One item of a Python dict of goals: its key and its value. */
  datatype Entry = Entry(key: string, value: real)

  /** The lines of the status text, without their wording and money formatting. */
  datatype StatusLine =
    | Reached(name: string, goal: real, surplus: real)  // "Bateu a <meta> ... com uma diferença de ..."
    | Missing(name: string, shortfall: real)             // "Falta R$ ... para <meta>"
    | DailyPace(amount: real)                            // "precisamos vender R$ ... por dia"
    | NoDaysLeft                                         // "Não há mais dias úteis neste mês"

  /** The sum of the goal values of `tiers`. */
  function SumValues(tiers: seq<Entry>): real {
    if tiers == [] then 0.0 else SumValues(tiers[..|tiers| - 1]) + tiers[|tiers| - 1].value
  }

  /** The goals of tiers 0..j together. */
  function Through(tiers: seq<Entry>, j: int): real
    requires 0 <= j < |tiers|
  {
    SumValues(tiers[..j + 1])
  }

  lemma PrefixSumStep(tiers: seq<Entry>, j: int)
    requires 0 <= j < |tiers|
    ensures Through(tiers, j) == SumValues(tiers[..j]) + tiers[j].value
  {
    assert tiers[..j + 1][..j] == tiers[..j];
  }

  /**
    The index of the first tier the realized amount does not cover, looking
    only at the running sums: tier j is covered when `realized` is at least the
    sum of goals 0..j. Returns |tiers| when every tier from `from` on is covered.
   */
  function FirstUnmetFrom(realized: real, tiers: seq<Entry>, from: nat): (k: nat)
    requires from <= |tiers|
    ensures from <= k <= |tiers|
    ensures forall j :: from <= j < k ==> realized >= Through(tiers, j)
    ensures k < |tiers| ==> realized < Through(tiers, k)
    decreases |tiers| - from
  {
    if from == |tiers| then from
    else if realized < SumValues(tiers[..from + 1]) then from
    else FirstUnmetFrom(realized, tiers, from + 1)
  }

  function FirstUnmet(realized: real, tiers: seq<Entry>): (k: nat)
    ensures k <= |tiers|
    ensures forall j :: 0 <= j < k ==> realized >= Through(tiers, j)
    ensures k < |tiers| ==> realized < Through(tiers, k)
  {
    FirstUnmetFrom(realized, tiers, 0)
  }

  /** The daily amount that makes up `shortfall` over `days` business days. */
  function PerDay(shortfall: real, days: int): real
    requires days > 0
  {
    shortfall / days as real
  }

  /** The pace line after a missed tier: one when days remain, otherwise the "no days" line if the script prints it. */
  function PaceLines(shortfall: real, days: int, reportNoDays: bool): seq<StatusLine> {
    if days > 0 then [DailyPace(PerDay(shortfall, days))]
    else if reportNoDays then [NoDaysLeft]
    else []
  }

  /**
    The status lines `calcular_status` emits for running credit `credit` over
    the remaining `tiers`: each covered tier is reported and taken off the
    credit; the first uncovered one is reported with its shortfall and the pace,
    and the walk stops there.
   */
  function WaterfallLines(credit: real, tiers: seq<Entry>, days: int, reportNoDays: bool): seq<StatusLine>
    decreases |tiers|
  {
    if tiers == [] then []
    else if credit >= tiers[0].value then
      [Reached(tiers[0].key, tiers[0].value, credit - tiers[0].value)]
      + WaterfallLines(credit - tiers[0].value, tiers[1..], days, reportNoDays)
    else
      [Missing(tiers[0].key, tiers[0].value - credit)] + PaceLines(tiers[0].value - credit, days, reportNoDays)
  }

  /** The line for covered tier j: its surplus is what is left after goals 0..j. */
  function ReachedLine(realized: real, tiers: seq<Entry>, j: int): StatusLine
    requires 0 <= j < |tiers|
  {
    Reached(tiers[j].key, tiers[j].value, realized - Through(tiers, j))
  }

  /** What follows the covered tiers: nothing when all are covered, else the shortfall of tier k and the pace. */
  function Tail(realized: real, tiers: seq<Entry>, k: int, days: int, reportNoDays: bool): seq<StatusLine>
    requires 0 <= k <= |tiers|
  {
    if k == |tiers| then []
    else
      var shortfall := Through(tiers, k) - realized;
      [Missing(tiers[k].key, shortfall)] + PaceLines(shortfall, days, reportNoDays)
  }

  /** The lines for covered tiers i..k-1. */
  function ReachedLines(realized: real, tiers: seq<Entry>, i: nat, k: nat): (r: seq<StatusLine>)
    requires i <= k <= |tiers|
    ensures |r| == k - i
    decreases k - i
  {
    if i == k then [] else [ReachedLine(realized, tiers, i)] + ReachedLines(realized, tiers, i + 1, k)
  }

  /** Line j - i of ReachedLines(i, k) is the line of covered tier j. */
  lemma {:induction false} ReachedLinesAt(realized: real, tiers: seq<Entry>, i: nat, k: nat, j: nat)
    requires i <= j < k <= |tiers|
    ensures ReachedLines(realized, tiers, i, k)[j - i] == ReachedLine(realized, tiers, j)
    decreases j - i
  {
    if j > i {
      ReachedLinesAt(realized, tiers, i + 1, k, j);
    }
  }

  lemma {:induction false} ShapeFrom(realized: real, tiers: seq<Entry>, days: int, reportNoDays: bool, i: nat)
    requires i <= |tiers|
    ensures WaterfallLines(realized - SumValues(tiers[..i]), tiers[i..], days, reportNoDays)
            == ReachedLines(realized, tiers, i, FirstUnmetFrom(realized, tiers, i))
               + Tail(realized, tiers, FirstUnmetFrom(realized, tiers, i), days, reportNoDays)
    decreases |tiers| - i
  {
    if i == |tiers| {
      assert tiers[i..] == [];
    } else if realized - SumValues(tiers[..i]) >= tiers[i].value {
      ShapeFrom(realized, tiers, days, reportNoDays, i + 1);
      ShapeStepReached(realized, tiers, days, reportNoDays, i);
    } else {
      ShapeStepMissed(realized, tiers, days, reportNoDays, i);
    }
  }

  lemma ShapeStepReached(realized: real, tiers: seq<Entry>, days: int, reportNoDays: bool, i: nat)
    requires i < |tiers| && realized - SumValues(tiers[..i]) >= tiers[i].value
    requires WaterfallLines(realized - SumValues(tiers[..i + 1]), tiers[i + 1..], days, reportNoDays)
             == ReachedLines(realized, tiers, i + 1, FirstUnmetFrom(realized, tiers, i + 1))
                + Tail(realized, tiers, FirstUnmetFrom(realized, tiers, i + 1), days, reportNoDays)
    ensures WaterfallLines(realized - SumValues(tiers[..i]), tiers[i..], days, reportNoDays)
            == ReachedLines(realized, tiers, i, FirstUnmetFrom(realized, tiers, i))
               + Tail(realized, tiers, FirstUnmetFrom(realized, tiers, i), days, reportNoDays)
  {
    var credit := realized - SumValues(tiers[..i]);
    CoveredStep(realized, tiers, days, reportNoDays, i);
    var k := FirstUnmetFrom(realized, tiers, i + 1);
    var line := ReachedLine(realized, tiers, i);
    var rest := ReachedLines(realized, tiers, i + 1, k);
    var tail := Tail(realized, tiers, k, days, reportNoDays);
    assert [line] + (rest + tail) == ([line] + rest) + tail;
  }

  /** At a covered tier the walk emits its line and moves on, and the first uncovered tier is the same from either side of it. */
  lemma CoveredStep(realized: real, tiers: seq<Entry>, days: int, reportNoDays: bool, i: nat)
    requires i < |tiers| && realized - SumValues(tiers[..i]) >= tiers[i].value
    ensures WaterfallLines(realized - SumValues(tiers[..i]), tiers[i..], days, reportNoDays)
            == [ReachedLine(realized, tiers, i)]
               + WaterfallLines(realized - SumValues(tiers[..i + 1]), tiers[i + 1..], days, reportNoDays)
    ensures FirstUnmetFrom(realized, tiers, i) == FirstUnmetFrom(realized, tiers, i + 1)
    ensures ReachedLines(realized, tiers, i, FirstUnmetFrom(realized, tiers, i))
            == [ReachedLine(realized, tiers, i)] + ReachedLines(realized, tiers, i + 1, FirstUnmetFrom(realized, tiers, i + 1))
  {
    var credit := realized - SumValues(tiers[..i]);
    PrefixSumStep(tiers, i);
    WaterfallUnfold(credit, tiers, days, reportNoDays, i);
  }

  lemma ShapeStepMissed(realized: real, tiers: seq<Entry>, days: int, reportNoDays: bool, i: nat)
    requires i < |tiers| && realized - SumValues(tiers[..i]) < tiers[i].value
    ensures WaterfallLines(realized - SumValues(tiers[..i]), tiers[i..], days, reportNoDays)
            == ReachedLines(realized, tiers, i, FirstUnmetFrom(realized, tiers, i))
               + Tail(realized, tiers, FirstUnmetFrom(realized, tiers, i), days, reportNoDays)
  {
    var credit := realized - SumValues(tiers[..i]);
    PrefixSumStep(tiers, i);
    WaterfallUnfold(credit, tiers, days, reportNoDays, i);
    assert FirstUnmetFrom(realized, tiers, i) == i;
    assert ReachedLines(realized, tiers, i, i) == [];
  }

  /**
    The waterfall's shape: the covered tiers are exactly the first k = FirstUnmet
    ones, each reported with surplus realized minus the goals up to it; after
    them comes the shortfall of tier k, if there is one, then a pace line only
    when days remain.
   */
  lemma WaterfallShape(realized: real, tiers: seq<Entry>, days: int, reportNoDays: bool)
    ensures var k := FirstUnmet(realized, tiers);
            WaterfallLines(realized, tiers, days, reportNoDays)
            == ReachedLines(realized, tiers, 0, k) + Tail(realized, tiers, k, days, reportNoDays)
  {
    ShapeFrom(realized, tiers, days, reportNoDays, 0);
    assert tiers[..0] == [];
    assert tiers[0..] == tiers;
  }

  /** The covered tiers are a prefix of the given order: a tier is covered only when all before it are. */
  lemma CoveredIsPrefix(realized: real, tiers: seq<Entry>, j: int)
    requires 0 <= j < |tiers|
    ensures j < FirstUnmet(realized, tiers) <==> forall i :: 0 <= i <= j ==> realized >= Through(tiers, i)
  {
    var k := FirstUnmet(realized, tiers);
    if k <= j {
      assert realized < Through(tiers, k);
    }
  }

  /** The shortfall of the first uncovered tier is positive, and the credit left after the covered ones is not negative. */
  lemma ShortfallPositive(realized: real, tiers: seq<Entry>)
    ensures var k := FirstUnmet(realized, tiers);
            (k < |tiers| ==> Through(tiers, k) - realized > 0.0)
            && (k > 0 ==> realized - SumValues(tiers[..k]) >= 0.0)
  {
    var k := FirstUnmet(realized, tiers);
    if k > 0 {
      assert realized >= Through(tiers, k - 1);
    }
  }

  /** With non-negative goals, running sums never pass the total. */
  lemma {:induction false} PrefixSumAtMostTotal(tiers: seq<Entry>, j: nat)
    requires forall i :: 0 <= i < |tiers| ==> tiers[i].value >= 0.0
    requires j <= |tiers|
    ensures SumValues(tiers[..j]) <= SumValues(tiers)
    decreases |tiers| - j
  {
    if j < |tiers| {
      PrefixSumStep(tiers, j);
      PrefixSumAtMostTotal(tiers, j + 1);
    } else {
      assert tiers[..j] == tiers;
    }
  }

  /** When the realized amount covers the sum of non-negative goals, every tier is reported as reached and nothing else. */
  lemma AllReachedWhenEnough(realized: real, tiers: seq<Entry>, days: int, reportNoDays: bool)
    requires forall i :: 0 <= i < |tiers| ==> tiers[i].value >= 0.0
    requires realized >= SumValues(tiers)
    ensures FirstUnmet(realized, tiers) == |tiers|
    ensures var lines := WaterfallLines(realized, tiers, days, reportNoDays);
            |lines| == |tiers| && forall j :: 0 <= j < |tiers| ==> lines[j].Reached? && lines[j].name == tiers[j].key
  {
    var k := FirstUnmet(realized, tiers);
    if k < |tiers| {
      PrefixSumAtMostTotal(tiers, k + 1);
      assert false;
    }
    WaterfallShape(realized, tiers, days, reportNoDays);
    var lines := WaterfallLines(realized, tiers, days, reportNoDays);
    assert lines == ReachedLines(realized, tiers, 0, k);
    forall j | 0 <= j < |tiers|
      ensures lines[j].Reached? && lines[j].name == tiers[j].key
    {
      ReachedLinesAt(realized, tiers, 0, k, j);
    }
  }

  /** Nothing sold against a positive first goal: no tier is reached and the first line is its full shortfall. */
  lemma NothingReachedFromZero(tiers: seq<Entry>, days: int, reportNoDays: bool)
    requires |tiers| > 0 && tiers[0].value > 0.0
    ensures FirstUnmet(0.0, tiers) == 0
    ensures WaterfallLines(0.0, tiers, days, reportNoDays)[0] == Missing(tiers[0].key, tiers[0].value)
  {
    PrefixSumStep(tiers, 0);
    assert tiers[..0] == [];
  }

  /** A tier of value zero is reached whenever the walk gets to it with a credit that is not negative. */
  lemma ZeroTierReached(realized: real, tiers: seq<Entry>, j: nat)
    requires j < |tiers| && tiers[j].value == 0.0
    requires FirstUnmet(realized, tiers) >= j
    requires realized - SumValues(tiers[..j]) >= 0.0
    ensures FirstUnmet(realized, tiers) > j
  {
    PrefixSumStep(tiers, j);
  }

  /** Any tier after a reached one starts with a credit that is not negative. */
  lemma CreditAfterReached(realized: real, tiers: seq<Entry>, j: nat)
    requires 0 < j <= FirstUnmet(realized, tiers)
    ensures realized - SumValues(tiers[..j]) >= 0.0
  {
    assert realized >= Through(tiers, j - 1);
  }

  /** One step of the walk, at tier i. */
  lemma WaterfallUnfold(credit: real, tiers: seq<Entry>, days: int, reportNoDays: bool, i: nat)
    requires i < |tiers|
    ensures WaterfallLines(credit, tiers[i..], days, reportNoDays)
            == if credit >= tiers[i].value then
                 [Reached(tiers[i].key, tiers[i].value, credit - tiers[i].value)]
                 + WaterfallLines(credit - tiers[i].value, tiers[i + 1..], days, reportNoDays)
               else
                 [Missing(tiers[i].key, tiers[i].value - credit)] + PaceLines(tiers[i].value - credit, days, reportNoDays)
  {
    assert tiers[i..][0] == tiers[i];
    assert tiers[i..][1..] == tiers[i + 1..];
  }

  /**
    The loop of `calcular_status`: `sobra` starts at the realized amount and
    loses each goal it covers; at the first goal it does not cover, the
    shortfall and the pace (or, when `reportNoDays`, the "no days left" line)
    are emitted and the loop breaks. `days` is the remaining-days count the
    script computed before the loop.
   */
  method Waterfall(realized: real, tiers: seq<Entry>, days: int, reportNoDays: bool) returns (lines: seq<StatusLine>)
    ensures lines == WaterfallLines(realized, tiers, days, reportNoDays)
  {
    lines := [];
    var sobra := realized;
    var i := 0;
    assert tiers[..0] == [];
    assert tiers[0..] == tiers;
    while i < |tiers|
      invariant 0 <= i <= |tiers|
      invariant sobra == realized - SumValues(tiers[..i])
      invariant lines + WaterfallLines(sobra, tiers[i..], days, reportNoDays) == WaterfallLines(realized, tiers, days, reportNoDays)
    {
      var t := tiers[i];
      if sobra >= t.value {
        StepReached(realized, tiers, days, reportNoDays, i, sobra, lines);
        lines := lines + [Reached(t.key, t.value, sobra - t.value)];
        sobra := sobra - t.value;
      } else {
        StepMissed(realized, tiers, days, reportNoDays, i, sobra, lines);
        lines := lines + [Missing(t.key, t.value - sobra)];
        if days > 0 {
          lines := lines + [DailyPace(PerDay(t.value - sobra, days))];
        } else if reportNoDays {
          lines := lines + [NoDaysLeft];
        }
        return;
      }
      i := i + 1;
    }
    assert tiers[i..] == [];
  }

  /** A covered tier keeps the loop invariant of `Waterfall` one tier further. */
  lemma StepReached(realized: real, tiers: seq<Entry>, days: int, reportNoDays: bool, i: nat, sobra: real, lines: seq<StatusLine>)
    requires i < |tiers| && sobra == realized - SumValues(tiers[..i]) && sobra >= tiers[i].value
    requires lines + WaterfallLines(sobra, tiers[i..], days, reportNoDays) == WaterfallLines(realized, tiers, days, reportNoDays)
    ensures sobra - tiers[i].value == realized - SumValues(tiers[..i + 1])
    ensures (lines + [Reached(tiers[i].key, tiers[i].value, sobra - tiers[i].value)])
            + WaterfallLines(sobra - tiers[i].value, tiers[i + 1..], days, reportNoDays)
            == WaterfallLines(realized, tiers, days, reportNoDays)
  {
    WaterfallUnfold(sobra, tiers, days, reportNoDays, i);
    PrefixSumStep(tiers, i);
    var line := Reached(tiers[i].key, tiers[i].value, sobra - tiers[i].value);
    var rest := WaterfallLines(sobra - tiers[i].value, tiers[i + 1..], days, reportNoDays);
    assert lines + ([line] + rest) == (lines + [line]) + rest;
  }

  /** At the first uncovered tier the shortfall and pace lines complete the waterfall. */
  lemma StepMissed(realized: real, tiers: seq<Entry>, days: int, reportNoDays: bool, i: nat, sobra: real, lines: seq<StatusLine>)
    requires i < |tiers| && sobra < tiers[i].value
    requires lines + WaterfallLines(sobra, tiers[i..], days, reportNoDays) == WaterfallLines(realized, tiers, days, reportNoDays)
    ensures var shortfall := tiers[i].value - sobra;
            (if days > 0 then lines + [Missing(tiers[i].key, shortfall)] + [DailyPace(PerDay(shortfall, days))]
             else if reportNoDays then lines + [Missing(tiers[i].key, shortfall)] + [NoDaysLeft]
             else lines + [Missing(tiers[i].key, shortfall)])
            == WaterfallLines(realized, tiers, days, reportNoDays)
  {
    WaterfallUnfold(sobra, tiers, days, reportNoDays, i);
  }

  /** The month columns of the goal sheet, January first. */
  const MonthColumns: seq<string> := ["jan", "fev", "mar", "abr", "mai", "jun", "jul", "ago", "set", "out", "nov", "dez"]

  /** `meses[mes_referencia - 1]`. */
  function MonthColumn(month: int): (col: string)
    requires 1 <= month <= 12
    ensures col == MonthColumns[month - 1]
    ensures |col| == 3
  {
    MonthColumns[month - 1]
  }

  /** One row of the goal sheet: the category in the first column and one value per month column. */
  datatype GoalRow = GoalRow(category: string, cells: map<string, real>)

  /** A goal-sheet tab as a frame: its column names and its rows. */
  datatype GoalSheet = GoalSheet(columns: set<string>, rows: seq<GoalRow>)

  /** A frame has a cell for every row and column. */
  predicate WellFormed(sheet: GoalSheet) {
    forall i :: 0 <= i < |sheet.rows| ==> sheet.rows[i].cells.Keys == sheet.columns
  }

  /** The result of `sheet.loc[sheet["Categoria"] == category, column].values[0]`. */
  datatype Lookup = Found(value: real) | NoSuchRow | NoSuchColumn

  /** The index of the first row of `category`, or |rows| when there is none. */
  function FirstRow(rows: seq<GoalRow>, category: string): (k: nat)
    ensures k <= |rows|
    ensures forall j :: 0 <= j < k ==> rows[j].category != category
    ensures k < |rows| ==> rows[k].category == category
  {
    if rows == [] then 0
    else if rows[0].category == category then 0
    else 1 + FirstRow(rows[1..], category)
  }

  /**
    A missing column raises KeyError; a category with no row leaves `.values`
    empty, so `[0]` raises IndexError; otherwise the value of the first row of
    the category.
   */
  function Cell(sheet: GoalSheet, category: string, column: string): (r: Lookup)
    requires WellFormed(sheet)
    ensures r.NoSuchColumn? <==> column !in sheet.columns
    ensures r.NoSuchRow? <==> column in sheet.columns && FirstRow(sheet.rows, category) == |sheet.rows|
    ensures r.Found? ==> var k := FirstRow(sheet.rows, category);
                         k < |sheet.rows| && column in sheet.rows[k].cells && r.value == sheet.rows[k].cells[column]
  {
    if column !in sheet.columns then NoSuchColumn
    else
      var k := FirstRow(sheet.rows, category);
      if k == |sheet.rows| then NoSuchRow else Found(sheet.rows[k].cells[column])
  }

  /** The five categories `comparar_com_metas` reads, in the order it reads them. */
  const OpdMonthly := "META AN OPD"
  const OpdChallenge := "META DESAF OPD"
  const DistMonthly := "META AN DISTRI"
  const DistChallenge := "META DESAF DISTRI"
  const DistSuper := "SUPER META DISTRI"

  /**
    The dictionary `comparar_com_metas` returns: the OPD and AMC goal dicts, the
    empty dict `{}` when a lookup failed with a caught exception, or a KeyError
    that the script does not catch and that ends the run.
   */
  datatype Comparison = Compared(opd: seq<Entry>, amc: seq<Entry>) | NoGoals | KeyErrorRaised

  predicate AllCategoriesFound(sheet: GoalSheet, column: string)
    requires WellFormed(sheet)
  {
    Cell(sheet, OpdMonthly, column).Found? && Cell(sheet, OpdChallenge, column).Found?
    && Cell(sheet, DistMonthly, column).Found? && Cell(sheet, DistChallenge, column).Found?
    && Cell(sheet, DistSuper, column).Found?
  }

  /**
    `comparar_com_metas` for month `month`. `monthlyKey` is the key the script
    gives the monthly goal ("Meta Mensal" or "Meta AN"); `catchesKeyError` says
    whether its `except` clause names KeyError besides IndexError.
   */
  function Compare(sheet: GoalSheet, month: int, totalOpd: real, totalAmc: real, monthlyKey: string, catchesKeyError: bool): (c: Comparison)
    requires WellFormed(sheet) && 1 <= month <= 12
    ensures c.KeyErrorRaised? <==> !catchesKeyError && MonthColumn(month) !in sheet.columns
    ensures c.Compared? <==> AllCategoriesFound(sheet, MonthColumn(month))
    ensures c.Compared? ==>
              c.opd == [Entry("Realizado", totalOpd),
                        Entry(monthlyKey, Cell(sheet, OpdMonthly, MonthColumn(month)).value),
                        Entry("Meta Desafio", Cell(sheet, OpdChallenge, MonthColumn(month)).value)]
              && c.amc == [Entry("Realizado", totalAmc),
                           Entry(monthlyKey, Cell(sheet, DistMonthly, MonthColumn(month)).value),
                           Entry("Meta Desafio", Cell(sheet, DistChallenge, MonthColumn(month)).value),
                           Entry("Super Meta", Cell(sheet, DistSuper, MonthColumn(month)).value)]
  {
    var column := MonthColumn(month);
    if column !in sheet.columns then
      (if catchesKeyError then NoGoals else KeyErrorRaised)
    else if !AllCategoriesFound(sheet, column) then NoGoals
    else
      Compared(
        [Entry("Realizado", totalOpd),
         Entry(monthlyKey, Cell(sheet, OpdMonthly, column).value),
         Entry("Meta Desafio", Cell(sheet, OpdChallenge, column).value)],
        [Entry("Realizado", totalAmc),
         Entry(monthlyKey, Cell(sheet, DistMonthly, column).value),
         Entry("Meta Desafio", Cell(sheet, DistChallenge, column).value),
         Entry("Super Meta", Cell(sheet, DistSuper, column).value)])
  }

  /**
    Two sheets with the same categories, row by row, and the same cells in the
    column of `month` (or both without that column) give the same comparison:
    `comparar_com_metas` reads no other month's column.
   */
  lemma CompareReadsOnlyItsMonth(sheet: GoalSheet, other: GoalSheet, month: int, totalOpd: real, totalAmc: real,
                                 monthlyKey: string, catchesKeyError: bool)
    requires WellFormed(sheet) && WellFormed(other) && 1 <= month <= 12
    requires |sheet.rows| == |other.rows|
    requires forall i :: 0 <= i < |sheet.rows| ==> sheet.rows[i].category == other.rows[i].category
    requires (MonthColumn(month) in sheet.columns) == (MonthColumn(month) in other.columns)
    requires MonthColumn(month) in sheet.columns ==>
               forall i :: 0 <= i < |sheet.rows| ==> sheet.rows[i].cells[MonthColumn(month)] == other.rows[i].cells[MonthColumn(month)]
    ensures Compare(sheet, month, totalOpd, totalAmc, monthlyKey, catchesKeyError)
            == Compare(other, month, totalOpd, totalAmc, monthlyKey, catchesKeyError)
  {
    var column := MonthColumn(month);
    forall category | category in [OpdMonthly, OpdChallenge, DistMonthly, DistChallenge, DistSuper]
      ensures Cell(sheet, category, column) == Cell(other, category, column)
    {
      assert FirstRow(sheet.rows, category) == FirstRow(other.rows, category);
    }
  }

  /** `d.get(key, default)` on a dict given as its items (keys are unique, so the first match is the one). */
  function Get(entries: seq<Entry>, key: string, default: real): (v: real)
    ensures (forall i :: 0 <= i < |entries| ==> entries[i].key != key) ==> v == default
    ensures forall i :: 0 <= i < |entries| && entries[i].key == key && (forall j :: 0 <= j < i ==> entries[j].key != key) ==> v == entries[i].value
  {
    if entries == [] then default
    else if entries[0].key == key then entries[0].value
    else Get(entries[1..], key, default)
  }

  /** `comparacao.get(side, {})`: the goal dict of one side, empty when there was no comparison. */
  function OpdGoals(c: Comparison): seq<Entry> {
    if c.Compared? then c.opd else []
  }

  function AmcGoals(c: Comparison): seq<Entry> {
    if c.Compared? then c.amc else []
  }

  /** The keys of a goal dict, in order. */
  function Keys(entries: seq<Entry>): (ks: seq<string>)
    ensures |ks| == |entries|
    ensures forall i :: 0 <= i < |entries| ==> ks[i] == entries[i].key
  {
    if entries == [] then [] else [entries[0].key] + Keys(entries[1..])
  }

  /** A successful comparison has the keys Realizado, the monthly key and Meta Desafio for OPD, and Super Meta besides for AMC. */
  lemma CompareKeys(sheet: GoalSheet, month: int, totalOpd: real, totalAmc: real, monthlyKey: string, catchesKeyError: bool)
    requires WellFormed(sheet) && 1 <= month <= 12
    requires Compare(sheet, month, totalOpd, totalAmc, monthlyKey, catchesKeyError).Compared?
    ensures var c := Compare(sheet, month, totalOpd, totalAmc, monthlyKey, catchesKeyError);
            Keys(c.opd) == ["Realizado", monthlyKey, "Meta Desafio"]
            && Keys(c.amc) == ["Realizado", monthlyKey, "Meta Desafio", "Super Meta"]
            && Get(c.opd, "Realizado", 0.0) == totalOpd && Get(c.amc, "Realizado", 0.0) == totalAmc
  {
    var c := Compare(sheet, month, totalOpd, totalAmc, monthlyKey, catchesKeyError);
    assert Keys(c.opd)[0] == "Realizado";
  }

  /** A category missing from the tab makes the comparison fail, whichever exception the script catches. */
  lemma MissingCategoryFails(sheet: GoalSheet, month: int, totalOpd: real, totalAmc: real, monthlyKey: string, catchesKeyError: bool, category: string)
    requires WellFormed(sheet) && 1 <= month <= 12
    requires category in [OpdMonthly, OpdChallenge, DistMonthly, DistChallenge, DistSuper]
    requires forall i :: 0 <= i < |sheet.rows| ==> sheet.rows[i].category != category
    ensures !Compare(sheet, month, totalOpd, totalAmc, monthlyKey, catchesKeyError).Compared?
  {
    var column := MonthColumn(month);
    if column in sheet.columns {
      assert Cell(sheet, category, column).NoSuchRow?;
    }
  }
}
