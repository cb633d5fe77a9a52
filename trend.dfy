/**
  The arithmetic of the dashboards' goal panels: the trend projection of
  `calcular_tendencia`, the required daily pace, and the per-tier check that
  compares the projection with each goal.
 */
module Trend {
  import opened Goals
  import opened Masks

  /** What `calcular_tendencia` returns: the projected month total and the realized daily mean. */
  datatype Projection = Projection(trend: real, dailyMean: real)

  /**
    `calcular_tendencia` with its zero guard: no elapsed business day gives a
    mean of 0 and a trend equal to the realized amount; otherwise the mean
    over the elapsed days is carried over the remaining ones.
   */
  function GuardedTrend(realized: real, elapsed: int, remaining: int): (p: Projection)
    ensures elapsed == 0 ==> p == Projection(realized, 0.0)
    ensures elapsed != 0 ==> p.dailyMean * elapsed as real == realized
    ensures elapsed != 0 ==> p.trend == realized + p.dailyMean * remaining as real
  {
    if elapsed == 0 then Projection(realized, 0.0)
    else
      var mean := realized / elapsed as real;
      Projection(realized + mean * remaining as real, mean)
  }

  /**
    `calcular_tendencia` without the guard: Python raises ZeroDivisionError
    on zero elapsed days, which the callers rule out by flooring the count.
   */
  function PlainTrend(realized: real, elapsed: int, remaining: int): (p: Projection)
    requires elapsed != 0
    ensures p == GuardedTrend(realized, elapsed, remaining)
  {
    var mean := realized / elapsed as real;
    Projection(realized + mean * remaining as real, mean)
  }

  /** With a floored day count and nothing negative sold, the projection never falls below what was sold. */
  lemma TrendNotBelowRealized(realized: real, elapsed: int, remaining: int)
    requires realized >= 0.0 && elapsed >= 1 && remaining >= 0
    ensures GuardedTrend(realized, elapsed, remaining).dailyMean >= 0.0
    ensures GuardedTrend(realized, elapsed, remaining).trend >= realized
  {
    var mean := realized / elapsed as real;
    assert mean >= 0.0;
    assert mean * remaining as real >= 0.0;
  }

  /** The projection scales the realized amount by the month's share still to come: trend · E = R · (E + N). */
  lemma TrendIsProportional(realized: real, elapsed: int, remaining: int)
    requires elapsed != 0
    ensures GuardedTrend(realized, elapsed, remaining).trend * elapsed as real == realized * (elapsed + remaining) as real
  {
    var e := elapsed as real;
    var n := remaining as real;
    var mean := realized / e;
    assert mean * e == realized;
    calc {
      (realized + mean * n) * e;
      realized * e + (mean * e) * n;
      realized * e + realized * n;
      realized * (e + n);
    }
  }

  /** `max(1, x)`, the floor the newer dashboards put on day counts before dividing. */
  function AtLeastOne(x: int): (r: int)
    ensures r >= 1
    ensures x >= 1 ==> r == x
    ensures x < 1 ==> r == 1
  {
    if x >= 1 then x else 1
  }

  /** `max(0, x)`. */
  function Max0(x: real): (r: real)
    ensures r >= 0.0 && r >= x
    ensures r == x || r == 0.0
  {
    if x >= 0.0 then x else 0.0
  }

  /**
    The pace a goal still needs, `max(0, (goal - realized) / days)`, over a
    positive day count: zero exactly when the goal is already covered.
   */
  function ClampedPace(goal: real, realized: real, days: int): (pace: real)
    requires days > 0
    ensures pace >= 0.0
    ensures pace == 0.0 <==> realized >= goal
    ensures pace > 0.0 ==> pace * days as real == goal - realized
  {
    var raw := (goal - realized) / days as real;
    assert raw * days as real == goal - realized;
    Max0(raw)
  }

  /** `(delta / goal) * 100` behind the `if goal > 0 else 0` guard. */
  function GuardedPercent(delta: real, goal: real): (pct: real)
    ensures goal > 0.0 ==> pct * goal == delta * 100.0
    ensures goal <= 0.0 ==> pct == 0.0
  {
    if goal > 0.0 then (delta / goal) * 100.0 else 0.0
  }

  /** One goal of the detailed status panel: its pace, the trend's distance to it, and whether the trend reaches it. */
  datatype TierCheck = TierCheck(name: string, goal: real, pace: real, delta: real, percent: real, onTrack: bool)

  /** The goal dicts' entries a panel shows: not the realized amount itself, and a positive value. */
  predicate IsShownGoal(e: Entry) {
    e.key != "Realizado" && e.value > 0.0
  }

  /** The `if nome_meta == "Realizado" or valor_meta <= 0: continue` test, negated: the entries the loop body runs on. */
  predicate PassesSkip(e: Entry) {
    !(e.key == "Realizado" || e.value <= 0.0)
  }

  /** The comprehension filter `if v > 0`, with no test on the key. */
  predicate IsPositiveGoal(e: Entry) {
    e.value > 0.0
  }

  /** The company totals of the "Todos" view: the three goals of the summary blocks. */
  datatype CompanyGoals = CompanyGoals(monthly: real, challenge: real, super: real)

  /** One summary block of `gerar_bloco_meta`: the goal, the projection of the company total and its pace. */
  datatype GoalBlock = GoalBlock(goal: real, projection: Projection, pace: real)

  /**
    The pace `exibir_metricas` and `gerar_bloco_meta` show: `max(0, (goal -
    realized) / days)` when days remain, else the whole shortfall (newest
    dashboard) or 0 (main_atualizado.py).
   */
  function PaceFor(goal: real, realized: real, days: int, shortfallWhenNoDays: bool): (pace: real)
    ensures days > 0 ==> pace == ClampedPace(goal, realized, days)
    ensures days <= 0 ==> pace == if shortfallWhenNoDays then goal - realized else 0.0
  {
    if days > 0 then ClampedPace(goal, realized, days)
    else if shortfallWhenNoDays then goal - realized
    else 0.0
  }

  /**
    The check of one goal against the projected total `trend`: on a positive
    day count the pace is never negative, is zero exactly when the goal is
    already covered and otherwise spreads the shortfall over the days; the
    trend is on track exactly when its distance to the goal is not negative,
    and the percentage is that distance relative to a positive goal.
   */
  function CheckTier(e: Entry, realized: real, trend: real, days: int, shortfallWhenNoDays: bool): (c: TierCheck)
    ensures c.name == e.key && c.goal == e.value && c.delta == trend - e.value
    ensures days >= 1 ==> c.pace >= 0.0 && (c.pace == 0.0 <==> realized >= e.value)
    ensures days >= 1 && c.pace > 0.0 ==> c.pace * days as real == e.value - realized
    ensures c.onTrack <==> c.delta >= 0.0
    ensures e.value > 0.0 ==> c.percent * e.value == c.delta * 100.0
    ensures e.value <= 0.0 ==> c.percent == 0.0
  {
    var delta := trend - e.value;
    TierCheck(e.key, e.value, PaceFor(e.value, realized, days, shortfallWhenNoDays), delta,
              GuardedPercent(delta, e.value), trend >= e.value)
  }

  /** The checks of a list of goals, one per goal, in order. */
  function CheckAll(goals: seq<Entry>, realized: real, trend: real, days: int, shortfallWhenNoDays: bool): (r: seq<TierCheck>)
    ensures |r| == |goals|
    ensures forall i :: 0 <= i < |goals| ==> r[i] == CheckTier(goals[i], realized, trend, days, shortfallWhenNoDays)
  {
    if goals == [] then []
    else [CheckTier(goals[0], realized, trend, days, shortfallWhenNoDays)]
         + CheckAll(goals[1..], realized, trend, days, shortfallWhenNoDays)
  }

  lemma {:induction false} CheckAllAppend(a: seq<Entry>, b: seq<Entry>, realized: real, trend: real, days: int, shortfallWhenNoDays: bool)
    ensures CheckAll(a + b, realized, trend, days, shortfallWhenNoDays)
            == CheckAll(a, realized, trend, days, shortfallWhenNoDays) + CheckAll(b, realized, trend, days, shortfallWhenNoDays)
  {
    if a == [] {
      assert a + b == b;
    } else {
      assert (a + b)[1..] == a[1..] + b;
      CheckAllAppend(a[1..], b, realized, trend, days, shortfallWhenNoDays);
    }
  }

  /**
    The loop of `exibir_metricas`: the trend of the realized amount, then, for
    each goal the skip test lets through, in order, its check.
   */
  method ShowGoals(goals: seq<Entry>, realized: real, elapsed: int, remaining: int, shortfallWhenNoDays: bool)
    returns (checks: seq<TierCheck>)
    ensures checks == CheckAll(Filter(goals, PassesSkip), realized, GuardedTrend(realized, elapsed, remaining).trend, remaining, shortfallWhenNoDays)
  {
    var trend := GuardedTrend(realized, elapsed, remaining).trend;
    checks := [];
    var i := 0;
    while i < |goals|
      invariant 0 <= i <= |goals|
      invariant checks == CheckAll(Filter(goals[..i], PassesSkip), realized, trend, remaining, shortfallWhenNoDays)
    {
      var e := goals[i];
      ShowStep(goals, i, realized, trend, remaining, shortfallWhenNoDays);
      if e.key == "Realizado" || e.value <= 0.0 {
      } else {
        checks := checks + [CheckTier(e, realized, trend, remaining, shortfallWhenNoDays)];
      }
      i := i + 1;
    }
    assert goals[..i] == goals;
  }

  /** One turn of the loop: a goal the skip test lets through adds its check, any other adds nothing. */
  lemma ShowStep(goals: seq<Entry>, i: nat, realized: real, trend: real, days: int, shortfallWhenNoDays: bool)
    requires i < |goals|
    ensures CheckAll(Filter(goals[..i + 1], PassesSkip), realized, trend, days, shortfallWhenNoDays)
            == CheckAll(Filter(goals[..i], PassesSkip), realized, trend, days, shortfallWhenNoDays)
               + (if PassesSkip(goals[i]) then [CheckTier(goals[i], realized, trend, days, shortfallWhenNoDays)] else [])
  {
    var e := goals[i];
    assert goals[..i + 1] == goals[..i] + [e];
    FilterAppend(goals[..i], [e], PassesSkip);
    assert Filter([e], PassesSkip) == if PassesSkip(e) then [e] else [];
    CheckAllAppend(Filter(goals[..i], PassesSkip), Filter([e], PassesSkip), realized, trend, days, shortfallWhenNoDays);
  }

  /** On a dict already restricted to shown goals the skip test removes nothing. */
  lemma ShownGoalsPassSkip(goals: seq<Entry>)
    ensures Filter(Filter(goals, IsShownGoal), PassesSkip) == Filter(goals, IsShownGoal)
  {
    FilterFuse(goals, IsShownGoal, PassesSkip, IsShownGoal);
  }

  /** On a dict restricted to positive values only, the skip test is what drops "Realizado". */
  lemma PositiveGoalsPassSkip(goals: seq<Entry>)
    ensures Filter(Filter(goals, IsPositiveGoal), PassesSkip) == Filter(goals, IsShownGoal)
  {
    FilterFuse(goals, IsPositiveGoal, PassesSkip, IsShownGoal);
  }

  /**
    `gerar_bloco_meta`: the projection of the realized amount and the pace
    towards the block's goal.
   */
  function Block(goal: real, realized: real, elapsed: int, remaining: int, shortfallWhenNoDays: bool): (b: GoalBlock)
    ensures b.goal == goal && b.projection == GuardedTrend(realized, elapsed, remaining)
    ensures remaining >= 1 ==> b.pace >= 0.0 && (b.pace == 0.0 <==> realized >= goal)
    ensures remaining >= 1 && b.pace > 0.0 ==> b.pace * remaining as real == goal - realized
  {
    GoalBlock(goal, GuardedTrend(realized, elapsed, remaining), PaceFor(goal, realized, remaining, shortfallWhenNoDays))
  }

  /**
    The company goals of the "Todos" view, read with `.get(…, 0)` from the
    comparison: monthly and challenge goals are the OPD and AMC ones added;
    the super goal is the AMC one, plus the OPD challenge goal where the
    script adds it.
   */
  function CompanySums(c: Comparison, superAddsOpdChallenge: bool): CompanyGoals {
    var opd := OpdGoals(c);
    var amc := AmcGoals(c);
    CompanyGoals(
      Get(opd, "Meta Mensal", 0.0) + Get(amc, "Meta Mensal", 0.0),
      Get(opd, "Meta Desafio", 0.0) + Get(amc, "Meta Desafio", 0.0),
      Get(amc, "Super Meta", 0.0) + (if superAddsOpdChallenge then Get(opd, "Meta Desafio", 0.0) else 0.0))
  }

  /**
    The company goals of a comparison against a goal tab: the sums of the
    tab's cells for the month, or all zero when the comparison failed.
   */
  lemma CompanySumsOfComparison(sheet: GoalSheet, month: int, totalOpd: real, totalAmc: real, catchesKeyError: bool, superAddsOpdChallenge: bool)
    requires WellFormed(sheet) && 1 <= month <= 12
    ensures var c := Compare(sheet, month, totalOpd, totalAmc, "Meta Mensal", catchesKeyError);
            var col := MonthColumn(month);
            var g := CompanySums(c, superAddsOpdChallenge);
            (c.Compared? ==>
               g.monthly == Cell(sheet, OpdMonthly, col).value + Cell(sheet, DistMonthly, col).value
               && g.challenge == Cell(sheet, OpdChallenge, col).value + Cell(sheet, DistChallenge, col).value
               && g.super == Cell(sheet, DistSuper, col).value
                             + (if superAddsOpdChallenge then Cell(sheet, OpdChallenge, col).value else 0.0))
            && (!c.Compared? ==> g == CompanyGoals(0.0, 0.0, 0.0))
  {
    var c := Compare(sheet, month, totalOpd, totalAmc, "Meta Mensal", catchesKeyError);
    if c.Compared? {
      var col := MonthColumn(month);
      GoalsOfComparison(totalOpd, totalAmc, Cell(sheet, OpdMonthly, col).value, Cell(sheet, OpdChallenge, col).value,
                        Cell(sheet, DistMonthly, col).value, Cell(sheet, DistChallenge, col).value, Cell(sheet, DistSuper, col).value);
    }
  }

  /** The `.get` reads of the two goal dicts a comparison builds. */
  lemma GoalsOfComparison(totalOpd: real, totalAmc: real, opdMonthly: real, opdChallenge: real, distMonthly: real, distChallenge: real, distSuper: real)
    ensures var opd := [Entry("Realizado", totalOpd), Entry("Meta Mensal", opdMonthly), Entry("Meta Desafio", opdChallenge)];
            var amc := [Entry("Realizado", totalAmc), Entry("Meta Mensal", distMonthly), Entry("Meta Desafio", distChallenge), Entry("Super Meta", distSuper)];
            Get(opd, "Meta Mensal", 0.0) == opdMonthly && Get(opd, "Meta Desafio", 0.0) == opdChallenge
            && Get(amc, "Meta Mensal", 0.0) == distMonthly && Get(amc, "Meta Desafio", 0.0) == distChallenge
            && Get(amc, "Super Meta", 0.0) == distSuper
  {
    var opd := [Entry("Realizado", totalOpd), Entry("Meta Mensal", opdMonthly), Entry("Meta Desafio", opdChallenge)];
    var amc := [Entry("Realizado", totalAmc), Entry("Meta Mensal", distMonthly), Entry("Meta Desafio", distChallenge), Entry("Super Meta", distSuper)];
    var opd1 := [Entry("Meta Mensal", opdMonthly), Entry("Meta Desafio", opdChallenge)];
    var amc1 := [Entry("Meta Mensal", distMonthly), Entry("Meta Desafio", distChallenge), Entry("Super Meta", distSuper)];
    var amc2 := [Entry("Meta Desafio", distChallenge), Entry("Super Meta", distSuper)];
    assert opd[1..] == opd1 && opd1[1..] == [Entry("Meta Desafio", opdChallenge)];
    assert amc[1..] == amc1 && amc1[1..] == amc2 && amc2[1..] == [Entry("Super Meta", distSuper)];
    assert Get(opd, "Meta Desafio", 0.0) == Get(opd1, "Meta Desafio", 0.0) == Get(opd1[1..], "Meta Desafio", 0.0);
    assert Get(amc, "Meta Desafio", 0.0) == Get(amc1, "Meta Desafio", 0.0) == Get(amc2, "Meta Desafio", 0.0);
    assert Get(amc, "Super Meta", 0.0) == Get(amc1, "Super Meta", 0.0) == Get(amc2, "Super Meta", 0.0)
           == Get(amc2[1..], "Super Meta", 0.0);
  }

  /** The goal panel: the three company blocks of the "Todos" view, then the checks of the OPD and AMC goals. */
  datatype Panel = Panel(company: seq<GoalBlock>, opd: seq<TierCheck>, amc: seq<TierCheck>)

  /** The "Meta Mensal", "Meta Desafio" and "Super Meta" blocks, all over the company's realized total. */
  function CompanyBlocks(g: CompanyGoals, realized: real, elapsed: int, remaining: int, shortfallWhenNoDays: bool): (bs: seq<GoalBlock>)
    ensures |bs| == 3 && bs[0].goal == g.monthly && bs[1].goal == g.challenge && bs[2].goal == g.super
    ensures forall i :: 0 <= i < 3 ==> bs[i].projection == GuardedTrend(realized, elapsed, remaining)
  {
    [Block(g.monthly, realized, elapsed, remaining, shortfallWhenNoDays),
     Block(g.challenge, realized, elapsed, remaining, shortfallWhenNoDays),
     Block(g.super, realized, elapsed, remaining, shortfallWhenNoDays)]
  }

  /**
    The panel a dashboard shows for a comparison: the company blocks when all
    sellers are selected, and for each side the checks of the goals its
    comprehension (`prefilter`) keeps and its loop does not skip, against the
    trend of that side's total.
   */
  function PanelOf(c: Comparison, totalOpd: real, totalAmc: real, allSellers: bool, elapsed: int, remaining: int,
                   prefilter: Entry -> bool, superAddsOpdChallenge: bool, shortfallWhenNoDays: bool): Panel
  {
    Panel(
      if allSellers then CompanyBlocks(CompanySums(c, superAddsOpdChallenge), totalOpd + totalAmc, elapsed, remaining, shortfallWhenNoDays)
      else [],
      CheckAll(Filter(Filter(OpdGoals(c), prefilter), PassesSkip), totalOpd, GuardedTrend(totalOpd, elapsed, remaining).trend, remaining, shortfallWhenNoDays),
      CheckAll(Filter(Filter(AmcGoals(c), prefilter), PassesSkip), totalAmc, GuardedTrend(totalAmc, elapsed, remaining).trend, remaining, shortfallWhenNoDays))
  }

  /**
    Whichever comprehension feeds the loop, as long as it and the skip test
    together keep the shown goals, the panel checks exactly the shown goals
    (positive, and not the realized amount), in their order.
   */
  lemma PanelChecksShownGoals(c: Comparison, totalOpd: real, totalAmc: real, allSellers: bool, elapsed: int, remaining: int,
                              prefilter: Entry -> bool, superAddsOpdChallenge: bool, shortfallWhenNoDays: bool)
    requires forall e :: IsShownGoal(e) == (prefilter(e) && PassesSkip(e))
    ensures var p := PanelOf(c, totalOpd, totalAmc, allSellers, elapsed, remaining, prefilter, superAddsOpdChallenge, shortfallWhenNoDays);
            p.opd == CheckAll(Filter(OpdGoals(c), IsShownGoal), totalOpd, GuardedTrend(totalOpd, elapsed, remaining).trend, remaining, shortfallWhenNoDays)
            && p.amc == CheckAll(Filter(AmcGoals(c), IsShownGoal), totalAmc, GuardedTrend(totalAmc, elapsed, remaining).trend, remaining, shortfallWhenNoDays)
  {
    FilterFuse(OpdGoals(c), prefilter, PassesSkip, IsShownGoal);
    FilterFuse(AmcGoals(c), prefilter, PassesSkip, IsShownGoal);
  }
}
