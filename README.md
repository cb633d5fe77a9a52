# Sales-goal dashboards: a verified model

The repository holds four Streamlit dashboards that follow a store's monthly
sales against its goals:

- `main_semfinanceiro_1ago.py`, the newest one;
- `old_files/main_atualizado.py`;
- `old_files/main.py`;
- `main.py`, the oldest and smallest one.

Each of them reads a sales sheet and a goal sheet, totals the sales of the two
channels (OPD and Distribuição, also called AMC), and compares the totals with
the goals of the reference month. The comparison has three parts:

- the sequential goal "waterfall" of `calcular_status`;
- a trend projection over the business days of the month;
- one pace/delta check per goal.

The newer dashboards also filter the rows, choose the goal tab of the seller,
and build report tables.

This project models that engine in Dafny and proves what the code promises.

## Modules

**Shared modules.** Code that is the same in several scripts is modelled once:

- `Dates`: proleptic Gregorian day ordinals, equal to Python's `date.toordinal()`, with the weekday (Monday = 0), month lengths, and the first and last day of a month. The last day is computed the way the scripts compute it: the first of the next month minus one day, with December as a special case.
- `BusinessCalendar`: the counting loop behind `calcular_dias_uteis_*`. A day counts when it is Monday–Friday, is not a holiday, and lies on the right side of today; today itself counts only when `incluir_hoje` is set.
- `Masks`, `Sales`, `SaleFilters`: the sales rows, boolean masks, sums and the stages of `filtrar_vendas`.
- `Goals`: the waterfall of `calcular_status`, as a loop proved equal to a recursive specification. Also the goal-sheet lookup and `comparar_com_metas`.
- `Trend`: `calcular_tendencia`, the `max(1, ·)` floors, the per-goal check of `exibir_metricas`, and the company blocks of `gerar_bloco_meta`.
- `Pivot`: the pivot tables (rows in first-appearance order, then sorted), their total rows, and the per-seller detail table.
- `Text`: the upper-casing used by the tab choice, and the `format_valor` separator swap. The swap is the same line in all three scripts that have it.

**Per-script modules.** Each script has one module:

- `SemFinanceiro`, for `main_semfinanceiro_1ago.py`. The calendar functions and `calcular_status` of `old_files/main_atualizado.py` are the same code up to comments and whitespace, so this module models them for both scripts.
- `Atualizado`, for `old_files/main_atualizado.py`. Its goal-tab chain is identical to the one in `old_files/main.py`.
- `OldMain`, for `old_files/main.py`.
- `MainScript`, for `main.py`.

**Inputs.** The scripts read `datetime.date.today()`. Here that date is an explicit `today: Date` parameter. Amounts are `real`. The holiday list is an `Option` of day ordinals, and Python's `None` is `None`.

## Model

| member | source | states |
|---|---|---|
| Dates.DaysInMonth | main_semfinanceiro_1ago.py:222-225 | A month has 28 to 31 days, and February has 29 exactly in a leap year. |
| Dates.LastOfMonthIsMonthEnd | main_semfinanceiro_1ago.py:222-225 | "First of the next month minus one day", with December giving Dec 31, is the month's DaysInMonth-th day. It lies DaysInMonth − 1 days after the 1st. The variant that builds January 1 of the next year for December gives the same day. main.py:136-142 and old_files/main.py:218-221 build December's end as `date(ano + 1, 1, 1) - 1`; that is the same real month end, so every counted day lies in the reference month. |
| Dates.DateInMonth | main_semfinanceiro_1ago.py:217-220 | A valid date lies between the first and last day of its own month. |
| Dates.MonthsInOrder | main_semfinanceiro_1ago.py:214-215 | An earlier month of the same year ends before a later month begins. |
| Dates.OrdinalMatchesPython | main_semfinanceiro_1ago.py:233 | The ordinal of 2026-10-14 is Python's 739903, and that day's `weekday()` is 2 (a Wednesday). |
| BusinessCalendar.CountSplit | main_semfinanceiro_1ago.py:231-237 | A count over a range is the sum of the counts of its two halves. |
| BusinessCalendar.CountIncludingToday | main_semfinanceiro_1ago.py:231-237 | With `incluir_hoje`, every non-holiday weekday of the range counts. |
| BusinessCalendar.CountAfterToday | main_semfinanceiro_1ago.py:231-237 | Without `incluir_hoje`, the remaining count is the business days strictly after today. |
| BusinessCalendar.CountBeforeToday | main_semfinanceiro_1ago.py:251-255 | Without `incluir_hoje`, the elapsed count is the business days strictly before today. |
| BusinessCalendar.TodayAddsAfter | main_semfinanceiro_1ago.py:231-237 | On a range starting at or after today, `incluir_hoje` adds one exactly when the range starts at today and today is a business day. |
| BusinessCalendar.TodayAddsBefore | main_semfinanceiro_1ago.py:251-255 | On a range ending at or before today, `incluir_hoje` adds one exactly when the range ends at today and today is a business day. |
| BusinessCalendar.BusinessDaysAtMostWeekdays | main_semfinanceiro_1ago.py:228-233 | Holidays only remove days: the count is at most the plain weekday count, which is at most the length of the range. |
| BusinessCalendar.CountAtMostBusinessDays | main_semfinanceiro_1ago.py:231-237 | The side-of-today test only removes days from the business days of the range. |
| BusinessCalendar.BusinessDaysMonotone | main_semfinanceiro_1ago.py:231-237 | A sub-range never has more business days than the range. |
| BusinessCalendar.BusinessDayInRange | main_semfinanceiro_1ago.py:233 | A range holding a business day counts at least one. |
| SemFinanceiro.RemainingBusinessDays | main_semfinanceiro_1ago.py:210-239 | The counting loop `calcular_dias_uteis_restantes` returns the specified remaining count. That count is 0 for a past month, and otherwise the business days from today (current month) or the 1st (later month) to the month's end. old_files/main_atualizado.py:167-202 is the same code up to comments and whitespace, and is modelled by this method too. |
| SemFinanceiro.CountFromStart | main_semfinanceiro_1ago.py:231-237 | The `for dia in dias` loop, with its nested weekday/holiday and `incluir_hoje`/`dia_date > hoje` tests, computes the window count from the start day to the last day. |
| SemFinanceiro.ElapsedBusinessDays | main_semfinanceiro_1ago.py:241-258 | The loop of `calcular_dias_uteis_passados` returns the business days from the 1st to `min(today, month end)`, with today only when included. old_files/main_atualizado.py:204-222 is the same code up to comments and whitespace, and is modelled by this method too. |
| SemFinanceiro.CountToEnd | main_semfinanceiro_1ago.py:251-255 | The elapsed loop, with its `incluir_hoje or dia_date < hoje` test, computes the window count up to the end day. |
| SemFinanceiro.TodayAgainstMonth | main_semfinanceiro_1ago.py:214-220 | Today lies after a past month, inside the current month and before a later month. |
| SemFinanceiro.MonthBoundaries | main_semfinanceiro_1ago.py:214-215 | A past month has 0 remaining days and all its business days elapsed; a later month has 0 elapsed days (its range from the 1st to `min(today, last)` is empty) and all its business days remaining. The same holds for old_files/main_atualizado.py:167-222, which is the same code up to comments and whitespace. |
| SemFinanceiro.CurrentMonthSplits | main_semfinanceiro_1ago.py:210-258 | In the current month, the elapsed count without today is the business days before today, the remaining count with today is those from today to the month end, and the two make up the whole month. |
| SemFinanceiro.MonthSplitsAtToday | main_semfinanceiro_1ago.py:217-255 | Elapsed without today plus remaining with today is the month's business days, for every month. |
| SemFinanceiro.RemainingIncludingToday | main_semfinanceiro_1ago.py:228-237 | Including today adds exactly one to the remaining count when the month is the current one and today is a business day, and nothing otherwise. Hence the difference is 0 or 1. |
| SemFinanceiro.ElapsedIncludingToday | main_semfinanceiro_1ago.py:251-255 | The same for the elapsed count. |
| SemFinanceiro.CountsWithinMonth | main_semfinanceiro_1ago.py:210-258 | Neither count exceeds the month's business days, which is at most the month's length. |
| SemFinanceiro.CalcularStatus | main_semfinanceiro_1ago.py:152-176 | `calcular_status` gives the waterfall over the remaining days with today included, and prints the "no business days left" line when none remain. old_files/main_atualizado.py:109-133 is the same code up to comments and whitespace, and is modelled by this method too. |
| SemFinanceiro.Classify | main_semfinanceiro_1ago.py:268-281 | The `np.select` rule: OPD if and only if tag OPD with status F. Distribuição if and only if a distribution tag with status F or N. The two are exclusive. |
| SemFinanceiro.PanelMatchesChannels | main_semfinanceiro_1ago.py:134-149 | `processar_vendas`'s OPD and AMC totals are exactly the OPD and Distribuição channel totals of the report tables. |
| SemFinanceiro.FiltrarIsOneMask | main_semfinanceiro_1ago.py:70-123 | The stages of `filtrar_vendas` compose to one row test: a date in [start, end] or the month of this year, the seller unless "Todos", order type V, and not a Casa do Pedreiro name unless `com_cdp`. The result is the order-preserving subsequence of the rows that pass. |
| SemFinanceiro.FiltrarNeedsOrderType | main_semfinanceiro_1ago.py:109-116 | Without a PED_TIPO column the filter returns no rows. |
| SemFinanceiro.UpperIsNotTodos | main_semfinanceiro_1ago.py:528-531 | No upper-cased seller name equals "Todos", so testing the raw name first loses nothing. |
| SemFinanceiro.GoalTabIgnoresCase | main_semfinanceiro_1ago.py:524-552 | For every name but "Todos", the goal tab depends only on the upper-cased name. |
| SemFinanceiro.PersonalTabs | main_semfinanceiro_1ago.py:516-552 | A personal tab is chosen exactly for the five listed names, in any case. Every other name gets "GERAL". |
| SemFinanceiro.GeneralTableTotals | main_semfinanceiro_1ago.py:311-357 | The seller table's total row holds the two channel totals and their sum. Its rows run from the highest total down, and each holds its seller's OPD and Distribuição sums. |
| SemFinanceiro.DailyTableTotals | main_semfinanceiro_1ago.py:261-309 | The daily table's rows run from the earliest day on, each with that day's OPD and Distribuição sums. Its total row holds the two channel totals and their sum. |
| SemFinanceiro.SellerTableTotals | main_semfinanceiro_1ago.py:359-414 | The seller detail's totals are the two channel totals and their sum. |
| SemFinanceiro.RankingRows | main_semfinanceiro_1ago.py:416-447 | The ranking has one row per seller. Each cell is that seller's sum for the channel. |
| SemFinanceiro.PanelDays | main_semfinanceiro_1ago.py:627-632 | The panel's day counts are elapsed without today and remaining with today, each floored at 1. |
| SemFinanceiro.GoalPanel | main_semfinanceiro_1ago.py:617-752 | An empty filtered frame shows only the no-data warning. An empty comparison shows the "goals not loaded" warning with the two `processar_vendas` totals. Otherwise `ComparedPanel` gives the panel. |
| SemFinanceiro.ComparedPanel | main_semfinanceiro_1ago.py:627-752 | For a comparison at hand, the main panel has company blocks for "Todos": the super goal adds the OPD challenge, and the pace falls back to the shortfall. It then checks the goals kept by `v > 0 and k != "Realizado"`, per channel, over the floored counts. |
| Atualizado.FiltrarIsOneMask | old_files/main_atualizado.py:57-89 | The older filter is one row test (date, seller, Casa do Pedreiro; no order type). The result is the order-preserving subsequence of the rows that pass. |
| Atualizado.NewerFilterAddsOrderType | old_files/main_atualizado.py:29-90 | The newest dashboard's filter is this filter followed by the order-type V test. |
| Atualizado.Classify | old_files/main_atualizado.py:236-239 | `np.where` classification: OPD if and only if tag OPD with status F. Distribuição if and only if a distribution tag, whatever the status. |
| Atualizado.PanelMatchesChannels | old_files/main_atualizado.py:93-106 | `processar_vendas`'s totals are the channel totals of that classification; the AMC sum ignores the status. |
| Atualizado.ClassificationsDiffer | old_files/main_atualizado.py:98-102 | Both scripts classify OPD the same way. Each newer distribution sale is an older one. Every row that only the older rule calls Distribuição has a status other than F and N. |
| Atualizado.GeneralTableTotals | old_files/main_atualizado.py:227-274 | The total row is the two channel totals and their sum, and the rows are ordered by total, highest first, each with its seller's OPD and Distribuição sums. |
| Atualizado.SellerTableRows | old_files/main_atualizado.py:276-316 | The detail rows are ordered by date and are a permutation of the classified rows. Their amounts add up to the two totals. |
| Atualizado.PersonalTabs | old_files/main_atualizado.py:401-412 | A personal tab is chosen exactly for the four listed names, matched exactly. "Todos" and every other name get "GERAL". old_files/main.py:313-328 is the same if-chain over the same lists. |
| Atualizado.TabsDependOnCase | old_files/main_atualizado.py:401-412 | Matching is case-sensitive: "danilima" gets "GERAL" here, but its own tab in the newest dashboard. |
| Atualizado.GoalPanel | old_files/main_atualizado.py:478-595 | An empty filtered frame shows only the no-data warning. An empty comparison (a missing month is caught as KeyError) shows the warning with the two totals. Otherwise `ComparedPanel` gives the panel. |
| Atualizado.ComparedPanel | old_files/main_atualizado.py:494-595 | For a comparison at hand, the panel uses the unguarded trend over the counts floored at 1. The company super goal is the AMC Super Meta only, and the pace is 0 when no day is left. The goals kept are those with `v > 0`, then "Realizado" is skipped, so each channel checks exactly its shown goals. |
| OldMain.CountsAreBusinessDays | old_files/main.py:214-244 | Remaining days are the non-holiday weekdays from today (or the day after, without `incluir_hoje`) to the month's end. Elapsed days run from the month's 1st to today (or the day before). None holidays exclude nothing. |
| OldMain.IncludingTodayAddsAtMostOne | old_files/main.py:225-243 | `incluir_hoje` adds one exactly when today is a business day inside the window, and nothing otherwise. |
| OldMain.MonthBoundaries | old_files/main.py:214-244 | Remaining days are 0 once today is past the month's end. Elapsed days are 0 for a month starting after today. |
| OldMain.AgreesInCurrentMonth | old_files/main.py:214-244 | For the current month both counts equal the newest dashboard's counts. |
| OldMain.RemainingOfLaterMonth | old_files/main.py:214-230 | For a later month the count is the newer count plus the business days from today to the end of the month before. |
| OldMain.ElapsedOfEarlierMonth | old_files/main.py:233-244 | For an earlier month the count is the newer count plus the business days from that month's end to today. |
| OldMain.NovemberCountsOctoberDays | old_files/main.py:214-230 | With today 2026-10-14 and `incluir_hoje`, the count for November exceeds November's own weekdays. |
| OldMain.SeptemberCountsOctoberDays | old_files/main.py:233-244 | With today 2026-10-14, the elapsed count for September exceeds September's own weekdays. |
| OldMain.CalcularStatus | old_files/main.py:108-146 | `calcular_status` is the waterfall over the remaining days without today. Nothing is printed when no day is left. |
| OldMain.PanelDays | old_files/main.py:356-363 | The day counts, with a zero reassigned to 1, are at least 1 and equal the floored counts. The same floors are repeated at old_files/main.py:469-478 before the metrics section. |
| OldMain.GoalPanel | old_files/main.py:351-575 | A KeyError ends the run. An empty comparison makes "Todos" fail on direct indexing and shows the error for a single seller. Otherwise the panel checks, per channel, the goals kept by `nome != "Realizado" and valor > 0`. |
| MainScript.TotalsByCode | main.py:19-24 | The totals are the `PED_TOTAL` sums over rows coded OPD and AMC. Dropping rows without a code changes nothing. |
| MainScript.OtherCodesIgnored | main.py:19-24 | Rows with no code or another code add to neither total. |
| MainScript.RemainingByMonth | main.py:134-163 | A month already over counts 0. The current month counts its weekdays after today. A later month counts all its weekdays. Holidays are not looked at. |
| MainScript.RemainingWithinMonth | main.py:136-158 | The count never exceeds the month's weekdays, which is at most its length. |
| MainScript.AgreesWithNewerCount | main.py:134-163 | For every month the count equals the newest dashboard's count without today and without holidays. |
| MainScript.CalcularStatus | main.py:28-66 | `calcular_status` is the waterfall over the weekdays left after today. Nothing is printed when no day is left. |
| MainScript.TiersOfComparison | main.py:256-285 | On a successful comparison the page's goals are the month's sheet cells: Meta AN and Meta Desafio, plus Super Meta for AMC. The amount sold is each channel's total. |
| MainScript.StatusSection | main.py:195-289 | A KeyError ends the run, and `{}` shows the error. Otherwise each channel's status is the waterfall of its goals over the amount sold. |
| Goals.Waterfall | main_semfinanceiro_1ago.py:163-175 | The loop with `sobra` and `break` yields the specified status lines. Invariant: the lines so far plus the waterfall of the remaining credit over the remaining tiers is the whole waterfall. old_files/main.py:133-145 and main.py:53-65 are the same loop without the "no business days left" line (`reportNoDays` false). |
| Goals.WaterfallShape | main_semfinanceiro_1ago.py:163-175 | The lines are one "reached" line per tier of a prefix, then at most one "missing" line followed by the pace or no-days line. |
| Goals.CoveredIsPrefix | main_semfinanceiro_1ago.py:164 | Tier j is reached if and only if the amount covers the running sum of every tier up to j. Reached tiers form a prefix. |
| Goals.ShortfallPositive | main_semfinanceiro_1ago.py:164-169 | The missing tier's shortfall is positive. The credit left after the reached tiers is the amount minus their sum, and it is never negative. |
| Goals.CreditAfterReached | main_semfinanceiro_1ago.py:166-167 | After any reached tier the running credit is at least 0. |
| Goals.AllReachedWhenEnough | main_semfinanceiro_1ago.py:163-167 | With non-negative goals and an amount covering their sum, every tier is reached, in order. |
| Goals.NothingReachedFromZero | main_semfinanceiro_1ago.py:168 | With nothing sold and a positive first goal, the first line reports the whole first goal missing. |
| Goals.ZeroTierReached | main.py:53-58 | A tier of value 0, such as a goal cell of 0 on the sheet, is reached whenever the walk gets to it with credit ≥ 0. (The `.get("Super Meta", 0)` default at main.py:281 never applies: a successful comparison always has that key, main.py:107-112.) |
| Goals.WaterfallUnfold | main_semfinanceiro_1ago.py:164-175 | One step: a covered tier gives its line and passes on the credit minus its goal. Otherwise the step gives the missing line, then the pace when days remain, and stops. |
| Goals.StepMissed | main_semfinanceiro_1ago.py:168-175 | The pace is the shortfall over the remaining days, and only when days remain. Otherwise the no-days line is printed, or nothing where the script has no such line. |
| Goals.FirstUnmet | main_semfinanceiro_1ago.py:163-175 | The first tier whose running sum the amount does not cover; every earlier one is covered. |
| Goals.MonthColumn | main_semfinanceiro_1ago.py:179-180 | Month m selects the abbreviation at index m − 1. |
| Goals.CompareReadsOnlyItsMonth | main_semfinanceiro_1ago.py:178-195 | Two sheets with the same categories row by row and the same cells in the month's column (or both lacking it) give the same comparison: no other month's column is read. |
| Goals.Cell | main_semfinanceiro_1ago.py:183-187 | `.loc[...].values[0]`: a missing column raises KeyError. A missing category raises IndexError. Otherwise the value in the first row of the category. |
| Goals.Compare | main_semfinanceiro_1ago.py:178-195 | `comparar_com_metas` is a dict of three OPD and four AMC entries when all five categories are found, and `{}` otherwise. An uncaught KeyError exists only where the script catches IndexError alone. old_files/main.py:149-197 is the same lookup with "Meta Mensal" keys, and main.py:70-116 with "Meta AN" keys; both catch IndexError only. |
| Goals.CompareKeys | main.py:86-116 | A successful comparison has OPD keys exactly Realizado, the monthly key and Meta Desafio, and AMC adds Super Meta. "Realizado" holds the totals. |
| Goals.MissingCategoryFails | old_files/main.py:166-196 | Any of the five categories missing from the sheet gives no comparison. |
| Goals.Get | main_semfinanceiro_1ago.py:647-652 | `dict.get(key, default)`: the default when the key is absent, else the key's value. |
| Trend.GuardedTrend | main_semfinanceiro_1ago.py:638-645 | With zero elapsed days the mean is 0 and the trend is the amount sold. Otherwise mean × elapsed = amount and trend = amount + mean × remaining. |
| Trend.PlainTrend | old_files/main_atualizado.py:500-504 | The unguarded trend is the guarded one wherever it is defined (elapsed ≠ 0). old_files/main.py:369-372 is the same unguarded trend. |
| Trend.TrendNotBelowRealized | main_semfinanceiro_1ago.py:631-645 | With the counts floored at 1 and a non-negative amount, the daily mean is non-negative and the trend never falls below the amount sold. |
| Trend.TrendIsProportional | main_semfinanceiro_1ago.py:642-644 | The trend is the amount sold scaled from the elapsed days to all days: trend × elapsed = amount × (elapsed + remaining). |
| Trend.AtLeastOne | main_semfinanceiro_1ago.py:631-632 | `max(1, n)` is at least 1, and equals n when n ≥ 1. old_files/main_atualizado.py:494-495 applies the same floor, so its unguarded trend never divides by zero. |
| Trend.ClampedPace | main_semfinanceiro_1ago.py:701 | `max(0, (meta − R)/N)` is non-negative, is 0 exactly when R ≥ meta, and otherwise times N is the shortfall. |
| Trend.PaceFor | old_files/main_atualizado.py:555 | The pace is the clamped pace when days remain. With no days it is the shortfall in the newest dashboard and 0 here. |
| Trend.GuardedPercent | main_semfinanceiro_1ago.py:704 | The percentage times the goal is delta × 100 for a positive goal, and 0 otherwise. |
| Trend.CheckTier | main_semfinanceiro_1ago.py:699-714 | One goal's check: its delta is trend − goal. The pace is non-negative and 0 exactly when the goal is met. The percentage is delta / goal × 100. The status is positive if and only if trend ≥ goal. old_files/main.py:500-524 makes the same check, with the status positive if and only if the delta is ≥ 0. |
| Trend.CheckAll | main_semfinanceiro_1ago.py:699-733 | One check per goal, in order. |
| Trend.ShowGoals | main_semfinanceiro_1ago.py:693-733 | The loop of `exibir_metricas` skips "Realizado" and goals ≤ 0, and checks the rest in order against the trend of the floored counts. |
| Trend.ShownGoalsPassSkip | main_semfinanceiro_1ago.py:741-752 | After the `v > 0 and k != "Realizado"` pre-filter, the loop's own skip removes nothing more. |
| Trend.PositiveGoalsPassSkip | old_files/main_atualizado.py:553 | After the `v > 0` pre-filter, the loop's skip of "Realizado" leaves the same goals as the newest dashboard's filter. |
| Trend.Block | main_semfinanceiro_1ago.py:654-670 | A company block holds its goal, the company trend and a pace that is non-negative, 0 exactly when the goal is met, and otherwise the shortfall over the remaining days. |
| Trend.CompanyBlocks | main_semfinanceiro_1ago.py:664-666 | Three blocks, monthly, challenge and super, all with the same projection. |
| Trend.CompanySumsOfComparison | main_semfinanceiro_1ago.py:647-652 | For "Todos", the monthly goal is OPD's plus AMC's and so is the challenge goal. The super goal is AMC's plus OPD's challenge, or AMC's only in the older script, and all are 0 for an empty comparison. old_files/main_atualizado.py:506-511 takes the same sums with the super goal AMC's only. |
| Trend.GoalsOfComparison | old_files/main.py:380-382 | Reading "Meta Mensal", "Meta Desafio" and "Super Meta" from a comparison dict gives the looked-up values. |
| Trend.PanelChecksShownGoals | main_semfinanceiro_1ago.py:741-752 | For any pre-filter that together with the skip keeps exactly "not Realizado and value > 0", each channel's checks are those of exactly those goals. |
| Masks.Filter | main_semfinanceiro_1ago.py:70-123 | A boolean mask keeps at most the input's rows, each kept row passes, and each passing row is kept. |
| Masks.FilterIsSubsequence | old_files/main_atualizado.py:57-89 | A masked frame is an order-preserving subsequence of the frame. |
| Masks.FilterFuse | main_semfinanceiro_1ago.py:70-123 | Two masks in a row are one mask that tests both. |
| Masks.FilterAppend | main_semfinanceiro_1ago.py:70-123 | Masking a concatenation masks each part. |
| Sales.SumWhereAppend | main_semfinanceiro_1ago.py:139-147 | A masked sum over a concatenation is the sum of the parts' sums. |
| Sales.ChannelTotalIsSumWhere | main_semfinanceiro_1ago.py:139-147 | A channel total is the masked sum for the mask that picks that channel. |
| SaleFilters.DateStage | main_semfinanceiro_1ago.py:70-80 | The date stage keeps exactly the rows in [start, end] when a period is given, else those of the month in today's year, else all. |
| SaleFilters.SellerStage | main_semfinanceiro_1ago.py:87-95 | Exactly the selected seller's rows, or all for "Todos" or no selection. |
| SaleFilters.CdpStage | main_semfinanceiro_1ago.py:119-123 | Without `com_cdp`, exactly the rows whose customer is not one of the two Casa do Pedreiro names; with it, all rows. |
| Pivot.AccumulateUnique | main_semfinanceiro_1ago.py:283-291 | The pivot has one row per key. |
| Pivot.AccumulateCells | main_semfinanceiro_1ago.py:283-291 | Each cell of the pivot is the `aggfunc=np.sum` of the key's rows of that channel, 0 by `fill_value` when there are none. |
| Pivot.AccumulateKeys | main_semfinanceiro_1ago.py:280-291 | A key has a row if and only if some OPD or Distribuição row carries it; rows classed Outros are dropped. |
| Pivot.AccumulateColumnSums | main_semfinanceiro_1ago.py:300-302 | The pivot's columns add up to the channel totals. |
| Pivot.ColumnSumsOfTotals | main_semfinanceiro_1ago.py:297-302 | With Total = OPD + Distribuição per row, the total row's Total is the sum of the two column sums. |
| Pivot.SortDescCorrect | main_semfinanceiro_1ago.py:348 | The sort orders the rows and is a permutation of them. |
| Pivot.SortKeepsColumnSums | main_semfinanceiro_1ago.py:348-352 | Sorting leaves the total row unchanged. |
| Pivot.PivotReportRows | main_semfinanceiro_1ago.py:311-357 | Each row of a report table holds the sums of its own key's OPD and Distribuição sales, and their total. The same pivot serves the daily table and old_files/main_atualizado.py:227-274. |
| Pivot.PivotReportCorrect | main_semfinanceiro_1ago.py:311-357 | A non-empty table is the sorted permutation of the pivot rows with totals, plus a total row holding the channel totals and their sum. |
| Pivot.DetailTableCorrect | main_semfinanceiro_1ago.py:359-414 | The detail rows are ordered by date and are a permutation of the OPD and Distribuição rows. Their amounts add up to the total, and the totals dict holds the channel totals. |
| Pivot.DetailRowsSum | main_semfinanceiro_1ago.py:383-387 | The detail rows' amounts add up to the two channel totals. |
| Text.Upper | main_semfinanceiro_1ago.py:524 | `str.upper` on ASCII letters: same length, each letter raised, nothing lower-case left. |
| Text.UpperIdempotent | main_semfinanceiro_1ago.py:524 | Upper-casing twice changes nothing more. |
| Text.SwapSeparatorsPerChar | main_semfinanceiro_1ago.py:635-636 | On text without 'X', `format_valor`'s replace chain swaps ',' and '.' character by character and keeps the length. old_files/main_atualizado.py:497-498 and old_files/main.py:366-367 are the same replace chain. |
| Text.SwapSeparatorsInvolution | old_files/main_atualizado.py:497-498 | Swapping twice gives the text back. |

## Left out

- The Streamlit interface is not modelled: sidebar widgets, `st.session_state`, the HTML strings, `st.metric`, warnings and errors. A page outcome is modelled only as the data it shows.
- The plotly charts (`gerar_grafico`, the ranking bar chart) are not modelled; the ranking's data is.
- Excel input is not modelled: `pd.read_excel`, `carregar_planilha_metas`, `carregar_feriados`, `pd.to_datetime` coercion and `.str.strip()`. Rows and goal sheets are typed values, already stripped.
- The currency formatting `:,.2f` and all floating-point rounding are not modelled. Amounts are exact reals; only the separator swap of `format_valor` is modelled.
- `datetime.date.today()` and `datetime.datetime.now()` are the parameter `today`.
- The date-filter block of `processar_vendas` in old_files/main.py:28-105 is not modelled. It reads `ultimo_dia_mes` before assigning it and applies a mask built on another frame, so it has no rule to state.
- The period mode of old_files/main.py is not modelled: `mes` is then None, and `comparar_com_metas(..., None, ...)` fails on `None - 1`.
- The debug `print` of main.py:161 is not modelled.
- Pivot row order is not modelled exactly. pandas orders the pivot index by key before `sort_values`, and `sort_values` does not promise an order among equal totals. The model builds rows in first-appearance order and states the order only through the sort key.
- Frame plumbing is not modelled: missing-column checks other than PED_TIPO, `float(...)` conversions, and the early returns of an empty frame (which give the same rows as the stages would). The empty-frame guard of the tables is modelled as `NoReport`/`NoDetail`.
- Goals.Get: a dict is its list of items with unique keys. Direct indexing `d[k]` of a present key is the same lookup; a missing key's KeyError is modelled only where it changes the page (OldMain.GoalPanel, MainScript.StatusSection).
- Text.Upper: upper-cases ASCII letters only; Python's full Unicode case mapping is not modelled.
- Dates.OrdinalOf: dates before year 1 do not occur and are excluded by `ValidDate`.

## Findings

| source | as written | input that shows it | evidently intended | confidence | as-written member | corrected member |
|---|---|---|---|---|---|---|
| old_files/main.py:214-230 | The remaining-days window runs from today to the reference month's last day, whatever the month. For a later month it also counts the rest of the current month and any months in between. | today 2026-10-14, month 11, `incluir_hoje=True`, no holidays: the count exceeds November's own weekdays | count only the days of the reference month, from today in the current month and from the 1st in a later month, as the newer dashboards do | not executed | OldMain.NovemberCountsOctoberDays | SemFinanceiro.MonthBoundaries |
| old_files/main.py:233-244 | The elapsed window runs from the reference month's 1st to today. For an earlier month it also counts the days after that month up to today. | today 2026-10-14, month 9, `incluir_hoje=False`, no holidays: the count exceeds September's own weekdays | end the window at the earlier of today and the month's last day, as the newer dashboards do | not executed | OldMain.SeptemberCountsOctoberDays | SemFinanceiro.CountsWithinMonth |

OldMain keeps the counts as written, because that is what this script computes. For a later or earlier month, OldMain.RemainingOfLaterMonth and OldMain.ElapsedOfEarlierMonth give the exact excess over the corrected count. The other modules use the clipped counts of SemFinanceiro.
