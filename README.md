# Cash-flow forecasting, modelled in Dafny

This project models the forecasting engine of a personal cash-flow application and the
components around it. Dates are Gregorian (year, month, day) values at day granularity.
Money and multipliers are `real`.

The core is the forecast that the scenario service, the chart, the header and the quick
statistics each compute with their own copy of the same loops:

- **Recurrence stepping.** A transaction's date is stepped daily (+1 day), weekly (+7),
  biweekly (+14), monthly (`addMonths`, clamped to the month's last day) or yearly
  (`addYears`). Stepping stops after a date past `recurrenceEnd`.
- **Starting balance.** Every occurrence on or before the reference day, signed by the
  transaction type and scaled by the scenario's multipliers.
- **Daily forecast.** The change of each of the `dateRange + 1` days, and the running
  balance.
- **Scenario fan-out.** One forecast per scenario, stored under the scenario's `Id`.
- **Summaries.** The final, highest and lowest balance of a series. Quick statistics also
  give monthly estimates for the recurring transactions.

Around it sit:

- the in-memory transaction store;
- the add/edit form validator;
- the scenario list editing;
- the transaction list's ordering and category lookup;
- the transaction card's labels.

## Layout

- `dates.dfy` (`Dates`): calendar dates, day numbers, `addDays`/`addMonths`/`addYears`.
- `model.dfy` (`Wrappers`, `Model`): `Option`/`Result`, transactions, scenarios,
  categories, forecast points.
- `text.dfy` (`Text`): `trim`, `parseFloat`, string `<=`, lower/upper case,
  'yyyy-MM-dd' strings.
- `lists.dfy` (`Lists`): `filter`.
- `recurrence.dfy` (`Recurrence`): the stepping loops and what they count.
  - The loops are proved against `Occurrences`.
  - `Occurrences` is defined through a schedule datatype that is generic in the type of
    its points. Only its integer key orders the points, so the expansion lemmas are proved
    once, for any step that moves forward.
- `scenario_service.dfy` (`ScenarioService`): starting balance, daily change, the
  series, the scenario map, and the lemmas about them.
- `cash_flow_chart.dfy`, `header.dfy`, `quick_stats.dfy`: the other three copies of the
  fold, the summaries, the chart series and the component state.
- `transaction_store.dfy`, `transaction_modal.dfy`, `scenario_panel.dfy`,
  `transaction_list.dfy`, `transaction_card.dfy`: the secondary components.

The forecast counts the reference day's occurrences twice: once in the starting balance,
and again in the change of point 0. The model keeps this behaviour.
`ScenarioService.ForecastDoubleCountsDayZero` states it exactly: every balance is the
true balance as of its date plus the reference day's change.

## Model

| member | source | states |
|---|---|---|
| Dates.DayNumberOrder | src/services/api/scenarioService.js:30 | A date is lexicographically earlier exactly when its day number is smaller, and two dates are equal exactly when their day numbers are; so `isBefore` and `toDateString()` equality are comparisons of day numbers |
| Dates.NextDayNumber | src/services/api/scenarioService.js:88 | The next calendar day is one day number later |
| Dates.AddDaysNumber | src/services/api/scenarioService.js:37-45 | `addDays(d, n)` (and `addWeeks` as 7 or 14 days) lies exactly `n` days after `d` |
| Dates.AddMonthShape | src/services/api/scenarioService.js:46-48 | `addMonths(d, 1)` lands in the next calendar month (January of the next year after December) on `min(day, length of that month)`, never on a later day of the month, and strictly after `d` |
| Dates.AddYearShape | src/services/api/scenarioService.js:49-51 | `addYears(d, 1)` keeps the month; 29 February becomes 28 February and every other day is kept |
| Dates.LaterYearLaterDay | src/services/api/scenarioService.js:59 | A date in a later year has a larger day number, whatever its month and day |
| Recurrence.StepAdvances | src/services/api/scenarioService.js:36-54 | Daily, weekly and biweekly steps add exactly 1, 7 and 14 days; a monthly step moves to the next month without increasing the day of the month; a yearly step moves to the same month of the next year; every step moves strictly forward |
| Recurrence.AtMonotone | src/services/api/scenarioService.js:29-62 | For any forward-moving step, every later point of a schedule has a larger key than every earlier one |
| Recurrence.WalkIsPrefix | src/services/api/scenarioService.js:29-62 | For any forward-moving step, the points the stepping loop counts are the first points of the schedule in order, none above the limit, and none but the first after the end point |
| Recurrence.WalkReaches | src/services/api/scenarioService.js:56-58 | Every point of a schedule that is the anchor or is not after the end point is counted by the loop that runs up to that point |
| Recurrence.WalkExtend | src/services/api/scenarioService.js:88-95 | Raising the limit by one key adds exactly the point with that key, when the loop reaches it, and nothing else |
| Recurrence.NthNext | src/services/api/scenarioService.js:36-54 | Each date of a recurrence is one step of its kind after the previous date, and strictly later |
| Recurrence.OccurrencesAreSteps | src/services/api/scenarioService.js:29-62 | The occurrences counted up to a limit are the first dates of the recurrence, in order and none after the limit; every one but the anchor is on or before `recurrenceEnd` (the end is inclusive) |
| Recurrence.OccurrencesStart | src/services/api/scenarioService.js:21-30 | The anchor is counted exactly when it is not after the limit; otherwise nothing is counted |
| Recurrence.OccurrencesStop | src/services/api/scenarioService.js:30-58 | Counting stops exactly at the first date after the limit, or at the first stepped date after `recurrenceEnd` |
| Recurrence.NthMonotone | src/services/api/scenarioService.js:36-54 | Every later date of a recurrence is strictly after every earlier one |
| Recurrence.OccurrencesIncreasing | src/services/api/scenarioService.js:29-62 | The counted occurrences strictly increase, so no date is counted twice |
| Recurrence.OccursOnNth | src/services/api/scenarioService.js:87-124 | A recurring transaction lands on a day exactly when one of its dates is that day and that date is the anchor or not after `recurrenceEnd` |
| Recurrence.OneTimeOccurrence | src/services/api/scenarioService.js:21-84 | A one-time transaction counts once up to a limit exactly when its date is not after the limit, and lands on a day exactly when its date is that day |
| Recurrence.OccurrencesNextDay | src/services/api/scenarioService.js:30-95 | Moving the limit one day forward adds exactly the occurrences that land on the new day |
| Recurrence.YearCutoffIsDead | src/services/api/scenarioService.js:59-123 | The year cut-off only fires on a date that is already after the limit, so it never changes what is counted |
| Recurrence.RepeatIsProduct | src/services/api/scenarioService.js:31-34 | Adding the same value once per occurrence adds value times count |
| Recurrence.AccumulateUpTo | src/services/api/scenarioService.js:29-62 | The starting-balance loop for one transaction adds its value once per occurrence on or before the limit, whatever the year cut-off |
| Recurrence.AccumulateOnDay | src/services/api/scenarioService.js:86-124 | The daily loop for one transaction adds its value exactly once when the transaction lands on the day (the `break` after the match) and nothing otherwise |
| ScenarioService.UnitMultipliersAddAmount | src/services/api/scenarioService.js:23-26 | With both multipliers 1 an occurrence adds `+amount` for income and `-amount` for an expense, as the unscaled copies do |
| ScenarioService.StartingBalance | src/services/api/scenarioService.js:16-64 | The first fold equals the signed, scaled sum over every transaction of its occurrences on or before the reference day |
| ScenarioService.DailyChange | src/services/api/scenarioService.js:72-126 | A day's change equals the signed, scaled sum of the transactions that land on that day |
| ScenarioService.ForecastDay | src/services/api/scenarioService.js:70-135 | One pass of the daily loop adds the day's change to the running balance and appends that day's point |
| ScenarioService.BuildForecast | src/services/api/scenarioService.js:16-136 | The two loops together produce the specification series `Forecast` |
| ScenarioService.CalculateScenarioForecast | src/services/api/scenarioService.js:8-138 | A scenario's forecast is `Forecast` with its multipliers, each point labelled with the scenario's `Id` and name |
| ScenarioService.CalculateMultipleScenarios | src/services/api/scenarioService.js:144-158 | The result map is built by assigning each scenario's `{scenario, data}` under its `Id`, in list order |
| ScenarioService.ResultsKeys | src/services/api/scenarioService.js:148-157 | The result map's keys are exactly the scenarios' Ids |
| ScenarioService.ResultsLastWins | src/services/api/scenarioService.js:152-155 | Each Id holds the forecast of the last scenario that carries it; a later duplicate overwrites an earlier one |
| ScenarioService.NoScenariosNoResults | src/services/api/scenarioService.js:148-158 | An empty scenario list gives an empty map |
| ScenarioService.PointsIndex | src/services/api/scenarioService.js:129-135 | The series built point by point has one entry per day, and entry `i` is point `i` |
| ScenarioService.ForecastShape | src/services/api/scenarioService.js:67-135 | The forecast has `dateRange + 1` points; point `i` is dated `i` days after the reference day, carries that day's change and the scenario label; point 0's balance is the starting balance plus its change, and each later balance is the previous one plus its change |
| ScenarioService.BalanceNextDay | src/services/api/scenarioService.js:18-126 | The balance as of the next day is the balance as of a day plus the next day's change |
| ScenarioService.DayZeroCountedTwice | src/services/api/scenarioService.js:22-89 | The starting balance plus the changes of days `0..i` is the balance as of day `i` plus the reference day's change, counted a second time |
| ScenarioService.ForecastDoubleCountsDayZero | src/services/api/scenarioService.js:16-136 | Every point's balance is the true balance as of its date plus the reference day's change |
| ScenarioService.SignedMonotone | src/services/api/scenarioService.js:23-26 | For a non-negative amount, a larger income multiplier or a smaller expense multiplier never lowers what one occurrence adds |
| ScenarioService.RepeatMonotone | src/services/api/scenarioService.js:31-34 | Repeating a larger value the same number of times gives at least as much |
| ScenarioService.ChangeOnMonotone | src/services/api/scenarioService.js:80-93 | With non-negative amounts, the same order holds for a day's change |
| ScenarioService.BalanceAsOfMonotone | src/services/api/scenarioService.js:18-64 | With non-negative amounts, the same order holds for the balance as of a day |
| ScenarioService.ChangeOverDaysMonotone | src/services/api/scenarioService.js:70-128 | With non-negative amounts, the same order holds for the sum of the first `n` days' changes |
| ScenarioService.ScenarioForecastsOrdered | src/services/api/scenarioService.js:23-83 | With non-negative amounts, a scenario with a larger income multiplier and a smaller expense multiplier forecasts, day by day, a balance at least as high |
| CashFlowChart.DefaultForecast | src/components/organisms/CashFlowChart.jsx:28-137 | The chart's own forecast is `Forecast` with both multipliers 1 and no scenario label, with the year cut-off two years out |
| CashFlowChart.NeutralScenarioIsDefault | src/components/organisms/CashFlowChart.jsx:28-137 | A scenario with both multipliers 1 forecasts exactly the chart's own series, apart from the scenario fields on each point |
| CashFlowChart.ForecastLength | src/components/organisms/CashFlowChart.jsx:81 | Every series the chart can show has `dateRange + 1` points |
| CashFlowChart.MaxBalance | src/components/organisms/CashFlowChart.jsx:359 | `Math.max` over the balances: at least every balance, and equal to one of them |
| CashFlowChart.MinBalance | src/components/organisms/CashFlowChart.jsx:360 | `Math.min` over the balances: at most every balance, and equal to one of them |
| CashFlowChart.Summarize | src/components/organisms/CashFlowChart.jsx:355-360 | A non-empty series has a summary whose final figure is the last balance, with `low <= final <= high`; an empty series has none |
| CashFlowChart.ComparisonCards | src/components/organisms/CashFlowChart.jsx:350-360 | Every card belongs to a listed scenario and carries the summary of that scenario's own series (so the series is non-empty and `low <= final <= high`); every scenario with a non-empty series gets its card |
| CashFlowChart.OneScenarioCard | src/components/organisms/CashFlowChart.jsx:355-360 | A scenario gets exactly one card, with its own summary, when its stored series is non-empty, and no card when the series is missing or empty |
| CashFlowChart.ComparisonCardsConcat | src/components/organisms/CashFlowChart.jsx:354-356 | The cards of a concatenated scenario list are the cards of each part in turn, so the cards follow the scenario order |
| CashFlowChart.SingleSummary | src/components/organisms/CashFlowChart.jsx:411-436 | Without a comparison, the projected, highest and lowest balances are the summary of the series, and all 0 for an empty series |
| CashFlowChart.SummaryBlockOf | src/components/organisms/CashFlowChart.jsx:348-436 | No block while there is neither chart data nor a scenario result; otherwise the comparison cards exactly when there is more than one scenario, and the single-series figures otherwise |
| CashFlowChart.Balances | src/components/organisms/CashFlowChart.jsx:290 | `data.map(d => d.balance)` |
| CashFlowChart.Colors | src/components/organisms/CashFlowChart.jsx:18-20 | The scenario colours in order, or the single default colour when there are no scenarios |
| CashFlowChart.ChartSeries | src/components/organisms/CashFlowChart.jsx:282-292 | One series per scenario with its name, colour and stored balances (empty when its result is missing), or a single "Balance" series of `chartData` |
| CashFlowChart.ColorsMatchSeries | src/components/organisms/CashFlowChart.jsx:18-292 | The colour list has one colour per series, and it is that series' colour |
| CashFlowChart.ChartState.constructor | src/components/organisms/CashFlowChart.jsx:12-16 | The chart starts with no data and a 30-day range |
| CashFlowChart.ChartState.SelectRange | src/components/organisms/CashFlowChart.jsx:326-331 | A range button sets the range to 30, 60 or 90 days and changes nothing else |
| CashFlowChart.ChartState.GenerateForecast | src/components/organisms/CashFlowChart.jsx:22-151 | Without scenarios, the default forecast and an empty result map; with scenarios, the fan-out's map and, when the first scenario's Id has a result, its series |
| CashFlowChart.FirstScenarioShown | src/components/organisms/CashFlowChart.jsx:143-150 | The first scenario's Id always has a result; when no later scenario reuses that Id, the chart shows the first scenario's own forecast |
| Header.CurrentBalance | src/components/organisms/Header.jsx:12-65 | The header's fold is the scenario starting balance with both multipliers 1, even though its year cut-off is one year out instead of two |
| Header.BalanceColor | src/components/organisms/Header.jsx:83 | The accent colour exactly when the balance is not negative, red exactly when it is negative |
| Header.HeaderState.constructor | src/components/organisms/Header.jsx:8-9 | The balance starts at 0 and loading |
| Header.HeaderState.Load | src/components/organisms/Header.jsx:11-74 | A successful load sets the balance to the unscaled balance as of today; a failed load keeps the previous balance; loading ends either way |
| Header.FailedLoadShowsZero | src/components/organisms/Header.jsx:8-67 | A failed first load shows 0 in the accent colour |
| QuickStats.MonthlyAmount | src/components/organisms/QuickStats.jsx:73-100 | Daily and one-time transactions are not estimated; a non-negative amount gives a non-negative estimate |
| QuickStats.CalculateStats | src/components/organisms/QuickStats.jsx:17-110 | One pass yields the monthly income and expense totals and `nextMonthBalance` = unscaled balance as of today + income − expenses |
| QuickStats.MonthlyTotalsNonNegative | src/components/organisms/QuickStats.jsx:23-100 | With non-negative amounts both monthly totals are non-negative |
| QuickStats.TotalsSeparateKinds | src/components/organisms/QuickStats.jsx:74-99 | Expenses never reach the income total and income never reaches the expense total |
| QuickStats.UnestimatedAddNothing | src/components/organisms/QuickStats.jsx:73-100 | Daily and one-time transactions add nothing to either total |
| QuickStats.QuickStatsState.constructor | src/components/organisms/QuickStats.jsx:9-14 | The three figures start at 0, loading |
| QuickStats.QuickStatsState.Load | src/components/organisms/QuickStats.jsx:16-119 | A successful load sets the three figures; a failed load keeps them; loading ends either way |
| QuickStats.FailedLoadKeepsZero | src/components/organisms/QuickStats.jsx:9-113 | A failed first load keeps the three figures at 0 |
| TransactionStore.MaxId | src/services/api/transactionService.js:24 | `Math.max(...ids, 0)`: non-negative, at least every Id, and 0 or one of the Ids |
| TransactionStore.FindIndex | src/services/api/transactionService.js:36-52 | `findIndex`: the first position holding the Id, or none exactly when no entry has it |
| TransactionStore.FromDraft | src/services/api/transactionService.js:25-29 | The new entry has the given fields, the new Id, and today's date when none was given |
| TransactionStore.PatchProperties | src/services/api/transactionService.js:41-45 | An update keeps the Id, an empty patch changes nothing, and applying a patch twice is applying it once |
| TransactionStore.PatchOverwritesGivenFields | src/services/api/transactionService.js:41-45 | Each given field is overwritten and each field not given is kept |
| TransactionStore.Store.constructor | src/services/api/transactionService.js:5 | The store starts with the seed list |
| TransactionStore.Store.GetAll | src/services/api/transactionService.js:8-11 | `getAll` returns every entry in stored order and changes nothing |
| TransactionStore.Store.GetById | src/services/api/transactionService.js:13-20 | Succeeds exactly when some entry has the Id, returning the first such entry; fails otherwise with "Transaction not found" |
| TransactionStore.Store.Create | src/services/api/transactionService.js:22-32 | Appends the draft under Id = largest Id (at least 0) + 1 and returns it; earlier entries unchanged |
| TransactionStore.Store.Update | src/services/api/transactionService.js:34-48 | An absent Id fails and changes nothing; otherwise the first matching entry is patched in place and returned, every other entry unchanged |
| TransactionStore.Store.Delete | src/services/api/transactionService.js:50-58 | An absent Id fails and changes nothing; otherwise the first matching entry is spliced out and `true` returned |
| TransactionStore.CreateFreshId | src/services/api/transactionService.js:24-27 | The first Id is 1, a new Id exceeds every stored Id, and appending it keeps Ids distinct |
| TransactionStore.UpdateKeepsIds | src/services/api/transactionService.js:41-46 | An update keeps every Id at its position, keeps Ids distinct, and leaves every other entry untouched |
| TransactionStore.DeleteKeepsOrder | src/services/api/transactionService.js:52-57 | A delete removes exactly one entry and keeps the others in order |
| TransactionStore.DeleteRemovesId | src/services/api/transactionService.js:52-57 | With distinct Ids, no entry with the Id remains and Ids stay distinct |
| TransactionModal.Set | src/components/organisms/TransactionModal.jsx:52 | `{ ...prev, [name]: value }`: the named field takes the value, every other field is kept |
| TransactionModal.ValidateForm | src/components/organisms/TransactionModal.jsx:58-79 | The error map holds exactly one message per failed check (amount missing or not positive, description blank, category empty, date empty, end date not after start for a repeating entry) and nothing else; valid exactly when every check passes, exactly when the map is empty |
| TransactionModal.ReportedUnique | src/components/organisms/TransactionModal.jsx:58-78 | The error map is determined by the form |
| TransactionModal.ReportedEmptyIffValid | src/components/organisms/TransactionModal.jsx:77-78 | The map is empty exactly when the form is valid |
| TransactionModal.InitialFormProblems | src/components/organisms/TransactionModal.jsx:11-75 | A fresh form fails on amount, description and category, and on nothing else |
| TransactionModal.NonNumericAmountPasses | src/components/organisms/TransactionModal.jsx:61 | An amount with no digits reads as NaN and passes the amount check |
| TransactionModal.ValidEndIsAfterStart | src/components/organisms/TransactionModal.jsx:73-75 | With 'yyyy-MM-dd' dates, a repeating entry that passes the end-date check ends strictly after it starts |
| TransactionModal.ClearError | src/components/organisms/TransactionModal.jsx:53-55 | Changing a field empties its error if present, keeps every key, and leaves every other error unchanged |
| TransactionModal.ClearErrorIdempotent | src/components/organisms/TransactionModal.jsx:53-55 | Clearing twice is clearing once |
| TransactionModal.Submit | src/components/organisms/TransactionModal.jsx:89-93 | The submitted amount is `parseFloat` of the input, an empty end date becomes `null`, every other field is passed as is |
| TransactionModal.ValidSubmissionAmount | src/components/organisms/TransactionModal.jsx:84-93 | A valid form submits a positive amount or NaN |
| TransactionModal.SubmitWholeAmount | src/components/organisms/TransactionModal.jsx:91 | A whole number typed in decimal is submitted as that number, and passes the check when positive |
| TransactionModal.FilteredCategories | src/components/organisms/TransactionModal.jsx:126-128 | Every option is the lower-cased option of a category of the form's type, and every such category is offered |
| TransactionModal.OneCategoryOption | src/components/organisms/TransactionModal.jsx:126-128 | A category of the form's type contributes exactly its own option; any other category contributes none |
| TransactionModal.FilteredCategoriesConcat | src/components/organisms/TransactionModal.jsx:126-128 | The options of a concatenated category list are the options of each part in turn, so there is one option per matching category entry, in list order |
| TransactionModal.OptionValuesLowerCase | src/components/organisms/TransactionModal.jsx:128 | Every offered value is already lower case |
| TransactionModal.ModalState.constructor | src/components/organisms/TransactionModal.jsx:11-22 | The form starts as an expense dated today, one-time, with nothing else filled in and no errors |
| TransactionModal.ModalState.HandleChange | src/components/organisms/TransactionModal.jsx:51-56 | Sets the field and clears its error |
| TransactionModal.ModalState.HandleSubmit | src/components/organisms/TransactionModal.jsx:81-93 | Stores the error map; yields the normalised data exactly when the form is valid |
| TransactionModal.ModalState.HandleClose | src/components/organisms/TransactionModal.jsx:112-124 | Back to the empty form without errors |
| Text.TrimEmptyIffBlank | src/components/organisms/TransactionModal.jsx:64 | `trim()` gives the empty string exactly when every character is ECMAScript white space or a line terminator (including the no-break space, the byte-order mark, the Unicode space separators and U+2028/U+2029) |
| Text.ParseFloatDigits | src/components/organisms/TransactionModal.jsx:61 | `parseFloat` of a string of digits is its decimal value |
| Text.ParseFloatNegatedDigits | src/components/organisms/TransactionModal.jsx:61 | `parseFloat` of `-` and digits is the negated value, so a negative amount is flagged |
| Text.ParseFloatNoDigits | src/components/organisms/TransactionModal.jsx:61 | `parseFloat` of a string without digits is NaN |
| Text.ParseFloatNat | src/components/organisms/TransactionModal.jsx:91 | `parseFloat` reads a number's decimal digits back as that number |
| Text.IsoDateOrder | src/components/organisms/TransactionModal.jsx:73 | For 'yyyy-MM-dd' strings, string `<=` is the calendar order |
| Text.ToLowerIdempotent | src/components/organisms/TransactionList.jsx:58 | Lower-casing twice is lower-casing once |
| Lists.Filter | src/components/organisms/ScenarioComparisonPanel.jsx:42 | `filter`: keeps exactly the elements satisfying the predicate, no more elements than the input |
| Lists.FilterConcat | src/components/organisms/ScenarioComparisonPanel.jsx:42 | Filtering a concatenation filters each part, so the kept elements stay in order |
| Lists.FilterKeepsAll | src/components/organisms/TransactionList.jsx:49 | Filtering a list whose every element is kept returns it unchanged |
| Lists.FilterIdempotent | src/components/organisms/ScenarioComparisonPanel.jsx:42 | Filtering twice is filtering once |
| ScenarioPanel.ScenarioColor | src/components/organisms/ScenarioComparisonPanel.jsx:57-60 | The colour of index `i` is palette entry `i mod 6` |
| ScenarioPanel.ColorsCycle | src/components/organisms/ScenarioComparisonPanel.jsx:57-60 | Colours repeat every six scenarios and the first six are distinct |
| ScenarioPanel.InitialScenarios | src/components/organisms/ScenarioComparisonPanel.jsx:14-23 | One default scenario with Id 1, both multipliers 1, the first palette colour |
| ScenarioPanel.AddScenario | src/components/organisms/ScenarioComparisonPanel.jsx:26-38 | Appends exactly one scenario, unscaled, not default, coloured by its position, keeping the others |
| ScenarioPanel.NewScenarioNameCounts | src/components/organisms/ScenarioComparisonPanel.jsx:29 | The new scenario is named "Scenario n", where n reads back as the previous length |
| ScenarioPanel.AddingIsCapped | src/components/organisms/ScenarioComparisonPanel.jsx:78-117 | The enabled add button never takes the list past five; the first scenario stays first; the default scenario offers no remove button |
| ScenarioPanel.RemoveScenario | src/components/organisms/ScenarioComparisonPanel.jsx:41-45 | Drops exactly the scenarios with the Id |
| ScenarioPanel.RemoveProperties | src/components/organisms/ScenarioComparisonPanel.jsx:41-45 | Removal keeps order, removing an absent Id changes nothing, and removing twice is removing once |
| ScenarioPanel.ApplyEdit | src/components/organisms/ScenarioComparisonPanel.jsx:50 | The edited field takes the new value; every other field is kept |
| ScenarioPanel.UpdateScenario | src/components/organisms/ScenarioComparisonPanel.jsx:47-55 | The edit is applied to every scenario with the Id, every other scenario untouched |
| ScenarioPanel.UpdateProperties | src/components/organisms/ScenarioComparisonPanel.jsx:47-55 | Updates keep Ids, colours and default flags; an absent Id changes nothing; removing the Id afterwards discards the edit |
| ScenarioPanel.UpdateThenRemove | src/components/organisms/ScenarioComparisonPanel.jsx:41-55 | Removing an Id after updating it gives the same list as removing it directly |
| ScenarioPanel.SliderRange | src/components/organisms/ScenarioComparisonPanel.jsx:134-163 | Every slider value lies between 0.5 and 2.0 |
| ScenarioPanel.SliderEndsAndNeutral | src/components/organisms/ScenarioComparisonPanel.jsx:134-163 | 0.5, 1.0 and 2.0 are slider positions |
| TransactionList.Insert | src/components/organisms/TransactionList.jsx:64-66 | Inserting into a newest-first list keeps it newest first and adds exactly the one entry |
| TransactionList.SortNewestFirst | src/components/organisms/TransactionList.jsx:64-66 | The displayed list is newest first and a permutation of the transactions |
| TransactionList.SortKeepsSorted | src/components/organisms/TransactionList.jsx:64-66 | A list already newest first is displayed as it is |
| TransactionList.DeleteFromList | src/components/organisms/TransactionList.jsx:48-49 | The list after a delete keeps exactly the entries with another Id |
| TransactionList.DeleteMatchesStore | src/components/organisms/TransactionList.jsx:48-49 | With distinct Ids the list's filter equals the store's splice |
| TransactionList.FindCategory | src/components/organisms/TransactionList.jsx:56-61 | The first category whose name matches ignoring case and whose type is equal; none exactly when no category matches |
| TransactionList.FindCategoryIgnoresCase | src/components/organisms/TransactionList.jsx:57-58 | The lookup does not depend on the case of the stored category name |
| TransactionList.FindSameMatches | src/components/organisms/TransactionList.jsx:57-59 | Two transactions with the same lower-cased category and type find the same category |
| TransactionList.OfferedCategoryIsFound | src/components/organisms/TransactionList.jsx:56-61 | A transaction saved with a category value the form offered finds a category |
| TransactionList.CountSuffix | src/components/organisms/TransactionList.jsx:109 | The plural ending is used exactly when the count is not 1 |
| TransactionList.CountConditions | src/components/organisms/TransactionList.jsx:109-145 | The empty state and "Load More" never appear together, and both come with a plural label |
| TransactionCard.FormatRecurrence | src/components/molecules/TransactionCard.jsx:24-27 | 'none' reads "One-time"; any other value keeps its length, with the first character upper-cased and the rest unchanged |
| TransactionCard.RecurrenceBadges | src/components/molecules/TransactionCard.jsx:24-27 | The badge of each stored recurrence kind |
| TransactionCard.RecurrenceBadgesDistinct | src/components/molecules/TransactionCard.jsx:24-27 | Different kinds get different badges |
| TransactionCard.SignPrefix | src/components/molecules/TransactionCard.jsx:15-61 | "+" for income, "-" for an expense |
| TransactionCard.DisplayedAmount | src/components/molecules/TransactionCard.jsx:61 | `Math.abs(amount)`: non-negative, the amount or its negation |
| TransactionCard.DisplayMatchesBalanceEffect | src/components/molecules/TransactionCard.jsx:15-61 | For a non-negative amount the sign and magnitude shown are what the entry adds to the balance |
| TransactionCard.CategoryName | src/components/molecules/TransactionCard.jsx:49 | A missing category, or one without a name, shows "Uncategorized"; otherwise its name |
| TransactionCard.CategoryColor | src/components/molecules/TransactionCard.jsx:38 | The fallback of `category?.color` is `#64748b`: a missing category, or one with an empty colour, shows `#64748b`; otherwise its colour |

## Left out

- Time of day and time zones: `new Date()` carries a time and `parseISO` gives local midnight. The model works on whole days, with the reference day as a parameter.
- Recurrence.AccumulateOnDay: the source guard `isBefore(checkDate, addDays(currentDate, 1))` compares against the next day at the current time of day, so the source may step once more from the day after `day`. That extra iteration adds nothing, and the model stops at `day`.
- The `default:` branches for unknown recurrence strings: the recurrence is one of the six kinds.
- Floating point: amounts, multipliers, 4.33 and 2.17 are exact `real`s, and NaN is `None` only where `parseFloat` produces it.
- Text.ParseFloat: decimal notation only (sign, digits, fraction). Exponents and "Infinity" are not modelled, and `-0` is 0.
- Text.ToLower: ASCII letters only; no Unicode case mapping.
- TransactionCard.FormatRecurrence: its first character is upper-cased by Text.UpperChar, which maps ASCII letters only, so a character that `toUpperCase()` expands (such as "ß" to "SS") keeps its length here. The stored recurrence names are ASCII.
- Dates: years before 1 are not modelled. Text.IsoDateOrder holds for four-digit years.
- Asynchrony: `delay`, promises and `Promise.all`. Each service call is a plain step, a failed fetch is `None`, and the rethrown error messages are not modelled.
- `Date.now()` scenario Ids and `new Date()` are parameters.
- Toasts, `console.error`, `window.confirm`, and the loading and error flags of the chart and the list.
- The category service's load; the category list is a parameter.
- The edit-mode prefill of the form (it needs `amount.toString()` of a floating-point number). The form's initial date is today's 'yyyy-MM-dd' string; `toISOString` gives the UTC date, which the model does not distinguish.
- The store call, `onSuccess` and `onClose` after a valid submit: HandleSubmit ends at the data it hands on.
- The string-to-number `parseInt(id, 10)` on Ids in the store: Ids are integers.
- Extra fields spread into a created or updated entry beyond the transaction's own fields. A created entry with an empty-string date, like a missing one, gets today's date in the source; the draft's date is `Option`.
- TransactionList.SortNewestFirst: stability (entries with the same date keep their list order) is not stated.
- ScenarioPanel.UpdateScenario: only the three fields the panel edits (name and the two multipliers) are modelled as edits.
- ScenarioPanel.SliderRange: slider values come from `parseFloat` of the range input's value string; the model states the set of positions.
- The panel's expand/collapse toggle, the "N scenarios active" and percentage labels, currency formatting, chart options and tooltips: presentation only.
