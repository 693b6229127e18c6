/** The cash-flow chart: the unscaled forecast it builds when no scenario is selected,
    the scenario results it shows otherwise, its series and colours, and the final,
    highest and lowest balances it summarises. */
module CashFlowChart {
  import opened Dates
  import opened Wrappers
  import opened Model
  import opened Recurrence
  import opened ScenarioService
  import Lists

  /** The forecast built when no scenario is selected: the same starting-balance fold
      (year cut-off two years out) and daily loop, unscaled and without scenario fields. */
  method DefaultForecast(txs: seq<Transaction>, today: Day, dateRange: nat) returns (data: seq<ForecastPoint>)
    ensures data == Forecast(txs, 1.0, 1.0, today, dateRange, None)
  {
    data := BuildForecast(txs, 1.0, 1.0, today, dateRange, 2, None);
  }

  /** A scenario with both multipliers 1 forecasts exactly the default series, apart
      from the scenario fields on each point. */
  lemma NeutralScenarioIsDefault(txs: seq<Transaction>, s: Scenario, today: Day, dateRange: nat)
    requires s.incomeMultiplier == 1.0 && s.expenseMultiplier == 1.0
    ensures var d := Forecast(txs, 1.0, 1.0, today, dateRange, None);
      var f := Forecast(txs, s.incomeMultiplier, s.expenseMultiplier, today, dateRange, LabelOf(s));
      |f| == |d| && forall i | 0 <= i < |f| :: f[i] == d[i].(scenario := LabelOf(s))
  {
    PointsIndex(txs, 1.0, 1.0, today, None, dateRange + 1);
    PointsIndex(txs, 1.0, 1.0, today, LabelOf(s), dateRange + 1);
  }

  // ---------------------------------------------------------------------------
  // Summaries

  /** `Math.max` over the balances of a non-empty series. */
  function MaxBalance(data: seq<ForecastPoint>): (m: real)
    requires |data| > 0
    ensures forall i | 0 <= i < |data| :: data[i].balance <= m
    ensures exists i | 0 <= i < |data| :: data[i].balance == m
  {
    if |data| == 1 then data[0].balance
    else
      var rest := MaxBalance(data[1..]);
      assert forall i | 1 <= i < |data| :: data[i] == data[1..][i - 1];
      if data[0].balance >= rest then data[0].balance else rest
  }

  /** `Math.min` over the balances of a non-empty series. */
  function MinBalance(data: seq<ForecastPoint>): (m: real)
    requires |data| > 0
    ensures forall i | 0 <= i < |data| :: m <= data[i].balance
    ensures exists i | 0 <= i < |data| :: data[i].balance == m
  {
    if |data| == 1 then data[0].balance
    else
      var rest := MinBalance(data[1..]);
      assert forall i | 1 <= i < |data| :: data[i] == data[1..][i - 1];
      if data[0].balance <= rest then data[0].balance else rest
  }

  /** The Final / High / Low figures of one series. */
  datatype Summary = Summary(final: real, high: real, low: real)

  /** The figures of a series, or nothing for an empty one (its card is not rendered). */
  function Summarize(data: seq<ForecastPoint>): (r: Option<Summary>)
    ensures r.Some? <==> |data| > 0
    ensures r.Some? ==> r.value.low <= r.value.final <= r.value.high
    ensures r.Some? ==> r.value.final == data[|data| - 1].balance
  {
    if |data| == 0 then None
    else Some(Summary(data[|data| - 1].balance, MaxBalance(data), MinBalance(data)))
  }

  /** One comparison card: the scenario and the figures of its series. */
  datatype ScenarioCard = ScenarioCard(scenario: Scenario, summary: Summary)

  /** The series stored for a scenario's `Id`, or the empty series when there is none. */
  function DataFor(results: map<int, ScenarioResult>, s: Scenario): seq<ForecastPoint> {
    if s.Id in results then results[s.Id].data else []
  }

  /** The comparison cards, in scenario order, skipping scenarios whose series is missing or empty. */
  function ComparisonCards(scenarios: seq<Scenario>, results: map<int, ScenarioResult>): (cards: seq<ScenarioCard>)
    ensures |cards| <= |scenarios|
    ensures forall c | c in cards :: c.scenario in scenarios && c.summary.low <= c.summary.final <= c.summary.high
    ensures forall c | c in cards :: Summarize(DataFor(results, c.scenario)) == Some(c.summary)
    ensures forall s | s in scenarios && |DataFor(results, s)| > 0 :: ScenarioCard(s, Summarize(DataFor(results, s)).value) in cards
  {
    if |scenarios| == 0 then []
    else
      var s := scenarios[0];
      var rest := ComparisonCards(scenarios[1..], results);
      assert forall u | u in scenarios[1..] :: u in scenarios;
      assert forall u | u in scenarios :: u == s || u in scenarios[1..];
      CardOf(s, results) + rest
  }

  /** The card of one scenario: none when its series is missing or empty. */
  function CardOf(s: Scenario, results: map<int, ScenarioResult>): seq<ScenarioCard> {
    match Summarize(DataFor(results, s))
    case None => []
    case Some(summary) => [ScenarioCard(s, summary)]
  }

  /** A single scenario contributes one card, with the summary of its own series, when
      that series is non-empty, and none otherwise. */
  lemma OneScenarioCard(s: Scenario, results: map<int, ScenarioResult>)
    ensures ComparisonCards([s], results) ==
      (if |DataFor(results, s)| > 0 then [ScenarioCard(s, Summarize(DataFor(results, s)).value)] else [])
  {
    assert [s][1..] == [];
  }

  /** The cards of a concatenation are the cards of each part in turn, so the cards keep
      the order of the scenario list. */
  lemma {:induction false} ComparisonCardsConcat(a: seq<Scenario>, b: seq<Scenario>, results: map<int, ScenarioResult>)
    ensures ComparisonCards(a + b, results) == ComparisonCards(a, results) + ComparisonCards(b, results)
    decreases |a|
  {
    if |a| > 0 {
      assert (a + b)[0] == a[0];
      assert (a + b)[1..] == a[1..] + b;
      ComparisonCardsConcat(a[1..], b, results);
      Lists.ConcatAssoc(CardOf(a[0], results), ComparisonCards(a[1..], results), ComparisonCards(b, results));
    } else {
      assert a + b == b;
    }
  }

  /** What the block under the chart shows: the comparison cards, or the three figures
      of the single series. */
  datatype SummaryBlock = Comparison(cards: seq<ScenarioCard>) | Single(figures: Summary)

  /** The block under the chart: absent while there is neither chart data nor any scenario
      result; the comparison cards with more than one scenario; otherwise the projected,
      highest and lowest balance of the chart's series. */
  function SummaryBlockOf(scenarios: seq<Scenario>, results: map<int, ScenarioResult>, chartData: seq<ForecastPoint>): (b: Option<SummaryBlock>)
    ensures b.None? <==> |chartData| == 0 && |results| == 0
    ensures b.Some? ==> (b.value.Comparison? <==> |scenarios| > 1)
    ensures b.Some? && b.value.Comparison? ==> b.value.cards == ComparisonCards(scenarios, results)
    ensures b.Some? && b.value.Single? ==> b.value.figures == SingleSummary(chartData)
  {
    if |chartData| == 0 && |results| == 0 then None
    else if |scenarios| > 1 then Some(Comparison(ComparisonCards(scenarios, results)))
    else Some(Single(SingleSummary(chartData)))
  }

  /** Projected, Highest and Lowest balance of the single series, 0 for an empty series. */
  function SingleSummary(chartData: seq<ForecastPoint>): (r: Summary)
    ensures |chartData| == 0 ==> r == Summary(0.0, 0.0, 0.0)
    ensures |chartData| > 0 ==> Some(r) == Summarize(chartData)
  {
    if |chartData| == 0 then Summary(0.0, 0.0, 0.0)
    else Summary(chartData[|chartData| - 1].balance, MaxBalance(chartData), MinBalance(chartData))
  }

  // ---------------------------------------------------------------------------
  // Series and colours

  const DefaultColor: string := "#0891b2"

  /** One line of the chart. */
  datatype Series = Series(name: string, data: seq<real>, color: string)

  function Balances(data: seq<ForecastPoint>): (r: seq<real>)
    ensures |r| == |data| && forall i | 0 <= i < |data| :: r[i] == data[i].balance
  {
    seq(|data|, i requires 0 <= i < |data| => data[i].balance)
  }

  /** The scenario colours, or the single default colour without scenarios. */
  function Colors(scenarios: seq<Scenario>): (r: seq<string>)
    ensures |scenarios| == 0 ==> r == [DefaultColor]
    ensures |scenarios| > 0 ==> |r| == |scenarios| && forall i | 0 <= i < |r| :: r[i] == scenarios[i].color
  {
    if |scenarios| == 0 then [DefaultColor]
    else seq(|scenarios|, i requires 0 <= i < |scenarios| => scenarios[i].color)
  }

  /** One series per scenario (empty when its result is missing), or the single
      "Balance" series of `chartData`. */
  function ChartSeries(scenarios: seq<Scenario>, results: map<int, ScenarioResult>, chartData: seq<ForecastPoint>): (r: seq<Series>)
    ensures |scenarios| == 0 ==> r == [Series("Balance", Balances(chartData), DefaultColor)]
    ensures |scenarios| > 0 ==> |r| == |scenarios| && forall i | 0 <= i < |r| ::
      r[i].name == scenarios[i].name && r[i].color == scenarios[i].color
      && r[i].data == Balances(DataFor(results, scenarios[i]))
  {
    if |scenarios| == 0 then [Series("Balance", Balances(chartData), DefaultColor)]
    else
      seq(|scenarios|, i requires 0 <= i < |scenarios| =>
        Series(scenarios[i].name, Balances(DataFor(results, scenarios[i])), scenarios[i].color))
  }

  /** The colour list lines up with the series: one colour per series, the same one. */
  lemma ColorsMatchSeries(scenarios: seq<Scenario>, results: map<int, ScenarioResult>, chartData: seq<ForecastPoint>)
    ensures var series := ChartSeries(scenarios, results, chartData);
      |Colors(scenarios)| == |series| && forall i | 0 <= i < |series| :: series[i].color == Colors(scenarios)[i]
  {
  }

  // ---------------------------------------------------------------------------
  // The component state

  /** The date ranges the buttons offer. */
  predicate IsRange(days: nat) {
    days == 30 || days == 60 || days == 90
  }

  /** The chart's state: the series shown by default, the per-scenario results and the
      selected date range. */
  class ChartState {
    var chartData: seq<ForecastPoint>
    var scenarioData: map<int, ScenarioResult>
    var dateRange: nat

    predicate Valid()
      reads this
    {
      IsRange(dateRange)
    }

    constructor ()
      ensures Valid()
      ensures chartData == [] && scenarioData == map[] && dateRange == 30
    {
      chartData := [];
      scenarioData := map[];
      dateRange := 30;
    }

    /** A range button was pressed. */
    method SelectRange(days: nat)
      requires Valid() && IsRange(days)
      modifies this
      ensures Valid()
      ensures dateRange == days && chartData == old(chartData) && scenarioData == old(scenarioData)
    {
      dateRange := days;
    }

    /** `generateForecast`: without scenarios, the default forecast and no scenario
        results; with scenarios, the results of the fan-out and, when the first
        scenario's `Id` has a result, that result's series. */
    method GenerateForecast(txs: seq<Transaction>, scenarios: seq<Scenario>, today: Day)
      requires Valid()
      modifies this
      ensures Valid() && dateRange == old(dateRange)
      ensures |scenarios| == 0 ==>
        chartData == Forecast(txs, 1.0, 1.0, today, dateRange, None) && scenarioData == map[]
      ensures |scenarios| > 0 ==>
        scenarioData == ResultsFor(txs, scenarios, today, dateRange)
        && chartData == (if scenarios[0].Id in scenarioData then scenarioData[scenarios[0].Id].data else old(chartData))
    {
      if |scenarios| == 0 {
        chartData := DefaultForecast(txs, today, dateRange);
        scenarioData := map[];
      } else {
        var results := CalculateMultipleScenarios(txs, scenarios, today, dateRange);
        scenarioData := results;
        var first := scenarios[0];
        if first.Id in results {
          chartData := results[first.Id].data;
        }
      }
    }
  }

  /** The first scenario's `Id` always has a result, so with scenarios the chart shows
      the series stored under it; when no later scenario reuses that `Id`, it is the
      first scenario's own forecast, of `dateRange + 1` points. */
  lemma FirstScenarioShown(txs: seq<Transaction>, scenarios: seq<Scenario>, today: Day, dateRange: nat)
    requires |scenarios| > 0
    ensures scenarios[0].Id in ResultsFor(txs, scenarios, today, dateRange)
    ensures LastWithId(scenarios, 0) ==>
      ResultsFor(txs, scenarios, today, dateRange)[scenarios[0].Id].data
        == Forecast(txs, scenarios[0].incomeMultiplier, scenarios[0].expenseMultiplier, today, dateRange, LabelOf(scenarios[0]))
  {
    ResultsKeys(txs, scenarios, today, dateRange);
    assert scenarios[0] in scenarios;
    if LastWithId(scenarios, 0) {
      ResultsLastWins(txs, scenarios, today, dateRange, 0);
    }
  }

  /** Every series the chart can show has `dateRange + 1` points. */
  lemma ForecastLength(txs: seq<Transaction>, inc: real, exp: real, today: Day, dateRange: nat, scenario: Option<ScenarioLabel>)
    ensures |Forecast(txs, inc, exp, today, dateRange, scenario)| == dateRange + 1
  {
    PointsIndex(txs, inc, exp, today, scenario, dateRange + 1);
  }
}
