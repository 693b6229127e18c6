/** The scenario forecast service: the starting balance as of the reference day, the
    day-by-day series over `dateRange` days, and the fan-out over several scenarios. */
module ScenarioService {
  import opened Dates
  import opened Wrappers
  import opened Model
  import opened Recurrence

  /** What one occurrence adds: `amount * incomeMultiplier` for income, minus
      `amount * expenseMultiplier` for an expense. */
  function Signed(t: Transaction, inc: real, exp: real): real {
    if t.kind == Income then t.amount * inc else -(t.amount * exp)
  }

  /** The unscaled folds add `+amount` for income and `-amount` for an expense, which
      is what a scenario with both multipliers 1 adds. */
  lemma UnitMultipliersAddAmount(t: Transaction)
    ensures Signed(t, 1.0, 1.0) == if t.kind == Income then t.amount else -t.amount
  {
  }

  /** The balance after every occurrence on or before `day`, each scaled by the multipliers. */
  function BalanceAsOf(txs: seq<Transaction>, inc: real, exp: real, day: Day): real
  {
    if |txs| == 0 then 0.0
    else
      var t := txs[|txs| - 1];
      BalanceAsOf(txs[..|txs| - 1], inc, exp, day) + Repeat(Signed(t, inc, exp), |Occurrences(t, day)|)
  }

  /** The net change on `day`: each transaction that occurs on `day` adds its signed value once. */
  function ChangeOn(txs: seq<Transaction>, inc: real, exp: real, day: Day): real
  {
    if |txs| == 0 then 0.0
    else
      var t := txs[|txs| - 1];
      ChangeOn(txs[..|txs| - 1], inc, exp, day) + (if OccursOn(t, day) then Signed(t, inc, exp) else 0.0)
  }

  /** The changes of the first `n` days of the range, starting at `ref`. */
  function ChangeOverDays(txs: seq<Transaction>, inc: real, exp: real, ref: Day, n: nat): real
  {
    if n == 0 then 0.0
    else ChangeOverDays(txs, inc, exp, ref, n - 1) + ChangeOn(txs, inc, exp, AddDays(ref, n - 1))
  }

  /** Point `i` of a forecast: dated `ref + i`, carrying that day's change and the
      starting balance plus the changes of days 0..i. */
  function PointAt(txs: seq<Transaction>, inc: real, exp: real, ref: Day, scenario: Option<ScenarioLabel>, i: nat): ForecastPoint
  {
    var day := AddDays(ref, i);
    ForecastPoint(day, BalanceAsOf(txs, inc, exp, ref) + ChangeOverDays(txs, inc, exp, ref, i + 1),
                  ChangeOn(txs, inc, exp, day), scenario)
  }

  /** The first `n` points of a series. */
  function Points(txs: seq<Transaction>, inc: real, exp: real, ref: Day, scenario: Option<ScenarioLabel>, n: nat): seq<ForecastPoint>
  {
    if n == 0 then [] else Points(txs, inc, exp, ref, scenario, n - 1) + [PointAt(txs, inc, exp, ref, scenario, n - 1)]
  }

  lemma {:induction false} PointsIndex(txs: seq<Transaction>, inc: real, exp: real, ref: Day, scenario: Option<ScenarioLabel>, n: nat)
    ensures |Points(txs, inc, exp, ref, scenario, n)| == n
    ensures forall i | 0 <= i < n :: Points(txs, inc, exp, ref, scenario, n)[i] == PointAt(txs, inc, exp, ref, scenario, i)
  {
    if n > 0 {
      PointsIndex(txs, inc, exp, ref, scenario, n - 1);
    }
  }

  /** The next point of a series extends the running sum by the new day's change. */
  lemma PointStep(txs: seq<Transaction>, inc: real, exp: real, ref: Day, scenario: Option<ScenarioLabel>, n: nat)
    ensures var day := AddDays(ref, n);
      var change := ChangeOn(txs, inc, exp, day);
      && ChangeOverDays(txs, inc, exp, ref, n + 1) == ChangeOverDays(txs, inc, exp, ref, n) + change
      && PointAt(txs, inc, exp, ref, scenario, n)
         == ForecastPoint(day, BalanceAsOf(txs, inc, exp, ref) + ChangeOverDays(txs, inc, exp, ref, n) + change, change, scenario)
  {
  }

  /** The whole series for days 0..dateRange. */
  function Forecast(txs: seq<Transaction>, inc: real, exp: real, ref: Day, dateRange: nat, scenario: Option<ScenarioLabel>): seq<ForecastPoint>
  {
    Points(txs, inc, exp, ref, scenario, dateRange + 1)
  }

  /** The label a scenario forecast attaches to each point. */
  function LabelOf(s: Scenario): Option<ScenarioLabel> {
    Some(ScenarioLabel(s.Id, s.name))
  }

  /** The starting-balance fold: every transaction's occurrences on or before `today`,
      with the year cut-off `yearSlack` years after `today`. */
  method StartingBalance(txs: seq<Transaction>, inc: real, exp: real, today: Day, yearSlack: nat) returns (balance: real)
    ensures balance == BalanceAsOf(txs, inc, exp, today)
  {
    balance := 0.0;
    for k := 0 to |txs|
      invariant balance == BalanceAsOf(txs[..k], inc, exp, today)
    {
      balance := AccumulateUpTo(txs[k], Signed(txs[k], inc, exp), today, yearSlack, balance);
      assert txs[..k + 1][..k] == txs[..k];
    }
    assert txs[..|txs|] == txs;
  }

  /** The change of one day of the range: every transaction checked against `day`. */
  method DailyChange(txs: seq<Transaction>, inc: real, exp: real, day: Day) returns (change: real)
    ensures change == ChangeOn(txs, inc, exp, day)
  {
    change := 0.0;
    for k := 0 to |txs|
      invariant change == ChangeOn(txs[..k], inc, exp, day)
    {
      change := AccumulateOnDay(txs[k], Signed(txs[k], inc, exp), day, change);
      assert txs[..k + 1][..k] == txs[..k];
    }
    assert txs[..|txs|] == txs;
  }

  /** The series builder shared by the scenario service and the chart: starting balance
      with year cut-off `yearSlack`, then one point per day of the range. */
  method BuildForecast(txs: seq<Transaction>, inc: real, exp: real, today: Day, dateRange: nat,
                       yearSlack: nat, scenario: Option<ScenarioLabel>) returns (data: seq<ForecastPoint>)
    ensures data == Forecast(txs, inc, exp, today, dateRange, scenario)
  {
    var running := StartingBalance(txs, inc, exp, today, yearSlack);
    data := [];
    for i := 0 to dateRange + 1
      invariant running == BalanceAsOf(txs, inc, exp, today) + ChangeOverDays(txs, inc, exp, today, i)
      invariant data == Points(txs, inc, exp, today, scenario, i)
    {
      running, data := ForecastDay(txs, inc, exp, today, scenario, i, running, data);
    }
  }

  /** One pass of the daily loop: the day's change is added to the running balance and
      the day's point is pushed. */
  method ForecastDay(txs: seq<Transaction>, inc: real, exp: real, today: Day, scenario: Option<ScenarioLabel>, i: nat,
                     running: real, data: seq<ForecastPoint>) returns (running': real, data': seq<ForecastPoint>)
    requires running == BalanceAsOf(txs, inc, exp, today) + ChangeOverDays(txs, inc, exp, today, i)
    requires data == Points(txs, inc, exp, today, scenario, i)
    ensures running' == BalanceAsOf(txs, inc, exp, today) + ChangeOverDays(txs, inc, exp, today, i + 1)
    ensures data' == Points(txs, inc, exp, today, scenario, i + 1)
  {
    var day := AddDays(today, i);
    var change := DailyChange(txs, inc, exp, day);
    PointStep(txs, inc, exp, today, scenario, i);
    running' := running + change;
    var point := ForecastPoint(day, running', change, scenario);
    assert point == PointAt(txs, inc, exp, today, scenario, i);
    data' := data + [point];
  }

  /** `calculateScenarioForecast(scenario, dateRange)` over the transactions `txs` the store holds. */
  method CalculateScenarioForecast(txs: seq<Transaction>, s: Scenario, today: Day, dateRange: nat) returns (data: seq<ForecastPoint>)
    ensures data == Forecast(txs, s.incomeMultiplier, s.expenseMultiplier, today, dateRange, LabelOf(s))
  {
    data := BuildForecast(txs, s.incomeMultiplier, s.expenseMultiplier, today, dateRange, 2, LabelOf(s));
  }

  /** The `{scenario, data}` record stored per scenario `Id`. */
  datatype ScenarioResult = ScenarioResult(scenario: Scenario, data: seq<ForecastPoint>)

  function ResultFor(txs: seq<Transaction>, s: Scenario, today: Day, dateRange: nat): ScenarioResult {
    ScenarioResult(s, Forecast(txs, s.incomeMultiplier, s.expenseMultiplier, today, dateRange, LabelOf(s)))
  }

  /** The results map after processing `scenarios` in order, each one (re)assigning its `Id`. */
  function ResultsFor(txs: seq<Transaction>, scenarios: seq<Scenario>, today: Day, dateRange: nat): map<int, ScenarioResult>
  {
    if |scenarios| == 0 then map[]
    else
      var s := scenarios[|scenarios| - 1];
      ResultsFor(txs, scenarios[..|scenarios| - 1], today, dateRange)[s.Id := ResultFor(txs, s, today, dateRange)]
  }

  /** `calculateMultipleScenarios(scenarios, dateRange)`. */
  method CalculateMultipleScenarios(txs: seq<Transaction>, scenarios: seq<Scenario>, today: Day, dateRange: nat)
    returns (results: map<int, ScenarioResult>)
    ensures results == ResultsFor(txs, scenarios, today, dateRange)
  {
    results := map[];
    for k := 0 to |scenarios|
      invariant results == ResultsFor(txs, scenarios[..k], today, dateRange)
    {
      var s := scenarios[k];
      var data := CalculateScenarioForecast(txs, s, today, dateRange);
      results := results[s.Id := ScenarioResult(s, data)];
      assert scenarios[..k + 1][..k] == scenarios[..k];
    }
    assert scenarios[..|scenarios|] == scenarios;
  }

  // ---------------------------------------------------------------------------
  // Properties of the fan-out

  /** No scenario after position `i` carries the Id of scenario `i`. */
  predicate LastWithId(scenarios: seq<Scenario>, i: nat)
    requires i < |scenarios|
  {
    forall j | i < j < |scenarios| :: scenarios[j].Id != scenarios[i].Id
  }

  /** The map has exactly the scenario Ids as keys. */
  lemma {:induction false} ResultsKeys(txs: seq<Transaction>, scenarios: seq<Scenario>, today: Day, dateRange: nat)
    ensures ResultsFor(txs, scenarios, today, dateRange).Keys == set s | s in scenarios :: s.Id
  {
    if |scenarios| > 0 {
      var n := |scenarios| - 1;
      ResultsKeys(txs, scenarios[..n], today, dateRange);
      assert scenarios == scenarios[..n] + [scenarios[n]];
    }
  }

  /** Each Id holds the forecast of the last scenario carrying it: a later duplicate
      overwrites an earlier one. */
  lemma {:induction false} ResultsLastWins(txs: seq<Transaction>, scenarios: seq<Scenario>, today: Day, dateRange: nat, i: nat)
    requires i < |scenarios| && LastWithId(scenarios, i)
    ensures scenarios[i].Id in ResultsFor(txs, scenarios, today, dateRange)
    ensures ResultsFor(txs, scenarios, today, dateRange)[scenarios[i].Id] == ResultFor(txs, scenarios[i], today, dateRange)
  {
    var n := |scenarios| - 1;
    if i < n {
      var init := scenarios[..n];
      assert LastWithId(init, i) by {
        forall j | i < j < |init| ensures init[j].Id != init[i].Id {
          assert init[j] == scenarios[j];
        }
      }
      ResultsLastWins(txs, init, today, dateRange, i);
    }
  }

  /** An empty scenario list gives an empty map. */
  lemma NoScenariosNoResults(txs: seq<Transaction>, today: Day, dateRange: nat)
    ensures ResultsFor(txs, [], today, dateRange) == map[]
  {
  }

  // ---------------------------------------------------------------------------
  // Properties of the series

  lemma {:induction false} AddDaysSucc(d: Day, n: nat)
    ensures AddDays(d, n + 1) == NextDay(AddDays(d, n))
    decreases n
  {
    if n > 0 {
      AddDaysSucc(NextDay(d), n - 1);
    }
  }

  /** The forecast has `dateRange + 1` points, point `i` is dated `ref + i` days and
      carries that day's change, and each balance is the previous one (the starting
      balance for point 0) plus the point's change. */
  lemma ForecastShape(txs: seq<Transaction>, inc: real, exp: real, ref: Day, dateRange: nat, scenario: Option<ScenarioLabel>)
    ensures var f := Forecast(txs, inc, exp, ref, dateRange, scenario);
      && |f| == dateRange + 1
      && (forall i | 0 <= i < |f| :: DayNumber(f[i].date) == DayNumber(ref) + i)
      && (forall i | 0 <= i < |f| :: f[i].change == ChangeOn(txs, inc, exp, f[i].date) && f[i].scenario == scenario)
      && f[0].balance == BalanceAsOf(txs, inc, exp, ref) + f[0].change
      && (forall i | 1 <= i < |f| :: f[i].balance == f[i - 1].balance + f[i].change)
  {
    var f := Forecast(txs, inc, exp, ref, dateRange, scenario);
    PointsIndex(txs, inc, exp, ref, scenario, dateRange + 1);
    forall i | 0 <= i < |f| ensures DayNumber(f[i].date) == DayNumber(ref) + i {
      AddDaysNumber(ref, i);
    }
    assert AddDays(ref, 0) == ref;
    assert ChangeOverDays(txs, inc, exp, ref, 1) == ChangeOn(txs, inc, exp, ref);
  }

  /** Moving the cut-off day forward by one adds exactly that day's change. */
  lemma {:induction false} BalanceNextDay(txs: seq<Transaction>, inc: real, exp: real, day: Day)
    ensures BalanceAsOf(txs, inc, exp, NextDay(day)) == BalanceAsOf(txs, inc, exp, day) + ChangeOn(txs, inc, exp, NextDay(day))
  {
    if |txs| > 0 {
      var t := txs[|txs| - 1];
      BalanceNextDay(txs[..|txs| - 1], inc, exp, day);
      OccurrencesNextDay(t, day);
    }
  }

  /** The double count on day 0: occurrences on the reference day are in the starting
      balance and again in point 0's change, so every point's balance is the true balance
      as of its date plus the reference day's change. */
  lemma {:induction false} DayZeroCountedTwice(txs: seq<Transaction>, inc: real, exp: real, ref: Day, i: nat)
    ensures BalanceAsOf(txs, inc, exp, ref) + ChangeOverDays(txs, inc, exp, ref, i + 1)
         == BalanceAsOf(txs, inc, exp, AddDays(ref, i)) + ChangeOn(txs, inc, exp, ref)
  {
    if i == 0 {
      assert AddDays(ref, 0) == ref;
      assert ChangeOverDays(txs, inc, exp, ref, 1) == ChangeOn(txs, inc, exp, ref);
    } else {
      DayZeroCountedTwice(txs, inc, exp, ref, i - 1);
      var prev := AddDays(ref, i - 1);
      AddDaysSucc(ref, i - 1);
      BalanceNextDay(txs, inc, exp, prev);
      assert ChangeOverDays(txs, inc, exp, ref, i + 1)
          == ChangeOverDays(txs, inc, exp, ref, i) + ChangeOn(txs, inc, exp, NextDay(prev));
    }
  }

  /** The same, for every point of a series. */
  lemma ForecastDoubleCountsDayZero(txs: seq<Transaction>, inc: real, exp: real, ref: Day, dateRange: nat, scenario: Option<ScenarioLabel>)
    ensures var f := Forecast(txs, inc, exp, ref, dateRange, scenario);
      forall i | 0 <= i < |f| ::
        f[i].balance == BalanceAsOf(txs, inc, exp, f[i].date) + ChangeOn(txs, inc, exp, ref)
  {
    var f := Forecast(txs, inc, exp, ref, dateRange, scenario);
    PointsIndex(txs, inc, exp, ref, scenario, dateRange + 1);
    forall i | 0 <= i < |f|
      ensures f[i].balance == BalanceAsOf(txs, inc, exp, f[i].date) + ChangeOn(txs, inc, exp, ref)
    {
      DayZeroCountedTwice(txs, inc, exp, ref, i);
    }
  }

  // ---------------------------------------------------------------------------
  // The multipliers

  /** With a non-negative amount, a larger income multiplier or a smaller expense
      multiplier never lowers what one occurrence adds. */
  lemma SignedMonotone(t: Transaction, inc1: real, exp1: real, inc2: real, exp2: real)
    requires t.amount >= 0.0 && inc1 <= inc2 && exp2 <= exp1
    ensures Signed(t, inc1, exp1) <= Signed(t, inc2, exp2)
  {
    if t.kind == Income {
      assert t.amount * inc2 - t.amount * inc1 == t.amount * (inc2 - inc1);
    } else {
      assert t.amount * exp1 - t.amount * exp2 == t.amount * (exp1 - exp2);
    }
  }

  /** The same for a day's change. */
  lemma {:induction false} ChangeOnMonotone(txs: seq<Transaction>, inc1: real, exp1: real, inc2: real, exp2: real, day: Day)
    requires forall t | t in txs :: t.amount >= 0.0
    requires inc1 <= inc2 && exp2 <= exp1
    ensures ChangeOn(txs, inc1, exp1, day) <= ChangeOn(txs, inc2, exp2, day)
  {
    if |txs| > 0 {
      var init, t := txs[..|txs| - 1], txs[|txs| - 1];
      assert forall u | u in init :: u in txs;
      ChangeOnMonotone(init, inc1, exp1, inc2, exp2, day);
      SignedMonotone(t, inc1, exp1, inc2, exp2);
    }
  }

  lemma {:induction false} RepeatMonotone(v1: real, v2: real, n: nat)
    requires v1 <= v2
    ensures Repeat(v1, n) <= Repeat(v2, n)
  {
    if n > 0 {
      RepeatMonotone(v1, v2, n - 1);
    }
  }

  /** The same for the balance as of a day. */
  lemma {:induction false} BalanceAsOfMonotone(txs: seq<Transaction>, inc1: real, exp1: real, inc2: real, exp2: real, day: Day)
    requires forall t | t in txs :: t.amount >= 0.0
    requires inc1 <= inc2 && exp2 <= exp1
    ensures BalanceAsOf(txs, inc1, exp1, day) <= BalanceAsOf(txs, inc2, exp2, day)
  {
    if |txs| > 0 {
      var init, t := txs[..|txs| - 1], txs[|txs| - 1];
      assert forall u | u in init :: u in txs;
      BalanceAsOfMonotone(init, inc1, exp1, inc2, exp2, day);
      SignedMonotone(t, inc1, exp1, inc2, exp2);
      RepeatMonotone(Signed(t, inc1, exp1), Signed(t, inc2, exp2), |Occurrences(t, day)|);
    }
  }

  lemma {:induction false} ChangeOverDaysMonotone(txs: seq<Transaction>, inc1: real, exp1: real, inc2: real, exp2: real, ref: Day, n: nat)
    requires forall t | t in txs :: t.amount >= 0.0
    requires inc1 <= inc2 && exp2 <= exp1
    ensures ChangeOverDays(txs, inc1, exp1, ref, n) <= ChangeOverDays(txs, inc2, exp2, ref, n)
  {
    if n > 0 {
      ChangeOverDaysMonotone(txs, inc1, exp1, inc2, exp2, ref, n - 1);
      ChangeOnMonotone(txs, inc1, exp1, inc2, exp2, AddDays(ref, n - 1));
    }
  }

  /** With non-negative amounts, a scenario with a larger income multiplier and a
      smaller expense multiplier forecasts a balance at least as high on every day. */
  lemma ScenarioForecastsOrdered(txs: seq<Transaction>, s1: Scenario, s2: Scenario, ref: Day, dateRange: nat)
    requires forall t | t in txs :: t.amount >= 0.0
    requires s1.incomeMultiplier <= s2.incomeMultiplier && s2.expenseMultiplier <= s1.expenseMultiplier
    ensures var f1 := Forecast(txs, s1.incomeMultiplier, s1.expenseMultiplier, ref, dateRange, LabelOf(s1));
      var f2 := Forecast(txs, s2.incomeMultiplier, s2.expenseMultiplier, ref, dateRange, LabelOf(s2));
      |f1| == |f2| && forall i | 0 <= i < |f1| :: f1[i].date == f2[i].date && f1[i].balance <= f2[i].balance
  {
    var inc1, exp1, inc2, exp2 := s1.incomeMultiplier, s1.expenseMultiplier, s2.incomeMultiplier, s2.expenseMultiplier;
    PointsIndex(txs, inc1, exp1, ref, LabelOf(s1), dateRange + 1);
    PointsIndex(txs, inc2, exp2, ref, LabelOf(s2), dateRange + 1);
    BalanceAsOfMonotone(txs, inc1, exp1, inc2, exp2, ref);
    forall i | 0 <= i <= dateRange
      ensures PointAt(txs, inc1, exp1, ref, LabelOf(s1), i).balance <= PointAt(txs, inc2, exp2, ref, LabelOf(s2), i).balance
    {
      ChangeOverDaysMonotone(txs, inc1, exp1, inc2, exp2, ref, i + 1);
    }
  }
}
