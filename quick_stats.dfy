/** The quick statistics: the current balance, the monthly income and expense estimates
    of the recurring transactions, and the projected balance a month ahead. */
module QuickStats {
  import opened Dates
  import opened Wrappers
  import opened Model
  import opened Recurrence
  import opened ScenarioService

  /** A transaction's monthly estimate: monthly as is, weekly times 4.33 (weeks per
      month), biweekly times 2.17, yearly divided by 12; daily and one-time ones are
      not estimated. */
  function MonthlyAmount(t: Transaction): (m: real)
    ensures t.amount >= 0.0 ==> m >= 0.0
    ensures (t.recurrence == Daily || t.recurrence == OneTime) ==> m == 0.0
  {
    match t.recurrence
    case Monthly => t.amount
    case Weekly => t.amount * 4.33
    case Biweekly => t.amount * 2.17
    case Yearly => t.amount / 12.0
    case _ => 0.0
  }

  /** The monthly estimates of the income transactions. */
  function MonthlyIncome(txs: seq<Transaction>): real {
    if |txs| == 0 then 0.0
    else
      var t := txs[|txs| - 1];
      MonthlyIncome(txs[..|txs| - 1]) + (if t.kind == Income then MonthlyAmount(t) else 0.0)
  }

  /** The monthly estimates of the expense transactions. */
  function MonthlyExpenses(txs: seq<Transaction>): real {
    if |txs| == 0 then 0.0
    else
      var t := txs[|txs| - 1];
      MonthlyExpenses(txs[..|txs| - 1]) + (if t.kind == Expense then MonthlyAmount(t) else 0.0)
  }

  datatype Stats = Stats(monthlyIncome: real, monthlyExpenses: real, nextMonthBalance: real)

  /** `calculateStats`: one pass over the transactions accumulating the current balance
      (the unscaled fold with the year cut-off one year after today) and the two monthly
      totals; the projection adds the income and subtracts the expenses. */
  method CalculateStats(txs: seq<Transaction>, today: Day) returns (stats: Stats)
    ensures stats.monthlyIncome == MonthlyIncome(txs)
    ensures stats.monthlyExpenses == MonthlyExpenses(txs)
    ensures stats.nextMonthBalance == BalanceAsOf(txs, 1.0, 1.0, today) + MonthlyIncome(txs) - MonthlyExpenses(txs)
  {
    var monthlyIncome, monthlyExpenses, currentBalance := 0.0, 0.0, 0.0;
    for k := 0 to |txs|
      invariant currentBalance == BalanceAsOf(txs[..k], 1.0, 1.0, today)
      invariant monthlyIncome == MonthlyIncome(txs[..k])
      invariant monthlyExpenses == MonthlyExpenses(txs[..k])
    {
      var t := txs[k];
      UnitMultipliersAddAmount(t);
      currentBalance := AccumulateUpTo(t, if t.kind == Income then t.amount else -t.amount, today, 1, currentBalance);
      if t.recurrence == Monthly || t.recurrence == Weekly || t.recurrence == Biweekly || t.recurrence == Yearly {
        var monthlyAmount := MonthlyAmount(t);
        if t.kind == Income {
          monthlyIncome := monthlyIncome + monthlyAmount;
        } else {
          monthlyExpenses := monthlyExpenses + monthlyAmount;
        }
      }
      assert txs[..k + 1][..k] == txs[..k];
    }
    assert txs[..|txs|] == txs;
    stats := Stats(monthlyIncome, monthlyExpenses, currentBalance + monthlyIncome - monthlyExpenses);
  }

  /** With non-negative amounts both monthly totals are non-negative. */
  lemma {:induction false} MonthlyTotalsNonNegative(txs: seq<Transaction>)
    requires forall t | t in txs :: t.amount >= 0.0
    ensures MonthlyIncome(txs) >= 0.0 && MonthlyExpenses(txs) >= 0.0
  {
    if |txs| > 0 {
      assert forall u | u in txs[..|txs| - 1] :: u in txs;
      MonthlyTotalsNonNegative(txs[..|txs| - 1]);
      assert txs[|txs| - 1] in txs;
    }
  }

  /** Expenses never reach the income total, and income never reaches the expense total. */
  lemma {:induction false} TotalsSeparateKinds(txs: seq<Transaction>)
    ensures (forall t | t in txs :: t.kind == Expense) ==> MonthlyIncome(txs) == 0.0
    ensures (forall t | t in txs :: t.kind == Income) ==> MonthlyExpenses(txs) == 0.0
  {
    if |txs| > 0 {
      assert forall u | u in txs[..|txs| - 1] :: u in txs;
      TotalsSeparateKinds(txs[..|txs| - 1]);
      assert txs[|txs| - 1] in txs;
    }
  }

  /** Daily and one-time transactions add nothing to either total. */
  lemma {:induction false} UnestimatedAddNothing(txs: seq<Transaction>)
    requires forall t | t in txs :: t.recurrence == Daily || t.recurrence == OneTime
    ensures MonthlyIncome(txs) == 0.0 && MonthlyExpenses(txs) == 0.0
  {
    if |txs| > 0 {
      assert forall u | u in txs[..|txs| - 1] :: u in txs;
      UnestimatedAddNothing(txs[..|txs| - 1]);
      assert txs[|txs| - 1] in txs;
    }
  }

  /** The component's state: the three figures (initially 0) and the loading flag. */
  class QuickStatsState {
    var stats: Stats
    var loading: bool

    constructor ()
      ensures stats == Stats(0.0, 0.0, 0.0) && loading
    {
      stats := Stats(0.0, 0.0, 0.0);
      loading := true;
    }

    /** The effect that loads the transactions (`None` when the fetch fails); on
        failure the previous figures stay. Loading ends either way. */
    method Load(fetched: Option<seq<Transaction>>, today: Day)
      modifies this
      ensures !loading
      ensures fetched.Some? ==>
        stats.monthlyIncome == MonthlyIncome(fetched.value)
        && stats.monthlyExpenses == MonthlyExpenses(fetched.value)
        && stats.nextMonthBalance == BalanceAsOf(fetched.value, 1.0, 1.0, today) + stats.monthlyIncome - stats.monthlyExpenses
      ensures fetched.None? ==> stats == old(stats)
    {
      if fetched.Some? {
        var computed := CalculateStats(fetched.value, today);
        stats := computed;
      }
      loading := false;
    }
  }

  /** A failed first load keeps the three figures at 0. */
  method FailedLoadKeepsZero(today: Day) returns (stats: Stats)
    ensures stats == Stats(0.0, 0.0, 0.0)
  {
    var component := new QuickStatsState();
    component.Load(None, today);
    stats := component.stats;
  }
}
