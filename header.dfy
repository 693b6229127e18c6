/** The header's current balance: every occurrence on or before today, unscaled. */
module Header {
  import opened Dates
  import opened Wrappers
  import opened Model
  import opened Recurrence
  import opened ScenarioService

  /** `calculateCurrentBalance`: the unscaled fold with the year cut-off one year after
      today. It is the scenario starting balance with both multipliers 1. */
  method CurrentBalance(txs: seq<Transaction>, today: Day) returns (balance: real)
    ensures balance == BalanceAsOf(txs, 1.0, 1.0, today)
  {
    balance := 0.0;
    for k := 0 to |txs|
      invariant balance == BalanceAsOf(txs[..k], 1.0, 1.0, today)
    {
      var t := txs[k];
      UnitMultipliersAddAmount(t);
      balance := AccumulateUpTo(t, if t.kind == Income then t.amount else -t.amount, today, 1, balance);
      assert txs[..k + 1][..k] == txs[..k];
    }
    assert txs[..|txs|] == txs;
  }

  /** The balance is shown in the accent colour when it is not negative, in red otherwise. */
  function BalanceColor(balance: real): (c: string)
    ensures c == "text-accent" <==> balance >= 0.0
    ensures c == "text-red-500" <==> balance < 0.0
  {
    if balance >= 0.0 then "text-accent" else "text-red-500"
  }

  /** The header's state: the balance shown and whether it is still loading. */
  class HeaderState {
    var currentBalance: real
    var loading: bool

    constructor ()
      ensures currentBalance == 0.0 && loading
    {
      currentBalance := 0.0;
      loading := true;
    }

    /** The effect that loads the transactions (`None` when the fetch fails) and sets
        the balance; on failure the previous balance stays. Loading ends either way. */
    method Load(fetched: Option<seq<Transaction>>, today: Day)
      modifies this
      ensures !loading
      ensures fetched.Some? ==> currentBalance == BalanceAsOf(fetched.value, 1.0, 1.0, today)
      ensures fetched.None? ==> currentBalance == old(currentBalance)
    {
      if fetched.Some? {
        var balance := CurrentBalance(fetched.value, today);
        currentBalance := balance;
      }
      loading := false;
    }
  }

  /** A failed first load leaves the initial balance of 0, shown in the accent colour. */
  method FailedLoadShowsZero(today: Day) returns (balance: real, color: string)
    ensures balance == 0.0 && color == "text-accent"
  {
    var header := new HeaderState();
    header.Load(None, today);
    balance := header.currentBalance;
    color := BalanceColor(balance);
  }
}
