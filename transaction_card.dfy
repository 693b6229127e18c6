/** One row of the transaction list: the recurrence badge, the signed amount and the
    category badge with its fallbacks. */
module TransactionCard {
  import opened Wrappers
  import opened Model
  import opened Text
  import ScenarioService

  /** `formatRecurrence`: 'none' reads "One-time"; any other value is shown with its
      first character upper-cased. */
  function FormatRecurrence(recurrence: string): (r: string)
    ensures recurrence == "none" ==> r == "One-time"
    ensures recurrence != "none" ==>
      (|r| == |recurrence| && (|r| > 0 ==> r[0] == UpperChar(recurrence[0]) && r[1..] == recurrence[1..]))
  {
    if recurrence == "none" then "One-time"
    else if |recurrence| == 0 then ""
    else [UpperChar(recurrence[0])] + recurrence[1..]
  }

  /** The badge of each stored recurrence kind. */
  lemma RecurrenceBadges()
    ensures FormatRecurrence(RecurrenceName(OneTime)) == "One-time"
    ensures FormatRecurrence(RecurrenceName(Daily)) == "Daily"
    ensures FormatRecurrence(RecurrenceName(Weekly)) == "Weekly"
    ensures FormatRecurrence(RecurrenceName(Biweekly)) == "Biweekly"
    ensures FormatRecurrence(RecurrenceName(Monthly)) == "Monthly"
    ensures FormatRecurrence(RecurrenceName(Yearly)) == "Yearly"
  {
    assert "daily" != "none" && "weekly" != "none" && "biweekly" != "none";
    assert "monthly" != "none" && "yearly" != "none";
  }

  /** Different kinds get different badges. */
  lemma RecurrenceBadgesDistinct(a: Recurrence, b: Recurrence)
    requires a != b
    ensures FormatRecurrence(RecurrenceName(a)) != FormatRecurrence(RecurrenceName(b))
  {
    RecurrenceBadges();
  }

  /** "+" before income, "-" before everything else. */
  function SignPrefix(t: Transaction): (p: string)
    ensures t.kind == Income ==> p == "+"
    ensures t.kind == Expense ==> p == "-"
  {
    if t.kind == Income then "+" else "-"
  }

  /** `Math.abs(transaction.amount)`. */
  function DisplayedAmount(t: Transaction): (a: real)
    ensures a >= 0.0
    ensures a == t.amount || a == -t.amount
  {
    if t.amount < 0.0 then -t.amount else t.amount
  }

  /** For a non-negative amount the sign and the magnitude shown are exactly what the
      entry adds to the balance. */
  lemma DisplayMatchesBalanceEffect(t: Transaction)
    requires t.amount >= 0.0
    ensures (if t.kind == Income then DisplayedAmount(t) else -DisplayedAmount(t))
      == ScenarioService.Signed(t, 1.0, 1.0)
  {
    ScenarioService.UnitMultipliersAddAmount(t);
  }

  /** `category?.name || 'Uncategorized'`: a missing category, or one with an empty name,
      shows "Uncategorized". */
  function CategoryName(category: Option<Category>): (r: string)
    ensures r != ""
    ensures category.Some? && category.value.name != "" ==> r == category.value.name
    ensures category.None? || category.value.name == "" ==> r == "Uncategorized"
  {
    if category.Some? && category.value.name != "" then category.value.name else "Uncategorized"
  }

  const FallbackColor: string := "#64748b"

  /** `category?.color || '#64748b'`: the colour bar of the row. */
  function CategoryColor(category: Option<Category>): (r: string)
    ensures r != ""
    ensures category.None? || category.value.color == "" ==> r == FallbackColor
    ensures category.Some? && category.value.color != "" ==> r == category.value.color
  {
    if category.Some? && category.value.color != "" then category.value.color else FallbackColor
  }
}
