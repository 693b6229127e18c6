/** Option and Result, for lookups that can miss and calls that can fail. */
module Wrappers {

  datatype Option<+T> = None | Some(value: T)

  datatype Result<+T> = Ok(value: T) | Err(message: string)
}

/** The records the application passes around: transactions, scenarios, categories
    and forecast points. */
module Model {
  import opened Dates
  import opened Wrappers

  /** The `type` field of a transaction or a category. */
  datatype Kind = Income | Expense

  /** The `recurrence` field; the string 'none' is `OneTime`. */
  datatype Recurrence = OneTime | Daily | Weekly | Biweekly | Monthly | Yearly

  datatype Transaction = Transaction(
    Id: int,
    kind: Kind,
    amount: real,
    date: Day,
    recurrence: Recurrence,
    recurrenceEnd: Option<Day>,
    description: string,
    category: string)

  datatype Scenario = Scenario(
    Id: int,
    name: string,
    incomeMultiplier: real,
    expenseMultiplier: real,
    color: string,
    isDefault: bool)

  datatype Category = Category(Id: int, name: string, kind: Kind, color: string)

  /** The `scenarioId` and `scenarioName` fields that only scenario forecasts carry. */
  datatype ScenarioLabel = ScenarioLabel(scenarioId: int, scenarioName: string)

  /** One day of a forecast: the balance at the end of `date` and the change on `date`. */
  datatype ForecastPoint = ForecastPoint(date: Day, balance: real, change: real, scenario: Option<ScenarioLabel>)

  /** The string stored in the `type` field. */
  function KindName(k: Kind): string {
    match k
    case Income => "income"
    case Expense => "expense"
  }

  /** The string stored in the `recurrence` field; 'none' is `OneTime`. */
  function RecurrenceName(r: Recurrence): string {
    match r
    case OneTime => "none"
    case Daily => "daily"
    case Weekly => "weekly"
    case Biweekly => "biweekly"
    case Monthly => "monthly"
    case Yearly => "yearly"
  }
}
