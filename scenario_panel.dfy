/** The scenario comparison panel: the list of scenarios the user edits, each edit
    building a new list (append, filter by `Id`, map-update by `Id`), the colour
    palette, the five-scenario cap and the multiplier slider values. */
module ScenarioPanel {
  import opened Wrappers
  import opened Model
  import opened Text
  import opened Lists

  /** The six colours new scenarios cycle through. */
  const Palette: seq<string> := ["#0891b2", "#059669", "#dc2626", "#7c3aed", "#ea580c", "#0d9488"]

  /** `getScenarioColor`: the palette entry at `index` modulo the palette's length. */
  function ScenarioColor(index: nat): (c: string)
    ensures c == Palette[index % 6]
    ensures c in Palette
  {
    Palette[index % |Palette|]
  }

  /** The colours repeat every six scenarios. */
  lemma ColorsCycle(index: nat)
    ensures ScenarioColor(index + 6) == ScenarioColor(index)
    ensures index < 6 ==> forall j | 0 <= j < 6 && j != index :: ScenarioColor(j) != ScenarioColor(index)
  {
  }

  /** The scenario the panel starts with: the unscaled forecast. */
  const DefaultScenario: Scenario := Scenario(1, "Current Forecast", 1.0, 1.0, "#0891b2", true)

  function InitialScenarios(): (r: seq<Scenario>)
    ensures |r| == 1 && r[0].isDefault && r[0].Id == 1
    ensures r[0].incomeMultiplier == 1.0 && r[0].expenseMultiplier == 1.0
    ensures r[0].color == ScenarioColor(0)
  {
    [DefaultScenario]
  }

  /** The scenario `addScenario` appends: named after the current length, unscaled, not
      the default, coloured by its position. `newId` stands for `Date.now()`. */
  function NewScenario(scenarios: seq<Scenario>, newId: int): Scenario {
    Scenario(newId, "Scenario " + NatToString(|scenarios|), 1.0, 1.0, ScenarioColor(|scenarios|), false)
  }

  /** `addScenario`: the list with one new scenario at the end. */
  function AddScenario(scenarios: seq<Scenario>, newId: int): (r: seq<Scenario>)
    ensures |r| == |scenarios| + 1 && r[..|scenarios|] == scenarios
    ensures r[|scenarios|].Id == newId && !r[|scenarios|].isDefault
    ensures r[|scenarios|].incomeMultiplier == 1.0 && r[|scenarios|].expenseMultiplier == 1.0
    ensures r[|scenarios|].color == Palette[|scenarios| % 6]
  {
    scenarios + [NewScenario(scenarios, newId)]
  }

  /** The number in a new scenario's name reads back as the length of the list it was
      added to. */
  lemma NewScenarioNameCounts(scenarios: seq<Scenario>, newId: int)
    ensures var name := AddScenario(scenarios, newId)[|scenarios|].name;
      |name| > 9 && name[..9] == "Scenario " && ParseFloat(name[9..]) == Some(|scenarios| as real)
  {
    var name := "Scenario " + NatToString(|scenarios|);
    assert name[9..] == NatToString(|scenarios|);
    ParseFloatNat(|scenarios|);
  }

  /** The add button is enabled below five scenarios. */
  predicate CanAdd(scenarios: seq<Scenario>) {
    |scenarios| < 5
  }

  /** Only scenarios that are not the default offer a remove button. */
  predicate ShowsRemove(s: Scenario) {
    !s.isDefault
  }

  /** Adding through the button never takes the list past five scenarios, and the
      default scenario stays first and cannot be removed from the screen. */
  lemma AddingIsCapped(scenarios: seq<Scenario>, newId: int)
    requires CanAdd(scenarios)
    ensures |AddScenario(scenarios, newId)| <= 5
    ensures |scenarios| > 0 ==> AddScenario(scenarios, newId)[0] == scenarios[0]
    ensures !ShowsRemove(InitialScenarios()[0])
  {
  }

  /** `removeScenario`: every scenario with `id` is dropped, the others stay in order. */
  function RemoveScenario(scenarios: seq<Scenario>, id: int): (r: seq<Scenario>)
    ensures forall s | s in r :: s.Id != id && s in scenarios
    ensures forall s | s in scenarios && s.Id != id :: s in r
  {
    Filter(scenarios, (s: Scenario) => s.Id != id)
  }

  /** Removing from a concatenation removes from each part, so the order of the kept
      scenarios is the original one; removing an absent `Id` changes nothing, and
      removing twice is removing once. */
  lemma RemoveProperties(a: seq<Scenario>, b: seq<Scenario>, id: int)
    ensures RemoveScenario(a + b, id) == RemoveScenario(a, id) + RemoveScenario(b, id)
    ensures (forall i | 0 <= i < |a| :: a[i].Id != id) ==> RemoveScenario(a, id) == a
    ensures RemoveScenario(RemoveScenario(a, id), id) == RemoveScenario(a, id)
  {
    var keep := (s: Scenario) => s.Id != id;
    FilterConcat(a, b, keep);
    if forall i | 0 <= i < |a| :: a[i].Id != id {
      FilterKeepsAll(a, keep);
    }
    FilterIdempotent(a, keep);
  }

  /** The fields the panel edits, each with its new value: the name input and the two
      multiplier sliders. */
  datatype Edit = SetName(name: string) | SetIncome(income: real) | SetExpense(expense: real)

  /** `{ ...scenario, [field]: value }`. */
  function ApplyEdit(s: Scenario, e: Edit): (r: Scenario)
    ensures r.Id == s.Id && r.color == s.color && r.isDefault == s.isDefault
    ensures r.name == (if e.SetName? then e.name else s.name)
    ensures r.incomeMultiplier == (if e.SetIncome? then e.income else s.incomeMultiplier)
    ensures r.expenseMultiplier == (if e.SetExpense? then e.expense else s.expenseMultiplier)
  {
    match e
    case SetName(name) => s.(name := name)
    case SetIncome(income) => s.(incomeMultiplier := income)
    case SetExpense(expense) => s.(expenseMultiplier := expense)
  }

  /** `updateScenario`: the edit applied to every scenario with `id`, the rest untouched. */
  function UpdateScenario(scenarios: seq<Scenario>, id: int, e: Edit): (r: seq<Scenario>)
    ensures |r| == |scenarios|
    ensures forall i | 0 <= i < |r| :: r[i] == (if scenarios[i].Id == id then ApplyEdit(scenarios[i], e) else scenarios[i])
  {
    seq(|scenarios|, i requires 0 <= i < |scenarios| =>
      if scenarios[i].Id == id then ApplyEdit(scenarios[i], e) else scenarios[i])
  }

  /** An update keeps every `Id`, colour and default flag in place, so the chart keys and
      the remove buttons are unaffected; an update of an absent `Id` changes nothing, and
      removing the updated `Id` afterwards discards the edit. */
  lemma UpdateProperties(scenarios: seq<Scenario>, id: int, e: Edit)
    ensures var r := UpdateScenario(scenarios, id, e);
      forall i | 0 <= i < |r| :: r[i].Id == scenarios[i].Id && r[i].color == scenarios[i].color
        && r[i].isDefault == scenarios[i].isDefault
    ensures (forall i | 0 <= i < |scenarios| :: scenarios[i].Id != id) ==> UpdateScenario(scenarios, id, e) == scenarios
    ensures RemoveScenario(UpdateScenario(scenarios, id, e), id) == RemoveScenario(scenarios, id)
  {
    UpdateThenRemove(scenarios, id, e);
  }

  lemma {:induction false} UpdateThenRemove(scenarios: seq<Scenario>, id: int, e: Edit)
    ensures RemoveScenario(UpdateScenario(scenarios, id, e), id) == RemoveScenario(scenarios, id)
    decreases |scenarios|
  {
    if |scenarios| > 0 {
      var keep := (s: Scenario) => s.Id != id;
      var u := UpdateScenario(scenarios, id, e);
      assert u == u[..1] + u[1..];
      assert scenarios == scenarios[..1] + scenarios[1..];
      assert u[1..] == UpdateScenario(scenarios[1..], id, e);
      FilterConcat(u[..1], u[1..], keep);
      FilterConcat(scenarios[..1], scenarios[1..], keep);
      UpdateThenRemove(scenarios[1..], id, e);
    }
  }

  /** The `k`-th position of a multiplier slider: `min` 0.5 plus `k` steps of 0.1. */
  function SliderStep(k: nat): real {
    0.5 + k as real / 10.0
  }

  /** The values the multiplier sliders produce: 0.5 to 2.0 in steps of 0.1. */
  predicate SliderValue(x: real) {
    exists k: nat | k <= 15 :: x == SliderStep(k)
  }

  /** Slider values lie between 0.5 and 2.0; in particular every multiplier set with a
      slider is positive. */
  lemma SliderRange(x: real)
    requires SliderValue(x)
    ensures 0.5 <= x <= 2.0
  {
    var k: nat :| k <= 15 && x == SliderStep(k);
  }

  /** Both ends and the neutral multiplier 1.0 are slider positions. */
  lemma SliderEndsAndNeutral()
    ensures SliderValue(0.5) && SliderValue(1.0) && SliderValue(2.0)
  {
    assert SliderStep(0) == 0.5 && SliderStep(5) == 1.0 && SliderStep(15) == 2.0;
  }
}
