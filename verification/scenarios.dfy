/** The climate scenarios that scale the projected global rise. */
module Scenarios {
  import opened Wrappers

  datatype Scenario = Optimistic | Moderate | Pessimistic {

    function Name(): string {
      match this
      case Optimistic => "optimistic"
      case Moderate => "moderate"
      case Pessimistic => "pessimistic"
    }

    function Multiplier(): real {
      match this
      case Optimistic => 0.85
      case Moderate => 1.0
      case Pessimistic => 1.35
    }
  }

  /** The scenario a request string names, if any. */
  function ParseScenario(name: string): (r: Option<Scenario>)
    ensures r.Some? ==> r.value.Name() == name
    ensures forall sc: Scenario :: sc.Name() == name ==> r == Some(sc)
  {
    if name == "optimistic" then Some(Optimistic)
    else if name == "moderate" then Some(Moderate)
    else if name == "pessimistic" then Some(Pessimistic)
    else None
  }

  /** `scenario_mult.get(scenario, 1.0)`: unknown names fall back to 1.0 without failing. */
  function ScenarioMultiplier(name: string): (m: real)
    ensures m == 0.85 <==> name == "optimistic"
    ensures m == 1.35 <==> name == "pessimistic"
    ensures m == 1.0 <==> name != "optimistic" && name != "pessimistic"
  {
    match ParseScenario(name)
    case Some(sc) => sc.Multiplier()
    case None => 1.0
  }
}
