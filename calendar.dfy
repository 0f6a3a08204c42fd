/** Calendar classifier: decides, for one week of the year, which weekly
    pattern the synthesiser appends, or that the run is stopped because the
    scenario/weekend regime is not one of the four supported ones. */
module Calendar {
  import opened Wrappers

  /** The pattern selected for one week: the flat holiday pattern, or one of
      the four (scenario, weekend) regimes of a normal week. */
  datatype Selector = Holiday | S1W0 | S1W1 | S2W0 | S2W1

  /** The regimes the synthesiser knows: scenario 1 or 2, weekend flag 0 or 1. */
  predicate Supported(scenario: int, weekend: int)
  {
    (scenario == 1 || scenario == 2) && (weekend == 0 || weekend == 1)
  }

  /** A normal week of scenario 2. */
  predicate SecondScenario(s: Selector)
  {
    s == S2W0 || s == S2W1
  }

  /** Weekend flag 1: the last two days of a normal week are occupied. */
  predicate OccupiedWeekend(s: Selector)
  {
    s == S1W1 || s == S2W1
  }

  /** Classification of week `week` (0-based, as the week loop counts it).
      None stands for the quit() of the source. */
  function Classify(week: int, holiday: seq<int>, scenario: int, weekend: int): (r: Option<Selector>)
    ensures r.None? <==> !Supported(scenario, weekend)
    ensures r == Some(Holiday) <==> week in holiday && Supported(scenario, weekend)
    ensures r.Some? && r.value != Holiday ==>
              week !in holiday &&
              (SecondScenario(r.value) <==> scenario == 2) &&
              (OccupiedWeekend(r.value) <==> weekend == 1)
  {
    if week in holiday then
      if (scenario == 1 && weekend == 0) || (scenario == 1 && weekend == 1) then Some(Holiday)
      else if (scenario == 2 && weekend == 0) || (scenario == 2 && weekend == 1) then Some(Holiday)
      else None
    else if scenario == 1 && weekend == 0 then Some(S1W0)
    else if scenario == 1 && weekend == 1 then Some(S1W1)
    else if scenario == 2 && weekend == 0 then Some(S2W0)
    else if scenario == 2 && weekend == 1 then Some(S2W1)
    else None
  }

  /** The selector of a week under a supported regime. */
  function Select(week: int, holiday: seq<int>, scenario: int, weekend: int): Selector
    requires Supported(scenario, weekend)
  {
    Classify(week, holiday, scenario, weekend).value
  }
}
