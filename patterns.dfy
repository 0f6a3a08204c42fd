/** Weekly pattern library: the hourly equipment-load tables and the flat
    values that the annual schedule is stitched from. Pure data. */
module Patterns {

  const ZoneCount: nat := 5
  const HoursPerDay: nat := 24
  const DaysPerWeek: nat := 7
  const WorkDays: nat := 5
  const WeeksPerYear: nat := 53
  const HoursPerWeek: nat := 168
  const HoursPerYear: nat := 8904

  /** Index of one of the five thermal zones of the generated building. */
  type Zone = z: int | 0 <= z < 5

  /** The three per-zone hourly profiles the sweep overwrites. */
  datatype Metric = Machines | Persons | Heating

  /** Heating set point of holiday weeks and of scenario-1 flat days (K). */
  const SetbackTemperature: real := 288.15
  /** Heating set point used throughout scenario 2 outside holidays (K). */
  const ComfortTemperature: real := 294.15
  /** Base equipment load of zone 1 (the zone that never drops to zero). */
  const BaseLoad: real := 0.165

  /** A day made of one value repeated for each of its 24 hours. */
  function Flat(v: real): (r: seq<real>)
    ensures |r| == HoursPerDay
  {
    seq(24, _ => v)
  }

  /** Equipment load of a flat (holiday or idle weekend) day: the base load in
      zone 1 and nothing elsewhere. */
  function IdleLoad(z: Zone): real
  {
    if z == 1 then BaseLoad else 0.0
  }

  /** The weekday equipment-load table. Scenario 1 and scenario 2 differ only
      in zone 1, where scenario 2 has a second peak at hour 13. */
  function WeekdayMachines(scenario2: bool, z: Zone): (r: seq<real>)
    ensures |r| == HoursPerDay
  {
    match z
    case 0 => [0.0, 0.0, 0.0, 0.0, 0.0, 0.0, 0.0, 0.06, 0.2376, 0.18, 0.18, 0.18, 0.18, 0.18, 0.18, 0.18, 0.18, 0.18, 0.18, 0.297, 0.297, 0.297, 0.2994, 0.0]
    case 1 =>
      if scenario2 then
        [0.165, 0.165, 0.165, 0.165, 0.165, 0.165, 0.165, 0.48, 0.165, 0.165, 0.165, 0.165, 0.165, 0.48, 0.165, 0.165, 0.165, 0.165, 0.165, 0.7004, 0.165, 0.165, 0.165, 0.165]
      else
        [0.165, 0.165, 0.165, 0.165, 0.165, 0.165, 0.165, 0.48, 0.165, 0.165, 0.165, 0.165, 0.165, 0.165, 0.165, 0.165, 0.165, 0.165, 0.165, 0.7004, 0.165, 0.165, 0.165, 0.165]
    case 2 => [0.0, 0.0, 0.0, 0.0, 0.0, 0.0, 0.0, 0.0, 0.005, 0.0, 0.005, 0.0, 0.0, 0.0, 0.0, 0.0, 0.0, 0.005, 0.0, 0.0, 0.0, 0.0, 0.03, 0.0]
    case 3 => [0.0, 0.0, 0.0, 0.0, 0.0, 0.0, 0.06, 0.0, 0.0, 0.0, 0.0, 0.0, 0.0, 0.0, 0.0, 0.0, 0.0, 0.0, 0.0, 0.0, 0.0, 0.0, 0.0, 0.06]
    case 4 => [0.0, 0.0, 0.0, 0.0, 0.0, 0.0, 0.06, 0.0, 0.0, 0.0, 0.0, 0.0, 0.0, 0.0, 0.0, 0.15, 0.15, 0.15, 0.15, 0.0, 0.0, 0.0, 0.06, 0.0]
  }

  /** The equipment-load table of an occupied weekend day (weekend flag 1),
      the same under both scenarios. */
  function WeekendMachines(z: Zone): (r: seq<real>)
    ensures |r| == HoursPerDay
  {
    match z
    case 0 => [0.0, 0.0, 0.0, 0.0, 0.0, 0.0, 0.0, 0.06, 0.255, 0.255, 0.255, 0.255, 0.255, 0.255, 0.255, 0.255, 0.255, 0.255, 0.255, 0.255, 0.0, 0.0, 0.255, 0.255]
    case 1 => [0.165, 0.165, 0.165, 0.165, 0.165, 0.165, 0.165, 0.48, 0.165, 0.165, 0.165, 0.165, 0.165, 0.48, 0.165, 0.165, 0.165, 0.165, 0.165, 0.7004, 0.165, 0.165, 0.165, 0.165]
    case 2 => [0.0, 0.0, 0.0, 0.0, 0.0, 0.0, 0.03, 0.0, 0.005, 0.0, 0.005, 0.0, 0.0, 0.0, 0.0, 0.0, 0.0, 0.005, 0.0, 0.0, 0.0, 0.0, 0.03, 0.0]
    case 3 => [0.0, 0.0, 0.0, 0.0, 0.0, 0.0, 0.06, 0.0, 0.0, 0.0, 0.0, 0.0, 0.0, 0.0, 0.0, 0.0, 0.0, 0.0, 0.0, 0.0, 0.0, 0.0, 0.0, 0.06]
    case 4 => [0.0, 0.0, 0.0, 0.0, 0.0, 0.0, 0.06, 0.0, 0.0, 0.0, 0.0, 0.0, 0.0, 0.0, 0.0, 0.15, 0.15, 0.15, 0.15, 0.0, 0.0, 0.0, 0.06, 0.0]
  }
}
