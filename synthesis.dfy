/** Annual schedule synthesiser: the fifteen accumulator lists and the week
    loop that extends them. The loop follows the source branch by branch and
    is proved to append exactly Schedule.YearValues to every list. */
module Synthesis {
  import opened Patterns
  import opened Calendar
  import opened Schedule
  import opened Blocks

  /** The day chunks of all five zones, built zone by zone. */
  function PerZone(f: Zone -> seq<real>): (r: seq<seq<real>>)
    ensures |r| == ZoneCount
    ensures forall z: Zone :: r[z] == f(z)
  {
    seq(ZoneCount, z requires 0 <= z < ZoneCount => f(z))
  }

  /** The entry for zone z and metric m of three per-zone tables grouped by
      metric. */
  function Pick(ms: seq<seq<real>>, ps: seq<seq<real>>, hs: seq<seq<real>>, z: Zone, m: Metric): seq<real>
    requires |ms| == ZoneCount && |ps| == ZoneCount && |hs| == ZoneCount
  {
    match m
    case Machines => ms[z]
    case Persons => ps[z]
    case Heating => hs[z]
  }

  /** The fifteen lists as a value, grouped by metric and indexed by zone. */
  datatype Profiles = Profiles(machines: seq<seq<real>>, persons: seq<seq<real>>, heating: seq<seq<real>>)

  /** Profiles with one list per zone for each metric. */
  type Lists = l: Profiles | |l.machines| == ZoneCount && |l.persons| == ZoneCount && |l.heating| == ZoneCount
    witness Profiles([[], [], [], [], []], [[], [], [], [], []], [[], [], [], [], []])

  /** The fifteen empty lists the script starts from. */
  const NoLists: Lists := Profiles([[], [], [], [], []], [[], [], [], [], []], [[], [], [], [], []])

  /** The list of zone z for metric m. */
  function Get(l: Lists, z: Zone, m: Metric): seq<real>
  {
    Pick(l.machines, l.persons, l.heating, z, m)
  }

  /** Lists that agree on every zone and metric are the same lists. */
  lemma ListsEqual(a: Lists, b: Lists)
    requires forall z: Zone, m: Metric :: Get(a, z, m) == Get(b, z, m)
    ensures a == b
  {
    forall z: Zone ensures a.machines[z] == b.machines[z] && a.persons[z] == b.persons[z] && a.heating[z] == b.heating[z] {
      assert Get(a, z, Machines) == Get(b, z, Machines);
      assert Get(a, z, Persons) == Get(b, z, Persons);
      assert Get(a, z, Heating) == Get(b, z, Heating);
    }
  }

  /** The lists after one full synthesis for the given regime and reference
      curves. */
  function Extended(l: Lists, holiday: seq<int>, scenario: int, weekend: int, refs: References): (r: Lists)
    ensures forall z: Zone, m: Metric ::
              Get(r, z, m) == Get(l, z, m) + YearValues(holiday, scenario, weekend, z, m, refs[z])
  {
    Profiles(Grown(l.machines, Machines, holiday, scenario, weekend, refs),
             Grown(l.persons, Persons, holiday, scenario, weekend, refs),
             Grown(l.heating, Heating, holiday, scenario, weekend, refs))
  }

  /** The five lists of one metric, each followed by its year of values. */
  function Grown(ls: seq<seq<real>>, m: Metric, holiday: seq<int>, scenario: int, weekend: int, refs: References): (r: seq<seq<real>>)
    requires |ls| == ZoneCount
    ensures |r| == ZoneCount
    ensures forall z: Zone :: r[z] == ls[z] + YearValues(holiday, scenario, weekend, z, m, refs[z])
  {
    seq(ZoneCount, z requires 0 <= z < ZoneCount => ls[z] + YearValues(holiday, scenario, weekend, z, m, refs[z]))
  }

  /** The accumulator lists zone0_M .. zone4_M, zone0_P .. zone4_P and
      zone0_H .. zone4_H, grouped by metric and indexed by zone. They are
      only ever extended. */
  class Accumulators {
    var machines: seq<seq<real>>
    var persons: seq<seq<real>>
    var heating: seq<seq<real>>

    ghost predicate Valid()
      reads this
    {
      |machines| == ZoneCount && |persons| == ZoneCount && |heating| == ZoneCount
    }

    /** The current contents of the fifteen lists. */
    function Snapshot(): Lists
      reads this
      requires Valid()
    {
      Profiles(machines, persons, heating)
    }

    /** The list of zone z for metric m. */
    function List(z: Zone, m: Metric): seq<real>
      reads this
      requires Valid()
    {
      Get(Snapshot(), z, m)
    }

    /** The fifteen lists start out empty. */
    constructor ()
      ensures Valid() && Snapshot() == NoLists
    {
      machines := [[], [], [], [], []];
      persons := [[], [], [], [], []];
      heating := [[], [], [], [], []];
    }

    /** The body of one day: every list is extended by its own chunk. */
    method ExtendDay(ms: seq<seq<real>>, ps: seq<seq<real>>, hs: seq<seq<real>>)
      requires Valid()
      requires |ms| == ZoneCount && |ps| == ZoneCount && |hs| == ZoneCount
      modifies this
      ensures Valid()
      ensures forall z: Zone, m: Metric :: List(z, m) == old(List(z, m)) + Pick(ms, ps, hs, z, m)
    {
      var m, p, h := machines, persons, heating;
      machines := seq(ZoneCount, z requires 0 <= z < ZoneCount => m[z] + ms[z]);
      persons := seq(ZoneCount, z requires 0 <= z < ZoneCount => p[z] + ps[z]);
      heating := seq(ZoneCount, z requires 0 <= z < ZoneCount => h[z] + hs[z]);
    }

    /** Days lo .. hi-1 of a week, each extending every list by its chunk. */
    method ExtendDays(lo: nat, hi: nat, ms: seq<seq<real>>, ps: seq<seq<real>>, hs: seq<seq<real>>)
      requires Valid() && lo <= hi
      requires |ms| == ZoneCount && |ps| == ZoneCount && |hs| == ZoneCount
      modifies this
      ensures Valid()
      ensures forall z: Zone, m: Metric :: List(z, m) == old(List(z, m)) + Repeat(Pick(ms, ps, hs, z, m), hi - lo)
    {
      for y := lo to hi
        invariant Valid()
        invariant forall z: Zone, m: Metric :: List(z, m) == old(List(z, m)) + Repeat(Pick(ms, ps, hs, z, m), y - lo)
      {
        ExtendDay(ms, ps, hs);
      }
    }

    /** One pass of the week loop, week x (0-based): a holiday week or a
        regular one. An unsupported regime quits before anything is appended. */
    method ExtendWeek(x: nat, holiday: seq<int>, scenario: int, weekend: int, refs: References) returns (quit: bool)
      requires Valid()
      modifies this
      ensures Valid()
      ensures quit <==> !Supported(scenario, weekend)
      ensures quit ==> forall z: Zone, m: Metric :: List(z, m) == old(List(z, m))
      ensures !quit ==> forall z: Zone, m: Metric ::
                List(z, m) == old(List(z, m)) + Week(Select(x, holiday, scenario, weekend), z, m, refs[z])
    {
      if x in holiday {
        quit := ExtendHolidayWeek(scenario, weekend, refs);
      } else {
        quit := ExtendRegularWeek(x, holiday, scenario, weekend, refs);
      }
    }

    /** A holiday week: seven flat days under either scenario. */
    method ExtendHolidayWeek(scenario: int, weekend: int, refs: References) returns (quit: bool)
      requires Valid()
      modifies this
      ensures Valid()
      ensures quit <==> !Supported(scenario, weekend)
      ensures quit ==> forall z: Zone, m: Metric :: List(z, m) == old(List(z, m))
      ensures !quit ==> forall z: Zone, m: Metric :: List(z, m) == old(List(z, m)) + Week(Holiday, z, m, refs[z])
    {
      var idle := PerZone((z: Zone) => Flat(IdleLoad(z)));
      var nobody := PerZone((_: Zone) => Flat(0.0));
      var setback := PerZone((_: Zone) => Flat(SetbackTemperature));
      quit := false;
      if (scenario == 1 && weekend == 0) || (scenario == 1 && weekend == 1) {
        ExtendDays(0, 7, idle, nobody, setback);
      } else if (scenario == 2 && weekend == 0) || (scenario == 2 && weekend == 1) {
        ExtendDays(0, 7, idle, nobody, setback);
      } else {
        quit := true;
        return;
      }
      forall z: Zone, m: Metric ensures List(z, m) == old(List(z, m)) + Week(Holiday, z, m, refs[z]) {
        HolidayWeek(z, m, refs[z]);
      }
    }

    /** A week outside the holidays: five work days and two weekend days from
        the tables of the scenario and weekend flag. */
    method ExtendRegularWeek(x: nat, holiday: seq<int>, scenario: int, weekend: int, refs: References) returns (quit: bool)
      requires Valid() && x !in holiday
      modifies this
      ensures Valid()
      ensures quit <==> !Supported(scenario, weekend)
      ensures quit ==> forall z: Zone, m: Metric :: List(z, m) == old(List(z, m))
      ensures !quit ==> forall z: Zone, m: Metric ::
                List(z, m) == old(List(z, m)) + Week(Select(x, holiday, scenario, weekend), z, m, refs[z])
    {
      var idle := PerZone((z: Zone) => Flat(IdleLoad(z)));
      var nobody := PerZone((_: Zone) => Flat(0.0));
      var setback := PerZone((_: Zone) => Flat(SetbackTemperature));
      var comfort := PerZone((_: Zone) => Flat(ComfortTemperature));
      var occupancy := PerZone((z: Zone) => refs[z].persons);
      var setpoints := PerZone((z: Zone) => refs[z].heating);
      var weekday1 := PerZone((z: Zone) => WeekdayMachines(false, z));
      var weekday2 := PerZone((z: Zone) => WeekdayMachines(true, z));
      var weekendLoad := PerZone(WeekendMachines);
      quit := false;
      if scenario == 1 && weekend == 0 {
        ExtendNormalWeek(weekday1, occupancy, setpoints, idle, nobody, setback);
      } else if scenario == 1 && weekend == 1 {
        ExtendNormalWeek(weekday1, occupancy, setpoints, weekendLoad, occupancy, setpoints);
      } else if scenario == 2 && weekend == 0 {
        ExtendNormalWeek(weekday2, occupancy, comfort, idle, nobody, comfort);
      } else if scenario == 2 && weekend == 1 {
        ExtendNormalWeek(weekday2, occupancy, comfort, weekendLoad, occupancy, comfort);
      } else {
        quit := true;
        return;
      }
      forall z: Zone, m: Metric
        ensures List(z, m) == old(List(z, m)) + Week(Select(x, holiday, scenario, weekend), z, m, refs[z])
      {
        NormalWeek(Select(x, holiday, scenario, weekend), z, m, refs[z]);
      }
    }

    /** A normal week: days 0 .. 4 from the first three tables, days 5 and
        6 from the other three. */
    method ExtendNormalWeek(wms: seq<seq<real>>, wps: seq<seq<real>>, whs: seq<seq<real>>,
                            ems: seq<seq<real>>, eps: seq<seq<real>>, ehs: seq<seq<real>>)
      requires Valid()
      requires |wms| == ZoneCount && |wps| == ZoneCount && |whs| == ZoneCount
      requires |ems| == ZoneCount && |eps| == ZoneCount && |ehs| == ZoneCount
      modifies this
      ensures Valid()
      ensures forall z: Zone, m: Metric ::
                List(z, m) == old(List(z, m)) + (Repeat(Pick(wms, wps, whs, z, m), WorkDays)
                                                 + Repeat(Pick(ems, eps, ehs, z, m), DaysPerWeek - WorkDays))
    {
      ExtendDays(0, 5, wms, wps, whs);
      ExtendDays(5, 7, ems, eps, ehs);
    }

    /** The week loop (53 weeks, 0-based). Under a supported regime every list
        grows by the year's values; otherwise the loop quits in week 0 before
        anything is appended. */
    method SynthesizeYear(holiday: seq<int>, scenario: int, weekend: int, refs: References) returns (quit: bool)
      requires Valid()
      modifies this
      ensures Valid()
      ensures quit <==> !Supported(scenario, weekend)
      ensures quit ==> Snapshot() == old(Snapshot())
      ensures Snapshot() == Extended(old(Snapshot()), holiday, scenario, weekend, refs)
    {
      quit := false;
      for x := 0 to WeeksPerYear
        invariant Valid() && !quit
        invariant x > 0 ==> Supported(scenario, weekend)
        invariant Supported(scenario, weekend) ==>
                    forall z: Zone, m: Metric ::
                      List(z, m) == old(List(z, m)) + Concat(YearWeeks(holiday, scenario, weekend, z, m, refs[z])[..x])
        invariant !Supported(scenario, weekend) ==> forall z: Zone, m: Metric :: List(z, m) == old(List(z, m))
      {
        quit := ExtendWeek(x, holiday, scenario, weekend, refs);
        if quit {
          forall z: Zone, m: Metric
            ensures Get(Snapshot(), z, m) == Get(Extended(old(Snapshot()), holiday, scenario, weekend, refs), z, m)
          {
            assert YearValues(holiday, scenario, weekend, z, m, refs[z]) == [];
            assert List(z, m) == old(List(z, m));
          }
          ListsEqual(Snapshot(), Extended(old(Snapshot()), holiday, scenario, weekend, refs));
          ListsEqual(Snapshot(), old(Snapshot()));
          return;
        }
        forall z: Zone, m: Metric
          ensures List(z, m) == old(List(z, m)) + Concat(YearWeeks(holiday, scenario, weekend, z, m, refs[z])[..x + 1])
        {
          YearPrefixStep(holiday, scenario, weekend, z, m, refs[z], x);
        }
      }
      forall z: Zone, m: Metric
        ensures List(z, m) == old(List(z, m)) + YearValues(holiday, scenario, weekend, z, m, refs[z])
      {
        var blocks := YearWeeks(holiday, scenario, weekend, z, m, refs[z]);
        assert blocks[..WeeksPerYear] == blocks;
      }
      ListsEqual(Snapshot(), Extended(old(Snapshot()), holiday, scenario, weekend, refs));
    }
  }
}
