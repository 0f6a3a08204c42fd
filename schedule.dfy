/** The annual schedule as a value: what the week loop of the synthesiser
    appends to each of the fifteen zone lists, stated as one lookup keyed by
    (selector, day of week, zone, metric), and the properties of the year it
    stitches together. */
module Schedule {
  import opened Patterns
  import opened Calendar
  import opened Blocks

  /** The two 24-value reference curves (occupancy and heating set point) that
      the building generator derives for one zone from its standard-use
      assumptions; the synthesiser copies them into normal days. */
  datatype ZoneReference = ZoneReference(persons: seq<real>, heating: seq<real>)

  /** One reference per thermal zone, for the five zones of the building. */
  type References = r: seq<ZoneReference> | |r| == 5
    witness [ZoneReference([], []), ZoneReference([], []), ZoneReference([], []),
             ZoneReference([], []), ZoneReference([], [])]

  /** A reference curve pair covers exactly one day. */
  predicate WellFormed(ref: ZoneReference)
  {
    |ref.persons| == HoursPerDay && |ref.heating| == HoursPerDay
  }

  predicate AllWellFormed(refs: References)
  {
    forall z: Zone :: WellFormed(refs[z])
  }

  /** The 24 values appended for day `day` (0-based; days 5 and 6 are the
      weekend) of a week with selector `sel`, for one zone and metric. */
  function DayChunk(sel: Selector, day: nat, z: Zone, m: Metric, ref: ZoneReference): seq<real>
  {
    var workday := day < WorkDays;
    var idle := sel == Holiday || (!workday && !OccupiedWeekend(sel));
    match m
    case Machines =>
      if idle then Flat(IdleLoad(z))
      else if workday then WeekdayMachines(SecondScenario(sel), z)
      else WeekendMachines(z)
    case Persons =>
      if idle then Flat(0.0) else ref.persons
    case Heating =>
      if sel == Holiday then Flat(SetbackTemperature)
      else if SecondScenario(sel) then Flat(ComfortTemperature)
      else if idle then Flat(SetbackTemperature)
      else ref.heating
  }

  /** The seven daily chunks of a week with selector `sel`, in day order. */
  function WeekChunks(sel: Selector, z: Zone, m: Metric, ref: ZoneReference): seq<seq<real>>
  {
    seq(DaysPerWeek, d requires 0 <= d < DaysPerWeek => DayChunk(sel, d, z, m, ref))
  }

  /** The values one pass of the week loop appends to one list. */
  function Week(sel: Selector, z: Zone, m: Metric, ref: ZoneReference): seq<real>
  {
    Concat(WeekChunks(sel, z, m, ref))
  }

  /** The 53 weekly blocks of a year under a supported regime, in week order. */
  function YearWeeks(holiday: seq<int>, scenario: int, weekend: int, z: Zone, m: Metric, ref: ZoneReference): seq<seq<real>>
    requires Supported(scenario, weekend)
  {
    seq(WeeksPerYear, x requires 0 <= x < WeeksPerYear => Week(Select(x, holiday, scenario, weekend), z, m, ref))
  }

  /** What the whole week loop appends to one list: the 53 weeks under a
      supported regime, and nothing when the loop quits. */
  function YearValues(holiday: seq<int>, scenario: int, weekend: int, z: Zone, m: Metric, ref: ZoneReference): seq<real>
  {
    if Supported(scenario, weekend) then Concat(YearWeeks(holiday, scenario, weekend, z, m, ref)) else []
  }

  /** The value of every hour of a holiday week. */
  function HolidayValue(z: Zone, m: Metric): real
  {
    match m
    case Machines => IdleLoad(z)
    case Persons => 0.0
    case Heating => SetbackTemperature
  }

  /** With reference curves of one day, every daily chunk has 24 values. */
  lemma DayChunkLength(sel: Selector, day: nat, z: Zone, m: Metric, ref: ZoneReference)
    requires WellFormed(ref)
    ensures |DayChunk(sel, day, z, m, ref)| == HoursPerDay
  {
  }

  /** In a holiday week every day, work day or weekend, is the flat holiday
      value of its zone and metric. */
  lemma HolidayDay(day: nat, z: Zone, m: Metric, ref: ZoneReference)
    ensures DayChunk(Holiday, day, z, m, ref) == Flat(HolidayValue(z, m))
  {
  }

  /** One pass of the week loop appends exactly 7 x 24 = 168 values to a list. */
  lemma WeekLength(sel: Selector, z: Zone, m: Metric, ref: ZoneReference)
    requires WellFormed(ref)
    ensures |Week(sel, z, m, ref)| == HoursPerWeek
  {
    var chunks := WeekChunks(sel, z, m, ref);
    assert forall d | 0 <= d < |chunks| :: |chunks[d]| == HoursPerDay;
    ConcatLength(chunks, HoursPerDay);
  }

  /** Value j of a week is hour j % 24 of day j / 24. */
  lemma WeekAt(sel: Selector, z: Zone, m: Metric, ref: ZoneReference, j: int)
    requires WellFormed(ref) && 0 <= j < HoursPerWeek
    ensures |Week(sel, z, m, ref)| == HoursPerWeek
    ensures Week(sel, z, m, ref)[j] == DayChunk(sel, j / HoursPerDay, z, m, ref)[j % HoursPerDay]
  {
    var chunks := WeekChunks(sel, z, m, ref);
    assert forall d | 0 <= d < |chunks| :: |chunks[d]| == HoursPerDay;
    WeekLength(sel, z, m, ref);
    ConcatAt(chunks, HoursPerDay, j / HoursPerDay, j % HoursPerDay);
  }

  /** A holiday week repeats one flat day seven times. */
  lemma HolidayWeek(z: Zone, m: Metric, ref: ZoneReference)
    ensures Week(Holiday, z, m, ref) == Repeat(DayChunk(Holiday, 0, z, m, ref), DaysPerWeek)
  {
    var w := WeekChunks(Holiday, z, m, ref);
    forall j | 0 <= j < |w| ensures w[j] == DayChunk(Holiday, 0, z, m, ref) {
    }
    ConcatConst(w, DayChunk(Holiday, 0, z, m, ref));
  }

  /** A week of any selector is five copies of its work-day chunk followed by
      two copies of its weekend-day chunk. */
  lemma NormalWeek(sel: Selector, z: Zone, m: Metric, ref: ZoneReference)
    ensures Week(sel, z, m, ref)
            == Repeat(DayChunk(sel, 0, z, m, ref), WorkDays) + Repeat(DayChunk(sel, WorkDays, z, m, ref), DaysPerWeek - WorkDays)
  {
    var w := WeekChunks(sel, z, m, ref);
    assert w[..WorkDays] + w[WorkDays..] == w;
    ConcatAppend(w[..WorkDays], w[WorkDays..]);
    forall j | 0 <= j < WorkDays ensures w[..WorkDays][j] == DayChunk(sel, 0, z, m, ref) {
    }
    ConcatConst(w[..WorkDays], DayChunk(sel, 0, z, m, ref));
    forall j | 0 <= j < DaysPerWeek - WorkDays ensures w[WorkDays..][j] == DayChunk(sel, WorkDays, z, m, ref) {
    }
    ConcatConst(w[WorkDays..], DayChunk(sel, WorkDays, z, m, ref));
  }

  /** The first x + 1 weeks are the first x weeks followed by week x. */
  lemma YearPrefixStep(holiday: seq<int>, scenario: int, weekend: int, z: Zone, m: Metric, ref: ZoneReference, x: nat)
    requires Supported(scenario, weekend) && x < WeeksPerYear
    ensures Concat(YearWeeks(holiday, scenario, weekend, z, m, ref)[..x + 1])
            == Concat(YearWeeks(holiday, scenario, weekend, z, m, ref)[..x]) + Week(Select(x, holiday, scenario, weekend), z, m, ref)
  {
    var blocks := YearWeeks(holiday, scenario, weekend, z, m, ref);
    assert blocks[..x + 1][..x] == blocks[..x];
  }

  lemma YearWeeksUniform(holiday: seq<int>, scenario: int, weekend: int, z: Zone, m: Metric, ref: ZoneReference)
    requires Supported(scenario, weekend) && WellFormed(ref)
    ensures var blocks := YearWeeks(holiday, scenario, weekend, z, m, ref);
            forall x :: 0 <= x < |blocks| ==> |blocks[x]| == HoursPerWeek
  {
    var blocks := YearWeeks(holiday, scenario, weekend, z, m, ref);
    forall x | 0 <= x < |blocks| ensures |blocks[x]| == HoursPerWeek {
      WeekLength(Select(x, holiday, scenario, weekend), z, m, ref);
    }
  }

  /** A full synthesis gives every list 53 x 168 = 8904 values. */
  lemma YearLength(holiday: seq<int>, scenario: int, weekend: int, z: Zone, m: Metric, ref: ZoneReference)
    requires Supported(scenario, weekend) && WellFormed(ref)
    ensures |YearValues(holiday, scenario, weekend, z, m, ref)| == HoursPerYear
  {
    YearWeeksUniform(holiday, scenario, weekend, z, m, ref);
    ConcatLength(YearWeeks(holiday, scenario, weekend, z, m, ref), HoursPerWeek);
  }

  /** Ordering: value i of a synthesised list is hour i % 24 of day
      (i % 168) / 24 of week i / 168, counted from week 0, day 0, hour 0. */
  lemma YearHour(holiday: seq<int>, scenario: int, weekend: int, z: Zone, m: Metric, ref: ZoneReference, i: int)
    requires Supported(scenario, weekend) && WellFormed(ref)
    requires 0 <= i < HoursPerYear
    ensures |YearValues(holiday, scenario, weekend, z, m, ref)| == HoursPerYear
    ensures YearValues(holiday, scenario, weekend, z, m, ref)[i]
            == DayChunk(Select(i / HoursPerWeek, holiday, scenario, weekend),
                        (i % HoursPerWeek) / HoursPerDay, z, m, ref)[i % HoursPerDay]
  {
    YearLength(holiday, scenario, weekend, z, m, ref);
    YearWeeksUniform(holiday, scenario, weekend, z, m, ref);
    ConcatAt(YearWeeks(holiday, scenario, weekend, z, m, ref), HoursPerWeek, i / HoursPerWeek, i % HoursPerWeek);
    var j := i % HoursPerWeek;
    WeekAt(Select(i / HoursPerWeek, holiday, scenario, weekend), z, m, ref, j);
    assert j % HoursPerDay == i % HoursPerDay;
  }

  /** Every hour of a holiday week is flat, whatever the supported regime:
      0.165 equipment load in zone 1 and none elsewhere, no occupants, and the
      288.15 K set-back temperature. */
  lemma HolidayHours(holiday: seq<int>, scenario: int, weekend: int, z: Zone, m: Metric, ref: ZoneReference, i: int)
    requires Supported(scenario, weekend) && WellFormed(ref)
    requires 0 <= i < HoursPerYear && i / HoursPerWeek in holiday
    ensures |YearValues(holiday, scenario, weekend, z, m, ref)| == HoursPerYear
    ensures YearValues(holiday, scenario, weekend, z, m, ref)[i] == HolidayValue(z, m)
  {
    YearHour(holiday, scenario, weekend, z, m, ref, i);
  }

  /** On the five work days of a normal week the occupancy is the zone's
      reference curve, the equipment load is the weekday table of the
      scenario, and the set point is the reference curve under scenario 1 and
      294.15 K under scenario 2. */
  lemma WorkdayHours(holiday: seq<int>, scenario: int, weekend: int, z: Zone, m: Metric, ref: ZoneReference, i: int)
    requires Supported(scenario, weekend) && WellFormed(ref)
    requires 0 <= i < HoursPerYear && i / HoursPerWeek !in holiday
    requires (i % HoursPerWeek) / HoursPerDay < WorkDays
    ensures |YearValues(holiday, scenario, weekend, z, m, ref)| == HoursPerYear
    ensures m == Machines ==>
              YearValues(holiday, scenario, weekend, z, m, ref)[i] == WeekdayMachines(scenario == 2, z)[i % HoursPerDay]
    ensures m == Persons ==> YearValues(holiday, scenario, weekend, z, m, ref)[i] == ref.persons[i % HoursPerDay]
    ensures m == Heating && scenario == 1 ==>
              YearValues(holiday, scenario, weekend, z, m, ref)[i] == ref.heating[i % HoursPerDay]
    ensures m == Heating && scenario == 2 ==>
              YearValues(holiday, scenario, weekend, z, m, ref)[i] == ComfortTemperature
  {
    YearHour(holiday, scenario, weekend, z, m, ref, i);
  }

  /** With weekend flag 0 the last two days of a normal week are flat: base
      load in zone 1 only, no occupants, and the set point 288.15 K under
      scenario 1 or 294.15 K under scenario 2. */
  lemma IdleWeekendHours(holiday: seq<int>, scenario: int, z: Zone, m: Metric, ref: ZoneReference, i: int)
    requires Supported(scenario, 0) && WellFormed(ref)
    requires 0 <= i < HoursPerYear && i / HoursPerWeek !in holiday
    requires (i % HoursPerWeek) / HoursPerDay >= WorkDays
    ensures |YearValues(holiday, scenario, 0, z, m, ref)| == HoursPerYear
    ensures m == Machines ==> YearValues(holiday, scenario, 0, z, m, ref)[i] == IdleLoad(z)
    ensures m == Persons ==> YearValues(holiday, scenario, 0, z, m, ref)[i] == 0.0
    ensures m == Heating ==>
              YearValues(holiday, scenario, 0, z, m, ref)[i]
              == if scenario == 1 then SetbackTemperature else ComfortTemperature
  {
    YearHour(holiday, scenario, 0, z, m, ref, i);
  }

  /** With weekend flag 1 the last two days of a normal week use the weekend
      equipment tables and the reference occupancy; the set point is the
      reference curve under scenario 1 and 294.15 K under scenario 2. */
  lemma OccupiedWeekendHours(holiday: seq<int>, scenario: int, z: Zone, m: Metric, ref: ZoneReference, i: int)
    requires Supported(scenario, 1) && WellFormed(ref)
    requires 0 <= i < HoursPerYear && i / HoursPerWeek !in holiday
    requires (i % HoursPerWeek) / HoursPerDay >= WorkDays
    ensures |YearValues(holiday, scenario, 1, z, m, ref)| == HoursPerYear
    ensures m == Machines ==> YearValues(holiday, scenario, 1, z, m, ref)[i] == WeekendMachines(z)[i % HoursPerDay]
    ensures m == Persons ==> YearValues(holiday, scenario, 1, z, m, ref)[i] == ref.persons[i % HoursPerDay]
    ensures m == Heating ==>
              YearValues(holiday, scenario, 1, z, m, ref)[i]
              == if scenario == 1 then ref.heating[i % HoursPerDay] else ComfortTemperature
  {
    YearHour(holiday, scenario, 1, z, m, ref, i);
  }
}
