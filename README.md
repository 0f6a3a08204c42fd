# Residential holiday-schedule parameter sweep, modelled in Dafny

`Residential_urlaub_ebcpy_test.py` runs a parameter sweep over residential
buildings. Nine nested loops enumerate design variants:

- leased area and year of construction;
- number of floors and floor height;
- air-handling unit on/off;
- compact or elongated layout;
- internal-gains mode;
- heating on/off;
- standard or retrofit construction.

For each variant the script does the following:

1. It asks the building toolkit for a residential building.
2. It sets the equipment-load intensity of each of the five thermal zones to
   1000 / (share × leased area).
3. It builds a 53-week hourly schedule by extending fifteen module-level
   lists: equipment load (`zoneN_M`), occupancy (`zoneN_P`) and heating set
   point (`zoneN_H`) for zones 0–4. The schedule depends on the holiday weeks
   and on the (scenario, weekend) regime.
4. It assigns those lists to the building and simulates it.
5. With both construction types selected, it switches to the retrofit
   variant and calls the toolkit's retrofit.

The model keeps the script's imperative shape:

- `Synthesis.Accumulators` is a class holding the fifteen lists. Its
  methods extend them day by day and week by week, following the
  script's branches.
- `Sweep.Driver` is a class holding the axis variables the loops update:
  the ranged axes are stepped, the toggles flipped or counted, and the
  construction type reset and switched. It also holds the accumulators and
  the sequence of toolkit events produced so far.

Each method is proved against a value-level specification; the value
functions are the specification:

- `Schedule.YearValues` is what one synthesis appends to a list.
- `Variants.AllVariants` lists the variants in loop order. Each axis value
  is a pure function of its loop's pass index.
- `Variants.Script` and `Variants.After` give the events and the final
  lists of a run, and `Variants.Outcome` what a whole run ends with.

The properties are proved as lemmas over those functions.

Files (one module each):

| file | module | contents |
|---|---|---|
| `wrappers.dfy` | `Wrappers` | `Option` |
| `blocks.dfy` | `Blocks` | concatenation and repetition of blocks |
| `patterns.dfy` | `Patterns` | constants and the literal 24-hour tables |
| `calendar.dfy` | `Calendar` | week classification and the quit condition |
| `schedule.dfy` | `Schedule` | the annual schedule as a value, with its properties |
| `synthesis.dfy` | `Synthesis` | the fifteen lists and the week loop |
| `usage.dfy` | `Usage` | the usage-intensity formula |
| `dimensions.dfy` | `Dimensions` | loop counts |
| `variants.dfy` | `Variants` | configuration, variant order, outcome of each building, events |
| `sweep.dfy` | `Sweep` | the nested-loop driver |

## Where the behaviour follows the code rather than the design notes

- **Weeks are counted from 0.** `for x in range(53)` tests `x in holiday`,
  so `holiday = [4, 5, ...]` marks the fifth and sixth weeks of the loop.
- **Unsupported regimes stop inside the week loop.** A regime outside
  scenario {1, 2} × weekend {0, 1} hits `quit()` in week 0. The variant has
  already been requested from the toolkit, and nothing has been appended.
  This is `Failure.UnsupportedRegime`; it is not a validation before the
  sweep.
- **Inverted or empty ranges raise no error.** A ranged axis makes
  `int((max - min) / step) + 1` passes (Python `int` truncates toward zero)
  and `range` of a non-positive count makes none. For a positive step, an
  inverted range (max < min) therefore gives one pass or none
  (`Dimensions.InvertedRange`); with a negative step, max < min is an
  ordinary descending range. Only a
  zero step fails (ZeroDivisionError, `Failure.ZeroStep`).
- **The fifteen lists are never cleared.** They are created once, before
  the loops. The building of the n-th variant that runs through is handed
  lists of n × 8904 values (`Variants.NthBuilding`).
- **With both construction types, the innermost loop makes two passes.**
  Each pass requests a fresh building, with "tabula_standard" on the first
  pass and "tabula_retrofit" on the second. After every simulation the
  construction variable is set to "tabula_retrofit" and the toolkit's
  retrofit is called.
- **A zero leased area fails after the building has been requested.** The
  division by zero happens at the intensity assignment, after
  `add_residential` (`Failure.ZeroLeasedArea`).

## Model

| member | source | states |
|---|---|---|
| Patterns.WeekdayMachines | Residential_urlaub_ebcpy_test.py:330-334 | the weekday equipment-load table of each zone, for either scenario, has one value per hour (24) |
| Patterns.WeekendMachines | Residential_urlaub_ebcpy_test.py:379-383 | the occupied-weekend equipment-load table of each zone has 24 values |
| Calendar.Classify | Residential_urlaub_ebcpy_test.py:287-464 | the run quits exactly when the regime is not supported; a week gets the holiday pattern exactly when its 0-based index is in `holiday` under a supported regime; otherwise its pattern matches the scenario and the weekend flag |
| Schedule.DayChunk | Residential_urlaub_ebcpy_test.py:289-459 | specification function with no contract of its own: the chunk one day appends to one list, by selector, day, zone and metric; DayChunkLength and HolidayDay state its length and its holiday value |
| Schedule.DayChunkLength | Residential_urlaub_ebcpy_test.py:289-459 | with reference curves of 24 values, every daily chunk appended to a list has 24 values |
| Schedule.HolidayDay | Residential_urlaub_ebcpy_test.py:288-322 | in a holiday week every day's chunk, work day or weekend, is the flat holiday value of its zone and metric |
| Schedule.WeekLength | Residential_urlaub_ebcpy_test.py:286-459 | one pass of the week loop appends exactly 7 × 24 = 168 values to each list |
| Schedule.WeekAt | Residential_urlaub_ebcpy_test.py:328-360 | value j of a week's block is hour j mod 24 of day j div 24 |
| Schedule.HolidayWeek | Residential_urlaub_ebcpy_test.py:288-305 | a holiday week is the same flat day repeated seven times |
| Schedule.NormalWeek | Residential_urlaub_ebcpy_test.py:328-459 | a normal week is five copies of its work-day chunk followed by two copies of its weekend-day chunk |
| Schedule.YearValues | Residential_urlaub_ebcpy_test.py:286-464 | specification function with no contract of its own: the 53 weekly blocks, in week order, under a supported regime, and nothing when the loop quits; YearLength and the lemmas that follow state its properties |
| Schedule.YearLength | Residential_urlaub_ebcpy_test.py:286-459 | a full synthesis gives every list 53 × 168 = 8904 values |
| Schedule.YearHour | Residential_urlaub_ebcpy_test.py:286-459 | value i of the year is hour i mod 24 of day (i mod 168) div 24 of week i div 168, from week 0, day 0, hour 0 |
| Schedule.HolidayHours | Residential_urlaub_ebcpy_test.py:287-322 | every hour of a holiday week has 0.165 equipment load in zone 1 and 0 elsewhere, 0 occupancy, and a 288.15 K set point, under all four regimes |
| Schedule.WorkdayHours | Residential_urlaub_ebcpy_test.py:329-344 | on work days: occupancy copies the zone's reference curve; equipment load follows the scenario's weekday table; the set point copies the reference under scenario 1 and is 294.15 K under scenario 2 (the same holds at lines 362-377, 395-410 and 428-443) |
| Schedule.IdleWeekendHours | Residential_urlaub_ebcpy_test.py:345-360 | with weekend flag 0, days 6 and 7 are flat: base load in zone 1 only, no occupants, and 288.15 K under scenario 1 or 294.15 K under scenario 2 (also lines 411-426) |
| Schedule.OccupiedWeekendHours | Residential_urlaub_ebcpy_test.py:378-393 | with weekend flag 1, days 6 and 7 use the weekend equipment table and the reference occupancy; the set point is the reference under scenario 1 and 294.15 K under scenario 2 (also lines 444-459) |
| Synthesis.Extended | Residential_urlaub_ebcpy_test.py:286-464 | after one synthesis, every list is its old contents followed by that list's year of values |
| Synthesis.Accumulators.constructor | Residential_urlaub_ebcpy_test.py:216-230 | the fifteen lists start out empty |
| Synthesis.Accumulators.ExtendDay | Residential_urlaub_ebcpy_test.py:289-304 | one day's body extends each of the fifteen lists by its own chunk and changes nothing else |
| Synthesis.Accumulators.ExtendDays | Residential_urlaub_ebcpy_test.py:345-360 | a `for y in range(lo, hi)` loop extends every list by hi − lo copies of its chunk |
| Synthesis.Accumulators.ExtendWeek | Residential_urlaub_ebcpy_test.py:287-464 | one week quits exactly for an unsupported regime, leaving the lists unchanged; otherwise it appends that week's block to every list |
| Synthesis.Accumulators.ExtendHolidayWeek | Residential_urlaub_ebcpy_test.py:287-326 | the holiday branch appends the flat holiday week under scenarios 1 and 2 and quits otherwise |
| Synthesis.Accumulators.ExtendRegularWeek | Residential_urlaub_ebcpy_test.py:327-464 | the normal-week branch picks one of the four regime patterns and appends its week, or quits for any other regime |
| Synthesis.Accumulators.ExtendNormalWeek | Residential_urlaub_ebcpy_test.py:329-360 | five work days followed by two weekend days append five copies of the work-day chunks and then two copies of the weekend chunks |
| Synthesis.Accumulators.SynthesizeYear | Residential_urlaub_ebcpy_test.py:286-464 | the 53-week loop quits exactly for an unsupported regime, leaving the lists as they were; otherwise every list gains exactly its year of values |
| Usage.Intensities | Residential_urlaub_ebcpy_test.py:279-283 | zone z's intensity times (f_z × leased area) is 1000, with f = 0.25, 0.20, 0.15, 0.20, 0.20 |
| Usage.IntensityOrder | Residential_urlaub_ebcpy_test.py:279-283 | for a positive area, zone 2 gets the largest intensity, zone 0 the smallest, and zones 1, 3 and 4 share theirs |
| Usage.IntensityScaling | Residential_urlaub_ebcpy_test.py:279-283 | intensity is inversely proportional to leased area in every zone |
| Dimensions.Trunc | Residential_urlaub_ebcpy_test.py:232-233 | Python's `int()` on a float truncates toward zero |
| Dimensions.RangeCount | Residential_urlaub_ebcpy_test.py:232-233 | a ranged axis's count `int((max - min) / step) + 1` fails exactly for a zero step |
| Dimensions.Iterations | Residential_urlaub_ebcpy_test.py:237-262 | `range(n)` makes n passes for positive n and none otherwise |
| Dimensions.ToggleCount | Residential_urlaub_ebcpy_test.py:196-214 | an on/off axis makes 2 passes exactly when both options are set, 1 otherwise |
| Dimensions.GainsCount | Residential_urlaub_ebcpy_test.py:191-194 | the internal-gains axis makes 3 passes exactly when all modes are set, 1 otherwise |
| Dimensions.FixedAxis | Residential_urlaub_ebcpy_test.py:232-233 | a ranged axis with min = max makes exactly one pass, whatever the non-zero step |
| Dimensions.ForwardRange | Residential_urlaub_ebcpy_test.py:232-233 | for a positive step and min ≤ max, pass k happens exactly when min + k × step ≤ max |
| Dimensions.InvertedRange | Residential_urlaub_ebcpy_test.py:232-233 | for a positive step, an inverted range raises no error: it makes one pass when min is less than one step above max, and none otherwise |
| Variants.LoopCounts | Residential_urlaub_ebcpy_test.py:191-233 | the nine pass counts fail exactly when a step division fails; otherwise, outermost first, they are `range(area_help)`, `range(year_help)`, the floor and height range counts, the AHU and layout toggle counts, the gains count, and the heating and construction toggle counts |
| Variants.VariantAt | Residential_urlaub_ebcpy_test.py:236-262 | the variant built on passes p holds, on every axis, that axis's value on its pass |
| Variants.SettledVariant | Residential_urlaub_ebcpy_test.py:265-277 | a variant that agrees with passes p on all nine axes is the variant of p |
| Variants.Block | Residential_urlaub_ebcpy_test.py:236-262 | specification function with no contract of its own: the variants built inside the loops entered on passes p, in loop order, one for all nine passes fixed; BlockLength and BlockSettled state its size and its axes |
| Variants.SubBlocks | Residential_urlaub_ebcpy_test.py:236-262 | the loop entered on passes p has one block per pass of its count |
| Variants.AllVariants | Residential_urlaub_ebcpy_test.py:236-262 | the sweep builds, in loop order, the product of the nine loop counts of variants |
| Variants.BlockLength | Residential_urlaub_ebcpy_test.py:237-262 | the loops inside a given set of passes build as many variants as the product of the inner counts |
| Variants.BothConstDoubles | Residential_urlaub_ebcpy_test.py:211-214 | setting `both_const` doubles the number of variants |
| Variants.GainsAllTriples | Residential_urlaub_ebcpy_test.py:191-194 | setting `internal_gains_all` triples the number of variants |
| Variants.BlockSettled | Residential_urlaub_ebcpy_test.py:236-262 | every variant built inside given passes holds those passes' values on the outer axes |
| Variants.ConstructionPasses | Residential_urlaub_ebcpy_test.py:260-262 | with `both_const`, the innermost loop builds the same building twice, first "tabula_standard" and then "tabula_retrofit" |
| Variants.HeatingPasses | Residential_urlaub_ebcpy_test.py:506-507 | with `both_heating`, the first heating pass builds variants with the configured flag and the second with the opposite flag |
| Variants.FailureOf | Residential_urlaub_ebcpy_test.py:279-326 | a variant fails with a zero division exactly when its leased area is 0; otherwise it fails with the quit exactly when the regime is unsupported |
| Variants.Assemble | Residential_urlaub_ebcpy_test.py:279-482 | the simulated building carries its variant, the five intensities, the fifteen lists, and the heating flag on zones 0–3 only |
| Variants.Next | Residential_urlaub_ebcpy_test.py:264-482 | specification function with no contract of its own: the lists after one variant, extended by its year of values unless it failed before the week loop appended anything (Synthesis.Extended states the extension) |
| Variants.Steps | Residential_urlaub_ebcpy_test.py:264-504 | specification function with no contract of its own: a failing variant is only requested; any other is requested, simulated with the lists after its synthesis and, with `both_const`, retrofitted; ScriptCounts and RetrofitOrder state the order |
| Variants.Script | Residential_urlaub_ebcpy_test.py:236-504 | specification function with no contract of its own: the events of building variants in order, each from the lists the previous ones left |
| Variants.After | Residential_urlaub_ebcpy_test.py:216-482 | specification function with no contract of its own: the lists after building variants in order; AfterGrows states that they only grow |
| Variants.FaultFree | Residential_urlaub_ebcpy_test.py:236-524 | the run goes through all variants exactly when none of them fails, and then builds every one |
| Variants.StopsAtFirstFault | Residential_urlaub_ebcpy_test.py:236-524 | otherwise the run builds a prefix of the variants that ends with the first failing one, and stops with its failure |
| Variants.AfterGrows | Residential_urlaub_ebcpy_test.py:216-230 | the lists are never cleared: each one keeps its contents and grows by 8904 values per variant that runs through |
| Variants.NthBuilding | Residential_urlaub_ebcpy_test.py:466-480 | starting from the empty lists, the n-th building that runs through is handed lists of n × 8904 values |
| Variants.ScriptCounts | Residential_urlaub_ebcpy_test.py:484-504 | each variant that runs through is simulated once; with `both_const` there are as many retrofit calls as simulations, and without it there are none |
| Variants.RetrofitOrder | Residential_urlaub_ebcpy_test.py:484-504 | with `both_const`, every simulation is immediately followed by a retrofit call and every retrofit call immediately follows a simulation; without it no retrofit call is made |
| Variants.Outcome | Residential_urlaub_ebcpy_test.py:191-524 | specification function with no contract of its own: a zero step stops the run before any request; otherwise it ends with the first failure among the variants, if any, and the events of the variants processed up to it; FaultFree and StopsAtFirstFault state which those are |
| Sweep.Finished | Residential_urlaub_ebcpy_test.py:506-516 | a loop that does not reset its axis ends with that axis back at its first-pass value: a toggle swept both ways is flipped twice |
| Sweep.Driver.constructor | Residential_urlaub_ebcpy_test.py:150-230 | the toggles and choices start at their configured values, the lists start empty in freshly allocated accumulators, and nothing has been requested |
| Sweep.Driver.Run | Residential_urlaub_ebcpy_test.py:191-524 | the whole script ends with exactly the failure and the events of `Variants.Outcome`, and the lists end as `Variants.After` says |
| Sweep.RunSweep | Residential_urlaub_ebcpy_test.py:150-524 | setting up the driver and running it ends with exactly the failure and the events of `Variants.Outcome` |
| Sweep.Driver.Loop | Residential_urlaub_ebcpy_test.py:236-524 | a loop level requests the variants of its block in order and stops at the first failure in it; it restores the outer axes and the untouched toggles |
| Sweep.Driver.NextPass | Residential_urlaub_ebcpy_test.py:236-524 | after a loop's earlier passes ran through, pass k either runs through too, extending the loop's events and lists by its block, or stops the run with the failure of the loop's whole block |
| Sweep.Driver.Pass | Residential_urlaub_ebcpy_test.py:506-524 | one pass runs the loop inside it and then moves this loop's axis to its next-pass value |
| Sweep.Driver.BuildVariant | Residential_urlaub_ebcpy_test.py:264-504 | the innermost body requests the current variant, sets the intensities, synthesises the year into the lists, hands the building to the simulation and, with `both_const`, switches to retrofit; it stops exactly where `Variants.FailureOf` says |
| Sweep.Driver.Reset | Residential_urlaub_ebcpy_test.py:236-261 | a loop's prelude sets its axis to the first-pass value where the script does so (ranged axes always; layout, gains and construction only when all options are swept) |
| Sweep.Driver.Advance | Residential_urlaub_ebcpy_test.py:506-524 | the end of a pass steps the ranged axis by its step, flips a toggle swept both ways, and counts layout and gains up by one |

## Left out

- `main` (lines 28-148) is glue over foreign libraries and is not part of
  this model. It sets up a DymolaAPI instance but never simulates with it:
  it raises IndexError at line 98 (`construction_years[9]` on the nine-element
  list of line 85) and, past that, uses names it never defines
  (`building_model`, `years_of_construction`, `leased_areas`,
  `simulate_building`).
- The model treats the call to `main` at line 490 as a simulation that
  returns, the `Simulated` event. The script as written stops with that
  error at the first variant that gets past the synthesis, before any
  retrofit call. Variants.RetrofitOrder, Variants.ScriptCounts,
  Variants.AfterGrows and Variants.NthBuilding beyond one variant therefore
  describe the script with a working `main`.
- The toolkit calls are not modelled:
  - `add_residential` is the `Variants.Generator` parameter, which stands
    for the two 24-hour reference curves each zone's use conditions give.
  - `calc_all_buildings`, `export_aixlib`, the simulation and
    `retrofit_all_buildings` are the events `Simulated` and `Retrofitted`.
  - What those calls do to the building is not modelled.
- `prj.name` (line 264) is string building with no logic; it is not modelled.
- The export path, `print`, and the imports are I/O; they are not modelled.
- `quit()` is the failure `UnsupportedRegime`, not a process exit.
- The loop counts and settings that the script never defines at module
  level are fields of `Variants.Config`:
  - `min_leased_area`, `step_leased_area` and `area_help`;
  - `min_year_of_construction`, `step_year_of_construction` and `year_help`;
  - `scenario` and `weekend`.
- Floating-point arithmetic is modelled as exact reals. The rounding of
  `1000 / (f * area)`, of `(max - min) / step`, and of the repeated
  `+= step` on the float axes is not captured.
- The lists are modelled as values. The script assigns the same list
  objects to every building, so earlier buildings see later extensions;
  `Variants.Building` holds a snapshot instead.
- Variants.Assemble: does not model zone 4's heating flag, which the script
  leaves at whatever the toolkit set.
- A construction type other than "tabula_standard" and "tabula_retrofit"
  (line 179 allows any toolkit type name when `both_const` is off) is
  `Construction.OtherType`, identified by a code rather than by its name.
- `add_residential` (lines 265-277) is not given the heating flag; it is set
  on zones 0-3 only at lines 481-482. `Variants.Generator` is a function of
  the whole variant, so the model allows a toolkit answer that depends on
  the flag, which the script's toolkit cannot see.
- The with_ahu, layout and gains values are passed to the toolkit only
  through the Generator. Their effect on the building is not modelled.
