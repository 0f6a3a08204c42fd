/** The design variants of the sweep as values: the configuration, the value
    of every axis on every pass of its loop, the variants in loop order, and
    the events and accumulated lists the sweep produces for them. */
module Variants {
  import opened Wrappers
  import opened Patterns
  import opened Calendar
  import opened Schedule
  import opened Blocks
  import opened Dimensions
  import opened Usage
  import opened Synthesis

  /** The toolkit's construction type: the two the sweep switches between,
      or any other type, identified by a code, configured for a run without
      both types. */
  datatype Construction = TabulaStandard | TabulaRetrofit | OtherType(code: int)

  /** The settings at the top of the sweep: bounds and steps of the ranged
      axes, the toggles with their starting values, the regime and the
      holiday weeks. The leased-area and construction-year axes are given by
      their start, step and pass count, as the script uses them. */
  datatype Config = Config(
    minArea: real, stepArea: real, areaPasses: int,
    minYear: int, stepYear: int, yearPasses: int,
    minFloors: int, maxFloors: int, stepFloors: int,
    minHeight: real, maxHeight: real, stepHeight: real,
    bothAhu: bool, withAhu: bool,
    bothLayout: bool, layout: int,
    gainsAll: bool, gains: int,
    bothHeating: bool, withHeating: bool,
    bothConst: bool, construction: Construction,
    holiday: seq<int>, scenario: int, weekend: int)

  /** The parameters one building is requested with. */
  datatype Variant = Variant(
    area: real, year: int, floors: int, height: real, withAhu: bool,
    layout: int, gains: int, withHeating: bool, construction: Construction)

  /** The number of nested loops. */
  const Levels: nat := 9

  /** Both step divisions of the loop-count helpers succeed. */
  predicate Steppable(c: Config)
  {
    c.stepHeight != 0.0 && c.stepFloors != 0
  }

  /** The pass counts of the nine loops, outermost first; None when a
      division by a zero step fails before the sweep starts. */
  function LoopCounts(c: Config): (r: Option<seq<nat>>)
    ensures r.None? <==> !Steppable(c)
    ensures r.Some? ==>
              |r.value| == Levels &&
              r.value[0] == Iterations(c.areaPasses) && r.value[1] == Iterations(c.yearPasses) &&
              r.value[2] == Iterations(RangeCount(c.minFloors as real, c.maxFloors as real, c.stepFloors as real).value) &&
              r.value[3] == Iterations(RangeCount(c.minHeight, c.maxHeight, c.stepHeight).value) &&
              r.value[4] == ToggleCount(c.bothAhu) && r.value[5] == ToggleCount(c.bothLayout) &&
              r.value[6] == GainsCount(c.gainsAll) && r.value[7] == ToggleCount(c.bothHeating) &&
              r.value[8] == ToggleCount(c.bothConst)
  {
    var height := RangeCount(c.minHeight, c.maxHeight, c.stepHeight);
    var floors := RangeCount(c.minFloors as real, c.maxFloors as real, c.stepFloors as real);
    if height.None? || floors.None? then None else Some(Counts(c))
  }

  /** The pass counts once both steps are known to be non-zero. */
  function Counts(c: Config): (r: seq<nat>)
    requires Steppable(c)
    ensures |r| == Levels
  {
    var height := RangeCount(c.minHeight, c.maxHeight, c.stepHeight);
    var floors := RangeCount(c.minFloors as real, c.maxFloors as real, c.stepFloors as real);
    [Iterations(c.areaPasses), Iterations(c.yearPasses), Iterations(floors.value), Iterations(height.value),
     ToggleCount(c.bothAhu), ToggleCount(c.bothLayout), GainsCount(c.gainsAll),
     ToggleCount(c.bothHeating), ToggleCount(c.bothConst)]
  }

  /** A flag flipped after every pass: its value on pass k. */
  function Toggle(both: bool, init: bool, k: nat): bool
  {
    if both && k % 2 == 1 then !init else init
  }

  function AreaAt(c: Config, k: nat): real { c.minArea + k as real * c.stepArea }
  function YearAt(c: Config, k: nat): int { c.minYear + k * c.stepYear }
  function FloorsAt(c: Config, k: nat): int { c.minFloors + k * c.stepFloors }
  function HeightAt(c: Config, k: nat): real { c.minHeight + k as real * c.stepHeight }
  function LayoutAt(c: Config, k: nat): int { if c.bothLayout then k else c.layout }
  function GainsAt(c: Config, k: nat): int { if c.gainsAll then 1 + k else c.gains }
  function ConstructionAt(c: Config, k: nat): Construction
  {
    if !c.bothConst then c.construction else if k == 0 then TabulaStandard else TabulaRetrofit
  }

  /** Axis i of variant v holds the value of pass k of loop i. */
  predicate Agrees(c: Config, v: Variant, i: nat, k: nat)
  {
    match i
    case 0 => v.area == AreaAt(c, k)
    case 1 => v.year == YearAt(c, k)
    case 2 => v.floors == FloorsAt(c, k)
    case 3 => v.height == HeightAt(c, k)
    case 4 => v.withAhu == Toggle(c.bothAhu, c.withAhu, k)
    case 5 => v.layout == LayoutAt(c, k)
    case 6 => v.gains == GainsAt(c, k)
    case 7 => v.withHeating == Toggle(c.bothHeating, c.withHeating, k)
    case 8 => v.construction == ConstructionAt(c, k)
    case _ => true
  }

  /** The outer |p| axes of v hold the values of passes p of their loops. */
  predicate Settled(c: Config, v: Variant, p: seq<nat>)
  {
    forall i | 0 <= i < |p| :: Agrees(c, v, i, p[i])
  }

  /** The variant built on passes p of the nine loops. */
  function VariantAt(c: Config, p: seq<nat>): (v: Variant)
    requires |p| == Levels
    ensures Settled(c, v, p)
  {
    Variant(AreaAt(c, p[0]), YearAt(c, p[1]), FloorsAt(c, p[2]), HeightAt(c, p[3]),
            Toggle(c.bothAhu, c.withAhu, p[4]), LayoutAt(c, p[5]), GainsAt(c, p[6]),
            Toggle(c.bothHeating, c.withHeating, p[7]), ConstructionAt(c, p[8]))
  }

  /** A variant settled on all nine axes is the variant of those passes. */
  lemma SettledVariant(c: Config, v: Variant, p: seq<nat>)
    requires |p| == Levels && Settled(c, v, p)
    ensures v == VariantAt(c, p)
  {
    assert Agrees(c, v, 0, p[0]) && Agrees(c, v, 1, p[1]) && Agrees(c, v, 2, p[2]);
    assert Agrees(c, v, 3, p[3]) && Agrees(c, v, 4, p[4]) && Agrees(c, v, 5, p[5]);
    assert Agrees(c, v, 6, p[6]) && Agrees(c, v, 7, p[7]) && Agrees(c, v, 8, p[8]);
  }

  /** The variants built inside the loops entered on passes p, in loop
      order: the whole sweep for p == [], one variant for |p| == 9. */
  function Block(c: Config, p: seq<nat>): seq<Variant>
    requires Steppable(c) && |p| <= Levels
    decreases Levels - |p|, 1
  {
    if |p| == Levels then [VariantAt(c, p)] else Concat(SubBlocks(c, p))
  }

  /** The blocks of the passes of loop |p|, in pass order. */
  function SubBlocks(c: Config, p: seq<nat>): (r: seq<seq<Variant>>)
    requires Steppable(c) && |p| < Levels
    ensures |r| == Counts(c)[|p|]
    decreases Levels - |p|, 0
  {
    seq(Counts(c)[|p|], k requires 0 <= k < Counts(c)[|p|] => Block(c, p + [k]))
  }

  /** All variants of the sweep, in the order they are built: one per
      combination of passes, the product of the nine loop counts. */
  function AllVariants(c: Config): (r: seq<Variant>)
    requires Steppable(c)
    ensures |r| == Product(Counts(c))
  {
    BlockLength(c, []);
    assert Counts(c)[0..] == Counts(c);
    Block(c, [])
  }

  function Product(s: seq<nat>): nat
  {
    if s == [] then 1 else s[0] * Product(s[1..])
  }

  /** The loops entered on passes p build as many variants as the product of
      the pass counts of the loops inside them. */
  lemma {:induction false} BlockLength(c: Config, p: seq<nat>)
    requires Steppable(c) && |p| <= Levels
    ensures |Block(c, p)| == Product(Counts(c)[|p|..])
    decreases Levels - |p|
  {
    if |p| < Levels {
      var subs := SubBlocks(c, p);
      var inner := Product(Counts(c)[|p| + 1..]);
      forall k | 0 <= k < |subs| ensures |subs[k]| == inner {
        assert subs[k] == Block(c, p + [k]) && |p + [k]| == |p| + 1;
        BlockLength(c, p + [k]);
      }
      ConcatLength(subs, inner);
      assert Counts(c)[|p|..][1..] == Counts(c)[|p| + 1..];
    }
  }

  /** Multiplying one loop count by f multiplies the product by f. */
  lemma {:induction false} ProductScale(s: seq<nat>, i: nat, f: nat)
    requires i < |s|
    ensures Product(s[i := f * s[i]]) == f * Product(s)
    decreases |s|
  {
    if i > 0 {
      assert s[i := f * s[i]][1..] == s[1..][i - 1 := f * s[1..][i - 1]];
      ProductScale(s[1..], i - 1, f);
      calc {
        Product(s[i := f * s[i]]);
        s[0] * Product(s[1..][i - 1 := f * s[1..][i - 1]]);
        s[0] * (f * Product(s[1..]));
        f * (s[0] * Product(s[1..]));
      }
    } else {
      assert s[i := f * s[i]][1..] == s[1..];
    }
  }

  /** Setting "both construction types" doubles the number of variants. */
  lemma BothConstDoubles(c: Config)
    requires Steppable(c) && !c.bothConst
    ensures Steppable(c.(bothConst := true))
    ensures |AllVariants(c.(bothConst := true))| == 2 * |AllVariants(c)|
  {
    var c' := c.(bothConst := true);
    assert Counts(c') == Counts(c)[8 := 2 * Counts(c)[8]];
    ProductScale(Counts(c), 8, 2);
  }

  /** Setting "all internal-gains modes" triples the number of variants. */
  lemma GainsAllTriples(c: Config)
    requires Steppable(c) && !c.gainsAll
    ensures Steppable(c.(gainsAll := true))
    ensures |AllVariants(c.(gainsAll := true))| == 3 * |AllVariants(c)|
  {
    var c' := c.(gainsAll := true);
    assert Counts(c') == Counts(c)[6 := 3 * Counts(c)[6]];
    ProductScale(Counts(c), 6, 3);
  }

  /** Every variant built inside the loops entered on passes p holds the
      values of those passes on the outer axes. */
  lemma {:induction false} BlockSettled(c: Config, p: seq<nat>, v: Variant)
    requires Steppable(c) && |p| <= Levels && v in Block(c, p)
    ensures Settled(c, v, p)
    decreases Levels - |p|
  {
    if |p| < Levels {
      var subs := SubBlocks(c, p);
      var k := ConcatMember(subs, v);
      BlockSettled(c, p + [k], v);
      forall i | 0 <= i < |p| ensures Agrees(c, v, i, p[i]) {
        assert (p + [k])[i] == p[i];
      }
    }
  }

  /** With both construction types, the innermost loop builds the same
      building twice: first as "tabula_standard", then as "tabula_retrofit". */
  lemma ConstructionPasses(c: Config, p: seq<nat>)
    requires Steppable(c) && c.bothConst && |p| == Levels - 1
    ensures var b := Block(c, p);
            |b| == 2 && b[0].construction == TabulaStandard && b[1].construction == TabulaRetrofit &&
            b[1] == b[0].(construction := TabulaRetrofit)
  {
    var subs := SubBlocks(c, p);
    assert |p + [0]| == Levels && |p + [1]| == Levels;
    assert subs[0] == Block(c, p + [0]) == [VariantAt(c, p + [0])];
    assert subs[1] == Block(c, p + [1]) == [VariantAt(c, p + [1])];
    assert forall i | 0 <= i < Levels - 1 :: (p + [0])[i] == (p + [1])[i] == p[i];
    assert subs == [subs[0]] + [subs[1]];
    ConcatAppend([subs[0]], [subs[1]]);
    assert Concat([subs[0]]) == subs[0] by {
      assert [subs[0]][..0] == [];
    }
    assert Concat([subs[1]]) == subs[1] by {
      assert [subs[1]][..0] == [];
    }
  }

  /** With both heating options, the variants of the first heating pass all
      have the configured heating flag and those of the second the opposite. */
  lemma HeatingPasses(c: Config, p: seq<nat>, v: Variant, w: Variant)
    requires Steppable(c) && c.bothHeating && |p| == 7
    requires v in Block(c, p + [0]) && w in Block(c, p + [1])
    ensures v.withHeating == c.withHeating && w.withHeating == !c.withHeating
  {
    BlockSettled(c, p + [0], v);
    BlockSettled(c, p + [1], w);
    assert Agrees(c, v, 7, (p + [0])[7]) && Agrees(c, w, 7, (p + [1])[7]);
  }

  // ----- Outcome of each building -----------------------------------------

  /** The ways a run can stop: a zero step in a loop-count helper, a zero
      leased area in the intensity formula, and the quit() of an unsupported
      scenario or weekend flag. */
  datatype Failure = ZeroStep | ZeroLeasedArea | UnsupportedRegime

  /** The request the toolkit answers for a variant: the occupancy and
      heating reference curves of each of the five zones. The toolkit is
      never given the heating flag, which the script sets on the zones only
      afterwards; a generator here sees the whole variant, more than the
      toolkit is told. */
  type Generator = Variant -> References

  /** Every reference curve the toolkit hands out covers one day. */
  ghost predicate Generates(g: Generator)
  {
    forall v :: AllWellFormed(g(v))
  }

  /** What stops the run when variant v is built, if anything. */
  function FailureOf(c: Config, v: Variant): (r: Option<Failure>)
    ensures r == Some(ZeroLeasedArea) <==> v.area == 0.0
    ensures r == Some(UnsupportedRegime) <==> v.area != 0.0 && !Supported(c.scenario, c.weekend)
    ensures r.None? <==> v.area != 0.0 && Supported(c.scenario, c.weekend)
  {
    if v.area == 0.0 then Some(ZeroLeasedArea)
    else if !Supported(c.scenario, c.weekend) then Some(UnsupportedRegime)
    else None
  }

  /** A building as handed to the simulation: its variant, the five usage
      intensities, the fifteen profiles and the heating flags of zones 0..3
      (zone 4 keeps the toolkit's flag). */
  datatype Building = Building(variant: Variant, intensity: seq<real>, profiles: Lists, heated: seq<bool>)

  /** What the sweep does, in order: request a building, simulate it, apply
      the retrofit. */
  datatype Event = Added(v: Variant) | Simulated(b: Building) | Retrofitted

  /** The building of variant v when the lists hold l. */
  function Assemble(v: Variant, l: Lists): (b: Building)
    requires v.area != 0.0
    ensures b.variant == v && b.profiles == l
    ensures |b.intensity| == ZoneCount && forall z: Zone :: b.intensity[z] * (Factor(z) * v.area) == 1000.0
    ensures |b.heated| == 4 && forall j :: 0 <= j < 4 ==> b.heated[j] == v.withHeating
  {
    Building(v, Intensities(v.area), l, seq(4, _ => v.withHeating))
  }

  /** The lists after building v: extended by one year of values unless the
      run stopped before the week loop appended anything. */
  function Next(c: Config, g: Generator, l: Lists, v: Variant): Lists
  {
    if FailureOf(c, v).Some? then l else Extended(l, c.holiday, c.scenario, c.weekend, g(v))
  }

  /** The events of building v when the lists hold l beforehand. */
  function Steps(c: Config, g: Generator, l: Lists, v: Variant): seq<Event>
  {
    if FailureOf(c, v).Some? then [Added(v)]
    else [Added(v), Simulated(Assemble(v, Next(c, g, l, v)))] + (if c.bothConst then [Retrofitted] else [])
  }

  /** The lists after building the variants vs in order, starting from l. */
  function After(c: Config, g: Generator, l: Lists, vs: seq<Variant>): Lists
    decreases |vs|
  {
    if vs == [] then l else After(c, g, Next(c, g, l, vs[0]), vs[1..])
  }

  /** The events of building the variants vs in order, starting from l. */
  function Script(c: Config, g: Generator, l: Lists, vs: seq<Variant>): seq<Event>
    decreases |vs|
  {
    if vs == [] then [] else Steps(c, g, l, vs[0]) + Script(c, g, Next(c, g, l, vs[0]), vs[1..])
  }

  /** The variants of vs that are built before the run stops: all of them,
      or those up to and including the first that fails. */
  function Processed(c: Config, vs: seq<Variant>): seq<Variant>
    decreases |vs|
  {
    if vs == [] then [] else if FailureOf(c, vs[0]).Some? then [vs[0]] else [vs[0]] + Processed(c, vs[1..])
  }

  /** The failure of the first variant of vs that fails, if any. */
  function Fault(c: Config, vs: seq<Variant>): Option<Failure>
    decreases |vs|
  {
    if vs == [] then None else if FailureOf(c, vs[0]).Some? then FailureOf(c, vs[0]) else Fault(c, vs[1..])
  }

  /** The run goes through all of vs exactly when no variant of vs fails,
      and then every one of them is built. */
  lemma {:induction false} FaultFree(c: Config, vs: seq<Variant>)
    ensures Fault(c, vs).None? <==> forall v | v in vs :: FailureOf(c, v).None?
    ensures Fault(c, vs).None? ==> Processed(c, vs) == vs
    decreases |vs|
  {
    if vs != [] {
      FaultFree(c, vs[1..]);
      assert forall v | v in vs :: v == vs[0] || v in vs[1..];
      assert [vs[0]] + vs[1..] == vs;
    }
  }

  /** Otherwise the run stops at the first variant that fails: the variants
      built are a prefix of vs ending with it, and all before it ran through. */
  lemma {:induction false} StopsAtFirstFault(c: Config, vs: seq<Variant>)
    requires Fault(c, vs).Some?
    ensures var n := |Processed(c, vs)|;
            0 < n <= |vs| && Processed(c, vs) == vs[..n] &&
            Fault(c, vs) == FailureOf(c, vs[n - 1]) &&
            forall j | 0 <= j < n - 1 :: FailureOf(c, vs[j]).None?
    decreases |vs|
  {
    if FailureOf(c, vs[0]).Some? {
      assert vs[..1] == [vs[0]];
    } else {
      var rest := vs[1..];
      StopsAtFirstFault(c, rest);
      var n := |Processed(c, rest)|;
      assert Processed(c, vs) == [vs[0]] + rest[..n];
      assert [vs[0]] + rest[..n] == vs[..n + 1];
      forall j | 0 <= j < n ensures FailureOf(c, vs[j]).None? {
        if j > 0 {
          assert vs[j] == rest[j - 1];
        }
      }
    }
  }

  /** Building a then b is building a, then building b from where a left
      the lists. */
  lemma {:induction false} ScriptAppend(c: Config, g: Generator, l: Lists, a: seq<Variant>, b: seq<Variant>)
    ensures Script(c, g, l, a + b) == Script(c, g, l, a) + Script(c, g, After(c, g, l, a), b)
    ensures After(c, g, l, a + b) == After(c, g, After(c, g, l, a), b)
    decreases |a|
  {
    if a == [] {
      assert a + b == b;
    } else {
      assert (a + b)[0] == a[0] && (a + b)[1..] == a[1..] + b;
      ScriptAppend(c, g, Next(c, g, l, a[0]), a[1..], b);
    }
  }

  /** Stopping inside a + b: if a runs through, the run goes on into b;
      otherwise it stops inside a. */
  lemma {:induction false} ProcessedAppend(c: Config, a: seq<Variant>, b: seq<Variant>)
    ensures Fault(c, a).None? ==> Processed(c, a + b) == a + Processed(c, b) && Fault(c, a + b) == Fault(c, b)
    ensures Fault(c, a).Some? ==> Processed(c, a + b) == Processed(c, a) && Fault(c, a + b) == Fault(c, a)
    decreases |a|
  {
    if a == [] {
      assert a + b == b;
    } else {
      assert (a + b)[0] == a[0] && (a + b)[1..] == a[1..] + b;
      ProcessedAppend(c, a[1..], b);
      if FailureOf(c, a[0]).None? && Fault(c, a).None? {
        assert [a[0]] + (a[1..] + Processed(c, b)) == a + Processed(c, b);
      }
    }
  }

  // ----- Consequences of the lists never being cleared --------------------

  /** The number of variants of vs that run through. */
  function Successes(c: Config, vs: seq<Variant>): nat
    decreases |vs|
  {
    if vs == [] then 0 else (if FailureOf(c, vs[0]).None? then 1 else 0) + Successes(c, vs[1..])
  }

  /** Every list grows by one year of values per variant that runs through,
      and keeps what it held: the lists are extended, never cleared. */
  lemma {:induction false} AfterGrows(c: Config, g: Generator, l: Lists, vs: seq<Variant>, z: Zone, m: Metric)
    requires Generates(g)
    ensures |Get(After(c, g, l, vs), z, m)| == |Get(l, z, m)| + Successes(c, vs) * HoursPerYear
    ensures Get(l, z, m) <= Get(After(c, g, l, vs), z, m)
    decreases |vs|
  {
    if vs != [] {
      var l' := Next(c, g, l, vs[0]);
      if FailureOf(c, vs[0]).None? {
        YearLength(c.holiday, c.scenario, c.weekend, z, m, g(vs[0])[z]);
      }
      AfterGrows(c, g, l', vs[1..], z, m);
    }
  }

  /** Starting from the empty lists, the building of the n-th variant that
      runs through (n counted from 1) carries profiles of n * 8904 values. */
  lemma NthBuilding(c: Config, g: Generator, vs: seq<Variant>, z: Zone, m: Metric)
    requires Generates(g) && vs != [] && forall v | v in vs :: FailureOf(c, v).None?
    ensures var l := After(c, g, NoLists, vs[..|vs| - 1]);
            var s := Steps(c, g, l, vs[|vs| - 1]);
            |s| >= 2 && s[1].Simulated? && |Get(s[1].b.profiles, z, m)| == |vs| * HoursPerYear
  {
    var n := |vs| - 1;
    assert forall v | v in vs[..n] :: v in vs;
    SuccessesAll(c, vs[..n]);
    AfterGrows(c, g, NoLists, vs[..n], z, m);
    var l := After(c, g, NoLists, vs[..n]);
    assert vs[n] in vs;
    YearLength(c.holiday, c.scenario, c.weekend, z, m, g(vs[n])[z]);
  }

  /** Variants that all run through all count as successes. */
  lemma {:induction false} SuccessesAll(c: Config, vs: seq<Variant>)
    requires forall v | v in vs :: FailureOf(c, v).None?
    ensures Successes(c, vs) == |vs|
    decreases |vs|
  {
    if vs != [] {
      assert forall v | v in vs[1..] :: v in vs;
      SuccessesAll(c, vs[1..]);
    }
  }

  /** Each variant that runs through is simulated once; with both
      construction types each simulation is followed by a retrofit call. */
  function Simulations(t: seq<Event>): nat
    decreases |t|
  {
    if t == [] then 0 else (if t[0].Simulated? then 1 else 0) + Simulations(t[1..])
  }

  function Retrofits(t: seq<Event>): nat
    decreases |t|
  {
    if t == [] then 0 else (if t[0].Retrofitted? then 1 else 0) + Retrofits(t[1..])
  }

  lemma {:induction false} CountsAppend(a: seq<Event>, b: seq<Event>)
    ensures Simulations(a + b) == Simulations(a) + Simulations(b)
    ensures Retrofits(a + b) == Retrofits(a) + Retrofits(b)
    decreases |a|
  {
    if a == [] {
      assert a + b == b;
    } else {
      assert (a + b)[1..] == a[1..] + b;
      CountsAppend(a[1..], b);
    }
  }

  lemma {:induction false} ScriptCounts(c: Config, g: Generator, l: Lists, vs: seq<Variant>)
    ensures Simulations(Script(c, g, l, vs)) == Successes(c, vs)
    ensures Retrofits(Script(c, g, l, vs)) == if c.bothConst then Successes(c, vs) else 0
    decreases |vs|
  {
    if vs != [] {
      var s := Steps(c, g, l, vs[0]);
      ScriptCounts(c, g, Next(c, g, l, vs[0]), vs[1..]);
      CountsAppend(s, Script(c, g, Next(c, g, l, vs[0]), vs[1..]));
      if FailureOf(c, vs[0]).None? {
        var head: seq<Event> := [Added(vs[0]), Simulated(Assemble(vs[0], Next(c, g, l, vs[0])))];
        var tail: seq<Event> := if c.bothConst then [Retrofitted] else [];
        CountsAppend(head, tail);
        assert head[1..][1..] == [];
        if c.bothConst {
          assert tail[1..] == [];
        }
      }
    }
  }

  /** Every simulation in t is immediately followed by a retrofit call. */
  predicate RetrofitAfterEach(t: seq<Event>)
  {
    forall i | 0 <= i < |t| && t[i].Simulated? :: i + 1 < |t| && t[i + 1] == Retrofitted
  }

  /** Every retrofit call in t immediately follows a simulation. */
  predicate RetrofitOnlyAfter(t: seq<Event>)
  {
    forall i | 0 <= i < |t| && t[i].Retrofitted? :: 0 < i && t[i - 1].Simulated?
  }

  predicate NoRetrofit(t: seq<Event>)
  {
    forall i | 0 <= i < |t| :: !t[i].Retrofitted?
  }

  /** Order of the events: with both construction types every simulation is
      immediately followed by the retrofit call, and every retrofit call
      immediately follows a simulation; otherwise no retrofit call is made. */
  lemma {:induction false} RetrofitOrder(c: Config, g: Generator, l: Lists, vs: seq<Variant>)
    ensures c.bothConst ==> RetrofitAfterEach(Script(c, g, l, vs)) && RetrofitOnlyAfter(Script(c, g, l, vs))
    ensures !c.bothConst ==> NoRetrofit(Script(c, g, l, vs))
    decreases |vs|
  {
    if vs != [] {
      var s := Steps(c, g, l, vs[0]);
      var r := Script(c, g, Next(c, g, l, vs[0]), vs[1..]);
      RetrofitOrder(c, g, Next(c, g, l, vs[0]), vs[1..]);
      var t := Script(c, g, l, vs);
      assert t == s + r;
      assert |s| == 1 <==> FailureOf(c, vs[0]).Some?;
      assert |s| == 3 <==> FailureOf(c, vs[0]).None? && c.bothConst;
      assert s[0].Added? && (1 < |s| ==> s[1].Simulated?) && (|s| == 3 ==> s[2] == Retrofitted);
      if c.bothConst {
        forall i | 0 <= i < |t| && t[i].Simulated?
          ensures i + 1 < |t| && t[i + 1] == Retrofitted
        {
          if i < |s| {
            assert t[i] == s[i];
            assert i == 1 && |s| == 3;
            assert t[i + 1] == s[i + 1];
          } else {
            assert t[i] == r[i - |s|];
            assert t[i + 1] == r[i - |s| + 1];
          }
        }
        forall i | 0 <= i < |t| && t[i].Retrofitted?
          ensures 0 < i && t[i - 1].Simulated?
        {
          if i > |s| {
            assert t[i] == r[i - |s|] && t[i - 1] == r[i - 1 - |s|];
          }
        }
      } else {
        forall i | 0 <= i < |t|
          ensures !t[i].Retrofitted?
        {
          if i < |s| {
            assert t[i] == s[i];
          } else {
            assert t[i] == r[i - |s|];
          }
        }
      }
    }
  }

  // ----- The whole run ------------------------------------------------------

  /** What a whole run ends with, from the empty lists: the failure that
      stopped it, if any, and the events it produced. */
  function Outcome(c: Config, g: Generator): (Option<Failure>, seq<Event>)
  {
    if !Steppable(c) then (Some(ZeroStep), [])
    else (Fault(c, AllVariants(c)), Script(c, g, NoLists, Processed(c, AllVariants(c))))
  }
}
