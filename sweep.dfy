/** The nested parameter sweep as a state machine: the axis variables the
    nine loops update, the accumulator lists, and the record of what was
    handed to the toolkit. The loops are proved to build exactly the
    variants of Variants.AllVariants, in order, and to stop where the
    script stops. */
module Sweep {
  import opened Wrappers
  import opened Blocks
  import opened Usage
  import opened Synthesis
  import opened Variants

  /** Axes whose loop sets them before its first pass: the four ranged axes
      always, layout, gains and construction only when all their options are
      swept. The two on/off toggles are never reset. */
  predicate Resets(c: Config, i: nat)
  {
    i <= 3 || (i == 5 && c.bothLayout) || (i == 6 && c.gainsAll) || (i == 8 && c.bothConst)
  }

  /** Variant v with axis i set to its value on pass k of loop i. */
  function Put(c: Config, v: Variant, i: nat, k: nat): (r: Variant)
    ensures i < Levels ==> Agrees(c, r, i, k)
  {
    match i
    case 0 => v.(area := AreaAt(c, k))
    case 1 => v.(year := YearAt(c, k))
    case 2 => v.(floors := FloorsAt(c, k))
    case 3 => v.(height := HeightAt(c, k))
    case 4 => v.(withAhu := Toggle(c.bothAhu, c.withAhu, k))
    case 5 => v.(layout := LayoutAt(c, k))
    case 6 => v.(gains := GainsAt(c, k))
    case 7 => v.(withHeating := Toggle(c.bothHeating, c.withHeating, k))
    case 8 => v.(construction := ConstructionAt(c, k))
    case _ => v
  }

  /** Setting axis i leaves every other axis as it was. */
  lemma PutOthers(c: Config, v: Variant, i: nat, k: nat)
    ensures forall j: nat, k': nat | j != i :: Agrees(c, Put(c, v, i, k), j, k') <==> Agrees(c, v, j, k')
  {
  }

  /** Every axis from loop i inward that its loop does not reset holds its
      first-pass value. */
  predicate Primed(c: Config, v: Variant, i: nat)
  {
    forall j | i <= j < Levels && !Resets(c, j) :: Agrees(c, v, j, 0)
  }

  /** Entering pass k of loop |p| settles one more axis. */
  lemma Enter(c: Config, v: Variant, p: seq<nat>, k: nat)
    requires Settled(c, v, p) && Agrees(c, v, |p|, k)
    ensures Settled(c, v, p + [k])
  {
    assert forall i | 0 <= i < |p| :: (p + [k])[i] == p[i];
  }

  /** Leaving pass k of loop |p| keeps the outer axes settled. */
  lemma Leave(c: Config, v: Variant, p: seq<nat>, k: nat)
    requires Settled(c, v, p + [k])
    ensures Settled(c, v, p) && Agrees(c, v, |p|, k)
  {
    assert forall i | 0 <= i < |p| :: (p + [k])[i] == p[i];
    assert Agrees(c, v, |p|, (p + [k])[|p|]);
  }

  /** After the prelude of loop |p| its axis holds the first-pass value and
      nothing else has moved. */
  lemma Started(c: Config, v: Variant, p: seq<nat>)
    requires |p| < Levels && Settled(c, v, p) && Primed(c, v, |p|)
    ensures var w := if Resets(c, |p|) then Put(c, v, |p|, 0) else v;
            Settled(c, w, p) && Agrees(c, w, |p|, 0) && Primed(c, w, |p| + 1)
  {
    PutOthers(c, v, |p|, 0);
  }

  /** Stepping the axis of loop |p| from pass k to pass k + 1. */
  lemma Stepped(c: Config, v: Variant, p: seq<nat>, k: nat)
    requires |p| < Levels && Settled(c, v, p) && Primed(c, v, |p| + 1)
    ensures var w := Put(c, v, |p|, k + 1);
            Settled(c, w, p) && Agrees(c, w, |p|, k + 1) && Primed(c, w, |p| + 1)
  {
    PutOthers(c, v, |p|, k + 1);
  }

  /** The switch to "tabula_retrofit" at the end of a construction pass is
      the step of the construction axis. */
  lemma Switched(c: Config, v: Variant, k: nat)
    requires Agrees(c, v, 8, k)
    ensures v.(construction := if c.bothConst then TabulaRetrofit else v.construction) == Put(c, v, 8, k + 1)
  {
  }

  /** At the end of loop i its axis, if the loop does not reset it, is back
      at its first-pass value: a toggle swept both ways is flipped twice,
      any other is never changed. */
  lemma Finished(c: Config, v: Variant, i: nat)
    requires Steppable(c) && i < Levels && Primed(c, v, i + 1) && Agrees(c, v, i, Counts(c)[i])
    ensures Primed(c, v, i)
  {
  }

  /** Pass k of a loop whose earlier passes all ran through: the run either
      goes on with the passes so far extended by pass k, or stops inside
      pass k, and events and lists follow on from the earlier passes. */
  lemma PassOutcome(c: Config, g: Generator, l: Lists, t: seq<Event>, subs: seq<seq<Variant>>, k: nat)
    requires k < |subs| && Fault(c, Concat(subs[..k])).None?
    ensures var done := Concat(subs[..k]);
            var ran := Processed(c, subs[k]);
            && (Fault(c, subs[k]).None? ==>
                  Fault(c, Concat(subs[..k + 1])).None? && Concat(subs[..k + 1]) == done + ran)
            && (Fault(c, subs[k]).Some? ==>
                  Fault(c, Concat(subs)) == Fault(c, subs[k]) && Processed(c, Concat(subs)) == done + ran)
            && (t + Script(c, g, l, done)) + Script(c, g, After(c, g, l, done), ran) == t + Script(c, g, l, done + ran)
            && After(c, g, l, done + ran) == After(c, g, After(c, g, l, done), ran)
  {
    var done := Concat(subs[..k]);
    ConcatSplit(subs, k);
    ProcessedAppend(c, done, subs[k]);
    ScriptAppend(c, g, l, done, Processed(c, subs[k]));
    FaultFree(c, subs[k]);
    ProcessedAppend(c, done + subs[k], Concat(subs[k + 1..]));
  }

  /** The script's module-level state: the configuration, the toolkit's
      answer to each request, the axis variables, the fifteen lists and the
      events produced so far. */
  class Driver {
    const cfg: Config
    const gen: Generator
    const acc: Accumulators
    var area: real
    var year: int
    var floors: int
    var height: real
    var withAhu: bool
    var layout: int
    var gains: int
    var withHeating: bool
    var construction: Construction
    var trace: seq<Event>

    ghost predicate Valid()
      reads this, acc
    {
      acc.Valid()
    }

    /** The variant the axis variables currently describe. */
    function Current(): Variant
      reads this
    {
      Variant(area, year, floors, height, withAhu, layout, gains, withHeating, construction)
    }

    /** The state before the first loop: the toggles and choices at their
        configured values, the lists empty, nothing requested yet. */
    constructor (cfg: Config, gen: Generator)
      ensures Valid() && this.cfg == cfg && this.gen == gen
      ensures trace == [] && acc.Snapshot() == NoLists
      ensures Primed(cfg, Current(), 0)
      ensures fresh(acc)
    {
      this.cfg := cfg;
      this.gen := gen;
      acc := new Accumulators();
      area := cfg.minArea;
      year := cfg.minYear;
      floors := cfg.minFloors;
      height := cfg.minHeight;
      withAhu := cfg.withAhu;
      layout := cfg.layout;
      gains := cfg.gains;
      withHeating := cfg.withHeating;
      construction := cfg.construction;
      trace := [];
    }

    /** The whole script from the loop counts on: a zero step stops it
        before any building is requested; otherwise the nine loops run. */
    method Run() returns (fault: Option<Failure>)
      requires Valid() && trace == [] && acc.Snapshot() == NoLists && Primed(cfg, Current(), 0)
      modifies this, acc
      ensures Valid()
      ensures (fault, trace) == Outcome(cfg, gen)
      ensures !Steppable(cfg) ==> acc.Snapshot() == NoLists
      ensures Steppable(cfg) ==> acc.Snapshot() == After(cfg, gen, NoLists, Processed(cfg, AllVariants(cfg)))
    {
      var counts := LoopCounts(cfg);
      if counts.None? {
        assert Outcome(cfg, gen) == (Some(ZeroStep), []);
        fault := Some(ZeroStep);
        assert (fault, trace) == Outcome(cfg, gen);
        return;
      }
      ghost var all := AllVariants(cfg);
      assert Outcome(cfg, gen) == (Fault(cfg, all), Script(cfg, gen, NoLists, Processed(cfg, all)));
      fault := Loop(0, []);
      assert all == Block(cfg, []);
      assert fault == Fault(cfg, all);
      assert trace == [] + Script(cfg, gen, NoLists, Processed(cfg, all));
      assert fault == Outcome(cfg, gen).0;
      assert trace == Outcome(cfg, gen).1;
    }

    /** Loop number `level` (0 = leased area … 8 = construction type),
        entered on passes p of the loops around it: its prelude, then one
        pass per count, each running the loop inside and then stepping this
        loop's axis. */
    method Loop(level: nat, ghost p: seq<nat>) returns (fault: Option<Failure>)
      requires Valid() && Steppable(cfg) && level == |p| < Levels
      requires Settled(cfg, Current(), p) && Primed(cfg, Current(), level)
      modifies this, acc
      ensures Valid()
      ensures fault == Fault(cfg, Block(cfg, p))
      ensures trace == old(trace) + Script(cfg, gen, old(acc.Snapshot()), Processed(cfg, Block(cfg, p)))
      ensures acc.Snapshot() == After(cfg, gen, old(acc.Snapshot()), Processed(cfg, Block(cfg, p)))
      ensures fault.None? ==> Settled(cfg, Current(), p) && Primed(cfg, Current(), level)
      decreases Levels - level, 2
    {
      Started(cfg, Current(), p);
      Reset(level);
      ghost var t0, l0 := trace, acc.Snapshot();
      ghost var subs := SubBlocks(cfg, p);
      assert Block(cfg, p) == Concat(subs);
      var n := Counts(cfg)[level];
      fault := None;
      for k := 0 to n
        invariant fault.None? && PassesDone(level, p, k, subs, t0, l0)
      {
        fault := NextPass(level, p, k, subs, t0, l0);
        if fault.Some? {
          return;
        }
      }
      assert subs[..n] == subs;
      FaultFree(cfg, Concat(subs));
      Finished(cfg, Current(), level);
    }

    /** The state of loop `level`, entered on passes p, once its passes
        before k ran through: the outer axes at p, this loop's axis at pass k,
        the inner axes primed, and the events and lists those passes produced
        on top of t0 and l0. */
    ghost predicate PassesDone(level: nat, p: seq<nat>, k: nat, subs: seq<seq<Variant>>, t0: seq<Event>, l0: Lists)
      reads this, acc
    {
      && Valid() && Steppable(cfg) && level == |p| < Levels
      && subs == SubBlocks(cfg, p) && k <= |subs|
      && Settled(cfg, Current(), p) && Agrees(cfg, Current(), level, k) && Primed(cfg, Current(), level + 1)
      && Fault(cfg, Concat(subs[..k])).None?
      && trace == t0 + Script(cfg, gen, l0, Concat(subs[..k]))
      && acc.Snapshot() == After(cfg, gen, l0, Concat(subs[..k]))
    }

    /** Pass k of loop `level` as its loop sees it: the earlier passes ran
        through, and afterwards either pass k did too, or the run stopped
        inside it and the loop's outcome is that of pass k. */
    method NextPass(level: nat, ghost p: seq<nat>, k: nat, ghost subs: seq<seq<Variant>>,
                    ghost t0: seq<Event>, ghost l0: Lists) returns (fault: Option<Failure>)
      requires PassesDone(level, p, k, subs, t0, l0) && k < |subs|
      modifies this, acc
      ensures Valid()
      ensures fault.None? ==> PassesDone(level, p, k + 1, subs, t0, l0)
      ensures fault.Some? ==>
                && fault == Fault(cfg, Concat(subs))
                && trace == t0 + Script(cfg, gen, l0, Processed(cfg, Concat(subs)))
                && acc.Snapshot() == After(cfg, gen, l0, Processed(cfg, Concat(subs)))
      decreases Levels - level, 1
    {
      assert subs[k] == Block(cfg, p + [k]);
      ghost var ran := Processed(cfg, subs[k]);
      ghost var t1, l1 := trace, acc.Snapshot();
      PassOutcome(cfg, gen, l0, t0, subs, k);
      fault := Pass(level, p, k);
      assert trace == t1 + Script(cfg, gen, l1, ran);
    }

    /** Pass k of loop `level`: the loop inside it, or the building itself
        inside the innermost loop, and then the step of this loop's axis. */
    method Pass(level: nat, ghost p: seq<nat>, k: nat) returns (fault: Option<Failure>)
      requires Valid() && Steppable(cfg) && level == |p| < Levels
      requires Settled(cfg, Current(), p) && Agrees(cfg, Current(), level, k) && Primed(cfg, Current(), level + 1)
      modifies this, acc
      ensures Valid()
      ensures fault == Fault(cfg, Block(cfg, p + [k]))
      ensures trace == old(trace) + Script(cfg, gen, old(acc.Snapshot()), Processed(cfg, Block(cfg, p + [k])))
      ensures acc.Snapshot() == After(cfg, gen, old(acc.Snapshot()), Processed(cfg, Block(cfg, p + [k])))
      ensures fault.None? ==>
                Settled(cfg, Current(), p) && Agrees(cfg, Current(), level, k + 1) && Primed(cfg, Current(), level + 1)
      decreases Levels - level, 0
    {
      Enter(cfg, Current(), p, k);
      if level == Levels - 1 {
        ghost var v := Current();
        fault := BuildVariant(p + [k]);
        if fault.None? {
          Switched(cfg, v, k);
          Stepped(cfg, v, p, k);
        }
      } else {
        fault := Loop(level + 1, p + [k]);
        if fault.None? {
          Leave(cfg, Current(), p, k);
          Stepped(cfg, Current(), p, k);
          Advance(level, k);
        }
      }
    }

    /** The body of the innermost loop: request the building, set its
        usage intensities, synthesise its year of profiles into the lists,
        hand it to the simulation and, with both construction types, switch
        to the retrofit variant. */
    method BuildVariant(ghost p: seq<nat>) returns (fault: Option<Failure>)
      requires Valid() && Steppable(cfg) && |p| == Levels && Settled(cfg, Current(), p)
      modifies this, acc
      ensures Valid()
      ensures fault == Fault(cfg, Block(cfg, p))
      ensures trace == old(trace) + Script(cfg, gen, old(acc.Snapshot()), Processed(cfg, Block(cfg, p)))
      ensures acc.Snapshot() == After(cfg, gen, old(acc.Snapshot()), Processed(cfg, Block(cfg, p)))
      ensures fault.None? ==>
                Current() == old(Current()).(construction := if cfg.bothConst then TabulaRetrofit else old(construction))
    {
      var v := Current();
      SettledVariant(cfg, v, p);
      assert Block(cfg, p) == [v];
      assert [v][1..] == [];
      ghost var l0 := acc.Snapshot();
      trace := trace + [Added(v)];
      if area == 0.0 {
        return Some(ZeroLeasedArea);
      }
      var intensity := Intensities(area);
      var quit := acc.SynthesizeYear(cfg.holiday, cfg.scenario, cfg.weekend, gen(v));
      if quit {
        return Some(UnsupportedRegime);
      }
      var heated := withHeating;
      var b := Building(v, intensity, acc.Snapshot(), seq(4, _ => heated));
      assert b == Assemble(v, Next(cfg, gen, l0, v));
      trace := trace + [Simulated(b)];
      if cfg.bothConst {
        construction := TabulaRetrofit;
        trace := trace + [Retrofitted];
      }
      fault := None;
    }

    /** The prelude of loop `level`: set its axis to the first-pass value
        where the script does so. */
    method Reset(level: nat)
      requires level < Levels
      modifies this
      ensures Current() == if Resets(cfg, level) then Put(cfg, old(Current()), level, 0) else old(Current())
      ensures trace == old(trace)
    {
      if level == 0 {
        area := cfg.minArea;
      } else if level == 1 {
        year := cfg.minYear;
      } else if level == 2 {
        floors := cfg.minFloors;
      } else if level == 3 {
        height := cfg.minHeight;
      } else if level == 5 && cfg.bothLayout {
        layout := 0;
      } else if level == 6 && cfg.gainsAll {
        gains := 1;
      } else if level == 8 && cfg.bothConst {
        construction := TabulaStandard;
      }
    }

    /** The end of a pass of loop `level` (0 .. 7): step the ranged axes,
        flip the toggles swept both ways, count layout and gains up. */
    method Advance(level: nat, ghost k: nat)
      requires level < Levels - 1 && Agrees(cfg, Current(), level, k)
      modifies this
      ensures Current() == Put(cfg, old(Current()), level, k + 1)
      ensures trace == old(trace)
    {
      if level == 0 {
        area := area + cfg.stepArea;
      } else if level == 1 {
        year := year + cfg.stepYear;
      } else if level == 2 {
        floors := floors + cfg.stepFloors;
      } else if level == 3 {
        height := height + cfg.stepHeight;
      } else if level == 4 {
        if cfg.bothAhu {
          withAhu := !withAhu;
        }
      } else if level == 5 {
        if cfg.bothLayout {
          layout := layout + 1;
        }
      } else if level == 6 {
        if cfg.gainsAll {
          gains := gains + 1;
        }
      } else if cfg.bothHeating {
        withHeating := !withHeating;
      }
    }
  }

  /** The whole script: set up the accumulators and the axes, run the nine
      loops, and end with the failure and the events of the run. */
  method RunSweep(cfg: Config, gen: Generator) returns (fault: Option<Failure>, trace: seq<Event>)
    ensures (fault, trace) == Outcome(cfg, gen)
  {
    var d := new Driver(cfg, gen);
    fault := d.Run();
    trace := d.trace;
  }
}
