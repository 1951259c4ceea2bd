/** The pump optimiser object: it holds the demand scenario, the number of
    pump cycles and the time grid, and runs the simulation step by step on
    buffers of the grid's length, as the functions of `Series` specify. */
module Optimizer {
  import opened Wrappers
  import opened PenaltyEngine
  import opened Series
  import opened ObjectiveFunction

  /** `custo += penalidade_total`: every entry of the cost buffer grows by the penalty. */
  method AddPenalty(cost: array<real>, penalty: real)
    modifies cost
    ensures cost[..] == Shift(old(cost[..]), penalty)
  {
    for k := 0 to cost.Length
      invariant forall j :: 0 <= j < k ==> cost[j] == old(cost[j]) + penalty
      invariant forall j :: k <= j < cost.Length ==> cost[j] == old(cost[j])
    {
      cost[k] := cost[k] + penalty;
    }
  }

  /** Two series that agree up to i and at i agree up to i + 1. */
  lemma PrefixGrows(a: seq<real>, b: seq<real>, i: nat)
    requires i < |a| && i < |b| && a[..i] == b[..i] && a[i] == b[i]
    ensures a[..i + 1] == b[..i + 1]
  {
    assert a[..i + 1] == a[..i] + [a[i]];
    assert b[..i + 1] == b[..i] + [b[i]];
  }

  /** One more step of the loop extends the prefixes on which the buffers
      agree with the specified level, power and cost series. */
  lemma SeriesGrow(env: Env, mode: Scenario, pump: seq<nat>, n: nat, i: nat,
                   level: seq<real>, power: seq<real>, cost: seq<real>)
    requires 1 <= i < n <= |pump| && |level| == |power| == |cost| == n
    requires level[..i] == Levels(env, mode, pump, n)[..i]
    requires power[..i] == Powers(env, pump, Levels(env, mode, pump, n), n)[..i]
    requires cost[..i] == RawCosts(env, Powers(env, pump, Levels(env, mode, pump, n), n), n)[..i]
    requires level[i] == NextLevel(env, mode, level[i - 1], PumpOn(pump[i]), StepTime(i))
    requires power[i] == PumpStep(env, PumpOn(pump[i]), level[i - 1], StepTime(i)).power
    requires cost[i] == cost[i - 1] + StepCost(env, power[i], i)
    ensures level[..i + 1] == Levels(env, mode, pump, n)[..i + 1]
    ensures level[i] == Levels(env, mode, pump, n)[i]
    ensures power[..i + 1] == Powers(env, pump, Levels(env, mode, pump, n), n)[..i + 1]
    ensures cost[..i + 1] == RawCosts(env, Powers(env, pump, Levels(env, mode, pump, n), n), n)[..i + 1]
  {
    var L := Levels(env, mode, pump, n);
    var P := Powers(env, pump, L, n);
    var C := RawCosts(env, P, n);
    LevelsStep(env, mode, pump, n, i);
    PowersAt(env, pump, L, n, i);
    RawCostsStep(env, P, n, i);
    assert level[i - 1] == level[..i][i - 1] == L[i - 1];
    assert cost[i - 1] == cost[..i][i - 1] == C[i - 1];
    PrefixGrows(level, L, i);
    PrefixGrows(power, P, i);
    PrefixGrows(cost, C, i);
  }

  /** Step i records its hour exactly when its level leaves the alarm band. */
  lemma ViolatedStep(level: seq<real>, i: nat)
    requires 1 <= i < |level|
    ensures ViolatedHours(level, i + 1) ==
            ViolatedHours(level, i) + (if OutOfAlarmBand(level[i]) then {Trunc(StepTime(i))} else {})
  {
  }

  class PumpOptimizer {
    /** The demand scenario ('max' or 'min'). */
    const mode: Scenario
    /** Number of pump cycles in a candidate vector. */
    const cycles: nat
    /** The time grid `arange(0, 24, 0.25)`. */
    const time: seq<real> := Grid()

    constructor(mode: Scenario, cycles: nat)
      ensures this.mode == mode && this.cycles == cycles
    {
      this.mode := mode;
      this.cycles := cycles;
    }

    /** The pump indicator: for every cycle of `zip(starts, durations)`, one
        is added at each grid time in [start, start + duration). */
    method PumpIndicator(starts: seq<real>, durations: seq<real>) returns (pump: seq<nat>)
      ensures pump == PumpSeries(Zip(starts, durations))
    {
      var cs := Zip(starts, durations);
      var bomba := new nat[|time|](_ => 0);
      for c := 0 to |cs|
        invariant forall k :: 0 <= k < bomba.Length ==> bomba[k] == CoverCount(cs[..c], StepTime(k))
      {
        assert cs[..c + 1][..c] == cs[..c];
        AddCycle(bomba, cs[c]);
      }
      assert cs[..|cs|] == cs;
      pump := bomba[..];
    }

    /** `bomba += ((tempo >= h) & (tempo < h + d))`: one more at every grid
        time the cycle covers, the other entries unchanged. */
    method AddCycle(bomba: array<nat>, cycle: Cycle)
      requires bomba.Length == |time|
      modifies bomba
      ensures forall k :: 0 <= k < bomba.Length ==>
                bomba[k] == old(bomba[k]) + (if Covers(cycle, StepTime(k)) then 1 else 0)
    {
      for k := 0 to bomba.Length
        invariant forall j :: 0 <= j < k ==> bomba[j] == old(bomba[j]) + (if Covers(cycle, StepTime(j)) then 1 else 0)
        invariant forall j :: k <= j < bomba.Length ==> bomba[j] == old(bomba[j])
      {
        if time[k] >= cycle.start && time[k] < cycle.start + cycle.duration {
          bomba[k] := bomba[k] + 1;
        }
      }
    }

    /** One simulation run: the pump indicator, the step loop, then the
        hours whose level left [2, 7] sorted and turned into the block
        penalty, which is added to every cost entry. */
    method Simulate(env: Env, starts: seq<real>, durations: seq<real>) returns (r: SimResult)
      ensures r == SimSpec(env, mode, starts, durations)
    {
      var bomba := PumpIndicator(starts, durations);
      var level, power, cost, violated := StepLoop(env, time, bomba);
      var hours := SortHours(violated);
      var penalty := BlockPenalty(hours);
      PenaltyOfListing(hours);
      AddPenalty(cost, penalty as real);
      r := SimResult(time, bomba, level[..], power[..], cost[..], mode);
      SimSpecIs(env, mode, starts, durations, r);
    }

    /** The step loop over the grid: from the initial level, each step
        computes the flow from the previous level, feeds the residential
        demand first and the tank with the rest, updates the level, records
        the hour when the new level leaves [2, 7] and accumulates the cost. */
    method StepLoop(env: Env, grid: seq<real>, pump: seq<nat>)
      returns (level: array<real>, power: array<real>, cost: array<real>, violated: set<int>)
      requires 1 <= |grid| == |pump|
      requires forall i :: 0 <= i < |grid| ==> grid[i] == StepTime(i)
      ensures fresh(level) && fresh(power) && fresh(cost)
      ensures cost != level && cost != power
      ensures level[..] == Levels(env, mode, pump, |grid|)
      ensures power[..] == Powers(env, pump, level[..], |grid|)
      ensures cost[..] == RawCosts(env, power[..], |grid|)
      ensures violated == ViolatedHours(level[..], |grid|)
    {
      var n := |grid|;
      level := new real[n](_ => 0.0);
      power := new real[n](_ => 0.0);
      cost := new real[n](_ => 0.0);
      level[0] := InitialLevel;
      violated := FillSteps(env, grid, pump, level, power, cost);
    }

    /** Steps 1 .. n-1 of the loop, on buffers whose entry 0 is seeded. */
    method FillSteps(env: Env, grid: seq<real>, pump: seq<nat>, level: array<real>, power: array<real>, cost: array<real>)
      returns (violated: set<int>)
      requires 1 <= |grid| == |pump| == level.Length == power.Length == cost.Length
      requires forall i :: 0 <= i < |grid| ==> grid[i] == StepTime(i)
      requires level != power && level != cost && power != cost
      requires level[0] == InitialLevel && power[0] == 0.0 && cost[0] == 0.0
      modifies level, power, cost
      ensures level[..] == Levels(env, mode, pump, |grid|)
      ensures power[..] == Powers(env, pump, level[..], |grid|)
      ensures cost[..] == RawCosts(env, power[..], |grid|)
      ensures violated == ViolatedHours(level[..], |grid|)
    {
      var n := |grid|;
      violated := {};
      ghost var L := Levels(env, mode, pump, n);
      ghost var P := Powers(env, pump, L, n);
      ghost var C := RawCosts(env, P, n);
      for i := 1 to n
        invariant level[..i] == L[..i]
        invariant power[..i] == P[..i]
        invariant cost[..i] == C[..i]
        invariant violated == ViolatedHours(L, i)
      {
        violated := Advance(env, pump, level, power, cost, i, grid[i], L, P, C, violated);
      }
      assert level[..] == level[..n] && power[..] == power[..n] && cost[..] == cost[..n];
    }

    /** One iteration of the step loop: step i is written, and its hour is
        added to the recorded set when the new level left [2, 7]. */
    method Advance(env: Env, pump: seq<nat>, level: array<real>, power: array<real>, cost: array<real>,
                   i: nat, t: real, ghost L: seq<real>, ghost P: seq<real>, ghost C: seq<real>, violated: set<int>)
      returns (recorded: set<int>)
      requires 1 <= i < level.Length == power.Length == cost.Length == |pump|
      requires level != power && level != cost && power != cost
      requires t == StepTime(i)
      requires L == Levels(env, mode, pump, |pump|)
      requires P == Powers(env, pump, L, |pump|)
      requires C == RawCosts(env, P, |pump|)
      requires level[..i] == L[..i] && power[..i] == P[..i] && cost[..i] == C[..i]
      requires violated == ViolatedHours(L, i)
      modifies level, power, cost
      ensures level[..i + 1] == L[..i + 1] && power[..i + 1] == P[..i + 1] && cost[..i + 1] == C[..i + 1]
      ensures level[i + 1..] == old(level[i + 1..]) && power[i + 1..] == old(power[i + 1..]) && cost[i + 1..] == old(cost[i + 1..])
      ensures recorded == ViolatedHours(L, i + 1)
    {
      var outOfBand := Step(env, pump, level, power, cost, i, t);
      SeriesGrow(env, mode, pump, |pump|, i, level[..], power[..], cost[..]);
      ViolatedStep(L, i);
      recorded := violated;
      if outOfBand {
        recorded := recorded + {Trunc(t)};
      }
    }

    /** Step i of the loop at time t: the flow from the previous level goes
        first to the residential demand and the rest to the tank; the level,
        the power and the cumulative cost of step i are written, and the
        result says whether the new level left [2, 7]. */
    method Step(env: Env, pump: seq<nat>, level: array<real>, power: array<real>, cost: array<real>, i: nat, t: real)
      returns (outOfBand: bool)
      requires 1 <= i < level.Length == power.Length == cost.Length == |pump|
      requires level != power && level != cost && power != cost
      requires t == StepTime(i)
      modifies level, power, cost
      ensures level[..i] == old(level[..i]) && power[..i] == old(power[..i]) && cost[..i] == old(cost[..i])
      ensures level[i + 1..] == old(level[i + 1..]) && power[i + 1..] == old(power[i + 1..]) && cost[i + 1..] == old(cost[i + 1..])
      ensures level[i] == NextLevel(env, mode, level[i - 1], PumpOn(pump[i]), t)
      ensures power[i] == PumpStep(env, PumpOn(pump[i]), level[i - 1], t).power
      ensures cost[i] == cost[i - 1] + StepCost(env, power[i], i)
      ensures outOfBand == OutOfAlarmBand(level[i])
    {
      var demand := TotalDemand(env, mode, t);
      var direct, toTank;
      if PumpOn(pump[i]) {
        var q := Flow(env, level[i - 1]);
        direct := if q <= env.residential(t) then q else env.residential(t);
        toTank := q - direct;
        power[i] := env.power(q);
      } else {
        direct, toTank := 0.0, 0.0;
        power[i] := 0.0;
      }
      var withdrawal := demand - direct;
      level[i] := level[i - 1] + (toTank - withdrawal) * StepHours / TankArea;
      outOfBand := level[i] < AlarmLow || level[i] > AlarmHigh;
      cost[i] := cost[i - 1] + StepCost(env, power[i], i);
    }

    /** func_objetivo: the first `cycles` coordinates are start times, the
        rest durations; the simulated run is scored by `ObjectiveOf`. */
    method Evaluate(env: Env, x: seq<real>) returns (score: Score)
      ensures score == ObjectiveOf(Some(SimSpec(env, mode, Decode(x, cycles).0, Decode(x, cycles).1)))
      ensures score.Finite?
    {
      var parts := Decode(x, cycles);
      var sim := Simulate(env, parts.0, parts.1);
      score := ObjectiveOf(Some(sim));
    }
  }
}
