/** What one simulation run of the pump scheduler computes, as functions.

    The day is cut into 96 steps of a quarter hour (step i is at time i/4).
    A schedule is a list of pump cycles (start, duration); the pump indicator
    counts the cycles covering each step.  The tank level and the cumulative
    cost are left-to-right folds seeded at step 0, and every step whose new
    level leaves the alarm band [2, 7] records its whole hour.  After the
    pass the penalty of the recorded hours is added to every cost entry.

    The demand curves, the root of the head balance, the pump's electrical
    power and the tariff interpolation are floating-point formulas or
    foreign numerical code; they enter as the fields of an `Env`. */
module Series {
  import opened Wrappers
  import opened PenaltyEngine

  /** Number of steps of the time grid `arange(0, 24, 0.25)`. */
  const Steps: nat := 96
  const StepsPerHour: nat := 4
  const Horizon: real := 24.0
  /** Step length in hours. */
  const StepHours: real := 0.25
  const InitialLevel: real := 4.0
  /** Tank cross-section (m^2). */
  const TankArea: real := 185.0
  /** The band whose exit records an hour: hard-coded 2 and 7 in the step loop. */
  const AlarmLow: real := 2.0
  const AlarmHigh: real := 7.0

  /** The demand scenario: the high or the low curve of the variable consumer class. */
  datatype Scenario = High | Low

  /** The numerical collaborators of the simulator, left uninterpreted. */
  datatype Env = Env(
    demandHigh: real -> real,     // high-demand curve of the variable class at time t
    demandLow: real -> real,      // low-demand curve of the variable class at time t
    residential: real -> real,    // residential demand at time t
    solve: real -> Option<real>,  // root of the head balance for a tank level; None when the solver raises
    power: real -> real,          // electrical power (kW) drawn at flow Q
    tariff: real -> real)         // energy price at time of day t in [0, 24)

  /** One pump cycle: ON on the half-open interval [start, start + duration). */
  datatype Cycle = Cycle(start: real, duration: real)

  /** The series returned by one simulation run. */
  datatype SimResult = SimResult(
    time: seq<real>,
    pump: seq<nat>,
    level: seq<real>,
    power: seq<real>,
    cost: seq<real>,
    mode: Scenario)

  /** Time (hours) of step i. */
  function StepTime(i: int): real {
    i as real * StepHours
  }

  /** The time grid `arange(0, 24, 0.25)`: entry i is the time of step i. */
  function Grid(): (g: seq<real>)
    ensures |g| == Steps
    ensures forall i :: 0 <= i < Steps ==> g[i] == StepTime(i)
  {
    seq(Steps, i => StepTime(i))
  }

  /** The grid has the shape `arange` promises: it starts at 0, advances by
      the step, and its last entry is the last one below 24. */
  lemma GridIsArange(i: nat)
    requires 1 <= i < Steps
    ensures Grid()[i] == Grid()[i - 1] + StepHours
  {
  }

  /** The grid starts at 0 and stops at the last step below the 24-hour horizon. */
  lemma GridEnds()
    ensures Grid()[0] == 0.0
    ensures Grid()[Steps - 1] < Horizon <= Grid()[Steps - 1] + StepHours
  {
  }

  /** Python's `int(x)` on a float: truncation toward zero. */
  function Trunc(x: real): (n: int)
    ensures 0.0 <= x ==> 0 <= n && n as real <= x < n as real + 1.0
    ensures x < 0.0 ==> n <= 0 && n as real - 1.0 < x <= n as real
  {
    if x >= 0.0 then x.Floor else -((-x).Floor)
  }

  /** Python's `x % m` on floats for a positive modulus (the result has the sign of m). */
  function PyMod(x: real, m: real): (r: real)
    requires m > 0.0
    ensures 0.0 <= r < m
    ensures 0.0 <= x < m ==> r == x
  {
    FloorQuotient(x, m);
    x - m * (x / m).Floor as real
  }

  /** m * floor(x / m) is the greatest multiple of m not above x. */
  lemma FloorQuotient(x: real, m: real)
    requires m > 0.0
    ensures m * (x / m).Floor as real <= x < m * (x / m).Floor as real + m
    ensures 0.0 <= x < m ==> (x / m).Floor == 0
  {
    var q := x / m;
    var f := q.Floor as real;
    ScaleBetween(m, f, q, x);
    if 0.0 <= x < m {
      ScaleBetween(m, 0.0, q, x);
    }
  }

  /** For a positive scale m and x == m * q: f <= q < f + 1 exactly when m * f <= x < m * f + m. */
  lemma ScaleBetween(m: real, f: real, q: real, x: real)
    requires m > 0.0 && x == m * q
    ensures f <= q < f + 1.0 <==> m * f <= x < m * f + m
  {
    var below, above := q - f, f + 1.0 - q;
    assert m * below == x - m * f;
    assert m * above == m * f + m - x;
    ScaledSign(m, below);
    ScaledSign(m, above);
  }

  /** Scaling by a positive factor keeps the sign. */
  lemma ScaledSign(m: real, d: real)
    requires m > 0.0
    ensures d >= 0.0 <==> m * d >= 0.0
    ensures d > 0.0 <==> m * d > 0.0
  {
    if d > 0.0 {
      assert m * d > 0.0;
    } else if d < 0.0 {
      assert m * -d > 0.0;
    }
  }

  /** The whole hour recorded for step i is i div 4. */
  lemma HourOfStep(i: nat)
    ensures Trunc(StepTime(i)) == i / StepsPerHour
    ensures i < Steps ==> 0 <= Trunc(StepTime(i)) < 24
  {
    var q, r := i / 4, i % 4;
    assert i == 4 * q + r;
    assert StepTime(i) == q as real + r as real * 0.25;
    assert q as real <= StepTime(i) < q as real + 1.0;
  }

  /** zip(starts, durations): pairs up to the shorter of the two lists. */
  function Zip(starts: seq<real>, durations: seq<real>): (cs: seq<Cycle>)
    ensures |cs| <= |starts| && |cs| <= |durations|
    ensures |cs| == |starts| || |cs| == |durations|
    ensures forall c :: 0 <= c < |cs| ==> cs[c].start == starts[c] && cs[c].duration == durations[c]
  {
    var n := if |starts| <= |durations| then |starts| else |durations|;
    seq(n, c requires 0 <= c < n => Cycle(starts[c], durations[c]))
  }

  predicate Covers(c: Cycle, t: real) {
    c.start <= t && t < c.start + c.duration
  }

  /** Number of cycles covering time t (the value of the pump indicator). */
  function CoverCount(cs: seq<Cycle>, t: real): (n: nat)
    ensures n <= |cs|
  {
    if cs == [] then 0
    else CoverCount(cs[..|cs| - 1], t) + (if Covers(cs[|cs| - 1], t) then 1 else 0)
  }

  /** The pump indicator over the whole grid. */
  function PumpSeries(cs: seq<Cycle>): (p: seq<nat>)
    ensures |p| == Steps
  {
    seq(Steps, i => CoverCount(cs, StepTime(i)))
  }

  /** The step loop's test `bomba[i] > 0.5`: on a count, at least one cycle. */
  predicate PumpOn(count: nat)
    ensures PumpOn(count) <==> count >= 1
  {
    count as real > 0.5
  }

  /** The pump is ON at time t exactly when some cycle covers t. */
  lemma {:induction false} PumpOnIffCovered(cs: seq<Cycle>, t: real)
    ensures PumpOn(CoverCount(cs, t)) <==> exists c :: 0 <= c < |cs| && Covers(cs[c], t)
  {
    if cs != [] {
      var init := cs[..|cs| - 1];
      PumpOnIffCovered(init, t);
      if exists c :: 0 <= c < |init| && Covers(init[c], t) {
        var c :| 0 <= c < |init| && Covers(init[c], t);
        assert cs[c] == init[c];
      }
      if exists c :: 0 <= c < |cs| && Covers(cs[c], t) {
        var c :| 0 <= c < |cs| && Covers(cs[c], t);
        if c < |cs| - 1 {
          assert init[c] == cs[c];
        }
      }
    }
  }

  lemma {:induction false} CoverCountAppend(a: seq<Cycle>, b: seq<Cycle>, t: real)
    ensures CoverCount(a + b, t) == CoverCount(a, t) + CoverCount(b, t)
    decreases |b|
  {
    if b == [] {
      assert a + b == a;
    } else {
      assert (a + b)[..|a + b| - 1] == a + b[..|b| - 1];
      CoverCountAppend(a, b[..|b| - 1], t);
    }
  }

  /** The indicator does not depend on the order in which the cycles are listed. */
  lemma {:induction false} CoverCountPermutation(a: seq<Cycle>, b: seq<Cycle>, t: real)
    requires multiset(a) == multiset(b)
    ensures CoverCount(a, t) == CoverCount(b, t)
    decreases |a|
  {
    if a == [] {
      assert |b| == |multiset(b)| == 0;
    } else {
      var x := a[|a| - 1];
      var init := a[..|a| - 1];
      assert a == init + [x];
      assert multiset(init) == multiset(a) - multiset{x};
      assert x in multiset(b);
      var k :| 0 <= k < |b| && b[k] == x;
      MultisetRemoveAt(b, k);
      CoverCountRemoveAt(b, k, t);
      CoverCountPermutation(init, b[..k] + b[k + 1..], t);
    }
  }

  /** Removing entry k takes exactly that element out of the multiset. */
  lemma MultisetRemoveAt(b: seq<Cycle>, k: nat)
    requires k < |b|
    ensures multiset(b[..k] + b[k + 1..]) == multiset(b) - multiset{b[k]}
  {
    assert b == b[..k] + [b[k]] + b[k + 1..];
    assert multiset(b) == multiset(b[..k]) + multiset{b[k]} + multiset(b[k + 1..]);
  }

  /** Removing entry k lowers the count by one exactly when that cycle covers t. */
  lemma CoverCountRemoveAt(b: seq<Cycle>, k: nat, t: real)
    requires k < |b|
    ensures CoverCount(b, t) == CoverCount(b[..k] + b[k + 1..], t) + (if Covers(b[k], t) then 1 else 0)
  {
    assert b == (b[..k] + [b[k]]) + b[k + 1..];
    CoverCountAppend(b[..k] + [b[k]], b[k + 1..], t);
    CoverCountAppend(b[..k], [b[k]], t);
    CoverCountAppend(b[..k], b[k + 1..], t);
    assert [b[k]][..0] == [];
  }

  /** calcular_vazao: the solver's root clamped at 0, and 0 when the solver raises. */
  function Flow(env: Env, level: real): (q: real)
    ensures q >= 0.0
    ensures q > 0.0 ==> env.solve(level) == Some(q)
    ensures env.solve(level).Some? && env.solve(level).value >= 0.0 ==> q == env.solve(level).value
  {
    match env.solve(level)
    case None => 0.0
    case Some(root) => if 0.0 >= root then 0.0 else root
  }

  /** Total demand of the chosen scenario: variable-class curve plus residential curve. */
  function TotalDemand(env: Env, mode: Scenario, t: real): (d: real)
    ensures mode == High ==> d == env.demandHigh(t) + env.residential(t)
    ensures mode == Low ==> d == env.demandLow(t) + env.residential(t)
  {
    (if mode == High then env.demandHigh(t) else env.demandLow(t)) + env.residential(t)
  }

  /** What the pump does during one step. */
  datatype StepFlow = StepFlow(direct: real, toTank: real, power: real)

  /** One step of the pump: when ON, the flow goes first to the residential
      demand (up to the flow) and the rest to the tank; when OFF, nothing. */
  function PumpStep(env: Env, on: bool, prevLevel: real, t: real): (s: StepFlow)
    ensures !on ==> s.direct == 0.0 && s.toTank == 0.0 && s.power == 0.0
    ensures on ==> s.direct + s.toTank == Flow(env, prevLevel)
    ensures on ==> s.direct <= Flow(env, prevLevel) && s.direct <= env.residential(t)
    ensures on ==> (s.direct == Flow(env, prevLevel) || s.direct == env.residential(t))
    ensures on ==> s.power == env.power(Flow(env, prevLevel))
  {
    if on then
      var q := Flow(env, prevLevel);
      var direct := if q <= env.residential(t) then q else env.residential(t);
      StepFlow(direct, q - direct, env.power(q))
    else
      StepFlow(0.0, 0.0, 0.0)
  }

  /** The level after one step.  The direct supply cancels out: the level
      moves by (flow - total demand) * 0.25 / 185 when the pump is ON and by
      -total demand * 0.25 / 185 when it is OFF. */
  function NextLevel(env: Env, mode: Scenario, prevLevel: real, on: bool, t: real): (l: real)
    ensures on ==> l == prevLevel + (Flow(env, prevLevel) - TotalDemand(env, mode, t)) * StepHours / TankArea
    ensures !on ==> l == prevLevel - TotalDemand(env, mode, t) * StepHours / TankArea
  {
    var s := PumpStep(env, on, prevLevel, t);
    var withdrawal := TotalDemand(env, mode, t) - s.direct;
    prevLevel + (s.toTank - withdrawal) * StepHours / TankArea
  }

  /** The first n entries of the level series: seeded with the initial
      level, each next entry computed from the previous one. */
  function Levels(env: Env, mode: Scenario, pump: seq<nat>, n: nat): (ls: seq<real>)
    requires 1 <= n <= |pump|
    ensures |ls| == n && ls[0] == InitialLevel
    decreases n
  {
    if n == 1 then [InitialLevel]
    else
      var prev := Levels(env, mode, pump, n - 1);
      prev + [NextLevel(env, mode, prev[n - 2], PumpOn(pump[n - 1]), StepTime(n - 1))]
  }

  /** The first n entries of the power series; entry 0 is never written. */
  function Powers(env: Env, pump: seq<nat>, level: seq<real>, n: nat): (ps: seq<real>)
    requires 1 <= n <= |pump| && n <= |level|
    ensures |ps| == n && ps[0] == 0.0
    decreases n
  {
    if n == 1 then [0.0]
    else Powers(env, pump, level, n - 1) + [PumpStep(env, PumpOn(pump[n - 1]), level[n - 2], StepTime(n - 1)).power]
  }

  /** Price of step i: the tariff at `t % 24`. */
  function StepPrice(env: Env, i: int): (p: real)
    ensures 0 <= i < Steps ==> p == env.tariff(StepTime(i))
  {
    env.tariff(PyMod(StepTime(i), Horizon))
  }

  /** Cost of step i: its power times its price times the step length. */
  function StepCost(env: Env, power: real, i: int): (c: real)
    ensures power == 0.0 ==> c == 0.0
    ensures 0 <= i < Steps ==> c == power * env.tariff(StepTime(i)) * StepHours
  {
    power * StepPrice(env, i) * StepHours
  }

  /** The first n entries of the cost series before the penalty: seeded with 0. */
  function RawCosts(env: Env, power: seq<real>, n: nat): (cs: seq<real>)
    requires 1 <= n <= |power|
    ensures |cs| == n && cs[0] == 0.0
    decreases n
  {
    if n == 1 then [0.0]
    else
      var prev := RawCosts(env, power, n - 1);
      prev + [prev[n - 2] + StepCost(env, power[n - 1], n - 1)]
  }

  /** The step loop's test: the new level is below 2 or above 7. */
  predicate OutOfAlarmBand(level: real)
    ensures !OutOfAlarmBand(level) <==> AlarmLow <= level <= AlarmHigh
  {
    level < AlarmLow || level > AlarmHigh
  }

  /** The hours recorded by steps 1 .. n-1. */
  function ViolatedHours(level: seq<real>, n: nat): (hours: set<int>)
    requires n <= |level|
    ensures hours == {} <==> forall j :: 1 <= j < n ==> !OutOfAlarmBand(level[j])
  {
    if n <= 1 then {}
    else ViolatedHours(level, n - 1) + (if OutOfAlarmBand(level[n - 1]) then {Trunc(StepTime(n - 1))} else {})
  }

  /** An hour is recorded exactly when some step 1 .. n-1 in it leaves the alarm band. */
  lemma {:induction false} ViolatedHoursIff(level: seq<real>, n: nat, h: int)
    requires n <= |level|
    ensures h in ViolatedHours(level, n) <==>
            exists j :: 1 <= j < n && OutOfAlarmBand(level[j]) && Trunc(StepTime(j)) == h
  {
    if n > 1 {
      ViolatedHoursIff(level, n - 1, h);
    }
  }

  /** Every recorded hour is a whole hour of the day. */
  lemma ViolatedHoursInDay(level: seq<real>, n: nat)
    requires n <= |level| && n <= Steps
    ensures forall h :: h in ViolatedHours(level, n) ==> 0 <= h < 24
  {
    forall h | h in ViolatedHours(level, n) ensures 0 <= h < 24 {
      ViolatedHoursIff(level, n, h);
      var j :| 1 <= j < n && OutOfAlarmBand(level[j]) && Trunc(StepTime(j)) == h;
      HourOfStep(j);
    }
  }

  /** `custo += penalidade_total`: the penalty added to every entry. */
  function Shift(cs: seq<real>, penalty: real): (r: seq<real>)
    ensures |r| == |cs|
  {
    seq(|cs|, i requires 0 <= i < |cs| => cs[i] + penalty)
  }

  /** Adding the penalty uniformly keeps every difference between two cost
      entries and moves each entry by exactly the penalty. */
  lemma ShiftKeepsDifferences(cs: seq<real>, penalty: real, i: nat, j: nat)
    requires i < |cs| && j < |cs|
    ensures Shift(cs, penalty)[i] - Shift(cs, penalty)[j] == cs[i] - cs[j]
    ensures Shift(cs, penalty)[i] - cs[i] == penalty
  {
  }

  /** The whole run, as the simulator computes it. */
  ghost function SimSpec(env: Env, mode: Scenario, starts: seq<real>, durations: seq<real>): (r: SimResult)
    ensures |r.time| == |r.pump| == |r.level| == |r.power| == |r.cost| == Steps
  {
    var pump := PumpSeries(Zip(starts, durations));
    var level := Levels(env, mode, pump, Steps);
    var power := Powers(env, pump, level, Steps);
    var raw := RawCosts(env, power, Steps);
    var penalty := HoursPenalty(ViolatedHours(level, Steps));
    SimResult(Grid(), pump, level, power, Shift(raw, penalty as real), mode)
  }

  /** A result built from the pump, level, power and penalised cost series
      of a schedule is the specified run. */
  lemma SimSpecIs(env: Env, mode: Scenario, starts: seq<real>, durations: seq<real>, r: SimResult)
    requires r.time == Grid() && r.mode == mode
    requires r.pump == PumpSeries(Zip(starts, durations))
    requires r.level == Levels(env, mode, r.pump, Steps)
    requires r.power == Powers(env, r.pump, r.level, Steps)
    requires r.cost == Shift(RawCosts(env, r.power, Steps), HoursPenalty(ViolatedHours(r.level, Steps)) as real)
    ensures r == SimSpec(env, mode, starts, durations)
  {
  }

  /** Entries of the level series are never revisited: a shorter run is a prefix of a longer one. */
  lemma {:induction false} LevelsPrefix(env: Env, mode: Scenario, pump: seq<nat>, m: nat, n: nat)
    requires 1 <= m <= n <= |pump|
    ensures Levels(env, mode, pump, n)[..m] == Levels(env, mode, pump, m)
    decreases n
  {
    if m < n {
      LevelsPrefix(env, mode, pump, m, n - 1);
      assert Levels(env, mode, pump, n)[..n - 1] == Levels(env, mode, pump, n - 1);
    }
  }

  /** The level series is a fold: entry 0 is the initial level and entry i
      depends only on entry i-1, the pump state at step i and time i/4. */
  lemma LevelsStep(env: Env, mode: Scenario, pump: seq<nat>, n: nat, i: nat)
    requires 1 <= i < n <= |pump|
    ensures Levels(env, mode, pump, n)[0] == InitialLevel
    ensures Levels(env, mode, pump, n)[i] ==
            NextLevel(env, mode, Levels(env, mode, pump, n)[i - 1], PumpOn(pump[i]), StepTime(i))
  {
    LevelsPrefix(env, mode, pump, i + 1, n);
    assert Levels(env, mode, pump, n)[..i + 1][i] == Levels(env, mode, pump, n)[i];
    assert Levels(env, mode, pump, n)[..i + 1][i - 1] == Levels(env, mode, pump, n)[i - 1];
  }

  lemma {:induction false} RawCostsPrefix(env: Env, power: seq<real>, m: nat, n: nat)
    requires 1 <= m <= n <= |power|
    ensures RawCosts(env, power, n)[..m] == RawCosts(env, power, m)
    decreases n
  {
    if m < n {
      RawCostsPrefix(env, power, m, n - 1);
      assert RawCosts(env, power, n)[..n - 1] == RawCosts(env, power, n - 1);
    }
  }

  /** A run is seeded at step 0: the level is the initial 4.0 and the cost
      is the penalty alone (0 before it is added), at least 5 per recorded hour. */
  lemma SimulationSeeded(env: Env, mode: Scenario, starts: seq<real>, durations: seq<real>)
    ensures var r := SimSpec(env, mode, starts, durations);
      && r.level[0] == InitialLevel
      && r.cost[0] == HoursPenalty(ViolatedHours(r.level, Steps)) as real
      && r.cost[0] >= (BasePenalty * |ViolatedHours(r.level, Steps)|) as real
  {
    var pump := PumpSeries(Zip(starts, durations));
    var level := Levels(env, mode, pump, Steps);
    var power := Powers(env, pump, level, Steps);
    var raw := RawCosts(env, power, Steps);
    var penalty := HoursPenalty(ViolatedHours(level, Steps));
    SimSpecCost(env, mode, starts, durations);
    ShiftKeepsDifferences(raw, penalty as real, 0, 0);
  }

  /** A run whose levels never leave the alarm band reports its raw cost
      series unchanged: the penalty added is 0. */
  lemma NoViolationNoPenalty(env: Env, mode: Scenario, starts: seq<real>, durations: seq<real>)
    requires ViolatedHours(SimSpec(env, mode, starts, durations).level, Steps) == {}
    ensures SimSpec(env, mode, starts, durations).cost == RawCosts(env, SimSpec(env, mode, starts, durations).power, Steps)
  {
    var pump := PumpSeries(Zip(starts, durations));
    var level := Levels(env, mode, pump, Steps);
    var power := Powers(env, pump, level, Steps);
    SimSpecCost(env, mode, starts, durations);
    NoPenaltyShift(RawCosts(env, power, Steps), ViolatedHours(level, Steps));
  }

  lemma NoPenaltyShift(cs: seq<real>, hours: set<int>)
    requires hours == {}
    ensures Shift(cs, HoursPenalty(hours) as real) == cs
  {
  }

  /** The penalty does not change the cost increments: from step i-1 to i the
      reported cost grows by exactly power * price * 0.25 (`StepCost`). */
  lemma CostIncrement(env: Env, mode: Scenario, starts: seq<real>, durations: seq<real>, i: nat)
    requires 1 <= i < Steps
    ensures SimSpec(env, mode, starts, durations).cost[i] - SimSpec(env, mode, starts, durations).cost[i - 1]
            == StepCost(env, SimSpec(env, mode, starts, durations).power[i], i)
  {
    var pump := PumpSeries(Zip(starts, durations));
    var level := Levels(env, mode, pump, Steps);
    var power := Powers(env, pump, level, Steps);
    var penalty := HoursPenalty(ViolatedHours(level, Steps));
    SimSpecCost(env, mode, starts, durations);
    ShiftedCostStep(env, power, penalty as real, i);
  }

  lemma SimSpecCost(env: Env, mode: Scenario, starts: seq<real>, durations: seq<real>)
    ensures var pump := PumpSeries(Zip(starts, durations));
      var level := Levels(env, mode, pump, Steps);
      var power := Powers(env, pump, level, Steps);
      var penalty := HoursPenalty(ViolatedHours(level, Steps));
      && SimSpec(env, mode, starts, durations).cost == Shift(RawCosts(env, power, Steps), penalty as real)
      && SimSpec(env, mode, starts, durations).power == power
      && SimSpec(env, mode, starts, durations).level == level
  {
  }

  lemma ShiftedCostStep(env: Env, power: seq<real>, penalty: real, i: nat)
    requires 1 <= i < |power|
    ensures Shift(RawCosts(env, power, |power|), penalty)[i] - Shift(RawCosts(env, power, |power|), penalty)[i - 1]
            == StepCost(env, power[i], i)
  {
    RawCostsStep(env, power, |power|, i);
    ShiftKeepsDifferences(RawCosts(env, power, |power|), penalty, i, i - 1);
  }

  lemma RawCostsStep(env: Env, power: seq<real>, n: nat, i: nat)
    requires 1 <= i < n <= |power|
    ensures RawCosts(env, power, n)[i] == RawCosts(env, power, n)[i - 1] + StepCost(env, power[i], i)
  {
    var raw := RawCosts(env, power, n);
    RawCostsPrefix(env, power, i + 1, n);
    assert raw[..i + 1][i] == raw[i] && raw[..i + 1][i - 1] == raw[i - 1];
  }

  /** A pump that is OFF at step i draws no power, and the level falls by the demand alone. */
  lemma PumpOffStep(env: Env, mode: Scenario, starts: seq<real>, durations: seq<real>, i: nat)
    requires 1 <= i < Steps
    requires !PumpOn(SimSpec(env, mode, starts, durations).pump[i])
    ensures SimSpec(env, mode, starts, durations).power[i] == 0.0
    ensures SimSpec(env, mode, starts, durations).level[i] ==
            SimSpec(env, mode, starts, durations).level[i - 1] - TotalDemand(env, mode, StepTime(i)) * StepHours / TankArea
  {
    var pump := PumpSeries(Zip(starts, durations));
    var level := Levels(env, mode, pump, Steps);
    LevelsStep(env, mode, pump, Steps, i);
    PowersAt(env, pump, level, Steps, i);
  }

  lemma {:induction false} PowersAt(env: Env, pump: seq<nat>, level: seq<real>, n: nat, i: nat)
    requires 1 <= i < n <= |pump| && n <= |level|
    ensures Powers(env, pump, level, n)[i] == PumpStep(env, PumpOn(pump[i]), level[i - 1], StepTime(i)).power
    decreases n
  {
    if i < n - 1 {
      PowersAt(env, pump, level, n - 1, i);
    }
  }

  /** Listing the same cycles in another order gives the same run. */
  lemma ScheduleOrderIrrelevant(env: Env, mode: Scenario, starts1: seq<real>, durations1: seq<real>,
                                starts2: seq<real>, durations2: seq<real>)
    requires multiset(Zip(starts1, durations1)) == multiset(Zip(starts2, durations2))
    ensures SimSpec(env, mode, starts1, durations1) == SimSpec(env, mode, starts2, durations2)
  {
    var p1 := PumpSeries(Zip(starts1, durations1));
    var p2 := PumpSeries(Zip(starts2, durations2));
    forall i | 0 <= i < Steps ensures p1[i] == p2[i] {
      CoverCountPermutation(Zip(starts1, durations1), Zip(starts2, durations2), StepTime(i));
    }
    assert p1 == p2;
  }
}
