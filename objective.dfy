/** The objective the optimiser minimises: a flat vector of start times and
    durations is decoded into a schedule, the schedule is simulated, and the
    terminal cost is increased by quadratic penalties for levels outside the
    configured band [0.0, 9.0] and for a terminal level that differs from the
    initial one.  A run without a result scores as the worst value. */
module ObjectiveFunction {
  import opened Wrappers
  import opened PenaltyEngine
  import opened Series

  /** The configured level band (not the 2 / 7 band of the step loop). */
  const LevelFloor: real := 0.0
  const LevelCeiling: real := 9.0
  /** Weight of every quadratic penalty. */
  const Weight: real := 1000.0

  /** The score of a candidate: `Worst` stands for `float('inf')`. */
  datatype Score = Worst | Finite(value: real)

  /** `x[:n]` and `x[n:]`: the first n coordinates are start times, the rest durations. */
  function Decode(x: seq<real>, n: nat): (p: (seq<real>, seq<real>))
    ensures p.0 + p.1 == x
    ensures |p.0| == if n <= |x| then n else |x|
  {
    if n <= |x| then (x[..n], x[n..]) else (x, [])
  }

  /** Decoding the concatenation of n start times and their durations gives them back. */
  lemma DecodeEncode(starts: seq<real>, durations: seq<real>)
    ensures Decode(starts + durations, |starts|) == (starts, durations)
  {
    assert (starts + durations)[..|starts|] == starts;
    assert (starts + durations)[|starts|..] == durations;
  }

  /** `np.min` of a non-empty series. */
  function SeqMin(s: seq<real>): (m: real)
    requires |s| > 0
    ensures m in s
    ensures forall i :: 0 <= i < |s| ==> m <= s[i]
  {
    if |s| == 1 then s[0]
    else
      var m := SeqMin(s[..|s| - 1]);
      if s[|s| - 1] < m then s[|s| - 1] else m
  }

  /** `np.max` of a non-empty series. */
  function SeqMax(s: seq<real>): (m: real)
    requires |s| > 0
    ensures m in s
    ensures forall i :: 0 <= i < |s| ==> s[i] <= m
  {
    if |s| == 1 then s[0]
    else
      var m := SeqMax(s[..|s| - 1]);
      if s[|s| - 1] > m then s[|s| - 1] else m
  }

  /** A product of reals, with the signs the penalties rely on. */
  function Mul(a: real, b: real): (r: real)
    ensures a > 0.0 && b > 0.0 ==> r > 0.0
    ensures a >= 0.0 && b >= 0.0 ==> r >= 0.0
  {
    a * b
  }

  /** `x ** 2`: never negative, and zero only at zero. */
  function Square(x: real): (r: real)
    ensures r >= 0.0
    ensures x != 0.0 ==> r > 0.0
    ensures r == x * x
  {
    if x < 0.0 then Mul(-x, -x) else Mul(x, x)
  }

  predicate WithinBand(level: seq<real>) {
    forall i :: 0 <= i < |level| ==> LevelFloor <= level[i] <= LevelCeiling
  }

  function Last(s: seq<real>): real
    requires |s| > 0
  {
    s[|s| - 1]
  }

  /** The periodicity term, added whatever the difference is. */
  function TerminalPenalty(level: seq<real>): (p: real)
    requires |level| > 0
    ensures p >= 0.0
    ensures p == 0.0 <==> Last(level) == level[0]
  {
    Weight * Square(Last(level) - level[0])
  }

  /** `1000 * (0.0 - min)**2` when the lowest level is below the floor. */
  function BelowPenalty(level: seq<real>): (p: real)
    requires |level| > 0
    ensures p >= 0.0
    ensures p > 0.0 <==> exists i :: 0 <= i < |level| && level[i] < LevelFloor
  {
    var lo := SeqMin(level);
    if lo < LevelFloor then Weight * Square(LevelFloor - lo) else 0.0
  }

  /** `1000 * (max - 9.0)**2` when the highest level is above the ceiling. */
  function AbovePenalty(level: seq<real>): (p: real)
    requires |level| > 0
    ensures p >= 0.0
    ensures p > 0.0 <==> exists i :: 0 <= i < |level| && level[i] > LevelCeiling
  {
    var hi := SeqMax(level);
    if hi > LevelCeiling then Weight * Square(hi - LevelCeiling) else 0.0
  }

  /** The score of a simulation result.  No result scores `Worst`; otherwise
      the score is the terminal cost plus the periodicity term, plus a
      strictly positive excess term exactly when some level leaves [0, 9],
      and that excess term is the quadratic one of the lowest (highest) level. */
  function ObjectiveOf(sim: Option<SimResult>): (r: Score)
    requires sim.Some? ==> |sim.value.level| > 0 && |sim.value.cost| > 0
    ensures r.Worst? <==> sim.None?
    ensures sim.Some? ==>
      r.value == Last(sim.value.cost)
                 + (if SeqMin(sim.value.level) < LevelFloor then Weight * Square(LevelFloor - SeqMin(sim.value.level)) else 0.0)
                 + (if SeqMax(sim.value.level) > LevelCeiling then Weight * Square(SeqMax(sim.value.level) - LevelCeiling) else 0.0)
                 + TerminalPenalty(sim.value.level)
    ensures sim.Some? ==> r.value >= Last(sim.value.cost) + TerminalPenalty(sim.value.level)
    ensures sim.Some? ==>
      (r.value == Last(sim.value.cost) + TerminalPenalty(sim.value.level) <==> WithinBand(sim.value.level))
    ensures sim.Some? && SeqMin(sim.value.level) < LevelFloor ==>
      r.value >= Last(sim.value.cost) + TerminalPenalty(sim.value.level)
                 + Weight * Square(LevelFloor - SeqMin(sim.value.level))
    ensures sim.Some? && SeqMax(sim.value.level) > LevelCeiling ==>
      r.value >= Last(sim.value.cost) + TerminalPenalty(sim.value.level)
                 + Weight * Square(SeqMax(sim.value.level) - LevelCeiling)
  {
    match sim
    case None => Worst
    case Some(s) =>
      ExcessPenalties(s.level);
      Finite(Last(s.cost) + BelowPenalty(s.level) + AbovePenalty(s.level) + TerminalPenalty(s.level))
  }

  /** The two excess terms are never negative, and both vanish exactly when
      every level lies in [0, 9]. */
  lemma ExcessPenalties(level: seq<real>)
    requires |level| > 0
    ensures BelowPenalty(level) >= 0.0 && AbovePenalty(level) >= 0.0
    ensures BelowPenalty(level) + AbovePenalty(level) == 0.0 <==> WithinBand(level)
  {
    var lo := SeqMin(level);
    var hi := SeqMax(level);
    if WithinBand(level) {
      assert lo in level && hi in level;
    }
  }

  /** A run that stays in the band and ends where it started scores its terminal cost. */
  lemma SteadyRunScoresItsCost(sim: SimResult)
    requires |sim.level| > 0 && |sim.cost| > 0
    requires WithinBand(sim.level) && Last(sim.level) == sim.level[0]
    ensures ObjectiveOf(Some(sim)) == Finite(Last(sim.cost))
  {
    assert TerminalPenalty(sim.level) == 0.0;
  }

  /** When the reported cost is a raw cost series shifted by a penalty (as
      the simulator reports it), the score is at least the terminal raw
      cost plus that penalty. */
  lemma ScoreIncludesPenalty(sim: SimResult, raw: seq<real>, penalty: nat)
    requires |sim.level| > 0 && |raw| > 0
    requires sim.cost == Shift(raw, penalty as real)
    ensures ObjectiveOf(Some(sim)).value >= raw[|raw| - 1] + penalty as real
  {
    ShiftKeepsDifferences(raw, penalty as real, |raw| - 1, |raw| - 1);
  }
}
