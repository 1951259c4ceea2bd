/** The violation-run penalty engine of the pump scheduler.

    The whole hours in which the tank level left the alarm band are sorted,
    cut into maximal runs of consecutive hours, and a run of k hours costs
    5 * (1 + 2 + ... + k).  The specification reads a list of hours left to
    right: every hour costs 5 times its position inside the run it closes
    (`TailRun`), so a run of k hours costs 5 + 10 + ... + 5k. */
module PenaltyEngine {

  /** Penalty per position inside a run (currency units). */
  const BasePenalty: nat := 5

  /** The elements of a list of hours, as a set. */
  function Elems(s: seq<int>): set<int> {
    set x | x in s
  }

  predicate StrictlyIncreasing(s: seq<int>) {
    forall i, j :: 0 <= i < j < |s| ==> s[i] < s[j]
  }

  /** The hours first, first+1, ..., first+k-1. */
  function Consecutive(first: int, k: nat): (s: seq<int>)
    ensures |s| == k
    ensures forall i :: 0 <= i < k ==> s[i] == first + i
  {
    seq(k, i => first + i)
  }

  /** Cost of one run of k hours: the sum of 5 * (i + 1) for i in 0 .. k-1. */
  function RunCost(k: nat): (r: nat)
    ensures r >= BasePenalty * k
    ensures r == 0 <==> k == 0
  {
    if k == 0 then 0 else RunCost(k - 1) + BasePenalty * k
  }

  /** Length of the run of consecutive integers that ends the list: the
      position of the last hour inside its run. */
  function TailRun(s: seq<int>): (r: nat)
    ensures r <= |s|
    ensures r == 0 <==> s == []
  {
    if |s| == 0 then 0
    else if |s| == 1 || s[|s| - 1] != s[|s| - 2] + 1 then 1
    else TailRun(s[..|s| - 1]) + 1
  }

  /** Penalty of a list of hours: each hour costs 5 times its position in its run. */
  function ListPenalty(s: seq<int>): (r: nat)
    ensures r >= BasePenalty * |s|
    ensures r == 0 <==> s == []
  {
    if s == [] then 0 else ListPenalty(s[..|s| - 1]) + BasePenalty * TailRun(s)
  }

  /** A run of k hours costs 5 * k * (k + 1) / 2. */
  lemma {:induction false} RunCostClosedForm(k: nat)
    ensures 2 * RunCost(k) == BasePenalty * k * (k + 1)
    ensures RunCost(k) == BasePenalty * k * (k + 1) / 2
  {
    if k > 0 {
      RunCostClosedForm(k - 1);
      assert BasePenalty * (k - 1) * k + 2 * BasePenalty * k == BasePenalty * k * (k + 1);
    }
  }

  lemma {:induction false} TailRunOfConsecutive(first: int, k: nat)
    ensures TailRun(Consecutive(first, k)) == k
  {
    if k > 1 {
      assert Consecutive(first, k)[..k - 1] == Consecutive(first, k - 1);
      TailRunOfConsecutive(first, k - 1);
    }
  }

  /** A single maximal run of k consecutive hours costs 5 * (1 + ... + k). */
  lemma {:induction false} ConsecutiveRunPenalty(first: int, k: nat)
    ensures ListPenalty(Consecutive(first, k)) == RunCost(k) == BasePenalty * k * (k + 1) / 2
  {
    RunCostClosedForm(k);
    if k > 0 {
      assert Consecutive(first, k)[..k - 1] == Consecutive(first, k - 1);
      ConsecutiveRunPenalty(first, k - 1);
      TailRunOfConsecutive(first, k);
    }
  }

  lemma {:induction false} TailRunAfterBreak(s: seq<int>, u: seq<int>, j: nat)
    requires s != [] && 1 <= j <= |u| && u[0] != s[|s| - 1] + 1
    ensures TailRun(s + u[..j]) == TailRun(u[..j])
  {
    var w := s + u[..j];
    assert w[|w| - 1] == u[j - 1];
    if j == 1 {
      assert w[|w| - 2] == s[|s| - 1];
    } else {
      assert w[|w| - 2] == u[j - 2];
      assert w[..|w| - 1] == s + u[..j - 1];
      assert u[..j][..j - 1] == u[..j - 1];
      TailRunAfterBreak(s, u, j - 1);
    }
  }

  lemma {:induction false} PenaltySplitPrefix(s: seq<int>, u: seq<int>, j: nat)
    requires s != [] && u != [] && j <= |u| && u[0] != s[|s| - 1] + 1
    ensures ListPenalty(s + u[..j]) == ListPenalty(s) + ListPenalty(u[..j])
  {
    if j == 0 {
      assert s + u[..0] == s;
    } else {
      var w := s + u[..j];
      assert w[..|w| - 1] == s + u[..j - 1];
      assert u[..j][..j - 1] == u[..j - 1];
      PenaltySplitPrefix(s, u, j - 1);
      TailRunAfterBreak(s, u, j);
    }
  }

  /** A run breaks where the next hour is not the previous one plus 1: the
      penalty of the two sides then simply adds up. */
  lemma PenaltySplitsAtBreak(s: seq<int>, u: seq<int>)
    requires s != [] && u != [] && u[0] != s[|s| - 1] + 1
    ensures ListPenalty(s + u) == ListPenalty(s) + ListPenalty(u)
  {
    PenaltySplitPrefix(s, u, |u|);
    assert u[..|u|] == u;
  }

  lemma {:induction false} TailRunAfterJoin(s: seq<int>, u: seq<int>, j: nat)
    requires s != [] && 1 <= j <= |u| && u[0] == s[|s| - 1] + 1
    ensures TailRun(s + u[..j]) >= TailRun(u[..j])
    ensures j == 1 ==> TailRun(s + u[..j]) == TailRun(s) + 1
  {
    var w := s + u[..j];
    assert w[|w| - 1] == u[j - 1];
    if j == 1 {
      assert w[|w| - 2] == s[|s| - 1];
      assert w[..|w| - 1] == s;
    } else {
      assert w[|w| - 2] == u[j - 2];
      assert w[..|w| - 1] == s + u[..j - 1];
      assert u[..j][..j - 1] == u[..j - 1];
      TailRunAfterJoin(s, u, j - 1);
    }
  }

  lemma {:induction false} PenaltyJoinPrefix(s: seq<int>, u: seq<int>, j: nat)
    requires s != [] && 1 <= j <= |u| && u[0] == s[|s| - 1] + 1
    ensures ListPenalty(s + u[..j]) >= ListPenalty(s) + ListPenalty(u[..j]) + BasePenalty * TailRun(s)
  {
    var w := s + u[..j];
    assert u[..j][..j - 1] == u[..j - 1];
    TailRunAfterJoin(s, u, j);
    if j == 1 {
      assert w[..|w| - 1] == s;
      assert u[..1][..0] == [];
    } else {
      assert w[..|w| - 1] == s + u[..j - 1];
      PenaltyJoinPrefix(s, u, j - 1);
    }
  }

  /** Where the next hour IS the previous one plus 1 the run goes on, and the
      joined list costs more than its two sides priced as separate runs: at
      least 5 more per hour of the run that the left side ends with. */
  lemma PenaltyJoinCostsMore(s: seq<int>, u: seq<int>)
    requires s != [] && u != [] && u[0] == s[|s| - 1] + 1
    ensures ListPenalty(s + u) >= ListPenalty(s) + ListPenalty(u) + BasePenalty * TailRun(s)
    ensures ListPenalty(s + u) > ListPenalty(s) + ListPenalty(u)
  {
    PenaltyJoinPrefix(s, u, |u|);
    assert u[..|u|] == u;
  }

  /** Every non-empty set of hours has a least element. */
  lemma {:induction false} LeastOf(hours: set<int>) returns (m: int)
    requires hours != {}
    ensures m in hours && forall y :: y in hours ==> m <= y
    decreases |hours|
  {
    if forall y :: y !in hours {
      assert false;
    }
    var x :| x in hours;
    if hours == {x} {
      m := x;
    } else {
      var least := LeastOf(hours - {x});
      m := if x < least then x else least;
      forall y | y in hours ensures m <= y {
        if y != x { assert y in hours - {x}; }
      }
    }
  }

  lemma MinExists(hours: set<int>)
    requires hours != {}
    ensures exists m :: m in hours && forall y :: y in hours ==> m <= y
  {
    var m := LeastOf(hours);
  }

  /** The hours of a set in ascending order (what `sorted` returns for it). */
  ghost function SortSet(hours: set<int>): (r: seq<int>)
    ensures StrictlyIncreasing(r) && Elems(r) == hours
    decreases |hours|
  {
    if hours == {} then []
    else
      MinExists(hours);
      var m :| m in hours && forall y :: y in hours ==> m <= y;
      var rest := SortSet(hours - {m});
      PrependLeast(m, rest, hours);
      [m] + rest
  }

  lemma PrependLeast(m: int, rest: seq<int>, hours: set<int>)
    requires m in hours && forall y :: y in hours ==> m <= y
    requires StrictlyIncreasing(rest) && Elems(rest) == hours - {m}
    ensures StrictlyIncreasing([m] + rest) && Elems([m] + rest) == hours
  {
    var s := [m] + rest;
    assert s[1..] == rest;
    forall j | 0 <= j < |rest| ensures m < rest[j] {
      InElems(rest, rest[j]);
    }
    forall x | x in Elems(s) ensures x in hours {
      InElems(s, x);
      if x != m {
        assert x in s[1..];
        InElems(rest, x);
      }
    }
    forall x | x in hours ensures x in Elems(s) {
      InElems(s, x);
      if x != m {
        InElems(rest, x);
        assert x in s[1..];
      }
    }
  }

  lemma HeadIsLeast(s: seq<int>, x: int)
    requires StrictlyIncreasing(s) && x in s
    ensures s[0] <= x
  {
    var k :| 0 <= k < |s| && s[k] == x;
    if k > 0 {
      assert s[0] < s[k];
    }
  }

  /** Dropping the head of an ascending list drops exactly its least hour. */
  lemma TailElems(s: seq<int>)
    requires s != [] && StrictlyIncreasing(s)
    ensures Elems(s[1..]) == Elems(s) - {s[0]}
  {
    forall x | x in Elems(s[1..]) ensures x in Elems(s) - {s[0]} {
      InElems(s[1..], x);
      InElems(s, x);
    }
    forall x | x in Elems(s) - {s[0]} ensures x in Elems(s[1..]) {
      InElems(s, x);
      InElems(s[1..], x);
      assert s == [s[0]] + s[1..];
    }
  }

  lemma InElems(s: seq<int>, x: int)
    ensures x in Elems(s) <==> x in s
  {
  }

  /** Two ascending lists of the same hours are the same list: the sorted
      violation list, hence its penalty, depends only on the set of hours. */
  lemma {:induction false} SortedUnique(a: seq<int>, b: seq<int>)
    requires StrictlyIncreasing(a) && StrictlyIncreasing(b) && Elems(a) == Elems(b)
    ensures a == b
  {
    if a != [] {
      InElems(a, a[0]);
      InElems(b, a[0]);
      ElemsEmpty(b);
      InElems(b, b[0]);
      InElems(a, b[0]);
      HeadIsLeast(b, a[0]);
      HeadIsLeast(a, b[0]);
      TailElems(a);
      TailElems(b);
      SortedUnique(a[1..], b[1..]);
      assert a == [a[0]] + a[1..];
      assert b == [b[0]] + b[1..];
    } else {
      ElemsEmpty(b);
    }
  }

  lemma ElemsEmpty(s: seq<int>)
    ensures Elems(s) == {} <==> s == []
  {
    if s != [] {
      assert s[0] in Elems(s);
    }
  }

  /** An ascending list has as many entries as it has distinct hours. */
  lemma {:induction false} StrictlyIncreasingCard(s: seq<int>)
    requires StrictlyIncreasing(s)
    ensures |Elems(s)| == |s|
  {
    if s != [] {
      var n := |s|;
      assert Elems(s) == Elems(s[..n - 1]) + {s[n - 1]};
      assert s[n - 1] !in Elems(s[..n - 1]);
      StrictlyIncreasingCard(s[..n - 1]);
    }
  }

  /** The penalty of a set of violated hours: that of the hours in ascending order. */
  ghost function HoursPenalty(hours: set<int>): (r: nat)
    ensures r >= BasePenalty * |hours|
    ensures r == 0 <==> hours == {}
  {
    StrictlyIncreasingCard(SortSet(hours));
    ListPenalty(SortSet(hours))
  }

  /** Whatever order the hours were recorded in and however often, the
      penalty of an ascending listing is the penalty of its set. */
  lemma PenaltyOfListing(s: seq<int>)
    requires StrictlyIncreasing(s)
    ensures ListPenalty(s) == HoursPenalty(Elems(s))
  {
    SortedUnique(s, SortSet(Elems(s)));
  }

  /** The worked examples: no hour costs nothing, {5} costs 5, {5, 6, 7}
      costs 5 + 10 + 15 = 30, and {5, 6} with {10} costs 15 + 5 = 20. */
  lemma PenaltyExamples()
    ensures HoursPenalty({}) == 0
    ensures HoursPenalty({5}) == 5
    ensures HoursPenalty({5, 6, 7}) == 30
    ensures HoursPenalty({5, 6, 10}) == 20
  {
    assert HoursPenalty({}) == 0;
    SingleRunExample(5, 1);
    assert Elems(Consecutive(5, 1)) == {5} by {
      assert Consecutive(5, 1) == [5];
    }
    SingleRunExample(5, 3);
    assert Elems(Consecutive(5, 3)) == {5, 6, 7} by {
      assert Consecutive(5, 3) == [5, 6, 7];
    }
    RunCostClosedForm(1);
    RunCostClosedForm(3);
    TwoRunsExample();
  }

  lemma SingleRunExample(first: int, k: nat)
    ensures HoursPenalty(Elems(Consecutive(first, k))) == RunCost(k)
  {
    var s := Consecutive(first, k);
    ConsecutiveRunPenalty(first, k);
    SortedUnique(SortSet(Elems(s)), s);
  }

  lemma TwoRunsExample()
    ensures HoursPenalty({5, 6, 10}) == 20
  {
    var s := [5, 6, 10];
    assert Elems(s) == {5, 6, 10};
    SortedUnique(SortSet({5, 6, 10}), s);
    TwoRunsPenalty();
  }

  lemma TwoRunsPenalty()
    ensures ListPenalty([5, 6, 10]) == 20
  {
    assert Consecutive(5, 2) == [5, 6];
    assert Consecutive(10, 1) == [10];
    ConsecutiveRunPenalty(5, 2);
    ConsecutiveRunPenalty(10, 1);
    PenaltySplitsAtBreak([5, 6], [10]);
    assert [5, 6] + [10] == [5, 6, 10];
  }

  /** `sorted(horas_violadas)`: the violated hours in ascending order. */
  method SortHours(hours: set<int>) returns (r: seq<int>)
    ensures StrictlyIncreasing(r) && Elems(r) == hours
  {
    r := [];
    var rest := hours;
    while rest != {}
      invariant StrictlyIncreasing(r)
      invariant Elems(r) + rest == hours
      invariant r != [] ==> forall y :: y in rest ==> r[|r| - 1] < y
      decreases |rest|
    {
      MinExists(rest);
      var m :| m in rest && forall y :: y in rest ==> m <= y;
      AppendLeast(r, rest, m);
      r := r + [m];
      rest := rest - {m};
    }
  }

  /** One step of the selection: appending the least remaining hour keeps the list ascending. */
  lemma AppendLeast(r: seq<int>, rest: set<int>, m: int)
    requires StrictlyIncreasing(r)
    requires r != [] ==> forall y :: y in rest ==> r[|r| - 1] < y
    requires m in rest && forall y :: y in rest ==> m <= y
    ensures StrictlyIncreasing(r + [m])
    ensures Elems(r + [m]) + (rest - {m}) == Elems(r) + rest
    ensures forall y :: y in rest - {m} ==> m < y
  {
    assert Elems(r + [m]) == Elems(r) + {m};
  }

  /** An hour that continues the open block (or opens the first one) extends
      the tail run by one and costs 5 times the new run length. */
  lemma BlockExtends(hours: seq<int>, i: nat, block: seq<int>, total: int)
    requires i < |hours| && |block| == TailRun(hours[..i])
    requires block != [] ==> block[|block| - 1] == hours[i - 1]
    requires total + RunCost(|block|) == ListPenalty(hours[..i])
    requires block == [] || hours[i] == block[|block| - 1] + 1
    ensures |block + [hours[i]]| == TailRun(hours[..i + 1])
    ensures total + RunCost(|block + [hours[i]]|) == ListPenalty(hours[..i + 1])
  {
    var s := hours[..i + 1];
    assert s[..i] == hours[..i];
    if block == [] {
      assert hours[..i] == [];
      assert TailRun(s) == 1;
    } else {
      assert block[|block| - 1] == hours[i - 1] == s[i - 1];
      assert TailRun(s) == TailRun(s[..i]) + 1;
    }
    assert ListPenalty(s) == ListPenalty(s[..i]) + BasePenalty * TailRun(s);
    assert RunCost(|block| + 1) == RunCost(|block|) + BasePenalty * (|block| + 1);
  }

  /** An hour that does not continue the open block starts a run of one and costs 5. */
  lemma BlockBreaks(hours: seq<int>, i: nat, block: seq<int>, total: int)
    requires i < |hours| && |block| == TailRun(hours[..i])
    requires block != [] ==> block[|block| - 1] == hours[i - 1]
    requires total + RunCost(|block|) == ListPenalty(hours[..i])
    requires block != [] && hours[i] != block[|block| - 1] + 1
    ensures |[hours[i]]| == TailRun(hours[..i + 1])
    ensures (total + RunCost(|block|)) + RunCost(|[hours[i]]|) == ListPenalty(hours[..i + 1])
  {
    var s := hours[..i + 1];
    assert s[..i] == hours[..i];
    assert block[|block| - 1] == hours[i - 1] == s[i - 1];
    assert TailRun(s) == 1;
    assert ListPenalty(s) == ListPenalty(s[..i]) + BasePenalty * TailRun(s);
    assert RunCost(1) == BasePenalty;
  }

  /** The block loop: hours are appended to the open block while each is the
      previous plus 1; otherwise the block's cost is added and a new block
      opens; the last open block is flushed after the loop. */
  method BlockPenalty(hours: seq<int>) returns (total: int)
    ensures total == ListPenalty(hours)
  {
    total := 0;
    var block: seq<int> := [];
    var i := 0;
    while i < |hours|
      invariant 0 <= i <= |hours|
      invariant |block| == TailRun(hours[..i])
      invariant block != [] ==> block[|block| - 1] == hours[i - 1]
      invariant total + RunCost(|block|) == ListPenalty(hours[..i])
    {
      var h := hours[i];
      if block == [] || h == block[|block| - 1] + 1 {
        BlockExtends(hours, i, block, total);
        block := block + [h];
      } else {
        BlockBreaks(hours, i, block, total);
        total := total + RunCost(|block|);
        block := [h];
      }
      i := i + 1;
    }
    if block != [] {
      total := total + RunCost(|block|);
    }
    assert hours[..i] == hours;
  }
}
