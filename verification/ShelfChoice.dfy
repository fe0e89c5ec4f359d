/** The memoised shelf-size optimiser: which row lengths partition the ranks at least cost. */
module ShelfChoice {
  import opened Sorting

  /** `penalty(count, target)` stands for the squared logarithm of count / target. */
  datatype Problem = Problem(n: nat, maximum: nat, desired: seq<nat>, penalty: (nat, nat) -> real) {
    predicate Valid() { |desired| == n }
  }

  datatype Choice = Infeasible | Found(cost: real, parts: seq<nat>)

  const ROW_COST: real := 0.001

  function RowPenalty(p: Problem, start: nat, end: nat, count: nat): real
    requires p.Valid() && start <= end <= p.n
    decreases end - start
  {
    if start == end then 0.0
    else p.penalty(count, p.desired[start]) + RowPenalty(p, start + 1, end, count)
  }

  /** Least-cost shelf lengths for the ranks from `start` on, none shorter than `previous`. */
  function Choose(p: Problem, start: nat, previous: nat): Choice
    requires p.Valid() && start <= p.n && previous >= 1
    decreases p.n - start, 1, 0
  {
    if start == p.n then Found(0.0, []) else Scan(p, start, previous, Infeasible)
  }

  function Scan(p: Problem, start: nat, count: nat, best: Choice): Choice
    requires p.Valid() && start < p.n && count >= 1
    decreases p.n - start, 0, if count <= p.maximum then p.maximum + 1 - count else 0
  {
    if count > p.maximum || start + count > p.n then best
    else
      var future := Choose(p, start + count, count);
      var improved :=
        if future.Infeasible? then best
        else
          var cost := future.cost + RowPenalty(p, start, start + count, count) + ROW_COST;
          if best.Infeasible? || cost < best.cost then Found(cost, [count] + future.parts) else best;
      Scan(p, start, count + 1, improved)
  }

  // ----- Reference definition: all shelvings, their cost, and the preference between equals -----

  ghost predicate Shelving(p: Problem, start: nat, previous: nat, parts: seq<nat>) {
    && (forall i :: 0 <= i < |parts| ==> previous <= parts[i] <= p.maximum)
    && (forall i, j :: 0 <= i < j < |parts| ==> parts[i] <= parts[j])
    && start + Sum(parts) == p.n
  }

  ghost function Cost(p: Problem, start: nat, parts: seq<nat>): real
    requires p.Valid() && start + Sum(parts) <= p.n
    decreases |parts|
  {
    if parts == [] then 0.0
    else
      SumNonNegative(parts[1..]);
      Cost(p, start + parts[0], parts[1..]) + RealSum(Penalties(p, start, parts[0])) + 0.001
  }

  /** What each rank of a row of `count` items from `start` adds: the penalty of that count for the rank's own target. */
  ghost function Penalties(p: Problem, start: nat, count: nat): seq<real>
    requires p.Valid() && start + count <= p.n
  {
    seq(count, i requires 0 <= i < count => p.penalty(count, p.desired[start + i]))
  }

  lemma {:induction false} RowPenaltyIsSum(p: Problem, start: nat, end: nat, count: nat)
    requires p.Valid() && start <= end <= p.n
    ensures RowPenalty(p, start, end, count) ==
      RealSum(seq(end - start, i requires 0 <= i < end - start => p.penalty(count, p.desired[start + i])))
    decreases end - start
  {
    var all := seq(end - start, i requires 0 <= i < end - start => p.penalty(count, p.desired[start + i]));
    if start < end {
      RowPenaltyIsSum(p, start + 1, end, count);
      assert all[1..] == seq(end - start - 1, i requires 0 <= i < end - start - 1 => p.penalty(count, p.desired[start + 1 + i]));
    }
  }

  /** Lexicographic order: the optimiser keeps the first of several equally cheap shelvings. */
  predicate LexLeq(a: seq<nat>, b: seq<nat>) {
    a == [] || (b != [] && (a[0] < b[0] || (a[0] == b[0] && LexLeq(a[1..], b[1..]))))
  }

  ghost predicate Beats(p: Problem, start: nat, found: Choice, parts: seq<nat>)
    requires p.Valid() && start + Sum(parts) == p.n
  {
    && found.Found?
    && found.cost <= Cost(p, start, parts)
    && (found.cost == Cost(p, start, parts) ==> LexLeq(found.parts, parts))
  }

  /** `found` is the best shelving whose first row has between `previous` and `limit - 1` items. */
  ghost predicate BestBelow(p: Problem, start: nat, previous: nat, limit: nat, found: Choice)
    requires p.Valid()
  {
    && (found.Found? ==>
          && Shelving(p, start, previous, found.parts)
          && found.cost == Cost(p, start, found.parts)
          && (found.parts != [] ==> found.parts[0] < limit))
    && (forall parts ::
          Shelving(p, start, previous, parts) && (parts == [] || parts[0] < limit) ==> Beats(p, start, found, parts))
  }

  lemma ShelvingTail(p: Problem, start: nat, previous: nat, parts: seq<nat>)
    requires Shelving(p, start, previous, parts) && parts != []
    ensures start + parts[0] <= p.n
    ensures Shelving(p, start + parts[0], parts[0], parts[1..])
  {
    SumNonNegative(parts[1..]);
  }

  lemma ShelvingCons(p: Problem, start: nat, count: nat, rest: seq<nat>)
    requires 1 <= count <= p.maximum && Shelving(p, start + count, count, rest)
    ensures Shelving(p, start, count, [count] + rest)
  {
    assert ([count] + rest)[1..] == rest;
  }

  /** Main result: the recursion returns the cheapest shelving, the first one among equals. */
  lemma {:induction false} ChooseOptimal(p: Problem, start: nat, previous: nat)
    requires p.Valid() && start <= p.n && previous >= 1
    ensures BestBelow(p, start, previous, p.maximum + 1, Choose(p, start, previous))
    decreases p.n - start, 1, 0
  {
    if start == p.n {
      forall parts | Shelving(p, start, previous, parts) ensures parts == [] {
        if parts != [] { SumNonNegative(parts[1..]); }
      }
    } else {
      assert BestBelow(p, start, previous, previous, Infeasible) by {
        forall parts | Shelving(p, start, previous, parts) ensures parts != [] {}
      }
      ScanOptimal(p, start, previous, previous, Infeasible);
    }
  }

  lemma {:induction false} ScanOptimal(p: Problem, start: nat, previous: nat, count: nat, best: Choice)
    requires p.Valid() && start < p.n && 1 <= previous <= count
    requires BestBelow(p, start, previous, count, best)
    ensures BestBelow(p, start, previous, p.maximum + 1, Scan(p, start, count, best))
    decreases p.n - start, 0, if count <= p.maximum then p.maximum + 1 - count else 0
  {
    hide Cost, Beats, RowPenalty, LexLeq;
    if count > p.maximum || start + count > p.n {
      forall parts | Shelving(p, start, previous, parts) && parts != [] ensures parts[0] < count {
        ShelvingTail(p, start, previous, parts);
      }
    } else {
      var future := Choose(p, start + count, count);
      ChooseOptimal(p, start + count, count);
      var improved := Improve(p, start, count, best, future);
      ImproveOptimal(p, start, previous, count, best, future);
      ScanOptimal(p, start, previous, count + 1, improved);
    }
  }

  ghost function Improve(p: Problem, start: nat, count: nat, best: Choice, future: Choice): Choice
    requires p.Valid() && start + count <= p.n
  {
    if future.Infeasible? then best
    else
      var cost := future.cost + RowPenalty(p, start, start + count, count) + ROW_COST;
      if best.Infeasible? || cost < best.cost then Found(cost, [count] + future.parts) else best
  }

  lemma CostCons(p: Problem, start: nat, parts: seq<nat>)
    requires p.Valid() && parts != [] && start + parts[0] + Sum(parts[1..]) <= p.n
    ensures start + parts[0] <= p.n && Sum(parts) == parts[0] + Sum(parts[1..])
    ensures Cost(p, start, parts) ==
      Cost(p, start + parts[0], parts[1..]) + RowPenalty(p, start, start + parts[0], parts[0]) + 0.001
  {
    SumNonNegative(parts[1..]);
    var count := parts[0];
    RowPenaltyIsSum(p, start, start + count, count);
    assert Penalties(p, start, count) ==
      seq(start + count - start, i requires 0 <= i < start + count - start => p.penalty(count, p.desired[start + i]));
  }

  lemma ImproveOptimal(p: Problem, start: nat, previous: nat, count: nat, best: Choice, future: Choice)
    requires p.Valid() && start < p.n && 1 <= previous <= count <= p.maximum && start + count <= p.n
    requires BestBelow(p, start, previous, count, best)
    requires BestBelow(p, start + count, count, p.maximum + 1, future)
    ensures BestBelow(p, start, previous, count + 1, Improve(p, start, count, best, future))
  {
    hide Cost, RowPenalty, Sum;
    var improved := Improve(p, start, count, best, future);
    if future.Found? {
      ShelvingCons(p, start, count, future.parts);
      assert ([count] + future.parts)[1..] == future.parts;
      CostCons(p, start, [count] + future.parts);
    }
    forall parts | Shelving(p, start, previous, parts) && (parts == [] || parts[0] < count + 1)
      ensures Beats(p, start, improved, parts)
    {
      if parts != [] && parts[0] == count {
        ShelvingTail(p, start, previous, parts);
        CostCons(p, start, parts);
        assert Beats(p, start + count, future, parts[1..]);
      } else {
        assert Beats(p, start, best, parts);
      }
    }
  }

  // ----- When a shelving exists at all -----

  function Repeat(value: nat, times: nat): seq<nat> { seq(times, _ => value) }

  lemma {:induction false} SumRepeat(value: nat, times: nat)
    ensures Sum(Repeat(value, times)) == value * times
  {
    if times > 0 {
      assert Repeat(value, times)[1..] == Repeat(value, times - 1);
      SumRepeat(value, times - 1);
    }
  }

  lemma {:induction false} SumAllTwos(parts: seq<nat>)
    requires forall i :: 0 <= i < |parts| ==> parts[i] == 2
    ensures Sum(parts) == 2 * |parts|
  {
    if parts != [] { SumAllTwos(parts[1..]); }
  }

  function FirstRow(n: nat): nat { if n == 1 then 1 else 2 }

  lemma SomeShelving(p: Problem) returns (parts: seq<nat>)
    requires p.n >= 1 && p.maximum >= FirstRow(p.n)
    requires p.n == 1 || p.n % 2 == 0 || p.maximum >= 3
    ensures Shelving(p, 0, FirstRow(p.n), parts)
  {
    if p.n == 1 {
      parts := [1];
    } else if p.n % 2 == 0 {
      parts := Repeat(2, p.n / 2);
      SumRepeat(2, p.n / 2);
    } else {
      parts := Repeat(2, (p.n - 3) / 2) + [3];
      SumRepeat(2, (p.n - 3) / 2);
      SumAppend(Repeat(2, (p.n - 3) / 2), [3]);
    }
  }

  /** The planner finds no shelves exactly for an odd number above one with rows of at most two. */
  lemma ChooseFailsExactly(p: Problem)
    requires p.Valid() && p.n >= 1 && p.maximum >= FirstRow(p.n)
    ensures Choose(p, 0, FirstRow(p.n)).Infeasible? <==> p.n % 2 == 1 && p.n > 1 && p.maximum == 2
    ensures Choose(p, 0, FirstRow(p.n)).Found? ==> Choose(p, 0, FirstRow(p.n)).parts != []
  {
    ChooseOptimal(p, 0, FirstRow(p.n));
    if p.n == 1 || p.n % 2 == 0 || p.maximum >= 3 {
      var parts := SomeShelving(p);
      assert Beats(p, 0, Choose(p, 0, FirstRow(p.n)), parts);
    } else if Choose(p, 0, 2).Found? {
      RowsOfTwoAreEven(p, Choose(p, 0, 2).parts);
    }
  }

  lemma RowsOfTwoAreEven(p: Problem, parts: seq<nat>)
    ensures p.maximum == 2 && Shelving(p, 0, 2, parts) ==> p.n % 2 == 0
  {
    if p.maximum == 2 && Shelving(p, 0, 2, parts) { SumAllTwos(parts); }
  }
}
