/**
 Integer shelf heights. The backward pass computes the least height each shelf must keep so
 that no later tile outgrows an earlier one; the forward pass then picks the actual heights.
 */
module ShelfHeights {
  import opened Common
  import opened CollageOrder
  import opened Shelves

  ghost predicate Stackable(shelves: seq<Shelf>) {
    forall i :: 0 <= i < |shelves| ==>
      && shelves[i].widths != []
      && 1 <= shelves[i].Narrowest() && 1 <= shelves[i].Widest()
      && 1 <= shelves[i].low <= shelves[i].nominal <= shelves[i].high
  }

  // ----- Reference definition: what a good choice of heights is -----

  /** Every shelf's smallest tile is at least as large as the next shelf's largest tile. */
  ghost predicate AreasDescend(shelves: seq<Shelf>, heights: seq<int>)
    requires Stackable(shelves) && |heights| == |shelves|
  {
    forall i :: 0 <= i && i + 1 < |shelves| ==>
      shelves[i].Narrowest() * heights[i] >= shelves[i + 1].Widest() * heights[i + 1]
  }

  ghost predicate Assignment(shelves: seq<Shelf>, heights: seq<int>)
    requires Stackable(shelves)
  {
    && |heights| == |shelves|
    && (forall i :: 0 <= i < |shelves| ==> shelves[i].low <= heights[i] <= shelves[i].high)
    && AreasDescend(shelves, heights)
  }

  ghost predicate Feasible(shelves: seq<Shelf>)
    requires Stackable(shelves)
  {
    exists heights :: Assignment(shelves, heights)
  }

  // ----- Backward pass -----

  function CeilDiv(a: int, b: int): int
    requires b > 0
  {
    (a + b - 1) / b
  }

  function NeededAt(shelves: seq<Shelf>, i: nat): int
    requires Stackable(shelves) && i < |shelves|
    decreases |shelves| - i
  {
    if i + 1 == |shelves| then shelves[i].low
    else Max(shelves[i].low, CeilDiv(shelves[i + 1].Widest() * NeededAt(shelves, i + 1), shelves[i].Narrowest()))
  }

  lemma MulMonotone(k: int, a: int, b: int)
    requires k >= 0 && a <= b
    ensures k * a <= k * b
  {}

  lemma MulReflects(k: int, a: int, b: int)
    requires k > 0 && k * a < k * b
    ensures a < b
  {}

  lemma CeilDivBounds(a: int, b: int)
    requires b > 0
    ensures a <= b * CeilDiv(a, b) <= a + b - 1
  {
    assert a + b - 1 == b * CeilDiv(a, b) + (a + b - 1) % b;
  }

  /** A height whose area reaches `wide * need` is at least the reserved quotient. */
  lemma ReserveLeast(wide: int, need: int, below: int, narrow: int, h: int)
    requires wide > 0 && narrow > 0 && need <= below && narrow * h >= wide * below
    ensures CeilDiv(wide * need, narrow) <= h
  {
    MulMonotone(wide, need, below);
    CeilDivBounds(wide * need, narrow);
    var q := CeilDiv(wide * need, narrow);
    assert narrow * q < narrow * (h + 1) by { assert narrow * (h + 1) == narrow * h + narrow; }
    MulReflects(narrow, q, h + 1);
  }

  /** NeededAt is the least height of shelf i over all good assignments. */
  lemma {:induction false} NeededIsLeast(shelves: seq<Shelf>, heights: seq<int>, i: nat)
    requires Stackable(shelves) && Assignment(shelves, heights) && i < |shelves|
    ensures NeededAt(shelves, i) <= heights[i]
    decreases |shelves| - i
  {
    if i + 1 < |shelves| {
      NeededIsLeast(shelves, heights, i + 1);
      ReserveLeast(shelves[i + 1].Widest(), NeededAt(shelves, i + 1), heights[i + 1],
                   shelves[i].Narrowest(), heights[i]);
    }
  }

  ghost predicate EnoughRoom(shelves: seq<Shelf>)
    requires Stackable(shelves)
  {
    forall i :: 0 <= i < |shelves| ==> NeededAt(shelves, i) <= shelves[i].high
  }

  /** The step of the backward pass at `index`, given the height needed below it. */
  method RequiredHeight(shelves: seq<Shelf>, index: nat, below: int) returns (required: int)
    requires Stackable(shelves) && index < |shelves|
    requires index + 1 < |shelves| ==> below == NeededAt(shelves, index + 1)
    ensures required == NeededAt(shelves, index)
  {
    var shelf := shelves[index];
    required := shelf.low;
    if index + 1 < |shelves| {
      var numerator := shelves[index + 1].Widest() * below;
      required := Max(required, (numerator + shelf.Narrowest() - 1) / shelf.Narrowest());
    }
  }

  lemma NoRoom(shelves: seq<Shelf>, index: nat)
    requires Stackable(shelves) && index < |shelves| && NeededAt(shelves, index) > shelves[index].high
    ensures !Feasible(shelves)
  {
    forall heights ensures !Assignment(shelves, heights) {
      if Assignment(shelves, heights) { NeededIsLeast(shelves, heights, index); }
    }
  }

  lemma FeasibleHasRoom(shelves: seq<Shelf>, heights: seq<int>)
    requires Stackable(shelves) && Assignment(shelves, heights)
    ensures EnoughRoom(shelves)
  {
    forall i | 0 <= i < |shelves| ensures NeededAt(shelves, i) <= shelves[i].high { NeededIsLeast(shelves, heights, i); }
  }

  /** Rejects exactly when no assignment of heights exists at all. */
  method MinimumHeights(shelves: seq<Shelf>) returns (needed: Option<seq<int>>)
    requires Stackable(shelves)
    ensures needed.Some? ==> |needed.value| == |shelves|
    ensures needed.Some? ==> forall i :: 0 <= i < |shelves| ==> needed.value[i] == NeededAt(shelves, i)
    ensures needed.Some? ==> EnoughRoom(shelves)
    ensures needed.Some? <==> Feasible(shelves)
  {
    var least: seq<int> := seq(|shelves|, _ => 0);
    var index := |shelves|;
    while index > 0
      invariant 0 <= index <= |shelves| == |least|
      invariant forall i :: index <= i < |shelves| ==> least[i] == NeededAt(shelves, i) <= shelves[i].high
    {
      index := index - 1;
      var required := RequiredHeight(shelves, index, if index + 1 < |shelves| then least[index + 1] else 0);
      if required > shelves[index].high {
        NoRoom(shelves, index);
        return None;
      }
      least := least[index := required];
    }
    RoomMeansFeasible(shelves);
    return Some(least);
  }

  lemma RoomMeansFeasible(shelves: seq<Shelf>)
    requires Stackable(shelves) && EnoughRoom(shelves)
    ensures Feasible(shelves)
  {
    ForwardIsAssignment(shelves);
  }

  // ----- Forward pass -----

  /** Height the forward pass gives shelf i: the nominal one, unless the area above is too small. */
  function HeightAt(shelves: seq<Shelf>, i: nat): int
    requires Stackable(shelves) && i < |shelves|
  {
    var wanted := Max(shelves[i].nominal, NeededAt(shelves, i));
    if i == 0 then wanted
    else Min(wanted, shelves[i - 1].Narrowest() * HeightAt(shelves, i - 1) / shelves[i].Widest())
  }

  ghost function Heights(shelves: seq<Shelf>): seq<int>
    requires Stackable(shelves)
  {
    seq(|shelves|, i requires 0 <= i < |shelves| => HeightAt(shelves, i))
  }

  lemma FloorDivBounds(a: int, b: int)
    requires b > 0
    ensures b * (a / b) <= a < b * (a / b) + b
  {
    assert a == b * (a / b) + a % b;
  }

  lemma FloorDivGreatest(a: int, b: int, h: int)
    requires b > 0 && b * h <= a
    ensures h <= a / b
  {
    FloorDivBounds(a, b);
    assert b * h < b * (a / b + 1) by { assert b * (a / b + 1) == b * (a / b) + b; }
    MulReflects(b, h, a / b + 1);
  }

  /** Reserving area for the shelf below leaves it at least the height it needs. */
  lemma ReserveSuffices(wide: int, need: int, narrow: int, reserved: int, above: int)
    requires wide > 0 && narrow > 0 && CeilDiv(wide * need, narrow) <= reserved <= above
    ensures need <= narrow * above / wide
  {
    CeilDivBounds(wide * need, narrow);
    MulMonotone(narrow, CeilDiv(wide * need, narrow), above);
    FloorDivGreatest(narrow * above, wide, need);
  }

  lemma BelowQuotient(wide: int, area: int, h: int)
    requires wide > 0 && h <= area / wide
    ensures wide * h <= area
  {
    FloorDivBounds(area, wide);
    MulMonotone(wide, h, area / wide);
  }

  /** The backward pass suffices: the forward height never falls below the needed one. */
  lemma {:induction false} ForwardNeverStarves(shelves: seq<Shelf>, i: nat)
    requires Stackable(shelves) && EnoughRoom(shelves) && i < |shelves|
    ensures NeededAt(shelves, i) <= HeightAt(shelves, i) <= shelves[i].high
    ensures i > 0 ==>
      shelves[i].Widest() * HeightAt(shelves, i) <= shelves[i - 1].Narrowest() * HeightAt(shelves, i - 1)
    ensures shelves[i].low <= NeededAt(shelves, i)
  {
    if i > 0 {
      ForwardNeverStarves(shelves, i - 1);
      var wide, narrow := shelves[i].Widest(), shelves[i - 1].Narrowest();
      ReserveSuffices(wide, NeededAt(shelves, i), narrow, NeededAt(shelves, i - 1), HeightAt(shelves, i - 1));
      BelowQuotient(wide, narrow * HeightAt(shelves, i - 1), HeightAt(shelves, i));
    }
  }

  lemma ForwardIsAssignment(shelves: seq<Shelf>)
    requires Stackable(shelves) && EnoughRoom(shelves)
    ensures Assignment(shelves, Heights(shelves))
  {
    forall i | 0 <= i < |shelves|
      ensures shelves[i].low <= HeightAt(shelves, i) <= shelves[i].high
      ensures i + 1 < |shelves| ==>
        shelves[i].Narrowest() * HeightAt(shelves, i) >= shelves[i + 1].Widest() * HeightAt(shelves, i + 1)
    {
      ForwardNeverStarves(shelves, i);
      if i + 1 < |shelves| { ForwardNeverStarves(shelves, i + 1); }
    }
  }

  /** Among assignments that exceed no wanted height, the forward pass takes the tallest everywhere. */
  lemma {:induction false} ForwardIsGreatest(shelves: seq<Shelf>, heights: seq<int>, i: nat)
    requires Stackable(shelves) && Assignment(shelves, heights) && i < |shelves|
    requires forall k :: 0 <= k < |shelves| ==> heights[k] <= Max(shelves[k].nominal, NeededAt(shelves, k))
    ensures heights[i] <= HeightAt(shelves, i)
  {
    hide NeededAt;
    if i > 0 {
      ForwardIsGreatest(shelves, heights, i - 1);
      var wide, narrow := shelves[i].Widest(), shelves[i - 1].Narrowest();
      assert narrow * heights[i - 1] >= wide * heights[(i - 1) + 1];
      MulMonotone(narrow, heights[i - 1], HeightAt(shelves, i - 1));
      FloorDivGreatest(narrow * HeightAt(shelves, i - 1), wide, heights[i]);
    }
  }
}
