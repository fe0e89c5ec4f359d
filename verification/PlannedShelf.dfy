/**
 What the shelves of a plan look like, row by row: their widths, the heights they could have, and
 why each has the height it has.
 */
module PlannedShelf {
  import opened Common
  import opened Sorting
  import opened CollageOrder
  import opened ShelfChoice
  import opened Shelves
  import opened ShelfHeights
  import opened CollagePlan

  lemma PlannedShelfIs(node: WeightedCollage, width: int, penalty: (nat, nat) -> real, k: nat)
    requires Accepted(node, width) && Layable(node, width, penalty) && k < |PlannedShelves(node, width, penalty)|
    ensures Rows(node, Chosen(node, width, penalty).parts) && AllPositive(Ordered(node.items))
    ensures |Ordered(node.items)| == |node.items|
    ensures ShelfOfRow(node, width, Ordered(node.items), Chosen(node, width, penalty).parts, k)
         == Some(PlannedShelves(node, width, penalty)[k])
  {
    hide ShelfOfRow, Choose, Stackable, Placeable, Feasible, Coverable, Sort;
    ChosenRows(node, width, penalty);
    OrderedPositive(node, width);
  }

  /** The items of row `k`. */
  ghost function RowItems(node: WeightedCollage, parts: seq<nat>, k: nat): seq<Item>
    requires k < |parts| && Sum(parts) == |Ordered(node.items)|
  {
    PartsWithin(parts, k);
    Ordered(node.items)[Sum(parts[..k])..Sum(parts[..k]) + parts[k]]
  }

  /** Every row is cut into equal shares, except the first row of up to eight items where weighted shares leave
      every tile at least 90 pixels wide. */
  lemma PlannedWidths(node: WeightedCollage, width: int, penalty: (nat, nat) -> real, k: nat) returns (tiered: seq<int>)
    requires Accepted(node, width) && Layable(node, width, penalty) && k < |PlannedShelves(node, width, penalty)|
    ensures Rows(node, Chosen(node, width, penalty).parts) && |Ordered(node.items)| == |node.items|
    ensures var parts := Chosen(node, width, penalty).parts;
      && |tiered| == parts[k] >= 1
      && exists weights :: TwoToOne(RowItems(node, parts, k), weights) && SharesRow(tiered, width, weights)
    ensures var widths := PlannedShelves(node, width, penalty)[k].widths;
      if |node.items| <= 8 && k == 0 && tiered[|tiered| - 1] >= 90 then widths == tiered
      else SharesRow(widths, width, Ones(|tiered|))
  {
    PlannedShelfIs(node, width, penalty, k);
    var parts := Chosen(node, width, penalty).parts;
    PartsWithin(parts, k);
    ShelfWidths(node, width, parts, k);
    hide Layable, PlannedShelves, Chosen, SharesRow, TwoToOne, Sort, ChosenWidths, RelativeWeights, Sum, ShelfOfRow, RowItems, Local, Accepted, Ordered, Rows, Stackable, Placeable, Feasible;
    tiered := ChosenWidthsExactly(width, RowItems(node, parts, k), |node.items| <= 8, k == 0);
  }

  /** The bounds of a shelf are the extreme heights that fit, and its nominal height is the one nearest to the
      preferred aspect. */
  lemma PlannedBounds(node: WeightedCollage, width: int, penalty: (nat, nat) -> real, k: nat)
    requires Accepted(node, width) && Layable(node, width, penalty) && k < |PlannedShelves(node, width, penalty)|
    ensures var shelf := PlannedShelves(node, width, penalty)[k];
      && (forall h :: HeightFits(node, shelf.widths, h) <==> shelf.low <= h <= shelf.high)
      && NominalIsNearest(node, width, shelf)
  {
    PlannedShelfIs(node, width, penalty, k);
    hide Layable, PlannedShelves, Chosen, Sort, ChosenWidths, HeightFits, NominalIsNearest, Bounded, Sum;
    var parts := Chosen(node, width, penalty).parts;
    PartsWithin(parts, k);
    var widths := ChosenWidths(width, Local(Ordered(node.items), parts, k), |node.items| <= 8, k == 0);
    assert FillsRow(widths, width, |widths|) by { RowIsFilled(width, Local(Ordered(node.items), parts, k), |node.items| <= 8, k == 0); }
    BoundedExactly(node, width, widths, Sum(parts[..k]));
    BoundedNominal(node, width, widths, Sum(parts[..k]));
    BoundedWidths(node, width, widths, Sum(parts[..k]));
  }

  lemma ShelfWidths(node: WeightedCollage, width: int, parts: seq<nat>, k: nat)
    requires Rows(node, parts) && k < |parts| && |Ordered(node.items)| == |node.items| && AllPositive(Ordered(node.items))
    requires node.preferredAspect > 0.0 && ShelfOfRow(node, width, Ordered(node.items), parts, k).Some?
    ensures RowItems(node, parts, k) != [] && RowItems(node, parts, k) == Local(Ordered(node.items), parts, k)
    ensures AllPositive(RowItems(node, parts, k)) && |RowItems(node, parts, k)| == parts[k]
    ensures ShelfOfRow(node, width, Ordered(node.items), parts, k).value.widths
         == ChosenWidths(width, RowItems(node, parts, k), |node.items| <= 8, k == 0)
  {
    hide Sum, Sort, ChosenWidths, Bounded;
    PartsWithin(parts, k);
    BoundedWidths(node, width, ChosenWidths(width, Local(Ordered(node.items), parts, k), |node.items| <= 8, k == 0), Sum(parts[..k]));
  }

  lemma RowIsFilled(width: int, local: seq<Item>, small: bool, firstRow: bool)
    requires local != [] && forall i :: 0 <= i < |local| ==> local[i].weight > 0.0
    ensures FillsRow(ChosenWidths(width, local, small, firstRow), width, |local|)
  {}

  lemma BoundedWidths(node: WeightedCollage, width: int, widths: seq<int>, position: nat)
    requires widths != [] && node.preferredAspect > 0.0 && Bounded(node, width, widths, position).Some?
    ensures Bounded(node, width, widths, position).value.widths == widths
  {
    hide Round, Ceil;
  }

  /** A shelf is at its nominal height, unless the shelves below it need it taller in every assignment, or one
      pixel more would already outgrow the shelf above it. */
  ghost predicate NominalUnlessForced(shelves: seq<Shelf>, k: nat)
    requires Stackable(shelves) && k < |shelves|
  {
    var h := Heights(shelves)[k];
    && (h > shelves[k].nominal ==> forall heights :: Assignment(shelves, heights) ==> heights[k] >= h)
    && (h < shelves[k].nominal ==>
          k > 0 && shelves[k].Widest() * (h + 1) > shelves[k - 1].Narrowest() * Heights(shelves)[k - 1])
  }

  lemma PlannedHeightIsNearest(node: WeightedCollage, width: int, penalty: (nat, nat) -> real, k: nat)
    requires Accepted(node, width) && Layable(node, width, penalty) && k < |PlannedShelves(node, width, penalty)|
    ensures NominalUnlessForced(PlannedShelves(node, width, penalty), k)
  {
    hide Layable, PlannedShelves, NominalUnlessForced, NeededAt, EnoughRoom;
    var shelves := PlannedShelves(node, width, penalty);
    var some :| Assignment(shelves, some);
    FeasibleHasRoom(shelves, some);
    HeightIsForced(shelves, k);
  }

  lemma HeightIsForced(shelves: seq<Shelf>, k: nat)
    requires Stackable(shelves) && EnoughRoom(shelves) && k < |shelves|
    ensures NominalUnlessForced(shelves, k)
  {
    forall heights | Assignment(shelves, heights) ensures NeededAt(shelves, k) <= heights[k] {
      NeededIsLeast(shelves, heights, k);
    }
    if k > 0 {
      var area := shelves[k - 1].Narrowest() * HeightAt(shelves, k - 1);
      OneMoreIsTooMuch(shelves[k].Widest(), area);
      assert HeightAt(shelves, k) == Min(Max(shelves[k].nominal, NeededAt(shelves, k)), area / shelves[k].Widest());
    }
    hide NeededAt, Assignment, HeightAt;
  }

  lemma OneMoreIsTooMuch(wide: int, area: int)
    requires wide > 0
    ensures wide * (area / wide + 1) > area
  {
    FloorDivBounds(area, wide);
  }
}
