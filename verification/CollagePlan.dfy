/** The collage planner: validate, rank, choose shelves, fix heights and cut pages. */
module CollagePlan {
  import opened Common
  import opened Sorting
  import opened CollageOrder
  import opened ShelfChoice
  import opened Shelves
  import opened ShelfHeights
  import opened CollagePages
  import opened PageCuts

  datatype Reason = InvalidInput | LayoutOverflow | ByteLimit
  datatype Result<+T> = Success(value: T) | Unavailable(reason: Reason)

  // ----- Shelves from row lengths -----

  function Local(ordered: seq<Item>, parts: seq<nat>, row: nat): seq<Item>
    requires row < |parts| && Sum(parts) == |ordered|
  {
    PartsWithin(parts, row);
    ordered[Sum(parts[..row])..Sum(parts[..row]) + parts[row]]
  }

  lemma PartsWithin(parts: seq<nat>, row: nat)
    requires row < |parts|
    ensures 0 <= Sum(parts[..row]) <= Sum(parts[..row]) + parts[row] <= Sum(parts)
  {
    assert parts == parts[..row] + ([parts[row]] + parts[row + 1..]);
    SumAppend(parts[..row], [parts[row]] + parts[row + 1..]);
    SumAppend([parts[row]], parts[row + 1..]);
    SumNonNegative(parts[row + 1..]);
    SumNonNegative(parts[..row]);
  }

  ghost predicate EmptySum(parts: seq<nat>)
    ensures EmptySum(parts) && Sum(parts[..0]) == 0
  {
    Sum(parts[..0]) == 0
  }

  predicate AllPositive(ordered: seq<Item>) {
    forall i :: 0 <= i < |ordered| ==> ordered[i].weight > 0.0
  }

  /** The shelf of row `row`, as a function of the ranked items and the row lengths. */
  function ShelfOfRow(node: WeightedCollage, width: int, ordered: seq<Item>, parts: seq<nat>, row: nat): Option<Shelf>
    requires row < |parts| && Sum(parts) == |ordered| && AllPositive(ordered) && node.preferredAspect > 0.0
    requires forall i :: 0 <= i < |parts| ==> parts[i] >= 1
  {
    PartsWithin(parts, row);
    ShelfFor(node, width, Local(ordered, parts, row), row == 0, Sum(parts[..row]))
  }

  ghost predicate SoundShelves(node: WeightedCollage, width: int, ordered: seq<Item>, parts: seq<nat>, shelves: seq<Shelf>) {
    && |shelves| == |parts| && Sum(parts) == |ordered|
    && (forall i :: 0 <= i < |shelves| ==>
          && ShelfSound(node, width, parts[i], shelves[i])
          && shelves[i].firstRank == Sum(parts[..i]) + 1)
  }

  lemma ShelfOfRowSound(node: WeightedCollage, width: int, ordered: seq<Item>, parts: seq<nat>, row: nat)
    requires row < |parts| && Sum(parts) == |ordered| && AllPositive(ordered) && node.preferredAspect > 0.0
    requires forall i :: 0 <= i < |parts| ==> parts[i] >= 1
    requires ShelfOfRow(node, width, ordered, parts, row).Some?
    ensures ShelfSound(node, width, parts[row], ShelfOfRow(node, width, ordered, parts, row).value)
    ensures ShelfOfRow(node, width, ordered, parts, row).value.firstRank == Sum(parts[..row]) + 1
  {
    hide Bounded, ShelfSound, Sum, ChosenWidths;
    PartsWithin(parts, row);
    var local := Local(ordered, parts, row);
    BoundedSound(node, width, ChosenWidths(width, local, |node.items| <= 8, row == 0), Sum(parts[..row]));
  }

  method BuildShelves(node: WeightedCollage, width: int, ordered: seq<Item>, parts: seq<nat>)
    returns (r: Option<seq<Shelf>>)
    requires Sum(parts) == |ordered| && AllPositive(ordered) && node.preferredAspect > 0.0
    requires forall i :: 0 <= i < |parts| ==> parts[i] >= 1
    ensures r.Some? <==> forall i :: 0 <= i < |parts| ==> ShelfOfRow(node, width, ordered, parts, i).Some?
    ensures r.Some? ==> SoundShelves(node, width, ordered, parts, r.value)
    ensures r.Some? ==>
      forall i :: 0 <= i < |parts| ==> ShelfOfRow(node, width, ordered, parts, i) == Some(r.value[i])
  {
    hide ShelfFor, ShelfSound, Sum;
    var shelves: seq<Shelf> := [];
    var position := 0;
    assert Sum(parts[..0]) == 0 by { assert EmptySum(parts); }
    for row := 0 to |parts|
      invariant |shelves| == row && position == Sum(parts[..row])
      invariant forall i :: 0 <= i < row ==> ShelfOfRow(node, width, ordered, parts, i) == Some(shelves[i])
      invariant forall i :: 0 <= i < row ==>
        ShelfSound(node, width, parts[i], shelves[i]) && shelves[i].firstRank == Sum(parts[..i]) + 1
    {
      PartsWithin(parts, row);
      SumPrefixStep(parts, row);
      var local := ordered[position..position + parts[row]];
      var shelf := ShelfFor(node, width, local, row == 0, position);
      assert shelf == ShelfOfRow(node, width, ordered, parts, row);
      if shelf.None? { return None; }
      ShelfOfRowSound(node, width, ordered, parts, row);
      shelves := shelves + [shelf.value];
      position := position + parts[row];
    }
    return Some(shelves);
  }

  lemma SoundIsStackable(node: WeightedCollage, width: int, ordered: seq<Item>, parts: seq<nat>, shelves: seq<Shelf>)
    requires SoundShelves(node, width, ordered, parts, shelves)
    ensures Stackable(shelves)
  {}

  // ----- Pages -----

  datatype Draft = Draft(tiles: seq<Tile>, height: int, bytes: nat)

  ghost predicate DraftSound(node: WeightedCollage, width: int, d: Draft) {
    && d.tiles != [] && |d.tiles| <= MAX_PAGE_ITEMS
    && 1 <= d.height <= node.maxHeight
    && Tiled(d.tiles, width, d.height)
    && d.bytes == Bytes(d.tiles)
  }

  function TilesOf(drafts: seq<Draft>): seq<seq<Tile>> {
    seq(|drafts|, i requires 0 <= i < |drafts| => drafts[i].tiles)
  }

  /** Height of shelf `index` from the area above it; never below what the backward pass needs. */
  method NextHeight(shelves: seq<Shelf>, needed: seq<int>, index: nat, previousMinArea: int) returns (height: int)
    requires Stackable(shelves) && EnoughRoom(shelves) && index < |shelves| == |needed|
    requires needed[index] == NeededAt(shelves, index)
    requires previousMinArea == if index == 0 then 0 else shelves[index - 1].Narrowest() * HeightAt(shelves, index - 1)
    ensures height == HeightAt(shelves, index)
    ensures needed[index] <= height && shelves[index].low <= height <= shelves[index].high
    ensures index > 0 ==> shelves[index].Widest() * height <= previousMinArea
    ensures shelves[index].Narrowest() * height > 0
  {
    ForwardNeverStarves(shelves, index);
    height := Max(shelves[index].nominal, needed[index]);
    if index > 0 {
      ForwardNeverStarves(shelves, index - 1);
      ProductPositive(shelves[index - 1].Narrowest(), HeightAt(shelves, index - 1));
    }
    if previousMinArea != 0 {
      height := Min(height, previousMinArea / shelves[index].Widest());
    }
    ProductPositive(shelves[index].Narrowest(), height);
  }

  lemma ProductPositive(a: int, b: int)
    requires a > 0 && b > 0
    ensures a * b > 0
  {}

  ghost function Counts(parts: seq<nat>): seq<int> { parts }

  ghost predicate Coverable(node: WeightedCollage, shelves: seq<Shelf>, parts: seq<nat>, pages: int)
    requires Stackable(shelves) && |shelves| == |parts|
  {
    exists cuts ::
      && IsCut(Heights(shelves), Counts(parts), node.maxHeight, cuts)
      && Reach(cuts) == |shelves| && Pages(cuts) <= pages
  }

  lemma SumSliceStep(s: seq<int>, a: nat, b: nat)
    requires a <= b < |s|
    ensures Sum(s[a..b + 1]) == Sum(s[a..b]) + s[b]
  {
    assert s[a..b + 1] == s[a..b] + [s[b]];
    SumAppend(s[a..b], [s[b]]);
  }

  /** The page being filled: its shelves are those from `start` up to `index`. */
  ghost predicate Filling(node: WeightedCollage, width: int, shelves: seq<Shelf>, parts: seq<nat>,
                          start: nat, index: nat, page: Draft)
    requires Stackable(shelves) && |shelves| == |parts|
  {
    && start <= index <= |shelves|
    && 0 <= page.height == Sum(Heights(shelves)[start..index])
    && |page.tiles| == Sum(Counts(parts)[start..index])
    && Tiled(page.tiles, width, page.height)
    && page.bytes == Bytes(page.tiles)
    && (page.tiles == [] ==> start == index && page.height == 0)
    && (page.tiles != [] ==> start < index && DraftSound(node, width, page))
  }

  lemma EmptyPageFilling(node: WeightedCollage, width: int, shelves: seq<Shelf>, parts: seq<nat>, index: nat)
    requires Stackable(shelves) && |shelves| == |parts| && index <= |shelves|
    ensures Filling(node, width, shelves, parts, index, index, Draft([], 0, 0))
  {
    hide HeightAt, NeededAt;
    assert Heights(shelves)[index..index] == [];
    assert Counts(parts)[index..index] == [];
  }

  lemma RowTiled(node: WeightedCollage, width: int, ordered: seq<Item>, shelf: Shelf, count: nat,
                 tiles: seq<Tile>, row: seq<Tile>, top: int, height: int)
    requires ShelfSound(node, width, count, shelf) && Tiled(tiles, width, top)
    requires IsRow(row, shelf, ordered, top, height) && top >= 0 && height >= 1
    ensures Tiled(tiles + row, width, top + height)
  {
    hide Tiled, AspectKept, IsRow;
    TiledExtends(tiles, row, shelf, ordered, width, top, height);
  }

  lemma ShelfAt(node: WeightedCollage, width: int, ordered: seq<Item>, shelves: seq<Shelf>, parts: seq<nat>, index: nat)
    requires SoundShelves(node, width, ordered, parts, shelves) && index < |shelves|
    ensures |shelves| == |parts| && ShelfSound(node, width, parts[index], shelves[index])
  {}

  lemma HeightsAt(shelves: seq<Shelf>, index: nat)
    requires Stackable(shelves) && index < |shelves|
    ensures |Heights(shelves)| == |shelves| && Heights(shelves)[index] == HeightAt(shelves, index)
  {}

  lemma FillingExtends(node: WeightedCollage, width: int, ordered: seq<Item>, shelves: seq<Shelf>, parts: seq<nat>,
                       start: nat, index: nat, page: Draft, row: seq<Tile>, height: int)
    requires SoundShelves(node, width, ordered, parts, shelves) && Stackable(shelves)
    requires index < |shelves| && parts[index] >= 1 && height == HeightAt(shelves, index) && height >= 1
    requires Filling(node, width, shelves, parts, start, index, page)
    requires page.height + height <= node.maxHeight && |page.tiles| + parts[index] <= MAX_PAGE_ITEMS
    requires IsRow(row, shelves[index], ordered, page.height, height) && |row| == parts[index]
    ensures Filling(node, width, shelves, parts, start, index + 1,
                    Draft(page.tiles + row, page.height + height, page.bytes + Bytes(row)))
  {
    hide HeightAt, NeededAt, Tiled, Sum, Bytes, Stackable, ShelfSound, IsRow, Heights, SoundShelves;
    ShelfAt(node, width, ordered, shelves, parts, index);
    assert Heights(shelves)[index] == height && |Heights(shelves)| == |shelves| by { HeightsAt(shelves, index); }
    SumSliceStep(Heights(shelves), start, index);
    SumSliceStep(Counts(parts), start, index);
    RowTiled(node, width, ordered, shelves[index], parts[index], page.tiles, row, page.height, height);
    BytesAppend(page.tiles, row);
  }

  ghost predicate DraftsSound(node: WeightedCollage, width: int, drafts: seq<Draft>) {
    forall i :: 0 <= i < |drafts| ==> DraftSound(node, width, drafts[i])
  }

  lemma NewPageFlat(closed: seq<Draft>, page: Draft)
    ensures Flat(TilesOf(closed + [page])) == Flat(TilesOf(closed)) + page.tiles
  {
    assert TilesOf(closed + [page]) == TilesOf(closed) + [page.tiles];
    FlatAppend(TilesOf(closed), page.tiles);
  }

  lemma RowRanked(node: WeightedCollage, width: int, ordered: seq<Item>, shelves: seq<Shelf>, parts: seq<nat>, index: nat,
                  tiles: seq<Tile>, row: seq<Tile>, top: int, height: int, floor: int)
    requires SoundShelves(node, width, ordered, parts, shelves) && index < |shelves|
    requires Ranked(node, ordered, tiles, floor)
    requires |tiles| == Sum(parts[..index]) && top >= 0
    requires shelves[index].low <= height <= shelves[index].high
    requires index > 0 ==> shelves[index].Widest() * height <= floor
    requires IsRow(row, shelves[index], ordered, top, height)
    ensures Ranked(node, ordered, tiles + row, shelves[index].Narrowest() * height)
    ensures |tiles + row| == Sum(parts[..index + 1])
  {
    hide Ranked, AspectKept, RowTile;
    SumPrefixStep(parts, index);
    if index == 0 { assert parts[..0] == []; }
    RankedExtends(node, ordered, tiles, floor, row, shelves[index], top, height);
  }

  lemma HeightsNonNegative(node: WeightedCollage, width: int, ordered: seq<Item>, shelves: seq<Shelf>, parts: seq<nat>)
    requires SoundShelves(node, width, ordered, parts, shelves) && Stackable(shelves) && EnoughRoom(shelves)
    ensures NonNegative(Heights(shelves)) && NonNegative(Counts(parts))
  {
    hide HeightAt, ShelfSound;
    forall i | 0 <= i < |shelves| ensures HeightAt(shelves, i) >= 0 { ForwardNeverStarves(shelves, i); }
  }

  /** What holds between two shelves of the page loop. */
  ghost predicate Progress(node: WeightedCollage, width: int, ordered: seq<Item>, shelves: seq<Shelf>, parts: seq<nat>,
                           cuts: seq<nat>, index: nat, closed: seq<Draft>, page: Draft, area: int)
    requires Stackable(shelves) && |shelves| == |parts|
  {
    && index <= |shelves|
    && IsCut(Heights(shelves), Counts(parts), node.maxHeight, cuts) && Pages(cuts) == |closed|
    && DraftsSound(node, width, closed)
    && Filling(node, width, shelves, parts, Reach(cuts), index, page)
    && Ranked(node, ordered, Flat(TilesOf(closed)) + page.tiles, area)
    && |Flat(TilesOf(closed)) + page.tiles| == Sum(parts[..index])
    && area == (if index == 0 then 0 else shelves[index - 1].Narrowest() * HeightAt(shelves, index - 1))
    && (page.tiles == [] ==> index == 0 || closed != [])
    && Ahead(Heights(shelves), Counts(parts), node.maxHeight, Reach(cuts), |closed| + 1)
  }

  lemma ProgressStarts(node: WeightedCollage, width: int, ordered: seq<Item>, shelves: seq<Shelf>, parts: seq<nat>)
    requires Stackable(shelves) && |shelves| == |parts|
    ensures Progress(node, width, ordered, shelves, parts, [0], 0, [], Draft([], 0, 0), 0)
  {
    hide HeightAt, NeededAt, Ahead, Filling;
    EmptyPageFilling(node, width, shelves, parts, 0);
    AheadInitially(Heights(shelves), Counts(parts), node.maxHeight);
    assert parts[..0] == [];
    assert TilesOf([]) == [];
  }

  /** Opening a page: the old one is closed, and no cut could have reached this far with fewer pages. */
  lemma ProgressBreaks(node: WeightedCollage, width: int, ordered: seq<Item>, shelves: seq<Shelf>, parts: seq<nat>,
                       cuts: seq<nat>, index: nat, closed: seq<Draft>, page: Draft, area: int)
    requires SoundShelves(node, width, ordered, parts, shelves) && Stackable(shelves) && EnoughRoom(shelves)
    requires Progress(node, width, ordered, shelves, parts, cuts, index, closed, page, area) && index < |shelves|
    requires page.tiles != []
    requires page.height + HeightAt(shelves, index) > node.maxHeight || |page.tiles| + parts[index] > MAX_PAGE_ITEMS
    ensures Ahead(Heights(shelves), Counts(parts), node.maxHeight, index, |closed| + 2)
    ensures Progress(node, width, ordered, shelves, parts, cuts + [index], index, closed + [page], Draft([], 0, 0), area)
  {
    hide HeightAt, NeededAt, Ahead, Tiled, Ranked, Sum, Bytes, Flat, ShelfSound, Stackable, EnoughRoom;
    HeightsNonNegative(node, width, ordered, shelves, parts);
    SumSliceStep(Heights(shelves), Reach(cuts), index);
    SumSliceStep(Counts(parts), Reach(cuts), index);
    AheadAtBreak(Heights(shelves), Counts(parts), node.maxHeight, Reach(cuts), index, |closed| + 1);
    CutExtends(Heights(shelves), Counts(parts), node.maxHeight, cuts, index);
    EmptyPageFilling(node, width, shelves, parts, index);
    NewPageFlat(closed, page);
    assert Flat(TilesOf(closed + [page])) + [] == Flat(TilesOf(closed)) + page.tiles;
  }

  lemma ProgressRow(node: WeightedCollage, width: int, ordered: seq<Item>, shelves: seq<Shelf>, parts: seq<nat>,
                    cuts: seq<nat>, index: nat, closed: seq<Draft>, page: Draft, area: int, row: seq<Tile>, height: int)
    requires SoundShelves(node, width, ordered, parts, shelves) && Stackable(shelves)
    requires Progress(node, width, ordered, shelves, parts, cuts, index, closed, page, area)
    requires index < |shelves| && parts[index] >= 1 && height >= 1 && page.height >= 0
    requires height == HeightAt(shelves, index) && shelves[index].low <= height <= shelves[index].high
    requires index > 0 ==> shelves[index].Widest() * height <= area
    requires page.height + height <= node.maxHeight && |page.tiles| + parts[index] <= MAX_PAGE_ITEMS
    requires IsRow(row, shelves[index], ordered, page.height, height) && |row| == parts[index]
    ensures Progress(node, width, ordered, shelves, parts, cuts, index + 1, closed,
                     Draft(page.tiles + row, page.height + height, page.bytes + Bytes(row)),
                     shelves[index].Narrowest() * height)
  {
    hide HeightAt, NeededAt, Ahead, Filling, Ranked, Sum, Bytes, Flat, IsRow, DraftSound, Stackable, ShelfSound, SoundShelves,
      DraftsSound, IsCut, Heights, TilesOf;
    FillingExtends(node, width, ordered, shelves, parts, Reach(cuts), index, page, row, height);
    RowRanked(node, width, ordered, shelves, parts, index, Flat(TilesOf(closed)) + page.tiles, row, page.height, height, area);
    assert Flat(TilesOf(closed)) + (page.tiles + row) == Flat(TilesOf(closed)) + page.tiles + row;
  }

  lemma ProgressEnds(node: WeightedCollage, width: int, ordered: seq<Item>, shelves: seq<Shelf>, parts: seq<nat>,
                     cuts: seq<nat>, closed: seq<Draft>, page: Draft, area: int)
    requires Stackable(shelves) && |shelves| == |parts| && Sum(parts) == |ordered|
    requires Progress(node, width, ordered, shelves, parts, cuts, |shelves|, closed, page, area) && page.tiles != []
    requires |closed| < node.maxPages
    ensures DraftsSound(node, width, closed + [page])
    ensures |Flat(TilesOf(closed + [page]))| == |ordered|
    ensures Ranked(node, ordered, Flat(TilesOf(closed + [page])), area)
    ensures Coverable(node, shelves, parts, node.maxPages)
  {
    hide HeightAt, NeededAt, Ahead, Tiled, Ranked, Sum, Bytes, Flat;
    NewPageFlat(closed, page);
    assert parts[..|shelves|] == parts;
    CutExtends(Heights(shelves), Counts(parts), node.maxHeight, cuts, |shelves|);
  }

  // ----- The pages as a function of shelves and heights -----

  ghost predicate Placeable(shelves: seq<Shelf>, ordered: seq<Item>) {
    forall i :: 0 <= i < |shelves| ==>
      1 <= shelves[i].firstRank && shelves[i].firstRank - 1 + |shelves[i].widths| <= |ordered|
  }

  lemma SoundIsPlaceable(node: WeightedCollage, width: int, ordered: seq<Item>, parts: seq<nat>, shelves: seq<Shelf>)
    requires SoundShelves(node, width, ordered, parts, shelves)
    ensures Placeable(shelves, ordered)
  {
    hide Sum;
    forall i | 0 <= i < |shelves|
      ensures 1 <= shelves[i].firstRank && shelves[i].firstRank - 1 + |shelves[i].widths| <= |ordered|
    {
      PartsWithin(parts, i);
    }
  }

  ghost function RowOf(shelf: Shelf, ordered: seq<Item>, top: int, height: int): seq<Tile>
    requires 1 <= shelf.firstRank && shelf.firstRank - 1 + |shelf.widths| <= |ordered|
  {
    seq(|shelf.widths|, k requires 0 <= k < |shelf.widths| => RowTile(shelf, ordered, top, height, k))
  }

  /** The page that holds the shelves from `a` up to `b`, stacked at the given heights. */
  ghost function Span(shelves: seq<Shelf>, ordered: seq<Item>, heights: seq<int>, a: nat, b: nat): Draft
    requires Placeable(shelves, ordered) && |heights| == |shelves| && b <= |shelves|
    decreases b
  {
    if b <= a then Draft([], 0, 0)
    else
      var above := Span(shelves, ordered, heights, a, b - 1);
      var row := RowOf(shelves[b - 1], ordered, above.height, heights[b - 1]);
      Draft(above.tiles + row, above.height + heights[b - 1], above.bytes + Bytes(row))
  }

  /** All pages from shelf `start` on, each as long as it can be. */
  ghost function Spans(shelves: seq<Shelf>, ordered: seq<Item>, heights: seq<int>, counts: seq<int>, maxHeight: int, start: nat):
    seq<Draft>
    requires Placeable(shelves, ordered) && |heights| == |counts| == |shelves| && start <= |shelves|
    decreases |shelves| - start
  {
    if start == |shelves| then []
    else
      var end := LongestFit(heights, counts, maxHeight, start);
      [Span(shelves, ordered, heights, start, end)] + Spans(shelves, ordered, heights, counts, maxHeight, end)
  }

  lemma {:induction false} SpansCount(shelves: seq<Shelf>, ordered: seq<Item>, heights: seq<int>, counts: seq<int>,
                                      maxHeight: int, start: nat)
    requires Placeable(shelves, ordered) && |heights| == |counts| == |shelves| && start <= |shelves|
    ensures |Spans(shelves, ordered, heights, counts, maxHeight, start)| == Pages(GreedyCuts(heights, counts, maxHeight, start))
    decreases |shelves| - start
  {
    if start < |shelves| {
      SpansCount(shelves, ordered, heights, counts, maxHeight, LongestFit(heights, counts, maxHeight, start));
    }
  }

  /** The page loop has closed the first pages of the plan and is filling the next one. */
  ghost predicate Follows(shelves: seq<Shelf>, ordered: seq<Item>, heights: seq<int>, counts: seq<int>, maxHeight: int,
                          start: nat, index: nat, closed: seq<Draft>, page: Draft)
    requires Placeable(shelves, ordered) && |heights| == |counts| == |shelves|
  {
    && start <= index <= |shelves|
    && page == Span(shelves, ordered, heights, start, index)
    && closed + Spans(shelves, ordered, heights, counts, maxHeight, start) == Spans(shelves, ordered, heights, counts, maxHeight, 0)
  }

  lemma FollowsStarts(shelves: seq<Shelf>, ordered: seq<Item>, heights: seq<int>, counts: seq<int>, maxHeight: int)
    requires Placeable(shelves, ordered) && |heights| == |counts| == |shelves|
    ensures Follows(shelves, ordered, heights, counts, maxHeight, 0, 0, [], Draft([], 0, 0))
  {
    hide Spans;
  }

  lemma FollowsRow(shelves: seq<Shelf>, ordered: seq<Item>, heights: seq<int>, counts: seq<int>, maxHeight: int,
                   start: nat, index: nat, closed: seq<Draft>, page: Draft, row: seq<Tile>)
    requires Placeable(shelves, ordered) && |heights| == |counts| == |shelves|
    requires Follows(shelves, ordered, heights, counts, maxHeight, start, index, closed, page) && index < |shelves|
    requires IsRow(row, shelves[index], ordered, page.height, heights[index])
    ensures Follows(shelves, ordered, heights, counts, maxHeight, start, index + 1, closed,
                    Draft(page.tiles + row, page.height + heights[index], page.bytes + Bytes(row)))
  {
    hide Spans, RowTile, Bytes;
    assert row == RowOf(shelves[index], ordered, page.height, heights[index]);
  }

  /** The page in hand is the longest that fits: it joins the closed ones. */
  lemma FollowsCloses(shelves: seq<Shelf>, ordered: seq<Item>, heights: seq<int>, counts: seq<int>, maxHeight: int,
                      start: nat, index: nat, closed: seq<Draft>, page: Draft)
    requires Placeable(shelves, ordered) && |heights| == |counts| == |shelves|
    requires NonNegative(heights) && NonNegative(counts)
    requires Follows(shelves, ordered, heights, counts, maxHeight, start, index, closed, page) && start < index
    requires Fits(heights, counts, maxHeight, start, index)
    requires index == |shelves| || !Fits(heights, counts, maxHeight, start, index + 1)
    ensures Follows(shelves, ordered, heights, counts, maxHeight, index, index, closed + [page], Draft([], 0, 0))
    ensures index == |shelves| ==> closed + [page] == Spans(shelves, ordered, heights, counts, maxHeight, 0)
  {
    hide Fits, Placeable;
    StretchReaches(heights, counts, maxHeight, start, start + 1, index);
    assert LongestFit(heights, counts, maxHeight, start) == index;
    var rest := Spans(shelves, ordered, heights, counts, maxHeight, index);
    assert closed + ([page] + rest) == (closed + [page]) + rest;
  }

  /** The page loop's own measures say whether the next shelf fits. */
  lemma FillingFits(node: WeightedCollage, width: int, shelves: seq<Shelf>, parts: seq<nat>, start: nat, index: nat, page: Draft)
    requires Stackable(shelves) && |shelves| == |parts| && Filling(node, width, shelves, parts, start, index, page)
    requires page.tiles != []
    ensures Fits(Heights(shelves), Counts(parts), node.maxHeight, start, index)
    ensures index < |shelves| && (page.height + HeightAt(shelves, index) > node.maxHeight || |page.tiles| + parts[index] > MAX_PAGE_ITEMS)
      ==> !Fits(Heights(shelves), Counts(parts), node.maxHeight, start, index + 1)
  {
    hide HeightAt, NeededAt, Tiled, Sum, Bytes, Stackable;
    if index < |shelves| {
      HeightsAt(shelves, index);
      SumSliceStep(Heights(shelves), start, index);
      SumSliceStep(Counts(parts), start, index);
    }
  }

  /** The pages planned for these shelves. */
  ghost function PlannedDrafts(node: WeightedCollage, ordered: seq<Item>, parts: seq<nat>, shelves: seq<Shelf>): seq<Draft>
    requires Stackable(shelves) && Placeable(shelves, ordered) && |shelves| == |parts|
  {
    Spans(shelves, ordered, Heights(shelves), Counts(parts), node.maxHeight, 0)
  }

  ghost predicate OnPlan(node: WeightedCollage, ordered: seq<Item>, shelves: seq<Shelf>, parts: seq<nat>,
                         cuts: seq<nat>, index: nat, closed: seq<Draft>, page: Draft)
    requires Stackable(shelves) && Placeable(shelves, ordered) && |shelves| == |parts|
  {
    cuts != [] && Follows(shelves, ordered, Heights(shelves), Counts(parts), node.maxHeight, Reach(cuts), index, closed, page)
  }

  lemma OnPlanStarts(node: WeightedCollage, ordered: seq<Item>, shelves: seq<Shelf>, parts: seq<nat>)
    requires Stackable(shelves) && Placeable(shelves, ordered) && |shelves| == |parts|
    ensures OnPlan(node, ordered, shelves, parts, [0], 0, [], Draft([], 0, 0))
  {
    FollowsStarts(shelves, ordered, Heights(shelves), Counts(parts), node.maxHeight);
  }

  lemma OnPlanCloses(node: WeightedCollage, width: int, ordered: seq<Item>, shelves: seq<Shelf>, parts: seq<nat>,
                     cuts: seq<nat>, index: nat, closed: seq<Draft>, page: Draft, area: int)
    requires SoundShelves(node, width, ordered, parts, shelves) && Stackable(shelves) && EnoughRoom(shelves)
    requires Placeable(shelves, ordered) && OnPlan(node, ordered, shelves, parts, cuts, index, closed, page)
    requires Progress(node, width, ordered, shelves, parts, cuts, index, closed, page, area) && page.tiles != []
    requires index < |shelves| ==>
      page.height + HeightAt(shelves, index) > node.maxHeight || |page.tiles| + parts[index] > MAX_PAGE_ITEMS
    ensures index < |shelves| ==> OnPlan(node, ordered, shelves, parts, cuts + [index], index, closed + [page], Draft([], 0, 0))
    ensures index == |shelves| ==> closed + [page] == PlannedDrafts(node, ordered, parts, shelves)
  {
    hide HeightAt, NeededAt, Ahead, Ranked, Sum, Bytes, Flat, Fits, Tiled, Placeable, Stackable, EnoughRoom, Follows, Spans, Span;
    HeightsNonNegative(node, width, ordered, shelves, parts);
    FillingFits(node, width, shelves, parts, Reach(cuts), index, page);
    FollowsCloses(shelves, ordered, Heights(shelves), Counts(parts), node.maxHeight, Reach(cuts), index, closed, page);
  }

  lemma OnPlanRow(node: WeightedCollage, ordered: seq<Item>, shelves: seq<Shelf>, parts: seq<nat>,
                  cuts: seq<nat>, index: nat, closed: seq<Draft>, page: Draft, row: seq<Tile>, height: int)
    requires Stackable(shelves) && Placeable(shelves, ordered) && |shelves| == |parts| && index < |shelves|
    requires OnPlan(node, ordered, shelves, parts, cuts, index, closed, page) && height == HeightAt(shelves, index)
    requires IsRow(row, shelves[index], ordered, page.height, height)
    ensures OnPlan(node, ordered, shelves, parts, cuts, index + 1, closed,
                   Draft(page.tiles + row, page.height + height, page.bytes + Bytes(row)))
  {
    hide HeightAt, NeededAt, Placeable, Stackable, Follows, IsRow, Bytes;
    HeightsAt(shelves, index);
    FollowsRow(shelves, ordered, Heights(shelves), Counts(parts), node.maxHeight, Reach(cuts), index, closed, page, row);
  }

  /** Fails exactly when no cut at shelf boundaries covers the shelves within the page limit. */
  method CutPages(node: WeightedCollage, width: int, ordered: seq<Item>, parts: seq<nat>, shelves: seq<Shelf>, needed: seq<int>)
    returns (r: Option<seq<Draft>>)
    requires SoundShelves(node, width, ordered, parts, shelves) && Stackable(shelves) && EnoughRoom(shelves)
    requires shelves != [] && node.maxPages >= 1 && forall i :: 0 <= i < |parts| ==> 1 <= parts[i] <= 8
    requires |needed| == |shelves| && forall i :: 0 <= i < |shelves| ==> needed[i] == NeededAt(shelves, i)
    ensures r.Some? <==> Coverable(node, shelves, parts, node.maxPages)
    ensures r.Some? ==> 1 <= |r.value| <= node.maxPages && DraftsSound(node, width, r.value)
    ensures r.Some? ==> |Flat(TilesOf(r.value))| == |ordered|
    ensures r.Some? ==> exists floor :: Ranked(node, ordered, Flat(TilesOf(r.value)), floor)
    ensures Placeable(shelves, ordered) && (r.Some? ==> r.value == PlannedDrafts(node, ordered, parts, shelves))
  {
    hide HeightAt, NeededAt, Tiled, Ranked, Sum, Bytes, Flat, AspectKept, RowTile, OnPlan, Placeable, PlannedDrafts;
    SoundIsPlaceable(node, width, ordered, parts, shelves);
    OnPlanStarts(node, ordered, shelves, parts);
    var closed: seq<Draft> := [];
    var page := Draft([], 0, 0);
    var previousMinArea := 0;
    ghost var cuts: seq<nat> := [0];
    ProgressStarts(node, width, ordered, shelves, parts);
    for index := 0 to |shelves|
      invariant |closed| < node.maxPages
      invariant index > 0 ==> page.tiles != []
      invariant Progress(node, width, ordered, shelves, parts, cuts, index, closed, page, previousMinArea)
      invariant OnPlan(node, ordered, shelves, parts, cuts, index, closed, page)
    {
      var shelf := shelves[index];
      var height := NextHeight(shelves, needed, index, previousMinArea);
      if page.tiles != [] && (page.height + height > node.maxHeight || |page.tiles| + |shelf.widths| > MAX_PAGE_ITEMS) {
        OnPlanCloses(node, width, ordered, shelves, parts, cuts, index, closed, page, previousMinArea);
        ProgressBreaks(node, width, ordered, shelves, parts, cuts, index, closed, page, previousMinArea);
        if |closed| + 1 >= node.maxPages { return None; }
        closed := closed + [page];
        page := Draft([], 0, 0);
        cuts := cuts + [index];
      }
      PartsWithin(parts, index);
      var row, bytes := PlaceRow(shelf, ordered, page.height, height);
      OnPlanRow(node, ordered, shelves, parts, cuts, index, closed, page, row, height);
      ProgressRow(node, width, ordered, shelves, parts, cuts, index, closed, page, previousMinArea, row, height);
      page := Draft(page.tiles + row, page.height + height, page.bytes + bytes);
      previousMinArea := shelf.Narrowest() * height;
    }
    OnPlanCloses(node, width, ordered, shelves, parts, cuts, |shelves|, closed, page, previousMinArea);
    ProgressEnds(node, width, ordered, shelves, parts, cuts, closed, page, previousMinArea);
    return Some(closed + [page]);
  }

  // ----- The whole plan -----

  function Maximum(node: WeightedCollage, width: int): nat
    requires width >= 0
  {
    Min(Min(8, width / 90), |node.items|)
  }

  function Base(node: WeightedCollage, width: int): nat
    requires width >= 0
  {
    var n := |node.items|;
    Min(Maximum(node, width), if n <= 8 then n else if n <= 64 then 6 else 8)
  }

  function ProblemOf(node: WeightedCollage, width: int, penalty: (nat, nat) -> real): (p: Problem)
    requires width >= 0
    ensures p.Valid()
  {
    OrderedCorrect(node.items);
    var ordered := Ordered(node.items);
    var n := |ordered|;
    Problem(n, Maximum(node, width),
            seq(n, i requires 0 <= i < n => Target(ordered, Base(node, width), i)), penalty)
  }

  function Chosen(node: WeightedCollage, width: int, penalty: (nat, nat) -> real): Choice
    requires width >= 0
  {
    Choose(ProblemOf(node, width, penalty), 0, FirstRow(|node.items|))
  }

  /** A chosen composition of the ranks into rows of at most eight. */
  ghost predicate Rows(node: WeightedCollage, parts: seq<nat>) {
    && parts != [] && Sum(parts) == |node.items|
    && (forall i :: 0 <= i < |parts| ==> 1 <= parts[i] <= 8)
  }

  lemma ChosenRows(node: WeightedCollage, width: int, penalty: (nat, nat) -> real)
    requires width >= 0 && |node.items| >= 1 && Chosen(node, width, penalty).Found?
    ensures Rows(node, Chosen(node, width, penalty).parts)
  {
    OrderedCorrect(node.items);
    ChooseOptimal(ProblemOf(node, width, penalty), 0, FirstRow(|node.items|));
  }

  lemma OrderedPositive(node: WeightedCollage, width: int)
    requires Accepted(node, width)
    ensures AllPositive(Ordered(node.items)) && |Ordered(node.items)| == |node.items|
  {
    OrderedCorrect(node.items);
    forall i | 0 <= i < |node.items| ensures Ordered(node.items)[i].weight > 0.0 {
      assert Ordered(node.items)[i] in node.items;
    }
  }

  ghost predicate RowsFit(node: WeightedCollage, width: int, parts: seq<nat>)
    requires Accepted(node, width) && Rows(node, parts)
  {
    OrderedPositive(node, width);
    forall i :: 0 <= i < |parts| ==> ShelfOfRow(node, width, Ordered(node.items), parts, i).Some?
  }

  lemma SoundRows(node: WeightedCollage, width: int, ordered: seq<Item>, parts: seq<nat>, shelves: seq<Shelf>)
    requires Sum(parts) == |ordered| && AllPositive(ordered) && node.preferredAspect > 0.0 && |shelves| == |parts|
    requires forall i :: 0 <= i < |parts| ==> parts[i] >= 1
    requires forall i :: 0 <= i < |parts| ==> ShelfOfRow(node, width, ordered, parts, i) == Some(shelves[i])
    ensures SoundShelves(node, width, ordered, parts, shelves) && Stackable(shelves) && Placeable(shelves, ordered)
  {
    hide ShelfOfRow, ShelfSound, Sum;
    forall i | 0 <= i < |parts|
      ensures ShelfSound(node, width, parts[i], shelves[i]) && shelves[i].firstRank == Sum(parts[..i]) + 1
    {
      ShelfOfRowSound(node, width, ordered, parts, i);
    }
    SoundIsStackable(node, width, ordered, parts, shelves);
    SoundIsPlaceable(node, width, ordered, parts, shelves);
  }

  ghost function ShelvesOf(node: WeightedCollage, width: int, parts: seq<nat>): (shelves: seq<Shelf>)
    requires Accepted(node, width) && Rows(node, parts) && RowsFit(node, width, parts)
    ensures |shelves| == |parts| && Stackable(shelves) && Placeable(shelves, Ordered(node.items))
  {
    OrderedPositive(node, width);
    hide ShelfOfRow, Sum, Stackable, Placeable, SoundShelves, Sort;
    var ordered := Ordered(node.items);
    var shelves := seq(|parts|, i requires 0 <= i < |parts| => ShelfOfRow(node, width, ordered, parts, i).value);
    SoundRows(node, width, ordered, parts, shelves);
    shelves
  }

  /** Rows, heights and page boundaries all exist for the chosen row lengths. */
  ghost predicate Layable(node: WeightedCollage, width: int, penalty: (nat, nat) -> real)
    requires Accepted(node, width)
  {
    && Maximum(node, width) >= FirstRow(|node.items|)
    && Chosen(node, width, penalty).Found?
    && (ChosenRows(node, width, penalty);
        var parts := Chosen(node, width, penalty).parts;
        && RowsFit(node, width, parts)
        && Feasible(ShelvesOf(node, width, parts))
        && Coverable(node, ShelvesOf(node, width, parts), parts, node.maxPages))
  }

  function PageTiles(pages: seq<Page>): seq<seq<Tile>> {
    seq(|pages|, i requires 0 <= i < |pages| => pages[i].tiles)
  }

  ghost predicate PageSound(node: WeightedCollage, width: int, pages: seq<Page>, i: nat)
    requires i < |pages|
  {
    var page := pages[i];
    && page.index == i + 1 && page.count == |pages| && page.width == width && page.totalItems == |node.items|
    && page.tiles != [] && |page.tiles| <= 64
    && 1 <= page.height <= node.maxHeight
    && Tiled(page.tiles, width, page.height)
  }

  /** Pages that show every item once, ranked, within the page, height and item limits. */
  ghost predicate GoodLayout(node: WeightedCollage, width: int, pages: seq<Page>) {
    var tiles := Flat(PageTiles(pages));
    && 1 <= |pages| <= node.maxPages
    && (forall i :: 0 <= i < |pages| ==> PageSound(node, width, pages, i))
    && |tiles| == |node.items|
    && (exists floor :: Ranked(node, Ordered(node.items), tiles, floor))
  }

  ghost predicate WithinBytes(pages: seq<Page>) {
    && Bytes(Flat(PageTiles(pages))) <= 33554432
    && (forall i :: 0 <= i < |pages| ==> Bytes(pages[i].tiles) <= 8388608)
  }

  /** Everything the planner promises about the pages it returns. */
  ghost predicate GoodPages(node: WeightedCollage, width: int, pages: seq<Page>) {
    GoodLayout(node, width, pages) && WithinBytes(pages)
  }

  function TotalBytes(drafts: seq<Draft>): nat {
    if drafts == [] then 0 else drafts[0].bytes + TotalBytes(drafts[1..])
  }

  lemma {:induction false} TotalBytesFlat(drafts: seq<Draft>)
    requires forall i :: 0 <= i < |drafts| ==> drafts[i].bytes == Bytes(drafts[i].tiles)
    ensures TotalBytes(drafts) == Bytes(Flat(TilesOf(drafts)))
  {
    if drafts != [] {
      TotalBytesFlat(drafts[1..]);
      assert TilesOf(drafts)[1..] == TilesOf(drafts[1..]);
      BytesAppend(drafts[0].tiles, Flat(TilesOf(drafts[1..])));
    }
  }

  function PagesFrom(node: WeightedCollage, width: int, drafts: seq<Draft>): seq<Page> {
    seq(|drafts|, i requires 0 <= i < |drafts| =>
      Page(i + 1, |drafts|, width, drafts[i].height, drafts[i].tiles, |node.items|))
  }

  predicate TooManyBytes(drafts: seq<Draft>) {
    TotalBytes(drafts) > MAX_SOURCE_BYTES
    || exists i :: 0 <= i < |drafts| && drafts[i].bytes > MAX_PAGE_SOURCE_BYTES
  }

  lemma LayoutFromDrafts(node: WeightedCollage, width: int, drafts: seq<Draft>)
    requires 1 <= |drafts| <= node.maxPages && DraftsSound(node, width, drafts)
    requires |Flat(TilesOf(drafts))| == |node.items|
    requires exists floor :: Ranked(node, Ordered(node.items), Flat(TilesOf(drafts)), floor)
    ensures GoodLayout(node, width, PagesFrom(node, width, drafts))
  {
    hide Tiled, Flat, Bytes, Ranked, KeyLeq, RanksBefore, Sort;
    assert PageTiles(PagesFrom(node, width, drafts)) == TilesOf(drafts);
  }

  lemma BytesOfDrafts(node: WeightedCollage, width: int, drafts: seq<Draft>)
    requires DraftsSound(node, width, drafts)
    ensures WithinBytes(PagesFrom(node, width, drafts)) <==> !TooManyBytes(drafts)
  {
    hide Tiled, Flat, Bytes;
    assert PageTiles(PagesFrom(node, width, drafts)) == TilesOf(drafts);
    assert forall i :: 0 <= i < |drafts| ==>
      PagesFrom(node, width, drafts)[i].tiles == drafts[i].tiles && drafts[i].bytes == Bytes(drafts[i].tiles);
    TotalBytesFlat(drafts);
  }

  ghost function PlannedShelves(node: WeightedCollage, width: int, penalty: (nat, nat) -> real): (shelves: seq<Shelf>)
    requires Accepted(node, width) && Layable(node, width, penalty)
    ensures Stackable(shelves) && Placeable(shelves, Ordered(node.items)) && Feasible(shelves)
    ensures Chosen(node, width, penalty).Found? && |shelves| == |Chosen(node, width, penalty).parts| >= 1
  {
    ChosenRows(node, width, penalty);
    ShelvesOf(node, width, Chosen(node, width, penalty).parts)
  }

  /** The drafts of the chosen composition, at its forward heights, every page as long as it can be. */
  ghost function DraftsOf(node: WeightedCollage, width: int, penalty: (nat, nat) -> real): seq<Draft>
    requires Accepted(node, width) && Layable(node, width, penalty)
  {
    PlannedDrafts(node, Ordered(node.items), Chosen(node, width, penalty).parts, PlannedShelves(node, width, penalty))
  }

  /** The plan: what the optimal composition, the greatest heights and the longest pages determine. */
  ghost function Planned(node: WeightedCollage, width: int, penalty: (nat, nat) -> real): seq<Page>
    requires Accepted(node, width) && Layable(node, width, penalty)
  {
    PagesFrom(node, width, DraftsOf(node, width, penalty))
  }

  /** Shelves, heights and pages for an accepted collage, before the byte limit. */
  method LayOut(node: WeightedCollage, width: int, penalty: (nat, nat) -> real) returns (r: Option<seq<Draft>>)
    requires Accepted(node, width)
    ensures r.Some? <==> Layable(node, width, penalty)
    ensures r.Some? ==> r.value == DraftsOf(node, width, penalty)
    ensures r.Some? ==> 1 <= |r.value| <= node.maxPages && DraftsSound(node, width, r.value)
    ensures r.Some? ==> |Flat(TilesOf(r.value))| == |node.items|
    ensures r.Some? ==> exists floor :: Ranked(node, Ordered(node.items), Flat(TilesOf(r.value)), floor)
  {
    hide ShelfOfRow, ShelfSound, Choose, Heights, Tiled, Flat, TilesOf, Ranked, Coverable, Assignment, NeededAt,
      Target, KeyLeq, RanksBefore, Sort, Sum, PlannedDrafts, Placeable;
    OrderedPositive(node, width);
    var ordered := Ordered(node.items);
    var n := |ordered|;
    var maximum := Min(Min(8, width / 90), n);
    if maximum < (if n == 1 then 1 else 2) { return None; }
    var base := Min(maximum, if n <= 8 then n else if n <= 64 then 6 else 8);
    var desired := DesiredTargets(ordered, base);
    assert desired == ProblemOf(node, width, penalty).desired;
    var choice := Choose(Problem(n, maximum, desired, penalty), 0, FirstRow(n));
    assert choice == Chosen(node, width, penalty);
    if choice.Infeasible? { return None; }
    ChosenRows(node, width, penalty);
    var parts := choice.parts;
    var shelves := BuildShelves(node, width, ordered, parts);
    if shelves.None? { return None; }
    assert shelves.value == ShelvesOf(node, width, parts);
    var needed := MinimumHeights(shelves.value);
    if needed.None? { return None; }
    r := CutPages(node, width, ordered, parts, shelves.value, needed.value);
  }

  /** The planner returns the plan, and each refusal has its exact cause. */
  method PlanCollage(node: WeightedCollage, width: int, penalty: (nat, nat) -> real) returns (r: Result<seq<Page>>)
    ensures r == Unavailable(InvalidInput) <==> !Accepted(node, width)
    ensures r == Unavailable(LayoutOverflow) <==> Accepted(node, width) && !Layable(node, width, penalty)
    ensures r == Unavailable(ByteLimit) <==>
      Accepted(node, width) && Layable(node, width, penalty) && !WithinBytes(Planned(node, width, penalty))
    ensures r.Success? ==> Accepted(node, width) && Layable(node, width, penalty)
    ensures r.Success? ==> r.value == Planned(node, width, penalty) && GoodPages(node, width, r.value)
  {
    if !Accepted(node, width) { return Unavailable(InvalidInput); }
    hide Layable, GoodLayout, WithinBytes, DraftsSound, DraftsOf, KeyLeq, RanksBefore, Sort, Ranked, Flat;
    var drafts := LayOut(node, width, penalty);
    if drafts.None? { return Unavailable(LayoutOverflow); }
    var pages := PagesFrom(node, width, drafts.value);
    LayoutFromDrafts(node, width, drafts.value);
    BytesOfDrafts(node, width, drafts.value);
    if TooManyBytes(drafts.value) { return Unavailable(ByteLimit); }
    r := Success(pages);
  }

  /** The plan's rows are the cheapest composition, the lexicographically first among equals. */
  lemma PlannedRowsAreCheapest(node: WeightedCollage, width: int, penalty: (nat, nat) -> real, other: seq<nat>)
    requires Accepted(node, width) && Layable(node, width, penalty)
    requires Shelving(ProblemOf(node, width, penalty), 0, FirstRow(|node.items|), other)
    ensures Shelving(ProblemOf(node, width, penalty), 0, FirstRow(|node.items|), Chosen(node, width, penalty).parts)
    ensures Beats(ProblemOf(node, width, penalty), 0, Chosen(node, width, penalty), other)
  {
    var p := ProblemOf(node, width, penalty);
    hide Choose, Cost, LexLeq, Layable;
    ChooseOptimal(p, 0, FirstRow(|node.items|));
    assert BestBelow(p, 0, FirstRow(|node.items|), p.maximum + 1, Chosen(node, width, penalty));
  }

  /** Its heights descend in area, and no assignment below the wanted heights is taller anywhere. */
  lemma PlannedHeightsAreGreatest(node: WeightedCollage, width: int, penalty: (nat, nat) -> real, heights: seq<int>, i: nat)
    requires Accepted(node, width) && Layable(node, width, penalty) && i < |PlannedShelves(node, width, penalty)|
    requires Assignment(PlannedShelves(node, width, penalty), heights)
    requires var shelves := PlannedShelves(node, width, penalty);
      forall k :: 0 <= k < |shelves| ==> heights[k] <= Max(shelves[k].nominal, NeededAt(shelves, k))
    ensures var shelves := PlannedShelves(node, width, penalty);
      Assignment(shelves, Heights(shelves)) && heights[i] <= Heights(shelves)[i]
  {
    hide Layable, PlannedShelves, NeededAt;
    var shelves := PlannedShelves(node, width, penalty);
    FeasibleHasRoom(shelves, heights);
    ForwardIsAssignment(shelves);
    ForwardIsGreatest(shelves, heights, i);
  }

  /** And no cut of its shelves into pages has fewer of them. */
  lemma PlannedPagesAreFewest(node: WeightedCollage, width: int, penalty: (nat, nat) -> real, cuts: seq<nat>)
    requires Accepted(node, width) && Layable(node, width, penalty)
    requires var shelves := PlannedShelves(node, width, penalty);
      IsCut(Heights(shelves), Counts(Chosen(node, width, penalty).parts), node.maxHeight, cuts) && Reach(cuts) == |shelves|
    ensures |Planned(node, width, penalty)| <= Pages(cuts)
  {
    hide Layable, PlannedShelves, Chosen, Ordered, NeededAt, HeightAt, Spans, IsCut;
    var shelves, parts := PlannedShelves(node, width, penalty), Chosen(node, width, penalty).parts;
    var heights :| Assignment(shelves, heights);
    FeasibleHasRoom(shelves, heights);
    ForwardIsAssignment(shelves);
    assert NonNegative(Heights(shelves));
    GreedyIsFewest(Heights(shelves), Counts(parts), node.maxHeight, cuts);
    SpansCount(shelves, Ordered(node.items), Heights(shelves), Counts(parts), node.maxHeight, 0);
  }

  /** The point of the collage: on whatever pages they land, a heavier item never gets a smaller tile. */
  lemma HeavierIsNeverSmaller(node: WeightedCollage, width: int, pages: seq<Page>, a: nat, b: nat)
    requires GoodPages(node, width, pages)
    requires a < |node.items| && b < |node.items|
    requires Flat(PageTiles(pages))[a].item.weight > Flat(PageTiles(pages))[b].item.weight
    ensures Flat(PageTiles(pages))[a].Area() >= Flat(PageTiles(pages))[b].Area()
    ensures Flat(PageTiles(pages))[a].rank < Flat(PageTiles(pages))[b].rank
  {
    OrderedCorrect(node.items);
  }

  /** Every item is shown exactly once. */
  lemma EveryItemShownOnce(node: WeightedCollage, width: int, pages: seq<Page>)
    requires GoodPages(node, width, pages)
    ensures multiset(Items(Flat(PageTiles(pages)))) == multiset(node.items)
  {
    OrderedCorrect(node.items);
    assert Items(Flat(PageTiles(pages))) == Ordered(node.items);
  }

  function Items(tiles: seq<Tile>): seq<Item> {
    seq(|tiles|, i requires 0 <= i < |tiles| => tiles[i].item)
  }
}
