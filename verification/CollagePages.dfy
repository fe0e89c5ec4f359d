/** Tiles, pages, and the geometry facts that adding one full shelf to a page preserves. */
module CollagePages {
  import opened Sorting
  import opened CollageOrder
  import opened Shelves

  const MAX_PAGE_ITEMS := 64
  const MAX_SOURCE_BYTES := 32 * 1024 * 1024
  const MAX_PAGE_SOURCE_BYTES := 8 * 1024 * 1024

  datatype Tile = Tile(item: Item, left: int, top: int, right: int, bottom: int, rank: nat) {
    function Width(): int { right - left }
    function Height(): int { bottom - top }
    function Area(): int { Width() * Height() }

    predicate Covers(x: int, y: int) { left <= x < right && top <= y < bottom }
    predicate Inside(width: int, height: int) { 0 <= left < right <= width && 0 <= top < bottom <= height }
  }

  datatype Page = Page(index: nat, count: nat, width: int, height: int, tiles: seq<Tile>, totalItems: nat)

  ghost predicate Painted(tiles: seq<Tile>, x: int, y: int) {
    exists i :: 0 <= i < |tiles| && tiles[i].Covers(x, y)
  }

  /** The tiles partition the width-by-height rectangle: every pixel lies in exactly one tile. */
  ghost predicate Tiled(tiles: seq<Tile>, width: int, height: int) {
    && (forall i :: 0 <= i < |tiles| ==> tiles[i].Inside(width, height))
    && (forall x, y :: 0 <= x < width && 0 <= y < height ==> Painted(tiles, x, y))
    && (forall i, j, x, y :: 0 <= i < j < |tiles| && tiles[i].Covers(x, y) ==> !tiles[j].Covers(x, y))
  }

  // ----- One row of tiles -----

  function RowTile(shelf: Shelf, ordered: seq<Item>, top: int, height: int, k: nat): Tile
    requires k < |shelf.widths| && 1 <= shelf.firstRank && shelf.firstRank - 1 + k < |ordered|
  {
    Tile(ordered[shelf.firstRank - 1 + k], Sum(shelf.widths[..k]), top, Sum(shelf.widths[..k + 1]), top + height,
         shelf.firstRank + k)
  }

  /** Places one shelf left to right at `top`. */
  method PlaceRow(shelf: Shelf, ordered: seq<Item>, top: int, height: int) returns (row: seq<Tile>, bytes: nat)
    requires 1 <= shelf.firstRank && shelf.firstRank - 1 + |shelf.widths| <= |ordered|
    ensures |row| == |shelf.widths|
    ensures forall k :: 0 <= k < |row| ==> row[k] == RowTile(shelf, ordered, top, height, k)
    ensures bytes == Bytes(row)
  {
    row, bytes := [], 0;
    var x := 0;
    for offset := 0 to |shelf.widths|
      invariant |row| == offset && x == Sum(shelf.widths[..offset])
      invariant forall k :: 0 <= k < offset ==> row[k] == RowTile(shelf, ordered, top, height, k)
      invariant bytes == Bytes(row)
    {
      SumPrefixStep(shelf.widths, offset);
      var rank := shelf.firstRank + offset;
      var item := ordered[rank - 1];
      var tile := Tile(item, x, top, x + shelf.widths[offset], top + height, rank);
      BytesAppend(row, [tile]);
      row := row + [tile];
      bytes := bytes + item.bytes;
      x := x + shelf.widths[offset];
    }
  }

  function Bytes(tiles: seq<Tile>): nat {
    if tiles == [] then 0 else tiles[0].item.bytes + Bytes(tiles[1..])
  }

  lemma {:induction false} BytesAppend(a: seq<Tile>, b: seq<Tile>)
    ensures Bytes(a + b) == Bytes(a) + Bytes(b)
  {
    if a == [] {
      assert a + b == b;
    } else {
      BytesAppend(a[1..], b);
      assert (a + b)[1..] == a[1..] + b;
    }
  }

  ghost predicate Positive(widths: seq<int>) { forall i :: 0 <= i < |widths| ==> widths[i] > 0 }

  lemma {:induction false} PrefixOrder(widths: seq<int>, j: nat, k: nat)
    requires Positive(widths) && j <= k <= |widths|
    ensures 0 <= Sum(widths[..j]) <= Sum(widths[..k]) <= Sum(widths)
    ensures j < k ==> Sum(widths[..j]) < Sum(widths[..k])
    decreases |widths| - j
  {
    assert widths[..|widths|] == widths;
    if j < k {
      SumPrefixStep(widths, j);
      PrefixOrder(widths, j + 1, k);
      if j > 0 { PrefixNonNegative(widths, j); }
    } else if k < |widths| {
      SumPrefixStep(widths, k);
      PrefixOrder(widths, k + 1, k + 1);
      PrefixNonNegative(widths, k);
    } else {
      PrefixNonNegative(widths, k);
    }
  }

  lemma {:induction false} PrefixNonNegative(widths: seq<int>, k: nat)
    requires Positive(widths) && k <= |widths|
    ensures Sum(widths[..k]) >= 0
  {
    if k > 0 {
      PrefixNonNegative(widths, k - 1);
      SumPrefixStep(widths, k - 1);
    }
  }

  /** Every column of the row lies in some width. */
  lemma {:induction false} ColumnCovered(widths: seq<int>, x: int, k: nat) returns (i: nat)
    requires Positive(widths) && k <= |widths| && 0 <= x < Sum(widths[..k])
    ensures i < k && Sum(widths[..i]) <= x < Sum(widths[..i + 1])
  {
    SumPrefixStep(widths, k - 1);
    if x >= Sum(widths[..k - 1]) {
      i := k - 1;
    } else {
      i := ColumnCovered(widths, x, k - 1);
    }
  }

  ghost predicate IsRow(row: seq<Tile>, shelf: Shelf, ordered: seq<Item>, top: int, height: int) {
    && 1 <= shelf.firstRank && shelf.firstRank - 1 + |shelf.widths| <= |ordered|
    && |row| == |shelf.widths|
    && (forall k :: 0 <= k < |row| ==> row[k] == RowTile(shelf, ordered, top, height, k))
  }

  lemma RowCovers(row: seq<Tile>, shelf: Shelf, ordered: seq<Item>, top: int, height: int, x: int, y: int)
    requires IsRow(row, shelf, ordered, top, height) && Positive(shelf.widths)
    requires 0 <= x < Sum(shelf.widths) && top <= y < top + height
    ensures Painted(row, x, y)
  {
    assert shelf.widths[..|shelf.widths|] == shelf.widths;
    var i := ColumnCovered(shelf.widths, x, |shelf.widths|);
    assert row[i].Covers(x, y);
  }

  lemma RowInside(row: seq<Tile>, shelf: Shelf, ordered: seq<Item>, top: int, height: int, i: nat)
    requires IsRow(row, shelf, ordered, top, height) && Positive(shelf.widths)
    requires top >= 0 && height >= 1 && i < |row|
    ensures row[i].Inside(Sum(shelf.widths), top + height)
    ensures row[i].top == top && row[i].Height() == height && row[i].Width() == shelf.widths[i]
  {
    PrefixOrder(shelf.widths, i, i + 1);
    SumPrefixStep(shelf.widths, i);
  }

  lemma RowDisjoint(row: seq<Tile>, shelf: Shelf, ordered: seq<Item>, top: int, height: int)
    requires IsRow(row, shelf, ordered, top, height) && Positive(shelf.widths)
    ensures forall i, j, x, y :: 0 <= i < j < |row| && row[i].Covers(x, y) ==> !row[j].Covers(x, y)
  {
    forall i, j, x, y | 0 <= i < j < |row| && row[i].Covers(x, y) ensures !row[j].Covers(x, y) {
      PrefixOrder(shelf.widths, i + 1, j);
    }
  }

  /** Adding a full-width row below a partitioned page partitions the taller page. */
  lemma TiledExtends(tiles: seq<Tile>, row: seq<Tile>, shelf: Shelf, ordered: seq<Item>, width: int, top: int, height: int)
    requires Tiled(tiles, width, top) && IsRow(row, shelf, ordered, top, height)
    requires Positive(shelf.widths) && Sum(shelf.widths) == width && top >= 0 && height >= 1
    ensures Tiled(tiles + row, width, top + height)
  {
    var all := tiles + row;
    forall i | 0 <= i < |all| ensures all[i].Inside(width, top + height) {
      if i >= |tiles| { RowInside(row, shelf, ordered, top, height, i - |tiles|); }
    }
    forall x, y | 0 <= x < width && 0 <= y < top + height
      ensures Painted(all, x, y)
    {
      if y < top {
        assert Painted(tiles, x, y);
        var i :| 0 <= i < |tiles| && tiles[i].Covers(x, y);
        assert all[i].Covers(x, y);
      } else {
        RowCovers(row, shelf, ordered, top, height, x, y);
        var i :| 0 <= i < |row| && row[i].Covers(x, y);
        assert all[|tiles| + i].Covers(x, y);
      }
    }
    RowDisjoint(row, shelf, ordered, top, height);
    forall i, j, x, y | 0 <= i < j < |all| && all[i].Covers(x, y) ensures !all[j].Covers(x, y) {
      if i < |tiles| <= j {
        assert tiles[i].Inside(width, top);
        RowInside(row, shelf, ordered, top, height, j - |tiles|);
      } else if |tiles| <= i {
        assert row[i - |tiles|].Covers(x, y);
        assert !row[j - |tiles|].Covers(x, y);
      }
    }
  }

  // ----- The sequence of all tiles in rank order -----

  function Flat(pages: seq<seq<Tile>>): seq<Tile> {
    if pages == [] then [] else pages[0] + Flat(pages[1..])
  }

  lemma {:induction false} FlatAppend(pages: seq<seq<Tile>>, page: seq<Tile>)
    ensures Flat(pages + [page]) == Flat(pages) + page
  {
    if pages == [] {
      assert pages + [page] == [page];
      assert Flat([page]) == page + Flat([page][1..]);
    } else {
      FlatAppend(pages[1..], page);
      assert (pages + [page])[1..] == pages[1..] + [page];
    }
  }

  /** Ranks are 1, 2, ..., items follow the rank order, aspects hold, no tile is below `floor`. */
  ghost predicate Ranked(node: WeightedCollage, ordered: seq<Item>, tiles: seq<Tile>, floor: int) {
    && |tiles| <= |ordered|
    && (forall k :: 0 <= k < |tiles| ==>
          && tiles[k].rank == k + 1
          && tiles[k].item == ordered[k]
          && AspectKept(node, tiles[k].Width(), tiles[k].Height())
          && tiles[k].Area() >= floor)
    && (forall a, b :: 0 <= a < b < |tiles| ==> tiles[a].Area() >= tiles[b].Area())
  }

  lemma RowAreas(row: seq<Tile>, shelf: Shelf, ordered: seq<Item>, top: int, height: int)
    requires IsRow(row, shelf, ordered, top, height) && Positive(shelf.widths) && top >= 0 && height >= 1
    requires forall i, j :: 0 <= i < j < |shelf.widths| ==> shelf.widths[i] >= shelf.widths[j]
    ensures forall i :: 0 <= i < |row| ==> row[i].Area() == shelf.widths[i] * height
    ensures forall i, j :: 0 <= i < j < |row| ==> row[i].Area() >= row[j].Area()
  {
    forall i | 0 <= i < |row| ensures row[i].Area() == shelf.widths[i] * height {
      RowInside(row, shelf, ordered, top, height, i);
    }
    forall i, j | 0 <= i < j < |row| ensures row[i].Area() >= row[j].Area() {
      assert shelf.widths[i] * height >= shelf.widths[j] * height;
    }
  }

  lemma RowRanks(node: WeightedCollage, row: seq<Tile>, shelf: Shelf, ordered: seq<Item>, top: int, height: int)
    requires IsRow(row, shelf, ordered, top, height) && Positive(shelf.widths) && top >= 0 && height >= 1
    requires forall i :: 0 <= i < |shelf.widths| ==> AspectKept(node, shelf.widths[i], height)
    ensures forall k :: 0 <= k < |row| ==>
      && row[k].rank == shelf.firstRank + k && row[k].item == ordered[shelf.firstRank - 1 + k]
      && AspectKept(node, row[k].Width(), row[k].Height())
  {
    hide AspectKept, Sum;
    forall k | 0 <= k < |row| ensures AspectKept(node, row[k].Width(), row[k].Height()) {
      RowInside(row, shelf, ordered, top, height, k);
    }
  }

  /** Joining two descending runs whose areas do not overlap. */
  lemma RankedJoin(node: WeightedCollage, ordered: seq<Item>, tiles: seq<Tile>, floor: int,
                   row: seq<Tile>, most: int, least: int)
    requires Ranked(node, ordered, tiles, floor) && row != [] && |tiles| + |row| <= |ordered|
    requires forall k :: 0 <= k < |row| ==>
      && row[k].rank == |tiles| + 1 + k && row[k].item == ordered[|tiles| + k]
      && AspectKept(node, row[k].Width(), row[k].Height())
    requires forall i, j :: 0 <= i < j < |row| ==> row[i].Area() >= row[j].Area()
    requires row[0].Area() == most && row[|row| - 1].Area() == least
    requires tiles != [] ==> most <= floor
    ensures Ranked(node, ordered, tiles + row, least)
  {
    hide AspectKept, Tile.Area, Tile.Width, Tile.Height;
    assert forall k :: 0 <= k < |row| ==> least <= row[k].Area() <= most;
    var all := tiles + row;
    forall a, b | 0 <= a < b < |all| ensures all[a].Area() >= all[b].Area() {
      if |tiles| <= a { assert row[a - |tiles|].Area() >= row[b - |tiles|].Area(); }
    }
  }

  lemma RankedExtends(node: WeightedCollage, ordered: seq<Item>, tiles: seq<Tile>, floor: int,
                      row: seq<Tile>, shelf: Shelf, top: int, height: int)
    requires Ranked(node, ordered, tiles, floor)
    requires IsRow(row, shelf, ordered, top, height) && shelf.firstRank == |tiles| + 1
    requires Positive(shelf.widths) && shelf.widths != [] && top >= 0 && height >= 1
    requires forall i, j :: 0 <= i < j < |shelf.widths| ==> shelf.widths[i] >= shelf.widths[j]
    requires forall i :: 0 <= i < |shelf.widths| ==> AspectKept(node, shelf.widths[i], height)
    requires tiles != [] ==> shelf.Widest() * height <= floor
    ensures Ranked(node, ordered, tiles + row, shelf.Narrowest() * height)
  {
    RowAreas(row, shelf, ordered, top, height);
    RowRanks(node, row, shelf, ordered, top, height);
    hide AspectKept, Sum, RowTile, IsRow, Ranked, Tile.Area, Tile.Width, Tile.Height;
    RankedJoin(node, ordered, tiles, floor, row, shelf.Widest() * height, shelf.Narrowest() * height);
  }
}
