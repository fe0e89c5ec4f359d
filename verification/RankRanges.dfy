/** The rank segments a page reports, and why a planned page always reports exactly one. */
module RankRanges {
  import opened Sorting
  import opened CollageOrder
  import opened CollagePages
  import opened CollagePlan

  predicate Leq(a: int, b: int) { a <= b }

  function Ranks(tiles: seq<Tile>): seq<int> {
    seq(|tiles|, i requires 0 <= i < |tiles| => tiles[i].rank)
  }

  function Merge(ranks: seq<int>): seq<(int, int)> {
    if ranks == [] then []
    else Extend(Merge(ranks[..|ranks| - 1]), ranks[|ranks| - 1])
  }

  /** Adds one more rank after all earlier ones: it lengthens the last segment or opens a new one. */
  function Extend(ranges: seq<(int, int)>, rank: int): seq<(int, int)> {
    if ranges != [] && rank == ranges[|ranges| - 1].1 + 1
    then ranges[..|ranges| - 1] + [(ranges[|ranges| - 1].0, rank)]
    else ranges + [(rank, rank)]
  }

  method RangesOf(tiles: seq<Tile>) returns (ranges: seq<(int, int)>)
    ensures ranges == Merge(Sort(Ranks(tiles), Leq))
  {
    var ranks := Sort(Ranks(tiles), Leq);
    ranges := [];
    for i := 0 to |ranks|
      invariant ranges == Merge(ranks[..i])
    {
      assert ranks[..i + 1][..i] == ranks[..i];
      var last := |ranges| - 1;
      if ranges != [] && ranks[i] == ranges[last].1 + 1 {
        ranges := ranges[..last] + [(ranges[last].0, ranks[i])];
      } else {
        ranges := ranges + [(ranks[i], ranks[i])];
      }
    }
    assert ranks[..|ranks|] == ranks;
  }

  ghost predicate InRange(ranges: seq<(int, int)>, rank: int) {
    exists k :: 0 <= k < |ranges| && ranges[k].0 <= rank <= ranges[k].1
  }

  ghost predicate Separate(ranges: seq<(int, int)>) {
    && (forall k :: 0 <= k < |ranges| ==> ranges[k].0 <= ranges[k].1)
    && (forall j, k :: 0 <= j < k < |ranges| ==> ranges[j].1 + 1 < ranges[k].0)
  }

  ghost predicate Increasing(ranks: seq<int>) {
    forall i, j :: 0 <= i < j < |ranks| ==> ranks[i] < ranks[j]
  }

  lemma ExtendExact(ranges: seq<(int, int)>, rank: int, other: int)
    requires Separate(ranges) && (ranges != [] ==> ranges[|ranges| - 1].1 < rank)
    ensures Separate(Extend(ranges, rank))
    ensures InRange(Extend(ranges, rank), other) <==> InRange(ranges, other) || other == rank
  {
    var after := Extend(ranges, rank);
    var last := |after| - 1;
    if other == rank {
      assert after[last].0 <= rank <= after[last].1;
    } else if InRange(ranges, other) {
      var k :| 0 <= k < |ranges| && ranges[k].0 <= other <= ranges[k].1;
      assert after[k].0 <= other <= after[k].1;
    }
  }

  /** For distinct ranks the segments hold exactly those ranks and cannot be merged further. */
  lemma {:induction false} MergeExact(ranks: seq<int>)
    requires Increasing(ranks)
    ensures Separate(Merge(ranks))
    ensures ranks != [] ==> Merge(ranks) != [] && Merge(ranks)[|Merge(ranks)| - 1].1 == ranks[|ranks| - 1]
    ensures forall rank :: InRange(Merge(ranks), rank) <==> rank in ranks
  {
    if ranks != [] {
      var n := |ranks| - 1;
      MergeExact(ranks[..n]);
      assert ranks == ranks[..n] + [ranks[n]];
      forall rank ensures Separate(Merge(ranks)) && (InRange(Merge(ranks), rank) <==> rank in ranks) {
        hide Separate, InRange;
        ExtendExact(Merge(ranks[..n]), ranks[n], rank);
      }
      ExtendExact(Merge(ranks[..n]), ranks[n], 0);
    }
  }

  lemma {:induction false} MergeConsecutive(ranks: seq<int>)
    requires ranks != [] && forall i :: 0 <= i < |ranks| ==> ranks[i] == ranks[0] + i
    ensures Merge(ranks) == [(ranks[0], ranks[|ranks| - 1])]
  {
    var n := |ranks| - 1;
    if n > 0 { MergeConsecutive(ranks[..n]); }
  }

  lemma {:induction false} SortIdempotent(s: seq<int>)
    requires Sorted(s, Leq)
    ensures Sort(s, Leq) == s
  {
    if s != [] {
      SortIdempotent(s[1..]);
      if |s| > 1 { assert Leq(s[0], s[1]); }
    }
  }

  function Offset(pages: seq<seq<Tile>>, i: nat): nat
    requires i <= |pages|
  {
    if i == 0 then 0 else Offset(pages, i - 1) + |pages[i - 1]|
  }

  lemma {:induction false} OffsetTail(pages: seq<seq<Tile>>, i: nat)
    requires 1 <= i <= |pages|
    ensures Offset(pages, i) == |pages[0]| + Offset(pages[1..], i - 1)
  {
    if i > 1 { OffsetTail(pages, i - 1); }
  }

  lemma {:induction false} FlatAt(pages: seq<seq<Tile>>, i: nat, k: nat)
    requires i < |pages| && k < |pages[i]|
    ensures Offset(pages, i) + k < |Flat(pages)|
    ensures Flat(pages)[Offset(pages, i) + k] == pages[i][k]
  {
    if i > 0 {
      FlatAt(pages[1..], i - 1, k);
      OffsetTail(pages, i);
    }
  }

  /** Each planned page reports one segment, and the segments follow one another from rank 1. */
  lemma OneSegmentPerPage(node: WeightedCollage, width: int, pages: seq<Page>, i: nat)
    requires GoodPages(node, width, pages) && i < |pages|
    ensures Merge(Sort(Ranks(pages[i].tiles), Leq))
         == [(Offset(PageTiles(pages), i) + 1, Offset(PageTiles(pages), i + 1))]
  {
    var all := PageTiles(pages);
    var tiles := pages[i].tiles;
    assert PageSound(node, width, pages, i);
    forall k | 0 <= k < |tiles| ensures tiles[k].rank == Offset(all, i) + k + 1 {
      FlatAt(all, i, k);
    }
    SortIdempotent(Ranks(tiles));
    MergeConsecutive(Ranks(tiles));
  }
}
