/** One shelf: integer widths that fill the row, and the heights its aspect limits allow. */
module Shelves {
  import opened Common
  import opened Sorting
  import opened CollageOrder

  datatype Shelf = Shelf(widths: seq<int>, low: int, high: int, nominal: int, firstRank: nat) {
    function Widest(): int requires widths != [] { widths[0] }
    function Narrowest(): int requires widths != [] { widths[|widths| - 1] }
  }

  /** Rounding to the nearest integer, halves to even. */
  function Round(x: real): int {
    var below := x.Floor;
    var part := x - below as real;
    if part < 0.5 || (part == 0.5 && below % 2 == 0) then below else below + 1
  }

  function Ceil(x: real): int { -((-x).Floor) }

  function Ones(count: nat): seq<real> { seq(count, _ => 1.0) }

  function RelativeWeights(local: seq<Item>): seq<real>
    requires forall i :: 0 <= i < |local| ==> local[i].weight > 0.0
  {
    seq(|local|, i requires 0 <= i < |local| =>
      var share := local[i].weight / local[0].weight; if share < 0.5 then 0.5 else share)
  }

  function Quota(width: real, part: real, total: real): real
    requires total != 0.0
  {
    width * part / total
  }

  function Edges(width: int, weights: seq<real>): seq<int>
    requires RealSum(weights) != 0.0
  {
    seq(|weights|, k requires 0 <= k < |weights| => Round(Quota(width as real, RealSum(weights[..k]), RealSum(weights)))) + [width]
  }

  function Gaps(edges: seq<int>): seq<int>
    requires edges != []
  {
    seq(|edges| - 1, i requires 0 <= i < |edges| - 1 => edges[i + 1] - edges[i])
  }

  predicate Wider(a: int, b: int) { a >= b }

  function RowWidths(width: int, weights: seq<real>): seq<int>
    requires RealSum(weights) != 0.0
  {
    Sort(Gaps(Edges(width, weights)), Wider)
  }

  lemma {:induction false} SumGaps(edges: seq<int>)
    requires edges != []
    ensures Sum(Gaps(edges)) == edges[|edges| - 1] - edges[0]
  {
    if |edges| > 1 {
      assert Gaps(edges)[1..] == Gaps(edges[1..]);
      SumGaps(edges[1..]);
    }
  }

  lemma FirstEdge(width: int, weights: seq<real>)
    requires weights != [] && RealSum(weights) != 0.0
    ensures Edges(width, weights)[0] == 0
  {
    assert weights[..0] == [];
    NothingOfTotal(width as real, RealSum(weights[..0]), RealSum(weights));
  }

  lemma NothingOfTotal(width: real, part: real, total: real)
    requires total != 0.0 && part == 0.0
    ensures Round(width * part / total) == 0
  {
    assert width * part == 0.0;
    assert 0.0 / total == 0.0;
  }

  /** Whatever the rounding does, the widths of a row add up to the full width. */
  lemma RowWidthsFillWidth(width: int, weights: seq<real>)
    requires weights != [] && RealSum(weights) != 0.0
    ensures |RowWidths(width, weights)| == |weights|
    ensures Sum(RowWidths(width, weights)) == width
    ensures Sorted(RowWidths(width, weights), Wider)
  {
    var edges := Edges(width, weights);
    FirstEdge(width, weights);
    SumGaps(edges);
    SumSort(Gaps(edges), Wider);
    SortCorrect(Gaps(edges), Wider);
  }

  lemma {:induction false} PositiveSum(weights: seq<real>)
    requires weights != [] && forall i :: 0 <= i < |weights| ==> weights[i] > 0.0
    ensures RealSum(weights) > 0.0
  {
    if |weights| > 1 { PositiveSum(weights[1..]); }
  }

  ghost predicate FillsRow(widths: seq<int>, width: int, count: nat) {
    && |widths| == count >= 1
    && Sum(widths) == width
    && (forall i, j :: 0 <= i < j < count ==> widths[i] >= widths[j])
  }

  /** Widths of one row: weighted in the first row of a small collage, else equal. */
  function ChosenWidths(width: int, local: seq<Item>, small: bool, firstRow: bool): (widths: seq<int>)
    requires local != []
    requires forall i :: 0 <= i < |local| ==> local[i].weight > 0.0
    ensures FillsRow(widths, width, |local|)
  {
    RowsFill(width, local);
    var equal := RowWidths(width, Ones(|local|));
    var first := if small && firstRow then RowWidths(width, RelativeWeights(local)) else equal;
    if first[|local| - 1] < 90 && small then equal else first
  }

  lemma RowsFill(width: int, local: seq<Item>)
    requires local != []
    requires forall i :: 0 <= i < |local| ==> local[i].weight > 0.0
    ensures RealSum(RelativeWeights(local)) > 0.0 && RealSum(Ones(|local|)) > 0.0
    ensures FillsRow(RowWidths(width, RelativeWeights(local)), width, |local|)
    ensures FillsRow(RowWidths(width, Ones(|local|)), width, |local|)
  {
    PositiveSum(RelativeWeights(local));
    PositiveSum(Ones(|local|));
    RowWidthsFillWidth(width, RelativeWeights(local));
    RowWidthsFillWidth(width, Ones(|local|));
  }

  /** Height bounds that keep every tile's aspect; None is a layout overflow. */
  function Bounded(node: WeightedCollage, width: int, widths: seq<int>, position: nat): Option<Shelf>
    requires widths != [] && node.preferredAspect > 0.0
  {
    var widest, narrowest := widths[0], widths[|widths| - 1];
    if narrowest < 90 || widest > 1024 then None
    else
      var low := Ceil(widest as real / AspectHigh(node));
      var high := Min(Min(1024, node.maxHeight), (narrowest as real / AspectLow(node)).Floor);
      if low > high then None
      else
        var nominal := Max(low, Min(high, Round(width as real / |widths| as real / node.preferredAspect)));
        Some(Shelf(widths, low, high, nominal, position + 1))
  }

  function AspectLow(node: WeightedCollage): real { node.preferredAspect * (2.0 / 3.0) }

  function AspectHigh(node: WeightedCollage): (r: real)
    ensures node.preferredAspect > 0.0 ==> r > 0.0
  {
    node.preferredAspect / (2.0 / 3.0)
  }

  function ShelfFor(node: WeightedCollage, width: int, local: seq<Item>, firstRow: bool, position: nat): Option<Shelf>
    requires local != [] && node.preferredAspect > 0.0
    requires forall i :: 0 <= i < |local| ==> local[i].weight > 0.0
  {
    Bounded(node, width, ChosenWidths(width, local, |node.items| <= 8, firstRow), position)
  }

  /** A width-by-height tile keeps between 2/3 and 3/2 of the preferred aspect. */
  predicate AspectKept(node: WeightedCollage, w: int, h: int) {
    h >= 1 && 2.0 * (node.preferredAspect * h as real) <= 3.0 * w as real && 2.0 * w as real <= 3.0 * (node.preferredAspect * h as real)
  }

  lemma AspectKeptExactly(node: WeightedCollage, w: int, h: int)
    requires node.preferredAspect > 0.0
    ensures AspectKept(node, w, h) <==> h >= 1 && AspectLow(node) * h as real <= w as real <= AspectHigh(node) * h as real
  {
    var a, x := node.preferredAspect, h as real;
    assert AspectLow(node) * x == (a * x) * (2.0 / 3.0);
    assert AspectHigh(node) == a * 1.5;
    assert AspectHigh(node) * x == (a * x) * 1.5;
  }

  ghost predicate ShelfSound(node: WeightedCollage, width: int, count: nat, shelf: Shelf) {
    && FillsRow(shelf.widths, width, count)
    && 90 <= shelf.Narrowest() && shelf.Widest() <= 1024
    && 1 <= shelf.low <= shelf.nominal <= shelf.high <= Min(1024, node.maxHeight)
    && (forall i, h :: 0 <= i < count && shelf.low <= h <= shelf.high ==> AspectKept(node, shelf.widths[i], h))
  }

  lemma CeilBound(x: real)
    ensures x <= Ceil(x) as real < x + 1.0
  {}

  lemma TallEnough(w: int, aspectHigh: real, low: int, h: int)
    requires aspectHigh > 0.0 && low == Ceil(w as real / aspectHigh) && low <= h
    ensures w as real <= aspectHigh * h as real
  {
    var quotient := w as real / aspectHigh;
    CeilBound(quotient);
    assert quotient <= h as real;
    assert aspectHigh * quotient <= aspectHigh * h as real;
    assert aspectHigh * quotient == w as real;
  }

  lemma LowEnough(w: int, aspectLow: real, h: int)
    requires aspectLow > 0.0 && h <= (w as real / aspectLow).Floor
    ensures aspectLow * h as real <= w as real
  {
    var quotient := w as real / aspectLow;
    assert h as real <= quotient;
    assert aspectLow * h as real <= aspectLow * quotient;
    assert aspectLow * quotient == w as real;
  }

  lemma PositiveCeil(w: int, aspectHigh: real)
    requires aspectHigh > 0.0 && w >= 1
    ensures Ceil(w as real / aspectHigh) >= 1
  {
    var quotient := w as real / aspectHigh;
    assert aspectHigh * quotient == w as real;
    assert quotient > 0.0;
  }

  lemma AspectHolds(node: WeightedCollage, widest: int, narrowest: int, low: int, w: int, h: int)
    requires node.preferredAspect > 0.0 && low == Ceil(widest as real / AspectHigh(node))
    requires low >= 1 && narrowest <= w <= widest
    requires low <= h <= (narrowest as real / AspectLow(node)).Floor
    ensures AspectKept(node, w, h)
  {
    hide AspectLow, AspectHigh, Ceil;
    assert AspectLow(node) > 0.0 by { AspectPositive(node); }
    TallEnough(widest, AspectHigh(node), low, h);
    LowEnough(narrowest, AspectLow(node), h);
    AspectKeptExactly(node, w, h);
  }

  lemma AspectPositive(node: WeightedCollage)
    requires node.preferredAspect > 0.0
    ensures AspectLow(node) > 0.0
  {}

  /** Every accepted shelf fills the width and admits only heights that keep the aspect. */
  lemma BoundedSound(node: WeightedCollage, width: int, widths: seq<int>, position: nat)
    requires node.preferredAspect > 0.0 && FillsRow(widths, width, |widths|)
    requires Bounded(node, width, widths, position).Some?
    ensures ShelfSound(node, width, |widths|, Bounded(node, width, widths, position).value)
    ensures Bounded(node, width, widths, position).value.firstRank == position + 1
  {
    hide AspectLow, AspectHigh, Ceil, AspectKept, Round;
    var shelf := Bounded(node, width, widths, position).value;
    AspectPositive(node);
    PositiveCeil(shelf.Widest(), AspectHigh(node));
    forall i, h | 0 <= i < |widths| && shelf.low <= h <= shelf.high
      ensures AspectKept(node, widths[i], h)
    {
      AspectHolds(node, shelf.Widest(), shelf.Narrowest(), shelf.low, widths[i], h);
    }
  }

  // ----- Exactly which heights, and which one is wanted -----

  /** A height every tile of the row can have within the limits. */
  ghost predicate HeightFits(node: WeightedCollage, widths: seq<int>, h: int) {
    1 <= h <= 1024 && h <= node.maxHeight && forall i :: 0 <= i < |widths| ==> AspectKept(node, widths[i], h)
  }

  lemma NoLower(w: int, aspectHigh: real, h: int)
    requires aspectHigh > 0.0 && w as real <= aspectHigh * h as real
    ensures Ceil(w as real / aspectHigh) <= h
  {
    var quotient := w as real / aspectHigh;
    assert aspectHigh * quotient == w as real;
    assert quotient <= h as real;
  }

  lemma NoHigher(w: int, aspectLow: real, h: int)
    requires aspectLow > 0.0 && aspectLow * h as real <= w as real
    ensures h <= (w as real / aspectLow).Floor
  {
    var quotient := w as real / aspectLow;
    assert aspectLow * quotient == w as real;
    assert h as real <= quotient;
  }

  ghost predicate WithinBounds(node: WeightedCollage, widest: int, narrowest: int, h: int)
    requires node.preferredAspect > 0.0
  {
    AspectPositive(node);
    && Ceil(widest as real / AspectHigh(node)) <= h <= Min(1024, node.maxHeight)
    && h <= (narrowest as real / AspectLow(node)).Floor
  }

  lemma FittingIsWithin(node: WeightedCollage, widths: seq<int>, h: int)
    requires node.preferredAspect > 0.0 && widths != [] && HeightFits(node, widths, h)
    ensures WithinBounds(node, widths[0], widths[|widths| - 1], h)
  {
    var last := |widths| - 1;
    assert AspectKept(node, widths[0], h) && AspectKept(node, widths[last], h);
    hide AspectLow, AspectHigh, Ceil, AspectKept;
    AspectPositive(node);
    AspectKeptExactly(node, widths[0], h);
    AspectKeptExactly(node, widths[last], h);
    NoLower(widths[0], AspectHigh(node), h);
    NoHigher(widths[last], AspectLow(node), h);
  }

  lemma WithinIsFitting(node: WeightedCollage, widths: seq<int>, h: int)
    requires node.preferredAspect > 0.0 && FillsRow(widths, Sum(widths), |widths|) && widths[|widths| - 1] >= 1
    requires WithinBounds(node, widths[0], widths[|widths| - 1], h)
    ensures HeightFits(node, widths, h)
  {
    hide AspectLow, AspectHigh, Ceil, AspectKept, Sum;
    PositiveCeil(widths[0], AspectHigh(node));
    forall i | 0 <= i < |widths| ensures AspectKept(node, widths[i], h) {
      AspectHolds(node, widths[0], widths[|widths| - 1], Ceil(widths[0] as real / AspectHigh(node)), widths[i], h);
    }
  }

  /** A shelf is refused exactly for a tile too narrow or too wide or without any height that fits, and its bounds are the extreme ones. */
  lemma BoundedExactly(node: WeightedCollage, width: int, widths: seq<int>, position: nat)
    requires node.preferredAspect > 0.0 && FillsRow(widths, width, |widths|)
    ensures Bounded(node, width, widths, position).None? <==>
      widths[|widths| - 1] < 90 || widths[0] > 1024 || forall h :: !HeightFits(node, widths, h)
    ensures Bounded(node, width, widths, position).Some? ==>
      forall h :: HeightFits(node, widths, h) <==>
        Bounded(node, width, widths, position).value.low <= h <= Bounded(node, width, widths, position).value.high
  {
    AspectPositive(node);
    if widths[|widths| - 1] >= 90 {
      forall h ensures HeightFits(node, widths, h) <==> WithinBounds(node, widths[0], widths[|widths| - 1], h) {
        if HeightFits(node, widths, h) { FittingIsWithin(node, widths, h); }
        if WithinBounds(node, widths[0], widths[|widths| - 1], h) { WithinIsFitting(node, widths, h); }
      }
      hide AspectLow, AspectHigh, Ceil, HeightFits, Round;
      if widths[0] <= 1024 {
        if Bounded(node, width, widths, position).Some? {
          assert HeightFits(node, widths, Bounded(node, width, widths, position).value.low);
        }
      }
    }
  }

  function Distance(h: int, x: real): real { if h as real < x then x - h as real else h as real - x }

  /** The integer nearest to `x`; of two equally near ones the even one. */
  predicate Nearest(e: int, x: real) { Distance(e, x) <= 0.5 && (Distance(e, x) == 0.5 ==> e % 2 == 0) }

  lemma RoundIsNearest(x: real)
    ensures Nearest(Round(x), x)
  {}

  predicate NearerThan(e: int, h: int, x: real) {
    Distance(e, x) <= Distance(h, x) && (h != e && Distance(e, x) == Distance(h, x) ==> e % 2 == 0)
  }

  /** Among the heights of the shelf the nominal one is nearest to the preferred aspect, the even one of two. */
  ghost predicate NominalIsNearest(node: WeightedCollage, width: int, shelf: Shelf) {
    shelf.widths != [] && node.preferredAspect > 0.0 &&
    var ideal := width as real / |shelf.widths| as real / node.preferredAspect;
    forall h :: shelf.low <= h <= shelf.high ==> NearerThan(shelf.nominal, h, ideal)
  }

  lemma NearestIsNearer(e: int, h: int, x: real)
    requires Nearest(e, x)
    ensures NearerThan(e, h, x)
  {
    if h < e { assert h as real <= e as real - 1.0; }
    if h > e { assert h as real >= e as real + 1.0; }
  }

  lemma AboveNearest(e: int, low: int, h: int, x: real)
    requires Nearest(e, x) && e < low <= h
    ensures NearerThan(low, h, x)
  {
    assert low as real >= e as real + 1.0;
    assert low as real >= x;
  }

  lemma BelowNearest(e: int, high: int, h: int, x: real)
    requires Nearest(e, x) && h <= high < e
    ensures NearerThan(high, h, x)
  {
    assert high as real <= e as real - 1.0;
    assert high as real <= x;
  }

  lemma ClampedIsNearest(x: real, low: int, high: int, h: int)
    requires low <= h <= high
    ensures NearerThan(Max(low, Min(high, Round(x))), h, x)
  {
    var e := Round(x);
    RoundIsNearest(x);
    hide Round;
    if e < low { AboveNearest(e, low, h, x); }
    else if e > high { BelowNearest(e, high, h, x); }
    else { NearestIsNearer(e, h, x); }
  }

  lemma BoundedNominal(node: WeightedCollage, width: int, widths: seq<int>, position: nat)
    requires node.preferredAspect > 0.0 && widths != []
    requires Bounded(node, width, widths, position).Some?
    ensures NominalIsNearest(node, width, Bounded(node, width, widths, position).value)
  {
    hide Round, NearerThan, AspectLow, AspectHigh, Ceil;
    var shelf := Bounded(node, width, widths, position).value;
    var ideal := width as real / |shelf.widths| as real / node.preferredAspect;
    forall h | shelf.low <= h <= shelf.high ensures NearerThan(shelf.nominal, h, ideal) {
      ClampedIsNearest(ideal, shelf.low, shelf.high, h);
    }
  }

  // ----- Which widths -----

  /** `e` is the integer nearest to the `part / total` share of the width, the even one of two. */
  ghost predicate NearestShare(e: int, width: int, part: real, total: real) {
    var off := 2.0 * (e as real * total - width as real * part);
    -total <= off <= total && (off == total || off == -total ==> e % 2 == 0)
  }

  /** The row is cut at the pixel nearest to each exact share. */
  ghost predicate CutNearShares(edges: seq<int>, width: int, weights: seq<real>) {
    && |edges| == |weights| + 1 && edges[|weights|] == width
    && forall k :: 0 <= k < |weights| ==> NearestShare(edges[k], width, RealSum(weights[..k]), RealSum(weights))
  }

  /** The widths of such a cut, widest first. */
  ghost predicate SharesRow(widths: seq<int>, width: int, weights: seq<real>) {
    && (forall i, j :: 0 <= i < j < |widths| ==> widths[i] >= widths[j])
    && exists edges :: CutNearShares(edges, width, weights) && multiset(widths) == multiset(Gaps(edges))
  }

  lemma QuotaIsNearest(width: int, part: real, total: real)
    requires total > 0.0
    ensures NearestShare(Round(Quota(width as real, part, total)), width, part, total)
  {
    var x := Quota(width as real, part, total);
    var e := Round(x);
    RoundIsNearest(x);
    hide Round;
    assert x * total == width as real * part;
    var off := e as real - x;
    assert -0.5 <= off <= 0.5;
    ScaledHalf(off, total);
    var gap := e as real * total - width as real * part;
    assert gap == off * total;
    assert off == 0.5 || off == -0.5 ==> e % 2 == 0;
    assert 2.0 * gap == total || 2.0 * gap == -total ==> e % 2 == 0;
  }

  lemma ScaledHalf(off: real, total: real)
    requires total > 0.0 && -0.5 <= off <= 0.5
    ensures -total <= 2.0 * (off * total) <= total
    ensures 2.0 * (off * total) == total ==> off == 0.5
    ensures 2.0 * (off * total) == -total ==> off == -0.5
  {
    assert (0.5 - off) * total >= 0.0 && (off + 0.5) * total >= 0.0;
    assert off != 0.5 ==> (0.5 - off) * total > 0.0;
    assert off != -0.5 ==> (off + 0.5) * total > 0.0;
  }

  lemma RowWidthsShare(width: int, weights: seq<real>)
    requires RealSum(weights) > 0.0
    ensures SharesRow(RowWidths(width, weights), width, weights)
  {
    var edges := Edges(width, weights);
    EdgesNearShares(width, weights);
    hide CutNearShares, Edges, Gaps;
    SortCorrect(Gaps(edges), Wider);
  }

  lemma EdgesNearShares(width: int, weights: seq<real>)
    requires RealSum(weights) > 0.0
    ensures CutNearShares(Edges(width, weights), width, weights)
  {
    hide Round, NearestShare, Quota;
    var edges := Edges(width, weights);
    forall k | 0 <= k < |weights| ensures NearestShare(edges[k], width, RealSum(weights[..k]), RealSum(weights)) {
      assert edges[k] == Round(Quota(width as real, RealSum(weights[..k]), RealSum(weights)));
      QuotaIsNearest(width, RealSum(weights[..k]), RealSum(weights));
    }
  }

  /** The weights of a small collage's first row: relative to the heaviest, but at least one half of it. */
  ghost predicate TwoToOne(local: seq<Item>, weights: seq<real>) {
    && local != [] && |weights| == |local|
    && forall i :: 0 <= i < |local| ==>
      weights[i] * local[0].weight == if 2.0 * local[i].weight >= local[0].weight then local[i].weight else local[0].weight * 0.5
  }

  lemma RelativeIsTwoToOne(local: seq<Item>)
    requires local != [] && forall i :: 0 <= i < |local| ==> local[i].weight > 0.0
    ensures TwoToOne(local, RelativeWeights(local))
  {
    forall i | 0 <= i < |local|
      ensures RelativeWeights(local)[i] * local[0].weight ==
        if 2.0 * local[i].weight >= local[0].weight then local[i].weight else local[0].weight * 0.5
    {
      ClampedRatio(local[i].weight, local[0].weight);
    }
  }

  lemma ClampedRatio(weight: real, peak: real)
    requires weight > 0.0 && peak > 0.0
    ensures var share := weight / peak;
      (if share < 0.5 then 0.5 else share) * peak == if 2.0 * weight >= peak then weight else peak * 0.5
  {
    var share := weight / peak;
    assert share * peak == weight;
    assert share < 0.5 <==> share * peak < 0.5 * peak;
  }

  /** Equal shares, except in the first row of a small collage, and there too when a weighted tile would be under 90 pixels. */
  lemma ChosenWidthsExactly(width: int, local: seq<Item>, small: bool, firstRow: bool) returns (tiered: seq<int>)
    requires local != [] && forall i :: 0 <= i < |local| ==> local[i].weight > 0.0
    ensures |tiered| == |local| && exists weights :: TwoToOne(local, weights) && SharesRow(tiered, width, weights)
    ensures small && firstRow && tiered[|local| - 1] >= 90 ==> ChosenWidths(width, local, small, firstRow) == tiered
    ensures !(small && firstRow && tiered[|local| - 1] >= 90) ==>
      SharesRow(ChosenWidths(width, local, small, firstRow), width, Ones(|local|))
  {
    RowsFill(width, local);
    RelativeIsTwoToOne(local);
    tiered := RowWidths(width, RelativeWeights(local));
    RowWidthsShare(width, RelativeWeights(local));
    RowWidthsShare(width, Ones(|local|));
    hide SharesRow, TwoToOne, RowWidths, RelativeWeights;
  }
}
