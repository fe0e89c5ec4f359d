/**
 Cutting a run of shelves into pages at shelf boundaries. Filling each page as far as it goes
 uses the fewest pages of all cuts, so running out of pages means no cut would have fitted.
 */
module PageCuts {
  import opened Sorting

  ghost predicate Fits(heights: seq<int>, counts: seq<int>, maxHeight: int, a: nat, b: nat)
    requires |heights| == |counts|
  {
    && a <= b <= |heights|
    && Sum(heights[a..b]) <= maxHeight
    && Sum(counts[a..b]) <= 64
  }

  /** Page boundaries from shelf 0; page k holds the shelves from cuts[k] up to cuts[k + 1]. */
  ghost predicate IsCut(heights: seq<int>, counts: seq<int>, maxHeight: int, cuts: seq<nat>)
    requires |heights| == |counts|
  {
    && cuts != [] && cuts[0] == 0
    && (forall k :: 1 <= k < |cuts| ==>
          cuts[k - 1] < cuts[k] && Fits(heights, counts, maxHeight, cuts[k - 1], cuts[k]))
  }

  ghost function Pages(cuts: seq<nat>): int { |cuts| - 1 }

  ghost function Reach(cuts: seq<nat>): nat
    requires cuts != []
  {
    cuts[|cuts| - 1]
  }

  ghost predicate NonNegative(s: seq<int>) { forall i :: 0 <= i < |s| ==> s[i] >= 0 }

  lemma SumSplit(s: seq<int>, a: nat, b: nat, c: nat)
    requires a <= b <= c <= |s|
    ensures Sum(s[a..c]) == Sum(s[a..b]) + Sum(s[b..c])
  {
    assert s[a..c] == s[a..b] + s[b..c];
    SumAppend(s[a..b], s[b..c]);
  }

  lemma SliceNonNegative(s: seq<int>, a: nat, b: nat)
    requires NonNegative(s) && a <= b <= |s|
    ensures Sum(s[a..b]) >= 0
  {
    SumNonNegative(s[a..b]);
  }

  lemma SumShrinks(s: seq<int>, outerA: nat, a: nat, b: nat, outerB: nat)
    requires NonNegative(s) && outerA <= a <= b <= outerB <= |s|
    ensures Sum(s[a..b]) <= Sum(s[outerA..outerB])
  {
    hide Sum;
    SumSplit(s, outerA, a, outerB);
    SumSplit(s, a, b, outerB);
    SliceNonNegative(s, outerA, a);
    SliceNonNegative(s, b, outerB);
  }

  /** No cut reaches past `start` with fewer than `pages` pages. */
  ghost predicate Ahead(heights: seq<int>, counts: seq<int>, maxHeight: int, start: nat, pages: nat)
    requires |heights| == |counts|
  {
    forall cuts :: IsCut(heights, counts, maxHeight, cuts) && Reach(cuts) > start ==> Pages(cuts) >= pages
  }

  lemma CutExtends(heights: seq<int>, counts: seq<int>, maxHeight: int, cuts: seq<nat>, next: nat)
    requires |heights| == |counts| && IsCut(heights, counts, maxHeight, cuts) && Reach(cuts) < next
    requires Fits(heights, counts, maxHeight, Reach(cuts), next)
    ensures IsCut(heights, counts, maxHeight, cuts + [next])
  {}

  lemma AheadInitially(heights: seq<int>, counts: seq<int>, maxHeight: int)
    requires |heights| == |counts|
    ensures Ahead(heights, counts, maxHeight, 0, 1)
  {}

  /** Opening a page only when shelf i no longer fits keeps the greedy cut ahead of every other. */
  lemma AheadAtBreak(heights: seq<int>, counts: seq<int>, maxHeight: int, start: nat, i: nat, pages: nat)
    requires |heights| == |counts| && NonNegative(heights) && NonNegative(counts)
    requires Ahead(heights, counts, maxHeight, start, pages) && start <= i < |heights|
    requires !Fits(heights, counts, maxHeight, start, i + 1)
    ensures Ahead(heights, counts, maxHeight, i, pages + 1)
  {
    forall cuts | IsCut(heights, counts, maxHeight, cuts) && Reach(cuts) > i
      ensures Pages(cuts) >= pages + 1
    {
      var m := |cuts| - 1;
      assert Fits(heights, counts, maxHeight, cuts[m - 1], cuts[m]);
      assert cuts[m - 1] > start by {
        if cuts[m - 1] <= start {
          SumShrinks(heights, cuts[m - 1], start, i + 1, cuts[m]);
          SumShrinks(counts, cuts[m - 1], start, i + 1, cuts[m]);
        }
      }
      var shorter := cuts[..m];
      assert IsCut(heights, counts, maxHeight, shorter) && Reach(shorter) > start;
    }
  }

  // ----- The cut that fills every page as far as it goes -----

  ghost function Stretch(heights: seq<int>, counts: seq<int>, maxHeight: int, start: nat, end: nat): (longest: nat)
    requires |heights| == |counts| && end <= |heights|
    ensures end <= longest <= |heights|
    ensures longest == |heights| || !Fits(heights, counts, maxHeight, start, longest + 1)
    ensures Fits(heights, counts, maxHeight, start, end) ==> Fits(heights, counts, maxHeight, start, longest)
    decreases |heights| - end
  {
    if end < |heights| && Fits(heights, counts, maxHeight, start, end + 1)
    then Stretch(heights, counts, maxHeight, start, end + 1) else end
  }

  /** The end of the longest page that starts at `start`; a page takes at least one shelf. */
  ghost function LongestFit(heights: seq<int>, counts: seq<int>, maxHeight: int, start: nat): (end: nat)
    requires |heights| == |counts| && start < |heights|
    ensures start < end <= |heights|
  {
    Stretch(heights, counts, maxHeight, start, start + 1)
  }

  /** Page boundaries from `start` on, every page as long as it can be. */
  ghost function GreedyCuts(heights: seq<int>, counts: seq<int>, maxHeight: int, start: nat): (cuts: seq<nat>)
    requires |heights| == |counts| && start <= |heights|
    ensures cuts != [] && cuts[0] == start && cuts[|cuts| - 1] == |heights|
    decreases |heights| - start
  {
    if start == |heights| then [start]
    else [start] + GreedyCuts(heights, counts, maxHeight, LongestFit(heights, counts, maxHeight, start))
  }

  lemma FitsShrinks(heights: seq<int>, counts: seq<int>, maxHeight: int, a: nat, b: nat, c: nat)
    requires |heights| == |counts| && NonNegative(heights) && NonNegative(counts)
    requires Fits(heights, counts, maxHeight, a, c) && a <= b <= c
    ensures Fits(heights, counts, maxHeight, a, b)
  {
    SumShrinks(heights, a, a, b, c);
    SumShrinks(counts, a, a, b, c);
  }

  lemma {:induction false} StretchReaches(heights: seq<int>, counts: seq<int>, maxHeight: int, start: nat, end: nat, longest: nat)
    requires |heights| == |counts| && NonNegative(heights) && NonNegative(counts)
    requires start < end <= longest <= |heights| && Fits(heights, counts, maxHeight, start, longest)
    requires longest == |heights| || !Fits(heights, counts, maxHeight, start, longest + 1)
    ensures Stretch(heights, counts, maxHeight, start, end) == longest
    decreases longest - end
  {
    if end < longest {
      FitsShrinks(heights, counts, maxHeight, start, end + 1, longest);
      StretchReaches(heights, counts, maxHeight, start, end + 1, longest);
    }
  }

  /** No cut that covers all shelves has fewer pages. */
  lemma {:induction false} GreedyFrom(heights: seq<int>, counts: seq<int>, maxHeight: int, start: nat, pages: nat, other: seq<nat>)
    requires |heights| == |counts| && NonNegative(heights) && NonNegative(counts) && start < |heights|
    requires Ahead(heights, counts, maxHeight, start, pages)
    requires IsCut(heights, counts, maxHeight, other) && Reach(other) == |heights|
    ensures Pages(other) >= pages - 1 + Pages(GreedyCuts(heights, counts, maxHeight, start))
    decreases |heights| - start
  {
    hide Ahead, IsCut, Fits;
    var end := LongestFit(heights, counts, maxHeight, start);
    if end == |heights| {
      assert Pages(other) >= pages by { AheadReaches(heights, counts, maxHeight, start, pages, other); }
      assert GreedyCuts(heights, counts, maxHeight, end) == [end];
    } else {
      AheadAtBreak(heights, counts, maxHeight, start, end, pages);
      GreedyFrom(heights, counts, maxHeight, end, pages + 1, other);
    }
  }

  lemma AheadReaches(heights: seq<int>, counts: seq<int>, maxHeight: int, start: nat, pages: nat, other: seq<nat>)
    requires |heights| == |counts| && Ahead(heights, counts, maxHeight, start, pages)
    requires IsCut(heights, counts, maxHeight, other) && Reach(other) > start
    ensures Pages(other) >= pages
  {}

  lemma GreedyIsFewest(heights: seq<int>, counts: seq<int>, maxHeight: int, other: seq<nat>)
    requires |heights| == |counts| >= 1 && NonNegative(heights) && NonNegative(counts)
    requires IsCut(heights, counts, maxHeight, other) && Reach(other) == |heights|
    ensures Pages(GreedyCuts(heights, counts, maxHeight, 0)) <= Pages(other)
  {
    AheadInitially(heights, counts, maxHeight);
    GreedyFrom(heights, counts, maxHeight, 0, 1, other);
  }
}
