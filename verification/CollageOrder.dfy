/** Collage items, their rank order and the shelf-size targets derived from it. */
module CollageOrder {
  import opened Common
  import opened Sorting

  /** `bytes` is the encoded size of an attached image asset, 0 when there is none. */
  datatype Item = Item(key: string, weight: real, bytes: nat)

  datatype WeightedCollage = WeightedCollage(items: seq<Item>, maxHeight: int, maxPages: int, preferredAspect: real)

  predicate UniqueKeys(items: seq<Item>) {
    forall i, j :: 0 <= i < j < |items| ==> items[i].key != items[j].key
  }

  /** The input check at the head of the planner; anything else is `invalid_input`. */
  predicate Accepted(node: WeightedCollage, width: int) {
    && 90 <= width <= 2048
    && 1 <= |node.items| <= 200
    && 128 <= node.maxHeight <= 2800
    && 1 <= node.maxPages <= 8
    && 0.5 <= node.preferredAspect <= 2.0
    && (forall i :: 0 <= i < |node.items| ==> node.items[i].key != "" && node.items[i].weight > 0.0)
    && UniqueKeys(node.items)
  }

  function KeyLeq(a: string, b: string): bool {
    if a == [] then true
    else if b == [] then false
    else a[0] < b[0] || (a[0] == b[0] && KeyLeq(a[1..], b[1..]))
  }

  /** Rank order: heavier first, then by key. */
  predicate RanksBefore(a: Item, b: Item) {
    a.weight > b.weight || (a.weight == b.weight && KeyLeq(a.key, b.key))
  }

  function Ordered(items: seq<Item>): seq<Item> {
    Sort(items, RanksBefore)
  }

  lemma {:induction false} KeyLeqTotal(a: string, b: string)
    ensures KeyLeq(a, b) || KeyLeq(b, a)
  {
    if a != [] && b != [] && a[0] == b[0] { KeyLeqTotal(a[1..], b[1..]); }
  }

  lemma {:induction false} KeyLeqTransitive(a: string, b: string, c: string)
    requires KeyLeq(a, b) && KeyLeq(b, c)
    ensures KeyLeq(a, c)
  {
    if a != [] && b != [] && c != [] && a[0] == b[0] == c[0] {
      KeyLeqTransitive(a[1..], b[1..], c[1..]);
    }
  }

  lemma RankOrderTotal()
    ensures TotalOrder(RanksBefore)
  {
    forall a: Item, b: Item ensures RanksBefore(a, b) || RanksBefore(b, a) {
      KeyLeqTotal(a.key, b.key);
    }
    forall a: Item, b: Item, c: Item | RanksBefore(a, b) && RanksBefore(b, c)
      ensures RanksBefore(a, c)
    {
      if a.weight == b.weight == c.weight { KeyLeqTransitive(a.key, b.key, c.key); }
    }
  }

  ghost predicate Descending(ordered: seq<Item>) {
    forall i, j :: 0 <= i < j < |ordered| ==> ordered[i].weight >= ordered[j].weight
  }

  /** Ranking is a permutation of the items with weights non-increasing in rank. */
  lemma OrderedCorrect(items: seq<Item>)
    ensures multiset(Ordered(items)) == multiset(items)
    ensures |Ordered(items)| == |items|
    ensures Descending(Ordered(items))
    ensures forall x :: x in Ordered(items) <==> x in items
  {
    RankOrderTotal();
    SortCorrect(items, RanksBefore);
    SortMembers(items, RanksBefore);
  }

  /** The keys agree up to some point, and there `a` ends or goes on with the smaller character. */
  ghost predicate Precedes(a: string, b: string) {
    exists n: nat :: n <= |a| && n <= |b| && a[..n] == b[..n] && n < |b| && (n == |a| || a[n] < b[n])
  }

  lemma SameHead(a: string, b: string, n: nat)
    requires 0 < n <= |a| && n <= |b| && a[..n] == b[..n]
    ensures a[0] == b[0]
  {
    assert a[..n][0] == b[..n][0];
  }

  lemma PrecedesTail(a: string, b: string)
    requires a != [] && b != [] && a[0] == b[0]
    ensures Precedes(a, b) <==> Precedes(a[1..], b[1..])
  {
    assert a == [a[0]] + a[1..] && b == [b[0]] + b[1..];
    if Precedes(a[1..], b[1..]) {
      var n: nat :| n <= |a[1..]| && n <= |b[1..]| && a[1..][..n] == b[1..][..n] && n < |b[1..]|
                    && (n == |a[1..]| || a[1..][n] < b[1..][n]);
      assert a[..n + 1] == [a[0]] + a[1..][..n] && b[..n + 1] == [b[0]] + b[1..][..n];
    }
    if Precedes(a, b) {
      var n: nat :| n <= |a| && n <= |b| && a[..n] == b[..n] && n < |b| && (n == |a| || a[n] < b[n]);
      assert n > 0;
      assert a[1..][..n - 1] == a[..n][1..] && b[1..][..n - 1] == b[..n][1..];
    }
  }

  lemma PrecedesHead(a: string, b: string)
    requires a != [] && b != [] && a[0] != b[0]
    ensures Precedes(a, b) <==> a[0] < b[0]
  {
    if a[0] < b[0] { assert a[..0] == b[..0]; }
    if Precedes(a, b) {
      var n: nat :| n <= |a| && n <= |b| && a[..n] == b[..n] && n < |b| && (n == |a| || a[n] < b[n]);
      if n > 0 { SameHead(a, b, n); }
    }
  }

  lemma {:induction false} KeyLeqExactly(a: string, b: string)
    ensures KeyLeq(a, b) <==> a == b || Precedes(a, b)
  {
    if a == [] {
      if b != [] { assert a[..0] == b[..0]; }
    } else if b != [] {
      if a[0] == b[0] {
        KeyLeqExactly(a[1..], b[1..]);
        PrecedesTail(a, b);
        assert a == b <==> a[1..] == b[1..] by { assert a == [a[0]] + a[1..] && b == [b[0]] + b[1..]; }
      } else {
        PrecedesHead(a, b);
      }
      hide Precedes;
    }
  }

  /** Items of equal weight are ranked by key. */
  lemma EqualWeightsByKey(items: seq<Item>, i: nat, j: nat)
    requires i < j < |Ordered(items)| && Ordered(items)[i].weight == Ordered(items)[j].weight
    ensures Ordered(items)[i].key == Ordered(items)[j].key || Precedes(Ordered(items)[i].key, Ordered(items)[j].key)
  {
    RankOrderTotal();
    SortCorrect(items, RanksBefore);
    KeyLeqExactly(Ordered(items)[i].key, Ordered(items)[j].key);
  }

  function Min(a: int, b: int): int { if a <= b then a else b }

  predicate CutsBetweenWeights(ordered: seq<Item>, cut: nat) {
    cut == 0 || cut >= |ordered| || ordered[cut - 1].weight != ordered[cut].weight
  }

  /** The largest cut of at most `cap` ranks that separates no two equal weights. */
  function TierCap(ordered: seq<Item>, cap: nat): (cut: nat)
    ensures cut <= Min(cap, |ordered|)
    ensures CutsBetweenWeights(ordered, cut)
    ensures forall k: nat :: cut < k <= Min(cap, |ordered|) ==> !CutsBetweenWeights(ordered, k)
  {
    var bounded := Min(|ordered|, cap);
    if CutsBetweenWeights(ordered, bounded) then bounded else TierCap(ordered, bounded - 1)
  }

  method CapWithoutSplit(ordered: seq<Item>, limit: nat) returns (cap: nat)
    ensures cap == TierCap(ordered, limit)
  {
    cap := Min(|ordered|, limit);
    while cap != 0 && cap < |ordered| && ordered[cap - 1].weight == ordered[cap].weight
      invariant cap <= |ordered|
      invariant TierCap(ordered, limit) == TierCap(ordered, cap)
    {
      cap := cap - 1;
    }
  }

  function FirstTier(ordered: seq<Item>): nat
    requires |ordered| > 0
  {
    if |ordered| > 8 && ordered[|ordered| - 1].weight < 0.7 * ordered[0].weight
    then TierCap(ordered, Max(4, |ordered| / 5)) else 0
  }

  function SecondTier(ordered: seq<Item>): nat
    requires |ordered| > 0
  {
    if |ordered| > 8 && ordered[|ordered| - 1].weight * 3.0 < ordered[0].weight
    then TierCap(ordered, Max(2, |ordered| / 20)) else 0
  }

  /** Target shelf size of the item at `index` (0-based rank). */
  function Target(ordered: seq<Item>, base: nat, index: nat): nat
    requires index < |ordered|
  {
    if index < SecondTier(ordered) && ordered[index].weight >= 0.5 * ordered[0].weight
    then Max(2, base - 4)
    else if index < FirstTier(ordered) && ordered[index].weight >= 0.25 * ordered[0].weight
    then Max(2, base - 2)
    else base
  }

  /** One tier loop: overwrites the targets of the tier's items that weigh at least `least`. */
  method LowerTier(ordered: seq<Item>, targets: seq<nat>, tier: nat, least: real, lowered: nat) returns (r: seq<nat>)
    requires |targets| == |ordered| && tier <= |ordered|
    ensures |r| == |ordered|
    ensures forall i :: 0 <= i < |ordered| ==>
      r[i] == (if i < tier && ordered[i].weight >= least then lowered else targets[i])
  {
    r := targets;
    for index := 0 to tier
      invariant |r| == |ordered|
      invariant forall i :: 0 <= i < |ordered| ==>
        r[i] == (if i < index && ordered[i].weight >= least then lowered else targets[i])
    {
      if ordered[index].weight >= least { r := r[index := lowered]; }
    }
  }

  /** Computes every target by the two overwriting tier loops. */
  method DesiredTargets(ordered: seq<Item>, base: nat) returns (desired: seq<nat>)
    requires |ordered| > 0
    ensures |desired| == |ordered|
    ensures forall i :: 0 <= i < |ordered| ==> desired[i] == Target(ordered, base, i)
  {
    var n := |ordered|;
    desired := seq(n, _ => base);
    var peak := ordered[0].weight;
    if n > 8 {
      if ordered[n - 1].weight < 0.7 * peak {
        var tier := CapWithoutSplit(ordered, Max(4, n / 5));
        desired := LowerTier(ordered, desired, tier, 0.25 * peak, Max(2, base - 2));
      }
      if ordered[n - 1].weight * 3.0 < peak {
        var tier := CapWithoutSplit(ordered, Max(2, n / 20));
        desired := LowerTier(ordered, desired, tier, 0.5 * peak, Max(2, base - 4));
      }
    }
  }

  /** A tier never separates equal weights, and a heavier rank never has a larger target. */
  lemma TargetsFollowWeights(ordered: seq<Item>, base: nat, i: nat, j: nat)
    requires base >= 2 && Descending(ordered) && i < j < |ordered|
    requires forall k :: 0 <= k < |ordered| ==> ordered[k].weight > 0.0
    ensures Target(ordered, base, i) <= Target(ordered, base, j)
    ensures ordered[i].weight == ordered[j].weight ==> Target(ordered, base, i) == Target(ordered, base, j)
  {
    var n := |ordered|;
    if ordered[i].weight == ordered[j].weight {
      TieSameSide(ordered, SecondTier(ordered), i, j);
      TieSameSide(ordered, FirstTier(ordered), i, j);
    }
    assert SecondTier(ordered) <= FirstTier(ordered) by {
      assert Max(2, n / 20) <= Max(4, n / 5);
      assert CutsBetweenWeights(ordered, SecondTier(ordered));
    }
  }

  lemma TieSameSide(ordered: seq<Item>, cut: nat, i: nat, j: nat)
    requires Descending(ordered) && i < j < |ordered| && ordered[i].weight == ordered[j].weight
    requires CutsBetweenWeights(ordered, cut)
    ensures i < cut <==> j < cut
  {
  }
}
