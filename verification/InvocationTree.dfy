/**
 Invocation views as a forest: every live view's parent is live and was born before it.
 Authority along a derivation chain is the root's, never more.
 */
module InvocationTree {
  import opened Common

  type Id = int
  type Proof = int

  datatype Origin = Command | LlmTool | Admin | Subscription | WebPublic | Job | Scheduler
  datatype Kind = Direct | Group
  datatype Scope = Public | User | Authorized

  /** What a derived view copies from its parent and no caller can choose. */
  datatype Provenance = Provenance(
    origin: Origin, actor: Option<string>, conversation: Option<string>, adapter: Option<string>,
    route: Option<string>, kind: Option<Kind>, scope: Option<Scope>,
    subscription: Option<string>, subscriptionRevision: Option<int>)

  datatype Grant = Grant(id: Option<string>, revision: Option<int>) {
    predicate Carried() { id.Some? || revision.Some? }
  }

  /** An issued view; two views with equal fields are still two objects. */
  class View {
    const id: Id
    const parent: Option<Id>
    const from: Provenance
    const owner: string
    const epoch: int
    const deadline: Option<real>
    const capability: Option<string>
    const grant: Grant

    constructor (id: Id, parent: Option<Id>, from: Provenance, owner: string, epoch: int, deadline: Option<real>,
                 capability: Option<string>, grant: Grant)
      ensures this.id == id && this.parent == parent && this.from == from && this.owner == owner
      ensures this.epoch == epoch && this.deadline == deadline && this.capability == capability && this.grant == grant
    {
      this.id, this.parent, this.from, this.owner := id, parent, from, owner;
      this.epoch, this.deadline, this.capability, this.grant := epoch, deadline, capability, grant;
    }
  }

  /** What the host answers while one call runs: its clock, deployed pairs, and proofs still current. */
  datatype World = World(now: real, deployed: set<(string, string)>, current: set<Proof>)

  predicate Unexpired(deadline: Option<real>, now: real) { deadline.Some? ==> now < deadline.value }

  predicate Deployed(w: World, owner: string, capability: Option<string>) {
    capability.Some? && (owner, capability.value) in w.deployed
  }

  /** A deadline no later than the parent's; a parent without one allows any. */
  predicate NoLater(child: Option<real>, parent: Option<real>) {
    parent.Some? ==> child.Some? && child.value <= parent.value
  }

  predicate Chat(origin: Origin) { origin == Command || origin == LlmTool }

  /** The rules `issue` and its job and web variants apply to the fields of a new root. */
  predicate Legit(from: Provenance, grant: Grant) {
    && (Chat(from.origin) ==> from.actor.Some? && from.conversation.Some?)
    && (from.origin == Admin ==> from.actor.Some?)
    && (grant.id.Some? ==> from.actor.Some?)
    && (from.subscription.Some? ==> from.actor.Some?)
    && (if from.origin == Subscription then
          && from.actor.Some? && from.subscription.Some? && from.subscriptionRevision.Some? && from.adapter.Some?
          && from.conversation.Some? && from.route.Some? && from.kind.Some? && from.scope.Some?
          && (from.scope == Some(Authorized) <==> grant.id.Some?)
          && (from.scope != Some(Public) ==> from.kind == Some(Direct))
        else from.route.None? && from.kind.None? && from.scope.None?)
    && (from.origin == WebPublic ==> from.actor.None? && from.conversation.None? && !grant.Carried())
    && (from.origin == Job ==> !grant.Carried())
  }

  /** What `derive` leaves true between a parent and its child. */
  predicate Derived(parent: View, child: View) {
    && child.from == parent.from && parent.from.origin != Job
    && NoLater(child.deadline, parent.deadline)
    && (child.grant.Carried() ==> child.grant == parent.grant && child.owner == parent.owner)
    && (parent.grant.Carried() && !child.grant.Carried() ==> Chat(parent.from.origin) && child.owner != parent.owner)
  }

  // ----- The forest of live views -----

  type Views = map<Id, View>

  ghost predicate HasLiveParent(issued: Views, born: map<Id, nat>, i: Id)
    requires i in issued
  {
    issued[i].parent.Some? ==>
      var p := issued[i].parent.value;
      p in issued && p in born && i in born && born[p] < born[i] && Derived(issued[p], issued[i])
  }

  ghost predicate Forest(issued: Views, born: map<Id, nat>) {
    forall i :: i in issued ==>
      issued[i].id == i && i in born && HasLiveParent(issued, born, i) && Legit(issued[i].from, issued[i].grant)
  }

  /** A view and its ancestors, the root last. */
  ghost function Chain(issued: Views, born: map<Id, nat>, i: Id): (c: seq<View>)
    requires Forest(issued, born) && i in issued
    ensures c != [] && c[0] == issued[i]
    decreases born[i]
  {
    assert HasLiveParent(issued, born, i);
    [issued[i]] + (if issued[i].parent.None? then [] else Chain(issued, born, issued[i].parent.value))
  }

  /** `i` is `top` or one of its descendants. */
  ghost predicate Below(issued: Views, born: map<Id, nat>, i: Id, top: Id)
    requires Forest(issued, born) && i in issued
    decreases born[i]
  {
    assert HasLiveParent(issued, born, i);
    i == top || (issued[i].parent.Some? && Below(issued, born, issued[i].parent.value, top))
  }

  /** Along a chain of any length: one provenance, deadlines that only grow upwards, Grants that stay home. */
  lemma {:induction false} ChainInherits(issued: Views, born: map<Id, nat>, i: Id, k: nat)
    requires Forest(issued, born) && i in issued && k < |Chain(issued, born, i)|
    ensures var ancestor := Chain(issued, born, i)[k];
      && ancestor.from == issued[i].from
      && (ancestor.deadline.Some? ==> issued[i].deadline.Some? && issued[i].deadline.value <= ancestor.deadline.value)
      && (issued[i].grant.Carried() ==> ancestor.grant == issued[i].grant && ancestor.owner == issued[i].owner)
      && (k > 0 ==> ancestor.from.origin != Job)
    decreases k
  {
    assert HasLiveParent(issued, born, i);
    if k > 0 { ChainInherits(issued, born, issued[i].parent.value, k - 1); }
  }

  /** The last view of a chain is its root, the others are not. */
  lemma {:induction false} ChainEndsAtRoot(issued: Views, born: map<Id, nat>, i: Id)
    requires Forest(issued, born) && i in issued
    ensures var c := Chain(issued, born, i); c[|c| - 1].parent.None?
    ensures forall k :: 0 <= k < |Chain(issued, born, i)| - 1 ==> Chain(issued, born, i)[k].parent.Some?
    ensures forall k :: 0 <= k < |Chain(issued, born, i)| ==> Chain(issued, born, i)[k] in issued.Values
    decreases born[i]
  {
    assert HasLiveParent(issued, born, i);
    if issued[i].parent.Some? { ChainEndsAtRoot(issued, born, issued[i].parent.value); }
  }

  /** A view that has not expired has no expired ancestor. */
  lemma UnexpiredLeaf(issued: Views, born: map<Id, nat>, i: Id, k: nat, now: real)
    requires Forest(issued, born) && i in issued && k < |Chain(issued, born, i)|
    requires Unexpired(issued[i].deadline, now)
    ensures Unexpired(Chain(issued, born, i)[k].deadline, now)
  {
    ChainInherits(issued, born, i, k);
  }

  // ----- What `require` checks -----

  /** The checks one view of the chain has to pass. */
  predicate Stands(v: View, jobs: map<Id, Proof>, webs: map<Id, Proof>, w: World) {
    && (v.from.origin == Job ==> v.id in jobs && jobs[v.id] in w.current)
    && Unexpired(v.deadline, w.now)
    && (v.from.origin == WebPublic ==> Deployed(w, v.owner, v.capability))
    && (v.from.origin == WebPublic && v.parent.None? ==> v.id in webs && webs[v.id] in w.current)
  }

  ghost predicate ChainStands(issued: Views, born: map<Id, nat>, jobs: map<Id, Proof>, webs: map<Id, Proof>, w: World, i: Id)
    requires Forest(issued, born) && i in issued
    decreases born[i]
  {
    assert HasLiveParent(issued, born, i);
    && Stands(issued[i], jobs, webs, w)
    && (issued[i].parent.Some? ==> ChainStands(issued, born, jobs, webs, w, issued[i].parent.value))
  }

  ghost predicate AllStand(views: seq<View>, jobs: map<Id, Proof>, webs: map<Id, Proof>, w: World) {
    forall k :: 0 <= k < |views| ==> Stands(views[k], jobs, webs, w)
  }

  lemma NoneStand(jobs: map<Id, Proof>, webs: map<Id, Proof>, w: World)
    ensures AllStand([], jobs, webs, w)
  {}

  lemma StandsFromTop(c: seq<View>, up: seq<View>, jobs: map<Id, Proof>, webs: map<Id, Proof>, w: World)
    requires c != [] && c[1..] == up
    ensures AllStand(c, jobs, webs, w) <==> Stands(c[0], jobs, webs, w) && AllStand(up, jobs, webs, w)
  {
    hide Stands;
    assert c == [c[0]] + up;
    assert forall k :: 0 <= k < |up| ==> up[k] == c[k + 1];
  }

  lemma {:induction false} ChainStandsEverywhere(issued: Views, born: map<Id, nat>, jobs: map<Id, Proof>,
                                                 webs: map<Id, Proof>, w: World, i: Id)
    requires Forest(issued, born) && i in issued
    ensures ChainStands(issued, born, jobs, webs, w, i)
       <==> AllStand(Chain(issued, born, i), jobs, webs, w)
    decreases born[i]
  {
    hide Stands, AllStand;
    assert HasLiveParent(issued, born, i);
    var c := Chain(issued, born, i);
    if issued[i].parent.Some? {
      ChainStandsEverywhere(issued, born, jobs, webs, w, issued[i].parent.value);
      var up := Chain(issued, born, issued[i].parent.value);
      assert c[1..] == up;
      StandsFromTop(c, up, jobs, webs, w);
    } else {
      StandsFromTop(c, [], jobs, webs, w);
      assert AllStand([], jobs, webs, w) by { NoneStand(jobs, webs, w); }
    }
  }

  /** Everything `require` asks of a chain, stated without walking it: only the leaf's deadline matters. */
  ghost predicate Authorised(issued: Views, born: map<Id, nat>, jobs: map<Id, Proof>, webs: map<Id, Proof>, w: World, i: Id)
    requires Forest(issued, born) && i in issued
  {
    var c := Chain(issued, born, i);
    var root := c[|c| - 1];
    && (issued[i].deadline.Some? ==> w.now < issued[i].deadline.value)
    && (issued[i].from.origin == Job ==> issued[i].parent.None? && i in jobs && jobs[i] in w.current)
    && (issued[i].from.origin == WebPublic ==>
          && root.id in webs && webs[root.id] in w.current
          && (forall k :: 0 <= k < |c| ==> c[k].capability.Some? && (c[k].owner, c[k].capability.value) in w.deployed))
  }

  lemma AuthorisedExactly(issued: Views, born: map<Id, nat>, jobs: map<Id, Proof>, webs: map<Id, Proof>, w: World, i: Id)
    requires Forest(issued, born) && i in issued
    ensures ChainStands(issued, born, jobs, webs, w, i) <==> Authorised(issued, born, jobs, webs, w, i)
  {
    hide ChainStands, Forest, HasLiveParent;
    ChainStandsEverywhere(issued, born, jobs, webs, w, i);
    ChainEndsAtRoot(issued, born, i);
    var c := Chain(issued, born, i);
    assert issued[i].id == i && HasLiveParent(issued, born, i) by { ForestAt(issued, born, i); }
    forall k | 0 <= k < |c|
      ensures c[k].from == issued[i].from && (k > 0 ==> c[k].from.origin != Job)
      ensures Unexpired(issued[i].deadline, w.now) ==> Unexpired(c[k].deadline, w.now)
    {
      ChainInherits(issued, born, i, k);
      if Unexpired(issued[i].deadline, w.now) { UnexpiredLeaf(issued, born, i, k, w.now); }
    }
    assert |c| > 1 <==> issued[i].parent.Some?;
  }

  lemma ForestAt(issued: Views, born: map<Id, nat>, i: Id)
    requires Forest(issued, born) && i in issued
    ensures issued[i].id == i && i in born && HasLiveParent(issued, born, i)
    ensures Legit(issued[i].from, issued[i].grant)
  {}

  // ----- Children and subtrees -----

  /** `children` is exactly the inverse of the parent relation, without empty entries. */
  ghost predicate Inverse(issued: Views, children: map<Id, set<Id>>) {
    && (forall p, c :: p in children && c in children[p] ==> c in issued && issued[c].parent == Some(p))
    && (forall c :: c in issued && issued[c].parent.Some? ==>
          issued[c].parent.value in children && c in children[issued[c].parent.value])
    && (forall p :: p in children ==> children[p] != {})
  }

  function ChildrenOf(children: map<Id, set<Id>>, p: Id): set<Id> {
    if p in children then children[p] else {}
  }

  ghost function Subtree(issued: Views, born: map<Id, nat>, top: Id): (s: set<Id>)
    requires Forest(issued, born)
    ensures s <= issued.Keys
  {
    set i | i in issued && Below(issued, born, i, top)
  }

  /** A set with `top` that is closed under children holds the whole subtree. */
  lemma {:induction false} ClosedHoldsSubtree(issued: Views, born: map<Id, nat>, top: Id, closed: set<Id>, i: Id)
    requires Forest(issued, born) && i in issued && Below(issued, born, i, top) && top in closed
    requires forall c :: c in issued && issued[c].parent.Some? && issued[c].parent.value in closed ==> c in closed
    ensures i in closed
    decreases born[i]
  {
    assert HasLiveParent(issued, born, i);
    if i != top { ClosedHoldsSubtree(issued, born, top, closed, issued[i].parent.value); }
  }

  lemma TopIsBelow(issued: Views, born: map<Id, nat>, top: Id)
    requires Forest(issued, born) && top in issued
    ensures top in Subtree(issued, born, top)
  {}

  lemma ChildIsBelow(issued: Views, born: map<Id, nat>, c: Id, p: Id, top: Id)
    requires Forest(issued, born) && c in issued && p in issued && issued[c].parent == Some(p)
    requires Below(issued, born, p, top)
    ensures Below(issued, born, c, top)
  {}

  /** What is left after a subtree goes is again closed under parent. */
  lemma ForestWithout(issued: Views, born: map<Id, nat>, top: Id)
    requires Forest(issued, born)
    ensures Forest(issued - Subtree(issued, born, top), born)
  {
    var gone := Subtree(issued, born, top);
    var left := issued - gone;
    forall i | i in left ensures HasLiveParent(left, born, i) {
      assert HasLiveParent(issued, born, i);
      if issued[i].parent.Some? { assert issued[i].parent.value !in gone; }
    }
  }

  lemma {:induction false} BelowIsYounger(issued: Views, born: map<Id, nat>, i: Id, top: Id)
    requires Forest(issued, born) && i in issued && top in issued && Below(issued, born, i, top)
    ensures born[top] <= born[i]
    decreases born[i]
  {
    assert HasLiveParent(issued, born, i);
    if i != top { BelowIsYounger(issued, born, issued[i].parent.value, top); }
  }

  /** `children` after `c` is discarded from its parent's entry and an emptied entry is dropped. */
  function Discard(children: map<Id, set<Id>>, parent: Option<Id>, c: Id): map<Id, set<Id>> {
    if parent.None? || parent.value !in children then children
    else
      var siblings := children[parent.value] - {c};
      if siblings == {} then children - {parent.value} else children[parent.value := siblings]
  }

  /** Discarding a view from its parent changes no child set inside the view's own subtree. */
  lemma DiscardOutside(issued: Views, born: map<Id, nat>, children: map<Id, set<Id>>, top: Id, i: Id)
    requires Forest(issued, born) && top in issued && i in Subtree(issued, born, top)
    ensures ChildrenOf(Discard(children, issued[top].parent, top), i) == ChildrenOf(children, i)
  {
    assert HasLiveParent(issued, born, top);
    if issued[top].parent == Some(i) { BelowIsYounger(issued, born, i, top); }
  }

  /** Dropping a whole subtree from both maps keeps them inverse to each other. */
  lemma InverseWithout(issued: Views, born: map<Id, nat>, children: map<Id, set<Id>>, top: Id)
    requires Forest(issued, born) && Inverse(issued, children) && top in issued
    ensures var gone := Subtree(issued, born, top);
      Inverse(issued - gone, Discard(children, issued[top].parent, top) - gone)
  {
    var gone := Subtree(issued, born, top);
    var kids := Discard(children, issued[top].parent, top);
    forall c | c in issued && c != top && issued[c].parent.Some?
      ensures var p := issued[c].parent.value;
        p in issued && (p in gone <==> c in gone) && p in kids && c in kids[p]
    {
      ForestAt(issued, born, c);
      var p := issued[c].parent.value;
      assert p in children && c in children[p] - {top};
    }
    assert top in gone;
    forall p, c | p in kids && c in kids[p]
      ensures c in issued && issued[c].parent == Some(p) && c != top && p in issued
    {
      assert c in children[p];
      ForestAt(issued, born, c);
    }
  }

  lemma ParentIsIssued(issued: Views, born: map<Id, nat>, children: map<Id, set<Id>>, p: Id)
    requires Forest(issued, born) && Inverse(issued, children) && p in children
    ensures p in issued
  {
    var c := Someone(children[p]);
    assert c in issued && issued[c].parent == Some(p);
    ForestAt(issued, born, c);
  }

  lemma NoChildrenOfUnissued(issued: Views, born: map<Id, nat>, children: map<Id, set<Id>>, id: Id)
    requires Forest(issued, born) && Inverse(issued, children) && id !in issued
    ensures id !in children
    ensures forall c :: c in issued ==> issued[c].parent != Some(id)
  {
    forall c | c in issued ensures issued[c].parent != Some(id) { assert HasLiveParent(issued, born, c); }
    if id in children { ParentIsIssued(issued, born, children, id); }
  }

  /** Whatever `issue` would have refused, `derive` does not produce either. */
  lemma DerivedIsLegit(parent: View, child: View)
    requires Legit(parent.from, parent.grant) && Derived(parent, child)
    ensures Legit(child.from, child.grant)
  {}

  /** Adding a derived view keeps the forest and the inverse relation. */
  lemma GrowForest(issued: Views, born: map<Id, nat>, children: map<Id, set<Id>>, v: View, clock: nat)
    requires Forest(issued, born) && Inverse(issued, children) && v.id !in issued
    requires v.parent.Some? ==> v.parent.value in issued && Derived(issued[v.parent.value], v)
    requires v.parent.None? ==> Legit(v.from, v.grant)
    requires forall i :: i in born ==> born[i] < clock
    ensures Forest(issued[v.id := v], born[v.id := clock])
    ensures v.parent.None? ==> Inverse(issued[v.id := v], children)
    ensures v.parent.Some? ==>
      Inverse(issued[v.id := v], children[v.parent.value := ChildrenOf(children, v.parent.value) + {v.id}])
  {
    NoChildrenOfUnissued(issued, born, children, v.id);
    var grown, dated := issued[v.id := v], born[v.id := clock];
    if v.parent.Some? {
      ForestAt(issued, born, v.parent.value);
      DerivedIsLegit(issued[v.parent.value], v);
    }
    forall i | i in issued ensures HasLiveParent(grown, dated, i) { assert HasLiveParent(issued, born, i); }
  }
}
