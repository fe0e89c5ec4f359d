/** The issuer: live views, the inverse parent relation, lease sidecars and proofs, updated in place. */
module ContextIssuer {
  import opened Common
  import opened InvocationTree

  datatype Refusal = NotActive | StaleJob | Expired | NotDeployed | StaleWebProof | MissingParent
                   | JobCannotDerive | GrantCannotCross | ExtendsDeadline | Malformed | OtherLease
  datatype Result<+T> = Ok(value: T) | Err(error: Refusal)

  /** An admission lease, compared as an object. */
  class Lease {
    constructor () {}
  }

  class Issuer {
    var issued: map<Id, View>
    var children: map<Id, set<Id>>
    var leases: map<Id, Lease>
    var jobs: map<Id, Proof>
    var webs: map<Id, Proof>
    ghost var born: map<Id, nat>
    ghost var clock: nat
    ghost var dead: set<View>

    ghost predicate Valid()
      reads this
    {
      && Forest(issued, born) && Inverse(issued, children)
      && (forall i :: i in born ==> born[i] < clock)
      && leases.Keys <= issued.Keys && jobs.Keys <= issued.Keys && webs.Keys <= issued.Keys
      && dead !! issued.Values
    }

    ghost predicate Live(v: View)
      reads this
    {
      v.id in issued && issued[v.id] == v
    }

    ghost predicate Accepts(v: View, w: World)
      requires Valid()
      reads this
    {
      Live(v) && ChainStands(issued, born, jobs, webs, w, v.id)
    }

    constructor ()
      ensures Valid() && issued == map[] && dead == {}
    {
      issued, children, leases, jobs, webs := map[], map[], map[], map[], map[];
      born, clock, dead := map[], 0, {};
    }

    /** Walks the parent chain; the missing-parent refusal is never given. */
    method Require(v: View, w: World) returns (r: Result<View>)
      requires Valid()
      ensures r.Ok? <==> Accepts(v, w)
      ensures r.Ok? ==> r.value == v && v !in dead && Authorised(issued, born, jobs, webs, w, v.id)
      ensures r.Err? ==> r.error != MissingParent && (r.error == NotActive <==> !Live(v))
    {
      hide Stands, Inverse;
      if !(v.id in issued && issued[v.id] == v) { return Err(NotActive); }
      AuthorisedExactly(issued, born, jobs, webs, w, v.id);
      var current := v;
      while true
        invariant Live(current)
        invariant Accepts(v, w) <==> Accepts(current, w)
        decreases born[current.id]
      {
        assert HasLiveParent(issued, born, current.id);
        var refusal := Check(current, w);
        if refusal.Some? { return Err(refusal.value); }
        if current.parent.None? { return Ok(v); }
        if current.parent.value !in issued { return Err(MissingParent); }
        current := issued[current.parent.value];
      }
    }

    /** The checks on one view of the chain, in the order they are made. */
    function Check(v: View, w: World): (refusal: Option<Refusal>)
      reads this
      ensures refusal.None? <==> Stands(v, jobs, webs, w)
      ensures refusal.Some? ==> refusal.value in {StaleJob, Expired, NotDeployed, StaleWebProof}
    {
      if v.from.origin == Job && !(v.id in jobs && jobs[v.id] in w.current) then Some(StaleJob)
      else if !Unexpired(v.deadline, w.now) then Some(Expired)
      else if v.from.origin == WebPublic && !Deployed(w, v.owner, v.capability) then Some(NotDeployed)
      else if v.from.origin == WebPublic && v.parent.None? && !(v.id in webs && webs[v.id] in w.current) then Some(StaleWebProof)
      else None
    }

    /** A new root with fields the rules allow; the host's random id is not in use. */
    method AddRoot(id: Id, from: Provenance, owner: string, epoch: int, deadline: Option<real>,
                   capability: Option<string>, grant: Grant) returns (v: View)
      requires Valid() && id !in issued && Legit(from, grant)
      modifies this
      ensures Valid() && fresh(v) && issued == old(issued)[id := v] && dead == old(dead)
      ensures v.id == id && v.parent.None? && v.from == from && v.owner == owner && v.deadline == deadline
      ensures v.capability == capability && v.grant == grant && v.epoch == epoch
      ensures children == old(children) && leases == old(leases) && jobs == old(jobs) && webs == old(webs)
    {
      v := new View(id, None, from, owner, epoch, deadline, capability, grant);
      GrowForest(issued, born, children, v, clock);
      issued := issued[id := v];
      born := born[id := clock];
      clock := clock + 1;
    }

    /** The checks on the fields of a root that is neither public web nor job, in the order they are made. */
    predicate WellFormed(from: Provenance, grant: Grant) {
      if (from.origin == Command || from.origin == LlmTool) && (from.actor.None? || from.conversation.None?) then false
      else if from.origin == Admin && from.actor.None? then false
      else if grant.id.Some? && from.actor.None? then false
      else if from.subscription.Some? && from.actor.None? then false
      else if from.origin == Subscription then
        if from.actor.None? || from.subscription.None? || from.subscriptionRevision.None? || from.adapter.None? ||
           from.conversation.None? || from.route.None? || from.kind.None? || from.scope.None? then false
        else if from.scope == Some(Authorized) && grant.id.None? then false
        else if from.scope != Some(Authorized) && grant.id.Some? then false
        else from.scope == Some(Public) || from.kind == Some(Direct)
      else from.route.None? && from.kind.None? && from.scope.None?
    }

    method Issue(id: Id, from: Provenance, owner: string, epoch: int, deadline: Option<real>,
                 capability: Option<string>, grant: Grant, now: real) returns (r: Result<View>)
      requires Valid() && id !in issued
      modifies this
      ensures Valid() && dead == old(dead)
      ensures r.Ok? <==> from.origin !in {WebPublic, Job} && Legit(from, grant) && Unexpired(deadline, now)
      ensures r.Ok? ==> fresh(r.value) && issued == old(issued)[id := r.value] && r.value.parent.None?
      ensures r.Ok? ==> r.value.from == from && r.value.owner == owner && r.value.deadline == deadline && r.value.grant == grant
      ensures r.Ok? ==> r.value.id == id && r.value.epoch == epoch && r.value.capability == capability
      ensures r.Err? ==> issued == old(issued)
      ensures children == old(children) && leases == old(leases) && jobs == old(jobs) && webs == old(webs)
    {
      if from.origin == WebPublic || from.origin == Job || !WellFormed(from, grant) { return Err(Malformed); }
      if !Unexpired(deadline, now) { return Err(Expired); }
      var v := AddRoot(id, from, owner, epoch, deadline, capability, grant);
      return Ok(v);
    }

    method IssueJob(id: Id, actor: string, proof: Proof, owner: string, epoch: int, deadline: Option<real>, w: World)
      returns (r: Result<View>)
      requires Valid() && id !in issued
      modifies this
      ensures Valid() && dead == old(dead)
      ensures r.Ok? <==> proof in w.current && Unexpired(deadline, w.now)
      ensures r.Ok? ==> fresh(r.value) && issued == old(issued)[id := r.value] && Accepts(r.value, w)
      ensures r.Ok? ==> r.value.from.origin == Job && r.value.from.actor == Some(actor) && r.value.owner == owner
      ensures r.Ok? ==> r.value.deadline == deadline && r.value.epoch == epoch && !r.value.grant.Carried()
      ensures r.Err? ==> issued == old(issued)
      ensures jobs == if r.Ok? then old(jobs)[id := proof] else old(jobs)
      ensures children == old(children) && leases == old(leases) && webs == old(webs)
    {
      if proof !in w.current { return Err(StaleJob); }
      if !Unexpired(deadline, w.now) { return Err(Expired); }
      var from := Provenance(Job, Some(actor), None, None, None, None, None, None, None);
      var v := AddRoot(id, from, owner, epoch, deadline, None, Grant(None, None));
      jobs := jobs[id := proof];
      return Ok(v);
    }

    method IssueWeb(id: Id, proof: Proof, owner: string, capability: string, epoch: int, deadline: real, w: World)
      returns (r: Result<View>)
      requires Valid() && id !in issued
      modifies this
      ensures Valid() && dead == old(dead)
      ensures r.Ok? <==> (owner, capability) in w.deployed && proof in w.current && w.now < deadline
      ensures r.Ok? ==> fresh(r.value) && issued == old(issued)[id := r.value] && Accepts(r.value, w)
      ensures r.Ok? ==> r.value.from.origin == WebPublic && r.value.from.actor.None? && r.value.owner == owner
      ensures r.Ok? ==> r.value.capability == Some(capability) && r.value.deadline == Some(deadline) && r.value.epoch == epoch
      ensures r.Err? ==> issued == old(issued)
      ensures webs == if r.Ok? then old(webs)[id := proof] else old(webs)
      ensures children == old(children) && leases == old(leases) && jobs == old(jobs)
    {
      if (owner, capability) !in w.deployed { return Err(NotDeployed); }
      if proof !in w.current { return Err(StaleWebProof); }
      if !Unexpired(Some(deadline), w.now) { return Err(Expired); }
      var from := Provenance(WebPublic, None, None, None, None, None, None, None, None);
      var v := AddRoot(id, from, owner, epoch, Some(deadline), Some(capability), Grant(None, None));
      webs := webs[id := proof];
      return Ok(v);
    }

    /** Why `derive` refuses an accepted parent. */
    function DeriveRefusal(parent: View, owner: string, deadline: Option<real>, capability: Option<string>, w: World, later: real):
      (refusal: Option<Refusal>)
      ensures refusal.None? <==>
        && parent.from.origin != Job
        && (parent.from.origin == WebPublic ==> capability.Some? && (owner, capability.value) in w.deployed)
        && (owner != parent.owner && (parent.grant.id.Some? || parent.grant.revision.Some?) ==>
              parent.from.origin == Command || parent.from.origin == LlmTool)
        && (deadline.Some? ==> (parent.deadline.Some? ==> deadline.value <= parent.deadline.value) && later < deadline.value)
        && (deadline.None? && parent.deadline.Some? ==> later < parent.deadline.value)
    {
      if parent.from.origin == Job then Some(JobCannotDerive)
      else if parent.from.origin == WebPublic && !Deployed(w, owner, capability) then Some(NotDeployed)
      else if owner != parent.owner && parent.grant.Carried() && !Chat(parent.from.origin) then Some(GrantCannotCross)
      else if !NoLater(Effective(parent, deadline), parent.deadline) then Some(ExtendsDeadline)
      else if !Unexpired(Effective(parent, deadline), later) then Some(Expired)
      else None
    }

    function Effective(parent: View, deadline: Option<real>): Option<real> {
      if deadline.None? then parent.deadline else deadline
    }

    method Derive(id: Id, parent: View, owner: string, epoch: int, deadline: Option<real>, capability: Option<string>,
                  w: World, later: real) returns (r: Result<View>)
      requires Valid() && id !in issued
      modifies this
      ensures Valid() && dead == old(dead)
      ensures r.Ok? <==> old(Accepts(parent, w)) && DeriveRefusal(parent, owner, deadline, capability, w, later).None?
      ensures r.Ok? ==> fresh(r.value) && issued == old(issued)[id := r.value] && r.value.parent == Some(parent.id)
      ensures r.Ok? ==> Derived(parent, r.value) && r.value.owner == owner && r.value.capability == capability
      ensures r.Ok? ==> r.value.id == id && r.value.epoch == epoch
      ensures r.Ok? ==> if deadline.Some? then r.value.deadline == deadline else r.value.deadline == parent.deadline
      ensures r.Ok? ==> r.value.grant == if owner == parent.owner then parent.grant else Grant(None, None)
      ensures r.Ok? ==> children == old(children)[parent.id := ChildrenOf(old(children), parent.id) + {id}]
      ensures r.Err? ==> issued == old(issued) && children == old(children)
      ensures leases == old(leases) && jobs == old(jobs) && webs == old(webs)
    {
      var accepted := Require(parent, w);
      if accepted.Err? { return Err(accepted.error); }
      var refusal := DeriveRefusal(parent, owner, deadline, capability, w, later);
      if refusal.Some? { return Err(refusal.value); }
      var grant := if owner != parent.owner then Grant(None, None) else parent.grant;
      var v := new View(id, Some(parent.id), parent.from, owner, epoch, Effective(parent, deadline), capability, grant);
      GrowForest(issued, born, children, v, clock);
      issued := issued[id := v];
      born := born[id := clock];
      clock := clock + 1;
      children := children[parent.id := ChildrenOf(children, parent.id) + {id}];
      return Ok(v);
    }

    method AttachLease(v: View, lease: Lease, w: World) returns (r: Result<View>)
      requires Valid()
      modifies this`leases
      ensures Valid()
      ensures r.Ok? <==> old(Accepts(v, w)) && (v.id in old(leases) ==> old(leases)[v.id] == lease)
      ensures leases == if r.Ok? then old(leases)[v.id := lease] else old(leases)
    {
      r := Require(v, w);
      if r.Err? { return; }
      if v.id in leases && leases[v.id] != lease { return Err(OtherLease); }
      leases := leases[v.id := lease];
    }

    /** Removes a sidecar even after expiry, only for the exact view and the exact lease. */
    method DetachLeaseForCleanup(v: View, lease: Lease) returns (r: Result<bool>)
      requires Valid()
      modifies this`leases
      ensures Valid()
      ensures r == Ok(true) <==> Live(v) && v.id in old(leases) && old(leases)[v.id] == lease
      ensures r == Ok(false) <==> v.id !in old(leases)
      ensures leases == if r == Ok(true) then old(leases) - {v.id} else old(leases)
    {
      var attached := v.id in leases;
      if !(v.id in issued && issued[v.id] == v) {
        return if attached then Err(NotActive) else Ok(false);
      }
      if !attached { return Ok(false); }
      if leases[v.id] != lease { return Err(OtherLease); }
      leases := leases - {v.id};
      return Ok(true);
    }

    /** The walk over `children`: pops every entry of the subtree and returns the ids in it. */
    method Unlink(v: View) returns (removed: seq<Id>)
      requires Valid() && Live(v)
      modifies this`children
      ensures Ids(removed) == Subtree(issued, born, v.id)
      ensures Inverse(issued - Subtree(issued, born, v.id), children)
    {
      hide Forest, Inverse, Subtree;
      ghost var before := children;
      if v.parent.Some? && v.parent.value in children {
        var siblings := children[v.parent.value] - {v.id};
        children := if siblings == {} then children - {v.parent.value} else children[v.parent.value := siblings];
      }
      removed := Walk(v.id, before);
      InverseWithout(issued, born, before, v.id);
    }

    method Walk(top: Id, ghost before: map<Id, set<Id>>) returns (removed: seq<Id>)
      requires Forest(issued, born) && Inverse(issued, before) && top in issued
      requires children == Discard(before, issued[top].parent, top)
      modifies this`children
      ensures Ids(removed) == Subtree(issued, born, top)
      ensures children == old(children) - Subtree(issued, born, top)
    {
      hide Forest, Inverse, Subtree, Discard, WalkInv, ChildrenOf, Ids;
      NoIds();
      ghost var gone, kids := Subtree(issued, born, top), children;
      TopIsBelow(issued, born, top);
      removed := [];
      var pending, seen := [top], {};
      WalkStarts(gone, kids, top);
      while pending != []
        invariant seen == Ids(removed)
        invariant WalkInv(gone, kids, seen, pending)
        invariant children == kids - seen
        invariant top in seen || top in pending
        decreases |gone - seen|, |pending|
      {
        var current := pending[|pending| - 1];
        assert pending == pending[..|pending| - 1] + [current];
        pending := pending[..|pending| - 1];
        WalkStaysBelow(gone, kids, seen, pending, current);
        if current in seen { WalkSkips(gone, kids, seen, pending, current); continue; }
        DiscardOutside(issued, born, before, top, current);
        ChildrenAreBelow(issued, born, before, top, current);
        UnseenKeepsChildren(kids, seen, current);
        var more := Listed(ChildrenOf(children, current));
        WalkVisits(gone, kids, seen, pending, current, more);
        IdsAppend(removed, current);
        MinusOneMore(kids, seen, current);
        seen := seen + {current};
        removed := removed + [current];
        children := children - {current};
        pending := pending + more;
      }
      WalkEnds(gone, kids, seen);
      WalkCoversSubtree(issued, born, before, top, seen);
    }

    /** Drops the ids from every map that is keyed by them. */
    method Forget(removed: seq<Id>)
      modifies this`issued, this`leases, this`jobs, this`webs
      ensures var gone := Ids(removed);
        && issued == old(issued) - gone && leases == old(leases) - gone
        && jobs == old(jobs) - gone && webs == old(webs) - gone
    {
      hide Ids;
      NoIds();
      for k := 0 to |removed|
        invariant var gone := Ids(removed[..k]);
          && issued == old(issued) - gone && leases == old(leases) - gone
          && jobs == old(jobs) - gone && webs == old(webs) - gone
      {
        assert removed[..k + 1] == removed[..k] + [removed[k]];
        IdsAppend(removed[..k], removed[k]);
        issued, leases := issued - {removed[k]}, leases - {removed[k]};
        jobs, webs := jobs - {removed[k]}, webs - {removed[k]};
      }
      assert removed[..|removed|] == removed;
    }

    /** Removes exactly the view's subtree from every map. */
    method Release(v: View) returns (r: Result<bool>)
      requires Valid()
      modifies this
      ensures Valid()
      ensures r.Ok? <==> old(Live(v))
      ensures r.Err? ==> issued == old(issued) && children == old(children) && leases == old(leases) && dead == old(dead)
      ensures r.Ok? ==>
        var gone := Subtree(old(issued), old(born), v.id);
        && v.id in gone
        && issued == old(issued) - gone && leases == old(leases) - gone
        && jobs == old(jobs) - gone && webs == old(webs) - gone
        && dead == old(dead) + (set i | i in gone :: old(issued)[i])
    {
      if !(v.id in issued && issued[v.id] == v) { return Err(NotActive); }
      ghost var gone := Subtree(issued, born, v.id);
      TopIsBelow(issued, born, v.id);
      ForestWithout(issued, born, v.id);
      hide Forest, Inverse, Subtree;
      var removed := Unlink(v);
      Forget(removed);
      dead := dead + set i | i in gone :: old(issued)[i];
      r := Ok(true);
    }
  }

  method Listed<T(==)>(all: set<T>) returns (list: seq<T>)
    ensures forall i :: i in list <==> i in all
  {
    list := [];
    var left := all;
    while left != {}
      invariant left <= all && forall i :: i in list <==> i in all - left
    {
      var i :| i in left;
      list := list + [i];
      left := left - {i};
    }
  }

  lemma ChildrenAreBelow(issued: Views, born: map<Id, nat>, children: map<Id, set<Id>>, top: Id, p: Id)
    requires Forest(issued, born) && Inverse(issued, children) && p in Subtree(issued, born, top)
    ensures ChildrenOf(children, p) <= Subtree(issued, born, top)
  {
    forall c | c in ChildrenOf(children, p) ensures c in Subtree(issued, born, top) {
      ChildIsBelow(issued, born, c, p, top);
    }
  }

  /** A finished walk has seen all of the subtree. */
  lemma WalkCoversSubtree(issued: Views, born: map<Id, nat>, children: map<Id, set<Id>>, top: Id, seen: set<Id>)
    requires Forest(issued, born) && Inverse(issued, children) && top in issued && top in seen
    requires seen <= Subtree(issued, born, top)
    requires forall i, c :: i in seen && c in ChildrenOf(Discard(children, issued[top].parent, top), i) ==> c in seen
    ensures seen == Subtree(issued, born, top)
  {
    forall c | c in issued && issued[c].parent.Some? && issued[c].parent.value in seen ensures c in seen {
      DiscardOutside(issued, born, children, top, issued[c].parent.value);
    }
    forall i | i in Subtree(issued, born, top) ensures i in seen {
      ClosedHoldsSubtree(issued, born, top, seen, i);
    }
  }

  function Ids(list: seq<Id>): set<Id> { set i | i in list }

  lemma NoIds()
    ensures Ids([]) == {}
  {}

  lemma IdsAppend(list: seq<Id>, id: Id)
    ensures Ids(list + [id]) == Ids(list) + {id}
  {}

  lemma MinusOneMore(kids: map<Id, set<Id>>, seen: set<Id>, id: Id)
    ensures (kids - seen) - {id} == kids - (seen + {id})
  {}

  /** What was seen lies in the subtree, and its children were seen or are pending. */
  ghost predicate WalkInv(gone: set<Id>, kids: map<Id, set<Id>>, seen: set<Id>, pending: seq<Id>) {
    && seen <= gone && (forall i :: i in pending ==> i in gone)
    && (forall i, c :: i in seen && c in ChildrenOf(kids, i) ==> c in seen || c in pending)
  }

  lemma WalkStarts(gone: set<Id>, kids: map<Id, set<Id>>, top: Id)
    requires top in gone
    ensures WalkInv(gone, kids, {}, [top])
  {}

  lemma WalkStaysBelow(gone: set<Id>, kids: map<Id, set<Id>>, seen: set<Id>, pending: seq<Id>, current: Id)
    requires WalkInv(gone, kids, seen, pending + [current])
    ensures current in gone
  {
    assert current in pending + [current];
  }

  lemma UnseenKeepsChildren(kids: map<Id, set<Id>>, seen: set<Id>, current: Id)
    requires current !in seen
    ensures ChildrenOf(kids - seen, current) == ChildrenOf(kids, current)
  {}

  lemma WalkEnds(gone: set<Id>, kids: map<Id, set<Id>>, seen: set<Id>)
    requires WalkInv(gone, kids, seen, [])
    ensures seen <= gone
    ensures forall i, c :: i in seen && c in ChildrenOf(kids, i) ==> c in seen
  {}

  lemma WalkSkips(gone: set<Id>, kids: map<Id, set<Id>>, seen: set<Id>, pending: seq<Id>, current: Id)
    requires WalkInv(gone, kids, seen, pending + [current]) && current in seen
    ensures WalkInv(gone, kids, seen, pending)
  {
    assert forall i :: i in pending ==> i in pending + [current];
  }

  lemma WalkVisits(gone: set<Id>, kids: map<Id, set<Id>>, seen: set<Id>, pending: seq<Id>, current: Id, more: seq<Id>)
    requires WalkInv(gone, kids, seen, pending + [current]) && current !in seen
    requires forall i :: i in more <==> i in ChildrenOf(kids, current)
    requires ChildrenOf(kids, current) <= gone
    ensures WalkInv(gone, kids, seen + {current}, pending + more)
    ensures |gone - (seen + {current})| < |gone - seen|
  {
    assert forall i :: i in pending ==> i in pending + [current];
    assert current in pending + [current];
    assert gone - (seen + {current}) == (gone - seen) - {current};
  }
}
