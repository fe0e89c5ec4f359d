/**
 Which storage root is the authority. The source stays fenced once fenced, a published selector
 always verifies, and it stays the selector exactly as long as no pipeline that read "no selector"
 publishes after another one did.
 */
module MigrationAuthority {
  import opened Common
  import opened Migration
  import opened MigrationFrame

  ghost predicate ManifestOk(s: State, st: Storage)
    requires st in s.manifests
  {
    var m := s.manifests[st];
    && s.fence == Some(m.op) && m.facts == s.facts
    && st in s.copies && s.copies[st] == Activated(m.op) && st in s.storages
    && ROOT in s.storages[st] && s.storages[st][ROOT].id == m.rootId
    && DATABASE in s.storages[st] && s.storages[st][DATABASE].id == m.databaseId
  }

  ghost predicate ManifestsOk(s: State) { forall st :: st in s.manifests ==> ManifestOk(s, st) }

  /** Pipelines past the fence work on the fenced source; copies exist only past the fence. */
  ghost predicate PastFence(s: State) {
    && (s.run.Some? ==> s.fence == Some(s.run.value.plan.op) && s.run.value.plan.facts == s.facts)
    && (forall w :: w in s.waiting && w.fenced ==> s.fence == Some(w.plan.op) && w.plan.facts == s.facts)
    && (s.fence.None? ==> s.copies == map[] && s.manifests == map[])
  }

  ghost predicate SelectorOk(s: State) {
    && (forall st :: st in s.published ==> st in s.manifests)
    && (s.selector.Some? ==> Verifies(s, s.selector.value) && s.selector.value.storage in s.published)
    && (s.run.Some? && s.run.value.at != Finished ==> s.run.value.storage !in s.published)
  }

  ghost predicate AuthorityInv(s: State) { ManifestsOk(s) && PastFence(s) && SelectorOk(s) }

  lemma InitialAuthority(s: State)
    requires Init(s)
    ensures AuthorityInv(s)
  {}

  // ----- Steps -----

  /** The manifest's facts survive any step that leaves its copy and the two identified nodes alone. */
  lemma ManifestsFrame(s: State, s': State)
    requires ManifestsOk(s) && s'.manifests == s.manifests && s'.fence == s.fence && s'.facts == s.facts
    requires forall st :: st in s.manifests ==>
      && st in s'.storages && st in s'.copies && s'.copies[st] == s.copies[st]
      && ROOT in s'.storages[st] && s'.storages[st][ROOT].id == s.storages[st][ROOT].id
      && DATABASE in s'.storages[st] && s'.storages[st][DATABASE].id == s.storages[st][DATABASE].id
    ensures ManifestsOk(s')
  {
    forall st | st in s'.manifests ensures ManifestOk(s', st) { assert ManifestOk(s, st); }
  }

  lemma SelectorFrame(s: State, s': State)
    requires SelectorOk(s) && ManifestsOk(s')
    requires forall st :: st in s.manifests ==> st in s'.manifests && s'.manifests[st] == s.manifests[st]
    requires s'.selector == s.selector && s'.published == s.published
    requires s'.run.Some? && s'.run.value.at != Finished ==> s'.run.value.storage !in s.published
    ensures SelectorOk(s')
  {
    if s.selector.Some? { assert ManifestOk(s', s.selector.value.storage); }
  }

  lemma HostWritesAuthority(s: State, facts: Facts)
    requires AuthorityInv(s) && s.fence.None?
    ensures AuthorityInv(s.(facts := facts))
  {
    hide Verifies;
    SelectorFrame(s, s.(facts := facts));
  }

  lemma ResolveAuthority(s: State)
    requires AuthorityInv(s)
    ensures AuthorityInv(s.(handed := s.handed + {Chosen(s)}))
  {
    hide Verifies;
    var s' := s.(handed := s.handed + {Chosen(s)});
    assert forall st :: st in s.manifests ==> ManifestOk(s, st);
    ManifestsFrame(s, s');
    SelectorFrame(s, s');
  }

  /** The host may change any node of a published tree but the two that identify it. */
  lemma HostFileAuthority(s: State, s': State)
    requires AuthorityInv(s) && s' == s.(storages := s'.storages)
    requires forall st :: st in s.storages ==>
      && st in s'.storages
      && (ROOT in s.storages[st] ==> ROOT in s'.storages[st] && s'.storages[st][ROOT] == s.storages[st][ROOT])
      && (DATABASE in s.storages[st] ==> DATABASE in s'.storages[st] && s'.storages[st][DATABASE] == s.storages[st][DATABASE])
    ensures AuthorityInv(s')
  {
    hide Verifies;
    assert forall st :: st in s.manifests ==> ManifestOk(s, st);
    ManifestsFrame(s, s');
    SelectorFrame(s, s');
  }

  lemma HostAuthority(s: State, a: Step)
    requires AuthorityInv(s) && HostStep(a) && HostEnabled(s, a)
    ensures AuthorityInv(HostApply(s, a))
  {
    hide AuthorityInv, Verifies;
    if a.HostWrites? { HostWritesAuthority(s, a.facts); }
    else if a.Resolve? { ResolveAuthority(s); }
    else { HostFileAuthority(s, HostApply(s, a)); }
  }

  lemma GateAuthority(s: State, a: Step)
    requires AuthorityInv(s) && GateStep(a) && GateEnabled(s, a)
    ensures AuthorityInv(GateApply(s, a))
  {
    hide Verifies, Loads, AttemptsPass;
    var s' := GateApply(s, a);
    assert forall st :: st in s.manifests ==> ManifestOk(s, st);
    if !(a.FenceSource? && s.fence.None?) { ManifestsFrame(s, s'); }
    SelectorFrame(s, s');
  }

  lemma RecordAuthority(s: State, a: Step)
    requires AuthorityInv(s) && RecordStep(a) && RecordEnabled(s, a)
    ensures AuthorityInv(RecordApply(s, a))
  {
    hide Verifies, RecordEnabled, RecordApply, NodesStay;
    RecordOutside(s, a);
    RecordNodes(s, a);
    StayingKeeps(s, RecordApply(s, a));
    SelectorFrame(s, RecordApply(s, a));
  }

  /** Copies and nodes that stay keep every manifest right. */
  lemma StayingKeeps(s: State, s': State)
    requires ManifestsOk(s) && NodesStay(s, s') && s'.manifests == s.manifests && s'.fence == s.fence && s'.facts == s.facts
    requires forall st :: st in s.manifests && st in s.copies ==> st in s'.copies && s'.copies[st] == s.copies[st]
    ensures ManifestsOk(s')
  {
    assert !Auxiliary(ROOT) && !Auxiliary(DATABASE);
    forall st | st in s'.manifests ensures ManifestOk(s', st) { assert ManifestOk(s, st); }
  }

  lemma ManifestAuthority(s: State)
    requires AuthorityInv(s) && ContentEnabled(s, WriteManifest)
    ensures ManifestsOk(ContentApply(s, WriteManifest))
  {
    hide TargetFiles, FileSet, Lists, Verifies;
    var s' := ContentApply(s, WriteManifest);
    forall st | st in s'.manifests ensures ManifestOk(s', st) {
      if st in s.manifests { assert ManifestOk(s, st); }
    }
  }

  lemma CopiesAuthority(s: State, a: Step)
    requires AuthorityInv(s) && ContentStep(a) && ContentEnabled(s, a)
    ensures var s' := ContentApply(s, a);
      && (!a.WriteManifest? ==> s'.manifests == s.manifests)
      && (forall st :: st in s.manifests ==> st in s'.manifests && s'.manifests[st] == s.manifests[st])
      && (forall st :: st in s.manifests && st in s.copies ==> st in s'.copies && s'.copies[st] == s.copies[st])
  {
    hide TargetFiles, FileSet, Lists, Verifies;
    assert forall st :: st in s.manifests ==> ManifestOk(s, st);
  }

  lemma ContentAuthority(s: State, a: Step)
    requires AuthorityInv(s) && ContentStep(a) && ContentEnabled(s, a)
    ensures AuthorityInv(ContentApply(s, a))
  {
    if a.Publish? {
      PublishAuthority(s);
    } else {
      hide Verifies, ContentEnabled, ContentApply, NodesStay;
      var s' := ContentApply(s, a);
      ContentOutside(s, a);
      ContentNodes(s, a);
      CopiesAuthority(s, a);
      if a.WriteManifest? { ManifestAuthority(s); } else { StayingKeeps(s, s'); }
      SelectorFrame(s, s');
    }
  }

  lemma PublishAuthority(s: State)
    requires AuthorityInv(s) && ContentEnabled(s, Publish)
    ensures AuthorityInv(ContentApply(s, Publish))
  {
    assert forall st :: st in s.manifests ==> ManifestOk(s, st);
    ManifestsFrame(s, ContentApply(s, Publish));
    PublishedVerifies(s);
  }

  lemma PublishedVerifies(s: State)
    requires AuthorityInv(s) && ContentEnabled(s, Publish)
    ensures SelectorOk(ContentApply(s, Publish))
  {
    assert ManifestOk(s, s.run.value.storage);
  }

  lemma AuthorityStep(s: State, a: Step)
    requires AuthorityInv(s) && Enabled(s, a)
    ensures AuthorityInv(Apply(s, a))
  {
    hide AuthorityInv, HostEnabled, GateEnabled, RecordEnabled, ContentEnabled, HostApply, GateApply, RecordApply, ContentApply;
    if HostStep(a) { HostAuthority(s, a); }
    else if GateStep(a) { GateAuthority(s, a); }
    else if RecordStep(a) { RecordAuthority(s, a); }
    else { ContentAuthority(s, a); }
  }

  // ----- The selector and the roots handed out -----

  /** A pipeline publishes although a selector has appeared since it looked. */
  predicate Replaces(s: State, a: Step) { a.Publish? && s.selector.Some? }

  predicate KeepsSelector(s: State, s': State) { s.selector.Some? ==> s'.selector == s.selector }

  lemma HostFrame(s: State, a: Step)
    requires HostStep(a) && HostEnabled(s, a)
    ensures var s' := HostApply(s, a);
      && s' == s.(facts := s'.facts, handed := s'.handed, storages := s'.storages)
      && s'.handed == if a.Resolve? then s.handed + {Chosen(s)} else s.handed
  {
    hide Verifies;
  }

  lemma GateFrame(s: State, a: Step)
    requires GateStep(a) && GateEnabled(s, a)
    ensures GateApply(s, a).selector == s.selector && GateApply(s, a).handed == s.handed
  {
    hide Loads, AttemptsPass, Recorded, Abandon, Script, Walked;
  }

  lemma OnlyPublishSelects(s: State, a: Step)
    requires Enabled(s, a) && !a.Publish?
    ensures Apply(s, a).selector == s.selector
    ensures Apply(s, a).handed == if a.Resolve? then s.handed + {Chosen(s)} else s.handed
  {
    hide HostEnabled, HostApply, GateEnabled, GateApply, RecordEnabled, RecordApply, ContentEnabled, ContentApply;
    if HostStep(a) { HostFrame(s, a); }
    else if GateStep(a) { GateFrame(s, a); }
    else if RecordStep(a) { RecordOutside(s, a); }
    else { ContentOutside(s, a); }
  }

  /** Exactly such a publication moves the authority to another root. */
  lemma SelectorStep(s: State, a: Step)
    requires AuthorityInv(s) && Enabled(s, a)
    ensures KeepsSelector(s, Apply(s, a)) <==> !Replaces(s, a)
    ensures Replaces(s, a) ==> Chosen(Apply(s, a)) != Chosen(s)
  {
    if !a.Publish? {
      hide Enabled, Apply;
      OnlyPublishSelects(s, a);
    } else {
      hide Verifies, ManifestsOk;
    }
  }

  /** Roots resolve ever returned: the legacy root, and the one selected now. */
  predicate HandedOk(s: State) { forall r :: r in s.handed ==> r == Legacy || r == Chosen(s) }

  lemma HandedStep(s: State, a: Step)
    requires AuthorityInv(s) && HandedOk(s) && Enabled(s, a) && !Replaces(s, a)
    ensures HandedOk(Apply(s, a))
  {
    if a.Publish? {
      hide Verifies, ManifestsOk;
    } else {
      hide Enabled, Apply;
      OnlyPublishSelects(s, a);
    }
  }

  /** Among all roots some process may still hold, at most one takes writes. */
  ghost predicate SingleAuthority(s: State) {
    forall r, q :: r in s.handed && q in s.handed && Unfenced(s, r) && Unfenced(s, q) ==> r == q
  }

  lemma InvIsSingle(s: State)
    requires AuthorityInv(s) && HandedOk(s)
    ensures SingleAuthority(s)
    ensures s.selector.Some? ==> Verifies(s, s.selector.value) && Unfenced(s, Chosen(s)) && !Unfenced(s, Legacy)
  {}

  ghost predicate NeverReplaces(s: State, steps: seq<Step>, s': State)
    requires Steps(s, steps, s')
    decreases |steps|
  {
    steps != [] ==> !Replaces(s, steps[0]) && NeverReplaces(Apply(s, steps[0]), steps[1..], s')
  }

  ghost predicate AlwaysKeeps(s: State, steps: seq<Step>, s': State)
    requires Steps(s, steps, s')
    decreases |steps|
  {
    steps != [] ==> KeepsSelector(s, Apply(s, steps[0])) && AlwaysKeeps(Apply(s, steps[0]), steps[1..], s')
  }

  lemma {:induction false} AuthorityHolds(s: State, steps: seq<Step>, s': State)
    requires AuthorityInv(s) && HandedOk(s) && Steps(s, steps, s')
    ensures AuthorityInv(s')
    ensures AlwaysKeeps(s, steps, s') <==> NeverReplaces(s, steps, s')
    ensures NeverReplaces(s, steps, s') ==> HandedOk(s') && KeepsSelector(s, s')
    decreases |steps|
  {
    hide AuthorityInv, HandedOk, Enabled, Apply, Replaces;
    if steps != [] {
      AuthorityStep(s, steps[0]);
      SelectorStep(s, steps[0]);
      if !Replaces(s, steps[0]) {
        HandedStep(s, steps[0]);
        AuthorityHolds(Apply(s, steps[0]), steps[1..], s');
      } else {
        AuthorityOnly(Apply(s, steps[0]), steps[1..], s');
      }
    }
  }

  lemma {:induction false} AuthorityOnly(s: State, steps: seq<Step>, s': State)
    requires AuthorityInv(s) && Steps(s, steps, s')
    ensures AuthorityInv(s')
    decreases |steps|
  {
    hide AuthorityInv, Enabled, Apply;
    if steps != [] {
      AuthorityStep(s, steps[0]);
      AuthorityOnly(Apply(s, steps[0]), steps[1..], s');
    }
  }

  /** In every run: the selector, once published, stays iff no pipeline publishes over it. */
  lemma SelectorStaysExactly(s0: State, steps: seq<Step>, s: State)
    requires Init(s0) && Steps(s0, steps, s)
    ensures AlwaysKeeps(s0, steps, s) <==> NeverReplaces(s0, steps, s)
    ensures s.selector.Some? ==> Verifies(s, s.selector.value) && !Unfenced(s, Legacy)
  {
    hide Steps, AlwaysKeeps, NeverReplaces;
    InitialAuthority(s0);
    AuthorityHolds(s0, steps, s);
  }

  // ----- One call per lease -----

  /** No lease has carried more than `n` calls. */
  ghost predicate CallsPerLease(s: State, n: nat) { forall serial :: s.entered[serial] <= n }

  lemma PublishKeepsEntered(s: State)
    requires ContentEnabled(s, Publish)
    ensures ContentApply(s, Publish).entered == s.entered
  {
    hide TargetFiles, FileSet, Lists;
  }

  lemma EnteredGrows(s: State, a: Step)
    requires Enabled(s, a)
    ensures s.entered <= Apply(s, a).entered
    ensures a.ReadSelector? ==> s.lease.Some? && Apply(s, a).entered[s.lease.value.serial] == s.entered[s.lease.value.serial] + 1
  {
    hide HostEnabled, HostApply, RecordEnabled, RecordApply, ContentEnabled, ContentApply, Loads, AttemptsPass;
    if HostStep(a) { HostFrame(s, a); }
    else if RecordStep(a) { RecordOutside(s, a); }
    else if a.Publish? { PublishKeepsEntered(s); }
    else if ContentStep(a) { ContentOutside(s, a); }
  }

  predicate UnderLease(s: State, serial: int) { s.lease.Some? && s.lease.value.serial == serial }

  /** At most one call runs under the current lease, and none that could still publish once a selector exists. */
  ghost predicate Solo(s: State) {
    && (forall w :: w in s.waiting ==> w.serial in s.entered)
    && (s.run.Some? ==> s.run.value.serial in s.entered)
    && (forall serial :: serial in s.entered ==> serial in s.served)
    && (s.lease.Some? ==> s.lease.value.serial in s.served)
    && (forall v, w :: v in s.waiting && w in s.waiting && UnderLease(s, v.serial) && UnderLease(s, w.serial) ==> v == w)
    && (s.run.Some? && UnderLease(s, s.run.value.serial) ==> forall w :: w in s.waiting ==> !UnderLease(s, w.serial))
    && (s.selector.Some? ==> forall w :: w in s.waiting ==> !UnderLease(s, w.serial))
    && (s.selector.Some? && s.run.Some? && UnderLease(s, s.run.value.serial) ==> s.run.value.at == Finished)
  }

  lemma SoloGate(s: State, a: Step)
    requires Solo(s) && GateStep(a) && GateEnabled(s, a)
    requires a.ReadSelector? ==> s.lease.Some? && s.lease.value.serial !in s.entered
    ensures Solo(GateApply(s, a))
  {
    hide Loads, AttemptsPass, Recorded, Abandon, Script, Walked;
  }

  lemma SoloHost(s: State, a: Step)
    requires Solo(s) && HostStep(a) && HostEnabled(s, a)
    ensures Solo(HostApply(s, a))
  {
    hide HostEnabled, HostApply, Chosen;
    HostFrame(s, a);
  }

  lemma SoloRun(s: State, s': State)
    requires Solo(s) && Outside(s, s') && s.run.value.at != Finished
    ensures Solo(s')
  {}

  lemma SoloPublish(s: State)
    requires Solo(s) && ContentEnabled(s, Publish)
    ensures Solo(ContentApply(s, Publish)) && s.selector.None?
  {
    assert UnderLease(s, s.run.value.serial);
  }

  lemma SoloStep(s: State, a: Step)
    requires Solo(s) && Enabled(s, a) && (a.ReadSelector? ==> s.lease.Some? && s.lease.value.serial !in s.entered)
    ensures Solo(Apply(s, a)) && !Replaces(s, a)
  {
    hide Solo, HostEnabled, HostApply, GateEnabled, GateApply, RecordEnabled, RecordApply, ContentEnabled, ContentApply, Outside;
    if HostStep(a) { SoloHost(s, a); }
    else if GateStep(a) { SoloGate(s, a); }
    else if RecordStep(a) { RecordOutside(s, a); SoloRun(s, RecordApply(s, a)); }
    else if a.Publish? { SoloPublish(s); }
    else { ContentOutside(s, a); SoloRun(s, ContentApply(s, a)); }
  }

  lemma {:induction false} EnteredOnlyGrows(s: State, steps: seq<Step>, s': State)
    requires Steps(s, steps, s')
    ensures s.entered <= s'.entered
    decreases |steps|
  {
    hide Enabled, Apply;
    if steps != [] {
      EnteredGrows(s, steps[0]);
      EnteredOnlyGrows(Apply(s, steps[0]), steps[1..], s');
    }
  }

  lemma {:induction false} SoloNeverReplaces(s: State, steps: seq<Step>, s': State)
    requires Solo(s) && Steps(s, steps, s') && CallsPerLease(s', 1)
    ensures NeverReplaces(s, steps, s')
    decreases |steps|
  {
    hide Solo, Enabled, Apply, Replaces;
    if steps != [] {
      EnteredGrows(s, steps[0]);
      EnteredOnlyGrows(Apply(s, steps[0]), steps[1..], s');
      SoloStep(s, steps[0]);
      SoloNeverReplaces(Apply(s, steps[0]), steps[1..], s');
    }
  }

  /** With one call per lease there is one authority in every state of every run. */
  lemma OneAuthority(s0: State, steps: seq<Step>, s: State)
    requires Init(s0) && Steps(s0, steps, s) && CallsPerLease(s, 1)
    ensures SingleAuthority(s) && AlwaysKeeps(s0, steps, s)
  {
    hide Steps, AlwaysKeeps, NeverReplaces, SingleAuthority;
    InitialAuthority(s0);
    SoloNeverReplaces(s0, steps, s);
    AuthorityHolds(s0, steps, s);
    InvIsSingle(s);
  }
}
