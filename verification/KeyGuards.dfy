/**
 What guards the parts of the store the secrets rely on: grants change only under a rising revision and die for good,
 processes with an old selection are shut out, and key files are written once.
 */
module KeyGuards {
  import opened Common
  import opened KeyLedger
  import opened KeySafety
  import opened KeyRecovery
  import opened KeyReopen
  import opened KeyOpening

  // ----- Grants and configuration fields -----

  lemma ReferenceNames(s: State, a: Action, r: RefId)
    requires ReferenceAction(a) && ReferenceEnabled(s, a) && r in ApplyReference(s, a).refs
    requires r in s.refs ==> ApplyReference(s, a).refs[r].token != s.refs[r].token
    ensures var now := ApplyReference(s, a).refs[r];
      && now.token in s.receipts && s.receipts[now.token].gen == s.sel.gen
      && s.receipts[now.token].state in (if now.Configured? then {Claimed} else {Staged, Claimed, Active})
      && StoreOpen(s, a.p)
  {
    hide NoPending;
  }

  /** A field or grant comes to name a receipt only while a process holds the selection, at the current generation:
      a field a claimed one, a grant a readable one. */
  lemma NamesOnlyReadable(s: State, a: Action, r: RefId)
    requires Enabled(s, a) && r in Apply(s, a).refs
    requires r in s.refs ==> Apply(s, a).refs[r].token != s.refs[r].token
    ensures var now := Apply(s, a).refs[r];
      && now.token in s.receipts && s.receipts[now.token].gen == s.sel.gen
      && s.receipts[now.token].state in (if now.Configured? then {Claimed} else {Staged, Claimed, Active})
      && exists p :: StoreOpen(s, p)
  {
    hide StageEnabled, ReceiptEnabled, ReferenceEnabled, JournalEnabled, SelectEnabled, StoreOpen,
      ApplyStage, ApplyReceipt, ApplyReference, ApplyJournal, ApplySelect;
    if StageAction(a) { StageReferences(s, a); }
    else if ReceiptAction(a) { ReceiptShape(s, a); }
    else if JournalAction(a) { JournalReferences(s, a); }
    else if SelectAction(a) { SelectReferences(s, a); }
    else { ReferenceNames(s, a, r); }
  }

  /** An open store can put a grant over any readable receipt of the current generation. */
  lemma GrantPossible(s: State, p: Proc, r: RefId, t: Token, live: bool)
    requires Owned(s, p, t) && s.receipts[t].state in {Staged, Claimed, Active} && (r in s.refs ==> s.refs[r].Granted?)
    ensures Enabled(s, PutGrant(p, r, t, live))
    ensures var s' := Apply(s, PutGrant(p, r, t, live));
      && s'.refs.Keys == s.refs.Keys + {r} && s'.refs[r].Granted? && s'.refs[r].token == t && s'.refs[r].live == live
  {
    hide NoPending;
  }

  lemma ReferenceRises(s: State, a: Action, r: RefId)
    requires ReferenceAction(a) && ReferenceEnabled(s, a) && r in s.refs && r in ApplyReference(s, a).refs
    ensures s.refs[r].Granted? ==> ApplyReference(s, a).refs[r].Granted?
    ensures s.refs[r].Granted? && ApplyReference(s, a).refs[r] != s.refs[r] ==>
      ApplyReference(s, a).refs[r].revision == s.refs[r].revision + 1
  {
    hide StoreOpen, NoPending;
  }

  /** A grant's row never changes without its revision going up by one. */
  lemma RevisionRises(s: State, a: Action, r: RefId)
    requires Enabled(s, a) && r in s.refs && s.refs[r].Granted? && r in Apply(s, a).refs && Apply(s, a).refs[r] != s.refs[r]
    ensures Apply(s, a).refs[r].Granted? && Apply(s, a).refs[r].revision == s.refs[r].revision + 1
  {
    hide StageEnabled, ReceiptEnabled, ReferenceEnabled, JournalEnabled, SelectEnabled,
      ApplyStage, ApplyReceipt, ApplyReference, ApplyJournal, ApplySelect;
    if StageAction(a) { StageReferences(s, a); }
    else if ReceiptAction(a) { ReceiptShape(s, a); }
    else if JournalAction(a) { JournalReferences(s, a); }
    else if SelectAction(a) { SelectReferences(s, a); }
    else { ReferenceRises(s, a, r); }
  }

  /** Only a new grant transaction makes a grant live. */
  lemma GrantStep(s: State, a: Action, r: RefId)
    requires Enabled(s, a) && LiveGrant(Apply(s, a), r)
    ensures LiveGrant(s, r) || (a.PutGrant? && a.r == r && a.live)
    ensures a != RevokeGrant(r) && a != ExpireGrant(r) && a != DropGrant(r)
  {
    hide StageEnabled, ReceiptEnabled, ReferenceEnabled, JournalEnabled, SelectEnabled,
      ApplyStage, ApplyReceipt, ApplyReference, ApplyJournal, ApplySelect;
    if StageAction(a) { StageReferences(s, a); }
    else if ReceiptAction(a) { ReceiptShape(s, a); }
    else if JournalAction(a) { JournalReferences(s, a); }
    else if SelectAction(a) { SelectReferences(s, a); }
    else { ReferenceGrants(s, a, r); }
  }

  lemma ReferenceGrants(s: State, a: Action, r: RefId)
    requires ReferenceAction(a) && ReferenceEnabled(s, a) && LiveGrant(ApplyReference(s, a), r)
    ensures LiveGrant(s, r) || (a.PutGrant? && a.r == r && a.live)
    ensures a != RevokeGrant(r) && a != ExpireGrant(r) && a != DropGrant(r)
  {
    hide StoreOpen, NoPending;
  }

  lemma StageReferences(s: State, a: Action)
    requires StageAction(a) && StageEnabled(s, a)
    ensures ApplyStage(s, a).refs == s.refs
  {
    hide StoreOpen, Ready;
  }

  lemma JournalReferences(s: State, a: Action)
    requires JournalAction(a) && JournalEnabled(s, a)
    ensures ApplyJournal(s, a).refs == s.refs
  {
    hide Known, DigestOf, Decrypts, NothingStored, NoPending, FreshIds, MayHold;
  }

  lemma SelectReferences(s: State, a: Action)
    requires SelectAction(a) && SelectEnabled(s, a)
    ensures ApplySelect(s, a).refs == if a.CommitReset? then map[] else s.refs
  {
    hide Known, DigestOf, Decrypts, NothingStored, NoPending, CandidateKey;
  }

  /** A revoked, expired or dropped grant stays dead until a grant transaction writes it anew. */
  lemma {:induction false} DeadGrantStays(s: State, actions: seq<Action>, s': State, r: RefId)
    requires Steps(s, actions, s') && !LiveGrant(s, r)
    requires forall i :: 0 <= i < |actions| ==> !(actions[i].PutGrant? && actions[i].r == r)
    ensures !LiveGrant(s', r)
    decreases |actions|
  {
    hide Enabled, Apply, LiveGrant;
    if actions != [] {
      if LiveGrant(Apply(s, actions[0]), r) { GrantStep(s, actions[0], r); assert false; }
      DeadGrantStays(Apply(s, actions[0]), actions[1..], s', r);
    }
  }

  lemma RevokedStays(s: State, r: RefId, actions: seq<Action>, s': State)
    requires Enabled(s, RevokeGrant(r)) && Steps(Apply(s, RevokeGrant(r)), actions, s')
    requires forall i :: 0 <= i < |actions| ==> !(actions[i].PutGrant? && actions[i].r == r)
    ensures !LiveGrant(s', r)
  {
    hide Enabled, Apply, Steps;
    if LiveGrant(Apply(s, RevokeGrant(r)), r) { GrantStep(s, RevokeGrant(r), r); assert false; }
    DeadGrantStays(Apply(s, RevokeGrant(r)), actions, s', r);
  }

  // ----- Processes that hold an old selection -----

  /** The processes whose store calls the action is part of. */
  predicate ActsFor(s: State, a: Action, p: Proc) {
    || ((a.ReserveReceipt? || a.ClaimReceipt? || a.ActivateReceipt? || a.DeleteReceipt? || a.UnlinkThenCrash? ||
         a.MarkOrphan? || a.SetConfig? || a.PutGrant?) && a.p == p)
    || ((a.SealPayload? || a.FinalizeStage?) && a.t in s.frames && s.frames[a.t].proc == p)
  }

  lemma ActorIsOpen(s: State, a: Action, p: Proc)
    requires Enabled(s, a) && ActsFor(s, a, p)
    ensures p in s.caches && s.caches[p] == (s.sel.gen, s.sel.rev) && NoPending(s)
  {
    hide NoPending;
  }

  /** What `p` has read is older than the selector row. */
  predicate Outdated(s: State, p: Proc) { p in s.caches ==> s.caches[p].1 < s.sel.rev }

  lemma StageCaches(s: State, a: Action, p: Proc)
    requires StageAction(a) && StageEnabled(s, a) && !(a.CacheSelection? && a.p == p)
    ensures p in ApplyStage(s, a).caches ==> p in s.caches && ApplyStage(s, a).caches[p] == s.caches[p]
  {
    hide StoreOpen, Ready;
  }

  lemma ReferenceCaches(s: State, a: Action)
    requires ReferenceAction(a) && ReferenceEnabled(s, a)
    ensures ApplyReference(s, a).caches == s.caches
  {
    hide NoPending, StoreOpen;
  }

  lemma JournalCaches(s: State, a: Action)
    requires JournalAction(a) && JournalEnabled(s, a)
    ensures ApplyJournal(s, a).caches == s.caches
  {
    hide Known, DigestOf, Decrypts, NothingStored, NoPending, FreshIds, MayHold;
  }

  lemma SelectCaches(s: State, a: Action)
    requires SelectAction(a) && SelectEnabled(s, a)
    ensures ApplySelect(s, a).caches == s.caches
  {
    hide Known, DigestOf, Decrypts, NothingStored, NoPending, CandidateKey;
  }

  lemma CachesKept(s: State, a: Action, p: Proc)
    requires Enabled(s, a) && !(a.CacheSelection? && a.p == p)
    ensures p in Apply(s, a).caches ==> p in s.caches && Apply(s, a).caches[p] == s.caches[p]
  {
    hide StageEnabled, ReceiptEnabled, ReferenceEnabled, JournalEnabled, SelectEnabled,
      ApplyStage, ApplyReceipt, ApplyReference, ApplyJournal, ApplySelect;
    if StageAction(a) { StageCaches(s, a, p); }
    else if ReceiptAction(a) { ReceiptShape(s, a); }
    else if ReferenceAction(a) { ReferenceCaches(s, a); }
    else if JournalAction(a) { JournalCaches(s, a); }
    else { SelectCaches(s, a); }
  }

  lemma OutdatedStep(s: State, a: Action, p: Proc)
    requires SelectorInv(s) && Outdated(s, p) && Enabled(s, a) && !(a.CacheSelection? && a.p == p)
    ensures SelectorInv(Apply(s, a)) && Outdated(Apply(s, a), p)
  {
    hide Enabled, Apply;
    SelectorStep(s, a);
    CachesKept(s, a, p);
  }

  lemma {:induction false} OutdatedForever(s: State, actions: seq<Action>, s': State, p: Proc)
    requires SelectorInv(s) && Outdated(s, p) && Steps(s, actions, s')
    requires forall i :: 0 <= i < |actions| ==> !(actions[i].CacheSelection? && actions[i].p == p)
    ensures Outdated(s', p)
    decreases |actions|
  {
    hide SelectorInv, Outdated, Enabled, Apply;
    if actions != [] {
      OutdatedStep(s, actions[0], p);
      OutdatedForever(Apply(s, actions[0]), actions[1..], s', p);
    }
  }

  /** No process has read a selection from the future. */
  predicate CachesPast(s: State) { forall p :: p in s.caches ==> s.caches[p].1 <= s.sel.rev }

  lemma CachesPastStep(s: State, a: Action)
    requires SelectorInv(s) && CachesPast(s) && Enabled(s, a)
    ensures SelectorInv(Apply(s, a)) && CachesPast(Apply(s, a))
  {
    SelectorStep(s, a);
    if a.CacheSelection? {
      hide Ready;
      forall p | p in Apply(s, a).caches && p != a.p ensures Apply(s, a).caches[p].1 <= s.sel.rev { CachesKept(s, a, p); }
    } else {
      hide Enabled, Apply;
      forall p | p in Apply(s, a).caches ensures Apply(s, a).caches[p].1 <= Apply(s, a).sel.rev { CachesKept(s, a, p); }
    }
  }

  lemma {:induction false} CachesPastHolds(s: State, actions: seq<Action>, s': State)
    requires SelectorInv(s) && CachesPast(s) && Steps(s, actions, s')
    ensures SelectorInv(s') && CachesPast(s')
    decreases |actions|
  {
    hide SelectorInv, CachesPast, Enabled, Apply;
    if actions != [] {
      CachesPastStep(s, actions[0]);
      CachesPastHolds(Apply(s, actions[0]), actions[1..], s');
    }
  }

  /** Every commit of a selection shuts out all processes: none reserves, seals, claims, deletes or names anything
      until it has read the new selection. */
  lemma CommitShutsOut(s0: State, before: seq<Action>, s: State, commit: Action, later: seq<Action>, s': State, p: Proc, a: Action)
    requires Init(s0) && Steps(s0, before, s) && SelectAction(commit) && Enabled(s, commit)
    requires Steps(Apply(s, commit), later, s') && Enabled(s', a) && ActsFor(s', a, p)
    ensures exists i :: 0 <= i < |later| && later[i].CacheSelection? && later[i].p == p
  {
    assert SelectorInv(s0) && CachesPast(s0);
    hide Steps, Enabled, Apply, Init, SelectorInv, ActsFor, CachesPast;
    CachesPastHolds(s0, before, s);
    var next := Apply(s, commit);
    SelectorStep(s, commit);
    assert Outdated(next, p) by { CommitOutdates(s, commit, p); }
    ActorIsOpen(s', a, p);
    if forall i :: 0 <= i < |later| ==> !(later[i].CacheSelection? && later[i].p == p) {
      OutdatedForever(next, later, s', p);
      assert false;
    }
  }

  lemma CommitOutdates(s: State, commit: Action, p: Proc)
    requires SelectorInv(s) && CachesPast(s) && SelectAction(commit) && Enabled(s, commit)
    ensures Outdated(Apply(s, commit), p)
  {
    hide Enabled, Apply;
    SelectorStep(s, commit);
    CachesKept(s, commit, p);
  }

  // ----- Key files -----

  predicate FileHolds(s: State, k: KeyId, key: Key) { k in s.keyFiles && s.keyFiles[k] == Full(key) }

  lemma JournalKeepsKey(s: State, a: Action, k: KeyId, key: Key)
    requires JournalAction(a) && JournalEnabled(s, a) && FileHolds(s, k, key) && a != DamageKeyFile(k)
    ensures FileHolds(ApplyJournal(s, a), k, key)
  {
    hide Known, DigestOf, Decrypts, NothingStored, NoPending, FreshIds, MayHold;
  }

  lemma SelectKeepsKey(s: State, a: Action, k: KeyId, key: Key)
    requires SelectAction(a) && SelectEnabled(s, a) && FileHolds(s, k, key)
    ensures FileHolds(ApplySelect(s, a), k, key)
  {
    hide Known, DigestOf, Decrypts, NothingStored, NoPending, OpCurrent;
  }

  lemma KeyStays(s: State, a: Action, k: KeyId, key: Key)
    requires Enabled(s, a) && FileHolds(s, k, key) && a != DamageKeyFile(k)
    ensures FileHolds(Apply(s, a), k, key)
  {
    hide StageEnabled, ReceiptEnabled, ReferenceEnabled, JournalEnabled, SelectEnabled,
      ApplyStage, ApplyReceipt, ApplyReference, ApplyJournal, ApplySelect;
    if StageAction(a) { StageKeepsKeys(s, a); }
    else if ReceiptAction(a) { ReceiptKeepsKeys(s, a); }
    else if ReferenceAction(a) { ReferenceKeepsFiles(s, a); }
    else if JournalAction(a) { JournalKeepsKey(s, a, k, key); }
    else { SelectKeepsKey(s, a, k, key); }
  }

  lemma ReferenceKeepsFiles(s: State, a: Action)
    requires ReferenceAction(a) && ReferenceEnabled(s, a)
    ensures ApplyReference(s, a).keyFiles == s.keyFiles
  {
    hide StoreOpen, NoPending;
  }

  /** A complete key file is never overwritten or removed, whatever is restored, adopted or reset later. */
  lemma {:induction false} KeyStaysForever(s: State, actions: seq<Action>, s': State, k: KeyId, key: Key)
    requires Steps(s, actions, s') && FileHolds(s, k, key) && DamageKeyFile(k) !in actions
    ensures FileHolds(s', k, key)
    decreases |actions|
  {
    hide FileHolds, Enabled, Apply;
    if actions != [] {
      KeyStays(s, actions[0], k, key);
      KeyStaysForever(Apply(s, actions[0]), actions[1..], s', k, key);
    }
  }

  /** A retry drops a candidate only when its file never became complete. */
  lemma RotationDropsNoKey(s: State, o: OpId, o': OpId, k': KeyId, k: KeyId, key: Key)
    requires Enabled(s, RotateCandidate(o, o', k')) && s.ops[o].cand == Some(k)
    ensures !FileHolds(s, k, key)
  {
    hide Known, DigestOf, FreshIds;
  }

  // ----- A restore, start to end -----

  /** The restore a begun call goes on with: the key it validated, at the revision it saw. */
  lemma RestoreCompletes(s: State, o: OpId, k: KeyId, key: Key)
    requires Reachable(s) && Enabled(s, BeginRestore(o, k, key))
    ensures var begun := Apply(s, BeginRestore(o, k, key)); var call := RestoreCall(key, s.sel.gen, s.sel.rev);
      && Enabled(begun, CommitRestore(o, call))
      && var s' := Apply(begun, CommitRestore(o, call));
         s'.sel.source == Managed && s'.sel.keyId == Some(k) && s'.sel.check == Some(key) && FileHolds(s', k, key)
  {
    var begun := Apply(s, BeginRestore(o, k, key));
    BegunRestore(s, begun, o, k, key);
    BegunRow(s, o, k, key);
    hide Decrypts, Known, DigestOf, Enabled, Apply, Reachable;
    RestoreCommits(begun, o, k, RestoreCall(key, s.sel.gen, s.sel.rev));
  }

  lemma BegunRow(s: State, o: OpId, k: KeyId, key: Key)
    requires Enabled(s, BeginRestore(o, k, key))
    ensures var begun := Apply(s, BeginRestore(o, k, key));
      && begun.sel == s.sel && RestoreCall(key, s.sel.gen, s.sel.rev) in begun.restores && k !in begun.keyFiles
      && o in begun.ops && begun.ops[o] == Operation(Restore, Preparing, Some(k), s.sel.gen, s.sel.rev, DigestOf(s), Legacy)
  {
    hide Decrypts, Known, DigestOf;
  }

  lemma RestoreCommits(s: State, o: OpId, k: KeyId, call: RestoreCall)
    requires OpCurrent(s, o) && Decrypts(s, call.key) && call in s.restores && k !in s.keyFiles
    requires call.gen == s.sel.gen && call.rev == s.sel.rev
    requires s.ops[o].kind == Restore && s.ops[o].purpose == Legacy && s.ops[o].cand == Some(k)
    ensures Enabled(s, CommitRestore(o, call))
    ensures var s' := Apply(s, CommitRestore(o, call));
      s'.sel.source == Managed && s'.sel.keyId == Some(k) && s'.sel.check == Some(call.key) && FileHolds(s', k, call.key)
  {
    hide Decrypts, Known, DigestOf, OpCurrent;
  }

  lemma BegunRestore(s: State, begun: State, o: OpId, k: KeyId, key: Key)
    requires Reachable(s) && Enabled(s, BeginRestore(o, k, key)) && begun == Apply(s, BeginRestore(o, k, key))
    ensures DigestOf(begun) == DigestOf(s) && Known(begun) && Decrypts(begun, key)
  {
    var a := BeginRestore(o, k, key);
    NewRowDigest(s, begun, o, k);
    NewRowKeepsResets(s, begun, o);
    assert forall t :: LiveToken(begun, t) <==> LiveToken(s, t);
    SameStore(s, begun);
    hide Enabled, Apply, DigestOf, Reachable;
    OneStep(s, a);
    ReachableHolds(s, [a], begun);
    KnownIffIntact(s);
    KnownIffIntact(begun);
  }

  /** A crash in the middle of writing a candidate leaves a partial file; the operation is retried under a new one and
      the store still opened. */
  lemma PartialWriteRecovers(s: State, o: OpId, key: Key, o': OpId, k': KeyId)
    requires Sound(s) && Enabled(s, CreateKeyFile(o, key, false)) && FreshIds(s, o', k')
    ensures var s' := Apply(s, CreateKeyFile(o, key, false)); var k := s.ops[o].cand.value;
      k in s'.keyFiles && s'.keyFiles[k] == Partial && CanOpen(s')
  {
    var a := CreateKeyFile(o, key, false);
    var s' := Apply(s, a);
    SoundNow(s);
    DigestIgnoresCandidate(s, s', o);
    SameStore(s, s');
    assert FreshIds(s', o', k') by { CandidateIsUsed(s, o, o', k'); }
    hide Sound, Enabled, Apply, DigestOf, CanOpen;
    SoundStep(s, a);
    SoundNow(s');
    KnownIffIntact(s);
    KnownIffIntact(s');
    FinishPending(s', o, o', k');
  }

  lemma CandidateIsUsed(s: State, o: OpId, o': OpId, k': KeyId)
    requires o in s.ops && s.ops[o].cand.Some? && FreshIds(s, o', k')
    ensures s.ops[o].cand.value != k'
  {}
}
