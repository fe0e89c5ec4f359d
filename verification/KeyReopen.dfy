/**
 Which stores open again. The manager's `unknown` count is zero exactly when no temporary file is
 left, payloads and live receipts match and every reference names an active receipt; this file proves
 that of every reachable state, says which actions break it, and when it can still be repaired.
 */
module KeyReopen {
  import opened Common
  import opened KeyLedger
  import opened KeySafety
  import opened KeyRecovery

  // ----- What an unknown inventory comes down to -----

  /** Every live receipt has its payload. */
  predicate Backed(s: State) {
    forall t :: t in s.receipts && Live(s.receipts[t].state) ==> t in s.payloads
  }

  /** No temporary file is left and no payload is without a receipt. */
  predicate Swept(s: State) { s.temps == {} && forall t :: t in s.payloads ==> t in s.receipts }

  /** Every reference names an active receipt. */
  predicate Referenced(s: State) {
    forall r :: r in s.refs ==> s.refs[r].token in s.receipts && s.receipts[s.refs[r].token].state == Active
  }

  /** Nothing is left over and nothing is missing. */
  predicate Whole(s: State) { Swept(s) && Backed(s) }

  predicate Intact(s: State) { Whole(s) && Referenced(s) }

  ghost predicate ReceiptInv(s: State) {
    && (forall t :: t in s.receipts ==> s.receipts[t].gen <= s.sel.gen)
    && (forall t :: t in s.receipts && Selected(s) && s.receipts[t].gen < s.sel.gen ==> s.receipts[t].state == Tombstoned)
    && (forall t :: t in s.frames ==> t in s.receipts)
  }

  lemma StageReceipts(s: State, a: Action)
    requires SelectorInv(s) && ReceiptInv(s) && StageAction(a) && StageEnabled(s, a)
    ensures ReceiptInv(ApplyStage(s, a))
  {
    hide NoPending, Ready;
  }

  lemma ChangedReceipts(s: State, a: Action)
    requires SelectorInv(s) && ReceiptInv(s) && ReceiptAction(a) && ReceiptEnabled(s, a)
    ensures ReceiptInv(ApplyReceipt(s, a))
  {
    hide ReceiptEnabled, ApplyReceipt;
    ReceiptShape(s, a);
  }

  lemma ReferenceReceipts(s: State, a: Action)
    requires ReceiptInv(s) && ReferenceAction(a) && ReferenceEnabled(s, a)
    ensures ReceiptInv(ApplyReference(s, a))
  {
    hide NoPending;
  }

  lemma JournalReceipts(s: State, a: Action)
    requires ReceiptInv(s) && JournalAction(a) && JournalEnabled(s, a)
    ensures ReceiptInv(ApplyJournal(s, a))
  {
    hide Known, DigestOf, NoPending, NothingStored, OpCurrent, Decrypts, FreshIds;
  }

  lemma SelectReceipts(s: State, a: Action)
    requires SelectorInv(s) && ReceiptInv(s) && SelectAction(a) && SelectEnabled(s, a)
    ensures ReceiptInv(ApplySelect(s, a))
  {
    hide Known, DigestOf, NoPending, OpCurrent, Decrypts, CandidateKey;
    if a.CommitInitialize? {
      assert forall t :: t in s.receipts ==> !LiveToken(s, t);
    }
  }

  lemma ReceiptStep(s: State, a: Action)
    requires SelectorInv(s) && ReceiptInv(s) && Enabled(s, a)
    ensures ReceiptInv(Apply(s, a))
  {
    hide ReceiptInv, StageEnabled, ReceiptEnabled, ReferenceEnabled, JournalEnabled, SelectEnabled,
      ApplyStage, ApplyReceipt, ApplyReference, ApplyJournal, ApplySelect;
    if StageAction(a) { StageReceipts(s, a); }
    else if ReceiptAction(a) { ChangedReceipts(s, a); }
    else if ReferenceAction(a) { ReferenceReceipts(s, a); }
    else if JournalAction(a) { JournalReceipts(s, a); }
    else { SelectReceipts(s, a); }
  }

  lemma KnownFromParts(s: State)
    requires SelectorInv(s) && ReceiptInv(s) && JournalInv(s)
    ensures Known(s) <==> Intact(s)
  {
    assert forall t :: t in s.receipts ==> !(RetiredReceipt(s, t) && Live(s.receipts[t].state));
    assert forall t :: t in s.receipts ==> (LiveToken(s, t) <==> Live(s.receipts[t].state));
    forall k | k in s.keyFiles ensures KeyAccounted(s, k) { KeyFileHasOneRole(s, k); }
    assert forall t :: t in s.receipts && s.receipts[t].state == Active ==> s.receipts[t].gen == s.sel.gen;
  }

  /** While an operation is pending nothing goes missing: the store is closed to every process. */
  ghost predicate PendingInv(s: State) { NoPending(s) || (Backed(s) && Referenced(s)) }

  lemma StagePending(s: State, a: Action)
    requires PendingInv(s) && StageAction(a) && StageEnabled(s, a)
    ensures PendingInv(ApplyStage(s, a))
  {
    hide Ready;
  }

  lemma ReceiptPending(s: State, a: Action)
    requires PendingInv(s) && ReceiptAction(a) && ReceiptEnabled(s, a)
    ensures PendingInv(ApplyReceipt(s, a))
  {
    var s' := ApplyReceipt(s, a);
    SameOps(s, s');
    hide NoPending;
  }

  lemma ReferencePending(s: State, a: Action)
    requires PendingInv(s) && ReferenceAction(a) && ReferenceEnabled(s, a)
    ensures PendingInv(ApplyReference(s, a))
  {}

  lemma JournalPending(s: State, a: Action)
    requires SelectorInv(s) && ReceiptInv(s) && JournalInv(s) && PendingInv(s) && JournalAction(a) && JournalEnabled(s, a)
    ensures PendingInv(ApplyJournal(s, a))
  {
    KnownFromParts(s);
    var s' := ApplyJournal(s, a);
    hide Known, DigestOf, NothingStored, Decrypts, FreshIds, JournalInv, ReceiptInv, SelectorInv;
    if a.ResumeRestore? || a.CreateKeyFile? || a.DamageKeyFile? { SameOps(s, s'); }
    hide NoPending;
  }

  lemma CommitClosesPending(s: State, o: OpId, key: Key, gen: nat, receipts: map<Token, Receipt>)
    requires JournalInv(s) && Pending(s, o) && s.ops[o].cand.Some?
    ensures NoPending(CommitManaged(s, o, key, gen, receipts))
  {
    var s' := CommitManaged(s, o, key, gen, receipts);
    forall p | p in s'.ops ensures s'.ops[p].state != Preparing {
      if Pending(s, p) { OnlyPending(s, o, p); }
    }
  }

  lemma SelectPending(s: State, a: Action)
    requires JournalInv(s) && SelectAction(a) && SelectEnabled(s, a)
    ensures NoPending(ApplySelect(s, a))
  {
    hide Known, DigestOf, NothingStored, Decrypts, JournalInv, NoPending;
    var s' := ApplySelect(s, a);
    match a
    case SelectEnvironment(key) => SameOps(s, s');
    case RestoreEnvironment(o, key) => RestoredHasNoPending(s, s', o);
    case CommitInitialize(o, key) => CommitClosesPending(s, o, key, s.sel.gen + 1, s'.receipts);
    case CommitRestore(o, call) => CommitClosesPending(s, o, call.key, AtLeastOne(s.sel.gen), s'.receipts);
    case CommitAdoption(o, key) => CommitClosesPending(s, o, key, s.sel.gen, s'.receipts);
    case CommitReset(o, key) =>
      CommitClosesPending(s, o, key, s.sel.gen + 1, s'.receipts);
      SameOps(CommitManaged(s, o, key, s.sel.gen + 1, s'.receipts), s');
  }

  lemma RestoredHasNoPending(s: State, s': State, o: OpId)
    requires NoPending(s) && (s'.ops == s.ops || (o in s'.ops && s'.ops[o].state == Committed && s'.ops == s.ops[o := s'.ops[o]]))
    ensures NoPending(s')
  {}

  lemma PendingStep(s: State, a: Action)
    requires SelectorInv(s) && ReceiptInv(s) && JournalInv(s) && PendingInv(s) && Enabled(s, a)
    ensures PendingInv(Apply(s, a))
  {
    hide PendingInv, NoPending, StageEnabled, ReceiptEnabled, ReferenceEnabled, JournalEnabled, SelectEnabled,
      ApplyStage, ApplyReceipt, ApplyReference, ApplyJournal, ApplySelect, SelectorInv, ReceiptInv, JournalInv;
    if StageAction(a) { StagePending(s, a); }
    else if ReceiptAction(a) { ReceiptPending(s, a); }
    else if ReferenceAction(a) { ReferencePending(s, a); }
    else if JournalAction(a) { JournalPending(s, a); }
    else { SelectPending(s, a); QuietIsFine(Apply(s, a)); }
  }

  lemma QuietIsFine(s: State)
    requires NoPending(s)
    ensures PendingInv(s)
  {}

  lemma SameOps(s: State, s': State)
    requires s'.ops == s.ops
    ensures NoPending(s') <==> NoPending(s)
  {}

  /** What every reachable state satisfies, whatever the legacy store looked like. */
  ghost predicate Reachable(s: State) { SelectorInv(s) && ReceiptInv(s) && JournalInv(s) && PendingInv(s) }

  lemma {:induction false} ReachableHolds(s: State, actions: seq<Action>, s': State)
    requires Reachable(s) && Steps(s, actions, s')
    ensures Reachable(s')
    decreases |actions|
  {
    hide SelectorInv, ReceiptInv, JournalInv, PendingInv, Enabled, Apply;
    if actions != [] {
      SelectorStep(s, actions[0]);
      ReceiptStep(s, actions[0]);
      JournalStep(s, actions[0]);
      PendingStep(s, actions[0]);
      ReachableHolds(Apply(s, actions[0]), actions[1..], s');
    }
  }

  lemma InitIsReachable(s0: State)
    requires Init(s0)
    ensures Reachable(s0)
  {}

  lemma KnownIffIntact(s: State)
    requires Reachable(s)
    ensures Known(s) <==> Intact(s)
  {
    hide Known, Intact, SelectorInv, ReceiptInv, JournalInv, PendingInv;
    KnownFromParts(s);
  }

  /** In every reachable state the inventory is known exactly when nothing is left over or missing and
      every reference names an active receipt. */
  lemma KnownExactly(s0: State, actions: seq<Action>, s: State)
    requires Init(s0) && Steps(s0, actions, s)
    ensures Known(s) <==> Intact(s)
  {
    hide Known, Intact, Steps, Init, Reachable;
    InitIsReachable(s0);
    ReachableHolds(s0, actions, s);
    KnownIffIntact(s);
  }

  // ----- Opening -----

  /** Some process can take up the selection. */
  ghost predicate Opens(s: State) { exists env :: Ready(s, env) }

  predicate KeyFileIntact(s: State) {
    s.sel.source == Managed && s.sel.keyId.Some? && s.sel.check.Some? ==>
      s.sel.keyId.value in s.keyFiles && s.keyFiles[s.sel.keyId.value] == Full(s.sel.check.value)
  }

  /** The environment the selection asks for. */
  predicate Matching(s: State, env: Env) {
    && s.sel.check.Some?
    && (s.sel.source == Environment ==> env == Present(s.sel.check.value))
    && (s.sel.source == Managed ==> env == Absent || env == Present(s.sel.check.value))
  }

  lemma ReadyFromParts(s: State, env: Env)
    requires Reachable(s) && Safe(s)
    ensures Ready(s, env) <==> Selected(s) && Intact(s) && NoPending(s) && KeyFileIntact(s) && Matching(s, env)
  {
    KnownIffIntact(s);
    hide Known, Intact, NoPending, Decrypts, ReceiptInv, JournalInv, PendingInv;
  }

  /** Ready exactly when selected, intact, nothing pending, key file whole and the environment fits. */
  lemma ReadyExactly(s0: State, actions: seq<Action>, s: State, env: Env)
    requires Init(s0) && AlwaysSafe(s0) && Steps(s0, actions, s)
    ensures Ready(s, env) <==> Selected(s) && Intact(s) && NoPending(s) && KeyFileIntact(s) && Matching(s, env)
  {
    assert Safe(s);
    hide Steps, Init, Reachable, Ready, Intact, NoPending, KeyFileIntact, Matching, Safe, AlwaysSafe;
    InitIsReachable(s0);
    ReachableHolds(s0, actions, s);
    ReadyFromParts(s, env);
  }

  lemma OpensFromParts(s: State)
    requires Reachable(s) && Safe(s)
    ensures Opens(s) <==> Selected(s) && Intact(s) && NoPending(s) && KeyFileIntact(s)
  {
    var env := if s.sel.source == Environment && s.sel.check.Some? then Present(s.sel.check.value) else Absent;
    assert Selected(s) ==> Matching(s, env);
    hide Ready, Intact, NoPending, KeyFileIntact, Reachable, Safe, Matching;
    ReadyFromParts(s, env);
    forall other ensures Ready(s, other) ==> Selected(s) && Intact(s) && NoPending(s) && KeyFileIntact(s) {
      ReadyFromParts(s, other);
    }
  }

  /** A store opens exactly when it is selected, intact, its key file is whole and nothing is pending. */
  lemma OpensExactly(s0: State, actions: seq<Action>, s: State)
    requires Init(s0) && AlwaysSafe(s0) && Steps(s0, actions, s)
    ensures Opens(s) <==> Selected(s) && Intact(s) && NoPending(s) && KeyFileIntact(s)
  {
    assert Safe(s);
    hide Steps, Init, Reachable, Opens, Intact, NoPending, KeyFileIntact, Safe, AlwaysSafe;
    InitIsReachable(s0);
    ReachableHolds(s0, actions, s);
    OpensFromParts(s);
  }

  lemma StageKeepsKeys(s: State, a: Action)
    requires StageAction(a) && StageEnabled(s, a)
    ensures ApplyStage(s, a).sel == s.sel && ApplyStage(s, a).keyFiles == s.keyFiles
  {
    hide StoreOpen, Ready;
  }

  lemma ReceiptKeepsKeys(s: State, a: Action)
    requires ReceiptAction(a) && ReceiptEnabled(s, a)
    ensures ApplyReceipt(s, a).sel == s.sel && ApplyReceipt(s, a).keyFiles == s.keyFiles
  {
    hide ReceiptEnabled, ApplyReceipt;
    ReceiptShape(s, a);
  }

  lemma JournalKeepsKeys(s: State, a: Action)
    requires KeyFileIntact(s) && JournalAction(a) && JournalEnabled(s, a) && !a.DamageKeyFile?
    ensures KeyFileIntact(ApplyJournal(s, a))
  {
    hide Known, DigestOf, NoPending, NothingStored, Decrypts, FreshIds, MayHold;
  }

  lemma SelectKeepsKeys(s: State, a: Action)
    requires SelectAction(a) && SelectEnabled(s, a)
    ensures KeyFileIntact(ApplySelect(s, a))
  {
    hide Known, DigestOf, NoPending, NothingStored, Decrypts, OpCurrent, CandidateKey;
  }

  lemma KeyFileStep(s: State, a: Action)
    requires KeyFileIntact(s) && Enabled(s, a) && !a.DamageKeyFile?
    ensures KeyFileIntact(Apply(s, a))
  {
    hide StageEnabled, ReceiptEnabled, ReferenceEnabled, JournalEnabled, SelectEnabled,
      ApplyStage, ApplyReceipt, ApplyJournal, ApplySelect;
    if StageAction(a) { StageKeepsKeys(s, a); }
    else if ReceiptAction(a) { ReceiptKeepsKeys(s, a); }
    else if ReferenceAction(a) { assert Apply(s, a).sel == s.sel && Apply(s, a).keyFiles == s.keyFiles; }
    else if JournalAction(a) { JournalKeepsKeys(s, a); }
    else { SelectKeepsKeys(s, a); }
  }

  lemma {:induction false} KeyFileKept(s: State, actions: seq<Action>, s': State)
    requires KeyFileIntact(s) && Steps(s, actions, s')
    requires forall i :: 0 <= i < |actions| ==> !actions[i].DamageKeyFile?
    ensures KeyFileIntact(s')
    decreases |actions|
  {
    hide KeyFileIntact, Enabled, Apply;
    if actions != [] {
      KeyFileStep(s, actions[0]);
      KeyFileKept(Apply(s, actions[0]), actions[1..], s');
    }
  }

  /** As long as nothing outside damages a key file, a selected store without a pending operation opens iff intact. */
  lemma UndamagedOpensExactly(s0: State, actions: seq<Action>, s: State)
    requires Init(s0) && AlwaysSafe(s0) && Steps(s0, actions, s)
    requires forall i :: 0 <= i < |actions| ==> !actions[i].DamageKeyFile?
    ensures Opens(s) <==> Selected(s) && Intact(s) && NoPending(s)
  {
    assert KeyFileIntact(s0);
    hide Steps, Opens, Intact, NoPending, AlwaysSafe, Init;
    KeyFileKept(s0, actions, s);
    OpensExactly(s0, actions, s);
  }

  // ----- Which actions break it -----

  predicate Named(s: State, t: Token) { exists r :: r in s.refs && s.refs[r].token == t }

  /** A receipt without its payload, or a leftover file. */
  predicate LosesPayload(s: State, a: Action) {
    || a.ReserveReceipt? || a.WriteTemp?
    || (a.UnlinkThenCrash? && a.t in s.receipts && Live(s.receipts[a.t].state))
    || (a.DeleteReceipt? && !a.unlinked && a.t !in s.payloads)
  }

  /** A reference to a receipt that is not active, or a referenced receipt that stops being so. */
  predicate SpoilsReference(s: State, a: Action) {
    || a.SetConfig?
    || (a.PutGrant? && a.t in s.receipts && s.receipts[a.t].state != Active)
    || ((a.DeleteReceipt? || a.MarkOrphan?) && Named(s, a.t))
  }

  predicate Breaks(s: State, a: Action) { LosesPayload(s, a) || SpoilsReference(s, a) }

  lemma StageBreaks(s: State, a: Action)
    requires ReceiptInv(s) && Intact(s) && StageAction(a) && StageEnabled(s, a)
    ensures Intact(ApplyStage(s, a)) <==> !Breaks(s, a)
  {
    hide NoPending, Ready;
    var s' := ApplyStage(s, a);
    if a.ReserveReceipt? { assert a.t in s'.receipts && a.t !in s'.payloads; }
    if a.WriteTemp? { assert a.t in s'.temps; }
    if a.PlacePayload? || a.DropStage? { assert s'.temps == {}; }
  }

  lemma ReceiptBreaks(s: State, a: Action)
    requires Intact(s) && ReceiptAction(a) && ReceiptEnabled(s, a)
    ensures Intact(ApplyReceipt(s, a)) <==> !Breaks(s, a)
  {
    ReceiptWhole(s, a);
    ReceiptReferences(s, a);
  }

  lemma ReceiptWhole(s: State, a: Action)
    requires Intact(s) && ReceiptAction(a) && ReceiptEnabled(s, a)
    ensures Whole(ApplyReceipt(s, a)) <==> !LosesPayload(s, a)
  {
    hide NoPending, Referenced;
    assert a.t in s.receipts;
  }

  lemma ReceiptReferences(s: State, a: Action)
    requires Intact(s) && ReceiptAction(a) && ReceiptEnabled(s, a)
    ensures Referenced(ApplyReceipt(s, a)) <==> !SpoilsReference(s, a)
  {
    hide NoPending, Whole;
    var s' := ApplyReceipt(s, a);
    assert a.t in s.receipts;
    if (a.DeleteReceipt? || a.MarkOrphan?) && Named(s, a.t) {
      var r :| r in s.refs && s.refs[r].token == a.t;
      assert r in s'.refs && s'.receipts[a.t].state != Active;
    }
  }

  lemma ReferenceBreaks(s: State, a: Action)
    requires Intact(s) && ReferenceAction(a) && ReferenceEnabled(s, a)
    ensures Intact(ApplyReference(s, a)) <==> !Breaks(s, a)
  {
    hide NoPending;
    var s' := ApplyReference(s, a);
    if a.SetConfig? || a.PutGrant? { assert a.r in s'.refs && s'.refs[a.r].token == a.t; }
  }

  lemma JournalKeepsIntact(s: State, a: Action)
    requires Intact(s) && JournalAction(a) && JournalEnabled(s, a)
    ensures Intact(ApplyJournal(s, a))
  {
    hide Known, DigestOf, NoPending, NothingStored, OpCurrent, Decrypts, FreshIds, Intact, MayHold;
    SameStore(s, ApplyJournal(s, a));
  }

  lemma SameStore(s: State, s': State)
    requires s'.receipts == s.receipts && s'.payloads == s.payloads && s'.temps == s.temps && s'.refs == s.refs
    ensures Intact(s') <==> Intact(s)
  {}

  lemma SelectKeepsIntact(s: State, a: Action)
    requires Intact(s) && SelectAction(a) && SelectEnabled(s, a)
    ensures Intact(ApplySelect(s, a))
  {
    hide Known, DigestOf, NoPending, NothingStored, OpCurrent, Decrypts, CandidateKey;
  }

  /** Exactly these actions turn a store that would open after a stop into one that would not. */
  lemma BreaksExactly(s: State, a: Action)
    requires Reachable(s) && Intact(s) && Enabled(s, a)
    ensures Intact(Apply(s, a)) <==> !Breaks(s, a)
  {
    hide Intact, StageEnabled, ReceiptEnabled, ReferenceEnabled, JournalEnabled, SelectEnabled,
      ApplyStage, ApplyReceipt, ApplyReference, ApplyJournal, ApplySelect, JournalInv, PendingInv, ReceiptInv, SelectorInv;
    if StageAction(a) { StageBreaks(s, a); }
    else if ReceiptAction(a) { ReceiptBreaks(s, a); }
    else if ReferenceAction(a) { ReferenceBreaks(s, a); }
    else if JournalAction(a) { JournalKeepsIntact(s, a); }
    else { SelectKeepsIntact(s, a); }
  }

  /** The steps of a stage call by `p`, from its reservation to its payload in place. */
  ghost predicate Staging(s: State, p: Proc, t: Token, reserved: State, sealed: State, written: State, placed: State) {
    && Enabled(s, ReserveReceipt(p, t)) && reserved == Apply(s, ReserveReceipt(p, t))
    && Enabled(reserved, SealPayload(t)) && sealed == Apply(reserved, SealPayload(t))
    && Enabled(sealed, WriteTemp(t)) && written == Apply(sealed, WriteTemp(t))
    && Enabled(written, PlacePayload(t)) && placed == Apply(written, PlacePayload(t))
  }

  /** A stage call that starts in an intact store strands it, if stopped, exactly between these steps. */
  lemma StageCrashPoints(s: State, p: Proc, t: Token, reserved: State, sealed: State, written: State, placed: State)
    requires Intact(s) && Staging(s, p, t, reserved, sealed, written, placed)
    ensures !Whole(reserved) && !Whole(sealed) && !Whole(written) && Intact(placed)
  {
    hide StoreOpen;
    assert t in reserved.receipts && t !in reserved.payloads && t !in sealed.payloads && t in written.temps;
    assert placed.temps == {};
    PlacedIsIntact(s, t, placed);
  }

  lemma PlacedIsIntact(s: State, t: Token, placed: State)
    requires Intact(s) && t !in s.receipts && placed.temps == {} && t in placed.payloads && t in placed.receipts
    requires placed.payloads.Keys == s.payloads.Keys + {t} && placed.receipts.Keys == s.receipts.Keys + {t}
    requires placed.refs == s.refs
    requires forall u :: u in s.receipts ==> placed.receipts[u] == s.receipts[u]
    ensures Intact(placed)
  {}

  /** The two transactions that put a secret into a configuration field. */
  ghost predicate Configuring(s: State, p: Proc, r: RefId, t: Token, committed: State, finalized: State) {
    && Enabled(s, SetConfig(p, r, t)) && committed == Apply(s, SetConfig(p, r, t))
    && Enabled(committed, ActivateReceipt(p, t)) && finalized == Apply(committed, ActivateReceipt(p, t))
  }

  /** A stop between committing the field and finalizing its receipt leaves an unknown inventory with nothing missing. */
  lemma ConfigCrashPoint(s: State, p: Proc, r: RefId, t: Token, committed: State, finalized: State)
    requires Reachable(s) && Intact(s) && Configuring(s, p, r, t, committed, finalized)
    ensures Whole(committed) && !Referenced(committed) && Intact(finalized)
  {
    hide StoreOpen, JournalInv, PendingInv;
    assert committed.refs[r].token == t;
  }

  // ----- What cannot be repaired -----

  ghost predicate NobodyOpen(s: State) { forall p :: !StoreOpen(s, p) }

  /** A leftover no call owns any more, or a missing payload nobody can write off. */
  ghost predicate Wedged(s: State, t: Token) {
    && t !in s.frames
    && (|| t in s.temps
        || (t in s.payloads && t !in s.receipts)
        || (&& NoPending(s) && NobodyOpen(s)
            && t in s.receipts && Live(s.receipts[t].state) && t !in s.payloads))
  }

  lemma WedgedIsUnknown(s: State, t: Token)
    requires Wedged(s, t)
    ensures !Known(s)
  {
    if t in s.receipts && t !in s.temps { assert RetiredReceipt(s, t) || LiveToken(s, t); }
  }

  lemma WedgedStage(s: State, a: Action, t: Token)
    requires Wedged(s, t) && !Known(s) && StageAction(a) && StageEnabled(s, a)
    ensures Wedged(ApplyStage(s, a), t)
  {
    hide Known, Decrypts;
    var s' := ApplyStage(s, a);
    SameOps(s, s');
    hide NoPending;
    assert forall p :: StoreOpen(s', p) ==> StoreOpen(s, p);
  }

  lemma WedgedReceipt(s: State, a: Action, t: Token)
    requires Wedged(s, t) && ReceiptAction(a) && ReceiptEnabled(s, a)
    ensures Wedged(ApplyReceipt(s, a), t)
  {
    var s' := ApplyReceipt(s, a);
    SameOps(s, s');
    hide NoPending;
    if a.MarkConflict? {
      ReceiptShape(s, a);
    } else {
      assert StoreOpen(s, if a.FinalizeStage? then s.frames[a.t].proc else a.p);
    }
    assert forall p :: StoreOpen(s', p) ==> StoreOpen(s, p);
  }

  lemma WedgedReference(s: State, a: Action, t: Token)
    requires Wedged(s, t) && ReferenceAction(a) && ReferenceEnabled(s, a)
    ensures Wedged(ApplyReference(s, a), t)
  {
    var s' := ApplyReference(s, a);
    assert NoPending(s) ==> s'.ops == s.ops;
    if NoPending(s) { SameOps(s, s'); }
    hide NoPending;
    assert NoPending(s) ==> forall p :: StoreOpen(s', p) ==> StoreOpen(s, p);
  }

  lemma ManagerStopsWhileUnknown(s: State, a: Action)
    requires !Known(s) && (JournalAction(a) || SelectAction(a)) && Enabled(s, a)
    ensures a.DamageKeyFile?
  {
    hide Known, DigestOf, Decrypts, NothingStored, FreshIds, CandidateKey, NoPending, MayHold;
  }

  lemma WedgedManager(s: State, k: KeyId, t: Token)
    requires Wedged(s, t) && Enabled(s, DamageKeyFile(k))
    ensures Wedged(Apply(s, DamageKeyFile(k)), t)
  {
    var s' := Apply(s, DamageKeyFile(k));
    SameOps(s, s');
    hide NoPending;
    assert forall p :: StoreOpen(s', p) ==> StoreOpen(s, p);
  }

  lemma WedgedStep(s: State, a: Action, t: Token)
    requires Wedged(s, t) && Enabled(s, a)
    ensures Wedged(Apply(s, a), t)
  {
    hide Wedged, Known, StageEnabled, ReceiptEnabled, ReferenceEnabled, JournalEnabled, SelectEnabled,
      ApplyStage, ApplyReceipt, ApplyReference, ApplyJournal, ApplySelect;
    WedgedIsUnknown(s, t);
    if StageAction(a) { WedgedStage(s, a, t); }
    else if ReceiptAction(a) { WedgedReceipt(s, a, t); }
    else if ReferenceAction(a) { WedgedReference(s, a, t); }
    else { ManagerStopsWhileUnknown(s, a); WedgedManager(s, a.k, t); }
  }

  /** From then on, whatever runs, the manager reports an unknown inventory and never gets ready. */
  lemma {:induction false} WedgedForever(s: State, actions: seq<Action>, s': State, t: Token)
    requires Wedged(s, t) && Steps(s, actions, s')
    ensures Wedged(s', t) && !Known(s') && forall env :: !Ready(s', env)
    decreases |actions|
  {
    hide Known, Wedged, Enabled, Apply;
    WedgedIsUnknown(s, t);
    if actions != [] {
      WedgedStep(s, actions[0], t);
      WedgedForever(Apply(s, actions[0]), actions[1..], s', t);
    }
  }

  // ----- What can be repaired -----

  ghost predicate CanBecomeKnown(s: State) { exists actions, s' :: Steps(s, actions, s') && Known(s') }

  function Missing(s: State): set<Token> {
    set t | t in s.receipts && Live(s.receipts[t].state) && t !in s.payloads
  }

  /** Writing off one receipt without a payload. */
  lemma WriteOff(s: State, p: Proc, t: Token)
    requires ReceiptInv(s) && StoreOpen(s, p) && Swept(s) && t in Missing(s)
    ensures Enabled(s, DeleteReceipt(p, t, true))
    ensures var s' := Apply(s, DeleteReceipt(p, t, true));
      StoreOpen(s', p) && Swept(s') && Missing(s') == Missing(s) - {t}
  {
    var s' := Apply(s, DeleteReceipt(p, t, true));
    SameOps(s, s');
    hide NoPending;
    assert s'.payloads == s.payloads;
  }

  /** A process that holds the selection can write off every missing payload. */
  lemma {:induction false} Repair(s: State, p: Proc) returns (actions: seq<Action>, s': State)
    requires Reachable(s) && StoreOpen(s, p) && Swept(s)
    ensures Steps(s, actions, s') && Reachable(s') && Whole(s') && NoPending(s')
    decreases |Missing(s)|
  {
    hide Reachable, Swept, Missing, Enabled, Apply, NoPending;
    if Missing(s) == {} {
      actions, s' := [], s;
      NothingMissing(s);
    } else {
      var t := Someone(Missing(s));
      assert ReceiptInv(s) by { ReachableReceipts(s); }
      WriteOff(s, p, t);
      var a := DeleteReceipt(p, t, true);
      var next := Apply(s, a);
      OneStep(s, a);
      ReachableHolds(s, [a], next);
      var rest;
      rest, s' := Repair(next, p);
      StepsAppend(s, [a], next, rest, s');
      actions := [a] + rest;
    }
  }

  lemma ReachableReceipts(s: State)
    requires Reachable(s)
    ensures ReceiptInv(s)
  {
    hide ReceiptInv;
  }

  lemma NothingMissing(s: State)
    requires Missing(s) == {} && Swept(s)
    ensures Whole(s)
  {
    forall t | t in s.receipts && Live(s.receipts[t].state) ensures t in s.payloads {
      assert t !in Missing(s);
    }
  }

  /** A whole store without a pending operation becomes known by clearing its references. */
  lemma ClearToKnown(s: State) returns (actions: seq<Action>)
    requires Reachable(s) && Whole(s) && NoPending(s)
    ensures Steps(s, actions, Cleared(s)) && Reachable(Cleared(s)) && Intact(Cleared(s)) && NoPending(Cleared(s)) && Known(Cleared(s))
  {
    actions := ClearAll(s);
    var c := Cleared(s);
    assert Whole(c) && Referenced(c);
    SameOps(s, c);
    hide Reachable, Known, Intact, Steps, Cleared;
    ReachableHolds(s, actions, c);
    KnownIffIntact(c);
  }

  lemma UnsweptIsWedged(s: State) returns (t: Token)
    requires !Swept(s) && s.frames == map[]
    ensures Wedged(s, t)
  {
    if s.temps != {} { t := Someone(s.temps); } else { t :| t in s.payloads && t !in s.receipts; }
  }

  lemma WholeBecomesKnown(s: State)
    requires Reachable(s) && Whole(s)
    ensures CanBecomeKnown(s)
  {
    if Referenced(s) {
      KnownIffIntact(s);
      hide Reachable, Known;
      assert Steps(s, [], s);
    } else {
      assert NoPending(s);
      hide Reachable, Steps, Known, Whole;
      var clearing := ClearToKnown(s);
    }
  }

  lemma OpenBecomesKnown(s: State, p: Proc)
    requires Reachable(s) && Swept(s) && StoreOpen(s, p)
    ensures CanBecomeKnown(s)
  {
    hide Reachable, Steps, Known, Whole, NoPending;
    var repair, mid := Repair(s, p);
    var clearing := ClearToKnown(mid);
    StepsAppend(s, repair, mid, clearing, Cleared(mid));
  }

  lemma MissingIsWedged(s: State) returns (t: Token)
    requires Reachable(s) && Swept(s) && !Backed(s) && NobodyOpen(s) && s.frames == map[]
    ensures Wedged(s, t)
  {
    t :| t in s.receipts && Live(s.receipts[t].state) && t !in s.payloads;
  }

  /** With no stage call in flight: the inventory can ever become known again iff nothing is left over
      and either nothing is missing or a process still holds the selection. */
  lemma RepairableExactly(s0: State, actions: seq<Action>, s: State)
    requires Init(s0) && Steps(s0, actions, s) && s.frames == map[]
    ensures CanBecomeKnown(s) <==> Swept(s) && (Backed(s) || !NobodyOpen(s))
  {
    hide Reachable, Steps, Known, Init, CanBecomeKnown, Swept, Backed, Wedged;
    InitIsReachable(s0);
    ReachableHolds(s0, actions, s);
    if Swept(s) && Backed(s) {
      WholeBecomesKnown(s);
    } else if Swept(s) && !NobodyOpen(s) {
      var p :| StoreOpen(s, p);
      OpenBecomesKnown(s, p);
    } else {
      var t: Token;
      if !Swept(s) { t := UnsweptIsWedged(s); } else { t := MissingIsWedged(s); }
      NeverKnown(s, t);
    }
  }

  lemma NeverKnown(s: State, t: Token)
    requires Wedged(s, t)
    ensures !CanBecomeKnown(s)
  {
    hide Wedged, Known, Steps;
    forall later, s' | Steps(s, later, s') ensures !Known(s') { WedgedForever(s, later, s', t); }
  }

  /** Once every process has stopped, the inventory can ever become known again iff the store was left whole. */
  lemma StoppedStoreExactly(s0: State, actions: seq<Action>, s: State)
    requires Init(s0) && Steps(s0, actions, s) && s.frames == map[] && s.caches == map[]
    ensures CanBecomeKnown(s) <==> Whole(s)
  {
    hide Steps, Init, CanBecomeKnown, Swept, Backed;
    RepairableExactly(s0, actions, s);
  }

  /** Any open store is one reservation, or one unlink, and one crash away from never opening again. */
  lemma OpenStoreCanWedge(s: State, p: Proc, t: Token, a: Action)
    requires StoreOpen(s, p) && s.caches.Keys == {p} && s.frames == map[] && Enabled(s, a)
    requires a == ReserveReceipt(p, t) || (a == UnlinkThenCrash(p, t) && Live(s.receipts[t].state))
    ensures exists s' :: Steps(s, [a, Restart(p)], s') && Wedged(s', t)
  {
    var next := Apply(s, a);
    var s' := Apply(next, Restart(p));
    SameOps(s, s');
    assert s'.caches == map[];
    assert Wedged(s', t);
    hide Steps, Apply;
    OneStep(s, a);
    OneStep(next, Restart(p));
    StepsAppend(s, [a], next, [Restart(p)], s');
    assert [a] + [Restart(p)] == [a, Restart(p)];
  }
}
