/**
 What every reachable state of the key ledger keeps: live receipts carry the current generation,
 live payloads are sealed under the selected key, and every key file is accounted for once.
 */
module KeySafety {
  import opened Common
  import opened KeyLedger

  predicate Selected(s: State) { s.sel.source != Unselected }

  /** The promise: `_decrypt_all` under the selected key never rejects the store's own data. */
  predicate Safe(s: State) {
    Selected(s) ==>
      && s.sel.check.Some?
      && (forall t :: t in s.receipts && Live(s.receipts[t].state) ==> s.receipts[t].gen == s.sel.gen)
      && Decrypts(s, s.sel.check.value)
  }

  // ----- Selector row -----

  predicate SelectorInv(s: State) {
    && (Selected(s) <==> s.sel.check.Some?)
    && (Selected(s) <==> s.sel.gen >= 1)
    && (s.sel.keyId.Some? <==> s.sel.source == Managed)
  }

  lemma StageKeepsSelector(s: State, a: Action)
    requires StageAction(a) && StageEnabled(s, a)
    ensures ApplyStage(s, a).sel == s.sel
  {
    hide StoreOpen, Ready;
  }

  lemma ReceiptKeepsSelector(s: State, a: Action)
    requires ReceiptAction(a) && ReceiptEnabled(s, a)
    ensures ApplyReceipt(s, a).sel == s.sel
  {
    hide ReceiptEnabled, ApplyReceipt;
    ReceiptShape(s, a);
  }

  lemma ReferenceKeepsSelector(s: State, a: Action)
    requires ReferenceAction(a) && ReferenceEnabled(s, a)
    ensures ApplyReference(s, a).sel == s.sel
  {
    hide StoreOpen, NoPending;
  }

  lemma JournalKeepsSelector(s: State, a: Action)
    requires JournalAction(a) && JournalEnabled(s, a)
    ensures ApplyJournal(s, a).sel == s.sel
  {
    hide Known, DigestOf, Decrypts, NoPending, NothingStored, OpCurrent, FreshIds;
  }

  lemma SelectMovesSelector(s: State, a: Action)
    requires SelectorInv(s) && SelectAction(a) && SelectEnabled(s, a)
    ensures SelectorInv(ApplySelect(s, a)) && Selected(ApplySelect(s, a))
    ensures s.sel.gen <= ApplySelect(s, a).sel.gen && s.sel.rev < ApplySelect(s, a).sel.rev
  {
    hide Known, DigestOf, Decrypts, NoPending, NothingStored, OpCurrent, CandidateKey;
  }

  lemma SelectorStep(s: State, a: Action)
    requires SelectorInv(s) && Enabled(s, a)
    ensures SelectorInv(Apply(s, a))
    ensures Selected(s) ==> Selected(Apply(s, a))
    ensures s.sel.gen <= Apply(s, a).sel.gen && s.sel.rev <= Apply(s, a).sel.rev
    ensures if SelectAction(a) then s.sel.rev < Apply(s, a).sel.rev else Apply(s, a).sel == s.sel
  {
    hide SelectorInv, StageEnabled, ReceiptEnabled, ReferenceEnabled, JournalEnabled, SelectEnabled,
      ApplyStage, ApplyReceipt, ApplyReference, ApplyJournal, ApplySelect;
    if StageAction(a) { StageKeepsSelector(s, a); }
    else if ReceiptAction(a) { ReceiptKeepsSelector(s, a); }
    else if ReferenceAction(a) { ReferenceKeepsSelector(s, a); }
    else if JournalAction(a) { JournalKeepsSelector(s, a); }
    else { SelectMovesSelector(s, a); }
    if !SelectAction(a) { SameSelector(s, Apply(s, a)); }
  }

  lemma SameSelector(s: State, s': State)
    requires s'.sel == s.sel
    ensures SelectorInv(s') <==> SelectorInv(s)
  {}

  // ----- Ledger -----

  /**
   No tombstoned receipt of a legacy store has left a payload that some key fitting all the live
   payloads would fail to open. Deletion normally unlinks before it tombstones.
   */
  ghost predicate LegacyClean(s: State) {
    forall t, key :: t in s.payloads && t in s.receipts && Decrypts(s, key) ==> s.payloads[t] == key
  }

  predicate SealedRight(s: State, t: Token, key: Key) {
    t in s.receipts && s.receipts[t].gen == s.sel.gen ==> s.sel.check == Some(key)
  }

  ghost predicate LedgerInv(s: State) {
    && (forall t :: t in s.receipts ==> s.receipts[t].gen <= s.sel.gen)
    && (Selected(s) ==>
          && (forall t :: t in s.receipts && s.receipts[t].gen < s.sel.gen ==> s.receipts[t].state == Tombstoned)
          && (forall t :: t in s.payloads ==> SealedRight(s, t, s.payloads[t])))
    && (!Selected(s) ==> s.frames == map[] && LegacyClean(s))
    && (forall t :: t in s.frames ==> t in s.receipts)
    && (forall t :: t in s.frames && s.frames[t].phase.Sealed? ==> SealedRight(s, t, s.frames[t].phase.key))
    && (forall t :: t in s.frames && s.frames[t].phase.Written? ==> SealedRight(s, t, s.frames[t].phase.key))
    && (forall c :: c in s.restores ==>
          c.rev <= s.sel.rev && (Selected(s) && c.rev == s.sel.rev ==> s.sel.check == Some(c.key)))
  }

  /** While nothing is selected the store may only turn live receipts into conflicts. */
  lemma LegacyKept(s: State, s': State)
    requires LegacyClean(s) && s'.payloads == s.payloads && s'.receipts.Keys == s.receipts.Keys
    requires forall t :: t in s.receipts && LiveToken(s, t) ==> LiveToken(s', t)
    ensures LegacyClean(s')
  {
    forall t, key | t in s'.payloads && t in s'.receipts && Decrypts(s', key) ensures s'.payloads[t] == key {
      assert Decrypts(s, key);
    }
  }

  predicate Submap<K, V(==)>(small: map<K, V>, big: map<K, V>) {
    forall k :: k in small ==> k in big && small[k] == big[k]
  }

  /** One receipt of the current generation changes state; files and calls may only go away. */
  lemma OneReceiptChanges(s: State, s': State, t: Token, state: ReceiptState)
    requires LedgerInv(s) && s'.sel == s.sel && s'.restores == s.restores
    requires t in s.receipts && s'.receipts == WithState(s, t, state)
    requires Selected(s) ==> s.receipts[t].gen == s.sel.gen
    requires Submap(s'.payloads, s.payloads) && Submap(s'.frames, s.frames)
    requires !Selected(s) ==> LegacyClean(s')
    ensures LedgerInv(s')
  {
    hide LegacyClean;
  }

  /** Nothing of the ledger changes but which calls are in flight. */
  lemma CallsShrink(s: State, s': State)
    requires LedgerInv(s) && s'.sel == s.sel && s'.restores == s.restores
    requires s'.receipts == s.receipts && s'.payloads == s.payloads && Submap(s'.frames, s.frames)
    requires !Selected(s) ==> LegacyClean(s')
    ensures LedgerInv(s')
  {
    hide LegacyClean;
  }

  /** One stage call advances; the payload it may place is sealed under the right key. */
  lemma CallAdvances(s: State, s': State, t: Token, frame: Frame)
    requires LedgerInv(s) && Selected(s) && s'.sel == s.sel && s'.restores == s.restores
    requires s'.receipts == s.receipts && t in s.receipts && s'.frames == s.frames[t := frame]
    requires frame.phase.Sealed? || frame.phase.Written? ==> SealedRight(s, t, frame.phase.key)
    requires s'.payloads == s.payloads || exists key :: SealedRight(s, t, key) && s'.payloads == s.payloads[t := key]
    ensures LedgerInv(s')
  {
    hide LegacyClean;
  }

  lemma ReservationKeeps(s: State, p: Proc, t: Token)
    requires LedgerInv(s) && Selected(s) && Enabled(s, ReserveReceipt(p, t))
    ensures LedgerInv(ApplyStage(s, ReserveReceipt(p, t)))
  {
    hide LegacyClean, NoPending;
  }

  /** What a step on one receipt can do; only a conflict mark works without the selection. */
  lemma ReceiptFrame(s: State, a: Action)
    requires ReceiptAction(a) && ReceiptEnabled(s, a)
    ensures ApplyReceipt(s, a) == s.(receipts := ApplyReceipt(s, a).receipts, payloads := ApplyReceipt(s, a).payloads,
                                     frames := ApplyReceipt(s, a).frames)
  {
    hide StoreOpen;
  }

  lemma ReceiptSource(s: State, a: Action)
    requires ReceiptAction(a) && ReceiptEnabled(s, a)
    ensures a.t in s.receipts
    ensures a.MarkConflict? ==> Live(s.receipts[a.t].state)
    ensures !a.MarkConflict? ==> Selected(s) && s.receipts[a.t].gen == s.sel.gen
  {
    hide NoPending;
  }

  lemma ReceiptTarget(s: State, a: Action)
    requires ReceiptAction(a) && ReceiptEnabled(s, a) && a.t in s.receipts
    ensures var s' := ApplyReceipt(s, a);
      && a.t in s'.receipts && s'.receipts == WithState(s, a.t, s'.receipts[a.t].state)
      && Submap(s'.payloads, s.payloads) && Submap(s'.frames, s.frames)
      && (a.MarkConflict? ==> Live(s'.receipts[a.t].state) && s'.payloads == s.payloads)
  {
    hide StoreOpen;
    if a.UnlinkThenCrash? { assert s.receipts == WithState(s, a.t, s.receipts[a.t].state); }
  }

  lemma ReceiptShape(s: State, a: Action)
    requires ReceiptAction(a) && ReceiptEnabled(s, a)
    ensures a.t in s.receipts && var s' := ApplyReceipt(s, a);
      && s'.sel == s.sel && s'.restores == s.restores && s'.ops == s.ops && a.t in s'.receipts
      && s'.retired == s.retired && s'.keyFiles == s.keyFiles && s'.caches == s.caches && s'.temps == s.temps && s'.refs == s.refs
      && s'.receipts == WithState(s, a.t, s'.receipts[a.t].state)
      && Submap(s'.payloads, s.payloads) && Submap(s'.frames, s.frames)
      && (a.MarkConflict? ==> Live(s.receipts[a.t].state) && Live(s'.receipts[a.t].state) && s'.payloads == s.payloads)
      && (!a.MarkConflict? ==> Selected(s) && s.receipts[a.t].gen == s.sel.gen)
  {
    hide ReceiptEnabled, ApplyReceipt;
    ReceiptSource(s, a);
    ReceiptFrame(s, a);
    ReceiptTarget(s, a);
  }

  lemma LiveIsCurrent(s: State, t: Token)
    requires LedgerInv(s) && Selected(s) && t in s.receipts && Live(s.receipts[t].state)
    ensures s.receipts[t].gen == s.sel.gen
  {
    hide LegacyClean, SealedRight;
  }

  lemma LedgerReceiptStep(s: State, a: Action)
    requires SelectorInv(s) && LedgerInv(s) && ReceiptAction(a) && ReceiptEnabled(s, a)
    ensures LedgerInv(ApplyReceipt(s, a))
  {
    hide ReceiptEnabled, ApplyReceipt, LedgerInv, LegacyClean;
    var s' := ApplyReceipt(s, a);
    ReceiptShape(s, a);
    if !Selected(s) {
      LedgerIsClean(s);
      SameResets(s, s');
      LegacyKept(s, s');
    } else if a.MarkConflict? {
      LiveIsCurrent(s, a.t);
    }
    OneReceiptChanges(s, s', a.t, s'.receipts[a.t].state);
  }

  lemma SameResets(s: State, s': State)
    requires s'.ops == s.ops
    ensures ResetSeen(s') == ResetSeen(s)
  {}

  /** A call past its reservation: its receipt exists and what it sealed is sealed right. */
  lemma FrameFacts(s: State, t: Token)
    requires SelectorInv(s) && LedgerInv(s) && t in s.frames
    ensures Selected(s) && t in s.receipts
    ensures s.frames[t].phase.Sealed? || s.frames[t].phase.Written? ==> SealedRight(s, t, s.frames[t].phase.key)
  {
    hide LegacyClean, SealedRight;
  }

  lemma LedgerStageStep(s: State, a: Action)
    requires SelectorInv(s) && LedgerInv(s) && StageAction(a) && StageEnabled(s, a)
    ensures LedgerInv(ApplyStage(s, a))
  {
    hide NoPending, Ready, LegacyClean, LedgerInv;
    var s' := ApplyStage(s, a);
    if a.ReserveReceipt? {
      ReservationKeeps(s, a.p, a.t);
    } else if a.SealPayload? || a.WriteTemp? || a.PlacePayload? {
      FrameFacts(s, a.t);
      CallAdvances(s, s', a.t, s'.frames[a.t]);
    } else {
      if !Selected(s) {
        LedgerIsClean(s);
        SameResets(s, s');
        LegacyKept(s, s');
      }
      CallsShrink(s, s');
    }
  }

  /** Nothing of the ledger changes but a restore call that just matched the selector row. */
  lemma ValidatedCallsGrow(s: State, s': State, key: Key)
    requires LedgerInv(s) && s'.sel == s.sel && s'.receipts == s.receipts && s'.payloads == s.payloads
    requires s'.frames == s.frames && s'.restores <= s.restores + {RestoreCall(key, s.sel.gen, s.sel.rev)}
    requires s'.restores == s.restores || !Selected(s) || s.sel.check == Some(key)
    requires !Selected(s) ==> LegacyClean(s')
    ensures LedgerInv(s')
  {
    hide LegacyClean;
  }

  lemma LedgerJournalStep(s: State, a: Action)
    requires SelectorInv(s) && LedgerInv(s) && JournalAction(a) && JournalEnabled(s, a)
    ensures LedgerInv(ApplyJournal(s, a))
  {
    hide Known, DigestOf, NoPending, NothingStored, OpCurrent, LegacyClean, LedgerInv;
    if !Selected(s) { LegacyJournalStep(s, a); }
    var key := if a.BeginRestore? || a.ResumeRestore? then a.key else 0;
    ValidatedCallsGrow(s, ApplyJournal(s, a), key);
  }

  lemma LegacyJournalStep(s: State, a: Action)
    requires SelectorInv(s) && LedgerInv(s) && JournalAction(a) && JournalEnabled(s, a) && !Selected(s)
    ensures LegacyClean(ApplyJournal(s, a))
  {
    hide Known, DigestOf, NoPending, NothingStored, OpCurrent, LegacyClean, Decrypts;
    LegacyKept(s, ApplyJournal(s, a));
  }

  /** The same key under the same generation, in another place. */
  lemma SameKeySelected(s: State, s': State)
    requires SelectorInv(s) && LedgerInv(s) && Selected(s) && Selected(s')
    requires s'.sel.gen == s.sel.gen && s'.sel.rev == s.sel.rev + 1 && s'.sel.check == s.sel.check
    requires s'.receipts == s.receipts && s'.payloads == s.payloads && s'.frames == s.frames && s'.restores == s.restores
    ensures LedgerInv(s')
  {
    hide LegacyClean;
  }

  /** A first key that opens every live payload; all receipts move to generation 1. */
  lemma FirstKeySelected(s: State, s': State, key: Key)
    requires SelectorInv(s) && LedgerInv(s) && !Selected(s) && Selected(s') && Decrypts(s, key)
    requires s'.sel.gen == 1 && s'.sel.rev == s.sel.rev + 1 && s'.sel.check == Some(key)
    requires s'.receipts == map t | t in s.receipts :: s.receipts[t].(gen := 1)
    requires s'.payloads == s.payloads && s'.frames == s.frames && s'.restores == s.restores
    ensures LedgerInv(s')
  {
    hide Decrypts;
  }

  /** A new generation over receipts that are all tombstoned. */
  lemma NewGeneration(s: State, s': State)
    requires LedgerInv(s) && Selected(s') && s'.sel.gen == s.sel.gen + 1 && s'.sel.rev == s.sel.rev + 1
    requires s'.receipts.Keys == s.receipts.Keys
    requires forall t :: t in s.receipts ==> s'.receipts[t] == s.receipts[t].(state := Tombstoned)
    requires s'.payloads == s.payloads && s'.frames == s.frames && s'.restores == s.restores
    ensures LedgerInv(s')
  {
    hide LegacyClean;
  }

  lemma NothingStoredIsTombstoned(s: State, t: Token)
    requires LedgerInv(s) && s.sel.gen == 0 && NothingStored(s) && t in s.receipts
    ensures s.receipts[t].state == Tombstoned
  {
    hide LegacyClean;
    assert !LiveToken(s, t);
  }

  lemma LedgerRestoreStep(s: State, a: Action)
    requires SelectorInv(s) && LedgerInv(s) && Enabled(s, a) && (a.RestoreEnvironment? || a.CommitRestore?)
    ensures LedgerInv(ApplySelect(s, a))
  {
    hide Known, DigestOf, NoPending, OpCurrent, LedgerInv, Decrypts, CandidateKey;
    var s' := ApplySelect(s, a);
    var key := if a.RestoreEnvironment? then a.key else a.call.key;
    if Selected(s) && a.CommitRestore? { RestoreCallMatches(s, a.call); }
    if Selected(s) { SameKeySelected(s, s'); } else { FirstKeySelected(s, s', key); }
  }

  lemma LedgerFreshStep(s: State, a: Action)
    requires SelectorInv(s) && LedgerInv(s) && (a.CommitInitialize? || a.CommitReset?) && SelectEnabled(s, a)
    ensures LedgerInv(ApplySelect(s, a))
  {
    hide Known, DigestOf, NoPending, OpCurrent, LedgerInv, Decrypts, NothingStored, CandidateKey;
    if a.CommitInitialize? {
      forall t | t in s.receipts ensures s.receipts[t].state == Tombstoned { NothingStoredIsTombstoned(s, t); }
    }
    NewGeneration(s, ApplySelect(s, a));
  }

  lemma LedgerSelectStep(s: State, a: Action)
    requires SelectorInv(s) && LedgerInv(s) && SelectAction(a) && SelectEnabled(s, a)
    ensures LedgerInv(ApplySelect(s, a))
  {
    hide Known, DigestOf, NoPending, OpCurrent, LedgerInv, Decrypts, NothingStored, CandidateKey;
    var s' := ApplySelect(s, a);
    match a
    case SelectEnvironment(key) => FirstKeySelected(s, s', key);
    case CommitInitialize(o, key) => LedgerFreshStep(s, a);
    case CommitReset(o, key) => LedgerFreshStep(s, a);
    case CommitAdoption(o, key) => SameKeySelected(s, s');
    case RestoreEnvironment(o, key) => LedgerRestoreStep(s, a);
    case CommitRestore(o, call) => LedgerRestoreStep(s, a);
  }

  lemma RestoreCallMatches(s: State, call: RestoreCall)
    requires LedgerInv(s) && Selected(s) && call in s.restores && call.rev == s.sel.rev
    ensures s.sel.check == Some(call.key)
  {
    hide LegacyClean, SealedRight;
  }

  lemma LedgerReferenceStep(s: State, a: Action)
    requires SelectorInv(s) && LedgerInv(s) && ReferenceAction(a) && ReferenceEnabled(s, a)
    ensures LedgerInv(ApplyReference(s, a))
  {
    hide NoPending, LegacyClean, LedgerInv;
    var s' := ApplyReference(s, a);
    assert ResetSeen(s') == ResetSeen(s) by { AbandonKeepsResets(s, s'); }
    if !Selected(s) {
      assert LegacyClean(s) by { LedgerIsClean(s); }
      LegacyKept(s, s');
    }
    CallsShrink(s, s');
  }

  lemma AbandonKeepsResets(s: State, s': State)
    requires s'.ops == s.ops || s'.ops == AbandonPending(s)
    ensures ResetSeen(s') == ResetSeen(s)
  {
    if ResetSeen(s) {
      var o :| o in s.ops && s.ops[o].kind == Reset && s.ops[o].state == Committed;
      assert o in s'.ops && s'.ops[o] == s.ops[o];
    }
  }

  lemma LedgerIsClean(s: State)
    requires LedgerInv(s) && !Selected(s)
    ensures LegacyClean(s)
  {
    hide LegacyClean;
  }

  lemma LedgerStep(s: State, a: Action)
    requires SelectorInv(s) && LedgerInv(s) && Enabled(s, a)
    ensures LedgerInv(Apply(s, a))
  {
    hide LedgerInv, StageEnabled, ReceiptEnabled, ReferenceEnabled, JournalEnabled, SelectEnabled,
      ApplyStage, ApplyReceipt, ApplyReference, ApplyJournal, ApplySelect;
    if StageAction(a) { LedgerStageStep(s, a); }
    else if ReceiptAction(a) { LedgerReceiptStep(s, a); }
    else if ReferenceAction(a) { LedgerReferenceStep(s, a); }
    else if JournalAction(a) { LedgerJournalStep(s, a); }
    else { LedgerSelectStep(s, a); }
  }

  lemma InvIsSafe(s: State)
    requires SelectorInv(s) && LedgerInv(s)
    ensures Safe(s)
  {}

  // ----- Key files and the journal -----

  ghost predicate JournalInv(s: State) {
    && (forall o, p :: o in s.ops && p in s.ops && s.ops[o].cand.Some? && s.ops[o].cand == s.ops[p].cand ==> o == p)
    && (forall o, p :: Pending(s, o) && Pending(s, p) ==> o == p)
    && (forall o :: Pending(s, o) ==> s.ops[o].cand.Some?)
    && (forall k :: k in s.keyFiles ==>
          CandidateIn(s, k, Preparing) || CandidateIn(s, k, Abandoned) || CandidateIn(s, k, Committed))
    && (forall k :: CandidateIn(s, k, Committed) ==> (SelectedKey(s, k) <==> k !in s.retired))
    && (forall k :: k in s.retired ==> CandidateIn(s, k, Committed))
    && (s.sel.source == Managed ==> s.sel.keyId.Some? && CandidateIn(s, s.sel.keyId.value, Committed))
  }

  ghost function Roles(s: State, k: KeyId): set<int> {
    (if SelectedKey(s, k) then {0} else {}) + (if CandidateIn(s, k, Preparing) then {1} else {}) +
    (if CandidateIn(s, k, Abandoned) then {2} else {}) + (if k in s.retired then {3} else {})
  }

  /** Selected, pending candidate, abandoned candidate, retired: a key file is exactly one of these. */
  lemma KeyFileHasOneRole(s: State, k: KeyId)
    requires JournalInv(s) && k in s.keyFiles
    ensures |Roles(s, k)| == 1
    ensures KeyAccounted(s, k)
  {
    if CandidateIn(s, k, Committed) {
      assert !CandidateIn(s, k, Preparing) && !CandidateIn(s, k, Abandoned);
    } else {
      assert !SelectedKey(s, k) && k !in s.retired;
      assert !(CandidateIn(s, k, Preparing) && CandidateIn(s, k, Abandoned));
    }
  }

  predicate SameJournal(s: State, s': State) {
    && s'.ops == s.ops && s'.retired == s.retired && s'.keyFiles.Keys == s.keyFiles.Keys
    && s'.sel.source == s.sel.source && s'.sel.keyId == s.sel.keyId
  }

  lemma SameJournalKeeps(s: State, s': State)
    requires JournalInv(s) && SameJournal(s, s')
    ensures JournalInv(s')
  {
    assert forall k, state :: CandidateIn(s', k, state) <==> CandidateIn(s, k, state);
    assert forall k :: SelectedKey(s', k) <==> SelectedKey(s, k);
    assert forall o :: Pending(s', o) <==> Pending(s, o);
  }

  /** A new journal row with a fresh candidate. */
  lemma NewOpKeeps(s: State, s': State, o: OpId, op: Operation)
    requires JournalInv(s) && NoPending(s) && o !in s.ops && op.state == Preparing
    requires op.cand.Some? && FreshIds(s, o, op.cand.value)
    requires s'.ops == s.ops[o := op] && s'.retired == s.retired && s'.keyFiles == s.keyFiles
    requires s'.sel == s.sel
    ensures JournalInv(s')
  {
    var mine := op.cand.value;
    forall k, state ensures CandidateIn(s', k, state) <==> CandidateIn(s, k, state) || (k == mine && state == Preparing) {
      if CandidateIn(s, k, state) {
        var p :| p in s.ops && s.ops[p].state == state && s.ops[p].cand == Some(k);
        assert p in s'.ops && s'.ops[p].cand == Some(k);
      }
      if k == mine && state == Preparing { assert s'.ops[o].cand == Some(k); }
    }
    assert forall p :: Pending(s', p) ==> p == o;
  }

  /** One pending row changes state and keeps its candidate. */
  lemma CandidatesAfterClose(s: State, o: OpId, state: OpState, ops: map<OpId, Operation>, k: KeyId, other: OpState)
    requires JournalInv(s) && Pending(s, o) && s.ops[o].cand.Some? && state != Preparing
    requires ops == WithOp(s, o, state)
    ensures var s' := s.(ops := ops);
      CandidateIn(s', k, other) <==>
        if Some(k) == s.ops[o].cand then other == state else CandidateIn(s, k, other)
  {
    var s' := s.(ops := ops);
    if Some(k) == s.ops[o].cand {
      assert s'.ops[o].cand == Some(k);
    } else if CandidateIn(s, k, other) {
      var p :| p in s.ops && s.ops[p].state == other && s.ops[p].cand == Some(k);
      assert s'.ops[p].cand == Some(k) && s'.ops[p].state == other;
    }
  }

  lemma RotateKeeps(s: State, o: OpId, o': OpId, k': KeyId)
    requires JournalInv(s) && Enabled(s, RotateCandidate(o, o', k'))
    ensures JournalInv(Apply(s, RotateCandidate(o, o', k')))
  {
    hide Known, DigestOf;
    var abandoned := s.(ops := WithOp(s, o, Abandoned));
    forall k, state ensures CandidateIn(abandoned, k, state) <==>
        if Some(k) == s.ops[o].cand then state == Abandoned else CandidateIn(s, k, state) {
      CandidatesAfterClose(s, o, Abandoned, abandoned.ops, k, state);
    }
    assert forall k :: SelectedKey(abandoned, k) <==> SelectedKey(s, k);
    assert CandidateIn(s, s.ops[o].cand.value, Preparing);
    assert !CandidateIn(s, s.ops[o].cand.value, Committed);
    assert forall p :: Pending(abandoned, p) ==> Pending(s, p);
    assert NoPending(abandoned) by {
      forall p | p in abandoned.ops ensures abandoned.ops[p].state != Preparing {
        assert Pending(s, o) && (Pending(s, p) ==> p == o);
      }
    }
    assert JournalInv(abandoned);
    var s' := Apply(s, RotateCandidate(o, o', k'));
    NewOpKeeps(abandoned, s', o', s'.ops[o']);
  }

  lemma CommitKeeps(s: State, o: OpId, key: Key, gen: nat, receipts: map<Token, Receipt>)
    requires JournalInv(s) && SelectorInv(s) && Pending(s, o) && s.ops[o].cand.Some?
    ensures JournalInv(CommitManaged(s, o, key, gen, receipts))
  {
    var s' := CommitManaged(s, o, key, gen, receipts);
    var mine := s.ops[o].cand.value;
    assert CandidateIn(s, mine, Preparing);
    assert !CandidateIn(s, mine, Committed);
    forall k, state ensures CandidateIn(s', k, state) <==>
        if k == mine then state == Committed else CandidateIn(s, k, state) {
      CandidatesAfterClose(s, o, Committed, s'.ops, k, state);
      assert CandidateIn(s', k, state) <==> CandidateIn(s.(ops := s'.ops), k, state);
    }
    assert forall p :: Pending(s', p) ==> Pending(s, p);
  }

  /** The managed key is retired, and a committed row without a candidate is journalled for it. */
  lemma RetiringKeeps(s: State, s': State, o: OpId, op: Operation)
    requires JournalInv(s) && SelectorInv(s) && o !in s.ops && op.state == Committed && op.cand.None?
    requires s'.ops == (if s.sel.source == Managed then s.ops[o := op] else s.ops)
    requires s'.retired == Retire(s) && s'.keyFiles == s.keyFiles && s'.sel.source == Environment && s'.sel.keyId.None?
    ensures JournalInv(s')
  {
    forall k, state ensures CandidateIn(s', k, state) <==> CandidateIn(s, k, state) {
      if CandidateIn(s, k, state) {
        var p :| p in s.ops && s.ops[p].state == state && s.ops[p].cand == Some(k);
        assert s'.ops[p] == s.ops[p];
      }
    }
    assert forall p :: Pending(s', p) <==> Pending(s, p);
    assert forall k :: !SelectedKey(s', k);
  }

  lemma RestoreEnvironmentKeeps(s: State, o: OpId, key: Key)
    requires JournalInv(s) && SelectorInv(s) && Enabled(s, RestoreEnvironment(o, key))
    ensures JournalInv(Apply(s, RestoreEnvironment(o, key)))
  {
    hide Known, DigestOf, Decrypts, NoPending, JournalInv;
    var op := Operation(Restore, Committed, None, s.sel.gen, s.sel.rev, DigestOf(s), Legacy);
    RetiringKeeps(s, Apply(s, RestoreEnvironment(o, key)), o, op);
  }

  lemma StageKeepsJournal(s: State, a: Action)
    requires JournalInv(s) && StageAction(a) && StageEnabled(s, a)
    ensures JournalInv(ApplyStage(s, a))
  {
    hide StoreOpen, Ready, JournalInv;
    SameJournalKeeps(s, ApplyStage(s, a));
  }

  lemma ReceiptKeepsJournal(s: State, a: Action)
    requires JournalInv(s) && ReceiptAction(a) && ReceiptEnabled(s, a)
    ensures JournalInv(ApplyReceipt(s, a))
  {
    hide ReceiptEnabled, ApplyReceipt, JournalInv;
    ReceiptShape(s, a);
    SameJournalKeeps(s, ApplyReceipt(s, a));
  }

  predicate BeginAction(a: Action) { a.BeginInitialize? || a.BeginRestore? || a.BeginAdoption? || a.BeginReset? }

  lemma BeginKeeps(s: State, a: Action)
    requires JournalInv(s) && BeginAction(a) && Enabled(s, a)
    ensures JournalInv(ApplyJournal(s, a))
  {
    hide Known, DigestOf, Decrypts, JournalInv, NothingStored;
    var s' := ApplyJournal(s, a);
    NewOpKeeps(s, s', a.o, s'.ops[a.o]);
  }

  lemma ReferenceKeepsJournal(s: State, a: Action)
    requires JournalInv(s) && ReferenceAction(a) && ReferenceEnabled(s, a)
    ensures JournalInv(ApplyReference(s, a))
  {
    hide StoreOpen, JournalInv;
    var s' := ApplyReference(s, a);
    if a.RevokeGrant? { AbandonKeeps(s, s'); } else { SameJournalKeeps(s, s'); }
  }

  lemma AbandonKeeps(s: State, s': State)
    requires JournalInv(s) && s'.ops == AbandonPending(s) && s'.retired == s.retired
    requires s'.keyFiles == s.keyFiles && s'.sel == s.sel
    ensures JournalInv(s')
  {
    if exists o :: Pending(s, o) {
      var o :| Pending(s, o);
      assert forall p :: p in s.ops && p != o ==> !Pending(s, p);
      assert forall p :: p in s.ops ==> s'.ops[p] == WithOp(s, o, Abandoned)[p];
      assert s'.ops == WithOp(s, o, Abandoned);
      AbandonOneKeeps(s, s', o);
    } else {
      assert forall p :: p in s.ops ==> !Pending(s, p);
      SameJournalKeeps(s, s');
    }
  }

  lemma AbandonOneKeeps(s: State, s': State, o: OpId)
    requires JournalInv(s) && Pending(s, o) && s'.ops == WithOp(s, o, Abandoned) && s'.retired == s.retired
    requires s'.keyFiles == s.keyFiles && s'.sel == s.sel
    ensures JournalInv(s')
  {
    assert CandidateIn(s, s.ops[o].cand.value, Preparing);
    assert !CandidateIn(s, s.ops[o].cand.value, Committed);
    forall k, state ensures CandidateIn(s', k, state) <==>
        if Some(k) == s.ops[o].cand then state == Abandoned else CandidateIn(s, k, state) {
      CandidatesAfterClose(s, o, Abandoned, s'.ops, k, state);
      assert CandidateIn(s', k, state) <==> CandidateIn(s.(ops := s'.ops), k, state);
    }
    assert forall k :: SelectedKey(s', k) <==> SelectedKey(s, k);
    assert forall p :: Pending(s', p) ==> Pending(s, p);
  }

  lemma JournalActionKeeps(s: State, a: Action)
    requires JournalInv(s) && JournalAction(a) && JournalEnabled(s, a)
    ensures JournalInv(ApplyJournal(s, a))
  {
    hide Known, DigestOf, Decrypts, JournalInv, NothingStored, FreshIds;
    if BeginAction(a) { BeginKeeps(s, a); }
    else if a.RotateCandidate? { RotateKeeps(s, a.o, a.o', a.k'); }
    else if a.CreateKeyFile? { CreateKeeps(s, a.o, a.key, a.complete); }
    else { SameJournalKeeps(s, ApplyJournal(s, a)); }
  }

  lemma SelectActionKeeps(s: State, a: Action)
    requires JournalInv(s) && SelectorInv(s) && SelectAction(a) && SelectEnabled(s, a)
    ensures JournalInv(ApplySelect(s, a))
  {
    hide Known, DigestOf, Decrypts, JournalInv, NothingStored;
    var s' := ApplySelect(s, a);
    match a
    case RestoreEnvironment(o, key) => RestoreEnvironmentKeeps(s, o, key);
    case CommitInitialize(o, key) => CommitKeeps(s, o, key, s.sel.gen + 1, s'.receipts);
    case CommitRestore(o, call) => CommitKeeps(s, o, call.key, AtLeastOne(s.sel.gen), s'.receipts);
    case CommitAdoption(o, key) => CommitKeeps(s, o, key, s.sel.gen, s'.receipts);
    case CommitReset(o, key) =>
      CommitKeeps(s, o, key, s.sel.gen + 1, s'.receipts);
      SameJournalKeeps(CommitManaged(s, o, key, s.sel.gen + 1, s'.receipts), s');
    case SelectEnvironment(key) => SelectEnvironmentKeeps(s, key);
  }

  lemma JournalStep(s: State, a: Action)
    requires JournalInv(s) && SelectorInv(s) && Enabled(s, a)
    ensures JournalInv(Apply(s, a))
  {
    hide JournalInv, StageEnabled, ReceiptEnabled, ReferenceEnabled, JournalEnabled, SelectEnabled,
      ApplyStage, ApplyReceipt, ApplyReference, ApplyJournal, ApplySelect;
    if StageAction(a) { StageKeepsJournal(s, a); }
    else if ReceiptAction(a) { ReceiptKeepsJournal(s, a); }
    else if ReferenceAction(a) { ReferenceKeepsJournal(s, a); }
    else if JournalAction(a) { JournalActionKeeps(s, a); }
    else { SelectActionKeeps(s, a); }
  }

  lemma CreateKeeps(s: State, o: OpId, key: Key, complete: bool)
    requires JournalInv(s) && Enabled(s, CreateKeyFile(o, key, complete))
    ensures JournalInv(Apply(s, CreateKeyFile(o, key, complete)))
  {
    hide Known, DigestOf;
    var s' := Apply(s, CreateKeyFile(o, key, complete));
    assert CandidateIn(s, s.ops[o].cand.value, Preparing);
    assert forall k, state :: CandidateIn(s', k, state) <==> CandidateIn(s, k, state);
    assert forall k :: SelectedKey(s', k) <==> SelectedKey(s, k);
    assert forall p :: Pending(s', p) <==> Pending(s, p);
  }

  lemma SelectEnvironmentKeeps(s: State, key: Key)
    requires JournalInv(s) && SelectorInv(s) && Enabled(s, SelectEnvironment(key))
    ensures JournalInv(Apply(s, SelectEnvironment(key)))
  {
    hide Known, Decrypts;
    var s' := Apply(s, SelectEnvironment(key));
    assert forall k, state :: CandidateIn(s', k, state) <==> CandidateIn(s, k, state);
    assert forall k :: !SelectedKey(s', k) && !SelectedKey(s, k);
    assert forall p :: Pending(s', p) <==> Pending(s, p);
  }

  // ----- Whole runs -----

  lemma {:induction false} JournalHolds(s: State, actions: seq<Action>, s': State)
    requires SelectorInv(s) && JournalInv(s) && Steps(s, actions, s')
    ensures SelectorInv(s') && JournalInv(s')
    decreases |actions|
  {
    hide SelectorInv, JournalInv, Enabled, Apply;
    if actions != [] {
      SelectorStep(s, actions[0]);
      JournalStep(s, actions[0]);
      JournalHolds(Apply(s, actions[0]), actions[1..], s');
    }
  }

  lemma {:induction false} LedgerHolds(s: State, actions: seq<Action>, s': State)
    requires SelectorInv(s) && LedgerInv(s) && Steps(s, actions, s')
    ensures SelectorInv(s') && LedgerInv(s')
    decreases |actions|
  {
    hide SelectorInv, LedgerInv, Enabled, Apply;
    if actions != [] {
      SelectorStep(s, actions[0]);
      LedgerStep(s, actions[0]);
      LedgerHolds(Apply(s, actions[0]), actions[1..], s');
    }
  }

  /** In every run every key file has exactly one role and at most one operation is preparing. */
  lemma KeyFilesAccounted(s0: State, actions: seq<Action>, s: State)
    requires Init(s0) && Steps(s0, actions, s)
    ensures forall k :: k in s.keyFiles ==> |Roles(s, k)| == 1 && KeyAccounted(s, k)
    ensures forall o, p :: Pending(s, o) && Pending(s, p) ==> o == p
  {
    JournalHolds(s0, actions, s);
    forall k | k in s.keyFiles ensures |Roles(s, k)| == 1 && KeyAccounted(s, k) { KeyFileHasOneRole(s, k); }
  }

  /** From a clean legacy store no run ever makes the selected key reject the store's own data. */
  lemma SafeForever(s0: State, actions: seq<Action>, s: State)
    requires Init(s0) && LegacyClean(s0) && Steps(s0, actions, s)
    ensures Safe(s)
  {
    LedgerHolds(s0, actions, s);
    InvIsSafe(s);
  }

  ghost predicate AlwaysSafe(s0: State) {
    forall actions, s :: Steps(s0, actions, s) ==> Safe(s)
  }

  lemma EnvironmentSelected(s0: State, key: Key)
    requires Init(s0) && Known(s0) && Decrypts(s0, key)
    ensures Enabled(s0, SelectEnvironment(key))
    ensures Ready(Apply(s0, SelectEnvironment(key)), Present(key))
  {
    var s1 := Apply(s0, SelectEnvironment(key));
    assert !ResetSeen(s0) && !ResetSeen(s1);
    assert forall t :: t in s0.receipts ==> (LiveToken(s1, t) <==> LiveToken(s0, t));
  }

  lemma {:induction false} ThreeSteps(s0: State, a1: Action, a2: Action, a3: Action)
    requires Enabled(s0, a1) && Enabled(Apply(s0, a1), a2) && Enabled(Apply(Apply(s0, a1), a2), a3)
    ensures Steps(s0, [a1, a2, a3], Apply(Apply(Apply(s0, a1), a2), a3))
  {
    hide Enabled, Apply;
    var s1 := Apply(s0, a1);
    var s2 := Apply(s1, a2);
    var s3 := Apply(s2, a3);
    assert Steps(s3, [], s3);
    assert [a3][1..] == [];
    assert Steps(s2, [a3], s3);
    assert [a2, a3][1..] == [a3];
    assert Steps(s1, [a2, a3], s3);
    assert [a1, a2, a3][1..] == [a2, a3];
  }

  /** The run that breaks the promise: select a fitting environment key, then fail one deletion. */
  lemma DirtyLegacyRun(s0: State, t: Token, key: Key, p: Proc)
    requires Init(s0) && Known(s0) && Decrypts(s0, key)
    requires t in s0.payloads && t in s0.receipts && s0.payloads[t] != key
    ensures !AlwaysSafe(s0)
  {
    hide Known, Steps;
    var a1, a2, a3 := SelectEnvironment(key), CacheSelection(p, Present(key)), DeleteReceipt(p, t, false);
    EnvironmentSelected(s0, key);
    var s2 := Apply(Apply(s0, a1), a2);
    assert Owned(s2, p, t);
    var s3 := Apply(s2, a3);
    assert !ResetSeen(s3) && LiveToken(s3, t);
    ThreeSteps(s0, a1, a2, a3);
    assert !Safe(s3);
  }

  /** The store as it is once every reference has been cleared. */
  function Cleared(s: State): State { s.(refs := map[]) }

  /** An inventory that stays unknown even without references: no transaction of the manager gets past it. */
  ghost predicate Unopened(s: State) {
    && !Selected(s) && !Known(Cleared(s))
    && s.ops == map[] && s.caches == map[] && s.frames == map[] && s.keyFiles == map[]
  }

  lemma ClearingHelps(s: State)
    ensures Known(s) ==> Known(Cleared(s))
  {
    var c := Cleared(s);
    assert ResetSeen(c) == ResetSeen(s);
    assert forall t :: t in s.receipts ==> (LiveToken(c, t) <==> LiveToken(s, t));
    assert forall k, state :: CandidateIn(c, k, state) <==> CandidateIn(s, k, state);
    assert forall k :: KeyAccounted(c, k) <==> KeyAccounted(s, k);
  }

  lemma UnopenedStep(s: State, a: Action)
    requires Unopened(s) && Enabled(s, a)
    ensures Unopened(Apply(s, a))
  {
    OnlyMarksWhileUnknown(s, a);
    var s' := Apply(s, a);
    assert s'.ops == map[];
    assert !ResetSeen(Cleared(s')) && !ResetSeen(Cleared(s));
    assert forall t :: t in s.receipts ==> (LiveToken(Cleared(s'), t) <==> LiveToken(Cleared(s), t));
  }

  lemma OnlyMarksWhileUnknown(s: State, a: Action)
    requires Unopened(s) && Enabled(s, a)
    ensures a.MarkConflict? || a.Restart? || ReferenceAction(a)
  {
    hide Known, DigestOf, Decrypts, NothingStored, FreshIds, CandidateKey, Cleared;
    ClearingHelps(s);
  }

  lemma {:induction false} UnopenedForever(s: State, actions: seq<Action>, s': State)
    requires Unopened(s) && Steps(s, actions, s')
    ensures Unopened(s')
    decreases |actions|
  {
    hide Unopened, Enabled, Apply;
    if actions != [] {
      UnopenedStep(s, actions[0]);
      UnopenedForever(Apply(s, actions[0]), actions[1..], s');
    }
  }

  lemma ClearOne(s: State, r: RefId) returns (a: Action)
    requires NoPending(s) && r in s.refs
    ensures Enabled(s, a) && Apply(s, a) == s.(refs := s.refs - {r})
  {
    hide NoPending;
    a := if s.refs[r].Configured? then ClearConfig(r) else DropGrant(r);
  }

  /** Without a pending operation every reference can be cleared, configuration fields and grants alike. */
  lemma {:induction false} ClearAll(s: State) returns (actions: seq<Action>)
    requires NoPending(s)
    ensures Steps(s, actions, Cleared(s))
    decreases |s.refs|
  {
    hide Enabled, Apply;
    if s.refs == map[] {
      actions := [];
    } else {
      var r := Someone(s.refs.Keys);
      var a := ClearOne(s, r);
      var next := s.(refs := s.refs - {r});
      assert next.refs.Keys == s.refs.Keys - {r};
      assert |next.refs.Keys| < |s.refs.Keys|;
      var rest := ClearAll(next);
      assert ([a] + rest)[1..] == rest;
      actions := [a] + rest;
    }
  }

  lemma {:induction false} StepsAppend(s: State, first: seq<Action>, mid: State, second: seq<Action>, s': State)
    requires Steps(s, first, mid) && Steps(mid, second, s')
    ensures Steps(s, first + second, s')
    decreases |first|
  {
    hide Enabled, Apply;
    if first == [] {
      assert first + second == second;
    } else {
      StepsAppend(Apply(s, first[0]), first[1..], mid, second, s');
      assert (first + second)[0] == first[0];
      assert (first + second)[1..] == first[1..] + second;
    }
  }

  lemma UnsafeFromCleared(s0: State)
    requires NoPending(s0) && !AlwaysSafe(Cleared(s0))
    ensures !AlwaysSafe(s0)
  {
    hide Steps, Safe;
    var clearing := ClearAll(s0);
    var actions, s :| Steps(Cleared(s0), actions, s) && !Safe(s);
    StepsAppend(s0, clearing, Cleared(s0), actions, s);
  }

  lemma ClearedIsClean(s: State)
    ensures LegacyClean(Cleared(s)) <==> LegacyClean(s)
  {
    var c := Cleared(s);
    assert ResetSeen(c) == ResetSeen(s);
    assert forall t :: LiveToken(c, t) <==> LiveToken(s, t);
    assert forall key :: Decrypts(c, key) <==> Decrypts(s, key);
  }

  /** Every run is safe iff the legacy store is clean or its inventory is unknown for more than its references. */
  lemma SafeIffLegacyClean(s0: State)
    requires Init(s0)
    ensures AlwaysSafe(s0) <==> (Known(Cleared(s0)) ==> LegacyClean(s0))
  {
    if !Known(Cleared(s0)) {
      assert Unopened(s0);
      forall actions, s | Steps(s0, actions, s) ensures Safe(s) { UnopenedForever(s0, actions, s); }
    } else if LegacyClean(s0) {
      forall actions, s | Steps(s0, actions, s) ensures Safe(s) { SafeForever(s0, actions, s); }
    } else {
      DirtyClearedRun(s0);
    }
  }

  lemma DirtyClearedRun(s0: State)
    requires Init(s0) && Known(Cleared(s0)) && !LegacyClean(s0)
    ensures !AlwaysSafe(s0)
  {
    ClearedIsClean(s0);
    var c := Cleared(s0);
    var t, key :| t in c.payloads && t in c.receipts && Decrypts(c, key) && c.payloads[t] != key;
    DirtyLegacyRun(c, t, key, 0);
    hide AlwaysSafe;
    UnsafeFromCleared(s0);
  }

  /** A dirty legacy store: one tombstoned receipt whose payload was never unlinked. */
  const DIRTY := State(Selection(Unselected, 0, 1, None, None), map[], {}, map[0 := Receipt(Tombstoned, 0)], map[0 := 5],
                       {}, map[], map[], map[], {}, map[])

  lemma DirtyStoreExists()
    ensures Init(DIRTY) && Known(DIRTY) && !LegacyClean(DIRTY) && !AlwaysSafe(DIRTY)
  {
    assert !LiveToken(DIRTY, 0);
    assert Decrypts(DIRTY, 6) && DIRTY.payloads[0] != 6;
    assert Cleared(DIRTY) == DIRTY;
    SafeIffLegacyClean(DIRTY);
  }

  // ----- Receipts do not come back -----

  predicate Spent(state: ReceiptState) {
    state == OrphanState || state == DeleteFailed || state == CasConflict || state == Tombstoned
  }

  /** Between two states a receipt keeps existing, stays spent, and is readable only if it could be. */
  predicate Fades(s: State, s': State, t: Token)
    requires t in s.receipts
  {
    && t in s'.receipts
    && (Spent(s.receipts[t].state) ==> Spent(s'.receipts[t].state))
    && (Readable(s'.receipts[t].state) ==> Readable(s.receipts[t].state) || s.receipts[t].state == Recoverable)
  }

  lemma StageFades(s: State, a: Action, t: Token)
    requires StageAction(a) && StageEnabled(s, a) && t in s.receipts
    ensures Fades(s, ApplyStage(s, a), t)
  {
    hide StoreOpen, Ready;
  }

  lemma ReceiptFades(s: State, a: Action, t: Token)
    requires ReceiptAction(a) && ReceiptEnabled(s, a) && t in s.receipts
    ensures Fades(s, ApplyReceipt(s, a), t)
  {
    if a.t == t {
      hide StoreOpen;
    } else {
      hide ReceiptEnabled, ApplyReceipt;
      ReceiptShape(s, a);
    }
  }

  lemma JournalFades(s: State, a: Action, t: Token)
    requires JournalAction(a) && JournalEnabled(s, a) && t in s.receipts
    ensures Fades(s, ApplyJournal(s, a), t)
  {
    hide Known, DigestOf, Decrypts, NothingStored, NoPending, FreshIds;
  }

  lemma SelectFades(s: State, a: Action, t: Token)
    requires SelectAction(a) && SelectEnabled(s, a) && t in s.receipts
    ensures Fades(s, ApplySelect(s, a), t)
  {
    hide Known, DigestOf, Decrypts, NothingStored, NoPending, CandidateKey;
  }

  lemma ReferenceFades(s: State, a: Action, t: Token)
    requires ReferenceAction(a) && ReferenceEnabled(s, a) && t in s.receipts
    ensures Fades(s, ApplyReference(s, a), t)
  {
    hide StoreOpen;
  }

  lemma SpentStep(s: State, a: Action, t: Token)
    requires Enabled(s, a) && t in s.receipts
    ensures Fades(s, Apply(s, a), t)
  {
    hide Fades, StageEnabled, ReceiptEnabled, ReferenceEnabled, JournalEnabled, SelectEnabled,
      ApplyStage, ApplyReceipt, ApplyReference, ApplyJournal, ApplySelect;
    if StageAction(a) { StageFades(s, a, t); }
    else if ReceiptAction(a) { ReceiptFades(s, a, t); }
    else if ReferenceAction(a) { ReferenceFades(s, a, t); }
    else if JournalAction(a) { JournalFades(s, a, t); }
    else { SelectFades(s, a, t); }
  }

  /** A receipt that was deleted, orphaned or lost its claim never becomes readable again. */
  lemma {:induction false} SpentForever(s: State, actions: seq<Action>, s': State, t: Token)
    requires Steps(s, actions, s') && t in s.receipts && Spent(s.receipts[t].state)
    ensures t in s'.receipts && !Readable(s'.receipts[t].state)
    decreases |actions|
  {
    hide Enabled, Apply;
    if actions != [] {
      SpentStep(s, actions[0], t);
      SpentForever(Apply(s, actions[0]), actions[1..], s', t);
    }
  }
}
