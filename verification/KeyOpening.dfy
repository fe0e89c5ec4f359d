/**
 Which stopped stores can be opened again, by whatever the operator does: finish the pending
 operation, revoke a grant to abandon it, clear references, fit the environment, or reset.
 */
module KeyOpening {
  import opened Common
  import opened KeyLedger
  import opened KeySafety
  import opened KeyRecovery
  import opened KeyReopen

  // ----- How far the store has moved from a pending operation's digest -----

  predicate ReceiptDrift(now: Receipt, past: Receipt) {
    now == past || (now.state == CasConflict && past.state != CasConflict)
  }

  predicate ReferenceDrift(now: Reference, past: Reference) {
    now == past || (now.Granted? && past.Granted? && now.revision > past.revision)
  }

  /** While an operation is pending, receipts only get conflict marks and references only go or age. */
  ghost predicate Drifted(s: State, d: Digest) {
    && d.gen == s.sel.gen && d.source == s.sel.source && d.keys == DigestOf(s).keys
    && d.receipts.Keys == s.receipts.Keys && (forall t :: t in s.receipts ==> ReceiptDrift(s.receipts[t], d.receipts[t]))
    && (forall t :: t in d.blobs ==> t in s.payloads)
    && (forall r :: r in s.refs ==> r in d.refs && ReferenceDrift(s.refs[r], d.refs[r]))
  }

  /** A complete candidate file holds `key`. */
  predicate Holds(s: State, op: Operation, key: Key) {
    op.cand.Some? && op.cand.value in s.keyFiles && s.keyFiles[op.cand.value] == Full(key)
  }

  /** The key file was written for an initialisation. */
  predicate FirstKey(s: State, k: KeyId) { exists o :: o in s.ops && s.ops[o].kind == Initialize && s.ops[o].cand == Some(k) }

  /** What a pending operation needs in order to be finished. */
  ghost predicate Purposeful(s: State, op: Operation) {
    match op.kind
    case Initialize =>
      s.sel.source == Unselected && NothingStored(s) && op.purpose == Legacy && forall k :: k in s.keyFiles ==> FirstKey(s, k)
    case Reset => s.sel.source != Environment
    case Restore =>
      if op.purpose == Adoption then
        s.sel.source == Environment && (forall key :: Holds(s, op, key) ==> s.sel.check == Some(key))
      else
        && s.sel.source != Environment
        && (Selected(s) ==> forall key :: Holds(s, op, key) ==> s.sel.check == Some(key))
        && (!Selected(s) ==> (exists key :: Decrypts(s, key)) && forall key :: Holds(s, op, key) ==> Decrypts(s, key))
  }

  ghost predicate OpPlan(s: State, o: OpId)
    requires o in s.ops
  {
    var op := s.ops[o];
    op.gen == s.sel.gen && op.rev == s.sel.rev && op.cand.Some? && Drifted(s, op.digest) && Purposeful(s, op)
  }

  ghost predicate PlanInv(s: State) {
    && (forall o :: Pending(s, o) ==> OpPlan(s, o))
    && (!Selected(s) ==> s.frames == map[])
  }

  /** Nothing a pending operation looks at has changed but what drift allows. */
  lemma PlanKept(s: State, s': State, o: OpId)
    requires o in s.ops && OpPlan(s, o) && s'.ops == s.ops && s'.sel == s.sel && s'.keyFiles == s.keyFiles
    requires s'.receipts.Keys == s.receipts.Keys
    requires forall t :: t in s.receipts ==>
      ReceiptDrift(s'.receipts[t], s.receipts[t]) && s'.receipts[t].gen == s.receipts[t].gen
      && (Live(s'.receipts[t].state) <==> Live(s.receipts[t].state))
    requires (forall t :: t in s.payloads ==> t in s'.payloads) && (!Selected(s) ==> s'.payloads == s.payloads && s'.temps == s.temps)
    requires forall r :: r in s'.refs ==> r in s.refs && ReferenceDrift(s'.refs[r], s.refs[r])
    ensures OpPlan(s', o)
  {
    SameResets(s, s');
    assert forall t :: t in s.receipts ==> (LiveToken(s', t) <==> LiveToken(s, t));
    assert forall k, state :: CandidateIn(s', k, state) <==> CandidateIn(s, k, state);
    assert DigestOf(s').keys == DigestOf(s).keys;
    if !Selected(s) { assert forall key :: Decrypts(s', key) <==> Decrypts(s, key); }
  }

  lemma StagePlan(s: State, a: Action)
    requires PlanInv(s) && ReceiptInv(s) && StageAction(a) && StageEnabled(s, a)
    ensures PlanInv(ApplyStage(s, a))
  {
    hide OpPlan, Ready, Known;
    var s' := ApplyStage(s, a);
    forall o | Pending(s', o) ensures OpPlan(s', o) {
      assert Pending(s, o) && !NoPending(s);
      PlanKept(s, s', o);
    }
  }

  lemma ReceiptPlan(s: State, a: Action)
    requires PlanInv(s) && ReceiptAction(a) && ReceiptEnabled(s, a)
    ensures PlanInv(ApplyReceipt(s, a))
  {
    hide OpPlan;
    var s' := ApplyReceipt(s, a);
    forall o | Pending(s', o) ensures OpPlan(s', o) {
      assert Pending(s, o) && !NoPending(s);
      PlanKept(s, s', o);
    }
  }

  lemma ReferencePlan(s: State, a: Action)
    requires PlanInv(s) && ReferenceAction(a) && ReferenceEnabled(s, a)
    ensures PlanInv(ApplyReference(s, a))
  {
    hide OpPlan;
    var s' := ApplyReference(s, a);
    forall o | Pending(s', o) ensures OpPlan(s', o) {
      assert !a.RevokeGrant?;
      assert Pending(s, o) && !NoPending(s);
      PlanKept(s, s', o);
    }
  }

  /** A new journal row leaves the facts of the digest alone. */
  lemma NewRowDigest(s: State, s': State, o: OpId, k: KeyId)
    requires NoPending(s) && FreshIds(s, o, k) && s' == s.(ops := s'.ops, restores := s'.restores)
    requires o in s'.ops && s'.ops == s.ops[o := s'.ops[o]] && s'.ops[o].cand == Some(k) && s'.ops[o].state == Preparing
    ensures DigestOf(s') == DigestOf(s)
  {
    assert forall j :: !CandidateIn(s, j, Preparing);
    assert forall j :: CandidateIn(s', j, Preparing) ==> j == k;
    assert DigestOf(s').keys == DigestOf(s).keys;
  }

  lemma FreshDrift(s: State)
    ensures Drifted(s, DigestOf(s))
  {}

  lemma BeginPlan(s: State, a: Action)
    requires PlanInv(s) && JournalAction(a) && BeginAction(a) && JournalEnabled(s, a)
    ensures PlanInv(ApplyJournal(s, a))
  {
    hide Known, DigestOf, Drifted;
    var s' := ApplyJournal(s, a);
    assert FreshIds(s, a.o, a.k) && NoPending(s);
    NewRowDigest(s, s', a.o, a.k);
    FreshDrift(s');
    forall o | Pending(s', o) ensures OpPlan(s', o) {
      assert o == a.o;
      BeginPurpose(s, a);
    }
  }

  lemma BeginPurpose(s: State, a: Action)
    requires JournalAction(a) && BeginAction(a) && JournalEnabled(s, a)
    ensures a.o in ApplyJournal(s, a).ops && Purposeful(ApplyJournal(s, a), ApplyJournal(s, a).ops[a.o])
  {
    hide Known, DigestOf;
    var s' := ApplyJournal(s, a);
    assert ResetSeen(s') == ResetSeen(s) by { NewRowKeepsResets(s, s', a.o); }
    assert forall t :: LiveToken(s', t) <==> LiveToken(s, t);
    assert forall key :: Decrypts(s', key) <==> Decrypts(s, key);
    assert forall key :: !Holds(s', s'.ops[a.o], key);
  }

  lemma NewRowKeepsResets(s: State, s': State, o: OpId)
    requires o !in s.ops && o in s'.ops && s'.ops == s.ops[o := s'.ops[o]] && s'.ops[o].state != Committed
    ensures ResetSeen(s') == ResetSeen(s)
  {
    if ResetSeen(s) {
      var p :| p in s.ops && s.ops[p].kind == Reset && s.ops[p].state == Committed;
      assert s'.ops[p] == s.ops[p];
    }
  }

  lemma RotatePlan(s: State, o: OpId, o': OpId, k': KeyId)
    requires PlanInv(s) && JournalInv(s) && Enabled(s, RotateCandidate(o, o', k'))
    ensures PlanInv(Apply(s, RotateCandidate(o, o', k')))
  {
    hide Known, DigestOf, Drifted, JournalInv;
    var s' := Apply(s, RotateCandidate(o, o', k'));
    RotatedDigest(s, o, o', k');
    FreshDrift(s');
    assert Pending(s, o) && OpPlan(s, o);
    RotatePurpose(s, o, o', k');
  }

  lemma RotatePurpose(s: State, o: OpId, o': OpId, k': KeyId)
    requires Enabled(s, RotateCandidate(o, o', k')) && Purposeful(s, s.ops[o])
    ensures var s' := Apply(s, RotateCandidate(o, o', k')); Purposeful(s', s'.ops[o'])
  {
    hide Known, DigestOf;
    var s' := Apply(s, RotateCandidate(o, o', k'));
    assert ResetSeen(s') == ResetSeen(s) by {
      if ResetSeen(s) {
        var p :| p in s.ops && s.ops[p].kind == Reset && s.ops[p].state == Committed;
        assert s'.ops[p] == s.ops[p];
      }
    }
    assert forall t :: LiveToken(s', t) <==> LiveToken(s, t);
    assert forall key :: Decrypts(s', key) <==> Decrypts(s, key);
    assert forall key :: !Holds(s', s'.ops[o'], key);
    forall k | FirstKey(s, k) ensures FirstKey(s', k) {
      var p :| p in s.ops && s.ops[p].kind == Initialize && s.ops[p].cand == Some(k);
      assert s'.ops[p].kind == Initialize && s'.ops[p].cand == Some(k);
    }
  }

  /** Key files come and go only under the candidate's name. */
  lemma CandidatePlan(s: State, s': State, o: OpId)
    requires o in s.ops && OpPlan(s, o) && s' == s.(keyFiles := s'.keyFiles)
    requires DigestOf(s').keys == DigestOf(s).keys
    requires forall key :: Holds(s', s.ops[o], key) ==> Holds(s, s.ops[o], key) || MayHold(s, s.ops[o], key)
    requires forall k :: k in s'.keyFiles ==> k in s.keyFiles || s.ops[o].cand == Some(k)
    ensures OpPlan(s', o)
  {
    assert forall k :: FirstKey(s', k) <==> FirstKey(s, k);
    assert s.ops[o].kind == Initialize && s.ops[o].cand.Some? ==> FirstKey(s, s.ops[o].cand.value);
    SameResets(s, s');
    assert forall t :: LiveToken(s', t) <==> LiveToken(s, t);
    assert forall key :: Decrypts(s', key) <==> Decrypts(s, key);
  }

  lemma FilePlan(s: State, a: Action)
    requires PlanInv(s) && JournalInv(s) && (a.CreateKeyFile? || a.DamageKeyFile? || a.ResumeRestore?) && JournalEnabled(s, a)
    ensures PlanInv(ApplyJournal(s, a))
  {
    hide OpPlan, Known, MayHold, Decrypts, NothingStored;
    var s' := ApplyJournal(s, a);
    forall o | Pending(s', o) ensures OpPlan(s', o) {
      assert Pending(s, o);
      if a.ResumeRestore? {
        PlanKept(s, s', o);
      } else if a.CreateKeyFile? {
        OnlyPending(s, o, a.o);
        DigestIgnoresCandidate(s, s', o);
        CandidatePlan(s, s', o);
      } else {
        assert forall k, state :: CandidateIn(s', k, state) <==> CandidateIn(s, k, state);
        assert DigestOf(s').keys == DigestOf(s).keys;
        CandidatePlan(s, s', o);
      }
    }
  }

  lemma JournalPlan(s: State, a: Action)
    requires PlanInv(s) && JournalInv(s) && JournalAction(a) && JournalEnabled(s, a)
    ensures PlanInv(ApplyJournal(s, a))
  {
    hide PlanInv, JournalInv, JournalEnabled, ApplyJournal;
    if BeginAction(a) { BeginPlan(s, a); }
    else if a.RotateCandidate? { RotatePlan(s, a.o, a.o', a.k'); }
    else { FilePlan(s, a); }
  }

  lemma SelectPlan(s: State, a: Action)
    requires SelectorInv(s) && JournalInv(s) && SelectAction(a) && SelectEnabled(s, a)
    ensures PlanInv(ApplySelect(s, a))
  {
    hide JournalInv, SelectEnabled, ApplySelect, SelectorInv;
    SelectPending(s, a);
    SelectMovesSelector(s, a);
  }

  lemma PlanStep(s: State, a: Action)
    requires Reachable(s) && PlanInv(s) && Enabled(s, a)
    ensures PlanInv(Apply(s, a))
  {
    hide PlanInv, SelectorInv, ReceiptInv, JournalInv, PendingInv,
      StageEnabled, ReceiptEnabled, ReferenceEnabled, JournalEnabled, SelectEnabled,
      ApplyStage, ApplyReceipt, ApplyReference, ApplyJournal, ApplySelect;
    if StageAction(a) { StagePlan(s, a); }
    else if ReceiptAction(a) { ReceiptPlan(s, a); }
    else if ReferenceAction(a) { ReferencePlan(s, a); }
    else if JournalAction(a) { JournalPlan(s, a); }
    else { SelectPlan(s, a); }
  }

  lemma {:induction false} PlanHolds(s: State, actions: seq<Action>, s': State)
    requires Reachable(s) && PlanInv(s) && Steps(s, actions, s')
    ensures Reachable(s') && PlanInv(s')
    decreases |actions|
  {
    hide Reachable, PlanInv, Enabled, Apply;
    if actions != [] {
      OneStep(s, actions[0]);
      ReachableHolds(s, [actions[0]], Apply(s, actions[0]));
      PlanStep(s, actions[0]);
      PlanHolds(Apply(s, actions[0]), actions[1..], s');
    }
  }

  /** In every run an initialisation is pending only over an empty, unselected store, with no key file but its own attempts'. */
  lemma InitialisesAlone(s0: State, actions: seq<Action>, s: State, o: OpId, k: KeyId)
    requires Init(s0) && Steps(s0, actions, s) && Pending(s, o) && s.ops[o].kind == Initialize
    ensures s.sel.source == Unselected && NothingStored(s) && (k in s.keyFiles ==> FirstKey(s, k))
  {
    InitIsReachable(s0);
    hide Reachable, NothingStored, Drifted;
    PlanHolds(s0, actions, s);
    assert OpPlan(s, o);
  }

  // ----- Ways to open -----

  ghost predicate CanOpen(s: State) { exists actions, s' :: Steps(s, actions, s') && Opens(s') }

  /** What holds of a store all of whose runs are safe. */
  ghost predicate Sound(s: State) { Reachable(s) && PlanInv(s) && AlwaysSafe(s) }

  lemma SoundLater(s: State, actions: seq<Action>, s': State)
    requires Sound(s) && Steps(s, actions, s')
    ensures Sound(s')
  {
    hide Reachable, PlanInv, Steps, Safe;
    PlanHolds(s, actions, s');
    forall more, s'' | Steps(s', more, s'') ensures Safe(s'') {
      StepsAppend(s, actions, s', more, s'');
    }
  }

  lemma SoundStep(s: State, a: Action)
    requires Sound(s) && Enabled(s, a)
    ensures Sound(Apply(s, a))
  {
    hide Sound, Enabled, Apply;
    OneStep(s, a);
    SoundLater(s, [a], Apply(s, a));
  }

  lemma SoundNow(s: State)
    requires Sound(s)
    ensures Reachable(s) && PlanInv(s) && Safe(s)
  {
    hide Reachable, PlanInv, Safe;
    assert Steps(s, [], s);
  }

  lemma OpensLater(s: State, actions: seq<Action>, s': State)
    requires Steps(s, actions, s') && CanOpen(s')
    ensures CanOpen(s)
  {
    hide Steps, Opens;
    var more, s'' :| Steps(s', more, s'') && Opens(s'');
    StepsAppend(s, actions, s', more, s'');
  }

  lemma OpensAfter(s: State, a: Action)
    requires Enabled(s, a) && CanOpen(Apply(s, a))
    ensures CanOpen(s)
  {
    hide Enabled, Apply, CanOpen;
    OneStep(s, a);
    OpensLater(s, [a], Apply(s, a));
  }

  lemma OpensNow(s: State)
    requires Opens(s)
    ensures CanOpen(s)
  {
    hide Opens;
    assert Steps(s, [], s);
  }

  lemma CommittedOpens(s: State, a: Action)
    requires Reachable(s) && Intact(s) && SelectAction(a) && SelectEnabled(s, a)
    requires Reachable(ApplySelect(s, a)) && Safe(ApplySelect(s, a))
    ensures Opens(ApplySelect(s, a))
  {
    hide Intact, SelectEnabled, ApplySelect, Opens, KeyFileIntact, NoPending, JournalInv, ReceiptInv, PendingInv,
      SelectorInv, Safe;
    var s' := ApplySelect(s, a);
    SelectMovesSelector(s, a);
    SelectKeepsIntact(s, a);
    SelectKeepsKeys(s, a);
    SelectPending(s, a);
    OpensFromParts(s');
  }

  /** Whatever selection an intact store commits to, it opens under it. */
  lemma CommitOpens(s: State, a: Action)
    requires Sound(s) && Intact(s) && SelectAction(a) && SelectEnabled(s, a)
    ensures CanOpen(s)
  {
    hide Sound, Intact, SelectEnabled, ApplySelect, CanOpen, Opens, Reachable, PlanInv, Safe;
    assert Enabled(s, a) && Apply(s, a) == ApplySelect(s, a);
    hide Enabled, Apply;
    SoundNow(s);
    SoundStep(s, a);
    SoundNow(Apply(s, a));
    CommittedOpens(s, a);
    OpensNow(Apply(s, a));
    OpensAfter(s, a);
  }

  predicate Finishable(s: State, o: OpId) {
    && o in s.ops && s.ops[o].cand.Some?
    && (s.ops[o].cand.value in s.keyFiles ==> s.keyFiles[s.ops[o].cand.value].Full?)
  }

  lemma CurrentIsIntact(s: State, o: OpId)
    requires Sound(s) && OpCurrent(s, o)
    ensures Intact(s) && OpPlan(s, o) && SelectorInv(s) && Safe(s)
  {
    SoundNow(s);
    KnownIffIntact(s);
    assert Pending(s, o);
    hide Known, Intact, OpPlan, Safe, JournalInv, ReceiptInv;
  }

  lemma FinishFresh(s: State, o: OpId)
    requires Sound(s) && OpCurrent(s, o) && Finishable(s, o) && s.ops[o].kind != Restore
    ensures CanOpen(s)
  {
    CurrentIsIntact(s, o);
    hide Sound, Known, Intact, Drifted, CanOpen, NothingStored, DigestOf, Safe;
    var cand := s.ops[o].cand.value;
    var key := if cand in s.keyFiles then s.keyFiles[cand].key else 0;
    var a := if s.ops[o].kind == Initialize then CommitInitialize(o, key) else CommitReset(o, key);
    assert SelectAction(a) && SelectEnabled(s, a);
    CommitOpens(s, a);
  }

  lemma FinishAdoption(s: State, o: OpId)
    requires Sound(s) && OpCurrent(s, o) && Finishable(s, o) && s.ops[o].kind == Restore && s.ops[o].purpose == Adoption
    ensures CanOpen(s)
  {
    CurrentIsIntact(s, o);
    hide Sound, Known, Intact, Drifted, CanOpen, DigestOf, Decrypts;
    var key := s.sel.check.value;
    var cand := s.ops[o].cand.value;
    if cand in s.keyFiles { assert Holds(s, s.ops[o], s.keyFiles[cand].key); }
    var a := CommitAdoption(o, key);
    assert SelectAction(a) && SelectEnabled(s, a);
    CommitOpens(s, a);
  }

  lemma RestoringKey(s: State, o: OpId) returns (key: Key)
    requires Sound(s) && OpCurrent(s, o) && Finishable(s, o) && s.ops[o].kind == Restore && s.ops[o].purpose == Legacy
    ensures RestoreKey(s, key, Absent) && CandidateKey(s, o, key)
  {
    CurrentIsIntact(s, o);
    hide Sound, Known, Intact, Drifted, DigestOf, Decrypts;
    var cand := s.ops[o].cand.value;
    if cand in s.keyFiles {
      key := s.keyFiles[cand].key;
      assert Holds(s, s.ops[o], key);
    } else if Selected(s) {
      key := s.sel.check.value;
    } else {
      key :| Decrypts(s, key);
    }
  }

  lemma FinishRestore(s: State, o: OpId)
    requires Sound(s) && OpCurrent(s, o) && Finishable(s, o) && s.ops[o].kind == Restore && s.ops[o].purpose == Legacy
    ensures CanOpen(s)
  {
    var key := RestoringKey(s, o);
    CurrentIsIntact(s, o);
    var resume := ResumeRestore(o, key);
    var s1 := s.(restores := s.restores + {RestoreCall(key, s.sel.gen, s.sel.rev)});
    assert Enabled(s, resume) && Apply(s, resume) == s1 by { hide Known, DigestOf, Decrypts, Intact, OpPlan; }
    SameDigest(s, s1);
    SameStore(s, s1);
    hide Sound, Intact, Drifted, CanOpen, DigestOf, OpPlan, Safe, Enabled, Apply, RestoreKey;
    SoundStep(s, resume);
    SoundNow(s1);
    KnownIffIntact(s1);
    assert Decrypts(s1, key) by { SameDecrypts(s, s1, key); }
    hide Known, Decrypts, Reachable;
    var a := CommitRestore(o, RestoreCall(key, s.sel.gen, s.sel.rev));
    assert SelectAction(a) && SelectEnabled(s1, a);
    CommitOpens(s1, a);
    OpensAfter(s, resume);
  }

  lemma SameDecrypts(s: State, s': State, key: Key)
    requires RestoreKey(s, key, Absent) && s' == s.(restores := s'.restores)
    ensures Decrypts(s', key)
  {
    hide Known;
    SameResets(s, s');
    assert forall t :: LiveToken(s', t) <==> LiveToken(s, t);
  }

  /** A pending operation that is still current can be finished, over a partial candidate too. */
  lemma FinishPending(s: State, o: OpId, o': OpId, k': KeyId)
    requires Sound(s) && OpCurrent(s, o) && FreshIds(s, o', k')
    ensures CanOpen(s)
  {
    CurrentIsIntact(s, o);
    hide Sound, Known, Intact, Drifted, Purposeful, DigestOf, CanOpen, Safe, OpCurrent;
    if Finishable(s, o) {
      FinishCurrent(s, o);
    } else {
      var a := RotateCandidate(o, o', k');
      RotateCurrent(s, o, o', k');
      FinishCurrent(Apply(s, a), o');
      OpensAfter(s, a);
    }
  }

  lemma FinishCurrent(s: State, o: OpId)
    requires Sound(s) && OpCurrent(s, o) && Finishable(s, o)
    ensures CanOpen(s)
  {
    hide Sound, OpCurrent, CanOpen;
    if s.ops[o].kind != Restore { FinishFresh(s, o); }
    else if s.ops[o].purpose == Adoption { FinishAdoption(s, o); }
    else { FinishRestore(s, o); }
  }

  lemma RotateCurrent(s: State, o: OpId, o': OpId, k': KeyId)
    requires Sound(s) && OpCurrent(s, o) && FreshIds(s, o', k') && s.ops[o].cand.Some? && !Finishable(s, o)
    ensures Enabled(s, RotateCandidate(o, o', k'))
    ensures var s' := Apply(s, RotateCandidate(o, o', k')); Sound(s') && OpCurrent(s', o') && Finishable(s', o')
  {
    CurrentIsIntact(s, o);
    var a := RotateCandidate(o, o', k');
    assert Enabled(s, a) by { hide Known, DigestOf, Intact, OpPlan, Sound; }
    var s' := Apply(s, a);
    SoundNow(s);
    RotatedDigest(s, o, o', k');
    hide Sound, Intact, Drifted, Purposeful, JournalInv, ReceiptInv, PendingInv, DigestOf;
    SoundStep(s, a);
    SoundNow(s');
    SameStore(s, s');
    KnownIffIntact(s');
  }

  // ----- Opening a whole store -----

  lemma BegunIsCurrent(s: State, o: OpId, k: KeyId)
    requires Sound(s) && NoPending(s) && Intact(s) && Enabled(s, BeginReset(o, k))
    ensures var s' := Apply(s, BeginReset(o, k)); Sound(s') && OpCurrent(s', o) && Finishable(s', o)
  {
    hide Sound, Intact, Reachable, PlanInv, Safe, DigestOf, Known;
    var a := BeginReset(o, k);
    var s' := Apply(s, a);
    NewRowDigest(s, s', o, k);
    SameStore(s, s');
    SoundStep(s, a);
    SoundNow(s');
    KnownIffIntact(s');
  }

  lemma ResetOpens(s: State, o: OpId, k: KeyId)
    requires Sound(s) && NoPending(s) && Intact(s) && s.sel.source != Environment && FreshIds(s, o, k)
    ensures CanOpen(s)
  {
    hide Sound, Intact, Reachable, PlanInv, Safe, OpCurrent, Finishable, CanOpen, Known, NoPending, FreshIds;
    SoundNow(s);
    KnownIffIntact(s);
    var a := BeginReset(o, k);
    assert Enabled(s, a);
    hide Enabled, Apply;
    BegunIsCurrent(s, o, k);
    FinishCurrent(Apply(s, a), o);
    OpensAfter(s, a);
  }

  /** Under an environment key the store opens as it is; otherwise a reset opens it. */
  lemma IntactOpens(s: State, o: OpId, k: KeyId)
    requires Sound(s) && NoPending(s) && Intact(s) && FreshIds(s, o, k)
    ensures CanOpen(s)
  {
    hide Sound, Intact, Reachable, PlanInv, Safe, Opens, CanOpen, NoPending, FreshIds;
    if s.sel.source == Environment {
      SoundNow(s);
      OpensFromParts(s);
      OpensNow(s);
    } else {
      ResetOpens(s, o, k);
    }
  }

  lemma QuietOpens(s: State, o: OpId, k: KeyId)
    requires Sound(s) && NoPending(s) && Whole(s) && FreshIds(s, o, k)
    ensures CanOpen(s)
  {
    assert FreshIds(Cleared(s), o, k);
    hide Sound, Intact, Reachable, PlanInv, Safe, CanOpen, NoPending, FreshIds, Whole, Known, Steps, Cleared;
    SoundNow(s);
    var clearing := ClearToKnown(s);
    SoundLater(s, clearing, Cleared(s));
    IntactOpens(Cleared(s), o, k);
    OpensLater(s, clearing, Cleared(s));
  }

  /** Revoking a live grant abandons the pending operation, which leaves the store quiet. */
  lemma RevokeOpens(s: State, r: RefId, o: OpId, k: KeyId)
    requires Sound(s) && Whole(s) && LiveGrant(s, r) && FreshIds(s, o, k)
    ensures CanOpen(s)
  {
    var a := RevokeGrant(r);
    var s' := Apply(s, a);
    assert NoPending(s') && Whole(s') && FreshIds(s', o, k) by { hide Sound; }
    hide Sound, Whole, NoPending, FreshIds, CanOpen, Apply;
    SoundStep(s, a);
    QuietOpens(s', o, k);
    OpensAfter(s, a);
  }

  // ----- A stale operation is never finished -----

  /** The store differs from what the operation's digest recorded. */
  ghost predicate Mismatch(s: State, d: Digest) {
    d.blobs != s.payloads.Keys || d.temps != s.temps || d.receipts != s.receipts || d.refs != s.refs
  }

  lemma MismatchExactly(s: State, d: Digest)
    requires Drifted(s, d)
    ensures d == DigestOf(s) <==> !Mismatch(s, d)
  {}

  /** A pending operation whose digest no longer matches, with no call in flight and no grant left to revoke. */
  ghost predicate Stale(s: State, o: OpId) {
    Pending(s, o) && s.frames == map[] && (forall r :: !LiveGrant(s, r)) && Mismatch(s, s.ops[o].digest)
  }

  /** A transaction of the manager goes on only without a pending operation or with a current one. */
  lemma ManagerNeedsCurrent(s: State, a: Action)
    requires (JournalAction(a) || SelectAction(a)) && Enabled(s, a) && !a.DamageKeyFile?
    ensures NoPending(s) || exists o :: OpCurrent(s, o)
  {
    hide Known, DigestOf, Decrypts, NothingStored, FreshIds, CandidateKey, MayHold, NoPending, OpCurrent;
  }

  lemma StaleIsNotCurrent(s: State, o: OpId)
    requires Reachable(s) && PlanInv(s) && Stale(s, o)
    ensures !NoPending(s) && forall p :: !OpCurrent(s, p)
  {
    assert OpPlan(s, o);
    MismatchExactly(s, s.ops[o].digest);
    hide Known, DigestOf, Drifted, Mismatch, Purposeful, JournalInv, ReceiptInv, PendingInv, SelectorInv;
    forall p ensures !OpCurrent(s, p) {
      if OpCurrent(s, p) { OnlyPending(s, o, p); }
    }
  }

  /** The only steps left change no operation: conflict marks, dropped grants, restarts, damaged key files. */
  lemma StaleActions(s: State, o: OpId, a: Action)
    requires Reachable(s) && PlanInv(s) && Stale(s, o) && Enabled(s, a)
    ensures a.MarkConflict? || a.DropGrant? || a.Restart? || a.DamageKeyFile?
  {
    StaleIsNotCurrent(s, o);
    hide Reachable, PlanInv, Known, Mismatch, Decrypts, NoPending, OpCurrent, JournalEnabled, SelectEnabled;
    if (JournalAction(a) || SelectAction(a)) && !a.DamageKeyFile? { ManagerNeedsCurrent(s, a); }
  }

  /** What the steps left do to the store still differs from the digest. */
  lemma StaysMismatched(s: State, d: Digest, a: Action)
    requires Drifted(s, d) && Mismatch(s, d) && Enabled(s, a)
    requires a.MarkConflict? || a.DropGrant? || a.Restart? || a.DamageKeyFile?
    ensures Mismatch(Apply(s, a), d)
  {
    var s' := Apply(s, a);
    if a.MarkConflict? {
      assert s'.receipts[a.t] != d.receipts[a.t];
    } else if a.DropGrant? {
      assert a.r in d.refs && a.r !in s'.refs;
    } else {
      assert s' == s.(caches := s'.caches, frames := s'.frames, keyFiles := s'.keyFiles);
    }
  }

  lemma StaleStep(s: State, o: OpId, a: Action)
    requires Reachable(s) && PlanInv(s) && Stale(s, o) && Enabled(s, a)
    ensures Stale(Apply(s, a), o)
  {
    StaleActions(s, o, a);
    assert OpPlan(s, o);
    StaysMismatched(s, s.ops[o].digest, a);
    hide Reachable, PlanInv, Purposeful, Drifted, Mismatch;
    var s' := Apply(s, a);
    assert s'.ops == s.ops && s'.frames == map[];
    forall r ensures !LiveGrant(s', r) { assert !LiveGrant(s, r); }
  }

  lemma {:induction false} StaleForever(s: State, o: OpId, actions: seq<Action>, s': State)
    requires Reachable(s) && PlanInv(s) && Stale(s, o) && Steps(s, actions, s')
    ensures Stale(s', o)
    decreases |actions|
  {
    hide Reachable, PlanInv, Stale, Enabled, Apply;
    if actions != [] {
      StaleStep(s, o, actions[0]);
      OneStep(s, actions[0]);
      PlanHolds(s, [actions[0]], Apply(s, actions[0]));
      StaleForever(Apply(s, actions[0]), o, actions[1..], s');
    }
  }

  lemma StaleNeverOpens(s: State, o: OpId)
    requires Reachable(s) && PlanInv(s) && Stale(s, o)
    ensures !CanOpen(s)
  {
    hide Reachable, PlanInv, Known, Decrypts, Steps, Mismatch;
    forall actions, s' | Steps(s, actions, s') ensures !Opens(s') {
      StaleForever(s, o, actions, s');
      assert Pending(s', o);
    }
  }

  // ----- Exactly the stores that can be opened again -----

  lemma {:induction false} Above(ids: set<int>) returns (x: int)
    ensures forall y :: y in ids ==> y < x
    decreases |ids|
  {
    if ids == {} {
      x := 0;
    } else {
      var one := Someone(ids);
      var rest := ids - {one};
      x := Above(rest);
      x := if one < x then x else one + 1;
      forall y | y in ids ensures y < x {
        if y != one { assert y in rest; }
      }
    }
  }

  lemma FreshExist(s: State) returns (o: OpId, k: KeyId)
    ensures FreshIds(s, o, k)
  {
    o := Above(s.ops.Keys);
    var candidates := set p | p in s.ops && s.ops[p].cand.Some? :: s.ops[p].cand.value;
    k := Above(s.keyFiles.Keys + candidates);
    forall p | p in s.ops ensures s.ops[p].cand != Some(k) {
      if s.ops[p].cand.Some? { assert s.ops[p].cand.value in candidates; }
    }
  }

  /** Nothing is pending, or what is pending can be finished or abandoned. */
  ghost predicate Unblocked(s: State) {
    NoPending(s) || (exists o :: OpCurrent(s, o)) || (exists r :: LiveGrant(s, r))
  }

  lemma UnblockedOpens(s: State)
    requires Sound(s) && Whole(s) && Unblocked(s)
    ensures CanOpen(s)
  {
    hide Sound, Whole, NoPending, OpCurrent, FreshIds, CanOpen, LiveGrant;
    var o, k := FreshExist(s);
    if NoPending(s) {
      QuietOpens(s, o, k);
    } else if exists p :: OpCurrent(s, p) {
      var p :| OpCurrent(s, p);
      FinishPending(s, p, o, k);
    } else {
      var r :| LiveGrant(s, r);
      RevokeOpens(s, r, o, k);
    }
  }

  lemma BlockedIsStale(s: State) returns (o: OpId)
    requires Reachable(s) && PlanInv(s) && Whole(s) && s.frames == map[] && !Unblocked(s)
    ensures Stale(s, o)
  {
    o :| Pending(s, o);
    KnownIffIntact(s);
    assert OpPlan(s, o) && Intact(s) && !OpCurrent(s, o);
    MismatchExactly(s, s.ops[o].digest);
    hide Reachable, PlanInv, Whole, Known, Drifted, Mismatch, DigestOf, Purposeful;
  }

  /** Once every process has stopped, some continuation opens the store iff nothing was left over or missing, and
      a pending operation, if there is one, still matches the store or a live grant can be revoked to abandon it. */
  lemma OpenableExactly(s0: State, actions: seq<Action>, s: State)
    requires Init(s0) && AlwaysSafe(s0) && Steps(s0, actions, s) && s.frames == map[] && s.caches == map[]
    ensures CanOpen(s) <==> Whole(s) && Unblocked(s)
  {
    InitIsSound(s0);
    hide Init, AlwaysSafe, Sound, Steps, Whole, Unblocked, CanOpen, Reachable, PlanInv, Safe, Stale;
    SoundLater(s0, actions, s);
    SoundNow(s);
    if !Whole(s) {
      StoppedStoreExactly(s0, actions, s);
      UnknownNeverOpens(s);
    } else if Unblocked(s) {
      UnblockedOpens(s);
    } else {
      var o := BlockedIsStale(s);
      StaleNeverOpens(s, o);
    }
  }

  lemma InitIsSound(s0: State)
    requires Init(s0) && AlwaysSafe(s0)
    ensures Sound(s0)
  {
    InitIsReachable(s0);
    hide Reachable, AlwaysSafe;
  }

  lemma UnknownNeverOpens(s: State)
    requires !CanBecomeKnown(s)
    ensures !CanOpen(s)
  {
    hide Known, Steps;
  }
}
