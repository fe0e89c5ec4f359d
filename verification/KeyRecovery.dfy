/** First-time initialisation of the key ledger converges from every crash point. */
module KeyRecovery {
  import opened Common
  import opened KeyLedger
  import opened KeySafety

  // ----- First-time initialisation -----

  /** Nothing stored, nothing selected, and at most an initialisation journalled and unfinished. */
  ghost predicate Initializing(s: State) {
    && s.sel.source == Unselected
    && s.receipts == map[] && s.payloads == map[] && s.temps == {} && s.retired == {} && s.refs == map[]
    && (forall o :: o in s.ops ==> s.ops[o].kind == Initialize && s.ops[o].purpose == Legacy && s.ops[o].cand.Some?)
    && (NoPending(s) ==> s.ops == map[] && s.keyFiles == map[])
    && (forall o :: Pending(s, o) ==>
          s.ops[o].gen == s.sel.gen && s.ops[o].rev == s.sel.rev && s.ops[o].digest == DigestOf(s))
    && JournalInv(s)
  }

  lemma InitializingIsKnown(s: State)
    requires Initializing(s)
    ensures Known(s) && NothingStored(s)
  {
    forall k | k in s.keyFiles ensures KeyAccounted(s, k) { KeyFileHasOneRole(s, k); }
  }

  /** The steps `startup` takes, and the crashes that can interrupt them. */
  predicate StartupAction(a: Action) {
    a.BeginInitialize? || a.RotateCandidate? || a.CreateKeyFile? || a.CommitInitialize? || a.Restart?
  }

  lemma DigestIgnoresCandidate(s: State, s': State, o: OpId)
    requires JournalInv(s) && Pending(s, o) && s.ops[o].cand.Some?
    requires s'.ops == s.ops && s'.sel == s.sel && s'.receipts == s.receipts
    requires s'.payloads == s.payloads && s'.temps == s.temps && s'.refs == s.refs
    requires s'.keyFiles.Keys == s.keyFiles.Keys + {s.ops[o].cand.value}
    ensures DigestOf(s') == DigestOf(s)
  {
    assert forall k :: CandidateIn(s', k, Preparing) <==> CandidateIn(s, k, Preparing);
    assert CandidateIn(s', s.ops[o].cand.value, Preparing);
    assert DigestOf(s').keys == DigestOf(s).keys;
  }

  lemma PendingIs(s: State, o: OpId, k: KeyId)
    requires JournalInv(s) && Pending(s, o)
    ensures CandidateIn(s, k, Preparing) <==> s.ops[o].cand == Some(k)
  {
    forall p | p in s.ops && s.ops[p].state == Preparing && s.ops[p].cand == Some(k) ensures p == o {
      assert Pending(s, p);
    }
  }

  lemma BeginDigest(s: State, o: OpId, k: KeyId)
    requires Initializing(s) && Enabled(s, BeginInitialize(o, k))
    ensures Initializing(Apply(s, BeginInitialize(o, k)))
  {
    var s' := Apply(s, BeginInitialize(o, k));
    NewOpKeeps(s, s', o, s'.ops[o]);
    assert DigestOf(s').keys == DigestOf(s).keys;
  }

  /** The row a rotation journals carries the digest of the store as the rotation leaves it. */
  lemma RotatedDigest(s: State, o: OpId, o': OpId, k': KeyId)
    requires JournalInv(s) && Enabled(s, RotateCandidate(o, o', k'))
    ensures var s' := Apply(s, RotateCandidate(o, o', k'));
      Pending(s', o') && s'.ops[o'].digest == DigestOf(s') && (forall p :: Pending(s', p) ==> p == o')
  {
    hide Known, JournalInv;
    var s' := Apply(s, RotateCandidate(o, o', k'));
    RotateKeeps(s, o, o', k');
    var abandoned := s.(ops := WithOp(s, o, Abandoned));
    assert Pending(s', o');
    forall p | Pending(s', p) ensures p == o' { assert JournalInv(s'); OnlyPending(s', p, o'); }
    forall k | k in s.keyFiles ensures !CandidateIn(abandoned, k, Preparing) && !CandidateIn(s', k, Preparing) {
      PendingIs(s', o', k);
      CandidatesAfterClose(s, o, Abandoned, abandoned.ops, k, Preparing);
      PendingIs(s, o, k);
    }
    assert DigestOf(s').keys == DigestOf(abandoned).keys;
  }

  lemma RotateDigest(s: State, o: OpId, o': OpId, k': KeyId)
    requires Initializing(s) && Enabled(s, RotateCandidate(o, o', k'))
    ensures Initializing(Apply(s, RotateCandidate(o, o', k')))
  {
    hide Known, JournalInv, DigestOf;
    RotateKeeps(s, o, o', k');
    RotatedDigest(s, o, o', k');
  }

  lemma OnlyPending(s: State, o: OpId, p: OpId)
    requires JournalInv(s) && Pending(s, o) && Pending(s, p)
    ensures o == p
  {}

  /** Every interrupted or completed piece of `startup` leaves initialisation resumable or done. */
  lemma InitializingStep(s: State, a: Action)
    requires Initializing(s) && SelectorInv(s) && Enabled(s, a) && StartupAction(a)
    ensures Initializing(Apply(s, a)) || Apply(s, a).sel.source == Managed
  {
    hide Known, DigestOf, JournalInv;
    var s' := Apply(s, a);
    match a
    case BeginInitialize(o, k) => BeginDigest(s, o, k);
    case RotateCandidate(o, o', k') => RotateDigest(s, o, o', k');
    case CreateKeyFile(o, key, complete) =>
      CreateInitializing(s, o, key, complete);
    case CommitInitialize(o, key) =>
    case Restart(p) => RestartInitializing(s, p);
  }

  lemma RestartInitializing(s: State, p: Proc)
    requires Initializing(s)
    ensures Initializing(Apply(s, Restart(p)))
  {
    hide Known, DigestOf, JournalInv;
    var s' := Apply(s, Restart(p));
    SameJournalKeeps(s, s');
    SameDigest(s, s');
    assert NoPending(s') ==> NoPending(s);
    assert forall o :: Pending(s', o) ==> Pending(s, o);
  }

  lemma CreateInitializing(s: State, o: OpId, key: Key, complete: bool)
    requires Initializing(s) && Enabled(s, CreateKeyFile(o, key, complete))
    ensures Initializing(Apply(s, CreateKeyFile(o, key, complete)))
  {
    hide Known, DigestOf, JournalInv;
    var s' := Apply(s, CreateKeyFile(o, key, complete));
    CreateKeeps(s, o, key, complete);
    DigestIgnoresCandidate(s, s', o);
    assert Pending(s, o) && Pending(s', o);
    forall p | Pending(s', p) ensures p == o { OnlyPending(s', p, o); }
  }

  lemma SameDigest(s: State, s': State)
    requires s'.sel == s.sel && s'.ops == s.ops && s'.receipts == s.receipts && s'.payloads == s.payloads
    requires s'.temps == s.temps && s'.keyFiles == s.keyFiles && s'.refs == s.refs
    ensures DigestOf(s') == DigestOf(s)
  {
    assert forall k :: CandidateIn(s', k, Preparing) <==> CandidateIn(s, k, Preparing);
    assert DigestOf(s').keys == DigestOf(s).keys;
  }

  ghost function PendingOp(s: State): OpId
    requires !NoPending(s)
    ensures Pending(s, PendingOp(s))
  {
    var o :| o in s.ops && s.ops[o].state == Preparing; o
  }

  /** One fault-free `startup` without an environment key, its three transactions in order. */
  ghost function Startup(s: State, o: OpId, k: KeyId, o': OpId, k': KeyId, key: Key): seq<Action>
    requires Initializing(s)
  {
    var prepare := if NoPending(s) then [BeginInitialize(o, k)] else [];
    var pending := if NoPending(s) then o else PendingOp(s);
    var candidate := if NoPending(s) then k else s.ops[pending].cand.value;
    if candidate in s.keyFiles && s.keyFiles[candidate] == Partial
    then prepare + [RotateCandidate(pending, o', k'), CommitInitialize(o', key)]
    else if candidate in s.keyFiles then prepare + [CommitInitialize(pending, s.keyFiles[candidate].key)]
    else prepare + [CommitInitialize(pending, key)]
  }

  lemma PendingIsCurrent(s: State, o: OpId)
    requires Initializing(s) && Pending(s, o)
    ensures OpCurrent(s, o) && NothingStored(s)
  {
    InitializingIsKnown(s);
  }

  lemma CommitMakesReady(s: State, o: OpId, key: Key)
    requires Initializing(s) && Pending(s, o) && CandidateKey(s, o, key)
    ensures Enabled(s, CommitInitialize(o, key))
    ensures var s' := Apply(s, CommitInitialize(o, key)); Ready(s', Absent) && s'.sel.source == Managed
  {
    hide Known, JournalInv, DigestOf, NothingStored, KeyAccounted;
    PendingIsCurrent(s, o);
    CommittedIsKnown(s, o, key);
    NothingLeftPending(s, o, key);
  }

  lemma NothingLeftPending(s: State, o: OpId, key: Key)
    requires Initializing(s) && Pending(s, o)
    ensures NoPending(CommitManaged(s, o, key, s.sel.gen + 1, s.receipts))
  {
    hide JournalInv, DigestOf;
    var s' := CommitManaged(s, o, key, s.sel.gen + 1, s.receipts);
    forall p | p in s'.ops ensures s'.ops[p].state != Preparing {
      if Pending(s, p) { OnlyPending(s, o, p); }
    }
  }

  lemma CommittedIsKnown(s: State, o: OpId, key: Key)
    requires Initializing(s) && Pending(s, o)
    ensures Known(CommitManaged(s, o, key, s.sel.gen + 1, s.receipts))
  {
    CommitJournal(s, o, key);
    hide JournalInv, DigestOf, KeyAccounted;
    var s' := CommitManaged(s, o, key, s.sel.gen + 1, s.receipts);
    forall k | k in s'.keyFiles ensures KeyAccounted(s', k) { KeyFileHasOneRole(s', k); }
  }

  lemma CommitJournal(s: State, o: OpId, key: Key)
    requires Initializing(s) && Pending(s, o)
    ensures JournalInv(CommitManaged(s, o, key, s.sel.gen + 1, s.receipts))
  {
    var bare := s.(sel := Selection(Unselected, 0, s.sel.rev, None, None));
    assert SameJournal(s.(sel := s.sel.(keyId := None)), bare);
    assert forall k, state :: CandidateIn(bare, k, state) <==> CandidateIn(s, k, state);
    assert forall k :: !SelectedKey(bare, k) && !SelectedKey(s, k);
    assert forall p :: Pending(bare, p) <==> Pending(s, p);
    assert JournalInv(bare);
    CommitKeeps(bare, o, key, s.sel.gen + 1, s.receipts);
    var wanted := CommitManaged(s, o, key, s.sel.gen + 1, s.receipts);
    SameJournalKeeps(CommitManaged(bare, o, key, s.sel.gen + 1, s.receipts), wanted);
  }

  lemma OneStep(s: State, a: Action)
    requires Enabled(s, a)
    ensures Steps(s, [a], Apply(s, a))
  {
    hide Enabled, Apply;
    assert Steps(Apply(s, a), [], Apply(s, a));
    assert [a][1..] == [];
  }

  /** With a journalled candidate, finishing `startup` commits a ready managed key. */
  lemma FinishStartup(s: State, pending: OpId, o': OpId, k': KeyId, key: Key, rest: seq<Action>) returns (s': State)
    requires Initializing(s) && Pending(s, pending) && FreshIds(s, o', k')
    requires var candidate := s.ops[pending].cand.value;
      rest == if candidate in s.keyFiles && s.keyFiles[candidate] == Partial
              then [RotateCandidate(pending, o', k'), CommitInitialize(o', key)]
              else if candidate in s.keyFiles then [CommitInitialize(pending, s.keyFiles[candidate].key)]
              else [CommitInitialize(pending, key)]
    ensures Steps(s, rest, s') && Ready(s', Absent) && s'.sel.source == Managed
  {
    hide Known, DigestOf, JournalInv, Ready;
    var candidate := s.ops[pending].cand.value;
    PendingIsCurrent(s, pending);
    if candidate in s.keyFiles && s.keyFiles[candidate] == Partial {
      var rotate := RotateCandidate(pending, o', k');
      RotateDigest(s, pending, o', k');
      var mid := Apply(s, rotate);
      CommitMakesReady(mid, o', key);
      s' := Apply(mid, CommitInitialize(o', key));
      OneStep(s, rotate);
      OneStep(mid, CommitInitialize(o', key));
      StepsAppend(s, [rotate], mid, [CommitInitialize(o', key)], s');
      assert [rotate] + [CommitInitialize(o', key)] == rest;
    } else {
      var chosen := if candidate in s.keyFiles then s.keyFiles[candidate].key else key;
      CommitMakesReady(s, pending, chosen);
      s' := Apply(s, CommitInitialize(pending, chosen));
      OneStep(s, CommitInitialize(pending, chosen));
    }
  }

  /** From every crash point of first-time initialisation one fault-free `startup` ends ready. */
  lemma StartupConverges(s: State, o: OpId, k: KeyId, o': OpId, k': KeyId, key: Key) returns (s': State)
    requires Initializing(s)
    requires FreshIds(s, o, k) && FreshIds(s, o', k') && o != o' && k != k'
    ensures Steps(s, Startup(s, o, k, o', k', key), s')
    ensures Ready(s', Absent) && s'.sel.source == Managed
  {
    hide Known, DigestOf, JournalInv, Ready;
    if NoPending(s) {
      InitializingIsKnown(s);
      BeginDigest(s, o, k);
      var begun := Apply(s, BeginInitialize(o, k));
      OneStep(s, BeginInitialize(o, k));
      s' := FinishStartup(begun, o, o', k', key, [CommitInitialize(o, key)]);
      StepsAppend(s, [BeginInitialize(o, k)], begun, [CommitInitialize(o, key)], s');
    } else {
      s' := FinishStartup(s, PendingOp(s), o', k', key, Startup(s, o, k, o', k', key));
    }
  }

  /** First-time initialisation is under way and resumable, or has produced a ready managed key. */
  ghost predicate Booting(s: State) {
    (Initializing(s) && SelectorInv(s)) || (Ready(s, Absent) && s.sel.source == Managed)
  }

  lemma ReadyAfterRestart(s: State, p: Proc)
    requires Ready(s, Absent)
    ensures Ready(Apply(s, Restart(p)), Absent)
  {
    var s' := Apply(s, Restart(p));
    assert ResetSeen(s') == ResetSeen(s);
    assert forall k, state :: CandidateIn(s', k, state) <==> CandidateIn(s, k, state);
    assert forall k :: SelectedKey(s', k) <==> SelectedKey(s, k);
    assert forall t :: LiveToken(s', t) <==> LiveToken(s, t);
  }

  lemma OnlyRestartAfterReady(s: State, a: Action)
    requires Ready(s, Absent) && s.sel.source == Managed && Enabled(s, a) && StartupAction(a)
    ensures a.Restart?
  {
    hide Known, DigestOf, Decrypts, NothingStored, CandidateKey;
  }

  lemma SelectorKeptUntilCommit(s: State, a: Action)
    requires Enabled(s, a) && StartupAction(a) && !a.CommitInitialize?
    ensures Apply(s, a).sel == s.sel
  {
    hide Known, DigestOf, NothingStored, OpCurrent;
  }

  lemma BootStep(s: State, a: Action)
    requires Booting(s) && Enabled(s, a) && StartupAction(a)
    ensures Booting(Apply(s, a))
  {
    if Ready(s, Absent) && s.sel.source == Managed {
      OnlyRestartAfterReady(s, a);
      ReadyAfterRestart(s, a.p);
      assert Apply(s, a).sel == s.sel;
    } else if a.CommitInitialize? {
      assert Pending(s, a.o) && CandidateKey(s, a.o, a.key);
      hide Initializing, Ready, Enabled, Apply;
      CommitMakesReady(s, a.o, a.key);
    } else {
      hide Initializing, Ready, Enabled, Apply;
      InitializingStep(s, a);
      SelectorKeptUntilCommit(s, a);
      InitializingIsUnselected(s);
    }
  }

  lemma InitializingIsUnselected(s: State)
    requires Initializing(s)
    ensures s.sel.source == Unselected
  {}

  lemma {:induction false} BootingHolds(s: State, actions: seq<Action>, s': State)
    requires Booting(s) && Steps(s, actions, s') && forall i :: 0 <= i < |actions| ==> StartupAction(actions[i])
    ensures Booting(s')
    decreases |actions|
  {
    hide Booting, Enabled, Apply, StartupAction;
    if actions != [] {
      BootStep(s, actions[0]);
      BootingHolds(Apply(s, actions[0]), actions[1..], s');
    }
  }

  /** Any history of interrupted startups of an empty store is ready, or one fault-free startup away from it. */
  lemma InitializationConverges(s0: State, actions: seq<Action>, s: State, o: OpId, k: KeyId, o': OpId, k': KeyId, key: Key)
    returns (s': State)
    requires Init(s0) && s0.receipts == map[] && s0.payloads == map[] && s0.temps == {} && s0.refs == map[]
    requires Steps(s0, actions, s) && forall i :: 0 <= i < |actions| ==> StartupAction(actions[i])
    requires FreshIds(s, o, k) && FreshIds(s, o', k') && o != o' && k != k'
    ensures Ready(s', Absent) && s'.sel.source == Managed
    ensures s' == s || (Initializing(s) && Steps(s, Startup(s, o, k, o', k', key), s'))
  {
    assert Booting(s0);
    hide Steps, Enabled, Apply, Ready, Initializing, Init;
    BootingHolds(s0, actions, s);
    if Ready(s, Absent) && s.sel.source == Managed { s' := s; } else { s' := StartupConverges(s, o, k, o', k', key); }
  }
}
