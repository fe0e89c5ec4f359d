/**
 The career of a secret: reserved, sealed, written, placed, staged, claimed, active, in that order and by those
 calls only; how it ends; and that every open store can take one all the way into a configuration field.
 */
module KeyCareer {
  import opened Common
  import opened KeyLedger
  import opened KeySafety
  import opened KeyRecovery
  import opened KeyReopen

  // ----- One step -----

  /** What a step may do to one receipt: each state is entered from the one before it, by its own call. */
  predicate Moves(a: Action, t: Token, from: ReceiptState, to: ReceiptState) {
    match to
    case Recoverable => from == Recoverable
    case Staged => from == Staged || (from == Recoverable && a == FinalizeStage(t))
    case Claimed => from == Claimed || (from == Staged && a.ClaimReceipt? && a.t == t)
    case Active => from == Active || (from == Claimed && a.ActivateReceipt? && a.t == t)
    case CasConflict => from == CasConflict || (from in {Recoverable, Staged, Claimed} && a == MarkConflict(t))
    case OrphanState => from == OrphanState || (from != Tombstoned && a.MarkOrphan? && a.t == t)
    case DeleteFailed => from == DeleteFailed || (a.DeleteReceipt? && a.t == t && !a.unlinked)
    case Tombstoned => from == Tombstoned || (a.DeleteReceipt? && a.t == t && a.unlinked) || a.CommitReset?
  }

  /** The call that names a receipt does move it. */
  predicate Arrives(a: Action, t: Token, to: ReceiptState) {
    && (a == FinalizeStage(t) ==> to == Staged)
    && (a.ClaimReceipt? && a.t == t ==> to == Claimed)
    && (a.ActivateReceipt? && a.t == t ==> to == Active)
    && (a == MarkConflict(t) ==> to == CasConflict)
    && (a.MarkOrphan? && a.t == t ==> to == OrphanState)
    && (a.DeleteReceipt? && a.t == t ==> to == if a.unlinked then Tombstoned else DeleteFailed)
    && (a.CommitReset? ==> to == Tombstoned)
  }

  /** Receipts appear by reservation only, recoverable, and never disappear. */
  ghost predicate Career(s: State, a: Action, s': State) {
    && (forall t :: t in s.receipts ==>
          && t in s'.receipts
          && Moves(a, t, s.receipts[t].state, s'.receipts[t].state) && Arrives(a, t, s'.receipts[t].state))
    && (forall t :: t in s'.receipts && t !in s.receipts ==>
          a.ReserveReceipt? && a.t == t && s'.receipts[t] == Receipt(Recoverable, s.sel.gen))
    && (a.ReserveReceipt? ==> a.t !in s.receipts && a.t in s'.receipts)
  }

  lemma StageCareer(s: State, a: Action)
    requires StageAction(a) && StageEnabled(s, a)
    ensures Career(s, a, ApplyStage(s, a))
  {
    hide StoreOpen, Ready;
  }

  lemma ReceiptMoves(s: State, a: Action)
    requires ReceiptAction(a) && ReceiptEnabled(s, a) && a.t in s.receipts && a.t in ApplyReceipt(s, a).receipts
    ensures var from, to := s.receipts[a.t].state, ApplyReceipt(s, a).receipts[a.t].state;
      Moves(a, a.t, from, to) && Arrives(a, a.t, to)
  {
    hide StoreOpen, Moves, Arrives;
    if a.FinalizeStage? || a.ClaimReceipt? || a.ActivateReceipt? { ReceiptRises(s, a); }
    else if a.DeleteReceipt? { ReceiptDeleted(s, a); }
    else { ReceiptMarked(s, a); }
  }

  lemma ReceiptRises(s: State, a: Action)
    requires (a.FinalizeStage? || a.ClaimReceipt? || a.ActivateReceipt?) && ReceiptEnabled(s, a)
    requires a.t in s.receipts && a.t in ApplyReceipt(s, a).receipts
    ensures var from, to := s.receipts[a.t].state, ApplyReceipt(s, a).receipts[a.t].state;
      Moves(a, a.t, from, to) && Arrives(a, a.t, to)
  {
    hide StoreOpen;
  }

  lemma ReceiptDeleted(s: State, a: Action)
    requires a.DeleteReceipt? && ReceiptEnabled(s, a) && a.t in s.receipts && a.t in ApplyReceipt(s, a).receipts
    ensures var from, to := s.receipts[a.t].state, ApplyReceipt(s, a).receipts[a.t].state;
      Moves(a, a.t, from, to) && Arrives(a, a.t, to)
  {
    hide StoreOpen;
  }

  lemma ReceiptMarked(s: State, a: Action)
    requires (a.MarkConflict? || a.UnlinkThenCrash? || a.MarkOrphan?) && ReceiptEnabled(s, a)
    requires a.t in s.receipts && a.t in ApplyReceipt(s, a).receipts
    ensures var from, to := s.receipts[a.t].state, ApplyReceipt(s, a).receipts[a.t].state;
      Moves(a, a.t, from, to) && Arrives(a, a.t, to)
  {
    hide StoreOpen;
  }

  lemma ReceiptCareer(s: State, a: Action)
    requires ReceiptAction(a) && ReceiptEnabled(s, a)
    ensures Career(s, a, ApplyReceipt(s, a))
  {
    hide ReceiptEnabled, ApplyReceipt;
    ReceiptShape(s, a);
    ReceiptMoves(s, a);
  }

  lemma JournalCareer(s: State, a: Action)
    requires JournalAction(a) && JournalEnabled(s, a)
    ensures ApplyJournal(s, a).receipts == s.receipts
  {
    hide Known, DigestOf, Decrypts, NothingStored, NoPending, FreshIds, MayHold;
  }

  lemma ReferenceCareer(s: State, a: Action)
    requires ReferenceAction(a) && ReferenceEnabled(s, a)
    ensures ApplyReference(s, a).receipts == s.receipts
  {
    hide StoreOpen, NoPending;
  }

  lemma SelectCareer(s: State, a: Action)
    requires SelectAction(a) && SelectEnabled(s, a)
    ensures Career(s, a, ApplySelect(s, a))
  {
    hide Known, DigestOf, Decrypts, NothingStored, NoPending, CandidateKey;
  }

  lemma CareerStep(s: State, a: Action)
    requires Enabled(s, a)
    ensures Career(s, a, Apply(s, a))
  {
    hide StageEnabled, ReceiptEnabled, ReferenceEnabled, JournalEnabled, SelectEnabled,
      ApplyStage, ApplyReceipt, ApplyReference, ApplyJournal, ApplySelect;
    if StageAction(a) { StageCareer(s, a); }
    else if ReceiptAction(a) { ReceiptCareer(s, a); }
    else if ReferenceAction(a) { ReferenceCareer(s, a); }
    else if JournalAction(a) { JournalCareer(s, a); }
    else { SelectCareer(s, a); }
  }

  // ----- Whole runs -----

  /** The calls and file writes a secret goes through on its way to being active. */
  datatype Milestone = Reserve | Seal | Write | Place | Stage | Claim | Activate

  predicate Passes(a: Action, t: Token, m: Milestone) {
    match m
    case Reserve => a.ReserveReceipt? && a.t == t
    case Seal => a == SealPayload(t)
    case Write => a == WriteTemp(t)
    case Place => a == PlacePayload(t)
    case Stage => a == FinalizeStage(t)
    case Claim => a.ClaimReceipt? && a.t == t
    case Activate => a.ActivateReceipt? && a.t == t
  }

  function Before(m: Milestone): Milestone
    requires m != Reserve
  {
    match m
    case Seal => Reserve
    case Write => Seal
    case Place => Write
    case Stage => Place
    case Claim => Stage
    case Activate => Claim
  }

  /** Milestone `m` was passed before step `upTo` of the run, and every earlier one before it, in order. */
  ghost predicate Walked(actions: seq<Action>, t: Token, m: Milestone, upTo: nat)
    requires upTo <= |actions|
    decreases upTo
  {
    exists k :: 0 <= k < upTo && Passes(actions[k], t, m) && (m != Reserve ==> Walked(actions, t, Before(m), k))
  }

  lemma {:induction false} WalkedExtended(actions: seq<Action>, more: seq<Action>, t: Token, m: Milestone, upTo: nat)
    requires upTo <= |actions| && Walked(actions, t, m, upTo)
    ensures Walked(actions + more, t, m, upTo)
    decreases upTo
  {
    var k :| 0 <= k < upTo && Passes(actions[k], t, m) && (m != Reserve ==> Walked(actions, t, Before(m), k));
    if m != Reserve { WalkedExtended(actions, more, t, Before(m), k); }
    assert (actions + more)[k] == actions[k];
  }

  lemma {:induction false} WalkedFurther(actions: seq<Action>, t: Token, m: Milestone, upTo: nat, further: nat)
    requires upTo <= further <= |actions| && Walked(actions, t, m, upTo)
    ensures Walked(actions, t, m, further)
  {}

  function ReceiptAt(state: ReceiptState): Option<Milestone> {
    match state
    case Recoverable => Some(Reserve)
    case Staged => Some(Stage)
    case Claimed => Some(Claim)
    case Active => Some(Activate)
    case _ => None
  }

  function PhaseAt(phase: Phase): Milestone {
    match phase
    case Reserved => Reserve
    case Sealed(_) => Seal
    case Written(_) => Write
    case Placed => Place
  }

  /** What a step may do to a stage call in flight, and what finalising it needs. */
  ghost predicate Calls(s: State, a: Action, s': State) {
    && (forall t :: t in s'.frames ==>
          var to := PhaseAt(s'.frames[t].phase);
          if t in s.frames then
            to == PhaseAt(s.frames[t].phase) || (Passes(a, t, to) && to != Reserve && PhaseAt(s.frames[t].phase) == Before(to))
          else a.ReserveReceipt? && a.t == t && to == Reserve)
    && (a.FinalizeStage? ==> a.t in s.frames && PhaseAt(s.frames[a.t].phase) == Place)
  }

  lemma StageCalls(s: State, a: Action)
    requires StageAction(a) && StageEnabled(s, a)
    ensures Calls(s, a, ApplyStage(s, a))
  {
    hide StoreOpen, Ready;
  }

  lemma CallsStep(s: State, a: Action)
    requires Enabled(s, a)
    ensures Calls(s, a, Apply(s, a))
  {
    hide StageEnabled, ReceiptEnabled, ReferenceEnabled, JournalEnabled, SelectEnabled,
      ApplyStage, ApplyReceipt, ApplyReference, ApplyJournal, ApplySelect;
    if StageAction(a) { StageCalls(s, a); }
    else if ReceiptAction(a) { ReceiptShape(s, a); FinalizesPlaced(s, a); }
    else if ReferenceAction(a) { ReferenceGone(s, a); }
    else if JournalAction(a) { JournalGone(s, a); }
    else { SelectGone(s, a); }
  }

  lemma FinalizesPlaced(s: State, a: Action)
    requires ReceiptAction(a) && ReceiptEnabled(s, a)
    ensures a.FinalizeStage? ==> a.t in s.frames && s.frames[a.t].phase == Placed
  {
    hide StoreOpen;
  }

  /** What the run so far must have done for the state the secret is in. */
  ghost predicate Earned(actions: seq<Action>, s: State, t: Token) {
    && (t in s.receipts && ReceiptAt(s.receipts[t].state).Some? ==>
          Walked(actions, t, ReceiptAt(s.receipts[t].state).value, |actions|))
    && (t in s.frames ==> Walked(actions, t, PhaseAt(s.frames[t].phase), |actions|))
  }

  lemma EarnedStep(actions: seq<Action>, s: State, a: Action, t: Token)
    requires Enabled(s, a) && Earned(actions, s, t)
    ensures Earned(actions + [a], Apply(s, a), t)
  {
    hide Enabled, Apply, Walked, Passes;
    var all, s', n := actions + [a], Apply(s, a), |actions|;
    CareerStep(s, a);
    CallsStep(s, a);
    if t in s'.receipts && ReceiptAt(s'.receipts[t].state).Some? {
      ReceiptEarned(actions, s, a, s', t);
    }
    if t in s'.frames {
      var to := PhaseAt(s'.frames[t].phase);
      if t in s.frames && to == PhaseAt(s.frames[t].phase) { Kept(actions, a, t, to); }
      else {
        if to != Reserve { WalkedExtended(actions, [a], t, Before(to), n); }
        assert Passes(a, t, to) by { PassesReserve(a, t); }
        Attained(actions, a, t, to);
      }
    }
  }

  lemma PassesReserve(a: Action, t: Token)
    ensures a.ReserveReceipt? && a.t == t ==> Passes(a, t, Reserve)
  {}

  lemma Kept(actions: seq<Action>, a: Action, t: Token, m: Milestone)
    requires Walked(actions, t, m, |actions|)
    ensures Walked(actions + [a], t, m, |actions| + 1)
  {
    hide Walked;
    WalkedExtended(actions, [a], t, m, |actions|);
    WalkedFurther(actions + [a], t, m, |actions|, |actions| + 1);
  }

  lemma Attained(actions: seq<Action>, a: Action, t: Token, m: Milestone)
    requires Passes(a, t, m) && (m != Reserve ==> Walked(actions, t, Before(m), |actions|))
    ensures Walked(actions + [a], t, m, |actions| + 1)
  {
    if m != Reserve { WalkedExtended(actions, [a], t, Before(m), |actions|); }
    assert (actions + [a])[|actions|] == a;
  }

  lemma ReceiptEarned(actions: seq<Action>, s: State, a: Action, s': State, t: Token)
    requires Career(s, a, s') && Calls(s, a, s') && Earned(actions, s, t)
    requires t in s'.receipts && ReceiptAt(s'.receipts[t].state).Some?
    ensures Walked(actions + [a], t, ReceiptAt(s'.receipts[t].state).value, |actions| + 1)
  {
    hide Walked;
    var m := ReceiptAt(s'.receipts[t].state).value;
    if t in s.receipts {
      assert Moves(a, t, s.receipts[t].state, s'.receipts[t].state);
      if s.receipts[t].state == s'.receipts[t].state { Kept(actions, a, t, m); }
      else { Attained(actions, a, t, m); }
    } else {
      Attained(actions, a, t, Reserve);
    }
  }

  /** A secret that was not there at the start has gone through every step on its way, in order: reserved, sealed,
      written, placed, staged, claimed, active. */
  lemma {:induction false} WholeCareer(s: State, actions: seq<Action>, s': State, t: Token)
    requires Steps(s, actions, s') && t !in s.receipts && t !in s.frames
    ensures Earned(actions, s', t)
    decreases |actions|
  {
    hide Enabled, Apply, Earned;
    if actions == [] {
      NothingEarned(s, t);
    } else {
      var n := |actions| - 1;
      var mid := LastStep(s, actions, s');
      WholeCareer(s, actions[..n], mid, t);
      EarnedStep(actions[..n], mid, actions[n], t);
      assert actions == actions[..n] + [actions[n]];
    }
  }

  lemma NothingEarned(s: State, t: Token)
    requires t !in s.receipts && t !in s.frames
    ensures Earned([], s, t)
  {}

  lemma {:induction false} LastStep(s: State, actions: seq<Action>, s': State) returns (mid: State)
    requires actions != [] && Steps(s, actions, s')
    ensures Steps(s, actions[..|actions| - 1], mid) && Enabled(mid, actions[|actions| - 1])
    ensures Apply(mid, actions[|actions| - 1]) == s'
    decreases |actions|
  {
    hide Enabled, Apply;
    if |actions| == 1 {
      mid := s;
      assert actions[1..] == [];
    } else {
      var rest := actions[1..];
      mid := LastStep(Apply(s, actions[0]), rest, s');
      assert actions[..|actions| - 1][1..] == rest[..|rest| - 1];
      assert actions[..|actions| - 1][0] == actions[0];
    }
  }

  // ----- Ends of a career -----

  /** Without a stage call for it, a token whose payload is gone never gets one again. */
  ghost predicate Gone(s: State, t: Token) { t in s.receipts && t !in s.payloads && t !in s.frames }

  lemma GoneStep(s: State, a: Action, t: Token)
    requires Gone(s, t) && Enabled(s, a)
    ensures Gone(Apply(s, a), t)
  {
    hide StageEnabled, ReceiptEnabled, ReferenceEnabled, JournalEnabled, SelectEnabled,
      ApplyStage, ApplyReceipt, ApplyReference, ApplyJournal, ApplySelect;
    CareerStep(s, a);
    if StageAction(a) { StageGone(s, a, t); }
    else if ReceiptAction(a) { ReceiptShape(s, a); }
    else if ReferenceAction(a) { ReferenceGone(s, a); }
    else if JournalAction(a) { JournalGone(s, a); }
    else { SelectGone(s, a); }
  }

  lemma StageGone(s: State, a: Action, t: Token)
    requires Gone(s, t) && StageAction(a) && StageEnabled(s, a)
    ensures Gone(ApplyStage(s, a), t)
  {
    hide StoreOpen, Ready;
  }

  lemma ReferenceGone(s: State, a: Action)
    requires ReferenceAction(a) && ReferenceEnabled(s, a)
    ensures ApplyReference(s, a).payloads == s.payloads && ApplyReference(s, a).frames == s.frames
  {
    hide StoreOpen, NoPending;
  }

  lemma JournalGone(s: State, a: Action)
    requires JournalAction(a) && JournalEnabled(s, a)
    ensures ApplyJournal(s, a).payloads == s.payloads && ApplyJournal(s, a).frames == s.frames
  {
    hide Known, DigestOf, Decrypts, NothingStored, NoPending, FreshIds, MayHold;
  }

  lemma SelectGone(s: State, a: Action)
    requires SelectAction(a) && SelectEnabled(s, a)
    ensures ApplySelect(s, a).payloads == s.payloads && ApplySelect(s, a).frames == s.frames
  {
    hide Known, DigestOf, Decrypts, NothingStored, NoPending, CandidateKey;
  }

  lemma {:induction false} GoneForever(s: State, actions: seq<Action>, s': State, t: Token)
    requires Gone(s, t) && Steps(s, actions, s')
    ensures Gone(s', t)
    decreases |actions|
  {
    hide Gone, Enabled, Apply;
    if actions != [] {
      GoneStep(s, actions[0], t);
      GoneForever(Apply(s, actions[0]), actions[1..], s', t);
    }
  }

  /** Deletion is final: once it has unlinked a payload, the token never has one again, and its receipt is never readable. */
  lemma DeletedForGood(s: State, p: Proc, t: Token, actions: seq<Action>, s': State)
    requires Enabled(s, DeleteReceipt(p, t, true)) && t !in s.frames && Steps(Apply(s, DeleteReceipt(p, t, true)), actions, s')
    ensures t in s'.receipts && t !in s'.payloads && !Readable(s'.receipts[t].state)
  {
    var next := Apply(s, DeleteReceipt(p, t, true));
    assert Gone(next, t) && next.receipts[t].state == Tombstoned;
    hide Enabled, Apply, Steps;
    GoneForever(next, actions, s', t);
    SpentForever(next, actions, s', t);
  }

  /** Erased by a reset: tombstoned, and of a generation no call owns any more. */
  predicate Erased(s: State, t: Token) {
    Selected(s) && t in s.receipts && s.receipts[t].state == Tombstoned && s.receipts[t].gen < s.sel.gen
  }

  lemma SelectKeepsErased(s: State, a: Action, t: Token)
    requires SelectorInv(s) && Erased(s, t) && SelectAction(a) && SelectEnabled(s, a)
    ensures Erased(ApplySelect(s, a), t)
  {
    hide Known, DigestOf, Decrypts, NothingStored, NoPending, CandidateKey, OpCurrent;
  }

  lemma StageKeepsErased(s: State, a: Action, t: Token)
    requires Erased(s, t) && StageAction(a) && StageEnabled(s, a)
    ensures Erased(ApplyStage(s, a), t)
  {
    hide StoreOpen, Ready;
  }

  lemma ErasedStep(s: State, a: Action, t: Token)
    requires SelectorInv(s) && Erased(s, t) && Enabled(s, a)
    ensures Erased(Apply(s, a), t)
  {
    hide StageEnabled, ReceiptEnabled, ReferenceEnabled, JournalEnabled, SelectEnabled,
      ApplyStage, ApplyReceipt, ApplyReference, ApplyJournal, ApplySelect;
    SelectorStep(s, a);
    if StageAction(a) { StageKeepsErased(s, a, t); }
    else if ReceiptAction(a) { ReceiptShape(s, a); ReceiptMovesLive(s, a); }
    else if ReferenceAction(a) { ReferenceCareer(s, a); }
    else if JournalAction(a) { JournalCareer(s, a); }
    else { SelectKeepsErased(s, a, t); }
  }

  /** A call moves receipts of the current generation, or turns a live one into a conflict. */
  lemma ReceiptMovesLive(s: State, a: Action)
    requires ReceiptAction(a) && ReceiptEnabled(s, a)
    ensures a.t in s.receipts && (s.receipts[a.t].gen == s.sel.gen || s.receipts[a.t].state != Tombstoned)
  {
    hide StoreOpen;
  }

  lemma {:induction false} ErasedForever(s: State, actions: seq<Action>, s': State, t: Token)
    requires SelectorInv(s) && Erased(s, t) && Steps(s, actions, s')
    ensures Erased(s', t)
    decreases |actions|
  {
    hide SelectorInv, Erased, Enabled, Apply;
    if actions != [] {
      SelectorStep(s, actions[0]);
      ErasedStep(s, actions[0], t);
      ErasedForever(Apply(s, actions[0]), actions[1..], s', t);
    }
  }

  /** A reset erases every secret for good: its receipt stays tombstoned in every continuation, and nothing names one. */
  lemma ResetIsFinal(s: State, o: OpId, key: Key, actions: seq<Action>, s': State, t: Token)
    requires SelectorInv(s) && ReceiptInv(s) && Enabled(s, CommitReset(o, key)) && t in s.receipts
    requires Steps(Apply(s, CommitReset(o, key)), actions, s')
    ensures Apply(s, CommitReset(o, key)).refs == map[] && Apply(s, CommitReset(o, key)).sel.gen == s.sel.gen + 1
    ensures t in s'.receipts && s'.receipts[t].state == Tombstoned
  {
    hide Known, DigestOf, NoPending, OpCurrent, CandidateKey;
    var next := Apply(s, CommitReset(o, key));
    SelectorStep(s, CommitReset(o, key));
    assert Erased(next, t);
    hide Enabled, Apply, Steps;
    ErasedForever(next, actions, s', t);
  }

  // ----- From reservation to an active configuration field -----

  ghost predicate Leads(s: State, s': State) { exists actions :: Steps(s, actions, s') }

  ghost predicate Does(s: State, a: Action, s': State) { Enabled(s, a) && s' == Apply(s, a) }

  lemma LeadsBy(s: State, a: Action, s': State)
    requires Does(s, a, s')
    ensures Leads(s, s')
  {
    hide Enabled, Apply;
    OneStep(s, a);
  }

  lemma LeadsOn(s: State, mid: State, s': State)
    requires Leads(s, mid) && Leads(mid, s')
    ensures Leads(s, s')
  {
    hide Steps;
    var first :| Steps(s, first, mid);
    var second :| Steps(mid, second, s');
    StepsAppend(s, first, mid, second, s');
  }

  lemma SameOpen(s: State, s': State, p: Proc)
    requires s'.ops == s.ops && s'.sel == s.sel && s'.caches == s.caches
    ensures StoreOpen(s', p) <==> StoreOpen(s, p)
  {
    SameOps(s, s');
  }

  /** The store with a new receipt, at the current generation, and its payload under the selected key. */
  function WithSecret(s: State, t: Token, state: ReceiptState): State
    requires s.sel.check.Some?
  {
    s.(receipts := s.receipts[t := Receipt(state, s.sel.gen)], payloads := s.payloads[t := s.sel.check.value])
  }

  /** The store inside a stage call of `p`: receipt reserved, and the call at `phase`. */
  function InStage(s: State, p: Proc, t: Token, phase: Phase): State {
    s.(receipts := s.receipts[t := Receipt(Recoverable, s.sel.gen)], frames := s.frames[t := Frame(p, phase)])
  }

  lemma SecretReserved(s: State, p: Proc, t: Token)
    requires SelectorInv(s) && StoreOpen(s, p) && s.temps == {} && (forall u :: u in s.payloads ==> u in s.receipts)
    requires t !in s.receipts && t !in s.frames
    ensures Selected(s) && Does(s, ReserveReceipt(p, t), InStage(s, p, t, Reserved))
    ensures Does(InStage(s, p, t, Reserved), SealPayload(t), InStage(s, p, t, Sealed(s.sel.check.value)))
  {
    hide NoPending;
    var s1 := InStage(s, p, t, Reserved);
    SameOpen(s, s1, p);
    assert s1.frames[t := Frame(p, Sealed(s.sel.check.value))] == s.frames[t := Frame(p, Sealed(s.sel.check.value))];
  }

  lemma SecretWritten(s: State, p: Proc, t: Token, key: Key)
    requires s.temps == {}
    ensures Does(InStage(s, p, t, Sealed(key)), WriteTemp(t), InStage(s, p, t, Written(key)).(temps := {t}))
  {
    assert s.frames[t := Frame(p, Sealed(key))][t := Frame(p, Written(key))] == s.frames[t := Frame(p, Written(key))];
  }

  lemma SecretPlaced(s: State, p: Proc, t: Token, key: Key)
    requires s.temps == {}
    ensures Does(InStage(s, p, t, Written(key)).(temps := {t}), PlacePayload(t),
                 InStage(s, p, t, Placed).(payloads := s.payloads[t := key]))
  {
    assert s.frames[t := Frame(p, Written(key))][t := Frame(p, Placed)] == s.frames[t := Frame(p, Placed)];
    assert {t} - {t} == {};
  }

  lemma SecretFinalised(s: State, p: Proc, t: Token)
    requires StoreOpen(s, p) && t !in s.frames && s.sel.check.Some?
    ensures Does(InStage(s, p, t, Placed).(payloads := s.payloads[t := s.sel.check.value]), FinalizeStage(t), WithSecret(s, t, Staged))
  {
    hide NoPending;
    var s4 := InStage(s, p, t, Placed).(payloads := s.payloads[t := s.sel.check.value]);
    SameOpen(s, s4, p);
    assert s4.frames - {t} == s.frames;
    assert WithState(s4, t, Staged) == s.receipts[t := Receipt(Staged, s.sel.gen)];
  }

  /** A stage call that runs without faults leaves a staged receipt and its sealed payload, and nothing else. */
  lemma SecretStaged(s: State, p: Proc, t: Token)
    requires SelectorInv(s) && StoreOpen(s, p) && s.temps == {} && (forall u :: u in s.payloads ==> u in s.receipts)
    requires t !in s.receipts && t !in s.frames
    ensures Selected(s) && Leads(s, WithSecret(s, t, Staged))
  {
    var key := s.sel.check.value;
    SecretReserved(s, p, t);
    SecretWritten(s, p, t, key);
    SecretPlaced(s, p, t, key);
    SecretFinalised(s, p, t);
    hide Does, Leads, InStage, WithSecret, StoreOpen;
    var s1, s2, s3 := InStage(s, p, t, Reserved), InStage(s, p, t, Sealed(key)), InStage(s, p, t, Written(key)).(temps := {t});
    var s4 := InStage(s, p, t, Placed).(payloads := s.payloads[t := key]);
    LeadsBy(s, ReserveReceipt(p, t), s1);
    LeadsBy(s1, SealPayload(t), s2);
    LeadsBy(s2, WriteTemp(t), s3);
    LeadsBy(s3, PlacePayload(t), s4);
    LeadsBy(s4, FinalizeStage(t), WithSecret(s, t, Staged));
    LeadsOn(s, s1, s2);
    LeadsOn(s, s2, s3);
    LeadsOn(s, s3, s4);
    LeadsOn(s, s4, WithSecret(s, t, Staged));
  }

  /** A staged secret is claimed, named by the field and finalised. */
  lemma SecretUsed(s: State, p: Proc, t: Token, r: RefId)
    requires StoreOpen(s, p) && t in s.receipts && s.receipts[t].state == Staged && s.receipts[t].gen == s.sel.gen && (r in s.refs ==> s.refs[r].Configured?)
    ensures Leads(s, s.(receipts := WithState(s, t, Active), refs := s.refs[r := Configured(t)]))
  {
    hide NoPending;
    var s1 := s.(receipts := WithState(s, t, Claimed));
    var s2 := s1.(refs := s.refs[r := Configured(t)]);
    var s3 := s.(receipts := WithState(s, t, Active), refs := s.refs[r := Configured(t)]);
    SameOpen(s, s1, p);
    SameOpen(s, s2, p);
    assert Does(s, ClaimReceipt(p, t), s1);
    assert Does(s1, SetConfig(p, r, t), s2);
    assert WithState(s2, t, Active) == WithState(s, t, Active);
    assert Does(s2, ActivateReceipt(p, t), s3);
    hide Does, Leads;
    LeadsBy(s, ClaimReceipt(p, t), s1);
    LeadsBy(s1, SetConfig(p, r, t), s2);
    LeadsBy(s2, ActivateReceipt(p, t), s3);
    LeadsOn(s, s1, s2);
    LeadsOn(s, s2, s3);
  }

  /** From every open, intact store a fresh secret can be staged, claimed, put into a field and finalised; the store
      is intact again, everything else in it is as before, and the new payload opens under the selected key. */
  lemma StoreSecret(s: State, p: Proc, t: Token, r: RefId) returns (s': State)
    requires Reachable(s) && Intact(s) && StoreOpen(s, p)
    requires t !in s.receipts && t !in s.frames && (r in s.refs ==> s.refs[r].Configured?)
    ensures Leads(s, s') && Intact(s') && StoreOpen(s', p)
    ensures s'.receipts == s.receipts[t := Receipt(Active, s.sel.gen)] && s'.refs == s.refs[r := Configured(t)]
    ensures s.sel.check.Some? && s'.payloads == s.payloads[t := s.sel.check.value]
    ensures s'.sel == s.sel && s'.temps == s.temps && s'.ops == s.ops && s'.frames == s.frames
  {
    hide Leads, JournalInv, PendingInv, ReceiptInv, NoPending;
    SecretStaged(s, p, t);
    var staged := WithSecret(s, t, Staged);
    SameOpen(s, staged, p);
    SecretUsed(staged, p, t, r);
    s' := staged.(receipts := WithState(staged, t, Active), refs := staged.refs[r := Configured(t)]);
    LeadsOn(s, staged, s');
    SameOpen(s, s', p);
    assert WithState(staged, t, Active) == s.receipts[t := Receipt(Active, s.sel.gen)];
    NewSecretIsIntact(s, s', t, r);
  }

  lemma NewSecretIsIntact(s: State, s': State, t: Token, r: RefId)
    requires Intact(s) && t !in s.receipts && s'.temps == s.temps && t in s'.payloads
    requires s'.receipts == s.receipts[t := Receipt(Active, s.sel.gen)] && s'.refs == s.refs[r := Configured(t)]
    requires s'.payloads == s.payloads[t := s'.payloads[t]]
    ensures Intact(s')
  {}

  // ----- A stage call that fails -----

  /** The store inside a stage call, before its payload is in place. */
  predicate Staging(s: State, inside: State, p: Proc, t: Token, written: bool) {
    && t in inside.frames && inside.frames[t].proc == p && inside.frames[t].phase != Placed
    && inside == InStage(s, p, t, inside.frames[t].phase).(temps := if written then {t} else {})
  }

  /** A stage call that fails before its payload is in place, and cleans up, costs its receipt and nothing else:
      deleting that restores an intact store. */
  lemma FailedStageIsUndone(s: State, inside: State, p: Proc, t: Token, written: bool) returns (s': State)
    requires Intact(s) && StoreOpen(s, p) && t !in s.receipts && t !in s.frames && Staging(s, inside, p, t, written)
    ensures Leads(inside, s') && Intact(s') && StoreOpen(s', p)
    ensures s' == s.(receipts := s.receipts[t := Receipt(Tombstoned, s.sel.gen)])
  {
    hide NoPending;
    var dropped := s.(receipts := s.receipts[t := Receipt(Recoverable, s.sel.gen)]);
    s' := s.(receipts := s.receipts[t := Receipt(Tombstoned, s.sel.gen)]);
    SameOpen(s, dropped, p);
    SameOpen(s, s', p);
    assert inside.frames - {t} == s.frames;
    assert {t} - {t} == {};
    assert Does(inside, DropStage(t, true), dropped);
    assert s.payloads - {t} == s.payloads;
    assert WithState(dropped, t, Tombstoned) == s'.receipts;
    assert Does(dropped, DeleteReceipt(p, t, true), s');
    hide Leads, Does;
    LeadsBy(inside, DropStage(t, true), dropped);
    LeadsBy(dropped, DeleteReceipt(p, t, true), s');
    LeadsOn(inside, dropped, s');
  }
}
