/**
 Master-key selection and the secret receipt ledger.

 One state holds what is durable (the selector row, the operation journal, retired keys,
 receipts, references to them, payload files, temporary files and key files) and what a process holds in memory
 (its cached generation and revision, stage calls in flight, validated restore calls). Every
 IMMEDIATE transaction is one action; a file write is an action of its own, so a crash can fall
 between any two. Cryptography is idealised: a payload is its sealing key, and the key check
 stored in the selector row is the key itself.
 */
module KeyLedger {
  import opened Common

  type Key = int
  type KeyId = int
  type OpId = int
  type Token = int
  type Proc = int
  type RefId = int

  datatype Source = Unselected | Environment | Managed
  datatype Selection = Selection(source: Source, gen: nat, rev: nat, keyId: Option<KeyId>, check: Option<Key>)

  datatype Kind = Initialize | Restore | Reset
  datatype Purpose = Legacy | Adoption
  datatype OpState = Preparing | Committed | Abandoned
  datatype Operation = Operation(kind: Kind, state: OpState, cand: Option<KeyId>, gen: nat, rev: nat,
                                 digest: Digest, purpose: Purpose)

  datatype ReceiptState =
    Recoverable | Staged | Claimed | Active | OrphanState | DeleteFailed | CasConflict | Tombstoned
  datatype Receipt = Receipt(state: ReceiptState, gen: nat)

  datatype KeyFile = Partial | Full(key: Key)

  /** A configuration field or a grant that names a receipt; `live` is the grant's ACTIVE status. */
  datatype Reference = Configured(token: Token) | Granted(token: Token, revision: nat, live: bool)

  /** The facts hashed into an inventory digest. */
  datatype Digest = Digest(gen: nat, source: Source, receipts: map<Token, Receipt>, blobs: set<Token>,
                           temps: set<Token>, refs: map<RefId, Reference>, keys: set<KeyId>)

  datatype Phase = Reserved | Sealed(key: Key) | Written(key: Key) | Placed
  datatype Frame = Frame(proc: Proc, phase: Phase)

  /** A restore call that has validated its key against the selector row at (gen, rev). */
  datatype RestoreCall = RestoreCall(key: Key, gen: nat, rev: nat)

  datatype State = State(
    sel: Selection,
    ops: map<OpId, Operation>,
    retired: set<KeyId>,
    receipts: map<Token, Receipt>,
    payloads: map<Token, Key>,
    temps: set<Token>,
    keyFiles: map<KeyId, KeyFile>,
    frames: map<Token, Frame>,
    caches: map<Proc, (nat, nat)>,
    restores: set<RestoreCall>,
    refs: map<RefId, Reference>)

  /** The environment variable as one transaction reads it. */
  datatype Env = Absent | Present(key: Key) | Broken

  // ----- Inventory -----

  predicate Live(state: ReceiptState) { state != Tombstoned }

  predicate Readable(state: ReceiptState) { state == Staged || state == Claimed || state == Active }

  predicate Pending(s: State, o: OpId) { o in s.ops && s.ops[o].state == Preparing }

  predicate NoPending(s: State) { forall o :: o in s.ops ==> s.ops[o].state != Preparing }

  predicate ResetSeen(s: State) {
    exists o :: o in s.ops && s.ops[o].kind == Reset && s.ops[o].state == Committed
  }

  predicate CandidateIn(s: State, k: KeyId, state: OpState) {
    exists o :: o in s.ops && s.ops[o].state == state && s.ops[o].cand == Some(k)
  }

  predicate SelectedKey(s: State, k: KeyId) { s.sel.source == Managed && s.sel.keyId == Some(k) }

  predicate KeyAccounted(s: State, k: KeyId) {
    SelectedKey(s, k) || CandidateIn(s, k, Preparing) || CandidateIn(s, k, Abandoned) || k in s.retired
  }

  predicate RetiredReceipt(s: State, t: Token)
    requires t in s.receipts
  {
    ResetSeen(s) && s.receipts[t].gen < s.sel.gen
  }

  predicate LiveToken(s: State, t: Token) {
    t in s.receipts && Live(s.receipts[t].state) && !RetiredReceipt(s, t)
  }

  /** A reference counts as known: its receipt is active at the current generation, with its payload. */
  predicate ValidReference(s: State, t: Token) {
    t in s.receipts && s.receipts[t].state == Active && s.receipts[t].gen == s.sel.gen && t in s.payloads
  }

  /** The inventory's `unknown` count is zero. */
  predicate Known(s: State) {
    && (forall t :: t in s.receipts ==> !(RetiredReceipt(s, t) && Live(s.receipts[t].state)))
    && (forall t :: t in s.payloads ==> t in s.receipts)
    && s.temps == {}
    && (forall t :: t in s.receipts && LiveToken(s, t) ==> t in s.payloads)
    && (forall r :: r in s.refs ==> ValidReference(s, s.refs[r].token))
    && (forall k :: k in s.keyFiles ==> KeyAccounted(s, k))
  }

  predicate NothingStored(s: State) {
    && s.payloads == map[] && s.temps == {}
    && (forall t :: t in s.receipts ==> !LiveToken(s, t))
  }

  function DigestOf(s: State): Digest {
    Digest(s.sel.gen, s.sel.source, s.receipts, s.payloads.Keys, s.temps, s.refs,
           set k | k in s.keyFiles && !CandidateIn(s, k, Preparing))
  }

  /** `_decrypt_all` accepts: every live payload opens under the key. */
  predicate Decrypts(s: State, key: Key) {
    forall t :: t in s.payloads && LiveToken(s, t) ==> s.payloads[t] == key
  }

  /** `_status_in` reports ready. */
  predicate Ready(s: State, env: Env) {
    && Known(s) && env != Broken && NoPending(s)
    && s.sel.check.Some?
    && match s.sel.source
       case Unselected => false
       case Environment => env == Present(s.sel.check.value) && Decrypts(s, s.sel.check.value)
       case Managed =>
         && s.sel.keyId.Some? && s.sel.keyId.value in s.keyFiles
         && s.keyFiles[s.sel.keyId.value] == Full(s.sel.check.value)
         && (env.Present? ==> env.key == s.sel.check.value)
         && Decrypts(s, s.sel.check.value)
  }

  /** `_key_generation_in` and `get_key` accept the process. */
  predicate StoreOpen(s: State, p: Proc) {
    && s.sel.source != Unselected && NoPending(s)
    && p in s.caches && s.caches[p] == (s.sel.gen, s.sel.rev)
  }

  predicate Owned(s: State, p: Proc, t: Token) {
    StoreOpen(s, p) && t in s.receipts && s.receipts[t].gen == s.sel.gen
  }

  /** The journal row still matches the selector row and the inventory. */
  predicate OpCurrent(s: State, o: OpId) {
    && Pending(s, o)
    && s.ops[o].gen == s.sel.gen && s.ops[o].rev == s.sel.rev && s.ops[o].digest == DigestOf(s)
    && Known(s)
  }

  predicate FreshIds(s: State, o: OpId, k: KeyId) {
    o !in s.ops && k !in s.keyFiles && forall p :: p in s.ops ==> s.ops[p].cand != Some(k)
  }

  /** The candidate file holds `key`, or is absent and will be created with it. */
  predicate CandidateKey(s: State, o: OpId, key: Key)
    requires o in s.ops
  {
    && s.ops[o].cand.Some?
    && (s.ops[o].cand.value in s.keyFiles ==> s.keyFiles[s.ops[o].cand.value] == Full(key))
  }

  /** A restore key the prepare transaction accepts under this environment. */
  predicate RestoreKey(s: State, key: Key, env: Env) {
    && Known(s) && env != Broken && (env.Present? ==> env.key == key)
    && (s.sel.source != Unselected ==> s.sel.check == Some(key))
    && Decrypts(s, key)
  }

  /** The key an operation may write to its candidate file. */
  predicate MayHold(s: State, op: Operation, key: Key) {
    match op.kind
    case Initialize => s.sel.source == Unselected && NothingStored(s)
    case Reset => s.sel.source != Environment
    case Restore =>
      if op.purpose == Adoption then s.sel.source == Environment && s.sel.check == Some(key) && Decrypts(s, key)
      else s.sel.source != Environment && RestoreKey(s, key, Absent)
  }

  predicate LiveGrant(s: State, r: RefId) { r in s.refs && s.refs[r].Granted? && s.refs[r].live }

  // ----- Actions -----

  datatype Action =
    // The secret store, run by a process.
    | ReserveReceipt(p: Proc, t: Token)
    | SealPayload(t: Token)
    | WriteTemp(t: Token)
    | PlacePayload(t: Token)
    | FinalizeStage(t: Token)
    | DropStage(t: Token, cleaned: bool)
    | ClaimReceipt(p: Proc, t: Token)
    | ActivateReceipt(p: Proc, t: Token)
    | MarkConflict(t: Token)
    | DeleteReceipt(p: Proc, t: Token, unlinked: bool)
    | UnlinkThenCrash(p: Proc, t: Token)
    | MarkOrphan(p: Proc, t: Token)
    // Configuration fields and grants that name receipts.
    | SetConfig(p: Proc, r: RefId, t: Token)
    | ClearConfig(r: RefId)
    | PutGrant(p: Proc, r: RefId, t: Token, live: bool)
    | DropGrant(r: RefId)
    | ExpireGrant(r: RefId)
    | RevokeGrant(r: RefId)
    // Processes.
    | Restart(p: Proc)
    | CacheSelection(p: Proc, env: Env)
    // The key manager.
    | SelectEnvironment(key: Key)
    | BeginInitialize(o: OpId, k: KeyId)
    | RotateCandidate(o: OpId, o': OpId, k': KeyId)
    | CreateKeyFile(o: OpId, key: Key, complete: bool)
    | CommitInitialize(o: OpId, key: Key)
    | BeginRestore(o: OpId, k: KeyId, key: Key)
    | ResumeRestore(o: OpId, key: Key)
    | RestoreEnvironment(o: OpId, key: Key)
    | CommitRestore(o: OpId, call: RestoreCall)
    | BeginAdoption(o: OpId, k: KeyId, key: Key)
    | CommitAdoption(o: OpId, key: Key)
    | BeginReset(o: OpId, k: KeyId)
    | CommitReset(o: OpId, key: Key)
    // The outside world damages a key file.
    | DamageKeyFile(k: KeyId)

  /** Steps of `stage` calls, and processes that start, restart and read the selector row. */
  predicate StageAction(a: Action) {
    a.ReserveReceipt? || a.SealPayload? || a.WriteTemp? || a.PlacePayload? ||
    a.DropStage? || a.Restart? || a.CacheSelection?
  }

  ghost predicate StageEnabled(s: State, a: Action)
    requires StageAction(a)
  {
    match a
    case ReserveReceipt(p, t) => StoreOpen(s, p) && t !in s.receipts && t !in s.payloads && t !in s.temps && t !in s.frames
    case SealPayload(t) =>
      t in s.frames && s.frames[t].phase == Reserved && StoreOpen(s, s.frames[t].proc) && s.sel.check.Some?
    case WriteTemp(t) => t in s.frames && s.frames[t].phase.Sealed?
    case PlacePayload(t) => t in s.frames && s.frames[t].phase.Written?
    case DropStage(t, cleaned) => t in s.frames
    case Restart(p) => true
    case CacheSelection(p, env) => Ready(s, env)
  }

  /** One receipt of the store changes state. */
  predicate ReceiptAction(a: Action) {
    a.FinalizeStage? || a.ClaimReceipt? || a.ActivateReceipt? || a.MarkConflict? ||
    a.DeleteReceipt? || a.UnlinkThenCrash? || a.MarkOrphan?
  }

  ghost predicate ReceiptEnabled(s: State, a: Action)
    requires ReceiptAction(a)
  {
    match a
    case FinalizeStage(t) =>
      && t in s.frames && s.frames[t].phase == Placed && Owned(s, s.frames[t].proc, t)
      && s.receipts[t].state == Recoverable
    case ClaimReceipt(p, t) => Owned(s, p, t) && s.receipts[t].state == Staged
    case ActivateReceipt(p, t) => Owned(s, p, t) && s.receipts[t].state == Claimed
    case MarkConflict(t) => t in s.receipts && s.receipts[t].state in {Claimed, Staged, Recoverable}
    case DeleteReceipt(p, t, unlinked) => Owned(s, p, t)
    case UnlinkThenCrash(p, t) => Owned(s, p, t)
    case MarkOrphan(p, t) => Owned(s, p, t) && s.receipts[t].state != Tombstoned
  }

  /** Configuration fields and grants start or stop naming receipts. */
  predicate ReferenceAction(a: Action) {
    a.SetConfig? || a.ClearConfig? || a.PutGrant? || a.DropGrant? || a.ExpireGrant? || a.RevokeGrant?
  }

  ghost predicate ReferenceEnabled(s: State, a: Action)
    requires ReferenceAction(a)
  {
    match a
    case SetConfig(p, r, t) =>
      Owned(s, p, t) && s.receipts[t].state == Claimed && (r in s.refs ==> s.refs[r].Configured?)
    case ClearConfig(r) => r in s.refs && s.refs[r].Configured? && NoPending(s)
    case PutGrant(p, r, t, live) =>
      Owned(s, p, t) && Readable(s.receipts[t].state) && (r in s.refs ==> s.refs[r].Granted?)
    case DropGrant(r) => r in s.refs && s.refs[r].Granted?
    case ExpireGrant(r) => LiveGrant(s, r)
    case RevokeGrant(r) => LiveGrant(s, r)
  }

  /** Operations are journalled and candidate key files written. */
  predicate JournalAction(a: Action) {
    a.BeginInitialize? || a.RotateCandidate? || a.CreateKeyFile? || a.BeginRestore? ||
    a.ResumeRestore? || a.BeginAdoption? || a.BeginReset? || a.DamageKeyFile?
  }

  ghost predicate JournalEnabled(s: State, a: Action)
    requires JournalAction(a)
  {
    match a
    case BeginInitialize(o, k) =>
      && Known(s) && NoPending(s) && s.sel.source == Unselected && FreshIds(s, o, k)
      && NothingStored(s) && s.keyFiles == map[]
    case RotateCandidate(o, o', k') =>
      && OpCurrent(s, o) && FreshIds(s, o', k')
      && s.ops[o].cand.Some? && s.ops[o].cand.value in s.keyFiles && s.keyFiles[s.ops[o].cand.value] == Partial
    case CreateKeyFile(o, key, complete) =>
      OpCurrent(s, o) && s.ops[o].cand.Some? && s.ops[o].cand.value !in s.keyFiles && MayHold(s, s.ops[o], key)
    case BeginRestore(o, k, key) =>
      RestoreKey(s, key, Absent) && NoPending(s) && s.sel.source != Environment && FreshIds(s, o, k)
    case ResumeRestore(o, key) =>
      RestoreKey(s, key, Absent) && OpCurrent(s, o) && s.ops[o].kind == Restore && s.ops[o].purpose == Legacy
    case BeginAdoption(o, k, key) =>
      && Known(s) && NoPending(s) && s.sel.source == Environment && s.sel.check == Some(key) && Decrypts(s, key)
      && FreshIds(s, o, k)
    case BeginReset(o, k) => Known(s) && NoPending(s) && s.sel.source != Environment && FreshIds(s, o, k)
    case DamageKeyFile(k) => k in s.keyFiles
  }

  /** The selector row changes. */
  predicate SelectAction(a: Action) {
    a.SelectEnvironment? || a.CommitInitialize? || a.RestoreEnvironment? ||
    a.CommitRestore? || a.CommitAdoption? || a.CommitReset?
  }

  ghost predicate SelectEnabled(s: State, a: Action)
    requires SelectAction(a)
  {
    match a
    case SelectEnvironment(key) => Known(s) && NoPending(s) && s.sel.source == Unselected && Decrypts(s, key)
    case CommitInitialize(o, key) =>
      && OpCurrent(s, o) && s.ops[o].kind == Initialize && s.sel.source == Unselected && NothingStored(s)
      && CandidateKey(s, o, key)
    case RestoreEnvironment(o, key) => RestoreKey(s, key, Present(key)) && NoPending(s) && o !in s.ops
    case CommitRestore(o, call) =>
      && OpCurrent(s, o) && s.ops[o].kind == Restore && s.ops[o].purpose == Legacy
      && call in s.restores && call.gen == s.sel.gen && call.rev == s.sel.rev
      && Decrypts(s, call.key) && CandidateKey(s, o, call.key)
    case CommitAdoption(o, key) =>
      && OpCurrent(s, o) && s.ops[o].purpose == Adoption && s.sel.source == Environment
      && s.sel.check == Some(key) && Decrypts(s, key) && CandidateKey(s, o, key)
    case CommitReset(o, key) =>
      OpCurrent(s, o) && s.ops[o].kind == Reset && s.sel.source != Environment && CandidateKey(s, o, key)
  }

  ghost predicate Enabled(s: State, a: Action) {
    if StageAction(a) then StageEnabled(s, a)
    else if ReceiptAction(a) then ReceiptEnabled(s, a)
    else if ReferenceAction(a) then ReferenceEnabled(s, a)
    else if JournalAction(a) then JournalEnabled(s, a)
    else SelectEnabled(s, a)
  }

  function WithState(s: State, t: Token, state: ReceiptState): map<Token, Receipt>
    requires t in s.receipts
  {
    s.receipts[t := s.receipts[t].(state := state)]
  }

  function WithOp(s: State, o: OpId, state: OpState): map<OpId, Operation>
    requires o in s.ops
  {
    s.ops[o := s.ops[o].(state := state)]
  }

  /** Revoking a grant invalidates whatever operation is pending. */
  function AbandonPending(s: State): map<OpId, Operation> {
    if NoPending(s) then s.ops
    else map o | o in s.ops :: if s.ops[o].state == Preparing then s.ops[o].(state := Abandoned) else s.ops[o]
  }

  function Retired(ref: Reference): Reference
    requires ref.Granted?
  {
    ref.(revision := ref.revision + 1, live := false)
  }

  function NewOp(s: State, kind: Kind, k: KeyId, purpose: Purpose): Operation {
    Operation(kind, Preparing, Some(k), s.sel.gen, s.sel.rev, DigestOf(s), purpose)
  }

  /** `UPDATE secret_receipts SET key_generation=1`, only when the store was at generation 0. */
  function FirstGeneration(s: State): map<Token, Receipt> {
    if s.sel.gen == 0 then map t | t in s.receipts :: s.receipts[t].(gen := 1) else s.receipts
  }

  function AtLeastOne(gen: nat): nat { if gen == 0 then 1 else gen }

  function Retire(s: State): set<KeyId> {
    if s.sel.source == Managed && s.sel.keyId.Some? then s.retired + {s.sel.keyId.value} else s.retired
  }

  /** Sets the selector row to a managed key and closes its operation. */
  function CommitManaged(s: State, o: OpId, key: Key, gen: nat, receipts: map<Token, Receipt>): State
    requires o in s.ops && s.ops[o].cand.Some?
  {
    var k := s.ops[o].cand.value;
    s.(sel := Selection(Managed, gen, s.sel.rev + 1, Some(k), Some(key)),
       ops := WithOp(s, o, Committed),
       retired := Retire(s),
       receipts := receipts,
       keyFiles := s.keyFiles[k := Full(key)])
  }

  ghost function ApplyStage(s: State, a: Action): State
    requires StageAction(a) && StageEnabled(s, a)
  {
    match a
    case ReserveReceipt(p, t) =>
      s.(receipts := s.receipts[t := Receipt(Recoverable, s.sel.gen)], frames := s.frames[t := Frame(p, Reserved)])
    case SealPayload(t) => s.(frames := s.frames[t := s.frames[t].(phase := Sealed(s.sel.check.value))])
    case WriteTemp(t) =>
      s.(frames := s.frames[t := s.frames[t].(phase := Written(s.frames[t].phase.key))], temps := s.temps + {t})
    case PlacePayload(t) =>
      s.(frames := s.frames[t := s.frames[t].(phase := Placed)], temps := s.temps - {t},
         payloads := s.payloads[t := s.frames[t].phase.key])
    case DropStage(t, cleaned) =>
      s.(frames := s.frames - {t}, temps := if cleaned then s.temps - {t} else s.temps)
    case Restart(p) =>
      s.(caches := s.caches - {p}, frames := map t | t in s.frames && s.frames[t].proc != p :: s.frames[t])
    case CacheSelection(p, env) => s.(caches := s.caches[p := (s.sel.gen, s.sel.rev)])
  }

  ghost function ApplyReceipt(s: State, a: Action): State
    requires ReceiptAction(a) && ReceiptEnabled(s, a)
  {
    match a
    case FinalizeStage(t) => s.(receipts := WithState(s, t, Staged), frames := s.frames - {t})
    case ClaimReceipt(p, t) => s.(receipts := WithState(s, t, Claimed))
    case ActivateReceipt(p, t) => s.(receipts := WithState(s, t, Active))
    case MarkConflict(t) => s.(receipts := WithState(s, t, CasConflict))
    case DeleteReceipt(p, t, unlinked) =>
      if unlinked then s.(receipts := WithState(s, t, Tombstoned), payloads := s.payloads - {t})
      else s.(receipts := WithState(s, t, DeleteFailed))
    case UnlinkThenCrash(p, t) => s.(payloads := s.payloads - {t})
    case MarkOrphan(p, t) => s.(receipts := WithState(s, t, OrphanState))
  }

  ghost function ApplyReference(s: State, a: Action): State
    requires ReferenceAction(a) && ReferenceEnabled(s, a)
  {
    match a
    case SetConfig(p, r, t) => s.(refs := s.refs[r := Configured(t)])
    case ClearConfig(r) => s.(refs := s.refs - {r})
    case PutGrant(p, r, t, live) =>
      s.(refs := s.refs[r := Granted(t, if r in s.refs then s.refs[r].revision + 1 else 1, live)])
    case DropGrant(r) => s.(refs := s.refs - {r})
    case ExpireGrant(r) => s.(refs := s.refs[r := Retired(s.refs[r])])
    case RevokeGrant(r) => s.(refs := s.refs[r := Retired(s.refs[r])], ops := AbandonPending(s))
  }

  ghost function ApplyJournal(s: State, a: Action): State
    requires JournalAction(a) && JournalEnabled(s, a)
  {
    match a
    case BeginInitialize(o, k) => s.(ops := s.ops[o := NewOp(s, Initialize, k, Legacy)])
    case RotateCandidate(o, o', k') =>
      var prior := s.ops[o];
      var abandoned := s.(ops := WithOp(s, o, Abandoned));
      s.(ops := abandoned.ops[o' := Operation(prior.kind, Preparing, Some(k'), prior.gen, prior.rev,
                                              DigestOf(abandoned), prior.purpose)])
    case CreateKeyFile(o, key, complete) =>
      s.(keyFiles := s.keyFiles[s.ops[o].cand.value := if complete then Full(key) else Partial])
    case BeginRestore(o, k, key) =>
      s.(ops := s.ops[o := NewOp(s, Restore, k, Legacy)],
         restores := s.restores + {RestoreCall(key, s.sel.gen, s.sel.rev)})
    case ResumeRestore(o, key) => s.(restores := s.restores + {RestoreCall(key, s.sel.gen, s.sel.rev)})
    case BeginAdoption(o, k, key) => s.(ops := s.ops[o := NewOp(s, Restore, k, Adoption)])
    case BeginReset(o, k) => s.(ops := s.ops[o := NewOp(s, Reset, k, Legacy)])
    case DamageKeyFile(k) => s.(keyFiles := s.keyFiles[k := Partial])
  }

  ghost function ApplySelect(s: State, a: Action): State
    requires SelectAction(a) && SelectEnabled(s, a)
  {
    match a
    case SelectEnvironment(key) =>
      s.(sel := Selection(Environment, 1, s.sel.rev + 1, s.sel.keyId, Some(key)),
         receipts := map t | t in s.receipts :: s.receipts[t].(gen := 1))
    case CommitInitialize(o, key) => CommitManaged(s, o, key, s.sel.gen + 1, s.receipts)
    case RestoreEnvironment(o, key) =>
      s.(sel := Selection(Environment, AtLeastOne(s.sel.gen), s.sel.rev + 1, None, Some(key)),
         ops := if s.sel.source == Managed
                then s.ops[o := Operation(Restore, Committed, None, s.sel.gen, s.sel.rev, DigestOf(s), Legacy)]
                else s.ops,
         retired := Retire(s),
         receipts := FirstGeneration(s))
    case CommitRestore(o, call) => CommitManaged(s, o, call.key, AtLeastOne(s.sel.gen), FirstGeneration(s))
    case CommitAdoption(o, key) => CommitManaged(s, o, key, s.sel.gen, s.receipts)
    case CommitReset(o, key) =>
      CommitManaged(s, o, key, s.sel.gen + 1, map t | t in s.receipts :: s.receipts[t].(state := Tombstoned)).(refs := map[])
  }

  ghost function Apply(s: State, a: Action): State
    requires Enabled(s, a)
  {
    if StageAction(a) then ApplyStage(s, a)
    else if ReceiptAction(a) then ApplyReceipt(s, a)
    else if ReferenceAction(a) then ApplyReference(s, a)
    else if JournalAction(a) then ApplyJournal(s, a)
    else ApplySelect(s, a)
  }

  ghost predicate Steps(s: State, actions: seq<Action>, s': State)
    decreases |actions|
  {
    if actions == [] then s == s'
    else Enabled(s, actions[0]) && Steps(Apply(s, actions[0]), actions[1..], s')
  }

  /** A store from before managed keys: nothing selected, nothing journalled, nobody running. */
  predicate Init(s: State) {
    && s.sel.source == Unselected && s.sel.gen == 0 && s.sel.keyId == None && s.sel.check == None
    && s.ops == map[] && s.retired == {} && s.keyFiles == map[] && s.frames == map[] && s.caches == map[]
    && s.restores == {}
    && (forall t :: t in s.receipts ==> s.receipts[t].gen == 0)
  }
}
