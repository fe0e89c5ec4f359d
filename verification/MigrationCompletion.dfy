/**
 What a migration can and cannot achieve from any state earlier runs left: a fault-free pipeline
 publishes exactly when no source file has the manifest's name or lies inside it, and two
 overlapping pipelines can both publish.
 */
module MigrationCompletion {
  import opened Common
  import opened Migration
  import opened MigrationDesk
  import opened MigrationScript
  import opened MigrationLog
  import opened MigrationProgress
  import MigrationAuthority

  predicate Migratable(files: seq<(Path, Content)>) {
    forall i :: 0 <= i < |files| ==> !(MANIFEST <= files[i].0)
  }

  lemma MigratableParts(files: Files)
    ensures Migratable(files) <==> Harmless(files) && !Lists(files, MANIFEST)
  {
    if Harmless(files) && !Lists(files, MANIFEST) {
      forall i | 0 <= i < |files| ensures !(MANIFEST <= files[i].0) { assert !Below(files[i].0, MANIFEST); }
    }
  }

  // ----- From the last file to the selector -----

  lemma LastItem(files: Files)
    requires !Lists(files, MANIFEST)
    ensures Script(files)[5 + |files|..] == [FileItem(MANIFEST)]
  {}

  /** All files copied: the database copy is completed, unfenced and activated. */
  lemma ActivateCopy(s: State, inodes: Supply) returns (s': State)
    requires s.run.Some? && CopiedUpTo(s, 5 + |s.run.value.plan.facts.files|, inodes)
    requires !Lists(s.run.value.plan.facts.files, MANIFEST)
    requires DATABASE in Mine(s).entries && s.run.value.storage !in s.copies
    ensures Reaches(s, s') && Working(s') && s'.run.value.todo == [FileItem(MANIFEST)]
    ensures s' == s.(copies := s.copies[s.run.value.storage := Activated(s.run.value.plan.op)])
  {
    hide Reaches, Work, Desk, TargetFiles, FileSet, Lists, Script, Numbered;
    var files := s.run.value.plan.facts.files;
    LastItem(files);
    assert files[..|files|] == files;
    var s1 := ContentApply(s, CopyDatabase);
    OneContent(s, CopyDatabase);
    ContentReady(s, CopyDatabase);
    s' := ContentApply(s1, Activate);
    OneContent(s1, Activate);
    ContentReady(s1, Activate);
    ReachesTrans(s, s1, s');
  }

  lemma ManifestNodes(s: State)
    requires Working(s) && DATABASE in Mine(s).entries && MANIFEST in Mine(s).entries
    requires !Mine(s).entries[MANIFEST].directory
    ensures MANIFEST in TreeIn(s) && TreeIn(s)[MANIFEST].File? && ROOT in TreeIn(s) && DATABASE in TreeIn(s)
  {
    RecordedIsThere(s, MANIFEST);
    RecordedIsThere(s, DATABASE);
    RecordedIsThere(s, ROOT);
  }

  lemma ManifestWritten(s: State) returns (s': State)
    requires Working(s) && s.run.value.todo == [] && !Lists(s.run.value.plan.facts.files, MANIFEST)
    requires DATABASE in Mine(s).entries && MANIFEST in Mine(s).entries && !Mine(s).entries[MANIFEST].directory
    requires s.run.value.storage !in s.manifests
    requires s.run.value.storage in s.copies && s.copies[s.run.value.storage] == Activated(s.run.value.plan.op)
    ensures Reaches(s, s') && s' == s.(manifests := s'.manifests) && s'.run.value.storage in s'.manifests
    ensures s'.manifests.Keys == s.manifests.Keys + {s.run.value.storage}
  {
    hide Reaches, Work, Desk, Lists;
    ManifestNodes(s);
    s' := ContentApply(s, WriteManifest);
    OneContent(s, WriteManifest);
  }

  lemma AttemptPrepared(s: State) returns (s': State)
    requires InRun(s) && s.run.value.at == Idle && s.run.value.storage in s.storages
    requires s.run.value.storage in s.manifests && Mine(s).condition == Preparing
    ensures Reaches(s, s') && s' == Save(s, Mine(s).(condition := Prepared))
  {
    hide Reaches;
    s' := ContentApply(s, Prepare);
    OneContent(s, Prepare);
  }

  lemma SelectorPublished(s: State) returns (s': State)
    requires InRun(s) && s.run.value.at == Idle && s.run.value.storage in s.storages
    requires s.run.value.storage in s.manifests && Mine(s).condition == Prepared && Leased(s)
    ensures Reaches(s, s') && s'.selector.Some? && s'.selector.value.storage == s.run.value.storage
    ensures s' == s.(selector := s'.selector, published := s.published + {s.run.value.storage},
                     run := Some(s.run.value.(at := Finished)))
  {
    hide Reaches;
    s' := ContentApply(s, Publish);
    OneContent(s, Publish);
  }

  /** The attempt of `s` has been published in `s'`, and nothing else has changed. */
  ghost predicate PublishedFrom(s: State, s': State) {
    && InRun(s) && InRun(s') && s'.run.value.at == Finished
    && s'.run.value.plan == s.run.value.plan && s'.run.value.storage == s.run.value.storage
    && s'.selector.Some? && s'.selector.value.storage == s.run.value.storage
    && s'.waiting == s.waiting && s'.handed == s.handed && s'.facts == s.facts && s'.fence == s.fence
    && s'.lease == s.lease && s'.served == s.served && s'.entered == s.entered
    && s'.published == s.published + {s.run.value.storage}
    && s'.saved == Save(s, Mine(s')).saved && Mine(s').storage == Mine(s).storage
    && (forall st :: st != s.run.value.storage ==> TreeOf(s', st) == TreeOf(s, st))
    && s'.copies == s.copies[s.run.value.storage := Activated(s.run.value.plan.op)]
    && s'.manifests.Keys == s.manifests.Keys + {s.run.value.storage}
    && CheckAttempt(TreeOf(s', s.run.value.storage), Mine(s').entries)
  }

  /** Manifest reserved: write it, mark the attempt prepared, publish. */
  lemma PublishPrepared(s: State) returns (s': State)
    requires Working(s) && s.run.value.todo == [] && !Lists(s.run.value.plan.facts.files, MANIFEST)
    requires DATABASE in Mine(s).entries && MANIFEST in Mine(s).entries && !Mine(s).entries[MANIFEST].directory
    requires Mine(s).condition == Preparing && s.run.value.storage !in s.manifests
    requires s.run.value.storage in s.copies && s.copies[s.run.value.storage] == Activated(s.run.value.plan.op)
    requires Leased(s)
    ensures Reaches(s, s') && PublishedFrom(s, s') && s'.storages == s.storages
  {
    hide Reaches, Work, Desk, Lists, CheckAttempt;
    var s1 := ManifestWritten(s);
    var s2 := AttemptPrepared(s1);
    s' := SelectorPublished(s2);
    ReachesTrans(s, s1, s2);
    ReachesTrans(s, s2, s');
    DeskPasses(TreeOf(s, s.run.value.storage), Mine(s).entries, s.run.value.at);
  }

  lemma ManifestIsFile(s: State)
    requires Working(s) && Harmless(s.run.value.plan.facts.files) && !Lists(s.run.value.plan.facts.files, MANIFEST)
    requires MANIFEST in Mine(s).entries
    ensures !Mine(s).entries[MANIFEST].directory
  {
    hide Desk, Walked, Suffix, Script, Harmless, DirNeeded;
    var files := s.run.value.plan.facts.files;
    InScript(files, FileItem(MANIFEST));
    if DirNeeded(files, MANIFEST) { FileNotDirectory(files, MANIFEST); }
  }

  /** Nothing outside the attempt has moved on the way to `mid`; the attempt's copy may be activated. */
  lemma PublishedBack(s: State, mid: State, s': State)
    requires Local(s, mid) && mid.handed == s.handed && mid.manifests == s.manifests && PublishedFrom(mid, s')
    requires mid.copies == s.copies[s.run.value.storage := Activated(s.run.value.plan.op)]
    ensures PublishedFrom(s, s')
  {
    hide CheckAttempt;
    var attempts := s.saved[s.run.value.plan.op].attempts;
    var last := |attempts| - 1;
    assert attempts[last := Mine(mid)][last := Mine(s')] == attempts[last := Mine(s')];
    assert s'.copies == s.copies[s.run.value.storage := Activated(s.run.value.plan.op)];
  }

  lemma CopiesAreLocal(s: State, s': State)
    requires InRun(s) && s' == s.(copies := s'.copies)
    ensures Local(s, s')
  {
    SaveSame(s);
  }

  lemma DatabaseTaken(s: State)
    requires InRun(s) && AllTaken(s, 0, 5 + |s.run.value.plan.facts.files|)
    ensures DATABASE in Mine(s).entries
  {
    ScriptAt(s.run.value.plan.facts.files, 4);
    assert Taken(Mine(s).entries, Script(s.run.value.plan.facts.files)[4]);
  }

  /** All files copied and the copy activated. */
  lemma CopyAndActivate(s: State, inodes: Supply) returns (s': State)
    requires Ready(s) && Leased(s) && s.run.value.at == RootWanted && s.run.value.todo == Script(s.run.value.plan.facts.files)
    requires s.run.value.storage !in s.copies && !Lists(s.run.value.plan.facts.files, MANIFEST)
    ensures Reaches(s, s') && Working(s') && Local(s, s') && s'.run.value.todo == [FileItem(MANIFEST)]
    ensures s'.handed == s.handed && s'.manifests == s.manifests && Mine(s').condition == Preparing
    ensures s'.copies == s.copies[s.run.value.storage := Activated(s.run.value.plan.op)]
    ensures AllTaken(s', 0, 5 + |s.run.value.plan.facts.files|)
    ensures Leased(s') && Numbered(TreeIn(s'), inodes)
  {
    hide Reaches, Work, Desk, Lists, Script, Taken, Grown, TargetFiles, FileSet, Numbered;
    var s1 := OpenRoot(s, inodes);
    var s2 := CopyAll(s1, 0, inodes);
    DatabaseTaken(s2);
    s' := ActivateCopy(s2, inodes);
    CopiesAreLocal(s2, s');
    LocalTrans(s, s1, s2);
    LocalTrans(s, s2, s');
    ReachesTrans(s, s1, s2);
    ReachesTrans(s, s2, s');
  }

  /** An allocated attempt is carried through to its publication. */
  lemma FinishAttempt(s: State, inodes: Supply) returns (s': State)
    requires Ready(s) && Leased(s) && s.run.value.at == RootWanted && s.run.value.todo == Script(s.run.value.plan.facts.files)
    requires s.run.value.storage !in s.copies && s.run.value.storage !in s.manifests
    requires Migratable(s.run.value.plan.facts.files)
    ensures Reaches(s, s') && PublishedFrom(s, s')
    ensures s.run.value.storage in s'.storages && Numbered(s'.storages[s.run.value.storage], inodes)
  {
    hide Reaches, Work, Desk, Lists, Script, Taken, TargetFiles, Migratable, Harmless, AllTaken, Grown, Numbered;
    MigratableParts(s.run.value.plan.facts.files);
    var s1 := CopyAndActivate(s, inodes);
    DatabaseTaken(s1);
    var s2 := TakeFile(s1, EMPTY, inodes);
    assert s1.run.value.todo[1..] == [];
    ManifestTaken(s1, s2, inodes);
    ManifestIsFile(s2);
    LocalTrans(s, s1, s2);
    s' := PublishPrepared(s2);
    ReachesTrans(s, s1, s2);
    ReachesTrans(s, s2, s');
    PublishedBack(s, s2, s');
  }

  lemma ManifestTaken(s: State, s': State, inodes: Supply)
    requires Took(s, s', FileItem(MANIFEST), EMPTY, inodes) && DATABASE in Mine(s).entries
    ensures MANIFEST in Mine(s').entries && DATABASE in Mine(s').entries
  {
    hide Reaches, Working, Kept, AllAbove, TargetFiles;
  }

  // ----- From a quiet state -----

  lemma OneGate(s: State, a: Step)
    requires GateStep(a) && GateEnabled(s, a)
    ensures Reaches(s, GateApply(s, a))
  {
    hide GateEnabled, GateApply, Reaches;
    OneStep(s, a);
  }

  /** Random names that have not been used before: for the storage, the lease and the call. */
  datatype Names = Names(storage: Storage, serial: int, id: int)

  predicate Unused(s: State, op: Op, names: Names) {
    && names.storage !in s.storages && names.storage !in s.copies && names.storage !in s.manifests
    && names.serial !in s.served && (forall w :: w in s.waiting ==> w.id != names.id)
    && forall i :: 0 <= i < |Recorded(s, op, s.facts).attempts| ==>
         Recorded(s, op, s.facts).attempts[i].storage != names.storage
  }

  /** No pipeline is in its locked part, nothing is published, and the attempt limit is not reached. */
  ghost predicate CanStart(s: State, op: Op, names: Names) {
    && s.run.None? && s.selector.None? && Walked(s.facts.files)
    && (s.fence.Some? ==> s.fence == Some(op))
    && |Recorded(s, op, s.facts).attempts| < 16 && Unused(s, op, names)
  }

  ghost predicate JustOpened(s: State, op: Op, storage: Storage) {
    && LogInv(s) && Ready(s) && Leased(s) && s.run.value.at == RootWanted
    && s.run.value.todo == Script(s.run.value.plan.facts.files)
    && s.run.value.storage == storage && s.run.value.plan.op == op
  }

  lemma OpenLocked(s: State, w: Waiting, storage: Storage)
    requires LogInv(s) && GateEnabled(s, OpenAttempt(w, storage))
    ensures JustOpened(GateApply(s, OpenAttempt(w, storage)), w.plan.op, storage)
  {
    OpenKeeps(s, w, storage);
    hide JournalsOk, WaitingOk, Desk, Work, Loads, AttemptsPass;
    assert storage !in s.published;
  }

  /** A new lease for the plan of the source as it is, ending an old one if there is one. */
  lemma TakeLease(s: State, serial: int, plan: Plan) returns (s': State)
    requires LogInv(s) && serial !in s.served && Walked(plan.facts.files)
    ensures Reaches(s, s') && LogInv(s')
    ensures s' == s.(lease := Some(Lease(serial, plan)), served := s.served + {serial})
  {
    hide Reaches, LogInv, Walked;
    var free := s;
    if s.lease.Some? {
      free := GateApply(s, EndLease);
      GateKeeps(s, EndLease);
      OneGate(s, EndLease);
    } else {
      ReachesSelf(s);
    }
    s' := GateApply(free, AcquireLease(serial, plan));
    GateKeeps(free, AcquireLease(serial, plan));
    OneGate(free, AcquireLease(serial, plan));
    ReachesTrans(s, free, s');
  }

  /** A call enters under the current lease and takes its turn at the fence. */
  lemma EnterAndFence(s: State, id: int) returns (s': State)
    requires LogInv(s) && s.lease.Some? && s.run.None? && s.selector.None? && (forall w :: w in s.waiting ==> w.id != id)
    requires var plan := s.lease.value.plan;
      plan.facts == s.facts && plan.seen == s.fence && (s.fence.Some? ==> s.fence == Some(plan.op))
    ensures Reaches(s, s') && LogInv(s')
    ensures var lease := s.lease.value;
      s' == s.(fence := Some(lease.plan.op), waiting := s.waiting + {Waiting(id, lease.serial, lease.plan, true)},
               entered := s.entered + multiset{lease.serial})
  {
    hide Reaches, LogInv, Walked;
    var w := Waiting(id, s.lease.value.serial, s.lease.value.plan, false);
    var s1 := GateApply(s, ReadSelector(id));
    GateKeeps(s, ReadSelector(id));
    OneGate(s, ReadSelector(id));
    s' := GateApply(s1, FenceSource(w));
    GateKeeps(s1, FenceSource(w));
    OneGate(s1, FenceSource(w));
    ReachesTrans(s, s1, s');
    assert s.waiting + {w} - {w} == s.waiting;
  }

  /** What earlier runs left does not keep the next one from allocating its attempt. */
  lemma BeginRun(s: State, op: Op, names: Names) returns (s': State)
    requires LogInv(s) && CanStart(s, op, names)
    ensures Reaches(s, s') && JustOpened(s', op, names.storage)
    ensures s'.facts == s.facts && s'.copies == s.copies && s'.manifests == s.manifests && s'.selector == s.selector
    ensures s'.run.value.plan.facts == s.facts
  {
    hide Reaches, LogInv, Walked, Loads, AttemptsPass, JustOpened;
    var plan := Plan(op, s.facts, s.fence);
    var s1 := TakeLease(s, names.serial, plan);
    var s2 := EnterAndFence(s1, names.id);
    ReachesTrans(s, s1, s2);
    EarlierAttemptsPass(s2, op, plan);
    var w := Waiting(names.id, names.serial, plan, true);
    s' := GateApply(s2, OpenAttempt(w, names.storage));
    OpenLocked(s2, w, names.storage);
    OneGate(s2, OpenAttempt(w, names.storage));
    ReachesTrans(s, s2, s');
  }

  lemma EarlierAttemptsPass(s: State, op: Op, plan: Plan)
    requires LogInv(s) && s.selector.None? && plan.op == op && plan.facts == s.facts
    ensures Loads(Recorded(s, op, s.facts), plan) && AttemptsPass(s, Recorded(s, op, s.facts))
  {
    LogInvAccepts(s);
  }

  /** One fault-free run from any state that crashes left, whatever inodes the file system hands out,
      publishes a selector that verifies. */
  lemma FaultFreeRunPublishes(s0: State, steps: seq<Step>, s: State, op: Op, names: Names, inodes: Supply) returns (s': State)
    requires Init(s0) && Steps(s0, steps, s) && CanStart(s, op, names) && Migratable(s.facts.files)
    ensures Reaches(s, s') && s'.selector.Some? && s'.selector.value.storage == names.storage
    ensures Verifies(s', s'.selector.value)
    ensures names.storage in s'.storages && Numbered(s'.storages[names.storage], inodes)
  {
    hide Steps, Init, LogInv, Ready, Verifies, Migratable, Harmless, Walked, Script, Numbered;
    MigratableParts(s.facts.files);
    InitialLog(s0);
    LogHolds(s0, steps, s);
    var begun := BeginRun(s, op, names);
    s' := FinishAttempt(begun, inodes);
    ReachesTrans(s, begun, s');
    var more :| Steps(s, more, s');
    StepsAppend(s0, steps, s, more, s');
    MigrationAuthority.SelectorStaysExactly(s0, steps + more, s');
  }
}
