/**
 Write-ahead soundness: whatever a crashed pipeline left, the next run accepts the saved journal
 and the surviving trees as its own.
 */
module MigrationLog {
  import opened Common
  import opened Migration
  import opened MigrationDesk
  import opened MigrationScript
  import opened MigrationFrame

  /** The rest of the script once the file being reserved is set aside. */
  function Rest(r: Run): seq<Item> {
    if (r.at.FileWanted? || r.at.FileMade?) && r.todo != [] then r.todo[1..] else r.todo
  }

  /** The running pipeline's own bookkeeping. */
  ghost predicate Work(r: Run, entries: Entries) {
    && Walked(r.plan.facts.files) && Suffix(r.todo, Script(r.plan.facts.files))
    && (r.at.FileWanted? || r.at.FileMade? ==> r.todo != [] && r.todo[0] == FileItem(r.at.path))
    && (r.at.DirWanted? || r.at.DirMade? ==> r.todo != [] && r.at.path <= DirOf(r.todo[0]))
    && Origins(r.plan.facts.files, Rest(r), entries)
  }

  ghost predicate RunOk(s: State) {
    s.run.Some? ==>
      && InRun(s) && s.run.value.plan.facts == s.facts && s.fence == Some(s.run.value.plan.op)
      && Mine(s).storage == s.run.value.storage
      && (s.run.value.at == Finished || s.run.value.storage !in s.published)
      && (s.run.value.storage !in s.published ==> Desk(TreeOf(s, s.run.value.storage), Mine(s).entries, s.run.value.at))
      && Work(s.run.value, Mine(s).entries)
  }

  ghost predicate AttemptOk(s: State, a: Attempt) {
    PlainEntries(a.entries) && (a.storage in s.published || CheckAttempt(TreeOf(s, a.storage), a.entries))
  }

  ghost predicate JournalOk(s: State, j: Journal) {
    && j.facts == s.facts && |j.attempts| <= 16
    && (forall i, k :: 0 <= i < k < |j.attempts| ==> j.attempts[i].storage != j.attempts[k].storage)
    && (forall i :: 0 <= i < |j.attempts| ==> AttemptOk(s, j.attempts[i]))
  }

  ghost predicate JournalsOk(s: State) {
    forall op :: op in s.saved ==> s.fence == Some(op) && s.saved[op].op == op && JournalOk(s, s.saved[op])
  }

  ghost predicate WaitingOk(s: State) {
    && (s.lease.Some? ==> Walked(s.lease.value.plan.facts.files))
    && (forall w :: w in s.waiting ==>
          Walked(w.plan.facts.files) && (w.fenced ==> s.fence == Some(w.plan.op) && w.plan.facts == s.facts))
  }

  ghost predicate LogInv(s: State) {
    && JournalsOk(s) && WaitingOk(s) && RunOk(s)
    && (s.selector.None? <==> s.published == {}) && s.published <= s.storages.Keys
  }

  /** Reserving a name that is already recorded: the one step that spoils the journal. */
  predicate Overlays(s: State, a: Step) {
    a.WantFile? && InRun(s) && s.run.value.todo != [] && s.run.value.todo[0].path in Mine(s).entries
  }

  // ----- Effects of one step on the running attempt -----

  /** What a step of the run does: its attempt, its tree and its run record change, nothing else of the log. */
  ghost predicate Local(s: State, s': State) {
    && InRun(s) && InRun(s')
    && s'.facts == s.facts && s'.fence == s.fence && s'.waiting == s.waiting
    && s'.selector == s.selector && s'.published == s.published
    && s'.lease == s.lease && s'.served == s.served && s'.entered == s.entered
    && s'.run.value.plan == s.run.value.plan && s'.run.value.serial == s.run.value.serial
    && s'.run.value.storage == s.run.value.storage
    && s'.saved == Save(s, Mine(s')).saved
    && (forall st :: st != s.run.value.storage ==> TreeOf(s', st) == TreeOf(s, st))
    && Mine(s').storage == Mine(s).storage
  }

  lemma LocalKeeps(s: State, s': State)
    requires LogInv(s) && Local(s, s') && s.run.value.storage !in s.published
    requires Desk(TreeOf(s', s'.run.value.storage), Mine(s').entries, s'.run.value.at)
    requires Work(s'.run.value, Mine(s').entries)
    ensures LogInv(s')
  {
    hide Desk, Work, CheckAttempt, PlainEntries;
    DeskPasses(TreeOf(s', s'.run.value.storage), Mine(s').entries, s'.run.value.at);
    var op := s.run.value.plan.op;
    var j, j' := s.saved[op], s'.saved[op];
    forall i | 0 <= i < |j'.attempts| ensures AttemptOk(s', j'.attempts[i]) {
      if i < |j.attempts| - 1 {
        assert j'.attempts[i] == j.attempts[i] && AttemptOk(s, j.attempts[i]);
        assert j.attempts[i].storage != j.attempts[|j.attempts| - 1].storage;
      }
    }
    assert JournalOk(s', j');
    forall st | st in s.published ensures st in s'.storages { assert TreeOf(s', st) == TreeOf(s, st); }
    assert forall o :: o in s'.saved ==> o in s.saved;
  }

  lemma SaveSame(s: State)
    requires InRun(s)
    ensures Save(s, Mine(s)).saved == s.saved
  {
    var attempts := s.saved[s.run.value.plan.op].attempts;
    assert attempts[|attempts| - 1 := Mine(s)] == attempts;
  }

  lemma RecordIsLocal(s: State, a: Step)
    requires InRun(s) && Mine(s).storage == s.run.value.storage && RecordStep(a) && RecordEnabled(s, a)
    ensures Local(s, RecordApply(s, a))
  {
    hide IsDirectory;
    SaveSame(s);
  }

  lemma ContentIsLocal(s: State, a: Step)
    requires InRun(s) && Mine(s).storage == s.run.value.storage && ContentStep(a) && ContentEnabled(s, a) && !a.Publish?
    ensures Local(s, ContentApply(s, a))
  {
    hide TargetFiles, FileSet, Lists;
    SaveSame(s);
  }

  // ----- Steps keep the log -----

  ghost predicate Ready(s: State) {
    InRun(s) && s.run.value.at != Finished && Mine(s).storage == s.run.value.storage
    && Desk(TreeOf(s, s.run.value.storage), Mine(s).entries, s.run.value.at)
    && Work(s.run.value, Mine(s).entries)
  }

  lemma WantDirectoryKeeps(s: State, d: Path)
    requires Ready(s) && RecordEnabled(s, WantDirectory(d))
    ensures Ready(RecordApply(s, WantDirectory(d)))
  {
    hide Desk, Origins, Walked, Suffix, Script;
    var r, e := s.run.value, Mine(s).entries;
    var files, tree := r.plan.facts.files, TreeOf(s, r.storage);
    DeskPasses(tree, e, r.at);
    HeadOnce(files, r.todo);
    DirectoryName(files, r.todo[0], d);
    Intend(tree.value, e, d, true);
    OriginsDirectory(files, r.todo, e, d, Entry(None, true));
  }

  lemma WantFileKeeps(s: State)
    requires Ready(s) && RecordEnabled(s, WantFile) && !Overlays(s, WantFile)
    ensures Ready(RecordApply(s, WantFile))
  {
    hide Desk, Origins, Walked, Suffix, Script;
    var r, e := s.run.value, Mine(s).entries;
    var files, tree := r.plan.facts.files, TreeOf(s, r.storage);
    DeskPasses(tree, e, r.at);
    HeadOnce(files, r.todo);
    ItemShape(files, r.todo[0]);
    Intend(tree.value, e, r.todo[0].path, false);
    OriginsFile(files, r.todo, e, Entry(None, false));
  }

  lemma MakesKeep(s: State, a: Step)
    requires Ready(s) && (a.MakeRoot? || a.MakeDirectory? || a.MakeFile?) && RecordEnabled(s, a)
    ensures Ready(RecordApply(s, a))
  {
    hide Origins, Walked, Suffix, Script, CheckAttempt, Rooted, Settled, SettledBut, PlainEntries;
    var r, e := s.run.value, Mine(s).entries;
    if !a.MakeRoot? {
      var node := if a.MakeDirectory? then Dir(a.id) else File(a.id, EMPTY);
      Create(TreeOf(s, r.storage).value, e, r.at.path, node, r.at);
    }
  }

  lemma RecordRootKeeps(s: State)
    requires Ready(s) && RecordEnabled(s, RecordRoot)
    ensures Ready(RecordApply(s, RecordRoot))
  {
    var r := s.run.value;
    var tree := s.storages[r.storage];
    assert tree[ROOT].Dir?;
    hide Origins, Walked, Desk, Suffix, Script;
    RootRecorded(tree[ROOT].id, tree);
    OnlyRoot(r.plan.facts.files, r.todo, tree[ROOT].id);
  }

  lemma RecordDirectoryKeeps(s: State)
    requires Ready(s) && RecordEnabled(s, RecordDirectory)
    ensures Ready(RecordApply(s, RecordDirectory))
  {
    hide Origins, Walked, Desk, Suffix, Script;
    var r, e := s.run.value, Mine(s).entries;
    var tree := s.storages[r.storage];
    Confirm(tree, e, r.at.path, r.at);
    OriginsDirectory(r.plan.facts.files, r.todo, e, r.at.path, Entry(Some(tree[r.at.path].id), true));
  }

  lemma RecordFileKeeps(s: State)
    requires Ready(s) && RecordEnabled(s, RecordFile)
    ensures Ready(RecordApply(s, RecordFile))
  {
    hide Origins, Walked, Desk, Suffix, Script;
    var r, e := s.run.value, Mine(s).entries;
    PendingEntry(TreeOf(s, r.storage), e, r.at);
    var tree := s.storages[r.storage];
    Confirm(tree, e, r.at.path, r.at);
    HeadOnce(r.plan.facts.files, r.todo);
    OriginsConfirm(r.plan.facts.files, r.todo[1..], e, r.at.path, Entry(Some(tree[r.at.path].id), false));
  }

  lemma DirectoryDoneKeeps(s: State)
    requires Ready(s) && RecordEnabled(s, DirectoryDone)
    ensures Ready(RecordApply(s, DirectoryDone))
  {
    hide Origins, Walked, Desk, Suffix, Script;
    var r := s.run.value;
    HeadOnce(r.plan.facts.files, r.todo);
    OriginsShrink(r.plan.facts.files, r.todo, Mine(s).entries);
  }

  lemma OnlyRoot(files: Files, todo: seq<Item>, id: Inode)
    ensures Origins(files, todo, map[ROOT := Entry(Some(id), true)])
  {}

  lemma OriginsConfirm(files: Files, rest: seq<Item>, entries: Entries, p: Path, e: Entry)
    requires Origins(files, rest, entries) && p in entries && entries[p].directory == e.directory
    ensures Origins(files, rest, entries[p := e])
  {
    hide DirNeeded, FileNeeded;
  }

  lemma RecordKeeps(s: State, a: Step)
    requires LogInv(s) && RecordStep(a) && RecordEnabled(s, a) && !Overlays(s, a)
    ensures LogInv(RecordApply(s, a))
  {
    assert Ready(s);
    hide Desk, Work, JournalsOk, WaitingOk, Overlays, RecordApply, RecordEnabled, Ready;
    RecordIsLocal(s, a);
    match a {
      case WantDirectory(d) => WantDirectoryKeeps(s, d);
      case WantFile => WantFileKeeps(s);
      case RecordRoot => RecordRootKeeps(s);
      case RecordDirectory => RecordDirectoryKeeps(s);
      case RecordFile => RecordFileKeeps(s);
      case DirectoryDone => DirectoryDoneKeeps(s);
      case _ => MakesKeep(s, a);
    }
    ReadyKeeps(s, RecordApply(s, a));
  }

  lemma ReadyKeeps(s: State, s': State)
    requires LogInv(s) && s.run.Some? && s.run.value.at != Finished && Local(s, s') && Ready(s')
    ensures LogInv(s')
  {
    hide Desk, Work, JournalsOk, WaitingOk;
    LocalKeeps(s, s');
  }

  lemma ContentReady(s: State, a: Step)
    requires Ready(s) && ContentStep(a) && ContentEnabled(s, a) && !a.Publish?
    ensures Ready(ContentApply(s, a))
  {
    hide Origins, Walked, Suffix, Script, Desk, TargetFiles, FileSet, Lists;
    var r, e := s.run.value, Mine(s).entries;
    var tree := s.storages[r.storage];
    match a
    case WriteFile(p, content) => Fill(tree, e, p, content);
    case AuxiliaryFile(p, inode) =>
      AuxiliaryUnrecorded(r.plan.facts.files, Rest(r), e, p);
      if inode.Some? { AuxiliaryAppears(tree, e, p, inode.value); } else { AuxiliaryVanishes(tree, e, p); }
    case _ =>
  }

  /** The journal looks only at trees that were never published. */
  lemma JournalsFrame(s: State, s': State)
    requires JournalsOk(s) && s'.saved == s.saved && s'.facts == s.facts && s'.fence == s.fence
    requires s.published <= s'.published
    requires forall st :: st !in s'.published ==> TreeOf(s', st) == TreeOf(s, st)
    ensures JournalsOk(s')
  {
    hide CheckAttempt, PlainEntries;
    forall op | op in s.saved ensures JournalOk(s', s.saved[op]) {
      assert JournalOk(s, s.saved[op]);
      forall i | 0 <= i < |s.saved[op].attempts| ensures AttemptOk(s', s.saved[op].attempts[i]) {
        assert AttemptOk(s, s.saved[op].attempts[i]);
      }
    }
  }

  lemma PublishKeeps(s: State, s': State)
    requires ContentEnabled(s, Publish) && s' == ContentApply(s, Publish)
    requires LogInv(s)
    ensures LogInv(s')
  {
    hide Desk, Origins, Walked, Suffix, Script, JournalsOk;
    JournalsFrame(s, s');
    assert s.run.value.storage in s'.published;
  }

  lemma ContentKeeps(s: State, a: Step)
    requires LogInv(s) && ContentStep(a) && ContentEnabled(s, a)
    ensures LogInv(ContentApply(s, a))
  {
    if a.Publish? {
      PublishKeeps(s, ContentApply(s, a));
    } else {
      assert Ready(s);
      hide Desk, Work, JournalsOk, WaitingOk, ContentApply, Ready;
      ContentIsLocal(s, a);
      ContentReady(s, a);
      ReadyKeeps(s, ContentApply(s, a));
    }
  }

  lemma OpenKeeps(s: State, w: Waiting, storage: Storage)
    requires LogInv(s) && GateEnabled(s, OpenAttempt(w, storage))
    ensures LogInv(GateApply(s, OpenAttempt(w, storage)))
  {
    hide Walked, Script, Plain;
    var plan := w.plan;
    var s' := GateApply(s, OpenAttempt(w, storage));
    var j := Recorded(s, plan.op, plan.facts);
    var j' := s'.saved[plan.op];
    forall i | 0 <= i < |j'.attempts| ensures AttemptOk(s', j'.attempts[i]) {
      if i < |j.attempts| { assert AttemptOk(s, j.attempts[i]); }
    }
    assert JournalOk(s', j');
    forall op | op in s'.saved ensures op == plan.op {
      if op in s.saved { assert s.fence == Some(op); }
    }
    assert Mine(s') == Attempt(storage, Allocated, map[]);
    assert Origins(plan.facts.files, Script(plan.facts.files), map[]);
  }

  lemma FenceKeeps(s: State, w: Waiting)
    requires LogInv(s) && GateEnabled(s, FenceSource(w))
    ensures LogInv(GateApply(s, FenceSource(w)))
  {
    hide Walked, JournalOk;
    if s.fence.Some? { JournalsFrame(s, GateApply(s, FenceSource(w))); }
  }

  lemma GateKeeps(s: State, a: Step)
    requires LogInv(s) && GateStep(a) && GateEnabled(s, a)
    ensures LogInv(GateApply(s, a))
  {
    if a.OpenAttempt? {
      OpenKeeps(s, a.w, a.storage);
    } else if a.FenceSource? {
      FenceKeeps(s, a.w);
    } else {
      hide Walked, JournalsOk, RunOk;
      JournalsFrame(s, GateApply(s, a));
      RunFrame(s, GateApply(s, a));
    }
  }

  lemma RunFrame(s: State, s': State)
    requires RunOk(s) && s'.saved == s.saved && s'.storages == s.storages && s'.published == s.published
    requires s'.facts == s.facts && s'.fence == s.fence && (s'.run == s.run || s'.run.None?)
    ensures RunOk(s')
  {
    hide Desk, Work;
  }

  lemma HostKeeps(s: State, a: Step)
    requires LogInv(s) && HostStep(a) && HostEnabled(s, a)
    ensures LogInv(HostApply(s, a))
  {
    hide Walked, Work, Desk, Verifies, JournalOk;
    if !a.HostWrites? { JournalsFrame(s, HostApply(s, a)); }
  }

  lemma LogStep(s: State, a: Step)
    requires LogInv(s) && Enabled(s, a) && !Overlays(s, a)
    ensures LogInv(Apply(s, a))
  {
    hide LogInv, HostEnabled, GateEnabled, RecordEnabled, ContentEnabled, HostApply, GateApply, RecordApply, ContentApply, Overlays;
    if HostStep(a) { HostKeeps(s, a); }
    else if GateStep(a) { GateKeeps(s, a); }
    else if RecordStep(a) { RecordKeeps(s, a); }
    else { ContentKeeps(s, a); }
  }

  lemma RunReady(s: State)
    requires LogInv(s) && s.run.Some? && s.run.value.at != Finished
    ensures Ready(s)
  {
    hide JournalsOk, WaitingOk, Work, Desk;
  }

  // ----- Whole runs -----

  lemma GateFrozen(s: State, a: Step)
    requires s.fence.Some? && ((HostStep(a) && HostEnabled(s, a)) || (GateStep(a) && GateEnabled(s, a)))
    ensures Apply(s, a).fence == s.fence && Apply(s, a).facts == s.facts
  {
    hide Verifies, Loads, AttemptsPass;
  }

  lemma FrozenStep(s: State, a: Step)
    requires Enabled(s, a) && s.fence.Some?
    ensures Apply(s, a).fence == s.fence && Apply(s, a).facts == s.facts
  {
    hide HostEnabled, HostApply, GateEnabled, GateApply, RecordEnabled, RecordApply;
    if HostStep(a) || GateStep(a) { GateFrozen(s, a); }
    else if RecordStep(a) { RecordOutside(s, a); }
    else if !a.Publish? {
      hide ContentEnabled, ContentApply;
      ContentOutside(s, a);
    }
  }

  /** Once the source is fenced, no later step of any run unfences it or changes what was fenced. */
  lemma {:induction false} FrozenForever(s: State, steps: seq<Step>, s': State)
    requires s.fence.Some? && Steps(s, steps, s')
    ensures s'.fence == s.fence && s'.facts == s.facts
    decreases |steps|
  {
    hide Enabled, Apply;
    if steps != [] {
      FrozenStep(s, steps[0]);
      FrozenForever(Apply(s, steps[0]), steps[1..], s');
    }
  }

  lemma HarmlessNeverOverlays(s: State, a: Step)
    requires LogInv(s) && Enabled(s, a)
    ensures Overlays(s, a) ==> s.fence.Some? && !Harmless(s.facts.files)
  {
    hide Desk, JournalsOk, WaitingOk, Origins, Suffix, Script, Walked, Harmless;
    if a.WantFile? && Harmless(s.facts.files) {
      var r := s.run.value;
      HeadUnreserved(r.plan.facts.files, r.todo, Mine(s).entries);
    }
  }

  lemma {:induction false} LogHolds(s: State, steps: seq<Step>, s': State)
    requires LogInv(s) && Steps(s, steps, s') && Harmless(s'.facts.files)
    ensures LogInv(s')
    decreases |steps|
  {
    hide LogInv, Enabled, Apply, Harmless, Overlays;
    if steps != [] {
      HarmlessNeverOverlays(s, steps[0]);
      if s.fence.Some? { FrozenForever(s, steps, s'); }
      LogStep(s, steps[0]);
      LogHolds(Apply(s, steps[0]), steps[1..], s');
    }
  }

  lemma InitialLog(s: State)
    requires Init(s)
    ensures LogInv(s)
  {}

  /** The next run, planned from the source as it is, never takes this migration's leftovers for a conflict. */
  ghost predicate RerunAccepts(s: State) {
    forall op :: op in s.saved ==>
      && s.fence == Some(op) && Loads(s.saved[op], Plan(op, s.facts, s.fence))
      && (s.selector.None? ==> AttemptsPass(s, s.saved[op]))
  }

  lemma LogInvAccepts(s: State)
    requires LogInv(s)
    ensures RerunAccepts(s)
  {
    hide RunOk, WaitingOk, CheckAttempt, Plain;
    forall op | op in s.saved
      ensures s.fence == Some(op) && Loads(s.saved[op], Plan(op, s.facts, s.fence))
      ensures s.selector.None? ==> AttemptsPass(s, s.saved[op])
    {
      var j := s.saved[op];
      assert JournalOk(s, j);
      forall i | 0 <= i < |j.attempts|
        ensures PlainEntries(j.attempts[i].entries)
        ensures s.selector.None? ==> CheckAttempt(TreeOf(s, j.attempts[i].storage), j.attempts[i].entries)
      {
        assert AttemptOk(s, j.attempts[i]);
      }
    }
  }

  /** Write-ahead soundness at every point of every run, for a source with nothing inside the manifest's name. */
  lemma WriteAheadSound(s0: State, steps: seq<Step>, s: State)
    requires Init(s0) && Steps(s0, steps, s) && Harmless(s.facts.files)
    ensures RerunAccepts(s)
  {
    hide Steps, Init, LogInv, Harmless, RerunAccepts;
    InitialLog(s0);
    LogHolds(s0, steps, s);
    LogInvAccepts(s);
  }
}
