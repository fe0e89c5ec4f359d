/**
 Where the migration's promises end: a source file inside a directory with the manifest's name.
 Then some run spoils its own journal, after which no run gets past the check of its leftovers,
 and no run at all ever publishes.
 */
module MigrationLimits {
  import opened Common
  import opened Migration
  import opened MigrationDesk
  import opened MigrationScript
  import opened MigrationFrame
  import opened MigrationLog
  import opened MigrationProgress
  import opened MigrationCompletion

  // ----- A spoilt journal -----

  /** Some recorded attempt fails the check, and the run that did it, if any, cannot go on. */
  ghost predicate Spoilt(s: State) {
    && s.fence.Some? && s.fence.value in s.saved && s.saved[s.fence.value].facts == s.facts
    && s.published == {} && s.selector.None? && WaitingOk(s)
    && !AttemptsPass(s, s.saved[s.fence.value])
    && (s.run.Some? ==> s.run.value.at.FileWanted? && s.run.value.storage in s.storages
                        && s.run.value.at.path in s.storages[s.run.value.storage])
  }

  lemma SpoiltRunStops(s: State, a: Step)
    requires Spoilt(s) && Enabled(s, a)
    ensures HostStep(a) || GateStep(a)
    ensures !a.OpenAttempt? && !a.HostFile? && !a.HostWrites?
  {
    hide Walked, Verifies, TargetFiles, FileSet, Lists, Loads, CheckAttempt, AttemptsPass;
  }

  lemma SpoiltStep(s: State, a: Step)
    requires Spoilt(s) && Enabled(s, a)
    ensures Spoilt(Apply(s, a)) && Apply(s, a).manifests == s.manifests && Apply(s, a).copies == s.copies
    ensures Apply(s, a).facts == s.facts && Apply(s, a).storages == s.storages
  {
    SpoiltRunStops(s, a);
    hide Walked, Verifies, RecordEnabled, ContentEnabled, RecordApply, ContentApply, Loads, CheckAttempt;
    var s' := Apply(s, a);
    assert AttemptsPass(s', s.saved[s.fence.value]) <==> AttemptsPass(s, s.saved[s.fence.value]) by {
      assert s'.storages == s.storages;
    }
  }

  /** Reserving the manifest over a directory of its name. */
  lemma OverlaySpoils(s: State)
    requires LogInv(s) && RecordEnabled(s, WantFile) && Overlays(s, WantFile) && s.selector.None?
    ensures Spoilt(RecordApply(s, WantFile))
  {
    var s' := RecordApply(s, WantFile);
    RecordOutside(s, WantFile);
    OverlaidDirectory(s);
    var r := s.run.value;
    var p := r.todo[0].path;
    var j' := s'.saved[r.plan.op];
    var last := |j'.attempts| - 1;
    assert j'.attempts[last] == Mine(s') && Mine(s').entries[p] == Entry(None, false);
    assert !NodeExpected(s'.storages[r.storage], Mine(s').entries, p);
    assert !CheckAttempt(TreeOf(s', r.storage), Mine(s').entries);
  }

  lemma OverlaidDirectory(s: State)
    requires LogInv(s) && RecordEnabled(s, WantFile) && Overlays(s, WantFile)
    ensures var r := s.run.value; var p := r.todo[0].path;
      r.storage in s.storages && IsDirectory(s.storages[r.storage], p) && !Auxiliary(p) && Mine(s).storage == r.storage
  {
    hide LogInv, Desk, Walked, Suffix, Script;
    RunWorks(s);
    var r := s.run.value;
    HeadOnce(r.plan.facts.files, r.todo);
    ItemShape(r.plan.facts.files, r.todo[0]);
    RecordedIsThere(s, r.todo[0].path);
  }

  lemma RunWorks(s: State)
    requires LogInv(s) && s.run.Some? && s.run.value.at != Finished
    ensures Ready(s) && (s.run.value.at == Idle ==> Working(s))
  {
    hide LogInv, Work, Desk;
    RunReady(s);
    DeskPasses(TreeOf(s, s.run.value.storage), Mine(s).entries, s.run.value.at);
  }

  // ----- After activation the manifest's name is taken -----

  ghost predicate NameTaken(s: State) {
    s.run.Some? && s.run.value.at != Finished && !Harmless(s.run.value.plan.facts.files)
    && s.run.value.storage in s.copies && s.copies[s.run.value.storage].Activated? ==>
      InRun(s) && MANIFEST in Mine(s).entries && Mine(s).entries[MANIFEST].directory
  }

  lemma {:induction false} RootedAbove(tree: Tree, p: Path, k: nat)
    requires Rooted(tree) && p in tree && k < |p|
    ensures IsDirectory(tree, p[..k])
    decreases |p|
  {
    if k < |p| - 1 {
      RootedAbove(tree, Parent(p), k);
      assert Parent(p)[..k] == p[..k];
    }
  }

  lemma ActivationTakesName(s: State)
    requires Working(s) && !Harmless(s.run.value.plan.facts.files)
    requires TargetFiles(TreeIn(s)) == FileSet(s.run.value.plan.facts.files)
    ensures MANIFEST in Mine(s).entries && Mine(s).entries[MANIFEST].directory
  {
    hide Work;
    var files := s.run.value.plan.facts.files;
    var i :| 0 <= i < |files| && Below(files[i].0, MANIFEST);
    assert files[i] in FileSet(files);
    assert files[i].0 in TreeIn(s);
    RootedAbove(TreeIn(s), files[i].0, 2);
    assert files[i].0[..2] == MANIFEST;
    NodeAt(TreeIn(s), Mine(s).entries, MANIFEST);
  }

  lemma RecordKeepsName(s: State, a: Step)
    requires Ready(s) && NameTaken(s) && RecordStep(a) && RecordEnabled(s, a) && !Overlays(s, a)
    ensures NameTaken(RecordApply(s, a))
  {
    hide Work, Harmless, CheckAttempt, Rooted, PlainEntries, SettledBut, IsDirectory;
  }

  lemma ContentKeepsName(s: State, a: Step)
    requires LogInv(s) && NameTaken(s) && ContentStep(a) && ContentEnabled(s, a)
    ensures NameTaken(ContentApply(s, a))
  {
    hide LogInv, Harmless, TargetFiles, FileSet, Lists, Desk, Work;
    if a.Activate? && !Harmless(s.run.value.plan.facts.files) {
      RunWorks(s);
      ActivationTakesName(s);
    }
  }

  lemma NoManifestWritten(s: State, a: Step)
    requires LogInv(s) && NameTaken(s) && ContentStep(a) && ContentEnabled(s, a) && !Migratable(s.facts.files)
    ensures !a.WriteManifest?
  {
    if a.WriteManifest? {
      hide Desk, Work, Harmless, Migratable, Lists;
      MigratableParts(s.facts.files);
      RunWorks(s);
      RecordedIsThere(s, MANIFEST);
    }
  }

  // ----- Every reachable state -----

  /** Before the fence nothing is copied; behind it an unmigratable source never gets a manifest. */
  ghost predicate Held(s: State) {
    && (forall st :: st in s.copies ==> st in s.storages)
    && (s.fence.None? ==> s.copies == map[])
    && (s.fence.None? || !Migratable(s.facts.files) ==> s.manifests == map[] && s.selector.None?)
  }

  ghost predicate Total(s: State) {
    Held(s) && ((LogInv(s) && NameTaken(s)) || Spoilt(s))
  }

  lemma HeldRecord(s: State, a: Step)
    requires Held(s) && RecordStep(a) && RecordEnabled(s, a)
    ensures Held(RecordApply(s, a))
  {
    hide Migratable, IsDirectory, Lists;
    RecordOutside(s, a);
  }

  lemma HeldContent(s: State, a: Step)
    requires Held(s) && LogInv(s) && NameTaken(s) && ContentStep(a) && ContentEnabled(s, a)
    ensures Held(ContentApply(s, a))
  {
    if !Migratable(s.facts.files) { NoManifestWritten(s, a); }
    FencedRun(s);
    hide LogInv, NameTaken, Migratable, TargetFiles, FileSet, Lists;
  }

  lemma FencedRun(s: State)
    requires LogInv(s)
    ensures s.run.Some? ==> s.fence.Some?
  {
    hide JournalsOk, WaitingOk, Work, Desk;
  }

  lemma HeldGate(s: State, a: Step)
    requires Held(s) && ((HostStep(a) && HostEnabled(s, a)) || (GateStep(a) && GateEnabled(s, a)))
    ensures Held(Apply(s, a))
  {
    hide Migratable, Verifies, Loads, AttemptsPass, Walked;
  }

  lemma NameGate(s: State, a: Step)
    requires Held(s) && LogInv(s) && NameTaken(s) && ((HostStep(a) && HostEnabled(s, a)) || (GateStep(a) && GateEnabled(s, a)))
    ensures NameTaken(Apply(s, a))
  {
    hide LogInv, Harmless, Migratable, Verifies, Loads, AttemptsPass, Walked, Script;
  }

  lemma NameStep(s: State, a: Step)
    requires Held(s) && LogInv(s) && NameTaken(s) && Enabled(s, a) && !Overlays(s, a)
    ensures NameTaken(Apply(s, a))
  {
    hide LogInv, NameTaken, HostEnabled, GateEnabled, ContentEnabled, HostApply, GateApply, RecordApply, ContentApply, Overlays;
    if HostStep(a) || GateStep(a) { NameGate(s, a); }
    else if RecordStep(a) { RunWorks(s); RecordKeepsName(s, a); }
    else { ContentKeepsName(s, a); }
  }

  lemma HeldStep(s: State, a: Step)
    requires Held(s) && LogInv(s) && NameTaken(s) && Enabled(s, a)
    ensures Held(Apply(s, a))
  {
    hide LogInv, NameTaken, Held, HostEnabled, GateEnabled, RecordEnabled, ContentEnabled;
    hide HostApply, GateApply, RecordApply, ContentApply;
    if HostStep(a) || GateStep(a) { HeldGate(s, a); }
    else if RecordStep(a) { HeldRecord(s, a); }
    else { HeldContent(s, a); }
  }

  lemma TotalStep(s: State, a: Step)
    requires Total(s) && Enabled(s, a)
    ensures Total(Apply(s, a))
  {
    if Spoilt(s) {
      hide Enabled, Apply, LogInv, NameTaken, Migratable;
      SpoiltStep(s, a);
    } else {
      hide LogInv, NameTaken, Held, Spoilt, Apply, Migratable, Overlays;
      HeldStep(s, a);
      if Overlays(s, a) { OverlayStep(s, a); } else { LogStep(s, a); NameStep(s, a); }
    }
  }

  lemma OverlayStep(s: State, a: Step)
    requires LogInv(s) && Held(s) && Enabled(s, a) && Overlays(s, a)
    ensures Spoilt(Apply(s, a))
  {
    HarmlessNeverOverlays(s, a);
    MigratableParts(s.facts.files);
    hide LogInv, Spoilt, Harmless, Migratable, RecordApply;
    OverlaySpoils(s);
  }

  lemma {:induction false} TotalHolds(s: State, steps: seq<Step>, s': State)
    requires Total(s) && Steps(s, steps, s')
    ensures Total(s')
    decreases |steps|
  {
    hide Total, Enabled, Apply;
    if steps != [] {
      TotalStep(s, steps[0]);
      TotalHolds(Apply(s, steps[0]), steps[1..], s');
    }
  }

  lemma InitialTotal(s: State)
    requires Init(s)
    ensures Total(s)
  {
    InitialLog(s);
  }

  // ----- Exact results -----

  ghost predicate CanPublish(s: State) { exists s' :: Reaches(s, s') && s'.selector.Some? }

  /** From a fenced state with room for an attempt, some run publishes iff no file is at or inside the manifest's name. */
  lemma PublishesExactly(s0: State, steps: seq<Step>, s: State, op: Op, names: Names)
    requires Init(s0) && Steps(s0, steps, s) && CanStart(s, op, names) && s.fence.Some?
    ensures CanPublish(s) <==> Migratable(s.facts.files)
  {
    hide Steps, Init, Total, Migratable, CanStart, Verifies;
    if Migratable(s.facts.files) {
      var s' := FaultFreeRunPublishes(s0, steps, s, op, names, _ => 0);
    } else {
      InitialTotal(s0);
      TotalHolds(s0, steps, s);
      forall s' | Reaches(s, s') ensures s'.selector.None? {
        var more :| Steps(s, more, s');
        TotalHolds(s, more, s');
        FrozenForever(s, more, s');
        assert Held(s') by { TotalIsHeld(s'); }
      }
    }
  }

  lemma TotalIsHeld(s: State)
    requires Total(s)
    ensures Held(s)
  {}

  ghost predicate AlwaysAccepted(s: State) { forall s' :: Reaches(s, s') ==> RerunAccepts(s') }

  /** The run that spoils the journal: everything is copied and activated, then the manifest is reserved. */
  lemma SpoilingRun(s: State, op: Op, names: Names) returns (s': State)
    requires LogInv(s) && Held(s) && CanStart(s, op, names) && !Harmless(s.facts.files)
    ensures Reaches(s, s') && Spoilt(s')
  {
    hide LogInv, Held, Reaches, Harmless, Walked, Script, Desk, Work, Spoilt, Overlays, AllTaken;
    ListedWouldBeHarmless(s.facts.files);
    var begun := BeginRun(s, op, names);
    var copied := CopyAndActivate(begun, _ => 0);
    NameIsOverlaid(copied);
    LogAgain(begun, copied);
    s' := RecordApply(copied, WantFile);
    OneRecord(copied, WantFile);
    OverlaySpoils(copied);
    ReachesTrans(s, begun, copied);
    ReachesTrans(s, copied, s');
  }

  lemma ListedWouldBeHarmless(files: Files)
    requires Walked(files) && !Harmless(files)
    ensures !Lists(files, MANIFEST)
  {
    hide Walked, Harmless;
    if Lists(files, MANIFEST) { ListedIsHarmless(files); }
  }

  lemma LogAgain(s: State, s': State)
    requires LogInv(s) && s.run.Some? && s.run.value.at != Finished && Local(s, s') && Working(s')
    ensures LogInv(s')
  {
    hide JournalsOk, WaitingOk, Desk, Work;
    ReadyKeeps(s, s');
  }

  lemma NameIsOverlaid(s: State)
    requires Working(s) && s.run.value.todo == [FileItem(MANIFEST)] && AllTaken(s, 0, 5 + |s.run.value.plan.facts.files|)
    requires !Harmless(s.run.value.plan.facts.files) && Leased(s)
    requires s.run.value.storage in s.copies && s.copies[s.run.value.storage].Activated?
    ensures RecordEnabled(s, WantFile) && Overlays(s, WantFile)
  {
    hide Desk, Work, Script;
    var files := s.run.value.plan.facts.files;
    var i :| 0 <= i < |files| && Below(files[i].0, MANIFEST);
    ScriptAt(files, 5 + i);
    assert Taken(Mine(s).entries, Script(files)[5 + i]);
    var d := Parent(files[i].0);
    assert AllAbove(Mine(s).entries, d);
    assert d[..2] == MANIFEST && d[..1] == [Recovery];
    assert Parent(MANIFEST) == [Recovery];
  }

  /** Write-ahead soundness holds for all continuations iff nothing lies inside the manifest's name. */
  lemma WriteAheadExactly(s0: State, steps: seq<Step>, s: State, op: Op, names: Names)
    requires Init(s0) && Steps(s0, steps, s) && CanStart(s, op, names) && s.fence.Some?
    ensures AlwaysAccepted(s) <==> Harmless(s.facts.files)
  {
    hide Steps, Init, LogInv, Harmless, CanStart, RerunAccepts, Spoilt, Held, NameTaken;
    if Harmless(s.facts.files) {
      forall s' | Reaches(s, s') ensures RerunAccepts(s') {
        var more :| Steps(s, more, s');
        FrozenForever(s, more, s');
        StepsAppend(s0, steps, s, more, s');
        WriteAheadSound(s0, steps + more, s');
      }
    } else {
      InitialTotal(s0);
      TotalHolds(s0, steps, s);
      if Spoilt(s) {
        ReachesSelf(s);
        SpoiltIsRejected(s);
      } else {
        var s' := SpoilingRun(s, op, names);
        SpoiltIsRejected(s');
      }
    }
  }

  lemma SpoiltIsRejected(s: State)
    requires Spoilt(s)
    ensures !RerunAccepts(s)
  {
    AcceptedPasses(s, s.fence.value);
  }

  lemma AcceptedPasses(s: State, op: Op)
    requires op in s.saved && s.selector.None?
    ensures RerunAccepts(s) ==> AttemptsPass(s, s.saved[op])
  {}

  // ----- The attempt limit -----

  /** All attempts are used up, none was published and no pipeline is in its locked part. */
  ghost predicate Exhausted(s: State) {
    && s.fence.Some? && s.fence.value in s.saved && |s.saved[s.fence.value].attempts| >= 16
    && s.run.None? && s.selector.None? && WaitingOk(s)
  }

  lemma ExhaustedStep(s: State, a: Step)
    requires Exhausted(s) && Enabled(s, a)
    ensures Exhausted(Apply(s, a))
  {
    hide Exhausted, HostEnabled, GateEnabled, RecordEnabled, ContentEnabled, HostApply, GateApply, RecordApply, ContentApply;
    if HostStep(a) { ExhaustedHost(s, a); } else { ExhaustedGate(s, a); }
  }

  lemma ExhaustedHost(s: State, a: Step)
    requires Exhausted(s) && HostStep(a) && HostEnabled(s, a)
    ensures Exhausted(HostApply(s, a))
  {
    hide HostEnabled, HostApply, Walked;
    MigrationAuthority.HostFrame(s, a);
    FencedHost(s, a);
  }

  lemma FencedHost(s: State, a: Step)
    requires s.fence.Some? && HostStep(a) && HostEnabled(s, a)
    ensures !a.HostWrites? && HostApply(s, a).facts == s.facts
  {
    hide Verifies;
  }

  lemma ExhaustedGate(s: State, a: Step)
    requires Exhausted(s) && !HostStep(a) && Enabled(s, a)
    ensures GateStep(a) && Exhausted(Apply(s, a))
  {
    hide Walked, Loads, AttemptsPass, RecordApply, ContentApply, HostEnabled, HostApply;
  }

  lemma {:induction false} ExhaustedForever(s: State, steps: seq<Step>, s': State)
    requires Exhausted(s) && Steps(s, steps, s')
    ensures Exhausted(s')
    decreases |steps|
  {
    hide Exhausted, Enabled, Apply;
    if steps != [] {
      ExhaustedStep(s, steps[0]);
      ExhaustedForever(Apply(s, steps[0]), steps[1..], s');
    }
  }

  lemma TotalWaiting(s: State)
    requires Total(s)
    ensures WaitingOk(s)
  {
    hide WaitingOk, JournalsOk, RunOk;
  }

  /** Sixteen attempts without a publication: the source stays fenced and no run ever publishes. */
  lemma AttemptLimitIsFinal(s0: State, before: seq<Step>, s: State, op: Op, later: seq<Step>, s': State)
    requires Init(s0) && Steps(s0, before, s) && Steps(s, later, s')
    requires op in s.saved && s.fence == Some(op) && |s.saved[op].attempts| >= 16 && s.run.None? && s.selector.None?
    ensures s'.selector.None? && s'.fence == Some(op)
  {
    hide Steps, Init, Total, WaitingOk;
    InitialTotal(s0);
    TotalHolds(s0, before, s);
    TotalWaiting(s);
    ExhaustedForever(s, later, s');
    FrozenForever(s, later, s');
  }
}
